/**
 * The composite layer. CompositeStrategy wires a selector, an entry rule
 * and an exit rule together, keeps a config snapshot of the three, tags
 * every entry signal with the layer names and hands exits to the exit rule.
 * The four-layer factory, the B1 composite, the preset table and the
 * composite registry build such strategies by name.
 */
module Composite {
  import opened Wrappers
  import opened Values
  import opened Signals
  import opened Selection
  import opened Bars
  import Entry
  import Exits
  import Execution
  import B1Selection
  import PyStr

  // ---------- The config snapshot ----------

  function NumValue(n: Num): Value
  {
    if n.Int? then VInt(n.i) else VFloat(n.f)
  }

  /** A params dict as the Python values it holds. */
  function ParamsValue(p: Params): (m: map<string, Value>)
    ensures m.Keys == p.Keys
  {
    map k | k in p :: NumValue(p[k])
  }

  /** The numeric entries of a Python dict, read back as a params dict. */
  function NumEntries(m: map<string, Value>): (p: Params)
    ensures forall k :: k in p <==> k in m && (m[k].VInt? || m[k].VFloat?)
  {
    map k | k in m && (m[k].VInt? || m[k].VFloat?) :: if m[k].VInt? then Int(m[k].i) else Float(m[k].f)
  }

  /** Reading the snapshot's numbers back gives the component's own dict. */
  lemma ParamsRoundTrip(p: Params)
    ensures NumEntries(ParamsValue(p)) == p
  {
    var q := NumEntries(ParamsValue(p));
    forall k | k in p ensures k in q && q[k] == p[k] {
      assert ParamsValue(p)[k] == NumValue(p[k]);
    }
  }

  function OptValue(o: Option<real>): Value
  {
    if o.Some? then VFloat(o.value) else VNone
  }

  /**
   * _extract_params of an exit rule. FixedRiskExit has no params dict and
   * is no dataclass, so it has no snapshot; the other rules are
   * dataclasses, whose asdict holds the name field and every parameter.
   */
  function ExitParams(rule: Exits.ExitRule): (r: Option<map<string, Value>>)
    ensures r.None? <==> rule.FixedRisk?
    ensures r.Some? ==> "name" in r.value && r.value["name"] == VStr(rule.Name())
  {
    match rule
    case FixedRisk => None
    case TimeBased(d) => Some(map["name" := VStr("time_exit"), "max_holding_days" := VFloat(d)])
    case TrailingStop(p) => Some(map["name" := VStr("trailing_exit"), "trailing_pct" := VFloat(p)])
    case Advanced(t, m, l) =>
      Some(map["name" := VStr("advanced_exit"), "trailing_pct" := OptValue(t),
               "max_holding_days" := OptValue(m), "lock_profit_after_rr" := OptValue(l)])
  }

  /** The name attribute of B1Selection. */
  const SelectionName: string := "b1_selection"

  /** A composite: its three layers, its name, and (when the factory built it) its execution model. */
  datatype Strategy = Strategy(
    selection: B1Selection.Selector,
    entry: Entry.EntryRule,
    exitRule: Exits.ExitRule,
    execution: Option<Execution.ExecutionModel>,
    name: string)
  {
    predicate Valid()
    {
      selection.Valid() && entry.Valid()
    }
  }

  /** One layer's entry of the snapshot: the component's name and params. */
  datatype Layer = Layer(name: string, params: Option<map<string, Value>>)

  /** self.config: the three layers and the composite's name. */
  datatype Snapshot = Snapshot(selection: Layer, entry: Layer, exit: Layer, compositeName: string)

  /** to_dict: the snapshot taken at construction (a copy of the config dict). */
  function ToDict(s: Strategy): (c: Snapshot)
    ensures c.compositeName == s.name
    ensures c.selection.name == SelectionName && c.entry.name == s.entry.Name() && c.exit.name == s.exitRule.Name()
  {
    Snapshot(Layer(SelectionName, Some(ParamsValue(s.selection.params))),
             Layer(s.entry.Name(), Some(ParamsValue(s.entry.params))),
             Layer(s.exitRule.Name(), ExitParams(s.exitRule)),
             s.name)
  }

  /** The entry registry's key for an entry rule. */
  function EntryKey(e: Entry.EntryRule): string
  {
    if e.kind == Entry.B1 then "b1" else "b1_tplus1"
  }

  /** The exit registry's key for an exit rule. */
  function ExitKey(rule: Exits.ExitRule): string
  {
    match rule
    case FixedRisk => "fixed"
    case TimeBased(_) => "time"
    case TrailingStop(_) => "trailing"
    case Advanced(_, _, _) => "advanced"
  }

  /**
   * The snapshot is enough to rebuild the layers: handing each layer's
   * params back to its registry gives the same selector, entry rule and
   * exit rule. This holds for selectors the registry builds (default
   * conditions, AND) and for advanced exits with all three settings given,
   * since asdict records a disabled setting as None and the registry then
   * falls back to its default.
   */
  lemma SnapshotRebuilds(s: Strategy)
    requires s.Valid() && s.selection.active == B1Selection.DefaultActive() && s.selection.logic == "AND"
    requires s.exitRule.Advanced? ==> s.exitRule.trailing.Some? && s.exitRule.maxHolding.Some? && s.exitRule.lockProfitAfterRr.Some?
    ensures var c := ToDict(s);
      && B1Selection.GetSelection("b1", Some(NumEntries(c.selection.params.value))) == Ok(s.selection)
      && Entry.GetEntry(EntryKey(s.entry), Some(NumEntries(c.entry.params.value))) == Ok(s.entry)
      && Exits.GetExit(ExitKey(s.exitRule), if c.exit.params.Some? then NumEntries(c.exit.params.value) else map[]) == Ok(s.exitRule)
  {
    SelectionRebuilds(s.selection);
    EntryRebuilds(s.entry);
    ExitRebuilds(s.exitRule);
  }

  lemma SelectionRebuilds(sel: B1Selection.Selector)
    requires sel.Valid() && sel.active == B1Selection.DefaultActive() && sel.logic == "AND"
    ensures B1Selection.GetSelection("b1", Some(NumEntries(ParamsValue(sel.params)))) == Ok(sel)
  {
    ParamsRoundTrip(sel.params);
    assert Merge(B1Selection.DefaultParams(), sel.params) == sel.params;
    PyStr.LowerOfLower("b1");
  }

  lemma EntryRebuilds(e: Entry.EntryRule)
    requires e.Valid()
    ensures Entry.GetEntry(EntryKey(e), Some(NumEntries(ParamsValue(e.params)))) == Ok(e)
  {
    ParamsRoundTrip(e.params);
    assert Merge(Entry.DefaultParams(), e.params) == e.params;
    PyStr.LowerOfLower(EntryKey(e));
  }

  lemma ExitRebuilds(rule: Exits.ExitRule)
    requires rule.Advanced? ==> rule.trailing.Some? && rule.maxHolding.Some? && rule.lockProfitAfterRr.Some?
    ensures Exits.GetExit(ExitKey(rule), if ExitParams(rule).Some? then NumEntries(ExitParams(rule).value) else map[]) == Ok(rule)
  {
    match rule
    case FixedRisk => PyStr.LowerOfLower("fixed");
    case TimeBased(d) => TimeRebuilds(d);
    case TrailingStop(p) => TrailingRebuilds(p);
    case Advanced(t, m, l) => AdvancedRebuilds(t.value, m.value, l.value);
  }

  lemma TimeRebuilds(d: real)
    ensures Exits.GetExit("time", NumEntries(ExitParams(Exits.TimeBased(d)).value)) == Ok(Exits.TimeBased(d))
  {
    PyStr.LowerOfLower("time");
    assert NumEntries(ExitParams(Exits.TimeBased(d)).value) == map["max_holding_days" := Float(d)];
  }

  lemma TrailingRebuilds(p: real)
    ensures Exits.GetExit("trailing", NumEntries(ExitParams(Exits.TrailingStop(p)).value)) == Ok(Exits.TrailingStop(p))
  {
    PyStr.LowerOfLower("trailing");
    assert NumEntries(ExitParams(Exits.TrailingStop(p)).value) == map["trailing_pct" := Float(p)];
  }

  lemma AdvancedRebuilds(t: real, m: real, l: real)
    ensures var rule := Exits.Advanced(Some(t), Some(m), Some(l));
      Exits.GetExit("advanced", NumEntries(ExitParams(rule).value)) == Ok(rule)
  {
    PyStr.LowerOfLower("advanced");
    var rule := Exits.Advanced(Some(t), Some(m), Some(l));
    var d := ExitParams(rule).value;
    assert d["trailing_pct"] == VFloat(t) && d["max_holding_days"] == VFloat(m) && d["lock_profit_after_rr"] == VFloat(l);
    var q := NumEntries(d);
    assert q.Keys <= {"trailing_pct", "max_holding_days", "lock_profit_after_rr"} + {"name"};
    assert Exits.CheckKeywords(q, {"trailing_pct", "max_holding_days", "lock_profit_after_rr"}).None?;
    assert q["trailing_pct"] == Float(t) && q["max_holding_days"] == Float(m) && q["lock_profit_after_rr"] == Float(l);
  }

  // ---------- generate_entries ----------

  /**
   * The tags of one signal: meta is created when absent, and "selection"
   * and "entry" are set only when missing.
   */
  function Tag(sig: Signal, selection: string, entry: string): (r: Signal)
    ensures r == sig.(meta := r.meta) && r.meta.Some?
    ensures r.meta.value.Keys == sig.meta.GetOr(map[]).Keys + {"selection", "entry"}
    ensures forall k :: k in sig.meta.GetOr(map[]) ==> r.meta.value[k] == sig.meta.GetOr(map[])[k]
    ensures "selection" !in sig.meta.GetOr(map[]) ==> r.meta.value["selection"] == selection
    ensures "entry" !in sig.meta.GetOr(map[]) ==> r.meta.value["entry"] == entry
  {
    sig.(meta := Some(SetDefault(SetDefault(sig.meta.GetOr(map[]), "selection", selection), "entry", entry)))
  }

  /** Tagging twice changes nothing: the first tags are never overwritten, whatever the later names. */
  lemma TagKeepsFirstTags(sig: Signal, a: string, b: string, c: string, d: string)
    ensures Tag(Tag(sig, a, b), c, d) == Tag(sig, a, b)
  {
  }

  function TagAll(sigs: seq<Signal>, selection: string, entry: string): (r: seq<Signal>)
    ensures |r| == |sigs| && forall k :: 0 <= k < |sigs| ==> r[k] == Tag(sigs[k], selection, entry)
  {
    seq(|sigs|, k requires 0 <= k < |sigs| => Tag(sigs[k], selection, entry))
  }

  /** The tagged signals of one selected symbol; a symbol without data gives none. */
  function SymbolSignals(s: Strategy, sym: string, md: Listing): seq<Signal>
    requires s.Valid()
  {
    var m := ToMap(md);
    if sym in m then TagAll(Entry.Generate(s.entry, sym, m[sym]), SelectionName, s.entry.Name()) else []
  }

  /** The signals of the selected symbols, symbol by symbol, in selection order. */
  function EntriesFor(s: Strategy, syms: seq<string>, md: Listing): seq<Signal>
    requires s.Valid()
  {
    if syms == [] then [] else SymbolSignals(s, syms[0], md) + EntriesFor(s, syms[1..], md)
  }

  /** generate_entries: select first (its error propagates), then the entries of the selected symbols. */
  function Entries(s: Strategy, md: Listing): Result<seq<Signal>>
    requires s.Valid()
  {
    var sel := B1Selection.Select(s.selection, md);
    if sel.Err? then Err(sel.error) else Ok(EntriesFor(s, sel.value, md))
  }

  /** The output is the concatenation of the per-symbol lists: selecting a then b gives a's signals, then b's. */
  lemma {:induction false} EntriesForAppend(s: Strategy, a: seq<string>, b: seq<string>, md: Listing)
    requires s.Valid()
    ensures EntriesFor(s, a + b, md) == EntriesFor(s, a, md) + EntriesFor(s, b, md)
  {
    if a != [] {
      assert (a + b)[0] == a[0] && (a + b)[1..] == a[1..] + b;
      EntriesForAppend(s, a[1..], b, md);
    } else {
      assert a + b == b;
    }
  }

  /** The entry rules emit signals for the symbol they were given. */
  lemma GeneratedSymbol(e: Entry.EntryRule, sym: string, f: Frame)
    requires e.Valid()
    ensures forall x :: x in Entry.Generate(e, sym, f) ==> x.symbol == sym
  {
    var base := Entry.B1Generate(e, sym, f);
    Entry.B1Signal(e, sym, f);
    if base != [] && e.kind == Entry.B1TPlus1 {
      Entry.TPlus1Delays(e, sym, f);
    }
  }

  /** One symbol's signals carry both tags and that symbol, which has data. */
  lemma SymbolSignalsTagged(s: Strategy, sym: string, md: Listing)
    requires s.Valid()
    ensures forall x :: x in SymbolSignals(s, sym, md) ==>
      (x.meta.Some? && "selection" in x.meta.value && "entry" in x.meta.value &&
       x.symbol == sym && sym in ToMap(md))
  {
    var m := ToMap(md);
    if sym in m {
      GeneratedSymbol(s.entry, sym, m[sym]);
      var raw := Entry.Generate(s.entry, sym, m[sym]);
      var tagged := TagAll(raw, SelectionName, s.entry.Name());
      forall x | x in tagged ensures x.symbol == sym && x.meta.Some? && "selection" in x.meta.value && "entry" in x.meta.value {
        var k :| 0 <= k < |tagged| && tagged[k] == x;
        assert raw[k] in raw;
      }
    }
  }

  /**
   * Every entry signal carries both layer tags and belongs to a selected
   * symbol that has data.
   */
  lemma {:induction false} EntriesForTagged(s: Strategy, syms: seq<string>, md: Listing)
    requires s.Valid()
    ensures forall x :: x in EntriesFor(s, syms, md) ==>
      (x.meta.Some? && "selection" in x.meta.value && "entry" in x.meta.value &&
       x.symbol in syms && x.symbol in ToMap(md))
  {
    if syms != [] {
      EntriesForTagged(s, syms[1..], md);
      SymbolSignalsTagged(s, syms[0], md);
      forall x | x in EntriesFor(s, syms[1..], md) ensures x.symbol in syms {
        assert x.symbol in syms[1..];
      }
    }
  }

  /** Selected symbols with no market data contribute nothing. */
  lemma EntriesSkipMissing(s: Strategy, sym: string, md: Listing)
    requires s.Valid() && sym !in Keys(md)
    ensures EntriesFor(s, [sym], md) == []
  {
    assert [sym][1..] == [];
  }

  /** The per-symbol tagging loop: each signal of the list gets its tags. */
  method TagSignals(sigs: seq<Signal>, selection: string, entry: string) returns (tagged: seq<Signal>)
    ensures tagged == TagAll(sigs, selection, entry)
  {
    tagged := [];
    for j := 0 to |sigs|
      invariant |tagged| == j && forall i :: 0 <= i < j ==> tagged[i] == Tag(sigs[i], selection, entry)
    {
      tagged := tagged + [Tag(sigs[j], selection, entry)];
    }
  }

  /** One iteration of generate_entries: the symbol's data, its signals, their tags. */
  method SymbolEntries(s: Strategy, sym: string, md: Listing, m: map<string, Frame>) returns (out: seq<Signal>)
    requires s.Valid() && m == ToMap(md)
    ensures out == SymbolSignals(s, sym, md)
  {
    out := [];
    if sym in m {
      out := TagSignals(Entry.Generate(s.entry, sym, m[sym]), SelectionName, s.entry.Name());
    }
  }

  lemma EntriesForStep(s: Strategy, syms: seq<string>, k: nat, md: Listing)
    requires s.Valid() && k < |syms|
    ensures EntriesFor(s, syms[k..], md) == SymbolSignals(s, syms[k], md) + EntriesFor(s, syms[k + 1..], md)
  {
    assert syms[k..][0] == syms[k] && syms[k..][1..] == syms[k + 1..];
  }

  /** The loop over the selected symbols, extending the result list. */
  method EntriesLoop(s: Strategy, syms: seq<string>, md: Listing) returns (signals: seq<Signal>)
    requires s.Valid()
    ensures signals == EntriesFor(s, syms, md)
  {
    var m := ToMap(md);
    signals := [];
    assert syms[0..] == syms;
    for k := 0 to |syms|
      invariant signals + EntriesFor(s, syms[k..], md) == EntriesFor(s, syms, md)
    {
      var out := SymbolEntries(s, syms[k], md, m);
      EntriesForStep(s, syms, k, md);
      signals := signals + out;
    }
    assert syms[|syms|..] == [];
    assert EntriesFor(s, syms[|syms|..], md) == [];
  }

  /** generate_entries: select first (its error propagates), then the loop over the selected symbols. */
  method GenerateEntries(s: Strategy, md: Listing) returns (r: Result<seq<Signal>>)
    requires s.Valid()
    ensures r == Entries(s, md)
  {
    var sel := B1Selection.Select(s.selection, md);
    if sel.Err? {
      return Err(sel.error);
    }
    var signals := EntriesLoop(s, sel.value, md);
    return Ok(signals);
  }

  /** evaluate_exit: the exit rule's evaluate, unchanged. */
  method EvaluateExit(s: Strategy, pos: Exits.Position, bar: Exits.ExitBar) returns (d: Exits.ExitDecision)
    modifies pos
    ensures (d, pos.View()) == Exits.Step(s.exitRule, old(pos.View()), bar)
  {
    d := Exits.Evaluate(s.exitRule, pos, bar);
  }

  /** Python truthiness of an optional string. */
  predicate Given(o: Option<string>)
  {
    o.Some? && o.value != ""
  }

  /**
   * from_names: the three registries in order (the first error escapes),
   * the exit params defaulting to {}, and the name defaulting to
   * "Composite[sel=…|entry=…|exit=…]".
   */
  function FromNames(selName: string, entName: string, exitName: string,
                     selParams: Option<Params>, entParams: Option<Params>, exitParams: Option<Params>,
                     name: Option<string>): (r: Result<Strategy>)
    ensures var sel := B1Selection.GetSelection(selName, selParams);
      var ent := Entry.GetEntry(entName, entParams);
      var ex := Exits.GetExit(exitName, exitParams.GetOr(map[]));
      && (r.Ok? <==> sel.Ok? && ent.Ok? && ex.Ok?)
      && (sel.Err? ==> r == Err(sel.error))
      && (sel.Ok? && ent.Err? ==> r == Err(ent.error))
      && (sel.Ok? && ent.Ok? && ex.Err? ==> r == Err(ex.error))
      && (r.Ok? ==> r.value.selection == sel.value && r.value.entry == ent.value &&
                    r.value.exitRule == ex.value && r.value.execution.None? && r.value.Valid())
      && (r.Ok? ==> r.value.name == if Given(name) then name.value
                     else "Composite[sel=" + selName + "|entry=" + entName + "|exit=" + exitName + "]")
  {
    var sel := B1Selection.GetSelection(selName, selParams);
    var ent := Entry.GetEntry(entName, entParams);
    var ex := Exits.GetExit(exitName, exitParams.GetOr(map[]));
    if sel.Err? then Err(sel.error)
    else if ent.Err? then Err(ent.error)
    else if ex.Err? then Err(ex.error)
    else
      var n := if Given(name) then name.value else "Composite[sel=" + selName + "|entry=" + entName + "|exit=" + exitName + "]";
      Ok(Strategy(sel.value, ent.value, ex.value, None, n))
  }

  // ---------- The four-layer factory ----------

  /** The keyword arguments of build_custom_strategy; layer names are any Python value, as the truthiness check sees them. */
  datatype CustomArgs = CustomArgs(
    selectionName: Value, entryName: Value, exitName: Value, executionName: Value,
    selectionParams: Option<Params>, entryParams: Option<Params>, exitParams: Option<Params>,
    executionParams: Option<Params>,
    name: Option<string>, defaultName: Option<string>, validate: bool)

  /** build_custom_strategy's defaults. */
  const DefaultArgs: CustomArgs := CustomArgs(VStr("b1"), VStr("b1"), VStr("fixed"), VStr("close"),
    None, None, None, None, None, Some("custom_strategy"), true)

  /** The four resolved layers. */
  datatype Layers = Layers(selection: B1Selection.Selector, entry: Entry.EntryRule, exitRule: Exits.ExitRule,
                           execution: Execution.ExecutionModel)

  /** name.lower() inside a registry: only a string has it. */
  function NameOf(v: Value): (r: Result<string>)
    ensures r.Ok? <==> v.VStr?
    ensures r.Ok? ==> r.value == v.s
  {
    if v.VStr? then Ok(v.s) else Err(AttributeError("object has no attribute 'lower'"))
  }

  predicate AllNamed(a: CustomArgs)
  {
    Truthy(a.selectionName) && Truthy(a.entryName) && Truthy(a.exitName) && Truthy(a.executionName)
  }

  /**
   * Validation, then the four registries in the order selection, entry,
   * exit, execution; the first failure is the result. execution_params is
   * never used.
   */
  function BuildLayers(a: CustomArgs): (r: Result<Layers>)
    ensures a.validate && !AllNamed(a) ==> r.Err? && r.error.ValueError?
    ensures r.Ok? <==> (
      (!a.validate || AllNamed(a)) &&
      a.selectionName.VStr? && a.entryName.VStr? && a.exitName.VStr? && a.executionName.VStr? &&
      B1Selection.GetSelection(a.selectionName.s, a.selectionParams).Ok? &&
      Entry.GetEntry(a.entryName.s, a.entryParams).Ok? &&
      Exits.GetExit(a.exitName.s, a.exitParams.GetOr(map[])).Ok? &&
      Execution.GetExecutionModel(a.executionName.s).Ok?)
    ensures r.Ok? ==> r.value == Layers(B1Selection.GetSelection(a.selectionName.s, a.selectionParams).value,
      Entry.GetEntry(a.entryName.s, a.entryParams).value,
      Exits.GetExit(a.exitName.s, a.exitParams.GetOr(map[])).value,
      Execution.GetExecutionModel(a.executionName.s).value)
    ensures ((!a.validate || AllNamed(a)) && a.selectionName.VStr? &&
             B1Selection.GetSelection(a.selectionName.s, a.selectionParams).Err?) ==>
      r == Err(B1Selection.GetSelection(a.selectionName.s, a.selectionParams).error)
  {
    if a.validate && !AllNamed(a) then
      Err(ValueError("incomplete strategy: selection, entry, exit and execution are all required"))
    else
      match NameOf(a.selectionName)
      case Err(e) => Err(e)
      case Ok(sn) =>
        match B1Selection.GetSelection(sn, a.selectionParams)
        case Err(e) => Err(e)
        case Ok(sel) =>
          match NameOf(a.entryName)
          case Err(e) => Err(e)
          case Ok(en) =>
            match Entry.GetEntry(en, a.entryParams)
            case Err(e) => Err(e)
            case Ok(ent) =>
              match NameOf(a.exitName)
              case Err(e) => Err(e)
              case Ok(xn) =>
                match Exits.GetExit(xn, a.exitParams.GetOr(map[]))
                case Err(e) => Err(e)
                case Ok(ex) =>
                  match NameOf(a.executionName)
                  case Err(e) => Err(e)
                  case Ok(cn) =>
                    match Execution.GetExecutionModel(cn)
                    case Err(e) => Err(e)
                    case Ok(model) => Ok(Layers(sel, ent, ex, model))
  }

  /** The composite's name: name, else default_name, else "sel_entry_exit_exec". */
  function CompositeName(a: CustomArgs): (n: string)
    requires a.selectionName.VStr? && a.entryName.VStr? && a.exitName.VStr? && a.executionName.VStr?
    ensures Given(a.name) ==> n == a.name.value
    ensures !Given(a.name) && Given(a.defaultName) ==> n == a.defaultName.value
    ensures !Given(a.name) && !Given(a.defaultName) ==>
      n == a.selectionName.s + "_" + a.entryName.s + "_" + a.exitName.s + "_" + a.executionName.s
  {
    if Given(a.name) then a.name.value
    else if Given(a.defaultName) then a.defaultName.value
    else a.selectionName.s + "_" + a.entryName.s + "_" + a.exitName.s + "_" + a.executionName.s
  }

  /**
   * build_custom_strategy as written: after the layers resolve it calls
   * CompositeStrategy(..., execution_model=..., ...), whose constructor has
   * no such parameter, so every call raises.
   */
  function BuildCustomStrategyAsWritten(a: CustomArgs): (r: Result<Strategy>)
    ensures r.Err?
    ensures BuildLayers(a).Err? ==> r.error == BuildLayers(a).error
    ensures BuildLayers(a).Ok? ==> r.error.TypeError?
  {
    var l := BuildLayers(a);
    if l.Err? then Err(l.error) else Err(TypeError("CompositeStrategy.__init__() got an unexpected keyword argument 'execution_model'"))
  }

  /**
   * build_custom_strategy as intended: the composite of the resolved layers
   * that also keeps the execution model.
   */
  function BuildCustomStrategy(a: CustomArgs): (r: Result<Strategy>)
    ensures r.Ok? <==> BuildLayers(a).Ok?
    ensures r.Err? ==> r.error == BuildLayers(a).error
    ensures r.Ok? ==> var l := BuildLayers(a).value;
      && r.value == Strategy(l.selection, l.entry, l.exitRule, Some(l.execution), CompositeName(a))
      && r.value.Valid()
  {
    match BuildLayers(a)
    case Err(e) => Err(e)
    case Ok(l) => Ok(Strategy(l.selection, l.entry, l.exitRule, Some(l.execution), CompositeName(a)))
  }

  /** Layers named b1, b1, fixed and close with no exit arguments all resolve, to the fixed exit and close execution. */
  lemma StandardLayersResolve(a: CustomArgs)
    requires a.selectionName == VStr("b1") && a.entryName == VStr("b1")
    requires a.exitName == VStr("fixed") && a.executionName == VStr("close")
    requires a.exitParams.GetOr(map[]) == map[]
    ensures BuildLayers(a).Ok?
    ensures BuildLayers(a).value.exitRule == Exits.FixedRisk && BuildLayers(a).value.execution == Execution.CloseModel
  {
    assert AllNamed(a);
    B1Resolves(a.selectionParams);
    B1Resolves(a.entryParams);
    FixedResolves();
    ModelsResolve();
  }

  /** With the default arguments every layer resolves, yet the factory as written raises where the corrected one builds. */
  lemma FactoryAlwaysRaises()
    ensures BuildLayers(DefaultArgs).Ok?
    ensures BuildCustomStrategyAsWritten(DefaultArgs).Err? && BuildCustomStrategyAsWritten(DefaultArgs).error.TypeError?
    ensures BuildCustomStrategy(DefaultArgs).Ok? && BuildCustomStrategy(DefaultArgs).value.name == "custom_strategy"
  {
    StandardLayersResolve(DefaultArgs);
    assert CompositeName(DefaultArgs) == "custom_strategy";
  }

  // ---------- The B1 composite ----------

  /** The entry_execution values that pick the T+1 entry rule. */
  predicate NextOpen(exec: string)
  {
    exec == "t+1" || exec == "tplus1" || exec == "next_open"
  }

  /** The entry_execution the B1 composite dispatches on, lowercased and defaulted. */
  function ExecOf(entryExecution: Option<string>): string
  {
    PyStr.Lower(if Given(entryExecution) then entryExecution.value else "t+1")
  }

  /** The exit_type the B1 composite dispatches on, lowercased and defaulted. */
  function ExitTypeOf(exitType: Option<string>): string
  {
    PyStr.Lower(if Given(exitType) then exitType.value else "fixed")
  }

  /** The exit dispatch: 'fixed' ignores the arguments; time, trailing and advanced take them as keywords. */
  function B1Exit(exitL: string, exitType: Option<string>, args: Params): (r: Result<Exits.ExitRule>)
    ensures exitL == "fixed" ==> r == Ok(Exits.FixedRisk)
    ensures exitL in {"time", "trailing", "advanced"} ==> r == Exits.GetExit(exitL, args)
    ensures exitL !in {"fixed", "time", "trailing", "advanced"} ==> r.Err? && r.error.ValueError?
  {
    if exitL == "fixed" then Ok(Exits.FixedRisk)
    else if exitL == "time" || exitL == "trailing" || exitL == "advanced" then Exits.GetExit(exitL, args)
    else Err(ValueError("unknown exit_type: " + exitType.GetOr("None")))
  }

  function B1Name(name: Option<string>, execL: string, exitL: string): string
  {
    if Given(name) then name.value else "B1[" + execL + "|" + exitL + "]"
  }

  /**
   * B1CompositeStrategy.__init__. exit_type and entry_execution are
   * lowercased, a falsy one replaced by 'fixed' and 't+1'; the shared
   * params (None when empty) go to both the selector and the entry rule;
   * the exit is built from exit_args except for 'fixed', which ignores
   * them; the name defaults to "B1[exec|exit]".
   */
  function B1Composite(entryExecution: Option<string>, exitType: Option<string>, exitArgs: Option<Params>,
                       name: Option<string>, shared: Params): (r: Result<Strategy>)
  {
    var execL := ExecOf(entryExecution);
    var p := if shared == map[] then None else Some(shared);
    var ex := B1Exit(ExitTypeOf(exitType), exitType, exitArgs.GetOr(map[]));
    if ex.Err? then Err(ex.error)
    else Ok(Strategy(B1Selection.NewSelector(p, None, "AND"),
                     Entry.NewEntry(if NextOpen(execL) then Entry.B1TPlus1 else Entry.B1, p),
                     ex.value, None, B1Name(name, execL, ExitTypeOf(exitType))))
  }

  /**
   * What B1Composite builds: the selector and entry rule share the params;
   * the entry rule is T+1 exactly for t+1/tplus1/next_open; 'fixed' always
   * gives the fixed-risk exit, and a type other than the four raises
   * ValueError; for time/trailing/advanced the exit is the registry's rule
   * for those keyword arguments; the name falls back to "B1[exec|exit]".
   */
  lemma B1CompositeFacts(entryExecution: Option<string>, exitType: Option<string>, exitArgs: Option<Params>,
                         name: Option<string>, shared: Params)
    ensures var r := B1Composite(entryExecution, exitType, exitArgs, name, shared);
      var exitL := ExitTypeOf(exitType);
      var execL := ExecOf(entryExecution);
      && (exitL !in {"fixed", "time", "trailing", "advanced"} ==> r.Err? && r.error.ValueError?)
      && (exitL == "fixed" ==> r.Ok? && r.value.exitRule == Exits.FixedRisk)
      && (exitL in {"time", "trailing", "advanced"} ==>
            (r.Ok? <==> Exits.GetExit(exitL, exitArgs.GetOr(map[])).Ok?) &&
            (r.Ok? ==> r.value.exitRule == Exits.GetExit(exitL, exitArgs.GetOr(map[])).value))
      && (r.Ok? ==>
            && r.value.Valid()
            && r.value.selection.params == Merge(B1Selection.DefaultParams(), shared)
            && r.value.entry.params == Merge(Entry.DefaultParams(), shared)
            && r.value.selection.active == B1Selection.DefaultActive() && r.value.selection.logic == "AND"
            && (r.value.entry.kind == Entry.B1TPlus1 <==> NextOpen(execL))
            && r.value.execution.None?
            && r.value.name == if Given(name) then name.value else "B1[" + execL + "|" + exitL + "]")
  {
    var execL, exitL := ExecOf(entryExecution), ExitTypeOf(exitType);
    var p := if shared == map[] then None else Some(shared);
    assert p.GetOr(map[]) == shared;
    var ex := B1Exit(exitL, exitType, exitArgs.GetOr(map[]));
    var r := B1Composite(entryExecution, exitType, exitArgs, name, shared);
    if ex.Ok? {
      var sel := B1Selection.NewSelector(p, None, "AND");
      var e := Entry.NewEntry(if NextOpen(execL) then Entry.B1TPlus1 else Entry.B1, p);
      assert r == Ok(Strategy(sel, e, ex.value, None, B1Name(name, execL, exitL)));
      assert e.params == Merge(Entry.DefaultParams(), shared);
    } else {
      assert r == Err(ex.error);
    }
  }

  /** Mixed-case types are accepted: "Trailing" builds the trailing exit. */
  lemma B1CompositeLowercases(pct: real)
    ensures var r := B1Composite(None, Some("Trailing"), Some(map["trailing_pct" := Float(pct)]), None, map[]);
      r.Ok? && r.value.exitRule == Exits.TrailingStop(pct) && r.value.entry.kind == Entry.B1TPlus1
  {
    assert ExitTypeOf(Some("Trailing")) == "trailing";
    PyStr.LowerOfLower("t+1");
    assert ExecOf(None) == "t+1";
    TrailingAccepts(map["trailing_pct" := Float(pct)]);
    B1CompositeFacts(None, Some("Trailing"), Some(map["trailing_pct" := Float(pct)]), None, map[]);
  }

  /**
   * The params dict of build_b1_composite (or of the "b1_class" builder) as
   * it is read: each named key absent (None) or present with a string or
   * None; exit_args a dict of numbers or None; every other key goes to the
   * constructor as a shared keyword.
   */
  datatype B1Args = B1Args(entryExecution: Option<Option<string>>, exitType: Option<Option<string>>,
                           exitArgs: Option<Option<Params>>, name: Option<Option<string>>, shared: Params)

  const NoB1Args: B1Args := B1Args(None, None, None, None, map[])

  /** The keys the builder takes out before forwarding the rest. */
  const NamedKeys: set<string> := {"entry_execution", "exit_type", "exit_args", "name"}

  /** B1CompositeStrategy(**args), the absent keys taking execDefault and 'fixed'. */
  function B1FromArgs(a: B1Args, execDefault: string): Result<Strategy>
  {
    B1Composite(if a.entryExecution.None? then Some(execDefault) else a.entryExecution.value,
                if a.exitType.None? then Some("fixed") else a.exitType.value,
                a.exitArgs.GetOr(None),
                a.name.GetOr(None),
                a.shared - NamedKeys)
  }

  /** build_b1_composite: entry_execution defaults to 'same_close', unlike the class's 't+1'. */
  function BuildB1Composite(params: Option<B1Args>): Result<Strategy>
  {
    B1FromArgs(params.GetOr(NoB1Args), "same_close")
  }

  /**
   * With no named key and no shared keyword, the builder gives the fixed
   * exit, a T+1 entry exactly for a next-open default, and the name
   * "B1[<default>|fixed]".
   */
  lemma FixedDefaults(a: B1Args, execDefault: string)
    requires a.entryExecution.None? && a.exitType.None? && a.exitArgs.None? && a.name.None?
    requires a.shared - NamedKeys == map[]
    requires ExecOf(Some(execDefault)) == execDefault
    ensures var c := B1FromArgs(a, execDefault);
      && c.Ok? && (c.value.entry.kind == Entry.B1TPlus1 <==> NextOpen(execDefault))
      && c.value.exitRule == Exits.FixedRisk && c.value.name == "B1[" + execDefault + "|" + "fixed" + "]"
  {
    PyStr.LowerOfLower("fixed");
    assert ExitTypeOf(Some("fixed")) == "fixed";
    assert B1FromArgs(a, execDefault) == B1Composite(Some(execDefault), Some("fixed"), None, None, map[]);
    B1CompositeFacts(Some(execDefault), Some("fixed"), None, None, map[]);
  }

  /** Without params the builder gives a same-close B1 entry and the fixed exit, named "B1[same_close|fixed]". */
  lemma BuilderDefaults()
    ensures var b := BuildB1Composite(None);
      b.Ok? && b.value.entry.kind == Entry.B1 && b.value.exitRule == Exits.FixedRisk
      && b.value.name == "B1[" + "same_close" + "|" + "fixed" + "]"
  {
    PyStr.LowerOfLower("same_close");
    assert ExecOf(Some("same_close")) == "same_close";
    assert !NextOpen("same_close") by { assert |"same_close"| == 10; }
    FixedDefaults(NoB1Args, "same_close");
  }

  /** The class itself defaults to the T+1 entry, named "B1[t+1|fixed]". */
  lemma ClassDefaults()
    ensures var c := B1FromArgs(NoB1Args, "t+1");
      c.Ok? && c.value.entry.kind == Entry.B1TPlus1 && c.value.exitRule == Exits.FixedRisk
      && c.value.name == "B1[" + "t+1" + "|" + "fixed" + "]"
  {
    PyStr.LowerOfLower("t+1");
    assert ExecOf(Some("t+1")) == "t+1";
    FixedDefaults(NoB1Args, "t+1");
  }

  /** An explicit None entry_execution makes the builder fall through to 't+1'. */
  lemma BuilderNoneExecution()
    ensures var n := BuildB1Composite(Some(NoB1Args.(entryExecution := Some(None))));
      n.Ok? && n.value.entry.kind == Entry.B1TPlus1
  {
    PyStr.LowerOfLower("t+1");
    PyStr.LowerOfLower("fixed");
    assert ExecOf(None) == "t+1" && ExitTypeOf(Some("fixed")) == "fixed";
    B1CompositeFacts(None, Some("fixed"), None, None, map[]);
  }

  // ---------- Presets ----------

  /** One row of STRATEGY_PRESETS. */
  datatype Preset = Preset(selection: string, entry: string, exit: string, execution: string,
                           selectionParams: Params, entryParams: Params, exitParams: Params, description: string)

  const PresetNames: seq<string> := ["default", "b1_tplus1", "b1_trailing", "b1_advanced", "b1_aggressive", "b1_conservative"]

  const DefaultPreset: Preset := Preset("hs300_top_weight", "b1", "time", "next_open",
    map["top_n" := Int(20)], map["j_threshold" := Int(13)], map["max_holding_days" := Int(10)],
    "沪深300权重Top20 + 日KDJ(J<13) + 持有10天 - T+1开盘执行")
  const TPlus1Preset: Preset := Preset("b1", "b1", "fixed", "next_open", map[], map[], map[], "B1策略 - T+1开盘执行")
  const TrailingPreset: Preset := Preset("b1", "b1", "trailing", "next_open", map[], map[],
    map["trailing_pct" := Float(0.08)], "B1策略 - 追踪止损8%")
  const AdvancedPreset: Preset := Preset("b1", "b1", "advanced", "next_open",
    map["j_threshold" := Int(-10), "big_positive_pct" := Float(0.06)], map["take_profit_pct" := Float(0.25)],
    map["trailing_pct" := Float(0.10), "max_holding_days" := Int(20)], "B1高级策略 - 组合追踪止损和时间退出")
  const AggressivePreset: Preset := Preset("b1", "b1", "trailing", "close",
    map["j_threshold" := Int(-5), "big_positive_pct" := Float(0.04)], map["take_profit_pct" := Float(0.35)],
    map["trailing_pct" := Float(0.12)], "激进B1策略 - 放宽选股条件")
  const ConservativePreset: Preset := Preset("b1", "b1", "fixed", "next_open",
    map["j_threshold" := Int(-15), "big_positive_pct" := Float(0.07), "ma_window" := Int(30)],
    map["stop_loss_pct" := Float(0.08), "take_profit_pct" := Float(0.20)],
    map["stop_loss" := Float(0.08), "target_price_pct" := Float(0.20)], "保守B1策略 - 严格选股")

  /** STRATEGY_PRESETS. */
  function Presets(): map<string, Preset>
  {
    map["default" := DefaultPreset, "b1_tplus1" := TPlus1Preset, "b1_trailing" := TrailingPreset,
        "b1_advanced" := AdvancedPreset, "b1_aggressive" := AggressivePreset, "b1_conservative" := ConservativePreset]
  }

  /** Every preset names all four layers and has a description; the table has exactly the six names. */
  lemma PresetsComplete()
    ensures Presets().Keys == set k | 0 <= k < |PresetNames| :: PresetNames[k]
    ensures forall n :: n in Presets() ==>
      (Presets()[n].selection != "" && Presets()[n].entry != "" && Presets()[n].exit != "" &&
       Presets()[n].execution != "" && Presets()[n].description != "")
  {
    var names := set k | 0 <= k < |PresetNames| :: PresetNames[k];
    forall n | n in names
      ensures n in Presets().Keys
    {
      var k :| 0 <= k < |PresetNames| && PresetNames[k] == n;
    }
    forall n | n in Presets().Keys
      ensures n in names
    {
      var k := if n == "default" then 0 else if n == "b1_tplus1" then 1 else if n == "b1_trailing" then 2
        else if n == "b1_advanced" then 3 else if n == "b1_aggressive" then 4 else 5;
      assert PresetNames[k] == n;
    }
    forall n | n in Presets()
      ensures Presets()[n].selection != "" && Presets()[n].entry != "" && Presets()[n].exit != "" &&
        Presets()[n].execution != "" && Presets()[n].description != ""
    {
    }
  }

  /** The ValueError of get_preset_config: the missing name, then the available ones in table order. */
  function PresetNotFound(name: string): Exc
  {
    ValueError("未找到预设策略: " + name + "\n可用预设: " + PyStr.Join(", ", PresetNames))
  }

  /**
   * get_preset_config: the row (a copy), or a ValueError naming the missing
   * preset and listing the available ones in table order.
   */
  function GetPresetConfig(name: string): (r: Result<Preset>)
    ensures r.Ok? <==> name in Presets()
    ensures r.Ok? ==> r.value == Presets()[name]
    ensures r.Err? ==> r.error == PresetNotFound(name)
  {
    if name in Presets() then Ok(Presets()[name]) else Err(PresetNotFound(name))
  }

  /** list_presets: each preset's description under its name. */
  function ListPresets(): (r: map<string, string>)
    ensures r.Keys == Presets().Keys
    ensures forall n :: n in r ==> r[n] == Presets()[n].description
  {
    map n | n in Presets() :: Presets()[n].description
  }

  /** The factory arguments a preset is built with (the command line's preset path). */
  function PresetArgs(name: string, p: Preset): CustomArgs
  {
    CustomArgs(VStr(p.selection), VStr(p.entry), VStr(p.exit), VStr(p.execution),
               Some(p.selectionParams), Some(p.entryParams), Some(p.exitParams), None,
               Some(name), Some("custom_strategy"), true)
  }

  /** Preset "default" names a selection the registry lacks, so building it raises ValueError. */
  lemma DefaultPresetFails()
    ensures var d := BuildCustomStrategy(PresetArgs("default", DefaultPreset));
      d.Err? && d.error.ValueError?
  {
    var a := PresetArgs("default", DefaultPreset);
    assert a.selectionName == VStr("hs300_top_weight") && AllNamed(a);
    assert |PyStr.Lower("hs300_top_weight")| == 16;
  }

  /**
   * Preset "b1_conservative" hands stop_loss and target_price_pct to the
   * fixed exit, whose constructor takes no arguments, so building it raises
   * TypeError.
   */
  lemma ConservativePresetFails()
    ensures var c := BuildCustomStrategy(PresetArgs("b1_conservative", ConservativePreset));
      c.Err? && c.error.TypeError?
  {
    var a := PresetArgs("b1_conservative", ConservativePreset);
    assert a.selectionName == VStr("b1") && a.entryName == VStr("b1") && a.exitName == VStr("fixed") && AllNamed(a);
    PyStr.LowerOfLower("b1");
    PyStr.LowerOfLower("fixed");
    assert a.exitParams.GetOr(map[]) != map[] by {
      assert "stop_loss" in a.exitParams.GetOr(map[]);
    }
  }

  /** The other four presets use registered names and keywords their rules accept, so they build. */
  lemma OtherPresetsBuild()
    ensures BuildCustomStrategy(PresetArgs("b1_tplus1", TPlus1Preset)).Ok?
    ensures BuildCustomStrategy(PresetArgs("b1_trailing", TrailingPreset)).Ok?
    ensures BuildCustomStrategy(PresetArgs("b1_advanced", AdvancedPreset)).Ok?
    ensures BuildCustomStrategy(PresetArgs("b1_aggressive", AggressivePreset)).Ok?
  {
    FixedResolves();
    ModelsResolve();
    TrailingAccepts(TrailingPreset.exitParams);
    TrailingAccepts(AggressivePreset.exitParams);
    AdvancedAccepts(AdvancedPreset.exitParams);
    PresetBuilds("b1_tplus1", TPlus1Preset);
    PresetBuilds("b1_trailing", TrailingPreset);
    PresetBuilds("b1_advanced", AdvancedPreset);
    PresetBuilds("b1_aggressive", AggressivePreset);
  }

  lemma B1Resolves(p: Option<Params>)
    ensures B1Selection.GetSelection("b1", p) == Ok(B1Selection.NewSelector(p, None, "AND"))
    ensures Entry.GetEntry("b1", p) == Ok(Entry.NewEntry(Entry.B1, p))
  {
    PyStr.LowerOfLower("b1");
  }

  lemma FixedResolves()
    ensures Exits.GetExit("fixed", map[]) == Ok(Exits.FixedRisk)
  {
    PyStr.LowerOfLower("fixed");
  }

  lemma ModelsResolve()
    ensures Execution.GetExecutionModel("next_open") == Ok(Execution.NextOpenModel)
    ensures Execution.GetExecutionModel("close") == Ok(Execution.CloseModel)
  {
    PyStr.LowerOfLower("next_open");
    PyStr.LowerOfLower("close");
  }

  lemma TrailingAccepts(params: Params)
    requires params.Keys <= {"trailing_pct"}
    ensures Exits.GetExit("trailing", params).Ok?
  {
    PyStr.LowerOfLower("trailing");
  }

  lemma AdvancedAccepts(params: Params)
    requires params.Keys <= {"trailing_pct", "max_holding_days"}
    ensures Exits.GetExit("advanced", params).Ok?
  {
    PyStr.LowerOfLower("advanced");
  }

  /** A preset of registered B1 layers builds when its exit accepts its keywords. */
  lemma PresetBuilds(n: string, p: Preset)
    requires p.selection == "b1" && p.entry == "b1"
    requires Exits.GetExit(p.exit, p.exitParams).Ok? && Execution.GetExecutionModel(p.execution).Ok?
    ensures BuildCustomStrategy(PresetArgs(n, p)).Ok?
  {
    var a := PresetArgs(n, p);
    assert AllNamed(a) by {
      assert Truthy(a.exitName) && Truthy(a.executionName) by {
        assert |PyStr.Lower(p.exit)| == |p.exit| && |PyStr.Lower(p.execution)| == |p.execution|;
      }
    }
    B1Resolves(a.selectionParams);
    B1Resolves(a.entryParams);
  }

  // ---------- The composite registry ----------

  /** The keyword arguments get_strategy forwards: none, params=..., or the factory's keywords. */
  datatype Kwargs = NoKwargs | ParamsKwarg(params: Option<B1Args>) | FactoryKwargs(args: CustomArgs)

  const BuiltinNames: set<string> := {"b1", "custom", "layered", "b1_class"}

  /**
   * STRATEGY_BUILDERS called with the keyword arguments: a builder given a
   * keyword it lacks raises TypeError; the class builder reads only
   * params and ignores the rest.
   */
  function Builtin(name: string, kw: Kwargs): (r: Result<Strategy>)
    requires name in BuiltinNames
  {
    if name == "b1" then B1Builder(kw)
    else if name == "b1_class" then B1FromArgs(if kw.ParamsKwarg? then kw.params.GetOr(NoB1Args) else NoB1Args, "t+1")
    else FactoryBuilder(kw)
  }

  /** build_b1_composite(**kwargs). */
  function B1Builder(kw: Kwargs): Result<Strategy>
  {
    match kw
    case NoKwargs => BuildB1Composite(None)
    case ParamsKwarg(p) => BuildB1Composite(p)
    case FactoryKwargs(_) => Err(TypeError("build_b1_composite() got an unexpected keyword argument"))
  }

  /** build_custom_strategy(**kwargs). */
  function FactoryBuilder(kw: Kwargs): Result<Strategy>
  {
    match kw
    case NoKwargs => BuildCustomStrategy(DefaultArgs)
    case FactoryKwargs(a) => BuildCustomStrategy(a)
    case ParamsKwarg(_) => Err(TypeError("build_custom_strategy() got an unexpected keyword argument 'params'"))
  }

  /**
   * The module-level STRATEGY_BUILDERS dict, with the entries added at run
   * time (the command line registers a builder returning a strategy it
   * already built).
   */
  class StrategyRegistry {
    var temporary: map<string, Strategy>

    constructor()
      ensures temporary == map[]
    {
      temporary := map[];
    }

    /** STRATEGY_BUILDERS[name] = lambda **kwargs: s. */
    method Register(name: string, s: Strategy)
      modifies this
      ensures temporary == old(temporary)[name := s]
    {
      temporary := temporary[name := s];
    }

    /** get_strategy: a case-sensitive lookup; a registered strategy is returned whatever the kwargs. */
    function GetStrategy(name: string, kw: Kwargs): (r: Result<Strategy>)
      reads this
      ensures name in temporary ==> r == Ok(temporary[name])
      ensures name !in temporary && name in BuiltinNames ==> r == Builtin(name, kw)
      ensures name !in temporary && name !in BuiltinNames ==> r.Err? && r.error.ValueError?
    {
      if name in temporary then Ok(temporary[name])
      else if name in BuiltinNames then Builtin(name, kw)
      else Err(ValueError("unknown strategy: " + name))
    }
  }

  /**
   * The built-in table: the lookup is case-sensitive ("B1" is unknown),
   * "custom" and "layered" are the same builder, and "b1" is the B1
   * composite builder.
   */
  lemma BuiltinTable(kw: Kwargs, p: Option<B1Args>)
    ensures Builtin("custom", kw) == Builtin("layered", kw) == FactoryBuilder(kw)
    ensures Builtin("b1", ParamsKwarg(p)) == BuildB1Composite(p)
    ensures "B1" !in BuiltinNames && "Custom" !in BuiltinNames
  {
    BuiltinNamesDiffer();
  }

  lemma BuiltinNamesDiffer()
    ensures "custom" != "b1" && "custom" != "b1_class" && "layered" != "b1" && "layered" != "b1_class"
    ensures "B1" !in BuiltinNames && "Custom" !in BuiltinNames
  {
    assert |"custom"| == 6 && |"layered"| == 7 && |"b1"| == 2 && |"b1_class"| == 8;
    assert "B1"[0] != "b1"[0] && "Custom"[0] != "custom"[0];
  }
}
