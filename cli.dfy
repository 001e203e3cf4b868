/**
 * The command line's configuration helpers: merging a YAML command section
 * into the parsed arguments, where options spelled out on the command line
 * win, and building the strategy from a preset or from the config's
 * strategy section through the four-layer factory.
 *
 * The parsed arguments are an attribute map (argparse.Namespace) that the
 * merge updates in place; sys.argv is a parameter.
 */
module Cli {
  import opened Wrappers
  import opened Values
  import PyStr
  import Composite
  import Exits
  import Execution

  // ---------- merge_config_and_args ----------

  /** An option or config key as an attribute name: every '-' becomes '_'. */
  function Underscored(s: string): (r: string)
    ensures |r| == |s| && forall i :: 0 <= i < |r| ==> r[i] != '-'
    ensures forall i :: 0 <= i < |r| ==> s[i] != '-' ==> r[i] == s[i]
  {
    PyStr.ReplaceChar(s, '-', '_')
  }

  predicate IsOption(arg: string)
  {
    PyStr.StartsWith(arg, "--")
  }

  /** The attribute names of the options the command line spelled out: each "--name" argument, dashes dropped, '-' read as '_'. */
  function Provided(argv: seq<string>): set<string>
  {
    set i | 0 <= i < |argv| && IsOption(argv[i]) :: Underscored(argv[i][2..])
  }

  /** "--x-y" on the command line marks x_y as provided; an argument without the two dashes marks nothing of its own. */
  lemma ProvidedOption(argv: seq<string>, i: int, name: string)
    requires 0 <= i < |argv| && argv[i] == "--" + name
    ensures Underscored(name) in Provided(argv)
  {
    assert IsOption(argv[i]) && argv[i][2..] == name;
  }

  /** The loop building provided_args from sys.argv. */
  method ProvidedArgs(argv: seq<string>) returns (provided: set<string>)
    ensures provided == Provided(argv)
  {
    provided := {};
    for k := 0 to |argv|
      invariant provided == set i | 0 <= i < k && IsOption(argv[i]) :: Underscored(argv[i][2..])
    {
      if IsOption(argv[k]) {
        provided := provided + {Underscored(argv[k][2..])};
      }
    }
  }

  /** The attribute values a config value may replace: None, a scalar or an empty list. */
  predicate Replaceable(current: Value)
  {
    current.VNone? || IsScalar(current) || current == VList([])
  }

  /** What a replaceable attribute becomes: an empty list takes a list value as is and wraps any other value. */
  function Replacement(current: Value, value: Value): (v: Value)
    ensures current.VList? && !value.VList? ==> v == VList([value])
    ensures !current.VList? || value.VList? ==> v == value
  {
    if current.VList? then (if value.VList? then value else VList([value])) else value
  }

  /** One config entry applied to the attributes: only its own attribute can change, and only as the rule allows. */
  function Apply(attrs: map<string, Value>, provided: set<string>, key: string, value: Value): (r: map<string, Value>)
    ensures r.Keys == attrs.Keys
    ensures forall k :: k in attrs && k != Underscored(key) ==> r[k] == attrs[k]
    ensures var a := Underscored(key);
      a in attrs ==> r[a] == if a !in provided && Replaceable(attrs[a]) then Replacement(attrs[a], value) else attrs[a]
  {
    var a := Underscored(key);
    if a !in provided && a in attrs && Replaceable(attrs[a]) then attrs[a := Replacement(attrs[a], value)]
    else attrs
  }

  /** The config entries applied in the section's key order. */
  function MergeItems(attrs: map<string, Value>, provided: set<string>, section: map<string, Value>, keys: seq<string>): (r: map<string, Value>)
    requires forall i :: 0 <= i < |keys| ==> keys[i] in section
    ensures r.Keys == attrs.Keys
    ensures forall k :: k in attrs && k in provided ==> r[k] == attrs[k]
    ensures forall k :: k in attrs && (forall i :: 0 <= i < |keys| ==> Underscored(keys[i]) != k) ==> r[k] == attrs[k]
    decreases |keys|
  {
    if keys == [] then attrs
    else
      var r := MergeItems(Apply(attrs, provided, keys[0], section[keys[0]]), provided, section, keys[1..]);
      assert forall i :: 1 <= i < |keys| ==> keys[1..][i - 1] == keys[i];
      r
  }

  /** A key order for a dict: each key exactly once. */
  predicate KeyOrder(m: map<string, Value>, order: seq<string>)
  {
    && (forall i :: 0 <= i < |order| ==> order[i] in m)
    && (forall k :: k in m ==> k in order)
    && (forall i, j :: 0 <= i < j < |order| ==> order[i] != order[j])
  }

  /** config.get(command, {}). */
  function Section(config: map<string, Value>, command: string): Value
  {
    if command in config then config[command] else VDict(map[])
  }

  /** `order` is the insertion order of the command section when it is a dict. */
  predicate SectionOrder(config: map<string, Value>, command: string, order: seq<string>)
  {
    Section(config, command).VDict? ==> KeyOrder(Section(config, command).entries, order)
  }

  /**
   * merge_config_and_args on the attribute map: an empty config leaves the
   * arguments alone; a command section that is not a dict has no items()
   * and raises; otherwise each entry is applied in order. No attribute is
   * ever added, and provided options keep their command-line values.
   */
  function Merged(config: map<string, Value>, attrs: map<string, Value>, command: string, argv: seq<string>, order: seq<string>): (r: Result<map<string, Value>>)
    requires SectionOrder(config, command, order)
    ensures config == map[] ==> r == Ok(attrs)
    ensures r.Err? <==> config != map[] && !Section(config, command).VDict?
    ensures r.Ok? ==> r.value.Keys == attrs.Keys
    ensures r.Ok? ==> forall k :: k in attrs && k in Provided(argv) ==> r.value[k] == attrs[k]
    ensures r.Ok? ==> forall k :: k in attrs && (forall i :: 0 <= i < |order| ==> Underscored(order[i]) != k) ==> r.value[k] == attrs[k]
  {
    if config == map[] then Ok(attrs)
    else
      var section := Section(config, command);
      if !section.VDict? then Err(AttributeError("object has no attribute 'items'"))
      else Ok(MergeItems(attrs, Provided(argv), section.entries, order))
  }

  /**
   * An attribute that exactly one config key names, and that the command
   * line did not provide, ends as the rule says: replaced (an empty list
   * wrapping a scalar) when it was None, a scalar or an empty list, and
   * kept otherwise.
   */
  lemma {:induction false} MergeItemsOne(attrs: map<string, Value>, provided: set<string>, section: map<string, Value>,
                                         keys: seq<string>, j: int)
    requires forall i :: 0 <= i < |keys| ==> keys[i] in section
    requires 0 <= j < |keys| && Underscored(keys[j]) in attrs
    requires forall i :: 0 <= i < |keys| && i != j ==> Underscored(keys[i]) != Underscored(keys[j])
    ensures var a := Underscored(keys[j]);
      MergeItems(attrs, provided, section, keys)[a] ==
        if a !in provided && Replaceable(attrs[a]) then Replacement(attrs[a], section[keys[j]]) else attrs[a]
    decreases |keys|
  {
    var a := Underscored(keys[j]);
    var next := Apply(attrs, provided, keys[0], section[keys[0]]);
    assert forall i :: 1 <= i < |keys| ==> keys[1..][i - 1] == keys[i];
    if j == 0 {
      assert forall i :: 0 <= i < |keys[1..]| ==> Underscored(keys[1..][i]) != a;
    } else {
      assert next[a] == attrs[a];
      MergeItemsOne(next, provided, section, keys[1..], j - 1);
    }
  }

  /** Through merge_config_and_args: one matching config key, not provided on the command line, follows the replacement rule. */
  lemma MergedOne(config: map<string, Value>, attrs: map<string, Value>, command: string, argv: seq<string>, order: seq<string>, j: int)
    requires SectionOrder(config, command, order) && config != map[] && Section(config, command).VDict?
    requires 0 <= j < |order| && Underscored(order[j]) in attrs
    requires forall i :: 0 <= i < |order| && i != j ==> Underscored(order[i]) != Underscored(order[j])
    ensures var a := Underscored(order[j]);
      var r := Merged(config, attrs, command, argv, order);
      var v := Section(config, command).entries[order[j]];
      r.Ok? && r.value[a] == if a !in Provided(argv) && Replaceable(attrs[a]) then Replacement(attrs[a], v) else attrs[a]
  {
    MergeItemsOne(attrs, Provided(argv), Section(config, command).entries, order, j);
  }

  /** argparse.Namespace: the parsed arguments as an attribute map. */
  class Namespace {
    var attrs: map<string, Value>

    constructor(attrs: map<string, Value>)
      ensures this.attrs == attrs
    {
      this.attrs := attrs;
    }
  }

  /**
   * merge_config_and_args: the command line's options first, then each
   * entry of the command section, setattr-ing args in place. An error
   * (a section without items()) is raised before anything changes.
   */
  method MergeConfigAndArgs(config: map<string, Value>, args: Namespace, command: string, argv: seq<string>, order: seq<string>)
    returns (err: Option<Exc>)
    requires SectionOrder(config, command, order)
    modifies args
    ensures var m := Merged(config, old(args.attrs), command, argv, order);
      && (m.Ok? ==> err.None? && args.attrs == m.value)
      && (m.Err? ==> err == Some(m.error) && args.attrs == old(args.attrs))
  {
    if config == map[] {
      return None;
    }
    var section := Section(config, command);
    if !section.VDict? {
      return Some(AttributeError("object has no attribute 'items'"));
    }
    var provided := ProvidedArgs(argv);
    ghost var start := args.attrs;
    for k := 0 to |order|
      invariant MergeItems(args.attrs, provided, section.entries, order[k..]) ==
        MergeItems(start, provided, section.entries, order)
    {
      assert order[k..][1..] == order[k + 1..];
      args.attrs := Apply(args.attrs, provided, order[k], section.entries[order[k]]);
    }
    assert order[|order|..] == [];
    err := None;
  }

  // ---------- build_strategy_from_config ----------

  /** getattr(args, key, None) or section.get(key, default). */
  function Layer(attrs: map<string, Value>, section: map<string, Value>, key: string, default: Value): (v: Value)
  {
    if key in attrs && Truthy(attrs[key]) then attrs[key]
    else if key in section then section[key]
    else default
  }

  /** A params value as the registries read it: a dict's numeric entries; anything else none. */
  function ParamsArg(v: Value): (p: Option<Params>)
    ensures v.VDict? ==> p == Some(Composite.NumEntries(v.entries))
    ensures !v.VDict? ==> p.None?
  {
    if v.VDict? then Some(Composite.NumEntries(v.entries)) else None
  }

  /** section.get(key, {}) as factory params. */
  function SectionParams(section: map<string, Value>, key: string): Option<Params>
  {
    ParamsArg(if key in section then section[key] else VDict(map[]))
  }

  /** A name value: a string, else none. */
  function NameArg(v: Value): Option<string>
  {
    if v.VStr? then Some(v.s) else None
  }

  /** The factory arguments of the non-preset path. */
  function ConfigArgs(section: map<string, Value>, attrs: map<string, Value>): Composite.CustomArgs
  {
    Composite.CustomArgs(
      Layer(attrs, section, "selection", VStr("b1")), Layer(attrs, section, "entry", VStr("b1")),
      Layer(attrs, section, "exit", VStr("fixed")), Layer(attrs, section, "execution", VStr("close")),
      SectionParams(section, "selection_params"), SectionParams(section, "entry_params"),
      SectionParams(section, "exit_params"), None,
      NameArg(Layer(attrs, section, "name", VStr("custom_strategy"))), Some("custom_strategy"), true)
  }

  /** A truthy args.preset selects the preset path. */
  predicate HasPreset(attrs: map<string, Value>)
  {
    "preset" in attrs && Truthy(attrs["preset"])
  }

  /**
   * build_strategy_from_config: a truthy args.preset is looked up
   * (get_preset_config raises ValueError for a name not in the table, and
   * TypeError for an unhashable one) and built with name = the preset;
   * otherwise the strategy section, which must be a dict, supplies
   * what the arguments leave falsy. The factory is the corrected one.
   */
  function BuildStrategyFromConfig(config: map<string, Value>, attrs: map<string, Value>): (r: Result<Composite.Strategy>)
  {
    if HasPreset(attrs) then
      match attrs["preset"]
      case VStr(n) =>
        (match Composite.GetPresetConfig(n)
         case Err(e) => Err(e)
         case Ok(p) => Composite.BuildCustomStrategy(Composite.PresetArgs(n, p)))
      case VList(_) => Err(TypeError("unhashable type: 'list'"))
      case VDict(_) => Err(TypeError("unhashable type: 'dict'"))
      case v => Err(Composite.PresetNotFound(Str(v)))
    else
      var section := if "strategy" in config then config["strategy"] else VDict(map[]);
      if !section.VDict? then Err(AttributeError("object has no attribute 'get'"))
      else Composite.BuildCustomStrategy(ConfigArgs(section.entries, attrs))
  }

  /**
   * A preset takes priority over everything in the config: the result is
   * the factory built from that preset's row, named after the preset, or
   * the ValueError naming it and the available presets when the table lacks it.
   */
  lemma PresetPriority(config: map<string, Value>, other: map<string, Value>, attrs: map<string, Value>, n: string)
    requires "preset" in attrs && attrs["preset"] == VStr(n) && n != ""
    ensures var r := BuildStrategyFromConfig(config, attrs);
      && r == BuildStrategyFromConfig(other, attrs)
      && (n !in Composite.Presets() ==> r == Err(Composite.PresetNotFound(n)))
      && (n in Composite.Presets() ==> r == Composite.BuildCustomStrategy(Composite.PresetArgs(n, Composite.Presets()[n])))
      && (r.Ok? ==> r.value.name == n)
  {
    assert HasPreset(attrs);
    if n in Composite.Presets() {
      var a := Composite.PresetArgs(n, Composite.Presets()[n]);
      assert a.name == Some(n);
    }
  }

  /**
   * Without a preset, each layer name is the truthy argument, else the
   * strategy section's entry, else its default; params come from the
   * section alone; the name falls back to "custom_strategy".
   */
  lemma LayerPrecedence(section: map<string, Value>, attrs: map<string, Value>, other: map<string, Value>)
    ensures var a := ConfigArgs(section, attrs);
      && (forall key :: key in {"selection", "entry", "exit", "execution"} && key in attrs && Truthy(attrs[key]) ==>
            Layer(attrs, section, key, VNone) == attrs[key])
      && ("selection" in attrs && Truthy(attrs["selection"]) ==> a.selectionName == attrs["selection"])
      && (!("selection" in attrs && Truthy(attrs["selection"])) && "selection" in section ==> a.selectionName == section["selection"])
      && (!("selection" in attrs && Truthy(attrs["selection"])) && "selection" !in section ==> a.selectionName == VStr("b1"))
      && (!("entry" in attrs && Truthy(attrs["entry"])) && "entry" !in section ==> a.entryName == VStr("b1"))
      && (!("exit" in attrs && Truthy(attrs["exit"])) && "exit" !in section ==> a.exitName == VStr("fixed"))
      && (!("execution" in attrs && Truthy(attrs["execution"])) && "execution" !in section ==> a.executionName == VStr("close"))
      && a.selectionParams == ConfigArgs(section, other).selectionParams
      && a.entryParams == ConfigArgs(section, other).entryParams
      && a.exitParams == ConfigArgs(section, other).exitParams
      && a.validate
  {
  }

  /**
   * With no preset, no strategy section and no layer given on the command
   * line, the defaults b1/b1/fixed/close build a composite named
   * "custom_strategy" with the fixed-risk exit and close execution.
   */
  lemma DefaultsBuild(attrs: map<string, Value>)
    requires !HasPreset(attrs)
    requires forall key :: key in attrs && key in {"selection", "entry", "exit", "execution", "name"} ==> !Truthy(attrs[key])
    ensures var r := BuildStrategyFromConfig(map[], attrs);
      r.Ok? && r.value.name == "custom_strategy" && r.value.exitRule == Exits.FixedRisk &&
      r.value.execution == Some(Execution.CloseModel)
  {
    var a := ConfigArgs(map[], attrs);
    DefaultArgsOf(attrs);
    Composite.StandardLayersResolve(a);
    assert BuildStrategyFromConfig(map[], attrs) == Composite.BuildCustomStrategy(a);
  }

  /** With an empty section and falsy layer arguments, every layer and the name take their defaults. */
  lemma DefaultArgsOf(attrs: map<string, Value>)
    requires forall key :: key in attrs && key in {"selection", "entry", "exit", "execution", "name"} ==> !Truthy(attrs[key])
    ensures var a := ConfigArgs(map[], attrs);
      && a.selectionName == VStr("b1") && a.entryName == VStr("b1")
      && a.exitName == VStr("fixed") && a.executionName == VStr("close")
      && a.name == Some("custom_strategy") && a.exitParams.GetOr(map[]) == map[]
  {
  }
}
