/** Python values as the core passes them around: numbers, parameter dicts, JSON-like values. */
module Values {
  import opened Wrappers
  import PyStr
  /** A Python number. int and float are kept apart because pandas treats them differently. */
  datatype Num = Int(i: int) | Float(f: real)
  {
    function Real(): real { if Int? then i as real else f }
  }

  /** A keyword-parameter dict of numbers. */
  type Params = map<string, Num>

  /** {**defaults, **overrides}: every key of either, the override winning. */
  function Merge<K, V>(defaults: map<K, V>, overrides: map<K, V>): (m: map<K, V>)
    ensures m.Keys == defaults.Keys + overrides.Keys
    ensures forall k :: k in overrides ==> m[k] == overrides[k]
    ensures forall k :: k in defaults && k !in overrides ==> m[k] == defaults[k]
  {
    defaults + overrides
  }

  /** Merging no overrides gives the defaults; merging one key sets that key. */
  lemma MergeOne<K, V>(defaults: map<K, V>, k: K, v: V)
    ensures Merge(defaults, map[]) == defaults
    ensures Merge(defaults, map[k := v]) == defaults[k := v]
  {
  }

  /** A dynamically typed Python value (argparse attributes, YAML config, parsed JSON). */
  datatype Value =
    | VNone
    | VBool(b: bool)
    | VInt(i: int)
    | VFloat(f: real)
    | VStr(s: string)
    | VList(items: seq<Value>)
    | VDict(entries: map<string, Value>)

  /** Python truthiness. */
  predicate Truthy(v: Value)
  {
    match v
    case VNone => false
    case VBool(b) => b
    case VInt(i) => i != 0
    case VFloat(f) => f != 0.0
    case VStr(s) => s != []
    case VList(items) => items != []
    case VDict(entries) => entries != map[]
  }

  /** isinstance(v, (int, float, str, bool)) — bool is an int in Python. */
  predicate IsScalar(v: Value)
  {
    v.VBool? || v.VInt? || v.VFloat? || v.VStr?
  }
  /** int(x) for a float: truncation toward zero. */
  function Trunc(x: real): (n: int)
    ensures x >= 0.0 ==> n == x.Floor
    ensures x < 0.0 ==> n == -((-x).Floor)
  {
    if x >= 0.0 then x.Floor else -((-x).Floor)
  }

  /**
   * round(x, 2) on an exact value: the nearest hundredth, a tie going to
   * the even hundredth. It moves x by at most half a hundredth and leaves
   * a whole number of hundredths alone.
   */
  function Round2(x: real): (r: real)
    ensures x - 0.005 <= r <= x + 0.005
    ensures (x * 100.0).Floor as real == x * 100.0 ==> r == x
  {
    var h := (x * 100.0).Floor;
    var f := x * 100.0 - h as real;
    var n := if f > 0.5 || (f == 0.5 && h % 2 == 1) then h + 1 else h;
    n as real / 100.0
  }

  function DigitValue(c: char): nat
    requires PyStr.IsDigit(c)
  {
    (c as int) - ('0' as int)
  }

  predicate AllDigits(s: string)
  {
    forall k :: 0 <= k < |s| ==> PyStr.IsDigit(s[k])
  }

  /** The number a run of decimal digits denotes. */
  function DigitsValue(s: string): nat
    requires AllDigits(s)
  {
    if s == [] then 0 else DigitsValue(s[..|s| - 1]) * 10 + DigitValue(s[|s| - 1])
  }

  /** The decimal digits of n, without leading zeros ("0" for zero). */
  function NatDigits(n: nat): (s: string)
    ensures s != [] && AllDigits(s)
    ensures DigitsValue(s) == n
  {
    var last := ['0' + (n % 10) as char];
    assert DigitValue(last[0]) == n % 10;
    if n < 10 then last
    else
      var s := NatDigits(n / 10) + last;
      assert s[..|s| - 1] == NatDigits(n / 10);
      s
  }

  /** str(i) for an int. */
  function IntToString(i: int): string
  {
    if i < 0 then "-" + NatDigits(-i) else NatDigits(i)
  }

  /** int(s) for a string: surrounding whitespace, an optional sign, then decimal digits. */
  function ParseInt(s: string): (r: Result<int>)
  {
    var t := PyStr.Strip(s);
    var neg := t != [] && t[0] == '-';
    var body := if t != [] && (t[0] == '-' || t[0] == '+') then t[1..] else t;
    if body == [] || !AllDigits(body) then Err(ValueError("invalid literal for int() with base 10: " + s))
    else
      var n: int := DigitsValue(body);
      Ok(if neg then -n else n)
  }

  /** int(str(i)) == i. */
  lemma ParseIntToString(i: int)
    ensures ParseInt(IntToString(i)) == Ok(i)
  {
    var s := IntToString(i);
    var d := NatDigits(if i < 0 then -i else i);
    assert PyStr.StripLeft(s) == s by { assert !PyStr.IsSpace(s[0]); }
    assert PyStr.Strip(s) == s by { assert !PyStr.IsSpace(s[|s| - 1]); }
    if i < 0 {
      assert s[1..] == d;
    }
  }

  /** int(v) for a parameter value: None where Python raises. */
  function IntOf(v: Value): (r: Result<int>)
    ensures v.VInt? ==> r == Ok(v.i)
    ensures v.VNone? || v.VList? || v.VDict? ==> r.Err? && r.error.TypeError?
  {
    match v
    case VInt(i) => Ok(i)
    case VBool(b) => Ok(if b then 1 else 0)
    case VFloat(f) => Ok(Trunc(f))
    case VStr(s) => ParseInt(s)
    case VNone => Err(TypeError("int() argument must be a string or a number, not 'NoneType'"))
    case VList(_) => Err(TypeError("int() argument must be a string or a number, not 'list'"))
    case VDict(_) => Err(TypeError("int() argument must be a string or a number, not 'dict'"))
  }

  /**
   * str(x) for a float: the sign, the integer part, a point and the
   * fractional digits (at most 17, at least one). This is Python's repr
   * for every float that is a short decimal of moderate size.
   */
  function FloatStr(f: real): (s: string)
    ensures s != [] && (s[0] == '-' || '0' <= s[0] <= '9')
  {
    if f < 0.0 then "-" + UnsignedFloatStr(-f) else UnsignedFloatStr(f)
  }

  function UnsignedFloatStr(x: real): (s: string)
    requires x >= 0.0
    ensures s != [] && '0' <= s[0] <= '9'
  {
    var whole := x.Floor;
    var digits := FractionDigits(x - whole as real, 17);
    NatDigits(whole) + "." + (if digits == [] then "0" else digits)
  }

  /** The decimal digits of a fraction in [0, 1), up to n of them, stopping when nothing is left. */
  function FractionDigits(y: real, n: nat): (s: string)
    requires 0.0 <= y < 1.0
    ensures |s| <= n && AllDigits(s)
    decreases n
  {
    if n == 0 || y == 0.0 then ""
    else
      var d := (y * 10.0).Floor;
      assert 0 <= d < 10;
      ['0' + d as char] + FractionDigits(y * 10.0 - d as real, n - 1)
  }

  /**
   * str(v), or repr(v) when quoted: repr quotes a string with ' and is
   * what a list shows for its items. A dict shows no items, keys having
   * no order here.
   */
  function Render(v: Value, quoted: bool): (s: string)
    ensures v.VStr? && !quoted ==> s == v.s
    ensures v.VFloat? ==> s == FloatStr(v.f)
    ensures v.VList? ==> s != [] && s[0] == '['
    ensures v.VDict? ==> s != [] && s[0] == '{'
    decreases v
  {
    match v
    case VStr(t) => if quoted then "'" + t + "'" else t
    case VInt(i) => IntToString(i)
    case VBool(b) => if b then "True" else "False"
    case VNone => "None"
    case VFloat(f) => FloatStr(f)
    case VList(items) =>
      "[" + PyStr.Join(", ", seq(|items|, k requires 0 <= k < |items| => Render(items[k], true))) + "]"
    case VDict(entries) => if entries == map[] then "{}" else "{...}"
  }

  /** str(v). */
  function Str(v: Value): (s: string)
    ensures v.VStr? ==> s == v.s
    ensures v.VInt? ==> s == IntToString(v.i)
    ensures v.VBool? ==> s == if v.b then "True" else "False"
    ensures v.VNone? ==> s == "None"
    ensures v.VFloat? ==> s == FloatStr(v.f)
    ensures v.VList? ==> s != [] && s[0] == '['
    ensures v.VDict? ==> s != [] && s[0] == '{'
  {
    Render(v, false)
  }

  /**
   * The str() of a float, a list or a dict starts with a sign, a digit, a
   * bracket or a brace, and lower-casing keeps that first character, so it
   * never names a word: a lookup of it among words falls through.
   */
  lemma StrOfNonScalarIsNoWord(v: Value, word: string)
    requires v.VFloat? || v.VList? || v.VDict?
    requires word != [] && 'a' <= word[0] <= 'z'
    ensures PyStr.Lower(Str(v)) != word
  {
    var s := Str(v);
    assert PyStr.Lower(s)[0] == PyStr.LowerChar(s[0]) == s[0];
  }
}
