/** Python-side data shared by every module of the dashboard core: the dynamically
    typed values that settings and fetched data are made of, the settings dict that
    callers hand over by reference, and the exceptions the core raises. */
module Base {

  datatype Option<+T> = None | Some(value: T) {
    function GetOr(default: T): T {
      match this
      case Some(v) => v
      case None => default
    }
  }

  /** A JSON/YAML-like Python value. A dict keeps its insertion order as a sequence
      of (key, value) pairs; the dicts the source builds never repeat a key, and
      lookups below take the first matching pair. */
  datatype Value =
    | Null
    | Bool(b: bool)
    | Int(i: int)
    | Str(s: string)
    | List(items: seq<Value>)
    | Dict(entries: seq<(Value, Value)>)

  /** A flat settings dict with string keys, as the registries and renderers use them. */
  type Settings = map<string, Value>

  /** The exceptions raised by the core. CircularReference, NoTypeRegistered and
      NoRendererRegistered are the ValueErrors of registry.py and renderers.py;
      ValueError stands for the others. */
  datatype Error =
    | KeyError(key: Value)
    | TypeError(reason: string)
    | AttributeError(attribute: string)
    | IndexError
    | NotImplementedError(reason: string)
    | CircularReference(chain: set<Value>)
    | NoTypeRegistered(typeName: Value)
    | NoRendererRegistered(rendererName: Value)
    | ValueError(reason: string)

  datatype Result<+T> = Ok(value: T) | Err(error: Error)

  /** Lists and dicts cannot be dict keys or set members in Python. */
  predicate Hashable(v: Value) {
    !v.List? && !v.Dict?
  }

  /** Python truthiness. */
  predicate Truthy(v: Value) {
    match v
    case Null => false
    case Bool(b) => b
    case Int(i) => i != 0
    case Str(s) => s != ""
    case List(items) => items != []
    case Dict(entries) => entries != []
  }

  /** `d.get(k)` on a dict value: the value of the first pair whose key is k. */
  function DictGet(entries: seq<(Value, Value)>, k: Value): (r: Option<Value>)
    ensures r.None? <==> forall i :: 0 <= i < |entries| ==> entries[i].0 != k
    ensures r.Some? ==> exists i :: 0 <= i < |entries| && entries[i] == (k, r.value)
  {
    if |entries| == 0 then None
    else if entries[0].0 == k then Some(entries[0].1)
    else DictGet(entries[1..], k)
  }

  /** A mutable Python dict of settings, shared by reference between a caller and
      the callee that updates it in place. */
  class SettingsDict {
    var items: Settings

    constructor (items: Settings)
      ensures this.items == items
    {
      this.items := items;
    }
  }

  /** The `settings: Dict | str` argument of the factories: a bare type name, or a
      dict owned by the caller. */
  datatype SettingsArg = TypeName(name: string) | Mapping(dict: SettingsDict)

  /** The objects a factory may update in place: the caller's dict, if there is one. */
  function Footprint(arg: SettingsArg): set<object> {
    if arg.Mapping? then {arg.dict} else {}
  }

  /** The settings a factory starts from: a bare name `s` stands for `{"type": s}`. */
  function Given(arg: SettingsArg): Settings
    reads Footprint(arg)
  {
    match arg
    case TypeName(s) => map["type" := Str(s)]
    case Mapping(d) => d.items
  }

  function DigitChar(d: nat): (c: char)
    requires d < 10
    ensures '0' <= c <= '9' && c as int - '0' as int == d
  {
    ('0' as int + d) as char
  }

  /** The number a string of decimal digits denotes, most significant digit first. */
  function DigitsValue(s: string): nat
    requires forall i :: 0 <= i < |s| ==> '0' <= s[i] <= '9'
  {
    if s == [] then 0 else DigitsValue(s[..|s| - 1]) * 10 + (s[|s| - 1] as int - '0' as int)
  }

  /** `str(n)` for a natural number: its decimal digits, without leading zeros. */
  function NatToString(n: nat): (r: string)
    ensures |r| >= 1
    ensures forall i :: 0 <= i < |r| ==> '0' <= r[i] <= '9'
    ensures DigitsValue(r) == n
    ensures |r| > 1 ==> r[0] != '0'
  {
    if n < 10 then [DigitChar(n)]
    else
      var r := NatToString(n / 10) + [DigitChar(n % 10)];
      assert r[..|r| - 1] == NatToString(n / 10);
      r
  }

  /** `str(i)` for an int: decimal, with a leading '-' when negative. */
  function IntToString(i: int): string {
    if i < 0 then "-" + NatToString(-i) else NatToString(i)
  }

  /** `repr(v)`. Strings are quoted with single quotes; Python's escaping of quotes
      and control characters is not modelled. */
  function PyRepr(v: Value): string
    decreases v, 1
  {
    match v
    case Null => "None"
    case Bool(b) => if b then "True" else "False"
    case Int(i) => IntToString(i)
    case Str(s) => "'" + s + "'"
    case List(_) => "[" + ReprItems(v, 0) + "]"
    case Dict(_) => "{" + ReprEntries(v, 0) + "}"
  }

  function ReprItems(v: Value, i: nat): string
    requires v.List? && i <= |v.items|
    decreases v, 0, |v.items| - i
  {
    if i == |v.items| then ""
    else (if i == 0 then "" else ", ") + PyRepr(v.items[i]) + ReprItems(v, i + 1)
  }

  function ReprEntries(v: Value, i: nat): string
    requires v.Dict? && i <= |v.entries|
    decreases v, 0, |v.entries| - i
  {
    if i == |v.entries| then ""
    else
      (if i == 0 then "" else ", ") + PyRepr(v.entries[i].0) + ": " + PyRepr(v.entries[i].1)
      + ReprEntries(v, i + 1)
  }

  /** `str(v)`: a string is itself, everything else is its repr. */
  function PyStr(v: Value): string {
    if v.Str? then v.s else PyRepr(v)
  }

  /** A nested dict value seen as a settings dict: its string keys, each with the
      value `d.get(key)` finds. */
  function ToSettings(entries: seq<(Value, Value)>): Settings {
    if |entries| == 0 then map[]
    else
      var rest := ToSettings(entries[1..]);
      if entries[0].0.Str? then rest[entries[0].0.s := entries[0].1] else rest
  }

  /** The settings view holds exactly the string keys of the dict, each with the
      value `get` finds for it. */
  lemma {:induction false} ToSettingsGet(entries: seq<(Value, Value)>)
    ensures var m := ToSettings(entries);
            && (forall k :: k in m <==> DictGet(entries, Str(k)).Some?)
            && (forall k :: k in m ==> m[k] == DictGet(entries, Str(k)).value)
  {
    if |entries| > 0 {
      ToSettingsGet(entries[1..]);
    }
  }

  /** The pairs of a dict that Python built: no key repeats. */
  predicate DistinctKeys(entries: seq<(Value, Value)>) {
    forall i, j :: 0 <= i < j < |entries| ==> entries[i].0 != entries[j].0
  }

  /** In such a dict `d.get(k)` finds the value stored with k. */
  lemma {:induction false} DictGetDistinct(entries: seq<(Value, Value)>, j: nat)
    requires DistinctKeys(entries) && j < |entries|
    ensures DictGet(entries, entries[j].0) == Some(entries[j].1)
  {
    if j > 0 {
      assert entries[0].0 != entries[j].0;
      assert DistinctKeys(entries[1..]) by {
        forall a, b | 0 <= a < b < |entries[1..]|
          ensures entries[1..][a].0 != entries[1..][b].0
        {
          assert entries[1..][a] == entries[a + 1] && entries[1..][b] == entries[b + 1];
        }
      }
      DictGetDistinct(entries[1..], j - 1);
      assert entries[1..][j - 1] == entries[j];
    }
  }
}
