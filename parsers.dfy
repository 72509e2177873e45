/** The parsers of parsers.py: the registry of parser types by name, the factory that
    builds one from a name or a settings dict, and what each parser does with the
    text it is given. The regular-expression engine and `json.loads` are parameters. */
module Parsers {
  import opened Base

  /** The names the parser classes register under when the module is loaded. */
  const Registered: set<string> := {"json", "regex", "string", "detect", "sequence"}

  /** The defaults of `RegexParser` and `DetectParser`. */
  const DefaultPattern: Value := Str(".*")
  const DefaultGroup: Value := Int(0)
  const DefaultInvert: Value := Bool(false)

  /** A constructed parser, with the settings its constructor reads. */
  datatype Parser =
    | JsonParser
    | RegexParser(pattern: Value, group: Value)
    | StringParser
    | DetectParser(pattern: Value, group: Value, invert: Value)
    | SequenceParser(parts: seq<Parser>)

  /** The library calls a parser makes: `re.search(pattern, value)` (whether it
      matched, or the exception it raised), `match.group(g)` of that match, and
      `json.loads(value)`. */
  datatype Engine = Engine(search: (Value, Value) -> Result<bool>,
                           group: (Value, Value, Value) -> Result<Value>,
                           loads: Value -> Result<Value>)

  /** `settings.get(key, default)` on a dict value. */
  function Get(entries: seq<(Value, Value)>, key: string, default: Value): Value {
    DictGet(entries, Str(key)).GetOr(default)
  }

  /** The index of the first pair with key k. */
  function DictIndex(entries: seq<(Value, Value)>, k: Value): (r: Option<nat>)
    ensures r.Some? ==> r.value < |entries| && entries[r.value].0 == k
    ensures r.Some? <==> DictGet(entries, k).Some?
    ensures r.Some? ==> DictGet(entries, k) == Some(entries[r.value].1)
  {
    if |entries| == 0 then None
    else if entries[0].0 == k then Some(0)
    else match DictIndex(entries[1..], k)
      case None => None
      case Some(j) => Some(j + 1)
  }

  /** `parsers.get(type)(settings)` for every type but "sequence": an unhashable type
      cannot be looked up, and an unregistered one gives None, which is then called. */
  function Construct(typeName: Value, entries: seq<(Value, Value)>): (r: Result<Parser>)
    requires typeName != Str("sequence")
    ensures r.Err? <==> !(typeName.Str? && typeName.s in Registered)
    ensures r.Err? ==> r.error.TypeError?
    ensures typeName == Str("json") ==> r == Ok(JsonParser)
    ensures typeName == Str("string") ==> r == Ok(StringParser)
    ensures typeName == Str("regex") || typeName == Str("detect") ==>
              && r.Ok? && (r.value.RegexParser? || r.value.DetectParser?)
              && (r.value.DetectParser? <==> typeName == Str("detect"))
              && r.value.pattern == (if DictGet(entries, Str("pattern")).Some? then DictGet(entries, Str("pattern")).value
                                     else Str(".*"))
              && r.value.group == (if DictGet(entries, Str("group")).Some? then DictGet(entries, Str("group")).value
                                   else Int(0))
    ensures typeName == Str("detect") ==>
              r.value.invert == (if DictGet(entries, Str("invert")).Some? then DictGet(entries, Str("invert")).value
                                 else Bool(false))
  {
    if !Hashable(typeName) then Err(TypeError("unhashable type"))
    else if !(typeName.Str? && typeName.s in Registered) then Err(TypeError("'NoneType' object is not callable"))
    else if typeName.s == "json" then Ok(JsonParser)
    else if typeName.s == "string" then Ok(StringParser)
    else if typeName.s == "regex" then
      Ok(RegexParser(Get(entries, "pattern", DefaultPattern), Get(entries, "group", DefaultGroup)))
    else
      Ok(DetectParser(Get(entries, "pattern", DefaultPattern), Get(entries, "group", DefaultGroup),
                      Get(entries, "invert", DefaultInvert)))
  }

  /** `make_parser(s)` for a bare name: the dict `{"type": s}` has no "parsers", and
      every other setting takes its default. */
  function FromName(s: string): (r: Result<Parser>)
    ensures s == "sequence" ==> r == Err(KeyError(Str("parsers")))
    ensures s == "json" ==> r == Ok(JsonParser)
    ensures s == "string" ==> r == Ok(StringParser)
    ensures s == "regex" ==> r == Ok(RegexParser(Str(".*"), Int(0)))
    ensures s == "detect" ==> r == Ok(DetectParser(Str(".*"), Int(0), Bool(false)))
    ensures s !in Registered ==> r.Err? && r.error.TypeError?
  {
    if s == "sequence" then Err(KeyError(Str("parsers"))) else Construct(Str(s), [(Str("type"), Str(s))])
  }

  /** `make_parser`: a bare string `s` stands for `{"type": s}`; a dict is looked up by
      its "type" (None when absent); any other value has no `.get`. A sequence parser
      builds its parts from `settings["parsers"]`. */
  function MakeParser(settings: Value): (r: Result<Parser>)
    ensures !settings.Str? && !settings.Dict? ==> r == Err(AttributeError("get"))
    decreases settings, 1
  {
    match settings
    case Str(s) => FromName(s)
    case Dict(entries) =>
      var t := DictGet(entries, Str("type")).GetOr(Null);
      if t != Str("sequence") then Construct(t, entries)
      else
        (match DictIndex(entries, Str("parsers"))
         case None => Err(KeyError(Str("parsers")))
         case Some(k) =>
           (match MakeParts(entries[k].1, 0)
            case Err(e) => Err(e)
            case Ok(ps) => Ok(SequenceParser(ps))))
    case _ => Err(AttributeError("get"))
  }

  /** The name a parser class registers under. */
  function ParserName(p: Parser): string {
    match p
    case JsonParser => "json"
    case RegexParser(_, _) => "regex"
    case StringParser => "string"
    case DetectParser(_, _, _) => "detect"
    case SequenceParser(_) => "sequence"
  }

  /** The "type" `make_parser` looks up: the name itself, or the dict's "type" (None
      when absent). */
  function RequestedType(settings: Value): Value {
    match settings
    case Str(s) => Str(s)
    case Dict(entries) => DictGet(entries, Str("type")).GetOr(Null)
    case _ => Null
  }

  /** The number of entries `for parser in ps` visits: the items of a list, the
      characters of a string, the keys of a dict. */
  function Count(ps: Value): nat {
    match ps
    case List(items) => |items|
    case Str(s) => |s|
    case Dict(entries) => |entries|
    case _ => 0
  }

  function Iterable(ps: Value): bool {
    ps.List? || ps.Str? || ps.Dict?
  }

  /** `make_parser` on entry i of the iteration; a character is a one-letter name. */
  function MakeEntry(ps: Value, i: nat): Result<Parser>
    requires Iterable(ps) && i < Count(ps)
    decreases ps, 0, Count(ps) - i, 1
  {
    match ps
    case List(items) => MakeParser(items[i])
    case Str(s) => FromName([s[i]])
    case Dict(entries) => MakeParser(entries[i].0)
  }

  /** `[make_parser(p) for p in ps]` from entry i on: the parts in order, or the
      exception of the first entry that fails. */
  function MakeParts(ps: Value, i: nat): (r: Result<seq<Parser>>)
    requires i <= Count(ps)
    ensures !Iterable(ps) ==> r.Err? && r.error.TypeError?
    ensures r.Ok? ==> |r.value| == Count(ps) - i
    decreases ps, 0, Count(ps) - i
  {
    if !Iterable(ps) then Err(TypeError("object is not iterable"))
    else if i == Count(ps) then Ok([])
    else
      match MakeEntry(ps, i)
      case Err(e) => Err(e)
      case Ok(p) =>
        (match MakeParts(ps, i + 1)
         case Err(e) => Err(e)
         case Ok(rest) => Ok([p] + rest))
  }

  /** One part per entry, each built from its own entry; a failure is that of the
      first failing entry, `j`. */
  lemma {:induction false} MakePartsEach(ps: Value, i: nat) returns (j: nat)
    requires i <= Count(ps) && Iterable(ps)
    ensures MakeParts(ps, i).Ok? ==>
              forall k :: i <= k < Count(ps) ==> MakeEntry(ps, k) == Ok(MakeParts(ps, i).value[k - i])
    ensures MakeParts(ps, i).Err? ==>
              && i <= j < Count(ps) && MakeEntry(ps, j) == Err(MakeParts(ps, i).error)
              && forall l :: i <= l < j ==> MakeEntry(ps, l).Ok?
    decreases Count(ps) - i
  {
    j := i;
    if i < Count(ps) {
      var j' := MakePartsEach(ps, i + 1);
      j := if MakeEntry(ps, i).Err? then i else j';
    }
  }

  /** A built parser is of the class its "type" names; a name or a dict whose "type"
      is not registered raises TypeError, and a "sequence" dict without "parsers"
      raises KeyError. */
  lemma MakeParserType(settings: Value)
    ensures var r := MakeParser(settings);
            && (r.Ok? ==> RequestedType(settings) == Str(ParserName(r.value)))
            && ((settings.Str? || settings.Dict?) && !(RequestedType(settings).Str? && RequestedType(settings).s in Registered)
                ==> r.Err? && r.error.TypeError?)
            && (settings.Dict? && RequestedType(settings) == Str("sequence") && DictGet(settings.entries, Str("parsers")).None?
                ==> r == Err(KeyError(Str("parsers"))))
  {
  }

  /** A bare name builds the same parser as the dict `{"type": name}`. */
  lemma BareNameIsTypeDict(s: string)
    ensures MakeParser(Str(s)) == MakeParser(Dict([(Str("type"), Str(s))]))
  {
    var entries := [(Str("type"), Str(s))];
    assert DictGet(entries, Str("type")) == Some(Str(s));
    if s == "sequence" {
      assert DictGet(entries, Str("parsers")).None?;
    }
  }

  /** A sequence parser holds exactly one part per entry of its "parsers" setting. */
  lemma SequenceOnePartPerEntry(entries: seq<(Value, Value)>, k: nat)
    requires DictGet(entries, Str("type")) == Some(Str("sequence"))
    requires k < |entries| && entries[k].0 == Str("parsers") && DictGet(entries, Str("parsers")) == Some(entries[k].1)
    requires MakeParser(Dict(entries)).Ok?
    ensures var p := MakeParser(Dict(entries)).value;
            && p.SequenceParser?
            && Iterable(entries[k].1)
            && |p.parts| == Count(entries[k].1)
            && forall j :: 0 <= j < |p.parts| ==> MakeEntry(entries[k].1, j) == Ok(p.parts[j])
  {
    var pv := entries[k].1;
    SequenceParts(entries, DictIndex(entries, Str("parsers")).value);
    var _ := MakePartsEach(pv, 0);
    var parts := MakeParts(pv, 0).value;
    forall j | 0 <= j < |parts|
      ensures MakeEntry(pv, j) == Ok(parts[j])
    {
      assert MakeEntry(pv, j) == Ok(parts[j - 0]);
    }
  }

  /** A dict of type "sequence" with a "parsers" setting builds its parts from it. */
  lemma SequenceParts(entries: seq<(Value, Value)>, k: nat)
    requires DictGet(entries, Str("type")) == Some(Str("sequence"))
    requires DictIndex(entries, Str("parsers")) == Some(k)
    ensures var parts := MakeParts(entries[k].1, 0);
            MakeParser(Dict(entries)) == if parts.Ok? then Ok(SequenceParser(parts.value)) else Err(parts.error)
  {
  }

  // ---------------------------------------------------------------------------
  // Applying a parser
  // ---------------------------------------------------------------------------

  function Size(p: Parser): (n: nat)
    ensures n >= 1
  {
    match p
    case SequenceParser(ps) => 1 + SizeAll(ps)
    case _ => 1
  }

  function SizeAll(ps: seq<Parser>): (n: nat)
    ensures |ps| > 0 ==> n >= Size(ps[0]) && n > SizeAll(ps[1..])
  {
    if |ps| == 0 then 0 else Size(ps[0]) + SizeAll(ps[1..])
  }

  /** `parser(value)`. */
  function Apply(p: Parser, value: Value, e: Engine): Result<Value>
    decreases Size(p), 1
  {
    match p
    case JsonParser => e.loads(value)
    case StringParser => Ok(value)
    case RegexParser(pattern, group) =>
      (match e.search(pattern, value)
       case Err(x) => Err(x)
       case Ok(matched) => if !matched then Ok(Null) else e.group(pattern, value, group))
    case DetectParser(pattern, _, invert) =>
      (match e.search(pattern, value)
       case Err(x) => Err(x)
       case Ok(matched) =>
         if !matched then Ok(Bool(if !Truthy(invert) then false else true))
         else Ok(Bool(if !Truthy(invert) then true else false)))
    case SequenceParser(ps) => Fold(ps, value, e)
  }

  /** Each parser's output is the next one's input, left to right. */
  function Fold(ps: seq<Parser>, value: Value, e: Engine): Result<Value>
    decreases SizeAll(ps), 2
  {
    if |ps| == 0 then Ok(value)
    else match Apply(ps[0], value, e)
      case Err(x) => Err(x)
      case Ok(w) => Fold(ps[1..], w, e)
  }

  /** `SequenceParser.__call__`: the loop reassigning `value`. */
  method RunSequence(ps: seq<Parser>, value: Value, e: Engine) returns (r: Result<Value>)
    ensures r == Fold(ps, value, e)
  {
    var v := value;
    var i := 0;
    while i < |ps|
      invariant 0 <= i <= |ps|
      invariant Fold(ps, value, e) == Fold(ps[i..], v, e)
    {
      assert ps[i..][1..] == ps[i + 1..];
      var out := Apply(ps[i], v, e);
      if out.Err? {
        return Err(out.error);
      }
      v := out.value;
      i := i + 1;
    }
    r := Ok(v);
  }

  /** The string parser passes its input through. */
  lemma StringIsIdentity(value: Value, e: Engine)
    ensures Apply(StringParser, value, e) == Ok(value)
  {
  }

  /** With no match the regex parser gives None; with one, the chosen group. */
  lemma RegexOutcome(pattern: Value, group: Value, value: Value, e: Engine)
    requires e.search(pattern, value).Ok?
    ensures !e.search(pattern, value).value ==> Apply(RegexParser(pattern, group), value, e) == Ok(Null)
    ensures e.search(pattern, value).value ==>
              Apply(RegexParser(pattern, group), value, e) == e.group(pattern, value, group)
  {
  }

  /** The detect parser answers `matched XOR invert`, so flipping the truthiness of
      `invert` negates the answer. */
  lemma DetectIsXor(pattern: Value, group: Value, invert: Value, value: Value, e: Engine)
    requires e.search(pattern, value).Ok?
    ensures Apply(DetectParser(pattern, group, invert), value, e) ==
            Ok(Bool(e.search(pattern, value).value != Truthy(invert)))
    ensures Apply(DetectParser(pattern, group, Bool(!Truthy(invert))), value, e) ==
            Ok(Bool(!Apply(DetectParser(pattern, group, invert), value, e).value.b))
  {
  }

  /** The empty sequence is the identity. */
  lemma EmptySequenceIsIdentity(value: Value, e: Engine)
    ensures Apply(SequenceParser([]), value, e) == Ok(value)
  {
  }

  /** A sequence of sequences is the sequence of their concatenation. */
  lemma {:induction false} SequenceSplits(ps: seq<Parser>, qs: seq<Parser>, value: Value, e: Engine)
    ensures Fold(ps + qs, value, e) ==
            match Fold(ps, value, e)
            case Err(x) => Err(x)
            case Ok(w) => Fold(qs, w, e)
    decreases |ps|
  {
    if |ps| == 0 {
      assert ps + qs == qs;
    } else {
      assert (ps + qs)[0] == ps[0];
      assert (ps + qs)[1..] == ps[1..] + qs;
      match Apply(ps[0], value, e)
      case Err(x) =>
      case Ok(w) => SequenceSplits(ps[1..], qs, w, e);
    }
  }

  /** Nesting: running two sequence parsers one after the other is one sequence parser
      over all their parts. */
  lemma NestedSequence(ps: seq<Parser>, qs: seq<Parser>, value: Value, e: Engine)
    ensures Apply(SequenceParser([SequenceParser(ps), SequenceParser(qs)]), value, e) ==
            Apply(SequenceParser(ps + qs), value, e)
  {
    SequenceSplits(ps, qs, value, e);
    var two := [SequenceParser(ps), SequenceParser(qs)];
    assert two[1..][1..] == [];
    assert Apply(SequenceParser(ps), value, e) == Fold(ps, value, e);
    match Fold(ps, value, e)
    case Err(x) =>
      assert Fold(two, value, e) == Err(x);
    case Ok(w) =>
      assert Apply(SequenceParser(qs), w, e) == Fold(qs, w, e);
      assert Fold(two, value, e) == Fold(two[1..], w, e);
      assert two[1..] == [SequenceParser(qs)];
      FoldSingle(SequenceParser(qs), w, e);
  }

  /** A sequence of one parser is that parser. */
  lemma FoldSingle(p: Parser, value: Value, e: Engine)
    ensures Fold([p], value, e) == Apply(p, value, e)
  {
    assert [p][1..] == [];
  }
}
