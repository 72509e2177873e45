/** The helpers of actions.py: the dotted-key view over a flat dict that templates use,
    the edge-triggered condition of notification actions, the common fields of every
    action, the sequence action and the argument list of the OSC action. */
module Actions {
  import opened Base

  // ---------------------------------------------------------------------------
  // NestedAccessor
  // ---------------------------------------------------------------------------

  /** `key.split(".", 1)[0]`: the part of a key before its first dot, or the whole
      key when it has none. */
  function TopLevel(key: string): (r: string)
    ensures '.' !in r
    ensures r <= key
    ensures r == key || key[|r|] == '.'
  {
    if |key| == 0 || key[0] == '.' then ""
    else [key[0]] + TopLevel(key[1..])
  }

  /** Every key has exactly one top-level part: the three facts above pin it down. */
  lemma TopLevelUnique(key: string, p: string)
    requires '.' !in p && p <= key && (p == key || key[|p|] == '.')
    ensures p == TopLevel(key)
  {
  }

  /** The keys of a Python dict are distinct. */
  predicate UniqueKeys(entries: seq<(string, Value)>) {
    forall i, j :: 0 <= i < j < |entries| ==> entries[i].0 != entries[j].0
  }

  /** The pairs whose key is `prefix + suffix`, as `(suffix, value)`, in dict order. */
  function Under(entries: seq<(string, Value)>, prefix: string): seq<(string, Value)>
  {
    if |entries| == 0 then []
    else
      var rest := Under(entries[1..], prefix);
      if prefix <= entries[0].0 then [(entries[0].0[|prefix|..], entries[0].1)] + rest else rest
  }

  /** `(s, v)` is under `prefix` exactly when `(prefix + s, v)` is in the dict. */
  lemma {:induction false} UnderMembers(entries: seq<(string, Value)>, prefix: string, s: string, v: Value)
    ensures (s, v) in Under(entries, prefix) <==> (prefix + s, v) in entries
  {
    if |entries| > 0 {
      UnderMembers(entries[1..], prefix, s, v);
      var (k, x) := entries[0];
      if prefix <= k {
        assert k == prefix + k[|prefix|..];
        if (prefix + s, v) == (k, x) {
          assert s == k[|prefix|..];
        }
      }
      assert entries == [entries[0]] + entries[1..];
    }
  }

  /** The keys under a prefix: distinct keys give distinct suffixes. */
  lemma {:induction false} UnderUnique(entries: seq<(string, Value)>, prefix: string)
    requires UniqueKeys(entries)
    ensures UniqueKeys(Under(entries, prefix))
  {
    if |entries| > 0 {
      assert UniqueKeys(entries[1..]) by {
        assert forall i :: 0 <= i < |entries| - 1 ==> entries[1..][i] == entries[i + 1];
      }
      UnderUnique(entries[1..], prefix);
      var (k, x) := entries[0];
      var rest := Under(entries[1..], prefix);
      if prefix <= k {
        forall j | 0 <= j < |rest|
          ensures rest[j].0 != k[|prefix|..]
        {
          UnderMembers(entries[1..], prefix, rest[j].0, rest[j].1);
          assert rest[j] in rest;
          var i :| 0 <= i < |entries[1..]| && entries[1..][i] == (prefix + rest[j].0, rest[j].1);
          assert entries[i + 1].0 != k;
          assert k == prefix + k[|prefix|..];
        }
      }
    }
  }

  predicate HasKey(entries: seq<(string, Value)>, k: string) {
    exists i :: 0 <= i < |entries| && entries[i].0 == k
  }

  /** What looking a name up on an accessor gives: a value stored under that very
      key, or a new accessor over the keys below it. */
  datatype Found = Direct(value: Value) | Nested(accessor: Accessor)

  /** `NestedAccessor(dict)`: a read-only view over a flat dict with dotted keys. */
  datatype Accessor = Accessor(entries: seq<(string, Value)>) {

    predicate Valid() {
      UniqueKeys(entries)
    }

    /** `keys()`: the set of top-level parts of the keys. */
    method Keys() returns (result: set<string>)
      ensures forall t :: t in result <==> exists i :: 0 <= i < |entries| && TopLevel(entries[i].0) == t
    {
      result := {};
      var i := 0;
      while i < |entries|
        invariant 0 <= i <= |entries|
        invariant forall t :: t in result <==> exists j :: 0 <= j < i && TopLevel(entries[j].0) == t
      {
        result := result + {TopLevel(entries[i].0)};
        i := i + 1;
      }
    }

    /** `__getattr__(name)`: the value of key `name`; otherwise an accessor over
        `{suffix: v}` for every key `name + "." + suffix`; otherwise AttributeError. */
    method GetAttr(name: string) returns (r: Result<Found>)
      requires Valid()
      ensures HasKey(entries, name) ==> r.Ok? && r.value.Direct? && (name, r.value.value) in entries
      ensures !HasKey(entries, name) && Under(entries, name + ".") != [] ==>
                r == Ok(Nested(Accessor(Under(entries, name + "."))))
      ensures !HasKey(entries, name) && Under(entries, name + ".") == [] ==>
                r == Err(AttributeError(name))
      ensures r.Ok? ==> r.value.Direct? || r.value.accessor.Valid()
    {
      var i := 0;
      while i < |entries|
        invariant 0 <= i <= |entries|
        invariant forall j :: 0 <= j < i ==> entries[j].0 != name
      {
        if entries[i].0 == name {
          return Ok(Direct(entries[i].1));
        }
        i := i + 1;
      }
      var prefix := name + ".";
      var nested: seq<(string, Value)> := [];
      i := 0;
      while i < |entries|
        invariant 0 <= i <= |entries|
        invariant nested == Under(entries[..i], prefix)
      {
        var (key, value) := entries[i];
        if prefix <= key {
          nested := nested + [(key[|prefix|..], value)];
        }
        UnderSnoc(entries[..i], entries[i], prefix);
        assert entries[..i + 1] == entries[..i] + [entries[i]];
        i := i + 1;
      }
      assert entries[..i] == entries;
      if nested != [] {
        UnderUnique(entries, prefix);
        return Ok(Nested(Accessor(nested)));
      }
      return Err(AttributeError(name));
    }

    /** `__getitem__(key)`: the same lookup, with AttributeError turned into KeyError. */
    method GetItem(key: string) returns (r: Result<Found>)
      requires Valid()
      ensures HasKey(entries, key) ==> r.Ok? && r.value.Direct? && (key, r.value.value) in entries
      ensures !HasKey(entries, key) && Under(entries, key + ".") != [] ==>
                r == Ok(Nested(Accessor(Under(entries, key + "."))))
      ensures !HasKey(entries, key) && Under(entries, key + ".") == [] ==>
                r == Err(KeyError(Str(key)))
    {
      r := GetAttr(key);
      if r.Err? {
        r := Err(KeyError(Str(key)));
      }
    }
  }

  lemma {:induction false} UnderSnoc(entries: seq<(string, Value)>, e: (string, Value), prefix: string)
    ensures Under(entries + [e], prefix) ==
            Under(entries, prefix) + (if prefix <= e.0 then [(e.0[|prefix|..], e.1)] else [])
  {
    if |entries| > 0 {
      assert (entries + [e])[1..] == entries[1..] + [e];
      UnderSnoc(entries[1..], e, prefix);
    }
  }

  // ---------------------------------------------------------------------------
  // Condition
  // ---------------------------------------------------------------------------

  /** The result of a rendered condition: a recognised boolean word, or the string. */
  datatype Outcome = Flag(b: bool) | Text(s: string)

  predicate OutcomeTruthy(o: Outcome) {
    match o
    case Flag(b) => b
    case Text(s) => s != ""
  }

  /** `str.lower()` on ASCII letters; other characters are kept. */
  function Lower(s: string): (r: string)
    ensures |r| == |s|
    ensures forall i :: 0 <= i < |s| ==>
              r[i] == (if 'A' <= s[i] <= 'Z' then (s[i] as int + 32) as char else s[i])
  {
    if |s| == 0 then "" else [if 'A' <= s[0] <= 'Z' then (s[0] as int + 32) as char else s[0]] + Lower(s[1..])
  }

  /** Lines 113-118: "true"/"yes"/"1" and "false"/"no"/"0", in any letter case, become
      booleans; anything else stays the rendered string. */
  function Normalize(rendered: string): (o: Outcome)
    ensures o == Flag(true) <==> Lower(rendered) in {"true", "yes", "1"}
    ensures o == Flag(false) <==> Lower(rendered) in {"false", "no", "0"}
    ensures o.Text? ==> o.s == rendered
  {
    var l := Lower(rendered);
    if l in {"true", "yes", "1"} then Flag(true)
    else if l in {"false", "no", "0"} then Flag(false)
    else Text(rendered)
  }

  /** Lines 120-128 as a transition: the value recorded after a call and the result
      `then` is called with, if it is. */
  function Step(last: Option<Outcome>, rendered: string): (s: (Option<Outcome>, Option<Outcome>))
    ensures s.0 == Some(Normalize(rendered))
    ensures s.1.Some? <==> last.Some? && last.value != Normalize(rendered) && OutcomeTruthy(Normalize(rendered))
    ensures s.1.Some? ==> s.1.value == Normalize(rendered)
  {
    var o := Normalize(rendered);
    if last.None? then (Some(o), None)
    else if last.value != o then (Some(o), if OutcomeTruthy(o) then Some(o) else None)
    else (last, None)
  }

  /** The calls `then` receives over a run of renderings. */
  function Fired(last: Option<Outcome>, rendered: seq<string>): seq<Outcome>
    decreases |rendered|
  {
    if |rendered| == 0 then []
    else
      var s := Step(last, rendered[0]);
      (if s.1.Some? then [s.1.value] else []) + Fired(s.0, rendered[1..])
  }

  /** A run that keeps rendering the same string fires at most once, and never when
      the condition starts fresh. */
  lemma {:induction false} SteadyFiresAtMostOnce(last: Option<Outcome>, r: string, n: nat)
    ensures |Fired(last, seq(n, _ => r))| <= 1
    ensures last.None? ==> Fired(last, seq(n, _ => r)) == []
  {
    if n > 0 {
      var rs := seq(n, _ => r);
      assert rs[1..] == seq(n - 1, _ => r);
      Quiet(Normalize(r), r, n - 1);
    }
  }

  lemma {:induction false} Quiet(o: Outcome, r: string, n: nat)
    requires o == Normalize(r)
    ensures Fired(Some(o), seq(n, _ => r)) == []
  {
    if n > 0 {
      var rs := seq(n, _ => r);
      assert rs[1..] == seq(n - 1, _ => r);
      Quiet(o, r, n - 1);
    }
  }

  /** Every call `then` receives is a truthy outcome. */
  lemma {:induction false} FiredTruthy(last: Option<Outcome>, rendered: seq<string>)
    ensures forall i :: 0 <= i < |Fired(last, rendered)| ==> OutcomeTruthy(Fired(last, rendered)[i])
    decreases |rendered|
  {
    if |rendered| > 0 {
      FiredTruthy(Step(last, rendered[0]).0, rendered[1..]);
    }
  }

  /** `Condition(condition)`: the template is abstracted; the rendered string is an
      argument of each call. */
  class Condition {
    var lastValue: Option<Outcome>

    constructor ()
      ensures lastValue == None
    {
      lastValue := None;
    }

    /** `__call__`: returns the result `then` is called with, if it is called. */
    method Call(rendered: string) returns (fired: Option<Outcome>)
      modifies this
      ensures (lastValue, fired) == Step(old(lastValue), rendered)
    {
      var result: Outcome;
      var l := Lower(rendered);
      if l == "true" || l == "yes" || l == "1" {
        result := Flag(true);
      } else if l == "false" || l == "no" || l == "0" {
        result := Flag(false);
      } else {
        result := Text(rendered);
      }
      fired := None;
      if lastValue.None? {
        lastValue := Some(result);
        return;
      }
      if lastValue.value != result {
        lastValue := Some(result);
        if OutcomeTruthy(result) {
          fired := Some(result);
        }
      }
    }
  }

  // ---------------------------------------------------------------------------
  // ActionBase, SequenceAction, OSCAction
  // ---------------------------------------------------------------------------

  /** The fields every action gets from `ActionBase.__init__`. */
  datatype Header = Header(name: Value, url: string, displayName: Value)

  /** `ActionBase.__init__`: the name is required, the url is `/action/<name>` and the
      display name is the name, since `settings.get("name", name)` finds that key. */
  function MakeHeader(settings: Settings): (r: Result<Header>)
    ensures r.Err? <==> "name" !in settings
    ensures r.Err? ==> r.error == KeyError(Str("name"))
    ensures r.Ok? ==> r.value.name == settings["name"] && r.value.displayName == settings["name"]
    ensures r.Ok? ==> r.value.url == "/action/" + PyStr(settings["name"])
  {
    if "name" !in settings then Err(KeyError(Str("name")))
    else
      var name := settings["name"];
      Ok(Header(name, "/action/" + PyStr(name), name))
  }

  /** Two actions named by strings share a url only when they share the name. */
  lemma UrlNamesAction(a: Settings, b: Settings)
    requires "name" in a && a["name"].Str? && "name" in b && b["name"].Str?
    requires MakeHeader(a).value.url == MakeHeader(b).value.url
    ensures a["name"] == b["name"]
  {
    var ua := MakeHeader(a).value.url;
    assert a["name"].s == ua[8..];
    assert b["name"].s == ua[8..];
  }

  /** One `call` made by a sequence action: the action's name and the params. */
  datatype Invocation = Invocation(action: Value, params: Settings)

  /** `SequenceAction.call`: each named action is called in list order with the same
      params; the exception of the first one that raises, as `raises` says, ends the
      sequence. The calls are returned. */
  method SequenceCall(actions: seq<Value>, params: Settings, raises: Value -> Option<Error>)
    returns (calls: seq<Invocation>, r: Result<Value>)
    ensures |calls| <= |actions|
    ensures forall i :: 0 <= i < |calls| ==> calls[i] == Invocation(actions[i], params)
    ensures forall i :: 0 <= i < |calls| - 1 ==> raises(actions[i]).None?
    ensures r.Ok? <==> |calls| == |actions| && forall i :: 0 <= i < |actions| ==> raises(actions[i]).None?
    ensures r.Ok? ==> r.value == Null
    ensures r.Err? ==> |calls| > 0 && raises(actions[|calls| - 1]) == Some(r.error)
  {
    calls := [];
    var i := 0;
    while i < |actions|
      invariant 0 <= i <= |actions|
      invariant |calls| == i
      invariant forall j :: 0 <= j < i ==> calls[j] == Invocation(actions[j], params)
      invariant forall j :: 0 <= j < i ==> raises(actions[j]).None?
    {
      calls := calls + [Invocation(actions[i], params)];
      var e := raises(actions[i]);
      if e.Some? {
        return calls, Err(e.value);
      }
      i := i + 1;
    }
    r := Ok(Null);
  }

  /** The message of `OSCAction.call`: the keys and values of the params, interleaved
      in params order. */
  function Flatten(params: seq<(Value, Value)>): (msg: seq<Value>)
    ensures |msg| == 2 * |params|
    ensures forall i :: 0 <= i < |params| ==> msg[2 * i] == params[i].0 && msg[2 * i + 1] == params[i].1
  {
    if |params| == 0 then []
    else [params[0].0, params[0].1] + Flatten(params[1..])
  }
}
