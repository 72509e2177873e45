/** The type registry of registry.py: named plugin classes, named references to
    other types with settings of their own, and a process-wide defaults table.
    `TypeRegistry.Make` resolves a type name through the chain of references,
    layering defaults and reference settings, and constructs the final type. */
module Registry {
  import opened Base

  /** The Python class registered under a type name. */
  type ClassName = string

  /** `cls(settings)`: a constructed plugin, known by its class and the settings it got. */
  datatype Instance = Instance(cls: ClassName, settings: Settings)

  /** The two-level defaults table: registry name -> type name -> partial settings. */
  type DefaultsMap = map<string, map<string, Settings>>

  /** The module-level `defaults` dict, shared by every registry. */
  class DefaultsTable {
    var table: DefaultsMap

    constructor ()
      ensures table == map[]
    {
      table := map[];
    }

    /** `set_defaults`: `dict.update` of the table, which is also returned. Whole
        per-registry entries are replaced, the others are kept. */
    method SetDefaults(settings: DefaultsMap) returns (r: DefaultsMap)
      modifies this
      ensures table == old(table) + settings
      ensures forall reg :: reg in settings ==> table[reg] == settings[reg]
      ensures forall reg :: reg in old(table) && reg !in settings ==> table[reg] == old(table)[reg]
      ensures r == table
    {
      table := table + settings;
      r := table;
    }
  }

  /** The entry `defaults[registry][name]`, or no settings when either level is missing. */
  function DefaultsOf(table: DefaultsMap, registry: string, name: Value): Settings {
    if registry in table && name.Str? && name.s in table[registry] then table[registry][name.s]
    else map[]
  }

  /** `default_settings`: a copy of the defaults entry; looking an unhashable name up
      in a dict raises TypeError. Maps are values, so the copy is never shared. */
  function DefaultSettings(table: DefaultsMap, registry: string, name: Value): (r: Result<Settings>)
    ensures r.Err? <==> !Hashable(name)
    ensures r.Err? ==> r.error.TypeError?
    ensures r.Ok? && registry in table && name.Str? && name.s in table[registry] ==>
              r.value == table[registry][name.s]
    ensures r.Ok? && !(registry in table && name.Str? && name.s in table[registry]) ==>
              r.value == map[]
  {
    if Hashable(name) then Ok(DefaultsOf(table, registry, name)) else Err(TypeError("unhashable type"))
  }

  /** `refs.get(t)`: the reference registered under t; the keys are strings. */
  function RefOf(refs: map<string, Settings>, t: Value): Option<Settings> {
    if t.Str? && t.s in refs then Some(refs[t.s]) else None
  }

  /** `types.get(t)`. */
  function ClassOf(types: map<string, ClassName>, t: Value): Option<ClassName> {
    if t.Str? && t.s in types then Some(types[t.s]) else None
  }

  /** The reference names not yet visited: what bounds the resolution loop. */
  function Unvisited(refs: map<string, Settings>, chain: set<Value>): set<string> {
    set s | s in refs && Str(s) !in chain
  }

  /** What the resolution loop leaves behind: the layered base settings or the
      exception it raised, the last value it wrote into the caller's "type" (none if
      it never wrote) and the number of iterations it ran. */
  datatype Walk = Walk(outcome: Result<Settings>, written: Option<Value>, steps: nat)

  /** The `while ref_type is not None` loop of `make`, entered with the current type
      `cur` already in the visited set `chain` and `written` the last value stored in
      the caller's "type". */
  function Chase(refs: map<string, Settings>, table: DefaultsMap, registry: string,
                 cur: Value, chain: set<Value>, base: Settings, written: Option<Value>): (w: Walk)
    requires cur in chain
    requires written.Some? ==> written.value == cur
    decreases Unvisited(refs, chain), if RefOf(refs, cur).Some? then 1 else 0
  {
    match RefOf(refs, cur)
    case None => Walk(Ok(base), written, 0)
    case Some(ref) =>
      if "type" !in ref then Walk(Err(KeyError(Str("type"))), written, 1)
      else
        var t := ref["type"];
        match DefaultSettings(table, registry, t)
        case Err(e) => Walk(Err(e), Some(t), 1)
        case Ok(ds) =>
          var base' := base + ds + ref;
          if t in chain then Walk(Err(CircularReference(chain)), Some(t), 1)
          else
            UnvisitedShrinks(refs, chain, t);
            var w := Chase(refs, table, registry, t, chain + {t}, base', Some(t));
            Walk(w.outcome, w.written, w.steps + 1)
  }

  /** Every iteration visits a new reference name: the loop runs at most once per
      unvisited reference name, plus the iteration that raises or stops. On success
      the type it stops at is not a reference, and it raises only KeyError (a
      reference without "type"), TypeError (an unhashable target) or the
      circular-reference error. */
  lemma {:induction false} ChaseFacts(refs: map<string, Settings>, table: DefaultsMap, registry: string,
                                      cur: Value, chain: set<Value>, base: Settings, written: Option<Value>)
    requires cur in chain
    requires written.Some? ==> written.value == cur
    ensures var w := Chase(refs, table, registry, cur, chain, base, written);
            && w.steps <= |Unvisited(refs, chain)| + (if RefOf(refs, cur).Some? then 1 else 0)
            && (w.outcome.Ok? ==> RefOf(refs, w.written.GetOr(cur)).None?)
            && (w.outcome.Err? ==>
                  w.outcome.error.KeyError? || w.outcome.error.TypeError? || w.outcome.error.CircularReference?)
    decreases Unvisited(refs, chain), if RefOf(refs, cur).Some? then 1 else 0
  {
    match RefOf(refs, cur)
    case None =>
    case Some(ref) =>
      if "type" in ref {
        var t := ref["type"];
        if Hashable(t) && t !in chain {
          UnvisitedShrinks(refs, chain, t);
          ChaseFacts(refs, table, registry, t, chain + {t}, base + DefaultsOf(table, registry, t) + ref, Some(t));
        }
      }
  }

  /** Visiting a new name t removes it from the unvisited reference names, if it is one. */
  lemma UnvisitedShrinks(refs: map<string, Settings>, chain: set<Value>, t: Value)
    requires t !in chain
    ensures RefOf(refs, t).Some? ==> Unvisited(refs, chain + {t}) == Unvisited(refs, chain) - {t.s}
                                     && t.s in Unvisited(refs, chain)
    ensures RefOf(refs, t).None? ==> Unvisited(refs, chain + {t}) == Unvisited(refs, chain)
  {
  }

  /** One iteration of the loop, unfolded: what `Chase` does when `cur` names a reference. */
  lemma ChaseStep(refs: map<string, Settings>, table: DefaultsMap, registry: string,
                  cur: Value, chain: set<Value>, base: Settings, written: Option<Value>)
    requires cur in chain
    requires written.Some? ==> written.value == cur
    requires RefOf(refs, cur).Some?
    ensures var ref := RefOf(refs, cur).value;
            var c := Chase(refs, table, registry, cur, chain, base, written);
            if "type" !in ref then c.outcome == Err(KeyError(Str("type"))) && c.written == written
            else
              var t := ref["type"];
              if !Hashable(t) then c.outcome == Err(TypeError("unhashable type")) && c.written == Some(t)
              else if t in chain then c.outcome == Err(CircularReference(chain)) && c.written == Some(t)
              else
                var c' := Chase(refs, table, registry, t, chain + {t}, base + DefaultsOf(table, registry, t) + ref, Some(t));
                c.outcome == c'.outcome && c.written == c'.written && c.steps == c'.steps + 1
  {
  }

  /** The caller's dict after the loop: "type" holds the last value written, if any. */
  function Overwritten(items: Settings, written: Option<Value>): Settings {
    if written.Some? then items["type" := written.value] else items
  }

  /** The whole of `make` on the given settings: its result or exception, the last
      value it wrote into the caller's "type", and the loop's iteration count. */
  datatype Made = Made(result: Result<(Instance, Settings)>, written: Option<Value>, steps: nat)

  /** Lines 50-57: the caller's settings (with "type" rewritten) override the layered
      base, and the final "type" selects the class, or raises "No type registered". */
  function Construct(types: map<string, ClassName>, layered: Settings, given: Settings,
                     written: Option<Value>): (r: Result<(Instance, Settings)>)
    requires "type" in given
    ensures var t := Overwritten(given, written)["type"];
            match r
            case Ok((inst, final)) =>
              && inst.settings == final
              && "type" in final && final["type"] == t
              && ClassOf(types, t) == Some(inst.cls)
              && (forall k :: k in given && k != "type" ==> k in final && final[k] == given[k])
              && (forall k :: k in layered && k !in given ==> k in final && final[k] == layered[k])
            case Err(e) => e == NoTypeRegistered(t) && ClassOf(types, t).None?
  {
    var final := layered + Overwritten(given, written);
    match ClassOf(types, final["type"])
    case None => Err(NoTypeRegistered(final["type"]))
    case Some(cls) => Ok((Instance(cls, final), final))
  }

  function Resolve(types: map<string, ClassName>, refs: map<string, Settings>,
                   table: DefaultsMap, registry: string, settings: Settings): (m: Made)
    ensures "type" !in settings ==> m == Made(Err(KeyError(Str("type"))), None, 0)
    ensures m.steps <= |refs|
    ensures m.result.Ok? ==> "type" in settings && RefOf(refs, Overwritten(settings, m.written)["type"]).None?
    ensures m.result.Ok? ==> "type" in m.result.value.1 && m.result.value.0.settings == m.result.value.1
    ensures m.result.Ok? ==> ClassOf(types, m.result.value.1["type"]) == Some(m.result.value.0.cls)
    ensures m.result.Ok? ==>
              forall k :: k in settings && k != "type" ==> k in m.result.value.1 && m.result.value.1[k] == settings[k]
  {
    if "type" !in settings then Made(Err(KeyError(Str("type"))), None, 0)
    else
      var t0 := settings["type"];
      match DefaultSettings(table, registry, t0)
      case Err(e) => Made(Err(e), None, 0)
      case Ok(base) =>
        var w := Chase(refs, table, registry, t0, {t0}, base, None);
        ChaseFacts(refs, table, registry, t0, {t0}, base, None);
        StartBound(refs, t0);
        match w.outcome
        case Err(e) => Made(Err(e), w.written, w.steps)
        case Ok(layered) => Made(Construct(types, layered, settings, w.written), w.written, w.steps)
  }

  /** Starting from {t0}, the loop has at most |refs| iterations. */
  lemma StartBound(refs: map<string, Settings>, t0: Value)
    ensures |Unvisited(refs, {t0})| + (if RefOf(refs, t0).Some? then 1 else 0) <= |refs|
  {
    var u := Unvisited(refs, {t0});
    assert u <= refs.Keys;
    if RefOf(refs, t0).Some? {
      assert u <= refs.Keys - {t0.s};
      SubsetCard(u, refs.Keys - {t0.s});
    } else {
      SubsetCard(u, refs.Keys);
    }
  }

  lemma {:induction false} SubsetCard<T>(a: set<T>, b: set<T>)
    requires a <= b
    ensures |a| <= |b|
    decreases b
  {
    if a != {} {
      var x :| x in a;
      SubsetCard(a - {x}, b - {x});
    }
  }

  /** `p` is a path through the references: every name but the last is a reference
      whose "type" is the next name. */
  predicate Links(refs: map<string, Settings>, p: seq<Value>) {
    forall i :: 0 <= i < |p| - 1 ==>
      RefOf(refs, p[i]).Some? && "type" in RefOf(refs, p[i]).value && RefOf(refs, p[i]).value["type"] == p[i + 1]
  }

  predicate Distinct(p: seq<Value>) {
    forall i, j :: 0 <= i < j < |p| ==> p[i] != p[j]
  }

  function Elems(p: seq<Value>): set<Value> {
    set x | x in p
  }

  /** The base settings after following the path `p` from `base`: at each link the
      target's defaults and then the reference's own settings are merged on top. */
  function Layer(refs: map<string, Settings>, table: DefaultsMap, registry: string,
                 base: Settings, p: seq<Value>): Settings
    requires Links(refs, p)
    decreases |p|
  {
    if |p| <= 1 then base
    else Layer(refs, table, registry, base + DefaultsOf(table, registry, p[1]) + RefOf(refs, p[0]).value, p[1..])
  }

  /** Following a path of fresh, hashable names: the loop walks it link by link, and
      continues from its last name with every name on it visited. */
  lemma {:induction false} ChaseAlong(refs: map<string, Settings>, table: DefaultsMap, registry: string,
                                      p: seq<Value>, chain: set<Value>, base: Settings, written: Option<Value>)
    requires |p| >= 1 && Links(refs, p) && Distinct(p)
    requires p[0] in chain
    requires written.Some? ==> written.value == p[0]
    requires forall i :: 1 <= i < |p| ==> Hashable(p[i]) && p[i] !in chain
    ensures var last := p[|p| - 1];
            var w := Chase(refs, table, registry, p[0], chain, base, written);
            var rest := Chase(refs, table, registry, last, chain + Elems(p[1..]), Layer(refs, table, registry, base, p),
                              if |p| == 1 then written else Some(last));
            w.outcome == rest.outcome && w.written == rest.written && w.steps == rest.steps + |p| - 1
    decreases |p|
  {
    if |p| == 1 {
      assert chain + Elems(p[1..]) == chain;
    } else {
      var ref := RefOf(refs, p[0]).value;
      var t := p[1];
      var q := p[1..];
      var base' := base + DefaultsOf(table, registry, t) + ref;
      PathTail(refs, p, chain);
      assert Layer(refs, table, registry, base, p) == Layer(refs, table, registry, base', q);
      ChaseStep(refs, table, registry, p[0], chain, base, written);
      ChaseAlong(refs, table, registry, q, chain + {t}, base', Some(t));
      ElemsCons(q);
      var last := p[|p| - 1];
      assert q[|q| - 1] == last;
      assert chain + {t} + Elems(q[1..]) == chain + Elems(q);
    }
  }

  lemma ElemsCons(q: seq<Value>)
    requires |q| >= 1
    ensures Elems(q) == {q[0]} + Elems(q[1..])
  {
    assert q == [q[0]] + q[1..];
  }

  /** What is left of a path after its first link still is one, with its first name visited. */
  lemma PathTail(refs: map<string, Settings>, p: seq<Value>, chain: set<Value>)
    requires |p| >= 2 && Links(refs, p) && Distinct(p)
    requires forall i :: 1 <= i < |p| ==> Hashable(p[i]) && p[i] !in chain
    ensures Links(refs, p[1..]) && Distinct(p[1..])
    ensures forall i :: 1 <= i < |p[1..]| ==> Hashable(p[1..][i]) && p[1..][i] !in chain + {p[1]}
    ensures var ref := RefOf(refs, p[0]);
            ref.Some? && "type" in ref.value && ref.value["type"] == p[1]
    ensures Hashable(p[1]) && p[1] !in chain
  {
    var q := p[1..];
    assert forall i :: 0 <= i < |q| ==> q[i] == p[i + 1];
  }

  /** A chain of references that ends at a name which is not a reference: `make`
      follows it to the end, visits each reference once, builds its base by the
      layering `Layer` describes and constructs the last name. */
  lemma ResolveAlongChain(types: map<string, ClassName>, refs: map<string, Settings>, table: DefaultsMap,
                          registry: string, settings: Settings, p: seq<Value>)
    requires |p| >= 1 && Links(refs, p) && Distinct(p)
    requires forall i :: 0 <= i < |p| ==> Hashable(p[i])
    requires "type" in settings && settings["type"] == p[0]
    requires RefOf(refs, p[|p| - 1]).None?
    ensures var m := Resolve(types, refs, table, registry, settings);
            var last := p[|p| - 1];
            && m.written == (if |p| == 1 then None else Some(last))
            && m.steps == |p| - 1
            && m.result == Construct(types, Layer(refs, table, registry, DefaultsOf(table, registry, p[0]), p),
                                     settings, m.written)
            && Overwritten(settings, m.written)["type"] == last
  {
    ChaseAlong(refs, table, registry, p, {p[0]}, DefaultsOf(table, registry, p[0]), None);
  }

  /** A chain of references whose last link points back at a name already on it, or at
      itself: `make` raises the circular-reference error with the visited names, after
      writing the revisited name into the caller's "type". */
  lemma ResolveFindsCycle(types: map<string, ClassName>, refs: map<string, Settings>, table: DefaultsMap,
                          registry: string, settings: Settings, p: seq<Value>)
    requires |p| >= 1 && Links(refs, p) && Distinct(p)
    requires forall i :: 0 <= i < |p| ==> Hashable(p[i])
    requires "type" in settings && settings["type"] == p[0]
    requires var r := RefOf(refs, p[|p| - 1]);
             r.Some? && "type" in r.value && r.value["type"] in Elems(p)
    ensures var m := Resolve(types, refs, table, registry, settings);
            && m.result == Err(CircularReference(Elems(p)))
            && m.written == Some(RefOf(refs, p[|p| - 1]).value["type"])
            && m.steps == |p|
  {
    var base := DefaultsOf(table, registry, p[0]);
    ChaseAlong(refs, table, registry, p, {p[0]}, base, None);
    ElemsCons(p);
  }

  /** The smallest cycle: a reference to itself fails on the first iteration. */
  lemma SelfReference(types: map<string, ClassName>, refs: map<string, Settings>, table: DefaultsMap,
                      registry: string, name: string)
    requires name in refs && "type" in refs[name] && refs[name]["type"] == Str(name)
    ensures var m := Resolve(types, refs, table, registry, map["type" := Str(name)]);
            m.result == Err(CircularReference({Str(name)})) && m.written == Some(Str(name))
  {
    ResolveFindsCycle(types, refs, table, registry, map["type" := Str(name)], [Str(name)]);
    assert Elems([Str(name)]) == {Str(name)};
  }

  /** Along a -> b -> c the later link wins: b's settings override a's, and the
      defaults of c override a's own settings too. */
  lemma LaterLinkWins(types: map<string, ClassName>, refs: map<string, Settings>, table: DefaultsMap,
                      registry: string, a: string, b: string, c: string, key: string)
    requires a != b && b != c && a != c && key != "type"
    requires a in refs && "type" in refs[a] && refs[a]["type"] == Str(b)
    requires b in refs && "type" in refs[b] && refs[b]["type"] == Str(c)
    requires c !in refs && c in types
    ensures var m := Resolve(types, refs, table, registry, map["type" := Str(a)]);
            && m.result.Ok?
            && (key in refs[b] ==> key in m.result.value.1 && m.result.value.1[key] == refs[b][key])
            && (key !in refs[b] && key in DefaultsOf(table, registry, Str(c)) ==>
                  key in m.result.value.1 && m.result.value.1[key] == DefaultsOf(table, registry, Str(c))[key])
  {
    var settings := map["type" := Str(a)];
    var p := [Str(a), Str(b), Str(c)];
    assert Links(refs, p);
    ResolveAlongChain(types, refs, table, registry, settings, p);
    var base := DefaultsOf(table, registry, Str(a));
    var q := [Str(b), Str(c)];
    assert p[1..] == q && q[1..] == [Str(c)];
    var x := base + DefaultsOf(table, registry, Str(b)) + refs[a];
    var layered := x + DefaultsOf(table, registry, Str(c)) + refs[b];
    assert Layer(refs, table, registry, base, p) == Layer(refs, table, registry, x, q);
    assert Layer(refs, table, registry, x, q) == layered;
  }

  /** The resolution loop of `make` (lines 35-48), run on the caller's dict `d`
    whose "type" is `t0`: it rewrites "type" in place with every target it follows. */
  method ChaseInPlace(rs: map<string, Settings>, table: DefaultsMap, reg: string,
                     d: SettingsDict, t0: Value, base0: Settings) returns (outcome: Result<Settings>)
    requires "type" in d.items && d.items["type"] == t0
    modifies d
    ensures outcome == Chase(rs, table, reg, t0, {t0}, base0, None).outcome
    ensures d.items == Overwritten(old(d.items), Chase(rs, table, reg, t0, {t0}, base0, None).written)
  {
    ghost var given := d.items;
    ghost var walk := Chase(rs, table, reg, t0, {t0}, base0, None);
    var base := base0;
    var chain: set<Value> := {t0};
    var cur := t0;
    ghost var written: Option<Value> := None;
    assert given["type" := t0] == given;
    var refType := RefOf(rs, cur);
    while refType.Some?
      invariant cur in chain
      invariant written.Some? ==> written.value == cur
      invariant refType == RefOf(rs, cur)
      invariant var c := Chase(rs, table, reg, cur, chain, base, written);
                c.outcome == walk.outcome && c.written == walk.written
      invariant written.None? ==> cur == t0
      invariant d.items == given["type" := cur]
      decreases Unvisited(rs, chain), if refType.Some? then 1 else 0
    {
      var ref := refType.value;
      ChaseStep(rs, table, reg, cur, chain, base, written);
      if "type" !in ref {
        assert walk.written == written;
        return Err(KeyError(Str("type")));
      }
      var t := ref["type"];
      d.items := d.items["type" := t];
      written := Some(t);
      var ds := DefaultSettings(table, reg, t);
      if ds.Err? {
        return Err(ds.error);
      }
      if t in chain {
        return Err(CircularReference(chain));
      }
      base := base + ds.value + ref;
      UnvisitedShrinks(rs, chain, t);
      chain := chain + {t};
      cur := t;
      refType := RefOf(rs, t);
    }
    assert walk.written == written;
    outcome := Ok(base);
  }

  /** The registry object: its name, the registered classes and references, and the
      shared defaults table. */
  class TypeRegistry {
    const name: string
    const defaults: DefaultsTable
    var types: map<string, ClassName>
    var refs: map<string, Settings>

    constructor (name: string, defaults: DefaultsTable)
      ensures this.name == name && this.defaults == defaults
      ensures types == map[] && refs == map[]
    {
      this.name := name;
      this.defaults := defaults;
      types := map[];
      refs := map[];
    }

    /** `register`: only the entry for `name` changes. */
    method Register(name: string, cls: ClassName)
      modifies this
      ensures types == old(types)[name := cls]
      ensures refs == old(refs)
    {
      types := types[name := cls];
    }

    /** `register_ref`: only the entry for `name` changes. */
    method RegisterRef(name: string, settings: Settings)
      modifies this
      ensures refs == old(refs)[name := settings]
      ensures types == old(types)
    {
      refs := refs[name := settings];
    }

    /** `make`: resolve, merge and construct, rewriting the caller's "type" in place. */
    method Make(arg: SettingsArg) returns (r: Result<(Instance, Settings)>)
      modifies Footprint(arg)
      ensures r == Resolve(types, refs, defaults.table, name, old(Given(arg))).result
      ensures arg.Mapping? ==>
                arg.dict.items == Overwritten(old(arg.dict.items),
                                              Resolve(types, refs, defaults.table, name, old(Given(arg))).written)
    {
      var d: SettingsDict;
      if arg.TypeName? {
        d := new SettingsDict(map["type" := Str(arg.name)]);
      } else {
        d := arg.dict;
      }
      ghost var given := d.items;
      assert given == old(Given(arg));
      if "type" !in d.items {
        return Err(KeyError(Str("type")));
      }
      var t0 := d.items["type"];
      var ds0 := DefaultSettings(defaults.table, name, t0);
      if ds0.Err? {
        return Err(ds0.error);
      }
      var layered := ChaseInPlace(refs, defaults.table, name, d, t0, ds0.value);
      if layered.Err? {
        return Err(layered.error);
      }
      var final := layered.value + d.items;
      var cls := ClassOf(types, final["type"]);
      if cls.None? {
        return Err(NoTypeRegistered(final["type"]));
      }
      r := Ok((Instance(cls.value, final), final));
    }
  }
}
