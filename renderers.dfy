/** The renderers of renderers.py: the registry of renderer types, the factory that
    builds a renderer from settings, the two list-item templates and their
    streaming script, what each renderer makes of a value, and the recursive HTML
    rendering of nested dicts.

    The HTML templates are kept with their whitespace condensed to single spaces and
    their leading and trailing whitespace dropped; uuid-generated ids are arguments. */
module Renderers {
  import opened Base
  import opened Images

  // ---------------------------------------------------------------------------
  // render_nested_dict
  // ---------------------------------------------------------------------------

  /** The head and tail of one key's div: `<div style='margin-left:{indent * 20}px;'>
      <strong>{key}:</strong> ` + body + `</div>`. */
  function Div(indent: int, key: Value, body: string): string {
    "<div style='margin-left:" + IntToString(indent * 20) + "px;'><strong>" + PyStr(key) + ":</strong> "
    + body + "</div>"
  }

  /** `x + r` on a rendering that may have raised. */
  function Prepend(x: string, r: Result<string>): Result<string> {
    match r
    case Ok(s) => Ok(x + s)
    case Err(e) => Err(e)
  }

  /** `item["_name"]`, as the re-keying comprehension reads it: only a dict can be
      indexed by a string, the key must be there, and the name must be hashable to
      become a key. */
  function NameOf(item: Value): (r: Result<Value>)
    ensures r.Ok? ==> item.Dict? && DictGet(item.entries, Str("_name")) == Some(r.value) && Hashable(r.value)
  {
    match item
    case Dict(es) =>
      (match DictGet(es, Str("_name"))
       case None => Err(KeyError(Str("_name")))
       case Some(n) => if Hashable(n) then Ok(n) else Err(TypeError("unhashable type")))
    case _ => Err(TypeError("string indices must be integers"))
  }

  /** Where key n sits in the dict being built, if it is there. */
  function FindName(table: seq<(Value, nat)>, n: Value): (r: Option<nat>)
    ensures r.Some? ==> r.value < |table| && table[r.value].0 == n
    ensures r.None? ==> forall p :: 0 <= p < |table| ==> table[p].0 != n
  {
    if |table| == 0 then None
    else if table[0].0 == n then Some(0)
    else match FindName(table[1..], n)
      case None => None
      case Some(q) => Some(q + 1)
  }

  /** Storing `key: item j` into the dict being built: an existing key keeps its place
      and gets the new item, a new key goes last. */
  function Insert(table: seq<(Value, nat)>, n: Value, j: nat): seq<(Value, nat)> {
    match FindName(table, n)
    case Some(q) => table[q := (n, j)]
    case None => table + [(n, j)]
  }

  predicate UniqueNames(table: seq<(Value, nat)>) {
    forall p, q :: 0 <= p < q < |table| ==> table[p].0 != table[q].0
  }

  /** Insertion points key n at item j, keeps every other key where it was with its
      item, and loses no key. */
  lemma InsertFacts(table: seq<(Value, nat)>, n: Value, j: nat)
    requires UniqueNames(table)
    ensures var t := Insert(table, n, j);
            && UniqueNames(t)
            && |table| <= |t|
            && (forall p :: 0 <= p < |t| && t[p].0 == n ==> t[p].1 == j)
            && (forall p :: 0 <= p < |t| && t[p].0 != n ==> p < |table| && t[p] == table[p])
            && FindName(t, n).Some?
            && (forall x :: FindName(table, x).Some? ==> FindName(t, x).Some?)
  {
    var t := Insert(table, n, j);
    forall x | FindName(table, x).Some?
      ensures FindName(t, x).Some?
    {
      var q := FindName(table, x).value;
      assert t[q].0 == x;
    }
    match FindName(table, n)
    case Some(q) =>
      assert t[q].0 == n;
    case None =>
      assert t[|table|].0 == n;
  }

  /** `{item["_name"]: item for item in items}` from item j on, as the item index
      stored under each name. */
  function Rekey(items: seq<Value>, j: nat, table: seq<(Value, nat)>): Result<seq<(Value, nat)>>
    requires j <= |items|
    decreases |items| - j
  {
    if j == |items| then Ok(table)
    else
      match NameOf(items[j])
      case Err(e) => Err(e)
      case Ok(n) => Rekey(items, j + 1, Insert(table, n, j))
  }

  /** What the table built from the first j items holds: each name once, each pointing
      at the last of those items with that name, and every one of their names. */
  predicate TableOf(items: seq<Value>, j: nat, table: seq<(Value, nat)>)
    requires j <= |items|
  {
    && UniqueNames(table)
    && (forall p :: 0 <= p < |table| ==>
          && table[p].1 < j
          && NameOf(items[table[p].1]) == Ok(table[p].0)
          && forall l :: table[p].1 < l < j ==> NameOf(items[l]) != Ok(table[p].0))
    && (forall l :: 0 <= l < j ==> NameOf(items[l]).Ok? && FindName(table, NameOf(items[l]).value).Some?)
  }

  /** Storing item j keeps the table what it should be. */
  lemma TableOfStep(items: seq<Value>, j: nat, table: seq<(Value, nat)>, n: Value)
    requires j < |items| && TableOf(items, j, table) && NameOf(items[j]) == Ok(n)
    ensures TableOf(items, j + 1, Insert(table, n, j))
  {
    InsertFacts(table, n, j);
    StepKeepsLastItems(items, j, table, n);
    StepKeepsNames(items, j, table, n);
  }

  /** After storing item j, each name points at the last item so far that carries it. */
  lemma StepKeepsLastItems(items: seq<Value>, j: nat, table: seq<(Value, nat)>, n: Value)
    requires j < |items| && TableOf(items, j, table) && NameOf(items[j]) == Ok(n)
    ensures var t := Insert(table, n, j);
            forall p :: 0 <= p < |t| ==>
              && t[p].1 < j + 1
              && NameOf(items[t[p].1]) == Ok(t[p].0)
              && forall l :: t[p].1 < l < j + 1 ==> NameOf(items[l]) != Ok(t[p].0)
  {
    var t := Insert(table, n, j);
    InsertFacts(table, n, j);
    forall p | 0 <= p < |t|
      ensures t[p].1 < j + 1 && NameOf(items[t[p].1]) == Ok(t[p].0)
      ensures forall l :: t[p].1 < l < j + 1 ==> NameOf(items[l]) != Ok(t[p].0)
    {
      if t[p].0 != n {
        assert t[p] == table[p];
        forall l | t[p].1 < l < j + 1
          ensures NameOf(items[l]) != Ok(t[p].0)
        {
          if l == j {
            assert NameOf(items[j]) == Ok(n);
          }
        }
      }
    }
  }

  /** After storing item j, every name of the first j + 1 items is in the table. */
  lemma StepKeepsNames(items: seq<Value>, j: nat, table: seq<(Value, nat)>, n: Value)
    requires j < |items| && TableOf(items, j, table) && NameOf(items[j]) == Ok(n)
    ensures var t := Insert(table, n, j);
            forall l :: 0 <= l < j + 1 ==> NameOf(items[l]).Ok? && FindName(t, NameOf(items[l]).value).Some?
  {
    var t := Insert(table, n, j);
    forall l | 0 <= l < j + 1
      ensures NameOf(items[l]).Ok? && FindName(t, NameOf(items[l]).value).Some?
    {
      InsertFinds(table, n, j, NameOf(items[l]).value);
    }
  }

  /** A key found before the insertion, and the key inserted, are found after it. */
  lemma InsertFinds(table: seq<(Value, nat)>, n: Value, j: nat, x: Value)
    ensures FindName(table, x).Some? || x == n ==> FindName(Insert(table, n, j), x).Some?
  {
    var t := Insert(table, n, j);
    if FindName(table, x).Some? {
      assert t[FindName(table, x).value].0 == x;
    } else if x == n {
      assert t[|table|].0 == n;
    }
  }

  /** The re-keyed dict succeeds exactly when every item has a usable name, and then
      holds each name once, pointing at the last item that carries it. */
  lemma {:induction false} RekeyTable(items: seq<Value>, j: nat, table: seq<(Value, nat)>)
    requires j <= |items| && TableOf(items, j, table)
    ensures var r := Rekey(items, j, table);
            && (r.Ok? <==> forall l :: j <= l < |items| ==> NameOf(items[l]).Ok?)
            && (r.Ok? ==> TableOf(items, |items|, r.value))
    decreases |items| - j
  {
    if j < |items| {
      match NameOf(items[j])
      case Err(e) =>
      case Ok(n) =>
        TableOfStep(items, j, table, n);
        RekeyTable(items, j + 1, Insert(table, n, j));
    }
  }

  /** When it fails, it fails with the error of the first item without a usable
      name. */
  lemma {:induction false} RekeyFirstError(items: seq<Value>, j: nat, table: seq<(Value, nat)>) returns (bad: nat)
    requires j <= |items|
    ensures var r := Rekey(items, j, table);
            r.Err? ==> && j <= bad < |items| && NameOf(items[bad]) == Err(r.error)
                       && forall m :: j <= m < bad ==> NameOf(items[m]).Ok?
    decreases |items| - j
  {
    bad := j;
    if j < |items| {
      match NameOf(items[j])
      case Err(e) =>
      case Ok(n) =>
        bad := RekeyFirstError(items, j + 1, Insert(table, n, j));
    }
  }

  /** `render_nested_dict(data, indent)`. */
  function NestedHtml(v: Value, indent: int): Result<string>
    decreases v, 5
  {
    if !v.Dict? then Ok(PyStr(v)) else EntriesHtml(v, indent, false, 0)
  }

  /** The divs of the keys of dict d from entry i on. With `skip`, the "_name" key
      the re-keying deleted is left out. */
  function EntriesHtml(d: Value, indent: int, skip: bool, i: nat): Result<string>
    requires d.Dict? && i <= |d.entries|
    decreases d, 4, |d.entries| - i
  {
    if i == |d.entries| then Ok("")
    else if skip && d.entries[i].0 == Str("_name") then EntriesHtml(d, indent, skip, i + 1)
    else
      match EntryHtml(d, indent, i)
      case Err(e) => Err(e)
      case Ok(s) => Prepend(s, EntriesHtml(d, indent, skip, i + 1))
  }

  /** The div of entry i of dict d. */
  function EntryHtml(d: Value, indent: int, i: nat): Result<string>
    requires d.Dict? && i < |d.entries|
    decreases d, 3
  {
    match ValueHtml(d, indent, i)
    case Err(e) => Err(e)
    case Ok(body) => Ok(Div(indent, d.entries[i].0, body))
  }

  /** What follows the key in entry i: a nested dict one level deeper after a line
      break, a list, or the value as `str`. */
  function ValueHtml(d: Value, indent: int, i: nat): Result<string>
    requires d.Dict? && i < |d.entries|
    decreases d, 2
  {
    var value := d.entries[i].1;
    if value.Dict? then Prepend("<br>", NestedHtml(value, indent + 1))
    else if value.List? then ListHtml(value, indent)
    else Ok(PyStr(value))
  }

  /** A list value: `value[0].get("_name")` decides; a truthy name re-keys the list
      into a dict rendered one level deeper without its "_name" keys, otherwise the
      items become a bullet list rendered at indent 0. */
  function ListHtml(l: Value, indent: int): Result<string>
    requires l.List?
    decreases l, 1
  {
    if |l.items| == 0 then Err(IndexError)
    else if !l.items[0].Dict? then Err(AttributeError("get"))
    else if Truthy(DictGet(l.items[0].entries, Str("_name")).GetOr(Null)) then
      RekeyThenHtml(l, indent)
    else Prepend("<ul>", Append(ItemsHtml(l, 0), "</ul>"))
  }

  function Append(r: Result<string>, y: string): Result<string> {
    match r
    case Ok(s) => Ok(s + y)
    case Err(e) => Err(e)
  }

  function RekeyThenHtml(l: Value, indent: int): Result<string>
    requires l.List?
    decreases l, 0
  {
    var r := Rekey(l.items, 0, []);
    RekeyTable(l.items, 0, []);
    match r
    case Err(e) => Err(e)
    case Ok(table) => RekeyedHtml(l, indent, table, 0)
  }

  /** The re-keyed dict, rendered at indent + 1: one div per name, whose item (a dict)
      follows a line break, rendered at indent + 2 without its "_name" key. */
  function RekeyedHtml(l: Value, indent: int, table: seq<(Value, nat)>, k: nat): Result<string>
    requires l.List? && k <= |table|
    requires forall p :: 0 <= p < |table| ==> table[p].1 < |l.items| && l.items[table[p].1].Dict?
    decreases l, 0, |table| - k
  {
    if k == |table| then Ok("")
    else
      var item := l.items[table[k].1];
      match EntriesHtml(item, indent + 2, true, 0)
      case Err(e) => Err(e)
      case Ok(s) => Prepend(Div(indent + 1, table[k].0, "<br>" + s), RekeyedHtml(l, indent, table, k + 1))
  }

  /** `"".join(f"<li>{render_nested_dict(item)}</li>" for item in value)` from item j on. */
  function ItemsHtml(l: Value, j: nat): Result<string>
    requires l.List? && j <= |l.items|
    decreases l, 0, |l.items| - j
  {
    if j == |l.items| then Ok("")
    else
      match NestedHtml(l.items[j], 0)
      case Err(e) => Err(e)
      case Ok(s) => Prepend("<li>" + s + "</li>", ItemsHtml(l, j + 1))
  }

  /** The imperative `render_nested_dict`: `html +=` over the entries of the dict. */
  method RenderNestedDict(data: Value, indent: int) returns (r: Result<string>)
    ensures r == NestedHtml(data, indent)
    decreases data, 2
  {
    if !data.Dict? {
      return Ok(PyStr(data));
    }
    r := RenderEntries(data, indent, false);
  }

  /** The text rendered so far, in front of the rest. */
  lemma PrependPrepend(x: string, y: string, r: Result<string>)
    ensures Prepend(x, Prepend(y, r)) == Prepend(x + y, r)
  {
    if r.Ok? {
      assert x + (y + r.value) == (x + y) + r.value;
    }
  }

  lemma PrependNothing(r: Result<string>)
    ensures Prepend("", r) == r
  {
    if r.Ok? {
      assert "" + r.value == r.value;
    }
  }

  method RenderEntries(d: Value, indent: int, skip: bool) returns (r: Result<string>)
    requires d.Dict?
    ensures r == EntriesHtml(d, indent, skip, 0)
    decreases d, 1
  {
    var html := "";
    var i := 0;
    PrependNothing(EntriesHtml(d, indent, skip, 0));
    while i < |d.entries|
      invariant 0 <= i <= |d.entries|
      invariant EntriesHtml(d, indent, skip, 0) == Prepend(html, EntriesHtml(d, indent, skip, i))
    {
      var (key, value) := d.entries[i];
      if skip && key == Str("_name") {
        EntriesSkip(d, indent, skip, i);
        i := i + 1;
        continue;
      }
      var body := RenderValue(d, indent, i);
      EntriesStep(d, indent, skip, i, html, body);
      if body.Err? {
        return Err(body.error);
      }
      var div := Div(indent, key, body.value);
      html := html + div;
      i := i + 1;
    }
    r := Ok(html);
    assert html + "" == html;
  }

  /** What follows the key of entry i. */
  method RenderValue(d: Value, indent: int, i: nat) returns (r: Result<string>)
    requires d.Dict? && i < |d.entries|
    ensures r == ValueHtml(d, indent, i)
    decreases d, 0
  {
    var value := d.entries[i].1;
    if value.Dict? {
      var nested := RenderNestedDict(value, indent + 1);
      r := Prepend("<br>", nested);
    } else if value.List? {
      r := RenderList(value, indent);
    } else {
      r := Ok(PyStr(value));
    }
  }

  /** A "_name" key the re-keying deleted adds nothing. */
  lemma EntriesSkip(d: Value, indent: int, skip: bool, i: nat)
    requires d.Dict? && i < |d.entries| && skip && d.entries[i].0 == Str("_name")
    ensures EntriesHtml(d, indent, skip, i) == EntriesHtml(d, indent, skip, i + 1)
  {
  }

  /** One key of the dict, not skipped: its div, then the rest. */
  lemma EntriesStep(d: Value, indent: int, skip: bool, i: nat, html: string, body: Result<string>)
    requires d.Dict? && i < |d.entries| && !(skip && d.entries[i].0 == Str("_name"))
    requires ValueHtml(d, indent, i) == body
    ensures body.Err? ==> Prepend(html, EntriesHtml(d, indent, skip, i)) == Err(body.error)
    ensures body.Ok? ==>
              Prepend(html, EntriesHtml(d, indent, skip, i))
              == Prepend(html + Div(indent, d.entries[i].0, body.value), EntriesHtml(d, indent, skip, i + 1))
  {
    if body.Ok? {
      PrependPrepend(html, Div(indent, d.entries[i].0, body.value), EntriesHtml(d, indent, skip, i + 1));
    }
  }

  method RenderList(l: Value, indent: int) returns (r: Result<string>)
    requires l.List?
    ensures r == ListHtml(l, indent)
    decreases l, 3
  {
    if |l.items| == 0 {
      return Err(IndexError);
    }
    if !l.items[0].Dict? {
      return Err(AttributeError("get"));
    }
    if Truthy(DictGet(l.items[0].entries, Str("_name")).GetOr(Null)) {
      var rekeyed := Rekey(l.items, 0, []);
      RekeyTable(l.items, 0, []);
      if rekeyed.Err? {
        return Err(rekeyed.error);
      }
      r := RenderRekeyed(l, indent, rekeyed.value);
    } else {
      var lis := RenderItems(l);
      r := Prepend("<ul>", Append(lis, "</ul>"));
    }
  }

  /** The divs of the re-keyed dict, `html +=` per name. */
  method RenderRekeyed(l: Value, indent: int, table: seq<(Value, nat)>) returns (r: Result<string>)
    requires l.List?
    requires forall p :: 0 <= p < |table| ==> table[p].1 < |l.items| && l.items[table[p].1].Dict?
    ensures r == RekeyedHtml(l, indent, table, 0)
    decreases l, 2
  {
    var html := "";
    var k := 0;
    PrependNothing(RekeyedHtml(l, indent, table, 0));
    while k < |table|
      invariant 0 <= k <= |table|
      invariant RekeyedHtml(l, indent, table, 0) == Prepend(html, RekeyedHtml(l, indent, table, k))
    {
      var item := l.items[table[k].1];
      var s := RenderEntries(item, indent + 2, true);
      if s.Err? {
        return Err(s.error);
      }
      var div := Div(indent + 1, table[k].0, "<br>" + s.value);
      RekeyedStep(l, indent, table, k, html, s.value);
      html := html + div;
      k := k + 1;
    }
    r := Ok(html);
    assert html + "" == html;
  }

  /** One name of the re-keyed dict: its div, then the rest. */
  lemma RekeyedStep(l: Value, indent: int, table: seq<(Value, nat)>, k: nat, html: string, s: string)
    requires l.List? && k < |table|
    requires forall p :: 0 <= p < |table| ==> table[p].1 < |l.items| && l.items[table[p].1].Dict?
    requires EntriesHtml(l.items[table[k].1], indent + 2, true, 0) == Ok(s)
    ensures Prepend(html, RekeyedHtml(l, indent, table, k))
            == Prepend(html + Div(indent + 1, table[k].0, "<br>" + s), RekeyedHtml(l, indent, table, k + 1))
  {
    PrependPrepend(html, Div(indent + 1, table[k].0, "<br>" + s), RekeyedHtml(l, indent, table, k + 1));
  }

  /** The bullet items of a list that is not re-keyed. */
  method RenderItems(l: Value) returns (r: Result<string>)
    requires l.List?
    ensures r == ItemsHtml(l, 0)
    decreases l, 2
  {
    var lis := "";
    var j := 0;
    PrependNothing(ItemsHtml(l, 0));
    while j < |l.items|
      invariant 0 <= j <= |l.items|
      invariant ItemsHtml(l, 0) == Prepend(lis, ItemsHtml(l, j))
    {
      var s := RenderNestedDict(l.items[j], 0);
      if s.Err? {
        return Err(s.error);
      }
      var li := "<li>" + s.value + "</li>";
      PrependPrepend(lis, li, ItemsHtml(l, j + 1));
      lis := lis + li;
      j := j + 1;
    }
    r := Ok(lis);
    assert lis + "" == lis;
  }

  /** Values without lists render without raising. */
  predicate ListFree(v: Value)
    decreases v, 1
  {
    match v
    case List(_) => false
    case Dict(_) => EntriesListFree(v, 0)
    case _ => true
  }

  predicate EntriesListFree(d: Value, i: nat)
    requires d.Dict? && i <= |d.entries|
    decreases d, 0, |d.entries| - i
  {
    i == |d.entries| || (ListFree(d.entries[i].1) && EntriesListFree(d, i + 1))
  }

  lemma {:induction false} ListFreeRenders(v: Value, indent: int)
    requires ListFree(v)
    ensures NestedHtml(v, indent).Ok?
    decreases v, 1
  {
    if v.Dict? {
      ListFreeEntriesRender(v, indent, false, 0);
    }
  }

  lemma {:induction false} ListFreeEntriesRender(d: Value, indent: int, skip: bool, i: nat)
    requires d.Dict? && i <= |d.entries| && EntriesListFree(d, i)
    ensures EntriesHtml(d, indent, skip, i).Ok?
    decreases d, 0, |d.entries| - i
  {
    if i < |d.entries| {
      if d.entries[i].1.Dict? {
        ListFreeRenders(d.entries[i].1, indent + 1);
      }
      assert ValueHtml(d, indent, i).Ok?;
      assert EntryHtml(d, indent, i).Ok?;
      ListFreeEntriesRender(d, indent, skip, i + 1);
    }
  }

  /** The rendering of entries depends only on the entries from i on. */
  lemma {:induction false} EntriesHtmlSuffix(d: Value, e: Value, indent: int, i: nat, j: nat)
    requires d.Dict? && e.Dict? && i <= |d.entries| && j <= |e.entries|
    requires d.entries[i..] == e.entries[j..]
    ensures EntriesHtml(d, indent, false, i) == EntriesHtml(e, indent, false, j)
    decreases |d.entries| - i
  {
    if i < |d.entries| {
      assert d.entries[i] == d.entries[i..][0] == e.entries[j..][0] == e.entries[j];
      assert d.entries[i + 1..] == d.entries[i..][1..];
      assert e.entries[j + 1..] == e.entries[j..][1..];
      EntriesHtmlSuffix(d, e, indent, i + 1, j + 1);
      EntryHtmlSame(d, e, indent, i, j);
    }
  }

  lemma EntryHtmlSame(d: Value, e: Value, indent: int, i: nat, j: nat)
    requires d.Dict? && e.Dict? && i < |d.entries| && j < |e.entries|
    requires d.entries[i] == e.entries[j]
    ensures EntryHtml(d, indent, i) == EntryHtml(e, indent, j)
  {
  }

  /** Joining two renderings: the first error, or the two texts one after the other. */
  function Join(a: Result<string>, b: Result<string>): Result<string> {
    match a
    case Err(e) => Err(e)
    case Ok(x) => Prepend(x, b)
  }

  lemma JoinPrepend(x: string, a: Result<string>, b: Result<string>)
    ensures Join(Prepend(x, a), b) == Prepend(x, Join(a, b))
  {
    if a.Ok? {
      PrependPrepend(x, a.value, b);
    }
  }

  /** One div per key, in order: the rendering of a dict is the renderings of its two
      halves, one after the other. */
  lemma {:induction false} NestedHtmlSplits(a: seq<(Value, Value)>, b: seq<(Value, Value)>, indent: int)
    ensures NestedHtml(Dict(a + b), indent) == Join(NestedHtml(Dict(a), indent), NestedHtml(Dict(b), indent))
  {
    SplitFrom(a, b, indent, 0);
  }

  lemma {:induction false} SplitFrom(a: seq<(Value, Value)>, b: seq<(Value, Value)>, indent: int, i: nat)
    requires i <= |a|
    ensures EntriesHtml(Dict(a + b), indent, false, i) ==
            Join(EntriesHtml(Dict(a), indent, false, i), EntriesHtml(Dict(b), indent, false, 0))
    decreases |a| - i
  {
    var ab := Dict(a + b);
    if i == |a| {
      assert ab.entries[i..] == b[0..];
      EntriesHtmlSuffix(ab, Dict(b), indent, i, 0);
      PrependNothing(EntriesHtml(Dict(b), indent, false, 0));
    } else {
      SplitFrom(a, b, indent, i + 1);
      EntryHtmlSame(ab, Dict(a), indent, i, i);
      match EntryHtml(ab, indent, i)
      case Err(e) =>
      case Ok(x) =>
        JoinPrepend(x, EntriesHtml(Dict(a), indent, false, i + 1), EntriesHtml(Dict(b), indent, false, 0));
    }
  }

  /** A single key: its div, holding a nested dict one level deeper after a line
      break, or the value as `str` when it is neither a dict nor a list. */
  lemma OneKey(key: Value, value: Value, indent: int)
    requires !value.List?
    ensures value.Dict? ==> NestedHtml(Dict([(key, value)]), indent).Ok? == NestedHtml(value, indent + 1).Ok?
    ensures value.Dict? && NestedHtml(value, indent + 1).Ok? ==>
              NestedHtml(Dict([(key, value)]), indent) == Ok(Div(indent, key, "<br>" + NestedHtml(value, indent + 1).value))
    ensures !value.Dict? ==> NestedHtml(Dict([(key, value)]), indent) == Ok(Div(indent, key, PyStr(value)))
  {
    var d := Dict([(key, value)]);
    assert NestedHtml(d, indent) == EntriesHtml(d, indent, false, 0);
    assert EntriesHtml(d, indent, false, 1) == Ok("");
    if value.Dict? {
      assert ValueHtml(d, indent, 0) == Prepend("<br>", NestedHtml(value, indent + 1));
    } else {
      assert ValueHtml(d, indent, 0) == Ok(PyStr(value));
    }
    match EntryHtml(d, indent, 0)
    case Err(e) =>
    case Ok(x) => assert x + "" == x;
  }

  // ---------------------------------------------------------------------------
  // Renderers
  // ---------------------------------------------------------------------------

  datatype Kind = StringKind | JsonKind | StatusKind | ImageKind

  /** The names the renderer classes register under when the module is loaded. */
  function KindOf(name: Value): Option<Kind> {
    if name == Str("string") then Some(StringKind)
    else if name == Str("json") then Some(JsonKind)
    else if name == Str("status") then Some(StatusKind)
    else if name == Str("image") then Some(ImageKind)
    else None
  }

  /** A constructed renderer: the fields `RendererBase.__init__` sets. */
  datatype Renderer = Renderer(kind: Kind, folding: Value, streaming: bool)

  /** The JSON and image renderers fold unless told otherwise; the others do not. */
  function DefaultFolding(kind: Kind): Value {
    Bool(kind == JsonKind || kind == ImageKind)
  }

  /** The default of make_renderer's `streaming` argument. */
  const DefaultStreaming := false

  /** Lines 129-134 on the settings after "streaming" was written: the class
      registered under "type", or "No renderer registered". */
  function RendererFor(settings: Settings): (r: Result<Renderer>)
    ensures "type" !in settings ==> r == Err(KeyError(Str("type")))
    ensures "type" in settings && !Hashable(settings["type"]) ==> r.Err? && r.error.TypeError?
    ensures "type" in settings && Hashable(settings["type"]) && KindOf(settings["type"]).None? ==>
              r == Err(NoRendererRegistered(settings["type"]))
    ensures r.Ok? ==> "type" in settings && KindOf(settings["type"]) == Some(r.value.kind)
    ensures r.Ok? ==> r.value.streaming
    ensures r.Ok? ==> r.value.folding == if "folding" in settings then settings["folding"] else DefaultFolding(r.value.kind)
  {
    if "type" !in settings then Err(KeyError(Str("type")))
    else
      var t := settings["type"];
      if !Hashable(t) then Err(TypeError("unhashable type"))
      else match KindOf(t)
        case None => Err(NoRendererRegistered(t))
        case Some(kind) =>
          var folding := if "folding" in settings then settings["folding"] else DefaultFolding(kind);
          Ok(Renderer(kind, folding, true))
  }

  /** The "streaming" flag make_renderer writes has no effect on the renderer built. */
  lemma StreamingFlagIgnored(settings: Settings, a: bool, b: bool)
    requires "streaming" != "type" && "streaming" != "folding"
    ensures RendererFor(settings["streaming" := Bool(a)]) == RendererFor(settings["streaming" := Bool(b)])
  {
  }

  /** `make_renderer(settings, streaming)`: a bare name stands for `{"type": name}`;
      `settings["streaming"]` is written in the caller's dict first. */
  method MakeRenderer(arg: SettingsArg, streaming: bool) returns (r: Result<Renderer>)
    modifies Footprint(arg)
    ensures r == RendererFor(old(Given(arg))["streaming" := Bool(streaming)])
    ensures arg.Mapping? ==> arg.dict.items == old(arg.dict.items)["streaming" := Bool(streaming)]
  {
    var d: SettingsDict;
    if arg.TypeName? {
      d := new SettingsDict(map["type" := Str(arg.name)]);
    } else {
      d := arg.dict;
    }
    d.items := d.items["streaming" := Bool(streaming)];
    r := RendererFor(d.items);
  }

  /** `render_streaming(path, id)`: the script that feeds the output element. */
  function StreamingScript(path: string, id: string): string {
    "<script>" + (StreamingHandler(path, id) + "</script>")
  }

  function StreamingHandler(path: string, id: string): string {
    " (new EventSource(\"" + path + "/streaming\")).onmessage = function(event) { "
    + "document.getElementById(\"output-" + id + "\").innerHTML = event.data; }; "
  }

  /** The container of a folding value; after the opening `<div` come its attributes
      and contents. */
  function FoldingBody(name: string, path: string, id: string): string {
    "<div" + FoldingContainer(name, path, id)
  }

  function FoldingContainer(name: string, path: string, id: string): string {
    " class=\"endpoint-container\" id=\"container-" + id + "\" data-path=\"" + path + "\"> "
    + "<div class=\"header\" onclick=\"toggleSection('" + path + "', 'container-" + id + "')\"> "
    + "<span class=\"toggle-icon\">▶</span> <h3>" + name + "</h3> "
    + "<span id=\"refresh-" + id + "\" class=\"refresh-icon\" hx-get=\"" + path + "\" "
    + "hx-target=\"#output-" + id + "\" onclick=\"refreshData(event, 'container-" + id + "', 'refresh-" + id
    + "', '" + path + "')\"> ↻ </span> </div> "
    + "<div id=\"output-" + id + "\" class=\"output-container\"></div> </div>"
  }

  /** The container of a simple value, likewise. */
  function SimpleBody(name: string, path: string, id: string): string {
    "<div" + SimpleContainer(name, path, id)
  }

  function SimpleContainer(name: string, path: string, id: string): string {
    " class=\"endpoint-container\" id=\"container-" + id + "\" data-path=\"" + path + "\"> "
    + "<div class=\"header\" style=\"align-items: center;\"> "
    + "<h3 style=\"margin-right: 10px;\">" + name + ":</h3> "
    + "<div id=\"output-" + id + "\" class=\"output-container\" style=\"display: flex; display: inline-block; "
    + "margin-left: 15px; border-top: none; padding: 0;\"></div> "
    + "<span id=\"refresh-" + id + "\" class=\"refresh-icon\" hx-get=\"" + path + "\" "
    + "hx-target=\"#output-" + id + "\" onclick=\"refreshData(event, 'container-" + id + "', 'refresh-" + id
    + "', '" + path + "')\"> ↻ </span> </div> </div>"
  }

  /** `render_folding_value`: the streaming script always comes first, whatever
      `streaming` says. */
  function FoldingValue(name: string, path: string, streaming: bool, id: string): string {
    StreamingScript(path, id) + FoldingBody(name, path, id)
  }

  /** `render_simple_value`: the streaming script comes first when `streaming`. */
  function SimpleValue(name: string, path: string, streaming: bool, id: string): string {
    if streaming then StreamingScript(path, id) + SimpleBody(name, path, id) else SimpleBody(name, path, id)
  }

  /** A simple value starts with the streaming script exactly when it streams. */
  lemma SimpleStreamsIff(name: string, path: string, streaming: bool, id: string)
    ensures StreamingScript(path, id) <= SimpleValue(name, path, streaming, id) <==> streaming
  {
    var s := StreamingHandler(path, id) + "</script>";
    var b := SimpleContainer(name, path, id);
    if streaming {
      PrefixOfAppend("<script>" + s, "<div" + b);
    } else {
      ScriptIsNotDiv(s, b);
    }
  }

  lemma PrefixOfAppend(a: string, b: string)
    ensures a <= a + b
  {
    assert (a + b)[..|a|] == a;
  }

  /** A script element does not start a div. */
  lemma ScriptIsNotDiv(x: string, y: string)
    ensures !("<script>" + x <= "<div" + y)
  {
    assert ("<script>" + x)[1] == 's';
    assert ("<div" + y)[1] == 'd';
  }

  /** `render_list_item`: the template is chosen by the truthiness of `folding`. */
  function RenderListItem(r: Renderer, name: string, path: string, id: string): (html: string)
    ensures Truthy(r.folding) ==> html == FoldingValue(name, path, r.streaming, id)
    ensures !Truthy(r.folding) ==> html == SimpleValue(name, path, r.streaming, id)
  {
    if Truthy(r.folding) then FoldingValue(name, path, r.streaming, id)
    else SimpleValue(name, path, r.streaming, id)
  }

  /** Every list item of a renderer make_renderer builds carries the streaming
      script, since `streaming` is always set. */
  lemma ListItemsStream(settings: Settings, name: string, path: string, id: string)
    requires RendererFor(settings).Ok?
    ensures StreamingScript(path, id) <= RenderListItem(RendererFor(settings).value, name, path, id)
  {
    var r := RendererFor(settings).value;
    StreamingListItem(r, name, path, id);
    PrefixOfAppend(StreamingScript(path, id),
                   if Truthy(r.folding) then FoldingBody(name, path, id) else SimpleBody(name, path, id));
  }

  /** A streaming renderer's list item is the streaming script followed by the
      container its folding selects. */
  lemma StreamingListItem(r: Renderer, name: string, path: string, id: string)
    requires r.streaming
    ensures RenderListItem(r, name, path, id) ==
            StreamingScript(path, id) + (if Truthy(r.folding) then FoldingBody(name, path, id) else SimpleBody(name, path, id))
  {
  }

  /** What a value getter hands a renderer: a plain value, or an image reference. */
  datatype Data = Plain(value: Value) | Image(ref: ImageRef)

  /** `str()` of an object without its own `__str__`; the address is not modelled. */
  const ObjectStr := "<frame.images.ImageRef object>"

  function DataStr(data: Data): string {
    match data
    case Plain(v) => PyStr(v)
    case Image(_) => ObjectStr
  }

  /** Python truthiness of the data; an object is truthy. */
  predicate DataTruthy(data: Data) {
    match data
    case Plain(v) => Truthy(v)
    case Image(_) => true
  }

  const StatusGood := "<div class='value success'>Good</div>"
  const StatusError := "<div class='value failure'>Error</div>"

  /** `ImageRenderer.render_data`: the image tag, with a fresh query string against
      caching. */
  function ImageHtml(url: string, nonce: string): string {
    "<img src='/" + url + "?" + nonce + "' class='screenshot-img' "
    + "onclick=\"this.classList.toggle('fullsize'); "
    + "document.getElementById('lightbox-overlay').classList.toggle('active');\" alt=\"Screenshot\" />"
  }

  /** `render_data` of each renderer; `nonce` stands for the uuid of the image tag. */
  function RenderData(r: Renderer, data: Data, nonce: string): (res: Result<string>)
    ensures res.Err? <==> || (r.kind == ImageKind && !data.Image?)
                          || (r.kind == JsonKind && data.Plain? && NestedHtml(data.value, 0).Err?)
    ensures r.kind == ImageKind && !data.Image? ==> res == Err(AttributeError("url"))
  {
    match r.kind
    case StringKind => Ok("<div class='value'>" + DataStr(data) + "</div>")
    case JsonKind => if data.Plain? then NestedHtml(data.value, 0) else Ok(ObjectStr)
    case StatusKind => if DataTruthy(data) then Ok(StatusGood) else Ok(StatusError)
    case ImageKind => if data.Image? then Ok(ImageHtml(data.ref.url, nonce)) else Err(AttributeError("url"))
  }

  /** The status renderer says Good for truthy data and Error otherwise, and nothing
      else. */
  lemma StatusIsTwoValued(r: Renderer, data: Data, nonce: string)
    requires r.kind == StatusKind
    ensures RenderData(r, data, nonce) == Ok(StatusGood) <==> DataTruthy(data)
    ensures RenderData(r, data, nonce) == Ok(StatusError) <==> !DataTruthy(data)
  {
    assert StatusGood != StatusError by {
      assert StatusGood[18] != StatusError[18];
    }
  }

  /** The string and status renderers never raise; the JSON renderer never raises on
      list-free data. */
  lemma RenderDataTotal(r: Renderer, data: Data, nonce: string)
    requires r.kind != ImageKind
    requires r.kind == JsonKind && data.Plain? ==> ListFree(data.value)
    ensures RenderData(r, data, nonce).Ok?
  {
    if r.kind == JsonKind && data.Plain? {
      ListFreeRenders(data.value, 0);
    }
  }
}
