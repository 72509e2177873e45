/** The dashboard configuration of model.py: the loaded config's ordered table of
    properties and its table of actions, and the lookups the web layer makes in them.

    Each property is built by `make_value(name, desc)` and each action by
    `make_action(name, desc)` as those functions are defined (the calls at
    model.py:27-32 and 42 pass arguments those definitions do not take). */
module Model {
  import opened Base
  import Registry
  import Actions
  import Values
  import Renderers
  import Images
  import Parsers

  /** A configured action: what the action registry constructed, and the fields
      `ActionBase.__init__` gives every action. */
  datatype Action = Action(instance: Registry.Instance, header: Actions.Header)

  /** The keys of a dict, in its order. */
  function Keys(entries: seq<(Value, Value)>): (r: seq<Value>)
    ensures |r| == |entries|
    ensures forall i :: 0 <= i < |r| ==> r[i] == entries[i].0
  {
    if |entries| == 0 then [] else [entries[0].0] + Keys(entries[1..])
  }

  /** `config.get(key)`: None when absent; only a dict has `get`. */
  function Lookup(config: Value, key: string): Value
    requires config.Dict?
  {
    DictGet(config.entries, Str(key)).GetOr(Null)
  }

  /** Property k of the table was built from its description in the model config:
      its display name, polling period and renderer are the ones that description
      gives. */
  predicate Built(entries: seq<(Value, Value)>, k: Value, v: Values.Delegate, parseFloat: string -> Option<int>) {
    && DictGet(entries, k).Some?
    && var desc := DictGet(entries, k).value;
    && desc.Dict?
    && v.displayName == Values.DisplayName(k, desc.entries)
    && Ok(v.updateTime) == Values.UpdateTime(desc.entries, parseFloat)
    && Ok(v.renderer) == Values.RendererOf(desc.entries)
    && v.getter.Some?
  }

  /** The property table with each getter replaced by its plan. */
  function PlanMap(model: map<Value, Values.Delegate>): map<Value, Values.Property<Values.GetterPlan>> {
    map k | k in model :: Values.PropertyPlan(model[k])
  }

  /** `make_value` with the getter registry's tables fixed, on plans. */
  function ValueMakerOf(types: map<string, Registry.ClassName>, refs: map<string, Settings>,
                        table: Registry.DefaultsMap, registry: string, parseFloat: string -> Option<int>)
    : (Value, Value) -> Result<Values.Property<Values.GetterPlan>>
    requires forall t :: t in types ==> types[t] in Values.GetterClasses
  {
    (name: Value, desc: Value) => Values.ValuePlan(name, desc, types, refs, table, registry, parseFloat)
  }

  /** `parse_model`: one property per entry of the model config, in order; the first
      entry that fails ends it with its exception. */
  method ParseModel(modelConfig: Value, reg: Registry.TypeRegistry, parseFloat: string -> Option<int>)
    returns (r: Result<(map<Value, Values.Delegate>, seq<Value>)>)
    requires forall t :: t in reg.types ==> reg.types[t] in Values.GetterClasses
    requires modelConfig.Dict? ==> DistinctKeys(modelConfig.entries)
    ensures !modelConfig.Dict? ==> r == Err(AttributeError("items"))
    ensures modelConfig.Dict? ==>
              match Table(modelConfig.entries, |modelConfig.entries|,
                          ValueMakerOf(reg.types, reg.refs, reg.defaults.table, reg.name, parseFloat))
              case Err(x) => r == Err(x)
              case Ok(t) => r.Ok? && t == PlanMap(r.value.0)
    ensures r.Ok? ==> modelConfig.Dict? && r.value.1 == Keys(modelConfig.entries)
    ensures r.Ok? ==> forall k :: k in r.value.0 <==> k in r.value.1
    ensures r.Ok? ==> forall k :: k in r.value.0 ==> Built(modelConfig.entries, k, r.value.0[k], parseFloat)
  {
    if !modelConfig.Dict? {
      return Err(AttributeError("items"));
    }
    var entries := modelConfig.entries;
    ghost var maker := ValueMakerOf(reg.types, reg.refs, reg.defaults.table, reg.name, parseFloat);
    var model: map<Value, Values.Delegate> := map[];
    var order: seq<Value> := [];
    for i := 0 to |entries|
      invariant |order| == i && forall j :: 0 <= j < i ==> order[j] == entries[j].0
      invariant forall k :: k in model <==> k in order
      invariant forall k :: k in model ==> Built(entries, k, model[k], parseFloat)
      invariant Table(entries, i, maker) == Ok(PlanMap(model))
    {
      var (name, desc) := entries[i];
      var value := Values.MakeValue(name, desc, reg, parseFloat);
      TableNext(entries, i, maker);
      if value.Err? {
        TableErrorPersists(entries, i + 1, |entries|, maker);
        return Err(value.error);
      }
      PlanMapStep(model, name, value.value);
      DictGetDistinct(entries, i);
      assert Built(entries, name, value.value, parseFloat);
      ModelStep(entries, i, model, order, value.value, parseFloat);
      order := order + [name];
      model := model[name := value.value];
    }
    r := Ok((model, order));
  }

  /** Adding a property adds its plan. */
  lemma PlanMapStep(model: map<Value, Values.Delegate>, k: Value, v: Values.Delegate)
    ensures PlanMap(model[k := v]) == PlanMap(model)[k := Values.PropertyPlan(v)]
  {
  }

  /** What `make_action(name, desc)` gives: the name is written into the settings and
      the action registry constructs the class from them. */
  function ActionOf(name: Value, desc: Value, types: map<string, Registry.ClassName>, refs: map<string, Settings>,
                    table: Registry.DefaultsMap, registry: string): (r: Result<Action>)
    ensures !desc.Dict? ==> r == Err(TypeError("object does not support item assignment"))
  {
    if !desc.Dict? then Err(TypeError("object does not support item assignment"))
    else
      var m := Registry.Resolve(types, refs, table, registry,
                                ToSettings(desc.entries)["name" := name]).result;
      if m.Err? then Err(m.error)
      else Ok(Action(m.value.0, Actions.Header(name, "/action/" + PyStr(name), name)))
  }

  /** A dict without "type" raises KeyError; a made action has the name it was made
      for, as its name, display name and url, and in its settings, and its class is the
      one registered for its final "type". */
  lemma ActionOfFacts(name: Value, desc: Value, types: map<string, Registry.ClassName>, refs: map<string, Settings>,
                      table: Registry.DefaultsMap, registry: string)
    ensures var r := ActionOf(name, desc, types, refs, table, registry);
            && (desc.Dict? && DictGet(desc.entries, Str("type")).None? ==> r == Err(KeyError(Str("type"))))
            && (r.Ok? ==> Named(name, r.value))
            && (r.Ok? ==> "name" in r.value.instance.settings && r.value.instance.settings["name"] == name)
            && (r.Ok? ==> "type" in r.value.instance.settings &&
                          Registry.ClassOf(types, r.value.instance.settings["type"]) == Some(r.value.instance.cls))
  {
    if desc.Dict? {
      ToSettingsGet(desc.entries);
      var settings := ToSettings(desc.entries)["name" := name];
      assert "type" in settings <==> DictGet(desc.entries, Str("type")).Some?;
      var m := Registry.Resolve(types, refs, table, registry, settings).result;
      if m.Ok? {
        assert "name" in settings && "name" != "type" && settings["name"] == name;
        assert m.value.1["name"] == name;
      }
    }
  }

  /** The loop of `parse_model` keeps its table and order in step with the entries. */
  lemma ModelStep(entries: seq<(Value, Value)>, i: nat, model: map<Value, Values.Delegate>, order: seq<Value>,
                  v: Values.Delegate, parseFloat: string -> Option<int>)
    requires i < |entries|
    requires |order| == i && forall j :: 0 <= j < i ==> order[j] == entries[j].0
    requires forall k :: k in model <==> k in order
    requires forall k :: k in model ==> Built(entries, k, model[k], parseFloat)
    requires Built(entries, entries[i].0, v, parseFloat)
    ensures var order', model' := order + [entries[i].0], model[entries[i].0 := v];
            && |order'| == i + 1 && (forall j :: 0 <= j < i + 1 ==> order'[j] == entries[j].0)
            && (forall k :: k in model' <==> k in order')
            && (forall k :: k in model' ==> Built(entries, k, model'[k], parseFloat))
  {
  }

  /** `make_action(name, desc)`: the name is written into the settings, the action
      registry constructs the class, and `ActionBase.__init__` reads the name back. */
  method MakeAction(name: Value, desc: Value, reg: Registry.TypeRegistry) returns (r: Result<Action>)
    ensures r == ActionOf(name, desc, reg.types, reg.refs, reg.defaults.table, reg.name)
  {
    if !desc.Dict? {
      return Err(TypeError("object does not support item assignment"));
    }
    var d := new SettingsDict(ToSettings(desc.entries)["name" := name]);
    var made := reg.Make(Mapping(d));
    if made.Err? {
      return Err(made.error);
    }
    var (instance, settings) := made.value;
    var header := Actions.MakeHeader(settings);
    r := Ok(Action(instance, header.value));
  }

  /** An action filed under name k has k as its name, its display name and its url's
      last segment. */
  predicate Named(k: Value, a: Action) {
    a.header == Actions.Header(k, "/action/" + PyStr(k), k)
  }

  /** `make_action` with the action registry's tables fixed. */
  function MakerOf(types: map<string, Registry.ClassName>, refs: map<string, Settings>,
                   table: Registry.DefaultsMap, registry: string): (Value, Value) -> Result<Action>
  {
    (name: Value, desc: Value) => ActionOf(name, desc, types, refs, table, registry)
  }

  lemma MakerNames(types: map<string, Registry.ClassName>, refs: map<string, Settings>,
                   table: Registry.DefaultsMap, registry: string)
    ensures NamesActions(MakerOf(types, refs, table, registry))
  {
    forall name, desc {
      ActionOfFacts(name, desc, types, refs, table, registry);
    }
  }

  /** Every action made for a name is named by it. */
  ghost predicate NamesActions(make: (Value, Value) -> Result<Action>) {
    forall name, desc :: make(name, desc).Ok? ==> Named(name, make(name, desc).value)
  }

  /** The table `parse_model` or `parse_actions` builds from the first n entries,
      each entry's value made by `make` and filed under its key, or the exception of
      the first entry that fails. */
  function Table<T>(entries: seq<(Value, Value)>, n: nat, make: (Value, Value) -> Result<T>)
    : (r: Result<map<Value, T>>)
    requires n <= |entries|
  {
    if n == 0 then Ok(map[])
    else
      var prev := Table(entries, n - 1, make);
      if prev.Err? then prev
      else
        var a := make(entries[n - 1].0, entries[n - 1].1);
        if a.Err? then Err(a.error) else Ok(prev.value[entries[n - 1].0 := a.value])
  }

  /** Once an entry has failed, later entries are not looked at. */
  lemma {:induction false} TableErrorPersists<T>(entries: seq<(Value, Value)>, n: nat, m: nat,
                                                 make: (Value, Value) -> Result<T>)
    requires n <= m <= |entries|
    requires Table(entries, n, make).Err?
    ensures Table(entries, m, make) == Table(entries, n, make)
    decreases m - n
  {
    if n < m {
      TableErrorPersists(entries, n, m - 1, make);
    }
  }

  /** The table is built exactly when every entry makes a value. */
  lemma {:induction false} TableOk<T>(entries: seq<(Value, Value)>, n: nat, make: (Value, Value) -> Result<T>)
    requires n <= |entries|
    ensures Table(entries, n, make).Ok? <==> forall j :: 0 <= j < n ==> make(entries[j].0, entries[j].1).Ok?
  {
    if n > 0 {
      TableOk(entries, n - 1, make);
    }
  }

  /** A failed table fails with the exception of its first failing entry. */
  lemma {:induction false} TableFirstError<T>(entries: seq<(Value, Value)>, n: nat, make: (Value, Value) -> Result<T>)
    requires n <= |entries| && Table(entries, n, make).Err?
    ensures exists j :: 0 <= j < n && make(entries[j].0, entries[j].1) == Err(Table(entries, n, make).error) &&
                        forall i :: 0 <= i < j ==> make(entries[i].0, entries[i].1).Ok?
  {
    if Table(entries, n - 1, make).Err? {
      TableFirstError(entries, n - 1, make);
    } else {
      TableOk(entries, n - 1, make);
      var j := n - 1;
      assert make(entries[j].0, entries[j].1) == Err(Table(entries, n, make).error);
    }
  }

  /** A built table holds exactly the keys of the first n entries, each with the value
      made from the last entry of that key. */
  lemma {:induction false} TableKeys<T>(entries: seq<(Value, Value)>, n: nat, make: (Value, Value) -> Result<T>)
    requires n <= |entries| && Table(entries, n, make).Ok?
    ensures var t := Table(entries, n, make).value;
            && (forall k :: k in t <==> k in Keys(entries[..n]))
            && (forall k :: k in t ==> exists j :: 0 <= j < n && entries[j].0 == k && make(k, entries[j].1) == Ok(t[k]))
  {
    if n > 0 {
      TableKeys(entries, n - 1, make);
      KeysSnoc(entries, n);
      var t := Table(entries, n, make).value;
      var prev := Table(entries, n - 1, make).value;
      forall k | k in t
        ensures exists j :: 0 <= j < n && entries[j].0 == k && make(k, entries[j].1) == Ok(t[k])
      {
        if k == entries[n - 1].0 {
          assert make(k, entries[n - 1].1) == Ok(t[k]);
        } else {
          var j :| 0 <= j < n - 1 && entries[j].0 == k && make(k, entries[j].1) == Ok(prev[k]);
          assert make(k, entries[j].1) == Ok(t[k]);
        }
      }
    }
  }

  /** Every action of a built action table is filed under its own name. */
  lemma {:induction false} ActionsNamed(entries: seq<(Value, Value)>, n: nat, make: (Value, Value) -> Result<Action>)
    requires n <= |entries| && NamesActions(make)
    requires Table(entries, n, make).Ok?
    ensures var t := Table(entries, n, make).value;
            && (forall k :: k in t <==> k in Keys(entries[..n]))
            && (forall k :: k in t ==> Named(k, t[k]))
  {
    TableKeys(entries, n, make);
    var t := Table(entries, n, make).value;
    forall k | k in t
      ensures Named(k, t[k])
    {
      var j :| 0 <= j < n && entries[j].0 == k && make(k, entries[j].1) == Ok(t[k]);
    }
  }

  /** One more entry: its value is added under its key, or its exception ends the
      table. */
  lemma TableNext<T>(entries: seq<(Value, Value)>, n: nat, make: (Value, Value) -> Result<T>)
    requires n < |entries|
    ensures var prev := Table(entries, n, make);
            var a := make(entries[n].0, entries[n].1);
            Table(entries, n + 1, make) ==
              if prev.Err? then prev else if a.Err? then Err(a.error) else Ok(prev.value[entries[n].0 := a.value])
  {
  }

  /** The keys of one more entry are the keys before it and its own key. */
  lemma KeysSnoc(entries: seq<(Value, Value)>, n: nat)
    requires 0 < n <= |entries|
    ensures forall k :: k in Keys(entries[..n]) <==> k in Keys(entries[..n - 1]) || k == entries[n - 1].0
  {
    assert Keys(entries[..n]) == Keys(entries[..n - 1]) + [entries[n - 1].0];
  }

  /** `parse_actions`: one action per entry of the actions config, keyed by name. */
  method ParseActions(actionConfig: Value, reg: Registry.TypeRegistry) returns (r: Result<map<Value, Action>>)
    ensures !actionConfig.Dict? ==> r == Err(AttributeError("items"))
    ensures actionConfig.Dict? ==>
              r == Table(actionConfig.entries, |actionConfig.entries|,
                               MakerOf(reg.types, reg.refs, reg.defaults.table, reg.name))
  {
    if !actionConfig.Dict? {
      return Err(AttributeError("items"));
    }
    var entries := actionConfig.entries;
    var actions: map<Value, Action> := map[];
    for i := 0 to |entries|
      invariant Table(entries, i, MakerOf(reg.types, reg.refs, reg.defaults.table, reg.name)) == Ok(actions)
    {
      var action := MakeAction(entries[i].0, entries[i].1, reg);
      TableNext(entries, i, MakerOf(reg.types, reg.refs, reg.defaults.table, reg.name));
      if action.Err? {
        TableErrorPersists(entries, i + 1, |entries|, MakerOf(reg.types, reg.refs, reg.defaults.table, reg.name));
        return Err(action.error);
      }
      actions := actions[entries[i].0 := action.value];
    }
    r := Ok(actions);
  }

  /** `parse_settings`: the settings are kept as given. */
  function ParseSettings(settings: Value): (r: Value)
    ensures r == settings
  {
    settings
  }

  /** A loaded configuration. Its fields are set once, by `__init__`. */
  class Config {
    const path: Value
    const settings: Value
    const model: map<Value, Values.Delegate>
    const modelOrder: seq<Value>
    const actions: map<Value, Action>
    const projectName: Value

    /** The property table and its order agree, the order names each property once,
        and every action is filed under its own name. */
    ghost predicate Valid() {
      && (forall k :: k in model <==> k in modelOrder)
      && (forall i, j :: 0 <= i < j < |modelOrder| ==> modelOrder[i] != modelOrder[j])
      && (forall k :: k in actions ==> actions[k].header.name == k)
    }

    /** The field assignments of `__init__`, from tables already parsed; `Load` is
        `__init__` as a whole, parsing the tables that meet these requirements. */
    constructor (path: Value, settings: Value, model: map<Value, Values.Delegate>, modelOrder: seq<Value>,
                 actions: map<Value, Action>, projectName: Value)
      requires forall k :: k in model <==> k in modelOrder
      requires forall i, j :: 0 <= i < j < |modelOrder| ==> modelOrder[i] != modelOrder[j]
      requires forall k :: k in actions ==> actions[k].header.name == k
      ensures Valid()
      ensures this.path == path && this.settings == settings && this.model == model
      ensures this.modelOrder == modelOrder && this.actions == actions && this.projectName == projectName
    {
      this.path := path;
      this.settings := settings;
      this.model := model;
      this.modelOrder := modelOrder;
      this.actions := actions;
      this.projectName := projectName;
    }

    /** `get_properties`. */
    function GetProperties(): (r: seq<Value>)
      requires Valid()
      ensures forall k :: k in r <==> k in model
      ensures forall i, j :: 0 <= i < j < |r| ==> r[i] != r[j]
    {
      modelOrder
    }

    /** `get_property`: the property, or KeyError. */
    function GetProperty(name: Value): (r: Result<Values.Delegate>)
      ensures name in model ==> r == Ok(model[name])
      ensures name !in model ==> r == Err(KeyError(name))
    {
      if name in model then Ok(model[name]) else Err(KeyError(name))
    }

    /** `do`: the named action's `call`, or KeyError. `call(action, params)` stands
        for `action.call(params, get_action)`, the two-argument `call` every action
        class defines; the call model.py makes passes `params` alone. */
    function Do(name: Value, params: Value, call: (Action, Value) -> Result<Value>): (r: Result<Value>)
      ensures name !in actions ==> r == Err(KeyError(name))
      ensures name in actions ==> r == call(actions[name], params)
    {
      if name in actions then call(actions[name], params) else Err(KeyError(name))
    }

    /** `get_rendered`: the property's value, fetched by its own getter and rendered by
        its own renderer. */
    method GetRendered(name: Value, repo: Images.ImageRepo, w: Values.World, e: Parsers.Engine, nonce: string)
      returns (data: Result<Renderers.Data>, r: Result<string>)
      modifies if name in model && model[name].getter.Some? then Values.GetterFootprint(model[name].getter.value, repo) else {}
      ensures name !in model ==> r == Err(KeyError(name)) && data == Err(KeyError(name))
      ensures name in model && data.Err? ==> r == Err(data.error)
      ensures name in model && data.Ok? ==> r == Renderers.RenderData(model[name].renderer, data.value, nonce)
      ensures name in model && model[name].getter.None? ==> data == Err(NotImplementedError("Getter not implemented"))
      ensures name in model && model[name].getter == Some(Values.BaseGetter) ==>
                data == Err(TypeError(Values.NotAwaitable)) && r == Err(TypeError(Values.NotAwaitable))
      ensures name in model && model[name].getter.Some? && !model[name].getter.value.BaseGetter? ==>
                Values.Fetched(model[name].getter.value, old(repo.images), repo.images, repo.dir, repo.join,
                               old(Values.TailState(model[name].getter.value)), Values.TailState(model[name].getter.value),
                               w, e, data)
      ensures name in model && model[name].getter == Some(Values.ScreenshotGetter("screenshot")) ==>
                data == Ok(Renderers.Image(Images.RefFor(repo.dir, repo.join, "screenshot.png")))
    {
      if name !in model {
        return Err(KeyError(name)), Err(KeyError(name));
      }
      var property := model[name];
      assert "screenshot" + ".png" == "screenshot.png";
      data := Values.DelegateGet(property, repo, w, e);
      if data.Err? {
        return data, Err(data.error);
      }
      r := Renderers.RenderData(property.renderer, data.value, nonce);
    }

    /** `render_output`: the property's list item, with the property's name standing
        for both the name and the path; the `path` argument is not used. `id` is the
        uuid of the item. */
    function RenderOutput(name: string, path: string, id: string): (r: Result<string>)
      ensures Str(name) !in model ==> r == Err(KeyError(Str(name)))
      ensures Str(name) in model && Truthy(model[Str(name)].renderer.folding) ==>
                r == Ok(Renderers.FoldingValue(name, name, model[Str(name)].renderer.streaming, id))
      ensures Str(name) in model && !Truthy(model[Str(name)].renderer.folding) ==>
                r == Ok(Renderers.SimpleValue(name, name, model[Str(name)].renderer.streaming, id))
    {
      if Str(name) in model then Ok(Renderers.RenderListItem(model[Str(name)].renderer, name, name, id))
      else Err(KeyError(Str(name)))
    }
  }

  /** The path given to `render_output` never changes its outcome. */
  lemma RenderOutputIgnoresPath(c: Config, name: string, path1: string, path2: string, id: string)
    ensures c.RenderOutput(name, path1, id) == c.RenderOutput(name, path2, id)
  {
  }

  /** Every listed property can be looked up. */
  lemma ListedPropertiesResolve(c: Config, k: Value)
    requires c.Valid() && k in c.GetProperties()
    ensures c.GetProperty(k).Ok?
  {
  }

  /** The configuration dicts `Config(config)` reads are Python dicts. */
  predicate WellFormed(config: Value) {
    config.Dict? ==>
      && DistinctKeys(config.entries)
      && (Lookup(config, "model").Dict? ==> DistinctKeys(Lookup(config, "model").entries))
  }

  /** What `Config(config)` builds, with each getter replaced by its plan: the
      property table and the action table, or the first exception in the order the
      constructor meets them. */
  function Loaded(config: Value, makeValue: (Value, Value) -> Result<Values.Property<Values.GetterPlan>>,
                  makeAction: (Value, Value) -> Result<Action>)
    : Result<(map<Value, Values.Property<Values.GetterPlan>>, map<Value, Action>)>
  {
    if !config.Dict? then Err(AttributeError("get"))
    else
      var model := Lookup(config, "model");
      if !model.Dict? then Err(AttributeError("items"))
      else
        match Table(model.entries, |model.entries|, makeValue)
        case Err(x) => Err(x)
        case Ok(properties) =>
          var actions := Lookup(config, "actions");
          if !actions.Dict? then Err(AttributeError("items"))
          else
            match Table(actions.entries, |actions.entries|, makeAction)
            case Err(x) => Err(x)
            case Ok(table) => Ok((properties, table))
  }

  /** A loaded configuration has one property per key of its model config and one
      action per key of its actions config, each action filed under its own name; it
      fails exactly when some entry fails or a table is not a dict. */
  lemma LoadedFacts(config: Value, makeValue: (Value, Value) -> Result<Values.Property<Values.GetterPlan>>,
                    makeAction: (Value, Value) -> Result<Action>)
    requires NamesActions(makeAction)
    ensures var r := Loaded(config, makeValue, makeAction);
            r.Ok? ==>
              && config.Dict? && Lookup(config, "model").Dict? && Lookup(config, "actions").Dict?
              && (forall k :: k in r.value.0 <==> k in Keys(Lookup(config, "model").entries))
              && (forall k :: k in r.value.1 <==> k in Keys(Lookup(config, "actions").entries))
              && (forall k :: k in r.value.1 ==> Named(k, r.value.1[k]))
    ensures var r := Loaded(config, makeValue, makeAction);
            config.Dict? && Lookup(config, "model").Dict? && Lookup(config, "actions").Dict? ==>
              (r.Ok? <==> && (forall j :: 0 <= j < |Lookup(config, "model").entries| ==>
                                makeValue(Lookup(config, "model").entries[j].0, Lookup(config, "model").entries[j].1).Ok?)
                          && (forall j :: 0 <= j < |Lookup(config, "actions").entries| ==>
                                makeAction(Lookup(config, "actions").entries[j].0, Lookup(config, "actions").entries[j].1).Ok?))
  {
    if config.Dict? && Lookup(config, "model").Dict? {
      var es := Lookup(config, "model").entries;
      TableOk(es, |es|, makeValue);
      assert es[..|es|] == es;
      if Table(es, |es|, makeValue).Ok? {
        TableKeys(es, |es|, makeValue);
        if Lookup(config, "actions").Dict? {
          var acts := Lookup(config, "actions").entries;
          TableOk(acts, |acts|, makeAction);
          assert acts[..|acts|] == acts;
          if Table(acts, |acts|, makeAction).Ok? {
            ActionsNamed(acts, |acts|, makeAction);
          }
        }
      }
    }
  }

  /** `Config(config)`: path, settings, the property table, the action table and the
      project name, in that order, the first exception ending construction. */
  method Load(config: Value, values: Registry.TypeRegistry, actions: Registry.TypeRegistry,
              parseFloat: string -> Option<int>) returns (r: Result<Config>)
    requires forall t :: t in values.types ==> values.types[t] in Values.GetterClasses
    requires WellFormed(config)
    ensures match Loaded(config, ValueMakerOf(values.types, values.refs, values.defaults.table, values.name, parseFloat),
                         MakerOf(actions.types, actions.refs, actions.defaults.table, actions.name))
            case Err(x) => r == Err(x)
            case Ok(tables) => r.Ok? && tables.0 == PlanMap(r.value.model) && tables.1 == r.value.actions
    ensures r.Ok? ==>
              && config.Dict? && r.value.Valid()
              && r.value.path == Lookup(config, "path")
              && r.value.settings == Lookup(config, "settings")
              && r.value.projectName == Lookup(config, "name")
              && Lookup(config, "model").Dict?
              && r.value.modelOrder == Keys(Lookup(config, "model").entries)
              && (forall k :: k in r.value.model ==> Built(Lookup(config, "model").entries, k, r.value.model[k], parseFloat))
              && Lookup(config, "actions").Dict?
              && Ok(r.value.actions) == Table(Lookup(config, "actions").entries, |Lookup(config, "actions").entries|,
                                                    MakerOf(actions.types, actions.refs, actions.defaults.table, actions.name))
  {
    if !config.Dict? {
      return Err(AttributeError("get"));
    }
    var path := Lookup(config, "path");
    var settings := ParseSettings(Lookup(config, "settings"));
    var parsed := ParseModel(Lookup(config, "model"), values, parseFloat);
    if parsed.Err? {
      return Err(parsed.error);
    }
    var (model, order) := parsed.value;
    var table := ParseActions(Lookup(config, "actions"), actions);
    if table.Err? {
      return Err(table.error);
    }
    var es := Lookup(config, "actions").entries;
    MakerNames(actions.types, actions.refs, actions.defaults.table, actions.name);
    ActionsNamed(es, |es|, MakerOf(actions.types, actions.refs, actions.defaults.table, actions.name));
    assert forall i, j :: 0 <= i < j < |order| ==> order[i] != order[j] by {
      var es := Lookup(config, "model").entries;
      assert forall i :: 0 <= i < |order| ==> order[i] == es[i].0;
    }
    var c := new Config(path, settings, model, order, table.value, Lookup(config, "name"));
    r := Ok(c);
  }
}
