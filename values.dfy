/** The value getters of values.py: the "get" registry's classes, the renderer
    default each getter writes into its settings, the modification-time cache of the
    tail getter, and the `ValueDelegate` a dashboard property is made of.

    Running shell commands, taking screenshots, reading modification times and file
    bytes, decoding bytes and `float()` on strings are outside the model; what they
    would produce is given as arguments. */
module Values {
  import opened Base
  import opened Utility
  import Registry
  import Parsers
  import Renderers
  import Images

  /** The name of the getters' registry. */
  const RegistryName := "get"

  /** The classes registered in it when values.py is loaded. */
  const GetterClasses: set<string> := {"get", "shell", "screenshot", "tail"}

  // ---------------------------------------------------------------------------
  // Renderer defaults (lines 70, 83, 95)
  // ---------------------------------------------------------------------------

  /** `settings["renderer"] = settings.get("renderer", default)`. */
  function WithRenderer(items: Settings, default: string): (r: Settings)
    ensures "renderer" in r && r.Keys == items.Keys + {"renderer"}
    ensures forall k :: k in items ==> r[k] == items[k]
    ensures "renderer" !in items ==> r["renderer"] == Str(default)
  {
    items["renderer" := if "renderer" in items then items["renderer"] else Str(default)]
  }

  /** A renderer the configuration names is never replaced, and the first default
      written is the one that stays. */
  lemma RendererDefaultFirstWins(items: Settings, a: string, b: string)
    ensures "renderer" in items ==> WithRenderer(items, a) == items
    ensures WithRenderer(WithRenderer(items, a), b) == WithRenderer(items, a)
  {
  }

  /** The default each getter class writes, "get" writing none. */
  function RendererDefault(cls: string): Option<string> {
    if cls == "shell" then Some("string")
    else if cls == "screenshot" then Some("image")
    else if cls == "tail" then Some("log")
    else None
  }

  /** The "log" default of the tail getter names no registered renderer. */
  lemma LogIsNotARenderer()
    ensures Renderers.KindOf(Str(RendererDefault("tail").value)).None?
  {
  }

  method ApplyRendererDefault(d: SettingsDict, default: string)
    modifies d
    ensures d.items == WithRenderer(old(d.items), default)
  {
    var renderer := if "renderer" in d.items then d.items["renderer"] else Str(default);
    d.items := d.items["renderer" := renderer];
  }

  // ---------------------------------------------------------------------------
  // Tail (lines 93-110)
  // ---------------------------------------------------------------------------

  /** The default of the "lines" setting. */
  const DefaultLines: Value := Int(100)

  /** The count `line_count <= num_lines` compares against: ints and bools compare
      with an int, anything else raises. */
  function LinesCount(lines: Value): Option<int> {
    match lines
    case Int(i) => Some(i)
    case Bool(b) => Some(if b then 1 else 0)
    case _ => None
  }

  const NotComparable := TypeError("'<=' not supported between instances of 'int' and the lines setting")

  /** A `Tail` getter: the file's path, the line count, the modification time of the
      last read and what it read. */
  class Tail {
    const path: Value
    const lines: Value
    var modTime: int
    var lastValue: seq<Byte>

    constructor (path: Value, lines: Value)
      ensures this.path == path && this.lines == lines
      ensures modTime == 0 && lastValue == []
    {
      this.path := path;
      this.lines := lines;
      modTime := 0;
      lastValue := [];
    }

    /** `get`, given the modification time `os.path.getmtime` reports and the file's
        bytes. The file is read only when that time is strictly later than the stored
        one; the stored time is updated before the read, so a read that raises still
        moves it. */
    method Get(observed: int, contents: seq<Byte>) returns (r: Result<seq<Byte>>)
      modifies this
      ensures modTime == if observed > old(modTime) then observed else old(modTime)
      ensures observed <= old(modTime) ==> lastValue == old(lastValue) && r == Ok(lastValue)
      ensures observed > old(modTime) && LinesCount(lines).None? ==>
                lastValue == old(lastValue) && r == Err(NotComparable)
      ensures observed > old(modTime) && LinesCount(lines).Some? ==>
                IsTail(contents, LinesCount(lines).value, lastValue) && r == Ok(lastValue)
    {
      if observed > modTime {
        modTime := observed;
        var n := LinesCount(lines);
        if n.None? {
          return Err(NotComparable);
        }
        lastValue := TailLines(contents, n.value);
      }
      r := Ok(lastValue);
    }
  }

  // ---------------------------------------------------------------------------
  // Getters
  // ---------------------------------------------------------------------------

  /** A constructed getter: the bare "get" class, whose `get` returns None, or one of
      the three implementations. */
  datatype Getter =
    | BaseGetter
    | ShellGetter(command: Value, parser: Parsers.Parser)
    | ScreenshotGetter(id: string)
    | TailGetter(tail: Tail)

  /** The parser setting of the shell getter. */
  function ParserSetting(items: Settings): Value {
    if "parser" in items then items["parser"] else Str("string")
  }

  /** What a getter is built from, without the object identity of a tail getter's
      cache: the value of a getter as a function of its settings. */
  datatype GetterPlan =
    | BasePlan
    | ShellPlan(command: Value, parser: Parsers.Parser)
    | ScreenshotPlan(id: string)
    | TailPlan(path: Value, lines: Value)

  function PlanOf(g: Getter): GetterPlan {
    match g
    case BaseGetter => BasePlan
    case ShellGetter(command, parser) => ShellPlan(command, parser)
    case ScreenshotGetter(id) => ScreenshotPlan(id)
    case TailGetter(tail) => TailPlan(tail.path, tail.lines)
  }

  /** The class a plan is an instance of. */
  function PlanClass(p: GetterPlan): string {
    match p
    case BasePlan => "get"
    case ShellPlan(_, _) => "shell"
    case ScreenshotPlan(_) => "screenshot"
    case TailPlan(_, _) => "tail"
  }

  /** The getter (or the exception) `cls(settings)` produces on the settings `items`
      it is given: a shell getter needs "cmd" and a parser its "parser" setting
      builds, a tail getter needs "path" and reads "lines" with its default. */
  function InstancePlan(cls: string, items: Settings): (r: Result<GetterPlan>)
    requires cls in GetterClasses
    ensures r.Ok? ==> PlanClass(r.value) == cls
    ensures r.Err? <==>
              || (cls == "shell" && ("cmd" !in items || Parsers.MakeParser(ParserSetting(items)).Err?))
              || (cls == "tail" && "path" !in items)
  {
    if cls == "shell" then
      if "cmd" !in items then Err(KeyError(Str("cmd")))
      else
        match Parsers.MakeParser(ParserSetting(items))
        case Ok(p) => Ok(ShellPlan(items["cmd"], p))
        case Err(x) => Err(x)
    else if cls == "screenshot" then Ok(ScreenshotPlan("screenshot"))
    else if cls == "tail" then
      if "path" !in items then Err(KeyError(Str("path")))
      else Ok(TailPlan(items["path"], if "lines" in items then items["lines"] else DefaultLines))
    else Ok(BasePlan)
  }

  /** The renderer default written before the class reads its keys changes nothing
      the class reads: the plan is the same on the settings before and after. */
  lemma InstancePlanIgnoresRenderer(cls: string, items: Settings)
    requires cls in GetterClasses && RendererDefault(cls).Some?
    ensures InstancePlan(cls, WithRenderer(items, RendererDefault(cls).value)) == InstancePlan(cls, items)
  {
    ShellParserIgnoresRenderer(items);
  }

  /** `cls(settings)` for the class the registry chose: the renderer default is
      written into the settings first, then the class reads its own keys. */
  method Instantiate(cls: string, d: SettingsDict) returns (r: Result<Getter>)
    requires cls in GetterClasses
    modifies d
    ensures match InstancePlan(cls, old(d.items))
            case Ok(p) => r.Ok? && PlanOf(r.value) == p
            case Err(x) => r == Err(x)
    ensures RendererDefault(cls).Some? ==> d.items == WithRenderer(old(d.items), RendererDefault(cls).value)
    ensures RendererDefault(cls).None? ==> d.items == old(d.items)
    ensures cls == "get" ==> r == Ok(BaseGetter)
    ensures cls == "screenshot" ==> r == Ok(ScreenshotGetter("screenshot"))
    ensures cls == "shell" && "cmd" !in old(d.items) ==> r == Err(KeyError(Str("cmd")))
    ensures cls == "shell" && "cmd" in old(d.items) ==>
              var p := Parsers.MakeParser(ParserSetting(old(d.items)));
              r == if p.Ok? then Ok(ShellGetter(old(d.items)["cmd"], p.value)) else Err(p.error)
    ensures cls == "tail" && "path" !in old(d.items) ==> r == Err(KeyError(Str("path")))
    ensures cls == "tail" && "path" in old(d.items) ==>
              && r.Ok? && r.value.TailGetter? && fresh(r.value.tail)
              && r.value.tail.path == old(d.items)["path"]
              && r.value.tail.lines == (if "lines" in old(d.items) then old(d.items)["lines"] else DefaultLines)
              && r.value.tail.modTime == 0 && r.value.tail.lastValue == []
  {
    if cls == "get" {
      return Ok(BaseGetter);
    }
    ApplyRendererDefault(d, RendererDefault(cls).value);
    if cls == "shell" {
      if "cmd" !in d.items {
        return Err(KeyError(Str("cmd")));
      }
      var command := d.items["cmd"];
      var parser := Parsers.MakeParser(ParserSetting(d.items));
      if parser.Err? {
        return Err(parser.error);
      }
      r := Ok(ShellGetter(command, parser.value));
    } else if cls == "screenshot" {
      r := Ok(ScreenshotGetter("screenshot"));
    } else {
      if "path" !in d.items {
        return Err(KeyError(Str("path")));
      }
      var lines := if "lines" in d.items then d.items["lines"] else DefaultLines;
      var tail := new Tail(d.items["path"], lines);
      r := Ok(TailGetter(tail));
    }
  }

  /** The parser of a shell getter is chosen by the configuration, not by the
      renderer default written before it. */
  lemma ShellParserIgnoresRenderer(items: Settings)
    ensures ParserSetting(WithRenderer(items, "string")) == ParserSetting(items)
  {
  }

  /** What the outside world hands the getters: the command's output, the file's
      modification time and bytes, and how bytes decode to text. */
  datatype World = World(output: string, mtime: int, contents: seq<Byte>, decode: seq<Byte> -> string)

  /** The objects a getter's `get` may update. */
  function GetterFootprint(g: Getter, repo: Images.ImageRepo): set<object> {
    if g.TailGetter? then {g.tail, repo} else {repo}
  }

  /** The text of what the tail getter read: its cache starts as the empty string,
      which the model keeps as no bytes. */
  function Decoded(w: World, bytes: seq<Byte>): string {
    if bytes == [] then "" else w.decode(bytes)
  }

  /** The cache of a tail getter (the modification time and the bytes last read);
      the other getters keep none. */
  function TailFootprint(g: Getter): set<object> {
    if g.TailGetter? then {g.tail} else {}
  }

  function TailState(g: Getter): (int, seq<Byte>)
    reads TailFootprint(g)
  {
    if g.TailGetter? then (g.tail.modTime, g.tail.lastValue) else (0, [])
  }

  /** What one call of a getter's `get` does, from the images `images0` and tail
      cache `t0` before it to `images1` and `t1` after it, with result `r`. */
  ghost predicate Fetched(g: Getter, images0: map<string, Images.ImageRef>, images1: map<string, Images.ImageRef>,
                          dir: string, join: (string, string) -> string,
                          t0: (int, seq<Byte>), t1: (int, seq<Byte>), w: World, e: Parsers.Engine,
                          r: Result<Renderers.Data>)
  {
    match g
    case BaseGetter => r == Ok(Renderers.Plain(Null)) && images1 == images0
    case ShellGetter(_, parser) =>
      && images1 == images0
      && (match Parsers.Apply(parser, Str(w.output), e)
          case Ok(v) => r == Ok(Renderers.Plain(v))
          case Err(x) => r == Err(x))
    case ScreenshotGetter(id) =>
      var ref := Images.RefFor(dir, join, id + ".png");
      r == Ok(Renderers.Image(ref)) && images1 == images0[id + ".png" := ref]
    case TailGetter(tail) =>
      && images1 == images0
      && t1.0 == (if w.mtime > t0.0 then w.mtime else t0.0)
      && (w.mtime <= t0.0 ==> t1.1 == t0.1 && r == Ok(Renderers.Plain(Str(Decoded(w, t0.1)))))
      && (w.mtime > t0.0 && LinesCount(tail.lines).None? ==> t1.1 == t0.1 && r == Err(NotComparable))
      && (w.mtime > t0.0 && LinesCount(tail.lines).Some? ==>
            IsTail(w.contents, LinesCount(tail.lines).value, t1.1) && r == Ok(Renderers.Plain(Str(Decoded(w, t1.1)))))
  }

  /** `get` of each getter: the shell getter parses the command's output, the
      screenshot getter stores a fresh reference to "screenshot.png", the tail getter
      reads through its cache. */
  method GetterGet(g: Getter, repo: Images.ImageRepo, w: World, e: Parsers.Engine) returns (r: Result<Renderers.Data>)
    modifies GetterFootprint(g, repo)
    ensures Fetched(g, old(repo.images), repo.images, repo.dir, repo.join, old(TailState(g)), TailState(g), w, e, r)
  {
    match g
    case BaseGetter =>
      r := Ok(Renderers.Plain(Null));
    case ShellGetter(_, parser) =>
      var parsed := Parsers.Apply(parser, Str(w.output), e);
      if parsed.Err? {
        return Err(parsed.error);
      }
      r := Ok(Renderers.Plain(parsed.value));
    case ScreenshotGetter(id) =>
      var ref := repo.MakeImageRef(id + ".png");
      r := Ok(Renderers.Image(ref));
    case TailGetter(tail) =>
      var bytes := tail.Get(w.mtime, w.contents);
      if bytes.Err? {
        return Err(bytes.error);
      }
      r := Ok(Renderers.Plain(Str(Decoded(w, bytes.value))));
  }

  /** A tail getter whose file has not changed returns what it returned last time
      and keeps its cache; whatever it returns is the text of the cache it keeps, and
      its stored time never goes back. */
  lemma TailCacheHit(tail: Tail, images0: map<string, Images.ImageRef>, images1: map<string, Images.ImageRef>,
                     dir: string, join: (string, string) -> string, t0: (int, seq<Byte>), t1: (int, seq<Byte>),
                     w: World, e: Parsers.Engine, r: Result<Renderers.Data>)
    requires Fetched(TailGetter(tail), images0, images1, dir, join, t0, t1, w, e, r)
    ensures w.mtime <= t0.0 ==> t1 == t0 && r == Ok(Renderers.Plain(Str(Decoded(w, t0.1))))
    ensures r.Ok? ==> r == Ok(Renderers.Plain(Str(Decoded(w, t1.1))))
    ensures t1.0 >= t0.0 && images1 == images0
  {
  }

  // ---------------------------------------------------------------------------
  // ValueDelegate (lines 35-62)
  // ---------------------------------------------------------------------------

  /** A dashboard property: its display name, its polling period, its getter, the
      getter's own "poll" setting, and its renderer. The getter is a `Getter`, or its
      `GetterPlan` where only what it was built from matters. */
  datatype Property<G> = Property(displayName: Value, updateTime: Option<int>, getter: Option<G>,
                                  updates: Value, renderer: Renderers.Renderer)

  type Delegate = Property<Getter>

  function PropertyPlan(d: Delegate): Property<GetterPlan> {
    Property(d.displayName, d.updateTime, if d.getter.Some? then Some(PlanOf(d.getter.value)) else None,
             d.updates, d.renderer)
  }

  /** `desc.get(key, default)` on a property description. */
  function Lookup(desc: seq<(Value, Value)>, key: string, default: Value): Value {
    DictGet(desc, Str(key)).GetOr(default)
  }

  /** `desc.get("name", name)`. */
  function DisplayName(name: Value, desc: seq<(Value, Value)>): (r: Value)
    ensures DictGet(desc, Str("name")).Some? ==> r == DictGet(desc, Str("name")).value
    ensures DictGet(desc, Str("name")).None? ==> r == name
  {
    Lookup(desc, "name", name)
  }

  /** `float(desc.get("poll")) if desc.get("poll") else None`, on whole seconds;
      `parseFloat` stands for `float()` on a string. */
  function UpdateTime(desc: seq<(Value, Value)>, parseFloat: string -> Option<int>): (r: Result<Option<int>>)
    ensures var poll := Lookup(desc, "poll", Null);
            && (!Truthy(poll) ==> r == Ok(None))
            && (r.Ok? && r.value.None? ==> !Truthy(poll))
            && (Truthy(poll) && poll.Int? ==> r == Ok(Some(poll.i)))
            && (Truthy(poll) && poll.Bool? ==> r == Ok(Some(1)))
            && (Truthy(poll) && poll.Str? ==>
                  r == if parseFloat(poll.s).Some? then Ok(parseFloat(poll.s))
                       else Err(ValueError("could not convert string to float")))
            && (Truthy(poll) && (poll.List? || poll.Dict?) ==> r.Err? && r.error.TypeError?)
  {
    var poll := Lookup(desc, "poll", Null);
    if !Truthy(poll) then Ok(None)
    else match poll
      case Int(i) => Ok(Some(i))
      case Bool(_) => Ok(Some(1))
      case Str(s) =>
        (match parseFloat(s)
         case Some(t) => Ok(Some(t))
         case None => Err(ValueError("could not convert string to float")))
      case _ => Err(TypeError("float() argument must be a string or a real number"))
  }

  /** `make_renderer(desc.get("renderer", "string"))` with `streaming` left False. A
      name stands for the settings `{"type": name}`, a dict setting is the renderer's
      settings; anything else cannot take the "streaming" key. */
  function RendererOf(desc: seq<(Value, Value)>): (r: Result<Renderers.Renderer>)
    ensures DictGet(desc, Str("renderer")).None? ==>
              r == Ok(Renderers.Renderer(Renderers.StringKind, Bool(false), true))
    ensures var setting := Lookup(desc, "renderer", Str("string"));
            && (setting.Str? ==>
                  && (r.Ok? <==> Renderers.KindOf(setting).Some?)
                  && (r.Ok? ==> r.value.kind == Renderers.KindOf(setting).value &&
                                r.value.folding == Renderers.DefaultFolding(r.value.kind))
                  && (r.Err? ==> r == Err(NoRendererRegistered(setting))))
            && (setting.Dict? ==>
                  r == Renderers.RendererFor(ToSettings(setting.entries)["streaming" := Bool(false)]))
            && (!setting.Str? && !setting.Dict? ==> r == Err(TypeError("object does not support item assignment")))
  {
    match Lookup(desc, "renderer", Str("string"))
    case Str(s) => Renderers.RendererFor(map["type" := Str(s), "streaming" := Bool(false)])
    case Dict(es) => Renderers.RendererFor(ToSettings(es)["streaming" := Bool(false)])
    case _ => Err(TypeError("object does not support item assignment"))
  }

  /** `ValueDelegate(name, desc)` once `values.make(desc.get("get"))` has produced its
      outcome `made`: the fields in the order the constructor computes them, the
      first exception winning. */
  function DelegateOf<G>(name: Value, desc: Value, made: Result<(G, Settings)>,
                         parseFloat: string -> Option<int>): (r: Result<Property<G>>)
    ensures !desc.Dict? ==> r == Err(AttributeError("get"))
    ensures desc.Dict? && UpdateTime(desc.entries, parseFloat).Err? ==> r == Err(UpdateTime(desc.entries, parseFloat).error)
    ensures desc.Dict? && UpdateTime(desc.entries, parseFloat).Ok? && made.Err? ==> r == Err(made.error)
    ensures r.Ok? ==>
              && desc.Dict? && made.Ok?
              && r.value.displayName == DisplayName(name, desc.entries)
              && Ok(r.value.updateTime) == UpdateTime(desc.entries, parseFloat)
              && r.value.getter == Some(made.value.0)
              && r.value.updates == (if "poll" in made.value.1 then made.value.1["poll"] else Null)
              && Ok(r.value.renderer) == RendererOf(desc.entries)
    ensures desc.Dict? && UpdateTime(desc.entries, parseFloat).Ok? && made.Ok? ==>
              (r.Ok? <==> RendererOf(desc.entries).Ok?)
    ensures r.Err? ==> desc.Dict? && UpdateTime(desc.entries, parseFloat).Ok? && made.Ok? ==>
              r == Err(RendererOf(desc.entries).error)
  {
    if !desc.Dict? then Err(AttributeError("get"))
    else
      var display := DisplayName(name, desc.entries);
      match UpdateTime(desc.entries, parseFloat)
      case Err(e) => Err(e)
      case Ok(time) =>
        match made
        case Err(e) => Err(e)
        case Ok((getter, settings)) =>
          var updates := if "poll" in settings then settings["poll"] else Null;
          match RendererOf(desc.entries)
          case Err(e) => Err(e)
          case Ok(renderer) => Ok(Property(display, time, Some(getter), updates, renderer))
  }

  /** A property that names no renderer is shown as a plain string, whatever its
      getter's class wrote into the getter's settings. */
  lemma DefaultRendererIsString<G>(name: Value, desc: Value, made: Result<(G, Settings)>,
                                   parseFloat: string -> Option<int>)
    requires desc.Dict? && DictGet(desc.entries, Str("renderer")).None?
    requires DelegateOf(name, desc, made, parseFloat).Ok?
    ensures DelegateOf(name, desc, made, parseFloat).value.renderer.kind == Renderers.StringKind
    ensures !Truthy(DelegateOf(name, desc, made, parseFloat).value.renderer.folding)
  {
  }

  /** The settings `values.make` starts from: a bare name stands for `{"type": name}`,
      a dict for its string keys; anything else has no "type" to read. */
  function GivenOf(get: Value): Option<Settings> {
    match get
    case Str(s) => Some(map["type" := get])
    case Dict(es) => Some(ToSettings(es))
    case _ => None
  }

  /** The settings a getter is left with: the merged settings, with the class's
      renderer default written in. */
  function Defaulted(cls: string, settings: Settings): Settings {
    if RendererDefault(cls).Some? then WithRenderer(settings, RendererDefault(cls).value) else settings
  }

  /** What `values.make(get)` builds on a registry with these types, references and
      defaults: the getter's plan and the settings it is left with, or the first
      exception. */
  function GetterPlanOf(get: Value, types: map<string, Registry.ClassName>, refs: map<string, Settings>,
                        table: Registry.DefaultsMap, registry: string): Result<(GetterPlan, Settings)>
    requires forall t :: t in types ==> types[t] in GetterClasses
  {
    match GivenOf(get)
    case None => Err(TypeError("object is not subscriptable"))
    case Some(given) =>
      match Registry.Resolve(types, refs, table, registry, given).result
      case Err(x) => Err(x)
      case Ok((inst, settings)) =>
        assert Registry.ClassOf(types, settings["type"]) == Some(inst.cls);
        match InstancePlan(inst.cls, settings)
        case Err(x) => Err(x)
        case Ok(p) => Ok((p, Defaulted(inst.cls, settings)))
  }

  /** A getter that is built is of the class its settings' "type" names, keeps every
      setting the caller gave, and carries its class's renderer default. */
  lemma GetterPlanFacts(get: Value, types: map<string, Registry.ClassName>, refs: map<string, Settings>,
                        table: Registry.DefaultsMap, registry: string)
    requires forall t :: t in types ==> types[t] in GetterClasses
    ensures var r := GetterPlanOf(get, types, refs, table, registry);
            r.Ok? ==>
              && GivenOf(get).Some?
              && "type" in r.value.1
              && Registry.ClassOf(types, r.value.1["type"]) == Some(PlanClass(r.value.0))
              && (forall k :: k in GivenOf(get).value && k != "type" ==>
                    k in r.value.1 && r.value.1[k] == GivenOf(get).value[k])
              && (RendererDefault(PlanClass(r.value.0)).Some? ==> "renderer" in r.value.1)
  {
    var r := GetterPlanOf(get, types, refs, table, registry);
    if r.Ok? {
      var given := GivenOf(get).value;
      var m := Registry.Resolve(types, refs, table, registry, given).result;
      assert m.Ok?;
      var (inst, settings) := m.value;
      assert Registry.ClassOf(types, settings["type"]) == Some(inst.cls);
      assert forall k :: k in given && k != "type" ==> k in settings && settings[k] == given[k];
    }
  }

  /** `values.make(desc.get("get"))`: the registry resolves the settings and the
      chosen class is constructed on the merged settings. A tail getter starts with
      an empty cache. */
  method MakeGetter(get: Value, reg: Registry.TypeRegistry) returns (r: Result<(Getter, Settings)>)
    requires forall t :: t in reg.types ==> reg.types[t] in GetterClasses
    ensures match GetterPlanOf(get, reg.types, reg.refs, reg.defaults.table, reg.name)
            case Err(x) => r == Err(x)
            case Ok(planned) => r.Ok? && PlanOf(r.value.0) == planned.0 && r.value.1 == planned.1
    ensures r.Ok? && r.value.0.TailGetter? ==>
              fresh(r.value.0.tail) && r.value.0.tail.modTime == 0 && r.value.0.tail.lastValue == []
  {
    var arg: SettingsArg;
    if get.Str? {
      arg := TypeName(get.s);
    } else if get.Dict? {
      var d := new SettingsDict(ToSettings(get.entries));
      arg := Mapping(d);
    } else {
      return Err(TypeError("object is not subscriptable"));
    }
    assert Given(arg) == GivenOf(get).value;
    var made := reg.Make(arg);
    if made.Err? {
      return Err(made.error);
    }
    var (inst, settings) := made.value;
    assert Registry.ClassOf(reg.types, settings["type"]) == Some(inst.cls);
    var d := new SettingsDict(settings);
    var getter := Instantiate(inst.cls, d);
    if getter.Err? {
      return Err(getter.error);
    }
    r := Ok((getter.value, d.items));
  }

  /** What `make_value(name, desc)` builds on a registry with these types, references
      and defaults. */
  function ValuePlan(name: Value, desc: Value, types: map<string, Registry.ClassName>, refs: map<string, Settings>,
                     table: Registry.DefaultsMap, registry: string, parseFloat: string -> Option<int>)
    : Result<Property<GetterPlan>>
    requires forall t :: t in types ==> types[t] in GetterClasses
  {
    if !desc.Dict? then Err(AttributeError("get"))
    else DelegateOf(name, desc, GetterPlanOf(Lookup(desc.entries, "get", Null), types, refs, table, registry), parseFloat)
  }

  /** A property's fields other than its getter do not depend on what the getter is,
      only on whether it was built: a getter and its plan give the same property. */
  lemma DelegateOfPlan(name: Value, desc: Value, made: Result<(Getter, Settings)>,
                       planned: Result<(GetterPlan, Settings)>, parseFloat: string -> Option<int>)
    requires made.Err? ==> planned == Err(made.error)
    requires made.Ok? ==> planned == Ok((PlanOf(made.value.0), made.value.1))
    ensures match DelegateOf(name, desc, planned, parseFloat)
            case Err(x) => DelegateOf(name, desc, made, parseFloat) == Err(x)
            case Ok(p) => DelegateOf(name, desc, made, parseFloat).Ok? &&
                          PropertyPlan(DelegateOf(name, desc, made, parseFloat).value) == p
  {
  }

  /** `make_value(name, desc)`. */
  method MakeValue(name: Value, desc: Value, reg: Registry.TypeRegistry, parseFloat: string -> Option<int>)
    returns (r: Result<Delegate>)
    requires forall t :: t in reg.types ==> reg.types[t] in GetterClasses
    ensures match ValuePlan(name, desc, reg.types, reg.refs, reg.defaults.table, reg.name, parseFloat)
            case Err(x) => r == Err(x)
            case Ok(p) => r.Ok? && PropertyPlan(r.value) == p
    ensures r.Ok? ==>
              && desc.Dict?
              && r.value.displayName == DisplayName(name, desc.entries)
              && Ok(r.value.updateTime) == UpdateTime(desc.entries, parseFloat)
              && r.value.getter.Some?
              && Ok(r.value.renderer) == RendererOf(desc.entries)
  {
    if !desc.Dict? {
      return Err(AttributeError("get"));
    }
    if UpdateTime(desc.entries, parseFloat).Err? {
      return Err(UpdateTime(desc.entries, parseFloat).error);
    }
    var made := MakeGetter(Lookup(desc.entries, "get", Null), reg);
    DelegateOfPlan(name, desc, made, GetterPlanOf(Lookup(desc.entries, "get", Null), reg.types, reg.refs,
                                                  reg.defaults.table, reg.name), parseFloat);
    r := DelegateOf(name, desc, made, parseFloat);
  }

  /** What `await` raises on a value that is not awaitable, such as None. */
  const NotAwaitable := "object NoneType can't be used in 'await' expression"

  /** `ValueDelegate.get`: no getter is NotImplementedError, otherwise the getter's
      own `get`, awaited. The bare getter's `get` is a plain function that returns
      None, so awaiting it raises TypeError; the other getters' `get` are coroutines. */
  method DelegateGet(v: Delegate, repo: Images.ImageRepo, w: World, e: Parsers.Engine) returns (r: Result<Renderers.Data>)
    modifies if v.getter.Some? then GetterFootprint(v.getter.value, repo) else {}
    ensures v.getter.None? ==> r == Err(NotImplementedError("Getter not implemented"))
    ensures v.getter == Some(BaseGetter) ==> r == Err(TypeError(NotAwaitable)) && repo.images == old(repo.images)
    ensures v.getter.Some? && !v.getter.value.BaseGetter? ==>
              Fetched(v.getter.value, old(repo.images), repo.images, repo.dir, repo.join,
                      old(TailState(v.getter.value)), TailState(v.getter.value), w, e, r)
  {
    if v.getter.None? {
      return Err(NotImplementedError("Getter not implemented"));
    }
    r := GetterGet(v.getter.value, repo, w, e);
    if v.getter.value.BaseGetter? {
      r := Err(TypeError(NotAwaitable));
    }
  }
}
