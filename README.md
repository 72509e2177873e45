# frame: a verified model of the dashboard core

frame serves a dashboard that is described by one configuration. The configuration has:

- a **model**: named properties, each with a getter that fetches a value and a renderer that turns the value into HTML;
- **actions**: named operations the page can invoke.

This project models the core of the Python package `src/frame` in Dafny and proves properties of that model.

The core is made of these parts:

- **Type registries** (`registry.py`):
  - Each registry maps type names to classes, and holds reference names: aliases whose settings name another type.
  - `make` follows a chain of references, rewriting the caller's `"type"` in place as it goes.
  - It layers defaults and reference settings along the way, refuses cycles, and constructs the class the chain ends at.
- **Parsers** (`parsers.py`): the json, regex, string, detect and sequence parsers, and the factory that builds one from a name or a settings dict.
- **Getters** (`values.py`):
  - the shell, screenshot and tail getters;
  - the caching tail getter, built on `tail_lines` of `utility.py`;
  - the value delegate that pairs a getter with a renderer.
- **Renderers** (`renderers.py`):
  - the factory, the two list-item templates and the streaming script;
  - what the string, JSON, status and image renderers make of a value;
  - the recursive HTML rendering of nested dicts, including the re-keying of a list of dicts by `_name`.
- **Images** (`images.py`): the repository of image references, one per id, created on first use.
- **Actions** (`actions.py`):
  - the common header (name, url, display name) and the dotted-key accessor;
  - the edge-triggered condition;
  - the sequence action's calls and the OSC message flattening.
- **Configuration** (`model.py`): loading the path, settings, model, actions and project name, and the lookups the web layer uses.

## How the model is built

**Python values.** A Python value is the datatype `Base.Value`. A dict keeps its insertion order as a list of pairs.

**Settings.** The flat settings dicts that registries and renderers pass around are `map<string, Value>`. A caller's settings dict that the source mutates is a `SettingsDict` object where the caller can see the update. These updates are kept:

- `make` rewrites `"type"` in it;
- `make_renderer` writes `"streaming"` into it;
- the getters write their renderer default into it.

**Exceptions** are `Base.Error` values inside a `Result`.

**Stateful operations** are methods on classes, each proved equal to a pure specification function:

| class or operation | specification |
|---|---|
| the registry's resolution loop | `Chase` / `Resolve` |
| the tail cache | `IsTail` |
| the image repository | `GetOrInsert` |
| the HTML accumulation of `render_nested_dict` | `NestedHtml` |
| a getter's `get` | `Fetched` |
| `values.make` | `GetterPlanOf`, on `GetterPlan` values |
| `make_value` | `ValuePlan` |
| `parse_model` | `Table` over `ValuePlan` |
| `parse_actions` | `Table` over `ActionOf` |
| `Config(config)` | `Loaded` |

A constructed tail getter is an object with its own cache. Its specification, a `GetterPlan`, is the value it was built from: its path and line count.

A condition is a `Condition` object.

**Parameters for the outside world.** Everything outside the process is passed in:

- the regular-expression engine, `json.loads` and `match.group` (`Parsers.Engine`);
- the command's output, the file's modification time and bytes, and the UTF-8 decoder (`Values.World`);
- `float()` on strings (`parseFloat`);
- `os.path.join` (`join`);
- the uuids (`id`, `nonce`).

**The reference merge.** At each step `make` layers `base + defaults(next) + ref` (`registry.py:38-42`). Along `a -> b -> c`, the merged settings are therefore `D(a) + D(b) + refs[a] + D(c) + refs[b] + given`. The defaults of a later type override an earlier reference's own settings. `Registry.LaterLinkWins` states this.

## Model

| member | source | states |
|---|---|---|
| Registry.DefaultsTable.constructor | src/frame/registry.py:60-63 | The shared defaults table starts empty. |
| Registry.DefaultsTable.SetDefaults | src/frame/registry.py:60-63 | `set_defaults` merges the new per-registry defaults over the old ones: the new registries get the new tables, the others keep theirs, and the merged table is returned. |
| Registry.DefaultSettings | src/frame/registry.py:23-24 | Looking up a type's defaults raises TypeError exactly when the name is unhashable. Otherwise it gives the table's entry for that registry and name, or the empty dict when there is none. |
| Registry.Chase | src/frame/registry.py:35-48 | Defines the resolution loop on values: from the current type, follow references while the type is one, layering each target's defaults and the reference's settings over the base and writing each target into "type", until a non-reference or an error. |
| Registry.ChaseFacts | src/frame/registry.py:35-48 | The resolution loop runs at most once per unvisited reference name, plus one. When it succeeds, the type it stops at is not a reference. It raises only KeyError, TypeError or the circular-reference error. |
| Registry.UnvisitedShrinks | src/frame/registry.py:35-48 | Visiting a new name removes it from the unvisited reference names when it is a reference, and changes nothing otherwise. This is why the loop terminates. |
| Registry.ChaseStep | src/frame/registry.py:35-48 | Unfolds one iteration of the loop. A reference without "type" is KeyError. An unhashable target is TypeError. A target already visited is the circular-reference error carrying the visited set. Otherwise the loop continues on the new target with base + defaults + reference settings. |
| Registry.Construct | src/frame/registry.py:50-57 | After the loop, the caller's settings (with "type" rewritten) override the layered base. The class registered for the final "type" is built on the merged settings, and they carry every caller key and every base key the caller did not set. Otherwise the error is "No type registered" for that type. |
| Registry.Resolve | src/frame/registry.py:26-57 | Settings without "type" give KeyError and no write. The loop runs at most once per registered reference. On success, the final type is not a reference, and its registered class is the instance's class. The instance holds the merged settings, which keep every key the caller gave except "type". |
| Registry.StartBound | src/frame/registry.py:31-35 | From the first type, the loop's budget of unvisited references is at most the number of registered references. |
| Registry.ChaseAlong | src/frame/registry.py:35-48 | Along a chain of distinct references, the loop visits each link once and writes each target into "type". It layers the base as `Layer` describes, and either stops at a non-reference or raises where the chain's last link says. |
| Registry.PathTail | src/frame/registry.py:35-48 | The tail of a chain is again a chain of distinct, unvisited names that starts where the first reference points. |
| Registry.ResolveAlongChain | src/frame/registry.py:26-57 | A reference chain ending at a non-reference resolves in one iteration per reference on it. The last name is written into the caller's "type". The result is `Construct` on the chain's layered settings. |
| Registry.ResolveFindsCycle | src/frame/registry.py:44-45 | A chain whose last reference points back into it raises the circular-reference error with exactly the chain's names. This happens after one iteration per name on it, having written the revisited name into "type". |
| Registry.SelfReference | src/frame/registry.py:44-45 | A reference to itself fails on the first iteration with the error naming only itself, and leaves its own name in "type". |
| Registry.LaterLinkWins | src/frame/registry.py:38-42 | Along `a -> b -> c`, b's settings override a's, and c's defaults override a's own settings when b does not set the key. |
| Registry.ChaseInPlace | src/frame/registry.py:35-48 | The imperative loop returns `Chase`'s outcome. It leaves the caller's dict with "type" overwritten by the last target written, also when it raises. |
| Registry.TypeRegistry.constructor | src/frame/registry.py:10-13 | A new registry has its name and shared defaults table, and no types or references. |
| Registry.TypeRegistry.Register | src/frame/registry.py:15-17 | Registering a class files it under its name and leaves the references alone. |
| Registry.TypeRegistry.RegisterRef | src/frame/registry.py:19-21 | Registering a reference files its settings under its name and leaves the classes alone. |
| Registry.TypeRegistry.Make | src/frame/registry.py:26-57 | `make` returns exactly `Resolve` on the given settings, where a bare string stands for `{"type": name}`. A caller's dict ends up with "type" overwritten as `Resolve` says. |
| Parsers.DictIndex | src/frame/parsers.py:78-83 | Finds the position of the first pair with a key. It exists exactly when the key is in the dict, and that pair holds the value `get` returns. |
| Parsers.Construct | src/frame/parsers.py:7-64 | Looking up a non-sequence parser type fails exactly when the type is not one of the five registered names, always with TypeError. "json" and "string" build their parsers. "regex" and "detect" take "pattern" (default `".*"`) and "group" (default 0) from the settings, and "detect" also "invert" (default False). |
| Parsers.FromName | src/frame/parsers.py:78-83 | A bare name builds its parser with every setting at its default: regex `".*"` and group 0, detect also not inverted. "sequence" has no "parsers", which is KeyError. An unregistered name is TypeError. |
| Parsers.MakeParser | src/frame/parsers.py:67-83 | `make_parser` of a value that is neither a name nor a dict has no `.get`, which is AttributeError. |
| Parsers.MakeParserType | src/frame/parsers.py:78-83 | A built parser is of the class its "type" names. A name or dict whose "type" is not registered is TypeError. A "sequence" dict without "parsers" is KeyError. |
| Parsers.MakeParts | src/frame/parsers.py:67-70 | Building the parts iterates over the "parsers" value: a non-iterable raises TypeError, and the parts, when built, number one per entry. |
| Parsers.MakePartsEach | src/frame/parsers.py:67-70 | Each part is the parser made from its entry. A failure is the first failing entry's error, with every earlier entry succeeding. |
| Parsers.BareNameIsTypeDict | src/frame/parsers.py:78-83 | `make_parser("x")` and `make_parser({"type": "x"})` agree. |
| Parsers.SequenceOnePartPerEntry | src/frame/parsers.py:67-70 | A built sequence parser has one part per entry of "parsers", each the parser made from that entry. |
| Parsers.SequenceParts | src/frame/parsers.py:67-70 | A "sequence" settings dict with "parsers" builds a sequence of the parts, or fails with their error. |
| Parsers.Size | src/frame/parsers.py:67-75 | Every parser has positive size. This is the termination measure for nested sequences. |
| Parsers.SizeAll | src/frame/parsers.py:67-75 | A list of parsers is larger than its first parser and than its tail. |
| Parsers.Apply | src/frame/parsers.py:26-75 | Defines calling a parser: `json.loads`, the regex's group or None, the string itself, detect's boolean, or the sequence's `Fold`. |
| Parsers.Fold | src/frame/parsers.py:72-75 | Defines the sequence parser's loop: each part is applied to the previous part's result, and the first exception ends it. |
| Parsers.RunSequence | src/frame/parsers.py:72-75 | The loop of the sequence parser feeds each part's result to the next and stops at the first exception: it equals `Fold`. |
| Parsers.StringIsIdentity | src/frame/parsers.py:45-51 | The string parser returns its input. |
| Parsers.RegexOutcome | src/frame/parsers.py:31-42 | A regex that does not match gives None. One that matches gives the configured group of the match. |
| Parsers.DetectIsXor | src/frame/parsers.py:54-64 | Detect returns "matched" xor the truthiness of invert, and flipping invert negates the answer. |
| Parsers.EmptySequenceIsIdentity | src/frame/parsers.py:72-75 | A sequence of no parsers returns its input. |
| Parsers.SequenceSplits | src/frame/parsers.py:72-75 | Running `ps + qs` is running `ps`, then `qs` on its result. An exception in `ps` skips `qs`. |
| Parsers.NestedSequence | src/frame/parsers.py:72-75 | A sequence of two nested sequences behaves as their concatenation. |
| Parsers.FoldSingle | src/frame/parsers.py:72-75 | A one-part sequence behaves as its part. |
| Utility.Reverse | src/frame/utility.py:22 | Reversal keeps the length. |
| Utility.ReverseSnoc | src/frame/utility.py:13-22 | Appending a byte to the backwards buffer puts it in front of the reversed result. |
| Utility.IsTail | src/frame/utility.py:4-22 | Defines the result of `tail_lines`: a suffix of the file, empty for a negative count, the whole file when it has at most `num_lines` newlines, and otherwise the suffix starting at the `num_lines + 1`-th newline from the end. |
| Utility.TailLines | src/frame/utility.py:4-22 | `tail_lines` returns a suffix of the file. It is empty for a negative count. Otherwise it is the whole file when the file has at most `num_lines` newlines, or the suffix that starts at the `num_lines + 1`-th newline from the end. |
| Utility.TailIsUnique | src/frame/utility.py:4-22 | At most one suffix meets that description, so the result is determined by the file and the count. |
| Utility.TailFacts | src/frame/utility.py:4-22 | The tail holds at most `num_lines + 1` newlines. It is the whole of a short file, and non-empty for a non-empty file. |
| Utility.CutIsUnique | src/frame/utility.py:13-19 | Two suffixes that both start at a newline and hold equally many newlines are the same suffix. |
| Utility.NewlinesSuffixMonotone | src/frame/utility.py:13-19 | A longer suffix never holds fewer newlines. |
| Images.NewImageRef | src/frame/images.py:6-10 | A reference keeps its id and path, and its url is `images/<id>`. |
| Images.UrlNamesImage | src/frame/images.py:6-10 | Two references with the same url have the same id. |
| Images.GetOrInsert | src/frame/images.py:41-46 | `get_image_ref` returns the stored reference for a known id and leaves the table alone. For a new id it creates the reference in the image directory and stores it. Either way the id ends up mapped to the result. |
| Images.GetOrInsertIdempotent | src/frame/images.py:41-46 | Asking twice for the same id gives the same reference and the same table. |
| Images.GetOrInsertLocal | src/frame/images.py:41-46 | Asking for one id leaves every other id's entry as it was. |
| Images.GetOrInsertKeepsWellFiled | src/frame/images.py:41-46 | If every stored reference is filed under its own id with url `images/<id>`, that stays so. |
| Images.ImageRepo.constructor | src/frame/images.py:29-33 | A repository starts with its settings, directory and path join, and no references. |
| Images.ImageRepo.MakeImageRef | src/frame/images.py:35-39 | `make_image_ref` files a reference to the id joined onto the directory under the id, replacing any earlier one; other ids keep theirs. |
| Images.ImageRepo.GetImageRef | src/frame/images.py:41-46 | The method returns and stores exactly what `GetOrInsert` says. |
| Values.WithRenderer | src/frame/values.py:70 | Writing `settings.get("renderer", default)` back into the settings adds the key only when it is absent, and keeps every other key and value. |
| Values.RendererDefaultFirstWins | src/frame/values.py:70 | A present renderer is never replaced, and a second default after a first changes nothing. |
| Values.LogIsNotARenderer | src/frame/values.py:95 | The tail getter's default renderer "log" is not a registered renderer name. |
| Values.ApplyRendererDefault | src/frame/values.py:70 | The caller's dict is updated in place to `WithRenderer`. |
| Values.Tail.constructor | src/frame/values.py:93-101 | A new tail getter has its path and line count, a zero modification time and an empty cached value. |
| Values.Tail.Get | src/frame/values.py:103-110 | An unchanged or older modification time returns the cached bytes. A newer one is stored first. The file is then re-read into the tail `IsTail` describes, or, for a line count that cannot be compared, TypeError with the cache kept. |
| Values.Instantiate | src/frame/values.py:68-110 | Each getter class writes its renderer default into the caller's settings (the bare getter does not). The getter built, or the exception raised, is exactly `InstancePlan` of the settings given. A tail getter is a fresh object with an empty cache. |
| Values.ShellParserIgnoresRenderer | src/frame/values.py:70-73 | Writing the renderer default does not change which parser the shell getter builds. |
| Values.InstancePlan | src/frame/values.py:68-110 | What `cls(settings)` builds, as a value: a built getter is of the class asked for. It fails exactly when a shell getter has no "cmd" or no buildable parser, or a tail getter has no "path". |
| Values.InstancePlanIgnoresRenderer | src/frame/values.py:70-101 | Writing the renderer default first does not change the getter each class builds. |
| Values.Fetched | src/frame/values.py:29-110 | Defines one call of a getter's `get`, from the images and tail cache before it to those after it, with its result. |
| Values.TailCacheHit | src/frame/values.py:103-110 | A tail getter whose file has not changed returns its previous result and keeps its cache. Whatever it returns is the decoded cache it keeps, and its stored time never goes back. |
| Values.GetterGet | src/frame/values.py:29-110 | One call of `get` does what `Fetched` says: the bare getter returns None; shell returns its parser's result on the command's output or its error; screenshot stores a fresh reference to `screenshot.png` and returns it; tail re-reads only a newer file, moves its stored time forward, and returns the decoded cache (an empty cache is the empty string). Only the screenshot getter touches the images. |
| Values.DisplayName | src/frame/values.py:46 | The display name is the description's "name", falling back to the property's key. |
| Values.UpdateTime | src/frame/values.py:47 | A falsy or missing "poll" means no polling. An int is the period, and True counts as 1. A string is read by `float()`, and one it cannot read is ValueError. A list or dict is TypeError. |
| Values.RendererOf | src/frame/values.py:52 | A property without "renderer" gets the string renderer, non-folding and streaming. A name builds its registered renderer with its default folding, and an unregistered name is "No renderer registered". A dict is built by `RendererFor` with "streaming" set. Anything else is TypeError. |
| Values.DelegateOf | src/frame/values.py:40-52 | `ValueDelegate(name, desc)` computes its fields in source order, and the first exception wins. A built delegate has exactly the display name, update time, getter, the getter's "poll" and the renderer those steps gave. Once the getter is built, a failure is the renderer's error. |
| Values.DefaultRendererIsString | src/frame/values.py:52 | A property that names no renderer is shown by the non-folding string renderer. |
| Values.GetterPlanOf | src/frame/values.py:26 | Defines what `values.make` builds: a name or dict resolved through the registry, then the class's getter and its settings with the renderer default. |
| Values.GetterPlanFacts | src/frame/values.py:26 | A built getter is of the class its settings' "type" names. Its settings keep every key the caller gave except "type", and carry a renderer when its class has a default. |
| Values.MakeGetter | src/frame/values.py:26 | `values.make` builds exactly the getter `GetterPlanOf` describes, with the settings it is left with, or raises that function's error. A tail getter is fresh, with an empty cache. |
| Values.ValuePlan | src/frame/values.py:40-62 | Defines what `make_value` builds, as `DelegateOf` on the getter `GetterPlanOf` describes. |
| Values.DelegateOfPlan | src/frame/values.py:40-52 | A property built from a getter and one built from the getter's plan agree: the same error, or the same fields with the getter replaced by its plan. |
| Values.MakeValue | src/frame/values.py:61-62 | `make_value` builds exactly the property `ValuePlan` describes, or raises its error. A built property has the description's display name, update time and renderer, and a getter. |
| Values.DelegateGet | src/frame/values.py:54-58 | A delegate without a getter raises NotImplementedError. A delegate with the bare getter raises TypeError and leaves the images alone, because that getter's `get` (values.py:32) is not a coroutine and awaiting its None fails. Any other getter does what `Fetched` says of it. |
| Renderers.FindName | src/frame/renderers.py:25-32 | Finds a key's position in the dict being built, or proves the key is absent. |
| Renderers.InsertFacts | src/frame/renderers.py:25-32 | Storing `name: item j` keeps keys unique. It points the name at item j, leaves every other key where it was, and loses no key. |
| Renderers.TableOfStep | src/frame/renderers.py:25-32 | Storing one more item keeps the re-keyed table what it should be. |
| Renderers.StepKeepsLastItems | src/frame/renderers.py:25-32 | After storing item j, each name points at the last item so far that carries it. |
| Renderers.StepKeepsNames | src/frame/renderers.py:25-32 | After storing item j, every item so far has its name in the table. |
| Renderers.InsertFinds | src/frame/renderers.py:25-32 | A name already in the table, or the one just stored, can be found after storing. |
| Renderers.RekeyTable | src/frame/renderers.py:25-32 | The re-keying comprehension succeeds exactly when every item has a usable `_name`. Then each name occurs once and points at the last item carrying it, so later duplicates win. |
| Renderers.RekeyFirstError | src/frame/renderers.py:25-32 | A failing re-keying raises the error of the first item without a usable name. |
| Renderers.RenderNestedDict | src/frame/renderers.py:11-43 | The imperative `render_nested_dict` equals `NestedHtml`: `str` of a non-dict, otherwise one div per key. |
| Renderers.NestedHtml | src/frame/renderers.py:11-43 | Defines `render_nested_dict`: `str` of a non-dict, otherwise one div per key from `EntriesHtml`. |
| Renderers.PrependPrepend | src/frame/renderers.py:20-42 | Prefixing twice is prefixing with the concatenation. |
| Renderers.RenderEntries | src/frame/renderers.py:20-42 | The `html +=` loop over a dict's entries equals `EntriesHtml`. An entry that raises ends the rendering with its error. |
| Renderers.RenderValue | src/frame/renderers.py:23-40 | What follows a key: a nested dict one level deeper after a line break, a list by its own rules, or `str` of the value. |
| Renderers.EntriesSkip | src/frame/renderers.py:32 | A deleted `_name` key of a re-keyed item adds nothing to the output. |
| Renderers.EntriesStep | src/frame/renderers.py:20-42 | One iteration of the loop appends the entry's div, or ends the rendering with the entry's error. |
| Renderers.RenderList | src/frame/renderers.py:24-38 | A list value equals `ListHtml`: an empty list is IndexError, a first item that is not a dict is AttributeError, a truthy `_name` re-keys, and anything else is a bullet list. |
| Renderers.RenderRekeyed | src/frame/renderers.py:25-32 | The re-keyed dict is rendered one level deeper, one div per name, each item after a line break without its `_name` key. |
| Renderers.RekeyedStep | src/frame/renderers.py:25-32 | One re-keyed name appends its div to the output. |
| Renderers.RenderItems | src/frame/renderers.py:33-38 | The bullet list has one `<li>` per item, each rendered at indent 0, in order. |
| Renderers.ListFreeRenders | src/frame/renderers.py:11-43 | Data without lists never raises: rendering a list-free value always succeeds. |
| Renderers.ListFreeEntriesRender | src/frame/renderers.py:20-42 | The entries of a list-free dict always render. |
| Renderers.EntriesHtmlSuffix | src/frame/renderers.py:20-42 | Rendering depends only on the remaining entries, not on the dict around them. |
| Renderers.EntryHtmlSame | src/frame/renderers.py:20-42 | The same entry renders the same div in any dict. |
| Renderers.JoinPrepend | src/frame/renderers.py:20-42 | Concatenating a prefixed result is prefixing the concatenation. |
| Renderers.NestedHtmlSplits | src/frame/renderers.py:11-43 | A dict of entries `a + b` renders as the rendering of `a` followed by the rendering of `b`, in key order. An error in `a` stops before `b`. |
| Renderers.SplitFrom | src/frame/renderers.py:20-42 | The splitting holds from every position of `a` on. |
| Renderers.OneKey | src/frame/renderers.py:11-43 | A single key gives its one div with margin `indent * 20`. The div holds the nested dict one level deeper after a line break, or the value as `str`. |
| Renderers.RendererFor | src/frame/renderers.py:122-134 | A renderer needs a "type": missing is KeyError, unhashable is TypeError, unregistered is "No renderer registered". A built renderer is of the registered kind, always streams, and folds as "folding" says or by its class's default (JSON and image fold). |
| Renderers.StreamingFlagIgnored | src/frame/renderers.py:108-110 | The "streaming" setting written into the settings has no effect on the renderer built. |
| Renderers.MakeRenderer | src/frame/renderers.py:122-134 | `make_renderer` writes "streaming" into the caller's dict and then builds exactly `RendererFor` of it. A bare name stands for `{"type": name}`. |
| Renderers.SimpleStreamsIff | src/frame/renderers.py:79-97 | A simple value's HTML starts with the streaming script exactly when streaming is on. |
| Renderers.RenderListItem | src/frame/renderers.py:115-119 | `render_list_item` uses the folding template when "folding" is truthy, and the simple one otherwise. |
| Renderers.ListItemsStream | src/frame/renderers.py:108-134 | Every list item of a renderer made by `make_renderer` starts with the streaming script, because `streaming` is always set. |
| Renderers.StreamingListItem | src/frame/renderers.py:57-97 | A streaming renderer's list item is the script followed by the container its folding selects. |
| Renderers.StatusIsTwoValued | src/frame/renderers.py:154-162 | The status renderer shows Good exactly for truthy data, and Error exactly for falsy data. |
| Renderers.RenderData | src/frame/renderers.py:140-162 | `render_data` raises exactly for an image renderer given non-image data, which is AttributeError, or for a JSON renderer whose nested rendering raises. |
| Renderers.RenderDataTotal | src/frame/renderers.py:140-162 | The string and status renderers never raise. The JSON renderer never raises on list-free data. |
| Actions.TopLevel | src/frame/actions.py:69 | The top-level part of a key is its longest prefix without a dot, and is followed by a dot unless it is the whole key. |
| Actions.TopLevelUnique | src/frame/actions.py:69 | That description fixes the top-level part uniquely. |
| Actions.UnderMembers | src/frame/actions.py:80-87 | A pair is in the nested dict for `name.` exactly when the prefixed pair is in the accessor. |
| Actions.UnderUnique | src/frame/actions.py:80-87 | The nested dict repeats no key when the accessor does not. |
| Actions.Accessor.Keys | src/frame/actions.py:64-72 | `keys()` is exactly the set of top-level parts of the keys. |
| Actions.Accessor.GetAttr | src/frame/actions.py:74-94 | A direct key returns its value. Otherwise the nested accessor of the `name.` keys is returned, or, when there are none, AttributeError. |
| Actions.Accessor.GetItem | src/frame/actions.py:96-101 | Indexing behaves as attribute access, except that the missing case is KeyError of the key. |
| Actions.UnderSnoc | src/frame/actions.py:82-87 | One more entry adds its suffix to the nested dict exactly when it has the prefix. |
| Actions.Lower | src/frame/actions.py:113-116 | Lower-casing keeps the length and maps each letter. |
| Actions.Normalize | src/frame/actions.py:113-118 | The rendered condition is True exactly for true/yes/1 and False exactly for false/no/0, ignoring case. Any other text stays as it is. |
| Actions.Step | src/frame/actions.py:109-128 | A call stores the normalised value. It fires exactly when there was a previous value, the value changed, and the new value is truthy. It fires with that value. |
| Actions.SteadyFiresAtMostOnce | src/frame/actions.py:120-128 | A constant rendered condition fires at most once, and never on a first call. |
| Actions.Quiet | src/frame/actions.py:124-128 | A condition that keeps rendering its stored value never fires. |
| Actions.FiredTruthy | src/frame/actions.py:127-128 | Everything a condition fires with is truthy. |
| Actions.Condition.constructor | src/frame/actions.py:104-107 | A new condition has no stored value. |
| Actions.Condition.Call | src/frame/actions.py:109-128 | Calling the condition updates its stored value and fires as `Step` says. |
| Actions.MakeHeader | src/frame/actions.py:21-25 | An action needs "name" (KeyError otherwise). Its name and display name are that value, and its url is `/action/<name>`. |
| Actions.UrlNamesAction | src/frame/actions.py:24 | Two actions with string names and the same url have the same name. |
| Actions.SequenceCall | src/frame/actions.py:157-160 | The sequence action calls its actions in order with the same parameters and stops at the first that raises, returning that error. It returns None when every call succeeds. |
| Actions.Flatten | src/frame/actions.py:174 | The OSC message lists each parameter's key followed by its value, in order. |
| Base.DictGet | src/frame/values.py:46 | `d.get(k)` is absent exactly when no pair has key k, and otherwise is the value of some pair with key k. |
| Base.SettingsDict.constructor | src/frame/registry.py:26 | A settings dict holds the items it was made with. |
| Base.NatToString | src/frame/renderers.py:21 | A natural number prints as its decimal digits, which read back to the number, with no leading zero. |
| Base.ToSettingsGet | src/frame/values.py:26 | The string-keyed settings of a dict hold exactly its string keys, each with the value `get` finds. |
| Base.DictGetDistinct | src/frame/model.py:22-36 | In a dict without repeated keys, each pair's key finds that pair's value. |
| Model.Keys | src/frame/model.py:22-36 | The property order is the dict's keys, in order. |
| Model.ParseModel | src/frame/model.py:22-36 | `parse_model` raises AttributeError for a non-dict model. Otherwise it fails exactly when `Table` over `ValuePlan` fails, with the first failing entry's error. A built table is that table, holds exactly the model's keys in order, and each property is made from its own description. |
| Model.ActionOf | src/frame/actions.py:35-40 | `make_action` on a non-dict description cannot write the name, so it raises TypeError. |
| Model.ActionOfFacts | src/frame/actions.py:35-40 | A dict without "type" is KeyError. A made action has its key as name, display name and url segment, carries the name in its settings, and is of the class registered for its final "type". |
| Model.ModelStep | src/frame/model.py:26-36 | One iteration of `parse_model` keeps the table and its order in step with the entries read. |
| Model.PlanMapStep | src/frame/model.py:26-36 | Adding a property to the table adds its plan to the table of plans. |
| Model.MakeAction | src/frame/actions.py:35-40 | The method builds exactly `ActionOf` with the action registry's tables. |
| Model.MakerNames | src/frame/actions.py:35-40 | Every action `make_action` builds is named by the key it was made for. |
| Model.Table | src/frame/model.py:22-44 | Defines the table `parse_model` and `parse_actions` build from the first n entries: each entry's value filed under its key, or the exception of the first failing entry. |
| Model.TableErrorPersists | src/frame/model.py:22-44 | Once an entry has failed, later entries do not change the outcome. |
| Model.TableOk | src/frame/model.py:22-44 | The table is built exactly when every entry builds. |
| Model.TableFirstError | src/frame/model.py:22-44 | A failed table fails with the error of its first failing entry, every earlier entry having built. |
| Model.TableKeys | src/frame/model.py:22-44 | A built table holds exactly the entries' keys, each with a value made from an entry of that key. |
| Model.ActionsNamed | src/frame/model.py:38-44 | A built action table holds exactly the entries' names, each with an action named by it. |
| Model.TableNext | src/frame/model.py:22-44 | One more entry adds its value under its key, or ends the table with its error. |
| Model.KeysSnoc | src/frame/model.py:38-44 | One more entry adds exactly its key. |
| Model.ParseActions | src/frame/model.py:38-44 | `parse_actions` raises AttributeError for a non-dict, and otherwise returns exactly `Table` of `make_action` over all entries. |
| Model.ParseSettings | src/frame/model.py:19-20 | The settings are kept as given. |
| Model.Config.constructor | src/frame/model.py:12-17 | A configuration holds the path, settings, properties, their order, actions and project name it was given, and is valid (each property listed once in order, each action filed under its name) when the tables it is given are. `Model.Load` is `__init__` as a whole. |
| Model.Config.GetProperties | src/frame/model.py:46-47 | The listed properties are exactly the model's keys, each listed once. |
| Model.Config.GetProperty | src/frame/model.py:49-50 | A known property is returned, and an unknown one is KeyError. |
| Model.Config.Do | src/frame/model.py:58-59 | `do` calls the named action with the parameters, and an unknown name is KeyError. |
| Model.Config.GetRendered | src/frame/model.py:61-64 | An unknown property is KeyError. Otherwise the property's getter fetches the data as `Fetched` says of the shell, screenshot and tail getters, and its renderer renders it, or the getter's error is returned. A property without a getter is NotImplementedError, and one with the bare getter raises the TypeError of awaiting None. |
| Model.Config.RenderOutput | src/frame/model.py:66-68 | `render_output` of an unknown property is KeyError. Otherwise it is the property renderer's list item with the property's name as both name and path: the folding template when folding is truthy, the simple one otherwise. |
| Model.RenderOutputIgnoresPath | src/frame/model.py:66-68 | The `path` argument of `render_output` never changes its result. |
| Model.ListedPropertiesResolve | src/frame/model.py:46-50 | Every listed property can be looked up. |
| Model.Loaded | src/frame/model.py:12-44 | Defines what `Config(config)` builds: the property table and the action table, or the first exception in the order the constructor meets them. |
| Model.LoadedFacts | src/frame/model.py:12-44 | A loaded configuration has one property per model key and one action per actions key, each action filed under its own name. Given dict tables, it fails exactly when some entry fails. |
| Model.Load | src/frame/model.py:12-17 | `Config(config)` builds exactly what `Loaded` describes, or raises its first exception: a non-dict configuration, a non-dict model or actions table, or the first failing entry. A loaded one has the configuration's path, settings, project name and property order, and every action is filed under its own name. |

## Left out

- I/O and concurrency are not modelled:
  - running shell commands (`shell.py` is not part of this model);
  - reading files and their modification times;
  - the asyncio event loop;
  - the web layer (`main.py`, `cli.py`);
  - the reactive subscription engine behind `config.subscribe`.

  Their results are parameters (`Values.World`), and a command's output is a string handed to the parser. Their failures are not modelled: a command that exits non-zero (which makes the shell and screenshot getters raise, the latter after storing its reference) and a missing file in the tail getter.
- The regular-expression engine, `match.group` and `json.loads` are parameters (`Parsers.Engine`). Their own behaviour is not modelled.
- `float()` of a string is the parameter `parseFloat`, and poll periods are integers. Floating point is not modelled.
- The UTF-8 decoding of `tail_lines` (line 22) is the parameter `decode`. `Utility.TailLines` works on bytes.
- The uuids (renderer list-item ids, the image tag's query string) are parameters.
- `tempfile` and `os.path.join` are parameters (`dir`, `join`), not a file system.
- Jinja templates:
  - The condition template's rendering is its rendered string, given as input to `Actions.Condition.Call`.
  - The notification message template is not modelled.
  - The HTML templates of the list items are kept with their whitespace condensed.
- The key order of merged registry settings is not kept (`Settings` is a map), and neither is the insertion order of the action table (a map). Configuration dicts keep their order.
- Each merged dict with no repeated keys is given by a precondition (`Model.Load`, `Model.ParseModel` require distinct keys), as Python dicts cannot repeat a key.
- `repr()` escaping of quotes and special characters inside strings is not modelled. `str` of an image reference object is the constant `ObjectStr`, without its address.
- On a re-keyed list, `render_nested_dict` deletes `"_name"` from the caller's items in place. The model skips that key when rendering and does not return the mutated items. The `print` in `render_nested_dict` is not modelled.
- Registration at import time is modelled by constant name sets (`Parsers.Registered`, `Renderers.KindOf`, `Values.GetterClasses`): the `__init_subclass__` hooks and the module-level registries.
- Actions:
  - The action subclasses' own settings and calls are not modelled: shell, notification and OSC beyond the flattening of its message.
  - The notification targets and the OSC UDP client are not modelled.
  - `Actions.SequenceCall` takes the outcome of each called action as a parameter.
- Call sites that do not match the definitions they call are not modelled. The model follows each callee's definition instead:
  - `actions.py:32` builds the registry with two arguments.
  - `actions.py:37-40` passes `config=` to `make`.
  - `model.py:27-32` and `model.py:42` call `make_value` and `make_action` with other argument lists.
  - `values.py:73`, `values.py:52`, `actions.py:52`, `actions.py:155` and `actions.py:171` unpack a single return value into two names.
  - `model.py:59` calls `call(params)`, while every action's `call` takes `(params, get_action)` (`actions.py:28`, `54`, `145`, `157`, `173`).
- `Config.set` (`model.py:55-56`) calls a `set` that `ValueDelegate` does not define, so it raises AttributeError; it is not modelled. `Config.get` (`model.py:52-53`) is covered through `Model.Config.GetRendered`, which fetches as it does.
- The tail getter's default renderer "log" (`values.py:95`) names no registered renderer. `Values.LogIsNotARenderer` records this. A property that names no renderer of its own still gets the string renderer, because `ValueDelegate` reads "renderer" from the description, not from the getter's settings.
- Values.DelegateOf: the renderer field is the renderer `make_renderer` returns. As written, `values.py:52` unpacks that single object into two names, which raises TypeError for every property with a buildable renderer. `Values.MakeValue` and `Model.Load` inherit this.
- Model.Config.Do: `call` stands for an action's two-argument `call(params, get_action)`. As written, `model.py:59` passes only `params`, which raises TypeError for every known action.
- Actions.Lower: it lower-cases ASCII letters only. Python's `str.lower` also maps other Unicode letters, some to more than one character.
- Some in-place writes into the caller's description dicts are not kept: `values.make` writing `"type"` into `desc["get"]` (`registry.py:37`), `make_renderer` writing `"streaming"` into `desc["renderer"]` (`renderers.py:127`), and `make_action` writing `"name"` (`actions.py:36`). The model passes a copy to those calls.
- An image reference is a value determined by the directory, the join and the id (`Images.RefFor`). Object identity of references is not modelled: `make_image_ref` building a new object for the same id is not told apart from the old one.
- Keys are compared as `Value`s: `Renderers.FindName` and `Base.DistinctKeys` treat `True` and `1` as different keys, while a Python dict treats them as the same key.
