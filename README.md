# ConfigurationService, modelled in Dafny

`ConfigurationService` (src/configuration.service.ts) loads a JSON configuration document over
HTTP. It walks the document with jsonpath. Every leaf whose value is a URL and whose path ends
in `Fetch` is loaded in turn and written back into the tree at that leaf's path. The service
keeps four pieces of state:

- `configValues`: the merged tree;
- `configUrls`: the URLs already loaded;
- `objectPaths`: the stringified path of every plain leaf;
- `keys`: the top-level names of the documents loaded at the top level.

It answers `getValue` (by top-level key or by jsonpath expression), `getKeys`,
`getObjectPaths` (optionally filtered by a path prefix) and `getConfigurationUrls`.

The project has six modules:

- `JsonValues` (json_values.dfy): the JSON value datatype, its size, and the well-formedness of
  object member names.
- `SeqUtil` (seq_util.dfy): the array operations the service uses:
  - `indexOf(x) === -1` followed by `push`, written `AppendAbsent`;
  - `startsWith`, `endsWith` and `filter`.
- `JsonPath` (json_path.dfy): the part of the jsonpath library the service relies on:
  - `stringify` of a path and the parser that reads it back;
  - `value` as `Get` and as `Set`;
  - `paths(obj, p + ".*")` as `Children`.
- `Aggregation` (aggregation.dfy): what one pass of `loadAggregatedValues` computes, and two
  reference definitions:
  - the filtered list of the leaves the pass meets;
  - the structural depth-first traversal of the tree.
- `Configuration` (configuration.dfy): the class `ConfigurationService`, with its four fields,
  `Load`, the loop of `loadAggregatedValues`, and the getters.
- `Scenarios` (scenarios.dfy): the test cases of configuration.service.spec.ts, restated on
  the model. These use the settings document, the five-entry API answer and the 404 and text
  responses.

`load` is `async`: everything after `await this.http.get(...)` runs later. The model splits it
at that point:

- `Load` performs the repeat check on `configUrls`.
- `ResumeLoad` is the continuation, given the HTTP response as a parameter.

When `loadAggregatedValues` calls `this.load(url, path, data)`, the repeat check runs before the
pass goes on, and the fetch is left pending. The model therefore has the pass return the list of
`NestedLoad(url, path)` it started. The environment resumes each one later with
`ResumeLoad(url, Some(path), configValues, response)`.

The `is-url` classifier is a parameter of the class (`isUrl: string -> bool`). A response is
given as a status plus a body that is either parsed JSON or unparseable.

Some behaviour of the code is easy to miss. The model keeps it as written:

- `keys` is extended on every top-level load, not only the first (lines 98-105).
- The URL is pushed onto `configUrls` before `response.json()` runs (lines 96-97), so a body
  that fails to parse still leaves the URL marked as loaded.
- An empty object or array has no children. The walk therefore takes the `else` branch for it
  and records its path (lines 126-133).
- Path mode does not catch jsonpath's errors (line 77): a malformed path gives
  `PathSyntaxError`, not `undefined`.
- An `originalObject` that is `null` makes a top-level load, just as a missing one does
  (line 98, predicate `Configuration.TopLevel`).

## Model

| member | source | states |
|---|---|---|
| Configuration.ConfigurationService.constructor | src/configuration.service.ts:19-28 | A new service has no tree and empty URL, path and key lists. |
| Configuration.ConfigurationService.UrlsAfterResume | src/configuration.service.ts:30-32 | `getConfigurationUrls` returns the URLs loaded so far, in load order. Each OK response appends its URL, which happens before the body is parsed, so a parse failure still leaves the URL recorded (lines 95-97). A non-OK response leaves the list unchanged (line 113). A repeated URL leaves it unchanged too, by `Load`'s `unchanged(this)` (lines 91-93). |
| Configuration.ConfigurationService.GetKeys | src/configuration.service.ts:38-40 | The keys returned contain no name twice. |
| Configuration.ConfigurationService.GetObjectPaths | src/configuration.service.ts:49-59 | Without a filter: all object paths. With a filter: exactly the paths that start with the filter, with `$.` put in front when missing. The result keeps the original order (a subsequence) and contains no duplicates. |
| Configuration.ConfigurationService.FilterForms | src/configuration.service.ts:55 | A filter written with or without its `$.` prefix selects the same paths. |
| Configuration.WithRoot | src/configuration.service.ts:55 | The normalised filter or key starts with `$.`. A string that already starts with `$.` is left as it is, and any other string `s` becomes `"$." + s` (also line 77). |
| Configuration.ConfigurationService.GetValue | src/configuration.service.ts:69-83 | Before any load the result is `undefined`. A returned value is never `null`. Key mode never raises a path error. |
| Configuration.Present | src/configuration.service.ts:79-81 | The result is `undefined` exactly when the value is missing or `null`. Otherwise it is the stored value itself, and it is never a path error. |
| Configuration.ConfigurationService.GetValueModesAgree | src/configuration.service.ts:74-78 | For a top-level name in dot form, path mode returns what key mode returns. |
| Configuration.ConfigurationService.GetValueAtPath | src/configuration.service.ts:77 | Path mode on the stringified form of a path that begins with a member name resolves that path in the tree. |
| Configuration.ConfigurationService.Load | src/configuration.service.ts:90-115 | A URL already loaded resolves at once and changes nothing. Any other URL resumes as stated by `Resumed`. The invariant is kept: object paths and keys stay duplicate-free, and the tree is an object or an array. |
| Configuration.ConfigurationService.ResumeLoad | src/configuration.service.ts:94-114 | A non-OK status rejects with `<url> could not be loaded: <status>` and changes nothing. An OK status appends the URL first. An unparseable body then rejects with the parse error. A top-level load appends the document's new top-level names to the keys. A nested load writes the document at its path. A root that is not an object or array rejects. Otherwise the tree is stored, and objectPaths and the nested loads are those of one pass over the root's children. |
| Configuration.ConfigurationService.CollectKeys | src/configuration.service.ts:100-105 | After the loop, keys are the old keys followed, in order, by each name not seen before. |
| Configuration.FirstLoadKeys | src/configuration.service.ts:98-105 | On a first load of an object with distinct member names, the keys are exactly those names in document order. |
| Configuration.NestedLoadSplices | src/configuration.service.ts:106-109 | A nested load puts the response at its path. Everything below that path is read from the response. Every path disjoint from it is unchanged. A path that no longer resolves leaves the tree as it was. |
| Configuration.ConfigurationService.LoadAggregatedValues | src/configuration.service.ts:117-139 | The loop leaves objectPaths, and returns the nested loads, exactly as one `Walk` over `anykeys` defines them. |
| Configuration.ConfigurationService.Visit1 | src/configuration.service.ts:128-134 | On a terminal node, the method does what `Visit` defines. A dereferenced URL not yet loaded starts a nested load. Otherwise a new path string is appended. |
| Aggregation.WalkIsFilteredLeaves | src/configuration.service.ts:117-139 | A pass appends, to objectPaths, the path string of each non-dereferenced leaf it meets, skipping those already there. It starts a nested load for each dereferenced leaf whose URL is not loaded, in the order the leaves are met. |
| Aggregation.VisitIsFiltered | src/configuration.service.ts:128-134 | One terminal node is handled as the one-leaf instance of the filtered pass. |
| Aggregation.PassOnlyAppendsLeaves | src/configuration.service.ts:132-133 | A pass keeps the existing objectPaths as a prefix and creates no duplicate. Every new entry is the path string of a terminal, non-dereferenced leaf below the frontier. |
| Aggregation.RecordedIffNotDereferenced | src/configuration.service.ts:130-133 | A leaf whose path string is new is recorded exactly when it is not dereferenced. |
| Aggregation.NestedIffDereferenced | src/configuration.service.ts:130-131 | A nested load `(u, q)` is started exactly when `q` is a leaf that the pass meets, `q` holds the URL `u`, `q` ends in a `Fetch` member, and `u` is not loaded yet. |
| Aggregation.DereferencesIff | src/configuration.service.ts:130 | `IsUrl(value) && currentPath.endsWith("Fetch")` holds exactly when the value is a URL string and the path's last step is a member whose name ends in `Fetch`. |
| Aggregation.LeavesAreTerminal | src/configuration.service.ts:125-128 | Every leaf the pass meets has no children and lies below some frontier path. When the frontier resolves, so does every leaf. |
| Aggregation.RootLeavesDepthFirst | src/configuration.service.ts:110-127 | Starting from the root's children, the pass meets the leaves of a well-formed tree in the depth-first, member-order and index-order sequence. |
| Aggregation.PassFromRoot | src/configuration.service.ts:110-139 | The whole pass from the root equals the filtered structural traversal. |
| Aggregation.RecordedConcat | src/configuration.service.ts:120-136 | The recorded strings of two runs of leaves are those of the first run followed by those of the second. |
| Aggregation.NestedConcat | src/configuration.service.ts:120-136 | The nested loads of two runs of leaves are those of the first run followed by those of the second. |
| Aggregation.RecordedMembers | src/configuration.service.ts:130-133 | A string is recorded exactly when it is the path string of a non-dereferenced leaf. |
| Aggregation.NestedMembers | src/configuration.service.ts:130-131 | A nested load is listed exactly when its leaf is dereferenced and its URL is not loaded. |
| Aggregation.AllPlain | src/configuration.service.ts:132-133 | When no leaf is dereferenced, every path string is recorded and no load is started. |
| Aggregation.LeafOneIsTreeLeaves | src/configuration.service.ts:125-127 | Expanding one well-formed node by repeated `.*` gives its structural leaves. |
| JsonPath.ParseStringify | src/configuration.service.ts:124-125 | Parsing the string that `JsonPath.stringify` makes of a dot-form path gives the path back. |
| JsonPath.StringifyInjective | src/configuration.service.ts:124 | Distinct dot-form paths have distinct path strings, so `indexOf` on strings tells paths apart. |
| JsonPath.NatToStringDigits | src/configuration.service.ts:113 | The decimal spelling of a number is a non-empty digit string. It denotes the number and has no leading zero. |
| JsonPath.FetchSuffix | src/configuration.service.ts:130 | A path string ends in `Fetch` exactly when the path's last step is a member whose name ends in `Fetch`. An index step never does. |
| JsonPath.Children | src/configuration.service.ts:125 | Every child path is the parent path plus one step. There are children exactly when the node is a non-empty object or array. |
| JsonPath.ChildrenSmaller | src/configuration.service.ts:125-127 | Every child resolves and is strictly smaller than its parent, so the recursion terminates. |
| JsonPath.ChildrenOfWellFormed | src/configuration.service.ts:125 | The i-th child path reads the i-th member or item. |
| JsonPath.GetConcat | src/configuration.service.ts:129 | Reading `p + q` is the same as reading `q` inside the value at `p`. |
| JsonPath.SetThenGet | src/configuration.service.ts:108 | After `JsonPath.value(o, p, v)` on a resolving path, `p` leads to `v`, and everything below `p` is read from `v`. |
| JsonPath.SetKeepsDisjoint | src/configuration.service.ts:108 | The write leaves every path disjoint from `p` as it was. |
| JsonPath.SetMissing | src/configuration.service.ts:108 | Writing at a path that does not resolve changes nothing. |
| JsonPath.DotNamesPath | src/configuration.service.ts:124 | In a tree whose member names are in dot form, every resolving path is in dot form. |
| Scenarios.LoadSettingsFirst | src/configuration.service.spec.ts:203-209 | After `load("settings.json")`, the keys are `complexObject, simpleNumber, simpleString, endpointFetch`. The four plain leaves are recorded. One nested load is started, for the API URL at `$.endpointFetch`. |
| Scenarios.SettingsKeysFirst | src/configuration.service.spec.ts:205-207 | The for-in over the settings document collects exactly those four names. |
| Scenarios.LoadSettings | src/configuration.service.spec.ts:214-220 | Once the nested load has been resumed, the tree has the API answer at `endpointFetch`. Object paths are the 14 strings of the test, in its order. The URLs are the settings URL and then the API URL. |
| Scenarios.MergedPass | src/configuration.service.spec.ts:216-218 | The pass over the merged tree appends the ten entry paths behind the first four and starts no load. |
| Scenarios.ReadByKey | src/configuration.service.spec.ts:134-161 | Key mode reads `"abc"`, `42`, the complex object, and `undefined` for an unknown key. |
| Scenarios.ReadByPath | src/configuration.service.spec.ts:171-198 | Path mode reads the same four values. |
| Scenarios.ReadBeforeLoad | src/configuration.service.spec.ts:129-132 | Before any load, both modes give `undefined` (also lines 166-169). |
| Scenarios.FilterPaths | src/configuration.service.spec.ts:225-239 | Filtering by `complexObject` and by `$.complexObject` both give the two `complexObject` paths. |
| Scenarios.LoadMissing | src/configuration.service.spec.ts:107-115 | A 404 rejects with `unknown.json could not be loaded: 404` and records no URL. |
| Scenarios.MissingMessage | src/configuration.service.spec.ts:112 | The message for `unknown.json` and status 404 is spelled as the test expects. |
| Scenarios.LoadText | src/configuration.service.spec.ts:117-124 | A text body rejects with the parse error. The URL is recorded before the failure, and no key is added. |
| Scenarios.LoadTwice | src/configuration.service.ts:91-93 | Loading the settings URL a second time resolves at once and leaves objectPaths as they were. |

## Left out

- HTTP, `toPromise`, dependency injection and promise scheduling are not modelled. A response is a parameter of `Load`/`ResumeLoad`, and when a nested load is resumed is up to the caller.
- Races between in-flight loads are not modelled, for example two loads of one URL that both pass the repeat check before either response arrives. Lines 214-220 of the test read the object paths right after the top-level promise settles, without awaiting the nested load it started. The model resumes that nested load explicitly (`Scenarios.LoadSettings`) before reading.
- Aliasing is not modelled: a nested load in the source writes into whatever object was current when it was started. The model resumes it on the current `configValues`. A second top-level load that replaces the tree while nested loads are pending is not modelled.
- The `is-url` package is not modelled; its regular expression is the `isUrl` parameter.
- JSON text parsing is not modelled; the body arrives already parsed or marked unparseable.
- Numbers are integers; floating point is not modelled.
- JavaScript's enumeration order of integer-like member names in `for...in` and in `paths(obj, "*")` is not modelled; members are taken in document order.
- JavaScript property coercion is not modelled: a numeric member name does not select an array item, an index does not select a member, and inherited properties are ignored.
- The general jsonpath language is not modelled: filters, slices, recursive descent and bracket-quoted names. `Stringify` always writes a member as `.name`. jsonpath writes `["name"]` for a name that is not an identifier, for example one that contains `-` or a space, and such a path would not end in `Fetch`; that case is not modelled. `Parse` reads only the `.name`/`[i]` form, for names without `.` or `[`. Any other path-mode key is a `PathSyntaxError`. As a result, `Parse`, path-mode `GetValue` and `GetValueModesAgree` accept a non-identifier name such as `my-key` or `a b` after `$.`. jsonpath's own parser may reject such a name or read it differently, and the model does not capture that.
- The getters return snapshots: `GetConfigurationUrls`, `GetKeys`, `GetObjectPaths` and `GetValue` return immutable values. The source returns its own arrays at lines 31, 39 and 52, and a subtree of the stored tree at lines 75 and 77. So in the source, a holder of the result sees later loads, and a caller's `push` onto a returned array changes the service's index, which can defeat the repeat checks of lines 101 and 132. The model does not capture this sharing.
- JsonPath.Set: jsonpath's creation of missing intermediate nodes when writing to a path that does not resolve is not modelled; such a write changes nothing.
- Configuration.ConfigurationService.GetValue: path mode on a root that is an array (a key such as `[0]`, normalised to `$.[0]`) is a syntax error in the model. jsonpath's handling of that form is not modelled.
- The unused `configurationUrls` parameter and the returned `currentData` of `loadAggregatedValues` are not modelled. Neither are the `anykeys !== null` and `anykey == null` guards, because `paths` never yields null.
