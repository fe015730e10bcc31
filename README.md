# electron-data in Dafny

A model of electron-data, a small settings store for desktop applications:
one module-wide record holds a data object, the options and a file path, and
the store writes the whole data object to one JSON file. The model covers the
operations the module exports (`config`, `getOptions`, `has`, `get`, `set`,
`unset`, `clear`, `save`, `__getAll`, `__setAll`) and the `.json` extension
test that `config` uses to normalise the file name.

Files and modules:

- `wrappers.dfy` — `Wrappers.Option`, JavaScript's "absent".
- `json.dfy` — `Json`: the JSON data model a saved file holds.
- `js_value.dfy` — `JsValue`: the JavaScript values the store is given
  (`undefined`, `null`, booleans, finite numbers, `NaN`, the infinities,
  strings, arrays, objects), ECMAScript truthiness (for `!key` and `!data`),
  what `JSON.stringify` writes (`ToJson`), what `JSON.parse` reads back
  (`Embed`), and the round trips between them.
- `properties.dfy` — `Properties`: a JavaScript object's own properties as an
  insertion-ordered list, with `hasOwnProperty`/read (`Get`), assignment
  (`Put`), `delete` (`Remove`) and `Object.assign` (`Assign`), and their laws.
- `json_ext.dfy` — `JsonExt`: the regular-expression test `/(\.json)$/g`,
  including the `lastIndex` a global regex carries between tests.
- `electron_data.dfy` — `ElectronData`: options, errors, what a save writes,
  and the class `Store` whose fields are the module's `self.data`,
  `self.options`, `self.filepath` and `def_options`. Its methods update those
  fields in place. Each write that lands is appended to the ghost log
  `saves` as a `SaveRecord` (file path, JSON content, layout).
- `client.dfy` — `ElectronDataClient`: walkthroughs through calls like
  those the repository's test suite makes, proved from the store's
  contracts alone.

The invariant `Store.Valid()` says the data's property names are distinct,
that once configured `self.options` is the `def_options` object itself (so
later `config` calls build on earlier ones), and that the file path is the
options' path joined to the normalised file name.

The model follows `index.js` where other parts of the repository expect
more of it:

- `save` (index.js:126-131) writes only `self.data` and never a
  `lastUpdate` field, although `__test__/test.js:294-310` expects one in
  the file. The `lastUpdate` option (index.js:15) is stored and never read.
- `config` (index.js:28-35) reads nothing from disk, so an existing file's
  contents never reach `self.data`.
- The default directory is `<home>/.electron-app` (index.js:12).
- `__setAll` (index.js:146-150) does not validate or skip any value, and it
  never saves.
- `unset` (index.js:94-108) resolves to `true` whether or not the key was
  there, because `delete` returns `true` for an own property and for a
  missing one.
- `set`, `__getAll` and `__setAll` (index.js:83, 138, 149) hand back the
  live data object, not a copy.

## Model

| member | source | states |
|---|---|---|
| `JsonExt.Test` | lib/has-json-ext.js:11-13 | a global-regex test started at `lastIndex` matches exactly when the name ends with `.json` and the scan starts no later than five characters from the end; afterwards `lastIndex` is the end of the name on a match and 0 otherwise |
| `JsonExt.HasJsonExt` | lib/has-json-ext.js:10-14 | true exactly when the file name ends with the five characters `.json` |
| `JsonExt.ExtAppended` | lib/has-json-ext.js:11-13 | for every string `s`, `s + ".json"` is accepted |
| `JsonExt.Examples` | lib/has-json-ext.js:11-13 | case-sensitive and anchored only at the end: `data.json` and `.json` are accepted; `data`, `data.JSON`, `a.json.bak`, `json` and the empty name are not |
| `JsonExt.SharedRegexWouldAlternate` | lib/has-json-ext.js:10-13 | a regex shared between calls would reject a matching name on its second test and accept it again on the third; building it fresh in every call is what makes repeated calls agree |
| `ElectronData.NormalizedFileName` | index.js:33 | the normalised name always ends with `.json`; a name that already does is kept as it is, and any other name gets `.json` appended |
| `ElectronData.NormalizationIdempotent` | index.js:33 | normalising twice equals normalising once; a name and the same name plus `.json` normalise alike |
| `ElectronData.DataAndDataJsonAreOneFile` | index.js:33-34 | `filename: "data"` and `filename: "data.json"` both give the path `<path>/data.json` |
| `ElectronData.Override` | index.js:30 | every option the given object has takes its value from it, and `config()` with no options leaves the options as they were |
| `ElectronData.ConfigAccumulates` | index.js:30 | two `config` calls act as one call with the merged options, the later call winning; an option the later call omits keeps its earlier value; `config()` with no options changes nothing |
| `ElectronData.SetCheck` | index.js:72-75 | `set` accepts exactly a non-empty string key with a value other than `undefined`/NaN; a falsy key of any type gives "key must be given.", a truthy non-string key gives "key must be a string.", and a non-empty string key with `undefined`/NaN gives "value must be a valid JSON value." |
| `ElectronData.LayoutFor` | index.js:127 | the layout is two-space indentation exactly when `prettysave` is set, and compact otherwise |
| `ElectronData.Snapshot` | index.js:128 | the saved content is a JSON object with a member for every key whose value is defined, and for no other key |
| `ElectronData.SnapshotReadsBack` | index.js:128 | a stored value that is deep JSON is written under its key, and parsing it back gives the very value that was set |
| `ElectronData.SnapshotRoundTrip` | index.js:128 | when every stored value is deep JSON, parsing the saved content gives back exactly the data, keys, values and order included |
| `ElectronData.Store.constructor` | index.js:10-21 | a fresh module has empty data, the empty options object, no file path, no saves, and the documented defaults |
| `ElectronData.Store.Config` | index.js:28-35 | the defaults object takes the given options over its current values and becomes the options; the file path is the path joined to the normalised file name; data is untouched and nothing is saved |
| `ElectronData.Store.GetOptions` | index.js:40-42 | returns the current options, which once configured are the defaults object |
| `ElectronData.Store.Has` | index.js:49-51 | true exactly when the key is an own property of the data |
| `ElectronData.Store.Get` | index.js:58-64 | succeeds exactly when `has(key)` holds, with the value stored under the key; otherwise fails with `No value for: key` |
| `ElectronData.Store.Set` | index.js:71-88 | a refused key or value leaves data and saves unchanged and reports the validation error; otherwise the key holds the value, every other key keeps its value, and the autosave tail follows |
| `ElectronData.Store.AutosaveThen` | index.js:80-84 | with autosave off, resolves at once and writes nothing; with autosave on, saves the mutated data once and resolves after the write lands, or rejects with the write error while the mutation stays |
| `ElectronData.Store.Unset` | index.js:94-108 | an empty key is refused and nothing changes; otherwise the key is gone, the other keys keep their values and order, the result is `true`, and the autosave tail follows |
| `ElectronData.Store.Clear` | index.js:113-121 | the data becomes empty, so two calls in a row both give the empty object; the autosave tail follows |
| `ElectronData.Store.Save` | index.js:126-131 | a landed write appends one record holding the file path, the snapshot of the whole current data and the layout from `prettysave`; a failed write, or a save before `config`, records nothing and reports the error |
| `ElectronData.Store.GetAll` | index.js:137-139 | returns the data itself, whose keys are distinct |
| `ElectronData.Store.SetAll` | index.js:146-150 | a falsy argument is refused; otherwise each property of the argument holds the argument's value, every other existing key keeps its value, no value is validated, and nothing is saved |
| `Properties.Get` | index.js:49-63 | a value is found exactly when the key is an own property name, and it is the value of that property |
| `Properties.Put` | index.js:78 | after `obj[key] = value` the object has the property `key: value`, and it has as many properties as before or one more |
| `Properties.PutGet` | index.js:78 | after assignment the key holds the new value and every other key holds its old value |
| `Properties.PutKeys` | index.js:78 | assignment keeps the order of the names and appends a new name last |
| `Properties.PutDistinct` | index.js:78 | assignment keeps the property names distinct |
| `Properties.PutNewKeyAppends` | index.js:78 | assigning a new name appends exactly one property |
| `Properties.Remove` | index.js:98 | after `delete obj[key]` the properties are exactly the old ones not named `key` |
| `Properties.RemoveGet` | index.js:98 | after `delete` the key is absent and every other key holds its old value |
| `Properties.RemoveKeys` | index.js:98 | after `delete` the remaining names are the old ones, in order, without the key |
| `Properties.RemoveDistinct` | index.js:98 | `delete` keeps the property names distinct |
| `Properties.Last` | index.js:148 | a source's last value for a key exists exactly when the key is one of the source's names |
| `Properties.LastIsGet` | index.js:148 | in an object with distinct names the last value for a key is its only value |
| `Properties.Assign` | index.js:148 | `Object.assign` leaves the target with at least as many properties as before, and the source's last property is one of them |
| `Properties.AssignGet` | index.js:148 | after `Object.assign(target, source)` each source name holds the source's (last) value, and every other target name keeps its value |
| `Properties.AssignDistinct` | index.js:148 | `Object.assign` keeps the target's names distinct |
| `Properties.AssignAppendsNewKeys` | index.js:148 | assigning properties whose names are all new appends them in order |
| `Properties.CopyIsIdentity` | index.js:148 | `Object.assign({}, data)` is the data itself, properties and order included |
| `Properties.SourceProps` | index.js:148 | `Object.assign` copies an object's own properties as they are, an array's elements and a string's characters under their decimal indices `"0"`, `"1"`, …, and nothing from any other value |
| `Properties.WrittenNamesUnique` | index.js:128 | a value whose objects have distinct names at every depth (every JavaScript value) is written as JSON whose objects have distinct member names at every depth |
| `Properties.WrittenDataNamesUnique` | index.js:128 | the saved object of data holding such values has distinct member names at every depth, so `JSON.parse` reads it member for member |
| `JsValue.Truthy` | index.js:72 | a value is falsy (`!key` here, and `!key` and `!data` at index.js:95 and 147) exactly when it is `undefined`, `null`, NaN, `false`, `0` or the empty string |
| `JsValue.ToJson` | index.js:128 | `JSON.stringify` writes nothing exactly for `undefined`; everything else gives a JSON value |
| `JsValue.ItemsToJson` | index.js:128 | every array element is written, so the written array is as long as the original |
| `JsValue.PropsToJson` | index.js:128 | an object is written with no more members than properties, and a name appears exactly when some property of that name holds a defined value |
| `JsValue.Embed` | __test__/test.js:234 | parsing never yields `undefined` or NaN at the top |
| `JsValue.WriteAfterRead` | __test__/test.js:234 | writing a parsed JSON value whose objects have distinct member names gives back the same JSON |
| `JsValue.ReadAfterWrite` | index.js:128 | a deep JSON value is written as some JSON value that parses back to exactly the original value |
| `JsValue.EmbedIsDeepJson` | __test__/test.js:260 | everything parsed from a file is deep JSON |
| `JsValue.NestedValuesAreNotChecked` | index.js:75 | the check lets through values that are not written losslessly: an infinity is accepted and written as `null`, and since only the top level is inspected an array holding NaN and an object holding `undefined` pass it and are written as `[null]` and `{}` |

## Left out

- The disk write and the creation of the directory (`fs.outputFile`) are
  foreign I/O. Whether a write lands is the parameter `writeOk`, and a write
  that lands is a record in the ghost log `saves`.
- The exact text `JSON.stringify` produces (spacing and number formatting) is
  not modelled. A save records the JSON value and the layout (indent 2 or
  compact) instead.
- `user-home` is the constructor's parameter `home`. `path.join` is
  modelled as `path + "/" + filename`, without its normalisation of `..`,
  duplicate separators or an empty path.
- Promises are not modelled. Each operation runs to the end and returns a
  `Result`; a rejected promise is an `Err`. A failed write is a rejected
  promise in `clear` (index.js:117) just as in `set` (index.js:81) and
  `unset` (index.js:101). `clear` lacks their `try`/`catch`, which only
  matters for an exception thrown synchronously inside `save`, and none of
  the modelled inputs throws one.
- JavaScript numbers are not floats here. A finite number is a `real`, and
  `NaN` and the infinities are their own tags, so `-0`, rounding and
  `isNaN`'s coercion of non-numbers are out.
- Integer-like property names, which JavaScript enumerates first in numeric
  order, are kept in insertion order. `__proto__` and inherited properties
  are not modelled either.
- Aliasing is not modelled: callers that mutate the object returned by
  `set`, `getOptions`, `__getAll` or `__setAll` would change the store.
- `has`, `get` and `unset` take string keys. JavaScript's conversion of other
  keys to property names is not modelled. `set` takes any value as its key,
  because it checks the key's type.
- `config` takes options of the documented types. Truthy non-boolean option
  values, extra option properties and a non-object argument are not
  modelled.
- `JsValue.Embed` reads a JSON object member for member. `JSON.parse`
  keeps one property per repeated name, with the last value, so the two
  agree only on JSON whose objects have distinct names (`UniqueNames`),
  which `WriteAfterRead` requires. `Store.Valid()` keeps only the top-level
  data's names distinct. A `Value` holding an object with a repeated name,
  at any depth, stands for no JavaScript value, and `set` and `__setAll`
  do not require their arguments to avoid one. For values that do
  (`Properties.UniqueKeys`), `Properties.WrittenNamesUnique` shows the file
  is JSON that `JSON.parse` reads member for member.
- `Properties.SourceProps`: `Object.assign` copies a string one property
  per UTF-16 code unit, while the model takes one property per Dafny
  `char`, a Unicode scalar value. A character outside the Basic
  Multilingual Plane is therefore one property here and two in JavaScript
  (`__setAll("\u{1F600}")` gives the keys `"0"` and `"1"` there, `"0"`
  here).
- Functions, symbols, boxed primitives and `toJSON` methods are not
  values of this model.
- `ElectronData.Message`: the texts of the two file-system errors (a save
  before `config`, a failed write) belong to the file-system library, and
  the model gives them as empty strings.
- The older class-based API exercised by `test/index.js` is not modelled.
  The same holds for `setMany`, `getMany`, `getAll`, `keys` and the
  `lastUpdate` field that `__test__/test.js` expects, since `index.js`
  exports none of them.
