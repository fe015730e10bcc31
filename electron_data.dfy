/** The electron-data store: one module-wide record holding the data object,
    the options and the file path, and the operations `config`,
    `getOptions`, `has`, `get`, `set`, `unset`, `clear`, `save`, `__getAll`
    and `__setAll`. Every operation runs to completion before it returns (the
    promises are not modelled); the outcome of the file write is a parameter,
    and each write that lands is appended to a ghost log of saves. */
module ElectronData {
  import opened Wrappers
  import opened Json
  import opened JsValue
  import Properties
  import JsonExt

  // ---------------------------------------------------------------------
  // Options and the file path

  datatype Options = Options(
    filename: string,
    path: string,
    autosave: bool,
    prettysave: bool,
    lastUpdate: bool)

  /** The object handed to `config`: None for a property it does not have. */
  datatype OptionsPatch = OptionsPatch(
    filename: Option<string>,
    path: Option<string>,
    autosave: Option<bool>,
    prettysave: Option<bool>,
    lastUpdate: Option<bool>)

  /** `config()` with no argument, or with an object without these properties. */
  const NoOptions := OptionsPatch(None, None, None, None, None)

  /** The initial `def_options`, for the user's home directory `home`. */
  function Defaults(home: string): (r: Options)
  {
    Options("data", home + "/.electron-app", false, false, false)
  }

  function Pick<T>(given: Option<T>, current: T): (r: T)
  {
    match given
    case Some(v) => v
    case None => current
  }

  /** `Object.assign(options, patch)`: each property the patch has replaces
      the option's value. */
  function Override(o: Options, p: OptionsPatch): (r: Options)
    ensures p.filename.Some? ==> r.filename == p.filename.value
    ensures p.path.Some? ==> r.path == p.path.value
    ensures p.autosave.Some? ==> r.autosave == p.autosave.value
    ensures p.prettysave.Some? ==> r.prettysave == p.prettysave.value
    ensures p.lastUpdate.Some? ==> r.lastUpdate == p.lastUpdate.value
    ensures p == NoOptions ==> r == o
  {
    Options(
      Pick(p.filename, o.filename),
      Pick(p.path, o.path),
      Pick(p.autosave, o.autosave),
      Pick(p.prettysave, o.prettysave),
      Pick(p.lastUpdate, o.lastUpdate))
  }

  /** One patch applied after another: the later one's properties win. */
  function Then(first: OptionsPatch, second: OptionsPatch): (r: OptionsPatch)
  {
    OptionsPatch(
      if second.filename.Some? then second.filename else first.filename,
      if second.path.Some? then second.path else first.path,
      if second.autosave.Some? then second.autosave else first.autosave,
      if second.prettysave.Some? then second.prettysave else first.prettysave,
      if second.lastUpdate.Some? then second.lastUpdate else first.lastUpdate)
  }

  /** As `config` merges into the same defaults object every time, two calls
      act as one call with both patches, the later one winning; in
      particular a setting the later call does not mention is kept. */
  lemma ConfigAccumulates(o: Options, first: OptionsPatch, second: OptionsPatch)
    ensures Override(Override(o, first), second) == Override(o, Then(first, second))
    ensures second.autosave.None? ==> Override(Override(o, first), second).autosave == Override(o, first).autosave
    ensures Override(o, NoOptions) == o
  {
  }

  /** The file name with `.json` appended unless it already ends so. */
  function NormalizedFileName(filename: string): (r: string)
    ensures JsonExt.HasJsonExt(r)
    ensures JsonExt.HasJsonExt(filename) ==> r == filename
    ensures !JsonExt.HasJsonExt(filename) ==> r == filename + JsonExt.Ext
  {
    if JsonExt.HasJsonExt(filename) then filename
    else
      JsonExt.ExtAppended(filename);
      filename + JsonExt.Ext
  }

  /** Normalising twice is normalising once, and a name with or without its
      `.json` names the same file. */
  lemma NormalizationIdempotent(filename: string)
    ensures NormalizedFileName(NormalizedFileName(filename)) == NormalizedFileName(filename)
    ensures !JsonExt.HasJsonExt(filename) ==>
      NormalizedFileName(filename + JsonExt.Ext) == NormalizedFileName(filename)
  {
    JsonExt.ExtAppended(filename);
  }

  /** The file the store is saved to (the directory joined to the file name). */
  function FilePath(o: Options): (r: string)
  {
    o.path + "/" + NormalizedFileName(o.filename)
  }

  /** `filename: "data"` and `filename: "data.json"` both save to `<path>/data.json`. */
  lemma DataAndDataJsonAreOneFile(o: Options)
    ensures FilePath(o.(filename := "data")) == o.path + "/data.json"
    ensures FilePath(o.(filename := "data.json")) == o.path + "/data.json"
  {
    assert !JsonExt.HasJsonExt("data");
    assert "data" + JsonExt.Ext == "data.json";
    assert "data.json"[4..] == JsonExt.Ext;
  }

  // ---------------------------------------------------------------------
  // Errors and results

  datatype Error =
    | KeyNotGiven             // a falsy key
    | KeyNotString            // a truthy key that is not a string
    | InvalidValue            // `undefined` or NaN given to `set`
    | NoValueFor(key: string) // `get` of a key the data does not have
    | DataNotGiven            // a falsy argument to `__setAll`
    | NoFilePath              // `save` before `config`: the file path is undefined
    | WriteFailed(path: string)

  /** The message the source rejects with (the two file-system errors are
      worded by the file-system library, which is not part of this model). */
  function Message(e: Error): (r: string)
  {
    match e
    case KeyNotGiven => "key must be given."
    case KeyNotString => "key must be a string."
    case InvalidValue => "value must be a valid JSON value. See http://www.json.org/"
    case NoValueFor(key) => "No value for: " + key
    case DataNotGiven => "data must be given."
    case NoFilePath => ""
    case WriteFailed(_) => ""
  }

  datatype Result<T> = Ok(value: T) | Err(error: Error)

  /** The validation `set` performs before it changes anything, in the
      source's order: a falsy key first, then a key that is not a string,
      then an unrepresentable value. */
  function SetCheck(key: Value, value: Value): (r: Option<Error>)
    ensures r.None? <==> key.Str? && key.s != "" && !Unrepresentable(value)
    ensures r == Some(KeyNotGiven) <==> !Truthy(key)
    ensures r == Some(KeyNotString) <==> Truthy(key) && !key.Str?
    ensures r == Some(InvalidValue) <==> Truthy(key) && key.Str? && Unrepresentable(value)
  {
    if !Truthy(key) then Some(KeyNotGiven)
    else if !key.Str? then Some(KeyNotString)
    else if Unrepresentable(value) then Some(InvalidValue)
    else None
  }

  // ---------------------------------------------------------------------
  // What a save writes

  /** `JSON.stringify(data, null, 2)` or `JSON.stringify(data, null, null)`. */
  datatype Layout = Compact | Indented(spaces: nat)

  /** One landed write: the file, the JSON it holds and its layout. */
  datatype SaveRecord = SaveRecord(path: string, content: Json, layout: Layout)

  /** The JSON object `JSON.stringify` makes of the data: its properties in
      order, those holding `undefined` left out. */
  function Snapshot(data: seq<Prop>): (j: Json)
    ensures j.JObj?
    ensures forall name :: name in Names(j.members) <==> DefinedKey(data, name)
  {
    ToJson(Obj(data)).value
  }

  /** Two-space indentation when `prettysave` is set, compact otherwise
      (before `config` the options object is empty and `prettysave` unset). */
  function LayoutFor(options: Option<Options>): (l: Layout)
    ensures l == Indented(2) <==> options.Some? && options.value.prettysave
    ensures l != Indented(2) ==> l == Compact
  {
    if options.Some? && options.value.prettysave then Indented(2) else Compact
  }

  /** A stored value that is deep JSON is written under its key and is read
      back from the file exactly as it was set. */
  lemma {:induction false} SnapshotReadsBack(data: seq<Prop>, key: string, v: Value)
    requires Properties.Get(data, key) == Some(v) && DeepJson(v)
    ensures exists m :: m in Snapshot(data).members && m.name == key && Embed(m.value) == v
  {
    assert Snapshot(data).members == PropsToJson(data);
    if data[0].key == key {
      ReadAfterWrite(v);
      var m := Member(key, ToJson(v).value);
      assert m in Snapshot(data).members;
    } else {
      SnapshotReadsBack(data[1..], key, v);
      var m :| m in Snapshot(data[1..]).members && m.name == key && Embed(m.value) == v;
      assert Snapshot(data[1..]).members == PropsToJson(data[1..]);
    }
  }

  /** The whole file reads back as exactly the data, keys, values and
      order included, when every stored value is deep JSON. */
  lemma SnapshotRoundTrip(data: seq<Prop>)
    requires AllPropsDeepJson(data)
    ensures Embed(Snapshot(data)) == Obj(data)
  {
    ReadAfterWrite(Obj(data));
  }

  // ---------------------------------------------------------------------
  // The store

  class Store {
    /** `self.data`: the own properties of the data object, in order. */
    var data: seq<Prop>
    /** `self.options`: None while it is the initial empty object; after
        `config` it is the very `def_options` object. */
    var options: Option<Options>
    /** `def_options`, which `config` updates in place. */
    var defaults: Options
    /** `self.filepath`: None while it is undefined. */
    var filepath: Option<string>
    /** Every write that landed, oldest first. */
    ghost var saves: seq<SaveRecord>

    ghost predicate Valid()
      reads this
    {
      && Properties.Distinct(data)
      && (options.Some? ==> options.value == defaults)
      && (filepath.Some? <==> options.Some?)
      && (filepath.Some? ==> filepath.value == FilePath(defaults))
    }

    /** `self.options.autosave` is truthy. */
    predicate AutosaveOn()
      reads this
    {
      options.Some? && options.value.autosave
    }

    /** What `save` writes now. */
    ghost function Record(): (r: SaveRecord)
      reads this
      requires filepath.Some?
    {
      SaveRecord(filepath.value, Snapshot(data), LayoutFor(options))
    }

    /** The tail of a mutating operation: with autosave off it resolves to
        `success` and writes nothing; with autosave on it saves the mutated
        data and resolves to `success` once the write landed, or rejects with
        the save's error (the mutation stays). */
    ghost predicate Autosaved<T>(r: Result<T>, success: T, writeOk: bool, before: seq<SaveRecord>)
      reads this
    {
      if !AutosaveOn() then r == Ok(success) && saves == before
      else if filepath.None? then r == Err(NoFilePath) && saves == before
      else if writeOk then r == Ok(success) && saves == before + [Record()]
      else r == Err(WriteFailed(filepath.value)) && saves == before
    }

    /** The state when the module is loaded, `home` being the user's home
        directory. */
    constructor (home: string)
      ensures Valid()
      ensures data == [] && options == None && filepath == None && saves == []
      ensures defaults == Defaults(home)
    {
      data := [];
      options := None;
      defaults := Defaults(home);
      filepath := None;
      saves := [];
    }

    /** `config(options)`. */
    method Config(patch: OptionsPatch)
      requires Valid()
      modifies this
      ensures Valid()
      ensures defaults == Override(old(defaults), patch)
      ensures options == Some(defaults)
      ensures filepath == Some(defaults.path + "/" + NormalizedFileName(defaults.filename))
      ensures data == old(data) && saves == old(saves)
    {
      defaults := Override(defaults, patch);
      options := Some(defaults);
      filepath := Some(FilePath(defaults));
    }

    /** `getOptions()`: None is the empty object of an unconfigured store. */
    method GetOptions() returns (r: Option<Options>)
      requires Valid()
      ensures r == options
      ensures r.Some? ==> r.value == defaults
    {
      r := options;
    }

    /** `has(key)`: `data.hasOwnProperty(key)`. */
    method Has(key: string) returns (b: bool)
      ensures b <==> key in Properties.Keys(data)
    {
      b := Properties.Get(data, key).Some?;
    }

    /** `get(key)`: the value, or "No value for: key" when `has(key)` is false. */
    method Get(key: string) returns (r: Result<Value>)
      ensures r.Ok? <==> key in Properties.Keys(data)
      ensures r.Ok? ==> Prop(key, r.value) in data && Properties.Get(data, key) == Some(r.value)
      ensures r.Err? ==> r.error == NoValueFor(key)
    {
      var has := Has(key);
      if !has {
        return Err(NoValueFor(key));
      }
      r := Ok(Properties.Get(data, key).value);
    }

    /** `save()`: write the whole data to the file path. */
    method Save(writeOk: bool) returns (r: Result<()>)
      requires Valid()
      modifies this`saves
      ensures Valid()
      ensures filepath.None? ==> r == Err(NoFilePath) && saves == old(saves)
      ensures filepath.Some? && writeOk ==> r == Ok(()) && saves == old(saves) + [Record()]
      ensures filepath.Some? && !writeOk ==> r == Err(WriteFailed(filepath.value)) && saves == old(saves)
    {
      if filepath.None? {
        return Err(NoFilePath);
      }
      if !writeOk {
        return Err(WriteFailed(filepath.value));
      }
      saves := saves + [Record()];
      r := Ok(());
    }

    /** Save when autosave is on; the data has already been changed. */
    method AutosaveThen<T>(success: T, writeOk: bool) returns (r: Result<T>)
      requires Valid()
      modifies this`saves
      ensures Valid()
      ensures Autosaved(r, success, writeOk, old(saves))
    {
      if AutosaveOn() {
        var saved := Save(writeOk);
        r := if saved.Ok? then Ok(success) else Err(saved.error);
      } else {
        r := Ok(success);
      }
    }

    /** `set(key, value)`: validate, assign, autosave; resolves to the data. */
    method Set(key: Value, value: Value, writeOk: bool) returns (r: Result<seq<Prop>>)
      requires Valid()
      modifies this
      ensures Valid()
      ensures options == old(options) && defaults == old(defaults) && filepath == old(filepath)
      ensures SetCheck(key, value).Some? ==>
        r == Err(SetCheck(key, value).value) && data == old(data) && saves == old(saves)
      ensures SetCheck(key, value).None? ==>
        data == Properties.Put(old(data), key.s, value) && Autosaved(r, data, writeOk, old(saves))
      ensures SetCheck(key, value).None? ==>
        Properties.Get(data, key.s) == Some(value) &&
        forall k :: k != key.s ==> Properties.Get(data, k) == Properties.Get(old(data), k)
    {
      var check := SetCheck(key, value);
      if check.Some? {
        return Err(check.value);
      }
      data := Properties.Put(data, key.s, value);
      Properties.PutDistinct(old(data), key.s, value);
      forall k ensures Properties.Get(data, k) == if k == key.s then Some(value) else Properties.Get(old(data), k) {
        Properties.PutGet(old(data), key.s, value, k);
      }
      r := AutosaveThen(data, writeOk);
    }

    /** `unset(key)`: delete the key, autosave; resolves to true. */
    method Unset(key: string, writeOk: bool) returns (r: Result<bool>)
      requires Valid()
      modifies this
      ensures Valid()
      ensures options == old(options) && defaults == old(defaults) && filepath == old(filepath)
      ensures key == "" ==> r == Err(KeyNotGiven) && data == old(data) && saves == old(saves)
      ensures key != "" ==>
        data == Properties.Remove(old(data), key) && Autosaved(r, true, writeOk, old(saves))
      ensures key != "" ==>
        key !in Properties.Keys(data) &&
        forall k :: k != key ==> Properties.Get(data, k) == Properties.Get(old(data), k)
    {
      if key == "" {
        return Err(KeyNotGiven);
      }
      data := Properties.Remove(data, key);
      Properties.RemoveDistinct(old(data), key);
      forall k ensures Properties.Get(data, k) == if k == key then None else Properties.Get(old(data), k) {
        Properties.RemoveGet(old(data), key, k);
      }
      Properties.RemoveGet(old(data), key, key);
      r := AutosaveThen(true, writeOk);
    }

    /** `clear()`: empty the data, autosave; resolves to the empty data. */
    method Clear(writeOk: bool) returns (r: Result<seq<Prop>>)
      requires Valid()
      modifies this
      ensures Valid()
      ensures options == old(options) && defaults == old(defaults) && filepath == old(filepath)
      ensures data == [] && Autosaved(r, [], writeOk, old(saves))
    {
      data := [];
      r := AutosaveThen(data, writeOk);
    }

    /** `__getAll()`: the data. */
    method GetAll() returns (r: seq<Prop>)
      requires Valid()
      ensures r == data
      ensures Properties.Distinct(r)
    {
      r := data;
    }

    /** `__setAll(arg)`: merge the argument's properties into a copy of the
        data, without validating them and without saving. */
    method SetAll(arg: Value) returns (r: Result<seq<Prop>>)
      requires Valid()
      modifies this
      ensures Valid()
      ensures options == old(options) && defaults == old(defaults) && filepath == old(filepath)
      ensures saves == old(saves)
      ensures !Truthy(arg) ==> r == Err(DataNotGiven) && data == old(data)
      ensures Truthy(arg) ==>
        data == Properties.Assign(Properties.Assign([], old(data)), Properties.SourceProps(arg)) && r == Ok(data)
      ensures Truthy(arg) ==> forall k ::
        Properties.Get(data, k) ==
          if k in Properties.Keys(Properties.SourceProps(arg)) then Properties.Last(Properties.SourceProps(arg), k)
          else Properties.Get(old(data), k)
    {
      if !Truthy(arg) {
        return Err(DataNotGiven);
      }
      var source := Properties.SourceProps(arg);
      Properties.CopyIsIdentity(data);
      Properties.AssignDistinct(data, source);
      forall k ensures Properties.Get(Properties.Assign(data, source), k) ==
        if k in Properties.Keys(source) then Properties.Last(source, k) else Properties.Get(data, k)
      {
        Properties.AssignGet(data, source, k);
      }
      data := Properties.Assign(Properties.Assign([], data), source);
      r := Ok(data);
    }
  }
}
