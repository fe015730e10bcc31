/** A caller's view of the store, through calls like those the repository's
    test suite makes: configure, set values of several JSON kinds and read
    them back, refuse NaN and `undefined`, unset, clear, then turn autosave
    on and watch a `set` write the file. Only the contracts of the store's
    operations are used. */
module ElectronDataClient {
  import opened Wrappers
  import opened JsValue
  import opened ElectronData

  method ConfigWalkthrough(home: string, dir: string)
  {
    var store := new Store(home);
    var none := store.GetOptions();
    assert none == None;
    store.Config(OptionsPatch(Some("test"), Some(dir), None, None, None));
    var options := store.GetOptions();
    assert options == Some(Options("test", dir, false, false, false));
    assert store.filepath == Some(dir + "/test.json") by {
      assert !JsonExt.HasJsonExt("test");
      assert NormalizedFileName("test") == "test.json";
      assert dir + "/" + "test.json" == dir + "/test.json";
    }
    store.Config(OptionsPatch(None, None, Some(true), None, None));
    options := store.GetOptions();
    assert options == Some(Options("test", dir, true, false, false));
  }

  method SetGetWalkthrough(home: string)
  {
    var store := new Store(home);
    var r := store.Set(Str("test-string"), Str("test"), true);
    assert r.Ok?;
    r := store.Set(Str("test-null"), Null, true);
    assert r.Ok?;
    r := store.Set(Str("test-false"), Bool(false), true);
    assert r.Ok?;
    var g := store.Get("test-string");
    assert g == Ok(Str("test"));
    g := store.Get("test-null");
    assert g == Ok(Null);
    assert store.saves == [];
  }

  method ValidationWalkthrough(home: string)
  {
    var store := new Store(home);
    var r := store.Set(Str("test-nan"), NaN, true);
    assert r == Err(InvalidValue);
    r := store.Set(Str("test-undefined"), Undefined, true);
    assert r == Err(InvalidValue);
    r := store.Set(Str(""), Str("v"), true);
    assert r == Err(KeyNotGiven);
    r := store.Set(Num(0.0), Str("v"), true);
    assert r == Err(KeyNotGiven);
    r := store.Set(Num(1.0), Str("v"), true);
    assert r == Err(KeyNotString);
    assert store.data == [] && store.saves == [];
  }

  method UnsetClearWalkthrough(home: string)
  {
    var store := new Store(home);
    var r := store.Set(Str("test-string"), Str("test"), true);
    var u := store.Unset("test-string", true);
    assert u == Ok(true);
    var has := store.Has("test-string");
    assert !has;
    var g := store.Get("test-string");
    assert g == Err(NoValueFor("test-string"));
    var c := store.Clear(true);
    assert c == Ok([]);
    c := store.Clear(true);
    assert c == Ok([]) && store.data == [];
  }

  method AutosaveWalkthrough(home: string, dir: string)
  {
    var store := new Store(home);
    store.Config(OptionsPatch(Some("test.json"), Some(dir), Some(true), None, None));
    var r := store.Set(Str("test-autosave"), Str("test"), true);
    assert store.data == [Prop("test-autosave", Str("test"))];
    assert |store.saves| == 1 && store.saves[0].path == dir + "/test.json";
    assert store.saves[0].layout == Compact;
    r := store.Set(Str("test-autosave"), Str("again"), false);
    assert r == Err(WriteFailed(dir + "/test.json"));
    assert store.data == [Prop("test-autosave", Str("again"))];
    assert |store.saves| == 1;
  }
}
