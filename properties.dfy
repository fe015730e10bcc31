/** A JavaScript object's own string-keyed properties as an insertion-ordered
    list, with the operations the store applies to its `data` object:
    property read and `hasOwnProperty`, assignment `obj[key] = value`,
    `delete obj[key]` and `Object.assign`. */
module Properties {
  import opened Wrappers
  import opened Json
  import opened JsValue

  /** The property names, in order. */
  function Keys(ps: seq<Prop>): (r: seq<string>)
    ensures |r| == |ps|
    ensures forall i :: 0 <= i < |ps| ==> r[i] == ps[i].key
  {
    if ps == [] then [] else [ps[0].key] + Keys(ps[1..])
  }

  /** No name occurs twice, as in every JavaScript object. */
  predicate Distinct(ps: seq<Prop>)
  {
    ps == [] || (ps[0].key !in Keys(ps[1..]) && Distinct(ps[1..]))
  }

  /** `obj[key]` for an own property; None exactly when
      `obj.hasOwnProperty(key)` is false. */
  function Get(ps: seq<Prop>, key: string): (r: Option<Value>)
    ensures r.Some? <==> key in Keys(ps)
    ensures r.Some? ==> Prop(key, r.value) in ps
  {
    if ps == [] then None
    else if ps[0].key == key then Some(ps[0].value)
    else Get(ps[1..], key)
  }

  /** `obj[key] = value`: an existing property keeps its place and takes the
      new value, a new one is added at the end. */
  function Put(ps: seq<Prop>, key: string, value: Value): (r: seq<Prop>)
    ensures Prop(key, value) in r
    ensures |r| == |ps| || |r| == |ps| + 1
  {
    if ps == [] then [Prop(key, value)]
    else if ps[0].key == key then [Prop(key, value)] + ps[1..]
    else [ps[0]] + Put(ps[1..], key, value)
  }

  /** After `obj[key] = value` the object has `key`, holding `value`, and
      every other name holds what it held before. */
  lemma {:induction false} PutGet(ps: seq<Prop>, key: string, value: Value, k: string)
    ensures Get(Put(ps, key, value), k) == if k == key then Some(value) else Get(ps, k)
  {
    if ps != [] && ps[0].key != key {
      PutGet(ps[1..], key, value, k);
    }
  }

  /** Assignment keeps the order of the names and adds a new name last. */
  lemma {:induction false} PutKeys(ps: seq<Prop>, key: string, value: Value)
    ensures Keys(Put(ps, key, value)) == if key in Keys(ps) then Keys(ps) else Keys(ps) + [key]
  {
    if ps != [] {
      assert Keys(ps) == [ps[0].key] + Keys(ps[1..]);
      if ps[0].key != key {
        PutKeys(ps[1..], key, value);
        assert Keys(Put(ps, key, value)) == [ps[0].key] + Keys(Put(ps[1..], key, value));
      } else {
        assert Keys(Put(ps, key, value)) == [key] + Keys(ps[1..]);
      }
    }
  }

  /** Assignment keeps an object's names distinct. */
  lemma {:induction false} PutDistinct(ps: seq<Prop>, key: string, value: Value)
    requires Distinct(ps)
    ensures Distinct(Put(ps, key, value))
  {
    if ps != [] {
      if ps[0].key != key {
        PutDistinct(ps[1..], key, value);
        PutKeys(ps[1..], key, value);
        assert Put(ps, key, value)[1..] == Put(ps[1..], key, value);
      } else {
        assert Put(ps, key, value)[1..] == ps[1..];
      }
    }
  }

  /** Assigning a name an object does not have appends it. */
  lemma {:induction false} PutNewKeyAppends(ps: seq<Prop>, key: string, value: Value)
    requires key !in Keys(ps)
    ensures Put(ps, key, value) == ps + [Prop(key, value)]
  {
    if ps != [] {
      assert Keys(ps) == [ps[0].key] + Keys(ps[1..]);
      PutNewKeyAppends(ps[1..], key, value);
      assert ps == [ps[0]] + ps[1..];
    }
  }

  /** The list of names with every occurrence of `key` taken out. */
  function Without(keys: seq<string>, key: string): (r: seq<string>)
    ensures key !in r
    ensures forall k :: k != key ==> (k in r <==> k in keys)
  {
    if keys == [] then []
    else if keys[0] == key then Without(keys[1..], key)
    else [keys[0]] + Without(keys[1..], key)
  }

  /** `delete obj[key]`. */
  function Remove(ps: seq<Prop>, key: string): (r: seq<Prop>)
    ensures forall p :: p in r <==> p in ps && p.key != key
  {
    if ps == [] then []
    else if ps[0].key == key then Remove(ps[1..], key)
    else [ps[0]] + Remove(ps[1..], key)
  }

  /** After `delete obj[key]` the object lacks `key`, every other name holds
      what it held before, and the remaining names keep their order. */
  lemma {:induction false} RemoveGet(ps: seq<Prop>, key: string, k: string)
    ensures Get(Remove(ps, key), k) == if k == key then None else Get(ps, k)
  {
    if ps != [] {
      RemoveGet(ps[1..], key, k);
    }
  }

  lemma {:induction false} RemoveKeys(ps: seq<Prop>, key: string)
    ensures Keys(Remove(ps, key)) == Without(Keys(ps), key)
  {
    if ps != [] {
      RemoveKeys(ps[1..], key);
      assert Keys(ps)[1..] == Keys(ps[1..]);
      if ps[0].key != key {
        assert Keys(Remove(ps, key)) == [ps[0].key] + Keys(Remove(ps[1..], key));
      }
    }
  }

  /** Deletion keeps an object's names distinct. */
  lemma {:induction false} RemoveDistinct(ps: seq<Prop>, key: string)
    requires Distinct(ps)
    ensures Distinct(Remove(ps, key))
  {
    if ps != [] {
      RemoveDistinct(ps[1..], key);
      if ps[0].key != key {
        RemoveKeys(ps[1..], key);
        assert Remove(ps, key)[1..] == Remove(ps[1..], key);
      }
    }
  }

  /** The value of the last property named `key`, which is the one that
      `Object.assign` leaves in its target. */
  function Last(ps: seq<Prop>, key: string): (r: Option<Value>)
    ensures r.Some? <==> key in Keys(ps)
  {
    if ps == [] then None
    else
      match Last(ps[1..], key)
      case Some(v) => Some(v)
      case None => if ps[0].key == key then Some(ps[0].value) else None
  }

  /** In an object whose names are distinct the last property named `key`
      is the only one. */
  lemma {:induction false} LastIsGet(ps: seq<Prop>, key: string)
    requires Distinct(ps)
    ensures Last(ps, key) == Get(ps, key)
  {
    if ps != [] {
      LastIsGet(ps[1..], key);
    }
  }

  /** `Object.assign(target, source)` for one source: each property of the
      source is assigned to the target in turn. */
  function Assign(target: seq<Prop>, source: seq<Prop>): (r: seq<Prop>)
    ensures |r| >= |target|
    ensures source != [] ==> source[|source| - 1] in r
    decreases |source|
  {
    if source == [] then target
    else Assign(Put(target, source[0].key, source[0].value), source[1..])
  }

  /** After `Object.assign(target, source)` each name of the source holds the
      source's value for it, and every other name of the target keeps its
      value. */
  lemma {:induction false} AssignGet(target: seq<Prop>, source: seq<Prop>, k: string)
    ensures Get(Assign(target, source), k) == if k in Keys(source) then Last(source, k) else Get(target, k)
    decreases |source|
  {
    if source != [] {
      var p := source[0];
      AssignGet(Put(target, p.key, p.value), source[1..], k);
      PutGet(target, p.key, p.value, k);
      assert Keys(source) == [p.key] + Keys(source[1..]);
    }
  }

  /** `Object.assign` keeps the target's names distinct. */
  lemma {:induction false} AssignDistinct(target: seq<Prop>, source: seq<Prop>)
    requires Distinct(target)
    ensures Distinct(Assign(target, source))
    decreases |source|
  {
    if source != [] {
      PutDistinct(target, source[0].key, source[0].value);
      AssignDistinct(Put(target, source[0].key, source[0].value), source[1..]);
    }
  }

  lemma {:induction false} KeysAppend(a: seq<Prop>, b: seq<Prop>)
    ensures Keys(a + b) == Keys(a) + Keys(b)
  {
    assert |Keys(a + b)| == |Keys(a) + Keys(b)|;
    forall i | 0 <= i < |a + b| ensures Keys(a + b)[i] == (Keys(a) + Keys(b))[i] {
      if i < |a| { assert (a + b)[i] == a[i]; } else { assert (a + b)[i] == b[i - |a|]; }
    }
  }

  /** Copying properties whose names are all new appends them in order. */
  lemma {:induction false} AssignAppendsNewKeys(target: seq<Prop>, source: seq<Prop>)
    requires Distinct(target + source)
    ensures Assign(target, source) == target + source
    decreases |source|
  {
    if source != [] {
      var p := source[0];
      assert p.key in Keys(source) by { assert Keys(source)[0] == p.key; }
      DistinctSplit(target, source);
      PutNewKeyAppends(target, p.key, p.value);
      assert target + source == (target + [p]) + source[1..];
      AssignAppendsNewKeys(target + [p], source[1..]);
    }
  }

  /** In a distinct concatenation no name of the right part occurs in the left. */
  lemma {:induction false} DistinctSplit(a: seq<Prop>, b: seq<Prop>)
    requires Distinct(a + b)
    ensures forall k :: k in Keys(b) ==> k !in Keys(a)
  {
    if a != [] {
      assert (a + b)[1..] == a[1..] + b;
      DistinctSplit(a[1..], b);
      KeysAppend(a[1..], b);
      assert Keys(a) == [a[0].key] + Keys(a[1..]);
    }
  }

  /** A fresh copy of a JavaScript object, `Object.assign({}, obj)`, is the
      object itself. */
  lemma CopyIsIdentity(ps: seq<Prop>)
    requires Distinct(ps)
    ensures Assign([], ps) == ps
  {
    assert [] + ps == ps;
    AssignAppendsNewKeys([], ps);
  }

  // ---------------------------------------------------------------------
  // The properties Object.assign reads from a source value

  /** The own enumerable string-keyed properties `Object.assign` copies from
      `v`: an object's properties, an array's elements or a string's
      characters under their decimal indices, and nothing from any other
      primitive. */
  function SourceProps(v: Value): (r: seq<Prop>)
    ensures v.Obj? ==> r == v.props
    ensures v.Arr? ==> |r| == |v.items| && forall i :: 0 <= i < |r| ==> r[i] == Prop(Decimal(i), v.items[i])
    ensures v.Str? ==> |r| == |v.s| && forall i :: 0 <= i < |r| ==> r[i] == Prop(Decimal(i), Str([v.s[i]]))
    ensures !v.Obj? && !v.Arr? && !v.Str? ==> r == []
  {
    match v
    case Obj(props) => props
    case Arr(items) => Indexed(items, 0)
    case Str(s) => Indexed(seq(|s|, i requires 0 <= i < |s| => Str([s[i]])), 0)
    case _ => []
  }

  /** `items` as properties named by their indices, counted from `from`. */
  function Indexed(items: seq<Value>, from: nat): (r: seq<Prop>)
    ensures |r| == |items|
    ensures forall i :: 0 <= i < |items| ==> r[i] == Prop(Decimal(from + i), items[i])
  {
    if items == [] then [] else [Prop(Decimal(from), items[0])] + Indexed(items[1..], from + 1)
  }

  /** The decimal numeral for `n`, as used for an array index key. */
  function Decimal(n: nat): (r: string)
    ensures |r| > 0
  {
    var digit := "0123456789"[n % 10];
    if n < 10 then [digit] else Decimal(n / 10) + [digit]
  }

  // ---------------------------------------------------------------------
  // Values whose objects have distinct names at every depth

  /** Every object inside `v`, at any depth, has distinct property names:
      true of every JavaScript value. A `Value` without it stands for no
      JavaScript value. */
  predicate UniqueKeys(v: Value)
    decreases v
  {
    match v
    case Arr(items) => AllUniqueKeys(items)
    case Obj(props) => Distinct(props) && PropsUniqueKeys(props)
    case _ => true
  }

  predicate AllUniqueKeys(items: seq<Value>)
    decreases items
  {
    items == [] || (UniqueKeys(items[0]) && AllUniqueKeys(items[1..]))
  }

  predicate PropsUniqueKeys(props: seq<Prop>)
    decreases props
  {
    props == [] || (UniqueKeys(props[0].value) && PropsUniqueKeys(props[1..]))
  }

  /** `JSON.stringify` of a JavaScript value writes no object with a
      repeated member name, so the file is JSON that `JSON.parse` reads
      member for member, as `Embed` does. */
  lemma {:induction false} WrittenNamesUnique(v: Value)
    requires UniqueKeys(v)
    ensures ToJson(v).Some? ==> UniqueNames(ToJson(v).value)
    decreases v
  {
    match v
    case Arr(items) => WrittenItemsUnique(items);
    case Obj(props) => WrittenMembersUnique(props);
    case _ =>
  }

  lemma {:induction false} WrittenItemsUnique(items: seq<Value>)
    requires AllUniqueKeys(items)
    ensures AllUniqueNames(ItemsToJson(items))
    decreases items
  {
    if items != [] {
      WrittenNamesUnique(items[0]);
      WrittenItemsUnique(items[1..]);
      assert ItemsToJson(items)[1..] == ItemsToJson(items[1..]);
    }
  }

  lemma {:induction false} WrittenMembersUnique(props: seq<Prop>)
    requires Distinct(props) && PropsUniqueKeys(props)
    ensures DistinctNames(PropsToJson(props)) && MembersUniqueNames(PropsToJson(props))
    decreases props
  {
    if props != [] {
      WrittenNamesUnique(props[0].value);
      WrittenMembersUnique(props[1..]);
      var rest := PropsToJson(props[1..]);
      if ToJson(props[0].value).Some? {
        var m := Member(props[0].key, ToJson(props[0].value).value);
        assert PropsToJson(props) == [m] + rest;
        forall i | 0 <= i < |rest| ensures rest[i].name != m.name {
          assert rest[i].name in Names(rest);
          var j :| 0 <= j < |props[1..]| && props[1..][j].key == rest[i].name && !props[1..][j].value.Undefined?;
          assert rest[i].name in Keys(props[1..]);
        }
      }
    }
  }

  /** The data the store writes, when its stored values are JavaScript
      values, is an object that `JSON.parse` reads member for member. */
  lemma WrittenDataNamesUnique(data: seq<Prop>)
    requires Distinct(data) && PropsUniqueKeys(data)
    ensures UniqueNames(ToJson(Obj(data)).value)
  {
    WrittenNamesUnique(Obj(data));
  }
}
