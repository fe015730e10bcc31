/** The JavaScript values the store is handed and keeps, the truthiness test
    the source applies to keys and arguments (`!key`, `!data`), and what
    `JSON.stringify`/`JSON.parse` do with them. Functions, symbols, boxed
    primitives and `toJSON` methods are not part of this model. */
module JsValue {
  import opened Wrappers
  import opened Json

  datatype Value =
    | Undefined
    | Null
    | Bool(b: bool)
    | Num(n: real)              // a finite number
    | NaN
    | Infinity(negative: bool)
    | Str(s: string)
    | Arr(items: seq<Value>)
    | Obj(props: seq<Prop>)     // own enumerable properties, in order

  /** One own property of an object. */
  datatype Prop = Prop(key: string, value: Value)

  /** ECMAScript ToBoolean: `!v` is `!Truthy(v)`. */
  predicate Truthy(v: Value)
    ensures !Truthy(v) <==> v in {Undefined, Null, NaN, Bool(false), Num(0.0), Str("")}
  {
    match v
    case Undefined => false
    case Null => false
    case NaN => false
    case Bool(b) => b
    case Num(n) => n != 0.0
    case Str(s) => s != ""
    case Infinity(_) => true
    case Arr(_) => true
    case Obj(_) => true
  }

  /** The two values that `set` refuses as "not a valid JSON value":
      `undefined` and a number that `isNaN` reports. Only the top level
      is inspected. */
  predicate Unrepresentable(v: Value)
  {
    v.Undefined? || v.NaN?
  }

  // ---------------------------------------------------------------------
  // JSON.stringify, at the level of the JSON data model

  /** The JSON value `JSON.stringify` writes for `v`, or None when it writes
      nothing (`undefined`). NaN and the infinities become `null`; inside an
      array an `undefined` element becomes `null`; inside an object an
      `undefined` property is left out. */
  function ToJson(v: Value): (r: Option<Json>)
    ensures r.None? <==> v.Undefined?
    decreases v
  {
    match v
    case Undefined => None
    case Null => Some(JNull)
    case NaN => Some(JNull)
    case Infinity(_) => Some(JNull)
    case Bool(b) => Some(JBool(b))
    case Num(n) => Some(JNum(n))
    case Str(s) => Some(JStr(s))
    case Arr(items) => Some(JArr(ItemsToJson(items)))
    case Obj(props) => Some(JObj(PropsToJson(props)))
  }

  /** Array elements: every element is written, `undefined` as `null`. */
  function ItemsToJson(items: seq<Value>): (r: seq<Json>)
    ensures |r| == |items|
    decreases items
  {
    if items == [] then []
    else
      var head := match ToJson(items[0]) case None => JNull case Some(j) => j;
      [head] + ItemsToJson(items[1..])
  }

  /** Object properties: written in order, those holding `undefined` skipped. */
  function PropsToJson(props: seq<Prop>): (r: seq<Member>)
    ensures |r| <= |props|
    ensures forall name :: name in Names(r) <==> DefinedKey(props, name)
    decreases props
  {
    if props == [] then []
    else
      var rest := PropsToJson(props[1..]);
      match ToJson(props[0].value)
      case None => rest
      case Some(j) => [Member(props[0].key, j)] + rest
  }

  /** Some property named `name` holds a value other than `undefined`. */
  predicate DefinedKey(props: seq<Prop>, name: string)
  {
    exists i :: 0 <= i < |props| && props[i].key == name && !props[i].value.Undefined?
  }

  // ---------------------------------------------------------------------
  // JSON.parse, at the level of the JSON data model

  /** The JavaScript value `JSON.parse` builds from a JSON value. Members
      become properties one for one, so an object with a repeated name is
      not read as `JSON.parse` reads it (one property, holding the last
      value); `UniqueNames` marks the JSON for which the two agree. */
  function Embed(j: Json): (v: Value)
    ensures !Unrepresentable(v)
    decreases j
  {
    match j
    case JNull => Null
    case JBool(b) => Bool(b)
    case JNum(n) => Num(n)
    case JStr(s) => Str(s)
    case JArr(items) => Arr(EmbedItems(items))
    case JObj(members) => Obj(EmbedMembers(members))
  }

  function EmbedItems(items: seq<Json>): (r: seq<Value>)
    ensures |r| == |items|
    decreases items
  {
    if items == [] then [] else [Embed(items[0])] + EmbedItems(items[1..])
  }

  function EmbedMembers(members: seq<Member>): (r: seq<Prop>)
    ensures |r| == |members|
    decreases members
  {
    if members == [] then []
    else [Prop(members[0].name, Embed(members[0].value))] + EmbedMembers(members[1..])
  }

  /** A value that survives a write and a read unchanged: no `undefined`,
      NaN or infinity anywhere inside it. */
  predicate DeepJson(v: Value)
    decreases v
  {
    match v
    case Undefined => false
    case NaN => false
    case Infinity(_) => false
    case Arr(items) => AllDeepJson(items)
    case Obj(props) => AllPropsDeepJson(props)
    case _ => true
  }

  predicate AllDeepJson(items: seq<Value>)
    decreases items
  {
    items == [] || (DeepJson(items[0]) && AllDeepJson(items[1..]))
  }

  predicate AllPropsDeepJson(props: seq<Prop>)
    decreases props
  {
    props == [] || (DeepJson(props[0].value) && AllPropsDeepJson(props[1..]))
  }

  // ---------------------------------------------------------------------
  // Round trips

  /** Reading a JSON value back and writing it again gives the same JSON,
      for JSON whose objects have distinct member names (the only JSON that
      `JSON.parse` reads back property for member; see `Embed`). */
  lemma {:induction false} WriteAfterRead(j: Json)
    requires UniqueNames(j)
    ensures ToJson(Embed(j)) == Some(j)
    decreases j
  {
    match j
    case JArr(items) => WriteAfterReadItems(items);
    case JObj(members) => WriteAfterReadMembers(members);
    case _ =>
  }

  lemma {:induction false} WriteAfterReadItems(items: seq<Json>)
    requires AllUniqueNames(items)
    ensures ItemsToJson(EmbedItems(items)) == items
    decreases items
  {
    if items != [] {
      WriteAfterRead(items[0]);
      WriteAfterReadItems(items[1..]);
    }
  }

  lemma {:induction false} WriteAfterReadMembers(members: seq<Member>)
    requires MembersUniqueNames(members)
    ensures PropsToJson(EmbedMembers(members)) == members
    decreases members
  {
    if members != [] {
      WriteAfterRead(members[0].value);
      WriteAfterReadMembers(members[1..]);
    }
  }

  /** A deep JSON value is written as some JSON value that reads back as
      exactly the value that was written. */
  lemma {:induction false} ReadAfterWrite(v: Value)
    requires DeepJson(v)
    ensures ToJson(v).Some? && Embed(ToJson(v).value) == v
    decreases v
  {
    match v
    case Arr(items) => ReadAfterWriteItems(items);
    case Obj(props) => ReadAfterWriteProps(props);
    case _ =>
  }

  lemma {:induction false} ReadAfterWriteItems(items: seq<Value>)
    requires AllDeepJson(items)
    ensures EmbedItems(ItemsToJson(items)) == items
    decreases items
  {
    if items != [] {
      ReadAfterWrite(items[0]);
      ReadAfterWriteItems(items[1..]);
    }
  }

  lemma {:induction false} ReadAfterWriteProps(props: seq<Prop>)
    requires AllPropsDeepJson(props)
    ensures EmbedMembers(PropsToJson(props)) == props
    decreases props
  {
    if props != [] {
      ReadAfterWrite(props[0].value);
      ReadAfterWriteProps(props[1..]);
    }
  }

  /** Every value read from a file is deep JSON. */
  lemma {:induction false} EmbedIsDeepJson(j: Json)
    ensures DeepJson(Embed(j))
    decreases j
  {
    match j
    case JArr(items) =>
      AllDeepJsonEmbed(items);
    case JObj(members) =>
      AllPropsDeepJsonEmbed(members);
    case _ =>
  }

  lemma {:induction false} AllDeepJsonEmbed(items: seq<Json>)
    ensures AllDeepJson(EmbedItems(items))
    decreases items
  {
    if items != [] {
      EmbedIsDeepJson(items[0]);
      AllDeepJsonEmbed(items[1..]);
    }
  }

  lemma {:induction false} AllPropsDeepJsonEmbed(members: seq<Member>)
    ensures AllPropsDeepJson(EmbedMembers(members))
    decreases members
  {
    if members != [] {
      EmbedIsDeepJson(members[0].value);
      AllPropsDeepJsonEmbed(members[1..]);
    }
  }

  /** The check is not enough for a lossless write: an infinity passes it
      and is written as `null`; an array holding NaN passes it but is read
      back with `null` in its place; and an object property holding
      `undefined` passes it and disappears. */
  lemma NestedValuesAreNotChecked()
    ensures !Unrepresentable(Infinity(false)) && ToJson(Infinity(false)) == Some(JNull)
    ensures Embed(ToJson(Infinity(false)).value) != Infinity(false)
    ensures !Unrepresentable(Arr([NaN])) && ToJson(Arr([NaN])) == Some(JArr([JNull]))
    ensures Embed(ToJson(Arr([NaN])).value) != Arr([NaN])
    ensures !Unrepresentable(Obj([Prop("a", Undefined)]))
    ensures ToJson(Obj([Prop("a", Undefined)])) == Some(JObj([]))
  {
    var items := ItemsToJson([NaN]);
    assert items == [JNull] + ItemsToJson([]);
    assert items == [JNull];
    assert [Prop("a", Undefined)][1..] == [];
  }
}
