/** The JSON data model: what a file written by the store contains, kept
    abstract (the exact text, spacing and number formatting are not modelled). */
module Json {

  datatype Json =
    | JNull
    | JBool(b: bool)
    | JNum(n: real)
    | JStr(s: string)
    | JArr(items: seq<Json>)
    | JObj(members: seq<Member>)

  /** One name/value pair of a JSON object, in the order it is written. */
  datatype Member = Member(name: string, value: Json)

  /** The member names of an object, in order. */
  function Names(ms: seq<Member>): (r: seq<string>)
    ensures |r| == |ms|
    ensures forall i :: 0 <= i < |ms| ==> r[i] == ms[i].name
  {
    if ms == [] then [] else [ms[0].name] + Names(ms[1..])
  }

  /** No two members of an object share a name. */
  predicate DistinctNames(ms: seq<Member>)
  {
    forall i, k :: 0 <= i < k < |ms| ==> ms[i].name != ms[k].name
  }

  /** A JSON value whose objects, at every depth, have distinct member
      names. `JSON.parse` keeps one property for each name, so only such
      a value is read back member for member. */
  predicate UniqueNames(j: Json)
    decreases j
  {
    match j
    case JArr(items) => AllUniqueNames(items)
    case JObj(members) => DistinctNames(members) && MembersUniqueNames(members)
    case _ => true
  }

  predicate AllUniqueNames(items: seq<Json>)
    decreases items
  {
    items == [] || (UniqueNames(items[0]) && AllUniqueNames(items[1..]))
  }

  predicate MembersUniqueNames(members: seq<Member>)
    decreases members
  {
    members == [] || (UniqueNames(members[0].value) && MembersUniqueNames(members[1..]))
  }
}
