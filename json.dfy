/**
 * The plain, JSON-serialisable values a configurator holds: the configuration
 * object and the opaque link and mapping objects. Objects keep their members
 * in insertion order, as JavaScript objects do for string keys (JavaScript
 * lists integer-like keys first, in ascending order; that is not modelled).
 */
module Json {
  import opened Wrappers

  datatype Json =
    | JNull
    | JBool(b: bool)
    | JNum(n: int)
    | JStr(s: string)
    | JArr(items: seq<Json>)
    | JObj(members: seq<Member>)

  datatype Member = Member(key: string, value: Json)

  /** JavaScript truthiness of a value. */
  predicate Truthy(v: Json) {
    match v
    case JNull => false
    case JBool(b) => b
    case JNum(n) => n != 0
    case JStr(s) => s != ""
    case _ => true
  }

  /**
   * `Object.keys(v).length`. A string has one key per character, an array one per
   * element, an object one per member, a number or boolean none; `null` has no
   * keys at all (`Object.keys(null)` throws), hence the precondition.
   */
  function OwnKeyCount(v: Json): nat
    requires !v.JNull?
  {
    match v
    case JStr(s) => |s|
    case JArr(items) => |items|
    case JObj(members) => |members|
    case _ => 0
  }

  /** The structural copy `JSON.parse(JSON.stringify(v))`, member by member. */
  function DeepCopy(v: Json): Json {
    match v
    case JArr(items) =>
      JArr(seq(|items|, i requires 0 <= i < |items| => DeepCopy(items[i])))
    case JObj(members) =>
      JObj(seq(|members|, i requires 0 <= i < |members| => Member(members[i].key, DeepCopy(members[i].value))))
    case _ => v
  }

  /** Over this closed value type the structural copy is equal to its input. */
  lemma {:induction false} DeepCopyIsIdentity(v: Json)
    ensures DeepCopy(v) == v
  {
    match v
    case JArr(items) =>
      forall i | 0 <= i < |items|
        ensures DeepCopy(items[i]) == items[i]
      {
        DeepCopyIsIdentity(items[i]);
      }
      assert DeepCopy(v).items == items;
    case JObj(members) =>
      forall i | 0 <= i < |members|
        ensures DeepCopy(members[i].value) == members[i].value
      {
        DeepCopyIsIdentity(members[i].value);
      }
      assert DeepCopy(v).members == members;
    case _ =>
  }

  /** Property read `obj[key]`: the first member with that key. */
  function Lookup(members: seq<Member>, key: string): Option<Json> {
    if members == [] then None
    else if members[0].key == key then Some(members[0].value)
    else Lookup(members[1..], key)
  }

  /**
   * Property write `obj[key] = value`: an existing member keeps its place and
   * takes the new value; a new key is appended after the others.
   */
  function SetMember(members: seq<Member>, key: string, value: Json): (r: seq<Member>)
    ensures Lookup(r, key) == Some(value)
    ensures forall k :: k != key ==> Lookup(r, k) == Lookup(members, k)
    ensures |r| == if Lookup(members, key).Some? then |members| else |members| + 1
  {
    if members == [] then [Member(key, value)]
    else if members[0].key == key then [Member(key, value)] + members[1..]
    else [members[0]] + SetMember(members[1..], key, value)
  }

  /** Property read on any value: only objects have members here. */
  function Field(v: Json, key: string): Option<Json> {
    if v.JObj? then Lookup(v.members, key) else None
  }

  /** Property write on an object value. */
  function SetField(v: Json, key: string, value: Json): (r: Json)
    requires v.JObj?
    ensures r.JObj?
    ensures Field(r, key) == Some(value)
    ensures forall k :: k != key ==> Field(r, k) == Field(v, k)
  {
    JObj(SetMember(v.members, key, value))
  }
}
