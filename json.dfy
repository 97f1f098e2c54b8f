/**
 * JSON-like values as the browser receives them from the backend and as the backend
 * receives them from the AWS client: null, booleans, numbers, strings, arrays and
 * objects whose members keep their enumeration order.
 */
module JsonValue {
  import opened Wrappers

  datatype Json =
    | JNull
    | JBool(b: bool)
    | JNum(n: int)
    | JStr(s: string)
    | JArr(items: seq<Json>)
    | JObj(members: seq<Member>)

  /** One property of an object. A JavaScript object or a Python dict never holds a key twice. */
  datatype Member = Member(key: string, value: Json)

  /** JavaScript truthiness: `null`, `false`, `0` and `""` are falsy; arrays and objects never are. */
  predicate Truthy(v: Json)
    ensures Truthy(v) <==> v != JNull && v != JBool(false) && v != JNum(0) && v != JStr("")
  {
    match v
    case JNull => false
    case JBool(b) => b
    case JNum(n) => n != 0
    case JStr(s) => s != ""
    case _ => true
  }

  /** The value stored under `key` among `ms`, if any. */
  function Lookup(ms: seq<Member>, key: string): (r: Option<Json>)
    ensures r.Some? ==> exists i :: 0 <= i < |ms| && ms[i].key == key && ms[i].value == r.value
    ensures r.None? <==> forall i :: 0 <= i < |ms| ==> ms[i].key != key
  {
    if ms == [] then None
    else if ms[0].key == key then Some(ms[0].value)
    else Lookup(ms[1..], key)
  }

  /**
   * Property access `v[key]` (JavaScript) or `v.get(key)` (Python dict). Every key looked up
   * in this model names a data field, never an index or a built-in property of strings,
   * arrays, numbers or booleans, so a non-object yields nothing.
   */
  function Get(v: Json, key: string): (r: Option<Json>)
    ensures r.Some? ==> v.JObj? && exists i :: 0 <= i < |v.members| && v.members[i] == Member(key, r.value)
    ensures v.JObj? && (exists i :: 0 <= i < |v.members| && v.members[i].key == key) ==> r.Some?
  {
    if v.JObj? then Lookup(v.members, key) else None
  }

  /**
   * `Object.keys(v).length > 0`: own enumerable keys of an object, array or string. A value
   * with keys is truthy, while an empty object or array is truthy without keys.
   */
  predicate HasKeys(v: Json)
    ensures HasKeys(v) ==> Truthy(v)
    ensures (v.JObj? || v.JArr?) && !HasKeys(v) ==> Truthy(v)
  {
    match v
    case JObj(ms) => |ms| > 0
    case JArr(xs) => |xs| > 0
    case JStr(s) => |s| > 0
    case _ => false
  }

  /** Python `d[key] = value` on a dict: an existing key keeps its place, a new key goes last. */
  function SetMember(ms: seq<Member>, key: string, value: Json): (r: seq<Member>)
    ensures Lookup(r, key) == Some(value)
    ensures forall k :: k != key ==> Lookup(r, k) == Lookup(ms, k)
    ensures |r| == if Lookup(ms, key).Some? then |ms| else |ms| + 1
  {
    if ms == [] then [Member(key, value)]
    else if ms[0].key == key then [Member(key, value)] + ms[1..]
    else [ms[0]] + SetMember(ms[1..], key, value)
  }

  /** `d[key] = value` on an existing key keeps every key in its place; only the value changes. */
  lemma {:induction false} SetMemberKeepsPlaces(ms: seq<Member>, key: string, value: Json)
    requires Lookup(ms, key).Some?
    ensures |SetMember(ms, key, value)| == |ms|
    ensures forall i :: 0 <= i < |ms| ==> SetMember(ms, key, value)[i].key == ms[i].key
  {
    var r := SetMember(ms, key, value);
    if ms[0].key == key {
      assert r == [Member(key, value)] + ms[1..];
      forall i | 0 < i < |ms| ensures r[i] == ms[i] {
        assert r[i] == ms[1..][i - 1];
      }
    } else {
      var rest := ms[1..];
      assert Lookup(rest, key) == Lookup(ms, key);
      SetMemberKeepsPlaces(rest, key, value);
      var tail := SetMember(rest, key, value);
      assert r == [ms[0]] + tail;
      forall i | 0 < i < |ms| ensures r[i].key == ms[i].key {
        assert r[i] == tail[i - 1] && ms[i] == rest[i - 1];
      }
    }
  }

  /** `d[key] = value` on a new key keeps every key in its place and appends the new member last. */
  lemma {:induction false} SetMemberAppendsNew(ms: seq<Member>, key: string, value: Json)
    requires Lookup(ms, key).None?
    ensures |SetMember(ms, key, value)| == |ms| + 1
    ensures forall i :: 0 <= i < |ms| ==> SetMember(ms, key, value)[i].key == ms[i].key
    ensures SetMember(ms, key, value)[|ms|] == Member(key, value)
  {
    var r := SetMember(ms, key, value);
    if ms != [] {
      var rest := ms[1..];
      assert Lookup(rest, key) == Lookup(ms, key);
      SetMemberAppendsNew(rest, key, value);
      var tail := SetMember(rest, key, value);
      assert r == [ms[0]] + tail;
      forall i | 0 < i < |ms| ensures r[i].key == ms[i].key {
        assert r[i] == tail[i - 1] && ms[i] == rest[i - 1];
      }
    }
    // The new key is stored somewhere, and every earlier place holds an old key.
    var j :| 0 <= j < |r| && r[j].key == key && r[j].value == value;
    assert j == |ms|;
  }
}
