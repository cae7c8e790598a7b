/**
 * Decoded JSON values, as `json.loads` hands them over: objects keep their
 * members in insertion order, numbers are exact rationals (integers and
 * floats alike), and the Python notions the handlers rely on (`dict.get`,
 * truthiness, "is an integer") are defined on them.
 */
module Json {
  import opened Wrappers

  datatype Json =
    | JNull
    | JBool(b: bool)
    | JNum(n: real)
    | JStr(s: string)
    | JArr(items: seq<Json>)
    | JObj(members: seq<(string, Json)>)

  /** The keys of a member list, in order. */
  function KeysOf(members: seq<(string, Json)>): (ks: seq<string>)
    ensures |ks| == |members|
    ensures forall i :: 0 <= i < |members| ==> ks[i] == members[i].0
  {
    if members == [] then [] else [members[0].0] + KeysOf(members[1..])
  }

  /** `d.get(key)` on a member list: the value of the first member called `key`. */
  function Find(members: seq<(string, Json)>, key: string): Option<Json>
  {
    if members == [] then None
    else if members[0].0 == key then Some(members[0].1)
    else Find(members[1..], key)
  }

  /** `d.get(key)` finds a value exactly when some member is called `key`, and then the first one's. */
  lemma {:induction false} FindFirst(members: seq<(string, Json)>, key: string)
    ensures Find(members, key).None? <==> forall i :: 0 <= i < |members| ==> members[i].0 != key
    ensures Find(members, key).Some? ==>
              exists i :: 0 <= i < |members| && members[i] == (key, Find(members, key).value)
                          && forall k :: 0 <= k < i ==> members[k].0 != key
  {
    if members != [] && members[0].0 != key {
      FindFirst(members[1..], key);
      if Find(members, key).Some? {
        var i :| 0 <= i < |members[1..]| && members[1..][i] == (key, Find(members, key).value)
                 && forall k :: 0 <= k < i ==> members[1..][k].0 != key;
        assert members[i + 1] == (key, Find(members, key).value);
        forall k | 0 <= k < i + 1 ensures members[k].0 != key {
          if k > 0 { assert members[k] == members[1..][k - 1]; }
        }
      } else {
        forall i | 0 <= i < |members| ensures members[i].0 != key {
          if i > 0 { assert members[i] == members[1..][i - 1]; }
        }
      }
    } else if members != [] {
      assert members[0] == (key, Find(members, key).value);
    }
  }

  /** Whether the object `j` has a member called `key`. */
  predicate HasKey(j: Json, key: string)
  {
    j.JObj? && Find(j.members, key).Some?
  }

  /** `d.get(key)`: the member's value, or `None` (JSON null) when `j` has no such member. */
  function Get(j: Json, key: string): (r: Json)
    requires j.JObj?
    ensures !HasKey(j, key) ==> r == JNull
  {
    match Find(j.members, key)
    case None => JNull
    case Some(v) => v
  }

  /** Python truthiness: null, false, 0, "" and empty containers are false. */
  predicate Truthy(j: Json)
  {
    match j
    case JNull => false
    case JBool(b) => b
    case JNum(n) => n != 0.0
    case JStr(s) => s != []
    case JArr(items) => items != []
    case JObj(members) => members != []
  }

  /** A number with no fractional part: an "integer" in the JSON Schema sense. */
  predicate IsInteger(j: Json)
  {
    j.JNum? && j.n.Floor as real == j.n
  }

  /** Every key of `j` is one of `allowed`. */
  predicate OnlyKeys(j: Json, allowed: set<string>)
    requires j.JObj?
  {
    forall i :: 0 <= i < |j.members| ==> j.members[i].0 in allowed
  }

  /** A member appended under another key does not change what `d.get(key)` finds. */
  lemma {:induction false} FindIgnoresAppendedKey(members: seq<(string, Json)>, other: (string, Json), key: string)
    requires other.0 != key
    ensures Find(members + [other], key) == Find(members, key)
  {
    if members != [] {
      assert (members + [other])[1..] == members[1..] + [other];
      FindIgnoresAppendedKey(members[1..], other, key);
    }
  }

  /** `d.get(key)` on a member list whose first member called `key` is at `i`. */
  lemma {:induction false} FindAt(members: seq<(string, Json)>, i: nat, key: string)
    requires i < |members| && members[i].0 == key
    requires forall k :: 0 <= k < i ==> members[k].0 != key
    ensures Find(members, key) == Some(members[i].1)
  {
    if i > 0 {
      FindAt(members[1..], i - 1, key);
    }
  }
}
