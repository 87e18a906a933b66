/**
 The values `json.loads` returns (the grammar of section 3 of RFC 8259, integers only) and
 the few Python operations the service applies to them: truthiness, `dict[key]`, `key in dict`,
 iteration over a dict's keys and `str()`.
 */
module JsonValue {
  import opened Optional
  import opened Text

  /** An object keeps its members as parsed, duplicates included; the dict view is `Get`/`Keys`. */
  datatype Json =
    | JNull
    | JBool(b: bool)
    | JInt(n: int)
    | JString(s: string)
    | JArray(items: seq<Json>)
    | JObject(members: seq<Member>)

  datatype Member = Member(key: string, value: Json)

  /** Python truthiness: None, False, 0, "", [] and {} are false. */
  predicate Truthy(j: Json) {
    match j
    case JNull => false
    case JBool(b) => b
    case JInt(n) => n != 0
    case JString(s) => s != ""
    case JArray(items) => items != []
    case JObject(members) => members != []
  }

  /** `d.get(key)` on the dict `json.loads` builds from the members: the last duplicate wins. */
  function Get(members: seq<Member>, key: string): (r: Option<Json>)
    ensures r.None? <==> forall i :: 0 <= i < |members| ==> members[i].key != key
    ensures r.Some? ==> Member(key, r.value) in members
    decreases |members|
  {
    if members == [] then None
    else if members[|members| - 1].key == key then Some(members[|members| - 1].value)
    else
      var init := members[..|members| - 1];
      assert members == init + [members[|members| - 1]];
      Get(init, key)
  }

  /** A key's value is the one of its last occurrence. */
  lemma {:induction false} GetLastOccurrence(members: seq<Member>, i: nat, key: string)
    requires i < |members| && members[i].key == key
    requires forall j :: i < j < |members| ==> members[j].key != key
    ensures Get(members, key) == Some(members[i].value)
    decreases |members|
  {
    if i < |members| - 1 {
      GetLastOccurrence(members[..|members| - 1], i, key);
    }
  }

  /** `key in d`. */
  predicate HasKey(members: seq<Member>, key: string) {
    Get(members, key).Some?
  }

  function KeyList(members: seq<Member>): (r: seq<string>)
    ensures |r| == |members|
    ensures forall i :: 0 <= i < |members| ==> r[i] == members[i].key
  {
    seq(|members|, i requires 0 <= i < |members| => members[i].key)
  }

  /** `list(d)`: the keys in the order of their first insertion. */
  function Keys(members: seq<Member>): (r: seq<string>)
    ensures Distinct(r)
    ensures forall k :: k in r <==> HasKey(members, k)
  {
    var r := Dedup(KeyList(members));
    assert forall k :: k in KeyList(members) <==> HasKey(members, k) by {
      forall k ensures k in KeyList(members) <==> HasKey(members, k) {
        if HasKey(members, k) {
          var i :| 0 <= i < |members| && members[i].key == k;
          assert KeyList(members)[i] == k;
        }
      }
    }
    r
  }

  /** The members without any entry for `key` (`d.pop(key, None)` on the dict view). */
  function Without(members: seq<Member>, key: string): (r: seq<Member>)
    ensures !HasKey(r, key)
    ensures forall k :: k != key ==> Get(r, k) == Get(members, k)
    decreases |members|
  {
    if members == [] then []
    else
      var init := Without(members[..|members| - 1], key);
      var last := members[|members| - 1];
      if last.key == key then init else init + [last]
  }

  /** The members with `d[key] = value` applied on the dict view. */
  function Assign(members: seq<Member>, key: string, value: Json): (r: seq<Member>)
    ensures Get(r, key) == Some(value)
    ensures forall k :: k != key ==> Get(r, k) == Get(members, k)
  {
    var w := Without(members, key);
    assert forall k :: k != key ==> Get(w + [Member(key, value)], k) == Get(w, k) by {
      forall k | k != key ensures Get(w + [Member(key, value)], k) == Get(w, k) {
        assert (w + [Member(key, value)])[..|w|] == w;
      }
    }
    w + [Member(key, value)]
  }

  /** `str(v)` for the scalars; `show` is Python's `repr` of a list or dict, which is not modelled. */
  function PyStr(j: Json, show: Json -> string): string {
    match j
    case JNull => "None"
    case JBool(b) => if b then "True" else "False"
    case JInt(n) => IntToDecimal(n)
    case JString(s) => s
    case JArray(_) => show(j)
    case JObject(_) => show(j)
  }

  /** `list(v)` for a value Python can iterate: a list's items, a string's characters or a dict's
      keys; None when iterating raises `TypeError`. */
  function Iterate(j: Json): (r: Option<seq<Json>>)
    ensures r.Some? <==> (j.JArray? || j.JString? || j.JObject?)
    ensures j.JString? ==> r.Some? && |r.value| == |j.s| && forall i :: 0 <= i < |j.s| ==> r.value[i] == JString([j.s[i]])
    ensures j.JObject? ==> r.Some? && |r.value| == |Keys(j.members)| && forall i :: 0 <= i < |r.value| ==> r.value[i].JString?
    ensures j.JObject? ==> forall i :: 0 <= i < |r.value| ==> r.value[i] == JString(Keys(j.members)[i])
  {
    match j
    case JArray(items) => Some(items)
    case JString(s) => Some(seq(|s|, i requires 0 <= i < |s| => JString([s[i]])))
    case JObject(members) =>
      var keys := Keys(members);
      Some(seq(|keys|, i requires 0 <= i < |keys| => JString(keys[i])))
    case _ => None
  }
}
