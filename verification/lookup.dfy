/** `Object.fromEntries(list.map(x => [key(x), x]))[k]`, the id-keyed tables
    the detail sheets build from the staff and complaint arrays: when two
    entries share a key the later one overwrites the earlier. */
module Lookup {
  import opened JsValues

  /** The last element of `s` whose key is `k`, if any. */
  function LastWith<T>(s: seq<T>, key: T -> string, k: string): (r: Option<T>)
    ensures r.None? <==> forall i :: 0 <= i < |s| ==> key(s[i]) != k
    ensures r.Some? ==> exists i :: 0 <= i < |s| && s[i] == r.value && key(s[i]) == k &&
                                    (forall j :: i < j < |s| ==> key(s[j]) != k)
    decreases |s|
  {
    if |s| == 0 then None
    else if key(s[|s| - 1]) == k then Some(s[|s| - 1])
    else
      var r := LastWith(s[..|s| - 1], key, k);
      assert forall i :: 0 <= i < |s| - 1 ==> s[..|s| - 1][i] == s[i];
      r
  }

  /** With distinct keys, looking up an element's key finds that element. */
  lemma LastWithDistinct<T>(s: seq<T>, key: T -> string, i: nat)
    requires i < |s|
    requires forall a, b :: 0 <= a < b < |s| ==> key(s[a]) != key(s[b])
    ensures LastWith(s, key, key(s[i])) == Some(s[i])
  {
    var r := LastWith(s, key, key(s[i]));
    var j :| 0 <= j < |s| && s[j] == r.value && key(s[j]) == key(s[i]) &&
             (forall m :: j < m < |s| ==> key(s[m]) != key(s[i]));
    assert j == i;
  }

  /** With a repeated key, the later element shadows the earlier one. */
  lemma LastWithPrefersLater<T>(s: seq<T>, key: T -> string, i: nat, j: nat)
    requires i < j < |s|
    requires key(s[i]) == key(s[j]) && s[i] != s[j]
    requires forall m :: j < m < |s| ==> key(s[m]) != key(s[j])
    ensures LastWith(s, key, key(s[i])) == Some(s[j])
    ensures LastWith(s, key, key(s[i])) != Some(s[i])
  {
    var r := LastWith(s, key, key(s[j]));
    var k :| 0 <= k < |s| && s[k] == r.value && key(s[k]) == key(s[j]) &&
             (forall m :: k < m < |s| ==> key(s[m]) != key(s[j]));
    assert k == j;
  }
}
