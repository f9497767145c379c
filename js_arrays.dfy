/**
 * The JavaScript array operation the components search their lists with:
 * `findIndex` by a key of each element.
 */
module JsArray {

  /** `s.findIndex(x => key(x) === k)`: the index of the first element whose key is `k`, or
      -1 when there is none. */
  function FindIndexBy<T, K(==)>(s: seq<T>, key: T -> K, k: K): (r: int)
    ensures -1 <= r < |s|
    ensures r == -1 <==> forall i :: 0 <= i < |s| ==> key(s[i]) != k
    ensures r != -1 ==> key(s[r]) == k && forall i :: 0 <= i < r ==> key(s[i]) != k
  {
    if s == [] then -1
    else if key(s[0]) == k then 0
    else
      var j := FindIndexBy(s[1..], key, k);
      if j == -1 then -1 else j + 1
  }

}
