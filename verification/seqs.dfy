/** The two array searches the drink picker relies on, `Array.prototype.findIndex`
    and `Array.prototype.find`, both scanning from index 0 upwards. */
module Seqs {
  import opened Wrappers

  /** Index of the first element satisfying `p`, or -1 when there is none. */
  function FindIndex<T>(s: seq<T>, p: T -> bool): (r: int)
    ensures -1 <= r < |s|
    ensures r == -1 <==> forall i :: 0 <= i < |s| ==> !p(s[i])
    ensures 0 <= r ==> p(s[r]) && forall j :: 0 <= j < r ==> !p(s[j])
  {
    if |s| == 0 then -1
    else if p(s[0]) then 0
    else
      var k := FindIndex(s[1..], p);
      if k < 0 then -1 else k + 1
  }

  /** The first element satisfying `p`, or None (JavaScript's `undefined`). */
  function Find<T>(s: seq<T>, p: T -> bool): (r: Option<T>)
    ensures r.None? <==> forall i :: 0 <= i < |s| ==> !p(s[i])
    ensures r.Some? ==> r.value in s && p(r.value)
    ensures r.Some? ==> exists k :: 0 <= k < |s| && s[k] == r.value && p(s[k]) && forall j :: 0 <= j < k ==> !p(s[j])
  {
    var k := FindIndex(s, p);
    if k < 0 then None else Some(s[k])
  }
}
