/**
 * The linear "first equal element" search that several drivers write out
 * by hand over their constant tables (format names, pattern names, trigger
 * source names, samplerate lists).
 */
module Search {

  /** The index of the first occurrence of x in s, or -1. */
  function FirstIndex<T(==)>(s: seq<T>, x: T): (r: int)
    ensures -1 <= r < |s|
    ensures r >= 0 ==> s[r] == x && x !in s[..r]
    ensures r == -1 <==> x !in s
  {
    if |s| == 0 then -1
    else if s[0] == x then 0
    else
      var r := FirstIndex(s[1..], x);
      assert s[1..][..r + 1] == s[..r + 2][1..] by {
        if r >= 0 { assert s[1..][..r] == s[1..r + 1]; }
      }
      if r == -1 then -1 else r + 1
  }

  /** The loop itself: scan from index 0 and stop at the first match. */
  method IndexOf<T(==)>(s: seq<T>, x: T) returns (r: int)
    ensures -1 <= r < |s|
    ensures r >= 0 ==> s[r] == x && forall j :: 0 <= j < r ==> s[j] != x
    ensures r == -1 <==> forall j :: 0 <= j < |s| ==> s[j] != x
    ensures r == FirstIndex(s, x)
  {
    var i := 0;
    while i < |s|
      invariant 0 <= i <= |s|
      invariant forall j :: 0 <= j < i ==> s[j] != x
    {
      if s[i] == x {
        return i;
      }
      i := i + 1;
    }
    return -1;
  }

}
