/** Minimum and first index of the minimum of a non-empty sequence of loads. */
module Selection {

  /** k is the lowest index holding a value no larger than any other. */
  predicate IsFirstMin(s: seq<real>, k: int) {
    && 0 <= k < |s|
    && (forall j :: 0 <= j < |s| ==> s[k] <= s[j])
    && (forall j :: 0 <= j < k ==> s[k] < s[j])
  }

  predicate StrictlyDecreasing(s: seq<real>) {
    forall i, j :: 0 <= i < j < |s| ==> s[j] < s[i]
  }

  /** At most one index is the first minimum. */
  lemma FirstMinUnique(s: seq<real>, a: int, b: int)
    requires IsFirstMin(s, a) && IsFirstMin(s, b)
    ensures a == b
  {
    assert s[a] == s[b];
  }

  /** Index of the first minimum, scanning left to right. */
  method ArgMin(s: seq<real>) returns (k: nat)
    requires |s| > 0
    ensures IsFirstMin(s, k)
  {
    k := 0;
    var i := 1;
    while i < |s|
      invariant 1 <= i <= |s|
      invariant k < i
      invariant forall j :: 0 <= j < i ==> s[k] <= s[j]
      invariant forall j :: 0 <= j < k ==> s[k] < s[j]
    {
      if s[i] < s[k] {
        k := i;
      }
      i := i + 1;
    }
  }

  /** The least value of a non-empty sequence. */
  function Min(s: seq<real>): (m: real)
    requires |s| > 0
    ensures m in s
    ensures forall j :: 0 <= j < |s| ==> m <= s[j]
  {
    if |s| == 1 then s[0]
    else
      var rest := Min(s[1..]);
      if s[0] <= rest then s[0] else rest
  }

  /** The minimum and the value at the first-minimum index agree. */
  lemma MinAtFirstMin(s: seq<real>, k: int)
    requires IsFirstMin(s, k)
    ensures Min(s) == s[k]
  {
  }

  /** In a strictly decreasing sequence the minimum sits at the end. */
  lemma LastIsFirstMinOfDecreasing(s: seq<real>)
    requires |s| > 0 && StrictlyDecreasing(s)
    ensures IsFirstMin(s, |s| - 1)
  {
  }
}
