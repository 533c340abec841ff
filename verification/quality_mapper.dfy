/** The quality mapper: snaps a desired (continuous) bitrate onto one of the
    quality levels listed in the manifest. */
module QualityMapper {

  /** The manifest's levels in ascending order; equal neighbours are allowed. */
  ghost predicate Ascending(qi: seq<int>)
  {
    forall i, j :: 0 <= i <= j < |qi| ==> qi[i] <= qi[j]
  }

  /** Level `l` can be sustained at rate `desired`: the scan's test `desired >= level`. */
  predicate Fits(l: int, desired: real)
  {
    l as real <= desired
  }

  /** Among the first `n` levels, index `k` is the last one that fits. */
  ghost predicate LastFitIn(qi: seq<int>, desired: real, n: nat, k: int)
  {
    && n <= |qi|
    && 0 <= k < n
    && Fits(qi[k], desired)
    && (forall j :: k < j < n ==> !Fits(qi[j], desired))
  }

  /** No level of the list fits. */
  ghost predicate NoneFits(qi: seq<int>, desired: real)
  {
    forall j :: 0 <= j < |qi| ==> !Fits(qi[j], desired)
  }

  /** The declarative meaning of the selection: the last listed level that
      fits, or the first listed level when none fits. */
  ghost predicate IsClosest(qi: seq<int>, desired: real, r: int)
  {
    || (exists k :: LastFitIn(qi, desired, |qi|, k) && r == qi[k])
    || (|qi| > 0 && NoneFits(qi, desired) && r == qi[0])
  }

  /** The level the scan holds after examining the first `n` levels: it
      starts at the first level and moves to every level that fits. */
  function SelectedAfter(qi: seq<int>, desired: real, n: nat): (r: int)
    requires 0 < |qi| && n <= |qi|
    ensures r in qi
    ensures (forall j :: 0 <= j < n ==> !Fits(qi[j], desired)) ==> r == qi[0]
    ensures (exists j :: 0 <= j < n && Fits(qi[j], desired)) ==>
              exists k :: LastFitIn(qi, desired, n, k) && r == qi[k]
  {
    if n == 0 then qi[0]
    else if Fits(qi[n - 1], desired) then
      assert LastFitIn(qi, desired, n, n - 1);
      qi[n - 1]
    else
      SelectedAfter(qi, desired, n - 1)
  }

  /** The selected quality level for rate `desired`: never outside the list,
      the last fitting level, or the first level when nothing fits. */
  function ClosestQuality(qi: seq<int>, desired: real): (r: int)
    requires 0 < |qi|
    ensures r in qi
    ensures IsClosest(qi, desired, r)
    ensures NoneFits(qi, desired) ==> r == qi[0]
    ensures !NoneFits(qi, desired) ==> Fits(r, desired)
  {
    SelectedAfter(qi, desired, |qi|)
  }

  /** On an ascending list the selection is the largest level that fits,
      and when none fits it is the lowest level of the list. */
  lemma ClosestIsLargestFitting(qi: seq<int>, desired: real)
    requires 0 < |qi|
    requires Ascending(qi)
    ensures var r := ClosestQuality(qi, desired);
            && (forall j :: 0 <= j < |qi| && Fits(qi[j], desired) ==> qi[j] <= r)
            && (NoneFits(qi, desired) ==> forall j :: 0 <= j < |qi| ==> r <= qi[j])
  {
    var r := ClosestQuality(qi, desired);
    if !NoneFits(qi, desired) {
      var k :| LastFitIn(qi, desired, |qi|, k) && r == qi[k];
      forall j | 0 <= j < |qi| && Fits(qi[j], desired)
        ensures qi[j] <= r
      {
        assert j <= k;
      }
    }
  }

  /** On an ascending list a higher desired rate never selects a lower level. */
  lemma ClosestMonotone(qi: seq<int>, d1: real, d2: real)
    requires 0 < |qi|
    requires Ascending(qi)
    requires d1 <= d2
    ensures ClosestQuality(qi, d1) <= ClosestQuality(qi, d2)
  {
    var r1 := ClosestQuality(qi, d1);
    ClosestIsLargestFitting(qi, d2);
    if NoneFits(qi, d1) {
      assert r1 == qi[0];
      var r2 := ClosestQuality(qi, d2);
      var k :| 0 <= k < |qi| && qi[k] == r2;
      assert qi[0] <= qi[k];
    } else {
      var k :| 0 <= k < |qi| && qi[k] == r1;
      assert Fits(qi[k], d2);
    }
  }
}
