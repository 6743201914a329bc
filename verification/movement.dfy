/** Rule 1: movement pattern. The average length of the segments between
    consecutive samples, sorted into four buckets. */
module Movement {
  import opened Geo

  /** Below this many samples there is too little data to judge. */
  const MinSamples: nat := 10

  /** Sum of the first k segment lengths of the window. */
  function PathLength(w: seq<Position>, k: nat, dist: Distance): (r: real)
    requires k < |w|
    ensures (forall i :: 0 <= i < k ==> Segment(w, i, dist) >= 0.0) ==> r >= 0.0
  {
    if k == 0 then 0.0 else PathLength(w, k - 1, dist) + Segment(w, k - 1, dist)
  }

  /** Average segment length over the whole window (|w| - 1 segments). */
  function AverageSegment(w: seq<Position>, dist: Distance): (r: real)
    requires |w| >= 2
    ensures r * (|w| - 1) as real == PathLength(w, |w| - 1, dist)
  {
    PathLength(w, |w| - 1, dist) / (|w| - 1) as real
  }

  /** Maps an average segment length in km to a score. */
  function MovementBucket(avg: real): (r: real)
    ensures IsFourLevelScore(r)
  {
    if avg < 5.0 then 100.0
    else if avg < 10.0 then 80.0
    else if avg < 20.0 then 60.0
    else 40.0
  }

  /** The movement sub-score of a window, newest sample first. */
  function MovementScore(w: seq<Position>, dist: Distance): (r: real)
    ensures IsFourLevelScore(r)
    ensures |w| < MinSamples ==> r == 100.0
  {
    if |w| < MinSamples then 100.0 else MovementBucket(AverageSegment(w, dist))
  }

  /** The loop of the source: accumulates the segment lengths one by one. */
  method AnalyzeMovementPattern(locations: seq<Position>, dist: Distance) returns (score: real)
    ensures score == MovementScore(locations, dist)
  {
    if |locations| < MinSamples {
      return 100.0;
    }
    var totalDistance := 0.0;
    var i := 0;
    while i < |locations| - 1
      invariant 0 <= i <= |locations| - 1
      invariant totalDistance == PathLength(locations, i, dist)
    {
      var d := dist(locations[i].at, locations[i + 1].at);
      totalDistance := totalDistance + d;
      i := i + 1;
    }
    var avgDistance := totalDistance / (|locations| - 1) as real;
    score := MovementBucket(avgDistance);
  }

  /** A longer average never scores better. */
  lemma MovementBucketAntitone(a: real, b: real)
    requires a <= b
    ensures MovementBucket(b) <= MovementBucket(a)
  {
  }

  /** If every one of the first k segments lies in [lo, hi], so does their
      average: the sum lies between k * lo and k * hi. */
  lemma {:induction false} PathLengthBounds(w: seq<Position>, k: nat, dist: Distance, lo: real, hi: real)
    requires k < |w|
    requires forall i :: 0 <= i < k ==> lo <= Segment(w, i, dist) <= hi
    ensures k as real * lo <= PathLength(w, k, dist) <= k as real * hi
  {
    if k > 0 {
      PathLengthBounds(w, k - 1, dist, lo, hi);
      assert k as real * lo == (k - 1) as real * lo + lo;
      assert k as real * hi == (k - 1) as real * hi + hi;
    }
  }

  lemma QuotientBounds(s: real, d: real, lo: real, hi: real)
    requires d > 0.0
    requires d * lo <= s <= d * hi
    ensures lo <= s / d <= hi
  {
  }

  /** With at least ten samples, the movement score lies between the buckets
      of the longest and of the shortest segment: a window of short hops
      scores 100, a window of long hauls scores 40. */
  lemma MovementScoreBySegments(w: seq<Position>, dist: Distance, lo: real, hi: real)
    requires |w| >= MinSamples
    requires forall i :: 0 <= i < |w| - 1 ==> lo <= Segment(w, i, dist) <= hi
    ensures MovementBucket(hi) <= MovementScore(w, dist) <= MovementBucket(lo)
  {
    PathLengthBounds(w, |w| - 1, dist, lo, hi);
    QuotientBounds(PathLength(w, |w| - 1, dist), (|w| - 1) as real, lo, hi);
    MovementBucketAntitone(lo, AverageSegment(w, dist));
    MovementBucketAntitone(AverageSegment(w, dist), hi);
  }
}
