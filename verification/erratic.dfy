/** Rule 4: erratic movement. The share of consecutive sample pairs that
    cover more than 5 km in under 10 minutes, sorted into three buckets. */
module Erratic {
  import opened Geo

  /** Below this many samples the rule gives no penalty. */
  const MinSamples: nat := 5

  const RapidKm := 5.0
  const RapidMinutes := 10.0

  predicate IsErraticLevel(s: real) {
    s == 100.0 || s == 70.0 || s == 40.0
  }

  /** Minutes from q's timestamp to p's (p is the newer sample in a window
      ordered newest first); negative when the timestamps are out of order. */
  function MinutesBetween(p: Position, q: Position): (r: real)
    ensures r * 60000.0 == (p.timestamp - q.timestamp) as real
  {
    (p.timestamp - q.timestamp) as real / 1000.0 / 60.0
  }

  /** Pair (i, i + 1) implies an unrealistic speed. */
  predicate IsRapid(w: seq<Position>, i: nat, dist: Distance)
    requires i + 1 < |w|
  {
    Segment(w, i, dist) > RapidKm && MinutesBetween(w[i], w[i + 1]) < RapidMinutes
  }

  /** Number of rapid pairs among the first k pairs of the window. */
  function RapidCount(w: seq<Position>, k: nat, dist: Distance): (r: nat)
    requires k < |w|
    ensures r <= k
  {
    if k == 0 then 0 else RapidCount(w, k - 1, dist) + (if IsRapid(w, k - 1, dist) then 1 else 0)
  }

  /** Maps the erratic ratio to a score: three buckets, not four. */
  function ErraticBucket(ratio: real): (r: real)
    ensures IsErraticLevel(r)
  {
    if ratio < 0.1 then 100.0
    else if ratio < 0.3 then 70.0
    else 40.0
  }

  /** The erratic sub-score of a window, newest sample first. */
  function ErraticScore(w: seq<Position>, dist: Distance): (r: real)
    ensures IsErraticLevel(r)
    ensures |w| < MinSamples ==> r == 100.0
  {
    if |w| < MinSamples then 100.0
    else ErraticBucket(RapidCount(w, |w| - 1, dist) as real / (|w| - 1) as real)
  }

  /** The counting loop of the source. */
  method DetectErraticMovement(locations: seq<Position>, dist: Distance) returns (score: real)
    ensures score == ErraticScore(locations, dist)
  {
    if |locations| < MinSamples {
      return 100.0;
    }
    var rapidChanges := 0;
    var i := 0;
    while i < |locations| - 1
      invariant 0 <= i <= |locations| - 1
      invariant rapidChanges == RapidCount(locations, i, dist)
    {
      var timeDiff := (locations[i].timestamp - locations[i + 1].timestamp) as real / 1000.0 / 60.0;
      var distance := dist(locations[i].at, locations[i + 1].at);
      if distance > RapidKm && timeDiff < RapidMinutes {
        rapidChanges := rapidChanges + 1;
      }
      i := i + 1;
    }
    var erraticRatio := rapidChanges as real / (|locations| - 1) as real;
    score := ErraticBucket(erraticRatio);
  }

  /** In integer milliseconds, "under 10 minutes" is "under 600000 ms"; a
      pair whose timestamps run backwards is always "under 10 minutes". */
  lemma RapidInMillis(w: seq<Position>, i: nat, dist: Distance)
    requires i + 1 < |w|
    ensures IsRapid(w, i, dist) <==> Segment(w, i, dist) > 5.0 && w[i].timestamp - w[i + 1].timestamp < 600000
    ensures w[i].timestamp <= w[i + 1].timestamp ==> (IsRapid(w, i, dist) <==> Segment(w, i, dist) > 5.0)
  {
  }

  /** A higher ratio never scores better. */
  lemma ErraticBucketAntitone(a: real, b: real)
    requires a <= b
    ensures ErraticBucket(b) <= ErraticBucket(a)
  {
  }

  /** If all of the first k pairs are rapid, all k count; if none is, none. */
  lemma {:induction false} RapidCountExtremes(w: seq<Position>, k: nat, dist: Distance)
    requires k < |w|
    ensures (forall i :: 0 <= i < k ==> IsRapid(w, i, dist)) ==> RapidCount(w, k, dist) == k
    ensures (forall i :: 0 <= i < k ==> !IsRapid(w, i, dist)) ==> RapidCount(w, k, dist) == 0
  {
    if k > 0 {
      RapidCountExtremes(w, k - 1, dist);
    }
  }

  /** Hence, past the guard, a window without rapid pairs scores 100 and one
      made only of rapid pairs scores 40. */
  lemma ErraticScoreExtremes(w: seq<Position>, dist: Distance)
    requires |w| >= MinSamples
    ensures (forall i :: 0 <= i < |w| - 1 ==> !IsRapid(w, i, dist)) ==> ErraticScore(w, dist) == 100.0
    ensures (forall i :: 0 <= i < |w| - 1 ==> IsRapid(w, i, dist)) ==> ErraticScore(w, dist) == 40.0
  {
    var n := |w| - 1;
    RapidCountExtremes(w, n, dist);
    if forall i :: 0 <= i < n ==> IsRapid(w, i, dist) {
      assert RapidCount(w, n, dist) == n;
      SelfRatio(n as real);
    }
    if forall i :: 0 <= i < n ==> !IsRapid(w, i, dist) {
      assert RapidCount(w, n, dist) as real / n as real == 0.0;
    }
  }
}
