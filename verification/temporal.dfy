/** Rule 2: time-based risk. The share of samples taken in the late-night
    hours, sorted into four buckets. */
module Temporal {
  import opened Geo

  /** 23:00 to 05:59 counts as night: both boundary hours are included. */
  predicate IsNight(h: Hour)
    ensures !IsNight(h) <==> 6 <= h <= 22
  {
    h >= 23 || h <= 5
  }

  /** Number of night samples among the first k samples of the window. */
  function NightCount(w: seq<Position>, k: nat): (r: nat)
    requires k <= |w|
    ensures r <= k
  {
    if k == 0 then 0 else NightCount(w, k - 1) + (if IsNight(w[k - 1].hour) then 1 else 0)
  }

  /** Maps the night ratio to a score. */
  function TimeBucket(ratio: real): (r: real)
    ensures IsFourLevelScore(r)
  {
    if ratio < 0.1 then 100.0
    else if ratio < 0.3 then 80.0
    else if ratio < 0.5 then 60.0
    else 40.0
  }

  /** The score of `night` night samples out of `n`. For n == 0 the source
      divides 0 by 0, which gives NaN; every comparison with NaN is false,
      so the last bucket, 40, is returned. */
  function TimeScoreOf(night: nat, n: nat): (r: real)
    ensures IsFourLevelScore(r)
  {
    if n == 0 then 40.0 else TimeBucket(night as real / n as real)
  }

  /** The time sub-score of a window. */
  function TimeScore(w: seq<Position>): (r: real)
    ensures IsFourLevelScore(r)
  {
    TimeScoreOf(NightCount(w, |w|), |w|)
  }

  /** The counting loop of the source. */
  method AnalyzeTimeBasedRisk(locations: seq<Position>) returns (score: real)
    ensures score == TimeScore(locations)
  {
    var nightMovements := 0;
    for i := 0 to |locations|
      invariant nightMovements == NightCount(locations, i)
    {
      if IsNight(locations[i].hour) {
        nightMovements := nightMovements + 1;
      }
    }
    if |locations| == 0 {
      // 0 / 0 is NaN: no threshold comparison succeeds
      score := 40.0;
    } else {
      var nightRatio := nightMovements as real / |locations| as real;
      score := TimeBucket(nightRatio);
    }
  }

  /** The night band, hour by hour: the whole of 05:xx counts, 06:xx does not. */
  lemma NightHours(h: Hour)
    ensures IsNight(h) <==> h in {23, 0, 1, 2, 3, 4, 5}
  {
  }

  /** For a fixed window length, more night samples never raise the score. */
  lemma TimeScoreAntitone(c1: nat, c2: nat, n: nat)
    requires c1 <= c2
    ensures TimeScoreOf(c2, n) <= TimeScoreOf(c1, n)
  {
  }

  /** A window whose first k samples are all at night counts k of them; one
      whose first k samples are all in the day counts none. */
  lemma {:induction false} NightCountExtremes(w: seq<Position>, k: nat)
    requires k <= |w|
    ensures (forall i :: 0 <= i < k ==> IsNight(w[i].hour)) ==> NightCount(w, k) == k
    ensures (forall i :: 0 <= i < k ==> !IsNight(w[i].hour)) ==> NightCount(w, k) == 0
  {
    if k > 0 {
      NightCountExtremes(w, k - 1);
    }
  }

  /** Hence a window taken wholly in the day scores 100 and one taken wholly
      at night scores 40. */
  lemma TimeScoreExtremes(w: seq<Position>)
    requires |w| > 0
    ensures (forall i :: 0 <= i < |w| ==> !IsNight(w[i].hour)) ==> TimeScore(w) == 100.0
    ensures (forall i :: 0 <= i < |w| ==> IsNight(w[i].hour)) ==> TimeScore(w) == 40.0
  {
    NightCountExtremes(w, |w|);
    if forall i :: 0 <= i < |w| ==> IsNight(w[i].hour) {
      assert NightCount(w, |w|) == |w|;
      SelfRatio(|w| as real);
    }
  }
}
