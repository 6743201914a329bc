/** The rule-based safety score of one tourist: the four rules combined with
    fixed weights, the cold-start default and the fail-open default. */
module Scorer {
  import opened Geo
  import opened Movement
  import opened Temporal
  import opened Erratic
  import opened Zones

  /** Reply of a store query: its value, or the error it threw. */
  datatype Reply<T> = Ok(value: T) | Fault

  /** How many of the newest samples are read. */
  const WindowLimit: nat := 50
  /** Below this many samples the score is the default. */
  const ColdStartMin: nat := 5
  /** Score of a new tourist, and of any scoring pass that failed. */
  const DefaultScore := 85.0

  const MovementWeight := 0.3
  const TimeWeight := 0.2
  const ErraticWeight := 0.2
  const ZonePenalty := 20.0

  /** The location query: the tourist's history arrives newest first, and at
      most the 50 newest samples are kept. */
  function RecentWindow(history: seq<Position>): (w: seq<Position>)
    ensures |w| == if |history| < WindowLimit then |history| else WindowLimit
    ensures w == history[..|w|]
  {
    if |history| <= WindowLimit then history else history[..WindowLimit]
  }

  /** Math.max(0, Math.min(100, x)). */
  function Clamp(x: real): (r: real)
    ensures 0.0 <= r <= 100.0
    ensures 0.0 <= x <= 100.0 ==> r == x
    ensures x < 0.0 ==> r == 0.0
    ensures x > 100.0 ==> r == 100.0
  {
    if x < 0.0 then 0.0 else if x > 100.0 then 100.0 else x
  }

  /** What the three weighted rules take away from 100. */
  function Deductions(movement: real, temporal: real, erratic: real): (r: real)
    ensures 0.0 <= movement <= 100.0 && 0.0 <= temporal <= 100.0 && 0.0 <= erratic <= 100.0
            ==> 0.0 <= r <= 70.0
    ensures 40.0 <= movement && 40.0 <= temporal && 40.0 <= erratic ==> r <= 42.0
    ensures movement == 100.0 && temporal == 100.0 && erratic == 100.0 ==> r == 0.0
  {
    MovementWeight * (100.0 - movement) + TimeWeight * (100.0 - temporal) + ErraticWeight * (100.0 - erratic)
  }

  /** The score before clamping. The source subtracts the zone penalty between
      the time and the erratic deductions; the order does not change the value. */
  function WeightedScore(movement: real, temporal: real, erratic: real, inZone: bool): (r: real)
    ensures r == 100.0 - (100.0 - movement) * MovementWeight - (100.0 - temporal) * TimeWeight
                 - (if inZone then ZonePenalty else 0.0) - (100.0 - erratic) * ErraticWeight
    ensures movement <= 100.0 && temporal <= 100.0 && erratic <= 100.0 ==> r <= 100.0
  {
    100.0 - Deductions(movement, temporal, erratic) - (if inZone then ZonePenalty else 0.0)
  }

  /** The score of a tourist, given the replies of the location query (the
      whole history, newest first) and of the zone query (all zones). */
  function SafetyScore(history: Reply<seq<Position>>, zones: Reply<seq<Zone>>, dist: Distance): (r: real)
    ensures 0.0 <= r <= 100.0
  {
    match history
    case Fault => DefaultScore
    case Ok(h) =>
      var w := RecentWindow(h);
      if |w| < ColdStartMin then DefaultScore
      else
        match zones
        case Fault => DefaultScore
        case Ok(all) =>
          Clamp(WeightedScore(MovementScore(w, dist), TimeScore(w), ErraticScore(w, dist),
                              InAnyZone(w[0].at, HighRiskZones(all), dist)))
  }

  /** The scoring pass as the source runs it: the weighted deductions are
      subtracted one by one, the zone penalty between the second and the
      third, and the zone scan stops at the first zone that contains the
      latest sample. A fault of either query yields the default. */
  method CalculateSafetyScore(history: Reply<seq<Position>>, zones: Reply<seq<Zone>>, dist: Distance)
    returns (result: real)
    ensures result == SafetyScore(history, zones, dist)
  {
    if history.Fault? {
      return DefaultScore;
    }
    var locations := RecentWindow(history.value);
    if |locations| < ColdStartMin {
      return DefaultScore;
    }

    var score := 100.0;

    var movementScore := AnalyzeMovementPattern(locations, dist);
    score := score - (100.0 - movementScore) * MovementWeight;

    var timeScore := AnalyzeTimeBasedRisk(locations);
    score := score - (100.0 - timeScore) * TimeWeight;

    var latestLocation := locations[0];
    if zones.Fault? {
      return DefaultScore;
    }
    var geoZones := HighRiskZones(zones.value);
    ghost var beforeZones := score;
    var i := 0;
    while i < |geoZones|
      invariant 0 <= i <= |geoZones|
      invariant score == beforeZones
      invariant forall j :: 0 <= j < i ==> !Inside(latestLocation.at, geoZones[j], dist)
    {
      var distance := dist(latestLocation.at, geoZones[i].center);
      if distance < geoZones[i].radius {
        score := score - ZonePenalty;
        break;
      }
      i := i + 1;
    }
    InAnyZoneIffSome(latestLocation.at, geoZones, dist);
    ghost var inZone := InAnyZone(latestLocation.at, geoZones, dist);
    assert score == beforeZones - (if inZone then ZonePenalty else 0.0);

    // The erratic rule's own "fewer than 5 samples" guard cannot fire here.
    assert |locations| >= Erratic.MinSamples;
    var erraticScore := DetectErraticMovement(locations, dist);
    score := score - (100.0 - erraticScore) * ErraticWeight;

    result := Clamp(score);
  }

  /** Cold start: with fewer than five stored samples the score is 85,
      whatever the zone query would return, even a fault. */
  lemma ColdStartIgnoresZones(h: seq<Position>, zones: Reply<seq<Zone>>, dist: Distance)
    requires |h| < ColdStartMin
    ensures SafetyScore(Ok(h), zones, dist) == 85.0
  {
  }

  /** Fail open: a fault of either query yields 85. */
  lemma FaultYieldsDefault(history: Reply<seq<Position>>, zones: Reply<seq<Zone>>, dist: Distance)
    requires history.Fault? || zones.Fault?
    ensures SafetyScore(history, zones, dist) == 85.0
  {
  }

  /** With every sub-score in [40, 100] the unclamped score lies in [38, 100],
      and in [58, 100] when no zone penalty applies. */
  lemma WeightedScoreRange(movement: real, temporal: real, erratic: real, inZone: bool)
    requires 40.0 <= movement <= 100.0 && 40.0 <= temporal <= 100.0 && 40.0 <= erratic <= 100.0
    ensures 38.0 <= WeightedScore(movement, temporal, erratic, inZone) <= 100.0
    ensures !inZone ==> 58.0 <= WeightedScore(movement, temporal, erratic, inZone)
  {
  }

  /** Past cold start the clamp never changes the value: the score is the
      weighted formula itself, and lies in [38, 100]. */
  lemma ClampIsInactive(h: seq<Position>, all: seq<Zone>, dist: Distance)
    requires |h| >= ColdStartMin
    ensures var w := RecentWindow(h);
            var s := WeightedScore(MovementScore(w, dist), TimeScore(w), ErraticScore(w, dist),
                                   InAnyZone(w[0].at, HighRiskZones(all), dist));
            SafetyScore(Ok(h), Ok(all), dist) == s && 38.0 <= s <= 100.0
  {
  }
}
