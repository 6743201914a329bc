/** The caller's decision after each new location: a score below 50 raises
    an automatic alert. */
module Escalation {
  import opened Geo
  import opened Movement
  import opened Temporal
  import opened Erratic
  import opened Zones
  import opened Scorer

  const AlertThreshold := 50.0

  predicate RaisesAlert(score: real) {
    score < AlertThreshold
  }

  /** The defaults (cold start, fault) never raise an alert. */
  lemma DefaultNeverAlerts(history: Reply<seq<Position>>, zones: Reply<seq<Zone>>, dist: Distance)
    requires history.Fault? || zones.Fault? || (history.Ok? && |history.value| < ColdStartMin)
    ensures !RaisesAlert(SafetyScore(history, zones, dist))
  {
  }

  /** An alert is raised exactly when the latest sample lies in a high-risk
      zone and the three weighted rules together take away more than 30:
      without the zone penalty the score never drops below 58. */
  lemma AlertIffZoneAndDeductions(h: seq<Position>, all: seq<Zone>, dist: Distance)
    requires |h| >= ColdStartMin
    ensures var w := RecentWindow(h);
            (RaisesAlert(SafetyScore(Ok(h), Ok(all), dist))
             <==> InAnyZone(w[0].at, HighRiskZones(all), dist)
                  && Deductions(MovementScore(w, dist), TimeScore(w), ErraticScore(w, dist)) > 30.0)
  {
  }

  /** Every alert comes from a high-risk zone containing the latest sample. */
  lemma AlertNeedsHighRiskZone(history: Reply<seq<Position>>, zones: Reply<seq<Zone>>, dist: Distance)
    requires RaisesAlert(SafetyScore(history, zones, dist))
    ensures history.Ok? && zones.Ok? && |history.value| >= ColdStartMin
    ensures exists z :: z in zones.value && z.riskLevel == High
                        && dist(history.value[0].at, z.center) < z.radius
  {
    if history.Fault? || zones.Fault? || |history.value| < ColdStartMin {
      DefaultNeverAlerts(history, zones, dist);
    } else {
      var h := history.value;
      AlertIffZoneAndDeductions(h, zones.value, dist);
      assert RecentWindow(h)[0] == h[0];
      PenaltyIffHighRiskZone(h[0].at, zones.value, dist);
    }
  }

  /** Distance along a meridian, 100 km per degree of latitude: zero for
      identical points and symmetric. */
  function MeridianKm(a: Coord, b: Coord): real {
    if a.lat <= b.lat then 100.0 * (b.lat - a.lat) else 100.0 * (a.lat - b.lat)
  }

  /** Ten night-time samples, newest first, one minute and one degree of
      latitude apart, the newest at (0, 0). */
  function NightDash(): seq<Position> {
    seq(10, i => Position(Coord(i as real, 0.0), (9 - i) * 60000, 0))
  }

  /** Each of the three weighted rules gives NightDash its worst score. */
  lemma NightDashSubScores()
    ensures MovementScore(NightDash(), MeridianKm) == 40.0
    ensures TimeScore(NightDash()) == 40.0
    ensures ErraticScore(NightDash(), MeridianKm) == 40.0
  {
    var w := NightDash();
    forall i | 0 <= i < |w| - 1
      ensures Segment(w, i, MeridianKm) == 100.0
      ensures IsRapid(w, i, MeridianKm)
    {
      assert w[i].at.lat + 1.0 == w[i + 1].at.lat;
      assert w[i].timestamp - w[i + 1].timestamp == 60000;
    }
    MovementScoreBySegments(w, MeridianKm, 100.0, 100.0);
    TimeScoreExtremes(w);
    ErraticScoreExtremes(w, MeridianKm);
  }

  /** The alert is reachable: ten night-time samples 100 km and one minute
      apart, the newest inside a high-risk zone of radius 2 km around it,
      score the minimum 38. */
  lemma WorstCaseRaisesAlert()
    ensures var danger := Zone("danger", High, Coord(0.0, 0.0), 2.0);
            var s := SafetyScore(Ok(NightDash()), Ok([danger]), MeridianKm);
            s == 38.0 && RaisesAlert(s)
  {
    var danger := Zone("danger", High, Coord(0.0, 0.0), 2.0);
    var w := NightDash();
    assert RecentWindow(w) == w;
    NightDashSubScores();
    assert HighRiskZones([danger]) == [danger];
    assert w[0].at == Coord(0.0, 0.0);
    assert InAnyZone(w[0].at, [danger], MeridianKm);
  }
}
