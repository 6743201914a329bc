/** Rule 3: high-risk-zone proximity. Only zones whose risk level is high
    take part, and the latest sample is inside a zone when its distance to
    the zone's centre is strictly less than the radius. */
module Zones {
  import opened Geo

  predicate Inside(at: Coord, z: Zone, dist: Distance) {
    dist(at, z.center) < z.radius
  }

  /** The zone query: the zones whose risk level is high, in stored order. */
  function HighRiskZones(all: seq<Zone>): (r: seq<Zone>)
    ensures forall z :: z in r <==> z in all && z.riskLevel == High
    ensures |r| <= |all|
  {
    if all == [] then []
    else (if all[0].riskLevel == High then [all[0]] else []) + HighRiskZones(all[1..])
  }

  /** None of the first k zones contains the point. */
  predicate ScanPasses(at: Coord, zones: seq<Zone>, k: nat, dist: Distance)
    requires k <= |zones|
  {
    forall j :: 0 <= j < k ==> !Inside(at, zones[j], dist)
  }

  /** The scan of the source: zones are tried in list order and the first
      one that contains the point ends the scan. */
  predicate InAnyZone(at: Coord, zones: seq<Zone>, dist: Distance)
    ensures InAnyZone(at, zones, dist) ==>
      exists k :: 0 <= k < |zones| && Inside(at, zones[k], dist) && ScanPasses(at, zones, k, dist)
    decreases |zones|
  {
    |zones| > 0 && (Inside(at, zones[0], dist) || InAnyZone(at, zones[1..], dist))
  }

  /** The scan finds a zone exactly when some listed zone contains the point. */
  lemma {:induction false} InAnyZoneIffSome(at: Coord, zones: seq<Zone>, dist: Distance)
    ensures InAnyZone(at, zones, dist) <==> exists z :: z in zones && Inside(at, z, dist)
    decreases |zones|
  {
    if |zones| > 0 {
      InAnyZoneIffSome(at, zones[1..], dist);
      assert forall z :: z in zones <==> z == zones[0] || z in zones[1..];
    }
  }

  /** The outcome of the scan does not depend on the order (or repetition)
      of the zones: lists with the same members give the same answer. */
  lemma InAnyZoneOrderFree(at: Coord, zs1: seq<Zone>, zs2: seq<Zone>, dist: Distance)
    requires forall z :: z in zs1 <==> z in zs2
    ensures InAnyZone(at, zs1, dist) == InAnyZone(at, zs2, dist)
  {
    InAnyZoneIffSome(at, zs1, dist);
    InAnyZoneIffSome(at, zs2, dist);
  }

  /** Penalised exactly when some high-risk zone contains the point: a
      low or medium zone never does, and a point on the boundary is outside. */
  lemma PenaltyIffHighRiskZone(at: Coord, all: seq<Zone>, dist: Distance)
    ensures InAnyZone(at, HighRiskZones(all), dist)
        <==> exists z :: z in all && z.riskLevel == High && dist(at, z.center) < z.radius
  {
    InAnyZoneIffSome(at, HighRiskZones(all), dist);
  }
}
