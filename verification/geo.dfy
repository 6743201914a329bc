/** Records the scorer reads: positions of one tourist and the geo-zones
    an administrator defines, plus the distance measure they are compared by. */
module Geo {

  /** A latitude/longitude pair in degrees. */
  datatype Coord = Coord(lat: real, lng: real)

  /** Local hour of day of a timestamp, as the host's clock reports it. */
  type Hour = h: int | 0 <= h < 24

  /** One stored location sample. `timestamp` is in milliseconds since the
      epoch; `hour` is the local hour of that timestamp. */
  datatype Position = Position(at: Coord, timestamp: int, hour: Hour)

  datatype RiskLevel = Low | Medium | High

  /** A circular geo-zone; `radius` is in kilometres. */
  datatype Zone = Zone(name: string, riskLevel: RiskLevel, center: Coord, radius: real)

  /** The great-circle distance in kilometres between two coordinates.
      The haversine formula itself is floating-point trigonometry and is
      supplied by the caller; the rules below only compare its values
      against constants. */
  type Distance = (Coord, Coord) -> real

  /** The four levels a movement or time sub-score can take. */
  predicate IsFourLevelScore(s: real) {
    s == 100.0 || s == 80.0 || s == 60.0 || s == 40.0
  }

  /** A non-zero count divided by itself is one: the ratio of a window in
      which every sample or pair qualifies. */
  lemma SelfRatio(d: real)
    requires d > 0.0
    ensures d / d == 1.0
  {
  }

  /** Length of the segment between sample i and sample i + 1 of a window. */
  function Segment(w: seq<Position>, i: nat, dist: Distance): real
    requires i + 1 < |w|
  {
    dist(w[i].at, w[i + 1].at)
  }
}
