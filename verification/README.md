# Tourist safety score — a Dafny model

This project models the rule-based safety scorer of the smart-tourist backend
(`backend/utils/safetyScore.js`) and the alert decision its caller makes
(`backend/routes/locations.js`). Every time a tourist reports a location, the
backend reads the tourist's 50 newest location samples and the high-risk
geo-zones, and computes a safety score in [0, 100]:

- fewer than 5 samples: the cold-start default 85;
- otherwise 100, minus 0.3 × (100 − movement score), minus 0.2 × (100 − time
  score), minus 20 if the latest sample lies inside a high-risk zone, minus
  0.2 × (100 − erratic score), clamped to [0, 100];
- any error during the pass: the fail-open default 85.

The caller raises an automatic alert when the score is below 50.

Modules, one per rule plus the glue:

- `Geo` (geo.dfy): positions, zones, and the distance measure, which is a
  function-typed parameter `Distance = (Coord, Coord) -> real`.
- `Movement` (movement.dfy): the average segment length, in buckets
  100/80/60/40. Below 10 samples the score is 100.
- `Temporal` (temporal.dfy): the share of samples taken between 23:00 and
  05:59, in buckets 100/80/60/40.
- `Erratic` (erratic.dfy): the share of consecutive pairs covering more than
  5 km in under 10 minutes, in buckets 100/70/40. Below 5 samples the score
  is 100.
- `Zones` (zones.dfy): the high-risk filter of the zone query and the
  first-match scan over zones.
- `Scorer` (scorer.dfy): the window query, the weighted combination, the
  clamp, and both defaults.
- `Escalation` (escalation.dfy): the `< 50` alert decision.

The three rule loops of the source (movement, time, erratic) are methods.
Each postcondition equates the result with a function defined by recursion
over the window. The scoring pass `CalculateSafetyScore` is a method too. It
holds the zone loop with its `break`, and its postcondition equates the
result with the function `SafetyScore`. The properties are proved about these
functions:

- bucket ranges and monotonicity;
- counting bounds;
- order independence of the zone scan;
- the score range [38, 100] past cold start, so the clamp never acts there;
- an alert happens exactly when the latest sample is inside a high-risk zone
  and the weighted deductions exceed 30.

Behaviour of the code that is easy to miss, which the model follows:

- The night band includes the whole 05:xx hour. The comment at
  backend/utils/safetyScore.js:85 says "11 PM to 5 AM", but line 86 tests
  `hour <= 5`.
- A pair whose timestamps run backwards counts as "under 10 minutes".
- The time rule divides by the window length even when the window is empty.
  The model gives 40 there, because in JavaScript 0/0 is NaN and every
  threshold comparison with NaN fails. The case is unreachable from the
  scorer.
- The zone query is awaited only after the cold-start check. So a zone-store
  fault matters only past cold start.

## Model

| member | source | states |
|---|---|---|
| `Movement.MovementBucket` | backend/utils/safetyScore.js:72-76 | the movement score is always one of 100, 80, 60, 40 |
| `Movement.MovementScore` | backend/utils/safetyScore.js:56-77 | the movement sub-score is one of the four levels, and exactly 100 with fewer than 10 samples |
| `Movement.AnalyzeMovementPattern` | backend/utils/safetyScore.js:56-77 | the accumulating loop returns the bucket of (sum of the n−1 consecutive segment lengths) / (n−1), or 100 below 10 samples |
| `Movement.MovementBucketAntitone` | backend/utils/safetyScore.js:73-76 | a longer average segment never gives a better movement score |
| `Geo.Segment` | backend/utils/safetyScore.js:61-66 | defines the length of the segment from sample i to sample i + 1, the distance call made by both the movement loop and the erratic loop (lines 107-112) |
| `Movement.PathLength` | backend/utils/safetyScore.js:59-68 | defines the total accumulated over the first k segments; it is non-negative when every segment length is |
| `Movement.AverageSegment` | backend/utils/safetyScore.js:70 | defines the average segment length; times the n−1 segments it gives back the total |
| `Movement.PathLengthBounds` | backend/utils/safetyScore.js:59-68 | if each of k segments lies in [lo, hi], the accumulated total lies in [k·lo, k·hi] |
| `Movement.MovementScoreBySegments` | backend/utils/safetyScore.js:56-77 | with ≥ 10 samples, the movement score lies between the buckets of the longest and of the shortest segment (all hops under 5 km → 100; all hops ≥ 20 km → 40) |
| `Temporal.IsNight` | backend/utils/safetyScore.js:85-86 | defines the night band; an hour is outside it exactly when it lies in 06–22 |
| `Temporal.NightCount` | backend/utils/safetyScore.js:81-89 | the night count over k samples never exceeds k |
| `Temporal.TimeBucket` | backend/utils/safetyScore.js:93-96 | the time score is always one of 100, 80, 60, 40 |
| `Temporal.TimeScoreOf` | backend/utils/safetyScore.js:91-96 | the score of a night count over n samples is a time level; for n = 0 (NaN ratio) it is 40 |
| `Temporal.TimeScore` | backend/utils/safetyScore.js:80-97 | the time sub-score of any window is one of the four levels |
| `Temporal.AnalyzeTimeBasedRisk` | backend/utils/safetyScore.js:80-97 | the counting loop returns the bucket of (night samples) / (window length) |
| `Temporal.NightHours` | backend/utils/safetyScore.js:85-86 | a sample is at night iff its hour is 23, 0, 1, 2, 3, 4 or 5 (the whole 05:xx hour counts) |
| `Temporal.TimeScoreAntitone` | backend/utils/safetyScore.js:91-96 | for a fixed window length, more night samples never raise the time score |
| `Temporal.NightCountExtremes` | backend/utils/safetyScore.js:81-89 | an all-night prefix of length k counts k; an all-day prefix counts 0 |
| `Temporal.TimeScoreExtremes` | backend/utils/safetyScore.js:80-97 | an all-day window scores 100 and an all-night window scores 40 |
| `Erratic.MinutesBetween` | backend/utils/safetyScore.js:106 | defines the gap in minutes between a sample and the next older one; times 60000 it is the millisecond gap, negative when the timestamps run backwards |
| `Erratic.IsRapid` | backend/utils/safetyScore.js:107-115 | defines a rapid pair: distance over 5 km and a gap under 10 minutes |
| `Erratic.RapidCount` | backend/utils/safetyScore.js:103-118 | the number of rapid pairs among k pairs never exceeds k |
| `Erratic.ErraticBucket` | backend/utils/safetyScore.js:122-124 | the erratic score is always one of 100, 70, 40 (three buckets) |
| `Erratic.ErraticScore` | backend/utils/safetyScore.js:100-125 | the erratic sub-score is one of the three levels, and exactly 100 with fewer than 5 samples |
| `Erratic.DetectErraticMovement` | backend/utils/safetyScore.js:100-125 | the counting loop returns the bucket of (rapid pairs) / (n−1), or 100 below 5 samples |
| `Erratic.RapidInMillis` | backend/utils/safetyScore.js:106-115 | a pair is rapid iff its distance exceeds 5 km and its timestamp gap is under 600000 ms; a backwards gap always counts as under 10 minutes |
| `Erratic.ErraticBucketAntitone` | backend/utils/safetyScore.js:120-124 | a higher erratic ratio never gives a better erratic score |
| `Erratic.RapidCountExtremes` | backend/utils/safetyScore.js:103-118 | if all k pairs are rapid the count is k; if none is, 0 |
| `Erratic.ErraticScoreExtremes` | backend/utils/safetyScore.js:100-125 | past the 5-sample guard, no rapid pair gives 100 and all rapid pairs give 40 |
| `Zones.HighRiskZones` | backend/utils/safetyScore.js:28 | the zone query keeps exactly the zones whose risk level is high |
| `Zones.Inside` | backend/utils/safetyScore.js:31-38 | defines "inside a zone": the distance from the point to the zone's centre is strictly below its radius, so a point on the boundary is outside |
| `Zones.InAnyZone` | backend/utils/safetyScore.js:30-42 | defines the first-match scan; when it succeeds there is a first zone k that contains the point, and every zone before k does not |
| `Zones.InAnyZoneIffSome` | backend/utils/safetyScore.js:30-42 | the first-match scan with `break` succeeds iff some listed zone has distance strictly below its radius |
| `Zones.InAnyZoneOrderFree` | backend/utils/safetyScore.js:30-42 | the outcome of the zone scan does not depend on the order of the zone list |
| `Zones.PenaltyIffHighRiskZone` | backend/utils/safetyScore.js:27-42 | the penalty applies iff some high-risk zone contains the latest sample strictly; low and medium zones and points on the boundary never count |
| `Scorer.RecentWindow` | backend/utils/safetyScore.js:8-10 | the window is the min(n, 50) newest samples of the history, in newest-first order |
| `Scorer.Clamp` | backend/utils/safetyScore.js:48 | the clamp lands in [0, 100] and leaves values already in range unchanged |
| `Scorer.Deductions` | backend/utils/safetyScore.js:18-46 | defines what the three weighted rules take away: with sub-scores in [0, 100] it lies in [0, 70]; with sub-scores of at least 40 it is at most 42; perfect sub-scores take away nothing |
| `Scorer.WeightedScore` | backend/utils/safetyScore.js:16-46 | defines the unclamped score; it equals the source's own order of subtraction, with the zone penalty between the time and the erratic deductions, and it never exceeds 100 |
| `Scorer.SafetyScore` | backend/utils/safetyScore.js:5-53 | the score of any input, faults included, lies in [0, 100] |
| `Scorer.CalculateSafetyScore` | backend/utils/safetyScore.js:5-53 | the step-by-step pass returns the score formula: the zone penalty applies at most once, between the time and erratic deductions, and the order does not change the value |
| `Scorer.ColdStartIgnoresZones` | backend/utils/safetyScore.js:12-14 | with fewer than 5 samples the score is exactly 85, whatever the zone query returns, even a fault |
| `Scorer.FaultYieldsDefault` | backend/utils/safetyScore.js:49-52 | a fault of either query gives exactly 85 |
| `Scorer.WeightedScoreRange` | backend/utils/safetyScore.js:16-46 | with sub-scores in [40, 100] the unclamped score lies in [38, 100], and in [58, 100] without the zone penalty |
| `Scorer.ClampIsInactive` | backend/utils/safetyScore.js:16-48 | past cold start the clamp never changes the score, which is the weighted formula and lies in [38, 100] |
| `Escalation.DefaultNeverAlerts` | backend/routes/locations.js:30-35 | the cold-start and fault defaults never raise an alert |
| `Escalation.AlertIffZoneAndDeductions` | backend/routes/locations.js:35 | past cold start, an alert is raised iff the latest sample is in a high-risk zone and the weighted deductions exceed 30 |
| `Escalation.AlertNeedsHighRiskZone` | backend/routes/locations.js:35 | every alert comes from a successful pass past cold start in which some high-risk zone strictly contains the latest sample |
| `Escalation.WorstCaseRaisesAlert` | backend/routes/locations.js:35 | the alert is reachable: ten night-time samples 100 km and one minute apart, under a distance that is zero for identical points and symmetric, with the newest inside a 2 km high-risk zone, score the minimum 38 |
| `Escalation.RaisesAlert` | backend/routes/locations.js:35 | defines the alert decision: the score is strictly below 50 |

## Left out

- Haversine distance (`calculateDistance`, `toRad`, backend/utils/safetyScore.js:128-143): floating-point trigonometry. The model takes the distance as a parameter and assumes nothing about it: not non-negativity, not symmetry, not zero at identical points.
- Floating point in general: all arithmetic is on exact reals. With windows of at most 50 samples, the ratios sit at the thresholds 0.1, 0.3 and 0.5 only when they equal them exactly. Then the double quotient and the double literal agree, so the buckets match. The sub-scores take 4 × 4 × 3 values and the zone penalty is on or off, so there are 96 combinations. Evaluated in the source's order in IEEE-754 doubles, each of them equals its exact real value, so the `< 50` decision agrees with the model. Four combinations give exactly 50, which is not an alert. They are (movement, time, erratic) = (40, 40, 100), (40, 100, 40), (60, 40, 70) and (80, 40, 40), each inside a high-risk zone. The model does not state this double-precision fact.
- NaN distances, from malformed coordinates: the model's distances are ordinary reals.
- Local hour of day (`new Date(...).getHours()`, backend/utils/safetyScore.js:84): it depends on the host's time zone. It is an input field of each sample.
- The database: `Location.find(...).sort(...)` and `GeoZone.find(...)` (backend/utils/safetyScore.js:8-10, 28) are store I/O. The model takes each reply as a parameter: the tourist's history, already sorted newest first, or a fault; all zones, or a fault. The limit of 50 and the high-risk filter are modelled.
- The `console.error` logging in the `catch` (backend/utils/safetyScore.js:50): a side effect with no bearing on the score.
- Any other thrown error inside the `try`: none of the modelled steps can throw, so only the two query faults reach the catch.
- The alternative scorer `calculate_safety_score` in backend/server.py: it depends on scikit-learn's IsolationForest, a foreign library.
- Request handling, persistence, alert creation and the Socket.IO emit in backend/routes/locations.js: only the `< 50` decision is modelled.
- Mongoose schemas, the React frontend and the HTTP test script: declarations, presentation and integration tests, with no scoring logic.
