/** Rules of the lane-dodging car game that need no game state: the lane
    clamp, the difficulty curve (speed level and spawn interval) and the
    table of obstacle types with the roll that picks one of them. */
module Rules {

  datatype Option<+T> = None | Some(value: T)

  function Min(a: int, b: int): int { if a <= b then a else b }
  function Max(a: int, b: int): int { if a >= b then a else b }

  // ---------------------------------------------------------------- lanes

  /** The road has three lanes, numbered 0 (left) to 2 (right). */
  const LaneCount: nat := 3

  /** The lane `setCarLane` stores for a requested index: the index pulled
      into the range of lane numbers, from below to 0 and from above to the
      last lane. */
  function ClampLane(index: int): (lane: nat)
    ensures lane < LaneCount
    ensures 0 <= index < LaneCount ==> lane == index
    ensures index < 0 ==> lane == 0
    ensures LaneCount <= index ==> lane == LaneCount - 1
  {
    Max(0, Min(LaneCount - 1, index))
  }

  /** Clamping twice is clamping once; clamping keeps the order of indices. */
  lemma ClampLaneIdempotentMonotone(i: int, j: int)
    ensures ClampLane(ClampLane(i)) == ClampLane(i)
    ensures i <= j ==> ClampLane(i) <= ClampLane(j)
  {
  }

  /** A left step from the leftmost lane and a right step from the rightmost
      lane leave the car where it is; any other step moves it by one lane. */
  lemma LaneStep(lane: nat)
    requires lane < LaneCount
    ensures ClampLane(lane - 1) == if lane == 0 then 0 else lane - 1
    ensures ClampLane(lane + 1) == if lane == LaneCount - 1 then lane else lane + 1
  {
  }

  // ----------------------------------------------------------- difficulty

  /** One speed level is gained per 6 seconds of play (elapsed is kept in
      milliseconds here) and per 120 points; the level is capped at 10. */
  const MsPerLevel: nat := 6000
  const PointsPerLevel: nat := 120
  const MaxSpeed: int := 10

  /** The level `updateSpeed` computes: one plus a level per whole six
      seconds played plus a level per whole 120 points, capped at the
      maximum. */
  function SpeedLevel(elapsedMs: nat, score: nat): (level: int)
    ensures 1 <= level <= MaxSpeed
    ensures level == MaxSpeed || level == 1 + elapsedMs / MsPerLevel + score / PointsPerLevel
    ensures level <= 1 + elapsedMs / MsPerLevel + score / PointsPerLevel
  {
    Min(MaxSpeed, 1 + elapsedMs / MsPerLevel + score / PointsPerLevel)
  }

  /** The speed level never drops while elapsed time and score do not drop. */
  lemma SpeedLevelMonotone(e1: nat, s1: nat, e2: nat, s2: nat)
    requires e1 <= e2 && s1 <= s2
    ensures SpeedLevel(e1, s1) <= SpeedLevel(e2, s2)
  {
  }

  /** After 54 seconds of play, or from 1080 points on, the level is at its
      maximum. */
  lemma SpeedLevelSaturates(elapsedMs: nat, score: nat)
    requires elapsedMs >= 9 * MsPerLevel || score >= 9 * PointsPerLevel
    ensures SpeedLevel(elapsedMs, score) == MaxSpeed
  {
  }

  /** The period, in milliseconds, of the spawn timer that `startSpawning`
      installs: 820 ms less 45 ms per speed level, but never below 360 ms. */
  function SpawnInterval(speed: int): (ms: int)
    ensures ms >= 360
    ensures 1 <= speed <= MaxSpeed ==> 370 <= ms <= 775
  {
    Max(820 - speed * 45, 360)
  }

  /** On the reachable levels 1..10 the 360 ms floor never applies, and every
      level up spawns obstacles strictly more often. */
  lemma SpawnIntervalOnLevels(s1: int, s2: int)
    requires 1 <= s1 <= MaxSpeed && 1 <= s2 <= MaxSpeed
    ensures SpawnInterval(s1) == 820 - 45 * s1
    ensures s1 < s2 ==> SpawnInterval(s2) < SpawnInterval(s1)
    ensures SpawnInterval(s1) - SpawnInterval(s2) == 45 * (s2 - s1)
  {
  }

  // ------------------------------------------------------------ obstacles

  datatype Kind = Car | Truck | Cone | Oil

  /** One entry of `obstacleTypes`: its id, the points it is worth once it
      has left the road, and its speed multiplier. */
  datatype ObstacleType = ObstacleType(kind: Kind, points: nat, speedMul: real)

  const ObstacleTypes: seq<ObstacleType> := [
    ObstacleType(Car, 10, 1.0),
    ObstacleType(Truck, 14, 0.9),
    ObstacleType(Cone, 8, 1.1),
    ObstacleType(Oil, 6, 1.2)
  ]

  /** The threshold chain of `pickObstacleType` applied to a roll. */
  function PickObstacleType(roll: real): (t: ObstacleType)
    ensures t in ObstacleTypes
    ensures t == TypeOf(t.kind)
  {
    if roll < 0.55 then ObstacleTypes[0]
    else if roll < 0.75 then ObstacleTypes[1]
    else if roll < 0.9 then ObstacleTypes[2]
    else ObstacleTypes[3]
  }

  /** The table entry of a kind. */
  function TypeOf(k: Kind): (t: ObstacleType)
    ensures t in ObstacleTypes && t.kind == k
  {
    match k
    case Car => ObstacleTypes[0]
    case Truck => ObstacleTypes[1]
    case Cone => ObstacleTypes[2]
    case Oil => ObstacleTypes[3]
  }

  /** No two entries of the table share a kind, so the entry of a kind is
      the only one with that kind. */
  lemma TypeOfUnique(k: Kind, i: nat)
    requires i < |ObstacleTypes| && ObstacleTypes[i].kind == k
    ensures ObstacleTypes[i] == TypeOf(k)
  {
  }

  /** The share of the unit interval given to each kind, as a half-open band
      [BandLow(k), BandHigh(k)). */
  function BandLow(k: Kind): real
  {
    match k
    case Car => 0.0
    case Truck => 0.55
    case Cone => 0.75
    case Oil => 0.9
  }

  function BandHigh(k: Kind): real
  {
    match k
    case Car => 0.55
    case Truck => 0.75
    case Cone => 0.9
    case Oil => 1.0
  }

  /** The bands tile [0, 1) without gaps or overlaps: cars take 55% of the
      rolls, trucks 20%, cones 15% and oil 10%. */
  lemma BandsTileUnitInterval()
    ensures BandLow(Car) == 0.0 && BandHigh(Oil) == 1.0
    ensures BandHigh(Car) == BandLow(Truck) && BandHigh(Truck) == BandLow(Cone)
    ensures BandHigh(Cone) == BandLow(Oil)
    ensures BandHigh(Car) - BandLow(Car) == 0.55 && BandHigh(Truck) - BandLow(Truck) == 0.2
    ensures BandHigh(Cone) - BandLow(Cone) == 0.15 && BandHigh(Oil) - BandLow(Oil) == 0.1
  {
  }

  /** A roll from [0, 1) picks a kind exactly when it falls into that kind's
      band. */
  lemma PickObstacleTypeBands(roll: real, k: Kind)
    requires 0.0 <= roll < 1.0
    ensures PickObstacleType(roll).kind == k <==> BandLow(k) <= roll < BandHigh(k)
  {
  }

  /** A larger roll never picks an earlier entry of the table. */
  lemma PickObstacleTypeMonotone(r1: real, r2: real)
    requires r1 <= r2
    ensures KindIndex(PickObstacleType(r1).kind) <= KindIndex(PickObstacleType(r2).kind)
  {
  }

  /** The position of a kind in `obstacleTypes`. */
  function KindIndex(k: Kind): (i: nat)
    ensures i < |ObstacleTypes| && ObstacleTypes[i].kind == k
  {
    match k
    case Car => 0
    case Truck => 1
    case Cone => 2
    case Oil => 3
  }

  /** The lane `spawnEnemy` places a new obstacle in: the roll scaled to the
      number of lanes and rounded down. */
  function SpawnLane(laneRoll: real): (lane: nat)
    requires 0.0 <= laneRoll < 1.0
    ensures lane < LaneCount
    ensures lane as real <= laneRoll * LaneCount as real < lane as real + 1.0
  {
    (laneRoll * LaneCount as real).Floor
  }
}
