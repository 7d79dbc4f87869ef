/** One runner of the race: its record, the per-tick update rule
    (`simular_vuelta`) and what repeated ticks guarantee. */
module Runners {
  import opened Wrappers

  /** `distancia_pista`: the length of one lap of the loop track. */
  const TRACK_LENGTH: real := 50.0

  /** Bounds of `random.uniform(8, 9)`, the initial speed of each runner. */
  const MIN_INITIAL_SPEED: real := 8.0
  const MAX_INITIAL_SPEED: real := 9.0

  /** Bound of `random.uniform(-0.8, 0.8)`, the per-tick speed perturbation. */
  const NOISE_BOUND: real := 0.8

  /** The public fields of one runner dictionary:
      id, vuelta_actual, tiempo_total, mejor_vuelta (None while it is
      Python's infinity), ultimo_tiempo_vuelta, velocidad_actual and
      distancia_total_recorrida. */
  datatype RunnerRecord = RunnerRecord(
    id: int,
    currentLap: int,
    totalTime: real,
    bestLap: Option<real>,
    lastLapTime: real,
    speed: real,
    totalDistance: real)

  /** Completed laps for a covered distance: `math.floor(distance / distancia_pista)`. */
  function LapsCovered(distance: real): (laps: int)
    ensures laps as real <= distance / TRACK_LENGTH < laps as real + 1.0
    ensures distance >= 0.0 ==> laps >= 0
  {
    (distance / TRACK_LENGTH).Floor
  }

  predicate NoiseInRange(noise: real) {
    -NOISE_BOUND <= noise <= NOISE_BOUND
  }

  /** The consistency every runner keeps from its creation on: the lap count
      is derived from the distance, the totals are non-negative, and once a
      lap has been timed the best lap is no slower than the last one. */
  predicate WellFormed(r: RunnerRecord) {
    && r.totalTime >= 0.0
    && r.totalDistance >= 0.0
    && r.currentLap == LapsCovered(r.totalDistance)
    && (r.bestLap.Some? ==> r.bestLap.value <= r.lastLapTime)
    && (r.bestLap.None? ==> r.totalTime == 0.0 && r.totalDistance == 0.0)
  }

  /** A runner as `inicializar_corredores` creates it. */
  function InitialRecord(id: int, speed: real): (r: RunnerRecord)
    ensures WellFormed(r) && r.id == id && r.speed == speed
    ensures r.currentLap == 0 && r.totalTime == 0.0 && r.lastLapTime == 0.0
    ensures r.totalDistance == 0.0 && r.bestLap.None?
  {
    RunnerRecord(id, 0, 0.0, None, 0.0, speed, 0.0)
  }

  /** One call of `simular_vuelta` with the drawn perturbation `noise`.
      The source divides by the perturbed speed unguarded, so it must be positive. */
  function Tick(r: RunnerRecord, noise: real): (t: RunnerRecord)
    requires r.speed + noise > 0.0
    ensures t.id == r.id
    ensures t.speed == r.speed + noise
    ensures t.lastLapTime == TRACK_LENGTH / t.speed && t.lastLapTime > 0.0
    ensures t.totalTime == r.totalTime + t.lastLapTime && t.totalTime > r.totalTime
    ensures t.totalDistance == r.totalDistance + t.speed && t.totalDistance > r.totalDistance
    ensures t.currentLap == LapsCovered(t.totalDistance)
    // the best lap becomes min(old best, this lap)
    ensures t.bestLap.Some? && t.bestLap.value <= t.lastLapTime
    ensures r.bestLap.Some? ==> t.bestLap.value <= r.bestLap.value
    ensures t.bestLap.value == t.lastLapTime || t.bestLap == r.bestLap
    ensures WellFormed(r) ==> WellFormed(t) && t.currentLap >= r.currentLap
  {
    var v := r.speed + noise;
    var lapTime := TRACK_LENGTH / v;
    var distance := r.totalDistance + v;
    r.(totalTime := r.totalTime + lapTime,
       lastLapTime := lapTime,
       speed := v,
       totalDistance := distance,
       currentLap := LapsCovered(distance),
       bestLap := if r.bestLap.None? || lapTime < r.bestLap.value then Some(lapTime) else r.bestLap)
  }

  /** The perturbed speed stays positive on every one of the ticks `noises`
      drawn in turn from a starting speed. */
  predicate SpeedStaysPositive(speed: real, noises: seq<real>)
    decreases |noises|
  {
    noises == [] || (speed + noises[0] > 0.0 && SpeedStaysPositive(speed + noises[0], noises[1..]))
  }

  /** Repeated ticks of one runner, one per element of `noises`. */
  function Run(r: RunnerRecord, noises: seq<real>): (t: RunnerRecord)
    requires SpeedStaysPositive(r.speed, noises)
    ensures t.id == r.id
    ensures t.totalTime >= r.totalTime && t.totalDistance >= r.totalDistance
    ensures noises != [] ==> t.totalTime > r.totalTime && t.totalDistance > r.totalDistance
    ensures WellFormed(r) ==> WellFormed(t) && t.currentLap >= r.currentLap
    decreases |noises|
  {
    if noises == [] then r else Run(Tick(r, noises[0]), noises[1..])
  }

  /** The lap times recorded by those ticks, in order. */
  function LapTimes(speed: real, noises: seq<real>): (times: seq<real>)
    requires SpeedStaysPositive(speed, noises)
    ensures |times| == |noises|
    decreases |noises|
  {
    if noises == [] then []
    else [TRACK_LENGTH / (speed + noises[0])] + LapTimes(speed + noises[0], noises[1..])
  }

  /** After one or more ticks the best lap is the minimum of the old best lap
      and every lap time recorded on the way, and the last lap is the last of them. */
  lemma {:induction false} RunBestLapIsMinimum(r: RunnerRecord, noises: seq<real>)
    requires noises != [] && SpeedStaysPositive(r.speed, noises)
    ensures var t := Run(r, noises); var times := LapTimes(r.speed, noises);
      && t.bestLap.Some?
      && t.lastLapTime == times[|times| - 1]
      && (forall i :: 0 <= i < |times| ==> t.bestLap.value <= times[i])
      && (r.bestLap.Some? ==> t.bestLap.value <= r.bestLap.value)
      && (t.bestLap.value in times || t.bestLap == r.bestLap)
    decreases |noises|
  {
    var first := Tick(r, noises[0]);
    if |noises| > 1 {
      RunBestLapIsMinimum(first, noises[1..]);
    }
  }

  /** While the accumulated perturbation cannot reach the speed, no tick
      divides by zero or yields a negative lap time. */
  lemma {:induction false} BoundedNoiseKeepsSpeedPositive(speed: real, noises: seq<real>)
    requires |noises| as real * NOISE_BOUND < speed
    requires forall i :: 0 <= i < |noises| ==> NoiseInRange(noises[i])
    ensures SpeedStaysPositive(speed, noises)
    decreases |noises|
  {
    if noises != [] {
      BoundedNoiseKeepsSpeedPositive(speed + noises[0], noises[1..]);
    }
  }

  /** A runner started at a speed drawn from [8, 9] survives any nine ticks
      of bounded noise. */
  lemma FirstNineTicksAreSafe(speed: real, noises: seq<real>)
    requires MIN_INITIAL_SPEED <= speed <= MAX_INITIAL_SPEED
    requires |noises| <= 9
    requires forall i :: 0 <= i < |noises| ==> NoiseInRange(noises[i])
    ensures SpeedStaysPositive(speed, noises)
  {
    BoundedNoiseKeepsSpeedPositive(speed, noises);
  }

  /** The source does not guard the division: ten draws of -0.8 from the
      slowest initial speed bring the perturbed speed to zero on the tenth tick. */
  lemma TenthTickCanReachZeroSpeed()
    ensures var noises := seq(10, _ => -NOISE_BOUND);
      && (forall i :: 0 <= i < |noises| ==> NoiseInRange(noises[i]))
      && !SpeedStaysPositive(MIN_INITIAL_SPEED, noises)
  {
    var noises := seq(10, _ => -NOISE_BOUND);
    var v := MIN_INITIAL_SPEED;
    var k := 0;
    while k < 9
      invariant 0 <= k <= 9
      invariant v == MIN_INITIAL_SPEED - k as real * NOISE_BOUND
      invariant SpeedStaysPositive(MIN_INITIAL_SPEED, noises) ==> SpeedStaysPositive(v, noises[k..])
    {
      assert noises[k..][0] == -NOISE_BOUND;
      assert noises[k..][1..] == noises[k + 1..];
      v := v - NOISE_BOUND;
      k := k + 1;
    }
    assert noises[9..][0] == -NOISE_BOUND;
  }

  /** A runner dictionary, updated in place by `simular_vuelta`. */
  class Runner {
    var id: int
    var currentLap: int
    var totalTime: real
    var bestLap: Option<real>
    var lastLapTime: real
    var speed: real
    var totalDistance: real

    /** The runner's current field values. */
    function Record(): RunnerRecord
      reads this
    {
      RunnerRecord(id, currentLap, totalTime, bestLap, lastLapTime, speed, totalDistance)
    }

    /** The dictionary literal of `inicializar_corredores`. */
    constructor (id: int, initialSpeed: real)
      ensures Record() == InitialRecord(id, initialSpeed)
    {
      this.id := id;
      currentLap := 0;
      totalTime := 0.0;
      bestLap := None;
      lastLapTime := 0.0;
      speed := initialSpeed;
      totalDistance := 0.0;
    }

    /** `simular_vuelta`: perturb the speed by `noise` and account one tick. */
    method SimulateLap(noise: real)
      requires speed + noise > 0.0
      modifies this
      ensures Record() == Tick(old(Record()), noise)
    {
      var variedSpeed := speed + noise;
      var lapTime := TRACK_LENGTH / variedSpeed;
      totalTime := totalTime + lapTime;
      lastLapTime := lapTime;
      speed := variedSpeed;
      totalDistance := totalDistance + variedSpeed;
      currentLap := LapsCovered(totalDistance);
      if bestLap.None? || lapTime < bestLap.value {
        bestLap := Some(lapTime);
      }
    }
  }
}
