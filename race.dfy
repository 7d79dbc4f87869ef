/** The race control state of the simulator: the runner list `corredores`
    and the `simulacion_activa` flag, with start, stop, one iteration of the
    simulation loop and one iteration of the export loop. */
module Race {
  import opened Wrappers
  import opened Runners
  import opened Timing

  /** `cantidad_corredores`. */
  const RUNNER_COUNT: nat := 5

  /** The two messages of `iniciar_simulacion`. */
  datatype StartReply = Started | AlreadyActive

  /** The two messages of `detener_simulacion`. */
  datatype StopReply = Stopped | NotActive

  /** Current field values of a list of runner objects, in list order. */
  function RecordsOf(rs: seq<Runner>): (records: seq<RunnerRecord>)
    reads rs
    ensures |records| == |rs|
    ensures forall i :: 0 <= i < |rs| ==> records[i] == rs[i].Record()
  {
    if rs == [] then [] else [rs[0].Record()] + RecordsOf(rs[1..])
  }

  /** What `inicializar_corredores` builds from the drawn initial speeds:
      runner k (from 0) gets id k + 1 and speed `speeds[k]`, all else zero. */
  function InitialRecords(speeds: seq<real>): (rs: seq<RunnerRecord>)
    ensures |rs| == |speeds|
    ensures forall i :: 0 <= i < |rs| ==> rs[i] == InitialRecord(i + 1, speeds[i])
  {
    if speeds == [] then []
    else InitialRecords(speeds[..|speeds| - 1]) + [InitialRecord(|speeds|, speeds[|speeds| - 1])]
  }

  predicate InitialSpeedsDrawn(speeds: seq<real>) {
    forall i :: 0 <= i < |speeds| ==> MIN_INITIAL_SPEED <= speeds[i] <= MAX_INITIAL_SPEED
  }

  /** Every perturbed speed of one tick of the whole field is positive. */
  predicate CanTick(rs: seq<RunnerRecord>, noise: seq<real>) {
    |noise| == |rs| && forall i :: 0 <= i < |rs| ==> rs[i].speed + noise[i] > 0.0
  }

  /** Every runner advanced once by its own perturbation; no runner's update
      depends on another's. */
  function TickAll(rs: seq<RunnerRecord>, noise: seq<real>): (ts: seq<RunnerRecord>)
    requires CanTick(rs, noise)
    ensures |ts| == |rs|
    ensures forall i :: 0 <= i < |rs| ==> ts[i] == Tick(rs[i], noise[i])
  {
    if rs == [] then [] else [Tick(rs[0], noise[0])] + TickAll(rs[1..], noise[1..])
  }

  /** The consistency of a runner list: ids 1..n in list order and every
      runner well formed. */
  predicate ValidField(rs: seq<RunnerRecord>) {
    forall i :: 0 <= i < |rs| ==> rs[i].id == i + 1 && WellFormed(rs[i])
  }

  /** A freshly built field is valid; so is every field reached from a valid
      one by whole-field ticks, whose totals have all grown. */
  lemma {:induction false} TickAllKeepsFieldValid(rs: seq<RunnerRecord>, noise: seq<real>)
    requires ValidField(rs) && CanTick(rs, noise)
    ensures ValidField(TickAll(rs, noise))
    ensures forall i :: 0 <= i < |rs| ==>
      && TickAll(rs, noise)[i].totalTime > rs[i].totalTime
      && TickAll(rs, noise)[i].totalDistance > rs[i].totalDistance
      && TickAll(rs, noise)[i].currentLap >= rs[i].currentLap
  {
  }

  lemma InitialFieldIsValid(speeds: seq<real>)
    requires InitialSpeedsDrawn(speeds)
    ensures ValidField(InitialRecords(speeds))
    ensures forall i :: 0 <= i < |speeds| ==>
      MIN_INITIAL_SPEED <= InitialRecords(speeds)[i].speed <= MAX_INITIAL_SPEED
  {
  }

  /** No runner object appears twice in the list. */
  predicate Distinct(field: seq<Runner>) {
    forall i, j :: 0 <= i < |field| && 0 <= j < |field| && i != j ==> field[i] != field[j]
  }

  /** The `asyncio.gather` over `simular_vuelta`: each runner object is
      updated in place, once, by its own noise. */
  method AdvanceField(field: seq<Runner>, noise: seq<real>)
    requires Distinct(field) && CanTick(RecordsOf(field), noise)
    modifies field
    ensures RecordsOf(field) == TickAll(old(RecordsOf(field)), noise)
  {
    ghost var before := RecordsOf(field);
    ghost var after := TickAll(before, noise);
    for i := 0 to |field|
      invariant forall k :: 0 <= k < i ==> field[k].Record() == after[k]
      invariant forall k :: i <= k < |field| ==> field[k].Record() == before[k]
    {
      field[i].SimulateLap(noise[i]);
    }
    assert forall k :: 0 <= k < |field| ==> RecordsOf(field)[k] == after[k];
  }

  class Race {
    var runners: seq<Runner>
    var active: bool

    /** Distinct runner objects whose records form a valid field; while the
        race is active the field is full. */
    ghost predicate Valid()
      reads this, runners
    {
      && Distinct(runners)
      && ValidField(Records())
      && (active ==> |runners| == RUNNER_COUNT)
    }

    function Records(): seq<RunnerRecord>
      reads this, runners
    {
      RecordsOf(runners)
    }

    /** The module's initial globals: no runners, race inactive. */
    constructor ()
      ensures Valid() && runners == [] && !active
    {
      runners := [];
      active := false;
    }

    /** `inicializar_corredores`: replace the list by `RUNNER_COUNT` new runners. */
    method InitializeRunners(speeds: seq<real>)
      requires |speeds| == RUNNER_COUNT && InitialSpeedsDrawn(speeds)
      modifies this
      ensures active == old(active)
      ensures forall i :: 0 <= i < |runners| ==> fresh(runners[i])
      ensures Records() == InitialRecords(speeds)
      ensures Valid()
    {
      var fieldSoFar: seq<Runner> := [];
      for i := 0 to RUNNER_COUNT
        modifies {}
        invariant |fieldSoFar| == i
        invariant forall k :: 0 <= k < i ==> fresh(fieldSoFar[k])
        invariant Distinct(fieldSoFar)
        invariant forall k :: 0 <= k < i ==> fieldSoFar[k].Record() == InitialRecord(k + 1, speeds[k])
      {
        var r := new Runner(i + 1, speeds[i]);
        fieldSoFar := fieldSoFar + [r];
      }
      runners := fieldSoFar;
      InitialFieldIsValid(speeds);
    }

    /** `iniciar_simulacion`: when inactive, activate and rebuild the field;
        otherwise leave everything as it is. */
    method Start(speeds: seq<real>) returns (reply: StartReply)
      requires Valid()
      requires |speeds| == RUNNER_COUNT && InitialSpeedsDrawn(speeds)
      modifies this
      ensures Valid() && active
      ensures old(active) ==> reply == AlreadyActive && runners == old(runners) && Records() == old(Records())
      ensures !old(active) ==> reply == Started && Records() == InitialRecords(speeds)
      ensures !old(active) ==> forall i :: 0 <= i < |runners| ==> fresh(runners[i])
    {
      if !active {
        active := true;
        InitializeRunners(speeds);
        reply := Started;
      } else {
        reply := AlreadyActive;
      }
    }

    /** `detener_simulacion`: clear the flag; the runners are never touched. */
    method Stop() returns (reply: StopReply)
      requires Valid()
      modifies this`active
      ensures Valid() && !active
      ensures reply == if old(active) then Stopped else NotActive
      ensures runners == old(runners) && Records() == old(Records())
    {
      if active {
        active := false;
        reply := Stopped;
      } else {
        reply := NotActive;
      }
    }

    /** One iteration of `simular_carrera`: if the race is still active,
        every runner takes one `simular_vuelta` with its drawn noise. */
    method Step(noise: seq<real>) returns (advanced: bool)
      requires Valid()
      requires active ==> CanTick(Records(), noise)
      modifies runners
      ensures Valid() && runners == old(runners) && active == old(active)
      ensures advanced == active
      ensures Records() == if advanced then TickAll(old(Records()), noise) else old(Records())
    {
      advanced := active;
      if !advanced {
        return;
      }
      ghost var before := Records();
      AdvanceField(runners, noise);
      TickAllKeepsFieldValid(before, noise);
    }

    /** One iteration of `generar_xml`: while the race is active the export
        always finds a leader (the field is never empty) and yields the
        leaderboard of the current runners; once stopped it yields nothing. */
    method Export() returns (doc: Option<seq<TimingEntry>>)
      requires Valid()
      ensures doc.Some? <==> active
      ensures active ==> doc == Leaderboard(Records()) && |doc.value| == RUNNER_COUNT
    {
      if active {
        doc := Leaderboard(Records());
      } else {
        doc := None;
      }
    }
  }

  /** Starting twice does not reset the race; stopping twice reports that the
      race is no longer active; stopping keeps the runners. */
  method StartStopTwice(speeds: seq<real>) returns (first: StartReply, second: StartReply, third: StopReply, fourth: StopReply)
    requires |speeds| == RUNNER_COUNT && InitialSpeedsDrawn(speeds)
    ensures first == Started && second == AlreadyActive
    ensures third == Stopped && fourth == NotActive
  {
    var race := new Race();
    first := race.Start(speeds);
    ghost var afterStart := race.Records();
    second := race.Start(speeds);
    assert race.Records() == afterStart;
    third := race.Stop();
    fourth := race.Stop();
    assert race.Records() == afterStart;
  }

  /** Three runners at speed 8 with no perturbation on the 50-unit track:
      after one tick each has lap time 6.25, distance 8 and no completed lap,
      and all three tie for the lead. */
  lemma EvenStartTies()
    ensures var field := TickAll(InitialRecords([8.0, 8.0, 8.0]), [0.0, 0.0, 0.0]);
      && (forall i :: 0 <= i < 3 ==>
            field[i].lastLapTime == 6.25 && field[i].totalDistance == 8.0 && field[i].currentLap == 0)
      && (forall i :: 0 <= i < 3 ==> Leaderboard(field).value[i].gapToLeader == 0.0)
  {
  }
}
