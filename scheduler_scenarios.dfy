/** The scheduler's test cases (Tests/AccordTests/PersistentSchedulerTests.swift),
    run against the model with the time window elapsing as an explicit flush. */
module PersistentSchedulerScenarios {
  import opened Common
  import opened Runnables
  import opened RetryPolicies
  import opened SchedulerStorageMocks
  import opened PersistentSchedulers

  /** `ExpectableRunnable`: completes on its first run. */
  function Expectable(id: string): Runnable
  {
    Runnable(id, [Completed], map[])
  }

  /** `FailingRunnable`: fails with `Errors.failure` on its first run. */
  const FailingRunnable := Runnable("failure", [Failed(RunError(0))], map[])

  /** A single runnable scheduled on a fresh scheduler with a count of 3 stays
      buffered and stored; the window then runs it alone. */
  lemma SingleRunSpec(r: Runnable, evaluate: Evaluator, handling: GiveUpHandling)
    ensures var config := Configuration(3, 3);
      var p := ScheduleSpec(Empty([]), r, config, evaluate, handling);
      var run := Retry(r, evaluate);
      && p == Pipeline([r], [r], [], [r], false, [Appended(r.id)])
      && FlushSpec(p, evaluate, handling)
         == Pipeline(Settled([r], r, run.end), [], [[r]], [r], run.end.GaveUp? && handling == Propagate,
                     [Appended(r.id)] + run.steps)
  {
    var run := Retry(r, evaluate);
    var p := ScheduleSpec(Empty([]), r, Configuration(3, 3), evaluate, handling);
    assert p == Pipeline([r], [r], [], [r], false, [Appended(r.id)]);
    assert FlushSpec(p, evaluate, handling) == Release(p, evaluate, handling);
    assert [r][1..] == [];
    assert RunBatchSpec([r], [r], evaluate, handling)
        == BatchRun(Settled([r], r, run.end), run.end.GaveUp? && handling == Propagate, run.steps);
  }

  /** Replaying two stored runnables with a count of 3: both are appended
      again and stay buffered. */
  lemma ReplayTwoSpec(u1: Runnable, u2: Runnable, evaluate: Evaluator, handling: GiveUpHandling)
    ensures var p := ReplaySpec(Empty([u1, u2]), [u1, u2], Configuration(3, 3), evaluate, handling);
      p.stored == [u1, u2, u1, u2] && p.buffer == [u1, u2] && !p.dead
  {
    var config := Configuration(3, 3);
    var p1 := ScheduleSpec(Empty([u1, u2]), u1, config, evaluate, handling);
    var p2 := ScheduleSpec(p1, u2, config, evaluate, handling);
    assert p1.stored == [u1, u2, u1] && p1.buffer == [u1];
    assert p2.stored == [u1, u2, u1, u2] && p2.buffer == [u1, u2] && !p2.dead;
    assert [u1, u2][1..] == [u2] && [u2][1..] == [];
    assert ReplaySpec(p2, [], config, evaluate, handling) == p2;
    assert ReplaySpec(p1, [u2], config, evaluate, handling) == p2;
  }

  /** The window then runs both; each removal deletes both copies. */
  lemma RunTwoSpec(u1: Runnable, u2: Runnable, evaluate: Evaluator, handling: GiveUpHandling)
    requires u1.id != u2.id && u1.script == [Completed] && u2.script == [Completed]
    ensures RunBatchSpec([u1, u2, u1, u2], [u1, u2], evaluate, handling).stored == []
  {
    CompletingMember([u1, u2, u1, u2], u1, [u2], evaluate, handling);
    CompletingMember(WithoutId([u1, u2, u1, u2], u1.id), u2, [], evaluate, handling);
    TwoCopiesRemoved(u1, u2);
  }

  lemma CompletingMember(stored: seq<Runnable>, u: Runnable, rest: seq<Runnable>, evaluate: Evaluator,
                         handling: GiveUpHandling)
    requires u.script == [Completed]
    ensures RunBatchSpec(stored, [u] + rest, evaluate, handling).stored
         == RunBatchSpec(WithoutId(stored, u.id), rest, evaluate, handling).stored
  {
    FirstRunSucceeds(u, evaluate);
    assert ([u] + rest)[0] == u && ([u] + rest)[1..] == rest;
  }

  lemma TwoCopiesRemoved(u1: Runnable, u2: Runnable)
    requires u1.id != u2.id
    ensures WithoutId([u1, u2, u1, u2], u1.id) == [u2, u2]
    ensures WithoutId([u2, u2], u2.id) == []
  {
    WithoutIdCons(u2, [], u1.id);
    assert WithoutId([u2], u1.id) == [u2];
    WithoutIdCons(u1, [u2], u1.id);
    assert WithoutId([u1, u2], u1.id) == [u2] by { assert [u1, u2] == [u1] + [u2]; }
    WithoutIdCons(u2, [u1, u2], u1.id);
    assert WithoutId([u2, u1, u2], u1.id) == [u2, u2] by { assert [u2, u1, u2] == [u2] + [u1, u2]; }
    WithoutIdCons(u1, [u2, u1, u2], u1.id);
    assert [u1, u2, u1, u2] == [u1] + [u2, u1, u2];
    SameIdRemoved(u2);
  }

  lemma SameIdRemoved(u: Runnable)
    ensures WithoutId([u, u], u.id) == []
  {
    WithoutIdCons(u, [], u.id);
    WithoutIdCons(u, [u], u.id);
    assert [u, u] == [u] + [u];
  }

  /** `testInit`: the scheduler keeps the configuration it is given. */
  method InitScenario() returns (maxConcurrentRunnables: nat, bufferPeriod: Interval)
    ensures maxConcurrentRunnables == 3 && bufferPeriod == 3
  {
    var storage := new SchedulerStorageMock();
    var scheduler := new PersistentScheduler(Configuration(3, 3), storage, ConstantEvaluator(GiveUp), Propagate);
    maxConcurrentRunnables := scheduler.configuration.maxConcurrentRunnables;
    bufferPeriod := scheduler.configuration.bufferPeriod;
  }

  /** `testExecute`: right after `schedule` the storage holds the runnable; once
      the window has elapsed it has run and the storage is empty again. */
  method ExecuteScenario() returns (storedAfterSchedule: nat, ran: bool, storedAfterWindow: nat)
    ensures storedAfterSchedule == 1 && ran && storedAfterWindow == 0
  {
    var storage := new SchedulerStorageMock();
    var scheduler := new PersistentScheduler(Configuration(3, 3), storage, ConstantEvaluator(GiveUp), Propagate);
    var r := Expectable("Run the Runnable");
    scheduler.Schedule(r);
    storedAfterSchedule := |storage.runnables|;
    scheduler.Flush();
    SingleRunSpec(r, ConstantEvaluator(GiveUp), Propagate);
    ran := Ran(r.id, 0) in scheduler.log;
    storedAfterWindow := |storage.runnables|;
  }

  /** `testExecutionFailure`: under the default giveUp evaluator a failing runnable
      is evaluated exactly once, with attempt 0, and then removed. The give-up
      also ends the scheduler's subscription. */
  method ExecutionFailureScenario() returns (evaluations: seq<Evaluation>, storedAfterWindow: nat, deadAfterWindow: bool)
    ensures evaluations == [Evaluation(RunError(0), 0)] && storedAfterWindow == 0 && deadAfterWindow
  {
    var storage := new SchedulerStorageMock();
    var ev := ConstantEvaluator(GiveUp);
    var scheduler := new PersistentScheduler(Configuration(3, 3), storage, ev, Propagate);
    var r := FailingRunnable;
    scheduler.Schedule(r);
    scheduler.Flush();
    SingleRunSpec(r, ev, Propagate);
    FailureWithGiveUp(r, RunError(0));
    GiveUpStepsExtract(r.id, 0, RunError(0), GiveUp);
    var steps := [Ran(r.id, 0), Evaluated(r.id, RunError(0), 0, GiveUp), Removed(r.id)];
    CompactMapCons(Appended(r.id), steps, EvaluationOf);
    evaluations := Evaluations(scheduler.log);
    storedAfterWindow := |storage.runnables|;
    deadAfterWindow := scheduler.dead;
  }

  /** Start-up replay: two stored runnables are pushed through `schedule` again,
      so the storage holds each of them twice until the window elapses; then
      both run and the removal by id empties the storage. */
  method ReplayScenario() returns (storedAfterInit: seq<Runnable>, storedAfterWindow: seq<Runnable>)
    ensures var u1, u2 := Expectable("u1"), Expectable("u2");
      storedAfterInit == [u1, u2, u1, u2] && storedAfterWindow == []
  {
    var u1, u2 := Expectable("u1"), Expectable("u2");
    var storage := new SchedulerStorageMock();
    storage.Inject([u1, u2]);
    var scheduler := new PersistentScheduler(Configuration(3, 3), storage, ConstantEvaluator(GiveUp), Propagate);
    ReplayTwoSpec(u1, u2, ConstantEvaluator(GiveUp), Propagate);
    storedAfterInit := storage.runnables;
    scheduler.Flush();
    RunTwoSpec(u1, u2, ConstantEvaluator(GiveUp), Propagate);
    storedAfterWindow := storage.runnables;
  }
}
