/** The persistent runnables scheduler
    (Accord/Sources/Accord/Scheduler/PersistentScheduler.swift).

    Every scheduled runnable is appended to the storage, then buffered; the
    buffer is released as a batch when it holds `maxConcurrentRunnables`
    runnables or when its time window elapses (modelled as an explicit `Flush`
    event). Each member of a released batch runs under a retry loop that asks
    the evaluator what to do with every error, and is removed from the storage
    once it completes or is given up. A give-up errors the batch's
    `Completable.zip` and with it the whole subscription: the pipeline is then
    dead and later runnables are neither appended nor run. */
module PersistentSchedulers {
  import opened Common
  import opened Runnables
  import opened RetryPolicies
  import opened SchedulerStorageMocks

  /** `RetryPolicyEvaluator.evaluate(error:attempt:)`. */
  type Evaluator = (RunError, nat) -> RetryPolicy

  /** `RetryPolicyEvaluatorMock`: always answers `nextPolicy` (giveUp by default). */
  function ConstantEvaluator(nextPolicy: RetryPolicy): (evaluate: Evaluator)
    ensures forall e, a :: evaluate(e, a) == nextPolicy
  {
    (error: RunError, attempt: nat) => nextPolicy
  }

  datatype Configuration = Configuration(maxConcurrentRunnables: nat, bufferPeriod: Interval)

  /** The side effects of the pipeline, in the order they happen. */
  datatype Step =
    | Appended(id: string)                                                  // storage.append
    | Ran(id: string, run: nat)                                             // a subscription to run()
    | Evaluated(id: string, error: RunError, attempt: nat, policy: RetryPolicy) // retryPolicy.evaluate
    | Resumed(id: string, after: Interval)                                  // the retry signal fired
    | Removed(id: string)                                                   // storage.remove

  /** How a runnable's retry loop ends inside the modelled window. */
  datatype RetryEnd = Succeeded | GaveUp(error: RunError) | StillRunning
  {
    predicate Terminal() { !StillRunning? }
  }

  datatype RetryRun = RetryRun(end: RetryEnd, steps: seq<Step>)

  // ---------------------------------------------------------------------------
  // The retry loop of one runnable (`run()` … `retryWhen` … `do(onError:onCompleted:)`)
  // ---------------------------------------------------------------------------

  /** The retry loop from the run with index `k` on. The errors are enumerated
      from 0 and every error either resumes or ends the loop, so the k-th run,
      if it fails, is evaluated with attempt k. */
  function RetryFrom(r: Runnable, evaluate: Evaluator, k: nat): RetryRun
    decreases |r.script| - k
  {
    if k >= |r.script| then RetryRun(StillRunning, [])
    else match r.script[k]
      case Completed => RetryRun(Succeeded, [Ran(r.id, k), Removed(r.id)])
      case Failed(e) =>
        var policy := evaluate(e, k);
        match ToObservable(policy, e)
        case Fail(err) => RetryRun(GaveUp(err), [Ran(r.id, k), Evaluated(r.id, e, k, policy), Removed(r.id)])
        case Resume(d) =>
          var rest := RetryFrom(r, evaluate, k + 1);
          RetryRun(rest.end, [Ran(r.id, k), Evaluated(r.id, e, k, policy), Resumed(r.id, d)] + rest.steps)
  }

  function Retry(r: Runnable, evaluate: Evaluator): RetryRun
  {
    RetryFrom(r, evaluate, 0)
  }

  /** The retry loop as a loop: runs, asks the evaluator on each failure with the
      zero-based attempt counter, and stops on success or give-up. */
  method RunWithRetry(r: Runnable, evaluate: Evaluator) returns (end: RetryEnd, steps: seq<Step>)
    ensures RetryRun(end, steps) == Retry(r, evaluate)
  {
    var attempt := 0;
    var done := false;
    end, steps := StillRunning, [];
    while !done && attempt < |r.script|
      invariant attempt <= |r.script|
      invariant done ==> RetryRun(end, steps) == Retry(r, evaluate)
      invariant !done ==> end == StillRunning
      invariant !done ==> Retry(r, evaluate).end == RetryFrom(r, evaluate, attempt).end
      invariant !done ==> Retry(r, evaluate).steps == steps + RetryFrom(r, evaluate, attempt).steps
      decreases |r.script| - attempt + (if done then 0 else 1)
    {
      ghost var rest := RetryFrom(r, evaluate, attempt);
      match r.script[attempt]
      case Completed =>
        assert rest == RetryRun(Succeeded, [Ran(r.id, attempt), Removed(r.id)]);
        steps := steps + [Ran(r.id, attempt), Removed(r.id)];
        end, done := Succeeded, true;
      case Failed(e) =>
        var policy := evaluate(e, attempt);
        match ToObservable(policy, e)
        case Fail(err) =>
          assert rest == RetryRun(GaveUp(err), [Ran(r.id, attempt), Evaluated(r.id, e, attempt, policy), Removed(r.id)]);
          steps := steps + [Ran(r.id, attempt), Evaluated(r.id, e, attempt, policy), Removed(r.id)];
          end, done := GaveUp(err), true;
        case Resume(d) =>
          ghost var next := RetryFrom(r, evaluate, attempt + 1);
          var taken := [Ran(r.id, attempt), Evaluated(r.id, e, attempt, policy), Resumed(r.id, d)];
          assert rest == RetryRun(next.end, taken + next.steps);
          assert steps + (taken + next.steps) == (steps + taken) + next.steps;
          steps := steps + taken;
          attempt := attempt + 1;
    }
  }

  /** One call to the evaluator: the error it was given and the attempt number. */
  datatype Evaluation = Evaluation(error: RunError, attempt: nat)

  /** The runs, evaluator calls and removals in a list of steps. */
  function RunOf(s: Step): Option<nat> { if s.Ran? then Some(s.run) else None }
  function EvaluationOf(s: Step): Option<Evaluation> { if s.Evaluated? then Some(Evaluation(s.error, s.attempt)) else None }
  function RemovalOf(s: Step): Option<string> { if s.Removed? then Some(s.id) else None }

  function Runs(steps: seq<Step>): seq<nat> { CompactMap(steps, RunOf) }
  function Evaluations(steps: seq<Step>): seq<Evaluation> { CompactMap(steps, EvaluationOf) }
  function Removals(steps: seq<Step>): seq<string> { CompactMap(steps, RemovalOf) }

  lemma ResumedStepsExtract(id: string, k: nat, e: RunError, policy: RetryPolicy, d: Interval, rest: seq<Step>)
    ensures var steps := [Ran(id, k), Evaluated(id, e, k, policy), Resumed(id, d)] + rest;
      && Runs(steps) == [k] + Runs(rest)
      && Evaluations(steps) == [Evaluation(e, k)] + Evaluations(rest)
      && Removals(steps) == Removals(rest)
  {
    var a, b, c := Ran(id, k), Evaluated(id, e, k, policy), Resumed(id, d);
    ResumedRuns(a, b, c, k, rest);
    ResumedEvaluations(a, b, c, e, k, rest);
    ResumedRemovals(a, b, c, rest);
  }

  lemma ResumedRuns(a: Step, b: Step, c: Step, k: nat, rest: seq<Step>)
    requires a.Ran? && a.run == k && b.Evaluated? && c.Resumed?
    ensures Runs([a, b, c] + rest) == [k] + Runs(rest)
  {
    CompactMapPrefix3(a, b, c, rest, RunOf);
  }

  lemma ResumedEvaluations(a: Step, b: Step, c: Step, e: RunError, k: nat, rest: seq<Step>)
    requires a.Ran? && b.Evaluated? && b.error == e && b.attempt == k && c.Resumed?
    ensures Evaluations([a, b, c] + rest) == [Evaluation(e, k)] + Evaluations(rest)
  {
    CompactMapPrefix3(a, b, c, rest, EvaluationOf);
  }

  lemma ResumedRemovals(a: Step, b: Step, c: Step, rest: seq<Step>)
    requires a.Ran? && b.Evaluated? && c.Resumed?
    ensures Removals([a, b, c] + rest) == Removals(rest)
  {
    CompactMapPrefix3(a, b, c, rest, RemovalOf);
  }

  lemma GiveUpStepsExtract(id: string, k: nat, e: RunError, policy: RetryPolicy)
    ensures var steps := [Ran(id, k), Evaluated(id, e, k, policy), Removed(id)];
      && Runs(steps) == [k]
      && Evaluations(steps) == [Evaluation(e, k)]
      && Removals(steps) == [id]
  {
    var nil: seq<Step> := [];
    assert [Ran(id, k), Evaluated(id, e, k, policy), Removed(id)] + nil
        == [Ran(id, k), Evaluated(id, e, k, policy), Removed(id)];
    var a, b, c := Ran(id, k), Evaluated(id, e, k, policy), Removed(id);
    CompactMapPrefix3(a, b, c, nil, RunOf);
    assert OptionToSeq(RunOf(a)) == [k] && OptionToSeq(RunOf(b)) == [] && OptionToSeq(RunOf(c)) == [];
    CompactMapPrefix3(a, b, c, nil, EvaluationOf);
    assert OptionToSeq(EvaluationOf(a)) == [] && OptionToSeq(EvaluationOf(b)) == [Evaluation(e, k)];
    assert OptionToSeq(EvaluationOf(c)) == [];
    CompactMapPrefix3(a, b, c, nil, RemovalOf);
    assert OptionToSeq(RemovalOf(a)) == [] && OptionToSeq(RemovalOf(b)) == [] && OptionToSeq(RemovalOf(c)) == [id];
  }

  lemma CompletedStepsExtract(id: string, k: nat)
    ensures var steps := [Ran(id, k), Removed(id)];
      && Runs(steps) == [k]
      && Evaluations(steps) == []
      && Removals(steps) == [id]
  {
    var nil: seq<Step> := [];
    assert [Ran(id, k), Removed(id)] == [Ran(id, k)] + ([Removed(id)] + nil);
    CompactMapCons(Ran(id, k), [Removed(id)] + nil, RunOf);
    CompactMapCons(Removed(id), nil, RunOf);
    CompactMapCons(Ran(id, k), [Removed(id)] + nil, EvaluationOf);
    CompactMapCons(Removed(id), nil, EvaluationOf);
    CompactMapCons(Ran(id, k), [Removed(id)] + nil, RemovalOf);
    CompactMapCons(Removed(id), nil, RemovalOf);
  }

  /** The first k runs all failed, and the evaluator resumed after each of them. */
  ghost predicate ResumedBefore(r: Runnable, evaluate: Evaluator, k: nat)
    requires k <= |r.script|
  {
    forall j :: 0 <= j < k ==> r.script[j].Failed? && !evaluate(r.script[j].error, j).GiveUp?
  }

  lemma {:induction false} RetryFromRemovesOnceAtEnd(r: Runnable, evaluate: Evaluator, k: nat)
    ensures var run := RetryFrom(r, evaluate, k);
      && Removals(run.steps) == (if run.end.Terminal() then [r.id] else [])
      && (forall i :: 0 <= i < |run.steps| && run.steps[i].Removed? ==> i == |run.steps| - 1)
    decreases |r.script| - k
  {
    if k < |r.script| {
      match r.script[k]
      case Completed => CompletedStepsExtract(r.id, k);
      case Failed(e) =>
        var policy := evaluate(e, k);
        if policy.GiveUp? {
          GiveUpStepsExtract(r.id, k, e, policy);
        } else {
          RetryFromRemovesOnceAtEnd(r, evaluate, k + 1);
          ResumedStepsExtract(r.id, k, e, policy, ToObservable(policy, e).after, RetryFrom(r, evaluate, k + 1).steps);
        }
    }
  }

  /** storage.remove is called exactly once for a runnable whose loop ends
      (success or give-up), never for one still retrying, and always as the last
      thing its loop does, so never after a failure that was retried. */
  lemma RetryRemovesOnceAtEnd(r: Runnable, evaluate: Evaluator)
    ensures var run := Retry(r, evaluate);
      && Removals(run.steps) == (if run.end.Terminal() then [r.id] else [])
      && (forall i :: 0 <= i < |run.steps| && run.steps[i].Removed? ==> i == |run.steps| - 1)
  {
    RetryFromRemovesOnceAtEnd(r, evaluate, 0);
  }

  ghost function EvaluationsFrom(r: Runnable, evaluate: Evaluator, k: nat): seq<Evaluation>
  {
    Evaluations(RetryFrom(r, evaluate, k).steps)
  }

  /** The j-th evaluation of the loop started at run k is of run k + j, which failed. */
  lemma {:induction false} RetryFromEvaluation(r: Runnable, evaluate: Evaluator, k: nat, j: nat)
    requires j < |EvaluationsFrom(r, evaluate, k)|
    ensures k + j < |r.script| && r.script[k + j].Failed?
    ensures EvaluationsFrom(r, evaluate, k)[j] == Evaluation(r.script[k + j].error, k + j)
    decreases |r.script| - k
  {
    if k < |r.script| {
      match r.script[k]
      case Completed =>
        CompletedStepsExtract(r.id, k);
      case Failed(e) =>
        var policy := evaluate(e, k);
        if policy.GiveUp? {
          GiveUpStepsExtract(r.id, k, e, policy);
          assert EvaluationsFrom(r, evaluate, k) == [Evaluation(e, k)];
        } else {
          ResumedStepsExtract(r.id, k, e, policy, ToObservable(policy, e).after, RetryFrom(r, evaluate, k + 1).steps);
          assert EvaluationsFrom(r, evaluate, k) == [Evaluation(e, k)] + EvaluationsFrom(r, evaluate, k + 1);
          if j > 0 {
            RetryFromEvaluation(r, evaluate, k + 1, j - 1);
            assert k + 1 + (j - 1) == k + j;
          }
        }
    }
  }

  /** Every run of the loop started at run k is evaluated except a run that
      completed, and only the last run can have completed. */
  lemma {:induction false} RetryFromEvaluationCount(r: Runnable, evaluate: Evaluator, k: nat)
    ensures var run := RetryFrom(r, evaluate, k);
      |Evaluations(run.steps)| == |Runs(run.steps)| - (if run.end.Succeeded? then 1 else 0)
    decreases |r.script| - k
  {
    if k < |r.script| {
      match r.script[k]
      case Completed => CompletedStepsExtract(r.id, k);
      case Failed(e) =>
        var policy := evaluate(e, k);
        if policy.GiveUp? {
          GiveUpStepsExtract(r.id, k, e, policy);
        } else {
          RetryFromEvaluationCount(r, evaluate, k + 1);
          ResumedStepsExtract(r.id, k, e, policy, ToObservable(policy, e).after, RetryFrom(r, evaluate, k + 1).steps);
        }
    }
  }

  /** The loop does something exactly when the runnable has a run in the
      window, and the first thing it does is run 0. */
  lemma RetryStartsWithFirstRun(r: Runnable, evaluate: Evaluator)
    ensures var run := Retry(r, evaluate);
      && (run.steps == [] <==> r.script == [])
      && (run.steps != [] ==> run.steps[0] == Ran(r.id, 0))
  {
  }

  /** The loop has ended (succeeded or given up) exactly when its last step
      is the removal of the runnable from the storage. */
  lemma {:induction false} RetryEndsWithRemoval(r: Runnable, evaluate: Evaluator, k: nat)
    ensures var run := RetryFrom(r, evaluate, k);
      run.end.Terminal() <==> |run.steps| > 0 && run.steps[|run.steps| - 1] == Removed(r.id)
    decreases |r.script| - k
  {
    if k < |r.script| && r.script[k].Failed? {
      var e := r.script[k].error;
      var policy := evaluate(e, k);
      if ToObservable(policy, e).Resume? {
        RetryEndsWithRemoval(r, evaluate, k + 1);
      }
    }
  }

  /** The runs of the loop started at run k are numbered k, k+1, …; every run
      before its last failed and was resumed; how its last run ended decides how
      the loop ends. */
  lemma {:induction false} RetryFromShape(r: Runnable, evaluate: Evaluator, k: nat)
    requires k <= |r.script| && ResumedBefore(r, evaluate, k)
    ensures var run := RetryFrom(r, evaluate, k);
      k + |Runs(run.steps)| <= |r.script|
    ensures var run := RetryFrom(r, evaluate, k);
      forall j :: 0 <= j < |Runs(run.steps)| ==> Runs(run.steps)[j] == k + j
    ensures var run := RetryFrom(r, evaluate, k); var n := |Runs(run.steps)|;
      run.end.StillRunning? ==> k + n == |r.script| && ResumedBefore(r, evaluate, k + n)
    ensures var run := RetryFrom(r, evaluate, k); var n := |Runs(run.steps)|;
      run.end.Terminal() ==> 0 < n && k + n <= |r.script| && ResumedBefore(r, evaluate, k + n - 1)
    ensures var run := RetryFrom(r, evaluate, k); var n := |Runs(run.steps)|;
      run.end.Succeeded? ==> 0 < n && k + n <= |r.script| && r.script[k + n - 1].Completed?
    ensures var run := RetryFrom(r, evaluate, k); var n := |Runs(run.steps)|;
      run.end.GaveUp? ==> 0 < n && k + n <= |r.script| && r.script[k + n - 1] == Failed(run.end.error)
                          && evaluate(run.end.error, k + n - 1).GiveUp?
    decreases |r.script| - k
  {
    if k < |r.script| {
      match r.script[k]
      case Completed => CompletedStepsExtract(r.id, k);
      case Failed(e) =>
        var policy := evaluate(e, k);
        if policy.GiveUp? {
          GiveUpStepsExtract(r.id, k, e, policy);
        } else {
          assert ResumedBefore(r, evaluate, k + 1);
          RetryFromShape(r, evaluate, k + 1);
          ResumedStepsExtract(r.id, k, e, policy, ToObservable(policy, e).after, RetryFrom(r, evaluate, k + 1).steps);
        }
    }
  }

  /** What the retry loop does, from the runnable's outcomes and the evaluator:
      its n runs are numbered 0 … n-1; the evaluator is called once per run
      except a run that completed; every run but the last failed and was
      resumed; the loop succeeds when the last run completed, gives up with
      exactly the error the evaluator answered giveUp for, and is still running
      only when every outcome was a resumed failure. Which call is about which
      run is `RetryEvaluation` and `RetryEvaluatesEveryFailure`. */
  lemma RetryShape(r: Runnable, evaluate: Evaluator)
    ensures var run := Retry(r, evaluate);
      && |Runs(run.steps)| <= |r.script|
      && (forall j :: 0 <= j < |Runs(run.steps)| ==> Runs(run.steps)[j] == j)
    ensures var run := Retry(r, evaluate); var n := |Runs(run.steps)|;
      run.end.StillRunning? ==> n == |r.script| && ResumedBefore(r, evaluate, n)
    ensures var run := Retry(r, evaluate); var n := |Runs(run.steps)|;
      run.end.Terminal() ==> 0 < n <= |r.script| && ResumedBefore(r, evaluate, n - 1)
    ensures var run := Retry(r, evaluate); var n := |Runs(run.steps)|;
      run.end.Succeeded? ==> 0 < n <= |r.script| && r.script[n - 1].Completed?
    ensures var run := Retry(r, evaluate); var n := |Runs(run.steps)|;
      run.end.GaveUp? ==> 0 < n <= |r.script| && r.script[n - 1] == Failed(run.end.error)
                          && evaluate(run.end.error, n - 1).GiveUp?
    ensures var run := Retry(r, evaluate);
      |Evaluations(run.steps)| == |Runs(run.steps)| - (if run.end.Succeeded? then 1 else 0)
  {
    RetryFromShape(r, evaluate, 0);
    RetryFromEvaluationCount(r, evaluate, 0);
  }

  /** The evaluator is asked about failures only, in run order: its j-th call is
      about the j-th run, with that run's error and attempt number j. */
  lemma RetryEvaluation(r: Runnable, evaluate: Evaluator, j: nat)
    requires j < |Evaluations(Retry(r, evaluate).steps)|
    ensures j < |r.script| && r.script[j].Failed?
    ensures Evaluations(Retry(r, evaluate).steps)[j] == Evaluation(r.script[j].error, j)
  {
    RetryFromEvaluation(r, evaluate, 0, j);
  }

  /** The converse: every run that failed is evaluated, the failure of run k
      with its own error and attempt k. */
  lemma RetryEvaluatesEveryFailure(r: Runnable, evaluate: Evaluator, k: nat)
    requires k < |Runs(Retry(r, evaluate).steps)| && k < |r.script| && r.script[k].Failed?
    ensures k < |Evaluations(Retry(r, evaluate).steps)|
    ensures Evaluations(Retry(r, evaluate).steps)[k] == Evaluation(r.script[k].error, k)
  {
    RetryShape(r, evaluate);
    RetryEvaluation(r, evaluate, k);
  }

  /** A runnable that succeeds the first time is run once, is never evaluated, and
      is removed. */
  lemma FirstRunSucceeds(r: Runnable, evaluate: Evaluator)
    requires |r.script| > 0 && r.script[0].Completed?
    ensures Retry(r, evaluate) == RetryRun(Succeeded, [Ran(r.id, 0), Removed(r.id)])
  {
  }

  /** A failing runnable under the default giveUp evaluator: one run, one
      evaluation with attempt 0, one removal. */
  lemma FailureWithGiveUp(r: Runnable, e: RunError)
    requires |r.script| > 0 && r.script[0] == Failed(e)
    ensures Retry(r, ConstantEvaluator(GiveUp))
         == RetryRun(GaveUp(e), [Ran(r.id, 0), Evaluated(r.id, e, 0, GiveUp), Removed(r.id)])
  {
  }

  /** Failing twice and then succeeding under retryImmediately: three runs, two
      evaluations with attempts 0 and 1, and a single removal after the third run. */
  lemma TwoFailuresThenSuccess(r: Runnable, e0: RunError, e1: RunError)
    requires |r.script| >= 3 && r.script[0] == Failed(e0) && r.script[1] == Failed(e1) && r.script[2].Completed?
    ensures var run := Retry(r, ConstantEvaluator(RetryImmediately));
      && run.end == Succeeded
      && Runs(run.steps) == [0, 1, 2]
      && Evaluations(run.steps) == [Evaluation(e0, 0), Evaluation(e1, 1)]
      && Removals(run.steps) == [r.id]
  {
    var ev := ConstantEvaluator(RetryImmediately);
    var s2 := [Ran(r.id, 2), Removed(r.id)];
    var s1 := [Ran(r.id, 1), Evaluated(r.id, e1, 1, RetryImmediately), Resumed(r.id, 0)] + s2;
    var s0 := [Ran(r.id, 0), Evaluated(r.id, e0, 0, RetryImmediately), Resumed(r.id, 0)] + s1;
    assert RetryFrom(r, ev, 2) == RetryRun(Succeeded, s2);
    assert RetryFrom(r, ev, 1) == RetryRun(Succeeded, s1);
    assert Retry(r, ev) == RetryRun(Succeeded, s0);
    CompletedStepsExtract(r.id, 2);
    ResumedStepsExtract(r.id, 1, e1, RetryImmediately, 0, s2);
    ResumedStepsExtract(r.id, 0, e0, RetryImmediately, 0, s1);
  }

  // ---------------------------------------------------------------------------
  // A released batch (`Array<Runnable>.run` and `Completable.zip`)
  // ---------------------------------------------------------------------------

  /** What becomes of a member's give-up error. In the code, `do(onError:)` only
      observes the error, so it errors the batch's `Completable.zip` and, through
      `flatMap`, the scheduler's only subscription (`Propagate`). `Contain` ends
      that member alone, which is what the scheduler's documentation describes. */
  datatype GiveUpHandling = Propagate | Contain

  /** The storage after a batch, whether the batch errored, and the steps. */
  datatype BatchRun = BatchRun(stored: seq<Runnable>, failed: bool, steps: seq<Step>)

  /** The members of a batch run in batch order; a member whose loop ends is
      removed from the storage. With `Propagate`, the first give-up errors the
      zip, which disposes of the members not yet run. */
  function RunBatchSpec(stored: seq<Runnable>, batch: seq<Runnable>, evaluate: Evaluator,
                        handling: GiveUpHandling): (b: BatchRun)
    // a batch only removes, and only a propagated give-up errors it
    ensures |b.stored| <= |stored|
    ensures b.failed ==> handling == Propagate
    decreases |batch|
  {
    if batch == [] then BatchRun(stored, false, [])
    else
      var run := Retry(batch[0], evaluate);
      var stored' := if run.end.Terminal() then WithoutId(stored, batch[0].id) else stored;
      if run.end.GaveUp? && handling == Propagate then BatchRun(stored', true, run.steps)
      else
        var rest := RunBatchSpec(stored', batch[1..], evaluate, handling);
        BatchRun(rest.stored, rest.failed, run.steps + rest.steps)
  }

  /** The storage once a member's loop has ended as `end`. */
  function Settled(stored: seq<Runnable>, r: Runnable, end: RetryEnd): seq<Runnable>
  {
    if end.Terminal() then WithoutId(stored, r.id) else stored
  }

  /** The steps `acc` already taken, followed by the batch run `b`. */
  function After(acc: seq<Step>, b: BatchRun): BatchRun
  {
    BatchRun(b.stored, b.failed, acc + b.steps)
  }

  /** One step of a batch: the member at position i runs; under `Propagate` a
      give-up ends the batch there, otherwise the rest runs. */
  lemma BatchAt(full: BatchRun, acc: seq<Step>, stored: seq<Runnable>, batch: seq<Runnable>, i: nat,
                evaluate: Evaluator, handling: GiveUpHandling, end: RetryEnd, steps: seq<Step>)
    requires i < |batch| && RetryRun(end, steps) == Retry(batch[i], evaluate)
    requires full == After(acc, RunBatchSpec(stored, batch[i..], evaluate, handling))
    ensures if end.GaveUp? && handling == Propagate then
        full == BatchRun(Settled(stored, batch[i], end), true, acc + steps)
      else
        full == After(acc + steps, RunBatchSpec(Settled(stored, batch[i], end), batch[i + 1..], evaluate, handling))
  {
    assert batch[i..][0] == batch[i] && batch[i..][1..] == batch[i + 1..];
    if !(end.GaveUp? && handling == Propagate) {
      var rest := RunBatchSpec(Settled(stored, batch[i], end), batch[i + 1..], evaluate, handling);
      assert acc + (steps + rest.steps) == (acc + steps) + rest.steps;
    }
  }

  /** After a batch, the storage holds exactly what it held except for the ids
      the batch removed: the runs remove nothing else. */
  lemma {:induction false} BatchRemovesOnlyLoggedIds(stored: seq<Runnable>, batch: seq<Runnable>, evaluate: Evaluator,
                                                     handling: GiveUpHandling)
    ensures var b := RunBatchSpec(stored, batch, evaluate, handling);
      forall x :: x in stored && x.id !in Removals(b.steps) ==> x in b.stored
    ensures var b := RunBatchSpec(stored, batch, evaluate, handling);
      forall x :: x in b.stored ==> x in stored && x.id !in Removals(b.steps)
    decreases |batch|
  {
    if batch != [] {
      var run := Retry(batch[0], evaluate);
      RetryRemovesOnceAtEnd(batch[0], evaluate);
      var stored' := if run.end.Terminal() then WithoutId(stored, batch[0].id) else stored;
      WithoutIdMembers(stored, batch[0].id);
      if !(run.end.GaveUp? && handling == Propagate) {
        BatchRemovesOnlyLoggedIds(stored', batch[1..], evaluate, handling);
        var rest := RunBatchSpec(stored', batch[1..], evaluate, handling);
        CompactMapAppend(run.steps, rest.steps, RemovalOf);
      }
    }
  }

  /** With the give-up contained, a batch never errors and every member whose
      loop ends is gone from the storage afterwards. */
  lemma {:induction false} ContainedBatchFinishesEveryMember(stored: seq<Runnable>, batch: seq<Runnable>, evaluate: Evaluator)
    ensures !RunBatchSpec(stored, batch, evaluate, Contain).failed
    ensures forall j, x ::
      (0 <= j < |batch| && Retry(batch[j], evaluate).end.Terminal() && x in RunBatchSpec(stored, batch, evaluate, Contain).stored)
      ==> x.id != batch[j].id
    decreases |batch|
  {
    if batch != [] {
      var run := Retry(batch[0], evaluate);
      var stored' := if run.end.Terminal() then WithoutId(stored, batch[0].id) else stored;
      ContainedBatchFinishesEveryMember(stored', batch[1..], evaluate);
      BatchRemovesOnlyLoggedIds(stored', batch[1..], evaluate, Contain);
      WithoutIdMembers(stored, batch[0].id);
      var rest := RunBatchSpec(stored', batch[1..], evaluate, Contain);
      assert RunBatchSpec(stored, batch, evaluate, Contain) == BatchRun(rest.stored, rest.failed, run.steps + rest.steps);
      forall j, x | 0 <= j < |batch| && Retry(batch[j], evaluate).end.Terminal()
                    && x in rest.stored
        ensures x.id != batch[j].id
      {
        if j > 0 {
          assert batch[j] == batch[1..][j - 1];
        }
      }
    }
  }

  // ---------------------------------------------------------------------------
  // The whole pipeline as a state machine
  // ---------------------------------------------------------------------------

  /** The storage's list, the open buffer, the batches released so far, every
      runnable that entered the pipeline (was appended), whether the
      subscription is dead, and the side effects so far. */
  datatype Pipeline = Pipeline(stored: seq<Runnable>, buffer: seq<Runnable>, batches: seq<seq<Runnable>>,
                               accepted: seq<Runnable>, dead: bool, log: seq<Step>)

  function Flatten(batches: seq<seq<Runnable>>): seq<Runnable>
  {
    if batches == [] then [] else Flatten(batches[..|batches| - 1]) + batches[|batches| - 1]
  }

  /** Every accepted runnable lands in exactly one batch or in the open buffer, in
      arrival order, and with a positive count threshold no batch is larger than
      it. */
  ghost predicate Inv(p: Pipeline, config: Configuration)
  {
    && p.accepted == Flatten(p.batches) + p.buffer
    && (config.maxConcurrentRunnables > 0 ==>
          |p.buffer| < config.maxConcurrentRunnables
          && forall b :: b in p.batches ==> |b| <= config.maxConcurrentRunnables)
  }

  function Empty(stored: seq<Runnable>): Pipeline
  {
    Pipeline(stored, [], [], [], false, [])
  }

  /** The buffer becomes a batch and runs. */
  function Release(p: Pipeline, evaluate: Evaluator, handling: GiveUpHandling): Pipeline
  {
    var b := RunBatchSpec(p.stored, p.buffer, evaluate, handling);
    p.(stored := b.stored, buffer := [], batches := p.batches + [p.buffer], dead := b.failed, log := p.log + b.steps)
  }

  /** `schedule`: append to the storage first, then buffer; the buffer is released
      when its size reaches the count (a count of 0 is never reached). A dead
      pipeline ignores the runnable. */
  function ScheduleSpec(p: Pipeline, r: Runnable, config: Configuration, evaluate: Evaluator,
                        handling: GiveUpHandling): (q: Pipeline)
    ensures !p.dead ==> q.accepted == p.accepted + [r]
    // the pipeline dies on `schedule` only by a count-triggered release whose give-up propagates
    ensures q.dead != p.dead ==> handling == Propagate && |p.buffer| + 1 == config.maxConcurrentRunnables
  {
    if p.dead then p
    else
      var q := p.(stored := p.stored + [r], buffer := p.buffer + [r], accepted := p.accepted + [r],
                  log := p.log + [Appended(r.id)]);
      if |q.buffer| == config.maxConcurrentRunnables then Release(q, evaluate, handling) else q
  }

  /** The buffer's time window elapses (an empty buffer is released too). */
  function FlushSpec(p: Pipeline, evaluate: Evaluator, handling: GiveUpHandling): (q: Pipeline)
    // nothing is accepted; a live pipeline empties its buffer; only a propagated give-up kills it
    ensures q.accepted == p.accepted
    ensures p.dead || q.buffer == []
    ensures q.dead != p.dead ==> handling == Propagate
  {
    if p.dead then p else Release(p, evaluate, handling)
  }

  /** `readFromStorage`: every runnable read back is pushed into the pipeline. */
  function ReplaySpec(p: Pipeline, rs: seq<Runnable>, config: Configuration, evaluate: Evaluator,
                      handling: GiveUpHandling): (q: Pipeline)
    ensures handling == Contain ==> q.dead == p.dead
    decreases |rs|
  {
    if rs == [] then p else ReplaySpec(ScheduleSpec(p, rs[0], config, evaluate, handling), rs[1..], config, evaluate, handling)
  }

  lemma FlattenSnoc(batches: seq<seq<Runnable>>, b: seq<Runnable>)
    ensures Flatten(batches + [b]) == Flatten(batches) + b
  {
    assert (batches + [b])[..|batches|] == batches;
  }

  /** Scheduling keeps the batching invariant. */
  lemma ScheduleKeepsInv(p: Pipeline, r: Runnable, config: Configuration, evaluate: Evaluator, handling: GiveUpHandling)
    requires Inv(p, config)
    ensures Inv(ScheduleSpec(p, r, config, evaluate, handling), config)
  {
    if !p.dead {
      var q := p.(stored := p.stored + [r], buffer := p.buffer + [r], accepted := p.accepted + [r],
                  log := p.log + [Appended(r.id)]);
      assert q.accepted == Flatten(q.batches) + q.buffer;
      if |q.buffer| == config.maxConcurrentRunnables {
        ReleaseKeepsInv(q, config, evaluate, handling);
      }
    }
  }

  /** Flushing keeps the batching invariant. */
  lemma FlushKeepsInv(p: Pipeline, config: Configuration, evaluate: Evaluator, handling: GiveUpHandling)
    requires Inv(p, config)
    ensures Inv(FlushSpec(p, evaluate, handling), config)
  {
    if !p.dead {
      ReleaseKeepsInv(p, config, evaluate, handling);
    }
  }

  /** Releasing a buffer no larger than the count keeps the batching invariant. */
  lemma ReleaseKeepsInv(p: Pipeline, config: Configuration, evaluate: Evaluator, handling: GiveUpHandling)
    requires p.accepted == Flatten(p.batches) + p.buffer
    requires config.maxConcurrentRunnables > 0 ==>
      |p.buffer| <= config.maxConcurrentRunnables && forall b :: b in p.batches ==> |b| <= config.maxConcurrentRunnables
    ensures Inv(Release(p, evaluate, handling), config)
  {
    FlattenSnoc(p.batches, p.buffer);
  }

  /** `schedule` appends the runnable to the storage before anything else happens
      to it; when the buffer is not full yet the storage holds it right after
      `schedule` returns. */
  lemma ScheduleAppendsFirst(p: Pipeline, r: Runnable, config: Configuration, evaluate: Evaluator, handling: GiveUpHandling)
    requires !p.dead
    ensures var q := ScheduleSpec(p, r, config, evaluate, handling);
      && q.accepted == p.accepted + [r]
      && |q.log| > |p.log| && q.log[..|p.log| + 1] == p.log + [Appended(r.id)]
      && (|p.buffer| + 1 != config.maxConcurrentRunnables ==> q.stored == p.stored + [r] && r in q.buffer)
  {
    var q := ScheduleSpec(p, r, config, evaluate, handling);
    if |p.buffer| + 1 == config.maxConcurrentRunnables {
      var b := RunBatchSpec(p.stored + [r], p.buffer + [r], evaluate, handling);
      assert q.log == (p.log + [Appended(r.id)]) + b.steps;
    }
  }

  /** Once dead, the pipeline ignores everything. */
  lemma DeadIsFinal(p: Pipeline, rs: seq<Runnable>, config: Configuration, evaluate: Evaluator, handling: GiveUpHandling)
    requires p.dead
    ensures FlushSpec(p, evaluate, handling) == p && ReplaySpec(p, rs, config, evaluate, handling) == p
    ensures forall r :: ScheduleSpec(p, r, config, evaluate, handling) == p
  {
  }

  /** As written: a give-up in a released batch kills the pipeline, and a
      runnable scheduled afterwards is neither appended to the storage nor run. */
  lemma GiveUpStopsLaterScheduling(p: Pipeline, r: Runnable, later: Runnable, e: RunError, config: Configuration)
    requires !p.dead && p.buffer == [] && config.maxConcurrentRunnables == 1
    requires |r.script| > 0 && r.script[0] == Failed(e)
    ensures var q := ScheduleSpec(p, r, config, ConstantEvaluator(GiveUp), Propagate);
      && q.dead
      && ScheduleSpec(q, later, config, ConstantEvaluator(GiveUp), Propagate) == q
  {
    var ev := ConstantEvaluator(GiveUp);
    FailureWithGiveUp(r, e);
    assert RunBatchSpec(p.stored + [r], [r], ev, Propagate).failed;
  }

  /** Corrected: with the give-up contained the pipeline stays alive, so the same
      later runnable is appended to the storage and accepted. */
  lemma ContainedGiveUpKeepsScheduling(p: Pipeline, r: Runnable, later: Runnable, e: RunError, config: Configuration)
    requires !p.dead && p.buffer == [] && config.maxConcurrentRunnables == 1
    requires |r.script| > 0 && r.script[0] == Failed(e)
    ensures var q := ScheduleSpec(p, r, config, ConstantEvaluator(GiveUp), Contain);
      var q' := ScheduleSpec(q, later, config, ConstantEvaluator(GiveUp), Contain);
      && !q.dead && !q'.dead
      && q'.accepted == p.accepted + [r, later]
      && Appended(later.id) in q'.log
  {
    var ev := ConstantEvaluator(GiveUp);
    var q := ScheduleSpec(p, r, config, ev, Contain);
    ContainedNeverDies(p, r, config, ev);
    ContainedNeverDies(q, later, config, ev);
    ScheduleAppendsFirst(p, r, config, ev, Contain);
    ScheduleAppendsFirst(q, later, config, ev, Contain);
    var q' := ScheduleSpec(q, later, config, ev, Contain);
    assert q'.log[|q.log|] == Appended(later.id);
  }

  /** With the give-up contained, a live pipeline stays alive whatever happens. */
  lemma ContainedNeverDies(p: Pipeline, r: Runnable, config: Configuration, evaluate: Evaluator)
    requires !p.dead
    ensures !ScheduleSpec(p, r, config, evaluate, Contain).dead
    ensures !FlushSpec(p, evaluate, Contain).dead
  {
    ContainedBatchFinishesEveryMember(p.stored, p.buffer, evaluate);
    ContainedBatchFinishesEveryMember(p.stored + [r], p.buffer + [r], evaluate);
  }

  /** Replaying pushes every stored runnable through `schedule`: while the
      pipeline stays alive, each of them is accepted again, in stored order. */
  lemma {:induction false} ReplayAcceptsAll(p: Pipeline, rs: seq<Runnable>, config: Configuration, evaluate: Evaluator,
                                            handling: GiveUpHandling)
    ensures var q := ReplaySpec(p, rs, config, evaluate, handling);
      !q.dead ==> q.accepted == p.accepted + rs
    decreases |rs|
  {
    if rs != [] {
      var p' := ScheduleSpec(p, rs[0], config, evaluate, handling);
      ReplayAcceptsAll(p', rs[1..], config, evaluate, handling);
      if !ReplaySpec(p', rs[1..], config, evaluate, handling).dead {
        if p.dead {
          DeadIsFinal(p, rs[1..], config, evaluate, handling);
        }
        assert rs == [rs[0]] + rs[1..];
      }
    }
  }

  /** With the give-up contained, replay from a live pipeline leaves it alive. */
  lemma {:induction false} ContainedReplayStaysAlive(p: Pipeline, rs: seq<Runnable>, config: Configuration, evaluate: Evaluator)
    requires !p.dead
    ensures !ReplaySpec(p, rs, config, evaluate, Contain).dead
    decreases |rs|
  {
    if rs != [] {
      ContainedNeverDies(p, rs[0], config, evaluate);
      ContainedReplayStaysAlive(ScheduleSpec(p, rs[0], config, evaluate, Contain), rs[1..], config, evaluate);
    }
  }

  lemma {:induction false} ReplayKeepsInv(p: Pipeline, rs: seq<Runnable>, config: Configuration, evaluate: Evaluator,
                                          handling: GiveUpHandling)
    requires Inv(p, config)
    ensures Inv(ReplaySpec(p, rs, config, evaluate, handling), config)
    decreases |rs|
  {
    if rs != [] {
      ScheduleKeepsInv(p, rs[0], config, evaluate, handling);
      ReplayKeepsInv(ScheduleSpec(p, rs[0], config, evaluate, handling), rs[1..], config, evaluate, handling);
    }
  }

  // ---------------------------------------------------------------------------
  // The scheduler object
  // ---------------------------------------------------------------------------

  /** The scheduler, with the give-up handling as a parameter: `Propagate` is
      the code as written, `Contain` the handling its documentation describes. */
  class PersistentScheduler {
    const configuration: Configuration
    const storage: SchedulerStorageMock
    const retryPolicy: Evaluator
    const handling: GiveUpHandling

    /** The open window of the `buffer` operator. */
    var buffer: seq<Runnable>
    /** Whether the subscription to the runnables subject has ended with an error. */
    var dead: bool
    /** The side effects so far (what the tests' expectations observe). */
    var log: seq<Step>
    ghost var batches: seq<seq<Runnable>>
    ghost var accepted: seq<Runnable>

    ghost function State(): Pipeline
      reads this, storage
    {
      Pipeline(storage.runnables, buffer, batches, accepted, dead, log)
    }

    ghost predicate Valid()
      reads this, storage
    {
      Inv(State(), configuration)
    }

    /** `init`: keeps the parts, then replays everything `storage.flushAll`
        returns through the same pipeline. */
    constructor (configuration: Configuration, storage: SchedulerStorageMock, retryPolicy: Evaluator,
                 handling: GiveUpHandling)
      modifies storage
      ensures this.configuration == configuration && this.storage == storage
      ensures this.retryPolicy == retryPolicy && this.handling == handling
      ensures Valid()
      ensures State() == ReplaySpec(Empty(old(storage.runnables)), old(storage.runnables), configuration, retryPolicy, handling)
    {
      this.configuration := configuration;
      this.storage := storage;
      this.retryPolicy := retryPolicy;
      this.handling := handling;
      buffer, dead, log := [], false, [];
      batches, accepted := [], [];
      new;
      ReadFromStorage();
    }

    method ReadFromStorage()
      requires Valid()
      modifies this, storage
      ensures Valid()
      ensures State() == ReplaySpec(old(State()), old(storage.runnables), configuration, retryPolicy, handling)
    {
      var rs := storage.FlushAll();
      var i := 0;
      while i < |rs|
        invariant i <= |rs|
        invariant Valid()
        invariant ReplaySpec(State(), rs[i..], configuration, retryPolicy, handling)
               == ReplaySpec(old(State()), rs, configuration, retryPolicy, handling)
      {
        assert rs[i..][1..] == rs[i + 1..];
        Schedule(rs[i]);
        i := i + 1;
      }
    }

    /** `schedule(runnable:)`: ignored once the subscription is dead. */
    method Schedule(runnable: Runnable)
      requires Valid()
      modifies this, storage
      ensures Valid()
      ensures State() == ScheduleSpec(old(State()), runnable, configuration, retryPolicy, handling)
    {
      if dead {
        return;
      }
      ScheduleKeepsInv(State(), runnable, configuration, retryPolicy, handling);
      storage.Append(runnable);
      log := log + [Appended(runnable.id)];
      buffer := buffer + [runnable];
      accepted := accepted + [runnable];
      if |buffer| == configuration.maxConcurrentRunnables {
        ReleaseBuffer();
      }
    }

    /** The buffer's time window elapsed. */
    method Flush()
      requires Valid()
      modifies this, storage
      ensures Valid()
      ensures State() == FlushSpec(old(State()), retryPolicy, handling)
    {
      if dead {
        return;
      }
      FlushKeepsInv(State(), configuration, retryPolicy, handling);
      ReleaseBuffer();
    }

    method ReleaseBuffer()
      modifies this, storage
      ensures State() == Release(old(State()), retryPolicy, handling)
    {
      var batch := buffer;
      buffer := [];
      batches := batches + [batch];
      dead := RunBatch(batch);
    }

    /** Runs the members of a released batch one after the other (the zip of
        their `Completable`s); under `Propagate` a give-up stops the batch and
        errors the zip. */
    method RunBatch(batch: seq<Runnable>) returns (failed: bool)
      modifies this, storage
      ensures var b := RunBatchSpec(old(storage.runnables), batch, retryPolicy, handling);
        storage.runnables == b.stored && log == old(log) + b.steps && failed == b.failed
      ensures buffer == old(buffer) && batches == old(batches) && accepted == old(accepted)
      ensures dead == old(dead)
    {
      ghost var full := RunBatchSpec(storage.runnables, batch, retryPolicy, handling);
      ghost var acc: seq<Step> := [];
      failed := false;
      var i := 0;
      assert full == After(acc, RunBatchSpec(storage.runnables, batch[i..], retryPolicy, handling));
      while i < |batch| && !failed
        invariant i <= |batch|
        invariant log == old(log) + acc
        invariant buffer == old(buffer) && batches == old(batches) && accepted == old(accepted)
        invariant dead == old(dead)
        invariant failed ==> full == BatchRun(storage.runnables, true, acc)
        invariant !failed ==> full == After(acc, RunBatchSpec(storage.runnables, batch[i..], retryPolicy, handling))
      {
        ghost var before := storage.runnables;
        var end, steps := RunMember(batch[i]);
        BatchAt(full, acc, before, batch, i, retryPolicy, handling, end, steps);
        acc := acc + steps;
        failed := end.GaveUp? && handling == Propagate;
        i := i + 1;
      }
      if !failed {
        assert batch[i..] == [];
      }
    }

    /** One member of a batch: its retry loop, then `do(onError:onCompleted:)`,
        which removes it from the storage once the loop has ended. */
    method RunMember(runnable: Runnable) returns (end: RetryEnd, steps: seq<Step>)
      modifies this, storage
      ensures RetryRun(end, steps) == Retry(runnable, retryPolicy)
      ensures log == old(log) + steps && storage.runnables == Settled(old(storage.runnables), runnable, end)
      ensures buffer == old(buffer) && batches == old(batches) && accepted == old(accepted)
      ensures dead == old(dead)
    {
      end, steps := RunWithRetry(runnable, retryPolicy);
      log := log + steps;
      if end.Terminal() {
        storage.Remove(runnable);
      }
    }
  }
}
