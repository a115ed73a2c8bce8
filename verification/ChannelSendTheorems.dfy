/** What holds of every run of the channel send worker, how tight the retry
    bound is, and the worker's own code run start to finish. */
module ChannelSendTheorems {
  import opened Prelude
  import opened Counting
  import opened Backoff
  import opened ChannelSend

  /** The retry count may pass maxRetries, because handlers test a snapshot, but
      by no more than the handlers in flight less one; adapter calls exceed the
      retries by at most one. */
  lemma RetryBound(maxRetries: nat, workers: nat, run: seq<Step>)
    requires workers >= 1 && Valid(Start(maxRetries), run, workers)
    ensures var store := Exec(Start(maxRetries), run, workers).store;
            && store.row.retryCount <= (if maxRetries == 0 then 0 else maxRetries - 1 + workers)
            && store.sends <= store.row.retryCount + 1
            && (workers == 1 ==> store.row.retryCount <= maxRetries && store.sends <= maxRetries + 1)
  {
    InvStart(maxRetries, workers);
    InvRun(Start(maxRetries), run, workers);
    ExecKeepsMaxRetries(Start(maxRetries), run, workers);
    var s := Exec(Start(maxRetries), run, workers);
    CountImplies(s.handlers, HasAnswer, Holds);
  }

  lemma {:induction false} ExecKeepsMaxRetries(s: State, run: seq<Step>, workers: nat)
    requires Valid(s, run, workers)
    ensures Exec(s, run, workers).store.row.maxRetries == s.store.row.maxRetries
    decreases |run|
  {
    if run != [] {
      ExecKeepsMaxRetries(Apply(s, run[0]), run[1..], workers);
    }
  }

  /** Claiming by compare-and-set excludes: two handlers, dead or alive, are never
      both between a claim and an outcome, and the row is PROCESSING exactly while
      one is there. */
  lemma MutualExclusion(maxRetries: nat, workers: nat, run: seq<Step>)
    requires workers >= 1 && Valid(Start(maxRetries), run, workers)
    ensures var s := Exec(Start(maxRetries), run, workers);
            && (forall i, j :: 0 <= i < j < |s.handlers| ==> !(Holds(s.handlers[i]) && Holds(s.handlers[j])))
            && (s.store.row.status == Processing <==> exists i :: 0 <= i < |s.handlers| && Holds(s.handlers[i]))
  {
    InvStart(maxRetries, workers);
    InvRun(Start(maxRetries), run, workers);
    var s := Exec(Start(maxRetries), run, workers);
    var hs := s.handlers;
    forall i, j | 0 <= i < j < |hs|
      ensures !(Holds(hs[i]) && Holds(hs[j]))
    {
      if Holds(hs[i]) && Holds(hs[j]) {
        CountTwo(hs, i, j, Holds);
      }
    }
    if i :| 0 <= i < |hs| && Holds(hs[i]) {
      CountPositive(hs, i, Holds);
    } else {
      CountZero(hs, Holds);
    }
  }

  /** At most one final outcome: one dead letter, only for a FAILED row; one SENT
      or FAILED event, never both; and the retry events are the retries less
      those not recorded yet. */
  lemma OneOutcome(maxRetries: nat, workers: nat, run: seq<Step>)
    requires workers >= 1 && Valid(Start(maxRetries), run, workers)
    ensures var store := Exec(Start(maxRetries), run, workers).store;
            && store.deadLetters <= 1
            && (store.deadLetters == 1 ==> store.row.status == Failed)
            && Count(store.events, IsSentEvent) + Count(store.events, IsFailedEvent) <= 1
            && (Count(store.events, IsSentEvent) == 1 ==> store.row.status == Sent)
            && (Count(store.events, IsFailedEvent) == 1 ==> store.row.status == Failed)
            && Count(store.events, IsQueuedEvent) <= store.row.retryCount
  {
    InvStart(maxRetries, workers);
    InvRun(Start(maxRetries), run, workers);
  }

  // ----- the retry job -----

  /** A live handler's own job is open. */
  ghost predicate OwnJobOpen(s: State) {
    forall h :: 0 <= h < |s.handlers| && Live(s.handlers[h]) ==> IsOpen(s, s.handlers[h].job)
  }

  /** No job is closed under a live handler: the queue neither gives it up nor has
      it completed by another handler of the same job. */
  ghost predicate KeepsJobs(s: State, run: seq<Step>, workers: nat)
    requires Valid(s, run, workers)
    decreases |run|
  {
    run != [] ==>
      && (run[0].Complete? || run[0].GiveUp? ==> OwnJobOpen(Apply(s, run[0])))
      && KeepsJobs(Apply(s, run[0]), run[1..], workers)
  }

  lemma OwnJobStep(s: State, step: Step)
    requires InPhase(s, step) && OwnJobOpen(s) && !step.Complete? && !step.GiveUp?
    ensures OwnJobOpen(Apply(s, step)) && |Apply(s, step).jobs| == |s.jobs|
  {
    var t := Apply(s, step);
    if step.PublishRetry? {
      assert IsOpen(s, s.handlers[step.h].job);
    }
    forall h | 0 <= h < |t.handlers| && Live(t.handlers[h])
      ensures IsOpen(t, t.handlers[h].job)
    {
      if h < |s.handlers| {
        assert t.handlers[h].job == s.handlers[h].job && Live(s.handlers[h]);
      }
    }
  }

  lemma {:induction false} NoNewJobs(s: State, run: seq<Step>, workers: nat)
    requires Valid(s, run, workers) && OwnJobOpen(s) && KeepsJobs(s, run, workers)
    ensures |Exec(s, run, workers).jobs| == |s.jobs|
    decreases |run|
  {
    if run != [] {
      if !run[0].Complete? && !run[0].GiveUp? {
        OwnJobStep(s, run[0]);
      }
      NoNewJobs(Apply(s, run[0]), run[1..], workers);
    }
  }

  /** The worker publishes its retry under the key of the job it is itself still
      running. So as long as no job is closed under a live handler, however
      handlers interleave and die, the message never gets a second job. */
  lemma RetryJobsAreDropped(maxRetries: nat, workers: nat, run: seq<Step>)
    requires Valid(Start(maxRetries), run, workers) && KeepsJobs(Start(maxRetries), run, workers)
    ensures |Exec(Start(maxRetries), run, workers).jobs| == 1
  {
    NoNewJobs(Start(maxRetries), run, workers);
  }

  predicate Final(status: MessageStatus) {
    status == Sent || status == Failed
  }

  lemma FinalRowIsNotHeld(s: State, step: Step, workers: nat)
    requires Inv(s, workers) && Final(s.store.row.status) && CanStep(s, step, workers)
    ensures Apply(s, step).store.row == s.store.row && Apply(s, step).store.sends == s.store.sends
  {
    if (step.WriteOutcome? || step.CallAdapter?) && Holds(s.handlers[step.h]) {
      CountPositive(s.handlers, step.h, Holds);
    }
  }

  /** SENT and FAILED are absorbing: from such a state on no run changes the row
      or calls the adapter again. */
  lemma {:induction false} FinalIsAbsorbing(s: State, run: seq<Step>, workers: nat)
    requires Inv(s, workers) && Final(s.store.row.status) && Valid(s, run, workers)
    ensures Exec(s, run, workers).store.row == s.store.row
    ensures Exec(s, run, workers).store.sends == s.store.sends
    decreases |run|
  {
    if run != [] {
      FinalRowIsNotHeld(s, run[0], workers);
      InvStep(s, run[0], workers);
      FinalIsAbsorbing(Apply(s, run[0]), run[1..], workers);
    }
  }

  lemma OnlyTheHolderActs(s: State, h: nat, step: Step, workers: nat)
    requires Inv(s, workers) && CanStep(s, step, workers)
    requires h < |s.handlers| && Holds(s.handlers[h]) && !s.handlers[h].alive
    ensures Apply(s, step).store.row == s.store.row && Apply(s, step).store.sends == s.store.sends
    ensures Apply(s, step).handlers[h] == s.handlers[h]
  {
    CountPositive(s.handlers, h, Holds);
    if (step.WriteOutcome? || step.CallAdapter?) && Holds(s.handlers[step.h]) {
      if h < step.h {
        CountTwo(s.handlers, h, step.h, Holds);
      } else {
        CountTwo(s.handlers, step.h, h, Holds);
      }
    }
  }

  /** A handler that dies between its claim and its outcome leaves the row
      PROCESSING as far as the worker goes: no later delivery sends it, fails it or
      retries it. Only recovery does. */
  lemma {:induction false} CrashFreezesTheRow(s: State, h: nat, run: seq<Step>, workers: nat)
    requires Inv(s, workers) && Valid(s, run, workers)
    requires h < |s.handlers| && Holds(s.handlers[h]) && !s.handlers[h].alive
    ensures var t := Exec(s, run, workers);
            t.store.row == s.store.row && t.store.row.status == Processing && t.store.sends == s.store.sends
    decreases |run|
  {
    CountPositive(s.handlers, h, Holds);
    if run != [] {
      OnlyTheHolderActs(s, h, run[0], workers);
      InvStep(s, run[0], workers);
      CrashFreezesTheRow(Apply(s, run[0]), h, run[1..], workers);
    }
  }

  // ----- the bound is attained -----

  lemma {:induction false} ValidConcat(s: State, a: seq<Step>, b: seq<Step>, workers: nat)
    requires Valid(s, a, workers) && Valid(Exec(s, a, workers), b, workers)
    ensures Valid(s, a + b, workers) && Exec(s, a + b, workers) == Exec(Exec(s, a, workers), b, workers)
    decreases |a|
  {
    if a == [] {
      assert a + b == b;
    } else {
      assert (a + b)[0] == a[0] && (a + b)[1..] == a[1..] + b;
      ValidConcat(Apply(s, a[0]), a[1..], b, workers);
    }
  }

  lemma Prepend(s: State, step: Step, rest: seq<Step>, workers: nat)
    requires CanStep(s, step, workers) && Valid(Apply(s, step), rest, workers)
    ensures Valid(s, [step] + rest, workers)
    ensures Exec(s, [step] + rest, workers) == Exec(Apply(s, step), rest, workers)
  {
    assert ([step] + rest)[1..] == rest;
  }

  const TRANSIENT: SendResult := Refused(true, None)

  /** A handler whose retryable refusal was written finishes; its retry is dropped. */
  lemma FinishRequeue(s: State, h: nat, workers: nat) returns (run: seq<Step>)
    requires h < |s.handlers| && s.handlers[h].alive && RecordsQueued(s.handlers[h]) && KeyTaken(s)
    ensures Valid(s, run, workers)
    ensures var t := Exec(s, run, workers);
            && t.handlers == s.handlers[h := Handler(s.handlers[h].job, Done, true)]
            && t.jobs == s.jobs && t.store.row == s.store.row && t.store.sends == s.store.sends
  {
    var s1 := Apply(s, RecordEvent(h));
    var j :| 0 <= j < |s.jobs| && IsOpen(s, j);
    assert IsOpen(s1, j);
    Prepend(s1, PublishRetry(h), [], workers);
    Prepend(s, RecordEvent(h), [PublishRetry(h)] + [], workers);
    run := [RecordEvent(h)] + ([PublishRetry(h)] + []);
  }

  /** A loaded handler, left alone, claims, is refused, requeues and finishes. */
  lemma RequeueAlone(s: State, h: nat, workers: nat) returns (run: seq<Step>)
    requires h < |s.handlers| && s.handlers[h].alive && s.handlers[h].phase.Loaded?
    requires s.store.row.status == Queued && s.handlers[h].phase.seen < s.store.row.maxRetries
    requires IsOpen(s, 0)
    ensures Valid(s, run, workers)
    ensures var t := Exec(s, run, workers);
            && t.handlers == s.handlers[h := Handler(s.handlers[h].job, Done, true)]
            && t.jobs == s.jobs
            && t.store.row == s.store.row.(retryCount := s.store.row.retryCount + 1)
            && t.store.sends == s.store.sends + 1
  {
    var s1 := Apply(s, Claim(h));
    var s2 := Apply(s1, CheckChannel(h, true));
    var s3 := Apply(s2, CallAdapter(h, TRANSIENT));
    var s4 := Apply(s3, WriteOutcome(h));
    assert IsOpen(s4, 0);
    hide Exec;
    run := FinishRequeue(s4, h, workers);
    Prepend(s3, WriteOutcome(h), run, workers);
    run := [WriteOutcome(h)] + run;
    Prepend(s2, CallAdapter(h, TRANSIENT), run, workers);
    run := [CallAdapter(h, TRANSIENT)] + run;
    Prepend(s1, CheckChannel(h, true), run, workers);
    run := [CheckChannel(h, true)] + run;
    Prepend(s, Claim(h), run, workers);
    run := [Claim(h)] + run;
  }

  lemma PublishAfterGivingUp(s: State) returns (run: seq<Step>)
    requires |s.handlers| == 1 && s.handlers[0].alive && RecordsQueued(s.handlers[0])
    requires |s.jobs| == 1 && IsOpen(s, 0)
    ensures Valid(s, run, 1) && |Exec(s, run, 1).jobs| == 2
  {
    var s1 := Apply(s, RecordEvent(0));
    var s2 := Apply(s1, GiveUp(0));
    Prepend(s2, PublishRetry(0), [], 1);
    Prepend(s1, GiveUp(0), [PublishRetry(0)] + [], 1);
    run := [GiveUp(0)] + ([PublishRetry(0)] + []);
    Prepend(s, RecordEvent(0), run, 1);
    run := [RecordEvent(0)] + run;
  }

  /** The condition of RetryJobsAreDropped is needed: if the queue gives up a job
      while its slow handler still runs, the handler's retry is taken. */
  lemma RetryTakenOnceGivenUp() returns (run: seq<Step>)
    ensures Valid(Start(1), run, 1) && |Exec(Start(1), run, 1).jobs| == 2
  {
    var s1 := Apply(Start(1), Deliver(0));
    var s2 := Apply(s1, Claim(0));
    var s3 := Apply(s2, CheckChannel(0, true));
    var s4 := Apply(s3, CallAdapter(0, TRANSIENT));
    hide Exec;
    run := PublishAfterGivingUp(Apply(s4, WriteOutcome(0)));
    Prepend(s4, WriteOutcome(0), run, 1);
    run := [WriteOutcome(0)] + run;
    Prepend(s3, CallAdapter(0, TRANSIENT), run, 1);
    run := [CallAdapter(0, TRANSIENT)] + run;
    Prepend(s2, CheckChannel(0, true), run, 1);
    run := [CheckChannel(0, true)] + run;
    Prepend(s1, Claim(0), run, 1);
    run := [Claim(0)] + run;
    Prepend(Start(1), Deliver(0), run, 1);
    run := [Deliver(0)] + run;
  }

  predicate AllDone(hs: seq<Handler>) {
    forall i :: 0 <= i < |hs| ==> hs[i].phase == Done
  }

  /** k handlers, one after the other, each requeue once. */
  lemma {:induction false} SoloRounds(s: State, k: nat, workers: nat) returns (run: seq<Step>)
    requires AllDone(s.handlers) && s.store.row.status == Queued && workers >= 1 && IsOpen(s, 0)
    requires s.store.row.retryCount + k <= s.store.row.maxRetries
    ensures Valid(s, run, workers)
    ensures var t := Exec(s, run, workers);
            && AllDone(t.handlers) && IsOpen(t, 0)
            && t.store.row == s.store.row.(retryCount := s.store.row.retryCount + k)
            && t.store.sends == s.store.sends + k
    decreases k
  {
    if k == 0 {
      run := [];
    } else {
      CountZero(s.handlers, Live);
      var loaded := Apply(s, Deliver(0));
      var requeue := RequeueAlone(loaded, |s.handlers|, workers);
      Prepend(s, Deliver(0), requeue, workers);
      var rest := SoloRounds(Exec(loaded, requeue, workers), k - 1, workers);
      ValidConcat(s, [Deliver(0)] + requeue, rest, workers);
      run := [Deliver(0)] + requeue + rest;
    }
  }

  /** From handler m on, everyone is loaded with this snapshot; before m, done. */
  predicate LoadedFrom(hs: seq<Handler>, m: nat, seen: nat) {
    && m <= |hs|
    && (forall i :: 0 <= i < m ==> hs[i].phase == Done)
    && (forall i :: m <= i < |hs| ==> hs[i] == Handler(0, Loaded(seen), true))
  }

  /** With nothing else in flight, `k` handlers load the same snapshot. */
  lemma {:induction false} LoadTogether(s: State, m: nat, k: nat, workers: nat) returns (run: seq<Step>)
    requires LoadedFrom(s.handlers, m, s.store.row.retryCount)
    requires s.store.row.status == Queued && |s.handlers| - m + k <= workers && IsOpen(s, 0)
    ensures Valid(s, run, workers)
    ensures var t := Exec(s, run, workers);
            && LoadedFrom(t.handlers, m, s.store.row.retryCount)
            && |t.handlers| == |s.handlers| + k
            && t.store == s.store && IsOpen(t, 0)
    decreases k
  {
    if k == 0 {
      run := [];
    } else {
      CountFrom(s.handlers, m, Live);
      var rest := LoadTogether(Apply(s, Deliver(0)), m, k - 1, workers);
      Prepend(s, Deliver(0), rest, workers);
      run := [Deliver(0)] + rest;
    }
  }

  /** They then claim one after the other, and each requeues on its old snapshot. */
  lemma {:induction false} DrainTogether(s: State, m: nat, seen: nat, workers: nat) returns (run: seq<Step>)
    requires LoadedFrom(s.handlers, m, seen)
    requires s.store.row.status == Queued && seen < s.store.row.maxRetries && IsOpen(s, 0)
    ensures Valid(s, run, workers)
    ensures var t := Exec(s, run, workers);
            && AllDone(t.handlers)
            && t.store.row == s.store.row.(retryCount := s.store.row.retryCount + |s.handlers| - m)
            && t.store.sends == s.store.sends + |s.handlers| - m
    decreases |s.handlers| - m
  {
    if m == |s.handlers| {
      run := [];
    } else {
      var requeue := RequeueAlone(s, m, workers);
      var rest := DrainTogether(Exec(s, requeue, workers), m + 1, seen, workers);
      ValidConcat(s, requeue, rest, workers);
      run := requeue + rest;
    }
  }

  /** All workers load the same snapshot and requeue on it, one after the other. */
  lemma LastRound(s: State, workers: nat) returns (run: seq<Step>)
    requires AllDone(s.handlers) && s.store.row.status == Queued && IsOpen(s, 0)
    requires s.store.row.retryCount < s.store.row.maxRetries
    ensures Valid(s, run, workers)
    ensures var t := Exec(s, run, workers);
            && t.store.row.retryCount == s.store.row.retryCount + workers
            && t.store.sends == s.store.sends + workers
  {
    hide Exec;
    var load := LoadTogether(s, |s.handlers|, workers, workers);
    var drain := DrainTogether(Exec(s, load, workers), |s.handlers|, s.store.row.retryCount, workers);
    ValidConcat(s, load, drain, workers);
    run := load + drain;
  }

  /** The bound of RetryBound is reached, for every retry limit and every number
      of workers. */
  lemma RetryBoundAttained(maxRetries: nat, workers: nat) returns (run: seq<Step>)
    requires maxRetries >= 1 && workers >= 1
    ensures Valid(Start(maxRetries), run, workers)
    ensures var store := Exec(Start(maxRetries), run, workers).store;
            store.row.retryCount == maxRetries - 1 + workers == store.sends
  {
    hide Exec;
    var s := Start(maxRetries);
    var solo := SoloRounds(s, maxRetries - 1, workers);
    var last := LastRound(Exec(s, solo, workers), workers);
    ValidConcat(s, solo, last, workers);
    run := solo + last;
  }
}
