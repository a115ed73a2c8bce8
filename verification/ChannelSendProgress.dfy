/** When the channel worker, without recovery, can still bring a message to an end:
    exactly which states it never gets out of, and how they come about. */
module ChannelSendProgress {
  import opened Prelude
  import opened Counting
  import opened Backoff
  import opened ChannelSend
  import opened ChannelSendTheorems

  ghost predicate CanFinish(s: State, workers: nat) {
    exists run :: Valid(s, run, workers) && Final(Exec(s, run, workers).store.row.status)
  }

  predicate DiedHolding(h: Handler) { Holds(h) && !h.alive }

  /** A live handler that may yet claim the row, or publish a retry. */
  predicate CarriesOn(h: Handler) {
    h.alive && (h.phase.Loaded? || RecordsQueued(h) || h.phase.Publishing?)
  }

  /** QUEUED, with no job and nobody left to claim or publish. */
  predicate Orphaned(s: State) {
    && s.store.row.status == Queued && !KeyTaken(s)
    && forall h :: 0 <= h < |s.handlers| ==> !CarriesOn(s.handlers[h])
  }

  /** Held by a dead handler, or orphaned. */
  predicate Stuck(s: State) {
    (exists h :: 0 <= h < |s.handlers| && DiedHolding(s.handlers[h])) || Orphaned(s)
  }

  // ----- out of a stuck state there is no way -----

  lemma QueueStepsNeedAJob(s: State, step: Step)
    requires InPhase(s, step) && (step.Deliver? || step.Complete? || step.GiveUp?)
    ensures KeyTaken(s)
  {
    assert IsOpen(s, if step.Complete? then s.handlers[step.h].job else step.j);
  }

  lemma OrphanedStep(s: State, step: Step, workers: nat)
    requires Inv(s, workers) && Orphaned(s) && CanStep(s, step, workers)
    ensures Orphaned(Apply(s, step))
    ensures Apply(s, step).store.row == s.store.row && Apply(s, step).store.sends == s.store.sends
  {
    hide Count;
    var t := Apply(s, step);
    if (step.CallAdapter? || step.WriteOutcome?) && Holds(s.handlers[step.h]) {
      CountPositive(s.handlers, step.h, Holds);
    }
    if step.Deliver? || step.Complete? || step.GiveUp? {
      QueueStepsNeedAJob(s, step);
    }
    assert !CarriesOn(s.handlers[step.h]);
    assert t.jobs == s.jobs;
    assert forall j :: 0 <= j < |t.jobs| ==> IsOpen(t, j) == IsOpen(s, j);
    forall h | 0 <= h < |t.handlers|
      ensures !CarriesOn(t.handlers[h])
    {
      assert !CarriesOn(s.handlers[h]);
    }
  }

  /** Left to the channel worker alone, an orphaned message stays QUEUED and is never
      sent again. */
  lemma {:induction false} OrphanedForEver(s: State, run: seq<Step>, workers: nat)
    requires Inv(s, workers) && Orphaned(s) && Valid(s, run, workers)
    ensures Exec(s, run, workers).store.row == s.store.row && Exec(s, run, workers).store.sends == s.store.sends
    decreases |run|
  {
    if run != [] {
      OrphanedStep(s, run[0], workers);
      InvStep(s, run[0], workers);
      OrphanedForEver(Apply(s, run[0]), run[1..], workers);
    }
  }

  // ----- out of every other state there is -----

  /** No more handlers in flight than workers. */
  ghost predicate Fits(s: State, workers: nat) { Count(s.handlers, Live) <= workers }

  lemma FitsStep(s: State, step: Step, workers: nat)
    requires Fits(s, workers) && CanStep(s, step, workers)
    ensures Fits(Apply(s, step), workers)
  {
    hide Count;
    var t := Apply(s, step);
    if step.Deliver? {
      CountAppend(s.handlers, t.handlers[|s.handlers|], Live);
    } else if !step.Complete? && !step.GiveUp? {
      CountUpdate(s.handlers, step.h, t.handlers[step.h], Live);
    }
  }

  /** s reaches a final row by this run. */
  ghost predicate Ends(s: State, run: seq<Step>, workers: nat) {
    Valid(s, run, workers) && Final(Exec(s, run, workers).store.row.status)
  }

  lemma Then(s: State, step: Step, rest: seq<Step>, workers: nat)
    requires CanStep(s, step, workers) && Ends(Apply(s, step), rest, workers)
    ensures Ends(s, [step] + rest, workers)
  {
    Prepend(s, step, rest, workers);
  }

  lemma FailLoaded(s: State, h: nat, workers: nat) returns (run: seq<Step>)
    requires s.store.row.status == Queued && h < |s.handlers| && s.handlers[h].alive && s.handlers[h].phase.Loaded?
    ensures Ends(s, run, workers)
  {
    var s1 := Apply(s, Claim(h));
    var s2 := Apply(s1, CheckChannel(h, false));
    Then(s2, WriteOutcome(h), [], workers);
    Then(s1, CheckChannel(h, false), [WriteOutcome(h)] + [], workers);
    Then(s, Claim(h), [CheckChannel(h, false)] + ([WriteOutcome(h)] + []), workers);
    run := [Claim(h)] + ([CheckChannel(h, false)] + ([WriteOutcome(h)] + []));
  }

  lemma DeliverAndFail(s: State, j: nat, workers: nat) returns (run: seq<Step>)
    requires s.store.row.status == Queued && IsOpen(s, j) && Count(s.handlers, Live) < workers
    ensures Ends(s, run, workers)
  {
    var rest := FailLoaded(Apply(s, Deliver(j)), |s.handlers|, workers);
    Then(s, Deliver(j), rest, workers);
    run := [Deliver(j)] + rest;
  }

  /** With an open job; if every worker is busy, one of them dies first. */
  lemma EndWithJob(s: State, workers: nat) returns (run: seq<Step>)
    requires Fits(s, workers) && workers >= 1 && s.store.row.status == Queued && KeyTaken(s)
    ensures Ends(s, run, workers)
  {
    var j :| 0 <= j < |s.jobs| && IsOpen(s, j);
    if Count(s.handlers, Live) < workers {
      run := DeliverAndFail(s, j, workers);
    } else {
      var h := CountWitness(s.handlers, Live);
      var t := Apply(s, Crash(h));
      CountUpdate(s.handlers, h, t.handlers[h], Live);
      assert IsOpen(t, j);
      var rest := DeliverAndFail(t, j, workers);
      Then(s, Crash(h), rest, workers);
      run := [Crash(h)] + rest;
    }
  }

  lemma EndPublishing(s: State, h: nat, workers: nat) returns (run: seq<Step>)
    requires Fits(s, workers) && workers >= 1 && s.store.row.status == Queued
    requires h < |s.handlers| && s.handlers[h].alive && s.handlers[h].phase.Publishing?
    ensures Ends(s, run, workers)
  {
    var t := Apply(s, PublishRetry(h));
    FitsStep(s, PublishRetry(h), workers);
    if !KeyTaken(s) {
      assert IsOpen(t, |s.jobs|);
    } else {
      var j :| 0 <= j < |s.jobs| && IsOpen(s, j);
      assert IsOpen(t, j);
    }
    var rest := EndWithJob(t, workers);
    Then(s, PublishRetry(h), rest, workers);
    run := [PublishRetry(h)] + rest;
  }

  lemma EndCarriesOn(s: State, h: nat, workers: nat) returns (run: seq<Step>)
    requires Fits(s, workers) && workers >= 1 && s.store.row.status == Queued
    requires h < |s.handlers| && CarriesOn(s.handlers[h])
    ensures Ends(s, run, workers)
  {
    if s.handlers[h].phase.Loaded? {
      run := FailLoaded(s, h, workers);
    } else if s.handlers[h].phase.Publishing? {
      run := EndPublishing(s, h, workers);
    } else {
      FitsStep(s, RecordEvent(h), workers);
      var rest := EndPublishing(Apply(s, RecordEvent(h)), h, workers);
      Then(s, RecordEvent(h), rest, workers);
      run := [RecordEvent(h)] + rest;
    }
  }

  lemma EndOutcome(s: State, h: nat, workers: nat) returns (run: seq<Step>)
    requires Fits(s, workers) && workers >= 1 && InPhase(s, WriteOutcome(h))
    ensures Ends(s, run, workers)
  {
    var t := Apply(s, WriteOutcome(h));
    FitsStep(s, WriteOutcome(h), workers);
    var rest: seq<Step> := [];
    if t.store.row.status == Queued {
      rest := EndCarriesOn(t, h, workers);
    }
    Then(s, WriteOutcome(h), rest, workers);
    run := [WriteOutcome(h)] + rest;
  }

  lemma EndHeld(s: State, h: nat, workers: nat) returns (run: seq<Step>)
    requires Fits(s, workers) && workers >= 1
    requires h < |s.handlers| && s.handlers[h].alive && Holds(s.handlers[h])
    ensures Ends(s, run, workers)
  {
    if s.handlers[h].phase.Claimed? || s.handlers[h].phase.Ready? {
      var step := if s.handlers[h].phase.Claimed? then CheckChannel(h, false) else CallAdapter(h, Accepted);
      FitsStep(s, step, workers);
      var rest := EndOutcome(Apply(s, step), h, workers);
      Then(s, step, rest, workers);
      run := [step] + rest;
    } else {
      run := EndOutcome(s, h, workers);
    }
  }

  lemma EndUnstuck(s: State, workers: nat) returns (run: seq<Step>)
    requires Inv(s, workers) && workers >= 1 && !Stuck(s)
    ensures Ends(s, run, workers)
  {
    assert Fits(s, workers);
    if Final(s.store.row.status) {
      run := [];
    } else if s.store.row.status == Processing {
      var h := CountWitness(s.handlers, Holds);
      assert !DiedHolding(s.handlers[h]);
      run := EndHeld(s, h, workers);
    } else if KeyTaken(s) {
      run := EndWithJob(s, workers);
    } else {
      var h :| 0 <= h < |s.handlers| && CarriesOn(s.handlers[h]);
      run := EndCarriesOn(s, h, workers);
    }
  }

  /** By the channel worker alone, a reachable message can still become SENT or FAILED
      exactly if no dead handler holds it and it is not orphaned. ChannelRecoveryProgress
      says what recovery adds. */
  lemma CanFinishIff(s: State, workers: nat)
    requires Inv(s, workers) && workers >= 1
    ensures CanFinish(s, workers) <==> !Stuck(s)
  {
    if Stuck(s) {
      forall run | Valid(s, run, workers)
        ensures !Final(Exec(s, run, workers).store.row.status)
      {
        if Orphaned(s) {
          OrphanedForEver(s, run, workers);
        } else {
          var h :| 0 <= h < |s.handlers| && DiedHolding(s.handlers[h]);
          CrashFreezesTheRow(s, h, run, workers);
        }
      }
    } else {
      var run := EndUnstuck(s, workers);
    }
  }

  // ----- both kinds of stuck state are reached -----

  /** A handler that dies right after its claim; the worker alone never gets the
      message out of there. */
  lemma DiesHoldingTheRow(maxRetries: nat, workers: nat) returns (run: seq<Step>)
    requires workers >= 1
    ensures Valid(Start(maxRetries), run, workers)
    ensures Exec(Start(maxRetries), run, workers).store.row.status == Processing
    ensures !CanFinish(Exec(Start(maxRetries), run, workers), workers)
  {
    var s := Start(maxRetries);
    var s1 := Apply(s, Deliver(0));
    var s2 := Apply(s1, Claim(0));
    var t := Apply(s2, Crash(0));
    Prepend(s2, Crash(0), [], workers);
    Prepend(s1, Claim(0), [Crash(0)] + [], workers);
    Prepend(s, Deliver(0), [Claim(0)] + ([Crash(0)] + []), workers);
    run := [Deliver(0)] + ([Claim(0)] + ([Crash(0)] + []));
    assert t == Exec(s, run, workers);
    InvStart(maxRetries, workers);
    InvRun(s, run, workers);
    assert DiedHolding(t.handlers[0]);
    CanFinishIff(t, workers);
  }
}
