/** What recovery does for channel messages the channel worker never finishes, and
    what it does when it comes too early. */
module ChannelRecoveryProgress {
  import opened Prelude
  import opened Counting
  import opened ChannelRecovery
  import Channel = ChannelSend
  import Progress = ChannelSendProgress

  /** s reaches by this run a final row. */
  ghost predicate Ends(s: State, run: seq<Step>, workers: nat) {
    Valid(s, run, workers) && Final(Row(Exec(s, run, workers)).status)
  }

  lemma Then(s: State, step: Step, rest: seq<Step>, workers: nat)
    requires CanStep(s, step, workers) && Ends(Apply(s, step, workers), rest, workers)
    ensures Ends(s, [step] + rest, workers)
  {
    Prepend(s, step, rest, workers);
  }

  // ----- without any handler succeeding -----

  /** Steps of recovery, and of WhatsApp handlers that die right after their claim. */
  predicate Hapless(step: Step) {
    || step.Sweep? || step.Recover? || step.SweepQueued? || step.Republish?
    || step.Fetch? || step.Take? || step.Die?
  }

  predicate AllHapless(run: seq<Step>) {
    forall i :: 0 <= i < |run| ==> Hapless(run[i])
  }

  ghost predicate FailsBy(s: State, run: seq<Step>, workers: nat) {
    Valid(s, run, workers) && AllHapless(run) && Row(Exec(s, run, workers)).status == Failed
  }

  lemma ThenFails(s: State, step: Step, rest: seq<Step>, workers: nat)
    requires CanStep(s, step, workers) && Hapless(step) && FailsBy(Apply(s, step, workers), rest, workers)
    ensures FailsBy(s, [step] + rest, workers)
  {
    Prepend(s, step, rest, workers);
  }

  /** Recovery ends every message that has no provider id stored, even if every
      handler it is handed to dies: each recovery counts a retry, and at the limit the
      message is FAILED. */
  lemma {:induction false} RecoveryFailsAtLast(s: State, workers: nat) returns (run: seq<Step>)
    requires Row(s).status == Processing || (Row(s).status == Queued && !s.sentId)
    requires !s.sentId || Row(s).retryCount >= Row(s).maxRetries
    ensures FailsBy(s, run, workers)
    decreases Row(s).maxRetries - Row(s).retryCount, if Row(s).status == Queued then 1 else 0
  {
    var rest := [];
    if Row(s).status == Processing {
      var t := Apply(Apply(s, Sweep, workers), Recover(|s.others|), workers);
      if Row(t).status == Queued {
        rest := RecoveryFailsAtLast(t, workers);
      }
      run := RecoverNow(s, rest, workers);
    } else {
      var t := LostAgain(s, workers);
      rest := RecoveryFailsAtLast(t, workers);
      run := HandAndLose(s, rest, workers);
    }
  }

  /** The pass over a stale PROCESSING row. */
  lemma RecoverNow(s: State, rest: seq<Step>, workers: nat) returns (run: seq<Step>)
    requires Row(s).status == Processing
    requires FailsBy(Apply(Apply(s, Sweep, workers), Recover(|s.others|), workers), rest, workers)
    ensures FailsBy(s, run, workers)
  {
    ThenFails(Apply(s, Sweep, workers), Recover(|s.others|), rest, workers);
    ThenFails(s, Sweep, [Recover(|s.others|)] + rest, workers);
    run := [Sweep] + ([Recover(|s.others|)] + rest);
  }

  /** The state after a stale QUEUED row was handed to a handler that died. */
  function LostAgain(s: State, workers: nat): State
    requires Row(s).status == Queued && !s.sentId
  {
    var o := |s.others|;
    var s2 := Apply(Apply(s, SweepQueued, workers), Republish(o), workers);
    Apply(Apply(Apply(s2, Fetch, workers), Take(o + 1), workers), Die(o + 1), workers)
  }

  lemma HandAndLose(s: State, rest: seq<Step>, workers: nat) returns (run: seq<Step>)
    requires Row(s).status == Queued && !s.sentId && FailsBy(LostAgain(s, workers), rest, workers)
    ensures FailsBy(s, run, workers)
  {
    hide FailsBy;
    var o := |s.others|;
    var s1 := Apply(s, SweepQueued, workers);
    var s2 := Apply(s1, Republish(o), workers);
    var s3 := Apply(s2, Fetch, workers);
    ThenFails(Apply(s3, Take(o + 1), workers), Die(o + 1), rest, workers);
    run := [Die(o + 1)] + rest;
    ThenFails(s3, Take(o + 1), run, workers);
    run := [Take(o + 1)] + run;
    ThenFails(s2, Fetch, run, workers);
    run := [Fetch] + run;
    ThenFails(s1, Republish(o), run, workers);
    run := [Republish(o)] + run;
    ThenFails(s, SweepQueued, run, workers);
    run := [SweepQueued] + run;
  }

  // ----- when a message can finish -----

  ghost predicate CanFinish(s: State, workers: nat) {
    exists run :: Ends(s, run, workers)
  }

  /** A handler of the channel worker that may yet claim, write or publish. */
  predicate HandlerGoesOn(h: Channel.Handler) { Progress.CarriesOn(h) || LiveHolder(h) }

  /** A WhatsApp handler or recovery pass that may yet claim the row or end it. */
  predicate OtherGoesOn(x: Other, maxRetries: nat) {
    x.alive && match x.phase
    case Fetched(_) => true
    case Taken(_) => true
    case Called(_) => true
    case Stored(_) => true
    case Swept(seen) => seen >= maxRetries
    case _ => false
  }

  predicate SomebodyGoesOn(s: State) {
    || Channel.KeyTaken(s.worker)
    || (exists h :: 0 <= h < |s.worker.handlers| && HandlerGoesOn(s.worker.handlers[h]))
    || (exists o :: 0 <= o < |s.others| && OtherGoesOn(s.others[o], Row(s).maxRetries))
  }

  /** A provider id is stored, so that no new WhatsApp handler claims the row, nobody
      else will, and recovery would only put it back to QUEUED. */
  predicate Abandoned(s: State) {
    && s.sentId && !SomebodyGoesOn(s)
    && (Row(s).status == Queued || (Row(s).status == Processing && Row(s).retryCount < Row(s).maxRetries))
  }

  lemma AbandonedWork(s: State, step: Channel.Step, workers: nat)
    requires Abandoned(s) && CanStep(s, Work(step), workers)
    ensures Abandoned(Apply(s, Work(step), workers))
  {
    var t := Apply(s, Work(step), workers);
    if step.Deliver? || step.Complete? || step.GiveUp? {
      Progress.QueueStepsNeedAJob(s.worker, step);
    }
    assert !HandlerGoesOn(s.worker.handlers[step.h]);
    assert t.worker.jobs == s.worker.jobs;
    assert forall j :: 0 <= j < |t.worker.jobs| ==> Channel.IsOpen(t.worker, j) == Channel.IsOpen(s.worker, j);
    forall h | 0 <= h < |t.worker.handlers|
      ensures !HandlerGoesOn(t.worker.handlers[h])
    {
      assert !HandlerGoesOn(s.worker.handlers[h]);
    }
  }

  /** The steps of recovery and of the WhatsApp worker. */
  lemma AbandonedByOthers(s: State, step: Step, workers: nat)
    requires Abandoned(s) && CanStep(s, step, workers) && !step.Work?
    ensures Abandoned(Apply(s, step, workers))
  {
    var t := Apply(s, step, workers);
    assert t.worker.jobs == s.worker.jobs && t.worker.handlers == s.worker.handlers;
    assert forall j :: 0 <= j < |t.worker.jobs| ==> Channel.IsOpen(t.worker, j) == Channel.IsOpen(s.worker, j);
    if !step.Sweep? && !step.SweepQueued? && !step.Fetch? {
      assert !OtherGoesOn(s.others[step.o], Row(s).maxRetries);
    }
    forall o | 0 <= o < |t.others|
      ensures !OtherGoesOn(t.others[o], Row(t).maxRetries)
    {
      if o < |s.others| {
        assert !OtherGoesOn(s.others[o], Row(s).maxRetries);
      }
    }
  }

  lemma AbandonedStep(s: State, step: Step, workers: nat)
    requires Abandoned(s) && CanStep(s, step, workers)
    ensures Abandoned(Apply(s, step, workers))
  {
    if step.Work? {
      AbandonedWork(s, step.step, workers);
    } else {
      AbandonedByOthers(s, step, workers);
    }
  }

  lemma {:induction false} AbandonedForEver(s: State, run: seq<Step>, workers: nat)
    requires Abandoned(s) && Valid(s, run, workers)
    ensures !Final(Row(Exec(s, run, workers)).status)
    decreases |run|
  {
    if run != [] {
      AbandonedStep(s, run[0], workers);
      AbandonedForEver(Apply(s, run[0], workers), run[1..], workers);
    }
  }

  /** The channel worker's own runs are runs of the whole. */
  lemma {:induction false} Lift(s: State, work: seq<Channel.Step>, workers: nat) returns (run: seq<Step>)
    requires Channel.Valid(s.worker, work, workers)
    ensures Valid(s, run, workers) && Exec(s, run, workers).worker == Channel.Exec(s.worker, work, workers)
    decreases |work|
  {
    if work == [] {
      run := [];
    } else {
      var rest := Lift(Apply(s, Work(work[0]), workers), work[1..], workers);
      Prepend(s, Work(work[0]), rest, workers);
      run := [Work(work[0])] + rest;
    }
  }

  lemma EndByHandler(s: State, h: nat, workers: nat) returns (run: seq<Step>)
    requires workers >= 1 && Progress.Fits(s.worker, workers) && Row(s).status == Queued
    requires h < |s.worker.handlers| && HandlerGoesOn(s.worker.handlers[h])
    ensures Ends(s, run, workers)
  {
    var work;
    if LiveHolder(s.worker.handlers[h]) {
      work := Progress.EndHeld(s.worker, h, workers);
    } else {
      work := Progress.EndCarriesOn(s.worker, h, workers);
    }
    run := Lift(s, work, workers);
  }

  lemma EndByOther(s: State, o: nat, workers: nat) returns (run: seq<Step>)
    requires Row(s).status == Queued && o < |s.others| && OtherGoesOn(s.others[o], Row(s).maxRetries)
    ensures Ends(s, run, workers)
  {
    var step := match s.others[o].phase
      case Swept(_) => Recover(o)
      case Fetched(_) => Take(o)
      case Stored(_) => FailLate(o, false)
      case _ => GiveUp(o);
    var t := Apply(s, step, workers);
    var rest := [];
    if step.Take? {
      Then(t, GiveUp(o), [], workers);
      rest := [GiveUp(o)] + [];
    }
    Then(s, step, rest, workers);
    run := [step] + rest;
  }

  lemma EndQueued(s: State, workers: nat) returns (run: seq<Step>)
    requires workers >= 1 && Progress.Fits(s.worker, workers)
    requires Row(s).status == Queued && (!s.sentId || SomebodyGoesOn(s))
    ensures Ends(s, run, workers)
  {
    if !s.sentId {
      run := RecoveryFailsAtLast(s, workers);
    } else if Channel.KeyTaken(s.worker) {
      var work := Progress.EndWithJob(s.worker, workers);
      run := Lift(s, work, workers);
    } else if h :| 0 <= h < |s.worker.handlers| && HandlerGoesOn(s.worker.handlers[h]) {
      run := EndByHandler(s, h, workers);
    } else {
      var o :| 0 <= o < |s.others| && OtherGoesOn(s.others[o], Row(s).maxRetries);
      run := EndByOther(s, o, workers);
    }
  }

  /** What a recovery pass that requeues leaves: everybody who goes on still does. */
  lemma RequeuedGoOn(s: State, workers: nat)
    requires Row(s).status == Processing && Row(s).retryCount < Row(s).maxRetries
    ensures CanStep(Apply(s, Sweep, workers), Recover(|s.others|), workers)
    ensures var t := Apply(Apply(s, Sweep, workers), Recover(|s.others|), workers);
            && Row(t).status == Queued && t.sentId == s.sentId
            && t.worker.handlers == s.worker.handlers
            && (SomebodyGoesOn(s) ==> SomebodyGoesOn(t))
  {
    var t := Apply(Apply(s, Sweep, workers), Recover(|s.others|), workers);
    assert t.worker.jobs == s.worker.jobs && t.worker.handlers == s.worker.handlers;
    if j :| 0 <= j < |s.worker.jobs| && Channel.IsOpen(s.worker, j) {
      assert Channel.IsOpen(t.worker, j);
    }
    if o :| 0 <= o < |s.others| && OtherGoesOn(s.others[o], Row(s).maxRetries) {
      assert t.others[o] == s.others[o];
    }
  }

  lemma EndProcessing(s: State, workers: nat) returns (run: seq<Step>)
    requires workers >= 1 && Progress.Fits(s.worker, workers)
    requires Row(s).status == Processing && !Abandoned(s)
    ensures Ends(s, run, workers)
  {
    if !s.sentId || Row(s).retryCount >= Row(s).maxRetries {
      run := RecoveryFailsAtLast(s, workers);
    } else {
      RequeuedGoOn(s, workers);
      var o := |s.others|;
      var s1 := Apply(s, Sweep, workers);
      var rest := EndQueued(Apply(s1, Recover(o), workers), workers);
      Then(s1, Recover(o), rest, workers);
      Then(s, Sweep, [Recover(o)] + rest, workers);
      run := [Sweep] + ([Recover(o)] + rest);
    }
  }

  /** With recovery, a message can become SENT or FAILED exactly if it is not abandoned:
      a row that a dead handler holds or that is left without a job can, unless it was
      sent by the WhatsApp worker and put back after that. */
  lemma CanFinishIff(s: State, workers: nat)
    requires workers >= 1 && Progress.Fits(s.worker, workers)
    requires Row(s).status in {Queued, Processing, Sent, Failed}
    ensures CanFinish(s, workers) <==> !Abandoned(s)
  {
    if Abandoned(s) {
      forall run | Valid(s, run, workers)
        ensures !Final(Row(Exec(s, run, workers)).status)
      {
        AbandonedForEver(s, run, workers);
      }
    } else {
      var run := [];
      if Row(s).status == Queued {
        run := EndQueued(s, workers);
      } else if Row(s).status == Processing {
        run := EndProcessing(s, workers);
      }
      assert Ends(s, run, workers);
    }
  }

  // ----- recovery that comes too early -----

  lemma {:induction false} Extend(s: State, run: seq<Step>, step: Step, workers: nat)
    requires Valid(s, run, workers) && CanStep(Exec(s, run, workers), step, workers)
    ensures Valid(s, run + [step], workers)
    ensures Exec(s, run + [step], workers) == Apply(Exec(s, run, workers), step, workers)
    decreases |run|
  {
    if run == [] {
      assert run + [step] == [step];
    } else {
      assert (run + [step])[0] == run[0] && (run + [step])[1..] == run[1..] + [step];
      Extend(Apply(s, run[0], workers), run[1..], step, workers);
    }
  }

  /** A handler of job 0 loads, claims and finds the channel active. */
  lemma Claims(s: State, prefix: seq<Step>) returns (run: seq<Step>)
    requires Valid(s, prefix, 2)
    requires var t := Exec(s, prefix, 2);
             && Row(t).status == Queued && Channel.IsOpen(t.worker, 0) && Count(t.worker.handlers, Channel.Live) < 2
    ensures Valid(s, run, 2)
    ensures var t, u := Exec(s, prefix, 2), Exec(s, run, 2);
            && u.worker.handlers == t.worker.handlers + [Channel.Handler(0, Channel.Ready(Row(t).retryCount), true)]
            && u.worker.store == t.worker.store.(row := Row(t).(status := Processing))
            && Channel.IsOpen(u.worker, 0)
            && u.others == t.others && u.sentWrites == t.sentWrites && u.failedWrites == t.failedWrites
  {
    var h := |Exec(s, prefix, 2).worker.handlers|;
    Extend(s, prefix, Work(Channel.Deliver(0)), 2);
    run := prefix + [Work(Channel.Deliver(0))];
    Extend(s, run, Work(Channel.Claim(h)), 2);
    run := run + [Work(Channel.Claim(h))];
    Extend(s, run, Work(Channel.CheckChannel(h, true)), 2);
    run := run + [Work(Channel.CheckChannel(h, true))];
  }

  /** A recovery pass that finds the row PROCESSING and requeues it. */
  lemma Requeues(s: State, prefix: seq<Step>) returns (run: seq<Step>)
    requires Valid(s, prefix, 2)
    requires var t := Exec(s, prefix, 2); Row(t).status == Processing && Row(t).retryCount < Row(t).maxRetries
    ensures Valid(s, run, 2)
    ensures var t, u := Exec(s, prefix, 2), Exec(s, run, 2);
            && u.worker.handlers == t.worker.handlers && u.worker.jobs == t.worker.jobs
            && u.worker.store
               == t.worker.store.(row := Row(t).(status := Queued, retryCount := Row(t).retryCount + 1))
            && u.sentWrites == t.sentWrites && u.failedWrites == t.failedWrites
  {
    hide Exec, Valid;
    var o := |Exec(s, prefix, 2).others|;
    Extend(s, prefix, Sweep, 2);
    run := prefix + [Sweep];
    Extend(s, run, Recover(o), 2);
    run := run + [Recover(o)];
  }

  /** Both handlers are past the claim: the first is slow, recovery requeued its row,
      and the queue delivered the job again. */
  lemma TwoHolders() returns (run: seq<Step>)
    ensures Valid(Start(3), run, 2)
    ensures var t := Exec(Start(3), run, 2);
            && t.worker.handlers
               == [Channel.Handler(0, Channel.Ready(0), true), Channel.Handler(0, Channel.Ready(1), true)]
            && t.worker.store == Channel.Start(3).store.(row := Channel.Row(Processing, 1, 3))
            && t.sentWrites == 0 && t.failedWrites == 0
  {
    run := Claims(Start(3), []);
    hide Exec, Valid, Apply;
    var first := Channel.Handler(0, Channel.Ready(0), true);
    assert Exec(Start(3), run, 2).worker.handlers == [first];
    run := Requeues(Start(3), run);
    assert Count([first], Channel.Live) == 1;
    run := Claims(Start(3), run);
  }

  /** Handler h, past its claim, is refused and fails the message. */
  lemma Fails(s: State, prefix: seq<Step>, h: nat) returns (run: seq<Step>)
    requires Valid(s, prefix, 2)
    requires var w := Exec(s, prefix, 2).worker;
             h < |w.handlers| && w.handlers[h].alive && w.handlers[h].phase.Ready?
    ensures Valid(s, run, 2)
    ensures var t, u := Exec(s, prefix, 2), Exec(s, run, 2);
            && |u.worker.handlers| == |t.worker.handlers|
            && (forall i :: 0 <= i < |t.worker.handlers| && i != h ==> u.worker.handlers[i] == t.worker.handlers[i])
            && Row(u).status == Failed && u.worker.store.deadLetters == t.worker.store.deadLetters + 1
            && u.sentWrites == t.sentWrites && u.failedWrites == t.failedWrites + 1
  {
    var refuse := Work(Channel.CallAdapter(h, Channel.Refused(false, None)));
    Extend(s, prefix, refuse, 2);
    run := prefix + [refuse];
    Extend(s, run, Work(Channel.WriteOutcome(h)), 2);
    run := run + [Work(Channel.WriteOutcome(h))];
    Extend(s, run, Work(Channel.CreateDeadLetter(h)), 2);
    run := run + [Work(Channel.CreateDeadLetter(h))];
  }

  /** Handler h, past its claim, sends the message. */
  lemma Sends(s: State, prefix: seq<Step>, h: nat) returns (run: seq<Step>)
    requires Valid(s, prefix, 2)
    requires var w := Exec(s, prefix, 2).worker;
             h < |w.handlers| && w.handlers[h].alive && w.handlers[h].phase.Ready?
    ensures Valid(s, run, 2)
    ensures var t, u := Exec(s, prefix, 2), Exec(s, run, 2);
            && Row(u).status == Sent && u.worker.store.deadLetters == t.worker.store.deadLetters
            && u.sentWrites == t.sentWrites + 1 && u.failedWrites == t.failedWrites
  {
    var send := Work(Channel.CallAdapter(h, Channel.Accepted));
    Extend(s, prefix, send, 2);
    run := prefix + [send];
    Extend(s, run, Work(Channel.WriteOutcome(h)), 2);
    run := run + [Work(Channel.WriteOutcome(h))];
  }

  /** Then one fails the message for good and the other sends it. */
  lemma SentAndDeadLettered() returns (run: seq<Step>)
    ensures Valid(Start(3), run, 2)
    ensures var t := Exec(Start(3), run, 2);
            Row(t).status == Sent && t.worker.store.deadLetters == 1 && t.sentWrites == 1 && t.failedWrites == 1
  {
    hide Exec, Valid, Apply;
    run := TwoHolders();
    run := Fails(Start(3), run, 1);
    run := Sends(Start(3), run, 0);
  }

  // ----- a failure after the send -----

  /** The queue gave the channel job up, and recovery handed the message over. */
  lemma HandedOver() returns (run: seq<Step>)
    ensures Valid(Start(3), run, 1)
    ensures var t := Exec(Start(3), run, 1);
            && t == Start(3).(worker := Channel.Apply(Channel.Start(3), Channel.GiveUp(0)), handed := true,
                              others := [Other(Returned, true), Other(Fetched(0), true)])
  {
    var s := Start(3);
    Extend(s, [], Work(Channel.GiveUp(0)), 1);
    run := [] + [Work(Channel.GiveUp(0))];
    hide Exec, Valid;
    Extend(s, run, SweepQueued, 1);
    run := run + [SweepQueued];
    Extend(s, run, Republish(0), 1);
    run := run + [Republish(0)];
    Extend(s, run, Fetch, 1);
    run := run + [Fetch];
    assert Exec(s, run, 1).others == [Other(Returned, true), Other(Fetched(0), true)];
  }

  /** WhatsApp handler o claims, sends, stores the id and then fails. */
  lemma FailsLate(s: State, prefix: seq<Step>, o: nat) returns (run: seq<Step>)
    requires Valid(s, prefix, 1)
    requires var t := Exec(s, prefix, 1);
             && At(t, o) && t.others[o].phase.Fetched? && t.others[o].phase.seen < Row(t).maxRetries
             && Row(t).status == Queued
    ensures Valid(s, run, 1)
    ensures var t, u := Exec(s, prefix, 1), Exec(s, run, 1);
            && u.others == t.others[o := Other(Republishing, true)]
            && u.worker.handlers == t.worker.handlers && u.worker.jobs == t.worker.jobs
            && Row(u).status == Queued && u.sentId && u.sentWrites == t.sentWrites + 1
  {
    Extend(s, prefix, Take(o), 1);
    run := prefix + [Take(o)];
    Extend(s, run, Call(o), 1);
    run := run + [Call(o)];
    Extend(s, run, StoreId(o), 1);
    run := run + [StoreId(o)];
    Extend(s, run, FailLate(o, true), 1);
    run := run + [FailLate(o, true)];
  }

  /** The message is abandoned. */
  lemma AbandonedAfterSend() returns (run: seq<Step>)
    ensures Valid(Start(3), run, 1) && Abandoned(Exec(Start(3), run, 1)) && Exec(Start(3), run, 1).sentWrites == 1
  {
    run := HandedOver();
    hide Exec, Valid, Apply;
    run := FailsLate(Start(3), run, 1);
    var t := Exec(Start(3), run, 1);
    assert t.others == [Other(Returned, true), Other(Republishing, true)];
    assert t.worker.jobs == [Channel.Job(Channel.Closed, 0)] && t.worker.handlers == [];
  }
}
