/** The code of the WhatsApp send worker and of the recovery cron, over the
    messages table, and the link between whole handler runs and the protocol's
    single statements. */
module WhatsAppWorker {
  import opened Prelude
  import opened ErrorPatterns
  import opened WhatsAppJobs
  import opened WhatsAppDelivery
  import Fine = WhatsAppSend

  // ----- every fate is what the statements can do -----

  function ClaimSteps(): seq<Fine.Step> { [Fine.Deliver, Fine.Claim(0)] }

  /** The statements of one undisturbed handler run that wins the claim. */
  function Statements(row: Fine.Row, fate: Fate): seq<Fine.Step> {
    var toCall := [Fine.CheckLimit(0, true), Fine.CheckSession(0, true)];
    match fate
    case CrashBeforeClaim => []
    case CrashBeforeCall => [Fine.Crash(0)]
    case Throttled(cut) =>
      [Fine.CheckLimit(0, false)] + [Fine.Throttle(0), if cut then Fine.Crash(0) else Fine.Publish(0)]
    case SessionDown(cut) => [Fine.CheckLimit(0, true), Fine.CheckSession(0, false)] + FailureSteps(row, false, cut)
    case PayloadMissing(cut) => toCall + ([Fine.MissPayload(0)] + FailureSteps(row, false, cut))
    case Refused(retryable, cut) => toCall + ([Fine.CallApi(0, false, retryable)] + FailureSteps(row, retryable, cut))
    case CrashAfterCall => toCall + [Fine.CallApi(0, true, true), Fine.Crash(0)]
    case Success => toCall + [Fine.CallApi(0, true, true), Fine.RecordId(0), Fine.Finish(0)]
    case CrashAfterRecord => toCall + [Fine.CallApi(0, true, true), Fine.RecordId(0), Fine.Crash(0)]
    case ErrorAfterRecord(retryable, cut) =>
      toCall + ([Fine.CallApi(0, true, true), Fine.RecordId(0), Fine.Throw(0, retryable)]
                + FailureSteps(row, retryable, cut))
  }

  function FailureSteps(row: Fine.Row, retryable: bool, cut: bool): seq<Fine.Step> {
    [Fine.HandleFailure(0),
     if cut then Fine.Crash(0)
     else if retryable && row.retryCount < row.maxRetries then Fine.Publish(0)
     else Fine.CreateDeadLetter(0)]
  }

  /** The part of a fine-grained store that the coarse model keeps. */
  ghost predicate Agrees(t: Fine.Store, m: Message) {
    && t.row == m.row && t.jobs == m.jobs
    && t.claims == m.claims && t.calls == m.calls && t.deadLetters == m.deadLetters
  }

  /** s reaches t by this run with one handler allowed in flight. */
  ghost predicate Reaches(s: Fine.State, run: seq<Fine.Step>, t: Fine.State) {
    Fine.Valid(s, run, 1) && Fine.Exec(s, run, 1) == t
  }

  lemma Then(s: Fine.State, step: Fine.Step, rest: seq<Fine.Step>, t: Fine.State)
    requires Fine.CanStep(s, step, 1) && Reaches(Fine.Apply(s, step), rest, t)
    ensures Reaches(s, [step] + rest, t)
  {
    Fine.Prepend(s, step, rest, 1);
  }

  lemma Last(s: Fine.State, step: Fine.Step)
    requires Fine.CanStep(s, step, 1)
    ensures Reaches(s, [step], Fine.Apply(s, step))
  {
    Fine.Prepend(s, step, [], 1);
    assert [step] + [] == [step];
  }

  lemma ThenTwo(s: Fine.State, a: Fine.Step, b: Fine.Step, rest: seq<Fine.Step>, t: Fine.State)
    requires Fine.CanStep(s, a, 1) && Fine.CanStep(Fine.Apply(s, a), b, 1)
    requires Reaches(Fine.Apply(Fine.Apply(s, a), b), rest, t)
    ensures Reaches(s, [a, b] + rest, t)
  {
    Then(Fine.Apply(s, a), b, rest, t);
    Then(s, a, [b] + rest, t);
    assert [a] + ([b] + rest) == [a, b] + rest;
  }

  lemma FailureRun(s: Fine.State, row: Fine.Row, retryable: bool, cut: bool, m: Message) returns (t: Fine.State)
    requires |s.actors| == 1 && s.actors[0].alive && s.actors[0].phase.Failing?
    requires s.actors[0].phase.seen == row.retryCount && s.actors[0].phase.retryable == retryable
    requires s.store.row.retryCount == row.retryCount && s.store.row.maxRetries == row.maxRetries
    requires Agrees(s.store, m)
    ensures Reaches(s, FailureSteps(row, retryable, cut), t)
    ensures Agrees(t.store, FailureHandled(m, retryable, cut))
  {
    var s1 := Fine.Apply(s, Fine.HandleFailure(0));
    var end := FailureSteps(row, retryable, cut)[1];
    t := Fine.Apply(s1, end);
    Last(s1, end);
    Then(s, Fine.HandleFailure(0), [end], t);
    assert [Fine.HandleFailure(0)] + [end] == FailureSteps(row, retryable, cut);
  }

  /** One handler, alive in this phase. */
  ghost predicate Single(s: Fine.State, phase: Fine.Phase) {
    s.actors == [Fine.Actor(phase, true)]
  }

  /** From the call on. */
  lemma CallRun(s: Fine.State, m: Message, fate: Fate) returns (t: Fine.State, run: seq<Fine.Step>)
    requires Single(s, Fine.Ready(m.row.retryCount)) && Agrees(s.store, Claimed(m))
    requires fate.Success? || fate.ErrorAfterRecord? || fate.CrashAfterCall? || fate.CrashAfterRecord?
    ensures Statements(m.row, fate) == [Fine.CheckLimit(0, true), Fine.CheckSession(0, true)] + run
    ensures Reaches(s, run, t)
    ensures Agrees(t.store, Processed(m, fate))
  {
    hide Reaches;
    var call, record := Fine.CallApi(0, true, true), Fine.RecordId(0);
    var s1 := Fine.Apply(s, call);
    var s2 := Fine.Apply(s1, record);
    if fate.CrashAfterCall? {
      t := Fine.Apply(s1, Fine.Crash(0));
      Last(s1, Fine.Crash(0));
      Then(s, call, [Fine.Crash(0)], t);
      run := [call] + [Fine.Crash(0)];
    } else {
      var rest;
      t, rest := RecordedRun(s2, m, fate);
      ThenTwo(s, call, record, rest, t);
      run := [call, record] + rest;
    }
  }

  /** From the stored id on. */
  lemma RecordedRun(s: Fine.State, m: Message, fate: Fate) returns (t: Fine.State, run: seq<Fine.Step>)
    requires Single(s, Fine.Recorded(m.row.retryCount)) && Agrees(s.store, Recorded(m))
    requires fate.Success? || fate.ErrorAfterRecord? || fate.CrashAfterRecord?
    ensures Statements(m.row, fate)
            == [Fine.CheckLimit(0, true), Fine.CheckSession(0, true)]
               + ([Fine.CallApi(0, true, true), Fine.RecordId(0)] + run)
    ensures Reaches(s, run, t)
    ensures Agrees(t.store, Processed(m, fate))
  {
    hide Reaches;
    if fate.ErrorAfterRecord? {
      var throw := Fine.Throw(0, fate.retryable);
      var steps := FailureSteps(m.row, fate.retryable, fate.cut);
      t := FailureRun(Fine.Apply(s, throw), m.row, fate.retryable, fate.cut, Recorded(m));
      Then(s, throw, steps, t);
      run := [throw] + steps;
      assert [Fine.CallApi(0, true, true), Fine.RecordId(0), throw] + steps
          == [Fine.CallApi(0, true, true), Fine.RecordId(0)] + run;
    } else {
      var end := if fate.Success? then Fine.Finish(0) else Fine.Crash(0);
      t := Fine.Apply(s, end);
      Last(s, end);
      run := [end];
    }
  }

  lemma ReadyRun(s: Fine.State, m: Message, fate: Fate) returns (t: Fine.State, run: seq<Fine.Step>)
    requires Single(s, Fine.Ready(m.row.retryCount)) && Agrees(s.store, Claimed(m))
    requires !fate.CrashBeforeClaim? && !fate.CrashBeforeCall? && !fate.Throttled? && !fate.SessionDown?
    ensures Statements(m.row, fate) == [Fine.CheckLimit(0, true), Fine.CheckSession(0, true)] + run
    ensures Reaches(s, run, t)
    ensures Agrees(t.store, Processed(m, fate))
  {
    hide Reaches;
    if fate.PayloadMissing? {
      t := FailureRun(Fine.Apply(s, Fine.MissPayload(0)), m.row, false, fate.cut, Claimed(m));
      Then(s, Fine.MissPayload(0), FailureSteps(m.row, false, fate.cut), t);
      run := [Fine.MissPayload(0)] + FailureSteps(m.row, false, fate.cut);
    } else if fate.Refused? {
      var refuse := Fine.CallApi(0, false, fate.retryable);
      t := FailureRun(Fine.Apply(s, refuse), m.row, fate.retryable, fate.cut, Called(m));
      Then(s, refuse, FailureSteps(m.row, fate.retryable, fate.cut), t);
      run := [refuse] + FailureSteps(m.row, fate.retryable, fate.cut);
    } else {
      t, run := CallRun(s, m, fate);
    }
  }

  /** From a claimed row the statements reach what the coarse step says. */
  lemma ProcessedRun(s: Fine.State, m: Message, fate: Fate) returns (t: Fine.State)
    requires Single(s, Fine.Claimed(m.row.retryCount)) && Agrees(s.store, Claimed(m)) && !fate.CrashBeforeClaim?
    ensures Reaches(s, Statements(m.row, fate), t)
    ensures Agrees(t.store, Processed(m, fate))
  {
    hide Reaches;
    if fate.Throttled? {
      var s1 := Fine.Apply(s, Fine.CheckLimit(0, false));
      var s2 := Fine.Apply(s1, Fine.Throttle(0));
      var end := if fate.cut then Fine.Crash(0) else Fine.Publish(0);
      t := Fine.Apply(s2, end);
      Last(s2, end);
      Then(s1, Fine.Throttle(0), [end], t);
      assert [Fine.Throttle(0)] + [end] == [Fine.Throttle(0), end];
      Then(s, Fine.CheckLimit(0, false), [Fine.Throttle(0), end], t);
    } else if fate.SessionDown? {
      var s2 := Fine.Apply(Fine.Apply(s, Fine.CheckLimit(0, true)), Fine.CheckSession(0, false));
      t := FailureRun(s2, m.row, false, fate.cut, Claimed(m));
      ThenTwo(s, Fine.CheckLimit(0, true), Fine.CheckSession(0, false), FailureSteps(m.row, false, fate.cut), t);
    } else if fate.CrashBeforeCall? {
      t := Fine.Apply(s, Fine.Crash(0));
      Last(s, Fine.Crash(0));
    } else {
      var s2 := Fine.Apply(Fine.Apply(s, Fine.CheckLimit(0, true)), Fine.CheckSession(0, true));
      var rest;
      t, rest := ReadyRun(s2, m, fate);
      ThenTwo(s, Fine.CheckLimit(0, true), Fine.CheckSession(0, true), rest, t);
    }
  }

  /** Every fate of a handler that wins its claim is realised by the protocol's
      statements, one handler running alone. */
  lemma EveryFateIsARun(store: Fine.Store, m: Message, fate: Fate) returns (run: seq<Fine.Step>, t: Fine.State)
    requires Agrees(store, m) && Claimable(m.row) && !fate.CrashBeforeClaim?
    ensures run == ClaimSteps() + Statements(m.row, fate)
    ensures Reaches(Fine.State(store, []), run, t)
    ensures Agrees(t.store, Processed(m, fate))
  {
    var s0 := Fine.State(store, []);
    var s2 := Fine.Apply(Fine.Apply(s0, Fine.Deliver), Fine.Claim(0));
    t := ProcessedRun(s2, m, fate);
    ThenTwo(s0, Fine.Deliver, Fine.Claim(0), Statements(m.row, fate), t);
    run := ClaimSteps() + Statements(m.row, fate);
  }

  // ----- and the statements can do nothing else -----

  ghost predicate IsFated(t: Fine.Store, m: Message) {
    exists fate :: Agrees(t, Processed(m, fate))
  }

  /** What the store is while the one handler of message m is in this phase. */
  ghost predicate OnTheWay(t: Fine.Store, m: Message, phase: Fine.Phase) {
    match phase
    case Loaded(seen) => seen == m.row.retryCount && Agrees(t, m)
    case Claimed(seen) => seen == m.row.retryCount && Agrees(t, Claimed(m))
    case Allowed(seen) => seen == m.row.retryCount && Agrees(t, Claimed(m))
    case Ready(seen) => seen == m.row.retryCount && Agrees(t, Claimed(m))
    case Throttled => Agrees(t, Claimed(m))
    case Accepted(seen) => seen == m.row.retryCount && Agrees(t, Called(m))
    case Recorded(seen) => seen == m.row.retryCount && Agrees(t, Recorded(m))
    case Failing(seen, retryable, recorded) =>
      seen == m.row.retryCount
      && if recorded then Agrees(t, Recorded(m)) else Agrees(t, Called(m)) || (Agrees(t, Claimed(m)) && !retryable)
    case DeadLettering =>
      || Agrees(t, Processed(m, SessionDown(true)))
      || Agrees(t, Processed(m, Refused(false, true)))
      || Agrees(t, Processed(m, ErrorAfterRecord(false, true)))
    case Publishing(job) =>
      || (job == Delayed && Agrees(t, Processed(m, Throttled(true))))
      || (job == Retry(m.row.retryCount + 1) && m.row.retryCount < m.row.maxRetries
          && (Agrees(t, Processed(m, Refused(true, true))) || Agrees(t, Processed(m, ErrorAfterRecord(true, true)))))
    case Swept(_) => false
    case Done => IsFated(t, m)
  }

  ghost predicate Alone(s: Fine.State, m: Message) {
    && |s.actors| == 1
    && if s.actors[0].alive then OnTheWay(s.store, m, s.actors[0].phase) else IsFated(s.store, m)
  }

  lemma DeathIsAFate(t: Fine.Store, m: Message, phase: Fine.Phase)
    requires OnTheWay(t, m, phase)
    ensures IsFated(t, m)
  {
    if phase.Loaded? {
      assert Agrees(t, Processed(m, CrashBeforeClaim));
    } else if Agrees(t, Called(m)) {
      assert Agrees(t, Processed(m, CrashAfterCall));
    } else if Agrees(t, Recorded(m)) {
      assert Agrees(t, Processed(m, CrashAfterRecord));
    } else if !phase.DeadLettering? && !phase.Publishing? && !phase.Done? {
      assert Agrees(t, Processed(m, CrashBeforeCall));
    }
  }

  lemma FailureOnTheWay(s: Fine.State, m: Message)
    requires Alone(s, m) && Fine.InPhase(s, Fine.HandleFailure(0))
    ensures Alone(Fine.Apply(s, Fine.HandleFailure(0)), m)
  {
    var t := Fine.Apply(s, Fine.HandleFailure(0));
    var phase := s.actors[0].phase;
    var retried := phase.retryable && phase.seen < m.row.maxRetries;
    if phase.recorded {
      assert Agrees(t.store, Processed(m, ErrorAfterRecord(retried, true)));
    } else if Agrees(s.store, Called(m)) {
      assert Agrees(t.store, Processed(m, Refused(retried, true)));
    } else {
      assert Agrees(t.store, Processed(m, SessionDown(true)));
    }
  }

  lemma DeadLetterOnTheWay(s: Fine.State, m: Message)
    requires Alone(s, m) && Fine.InPhase(s, Fine.CreateDeadLetter(0))
    ensures Alone(Fine.Apply(s, Fine.CreateDeadLetter(0)), m)
  {
    var t := Fine.Apply(s, Fine.CreateDeadLetter(0));
    if Agrees(s.store, Processed(m, SessionDown(true))) {
      assert Agrees(t.store, Processed(m, SessionDown(false)));
    } else if Agrees(s.store, Processed(m, Refused(false, true))) {
      assert Agrees(t.store, Processed(m, Refused(false, false)));
    } else {
      assert Agrees(t.store, Processed(m, ErrorAfterRecord(false, false)));
    }
  }

  lemma PublishOnTheWay(s: Fine.State, m: Message)
    requires Alone(s, m) && Fine.InPhase(s, Fine.Publish(0))
    ensures Alone(Fine.Apply(s, Fine.Publish(0)), m)
  {
    var t := Fine.Apply(s, Fine.Publish(0));
    if s.actors[0].phase.job == Delayed {
      assert Agrees(t.store, Processed(m, Throttled(false)));
    } else if Agrees(s.store, Processed(m, Refused(true, true))) {
      assert Agrees(t.store, Processed(m, Refused(true, false)));
    } else {
      assert Agrees(t.store, Processed(m, ErrorAfterRecord(true, false)));
    }
  }

  /** A step of the handler itself, not another delivery or recovery pass. */
  predicate OwnStep(step: Fine.Step) { !step.Deliver? && !step.Sweep? }

  lemma StepOnTheWay(s: Fine.State, m: Message, step: Fine.Step)
    requires Claimable(m.row) && Alone(s, m) && Fine.InPhase(s, step) && OwnStep(step)
    ensures Alone(Fine.Apply(s, step), m)
  {
    var t := Fine.Apply(s, step);
    if step.HandleFailure? {
      FailureOnTheWay(s, m);
    } else if step.CreateDeadLetter? {
      DeadLetterOnTheWay(s, m);
    } else if step.Crash? {
      DeathIsAFate(s.store, m, s.actors[0].phase);
    } else if step.Publish? {
      PublishOnTheWay(s, m);
    } else if step.Throttle? {
      assert Agrees(t.store, Processed(m, Throttled(true)));
    } else if step.Finish? {
      assert Agrees(t.store, Processed(m, Success));
    }
  }

  lemma {:induction false} RunOnTheWay(s: Fine.State, m: Message, run: seq<Fine.Step>)
    requires Claimable(m.row) && Alone(s, m) && Fine.Valid(s, run, 1)
    requires forall i :: 0 <= i < |run| ==> OwnStep(run[i])
    ensures Alone(Fine.Exec(s, run, 1), m)
    decreases |run|
  {
    if run != [] {
      StepOnTheWay(s, m, run[0]);
      RunOnTheWay(Fine.Apply(s, run[0]), m, run[1..]);
    }
  }

  /** Taking a handler as one step loses nothing: however its statements go, once
      the handler has returned or died the message is as one of the fates leaves it.
      If the row is not claimable, it is unchanged. */
  lemma EveryRunIsAFate(store: Fine.Store, m: Message, run: seq<Fine.Step>)
    requires Agrees(store, m)
    requires Fine.Valid(Fine.Apply(Fine.State(store, []), Fine.Deliver), run, 1)
    requires forall i :: 0 <= i < |run| ==> OwnStep(run[i])
    requires var s := Fine.Exec(Fine.Apply(Fine.State(store, []), Fine.Deliver), run, 1);
             forall x :: x in s.actors ==> !Fine.Live(x)
    ensures var t := Fine.Exec(Fine.Apply(Fine.State(store, []), Fine.Deliver), run, 1).store;
            if Claimable(m.row) then IsFated(t, m) else Agrees(t, m)
  {
    hide Processed;
    var s := Fine.Apply(Fine.State(store, []), Fine.Deliver);
    if Claimable(m.row) {
      RunOnTheWay(s, m, run);
      var t := Fine.Exec(s, run, 1);
      assert t.actors[0] in t.actors;
    } else {
      NotClaimed(s, run);
    }
  }

  lemma {:induction false} NotClaimed(s: Fine.State, run: seq<Fine.Step>)
    requires |s.actors| == 1 && (s.actors[0].phase.Done? || (s.actors[0].phase.Loaded? && s.store.row.status != Queued))
    requires Fine.Valid(s, run, 1) && forall i :: 0 <= i < |run| ==> OwnStep(run[i])
    ensures Fine.Exec(s, run, 1).store == s.store && |Fine.Exec(s, run, 1).actors| == 1
    decreases |run|
  {
    if run != [] {
      NotClaimed(Fine.Apply(s, run[0]), run[1..]);
    }
  }

  // ----- the workers' code -----

  type Id = nat

  /** What a claimable message m has become when its handler's run had this fate. */
  ghost predicate Ends(m: Message, m': Message, fate: Fate) {
    var row, row' := m.row, m'.row;
    && m'.claims == m.claims + One(!fate.CrashBeforeClaim?)
    && row'.maxRetries == row.maxRetries
    && match fate
       case CrashBeforeClaim => m' == m
       case CrashBeforeCall => Unpublished(m, m', 0) && row' == row.(status := Processing)
       case Throttled(cut) =>
         && row' == row && m'.calls == m.calls && m'.deadLetters == m.deadLetters
         && m'.jobs == if cut then m.jobs else m.jobs + {Delayed}
       case SessionDown(cut) => Fails(m, m', 0, cut)
       case PayloadMissing(cut) => Fails(m, m', 0, cut)
       case Refused(retryable, cut) =>
         if retryable && row.retryCount < row.maxRetries then Requeued(m, m', cut) && !row'.sentId
         else Fails(m, m', 1, cut)
       case CrashAfterCall => Unpublished(m, m', 1) && row' == row.(status := Processing)
       case Success => Unpublished(m, m', 1) && row' == row.(status := Sent, sentId := true)
       case CrashAfterRecord => Unpublished(m, m', 1) && row' == row.(status := Sent, sentId := true)
       case ErrorAfterRecord(retryable, cut) =>
         && row'.sentId
         && if retryable && row.retryCount < row.maxRetries then Requeued(m, m', cut) else Fails(m, m', 1, cut)
  }

  lemma FateEnds(m: Message, fate: Fate)
    requires Claimable(m.row)
    ensures Ends(m, Processed(m, fate), fate)
  {
  }

  /** So many more calls, and neither a job nor a dead letter. */
  ghost predicate Unpublished(m: Message, m': Message, calls: nat) {
    m'.calls == m.calls + calls && m'.jobs == m.jobs && m'.deadLetters == m.deadLetters
  }

  ghost predicate Fails(m: Message, m': Message, calls: nat, cut: bool) {
    && m'.row.status == Failed && m'.row.retryCount == m.row.retryCount + 1
    && m'.calls == m.calls + calls && m'.jobs == m.jobs && m'.deadLetters == m.deadLetters + One(!cut)
  }

  ghost predicate Requeued(m: Message, m': Message, cut: bool) {
    && m'.row.status == Queued && m'.row.retryCount == m.row.retryCount + 1
    && m'.calls == m.calls + 1 && m'.deadLetters == m.deadLetters
    && m'.jobs == if cut then m.jobs else m.jobs + {Retry(m.row.retryCount + 1)}
  }

  class MessageWorkers {
    var messages: map<Id, Message>

    constructor ()
      ensures messages == map[]
    {
      messages := map[];
    }

    method SetRow(id: Id, row: Fine.Row)
      requires id in messages
      modifies this
      ensures messages == old(messages)[id := old(messages)[id].(row := row)]
    {
      messages := messages[id := messages[id].(row := row)];
    }

    /** Queue send with a singleton key. */
    method PublishOnce(id: Id, job: Job)
      requires id in messages
      modifies this
      ensures messages == old(messages)[id := old(messages)[id].(jobs := old(messages)[id].jobs + {job})]
    {
      messages := messages[id := messages[id].(jobs := messages[id].jobs + {job})];
    }

    method CreateDeadLetter(id: Id)
      requires id in messages
      modifies this
      ensures messages == old(messages)[id := old(messages)[id].(deadLetters := old(messages)[id].deadLetters + 1)]
    {
      messages := messages[id := messages[id].(deadLetters := messages[id].deadLetters + 1)];
    }

    method HandleFailure(id: Id, loaded: Fine.Row, retryable: bool, cut: bool)
      requires id in messages
      requires messages[id].row.retryCount == loaded.retryCount && messages[id].row.maxRetries == loaded.maxRetries
      modifies this
      ensures messages == old(messages)[id := FailureHandled(old(messages)[id], retryable, cut)]
      ensures messages[id].claims == old(messages)[id].claims && messages[id].calls == old(messages)[id].calls
      ensures var m, row := old(messages)[id], old(messages)[id].row;
              if retryable && row.retryCount < row.maxRetries then
                && messages[id].row == row.(status := Queued, retryCount := row.retryCount + 1)
                && messages[id].jobs == (if cut then m.jobs else m.jobs + {Retry(row.retryCount + 1)})
                && messages[id].deadLetters == m.deadLetters
              else
                && messages[id].row == row.(status := Failed, retryCount := row.retryCount + 1)
                && messages[id].jobs == m.jobs
                && messages[id].deadLetters == m.deadLetters + One(!cut)
    {
      if retryable && loaded.retryCount < loaded.maxRetries {
        SetRow(id, Fine.MarkForRetry(messages[id].row));
        if cut {
          return;
        }
        PublishOnce(id, Retry(loaded.retryCount + 1));
      } else {
        SetRow(id, Fine.MarkFailed(messages[id].row));
        if cut {
          return;
        }
        CreateDeadLetter(id);
      }
    }

    /** The catch block around the send: the text of the error decides. */
    method HandleSendError(id: Id, loaded: Fine.Row, reason: string, cut: bool)
      requires id in messages
      requires messages[id].row.retryCount == loaded.retryCount && messages[id].row.maxRetries == loaded.maxRetries
      modifies this
      ensures messages == old(messages)[id := FailureHandled(old(messages)[id], IsRetryable(reason), cut)]
      ensures messages[id].row.status == Queued
              <==> !PermanentOnWhatsApp(reason) && old(messages)[id].row.retryCount < old(messages)[id].row.maxRetries
      ensures messages[id].row.status != Queued ==>
                && messages[id].row.status == Failed
                && messages[id].deadLetters == old(messages)[id].deadLetters + One(!cut)
    {
      IsRetryableIff(reason);
      hide PermanentOnWhatsApp;
      HandleFailure(id, loaded, IsRetryable(reason), cut);
    }

    /** From the rate limit on, for a row just claimed. */
    method Proceed(id: Id, loaded: Fine.Row, fate: Fate, reason: string)
      requires id in messages && messages[id].claims >= 1 && !fate.CrashBeforeClaim?
      requires messages[id].row == loaded.(status := Processing) && loaded.status == Queued && !loaded.sentId
      requires fate.Refused? || fate.ErrorAfterRecord? ==> fate.retryable == IsRetryable(reason)
      modifies this
      ensures var m := old(messages)[id].(row := loaded, claims := old(messages)[id].claims - 1);
              messages == old(messages)[id := Processed(m, fate)]
    {
      if fate.CrashBeforeCall? {
        return;
      }
      if fate.Throttled? {
        SetRow(id, messages[id].row.(status := Queued));
        if !fate.cut {
          PublishOnce(id, Delayed);
        }
        return;
      }
      if fate.SessionDown? || fate.PayloadMissing? {
        HandleFailure(id, loaded, false, fate.cut);
        return;
      }
      messages := messages[id := messages[id].(calls := messages[id].calls + 1)];
      if fate.CrashAfterCall? {
        return;
      }
      if fate.Refused? {
        HandleSendError(id, loaded, reason, fate.cut);
        return;
      }
      SetRow(id, messages[id].row.(status := Sent, sentId := true));
      if fate.ErrorAfterRecord? {
        HandleSendError(id, loaded, reason, fate.cut);
      }
    }

    /** One run of the send handler for message `id`, ending in `fate` should the row
        be claimable; `reason` is the text of the error, if one is caught. The job that
        started it is not removed here. */
    method Handle(id: Id, fate: Fate, reason: string)
      requires fate.Refused? || fate.ErrorAfterRecord? ==> fate.retryable == IsRetryable(reason)
      modifies this
      ensures id !in old(messages) ==> messages == old(messages)
      ensures messages.Keys == old(messages).Keys
      ensures id in old(messages) ==>
                var m := old(messages)[id];
                if m.row.status == Queued && !m.row.sentId then Ends(m, messages[id], fate) else messages[id] == m
      ensures id in old(messages) ==>
                var m := old(messages)[id];
                messages == old(messages)[id := if Claimable(m.row) then Processed(m, fate) else m]
    {
      if id !in messages {
        return;
      }
      if Claimable(messages[id].row) {
        FateEnds(messages[id], fate);
      }
      hide Ends;
      var loaded := messages[id].row;
      if AlreadySent(loaded.status) || loaded.sentId {
        return;
      }
      if fate.CrashBeforeClaim? || messages[id].row.status != Queued {
        return;
      }
      SetRow(id, loaded.(status := Processing));
      messages := messages[id := messages[id].(claims := messages[id].claims + 1)];
      Proceed(id, loaded, fate, reason);
    }

    /** The body of the recovery loop, on the row the query returned. */
    method RecoverOne(id: Id, cut: bool)
      requires id in messages && messages[id].row.status == Processing
      modifies this
      ensures id in messages
      ensures messages[id].claims == old(messages)[id].claims && messages[id].calls == old(messages)[id].calls
      ensures var m, row := old(messages)[id], old(messages)[id].row;
              if row.retryCount < row.maxRetries then
                && messages[id].row == row.(status := Queued, retryCount := row.retryCount + 1)
                && messages[id].jobs == (if cut then m.jobs else m.jobs + {Recovered})
                && messages[id].deadLetters == m.deadLetters
              else
                && messages[id].row == row.(status := Failed, retryCount := row.retryCount + 1)
                && messages[id].jobs == m.jobs
                && messages[id].deadLetters == m.deadLetters + One(!cut)
      ensures messages == old(messages)[id := Apply(old(messages)[id], RecoverProcessing(cut))]
    {
      var snapshot := messages[id].row;
      if snapshot.retryCount >= snapshot.maxRetries {
        SetRow(id, Fine.MarkFailed(messages[id].row));
        if cut {
          return;
        }
        CreateDeadLetter(id);
      } else {
        SetRow(id, Fine.MarkForRetry(messages[id].row));
        if cut {
          return;
        }
        PublishOnce(id, Recovered);
      }
    }

    /** The recovery loop over the stale PROCESSING rows the query returned: each
        takes exactly the recovery step, every other message is untouched. The pass
        may die at the message at position `end`, right after writing its row. */
    method RecoverStaleProcessing(stale: seq<Id>, end: nat)
      requires forall i :: 0 <= i < |stale| ==> stale[i] in messages && messages[stale[i]].row.status == Processing
      requires forall i, j :: 0 <= i < j < |stale| ==> stale[i] != stale[j]
      modifies this
      ensures messages.Keys == old(messages).Keys
      ensures forall i :: 0 <= i < |stale| && i <= end ==>
                messages[stale[i]] == Apply(old(messages)[stale[i]], RecoverProcessing(i == end))
      ensures forall i :: 0 <= i < |stale| && i > end ==> messages[stale[i]] == old(messages)[stale[i]]
      ensures forall id :: id in messages && id !in stale ==> messages[id] == old(messages)[id]
    {
      for k := 0 to |stale|
        invariant k <= end && messages.Keys == old(messages).Keys
        invariant forall i :: 0 <= i < k ==>
                    messages[stale[i]] == Apply(old(messages)[stale[i]], RecoverProcessing(false))
        invariant forall i :: k <= i < |stale| ==> messages[stale[i]] == old(messages)[stale[i]]
        invariant forall id :: id in messages && id !in stale ==> messages[id] == old(messages)[id]
      {
        RecoverOne(stale[k], k == end);
        if k == end {
          return;
        }
      }
    }

    /** Republishing changes no row at all. */
    method RecoverStaleQueued(stale: seq<Id>)
      requires forall i :: 0 <= i < |stale| ==> stale[i] in messages && messages[stale[i]].row.status == Queued
      modifies this
      ensures messages.Keys == old(messages).Keys
      ensures forall id :: id in messages ==>
                messages[id] == if id in stale then Apply(old(messages)[id], RecoverQueued) else old(messages)[id]
      ensures forall id :: id in messages && id in stale ==>
                messages[id] == old(messages)[id].(jobs := old(messages)[id].jobs + {Stale})
    {
      for k := 0 to |stale|
        invariant messages.Keys == old(messages).Keys
        invariant forall id :: id in messages ==>
                    messages[id] == if id in stale[..k] then Apply(old(messages)[id], RecoverQueued)
                                    else old(messages)[id]
      {
        assert stale[..k + 1] == stale[..k] + [stale[k]];
        PublishOnce(stale[k], Stale);
      }
      assert stale[..|stale|] == stale;
    }
  }
}
