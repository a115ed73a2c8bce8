/** Delivery of one WhatsApp message with whole handler runs and whole recovery
    passes as steps: jobs in the queue, deaths, recovery of stale PROCESSING rows,
    republishing of stale QUEUED ones, and the provider's receipts. */
module WhatsAppDelivery {
  import opened Prelude
  import opened WhatsAppJobs
  import Fine = WhatsAppSend

  /** How a handler run on a claimable row ends. `cut` means that the handler dies
      right after its last write of the row, before the queue send or the dead
      letter that should follow. */
  datatype Fate =
    | CrashBeforeClaim
    | CrashBeforeCall
    | Throttled(cut: bool)
    | SessionDown(cut: bool)
    | PayloadMissing(cut: bool)
    | Refused(retryable: bool, cut: bool)
    | CrashAfterCall
    | Success
    | CrashAfterRecord
    | ErrorAfterRecord(retryable: bool, cut: bool)

  datatype Message = Message(row: Fine.Row, jobs: set<Job>, claims: nat, calls: nat, deadLetters: nat)

  datatype Step =
    | Handle(job: Job, fate: Fate, redelivered: bool)
    | RecoverProcessing(cut: bool)
    | RecoverQueued
    | Receipt(status: MessageStatus)

  predicate Claimable(row: Fine.Row) {
    !AlreadySent(row.status) && !row.sentId && row.status == Queued
  }

  predicate IsCut(fate: Fate) {
    match fate
    case Throttled(cut) => cut
    case SessionDown(cut) => cut
    case PayloadMissing(cut) => cut
    case Refused(_, cut) => cut
    case ErrorAfterRecord(_, cut) => cut
    case _ => false
  }

  predicate Dies(fate: Fate) {
    IsCut(fate) || fate.CrashBeforeClaim? || fate.CrashBeforeCall? || fate.CrashAfterCall? || fate.CrashAfterRecord?
  }

  /** handleFailure: requeue under a fresh key, or fail for good. */
  function FailureHandled(m: Message, retryable: bool, cut: bool): Message {
    if retryable && m.row.retryCount < m.row.maxRetries then
      m.(row := Fine.MarkForRetry(m.row), jobs := if cut then m.jobs else m.jobs + {Retry(m.row.retryCount + 1)})
    else
      m.(row := Fine.MarkFailed(m.row), deadLetters := m.deadLetters + One(!cut))
  }

  function Claimed(m: Message): Message {
    m.(row := m.row.(status := Processing), claims := m.claims + 1)
  }

  function Called(m: Message): Message {
    Claimed(m).(calls := m.calls + 1)
  }

  /** The API accepted and the provider's id is stored. */
  function Recorded(m: Message): Message {
    Called(m).(row := m.row.(status := Sent, sentId := true))
  }

  function Processed(m: Message, fate: Fate): Message {
    match fate
    case CrashBeforeClaim => m
    case CrashBeforeCall => Claimed(m)
    case Throttled(cut) =>
      Claimed(m).(row := m.row.(status := Queued), jobs := if cut then m.jobs else m.jobs + {Delayed})
    case SessionDown(cut) => FailureHandled(Claimed(m), false, cut)
    case PayloadMissing(cut) => FailureHandled(Claimed(m), false, cut)
    case Refused(retryable, cut) => FailureHandled(Called(m), retryable, cut)
    case CrashAfterCall => Called(m)
    case Success => Recorded(m)
    case CrashAfterRecord => Recorded(m)
    case ErrorAfterRecord(retryable, cut) => FailureHandled(Recorded(m), retryable, cut)
  }

  // ----- receipts -----

  function Order(status: MessageStatus): int {
    match status
    case Queued => 0
    case Processing => 1
    case Sent => 2
    case Delivered => 3
    case Read => 4
    case Failed => -1
  }

  /** A receipt never takes a status back, but a failure always counts. */
  predicate Applies(current: MessageStatus, incoming: MessageStatus) {
    incoming == Failed || Order(current) < Order(incoming)
  }

  function Received(row: Fine.Row, incoming: MessageStatus): Fine.Row {
    if !Applies(row.status, incoming) then row
    else if incoming == Failed then Fine.MarkFailed(row)
    else row.(status := incoming)
  }

  // ----- runs -----

  /** A receipt names the message by the provider's id. */
  predicate CanStep(m: Message, step: Step) {
    match step
    case Handle(job, _, _) => job in m.jobs
    case RecoverProcessing(_) => m.row.status == Processing
    case RecoverQueued => m.row.status == Queued
    case Receipt(status) => m.row.sentId && (AlreadySent(status) || status == Failed)
  }

  function Apply(m: Message, step: Step): Message
    requires CanStep(m, step)
  {
    match step
    case Handle(job, fate, redelivered) =>
      if !Claimable(m.row) then m.(jobs := m.jobs - {job})
      else
        var done := Processed(m, fate);
        if Dies(fate) && redelivered then done else done.(jobs := done.jobs - {job})
    case RecoverProcessing(cut) =>
      if m.row.retryCount >= m.row.maxRetries then
        m.(row := Fine.MarkFailed(m.row), deadLetters := m.deadLetters + One(!cut))
      else
        m.(row := Fine.MarkForRetry(m.row), jobs := if cut then m.jobs else m.jobs + {Recovered})
    case RecoverQueued => m.(jobs := m.jobs + {Stale})
    case Receipt(status) => m.(row := Received(m.row, status))
  }

  predicate Valid(m: Message, run: seq<Step>)
    decreases |run|
  {
    run == [] || (CanStep(m, run[0]) && Valid(Apply(m, run[0]), run[1..]))
  }

  function Exec(m: Message, run: seq<Step>): Message
    requires Valid(m, run)
    decreases |run|
  {
    if run == [] then m else Exec(Apply(m, run[0]), run[1..])
  }

  function Start(maxRetries: nat): Message {
    Message(Fine.Row(Queued, 0, maxRetries, false), {First}, 0, 0, 0)
  }

  predicate NoReceipts(run: seq<Step>) {
    forall i :: 0 <= i < |run| ==> !run[i].Receipt?
  }

  // ----- a stored provider id stops everything but receipts -----

  predicate Settled(m: Message) { m.row.sentId && m.row.status != Processing }

  lemma {:induction false} IdNeverProcessing(m: Message, run: seq<Step>)
    requires (m.row.sentId ==> m.row.status != Processing) && Valid(m, run)
    ensures Exec(m, run).row.sentId ==> Exec(m, run).row.status != Processing
    decreases |run|
  {
    if run != [] {
      IdNeverProcessing(Apply(m, run[0]), run[1..]);
    }
  }

  lemma {:induction false} FrozenWithId(m: Message, run: seq<Step>)
    requires Settled(m) && Valid(m, run)
    ensures var t := Exec(m, run);
            && Settled(t) && t.claims == m.claims && t.calls == m.calls && t.deadLetters == m.deadLetters
            && (NoReceipts(run) ==> t.row == m.row)
    decreases |run|
  {
    if run != [] {
      FrozenWithId(Apply(m, run[0]), run[1..]);
    }
  }

  /** Once the provider's id is stored, no later handler run and no recovery pass
      calls the API, claims, dead-letters or changes the row again, not even when
      an error after the storing sent the row back to QUEUED. */
  lemma SentOnceIdStored(maxRetries: nat, before: seq<Step>, after: seq<Step>)
    requires Valid(Start(maxRetries), before) && Valid(Exec(Start(maxRetries), before), after)
    requires Exec(Start(maxRetries), before).row.sentId
    ensures var m, t := Exec(Start(maxRetries), before), Exec(Exec(Start(maxRetries), before), after);
            && t.claims == m.claims && t.calls == m.calls && t.deadLetters == m.deadLetters
            && (NoReceipts(after) ==> t.row == m.row)
  {
    IdNeverProcessing(Start(maxRetries), before);
    FrozenWithId(Exec(Start(maxRetries), before), after);
  }

  predicate Final(status: MessageStatus) { AlreadySent(status) || status == Failed }

  lemma {:induction false} FinalWithIdStays(m: Message, run: seq<Step>)
    requires m.row.sentId && Final(m.row.status) && Valid(m, run)
    ensures Final(Exec(m, run).row.status)
    decreases |run|
  {
    if run != [] {
      FinalWithIdStays(Apply(m, run[0]), run[1..]);
    }
  }

  /** The price: a message that was sent and then put back to QUEUED leaves QUEUED
      in exactly those runs that bring a receipt for it; recovery only republishes
      it, and nothing sends it again. */
  lemma {:induction false} OnlyReceiptsFinish(m: Message, run: seq<Step>)
    requires m.row.sentId && m.row.status == Queued && Valid(m, run)
    ensures Final(Exec(m, run).row.status) <==> !NoReceipts(run)
    ensures NoReceipts(run) ==> Exec(m, run).row == m.row
    decreases |run|
  {
    if run != [] {
      var t := Apply(m, run[0]);
      if run[0].Receipt? {
        FinalWithIdStays(t, run[1..]);
      } else {
        OnlyReceiptsFinish(t, run[1..]);
        assert NoReceipts(run) <==> NoReceipts(run[1..]) by {
          assert run == [run[0]] + run[1..];
        }
      }
    }
  }

  /** Such a message: sent, then an error while the sending is written up. */
  lemma SentYetQueued(maxRetries: nat, after: seq<Step>)
    requires maxRetries >= 1
    requires Valid(Apply(Start(maxRetries), Handle(First, ErrorAfterRecord(true, false), false)), after)
    ensures var t := Exec(Apply(Start(maxRetries), Handle(First, ErrorAfterRecord(true, false), false)), after);
            t.row.sentId && t.calls == 1 && (t.row.status == Queued <==> NoReceipts(after))
  {
    var m := Apply(Start(maxRetries), Handle(First, ErrorAfterRecord(true, false), false));
    FrozenWithId(m, after);
    OnlyReceiptsFinish(m, after);
  }

  /** Workers and recovery alone bring the row to an end. */
  ghost predicate CanFinishUnaided(m: Message) {
    exists run :: Valid(m, run) && NoReceipts(run) && Final(Exec(m, run).row.status)
  }

  /** Republish, then deliver and succeed. */
  lemma SendRun(m: Message)
    requires m.row.status == Queued && !m.row.sentId
    ensures Valid(m, [RecoverQueued, Handle(Stale, Success, false)])
    ensures Final(Exec(m, [RecoverQueued, Handle(Stale, Success, false)]).row.status)
  {
    var m1 := Apply(m, RecoverQueued);
    var last := Handle(Stale, Success, false);
    assert [RecoverQueued, last][1..] == [last];
    var m2 := Apply(m1, last);
    assert [last][1..] == [];
    assert Valid(m2, []) && Exec(m2, []) == m2;
    assert Valid(m1, [last]) && Exec(m1, [last]) == m2;
  }

  lemma FinishRun(m: Message) returns (run: seq<Step>)
    requires m.row.sentId ==> Final(m.row.status)
    ensures Valid(m, run) && NoReceipts(run) && Final(Exec(m, run).row.status)
  {
    var send := [RecoverQueued, Handle(Stale, Success, false)];
    if Final(m.row.status) {
      run := [];
    } else if m.row.status == Queued {
      run := send;
      SendRun(m);
    } else {
      var m1 := Apply(m, RecoverProcessing(false));
      if m1.row.status == Failed {
        run := [RecoverProcessing(false)];
        assert Valid(m1, run[1..]);
      } else {
        run := [RecoverProcessing(false)] + send;
        assert run[1..] == send;
        SendRun(m1);
      }
    }
  }

  /** Exactly the rows that are QUEUED with an id stored need a receipt to become
      final; from every other reachable row, recovery and one delivery suffice. */
  lemma CanFinishIff(maxRetries: nat, before: seq<Step>)
    requires Valid(Start(maxRetries), before)
    ensures var m := Exec(Start(maxRetries), before);
            CanFinishUnaided(m) <==> !(m.row.sentId && m.row.status == Queued)
  {
    IdNeverProcessing(Start(maxRetries), before);
    var m := Exec(Start(maxRetries), before);
    if m.row.sentId && m.row.status == Queued {
      forall run | Valid(m, run) && NoReceipts(run) ensures !Final(Exec(m, run).row.status) {
        OnlyReceiptsFinish(m, run);
      }
    } else {
      var run := FinishRun(m);
    }
  }

  // ----- termination -----

  /** Steps of a run in which the limiter always allows, the store never errors,
      handlers die only after their claim and the provider reports no failure; what
      changes nothing, a republish the queue refuses or an outdated receipt, is no
      step. */
  predicate Progresses(m: Message, step: Step) {
    && CanStep(m, step)
    && (step.Handle? ==> !step.fate.Throttled? && !step.fate.ErrorAfterRecord? && !step.fate.CrashBeforeClaim?)
    && (step.RecoverQueued? ==> Stale !in m.jobs)
    && (step.Receipt? ==> step.status != Failed && Applies(m.row.status, step.status))
  }

  /** What such runs keep. */
  ghost predicate Inv(m: Message) {
    && (m.row.sentId <==> AlreadySent(m.row.status))
    && m.row.retryCount <= m.row.maxRetries + One(m.row.status == Failed)
    && m.claims + One(m.row.status == Queued) == 1 + m.row.retryCount - One(m.row.status == Failed)
    && m.calls <= m.claims
    && m.deadLetters <= One(m.row.status == Failed)
  }

  lemma InvStep(m: Message, step: Step)
    requires Inv(m) && Progresses(m, step)
    ensures Inv(Apply(m, step))
    ensures Apply(m, step).row.maxRetries == m.row.maxRetries
  {
  }

  // The measure, most significant part first.

  ghost function RetriesLeft(m: Message): nat {
    if m.row.retryCount <= m.row.maxRetries then m.row.maxRetries + 1 - m.row.retryCount else 0
  }

  ghost function StatusRank(m: Message): nat {
    match m.row.status
    case Queued => 5
    case Processing => 4
    case Sent => 3
    case Delivered => 2
    case Read => 1
    case Failed => 0
  }

  ghost function JobRank(m: Message): nat {
    if m.row.status == Queued then One(Stale !in m.jobs) else |m.jobs|
  }

  ghost predicate Below(t: Message, m: Message) {
    || RetriesLeft(t) < RetriesLeft(m)
    || (RetriesLeft(t) == RetriesLeft(m) && StatusRank(t) < StatusRank(m))
    || (RetriesLeft(t) == RetriesLeft(m) && StatusRank(t) == StatusRank(m) && JobRank(t) < JobRank(m))
  }

  lemma StepDescends(m: Message, step: Step)
    requires Inv(m) && Progresses(m, step)
    ensures Below(Apply(m, step), m)
  {
    var t := Apply(m, step);
    if step.Handle? && !Claimable(m.row) {
      assert |m.jobs - {step.job}| == |m.jobs| - 1;
    }
  }

  /** m moves to t by this step. */
  ghost predicate Moves(m: Message, step: Step, t: Message) {
    Progresses(m, step) && t == Apply(m, step)
  }

  lemma {:induction false} NoEndlessDescent(f: nat -> Message, g: nat -> Step, n: nat)
    requires Inv(f(n))
    requires forall k: nat :: Moves(f(k), g(k), f(k + 1))
    ensures false
    decreases RetriesLeft(f(n)), StatusRank(f(n)), JobRank(f(n))
  {
    assert Moves(f(n), g(n), f(n + 1));
    InvStep(f(n), g(n));
    StepDescends(f(n), g(n));
    NoEndlessDescent(f, g, n + 1);
  }

  /** No run goes on for ever, deaths included: PROCESSING is never a trap. */
  lemma EveryRunEnds(maxRetries: nat, f: nat -> Message, g: nat -> Step)
    requires f(0) == Start(maxRetries)
    ensures exists k: nat :: !Moves(f(k), g(k), f(k + 1))
  {
    if forall k: nat :: Moves(f(k), g(k), f(k + 1)) {
      NoEndlessDescent(f, g, 0);
    }
  }

  predicate AllProgress(m: Message, run: seq<Step>)
    decreases |run|
  {
    run == [] || (Progresses(m, run[0]) && AllProgress(Apply(m, run[0]), run[1..]))
  }

  predicate CutStep(step: Step) {
    (step.Handle? && IsCut(step.fate)) || (step.RecoverProcessing? && step.cut)
  }

  /** How often the row became FAILED by a step that died before its dead letter. */
  function CutFailures(m: Message, run: seq<Step>): nat
    requires Valid(m, run)
    decreases |run|
  {
    if run == [] then 0
    else
      var t := Apply(m, run[0]);
      One(m.row.status != Failed && t.row.status == Failed && CutStep(run[0])) + CutFailures(t, run[1..])
  }

  lemma {:induction false} ProgressIsValid(m: Message, run: seq<Step>)
    requires AllProgress(m, run)
    ensures Valid(m, run)
    decreases |run|
  {
    if run != [] {
      ProgressIsValid(Apply(m, run[0]), run[1..]);
    }
  }

  lemma DeadLetterStep(m: Message, step: Step)
    requires Inv(m) && Progresses(m, step)
    ensures var t := Apply(m, step);
            t.deadLetters + One(m.row.status != Failed && t.row.status == Failed && CutStep(step))
            + One(m.row.status == Failed)
            == m.deadLetters + One(t.row.status == Failed)
  {
  }

  lemma {:induction false} InvRun(m: Message, run: seq<Step>)
    requires Inv(m) && AllProgress(m, run) && Valid(m, run)
    ensures Inv(Exec(m, run)) && Exec(m, run).row.maxRetries == m.row.maxRetries
    ensures Exec(m, run).deadLetters + CutFailures(m, run) + One(m.row.status == Failed)
            == m.deadLetters + One(Exec(m, run).row.status == Failed)
    decreases |run|
  {
    if run != [] {
      InvStep(m, run[0]);
      DeadLetterStep(m, run[0]);
      InvRun(Apply(m, run[0]), run[1..]);
    }
  }

  /** A message is claimed, and the API called, at most maxRetries + 1 times. There
      is one dead letter for a FAILED message and none otherwise, except that the
      one is lost if who failed the message died before writing it. */
  lemma ClaimBound(maxRetries: nat, run: seq<Step>)
    requires AllProgress(Start(maxRetries), run)
    ensures Valid(Start(maxRetries), run)
    ensures var t := Exec(Start(maxRetries), run);
            && t.calls <= t.claims <= maxRetries + 1
            && t.deadLetters + CutFailures(Start(maxRetries), run) == One(t.row.status == Failed)
            && t.row.retryCount <= maxRetries + One(t.row.status == Failed)
  {
    ProgressIsValid(Start(maxRetries), run);
    InvRun(Start(maxRetries), run);
  }

  /** A FAILED message without a dead letter, and nothing that would write it. */
  lemma LostDeadLetter(maxRetries: nat) returns (run: seq<Step>)
    ensures AllProgress(Start(maxRetries), run) && Valid(Start(maxRetries), run)
    ensures var t := Exec(Start(maxRetries), run);
            && t.row.status == Failed && t.deadLetters == 0
            && forall after :: Valid(t, after) ==> Exec(t, after).deadLetters == 0
  {
    run := [Handle(First, Refused(false, true), false)];
    var t := Apply(Start(maxRetries), run[0]);
    assert AllProgress(t, run[1..]) && Exec(t, run[1..]) == t;
    forall after | Valid(t, after)
      ensures Exec(t, after).deadLetters == 0
    {
      FailedStays(t, after);
    }
  }

  lemma {:induction false} FailedStays(m: Message, run: seq<Step>)
    requires m.row.status == Failed && !m.row.sentId && Valid(m, run)
    ensures Exec(m, run).row == m.row && Exec(m, run).deadLetters == m.deadLetters
    decreases |run|
  {
    if run != [] {
      FailedStays(Apply(m, run[0]), run[1..]);
    }
  }

  /** A run that cannot be continued ended in a final status with no job left. */
  lemma MaximalRunIsFinal(maxRetries: nat, run: seq<Step>)
    requires AllProgress(Start(maxRetries), run) && Valid(Start(maxRetries), run)
    requires forall step :: !Progresses(Exec(Start(maxRetries), run), step)
    ensures Final(Exec(Start(maxRetries), run).row.status)
    ensures Exec(Start(maxRetries), run).jobs == {}
  {
    InvRun(Start(maxRetries), run);
    var t := Exec(Start(maxRetries), run);
    assert !Progresses(t, RecoverProcessing(false));
    assert !Progresses(t, RecoverQueued);
    assert !Progresses(t, Handle(Stale, Success, false));
    if t.jobs != {} {
      var job :| job in t.jobs;
      assert Progresses(t, Handle(job, Success, false));
    }
  }

  // ----- receipts over runs -----

  /** Receipts may come in any order and any number of times: without a failure among
      them the row ends at the furthest status it or any of them had, also from FAILED,
      and nothing else of the message changes. */
  lemma {:induction false} ReceiptsConverge(m: Message, run: seq<Step>)
    requires Valid(m, run) && forall i :: 0 <= i < |run| ==> run[i].Receipt? && run[i].status != Failed
    ensures var start, end := m.row.status, Exec(m, run).row.status;
            && Exec(m, run) == m.(row := m.row.(status := end))
            && (run == [] ==> end == start)
            && (end == Read <==> start == Read || Receipt(Read) in run)
            && (end == Delivered <==> end != Read && (start == Delivered || Receipt(Delivered) in run))
            && (run != [] && end != Read && end != Delivered ==> end == Sent)
    decreases |run|
  {
    if run != [] {
      ReceiptsConverge(Apply(m, run[0]), run[1..]);
      assert forall step :: step in run <==> step == run[0] || step in run[1..];
    }
  }

  /** A failure receipt counts whatever came before it, and takes up a retry. */
  lemma FailureReceipt(m: Message)
    requires CanStep(m, Receipt(Failed))
    ensures Apply(m, Receipt(Failed)) == m.(row := m.row.(status := Failed, retryCount := m.row.retryCount + 1))
  {
  }
}
