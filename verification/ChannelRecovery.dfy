/** The channel send worker together with the recovery cron, whose queries do not look
    at the channel: recovery passes write channel rows too, and hand them to the
    WhatsApp send worker, which claims them like its own. Every statement is one
    atomic step. */
module ChannelRecovery {
  import opened Prelude
  import opened Counting
  import Channel = ChannelSend

  /** A recovery pass, or a handler of the WhatsApp worker, on the one row; `seen` is
      the retryCount it read. */
  datatype Phase =
    | Swept(seen: nat)
    | Republishing
    | Fetched(seen: nat)
    | Taken(seen: nat)
    | Called(seen: nat)
    | Stored(seen: nat)
    | DeadLettering
    | Returned

  datatype Other = Other(phase: Phase, alive: bool)

  /** `worker` is the channel worker's state, the row included; `sentId` tells that a
      provider id of WhatsApp is stored, `handed` that a WhatsApp job was published;
      `sentWrites` and `failedWrites` count the outcomes written to the row. */
  datatype State = State(
    worker: Channel.State, others: seq<Other>, sentId: bool, handed: bool, sentWrites: nat, failedWrites: nat)

  datatype Step =
    | Work(step: Channel.Step)
    | Sweep
    | Recover(o: nat)
    | SweepQueued
    | Republish(o: nat)
    | Fetch
    | Take(o: nat)
    | Call(o: nat)
    | StoreId(o: nat)
    | Requeue(o: nat, counted: bool)
    | GiveUp(o: nat)
    | FailLate(o: nat, retry: bool)
    | Return(o: nat)
    | WriteDeadLetter(o: nat)
    | Die(o: nat)

  function Row(s: State): Channel.Row { s.worker.store.row }

  predicate Final(status: MessageStatus) { status == Sent || status == Failed }

  predicate At(s: State, o: nat) { o < |s.others| && s.others[o].alive }

  predicate CanStep(s: State, step: Step, workers: nat) {
    match step
    case Work(work) => Channel.CanStep(s.worker, work, workers)
    case Sweep => Row(s).status == Processing
    case Recover(o) => At(s, o) && s.others[o].phase.Swept?
    case SweepQueued => Row(s).status == Queued
    case Republish(o) => At(s, o) && s.others[o].phase == Republishing
    case Fetch => s.handed
    case Take(o) => At(s, o) && s.others[o].phase.Fetched?
    case Call(o) => At(s, o) && s.others[o].phase.Taken?
    case StoreId(o) => At(s, o) && s.others[o].phase.Called?
    case Requeue(o, counted) =>
      && At(s, o) && (s.others[o].phase.Taken? || s.others[o].phase.Called?)
      && (counted ==> s.others[o].phase.Called? && s.others[o].phase.seen < Row(s).maxRetries)
      && (!counted ==> s.others[o].phase.Taken?)
    case GiveUp(o) => At(s, o) && (s.others[o].phase.Taken? || s.others[o].phase.Called?)
    case FailLate(o, retry) =>
      At(s, o) && s.others[o].phase.Stored? && (retry ==> s.others[o].phase.seen < Row(s).maxRetries)
    case Return(o) => At(s, o) && s.others[o].phase.Stored?
    case WriteDeadLetter(o) => At(s, o) && s.others[o].phase == DeadLettering
    case Die(o) => At(s, o) && s.others[o].phase != Returned
  }

  function Move(s: State, o: nat, phase: Phase): State
    requires o < |s.others|
  {
    s.(others := s.others[o := s.others[o].(phase := phase)])
  }

  function Arrive(s: State, phase: Phase): State {
    s.(others := s.others + [Other(phase, true)])
  }

  /** An unconditional write of the row, outcomes counted. */
  function Write(s: State, status: MessageStatus, retryCount: nat): State {
    s.(worker := Channel.SetRow(s.worker, Row(s).(status := status, retryCount := retryCount)),
       sentWrites := s.sentWrites + One(status == Sent), failedWrites := s.failedWrites + One(status == Failed))
  }

  /** markForRetry and the republishing to follow, or markFailed and the dead letter. */
  function RetryOrFail(s: State, o: nat, retry: bool): State
    requires o < |s.others|
  {
    if retry then Write(Move(s, o, Republishing), Queued, Row(s).retryCount + 1)
    else Write(Move(s, o, DeadLettering), Failed, Row(s).retryCount + 1)
  }

  /** The channel worker's own step; only its outcome writes a final status. */
  function Worked(s: State, step: Channel.Step): State
    requires Channel.InPhase(s.worker, step)
  {
    var worker := Channel.Apply(s.worker, step);
    var status := worker.store.row.status;
    s.(worker := worker,
       sentWrites := s.sentWrites + One(step.WriteOutcome? && status == Sent),
       failedWrites := s.failedWrites + One(step.WriteOutcome? && status == Failed))
  }

  function Apply(s: State, step: Step, workers: nat): State
    requires CanStep(s, step, workers)
  {
    match step
    case Work(work) => Worked(s, work)
    case Sweep => Arrive(s, Swept(Row(s).retryCount))
    case Recover(o) => RetryOrFail(s, o, s.others[o].phase.seen < Row(s).maxRetries)
    case SweepQueued => Arrive(s, Republishing)
    case Republish(o) => Move(s, o, Returned).(handed := true)
    case Fetch => Arrive(s, if AlreadySent(Row(s).status) || s.sentId then Returned else Fetched(Row(s).retryCount))
    case Take(o) =>
      if Row(s).status == Queued then Write(Move(s, o, Taken(s.others[o].phase.seen)), Processing, Row(s).retryCount)
      else Move(s, o, Returned)
    case Call(o) => Move(s, o, Called(s.others[o].phase.seen))
    case StoreId(o) => Write(Move(s, o, Stored(s.others[o].phase.seen)), Sent, Row(s).retryCount).(sentId := true)
    case Requeue(o, counted) => Write(Move(s, o, Republishing), Queued, Row(s).retryCount + One(counted))
    case GiveUp(o) => RetryOrFail(s, o, false)
    case FailLate(o, retry) => RetryOrFail(s, o, retry)
    case Return(o) => Move(s, o, Returned)
    case WriteDeadLetter(o) =>
      var store := s.worker.store;
      Move(s, o, Returned).(worker := s.worker.(store := store.(deadLetters := store.deadLetters + 1)))
    case Die(o) => s.(others := s.others[o := s.others[o].(alive := false)])
  }

  predicate Valid(s: State, run: seq<Step>, workers: nat)
    decreases |run|
  {
    run == [] || (CanStep(s, run[0], workers) && Valid(Apply(s, run[0], workers), run[1..], workers))
  }

  function Exec(s: State, run: seq<Step>, workers: nat): State
    requires Valid(s, run, workers)
    decreases |run|
  {
    if run == [] then s else Exec(Apply(s, run[0], workers), run[1..], workers)
  }

  function Start(maxRetries: nat): State {
    State(Channel.Start(maxRetries), [], false, false, 0, 0)
  }

  lemma Prepend(s: State, step: Step, rest: seq<Step>, workers: nat)
    requires CanStep(s, step, workers) && Valid(Apply(s, step, workers), rest, workers)
    ensures Valid(s, [step] + rest, workers)
    ensures Exec(s, [step] + rest, workers) == Exec(Apply(s, step, workers), rest, workers)
  {
    assert ([step] + rest)[1..] == rest;
  }

  // ----- exclusion and one outcome -----

  predicate LiveHolder(h: Channel.Handler) { h.alive && Channel.Holds(h) }

  /** A live handler of the WhatsApp worker between its claim and its first write. */
  predicate LiveTaker(x: Other) { x.alive && (x.phase.Taken? || x.phase.Called?) }

  predicate HasStored(x: Other) { x.phase.Stored? }

  predicate IsDeadLettering(x: Other) { x.phase == DeadLettering }

  function Owners(s: State): nat {
    Count(s.worker.handlers, LiveHolder) + Count(s.others, LiveTaker)
  }

  /** At most one live handler, of either worker, owns the row, and then it is
      PROCESSING; and there was one outcome if the row is final and none if not. */
  ghost predicate Orderly(s: State) {
    && Owners(s) <= 1
    && (Owners(s) == 1 ==> Row(s).status == Processing)
    && s.sentWrites + s.failedWrites == One(Final(Row(s).status))
    && Count(s.others, HasStored) <= s.sentWrites
    && Row(s).status in {Queued, Processing, Sent, Failed}
  }

  /** A write that comes too late: recovery of a row that is final or that a live
      handler owns, or a failure handled after the provider's id was stored. */
  predicate TooLate(s: State, step: Step) {
    (step.Recover? && (Final(Row(s).status) || Owners(s) > 0)) || step.FailLate?
  }

  lemma ReplaceOther(s: State, t: State, o: nat)
    requires o < |s.others| && |t.others| == |s.others| && t.others == s.others[o := t.others[o]]
    ensures Count(t.others, LiveTaker)
            == Count(s.others, LiveTaker) - One(LiveTaker(s.others[o])) + One(LiveTaker(t.others[o]))
    ensures Count(t.others, HasStored)
            == Count(s.others, HasStored) - One(HasStored(s.others[o])) + One(HasStored(t.others[o]))
    ensures LiveTaker(s.others[o]) ==> Count(s.others, LiveTaker) >= 1
    ensures HasStored(s.others[o]) ==> Count(s.others, HasStored) >= 1
  {
    CountUpdate(s.others, o, t.others[o], LiveTaker);
    CountUpdate(s.others, o, t.others[o], HasStored);
    if LiveTaker(s.others[o]) {
      CountPositive(s.others, o, LiveTaker);
    }
    if HasStored(s.others[o]) {
      CountPositive(s.others, o, HasStored);
    }
  }

  lemma ReplaceHandler(s: Channel.State, t: Channel.State, h: nat)
    requires h < |s.handlers| && |t.handlers| == |s.handlers| && t.handlers == s.handlers[h := t.handlers[h]]
    ensures Count(t.handlers, LiveHolder)
            == Count(s.handlers, LiveHolder) - One(LiveHolder(s.handlers[h])) + One(LiveHolder(t.handlers[h]))
    ensures LiveHolder(s.handlers[h]) ==> Count(s.handlers, LiveHolder) >= 1
  {
    CountUpdate(s.handlers, h, t.handlers[h], LiveHolder);
    if LiveHolder(s.handlers[h]) {
      CountPositive(s.handlers, h, LiveHolder);
    }
  }

  lemma OrderlyWork(s: State, step: Channel.Step, workers: nat)
    requires Orderly(s) && CanStep(s, Work(step), workers)
    ensures Orderly(Apply(s, Work(step), workers))
  {
    hide Count;
    var t := Apply(s, Work(step), workers);
    if step.Deliver? {
      CountAppend(s.worker.handlers, t.worker.handlers[|s.worker.handlers|], LiveHolder);
    } else if !step.Complete? && !step.GiveUp? {
      ReplaceHandler(s.worker, t.worker, step.h);
    }
  }

  lemma OrderlyArrive(s: State, step: Step, workers: nat)
    requires Orderly(s) && CanStep(s, step, workers) && (step.Sweep? || step.SweepQueued? || step.Fetch?)
    ensures Orderly(Apply(s, step, workers))
  {
    hide Count;
    var t := Apply(s, step, workers);
    CountAppend(s.others, t.others[|s.others|], LiveTaker);
    CountAppend(s.others, t.others[|s.others|], HasStored);
  }

  lemma OrderlyTaker(s: State, step: Step, workers: nat)
    requires Orderly(s) && CanStep(s, step, workers)
    requires step.Take? || step.Call? || step.StoreId? || step.Requeue? || step.GiveUp?
    ensures Orderly(Apply(s, step, workers))
  {
    hide Count;
    ReplaceOther(s, Apply(s, step, workers), step.o);
  }

  lemma OrderlyRest(s: State, step: Step, workers: nat)
    requires Orderly(s) && CanStep(s, step, workers)
    requires step.Republish? || step.Return? || step.WriteDeadLetter? || step.Die?
    ensures Orderly(Apply(s, step, workers))
  {
    hide Count;
    ReplaceOther(s, Apply(s, step, workers), step.o);
  }

  lemma OrderlyRecovery(s: State, step: Step, workers: nat)
    requires Orderly(s) && CanStep(s, step, workers) && (step.Recover? || step.FailLate?)
    ensures Orderly(Apply(s, step, workers)) <==> !TooLate(s, step)
  {
    hide Count;
    ReplaceOther(s, Apply(s, step, workers), step.o);
  }

  lemma OrderlyStep(s: State, step: Step, workers: nat)
    requires Orderly(s) && CanStep(s, step, workers)
    ensures Orderly(Apply(s, step, workers)) <==> !TooLate(s, step)
  {
    if step.Work? {
      OrderlyWork(s, step.step, workers);
    } else if step.Sweep? || step.SweepQueued? || step.Fetch? {
      OrderlyArrive(s, step, workers);
    } else if step.Recover? || step.FailLate? {
      OrderlyRecovery(s, step, workers);
    } else if step.Republish? || step.Return? || step.WriteDeadLetter? || step.Die? {
      OrderlyRest(s, step, workers);
    } else {
      OrderlyTaker(s, step, workers);
    }
  }

  ghost predicate AlwaysOrderly(s: State, run: seq<Step>, workers: nat)
    requires Valid(s, run, workers)
    decreases |run|
  {
    Orderly(s) && (run != [] ==> AlwaysOrderly(Apply(s, run[0], workers), run[1..], workers))
  }

  ghost predicate NeverTooLate(s: State, run: seq<Step>, workers: nat)
    requires Valid(s, run, workers)
    decreases |run|
  {
    run != [] ==> !TooLate(s, run[0]) && NeverTooLate(Apply(s, run[0], workers), run[1..], workers)
  }

  /** With recovery, one owner at a time and one outcome in all hold throughout a run
      exactly if no recovery pass writes a row that is final or that a live handler of
      either worker owns, and no handler fails after storing the provider's id. */
  lemma {:induction false} OrderlyIff(s: State, run: seq<Step>, workers: nat)
    requires Orderly(s) && Valid(s, run, workers)
    ensures AlwaysOrderly(s, run, workers) <==> NeverTooLate(s, run, workers)
    decreases |run|
  {
    if run != [] {
      OrderlyStep(s, run[0], workers);
      var t := Apply(s, run[0], workers);
      if Orderly(t) {
        OrderlyIff(t, run[1..], workers);
      } else {
        assert !AlwaysOrderly(t, run[1..], workers);
      }
    }
  }

  // ----- dead letters -----

  /** What every run keeps, timely or not: each dead letter, written or pending, has
      its own write of FAILED. */
  ghost predicate Accounted(s: State) {
    && s.worker.store.deadLetters + Count(s.worker.handlers, Channel.IsDeadLettering) + Count(s.others, IsDeadLettering)
       <= s.failedWrites
    && (Row(s).status == Sent ==> s.sentWrites >= 1)
  }

  lemma AccountedWork(s: State, step: Channel.Step, workers: nat)
    requires Accounted(s) && CanStep(s, Work(step), workers)
    ensures Accounted(Apply(s, Work(step), workers))
  {
    hide Count;
    var t := Apply(s, Work(step), workers);
    if step.Deliver? {
      CountAppend(s.worker.handlers, t.worker.handlers[|s.worker.handlers|], Channel.IsDeadLettering);
    } else if !step.Complete? && !step.GiveUp? {
      CountUpdate(s.worker.handlers, step.h, t.worker.handlers[step.h], Channel.IsDeadLettering);
    }
  }

  lemma AccountedStep(s: State, step: Step, workers: nat)
    requires Accounted(s) && CanStep(s, step, workers)
    ensures Accounted(Apply(s, step, workers))
  {
    hide Count;
    var t := Apply(s, step, workers);
    if step.Work? {
      AccountedWork(s, step.step, workers);
    } else if step.Sweep? || step.SweepQueued? || step.Fetch? {
      CountAppend(s.others, t.others[|s.others|], IsDeadLettering);
    } else {
      CountUpdate(s.others, step.o, t.others[step.o], IsDeadLettering);
    }
  }

  lemma {:induction false} AccountedRun(s: State, run: seq<Step>, workers: nat)
    requires Accounted(s) && Valid(s, run, workers)
    ensures Accounted(Exec(s, run, workers))
    decreases |run|
  {
    if run != [] {
      AccountedStep(s, run[0], workers);
      AccountedRun(Apply(s, run[0], workers), run[1..], workers);
    }
  }

  lemma {:induction false} OrderlyAtTheEnd(s: State, run: seq<Step>, workers: nat)
    requires Valid(s, run, workers) && AlwaysOrderly(s, run, workers)
    ensures Orderly(Exec(s, run, workers))
    decreases |run|
  {
    if run != [] {
      OrderlyAtTheEnd(Apply(s, run[0], workers), run[1..], workers);
    }
  }

  /** So in such runs there is at most one outcome and one dead letter, and none for a
      message that was sent. */
  lemma OneOutcomeWithRecovery(maxRetries: nat, workers: nat, run: seq<Step>)
    requires Valid(Start(maxRetries), run, workers) && NeverTooLate(Start(maxRetries), run, workers)
    ensures var t := Exec(Start(maxRetries), run, workers);
            && t.sentWrites + t.failedWrites <= 1
            && t.worker.store.deadLetters <= t.failedWrites
            && (t.worker.store.deadLetters == 1 ==> Row(t).status == Failed && t.sentWrites == 0)
  {
    OrderlyIff(Start(maxRetries), run, workers);
    OrderlyAtTheEnd(Start(maxRetries), run, workers);
    AccountedRun(Start(maxRetries), run, workers);
  }
}
