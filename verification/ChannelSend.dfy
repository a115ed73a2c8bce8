/** The channel send worker: any number of handlers, each holding a snapshot of
    one message row that may be out of date, race to claim the row, call the
    channel adapter and write an outcome. Every statement that touches the
    database is one atomic step; handlers interleave freely and may die after
    any statement. */
module ChannelSend {
  import opened Prelude
  import opened Counting
  import opened ErrorPatterns
  import opened Backoff

  datatype SendResult = Accepted | Refused(retryable: bool, error: Option<string>)

  datatype Row = Row(status: MessageStatus, retryCount: nat, maxRetries: nat)

  /** The row, the dead letters and status events written for it, and the adapter
      calls made. */
  datatype Store = Store(row: Row, deadLetters: nat, events: seq<MessageStatus>, sends: nat)

  /** Jobs of the message, all under its one singleton key. A job stays active, and
      may be delivered again, until a handler of it has returned or the queue gives
      it up. */
  datatype JobState = Waiting | Active | Closed

  datatype Job = Job(state: JobState, delay: nat)

  /** Where a handler is; `seen` is the retryCount it read before claiming. */
  datatype Phase =
    | Loaded(seen: nat)
    | Claimed(seen: nat)
    | Ready(seen: nat)
    | Answered(seen: nat, result: SendResult)
    | Inactive
    | DeadLettering
    | Recording(status: MessageStatus, delay: nat)
    | Publishing(delay: nat)
    | Done

  datatype Handler = Handler(job: nat, phase: Phase, alive: bool)

  datatype State = State(store: Store, handlers: seq<Handler>, jobs: seq<Job>)

  datatype Step =
    | Deliver(j: nat)
    | Claim(h: nat)
    | CheckChannel(h: nat, active: bool)
    | CallAdapter(h: nat, result: SendResult)
    | WriteOutcome(h: nat)
    | CreateDeadLetter(h: nat)
    | RecordEvent(h: nat)
    | PublishRetry(h: nat)
    | Complete(h: nat)
    | GiveUp(j: nat)
    | Crash(h: nat)

  predicate NonRetryable(result: SendResult)
    requires result.Refused?
  {
    !result.retryable || (result.error.Some? && MatchesAny(result.error.value, CHANNEL_PATTERNS))
  }

  /** The retry branch of the worker; the retry count it tests is the snapshot's. */
  predicate WillRetry(result: SendResult, seen: nat, maxRetries: nat) {
    result.Refused? && !NonRetryable(result) && seen < maxRetries
  }

  // ----- phases of a handler -----

  predicate Live(h: Handler) { h.alive && h.phase != Done }

  /** Between a successful claim and the outcome write. */
  predicate Holds(h: Handler) {
    h.phase.Claimed? || h.phase.Ready? || h.phase.Answered? || h.phase.Inactive?
  }

  predicate HasAnswer(h: Handler) { h.phase.Answered? }

  predicate IsDeadLettering(h: Handler) { h.phase.DeadLettering? }

  predicate RecordsSent(h: Handler) { h.phase.Recording? && h.phase.status == Sent }

  predicate RecordsFailed(h: Handler) { h.phase.Recording? && h.phase.status == Failed }

  predicate RecordsQueued(h: Handler) { h.phase.Recording? && h.phase.status == Queued }

  /** A live handler whose snapshot still allows it to requeue. */
  function MayRequeue(maxRetries: nat): Handler -> bool {
    (h: Handler) =>
      h.alive && match h.phase
      case Loaded(seen) => seen < maxRetries
      case Claimed(seen) => seen < maxRetries
      case Ready(seen) => seen < maxRetries
      case Answered(seen, _) => seen < maxRetries
      case _ => false
  }

  predicate IsSentEvent(e: MessageStatus) { e == Sent }

  predicate IsFailedEvent(e: MessageStatus) { e == Failed }

  predicate IsQueuedEvent(e: MessageStatus) { e == Queued }

  // ----- transitions -----

  predicate IsOpen(s: State, j: nat) { j < |s.jobs| && s.jobs[j].state != Closed }

  /** The queue takes a new job only when no job with its key is waiting or active. */
  predicate KeyTaken(s: State) { exists j :: 0 <= j < |s.jobs| && IsOpen(s, j) }

  function SetJob(s: State, j: nat, state: JobState): State
    requires j < |s.jobs|
  {
    s.(jobs := s.jobs[j := s.jobs[j].(state := state)])
  }

  predicate InPhase(s: State, step: Step) {
    match step
    case Deliver(j) => IsOpen(s, j)
    case Claim(h) => h < |s.handlers| && s.handlers[h].alive && s.handlers[h].phase.Loaded?
    case CheckChannel(h, _) => h < |s.handlers| && s.handlers[h].alive && s.handlers[h].phase.Claimed?
    case CallAdapter(h, _) => h < |s.handlers| && s.handlers[h].alive && s.handlers[h].phase.Ready?
    case WriteOutcome(h) =>
      h < |s.handlers| && s.handlers[h].alive && (s.handlers[h].phase.Answered? || s.handlers[h].phase.Inactive?)
    case CreateDeadLetter(h) => h < |s.handlers| && s.handlers[h].alive && s.handlers[h].phase.DeadLettering?
    case RecordEvent(h) => h < |s.handlers| && s.handlers[h].alive && s.handlers[h].phase.Recording?
    case PublishRetry(h) => h < |s.handlers| && s.handlers[h].alive && s.handlers[h].phase.Publishing?
    case Complete(h) =>
      && h < |s.handlers| && s.handlers[h].alive && s.handlers[h].phase.Done?
      && s.handlers[h].job < |s.jobs| && s.jobs[s.handlers[h].job].state == Active
    case GiveUp(j) => IsOpen(s, j)
    case Crash(h) => h < |s.handlers| && Live(s.handlers[h])
  }

  /** The queue may deliver an open job, also an active one again, at any moment,
      but never has more than `workers` handlers in flight. */
  predicate CanStep(s: State, step: Step, workers: nat) {
    InPhase(s, step) && (step.Deliver? ==> Count(s.handlers, Live) < workers)
  }

  function Move(s: State, h: nat, phase: Phase): State
    requires h < |s.handlers|
  {
    s.(handlers := s.handlers[h := s.handlers[h].(phase := phase)])
  }

  function SetRow(s: State, row: Row): State {
    s.(store := s.store.(row := row))
  }

  function Outcome(s: State, h: nat): State
    requires InPhase(s, WriteOutcome(h))
  {
    var row := s.store.row;
    match s.handlers[h].phase
    case Inactive => SetRow(Move(s, h, Recording(Failed, 0)), row.(status := Failed))
    case Answered(seen, result) =>
      if result.Accepted? then
        SetRow(Move(s, h, Recording(Sent, 0)), row.(status := Sent))
      else if WillRetry(result, seen, row.maxRetries) then
        SetRow(Move(s, h, Recording(Queued, CappedDelay(seen))),
               row.(status := Queued, retryCount := row.retryCount + 1))
      else
        SetRow(Move(s, h, DeadLettering), row.(status := Failed))
  }

  function Apply(s: State, step: Step): State
    requires InPhase(s, step)
  {
    var store := s.store;
    match step
    case Deliver(j) =>
      var phase := if AlreadySent(store.row.status) then Done else Loaded(store.row.retryCount);
      SetJob(s, j, Active).(handlers := s.handlers + [Handler(j, phase, true)])
    case Claim(h) =>
      if store.row.status == Queued then
        SetRow(Move(s, h, Claimed(s.handlers[h].phase.seen)), store.row.(status := Processing))
      else
        Move(s, h, Done)
    case CheckChannel(h, active) =>
      Move(s, h, if active then Ready(s.handlers[h].phase.seen) else Inactive)
    case CallAdapter(h, result) =>
      Move(s, h, Answered(s.handlers[h].phase.seen, result)).(store := store.(sends := store.sends + 1))
    case WriteOutcome(h) => Outcome(s, h)
    case CreateDeadLetter(h) =>
      Move(s, h, Recording(Failed, 0)).(store := store.(deadLetters := store.deadLetters + 1))
    case RecordEvent(h) =>
      var phase := s.handlers[h].phase;
      Move(s, h, if phase.status == Queued then Publishing(phase.delay) else Done)
        .(store := store.(events := store.events + [phase.status]))
    case PublishRetry(h) =>
      Move(s, h, Done).(jobs := if KeyTaken(s) then s.jobs else s.jobs + [Job(Waiting, s.handlers[h].phase.delay)])
    case Complete(h) => SetJob(s, s.handlers[h].job, Closed)
    case GiveUp(j) => SetJob(s, j, Closed)
    case Crash(h) => s.(handlers := s.handlers[h := s.handlers[h].(alive := false)])
  }

  // ----- runs -----

  predicate Valid(s: State, run: seq<Step>, workers: nat)
    decreases |run|
  {
    run == [] || (CanStep(s, run[0], workers) && Valid(Apply(s, run[0]), run[1..], workers))
  }

  function Exec(s: State, run: seq<Step>, workers: nat): State
    requires Valid(s, run, workers)
    decreases |run|
  {
    if run == [] then s else Exec(Apply(s, run[0]), run[1..], workers)
  }

  /** A freshly created message: queued, never retried, its job waiting. */
  function Start(maxRetries: nat): State {
    State(Store(Row(Queued, 0, maxRetries), 0, [], 0), [], [Job(Waiting, 0)])
  }

  /** What every reachable state satisfies. */
  ghost predicate Inv(s: State, workers: nat) {
    var row := s.store.row;
    && row.status in {Queued, Processing, Sent, Failed}
    && Count(s.handlers, Live) <= workers
    && Count(s.handlers, Holds) == One(row.status == Processing)
    && row.retryCount + Count(s.handlers, MayRequeue(row.maxRetries)) + 1
       <= (if row.maxRetries == 0 then 1 else row.maxRetries + workers)
    && s.store.sends == row.retryCount + One(row.status == Sent) + s.store.deadLetters
                        + Count(s.handlers, IsDeadLettering) + Count(s.handlers, HasAnswer)
    && Count(s.store.events, IsSentEvent) + Count(s.handlers, RecordsSent) == One(row.status == Sent)
    && Count(s.store.events, IsFailedEvent) + Count(s.handlers, RecordsFailed) + Count(s.handlers, IsDeadLettering)
       == One(row.status == Failed)
    && Count(s.store.events, IsQueuedEvent) + Count(s.handlers, RecordsQueued) == row.retryCount
    && s.store.deadLetters + Count(s.handlers, IsDeadLettering) <= One(row.status == Failed)
  }

  /** How replacing one handler changes all the counts at once. */
  lemma Replace(hs: seq<Handler>, i: nat, x: Handler, maxRetries: nat)
    requires i < |hs|
    ensures var hs' := hs[i := x];
            && Count(hs', Live) == Count(hs, Live) - One(Live(hs[i])) + One(Live(x))
            && Count(hs', Holds) == Count(hs, Holds) - One(Holds(hs[i])) + One(Holds(x))
            && Count(hs', MayRequeue(maxRetries))
               == Count(hs, MayRequeue(maxRetries)) - One(MayRequeue(maxRetries)(hs[i]))
                  + One(MayRequeue(maxRetries)(x))
            && Count(hs', HasAnswer) == Count(hs, HasAnswer) - One(HasAnswer(hs[i])) + One(HasAnswer(x))
            && Count(hs', IsDeadLettering)
               == Count(hs, IsDeadLettering) - One(IsDeadLettering(hs[i])) + One(IsDeadLettering(x))
            && Count(hs', RecordsSent) == Count(hs, RecordsSent) - One(RecordsSent(hs[i])) + One(RecordsSent(x))
            && Count(hs', RecordsFailed) == Count(hs, RecordsFailed) - One(RecordsFailed(hs[i])) + One(RecordsFailed(x))
            && Count(hs', RecordsQueued) == Count(hs, RecordsQueued) - One(RecordsQueued(hs[i])) + One(RecordsQueued(x))
  {
    CountUpdate(hs, i, x, Live);
    CountUpdate(hs, i, x, Holds);
    CountUpdate(hs, i, x, MayRequeue(maxRetries));
    CountUpdate(hs, i, x, HasAnswer);
    CountUpdate(hs, i, x, IsDeadLettering);
    CountUpdate(hs, i, x, RecordsSent);
    CountUpdate(hs, i, x, RecordsFailed);
    CountUpdate(hs, i, x, RecordsQueued);
  }

  lemma Arrive(hs: seq<Handler>, x: Handler, maxRetries: nat)
    requires x.phase.Loaded? || x.phase.Done?
    ensures var hs' := hs + [x];
            && Count(hs', Live) == Count(hs, Live) + One(Live(x))
            && Count(hs', Holds) == Count(hs, Holds)
            && Count(hs', MayRequeue(maxRetries)) == Count(hs, MayRequeue(maxRetries)) + One(MayRequeue(maxRetries)(x))
            && Count(hs', HasAnswer) == Count(hs, HasAnswer)
            && Count(hs', IsDeadLettering) == Count(hs, IsDeadLettering)
            && Count(hs', RecordsSent) == Count(hs, RecordsSent)
            && Count(hs', RecordsFailed) == Count(hs, RecordsFailed)
            && Count(hs', RecordsQueued) == Count(hs, RecordsQueued)
  {
    CountAppend(hs, x, Live);
    CountAppend(hs, x, Holds);
    CountAppend(hs, x, MayRequeue(maxRetries));
    CountAppend(hs, x, HasAnswer);
    CountAppend(hs, x, IsDeadLettering);
    CountAppend(hs, x, RecordsSent);
    CountAppend(hs, x, RecordsFailed);
    CountAppend(hs, x, RecordsQueued);
  }

  lemma AppendEvent(events: seq<MessageStatus>, e: MessageStatus)
    ensures Count(events + [e], IsSentEvent) == Count(events, IsSentEvent) + One(e == Sent)
    ensures Count(events + [e], IsFailedEvent) == Count(events, IsFailedEvent) + One(e == Failed)
    ensures Count(events + [e], IsQueuedEvent) == Count(events, IsQueuedEvent) + One(e == Queued)
  {
    CountAppend(events, e, IsSentEvent);
    CountAppend(events, e, IsFailedEvent);
    CountAppend(events, e, IsQueuedEvent);
  }

  lemma MayRequeueWithinLive(hs: seq<Handler>, maxRetries: nat)
    ensures Count(hs, MayRequeue(maxRetries)) <= Count(hs, Live)
  {
    CountImplies(hs, MayRequeue(maxRetries), Live);
  }

  lemma InvStart(maxRetries: nat, workers: nat)
    requires workers >= 1
    ensures Inv(Start(maxRetries), workers)
  {
  }

  lemma InvDeliver(s: State, j: nat, workers: nat)
    requires Inv(s, workers) && CanStep(s, Deliver(j), workers)
    ensures Inv(Apply(s, Deliver(j)), workers)
  {
    hide Count;
    var t := Apply(s, Deliver(j));
    var m := s.store.row.maxRetries;
    Arrive(s.handlers, t.handlers[|s.handlers|], m);
    MayRequeueWithinLive(t.handlers, m);
  }

  lemma InvClaim(s: State, h: nat, workers: nat)
    requires Inv(s, workers) && InPhase(s, Claim(h))
    ensures Inv(Apply(s, Claim(h)), workers)
  {
    hide Count;
    Replace(s.handlers, h, Apply(s, Claim(h)).handlers[h], s.store.row.maxRetries);
  }

  /** A handler about to write its outcome is the only one holding the row. */
  lemma InvOutcome(s: State, h: nat, workers: nat)
    requires Inv(s, workers) && InPhase(s, WriteOutcome(h))
    ensures Inv(Apply(s, WriteOutcome(h)), workers)
  {
    hide Count;
    CountPositive(s.handlers, h, Holds);
    Replace(s.handlers, h, Apply(s, WriteOutcome(h)).handlers[h], s.store.row.maxRetries);
  }

  lemma InvDeadLetter(s: State, h: nat, workers: nat)
    requires Inv(s, workers) && InPhase(s, CreateDeadLetter(h))
    ensures Inv(Apply(s, CreateDeadLetter(h)), workers)
  {
    hide Count;
    Replace(s.handlers, h, Apply(s, CreateDeadLetter(h)).handlers[h], s.store.row.maxRetries);
  }

  lemma InvRecord(s: State, h: nat, workers: nat)
    requires Inv(s, workers) && InPhase(s, RecordEvent(h))
    ensures Inv(Apply(s, RecordEvent(h)), workers)
  {
    hide Count;
    Replace(s.handlers, h, Apply(s, RecordEvent(h)).handlers[h], s.store.row.maxRetries);
    AppendEvent(s.store.events, s.handlers[h].phase.status);
  }

  lemma InvPublish(s: State, h: nat, workers: nat)
    requires Inv(s, workers) && InPhase(s, PublishRetry(h))
    ensures Inv(Apply(s, PublishRetry(h)), workers)
  {
    hide Count;
    Replace(s.handlers, h, Apply(s, PublishRetry(h)).handlers[h], s.store.row.maxRetries);
  }

  lemma InvBeforeOutcome(s: State, step: Step, workers: nat)
    requires Inv(s, workers) && InPhase(s, step)
    requires step.CheckChannel? || step.CallAdapter? || step.Crash?
    ensures Inv(Apply(s, step), workers)
  {
    hide Count;
    Replace(s.handlers, step.h, Apply(s, step).handlers[step.h], s.store.row.maxRetries);
  }

  lemma InvStep(s: State, step: Step, workers: nat)
    requires Inv(s, workers) && CanStep(s, step, workers)
    ensures Inv(Apply(s, step), workers)
  {
    match step
    case Deliver(j) => InvDeliver(s, j, workers);
    case Claim(h) => InvClaim(s, h, workers);
    case WriteOutcome(h) => InvOutcome(s, h, workers);
    case CreateDeadLetter(h) => InvDeadLetter(s, h, workers);
    case RecordEvent(h) => InvRecord(s, h, workers);
    case PublishRetry(h) => InvPublish(s, h, workers);
    case Complete(_) =>
    case GiveUp(_) =>
    case _ => InvBeforeOutcome(s, step, workers);
  }

  lemma {:induction false} InvRun(s: State, run: seq<Step>, workers: nat)
    requires Inv(s, workers) && Valid(s, run, workers)
    ensures Inv(Exec(s, run, workers), workers)
    decreases |run|
  {
    if run != [] {
      InvStep(s, run[0], workers);
      InvRun(Apply(s, run[0]), run[1..], workers);
    }
  }
}
