/** A running campaign: batch workers turning PENDING recipients into queued
    messages, event handlers following those messages to completion, and executors
    that find nothing left to dispatch. Every statement is one atomic step; workers
    may throw or die after any statement, and runs of different batches interleave
    with each other and with any number of event handlers and executors. */
module CampaignRun {
  import opened Prelude
  import opened Counting

  datatype RecipientStatus = Pending | Enqueued | SentOn | DeliveredOn | FailedOn | Skipped

  datatype Recipient = Recipient(batch: nat, contact: nat, status: RecipientStatus, message: Option<nat>)

  datatype CampaignStatus = Draft | Scheduled | Running | Paused | Completed | Failed | Cancelled

  /** A batch worker between its statements; `todo` are the recipients it loaded
      and has not finished, the first being the current one. */
  datatype WorkerPhase =
    | Opened
    | Picking
    | Skipping
    | ContactOk
    | NoMessage
    | Existing(m: nat)
    | Created(m: nat)
    | Linked(m: nat)
    | Published(m: nat)
    | Caught
    | Tallying
    | Finished

  datatype Worker = Worker(batch: nat, phase: WorkerPhase, todo: seq<nat>, alive: bool)

  datatype EventKind = SentEvent | DeliveredEvent | ReadEvent | FailedEvent(exhausted: bool) | DeadLetterEvent

  /** An event handler between its statements. */
  datatype Check =
    | Updating(r: nat, kind: EventKind, seen: RecipientStatus)
    | Reading
    | CountingLeft
    | Completing
    | Emitting
    | Idle

  /** An executor that found the campaign running, between its statements. */
  datatype Executor = Looking | Writing | Announcing | Announced | Dispatching

  /** messages[m] is the contact that message m, in this campaign, is for;
      `transitions` counts the event handlers' successful completions, `emitted`
      everybody's announcements. */
  datatype State = State(
    recipients: seq<Recipient>, status: CampaignStatus, messages: seq<nat>, jobs: set<nat>, failedCount: nat,
    workers: seq<Worker>, checks: seq<Check>, executors: seq<Executor>, transitions: nat, emitted: nat)

  datatype Step =
    | OpenBatch(batch: nat)
    | LoadPending(w: nat)
    | CheckContact(w: nat, valid: bool)
    | WriteSkipped(w: nat)
    | FindMessage(w: nat)
    | LinkExisting(w: nat)
    | CreateMessage(w: nat)
    | LinkCreated(w: nat)
    | Publish(w: nat)
    | UpdateConversation(w: nat)
    | Throw(w: nat)
    | WriteFailed(w: nat)
    | TallyFailed(w: nat)
    | Finish(w: nat)
    | Crash(w: nat)
    | Arrive(r: nat, kind: EventKind)
    | UpdateRecipient(c: nat)
    | ReadCampaign(c: nat)
    | CountLeft(c: nat)
    | CompareAndComplete(c: nat)
    | EmitCompleted(c: nat)
    | StartExecutor
    | LookForPending(x: nat)
    | WriteBlindly(x: nat)
    | AnnounceBlindly(x: nat)

  predicate IsActive(r: Recipient) { r.status == Pending || r.status == Enqueued }

  predicate IsPending(r: Recipient) { r.status == Pending }

  function Active(s: State): nat { Count(s.recipients, IsActive) }

  predicate Busy(w: Worker) { w.alive && w.phase != Finished }

  predicate InTry(w: Worker) {
    w.todo != [] && match w.phase
    case Opened => false
    case Caught => false
    case Tallying => false
    case Finished => false
    case _ => true
  }

  /** The positions of the recipients findPendingByBatch returns. */
  function PendingIn(recipients: seq<Recipient>, batch: nat): (todo: seq<nat>)
    ensures forall k :: 0 <= k < |todo| ==>
              todo[k] < |recipients| && recipients[todo[k]].batch == batch && recipients[todo[k]].status == Pending
    ensures forall j, k :: 0 <= j < k < |todo| ==> todo[j] < todo[k]
    ensures forall r: nat :: r < |recipients| && recipients[r].batch == batch && recipients[r].status == Pending ==>
              r in todo
  {
    if recipients == [] then []
    else
      var n := |recipients| - 1;
      var before := PendingIn(recipients[..n], batch);
      if recipients[n].batch == batch && recipients[n].status == Pending then before + [n] else before
  }

  lemma {:induction false} NobodyPending(recipients: seq<Recipient>, batch: nat)
    requires forall r :: 0 <= r < |recipients| && recipients[r].batch == batch ==> recipients[r].status != Pending
    ensures PendingIn(recipients, batch) == []
  {
    if recipients != [] {
      NobodyPending(recipients[..|recipients| - 1], batch);
    }
  }

  function MessageFor(messages: seq<nat>, contact: nat): (m: Option<nat>)
    ensures m.Some? ==> m.value < |messages| && messages[m.value] == contact
    ensures m.None? ==> contact !in messages
  {
    if messages == [] then None
    else if messages[|messages| - 1] == contact then Some(|messages| - 1)
    else MessageFor(messages[..|messages| - 1], contact)
  }

  // ----- transitions -----

  predicate Ready(s: State, w: nat) { w < |s.workers| && s.workers[w].alive }

  /** The worker has a current recipient. */
  predicate HasCurrent(s: State, w: nat) {
    Ready(s, w) && s.workers[w].todo != [] && s.workers[w].todo[0] < |s.recipients|
  }

  predicate CanStep(s: State, step: Step) {
    match step
    case OpenBatch(batch) =>
      && s.status == Running
      && forall i :: 0 <= i < |s.workers| && Busy(s.workers[i]) ==> s.workers[i].batch != batch
    case LoadPending(w) => Ready(s, w) && s.workers[w].phase == Opened
    case CheckContact(w, _) => HasCurrent(s, w) && s.workers[w].phase == Picking
    case WriteSkipped(w) => HasCurrent(s, w) && s.workers[w].phase == Skipping
    case FindMessage(w) => HasCurrent(s, w) && s.workers[w].phase == ContactOk
    case LinkExisting(w) => HasCurrent(s, w) && s.workers[w].phase.Existing?
    case CreateMessage(w) => HasCurrent(s, w) && s.workers[w].phase == NoMessage
    case LinkCreated(w) => HasCurrent(s, w) && s.workers[w].phase.Created?
    case Publish(w) => HasCurrent(s, w) && s.workers[w].phase.Linked?
    case UpdateConversation(w) => HasCurrent(s, w) && s.workers[w].phase.Published?
    case Throw(w) => HasCurrent(s, w) && InTry(s.workers[w])
    case WriteFailed(w) => HasCurrent(s, w) && s.workers[w].phase == Caught
    case TallyFailed(w) => HasCurrent(s, w) && s.workers[w].phase == Tallying
    case Finish(w) => Ready(s, w) && s.workers[w].phase == Picking && s.workers[w].todo == []
    case Crash(w) => Ready(s, w) && s.workers[w].phase != Finished
    case Arrive(r, _) => r < |s.recipients| && s.recipients[r].message.Some?
    case UpdateRecipient(c) => c < |s.checks| && s.checks[c].Updating? && s.checks[c].r < |s.recipients|
    case ReadCampaign(c) => c < |s.checks| && s.checks[c].Reading?
    case CountLeft(c) => c < |s.checks| && s.checks[c].CountingLeft?
    case CompareAndComplete(c) => c < |s.checks| && s.checks[c].Completing?
    case EmitCompleted(c) => c < |s.checks| && s.checks[c].Emitting?
    case StartExecutor => s.status == Running
    case LookForPending(x) => x < |s.executors| && s.executors[x] == Looking
    case WriteBlindly(x) => x < |s.executors| && s.executors[x] == Writing
    case AnnounceBlindly(x) => x < |s.executors| && s.executors[x] == Announcing
  }

  function To(s: State, w: nat, phase: WorkerPhase): State
    requires w < |s.workers|
  {
    s.(workers := s.workers[w := s.workers[w].(phase := phase)])
  }

  /** On to the next recipient. */
  function Next(s: State, w: nat): State
    requires w < |s.workers| && s.workers[w].todo != []
  {
    s.(workers := s.workers[w := s.workers[w].(phase := Picking, todo := s.workers[w].todo[1..])])
  }

  function SetStatus(s: State, r: nat, status: RecipientStatus): State
    requires r < |s.recipients|
  {
    s.(recipients := s.recipients[r := s.recipients[r].(status := status)])
  }

  function Link(s: State, r: nat, m: nat): State
    requires r < |s.recipients|
  {
    s.(recipients := s.recipients[r := s.recipients[r].(status := Enqueued, message := Some(m))])
  }

  function SetCheck(s: State, c: nat, check: Check): State
    requires c < |s.checks|
  {
    s.(checks := s.checks[c := check])
  }

  /** The status an event writes, if any. */
  function Written(kind: EventKind, seen: RecipientStatus): Option<RecipientStatus> {
    match kind
    case SentEvent => Some(SentOn)
    case DeliveredEvent => Some(DeliveredOn)
    case ReadEvent => None
    case FailedEvent(exhausted) => if exhausted then Some(FailedOn) else None
    case DeadLetterEvent => if seen != FailedOn then Some(FailedOn) else None
  }

  function Apply(s: State, step: Step): State
    requires CanStep(s, step)
  {
    match step
    case OpenBatch(batch) => s.(workers := s.workers + [Worker(batch, Opened, [], true)])
    case LoadPending(w) =>
      var todo := PendingIn(s.recipients, s.workers[w].batch);
      s.(workers := s.workers[w := s.workers[w].(phase := Picking, todo := todo)])
    case CheckContact(w, valid) => To(s, w, if valid then ContactOk else Skipping)
    case WriteSkipped(w) => Next(SetStatus(s, s.workers[w].todo[0], Skipped), w)
    case FindMessage(w) =>
      var found := MessageFor(s.messages, s.recipients[s.workers[w].todo[0]].contact);
      To(s, w, if found.Some? then Existing(found.value) else NoMessage)
    case LinkExisting(w) => Next(Link(s, s.workers[w].todo[0], s.workers[w].phase.m), w)
    case CreateMessage(w) =>
      var contact := s.recipients[s.workers[w].todo[0]].contact;
      if contact in s.messages then To(s, w, Caught)
      else To(s, w, Created(|s.messages|)).(messages := s.messages + [contact])
    case LinkCreated(w) =>
      var m := s.workers[w].phase.m;
      To(Link(s, s.workers[w].todo[0], m), w, Linked(m))
    case Publish(w) =>
      var m := s.workers[w].phase.m;
      To(s, w, Published(m)).(jobs := s.jobs + {m})
    case UpdateConversation(w) => Next(s, w)
    case Throw(w) => To(s, w, Caught)
    case WriteFailed(w) => To(SetStatus(s, s.workers[w].todo[0], FailedOn), w, Tallying)
    case TallyFailed(w) => Next(s, w).(failedCount := s.failedCount + 1)
    case Finish(w) => To(s, w, Finished)
    case Crash(w) => s.(workers := s.workers[w := s.workers[w].(alive := false)])
    case Arrive(r, kind) => s.(checks := s.checks + [Updating(r, kind, s.recipients[r].status)])
    case UpdateRecipient(c) =>
      var check := s.checks[c];
      var written := Written(check.kind, check.seen);
      var next := if check.kind == FailedEvent(false) then Idle else Reading;
      SetCheck(if written.Some? then SetStatus(s, check.r, written.value) else s, c, next)
    case ReadCampaign(c) => SetCheck(s, c, if s.status == Running then CountingLeft else Idle)
    case CountLeft(c) => SetCheck(s, c, if Active(s) == 0 then Completing else Idle)
    case CompareAndComplete(c) =>
      if s.status == Running then
        SetCheck(s, c, Emitting).(status := Completed, transitions := s.transitions + 1)
      else SetCheck(s, c, Idle)
    case EmitCompleted(c) => SetCheck(s, c, Idle).(emitted := s.emitted + 1)
    case StartExecutor => s.(executors := s.executors + [Looking])
    case LookForPending(x) =>
      var done := s.recipients != [] && Count(s.recipients, IsPending) == 0;
      s.(executors := s.executors[x := if done then Writing else Dispatching])
    case WriteBlindly(x) =>
      s.(executors := s.executors[x := Announcing], status := if s.status == Running then Completed else s.status)
    case AnnounceBlindly(x) => s.(executors := s.executors[x := Announced], emitted := s.emitted + 1)
  }

  predicate Valid(s: State, run: seq<Step>)
    decreases |run|
  {
    run == [] || (CanStep(s, run[0]) && Valid(Apply(s, run[0]), run[1..]))
  }

  function Exec(s: State, run: seq<Step>): State
    requires Valid(s, run)
    decreases |run|
  {
    if run == [] then s else Exec(Apply(s, run[0]), run[1..])
  }

  // ----- invariants -----

  /** One recipient per contact, and a link only ever to the contact's message. */
  ghost predicate LinksOk(recipients: seq<Recipient>, messages: seq<nat>) {
    && (forall i, j :: 0 <= i < j < |recipients| ==> recipients[i].contact != recipients[j].contact)
    && (forall i, j :: 0 <= i < j < |messages| ==> messages[i] != messages[j])
    && (forall r :: 0 <= r < |recipients| && recipients[r].message.Some? ==>
          && recipients[r].status != Pending
          && recipients[r].message.value < |messages|
          && messages[recipients[r].message.value] == recipients[r].contact)
  }

  predicate IsLinked(recipients: seq<Recipient>, m: nat) {
    exists r :: 0 <= r < |recipients| && recipients[r].message == Some(m)
  }

  /** Every published send job is for a message linked to its recipient. */
  ghost predicate JobsLinked(s: State) {
    forall m :: m in s.jobs ==> IsLinked(s.recipients, m)
  }

  predicate CurrentPending(phase: WorkerPhase) {
    match phase
    case Picking => true
    case Skipping => true
    case ContactOk => true
    case NoMessage => true
    case Existing(_) => true
    case Created(_) => true
    case _ => false
  }

  /** What a worker that has loaded its batch knows: its list is duplicate-free,
      within the batch, covers the batch's PENDING recipients, and everything on
      it after the current recipient is still PENDING. */
  ghost predicate TodoOk(recipients: seq<Recipient>, w: Worker) {
    && (forall k :: 0 <= k < |w.todo| ==> w.todo[k] < |recipients| && recipients[w.todo[k]].batch == w.batch)
    && (forall j, k :: 0 <= j < k < |w.todo| ==> w.todo[j] != w.todo[k])
    && (forall k :: 1 <= k < |w.todo| ==> recipients[w.todo[k]].status == Pending)
    && (w.todo != [] && CurrentPending(w.phase) ==> recipients[w.todo[0]].status == Pending)
    && (forall r: nat :: r < |recipients| && recipients[r].batch == w.batch && recipients[r].status == Pending
          ==> r in w.todo)
  }

  ghost predicate PhaseOk(recipients: seq<Recipient>, messages: seq<nat>, w: Worker)
    requires forall k :: 0 <= k < |w.todo| ==> w.todo[k] < |recipients|
  {
    match w.phase
    case Existing(m) => w.todo != [] && m < |messages| && messages[m] == recipients[w.todo[0]].contact
    case Created(m) => w.todo != [] && m < |messages| && messages[m] == recipients[w.todo[0]].contact
    case Linked(m) => w.todo != [] && recipients[w.todo[0]].message == Some(m)
    case Published(m) => w.todo != [] && recipients[w.todo[0]].message == Some(m)
    case Tallying => w.todo != [] && recipients[w.todo[0]].status != Pending
    case Picking => true
    case Finished => w.todo == []
    case _ => w.todo != []
  }

  ghost predicate WorkerOk(recipients: seq<Recipient>, messages: seq<nat>, w: Worker) {
    w.alive && w.phase != Opened ==> TodoOk(recipients, w) && PhaseOk(recipients, messages, w)
  }

  ghost predicate WorkersOk(s: State) {
    && (forall i :: 0 <= i < |s.workers| ==> WorkerOk(s.recipients, s.messages, s.workers[i]))
    && (forall i, j :: 0 <= i < j < |s.workers| && Busy(s.workers[i]) && Busy(s.workers[j])
          ==> s.workers[i].batch != s.workers[j].batch)
  }

  predicate IsEmitting(c: Check) { c.Emitting? }

  /** Handlers only ever hold recipients found through a linked message. */
  ghost predicate EventsOk(s: State) {
    forall c :: 0 <= c < |s.checks| && s.checks[c].Updating? ==>
      s.checks[c].r < |s.recipients| && s.recipients[s.checks[c].r].message.Some?
  }

  ghost predicate Inv(s: State) {
    LinksOk(s.recipients, s.messages) && JobsLinked(s) && WorkersOk(s) && EventsOk(s)
  }

  predicate IsAnnounced(x: Executor) { x == Announced }

  predicate HasWritten(x: Executor) { x == Announcing || x == Announced }

  predicate IsEnqueued(r: Recipient) { r.status == Enqueued }

  /** A handler that counted nobody left, and an executor that saw nobody PENDING,
      are still right; a handler completes at most once, with nobody left; handlers
      announce their completion, executors every write. */
  ghost predicate CompletionOk(s: State) {
    && (forall c :: 0 <= c < |s.checks| && s.checks[c].Completing? ==> Active(s) == 0)
    && (forall x :: 0 <= x < |s.executors| && s.executors[x] == Writing ==> Count(s.recipients, IsPending) == 0)
    && (s.transitions > 0 ==> Active(s) == 0)
    && s.emitted + Count(s.checks, IsEmitting) == s.transitions + Count(s.executors, IsAnnounced)
    && s.transitions <= One(s.status == Completed) <= s.transitions + Count(s.executors, HasWritten)
  }

  /** Recipients created, nothing sent yet. */
  ghost predicate Fresh(s: State) {
    && (forall i, j :: 0 <= i < j < |s.recipients| ==> s.recipients[i].contact != s.recipients[j].contact)
    && (forall r :: 0 <= r < |s.recipients| ==> s.recipients[r].status == Pending && s.recipients[r].message.None?)
    && s.messages == [] && s.jobs == {} && s.failedCount == 0 && s.workers == [] && s.checks == [] && s.executors == []
    && s.transitions == 0 && s.emitted == 0 && s.status != Completed
  }
}
