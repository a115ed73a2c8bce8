/** The WhatsApp send worker and the recovery cron acting on one message row.
    Every statement that touches the database or calls the API is one atomic
    step. After the claim all writes are unconditional, so a slow worker or a
    slow recovery pass may overwrite what others wrote meanwhile. */
module WhatsAppSend {
  import opened Prelude
  import opened Counting
  import opened WhatsAppJobs

  datatype Row = Row(status: MessageStatus, retryCount: nat, maxRetries: nat, sentId: bool)

  /** The row and what happened to it so far. `overwrites` counts writes that hit
      the row while it was QUEUED; `barred` counts claims given up before the API
      call because the session was down or the payload missing; `jobs` are those
      published. */
  datatype Store = Store(
    row: Row, claims: nat, calls: nat, throttles: nat, barred: nat, retries: nat, recoveries: nat,
    failures: nat, deadLetters: nat, overwrites: nat, jobs: set<Job>)

  /** Where a send handler or a recovery pass is; `seen` is the retryCount it read. */
  datatype Phase =
    | Loaded(seen: nat)
    | Claimed(seen: nat)
    | Allowed(seen: nat)
    | Ready(seen: nat)
    | Throttled
    | Accepted(seen: nat)
    | Recorded(seen: nat)
    | Failing(seen: nat, retryable: bool, recorded: bool)
    | Swept(seen: nat)
    | DeadLettering
    | Publishing(job: Job)
    | Done

  datatype Actor = Actor(phase: Phase, alive: bool)

  datatype State = State(store: Store, actors: seq<Actor>)

  datatype Step =
    | Deliver
    | Claim(a: nat)
    | CheckLimit(a: nat, allowed: bool)
    | Throttle(a: nat)
    | CheckSession(a: nat, connected: bool)
    | MissPayload(a: nat)
    | CallApi(a: nat, accepted: bool, retryable: bool)
    | RecordId(a: nat)
    | Throw(a: nat, retryable: bool)
    | Finish(a: nat)
    | HandleFailure(a: nat)
    | Sweep
    | Recover(a: nat)
    | CreateDeadLetter(a: nat)
    | Publish(a: nat)
    | Crash(a: nat)

  // ----- phases of an actor -----

  predicate Live(x: Actor) { x.alive && x.phase != Done }

  /** Claimed, API not called, not given up. */
  predicate BeforeCall(x: Actor) {
    x.phase.Claimed? || x.phase.Allowed? || x.phase.Ready? || x.phase.Throttled?
  }

  predicate IsDeadLettering(x: Actor) { x.phase.DeadLettering? }

  /** A live handler that claimed the row and has written nothing since. */
  predicate OwnsUnwritten(x: Actor) {
    && x.alive
    && (BeforeCall(x) || x.phase.Accepted? || (x.phase.Failing? && !x.phase.recorded))
  }

  /** A live handler that stored the provider's id and may still write on an error. */
  predicate OwnsRecorded(x: Actor) {
    x.alive && (x.phase.Recorded? || (x.phase.Failing? && x.phase.recorded))
  }

  /** A live actor whose snapshot still allows it to raise the retry count. */
  function MayRequeue(maxRetries: nat): Actor -> bool {
    (x: Actor) =>
      x.alive && match x.phase
      case Loaded(seen) => seen < maxRetries
      case Claimed(seen) => seen < maxRetries
      case Allowed(seen) => seen < maxRetries
      case Ready(seen) => seen < maxRetries
      case Accepted(seen) => seen < maxRetries
      case Recorded(seen) => seen < maxRetries
      case Failing(seen, _, _) => seen < maxRetries
      case Swept(seen) => seen < maxRetries
      case _ => false
  }

  // ----- transitions -----

  predicate At(s: State, a: nat) { a < |s.actors| && s.actors[a].alive }

  predicate InPhase(s: State, step: Step) {
    match step
    case Deliver => true
    case Claim(a) => At(s, a) && s.actors[a].phase.Loaded?
    case CheckLimit(a, _) => At(s, a) && s.actors[a].phase.Claimed?
    case Throttle(a) => At(s, a) && s.actors[a].phase.Throttled?
    case CheckSession(a, _) => At(s, a) && s.actors[a].phase.Allowed?
    case MissPayload(a) => At(s, a) && s.actors[a].phase.Ready?
    case CallApi(a, _, _) => At(s, a) && s.actors[a].phase.Ready?
    case RecordId(a) => At(s, a) && s.actors[a].phase.Accepted?
    case Throw(a, _) => At(s, a) && (s.actors[a].phase.Accepted? || s.actors[a].phase.Recorded?)
    case Finish(a) => At(s, a) && s.actors[a].phase.Recorded?
    case HandleFailure(a) => At(s, a) && s.actors[a].phase.Failing?
    case Sweep => s.store.row.status == Processing
    case Recover(a) => At(s, a) && s.actors[a].phase.Swept?
    case CreateDeadLetter(a) => At(s, a) && s.actors[a].phase.DeadLettering?
    case Publish(a) => At(s, a) && s.actors[a].phase.Publishing?
    case Crash(a) => At(s, a) && Live(s.actors[a])
  }

  predicate CanStep(s: State, step: Step, limit: nat) {
    InPhase(s, step) && (step.Deliver? || step.Sweep? ==> Count(s.actors, Live) < limit)
  }

  function Move(s: State, a: nat, phase: Phase): State
    requires a < |s.actors|
  {
    s.(actors := s.actors[a := s.actors[a].(phase := phase)])
  }

  /** An unconditional write of the row. */
  function Write(store: Store, row: Row): Store {
    store.(row := row, overwrites := store.overwrites + One(store.row.status == Queued))
  }

  /** markForRetry, and markFailed, which raises the retry count too. */
  function MarkForRetry(row: Row): Row { row.(status := Queued, retryCount := row.retryCount + 1) }

  function MarkFailed(row: Row): Row { row.(status := Failed, retryCount := row.retryCount + 1) }

  function FailureEffect(s: State, a: nat, retry: bool, job: Job): State
    requires a < |s.actors|
  {
    var row := s.store.row;
    if retry then
      var written := Write(s.store, MarkForRetry(row));
      var counted := if job == Recovered then written.(recoveries := written.recoveries + 1)
                     else written.(retries := written.retries + 1);
      Move(s, a, Publishing(job)).(store := counted)
    else
      var written := Write(s.store, MarkFailed(row));
      Move(s, a, DeadLettering).(store := written.(failures := written.failures + 1))
  }

  function Apply(s: State, step: Step): State
    requires InPhase(s, step)
  {
    var store := s.store;
    var row := store.row;
    match step
    case Deliver =>
      var phase := if AlreadySent(row.status) || row.sentId then Done else Loaded(row.retryCount);
      s.(actors := s.actors + [Actor(phase, true)])
    case Claim(a) =>
      if row.status == Queued then
        Move(s, a, Claimed(s.actors[a].phase.seen))
          .(store := store.(row := row.(status := Processing), claims := store.claims + 1))
      else
        Move(s, a, Done)
    case CheckLimit(a, allowed) =>
      Move(s, a, if allowed then Allowed(s.actors[a].phase.seen) else Throttled)
    case Throttle(a) =>
      var written := Write(store, row.(status := Queued));
      Move(s, a, Publishing(Delayed)).(store := written.(throttles := written.throttles + 1))
    case CheckSession(a, connected) =>
      var seen := s.actors[a].phase.seen;
      if connected then Move(s, a, Ready(seen))
      else Move(s, a, Failing(seen, false, false)).(store := store.(barred := store.barred + 1))
    case MissPayload(a) =>
      Move(s, a, Failing(s.actors[a].phase.seen, false, false)).(store := store.(barred := store.barred + 1))
    case CallApi(a, accepted, retryable) =>
      var seen := s.actors[a].phase.seen;
      Move(s, a, if accepted then Accepted(seen) else Failing(seen, retryable, false))
        .(store := store.(calls := store.calls + 1))
    case RecordId(a) =>
      Move(s, a, Recorded(s.actors[a].phase.seen)).(store := Write(store, row.(status := Sent, sentId := true)))
    case Throw(a, retryable) =>
      var phase := s.actors[a].phase;
      Move(s, a, Failing(phase.seen, retryable, phase.Recorded?))
    case Finish(a) => Move(s, a, Done)
    case HandleFailure(a) =>
      var phase := s.actors[a].phase;
      FailureEffect(s, a, phase.retryable && phase.seen < row.maxRetries, Retry(phase.seen + 1))
    case Sweep => s.(actors := s.actors + [Actor(Swept(row.retryCount), true)])
    case Recover(a) => FailureEffect(s, a, s.actors[a].phase.seen < row.maxRetries, Recovered)
    case CreateDeadLetter(a) => Move(s, a, Done).(store := store.(deadLetters := store.deadLetters + 1))
    case Publish(a) => Move(s, a, Done).(store := store.(jobs := store.jobs + {s.actors[a].phase.job}))
    case Crash(a) => s.(actors := s.actors[a := s.actors[a].(alive := false)])
  }

  // ----- runs -----

  predicate Valid(s: State, run: seq<Step>, limit: nat)
    decreases |run|
  {
    run == [] || (CanStep(s, run[0], limit) && Valid(Apply(s, run[0]), run[1..], limit))
  }

  function Exec(s: State, run: seq<Step>, limit: nat): State
    requires Valid(s, run, limit)
    decreases |run|
  {
    if run == [] then s else Exec(Apply(s, run[0]), run[1..], limit)
  }

  function Start(maxRetries: nat): State {
    State(Store(Row(Queued, 0, maxRetries, false), 0, 0, 0, 0, 0, 0, 0, 0, 0, {First}), [])
  }

  lemma Prepend(s: State, step: Step, rest: seq<Step>, limit: nat)
    requires CanStep(s, step, limit) && Valid(Apply(s, step), rest, limit)
    ensures Valid(s, [step] + rest, limit)
    ensures Exec(s, [step] + rest, limit) == Exec(Apply(s, step), rest, limit)
  {
    assert ([step] + rest)[1..] == rest;
  }

  lemma {:induction false} Extend(s: State, run: seq<Step>, step: Step, limit: nat)
    requires Valid(s, run, limit) && CanStep(Exec(s, run, limit), step, limit)
    ensures Valid(s, run + [step], limit)
    ensures Exec(s, run + [step], limit) == Apply(Exec(s, run, limit), step)
    decreases |run|
  {
    if run == [] {
      assert run + [step] == [step];
    } else {
      assert (run + [step])[0] == run[0] && (run + [step])[1..] == run[1..] + [step];
      Extend(Apply(s, run[0]), run[1..], step, limit);
    }
  }

  // ----- conservation -----

  /** The books every reachable state keeps. */
  ghost predicate Books(s: State, limit: nat) {
    var t := s.store;
    && t.claims + One(t.row.status == Queued) + t.overwrites == 1 + t.throttles + t.retries + t.recoveries
    && t.claims == t.calls + t.throttles + t.barred + Count(s.actors, BeforeCall)
    && t.row.retryCount == t.retries + t.recoveries + t.failures
    && t.failures == t.deadLetters + Count(s.actors, IsDeadLettering)
    && Count(s.actors, Live) <= limit
    && t.retries + t.recoveries + Count(s.actors, MayRequeue(t.row.maxRetries)) + 1
       <= (if t.row.maxRetries == 0 then 1 else t.row.maxRetries + limit)
  }

  lemma Replace(xs: seq<Actor>, i: nat, x: Actor, maxRetries: nat)
    requires i < |xs|
    ensures var ys := xs[i := x];
            && Count(ys, Live) == Count(xs, Live) - One(Live(xs[i])) + One(Live(x))
            && Count(ys, BeforeCall) == Count(xs, BeforeCall) - One(BeforeCall(xs[i])) + One(BeforeCall(x))
            && Count(ys, IsDeadLettering)
               == Count(xs, IsDeadLettering) - One(IsDeadLettering(xs[i])) + One(IsDeadLettering(x))
            && Count(ys, MayRequeue(maxRetries))
               == Count(xs, MayRequeue(maxRetries)) - One(MayRequeue(maxRetries)(xs[i]))
                  + One(MayRequeue(maxRetries)(x))
  {
    CountUpdate(xs, i, x, Live);
    CountUpdate(xs, i, x, BeforeCall);
    CountUpdate(xs, i, x, IsDeadLettering);
    CountUpdate(xs, i, x, MayRequeue(maxRetries));
  }

  lemma BooksArrive(s: State, step: Step, limit: nat)
    requires Books(s, limit) && CanStep(s, step, limit) && (step.Deliver? || step.Sweep?)
    ensures Books(Apply(s, step), limit)
  {
    hide Count;
    var x := Apply(s, step).actors[|s.actors|];
    var m := s.store.row.maxRetries;
    CountAppend(s.actors, x, Live);
    CountAppend(s.actors, x, BeforeCall);
    CountAppend(s.actors, x, IsDeadLettering);
    CountAppend(s.actors, x, MayRequeue(m));
    CountImplies(Apply(s, step).actors, MayRequeue(m), Live);
  }

  lemma BooksFailure(s: State, step: Step, limit: nat)
    requires Books(s, limit) && InPhase(s, step) && (step.HandleFailure? || step.Recover?)
    ensures Books(Apply(s, step), limit)
  {
    hide Count;
    Replace(s.actors, step.a, Apply(s, step).actors[step.a], s.store.row.maxRetries);
  }

  lemma BooksWrite(s: State, step: Step, limit: nat)
    requires Books(s, limit) && InPhase(s, step) && (step.Throttle? || step.RecordId?)
    ensures Books(Apply(s, step), limit)
  {
    hide Count;
    Replace(s.actors, step.a, Apply(s, step).actors[step.a], s.store.row.maxRetries);
  }

  lemma BooksClaim(s: State, a: nat, limit: nat)
    requires Books(s, limit) && InPhase(s, Claim(a))
    ensures Books(Apply(s, Claim(a)), limit)
  {
    hide Count;
    Replace(s.actors, a, Apply(s, Claim(a)).actors[a], s.store.row.maxRetries);
  }

  lemma BooksBeforeCall(s: State, step: Step, limit: nat)
    requires Books(s, limit) && InPhase(s, step)
    requires step.CheckLimit? || step.CheckSession? || step.MissPayload? || step.CallApi?
    ensures Books(Apply(s, step), limit)
  {
    hide Count;
    Replace(s.actors, step.a, Apply(s, step).actors[step.a], s.store.row.maxRetries);
  }

  lemma BooksAfterCall(s: State, step: Step, limit: nat)
    requires Books(s, limit) && InPhase(s, step)
    requires step.Throw? || step.Finish? || step.CreateDeadLetter? || step.Publish? || step.Crash?
    ensures Books(Apply(s, step), limit)
  {
    hide Count;
    Replace(s.actors, step.a, Apply(s, step).actors[step.a], s.store.row.maxRetries);
  }

  lemma BooksStep(s: State, step: Step, limit: nat)
    requires Books(s, limit) && CanStep(s, step, limit)
    ensures Books(Apply(s, step), limit)
  {
    if step.Deliver? || step.Sweep? {
      BooksArrive(s, step, limit);
    } else if step.Claim? {
      BooksClaim(s, step.a, limit);
    } else if step.Throttle? || step.RecordId? {
      BooksWrite(s, step, limit);
    } else if step.HandleFailure? || step.Recover? {
      BooksFailure(s, step, limit);
    } else if step.Throw? || step.Finish? || step.CreateDeadLetter? || step.Publish? || step.Crash? {
      BooksAfterCall(s, step, limit);
    } else {
      BooksBeforeCall(s, step, limit);
    }
  }

  lemma {:induction false} BooksRun(s: State, run: seq<Step>, limit: nat)
    requires Books(s, limit) && Valid(s, run, limit)
    ensures Books(Exec(s, run, limit), limit)
    ensures Exec(s, run, limit).store.row.maxRetries == s.store.row.maxRetries
    decreases |run|
  {
    if run != [] {
      BooksStep(s, run[0], limit);
      BooksRun(Apply(s, run[0]), run[1..], limit);
    }
  }

  /** Conservation, for every interleaving of handlers and recovery passes: each
      entry into QUEUED (the first one, a throttling, a retry, a recovery) is
      claimed once, overwritten, or still there; each claim is an API call, a
      throttling, given up, or still before its call. Throttlings cancel, so
      there are never more calls than one plus the retries and recoveries, nor
      more than the retry count plus one. */
  lemma Conservation(maxRetries: nat, limit: nat, run: seq<Step>)
    requires limit >= 1 && Valid(Start(maxRetries), run, limit)
    ensures var s := Exec(Start(maxRetries), run, limit);
            var t := s.store;
            && t.claims + One(t.row.status == Queued) + t.overwrites == 1 + t.throttles + t.retries + t.recoveries
            && t.calls + t.barred + Count(s.actors, BeforeCall) + One(t.row.status == Queued) + t.overwrites
               == 1 + t.retries + t.recoveries
            && t.calls <= 1 + t.row.retryCount - t.failures
            && t.deadLetters <= t.failures
  {
    BooksRun(Start(maxRetries), run, limit);
  }

  /** Even with unconditional writes by slow workers and premature recoveries the
      API is called at most maxRetries + limit times, where limit bounds the
      handlers and recovery passes in flight together. */
  lemma CallBound(maxRetries: nat, limit: nat, run: seq<Step>)
    requires limit >= 1 && Valid(Start(maxRetries), run, limit)
    ensures Exec(Start(maxRetries), run, limit).store.calls <= if maxRetries == 0 then 1 else maxRetries + limit
  {
    BooksRun(Start(maxRetries), run, limit);
  }
}
