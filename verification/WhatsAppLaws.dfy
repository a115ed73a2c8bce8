/** What decides over every run of the WhatsApp worker: the limiter, the session and
    the API's answers. */
module WhatsAppLaws {
  import opened Prelude
  import opened Counting
  import opened WhatsAppJobs
  import opened WhatsAppSend

  // The steps that bring an answer.

  predicate LimitAllows(step: Step) { step.CheckLimit? && step.allowed }

  predicate LimitRefuses(step: Step) { step.CheckLimit? && !step.allowed }

  predicate SessionUp(step: Step) { step.CheckSession? && step.connected }

  predicate ApiAccepts(step: Step) { step.CallApi? && step.accepted }

  predicate FailsRetryably(step: Step) {
    (step.CallApi? && !step.accepted && step.retryable) || (step.Throw? && step.retryable)
  }

  // The actors that have one and have not acted on it.

  predicate IsAllowed(x: Actor) { x.phase.Allowed? }

  predicate IsReady(x: Actor) { x.phase.Ready? }

  predicate IsThrottled(x: Actor) { x.phase.Throttled? }

  predicate HasAccepted(x: Actor) { x.phase.Accepted? }

  predicate MayRetry(x: Actor) { x.phase.Failing? && x.phase.retryable }

  // Each effect, with the answers that are still to have it.

  ghost function AllowedCalls(s: State): nat {
    s.store.calls + Count(s.actors, IsReady) + Count(s.actors, IsAllowed)
  }

  ghost function Called(s: State): nat { s.store.calls + Count(s.actors, IsReady) }

  ghost function Throttlings(s: State): nat { s.store.throttles + Count(s.actors, IsThrottled) }

  ghost function Ids(s: State): nat { One(s.store.row.sentId) + Count(s.actors, HasAccepted) }

  ghost function Retries(s: State): nat { s.store.retries + Count(s.actors, MayRetry) }

  /** How a step changes the number of actors of a kind. */
  ghost function Change(s: State, step: Step, kind: Actor -> bool): int
    requires InPhase(s, step)
  {
    Count(Apply(s, step).actors, kind) - Count(s.actors, kind)
  }

  lemma ChangeIs(s: State, step: Step, kind: Actor -> bool)
    requires InPhase(s, step)
    ensures step.Deliver? || step.Sweep? ==> Change(s, step, kind) == One(kind(Apply(s, step).actors[|s.actors|]))
    ensures !step.Deliver? && !step.Sweep? ==>
              Change(s, step, kind) == One(kind(Apply(s, step).actors[step.a])) - One(kind(s.actors[step.a]))
  {
    hide Count;
    var t := Apply(s, step);
    if step.Deliver? || step.Sweep? {
      CountAppend(s.actors, t.actors[|s.actors|], kind);
    } else {
      CountUpdate(s.actors, step.a, t.actors[step.a], kind);
    }
  }

  lemma AllowedStep(s: State, step: Step)
    requires InPhase(s, step)
    ensures AllowedCalls(Apply(s, step)) <= AllowedCalls(s) + One(LimitAllows(step))
  {
    hide Count;
    ChangeIs(s, step, IsReady);
    ChangeIs(s, step, IsAllowed);
  }

  lemma CalledStep(s: State, step: Step)
    requires InPhase(s, step)
    ensures Called(Apply(s, step)) <= Called(s) + One(SessionUp(step))
  {
    hide Count;
    ChangeIs(s, step, IsReady);
  }

  lemma ThrottledStep(s: State, step: Step)
    requires InPhase(s, step)
    ensures Throttlings(Apply(s, step)) <= Throttlings(s) + One(LimitRefuses(step))
  {
    hide Count;
    ChangeIs(s, step, IsThrottled);
  }

  lemma IdsStep(s: State, step: Step)
    requires InPhase(s, step)
    ensures Ids(Apply(s, step)) <= Ids(s) + One(ApiAccepts(step))
  {
    hide Count;
    ChangeIs(s, step, HasAccepted);
  }

  lemma RetriesStep(s: State, step: Step)
    requires InPhase(s, step)
    ensures Retries(Apply(s, step)) <= Retries(s) + One(FailsRetryably(step))
  {
    hide Count;
    ChangeIs(s, step, MayRetry);
  }

  lemma NoneCounted()
    ensures Count([], LimitAllows) == Count([], LimitRefuses) == Count([], SessionUp) == 0
    ensures Count([], ApiAccepts) == Count([], FailsRetryably) == 0
  {
  }

  lemma {:induction false} LawsRun(s: State, run: seq<Step>, limit: nat)
    requires Valid(s, run, limit)
    ensures var t := Exec(s, run, limit);
            && AllowedCalls(t) <= AllowedCalls(s) + Count(run, LimitAllows)
            && Called(t) <= Called(s) + Count(run, SessionUp)
            && Throttlings(t) <= Throttlings(s) + Count(run, LimitRefuses)
            && Ids(t) <= Ids(s) + Count(run, ApiAccepts)
            && Retries(t) <= Retries(s) + Count(run, FailsRetryably)
    decreases |run|
  {
    hide AllowedCalls, Called, Throttlings, Ids, Retries, Count;
    if run == [] {
      NoneCounted();
    } else {
      AllowedStep(s, run[0]);
      CalledStep(s, run[0]);
      ThrottledStep(s, run[0]);
      IdsStep(s, run[0]);
      RetriesStep(s, run[0]);
      CountFirst(run, LimitAllows);
      CountFirst(run, SessionUp);
      CountFirst(run, LimitRefuses);
      CountFirst(run, ApiAccepts);
      CountFirst(run, FailsRetryably);
      LawsRun(Apply(s, run[0]), run[1..], limit);
    }
  }

  /** Over every run, with `Count` counting its steps: no more calls than the limiter
      allowed, nor than sessions found up; no more throttlings than it refused; an id
      only after an accepted call; and no more retries than retryable failures. */
  lemma AnswersDecide(maxRetries: nat, limit: nat, run: seq<Step>)
    requires Valid(Start(maxRetries), run, limit)
    ensures var store := Exec(Start(maxRetries), run, limit).store;
            && store.calls <= Count(run, LimitAllows) && store.calls <= Count(run, SessionUp)
            && store.throttles <= Count(run, LimitRefuses)
            && (store.row.sentId ==> Count(run, ApiAccepts) >= 1)
            && store.retries <= Count(run, FailsRetryably)
  {
    LawsRun(Start(maxRetries), run, limit);
  }
}
