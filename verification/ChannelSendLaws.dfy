/** What the answers the channel worker gets decide: which refusals are retried, and
    over every run how retries, dead letters, sends and SENT are bounded by the
    answers that call for them. */
module ChannelSendLaws {
  import opened Prelude
  import opened Counting
  import opened ErrorPatterns
  import opened Backoff
  import opened ChannelSend
  import Theorems = ChannelSendTheorems

  /** A refusal that may be retried: the adapter says so, and the error text names
      none of the permanent failures. */
  ghost predicate Transient(result: SendResult) {
    result.Refused? && result.retryable && (result.error.None? || !PermanentOnChannel(result.error.value))
  }

  lemma WillRetryIff(result: SendResult, seen: nat, maxRetries: nat)
    ensures WillRetry(result, seen, maxRetries) <==> Transient(result) && seen < maxRetries
  {
    if result.Refused? && result.error.Some? {
      ChannelPatternsIff(result.error.value);
    }
  }

  /** The outcome a handler writes, whichever the row's status is by then. */
  lemma OutcomeIs(s: State, h: nat)
    requires InPhase(s, WriteOutcome(h))
    ensures var t, row := Apply(s, WriteOutcome(h)), s.store.row;
            match s.handlers[h].phase
            case Inactive => t.store.row == row.(status := Failed) && t.handlers[h].phase == Recording(Failed, 0)
            case Answered(seen, result) =>
              if result.Accepted? then
                t.store.row == row.(status := Sent) && t.handlers[h].phase == Recording(Sent, 0)
              else if Transient(result) && seen < row.maxRetries then
                && t.store.row == row.(status := Queued, retryCount := row.retryCount + 1)
                && t.handlers[h].phase == Recording(Queued, if seen < 6 then 5 * Pow2(seen) else 300)
              else
                t.store.row == row.(status := Failed) && t.handlers[h].phase == DeadLettering
  {
    var phase := s.handlers[h].phase;
    if phase.Answered? {
      WillRetryIff(phase.result, phase.seen, s.store.row.maxRetries);
      CappedDelayMonotone(phase.seen, phase.seen);
    }
  }

  // ----- laws over runs -----

  // The steps that bring an answer.

  ghost predicate AnswersTransient(step: Step) { step.CallAdapter? && Transient(step.result) }

  predicate AnswersAccepted(step: Step) { step.CallAdapter? && step.result.Accepted? }

  predicate AnswersRefused(step: Step) { step.CallAdapter? && step.result.Refused? }

  predicate FindsActive(step: Step) { step.CheckChannel? && step.active }

  predicate FindsInactive(step: Step) { step.CheckChannel? && !step.active }

  // The handlers that have one and have not acted on it.

  ghost predicate HasTransient(h: Handler) { h.phase.Answered? && Transient(h.phase.result) }

  predicate HasAccepted(h: Handler) { h.phase.Answered? && h.phase.result.Accepted? }

  predicate HasRefused(h: Handler) { h.phase.Answered? && h.phase.result.Refused? }

  predicate IsReady(h: Handler) { h.phase.Ready? }

  predicate IsInactive(h: Handler) { h.phase.Inactive? }

  /** Each effect, with the answers that are still to have it. */
  ghost function Retried(s: State): nat { s.store.row.retryCount + Count(s.handlers, HasTransient) }

  ghost function SentOrAccepted(s: State): nat { One(s.store.row.status == Sent) + Count(s.handlers, HasAccepted) }

  ghost function Buried(s: State): nat {
    s.store.deadLetters + Count(s.handlers, IsDeadLettering) + Count(s.handlers, HasRefused)
  }

  ghost function Called(s: State): nat { s.store.sends + Count(s.handlers, IsReady) }

  ghost function GivenUp(s: State): nat {
    One(s.store.row.status == Failed) + Count(s.handlers, IsInactive) + Count(s.handlers, HasRefused)
  }

  /** How a step changes the number of handlers of a kind. */
  ghost function Change(s: State, step: Step, kind: Handler -> bool): int
    requires InPhase(s, step)
  {
    Count(Apply(s, step).handlers, kind) - Count(s.handlers, kind)
  }

  lemma ChangeIs(s: State, step: Step, kind: Handler -> bool)
    requires InPhase(s, step)
    ensures step.Complete? || step.GiveUp? ==> Change(s, step, kind) == 0
    ensures step.Deliver? ==> Change(s, step, kind) == One(kind(Apply(s, step).handlers[|s.handlers|]))
    ensures !step.Complete? && !step.GiveUp? && !step.Deliver? ==>
              Change(s, step, kind) == One(kind(Apply(s, step).handlers[step.h])) - One(kind(s.handlers[step.h]))
  {
    hide Count;
    var t := Apply(s, step);
    if step.Deliver? {
      CountAppend(s.handlers, t.handlers[|s.handlers|], kind);
    } else if !step.Complete? && !step.GiveUp? {
      CountUpdate(s.handlers, step.h, t.handlers[step.h], kind);
    }
  }

  lemma RetriedStep(s: State, step: Step)
    requires InPhase(s, step)
    ensures Retried(Apply(s, step)) <= Retried(s) + One(AnswersTransient(step))
  {
    hide Count, PermanentOnChannel;
    ChangeIs(s, step, HasTransient);
    if step.WriteOutcome? && s.handlers[step.h].phase.Answered? {
      WillRetryIff(s.handlers[step.h].phase.result, s.handlers[step.h].phase.seen, s.store.row.maxRetries);
    }
  }

  lemma AcceptedStep(s: State, step: Step)
    requires InPhase(s, step)
    ensures SentOrAccepted(Apply(s, step)) <= SentOrAccepted(s) + One(AnswersAccepted(step))
  {
    hide Count;
    ChangeIs(s, step, HasAccepted);
  }

  lemma BuriedStep(s: State, step: Step)
    requires InPhase(s, step)
    ensures Buried(Apply(s, step)) <= Buried(s) + One(AnswersRefused(step))
  {
    hide Count;
    ChangeIs(s, step, HasRefused);
    ChangeIs(s, step, IsDeadLettering);
  }

  lemma CalledStep(s: State, step: Step)
    requires InPhase(s, step)
    ensures Called(Apply(s, step)) <= Called(s) + One(FindsActive(step))
  {
    hide Count;
    ChangeIs(s, step, IsReady);
  }

  lemma GivenUpStep(s: State, step: Step)
    requires InPhase(s, step)
    ensures GivenUp(Apply(s, step)) <= GivenUp(s) + One(FindsInactive(step)) + One(AnswersRefused(step))
  {
    hide Count;
    ChangeIs(s, step, IsInactive);
    ChangeIs(s, step, HasRefused);
  }

  lemma {:induction false} LawsRun(s: State, run: seq<Step>, workers: nat)
    requires Valid(s, run, workers)
    ensures var t := Exec(s, run, workers);
            && Retried(t) <= Retried(s) + Count(run, AnswersTransient)
            && SentOrAccepted(t) <= SentOrAccepted(s) + Count(run, AnswersAccepted)
            && Buried(t) <= Buried(s) + Count(run, AnswersRefused)
            && Called(t) <= Called(s) + Count(run, FindsActive)
            && GivenUp(t) <= GivenUp(s) + Count(run, FindsInactive) + Count(run, AnswersRefused)
    decreases |run|
  {
    hide Retried, SentOrAccepted, Buried, Called, GivenUp, Count;
    if run == [] {
      NoneCounted();
    } else {
      RetriedStep(s, run[0]);
      AcceptedStep(s, run[0]);
      BuriedStep(s, run[0]);
      CalledStep(s, run[0]);
      GivenUpStep(s, run[0]);
      CountFirst(run, AnswersTransient);
      CountFirst(run, AnswersAccepted);
      CountFirst(run, AnswersRefused);
      CountFirst(run, FindsActive);
      CountFirst(run, FindsInactive);
      LawsRun(Apply(s, run[0]), run[1..], workers);
    }
  }

  /** Over every run, with `Count` counting its steps: no more retries than transient
      refusals, SENT only after an accepted call, no more dead letters than refusals,
      no more calls than checks that found the channel active, and FAILED only after
      a check that did not or a refusal. */
  lemma AnswersDecide(maxRetries: nat, workers: nat, run: seq<Step>)
    requires Valid(Start(maxRetries), run, workers)
    ensures var store := Exec(Start(maxRetries), run, workers).store;
            && store.row.retryCount <= Count(run, AnswersTransient)
            && (store.row.status == Sent ==> Count(run, AnswersAccepted) >= 1)
            && store.deadLetters <= Count(run, AnswersRefused)
            && store.sends <= Count(run, FindsActive)
            && (store.row.status == Failed ==> Count(run, FindsInactive) + Count(run, AnswersRefused) >= 1)
  {
    LawsRun(Start(maxRetries), run, workers);
  }

  /** A message whose every call is refused for good is called for once at most and
      never retried. */
  lemma PermanentRefusalsAreFinal(maxRetries: nat, workers: nat, run: seq<Step>)
    requires workers >= 1 && Valid(Start(maxRetries), run, workers)
    requires forall i :: 0 <= i < |run| && run[i].CallAdapter? ==> run[i].result.Refused? && !run[i].result.retryable
    ensures var store := Exec(Start(maxRetries), run, workers).store;
            store.row.retryCount == 0 && store.sends <= 1 && store.row.status != Sent
  {
    AnswersDecide(maxRetries, workers, run);
    CountZero(run, AnswersTransient);
    CountZero(run, AnswersAccepted);
    Theorems.RetryBound(maxRetries, workers, run);
  }

  lemma NoneCounted()
    ensures Count([], AnswersTransient) == Count([], AnswersAccepted) == Count([], AnswersRefused) == 0
    ensures Count([], FindsActive) == Count([], FindsInactive) == 0
  {
  }
}
