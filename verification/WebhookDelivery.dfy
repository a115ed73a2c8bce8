/** Webhook deliveries: bounded exponential retries per delivery and a breaker
    that disables a webhook after ten exhausted deliveries in a row. A handler run
    is one step; the queue may deliver a job again. */
module WebhookDelivery {
  import opened Backoff

  const RETRY_BASE_DELAY_SECONDS: nat := 10
  const AUTO_DISABLE_THRESHOLD: nat := 10

  datatype DeliveryStatus = Pending | Success | Failed | Retrying

  /** One delivery, with the HTTP attempts made, the jobs outstanding, how often
      the queue duplicated a job, and the total delay of its scheduled retries. */
  datatype Delivery = Delivery(
    status: DeliveryStatus, retryCount: nat, maxRetries: nat, attempts: nat, jobs: nat, redeliveries: nat, waited: nat)

  datatype Webhook = Webhook(enabled: bool, deleted: bool, failureCount: nat)

  /** What bears on the failure count: a success, an exhausted delivery, and an
      operator enabling the webhook again. */
  datatype Event = Succeeded | Exhausted | Reenabled

  datatype State = State(webhook: Webhook, deliveries: seq<Delivery>, history: seq<Event>)

  /** How writing up a 2xx answer goes. All of it is inside the try block, so that an
      exception at the status, at the failure count or after both is taken for a
      failed attempt. */
  datatype WriteUp = Complete | StatusThrew | ResetThrew | AfterwardsThrew

  datatype Reply = Refused | Answered(writeUp: WriteUp)

  datatype Step =
    | Create(maxRetries: nat)
    | Deliver(d: nat, reply: Reply)
    | Redeliver(d: nat)
    | SetEnabled(enabled: bool)
    | Delete

  function RetryDelay(retryCount: nat): nat
    requires retryCount >= 1
  {
    RETRY_BASE_DELAY_SECONDS * Pow2(retryCount - 1)
  }

  function NewDelivery(maxRetries: nat): Delivery {
    Delivery(Pending, 0, maxRetries, 0, 1, 0, 0)
  }

  predicate CanStep(s: State, step: Step) {
    match step
    case Deliver(d, _) => d < |s.deliveries| && s.deliveries[d].jobs > 0
    case Redeliver(d) => d < |s.deliveries|
    case _ => true
  }

  function SetDelivery(s: State, d: nat, delivery: Delivery): State
    requires d < |s.deliveries|
  {
    s.(deliveries := s.deliveries[d := delivery])
  }

  /** The breaker: count one exhausted delivery more. */
  function CountFailure(webhook: Webhook): Webhook {
    var count := webhook.failureCount + 1;
    webhook.(failureCount := count, enabled := webhook.enabled && count < AUTO_DISABLE_THRESHOLD)
  }

  /** What a 2xx answer writes before an exception, if any, cuts it short. */
  function WrittenUp(s: State, d: nat, reply: Reply): State
    requires d < |s.deliveries|
  {
    var succeeded :=
      if reply.Answered? && reply.writeUp != StatusThrew then SetDelivery(s, d, s.deliveries[d].(status := Success))
      else s;
    if reply == Answered(Complete) || reply == Answered(AfterwardsThrew) then
      succeeded.(webhook := s.webhook.(failureCount := 0), history := s.history + [Succeeded])
    else succeeded
  }

  /** A failed attempt: the retry count is the one loaded at the start. */
  function Failure(s: State, d: nat): State
    requires d < |s.deliveries|
  {
    var x := s.deliveries[d];
    var retryCount := x.retryCount + 1;
    if retryCount < x.maxRetries then
      SetDelivery(s, d, x.(status := Retrying, retryCount := retryCount, jobs := x.jobs + 1,
                           waited := x.waited + RetryDelay(retryCount)))
    else
      SetDelivery(s, d, x.(status := Failed, retryCount := retryCount))
        .(webhook := CountFailure(s.webhook), history := s.history + [Exhausted])
  }

  function Attempt(s: State, d: nat, reply: Reply): State
    requires CanStep(s, Deliver(d, reply))
  {
    var x := s.deliveries[d];
    var tried := WrittenUp(SetDelivery(s, d, x.(attempts := x.attempts + 1, jobs := x.jobs - 1)), d, reply);
    if reply == Answered(Complete) then tried else Failure(tried, d)
  }

  function Apply(s: State, step: Step): State
    requires CanStep(s, step)
  {
    match step
    case Create(maxRetries) => s.(deliveries := s.deliveries + [NewDelivery(maxRetries)])
    case Deliver(d, reply) =>
      var x := s.deliveries[d];
      var skipped := x.(jobs := x.jobs - 1);
      if x.status == Success then SetDelivery(s, d, skipped)
      else if !s.webhook.enabled || s.webhook.deleted then SetDelivery(s, d, skipped.(status := Failed))
      else Attempt(s, d, reply)
    case Redeliver(d) =>
      var x := s.deliveries[d];
      SetDelivery(s, d, x.(jobs := x.jobs + 1, redeliveries := x.redeliveries + 1))
    case SetEnabled(enabled) =>
      if enabled == s.webhook.enabled then s
      else if enabled then
        s.(webhook := s.webhook.(enabled := true, failureCount := 0), history := s.history + [Reenabled])
      else s.(webhook := s.webhook.(enabled := false))
    case Delete => s.(webhook := s.webhook.(deleted := true))
  }

  predicate Valid(s: State, run: seq<Step>)
    decreases |run|
  {
    run == [] || (CanStep(s, run[0]) && Valid(Apply(s, run[0]), run[1..]))
  }

  function Exec(s: State, run: seq<Step>): State
    requires Valid(s, run)
    decreases |run|
  {
    if run == [] then s else Exec(Apply(s, run[0]), run[1..])
  }

  function Start(): State { State(Webhook(true, false, 0), [], []) }

  function Max(a: nat, b: nat): nat { if a < b then b else a }

  /** The exhausted deliveries since the last success or re-enabling. */
  function Trailing(history: seq<Event>): nat {
    if history == [] || history[|history| - 1] != Exhausted then 0
    else Trailing(history[..|history| - 1]) + 1
  }

  /** Attempts, outstanding jobs and retries still to be scheduled: every step of a
      delivery keeps or lowers their sum, only a redelivery raises it. */
  function Potential(x: Delivery): nat {
    var budget := Max(1, x.maxRetries) - 1;
    x.attempts + x.jobs + if x.retryCount < budget then budget - x.retryCount else 0
  }

  ghost predicate DeliveryOk(x: Delivery) {
    && Potential(x) <= Max(1, x.maxRetries) + x.redeliveries
    && x.waited == RETRY_BASE_DELAY_SECONDS * (Pow2(Min(x.retryCount, Max(1, x.maxRetries) - 1)) - 1)
  }

  ghost predicate Inv(s: State) {
    && (forall d :: 0 <= d < |s.deliveries| ==> DeliveryOk(s.deliveries[d]))
    && s.webhook.failureCount == Trailing(s.history)
    && (s.webhook.enabled ==> s.webhook.failureCount < AUTO_DISABLE_THRESHOLD)
  }

  lemma TrailingAppend(history: seq<Event>, e: Event)
    ensures Trailing(history + [e]) == if e == Exhausted then Trailing(history) + 1 else 0
  {
    assert (history + [e])[..|history|] == history;
  }

  lemma DeliveryTaken(x: Delivery)
    requires DeliveryOk(x) && x.jobs > 0
    ensures DeliveryOk(x.(jobs := x.jobs - 1)) && DeliveryOk(x.(jobs := x.jobs - 1, status := Failed))
    ensures DeliveryOk(x.(attempts := x.attempts + 1, jobs := x.jobs - 1))
    ensures Potential(x.(attempts := x.attempts + 1, jobs := x.jobs - 1)) == Potential(x)
  {
  }

  lemma DeliveryFails(x: Delivery)
    requires DeliveryOk(x)
    ensures x.retryCount + 1 < x.maxRetries ==>
              DeliveryOk(x.(status := Retrying, retryCount := x.retryCount + 1, jobs := x.jobs + 1,
                            waited := x.waited + RetryDelay(x.retryCount + 1)))
    ensures x.retryCount + 1 >= x.maxRetries ==>
              DeliveryOk(x.(status := Failed, retryCount := x.retryCount + 1))
  {
  }

  lemma DeliverySucceeds(x: Delivery)
    requires DeliveryOk(x)
    ensures DeliveryOk(x.(status := Success))
  {
  }

  lemma DeliveriesKept(s: State, d: nat, x: Delivery)
    requires d < |s.deliveries| && DeliveryOk(x)
    requires forall i :: 0 <= i < |s.deliveries| ==> DeliveryOk(s.deliveries[i])
    ensures forall i :: 0 <= i < |s.deliveries| ==> DeliveryOk(SetDelivery(s, d, x).deliveries[i])
  {
  }

  lemma WriteUpKeeps(s: State, d: nat, reply: Reply)
    requires Inv(s) && d < |s.deliveries|
    ensures Inv(WrittenUp(s, d, reply))
    ensures |WrittenUp(s, d, reply).deliveries| == |s.deliveries|
  {
    hide DeliveryOk, Trailing;
    DeliverySucceeds(s.deliveries[d]);
    DeliveriesKept(s, d, s.deliveries[d].(status := Success));
    TrailingAppend(s.history, Succeeded);
  }

  lemma FailureKeeps(s: State, d: nat)
    requires Inv(s) && d < |s.deliveries|
    ensures Inv(Failure(s, d))
  {
    hide DeliveryOk, Trailing;
    DeliveryFails(s.deliveries[d]);
    DeliveriesKept(s, d, Failure(s, d).deliveries[d]);
    TrailingAppend(s.history, Exhausted);
  }

  lemma AttemptKeeps(s: State, d: nat, reply: Reply)
    requires Inv(s) && CanStep(s, Deliver(d, reply))
    ensures Inv(Attempt(s, d, reply))
  {
    hide DeliveryOk, Trailing, WrittenUp, Failure;
    var x := s.deliveries[d];
    DeliveryTaken(x);
    DeliveriesKept(s, d, x.(attempts := x.attempts + 1, jobs := x.jobs - 1));
    var tried := SetDelivery(s, d, x.(attempts := x.attempts + 1, jobs := x.jobs - 1));
    WriteUpKeeps(tried, d, reply);
    FailureKeeps(WrittenUp(tried, d, reply), d);
  }

  lemma InvStep(s: State, step: Step)
    requires Inv(s) && CanStep(s, step)
    ensures Inv(Apply(s, step))
  {
    hide DeliveryOk, Trailing, Attempt;
    if step.Deliver? {
      DeliveryTaken(s.deliveries[step.d]);
      if s.deliveries[step.d].status != Success && s.webhook.enabled && !s.webhook.deleted {
        AttemptKeeps(s, step.d, step.reply);
      } else {
        DeliveriesKept(s, step.d, Apply(s, step).deliveries[step.d]);
      }
    } else if step.SetEnabled? {
      TrailingAppend(s.history, Reenabled);
    } else if step.Redeliver? {
      RedeliveryOk(s.deliveries[step.d]);
      DeliveriesKept(s, step.d, Apply(s, step).deliveries[step.d]);
    } else if step.Create? {
      NewIsOk(step.maxRetries);
    }
  }

  lemma RedeliveryOk(x: Delivery)
    requires DeliveryOk(x)
    ensures DeliveryOk(x.(jobs := x.jobs + 1, redeliveries := x.redeliveries + 1))
  {
  }

  lemma NewIsOk(maxRetries: nat)
    ensures DeliveryOk(NewDelivery(maxRetries))
  {
  }

  lemma {:induction false} InvRun(s: State, run: seq<Step>)
    requires Inv(s) && Valid(s, run)
    ensures Inv(Exec(s, run))
    decreases |run|
  {
    if run != [] {
      InvStep(s, run[0]);
      InvRun(Apply(s, run[0]), run[1..]);
    }
  }

  /** A delivery makes at most max(1, maxRetries) attempts, plus one for each job
      the queue delivered twice; and however its attempts end, the scheduled
      delays add up to 10(2^r - 1) for the r retries scheduled, hence at most
      10(2^(maxRetries - 1) - 1). */
  lemma AttemptBound(run: seq<Step>, d: nat)
    requires Valid(Start(), run) && d < |Exec(Start(), run).deliveries|
    ensures var x := Exec(Start(), run).deliveries[d];
            && x.attempts + x.jobs <= Max(1, x.maxRetries) + x.redeliveries
            && x.waited == 10 * (Pow2(Min(x.retryCount, Max(1, x.maxRetries) - 1)) - 1)
            && x.waited <= 10 * (Pow2(Max(1, x.maxRetries) - 1) - 1)
  {
    InvRun(Start(), run);
    var x := Exec(Start(), run).deliveries[d];
    assert DeliveryOk(x);
    Pow2Monotone(Min(x.retryCount, Max(1, x.maxRetries) - 1), Max(1, x.maxRetries) - 1);
  }

  /** A delivery of an enabled webhook whose every attempt fails. */
  predicate FailingSoFar(s: State, d: nat, maxRetries: nat) {
    && d < |s.deliveries| && s.webhook.enabled && !s.webhook.deleted
    && var x := s.deliveries[d];
       x.maxRetries == maxRetries && x.jobs == 1 && x.status in {Pending, Retrying}
       && x.attempts == x.retryCount <= Max(1, maxRetries) - 1 && x.waited == 10 * (Pow2(x.retryCount) - 1)
  }

  /** The bounds are reached: failing attempts only, the delivery ends FAILED after
      exactly max(1, maxRetries) attempts and the full backoff, and counts once
      against its webhook. */
  lemma {:induction false} AllAttemptsFail(s: State, d: nat, maxRetries: nat) returns (run: seq<Step>)
    requires FailingSoFar(s, d, maxRetries)
    ensures Valid(s, run)
    ensures |Exec(s, run).deliveries| == |s.deliveries|
    ensures var x := Exec(s, run).deliveries[d];
            && x.status == Failed && x.jobs == 0 && x.attempts == Max(1, maxRetries)
            && x.waited == 10 * (Pow2(Max(1, maxRetries) - 1) - 1)
    ensures Exec(s, run).webhook.failureCount == s.webhook.failureCount + 1
    decreases Max(1, maxRetries) - s.deliveries[d].retryCount
  {
    var t := Apply(s, Deliver(d, Refused));
    if s.deliveries[d].retryCount + 1 < maxRetries {
      var rest := AllAttemptsFail(t, d, maxRetries);
      run := [Deliver(d, Refused)] + rest;
      assert run[1..] == rest;
    } else {
      run := [Deliver(d, Refused)];
      assert Valid(t, run[1..]);
    }
  }

  /** The failure count is the number of exhausted deliveries since the last
      success or re-enabling, over all deliveries; ten of them in a row leave the
      webhook disabled. */
  lemma BreakerIsExact(run: seq<Step>)
    requires Valid(Start(), run)
    ensures var t := Exec(Start(), run);
            && t.webhook.failureCount == Trailing(t.history)
            && (Trailing(t.history) >= 10 ==> !t.webhook.enabled)
  {
    InvRun(Start(), run);
  }

  /** SUCCESS, as a handler run leaves it, is absorbing and costs no further attempt. */
  lemma {:induction false} SuccessIsAbsorbing(s: State, run: seq<Step>, d: nat)
    requires Valid(s, run) && d < |s.deliveries| && s.deliveries[d].status == Success
    ensures var t := Exec(s, run);
            && d < |t.deliveries| && t.deliveries[d].status == Success
            && t.deliveries[d].attempts == s.deliveries[d].attempts
    decreases |run|
  {
    if run != [] {
      SuccessIsAbsorbing(Apply(s, run[0]), run[1..], d);
    }
  }

  /** Some attempt for delivery d was answered 2xx and written up to the end. */
  predicate WrittenUpOnce(s: State, run: seq<Step>, d: nat)
    requires Valid(s, run)
    decreases |run|
  {
    run != [] &&
    ((run[0] == Deliver(d, Answered(Complete)) && s.webhook.enabled && !s.webhook.deleted)
     || WrittenUpOnce(Apply(s, run[0]), run[1..], d))
  }

  /** But SUCCESS survives the handler run that writes it only if nothing throws while
      the answer is written up: over every run a delivery ends SUCCESS exactly if it
      was so, or if an attempt was answered and written up to the end. */
  lemma {:induction false} SuccessIff(s: State, run: seq<Step>, d: nat)
    requires Valid(s, run) && d < |s.deliveries|
    ensures d < |Exec(s, run).deliveries|
    ensures Exec(s, run).deliveries[d].status == Success
            <==> s.deliveries[d].status == Success || WrittenUpOnce(s, run, d)
    decreases |run|
  {
    if run != [] {
      SuccessIff(Apply(s, run[0]), run[1..], d);
    }
  }

  lemma Cons(s: State, step: Step, rest: seq<Step>)
    requires CanStep(s, step) && Valid(Apply(s, step), rest)
    ensures Valid(s, [step] + rest) && Exec(s, [step] + rest) == Exec(Apply(s, step), rest)
  {
    assert ([step] + rest)[1..] == rest;
  }

  /** A delivery the endpoint answers with 2xx at every attempt, and that is sent
      again, ends FAILED and counts against its webhook all the same, because each time
      the failure count cannot be reset. */
  lemma AnsweredYetFailed() returns (run: seq<Step>)
    ensures Valid(Start(), run)
    ensures forall i :: 0 <= i < |run| && run[i].Deliver? ==> run[i].reply.Answered?
    ensures var t := Exec(Start(), run);
            && |t.deliveries| == 1 && t.deliveries[0].status == Failed && t.deliveries[0].attempts == 2
            && t.webhook.failureCount == 1
  {
    var answer := Deliver(0, Answered(ResetThrew));
    var s1 := Apply(Start(), Create(2));
    var s2 := Apply(s1, answer);
    run := [Create(2), answer, answer];
    Cons(s2, answer, []);
    Cons(s1, answer, [answer]);
    Cons(Start(), Create(2), [answer, answer]);
    assert [answer] == [answer] + [] && [answer, answer] == [answer] + [answer];
    assert run == [Create(2)] + [answer, answer];
  }

  /** What one delivery of a job does, case by case. Delivered before: the job is used up
      and nothing else happens. The webhook disabled or deleted: FAILED without an
      attempt or a retry. Otherwise one attempt is made, and an answer written up to the
      end is a success. Anything else is a failure: below the limit a retry is
      published, to wait 10, 20, 40 seconds and so on; at the limit the webhook is
      charged with it, and disabled from the tenth on. */
  lemma DeliverIs(s: State, d: nat, reply: Reply)
    requires CanStep(s, Deliver(d, reply))
    ensures var t := Apply(s, Deliver(d, reply));
            && |t.deliveries| == |s.deliveries|
            && (forall e :: 0 <= e < |s.deliveries| && e != d ==> t.deliveries[e] == s.deliveries[e])
            && t.webhook.deleted == s.webhook.deleted
            && var x, y := s.deliveries[d], t.deliveries[d];
               y == if x.status == Success then x.(jobs := x.jobs - 1)
                    else if !s.webhook.enabled || s.webhook.deleted then x.(jobs := x.jobs - 1, status := Failed)
                    else if reply == Answered(Complete) then
                      x.(status := Success, attempts := x.attempts + 1, jobs := x.jobs - 1)
                    else if x.retryCount + 1 < x.maxRetries then
                      x.(status := Retrying, attempts := x.attempts + 1, retryCount := x.retryCount + 1,
                         waited := x.waited + 10 * Pow2(x.retryCount))
                    else
                      x.(status := Failed, attempts := x.attempts + 1, retryCount := x.retryCount + 1,
                         jobs := x.jobs - 1)
    ensures var x, before, after := s.deliveries[d], s.webhook, Apply(s, Deliver(d, reply)).webhook;
            if x.status == Success || !before.enabled || before.deleted then after == before
            else if x.retryCount + 1 < x.maxRetries || reply == Answered(Complete) then
              after == before.(failureCount := if reply in {Answered(Complete), Answered(AfterwardsThrew)} then 0
                                               else before.failureCount)
            else
              && after.failureCount == 1 + (if reply == Answered(AfterwardsThrew) then 0 else before.failureCount)
              && after.enabled == (after.failureCount < 10)
  {
  }

  /** From a deletion on, over every run: no delivery is attempted, waits or succeeds any
      more, and the failure count is what it was or, after an enabling, zero. */
  lemma {:induction false} NothingAfterDeletion(s: State, run: seq<Step>, d: nat)
    requires Valid(s, run) && d < |s.deliveries| && s.webhook.deleted
    ensures var t := Exec(s, run);
            && t.webhook.deleted && d < |t.deliveries| && t.webhook.failureCount in {0, s.webhook.failureCount}
            && var x, y := s.deliveries[d], t.deliveries[d];
               && y.attempts == x.attempts && y.retryCount == x.retryCount && y.waited == x.waited
               && (y.status == x.status || (x.status != Success && y.status == Failed))
    decreases |run|
  {
    if run != [] {
      NothingAfterDeletion(Apply(s, run[0]), run[1..], d);
    }
  }

  /** An operator's switch: enabling a disabled webhook starts its count afresh, enabling
      an enabled one does not, and disabling keeps the count. */
  lemma SwitchIs(s: State, enabled: bool)
    ensures var t := Apply(s, SetEnabled(enabled));
            && t.webhook.enabled == enabled && t.webhook.deleted == s.webhook.deleted && t.deliveries == s.deliveries
            && t.webhook.failureCount == if enabled && !s.webhook.enabled then 0 else s.webhook.failureCount
  {
  }

  class WebhookDeliveryWorker {
    var webhook: Webhook
    var deliveries: seq<Delivery>
    var history: seq<Event>

    constructor ()
      ensures Current() == Start()
    {
      webhook, deliveries, history := Webhook(true, false, 0), [], [];
    }

    function Current(): State
      reads this
    {
      State(webhook, deliveries, history)
    }

    method UpdateDelivery(d: nat, delivery: Delivery)
      requires d < |deliveries|
      modifies this`deliveries
      ensures deliveries == old(deliveries)[d := delivery]
    {
      deliveries := deliveries[d := delivery];
    }

    /** One job for delivery d. */
    method HandleDelivery(d: nat, reply: Reply)
      requires d < |deliveries| ==> deliveries[d].jobs > 0
      modifies this
      ensures d >= |old(deliveries)| ==> Current() == old(Current())
      ensures d < |old(deliveries)| ==> Current() == Apply(old(Current()), Deliver(d, reply))
    {
      if d >= |deliveries| {
        return;
      }
      var delivery := deliveries[d];
      var taken := delivery.(jobs := delivery.jobs - 1);
      UpdateDelivery(d, taken);
      if delivery.status == Success {
        return;
      }
      if !webhook.enabled || webhook.deleted {
        UpdateDelivery(d, taken.(status := Failed));
        return;
      }
      UpdateDelivery(d, deliveries[d].(attempts := delivery.attempts + 1));
      if reply.Answered? {
        var done := WriteUpAnswer(d, reply.writeUp);
        if done {
          return;
        }
      }
      HandleFailure(d, delivery.retryCount, delivery.maxRetries);
    }

    /** The rest of the try block after a 2xx answer, up to an exception. */
    method WriteUpAnswer(d: nat, writeUp: WriteUp) returns (done: bool)
      requires d < |deliveries|
      modifies this
      ensures done == (writeUp == Complete)
      ensures Current() == WrittenUp(old(Current()), d, Answered(writeUp))
    {
      if writeUp == StatusThrew {
        return false;
      }
      UpdateDelivery(d, deliveries[d].(status := Success));
      if writeUp == ResetThrew {
        return false;
      }
      webhook := webhook.(failureCount := 0);
      history := history + [Succeeded];
      return writeUp == Complete;
    }

    /** What follows a failed attempt, with what was loaded at the start. */
    method HandleFailure(d: nat, loadedRetryCount: nat, maxRetries: nat)
      requires d < |deliveries|
      requires deliveries[d].retryCount == loadedRetryCount && deliveries[d].maxRetries == maxRetries
      modifies this
      ensures Current() == Failure(old(Current()), d)
    {
      var x := deliveries[d];
      var retryCount := loadedRetryCount + 1;
      var willRetry := retryCount < maxRetries;
      if willRetry {
        var delaySeconds := RETRY_BASE_DELAY_SECONDS * Pow2(retryCount - 1);
        UpdateDelivery(d, x.(status := Retrying, retryCount := retryCount, jobs := x.jobs + 1,
                             waited := x.waited + delaySeconds));
      } else {
        UpdateDelivery(d, x.(status := Failed, retryCount := retryCount));
        webhook := webhook.(failureCount := webhook.failureCount + 1);
        history := history + [Exhausted];
        if webhook.failureCount >= AUTO_DISABLE_THRESHOLD {
          webhook := webhook.(enabled := false);
        }
      }
    }
  }
}
