/** What holds of every run of a scheduled message. */
module ScheduledMessageTheorems {
  import opened Counting
  import opened Backoff
  import opened ScheduledMessage
  import Prelude

  lemma StartInv()
    ensures Inv(Start())
  {
  }

  /** However many checkers find the message due, it is handed off at most once. Its
      executions check the session at most four times, wait at most seventy seconds
      and publish at most one send job, and as much again for each time the queue
      had to deliver a job again. */
  lemma OneBoundedChain(run: seq<Step>)
    requires Valid(Start(), run)
    ensures var t := Exec(Start(), run);
            && t.chains <= 1
            && t.checks <= 4 * (t.chains + t.redeliveries) && t.waited <= 70 * (t.chains + t.redeliveries)
            && t.sends <= t.chains + t.redeliveries
  {
    StartInv();
    InvRun(Start(), run);
  }

  /** Nobody is handing the message off, and every job of it was used up: the delivery
      that held it made its last write, or the queue delivered it again to one that
      did. Deliveries that died on the way do not matter. */
  predicate Quiescent(s: State) {
    && (forall c :: 0 <= c < |s.checkers| ==> !IsHandingOff(s.checkers[c]))
    && (forall e :: 0 <= e < |s.executions| ==> !Carries(s.executions[e]))
  }

  /** A message handed off, with no job of it left, ended in SENT, FAILED or
      CANCELLED. SENT comes with a send job, and one only unless jobs were delivered
      again; FAILED comes with none, unless so or unless a call threw at the last
      retry. */
  lemma ChainEnds(run: seq<Step>)
    requires Valid(Start(), run)
    requires Exec(Start(), run).chains == 1 && Quiescent(Exec(Start(), run))
    ensures var t := Exec(Start(), run);
            && t.status in {Sent, Failed, Cancelled}
            && (t.status == Sent ==> 1 <= t.sends <= 1 + t.redeliveries)
            && (t.status == Failed ==> t.sends <= t.redeliveries + t.errors)
  {
    StartInv();
    InvRun(Start(), run);
    var t := Exec(Start(), run);
    CountZero(t.checkers, IsHandingOff);
    CountZero(t.executions, Carries);
  }

  // ----- single runs -----

  lemma {:induction false} Extend(s: State, run: seq<Step>, step: Step)
    requires Valid(s, run) && CanStep(Exec(s, run), step)
    ensures Valid(s, run + [step]) && Exec(s, run + [step]) == Apply(Exec(s, run), step)
    decreases |run|
  {
    if run == [] {
      assert run + [step] == [step];
    } else {
      assert (run + [step])[0] == run[0] && (run + [step])[1..] == run[1..] + [step];
      Extend(Apply(s, run[0]), run[1..], step);
    }
  }

  /** The first execution is about to publish. */
  lemma AboutToSend() returns (run: seq<Step>)
    ensures Valid(Start(), run)
    ensures Exec(Start(), run)
            == State(Status.Queued, [Checker(CheckerDone, true)], [Execution(0, 0, true, Sending, true)],
                     1, 0, 0, 1, 0, 0)
  {
    Extend(Start(), [], FindDue);
    run := [] + [FindDue];
    assert Exec(Start(), run).checkers == [Checker(Found, true)];
    Extend(Start(), run, HandOff(0));
    run := run + [HandOff(0)];
    Extend(Start(), run, PublishExecution(0));
    run := run + [PublishExecution(0)];
    assert Exec(Start(), run).executions == [Execution(0, 0, true, Waiting, true)];
    Extend(Start(), run, Execute(0));
    run := run + [Execute(0)];
    Extend(Start(), run, CheckSession(0, true));
    run := run + [CheckSession(0, true)];
  }

  /** The redelivery count in the bound is needed: an instance that dies between its
      publish and its write of SENT is followed by another that publishes again. */
  lemma SentTwice() returns (run: seq<Step>)
    ensures Valid(Start(), run)
    ensures Exec(Start(), run).sends == 2 && Exec(Start(), run).redeliveries == 1
  {
    var s := Start();
    run := AboutToSend();
    hide Exec, Valid;
    Extend(s, run, PublishSend(0));
    run := run + [PublishSend(0)];
    Extend(s, run, CrashExecution(0));
    run := run + [CrashExecution(0)];
    Extend(s, run, Redeliver(0));
    run := run + [Redeliver(0)];
    Extend(s, run, Execute(1));
    run := run + [Execute(1)];
    Extend(s, run, CheckSession(1, true));
    run := run + [CheckSession(1, true)];
    Extend(s, run, PublishSend(1));
    run := run + [PublishSend(1)];
  }

  /** A run that ChainEnds speaks about although an instance died in it: the queue
      delivers the job again, and the second delivery sends. */
  lemma SentAfterDeath() returns (run: seq<Step>)
    ensures Valid(Start(), run)
    ensures var t := Exec(Start(), run);
            t.chains == 1 && Quiescent(t) && t.status == Sent && t.sends == 1 && t.redeliveries == 1
  {
    var s := Start();
    run := AboutToSend();
    hide Exec, Valid;
    Extend(s, run, CrashExecution(0));
    run := run + [CrashExecution(0)];
    Extend(s, run, Redeliver(0));
    run := run + [Redeliver(0)];
    Extend(s, run, Execute(1));
    run := run + [Execute(1)];
    Extend(s, run, CheckSession(1, true));
    run := run + [CheckSession(1, true)];
    Extend(s, run, PublishSend(1));
    run := run + [PublishSend(1)];
    Extend(s, run, MarkSent(1));
    run := run + [MarkSent(1)];
    var t := Exec(s, run);
    assert t.executions == [Execution(0, 0, false, Sending, false), Execution(0, 1, true, Ending, true)];
    assert t.checkers == [Checker(CheckerDone, true)];
  }

  // ----- what the session check decides -----

  predicate FindsConnected(step: Step) { step.CheckSession? && step.connected }

  predicate FindsDown(step: Step) { step.CheckSession? && !step.connected }

  predicate Throws(step: Step) { step.Throw? }

  predicate IsSending(x: Execution) { x.phase == Sending }

  function DelayAhead(x: Execution): nat {
    if x.phase == Requeueing && x.r < MAX_RETRIES then 40 else 0
  }

  /** Each effect, with the checks that are still to have it. */
  ghost function SendsDue(s: State): nat { s.sends + Count(s.executions, IsSending) }

  ghost function Delays(s: State): nat { s.waited + Sum(s.executions, DelayAhead) }

  ghost function Failures(s: State): nat { Prelude.One(s.status == Failed) + Count(s.executions, IsGivingUp) }

  lemma AppendedLast(s: State, x: Execution)
    requires x.phase == Waiting
    ensures Count(s.executions + [x], IsSending) == Count(s.executions, IsSending)
    ensures Count(s.executions + [x], IsGivingUp) == Count(s.executions, IsGivingUp)
    ensures Sum(s.executions + [x], DelayAhead) == Sum(s.executions, DelayAhead)
  {
    CountAppend(s.executions, x, IsSending);
    CountAppend(s.executions, x, IsGivingUp);
    SumAppend(s.executions, x, DelayAhead);
  }

  lemma ReplacedOne(xs: seq<Execution>, e: nat, x: Execution)
    requires e < |xs|
    ensures Count(xs[e := x], IsSending)
            == Count(xs, IsSending) - Prelude.One(IsSending(xs[e])) + Prelude.One(IsSending(x))
    ensures Count(xs[e := x], IsGivingUp)
            == Count(xs, IsGivingUp) - Prelude.One(IsGivingUp(xs[e])) + Prelude.One(IsGivingUp(x))
    ensures Sum(xs[e := x], DelayAhead) + DelayAhead(xs[e]) == Sum(xs, DelayAhead) + DelayAhead(x)
  {
    CountUpdate(xs, e, x, IsSending);
    CountUpdate(xs, e, x, IsGivingUp);
    SumUpdate(xs, e, x, DelayAhead);
  }

  lemma SmallDelays(r: nat)
    requires r < MAX_RETRIES
    ensures Pow2(r) <= 4
  {
    assert Pow2(0) == 1 && Pow2(1) == 2 && Pow2(2) == 4;
  }

  /** What a step adds to what was decided so far. */
  ghost predicate Decides(s: State, step: Step, t: State) {
    && SendsDue(t) <= SendsDue(s) + Prelude.One(FindsConnected(step))
    && Delays(t) <= Delays(s) + 40 * Prelude.One(FindsDown(step))
    && Failures(t) <= Failures(s) + Prelude.One(FindsDown(step)) + Prelude.One(Throws(step))
  }

  lemma PublishDecides(s: State, step: Step)
    requires Inv(s) && CanStep(s, step) && (step.PublishExecution? || step.Requeue? || step.Redeliver?)
    ensures Decides(s, step, Apply(s, step))
  {
    hide Count, Sum, Budgets;
    if step.PublishExecution? {
      AppendedLast(s, Execution(0, 0, true, Waiting, true));
    } else {
      var x := s.executions[step.e];
      assert ExecutionOk(s, x);
      var y := if step.Requeue? then x.(phase := Ending) else x.(held := false);
      ReplacedOne(s.executions, step.e, y);
      var z := if step.Requeue? then Execution(x.r + 1, 0, true, Waiting, true)
               else Execution(x.r, x.tries + 1, true, Waiting, true);
      AppendedLast(s.(executions := s.executions[step.e := y]), z);
      if step.Requeue? {
        SmallDelays(x.r);
      }
    }
  }

  lemma CheckDecidesStep(s: State, step: Step)
    requires Inv(s) && CanStep(s, step)
    ensures Decides(s, step, Apply(s, step))
  {
    hide Count, Sum, Budgets;
    if step.PublishExecution? || step.Requeue? || step.Redeliver? {
      hide Decides;
      PublishDecides(s, step);
    } else if !step.FindDue? && !step.HandOff? && !step.CrashChecker? && !step.Cancel? {
      ReplacedOne(s.executions, step.e, Apply(s, step).executions[step.e]);
    }
  }

  lemma NoneCounted()
    ensures Count([], FindsConnected) == Count([], FindsDown) == Count([], Throws) == 0
  {
  }

  lemma {:induction false} CheckDecidesRun(s: State, run: seq<Step>)
    requires Inv(s) && Valid(s, run)
    ensures var t := Exec(s, run);
            && SendsDue(t) <= SendsDue(s) + Count(run, FindsConnected)
            && Delays(t) <= Delays(s) + 40 * Count(run, FindsDown)
            && Failures(t) <= Failures(s) + Count(run, FindsDown) + Count(run, Throws)
    decreases |run|
  {
    hide Count, SendsDue, Delays, Failures;
    if run == [] {
      NoneCounted();
    } else {
      CheckDecidesStep(s, run[0]);
      InvStep(s, run[0]);
      CountFirst(run, FindsConnected);
      CountFirst(run, FindsDown);
      CountFirst(run, Throws);
      CheckDecidesRun(Apply(s, run[0]), run[1..]);
    }
  }

  /** Over every run, with `Count` counting its steps: no more send jobs than checks
      that found the session connected, no delay without one that found it down, and
      FAILED only after such a one or an exception. */
  lemma CheckDecides(run: seq<Step>)
    requires Valid(Start(), run)
    ensures var t := Exec(Start(), run);
            && t.sends <= Count(run, FindsConnected)
            && t.waited <= 40 * Count(run, FindsDown)
            && (t.status == Failed ==> Count(run, FindsDown) + Count(run, Throws) >= 1)
            && (t.status == Sent ==> Count(run, FindsConnected) >= 1)
  {
    StartInv();
    InvRun(Start(), run);
    CheckDecidesRun(Start(), run);
  }

  // ----- cancelling -----

  /** A live execution that loaded the row and has not published yet. */
  predicate WouldPublish(x: Execution) {
    x.alive && (x.phase == Checking || x.phase == Sending)
  }

  predicate MayPublish(s: State) {
    exists e :: 0 <= e < |s.executions| && WouldPublish(s.executions[e])
  }

  lemma CancelledStep(s: State, step: Step)
    requires s.status == Cancelled && !MayPublish(s) && CanStep(s, step)
    ensures Apply(s, step).status == Cancelled && !MayPublish(Apply(s, step)) && Apply(s, step).sends == s.sends
  {
    var t := Apply(s, step);
    forall e | 0 <= e < |t.executions|
      ensures !WouldPublish(t.executions[e])
    {
      if e < |s.executions| {
        assert !WouldPublish(s.executions[e]);
      }
    }
  }

  lemma {:induction false} CancelledRun(s: State, run: seq<Step>)
    requires s.status == Cancelled && !MayPublish(s) && Valid(s, run)
    ensures Exec(s, run).sends == s.sends
    decreases |run|
  {
    if run != [] {
      CancelledStep(s, run[0]);
      CancelledRun(Apply(s, run[0]), run[1..]);
    }
  }

  /** Every cancellation lands while no live execution is between load and publish. */
  predicate CancelsBetweenExecutions(s: State, run: seq<Step>)
    requires Valid(s, run)
    decreases |run|
  {
    run != [] ==>
      && (run[0].Cancel? ==> !MayPublish(s))
      && CancelsBetweenExecutions(Apply(s, run[0]), run[1..])
  }

  /** How many send jobs were published while the message was CANCELLED. */
  function SendsWhileCancelled(s: State, run: seq<Step>): nat
    requires Valid(s, run)
    decreases |run|
  {
    if run == [] then 0
    else Prelude.One(run[0].PublishSend? && s.status == Cancelled) + SendsWhileCancelled(Apply(s, run[0]), run[1..])
  }

  /** With executions as single steps, nothing is sent for a cancelled message. */
  lemma {:induction false} CancelledIsNotSent(s: State, run: seq<Step>)
    requires (s.status == Cancelled ==> !MayPublish(s)) && Valid(s, run) && CancelsBetweenExecutions(s, run)
    ensures SendsWhileCancelled(s, run) == 0
    decreases |run|
  {
    if run != [] {
      if s.status == Cancelled {
        CancelledStep(s, run[0]);
      }
      if run[0].PublishSend? {
        assert WouldPublish(s.executions[run[0].e]);
      }
      CancelledIsNotSent(Apply(s, run[0]), run[1..]);
    }
  }

  ghost predicate CanStillSend(s: State) {
    exists run :: Valid(s, run) && Exec(s, run).sends > s.sends
  }

  lemma Cons(s: State, step: Step, rest: seq<Step>)
    requires CanStep(s, step) && Valid(Apply(s, step), rest)
    ensures Valid(s, [step] + rest) && Exec(s, [step] + rest) == Exec(Apply(s, step), rest)
  {
    assert ([step] + rest)[1..] == rest;
  }

  lemma PublishRun(s: State, e: nat) returns (run: seq<Step>)
    requires e < |s.executions| && WouldPublish(s.executions[e])
    ensures Valid(s, run) && Exec(s, run).sends == s.sends + 1
  {
    if s.executions[e].phase == Sending {
      Cons(s, PublishSend(e), []);
      run := [PublishSend(e)] + [];
    } else {
      Cons(Apply(s, CheckSession(e, true)), PublishSend(e), []);
      Cons(s, CheckSession(e, true), [PublishSend(e)] + []);
      run := [CheckSession(e, true)] + ([PublishSend(e)] + []);
    }
  }

  /** A cancelled message is sent after all exactly if, when it was cancelled, a live
      execution had loaded the row and was still to publish. */
  lemma SentAfterCancelIff(s: State)
    requires CanStep(s, Cancel)
    ensures CanStillSend(Apply(s, Cancel)) <==> MayPublish(s)
  {
    var t := Apply(s, Cancel);
    if MayPublish(s) {
      var e :| 0 <= e < |s.executions| && WouldPublish(s.executions[e]);
      var run := PublishRun(t, e);
    } else {
      assert !MayPublish(t);
      forall run | Valid(t, run) ensures Exec(t, run).sends <= t.sends {
        CancelledRun(t, run);
      }
    }
  }

  /** Such a run: cancelled between the session check and the publish. */
  lemma CancelledYetSent() returns (run: seq<Step>)
    ensures Valid(Start(), run)
    ensures Exec(Start(), run).status == Cancelled && Exec(Start(), run).sends == 1
    ensures SendsWhileCancelled(Start(), run) == 1
  {
    var prefix := AboutToSend();
    var s := Exec(Start(), prefix);
    var t := Apply(s, Cancel);
    Cons(t, PublishSend(0), []);
    Cons(s, Cancel, [PublishSend(0)] + []);
    var tail := [Cancel] + ([PublishSend(0)] + []);
    assert tail[1..] == [PublishSend(0)];
    assert SendsWhileCancelled(t, [PublishSend(0)]) == 1;
    assert SendsWhileCancelled(s, tail) == 1;
    Concatenate(Start(), prefix, tail);
    NotCancelledBefore(Start(), prefix);
    run := prefix + tail;
  }

  lemma {:induction false} Concatenate(s: State, a: seq<Step>, b: seq<Step>)
    requires Valid(s, a) && Valid(Exec(s, a), b)
    ensures Valid(s, a + b) && Exec(s, a + b) == Exec(Exec(s, a), b)
    ensures SendsWhileCancelled(s, a + b) == SendsWhileCancelled(s, a) + SendsWhileCancelled(Exec(s, a), b)
    decreases |a|
  {
    if a == [] {
      assert a + b == b;
    } else {
      assert (a + b)[0] == a[0] && (a + b)[1..] == a[1..] + b;
      Concatenate(Apply(s, a[0]), a[1..], b);
    }
  }

  lemma {:induction false} NotCancelledBefore(s: State, run: seq<Step>)
    requires Valid(s, run) && Exec(s, run).status != Cancelled
    ensures s.status != Cancelled && SendsWhileCancelled(s, run) == 0
    decreases |run|
  {
    if run != [] {
      NotCancelledBefore(Apply(s, run[0]), run[1..]);
    }
  }

  // ----- coming to an end -----

  /** A delivery that goes on, or whose job the queue may deliver again. */
  predicate CarriesOn(x: Execution) {
    (x.alive && Unfinished(x)) || CanRedeliver(x)
  }

  predicate Alive(s: State) {
    || (exists c :: 0 <= c < |s.checkers| && s.checkers[c] == Checker(HandingOff, true))
    || (exists e :: 0 <= e < |s.executions| && CarriesOn(s.executions[e]))
  }

  predicate NoCancel(run: seq<Step>) {
    forall i :: 0 <= i < |run| ==> !run[i].Cancel?
  }

  /** The message is sent or failed without an operator's help. */
  ghost predicate CanEnd(s: State) {
    exists run :: Ends(s, run)
  }

  ghost predicate Ends(s: State, run: seq<Step>) {
    Valid(s, run) && NoCancel(run) && Exec(s, run).status in {Sent, Failed}
  }

  lemma StrandedStep(s: State, step: Step)
    requires s.status == Status.Queued && !Alive(s) && CanStep(s, step) && !step.Cancel?
    ensures var t := Apply(s, step); t.status == Status.Queued && !Alive(t) && t.sends == s.sends
  {
    var t := Apply(s, step);
    forall c | 0 <= c < |t.checkers|
      ensures t.checkers[c] != Checker(HandingOff, true)
    {
      if c < |s.checkers| {
        assert s.checkers[c] != Checker(HandingOff, true);
      }
    }
    forall e | 0 <= e < |t.executions|
      ensures !CarriesOn(t.executions[e])
    {
      if e < |s.executions| {
        assert !CarriesOn(s.executions[e]);
      }
    }
  }

  lemma {:induction false} DeadChainStrands(s: State, run: seq<Step>)
    requires s.status == Status.Queued && !Alive(s) && Valid(s, run) && NoCancel(run)
    ensures Exec(s, run).status == Status.Queued && Exec(s, run).sends == s.sends
    decreases |run|
  {
    if run != [] {
      StrandedStep(s, run[0]);
      assert NoCancel(run[1..]);
      DeadChainStrands(Apply(s, run[0]), run[1..]);
    }
  }

  lemma Then(s: State, step: Step, rest: seq<Step>)
    requires CanStep(s, step) && !step.Cancel? && Ends(Apply(s, step), rest)
    ensures Ends(s, [step] + rest)
  {
    Cons(s, step, rest);
  }

  /** Steps until the row is written for good. */
  function ToGo(x: Execution): nat {
    match x.phase
    case Waiting => 4
    case Checking => 3
    case Requeueing => 5
    case Sending => 2
    case Marking => 1
    case GivingUp => 1
    case _ => 0
  }

  lemma RunOn(s: State, e: nat) returns (run: seq<Step>)
    requires s.status == Status.Queued && e < |s.executions| && s.executions[e].alive && Unfinished(s.executions[e])
    ensures Ends(s, run)
    decreases ToGo(s.executions[e])
  {
    var step := match s.executions[e].phase
      case Waiting => Execute(e)
      case Checking => CheckSession(e, true)
      case Requeueing => Requeue(e)
      case Sending => PublishSend(e)
      case Marking => MarkSent(e)
      case _ => MarkFailed(e);
    var t := Apply(s, step);
    var rest := [];
    if t.status == Status.Queued {
      rest := RunOn(t, if step.Requeue? then |s.executions| else e);
    }
    Then(s, step, rest);
    run := [step] + rest;
  }

  /** A QUEUED message can still be sent or failed exactly if a live checker is about
      to publish its job, a live delivery has not made its last write, or a delivery
      that did not return holds a job the queue may deliver again. */
  lemma CanEndIff(s: State)
    requires s.status == Status.Queued
    ensures CanEnd(s) <==> Alive(s)
  {
    if c :| 0 <= c < |s.checkers| && s.checkers[c] == Checker(HandingOff, true) {
      var rest := RunOn(Apply(s, PublishExecution(c)), |s.executions|);
      Then(s, PublishExecution(c), rest);
    } else if e :| 0 <= e < |s.executions| && CarriesOn(s.executions[e]) {
      if CanRedeliver(s.executions[e]) {
        var rest := RunOn(Apply(s, Redeliver(e)), |s.executions|);
        Then(s, Redeliver(e), rest);
      } else {
        var run := RunOn(s, e);
      }
    } else {
      forall run | Valid(s, run) && NoCancel(run) ensures Exec(s, run).status == Status.Queued {
        DeadChainStrands(s, run);
      }
    }
  }

  /** A checker that dies between its compare-and-set and its publish strands the
      message: checkers only look at PENDING rows, and there is no job to deliver. */
  lemma HandOffDies() returns (run: seq<Step>)
    ensures Valid(Start(), run)
    ensures Exec(Start(), run).status == Status.Queued && !CanEnd(Exec(Start(), run))
  {
    Extend(Start(), [], FindDue);
    run := [] + [FindDue];
    assert Exec(Start(), run).checkers == [Checker(Found, true)];
    Extend(Start(), run, HandOff(0));
    run := run + [HandOff(0)];
    Extend(Start(), run, CrashChecker(0));
    run := run + [CrashChecker(0)];
    var t := Exec(Start(), run);
    assert t.checkers == [Checker(HandingOff, false)] && t.executions == [];
    CanEndIff(t);
  }
}
