/** One scheduled message: any number of checker instances hand it off, executions
    wait for the session and send, and an operator may cancel. Every statement is
    one atomic step; any instance may die, store and queue calls may throw, and the
    queue delivers the job of an execution that did not return again. */
module ScheduledMessage {
  import opened Counting
  import opened Backoff
  import Prelude

  const MAX_RETRIES: nat := 3
  const RETRY_BASE_DELAY_SECONDS: nat := 10

  /** How often the queue delivers a job again. */
  const QUEUE_RETRY_LIMIT: nat := 3

  datatype Status = Pending | Queued | Sent | Cancelled | Failed

  datatype CheckerPhase = Found | HandingOff | CheckerDone

  datatype Checker = Checker(phase: CheckerPhase, alive: bool)

  datatype ExecutionPhase = Waiting | Checking | Requeueing | Sending | Marking | GivingUp | Ending | Done

  /** A delivery of an execution job: the retry count in the job's data, how often
      the queue delivered the job before, whether it still holds the job, and, once
      it runs, whether it lives. */
  datatype Execution = Execution(r: nat, tries: nat, held: bool, phase: ExecutionPhase, alive: bool)

  /** The row's status, and counts of hand-offs, redeliveries, exceptions at the last
      retry, session checks, seconds of scheduled delay and send jobs published. */
  datatype State = State(
    status: Status, checkers: seq<Checker>, executions: seq<Execution>,
    chains: nat, redeliveries: nat, errors: nat, checks: nat, waited: nat, sends: nat)

  datatype Step =
    | FindDue
    | HandOff(c: nat)
    | PublishExecution(c: nat)
    | Execute(e: nat)
    | CheckSession(e: nat, connected: bool)
    | Requeue(e: nat)
    | PublishSend(e: nat)
    | MarkSent(e: nat)
    | MarkFailed(e: nat)
    | Finish(e: nat)
    | Throw(e: nat)
    | CrashExecution(e: nat)
    | Redeliver(e: nat)
    | Cancel
    | CancelJob(e: nat)
    | CrashChecker(c: nat)

  /** Delivered, and not returned from. */
  predicate InFlight(x: Execution) { x.phase != Waiting && x.phase != Done }

  predicate AtPhase(s: State, e: nat, phase: ExecutionPhase) {
    e < |s.executions| && s.executions[e].alive && s.executions[e].phase == phase
  }

  /** Between loading the row and returning, where a call may throw. */
  predicate InTry(x: Execution) {
    x.alive && x.phase in {Checking, Requeueing, Sending, Marking}
  }

  predicate CanRedeliver(x: Execution) { InFlight(x) && x.held && x.tries < QUEUE_RETRY_LIMIT }

  predicate CanStep(s: State, step: Step) {
    match step
    case FindDue => s.status == Pending
    case HandOff(c) => c < |s.checkers| && s.checkers[c] == Checker(Found, true)
    case PublishExecution(c) => c < |s.checkers| && s.checkers[c] == Checker(HandingOff, true)
    case Execute(e) => AtPhase(s, e, Waiting)
    case CheckSession(e, _) => AtPhase(s, e, Checking)
    case Requeue(e) => AtPhase(s, e, Requeueing)
    case PublishSend(e) => AtPhase(s, e, Sending)
    case MarkSent(e) => AtPhase(s, e, Marking)
    case MarkFailed(e) => AtPhase(s, e, GivingUp)
    case Finish(e) => AtPhase(s, e, Ending)
    case Throw(e) => e < |s.executions| && InTry(s.executions[e])
    case CrashExecution(e) => e < |s.executions| && s.executions[e].alive && InFlight(s.executions[e])
    case Redeliver(e) => e < |s.executions| && CanRedeliver(s.executions[e])
    case Cancel => s.status == Pending || s.status == Queued
    case CancelJob(e) => s.status == Cancelled && e < |s.executions| && s.executions[e].held
    case CrashChecker(c) => c < |s.checkers| && s.checkers[c].alive && s.checkers[c].phase != CheckerDone
  }

  function SetChecker(s: State, c: nat, phase: CheckerPhase): State
    requires c < |s.checkers|
  {
    s.(checkers := s.checkers[c := s.checkers[c].(phase := phase)])
  }

  function SetPhase(s: State, e: nat, phase: ExecutionPhase): State
    requires e < |s.executions|
  {
    s.(executions := s.executions[e := s.executions[e].(phase := phase)])
  }

  function Append(s: State, r: nat, tries: nat): State {
    s.(executions := s.executions + [Execution(r, tries, true, Waiting, true)])
  }

  function Apply(s: State, step: Step): State
    requires CanStep(s, step)
  {
    match step
    case FindDue => s.(checkers := s.checkers + [Checker(Found, true)])
    case HandOff(c) =>
      if s.status == Pending then SetChecker(s, c, HandingOff).(status := Queued, chains := s.chains + 1)
      else SetChecker(s, c, CheckerDone)
    case PublishExecution(c) => Append(SetChecker(s, c, CheckerDone), 0, 0)
    case Execute(e) => SetPhase(s, e, if s.status == Queued then Checking else Ending)
    case CheckSession(e, connected) =>
      SetPhase(s, e, if connected then Sending else if s.executions[e].r < MAX_RETRIES then Requeueing else GivingUp)
        .(checks := s.checks + 1)
    case Requeue(e) =>
      var r := s.executions[e].r;
      Append(SetPhase(s, e, Ending), r + 1, 0).(waited := s.waited + RETRY_BASE_DELAY_SECONDS * Pow2(r))
    case PublishSend(e) => SetPhase(s, e, Marking).(sends := s.sends + 1)
    case MarkSent(e) => SetPhase(s, e, Ending).(status := if s.status == Queued then Sent else s.status)
    case MarkFailed(e) => SetPhase(s, e, Ending).(status := if s.status == Queued then Failed else s.status)
    case Finish(e) => SetPhase(s, e, Done)
    case Throw(e) =>
      if s.executions[e].r < MAX_RETRIES then s.(executions := s.executions[e := s.executions[e].(alive := false)])
      else SetPhase(s, e, GivingUp).(errors := s.errors + 1)
    case CrashExecution(e) => s.(executions := s.executions[e := s.executions[e].(alive := false)])
    case Redeliver(e) =>
      var x := s.executions[e];
      Append(s.(executions := s.executions[e := x.(held := false)]), x.r, x.tries + 1)
        .(redeliveries := s.redeliveries + 1)
    case Cancel => s.(status := Cancelled)
    case CancelJob(e) =>
      var x := s.executions[e];
      s.(executions := s.executions[e := x.(held := false, phase := if x.phase == Waiting then Done else x.phase)])
    case CrashChecker(c) => s.(checkers := s.checkers[c := s.checkers[c].(alive := false)])
  }

  predicate Valid(s: State, run: seq<Step>)
    decreases |run|
  {
    run == [] || (CanStep(s, run[0]) && Valid(Apply(s, run[0]), run[1..]))
  }

  function Exec(s: State, run: seq<Step>): State
    requires Valid(s, run)
    decreases |run|
  {
    if run == [] then s else Exec(Apply(s, run[0]), run[1..])
  }

  function Start(): State {
    State(Pending, [], [], 0, 0, 0, 0, 0, 0)
  }

  // ----- budgets -----

  predicate IsHandingOff(c: Checker) { c.phase == HandingOff }

  predicate IsGivingUp(x: Execution) { x.phase == GivingUp }

  /** Before the last write of the row. */
  predicate Unfinished(x: Execution) { x.phase != Ending && x.phase != Done }

  /** An unfinished delivery, dead or alive, whose job the queue has not delivered
      again. */
  predicate Carries(x: Execution) { x.held && Unfinished(x) }

  /** What a delivery may still add, with all that it requeues, unless the queue
      delivers something again. */
  function ChecksLeft(x: Execution): nat {
    if x.r > MAX_RETRIES then 0
    else match x.phase
      case Waiting => 4 - x.r
      case Checking => 4 - x.r
      case Requeueing => 3 - x.r
      case _ => 0
  }

  function WaitLeft(x: Execution): nat {
    if x.r <= MAX_RETRIES && x.phase in {Waiting, Checking, Requeueing} then 80 - 10 * SmallPow2(x.r) else 0
  }

  function SendsLeft(x: Execution): nat {
    Prelude.One(x.phase in {Waiting, Checking, Requeueing, Sending})
  }

  function SmallPow2(r: nat): (p: nat)
    requires r <= MAX_RETRIES
    ensures p == Pow2(r) <= 8
  {
    assert Pow2(0) == 1 && Pow2(1) == 2 && Pow2(2) == 4 && Pow2(3) == 8;
    Pow2(r)
  }

  ghost predicate ExecutionOk(s: State, x: Execution) {
    && x.r <= MAX_RETRIES
    && (x.phase == Requeueing ==> x.r < MAX_RETRIES)
    && (x.phase == Marking ==> s.sends >= 1)
  }

  /** Every hand-off and every redelivery brings four checks, seventy seconds and one
      send; a failure brings no send, unless something threw at the last retry. */
  ghost predicate Budgets(s: State) {
    var handing, brought := Count(s.checkers, IsHandingOff), s.chains + s.redeliveries;
    && s.checks + Sum(s.executions, ChecksLeft) + 4 * handing <= 4 * brought
    && s.waited + Sum(s.executions, WaitLeft) + 70 * handing <= 70 * brought
    && s.sends + Sum(s.executions, SendsLeft) + handing <= brought
    && s.sends + Sum(s.executions, SendsLeft) + Count(s.executions, IsGivingUp) + handing
       + Prelude.One(s.status == Failed)
       <= brought + s.errors
  }

  ghost predicate Inv(s: State) {
    && Budgets(s)
    && (forall e :: 0 <= e < |s.executions| ==> ExecutionOk(s, s.executions[e]))
    && s.chains <= 1
    && (s.status == Pending ==> s.chains == 0)
    && (s.chains == 0 ==> s.executions == [] && s.redeliveries == 0 && s.status in {Pending, Cancelled})
    && (s.status == Sent ==> s.sends >= 1)
    && (s.status == Queued ==> Count(s.checkers, IsHandingOff) + Count(s.executions, Carries) >= 1)
  }

  /** How replacing one execution changes all the sums at once. */
  lemma Replace(xs: seq<Execution>, e: nat, x: Execution)
    requires e < |xs|
    ensures var ys := xs[e := x];
            && Sum(ys, ChecksLeft) + ChecksLeft(xs[e]) == Sum(xs, ChecksLeft) + ChecksLeft(x)
            && Sum(ys, WaitLeft) + WaitLeft(xs[e]) == Sum(xs, WaitLeft) + WaitLeft(x)
            && Sum(ys, SendsLeft) + SendsLeft(xs[e]) == Sum(xs, SendsLeft) + SendsLeft(x)
            && Count(ys, IsGivingUp)
               == Count(xs, IsGivingUp) - Prelude.One(IsGivingUp(xs[e])) + Prelude.One(IsGivingUp(x))
            && Count(ys, Carries) == Count(xs, Carries) - Prelude.One(Carries(xs[e])) + Prelude.One(Carries(x))
  {
    hide ChecksLeft, WaitLeft, SendsLeft;
    SumUpdate(xs, e, x, ChecksLeft);
    SumUpdate(xs, e, x, WaitLeft);
    SumUpdate(xs, e, x, SendsLeft);
    CountUpdate(xs, e, x, IsGivingUp);
    CountUpdate(xs, e, x, Carries);
  }

  lemma Added(xs: seq<Execution>, x: Execution)
    requires x.phase == Waiting && x.held
    ensures var ys := xs + [x];
            && Sum(ys, ChecksLeft) == Sum(xs, ChecksLeft) + ChecksLeft(x)
            && Sum(ys, WaitLeft) == Sum(xs, WaitLeft) + WaitLeft(x)
            && Sum(ys, SendsLeft) == Sum(xs, SendsLeft) + 1
            && Count(ys, IsGivingUp) == Count(xs, IsGivingUp)
            && Count(ys, Carries) == Count(xs, Carries) + 1
  {
    hide ChecksLeft, WaitLeft;
    SumAppend(xs, x, ChecksLeft);
    SumAppend(xs, x, WaitLeft);
    SumAppend(xs, x, SendsLeft);
    CountAppend(xs, x, IsGivingUp);
    CountAppend(xs, x, Carries);
  }

  lemma Pow2Doubles(r: nat)
    requires r < MAX_RETRIES
    ensures SmallPow2(r + 1) == 2 * SmallPow2(r) && SmallPow2(r) >= 1
  {
  }

  lemma InvChecker(s: State, step: Step)
    requires Inv(s) && CanStep(s, step)
    requires step.FindDue? || step.HandOff? || step.CrashChecker?
    ensures Inv(Apply(s, step))
  {
    hide Count, Sum;
    var t := Apply(s, step);
    if step.FindDue? {
      CountAppend(s.checkers, t.checkers[|s.checkers|], IsHandingOff);
    } else {
      CountUpdate(s.checkers, step.c, t.checkers[step.c], IsHandingOff);
    }
  }

  lemma InvPublishExecution(s: State, c: nat)
    requires Inv(s) && CanStep(s, PublishExecution(c))
    ensures Inv(Apply(s, PublishExecution(c)))
  {
    hide Count, Sum;
    var t := Apply(s, PublishExecution(c));
    CountPositive(s.checkers, c, IsHandingOff);
    CountUpdate(s.checkers, c, t.checkers[c], IsHandingOff);
    Added(s.executions, t.executions[|s.executions|]);
    assert SmallPow2(0) == 1;
  }

  lemma InvCheck(s: State, step: Step)
    requires Inv(s) && CanStep(s, step) && (step.Execute? || step.CheckSession?)
    ensures Inv(Apply(s, step))
  {
    hide Count, Sum;
    assert ExecutionOk(s, s.executions[step.e]);
    Replace(s.executions, step.e, Apply(s, step).executions[step.e]);
  }

  lemma InvSend(s: State, step: Step)
    requires Inv(s) && CanStep(s, step) && (step.PublishSend? || step.Finish?)
    ensures Inv(Apply(s, step))
  {
    hide Count, Sum;
    assert ExecutionOk(s, s.executions[step.e]);
    Replace(s.executions, step.e, Apply(s, step).executions[step.e]);
  }

  lemma InvMark(s: State, step: Step)
    requires Inv(s) && CanStep(s, step) && (step.MarkSent? || step.MarkFailed?)
    ensures Inv(Apply(s, step))
  {
    hide Count, Sum;
    assert ExecutionOk(s, s.executions[step.e]);
    Replace(s.executions, step.e, Apply(s, step).executions[step.e]);
  }

  lemma InvThrow(s: State, step: Step)
    requires Inv(s) && CanStep(s, step) && step.Throw?
    ensures Inv(Apply(s, step))
  {
    hide Count, Sum;
    assert ExecutionOk(s, s.executions[step.e]);
    Replace(s.executions, step.e, Apply(s, step).executions[step.e]);
  }

  lemma InvCrash(s: State, step: Step)
    requires Inv(s) && CanStep(s, step) && step.CrashExecution?
    ensures Inv(Apply(s, step))
  {
    hide Count, Sum;
    assert ExecutionOk(s, s.executions[step.e]);
    Replace(s.executions, step.e, Apply(s, step).executions[step.e]);
  }

  lemma InvCancelJob(s: State, step: Step)
    requires Inv(s) && CanStep(s, step) && step.CancelJob?
    ensures Inv(Apply(s, step))
  {
    hide Count, Sum;
    assert ExecutionOk(s, s.executions[step.e]);
    Replace(s.executions, step.e, Apply(s, step).executions[step.e]);
  }

  lemma InvRequeue(s: State, e: nat)
    requires Inv(s) && CanStep(s, Requeue(e))
    ensures Inv(Apply(s, Requeue(e)))
  {
    hide Count, Sum;
    var x := s.executions[e];
    assert ExecutionOk(s, x);
    Pow2Doubles(x.r);
    Replace(s.executions, e, x.(phase := Ending));
    Added(s.executions[e := x.(phase := Ending)], Execution(x.r + 1, 0, true, Waiting, true));
  }

  lemma InvRedeliver(s: State, e: nat)
    requires Inv(s) && CanStep(s, Redeliver(e))
    ensures Inv(Apply(s, Redeliver(e)))
  {
    hide Count, Sum;
    var x := s.executions[e];
    assert ExecutionOk(s, x);
    Replace(s.executions, e, x.(held := false));
    Added(s.executions[e := x.(held := false)], Execution(x.r, x.tries + 1, true, Waiting, true));
    assert SmallPow2(x.r) >= 1;
  }

  lemma InvStep(s: State, step: Step)
    requires Inv(s) && CanStep(s, step)
    ensures Inv(Apply(s, step))
  {
    if step.FindDue? || step.HandOff? || step.CrashChecker? {
      InvChecker(s, step);
    } else if step.PublishExecution? {
      InvPublishExecution(s, step.c);
    } else if step.Requeue? {
      InvRequeue(s, step.e);
    } else if step.Redeliver? {
      InvRedeliver(s, step.e);
    } else if step.Throw? {
      InvThrow(s, step);
    } else if step.CrashExecution? {
      InvCrash(s, step);
    } else if step.CancelJob? {
      InvCancelJob(s, step);
    } else if step.Execute? || step.CheckSession? {
      InvCheck(s, step);
    } else if step.PublishSend? || step.Finish? {
      InvSend(s, step);
    } else if !step.Cancel? {
      InvMark(s, step);
    }
  }

  lemma {:induction false} InvRun(s: State, run: seq<Step>)
    requires Inv(s) && Valid(s, run)
    ensures Inv(Exec(s, run))
    decreases |run|
  {
    if run != [] {
      InvStep(s, run[0]);
      InvRun(Apply(s, run[0]), run[1..]);
    }
  }
}
