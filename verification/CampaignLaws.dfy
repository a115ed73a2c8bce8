/** What decides, over every run of a campaign, which status a recipient gets: each
    status is given to no more recipients than something calls for. */
module CampaignLaws {
  import opened Prelude
  import opened Counting
  import opened CampaignRun
  import opened CampaignProofs

  // The steps that call for a status, or for a message.

  predicate TellsSent(step: Step) { step.Arrive? && step.kind == SentEvent }

  predicate TellsDelivered(step: Step) { step.Arrive? && step.kind == DeliveredEvent }

  predicate TellsFailure(step: Step) {
    step.Arrive? && (step.kind == FailedEvent(true) || step.kind == DeadLetterEvent)
  }

  predicate WritesFailure(step: Step) { step.WriteFailed? }

  predicate FindsValid(step: Step) { step.CheckContact? && step.valid }

  predicate FindsInvalid(step: Step) { step.CheckContact? && !step.valid }

  // Recipients of a status, and those on their way to it.

  predicate IsSent(r: Recipient) { r.status == SentOn }

  predicate IsDelivered(r: Recipient) { r.status == DeliveredOn }

  predicate IsFailed(r: Recipient) { r.status == FailedOn }

  predicate IsSkipped(r: Recipient) { r.status == Skipped }

  predicate WillSend(c: Check) { c.Updating? && c.kind == SentEvent }

  predicate WillDeliver(c: Check) { c.Updating? && c.kind == DeliveredEvent }

  predicate WillFail(c: Check) { c.Updating? && (c.kind == FailedEvent(true) || c.kind == DeadLetterEvent) }

  predicate WillSkip(w: Worker) { w.phase == Skipping }

  predicate WillCreate(w: Worker) { w.phase == ContactOk || w.phase == NoMessage }

  ghost function SentCount(s: State): nat { Count(s.recipients, IsSent) + Count(s.checks, WillSend) }

  ghost function DeliveredCount(s: State): nat { Count(s.recipients, IsDelivered) + Count(s.checks, WillDeliver) }

  ghost function FailedCount(s: State): nat { Count(s.recipients, IsFailed) + Count(s.checks, WillFail) }

  ghost function SkippedCount(s: State): nat { Count(s.recipients, IsSkipped) + Count(s.workers, WillSkip) }

  ghost function MessageCount(s: State): nat { |s.messages| + Count(s.workers, WillCreate) }

  // ----- how a step changes counts -----

  ghost function RecipientsMore(s: State, step: Step, kind: Recipient -> bool): int
    requires CanStep(s, step)
  {
    Count(Apply(s, step).recipients, kind) - Count(s.recipients, kind)
  }

  lemma RecipientsChange(s: State, step: Step, kind: Recipient -> bool)
    requires CanStep(s, step)
    ensures !Edits(s, step) ==> RecipientsMore(s, step, kind) == 0
    ensures Edits(s, step) ==>
              var r := EditedRecipient(s, step);
              && r < |s.recipients| == |Apply(s, step).recipients|
              && RecipientsMore(s, step, kind) == One(kind(Apply(s, step).recipients[r])) - One(kind(s.recipients[r]))
  {
    hide Count;
    if Edits(s, step) {
      var r := EditedRecipient(s, step);
      CountUpdate(s.recipients, r, Apply(s, step).recipients[r], kind);
    }
  }

  ghost function ChecksMore(s: State, step: Step, kind: Check -> bool): int
    requires CanStep(s, step)
  {
    Count(Apply(s, step).checks, kind) - Count(s.checks, kind)
  }

  lemma ChecksChange(s: State, step: Step, kind: Check -> bool)
    requires CanStep(s, step)
    ensures WorkerStep(step) || ExecutorStep(step) ==> ChecksMore(s, step, kind) == 0
    ensures step.Arrive? ==> ChecksMore(s, step, kind) == One(kind(Apply(s, step).checks[|s.checks|]))
    ensures !WorkerStep(step) && !ExecutorStep(step) && !step.Arrive? ==>
              ChecksMore(s, step, kind) == One(kind(Apply(s, step).checks[step.c])) - One(kind(s.checks[step.c]))
  {
    hide Count;
    if step.Arrive? {
      CountAppend(s.checks, Apply(s, step).checks[|s.checks|], kind);
    } else if !WorkerStep(step) && !ExecutorStep(step) {
      CountUpdate(s.checks, step.c, Apply(s, step).checks[step.c], kind);
    }
  }

  ghost function WorkersMore(s: State, step: Step, kind: Worker -> bool): int
    requires CanStep(s, step)
  {
    Count(Apply(s, step).workers, kind) - Count(s.workers, kind)
  }

  lemma WorkersChange(s: State, step: Step, kind: Worker -> bool)
    requires CanStep(s, step)
    ensures !WorkerStep(step) ==> WorkersMore(s, step, kind) == 0
    ensures step.OpenBatch? ==> WorkersMore(s, step, kind) == One(kind(Worker(step.batch, Opened, [], true)))
    ensures WorkerStep(step) && !step.OpenBatch? ==>
              WorkersMore(s, step, kind) == One(kind(Apply(s, step).workers[step.w])) - One(kind(s.workers[step.w]))
  {
    hide Count;
    if step.OpenBatch? {
      CountAppend(s.workers, Worker(step.batch, Opened, [], true), kind);
    } else if WorkerStep(step) {
      CountUpdate(s.workers, step.w, Apply(s, step).workers[step.w], kind);
    }
  }

  // ----- the laws -----

  lemma SentStep(s: State, step: Step)
    requires CanStep(s, step)
    ensures SentCount(Apply(s, step)) <= SentCount(s) + One(TellsSent(step))
  {
    hide Count;
    RecipientsChange(s, step, IsSent);
    ChecksChange(s, step, WillSend);
  }

  lemma DeliveredStep(s: State, step: Step)
    requires CanStep(s, step)
    ensures DeliveredCount(Apply(s, step)) <= DeliveredCount(s) + One(TellsDelivered(step))
  {
    hide Count;
    RecipientsChange(s, step, IsDelivered);
    ChecksChange(s, step, WillDeliver);
  }

  lemma FailedStep(s: State, step: Step)
    requires CanStep(s, step)
    ensures FailedCount(Apply(s, step)) <= FailedCount(s) + One(TellsFailure(step)) + One(WritesFailure(step))
  {
    hide Count;
    RecipientsChange(s, step, IsFailed);
    ChecksChange(s, step, WillFail);
  }

  lemma SkippedStep(s: State, step: Step)
    requires CanStep(s, step)
    ensures SkippedCount(Apply(s, step)) <= SkippedCount(s) + One(FindsInvalid(step))
  {
    hide Count;
    RecipientsChange(s, step, IsSkipped);
    WorkersChange(s, step, WillSkip);
  }

  lemma MessageStep(s: State, step: Step)
    requires CanStep(s, step)
    ensures MessageCount(Apply(s, step)) <= MessageCount(s) + One(FindsValid(step))
  {
    hide Count;
    WorkersChange(s, step, WillCreate);
  }

  lemma NoneCounted()
    ensures Count([], TellsSent) == Count([], TellsDelivered) == Count([], TellsFailure) == 0
    ensures Count([], WritesFailure) == Count([], FindsValid) == Count([], FindsInvalid) == 0
  {
  }

  lemma {:induction false} LawsRun(s: State, run: seq<Step>)
    requires Valid(s, run)
    ensures var t := Exec(s, run);
            && SentCount(t) <= SentCount(s) + Count(run, TellsSent)
            && DeliveredCount(t) <= DeliveredCount(s) + Count(run, TellsDelivered)
            && FailedCount(t) <= FailedCount(s) + Count(run, TellsFailure) + Count(run, WritesFailure)
            && SkippedCount(t) <= SkippedCount(s) + Count(run, FindsInvalid)
            && MessageCount(t) <= MessageCount(s) + Count(run, FindsValid)
    decreases |run|
  {
    hide Count, SentCount, DeliveredCount, FailedCount, SkippedCount, MessageCount;
    if run == [] {
      NoneCounted();
    } else {
      SentStep(s, run[0]);
      DeliveredStep(s, run[0]);
      FailedStep(s, run[0]);
      SkippedStep(s, run[0]);
      MessageStep(s, run[0]);
      CountFirst(run, TellsSent);
      CountFirst(run, TellsDelivered);
      CountFirst(run, TellsFailure);
      CountFirst(run, WritesFailure);
      CountFirst(run, FindsInvalid);
      CountFirst(run, FindsValid);
      LawsRun(Apply(s, run[0]), run[1..]);
    }
  }

  lemma NothingYet(s: State)
    requires Fresh(s)
    ensures SentCount(s) == DeliveredCount(s) == FailedCount(s) == SkippedCount(s) == MessageCount(s) == 0
  {
    CountZero(s.recipients, IsSent);
    CountZero(s.recipients, IsDelivered);
    CountZero(s.recipients, IsFailed);
    CountZero(s.recipients, IsSkipped);
  }

  /** Over every run, with `Count` counting its steps: no more recipients are SENT than
      events say so, nor DELIVERED, nor FAILED than events and exceptions say so, nor
      SKIPPED than contacts were found invalid; and no more messages than valid ones. */
  lemma EventsDecide(s: State, run: seq<Step>)
    requires Fresh(s) && Valid(s, run)
    ensures var t := Exec(s, run);
            && Count(t.recipients, IsSent) <= Count(run, TellsSent)
            && Count(t.recipients, IsDelivered) <= Count(run, TellsDelivered)
            && Count(t.recipients, IsFailed) <= Count(run, TellsFailure) + Count(run, WritesFailure)
            && Count(t.recipients, IsSkipped) <= Count(run, FindsInvalid)
            && |t.messages| <= Count(run, FindsValid)
  {
    LawsRun(s, run);
    NothingYet(s);
  }

  /** So without a failure event, a dead letter or an exception nobody is ever FAILED. */
  lemma NobodyFails(s: State, run: seq<Step>)
    requires Fresh(s) && Valid(s, run)
    requires forall i :: 0 <= i < |run| ==>
               && !run[i].WriteFailed?
               && (run[i].Arrive? ==> run[i].kind in {SentEvent, DeliveredEvent, ReadEvent, FailedEvent(false)})
    ensures forall r :: 0 <= r < |Exec(s, run).recipients| ==> Exec(s, run).recipients[r].status != FailedOn
  {
    EventsDecide(s, run);
    CountZero(run, TellsFailure);
    CountZero(run, WritesFailure);
    var t := Exec(s, run);
    forall r | 0 <= r < |t.recipients|
      ensures t.recipients[r].status != FailedOn
    {
      if IsFailed(t.recipients[r]) {
        CountPositive(t.recipients, r, IsFailed);
      }
    }
  }
}
