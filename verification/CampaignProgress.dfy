/** What holds a campaign up: a queued recipient about whose message no event comes. */
module CampaignProgress {
  import opened Prelude
  import opened Counting
  import opened CampaignRun
  import opened CampaignProofs
  import opened CampaignTheorems

  /** No live worker is at recipient r any more. */
  predicate Left(s: State, r: nat) {
    forall i :: 0 <= i < |s.workers| && s.workers[i].alive && s.workers[i].todo != [] ==> s.workers[i].todo[0] != r
  }

  /** No event handler is about to write recipient r. */
  predicate Unaddressed(s: State, r: nat) {
    forall c :: 0 <= c < |s.checks| && s.checks[c].Updating? ==> s.checks[c].r != r
  }

  /** Recipient r is QUEUED and only an event about its message can change that. */
  predicate Waiting(s: State, r: nat) {
    r < |s.recipients| && s.recipients[r].status == Enqueued && Left(s, r) && Unaddressed(s, r)
  }

  lemma NextIsAnother(s: State, w: nat, r: nat)
    requires Inv(s) && r < |s.recipients| && s.recipients[r].status == Enqueued
    requires w < |s.workers| && s.workers[w].alive && s.workers[w].phase != Opened && |s.workers[w].todo| >= 2
    ensures s.workers[w].todo[1] != r
  {
    assert WorkerOk(s.recipients, s.messages, s.workers[w]);
  }

  /** Which workers have moved on to another recipient. */
  lemma CurrentAfter(s: State, step: Step, i: nat)
    requires CanStep(s, step) && i < |Apply(s, step).workers|
    ensures var w := Apply(s, step).workers[i];
            || w.todo == []
            || (i < |s.workers| && s.workers[i].todo != [] && w.todo[0] == s.workers[i].todo[0]
                && s.workers[i].alive == w.alive)
            || !w.alive
            || (i < |s.workers| && |s.workers[i].todo| >= 2 && w.todo[0] == s.workers[i].todo[1] && s.workers[i].alive
                && s.workers[i].phase != Opened)
            || step == LoadPending(i)
  {
  }

  lemma LeftStep(s: State, step: Step, r: nat)
    requires Inv(s) && CanStep(s, step) && Waiting(s, r)
    ensures Left(Apply(s, step), r)
  {
    hide Inv;
    var t := Apply(s, step);
    forall i | 0 <= i < |t.workers| && t.workers[i].alive && t.workers[i].todo != []
      ensures t.workers[i].todo[0] != r
    {
      CurrentAfter(s, step, i);
      if i < |s.workers| && s.workers[i].alive && s.workers[i].phase != Opened && |s.workers[i].todo| >= 2 {
        NextIsAnother(s, i, r);
      }
    }
  }

  lemma WaitingStep(s: State, step: Step, r: nat)
    requires Inv(s) && CanStep(s, step) && Waiting(s, r) && !(step.Arrive? && step.r == r)
    ensures Waiting(Apply(s, step), r)
  {
    LeftStep(s, step, r);
    TableStep(s, step);
    if Edits(s, step) {
      assert EditedRecipient(s, step) != r;
    }
  }

  /** As long as no event about its message arrives the recipient stays QUEUED, and
      unless an executor completes it blindly the campaign is not completed, whatever
      workers, other events and executors do. Recovery that gives a message up sends
      no such event. */
  lemma {:induction false} HeldUp(s: State, run: seq<Step>, r: nat)
    requires Inv(s) && CompletionOk(s) && Waiting(s, r) && Valid(s, run)
    requires Count(s.executors, HasWritten) == 0
    requires forall i :: 0 <= i < |run| ==> !run[i].WriteBlindly? && !(run[i].Arrive? && run[i].r == r)
    ensures Waiting(Exec(s, run), r) && Exec(s, run).status != Completed
    decreases |run|
  {
    CountPositive(s.recipients, r, IsActive);
    if run != [] {
      WaitingStep(s, run[0], r);
      InvStep(s, run[0]);
      CompletionStep(s, run[0]);
      NoneWritten(s, run[0]);
      HeldUp(Apply(s, run[0]), run[1..], r);
    }
  }

  lemma NoneWritten(s: State, step: Step)
    requires CompletionOk(s) && CanStep(s, step) && Count(s.executors, HasWritten) == 0 && !step.WriteBlindly?
    ensures Count(Apply(s, step).executors, HasWritten) == 0
  {
    hide Count;
    var t := Apply(s, step);
    if step.StartExecutor? {
      CountAppend(s.executors, Looking, HasWritten);
    } else if step.LookForPending? || step.AnnounceBlindly? {
      CountUpdate(s.executors, step.x, t.executors[step.x], HasWritten);
      if step.AnnounceBlindly? {
        CountPositive(s.executors, step.x, HasWritten);
      }
    }
  }

  /** And an event is enough: if it is the last one left, a SENT event about it
      completes a running campaign. */
  lemma CompletesOnEvent(s: State, r: nat) returns (run: seq<Step>)
    requires s.status == Running && r < |s.recipients| && s.recipients[r].message.Some?
    requires IsActive(s.recipients[r]) && Active(s) == 1
    ensures Valid(s, run) && Exec(s, run).status == Completed && Active(Exec(s, run)) == 0
  {
    hide Count;
    var c := |s.checks|;
    var sent := s.recipients[r].(status := SentOn);
    CountUpdate(s.recipients, r, sent, IsActive);
    Extend(s, [], Arrive(r, SentEvent));
    run := [] + [Arrive(r, SentEvent)];
    Extend(s, run, UpdateRecipient(c));
    run := run + [UpdateRecipient(c)];
    assert Exec(s, run).recipients == s.recipients[r := sent];
    Extend(s, run, ReadCampaign(c));
    run := run + [ReadCampaign(c)];
    Extend(s, run, CountLeft(c));
    run := run + [CountLeft(c)];
    Extend(s, run, CompareAndComplete(c));
    run := run + [CompareAndComplete(c)];
  }
}
