/** The code of the campaign event handlers: each looks up the recipient of a
    message, may write its status, and then checks for completion. */
module CampaignEvents {
  import opened Prelude
  import opened Counting
  import opened CampaignRun
  import CampaignTheorems

  /** The recipient this message is linked to. */
  function RecipientOf(recipients: seq<Recipient>, m: nat): (r: Option<nat>)
    ensures r.Some? ==> r.value < |recipients| && recipients[r.value].message == Some(m)
    ensures r.None? ==> !IsLinked(recipients, m)
  {
    if recipients == [] then None
    else if recipients[|recipients| - 1].message == Some(m) then Some(|recipients| - 1)
    else RecipientOf(recipients[..|recipients| - 1], m)
  }

  /** The recipient table after the event's own write. */
  function TableAfter(recipients: seq<Recipient>, r: nat, kind: EventKind): seq<Recipient>
    requires r < |recipients|
  {
    var written := Written(kind, recipients[r].status);
    if written.Some? then recipients[r := recipients[r].(status := written.value)] else recipients
  }

  predicate Completes(s: State, r: nat, kind: EventKind)
    requires r < |s.recipients|
  {
    kind != FailedEvent(false) && s.status == Running && Count(TableAfter(s.recipients, r, kind), IsActive) == 0
  }

  /** The statements of one handler run that nothing interferes with. */
  function Script(s: State, r: nat, kind: EventKind): seq<Step>
    requires r < |s.recipients|
  {
    var c := |s.checks|;
    if kind == FailedEvent(false) then [Arrive(r, kind), UpdateRecipient(c)]
    else if s.status != Running then [Arrive(r, kind), UpdateRecipient(c), ReadCampaign(c)]
    else if !Completes(s, r, kind) then [Arrive(r, kind), UpdateRecipient(c), ReadCampaign(c), CountLeft(c)]
    else [Arrive(r, kind), UpdateRecipient(c), ReadCampaign(c), CountLeft(c), CompareAndComplete(c), EmitCompleted(c)]
  }

  lemma Cons(s: State, step: Step, rest: seq<Step>)
    requires CanStep(s, step) && Valid(Apply(s, step), rest)
    ensures Valid(s, [step] + rest) && Exec(s, [step] + rest) == Exec(Apply(s, step), rest)
  {
    assert ([step] + rest)[1..] == rest;
  }

  /** Compare-and-set and announcement, with nobody left. */
  lemma CompleteEffect(s: State, c: nat)
    requires c < |s.checks| && s.checks[c].Completing? && s.status == Running
    ensures Valid(s, [CompareAndComplete(c), EmitCompleted(c)])
    ensures Exec(s, [CompareAndComplete(c), EmitCompleted(c)])
            == s.(checks := s.checks[c := Idle], status := Completed, transitions := s.transitions + 1,
                  emitted := s.emitted + 1)
  {
    var s1 := Apply(s, CompareAndComplete(c));
    Cons(s1, EmitCompleted(c), []);
    Cons(s, CompareAndComplete(c), [EmitCompleted(c)] + []);
    assert [CompareAndComplete(c)] + ([EmitCompleted(c)] + []) == [CompareAndComplete(c), EmitCompleted(c)];
    assert s.checks[c := Emitting][c := Idle] == s.checks[c := Idle];
  }

  lemma CountEffect(s: State, c: nat) returns (run: seq<Step>)
    requires c < |s.checks| && s.checks[c].CountingLeft? && s.status == Running
    ensures run == [CountLeft(c)] + if Active(s) > 0 then [] else [CompareAndComplete(c), EmitCompleted(c)]
    ensures Valid(s, run)
    ensures Exec(s, run)
            == if Active(s) == 0
               then s.(checks := s.checks[c := Idle], status := Completed, transitions := s.transitions + 1,
                       emitted := s.emitted + 1)
               else s.(checks := s.checks[c := Idle])
  {
    hide Count;
    var s1 := Apply(s, CountLeft(c));
    run := [];
    if Active(s) == 0 {
      CompleteEffect(s1, c);
      run := [CompareAndComplete(c), EmitCompleted(c)];
      assert s.checks[c := Completing][c := Idle] == s.checks[c := Idle];
    }
    Cons(s, CountLeft(c), run);
    run := [CountLeft(c)] + run;
  }

  /** From the campaign read on. */
  lemma CheckEffect(s: State, c: nat) returns (run: seq<Step>)
    requires c < |s.checks| && s.checks[c].Reading?
    ensures run == [ReadCampaign(c)] + if s.status != Running then []
                                       else if Active(s) > 0 then [CountLeft(c)]
                                       else [CountLeft(c), CompareAndComplete(c), EmitCompleted(c)]
    ensures Valid(s, run)
    ensures Exec(s, run)
            == if s.status == Running && Active(s) == 0
               then s.(checks := s.checks[c := Idle], status := Completed, transitions := s.transitions + 1,
                       emitted := s.emitted + 1)
               else s.(checks := s.checks[c := Idle])
  {
    hide Count;
    var s1 := Apply(s, ReadCampaign(c));
    run := [];
    if s.status == Running {
      run := CountEffect(s1, c);
      assert s.checks[c := CountingLeft][c := Idle] == s.checks[c := Idle];
    }
    Cons(s, ReadCampaign(c), run);
    run := [ReadCampaign(c)] + run;
  }

  /** Up to and including the event's own write. */
  lemma WriteEffect(s: State, r: nat, kind: EventKind, rest: seq<Step>)
    requires r < |s.recipients| && s.recipients[r].message.Some?
    requires Valid(AfterWrite(s, r, kind), rest)
    ensures Valid(s, [Arrive(r, kind), UpdateRecipient(|s.checks|)] + rest)
    ensures Exec(s, [Arrive(r, kind), UpdateRecipient(|s.checks|)] + rest) == Exec(AfterWrite(s, r, kind), rest)
  {
    var c := |s.checks|;
    var s1 := Apply(s, Arrive(r, kind));
    assert Apply(s1, UpdateRecipient(c)) == AfterWrite(s, r, kind);
    Cons(s1, UpdateRecipient(c), rest);
    Cons(s, Arrive(r, kind), [UpdateRecipient(c)] + rest);
    assert [Arrive(r, kind), UpdateRecipient(c)] + rest == [Arrive(r, kind)] + ([UpdateRecipient(c)] + rest);
  }

  function AfterWrite(s: State, r: nat, kind: EventKind): State
    requires r < |s.recipients|
  {
    s.(recipients := TableAfter(s.recipients, r, kind),
       checks := s.checks + [if kind == FailedEvent(false) then Idle else Reading])
  }

  /** An undisturbed handler run is a run of the campaign; it completes the campaign
      exactly if its own write leaves nobody PENDING or QUEUED. */
  lemma ScriptEffect(s: State, r: nat, kind: EventKind)
    requires r < |s.recipients| && s.recipients[r].message.Some?
    ensures Valid(s, Script(s, r, kind))
    ensures var t := Exec(s, Script(s, r, kind));
            && t.recipients == TableAfter(s.recipients, r, kind)
            && t == s.(recipients := t.recipients, checks := s.checks + [Idle],
                       status := if Completes(s, r, kind) then Completed else s.status,
                       transitions := s.transitions + One(Completes(s, r, kind)),
                       emitted := s.emitted + One(Completes(s, r, kind)))
  {
    hide TableAfter, Apply;
    var rest: seq<Step> := [];
    if kind != FailedEvent(false) {
      rest := CheckEffect(AfterWrite(s, r, kind), |s.checks|);
    }
    WriteEffect(s, r, kind, rest);
    assert Script(s, r, kind) == [Arrive(r, kind), UpdateRecipient(|s.checks|)] + rest;
  }

  /** t is s after a handler run for an event about message m; an event about a
      message that is not the campaign's changes nothing. */
  ghost predicate Follows(s: State, t: State, m: nat, kind: EventKind) {
    var r := RecipientOf(s.recipients, m);
    if r.None? then t == s
    else Valid(s, Script(s, r.value, kind)) && t == Exec(s, Script(s, r.value, kind)).(checks := s.checks)
  }

  /** A recipient linked to message m gets this status; everybody else stays. */
  ghost predicate Becomes(before: seq<Recipient>, after: seq<Recipient>, m: nat, status: RecipientStatus) {
    exists r :: 0 <= r < |before| && before[r].message == Some(m) && after == before[r := before[r].(status := status)]
  }

  ghost predicate NobodyActive(recipients: seq<Recipient>) {
    forall r :: 0 <= r < |recipients| ==> recipients[r].status != Pending && recipients[r].status != Enqueued
  }

  /** The campaign is completed and announced exactly if it was running and nobody is
      PENDING or QUEUED now. */
  ghost predicate CompletesIfDone(before: State, after: State) {
    var done := before.status == Running && NobodyActive(after.recipients);
    && after.status == (if done then Completed else before.status)
    && after.transitions == before.transitions + One(done) && after.emitted == before.emitted + One(done)
  }

  lemma NobodyActiveIff(recipients: seq<Recipient>)
    ensures NobodyActive(recipients) <==> Count(recipients, IsActive) == 0
  {
    if NobodyActive(recipients) {
      CountZero(recipients, IsActive);
    } else {
      var r :| 0 <= r < |recipients| && IsActive(recipients[r]);
      CountPositive(recipients, r, IsActive);
    }
  }

  class CampaignEventsHandler {
    var recipients: seq<Recipient>
    var status: CampaignStatus
    var transitions: nat
    var emitted: nat

    constructor (table: seq<Recipient>)
      ensures recipients == table && status == Running && transitions == 0 && emitted == 0
    {
      recipients, status, transitions, emitted := table, Running, 0, 0;
    }

    function Current(): State
      reads this
    {
      State(recipients, status, [], {}, 0, [], [], [], transitions, emitted)
    }

    method EmitProgressAndCheckCompletion()
      modifies this`status, this`transitions, this`emitted
      ensures CompletesIfDone(old(Current()), Current())
      ensures var done := old(status) == Running && Count(recipients, IsActive) == 0;
              && status == (if done then Completed else old(status))
              && transitions == old(transitions) + One(done) && emitted == old(emitted) + One(done)
    {
      NobodyActiveIff(recipients);
      if status != Running {
        return;
      }
      var pending := Count(recipients, IsPending) + Count(recipients, IsEnqueued);
      CampaignTheorems.ActiveSplits(recipients);
      if pending == 0 {
        var transitioned := status == Running;
        if transitioned {
          status := Completed;
          transitions := transitions + 1;
          emitted := emitted + 1;
        }
      }
    }

    method HandleMessageSent(m: nat)
      modifies this
      ensures Follows(old(Current()), Current(), m, SentEvent)
      ensures !IsLinked(old(recipients), m) ==> unchanged(this)
      ensures IsLinked(old(recipients), m) ==>
                Becomes(old(recipients), recipients, m, SentOn) && CompletesIfDone(old(Current()), Current())
    {
      var recipient := RecipientOf(recipients, m);
      if recipient.None? {
        return;
      }
      ScriptEffect(Current(), recipient.value, SentEvent);
      recipients := recipients[recipient.value := recipients[recipient.value].(status := SentOn)];
      EmitProgressAndCheckCompletion();
    }

    method HandleMessageDelivered(m: nat)
      modifies this
      ensures Follows(old(Current()), Current(), m, DeliveredEvent)
      ensures !IsLinked(old(recipients), m) ==> unchanged(this)
      ensures IsLinked(old(recipients), m) ==>
                Becomes(old(recipients), recipients, m, DeliveredOn) && CompletesIfDone(old(Current()), Current())
    {
      var recipient := RecipientOf(recipients, m);
      if recipient.None? {
        return;
      }
      ScriptEffect(Current(), recipient.value, DeliveredEvent);
      recipients := recipients[recipient.value := recipients[recipient.value].(status := DeliveredOn)];
      EmitProgressAndCheckCompletion();
    }

    method HandleMessageRead(m: nat)
      modifies this
      ensures Follows(old(Current()), Current(), m, ReadEvent)
      ensures !IsLinked(old(recipients), m) ==> unchanged(this)
      ensures IsLinked(old(recipients), m) ==>
                recipients == old(recipients) && CompletesIfDone(old(Current()), Current())
    {
      var recipient := RecipientOf(recipients, m);
      if recipient.None? {
        return;
      }
      ScriptEffect(Current(), recipient.value, ReadEvent);
      EmitProgressAndCheckCompletion();
    }

    method HandleMessageFailed(m: nat, retryCount: nat)
      modifies this
      ensures Follows(old(Current()), Current(), m, FailedEvent(retryCount >= 3))
      ensures !IsLinked(old(recipients), m) ==> unchanged(this)
      ensures retryCount < 3 ==> unchanged(this)
      ensures IsLinked(old(recipients), m) && retryCount >= 3 ==>
                Becomes(old(recipients), recipients, m, FailedOn) && CompletesIfDone(old(Current()), Current())
    {
      var recipient := RecipientOf(recipients, m);
      if recipient.None? {
        return;
      }
      ScriptEffect(Current(), recipient.value, FailedEvent(retryCount >= 3));
      if retryCount >= 3 {
        recipients := recipients[recipient.value := recipients[recipient.value].(status := FailedOn)];
        EmitProgressAndCheckCompletion();
      }
    }

    method HandleMessageDeadLettered(m: nat)
      modifies this
      ensures Follows(old(Current()), Current(), m, DeadLetterEvent)
      ensures !IsLinked(old(recipients), m) ==> unchanged(this)
      ensures IsLinked(old(recipients), m) ==>
                Becomes(old(recipients), recipients, m, FailedOn) && CompletesIfDone(old(Current()), Current())
    {
      var recipient := RecipientOf(recipients, m);
      if recipient.None? {
        return;
      }
      ScriptEffect(Current(), recipient.value, DeadLetterEvent);
      if recipients[recipient.value].status != FailedOn {
        recipients := recipients[recipient.value := recipients[recipient.value].(status := FailedOn)];
      }
      EmitProgressAndCheckCompletion();
    }
  }
}
