/** What every step, and hence every run, of a campaign keeps. */
module CampaignProofs {
  import opened Prelude
  import opened Counting
  import opened CampaignRun

  // ----- the recipient table -----

  /** rs' is rs with one recipient changed that did not become PENDING, keeping its
      batch and contact, and its link if it had one. */
  ghost predicate Edited(rs: seq<Recipient>, rs': seq<Recipient>, r: nat) {
    && r < |rs| == |rs'|
    && rs' == rs[r := rs'[r]]
    && rs'[r].batch == rs[r].batch && rs'[r].contact == rs[r].contact
    && rs'[r].status != Pending
    && (rs[r].message.Some? ==> rs'[r].message == rs[r].message)
  }

  lemma LinkedStays(rs: seq<Recipient>, rs': seq<Recipient>, r: nat, m: nat)
    requires Edited(rs, rs', r) && IsLinked(rs, m)
    ensures IsLinked(rs', m)
  {
    var i :| 0 <= i < |rs| && rs[i].message == Some(m);
    assert rs'[i].message == Some(m);
  }

  /** A worker is not disturbed by an edit of a recipient outside its batch or no
      longer PENDING, nor by new messages. */
  lemma Undisturbed(rs: seq<Recipient>, ms: seq<nat>, rs': seq<Recipient>, ms': seq<nat>, r: nat, w: Worker)
    requires WorkerOk(rs, ms, w) && Edited(rs, rs', r) && ms <= ms'
    requires rs[r].batch != w.batch || rs[r].status != Pending
    requires rs[r].batch == w.batch ==> rs'[r].message == rs[r].message || w.todo == []
    ensures WorkerOk(rs', ms', w)
  {
  }

  lemma UndisturbedByMessages(rs: seq<Recipient>, ms: seq<nat>, ms': seq<nat>, w: Worker)
    requires WorkerOk(rs, ms, w) && ms <= ms'
    ensures WorkerOk(rs, ms', w)
  {
  }

  /** Finishing the current recipient. */
  lemma Advanced(rs: seq<Recipient>, ms: seq<nat>, rs': seq<Recipient>, w: Worker)
    requires w.alive && w.phase != Opened && w.todo != [] && TodoOk(rs, w)
    requires Edited(rs, rs', w.todo[0])
    ensures WorkerOk(rs', ms, w.(phase := Picking, todo := w.todo[1..]))
  {
    var v := w.(phase := Picking, todo := w.todo[1..]);
    forall r: nat | r < |rs'| && rs'[r].batch == v.batch && rs'[r].status == Pending
      ensures r in v.todo
    {
      assert r in w.todo && r != w.todo[0];
    }
  }

  lemma AdvancedUnchanged(rs: seq<Recipient>, ms: seq<nat>, w: Worker)
    requires w.alive && w.phase != Opened && w.todo != [] && TodoOk(rs, w) && rs[w.todo[0]].status != Pending
    ensures WorkerOk(rs, ms, w.(phase := Picking, todo := w.todo[1..]))
  {
    assert Edited(rs, rs, w.todo[0]);
    Advanced(rs, ms, rs, w);
  }

  // ----- the workers -----

  lemma ReplaceWorker(s: State, t: State, w: nat)
    requires WorkersOk(s) && w < |s.workers| && |t.workers| == |s.workers| && t.workers == s.workers[w := t.workers[w]]
    requires t.workers[w].batch == s.workers[w].batch && (Busy(t.workers[w]) ==> Busy(s.workers[w]))
    requires WorkerOk(t.recipients, t.messages, t.workers[w])
    requires forall i :: 0 <= i < |s.workers| && i != w ==> WorkerOk(t.recipients, t.messages, s.workers[i])
    ensures WorkersOk(t)
  {
  }

  /** Editing one's current recipient leaves the other workers alone. */
  lemma OthersAfterEdit(s: State, w: nat, rs': seq<Recipient>)
    requires WorkersOk(s) && HasCurrent(s, w) && Busy(s.workers[w]) && s.workers[w].phase != Opened
    requires Edited(s.recipients, rs', s.workers[w].todo[0])
    ensures forall i :: 0 <= i < |s.workers| && i != w ==> WorkerOk(rs', s.messages, s.workers[i])
  {
    var r := s.workers[w].todo[0];
    assert WorkerOk(s.recipients, s.messages, s.workers[w]);
    forall i | 0 <= i < |s.workers| && i != w
      ensures WorkerOk(rs', s.messages, s.workers[i])
    {
      var v := s.workers[i];
      assert WorkerOk(s.recipients, s.messages, v);
      if v.alive && v.phase != Opened {
        if v.phase == Finished && v.batch == s.recipients[r].batch {
          assert s.recipients[r].status != Pending;
        }
        Undisturbed(s.recipients, s.messages, rs', s.messages, r, v);
      }
    }
  }

  /** A worker between two statements that change nothing it depends on. */
  lemma Rephased(rs: seq<Recipient>, ms: seq<nat>, w: Worker, phase: WorkerPhase)
    requires WorkerOk(rs, ms, w) && w.alive && w.todo != []
    requires || (w.phase == Picking && phase in {ContactOk, Skipping})
             || (w.phase.Linked? && phase == Published(w.phase.m))
    ensures WorkerOk(rs, ms, w.(phase := phase))
  {
  }

  lemma WorkersCheckOrPublish(s: State, step: Step)
    requires WorkersOk(s) && CanStep(s, step) && (step.CheckContact? || step.Publish?)
    ensures WorkersOk(Apply(s, step))
  {
    var w, t := s.workers[step.w], Apply(s, step);
    Rephased(s.recipients, s.messages, w, t.workers[step.w].phase);
    hide WorkerOk;
    ReplaceWorker(s, t, step.w);
  }

  lemma WorkersFind(s: State, w: nat)
    requires WorkersOk(s) && CanStep(s, FindMessage(w))
    ensures WorkersOk(Apply(s, FindMessage(w)))
  {
    assert WorkerOk(s.recipients, s.messages, s.workers[w]);
    ReplaceWorker(s, Apply(s, FindMessage(w)), w);
  }

  lemma LeavingOk(rs: seq<Recipient>, ms: seq<nat>, w: Worker)
    requires WorkerOk(rs, ms, w) && w.alive && w.phase != Opened
    ensures w.todo != [] ==> WorkerOk(rs, ms, w.(phase := Caught))
    ensures w.todo == [] ==> WorkerOk(rs, ms, w.(phase := Finished))
  {
  }

  lemma WorkersLeave(s: State, step: Step)
    requires WorkersOk(s) && CanStep(s, step) && (step.Throw? || step.Finish?)
    ensures WorkersOk(Apply(s, step))
  {
    LeavingOk(s.recipients, s.messages, s.workers[step.w]);
    hide WorkerOk;
    ReplaceWorker(s, Apply(s, step), step.w);
  }

  lemma WorkersCrash(s: State, w: nat)
    requires WorkersOk(s) && CanStep(s, Crash(w))
    ensures WorkersOk(Apply(s, Crash(w)))
  {
    ReplaceWorker(s, Apply(s, Crash(w)), w);
  }

  lemma WorkersLoad(s: State, w: nat)
    requires WorkersOk(s) && CanStep(s, LoadPending(w))
    ensures WorkersOk(Apply(s, LoadPending(w)))
  {
    ReplaceWorker(s, Apply(s, LoadPending(w)), w);
  }

  lemma WorkersOpen(s: State, batch: nat)
    requires WorkersOk(s) && CanStep(s, OpenBatch(batch))
    ensures WorkersOk(Apply(s, OpenBatch(batch)))
  {
  }

  lemma WorkersCreate(s: State, w: nat)
    requires WorkersOk(s) && CanStep(s, CreateMessage(w))
    ensures WorkersOk(Apply(s, CreateMessage(w)))
  {
    var t := Apply(s, CreateMessage(w));
    forall i | 0 <= i < |s.workers|
      ensures WorkerOk(t.recipients, t.messages, s.workers[i])
    {
      UndisturbedByMessages(s.recipients, s.messages, t.messages, s.workers[i]);
    }
    ReplaceWorker(s, t, w);
  }

  predicate EditsAndMovesOn(step: Step) { step.WriteSkipped? || step.LinkExisting? }

  lemma WorkersEditNext(s: State, step: Step)
    requires WorkersOk(s) && CanStep(s, step) && EditsAndMovesOn(step)
    requires LinksOk(s.recipients, s.messages)
    ensures WorkersOk(Apply(s, step))
    ensures Edited(s.recipients, Apply(s, step).recipients, s.workers[step.w].todo[0])
  {
    var t := Apply(s, step);
    assert WorkerOk(s.recipients, s.messages, s.workers[step.w]);
    OthersAfterEdit(s, step.w, t.recipients);
    Advanced(s.recipients, s.messages, t.recipients, s.workers[step.w]);
    ReplaceWorker(s, t, step.w);
  }

  lemma EditedHere(rs: seq<Recipient>, ms: seq<nat>, rs': seq<Recipient>, w: Worker, phase: WorkerPhase)
    requires w.alive && w.phase != Opened && w.todo != [] && TodoOk(rs, w) && Edited(rs, rs', w.todo[0])
    requires phase == Tallying || (phase.Linked? && rs'[w.todo[0]].message == Some(phase.m))
    ensures WorkerOk(rs', ms, w.(phase := phase))
  {
  }

  lemma WorkersEditStay(s: State, step: Step)
    requires WorkersOk(s) && CanStep(s, step) && (step.LinkCreated? || step.WriteFailed?)
    requires LinksOk(s.recipients, s.messages)
    ensures WorkersOk(Apply(s, step))
    ensures Edited(s.recipients, Apply(s, step).recipients, s.workers[step.w].todo[0])
  {
    var w, t := s.workers[step.w], Apply(s, step);
    assert WorkerOk(s.recipients, s.messages, w);
    OthersAfterEdit(s, step.w, t.recipients);
    EditedHere(s.recipients, s.messages, t.recipients, w, t.workers[step.w].phase);
    hide WorkerOk;
    ReplaceWorker(s, t, step.w);
  }

  lemma WorkersNext(s: State, step: Step)
    requires WorkersOk(s) && CanStep(s, step) && (step.UpdateConversation? || step.TallyFailed?)
    requires LinksOk(s.recipients, s.messages)
    ensures WorkersOk(Apply(s, step))
  {
    var w := s.workers[step.w];
    assert WorkerOk(s.recipients, s.messages, w);
    AdvancedUnchanged(s.recipients, s.messages, w);
    ReplaceWorker(s, Apply(s, step), step.w);
  }

  /** An event writes only linked recipients, which no worker counts as PENDING. */
  lemma WorkersEvent(s: State, c: nat)
    requires WorkersOk(s) && EventsOk(s) && LinksOk(s.recipients, s.messages) && CanStep(s, UpdateRecipient(c))
    ensures WorkersOk(Apply(s, UpdateRecipient(c)))
  {
    var t := Apply(s, UpdateRecipient(c));
    var r := s.checks[c].r;
    if Written(s.checks[c].kind, s.checks[c].seen).Some? {
      forall i | 0 <= i < |s.workers|
        ensures WorkerOk(t.recipients, t.messages, s.workers[i])
      {
        Undisturbed(s.recipients, s.messages, t.recipients, t.messages, r, s.workers[i]);
      }
    }
  }

  predicate WorkerStep(step: Step) {
    match step
    case OpenBatch(_) => true
    case LoadPending(_) => true
    case CheckContact(_, _) => true
    case WriteSkipped(_) => true
    case FindMessage(_) => true
    case LinkExisting(_) => true
    case CreateMessage(_) => true
    case LinkCreated(_) => true
    case Publish(_) => true
    case UpdateConversation(_) => true
    case Throw(_) => true
    case WriteFailed(_) => true
    case TallyFailed(_) => true
    case Finish(_) => true
    case Crash(_) => true
    case _ => false
  }

  lemma WorkersUntouched(s: State, step: Step)
    requires WorkersOk(s) && CanStep(s, step) && !WorkerStep(step) && !step.UpdateRecipient?
    ensures WorkersOk(Apply(s, step))
  {
  }

  lemma WorkersStep(s: State, step: Step)
    requires Inv(s) && CanStep(s, step)
    ensures WorkersOk(Apply(s, step))
  {
    hide WorkersOk;
    match step
    case OpenBatch(b) => WorkersOpen(s, b);
    case LoadPending(w) => WorkersLoad(s, w);
    case CheckContact(_, _) => WorkersCheckOrPublish(s, step);
    case FindMessage(w) => WorkersFind(s, w);
    case Publish(_) => WorkersCheckOrPublish(s, step);
    case WriteSkipped(_) => WorkersEditNext(s, step);
    case LinkExisting(_) => WorkersEditNext(s, step);
    case CreateMessage(w) => WorkersCreate(s, w);
    case LinkCreated(_) => WorkersEditStay(s, step);
    case WriteFailed(_) => WorkersEditStay(s, step);
    case UpdateConversation(_) => WorkersNext(s, step);
    case TallyFailed(_) => WorkersNext(s, step);
    case Throw(_) => WorkersLeave(s, step);
    case Finish(_) => WorkersLeave(s, step);
    case Crash(w) => WorkersCrash(s, w);
    case UpdateRecipient(c) => WorkersEvent(s, c);
    case _ => WorkersUntouched(s, step);
  }

  // ----- recipients, links and jobs -----

  /** A step edits at most one recipient, and says which. */
  function EditedRecipient(s: State, step: Step): (r: nat)
    requires CanStep(s, step)
    requires step.WriteSkipped? || step.LinkExisting? || step.LinkCreated? || step.WriteFailed? || step.UpdateRecipient?
  {
    if step.UpdateRecipient? then s.checks[step.c].r else s.workers[step.w].todo[0]
  }

  predicate Edits(s: State, step: Step)
    requires CanStep(s, step)
  {
    || step.WriteSkipped? || step.LinkExisting? || step.LinkCreated? || step.WriteFailed?
    || (step.UpdateRecipient? && Written(s.checks[step.c].kind, s.checks[step.c].seen).Some?)
  }

  /** The table either stays or has one recipient edited away from PENDING. */
  lemma TableStep(s: State, step: Step)
    requires Inv(s) && CanStep(s, step)
    ensures !Edits(s, step) ==> Apply(s, step).recipients == s.recipients
    ensures Edits(s, step) ==> Edited(s.recipients, Apply(s, step).recipients, EditedRecipient(s, step))
  {
    if step.LinkExisting? || step.LinkCreated? {
      assert WorkerOk(s.recipients, s.messages, s.workers[step.w]);
    }
  }

  lemma LinksStep(s: State, step: Step)
    requires Inv(s) && CanStep(s, step)
    ensures LinksOk(Apply(s, step).recipients, Apply(s, step).messages)
  {
    hide JobsLinked, EventsOk;
    TableStep(s, step);
    if step.LinkExisting? || step.LinkCreated? {
      assert WorkerOk(s.recipients, s.messages, s.workers[step.w]);
    }
  }

  lemma JobsStep(s: State, step: Step)
    requires Inv(s) && CanStep(s, step)
    ensures JobsLinked(Apply(s, step))
  {
    var t := Apply(s, step);
    TableStep(s, step);
    forall m | m in t.jobs
      ensures IsLinked(t.recipients, m)
    {
      if m in s.jobs {
        if Edits(s, step) {
          LinkedStays(s.recipients, t.recipients, EditedRecipient(s, step), m);
        }
      } else {
        assert WorkerOk(s.recipients, s.messages, s.workers[step.w]);
        assert s.recipients[s.workers[step.w].todo[0]].message == Some(m);
      }
    }
  }

  lemma EventsStep(s: State, step: Step)
    requires Inv(s) && CanStep(s, step)
    ensures EventsOk(Apply(s, step))
  {
    hide WorkersOk, JobsLinked;
    TableStep(s, step);
  }

  lemma InvStep(s: State, step: Step)
    requires Inv(s) && CanStep(s, step)
    ensures Inv(Apply(s, step))
  {
    LinksStep(s, step);
    JobsStep(s, step);
    WorkersStep(s, step);
    EventsStep(s, step);
  }

  // ----- the number of recipients left -----

  lemma ActiveStep(s: State, step: Step)
    requires Inv(s) && CanStep(s, step)
    ensures Active(Apply(s, step)) <= Active(s)
  {
    TableStep(s, step);
    if Edits(s, step) {
      var r := EditedRecipient(s, step);
      var t := Apply(s, step);
      CountUpdate(s.recipients, r, t.recipients[r], IsActive);
      if step.LinkExisting? || step.LinkCreated? {
        assert WorkerOk(s.recipients, s.messages, s.workers[step.w]);
      }
    }
  }

  lemma PendingStep(s: State, step: Step)
    requires Inv(s) && CanStep(s, step)
    ensures Count(Apply(s, step).recipients, IsPending) <= Count(s.recipients, IsPending)
  {
    TableStep(s, step);
    if Edits(s, step) {
      var r := EditedRecipient(s, step);
      CountUpdate(s.recipients, r, Apply(s, step).recipients[r], IsPending);
    }
  }

  predicate ExecutorStep(step: Step) {
    step.StartExecutor? || step.LookForPending? || step.WriteBlindly? || step.AnnounceBlindly?
  }

  /** Workers touch nothing of what completion is decided on but the recipients. */
  lemma WorkersKeepChecks(s: State, step: Step)
    requires CanStep(s, step) && WorkerStep(step)
    ensures var t := Apply(s, step);
            t.checks == s.checks && t.status == s.status && t.transitions == s.transitions && t.emitted == s.emitted
            && t.executors == s.executors
  {
  }

  /** A handler's own step, or a new handler. */
  lemma HandlersComplete(s: State, step: Step)
    requires CompletionOk(s) && CanStep(s, step) && !WorkerStep(step) && !ExecutorStep(step)
    requires Active(Apply(s, step)) <= Active(s)
    requires Count(Apply(s, step).recipients, IsPending) <= Count(s.recipients, IsPending)
    ensures CompletionOk(Apply(s, step))
  {
    hide Count;
    var t := Apply(s, step);
    if step.Arrive? {
      CountAppend(s.checks, t.checks[|s.checks|], IsEmitting);
    } else {
      CountUpdate(s.checks, step.c, t.checks[step.c], IsEmitting);
    }
  }

  /** An executor's step, or a new executor. */
  lemma ExecutorsComplete(s: State, step: Step)
    requires CompletionOk(s) && CanStep(s, step) && ExecutorStep(step)
    ensures CompletionOk(Apply(s, step))
  {
    hide Count;
    var t := Apply(s, step);
    assert t.recipients == s.recipients && t.checks == s.checks;
    if step.StartExecutor? {
      CountAppend(s.executors, Looking, IsAnnounced);
      CountAppend(s.executors, Looking, HasWritten);
    } else {
      CountUpdate(s.executors, step.x, t.executors[step.x], IsAnnounced);
      CountUpdate(s.executors, step.x, t.executors[step.x], HasWritten);
    }
  }

  lemma CompletionStep(s: State, step: Step)
    requires Inv(s) && CompletionOk(s) && CanStep(s, step)
    ensures CompletionOk(Apply(s, step))
  {
    hide Inv, Count;
    ActiveStep(s, step);
    PendingStep(s, step);
    if WorkerStep(step) {
      WorkersKeepChecks(s, step);
    } else if ExecutorStep(step) {
      ExecutorsComplete(s, step);
    } else {
      HandlersComplete(s, step);
    }
  }
}
