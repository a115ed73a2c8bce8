/** Theorems about every run of a campaign. */
module CampaignTheorems {
  import opened Prelude
  import opened Counting
  import opened CampaignRun
  import opened CampaignProofs

  lemma FreshInv(s: State)
    requires Fresh(s)
    ensures Inv(s) && CompletionOk(s)
  {
  }

  lemma {:induction false} InvRun(s: State, run: seq<Step>)
    requires Inv(s) && Valid(s, run)
    ensures Inv(Exec(s, run))
    decreases |run|
  {
    if run != [] {
      InvStep(s, run[0]);
      InvRun(Apply(s, run[0]), run[1..]);
    }
  }

  /** PENDING plus QUEUED never grows, whatever workers and handlers interleave. */
  lemma {:induction false} ActiveNeverGrows(s: State, run: seq<Step>)
    requires Inv(s) && Valid(s, run)
    ensures Active(Exec(s, run)) <= Active(s)
    decreases |run|
  {
    if run != [] {
      ActiveStep(s, run[0]);
      InvStep(s, run[0]);
      ActiveNeverGrows(Apply(s, run[0]), run[1..]);
    }
  }

  lemma {:induction false} CompletionRun(s: State, run: seq<Step>)
    requires Inv(s) && CompletionOk(s) && Valid(s, run)
    ensures CompletionOk(Exec(s, run))
    decreases |run|
  {
    if run != [] {
      CompletionStep(s, run[0]);
      InvStep(s, run[0]);
      CompletionRun(Apply(s, run[0]), run[1..]);
    }
  }

  /** On the event-handler path the count and the compare-and-set are separate
      statements, and yet in every run, executors and all, a handler completes the
      campaign at most once and then nobody is PENDING or QUEUED. Without a blind
      write of an executor that is the only way to COMPLETED. */
  lemma CompletionIsSound(s: State, run: seq<Step>)
    requires Fresh(s) && Valid(s, run)
    ensures var t := Exec(s, run);
            && t.transitions <= One(t.status == Completed)
            && (t.transitions == 1 ==> forall r :: 0 <= r < |t.recipients| ==> !IsActive(t.recipients[r]))
            && (Count(t.executors, HasWritten) == 0 ==> t.transitions == One(t.status == Completed) && t.emitted <= 1)
  {
    FreshInv(s);
    CompletionRun(s, run);
    var t := Exec(s, run);
    CountImplies(t.executors, IsAnnounced, HasWritten);
    if t.transitions == 1 {
      forall r | 0 <= r < |t.recipients| ensures !IsActive(t.recipients[r]) {
        if IsActive(t.recipients[r]) {
          CountPositive(t.recipients, r, IsActive);
        }
      }
    }
  }

  /** Announcements are exactly the handlers' completions and the executors' blind
      writes, but for those still to be made: one each, whatever the outcome of an
      executor's compare-and-set. */
  lemma Announcements(s: State, run: seq<Step>)
    requires Fresh(s) && Valid(s, run)
    ensures var t := Exec(s, run);
            t.emitted + Count(t.checks, IsEmitting) == t.transitions + Count(t.executors, IsAnnounced)
  {
    FreshInv(s);
    CompletionRun(s, run);
  }

  /** Over any runs and re-runs, stopped anywhere: one message per contact at most,
      and every send job is for a message linked to the recipient it was made
      for, who is no longer PENDING. */
  lemma OneMessagePerContact(s: State, run: seq<Step>)
    requires Fresh(s) && Valid(s, run)
    ensures var t := Exec(s, run);
            && (forall m, n :: 0 <= m < n < |t.messages| ==> t.messages[m] != t.messages[n])
            && (forall m :: m in t.jobs ==>
                  exists r :: 0 <= r < |t.recipients| && t.recipients[r].message == Some(m)
                    && t.recipients[r].status != Pending
                    && m < |t.messages| && t.messages[m] == t.recipients[r].contact)
  {
    FreshInv(s);
    InvRun(s, run);
    var t := Exec(s, run);
    forall m | m in t.jobs
      ensures exists r :: 0 <= r < |t.recipients| && t.recipients[r].message == Some(m)
                && t.recipients[r].status != Pending && m < |t.messages| && t.messages[m] == t.recipients[r].contact
    {
      assert IsLinked(t.recipients, m);
    }
  }

  /** A batch run that was not cut short leaves nobody PENDING in its batch, and
      nobody becomes PENDING there afterwards. */
  lemma FinishedBatchHasNoPending(s: State, run: seq<Step>, w: nat)
    requires Fresh(s) && Valid(s, run)
    requires var t := Exec(s, run); w < |t.workers| && t.workers[w].alive && t.workers[w].phase == Finished
    ensures var t := Exec(s, run);
            forall r :: 0 <= r < |t.recipients| && t.recipients[r].batch == t.workers[w].batch ==>
              t.recipients[r].status != Pending
  {
    FreshInv(s);
    InvRun(s, run);
    var t := Exec(s, run);
    assert WorkerOk(t.recipients, t.messages, t.workers[w]);
  }

  // ----- the executor's completion -----

  lemma {:induction false} ActiveSplits(recipients: seq<Recipient>)
    ensures Count(recipients, IsActive) == Count(recipients, IsPending) + Count(recipients, IsEnqueued)
  {
    if recipients != [] {
      ActiveSplits(recipients[..|recipients| - 1]);
    }
  }

  ghost predicate Sound(s: State) { s.status == Completed ==> Active(s) == 0 }

  ghost predicate AlwaysSound(s: State, run: seq<Step>)
    requires Valid(s, run)
    decreases |run|
  {
    Sound(s) && (run != [] ==> AlwaysSound(Apply(s, run[0]), run[1..]))
  }

  /** Whenever an executor completes the campaign, nobody is QUEUED at that moment. */
  ghost predicate LeavesNobodyEnqueued(s: State, run: seq<Step>)
    requires Valid(s, run)
    decreases |run|
  {
    run != [] ==>
      && (run[0].WriteBlindly? && s.status == Running ==> Count(s.recipients, IsEnqueued) == 0)
      && LeavesNobodyEnqueued(Apply(s, run[0]), run[1..])
  }

  lemma SoundStep(s: State, step: Step)
    requires Inv(s) && CompletionOk(s) && Sound(s) && CanStep(s, step)
    ensures Sound(Apply(s, step))
            <==> (step.WriteBlindly? && s.status == Running ==> Count(s.recipients, IsEnqueued) == 0)
  {
    hide Count, Inv;
    ActiveStep(s, step);
    if step.WriteBlindly? && s.status == Running {
      ActiveSplits(s.recipients);
      assert s.executors[step.x] == Writing;
    } else if WorkerStep(step) {
      WorkersKeepChecks(s, step);
    }
  }

  /** Over every run, executors included: a COMPLETED campaign never has a recipient
      PENDING or QUEUED exactly if no executor completes it while one is QUEUED. An
      executor looks for PENDING ones only, and at an earlier statement. */
  lemma {:induction false} CompletionSoundIff(s: State, run: seq<Step>)
    requires Inv(s) && CompletionOk(s) && Sound(s) && Valid(s, run)
    ensures AlwaysSound(s, run) <==> LeavesNobodyEnqueued(s, run)
    decreases |run|
  {
    if run != [] {
      SoundStep(s, run[0]);
      CompletionStep(s, run[0]);
      InvStep(s, run[0]);
      if Sound(Apply(s, run[0])) {
        CompletionSoundIff(Apply(s, run[0]), run[1..]);
      } else {
        assert !AlwaysSound(Apply(s, run[0]), run[1..]);
      }
    }
  }

  // ----- messages nobody publishes -----

  lemma {:induction false} Extend(s: State, run: seq<Step>, step: Step)
    requires Valid(s, run) && CanStep(Exec(s, run), step)
    ensures Valid(s, run + [step]) && Exec(s, run + [step]) == Apply(Exec(s, run), step)
    decreases |run|
  {
    if run == [] {
      assert run + [step] == [step];
    } else {
      assert (run + [step])[0] == run[0] && (run + [step])[1..] == run[1..] + [step];
      Extend(Apply(s, run[0]), run[1..], step);
    }
  }

  /** A live worker between creating message m and publishing it. */
  predicate WillPublish(s: State, m: nat) {
    exists i :: 0 <= i < |s.workers| && OnItsWay(s, i, m)
  }

  predicate OnItsWay(s: State, i: nat, m: nat) {
    HasCurrent(s, i) && s.workers[i].phase in {Created(m), Linked(m)}
  }

  /** Who will publish message m after a step was to publish it before, unless the
      step created m. */
  lemma PublishersBefore(s: State, step: Step, i: nat, m: nat)
    requires CanStep(s, step) && m < |s.messages| && i < |Apply(s, step).workers|
    requires OnItsWay(Apply(s, step), i, m)
    ensures i < |s.workers| && OnItsWay(s, i, m)
  {
    SizesKept(s, step);
    if !(WorkerStep(step) && !step.OpenBatch? && step.w == i) {
      OthersKept(s, step, i);
    }
  }

  /** A step changes at most its own worker. */
  lemma OthersKept(s: State, step: Step, i: nat)
    requires CanStep(s, step) && !(WorkerStep(step) && !step.OpenBatch? && step.w == i)
    ensures i < |s.workers| ==> i < |Apply(s, step).workers| && Apply(s, step).workers[i] == s.workers[i]
    ensures |s.workers| <= i < |Apply(s, step).workers| ==> Apply(s, step).workers[i].phase == Opened
  {
  }

  lemma SizesKept(s: State, step: Step)
    requires CanStep(s, step)
    ensures |Apply(s, step).recipients| == |s.recipients| && |s.messages| <= |Apply(s, step).messages|
  {
  }

  lemma OnlyPublishAddsJobs(s: State, step: Step)
    requires CanStep(s, step)
    ensures || Apply(s, step).jobs == s.jobs
            || (step.Publish? && OnItsWay(s, step.w, s.workers[step.w].phase.m)
                && Apply(s, step).jobs == s.jobs + {s.workers[step.w].phase.m})
  {
  }

  lemma UnpublishedStep(s: State, step: Step, m: nat)
    requires Inv(s) && CanStep(s, step) && m < |s.messages| && m !in s.jobs && !WillPublish(s, m)
    ensures var t := Apply(s, step); m < |t.messages| && m !in t.jobs && !WillPublish(t, m)
  {
    hide Inv, Apply;
    var t := Apply(s, step);
    SizesKept(s, step);
    OnlyPublishAddsJobs(s, step);
    if i :| 0 <= i < |t.workers| && OnItsWay(t, i, m) {
      PublishersBefore(s, step, i, m);
    }
  }

  lemma {:induction false} UnpublishedRun(s: State, run: seq<Step>, m: nat)
    requires Inv(s) && Valid(s, run) && m < |s.messages| && m !in s.jobs && !WillPublish(s, m)
    ensures m !in Exec(s, run).jobs
    decreases |run|
  {
    if run != [] {
      UnpublishedStep(s, run[0], m);
      InvStep(s, run[0]);
      UnpublishedRun(Apply(s, run[0]), run[1..], m);
    }
  }

  ghost predicate CanBePublished(s: State, m: nat) {
    exists run :: Valid(s, run) && m in Exec(s, run).jobs
  }

  lemma PublishRun(s: State, i: nat, m: nat) returns (run: seq<Step>)
    requires Inv(s) && HasCurrent(s, i) && s.workers[i].phase in {Created(m), Linked(m)}
    ensures Valid(s, run) && m in Exec(s, run).jobs
  {
    run := [];
    if s.workers[i].phase == Created(m) {
      Extend(s, run, LinkCreated(i));
      run := run + [LinkCreated(i)];
    }
    Extend(s, run, Publish(i));
    run := run + [Publish(i)];
  }

  /** A message that exists gets its send job from batch runs exactly if it has it
      already or the worker that created it is still on its way to publish. A
      worker that dies in between strands the message: a re-run finds it, links
      it, and takes it for queued. */
  lemma PublishedIff(s: State, m: nat)
    requires Inv(s) && m < |s.messages|
    ensures CanBePublished(s, m) <==> (m in s.jobs || WillPublish(s, m))
  {
    if m in s.jobs {
      assert Valid(s, []) && m in Exec(s, []).jobs;
    } else if WillPublish(s, m) {
      var i :| 0 <= i < |s.workers| && OnItsWay(s, i, m);
      var run := PublishRun(s, i, m);
    } else {
      forall run | Valid(s, run) ensures m !in Exec(s, run).jobs {
        UnpublishedRun(s, run, m);
      }
    }
  }

  function OneRecipient(): State {
    State([Recipient(1, 7, Pending, None)], Running, [], {}, 0, [], [], [], 0, 0)
  }

  /** A worker opens the batch and goes as far as looking for the contact's message. */
  lemma LookUp(s: State, prefix: seq<Step>) returns (run: seq<Step>)
    requires Valid(s, prefix)
    requires var t := Exec(s, prefix);
             t.recipients == OneRecipient().recipients && t.status == Running
             && forall i :: 0 <= i < |t.workers| ==> !Busy(t.workers[i])
    ensures Valid(s, run)
    ensures var t, u := Exec(s, prefix), Exec(s, run);
            && u == t.(workers := u.workers) && |u.workers| == |t.workers| + 1
            && (forall i :: 0 <= i < |t.workers| ==> u.workers[i] == t.workers[i])
            && u.workers[|t.workers|]
               == Worker(1,
                         if MessageFor(t.messages, 7).Some? then Existing(MessageFor(t.messages, 7).value)
                         else NoMessage,
                         [0], true)
  {
    hide Exec, Valid;
    var t := Exec(s, prefix);
    var w := |t.workers|;
    Extend(s, prefix, OpenBatch(1));
    run := prefix + [OpenBatch(1)];
    Extend(s, run, LoadPending(w));
    run := run + [LoadPending(w)];
    PendingOfOne(t.recipients);
    Extend(s, run, CheckContact(w, true));
    run := run + [CheckContact(w, true)];
    Extend(s, run, FindMessage(w));
    run := run + [FindMessage(w)];
  }

  lemma PendingOfOne(recipients: seq<Recipient>)
    requires recipients == OneRecipient().recipients
    ensures PendingIn(recipients, 1) == [0]
  {
    var todo := PendingIn(recipients, 1);
    assert recipients[0].batch == 1 && 0 in todo;
  }

  lemma DiesAfterCreating() returns (run: seq<Step>)
    ensures Valid(OneRecipient(), run)
    ensures Exec(OneRecipient(), run)
            == OneRecipient().(messages := [7], workers := [Worker(1, Created(0), [0], false)])
  {
    run := LookUp(OneRecipient(), []);
    Extend(OneRecipient(), run, CreateMessage(0));
    run := run + [CreateMessage(0)];
    Extend(OneRecipient(), run, Crash(0));
    run := run + [Crash(0)];
  }

  /** Such a run: the first worker dies after creating the message, the second
      finishes; the recipient is QUEUED, its message has no send job, and no
      batch run will ever make one. */
  lemma StrandedMessage() returns (run: seq<Step>)
    ensures Valid(OneRecipient(), run)
    ensures var t := Exec(OneRecipient(), run);
            && t.recipients == [Recipient(1, 7, Enqueued, Some(0))] && t.messages == [7]
            && !CanBePublished(t, 0)
  {
    var s := OneRecipient();
    run := DiesAfterCreating();
    assert MessageFor([7], 7) == Some(0);
    run := LookUp(s, run);
    Extend(s, run, LinkExisting(1));
    run := run + [LinkExisting(1)];
    FreshInv(s);
    InvRun(s, run);
    PublishedIff(Exec(s, run), 0);
  }

  // ----- a premature completion -----

  /** The batch worker links its recipient's new message. */
  lemma LinksOne() returns (run: seq<Step>)
    ensures Valid(OneRecipient(), run)
    ensures Exec(OneRecipient(), run)
            == OneRecipient().(recipients := [Recipient(1, 7, Enqueued, Some(0))], messages := [7],
                               workers := [Worker(1, Linked(0), [0], true)])
  {
    run := LookUp(OneRecipient(), []);
    Extend(OneRecipient(), run, CreateMessage(0));
    run := run + [CreateMessage(0)];
    Extend(OneRecipient(), run, LinkCreated(0));
    run := run + [LinkCreated(0)];
  }

  /** An executor, after the campaign's last recipient was put to QUEUED. */
  lemma ExecutorLooks(s: State, prefix: seq<Step>) returns (run: seq<Step>)
    requires Valid(s, prefix)
    requires var t := Exec(s, prefix); t.status == Running && t.recipients == [Recipient(1, 7, Enqueued, Some(0))]
    ensures Valid(s, run)
    ensures var t := Exec(s, prefix); Exec(s, run) == t.(executors := t.executors + [Writing])
  {
    var t := Exec(s, prefix);
    Extend(s, prefix, StartExecutor);
    run := prefix + [StartExecutor];
    Extend(s, run, LookForPending(|t.executors|));
    run := run + [LookForPending(|t.executors|)];
    assert Count(t.recipients, IsPending) == 0;
  }

  /** It writes and announces. */
  lemma ExecutorWrites(s: State, prefix: seq<Step>, x: nat) returns (run: seq<Step>)
    requires Valid(s, prefix) && x < |Exec(s, prefix).executors| && Exec(s, prefix).executors[x] == Writing
    ensures Valid(s, run)
    ensures var t := Exec(s, prefix);
            Exec(s, run) == t.(executors := t.executors[x := Announced], emitted := t.emitted + 1,
                               status := if t.status == Running then Completed else t.status)
  {
    Extend(s, prefix, WriteBlindly(x));
    run := prefix + [WriteBlindly(x)];
    Extend(s, run, AnnounceBlindly(x));
    run := run + [AnnounceBlindly(x)];
    var t := Exec(s, prefix);
    assert t.executors[x := Announcing][x := Announced] == t.executors[x := Announced];
  }

  /** Two executors look while the one recipient is QUEUED: the campaign is COMPLETED
      with that recipient still to be sent, and announced twice. */
  lemma CompletedTooEarly() returns (run: seq<Step>)
    ensures Fresh(OneRecipient()) && Valid(OneRecipient(), run)
    ensures var t := Exec(OneRecipient(), run);
            t.status == Completed && Active(t) == 1 && t.emitted == 2
  {
    hide Exec, Valid;
    run := LinksOne();
    run := ExecutorLooks(OneRecipient(), run);
    run := ExecutorLooks(OneRecipient(), run);
    run := ExecutorWrites(OneRecipient(), run, 0);
    run := ExecutorWrites(OneRecipient(), run, 1);
    assert Exec(OneRecipient(), run).recipients == [Recipient(1, 7, Enqueued, Some(0))];
  }
}
