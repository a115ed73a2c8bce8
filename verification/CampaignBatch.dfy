/** The batch worker's code: one run over a batch, statement by statement. */
module CampaignBatch {
  import opened Prelude
  import opened Counting
  import opened CampaignRun

  /** What happens while one recipient is processed: whether the contact is still
      valid, which of the statements (numbered in program order) throws instead of
      taking effect, if any, and whether writing up such an exception throws too, at
      the FAILED status or at the counter. */
  datatype Luck = Luck(validContact: bool, throwsAt: Option<nat>, again: Again)

  datatype Again = Never | AtStatus | AtCounter

  /** The statement that throws is reached; `had` tells that the contact has a message. */
  predicate Hits(luck: Luck, had: bool) {
    luck.throwsAt.Some?
    && luck.throwsAt.value in (if !luck.validContact then {0, 1} else if had then {0, 2, 3} else {0, 2, 4, 5, 6, 7})
  }

  /** A message is created, and its send job published, before anything throws. */
  predicate Creates(luck: Luck, had: bool) {
    luck.validContact && !had && luck.throwsAt !in {Some(0), Some(2), Some(4)}
  }

  predicate Publishes(luck: Luck, had: bool) {
    Creates(luck, had) && luck.throwsAt !in {Some(5), Some(6)}
  }

  /** How a recipient whose processing is written up ends: FAILED only if something
      threw, and otherwise by whether the contact is valid. */
  ghost predicate EndsAs(status: RecipientStatus, luck: Luck, had: bool) {
    && (status == FailedOn <==> Hits(luck, had))
    && (status == Enqueued <==> !Hits(luck, had) && luck.validContact)
    && (status == Skipped <==> !Hits(luck, had) && !luck.validContact)
  }

  /** The contacts of the listed recipients for whom a message is created, in order. */
  ghost function NewMessages(rs: seq<Recipient>, messages: seq<nat>, lucks: seq<Luck>, todo: seq<nat>): seq<nat>
    requires |lucks| == |rs| && forall k :: 0 <= k < |todo| ==> todo[k] < |rs|
  {
    if todo == [] then []
    else
      var last := todo[|todo| - 1];
      NewMessages(rs, messages, lucks, todo[..|todo| - 1])
      + if Creates(lucks[last], rs[last].contact in messages) then [rs[last].contact] else []
  }

  /** The messages among them that get a send job. */
  ghost function NewJobs(rs: seq<Recipient>, messages: seq<nat>, lucks: seq<Luck>, todo: seq<nat>): set<nat>
    requires |lucks| == |rs| && forall k :: 0 <= k < |todo| ==> todo[k] < |rs|
  {
    if todo == [] then {}
    else
      var last, before := todo[|todo| - 1], todo[..|todo| - 1];
      NewJobs(rs, messages, lucks, before)
      + if Publishes(lucks[last], rs[last].contact in messages)
        then {|messages| + |NewMessages(rs, messages, lucks, before)|}
        else {}
  }

  /** Messages are created for contacts of the list only. */
  lemma {:induction false} NewForListed(rs: seq<Recipient>, messages: seq<nat>, lucks: seq<Luck>, todo: seq<nat>)
    requires |lucks| == |rs| && forall k :: 0 <= k < |todo| ==> todo[k] < |rs|
    ensures forall c :: c in NewMessages(rs, messages, lucks, todo) ==>
              exists k :: 0 <= k < |todo| && rs[todo[k]].contact == c
  {
    if todo != [] {
      var n := |todo| - 1;
      NewForListed(rs, messages, lucks, todo[..n]);
      forall c | c in NewMessages(rs, messages, lucks, todo)
        ensures exists k :: 0 <= k < |todo| && rs[todo[k]].contact == c
      {
        if c in NewMessages(rs, messages, lucks, todo[..n]) {
          var k :| 0 <= k < n && rs[todo[..n][k]].contact == c;
          assert rs[todo[k]].contact == c;
        } else {
          assert rs[todo[n]].contact == c;
        }
      }
    }
  }

  /** If nothing throws, messages are created for exactly the valid contacts that had
      none, and exactly those messages get jobs. */
  lemma {:induction false} NewIfNothingThrows(rs: seq<Recipient>, messages: seq<nat>, lucks: seq<Luck>, todo: seq<nat>)
    requires |lucks| == |rs| && forall k :: 0 <= k < |todo| ==> todo[k] < |rs|
    requires forall k :: 0 <= k < |todo| ==> lucks[todo[k]].throwsAt.None?
    ensures forall k :: 0 <= k < |todo| && lucks[todo[k]].validContact && rs[todo[k]].contact !in messages ==>
              rs[todo[k]].contact in NewMessages(rs, messages, lucks, todo)
    ensures forall c :: c in NewMessages(rs, messages, lucks, todo) ==>
              exists k :: 0 <= k < |todo| && rs[todo[k]].contact == c && lucks[todo[k]].validContact && c !in messages
    ensures forall m: nat :: m in NewJobs(rs, messages, lucks, todo)
              <==> |messages| <= m < |messages| + |NewMessages(rs, messages, lucks, todo)|
  {
    if todo != [] {
      var n := |todo| - 1;
      NewIfNothingThrows(rs, messages, lucks, todo[..n]);
      forall c | c in NewMessages(rs, messages, lucks, todo)
        ensures exists k :: 0 <= k < |todo| && rs[todo[k]].contact == c && lucks[todo[k]].validContact && c !in messages
      {
        if c in NewMessages(rs, messages, lucks, todo[..n]) {
          var k :| 0 <= k < n && rs[todo[..n][k]].contact == c && lucks[todo[..n][k]].validContact && c !in messages;
          assert rs[todo[k]].contact == c;
        } else {
          assert rs[todo[n]].contact == c;
        }
      }
    }
  }

  /** How many of the listed recipients have this status. */
  function Tally(recipients: seq<Recipient>, todo: seq<nat>, status: RecipientStatus): nat
    requires forall k :: 0 <= k < |todo| ==> todo[k] < |recipients|
  {
    if todo == [] then 0
    else
      var last := |todo| - 1;
      Tally(recipients, todo[..last], status) + One(recipients[todo[last]].status == status)
  }

  lemma {:induction false} TallyFrame(rs: seq<Recipient>, rs': seq<Recipient>, todo: seq<nat>, status: RecipientStatus)
    requires |rs| == |rs'|
    requires forall k :: 0 <= k < |todo| ==> todo[k] < |rs| && rs'[todo[k]] == rs[todo[k]]
    ensures Tally(rs, todo, status) == Tally(rs', todo, status)
  {
    if todo != [] {
      TallyFrame(rs, rs', todo[..|todo| - 1], status);
    }
  }

  /** A list whose recipients are all skipped, queued or failed splits exactly. */
  lemma {:induction false} TallySplits(recipients: seq<Recipient>, todo: seq<nat>)
    requires forall k :: 0 <= k < |todo| ==>
               todo[k] < |recipients| && recipients[todo[k]].status in {Skipped, Enqueued, FailedOn}
    ensures Tally(recipients, todo, Skipped) + Tally(recipients, todo, Enqueued) + Tally(recipients, todo, FailedOn)
            == |todo|
  {
    if todo != [] {
      TallySplits(recipients, todo[..|todo| - 1]);
    }
  }

  class CampaignBatchWorker {
    var status: CampaignStatus
    var recipients: seq<Recipient>
    var messages: seq<nat>
    var jobs: set<nat>
    var failedCount: nat

    ghost predicate Consistent()
      reads this
    {
      && LinksOk(recipients, messages)
      && (forall m :: m in jobs ==> IsLinked(recipients, m))
    }

    constructor (table: seq<Recipient>)
      requires forall i, j :: 0 <= i < j < |table| ==> table[i].contact != table[j].contact
      requires forall r :: 0 <= r < |table| ==> table[r].status == Pending && table[r].message.None?
      ensures Consistent() && status == Running && recipients == table
      ensures messages == [] && jobs == {} && failedCount == 0
    {
      status, recipients, messages, jobs, failedCount := Running, table, [], {}, 0;
    }

    method UpdateStatus(r: nat, newStatus: RecipientStatus, message: Option<nat>)
      requires r < |recipients| && newStatus != Pending && Consistent()
      requires message.Some? ==> message.value < |messages| && messages[message.value] == recipients[r].contact
      modifies this`recipients
      ensures Consistent()
      ensures recipients == old(recipients)[r := old(recipients)[r].(
                status := newStatus, message := if message.Some? then message else old(recipients)[r].message)]
    {
      ghost var before := recipients;
      recipients := recipients[r := recipients[r].(
        status := newStatus, message := if message.Some? then message else recipients[r].message)];
      forall m | m in jobs
        ensures IsLinked(recipients, m)
      {
        var i :| 0 <= i < |before| && before[i].message == Some(m);
        assert recipients[i].message == Some(m);
      }
    }

    /** processRecipient; `thrown` tells that it ended in an exception. */
    method ProcessRecipient(r: nat, luck: Luck) returns (thrown: bool)
      requires Consistent() && r < |recipients| && recipients[r].status == Pending
      modifies this`recipients, this`messages, this`jobs
      ensures Consistent()
      ensures |recipients| == |old(recipients)| && recipients == old(recipients)[r := recipients[r]]
      ensures recipients[r].batch == old(recipients)[r].batch && recipients[r].contact == old(recipients)[r].contact
      ensures !thrown && !luck.validContact ==>
                recipients[r].status == Skipped && messages == old(messages) && jobs == old(jobs)
      ensures !thrown && luck.validContact ==>
                && recipients[r].status == Enqueued && recipients[r].message.Some?
                && (if recipients[r].contact in old(messages)
                    then messages == old(messages) && jobs == old(jobs)
                    else messages == old(messages) + [recipients[r].contact] && jobs == old(jobs) + {|old(messages)|})
      ensures luck.throwsAt.None? ==> !thrown
      ensures recipients[r].status == Enqueued ==> LinkedTo(recipients[r], messages)
      ensures thrown <==> Hits(luck, recipients[r].contact in old(messages))
      ensures messages == old(messages)
                          + if Creates(luck, recipients[r].contact in old(messages))
                            then [recipients[r].contact]
                            else []
      ensures jobs == old(jobs)
                      + if Publishes(luck, recipients[r].contact in old(messages)) then {|old(messages)|} else {}
    {
      thrown := false;
      var contact := recipients[r].contact;
      if luck.throwsAt == Some(0) { return true; }
      if !luck.validContact {
        if luck.throwsAt == Some(1) { return true; }
        UpdateStatus(r, Skipped, None);
        return;
      }
      if luck.throwsAt == Some(2) { return true; }
      var existing := MessageFor(messages, contact);
      if existing.Some? {
        if luck.throwsAt == Some(3) { return true; }
        UpdateStatus(r, Enqueued, existing);
        return;
      }
      if luck.throwsAt == Some(4) { return true; }
      var m := |messages|;
      messages := messages + [contact];
      if luck.throwsAt == Some(5) { return true; }
      UpdateStatus(r, Enqueued, Some(m));
      if luck.throwsAt == Some(6) { return true; }
      assert recipients[r].message == Some(m);
      jobs := jobs + {m};
      if luck.throwsAt == Some(7) { return true; }
    }

    /** The loop body: process, and on an exception mark FAILED and count it. An
        exception from that ends the job: `escaped`. */
    method HandleRecipient(r: nat, luck: Luck) returns (escaped: bool)
      requires Consistent() && r < |recipients| && recipients[r].status == Pending
      modifies this`recipients, this`messages, this`jobs, this`failedCount
      ensures Consistent()
      ensures |recipients| == |old(recipients)| && recipients == old(recipients)[r := recipients[r]]
      ensures luck.again == Never || luck.throwsAt == None ==> !escaped
      ensures !escaped ==> recipients[r].status in {Skipped, Enqueued, FailedOn}
      ensures failedCount == old(failedCount) + One(!escaped && recipients[r].status == FailedOn)
      ensures recipients[r].contact == old(recipients)[r].contact
      // which of the three it is
      ensures luck.throwsAt == None ==> recipients[r].status == if luck.validContact then Enqueued else Skipped
      ensures recipients[r].status == FailedOn ==> luck.throwsAt.Some?
      ensures !escaped ==> EndsAs(recipients[r].status, luck, recipients[r].contact in old(messages))
      ensures recipients[r].status == Enqueued ==> LinkedTo(recipients[r], messages)
      // what it makes
      ensures messages == old(messages)
                          + if Creates(luck, recipients[r].contact in old(messages))
                            then [recipients[r].contact]
                            else []
      ensures jobs == old(jobs)
                      + if Publishes(luck, recipients[r].contact in old(messages)) then {|old(messages)|} else {}
    {
      escaped := false;
      var thrown := ProcessRecipient(r, luck);
      if thrown {
        if luck.again == AtStatus {
          return true;
        }
        UpdateStatus(r, FailedOn, None);
        if luck.again == AtCounter {
          return true;
        }
        failedCount := failedCount + 1;
      }
    }

    /** One job for `batch`. Run to its end, everyone PENDING in the batch is skipped,
        queued or failed. Stopped at position k of the list by an exception while
        another was written up, the first k are, and those after are untouched. In
        both cases the failure counter grows by exactly the failed ones that were
        finished, nobody else is touched, and the links stay sound. */
    method Handle(batch: nat, lucks: seq<Luck>) returns (stopped: Option<nat>)
      requires Consistent() && |lucks| == |recipients|
      modifies this
      ensures status == old(status)
      ensures status != Running ==> unchanged(this) && stopped == None
      ensures Consistent() && |recipients| == |old(recipients)|
      ensures (forall r :: 0 <= r < |lucks| ==> lucks[r].again == Never) ==> stopped == None
      ensures status == Running && stopped == None ==>
                var todo := PendingIn(old(recipients), batch);
                && Progress(old(recipients), recipients, todo, |todo|)
                && PendingIn(recipients, batch) == []
                && |todo| == Tally(recipients, todo, Skipped) + Tally(recipients, todo, Enqueued)
                             + Tally(recipients, todo, FailedOn)
                && failedCount == old(failedCount) + Tally(recipients, todo, FailedOn)
                && Delivers(old(recipients), old(messages), old(jobs), recipients, messages, jobs, lucks, todo)
      ensures status == Running && stopped == None ==>
                forall r :: r in PendingIn(old(recipients), batch) && lucks[r].throwsAt == None ==>
                  recipients[r].status == if lucks[r].validContact then Enqueued else Skipped
      ensures status == Running && stopped == None ==>
                forall r :: r in PendingIn(old(recipients), batch) ==>
                  && (recipients[r].status == Enqueued ==> LinkedTo(recipients[r], messages))
                  && (recipients[r].status == FailedOn ==> lucks[r].throwsAt.Some?)
      ensures status == Running && stopped == None
              && (forall r :: r in PendingIn(old(recipients), batch) ==> lucks[r].throwsAt == None) ==>
                MakesExactly(old(recipients), old(messages), old(jobs), messages, jobs, lucks,
                             PendingIn(old(recipients), batch))
      ensures stopped.Some? ==>
                var todo := PendingIn(old(recipients), batch);
                && stopped.value < |todo|
                && Progress(old(recipients), recipients[todo[stopped.value] := old(recipients)[todo[stopped.value]]],
                            todo, stopped.value)
                && failedCount == old(failedCount) + Tally(recipients, todo[..stopped.value], FailedOn)
                && MadeUpTo(old(recipients), old(messages), old(jobs), recipients, messages, jobs, lucks, todo,
                            stopped.value)
    {
      stopped := None;
      if status != Running {
        return;
      }
      hide Tally, Progress, Delivers, MakesExactly, MadeUpTo, LinksOk, LinkedTo, OnePerContact;
      var todo := PendingIn(recipients, batch);
      ghost var before, list, queue := recipients, messages, jobs;
      stopped := ProcessList(todo, lucks);
      if stopped.None? {
        assert todo[..|todo|] == todo;
        AllSettled(before, recipients, batch);
        EachDelivered(before, list, queue, recipients, messages, jobs, lucks, todo);
        if forall r :: r in todo ==> lucks[r].throwsAt == None {
          AllMade(before, list, queue, recipients, messages, jobs, lucks, todo);
        }
      }
    }

    /** The loop over the recipients. */
    method ProcessList(todo: seq<nat>, lucks: seq<Luck>) returns (stopped: Option<nat>)
      requires Consistent() && |lucks| == |recipients|
      requires forall i :: 0 <= i < |todo| ==> todo[i] < |recipients| && recipients[todo[i]].status == Pending
      requires forall i, j :: 0 <= i < j < |todo| ==> todo[i] < todo[j]
      modifies this`recipients, this`messages, this`jobs, this`failedCount
      ensures Consistent() && |recipients| == |old(recipients)|
      ensures (forall r :: 0 <= r < |lucks| ==> lucks[r].again == Never) ==> stopped == None
      ensures stopped == None ==>
                && Progress(old(recipients), recipients, todo, |todo|)
                && failedCount == old(failedCount) + Tally(recipients, todo, FailedOn)
                && Delivers(old(recipients), old(messages), old(jobs), recipients, messages, jobs, lucks, todo)
      ensures stopped.Some? ==>
                && stopped.value < |todo|
                && Progress(old(recipients), recipients[todo[stopped.value] := old(recipients)[todo[stopped.value]]],
                            todo, stopped.value)
                && failedCount == old(failedCount) + Tally(recipients, todo[..stopped.value], FailedOn)
                && MadeUpTo(old(recipients), old(messages), old(jobs), recipients, messages, jobs, lucks, todo,
                            stopped.value)
    {
      stopped := None;
      hide LinksOk, Tally, Delivers, MadeUpTo, LinkedTo, EndsAs, Creates, Publishes, NewMessages, NewJobs;
      ghost var before := recipients;
      NothingSettled(recipients, todo);
      NothingDelivered(before, messages, jobs, lucks);
      OneContactEach(before, messages);
      assert todo[..0] == [];
      for k := 0 to |todo|
        invariant Consistent()
        invariant Progress(before, recipients, todo, k)
        invariant Delivers(before, old(messages), old(jobs), recipients, messages, jobs, lucks, todo[..k])
        invariant failedCount == old(failedCount) + Tally(recipients, todo[..k], FailedOn)
      {
        ghost var table, list, queue := recipients, messages, jobs;
        SoFar(before, old(messages), old(jobs), table, list, queue, lucks, todo, k);
        var escaped := HandleRecipient(todo[k], lucks[todo[k]]);
        if escaped {
          StoppedHere(before, table, recipients, todo, k);
          MadeUpToHere(before, old(messages), old(jobs), table, list, queue, recipients, messages, jobs,
                       lucks, todo, k);
          return Some(k);
        }
        TallyNext(before, table, recipients, todo, k);
        DeliversNext(before, old(messages), old(jobs), table, list, queue, recipients, messages, jobs, lucks, todo, k);
      }
      assert todo[..|todo|] == todo;
    }
  }

  /** The listed recipients ended as their lucks say, queued ones linked to their
      contact's message, and what was created and published is exactly theirs. */
  ghost predicate Delivers(
    before: seq<Recipient>, list: seq<nat>, queue: set<nat>,
    now: seq<Recipient>, messages: seq<nat>, jobs: set<nat>, lucks: seq<Luck>, todo: seq<nat>)
  {
    && |now| == |before| == |lucks| && (forall k :: 0 <= k < |todo| ==> todo[k] < |before|)
    && messages == list + NewMessages(before, list, lucks, todo) && jobs == queue + NewJobs(before, list, lucks, todo)
    && (forall k :: 0 <= k < |todo| ==>
          && now[todo[k]].contact == before[todo[k]].contact
          && EndsAs(now[todo[k]].status, lucks[todo[k]], before[todo[k]].contact in list)
          && (now[todo[k]].status == Enqueued ==> LinkedTo(now[todo[k]], messages)))
  }

  /** The new messages are for exactly the valid contacts that had none, and exactly
      they are the new jobs. */
  ghost predicate MakesExactly(
    before: seq<Recipient>, list: seq<nat>, queue: set<nat>, messages: seq<nat>, jobs: set<nat>,
    lucks: seq<Luck>, todo: seq<nat>)
    requires |lucks| == |before| && forall k :: 0 <= k < |todo| ==> todo[k] < |before|
  {
    && list <= messages
    && (forall c :: c in messages[|list|..] ==>
          exists k :: 0 <= k < |todo| && before[todo[k]].contact == c && lucks[todo[k]].validContact && c !in list)
    && (forall k :: 0 <= k < |todo| && lucks[todo[k]].validContact && before[todo[k]].contact !in list ==>
          before[todo[k]].contact in messages[|list|..])
    && (forall m: nat :: m in jobs <==> m in queue || |list| <= m < |messages|)
  }

  lemma AllMade(
    before: seq<Recipient>, list: seq<nat>, queue: set<nat>,
    now: seq<Recipient>, messages: seq<nat>, jobs: set<nat>, lucks: seq<Luck>, todo: seq<nat>)
    requires Delivers(before, list, queue, now, messages, jobs, lucks, todo)
    requires forall r :: r in todo ==> lucks[r].throwsAt == None
    ensures MakesExactly(before, list, queue, messages, jobs, lucks, todo)
  {
    NewIfNothingThrows(before, list, lucks, todo);
    assert messages[|list|..] == NewMessages(before, list, lucks, todo);
  }

  ghost predicate LinkedTo(r: Recipient, messages: seq<nat>) {
    r.message.Some? && r.message.value < |messages| && messages[r.message.value] == r.contact
  }

  ghost predicate OnePerContact(rs: seq<Recipient>) {
    forall i, j :: 0 <= i < j < |rs| ==> rs[i].contact != rs[j].contact
  }

  lemma OneContactEach(rs: seq<Recipient>, messages: seq<nat>)
    requires LinksOk(rs, messages)
    ensures OnePerContact(rs)
  {
  }

  lemma NothingDelivered(rs: seq<Recipient>, messages: seq<nat>, jobs: set<nat>, lucks: seq<Luck>)
    requires |lucks| == |rs|
    ensures Delivers(rs, messages, jobs, rs, messages, jobs, lucks, [])
  {
  }

  /** The messages created so far are for other contacts. */
  lemma SoFar(
    before: seq<Recipient>, list0: seq<nat>, queue0: set<nat>,
    table: seq<Recipient>, list: seq<nat>, queue: set<nat>, lucks: seq<Luck>, todo: seq<nat>, k: nat)
    requires k < |todo| && OnePerContact(before)
    requires forall i, j :: 0 <= i < j < |todo| ==> todo[i] < todo[j]
    requires forall j :: 0 <= j < |todo| ==> todo[j] < |before|
    requires Delivers(before, list0, queue0, table, list, queue, lucks, todo[..k])
    ensures before[todo[k]].contact in list <==> before[todo[k]].contact in list0
  {
    NewForListed(before, list0, lucks, todo[..k]);
  }

  lemma DeliversNext(
    before: seq<Recipient>, list0: seq<nat>, queue0: set<nat>,
    table: seq<Recipient>, list: seq<nat>, queue: set<nat>,
    now: seq<Recipient>, messages: seq<nat>, jobs: set<nat>, lucks: seq<Luck>, todo: seq<nat>, k: nat)
    requires k < |todo| && (forall j :: 0 <= j < |todo| ==> todo[j] < |before|)
    requires forall i, j :: 0 <= i < j < |todo| ==> todo[i] < todo[j]
    requires Delivers(before, list0, queue0, table, list, queue, lucks, todo[..k])
    requires |now| == |table| && now == table[todo[k] := now[todo[k]]]
    requires table[todo[k]].contact == before[todo[k]].contact == now[todo[k]].contact
    requires before[todo[k]].contact in list <==> before[todo[k]].contact in list0
    requires EndsAs(now[todo[k]].status, lucks[todo[k]], before[todo[k]].contact in list)
    requires now[todo[k]].status == Enqueued ==> LinkedTo(now[todo[k]], messages)
    requires messages == list
                         + if Creates(lucks[todo[k]], before[todo[k]].contact in list)
                           then [before[todo[k]].contact]
                           else []
    requires jobs == queue + if Publishes(lucks[todo[k]], before[todo[k]].contact in list) then {|list|} else {}
    ensures Delivers(before, list0, queue0, now, messages, jobs, lucks, todo[..k + 1])
  {
    assert todo[..k + 1][..k] == todo[..k];
    forall j | 0 <= j < k
      ensures now[todo[j]] == table[todo[j]]
    {
      assert todo[j] != todo[k];
    }
    assert forall j :: 0 <= j < k ==> todo[..k][j] == todo[j] == todo[..k + 1][j];
  }

  /** What that says of each recipient, with the statuses written out. */
  lemma EachDelivered(
    before: seq<Recipient>, list: seq<nat>, queue: set<nat>,
    now: seq<Recipient>, messages: seq<nat>, jobs: set<nat>, lucks: seq<Luck>, todo: seq<nat>)
    requires Delivers(before, list, queue, now, messages, jobs, lucks, todo)
    ensures forall r :: r in todo && lucks[r].throwsAt == None ==>
              now[r].status == if lucks[r].validContact then Enqueued else Skipped
    ensures forall r :: r in todo && now[r].status == Enqueued ==> LinkedTo(now[r], messages)
    ensures forall r :: r in todo && now[r].status == FailedOn ==> lucks[r].throwsAt.Some?
  {
  }

  /** Stopped at position k: the first k ended as their lucks say, and what was created
      and published is theirs and that of the k-th. */
  ghost predicate MadeUpTo(
    before: seq<Recipient>, list: seq<nat>, queue: set<nat>,
    now: seq<Recipient>, messages: seq<nat>, jobs: set<nat>, lucks: seq<Luck>, todo: seq<nat>, k: nat)
  {
    && |now| == |before| == |lucks| && k < |todo| && (forall j :: 0 <= j <= k ==> todo[j] < |before|)
    && messages == list + NewMessages(before, list, lucks, todo[..k + 1])
    && jobs == queue + NewJobs(before, list, lucks, todo[..k + 1])
    && (forall j :: 0 <= j < k ==>
          EndsAs(now[todo[j]].status, lucks[todo[j]], before[todo[j]].contact in list))
  }

  lemma MadeUpToHere(
    before: seq<Recipient>, list0: seq<nat>, queue0: set<nat>,
    table: seq<Recipient>, list: seq<nat>, queue: set<nat>,
    now: seq<Recipient>, messages: seq<nat>, jobs: set<nat>, lucks: seq<Luck>, todo: seq<nat>, k: nat)
    requires k < |todo| && (forall j :: 0 <= j < |todo| ==> todo[j] < |before|)
    requires forall i, j :: 0 <= i < j < |todo| ==> todo[i] < todo[j]
    requires Delivers(before, list0, queue0, table, list, queue, lucks, todo[..k])
    requires |now| == |table| && now == table[todo[k] := now[todo[k]]]
    requires before[todo[k]].contact in list <==> before[todo[k]].contact in list0
    requires messages == list
                         + if Creates(lucks[todo[k]], before[todo[k]].contact in list)
                           then [before[todo[k]].contact]
                           else []
    requires jobs == queue + if Publishes(lucks[todo[k]], before[todo[k]].contact in list) then {|list|} else {}
    ensures MadeUpTo(before, list0, queue0, now, messages, jobs, lucks, todo, k)
  {
    hide EndsAs, LinkedTo;
    assert todo[..k + 1][..k] == todo[..k];
    forall j | 0 <= j < k
      ensures EndsAs(now[todo[j]].status, lucks[todo[j]], before[todo[j]].contact in list0)
    {
      assert todo[j] != todo[k] && todo[..k][j] == todo[j];
    }
  }

  /** The first k of the list are settled, everybody else is as before. */
  ghost predicate Progress(before: seq<Recipient>, now: seq<Recipient>, todo: seq<nat>, k: nat) {
    && |now| == |before| && k <= |todo|
    && (forall j :: 0 <= j < k ==> todo[j] < |now| && now[todo[j]].status in {Skipped, Enqueued, FailedOn})
    && (forall r: nat :: r < |now| && r !in todo[..k] ==> now[r] == before[r])
  }

  lemma NothingSettled(recipients: seq<Recipient>, todo: seq<nat>)
    ensures Progress(recipients, recipients, todo, 0) && Tally(recipients, todo[..0], FailedOn) == 0
  {
  }

  lemma AllSettled(before: seq<Recipient>, now: seq<Recipient>, batch: nat)
    requires Progress(before, now, PendingIn(before, batch), |PendingIn(before, batch)|)
    ensures PendingIn(now, batch) == []
    ensures var todo := PendingIn(before, batch);
            |todo| == Tally(now, todo, Skipped) + Tally(now, todo, Enqueued) + Tally(now, todo, FailedOn)
  {
    var todo := PendingIn(before, batch);
    assert todo[..|todo|] == todo;
    TallySplits(now, todo);
    NobodyPending(now, batch);
  }

  lemma StoppedHere(before: seq<Recipient>, now: seq<Recipient>, next: seq<Recipient>, todo: seq<nat>, k: nat)
    requires Progress(before, now, todo, k) && k < |todo| && todo[k] < |now| == |next|
    requires forall i, j :: 0 <= i < j < |todo| ==> todo[i] < todo[j]
    requires next == now[todo[k] := next[todo[k]]]
    ensures Progress(before, next[todo[k] := before[todo[k]]], todo, k)
    ensures Tally(next, todo[..k], FailedOn) == Tally(now, todo[..k], FailedOn)
  {
    assert next[todo[k] := before[todo[k]]] == now;
    TallyFrame(now, next, todo[..k], FailedOn);
  }

  lemma TallyNext(before: seq<Recipient>, now: seq<Recipient>, next: seq<Recipient>, todo: seq<nat>, k: nat)
    requires Progress(before, now, todo, k) && k < |todo| && todo[k] < |now| == |next|
    requires forall i, j :: 0 <= i < j < |todo| ==> todo[i] < todo[j]
    requires next == now[todo[k] := next[todo[k]]] && next[todo[k]].status in {Skipped, Enqueued, FailedOn}
    ensures Progress(before, next, todo, k + 1)
    ensures Tally(next, todo[..k + 1], FailedOn)
            == Tally(now, todo[..k], FailedOn) + One(next[todo[k]].status == FailedOn)
  {
    assert todo[..k + 1] == todo[..k] + [todo[k]];
    assert todo[..k + 1][..k] == todo[..k];
    TallyFrame(now, next, todo[..k], FailedOn);
  }
}
