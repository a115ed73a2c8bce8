/** The campaign executor: inserting the audience in chunks, numbering batches,
    and dispatching batch jobs at staggered times. */
module CampaignExecutor {
  import opened Prelude
  import opened Counting
  import opened CampaignRun

  const BATCH_SIZE: nat := 50
  const BATCH_DELAY_SECONDS: nat := 2
  const MAX_RECIPIENTS: nat := 100_000
  const INSERT_BATCH_SIZE: nat := 1000

  datatype Resolution = Inserted | NoRecipients | TooMany | InsertFailed

  /** Where the store or the queue throws during one executor job, if it does: before
      the try block, with the campaign started or not; at a query; after so many chunks;
      at the total; while the completion is written up, after or before the status was
      changed; or after so many publishes. */
  datatype Trouble =
    | NoTrouble
    | AtLoad(started: bool)
    | AtCheck
    | AtInsert(chunks: nat)
    | AtTotal
    | AtCompletion(written: bool)
    | AtDispatch(publishes: nat)

  /** Whether the catch block throws as well: at the status or at the event record. */
  datatype Again = Never | AtStatus | AtRecord

  datatype Outcome = Escaped | LeftAlone | CompletedNow | Refused | Troubled | Dispatched

  datatype BatchJob = BatchJob(batch: nat, delay: nat)

  /** The recipient record of the contact at position g of the audience. */
  function RecipientAt(contacts: seq<nat>, g: nat): Recipient
    requires g < |contacts|
  {
    Recipient(g / BATCH_SIZE + 1, contacts[g], Pending, None)
  }

  /** The whole audience, in order. */
  function Audience(contacts: seq<nat>): (rs: seq<Recipient>)
    ensures |rs| == |contacts|
    ensures forall g :: 0 <= g < |contacts| ==> rs[g] == RecipientAt(contacts, g)
  {
    seq(|contacts|, g requires 0 <= g < |contacts| => RecipientAt(contacts, g))
  }

  predicate Distinct(contacts: seq<nat>) {
    forall i, j :: 0 <= i < j < |contacts| ==> contacts[i] != contacts[j]
  }

  function InBatch(b: nat): Recipient -> bool {
    (r: Recipient) => r.batch == b
  }

  function Clamp(x: int): nat {
    if x < 0 then 0 else if x > BATCH_SIZE then BATCH_SIZE else x
  }

  lemma {:induction false} AudienceBatchSize(contacts: seq<nat>, b: nat)
    requires b >= 1
    ensures Count(Audience(contacts), InBatch(b)) == Clamp(|contacts| - BATCH_SIZE * (b - 1))
    decreases |contacts|
  {
    var rs := Audience(contacts);
    if contacts == [] {
      assert rs == [];
    } else {
      var last := |contacts| - 1;
      assert rs[..last] == Audience(contacts[..last]);
      AudienceBatchSize(contacts[..last], b);
    }
  }

  function LastBatch(contacts: seq<nat>): nat { (|contacts| + BATCH_SIZE - 1) / BATCH_SIZE }

  /** Batches are numbered 1 to the count over fifty rounded up; every one but the
      last holds exactly fifty recipients, and none is empty. */
  lemma AudienceBatches(contacts: seq<nat>)
    ensures forall g :: 0 <= g < |contacts| ==> 1 <= Audience(contacts)[g].batch <= LastBatch(contacts)
    ensures forall b :: 1 <= b < LastBatch(contacts) ==> Count(Audience(contacts), InBatch(b)) == BATCH_SIZE
    ensures contacts != [] ==> 1 <= Count(Audience(contacts), InBatch(LastBatch(contacts))) <= BATCH_SIZE
    ensures Count(Audience(contacts), InBatch(LastBatch(contacts) + 1)) == 0
  {
    forall b | 1 <= b < LastBatch(contacts)
      ensures Count(Audience(contacts), InBatch(b)) == BATCH_SIZE
    {
      AudienceBatchSize(contacts, b);
    }
    AudienceBatchSize(contacts, LastBatch(contacts) + 1);
    if contacts != [] {
      AudienceBatchSize(contacts, LastBatch(contacts));
    }
  }

  function MaxBatch(recipients: seq<Recipient>): (max: nat)
    ensures forall r :: 0 <= r < |recipients| ==> recipients[r].batch <= max
  {
    if recipients == [] then 0
    else
      var before := MaxBatch(recipients[..|recipients| - 1]);
      var last := recipients[|recipients| - 1].batch;
      if before < last then last else before
  }

  /** The jobs for these batches, two seconds apart. */
  function Staggered(batches: seq<nat>): (jobs: seq<BatchJob>)
    ensures |jobs| == |batches|
    ensures forall k :: 0 <= k < |batches| ==> jobs[k] == BatchJob(batches[k], k * BATCH_DELAY_SECONDS)
  {
    seq(|batches|, k requires 0 <= k < |batches| => BatchJob(batches[k], k * BATCH_DELAY_SECONDS))
  }

  /** Exactly the batches with somebody PENDING, in increasing order. */
  ghost predicate ListsPending(recipients: seq<Recipient>, batches: seq<nat>) {
    && (forall j, k :: 0 <= j < k < |batches| ==> batches[j] < batches[k])
    && (forall b: nat :: b >= 1 ==> (b in batches <==> PendingIn(recipients, b) != []))
    && (forall k :: 0 <= k < |batches| ==> batches[k] >= 1)
  }

  class CampaignExecutorWorker {
    var status: CampaignStatus
    var recipients: seq<Recipient>
    var totalRecipients: nat
    var inserts: seq<seq<Recipient>>
    var jobs: seq<BatchJob>
    var completedEvents: nat
    var failedEvents: nat

    constructor (initial: CampaignStatus)
      ensures status == initial && recipients == [] && totalRecipients == 0 && inserts == [] && jobs == []
      ensures completedEvents == 0 && failedEvents == 0
    {
      status := initial;
      recipients, totalRecipients, inserts, jobs, completedEvents, failedEvents := [], 0, [], [], 0, 0;
    }

    /** createMany with skipDuplicates on (campaign, contact). */
    method BulkCreate(rows: seq<Recipient>)
      modifies this`recipients, this`inserts
      ensures inserts == old(inserts) + [rows] && recipients == Merge(old(recipients), rows)
    {
      inserts := inserts + [rows];
      for i := 0 to |rows|
        invariant inserts == old(inserts) + [rows] && recipients == Merge(old(recipients), rows[..i])
      {
        assert rows[..i + 1][..i] == rows[..i];
        if !HasContact(recipients, rows[i].contact) {
          recipients := recipients + [rows[i]];
        }
      }
      assert rows[..|rows|] == rows;
    }

    /** The insertion loop: chunk by chunk is all at once, whatever the chunk size.
        If a chunk fails, what is in the table is a first part of the audience. */
    method InsertChunks(contacts: seq<nat>, chunk: nat, trouble: Trouble) returns (done: bool)
      requires chunk >= 1 && Distinct(contacts) && recipients == []
      modifies this`recipients, this`inserts
      ensures !trouble.AtInsert? ==> done
      ensures recipients == Audience(contacts)[..Bound(|recipients|, contacts)]
      ensures Concat(inserts) == Concat(old(inserts)) + recipients
      ensures done ==> recipients == Audience(contacts)
    {
      hide Audience, Concat, NewContacts, Merge, OnePerContact;
      ghost var audience := Audience(contacts);
      ghost var filled: nat := 0;
      var i: nat := 0;
      var chunks: nat := 0;
      while i < |contacts|
        invariant filled == Bound(i, contacts) && |recipients| == filled && recipients == audience[..filled]
        invariant Concat(inserts) == Concat(old(inserts)) + recipients
        decreases |contacts| - i
      {
        if trouble == AtInsert(chunks) {
          return false;
        }
        filled := Bound(i + chunk, contacts);
        var rows := Chunk(contacts, i, Bound(i + chunk, contacts));
        MergeNew(recipients, rows);
        ConcatAppend(inserts, rows);
        BulkCreate(rows);
        i, chunks := i + chunk, chunks + 1;
      }
      return true;
    }

    /** An empty or oversized audience is refused before anything is written; any
        other ends up in the table, in order, unless a chunk fails. */
    method ResolveAndCreateRecipients(contacts: seq<nat>, chunk: nat, trouble: Trouble) returns (result: Resolution)
      requires chunk >= 1 && Distinct(contacts) && recipients == []
      modifies this`recipients, this`inserts, this`totalRecipients
      ensures result == NoRecipients <==> |contacts| == 0
      ensures result == TooMany <==> |contacts| > 100_000
      ensures result.NoRecipients? || result.TooMany? ==> unchanged(this)
      ensures result.Inserted? ==>
                recipients == Audience(contacts) && totalRecipients == |contacts| && !trouble.AtTotal?
      ensures result.Inserted? ==> Concat(inserts) == Concat(old(inserts)) + Audience(contacts)
      ensures result.InsertFailed? ==>
                && (trouble.AtInsert? || trouble.AtTotal?)
                && recipients == Audience(contacts)[..Bound(|recipients|, contacts)]
    {
      if |contacts| == 0 {
        return NoRecipients;
      }
      if |contacts| > MAX_RECIPIENTS {
        return TooMany;
      }
      var done := InsertChunks(contacts, chunk, trouble);
      if !done || trouble == AtTotal {
        return InsertFailed;
      }
      totalRecipients := |contacts|;
      return Inserted;
    }

    /** The batches with somebody PENDING, in increasing order. */
    method FindPendingBatches() returns (pendingBatches: seq<nat>)
      ensures ListsPending(recipients, pendingBatches)
    {
      var maxBatch := MaxBatch(recipients);
      pendingBatches := [];
      for batch := 1 to maxBatch + 1
        invariant forall j, k :: 0 <= j < k < |pendingBatches| ==> pendingBatches[j] < pendingBatches[k]
        invariant forall k :: 0 <= k < |pendingBatches| ==> 1 <= pendingBatches[k] < batch
        invariant forall b: nat :: 1 <= b < batch ==> (b in pendingBatches <==> PendingIn(recipients, b) != [])
      {
        if |PendingIn(recipients, batch)| > 0 {
          pendingBatches := pendingBatches + [batch];
        }
      }
      NothingBeyondMax(recipients);
    }

    /** One job for every batch with somebody PENDING, once each, in increasing
        order, the k-th delayed by 2k seconds; a first part of them if a publish
        fails. */
    method DispatchBatches(trouble: Trouble) returns (pendingBatches: seq<nat>, done: bool)
      modifies this`jobs
      ensures ListsPending(recipients, pendingBatches)
      ensures done ==> jobs == old(jobs) + Staggered(pendingBatches) && AllJobs(recipients, old(jobs), jobs)
      ensures FirstJobs(recipients, old(jobs), jobs)
      ensures !trouble.AtDispatch? ==> done
    {
      pendingBatches := FindPendingBatches();
      for i := 0 to |pendingBatches|
        invariant jobs == old(jobs) + Staggered(pendingBatches)[..i]
      {
        if trouble == AtDispatch(i) {
          assert |jobs| == |old(jobs)| + i;
          return pendingBatches, false;
        }
        var delaySeconds := i * BATCH_DELAY_SECONDS;
        if delaySeconds > 0 {
          jobs := jobs + [BatchJob(pendingBatches[i], delaySeconds)];
        } else {
          jobs := jobs + [BatchJob(pendingBatches[i], 0)];
        }
      }
      return pendingBatches, true;
    }

    /** transitionStatus, the compare-and-set on the campaign's status. */
    method TransitionStatus(expected: CampaignStatus, target: CampaignStatus) returns (done: bool)
      modifies this`status
      ensures done == (old(status) == expected)
      ensures status == if done then target else old(status)
    {
      done := status == expected;
      if done {
        status := target;
      }
    }

    /** What the executor does with any exception: announced even if the status was
        no longer RUNNING, unless the catch block throws itself. */
    method Fail(again: Again)
      modifies this`status, this`failedEvents
      ensures status == if old(status) == Running && again != AtStatus then CampaignStatus.Failed else old(status)
      ensures failedEvents == old(failedEvents) + One(again == Never)
    {
      if again == AtStatus {
        return;
      }
      var _ := TransitionStatus(Running, CampaignStatus.Failed);
      if again == AtRecord {
        return;
      }
      failedEvents := failedEvents + 1;
    }

    /** completeCampaign: the result of the compare-and-set is not looked at. */
    method CompleteCampaign(trouble: Trouble) returns (done: bool)
      modifies this`status, this`completedEvents
      ensures done == !trouble.AtCompletion?
      ensures status == if old(status) == Running && trouble != AtCompletion(false) then Completed else old(status)
      ensures completedEvents == old(completedEvents) + One(done)
    {
      if trouble == AtCompletion(false) {
        return false;
      }
      var _ := TransitionStatus(Running, Completed);
      if trouble == AtCompletion(true) {
        return false;
      }
      completedEvents := completedEvents + 1;
      return true;
    }

    /** The try block, on a running campaign. Refused and Troubled end in an exception. */
    method Try(contacts: seq<nat>, trouble: Trouble) returns (outcome: Outcome)
      requires Distinct(contacts) && status == Running && !trouble.AtLoad?
      modifies this`status, this`recipients, this`totalRecipients, this`inserts, this`jobs, this`completedEvents
      ensures outcome != LeftAlone && outcome != Escaped
      ensures Justified(outcome, old(recipients), contacts, trouble)
      ensures status
              == if outcome == CompletedNow || (outcome == Troubled && trouble == AtCompletion(true)) then Completed
                 else Running
      ensures completedEvents == old(completedEvents) + One(outcome == CompletedNow)
      ensures FilledIn(outcome, old(recipients), recipients, contacts)
      ensures JobsAdded(outcome, recipients, old(jobs), jobs)
    {
      hide ListsPending, Staggered, Audience, Concat, Merge, Distinct, AllJobs, FirstJobs;
      if trouble == AtCheck {
        return Troubled;
      }
      var hasPending := Count(recipients, IsPending) > 0;
      if !hasPending {
        if |recipients| == 0 {
          var result := ResolveAndCreateRecipients(contacts, INSERT_BATCH_SIZE, trouble);
          if result != Inserted {
            return if result == InsertFailed then Troubled else Refused;
          }
        } else {
          var done := CompleteCampaign(trouble);
          return if done then CompletedNow else Troubled;
        }
      }
      var batches, done := DispatchBatches(trouble);
      return if done then Dispatched else Troubled;
    }

    /** The try block and its catch. */
    method Launch(contacts: seq<nat>, trouble: Trouble, again: Again) returns (outcome: Outcome)
      requires Distinct(contacts) && status == Running && !trouble.AtLoad?
      modifies this
      ensures outcome != LeftAlone && outcome != Escaped
      ensures Justified(outcome, old(recipients), contacts, trouble)
      ensures status == Leaves(outcome, trouble, again)
      ensures completedEvents == old(completedEvents) + One(outcome == CompletedNow)
      ensures failedEvents == old(failedEvents) + One((outcome == Refused || outcome == Troubled) && again == Never)
      ensures FilledIn(outcome, old(recipients), recipients, contacts)
      ensures JobsAdded(outcome, recipients, old(jobs), jobs)
    {
      hide Justified, FilledIn, JobsAdded, Distinct;
      outcome := Try(contacts, trouble);
      if outcome == Refused || outcome == Troubled {
        Fail(again);
      }
    }

    /** One executor job. A campaign that is not running, nor scheduled and now
        due, is left alone. A recipient table that is not empty is never added to,
        so an insertion cut short is not resumed; with nobody PENDING in it the
        campaign is completed, and otherwise its pending batches are dispatched.
        An exception in the try block ends in FAILED, except after the completion;
        one before it changes nothing but the start of a scheduled campaign. The queue
        gets back what escapes (`threw`). */
    method Handle(contacts: seq<nat>, scheduled: bool, trouble: Trouble, again: Again)
      returns (outcome: Outcome, threw: bool)
      requires Distinct(contacts)
      modifies this
      ensures outcome == Escaped <==> trouble.AtLoad?
      ensures outcome == LeftAlone
              <==> !trouble.AtLoad? && old(status) != Running && !(scheduled && old(status) == Scheduled)
      ensures threw <==> outcome == Escaped || ((outcome == Refused || outcome == Troubled) && again != Never)
      ensures outcome == LeftAlone ==> unchanged(this)
      ensures outcome == Escaped ==>
                && recipients == old(recipients) && jobs == old(jobs)
                && completedEvents == old(completedEvents) && failedEvents == old(failedEvents)
                && status == if trouble.started && scheduled && old(status) == Scheduled then Running else old(status)
      ensures outcome != LeftAlone && outcome != Escaped ==>
                && Justified(outcome, old(recipients), contacts, trouble)
                && status == Leaves(outcome, trouble, again)
                && completedEvents == old(completedEvents) + One(outcome == CompletedNow)
                && failedEvents
                   == old(failedEvents) + One((outcome == Refused || outcome == Troubled) && again == Never)
                && FilledIn(outcome, old(recipients), recipients, contacts)
                && JobsAdded(outcome, recipients, old(jobs), jobs)
      // nothing throwing: a first launch
      ensures outcome != LeftAlone && trouble == NoTrouble && old(recipients) == [] && 1 <= |contacts| <= 100_000 ==>
                && status == Running && !threw
                && FirstLaunch(contacts, recipients, old(jobs), jobs)
                && completedEvents == old(completedEvents) && failedEvents == old(failedEvents)
      // without an audience, or with one too large
      ensures outcome != LeftAlone && trouble == NoTrouble && again == Never && old(recipients) == [] &&
              !(1 <= |contacts| <= 100_000) ==>
                && status == CampaignStatus.Failed && !threw && recipients == [] && jobs == old(jobs)
                && completedEvents == old(completedEvents) && failedEvents == old(failedEvents) + 1
      // launched again
      ensures outcome != LeftAlone && trouble == NoTrouble && old(recipients) != [] ==>
                && recipients == old(recipients) && !threw
                && (status == Completed <==> NobodyWaits(old(recipients)))
                && (status == Completed ==> jobs == old(jobs) && completedEvents == old(completedEvents) + 1)
                && (status != Completed ==>
                      && status == Running && AllJobs(recipients, old(jobs), jobs)
                      && completedEvents == old(completedEvents))
                && failedEvents == old(failedEvents)
    {
      hide Justified, FilledIn, JobsAdded, Distinct, AllJobs, FirstLaunch, NobodyWaits;
      if trouble == AtLoad(false) {
        return Escaped, true;
      }
      if scheduled && status == Scheduled {
        var _ := TransitionStatus(Scheduled, Running);
      }
      if trouble == AtLoad(true) {
        return Escaped, true;
      }
      if status != Running {
        return LeftAlone, false;
      }
      outcome := Launch(contacts, trouble, again);
      if trouble == NoTrouble {
        Undisturbed(outcome, old(recipients), recipients, contacts, old(jobs), jobs);
      }
      threw := (outcome == Refused || outcome == Troubled) && again != Never;
    }
  }

  /** A first launch: everybody is in the table in order, PENDING and without a
      message, fifty to a batch from batch 1 on; and every batch has its job, two
      seconds after the one before. */
  ghost predicate FirstLaunch(contacts: seq<nat>, recipients: seq<Recipient>,
                              before: seq<BatchJob>, after: seq<BatchJob>)
  {
    && |recipients| == |contacts|
    && (forall g :: 0 <= g < |contacts| ==> recipients[g] == Recipient(g / 50 + 1, contacts[g], Pending, None))
    && |after| == |before| + (|contacts| + 49) / 50
    && after[..|before|] == before
    && (forall k :: |before| <= k < |after| ==>
          after[k] == BatchJob(k - |before| + 1, 2 * (k - |before|)))
  }

  ghost predicate NobodyWaits(recipients: seq<Recipient>) {
    forall r :: 0 <= r < |recipients| ==> recipients[r].status != Pending
  }

  /** What the outcomes come to when nothing throws. */
  lemma Undisturbed(outcome: Outcome, table: seq<Recipient>, recipients: seq<Recipient>, contacts: seq<nat>,
                    before: seq<BatchJob>, after: seq<BatchJob>)
    requires outcome != LeftAlone && outcome != Escaped
    requires Justified(outcome, table, contacts, NoTrouble) && FilledIn(outcome, table, recipients, contacts)
    requires JobsAdded(outcome, recipients, before, after)
    ensures outcome != Troubled
    ensures table == [] && 1 <= |contacts| <= 100_000 ==>
              outcome == Dispatched && FirstLaunch(contacts, recipients, before, after)
    ensures table == [] && !(1 <= |contacts| <= 100_000) ==>
              outcome == Refused && recipients == [] && after == before
    ensures table != [] ==> recipients == table
    ensures table != [] && NobodyWaits(table) ==> outcome == CompletedNow && after == before
    ensures table != [] && !NobodyWaits(table) ==> outcome == Dispatched && AllJobs(recipients, before, after)
  {
    hide ListsPending, Staggered, FirstLaunch;
    if table == [] && Eligible(contacts) {
      var batches :| ListsPending(recipients, batches) && after == before + Staggered(batches);
      FreshDispatch(contacts, batches);
      Launched(contacts, batches, before);
    }
    if NobodyWaits(table) {
      CountZero(table, IsPending);
    } else {
      var r :| 0 <= r < |table| && table[r].status == Pending;
      CountPositive(table, r, IsPending);
    }
  }

  lemma Launched(contacts: seq<nat>, batches: seq<nat>, before: seq<BatchJob>)
    requires |batches| == (|contacts| + 49) / 50 && forall k :: 0 <= k < |batches| ==> batches[k] == k + 1
    ensures FirstLaunch(contacts, Audience(contacts), before, before + Staggered(batches))
  {
  }

  /** The batches of a fresh audience are 1, 2, 3 and so on to the last: a new recipient
      is PENDING. */
  lemma FreshDispatch(contacts: seq<nat>, batches: seq<nat>)
    requires ListsPending(Audience(contacts), batches)
    ensures |batches| == (|contacts| + 49) / 50
    ensures forall k :: 0 <= k < |batches| ==> batches[k] == k + 1
  {
    var n: nat := (|contacts| + 49) / 50;
    forall b: nat | b >= 1
      ensures b in batches <==> b <= n
    {
      var rs := Audience(contacts);
      if b <= n {
        assert rs[50 * (b - 1)] == RecipientAt(contacts, 50 * (b - 1));
        assert 50 * (b - 1) in PendingIn(rs, b);
      } else {
        AudienceBatches(contacts);
        NobodyPending(rs, b);
      }
    }
    hide ListsPending;
    UpTo(batches, n);
  }

  lemma {:induction false} UpTo(batches: seq<nat>, n: nat)
    requires forall j, k :: 0 <= j < k < |batches| ==> batches[j] < batches[k]
    requires forall k :: 0 <= k < |batches| ==> batches[k] >= 1
    requires forall b: nat :: b >= 1 ==> (b in batches <==> b <= n)
    ensures |batches| == n && forall k :: 0 <= k < n ==> batches[k] == k + 1
  {
    if batches == [] {
      assert 1 in batches <==> 1 <= n;
    } else {
      var last := |batches| - 1;
      assert batches[last] in batches;
      assert n in batches;
      assert batches[last] == n;
      assert batches == batches[..last] + [n];
      forall b: nat | b >= 1
        ensures b in batches[..last] <==> b <= n - 1
      {
        assert b in batches <==> b in batches[..last] || b == n;
      }
      UpTo(batches[..last], n - 1);
    }
  }

  /** Which outcome a job has: exactly this one if nothing throws. */
  ghost predicate Justified(outcome: Outcome, table: seq<Recipient>, contacts: seq<nat>, trouble: Trouble) {
    if outcome == Troubled then trouble != NoTrouble
    else
      outcome == if table == [] then (if Eligible(contacts) then Dispatched else Refused)
                 else if Count(table, IsPending) == 0 then CompletedNow else Dispatched
  }

  /** What a job does to the recipient table: nothing, unless it was empty; then a
      first part of the audience goes in, and all of it before a dispatch. */
  ghost predicate FilledIn(outcome: Outcome, before: seq<Recipient>, after: seq<Recipient>, contacts: seq<nat>) {
    && (before != [] || outcome == Refused ==> after == before)
    && (before == [] ==> after == Audience(contacts)[..Bound(|after|, contacts)])
    && (before == [] && outcome == Dispatched ==> after == Audience(contacts))
  }

  /** What a job publishes. */
  ghost predicate JobsAdded(outcome: Outcome, recipients: seq<Recipient>, before: seq<BatchJob>, after: seq<BatchJob>) {
    match outcome
    case Dispatched => AllJobs(recipients, before, after)
    case Troubled => after == before || FirstJobs(recipients, before, after)
    case _ => after == before
  }

  /** The campaign's status after an executor job. */
  function Leaves(outcome: Outcome, trouble: Trouble, again: Again): CampaignStatus
    requires outcome != LeftAlone && outcome != Escaped
  {
    match outcome
    case CompletedNow => Completed
    case Dispatched => Running
    case _ =>
      if outcome == Troubled && trouble == AtCompletion(true) then Completed
      else if again == AtStatus then Running
      else CampaignStatus.Failed
  }

  /** The jobs of all pending batches were added. */
  ghost predicate AllJobs(recipients: seq<Recipient>, before: seq<BatchJob>, after: seq<BatchJob>) {
    exists batches :: ListsPending(recipients, batches) && after == before + Staggered(batches)
  }

  /** The jobs of a first part of the pending batches were added. */
  ghost predicate FirstJobs(recipients: seq<Recipient>, before: seq<BatchJob>, after: seq<BatchJob>) {
    exists batches :: ListsPending(recipients, batches) && |before| <= |after| <= |before| + |batches|
      && after == before + Staggered(batches)[..|after| - |before|]
  }

  predicate Eligible(contacts: seq<nat>) {
    0 < |contacts| <= MAX_RECIPIENTS
  }

  predicate HasContact(recipients: seq<Recipient>, contact: nat) {
    exists r :: 0 <= r < |recipients| && recipients[r].contact == contact
  }

  ghost predicate NewContacts(table: seq<Recipient>, rows: seq<Recipient>) {
    && (forall i, j :: 0 <= i < j < |rows| ==> rows[i].contact != rows[j].contact)
    && (forall r, i :: 0 <= r < |table| && 0 <= i < |rows| ==> table[r].contact != rows[i].contact)
  }

  /** Rows added to a table, but for those whose contact it has. */
  function Merge(table: seq<Recipient>, rows: seq<Recipient>): seq<Recipient> {
    if rows == [] then table
    else
      var before := Merge(table, rows[..|rows| - 1]);
      var last := rows[|rows| - 1];
      if HasContact(before, last.contact) then before else before + [last]
  }

  ghost predicate OnePerContact(table: seq<Recipient>) {
    forall i, j :: 0 <= i < j < |table| ==> table[i].contact != table[j].contact
  }

  /** Merging keeps what was there, brings every contact in, and each once. */
  lemma {:induction false} MergeKeeps(table: seq<Recipient>, rows: seq<Recipient>)
    ensures table <= Merge(table, rows)
    ensures forall i :: 0 <= i < |rows| ==> HasContact(Merge(table, rows), rows[i].contact)
    ensures OnePerContact(table) ==> OnePerContact(Merge(table, rows))
    ensures forall r :: |table| <= r < |Merge(table, rows)| ==> Merge(table, rows)[r] in rows
    decreases |rows|
  {
    if rows != [] {
      var n := |rows| - 1;
      MergeKeeps(table, rows[..n]);
      var before, after := Merge(table, rows[..n]), Merge(table, rows);
      forall i | 0 <= i < |rows|
        ensures HasContact(after, rows[i].contact)
      {
        if i < n {
          assert HasContact(before, rows[..n][i].contact);
          var r :| 0 <= r < |before| && before[r].contact == rows[i].contact;
          assert after[r].contact == rows[i].contact;
        } else if after != before {
          assert after[|before|].contact == rows[i].contact;
        }
      }
    }
  }

  /** Contacts that are all new, and different, are all added. */
  lemma {:induction false} MergeNew(table: seq<Recipient>, rows: seq<Recipient>)
    requires NewContacts(table, rows)
    ensures Merge(table, rows) == table + rows
    decreases |rows|
  {
    if rows != [] {
      var n := |rows| - 1;
      MergeNew(table, rows[..n]);
      assert rows == rows[..n] + [rows[n]];
      assert !HasContact(table + rows[..n], rows[n].contact);
    }
  }

  function Bound(i: nat, contacts: seq<nat>): nat {
    if i < |contacts| then i else |contacts|
  }

  function Concat(calls: seq<seq<Recipient>>): seq<Recipient> {
    if calls == [] then [] else Concat(calls[..|calls| - 1]) + calls[|calls| - 1]
  }

  lemma ConcatAppend(calls: seq<seq<Recipient>>, rows: seq<Recipient>)
    ensures Concat(calls + [rows]) == Concat(calls) + rows
  {
    assert (calls + [rows])[..|calls|] == calls;
  }

  /** The recipient records of one chunk: the next piece of the audience, repeating
      nobody. */
  function Chunk(contacts: seq<nat>, from: nat, to: nat): (rows: seq<Recipient>)
    requires from <= to <= |contacts|
    ensures Audience(contacts)[..to] == Audience(contacts)[..from] + rows
    ensures Distinct(contacts) ==> NewContacts(Audience(contacts)[..from], rows)
  {
    var rows := seq(to - from, idx requires 0 <= idx < to - from => RecipientAt(contacts, from + idx));
    assert rows == Audience(contacts)[from..to];
    rows
  }

  lemma NothingBeyondMax(recipients: seq<Recipient>)
    ensures forall b: nat :: b > MaxBatch(recipients) ==> PendingIn(recipients, b) == []
  {
    forall b: nat | b > MaxBatch(recipients)
      ensures PendingIn(recipients, b) == []
    {
      NobodyPending(recipients, b);
    }
  }

  // ----- how fast recipients are released -----

  /** The recipients whose batch job is due within t seconds of dispatch. */
  function ReleasedBy(recipients: seq<Recipient>, jobs: seq<BatchJob>, t: nat): nat {
    if jobs == [] then 0
    else
      var last := jobs[|jobs| - 1];
      ReleasedBy(recipients, jobs[..|jobs| - 1], t) + if last.delay <= t then |PendingIn(recipients, last.batch)| else 0
  }

  /** The table still has the batches the executor assigned. */
  ghost predicate SameBatches(recipients: seq<Recipient>, contacts: seq<nat>) {
    |recipients| == |contacts| && forall g :: 0 <= g < |recipients| ==> recipients[g].batch == g / BATCH_SIZE + 1
  }

  lemma {:induction false} PendingWithinBatch(recipients: seq<Recipient>, b: nat)
    ensures |PendingIn(recipients, b)| <= Count(recipients, InBatch(b))
  {
    if recipients != [] {
      PendingWithinBatch(recipients[..|recipients| - 1], b);
    }
  }

  lemma {:induction false} SameCounts(xs: seq<Recipient>, ys: seq<Recipient>, b: nat)
    requires |xs| == |ys| && forall g :: 0 <= g < |xs| ==> xs[g].batch == ys[g].batch
    ensures Count(xs, InBatch(b)) == Count(ys, InBatch(b))
  {
    if xs != [] {
      SameCounts(xs[..|xs| - 1], ys[..|ys| - 1], b);
    }
  }

  lemma PendingAtMostFifty(recipients: seq<Recipient>, contacts: seq<nat>, b: nat)
    requires SameBatches(recipients, contacts) && b >= 1
    ensures |PendingIn(recipients, b)| <= BATCH_SIZE
  {
    PendingWithinBatch(recipients, b);
    SameCounts(recipients, Audience(contacts), b);
    AudienceBatchSize(contacts, b);
  }

  function MinNat(a: nat, b: nat): nat { if a < b then a else b }

  lemma {:induction false} ReleasedByJobs(recipients: seq<Recipient>, contacts: seq<nat>, batches: seq<nat>, t: nat)
    requires SameBatches(recipients, contacts)
    requires forall k :: 0 <= k < |batches| ==> batches[k] >= 1
    ensures ReleasedBy(recipients, Staggered(batches), t)
            <= BATCH_SIZE * MinNat(|batches|, t / BATCH_DELAY_SECONDS + 1)
    decreases |batches|
  {
    if batches != [] {
      var last := |batches| - 1;
      assert Staggered(batches)[..last] == Staggered(batches[..last]);
      ReleasedByJobs(recipients, contacts, batches[..last], t);
      PendingAtMostFifty(recipients, contacts, batches[last]);
    }
  }

  /** At most fifty recipients at once and fifty more every two seconds, also when
      a campaign is dispatched again with any of its recipients still PENDING. */
  lemma ReleaseRate(recipients: seq<Recipient>, contacts: seq<nat>, batches: seq<nat>, t: nat)
    requires SameBatches(recipients, contacts) && ListsPending(recipients, batches)
    ensures ReleasedBy(recipients, Staggered(batches), t) <= 50 * (t / 2 + 1)
  {
    ReleasedByJobs(recipients, contacts, batches, t);
  }
}
