/** That a message waiting for a retry has a job, whole handler runs being steps. */
module WhatsAppRetryJobs {
  import opened Prelude
  import opened WhatsAppJobs
  import opened WhatsAppDelivery
  import Fine = WhatsAppSend

  /** No handler dies, and a job published for a throttling is not throttled again. */
  predicate Regular(step: Step) {
    step.Handle? ==> !Dies(step.fate) && !(step.job == Delayed && step.fate.Throttled?)
  }

  /** A QUEUED row without an id has a job, and retry jobs are for retries counted. */
  ghost predicate HasJob(m: Message) {
    && m.row.status != Processing
    && (m.row.status == Queued && !m.row.sentId ==> m.jobs != {})
    && (forall n: nat :: Retry(n) in m.jobs ==> n <= m.row.retryCount)
  }

  lemma HasJobStep(m: Message, step: Step)
    requires HasJob(m) && CanStep(m, step) && Regular(step)
    ensures HasJob(Apply(m, step))
  {
    var t := Apply(m, step);
    if step.Handle? && Claimable(m.row) && t.row.status == Queued && !t.row.sentId {
      assert (if step.fate.Throttled? then Delayed else Retry(m.row.retryCount + 1)) in t.jobs;
    }
  }

  lemma {:induction false} HasJobRun(m: Message, run: seq<Step>)
    requires HasJob(m) && Valid(m, run) && forall i :: 0 <= i < |run| ==> Regular(run[i])
    ensures HasJob(Exec(m, run))
    decreases |run|
  {
    if run != [] {
      HasJobStep(m, run[0]);
      HasJobRun(Apply(m, run[0]), run[1..]);
    }
  }

  /** As long as no handler dies, and no throttled job is throttled again, a message
      that is to be sent has a job by which it can be claimed, retries included, and
      without recovery. */
  lemma RetriesArePublished(maxRetries: nat, run: seq<Step>)
    requires Valid(Start(maxRetries), run) && forall i :: 0 <= i < |run| ==> Regular(run[i])
    requires var m := Exec(Start(maxRetries), run); m.row.status == Queued && !m.row.sentId
    ensures exists job :: job in Exec(Start(maxRetries), run).jobs
                          && CanStep(Exec(Start(maxRetries), run), Handle(job, Success, false))
  {
    HasJobRun(Start(maxRetries), run);
    var m := Exec(Start(maxRetries), run);
    var job :| job in m.jobs;
    assert CanStep(m, Handle(job, Success, false));
  }

  /** The second condition is needed: a throttled handler publishes its delayed job
      under the key of the one it is running, and the queue drops it. Nothing but
      recovery gets that message on. */
  lemma ThrottledTwice(maxRetries: nat) returns (run: seq<Step>)
    ensures Valid(Start(maxRetries), run)
    ensures forall i :: 0 <= i < |run| ==> run[i].Handle? && !Dies(run[i].fate)
    ensures var m := Exec(Start(maxRetries), run);
            && m.row.status == Queued && !m.row.sentId && m.jobs == {}
            && forall step :: CanStep(m, step) ==> step == RecoverQueued
  {
    var first, again := Handle(First, Throttled(false), false), Handle(Delayed, Throttled(false), false);
    run := [first, again];
    var m1 := Apply(Start(maxRetries), first);
    assert m1.jobs == {Delayed};
    var m2 := Apply(m1, again);
    assert m2.jobs == {};
    assert run[1..] == [again] && [again][1..] == [];
    assert Valid(m2, []) && Exec(m2, []) == m2;
    assert Valid(m1, [again]) && Exec(m1, [again]) == m2;
  }
}
