/** The worker's own code: one handler run from start to finish against the
    database, statement by statement. */
module ChannelSendWorker {
  import opened Prelude
  import opened Counting
  import opened ErrorPatterns
  import opened Backoff
  import opened ChannelSend
  import opened ChannelSendTheorems
  import opened ChannelSendProgress
  import opened ChannelSendLaws

  /** No handler running. */
  function Alone(store: Store, jobs: seq<Job>): State { State(store, [], jobs) }

  /** The steps of handler 0, delivered job j, when nobody interferes. */
  function Script(store: Store, j: nat, channelActive: bool, result: SendResult): seq<Step> {
    [Deliver(j)] + (Handling(store, channelActive, result) + [Complete(0)])
  }

  function Handling(store: Store, channelActive: bool, result: SendResult): seq<Step> {
    if AlreadySent(store.row.status) then []
    else if store.row.status != Queued then [Claim(0)]
    else [Claim(0)] + ([CheckChannel(0, channelActive)] + Sending(store, channelActive, result))
  }

  function Sending(store: Store, channelActive: bool, result: SendResult): seq<Step> {
    if channelActive then [CallAdapter(0, result)] + ([WriteOutcome(0)] + Aftermath(store, result))
    else [WriteOutcome(0)] + [RecordEvent(0)]
  }

  function Aftermath(store: Store, result: SendResult): seq<Step> {
    if result.Accepted? then [RecordEvent(0)]
    else if WillRetry(result, store.row.retryCount, store.row.maxRetries) then [RecordEvent(0), PublishRetry(0)]
    else [CreateDeadLetter(0), RecordEvent(0)]
  }

  /** What a claimed row and its surroundings become once the adapter answered. */
  function Settled(store: Store, result: SendResult): Store {
    var row := store.row;
    var sent := store.(sends := store.sends + 1);
    if result.Accepted? then
      sent.(row := row.(status := Sent), events := store.events + [Sent])
    else if WillRetry(result, row.retryCount, row.maxRetries) then
      sent.(row := row.(status := Queued, retryCount := row.retryCount + 1), events := store.events + [Queued])
    else
      sent.(row := row.(status := Failed), events := store.events + [Failed], deadLetters := store.deadLetters + 1)
  }

  /** s reaches t by this run. */
  ghost predicate Reaches(s: State, run: seq<Step>, t: State) {
    Valid(s, run, 1) && Exec(s, run, 1) == t
  }

  lemma Then(s: State, step: Step, rest: seq<Step>, t: State)
    requires CanStep(s, step, 1) && Reaches(Apply(s, step), rest, t)
    ensures Reaches(s, [step] + rest, t)
  {
    Prepend(s, step, rest, 1);
  }

  lemma Stay(s: State)
    ensures Reaches(s, [], s)
  {
  }

  lemma Concatenate(s: State, a: seq<Step>, t: State, b: seq<Step>, u: State)
    requires Reaches(s, a, t) && Reaches(t, b, u)
    ensures Reaches(s, a + b, u)
  {
    ValidConcat(s, a, b, 1);
  }

  /** Handler 0 alone in this phase, on active job j. */
  function InPhaseOf(store: Store, jobs: seq<Job>, j: nat, phase: Phase): State {
    State(store, [Handler(j, phase, true)], jobs)
  }

  lemma AftermathEffect(store: Store, jobs: seq<Job>, j: nat, result: SendResult)
    requires j < |jobs| && jobs[j].state == Active
    ensures Reaches(InPhaseOf(Held(store).(sends := store.sends + 1), jobs, j, Answered(store.row.retryCount, result)),
                    [WriteOutcome(0)] + Aftermath(store, result), InPhaseOf(Settled(store, result), jobs, j, Done))
  {
    hide Reaches;
    var s := InPhaseOf(Held(store).(sends := store.sends + 1), jobs, j, Answered(store.row.retryCount, result));
    var t := InPhaseOf(Settled(store, result), jobs, j, Done);
    var written := Settled(store, result).(events := store.events, deadLetters := store.deadLetters);
    if result.Accepted? {
      var s1 := InPhaseOf(written, jobs, j, Recording(Sent, 0));
      assert Apply(s, WriteOutcome(0)).handlers == s1.handlers;
      RecordAndReturn(s1, Sent, t);
      Then(s, WriteOutcome(0), [RecordEvent(0)], t);
    } else if WillRetry(result, store.row.retryCount, store.row.maxRetries) {
      var s1 := InPhaseOf(written, jobs, j, Recording(Queued, CappedDelay(store.row.retryCount)));
      assert Apply(s, WriteOutcome(0)).handlers == s1.handlers;
      RecordAndPublish(s1, t);
      Then(s, WriteOutcome(0), [RecordEvent(0), PublishRetry(0)], t);
    } else {
      var s1 := InPhaseOf(written, jobs, j, DeadLettering);
      var s2 := InPhaseOf(written.(deadLetters := store.deadLetters + 1), jobs, j, Recording(Failed, 0));
      assert Apply(s, WriteOutcome(0)).handlers == s1.handlers;
      assert Apply(s1, CreateDeadLetter(0)).handlers == s2.handlers;
      RecordAndReturn(s2, Failed, t);
      Then(s1, CreateDeadLetter(0), [RecordEvent(0)], t);
      assert [CreateDeadLetter(0), RecordEvent(0)] == [CreateDeadLetter(0)] + [RecordEvent(0)];
      Then(s, WriteOutcome(0), [CreateDeadLetter(0), RecordEvent(0)], t);
    }
  }

  lemma RecordAndReturn(s: State, status: MessageStatus, t: State)
    requires |s.handlers| == 1 && s.handlers[0].alive && s.handlers[0].phase == Recording(status, 0) && status != Queued
    requires t == s.(store := s.store.(events := s.store.events + [status]),
                     handlers := [s.handlers[0].(phase := Done)])
    ensures Reaches(s, [RecordEvent(0)], t)
  {
    Then(s, RecordEvent(0), [], t);
  }

  /** The retry job is refused: the handler's own is still active. */
  lemma RecordAndPublish(s: State, t: State)
    requires |s.handlers| == 1 && s.handlers[0].alive && RecordsQueued(s.handlers[0])
    requires IsOpen(s, s.handlers[0].job)
    requires t == s.(store := s.store.(events := s.store.events + [Queued]),
                     handlers := [s.handlers[0].(phase := Done)])
    ensures Reaches(s, [RecordEvent(0), PublishRetry(0)], t)
  {
    var s1 := Apply(s, RecordEvent(0));
    assert IsOpen(s1, s.handlers[0].job);
    assert [RecordEvent(0), PublishRetry(0)] == [RecordEvent(0)] + [PublishRetry(0)];
    Then(s1, PublishRetry(0), [], t);
    Then(s, RecordEvent(0), [PublishRetry(0)], t);
  }

  /** What one undisturbed delivery makes of the message. */
  function AfterDelivery(store: Store, channelActive: bool, result: SendResult): Store {
    if store.row.status != Queued then store
    else if !channelActive then store.(row := store.row.(status := Failed), events := store.events + [Failed])
    else Settled(store, result)
  }

  function SetActive(jobs: seq<Job>, j: nat): seq<Job>
    requires j < |jobs|
  {
    jobs[j := jobs[j].(state := Active)]
  }

  /** The store while handler 0 holds the row. */
  function Held(store: Store): Store {
    store.(row := store.row.(status := Processing))
  }

  lemma SendingEffect(store: Store, jobs: seq<Job>, j: nat, channelActive: bool, result: SendResult)
    requires store.row.status == Queued && j < |jobs| && jobs[j].state == Active
    ensures Reaches(InPhaseOf(Held(store), jobs, j, if channelActive then Ready(store.row.retryCount) else Inactive),
                    Sending(store, channelActive, result),
                    InPhaseOf(AfterDelivery(store, channelActive, result), jobs, j, Done))
  {
    hide Reaches;
    var t := InPhaseOf(AfterDelivery(store, channelActive, result), jobs, j, Done);
    if channelActive {
      AftermathEffect(store, jobs, j, result);
      var s := InPhaseOf(Held(store), jobs, j, Ready(store.row.retryCount));
      assert Apply(s, CallAdapter(0, result)).handlers == [Handler(j, Answered(store.row.retryCount, result), true)];
      Then(s, CallAdapter(0, result), [WriteOutcome(0)] + Aftermath(store, result), t);
    } else {
      var s := InPhaseOf(Held(store), jobs, j, Inactive);
      var s1 := InPhaseOf(store.(row := store.row.(status := Failed)), jobs, j, Recording(Failed, 0));
      assert Apply(s, WriteOutcome(0)).handlers == s1.handlers;
      RecordAndReturn(s1, Failed, t);
      Then(s, WriteOutcome(0), [RecordEvent(0)], t);
    }
  }

  /** From the claim to the handler's return. */
  lemma HandlingEffect(store: Store, jobs: seq<Job>, j: nat, channelActive: bool, result: SendResult)
    requires j < |jobs| && jobs[j].state == Active
    ensures Reaches(InPhaseOf(store, jobs, j,
                              if AlreadySent(store.row.status) then Done else Loaded(store.row.retryCount)),
                    Handling(store, channelActive, result),
                    InPhaseOf(AfterDelivery(store, channelActive, result), jobs, j, Done))
  {
    hide Reaches;
    var t := InPhaseOf(AfterDelivery(store, channelActive, result), jobs, j, Done);
    var s := InPhaseOf(store, jobs, j, Loaded(store.row.retryCount));
    if store.row.status == Queued {
      SendingEffect(store, jobs, j, channelActive, result);
      var s2 := InPhaseOf(Held(store), jobs, j, Claimed(store.row.retryCount));
      assert Apply(s, Claim(0)) == s2;
      assert Apply(s2, CheckChannel(0, channelActive)).handlers
          == [Handler(j, if channelActive then Ready(store.row.retryCount) else Inactive, true)];
      Then(s2, CheckChannel(0, channelActive), Sending(store, channelActive, result), t);
      Then(s, Claim(0), [CheckChannel(0, channelActive)] + Sending(store, channelActive, result), t);
    } else if !AlreadySent(store.row.status) {
      assert Apply(s, Claim(0)) == t;
      assert [Claim(0)] == [Claim(0)] + [];
      Stay(t);
      Then(s, Claim(0), [], t);
    } else {
      Stay(t);
    }
  }

  /** The undisturbed run of the protocol, branch by branch. Its job is used up, and
      no other takes its place. */
  lemma ScriptEffect(store: Store, jobs: seq<Job>, j: nat, channelActive: bool, result: SendResult)
    requires IsOpen(Alone(store, jobs), j)
    ensures Reaches(Alone(store, jobs), Script(store, j, channelActive, result),
                    State(AfterDelivery(store, channelActive, result), [Handler(j, Done, true)],
                          jobs[j := jobs[j].(state := Closed)]))
  {
    var active := SetActive(jobs, j);
    var phase := if AlreadySent(store.row.status) then Done else Loaded(store.row.retryCount);
    var done := InPhaseOf(AfterDelivery(store, channelActive, result), active, j, Done);
    var t := State(AfterDelivery(store, channelActive, result), [Handler(j, Done, true)],
                   jobs[j := jobs[j].(state := Closed)]);
    assert Apply(done, Complete(0)).jobs == t.jobs;
    assert [Complete(0)] == [Complete(0)] + [];
    Then(done, Complete(0), [], t);
    HandlingEffect(store, active, j, channelActive, result);
    var s1 := InPhaseOf(store, active, j, phase);
    Concatenate(s1, Handling(store, channelActive, result), done, [Complete(0)], t);
    assert Apply(Alone(store, jobs), Deliver(j)) == s1;
    Then(Alone(store, jobs), Deliver(j), Handling(store, channelActive, result) + [Complete(0)], t);
  }

  lemma MoreWorkers(s: State, workers: nat)
    requires Inv(s, 1) && workers >= 1
    ensures Inv(s, workers)
  {
  }

  /** So a message whose last open job ends in a retryable refusal is QUEUED with its
      retry counted and nobody to make it: this worker never sends it again, and it is
      left to recovery. */
  lemma RefusedMessageIsOrphaned(store: Store, jobs: seq<Job>, j: nat, result: SendResult)
    requires Inv(Alone(store, jobs), 1) && IsOpen(Alone(store, jobs), j)
    requires forall k :: 0 <= k < |jobs| && k != j ==> jobs[k].state == Closed
    requires store.row.status == Queued && WillRetry(result, store.row.retryCount, store.row.maxRetries)
    ensures Valid(Alone(store, jobs), Script(store, j, true, result), 1)
    ensures var t := Exec(Alone(store, jobs), Script(store, j, true, result), 1);
            && Orphaned(t)
            && t.store.row == store.row.(retryCount := store.row.retryCount + 1) && t.store.sends == store.sends + 1
            && forall workers: nat, after :: workers >= 1 && Valid(t, after, workers) ==>
                 && Exec(t, after, workers).store.row == t.store.row
                 && Exec(t, after, workers).store.sends == t.store.sends
  {
    hide Apply, Count;
    ScriptEffect(store, jobs, j, true, result);
    InvRun(Alone(store, jobs), Script(store, j, true, result), 1);
    var t := Exec(Alone(store, jobs), Script(store, j, true, result), 1);
    forall workers: nat, after | workers >= 1 && Valid(t, after, workers)
      ensures Exec(t, after, workers).store.row == t.store.row && Exec(t, after, workers).store.sends == t.store.sends
    {
      MoreWorkers(t, workers);
      OrphanedForEver(t, after, workers);
    }
  }

  class SendChannelMessageWorker {
    var message: Option<Row>
    var deadLetters: nat
    var events: seq<MessageStatus>
    var sends: nat
    var jobs: seq<Job>

    constructor (maxRetries: nat)
      ensures message == Some(Start(maxRetries).store.row)
      ensures Current() == Start(maxRetries).store && jobs == Start(maxRetries).jobs
    {
      message := Some(Row(Queued, 0, maxRetries));
      deadLetters, events, sends, jobs := 0, [], 0, [Job(Waiting, 0)];
    }

    function Current(): Store
      requires message.Some?
      reads this
    {
      Store(message.value, deadLetters, events, sends)
    }

    /** `updateMany` on the id and status QUEUED; the number of rows changed. */
    method ClaimQueued() returns (count: nat)
      requires message.Some?
      modifies this`message
      ensures count == One(old(message).value.status == Queued)
      ensures message == if count == 1 then Some(old(message).value.(status := Processing)) else old(message)
    {
      count := 0;
      if message.value.status == Queued {
        message := Some(message.value.(status := Processing));
        count := 1;
      }
    }

    method FailMessage(createDeadLetter: bool)
      requires message.Some?
      modifies this`message, this`deadLetters, this`events
      ensures message == Some(old(message).value.(status := Failed))
      ensures deadLetters == old(deadLetters) + One(createDeadLetter) && events == old(events) + [Failed]
    {
      message := Some(message.value.(status := Failed));
      if createDeadLetter {
        deadLetters := deadLetters + 1;
      }
      events := events + [Failed];
    }

    /** The queue's delayed send under the message's singleton key. */
    method PublishDelayed(delay: nat)
      modifies this`jobs
      ensures jobs == old(jobs)
                      + if exists k :: 0 <= k < |old(jobs)| && old(jobs)[k].state != Closed then []
                        else [Job(Waiting, delay)]
    {
      var keyTaken := exists k :: 0 <= k < |jobs| && jobs[k].state != Closed;
      if !keyTaken {
        jobs := jobs + [Job(Waiting, delay)];
      }
    }

    /** The queue hands over job j, runs the handler and takes the job as done. */
    method Deliver(j: nat, channelActive: bool, result: SendResult)
      requires j < |jobs| && jobs[j].state != Closed
      modifies this
      ensures jobs == old(jobs)[j := old(jobs)[j].(state := Closed)]
      ensures message.Some? == old(message).Some?
      ensures message.None? ==> events == old(events) && deadLetters == old(deadLetters) && sends == old(sends)
      ensures message.Some? ==>
                var run := Script(old(Current()), j, channelActive, result);
                && Valid(Alone(old(Current()), old(jobs)), run, 1)
                && Current() == Exec(Alone(old(Current()), old(jobs)), run, 1).store
                && jobs == Exec(Alone(old(Current()), old(jobs)), run, 1).jobs
    {
      ghost var before := jobs;
      if message.Some? {
        ghost var store := Current();
        ScriptEffect(store, jobs, j, channelActive, result);
      }
      jobs := jobs[j := jobs[j].(state := Active)];
      Handle(j, channelActive, result);
      jobs := jobs[j := jobs[j].(state := Closed)];
      assert jobs == before[j := before[j].(state := Closed)];
    }

    /** The handler, run without interference, while its job is active. */
    method Handle(ghost j: nat, channelActive: bool, result: SendResult)
      requires j < |jobs| && jobs[j].state == Active
      modifies this
      ensures jobs == old(jobs) && message.Some? == old(message).Some?
      ensures message.None? ==> events == old(events) && deadLetters == old(deadLetters) && sends == old(sends)
      ensures message.Some? ==> Current() == AfterDelivery(old(Current()), channelActive, result)
      // a row that is not QUEUED
      ensures old(message).Some? && old(message).value.status != Queued ==>
                && message == old(message) && events == old(events) && deadLetters == old(deadLetters)
                && sends == old(sends)
      // a QUEUED row whose channel is not active
      ensures old(message).Some? && old(message).value.status == Queued && !channelActive ==>
                && message == Some(old(message).value.(status := Failed)) && events == old(events) + [Failed]
                && deadLetters == old(deadLetters) && sends == old(sends)
      // a QUEUED row that is sent
      ensures old(message).Some? && old(message).value.status == Queued && channelActive ==> sends == old(sends) + 1
      ensures old(message).Some? && old(message).value.status == Queued && channelActive && result.Accepted? ==>
                && message == Some(old(message).value.(status := Sent)) && events == old(events) + [Sent]
                && deadLetters == old(deadLetters)
      ensures old(message).Some? && old(message).value.status == Queued && channelActive && result.Refused? ==>
                var row := old(message).value;
                if result.retryable && (result.error.None? || !PermanentOnChannel(result.error.value))
                   && row.retryCount < row.maxRetries then
                  && message == Some(row.(status := Queued, retryCount := row.retryCount + 1))
                  && events == old(events) + [Queued] && deadLetters == old(deadLetters)
                else
                  && message == Some(row.(status := Failed))
                  && events == old(events) + [Failed] && deadLetters == old(deadLetters) + 1
    {
      if message.None? {
        return;
      }
      var loaded := message.value;
      WillRetryIff(result, loaded.retryCount, loaded.maxRetries);
      hide PermanentOnChannel;
      if AlreadySent(loaded.status) {
        return;
      }
      var count := ClaimQueued();
      if count == 0 {
        return;
      }
      if !channelActive {
        FailMessage(false);
        return;
      }
      sends := sends + 1;
      if result.Accepted? {
        message := Some(message.value.(status := Sent));
        events := events + [Sent];
      } else {
        var isNonRetryable := NonRetryable(result);
        if !isNonRetryable && loaded.retryCount < loaded.maxRetries {
          var delay := CappedDelay(loaded.retryCount);
          message := Some(message.value.(status := Queued, retryCount := message.value.retryCount + 1));
          events := events + [Queued];
          PublishDelayed(delay);
        } else {
          FailMessage(true);
        }
      }
    }
  }
}
