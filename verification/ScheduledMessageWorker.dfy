/** The scheduled message worker's code: the checker's loop, and one execution run
    without interference. */
module ScheduledMessageWorker {
  import opened Backoff
  import opened ScheduledMessage
  import opened ScheduledMessageTheorems
  import Prelude

  type Id = nat

  /** What the worker reads and writes of a message: its status, the retry counts of
      the execution jobs published for it, and the counts of the protocol. */
  datatype Row = Row(status: Status, published: seq<nat>, checks: nat, waited: nat, sends: nat)

  /** Which call of an execution throws, if any: a query, the requeueing, the publish
      or the write of SENT. */
  datatype Trouble = NoTrouble | AtQuery | AtRequeue | AtPublish | AtMark

  function Retries(xs: seq<Execution>): seq<nat> {
    seq(|xs|, i requires 0 <= i < |xs| => xs[i].r)
  }

  // ----- hand-off -----

  function HandOffScript(status: Status): seq<Step> {
    if status == Pending then [FindDue, HandOff(0), PublishExecution(0)] else []
  }

  /** A message with this row and nobody at work on it. */
  function Quiet(row: Row): State {
    State(row.status, [], [], 0, 0, 0, row.checks, row.waited, row.sends)
  }

  /** The row after a run, whose deliveries from position `first` on are new. */
  function RowAfter(row: Row, t: State, first: nat): Row
    requires first <= |t.executions|
  {
    Row(t.status, row.published + Retries(t.executions[first..]), t.checks, t.waited, t.sends)
  }

  /** What the protocol's hand-off makes of a row. */
  ghost predicate HandedOff(row: Row, row': Row) {
    var s := Quiet(row);
    Valid(s, HandOffScript(row.status)) && row' == RowAfter(row, Exec(s, HandOffScript(row.status)), 0)
  }

  lemma HandOffRow(row: Row)
    ensures HandedOff(row,
                      if row.status == Pending then row.(status := Status.Queued, published := row.published + [0])
                      else row)
  {
    var s := Quiet(row);
    if row.status == Pending {
      var s1 := Apply(s, FindDue);
      var s2 := Apply(s1, HandOff(0));
      var t := Apply(s2, PublishExecution(0));
      Cons(s2, PublishExecution(0), []);
      Cons(s1, HandOff(0), [PublishExecution(0)] + []);
      Cons(s, FindDue, [HandOff(0)] + ([PublishExecution(0)] + []));
      assert HandOffScript(row.status) == [FindDue] + ([HandOff(0)] + ([PublishExecution(0)] + []));
      assert Retries(t.executions[0..]) == [0];
    } else {
      assert Retries(s.executions[0..]) == [];
    }
  }

  // ----- execution -----

  /** The job with retry count r is the message's only delivery. */
  function Handed(row: Row, r: nat): State {
    Quiet(row).(executions := [Execution(r, 0, true, Waiting, true)], chains := 1)
  }

  /** The catch block: back to the queue, or, at the last retry, FAILED. */
  function Caught(r: nat): seq<Step> {
    [Throw(0)] + if r < MAX_RETRIES then [] else [MarkFailed(0)] + [Finish(0)]
  }

  function SendScript(r: nat, trouble: Trouble): seq<Step> {
    if trouble == AtPublish then Caught(r)
    else [PublishSend(0)] + if trouble == AtMark then Caught(r) else [MarkSent(0)] + [Finish(0)]
  }

  function ExecutionScript(status: Status, r: nat, connected: bool, trouble: Trouble): seq<Step> {
    [Execute(0)]
    + if status != Status.Queued then [Finish(0)]
      else if trouble == AtQuery then Caught(r)
      else [CheckSession(0, connected)]
           + if connected then SendScript(r, trouble)
             else if r >= MAX_RETRIES then [MarkFailed(0)] + [Finish(0)]
             else if trouble == AtRequeue then Caught(r)
             else [Requeue(0)] + [Finish(0)]
  }

  /** The row after one execution, branch by branch. */
  function Executed(row: Row, r: nat, connected: bool, trouble: Trouble): Row {
    var failed := row.(status := if r < MAX_RETRIES then row.status else Failed);
    if row.status != Status.Queued then row
    else if trouble == AtQuery then failed
    else if connected && trouble == AtPublish then failed.(checks := row.checks + 1)
    else if connected && trouble == AtMark then failed.(checks := row.checks + 1, sends := row.sends + 1)
    else if connected then row.(status := Sent, checks := row.checks + 1, sends := row.sends + 1)
    else if r >= MAX_RETRIES then row.(status := Failed, checks := row.checks + 1)
    else if trouble == AtRequeue then row.(checks := row.checks + 1)
    else row.(checks := row.checks + 1, waited := row.waited + 10 * Pow2(r), published := row.published + [r + 1])
  }

  /** Whether the exception is passed on to the queue. */
  function Rethrown(row: Row, r: nat, connected: bool, trouble: Trouble): bool {
    row.status == Status.Queued && r < MAX_RETRIES
    && (trouble == AtQuery || (connected && trouble in {AtPublish, AtMark}) || (!connected && trouble == AtRequeue))
  }

  /** A run that leaves this status and these counts, and the first delivery returned
      or, if `threw`, fallen back to the queue. */
  ghost predicate Leaves(s: State, run: seq<Step>, row: Row, row': Row, threw: bool) {
    && Valid(s, run)
    && var t := Exec(s, run);
       |t.executions| >= 1 && RowAfter(row, t, 1) == row' && t.executions[0].alive == !threw
  }

  lemma Then(s: State, step: Step, rest: seq<Step>, row: Row, row': Row, threw: bool)
    requires CanStep(s, step) && Leaves(Apply(s, step), rest, row, row', threw)
    ensures Leaves(s, [step] + rest, row, row', threw)
  {
    Cons(s, step, rest);
  }

  /** The one delivery of a QUEUED message, in this phase. */
  ghost predicate Single(s: State, row: Row, r: nat, phase: ExecutionPhase) {
    && s.status == row.status == Status.Queued && s.executions == [Execution(r, 0, true, phase, true)]
    && s.checks == row.checks && s.waited == row.waited && s.sends == row.sends
  }

  lemma Return(s: State, row: Row, row': Row)
    requires |s.executions| >= 1 && s.executions[0].alive && s.executions[0].phase == Ending
    requires RowAfter(row, s, 1) == row'
    ensures Leaves(s, [Finish(0)], row, row', false)
  {
    var t := Apply(s, Finish(0));
    assert t.executions[1..] == s.executions[1..];
    Cons(s, Finish(0), []);
    assert [Finish(0)] == [Finish(0)] + [];
  }

  lemma GiveUp(s: State, row: Row, r: nat)
    requires Single(s, row, r, GivingUp)
    ensures Leaves(s, [MarkFailed(0)] + [Finish(0)], row, row.(status := Failed), false)
  {
    var t := Apply(s, MarkFailed(0));
    assert t.executions[1..] == [];
    Return(t, row, row.(status := Failed));
    Then(s, MarkFailed(0), [Finish(0)], row, row.(status := Failed), false);
  }

  lemma CatchEffect(s: State, row: Row, r: nat, phase: ExecutionPhase)
    requires Single(s, row, r, phase) && phase in {Checking, Requeueing, Sending, Marking}
    ensures Leaves(s, Caught(r), row, if r < MAX_RETRIES then row else row.(status := Failed), r < MAX_RETRIES)
  {
    var t := Apply(s, Throw(0));
    if r < MAX_RETRIES {
      assert t.executions[1..] == [];
      assert RowAfter(row, t, 1) == row;
      Then(s, Throw(0), [], row, row, true);
    } else {
      GiveUp(t, row, r);
      Then(s, Throw(0), [MarkFailed(0)] + [Finish(0)], row, row.(status := Failed), false);
    }
  }

  lemma SendEffect(s: State, row: Row, r: nat, trouble: Trouble)
    requires Single(s, row, r, Sending)
    ensures var failed := if r < MAX_RETRIES then row.status else Failed;
            var after := if trouble == AtPublish then row.(status := failed)
                         else row.(sends := row.sends + 1, status := if trouble == AtMark then failed else Sent);
            Leaves(s, SendScript(r, trouble), row, after, r < MAX_RETRIES && trouble in {AtPublish, AtMark})
  {
    if trouble == AtPublish {
      CatchEffect(s, row, r, Sending);
    } else {
      var s1 := Apply(s, PublishSend(0));
      var sent := row.(sends := row.sends + 1);
      if trouble == AtMark {
        CatchEffect(s1, sent, r, Marking);
        SameJobs(s1, Caught(r), sent, row, if r < MAX_RETRIES then sent else sent.(status := Failed), r < MAX_RETRIES);
        Then(s, PublishSend(0), Caught(r), row, if r < MAX_RETRIES then sent else sent.(status := Failed),
             r < MAX_RETRIES);
      } else {
        var s2 := Apply(s1, MarkSent(0));
        assert s2.executions[1..] == [];
        Return(s2, row, sent.(status := Sent));
        Then(s1, MarkSent(0), [Finish(0)], row, sent.(status := Sent), false);
        Then(s, PublishSend(0), [MarkSent(0)] + [Finish(0)], row, sent.(status := Sent), false);
      }
    }
  }

  lemma SameJobs(s: State, run: seq<Step>, row: Row, other: Row, row': Row, threw: bool)
    requires Leaves(s, run, row, row', threw) && row.published == other.published
    ensures Leaves(s, run, other, row', threw)
  {
  }

  /** After the session check. */
  lemma CheckedEffect(s: State, row: Row, r: nat, connected: bool, trouble: Trouble)
    requires Single(s, row, r, Checking) && trouble != AtQuery
    ensures Leaves(s, ExecutionScript(Status.Queued, r, connected, trouble)[1..], row,
                   Executed(row, r, connected, trouble), Rethrown(row, r, connected, trouble))
  {
    var s1 := Apply(s, CheckSession(0, connected));
    var checked := row.(checks := row.checks + 1);
    var after, threw := Executed(row, r, connected, trouble), Rethrown(row, r, connected, trouble);
    var rest: seq<Step>;
    if connected {
      rest := SendScript(r, trouble);
      SendEffect(s1, checked, r, trouble);
    } else if r >= MAX_RETRIES {
      rest := [MarkFailed(0)] + [Finish(0)];
      GiveUp(s1, checked, r);
    } else if trouble == AtRequeue {
      rest := Caught(r);
      CatchEffect(s1, checked, r, Requeueing);
    } else {
      rest := [Requeue(0)] + [Finish(0)];
      var s2 := Apply(s1, Requeue(0));
      assert s2.executions[1..] == [Execution(r + 1, 0, true, Waiting, true)];
      Return(s2, checked, after);
      Then(s1, Requeue(0), [Finish(0)], checked, after, false);
    }
    SameJobs(s1, rest, checked, row, after, threw);
    Then(s, CheckSession(0, connected), rest, row, after, threw);
    assert ExecutionScript(Status.Queued, r, connected, trouble)[1..] == [CheckSession(0, connected)] + rest;
  }

  /** What one undisturbed execution leaves. */
  lemma ExecutionEffect(row: Row, r: nat, connected: bool, trouble: Trouble)
    ensures Leaves(Handed(row, r), ExecutionScript(row.status, r, connected, trouble), row,
                   Executed(row, r, connected, trouble), Rethrown(row, r, connected, trouble))
  {
    var s := Handed(row, r);
    var s1 := Apply(s, Execute(0));
    var after, threw := Executed(row, r, connected, trouble), Rethrown(row, r, connected, trouble);
    var rest := ExecutionScript(row.status, r, connected, trouble)[1..];
    if row.status != Status.Queued {
      assert s1.executions[1..] == [];
      Return(s1, row, row);
    } else if trouble == AtQuery {
      CatchEffect(s1, row, r, Checking);
    } else {
      CheckedEffect(s1, row, r, connected, trouble);
    }
    Then(s, Execute(0), rest, row, after, threw);
    assert ExecutionScript(row.status, r, connected, trouble) == [Execute(0)] + rest;
  }

  class Worker {
    var rows: map<Id, Row>

    constructor ()
      ensures rows == map[]
    {
      rows := map[];
    }

    method TransitionStatus(id: Id, expected: Status, target: Status) returns (done: bool)
      requires id in rows
      modifies this
      ensures done == (old(rows)[id].status == expected)
      ensures rows == if done then old(rows)[id := old(rows)[id].(status := target)] else old(rows)
    {
      done := rows[id].status == expected;
      if done {
        rows := rows[id := rows[id].(status := target)];
      }
    }

    /** The checker's loop over what its query returned: each message still PENDING
        is handed off by the protocol's script, the rest is untouched. */
    method CheckDueMessages(due: seq<Id>)
      requires forall i :: 0 <= i < |due| ==> due[i] in rows
      requires forall i, j :: 0 <= i < j < |due| ==> due[i] != due[j]
      modifies this
      ensures rows.Keys == old(rows).Keys
      ensures forall id :: id in rows && id !in due ==> rows[id] == old(rows)[id]
      ensures forall id :: id in rows && id in due ==> HandedOff(old(rows)[id], rows[id])
      ensures forall id :: id in rows && id in due ==>
                rows[id] == if old(rows)[id].status != Pending then old(rows)[id]
                            else old(rows)[id].(status := Status.Queued, published := old(rows)[id].published + [0])
    {
      hide HandedOff;
      for k := 0 to |due|
        invariant rows.Keys == old(rows).Keys
        invariant forall id :: id in rows && id !in due[..k] ==> rows[id] == old(rows)[id]
        invariant forall id :: id in rows && id in due[..k] ==>
                    rows[id] == if old(rows)[id].status != Pending then old(rows)[id]
                                else old(rows)[id].(status := Status.Queued, published := old(rows)[id].published + [0])
      {
        var id := due[k];
        assert id !in due[..k];
        assert due[..k + 1] == due[..k] + [id];
        var transitioned := TransitionStatus(id, Pending, Status.Queued);
        if transitioned {
          rows := rows[id := rows[id].(published := rows[id].published + [0])];
        }
      }
      assert due[..|due|] == due;
      forall id | id in rows && id in due ensures HandedOff(old(rows)[id], rows[id]) {
        HandOffRow(old(rows)[id]);
      }
    }

    /** One execution job, its data carrying retryCount. A missing message is skipped.
        Otherwise its row becomes what the protocol's script leaves, and `threw` says
        that the queue gets the job back. */
    method HandleExecute(id: Id, retryCount: nat, connected: bool, trouble: Trouble) returns (threw: bool)
      modifies this
      ensures id !in old(rows) ==> rows == old(rows) && !threw
      ensures id in old(rows) ==>
                && rows.Keys == old(rows).Keys
                && (forall other :: other in rows && other != id ==> rows[other] == old(rows)[other])
                && Leaves(Handed(old(rows)[id], retryCount),
                          ExecutionScript(old(rows)[id].status, retryCount, connected, trouble),
                          old(rows)[id], rows[id], threw)
      // a row that is not QUEUED
      ensures id in old(rows) && old(rows)[id].status != Status.Queued ==> rows[id] == old(rows)[id] && !threw
      // a QUEUED row, nothing throwing
      ensures id in old(rows) && old(rows)[id].status == Status.Queued && trouble == NoTrouble ==>
                var row, row' := old(rows)[id], rows[id];
                && !threw && row'.checks == row.checks + 1
                && (connected ==>
                      && row'.status == Sent && row'.sends == row.sends + 1
                      && row'.published == row.published && row'.waited == row.waited)
                && (!connected && retryCount < 3 ==>
                      && row'.status == Status.Queued && row'.sends == row.sends
                      && row'.published == row.published + [retryCount + 1]
                      && row'.waited == row.waited + 10 * Pow2(retryCount))
                && (!connected && retryCount >= 3 ==>
                      && row'.status == Failed && row'.sends == row.sends
                      && row'.published == row.published && row'.waited == row.waited)
      // a QUEUED row, and a call that throws
      ensures id in old(rows) && old(rows)[id].status == Status.Queued && threw ==>
                retryCount < 3 && rows[id].status == Status.Queued && rows[id].published == old(rows)[id].published
      ensures id in old(rows) && old(rows)[id].status == Status.Queued && trouble == AtQuery ==>
                && threw == (retryCount < 3)
                && rows[id].sends == old(rows)[id].sends && rows[id].waited == old(rows)[id].waited
      ensures id in old(rows) && old(rows)[id].status == Status.Queued && connected && trouble == AtPublish ==>
                threw == (retryCount < 3) && rows[id].sends == old(rows)[id].sends
      ensures id in old(rows) && old(rows)[id].status == Status.Queued && connected && trouble == AtMark ==>
                threw == (retryCount < 3) && rows[id].sends == old(rows)[id].sends + 1
      ensures id in old(rows) && old(rows)[id].status == Status.Queued && !connected && trouble == AtRequeue ==>
                && threw == (retryCount < 3)
                && rows[id].sends == old(rows)[id].sends && rows[id].waited == old(rows)[id].waited
      ensures id in old(rows) && old(rows)[id].status == Status.Queued && !threw &&
              (trouble == AtQuery || (connected && trouble in {AtPublish, AtMark})) ==>
                rows[id].status == Failed
    {
      hide Leaves;
      threw := false;
      if id !in rows {
        return;
      }
      ExecutionEffect(rows[id], retryCount, connected, trouble);
      var message := rows[id];
      if message.status == Cancelled || message.status != Status.Queued {
        return;
      }
      if trouble == AtQuery {
        threw := Catch(id, retryCount);
        return;
      }
      rows := rows[id := rows[id].(checks := rows[id].checks + 1)];
      if !connected {
        if retryCount < MAX_RETRIES {
          var delay := RETRY_BASE_DELAY_SECONDS * Pow2(retryCount);
          if trouble == AtRequeue {
            threw := Catch(id, retryCount);
            return;
          }
          rows := rows[id := rows[id].(
            published := rows[id].published + [retryCount + 1], waited := rows[id].waited + delay)];
          return;
        }
        var _ := TransitionStatus(id, Status.Queued, Failed);
        return;
      }
      if trouble == AtPublish {
        threw := Catch(id, retryCount);
        return;
      }
      rows := rows[id := rows[id].(sends := rows[id].sends + 1)];
      if trouble == AtMark {
        threw := Catch(id, retryCount);
        return;
      }
      var _ := TransitionStatus(id, Status.Queued, Sent);
    }

    /** The catch block. */
    method Catch(id: Id, retryCount: nat) returns (threw: bool)
      requires id in rows
      modifies this
      ensures threw == (retryCount < MAX_RETRIES)
      ensures rows == if threw || old(rows)[id].status != Status.Queued then old(rows)
                      else old(rows)[id := old(rows)[id].(status := Failed)]
    {
      if retryCount < MAX_RETRIES {
        return true;
      }
      var _ := TransitionStatus(id, Status.Queued, Failed);
      return false;
    }
  }
}
