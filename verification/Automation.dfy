/** An automation execution: the actions of a rule in order, delayed ones handed to
    the queue, immediate ones executed on the spot until one of them fails. */
module Automation {
  import opened Prelude
  import opened Counting

  datatype Action = Action(id: string, actionType: string, delaySeconds: int)
  datatype Rule = Rule(active: bool, actions: seq<Action>)

  /** What comes of an immediate action, or of the publish of a delayed one, which
      succeeds or throws. */
  datatype Reply = Success | Failure(error: string) | Throws(error: string)

  /** Which of the handler's other calls throws, if any: the first log write, the query
      for the rule, the log write for a skipped one, the query for the payload, the
      final log write, the count of executions, or the announcement. */
  datatype Trouble =
    | NoTrouble
    | AtStart(error: string)
    | AtRule(error: string)
    | AtSkip(error: string)
    | AtPayload(error: string)
    | AtWriteUp(error: string)
    | AtCount(error: string)
    | AtAnnounce(error: string)

  datatype ActionResult =
    | Deferred(actionId: string, deferredType: string, delaySeconds: int)
    | Executed(actionType: string, success: bool, error: string)

  datatype Status = Pending | Running | Completed | Failed | Skipped
  datatype Event = AutomationExecuted | AutomationFailed(error: string)

  predicate Immediate(a: Action) { a.delaySeconds <= 0 }

  function ImmediateOf(actions: seq<Action>): seq<Action> {
    if actions == [] then []
    else ImmediateOf(actions[..|actions| - 1])
         + if Immediate(actions[|actions| - 1]) then [actions[|actions| - 1]] else []
  }

  function DelayedOf(actions: seq<Action>): seq<Action> {
    if actions == [] then []
    else DelayedOf(actions[..|actions| - 1])
         + if Immediate(actions[|actions| - 1]) then [] else [actions[|actions| - 1]]
  }

  /** Action i ends the run: its execution or publish throws, or it is immediate and
      fails. */
  predicate Halts(actions: seq<Action>, replies: nat -> Reply, i: nat)
    requires i < |actions|
  {
    replies(i).Throws? || (Immediate(actions[i]) && replies(i).Failure?)
  }

  /** How many actions a run visits: up to and including the first that ends it. */
  function Visited(actions: seq<Action>, replies: nat -> Reply, from: nat := 0): (n: nat)
    requires from <= |actions|
    ensures from <= n <= |actions|
    ensures forall i :: from <= i < n - 1 ==> !Halts(actions, replies, i)
    ensures n < |actions| ==> n > from && Halts(actions, replies, n - 1)
    decreases |actions| - from
  {
    if from == |actions| then from
    else if Halts(actions, replies, from) then from + 1
    else Visited(actions, replies, from + 1)
  }

  /** The result that a visit to action i leaves. */
  function ResultOf(a: Action, reply: Reply): ActionResult {
    if !Immediate(a) then Deferred(a.id, a.actionType, a.delaySeconds)
    else Executed(a.actionType, reply.Success?, if reply.Success? then "" else reply.error)
  }

  predicate Failing(r: ActionResult) { r.Executed? && !r.success }

  /** The errors of the failing results, joined with "; ". */
  function Errors(results: seq<ActionResult>): string {
    var failing := FailingOf(results);
    JoinErrors(failing)
  }

  function FailingOf(results: seq<ActionResult>): seq<ActionResult> {
    if results == [] then []
    else (if Failing(results[0]) then [results[0]] else []) + FailingOf(results[1..])
  }

  function JoinErrors(results: seq<ActionResult>): string
  {
    if results == [] then ""
    else (if results[0].Executed? then results[0].error else "")
         + if |results| == 1 then "" else "; " + JoinErrors(results[1..])
  }

  /** The results of a run that does not throw: one a visited action. */
  ghost predicate ResultsOf(actions: seq<Action>, replies: nat -> Reply, results: seq<ActionResult>) {
    !RunThrows(actions, replies) && FirstResults(actions, replies, results, Visited(actions, replies))
  }

  /** The last visited action throws. */
  predicate RunThrows(actions: seq<Action>, replies: nat -> Reply) {
    var n := Visited(actions, replies);
    n > 0 && replies(n - 1).Throws?
  }

  /** How many of the first actions were published or executed without throwing. */
  function Survived(actions: seq<Action>, replies: nat -> Reply): (n: nat)
    ensures n <= |actions|
  {
    Visited(actions, replies) - One(RunThrows(actions, replies))
  }

  lemma {:induction false} OnlyLastFails(results: seq<ActionResult>)
    requires forall i :: 0 <= i < |results| - 1 ==> !Failing(results[i])
    ensures FailingOf(results) ==
              if results != [] && Failing(results[|results| - 1]) then [results[|results| - 1]] else []
  {
    if results != [] {
      OnlyLastFails(results[1..]);
    }
  }

  /** A run fails exactly if its last result is a failure, and the error it logs,
      though joined from all failures, is the error of that one action. */
  lemma FailureIsTheLastResult(actions: seq<Action>, replies: nat -> Reply, results: seq<ActionResult>)
    requires ResultsOf(actions, replies, results)
    ensures (exists r :: r in results && Failing(r)) <==> results != [] && Failing(results[|results| - 1])
    ensures results != [] && Failing(results[|results| - 1]) ==> Errors(results) == results[|results| - 1].error
    ensures |results| < |actions| ==> results != [] && Failing(results[|results| - 1])
  {
    forall i | 0 <= i < |results| - 1
      ensures !Failing(results[i])
    {
      assert !Halts(actions, replies, i);
    }
    OnlyLastFails(results);
    if results != [] && Failing(results[|results| - 1]) {
      var last := results[|results| - 1];
      assert JoinErrors([last]) == last.error + "";
    }
  }

  /** Action k, if it is reached, fails: it is not delayed and its execution says so. */
  predicate FailsAt(actions: seq<Action>, replies: nat -> Reply, k: nat)
    requires k < |actions|
  {
    actions[k].delaySeconds <= 0 && replies(k).Failure?
  }

  /** Action k is the first to fail or throw. */
  ghost predicate FirstToHalt(actions: seq<Action>, replies: nat -> Reply, k: nat) {
    && k < |actions| && (FailsAt(actions, replies, k) || replies(k).Throws?)
    && forall j :: 0 <= j < k ==> !FailsAt(actions, replies, j) && !replies(j).Throws?
  }

  /** Nothing fails or throws. */
  ghost predicate AllWell(actions: seq<Action>, replies: nat -> Reply) {
    forall j :: 0 <= j < |actions| ==> !FailsAt(actions, replies, j) && !replies(j).Throws?
  }

  /** What a result says about its action. */
  ghost predicate Says(r: ActionResult, a: Action, reply: Reply) {
    if a.delaySeconds > 0 then r == Deferred(a.id, a.actionType, a.delaySeconds)
    else if reply.Success? then r == Executed(a.actionType, true, "")
    else r == Executed(a.actionType, false, reply.error)
  }

  lemma HaltsNowhere(actions: seq<Action>, replies: nat -> Reply)
    requires AllWell(actions, replies)
    ensures Visited(actions, replies) == |actions| && !RunThrows(actions, replies)
  {
    var n := Visited(actions, replies);
    hide Visited;
    assert n > 0 ==> !Halts(actions, replies, n - 1);
  }

  lemma HaltsFirstAt(actions: seq<Action>, replies: nat -> Reply, k: nat)
    requires FirstToHalt(actions, replies, k)
    ensures k < |actions| && (FailsAt(actions, replies, k) || replies(k).Throws?)
    ensures Visited(actions, replies) == k + 1 && RunThrows(actions, replies) == replies(k).Throws?
  {
    var n := Visited(actions, replies);
    Unhalted(actions, replies, k);
    hide Visited;
    assert Halts(actions, replies, k);
    assert forall j :: 0 <= j < k ==> !Halts(actions, replies, j);
  }

  lemma ResultsAre(actions: seq<Action>, replies: nat -> Reply, results: seq<ActionResult>)
    requires ResultsOf(actions, replies, results)
    ensures ResultsSay(actions, replies, Some(results), Visited(actions, replies))
  {
  }

  /** How the loop ends when no action fails or throws: after the last one. */
  lemma WellEnds(rule: Option<Rule>, replies: nat -> Reply)
    requires rule.Some? && rule.value.active && AllWell(rule.value.actions, replies)
    ensures Thrown(rule, replies, NoTrouble) == None && WritesUp(rule, replies, NoTrouble)
    ensures CallsOf(rule.value.actions, replies) == ImmediateOf(rule.value.actions)
    ensures PublishesOf(rule.value.actions, replies) == DelayedOf(rule.value.actions)
    ensures forall results :: ResultsOf(rule.value.actions, replies, results) ==>
              !Ended(results) && ResultsSay(rule.value.actions, replies, Some(results), |rule.value.actions|)
  {
    hide ResultsOf, Visited;
    HaltsNowhere(rule.value.actions, replies);
    assert rule.value.actions[..|rule.value.actions|] == rule.value.actions;
    forall results | ResultsOf(rule.value.actions, replies, results)
      ensures !Ended(results) && ResultsSay(rule.value.actions, replies, Some(results), |rule.value.actions|)
    {
      ResultsAre(rule.value.actions, replies, results);
    }
  }

  /** And otherwise: right after the first that does. */
  lemma HaltEnds(rule: Option<Rule>, replies: nat -> Reply, k: nat)
    requires rule.Some? && rule.value.active && FirstToHalt(rule.value.actions, replies, k)
    ensures replies(k).Throws? ==>
              Thrown(rule, replies, NoTrouble) == Some(replies(k).error) && !WritesUp(rule, replies, NoTrouble)
    ensures replies(k).Failure? ==> Thrown(rule, replies, NoTrouble) == None && WritesUp(rule, replies, NoTrouble)
    ensures k < |rule.value.actions|
    ensures CallsOf(rule.value.actions, replies) == ImmediateOf(rule.value.actions[..k + 1])
    ensures PublishesOf(rule.value.actions, replies) == DelayedOf(rule.value.actions[..k])
    ensures forall results :: ResultsOf(rule.value.actions, replies, results) ==>
              && Ended(results) && Last(results).error == replies(k).error
              && ResultsSay(rule.value.actions, replies, Some(results), k + 1)
  {
    hide ResultsOf, Visited, FirstToHalt;
    HaltsFirstAt(rule.value.actions, replies, k);
    assert rule.value.actions[..k + 1][..k] == rule.value.actions[..k];
    forall results | ResultsOf(rule.value.actions, replies, results)
      ensures Ended(results) && Last(results).error == replies(k).error
      ensures ResultsSay(rule.value.actions, replies, Some(results), k + 1)
    {
      ResultsAre(rule.value.actions, replies, results);
      NoneThrew(rule.value.actions, replies, results);
    }
  }

  lemma NoneThrew(actions: seq<Action>, replies: nat -> Reply, results: seq<ActionResult>)
    requires ResultsOf(actions, replies, results)
    ensures !RunThrows(actions, replies)
  {
  }

  predicate NotDelayed(a: Action) { a.delaySeconds <= 0 }

  predicate IsDelayed(a: Action) { a.delaySeconds > 0 }

  lemma {:induction false} Lengths(actions: seq<Action>)
    ensures |ImmediateOf(actions)| == Count(actions, NotDelayed)
    ensures |DelayedOf(actions)| == Count(actions, IsDelayed)
    ensures |ImmediateOf(actions)| + |DelayedOf(actions)| == |actions|
  {
    if actions != [] {
      Lengths(actions[..|actions| - 1]);
    }
  }

  /** Each action that is not delayed stands among the immediate ones after exactly
      those before it that are not delayed either. */
  lemma {:induction false} ImmediateInOrder(actions: seq<Action>, k: nat)
    requires k < |actions| && actions[k].delaySeconds <= 0
    ensures Count(actions[..k], NotDelayed) < |ImmediateOf(actions)| == Count(actions, NotDelayed)
    ensures ImmediateOf(actions)[Count(actions[..k], NotDelayed)] == actions[k]
    decreases |actions|
  {
    var n := |actions| - 1;
    Lengths(actions);
    Lengths(actions[..n]);
    if k < n {
      ImmediateInOrder(actions[..n], k);
      assert actions[..n][..k] == actions[..k];
    }
  }

  /** And so does each delayed one among the delayed. */
  lemma {:induction false} DelayedInOrder(actions: seq<Action>, k: nat)
    requires k < |actions| && actions[k].delaySeconds > 0
    ensures Count(actions[..k], IsDelayed) < |DelayedOf(actions)| == Count(actions, IsDelayed)
    ensures DelayedOf(actions)[Count(actions[..k], IsDelayed)] == actions[k]
    decreases |actions|
  {
    var n := |actions| - 1;
    Lengths(actions);
    Lengths(actions[..n]);
    if k < n {
      DelayedInOrder(actions[..n], k);
      assert actions[..n][..k] == actions[..k];
    }
  }

  // ----- redelivered executions -----

  /** One delivery of an execution whose rule is active. */
  datatype Delivery = Delivery(replies: nat -> Reply, trouble: Trouble)

  /** Nothing throws before the loop over the actions. */
  predicate Starts(trouble: Trouble) {
    !trouble.AtStart? && !trouble.AtRule? && !trouble.AtPayload?
  }

  /** How often an action is executed over several deliveries of one execution: the
      handler starts from the first action whatever earlier deliveries did. */
  function TimesExecuted(actions: seq<Action>, deliveries: seq<Delivery>, a: Action): nat {
    if deliveries == [] then 0
    else
      var last := deliveries[|deliveries| - 1];
      TimesExecuted(actions, deliveries[..|deliveries| - 1], a)
      + if Starts(last.trouble) then multiset(ImmediateOf(actions[..Visited(actions, last.replies)]))[a] else 0
  }

  ghost predicate Distinct(actions: seq<Action>) {
    forall i, j :: 0 <= i < j < |actions| ==> actions[i] != actions[j]
  }

  /** No action before i ends the run. */
  predicate NoneHalts(actions: seq<Action>, replies: nat -> Reply, i: nat)
    requires i <= |actions|
  {
    forall k :: 0 <= k < i ==> !Halts(actions, replies, k)
  }

  lemma Unhalted(actions: seq<Action>, replies: nat -> Reply, i: nat)
    requires i < |actions|
    ensures i < Visited(actions, replies) <==> NoneHalts(actions, replies, i)
  {
  }

  lemma {:induction false} ExecutedInPrefix(actions: seq<Action>, n: nat, i: nat)
    requires Distinct(actions) && n <= |actions| && i < |actions| && Immediate(actions[i])
    ensures multiset(ImmediateOf(actions[..n]))[actions[i]] == One(i < n)
    decreases n
  {
    if n > 0 {
      assert actions[..n][..n - 1] == actions[..n - 1];
      ExecutedInPrefix(actions, n - 1, i);
    }
  }

  /** Whether a delivery gets as far as action i: nothing throws before the loop, no
      earlier action throws, and no earlier immediate one fails. */
  function Reaches(actions: seq<Action>, i: nat): Delivery -> bool
    requires i <= |actions|
  {
    (d: Delivery) => Starts(d.trouble) && NoneHalts(actions, d.replies, i)
  }

  /** An immediate action is executed in exactly the deliveries that get as far as it,
      once in each: a redelivery repeats what succeeded. */
  lemma {:induction false} ExecutedOncePerDelivery(actions: seq<Action>, deliveries: seq<Delivery>, i: nat)
    requires Distinct(actions) && i < |actions| && Immediate(actions[i])
    ensures TimesExecuted(actions, deliveries, actions[i]) == Count(deliveries, Reaches(actions, i))
  {
    if deliveries != [] {
      var last := |deliveries| - 1;
      ExecutedOncePerDelivery(actions, deliveries[..last], i);
      ExecutedInPrefix(actions, Visited(actions, deliveries[last].replies), i);
      Unhalted(actions, deliveries[last].replies, i);
    }
  }

  /** So no action is executed more often than one before it. */
  lemma EarlierAtLeastAsOften(actions: seq<Action>, deliveries: seq<Delivery>, i: nat, j: nat)
    requires Distinct(actions) && i < j < |actions| && Immediate(actions[i]) && Immediate(actions[j])
    ensures TimesExecuted(actions, deliveries, actions[j]) <= TimesExecuted(actions, deliveries, actions[i])
  {
    ExecutedOncePerDelivery(actions, deliveries, i);
    ExecutedOncePerDelivery(actions, deliveries, j);
    CountImplies(deliveries, Reaches(actions, j), Reaches(actions, i));
  }

  /** And an action is executed at most once exactly if no two deliveries reach it. */
  lemma ExecutedAtMostOnceIff(actions: seq<Action>, deliveries: seq<Delivery>, i: nat)
    requires Distinct(actions) && i < |actions| && Immediate(actions[i])
    ensures TimesExecuted(actions, deliveries, actions[i]) <= 1
            <==> forall d, e :: 0 <= d < e < |deliveries| ==>
                   !(Reaches(actions, i)(deliveries[d]) && Reaches(actions, i)(deliveries[e]))
  {
    var p := Reaches(actions, i);
    ExecutedOncePerDelivery(actions, deliveries, i);
    if Count(deliveries, p) <= 1 {
      forall d, e | 0 <= d < e < |deliveries|
        ensures !(p(deliveries[d]) && p(deliveries[e]))
      {
        if p(deliveries[d]) && p(deliveries[e]) {
          CountTwo(deliveries, d, e, p);
        }
      }
    } else {
      var d := CountWitness(deliveries, p);
      var e := CountOther(deliveries, d, p);
      assert p(deliveries[d]) && p(deliveries[e]);
    }
  }

  /** The results of the first i actions. */
  ghost predicate FirstResults(actions: seq<Action>, replies: nat -> Reply, results: seq<ActionResult>, i: nat) {
    && |results| == i <= |actions|
    && forall k :: 0 <= k < i ==> results[k] == ResultOf(actions[k], replies(k))
  }

  lemma NoneYet(actions: seq<Action>, replies: nat -> Reply)
    ensures ImmediateOf(actions[..0]) == [] && DelayedOf(actions[..0]) == []
    ensures FirstResults(actions, replies, [], 0)
  {
  }

  lemma OneMoreResult(actions: seq<Action>, replies: nat -> Reply, results: seq<ActionResult>, i: nat)
    requires FirstResults(actions, replies, results, i) && i < |actions|
    ensures FirstResults(actions, replies, results + [ResultOf(actions[i], replies(i))], i + 1)
  {
  }

  lemma OneMore(actions: seq<Action>, replies: nat -> Reply, i: nat)
    requires i < |actions|
    ensures ImmediateOf(actions[..i + 1])
            == ImmediateOf(actions[..i]) + if Immediate(actions[i]) then [actions[i]] else []
    ensures DelayedOf(actions[..i + 1]) == DelayedOf(actions[..i]) + if Immediate(actions[i]) then [] else [actions[i]]
    ensures Visited(actions, replies, i)
            == if Halts(actions, replies, i) then i + 1 else Visited(actions, replies, i + 1)
  {
    assert actions[..i + 1][..i] == actions[..i];
  }

  class AutomationEvaluatorWorker {
    var status: Status
    var error: Option<string>
    var actionResults: Option<seq<ActionResult>>
    var executionCount: nat
    var executed: seq<Action>
    var delayed: seq<Action>
    var events: seq<Event>

    constructor ()
      ensures status == Pending && error == None && actionResults == None
      ensures executionCount == 0 && executed == [] && delayed == [] && events == []
    {
      status, error, actionResults := Pending, None, None;
      executionCount, executed, delayed, events := 0, [], [], [];
    }

    /** The loop over the actions: exactly the immediate ones up to and including the
        first that fails or throws are executed, exactly the delayed ones before it
        are queued, both in order, and each visit leaves one result. */
    method RunActions(actions: seq<Action>, replies: nat -> Reply)
      returns (results: seq<ActionResult>, thrown: Option<string>)
      modifies this`executed, this`delayed
      ensures executed == old(executed) + CallsOf(actions, replies)
      ensures delayed == old(delayed) + PublishesOf(actions, replies)
      ensures thrown.Some? == RunThrows(actions, replies)
      ensures thrown.Some? ==> thrown == Some(replies(Visited(actions, replies) - 1).error)
      ensures thrown.None? ==> ResultsOf(actions, replies, results)
    {
      hide ImmediateOf, DelayedOf, Visited, FirstResults;
      NoneYet(actions, replies);
      results, thrown := [], None;
      var i := 0;
      while i < |actions|
        invariant 0 <= i <= |actions| && FirstResults(actions, replies, results, i)
        invariant Visited(actions, replies, i) == Visited(actions, replies)
        invariant i > 0 ==> !Halts(actions, replies, i - 1)
        invariant executed == old(executed) + ImmediateOf(actions[..i])
        invariant delayed == old(delayed) + DelayedOf(actions[..i])
        invariant thrown.None?
      {
        var action := actions[i];
        OneMore(actions, replies, i);
        OneMoreResult(actions, replies, results, i);
        i := i + 1;
        var reply := replies(i - 1);
        if action.delaySeconds > 0 {
          if reply.Throws? {
            thrown := Some(reply.error);
            return;
          }
          delayed := delayed + [action];
          results := results + [Deferred(action.id, action.actionType, action.delaySeconds)];
          continue;
        }
        executed := executed + [action];
        if reply.Throws? {
          thrown := Some(reply.error);
          return;
        }
        results := results + [ResultOf(action, reply)];
        if reply.Failure? {
          break;
        }
      }
    }

    /** The try block: which exception leaves it, if any, and what it did before. */
    method Try(rule: Option<Rule>, replies: nat -> Reply, trouble: Trouble) returns (thrown: Option<string>)
      modifies this
      ensures thrown == Thrown(rule, replies, trouble)
      ensures executed == old(executed)
                          + if Runs(rule, trouble) then CallsOf(rule.value.actions, replies) else []
      ensures delayed == old(delayed)
                         + if Runs(rule, trouble) then PublishesOf(rule.value.actions, replies) else []
      ensures !WritesUp(rule, replies, trouble) ==>
                && actionResults == old(actionResults) && executionCount == old(executionCount) && events == old(events)
                && (trouble.AtStart? ==> status == old(status) && error == old(error))
                && (thrown.None? ==>
                      && status == Skipped
                      && error == Some(if rule.None? then "Rule not found or deleted" else "Rule is disabled"))
                && (thrown.Some? && !trouble.AtStart? ==> status == Running && error == old(error))
      ensures WritesUp(rule, replies, trouble) ==>
                && actionResults.Some? && ResultsOf(rule.value.actions, replies, actionResults.value)
                && status == (if Ended(actionResults.value) then Status.Failed else Completed)
                && error == (if Ended(actionResults.value) then Some(Last(actionResults.value).error) else old(error))
                && executionCount == old(executionCount) + One(!trouble.AtCount?)
                && events == old(events) + if trouble.AtCount? || trouble.AtAnnounce? then []
                                           else [Announcement(actionResults.value)]
    {
      hide ImmediateOf, DelayedOf, Halts, Errors;
      if trouble.AtStart? {
        return Some(trouble.error);
      }
      status := Running;
      if trouble.AtRule? {
        return Some(trouble.error);
      }
      if rule.None? || !rule.value.active {
        if trouble.AtSkip? {
          return Some(trouble.error);
        }
        status, error := Skipped, Some(if rule.None? then "Rule not found or deleted" else "Rule is disabled");
        return None;
      }
      if trouble.AtPayload? {
        return Some(trouble.error);
      }
      var results;
      results, thrown := RunActions(rule.value.actions, replies);
      if thrown.Some? {
        return;
      }
      thrown := Conclude(rule.value.actions, replies, results, trouble);
    }

    /** The final status and what is written and announced with it. */
    method Conclude(actions: seq<Action>, ghost replies: nat -> Reply, results: seq<ActionResult>, trouble: Trouble)
      returns (thrown: Option<string>)
      requires ResultsOf(actions, replies, results)
      modifies this`status, this`actionResults, this`error, this`executionCount, this`events
      ensures thrown == if AfterLoop(trouble) then Some(trouble.error) else None
      ensures trouble.AtWriteUp? ==> unchanged(this)
      ensures !trouble.AtWriteUp? ==>
                && actionResults == Some(results)
                && status == (if Ended(results) then Status.Failed else Completed)
                && error == (if Ended(results) then Some(Last(results).error) else old(error))
                && executionCount == old(executionCount) + One(!trouble.AtCount?)
                && events == old(events) + if trouble.AtCount? || trouble.AtAnnounce? then []
                                           else [Announcement(results)]
    {
      FailureIsTheLastResult(actions, replies, results);
      var hasFailure := exists r :: r in results && Failing(r);
      if trouble.AtWriteUp? {
        return Some(trouble.error);
      }
      status, actionResults := if hasFailure then Status.Failed else Completed, Some(results);
      if hasFailure {
        error := Some(Errors(results));
      }
      if trouble.AtCount? {
        return Some(trouble.error);
      }
      executionCount := executionCount + 1;
      if trouble.AtAnnounce? {
        return Some(trouble.error);
      }
      events := events + [if hasFailure then AutomationFailed(Errors(results)) else AutomationExecuted];
      return None;
    }

    /** One delivery. Whatever the try block throws is logged as FAILED, announced and
        passed on to the queue, unless logging it throws as well (`again`); results
        and count already written stay. So the log says FAILED exactly if the last
        result is a failure or something threw. */
    method Handle(rule: Option<Rule>, replies: nat -> Reply, trouble: Trouble, again: bool) returns (threw: bool)
      modifies this
      ensures threw == Thrown(rule, replies, trouble).Some?
      ensures executed == old(executed)
                          + if Runs(rule, trouble) then CallsOf(rule.value.actions, replies) else []
      ensures delayed == old(delayed)
                         + if Runs(rule, trouble) then PublishesOf(rule.value.actions, replies) else []
      ensures WritesUp(rule, replies, trouble) ==>
                && actionResults.Some? && ResultsOf(rule.value.actions, replies, actionResults.value)
                && executionCount == old(executionCount) + One(!trouble.AtCount?)
      ensures !WritesUp(rule, replies, trouble) ==>
                actionResults == old(actionResults) && executionCount == old(executionCount)
      ensures threw && !again ==>
                && status == Status.Failed && error == Thrown(rule, replies, trouble)
                && events == old(events) + [AutomationFailed(error.value)]
      ensures threw && again ==> events == old(events)
      ensures threw && again && !WritesUp(rule, replies, trouble) ==>
                status == if trouble.AtStart? then old(status) else Running
      ensures !threw && !WritesUp(rule, replies, trouble) ==> status == Skipped && error.Some? && events == old(events)
      ensures !threw && WritesUp(rule, replies, trouble) ==>
                && status == (if Ended(actionResults.value) then Status.Failed else Completed)
                && error == (if Ended(actionResults.value) then Some(Last(actionResults.value).error) else old(error))
                && events == old(events) + [Announcement(actionResults.value)]
      // no other call throwing: there is no rule, or it is not active
      ensures trouble == NoTrouble && (rule.None? || !rule.value.active) ==>
                && !threw && status == Skipped && actionResults == old(actionResults)
                && error == Some(if rule.None? then "Rule not found or deleted" else "Rule is disabled")
                && executed == old(executed) && delayed == old(delayed)
                && executionCount == old(executionCount) && events == old(events)
      // every action succeeds or is queued
      ensures trouble == NoTrouble && rule.Some? && rule.value.active && AllWell(rule.value.actions, replies) ==>
                && !threw && status == Completed && error == old(error)
                && executed == old(executed) + ImmediateOf(rule.value.actions)
                && delayed == old(delayed) + DelayedOf(rule.value.actions)
                && executionCount == old(executionCount) + 1 && events == old(events) + [AutomationExecuted]
                && ResultsSay(rule.value.actions, replies, actionResults, |rule.value.actions|)
      // the first action to end the run fails, or throws
      ensures forall k: nat ::
                trouble == NoTrouble && rule.Some? && rule.value.active
                && FirstToHalt(rule.value.actions, replies, k) ==>
                  && executed == old(executed) + ImmediateOf(rule.value.actions[..k + 1])
                  && delayed == old(delayed) + DelayedOf(rule.value.actions[..k])
      ensures forall k: nat ::
                trouble == NoTrouble && rule.Some? && rule.value.active
                && FirstToHalt(rule.value.actions, replies, k) && replies(k).Failure? ==>
                  && !threw && status == Status.Failed && error == Some(replies(k).error)
                  && executionCount == old(executionCount) + 1
                  && events == old(events) + [AutomationFailed(replies(k).error)]
                  && ResultsSay(rule.value.actions, replies, actionResults, k + 1)
      ensures forall k: nat ::
                trouble == NoTrouble && rule.Some? && rule.value.active
                && FirstToHalt(rule.value.actions, replies, k) && replies(k).Throws? && !again ==>
                  && threw && status == Status.Failed && error == Some(replies(k).error)
                  && executionCount == old(executionCount) && actionResults == old(actionResults)
                  && events == old(events) + [AutomationFailed(replies(k).error)]
    {
      hide ImmediateOf, DelayedOf, ResultsOf, RunThrows, Visited, FirstToHalt, AllWell, ResultsSay;
      if trouble == NoTrouble && rule.Some? && rule.value.active {
        if AllWell(rule.value.actions, replies) {
          WellEnds(rule, replies);
        }
        forall k: nat | FirstToHalt(rule.value.actions, replies, k) {
          HaltEnds(rule, replies, k);
        }
      }
      var thrown := Try(rule, replies, trouble);
      if thrown.None? {
        return false;
      }
      if !again {
        status, error := Status.Failed, thrown;
        events := events + [AutomationFailed(thrown.value)];
      }
      return true;
    }
  }

  /** There are n results, one for each of the first actions. */
  ghost predicate ResultsSay(actions: seq<Action>, replies: nat -> Reply, results: Option<seq<ActionResult>>, n: nat) {
    && results.Some? && |results.value| == n <= |actions|
    && forall i :: 0 <= i < n ==> Says(results.value[i], actions[i], replies(i))
  }

  // ----- how a delivery ends -----

  /** The loop over the actions is entered. */
  predicate Runs(rule: Option<Rule>, trouble: Trouble) {
    rule.Some? && rule.value.active && Starts(trouble)
  }

  predicate AfterLoop(trouble: Trouble) {
    trouble.AtWriteUp? || trouble.AtCount? || trouble.AtAnnounce?
  }

  /** The actions executed by the loop, and the delayed ones it hands to the queue. */
  function CallsOf(actions: seq<Action>, replies: nat -> Reply): seq<Action> {
    ImmediateOf(actions[..Visited(actions, replies)])
  }

  function PublishesOf(actions: seq<Action>, replies: nat -> Reply): seq<Action> {
    DelayedOf(actions[..Survived(actions, replies)])
  }

  /** The final status and the results are written. */
  predicate WritesUp(rule: Option<Rule>, replies: nat -> Reply, trouble: Trouble) {
    Runs(rule, trouble) && !RunThrows(rule.value.actions, replies) && !trouble.AtWriteUp?
  }

  /** The exception that leaves the try block, if any. */
  function Thrown(rule: Option<Rule>, replies: nat -> Reply, trouble: Trouble): Option<string> {
    if trouble.AtStart? || trouble.AtRule? then Some(trouble.error)
    else if rule.None? || !rule.value.active then if trouble.AtSkip? then Some(trouble.error) else None
    else if trouble.AtPayload? then Some(trouble.error)
    else if RunThrows(rule.value.actions, replies) then Some(replies(Visited(rule.value.actions, replies) - 1).error)
    else if AfterLoop(trouble) then Some(trouble.error)
    else None
  }

  /** The run was ended by a failing action. */
  predicate Ended(results: seq<ActionResult>) {
    results != [] && Failing(results[|results| - 1])
  }

  function Last(results: seq<ActionResult>): ActionResult
    requires results != []
  {
    results[|results| - 1]
  }

  function Announcement(results: seq<ActionResult>): Event {
    if Ended(results) then AutomationFailed(Last(results).error) else AutomationExecuted
  }
}
