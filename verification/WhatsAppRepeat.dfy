/** When the WhatsApp API is called again: exactly which states allow another call
    although the provider's id is stored, and how many calls there can be in all. */
module WhatsAppRepeat {
  import opened Prelude
  import opened Counting
  import opened WhatsAppSend

  ghost predicate CanCallAgain(s: State, limit: nat) {
    exists run :: Valid(s, run, limit) && Exec(s, run, limit).store.calls > s.store.calls
  }

  /** A live handler past its claim and before its call. It looks at the row no more. */
  predicate AboutToCall(x: Actor) {
    x.alive && (x.phase.Claimed? || x.phase.Allowed? || x.phase.Ready?)
  }

  predicate HasLoaded(x: Actor) { x.alive && x.phase.Loaded? }

  /** A live actor that may yet write QUEUED without calling. */
  predicate MayQueue(x: Actor, maxRetries: nat) {
    x.alive && match x.phase
    case Throttled => true
    case Accepted(seen) => seen < maxRetries
    case Recorded(seen) => seen < maxRetries
    case Failing(seen, retryable, _) => retryable && seen < maxRetries
    case Swept(seen) => seen < maxRetries
    case _ => false
  }

  predicate SomeAboutToCall(s: State) {
    exists a :: 0 <= a < |s.actors| && AboutToCall(s.actors[a])
  }

  predicate SomeLoaded(s: State) {
    exists a :: 0 <= a < |s.actors| && HasLoaded(s.actors[a])
  }

  /** The row is QUEUED, or an actor at work or a new recovery pass can make it so. */
  predicate QueuedOrSoon(s: State, limit: nat) {
    || s.store.row.status == Queued
    || (exists a :: 0 <= a < |s.actors| && MayQueue(s.actors[a], s.store.row.maxRetries))
    || (s.store.row.status == Processing && s.store.row.retryCount < s.store.row.maxRetries && limit >= 2)
  }

  predicate MayCall(s: State, limit: nat) {
    SomeAboutToCall(s) || (SomeLoaded(s) && QueuedOrSoon(s, limit))
  }

  // ----- no other state allows a call -----

  lemma LoadedIsLive(s: State)
    requires SomeLoaded(s)
    ensures Count(s.actors, Live) >= 1
  {
    var a :| 0 <= a < |s.actors| && HasLoaded(s.actors[a]);
    CountPositive(s.actors, a, Live);
  }

  /** Nobody new comes near a call: a handler that loads the row now sees the id. */
  lemma NoCallStep(s: State, step: Step, limit: nat)
    requires s.store.row.sentId && !MayCall(s, limit) && CanStep(s, step, limit)
    ensures var t := Apply(s, step);
            t.store.row.sentId && !SomeAboutToCall(t) && t.store.calls == s.store.calls
            && (SomeLoaded(t) ==> SomeLoaded(s))
  {
    hide Count;
    var t := Apply(s, step);
    forall a | 0 <= a < |t.actors|
      ensures !AboutToCall(t.actors[a])
      ensures HasLoaded(t.actors[a]) ==> a < |s.actors| && HasLoaded(s.actors[a])
    {
      if a < |s.actors| {
        assert !AboutToCall(s.actors[a]);
      }
    }
  }

  /** With a loaded handler waiting, nobody makes the row QUEUED. */
  lemma NotQueuedStep(s: State, step: Step, limit: nat)
    requires s.store.row.sentId && SomeLoaded(s) && !MayCall(s, limit) && CanStep(s, step, limit)
    ensures !QueuedOrSoon(Apply(s, step), limit)
  {
    hide Count;
    var t := Apply(s, step);
    var m := s.store.row.maxRetries;
    LoadedIsLive(s);
    assert t.store.row.maxRetries == m;
    forall a | 0 <= a < |t.actors|
      ensures !MayQueue(t.actors[a], m)
    {
      if a < |s.actors| {
        assert !MayQueue(s.actors[a], m) && !AboutToCall(s.actors[a]);
      }
    }
    if !step.Deliver? && !step.Sweep? {
      assert !MayQueue(s.actors[step.a], m) && !AboutToCall(s.actors[step.a]);
    }
  }

  lemma {:induction false} NoCallRun(s: State, run: seq<Step>, limit: nat)
    requires s.store.row.sentId && !MayCall(s, limit) && Valid(s, run, limit)
    ensures Exec(s, run, limit).store.calls == s.store.calls
    decreases |run|
  {
    if run != [] {
      NoCallStep(s, run[0], limit);
      if SomeLoaded(s) {
        NotQueuedStep(s, run[0], limit);
      }
      NoCallRun(Apply(s, run[0]), run[1..], limit);
    }
  }

  // ----- these do -----

  /** s reaches another call by this run. */
  ghost predicate Calls(s: State, run: seq<Step>, limit: nat) {
    Valid(s, run, limit) && Exec(s, run, limit).store.calls > s.store.calls
  }

  /** A step before the call, which is not a call itself. */
  lemma Then(s: State, step: Step, rest: seq<Step>, limit: nat)
    requires CanStep(s, step, limit) && Calls(Apply(s, step), rest, limit)
    requires Apply(s, step).store.calls == s.store.calls
    ensures Calls(s, [step] + rest, limit)
  {
    Prepend(s, step, rest, limit);
  }

  lemma CallRun(s: State, a: nat, limit: nat) returns (run: seq<Step>)
    requires a < |s.actors| && AboutToCall(s.actors[a])
    ensures Calls(s, run, limit)
    decreases match s.actors[a].phase case Claimed(_) => 2 case Allowed(_) => 1 case _ => 0
  {
    match s.actors[a].phase {
      case Ready(_) =>
        Prepend(s, CallApi(a, true, true), [], limit);
        run := [CallApi(a, true, true)] + [];
      case Allowed(_) =>
        var rest := CallRun(Apply(s, CheckSession(a, true)), a, limit);
        Then(s, CheckSession(a, true), rest, limit);
        run := [CheckSession(a, true)] + rest;
      case Claimed(_) =>
        var rest := CallRun(Apply(s, CheckLimit(a, true)), a, limit);
        Then(s, CheckLimit(a, true), rest, limit);
        run := [CheckLimit(a, true)] + rest;
    }
  }

  lemma ClaimRun(s: State, a: nat, limit: nat) returns (run: seq<Step>)
    requires a < |s.actors| && HasLoaded(s.actors[a]) && s.store.row.status == Queued
    ensures Calls(s, run, limit)
  {
    var rest := CallRun(Apply(s, Claim(a)), a, limit);
    Then(s, Claim(a), rest, limit);
    run := [Claim(a)] + rest;
  }

  /** Actor b makes the row QUEUED, and handler a claims it. */
  lemma QueueRun(s: State, a: nat, b: nat, limit: nat) returns (run: seq<Step>)
    requires a < |s.actors| && HasLoaded(s.actors[a])
    requires b < |s.actors| && MayQueue(s.actors[b], s.store.row.maxRetries)
    ensures Calls(s, run, limit)
    decreases if s.actors[b].phase.Accepted? || s.actors[b].phase.Recorded? then 1 else 0
  {
    var step := match s.actors[b].phase
      case Throttled => Throttle(b)
      case Swept(_) => Recover(b)
      case Failing(_, _, _) => HandleFailure(b)
      case _ => Throw(b, true);
    var rest;
    if step.Throw? {
      rest := QueueRun(Apply(s, step), a, b, limit);
    } else {
      rest := ClaimRun(Apply(s, step), a, limit);
    }
    Then(s, step, rest, limit);
    run := [step] + rest;
  }

  lemma SweepRun(s: State, a: nat, limit: nat) returns (run: seq<Step>)
    requires a < |s.actors| && HasLoaded(s.actors[a]) && Count(s.actors, Live) < limit
    requires s.store.row.status == Processing && s.store.row.retryCount < s.store.row.maxRetries
    ensures Calls(s, run, limit)
  {
    var rest := QueueRun(Apply(s, Sweep), a, |s.actors|, limit);
    Then(s, Sweep, rest, limit);
    run := [Sweep] + rest;
  }

  /** If there is no room for a recovery pass, another actor dies first. */
  lemma RecoveryRun(s: State, a: nat, limit: nat) returns (run: seq<Step>)
    requires a < |s.actors| && HasLoaded(s.actors[a]) && Count(s.actors, Live) <= limit && limit >= 2
    requires s.store.row.status == Processing && s.store.row.retryCount < s.store.row.maxRetries
    ensures Calls(s, run, limit)
  {
    if Count(s.actors, Live) < limit {
      run := SweepRun(s, a, limit);
    } else {
      var b := CountOther(s.actors, a, Live);
      var t := Apply(s, Crash(b));
      CountUpdate(s.actors, b, t.actors[b], Live);
      var rest := SweepRun(t, a, limit);
      Then(s, Crash(b), rest, limit);
      run := [Crash(b)] + rest;
    }
  }

  /** Once the provider's id is stored, the API is called again by some run exactly
      if a live handler is past its claim and before its call, or one has loaded the
      row before the id was there and the row is QUEUED or can become so. */
  lemma CanCallAgainIff(s: State, limit: nat)
    requires s.store.row.sentId && Count(s.actors, Live) <= limit
    ensures CanCallAgain(s, limit) <==> MayCall(s, limit)
  {
    if SomeAboutToCall(s) {
      var a :| 0 <= a < |s.actors| && AboutToCall(s.actors[a]);
      var run := CallRun(s, a, limit);
    } else if MayCall(s, limit) {
      var a :| 0 <= a < |s.actors| && HasLoaded(s.actors[a]);
      var run;
      if s.store.row.status == Queued {
        run := ClaimRun(s, a, limit);
      } else if b :| 0 <= b < |s.actors| && MayQueue(s.actors[b], s.store.row.maxRetries) {
        run := QueueRun(s, a, b, limit);
      } else {
        run := RecoveryRun(s, a, limit);
      }
      assert Calls(s, run, limit);
    } else {
      forall run | Valid(s, run, limit)
        ensures Exec(s, run, limit).store.calls <= s.store.calls
      {
        NoCallRun(s, run, limit);
      }
    }
  }

  // ----- the bound on calls is attained -----

  lemma {:induction false} ValidConcat(s: State, a: seq<Step>, b: seq<Step>, limit: nat)
    requires Valid(s, a, limit) && Valid(Exec(s, a, limit), b, limit)
    ensures Valid(s, a + b, limit) && Exec(s, a + b, limit) == Exec(Exec(s, a, limit), b, limit)
    decreases |a|
  {
    if a == [] {
      assert a + b == b;
    } else {
      assert (a + b)[0] == a[0] && (a + b)[1..] == a[1..] + b;
      ValidConcat(Apply(s, a[0]), a[1..], b, limit);
    }
  }

  /** s reaches by this run a QUEUED row with `calls` more calls, each of them refused
      and retried, and these actors. */
  ghost predicate Retries(s: State, run: seq<Step>, limit: nat, calls: nat, actors: seq<Actor>) {
    && Valid(s, run, limit)
    && var t := Exec(s, run, limit);
       && t.actors == actors
       && t.store.row == s.store.row.(retryCount := s.store.row.retryCount + calls)
       && t.store.calls == s.store.calls + calls
  }

  /** A loaded handler, left alone, is refused and requeues. */
  lemma RequeueAlone(s: State, a: nat, limit: nat) returns (run: seq<Step>)
    requires a < |s.actors| && HasLoaded(s.actors[a])
    requires s.store.row.status == Queued && s.actors[a].phase.seen < s.store.row.maxRetries
    ensures Retries(s, run, limit, 1, s.actors[a := Actor(Done, true)])
  {
    var s1 := Apply(s, Claim(a));
    var s2 := Apply(s1, CheckLimit(a, true));
    var s3 := Apply(s2, CheckSession(a, true));
    var s4 := Apply(s3, CallApi(a, false, true));
    Prepend(Apply(s4, HandleFailure(a)), Publish(a), [], limit);
    run := [Publish(a)] + [];
    Prepend(s4, HandleFailure(a), run, limit);
    run := [HandleFailure(a)] + run;
    Prepend(s3, CallApi(a, false, true), run, limit);
    run := [CallApi(a, false, true)] + run;
    Prepend(s2, CheckSession(a, true), run, limit);
    run := [CheckSession(a, true)] + run;
    Prepend(s1, CheckLimit(a, true), run, limit);
    run := [CheckLimit(a, true)] + run;
    Prepend(s, Claim(a), run, limit);
    run := [Claim(a)] + run;
  }

  predicate AllDone(xs: seq<Actor>) {
    forall i :: 0 <= i < |xs| ==> xs[i].phase == Done
  }

  /** k handlers, one after the other, each requeue once. */
  lemma {:induction false} SoloRounds(s: State, k: nat, limit: nat) returns (run: seq<Step>)
    requires AllDone(s.actors) && s.store.row.status == Queued && !s.store.row.sentId && limit >= 1
    requires s.store.row.retryCount + k <= s.store.row.maxRetries
    ensures Valid(s, run, limit) && AllDone(Exec(s, run, limit).actors)
    ensures Retries(s, run, limit, k, Exec(s, run, limit).actors)
    decreases k
  {
    if k == 0 {
      run := [];
    } else {
      CountZero(s.actors, Live);
      var loaded := Apply(s, Deliver);
      var requeue := RequeueAlone(loaded, |s.actors|, limit);
      Prepend(s, Deliver, requeue, limit);
      var rest := SoloRounds(Exec(loaded, requeue, limit), k - 1, limit);
      ValidConcat(s, [Deliver] + requeue, rest, limit);
      run := [Deliver] + requeue + rest;
    }
  }

  /** From actor m on, everyone is loaded with this snapshot; before m, done. */
  predicate LoadedFrom(xs: seq<Actor>, m: nat, seen: nat) {
    && m <= |xs|
    && (forall i :: 0 <= i < m ==> xs[i].phase == Done)
    && (forall i :: m <= i < |xs| ==> xs[i] == Actor(Loaded(seen), true))
  }

  lemma {:induction false} LoadTogether(s: State, m: nat, k: nat, limit: nat) returns (run: seq<Step>)
    requires LoadedFrom(s.actors, m, s.store.row.retryCount)
    requires s.store.row.status == Queued && !s.store.row.sentId && |s.actors| - m + k <= limit
    ensures Valid(s, run, limit)
    ensures var t := Exec(s, run, limit);
            LoadedFrom(t.actors, m, s.store.row.retryCount) && |t.actors| == |s.actors| + k && t.store == s.store
    decreases k
  {
    if k == 0 {
      run := [];
    } else {
      CountFrom(s.actors, m, Live);
      var rest := LoadTogether(Apply(s, Deliver), m, k - 1, limit);
      Prepend(s, Deliver, rest, limit);
      run := [Deliver] + rest;
    }
  }

  lemma {:induction false} DrainTogether(s: State, m: nat, seen: nat, limit: nat) returns (run: seq<Step>)
    requires LoadedFrom(s.actors, m, seen)
    requires s.store.row.status == Queued && seen < s.store.row.maxRetries
    ensures Valid(s, run, limit) && AllDone(Exec(s, run, limit).actors)
    ensures Retries(s, run, limit, |s.actors| - m, Exec(s, run, limit).actors)
    decreases |s.actors| - m
  {
    if m == |s.actors| {
      run := [];
    } else {
      var requeue := RequeueAlone(s, m, limit);
      var rest := DrainTogether(Exec(s, requeue, limit), m + 1, seen, limit);
      ValidConcat(s, requeue, rest, limit);
      run := requeue + rest;
    }
  }

  /** Everybody allowed in flight retries on one snapshot, and one handler more calls. */
  lemma LastRound(s: State, limit: nat) returns (run: seq<Step>)
    requires AllDone(s.actors) && s.store.row.status == Queued && !s.store.row.sentId && limit >= 1
    requires s.store.row.retryCount < s.store.row.maxRetries
    ensures Valid(s, run, limit) && Exec(s, run, limit).store.calls > s.store.calls + limit
  {
    hide Exec;
    var load := LoadTogether(s, |s.actors|, limit, limit);
    var t := Exec(s, load, limit);
    var drain := DrainTogether(t, |s.actors|, s.store.row.retryCount, limit);
    ValidConcat(s, load, drain, limit);
    var u := Exec(t, drain, limit);
    CountZero(u.actors, Live);
    var call := ClaimRun(Apply(u, Deliver), |u.actors|, limit);
    Then(u, Deliver, call, limit);
    ValidConcat(s, load + drain, [Deliver] + call, limit);
    run := load + drain + ([Deliver] + call);
  }

  /** The bound of WhatsAppSend.CallBound is reached, for every retry limit and every
      number of handlers. */
  lemma CallBoundAttained(maxRetries: nat, limit: nat) returns (run: seq<Step>)
    requires maxRetries >= 1 && limit >= 1
    ensures Valid(Start(maxRetries), run, limit)
    ensures Exec(Start(maxRetries), run, limit).store.calls == maxRetries + limit
  {
    hide Exec;
    var s := Start(maxRetries);
    var solo := SoloRounds(s, maxRetries - 1, limit);
    var last := LastRound(Exec(s, solo, limit), limit);
    ValidConcat(s, solo, last, limit);
    run := solo + last;
    CallBound(maxRetries, limit, run);
  }
}
