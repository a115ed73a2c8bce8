/** When the claim of the WhatsApp send worker excludes, and what happens when it
    does not. */
module WhatsAppExclusion {
  import opened Prelude
  import opened Counting
  import opened WhatsAppJobs
  import opened WhatsAppSend

  /** At most one live handler may still write the row, and the row shows it. */
  ghost predicate Guarded(s: State) {
    && Count(s.actors, OwnsUnwritten) + Count(s.actors, OwnsRecorded) <= 1
    && (Count(s.actors, OwnsUnwritten) > 0 ==> s.store.row.status == Processing)
    && (Count(s.actors, OwnsRecorded) > 0 ==> s.store.row.status == Sent)
  }

  ghost predicate Owned(s: State) {
    Count(s.actors, OwnsUnwritten) + Count(s.actors, OwnsRecorded) > 0
  }

  ghost predicate AlwaysGuarded(s: State, run: seq<Step>, limit: nat)
    requires Valid(s, run, limit)
    decreases |run|
  {
    Guarded(s) && (run != [] ==> AlwaysGuarded(Apply(s, run[0]), run[1..], limit))
  }

  /** No recovery pass writes a row that a live handler still owns: the staleness
      threshold only ever catches dead workers. */
  ghost predicate RecoversOnlyTheDead(s: State, run: seq<Step>, limit: nat)
    requires Valid(s, run, limit)
    decreases |run|
  {
    run != [] ==>
      && (run[0].Recover? ==> !Owned(s))
      && RecoversOnlyTheDead(Apply(s, run[0]), run[1..], limit)
  }

  lemma ReplaceOwner(s: State, step: Step)
    requires InPhase(s, step) && !step.Deliver? && !step.Sweep?
    ensures var xs, ys := s.actors, Apply(s, step).actors;
            && Count(ys, OwnsUnwritten)
               == Count(xs, OwnsUnwritten) - One(OwnsUnwritten(xs[step.a])) + One(OwnsUnwritten(ys[step.a]))
            && Count(ys, OwnsRecorded)
               == Count(xs, OwnsRecorded) - One(OwnsRecorded(xs[step.a])) + One(OwnsRecorded(ys[step.a]))
  {
    CountUpdate(s.actors, step.a, Apply(s, step).actors[step.a], OwnsUnwritten);
    CountUpdate(s.actors, step.a, Apply(s, step).actors[step.a], OwnsRecorded);
  }

  lemma OwnerCounts(s: State, a: nat)
    requires a < |s.actors|
    ensures OwnsUnwritten(s.actors[a]) ==> Count(s.actors, OwnsUnwritten) > 0
    ensures OwnsRecorded(s.actors[a]) ==> Count(s.actors, OwnsRecorded) > 0
  {
    if OwnsUnwritten(s.actors[a]) {
      CountPositive(s.actors, a, OwnsUnwritten);
    }
    if OwnsRecorded(s.actors[a]) {
      CountPositive(s.actors, a, OwnsRecorded);
    }
  }

  lemma GuardedArrive(s: State, step: Step)
    requires Guarded(s) && InPhase(s, step) && (step.Deliver? || step.Sweep?)
    ensures Guarded(Apply(s, step))
  {
    hide Count;
    var x := Apply(s, step).actors[|s.actors|];
    CountAppend(s.actors, x, OwnsUnwritten);
    CountAppend(s.actors, x, OwnsRecorded);
  }

  lemma GuardedClaim(s: State, step: Step)
    requires Guarded(s) && InPhase(s, step) && (step.Claim?)
    ensures Guarded(Apply(s, step))
  {
    hide Count;
    ReplaceOwner(s, step);
    OwnerCounts(s, step.a);
  }

  lemma GuardedWrite(s: State, step: Step)
    requires Guarded(s) && InPhase(s, step) && (step.Throttle? || step.RecordId?)
    ensures Guarded(Apply(s, step))
  {
    hide Count;
    ReplaceOwner(s, step);
    OwnerCounts(s, step.a);
  }

  lemma GuardedFailure(s: State, step: Step)
    requires Guarded(s) && InPhase(s, step) && (step.HandleFailure?)
    ensures Guarded(Apply(s, step))
  {
    hide Count;
    ReplaceOwner(s, step);
    OwnerCounts(s, step.a);
  }

  lemma GuardedRecovery(s: State, a: nat)
    requires Guarded(s) && InPhase(s, Recover(a)) && !Owned(s)
    ensures Guarded(Apply(s, Recover(a)))
  {
    hide Count;
    ReplaceOwner(s, Recover(a));
  }

  lemma GuardedBeforeCall(s: State, step: Step)
    requires Guarded(s) && InPhase(s, step)
    requires step.CheckLimit? || step.CheckSession? || step.MissPayload? || step.CallApi?
    ensures Guarded(Apply(s, step))
  {
    hide Count;
    ReplaceOwner(s, step);
    OwnerCounts(s, step.a);
  }

  lemma GuardedAfterCall(s: State, step: Step)
    requires Guarded(s) && InPhase(s, step)
    requires step.Throw? || step.Finish? || step.CreateDeadLetter? || step.Publish? || step.Crash?
    ensures Guarded(Apply(s, step))
  {
    hide Count;
    ReplaceOwner(s, step);
    OwnerCounts(s, step.a);
  }

  lemma GuardedStep(s: State, step: Step)
    requires Guarded(s) && InPhase(s, step) && (step.Recover? ==> !Owned(s))
    ensures Guarded(Apply(s, step))
  {
    if step.Deliver? || step.Sweep? {
      GuardedArrive(s, step);
    } else if step.Claim? {
      GuardedClaim(s, step);
    } else if step.Throttle? || step.RecordId? {
      GuardedWrite(s, step);
    } else if step.HandleFailure? {
      GuardedFailure(s, step);
    } else if step.Recover? {
      GuardedRecovery(s, step.a);
    } else if step.Throw? || step.Finish? || step.CreateDeadLetter? || step.Publish? || step.Crash? {
      GuardedAfterCall(s, step);
    } else {
      GuardedBeforeCall(s, step);
    }
  }

  lemma PrematureRecoveryBreaksGuard(s: State, a: nat)
    requires InPhase(s, Recover(a)) && Owned(s)
    ensures !Guarded(Apply(s, Recover(a)))
  {
    hide Count;
    ReplaceOwner(s, Recover(a));
  }

  /** At most one live handler may still write the row and the row's status shows it,
      throughout a run, exactly if recovery is never premature. */
  lemma {:induction false} GuardIffRecoversOnlyTheDead(s: State, run: seq<Step>, limit: nat)
    requires Guarded(s) && Valid(s, run, limit)
    ensures AlwaysGuarded(s, run, limit) <==> RecoversOnlyTheDead(s, run, limit)
    decreases |run|
  {
    if run != [] {
      var t := Apply(s, run[0]);
      if run[0].Recover? && Owned(s) {
        PrematureRecoveryBreaksGuard(s, run[0].a);
      } else {
        GuardedStep(s, run[0]);
        GuardIffRecoversOnlyTheDead(t, run[1..], limit);
      }
    }
  }

  // ----- exclusion by itself -----

  ghost function Owners(s: State): nat {
    Count(s.actors, OwnsUnwritten) + Count(s.actors, OwnsRecorded)
  }

  ghost predicate AlwaysExclusive(s: State, run: seq<Step>, limit: nat)
    requires Valid(s, run, limit)
    decreases |run|
  {
    Owners(s) <= 1 && (run != [] ==> AlwaysExclusive(Apply(s, run[0]), run[1..], limit))
  }

  /** No claim succeeds while a live handler still owns the row. */
  ghost predicate ClaimsOnlyUnowned(s: State, run: seq<Step>, limit: nat)
    requires Valid(s, run, limit)
    decreases |run|
  {
    run != [] ==>
      && (run[0].Claim? && s.store.row.status == Queued ==> Owners(s) == 0)
      && ClaimsOnlyUnowned(Apply(s, run[0]), run[1..], limit)
  }

  /** Only a successful claim makes an owner, and it makes exactly one. */
  lemma OwnersStep(s: State, step: Step)
    requires InPhase(s, step)
    ensures Owners(Apply(s, step)) <= Owners(s) + One(step.Claim? && s.store.row.status == Queued)
    ensures step.Claim? && s.store.row.status == Queued ==> Owners(Apply(s, step)) == Owners(s) + 1
  {
    hide Count;
    if step.Deliver? || step.Sweep? {
      var x := Apply(s, step).actors[|s.actors|];
      CountAppend(s.actors, x, OwnsUnwritten);
      CountAppend(s.actors, x, OwnsRecorded);
    } else {
      ReplaceOwner(s, step);
      OwnerCounts(s, step.a);
    }
  }

  /** At most one live handler may write the row, throughout a run, exactly if no
      claim of the run succeeds on a row that is owned. */
  lemma {:induction false} ExclusionIff(s: State, run: seq<Step>, limit: nat)
    requires Owners(s) <= 1 && Valid(s, run, limit)
    ensures AlwaysExclusive(s, run, limit) <==> ClaimsOnlyUnowned(s, run, limit)
    decreases |run|
  {
    if run != [] {
      OwnersStep(s, run[0]);
      if Owners(Apply(s, run[0])) <= 1 {
        ExclusionIff(Apply(s, run[0]), run[1..], limit);
      }
    }
  }

  /** The state in which step k of the run is taken. */
  ghost function StateAt(s: State, run: seq<Step>, k: nat, limit: nat): State
    requires Valid(s, run, limit) && k <= |run|
    decreases k
  {
    if k == 0 then s else StateAt(Apply(s, run[0]), run[1..], k - 1, limit)
  }

  /** Step k writes, as a recovery, a row that a live handler owns. */
  ghost predicate RecoversTooEarly(s: State, run: seq<Step>, k: nat, limit: nat)
    requires Valid(s, run, limit)
  {
    k < |run| && run[k].Recover? && Owned(StateAt(s, run, k, limit))
  }

  /** Step k claims a row that a live handler owns. */
  ghost predicate ClaimsOwned(s: State, run: seq<Step>, k: nat, limit: nat)
    requires Valid(s, run, limit)
  {
    && k < |run| && run[k].Claim?
    && StateAt(s, run, k, limit).store.row.status == Queued && Owned(StateAt(s, run, k, limit))
  }

  lemma OneLater(s: State, run: seq<Step>, k: nat, limit: nat)
    requires run != [] && Valid(s, run, limit)
    ensures RecoversTooEarly(Apply(s, run[0]), run[1..], k, limit) ==> RecoversTooEarly(s, run, k + 1, limit)
    ensures ClaimsOwned(Apply(s, run[0]), run[1..], k, limit) ==> ClaimsOwned(s, run, k + 1, limit)
  {
  }

  lemma {:induction false} BreachIsAClaim(s: State, run: seq<Step>, limit: nat) returns (j: nat)
    requires Owners(s) <= 1 && Valid(s, run, limit) && !AlwaysExclusive(s, run, limit)
    ensures ClaimsOwned(s, run, j, limit)
    decreases |run|
  {
    OwnersStep(s, run[0]);
    if run[0].Claim? && s.store.row.status == Queued && Owned(s) {
      j := 0;
    } else {
      j := BreachIsAClaim(Apply(s, run[0]), run[1..], limit);
      OneLater(s, run, j, limit);
      j := j + 1;
    }
  }

  lemma GuardedIsExclusive(s: State)
    requires Guarded(s)
    ensures Owners(s) <= 1
  {
  }

  lemma BreachAtOnce(s: State, run: seq<Step>, limit: nat) returns (j: nat)
    requires Guarded(s) && Valid(s, run, limit) && !AlwaysExclusive(s, run, limit)
    requires run != [] && run[0].Recover? && Owned(s)
    ensures 0 < j && RecoversTooEarly(s, run, 0, limit) && ClaimsOwned(s, run, j, limit)
  {
    hide ClaimsOwned, Apply;
    GuardedIsExclusive(s);
    OwnersStep(s, run[0]);
    j := BreachIsAClaim(Apply(s, run[0]), run[1..], limit);
    OneLater(s, run, j, limit);
    j := j + 1;
  }

  lemma {:induction false} BreachAfterRecovery(s: State, run: seq<Step>, limit: nat) returns (i: nat, j: nat)
    requires Guarded(s) && Valid(s, run, limit) && !AlwaysExclusive(s, run, limit)
    ensures i < j && RecoversTooEarly(s, run, i, limit) && ClaimsOwned(s, run, j, limit)
    decreases |run|
  {
    GuardedIsExclusive(s);
    assert run != [];
    hide RecoversTooEarly, ClaimsOwned, Guarded, Owners, Apply, StateAt;
    if run[0].Recover? && Owned(s) {
      i := 0;
      j := BreachAtOnce(s, run, limit);
    } else {
      GuardedStep(s, run[0]);
      i, j := BreachAfterRecovery(Apply(s, run[0]), run[1..], limit);
      OneLater(s, run, i, limit);
      OneLater(s, run, j, limit);
      i, j := i + 1, j + 1;
    }
  }

  lemma {:induction false} OwnedClaimBreaks(s: State, run: seq<Step>, j: nat, limit: nat)
    requires Valid(s, run, limit) && ClaimsOwned(s, run, j, limit)
    ensures !AlwaysExclusive(s, run, limit)
    decreases j
  {
    if j == 0 {
      OwnersStep(s, run[0]);
      assert Owners(Apply(s, run[0])) >= 2;
      assert !AlwaysExclusive(Apply(s, run[0]), run[1..], limit);
    } else {
      OwnedClaimBreaks(Apply(s, run[0]), run[1..], j - 1, limit);
    }
  }

  /** From a guarded row, two live handlers come to own it exactly if recovery writes
      it too early and later, the owner still at it, somebody claims it. */
  lemma BrokenIff(s: State, run: seq<Step>, limit: nat)
    requires Guarded(s) && Valid(s, run, limit)
    ensures !AlwaysExclusive(s, run, limit)
            <==> exists i: nat, j: nat :: i < j && RecoversTooEarly(s, run, i, limit) && ClaimsOwned(s, run, j, limit)
  {
    if !AlwaysExclusive(s, run, limit) {
      var i, j := BreachAfterRecovery(s, run, limit);
    }
    if i: nat, j: nat :| i < j && RecoversTooEarly(s, run, i, limit) && ClaimsOwned(s, run, j, limit) {
      OwnedClaimBreaks(s, run, j, limit);
    }
  }

  /** Recovery that only catches the dead is enough for exclusion: then no row that
      somebody owns is ever QUEUED. */
  lemma {:induction false} ExclusionWithoutPrematureRecovery(s: State, run: seq<Step>, limit: nat)
    requires Guarded(s) && Valid(s, run, limit) && RecoversOnlyTheDead(s, run, limit)
    ensures AlwaysExclusive(s, run, limit)
    decreases |run|
  {
    if run != [] {
      GuardedStep(s, run[0]);
      ExclusionWithoutPrematureRecovery(Apply(s, run[0]), run[1..], limit);
    }
  }

  lemma Unroll(s: State, step: Step, rest: seq<Step>, limit: nat)
    requires CanStep(s, step, limit) && Valid(Apply(s, step), rest, limit)
    ensures Valid(s, [step] + rest, limit)
    ensures ClaimsOnlyUnowned(s, [step] + rest, limit)
            <==> (step.Claim? && s.store.row.status == Queued ==> Owners(s) == 0)
                 && ClaimsOnlyUnowned(Apply(s, step), rest, limit)
    ensures RecoversOnlyTheDead(s, [step] + rest, limit)
            <==> (step.Recover? ==> !Owned(s)) && RecoversOnlyTheDead(Apply(s, step), rest, limit)
  {
    Prepend(s, step, rest, limit);
    assert ([step] + rest)[0] == step && ([step] + rest)[1..] == rest;
  }

  /** It is not necessary: a premature recovery that nobody follows up with a claim
      leaves one owner. */
  lemma PrematureYetExclusive() returns (run: seq<Step>)
    ensures Valid(Start(3), run, 2)
    ensures AlwaysExclusive(Start(3), run, 2) && !RecoversOnlyTheDead(Start(3), run, 2)
  {
    var s1 := Apply(Start(3), Deliver);
    assert s1.actors == [Actor(Loaded(0), true)] && Owners(s1) == 0;
    run := SweptTooEarly(s1);
    Unroll(s1, Claim(0), run, 2);
    Unroll(Start(3), Deliver, [Claim(0)] + run, 2);
    run := [Deliver] + ([Claim(0)] + run);
    StartIsExclusive(3);
    ExclusionIff(Start(3), run, 2);
  }

  /** From the claim on. */
  lemma SweptTooEarly(s: State) returns (run: seq<Step>)
    requires s.actors == [Actor(Loaded(0), true)] && s.store.row.status == Queued
    ensures Valid(Apply(s, Claim(0)), run, 2)
    ensures ClaimsOnlyUnowned(Apply(s, Claim(0)), run, 2) && !RecoversOnlyTheDead(Apply(s, Claim(0)), run, 2)
  {
    var s2 := Apply(s, Claim(0));
    assert s2.actors == [Actor(Claimed(0), true)];
    var s3 := Apply(s2, Sweep);
    assert s3.actors[0] == Actor(Claimed(0), true);
    OwnerCounts(s3, 0);
    run := PrematureRecovery(s3, 1, 2);
    Unroll(s2, Sweep, run, 2);
    run := [Sweep] + run;
  }

  lemma PrematureRecovery(s: State, a: nat, limit: nat) returns (run: seq<Step>)
    requires InPhase(s, Recover(a)) && Owned(s)
    ensures Valid(s, run, limit) && ClaimsOnlyUnowned(s, run, limit) && !RecoversOnlyTheDead(s, run, limit)
  {
    Unroll(s, Recover(a), [], limit);
    run := [Recover(a)] + [];
  }

  lemma StartIsExclusive(maxRetries: nat)
    ensures Owners(Start(maxRetries)) == 0
  {
  }

  /** Actor `a`, loaded, claims a QUEUED row and has its message accepted. */
  lemma SendAlone(s: State, prefix: seq<Step>, a: nat, limit: nat) returns (run: seq<Step>)
    requires Valid(s, prefix, limit)
    requires var t := Exec(s, prefix, limit); At(t, a) && t.actors[a].phase.Loaded? && t.store.row.status == Queued
    ensures Valid(s, run, limit)
    ensures var t, u := Exec(s, prefix, limit), Exec(s, run, limit);
            && u.actors == t.actors[a := Actor(Accepted(t.actors[a].phase.seen), true)]
            && u.store == t.store.(row := t.store.row.(status := Processing), claims := t.store.claims + 1,
                                   calls := t.store.calls + 1)
  {
    hide Exec, Valid;
    Extend(s, prefix, Claim(a), limit);
    run := prefix + [Claim(a)];
    Extend(s, run, CheckLimit(a, true), limit);
    run := run + [CheckLimit(a, true)];
    Extend(s, run, CheckSession(a, true), limit);
    run := run + [CheckSession(a, true)];
    Extend(s, run, CallApi(a, true, true), limit);
    run := run + [CallApi(a, true, true)];
  }

  lemma TwoLoaded() returns (run: seq<Step>)
    ensures Valid(Start(3), run, 2)
    ensures Exec(Start(3), run, 2) == State(Start(3).store, [Actor(Loaded(0), true), Actor(Loaded(0), true)])
  {
    Extend(Start(3), [], Deliver, 2);
    run := [Deliver];
    assert Exec(Start(3), run, 2).actors == [Actor(Loaded(0), true)];
    Extend(Start(3), run, Deliver, 2);
    run := run + [Deliver];
  }

  /** The check for a stored provider id is made when the row is loaded, not when
      it is claimed: with two handlers and no recovery at all, an error after the
      id was stored lets the other handler send the same message again. */
  lemma DuplicateSendThroughStaleLoad() returns (run: seq<Step>)
    ensures Valid(Start(3), run, 2)
    ensures var t := Exec(Start(3), run, 2).store; t.row.sentId && t.calls == 2 && t.recoveries == 0
  {
    hide Exec, Valid;
    run := TwoLoaded();
    run := SendAlone(Start(3), run, 0, 2);
    Extend(Start(3), run, RecordId(0), 2);
    run := run + [RecordId(0)];
    Extend(Start(3), run, Throw(0, true), 2);
    run := run + [Throw(0, true)];
    Extend(Start(3), run, HandleFailure(0), 2);
    run := run + [HandleFailure(0)];
    run := SendAlone(Start(3), run, 1, 2);
  }

  /** A recovery pass requeues a row that is PROCESSING, whoever owns it. */
  lemma RecoverNow(s: State, prefix: seq<Step>, limit: nat) returns (run: seq<Step>)
    requires Valid(s, prefix, limit)
    requires var t := Exec(s, prefix, limit);
             && t.store.row.status == Processing && t.store.row.retryCount < t.store.row.maxRetries
             && Count(t.actors, Live) < limit
    ensures Valid(s, run, limit)
    ensures var t, u := Exec(s, prefix, limit), Exec(s, run, limit);
            && u.actors == t.actors + [Actor(Publishing(Recovered), true)]
            && u.store == t.store.(row := MarkForRetry(t.store.row), recoveries := t.store.recoveries + 1)
  {
    hide Exec, Valid, Count;
    var t := Exec(s, prefix, limit);
    Extend(s, prefix, Sweep, limit);
    Extend(s, prefix + [Sweep], Recover(|t.actors|), limit);
    run := prefix + [Sweep] + [Recover(|t.actors|)];
  }

  /** With a premature recovery the same happens although no statement fails: the
      slow worker and its successor are both past the claim. */
  lemma DuplicateSendThroughPrematureRecovery() returns (run: seq<Step>)
    ensures Valid(Start(3), run, 3)
    ensures var t := Exec(Start(3), run, 3);
            && t.store.calls == 2 && t.store.recoveries == 1 && |t.actors| == 3
            && OwnsUnwritten(t.actors[0]) && OwnsUnwritten(t.actors[2])
  {
    Extend(Start(3), [], Deliver, 3);
    run := SendAlone(Start(3), [Deliver], 0, 3);
    assert Exec(Start(3), run, 3).actors == [Actor(Accepted(0), true)];
    run := RecoverNow(Start(3), run, 3);
    assert Exec(Start(3), run, 3).actors == [Actor(Accepted(0), true), Actor(Publishing(Recovered), true)];
    Extend(Start(3), run, Deliver, 3);
    run := run + [Deliver];
    run := SendAlone(Start(3), run, 2, 3);
  }
}
