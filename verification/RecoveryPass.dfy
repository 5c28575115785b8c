// A whole reconciliation pass over a reachable store: it decides every attempt, each
// capture all or nothing.  InterruptedRecovery has passes that are cut off themselves.
module RecoveryPass {
  import opened Tables
  import opened Operations
  import opened Anchors
  import opened Recovery
  import opened Restart
  import CrashAtomicity

  // The pass as events: for each attempt in turn a restart and its recovery.
  function PassEvents(keys: seq<AttemptId>): seq<Event>
    decreases |keys|
  {
    if keys == [] then []
    else
      var a := keys[|keys| - 1];
      PassEvents(keys[..|keys| - 1]) + ([Crash, BeginRecovery(a)] + Turns(a, CALLS))
  }

  // keys lists ACTIVE attempts, each once.
  ghost predicate ActiveKeys(db: Db, keys: seq<AttemptId>) {
    (forall i :: 0 <= i < |keys| ==> keys[i] in db.attempts && db.attempts[keys[i]].state == Active)
    && forall i, j :: 0 <= i < j < |keys| ==> keys[i] != keys[j]
  }

  lemma ReachableDecides(s: Sys, a: AttemptId)
    requires CrashAtomicity.DurableInv(s) && a in s.db.attempts
    ensures Reconciled(s.db, a).Ok?
  {
    if s.db.attempts[a].kind == CaptureKind { CrashAtomicity.CrashedCaptureOf(s, a); }
    hide CrashAtomicity.DurableInv, ReconciledCapture;
  }

  lemma {:induction false} PassIsARun(s: Sys, keys: seq<AttemptId>)
    requires Inv(s) && CrashAtomicity.DurableInv(s) && ActiveKeys(s.db, keys)
    ensures forall a :: a in keys ==> a in s.db.attempts
    ensures ReconciledAll(s.db, keys).1.Ok? && Run(s, PassEvents(keys)).db == ReconciledAll(s.db, keys).0
    ensures Run(s, PassEvents(keys)).promoted == s.promoted
    decreases |keys|
  {
    if keys != [] {
      var prefix, a := keys[..|keys| - 1], keys[|keys| - 1];
      PassIsARun(s, prefix);
      var t := Run(s, PassEvents(prefix));
      CrashAtomicity.RunKeepsDurable(s, PassEvents(prefix));
      hide Inv, CrashAtomicity.DurableInv, Run, Recovered, Reconciled;
      AllAreClosed(s.db, prefix);
      assert a !in prefix;
      ReachableDecides(t, a);
      RecoveryRefinesReconcile(t, a);
      RecoveredIsARun(t, a);
      RunAppends(s, PassEvents(prefix), [Crash, BeginRecovery(a)] + Turns(a, CALLS));
    }
  }

  // For every run, every time and every listing of the ACTIVE attempts: the pass
  // succeeds, its result is a table some continuation of the run reaches, and each
  // capture in it is decided all or nothing.
  lemma PassSucceeds(events: seq<Event>, now: nat, keys: seq<AttemptId>)
    requires ActiveKeys(Run(EmptySys, events).db, keys)
    ensures var db := ReservationsExpire(Run(EmptySys, events).db, now);
            && (forall a :: a in keys ==> a in db.attempts)
            && ReconciledAll(db, keys).1.Ok?
            && Run(EmptySys, events + ([ExpireReservations(now)] + PassEvents(keys))).db == ReconciledAll(db, keys).0
            && forall i :: 0 <= i < |keys| && db.attempts[keys[i]].kind == CaptureKind ==> CaptureDecided(db, keys, i)
  {
    var s := Run(EmptySys, events);
    CrashAtomicity.Reachable(events);
    var s1 := Step(s, ExpireReservations(now));
    assert s1.db == ReservationsExpire(s.db, now);
    CrashAtomicity.StepKeepsDurableInv(s, ExpireReservations(now));
    StepKeepsInv(s, ExpireReservations(now));
    hide Inv, CrashAtomicity.DurableInv, Run, Step, Reconciled, ReconciledAll, CaptureDecided;
    PassIsARun(s1, keys);
    FirstStep(s, ExpireReservations(now), PassEvents(keys));
    RunAppends(EmptySys, events, [ExpireReservations(now)] + PassEvents(keys));
    forall i | 0 <= i < |keys| && s1.db.attempts[keys[i]].kind == CaptureKind ensures CaptureDecided(s1.db, keys, i) {
      DecidedInTurn(s1, keys, i);
    }
  }

  // What the pass makes of the i-th attempt, from the tables it finds.
  ghost predicate CaptureDecided(db: Db, keys: seq<AttemptId>, i: nat)
    requires i < |keys| && forall a :: a in keys ==> a in db.attempts
  {
    ReconciledAll(db, keys[..i]).1.Ok? && ReconciledAll(db, keys[..i + 1]).1.Ok?
    && CrashAtomicity.AllOrNothing(ReconciledAll(db, keys[..i]).0, keys[i], ReconciledAll(db, keys[..i + 1]).0)
  }

  lemma DecidedInTurn(s: Sys, keys: seq<AttemptId>, i: nat)
    requires Inv(s) && CrashAtomicity.DurableInv(s) && ActiveKeys(s.db, keys) && i < |keys|
    requires s.db.attempts[keys[i]].kind == CaptureKind
    ensures (forall a :: a in keys ==> a in s.db.attempts) && CaptureDecided(s.db, keys, i)
  {
    var prefix, a := keys[..i], keys[i];
    PassIsARun(s, prefix);
    CrashAtomicity.RunKeepsDurable(s, PassEvents(prefix));
    var t := Run(s, PassEvents(prefix));
    hide Inv, CrashAtomicity.DurableInv, Run, Reconciled, CrashAtomicity.AllOrNothing;
    AllAreClosed(s.db, prefix);
    assert a !in prefix;
    CrashAtomicity.CrashedCaptureOf(t, a);
    OneMoreKey(s.db, keys, i);
  }
}
