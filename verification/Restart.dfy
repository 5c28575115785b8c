// The recovery operation of the step machine, run by itself after a crash, computes
// what the sequential reconciliation computes.
module Restart {
  import opened Wrappers
  import opened Tables
  import opened Operations
  import opened Recovery
  import L = Lifecycle

  const GOOD := Answer(false, true, true, None)

  // A store call that fails, or a node that neither does nor answers.
  const FAULT := Answer(true, false, false, None)

  // n steps of operation a with nothing in between and every answer good.
  ghost function Drive(s: Sys, a: AttemptId, n: nat): Sys
    decreases n
  {
    if n == 0 then s else Drive(Step(s, Advance(a, GOOD)), a, n - 1)
  }

  // The longest recovery makes this many store calls.
  const CALLS := 7

  // A crash, and then the recovery of attempt a.
  ghost function Recovered(s: Sys, a: AttemptId): Sys {
    Drive(Step(Step(s, Crash), BeginRecovery(a)), a, CALLS)
  }

  // The events of such a recovery.
  function Turns(a: AttemptId, n: nat): (events: seq<Event>)
    ensures |events| == n
  {
    seq(n, i => Advance(a, GOOD))
  }

  lemma {:induction false} DriveIsARun(s: Sys, a: AttemptId, n: nat)
    ensures Drive(s, a, n) == Run(s, Turns(a, n))
    decreases n
  {
    if n > 0 {
      DriveIsARun(Step(s, Advance(a, GOOD)), a, n - 1);
      FirstStep(s, Advance(a, GOOD), Turns(a, n - 1));
      assert Turns(a, n) == [Advance(a, GOOD)] + Turns(a, n - 1);
    }
    hide Step;
  }

  lemma {:induction false} FirstStep(s: Sys, e: Event, events: seq<Event>)
    ensures Run(s, [e] + events) == Run(Step(s, e), events)
    decreases |events|
  {
    hide Step;
    if events == [] {
      assert [e] + events == [e];
      assert Run(s, [e][..0]) == s;
    } else {
      var prefix := events[..|events| - 1];
      FirstStep(s, e, prefix);
      assert ([e] + events)[..|events|] == [e] + prefix;
    }
  }

  lemma {:induction false} RunAppends(s: Sys, first: seq<Event>, second: seq<Event>)
    ensures Run(s, first + second) == Run(Run(s, first), second)
    decreases |second|
  {
    hide Step;
    if second == [] {
      assert first + second == first;
    } else {
      var prefix := second[..|second| - 1];
      RunAppends(s, first, prefix);
      assert (first + second)[..|first + second| - 1] == first + prefix;
    }
  }

  lemma RecoveredIsARun(s: Sys, a: AttemptId)
    ensures Recovered(s, a) == Run(s, [Crash, BeginRecovery(a)] + Turns(a, CALLS))
  {
    var t := Step(Step(s, Crash), BeginRecovery(a));
    DriveIsARun(t, a, CALLS);
    assert [Crash, BeginRecovery(a)][..1] == [Crash] && [Crash][..0] == [];
    assert Run(s, [Crash]) == Step(Run(s, []), Crash);
    assert Run(s, [Crash, BeginRecovery(a)]) == t by { hide Step; }
    RunAppends(s, [Crash, BeginRecovery(a)], Turns(a, CALLS));
    hide Step;
  }

  lemma {:induction false} IdleStays(s: Sys, a: AttemptId, n: nat)
    requires a !in s.ops
    ensures Drive(s, a, n) == s
    decreases n
  {
    if n > 0 { IdleStays(s, a, n - 1); }
  }

  // One store call of a live operation that goes on as op'.
  lemma Goes(s: Sys, a: AttemptId, call: Call, db': Db, reply: Reply, op': Op, n: nat)
    requires a in s.ops && n >= 1 && ActionOf(a, s.ops[a], GOOD) == Ask(call)
    requires Exec(s.db, call) == (db', reply) && Next(s.ops[a], reply, GOOD) == Some(op')
    ensures var s1 := s.(db := db', ops := s.ops[a := op']);
            Drive(s, a, n) == Drive(s1, a, n - 1) && s1.ops - {a} == s.ops - {a}
  {
    hide Exec, Next, ActionOf;
  }

  // One store call after which the operation is over.
  lemma Ends(s: Sys, a: AttemptId, call: Call, db': Db, reply: Reply, n: nat)
    requires a in s.ops && n >= 1 && ActionOf(a, s.ops[a], GOOD) == Ask(call)
    requires Exec(s.db, call) == (db', reply) && Next(s.ops[a], reply, GOOD) == None
    ensures Drive(s, a, n) == s.(db := db', ops := s.ops - {a})
  {
    var s1 := Step(s, Advance(a, GOOD));
    assert s1 == s.(db := db', ops := s.ops - {a}) by { hide Exec, Next, ActionOf; }
    hide Step;
    IdleStays(s1, a, n - 1);
  }

  // ---------------- the last two steps of every recovery ----------------

  ghost predicate Quits(s: Sys, t: Sys, a: AttemptId, db: Db) {
    t == s.(db := db, ops := s.ops - {a})
  }

  lemma CaptureCloses(s: Sys, a: AttemptId, c: CheckpointId, p: bool, seen: Option<L.State>, verdict: AttemptState,
        n: nat)
    requires a in s.ops && s.ops[a] == RecoverCapture(KFinish, c, p, seen, verdict) && n >= 2
    ensures Quits(s, Drive(s, a, n), a, Close(s.db, a, verdict))
  {
    hide Drive;
    var db1 := AttemptFinish(s.db, a, verdict);
    var op1 := RecoverCapture(KRelease, c, p, seen, verdict);
    Goes(s, a, Finish(a, verdict), db1, Done, op1, n);
    Ends(s.(db := db1, ops := s.ops[a := op1]), a, Release(a), Close(s.db, a, verdict), Done, n - 1);
  }

  lemma RestoreCloses(s: Sys, a: AttemptId, c: CheckpointId, p: bool, verdict: AttemptState, n: nat)
    requires a in s.ops && s.ops[a] == RecoverRestore(QFinish, c, p, verdict) && n >= 2
    ensures Quits(s, Drive(s, a, n), a, Close(s.db, a, verdict))
  {
    hide Drive;
    var db1 := AttemptFinish(s.db, a, verdict);
    var op1 := RecoverRestore(QRelease, c, p, verdict);
    Goes(s, a, Finish(a, verdict), db1, Done, op1, n);
    Ends(s.(db := db1, ops := s.ops[a := op1]), a, Release(a), Close(s.db, a, verdict), Done, n - 1);
  }

  // ---------------- recovering a capture ----------------

  lemma CaptureFails(s: Sys, a: AttemptId, c: CheckpointId, p: bool, seen: Option<L.State>, n: nat)
    requires a in s.ops && s.ops[a] == RecoverCapture(KFail, c, p, seen, AttemptFailed) && n >= 3
    requires c in s.db.checkpoints
    ensures Quits(s, Drive(s, a, n), a, Close(SetRow(s.db, c, L.Failed, Corrupt), a, AttemptFailed))
  {
    hide Drive, Close;
    var db1 := SetRow(s.db, c, L.Failed, Corrupt);
    var op1 := RecoverCapture(KFinish, c, p, seen, AttemptFailed);
    Goes(s, a, EditRow(c, SetLifecycle(L.Failed, Corrupt)), db1, Done, op1, n);
    CaptureCloses(s.(db := db1, ops := s.ops[a := op1]), a, c, p, seen, AttemptFailed, n - 1);
  }

  lemma CommitReplies(db: Db, c: CheckpointId, a: AttemptId)
    ensures Exec(db, CommitCapture(c, a)) == var tx := CaptureCommit(db, c, a); if tx.Ok? then (tx.value, Done)
            else (db, Refused)
  {
    hide CaptureCommit;
  }

  lemma CaptureCommits(s: Sys, a: AttemptId, c: CheckpointId, p: bool, n: nat)
    requires c in s.db.checkpoints && n >= 4
    requires a in s.ops && s.ops[a] == RecoverCapture(KCommit, c, p, Some(s.db.checkpoints[c].lifecycle), Active)
    ensures var tx := CaptureCommit(s.db, c, a);
            Quits(s, Drive(s, a, n), a, if tx.Ok? then Close(tx.value, a, Committed) else Rejected(s.db, a, c))
  {
    CommitReplies(s.db, c, a);
    hide Drive, Close, CaptureCommit, Exec;
    var seen := Some(s.db.checkpoints[c].lifecycle);
    var tx := CaptureCommit(s.db, c, a);
    if tx.Ok? {
      var op1 := RecoverCapture(KFinish, c, p, seen, Committed);
      Goes(s, a, CommitCapture(c, a), tx.value, Done, op1, n);
      CaptureCloses(s.(db := tx.value, ops := s.ops[a := op1]), a, c, p, seen, Committed, n - 1);
    } else {
      var op1 := Rejecting(c, p, seen);
      Goes(s, a, CommitCapture(c, a), s.db, Refused, op1, n);
      var s1 := s.(ops := s.ops[a := op1]);
      if op1.kpc == KFail {
        CaptureFails(s1, a, c, p, seen, n - 1);
      } else {
        CaptureCloses(s1, a, c, p, seen, AttemptFailed, n - 1);
      }
    }
  }

  lemma CaptureDecides(s: Sys, a: AttemptId, c: CheckpointId, n: nat)
    requires a in s.db.attempts && s.db.attempts[a].checkpoint == c && ReconciledCapture(s.db, a).Ok? && n >= 6
    requires a in s.ops
    requires s.ops[a] == RecoverCapture(KCommitted, c, JournalHas(s.db, CapturePersisted, a), None, Active)
    ensures Quits(s, Drive(s, a, n), a, ReconciledCapture(s.db, a).value.0)
  {
    hide Drive, Close, CaptureCommit, Rejected;
    var p, done := JournalHas(s.db, CapturePersisted, a), JournalHas(s.db, DbCommitted, a);
    if done || !p {
      var verdict := if done then Committed else AttemptFailed;
      var op1 := RecoverCapture(KFinish, c, p, None, verdict);
      Goes(s, a, ReadMarker(DbCommitted, a), s.db, Flag(done), op1, n);
      CaptureCloses(s.(ops := s.ops[a := op1]), a, c, p, None, verdict, n - 1);
    } else {
      var op1 := RecoverCapture(KRead, c, p, None, Active);
      Goes(s, a, ReadMarker(DbCommitted, a), s.db, Flag(done), op1, n);
      var s1 := s.(ops := s.ops[a := op1]);
      var op2 := RecoverCapture(KCommit, c, p, Some(s.db.checkpoints[c].lifecycle), Active);
      Goes(s1, a, ReadCheckpoint(c), s.db, Row(Some(s.db.checkpoints[c])), op2, n - 1);
      CaptureCommits(s1.(ops := s1.ops[a := op2]), a, c, p, n - 2);
    }
  }

  lemma RecoverCaptureRuns(s: Sys, a: AttemptId, c: CheckpointId)
    requires a in s.db.attempts && s.db.attempts[a].checkpoint == c && ReconciledCapture(s.db, a).Ok?
    requires a in s.ops && s.ops[a] == RecoverCapture(KPersisted, c, false, None, Active)
    ensures Quits(s, Drive(s, a, CALLS), a, ReconciledCapture(s.db, a).value.0)
  {
    hide Drive, ReconciledCapture;
    var p := JournalHas(s.db, CapturePersisted, a);
    var op1 := RecoverCapture(KCommitted, c, p, None, Active);
    Goes(s, a, ReadMarker(CapturePersisted, a), s.db, Flag(p), op1, CALLS);
    CaptureDecides(s.(ops := s.ops[a := op1]), a, c, CALLS - 1);
  }

  // ---------------- recovering a restore ----------------

  lemma RestoreCleans(s: Sys, a: AttemptId, c: CheckpointId, p: bool, n: nat)
    requires a in s.ops && s.ops[a] == RecoverRestore(QRead, c, p, AttemptFailed) && n >= 4
    ensures Quits(s, Drive(s, a, n), a,
            Close(if BeingRestored(s.db, c) then SetRow(s.db, c, L.Available, Valid) else s.db, a, AttemptFailed))
  {
    hide Drive, Close;
    var row := if c in s.db.checkpoints then Some(s.db.checkpoints[c]) else None;
    if BeingRestored(s.db, c) {
      var op1 := RecoverRestore(QAvailable, c, p, AttemptFailed);
      Goes(s, a, ReadCheckpoint(c), s.db, Row(row), op1, n);
      var s1 := s.(ops := s.ops[a := op1]);
      var db2 := SetRow(s.db, c, L.Available, Valid);
      var op2 := RecoverRestore(QFinish, c, p, AttemptFailed);
      Goes(s1, a, EditRow(c, SetLifecycle(L.Available, Valid)), db2, Done, op2, n - 1);
      RestoreCloses(s1.(db := db2, ops := s1.ops[a := op2]), a, c, p, AttemptFailed, n - 2);
    } else {
      var op1 := RecoverRestore(QFinish, c, p, AttemptFailed);
      Goes(s, a, ReadCheckpoint(c), s.db, Row(row), op1, n);
      RestoreCloses(s.(ops := s.ops[a := op1]), a, c, p, AttemptFailed, n - 1);
    }
  }

  lemma RecoverRestoreRuns(s: Sys, a: AttemptId, c: CheckpointId)
    requires a in s.db.attempts && s.db.attempts[a].checkpoint == c
    requires a in s.ops && s.ops[a] == RecoverRestore(QRestored, c, false, Active)
    ensures Quits(s, Drive(s, a, CALLS), a, ReconciledRestore(s.db, a).0)
  {
    hide Drive, Close, BeingRestored;
    var p, done := JournalHas(s.db, ComponentsRestored, a), JournalHas(s.db, GenerationCommitted, a);
    var op1 := RecoverRestore(QCommitted, c, p, Active);
    Goes(s, a, ReadMarker(ComponentsRestored, a), s.db, Flag(p), op1, CALLS);
    var s1 := s.(ops := s.ops[a := op1]);
    if done || !p {
      var verdict := if done then Committed else AttemptFailed;
      var op2 := RecoverRestore(QFinish, c, p, verdict);
      Goes(s1, a, ReadMarker(GenerationCommitted, a), s.db, Flag(done), op2, CALLS - 1);
      RestoreCloses(s1.(ops := s1.ops[a := op2]), a, c, p, verdict, CALLS - 2);
    } else {
      var op2 := RecoverRestore(QRead, c, p, AttemptFailed);
      Goes(s1, a, ReadMarker(GenerationCommitted, a), s.db, Flag(done), op2, CALLS - 1);
      RestoreCleans(s1.(ops := s1.ops[a := op2]), a, c, p, CALLS - 2);
    }
  }

  // Refinement: after a crash, the step machine's recovery of an ACTIVE attempt ends
  // with exactly the tables the sequential reconciliation computes, and touches
  // nothing outside the store.
  lemma RecoveryRefinesReconcile(s: Sys, a: AttemptId)
    requires a in s.db.attempts && s.db.attempts[a].state == Active && Reconciled(s.db, a).Ok?
    ensures Recovered(s, a) == s.(db := Reconciled(s.db, a).value.0, ops := map[])
  {
    var t := Step(Step(s, Crash), BeginRecovery(a));
    assert t == s.(ops := map[a := RecoveryOf(s, a)]);
    hide Step, Drive, ReconciledCapture, ReconciledRestore;
    if s.db.attempts[a].kind == CaptureKind {
      RecoverCaptureRuns(t, a, s.db.attempts[a].checkpoint);
    } else {
      RecoverRestoreRuns(t, a, s.db.attempts[a].checkpoint);
    }
    assert t.ops - {a} == map[];
  }
}
