// What a request that fails leaves behind, when nothing else happens to it: its abort
// closes it, and the one place where it does not.
module Aborts {
  import opened Wrappers
  import opened Tables
  import opened Operations
  import opened Recovery
  import opened Restart
  import opened Progress
  import Journal
  import L = Lifecycle

  // ---------------- the abort of a capture ----------------

  // The tables after the abort of capture a of checkpoint c.
  function CaptureAborted(db: Db, a: AttemptId, c: CheckpointId): Db {
    if JournalHas(db, DbCommitted, a) then Close(db, a, Committed)
    else if c in db.checkpoints && !SettledRow(db.checkpoints[c]) then
      Close(SetRow(db, c, L.Failed, Pending), a, AttemptFailed)
    else Close(db, a, AttemptFailed)
  }

  lemma CaptureAbortCloses(s: Sys, a: AttemptId, p: CapturePlan, committed: bool, n: nat)
    requires a in s.ops && s.ops[a] == CaptureAbort(AFinish, p, committed) && n >= 2
    ensures Drive(s, a, n) ==
            s.(db := Close(s.db, a, if committed then Committed else AttemptFailed), ops := s.ops - {a})
  {
    hide Drive, Step;
    var db1 := AttemptFinish(s.db, a, if committed then Committed else AttemptFailed);
    var s1 := s.(db := db1, ops := s.ops[a := CaptureAbort(ARelease, p, committed)]);
    Goes(s, a, Finish(a, if committed then Committed else AttemptFailed), db1, Done, s1.ops[a], n);
    Ends(s1, a, Release(a), ReservationRelease(db1, a), Done, n - 1);
    assert s1.ops - {a} == s.ops - {a};
  }

  lemma CaptureAbortReads(s: Sys, a: AttemptId, p: CapturePlan, committed: bool)
    requires a in s.ops && s.ops[a] == CaptureAbort(ARead, p, committed)
    requires committed <==> JournalHas(s.db, DbCommitted, a)
    ensures Drive(s, a, 4) == s.(db := CaptureAborted(s.db, a, p.checkpoint), ops := s.ops - {a})
  {
    hide Drive, Step, Close;
    var c := p.checkpoint;
    var row := if c in s.db.checkpoints then Some(s.db.checkpoints[c]) else None;
    if !committed && row.Some? && !SettledRow(row.value) {
      var s1 := s.(ops := s.ops[a := CaptureAbort(AFail, p, committed)]);
      Goes(s, a, ReadCheckpoint(c), s.db, Row(row), s1.ops[a], 4);
      var s2 := s.(db := SetRow(s.db, c, L.Failed, Pending), ops := s.ops[a := CaptureAbort(AFinish, p, committed)]);
      Goes(s1, a, EditRow(c, SetLifecycle(L.Failed, Pending)), s2.db, Done, s2.ops[a], 3);
      assert s1.ops[a := s2.ops[a]] == s2.ops;
      CaptureAbortCloses(s2, a, p, committed, 2);
      assert s2.ops - {a} == s.ops - {a};
    } else {
      var s1 := s.(ops := s.ops[a := CaptureAbort(AFinish, p, committed)]);
      Goes(s, a, ReadCheckpoint(c), s.db, Row(row), s1.ops[a], 4);
      CaptureAbortCloses(s1, a, p, committed, 3);
      assert s1.ops - {a} == s.ops - {a};
    }
  }

  // Left to itself, the abort of a capture: an uncommitted one loses its directory, its
  // row is failed unless another request has settled it, and it ends FAILED; a committed
  // one keeps both and ends COMMITTED.  Its reservation is given up either way.
  lemma CaptureAbortRuns(s: Sys, a: AttemptId, p: CapturePlan, committed: bool)
    requires a in s.ops && s.ops[a] == CaptureAbort(ACheck, p, committed)
    ensures Drive(s, a, 6) ==
            s.(db := CaptureAborted(s.db, a, p.checkpoint), ops := s.ops - {a},
               promoted := if JournalHas(s.db, DbCommitted, a) then s.promoted
                           else s.promoted - {(p.node, p.checkpoint)})
  {
    hide Drive, Step, CaptureAborted;
    var done := JournalHas(s.db, DbCommitted, a);
    var s1 := s.(ops := s.ops[a := CaptureAbort(ANode, p, done)]);
    OneCall(s, a, ReadMarker(DbCommitted, a), s.db, Flag(done), s1.ops[a]);
    DriveAppends(s, a, 1, 5);
    var s2 := s.(ops := s.ops[a := CaptureAbort(ARead, p, done)],
                 promoted := if done then s.promoted else s.promoted - {(p.node, p.checkpoint)});
    OneOrder(s1, a, if done then Work else Discard(p.node, p.checkpoint), s2.ops[a]);
    assert s1.ops[a := s2.ops[a]] == s2.ops;
    DriveAppends(s1, a, 1, 4);
    CaptureAbortReads(s2, a, p, done);
    assert s2.ops - {a} == s.ops - {a};
  }

  // ---------------- the abort of a restore ----------------

  function RestoreAborted(db: Db, a: AttemptId, c: CheckpointId): Db {
    if JournalHas(db, GenerationCommitted, a) then Close(db, a, CommittedNoResume)
    else if BeingRestored(db, c) then Close(SetRow(db, c, L.Available, Valid), a, AttemptFailed)
    else Close(db, a, AttemptFailed)
  }

  lemma RestoreAbortCloses(s: Sys, a: AttemptId, p: RestorePlan, n: nat)
    requires a in s.ops && s.ops[a] == RestoreAbort(BFinish, p) && n >= 2
    ensures Drive(s, a, n) == s.(db := Close(s.db, a, AttemptFailed), ops := s.ops - {a})
  {
    hide Drive, Step;
    var db1 := AttemptFinish(s.db, a, AttemptFailed);
    var s1 := s.(db := db1, ops := s.ops[a := RestoreAbort(BRelease, p)]);
    Goes(s, a, Finish(a, AttemptFailed), db1, Done, s1.ops[a], n);
    Ends(s1, a, Release(a), ReservationRelease(db1, a), Done, n - 1);
    assert s1.ops - {a} == s.ops - {a};
  }

  lemma RestoreAbortReads(s: Sys, a: AttemptId, p: RestorePlan)
    requires a in s.ops && s.ops[a] == RestoreAbort(BRead, p) && !JournalHas(s.db, GenerationCommitted, a)
    ensures Drive(s, a, 4) == s.(db := RestoreAborted(s.db, a, p.checkpoint), ops := s.ops - {a})
  {
    hide Drive, Step, Close;
    var c := p.checkpoint;
    var row := if c in s.db.checkpoints then Some(s.db.checkpoints[c]) else None;
    if BeingRestored(s.db, c) {
      var s1 := s.(ops := s.ops[a := RestoreAbort(BAvailable, p)]);
      Goes(s, a, ReadCheckpoint(c), s.db, Row(row), s1.ops[a], 4);
      var s2 := s.(db := SetRow(s.db, c, L.Available, Valid), ops := s.ops[a := RestoreAbort(BFinish, p)]);
      Goes(s1, a, EditRow(c, SetLifecycle(L.Available, Valid)), s2.db, Done, s2.ops[a], 3);
      assert s1.ops[a := s2.ops[a]] == s2.ops;
      RestoreAbortCloses(s2, a, p, 2);
      assert s2.ops - {a} == s.ops - {a};
    } else {
      var s1 := s.(ops := s.ops[a := RestoreAbort(BFinish, p)]);
      Goes(s, a, ReadCheckpoint(c), s.db, Row(row), s1.ops[a], 4);
      RestoreAbortCloses(s1, a, p, 3);
      assert s1.ops - {a} == s.ops - {a};
    }
  }

  // Left to itself, the abort of a restore: an uncommitted one gives the checkpoint back
  // as AVAILABLE if it has taken it and ends FAILED; a committed one leaves everything as
  // the commit made it and ends COMMITTED_NO_RESUME.
  lemma RestoreAbortRuns(s: Sys, a: AttemptId, p: RestorePlan)
    requires a in s.ops && s.ops[a] == RestoreAbort(BCheck, p)
    ensures Drive(s, a, 6) == s.(db := RestoreAborted(s.db, a, p.checkpoint), ops := s.ops - {a})
  {
    hide Drive, Step, Close;
    var done := JournalHas(s.db, GenerationCommitted, a);
    var s1 := s.(ops := s.ops[a := RestoreAbort(if done then BFinishCommitted else BNode, p)]);
    OneCall(s, a, ReadMarker(GenerationCommitted, a), s.db, Flag(done), s1.ops[a]);
    DriveAppends(s, a, 1, 5);
    if done {
      CommittedRestoreCloses(s1, a, p, 5);
      assert s1.ops - {a} == s.ops - {a};
    } else {
      var s2 := s.(ops := s.ops[a := RestoreAbort(BRead, p)]);
      OneOrder(s1, a, Work, s2.ops[a]);
      assert s1.ops[a := s2.ops[a]] == s2.ops;
      DriveAppends(s1, a, 1, 4);
      RestoreAbortReads(s2, a, p);
      assert s2.ops - {a} == s.ops - {a};
    }
  }

  lemma CommittedRestoreCloses(s: Sys, a: AttemptId, p: RestorePlan, n: nat)
    requires a in s.ops && s.ops[a] == RestoreAbort(BFinishCommitted, p) && n >= 2
    ensures Drive(s, a, n) == s.(db := Close(s.db, a, CommittedNoResume), ops := s.ops - {a})
  {
    hide Drive, Step;
    var db1 := AttemptFinish(s.db, a, CommittedNoResume);
    var s1 := s.(db := db1, ops := s.ops[a := RestoreAbort(BRelease, p)]);
    Goes(s, a, Finish(a, CommittedNoResume), db1, Done, s1.ops[a], n);
    Ends(s1, a, Release(a), ReservationRelease(db1, a), Done, n - 1);
    assert s1.ops - {a} == s.ops - {a};
  }

  // ---------------- a request whose store call fails ----------------

  // Attempt a is over, one way or another, and holds no reservation.
  ghost predicate Over(db: Db, a: AttemptId) {
    (a in db.attempts ==> db.attempts[a].state != Active)
    && (a in db.reservations ==> db.reservations[a].state != Held)
  }

  lemma ClosedIsOver(db: Db, a: AttemptId, state: AttemptState)
    requires state != Active
    ensures Over(Close(db, a, state), a)
  {}

  // Where a failing call takes a capture.
  lemma CaptureFails(s: Sys, a: AttemptId)
    requires a in s.ops && s.ops[a].Capture? && ActionOf(a, s.ops[a], FAULT).Ask?
    ensures var pc, p := s.ops[a].cpc, s.ops[a].cplan;
            Step(s, Advance(a, FAULT)) ==
            s.(ops := if pc == CReadGeneration || pc == CReserve || pc == CBegin || pc == CLogReserved then s.ops - {a}
                      else s.ops[a := CaptureAbort(ACheck, p, false)])
  {}

  lemma RestoreFails(s: Sys, a: AttemptId)
    requires a in s.ops && s.ops[a].Restore? && ActionOf(a, s.ops[a], FAULT).Ask?
    ensures var pc, p := s.ops[a].rpc, s.ops[a].rplan;
            Step(s, Advance(a, FAULT)) ==
            s.(ops := if pc == RCheckWorkload || pc == RReserve || pc == RBegin || pc == RLogReserved then s.ops - {a}
                      else s.ops[a := RestoreAbort(BCheck, p)])
  {}

  // A capture or restore one of whose store calls fails, left to itself from there: its
  // attempt is closed, except when the failing call is the one that journals the
  // reservation.  Then it is given up ACTIVE, for a restart to recover.
  lemma FailedRequestsClose(s: Sys, a: AttemptId)
    requires Journal.Inv(s) && a in s.ops && (s.ops[a].Capture? || s.ops[a].Restore?)
    requires ActionOf(a, s.ops[a], FAULT).Ask?
    ensures var t := Drive(Step(s, Advance(a, FAULT)), a, 6);
            && t.ops == s.ops - {a}
            && (a in t.db.attempts && t.db.attempts[a].state == Active <==>
                  (s.ops[a].Capture? && s.ops[a].cpc == CLogReserved)
                  || (s.ops[a].Restore? && s.ops[a].rpc == RLogReserved))
            && (a in t.db.reservations && t.db.reservations[a].state == Held ==>
                  t.db == s.db
                  && ((s.ops[a].Capture? && (s.ops[a].cpc == CReadGeneration || s.ops[a].cpc == CReserve
                                             || s.ops[a].cpc == CBegin || s.ops[a].cpc == CLogReserved))
                      || (s.ops[a].Restore? && (s.ops[a].rpc == RCheckWorkload || s.ops[a].rpc == RReserve
                                                || s.ops[a].rpc == RBegin || s.ops[a].rpc == RLogReserved))))
  {
    assert Journal.At(s, a);
    if s.ops[a].Capture? { FailedCaptureCloses(s, a); } else { FailedRestoreCloses(s, a); }
    hide Drive, Step, Journal.Inv;
  }

  lemma FailedCaptureCloses(s: Sys, a: AttemptId)
    requires Journal.At(s, a) && a in s.ops && s.ops[a].Capture? && ActionOf(a, s.ops[a], FAULT).Ask?
    ensures var t := Drive(Step(s, Advance(a, FAULT)), a, 6);
            var pc := s.ops[a].cpc;
            && t.ops == s.ops - {a}
            && (a in t.db.attempts && t.db.attempts[a].state == Active <==> pc == CLogReserved)
            && ((t.db == s.db && (pc == CReadGeneration || pc == CReserve || pc == CBegin || pc == CLogReserved))
                || Over(t.db, a))
  {
    var pc, p := s.ops[a].cpc, s.ops[a].cplan;
    CaptureFails(s, a);
    var s1 := Step(s, Advance(a, FAULT));
    hide Drive, Step, ActionOf, Close;
    if pc == CReadGeneration || pc == CReserve || pc == CBegin || pc == CLogReserved {
      IdleStays(s1, a, 6);
    } else {
      CaptureAbortRuns(s1, a, p, false);
      ClosedIsOver(s.db, a, Committed);
      ClosedIsOver(s.db, a, AttemptFailed);
      if p.checkpoint in s.db.checkpoints {
        ClosedIsOver(SetRow(s.db, p.checkpoint, L.Failed, Pending), a, AttemptFailed);
      }
      assert s1.ops - {a} == s.ops - {a};
    }
  }

  lemma FailedRestoreCloses(s: Sys, a: AttemptId)
    requires Journal.At(s, a) && a in s.ops && s.ops[a].Restore? && ActionOf(a, s.ops[a], FAULT).Ask?
    ensures var t := Drive(Step(s, Advance(a, FAULT)), a, 6);
            var pc := s.ops[a].rpc;
            && t.ops == s.ops - {a}
            && (a in t.db.attempts && t.db.attempts[a].state == Active <==> pc == RLogReserved)
            && ((t.db == s.db && (pc == RCheckWorkload || pc == RReserve || pc == RBegin || pc == RLogReserved))
                || Over(t.db, a))
  {
    var pc, p := s.ops[a].rpc, s.ops[a].rplan;
    RestoreFails(s, a);
    var s1 := Step(s, Advance(a, FAULT));
    hide Drive, Step, ActionOf, Close;
    if pc == RCheckWorkload || pc == RReserve || pc == RBegin || pc == RLogReserved {
      IdleStays(s1, a, 6);
    } else {
      RestoreAbortRuns(s1, a, p);
      ClosedIsOver(s.db, a, CommittedNoResume);
      ClosedIsOver(s.db, a, AttemptFailed);
      if p.checkpoint in s.db.checkpoints {
        ClosedIsOver(SetRow(s.db, p.checkpoint, L.Available, Valid), a, AttemptFailed);
      }
      assert s1.ops - {a} == s.ops - {a};
    }
  }

  // ---------------- a refused resume ----------------

  const REFUSED := Answer(false, false, true, None)

  lemma ResumeIsRefused(s: Sys, a: AttemptId, p: CapturePlan)
    requires a in s.ops && s.ops[a] == Capture(CResume, p, None)
    ensures Step(s, Advance(a, REFUSED)) == s.(ops := s.ops[a := Capture(CResumeFailed, p, None)])
  {}

  lemma RefusalIsWritten(t: Sys, a: AttemptId, p: CapturePlan)
    requires a in t.ops && t.ops[a] == Capture(CResumeFailed, p, None)
    ensures Drive(t, a, 1) ==
            t.(db := AttemptFinish(t.db, a, ResumeFailed), ops := t.ops[a := CaptureAbort(ACheck, p, false)])
  {
    hide Drive, Step;
    OneCall(t, a, Finish(a, ResumeFailed), AttemptFinish(t.db, a, ResumeFailed), Done, CaptureAbort(ACheck, p, false));
  }

  lemma FinishedOver(db: Db, a: AttemptId, c: CheckpointId)
    requires JournalHas(db, DbCommitted, a)
    ensures CaptureAborted(AttemptFinish(db, a, ResumeFailed), a, c) == Close(db, a, Committed)
  {}

  // A capture whose node refuses to resume the source writes RESUME_FAILED and then runs
  // its abort, which writes COMMITTED over it.
  lemma RefusedResumeEndsCommitted(s: Sys, a: AttemptId, p: CapturePlan)
    requires a in s.ops && s.ops[a] == Capture(CResume, p, None) && JournalHas(s.db, DbCommitted, a)
    ensures var t := Step(s, Advance(a, REFUSED));
            && Drive(t, a, 1).db == AttemptFinish(s.db, a, ResumeFailed)
            && Drive(t, a, 7) == s.(db := Close(s.db, a, Committed), ops := s.ops - {a})
  {
    hide Drive, Step, Close;
    var t := Step(s, Advance(a, REFUSED));
    ResumeIsRefused(s, a, p);
    var db1 := AttemptFinish(s.db, a, ResumeFailed);
    var t1 := s.(db := db1, ops := s.ops[a := CaptureAbort(ACheck, p, false)]);
    RefusalIsWritten(t, a, p);
    assert t.ops[a := t1.ops[a]] == t1.ops;
    DriveAppends(t, a, 1, 6);
    FinishedOver(s.db, a, p.checkpoint);
    hide CaptureAborted;
    CaptureAbortRuns(t1, a, p, false);
    assert t1.ops - {a} == s.ops - {a};
  }
}
