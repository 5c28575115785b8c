// A restore that runs by itself and is answered well: it commits, its checkpoint is
// RESTORED, the new owner's grant passes, and the verdict says whether it was resumed.
module RestoreProgress {
  import opened Wrappers
  import opened Tables
  import opened Operations
  import opened Recovery
  import opened Restart
  import opened Progress
  import Fencing
  import L = Lifecycle

  // ---------------- reserve, journal, take the row ----------------

  // The tables once restore a is reserved and journaled, and once it has the row.
  function StartedDb(db: Db, a: AttemptId, p: RestorePlan): Db
    requires a !in db.reservations && !Reserved(db, RestoreOf(p.checkpoint))
  {
    var row := Attempt(if p.rollback then RollbackKind else RestoreKind, p.checkpoint, p.workload, p.node, Active);
    JournalAppend(AttemptBegin(ReservationCreate(db, a, RestoreOf(p.checkpoint), p.expiresAt).value, a, row),
      RestoreReserved, a)
  }

  function PendingDb(db: Db, a: AttemptId, p: RestorePlan): Db
    requires a !in db.reservations && !Reserved(db, RestoreOf(p.checkpoint)) && p.checkpoint in db.checkpoints
  {
    SetRow(StartedDb(db, a, p), p.checkpoint, L.RestorePending, Pending)
  }

  lemma RestoreStarts(s: Sys, a: AttemptId, p: RestorePlan)
    requires a in s.ops && s.ops[a] == Restore(RReserve, p, None, 0, false)
    requires a !in s.db.reservations && !Reserved(s.db, RestoreOf(p.checkpoint))
    ensures Drive(s, a, 3) == s.(db := StartedDb(s.db, a, p), ops := s.ops[a := Restore(RPending, p, None, 0, false)])
  {
    hide Drive, Step, Reserved;
    var db1 := ReservationCreate(s.db, a, RestoreOf(p.checkpoint), p.expiresAt).value;
    var op1 := Restore(RBegin, p, None, 0, false);
    Goes(s, a, Reserve(a, RestoreOf(p.checkpoint), p.expiresAt), db1, Done, op1, 3);
    var s1 := s.(db := db1, ops := s.ops[a := op1]);
    RestoreBegins(s1, a, p);
    assert s1.ops[a := Restore(RPending, p, None, 0, false)] == s.ops[a := Restore(RPending, p, None, 0, false)];
  }

  lemma RestoreBegins(s: Sys, a: AttemptId, p: RestorePlan)
    requires a in s.ops && s.ops[a] == Restore(RBegin, p, None, 0, false)
    ensures var row :=
            Attempt(if p.rollback then RollbackKind else RestoreKind, p.checkpoint, p.workload, p.node, Active);
            Drive(s, a, 2) == s.(db := JournalAppend(AttemptBegin(s.db, a, row), RestoreReserved, a),
                                 ops := s.ops[a := Restore(RPending, p, None, 0, false)])
  {
    hide Drive, Step;
    var row := Attempt(if p.rollback then RollbackKind else RestoreKind, p.checkpoint, p.workload, p.node, Active);
    var db1 := AttemptBegin(s.db, a, row);
    var op1 := Restore(RLogReserved, p, None, 0, false);
    Goes(s, a, Begin(a, row), db1, Done, op1, 2);
    var s1 := s.(db := db1, ops := s.ops[a := op1]);
    OneCall(s1, a, Log(RestoreReserved, a), JournalAppend(db1, RestoreReserved, a), Done,
      Restore(RPending, p, None, 0, false));
    assert s1.ops[a := Restore(RPending, p, None, 0, false)] == s.ops[a := Restore(RPending, p, None, 0, false)];
  }

  // It reads a state it may leave ...
  lemma RestoreReads(s: Sys, a: AttemptId, p: RestorePlan)
    requires a in s.ops && s.ops[a] == Restore(RPending, p, None, 0, false)
    requires p.checkpoint in s.db.checkpoints
             && s.db.checkpoints[p.checkpoint].lifecycle.CanTransition(L.RestorePending)
    ensures Drive(s, a, 1) ==
            s.(ops := s.ops[a := Restore(RPending, p, Some(s.db.checkpoints[p.checkpoint].lifecycle), 0, false)])
  {
    hide Drive, Step;
    var row := s.db.checkpoints[p.checkpoint];
    OneCall(s, a, ReadCheckpoint(p.checkpoint), s.db, Row(Some(row)),
      Restore(RPending, p, Some(row.lifecycle), 0, false));
  }

  // ... and takes the row, whatever has become of it since.
  lemma RestoreWrites(s: Sys, a: AttemptId, p: RestorePlan, seen: L.State)
    requires a in s.ops && s.ops[a] == Restore(RPending, p, Some(seen), 0, false) && p.checkpoint in s.db.checkpoints
    ensures Drive(s, a, 1) == s.(db := SetRow(s.db, p.checkpoint, L.RestorePending, Pending),
                                 ops := s.ops[a := Restore(RLogProvisioned, p, None, 0, false)])
  {
    hide Drive, Step;
    OneCall(s, a, EditRow(p.checkpoint, SetLifecycle(L.RestorePending, Pending)),
      SetRow(s.db, p.checkpoint, L.RestorePending, Pending),
            Done, Restore(RLogProvisioned, p, None, 0, false));
  }

  lemma RestoreTakesRow(s: Sys, a: AttemptId, p: RestorePlan)
    requires a in s.ops && s.ops[a] == Restore(RReserve, p, None, 0, false)
    requires a !in s.db.reservations && !Reserved(s.db, RestoreOf(p.checkpoint))
    requires p.checkpoint in s.db.checkpoints
             && s.db.checkpoints[p.checkpoint].lifecycle.CanTransition(L.RestorePending)
    ensures Drive(s, a, 5) ==
            s.(db := PendingDb(s.db, a, p), ops := s.ops[a := Restore(RLogProvisioned, p, None, 0, false)])
  {
    hide Drive, Step, Reserved;
    var seen := s.db.checkpoints[p.checkpoint].lifecycle;
    assert StartedDb(s.db, a, p).checkpoints == s.db.checkpoints;
    assert PendingDb(s.db, a, p) == SetRow(StartedDb(s.db, a, p), p.checkpoint, L.RestorePending, Pending);
    hide StartedDb, PendingDb, SetRow;
    var s1 := s.(db := StartedDb(s.db, a, p), ops := s.ops[a := Restore(RPending, p, None, 0, false)]);
    RestoreStarts(s, a, p);
    DriveAppends(s, a, 3, 2);
    RestoreTransits(s1, a, p, seen);
    assert s1.ops[a := Restore(RLogProvisioned, p, None, 0, false)] ==
        s.ops[a := Restore(RLogProvisioned, p, None, 0, false)];
  }

  lemma RestoreTransits(s: Sys, a: AttemptId, p: RestorePlan, seen: L.State)
    requires a in s.ops && s.ops[a] == Restore(RPending, p, None, 0, false) && p.checkpoint in s.db.checkpoints
    requires seen == s.db.checkpoints[p.checkpoint].lifecycle && seen.CanTransition(L.RestorePending)
    ensures Drive(s, a, 2) == s.(db := SetRow(s.db, p.checkpoint, L.RestorePending, Pending),
                                 ops := s.ops[a := Restore(RLogProvisioned, p, None, 0, false)])
  {
    hide Drive, Step;
    var s1 := s.(ops := s.ops[a := Restore(RPending, p, Some(seen), 0, false)]);
    RestoreReads(s, a, p);
    DriveAppends(s, a, 1, 1);
    RestoreWrites(s1, a, p, seen);
    assert s1.ops[a := Restore(RLogProvisioned, p, None, 0, false)] ==
        s.ops[a := Restore(RLogProvisioned, p, None, 0, false)];
  }

  lemma PendingRow(db: Db, a: AttemptId, p: RestorePlan)
    requires a !in db.reservations && !Reserved(db, RestoreOf(p.checkpoint)) && p.checkpoint in db.checkpoints
    ensures PendingDb(db, a, p).checkpoints ==
            db.checkpoints[p.checkpoint :=
              db.checkpoints[p.checkpoint].(lifecycle := L.RestorePending, integrity := Pending)]
    ensures PendingDb(db, a, p).workloads == db.workloads
  {}

  // ---------------- provision, write, commit ----------------

  function RestoringRow(row: Checkpoint): Checkpoint {
    row.(lifecycle := L.Restoring, integrity := Pending)
  }

  // The tables at the commit of a restore that has the row.
  function ReadyDb(db: Db, a: AttemptId, c: CheckpointId): Db
    requires c in db.checkpoints
  {
    var db1 := JournalAppend(db, Provisioned, a);
    JournalAppend(db1.(checkpoints := db.checkpoints[c := RestoringRow(db.checkpoints[c])]), ComponentsRestored, a)
  }

  lemma RestorePrepares(s: Sys, a: AttemptId, p: RestorePlan)
    requires a in s.ops && s.ops[a] == Restore(RLogProvisioned, p, None, 0, false) && p.checkpoint in s.db.checkpoints
    requires s.db.checkpoints[p.checkpoint].lifecycle == L.RestorePending
    ensures Drive(s, a, 6) ==
            s.(db := ReadyDb(s.db, a, p.checkpoint), ops := s.ops[a := Restore(RCommit, p, None, 0, false)])
  {
    hide Drive, Step;
    var db1 := JournalAppend(s.db, Provisioned, a);
    var s1 := s.(db := db1, ops := s.ops[a := Restore(RProbe, p, None, 0, false)]);
    OneCall(s, a, Log(Provisioned, a), db1, Done, s1.ops[a]);
    var s2 := s1.(ops := s.ops[a := Restore(RRestoring, p, None, 0, false)]);
    OneOrder(s1, a, Work, s2.ops[a]);
    assert s1.ops[a := s2.ops[a]] == s2.ops;
    DriveAppends(s, a, 1, 1);
    DriveAppends(s, a, 2, 4);
    RestoreWritesFiles(s2, a, p);
    assert s2.ops[a := Restore(RCommit, p, None, 0, false)] == s.ops[a := Restore(RCommit, p, None, 0, false)];
  }

  lemma RestoreWritesFiles(s: Sys, a: AttemptId, p: RestorePlan)
    requires a in s.ops && s.ops[a] == Restore(RRestoring, p, None, 0, false) && p.checkpoint in s.db.checkpoints
    requires s.db.checkpoints[p.checkpoint].lifecycle == L.RestorePending
    ensures var rows := s.db.checkpoints[p.checkpoint := RestoringRow(s.db.checkpoints[p.checkpoint])];
            Drive(s, a, 4) == s.(db := JournalAppend(s.db.(checkpoints := rows), ComponentsRestored, a),
                                 ops := s.ops[a := Restore(RCommit, p, None, 0, false)])
  {
    hide Drive, Step;
    var row := s.db.checkpoints[p.checkpoint];
    var s1 := s.(ops := s.ops[a := Restore(RRestoring, p, Some(L.RestorePending), 0, false)]);
    Goes(s, a, ReadCheckpoint(p.checkpoint), s.db, Row(Some(row)), s1.ops[a], 4);
    var db2 := s.db.(checkpoints := s.db.checkpoints[p.checkpoint := RestoringRow(row)]);
    var s2 := s.(db := db2, ops := s.ops[a := Restore(RNodeRestore, p, None, 0, false)]);
    Goes(s1, a, EditRow(p.checkpoint, SetLifecycle(L.Restoring, Pending)), db2, Done, s2.ops[a], 3);
    assert s1.ops[a := s2.ops[a]] == s2.ops;
    RestoreLands(s2, a, p);
    assert s2.ops[a := Restore(RCommit, p, None, 0, false)] == s.ops[a := Restore(RCommit, p, None, 0, false)];
  }

  lemma RestoreLands(s: Sys, a: AttemptId, p: RestorePlan)
    requires a in s.ops && s.ops[a] == Restore(RNodeRestore, p, None, 0, false)
    ensures Drive(s, a, 2) ==
            s.(db := JournalAppend(s.db, ComponentsRestored, a), ops := s.ops[a := Restore(RCommit, p, None, 0, false)])
  {
    hide Drive, Step;
    var s1 := s.(ops := s.ops[a := Restore(RLogRestored, p, None, 0, false)]);
    OneOrder(s, a, Work, s1.ops[a]);
    DriveAppends(s, a, 1, 1);
    OneCall(s1, a, Log(ComponentsRestored, a), JournalAppend(s.db, ComponentsRestored, a), Done,
            Restore(RCommit, p, None, 0, false));
    assert s1.ops[a := Restore(RCommit, p, None, 0, false)] == s.ops[a := Restore(RCommit, p, None, 0, false)];
  }

  lemma RestoreCommitted(s: Sys, a: AttemptId, p: RestorePlan)
    requires a in s.ops && s.ops[a] == Restore(RCommit, p, None, 0, false) && p.checkpoint in s.db.checkpoints
    requires s.db.checkpoints[p.checkpoint].lifecycle == L.Restoring
    requires s.db.checkpoints[p.checkpoint].workload in s.db.workloads
    ensures var tx := RestoreCommit(s.db, p.checkpoint, a, p.node, p.token, p.migration, p.rollback);
            tx.Ok? && tx.value.checkpoints == RestoredRows(s.db.checkpoints, p.checkpoint)
            && tx.value.workloads.Keys == s.db.workloads.Keys
            && Drive(s, a, 1) == s.(db := tx.value, ops := s.ops[a := Restore(RReadEpoch, p, None, 0, false)])
  {
    hide Drive, Step;
    var tx := RestoreCommit(s.db, p.checkpoint, a, p.node, p.token, p.migration, p.rollback);
    OneCall(s, a, CommitRestore(p.checkpoint, a, p.node, p.token, p.migration, p.rollback), tx.value, Done,
            Restore(RReadEpoch, p, None, 0, false));
  }

  // From its provisioning to its commit.
  lemma RestoreCommits(s: Sys, a: AttemptId, p: RestorePlan)
    requires a in s.ops && s.ops[a] == Restore(RLogProvisioned, p, None, 0, false) && p.checkpoint in s.db.checkpoints
    requires s.db.checkpoints[p.checkpoint].lifecycle == L.RestorePending
    requires s.db.checkpoints[p.checkpoint].workload in s.db.workloads
    ensures var t := Drive(s, a, 7);
            var tx :=
              RestoreCommit(ReadyDb(s.db, a, p.checkpoint), p.checkpoint, a, p.node, p.token, p.migration, p.rollback);
            && tx.Ok? && t == s.(db := tx.value, ops := s.ops[a := Restore(RReadEpoch, p, None, 0, false)])
            && t.db.checkpoints ==
               RestoredRows(s.db.checkpoints[p.checkpoint := RestoringRow(s.db.checkpoints[p.checkpoint])],
                 p.checkpoint)
            && t.db.workloads.Keys == s.db.workloads.Keys
  {
    hide Drive, Step, RestoreCommit;
    RestorePrepares(s, a, p);
    DriveAppends(s, a, 6, 1);
    var s1 := s.(db := ReadyDb(s.db, a, p.checkpoint), ops := s.ops[a := Restore(RCommit, p, None, 0, false)]);
    RestoreCommitted(s1, a, p);
    assert s1.ops[a := Restore(RReadEpoch, p, None, 0, false)] == s.ops[a := Restore(RReadEpoch, p, None, 0, false)];
  }

  // ---------------- resume, journal, finish, release ----------------

  function Ending(resumed: bool): AttemptState {
    if resumed then Committed else CommittedNoResume
  }

  lemma RestoreEnds(s: Sys, a: AttemptId, p: RestorePlan)
    requires a in s.ops && s.ops[a] == Restore(RReadEpoch, p, None, 0, false) && p.workload in s.db.workloads
    ensures var g := GrantOf(p.workload, p.node, p.token, s.db.workloads[p.workload].executionEpoch);
            Drive(s, a, 5) ==
            s.(db := Close(JournalAppend(s.db, Resumed, a), a, Ending(p.resume)), ops := s.ops - {a},
               grants := s.grants + {g})
  {
    hide Drive, Step;
    var epoch := s.db.workloads[p.workload].executionEpoch;
    var g := GrantOf(p.workload, p.node, p.token, epoch);
    var s1 := s.(ops := s.ops[a := Restore(RResume, p, None, epoch, false)]);
    Goes(s, a, ReadWorkload(p.workload), s.db, WorkloadRow(Some(s.db.workloads[p.workload])), s1.ops[a], 5);
    var s2 := s.(ops := s.ops[a := Restore(RLogResumed, p, None, epoch, p.resume)], grants := s.grants + {g});
    OneOrder(s1, a, Grant(g), s2.ops[a]);
    assert s1.ops[a := s2.ops[a]] == s2.ops;
    DriveAppends(s1, a, 1, 3);
    RestoreRecordsEnd(s2, a, p, epoch);
    assert s2.ops - {a} == s.ops - {a};
  }

  lemma RestoreRecordsEnd(s: Sys, a: AttemptId, p: RestorePlan, epoch: nat)
    requires a in s.ops && s.ops[a] == Restore(RLogResumed, p, None, epoch, p.resume)
    ensures Drive(s, a, 3) == s.(db := Close(JournalAppend(s.db, Resumed, a), a, Ending(p.resume)), ops := s.ops - {a})
  {
    hide Drive, Step, Close;
    var db1 := JournalAppend(s.db, Resumed, a);
    var s1 := s.(db := db1, ops := s.ops[a := Restore(RFinish, p, None, epoch, p.resume)]);
    Goes(s, a, Log(Resumed, a), db1, Done, s1.ops[a], 3);
    RestoreCloses(s1, a, p, epoch);
    assert s1.ops - {a} == s.ops - {a};
  }

  lemma RestoreCloses(s: Sys, a: AttemptId, p: RestorePlan, epoch: nat)
    requires a in s.ops && s.ops[a] == Restore(RFinish, p, None, epoch, p.resume)
    ensures Drive(s, a, 2) == s.(db := Close(s.db, a, Ending(p.resume)), ops := s.ops - {a})
  {
    hide Drive, Step;
    var db1 := AttemptFinish(s.db, a, Ending(p.resume));
    var s1 := s.(db := db1, ops := s.ops[a := Restore(RRelease, p, None, epoch, p.resume)]);
    Goes(s, a, Finish(a, Ending(p.resume)), db1, Done, s1.ops[a], 2);
    Ends(s1, a, Release(a), ReservationRelease(db1, a), Done, 1);
    assert s1.ops - {a} == s.ops - {a};
  }

  // ---------------- the whole request ----------------

  lemma ChecksWorkload(s: Sys, a: AttemptId, p: RestorePlan)
    requires a in s.ops && s.ops[a] == Restore(RCheckWorkload, p, None, 0, false)
    requires p.workload in s.db.workloads && TargetMayClaim(s.db.workloads[p.workload], p.node, p.migration)
    ensures Step(s, Advance(a, GOOD)) == s.(ops := s.ops[a := Restore(RReserve, p, None, 0, false)])
  {}

  lemma RequestOpens(s: Sys, a: AttemptId, p: RestorePlan)
    requires MayRestore(s, a, p) && p.workload in s.db.workloads
    requires TargetMayClaim(s.db.workloads[p.workload], p.node, p.migration)
    ensures Drive(Step(s, BeginRestore(a, p)), a, 1) ==
            s.(ops := s.ops[a := Restore(RReserve, p, None, 0, false)], tokens := s.tokens + {p.token})
  {
    var s1 := Step(s, BeginRestore(a, p));
    assert s1 == s.(ops := s.ops[a := Restore(RCheckWorkload, p, None, 0, false)], tokens := s.tokens + {p.token});
    hide Step;
    ChecksWorkload(s1, a, p);
    assert Drive(Step(s1, Advance(a, GOOD)), a, 0) == Step(s1, Advance(a, GOOD));
    assert s1.ops[a := Restore(RReserve, p, None, 0, false)] == s.ops[a := Restore(RReserve, p, None, 0, false)];
  }

  // What a restore that went through leaves.
  ghost predicate RestoreDone(s: Sys, t: Sys, a: AttemptId, p: RestorePlan)
    requires p.checkpoint in s.db.checkpoints && p.workload in s.db.workloads
  {
    var row, w := s.db.checkpoints[p.checkpoint], s.db.workloads[p.workload];
    var epoch := w.executionEpoch + if p.migration then 2 else 1;
    && t.ops == s.ops
    && a in t.db.attempts && t.db.attempts[a].state == Ending(p.resume)
    && a in t.db.reservations && t.db.reservations[a].state == Released
    && JournalHas(t.db, GenerationCommitted, a) && (JournalHas(t.db, AuthorityTransferred, a) <==> p.migration)
    && t.db.checkpoints ==
       s.db.checkpoints[p.checkpoint := row.(lifecycle := L.Restored, integrity := Valid,
                                            restoreCount := row.restoreCount + 1, lastRestore := Some("restored"))]
    && t.db.workloads ==
       s.db.workloads[p.workload := w.(generation := w.generation + 1, checkpointGeneration := row.generation,
                                       executionEpoch := epoch, fenceEpoch := epoch,
                                       activeNode := Some(p.node), fenceToken := Some(p.token))]
    && GrantOf(p.workload, p.node, p.token, epoch) in t.grants
    && Fencing.Passes(t.db.workloads, GrantOf(p.workload, p.node, p.token, epoch))
  }

  // The tables right after the commit.
  ghost function CommittedDb(db: Db, a: AttemptId, p: RestorePlan): Tx
    requires a !in db.reservations && !Reserved(db, RestoreOf(p.checkpoint)) && p.checkpoint in db.checkpoints
  {
    RestoreCommit(ReadyDb(PendingDb(db, a, p), a, p.checkpoint), p.checkpoint, a, p.node, p.token, p.migration,
      p.rollback)
  }

  lemma CommitAddsUp(db: Db, a: AttemptId, p: RestorePlan)
    requires a !in db.reservations && !Reserved(db, RestoreOf(p.checkpoint)) && p.checkpoint in db.checkpoints
    requires a !in db.attempts && forall m :: (m, a) !in db.journal
    requires p.workload in db.workloads && db.checkpoints[p.checkpoint].workload == p.workload
    ensures CommittedDb(db, a, p).Ok?
    ensures var db', row, w := CommittedDb(db, a, p).value, db.checkpoints[p.checkpoint], db.workloads[p.workload];
            var epoch := w.executionEpoch + if p.migration then 2 else 1;
            && a in db'.attempts && a in db'.reservations && db'.reservations[a].state == Held
            && JournalHas(db', GenerationCommitted, a) && (JournalHas(db', AuthorityTransferred, a) <==> p.migration)
            && db'.checkpoints ==
               db.checkpoints[p.checkpoint := row.(lifecycle := L.Restored, integrity := Valid,
                                                   restoreCount := row.restoreCount + 1,
                                                   lastRestore := Some("restored"))]
            && db'.workloads ==
               db.workloads[p.workload := w.(generation := w.generation + 1, checkpointGeneration := row.generation,
                                             executionEpoch := epoch, fenceEpoch := epoch,
                                             activeNode := Some(p.node), fenceToken := Some(p.token))]
  {
    hide Reserved;
    PendingTables(db, a, p);
    hide PendingDb;
    ReadyTables(PendingDb(db, a, p), a, p.checkpoint);
    hide ReadyDb;
  }

  lemma PendingTables(db: Db, a: AttemptId, p: RestorePlan)
    requires a !in db.reservations && !Reserved(db, RestoreOf(p.checkpoint)) && p.checkpoint in db.checkpoints
    requires a !in db.attempts && forall m :: (m, a) !in db.journal
    ensures var db' := PendingDb(db, a, p);
            && a in db'.attempts && a in db'.reservations && db'.reservations[a].state == Held
            && db'.workloads == db.workloads && !JournalHas(db', AuthorityTransferred, a)
            && db'.checkpoints ==
               db.checkpoints[p.checkpoint :=
                 db.checkpoints[p.checkpoint].(lifecycle := L.RestorePending, integrity := Pending)]
  {
    hide Reserved;
  }

  lemma ReadyTables(db: Db, a: AttemptId, c: CheckpointId)
    requires c in db.checkpoints
    ensures var db' := ReadyDb(db, a, c);
            && db'.attempts == db.attempts && db'.reservations == db.reservations && db'.workloads == db.workloads
            && (JournalHas(db', AuthorityTransferred, a) <==> JournalHas(db, AuthorityTransferred, a))
            && db'.checkpoints == db.checkpoints[c := RestoringRow(db.checkpoints[c])]
  {}

  lemma EndAddsUp(s: Sys, s3: Sys, t: Sys, a: AttemptId, p: RestorePlan)
    requires a !in s.db.reservations && !Reserved(s.db, RestoreOf(p.checkpoint)) && p.checkpoint in s.db.checkpoints
    requires a !in s.db.attempts && forall m :: (m, a) !in s.db.journal
    requires p.workload in s.db.workloads && s.db.checkpoints[p.checkpoint].workload == p.workload
    requires CommittedDb(s.db, a, p).Ok? && s3.db == CommittedDb(s.db, a, p).value && t.ops == s.ops
    requires t.db == Close(JournalAppend(s3.db, Resumed, a), a, Ending(p.resume))
    requires p.workload in s3.db.workloads
    requires GrantOf(p.workload, p.node, p.token, s3.db.workloads[p.workload].executionEpoch) in t.grants
    ensures RestoreDone(s, t, a, p)
  {
    CommitAddsUp(s.db, a, p);
    hide CommittedDb, Reserved;
  }

  lemma RequestTakesRow(s: Sys, a: AttemptId, p: RestorePlan)
    requires MayRestore(s, a, p) && s.db.checkpoints[p.checkpoint].lifecycle == L.Available
    requires p.workload in s.db.workloads && TargetMayClaim(s.db.workloads[p.workload], p.node, p.migration)
    requires a !in s.db.reservations && !Reserved(s.db, RestoreOf(p.checkpoint))
    ensures Drive(Step(s, BeginRestore(a, p)), a, 6) ==
            s.(db := PendingDb(s.db, a, p), ops := s.ops[a := Restore(RLogProvisioned, p, None, 0, false)],
               tokens := s.tokens + {p.token})
  {
    RequestOpens(s, a, p);
    hide Step, Drive, MayRestore, Reserved, PendingDb;
    var s1 := s.(ops := s.ops[a := Restore(RReserve, p, None, 0, false)], tokens := s.tokens + {p.token});
    DriveAppends(Step(s, BeginRestore(a, p)), a, 1, 5);
    RestoreTakesRow(s1, a, p);
    assert s1.ops[a := Restore(RLogProvisioned, p, None, 0, false)] ==
        s.ops[a := Restore(RLogProvisioned, p, None, 0, false)];
  }

  // From the commit of a request to its end.
  lemma RequestCloses(s: Sys, s2: Sys, a: AttemptId, p: RestorePlan)
    requires a !in s.ops && a !in s.db.reservations && !Reserved(s.db, RestoreOf(p.checkpoint))
    requires a !in s.db.attempts && forall m :: (m, a) !in s.db.journal
    requires p.checkpoint in s.db.checkpoints && s.db.checkpoints[p.checkpoint].workload == p.workload
    requires p.workload in s.db.workloads && s2.db == PendingDb(s.db, a, p)
    requires s2.ops == s.ops[a := Restore(RLogProvisioned, p, None, 0, false)]
    ensures RestoreDone(s, Drive(s2, a, 12), a, p)
  {
    hide Step, Drive, Reserved, PendingDb, RestoreDone, ReadyDb, RestoreCommit, RestoredRows, RestoringRow;
    PendingRow(s.db, a, p);
    CommitAddsUp(s.db, a, p);
    RestoreCommits(s2, a, p);
    DriveAppends(s2, a, 7, 5);
    var s3 := Drive(s2, a, 7);
    RestoreEnds(s3, a, p);
    assert s3.ops - {a} == s.ops;
    EndAddsUp(s, s3, Drive(s3, a, 5), a, p);
  }

  // Left alone and answered well, a restore request on an available checkpoint that
  // nobody has reserved, onto a node that may claim the workload, goes through: the
  // checkpoint is RESTORED, the node's grant passes, and the attempt ends COMMITTED when
  // a resume was asked for and COMMITTED_NO_RESUME when not.
  lemma RestoreComesThrough(s: Sys, a: AttemptId, p: RestorePlan)
    requires MayRestore(s, a, p) && s.db.checkpoints[p.checkpoint].lifecycle == L.Available
    requires p.workload in s.db.workloads && TargetMayClaim(s.db.workloads[p.workload], p.node, p.migration)
    requires !Reserved(s.db, RestoreOf(p.checkpoint))
    ensures RestoreDone(s, Drive(Step(s, BeginRestore(a, p)), a, 18), a, p)
  {
    assert a !in s.ops && a !in s.db.reservations && a !in s.db.attempts;
    assert forall m :: (m, a) !in s.db.journal;
    assert s.db.checkpoints[p.checkpoint].workload == p.workload;
    hide Step, Drive, MayRestore, Reserved, PendingDb, RestoreDone, TargetMayClaim;
    RequestTakesRow(s, a, p);
    DriveAppends(Step(s, BeginRestore(a, p)), a, 6, 12);
    RequestCloses(s, Drive(Step(s, BeginRestore(a, p)), a, 6), a, p);
  }
}
