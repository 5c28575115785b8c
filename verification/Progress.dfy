// A capture that runs by itself and is answered well commits its checkpoint: the runs
// the safety results speak about do exist.
module Progress {
  import opened Wrappers
  import opened Tables
  import opened Operations
  import opened Anchors
  import opened Restart
  import L = Lifecycle

  // The checkpoint row when program counter pc is reached.
  function RowFor(pc: CapturePc, p: CapturePlan, a: AttemptId): Checkpoint {
    var row := Scaffold(p, a);
    match pc
    case CNodeCapture => row.(lifecycle := L.Capturing)
    case CCaptured => row.(lifecycle := L.Capturing)
    case CValidating => row.(lifecycle := L.Captured)
    case CDigest => row.(lifecycle := L.Validating)
    case CSealed => row.(lifecycle := L.Validating, digest := Some(p.digest))
    case CLogSealed => row.(lifecycle := L.Sealed, digest := Some(p.digest))
    case CMarkValid => row.(lifecycle := L.Sealed, digest := Some(p.digest))
    case CPersisting => row.(lifecycle := L.Sealed, digest := Some(p.digest), integrity := Valid)
    case CPromote => row.(lifecycle := L.Persisting, digest := Some(p.digest))
    case CUpdate => row.(lifecycle := L.Persisting, digest := Some(p.digest))
    case CLogPersisted => PersistedRow(p, a)
    case CCommit => PersistedRow(p, a)
    case _ => row
  }

  // Attempt a is at pc with everything as an undisturbed capture leaves it.
  ghost predicate On(s: Sys, a: AttemptId, pc: CapturePc, p: CapturePlan) {
    && a in s.ops && s.ops[a] == Capture(pc, p, None)
    && p.workload in s.db.workloads && s.db.workloads[p.workload].generation == p.workloadGeneration && p.digest != ""
    && s.db.workloads[p.workload].activeNode == Some(p.node) && !Reserved(s.db, RestoreOf(p.checkpoint))
    && (if BeforeInsert(pc) then p.checkpoint !in s.db.checkpoints
        else p.checkpoint in s.db.checkpoints && s.db.checkpoints[p.checkpoint] == RowFor(pc, p, a))
    && (pc != CReadGeneration ==> !Taken(s.db.checkpoints, p.workload, p.generation, p.checkpoint))
    && (pc == CReadGeneration || pc == CReserve ==> a !in s.db.reservations && !Reserved(s.db, CaptureOf(p.workload)))
  }

  // A lifecycle change reads the row and then writes it.
  function TurnsOf(pc: CapturePc): nat {
    if CaptureTarget(pc).Some? then 2 else 1
  }

  lemma OneCall(s: Sys, a: AttemptId, call: Call, db': Db, reply: Reply, op': Op)
    requires a in s.ops && ActionOf(a, s.ops[a], GOOD) == Ask(call)
    requires Exec(s.db, call) == (db', reply) && Next(s.ops[a], reply, GOOD) == Some(op')
    ensures Drive(s, a, 1) == s.(db := db', ops := s.ops[a := op'])
  {
    hide Exec, Next, ActionOf, Step;
    Goes(s, a, call, db', reply, op', 1);
    assert Drive(s.(db := db', ops := s.ops[a := op']), a, 0) == s.(db := db', ops := s.ops[a := op']);
  }

  lemma OneOrder(s: Sys, a: AttemptId, order: Order, op': Op)
    requires a in s.ops && ActionOf(a, s.ops[a], GOOD) == Tell(order) && Next(s.ops[a], Done, GOOD) == Some(op')
    ensures Drive(s, a, 1) == Obey(s, order, GOOD).(ops := s.ops[a := op'])
  {
    hide Next, ActionOf, Exec;
    assert Drive(s, a, 1) == Drive(Step(s, Advance(a, GOOD)), a, 0);
  }

  lemma {:induction false} DriveAppends(s: Sys, a: AttemptId, n: nat, m: nat)
    ensures Drive(s, a, n + m) == Drive(Drive(s, a, n), a, m)
    decreases n
  {
    if n > 0 { DriveAppends(Step(s, Advance(a, GOOD)), a, n - 1, m); }
    hide Step;
  }

  lemma ReadsGeneration(s: Sys, a: AttemptId, p: CapturePlan)
    requires On(s, a, CReadGeneration, p)
    ensures On(Drive(s, a, 1), a, CReserve, p.(generation := MaxGeneration(s.db.checkpoints, p.workload) + 1))
  {
    hide Drive, Step;
    var n := MaxGeneration(s.db.checkpoints, p.workload);
    OneCall(s, a, ReadMaxGeneration(p.workload), s.db, Generation(n), Capture(CReserve, p.(generation := n + 1), None));
  }

  lemma Reserves(s: Sys, a: AttemptId, p: CapturePlan)
    requires On(s, a, CReserve, p)
    ensures On(Drive(s, a, 1), a, CBegin, p)
  {
    hide Drive, Step, Taken;
    var tx := ReservationCreate(s.db, a, CaptureOf(p.workload), p.expiresAt);
    OneCall(s, a, Reserve(a, CaptureOf(p.workload), p.expiresAt), tx.value, Done, Capture(CBegin, p, None));
  }

  // Steps that leave the checkpoint and workload tables alone.
  lemma RecordsCall(s: Sys, a: AttemptId, pc: CapturePc, p: CapturePlan, call: Call, db': Db)
    requires On(s, a, pc, p) && pc != CReadGeneration && AfterCapture(pc) != CReadGeneration
    requires AfterCapture(pc) != CReserve
    requires ActionOf(a, s.ops[a], GOOD) == Ask(call) && Exec(s.db, call) == (db', Done)
    requires Next(s.ops[a], Done, GOOD) == Some(Capture(AfterCapture(pc), p, None))
    requires db'.checkpoints == s.db.checkpoints && db'.workloads == s.db.workloads
    requires db'.reservations == s.db.reservations
    requires BeforeInsert(AfterCapture(pc)) <==> BeforeInsert(pc)
    requires !BeforeInsert(pc) ==> RowFor(AfterCapture(pc), p, a) == RowFor(pc, p, a)
    ensures On(Drive(s, a, 1), a, AfterCapture(pc), p)
  {
    hide Drive, Step, Taken, Exec, ActionOf, Next, RowFor;
    OneCall(s, a, call, db', Done, Capture(AfterCapture(pc), p, None));
  }

  lemma Records(s: Sys, a: AttemptId, pc: CapturePc, p: CapturePlan)
    requires On(s, a, pc, p) && (pc == CBegin || pc == CLogReserved || pc == CLogSealed || pc == CLogPersisted)
    ensures On(Drive(s, a, 1), a, AfterCapture(pc), p)
  {
    hide Drive, Step, On;
    OnIsCapture(s, a, pc, p);
    match pc {
      case CBegin =>
        var row := Attempt(CaptureKind, p.checkpoint, p.workload, p.node, Active);
        RecordsCall(s, a, pc, p, Begin(a, row), AttemptBegin(s.db, a, row));
      case CLogReserved => RecordsCall(s, a, pc, p, Log(CaptureReserved, a), JournalAppend(s.db, CaptureReserved, a));
      case CLogSealed => RecordsCall(s, a, pc, p, Log(CaptureSealed, a), JournalAppend(s.db, CaptureSealed, a));
      case CLogPersisted => RecordsCall(s, a, pc, p, Log(CapturePersisted, a),
        JournalAppend(s.db, CapturePersisted, a));
      case _ =>
    }
  }

  lemma AsksNode(s: Sys, a: AttemptId, p: CapturePlan)
    requires On(s, a, CNodeCapture, p)
    ensures On(Drive(s, a, 1), a, CCaptured, p)
  {
    hide Drive, Step, Taken, Reserved;
    OneOrder(s, a, Work, Capture(CCaptured, p, None));
  }

  lemma Promotes(s: Sys, a: AttemptId, p: CapturePlan)
    requires On(s, a, CPromote, p)
    ensures On(Drive(s, a, 1), a, CUpdate, p)
  {
    hide Drive, Step, Taken, Reserved;
    OneOrder(s, a, Promote(p.node, p.checkpoint), Capture(CUpdate, p, None));
  }

  lemma Inserts(s: Sys, a: AttemptId, p: CapturePlan)
    requires On(s, a, CInsert, p)
    ensures On(Drive(s, a, 1), a, CCapturing, p)
  {
    hide Drive, Step;
    var cs := s.db.checkpoints[p.checkpoint := Scaffold(p, a)];
    OneCall(s, a, InsertRow(p.checkpoint, Scaffold(p, a)), s.db.(checkpoints := cs), Done,
      Capture(CCapturing, p, None));
  }

  lemma RewritesRow(s: Sys, a: AttemptId, pc: CapturePc, p: CapturePlan, e: RowEdit)
    requires On(s, a, pc, p) && !BeforeInsert(pc)
    requires ActionOf(a, s.ops[a], GOOD) == Ask(EditRow(p.checkpoint, e))
    requires Next(s.ops[a], Done, GOOD) == Some(Capture(AfterCapture(pc), p, None)) && !BeforeInsert(AfterCapture(pc))
    requires AfterCapture(pc) != CReadGeneration
    requires e.Overwrite? ==> e.row.generation == p.generation
    requires RowFor(pc, p, a).workload == p.workload
    requires Edit(RowFor(pc, p, a), e) == Ok(RowFor(AfterCapture(pc), p, a))
    requires RowFor(AfterCapture(pc), p, a).generation == p.generation
    ensures On(Drive(s, a, 1), a, AfterCapture(pc), p)
  {
    var cs := s.db.checkpoints;
    var cs' := cs[p.checkpoint := RowFor(AfterCapture(pc), p, a)];
    assert EditTx(cs, p.checkpoint, e) == Ok(cs') && ActionOf(a, s.ops[a], GOOD).Ask?;
    hide Reserved;
    NextRow(s, a, pc, p);
    hide Drive, Step, RowFor, Edit, EditTx, Next, ActionOf, On;
    OneCall(s, a, EditRow(p.checkpoint, e), s.db.(checkpoints := cs'), Done, Capture(AfterCapture(pc), p, None));
  }

  lemma NextRow(s: Sys, a: AttemptId, pc: CapturePc, p: CapturePlan)
    requires On(s, a, pc, p) && !BeforeInsert(pc)
    requires !BeforeInsert(AfterCapture(pc)) && AfterCapture(pc) != CReadGeneration
    requires RowFor(AfterCapture(pc), p, a).generation == p.generation
    ensures p.checkpoint in s.db.checkpoints
    ensures var row := RowFor(AfterCapture(pc), p, a);
            On(s.(db := s.db.(checkpoints := s.db.checkpoints[p.checkpoint := row]),
                  ops := s.ops[a := Capture(AfterCapture(pc), p, None)]),
               a, AfterCapture(pc), p)
  {
    hide RowFor;
  }

  lemma Rewrites(s: Sys, a: AttemptId, pc: CapturePc, p: CapturePlan)
    requires On(s, a, pc, p) && (pc == CDigest || pc == CMarkValid || pc == CUpdate)
    ensures On(Drive(s, a, 1), a, AfterCapture(pc), p)
  {
    hide On, Drive, Step;
    assert s.ops[a] == Capture(pc, p, None) by { OnIsCapture(s, a, pc, p); }
    match pc {
      case CDigest => RewritesRow(s, a, pc, p, SetDigest(p.digest));
      case CMarkValid => RewritesRow(s, a, pc, p, SetIntegrity(Valid));
      case CUpdate => RewritesRow(s, a, pc, p, Overwrite(PersistedRow(p, a)));
      case _ =>
    }
  }

  lemma OnIsCapture(s: Sys, a: AttemptId, pc: CapturePc, p: CapturePlan)
    requires On(s, a, pc, p)
    ensures a in s.ops && s.ops[a] == Capture(pc, p, None)
  {}

  // A lifecycle change: read, then write.
  lemma Transits(s: Sys, a: AttemptId, pc: CapturePc, p: CapturePlan)
    requires On(s, a, pc, p) && CaptureTarget(pc).Some?
    ensures On(Drive(s, a, 2), a, AfterCapture(pc), p)
  {
    var row := RowFor(pc, p, a);
    var op1 := Capture(pc, p, Some(row.lifecycle));
    TransitIsLegal(pc, p, a);
    hide Drive, Step, Reserved, RowFor, Taken;
    assert !BeforeInsert(pc) by { TargetsComeLater(pc); }
    TransitReads(pc, p, row);
    OneCall(s, a, ReadCheckpoint(p.checkpoint), s.db, Row(Some(row)), op1);
    DriveAppends(s, a, 1, 1);
    TransitWrites(s, s.(ops := s.ops[a := op1]), a, pc, p);
  }

  lemma TargetsComeLater(pc: CapturePc)
    ensures CaptureTarget(pc).Some? ==>
              !BeforeInsert(pc) && !BeforeInsert(AfterCapture(pc)) && AfterCapture(pc) != CReadGeneration
  {}

  lemma TransitReads(pc: CapturePc, p: CapturePlan, row: Checkpoint)
    requires CaptureTarget(pc).Some? && row.lifecycle.CanTransition(CaptureTarget(pc).value)
    ensures Next(Capture(pc, p, None), Row(Some(row)), GOOD) == Some(Capture(pc, p, Some(row.lifecycle)))
    ensures forall a :: ActionOf(a, Capture(pc, p, None), GOOD) == Ask(ReadCheckpoint(p.checkpoint))
  {}

  lemma TransitWritesNext(pc: CapturePc, p: CapturePlan, now: L.State)
    requires CaptureTarget(pc).Some?
    ensures Next(Capture(pc, p, Some(now)), Done, GOOD) == Some(Capture(AfterCapture(pc), p, None))
    ensures forall a :: ActionOf(a, Capture(pc, p, Some(now)), GOOD) ==
                          Ask(EditRow(p.checkpoint, SetLifecycle(CaptureTarget(pc).value, Pending)))
  {}

  lemma TransitWrites(s: Sys, s1: Sys, a: AttemptId, pc: CapturePc, p: CapturePlan)
    requires On(s, a, pc, p) && CaptureTarget(pc).Some?
    requires s1 == s.(ops := s.ops[a := Capture(pc, p, Some(RowFor(pc, p, a).lifecycle))])
    ensures On(Drive(s1, a, 1), a, AfterCapture(pc), p)
  {
    TargetsComeLater(pc);
    TransitIsLegal(pc, p, a);
    TransitWritesNext(pc, p, RowFor(pc, p, a).lifecycle);
    var cs' := s.db.checkpoints[p.checkpoint := RowFor(AfterCapture(pc), p, a)];
    hide Drive, Step, Reserved, RowFor, ActionOf, Next, BeforeInsert, AfterCapture, CaptureTarget;
    assert EditTx(s.db.checkpoints, p.checkpoint, SetLifecycle(CaptureTarget(pc).value, Pending)) == Ok(cs');
    OneCall(s1, a, EditRow(p.checkpoint, SetLifecycle(CaptureTarget(pc).value, Pending)), s.db.(checkpoints := cs'),
      Done,
            Capture(AfterCapture(pc), p, None));
  }

  lemma TransitIsLegal(pc: CapturePc, p: CapturePlan, a: AttemptId)
    requires CaptureTarget(pc).Some?
    ensures RowFor(pc, p, a).lifecycle.CanTransition(CaptureTarget(pc).value)
    ensures RowFor(AfterCapture(pc), p, a) ==
            RowFor(pc, p, a).(lifecycle := CaptureTarget(pc).value, integrity := Pending)
    ensures RowFor(pc, p, a).generation == RowFor(AfterCapture(pc), p, a).generation == p.generation
    ensures RowFor(pc, p, a).workload == RowFor(AfterCapture(pc), p, a).workload == p.workload
    ensures !BeforeInsert(AfterCapture(pc)) && AfterCapture(pc) != CReadGeneration && AfterCapture(pc) != CReserve
  {}

  function Rank(pc: CapturePc): nat {
    match pc
    case CReserve => 16
    case CBegin => 15
    case CLogReserved => 14
    case CInsert => 13
    case CCapturing => 12
    case CNodeCapture => 11
    case CCaptured => 10
    case CValidating => 9
    case CDigest => 8
    case CSealed => 7
    case CLogSealed => 6
    case CMarkValid => 5
    case CPersisting => 4
    case CPromote => 3
    case CUpdate => 2
    case CLogPersisted => 1
    case _ => 0
  }

  lemma Walks(s: Sys, a: AttemptId, pc: CapturePc, p: CapturePlan)
    requires On(s, a, pc, p) && Rank(pc) > 0
    ensures On(Drive(s, a, TurnsOf(pc)), a, AfterCapture(pc), p) && Rank(AfterCapture(pc)) == Rank(pc) - 1
    ensures Rank(pc) == 1 ==> AfterCapture(pc) == CCommit
  {
    hide On, Drive, Step;
    match pc {
      case CReserve => Reserves(s, a, p);
      case CBegin => Records(s, a, pc, p);
      case CLogReserved => Records(s, a, pc, p);
      case CInsert => Inserts(s, a, p);
      case CCapturing => Transits(s, a, pc, p);
      case CNodeCapture => AsksNode(s, a, p);
      case CCaptured => Transits(s, a, pc, p);
      case CValidating => Transits(s, a, pc, p);
      case CDigest => Rewrites(s, a, pc, p);
      case CSealed => Transits(s, a, pc, p);
      case CLogSealed => Records(s, a, pc, p);
      case CMarkValid => Rewrites(s, a, pc, p);
      case CPersisting => Transits(s, a, pc, p);
      case CPromote => Promotes(s, a, p);
      case CUpdate => Rewrites(s, a, pc, p);
      case CLogPersisted => Records(s, a, pc, p);
      case _ =>
    }
  }

  lemma {:induction false} WalksToCommit(s: Sys, a: AttemptId, pc: CapturePc, p: CapturePlan) returns (n: nat)
    requires On(s, a, pc, p) && Rank(pc) > 0
    ensures On(Drive(s, a, n), a, CCommit, p)
    decreases Rank(pc)
  {
    hide On, Drive, Step;
    Walks(s, a, pc, p);
    if Rank(pc) == 1 {
      n := TurnsOf(pc);
    } else {
      var m := WalksToCommit(Drive(s, a, TurnsOf(pc)), a, AfterCapture(pc), p);
      n := TurnsOf(pc) + m;
      DriveAppends(s, a, TurnsOf(pc), m);
    }
  }

  // Left alone and answered well, a capture comes to its commit with the row the
  // commit needs, numbered one above every checkpoint of the workload.
  lemma CaptureReachesItsCommit(s: Sys, a: AttemptId, p: CapturePlan) returns (n: nat)
    requires On(s, a, CReadGeneration, p)
    ensures var p' := p.(generation := MaxGeneration(s.db.checkpoints, p.workload) + 1);
            On(Drive(s, a, n), a, CCommit, p') && CaptureCommit(Drive(s, a, n).db, p.checkpoint, a).Ok?
  {
    hide Drive, On, CaptureCommit, Step;
    var p' := p.(generation := MaxGeneration(s.db.checkpoints, p.workload) + 1);
    ReadsGeneration(s, a, p);
    var m := WalksToCommit(Drive(s, a, 1), a, CReserve, p');
    n := 1 + m;
    DriveAppends(s, a, 1, m);
    CommitIsReady(Drive(s, a, n), a, p');
  }

  lemma CommitIsReady(s: Sys, a: AttemptId, p: CapturePlan)
    requires On(s, a, CCommit, p)
    ensures CaptureCommit(s.db, p.checkpoint, a).Ok?
  {
    hide CommitRows;
  }
}
