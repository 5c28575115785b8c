// Which rows, attempts and operations belong together, over every interleaving:
// generations stay dense, links stay directed, and a checkpoint is in a committed
// lifecycle state exactly when its capture has a db_committed entry.
module Anchors {
  import opened Wrappers
  import opened Tables
  import opened Operations
  import opened Steps
  import opened RowInvariants
  import Journal
  import L = Lifecycle

  // Attempt a captures checkpoint c.
  ghost predicate Holder(s: Sys, a: AttemptId, c: CheckpointId) {
    (a in s.ops && IsCapture(s.ops[a]) && CheckpointOf(s.ops[a]) == c)
    || (a in s.db.attempts && s.db.attempts[a].kind == CaptureKind && s.db.attempts[a].checkpoint == c)
  }

  ghost predicate OneHolder(s: Sys) {
    forall a, b, c :: Holder(s, a, c) && Holder(s, b, c) ==> a == b
  }

  // A row was inserted by the capture attempt it names.
  ghost predicate OwnedRow(db: Db, c: CheckpointId) {
    c in db.checkpoints
    && var a := db.checkpoints[c].attempt;
       a in db.attempts && db.attempts[a].kind == CaptureKind && db.attempts[a].checkpoint == c
  }

  ghost predicate HasCommit(db: Db, c: CheckpointId) {
    c in db.checkpoints && JournalHas(db, DbCommitted, db.checkpoints[c].attempt)
  }

  ghost predicate AnchoredRow(db: Db, c: CheckpointId) {
    c in db.checkpoints && (db.checkpoints[c].lifecycle.IsAnchored() ==> HasCommit(db, c))
    && (HasCommit(db, c) ==> db.checkpoints[c].lifecycle.IsAnchored())
  }

  // Restores only ever work on committed checkpoints of their own workload.
  ghost predicate RestoreRow(db: Db, c: CheckpointId, w: WorkloadId) {
    HasCommit(db, c) && db.checkpoints[c].workload == w
  }

  predicate BeforeInsert(pc: CapturePc) {
    pc == CReadGeneration || pc == CReserve || pc == CBegin || pc == CLogReserved || pc == CInsert
  }

  ghost predicate OpRow(db: Db, a: AttemptId, op: Op) {
    match op
    case Capture(pc, p, _) =>
      && p.digest != ""
      && (pc != CReadGeneration ==> Covered(db.checkpoints, p.workload, p.generation))
      && (if BeforeInsert(pc) then p.checkpoint !in db.checkpoints
          else p.checkpoint in db.checkpoints && SameIdentity(Scaffold(p, a), db.checkpoints[p.checkpoint]))
    case Restore(_, p, _, _, _) => RestoreRow(db, p.checkpoint, p.workload)
    case RestoreAbort(_, p) => RestoreRow(db, p.checkpoint, p.workload)
    case RecoverRestore(_, c, _, _) => HasCommit(db, c)
    case _ => true
  }

  ghost predicate AttemptRow(db: Db, a: AttemptId) {
    a in db.attempts
      && (db.attempts[a].kind != CaptureKind ==> RestoreRow(db, db.attempts[a].checkpoint, db.attempts[a].workload))
  }

  ghost predicate Inv(s: Sys) {
    && Journal.Inv(s)
    && RowsInv(s.db.checkpoints)
    && OneHolder(s)
    && (forall c :: c in s.db.checkpoints ==> OwnedRow(s.db, c) && AnchoredRow(s.db, c))
    && (forall a :: a in s.ops ==> OpRow(s.db, a, s.ops[a]))
    && (forall a :: a in s.db.attempts ==> AttemptRow(s.db, a))
  }

  // A call that operation a, or the environment, may make in s.
  ghost predicate Allowed(s: Sys, a: AttemptId, call: Call) {
    (a in s.ops && OpCall(a, s.ops[a], call)) || OutsideCall(call)
  }

  // ---------------- the checkpoint table after a call ----------------

  ghost function RowsAfter(db: Db, call: Call): Rows {
    match call
    case InsertRow(c, row) => if InsertTx(db.checkpoints, c, row).Ok? then InsertTx(db.checkpoints, c, row).value
      else db.checkpoints
    case EditRow(c, e) => if EditTx(db.checkpoints, c, e).Ok? then EditTx(db.checkpoints, c, e).value
      else db.checkpoints
    case CommitCapture(c, a) => if CaptureCommit(db, c, a).Ok? then CommitRows(db.checkpoints, c) else db.checkpoints
    case CommitRestore(c, a, node, token, migration, rollback) =>
      if RestoreCommit(db, c, a, node, token, migration, rollback).Ok? then RestoredRows(db.checkpoints, c)
        else db.checkpoints
    case _ => db.checkpoints
  }

  lemma ExecRows(db: Db, call: Call)
    ensures Exec(db, call).0.checkpoints == RowsAfter(db, call)
    ensures call.CommitCapture? ==> (Exec(db, call).1.Done? <==> CaptureCommit(db, call.c, call.a).Ok?)
    ensures call.InsertRow? ==> (Exec(db, call).1.Done? <==> InsertTx(db.checkpoints, call.c, call.row).Ok?)
  {
    hide CommitRows;
  }

  // What a call makes of the lifecycle of a row.
  ghost function LifecycleAfter(db: Db, call: Call, c: CheckpointId): L.State
    requires c in db.checkpoints
  {
    var row := db.checkpoints[c];
    match call
    case EditRow(d, e) => if d == c && EditTx(db.checkpoints, c, e).Ok? then Edit(row, e).value.lifecycle
      else row.lifecycle
    case CommitCapture(d, a) => if d == c && CaptureCommit(db, c, a).Ok? then L.Available else row.lifecycle
    case CommitRestore(d, a, node, token, migration, rollback) =>
      if d == c && RestoreCommit(db, c, a, node, token, migration, rollback).Ok? then L.Restored else row.lifecycle
    case _ => row.lifecycle
  }

  lemma LifecycleAt(db: Db, call: Call, c: CheckpointId)
    requires c in db.checkpoints
    ensures c in RowsAfter(db, call) && RowsAfter(db, call)[c].lifecycle == LifecycleAfter(db, call, c)
  {
    match call
    case CommitCapture(d, a) =>
      if CaptureCommit(db, d, a).Ok? {
        var cs := db.checkpoints;
        var row := CommittedRow(cs, d);
        hide CaptureCommit;
        SpliceShape(cs[d := row], d, row.supersedes, row.supersededBy);
      }
    case _ =>
  }

  lemma NewRow(db: Db, call: Call, c: CheckpointId)
    requires c in RowsAfter(db, call) && c !in db.checkpoints
    ensures call.InsertRow? && call.c == c && RowsAfter(db, call)[c] == call.row
            && InsertTx(db.checkpoints, c, call.row).Ok?
  {
    match call
    case CommitCapture(d, a) =>
    case _ =>
  }

  lemma CommittedRowExists(db: Db, call: Call)
    ensures call.CommitCapture? && CaptureCommit(db, call.c, call.a).Ok? ==> call.c in db.checkpoints
    ensures call.CommitRestore? && RowsAfter(db, call) != db.checkpoints ==> call.c in db.checkpoints
  {}

  // Inserted rows are fresh scaffolds of a reached generation; edits keep a row's identity.
  lemma EditsAreFit(s: Sys, a: AttemptId, call: Call)
    requires Inv(s) && Allowed(s, a, call)
    ensures call.InsertRow? ==>
              Covered(s.db.checkpoints, call.row.workload, call.row.generation)
              && call.row.supersedes == None && call.row.supersededBy == None && call.row.locations == []
              && call.row.replicaCount == 0
    ensures call.EditRow? && call.c in s.db.checkpoints ==> KeepsIdentity(s.db.checkpoints[call.c], call.edit)
  {
    assert a in s.ops ==> OpRow(s.db, a, s.ops[a]);
    hide Inv, Covered;
  }

  lemma CallKeepsRows(s: Sys, a: AttemptId, call: Call)
    requires Inv(s) && Allowed(s, a, call)
    ensures RowsInv(RowsAfter(s.db, call)) && Grows(s.db.checkpoints, RowsAfter(s.db, call))
  {
    var cs := s.db.checkpoints;
    assert RowsInv(cs);
    hide Allowed, KeepsIdentity, Covered, RowsInv, Inv, CommitRows, RestoredRows, InsertTx, EditTx, CaptureCommit,
      RestoreCommit;
    EditsAreFit(s, a, call);
    CommittedRowExists(s.db, call);
    match call
    case InsertRow(c, row) => InsertKeepsRows(cs, c, row);
    case EditRow(c, e) => EditKeepsRows(cs, c, e);
    case CommitCapture(c, b) => if CaptureCommit(s.db, c, b).Ok? { CommitKeepsRows(cs, c); }
    case CommitRestore(c, b, node, token, migration, rollback) => if RowsAfter(s.db, call) != cs {
      RestoredKeepsRows(cs, c);
    }
    case _ =>
  }

  // ---------------- who may hold a checkpoint ----------------

  lemma NextKeepsCheckpoint(op: Op, reply: Reply, ans: Answer)
    ensures Next(op, reply, ans).Some? ==>
              var op' := Next(op, reply, ans).value;
              CheckpointOf(op') == CheckpointOf(op) && (IsCapture(op') <==> IsCapture(op))
    ensures Failing(op).Some? ==>
              var op' := Failing(op).value;
              CheckpointOf(op') == CheckpointOf(op) && (IsCapture(op') <==> IsCapture(op))
  {
    hide TargetMayClaim, Reading;
  }

  // Live operations are started by a Begin event and moved by Advance only.
  lemma OpsMove(s: Sys, e: Event, b: AttemptId)
    requires b in Step(s, e).ops
    ensures if e.Advance? && e.a == b then b in s.ops && Moves(s.ops[b], Step(s, e).ops[b], s.db, b, e.ans)
            else
              (b in s.ops && Step(s, e).ops[b] == s.ops[b])
              || (e.BeginCapture? && e.a == b && MayCapture(s, b, e.cplan)
                 && Step(s, e).ops[b] == Capture(CReadGeneration, e.cplan, None))
              || (e.BeginRestore? && e.a == b && MayRestore(s, b, e.rplan)
                  && Step(s, e).ops[b] == Restore(RCheckWorkload, e.rplan, None, 0, false))
              || (e.BeginRetire? && e.a == b && FreshAttempt(s, b) && Step(s, e).ops[b].Retirement?)
              || (e.BeginRecovery? && e.a == b && b in s.db.attempts && Step(s, e).ops[b] == RecoveryOf(s, b))
  {
    hide Exec, Next, Failing, ActionOf, MayCapture, MayRestore, NewWorkload, FreshAttempt;
  }

  // op' is where operation op can go in one step taken in db.
  ghost predicate Moves(op: Op, op': Op, db: Db, a: AttemptId, ans: Answer) {
    match ActionOf(a, op, ans)
    case Ask(call) => if ans.fault then Failing(op) == Some(op') else Next(op, Exec(db, call).1, ans) == Some(op')
    case Tell(_) => Next(op, Done, ans) == Some(op')
  }

  lemma MovesKeepCheckpoint(op: Op, op': Op, db: Db, a: AttemptId, ans: Answer)
    requires Moves(op, op', db, a, ans)
    ensures CheckpointOf(op') == CheckpointOf(op) && (IsCapture(op') <==> IsCapture(op))
  {
    hide Next, Failing, ActionOf, Exec, CheckpointOf, IsCapture;
    match ActionOf(a, op, ans)
    case Ask(call) => NextKeepsCheckpoint(op, Exec(db, call).1, ans);
    case Tell(_) => NextKeepsCheckpoint(op, Done, ans);
  }

  lemma VerdictsAreReady(s: Sys, a: AttemptId)
    requires Journal.Inv(s) && a in s.ops
    ensures VerdictReady(s.ops[a])
  {
    assert Journal.At(s, a);
  }

  function Caller(e: Event): AttemptId {
    if e.Advance? then e.a else 0
  }

  lemma CallsAreAllowed(s: Sys, e: Event)
    requires Journal.Inv(s) && CallOf(s, e).Some?
    ensures Allowed(s, Caller(e), CallOf(s, e).value)
    ensures if e.Advance? then e.a in s.ops && OpCall(e.a, s.ops[e.a], CallOf(s, e).value)
            else OutsideCall(CallOf(s, e).value)
  {
    if e.Advance? {
      VerdictsAreReady(s, e.a);
      OpCalls(e.a, s.ops[e.a], e.ans);
    } else {
      OutsideCalls(s, e);
    }
  }

  // Attempt rows are added by their own operation and never change hands.
  lemma AttemptsGrow(s: Sys, e: Event, b: AttemptId)
    requires Journal.Inv(s)
    ensures var s' := Step(s, e);
            && (b in s.db.attempts ==>
               b in s'.db.attempts && s'.db.attempts[b] == s.db.attempts[b].(state := s'.db.attempts[b].state))
            && (b in s'.db.attempts && b !in s.db.attempts ==>
                  b in s.ops && s'.db.attempts[b].checkpoint == CheckpointOf(s.ops[b])
                  && (s'.db.attempts[b].kind == CaptureKind ==> s.ops[b].Capture?)
                  && (s'.db.attempts[b].kind != CaptureKind ==>
                     s.ops[b].Restore? && s'.db.attempts[b].workload == s.ops[b].rplan.workload))
  {
    hide CallOf, Step, Exec, OpEdit, Journal.Inv;
    StepDb(s, e);
    if CallOf(s, e).Some? {
      CallsAreAllowed(s, e);
      Journal.ExecJournal(s.db, CallOf(s, e).value);
    }
  }

  lemma HoldersAreOld(s: Sys, e: Event, b: AttemptId, c: CheckpointId)
    requires Journal.Inv(s) && Holder(Step(s, e), b, c)
    ensures Holder(s, b, c) || (e.BeginCapture? && e.a == b && e.cplan.checkpoint == c && MayCapture(s, b, e.cplan))
  {
    hide Step, Journal.Inv, MayCapture, MayRestore, FreshAttempt, Moves;
    AttemptsGrow(s, e, b);
    if b in Step(s, e).ops {
      OpsMove(s, e, b);
      if e.Advance? && b in s.ops && Moves(s.ops[b], Step(s, e).ops[b], s.db, b, e.ans) {
        MovesKeepCheckpoint(s.ops[b], Step(s, e).ops[b], s.db, b, e.ans);
      }
    }
  }

  lemma StepKeepsOneHolder(s: Sys, e: Event)
    requires Journal.Inv(s) && OneHolder(s)
    ensures OneHolder(Step(s, e))
  {
    forall a, b, c | Holder(Step(s, e), a, c) && Holder(Step(s, e), b, c) ensures a == b {
      HoldersAreOld(s, e, a, c);
      HoldersAreOld(s, e, b, c);
      hide Step, Journal.Inv;
    }
  }

  // ---------------- ownership and anchors ----------------

  lemma OwnersHold(s: Sys, a: AttemptId, c: CheckpointId)
    requires Inv(s) && c in s.db.checkpoints && Holder(s, a, c)
    ensures s.db.checkpoints[c].attempt == a
  {
    assert OwnedRow(s.db, c);
    assert Holder(s, s.db.checkpoints[c].attempt, c);
  }

  lemma StepKeepsOwned(s: Sys, e: Event, c: CheckpointId)
    requires Inv(s) && c in Step(s, e).db.checkpoints
    ensures OwnedRow(Step(s, e).db, c)
  {
    StepDb(s, e);
    hide Step, CallOf;
    var db := s.db;
    if c in db.checkpoints {
      assert OwnedRow(db, c);
      AttemptsGrow(s, e, db.checkpoints[c].attempt);
      if CallOf(s, e).Some? {
        CallsAreAllowed(s, e);
        CallKeepsRows(s, Caller(e), CallOf(s, e).value);
        ExecRows(db, CallOf(s, e).value);
      }
    } else {
      InsertedRow(s, e, c);
      AttemptsGrow(s, e, Caller(e));
    }
  }

  // A row that appears is the scaffold of a running capture with no commit marker.
  lemma InsertedRow(s: Sys, e: Event, c: CheckpointId)
    requires Inv(s) && c in Step(s, e).db.checkpoints && c !in s.db.checkpoints
    ensures e.Advance? && e.a in s.ops && s.ops[e.a].Capture? && s.ops[e.a].cpc == CInsert
            && c == s.ops[e.a].cplan.checkpoint
    ensures Step(s, e).db.checkpoints[c] == Scaffold(s.ops[e.a].cplan, e.a)
    ensures e.a in s.db.attempts && s.db.attempts[e.a].kind == CaptureKind && s.db.attempts[e.a].checkpoint == c
    ensures (DbCommitted, e.a) !in Step(s, e).db.journal
  {
    StepDb(s, e);
    hide Step, CallOf;
    var call := CallOf(s, e).value;
    ExecRows(s.db, call);
    NewRow(s.db, call, c);
    CallsAreAllowed(s, e);
    assert Journal.At(s, Caller(e));
    assert DbCommitted !in Journal.MarksOf(s.db, Caller(e));
    Journal.ExecJournal(s.db, call);
  }

  // The journal entry that decides a capture appears only with its commit.
  lemma CommitMarks(s: Sys, a: AttemptId, call: Call, b: AttemptId)
    requires (a in s.ops && OpCall(a, s.ops[a], call)) || OutsideCall(call)
    ensures var db' := Exec(s.db, call).0;
            JournalHas(db', DbCommitted, b) <==>
              JournalHas(s.db, DbCommitted, b)
              || (call.CommitCapture? && call.a == b && a == b && CaptureCommit(s.db, call.c, b).Ok?)
    ensures call.CommitCapture? ==> call.a == a && Holder(s, a, call.c)
  {
    ExecRows(s.db, call);
    Journal.ExecJournal(s.db, call);
    hide Exec, CaptureCommit;
  }

  lemma StepKeepsRows(s: Sys, e: Event)
    requires Inv(s)
    ensures RowsInv(Step(s, e).db.checkpoints) && Grows(s.db.checkpoints, Step(s, e).db.checkpoints)
  {
    StepDb(s, e);
    hide Step, CallOf, RowsInv;
    if CallOf(s, e).Some? {
      CallsAreAllowed(s, e);
      CallKeepsRows(s, Caller(e), CallOf(s, e).value);
      ExecRows(s.db, CallOf(s, e).value);
    }
  }

  // A capture that still sets lifecycle states, or one that is being failed, has
  // no commit marker yet.
  lemma UncommittedStates(s: Sys, a: AttemptId, c: CheckpointId, e: RowEdit)
    requires Journal.Inv(s) && a in s.ops && OpCall(a, s.ops[a], EditRow(c, e))
    requires e.Overwrite? || (e.SetLifecycle? && IsCapture(s.ops[a]))
    ensures IsCapture(s.ops[a]) && !JournalHas(s.db, DbCommitted, a)
    ensures e.SetLifecycle? ==> !e.target.IsAnchored()
    ensures e.Overwrite? ==> e.row.lifecycle == L.Persisting
  {
    assert Journal.At(s, a);
    assert DbCommitted !in Journal.MarksOf(s.db, a);
  }

  // Which lifecycle a capture or restore operation may write on its row.
  lemma EditKeepsLifecycleClass(s: Sys, a: AttemptId, c: CheckpointId, e: RowEdit)
    requires Inv(s) && c in s.db.checkpoints && a in s.ops && OpCall(a, s.ops[a], EditRow(c, e))
    ensures e.Overwrite? ==> !e.row.lifecycle.IsAnchored() && !s.db.checkpoints[c].lifecycle.IsAnchored()
    ensures e.SetLifecycle? ==> (e.target.IsAnchored() <==> s.db.checkpoints[c].lifecycle.IsAnchored())
  {
    assert AnchoredRow(s.db, c) && OpRow(s.db, a, s.ops[a]);
    if e.Overwrite? || (e.SetLifecycle? && IsCapture(s.ops[a])) {
      UncommittedStates(s, a, c, e);
      OwnersHold(s, a, c);
    }
    hide Inv;
  }

  lemma EditedClass(row: Checkpoint, e: RowEdit)
    requires Edit(row, e).Ok?
    requires e.Overwrite? ==> !e.row.lifecycle.IsAnchored() && !row.lifecycle.IsAnchored()
    requires e.SetLifecycle? ==> (e.target.IsAnchored() <==> row.lifecycle.IsAnchored())
    ensures Edit(row, e).value.lifecycle.IsAnchored() <==> row.lifecycle.IsAnchored()
  {}

  lemma CommitClass(db: Db, call: Call, c: CheckpointId)
    requires c in db.checkpoints && !(call.EditRow? && call.c == c)
    requires !(call.CommitCapture? && call.c == c && CaptureCommit(db, c, call.a).Ok?)
    ensures LifecycleAfter(db, call, c).IsAnchored() <==> db.checkpoints[c].lifecycle.IsAnchored()
  {
    hide CaptureCommit;
  }

  lemma CallKeepsLifecycleClass(s: Sys, a: AttemptId, call: Call, c: CheckpointId)
    requires Inv(s) && c in s.db.checkpoints
    requires (a in s.ops && OpCall(a, s.ops[a], call)) || OutsideCall(call)
    requires !(call.CommitCapture? && call.c == c && CaptureCommit(s.db, c, call.a).Ok?)
    ensures LifecycleAfter(s.db, call, c).IsAnchored() <==> s.db.checkpoints[c].lifecycle.IsAnchored()
  {
    hide Inv, CaptureCommit, RestoreCommit, OpCall, Edit;
    if call.EditRow? && call.c == c {
      if a in s.ops && OpCall(a, s.ops[a], call) { EditKeepsLifecycleClass(s, a, c, call.edit); }
      if EditTx(s.db.checkpoints, c, call.edit).Ok? { EditedClass(s.db.checkpoints[c], call.edit); }
    } else {
      CommitClass(s.db, call, c);
    }
  }

  // The attempt that owns row c commits c and nothing else.
  lemma OwnersCommitTheirOwn(s: Sys, a: AttemptId, call: Call, c: CheckpointId)
    requires Inv(s) && c in s.db.checkpoints
    requires (a in s.ops && OpCall(a, s.ops[a], call)) || OutsideCall(call)
    ensures JournalHas(Exec(s.db, call).0, DbCommitted, s.db.checkpoints[c].attempt) <==>
              HasCommit(s.db, c) || (call.CommitCapture? && call.c == c && CaptureCommit(s.db, c, call.a).Ok?)
  {
    var b := s.db.checkpoints[c].attempt;
    assert OwnedRow(s.db, c);
    hide Exec, CaptureCommit, Inv, OpCall, OutsideCall, Holder;
    CommitMarks(s, a, call, b);
    if call.CommitCapture? {
      CommittersCommitTheirs(s, a, call);
      if call.c == c { OwnersHold(s, a, c); }
    }
  }

  lemma CommittersCommitTheirs(s: Sys, a: AttemptId, call: Call)
    requires Inv(s) && call.CommitCapture?
    requires (a in s.ops && OpCall(a, s.ops[a], call)) || OutsideCall(call)
    ensures a in s.db.attempts ==> s.db.attempts[a].checkpoint == call.c
  {
    assert Journal.At(s, a);
    hide Inv, OpEdit;
  }

  lemma CallKeepsAnchored(s: Sys, a: AttemptId, call: Call, c: CheckpointId)
    requires Inv(s) && c in s.db.checkpoints
    requires (a in s.ops && OpCall(a, s.ops[a], call)) || OutsideCall(call)
    ensures AnchoredRow(Exec(s.db, call).0, c)
  {
    assert AnchoredRow(s.db, c);
    CallKeepsRows(s, a, call);
    LifecycleAt(s.db, call, c);
    ExecRows(s.db, call);
    OwnersCommitTheirOwn(s, a, call, c);
    hide Inv, Exec, OpCall, OutsideCall, RowsInv, CaptureCommit, RowsAfter;
    if !(call.CommitCapture? && call.c == c && CaptureCommit(s.db, c, call.a).Ok?) {
      CallKeepsLifecycleClass(s, a, call, c);
    }
  }

  lemma StepKeepsAnchored(s: Sys, e: Event, c: CheckpointId)
    requires Inv(s) && c in Step(s, e).db.checkpoints
    ensures AnchoredRow(Step(s, e).db, c)
  {
    assert c in s.db.checkpoints ==> AnchoredRow(s.db, c);
    assert Journal.Inv(s);
    hide *;
    if c in s.db.checkpoints {
      StepDb(s, e);
      if CallOf(s, e).Some? {
        CallsAreAllowed(s, e);
        CallKeepsAnchored(s, Caller(e), CallOf(s, e).value, c);
      }
    } else {
      InsertedIsAnchored(s, e, c);
    }
  }

  lemma InsertedIsAnchored(s: Sys, e: Event, c: CheckpointId)
    requires Inv(s) && c in Step(s, e).db.checkpoints && c !in s.db.checkpoints
    ensures AnchoredRow(Step(s, e).db, c)
  {
    InsertedRow(s, e, c);
    hide Step, Inv;
  }

  // ---------------- live operations and their rows ----------------

  ghost predicate Advances(db: Db, db': Db) {
    Grows(db.checkpoints, db'.checkpoints) && forall a :: JournalHas(db, DbCommitted, a) ==>
      JournalHas(db', DbCommitted, a)
  }

  lemma StepAdvances(s: Sys, e: Event)
    requires Inv(s)
    ensures Advances(s.db, Step(s, e).db)
  {
    StepKeepsRows(s, e);
    StepDb(s, e);
    if CallOf(s, e).Some? { Journal.ExecJournal(s.db, CallOf(s, e).value); }
    hide Step, CallOf, Exec, Inv, Grows;
  }

  lemma OpRowStays(db: Db, db': Db, a: AttemptId, op: Op)
    requires Advances(db, db') && OpRow(db, a, op)
    requires op.Capture? && BeforeInsert(op.cpc) ==> op.cplan.checkpoint !in db'.checkpoints
    ensures OpRow(db', a, op)
  {
    if op.Capture? && op.cpc != CReadGeneration {
      CoveredGrows(db.checkpoints, db'.checkpoints, op.cplan.workload, op.cplan.generation);
    }
  }

  // How a capture's plan and program counter move.
  lemma CaptureMoves(pc: CapturePc, p: CapturePlan, seen: Option<L.State>, reply: Reply, ans: Answer)
    ensures var n := NextCapture(pc, p, seen, reply, ans);
            n.Some? && n.value.Capture? ==>
              && (pc == CReadGeneration ==>
                 reply.Generation? && n.value.cpc == CReserve && n.value.cplan == p.(generation := reply.n + 1))
              && (pc != CReadGeneration ==> n.value.cplan == p && n.value.cpc != CReadGeneration)
              && (pc == CInsert ==> n.value.cpc == CCapturing && !reply.Refused?)
              && (pc != CInsert ==> (BeforeInsert(n.value.cpc) <==> BeforeInsert(pc)))
    ensures var n := NextCapture(pc, p, seen, reply, ans); n.Some? ==> n.value.Capture? || n.value.CaptureAbort?
    ensures Failing(Capture(pc, p, seen)).Some? ==> Failing(Capture(pc, p, seen)).value.CaptureAbort?
  {
    hide Reading;
    match pc {
      case CReadGeneration =>
      case CInsert =>
      case CResume =>
      case CReplicate =>
      case _ =>
    }
  }

  lemma RestoreMoves(op: Op, reply: Reply, ans: Answer)
    requires !op.Capture?
    ensures Next(op, reply, ans).Some? ==> SamePlan(op, Next(op, reply, ans).value)
    ensures Failing(op).Some? ==> SamePlan(op, Failing(op).value)
  {
    hide TargetMayClaim, Reading;
  }

  predicate SamePlan(op: Op, op': Op) {
    match op
    case Restore(_, p, _, _, _) => (op'.Restore? && op'.rplan == p) || (op'.RestoreAbort? && op'.rplan == p)
    case RestoreAbort(_, p) => op'.RestoreAbort? && op'.rplan == p
    case RecoverRestore(_, c, _, _) => op'.RecoverRestore? && op'.c == c
    case _ => !op'.Capture? && !op'.Restore? && !op'.RestoreAbort? && !op'.RecoverRestore?
  }

  lemma SamePlanKeepsRow(db: Db, db': Db, a: AttemptId, op: Op, op': Op)
    requires Advances(db, db') && OpRow(db, a, op) && !op.Capture? && SamePlan(op, op')
    ensures OpRow(db', a, op')
  {}

  lemma NextGeneration(cs: Rows, w: WorkloadId, g: nat)
    requires RowsInv(cs) && IsMaxGeneration(cs, w, g)
    ensures Covered(cs, w, g + 1)
  {
    if g > 0 {
      var c :| c in cs.Keys && cs[c].workload == w && cs[c].generation == g;
      assert Covered(cs, w, g);
      assert HasGeneration(cs, w, g);
    }
  }

  lemma MoveKeepsCaptureRow(s: Sys, a: AttemptId, op': Op, ans: Answer, db': Db)
    requires Inv(s) && a in s.ops && s.ops[a].Capture? && Moves(s.ops[a], op', s.db, a, ans)
    requires Advances(s.db, db')
    requires var act := ActionOf(a, s.ops[a], ans); db' == if act.Ask? && !ans.fault then Exec(s.db, act.call).0
             else s.db
    ensures OpRow(db', a, op')
  {
    var Capture(pc, p, seen) := s.ops[a];
    var act := ActionOf(a, s.ops[a], ans);
    var reply := if act.Ask? then Exec(s.db, act.call).1 else Done;
    assert OpRow(s.db, a, s.ops[a]) && RowsInv(s.db.checkpoints);
    CaptureMoves(pc, p, seen, reply, ans);
    if act.Ask? { ExecRows(s.db, act.call); }
    hide RowsInv, Inv, NextCapture, Journal.Inv;
    if act.Ask? && !ans.fault && op'.Capture? {
      if pc == CReadGeneration {
        NextGeneration(s.db.checkpoints, p.workload, reply.n);
      } else if pc == CInsert {
        CoveredGrows(s.db.checkpoints, db'.checkpoints, p.workload, p.generation);
      } else {
        assert db'.checkpoints == RowsAfter(s.db, act.call);
        OpRowStays(s.db, db', a, s.ops[a]);
      }
    }
  }

  lemma MoveKeepsOpRow(s: Sys, a: AttemptId, op': Op, ans: Answer, db': Db)
    requires Inv(s) && a in s.ops && Moves(s.ops[a], op', s.db, a, ans)
    requires Advances(s.db, db')
    requires var act := ActionOf(a, s.ops[a], ans); db' == if act.Ask? && !ans.fault then Exec(s.db, act.call).0
             else s.db
    ensures OpRow(db', a, op')
  {
    assert OpRow(s.db, a, s.ops[a]);
    var op := s.ops[a];
    hide Inv, OpRow, Advances, Exec, ActionOf, Next, Failing, SamePlan;
    if op.Capture? {
      MoveKeepsCaptureRow(s, a, op', ans, db');
    } else {
      match ActionOf(a, op, ans)
      case Ask(call) => RestoreMoves(op, Exec(s.db, call).1, ans); SamePlanKeepsRow(s.db, db', a, op, op');
      case Tell(_) => RestoreMoves(op, Done, ans); SamePlanKeepsRow(s.db, db', a, op, op');
    }
  }

  // What the environment may start.
  lemma StartedOpRow(s: Sys, e: Event, b: AttemptId)
    requires Inv(s)
    ensures e.BeginCapture? && MayCapture(s, b, e.cplan) ==> OpRow(s.db, b, Capture(CReadGeneration, e.cplan, None))
    ensures e.BeginRestore? && MayRestore(s, b, e.rplan) ==>
              OpRow(s.db, b, Restore(RCheckWorkload, e.rplan, None, 0, false))
    ensures b in s.db.attempts ==> OpRow(s.db, b, RecoveryOf(s, b))
  {
    if e.BeginRestore? && MayRestore(s, b, e.rplan) { assert AnchoredRow(s.db, e.rplan.checkpoint); }
    if b in s.db.attempts { assert AttemptRow(s.db, b); }
    hide Inv;
  }

  // Another capture's checkpoint is not the one this step inserts.
  lemma StillUninserted(s: Sys, e: Event, b: AttemptId)
    requires Inv(s) && b in s.ops && s.ops[b].Capture? && BeforeInsert(s.ops[b].cpc) && !(e.Advance? && e.a == b)
    ensures s.ops[b].cplan.checkpoint !in Step(s, e).db.checkpoints
  {
    var c := s.ops[b].cplan.checkpoint;
    assert OpRow(s.db, b, s.ops[b]);
    assert Holder(s, b, c);
    assert forall a :: a in s.ops && s.ops[a].Capture? && s.ops[a].cplan.checkpoint == c ==> Holder(s, a, c);
    if c in Step(s, e).db.checkpoints { InsertedRow(s, e, c); }
  }

  lemma StepKeepsOpRow(s: Sys, e: Event, b: AttemptId)
    requires Inv(s) && b in Step(s, e).ops
    ensures OpRow(Step(s, e).db, b, Step(s, e).ops[b])
  {
    OpsMove(s, e, b);
    StepAdvances(s, e);
    StepDb(s, e);
    StartedOpRow(s, e, b);
    var op' := Step(s, e).ops[b];
    assert b in s.ops ==> OpRow(s.db, b, s.ops[b]);
    assert e.BeginCapture? || e.BeginRestore? || e.BeginRetire? || e.BeginRecovery? ==> CallOf(s, e).None?;
    if e.Advance? && e.a == b {
      assert Step(s, e).db == var act := ActionOf(b, s.ops[b], e.ans); if act.Ask?
          && !e.ans.fault then Exec(s.db, act.call).0 else s.db;
      hide *;
      MoveKeepsOpRow(s, b, op', e.ans, Step(s, e).db);
    } else if b in s.ops && op' == s.ops[b] {
      if op'.Capture? && BeforeInsert(op'.cpc) { StillUninserted(s, e, b); }
      hide *;
      OpRowStays(s.db, Step(s, e).db, b, op');
    } else {
      hide Step, CallOf, Inv, MayCapture, MayRestore, RecoveryOf;
    }
  }

  lemma StepKeepsAttemptRow(s: Sys, e: Event, b: AttemptId)
    requires Inv(s) && b in Step(s, e).db.attempts
    ensures AttemptRow(Step(s, e).db, b)
  {
    AttemptsGrow(s, e, b);
    StepAdvances(s, e);
    assert b in s.db.attempts ==> AttemptRow(s.db, b);
    assert b in s.ops ==> OpRow(s.db, b, s.ops[b]);
    hide Step, Inv;
  }

  lemma StepKeepsInv(s: Sys, e: Event)
    requires Inv(s)
    ensures Inv(Step(s, e))
  {
    var s' := Step(s, e);
    forall b ensures Journal.At(s', b) { Journal.StepKeepsAt(s, e, b); }
    StepKeepsRows(s, e);
    StepKeepsOneHolder(s, e);
    forall c | c in s'.db.checkpoints ensures OwnedRow(s'.db, c) && AnchoredRow(s'.db, c) {
      StepKeepsOwned(s, e, c);
      StepKeepsAnchored(s, e, c);
    }
    forall b | b in s'.ops ensures OpRow(s'.db, b, s'.ops[b]) { StepKeepsOpRow(s, e, b); }
    forall b | b in s'.db.attempts ensures AttemptRow(s'.db, b) { StepKeepsAttemptRow(s, e, b); }
    assert Journal.Inv(s');
    hide Step, Journal.Inv, RowsInv, OneHolder, OwnedRow, AnchoredRow, OpRow, AttemptRow;
  }

  lemma EmptyInv()
    ensures Inv(EmptySys)
  {
    Journal.EmptyIsInv();
  }

  lemma {:induction false} RunKeepsInv(s: Sys, events: seq<Event>)
    requires Inv(s)
    ensures Inv(Run(s, events))
    decreases |events|
  {
    if events != [] {
      RunKeepsInv(s, events[..|events| - 1]);
      StepKeepsInv(Run(s, events[..|events| - 1]), events[|events| - 1]);
    }
    hide Inv, Step;
  }

  // ---------------- over every run ----------------

  // The inserted generations of every workload are exactly 1 .. n, each used once,
  // and MAX picks n: concurrent captures, expired reservations, failed captures and
  // rollbacks neither leave a gap nor reuse one.
  lemma GenerationsAreDense(events: seq<Event>, w: WorkloadId, g: nat)
    ensures var cs := Run(EmptySys, events).db.checkpoints;
            HasGeneration(cs, w, g) <==> 1 <= g <= MaxGeneration(cs, w)
    ensures UniqueGenerations(Run(EmptySys, events).db.checkpoints)
  {
    EmptyInv();
    RunKeepsInv(EmptySys, events);
    var cs := Run(EmptySys, events).db.checkpoints;
    var n := MaxGeneration(cs, w);
    hide Run;
    NextGeneration(cs, w, n);
    if c :| c in cs && cs[c].workload == w && cs[c].generation == g {
      assert c in cs.Keys && Covered(cs, w, g);
    }
  }

  // In every interleaving, retirement included, supersedes leads to a strictly
  // smaller generation of the same workload and superseded_by to a strictly larger
  // one, so following either ends.
  lemma LinksAreDirected(events: seq<Event>, c: CheckpointId)
    requires c in Run(EmptySys, events).db.checkpoints
    ensures var cs := Run(EmptySys, events).db.checkpoints;
            && (cs[c].supersedes.Some? ==>
                  var d := cs[c].supersedes.value;
                  d in cs && cs[d].workload == cs[c].workload && cs[d].generation < cs[c].generation)
            && (cs[c].supersededBy.Some? ==>
                  var d := cs[c].supersededBy.value;
                  d in cs && cs[d].workload == cs[c].workload && cs[d].generation > cs[c].generation)
            && Directed(cs) && |WalkDown(cs, c)| <= cs[c].generation
            && (forall d :: d in cs && cs[d].workload == cs[c].workload ==>
               cs[d].generation <= MaxGeneration(cs, cs[c].workload))
            && |WalkUp(cs, c, MaxGeneration(cs, cs[c].workload))| <= MaxGeneration(cs,
               cs[c].workload) - cs[c].generation + 1
  {
    EmptyInv();
    RunKeepsInv(EmptySys, events);
    var cs := Run(EmptySys, events).db.checkpoints;
    hide Run;
    assert PointsDown(cs, c, cs[c].supersedes) && PointsUp(cs, c, cs[c].supersededBy);
    forall d | d in cs && cs[d].workload == cs[c].workload
      ensures cs[d].generation <= MaxGeneration(cs, cs[c].workload) {
      assert d in cs.Keys;
    }
    var path := WalkDown(cs, c);
    assert Covered(cs, cs[path[|path| - 1]].workload, cs[path[|path| - 1]].generation);
    WalkDescends(cs, c, |path| - 1);
  }

  lemma {:induction false} WalkDescends(cs: Rows, c: CheckpointId, i: nat)
    requires Directed(cs) && c in cs && i < |WalkDown(cs, c)|
    ensures cs[WalkDown(cs, c)[i]].generation + i <= cs[c].generation
  {
    if i > 0 {
      WalkDescends(cs, c, i - 1);
      var path := WalkDown(cs, c);
      assert cs[path[i - 1]].generation > cs[path[i]].generation;
    }
  }

  // replica_count always equals the number of recorded locations, and no node
  // is recorded twice.
  lemma ReplicasAreCounted(events: seq<Event>, c: CheckpointId)
    requires c in Run(EmptySys, events).db.checkpoints
    ensures var row := Run(EmptySys, events).db.checkpoints[c];
            row.replicaCount == |row.locations|
            && forall i, j :: 0 <= i < j < |row.locations| ==> row.locations[i].node != row.locations[j].node
  {
    EmptyInv();
    RunKeepsInv(EmptySys, events);
    hide Run;
    assert CountsReplicas(Run(EmptySys, events).db.checkpoints[c]);
  }

  // A checkpoint is available, being restored, restored or retired exactly when its
  // own capture attempt has its commit marker; so a committed one never fails.
  lemma CommittedExactlyByMarker(events: seq<Event>, c: CheckpointId)
    requires c in Run(EmptySys, events).db.checkpoints
    ensures var db := Run(EmptySys, events).db;
            var row := db.checkpoints[c];
            && row.attempt in db.attempts && db.attempts[row.attempt].kind == CaptureKind
            && db.attempts[row.attempt].checkpoint == c
            && (row.lifecycle.IsAnchored() <==> JournalHas(db, DbCommitted, row.attempt))
  {
    EmptyInv();
    RunKeepsInv(EmptySys, events);
    hide Run;
    assert OwnedRow(Run(EmptySys, events).db, c) && AnchoredRow(Run(EmptySys, events).db, c);
  }
}
