// A capture that crashes anywhere on its forward path and is then reconciled: either
// the uninterrupted commit, or nothing.
module CrashAtomicity {
  import opened Wrappers
  import opened Tables
  import opened Operations
  import opened Steps
  import opened Anchors
  import opened Recovery
  import opened Restart
  import Availability
  import Conservation
  import Journal
  import L = Lifecycle

  // A row capture_commit finds complete.
  predicate Ready(row: Checkpoint) {
    row.lifecycle == L.Persisting && row.locations != [] && row.digest.Some? && row.digest.value != ""
  }

  // The metadata a persisted marker vouches for is there until the commit, unless the
  // attempt has been failed.
  ghost predicate Durable(db: Db, a: AttemptId) {
    JournalHas(db, CapturePersisted, a) ==>
      && a in db.attempts && db.attempts[a].checkpoint in db.checkpoints
      && var row := db.checkpoints[db.attempts[a].checkpoint];
         row.attempt == a && (!JournalHas(db, DbCommitted, a) ==> row.lifecycle == L.Failed || Ready(row))
  }

  ghost predicate Homed(db: Db, c: CheckpointId) {
    c in db.checkpoints && db.checkpoints[c].workload in db.workloads
  }

  ghost predicate OpReady(db: Db, op: Op) {
    op.Capture? ==>
      op.cplan.workload in db.workloads
      && (op.cpc == CLogPersisted || op.cpc == CCommit ==>
            op.cplan.checkpoint in db.checkpoints && Ready(db.checkpoints[op.cplan.checkpoint]))
  }

  ghost predicate DurableInv(s: Sys) {
    && (forall a :: Durable(s.db, a))
    && (forall c :: c in s.db.checkpoints ==> Homed(s.db, c))
    && (forall a :: a in s.ops ==> OpReady(s.db, s.ops[a]))
  }

  // ---------------- a complete row stays complete ----------------

  // While b's capture is persisted but not committed, edits of its row can only
  // fail it or leave what the commit needs.
  lemma EditsWhilePersisted(s: Sys, a: AttemptId, c: CheckpointId, e: RowEdit)
    requires Inv(s) && c in s.db.checkpoints
    requires (a in s.ops && OpCall(a, s.ops[a], EditRow(c, e))) || OutsideCall(EditRow(c, e))
    requires var b := s.db.checkpoints[c].attempt;
             JournalHas(s.db, CapturePersisted, b) && !JournalHas(s.db, DbCommitted, b)
    ensures !e.Overwrite? && !e.SetDigest? && (e.SetLifecycle? ==> e.target == L.Failed)
  {
    if a in s.ops && OpCall(a, s.ops[a], EditRow(c, e)) && (e.Overwrite? || e.SetDigest? || e.SetLifecycle?) {
      assert Journal.At(s, a) && OpRow(s.db, a, s.ops[a]);
      if IsCapture(s.ops[a]) { OwnersHold(s, a, c); }
      hide Inv;
      var m := Journal.MarksOf(s.db, a);
      if IsCapture(s.ops[a]) { CaptureEditsWhilePersisted(m, Journal.AttemptOf(s.db, a), a, s.ops[a], e); }
    }
  }

  lemma CaptureEditsWhilePersisted(m: set<Marker>, attempt: Option<Attempt>, a: AttemptId, op: Op, e: RowEdit)
    requires Journal.LocalOp(m, attempt, op) && IsCapture(op) && CapturePersisted in m && DbCommitted !in m
             && OpEdit(a, op, e)
    ensures !e.Overwrite? && !e.SetDigest? && (e.SetLifecycle? ==> e.target == L.Failed)
  {}

  lemma EditKeepsReady(row: Checkpoint, e: RowEdit)
    requires Edit(row, e).Ok? && (row.lifecycle == L.Failed || Ready(row))
    requires !e.Overwrite? && !e.SetDigest? && (e.SetLifecycle? ==> e.target == L.Failed)
    ensures var row' := Edit(row, e).value;
            row'.lifecycle == L.Failed || Ready(row')
    ensures Ready(row) && !e.SetLifecycle? ==> Ready(Edit(row, e).value)
  {}

  lemma CallKeepsDurableRow(s: Sys, a: AttemptId, call: Call, c: CheckpointId)
    requires Inv(s) && c in s.db.checkpoints
    requires (a in s.ops && OpCall(a, s.ops[a], call)) || OutsideCall(call)
    requires var b := s.db.checkpoints[c].attempt;
             JournalHas(s.db, CapturePersisted, b) && !JournalHas(s.db, DbCommitted, b)
    requires s.db.checkpoints[c].lifecycle == L.Failed || Ready(s.db.checkpoints[c])
    requires !(call.CommitCapture? && call.c == c && CaptureCommit(s.db, c, call.a).Ok?)
    ensures c in RowsAfter(s.db, call)
    ensures RowsAfter(s.db, call)[c].lifecycle == L.Failed || Ready(RowsAfter(s.db, call)[c])
  {
    hide Inv, RowsAfter, LifecycleAfter, OpCall, OutsideCall, CaptureCommit, RestoreCommit, Edit;
    LifecycleAt(s.db, call, c);
    Availability.RowAt(s.db, call, c);
    if call.EditRow? && call.c == c {
      EditsWhilePersisted(s, a, c, call.edit);
      if EditTx(s.db.checkpoints, c, call.edit).Ok? { EditKeepsReady(s.db.checkpoints[c], call.edit); }
    } else {
      RestoresNeedRestoring(s.db, call, c);
    }
  }

  lemma RestoresNeedRestoring(db: Db, call: Call, c: CheckpointId)
    requires c in db.checkpoints && !(call.EditRow? && call.c == c)
    requires !(call.CommitCapture? && call.c == c && CaptureCommit(db, c, call.a).Ok?)
    requires db.checkpoints[c].lifecycle == L.Failed || db.checkpoints[c].lifecycle == L.Persisting
    ensures LifecycleAfter(db, call, c) == db.checkpoints[c].lifecycle
  {
    hide CaptureCommit;
  }

  // While b is about to commit c, nobody else changes what the commit needs.
  lemma OthersLeaveItReady(s: Sys, a: AttemptId, call: Call, c: CheckpointId, b: AttemptId)
    requires Inv(s) && c in s.db.checkpoints && Ready(s.db.checkpoints[c]) && Holder(s, b, c)
    requires (a != b && a in s.ops && OpCall(a, s.ops[a], call)) || OutsideCall(call)
    ensures c in RowsAfter(s.db, call) && Ready(RowsAfter(s.db, call)[c])
  {
    hide Inv, RowsAfter, LifecycleAfter, CaptureCommit, RestoreCommit, OpCall, OutsideCall, Edit;
    if a in s.ops && a != b && CheckpointOf(s.ops[a]) == c { NotTheirs(s, a, c, b); }
    LifecycleAt(s.db, call, c);
    Availability.RowAt(s.db, call, c);
    OnlyRetirements(s, a, call, c);
    if call.EditRow? && call.c == c {
      if EditTx(s.db.checkpoints, c, call.edit).Ok? { EditKeepsReady(s.db.checkpoints[c], call.edit); }
    } else {
      RestoresNeedRestoring(s.db, call, c);
    }
  }

  // What a retirement, or the environment, does to a row it works on.
  lemma OnlyRetirements(s: Sys, a: AttemptId, call: Call, c: CheckpointId)
    requires (a in s.ops && OpCall(a, s.ops[a], call) && (CheckpointOf(s.ops[a]) == c ==> s.ops[a].Retirement?))
             || OutsideCall(call)
    ensures !(call.CommitCapture? && call.c == c)
    ensures call.EditRow? && call.c == c ==>
              call.edit.SetIntegrity? || call.edit.SetProtection? || call.edit.Rebind? || call.edit.Retire?
  {}

  // Another operation on an uncommitted checkpoint that b captures can only be an
  // attempt to retire it.
  lemma NotTheirs(s: Sys, a: AttemptId, c: CheckpointId, b: AttemptId)
    requires Inv(s) && c in s.db.checkpoints && !s.db.checkpoints[c].lifecycle.IsAnchored() && Holder(s, b, c)
    requires a != b && a in s.ops && CheckpointOf(s.ops[a]) == c
    ensures s.ops[a].Retirement?
  {
    assert AnchoredRow(s.db, c) && OpRow(s.db, a, s.ops[a]);
    assert IsCapture(s.ops[a]) ==> Holder(s, a, c);
  }

  // ---------------- one step ----------------

  lemma StepKeepsHomed(s: Sys, e: Event, c: CheckpointId)
    requires Inv(s) && DurableInv(s) && c in Step(s, e).db.checkpoints
    ensures Homed(Step(s, e).db, c)
  {
    if c in s.db.checkpoints {
      assert Homed(s.db, c);
      StepKeepsRows(s, e);
      Conservation.CountersMove(s, e, s.db.checkpoints[c].workload);
    } else {
      InsertedRow(s, e, c);
      assert OpReady(s.db, s.ops[e.a]);
      Conservation.CountersMove(s, e, s.ops[e.a].cplan.workload);
    }
    hide Step, Inv, DurableInv;
  }

  lemma PersistedMarks(s: Sys, e: Event, b: AttemptId)
    requires Journal.Inv(s)
    ensures JournalHas(s.db, CapturePersisted, b) ==> JournalHas(Step(s, e).db, CapturePersisted, b)
    ensures JournalHas(Step(s, e).db, CapturePersisted, b) && !JournalHas(s.db, CapturePersisted, b) ==>
              e.Advance? && e.a == b && b in s.ops && s.ops[b].Capture? && s.ops[b].cpc == CLogPersisted
              && CallOf(s, e) == Some(Log(CapturePersisted, b))
  {
    StepDb(s, e);
    if CallOf(s, e).Some? {
      CallsAreAllowed(s, e);
      Journal.ExecJournal(s.db, CallOf(s, e).value);
      hide Step, CallOf, Exec;
    }
  }

  lemma StepKeepsDurable(s: Sys, e: Event, b: AttemptId)
    requires Inv(s) && DurableInv(s)
    ensures Durable(Step(s, e).db, b)
  {
    var db' := Step(s, e).db;
    PersistedMarks(s, e, b);
    StepAdvances(s, e);
    if JournalHas(db', CapturePersisted, b) {
      AttemptsGrow(s, e, b);
      StepDb(s, e);
      if JournalHas(s.db, CapturePersisted, b) {
        assert Durable(s.db, b);
        if CallOf(s, e).Some? && !JournalHas(db', DbCommitted, b) {
          PersistedRowSurvives(s, e, b, s.db.attempts[b].checkpoint);
        }
      } else {
        JustPersisted(s, e, b);
      }
      hide Step, Inv, DurableInv, CallOf;
    }
  }

  lemma PersistedRowSurvives(s: Sys, e: Event, b: AttemptId, c: CheckpointId)
    requires Inv(s) && CallOf(s, e).Some? && c in s.db.checkpoints && s.db.checkpoints[c].attempt == b
    requires JournalHas(s.db, CapturePersisted, b) && !JournalHas(Step(s, e).db, DbCommitted, b)
    requires !JournalHas(s.db, DbCommitted, b) ==>
              s.db.checkpoints[c].lifecycle == L.Failed || Ready(s.db.checkpoints[c])
    ensures c in Step(s, e).db.checkpoints
    ensures var row := Step(s, e).db.checkpoints[c]; row.lifecycle == L.Failed || Ready(row)
  {
    var call := CallOf(s, e).value;
    StepDb(s, e);
    CallsAreAllowed(s, e);
    ExecRows(s.db, call);
    OwnersCommitTheirOwn(s, Caller(e), call, c);
    hide Step, CallOf, Inv, Exec, OpCall, OutsideCall, RowsAfter, CaptureCommit, Ready;
    CallKeepsDurableRow(s, Caller(e), call, c);
  }

  lemma JustPersisted(s: Sys, e: Event, b: AttemptId)
    requires Inv(s) && DurableInv(s)
    requires e.Advance? && e.a == b && b in s.ops && s.ops[b].Capture? && s.ops[b].cpc == CLogPersisted
    requires CallOf(s, e) == Some(Log(CapturePersisted, b))
    ensures Durable(Step(s, e).db, b)
  {
    StepDb(s, e);
    ExecRows(s.db, Log(CapturePersisted, b));
    AttemptsGrow(s, e, b);
    assert Journal.At(s, b) && OpReady(s.db, s.ops[b]);
    OwnersHold(s, b, s.ops[b].cplan.checkpoint);
    hide Step, CallOf, Inv, DurableInv;
  }

  // Where a capture that is about to persist or commit came from.
  lemma ReadyMoves(pc: CapturePc, p: CapturePlan, seen: Option<L.State>, reply: Reply, ans: Answer)
    ensures var n := NextCapture(pc, p, seen, reply, ans);
            n.Some? && n.value.Capture? ==>
              && (n.value.cpc == CLogPersisted ==> pc == CUpdate && !reply.Refused?)
              && (n.value.cpc == CCommit ==> pc == CLogPersisted)
  {
    hide Reading;
  }

  lemma OwnStepKeepsReady(s: Sys, a: AttemptId, ans: Answer)
    requires Inv(s) && DurableInv(s) && a in s.ops && s.ops[a].Capture? && a in AdvanceOp(s, a, ans).ops
    ensures var op' := AdvanceOp(s, a, ans).ops[a];
            op'.Capture? && (op'.cpc == CLogPersisted || op'.cpc == CCommit) ==>
              op'.cplan.checkpoint in AdvanceOp(s, a, ans).db.checkpoints
              && Ready(AdvanceOp(s, a, ans).db.checkpoints[op'.cplan.checkpoint])
  {
    assert OpRow(s.db, a, s.ops[a]) && OpReady(s.db, s.ops[a]);
    hide Inv, DurableInv, NextCapture, CaptureCommit, RestoreCommit;
    var Capture(pc, p, seen) := s.ops[a];
    var act := ActionOf(a, s.ops[a], ans);
    var reply := if act.Ask? then Exec(s.db, act.call).1 else Done;
    ReadyMoves(pc, p, seen, reply, ans);
    CaptureMoves(pc, p, seen, reply, ans);
    if act.Ask? { ExecRows(s.db, act.call); }
  }

  lemma StepKeepsOpReady(s: Sys, e: Event, b: AttemptId)
    requires Inv(s) && DurableInv(s) && b in Step(s, e).ops
    ensures OpReady(Step(s, e).db, Step(s, e).ops[b])
  {
    assert b in s.ops ==> OpReady(s.db, s.ops[b]);
    hide Step, Inv, DurableInv;
    var op' := Step(s, e).ops[b];
    if op'.Capture? {
      PlansStay(s, e, b);
      Conservation.CountersMove(s, e, op'.cplan.workload);
      if op'.cpc == CLogPersisted || op'.cpc == CCommit { StepKeepsReady(s, e, b); }
    }
    hide CallOf, Ready, Conservation.Commits, Conservation.Bumped;
  }

  lemma AdvanceIsOwn(s: Sys, e: Event, b: AttemptId)
    requires b in Step(s, e).ops
    ensures e.Advance? && e.a == b ==> b in s.ops && Step(s, e) == AdvanceOp(s, b, e.ans)
  {
    hide AdvanceOp;
  }

  lemma StepKeepsReady(s: Sys, e: Event, b: AttemptId)
    requires Inv(s) && DurableInv(s) && b in Step(s, e).ops && Step(s, e).ops[b].Capture?
    requires Step(s, e).ops[b].cpc == CLogPersisted || Step(s, e).ops[b].cpc == CCommit
    ensures var op' := Step(s, e).ops[b];
            op'.cplan.checkpoint in Step(s, e).db.checkpoints && Ready(Step(s, e).db.checkpoints[op'.cplan.checkpoint])
  {
    assert b in s.ops ==> OpReady(s.db, s.ops[b]);
    assert Journal.Inv(s);
    hide Step, AdvanceOp, CallOf, Inv, OpCall, OutsideCall, DurableInv, Exec, Moves, MayCapture, Ready;
    PlansStay(s, e, b);
    OpsMove(s, e, b);
    AdvanceIsOwn(s, e, b);
    if e.Advance? && e.a == b {
      OwnStepKeepsReady(s, b, e.ans);
    } else {
      StepDb(s, e);
      if CallOf(s, e).Some? {
        CallsAreAllowed(s, e);
        ExecRows(s.db, CallOf(s, e).value);
        OthersLeaveItReady(s, Caller(e), CallOf(s, e).value, Step(s, e).ops[b].cplan.checkpoint, b);
      }
    }
  }

  lemma PlansStay(s: Sys, e: Event, b: AttemptId)
    requires b in Step(s, e).ops && Step(s, e).ops[b].Capture?
    ensures if b in s.ops && !e.BeginCapture? then s.ops[b].Capture?
            && Step(s, e).ops[b].cplan.workload == s.ops[b].cplan.workload
            else Step(s, e).ops[b].cplan.workload in s.db.workloads || (b in s.ops && Step(s, e).ops[b] == s.ops[b])
  {
    OpsMove(s, e, b);
    if e.Advance? && e.a == b {
      var op := s.ops[b];
      var act := ActionOf(b, op, e.ans);
      var reply := if act.Ask? then Exec(s.db, act.call).1 else Done;
      if op.Capture? { CaptureMoves(op.cpc, op.cplan, op.seen, reply, e.ans); } else { RestoreMoves(op, reply, e.ans); }
      hide Step, Exec, Next, Failing;
    }
  }

  lemma StepKeepsDurableInv(s: Sys, e: Event)
    requires Inv(s) && DurableInv(s)
    ensures DurableInv(Step(s, e))
  {
    var s' := Step(s, e);
    forall a ensures Durable(s'.db, a) { StepKeepsDurable(s, e, a); }
    forall c | c in s'.db.checkpoints ensures Homed(s'.db, c) { StepKeepsHomed(s, e, c); }
    forall a | a in s'.ops ensures OpReady(s'.db, s'.ops[a]) { StepKeepsOpReady(s, e, a); }
    hide Step, Inv, Durable, Homed, OpReady;
  }

  lemma {:induction false} RunKeepsDurable(s: Sys, events: seq<Event>)
    requires Inv(s) && DurableInv(s)
    ensures Inv(Run(s, events)) && DurableInv(Run(s, events))
    decreases |events|
  {
    Anchors.RunKeepsInv(s, events);
    if events != [] {
      RunKeepsDurable(s, events[..|events| - 1]);
      StepKeepsDurableInv(Run(s, events[..|events| - 1]), events[|events| - 1]);
    }
    hide Inv, Step, DurableInv;
  }

  // ---------------- reconciling a crashed capture ----------------

  // Agreement on everything but the attempt's own verdict and reservation.
  predicate SameTables(db: Db, db': Db) {
    db'.checkpoints == db.checkpoints && db'.workloads == db.workloads && db'.lineage == db.lineage
      && db'.journal == db.journal
  }

  // The checkpoint a persisted attempt can still publish.
  ghost predicate Publishable(db: Db, a: AttemptId) {
    a in db.attempts && db.attempts[a].checkpoint in db.checkpoints
    && var row := db.checkpoints[db.attempts[a].checkpoint];
       row.lifecycle != L.Failed && row.workload in db.workloads
         && db.workloads[row.workload].generation == row.workloadGeneration
  }

  lemma CommitSucceedsIff(db: Db, a: AttemptId)
    requires Durable(db, a) && JournalHas(db, CapturePersisted, a) && !JournalHas(db, DbCommitted, a)
    requires Homed(db, db.attempts[a].checkpoint)
    ensures CaptureCommit(db, db.attempts[a].checkpoint, a).Ok? <==> Publishable(db, a)
  {}

  lemma CommitPublishes(db: Db, c: CheckpointId, a: AttemptId)
    requires CaptureCommit(db, c, a).Ok?
    ensures var db' := CaptureCommit(db, c, a).value;
            c in db'.checkpoints && db'.checkpoints[c].lifecycle == L.Available && JournalHas(db', DbCommitted, a)
  {
    LifecycleAt(db, CommitCapture(c, a), c);
  }

  // db' follows from db by reconciling capture attempt a.  With the commit marker, or
  // without the persisted marker, nothing changes but the verdict.  With the persisted
  // marker alone the tables become those of the uninterrupted commit, exactly when the
  // attempt was not failed before and no restore has moved the workload's generation;
  // otherwise the checkpoint is failed and every other row, link, counter and lineage
  // entry stays.
  ghost predicate AllOrNothing(db: Db, a: AttemptId, db': Db)
    requires a in db.attempts
  {
    var persisted, committed := JournalHas(db, CapturePersisted, a), JournalHas(db, DbCommitted, a);
    var c := db.attempts[a].checkpoint;
    && a in db'.attempts && db'.attempts[a].state ==
       (if committed || (persisted && Publishable(db, a)) then Committed else AttemptFailed)
    && (committed || !persisted ==> SameTables(db, db'))
    && (persisted && !committed && Publishable(db, a) ==>
          var tx := CaptureCommit(db, c, a);
          tx.Ok? && SameTables(tx.value, db') && JournalHas(db', DbCommitted, a)
          && c in db'.checkpoints && db'.checkpoints[c].lifecycle == L.Available)
    && (persisted && !committed && !Publishable(db, a) ==>
          c in db.checkpoints && c in db'.checkpoints
          && db'.checkpoints ==
             db.checkpoints[c := if db.checkpoints[c].lifecycle == L.Persisting
                                 then db.checkpoints[c].(lifecycle := L.Failed, integrity := Corrupt)
                                 else db.checkpoints[c].(lifecycle := L.Failed)]
          && db'.workloads == db.workloads && db'.lineage == db.lineage && db'.journal == db.journal)
  }

  lemma CaptureIsAllOrNothing(db: Db, a: AttemptId)
    requires a in db.attempts && db.attempts[a].kind == CaptureKind && Durable(db, a)
    requires db.attempts[a].checkpoint in db.checkpoints ==> Homed(db, db.attempts[a].checkpoint)
    ensures Reconciled(db, a).Ok? && AllOrNothing(db, a, Reconciled(db, a).value.0)
  {
    if JournalHas(db, CapturePersisted, a) && !JournalHas(db, DbCommitted, a) {
      var c := db.attempts[a].checkpoint;
      CommitSucceedsIff(db, a);
      if CaptureCommit(db, c, a).Ok? {
        CommitPublishes(db, c, a);
        CommitKeepsAttempts(db, c, a);
      }
      assert db.checkpoints == db.checkpoints[c := db.checkpoints[c].(integrity := db.checkpoints[c].integrity)];
      hide CaptureCommit, Publishable;
    }
  }

  lemma CrashedCaptureOf(s: Sys, a: AttemptId)
    requires DurableInv(s) && a in s.db.attempts && s.db.attempts[a].kind == CaptureKind
    ensures Reconciled(s.db, a).Ok? && AllOrNothing(s.db, a, Reconciled(s.db, a).value.0)
  {
    var db := s.db;
    assert Durable(db, a) && (db.attempts[a].checkpoint in db.checkpoints ==> Homed(db, db.attempts[a].checkpoint));
    hide *;
    CaptureIsAllOrNothing(db, a);
  }

  // Wherever a capture is interrupted, in whatever interleaving, reconciliation makes
  // it the uninterrupted commit or nothing.
  lemma CrashedCapture(events: seq<Event>, a: AttemptId)
    requires a in Run(EmptySys, events).db.attempts && Run(EmptySys, events).db.attempts[a].kind == CaptureKind
    ensures var db := Run(EmptySys, events).db;
            Reconciled(db, a).Ok? && AllOrNothing(db, a, Reconciled(db, a).value.0)
  {
    Reachable(events);
    hide *;
    CrashedCaptureOf(Run(EmptySys, events), a);
  }

  lemma Reachable(events: seq<Event>)
    ensures Inv(Run(EmptySys, events)) && DurableInv(Run(EmptySys, events))
  {
    EmptyInv();
    assert DurableInv(EmptySys);
    RunKeepsDurable(EmptySys, events);
  }

  // In particular every attempt of every reachable store can be decided.  Passes over
  // several attempts are in RecoveryPass.
  lemma EveryAttemptIsDecided(events: seq<Event>, a: AttemptId)
    requires a in Run(EmptySys, events).db.attempts
    ensures Reconciled(Run(EmptySys, events).db, a).Ok?
  {
    if Run(EmptySys, events).db.attempts[a].kind == CaptureKind { CrashedCapture(events, a); }
    hide Run;
  }

  // ---------------- nothing after a failed verdict ----------------

  // Attempt a has been failed and nobody works on it.
  ghost predicate Buried(s: Sys, a: AttemptId) {
    a in s.db.attempts && s.db.attempts[a].kind == CaptureKind && s.db.attempts[a].state == AttemptFailed && a !in s.ops
  }

  lemma StepKeepsBuried(s: Sys, e: Event, a: AttemptId)
    requires Inv(s) && Buried(s, a)
    ensures Buried(Step(s, e), a)
  {
    AttemptsGrow(s, e, a);
    StepDb(s, e);
    if CallOf(s, e).Some? {
      CallsAreAllowed(s, e);
      Journal.ExecJournal(s.db, CallOf(s, e).value);
    }
    if a in Step(s, e).ops { OpsMove(s, e, a); }
    hide Exec, CallOf, Inv, OpEdit, Moves;
  }

  lemma {:induction false} RunKeepsBuried(s: Sys, events: seq<Event>, a: AttemptId)
    requires Inv(s) && Buried(s, a)
    ensures Inv(Run(s, events)) && Buried(Run(s, events), a)
    decreases |events|
  {
    Anchors.RunKeepsInv(s, events);
    if events != [] {
      RunKeepsBuried(s, events[..|events| - 1], a);
      StepKeepsBuried(Run(s, events[..|events| - 1]), events[|events| - 1], a);
    }
    hide Inv, Step;
  }

  // A capture that crashed before its persisted marker and was then reconciled never
  // becomes available, in any continuation whatever.
  lemma UnpersistedNeverAppears(events: seq<Event>, a: AttemptId, after: seq<Event>)
    requires var s := Run(EmptySys, events);
             a in s.db.attempts && s.db.attempts[a].kind == CaptureKind && s.db.attempts[a].state == Active
             && !JournalHas(s.db, CapturePersisted, a)
    ensures var s := Run(EmptySys, events);
            var t := Run(Recovered(s, a), after);
            var c := s.db.attempts[a].checkpoint;
            SameTables(s.db, Recovered(s, a).db)
              && (c in t.db.checkpoints ==> !t.db.checkpoints[c].lifecycle.IsAnchored())
  {
    var s := Run(EmptySys, events);
    var c := s.db.attempts[a].checkpoint;
    Reachable(events);
    CrashedCapture(events, a);
    assert Journal.At(s, a);
    NotYetCommitted(s, a);
    RecoveryRefinesReconcile(s, a);
    RecoveredIsARun(s, a);
    Anchors.RunKeepsInv(s, [Crash, BeginRecovery(a)] + Turns(a, CALLS));
    var r := Recovered(s, a);
    assert Buried(r, a) && r.db.attempts[a].checkpoint == c by {
      hide Run, Inv, Recovered;
      var db' := Reconciled(s.db, a).value.0;
      KeepsCheckpoint(s.db, a);
    }
    RunKeepsBuried(r, after, a);
    BuriedIsUnanchored(r, after, a, c);
    hide Run, Recovered, Inv;
  }

  lemma NotYetCommitted(s: Sys, a: AttemptId)
    requires Journal.At(s, a) && a in s.db.attempts && s.db.attempts[a].kind == CaptureKind
    requires !JournalHas(s.db, CapturePersisted, a)
    ensures !JournalHas(s.db, DbCommitted, a)
  {
    if a in s.ops { Journal.DeadIsLocal(Journal.MarksOf(s.db, a), Journal.AttemptOf(s.db, a), s.ops[a]); }
    assert CapturePersisted !in Journal.MarksOf(s.db, a);
  }

  lemma KeepsCheckpoint(db: Db, a: AttemptId)
    requires a in db.attempts && Reconciled(db, a).Ok?
    ensures var db' := Reconciled(db, a).value.0;
            a in db'.attempts && db'.attempts[a].kind == db.attempts[a].kind
              && db'.attempts[a].checkpoint == db.attempts[a].checkpoint
  {
    hide CaptureCommit;
    if CaptureCommit(db, db.attempts[a].checkpoint, a).Ok? { CommitKeepsAttempts(db, db.attempts[a].checkpoint, a); }
  }

  lemma BuriedIsUnanchored(s: Sys, events: seq<Event>, a: AttemptId, c: CheckpointId)
    requires Inv(s) && Buried(s, a) && s.db.attempts[a].checkpoint == c
    ensures var t := Run(s, events); c in t.db.checkpoints ==> !t.db.checkpoints[c].lifecycle.IsAnchored()
  {
    var t := Run(s, events);
    RunKeepsBuried(s, events, a);
    CheckpointStays(s, events, a);
    hide Run;
    if c in t.db.checkpoints {
      assert Journal.At(t, a) && AnchoredRow(t.db, c) && Holder(t, a, c);
      OwnersHold(t, a, c);
      assert DbCommitted !in Journal.MarksOf(t.db, a);
    }
  }

  lemma {:induction false} CheckpointStays(s: Sys, events: seq<Event>, a: AttemptId)
    requires Inv(s) && a in s.db.attempts
    ensures a in Run(s, events).db.attempts && Run(s, events).db.attempts[a].checkpoint == s.db.attempts[a].checkpoint
    decreases |events|
  {
    if events != [] {
      var prefix, last := events[..|events| - 1], events[|events| - 1];
      CheckpointStays(s, prefix, a);
      Anchors.RunKeepsInv(s, prefix);
      AttemptsGrow(Run(s, prefix), last, a);
    }
    hide Step, Inv;
  }
}
