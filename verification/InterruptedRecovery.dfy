// Recovery that is interrupted itself: crashes again, store calls that fail, passes that
// start over.  A persisted capture is lost exactly when its own recovery rejects it,
// which takes a commit call that fails.
module InterruptedRecovery {
  import opened Wrappers
  import opened Tables
  import opened Operations
  import opened Steps
  import opened Anchors
  import opened Recovery
  import opened Restart
  import opened Promotion
  import opened Directories
  import opened RecoveryPass
  import Availability
  import Conservation
  import CrashAtomicity
  import Journal
  import L = Lifecycle

  // Any event but a new request: crashes, recoveries of any attempts in any order and
  // interleaving whose store calls may fail, and changes of workloads and settings.
  predicate NoRequest(e: Event) {
    !e.BeginCapture? && !e.BeginRestore? && !e.BeginRetire?
  }

  // The write by which the recovery of attempt a rejects its checkpoint takes effect.
  ghost predicate Rejects(s: Sys, e: Event, a: AttemptId) {
    e.Advance? && e.a == a && !e.ans.fault && a in s.ops && s.ops[a].RecoverCapture? && s.ops[a].kpc == KFail
  }

  // The commit call of the recovery of attempt a fails.
  ghost predicate CommitFaults(s: Sys, e: Event, a: AttemptId) {
    e.Advance? && e.a == a && e.ans.fault && a in s.ops && s.ops[a].RecoverCapture? && s.ops[a].kpc == KCommit
  }

  ghost predicate RejectedIn(s: Sys, events: seq<Event>, a: AttemptId)
    decreases |events|
  {
    events != [] && var prefix, last := events[..|events| - 1], events[|events| - 1];
                    RejectedIn(s, prefix, a) || Rejects(Run(s, prefix), last, a)
  }

  ghost predicate CommitFaultsIn(s: Sys, events: seq<Event>, a: AttemptId)
    decreases |events|
  {
    events != [] && var prefix, last := events[..|events| - 1], events[|events| - 1];
                    CommitFaultsIn(s, prefix, a) || CommitFaults(Run(s, prefix), last, a)
  }

  ghost predicate OnlyRecoveries(s: Sys) {
    forall a :: a in s.ops ==> s.ops[a].RecoverCapture? || s.ops[a].RecoverRestore?
  }

  // A recovery of a capture that has not decided it, or is about to reject it.
  predicate Undecided(op: Op) {
    op.RecoverCapture?
    && (op.kpc == KPersisted || op.kpc == KCommitted || op.kpc == KRead
        || ((op.kpc == KCommit || op.kpc == KFail) && op.seen == Some(L.Persisting)))
  }

  // Capture attempt a is committed, or another recovery could still commit it.
  ghost predicate Salvable(s: Sys, a: AttemptId) {
    Filed(s.db, a)
    && (JournalHas(s.db, DbCommitted, a)
        || (s.db.attempts[a].state == Active && CrashAtomicity.Publishable(s.db, a)
            && (a in s.ops ==> Undecided(s.ops[a]))))
  }

  // Nobody is about to reject it.
  ghost predicate Calm(s: Sys, a: AttemptId) {
    a in s.ops && s.ops[a].RecoverCapture? ==> s.ops[a].kpc != KFail
  }

  // Capture attempt a has been rejected.
  ghost predicate Lost(db: Db, a: AttemptId) {
    Filed(db, a) && !JournalHas(db, DbCommitted, a)
    && db.attempts[a].checkpoint in db.checkpoints && db.checkpoints[db.attempts[a].checkpoint].lifecycle == L.Failed
  }

  // ---------------- what recoveries leave alone ----------------

  lemma RecoveriesStay(s: Sys, e: Event)
    requires OnlyRecoveries(s) && NoRequest(e)
    ensures OnlyRecoveries(Step(s, e))
  {
    forall b | b in Step(s, e).ops ensures Step(s, e).ops[b].RecoverCapture? || Step(s, e).ops[b].RecoverRestore? {
      OpsMove(s, e, b);
      if e.Advance? && e.a == b { RecoveryMoves(s.ops[b], Step(s, e).ops[b], s.db, b, e.ans); }
      hide Step, Moves;
    }
  }

  lemma RecoveryMoves(op: Op, op': Op, db: Db, b: AttemptId, ans: Answer)
    requires Moves(op, op', db, b, ans) && (op.RecoverCapture? || op.RecoverRestore?)
    ensures op'.RecoverCapture? || op'.RecoverRestore?
  {}

  // Recoveries give nodes no orders about directories.
  lemma RecoveriesMoveNoDirectory(s: Sys, e: Event, node: NodeName, c: CheckpointId)
    requires OnlyRecoveries(s)
    ensures (node, c) in Step(s, e).promoted <==> (node, c) in s.promoted
  {
    PromotedExactly(s, e, node, c);
    if e.Advance? && e.a in s.ops { WhoMovesDirectories(e.a, s.ops[e.a], e.ans, node, c); }
    hide Step, ActionOf;
  }

  lemma {:induction false} RestartsKeepDirectory(s: Sys, events: seq<Event>, node: NodeName, c: CheckpointId)
    requires OnlyRecoveries(s) && forall e :: e in events ==> NoRequest(e)
    ensures OnlyRecoveries(Run(s, events)) && ((node, c) in Run(s, events).promoted <==> (node, c) in s.promoted)
    decreases |events|
  {
    if events != [] {
      var prefix, last := events[..|events| - 1], events[|events| - 1];
      RestartsKeepDirectory(s, prefix, node, c);
      hide Step, OnlyRecoveries;
      RecoveriesStay(Run(s, prefix), last);
      RecoveriesMoveNoDirectory(Run(s, prefix), last, node, c);
    }
  }

  // Workload generations rest while only recoveries run.
  lemma GenerationRests(s: Sys, e: Event, w: WorkloadId)
    requires Inv(s) && OnlyRecoveries(s) && w in s.db.workloads
    ensures w in Step(s, e).db.workloads && Step(s, e).db.workloads[w].generation == s.db.workloads[w].generation
  {
    Conservation.CountersMove(s, e, w);
    if CallOf(s, e).Some? { CallsAreAllowed(s, e); }
    hide Step, Inv, Exec, OpEdit, OutsideCall;
  }

  // Nobody but a's own recovery touches what a's commit needs.
  lemma OthersKeepSalvable(s: Sys, e: Event, a: AttemptId)
    requires Inv(s) && CrashAtomicity.DurableInv(s) && OnlyRecoveries(s) && NoRequest(e) && Salvable(s, a)
    requires !(e.Advance? && e.a == a)
    ensures Salvable(Step(s, e), a)
  {
    StepKeepsFiled(s, e, a);
    OpensAtStart(s, e, a);
    if !JournalHas(s.db, DbCommitted, a) {
      var c := s.db.attempts[a].checkpoint;
      assert CrashAtomicity.Durable(s.db, a) && Holder(s, a, c);
      StaysActive(s, e, a);
      GenerationRests(s, e, s.db.checkpoints[c].workload);
      OutsideLeavesReady(s, e, c, a);
      OutsideKeepsGeneration(s, e, c, a);
    }
    hide Step, Inv, CrashAtomicity.DurableInv;
  }

  lemma StepKeepsFiled(s: Sys, e: Event, a: AttemptId)
    requires Inv(s) && Filed(s.db, a)
    ensures Filed(Step(s, e).db, a) && Step(s, e).db.attempts[a].checkpoint == s.db.attempts[a].checkpoint
    ensures JournalHas(s.db, DbCommitted, a) ==> JournalHas(Step(s, e).db, DbCommitted, a)
  {
    AttemptsGrow(s, e, a);
    CrashAtomicity.PersistedMarks(s, e, a);
    StepAdvances(s, e);
    hide Step, Inv;
  }

  lemma OpensAtStart(s: Sys, e: Event, a: AttemptId)
    requires Inv(s) && NoRequest(e) && Filed(s.db, a) && !(e.Advance? && e.a == a)
    requires a in s.ops ==> Undecided(s.ops[a]) || JournalHas(s.db, DbCommitted, a)
    ensures a in Step(s, e).ops ==> Undecided(Step(s, e).ops[a]) || JournalHas(s.db, DbCommitted, a)
  {
    if a in Step(s, e).ops { OpsMove(s, e, a); }
    hide Step, Inv;
  }

  lemma StaysActive(s: Sys, e: Event, a: AttemptId)
    requires Inv(s) && a in s.db.attempts && s.db.attempts[a].state == Active && !(e.Advance? && e.a == a)
    ensures a in Step(s, e).db.attempts && Step(s, e).db.attempts[a].state == Active
  {
    StepDb(s, e);
    if CallOf(s, e).Some? {
      CallsAreAllowed(s, e);
      Journal.ExecJournal(s.db, CallOf(s, e).value);
    }
    hide Step, Inv, CallOf, Exec, OpEdit;
  }

  lemma OutsideKeepsGeneration(s: Sys, e: Event, c: CheckpointId, b: AttemptId)
    requires Inv(s) && c in s.db.checkpoints && CrashAtomicity.Ready(s.db.checkpoints[c]) && Holder(s, b, c)
    requires !(e.Advance? && e.a == b)
    ensures c in Step(s, e).db.checkpoints
    ensures Step(s, e).db.checkpoints[c].workload == s.db.checkpoints[c].workload
    ensures Step(s, e).db.checkpoints[c].workloadGeneration == s.db.checkpoints[c].workloadGeneration
  {
    assert Journal.Inv(s);
    hide Step, CallOf, Inv, OpCall, OutsideCall, RowsAfter, Exec;
    StepDb(s, e);
    StepKeepsRows(s, e);
    if CallOf(s, e).Some? {
      CallsAreAllowed(s, e);
      ExecRows(s.db, CallOf(s, e).value);
      OthersKeepGeneration(s, Caller(e), CallOf(s, e).value, c, b);
    }
  }

  lemma OthersKeepGeneration(s: Sys, a: AttemptId, call: Call, c: CheckpointId, b: AttemptId)
    requires Inv(s) && c in s.db.checkpoints && CrashAtomicity.Ready(s.db.checkpoints[c]) && Holder(s, b, c)
    requires (a != b && a in s.ops && OpCall(a, s.ops[a], call)) || OutsideCall(call)
    ensures c in RowsAfter(s.db, call) ==>
              RowsAfter(s.db, call)[c].workloadGeneration == s.db.checkpoints[c].workloadGeneration
  {
    hide Inv, OpCall, OutsideCall, RowsAfter, Edit, CaptureCommit, RestoreCommit;
    if a in s.ops && a != b && CheckpointOf(s.ops[a]) == c { CrashAtomicity.NotTheirs(s, a, c, b); }
    CrashAtomicity.OnlyRetirements(s, a, call, c);
    if c in RowsAfter(s.db, call) { Availability.RowAt(s.db, call, c); }
    if call.EditRow? && call.c == c && EditTx(s.db.checkpoints, c, call.edit).Ok? {
      EditsKeepGeneration(s.db.checkpoints[c], call.edit);
    }
  }

  // ---------------- the attempt's own recovery ----------------

  // A reading or failing step changes no table, and the attempt can be tried again.
  lemma IdleStepsKeepSalvable(s: Sys, a: AttemptId, ans: Answer)
    requires Journal.Inv(s) && CrashAtomicity.Durable(s.db, a) && Salvable(s, a) && !JournalHas(s.db, DbCommitted, a)
    requires a in s.ops && (s.ops[a].kpc == KCommit || s.ops[a].kpc == KFail ==> ans.fault)
    ensures Salvable(Step(s, Advance(a, ans)), a)
  {
    assert Journal.At(s, a);
    assert CapturePersisted in Journal.MarksOf(s.db, a) && DbCommitted !in Journal.MarksOf(s.db, a);
    assert s.db.checkpoints[s.db.attempts[a].checkpoint].lifecycle == L.Persisting;
    var s' := Step(s, Advance(a, ans));
    assert s'.db == s.db && (a in s'.ops ==> Undecided(s'.ops[a])) by {
      hide Journal.LocalOp, CrashAtomicity.Publishable, CrashAtomicity.Durable;
    }
    hide Journal.Inv, Step, CrashAtomicity.Publishable;
  }

  // The commit call succeeds unless it fails on the way.
  lemma CommitIsSafe(s: Sys, a: AttemptId, ans: Answer)
    requires Inv(s) && CrashAtomicity.DurableInv(s) && Salvable(s, a) && !JournalHas(s.db, DbCommitted, a)
    requires a in s.ops && s.ops[a].kpc == KCommit && !ans.fault
    ensures JournalHas(Step(s, Advance(a, ans)).db, DbCommitted, a)
  {
    var c := s.db.attempts[a].checkpoint;
    assert CrashAtomicity.Durable(s.db, a) && CrashAtomicity.Homed(s.db, c);
    hide Inv, CrashAtomicity.DurableInv, Step, CaptureCommit, Exec, CallOf, CrashAtomicity.Publishable,
      CrashAtomicity.Durable;
    CommitsOwn(s, a, ans);
    CrashAtomicity.CommitSucceedsIff(s.db, a);
    CrashAtomicity.CommitPublishes(s.db, c, a);
    CommitReplies(s.db, c, a);
    AdvanceCall(s, a, ans);
    StepDb(s, Advance(a, ans));
  }

  lemma CommitsOwn(s: Sys, a: AttemptId, ans: Answer)
    requires Journal.Inv(s) && a in s.ops && s.ops[a].RecoverCapture? && s.ops[a].kpc == KCommit
    ensures a in s.db.attempts && ActionOf(a, s.ops[a], ans) == Ask(CommitCapture(s.db.attempts[a].checkpoint, a))
  {
    assert Journal.At(s, a);
  }

  lemma StepKeepsSalvable(s: Sys, e: Event, a: AttemptId)
    requires Inv(s) && CrashAtomicity.DurableInv(s) && OnlyRecoveries(s) && NoRequest(e) && Salvable(s, a)
    requires !Rejects(s, e, a)
    ensures Salvable(Step(s, e), a)
  {
    assert Journal.Inv(s) && CrashAtomicity.Durable(s.db, a);
    hide Inv, CrashAtomicity.DurableInv, CrashAtomicity.Durable, Step, CrashAtomicity.Publishable, OnlyRecoveries;
    if !(e.Advance? && e.a == a && a in s.ops) {
      if e.Advance? && e.a == a { StepWithout(s, e); } else { OthersKeepSalvable(s, e, a); }
    } else if JournalHas(s.db, DbCommitted, a) {
      StepKeepsFiled(s, e, a);
    } else if s.ops[a].kpc == KCommit && !e.ans.fault {
      StepKeepsFiled(s, e, a);
      CommitIsSafe(s, a, e.ans);
    } else {
      IdleStepsKeepSalvable(s, a, e.ans);
    }
  }

  // Only a failing or refused commit call leads to a rejection.
  lemma WhatRejects(op: Op, op': Op, db: Db, a: AttemptId, ans: Answer)
    requires Moves(op, op', db, a, ans) && op.RecoverCapture? && op'.RecoverCapture? && op'.kpc == KFail
    ensures op.kpc == KCommit && (ans.fault || CaptureCommit(db, op.c, a).Err?)
  {
    hide CaptureCommit;
  }

  lemma CommitIsNotRefused(s: Sys, a: AttemptId)
    requires Journal.Inv(s) && CrashAtomicity.DurableInv(s) && Salvable(s, a)
    requires a in s.ops && s.ops[a].RecoverCapture? && s.ops[a].kpc == KCommit
    ensures CaptureCommit(s.db, s.ops[a].c, a).Ok?
  {
    assert Journal.At(s, a) && CrashAtomicity.Durable(s.db, a);
    assert DbCommitted !in Journal.MarksOf(s.db, a) && CrashAtomicity.Homed(s.db, s.db.attempts[a].checkpoint);
    hide CrashAtomicity.DurableInv, CaptureCommit, CrashAtomicity.Publishable;
    CrashAtomicity.CommitSucceedsIff(s.db, a);
  }

  lemma StepKeepsCalm(s: Sys, e: Event, a: AttemptId)
    requires Inv(s) && CrashAtomicity.DurableInv(s) && OnlyRecoveries(s) && Salvable(s, a) && Calm(s, a)
    requires !CommitFaults(s, e, a)
    ensures Calm(Step(s, e), a)
  {
    var s' := Step(s, e);
    if a in s'.ops && s'.ops[a].RecoverCapture? && s'.ops[a].kpc == KFail {
      OpsMove(s, e, a);
      hide Step, Inv, CrashAtomicity.DurableInv, Moves, CaptureCommit, Salvable;
      MovesKeepCheckpoint(s.ops[a], s'.ops[a], s.db, a, e.ans);
      WhatRejects(s.ops[a], s'.ops[a], s.db, a, e.ans);
      CommitIsNotRefused(s, a);
    }
  }

  // ---------------- a rejected capture ----------------

  lemma RejectionWrites(s: Sys, e: Event, a: AttemptId)
    requires Rejects(s, e, a) && s.ops[a].c in s.db.checkpoints
    ensures var c := s.ops[a].c;
            Step(s, e).db ==
            s.db.(checkpoints :=
              s.db.checkpoints[c := s.db.checkpoints[c].(lifecycle := L.Failed, integrity := Corrupt)])
  {}

  lemma RejectionLoses(s: Sys, e: Event, a: AttemptId)
    requires Inv(s) && CrashAtomicity.DurableInv(s) && Salvable(s, a) && Rejects(s, e, a)
    ensures Lost(Step(s, e).db, a)
  {
    assert Journal.At(s, a) && CrashAtomicity.Durable(s.db, a);
    assert DbCommitted !in Journal.MarksOf(s.db, a);
    hide Inv, CrashAtomicity.DurableInv, CrashAtomicity.Publishable, Step;
    RejectionWrites(s, e, a);
  }

  // A failed row of a persisted, uncommitted capture stays failed, whatever comes.
  lemma StepKeepsLost(s: Sys, e: Event, a: AttemptId)
    requires Inv(s) && CrashAtomicity.DurableInv(s) && Lost(s.db, a)
    ensures Lost(Step(s, e).db, a) && Step(s, e).db.attempts[a].checkpoint == s.db.attempts[a].checkpoint
  {
    assert CrashAtomicity.Durable(s.db, a) && Journal.Inv(s);
    hide Inv, CrashAtomicity.DurableInv, Step, CallOf, Exec, OpCall, OutsideCall, RowsAfter, CaptureCommit;
    StepKeepsFiled(s, e, a);
    StepDb(s, e);
    if CallOf(s, e).Some? {
      var c, call := s.db.attempts[a].checkpoint, CallOf(s, e).value;
      CallsAreAllowed(s, e);
      ExecRows(s.db, call);
      FailedRefused(s.db, c);
      OwnersCommitTheirOwn(s, Caller(e), call, c);
      FailedStays(s, Caller(e), call, c);
    }
  }

  lemma FailedRefused(db: Db, c: CheckpointId)
    requires c in db.checkpoints && db.checkpoints[c].lifecycle == L.Failed
    ensures forall b :: CaptureCommit(db, c, b).Err?
  {}

  lemma EditKeepsFailed(row: Checkpoint, e: RowEdit)
    requires Edit(row, e).Ok? && row.lifecycle == L.Failed && !e.Overwrite?
    requires e.SetLifecycle? ==> e.target == L.Failed
    ensures Edit(row, e).value.lifecycle == L.Failed
  {}

  lemma FailedStays(s: Sys, a: AttemptId, call: Call, c: CheckpointId)
    requires Inv(s) && c in s.db.checkpoints && s.db.checkpoints[c].lifecycle == L.Failed
    requires (a in s.ops && OpCall(a, s.ops[a], call)) || OutsideCall(call)
    requires var b := s.db.checkpoints[c].attempt;
             JournalHas(s.db, CapturePersisted, b) && !JournalHas(s.db, DbCommitted, b)
    ensures c in RowsAfter(s.db, call) && RowsAfter(s.db, call)[c].lifecycle == L.Failed
  {
    if call.EditRow? && call.c == c {
      hide Inv, OpCall, OutsideCall, Edit;
      CrashAtomicity.EditsWhilePersisted(s, a, c, call.edit);
      if EditTx(s.db.checkpoints, c, call.edit).Ok? { EditKeepsFailed(s.db.checkpoints[c], call.edit); }
    } else {
      FailedRefused(s.db, c);
      hide *;
      LifecycleAt(s.db, call, c);
      CrashAtomicity.RestoresNeedRestoring(s.db, call, c);
    }
  }

  lemma {:induction false} RunKeepsLost(s: Sys, events: seq<Event>, a: AttemptId)
    requires Inv(s) && CrashAtomicity.DurableInv(s) && Lost(s.db, a)
    ensures Lost(Run(s, events).db, a) && Run(s, events).db.attempts[a].checkpoint == s.db.attempts[a].checkpoint
    decreases |events|
  {
    if events != [] {
      var prefix, last := events[..|events| - 1], events[|events| - 1];
      RunKeepsLost(s, prefix, a);
      CrashAtomicity.RunKeepsDurable(s, prefix);
      hide Inv, CrashAtomicity.DurableInv, Step;
      StepKeepsLost(Run(s, prefix), last, a);
    }
  }

  // ---------------- runs without requests ----------------

  // A rejection loses the capture, and nothing else does.
  lemma {:induction false} RestartsDecide(s: Sys, events: seq<Event>, a: AttemptId)
    requires Inv(s) && CrashAtomicity.DurableInv(s) && OnlyRecoveries(s) && Salvable(s, a)
    requires forall e :: e in events ==> NoRequest(e)
    ensures var t := Run(s, events);
            Inv(t) && CrashAtomicity.DurableInv(t) && OnlyRecoveries(t) && Filed(t.db, a)
            && Home(t.db, a) == Home(s.db, a)
            && if RejectedIn(s, events, a) then Lost(t.db, a) else Salvable(t, a)
    decreases |events|
  {
    if events != [] {
      var prefix, last := events[..|events| - 1], events[|events| - 1];
      var t := Run(s, prefix);
      RestartsDecide(s, prefix, a);
      CrashAtomicity.RunKeepsDurable(s, events);
      hide Inv, CrashAtomicity.DurableInv, Step, OnlyRecoveries, Salvable, Lost, Rejects;
      RecoveriesStay(t, last);
      AttemptsGrow(t, last, a);
      StepKeepsFiled(t, last, a);
      if RejectedIn(s, prefix, a) { StepKeepsLost(t, last, a); }
      else if Rejects(t, last, a) { RejectionLoses(t, last, a); }
      else { StepKeepsSalvable(t, last, a); }
    }
  }

  // No rejection without a failing commit call before it.
  lemma {:induction false} RejectionTakesAFault(s: Sys, events: seq<Event>, a: AttemptId)
    requires Inv(s) && CrashAtomicity.DurableInv(s) && OnlyRecoveries(s) && Salvable(s, a) && Calm(s, a)
    requires (forall e :: e in events ==> NoRequest(e)) && !CommitFaultsIn(s, events, a)
    ensures !RejectedIn(s, events, a) && Calm(Run(s, events), a)
    decreases |events|
  {
    if events != [] {
      var prefix, last := events[..|events| - 1], events[|events| - 1];
      RejectionTakesAFault(s, prefix, a);
      RestartsDecide(s, prefix, a);
      hide Inv, CrashAtomicity.DurableInv, Step, OnlyRecoveries, Salvable, CommitFaults;
      StepKeepsCalm(Run(s, prefix), last, a);
    }
  }

  // ---------------- the pass that comes through ----------------

  lemma {:induction false} PassIsUndisturbed(keys: seq<AttemptId>)
    ensures forall e :: e in PassEvents(keys) ==> NoRequest(e) && (e.Advance? ==> !e.ans.fault)
    decreases |keys|
  {
    if keys != [] { PassIsUndisturbed(keys[..|keys| - 1]); }
  }

  lemma {:induction false} Undisturbed(s: Sys, events: seq<Event>, a: AttemptId)
    requires forall e :: e in events && e.Advance? ==> !e.ans.fault
    ensures !CommitFaultsIn(s, events, a)
    decreases |events|
  {
    if events != [] { Undisturbed(s, events[..|events| - 1], a); }
  }

  lemma ClosedIsCommitted(s: Sys, a: AttemptId)
    requires Inv(s) && CrashAtomicity.DurableInv(s) && Salvable(s, a) && s.db.attempts[a].state != Active
    ensures JournalHas(s.db, DbCommitted, a) && Published(s.db, s.db.attempts[a].checkpoint)
  {
    assert CrashAtomicity.Durable(s.db, a);
    assert AnchoredRow(s.db, s.db.attempts[a].checkpoint);
    hide Inv, CrashAtomicity.DurableInv;
  }

  // Once the pass over every ACTIVE attempt is through, what was salvable is committed.
  lemma PassCommits(s: Sys, a: AttemptId, keys: seq<AttemptId>)
    requires Inv(s) && CrashAtomicity.DurableInv(s) && s.ops == map[] && Salvable(s, a)
    requires ActiveKeys(s.db, keys) && ListsActive(s.db, keys)
    ensures (forall b :: b in keys ==> b in s.db.attempts) && ReconciledAll(s.db, keys).1.Ok?
    ensures JournalHas(ReconciledAll(s.db, keys).0, DbCommitted, a)
    ensures Published(ReconciledAll(s.db, keys).0, s.db.attempts[a].checkpoint)
  {
    var u := Run(s, PassEvents(keys));
    PassIsARun(s, keys);
    PassIsUndisturbed(keys);
    Undisturbed(s, PassEvents(keys), a);
    RejectionTakesAFault(s, PassEvents(keys), a);
    RestartsDecide(s, PassEvents(keys), a);
    hide Inv, CrashAtomicity.DurableInv, OnlyRecoveries, Run;
    AllAreClosed(s.db, keys);
    ClosedIsCommitted(u, a);
  }

  lemma PassLeavesLost(s: Sys, a: AttemptId, keys: seq<AttemptId>)
    requires Inv(s) && CrashAtomicity.DurableInv(s) && Lost(s.db, a) && ActiveKeys(s.db, keys)
    ensures (forall b :: b in keys ==> b in s.db.attempts) && ReconciledAll(s.db, keys).1.Ok?
    ensures !JournalHas(ReconciledAll(s.db, keys).0, DbCommitted, a)
    ensures !Published(ReconciledAll(s.db, keys).0, s.db.attempts[a].checkpoint)
  {
    hide Inv, CrashAtomicity.DurableInv, Run, ReconciledAll, ActiveKeys;
    PassIsARun(s, keys);
    RunKeepsLost(s, PassEvents(keys), a);
  }

  // ---------------- a crash, restarts and a pass ----------------

  // A crash of a persisted capture before its cleanup order can be made good.
  lemma CrashIsSalvable(s: Sys, a: AttemptId)
    requires Inv(s) && CrashAtomicity.DurableInv(s) && AllCopied(s) && AllAbortReady(s)
    requires a in s.ops && BeforeCleanup(s.ops[a]) && JournalHas(s.db, CapturePersisted, a)
    ensures Salvable(s.(ops := map[]), a) && s.db.attempts[a].checkpoint == s.ops[a].cplan.checkpoint
  {
    hide Inv, CrashAtomicity.DurableInv, AllCopied, AllAbortReady, CrashAtomicity.Publishable;
    LiveIsFiled(s, a);
    SurvivorIsPublishable(s, a);
    if s.db.attempts[a].state != Active { FinishedIsCommitted(s, a); }
  }

  // Restarted and salvable, with the directory in place.
  ghost predicate Restarted(t: Sys, a: AttemptId, node: NodeName, c: CheckpointId) {
    Inv(t) && CrashAtomicity.DurableInv(t) && t.ops == map[] && Salvable(t, a)
    && t.db.attempts[a].checkpoint == c && (node, c) in t.promoted
  }

  // A capture, persisted and not yet told to clean up, in a run with one request at a time.
  ghost predicate PersistedAlone(events: seq<Event>, a: AttemptId) {
    Availability.OneAtATime(EmptySys, events)
    && var s := Run(EmptySys, events);
       a in s.ops && BeforeCleanup(s.ops[a]) && JournalHas(s.db, CapturePersisted, a)
  }

  lemma CrashedIsRestarted(events: seq<Event>, a: AttemptId)
    requires PersistedAlone(events, a)
    ensures var s := Run(EmptySys, events);
            Restarted(Step(s, Crash), a, s.ops[a].cplan.node, s.ops[a].cplan.checkpoint)
  {
    var s := Run(EmptySys, events);
    assert Step(s, Crash) == s.(ops := map[]);
    CrashAtomicity.Reachable(events);
    RunKeepsCopied(events);
    RunKeepsAbortReady(events);
    hide Run, Step, Inv, CrashAtomicity.DurableInv, AllCopied, AllAbortReady;
    StepKeepsInv(s, Crash);
    CrashAtomicity.StepKeepsDurableInv(s, Crash);
    CrashIsSalvable(s, a);
    LiveDirectory(s, a);
  }

  // A pass over all ACTIVE attempts of t, begun at time `now`, commits attempt a and
  // publishes c; or does neither.
  ghost predicate PassPublishes(t: Db, now: nat, keys: seq<AttemptId>, a: AttemptId, c: CheckpointId, publishes: bool) {
    var db := ReservationsExpire(t, now);
    && (forall b :: b in keys ==> b in db.attempts) && ReconciledAll(db, keys).1.Ok?
    && (JournalHas(ReconciledAll(db, keys).0, DbCommitted, a) <==> publishes)
    && (Published(ReconciledAll(db, keys).0, c) <==> publishes)
  }

  lemma Idle(t: Sys, now: nat, a: AttemptId)
    requires Inv(t) && CrashAtomicity.DurableInv(t)
    ensures var u := t.(db := ReservationsExpire(t.db, now), ops := map[]);
            Inv(u) && CrashAtomicity.DurableInv(u) && (Salvable(t, a) ==> Salvable(u, a))
            && (Lost(t.db, a) ==> Lost(u.db, a))
  {
    var u := Step(t, ExpireReservations(now));
    assert u == t.(db := ReservationsExpire(t.db, now)) && Step(u, Crash) == u.(ops := map[]);
    hide Step, Inv, CrashAtomicity.DurableInv;
    StepKeepsInv(t, ExpireReservations(now));
    CrashAtomicity.StepKeepsDurableInv(t, ExpireReservations(now));
    StepKeepsInv(u, Crash);
    CrashAtomicity.StepKeepsDurableInv(u, Crash);
  }

  lemma RestartsThenPass(s: Sys, restarts: seq<Event>, now: nat, keys: seq<AttemptId>, a: AttemptId, node: NodeName,
        c: CheckpointId)
    requires Restarted(s, a, node, c) && forall e :: e in restarts ==> NoRequest(e)
    requires ActiveKeys(Run(s, restarts).db, keys) && ListsActive(Run(s, restarts).db, keys)
    ensures PassPublishes(Run(s, restarts).db, now, keys, a, c, !RejectedIn(s, restarts, a))
    ensures (node, c) in Run(s, restarts).promoted
  {
    var t := Run(s, restarts);
    RestartsDecide(s, restarts, a);
    RestartsKeepDirectory(s, restarts, node, c);
    hide Run, Inv, CrashAtomicity.DurableInv, OnlyRecoveries, Salvable, Lost, RejectedIn, ReconciledAll, Published;
    Idle(t, now, a);
    var u := t.(db := ReservationsExpire(t.db, now), ops := map[]);
    if RejectedIn(s, restarts, a) { PassLeavesLost(u, a, keys); } else { PassCommits(u, a, keys); }
  }

  // With requests one at a time, a persisted capture that has not been told to clean up
  // crashes; then come crashes, recoveries and failing store calls in any number, and
  // at last a pass over the ACTIVE attempts that comes through.  The capture is
  // committed exactly when its own recovery has not rejected it, and its node still has
  // the directory in any case.
  lemma PersistedCaptureSurvivesExactly(events: seq<Event>, a: AttemptId, restarts: seq<Event>, now: nat,
        keys: seq<AttemptId>)
    requires PersistedAlone(events, a) && forall e :: e in restarts ==> NoRequest(e)
    requires var t := Run(Run(EmptySys, events), [Crash] + restarts);
             ActiveKeys(t.db, keys) && ListsActive(t.db, keys)
    ensures var s := Run(EmptySys, events);
            var p, t := s.ops[a].cplan, Run(s, [Crash] + restarts);
            && PassPublishes(t.db, now, keys, a, p.checkpoint, !RejectedIn(Step(s, Crash), restarts, a))
            && (p.node, p.checkpoint) in t.promoted
  {
    var s := Run(EmptySys, events);
    CrashedIsRestarted(events, a);
    FirstStep(s, Crash, restarts);
    hide Run, Step, Restarted, PassPublishes;
    RestartsThenPass(Step(s, Crash), restarts, now, keys, a, s.ops[a].cplan.node, s.ops[a].cplan.checkpoint);
  }

  // In particular it is committed when no commit call of its own recovery fails.
  lemma PersistedCaptureSurvivesRestarts(events: seq<Event>, a: AttemptId, restarts: seq<Event>, now: nat,
        keys: seq<AttemptId>)
    requires PersistedAlone(events, a) && forall e :: e in restarts ==> NoRequest(e)
    requires !CommitFaultsIn(Step(Run(EmptySys, events), Crash), restarts, a)
    requires var t := Run(Run(EmptySys, events), [Crash] + restarts);
             ActiveKeys(t.db, keys) && ListsActive(t.db, keys)
    ensures var s := Run(EmptySys, events);
            var p, t := s.ops[a].cplan, Run(s, [Crash] + restarts);
            PassPublishes(t.db, now, keys, a, p.checkpoint, true) && (p.node, p.checkpoint) in t.promoted
  {
    var s := Run(EmptySys, events);
    CrashedIsRestarted(events, a);
    PersistedCaptureSurvivesExactly(events, a, restarts, now, keys);
    hide Run, Step, Inv, CrashAtomicity.DurableInv, Salvable, PassPublishes;
    RejectionTakesAFault(Step(s, Crash), restarts, a);
  }

  // Rejected, it never appears again, in any continuation whatever.
  lemma RejectedNeverAppears(events: seq<Event>, a: AttemptId, restarts: seq<Event>, after: seq<Event>)
    requires PersistedAlone(events, a) && forall e :: e in restarts ==> NoRequest(e)
    requires RejectedIn(Step(Run(EmptySys, events), Crash), restarts, a)
    ensures var s := Run(EmptySys, events);
            var t := Run(Run(s, [Crash] + restarts), after);
            && !JournalHas(t.db, DbCommitted, a)
            && s.ops[a].cplan.checkpoint in t.db.checkpoints
            && t.db.checkpoints[s.ops[a].cplan.checkpoint].lifecycle == L.Failed
  {
    var s := Run(EmptySys, events);
    CrashedIsRestarted(events, a);
    FirstStep(s, Crash, restarts);
    RestartsDecide(Step(s, Crash), restarts, a);
    hide Run, Step, Inv, CrashAtomicity.DurableInv, OnlyRecoveries, Salvable, RejectedIn;
    RunKeepsLost(Run(Step(s, Crash), restarts), after, a);
  }
}
