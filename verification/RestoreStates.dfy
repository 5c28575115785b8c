// Checkpoints a restore has left in a state they cannot leave: RESTORED, which is
// accepted for restore and never restored again, and the states under restore that
// recovery does not resolve.
module RestoreStates {
  import opened Wrappers
  import opened Tables
  import opened Operations
  import opened Steps
  import opened Anchors
  import opened Recovery
  import opened Restart
  import Availability
  import Progress
  import Journal
  import L = Lifecycle

  // The operation has read its row and its next call writes the lifecycle.
  predicate Writes(op: Op) {
    (op.Restore? && RestoreTarget(op.rpc).Some? && op.seen.Some?)
    || (op.RestoreAbort? && op.bpc == BAvailable) || (op.RecoverRestore? && op.qpc == QAvailable)
  }

  ghost predicate InState(s: Sys, c: CheckpointId, state: L.State) {
    c in s.db.checkpoints && s.db.checkpoints[c].lifecycle == state
  }

  // No live operation is about to write the lifecycle of c from an earlier reading.
  ghost predicate NoneWrites(s: Sys, c: CheckpointId) {
    forall a :: a in s.ops && CheckpointOf(s.ops[a]) == c ==> !Writes(s.ops[a])
  }

  // ---------------- one step ----------------

  // A restore writes a lifecycle only right after reading the row.
  lemma OnlyWritersWrite(a: AttemptId, op: Op, ans: Answer)
    requires IsRestore(op) && ActionOf(a, op, ans).Ask?
    ensures ActionOf(a, op, ans).call.EditRow? && ActionOf(a, op, ans).call.edit.SetLifecycle? ==> Writes(op)
  {}

  // What it has read was not RESTORED.
  lemma WritersHaveRead(op: Op, op': Op, db: Db, a: AttemptId, ans: Answer)
    requires Moves(op, op', db, a, ans) && Writes(op')
    ensures CheckpointOf(op) in db.checkpoints && db.checkpoints[CheckpointOf(op)].lifecycle != L.Restored
    ensures ActionOf(a, op, ans) == Ask(ReadCheckpoint(CheckpointOf(op))) && CheckpointOf(op') == CheckpointOf(op)
  {
    MovesKeepCheckpoint(op, op', db, a, ans);
    hide TargetMayClaim, CaptureAction, NextCapture, NextCaptureAbort, NextRecoverCapture;
    if op.Capture? || op.CaptureAbort? || op.RecoverCapture? || op.Retirement? {
      OthersNeverWrite(op, op', db, a, ans);
    }
  }

  lemma OthersNeverWrite(op: Op, op': Op, db: Db, a: AttemptId, ans: Answer)
    requires !IsRestore(op) && Moves(op, op', db, a, ans)
    ensures !Writes(op')
  {
    Availability.RestoresStay(Sys(db, map[a := op], {}, {}, {}, map[]), a, op', ans);
  }

  // On a committed row only restores set lifecycle states.
  lemma AnchoredEdits(s: Sys, a: AttemptId, c: CheckpointId, e: RowEdit)
    requires Inv(s) && c in s.db.checkpoints && s.db.checkpoints[c].lifecycle.IsAnchored()
    requires (a in s.ops && OpCall(a, s.ops[a], EditRow(c, e))) || OutsideCall(EditRow(c, e))
    ensures !e.Overwrite?
    ensures e.SetLifecycle? ==> a in s.ops && CheckpointOf(s.ops[a]) == c && IsRestore(s.ops[a])
  {
    if a in s.ops && OpCall(a, s.ops[a], EditRow(c, e)) {
      EditKeepsLifecycleClass(s, a, c, e);
      if e.SetLifecycle? && IsCapture(s.ops[a]) { UncommittedStates(s, a, c, e); }
    }
    hide Inv;
  }

  lemma EditKeepsState(row: Checkpoint, e: RowEdit)
    requires Edit(row, e).Ok? && !e.Overwrite? && !e.SetLifecycle? && row.lifecycle != L.Available
    ensures Edit(row, e).value.lifecycle == row.lifecycle
  {}

  lemma CommitsKeepState(db: Db, call: Call, c: CheckpointId)
    requires c in db.checkpoints && !(call.EditRow? && call.c == c)
    requires db.checkpoints[c].lifecycle == L.Restored || MidRestore(db.checkpoints[c])
    requires !(call.CommitRestore? && call.c == c && MidRestore(db.checkpoints[c]))
    ensures LifecycleAfter(db, call, c) == db.checkpoints[c].lifecycle
  {}

  // Which calls move a row that is RESTORED or under restore.
  lemma CallKeepsState(s: Sys, a: AttemptId, call: Call, c: CheckpointId)
    requires Inv(s) && c in s.db.checkpoints
             && (s.db.checkpoints[c].lifecycle == L.Restored || MidRestore(s.db.checkpoints[c]))
    requires (a in s.ops && OpCall(a, s.ops[a], call)) || OutsideCall(call)
    requires !(call.EditRow? && call.c == c && call.edit.SetLifecycle? && a in s.ops && IsRestore(s.ops[a]))
    requires !(call.CommitRestore? && call.c == c && MidRestore(s.db.checkpoints[c]))
    ensures c in RowsAfter(s.db, call) && RowsAfter(s.db, call)[c].lifecycle == s.db.checkpoints[c].lifecycle
  {
    hide Inv, OpCall, OutsideCall, RowsAfter, Edit;
    LifecycleAt(s.db, call, c);
    if call.EditRow? && call.c == c {
      AnchoredEdits(s, a, c, call.edit);
      if EditTx(s.db.checkpoints, c, call.edit).Ok? { EditKeepsState(s.db.checkpoints[c], call.edit); }
    } else {
      CommitsKeepState(s.db, call, c);
    }
  }

  // A row that is RESTORED moves only by such a write.
  lemma RestoredRowStays(s: Sys, e: Event, c: CheckpointId)
    requires Inv(s) && InState(s, c, L.Restored) && NoneWrites(s, c)
    ensures InState(Step(s, e), c, L.Restored)
  {
    StepDb(s, e);
    if CallOf(s, e).Some? {
      var call := CallOf(s, e).value;
      CallsAreAllowed(s, e);
      ExecRows(s.db, call);
      EditsComeFromWriters(s, e);
      hide Step, Inv, RowsAfter, OpCall, OutsideCall, Exec, CallOf, Writes;
      CallKeepsState(s, Caller(e), call, c);
    }
  }

  lemma EditsComeFromWriters(s: Sys, e: Event)
    requires Journal.Inv(s) && CallOf(s, e).Some?
    ensures var call := CallOf(s, e).value;
            call.EditRow? && call.edit.SetLifecycle? ==>
              e.Advance? && e.a in s.ops && CheckpointOf(s.ops[e.a]) == call.c
                && (IsRestore(s.ops[e.a]) ==> Writes(s.ops[e.a]))
  {
    CallsAreAllowed(s, e);
    if e.Advance? {
      AdvanceCallOf(s, e);
      if IsRestore(s.ops[e.a]) { OnlyWritersWrite(e.a, s.ops[e.a], e.ans); }
    }
    hide CallOf, ActionOf, Writes, OpEdit;
  }

  lemma AdvanceCallOf(s: Sys, e: Event)
    requires e.Advance? && CallOf(s, e).Some?
    ensures e.a in s.ops && ActionOf(e.a, s.ops[e.a], e.ans) == Ask(CallOf(s, e).value)
  {
    hide ActionOf;
  }

  lemma StepKeepsFinal(s: Sys, e: Event, c: CheckpointId)
    requires Inv(s) && InState(s, c, L.Restored) && NoneWrites(s, c)
    ensures InState(Step(s, e), c, L.Restored) && NoneWrites(Step(s, e), c)
  {
    RestoredRowStays(s, e, c);
    forall a | a in Step(s, e).ops && CheckpointOf(Step(s, e).ops[a]) == c ensures !Writes(Step(s, e).ops[a]) {
      var op' := Step(s, e).ops[a];
      OpsMove(s, e, a);
      if e.Advance? && e.a == a && Writes(op') { WritersHaveRead(s.ops[a], op', s.db, a, e.ans); }
      hide Step, Inv, Moves, MayCapture, MayRestore;
    }
  }

  lemma {:induction false} RunKeepsFinal(s: Sys, events: seq<Event>, c: CheckpointId)
    requires Inv(s) && InState(s, c, L.Restored) && NoneWrites(s, c)
    ensures InState(Run(s, events), c, L.Restored) && NoneWrites(Run(s, events), c)
    decreases |events|
  {
    if events != [] {
      var prefix, last := events[..|events| - 1], events[|events| - 1];
      RunKeepsFinal(s, prefix, c);
      RunKeepsInv(s, prefix);
      hide Inv, Step, InState, NoneWrites;
      StepKeepsFinal(Run(s, prefix), last, c);
    }
  }

  // ---------------- RESTORED is final ----------------

  ghost predicate AlwaysIn(s: Sys, c: CheckpointId, state: L.State) {
    forall after: seq<Event> :: InState(Run(s, after), c, state)
  }

  // A writer's next step takes the row out of RESTORED.
  lemma WriterMoves(s: Sys, a: AttemptId, c: CheckpointId)
    requires Inv(s) && InState(s, c, L.Restored) && a in s.ops && CheckpointOf(s.ops[a]) == c && Writes(s.ops[a])
    ensures !InState(Step(s, Advance(a, GOOD)), c, L.Restored)
  {
    hide Inv;
  }

  lemma OneStepRun(s: Sys, e: Event)
    ensures Run(s, [e]) == Step(s, e)
  {
    assert [e][..0] == [];
    hide Step;
  }

  // In any interleaving: a checkpoint that is RESTORED stays RESTORED in every
  // continuation, never under restore, available or retired again, exactly when no live
  // operation is about to write a lifecycle it has read earlier.
  lemma RestoredIsFinalExactly(events: seq<Event>, c: CheckpointId)
    requires InState(Run(EmptySys, events), c, L.Restored)
    ensures AlwaysIn(Run(EmptySys, events), c, L.Restored) <==> NoneWrites(Run(EmptySys, events), c)
  {
    EmptyInv();
    RunKeepsInv(EmptySys, events);
    var s := Run(EmptySys, events);
    hide Inv, Writes, Step;
    if NoneWrites(s, c) {
      forall after: seq<Event> ensures InState(Run(s, after), c, L.Restored) { RunKeepsFinal(s, after, c); }
    } else {
      var a :| a in s.ops && CheckpointOf(s.ops[a]) == c && Writes(s.ops[a]);
      WriterMoves(s, a, c);
      OneStepRun(s, Advance(a, GOOD));
      assert !InState(Run(s, [Advance(a, GOOD)]), c, L.Restored);
    }
  }

  // ---------------- one request at a time ----------------

  ghost predicate Current(s: Sys) {
    forall a :: a in s.ops && Writes(s.ops[a]) ==>
      CheckpointOf(s.ops[a]) in s.db.checkpoints && s.db.checkpoints[CheckpointOf(s.ops[a])].lifecycle != L.Restored
  }

  lemma ReadsChangeNothing(s: Sys, e: Event)
    requires e.Advance? && e.a in s.ops
    ensures ActionOf(e.a, s.ops[e.a], e.ans) == Ask(ReadCheckpoint(CheckpointOf(s.ops[e.a]))) ==> Step(s, e).db == s.db
  {
    StepDb(s, e);
    hide ActionOf, Step;
  }

  // Nothing outside the operations moves a lifecycle.
  lemma OutsideKeepsStates(s: Sys, e: Event, c: CheckpointId)
    requires Inv(s) && !e.Advance? && c in s.db.checkpoints
    ensures c in Step(s, e).db.checkpoints && Step(s, e).db.checkpoints[c].lifecycle == s.db.checkpoints[c].lifecycle
  {
    StepDb(s, e);
    if CallOf(s, e).Some? {
      CallsAreAllowed(s, e);
      ExecRows(s.db, CallOf(s, e).value);
      LifecycleAt(s.db, CallOf(s, e).value, c);
      hide Step, Inv, CallOf, RowsAfter, Exec;
      OutsideCallKeepsStates(s.db, CallOf(s, e).value, c);
    }
  }

  lemma OutsideCallKeepsStates(db: Db, call: Call, c: CheckpointId)
    requires OutsideCall(call) && c in db.checkpoints
    ensures LifecycleAfter(db, call, c) == db.checkpoints[c].lifecycle
  {}

  lemma StepKeepsCurrent(s: Sys, e: Event)
    requires Inv(s) && Availability.Alone(s) && Current(s) && (Availability.Begins(e) ==> s.ops == map[])
    ensures Current(Step(s, e))
  {
    var s' := Step(s, e);
    forall a | a in s'.ops && Writes(s'.ops[a])
      ensures CheckpointOf(s'.ops[a]) in s'.db.checkpoints
              && s'.db.checkpoints[CheckpointOf(s'.ops[a])].lifecycle != L.Restored
    {
      OpsMove(s, e, a);
      if e.Advance? {
        if e.a == a {
          WritersHaveRead(s.ops[a], s'.ops[a], s.db, a, e.ans);
          ReadsChangeNothing(s, e);
        } else {
          StepWithout(s, e);
        }
      } else {
        OutsideKeepsStates(s, e, CheckpointOf(s'.ops[a]));
      }
      hide Step, Inv, Moves, ActionOf, MayCapture, MayRestore, Writes;
    }
  }

  lemma {:induction false} RunKeepsCurrent(events: seq<Event>)
    requires Availability.OneAtATime(EmptySys, events)
    ensures Current(Run(EmptySys, events))
    decreases |events|
  {
    if events != [] {
      var prefix, last := events[..|events| - 1], events[|events| - 1];
      RunKeepsCurrent(prefix);
      EmptyInv();
      RunKeepsInv(EmptySys, prefix);
      assert Availability.Alone(EmptySys);
      Availability.RunKeepsAlone(EmptySys, prefix);
      hide Inv, Step, Current, Availability.Alone;
      StepKeepsCurrent(Run(EmptySys, prefix), last);
    }
  }

  // When requests have run one at a time so far, RESTORED is final whatever comes
  // after, concurrent requests included.
  lemma RestoredIsFinal(events: seq<Event>, after: seq<Event>, c: CheckpointId)
    requires Availability.OneAtATime(EmptySys, events) && InState(Run(EmptySys, events), c, L.Restored)
    ensures InState(Run(Run(EmptySys, events), after), c, L.Restored)
  {
    RunKeepsCurrent(events);
    EmptyInv();
    RunKeepsInv(EmptySys, events);
    hide Inv, Writes, Run;
    RunKeepsFinal(Run(EmptySys, events), after, c);
  }

  // ---------------- restores of a RESTORED checkpoint ----------------

  // A restore gains its commit marker only by committing on its own checkpoint.
  lemma CommitMarkerOf(s: Sys, e: Event, b: AttemptId)
    requires Inv(s) && JournalHas(Step(s, e).db, GenerationCommitted, b) && !JournalHas(s.db, GenerationCommitted, b)
    ensures b in s.db.attempts
    ensures var c := s.db.attempts[b].checkpoint;
            c in s.db.checkpoints && s.db.checkpoints[c].lifecycle.CanTransition(L.Restored)
  {
    assert Journal.Inv(s);
    hide Step, Inv, CallOf, Exec, CaptureCommit, Journal.Inv, OutsideCall, OpEdit;
    StepDb(s, e);
    var call := CallOf(s, e).value;
    CallsAreAllowed(s, e);
    Journal.ExecJournal(s.db, call);
    CommitReply(s.db, call);
    CommitterRuns(s, b);
  }

  lemma CommitterRuns(s: Sys, b: AttemptId)
    requires Journal.Inv(s) && b in s.ops && s.ops[b].Restore? && s.ops[b].rpc == RCommit
    ensures b in s.db.attempts && s.db.attempts[b].checkpoint == s.ops[b].rplan.checkpoint
  {
    assert Journal.At(s, b);
  }

  lemma CommitReply(db: Db, call: Call)
    ensures call.CommitRestore? && Exec(db, call).1.Done? ==>
              call.c in db.checkpoints && db.checkpoints[call.c].lifecycle.CanTransition(L.Restored)
  {}

  lemma NoCommitInStep(s: Sys, e: Event, c: CheckpointId, b: AttemptId)
    requires Inv(s) && InState(s, c, L.Restored)
    requires b in Step(s, e).db.attempts && Step(s, e).db.attempts[b].checkpoint == c
    requires b in s.db.attempts ==> !JournalHas(s.db, GenerationCommitted, b)
    ensures !JournalHas(Step(s, e).db, GenerationCommitted, b)
  {
    assert Journal.Inv(s) && c in s.db.checkpoints && !s.db.checkpoints[c].lifecycle.CanTransition(L.Restored);
    hide *;
    AttemptsGrow(s, e, b);
    if b !in s.db.attempts { UnbegunIsUnmarked(s, b); }
    if JournalHas(Step(s, e).db, GenerationCommitted, b) { CommitMarkerOf(s, e, b); }
  }

  lemma {:induction false} NoCommitOnRestored(s: Sys, events: seq<Event>, c: CheckpointId, b: AttemptId)
    requires Inv(s) && InState(s, c, L.Restored) && NoneWrites(s, c) && !JournalHas(s.db, GenerationCommitted, b)
    requires b in Run(s, events).db.attempts && Run(s, events).db.attempts[b].checkpoint == c
    ensures !JournalHas(Run(s, events).db, GenerationCommitted, b)
    decreases |events|
  {
    if events != [] {
      var prefix, last := events[..|events| - 1], events[|events| - 1];
      var t := Run(s, prefix);
      RunKeepsInv(s, prefix);
      assert Run(s, events) == Step(t, last);
      hide Inv, Step, NoneWrites, Run, InState;
      RunKeepsFinal(s, prefix, c);
      if b in t.db.attempts {
        AttemptKeepsCheckpoint(t, last, b);
        NoCommitOnRestored(s, prefix, c, b);
      }
      NoCommitInStep(t, last, c, b);
    }
  }

  lemma AttemptKeepsCheckpoint(s: Sys, e: Event, b: AttemptId)
    requires Inv(s) && b in s.db.attempts
    ensures b in Step(s, e).db.attempts && Step(s, e).db.attempts[b].checkpoint == s.db.attempts[b].checkpoint
  {
    AttemptsGrow(s, e, b);
    hide Inv, Step;
  }

  lemma UnbegunIsUnmarked(s: Sys, b: AttemptId)
    requires Journal.Inv(s) && b !in s.db.attempts
    ensures !JournalHas(s.db, GenerationCommitted, b)
  {
    assert Journal.At(s, b);
    if b in s.ops { Journal.DeadIsLocal(Journal.MarksOf(s.db, b), Journal.AttemptOf(s.db, b), s.ops[b]); }
    assert GenerationCommitted !in Journal.MarksOf(s.db, b);
  }

  // Every restore of it that had not committed by then, whether it has begun or not,
  // never commits: once finished it is FAILED, in any continuation.
  lemma RestoresOfRestoredFail(events: seq<Event>, after: seq<Event>, c: CheckpointId, b: AttemptId)
    requires Availability.OneAtATime(EmptySys, events) && InState(Run(EmptySys, events), c, L.Restored)
    requires !JournalHas(Run(EmptySys, events).db, GenerationCommitted, b)
    requires var t := Run(Run(EmptySys, events), after);
             b in t.db.attempts && t.db.attempts[b].checkpoint == c && t.db.attempts[b].kind != CaptureKind
    ensures var t := Run(Run(EmptySys, events), after);
            !JournalHas(t.db, GenerationCommitted, b)
            && (t.db.attempts[b].state == Active || t.db.attempts[b].state == AttemptFailed)
  {
    var s := Run(EmptySys, events);
    RunKeepsCurrent(events);
    EmptyInv();
    RunKeepsInv(EmptySys, events);
    RunKeepsInv(s, after);
    hide Inv, Writes, Run;
    NoCommitOnRestored(s, after, c, b);
    UnmarkedVerdict(Run(s, after), b);
  }

  lemma UnmarkedVerdict(s: Sys, b: AttemptId)
    requires Journal.Inv(s) && b in s.db.attempts && s.db.attempts[b].kind != CaptureKind
    requires !JournalHas(s.db, GenerationCommitted, b)
    ensures s.db.attempts[b].state == Active || s.db.attempts[b].state == AttemptFailed
  {
    assert Journal.At(s, b);
    if b in s.ops { Journal.DeadIsLocal(Journal.MarksOf(s.db, b), Journal.AttemptOf(s.db, b), s.ops[b]); }
    assert GenerationCommitted !in Journal.MarksOf(s.db, b);
  }

  // ---------------- left under restore ----------------

  // An ACTIVE restore of c that recovery would clean up after.
  ghost predicate Evidence(db: Db, c: CheckpointId, b: AttemptId) {
    b in db.attempts && db.attempts[b].kind != CaptureKind && db.attempts[b].checkpoint == c
      && db.attempts[b].state == Active
    && JournalHas(db, ComponentsRestored, b) && !JournalHas(db, GenerationCommitted, b)
  }

  ghost predicate Abandoned(s: Sys, c: CheckpointId) {
    && BeingRestored(s.db, c)
    && (forall a :: a in s.ops && CheckpointOf(s.ops[a]) == c ==> !s.ops[a].Restore? && !s.ops[a].RestoreAbort?)
  }

  ghost predicate NoEvidence(db: Db, c: CheckpointId) {
    forall b :: !Evidence(db, c, b)
  }

  lemma OnlyRestoresLogComponents(a: AttemptId, op: Op, ans: Answer, b: AttemptId)
    ensures ActionOf(a, op, ans) == Ask(Log(ComponentsRestored, b)) ==> op.Restore? && op.rpc == RLogRestored && a == b
  {
    hide Scaffold, PersistedRow;
  }

  lemma ComponentsMarks(s: Sys, e: Event, b: AttemptId)
    requires Journal.Inv(s)
    ensures JournalHas(s.db, GenerationCommitted, b) ==> JournalHas(Step(s, e).db, GenerationCommitted, b)
    ensures JournalHas(Step(s, e).db, ComponentsRestored, b) && !JournalHas(s.db, ComponentsRestored, b) ==>
              e.Advance? && e.a == b && b in s.ops && s.ops[b].Restore? && s.ops[b].rpc == RLogRestored
    ensures b in s.db.attempts && b in Step(s, e).db.attempts && Step(s, e).db.attempts[b].state == Active ==>
              s.db.attempts[b].state == Active
  {
    hide Step, Journal.Inv, CallOf, Exec, ActionOf, OutsideCall;
    StepDb(s, e);
    if CallOf(s, e).Some? {
      CallsAreAllowed(s, e);
      Journal.ExecJournal(s.db, CallOf(s, e).value);
      if e.Advance? {
        AdvanceCallOf(s, e);
        OnlyRestoresLogComponents(e.a, s.ops[e.a], e.ans, b);
      }
    }
  }

  lemma RestoresOwnCheckpoint(s: Sys, b: AttemptId)
    requires Journal.Inv(s) && b in s.ops && s.ops[b].Restore? && b in s.db.attempts
    ensures s.db.attempts[b].checkpoint == CheckpointOf(s.ops[b])
  {
    assert Journal.At(s, b);
  }

  lemma StepAddsNoEvidence(s: Sys, e: Event, c: CheckpointId, b: AttemptId)
    requires Inv(s) && Abandoned(s, c) && !Evidence(s.db, c, b)
    ensures !Evidence(Step(s, e).db, c, b)
  {
    assert Journal.Inv(s);
    hide Step, Inv, Journal.Inv, BeingRestored;
    AttemptsGrow(s, e, b);
    ComponentsMarks(s, e, b);
    if b in s.ops && s.ops[b].Restore? && b in s.db.attempts { RestoresOwnCheckpoint(s, b); }
  }

  // A recovery writes the row only on evidence.
  lemma WritersHaveEvidence(s: Sys, a: AttemptId)
    requires Journal.Inv(s) && a in s.ops && s.ops[a].RecoverRestore? && Writes(s.ops[a])
    ensures Evidence(s.db, CheckpointOf(s.ops[a]), a)
  {
    assert Journal.At(s, a);
    assert ComponentsRestored in Journal.MarksOf(s.db, a) && GenerationCommitted !in Journal.MarksOf(s.db, a);
  }

  lemma StepKeepsUnderRestore(s: Sys, e: Event, c: CheckpointId)
    requires Inv(s) && Abandoned(s, c) && NoEvidence(s.db, c)
    ensures c in Step(s, e).db.checkpoints && Step(s, e).db.checkpoints[c].lifecycle == s.db.checkpoints[c].lifecycle
  {
    StepDb(s, e);
    if CallOf(s, e).Some? {
      var call := CallOf(s, e).value;
      CallsAreAllowed(s, e);
      ExecRows(s.db, call);
      EditsComeFromWriters(s, e);
      if e.Advance? && s.ops[e.a].RecoverRestore? && Writes(s.ops[e.a]) { WritersHaveEvidence(s, e.a); }
      hide Step, Inv, RowsAfter, OutsideCall, Exec, CallOf, Writes, OpEdit, Evidence;
      CallKeepsState(s, Caller(e), call, c);
    }
  }

  lemma StepKeepsAbandoned(s: Sys, e: Event, c: CheckpointId)
    requires Inv(s) && Abandoned(s, c) && NoEvidence(s.db, c)
    ensures Abandoned(Step(s, e), c) && NoEvidence(Step(s, e).db, c)
  {
    hide Step, Inv, Evidence;
    StepKeepsUnderRestore(s, e, c);
    forall b ensures !Evidence(Step(s, e).db, c, b) { StepAddsNoEvidence(s, e, c, b); }
    forall a | a in Step(s, e).ops && CheckpointOf(Step(s, e).ops[a]) == c
      ensures !Step(s, e).ops[a].Restore? && !Step(s, e).ops[a].RestoreAbort?
    {
      hide Moves, MayCapture;
      OpsMove(s, e, a);
      if e.Advance? && e.a == a { MovesKeepKind(s.ops[a], Step(s, e).ops[a], s.db, a, e.ans); }
    }
  }

  lemma MovesKeepKind(op: Op, op': Op, db: Db, a: AttemptId, ans: Answer)
    requires Moves(op, op', db, a, ans)
    ensures CheckpointOf(op') == CheckpointOf(op)
    ensures op'.Restore? || op'.RestoreAbort? ==> op.Restore? || op.RestoreAbort?
  {
    MovesKeepCheckpoint(op, op', db, a, ans);
    var act := ActionOf(a, op, ans);
    var reply := if act.Ask? then Exec(db, act.call).1 else Done;
    if op.Capture? { CaptureMoves(op.cpc, op.cplan, op.seen, reply, ans); } else { RestoreMoves(op, reply, ans); }
    hide Exec, ActionOf, Next, Failing;
  }

  lemma {:induction false} RunKeepsAbandoned(s: Sys, events: seq<Event>, c: CheckpointId)
    requires Inv(s) && Abandoned(s, c) && NoEvidence(s.db, c)
    ensures Abandoned(Run(s, events), c) && NoEvidence(Run(s, events).db, c)
    decreases |events|
  {
    if events != [] {
      var prefix, last := events[..|events| - 1], events[|events| - 1];
      RunKeepsAbandoned(s, prefix, c);
      RunKeepsInv(s, prefix);
      hide Inv, Step, Abandoned, NoEvidence;
      StepKeepsAbandoned(Run(s, prefix), last, c);
    }
  }

  lemma EvidenceResolves(s: Sys, c: CheckpointId, b: AttemptId)
    requires BeingRestored(s.db, c) && Evidence(s.db, c, b)
    ensures !BeingRestored(Run(s, [Crash, BeginRecovery(b)] + Turns(b, CALLS)).db, c)
  {
    hide Recovered, Reconciled, Run;
    InterruptedRestore(s.db, b);
    RecoveryRefinesReconcile(s, b);
    RecoveredIsARun(s, b);
  }

  lemma SomeEvidenceResolves(s: Sys, c: CheckpointId) returns (after: seq<Event>)
    requires BeingRestored(s.db, c) && !NoEvidence(s.db, c)
    ensures !BeingRestored(Run(s, after).db, c)
  {
    hide Run, Evidence, BeingRestored;
    var b :| Evidence(s.db, c, b);
    EvidenceResolves(s, c, b);
    after := [Crash, BeginRecovery(b)] + Turns(b, CALLS);
  }

  lemma StaysUnderRestore(s: Sys, after: seq<Event>, c: CheckpointId)
    requires Inv(s) && Abandoned(s, c) && NoEvidence(s.db, c)
    ensures BeingRestored(Run(s, after).db, c)
  {
    hide Run, Inv, NoEvidence, BeingRestored;
    RunKeepsAbandoned(s, after, c);
    assert Abandoned(Run(s, after), c);
  }

  // After a crash, in any interleaving: a checkpoint left under restore, with no live
  // restore of its own, stays under restore in every continuation, accepted by no
  // restore request and retired by none, exactly when no ACTIVE attempt on it has its
  // components_restored entry without its commit marker.  A pass over the attempts
  // does not help: it resolves those with evidence only.
  lemma UnderRestoreForeverExactly(events: seq<Event>, c: CheckpointId)
    requires Abandoned(Run(EmptySys, events), c)
    ensures var s := Run(EmptySys, events);
            (forall after: seq<Event> :: BeingRestored(Run(s, after).db, c)) <==> NoEvidence(s.db, c)
  {
    var s := Run(EmptySys, events);
    assert BeingRestored(s.db, c);
    hide Inv, Evidence, Run, BeingRestored, Abandoned;
    EmptyInv();
    RunKeepsInv(EmptySys, events);
    if NoEvidence(s.db, c) {
      forall after: seq<Event> ensures BeingRestored(Run(s, after).db, c) { StaysUnderRestore(s, after, c); }
    } else {
      var after := SomeEvidenceResolves(s, c);
      assert !BeingRestored(Run(s, after).db, c);
    }
  }

  // ---------------- a restore request on a RESTORED checkpoint ----------------

  // t is where the request leaves s.
  ghost predicate LeftFailed(s: Sys, t: Sys, b: AttemptId) {
    && t.ops == map[] && t.db.checkpoints == s.db.checkpoints && t.db.workloads == s.db.workloads
    && (b in t.db.attempts ==> t.db.attempts[b].state == AttemptFailed)
  }

  // The request passes validation and is then refused by its first transition: left to
  // itself, it ends with its attempt FAILED, or without one, and changes no checkpoint.
  lemma RestoreOfRestoredAborts(s: Sys, b: AttemptId, p: RestorePlan)
    requires s.ops == map[] && MayRestore(s, b, p) && InState(s, p.checkpoint, L.Restored)
    ensures LeftFailed(s, Drive(Step(s, BeginRestore(b, p)), b, 10), b)
  {
    hide Drive;
    var s0 := Step(s, BeginRestore(b, p));
    var op0 := Restore(RCheckWorkload, p, None, 0, false);
    assert s0 == s.(ops := map[b := op0], tokens := s.tokens + {p.token});
    hide Step;
    var w := if p.workload in s.db.workloads then Some(s.db.workloads[p.workload]) else None;
    if w.Some? && TargetMayClaim(w.value, p.node, p.migration) {
      var op1 := Restore(RReserve, p, None, 0, false);
      Goes(s0, b, ReadWorkload(p.workload), s.db, WorkloadRow(w), op1, 10);
      ReservedRestoreAborts(s0.(ops := s0.ops[b := op1]), b, p);
    } else {
      Ends(s0, b, ReadWorkload(p.workload), s.db, WorkloadRow(w), 10);
    }
  }

  lemma ReservedRestoreAborts(s: Sys, b: AttemptId, p: RestorePlan)
    requires s.ops == map[b := Restore(RReserve, p, None, 0, false)] && InState(s, p.checkpoint, L.Restored)
    requires b !in s.db.attempts && !JournalHas(s.db, GenerationCommitted, b)
    ensures LeftFailed(s, Drive(s, b, 9), b)
  {
    hide Drive, Step;
    var tx := ReservationCreate(s.db, b, RestoreOf(p.checkpoint), p.expiresAt);
    if tx.Err? {
      Ends(s, b, Reserve(b, RestoreOf(p.checkpoint), p.expiresAt), s.db, Refused, 9);
    } else {
      var op2 := Restore(RBegin, p, None, 0, false);
      Goes(s, b, Reserve(b, RestoreOf(p.checkpoint), p.expiresAt), tx.value, Done, op2, 9);
      BegunRestoreAborts(s.(db := tx.value, ops := s.ops[b := op2]), b, p);
    }
  }

  lemma BegunRestoreAborts(s: Sys, b: AttemptId, p: RestorePlan)
    requires s.ops == map[b := Restore(RBegin, p, None, 0, false)] && InState(s, p.checkpoint, L.Restored)
    requires !JournalHas(s.db, GenerationCommitted, b)
    ensures LeftFailed(s, Drive(s, b, 8), b)
  {
    hide Drive, Step;
    var row := Attempt(if p.rollback then RollbackKind else RestoreKind, p.checkpoint, p.workload, p.node, Active);
    var db1 := AttemptBegin(s.db, b, row);
    var op1 := Restore(RLogReserved, p, None, 0, false);
    Goes(s, b, Begin(b, row), db1, Done, op1, 8);
    LoggedRestoreAborts(s.(db := db1, ops := s.ops[b := op1]), b, p);
  }

  lemma LoggedRestoreAborts(s: Sys, b: AttemptId, p: RestorePlan)
    requires s.ops == map[b := Restore(RLogReserved, p, None, 0, false)] && InState(s, p.checkpoint, L.Restored)
    requires !JournalHas(s.db, GenerationCommitted, b)
    ensures LeftFailed(s, Drive(s, b, 7), b)
  {
    hide Drive, Step;
    var db1 := JournalAppend(s.db, RestoreReserved, b);
    var op1 := Restore(RPending, p, None, 0, false);
    Goes(s, b, Log(RestoreReserved, b), db1, Done, op1, 7);
    RefusedRestoreAborts(s.(db := db1, ops := s.ops[b := op1]), b, p);
  }

  lemma RefusedRestoreAborts(s: Sys, b: AttemptId, p: RestorePlan)
    requires s.ops == map[b := Restore(RPending, p, None, 0, false)] && InState(s, p.checkpoint, L.Restored)
    requires !JournalHas(s.db, GenerationCommitted, b)
    ensures LeftFailed(s, Drive(s, b, 6), b)
  {
    hide Drive, Step, LeftFailed;
    var row := s.db.checkpoints[p.checkpoint];
    Goes(s, b, ReadCheckpoint(p.checkpoint), s.db, Row(Some(row)), RestoreAbort(BCheck, p), 6);
    var s1 := s.(ops := s.ops[b := RestoreAbort(BCheck, p)]);
    AbortChecks(s1, b, p);
    SameLeft(s1, s, Drive(s, b, 6), b);
  }

  lemma SameLeft(s1: Sys, s: Sys, t: Sys, b: AttemptId)
    requires s1.db == s.db
    ensures LeftFailed(s1, t, b) <==> LeftFailed(s, t, b)
  {}

  lemma AbortChecks(s: Sys, b: AttemptId, p: RestorePlan)
    requires s.ops == map[b := RestoreAbort(BCheck, p)] && InState(s, p.checkpoint, L.Restored)
    requires !JournalHas(s.db, GenerationCommitted, b)
    ensures LeftFailed(s, Drive(s, b, 5), b)
  {
    hide Drive, Step, LeftFailed;
    Goes(s, b, ReadMarker(GenerationCommitted, b), s.db, Flag(false), RestoreAbort(BNode, p), 5);
    var s1 := s.(ops := s.ops[b := RestoreAbort(BNode, p)]);
    Progress.OneOrder(s1, b, Work, RestoreAbort(BRead, p));
    Progress.DriveAppends(s1, b, 1, 3);
    var s2 := s1.(ops := s1.ops[b := RestoreAbort(BRead, p)]);
    AbortFinishes(s2, b, p);
    SameLeft(s2, s, Drive(s, b, 5), b);
  }

  lemma AbortFinishes(s: Sys, b: AttemptId, p: RestorePlan)
    requires s.ops == map[b := RestoreAbort(BRead, p)] && InState(s, p.checkpoint, L.Restored)
    ensures LeftFailed(s, Drive(s, b, 3), b)
  {
    hide Drive, Step;
    var row := s.db.checkpoints[p.checkpoint];
    Goes(s, b, ReadCheckpoint(p.checkpoint), s.db, Row(Some(row)), RestoreAbort(BFinish, p), 3);
    AbortCloses(s.(ops := s.ops[b := RestoreAbort(BFinish, p)]), b, p);
  }

  lemma AbortCloses(s: Sys, b: AttemptId, p: RestorePlan)
    requires s.ops == map[b := RestoreAbort(BFinish, p)]
    ensures LeftFailed(s, Drive(s, b, 2), b)
  {
    hide Drive, Step;
    var db1 := AttemptFinish(s.db, b, AttemptFailed);
    Goes(s, b, Finish(b, AttemptFailed), db1, Done, RestoreAbort(BRelease, p), 2);
    var s1 := s.(db := db1, ops := s.ops[b := RestoreAbort(BRelease, p)]);
    Ends(s1, b, Release(b), ReservationRelease(db1, b), Done, 1);
    assert s1.ops - {b} == map[];
  }
}
