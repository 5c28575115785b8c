// The physical half of crash atomicity: requests running one at a time, the committed
// directory a capture has promoted is on its node as long as recovery may publish the
// checkpoint, up to the moment an abort has the directory deleted.
module Promotion {
  import opened Wrappers
  import opened Tables
  import opened Operations
  import opened Steps
  import opened RowInvariants
  import opened Anchors
  import opened Recovery
  import opened Restart
  import Availability
  import Conservation
  import CrashAtomicity
  import Journal
  import L = Lifecycle

  predicate AfterPromote(pc: CapturePc) {
    pc == CUpdate || pc == CLogPersisted || pc == CCommit || pc == CResume || pc == CResumeFailed || pc == CLogResumed
    || pc == CReplicate || pc == CFinish || pc == CRelease
  }

  // The workload and the row still are of the generation the capture was planned for.
  ghost predicate SameGeneration(db: Db, p: CapturePlan) {
    p.workload in db.workloads && db.workloads[p.workload].generation == p.workloadGeneration
  }

  ghost predicate RowGeneration(db: Db, p: CapturePlan) {
    p.checkpoint in db.checkpoints && db.checkpoints[p.checkpoint].workload == p.workload
    && db.checkpoints[p.checkpoint].workloadGeneration == p.workloadGeneration
  }

  ghost predicate Copied(s: Sys, a: AttemptId, op: Op) {
    match op
    case Capture(pc, p, _) =>
      && (Journal.CaptureStage(pc) < 4 ==> SameGeneration(s.db, p) && (!BeforeInsert(pc) ==> RowGeneration(s.db, p)))
      && (AfterPromote(pc) ==> (p.node, p.checkpoint) in s.promoted)
    case CaptureAbort(pc, p, committed) =>
      JournalHas(s.db, CapturePersisted, a) ==>
        && (pc == ACheck || pc == ANode || committed ==> (p.node, p.checkpoint) in s.promoted)
        && (!JournalHas(s.db, DbCommitted, a) ==> SameGeneration(s.db, p) && RowGeneration(s.db, p))
    case _ => true
  }

  ghost predicate AllCopied(s: Sys) {
    forall a :: a in s.ops ==> Copied(s, a, s.ops[a])
  }

  // ---------------- one step of the only live operation ----------------

  lemma GenerationStays(s: Sys, e: Event, p: CapturePlan, b: AttemptId)
    requires Inv(s) && Availability.Alone(s) && b in s.ops && IsCapture(s.ops[b]) && SameGeneration(s.db, p)
    ensures SameGeneration(Step(s, e).db, p)
  {
    Conservation.CountersMove(s, e, p.workload);
    if CallOf(s, e).Some? { CallsAreAllowed(s, e); }
    hide Step, Inv;
  }

  lemma RowGenerationStays(s: Sys, e: Event, p: CapturePlan, b: AttemptId)
    requires Inv(s) && Availability.Alone(s) && b in s.ops && IsCapture(s.ops[b]) && RowGeneration(s.db, p)
    requires CheckpointOf(s.ops[b]) == p.checkpoint && (s.ops[b].Capture? ==> s.ops[b].cplan == p)
    ensures RowGeneration(Step(s, e).db, p)
  {
    StepDb(s, e);
    StepKeepsRows(s, e);
    if CallOf(s, e).Some? {
      var call := CallOf(s, e).value;
      CallsAreAllowed(s, e);
      ExecRows(s.db, call);
      LifecycleAt(s.db, call, p.checkpoint);
      Availability.RowAt(s.db, call, p.checkpoint);
      if call.EditRow? && call.c == p.checkpoint && EditTx(s.db.checkpoints, p.checkpoint, call.edit).Ok? {
        EditsKeepGeneration(s.db.checkpoints[p.checkpoint], call.edit);
      }
      hide Step, Inv, RowsAfter, CallOf, CaptureCommit, RestoreCommit, Edit, RowsInv;
    }
  }

  lemma EditsKeepGeneration(row: Checkpoint, e: RowEdit)
    requires Edit(row, e).Ok?
    ensures Edit(row, e).value.workloadGeneration == if e.Overwrite? then e.row.workloadGeneration
            else row.workloadGeneration
  {}

  // A node drops a directory only when an operation tells it to.
  lemma PromotedMoves(s: Sys, e: Event, node: NodeName, c: CheckpointId)
    ensures (node, c) in s.promoted && (node, c) !in Step(s, e).promoted ==>
              e.Advance? && e.a in s.ops && ActionOf(e.a, s.ops[e.a], e.ans) == Tell(Discard(node, c))
    ensures e.Advance? && e.a in s.ops && ActionOf(e.a, s.ops[e.a], e.ans) == Tell(Promote(node, c)) && e.ans.ok ==>
              (node, c) in Step(s, e).promoted
    ensures e.Advance? && e.a in s.ops && ActionOf(e.a, s.ops[e.a], e.ans) == Tell(Discard(node, c)) && e.ans.ok ==>
              (node, c) !in Step(s, e).promoted
  {
    hide ActionOf, Next, Failing, Exec;
  }

  // How a capture moves past the promotion, and how it comes to its abort.
  lemma PromoteMoves(pc: CapturePc, p: CapturePlan, seen: Option<L.State>, reply: Reply, ans: Answer)
    ensures var n := NextCapture(pc, p, seen, reply, ans);
            n.Some? && n.value.Capture? && AfterPromote(n.value.cpc) ==> AfterPromote(pc) || (pc == CPromote && ans.ok)
    ensures var n := NextCapture(pc, p, seen, reply, ans);
            n.Some? && n.value.Capture? && Journal.CaptureStage(n.value.cpc) < 4 ==> Journal.CaptureStage(pc) < 4
    ensures var n := NextCapture(pc, p, seen, reply, ans);
            n.Some? && n.value.CaptureAbort? ==> n.value.apc == ACheck && n.value.cplan == p
    ensures var n := Failing(Capture(pc, p, seen));
            n.Some? ==> n.value.CaptureAbort? && n.value.apc == ACheck && n.value.cplan == p
  {
    hide Reading;
    match pc {
      case CPromote =>
      case CResume =>
      case CReplicate =>
      case _ =>
    }
  }

  lemma AbortMoves(pc: CaptureAbortPc, p: CapturePlan, committed: bool, reply: Reply)
    ensures var n := NextCaptureAbort(pc, p, committed, reply);
            n.Some? ==>
              && n.value.CaptureAbort? && n.value.cplan == p && n.value.apc != ACheck
              && (n.value.apc == ANode ==> pc == ACheck)
              && (n.value.committed && pc != ACheck ==> committed)
  {}

  lemma OthersKeepCopied(s: Sys, e: Event, b: AttemptId)
    requires Inv(s) && Availability.Alone(s) && b in s.ops && Copied(s, b, s.ops[b])
    requires !(e.Advance? && e.a == b)
    ensures Copied(Step(s, e), b, s.ops[b])
  {
    var op := s.ops[b];
    if op.Capture? || op.CaptureAbort? {
      var p := op.cplan;
      PromotedMoves(s, e, p.node, p.checkpoint);
      CrashAtomicity.PersistedMarks(s, e, b);
      StepAdvances(s, e);
      if SameGeneration(s.db, p) { GenerationStays(s, e, p, b); }
      if RowGeneration(s.db, p) { RowGenerationStays(s, e, p, b); }
      hide Step, Inv;
    }
  }

  lemma AbortKeepsCopied(s: Sys, b: AttemptId, ans: Answer)
    requires Inv(s) && Availability.Alone(s) && b in s.ops && Copied(s, b, s.ops[b]) && s.ops[b].CaptureAbort?
    requires b in Step(s, Advance(b, ans)).ops
    ensures Copied(Step(s, Advance(b, ans)), b, Step(s, Advance(b, ans)).ops[b])
  {
    var e := Advance(b, ans);
    var CaptureAbort(pc, p, committed) := s.ops[b];
    var op' := Step(s, e).ops[b];
    OpsMove(s, e, b);
    AbortGoes(s, b, op', ans);
    PromotedMoves(s, e, p.node, p.checkpoint);
    CrashAtomicity.PersistedMarks(s, e, b);
    StepAdvances(s, e);
    if SameGeneration(s.db, p) { GenerationStays(s, e, p, b); }
    if RowGeneration(s.db, p) { RowGenerationStays(s, e, p, b); }
    hide Step, Inv;
  }

  lemma AbortGoes(s: Sys, b: AttemptId, op': Op, ans: Answer)
    requires b in s.ops && s.ops[b].CaptureAbort? && Moves(s.ops[b], op', s.db, b, ans)
    ensures op'.CaptureAbort? && op'.cplan == s.ops[b].cplan && op'.apc != ACheck
            && (op'.apc == ANode ==> s.ops[b].apc == ACheck)
    ensures op'.committed && s.ops[b].apc != ACheck ==> s.ops[b].committed
  {
    var op := s.ops[b];
    var act := ActionOf(b, op, ans);
    AbortMoves(op.apc, op.cplan, op.committed, if act.Ask? then Exec(s.db, act.call).1 else Done);
    hide Exec, ActionOf, NextCaptureAbort;
  }

  lemma CaptureGoes(s: Sys, b: AttemptId, op': Op, ans: Answer)
    requires b in s.ops && s.ops[b].Capture? && Moves(s.ops[b], op', s.db, b, ans)
    ensures op'.CaptureAbort? ==> op'.apc == ACheck && op'.cplan == s.ops[b].cplan
    ensures op'.Capture? || op'.CaptureAbort?
    ensures op'.Capture? ==>
              && op'.cplan == s.ops[b].cplan.(generation := op'.cplan.generation)
              && (AfterPromote(op'.cpc) ==> AfterPromote(s.ops[b].cpc) || (s.ops[b].cpc == CPromote && ans.ok))
              && (Journal.CaptureStage(op'.cpc) < 4 ==> Journal.CaptureStage(s.ops[b].cpc) < 4)
              && (!BeforeInsert(op'.cpc) && BeforeInsert(s.ops[b].cpc) ==> s.ops[b].cpc == CInsert)
  {
    var op := s.ops[b];
    var act := ActionOf(b, op, ans);
    var reply := if act.Ask? then Exec(s.db, act.call).1 else Done;
    PromoteMoves(op.cpc, op.cplan, op.seen, reply, ans);
    CaptureMoves(op.cpc, op.cplan, op.seen, reply, ans);
    hide Exec, ActionOf, NextCapture, AfterPromote;
  }

  lemma CaptureNeverDiscards(a: AttemptId, pc: CapturePc, p: CapturePlan, seen: Option<L.State>, ans: Answer)
    ensures var act := CaptureAction(a, pc, p, seen, ans);
            (act.Tell? ==> !act.order.Discard?) && (pc == CPromote ==> act == Tell(Promote(p.node, p.checkpoint)))
  {
    hide Scaffold, PersistedRow;
  }

  // The row an insertion leaves has the planned generation.
  lemma InsertedGeneration(s: Sys, b: AttemptId, ans: Answer)
    requires Inv(s) && b in s.ops && s.ops[b].Capture? && s.ops[b].cpc == CInsert && b in Step(s, Advance(b, ans)).ops
    requires Step(s, Advance(b, ans)).ops[b].Capture?
    ensures RowGeneration(Step(s, Advance(b, ans)).db, s.ops[b].cplan)
  {
    StepKeepsOpRow(s, Advance(b, ans), b);
    OpsMove(s, Advance(b, ans), b);
    CaptureGoes(s, b, Step(s, Advance(b, ans)).ops[b], ans);
    var act := ActionOf(b, s.ops[b], ans);
    CaptureMoves(CInsert, s.ops[b].cplan, s.ops[b].seen, if act.Ask? then Exec(s.db, act.call).1 else Done, ans);
    assert OpRow(s.db, b, s.ops[b]);
    InsertedRow(s, Advance(b, ans), s.ops[b].cplan.checkpoint);
    hide Step, Inv, ActionOf;
  }

  lemma CaptureKeepsCopied(s: Sys, b: AttemptId, ans: Answer)
    requires Inv(s) && Availability.Alone(s) && b in s.ops && Copied(s, b, s.ops[b]) && s.ops[b].Capture?
    requires b in Step(s, Advance(b, ans)).ops
    ensures Copied(Step(s, Advance(b, ans)), b, Step(s, Advance(b, ans)).ops[b])
  {
    var e := Advance(b, ans);
    var Capture(pc, p, seen) := s.ops[b];
    var op' := Step(s, e).ops[b];
    assert Journal.At(s, b);
    assert CapturePersisted in Journal.MarksOf(s.db, b) <==> Journal.CaptureStage(pc) >= 3;
    assert DbCommitted in Journal.MarksOf(s.db, b) <==> Journal.CaptureStage(pc) >= 4;
    OpsMove(s, e, b);
    CaptureGoes(s, b, op', ans);
    CaptureNeverDiscards(b, pc, p, seen, ans);
    PromotedMoves(s, e, p.node, p.checkpoint);
    CrashAtomicity.PersistedMarks(s, e, b);
    StepAdvances(s, e);
    if SameGeneration(s.db, p) { GenerationStays(s, e, p, b); }
    if RowGeneration(s.db, p) { RowGenerationStays(s, e, p, b); }
    if pc == CInsert && op'.Capture? { InsertedGeneration(s, b, ans); }
    hide Step, Inv, Moves, Journal.LocalOp, Availability.Live;
  }

  lemma StepKeepsCopied(s: Sys, e: Event)
    requires Inv(s) && Availability.Alone(s) && AllCopied(s) && (Availability.Begins(e) ==> s.ops == map[])
    ensures AllCopied(Step(s, e))
  {
    var s' := Step(s, e);
    forall b | b in s'.ops ensures Copied(s', b, s'.ops[b]) {
      OpsMove(s, e, b);
      if b in s.ops { assert Copied(s, b, s.ops[b]); }
      if e.Advance? && e.a == b {
        if s.ops[b].Capture? { CaptureKeepsCopied(s, b, e.ans); }
        else if s.ops[b].CaptureAbort? { AbortKeepsCopied(s, b, e.ans); }
        else { OthersGo(s, b, s'.ops[b], e.ans); }
      } else if b in s.ops && s'.ops[b] == s.ops[b] {
        OthersKeepCopied(s, e, b);
      } else {
        StartedIsCopied(s, e, b);
      }
      hide Step, Inv, Copied;
    }
  }

  lemma StartedIsCopied(s: Sys, e: Event, b: AttemptId)
    requires b in Step(s, e).ops && b !in s.ops
    ensures Copied(Step(s, e), b, Step(s, e).ops[b])
  {
    OpsMove(s, e, b);
    StepDb(s, e);
    hide Step;
  }

  lemma OthersGo(s: Sys, b: AttemptId, op': Op, ans: Answer)
    requires b in s.ops && !s.ops[b].Capture? && !s.ops[b].CaptureAbort? && Moves(s.ops[b], op', s.db, b, ans)
    ensures !op'.Capture? && !op'.CaptureAbort?
  {
    var op := s.ops[b];
    var act := ActionOf(b, op, ans);
    var reply := if act.Ask? then Exec(s.db, act.call).1 else Done;
    hide Exec, ActionOf;
  }

  // ---------------- crash and restart ----------------

  lemma {:induction false} RunKeepsCopied(events: seq<Event>)
    requires Availability.OneAtATime(EmptySys, events)
    ensures AllCopied(Run(EmptySys, events)) && Availability.Alone(Run(EmptySys, events))
    decreases |events|
  {
    if events != [] {
      var prefix, last := events[..|events| - 1], events[|events| - 1];
      RunKeepsCopied(prefix);
      EmptyInv();
      RunKeepsInv(EmptySys, prefix);
      hide Inv, Step, Copied;
      StepKeepsCopied(Run(EmptySys, prefix), last);
      Availability.StepKeepsAlone(Run(EmptySys, prefix), last);
    }
  }

  // The forward path, and the abort until the node is told to clean up.
  predicate BeforeCleanup(op: Op) {
    op.Capture? || (op.CaptureAbort? && (op.apc == ACheck || op.apc == ANode))
  }

  // Until an abort has failed the row it leaves it as the commit needs it; afterwards
  // the row stays failed.
  ghost predicate AbortReady(db: Db, a: AttemptId, op: Op) {
    op.CaptureAbort? && JournalHas(db, CapturePersisted, a) && !JournalHas(db, DbCommitted, a) ==>
      CheckpointOf(op) in db.checkpoints
      && if op.apc == AFinish || op.apc == ARelease then db.checkpoints[CheckpointOf(op)].lifecycle == L.Failed
         else CrashAtomicity.Ready(db.checkpoints[CheckpointOf(op)])
  }

  ghost predicate AllAbortReady(s: Sys) {
    forall a :: a in s.ops ==> AbortReady(s.db, a, s.ops[a])
  }

  lemma OutsideLeavesReady(s: Sys, e: Event, c: CheckpointId, b: AttemptId)
    requires Inv(s) && c in s.db.checkpoints && CrashAtomicity.Ready(s.db.checkpoints[c]) && Holder(s, b, c)
    requires !(e.Advance? && e.a == b)
    ensures c in Step(s, e).db.checkpoints && CrashAtomicity.Ready(Step(s, e).db.checkpoints[c])
  {
    StepDb(s, e);
    if CallOf(s, e).Some? {
      CallsAreAllowed(s, e);
      ExecRows(s.db, CallOf(s, e).value);
      hide Step, CallOf, Inv, OpCall, OutsideCall, RowsAfter, Exec;
      CrashAtomicity.OthersLeaveItReady(s, Caller(e), CallOf(s, e).value, c, b);
    }
  }

  lemma OutsideLeavesFailed(s: Sys, e: Event, c: CheckpointId, b: AttemptId)
    requires Inv(s) && c in s.db.checkpoints && s.db.checkpoints[c].lifecycle == L.Failed && Holder(s, b, c)
    requires !(e.Advance? && e.a == b)
    ensures c in Step(s, e).db.checkpoints && Step(s, e).db.checkpoints[c].lifecycle == L.Failed
  {
    StepDb(s, e);
    if CallOf(s, e).Some? {
      CallsAreAllowed(s, e);
      ExecRows(s.db, CallOf(s, e).value);
      hide Step, CallOf, Inv, OpCall, OutsideCall, RowsAfter, Exec;
      OthersLeaveItFailed(s, Caller(e), CallOf(s, e).value, c, b);
    }
  }

  lemma OthersLeaveItFailed(s: Sys, a: AttemptId, call: Call, c: CheckpointId, b: AttemptId)
    requires Inv(s) && c in s.db.checkpoints && s.db.checkpoints[c].lifecycle == L.Failed && Holder(s, b, c)
    requires (a != b && a in s.ops && OpCall(a, s.ops[a], call)) || OutsideCall(call)
    ensures c in RowsAfter(s.db, call) && RowsAfter(s.db, call)[c].lifecycle == L.Failed
  {
    hide Inv, RowsAfter, CaptureCommit, RestoreCommit, OpCall, OutsideCall;
    if a in s.ops && a != b && CheckpointOf(s.ops[a]) == c { CrashAtomicity.NotTheirs(s, a, c, b); }
    LifecycleAt(s.db, call, c);
    CrashAtomicity.OnlyRetirements(s, a, call, c);
    if !(call.EditRow? && call.c == c) { CrashAtomicity.RestoresNeedRestoring(s.db, call, c); }
  }

  // From the cleanup order on: read the row, fail it, close the attempt.
  lemma LateAbort(db: Db, b: AttemptId, pc: CaptureAbortPc, p: CapturePlan, op': Op, ans: Answer)
    requires pc != ACheck && Moves(CaptureAbort(pc, p, false), op', db, b, ans)
    requires p.checkpoint in db.checkpoints
    requires if pc == AFinish || pc == ARelease then db.checkpoints[p.checkpoint].lifecycle == L.Failed
             else CrashAtomicity.Ready(db.checkpoints[p.checkpoint])
    ensures op'.CaptureAbort? && op'.cplan == p
    ensures var act := CaptureAbortAction(b, pc, p, false);
            var cs := if act.Ask? && !ans.fault then RowsAfter(db, act.call) else db.checkpoints;
            p.checkpoint in cs
            && if op'.apc == AFinish || op'.apc == ARelease then cs[p.checkpoint].lifecycle == L.Failed
               else CrashAtomicity.Ready(cs[p.checkpoint])
  {}

  lemma LateStepKeepsReady(s: Sys, b: AttemptId, ans: Answer)
    requires Inv(s) && b in s.ops && b in Step(s, Advance(b, ans)).ops && AbortReady(s.db, b, s.ops[b])
    requires Step(s, Advance(b, ans)).ops[b].CaptureAbort? && !BeforeCleanup(Step(s, Advance(b, ans)).ops[b])
    ensures AbortReady(Step(s, Advance(b, ans)).db, b, Step(s, Advance(b, ans)).ops[b])
  {
    var e := Advance(b, ans);
    assert Journal.Inv(s);
    if s.ops[b].CaptureAbort? && s.ops[b].apc != ACheck { AbortFlag(s, b); }
    hide Step, Inv, Exec, CallOf, RowsAfter;
    OpsMove(s, e, b);
    var op, op' := s.ops[b], Step(s, e).ops[b];
    if op.Capture? { CaptureGoes(s, b, op', ans); } else if !op.CaptureAbort? { OthersGo(s, b, op', ans); }
    CrashAtomicity.PersistedMarks(s, e, b);
    StepAdvances(s, e);
    StepDb(s, e);
    if CallOf(s, e).Some? { ExecRows(s.db, CallOf(s, e).value); }
    AdvanceCall(s, b, ans);
    if op.CaptureAbort? && JournalHas(Step(s, e).db, CapturePersisted, b)
      && !JournalHas(Step(s, e).db, DbCommitted, b) {
      AbortLeavesCheck(s, b, op', ans);
      LateAbort(s.db, b, op.apc, op.cplan, op', ans);
    }
  }

  lemma AbortFlag(s: Sys, b: AttemptId)
    requires Journal.Inv(s) && b in s.ops && s.ops[b].CaptureAbort? && s.ops[b].apc != ACheck
    ensures s.ops[b].committed <==> JournalHas(s.db, DbCommitted, b)
  {
    assert Journal.At(s, b);
    assert DbCommitted in Journal.MarksOf(s.db, b) <==> JournalHas(s.db, DbCommitted, b);
  }

  lemma AbortLeavesCheck(s: Sys, b: AttemptId, op': Op, ans: Answer)
    requires b in s.ops && s.ops[b].CaptureAbort? && Moves(s.ops[b], op', s.db, b, ans) && op'.CaptureAbort?
             && !BeforeCleanup(op')
    ensures s.ops[b].apc != ACheck
  {}

  lemma AdvanceCall(s: Sys, b: AttemptId, ans: Answer)
    requires b in s.ops
    ensures var act := ActionOf(b, s.ops[b], ans);
            CallOf(s, Advance(b, ans)) == if act.Ask? && !ans.fault then Some(act.call) else None
  {
    hide ActionOf;
  }

  // While an attempt is at these stages, only its commit changes a row.
  lemma TurningCalls(db: Db, b: AttemptId, op: Op, ans: Answer, call: Call)
    requires op.Capture? || (op.CaptureAbort? && op.apc == ACheck)
    requires op.Capture? ==> Journal.CaptureStage(op.cpc) == 3 || op.cpc == CLogPersisted
    requires ActionOf(b, op, ans) == Ask(call)
    ensures call.CommitCapture? || RowsAfter(db, call) == db.checkpoints
  {
    hide CaptureCommit, RestoreCommit, CommitRows;
  }

  // A persisted capture turns to its abort, or an abort goes on to the cleanup, only by
  // a step that changes no row.
  lemma TurningChangesNoRow(s: Sys, b: AttemptId, ans: Answer)
    requires Inv(s) && b in s.ops && (s.ops[b].Capture? || (s.ops[b].CaptureAbort? && s.ops[b].apc == ACheck))
    requires s.ops[b].Capture? ==> Journal.CaptureStage(s.ops[b].cpc) == 3 || s.ops[b].cpc == CLogPersisted
    requires !JournalHas(Step(s, Advance(b, ans)).db, DbCommitted, b)
    ensures Step(s, Advance(b, ans)).db.checkpoints == s.db.checkpoints
  {
    assert Journal.Inv(s);
    hide Step, Inv, Exec, CallOf, OpCall, OutsideCall, CaptureCommit;
    var e := Advance(b, ans);
    StepDb(s, e);
    if CallOf(s, e).Some? {
      AdvanceCall(s, b, ans);
      CallsAreAllowed(s, e);
      TurningCalls(s.db, b, s.ops[b], ans, CallOf(s, e).value);
      ExecRows(s.db, CallOf(s, e).value);
      if CallOf(s, e).value.CommitCapture? { CommitMarks(s, b, CallOf(s, e).value, b); }
    }
  }

  lemma PersistedStage(s: Sys, b: AttemptId)
    requires Journal.Inv(s) && b in s.ops && s.ops[b].Capture?
    ensures JournalHas(s.db, CapturePersisted, b) <==> Journal.CaptureStage(s.ops[b].cpc) >= 3
    ensures JournalHas(s.db, DbCommitted, b) <==> Journal.CaptureStage(s.ops[b].cpc) >= 4
  {
    assert Journal.At(s, b);
    assert CapturePersisted in Journal.MarksOf(s.db, b) <==> JournalHas(s.db, CapturePersisted, b);
    assert DbCommitted in Journal.MarksOf(s.db, b) <==> JournalHas(s.db, DbCommitted, b);
  }

  lemma TurningKeepsReady(s: Sys, b: AttemptId, ans: Answer)
    requires Inv(s) && CrashAtomicity.DurableInv(s) && b in s.ops && b in Step(s, Advance(b, ans)).ops
    requires Step(s, Advance(b, ans)).ops[b].CaptureAbort? && BeforeCleanup(Step(s, Advance(b, ans)).ops[b])
    requires AbortReady(s.db, b, s.ops[b])
    ensures AbortReady(Step(s, Advance(b, ans)).db, b, Step(s, Advance(b, ans)).ops[b])
  {
    var e := Advance(b, ans);
    var s' := Step(s, e);
    OpsMove(s, e, b);
    CrashAtomicity.PersistedMarks(s, e, b);
    StepAdvances(s, e);
    assert CrashAtomicity.OpReady(s.db, s.ops[b]);
    hide Step, Inv, Moves, CrashAtomicity.DurableInv;
    if JournalHas(s'.db, CapturePersisted, b) && !JournalHas(s'.db, DbCommitted, b) {
      SourceOfAbort(s, b, s'.ops[b], ans);
      if s.ops[b].Capture? { PersistedStage(s, b); }
      TurningChangesNoRow(s, b, ans);
    }
  }

  lemma SourceOfAbort(s: Sys, b: AttemptId, op': Op, ans: Answer)
    requires b in s.ops && Moves(s.ops[b], op', s.db, b, ans) && op'.CaptureAbort? && BeforeCleanup(op')
    ensures CheckpointOf(op') == CheckpointOf(s.ops[b])
    ensures s.ops[b].Capture? || (s.ops[b].CaptureAbort? && s.ops[b].apc == ACheck)
  {
    var op := s.ops[b];
    MovesKeepCheckpoint(op, op', s.db, b, ans);
    if op.CaptureAbort? { AbortGoes(s, b, op', ans); } else if !op.Capture? { OthersGo(s, b, op', ans); }
    hide Moves;
  }

  lemma StepKeepsAbortReady(s: Sys, e: Event)
    requires Inv(s) && CrashAtomicity.DurableInv(s) && AllAbortReady(s)
    ensures AllAbortReady(Step(s, e))
  {
    var s' := Step(s, e);
    forall b | b in s'.ops ensures AbortReady(s'.db, b, s'.ops[b]) {
      OpsMove(s, e, b);
      var op' := s'.ops[b];
      if op'.CaptureAbort? {
        assert AbortReady(s.db, b, s.ops[b]);
        if !(e.Advance? && e.a == b) { AbortStaysReady(s, e, b); }
        else if BeforeCleanup(op') { TurningKeepsReady(s, b, e.ans); }
        else { LateStepKeepsReady(s, b, e.ans); }
      }
      hide Step, Inv, AbortReady;
    }
  }

  lemma AbortStaysReady(s: Sys, e: Event, b: AttemptId)
    requires Inv(s) && b in s.ops && AbortReady(s.db, b, s.ops[b]) && !(e.Advance? && e.a == b)
    ensures AbortReady(Step(s, e).db, b, s.ops[b])
  {
    CrashAtomicity.PersistedMarks(s, e, b);
    StepAdvances(s, e);
    var c := CheckpointOf(s.ops[b]);
    if s.ops[b].CaptureAbort? && c in s.db.checkpoints {
      if CrashAtomicity.Ready(s.db.checkpoints[c]) { OutsideLeavesReady(s, e, c, b); }
      if s.db.checkpoints[c].lifecycle == L.Failed { OutsideLeavesFailed(s, e, c, b); }
    }
    hide Step, Inv, CrashAtomicity.Ready;
  }

  lemma {:induction false} RunKeepsAbortReady(events: seq<Event>)
    ensures AllAbortReady(Run(EmptySys, events))
    decreases |events|
  {
    if events != [] {
      var prefix, last := events[..|events| - 1], events[|events| - 1];
      RunKeepsAbortReady(prefix);
      CrashAtomicity.Reachable(prefix);
      hide Inv, Step, AllAbortReady, CrashAtomicity.DurableInv;
      StepKeepsAbortReady(Run(EmptySys, prefix), last);
    }
  }

  // With requests running one at a time: a crash of a persisted capture anywhere on
  // its forward path, or in its abort before the node is told to clean up, followed by
  // recovery, leaves the checkpoint committed by the very transaction the
  // uninterrupted capture runs, and the node still has the promoted directory.
  lemma PersistedCaptureSurvives(events: seq<Event>, a: AttemptId)
    requires Availability.OneAtATime(EmptySys, events)
    requires var s := Run(EmptySys, events);
             a in s.ops && BeforeCleanup(s.ops[a]) && JournalHas(s.db, CapturePersisted, a)
    ensures Survives(Run(EmptySys, events), a, Recovered(Run(EmptySys, events), a))
  {
    CrashAtomicity.Reachable(events);
    RunKeepsCopied(events);
    RunKeepsAbortReady(events);
    hide *;
    SurvivesRecovery(Run(EmptySys, events), a);
  }

  lemma SurvivesRecovery(s: Sys, a: AttemptId)
    requires Inv(s) && CrashAtomicity.DurableInv(s) && AllCopied(s) && AllAbortReady(s)
    requires a in s.ops && BeforeCleanup(s.ops[a]) && JournalHas(s.db, CapturePersisted, a)
    ensures Survives(s, a, Recovered(s, a))
  {
    hide Inv, CrashAtomicity.DurableInv, AllCopied, AllAbortReady, Recovered, Reconciled, CrashAtomicity.AllOrNothing,
      BeforeCleanup,
      CaptureCommit;
    SurvivorIsAttempted(s, a);
    CrashAtomicity.CrashedCaptureOf(s, a);
    SurvivorIsPublishable(s, a);
    CommittedIsAnchored(s, a);
    if s.db.attempts[a].state == Active {
      RecoveryRefinesReconcile(s, a);
      hide Survives;
      RecoveredSurvives(s, a, Reconciled(s.db, a).value.0);
    } else {
      NothingToRecover(s, a);
      FinishedIsCommitted(s, a);
    }
  }

  // t is s after recovery; the checkpoint attempt a was capturing is committed and
  // physically there.
  ghost predicate Survives(s: Sys, a: AttemptId, t: Sys)
    requires a in s.ops && BeforeCleanup(s.ops[a])
  {
    var p := s.ops[a].cplan;
    && (p.node, p.checkpoint) in t.promoted
    && p.checkpoint in t.db.checkpoints && t.db.checkpoints[p.checkpoint].lifecycle.IsAnchored()
    && (if JournalHas(s.db, DbCommitted, a) then CrashAtomicity.SameTables(s.db, t.db)
        else var tx := CaptureCommit(s.db, p.checkpoint, a); tx.Ok? && CrashAtomicity.SameTables(tx.value, t.db))
  }

  lemma CommittedIsAnchored(s: Sys, a: AttemptId)
    requires Inv(s) && a in s.ops && BeforeCleanup(s.ops[a])
    requires s.ops[a].cplan.checkpoint in s.db.checkpoints && s.db.checkpoints[s.ops[a].cplan.checkpoint].attempt == a
    ensures JournalHas(s.db, DbCommitted, a) ==> s.db.checkpoints[s.ops[a].cplan.checkpoint].lifecycle.IsAnchored()
  {
    assert AnchoredRow(s.db, s.ops[a].cplan.checkpoint);
  }

  lemma FinishedIsCommitted(s: Sys, a: AttemptId)
    requires Inv(s) && a in s.ops && BeforeCleanup(s.ops[a]) && a in s.db.attempts && s.db.attempts[a].state != Active
    ensures JournalHas(s.db, DbCommitted, a)
  {
    assert Journal.At(s, a);
    assert DbCommitted in Journal.MarksOf(s.db, a) <==> JournalHas(s.db, DbCommitted, a);
  }

  lemma RecoveredSurvives(s: Sys, a: AttemptId, db': Db)
    requires a in s.ops && BeforeCleanup(s.ops[a]) && a in s.db.attempts && CrashAtomicity.AllOrNothing(s.db, a, db')
    requires s.db.attempts[a].checkpoint == s.ops[a].cplan.checkpoint && JournalHas(s.db, CapturePersisted, a)
    requires (s.ops[a].cplan.node, s.ops[a].cplan.checkpoint) in s.promoted
    requires !JournalHas(s.db, DbCommitted, a) ==> CrashAtomicity.Publishable(s.db, a)
    requires s.ops[a].cplan.checkpoint in s.db.checkpoints
    requires JournalHas(s.db, DbCommitted, a) ==> s.db.checkpoints[s.ops[a].cplan.checkpoint].lifecycle.IsAnchored()
    ensures Survives(s, a, s.(db := db', ops := map[]))
  {
    hide CaptureCommit, CrashAtomicity.Publishable;
  }

  lemma SurvivorIsAttempted(s: Sys, a: AttemptId)
    requires Inv(s) && a in s.ops && BeforeCleanup(s.ops[a]) && JournalHas(s.db, CapturePersisted, a)
    requires CrashAtomicity.DurableInv(s)
    ensures a in s.db.attempts && s.db.attempts[a].kind == CaptureKind
            && s.db.attempts[a].checkpoint == s.ops[a].cplan.checkpoint
    ensures s.ops[a].cplan.checkpoint in s.db.checkpoints && s.db.checkpoints[s.ops[a].cplan.checkpoint].attempt == a
  {
    assert Journal.At(s, a) && CrashAtomicity.Durable(s.db, a) && OpRow(s.db, a, s.ops[a]);
    assert CapturePersisted in Journal.MarksOf(s.db, a);
  }

  // Not committed yet, it still has the row and the generations its commit needs.
  lemma SurvivorsRow(s: Sys, a: AttemptId)
    requires Inv(s) && a in s.ops && BeforeCleanup(s.ops[a]) && JournalHas(s.db, CapturePersisted, a)
    requires Copied(s, a, s.ops[a]) && AbortReady(s.db, a, s.ops[a]) && CrashAtomicity.OpReady(s.db, s.ops[a])
    ensures !JournalHas(s.db, DbCommitted, a) ==>
              SameGeneration(s.db, s.ops[a].cplan) && RowGeneration(s.db, s.ops[a].cplan)
              && s.ops[a].cplan.checkpoint in s.db.checkpoints
              && s.db.checkpoints[s.ops[a].cplan.checkpoint].lifecycle == L.Persisting
  {
    if s.ops[a].Capture? { PersistedStage(s, a); }
    hide Inv, SameGeneration, RowGeneration;
  }

  lemma SurvivorIsPublishable(s: Sys, a: AttemptId)
    requires Inv(s) && CrashAtomicity.DurableInv(s) && AllCopied(s) && AllAbortReady(s)
    requires a in s.ops && BeforeCleanup(s.ops[a]) && JournalHas(s.db, CapturePersisted, a)
    ensures (s.ops[a].cplan.node, s.ops[a].cplan.checkpoint) in s.promoted
    ensures !JournalHas(s.db, DbCommitted, a) ==> CrashAtomicity.Publishable(s.db, a)
  {
    assert Copied(s, a, s.ops[a]) && AbortReady(s.db, a, s.ops[a]) && CrashAtomicity.OpReady(s.db, s.ops[a]);
    if s.ops[a].Capture? { PersistedStage(s, a); }
    hide Inv, CrashAtomicity.DurableInv, AllCopied, AllAbortReady;
    SurvivorIsAttempted(s, a);
    SurvivorsRow(s, a);
  }

  lemma NothingToRecover(s: Sys, a: AttemptId)
    requires a in s.db.attempts && s.db.attempts[a].state != Active
    ensures Recovered(s, a) == s.(ops := map[])
  {
    var t := Step(Step(s, Crash), BeginRecovery(a));
    assert t == s.(ops := map[]);
    IdleStays(t, a, CALLS);
  }

  // Past that point the claim is false: once the node has deleted the directory on the
  // abort's order, a crash before the checkpoint is marked failed makes recovery
  // publish a checkpoint with no directory behind it.  Directories has every case.
  lemma AbortedCopyIsPublished(events: seq<Event>, a: AttemptId)
    requires Availability.OneAtATime(EmptySys, events)
    requires var s := Run(EmptySys, events);
             a in s.ops && s.ops[a].CaptureAbort? && s.ops[a].apc == ANode && !s.ops[a].committed
             && JournalHas(s.db, CapturePersisted, a) && a in s.db.attempts && s.db.attempts[a].state == Active
    ensures var s := Run(EmptySys, events);
            var t := Recovered(Step(s, Advance(a, GOOD)), a);
            var p := s.ops[a].cplan;
            p.checkpoint in t.db.checkpoints && t.db.checkpoints[p.checkpoint].lifecycle == L.Available
            && (p.node, p.checkpoint) !in t.promoted
            && p.checkpoint in s.db.checkpoints
            && t.db.checkpoints[p.checkpoint].locations == s.db.checkpoints[p.checkpoint].locations
  {
    CrashAtomicity.Reachable(events);
    RunKeepsCopied(events);
    RunKeepsAbortReady(events);
    hide *;
    AbortPublishes(Run(EmptySys, events), a);
  }

  lemma AbortPublishes(s: Sys, a: AttemptId)
    requires Inv(s) && CrashAtomicity.DurableInv(s) && AllCopied(s) && AllAbortReady(s)
    requires a in s.ops && s.ops[a].CaptureAbort? && s.ops[a].apc == ANode && !s.ops[a].committed
    requires JournalHas(s.db, CapturePersisted, a) && a in s.db.attempts && s.db.attempts[a].state == Active
    ensures var t := Recovered(Step(s, Advance(a, GOOD)), a);
            var p := s.ops[a].cplan;
            p.checkpoint in t.db.checkpoints && t.db.checkpoints[p.checkpoint].lifecycle == L.Available
            && (p.node, p.checkpoint) !in t.promoted
            && p.checkpoint in s.db.checkpoints
            && t.db.checkpoints[p.checkpoint].locations == s.db.checkpoints[p.checkpoint].locations
  {
    var p := s.ops[a].cplan;
    SurvivorIsAttempted(s, a);
    SurvivorIsPublishable(s, a);
    CrashAtomicity.CrashedCaptureOf(s, a);
    assert Journal.At(s, a);
    assert DbCommitted in Journal.MarksOf(s.db, a) <==> JournalHas(s.db, DbCommitted, a);
    DiscardStep(s, a);
    if CaptureCommit(s.db, p.checkpoint, a).Ok? { CommitKeepsLocations(s.db, p.checkpoint, a); }
    hide Inv, Recovered, Reconciled, CaptureCommit, Step, CrashAtomicity.DurableInv, AllCopied, AllAbortReady,
      CrashAtomicity.Publishable;
    RecoveryRefinesReconcile(Step(s, Advance(a, GOOD)), a);
  }

  lemma CommitKeepsLocations(db: Db, c: CheckpointId, a: AttemptId)
    requires CaptureCommit(db, c, a).Ok?
    ensures c in db.checkpoints && c in CaptureCommit(db, c, a).value.checkpoints
    ensures CaptureCommit(db, c, a).value.checkpoints[c].locations == db.checkpoints[c].locations
  {
    LifecycleAt(db, CommitCapture(c, a), c);
    Availability.RowAt(db, CommitCapture(c, a), c);
  }

  lemma DiscardStep(s: Sys, a: AttemptId)
    requires a in s.ops && s.ops[a].CaptureAbort? && s.ops[a].apc == ANode && !s.ops[a].committed
    ensures Step(s, Advance(a, GOOD)).db == s.db
    ensures (s.ops[a].cplan.node, s.ops[a].cplan.checkpoint) !in Step(s, Advance(a, GOOD)).promoted
  {}
}
