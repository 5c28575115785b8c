// What a single step can do: which store call it makes, for which operation, and
// how it moves the set of live operations.  The invariants are proved from this
// summary, not from the programs themselves.
module Steps {
  import opened Wrappers
  import opened Tables
  import opened Operations
  import L = Lifecycle

  predicate IsCapture(op: Op) {
    op.Capture? || op.CaptureAbort? || op.RecoverCapture?
  }

  predicate IsRestore(op: Op) {
    op.Restore? || op.RestoreAbort? || op.RecoverRestore?
  }

  // The store call event e makes in s, if it makes one.
  ghost function CallOf(s: Sys, e: Event): Option<Call> {
    match e
    case CreateWorkload(w, resumability, singleActive, holder) =>
      if w in s.db.workloads || (holder.Some? && holder.value.1 in s.tokens) then None
      else Some(CreateRow(w, NewWorkload(resumability, singleActive, holder, None)))
    case ForkWorkload(w, c, resumability, singleActive) =>
      if c !in s.db.checkpoints then None
      else
        var parent := s.db.checkpoints[c].workload;
        Some(ForkRow(w, NewWorkload(resumability, singleActive, None, Some(parent)), parent, c))
    case Attach(w, node, token, epoch) => if token in s.tokens then None
      else Some(EditWorkloadRow(w, Claim(node, token, epoch)))
    case Detach(w, node) => Some(EditWorkloadRow(w, Unclaim(node)))
    case Fence(w, epoch) => Some(EditWorkloadRow(w, BumpFence(epoch)))
    case Advance(a, ans) =>
      if a in s.ops && ActionOf(a, s.ops[a], ans).Ask? && !ans.fault then Some(ActionOf(a, s.ops[a], ans).call)
        else None
    case ExpireReservations(before) => Some(Expire(before))
    case RebindReplica(c, node, path) => Some(EditRow(c, Rebind(node, path)))
    case Protect(c, p) => Some(EditRow(c, SetProtection(p)))
    case Verify(c, valid) => Some(EditRow(c, SetIntegrity(if valid then Valid else Corrupt)))
    case _ => None
  }

  lemma StepWithout(s: Sys, e: Event)
    requires e.Advance? && e.a !in s.ops
    ensures Step(s, e) == s
  {}

  lemma StepDb(s: Sys, e: Event)
    ensures Step(s, e).db == if CallOf(s, e).Some? then Exec(s.db, CallOf(s, e).value).0 else s.db
  {
    hide Exec, ActionOf, Next, Failing;
    if e.Attach? { RefusedClaims(s.db, e.w, e.node, e.token, e.epoch); }
    if e.Fence? { RefusedBumps(s.db, e.w, e.epoch); }
  }

  lemma RefusedClaims(db: Db, w: WorkloadId, node: NodeName, token: Token, epoch: nat)
    ensures Exec(db, EditWorkloadRow(w, Claim(node, token, epoch))).1.Refused? ==>
              Exec(db, EditWorkloadRow(w, Claim(node, token, epoch))).0 == db
  {}

  lemma RefusedBumps(db: Db, w: WorkloadId, epoch: nat)
    ensures Exec(db, EditWorkloadRow(w, BumpFence(epoch))).1.Refused? ==>
              Exec(db, EditWorkloadRow(w, BumpFence(epoch))).0 == db
  {}

  // The row edits of operation op of attempt a.
  ghost predicate OpEdit(a: AttemptId, op: Op, e: RowEdit) {
    match e
    case Overwrite(row) => op.Capture? && op.cpc == CUpdate && row == PersistedRow(op.cplan, a)
    case SetLifecycle(target, _) =>
      (op.Capture? && CaptureTarget(op.cpc) == Some(target))
      || (op.CaptureAbort? && op.apc == AFail && !op.committed && target == L.Failed)
      || (op.RecoverCapture? && op.kpc == KFail && target == L.Failed)
      || (IsRestore(op) && target.IsLinked() && (op.RecoverRestore? ==> op.qpc == QAvailable))
    case SetDigest(_) => op.Capture? && op.cpc == CDigest
    case SetIntegrity(_) => op.Capture?
    case SetProtection(_) => false
    case Retire => op.Retirement?
    case AddLocation(_) => (op.Capture? && op.cpc == CReplicate) || op.Restore?
    case Rebind(_, _) => false
  }

  // The calls of operation op of attempt a.
  ghost predicate OpCall(a: AttemptId, op: Op, call: Call) {
    match call
    case InsertRow(c, row) => op.Capture? && op.cpc == CInsert && c == op.cplan.checkpoint
      && row == Scaffold(op.cplan, a)
    case EditRow(c, e) => c == CheckpointOf(op) && OpEdit(a, op, e)
    case CommitCapture(c, b) =>
      b == a && c == CheckpointOf(op)
        && ((op.Capture? && op.cpc == CCommit) || (op.RecoverCapture? && op.kpc == KCommit))
    case CommitRestore(c, b, node, token, migration, rollback) =>
      b == a && op.Restore? && op.rpc == RCommit && c == op.rplan.checkpoint && node == op.rplan.node
        && token == op.rplan.token
      && migration == op.rplan.migration && rollback == op.rplan.rollback
    case Begin(b, row) =>
      b == a && row.checkpoint == CheckpointOf(op) && row.state == Active
      && ((op.Capture? && op.cpc == CBegin && row.kind == CaptureKind)
          || (op.Restore? && op.rpc == RBegin && row.kind != CaptureKind && row.workload == op.rplan.workload))
    case Finish(b, state) => b == a && state != Active
    case Log(m, b) =>
      b == a && m != DbCommitted && m != GenerationCommitted && m != AuthorityTransferred
      && (m == CapturePersisted ==> op.Capture? && op.cpc == CLogPersisted)
    case Reserve(b, _, _) => b == a
    case Release(b) => b == a
    case CreateRow(_, _) => false
    case ForkRow(_, _, _, _) => false
    case EditWorkloadRow(_, _) => false
    case Expire(_) => false
    case _ => true
  }

  // The calls that come from outside every operation.
  ghost predicate OutsideCall(call: Call) {
    match call
    case EditRow(_, e) => e.Rebind? || e.SetProtection? || e.SetIntegrity?
    case CreateRow(_, w) => w.generation == 0 && w.executionEpoch == 0 && w.fenceEpoch == 0
      && (w.fenceToken.Some? <==> w.activeNode.Some?)
    case ForkRow(_, w, _, _) => w.generation == 0 && w.executionEpoch == 0 && w.fenceEpoch == 0 && w.fenceToken.None?
      && w.activeNode.None?
    case EditWorkloadRow(_, _) => true
    case Expire(_) => true
    case _ => false
  }

  lemma CaptureCalls(a: AttemptId, pc: CapturePc, p: CapturePlan, seen: Option<L.State>, ans: Answer)
    ensures CaptureAction(a, pc, p, seen, ans).Ask? ==>
              OpCall(a, Capture(pc, p, seen), CaptureAction(a, pc, p, seen, ans).call)
  {
    hide Scaffold, PersistedRow;
  }

  lemma RestoreCalls(a: AttemptId, pc: RestorePc, p: RestorePlan, seen: Option<L.State>, epoch: nat, resumed: bool,
        ans: Answer)
    ensures RestoreAction(a, pc, p, seen, epoch, resumed, ans).Ask? ==>
              OpCall(a, Restore(pc, p, seen, epoch, resumed), RestoreAction(a, pc, p, seen, epoch, resumed, ans).call)
  {}

  // A recovery or an abort only ever finishes with a verdict.
  ghost predicate VerdictReady(op: Op) {
    (op.RecoverCapture? && op.kpc == KFinish ==> op.verdict != Active)
    && (op.RecoverRestore? && op.qpc == QFinish ==> op.verdict != Active)
    && (op.CaptureAbort? && op.apc == AFail ==> !op.committed)
  }

  lemma OpCalls(a: AttemptId, op: Op, ans: Answer)
    requires VerdictReady(op)
    ensures ActionOf(a, op, ans).Ask? ==> OpCall(a, op, ActionOf(a, op, ans).call)
  {
    hide CaptureAction, RestoreAction, Scaffold, PersistedRow;
    if op.Capture? { CaptureCalls(a, op.cpc, op.cplan, op.seen, ans); }
    if op.Restore? { RestoreCalls(a, op.rpc, op.rplan, op.seen, op.epoch, op.resumed, ans); }
  }

  lemma OutsideCalls(s: Sys, e: Event)
    requires !e.Advance?
    ensures CallOf(s, e).Some? ==> OutsideCall(CallOf(s, e).value)
  {
    hide ActionOf;
  }
}
