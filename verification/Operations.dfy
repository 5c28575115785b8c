// The coordinator's operations as programs over atomic store calls and node
// answers (src/coordinator.rs, src/recovery.rs), and the runs of any number of
// them interleaved, with crashes anywhere.
module Operations {
  import opened Wrappers
  import opened Tables
  import L = Lifecycle

  // ---------------- store calls ----------------

  datatype Call =
    | ReadMaxGeneration(w: WorkloadId)
    | ReadCheckpoint(c: CheckpointId)
    | ReadWorkload(w: WorkloadId)
    | ReadMarker(marker: Marker, a: AttemptId)
    | ReadReserved(c: CheckpointId)
    | InsertRow(c: CheckpointId, row: Checkpoint)
    | EditRow(c: CheckpointId, edit: RowEdit)
    | CommitCapture(c: CheckpointId, a: AttemptId)
    | CommitRestore(c: CheckpointId, a: AttemptId, node: NodeName, token: Token, migration: bool, rollback: bool)
    | Begin(a: AttemptId, attempt: Attempt)
    | Finish(a: AttemptId, state: AttemptState)
    | Log(marker: Marker, a: AttemptId)
    | Reserve(a: AttemptId, scope: Scope, expiresAt: nat)
    | Release(a: AttemptId)
    | Expire(before: nat)
    | CreateRow(w: WorkloadId, workload: Workload)
    | ForkRow(w: WorkloadId, workload: Workload, parentId: WorkloadId, c: CheckpointId)
    | EditWorkloadRow(w: WorkloadId, workloadEdit: WorkloadEdit)

  datatype Reply =
    | Done
    | Refused
    | Generation(n: nat)
    | Row(row: Option<Checkpoint>)
    | WorkloadRow(workload: Option<Workload>)
    | Flag(yes: bool)

  ghost function MaxGeneration(cs: Rows, w: WorkloadId): (g: nat)
    ensures IsMaxGeneration(cs, w, g)
  {
    MaxGenerationExists(cs, w);
    var g: nat :| IsMaxGeneration(cs, w, g);
    g
  }

  lemma {:induction false} MaxGenerationExists(cs: Rows, w: WorkloadId)
    ensures exists g: nat :: IsMaxGeneration(cs, w, g)
    decreases |cs|
  {
    if cs == map[] {
      assert IsMaxGeneration(cs, w, 0);
    } else {
      var c :| c in cs;
      var rest := cs - {c};
      MaxGenerationExists(rest, w);
      var g: nat :| IsMaxGeneration(rest, w, g);
      var g' := if cs[c].workload == w && cs[c].generation > g then cs[c].generation else g;
      assert g' == 0 || exists d :: d in cs.Keys && cs[d].workload == w && cs[d].generation == g' by {
        if g' == g && g != 0 {
          var d :| d in rest.Keys && rest[d].workload == w && rest[d].generation == g;
          assert d in cs.Keys && cs[d].workload == w;
        }
      }
      forall d | d in cs.Keys && cs[d].workload == w ensures cs[d].generation <= g' {
        if d != c { assert d in rest.Keys; }
      }
      assert IsMaxGeneration(cs, w, g');
    }
  }

  ghost function Outcome(db: Db, tx: Tx): (Db, Reply) {
    if tx.Ok? then (tx.value, Done) else (db, Refused)
  }

  ghost function OnRows(db: Db, tx: Result<Rows, StoreError>): (Db, Reply) {
    if tx.Ok? then (db.(checkpoints := tx.value), Done) else (db, Refused)
  }

  ghost function Exec(db: Db, call: Call): (Db, Reply) {
    match call
    case ReadMaxGeneration(w) => (db, Generation(MaxGeneration(db.checkpoints, w)))
    case ReadCheckpoint(c) => (db, Row(if c in db.checkpoints then Some(db.checkpoints[c]) else None))
    case ReadWorkload(w) => (db, WorkloadRow(if w in db.workloads then Some(db.workloads[w]) else None))
    case ReadMarker(m, a) => (db, Flag(JournalHas(db, m, a)))
    case ReadReserved(c) => (db, Flag(Reserved(db, RestoreOf(c))))
    case InsertRow(c, row) => OnRows(db, InsertTx(db.checkpoints, c, row))
    case EditRow(c, edit) => OnRows(db, EditTx(db.checkpoints, c, edit))
    case CommitCapture(c, a) => Outcome(db, CaptureCommit(db, c, a))
    case CommitRestore(c, a, node, token, migration, rollback) =>
      Outcome(db, RestoreCommit(db, c, a, node, token, migration, rollback))
    case Begin(a, attempt) => (AttemptBegin(db, a, attempt), Done)
    case Finish(a, state) => (AttemptFinish(db, a, state), Done)
    case Log(m, a) => (JournalAppend(db, m, a), Done)
    case Reserve(a, scope, expiresAt) => Outcome(db, ReservationCreate(db, a, scope, expiresAt))
    case Release(a) => (ReservationRelease(db, a), Done)
    case Expire(before) => (ReservationsExpire(db, before), Done)
    case CreateRow(w, workload) => Outcome(db, WorkloadInsert(db, w, workload))
    case ForkRow(w, workload, p, c) => Outcome(db, WorkloadInsertFork(db, w, workload, p, c))
    case EditWorkloadRow(w, edit) => Outcome(db, WorkloadTx(db, w, edit))
  }

  // ---------------- operations ----------------

  // What one capture request works with.  Digest, image, path and the like are
  // what sealing and the node answer with.
  datatype CapturePlan = CapturePlan(
    workload: WorkloadId, checkpoint: CheckpointId, node: NodeName,
    workloadGeneration: nat, generation: nat,
    resumability: Resumability, image: Image, digest: string, path: Path,
    protection: Protection, expiresAt: nat)

  datatype RestorePlan = RestorePlan(
    workload: WorkloadId, checkpoint: CheckpointId, node: NodeName, token: Token,
    migration: bool, rollback: bool, resume: bool, expiresAt: nat)

  function Scaffold(p: CapturePlan, a: AttemptId): Checkpoint {
    Checkpoint(p.workload, p.workloadGeneration, p.generation, a, L.Created, Pending, RestartFromCheckpoint,
               Image([], 0, 0), None, [], 0, 0, None, Unprotected, None, None)
  }

  function PersistedRow(p: CapturePlan, a: AttemptId): Checkpoint {
    Scaffold(p, a).(lifecycle := L.Persisting, resumability := p.resumability, image := p.image,
                    digest := Some(p.digest), locations := [Location(p.node, p.path, true)], replicaCount := 1,
                    protection := p.protection)
  }

  datatype CapturePc =
    | CReadGeneration | CReserve | CBegin | CLogReserved | CInsert
    | CCapturing | CNodeCapture | CCaptured | CValidating | CDigest | CSealed | CLogSealed | CMarkValid
    | CPersisting | CPromote | CUpdate | CLogPersisted | CCommit
    | CResume | CResumeFailed | CLogResumed | CReplicate | CFinish | CRelease

  datatype CaptureAbortPc = ACheck | ANode | ARead | AFail | AFinish | ARelease

  datatype RestorePc =
    | RCheckWorkload | RReserve | RBegin | RLogReserved
    | RPending | RLogProvisioned | RProbe | RRestoring | RNodeRestore | RLogRestored | RCommit
    | RReadEpoch | RResume | RLogResumed | RFinish | RRelease

  datatype RestoreAbortPc = BCheck | BFinishCommitted | BNode | BRead | BAvailable | BFinish | BRelease

  datatype RecoverCapturePc = KPersisted | KCommitted | KRead | KCommit | KFail | KFinish | KRelease

  datatype RecoverRestorePc = QRestored | QCommitted | QRead | QAvailable | QFinish | QRelease

  datatype RetirePc = TReserved | TDelete | TRetire

  datatype Op =
    | Capture(cpc: CapturePc, cplan: CapturePlan, seen: Option<L.State>)
    | CaptureAbort(apc: CaptureAbortPc, cplan: CapturePlan, committed: bool)
    | Restore(rpc: RestorePc, rplan: RestorePlan, seen: Option<L.State>, epoch: nat, resumed: bool)
    | RestoreAbort(bpc: RestoreAbortPc, rplan: RestorePlan)
    | RecoverCapture(kpc: RecoverCapturePc, c: CheckpointId, persisted: bool, seen: Option<L.State>,
      verdict: AttemptState)
    | RecoverRestore(qpc: RecoverRestorePc, c: CheckpointId, restored: bool, verdict: AttemptState)
    | Retirement(tpc: RetirePc, c: CheckpointId, protection: Protection, locations: seq<Location>)

  // What nodes are told to do.
  datatype Order =
    | Work
    | Promote(node: NodeName, c: CheckpointId)
    | Discard(node: NodeName, c: CheckpointId)
    | Grant(grant: Grant)

  // Authority as a node holds it and presents it in its heartbeats.
  datatype Grant = GrantOf(workload: WorkloadId, node: NodeName, token: Token, epoch: nat)

  datatype Action = Ask(call: Call) | Tell(order: Order)

  // How one step turns out: `fault` is a store call that fails without effect;
  // `ok` is what a node reports; `applied` says whether a node did as told, which
  // a lost response can hide; `replica` is a location replication has produced.
  datatype Answer = Answer(fault: bool, ok: bool, applied: bool, replica: Option<Location>)

  // set_lifecycle: the state a call site of the capture path asks for
  function CaptureTarget(pc: CapturePc): Option<L.State> {
    match pc
    case CCapturing => Some(L.Capturing)
    case CCaptured => Some(L.Captured)
    case CValidating => Some(L.Validating)
    case CSealed => Some(L.Sealed)
    case CPersisting => Some(L.Persisting)
    case _ => None
  }

  function RestoreTarget(pc: RestorePc): Option<L.State> {
    match pc
    case RPending => Some(L.RestorePending)
    case RRestoring => Some(L.Restoring)
    case _ => None
  }

  // set_lifecycle reads the row in one call and writes it in another.
  function SetLifecycleCall(c: CheckpointId, target: L.State, seen: Option<L.State>): Action {
    Ask(if seen.None? then ReadCheckpoint(c) else EditRow(c, SetLifecycle(target, Pending)))
  }

  function CaptureAction(a: AttemptId, pc: CapturePc, p: CapturePlan, seen: Option<L.State>, ans: Answer): Action {
    match pc
    case CReadGeneration => Ask(ReadMaxGeneration(p.workload))
    case CReserve => Ask(Reserve(a, CaptureOf(p.workload), p.expiresAt))
    case CBegin => Ask(Begin(a, Attempt(CaptureKind, p.checkpoint, p.workload, p.node, Active)))
    case CLogReserved => Ask(Log(CaptureReserved, a))
    case CInsert => Ask(InsertRow(p.checkpoint, Scaffold(p, a)))
    case CCapturing => SetLifecycleCall(p.checkpoint, L.Capturing, seen)
    case CNodeCapture => Tell(Work)
    case CCaptured => SetLifecycleCall(p.checkpoint, L.Captured, seen)
    case CValidating => SetLifecycleCall(p.checkpoint, L.Validating, seen)
    case CDigest => Ask(EditRow(p.checkpoint, SetDigest(p.digest)))
    case CSealed => SetLifecycleCall(p.checkpoint, L.Sealed, seen)
    case CLogSealed => Ask(Log(CaptureSealed, a))
    case CMarkValid => Ask(EditRow(p.checkpoint, SetIntegrity(Valid)))
    case CPersisting => SetLifecycleCall(p.checkpoint, L.Persisting, seen)
    case CPromote => Tell(Promote(p.node, p.checkpoint))
    case CUpdate => Ask(EditRow(p.checkpoint, Overwrite(PersistedRow(p, a))))
    case CLogPersisted => Ask(Log(CapturePersisted, a))
    case CCommit => Ask(CommitCapture(p.checkpoint, a))
    case CResume => Tell(Work)
    case CResumeFailed => Ask(Finish(a, ResumeFailed))
    case CLogResumed => Ask(Log(ResumeDone, a))
    case CReplicate => if ans.replica.Some? then Ask(EditRow(p.checkpoint, AddLocation(ans.replica.value)))
      else Tell(Work)
    case CFinish => Ask(Finish(a, Committed))
    case CRelease => Ask(Release(a))
  }

  function RestoreAction(a: AttemptId, pc: RestorePc, p: RestorePlan, seen: Option<L.State>, epoch: nat, resumed: bool,
        ans: Answer): Action {
    match pc
    case RCheckWorkload => Ask(ReadWorkload(p.workload))
    case RReserve => Ask(Reserve(a, RestoreOf(p.checkpoint), p.expiresAt))
    case RBegin => Ask(Begin(a,
      Attempt(if p.rollback then RollbackKind else RestoreKind, p.checkpoint, p.workload, p.node, Active)))
    case RLogReserved => Ask(Log(RestoreReserved, a))
    case RPending => SetLifecycleCall(p.checkpoint, L.RestorePending, seen)
    case RLogProvisioned => Ask(Log(Provisioned, a))
    case RProbe => if ans.replica.Some? then Ask(EditRow(p.checkpoint, AddLocation(ans.replica.value))) else Tell(Work)
    case RRestoring => SetLifecycleCall(p.checkpoint, L.Restoring, seen)
    case RNodeRestore => Tell(Work)
    case RLogRestored => Ask(Log(ComponentsRestored, a))
    case RCommit => Ask(CommitRestore(p.checkpoint, a, p.node, p.token, p.migration, p.rollback))
    case RReadEpoch => Ask(ReadWorkload(p.workload))
    case RResume => Tell(Grant(GrantOf(p.workload, p.node, p.token, epoch)))
    case RLogResumed => Ask(Log(Resumed, a))
    case RFinish => Ask(Finish(a, if resumed then Committed else CommittedNoResume))
    case RRelease => Ask(Release(a))
  }

  function CaptureAbortAction(a: AttemptId, pc: CaptureAbortPc, p: CapturePlan, committed: bool): Action {
    match pc
    case ACheck => Ask(ReadMarker(DbCommitted, a))
    case ANode => Tell(if committed then Work else Discard(p.node, p.checkpoint))
    case ARead => Ask(ReadCheckpoint(p.checkpoint))
    case AFail => Ask(EditRow(p.checkpoint, SetLifecycle(L.Failed, Pending)))
    case AFinish => Ask(Finish(a, if committed then Committed else AttemptFailed))
    case ARelease => Ask(Release(a))
  }

  function RestoreAbortAction(a: AttemptId, pc: RestoreAbortPc, p: RestorePlan): Action {
    match pc
    case BCheck => Ask(ReadMarker(GenerationCommitted, a))
    case BFinishCommitted => Ask(Finish(a, CommittedNoResume))
    case BNode => Tell(Work)
    case BRead => Ask(ReadCheckpoint(p.checkpoint))
    case BAvailable => Ask(EditRow(p.checkpoint, SetLifecycle(L.Available, Valid)))
    case BFinish => Ask(Finish(a, AttemptFailed))
    case BRelease => Ask(Release(a))
  }

  function RecoverCaptureAction(a: AttemptId, pc: RecoverCapturePc, c: CheckpointId, verdict: AttemptState): Action {
    match pc
    case KPersisted => Ask(ReadMarker(CapturePersisted, a))
    case KCommitted => Ask(ReadMarker(DbCommitted, a))
    case KRead => Ask(ReadCheckpoint(c))
    case KCommit => Ask(CommitCapture(c, a))
    case KFail => Ask(EditRow(c, SetLifecycle(L.Failed, Corrupt)))
    case KFinish => Ask(Finish(a, verdict))
    case KRelease => Ask(Release(a))
  }

  function RecoverRestoreAction(a: AttemptId, pc: RecoverRestorePc, c: CheckpointId, verdict: AttemptState): Action {
    match pc
    case QRestored => Ask(ReadMarker(ComponentsRestored, a))
    case QCommitted => Ask(ReadMarker(GenerationCommitted, a))
    case QRead => Ask(ReadCheckpoint(c))
    case QAvailable => Ask(EditRow(c, SetLifecycle(L.Available, Valid)))
    case QFinish => Ask(Finish(a, verdict))
    case QRelease => Ask(Release(a))
  }

  function RetireAction(pc: RetirePc, c: CheckpointId, locations: seq<Location>): Action {
    match pc
    case TReserved => Ask(ReadReserved(c))
    case TDelete => Tell(if locations == [] then Work else Discard(locations[0].node, c))
    case TRetire => Ask(EditRow(c, Retire))
  }

  function ActionOf(a: AttemptId, op: Op, ans: Answer): Action {
    match op
    case Capture(pc, p, seen) => CaptureAction(a, pc, p, seen, ans)
    case CaptureAbort(pc, p, committed) => CaptureAbortAction(a, pc, p, committed)
    case Restore(pc, p, seen, epoch, resumed) => RestoreAction(a, pc, p, seen, epoch, resumed, ans)
    case RestoreAbort(pc, p) => RestoreAbortAction(a, pc, p)
    case RecoverCapture(pc, c, _, _, verdict) => RecoverCaptureAction(a, pc, c, verdict)
    case RecoverRestore(pc, c, _, verdict) => RecoverRestoreAction(a, pc, c, verdict)
    case Retirement(pc, c, _, locations) => RetireAction(pc, c, locations)
  }

  // Where an operation goes when a step of it fails.
  function FailingCapture(pc: CapturePc, p: CapturePlan): Option<Op> {
    if pc == CReadGeneration || pc == CReserve || pc == CBegin || pc == CLogReserved then None
    else Some(CaptureAbort(ACheck, p, false))
  }

  function FailingRestore(pc: RestorePc, p: RestorePlan): Option<Op> {
    if pc == RCheckWorkload || pc == RReserve || pc == RBegin || pc == RLogReserved then None
    else Some(RestoreAbort(BCheck, p))
  }

  // Recovery refuses to publish the checkpoint.
  function Rejecting(c: CheckpointId, persisted: bool, seen: Option<L.State>): Op {
    if seen == Some(L.Persisting)
      || seen == Some(L.Available) then RecoverCapture(KFail, c, persisted, seen, AttemptFailed)
    else RecoverCapture(KFinish, c, persisted, seen, AttemptFailed)
  }

  function Failing(op: Op): Option<Op> {
    match op
    case Capture(pc, p, _) => FailingCapture(pc, p)
    case Restore(pc, p, _, _, _) => FailingRestore(pc, p)
    case RecoverCapture(pc, c, persisted, seen, _) => if pc == KCommit then Some(Rejecting(c, persisted, seen))
      else None
    case _ => None
  }

  function AfterCapture(pc: CapturePc): CapturePc {
    match pc
    case CReadGeneration => CReserve
    case CReserve => CBegin
    case CBegin => CLogReserved
    case CLogReserved => CInsert
    case CInsert => CCapturing
    case CCapturing => CNodeCapture
    case CNodeCapture => CCaptured
    case CCaptured => CValidating
    case CValidating => CDigest
    case CDigest => CSealed
    case CSealed => CLogSealed
    case CLogSealed => CMarkValid
    case CMarkValid => CPersisting
    case CPersisting => CPromote
    case CPromote => CUpdate
    case CUpdate => CLogPersisted
    case CLogPersisted => CCommit
    case CCommit => CResume
    case CResume => CLogResumed
    case CResumeFailed => CResumeFailed
    case CLogResumed => CReplicate
    case CReplicate => CFinish
    case CFinish => CRelease
    case CRelease => CRelease
  }

  function AfterRestore(pc: RestorePc): RestorePc {
    match pc
    case RCheckWorkload => RReserve
    case RReserve => RBegin
    case RBegin => RLogReserved
    case RLogReserved => RPending
    case RPending => RLogProvisioned
    case RLogProvisioned => RProbe
    case RProbe => RRestoring
    case RRestoring => RNodeRestore
    case RNodeRestore => RLogRestored
    case RLogRestored => RCommit
    case RCommit => RReadEpoch
    case RReadEpoch => RResume
    case RResume => RLogResumed
    case RLogResumed => RFinish
    case RFinish => RRelease
    case RRelease => RRelease
  }

  // validate_target_claim
  predicate TargetMayClaim(w: Workload, node: NodeName, migration: bool) {
    w.singleActive && w.activeNode.Some? ==> w.activeNode.value == node || w.activeNode.value == MIGRATING || migration
  }

  predicate SettledRow(row: Checkpoint) {
    row.lifecycle == L.Available || row.lifecycle == L.Restored || row.lifecycle == L.Retired
  }

  predicate MidRestore(row: Checkpoint) {
    row.lifecycle == L.RestorePending || row.lifecycle == L.Restoring
  }

  // The reading half of set_lifecycle: keep the state when the transition is legal.
  function Reading(reply: Reply, target: L.State): Option<L.State> {
    if reply.Row? && reply.row.Some? && reply.row.value.lifecycle.CanTransition(target)
      then Some(reply.row.value.lifecycle)
    else None
  }

  function NextCapture(pc: CapturePc, p: CapturePlan, seen: Option<L.State>, reply: Reply, ans: Answer): Option<Op> {
    var onward := Some(Capture(AfterCapture(pc), p, None));
    var failing := FailingCapture(pc, p);
    if CaptureTarget(pc).Some? && seen.None? then
      var now := Reading(reply, CaptureTarget(pc).value);
      if now.Some? then Some(Capture(pc, p, now)) else failing
    else if reply.Refused? then failing
    else
      match pc
      case CReadGeneration => if reply.Generation? then Some(Capture(CReserve, p.(generation := reply.n + 1), None))
        else None
      case CNodeCapture => if ans.ok then onward else failing
      case CPromote => if ans.ok then onward else failing
      // a lost answer aborts at once, an explicit refusal is recorded first
      case CResume => if ans.ok then onward else if ans.applied then Some(Capture(CResumeFailed, p, None)) else failing
      case CResumeFailed => failing
      case CReplicate => if ans.replica.Some? then Some(Capture(pc, p, None)) else if ans.ok then onward else failing
      case CRelease => None
      case _ => onward
  }

  function NextCaptureAbort(pc: CaptureAbortPc, p: CapturePlan, committed: bool, reply: Reply): Option<Op> {
    match pc
    case ACheck => if reply.Flag? then Some(CaptureAbort(ANode, p, reply.yes)) else None
    case ANode => Some(CaptureAbort(ARead, p, committed))
    case ARead =>
      Some(CaptureAbort(if !committed && reply.Row? && reply.row.Some? && !SettledRow(reply.row.value) then AFail
        else AFinish,
                        p, committed))
    case AFail => if reply.Refused? then None else Some(CaptureAbort(AFinish, p, committed))
    case AFinish => Some(CaptureAbort(ARelease, p, committed))
    case ARelease => None
  }

  function NextRestore(pc: RestorePc, p: RestorePlan, seen: Option<L.State>, epoch: nat, resumed: bool, reply: Reply,
        ans: Answer): Option<Op> {
    var onward := Some(Restore(AfterRestore(pc), p, None, epoch, resumed));
    var failing := FailingRestore(pc, p);
    if RestoreTarget(pc).Some? && seen.None? then
      var now := Reading(reply, RestoreTarget(pc).value);
      if now.Some? then Some(Restore(pc, p, now, epoch, resumed)) else failing
    else if reply.Refused? then failing
    else
      match pc
      case RCheckWorkload =>
        if reply.WorkloadRow? && reply.workload.Some? && TargetMayClaim(reply.workload.value, p.node, p.migration)
          then onward else None
      case RProbe => if ans.replica.Some? || ans.ok then onward else failing
      case RNodeRestore => if ans.ok then onward else failing
      case RReadEpoch =>
        if reply.WorkloadRow?
          && reply.workload.Some? then Some(Restore(RResume, p, None, reply.workload.value.executionEpoch, false))
        else failing
      case RResume => Some(Restore(RLogResumed, p, None, epoch, p.resume && ans.ok))
      case RRelease => None
      case _ => onward
  }

  function NextRestoreAbort(pc: RestoreAbortPc, p: RestorePlan, reply: Reply): Option<Op> {
    match pc
    case BCheck => if reply.Flag? then Some(RestoreAbort(if reply.yes then BFinishCommitted else BNode, p)) else None
    case BFinishCommitted => Some(RestoreAbort(BRelease, p))
    case BNode => Some(RestoreAbort(BRead, p))
    case BRead => Some(RestoreAbort(if reply.Row? && reply.row.Some? && MidRestore(reply.row.value) then BAvailable
      else BFinish, p))
    case BAvailable => if reply.Refused? then None else Some(RestoreAbort(BFinish, p))
    case BFinish => Some(RestoreAbort(BRelease, p))
    case BRelease => None
  }

  function NextRecoverCapture(pc: RecoverCapturePc, c: CheckpointId, persisted: bool, seen: Option<L.State>,
        verdict: AttemptState, reply: Reply): Option<Op> {
    match pc
    case KPersisted => if reply.Flag? then Some(RecoverCapture(KCommitted, c, reply.yes, None, Active)) else None
    case KCommitted =>
      if !reply.Flag? then None
      else if reply.yes then Some(RecoverCapture(KFinish, c, persisted, None, Committed))
      else if persisted then Some(RecoverCapture(KRead, c, persisted, None, Active))
      else Some(RecoverCapture(KFinish, c, persisted, None, AttemptFailed))
    case KRead =>
      if reply.Row? && reply.row.Some?
        then Some(RecoverCapture(KCommit, c, persisted, Some(reply.row.value.lifecycle), Active)) else None
    case KCommit => Some(if reply.Refused? then Rejecting(c, persisted, seen)
      else RecoverCapture(KFinish, c, persisted, seen, Committed))
    case KFail => if reply.Refused? then None else Some(RecoverCapture(KFinish, c, persisted, seen, verdict))
    case KFinish => Some(RecoverCapture(KRelease, c, persisted, seen, verdict))
    case KRelease => None
  }

  function NextRecoverRestore(pc: RecoverRestorePc, c: CheckpointId, restored: bool, verdict: AttemptState,
        reply: Reply): Option<Op> {
    match pc
    case QRestored => if reply.Flag? then Some(RecoverRestore(QCommitted, c, reply.yes, Active)) else None
    case QCommitted =>
      if !reply.Flag? then None
      else if reply.yes then Some(RecoverRestore(QFinish, c, restored, Committed))
      else Some(RecoverRestore(if restored then QRead else QFinish, c, restored, AttemptFailed))
    case QRead =>
      Some(RecoverRestore(if reply.Row? && reply.row.Some? && MidRestore(reply.row.value) then QAvailable else QFinish,
                          c, restored, verdict))
    case QAvailable => if reply.Refused? then None else Some(RecoverRestore(QFinish, c, restored, verdict))
    case QFinish => Some(RecoverRestore(QRelease, c, restored, verdict))
    case QRelease => None
  }

  function NextRetire(pc: RetirePc, c: CheckpointId, protection: Protection, locations: seq<Location>, reply: Reply,
        ans: Answer): Option<Op> {
    match pc
    case TReserved =>
      if reply == Flag(false) && protection == Unprotected then Some(Retirement(TDelete, c, protection, locations))
        else None
    // one cleanup call per location read at the start; a failed one gives up
    case TDelete =>
      if locations == [] then Some(Retirement(TRetire, c, protection, []))
      else if !ans.ok then None
      else Some(Retirement(TDelete, c, protection, locations[1..]))
    case TRetire => None
  }

  function Next(op: Op, reply: Reply, ans: Answer): Option<Op> {
    match op
    case Capture(pc, p, seen) => NextCapture(pc, p, seen, reply, ans)
    case CaptureAbort(pc, p, committed) => NextCaptureAbort(pc, p, committed, reply)
    case Restore(pc, p, seen, epoch, resumed) => NextRestore(pc, p, seen, epoch, resumed, reply, ans)
    case RestoreAbort(pc, p) => NextRestoreAbort(pc, p, reply)
    case RecoverCapture(pc, c, persisted, seen, verdict) => NextRecoverCapture(pc, c, persisted, seen, verdict, reply)
    case RecoverRestore(pc, c, restored, verdict) => NextRecoverRestore(pc, c, restored, verdict, reply)
    case Retirement(pc, c, protection, locations) => NextRetire(pc, c, protection, locations, reply, ans)
  }

  // ---------------- runs ----------------

  datatype Sys = Sys(
    db: Db,
    ops: map<AttemptId, Op>,                     // live operations, lost in a crash
    promoted: set<(NodeName, CheckpointId)>,     // committed directories on nodes
    grants: set<Grant>,                          // every grant ever handed to a node
    tokens: set<Token>,                          // every fence token ever chosen
    bumps: map<WorkloadId, nat>)                 // successful fence bumps per workload

  const EmptySys := Sys(EmptyDb, map[], {}, {}, {}, map[])

  datatype Event =
    | CreateWorkload(w: WorkloadId, resumability: Resumability, singleActive: bool, holder: Option<(NodeName, Token)>)
    | ForkWorkload(w: WorkloadId, c: CheckpointId, resumability: Resumability, singleActive: bool)
    | Attach(w: WorkloadId, node: NodeName, token: Token, epoch: nat)
    | Detach(w: WorkloadId, node: NodeName)
    | Fence(w: WorkloadId, epoch: nat)
    | BeginCapture(a: AttemptId, cplan: CapturePlan)
    | BeginRestore(a: AttemptId, rplan: RestorePlan)
    | BeginRetire(a: AttemptId, c: CheckpointId)
    | BeginRecovery(a: AttemptId)
    | Regrant(w: WorkloadId, node: NodeName)
    | Advance(a: AttemptId, ans: Answer)
    | Die(a: AttemptId)
    | Crash
    | ExpireReservations(before: nat)
    | RebindReplica(c: CheckpointId, node: NodeName, path: Path)
    | Protect(c: CheckpointId, protection: Protection)
    | Verify(c: CheckpointId, valid: bool)

  function CheckpointOf(op: Op): CheckpointId {
    match op
    case Capture(_, p, _) => p.checkpoint
    case CaptureAbort(_, p, _) => p.checkpoint
    case Restore(_, p, _, _, _) => p.checkpoint
    case RestoreAbort(_, p) => p.checkpoint
    case RecoverCapture(_, c, _, _, _) => c
    case RecoverRestore(_, c, _, _) => c
    case Retirement(_, c, _, _) => c
  }

  // Attempt and checkpoint ids are random and never reused.
  ghost predicate FreshAttempt(s: Sys, a: AttemptId) {
    a !in s.ops && a !in s.db.attempts && a !in s.db.reservations && forall m :: (m, a) !in s.db.journal
  }

  ghost predicate FreshCheckpoint(s: Sys, c: CheckpointId) {
    c !in s.db.checkpoints
    && (forall a :: a in s.db.attempts ==> s.db.attempts[a].checkpoint != c)
    && (forall a :: a in s.ops ==> CheckpointOf(s.ops[a]) != c)
  }

  // request_capture up to the reading of the workload row
  ghost predicate MayCapture(s: Sys, a: AttemptId, p: CapturePlan) {
    FreshAttempt(s, a) && FreshCheckpoint(s, p.checkpoint)
    && p.workload in s.db.workloads
    && var w := s.db.workloads[p.workload];
       w.fenceToken.Some? && w.activeNode.Some? && p.workloadGeneration == w.generation && p.digest != ""
  }

  // request_restore up to the reading of the checkpoint row
  ghost predicate MayRestore(s: Sys, a: AttemptId, p: RestorePlan) {
    FreshAttempt(s, a) && p.checkpoint in s.db.checkpoints
    && var row := s.db.checkpoints[p.checkpoint];
       row.lifecycle.IsRestorable() && row.integrity != Corrupt && row.locations != [] && p.workload == row.workload
       && !(p.migration && p.rollback)
  }

  function NewWorkload(resumability: Resumability, singleActive: bool, holder: Option<(NodeName, Token)>,
        parent: Option<WorkloadId>): Workload {
    Workload(0, 0, if holder.Some? then Some(holder.value.0) else None, if holder.Some? then Some(holder.value.1)
      else None,
             0, 0, resumability, singleActive, parent)
  }

  ghost function Obey(s: Sys, order: Order, ans: Answer): Sys {
    match order
    case Work => s
    case Promote(node, c) => if ans.ok || ans.applied then s.(promoted := s.promoted + {(node, c)}) else s
    case Discard(node, c) => if ans.ok || ans.applied then s.(promoted := s.promoted - {(node, c)}) else s
    case Grant(g) => s.(grants := s.grants + {g})
  }

  ghost function Moved(s: Sys, a: AttemptId, next: Option<Op>): Sys {
    s.(ops := if next.Some? then s.ops[a := next.value] else s.ops - {a})
  }

  ghost function AdvanceOp(s: Sys, a: AttemptId, ans: Answer): Sys
    requires a in s.ops
  {
    var op := s.ops[a];
    match ActionOf(a, op, ans)
    case Ask(call) =>
      if ans.fault then Moved(s, a, Failing(op))
      else
        var (db, reply) := Exec(s.db, call);
        Moved(s.(db := db), a, Next(op, reply, ans))
    case Tell(order) =>
      Moved(Obey(s, order, ans), a, Next(op, Done, ans))
  }

  ghost function Store(s: Sys, call: Call): Sys {
    s.(db := Exec(s.db, call).0)
  }

  ghost function RecoveryOf(s: Sys, a: AttemptId): Op
    requires a in s.db.attempts
  {
    var c := s.db.attempts[a].checkpoint;
    if s.db.attempts[a].kind == CaptureKind then RecoverCapture(KPersisted, c, false, None, Active)
    else RecoverRestore(QRestored, c, false, Active)
  }

  // One event; an event that is not enabled changes nothing.
  ghost function Step(s: Sys, e: Event): Sys {
    match e
    case CreateWorkload(w, resumability, singleActive, holder) =>
      if w in s.db.workloads || (holder.Some? && holder.value.1 in s.tokens) then s
      else
        var s1 := Store(s, CreateRow(w, NewWorkload(resumability, singleActive, holder, None)));
        if holder.None? then s1
        else s1.(tokens := s.tokens + {holder.value.1}, grants :=
          s.grants + {GrantOf(w, holder.value.0, holder.value.1, 0)})
    case ForkWorkload(w, c, resumability, singleActive) =>
      if c !in s.db.checkpoints then s
      else
        var parent := s.db.checkpoints[c].workload;
        Store(s, ForkRow(w, NewWorkload(resumability, singleActive, None, Some(parent)), parent, c))
    case Attach(w, node, token, epoch) =>
      if token in s.tokens || Exec(s.db, EditWorkloadRow(w, Claim(node, token, epoch))).1.Refused? then s
      else Store(s, EditWorkloadRow(w, Claim(node, token, epoch))).(
             tokens := s.tokens + {token}, grants := s.grants + {GrantOf(w, node, token, epoch)})
    case Detach(w, node) => Store(s, EditWorkloadRow(w, Unclaim(node)))
    case Fence(w, epoch) =>
      if Exec(s.db, EditWorkloadRow(w, BumpFence(epoch))).1.Refused? then s
      else Store(s, EditWorkloadRow(w, BumpFence(epoch))).(bumps :=
        s.bumps[w := (if w in s.bumps then s.bumps[w] else 0) + 1])
    case BeginCapture(a, p) =>
      if !MayCapture(s, a, p) then s else s.(ops := s.ops[a := Capture(CReadGeneration, p, None)])
    case BeginRestore(a, p) =>
      if !MayRestore(s, a, p) then s
      else s.(ops := s.ops[a := Restore(RCheckWorkload, p, None, 0, false)], tokens := s.tokens + {p.token})
    case BeginRetire(a, c) =>
      if !FreshAttempt(s, a) || c !in s.db.checkpoints then s
      else s.(ops :=
        s.ops[a := Retirement(TReserved, c, s.db.checkpoints[c].protection, s.db.checkpoints[c].locations)])
    case BeginRecovery(a) =>
      if a !in s.db.attempts || s.db.attempts[a].state != Active || a in s.ops then s
      else s.(ops := s.ops[a := RecoveryOf(s, a)])
    case Regrant(w, node) =>
      if w !in s.db.workloads || s.db.workloads[w].fenceToken.None? then s
      else s.(grants :=
        s.grants + {GrantOf(w, node, s.db.workloads[w].fenceToken.value, s.db.workloads[w].executionEpoch)})
    case Advance(a, ans) => if a in s.ops then AdvanceOp(s, a, ans) else s
    case Die(a) => s.(ops := s.ops - {a})
    case Crash => s.(ops := map[])
    case ExpireReservations(before) => Store(s, Expire(before))
    case RebindReplica(c, node, path) => Store(s, EditRow(c, Rebind(node, path)))
    case Protect(c, p) => Store(s, EditRow(c, SetProtection(p)))
    case Verify(c, valid) => Store(s, EditRow(c, SetIntegrity(if valid then Valid else Corrupt)))
  }

  ghost function Run(s: Sys, events: seq<Event>): Sys
    decreases |events|
  {
    if events == [] then s else Step(Run(s, events[..|events| - 1]), events[|events| - 1])
  }
}
