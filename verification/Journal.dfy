// The recovery journal against the verdicts of attempts, over every run.
module Journal {
  import opened Wrappers
  import opened Tables
  import opened Operations
  import L = Lifecycle

  // The journal entries of one attempt.
  ghost function MarksOf(db: Db, a: AttemptId): (m: set<Marker>)
    ensures forall x :: x in m <==> (x, a) in db.journal
  {
    set x: Marker | (x, a) in db.journal
  }

  ghost function AttemptOf(db: Db, a: AttemptId): Option<Attempt> {
    if a in db.attempts then Some(db.attempts[a]) else None
  }

  ghost function OpOf(s: Sys, a: AttemptId): Option<Op> {
    if a in s.ops then Some(s.ops[a]) else None
  }

  predicate NoRestoreMarks(m: set<Marker>) {
    RestoreReserved !in m && Provisioned !in m && ComponentsRestored !in m && GenerationCommitted !in m && Resumed !in m
    && AuthorityTransferred !in m
  }

  predicate NoCaptureMarks(m: set<Marker>) {
    CaptureReserved !in m && CaptureSealed !in m && CapturePersisted !in m && DbCommitted !in m && ResumeDone !in m
  }

  // Every stage a capture has reached implies the ones before it, and a capture
  // has no restore entries.
  predicate CaptureClosed(m: set<Marker>) {
    && (ResumeDone in m ==> DbCommitted in m) && (DbCommitted in m ==> CapturePersisted in m)
    && (CapturePersisted in m ==> CaptureSealed in m) && (CaptureSealed in m ==> CaptureReserved in m)
    && NoRestoreMarks(m)
  }

  predicate RestoreClosed(m: set<Marker>) {
    && (Resumed in m ==> GenerationCommitted in m) && (GenerationCommitted in m ==> ComponentsRestored in m)
    && (ComponentsRestored in m ==> Provisioned in m) && (Provisioned in m ==> RestoreReserved in m)
    && (AuthorityTransferred in m ==> GenerationCommitted in m)
    && NoCaptureMarks(m)
  }

  predicate Closed(kind: AttemptKind, m: set<Marker>) {
    if kind == CaptureKind then CaptureClosed(m) else RestoreClosed(m)
  }

  // The marker that decides a capture and the one that decides a restore.
  predicate Decided(kind: AttemptKind, m: set<Marker>) {
    if kind == CaptureKind then DbCommitted in m else GenerationCommitted in m
  }

  predicate CommittedType(state: AttemptState) {
    state == Committed || state == CommittedNoResume || state == ResumeFailed
  }

  // A finished attempt is reported committed exactly when its commit marker
  // exists, and failed exactly when it does not.
  predicate VerdictAgrees(attempt: Attempt, m: set<Marker>) {
    attempt.state != Active ==>
      (CommittedType(attempt.state) <==> Decided(attempt.kind, m))
        && (attempt.state == AttemptFailed <==> !Decided(attempt.kind, m))
  }

  // ---------------- what a live operation knows about its journal ----------------

  // How many of the five capture stages are journaled when pc is reached.
  function CaptureStage(pc: CapturePc): nat {
    match pc
    case CReadGeneration => 0
    case CReserve => 0
    case CBegin => 0
    case CLogReserved => 0
    case CMarkValid => 2
    case CPersisting => 2
    case CPromote => 2
    case CUpdate => 2
    case CLogPersisted => 2
    case CCommit => 3
    case CResume => 4
    case CResumeFailed => 4
    case CLogResumed => 4
    case CReplicate => 5
    case CFinish => 5
    case CRelease => 5
    case _ => 1
  }

  predicate CaptureMarks(m: set<Marker>, n: nat) {
    && (CaptureReserved in m <==> n >= 1) && (CaptureSealed in m <==> n >= 2) && (CapturePersisted in m <==> n >= 3)
    && (DbCommitted in m <==> n >= 4) && (ResumeDone in m <==> n >= 5)
    && NoRestoreMarks(m)
  }

  function RestoreStage(pc: RestorePc): nat {
    match pc
    case RCheckWorkload => 0
    case RReserve => 0
    case RBegin => 0
    case RLogReserved => 0
    case RPending => 1
    case RLogProvisioned => 1
    case RProbe => 2
    case RRestoring => 2
    case RNodeRestore => 2
    case RLogRestored => 2
    case RCommit => 3
    case RReadEpoch => 4
    case RResume => 4
    case RLogResumed => 4
    case RFinish => 5
    case RRelease => 5
  }

  predicate RestoreMarks(m: set<Marker>, n: nat, migration: bool) {
    && (RestoreReserved in m <==> n >= 1) && (Provisioned in m <==> n >= 2) && (ComponentsRestored in m <==> n >= 3)
    && (GenerationCommitted in m <==> n >= 4) && (Resumed in m <==> n >= 5)
    && (AuthorityTransferred in m <==> migration && n >= 4)
    && NoCaptureMarks(m)
  }

  predicate NoMarks(m: set<Marker>) {
    NoCaptureMarks(m) && NoRestoreMarks(m)
  }

  ghost predicate Began(attempt: Option<Attempt>, captures: bool, c: CheckpointId) {
    attempt.Some? && (attempt.value.kind == CaptureKind <==> captures) && attempt.value.checkpoint == c
  }

  ghost predicate Running(attempt: Option<Attempt>, captures: bool, c: CheckpointId) {
    Began(attempt, captures, c) && attempt.value.state == Active
  }

  ghost predicate Over(attempt: Option<Attempt>, captures: bool, c: CheckpointId, m: set<Marker>) {
    Began(attempt, captures, c) && attempt.value.state != Active && VerdictAgrees(attempt.value, m)
  }

  ghost predicate LocalCapture(m: set<Marker>, attempt: Option<Attempt>, pc: CapturePc, p: CapturePlan) {
    CaptureMarks(m, CaptureStage(pc))
    && (match pc
        case CReadGeneration => attempt.None?
        case CReserve => attempt.None?
        case CBegin => attempt.None?
        case CRelease => Over(attempt, true, p.checkpoint, m)
        case _ => Running(attempt, true, p.checkpoint))
    && (attempt.Some? ==> attempt.value.workload == p.workload && attempt.value.node == p.node)
  }

  ghost predicate LocalCaptureAbort(m: set<Marker>, attempt: Option<Attempt>, pc: CaptureAbortPc, c: CheckpointId,
        committed: bool) {
    CaptureClosed(m)
    && (pc != ACheck ==> (committed <==> DbCommitted in m))
    && Began(attempt, true, c)
    && VerdictAgrees(attempt.value, m)
    && (if pc == ARelease then attempt.value.state != Active else attempt.value.state != AttemptFailed)
    && (pc == AFail ==> !committed)
  }

  ghost predicate LocalRestore(m: set<Marker>, attempt: Option<Attempt>, pc: RestorePc, p: RestorePlan) {
    RestoreMarks(m, RestoreStage(pc), p.migration)
    && (match pc
        case RCheckWorkload => attempt.None?
        case RReserve => attempt.None?
        case RBegin => attempt.None?
        case RRelease => Over(attempt, false, p.checkpoint, m)
        case _ => Running(attempt, false, p.checkpoint))
    && (attempt.Some? ==>
          attempt.value.workload == p.workload && attempt.value.node == p.node
          && attempt.value.kind == if p.rollback then RollbackKind else RestoreKind)
  }

  ghost predicate LocalRestoreAbort(m: set<Marker>, attempt: Option<Attempt>, pc: RestoreAbortPc, c: CheckpointId) {
    RestoreClosed(m)
    && Began(attempt, false, c)
    && VerdictAgrees(attempt.value, m)
    && (match pc
        case BCheck => attempt.value.state != AttemptFailed
        case BFinishCommitted => GenerationCommitted in m
        case BRelease => attempt.value.state != Active
        case _ => GenerationCommitted !in m && attempt.value.state == Active)
  }

  ghost predicate LocalRecoverCapture(m: set<Marker>, attempt: Option<Attempt>, pc: RecoverCapturePc, c: CheckpointId,
        persisted: bool, verdict: AttemptState) {
    CaptureClosed(m)
    && (pc != KPersisted ==> (persisted <==> CapturePersisted in m))
    && (match pc
        case KPersisted => Running(attempt, true, c)
        case KCommitted => Running(attempt, true, c)
        case KFinish => Running(attempt, true, c) && verdict == (if DbCommitted in m then Committed else AttemptFailed)
        case KRelease => Over(attempt, true, c, m)
        case KFail => Running(attempt, true, c) && CapturePersisted in m && DbCommitted !in m
          && verdict == AttemptFailed
        case _ => Running(attempt, true, c) && CapturePersisted in m && DbCommitted !in m)
  }

  ghost predicate LocalRecoverRestore(m: set<Marker>, attempt: Option<Attempt>, pc: RecoverRestorePc, c: CheckpointId,
        restored: bool, verdict: AttemptState) {
    RestoreClosed(m)
    && (pc != QRestored ==> (restored <==> ComponentsRestored in m))
    && (match pc
        case QRestored => Running(attempt, false, c)
        case QCommitted => Running(attempt, false, c)
        case QFinish => Running(attempt, false, c)
          && verdict == (if GenerationCommitted in m then Committed else AttemptFailed)
        case QRelease => Over(attempt, false, c, m)
        case _ =>
          Running(attempt, false, c) && ComponentsRestored in m && GenerationCommitted !in m
          && verdict == AttemptFailed)
  }

  ghost predicate LocalOp(m: set<Marker>, attempt: Option<Attempt>, op: Op) {
    match op
    case Capture(pc, p, _) => LocalCapture(m, attempt, pc, p)
    case CaptureAbort(pc, p, committed) => LocalCaptureAbort(m, attempt, pc, p.checkpoint, committed)
    case Restore(pc, p, _, _, _) => LocalRestore(m, attempt, pc, p)
    case RestoreAbort(pc, p) => LocalRestoreAbort(m, attempt, pc, p.checkpoint)
    case RecoverCapture(pc, c, persisted, _, verdict) => LocalRecoverCapture(m, attempt, pc, c, persisted, verdict)
    case RecoverRestore(pc, c, restored, verdict) => LocalRecoverRestore(m, attempt, pc, c, restored, verdict)
    case Retirement(_, _, _, _) => NoMarks(m) && attempt.None?
  }

  ghost predicate LocalDead(m: set<Marker>, attempt: Option<Attempt>) {
    if attempt.None? then NoMarks(m) else Closed(attempt.value.kind, m) && VerdictAgrees(attempt.value, m)
  }

  ghost predicate Local(m: set<Marker>, attempt: Option<Attempt>, op: Option<Op>) {
    if op.None? then LocalDead(m, attempt) else LocalOp(m, attempt, op.value)
  }

  ghost predicate At(s: Sys, a: AttemptId) {
    Local(MarksOf(s.db, a), AttemptOf(s.db, a), OpOf(s, a))
  }

  ghost predicate Inv(s: Sys) {
    forall a :: At(s, a)
  }

  // ---------------- one step ----------------

  predicate Touches(call: Call, a: AttemptId) {
    match call
    case CommitCapture(_, b) => b == a
    case CommitRestore(_, b, _, _, _, _) => b == a
    case Begin(b, _) => b == a
    case Finish(b, _) => b == a
    case Log(_, b) => b == a
    case _ => false
  }

  // The journal entries a call adds, and the attempt row it leaves.
  function Entries(call: Call, reply: Reply): set<(Marker, AttemptId)> {
    match call
    case CommitCapture(_, a) => if reply.Done? then {(DbCommitted, a)} else {}
    case CommitRestore(_, a, _, _, migration, _) =>
      if reply.Done? then (if migration then {(AuthorityTransferred, a)} else {}) + {(GenerationCommitted, a)} else {}
    case Log(marker, a) => {(marker, a)}
    case _ => {}
  }

  function Attempts(attempts: map<AttemptId, Attempt>, call: Call): map<AttemptId, Attempt> {
    match call
    case Begin(a, row) => if a in attempts then attempts else attempts[a := row]
    case Finish(a, state) => if a in attempts then attempts[a := attempts[a].(state := state)] else attempts
    case _ => attempts
  }

  lemma ExecJournal(db: Db, call: Call)
    ensures Exec(db, call).0.journal == db.journal + Entries(call, Exec(db, call).1)
    ensures Exec(db, call).0.attempts == Attempts(db.attempts, call)
  {
    match call
    case CommitCapture(c, a) =>
    case CommitRestore(c, a, node, token, migration, rollback) =>
    case _ =>
  }

  lemma ExecFrame(db: Db, call: Call, a: AttemptId)
    requires !Touches(call, a)
    ensures MarksOf(Exec(db, call).0, a) == MarksOf(db, a)
    ensures AttemptOf(Exec(db, call).0, a) == AttemptOf(db, a)
  {
    ExecJournal(db, call);
    forall m ensures (m, a) in Exec(db, call).0.journal <==> (m, a) in db.journal {}
  }

  // An operation that stops, for whatever reason, leaves evidence recovery can read.
  lemma DeadIsLocal(m: set<Marker>, attempt: Option<Attempt>, op: Op)
    requires LocalOp(m, attempt, op)
    ensures LocalDead(m, attempt)
  {}

  lemma FailingIsLocal(m: set<Marker>, attempt: Option<Attempt>, op: Op)
    requires LocalOp(m, attempt, op)
    ensures Local(m, attempt, Failing(op))
  {}

  // What a call of attempt a does to a's own journal entries and attempt row.
  function LocalMarks(m: set<Marker>, call: Call, reply: Reply): set<Marker> {
    match call
    case CommitCapture(_, _) => if reply.Done? then m + {DbCommitted} else m
    case CommitRestore(_, _, _, _, migration, _) =>
      if !reply.Done? then m
      else if migration then m + {AuthorityTransferred, GenerationCommitted}
      else m + {GenerationCommitted}
    case Log(marker, _) => m + {marker}
    case _ => m
  }

  function LocalAttempt(attempt: Option<Attempt>, call: Call): Option<Attempt> {
    match call
    case Begin(_, row) => if attempt.Some? then attempt else Some(row)
    case Finish(_, state) => if attempt.Some? then Some(attempt.value.(state := state)) else None
    case _ => attempt
  }

  predicate Fits(m: set<Marker>, call: Call, reply: Reply) {
    match call
    case ReadMarker(marker, _) => reply == Flag(marker in m)
    case CommitCapture(_, _) => reply.Done? || reply.Refused?
    case CommitRestore(_, _, _, _, _, _) => reply.Done? || reply.Refused?
    case Begin(_, _) => reply.Done?
    case Finish(_, _) => reply.Done?
    case Log(_, _) => reply.Done?
    case _ => true
  }

  // Calls that name an attempt name the one that makes them.
  predicate Own(call: Call, a: AttemptId) {
    match call
    case CommitCapture(_, b) => b == a
    case CommitRestore(_, b, _, _, _, _) => b == a
    case Begin(b, _) => b == a
    case Finish(b, _) => b == a
    case Log(_, b) => b == a
    case ReadMarker(_, b) => b == a
    case _ => true
  }

  lemma ExecLocal(db: Db, call: Call, a: AttemptId)
    requires Own(call, a)
    ensures MarksOf(Exec(db, call).0, a) == LocalMarks(MarksOf(db, a), call, Exec(db, call).1)
    ensures AttemptOf(Exec(db, call).0, a) == LocalAttempt(AttemptOf(db, a), call)
  {
    ExecJournal(db, call);
    hide Exec;
  }

  lemma ExecFits(db: Db, call: Call, a: AttemptId)
    requires Own(call, a)
    ensures Fits(MarksOf(db, a), call, Exec(db, call).1)
  {}

  lemma CallsAreOwn(a: AttemptId, op: Op, ans: Answer)
    ensures ActionOf(a, op, ans).Ask? ==>
              Own(ActionOf(a, op, ans).call, a) && forall b :: b != a ==> !Touches(ActionOf(a, op, ans).call, b)
  {}

  // The attempt's evidence stays readable after the action and the move to next.
  ghost predicate Keeps(m: set<Marker>, attempt: Option<Attempt>, action: Action, reply: Reply, next: Option<Op>) {
    match action
    case Ask(call) => Fits(m, call, reply) ==> Local(LocalMarks(m, call, reply), LocalAttempt(attempt, call), next)
    case Tell(_) => Local(m, attempt, next)
  }

  lemma CaptureKeepsEarly(a: AttemptId, m: set<Marker>, attempt: Option<Attempt>, pc: CapturePc, p: CapturePlan,
        seen: Option<L.State>, reply: Reply, ans: Answer)
    requires LocalCapture(m, attempt, pc, p) && CaptureStage(pc) < 1
    ensures Keeps(m, attempt, CaptureAction(a, pc, p, seen, ans), reply, NextCapture(pc, p, seen, reply, ans))
  {
    hide Scaffold, PersistedRow, Reading, TargetMayClaim, LocalRestore, LocalRestoreAbort, LocalRecoverCapture,
      LocalRecoverRestore;
    match pc {
      case CReadGeneration =>
      case CReserve =>
      case CBegin =>
      case CLogReserved =>
      case _ =>
    }
  }

  lemma CaptureKeepsReserved(a: AttemptId, m: set<Marker>, attempt: Option<Attempt>, pc: CapturePc, p: CapturePlan,
        seen: Option<L.State>, reply: Reply, ans: Answer)
    requires LocalCapture(m, attempt, pc, p) && CaptureStage(pc) == 1
    ensures Keeps(m, attempt, CaptureAction(a, pc, p, seen, ans), reply, NextCapture(pc, p, seen, reply, ans))
  {
    hide Scaffold, PersistedRow, Reading, TargetMayClaim, LocalRestore, LocalRestoreAbort, LocalRecoverCapture,
      LocalRecoverRestore;
    match pc {
      case CInsert =>
      case CCapturing =>
      case CNodeCapture =>
      case CCaptured =>
      case CValidating =>
      case CDigest =>
      case CSealed =>
      case CLogSealed =>
      case _ =>
    }
  }

  lemma CaptureKeepsMiddle(a: AttemptId, m: set<Marker>, attempt: Option<Attempt>, pc: CapturePc, p: CapturePlan,
        seen: Option<L.State>, reply: Reply, ans: Answer)
    requires LocalCapture(m, attempt, pc, p) && CaptureStage(pc) == 2
    ensures Keeps(m, attempt, CaptureAction(a, pc, p, seen, ans), reply, NextCapture(pc, p, seen, reply, ans))
  {
    hide Scaffold, PersistedRow, Reading, TargetMayClaim, LocalRestore, LocalRestoreAbort, LocalRecoverCapture,
      LocalRecoverRestore;
    match pc {
      case CMarkValid =>
      case CPersisting =>
      case CPromote =>
      case CUpdate =>
      case CLogPersisted =>
      case _ =>
    }
  }

  lemma CaptureCommitKeeps(a: AttemptId, m: set<Marker>, attempt: Option<Attempt>, p: CapturePlan,
        seen: Option<L.State>, reply: Reply, ans: Answer)
    requires LocalCapture(m, attempt, CCommit, p)
    ensures Keeps(m, attempt, CaptureAction(a, CCommit, p, seen, ans), reply, NextCapture(CCommit, p, seen, reply, ans))
  {
    hide Scaffold, PersistedRow, Reading, TargetMayClaim, LocalRestore, LocalRestoreAbort, LocalRecoverCapture,
      LocalRecoverRestore;
  }

  lemma CaptureKeepsCommitted(a: AttemptId, m: set<Marker>, attempt: Option<Attempt>, pc: CapturePc, p: CapturePlan,
        seen: Option<L.State>, reply: Reply, ans: Answer)
    requires LocalCapture(m, attempt, pc, p) && CaptureStage(pc) == 4
    ensures Keeps(m, attempt, CaptureAction(a, pc, p, seen, ans), reply, NextCapture(pc, p, seen, reply, ans))
  {
    hide Scaffold, PersistedRow, Reading, TargetMayClaim, LocalRestore, LocalRestoreAbort, LocalRecoverCapture,
      LocalRecoverRestore;
    match pc {
      case CResume =>
      case CResumeFailed =>
      case CLogResumed =>
      case _ =>
    }
  }

  lemma CaptureKeepsLate(a: AttemptId, m: set<Marker>, attempt: Option<Attempt>, pc: CapturePc, p: CapturePlan,
        seen: Option<L.State>, reply: Reply, ans: Answer)
    requires LocalCapture(m, attempt, pc, p) && CaptureStage(pc) > 4
    ensures Keeps(m, attempt, CaptureAction(a, pc, p, seen, ans), reply, NextCapture(pc, p, seen, reply, ans))
  {
    hide Scaffold, PersistedRow, Reading, TargetMayClaim, LocalRestore, LocalRestoreAbort, LocalRecoverCapture,
      LocalRecoverRestore;
    match pc {
      case CReplicate =>
      case CFinish =>
      case CRelease =>
      case _ =>
    }
  }

  lemma CaptureKeeps(a: AttemptId, m: set<Marker>, attempt: Option<Attempt>, pc: CapturePc, p: CapturePlan,
        seen: Option<L.State>, reply: Reply, ans: Answer)
    requires LocalCapture(m, attempt, pc, p)
    ensures Keeps(m, attempt, CaptureAction(a, pc, p, seen, ans), reply, NextCapture(pc, p, seen, reply, ans))
  {
    assert CaptureStage(pc) == 3 <==> pc == CCommit;
    hide *;
    if CaptureStage(pc) < 1 {
      CaptureKeepsEarly(a, m, attempt, pc, p, seen, reply, ans);
    } else if CaptureStage(pc) < 2 {
      CaptureKeepsReserved(a, m, attempt, pc, p, seen, reply, ans);
    } else if CaptureStage(pc) < 3 {
      CaptureKeepsMiddle(a, m, attempt, pc, p, seen, reply, ans);
    } else if pc == CCommit {
      CaptureCommitKeeps(a, m, attempt, p, seen, reply, ans);
    } else if CaptureStage(pc) < 5 {
      CaptureKeepsCommitted(a, m, attempt, pc, p, seen, reply, ans);
    } else {
      CaptureKeepsLate(a, m, attempt, pc, p, seen, reply, ans);
    }
  }

  lemma CaptureAbortKeeps(a: AttemptId, m: set<Marker>, attempt: Option<Attempt>, pc: CaptureAbortPc, p: CapturePlan,
        committed: bool, reply: Reply)
    requires LocalCaptureAbort(m, attempt, pc, p.checkpoint, committed)
    ensures Keeps(m, attempt, CaptureAbortAction(a, pc, p, committed), reply, NextCaptureAbort(pc, p, committed, reply))
  {
    hide LocalCapture, LocalRestore, LocalRestoreAbort, LocalRecoverCapture, LocalRecoverRestore;
  }

  lemma RestoreKeepsEarly(a: AttemptId, m: set<Marker>, attempt: Option<Attempt>, pc: RestorePc, p: RestorePlan,
        seen: Option<L.State>, epoch: nat, resumed: bool, reply: Reply, ans: Answer)
    requires LocalRestore(m, attempt, pc, p) && RestoreStage(pc) < 1
    ensures Keeps(m, attempt, RestoreAction(a, pc, p, seen, epoch, resumed, ans), reply,
                  NextRestore(pc, p, seen, epoch, resumed, reply, ans))
  {
    hide Scaffold, PersistedRow, Reading, TargetMayClaim, LocalCapture, LocalCaptureAbort, LocalRecoverCapture,
      LocalRecoverRestore;
    match pc {
      case RCheckWorkload =>
      case RReserve =>
      case RBegin =>
      case RLogReserved =>
      case _ =>
    }
  }

  lemma RestoreKeepsMiddle(a: AttemptId, m: set<Marker>, attempt: Option<Attempt>, pc: RestorePc, p: RestorePlan,
        seen: Option<L.State>, epoch: nat, resumed: bool, reply: Reply, ans: Answer)
    requires LocalRestore(m, attempt, pc, p) && !(RestoreStage(pc) < 1) && RestoreStage(pc) < 3
    ensures Keeps(m, attempt, RestoreAction(a, pc, p, seen, epoch, resumed, ans), reply,
                  NextRestore(pc, p, seen, epoch, resumed, reply, ans))
  {
    hide Scaffold, PersistedRow, Reading, TargetMayClaim, LocalCapture, LocalCaptureAbort, LocalRecoverCapture,
      LocalRecoverRestore;
    match pc {
      case RPending =>
      case RLogProvisioned =>
      case RProbe =>
      case RRestoring =>
      case RNodeRestore =>
      case RLogRestored =>
      case _ =>
    }
  }

  lemma RestoreCommitKeeps(a: AttemptId, m: set<Marker>, attempt: Option<Attempt>, p: RestorePlan,
        seen: Option<L.State>, epoch: nat, resumed: bool, reply: Reply, ans: Answer)
    requires LocalRestore(m, attempt, RCommit, p)
    ensures Keeps(m, attempt, RestoreAction(a, RCommit, p, seen, epoch, resumed, ans), reply,
                  NextRestore(RCommit, p, seen, epoch, resumed, reply, ans))
  {
    hide Scaffold, PersistedRow, Reading, TargetMayClaim, LocalCapture, LocalCaptureAbort, LocalRecoverCapture,
      LocalRecoverRestore;
  }

  lemma RestoreKeepsLate(a: AttemptId, m: set<Marker>, attempt: Option<Attempt>, pc: RestorePc, p: RestorePlan,
        seen: Option<L.State>, epoch: nat, resumed: bool, reply: Reply, ans: Answer)
    requires LocalRestore(m, attempt, pc, p) && RestoreStage(pc) > 3
    ensures Keeps(m, attempt, RestoreAction(a, pc, p, seen, epoch, resumed, ans), reply,
                  NextRestore(pc, p, seen, epoch, resumed, reply, ans))
  {
    hide Scaffold, PersistedRow, Reading, TargetMayClaim, LocalCapture, LocalCaptureAbort, LocalRecoverCapture,
      LocalRecoverRestore;
    match pc {
      case RReadEpoch =>
      case RResume =>
      case RLogResumed =>
      case RFinish =>
      case RRelease =>
      case _ =>
    }
  }

  lemma RestoreKeeps(a: AttemptId, m: set<Marker>, attempt: Option<Attempt>, pc: RestorePc, p: RestorePlan,
        seen: Option<L.State>, epoch: nat, resumed: bool, reply: Reply, ans: Answer)
    requires LocalRestore(m, attempt, pc, p)
    ensures Keeps(m, attempt, RestoreAction(a, pc, p, seen, epoch, resumed, ans), reply,
                  NextRestore(pc, p, seen, epoch, resumed, reply, ans))
  {
    assert RestoreStage(pc) == 3 <==> pc == RCommit;
    hide *;
    if RestoreStage(pc) < 1 {
      RestoreKeepsEarly(a, m, attempt, pc, p, seen, epoch, resumed, reply, ans);
    } else if RestoreStage(pc) < 3 {
      RestoreKeepsMiddle(a, m, attempt, pc, p, seen, epoch, resumed, reply, ans);
    } else if pc == RCommit {
      RestoreCommitKeeps(a, m, attempt, p, seen, epoch, resumed, reply, ans);
    } else {
      RestoreKeepsLate(a, m, attempt, pc, p, seen, epoch, resumed, reply, ans);
    }
  }

  lemma RestoreAbortKeeps(a: AttemptId, m: set<Marker>, attempt: Option<Attempt>, pc: RestoreAbortPc, p: RestorePlan,
        reply: Reply)
    requires LocalRestoreAbort(m, attempt, pc, p.checkpoint)
    ensures Keeps(m, attempt, RestoreAbortAction(a, pc, p), reply, NextRestoreAbort(pc, p, reply))
  {
    hide LocalCapture, LocalCaptureAbort, LocalRestore, LocalRecoverCapture, LocalRecoverRestore;
  }

  lemma RecoverCaptureKeeps(a: AttemptId, m: set<Marker>, attempt: Option<Attempt>, pc: RecoverCapturePc,
        c: CheckpointId, persisted: bool, seen: Option<L.State>, verdict: AttemptState, reply: Reply)
    requires LocalRecoverCapture(m, attempt, pc, c, persisted, verdict)
    ensures Keeps(m, attempt, RecoverCaptureAction(a, pc, c, verdict), reply,
            NextRecoverCapture(pc, c, persisted, seen, verdict, reply))
  {
    hide LocalCapture, LocalCaptureAbort, LocalRestore, LocalRestoreAbort, LocalRecoverRestore;
  }

  lemma RecoverRestoreKeeps(a: AttemptId, m: set<Marker>, attempt: Option<Attempt>, pc: RecoverRestorePc,
        c: CheckpointId, restored: bool, verdict: AttemptState, reply: Reply)
    requires LocalRecoverRestore(m, attempt, pc, c, restored, verdict)
    ensures Keeps(m, attempt, RecoverRestoreAction(a, pc, c, verdict), reply,
            NextRecoverRestore(pc, c, restored, verdict, reply))
  {
    hide LocalCapture, LocalCaptureAbort, LocalRestore, LocalRestoreAbort, LocalRecoverCapture;
  }

  lemma RetireKeeps(m: set<Marker>, attempt: Option<Attempt>, pc: RetirePc, c: CheckpointId, protection: Protection,
        locations: seq<Location>, reply: Reply, ans: Answer)
    requires NoMarks(m) && attempt.None?
    ensures Keeps(m, attempt, RetireAction(pc, c, locations), reply,
            NextRetire(pc, c, protection, locations, reply, ans))
  {
    hide LocalCapture, LocalCaptureAbort, LocalRestore, LocalRestoreAbort, LocalRecoverCapture, LocalRecoverRestore;
  }

  lemma OpKeeps(a: AttemptId, m: set<Marker>, attempt: Option<Attempt>, op: Op, ans: Answer, reply: Reply)
    requires LocalOp(m, attempt, op)
    ensures Keeps(m, attempt, ActionOf(a, op, ans), reply, Next(op, reply, ans))
  {
    hide Keeps, CaptureAction, NextCapture, CaptureAbortAction, NextCaptureAbort, RestoreAction, NextRestore,
      RestoreAbortAction,
         NextRestoreAbort, RecoverCaptureAction, NextRecoverCapture, RecoverRestoreAction, NextRecoverRestore,
           RetireAction, NextRetire;
    match op
    case Capture(pc, p, seen) => CaptureKeeps(a, m, attempt, pc, p, seen, reply, ans);
    case CaptureAbort(pc, p, committed) => CaptureAbortKeeps(a, m, attempt, pc, p, committed, reply);
    case Restore(pc, p, seen, epoch, resumed) => RestoreKeeps(a, m, attempt, pc, p, seen, epoch, resumed, reply, ans);
    case RestoreAbort(pc, p) => RestoreAbortKeeps(a, m, attempt, pc, p, reply);
    case RecoverCapture(pc, c, persisted, seen, verdict) => RecoverCaptureKeeps(a, m, attempt, pc, c, persisted, seen,
      verdict, reply);
    case RecoverRestore(pc, c, restored, verdict) => RecoverRestoreKeeps(a, m, attempt, pc, c, restored, verdict,
      reply);
    case Retirement(pc, c, protection, locations) => RetireKeeps(m, attempt, pc, c, protection, locations, reply, ans);
  }

  lemma AdvanceKeepsOthers(s: Sys, a: AttemptId, ans: Answer, b: AttemptId)
    requires a in s.ops && At(s, b) && b != a
    ensures At(AdvanceOp(s, a, ans), b)
  {
    CallsAreOwn(a, s.ops[a], ans);
    hide Exec, ActionOf, Next, Failing, Local;
    if ActionOf(a, s.ops[a], ans).Ask? { ExecFrame(s.db, ActionOf(a, s.ops[a], ans).call, b); }
  }

  lemma AdvanceKeepsAt(s: Sys, a: AttemptId, ans: Answer)
    requires a in s.ops && At(s, a)
    ensures At(AdvanceOp(s, a, ans), a)
  {
    var op := s.ops[a];
    var m, attempt := MarksOf(s.db, a), AttemptOf(s.db, a);
    FailingIsLocal(m, attempt, op);
    CallsAreOwn(a, op, ans);
    hide Exec, ActionOf, Next, Failing, LocalOp, LocalDead, LocalMarks, LocalAttempt, Fits, Own;
    match ActionOf(a, op, ans)
    case Ask(call) =>
      ExecLocal(s.db, call, a);
      ExecFits(s.db, call, a);
      OpKeeps(a, m, attempt, op, ans, Exec(s.db, call).1);
    case Tell(order) =>
      OpKeeps(a, m, attempt, op, ans, Done);
  }

  lemma StoreKeepsAt(s: Sys, call: Call, b: AttemptId)
    requires !Touches(call, b) && At(s, b)
    ensures At(Store(s, call), b)
  {
    hide Exec, Local;
    ExecFrame(s.db, call, b);
  }

  // Events of the environment: workload requests, expiry, rebinding, verification.
  lemma OutsideKeepsAt(s: Sys, e: Event, b: AttemptId)
    requires At(s, b)
    requires !(e.Advance? || e.Crash? || e.Die? || e.BeginCapture? || e.BeginRestore? || e.BeginRetire?
             || e.BeginRecovery?)
    ensures At(Step(s, e), b)
  {
    hide Exec, Local, MarksOf, AttemptOf;
    match e
    case CreateWorkload(w, resumability, singleActive, holder) =>
      StoreKeepsAt(s, CreateRow(w, NewWorkload(resumability, singleActive, holder, None)), b);
    case ForkWorkload(w, c, resumability, singleActive) =>
      if c in s.db.checkpoints {
        var parent := s.db.checkpoints[c].workload;
        StoreKeepsAt(s, ForkRow(w, NewWorkload(resumability, singleActive, None, Some(parent)), parent, c), b);
      }
    case Attach(w, node, token, epoch) => StoreKeepsAt(s, EditWorkloadRow(w, Claim(node, token, epoch)), b);
    case Detach(w, node) => StoreKeepsAt(s, EditWorkloadRow(w, Unclaim(node)), b);
    case Fence(w, epoch) => StoreKeepsAt(s, EditWorkloadRow(w, BumpFence(epoch)), b);
    case Regrant(w, node) =>
    case ExpireReservations(before) => StoreKeepsAt(s, Expire(before), b);
    case RebindReplica(c, node, path) => StoreKeepsAt(s, EditRow(c, Rebind(node, path)), b);
    case Protect(c, p) => StoreKeepsAt(s, EditRow(c, SetProtection(p)), b);
    case Verify(c, valid) => StoreKeepsAt(s, EditRow(c, SetIntegrity(if valid then Valid else Corrupt)), b);
  }

  lemma BeginKeepsAt(s: Sys, e: Event, b: AttemptId)
    requires At(s, b)
    requires e.BeginCapture? || e.BeginRestore? || e.BeginRetire? || e.BeginRecovery?
    ensures At(Step(s, e), b)
  {
    hide Exec;
    match e
    case BeginCapture(a, p) =>
    case BeginRestore(a, p) =>
    case BeginRetire(a, c) =>
    case BeginRecovery(a) =>
  }

  lemma StepKeepsAt(s: Sys, e: Event, b: AttemptId)
    requires Inv(s)
    ensures At(Step(s, e), b)
  {
    assert At(s, b);
    hide Exec, LocalOp, LocalDead, AdvanceOp, MarksOf, AttemptOf;
    match e
    case Advance(a, ans) =>
      if a in s.ops {
        assert At(s, a);
        if a == b { AdvanceKeepsAt(s, a, ans); } else { AdvanceKeepsOthers(s, a, ans, b); }
      }
    case Crash => if b in s.ops { DeadIsLocal(MarksOf(s.db, b), AttemptOf(s.db, b), s.ops[b]); }
    case Die(a) => if b in s.ops { DeadIsLocal(MarksOf(s.db, b), AttemptOf(s.db, b), s.ops[b]); }
    case _ =>
      if e.BeginCapture? || e.BeginRestore? || e.BeginRetire? || e.BeginRecovery? { BeginKeepsAt(s, e, b); }
      else { OutsideKeepsAt(s, e, b); }
  }

  lemma EmptyIsInv()
    ensures Inv(EmptySys)
  {
    hide LocalOp;
    forall a ensures At(EmptySys, a) { assert MarksOf(EmptySys.db, a) == {}; }
  }

  lemma {:induction false} RunKeepsInv(s: Sys, events: seq<Event>)
    requires Inv(s)
    ensures Inv(Run(s, events))
    decreases |events|
  {
    if events != [] {
      var prefix := events[..|events| - 1];
      RunKeepsInv(s, prefix);
      forall b ensures At(Run(s, events), b) { StepKeepsAt(Run(s, prefix), events[|events| - 1], b); }
    }
  }

  // In every run, with failures and crashes anywhere: each attempt's journal is
  // closed under earlier stages and each finished attempt's verdict agrees with it.
  lemma JournalIsClosedAndVerdictsAgree(events: seq<Event>, a: AttemptId)
    ensures var db := Run(EmptySys, events).db;
            a in db.attempts ==>
              Closed(db.attempts[a].kind, MarksOf(db, a)) && VerdictAgrees(db.attempts[a], MarksOf(db, a))
    ensures var db := Run(EmptySys, events).db;
            a !in db.attempts ==> NoMarks(MarksOf(db, a))
  {
    EmptyIsInv();
    RunKeepsInv(EmptySys, events);
    hide Run, LocalOp;
    var s := Run(EmptySys, events);
    assert At(s, a);
    if a in s.ops { DeadIsLocal(MarksOf(s.db, a), AttemptOf(s.db, a), s.ops[a]); }
  }
}
