// What a journal entry is evidence of: whatever has crashed or been aborted since, the
// node or the store did give the answer the entry stands for.
module Evidence {
  import opened Wrappers
  import opened Tables
  import opened Operations
  import opened Steps
  import opened Anchors
  import Authority
  import Journal
  import L = Lifecycle

  // What an attempt has to be told before it may go on.
  datatype Question = ToBegin | ToCapture | ToPromote | ToResume | ToClaim | ToProvide | ToRestore | ToRetire

  // The workload is free for the target of restore p, or is to be migrated away.
  predicate Claimable(db: Db, p: RestorePlan) {
    p.workload in db.workloads && (p.migration || Authority.FreeFor(db.workloads[p.workload], p.node))
  }

  // A capture may begin on a workload that somebody holds, as the generation it is at.
  ghost predicate BeginsCapture(s: Sys, e: Event, a: AttemptId) {
    e.BeginCapture? && e.a == a && e.cplan.workload in s.db.workloads
    && var w := s.db.workloads[e.cplan.workload];
       w.activeNode.Some? && w.fenceToken.Some? && w.generation == e.cplan.workloadGeneration
  }

  // A restore may begin on a checkpoint that is AVAILABLE or RESTORED, not known to be
  // corrupt, and recorded somewhere.
  ghost predicate BeginsRestore(s: Sys, e: Event, a: AttemptId) {
    e.BeginRestore? && e.a == a && e.rplan.checkpoint in s.db.checkpoints && !(e.rplan.migration && e.rplan.rollback)
    && var row := s.db.checkpoints[e.rplan.checkpoint];
       (row.lifecycle == L.Available || row.lifecycle == L.Restored) && row.integrity != Corrupt
       && row.locations != [] && row.workload == e.rplan.workload
  }

  // Attempt a gets a good answer to q in step e.
  ghost predicate Answers(s: Sys, e: Event, a: AttemptId, q: Question) {
    if q == ToBegin then BeginsCapture(s, e, a) || BeginsRestore(s, e, a)
    else
    e.Advance? && e.a == a && a in s.ops
    && var op := s.ops[a];
       match q
       case ToBegin => false
       case ToCapture => op.Capture? && op.cpc == CNodeCapture && e.ans.ok
       case ToPromote => op.Capture? && op.cpc == CPromote && e.ans.ok
       case ToResume => op.Capture? && op.cpc == CResume && e.ans.ok
       case ToClaim => op.Restore? && op.rpc == RCheckWorkload && !e.ans.fault && Claimable(s.db, op.rplan)
       case ToProvide => op.Restore? && op.rpc == RProbe && (e.ans.ok || (e.ans.replica.Some? && !e.ans.fault))
       case ToRestore => op.Restore? && op.rpc == RNodeRestore && e.ans.ok
       case ToRetire =>
         op.Retirement? && op.tpc == TReserved && !e.ans.fault && !Reserved(s.db, RestoreOf(op.c))
         && op.protection == Unprotected
  }

  // Some step of the run gave attempt a a good answer to q.
  ghost predicate Answered(events: seq<Event>, a: AttemptId, q: Question)
    decreases |events|
  {
    events != [] && var prefix, last := events[..|events| - 1], events[|events| - 1];
                    Answered(prefix, a, q) || Answers(Run(EmptySys, prefix), last, a, q)
  }

  // ---------------- operations past a question ----------------

  function CaptureIndex(pc: CapturePc): nat {
    match pc
    case CReadGeneration => 0 case CReserve => 1 case CBegin => 2 case CLogReserved => 3 case CInsert => 4
    case CCapturing => 5 case CNodeCapture => 6 case CCaptured => 7 case CValidating => 8 case CDigest => 9
    case CSealed => 10 case CLogSealed => 11 case CMarkValid => 12 case CPersisting => 13 case CPromote => 14
    case CUpdate => 15 case CLogPersisted => 16 case CCommit => 17 case CResume => 18 case CResumeFailed => 18
    case CLogResumed => 19 case CReplicate => 20 case CFinish => 21 case CRelease => 22
  }

  function RestoreIndex(pc: RestorePc): nat {
    match pc
    case RCheckWorkload => 0 case RReserve => 1 case RBegin => 2 case RLogReserved => 3 case RPending => 4
    case RLogProvisioned => 5 case RProbe => 6 case RRestoring => 7 case RNodeRestore => 8 case RLogRestored => 9
    case RCommit => 10 case RReadEpoch => 11 case RResume => 12 case RLogResumed => 13 case RFinish => 14
    case RRelease => 15
  }

  predicate Passed(op: Op, q: Question) {
    match q
    case ToBegin => op.Capture? || op.Restore?
    case ToCapture => op.Capture? && CaptureIndex(op.cpc) > CaptureIndex(CNodeCapture)
    case ToPromote => op.Capture? && CaptureIndex(op.cpc) > CaptureIndex(CPromote)
    case ToResume => op.Capture? && CaptureIndex(op.cpc) > CaptureIndex(CResume)
    case ToClaim => op.Restore? && op.rpc != RCheckWorkload
    case ToProvide => op.Restore? && RestoreIndex(op.rpc) > RestoreIndex(RProbe)
    case ToRestore => op.Restore? && RestoreIndex(op.rpc) > RestoreIndex(RNodeRestore)
    case ToRetire => op.Retirement? && op.tpc != TReserved
  }

  // The durable trace that attempt a is past q.
  ghost predicate Shown(db: Db, a: AttemptId, q: Question) {
    match q
    case ToBegin => a in db.attempts
    case ToCapture => JournalHas(db, CaptureSealed, a)
    case ToPromote => JournalHas(db, CapturePersisted, a)
    case ToResume => JournalHas(db, ResumeDone, a)
    case ToClaim => a in db.attempts && db.attempts[a].kind != CaptureKind
    case ToProvide => JournalHas(db, ComponentsRestored, a)
    case ToRestore => JournalHas(db, ComponentsRestored, a)
    case ToRetire => false
  }

  // ---------------- one step ----------------

  lemma CapturePasses(pc: CapturePc, p: CapturePlan, seen: Option<L.State>, reply: Reply, ans: Answer, q: Question)
    requires q == ToCapture || q == ToPromote || q == ToResume
    requires NextCapture(pc, p, seen, reply, ans).Some? && Passed(NextCapture(pc, p, seen, reply, ans).value, q)
    ensures Passed(Capture(pc, p, seen), q)
            || (ans.ok && pc == match q case ToCapture => CNodeCapture case ToPromote => CPromote case _ => CResume)
  {
    hide Reading;
  }

  lemma RestorePasses(pc: RestorePc, p: RestorePlan, seen: Option<L.State>, epoch: nat, resumed: bool, reply: Reply,
        ans: Answer, q: Question)
    requires q == ToClaim || q == ToProvide || q == ToRestore
    requires var n := NextRestore(pc, p, seen, epoch, resumed, reply, ans); n.Some? && Passed(n.value, q)
    ensures Passed(Restore(pc, p, seen, epoch, resumed), q)
            || (match q
                case ToClaim =>
                  pc == RCheckWorkload && reply.WorkloadRow? && reply.workload.Some?
                  && TargetMayClaim(reply.workload.value, p.node, p.migration)
                case ToProvide => pc == RProbe && (ans.ok || ans.replica.Some?) && !reply.Refused?
                case _ => pc == RNodeRestore && ans.ok)
  {
    hide Reading, TargetMayClaim;
  }

  lemma FailuresPassNothing(op: Op, q: Question)
    requires q != ToBegin
    ensures Failing(op).Some? && Passed(Failing(op).value, q) ==> Passed(op, q)
  {}

  lemma CaptureAnswers(s: Sys, a: AttemptId, op': Op, ans: Answer, q: Question)
    requires a in s.ops && s.ops[a].Capture? && Moves(s.ops[a], op', s.db, a, ans)
    requires Passed(op', q) && !Passed(s.ops[a], q) && q != ToBegin
    ensures Answers(s, Advance(a, ans), a, q)
  {
    hide NextCapture, Exec, FailingCapture, Reserved;
    var op := s.ops[a];
    var act := ActionOf(a, op, ans);
    var reply := if act.Ask? then Exec(s.db, act.call).1 else Done;
    FailuresPassNothing(op, q);
    CaptureMoves(op.cpc, op.cplan, op.seen, reply, ans);
    if !(act.Ask? && ans.fault) { CapturePasses(op.cpc, op.cplan, op.seen, reply, ans, q); }
  }

  lemma RestoreAnswers(s: Sys, a: AttemptId, op': Op, ans: Answer, q: Question)
    requires a in s.ops && s.ops[a].Restore? && Moves(s.ops[a], op', s.db, a, ans)
    requires Passed(op', q) && !Passed(s.ops[a], q) && q != ToBegin
    ensures Answers(s, Advance(a, ans), a, q)
  {
    hide NextRestore, Reserved;
    var op := s.ops[a];
    var act := ActionOf(a, op, ans);
    var reply := if act.Ask? then Exec(s.db, act.call).1 else Done;
    FailuresPassNothing(op, q);
    RestoreMoves(op, reply, ans);
    if !(act.Ask? && ans.fault) { RestorePasses(op.rpc, op.rplan, op.seen, op.epoch, op.resumed, reply, ans, q); }
  }

  lemma AnswersByMove(s: Sys, a: AttemptId, op': Op, ans: Answer, q: Question)
    requires a in s.ops && Moves(s.ops[a], op', s.db, a, ans) && Passed(op', q) && !Passed(s.ops[a], q)
    requires q != ToBegin
    ensures Answers(s, Advance(a, ans), a, q)
  {
    if s.ops[a].Capture? {
      hide Moves;
      CaptureAnswers(s, a, op', ans, q);
    } else if s.ops[a].Restore? {
      hide Moves;
      RestoreAnswers(s, a, op', ans, q);
    } else {
      hide Reserved, NextCapture, NextRestore;
    }
  }

  lemma PassedMoves(s: Sys, e: Event, a: AttemptId, q: Question)
    requires a in Step(s, e).ops && Passed(Step(s, e).ops[a], q)
    ensures (a in s.ops && Passed(s.ops[a], q)) || Answers(s, e, a, q)
  {
    OpsMove(s, e, a);
    BegunWell(s, e, a);
    hide Step, Moves, MayCapture, MayRestore, BeginsCapture, BeginsRestore;
    if e.Advance? && e.a == a && !Passed(s.ops[a], q) {
      if q == ToBegin { StaysBegun(s, a, Step(s, e).ops[a], e.ans); }
      else { AnswersByMove(s, a, Step(s, e).ops[a], e.ans, q); }
    } else if e.BeginRetire? && e.a == a && !(a in s.ops && Step(s, e).ops[a] == s.ops[a]) {
      BegunIsBefore(s, e);
    }
  }

  lemma BegunWell(s: Sys, e: Event, a: AttemptId)
    ensures e.BeginCapture? && e.a == a && MayCapture(s, a, e.cplan) ==> BeginsCapture(s, e, a)
    ensures e.BeginRestore? && e.a == a && MayRestore(s, a, e.rplan) ==> BeginsRestore(s, e, a)
  {}

  // Captures and restores do not come from other operations.
  lemma StaysBegun(s: Sys, a: AttemptId, op': Op, ans: Answer)
    requires a in s.ops && Moves(s.ops[a], op', s.db, a, ans) && (op'.Capture? || op'.Restore?)
    ensures Passed(s.ops[a], ToBegin)
  {
    var op := s.ops[a];
    if !op.Capture? && !op.Restore? {
      var act := ActionOf(a, op, ans);
      RestoreMoves(op, if act.Ask? then Exec(s.db, act.call).1 else Done, ans);
    }
    hide Exec, ActionOf, Next, Failing;
  }

  lemma BegunIsBefore(s: Sys, e: Event)
    requires e.BeginRetire? && e.a in Step(s, e).ops && !(e.a in s.ops && Step(s, e).ops[e.a] == s.ops[e.a])
    ensures Step(s, e).ops[e.a].Retirement? && Step(s, e).ops[e.a].tpc == TReserved
  {}

  // An operation that leaves a trace is past the questions the trace stands for.
  lemma TracesComeAfter(a: AttemptId, op: Op, ans: Answer, call: Call)
    requires ActionOf(a, op, ans) == Ask(call)
    ensures call == Log(CaptureSealed, a) ==> Passed(op, ToCapture)
    ensures call == Log(CapturePersisted, a) ==> Passed(op, ToPromote)
    ensures call == Log(ResumeDone, a) ==> Passed(op, ToResume)
    ensures call == Log(ComponentsRestored, a) ==> Passed(op, ToProvide) && Passed(op, ToRestore)
    ensures call.Begin? && call.attempt.kind != CaptureKind ==> Passed(op, ToClaim)
    ensures call.Begin? ==> call.a == a && Passed(op, ToBegin)
    ensures call.Log? ==> call.a == a
  {
    hide Scaffold, PersistedRow;
  }

  lemma ShownMoves(s: Sys, e: Event, a: AttemptId, q: Question)
    requires Journal.Inv(s) && Shown(Step(s, e).db, a, q) && !Shown(s.db, a, q)
    ensures a in s.ops && Passed(s.ops[a], q)
  {
    AttemptsGrow(s, e, a);
    StepDb(s, e);
    var call := CallOf(s, e).value;
    Journal.ExecJournal(s.db, call);
    CallsAreAllowed(s, e);
    if e.Advance? { TracesComeAfter(e.a, s.ops[e.a], e.ans, call); }
    hide Step, Exec, Journal.Inv, ActionOf, Passed, OpEdit;
  }

  // Everything attempt a shows or has passed has been answered.
  ghost predicate Vouched(s: Sys, events: seq<Event>, a: AttemptId, q: Question) {
    (a in s.ops && Passed(s.ops[a], q)) || Shown(s.db, a, q) ==> Answered(events, a, q)
  }

  lemma {:induction false} RunVouches(events: seq<Event>, a: AttemptId, q: Question)
    ensures Vouched(Run(EmptySys, events), events, a, q)
    decreases |events|
  {
    if events != [] {
      var prefix, last := events[..|events| - 1], events[|events| - 1];
      var s := Run(EmptySys, prefix);
      RunVouches(prefix, a, q);
      EmptyInv();
      RunKeepsInv(EmptySys, prefix);
      assert Journal.Inv(s);
      hide Step, Inv, Journal.Inv, Passed, Shown, Answers;
      if a in Step(s, last).ops && Passed(Step(s, last).ops[a], q) { PassedMoves(s, last, a, q); }
      if Shown(Step(s, last).db, a, q) && !Shown(s.db, a, q) { ShownMoves(s, last, a, q); }
    }
  }

  // In every run, whatever fails or crashes: a sealed capture's node has answered that it
  // captured, a persisted one's that it promoted, and one journaled as resumed that it
  // resumed.
  lemma CapturesAreVouchedFor(events: seq<Event>, a: AttemptId)
    ensures var db := Run(EmptySys, events).db;
            && (a in db.attempts ==> Answered(events, a, ToBegin))
            && (JournalHas(db, CaptureSealed, a) ==> Answered(events, a, ToCapture))
            && (JournalHas(db, CapturePersisted, a) ==> Answered(events, a, ToPromote))
            && (JournalHas(db, ResumeDone, a) ==> Answered(events, a, ToResume))
  {
    RunVouches(events, a, ToBegin);
    RunVouches(events, a, ToCapture);
    RunVouches(events, a, ToPromote);
    RunVouches(events, a, ToResume);
    hide Run, Answered;
  }

  // A restore or rollback attempt exists only if its target was free to claim the
  // workload when asked; and components_restored stands for a replica at the target and
  // for the node's answer that it restored it.
  lemma RestoresAreVouchedFor(events: seq<Event>, a: AttemptId)
    ensures var db := Run(EmptySys, events).db;
            && (a in db.attempts ==> Answered(events, a, ToBegin))
            && (a in db.attempts && db.attempts[a].kind != CaptureKind ==> Answered(events, a, ToClaim))
            && (JournalHas(db, ComponentsRestored, a) ==>
                  Answered(events, a, ToProvide) && Answered(events, a, ToRestore))
  {
    RunVouches(events, a, ToBegin);
    RunVouches(events, a, ToClaim);
    RunVouches(events, a, ToProvide);
    RunVouches(events, a, ToRestore);
    hide Run, Answered;
  }
}
