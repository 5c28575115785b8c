// What the verdict of a finished attempt says: which operation finished it last, and,
// for a restore that finished itself, how the node answered its resume request.
module Verdicts {
  import opened Wrappers
  import opened Tables
  import opened Operations
  import opened Steps
  import opened Anchors
  import Journal

  // Who has finished an attempt: nobody, its own operation, its own operation after the
  // node refused to resume, its abort, or a recovery.
  datatype Closing = Unfinished | ByItself | AfterRefusal | ByAbort | ByRecovery

  // An operation about to finish its attempt.
  predicate Finishing(op: Op) {
    match op
    case Capture(pc, _, _) => pc == CFinish || pc == CResumeFailed
    case CaptureAbort(pc, _, _) => pc == AFinish
    case Restore(pc, _, _, _, _) => pc == RFinish
    case RestoreAbort(pc, _) => pc == BFinish || pc == BFinishCommitted
    case RecoverCapture(pc, _, _, _, _) => pc == KFinish
    case RecoverRestore(pc, _, _, _) => pc == QFinish
    case Retirement(_, _, _, _) => false
  }

  function ClosingOf(op: Op): Closing {
    if op.Capture? && op.cpc == CResumeFailed then AfterRefusal
    else if op.Capture? || op.Restore? then ByItself
    else if op.CaptureAbort? || op.RestoreAbort? then ByAbort
    else ByRecovery
  }

  ghost predicate Closes(s: Sys, e: Event, a: AttemptId) {
    e.Advance? && e.a == a && !e.ans.fault && a in s.ops && Finishing(s.ops[a])
  }

  // Who finished attempt a last in a run from the empty store.
  ghost function ClosedBy(events: seq<Event>, a: AttemptId): Closing
    decreases |events|
  {
    if events == [] then Unfinished
    else
      var prefix, last := events[..|events| - 1], events[|events| - 1];
      var s := Run(EmptySys, prefix);
      if Closes(s, last, a) then ClosingOf(s.ops[a]) else ClosedBy(prefix, a)
  }

  ghost predicate AsksResume(s: Sys, e: Event, a: AttemptId) {
    e.Advance? && e.a == a && a in s.ops && s.ops[a].Restore? && s.ops[a].rpc == RResume
  }

  // Restore attempt a was to resume the workload, and the node has answered that it did.
  ghost predicate ResumedOn(events: seq<Event>, a: AttemptId)
    decreases |events|
  {
    events != [] && var prefix, last := events[..|events| - 1], events[|events| - 1];
                    var s := Run(EmptySys, prefix);
                    if AsksResume(s, last, a) then s.ops[a].rplan.resume && last.ans.ok else ResumedOn(prefix, a)
  }

  // The verdict, from who gave it, the commit marker, and the answer to the resume.
  function Verdict(kind: AttemptKind, closing: Closing, decided: bool, resumed: bool): AttemptState {
    match closing
    case Unfinished => Active
    case ByItself => if kind == CaptureKind || resumed then Committed else CommittedNoResume
    case AfterRefusal => ResumeFailed
    case ByAbort =>
      if !decided then AttemptFailed else if kind == CaptureKind then Committed else CommittedNoResume
    case ByRecovery => if decided then Committed else AttemptFailed
  }

  ghost predicate CommitMarked(db: Db, a: AttemptId)
    requires a in db.attempts
  {
    JournalHas(db, if db.attempts[a].kind == CaptureKind then DbCommitted else GenerationCommitted, a)
  }

  ghost predicate Judged(s: Sys, events: seq<Event>, a: AttemptId) {
    if a in s.db.attempts then
      s.db.attempts[a].state ==
      Verdict(s.db.attempts[a].kind, ClosedBy(events, a), CommitMarked(s.db, a), ResumedOn(events, a))
    else ClosedBy(events, a) == Unfinished
  }

  // A restore that has asked remembers the answer.
  ghost predicate Remembers(s: Sys, events: seq<Event>, a: AttemptId) {
    a in s.ops && s.ops[a].Restore?
    && (s.ops[a].rpc == RLogResumed || s.ops[a].rpc == RFinish || s.ops[a].rpc == RRelease) ==>
      (s.ops[a].resumed <==> ResumedOn(events, a))
  }

  lemma ResumedMoves(op: Op, op': Op, db: Db, a: AttemptId, ans: Answer)
    requires Moves(op, op', db, a, ans) && op'.Restore?
    requires op'.rpc == RLogResumed || op'.rpc == RFinish || op'.rpc == RRelease
    ensures op.Restore?
    ensures if op.rpc == RResume then op'.resumed <==> op.rplan.resume && ans.ok
            else (op.rpc == RLogResumed || op.rpc == RFinish) && op'.resumed == op.resumed
  {
    var act := ActionOf(a, op, ans);
    var reply := if act.Ask? then Exec(db, act.call).1 else Done;
    if op.Capture? { CaptureMoves(op.cpc, op.cplan, op.seen, reply, ans); }
    hide Exec, NextCapture, Reading, TargetMayClaim;
  }

  lemma StepRemembers(events: seq<Event>, e: Event, a: AttemptId)
    requires Remembers(Run(EmptySys, events), events, a)
    ensures Remembers(Run(EmptySys, events + [e]), events + [e], a)
  {
    var s := Run(EmptySys, events);
    OneMoreEvent(events, e, a);
    if a in Step(s, e).ops {
      OpsMove(s, e, a);
      hide Step, Run, Moves;
      var op' := Step(s, e).ops[a];
      if op'.Restore? && (op'.rpc == RLogResumed || op'.rpc == RFinish || op'.rpc == RRelease) {
        if e.Advance? && e.a == a { ResumedMoves(s.ops[a], op', s.db, a, e.ans); }
      }
    }
  }

  // The verdict a finishing step writes.
  lemma FinishCall(s: Sys, a: AttemptId, ans: Answer)
    requires Journal.At(s, a) && a in s.ops && Finishing(s.ops[a])
    ensures a in s.db.attempts
    ensures ActionOf(a, s.ops[a], ans) ==
            Ask(Finish(a, Verdict(s.db.attempts[a].kind, ClosingOf(s.ops[a]), CommitMarked(s.db, a),
                                  s.ops[a].Restore? && s.ops[a].resumed)))
  {
    var m := Journal.MarksOf(s.db, a);
    assert DbCommitted in m <==> JournalHas(s.db, DbCommitted, a);
    assert GenerationCommitted in m <==> JournalHas(s.db, GenerationCommitted, a);
    hide Scaffold, PersistedRow;
  }

  // Only a finishing step changes the state of an attempt.
  lemma StatesRest(s: Sys, e: Event, a: AttemptId)
    requires Journal.Inv(s) && !Closes(s, e, a)
    ensures a in s.db.attempts ==>
              a in Step(s, e).db.attempts && Step(s, e).db.attempts[a] == s.db.attempts[a]
    ensures a !in s.db.attempts && a in Step(s, e).db.attempts ==> Step(s, e).db.attempts[a].state == Active
  {
    StepDb(s, e);
    if CallOf(s, e).Some? {
      CallsAreAllowed(s, e);
      Journal.ExecJournal(s.db, CallOf(s, e).value);
      if e.Advance? && e.a in s.ops { OnlyFinishing(e.a, s.ops[e.a], e.ans); }
    }
    hide Step, Exec, OpEdit, Journal.Inv, Finishing, ActionOf;
  }

  lemma OnlyFinishing(a: AttemptId, op: Op, ans: Answer)
    ensures ActionOf(a, op, ans).Ask? && ActionOf(a, op, ans).call.Finish? ==> Finishing(op)
  {
    hide Scaffold, PersistedRow;
  }

  // FAILED stands for the missing commit marker.
  lemma FailedMeansUnmarked(s: Sys, a: AttemptId)
    requires Journal.At(s, a) && a in s.db.attempts && s.db.attempts[a].state != Active
    ensures s.db.attempts[a].state == AttemptFailed <==> !CommitMarked(s.db, a)
  {
    var m, attempt := Journal.MarksOf(s.db, a), Journal.AttemptOf(s.db, a);
    if a in s.ops { Journal.DeadIsLocal(m, attempt, s.ops[a]); }
    assert DbCommitted in m <==> JournalHas(s.db, DbCommitted, a);
    assert GenerationCommitted in m <==> JournalHas(s.db, GenerationCommitted, a);
    hide Journal.LocalOp;
  }

  lemma AskersAreActive(s: Sys, e: Event, a: AttemptId)
    requires Journal.At(s, a) && AsksResume(s, e, a)
    ensures a in s.db.attempts && s.db.attempts[a].state == Active
  {}

  lemma ClosingJudges(s: Sys, e: Event, a: AttemptId)
    requires Journal.Inv(s) && Closes(s, e, a)
    ensures a in s.db.attempts && !AsksResume(s, e, a)
    ensures var v := Verdict(s.db.attempts[a].kind, ClosingOf(s.ops[a]), CommitMarked(s.db, a),
                             s.ops[a].Restore? && s.ops[a].resumed);
            Step(s, e).db.attempts == s.db.attempts[a := s.db.attempts[a].(state := v)]
            && Step(s, e).db.journal == s.db.journal
  {
    assert Journal.At(s, a);
    FinishCall(s, a, e.ans);
    StepDb(s, e);
    Journal.ExecJournal(s.db, CallOf(s, e).value);
    hide Step, Exec, ActionOf, Journal.LocalOp, Journal.Inv;
  }

  lemma OneMoreEvent(events: seq<Event>, e: Event, a: AttemptId)
    ensures Run(EmptySys, events + [e]) == Step(Run(EmptySys, events), e)
    ensures var s := Run(EmptySys, events);
            && ClosedBy(events + [e], a) == (if Closes(s, e, a) then ClosingOf(s.ops[a]) else ClosedBy(events, a))
            && (ResumedOn(events + [e], a) <==>
                  if AsksResume(s, e, a) then s.ops[a].rplan.resume && e.ans.ok else ResumedOn(events, a))
  {
    assert (events + [e])[..|events|] == events;
    hide Step, Closes, AsksResume, ClosingOf;
  }

  lemma RestJudges(s: Sys, s': Sys, a: AttemptId, closing: Closing, resumed: bool, resumed': bool)
    requires Journal.At(s, a) && Journal.At(s', a)
    requires a in s.db.attempts ==>
               a in s'.db.attempts && s'.db.attempts[a] == s.db.attempts[a]
               && s.db.attempts[a].state == Verdict(s.db.attempts[a].kind, closing, CommitMarked(s.db, a), resumed)
    requires a !in s.db.attempts ==>
               closing == Unfinished && (a in s'.db.attempts ==> s'.db.attempts[a].state == Active)
    requires resumed == resumed' || (a in s.db.attempts && s.db.attempts[a].state == Active)
    ensures a in s'.db.attempts ==>
              s'.db.attempts[a].state == Verdict(s'.db.attempts[a].kind, closing, CommitMarked(s'.db, a), resumed')
    ensures a !in s'.db.attempts ==> closing == Unfinished
  {
    if a in s.db.attempts && s.db.attempts[a].state != Active {
      FailedMeansUnmarked(s, a);
      FailedMeansUnmarked(s', a);
    }
    hide Journal.At, CommitMarked;
  }

  lemma StepJudges(events: seq<Event>, e: Event, a: AttemptId)
    requires Judged(Run(EmptySys, events), events, a) && Remembers(Run(EmptySys, events), events, a)
    ensures Judged(Run(EmptySys, events + [e]), events + [e], a)
  {
    var s, s' := Run(EmptySys, events), Run(EmptySys, events + [e]);
    OneMoreEvent(events, e, a);
    EmptyInv();
    RunKeepsInv(EmptySys, events);
    StepKeepsInv(s, e);
    assert Journal.Inv(s) && Journal.At(s, a) && Journal.At(s', a);
    hide Run, Inv, Journal.Inv, Journal.At, Step, ClosedBy, ResumedOn;
    if Closes(s, e, a) {
      ClosingJudges(s, e, a);
    } else {
      StatesRest(s, e, a);
      if AsksResume(s, e, a) { AskersAreActive(s, e, a); }
      hide Closes, AsksResume, CommitMarked, Verdict;
      RestJudges(s, s', a, ClosedBy(events, a), ResumedOn(events, a), ResumedOn(events + [e], a));
    }
  }

  lemma {:induction false} RunJudges(events: seq<Event>, a: AttemptId)
    ensures Judged(Run(EmptySys, events), events, a) && Remembers(Run(EmptySys, events), events, a)
    decreases |events|
  {
    if events != [] {
      var prefix, last := events[..|events| - 1], events[|events| - 1];
      RunJudges(prefix, a);
      StepJudges(prefix, last, a);
      StepRemembers(prefix, last, a);
      assert prefix + [last] == events;
    }
    hide Run, Judged, Remembers;
  }

  // In every run, whatever fails, crashes or is recovered, an attempt's verdict is the
  // one its last finisher gives: its own operation by the node's answer, an abort and a
  // recovery by the commit marker, and they differ on a committed restore.
  lemma VerdictsAreExact(events: seq<Event>, a: AttemptId)
    requires a in Run(EmptySys, events).db.attempts
    ensures var db := Run(EmptySys, events).db;
            db.attempts[a].state ==
            Verdict(db.attempts[a].kind, ClosedBy(events, a), CommitMarked(db, a), ResumedOn(events, a))
  {
    RunJudges(events, a);
    hide Run;
  }

  // A restore that finished itself is COMMITTED exactly when it was asked to resume the
  // workload and the node answered that it did.
  lemma RestoresReportTheResume(events: seq<Event>, a: AttemptId)
    requires var db := Run(EmptySys, events).db; a in db.attempts && db.attempts[a].kind != CaptureKind
    requires ClosedBy(events, a) == ByItself
    ensures var attempt := Run(EmptySys, events).db.attempts[a];
            && (attempt.state == Committed <==> ResumedOn(events, a))
            && (attempt.state == CommittedNoResume <==> !ResumedOn(events, a))
  {
    VerdictsAreExact(events, a);
    hide Run;
  }
}
