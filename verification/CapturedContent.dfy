// What a capture seals is what its checkpoint says from then on: image, digest,
// resumability and workload generation come from the request and are never rewritten.
module CapturedContent {
  import opened Wrappers
  import opened Tables
  import opened Operations
  import opened Steps
  import opened Anchors
  import opened Promotion
  import Availability
  import CrashAtomicity
  import Journal

  // The request that began capture attempt a, with what sealing yielded.
  ghost function PlanOf(events: seq<Event>, a: AttemptId): Option<CapturePlan>
    decreases |events|
  {
    if events == [] then None
    else
      var prefix, last := events[..|events| - 1], events[|events| - 1];
      if last.BeginCapture? && last.a == a && MayCapture(Run(EmptySys, prefix), a, last.cplan) then Some(last.cplan)
      else PlanOf(prefix, a)
  }

  // Checkpoint row c holds what p asked for.
  ghost predicate Holds(db: Db, c: CheckpointId, p: CapturePlan) {
    c == p.checkpoint && c in db.checkpoints
    && var row := db.checkpoints[c];
       && row.workload == p.workload && row.workloadGeneration == p.workloadGeneration
       && row.resumability == p.resumability && row.image == p.image && row.digest == Some(p.digest)
  }

  // From the rewriting of the row on.
  predicate Rewritten(pc: CapturePc) {
    pc == CLogPersisted || Journal.CaptureStage(pc) >= 3
  }

  ghost predicate SamePlan(p: Option<CapturePlan>, q: CapturePlan) {
    p.Some? && q == p.value.(generation := q.generation)
  }

  ghost predicate Carries(s: Sys, p: Option<CapturePlan>, a: AttemptId) {
    && (a in s.ops && s.ops[a].Capture? ==>
          SamePlan(p, s.ops[a].cplan)
          && (Rewritten(s.ops[a].cpc) ==> Holds(s.db, s.ops[a].cplan.checkpoint, s.ops[a].cplan)))
    && (JournalHas(s.db, CapturePersisted, a) ==>
          p.Some? && a in s.db.attempts && s.db.attempts[a].node == p.value.node
          && s.db.attempts[a].kind == CaptureKind && Holds(s.db, s.db.attempts[a].checkpoint, p.value))
  }

  // ---------------- who writes what a row holds ----------------

  ghost predicate Sealing(s: Sys, e: Event, c: CheckpointId) {
    e.Advance? && e.a in s.ops && s.ops[e.a].Capture? && CheckpointOf(s.ops[e.a]) == c
    && (s.ops[e.a].cpc == CDigest || s.ops[e.a].cpc == CUpdate)
  }

  predicate SameContent(row: Checkpoint, row': Checkpoint) {
    row'.workload == row.workload && row'.workloadGeneration == row.workloadGeneration
    && row'.resumability == row.resumability && row'.image == row.image && row'.digest == row.digest
  }

  lemma ContentAt(db: Db, call: Call, c: CheckpointId)
    requires c in db.checkpoints && !(call.EditRow? && call.c == c && (call.edit.Overwrite? || call.edit.SetDigest?))
    ensures c in RowsAfter(db, call) && SameContent(db.checkpoints[c], RowsAfter(db, call)[c])
  {
    hide RowsAfter, CaptureCommit;
    LifecycleAt(db, call, c);
    Availability.RowAt(db, call, c);
  }

  lemma ContentRests(s: Sys, e: Event, c: CheckpointId)
    requires Journal.Inv(s) && c in s.db.checkpoints && !Sealing(s, e, c)
    ensures c in Step(s, e).db.checkpoints && SameContent(s.db.checkpoints[c], Step(s, e).db.checkpoints[c])
  {
    hide Step, CallOf, Exec, RowsAfter, Journal.Inv;
    StepDb(s, e);
    if CallOf(s, e).Some? {
      var call := CallOf(s, e).value;
      CallsAreAllowed(s, e);
      ExecRows(s.db, call);
      ContentAt(s.db, call, c);
    }
  }

  // A persisted capture is past its sealing, and no other capture works on its row.
  lemma PersistedIsSealed(s: Sys, e: Event, a: AttemptId)
    requires Inv(s) && JournalHas(s.db, CapturePersisted, a) && a in s.db.attempts
    requires s.db.attempts[a].kind == CaptureKind
    ensures !Sealing(s, e, s.db.attempts[a].checkpoint)
  {
    var c := s.db.attempts[a].checkpoint;
    assert Journal.At(s, a) && Holder(s, a, c);
    assert CapturePersisted in Journal.MarksOf(s.db, a);
    assert Sealing(s, e, c) ==> Holder(s, e.a, c);
  }

  // A live capture past it is not sealing either, and nobody else works on its row.
  lemma RewrittenIsSealed(s: Sys, e: Event, a: AttemptId)
    requires Inv(s) && a in s.ops && s.ops[a].Capture? && Rewritten(s.ops[a].cpc)
    ensures !Sealing(s, e, s.ops[a].cplan.checkpoint)
  {
    var c := s.ops[a].cplan.checkpoint;
    assert Holder(s, a, c) && (Sealing(s, e, c) ==> Holder(s, e.a, c));
  }

  // ---------------- one step ----------------

  lemma OpensWithPlan(s: Sys, e: Event, a: AttemptId)
    requires a in Step(s, e).ops && Step(s, e).ops[a].Capture? && !(e.Advance? && e.a == a)
    requires !(a in s.ops && Step(s, e).ops[a] == s.ops[a])
    ensures e.BeginCapture? && e.a == a && MayCapture(s, a, e.cplan)
            && Step(s, e).ops[a] == Capture(CReadGeneration, e.cplan, None)
  {
    OpsMove(s, e, a);
    hide Step, MayCapture, MayRestore;
  }

  // Where a capture gets to have its row rewritten.
  lemma BecomesRewritten(op: Op, op': Op, db: Db, a: AttemptId, ans: Answer)
    requires op.Capture? && Moves(op, op', db, a, ans) && op'.Capture? && Rewritten(op'.cpc)
    ensures op'.cplan == op.cplan
    ensures Rewritten(op.cpc)
            || (op.cpc == CUpdate && !ans.fault
                && EditTx(db.checkpoints, op.cplan.checkpoint, Overwrite(PersistedRow(op.cplan, a))).Ok?)
  {
    hide Reading, PersistedRow, EditTx;
  }

  lemma RewritesRow(s: Sys, e: Event, a: AttemptId)
    requires Inv(s) && e.Advance? && e.a == a && !e.ans.fault && a in s.ops && s.ops[a].Capture?
    requires s.ops[a].cpc == CUpdate
    requires EditTx(s.db.checkpoints, s.ops[a].cplan.checkpoint, Overwrite(PersistedRow(s.ops[a].cplan, a))).Ok?
    ensures Holds(Step(s, e).db, s.ops[a].cplan.checkpoint, s.ops[a].cplan)
  {
    var p := s.ops[a].cplan;
    assert OpRow(s.db, a, s.ops[a]);
    StepDb(s, e);
    assert CallOf(s, e) == Some(EditRow(p.checkpoint, Overwrite(PersistedRow(p, a))));
    hide Step, Inv, CallOf;
  }

  lemma LiveCarries(s: Sys, e: Event, p: Option<CapturePlan>, a: AttemptId)
    requires Inv(s) && Carries(s, p, a) && e.Advance? && e.a == a
    requires a in Step(s, e).ops && Step(s, e).ops[a].Capture?
    ensures SamePlan(p, Step(s, e).ops[a].cplan)
    ensures Rewritten(Step(s, e).ops[a].cpc) ==>
              Holds(Step(s, e).db, Step(s, e).ops[a].cplan.checkpoint, Step(s, e).ops[a].cplan)
  {
    assert Journal.Inv(s);
    hide Step, Inv, Moves, Rewritten, EditTx, PersistedRow;
    OpsMove(s, e, a);
    var op, op' := s.ops[a], Step(s, e).ops[a];
    MovesKeepCheckpoint(op, op', s.db, a, e.ans);
    if op.CaptureAbort? { AbortGoes(s, a, op', e.ans); }
    else if !op.Capture? { OthersGo(s, a, op', e.ans); }
    CaptureGoes(s, a, op', e.ans);
    if Rewritten(op'.cpc) {
      BecomesRewritten(op, op', s.db, a, e.ans);
      if Rewritten(op.cpc) {
        RewrittenIsSealed(s, e, a);
        ContentRests(s, e, op.cplan.checkpoint);
      } else {
        RewritesRow(s, e, a);
      }
    }
  }

  lemma OthersKeepLive(s: Sys, e: Event, p: Option<CapturePlan>, a: AttemptId)
    requires Inv(s) && Carries(s, p, a) && !(e.Advance? && e.a == a)
    requires a in s.ops && a in Step(s, e).ops && Step(s, e).ops[a] == s.ops[a] && s.ops[a].Capture?
    ensures Rewritten(s.ops[a].cpc) ==> Holds(Step(s, e).db, s.ops[a].cplan.checkpoint, s.ops[a].cplan)
  {
    assert Journal.Inv(s);
    hide Step, Inv, Rewritten;
    if Rewritten(s.ops[a].cpc) {
      RewrittenIsSealed(s, e, a);
      ContentRests(s, e, s.ops[a].cplan.checkpoint);
    }
  }

  lemma PersistedCarries(s: Sys, e: Event, p: Option<CapturePlan>, a: AttemptId)
    requires Inv(s) && Carries(s, p, a) && JournalHas(Step(s, e).db, CapturePersisted, a)
    ensures p.Some? && a in Step(s, e).db.attempts && Step(s, e).db.attempts[a].node == p.value.node
    ensures Step(s, e).db.attempts[a].kind == CaptureKind
    ensures Holds(Step(s, e).db, Step(s, e).db.attempts[a].checkpoint, p.value)
  {
    assert Journal.Inv(s) && Journal.At(s, a);
    CrashAtomicity.PersistedMarks(s, e, a);
    AttemptsGrow(s, e, a);
    hide Step, Inv, Journal.Inv;
    if JournalHas(s.db, CapturePersisted, a) {
      PersistedIsSealed(s, e, a);
      ContentRests(s, e, s.db.attempts[a].checkpoint);
    } else {
      RewrittenIsSealed(s, e, a);
      ContentRests(s, e, s.ops[a].cplan.checkpoint);
    }
  }

  lemma StepCarries(s: Sys, e: Event, p: Option<CapturePlan>, a: AttemptId)
    requires Inv(s) && Carries(s, p, a)
    ensures var begins := e.BeginCapture? && e.a == a && MayCapture(s, a, e.cplan);
            Carries(Step(s, e), if begins then Some(e.cplan) else p, a)
  {
    hide Step, Inv, MayCapture;
    if e.BeginCapture? && e.a == a && MayCapture(s, a, e.cplan) {
      FreshCarries(s, e, a);
    } else {
      if a in Step(s, e).ops && Step(s, e).ops[a].Capture? {
        if e.Advance? && e.a == a { LiveCarries(s, e, p, a); }
        else {
          if !(a in s.ops && Step(s, e).ops[a] == s.ops[a]) { OpensWithPlan(s, e, a); }
          OthersKeepLive(s, e, p, a);
        }
      }
      if JournalHas(Step(s, e).db, CapturePersisted, a) { PersistedCarries(s, e, p, a); }
    }
  }

  lemma FreshCarries(s: Sys, e: Event, a: AttemptId)
    requires e.BeginCapture? && e.a == a && MayCapture(s, a, e.cplan)
    ensures Carries(Step(s, e), Some(e.cplan), a)
  {}

  lemma {:induction false} RunCarries(events: seq<Event>, a: AttemptId)
    ensures Inv(Run(EmptySys, events)) && Carries(Run(EmptySys, events), PlanOf(events, a), a)
    decreases |events|
  {
    EmptyInv();
    RunKeepsInv(EmptySys, events);
    if events != [] {
      RunCarries(events[..|events| - 1], a);
      hide Inv, Step, Carries, MayCapture;
      StepCarries(Run(EmptySys, events[..|events| - 1]), events[|events| - 1], PlanOf(events[..|events| - 1], a), a);
    }
  }

  // In every run, crashes, recoveries, restores and retirements included, a committed
  // checkpoint holds exactly what the request that captured it sealed, and its attempt
  // names the node that captured it.
  lemma CommittedHoldsTheCapture(events: seq<Event>, c: CheckpointId)
    requires var db := Run(EmptySys, events).db; c in db.checkpoints && db.checkpoints[c].lifecycle.IsAnchored()
    ensures var db := Run(EmptySys, events).db;
            var a := db.checkpoints[c].attempt;
            && PlanOf(events, a).Some? && Holds(db, c, PlanOf(events, a).value)
            && a in db.attempts && db.attempts[a].node == PlanOf(events, a).value.node
  {
    CommittedExactlyByMarker(events, c);
    var a := Run(EmptySys, events).db.checkpoints[c].attempt;
    RunCarries(events, a);
    CommittedIsPersisted(Run(EmptySys, events), a);
    hide Run, Inv, PlanOf;
  }

  lemma CommittedIsPersisted(s: Sys, a: AttemptId)
    requires Inv(s) && JournalHas(s.db, DbCommitted, a)
    ensures JournalHas(s.db, CapturePersisted, a)
  {
    assert Journal.At(s, a);
    if a in s.ops { Journal.DeadIsLocal(Journal.MarksOf(s.db, a), Journal.AttemptOf(s.db, a), s.ops[a]); }
    assert DbCommitted in Journal.MarksOf(s.db, a);
    hide Inv, Journal.LocalOp;
  }
}
