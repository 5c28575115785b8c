// Which directories are gone: in every run with one request at a time, a persisted
// capture's directory is on its node exactly until the node obeys an order to delete
// it, and what recovery publishes without one.
module Directories {
  import opened Wrappers
  import opened Tables
  import opened Operations
  import opened Steps
  import opened Anchors
  import opened Recovery
  import opened Restart
  import opened Promotion
  import Availability
  import CrashAtomicity
  import Journal
  import L = Lifecycle

  // ---------------- orders to delete a directory ----------------

  // Event e tells `node` to delete its directory of c, and the node does so, whether or
  // not its answer arrives.
  ghost predicate Obeyed(s: Sys, e: Event, node: NodeName, c: CheckpointId) {
    e.Advance? && e.a in s.ops && ActionOf(e.a, s.ops[e.a], e.ans) == Tell(Discard(node, c))
      && (e.ans.ok || e.ans.applied)
  }

  ghost function ObeyedIn(s: Sys, e: Event): set<(NodeName, CheckpointId)> {
    if e.Advance? && e.a in s.ops && (e.ans.ok || e.ans.applied) then
      match ActionOf(e.a, s.ops[e.a], e.ans)
      case Tell(Discard(node, c)) => {(node, c)}
      case _ => {}
    else {}
  }

  lemma ObeyedAt(s: Sys, e: Event, node: NodeName, c: CheckpointId)
    ensures (node, c) in ObeyedIn(s, e) <==> Obeyed(s, e, node, c)
  {
    hide ActionOf;
  }

  // The directories nodes have deleted on an order in a run from the empty store.
  ghost function Deleted(events: seq<Event>): set<(NodeName, CheckpointId)>
    decreases |events|
  {
    if events == [] then {}
    else
      var prefix, last := events[..|events| - 1], events[|events| - 1];
      Deleted(prefix) + ObeyedIn(Run(EmptySys, prefix), last)
  }

  // ---------------- where a capture's directory is ----------------

  // Attempt a is a capture that has journaled its promotion.
  ghost predicate Filed(db: Db, a: AttemptId) {
    a in db.attempts && db.attempts[a].kind == CaptureKind && JournalHas(db, CapturePersisted, a)
  }

  ghost function Home(db: Db, a: AttemptId): (NodeName, CheckpointId)
    requires a in db.attempts
  {
    (db.attempts[a].node, db.attempts[a].checkpoint)
  }

  // A checkpoint id that has been used.
  ghost predicate Known(db: Db, c: CheckpointId) {
    c in db.checkpoints || exists a :: a in db.attempts && db.attempts[a].checkpoint == c
  }

  // A live capture works on the node its attempt row names.
  ghost predicate AtHome(s: Sys, a: AttemptId) {
    a in s.ops && (s.ops[a].Capture? || s.ops[a].CaptureAbort?) && a in s.db.attempts ==>
      s.db.attempts[a].node == s.ops[a].cplan.node
  }

  ghost predicate HasRow(s: Sys, a: AttemptId) {
    a in s.ops && s.ops[a].Retirement? ==> s.ops[a].c in s.db.checkpoints
  }

  ghost predicate Placed(s: Sys) {
    forall a :: AtHome(s, a) && HasRow(s, a)
  }

  // d is what has been deleted on the way to s.
  ghost predicate Ledger(s: Sys, d: set<(NodeName, CheckpointId)>) {
    && (forall a, node :: a in s.ops && s.ops[a].Capture? ==> (node, s.ops[a].cplan.checkpoint) !in d)
    && (forall node, c :: (node, c) in d ==> Known(s.db, c))
    && (forall a :: Filed(s.db, a) ==> (Home(s.db, a) in s.promoted <==> Home(s.db, a) !in d))
  }

  // ---------------- one step ----------------

  lemma TurnsLate(pc: CapturePc, p: CapturePlan, seen: Option<L.State>, reply: Reply, ans: Answer)
    requires pc == CReadGeneration || pc == CReserve || pc == CBegin
    ensures NextCapture(pc, p, seen, reply, ans).Some? ==> NextCapture(pc, p, seen, reply, ans).value.Capture?
    ensures Failing(Capture(pc, p, seen)).None?
  {}

  lemma AbortsHaveAttempts(s: Sys, b: AttemptId, op': Op, ans: Answer)
    requires Journal.Inv(s) && b in s.ops && s.ops[b].Capture? && Moves(s.ops[b], op', s.db, b, ans)
             && op'.CaptureAbort?
    ensures b in s.db.attempts && s.db.attempts[b].node == s.ops[b].cplan.node
  {
    assert Journal.At(s, b);
    var Capture(pc, p, seen) := s.ops[b];
    var act := ActionOf(b, s.ops[b], ans);
    if pc == CReadGeneration || pc == CReserve || pc == CBegin {
      TurnsLate(pc, p, seen, if act.Ask? then Exec(s.db, act.call).1 else Done, ans);
    }
    hide Exec, NextCapture, Failing;
  }

  lemma StepKeepsAtHome(s: Sys, e: Event, b: AttemptId)
    requires Inv(s) && AtHome(s, b)
    ensures AtHome(Step(s, e), b)
  {
    var s' := Step(s, e);
    if b in s'.ops && (s'.ops[b].Capture? || s'.ops[b].CaptureAbort?) && b in s'.db.attempts {
      OpsMove(s, e, b);
      AttemptsGrow(s, e, b);
      StepDb(s, e);
      if s'.ops[b].Capture? {
        StepKeepsInv(s, e);
        assert Journal.At(s', b);
      } else if e.Advance? && e.a == b {
        if s.ops[b].Capture? {
          AbortsHaveAttempts(s, b, s'.ops[b], e.ans);
          CaptureGoes(s, b, s'.ops[b], e.ans);
        } else if s.ops[b].CaptureAbort? {
          assert Journal.At(s, b);
          AbortGoes(s, b, s'.ops[b], e.ans);
        } else {
          OthersGo(s, b, s'.ops[b], e.ans);
        }
      }
      hide Step, Inv, Moves, Exec, CallOf;
    }
  }

  lemma StepKeepsHasRow(s: Sys, e: Event, b: AttemptId)
    requires Inv(s) && HasRow(s, b)
    ensures HasRow(Step(s, e), b)
  {
    var s' := Step(s, e);
    if b in s'.ops && s'.ops[b].Retirement? {
      OpsMove(s, e, b);
      StepAdvances(s, e);
      if e.Advance? && e.a == b {
        MovesKeepCheckpoint(s.ops[b], s'.ops[b], s.db, b, e.ans);
        RetirementsStay(s.ops[b], s'.ops[b], s.db, b, e.ans);
      } else if !(b in s.ops && s'.ops[b] == s.ops[b]) {
        BegunOnRow(s, e, b);
      }
      hide Step, Inv, Moves;
    }
  }

  lemma BegunOnRow(s: Sys, e: Event, b: AttemptId)
    requires e.BeginRetire? && e.a == b && b in Step(s, e).ops && !(b in s.ops && Step(s, e).ops[b] == s.ops[b])
    ensures CheckpointOf(Step(s, e).ops[b]) in s.db.checkpoints
  {}

  lemma RetirementsStay(op: Op, op': Op, db: Db, b: AttemptId, ans: Answer)
    requires Moves(op, op', db, b, ans) && op'.Retirement?
    ensures op.Retirement?
  {
    var act := ActionOf(b, op, ans);
    var reply := if act.Ask? then Exec(db, act.call).1 else Done;
    if op.Capture? { CaptureMoves(op.cpc, op.cplan, op.seen, reply, ans); }
    hide Exec, ActionOf, NextCapture;
  }

  lemma {:induction false} RunKeepsPlaced(s: Sys, events: seq<Event>)
    requires Inv(s) && Placed(s)
    ensures Inv(Run(s, events)) && Placed(Run(s, events))
    decreases |events|
  {
    RunKeepsInv(s, events);
    if events != [] {
      var prefix, last := events[..|events| - 1], events[|events| - 1];
      RunKeepsPlaced(s, prefix);
      forall b ensures AtHome(Run(s, events), b) && HasRow(Run(s, events), b) {
        StepKeepsAtHome(Run(s, prefix), last, b);
        StepKeepsHasRow(Run(s, prefix), last, b);
      }
    }
    hide Inv, Step, AtHome, HasRow;
  }

  // Event e tells `node` to promote its staged copy of c, and the node does so.
  ghost predicate Promotes(s: Sys, e: Event, node: NodeName, c: CheckpointId) {
    e.Advance? && e.a in s.ops && ActionOf(e.a, s.ops[e.a], e.ans) == Tell(Promote(node, c))
      && (e.ans.ok || e.ans.applied)
  }

  // What a node holds of c after a step: a promotion or a deletion whose answer is lost
  // counts like one that is reported.
  lemma PromotedExactly(s: Sys, e: Event, node: NodeName, c: CheckpointId)
    ensures Obeyed(s, e, node, c) ==> (node, c) !in Step(s, e).promoted
    ensures !Obeyed(s, e, node, c) && (node, c) in s.promoted ==> (node, c) in Step(s, e).promoted
    ensures (node, c) in Step(s, e).promoted && (node, c) !in s.promoted ==>
              e.Advance? && e.a in s.ops && ActionOf(e.a, s.ops[e.a], e.ans) == Tell(Promote(node, c))
    ensures (node, c) in Step(s, e).promoted <==>
              Promotes(s, e, node, c) || ((node, c) in s.promoted && !Obeyed(s, e, node, c))
  {
    hide ActionOf, Next, Failing, Exec;
  }

  // Only a capture at its promotion promotes; only an abort and a retirement delete.
  lemma WhoMovesDirectories(a: AttemptId, op: Op, ans: Answer, node: NodeName, c: CheckpointId)
    ensures ActionOf(a, op, ans) == Tell(Promote(node, c)) ==>
              op.Capture? && op.cpc == CPromote && op.cplan.node == node && op.cplan.checkpoint == c
    ensures ActionOf(a, op, ans) == Tell(Discard(node, c)) <==>
              (op.CaptureAbort? && op.apc == ANode && !op.committed && op.cplan.node == node
                && op.cplan.checkpoint == c)
              || (op.Retirement? && op.tpc == TDelete && op.locations != [] && op.locations[0].node == node
                 && op.c == c)
  {
    hide Scaffold, PersistedRow;
  }

  // A live capture's checkpoint has never been deleted.
  lemma CapturesAreUndeleted(s: Sys, e: Event, d: set<(NodeName, CheckpointId)>, b: AttemptId, node: NodeName)
    requires Inv(s) && Availability.Alone(s) && Ledger(s, d) && b in Step(s, e).ops && Step(s, e).ops[b].Capture?
    requires Availability.Begins(e) ==> s.ops == map[]
    ensures (node, Step(s, e).ops[b].cplan.checkpoint) !in d + ObeyedIn(s, e)
  {
    var c := Step(s, e).ops[b].cplan.checkpoint;
    OpsMove(s, e, b);
    ObeyedAt(s, e, node, c);
    if b in s.ops {
      if e.Advance? && e.a in s.ops {
        WhoMovesDirectories(e.a, s.ops[e.a], e.ans, node, c);
        MovesKeepCaptures(s, b, Step(s, e).ops[b], e.ans);
      }
    } else {
      assert FreshCheckpoint(s, c);
    }
    hide Step, Inv, Moves, ActionOf;
  }

  lemma MovesKeepCaptures(s: Sys, b: AttemptId, op': Op, ans: Answer)
    requires b in s.ops
    ensures Moves(s.ops[b], op', s.db, b, ans) && op'.Capture? ==>
              s.ops[b].Capture? && CheckpointOf(op') == CheckpointOf(s.ops[b])
  {
    if Moves(s.ops[b], op', s.db, b, ans) && op'.Capture? {
      MovesKeepCheckpoint(s.ops[b], op', s.db, b, ans);
      if s.ops[b].CaptureAbort? { AbortGoes(s, b, op', ans); } else if !s.ops[b].Capture? { OthersGo(s, b, op', ans); }
    }
    hide Moves;
  }

  lemma ObeyedIsKnown(s: Sys, e: Event, node: NodeName, c: CheckpointId)
    requires Inv(s) && Placed(s) && Obeyed(s, e, node, c)
    ensures Known(s.db, c)
  {
    WhoMovesDirectories(e.a, s.ops[e.a], e.ans, node, c);
    assert HasRow(s, e.a) && Journal.At(s, e.a);
    hide Inv, ActionOf;
  }

  lemma KnownStays(s: Sys, e: Event, c: CheckpointId)
    requires Inv(s) && Known(s.db, c)
    ensures Known(Step(s, e).db, c)
  {
    StepAdvances(s, e);
    if c !in s.db.checkpoints {
      var a :| a in s.db.attempts && s.db.attempts[a].checkpoint == c;
      AttemptsGrow(s, e, a);
    }
    hide Step, Inv;
  }

  // The directory of a filed capture, through one step.
  lemma FiledStays(s: Sys, e: Event, d: set<(NodeName, CheckpointId)>, a: AttemptId)
    requires Inv(s) && Ledger(s, d) && Filed(s.db, a)
    ensures a in Step(s, e).db.attempts && Home(Step(s, e).db, a) == Home(s.db, a)
    ensures Home(s.db, a) in Step(s, e).promoted <==> Home(s.db, a) !in d + ObeyedIn(s, e)
  {
    var (node, c) := Home(s.db, a);
    AttemptsGrow(s, e, a);
    PromotedExactly(s, e, node, c);
    ObeyedAt(s, e, node, c);
    if a in s.ops && s.ops[a].Capture? { PersistedStage(s, a); }
    if e.Advance? && e.a in s.ops {
      WhoMovesDirectories(e.a, s.ops[e.a], e.ans, node, c);
      HoldersAgree(s, e.a, a, c);
    }
    hide Step, Inv, Obeyed, ActionOf;
  }

  lemma HoldersAgree(s: Sys, a: AttemptId, b: AttemptId, c: CheckpointId)
    requires OneHolder(s)
    ensures Holder(s, a, c) && Holder(s, b, c) ==> a == b
  {}

  lemma NewlyFiled(s: Sys, e: Event, d: set<(NodeName, CheckpointId)>, a: AttemptId)
    requires Inv(s) && AllCopied(s) && Ledger(s, d) && Filed(Step(s, e).db, a) && !Filed(s.db, a)
    ensures Home(Step(s, e).db, a) in Step(s, e).promoted && Home(Step(s, e).db, a) !in d + ObeyedIn(s, e)
  {
    AttemptsGrow(s, e, a);
    CrashAtomicity.PersistedMarks(s, e, a);
    FiledByLog(s, e, a);
    assert Copied(s, a, s.ops[a]) && Journal.At(s, a);
    var (node, c) := Home(s.db, a);
    PromotedExactly(s, e, node, c);
    ObeyedAt(s, e, node, c);
    WhoMovesDirectories(a, s.ops[a], e.ans, node, c);
    hide Step, Inv, ActionOf, CallOf;
  }

  // A capture becomes filed by its persisted entry, not by its attempt row.
  lemma FiledByLog(s: Sys, e: Event, a: AttemptId)
    requires Inv(s) && Filed(Step(s, e).db, a) && !Filed(s.db, a)
    ensures a in s.db.attempts && !JournalHas(s.db, CapturePersisted, a)
    ensures e.Advance? && e.a == a && a in s.ops && s.ops[a].Capture? && s.ops[a].cpc == CLogPersisted
  {
    AttemptsGrow(s, e, a);
    CrashAtomicity.PersistedMarks(s, e, a);
    assert Journal.At(s, a);
    assert CapturePersisted in Journal.MarksOf(s.db, a) <==> JournalHas(s.db, CapturePersisted, a);
    if a in s.ops { Journal.DeadIsLocal(Journal.MarksOf(s.db, a), Journal.AttemptOf(s.db, a), s.ops[a]); }
    hide Step, Inv, CallOf;
  }

  lemma StepKeepsLedger(s: Sys, e: Event, d: set<(NodeName, CheckpointId)>)
    requires Inv(s) && Availability.Alone(s) && AllCopied(s) && Placed(s) && Ledger(s, d)
    requires Availability.Begins(e) ==> s.ops == map[]
    ensures Ledger(Step(s, e), d + ObeyedIn(s, e))
  {
    var s', d' := Step(s, e), d + ObeyedIn(s, e);
    forall a, node | a in s'.ops && s'.ops[a].Capture? ensures (node, s'.ops[a].cplan.checkpoint) !in d' {
      CapturesAreUndeleted(s, e, d, a, node);
    }
    forall node, c | (node, c) in d' ensures Known(s'.db, c) {
      ObeyedAt(s, e, node, c);
      if Obeyed(s, e, node, c) { ObeyedIsKnown(s, e, node, c); }
      KnownStays(s, e, c);
    }
    forall a | Filed(s'.db, a) ensures Home(s'.db, a) in s'.promoted <==> Home(s'.db, a) !in d' {
      if Filed(s.db, a) { FiledStays(s, e, d, a); } else { NewlyFiled(s, e, d, a); }
    }
    hide Step, Inv, ObeyedIn, Filed, Known;
  }

  lemma {:induction false} RunKeepsLedger(events: seq<Event>)
    requires Availability.OneAtATime(EmptySys, events)
    ensures Ledger(Run(EmptySys, events), Deleted(events))
    decreases |events|
  {
    if events != [] {
      var prefix, last := events[..|events| - 1], events[|events| - 1];
      RunKeepsLedger(prefix);
      RunKeepsCopied(prefix);
      EmptyInv();
      RunKeepsPlaced(EmptySys, prefix);
      hide Inv, Step, Ledger, AllCopied, Placed;
      StepKeepsLedger(Run(EmptySys, prefix), last, Deleted(prefix));
    }
  }

  // ---------------- in every run with one request at a time ----------------

  // The node a persisted capture names has its directory exactly unless it has obeyed
  // an order to delete it.  Crashes, recoveries and retirements may come anywhere.
  lemma DirectoryStaysUnlessDeleted(events: seq<Event>, a: AttemptId)
    requires Availability.OneAtATime(EmptySys, events) && Filed(Run(EmptySys, events).db, a)
    ensures var s := Run(EmptySys, events);
            Home(s.db, a) in s.promoted <==> Home(s.db, a) !in Deleted(events)
  {
    RunKeepsLedger(events);
    hide Run;
  }

  // The node that captured checkpoint c.
  ghost function CaptureNode(db: Db, c: CheckpointId): NodeName
    requires c in db.checkpoints && db.checkpoints[c].attempt in db.attempts
  {
    db.attempts[db.checkpoints[c].attempt].node
  }

  // In particular for every committed checkpoint, whatever its locations say.
  lemma CommittedDirectoryStaysUnlessDeleted(events: seq<Event>, c: CheckpointId)
    requires Availability.OneAtATime(EmptySys, events)
    requires var db := Run(EmptySys, events).db; c in db.checkpoints && db.checkpoints[c].lifecycle.IsAnchored()
    ensures var s := Run(EmptySys, events);
            s.db.checkpoints[c].attempt in s.db.attempts
            && ((CaptureNode(s.db, c), c) in s.promoted <==> (CaptureNode(s.db, c), c) !in Deleted(events))
  {
    CommittedExactlyByMarker(events, c);
    EmptyInv();
    RunKeepsInv(EmptySys, events);
    var s := Run(EmptySys, events);
    CommittedIsFiled(s, s.db.checkpoints[c].attempt);
    DirectoryStaysUnlessDeleted(events, s.db.checkpoints[c].attempt);
    hide Run, Inv;
  }

  lemma CommittedIsFiled(s: Sys, a: AttemptId)
    requires Journal.Inv(s) && a in s.db.attempts && s.db.attempts[a].kind == CaptureKind
             && JournalHas(s.db, DbCommitted, a)
    ensures Filed(s.db, a)
  {
    assert Journal.At(s, a);
    if a in s.ops { Journal.DeadIsLocal(Journal.MarksOf(s.db, a), Journal.AttemptOf(s.db, a), s.ops[a]); }
    assert DbCommitted in Journal.MarksOf(s.db, a);
  }

  // Which orders take a linked checkpoint's capture directory away, in any run: exactly
  // the deletion calls a retirement makes for that location before it looks at the
  // lifecycle, when the node obeys.  The row stays as it is.
  lemma OnlyRetirementsDeleteLinked(events: seq<Event>, e: Event, c: CheckpointId)
    requires var db := Run(EmptySys, events).db; c in db.checkpoints && db.checkpoints[c].lifecycle.IsLinked()
    ensures var s := Run(EmptySys, events);
            && s.db.checkpoints[c].attempt in s.db.attempts
            && (Obeyed(s, e, CaptureNode(s.db, c), c) <==>
                  e.Advance? && e.a in s.ops && s.ops[e.a].Retirement? && s.ops[e.a].tpc == TDelete && s.ops[e.a].c == c
                  && s.ops[e.a].locations != [] && s.ops[e.a].locations[0].node == CaptureNode(s.db, c)
                  && (e.ans.ok || e.ans.applied))
            && (Obeyed(s, e, CaptureNode(s.db, c), c) ==> Step(s, e).db == s.db)
  {
    CommittedExactlyByMarker(events, c);
    EmptyInv();
    RunKeepsInv(EmptySys, events);
    hide Run;
    var s := Run(EmptySys, events);
    if e.Advance? && e.a in s.ops {
      WhoMovesDirectories(e.a, s.ops[e.a], e.ans, CaptureNode(s.db, c), c);
      AbortsSpareCommitted(s, e.a, c);
      OrdersKeepTables(s, e);
    }
    hide Step, Inv, ActionOf;
  }

  lemma AbortsSpareCommitted(s: Sys, b: AttemptId, c: CheckpointId)
    requires Inv(s) && b in s.ops && c in s.db.checkpoints && s.db.checkpoints[c].lifecycle.IsAnchored()
    ensures s.ops[b].CaptureAbort? && s.ops[b].apc == ANode && s.ops[b].cplan.checkpoint == c ==> s.ops[b].committed
  {
    assert AnchoredRow(s.db, c);
    if s.ops[b].CaptureAbort? && s.ops[b].cplan.checkpoint == c && s.ops[b].apc == ANode {
      OwnersHold(s, b, c);
      AbortFlag(s, b);
    }
    hide Inv;
  }

  lemma OrdersKeepTables(s: Sys, e: Event)
    requires e.Advance? && e.a in s.ops
    ensures ActionOf(e.a, s.ops[e.a], e.ans).Tell? ==> Step(s, e).db == s.db
  {
    StepDb(s, e);
    hide ActionOf, Step, Exec;
  }

  // ---------------- what recovery publishes ----------------

  ghost predicate Published(db: Db, c: CheckpointId) {
    c in db.checkpoints && db.checkpoints[c].lifecycle.IsAnchored()
  }

  // For every persisted capture of every run with one request at a time, live or not:
  // a crash followed by its recovery publishes the checkpoint exactly when it was
  // committed or its ACTIVE attempt can still publish it, and the directory is there
  // exactly unless the node obeyed an order to delete it.
  lemma RecoveryPublishesExactly(events: seq<Event>, a: AttemptId)
    requires Availability.OneAtATime(EmptySys, events) && Filed(Run(EmptySys, events).db, a)
    ensures var s := Run(EmptySys, events);
            var t := Recovered(s, a);
            && (Published(t.db, s.db.attempts[a].checkpoint) <==>
                  JournalHas(s.db, DbCommitted, a)
                    || (s.db.attempts[a].state == Active && CrashAtomicity.Publishable(s.db, a)))
            && (Home(s.db, a) in t.promoted <==> Home(s.db, a) !in Deleted(events))
  {
    CrashAtomicity.Reachable(events);
    DirectoryStaysUnlessDeleted(events, a);
    hide Run, Recovered, CrashAtomicity.Publishable, Inv, CrashAtomicity.DurableInv;
    RecoveredPublishes(Run(EmptySys, events), a);
  }

  lemma RecoveredPublishes(s: Sys, a: AttemptId)
    requires Inv(s) && CrashAtomicity.DurableInv(s) && Filed(s.db, a)
    ensures Recovered(s, a).promoted == s.promoted
    ensures Published(Recovered(s, a).db, s.db.attempts[a].checkpoint) <==>
              JournalHas(s.db, DbCommitted, a)
                || (s.db.attempts[a].state == Active && CrashAtomicity.Publishable(s.db, a))
  {
    assert CrashAtomicity.Durable(s.db, a);
    assert AnchoredRow(s.db, s.db.attempts[a].checkpoint);
    hide Inv, CrashAtomicity.DurableInv, Recovered, Reconciled, CrashAtomicity.Publishable, AnchoredRow,
      CrashAtomicity.Durable,
      CrashAtomicity.AllOrNothing;
    CrashAtomicity.CrashedCaptureOf(s, a);
    if s.db.attempts[a].state == Active {
      RecoveryRefinesReconcile(s, a);
      DecidedPublishes(s.db, a, Reconciled(s.db, a).value.0);
    } else {
      NothingToRecover(s, a);
      MarkedIsPublished(s.db, a);
    }
  }

  lemma MarkedIsPublished(db: Db, a: AttemptId)
    requires Filed(db, a) && CrashAtomicity.Durable(db, a) && AnchoredRow(db, db.attempts[a].checkpoint)
    ensures Published(db, db.attempts[a].checkpoint) <==> JournalHas(db, DbCommitted, a)
  {}

  lemma DecidedPublishes(db: Db, a: AttemptId, db': Db)
    requires Filed(db, a) && CrashAtomicity.Durable(db, a) && AnchoredRow(db, db.attempts[a].checkpoint)
    requires CrashAtomicity.AllOrNothing(db, a, db')
    ensures Published(db', db.attempts[a].checkpoint) <==>
            JournalHas(db, DbCommitted, a) || CrashAtomicity.Publishable(db, a)
  {
    hide CaptureCommit, CrashAtomicity.Publishable;
  }

  // The same for a live capture or its abort, told from its program counter: whatever
  // step it is at, a crash and its recovery publish a checkpoint whose directory is
  // gone exactly when the capture is being aborted uncommitted, the node has obeyed the
  // deletion order, and the row has not been failed yet.
  lemma PublishedWithoutDirectoryExactly(events: seq<Event>, a: AttemptId)
    requires Availability.OneAtATime(EmptySys, events)
    requires var s := Run(EmptySys, events);
             a in s.ops && (s.ops[a].Capture? || s.ops[a].CaptureAbort?) && JournalHas(s.db, CapturePersisted, a)
    ensures var s := Run(EmptySys, events);
            var op, p, t := s.ops[a], s.ops[a].cplan, Recovered(s, a);
            && p.checkpoint in s.db.checkpoints
            && (Published(t.db, p.checkpoint) <==>
                  JournalHas(s.db, DbCommitted, a) || s.db.checkpoints[p.checkpoint].lifecycle != L.Failed)
            && (s.db.checkpoints[p.checkpoint].lifecycle == L.Failed <==>
                  op.CaptureAbort? && !op.committed && (op.apc == AFinish || op.apc == ARelease))
            && ((p.node, p.checkpoint) in t.promoted <==> (p.node, p.checkpoint) !in Deleted(events))
            && ((p.node, p.checkpoint) in Deleted(events) ==> op.CaptureAbort? && !op.committed && !BeforeCleanup(op))
            && (Published(t.db, p.checkpoint) && (p.node, p.checkpoint) !in t.promoted <==>
                  op.CaptureAbort? && !op.committed && (op.apc == ARead || op.apc == AFail)
                  && (p.node, p.checkpoint) in Deleted(events))
  {
    CrashAtomicity.Reachable(events);
    RunKeepsCopied(events);
    RunKeepsAbortReady(events);
    RunKeepsPlaced(EmptySys, events);
    var s := Run(EmptySys, events);
    hide Run, Recovered, Inv, CrashAtomicity.DurableInv;
    LiveIsFiled(s, a);
    assert AtHome(s, a);
    RecoveryPublishesExactly(events, a);
    DirectoryStaysUnlessDeleted(events, a);
    LiveIsPublishable(s, a);
    LiveDirectory(s, a);
  }

  lemma LiveIsFiled(s: Sys, a: AttemptId)
    requires Inv(s) && CrashAtomicity.DurableInv(s) && a in s.ops && (s.ops[a].Capture? || s.ops[a].CaptureAbort?)
    requires JournalHas(s.db, CapturePersisted, a)
    ensures Filed(s.db, a) && s.db.attempts[a].checkpoint == s.ops[a].cplan.checkpoint
    ensures s.ops[a].cplan.checkpoint in s.db.checkpoints && s.db.checkpoints[s.ops[a].cplan.checkpoint].attempt == a
  {
    assert Journal.At(s, a) && CrashAtomicity.Durable(s.db, a);
    assert CapturePersisted in Journal.MarksOf(s.db, a);
    hide Inv, CrashAtomicity.DurableInv;
  }

  // Whether a live capture, or its abort, can still be published.
  lemma LiveIsPublishable(s: Sys, a: AttemptId)
    requires Inv(s) && CrashAtomicity.DurableInv(s) && AllCopied(s) && AllAbortReady(s)
    requires a in s.ops && (s.ops[a].Capture? || s.ops[a].CaptureAbort?) && Filed(s.db, a)
    requires s.db.attempts[a].checkpoint == s.ops[a].cplan.checkpoint
    requires s.ops[a].cplan.checkpoint in s.db.checkpoints && s.db.checkpoints[s.ops[a].cplan.checkpoint].attempt == a
    ensures var failed := s.db.checkpoints[s.ops[a].cplan.checkpoint].lifecycle == L.Failed;
            && (JournalHas(s.db, DbCommitted, a) ==> !failed)
            && (!JournalHas(s.db, DbCommitted, a) ==>
                  (s.db.attempts[a].state == Active && CrashAtomicity.Publishable(s.db, a) <==> !failed))
            && (failed <==>
               s.ops[a].CaptureAbort? && !s.ops[a].committed && (s.ops[a].apc == AFinish || s.ops[a].apc == ARelease))
  {
    assert Copied(s, a, s.ops[a]) && AbortReady(s.db, a, s.ops[a]) && CrashAtomicity.OpReady(s.db, s.ops[a]);
    assert AnchoredRow(s.db, s.ops[a].cplan.checkpoint) && Journal.Inv(s);
    hide Inv, CrashAtomicity.DurableInv, AllCopied, AllAbortReady, Copied, AbortReady, CrashAtomicity.OpReady,
      AnchoredRow,
      CrashAtomicity.Publishable;
    LiveVerdict(s, a);
    if s.ops[a].Capture? { LiveCaptureRow(s, a); } else { LiveAbortRow(s, a); }
  }

  lemma LiveVerdict(s: Sys, a: AttemptId)
    requires Journal.Inv(s) && Filed(s.db, a) && a in s.ops && (s.ops[a].Capture? || s.ops[a].CaptureAbort?)
    ensures !JournalHas(s.db, DbCommitted, a) && !(s.ops[a].CaptureAbort? && s.ops[a].apc == ARelease) ==>
              s.db.attempts[a].state == Active
  {
    assert Journal.At(s, a);
    assert DbCommitted in Journal.MarksOf(s.db, a) <==> JournalHas(s.db, DbCommitted, a);
  }

  lemma LiveCaptureRow(s: Sys, a: AttemptId)
    requires Journal.Inv(s) && Filed(s.db, a) && a in s.ops && s.ops[a].Capture?
    requires Copied(s, a, s.ops[a]) && CrashAtomicity.OpReady(s.db, s.ops[a])
    requires s.db.attempts[a].checkpoint == s.ops[a].cplan.checkpoint && AnchoredRow(s.db, s.ops[a].cplan.checkpoint)
    requires s.db.checkpoints[s.ops[a].cplan.checkpoint].attempt == a
    ensures s.db.checkpoints[s.ops[a].cplan.checkpoint].lifecycle != L.Failed
    ensures !JournalHas(s.db, DbCommitted, a) ==> CrashAtomicity.Publishable(s.db, a)
  {
    PersistedStage(s, a);
    hide Journal.Inv;
  }

  lemma LiveAbortRow(s: Sys, a: AttemptId)
    requires Journal.Inv(s) && Filed(s.db, a) && a in s.ops && s.ops[a].CaptureAbort?
    requires Copied(s, a, s.ops[a]) && AbortReady(s.db, a, s.ops[a])
    requires s.db.attempts[a].checkpoint == s.ops[a].cplan.checkpoint && AnchoredRow(s.db, s.ops[a].cplan.checkpoint)
    requires s.db.checkpoints[s.ops[a].cplan.checkpoint].attempt == a
    ensures var failed := s.db.checkpoints[s.ops[a].cplan.checkpoint].lifecycle == L.Failed;
            && (JournalHas(s.db, DbCommitted, a) ==> !failed)
            && (!JournalHas(s.db, DbCommitted, a) ==> (CrashAtomicity.Publishable(s.db, a) <==> !failed))
            && (failed <==> !s.ops[a].committed && (s.ops[a].apc == AFinish || s.ops[a].apc == ARelease))
  {
    if s.ops[a].apc != ACheck { AbortFlag(s, a); }
    hide Journal.Inv;
  }

  // Before the order, and after a commit, the directory is there.
  lemma LiveDirectory(s: Sys, a: AttemptId)
    requires Inv(s) && AllCopied(s) && a in s.ops && (s.ops[a].Capture? || s.ops[a].CaptureAbort?)
    requires JournalHas(s.db, CapturePersisted, a)
    ensures !(s.ops[a].CaptureAbort? && !s.ops[a].committed && !BeforeCleanup(s.ops[a])) ==>
              (s.ops[a].cplan.node, s.ops[a].cplan.checkpoint) in s.promoted
  {
    assert Copied(s, a, s.ops[a]);
    if s.ops[a].Capture? { PersistedStage(s, a); }
    hide Inv, AllCopied;
  }
}
