// What a checkpoint that can be restored is backed by: a commit marker, a manifest
// digest and at least one location, and the one race that breaks the last of these.
module Availability {
  import opened Wrappers
  import opened Tables
  import opened Operations
  import opened Steps
  import opened RowInvariants
  import opened Anchors
  import Journal
  import L = Lifecycle

  predicate Sealed(row: Checkpoint) {
    row.lifecycle.IsAnchored() ==> row.digest.Some? && row.digest.value != ""
  }

  predicate Stocked(row: Checkpoint) {
    row.lifecycle.IsLinked() ==> row.locations != []
  }

  ghost predicate AllSealed(db: Db) {
    forall c :: c in db.checkpoints ==> Sealed(db.checkpoints[c])
  }

  ghost predicate AllStocked(db: Db) {
    forall c :: c in db.checkpoints ==> Stocked(db.checkpoints[c])
  }

  // The columns a call can change in a row.
  lemma RowAt(db: Db, call: Call, c: CheckpointId)
    requires c in db.checkpoints && c in RowsAfter(db, call)
    ensures var row, row' := db.checkpoints[c], RowsAfter(db, call)[c];
            match call
            case EditRow(d, e) =>
              row' == if d == c && EditTx(db.checkpoints, c, e).Ok? then Edit(row, e).value else row
            case CommitCapture(d, a) =>
              row' == row.(lifecycle := row'.lifecycle, integrity := row'.integrity, supersedes := row'.supersedes,
                           supersededBy := row'.supersededBy)
              && (d == c && CaptureCommit(db, c, a).Ok? ==>
                 row.locations != [] && row.digest.Some? && row.digest.value != "")
            case _ =>
              row' == row.(lifecycle := row'.lifecycle, integrity := row'.integrity, restoreCount := row'.restoreCount,
                           lastRestore := row'.lastRestore)
  {
    match call
    case CommitCapture(d, a) =>
      if CaptureCommit(db, d, a).Ok? {
        var row := CommittedRow(db.checkpoints, d);
        SpliceShape(db.checkpoints[d := row], d, row.supersedes, row.supersededBy);
      }
    case _ =>
  }

  // A late restore step that brings a retired row back without anything behind it.
  ghost predicate Revives(s: Sys, call: Call, c: CheckpointId) {
    c in s.db.checkpoints && call.EditRow? && call.c == c && call.edit.SetLifecycle? && call.edit.target.IsLinked()
    && s.db.checkpoints[c].lifecycle == L.Retired && s.db.checkpoints[c].locations == []
  }

  // Only a capture without its commit marker writes digests or whole rows.
  lemma DigestsPrecedeCommit(s: Sys, a: AttemptId, call: Call, c: CheckpointId)
    requires Inv(s) && c in s.db.checkpoints
    requires (a in s.ops && OpCall(a, s.ops[a], call)) || OutsideCall(call)
    requires call.EditRow? && call.c == c && (call.edit.Overwrite? || call.edit.SetDigest?)
    ensures !s.db.checkpoints[c].lifecycle.IsAnchored()
  {
    assert Journal.At(s, a) && AnchoredRow(s.db, c);
    OwnersHold(s, a, c);
    assert DbCommitted !in Journal.MarksOf(s.db, a);
    hide Inv;
  }

  lemma CallKeepsSealed(s: Sys, a: AttemptId, call: Call, c: CheckpointId)
    requires Inv(s) && c in s.db.checkpoints && Sealed(s.db.checkpoints[c])
    requires (a in s.ops && OpCall(a, s.ops[a], call)) || OutsideCall(call)
    ensures c in RowsAfter(s.db, call) && Sealed(RowsAfter(s.db, call)[c])
  {
    hide Inv, RowsAfter, CaptureCommit, OpCall, OutsideCall;
    LifecycleAt(s.db, call, c);
    RowAt(s.db, call, c);
    if call.EditRow? && call.c == c && (call.edit.Overwrite? || call.edit.SetDigest?) {
      DigestsPrecedeCommit(s, a, call, c);
    }
    if !(call.CommitCapture? && call.c == c && CaptureCommit(s.db, c, call.a).Ok?) {
      CallKeepsLifecycleClass(s, a, call, c);
    }
  }

  // Which row edits can touch a linked row or make one linked.
  lemma EditStocks(row: Checkpoint, e: RowEdit)
    requires Edit(row, e).Ok? && Stocked(row)
    requires e.Overwrite? ==> !e.row.lifecycle.IsLinked()
    requires e.SetLifecycle? ==> (e.target.IsAnchored() <==> row.lifecycle.IsAnchored())
    ensures Stocked(Edit(row, e).value) <==>
              !(e.SetLifecycle? && e.target.IsLinked() && row.lifecycle == L.Retired && row.locations == [])
  {}

  lemma OverwritesAreUnlinked(s: Sys, a: AttemptId, call: Call)
    requires (a in s.ops && OpCall(a, s.ops[a], call)) || OutsideCall(call)
    ensures call.EditRow? && call.edit.Overwrite? ==> call.edit.row.lifecycle == L.Persisting
  {}

  lemma RestoresComeFromRestoring(db: Db, call: Call, c: CheckpointId)
    requires c in db.checkpoints && call.CommitRestore? && LifecycleAfter(db, call, c) != db.checkpoints[c].lifecycle
    ensures db.checkpoints[c].lifecycle.IsLinked()
  {}

  lemma CallKeepsStocked(s: Sys, a: AttemptId, call: Call, c: CheckpointId)
    requires Inv(s) && c in s.db.checkpoints && Stocked(s.db.checkpoints[c])
    requires (a in s.ops && OpCall(a, s.ops[a], call)) || OutsideCall(call)
    ensures c in RowsAfter(s.db, call)
    ensures Stocked(RowsAfter(s.db, call)[c]) <==> !Revives(s, call, c)
  {
    hide Inv, RowsAfter, CaptureCommit, RestoreCommit, OpCall, OutsideCall, Edit, CommitRows, RestoredRows;
    LifecycleAt(s.db, call, c);
    RowAt(s.db, call, c);
    OverwritesAreUnlinked(s, a, call);
    if call.CommitRestore? && LifecycleAfter(s.db, call, c) != s.db.checkpoints[c].lifecycle {
      RestoresComeFromRestoring(s.db, call, c);
    }
    if !(call.CommitCapture? && call.c == c && CaptureCommit(s.db, c, call.a).Ok?) {
      CallKeepsLifecycleClass(s, a, call, c);
    }
    if call.EditRow? && call.c == c {
      SetStates(s.db.checkpoints, c, call.edit);
      if EditTx(s.db.checkpoints, c, call.edit).Ok? { EditStocks(s.db.checkpoints[c], call.edit); }
    }
  }

  lemma SetStates(cs: Rows, c: CheckpointId, e: RowEdit)
    requires c in cs
    ensures e.SetLifecycle? ==> EditTx(cs, c, e).Ok? && Edit(cs[c], e).value.lifecycle == e.target
  {}

  // ---------------- runs ----------------

  ghost predicate StepRevives(s: Sys, e: Event) {
    CallOf(s, e).Some? && exists c :: Revives(s, CallOf(s, e).value, c)
  }

  // A step takes some linked checkpoint's last location away, or links one that has
  // none, exactly when it revives a retired row.
  lemma StepBreaksStockOnlyByRevival(s: Sys, e: Event)
    requires Inv(s) && AllStocked(s.db)
    ensures AllStocked(Step(s, e).db) <==> !StepRevives(s, e)
  {
    assert Journal.Inv(s);
    hide Step, Inv, CallOf, Exec, RowsAfter, OpCall, OutsideCall;
    StepDb(s, e);
    var db' := Step(s, e).db;
    forall c | c in db'.checkpoints && c !in s.db.checkpoints
      ensures Stocked(db'.checkpoints[c])
    {
      InsertedRow(s, e, c);
    }
    if CallOf(s, e).Some? {
      var call := CallOf(s, e).value;
      CallsAreAllowed(s, e);
      ExecRows(s.db, call);
      hide Stocked;
      forall c | c in s.db.checkpoints
        ensures c in db'.checkpoints && (Stocked(db'.checkpoints[c]) <==> !Revives(s, call, c))
      {
        assert Stocked(s.db.checkpoints[c]);
        CallKeepsStocked(s, Caller(e), call, c);
      }
      assert forall c :: Revives(s, call, c) ==> c in s.db.checkpoints;
    }
  }

  lemma StepKeepsSealed(s: Sys, e: Event)
    requires Inv(s) && AllSealed(s.db)
    ensures AllSealed(Step(s, e).db)
  {
    hide Step, Inv;
    var db' := Step(s, e).db;
    forall c | c in db'.checkpoints ensures Sealed(db'.checkpoints[c]) {
      if c !in s.db.checkpoints { InsertedRow(s, e, c); } else { StepKeepsSealedAt(s, e, c); }
    }
  }

  lemma StepKeepsSealedAt(s: Sys, e: Event, c: CheckpointId)
    requires Inv(s) && c in s.db.checkpoints && Sealed(s.db.checkpoints[c])
    ensures c in Step(s, e).db.checkpoints && Sealed(Step(s, e).db.checkpoints[c])
  {
    assert Journal.Inv(s);
    hide Step, Inv, CallOf, Exec, RowsAfter, OpCall, OutsideCall, Sealed;
    StepDb(s, e);
    if CallOf(s, e).Some? {
      CallsAreAllowed(s, e);
      ExecRows(s.db, CallOf(s, e).value);
      CallKeepsSealed(s, Caller(e), CallOf(s, e).value, c);
    }
  }

  predicate Begins(e: Event) {
    e.BeginCapture? || e.BeginRestore? || e.BeginRetire? || e.BeginRecovery?
  }

  // Requests run one at a time: none starts while another is live.
  ghost predicate OneAtATime(s: Sys, events: seq<Event>)
    decreases |events|
  {
    events == []
    || (var prefix, last := events[..|events| - 1], events[|events| - 1];
        OneAtATime(s, prefix) && (Begins(last) ==> Run(s, prefix).ops == map[]))
  }

  // A restore in progress works on a checkpoint that is not retired.
  ghost predicate Live(db: Db, op: Op) {
    (op.Restore? || op.RestoreAbort? || (op.RecoverRestore? && op.qpc == QAvailable)) ==>
      CheckpointOf(op) in db.checkpoints && db.checkpoints[CheckpointOf(op)].lifecycle.IsLinked()
  }

  ghost predicate Alone(s: Sys) {
    (forall a, b :: a in s.ops && b in s.ops ==> a == b) && forall a :: a in s.ops ==> Live(s.db, s.ops[a])
  }

  lemma AloneNeverRevives(s: Sys, e: Event)
    requires Inv(s) && Alone(s)
    ensures !StepRevives(s, e)
  {
    if CallOf(s, e).Some? {
      var call := CallOf(s, e).value;
      CallsAreAllowed(s, e);
      assert e.Advance? ==> Live(s.db, s.ops[e.a]);
      forall c ensures !Revives(s, call, c) {
        if Revives(s, call, c) && e.Advance? && IsCapture(s.ops[e.a]) { UncommittedStates(s, e.a, c, call.edit); }
      }
    }
  }

  // A live restore's own calls keep its checkpoint linked.
  lemma OwnCallKeepsLinked(s: Sys, a: AttemptId, call: Call, c: CheckpointId)
    requires c in s.db.checkpoints && s.db.checkpoints[c].lifecycle.IsLinked()
    requires (a in s.ops && OpCall(a, s.ops[a], call) && IsRestore(s.ops[a])) || OutsideCall(call)
    ensures LifecycleAfter(s.db, call, c).IsLinked()
  {
    hide RestoreCommit, CaptureCommit, InsertTx;
  }

  lemma MovesKeepLive(s: Sys, a: AttemptId, op': Op, ans: Answer)
    requires a in s.ops && Live(s.db, s.ops[a]) && Moves(s.ops[a], op', s.db, a, ans)
    ensures Live(s.db, op')
  {
    var op := s.ops[a];
    var act := ActionOf(a, op, ans);
    var reply := if act.Ask? then Exec(s.db, act.call).1 else Done;
    if !op.Capture? { RestoreMoves(op, reply, ans); } else { CaptureMoves(op.cpc, op.cplan, op.seen, reply, ans); }
  }

  lemma LiveStays(db: Db, db': Db, op: Op)
    requires Live(db, op)
    requires CheckpointOf(op) in db.checkpoints && db.checkpoints[CheckpointOf(op)].lifecycle.IsLinked() ==>
               CheckpointOf(op) in db'.checkpoints && db'.checkpoints[CheckpointOf(op)].lifecycle.IsLinked()
    ensures Live(db', op)
  {}

  // The checkpoint the only live operation restores stays linked through any step.
  lemma LinkedStays(s: Sys, e: Event, a: AttemptId, c: CheckpointId)
    requires Inv(s) && Alone(s) && a in s.ops && IsRestore(s.ops[a])
    requires c in s.db.checkpoints && s.db.checkpoints[c].lifecycle.IsLinked()
    ensures c in Step(s, e).db.checkpoints && Step(s, e).db.checkpoints[c].lifecycle.IsLinked()
  {
    StepDb(s, e);
    if CallOf(s, e).Some? {
      var call := CallOf(s, e).value;
      CallsAreAllowed(s, e);
      ExecRows(s.db, call);
      LifecycleAt(s.db, call, c);
      hide Step, CallOf, Exec, RowsAfter, OpCall, OutsideCall, Inv, LifecycleAfter;
      OwnCallKeepsLinked(s, Caller(e), call, c);
    }
  }

  lemma StepKeepsAlone(s: Sys, e: Event)
    requires Inv(s) && Alone(s) && (Begins(e) ==> s.ops == map[])
    ensures Alone(Step(s, e))
  {
    var s' := Step(s, e);
    forall b | b in s'.ops ensures Live(s'.db, s'.ops[b]) && (b in s.ops || (Begins(e) && e.a == b)) {
      OpsMove(s, e, b);
      if b in s.ops {
        StepKeepsLive(s, e, b);
      } else {
        StartedIsLive(s, e, b);
      }
    }
  }

  lemma StartedIsLive(s: Sys, e: Event, b: AttemptId)
    requires b in Step(s, e).ops && b !in s.ops
    ensures Begins(e) && e.a == b && Live(Step(s, e).db, Step(s, e).ops[b])
  {
    OpsMove(s, e, b);
    StepDb(s, e);
    hide Step;
  }

  lemma StepKeepsLive(s: Sys, e: Event, b: AttemptId)
    requires Inv(s) && Alone(s) && b in s.ops && b in Step(s, e).ops && (Begins(e) ==> s.ops == map[])
    ensures Live(Step(s, e).db, Step(s, e).ops[b])
  {
    OpsMove(s, e, b);
    var op, op' := s.ops[b], Step(s, e).ops[b];
    assert Live(s.db, op);
    if e.Advance? && e.a == b { MovesKeepLive(s, b, op', e.ans); }
    if IsRestore(op') {
      var c := CheckpointOf(op');
      if e.Advance? && e.a == b { RestoresStay(s, b, op', e.ans); }
      if c in s.db.checkpoints && s.db.checkpoints[c].lifecycle.IsLinked() { LinkedStays(s, e, b, c); }
      hide Step, Inv;
      LiveStays(s.db, Step(s, e).db, op');
    }
  }

  lemma RestoresStay(s: Sys, a: AttemptId, op': Op, ans: Answer)
    requires a in s.ops && Moves(s.ops[a], op', s.db, a, ans)
    ensures IsRestore(op') <==> IsRestore(s.ops[a])
  {
    var op := s.ops[a];
    var act := ActionOf(a, op, ans);
    var reply := if act.Ask? then Exec(s.db, act.call).1 else Done;
    if !op.Capture? { RestoreMoves(op, reply, ans); } else { CaptureMoves(op.cpc, op.cplan, op.seen, reply, ans); }
    hide Exec, ActionOf, Reading;
  }

  lemma {:induction false} RunKeepsSealed(s: Sys, events: seq<Event>)
    requires Inv(s) && AllSealed(s.db)
    ensures Inv(Run(s, events)) && AllSealed(Run(s, events).db)
    decreases |events|
  {
    RunKeepsInv(s, events);
    if events != [] {
      RunKeepsSealed(s, events[..|events| - 1]);
      StepKeepsSealed(Run(s, events[..|events| - 1]), events[|events| - 1]);
    }
    hide Inv, Step;
  }

  lemma {:induction false} RunKeepsAlone(s: Sys, events: seq<Event>)
    requires Inv(s) && Alone(s) && AllStocked(s.db) && OneAtATime(s, events)
    ensures Alone(Run(s, events)) && AllStocked(Run(s, events).db)
    decreases |events|
  {
    if events != [] {
      var prefix, last := events[..|events| - 1], events[|events| - 1];
      RunKeepsAlone(s, prefix);
      RunKeepsInv(s, prefix);
      hide Inv, Step, StepRevives;
      AloneNeverRevives(Run(s, prefix), last);
      StepBreaksStockOnlyByRevival(Run(s, prefix), last);
      StepKeepsAlone(Run(s, prefix), last);
    }
  }

  // In every run whatever, a committed checkpoint has its capture's marker and its
  // manifest digest; when requests run one at a time it also has a location for as
  // long as it is not retired.  Crashes may come anywhere.
  lemma LinkedCheckpointsAreBacked(events: seq<Event>, c: CheckpointId)
    requires c in Run(EmptySys, events).db.checkpoints
    ensures var db := Run(EmptySys, events).db;
            var row := db.checkpoints[c];
            row.lifecycle.IsLinked() ==>
              && JournalHas(db, DbCommitted, row.attempt)
              && row.digest.Some? && row.digest.value != ""
              && (OneAtATime(EmptySys, events) ==> row.locations != [])
  {
    EmptyInv();
    RunKeepsSealed(EmptySys, events);
    assert Alone(EmptySys);
    if OneAtATime(EmptySys, events) { RunKeepsAlone(EmptySys, events); }
    CommittedExactlyByMarker(events, c);
    hide Run, Inv;
    var row := Run(EmptySys, events).db.checkpoints[c];
    assert Sealed(row) && (OneAtATime(EmptySys, events) ==> Stocked(row));
  }
}
