// What a retirement has to have done before its checkpoint is retired, and what keeps a
// checkpoint from being retired at all (src/coordinator.rs).
module Retirements {
  import opened Wrappers
  import opened Tables
  import opened Operations
  import opened Steps
  import opened Anchors
  import opened Directories
  import opened Evidence
  import Availability
  import Journal
  import Records
  import L = Lifecycle

  ghost predicate Opens(s: Sys, e: Event, a: AttemptId) {
    e.BeginRetire? && e.a == a && FreshAttempt(s, a) && e.c in s.db.checkpoints
  }

  // The row that retirement a read when it began.
  ghost function ReadBy(events: seq<Event>, a: AttemptId): Option<Checkpoint>
    decreases |events|
  {
    if events == [] then None
    else
      var prefix, last := events[..|events| - 1], events[|events| - 1];
      var s := Run(EmptySys, prefix);
      if Opens(s, last, a) then Some(s.db.checkpoints[last.c]) else ReadBy(prefix, a)
  }

  // After the first k locations the rest is left, and those k nodes have deleted theirs.
  ghost predicate Through(ls: seq<Location>, k: nat, rest: seq<Location>, c: CheckpointId,
        deleted: set<(NodeName, CheckpointId)>)
  {
    k <= |ls| && rest == ls[k..] && forall i :: 0 <= i < k ==> (ls[i].node, c) in deleted
  }

  // How far retirement op has come with the row it read.
  ghost predicate Along(op: Op, row: Option<Checkpoint>, deleted: set<(NodeName, CheckpointId)>)
    requires op.Retirement?
  {
    row.Some? && op.protection == row.value.protection
    && (op.tpc != TReserved ==> op.protection == Unprotected)
    && (op.tpc == TRetire ==> op.locations == [])
    && exists k: nat :: Through(row.value.locations, k, op.locations, op.c, deleted)
  }

  ghost predicate Underway(s: Sys, row: Option<Checkpoint>, deleted: set<(NodeName, CheckpointId)>, a: AttemptId) {
    a in s.ops && s.ops[a].Retirement? ==> Along(s.ops[a], row, deleted)
  }

  // ---------------- one step ----------------

  lemma AlongGrows(op: Op, row: Option<Checkpoint>, deleted: set<(NodeName, CheckpointId)>,
        deleted': set<(NodeName, CheckpointId)>)
    requires op.Retirement? && Along(op, row, deleted) && deleted <= deleted'
    ensures Along(op, row, deleted')
  {
    var k: nat :| Through(row.value.locations, k, op.locations, op.c, deleted);
    assert Through(row.value.locations, k, op.locations, op.c, deleted');
  }

  lemma RetireMoves(op: Op, op': Op, db: Db, a: AttemptId, ans: Answer)
    requires op.Retirement? && op'.Retirement? && Moves(op, op', db, a, ans)
    ensures op'.c == op.c && op'.protection == op.protection
    ensures match op.tpc
            case TReserved => op'.tpc == TDelete && op'.locations == op.locations && op.protection == Unprotected
            case TDelete =>
              if op.locations == [] then op'.tpc == TRetire && op'.locations == []
              else
                op'.tpc == TDelete && op'.locations == op.locations[1..] && ans.ok
                && ActionOf(a, op, ans) == Tell(Discard(op.locations[0].node, op.c))
            case TRetire => false
  {
    hide Exec;
  }

  lemma OneMoreDeleted(op: Op, op': Op, row: Option<Checkpoint>, deleted: set<(NodeName, CheckpointId)>,
        deleted': set<(NodeName, CheckpointId)>)
    requires op.Retirement? && op'.Retirement? && Along(op, row, deleted) && deleted <= deleted'
    requires op'.c == op.c && op'.protection == op.protection && op.tpc == TDelete && op'.tpc == TDelete
    requires op.locations != [] && op'.locations == op.locations[1..] && (op.locations[0].node, op.c) in deleted'
    ensures Along(op', row, deleted')
  {
    var ls := row.value.locations;
    var k: nat :| Through(ls, k, op.locations, op.c, deleted);
    assert op.locations[0] == ls[k];
    assert Through(ls, k + 1, op'.locations, op'.c, deleted');
  }

  lemma MoveStaysAlong(s: Sys, a: AttemptId, op': Op, ans: Answer, row: Option<Checkpoint>,
        deleted: set<(NodeName, CheckpointId)>)
    requires a in s.ops && s.ops[a].Retirement? && op'.Retirement? && Moves(s.ops[a], op', s.db, a, ans)
    requires Along(s.ops[a], row, deleted)
    ensures Along(op', row, deleted + ObeyedIn(s, Advance(a, ans)))
  {
    var op := s.ops[a];
    RetireMoves(op, op', s.db, a, ans);
    if op.tpc == TDelete && op.locations != [] {
      ObeyedAt(s, Advance(a, ans), op.locations[0].node, op.c);
      OneMoreDeleted(op, op', row, deleted, deleted + ObeyedIn(s, Advance(a, ans)));
    } else {
      AlongGrows(op, row, deleted, deleted + ObeyedIn(s, Advance(a, ans)));
    }
    hide Moves, ActionOf, ObeyedIn, Through;
  }

  lemma OpenedIsAlong(s: Sys, e: Event, a: AttemptId, deleted: set<(NodeName, CheckpointId)>)
    requires Opens(s, e, a)
    ensures a in Step(s, e).ops && Step(s, e).ops[a].Retirement?
    ensures Along(Step(s, e).ops[a], Some(s.db.checkpoints[e.c]), deleted)
  {
    var ls := s.db.checkpoints[e.c].locations;
    assert Through(ls, 0, ls, e.c, deleted);
  }

  lemma StepStaysUnderway(s: Sys, e: Event, row: Option<Checkpoint>, deleted: set<(NodeName, CheckpointId)>,
        a: AttemptId)
    requires Underway(s, row, deleted, a)
    ensures Underway(Step(s, e), if Opens(s, e, a) then Some(s.db.checkpoints[e.c]) else row,
                     deleted + ObeyedIn(s, e), a)
  {
    var s', deleted' := Step(s, e), deleted + ObeyedIn(s, e);
    if Opens(s, e, a) {
      OpenedIsAlong(s, e, a, deleted');
    } else if a in s'.ops && s'.ops[a].Retirement? {
      OpsMove(s, e, a);
      if e.Advance? && e.a == a {
        RetirementsStay(s.ops[a], s'.ops[a], s.db, a, e.ans);
        MoveStaysAlong(s, a, s'.ops[a], e.ans, row, deleted);
      } else {
        Unopened(s, e, a);
        AlongGrows(s'.ops[a], row, deleted, deleted');
      }
    }
    hide Step, Moves, ObeyedIn, Along, MayCapture, MayRestore, Opens;
  }

  lemma Unopened(s: Sys, e: Event, a: AttemptId)
    requires !Opens(s, e, a) && !(e.Advance? && e.a == a) && a in Step(s, e).ops && Step(s, e).ops[a].Retirement?
    ensures a in s.ops && Step(s, e).ops[a] == s.ops[a]
  {}

  lemma {:induction false} RunStaysUnderway(events: seq<Event>, a: AttemptId)
    ensures Underway(Run(EmptySys, events), ReadBy(events, a), Deleted(events), a)
    decreases |events|
  {
    if events != [] {
      var prefix, last := events[..|events| - 1], events[|events| - 1];
      RunStaysUnderway(prefix, a);
      hide Step, Underway, ObeyedIn, Opens;
      StepStaysUnderway(Run(EmptySys, prefix), last, ReadBy(prefix, a), Deleted(prefix), a);
    }
  }

  // ---------------- what retires a checkpoint ----------------

  ghost predicate Retires(s: Sys, e: Event, c: CheckpointId) {
    c in s.db.checkpoints && s.db.checkpoints[c].lifecycle != L.Retired
    && c in Step(s, e).db.checkpoints && Step(s, e).db.checkpoints[c].lifecycle == L.Retired
  }

  lemma OthersDoNotRetire(s: Sys, a: AttemptId, call: Call)
    requires (a in s.ops && OpCall(a, s.ops[a], call)) || OutsideCall(call)
    ensures call.EditRow? && call.edit.SetLifecycle? ==> call.edit.target != L.Retired
    ensures call.EditRow? && call.edit.Overwrite? ==> call.edit.row.lifecycle != L.Retired
  {}

  lemma EditsThatRetire(row: Checkpoint, e: RowEdit)
    requires Edit(row, e).Ok? && row.lifecycle != L.Retired && Edit(row, e).value.lifecycle == L.Retired
    requires e.SetLifecycle? ==> e.target != L.Retired
    requires e.Overwrite? ==> e.row.lifecycle != L.Retired
    ensures e.Retire? && row.lifecycle == L.Available && row.protection != Pinned
    ensures Edit(row, e).value.locations == [] && Edit(row, e).value.replicaCount == 0
  {}

  lemma OnlyRetireRetires(s: Sys, e: Event, c: CheckpointId)
    requires Inv(s) && Retires(s, e, c)
    ensures e.Advance? && e.a in s.ops && s.ops[e.a].Retirement? && s.ops[e.a].tpc == TRetire && s.ops[e.a].c == c
    ensures s.db.checkpoints[c].lifecycle == L.Available && s.db.checkpoints[c].protection != Pinned
    ensures Step(s, e).db.checkpoints[c].locations == [] && Step(s, e).db.checkpoints[c].replicaCount == 0
  {
    assert Journal.Inv(s);
    hide Step, Inv, Exec, CallOf, Journal.Inv, OpCall, OutsideCall, RowsAfter, Edit, CaptureCommit, RestoreCommit;
    StepDb(s, e);
    var call := CallOf(s, e).value;
    CallsAreAllowed(s, e);
    ExecRows(s.db, call);
    LifecycleAt(s.db, call, c);
    Availability.RowAt(s.db, call, c);
    OthersDoNotRetire(s, Caller(e), call);
    RetireCall(s, e);
    if call.EditRow? && call.c == c && EditTx(s.db.checkpoints, c, call.edit).Ok? {
      EditsThatRetire(s.db.checkpoints[c], call.edit);
    }
  }

  lemma RetireCall(s: Sys, e: Event)
    requires CallOf(s, e).Some?
    ensures var call := CallOf(s, e).value;
            call.EditRow? && call.edit.Retire? ==>
              e.Advance? && e.a in s.ops && s.ops[e.a].Retirement? && s.ops[e.a].tpc == TRetire
              && s.ops[e.a].c == call.c
  {
    hide Scaffold, PersistedRow;
  }

  // In every run a checkpoint is retired only by a retirement that found it unreserved
  // and unprotected when it asked, after every node its row then named has obeyed the
  // order to delete its directory; and only if it is AVAILABLE and not pinned by now.
  // The row then names no location, those recorded in the meantime included.
  lemma RetiredAfterDeletions(events: seq<Event>, e: Event, c: CheckpointId)
    requires Retires(Run(EmptySys, events), e, c)
    ensures var s := Run(EmptySys, events);
            && e.Advance? && Answered(events, e.a, ToRetire)
            && s.db.checkpoints[c].lifecycle == L.Available && s.db.checkpoints[c].protection != Pinned
            && Step(s, e).db.checkpoints[c].locations == []
            && ReadBy(events, e.a).Some? && ReadBy(events, e.a).value.protection == Unprotected
            && forall l :: l in ReadBy(events, e.a).value.locations ==> (l.node, c) in Deleted(events)
  {
    hide Run, Step, Inv, Deleted, Answered, ReadBy, Retires, Along;
    EmptyInv();
    RunKeepsInv(EmptySys, events);
    var s := Run(EmptySys, events);
    OnlyRetireRetires(s, e, c);
    RunStaysUnderway(events, e.a);
    RunVouches(events, e.a, ToRetire);
    AllDeleted(s.ops[e.a], ReadBy(events, e.a), Deleted(events));
  }

  lemma AllDeleted(op: Op, row: Option<Checkpoint>, deleted: set<(NodeName, CheckpointId)>)
    requires op.Retirement? && op.tpc == TRetire && Along(op, row, deleted)
    ensures row.Some? && row.value.protection == Unprotected
    ensures forall l :: l in row.value.locations ==> (l.node, op.c) in deleted
  {
    var ls := row.value.locations;
    var k: nat :| Through(ls, k, [], op.c, deleted);
    assert |ls[k..]| == 0;
    forall l | l in ls ensures (l.node, op.c) in deleted { var i :| 0 <= i < |ls| && ls[i] == l; }
  }

  // And a retirement orders deletions only after it has found that.
  lemma DeletionsAreAllowed(events: seq<Event>, e: Event, node: NodeName, c: CheckpointId)
    requires var s := Run(EmptySys, events);
             Obeyed(s, e, node, c) && s.ops[e.a].Retirement?
    ensures Answered(events, e.a, ToRetire)
    ensures ReadBy(events, e.a).Some? && ReadBy(events, e.a).value.protection == Unprotected
    ensures exists l <- ReadBy(events, e.a).value.locations :: l.node == node
  {
    var s := Run(EmptySys, events);
    hide Run, Deleted, Answered, ReadBy, Along, Step;
    RunStaysUnderway(events, e.a);
    RunVouches(events, e.a, ToRetire);
    NextIsNamed(s.ops[e.a], ReadBy(events, e.a), Deleted(events), node);
  }

  lemma NextIsNamed(op: Op, row: Option<Checkpoint>, deleted: set<(NodeName, CheckpointId)>, node: NodeName)
    requires op.Retirement? && op.tpc == TDelete && Along(op, row, deleted)
    requires op.locations != [] && op.locations[0].node == node
    ensures row.Some? && row.value.protection == Unprotected
    ensures exists l <- row.value.locations :: l.node == node
  {
    var k: nat :| Through(row.value.locations, k, op.locations, op.c, deleted);
    assert op.locations[0] == row.value.locations[k];
  }

  // ---------------- protection ----------------

  lemma ProtectionAt(db: Db, call: Call, c: CheckpointId)
    requires c in db.checkpoints && !(call.EditRow? && call.c == c && call.edit.Overwrite?)
    ensures c in RowsAfter(db, call)
    ensures RowsAfter(db, call)[c].protection ==
            if call.EditRow? && call.c == c && call.edit.SetProtection? then call.edit.protection
            else db.checkpoints[c].protection
  {
    hide RowsAfter, CaptureCommit;
    LifecycleAt(db, call, c);
    Availability.RowAt(db, call, c);
  }

  lemma ProtectCall(s: Sys, e: Event)
    requires CallOf(s, e).Some?
    ensures var call := CallOf(s, e).value;
            (call.EditRow? && call.edit.SetProtection? ==> e == Protect(call.c, call.edit.protection))
            && (e.Protect? ==> call == EditRow(e.c, SetProtection(e.protection)))
  {
    hide Scaffold, PersistedRow;
  }

  // A capture that overwrites its own row with what it has sealed and promoted.
  ghost predicate Overwrites(s: Sys, e: Event, c: CheckpointId) {
    CallOf(s, e).Some? && CallOf(s, e).value.EditRow? && CallOf(s, e).value.c == c && CallOf(s, e).value.edit.Overwrite?
    && EditTx(s.db.checkpoints, c, CallOf(s, e).value.edit).Ok?
  }

  lemma OverwritesProtect(s: Sys, e: Event, c: CheckpointId)
    requires Inv(s) && Overwrites(s, e, c) && c in s.db.checkpoints
    ensures e.Advance? && e.a in s.ops && s.ops[e.a].Capture? && s.ops[e.a].cpc == CUpdate
    ensures c in Step(s, e).db.checkpoints
    ensures Step(s, e).db.checkpoints[c].protection == s.ops[e.a].cplan.protection && !HasCommit(s.db, c)
  {
    assert Journal.Inv(s);
    StepDb(s, e);
    CallsAreAllowed(s, e);
    ExecRows(s.db, CallOf(s, e).value);
    Records.OverwritesAreUncommitted(s, Caller(e), CallOf(s, e).value);
    hide Step, Inv, Exec, CallOf, Journal.Inv;
  }

  // What a step makes of the protection of a checkpoint.
  ghost function ProtectionAfter(s: Sys, e: Event, c: CheckpointId): Protection
    requires c in s.db.checkpoints
  {
    if e.Protect? && e.c == c then e.protection
    else if Overwrites(s, e, c) && e.Advance? && e.a in s.ops && s.ops[e.a].Capture? then s.ops[e.a].cplan.protection
    else s.db.checkpoints[c].protection
  }

  lemma ProtectionMoves(s: Sys, e: Event, c: CheckpointId)
    requires Inv(s) && c in s.db.checkpoints
    ensures c in Step(s, e).db.checkpoints && Step(s, e).db.checkpoints[c].protection == ProtectionAfter(s, e, c)
    ensures HasCommit(s.db, c) ==> HasCommit(Step(s, e).db, c) && !Overwrites(s, e, c)
  {
    assert Journal.Inv(s);
    hide Step, Inv, Exec, Journal.Inv, RowsAfter, HasCommit, EditTx, CallOf, Overwrites;
    StepAdvances(s, e);
    StaysCommitted(s, e, c);
    WhatOverwrites(s, e, c);
    if Overwrites(s, e, c) {
      OverwritesProtect(s, e, c);
    } else {
      StepDb(s, e);
      if CallOf(s, e).Some? { ProtectionByCall(s, e, CallOf(s, e).value, c); }
    }
  }

  lemma ProtectionByCall(s: Sys, e: Event, call: Call, c: CheckpointId)
    requires c in s.db.checkpoints && CallOf(s, e) == Some(call) && !Overwrites(s, e, c)
    ensures c in Exec(s.db, call).0.checkpoints
    ensures Exec(s.db, call).0.checkpoints[c].protection == ProtectionAfter(s, e, c)
  {
    hide Exec, RowsAfter, EditTx, CallOf, Overwrites;
    WhatOverwrites(s, e, c);
    ExecRows(s.db, call);
    ProtectCall(s, e);
    if call.EditRow? && call.c == c && call.edit.Overwrite? { RefusedEditsChangeNothing(s.db, call); }
    else { ProtectionAt(s.db, call, c); }
  }

  lemma StaysCommitted(s: Sys, e: Event, c: CheckpointId)
    requires Advances(s.db, Step(s, e).db)
    ensures HasCommit(s.db, c) ==> HasCommit(Step(s, e).db, c)
  {
    hide Step;
  }

  lemma WhatOverwrites(s: Sys, e: Event, c: CheckpointId)
    ensures Overwrites(s, e, c) <==>
              CallOf(s, e).Some? && CallOf(s, e).value.EditRow? && CallOf(s, e).value.c == c
              && CallOf(s, e).value.edit.Overwrite? && EditTx(s.db.checkpoints, c, CallOf(s, e).value.edit).Ok?
  {
    hide CallOf, EditTx;
  }

  lemma RefusedEditsChangeNothing(db: Db, call: Call)
    requires call.EditRow?
    ensures EditTx(db.checkpoints, call.c, call.edit).Err? ==> RowsAfter(db, call) == db.checkpoints
  {}

  // A committed checkpoint keeps the protection it was last given, and while it is
  // pinned no retirement, begun before or after, retires it.
  lemma {:induction false} ProtectionIsKept(events: seq<Event>, c: CheckpointId, after: seq<Event>)
    requires HasCommit(Run(EmptySys, events).db, c) && forall e :: e in after ==> !(e.Protect? && e.c == c)
    ensures var row, db' := Run(EmptySys, events).db.checkpoints[c], Run(Run(EmptySys, events), after).db;
            && HasCommit(db', c) && db'.checkpoints[c].protection == row.protection
            && (row.protection == Pinned && row.lifecycle != L.Retired ==> db'.checkpoints[c].lifecycle != L.Retired)
    decreases |after|
  {
    if after != [] {
      var s := Run(EmptySys, events);
      var prefix, last := after[..|after| - 1], after[|after| - 1];
      ProtectionIsKept(events, c, prefix);
      EmptyInv();
      RunKeepsInv(EmptySys, events);
      RunKeepsInv(s, prefix);
      var t := Run(s, prefix);
      hide Step, Inv;
      hide Overwrites;
      ProtectionMoves(t, last, c);
      if Retires(t, last, c) { OnlyRetireRetires(t, last, c); }
    }
  }
}
