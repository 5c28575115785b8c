// Which locations a checkpoint row names: what records one, and what takes one away.
module Replicas {
  import opened Wrappers
  import opened Tables
  import opened Operations
  import opened Steps
  import opened Anchors
  import Availability
  import Journal
  import L = Lifecycle

  // A capture that replicates, or a restore that fetches, reports that l holds a replica
  // of c, and the store call that records it does not fail.
  ghost predicate Reports(s: Sys, e: Event, c: CheckpointId, l: Location) {
    e.Advance? && !e.ans.fault && e.ans.replica == Some(l) && e.a in s.ops && CheckpointOf(s.ops[e.a]) == c
    && ((s.ops[e.a].Capture? && s.ops[e.a].cpc == CReplicate) || (s.ops[e.a].Restore? && s.ops[e.a].rpc == RProbe))
  }

  // A capture that rewrites its own row before its commit.
  ghost predicate Rewrites(s: Sys, e: Event, c: CheckpointId) {
    e.Advance? && e.a in s.ops && s.ops[e.a].Capture? && s.ops[e.a].cpc == CUpdate && CheckpointOf(s.ops[e.a]) == c
  }

  // A retirement at its last call.
  ghost predicate Retires(s: Sys, e: Event, c: CheckpointId) {
    e.Advance? && e.a in s.ops && s.ops[e.a].Retirement? && s.ops[e.a].tpc == TRetire && s.ops[e.a].c == c
  }

  lemma ReportCall(s: Sys, e: Event, c: CheckpointId, l: Location)
    requires Journal.Inv(s)
    ensures Reports(s, e, c, l) <==> CallOf(s, e) == Some(EditRow(c, AddLocation(l)))
  {
    if e.Advance? && e.a in s.ops { VerdictsAreReady(s, e.a); ReportAction(e.a, s.ops[e.a], e.ans, c, l); }
    hide ActionOf, Journal.Inv;
  }

  lemma ReportAction(a: AttemptId, op: Op, ans: Answer, c: CheckpointId, l: Location)
    ensures ActionOf(a, op, ans) == Ask(EditRow(c, AddLocation(l))) <==>
              ans.replica == Some(l) && CheckpointOf(op) == c
              && ((op.Capture? && op.cpc == CReplicate) || (op.Restore? && op.rpc == RProbe))
  {
    hide Scaffold, PersistedRow;
  }

  // The other calls that write locations.
  lemma LocationCalls(s: Sys, e: Event, call: Call)
    requires Journal.Inv(s) && CallOf(s, e) == Some(call) && call.EditRow?
    ensures call.edit.Overwrite? ==> Rewrites(s, e, call.c) && call.edit.row == PersistedRow(s.ops[e.a].cplan, e.a)
    ensures call.edit.Retire? ==> Retires(s, e, call.c)
    ensures call.edit.Rebind? ==> e == RebindReplica(call.c, call.edit.node, call.edit.path)
  {
    CallsAreAllowed(s, e);
    if e.Advance? && e.a in s.ops { LocationActions(e.a, s.ops[e.a], e.ans, call); }
    hide ActionOf, Journal.Inv, PersistedRow;
  }

  lemma LocationActions(a: AttemptId, op: Op, ans: Answer, call: Call)
    requires ActionOf(a, op, ans) == Ask(call) && call.EditRow?
    ensures call.c == CheckpointOf(op) && !call.edit.Rebind?
    ensures call.edit.Overwrite? ==> op.Capture? && op.cpc == CUpdate && call.edit.row == PersistedRow(op.cplan, a)
    ensures call.edit.Retire? ==> op.Retirement? && op.tpc == TRetire
  {
    hide Scaffold, PersistedRow;
  }

  ghost predicate Names(db: Db, c: CheckpointId, node: NodeName) {
    c in db.checkpoints && exists l <- db.checkpoints[c].locations :: l.node == node
  }

  // In every run: a reported replica is recorded.  Its node is named afterwards, every
  // location already there stays where it was, and a node not named before gets exactly
  // the location reported.
  lemma ReportedReplicasAreRecorded(events: seq<Event>, e: Event, c: CheckpointId, l: Location)
    requires Reports(Run(EmptySys, events), e, c, l) && c in Run(EmptySys, events).db.checkpoints
    ensures var s := Run(EmptySys, events);
            && Names(Step(s, e).db, c, l.node)
            && s.db.checkpoints[c].locations <= Step(s, e).db.checkpoints[c].locations
            && (!Names(s.db, c, l.node) ==>
                  Step(s, e).db.checkpoints[c].locations == s.db.checkpoints[c].locations + [l])
            && Step(s, e).db.checkpoints[c].replicaCount == |Step(s, e).db.checkpoints[c].locations|
  {
    hide Run, Inv, Step, CallOf, Exec, Reports;
    EmptyInv();
    RunKeepsInv(EmptySys, events);
    var s := Run(EmptySys, events);
    assert Journal.Inv(s) by { Sound(s); }
    ReportCall(s, e, c, l);
    StepDb(s, e);
    ExecRows(s.db, EditRow(c, AddLocation(l)));
    Recorded(s.db.checkpoints[c].locations, l);
  }

  lemma Sound(s: Sys)
    requires Inv(s)
    ensures Journal.Inv(s)
  {}

  lemma Recorded(ls: seq<Location>, l: Location)
    ensures exists k <- Adding(ls, l) :: k.node == l.node
    ensures ls <= Adding(ls, l)
  {
    if !HasNode(ls, l.node) { assert (ls + [l])[|ls|] == l; }
  }

  // A location goes away only when it is rebound to another path or node, when its
  // checkpoint is retired, or when a capture rewrites its row before its commit.
  lemma RecordedReplicasStay(events: seq<Event>, e: Event, c: CheckpointId, l: Location)
    requires var db := Run(EmptySys, events).db; c in db.checkpoints && l in db.checkpoints[c].locations
    ensures var s := Run(EmptySys, events);
            c in Step(s, e).db.checkpoints
            && (l !in Step(s, e).db.checkpoints[c].locations ==>
                  || (e.RebindReplica? && e.c == c && (e.node == l.node || e.path == l.path))
                  || (Retires(s, e, c) && Step(s, e).db.checkpoints[c].lifecycle == L.Retired)
                  || (Rewrites(s, e, c) && !HasCommit(s.db, c)))
  {
    EmptyInv();
    RunKeepsInv(EmptySys, events);
    var s := Run(EmptySys, events);
    hide Run, Inv, Step, CallOf, Exec, RowsAfter, Rewrites, Retires, Edit, HasCommit;
    StepDb(s, e);
    if CallOf(s, e).Some? {
      var call := CallOf(s, e).value;
      ExecRows(s.db, call);
      LifecycleAt(s.db, call, c);
      Availability.RowAt(s.db, call, c);
      if call.EditRow? && call.c == c && EditTx(s.db.checkpoints, c, call.edit).Ok? {
        EditDrops(s, e, call, l);
      }
    }
  }

  lemma EditDrops(s: Sys, e: Event, call: Call, l: Location)
    requires Inv(s) && CallOf(s, e) == Some(call) && call.EditRow? && call.c in s.db.checkpoints
    requires EditTx(s.db.checkpoints, call.c, call.edit).Ok? && l in s.db.checkpoints[call.c].locations
    ensures Edit(s.db.checkpoints[call.c], call.edit).Ok?
    ensures var row := Edit(s.db.checkpoints[call.c], call.edit).value;
            l !in row.locations ==>
              || (e.RebindReplica? && e.c == call.c && (e.node == l.node || e.path == l.path))
              || (Retires(s, e, call.c) && row.lifecycle == L.Retired)
              || (Rewrites(s, e, call.c) && !HasCommit(s.db, call.c))
  {
    assert Journal.Inv(s);
    hide Inv, CallOf, Rewrites, Retires, Edit, HasCommit;
    LocationCalls(s, e, call);
    if call.edit.Overwrite? { RewritersAreUncommitted(s, e, call.c); }
    else { EditsKeepLocations(s.db.checkpoints[call.c], call.edit, l); }
  }

  lemma RewritersAreUncommitted(s: Sys, e: Event, c: CheckpointId)
    requires Inv(s) && Rewrites(s, e, c) && c in s.db.checkpoints
    ensures !HasCommit(s.db, c)
  {
    assert Journal.At(s, e.a);
    assert DbCommitted !in Journal.MarksOf(s.db, e.a);
    OwnersHold(s, e.a, c);
    hide Inv;
  }

  lemma EditsKeepLocations(row: Checkpoint, e: RowEdit, l: Location)
    requires Edit(row, e).Ok? && l in row.locations && !e.Overwrite?
    ensures l !in Edit(row, e).value.locations ==>
              (e.Retire? && Edit(row, e).value.lifecycle == L.Retired)
              || (e.Rebind? && (e.node == l.node || e.path == l.path))
  {
    if e.Rebind? && l.node != e.node && l.path != e.path { WithoutKeeps(row.locations, e.node, e.path, l); }
  }

  lemma {:induction false} WithoutKeeps(ls: seq<Location>, node: NodeName, path: Path, l: Location)
    requires l in ls && l.node != node && l.path != path
    ensures l in Without(ls, node, path)
  {
    if ls[0] != l { WithoutKeeps(ls[1..], node, path, l); }
  }

  // A capture that has recorded a replica goes on replicating; a restore goes on once.
  lemma ReportsGoOn(s: Sys, e: Event, c: CheckpointId, l: Location)
    requires Reports(s, e, c, l) && c in s.db.checkpoints
    ensures e.a in Step(s, e).ops
    ensures s.ops[e.a].Capture? && s.ops[e.a].seen.None? ==> Step(s, e).ops[e.a] == s.ops[e.a]
    ensures s.ops[e.a].Restore? ==> Step(s, e).ops[e.a].Restore? && Step(s, e).ops[e.a].rpc == RRestoring
  {}
}
