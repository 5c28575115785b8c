// The lineage table and the restore counters against the recovery journal, over every
// run: what has been superseded, rolled back, migrated, forked and restored.
module Lineage {
  import opened Wrappers
  import opened Tables
  import opened Operations
  import opened Steps
  import opened RowInvariants
  import opened Anchors
  import opened Conservation
  import opened Records
  import Chain
  import L = Lifecycle
  import Journal

  // ---------------- rows of a kind ----------------

  // None stands for any workload or checkpoint.
  predicate Concerns(r: LineageRow, relation: Relation, w: Option<WorkloadId>, c: Option<CheckpointId>) {
    r.relation == relation && (w.Some? ==> r.workload == w.value) && (c.Some? ==> r.checkpoint == c)
  }

  function Select(lineage: seq<LineageRow>, relation: Relation, w: Option<WorkloadId>, c: Option<CheckpointId>)
    : seq<LineageRow>
    decreases |lineage|
  {
    if lineage == [] then []
    else
      var prefix, r := lineage[..|lineage| - 1], lineage[|lineage| - 1];
      Select(prefix, relation, w, c) + if Concerns(r, relation, w, c) then [r] else []
  }

  lemma {:induction false} SelectAppends(lineage: seq<LineageRow>, more: seq<LineageRow>, relation: Relation,
        w: Option<WorkloadId>, c: Option<CheckpointId>)
    ensures Select(lineage + more, relation, w, c) == Select(lineage, relation, w, c) + Select(more, relation, w, c)
    decreases |more|
  {
    if more == [] {
      assert lineage + more == lineage;
    } else {
      var prefix := more[..|more| - 1];
      SelectAppends(lineage, prefix, relation, w, c);
      assert (lineage + more)[..|lineage + more| - 1] == lineage + prefix;
    }
  }

  lemma {:induction false} SelectFinds(lineage: seq<LineageRow>, relation: Relation, w: Option<WorkloadId>,
        c: Option<CheckpointId>, r: LineageRow)
    requires r in lineage && Concerns(r, relation, w, c)
    ensures r in Select(lineage, relation, w, c)
    decreases |lineage|
  {
    if r != lineage[|lineage| - 1] { SelectFinds(lineage[..|lineage| - 1], relation, w, c, r); }
  }

  lemma {:induction false} SelectNone(lineage: seq<LineageRow>, relation: Relation, w: Option<WorkloadId>,
        c: Option<CheckpointId>)
    requires forall r :: r in lineage ==> !Concerns(r, relation, w, c)
    ensures Select(lineage, relation, w, c) == []
    decreases |lineage|
  {
    if lineage != [] { SelectNone(lineage[..|lineage| - 1], relation, w, c); }
  }

  lemma SelectOne(r: LineageRow, relation: Relation, w: Option<WorkloadId>, c: Option<CheckpointId>)
    ensures Select([r], relation, w, c) == if Concerns(r, relation, w, c) then [r] else []
  {
    assert [r][..0] == [];
  }

  // A row names what its relation relates.
  predicate Shaped(r: LineageRow) {
    match r.relation
    case Supersedes => r.checkpoint.Some? && r.otherWorkload.None? && r.otherCheckpoint.Some?
    case ForkedFrom => r.checkpoint.None? && r.otherWorkload.Some? && r.otherCheckpoint.Some?
    case _ => r.checkpoint.Some? && r.otherWorkload.None? && r.otherCheckpoint.None?
  }

  // ---------------- what a call adds ----------------

  predicate ForkGoes(db: Db, call: Call) {
    call.ForkRow? && call.w !in db.workloads
  }

  ghost predicate RestoreGoes(db: Db, call: Call) {
    call.CommitRestore? && call.c in db.checkpoints && Commits(db, call, db.checkpoints[call.c].workload)
  }

  ghost predicate CaptureGoes(db: Db, call: Call) {
    call.CommitCapture? && CaptureCommit(db, call.c, call.a).Ok?
  }

  // The rows a call adds.
  ghost function Added(db: Db, call: Call): seq<LineageRow> {
    if CaptureGoes(db, call) then
      var row := db.checkpoints[call.c];
      var below := NearestBelow(db.checkpoints, L.VISIBLE, row.workload, row.generation);
      if below.Some? && !HasSupersedes(db.lineage, call.c, below.value)
        then [SupersedesRow(row.workload, call.c, below.value)] else []
    else if RestoreGoes(db, call) then
      var w := db.checkpoints[call.c].workload;
      (if call.rollback then [LineageRow(RollbackOf, w, Some(call.c), None, None)] else [])
      + if call.migration then [LineageRow(MigratedFrom, w, Some(call.c), None, None)] else []
    else if ForkGoes(db, call) then [LineageRow(ForkedFrom, call.w, None, Some(call.parentId), Some(call.c))]
    else []
  }

  lemma LineageAfter(db: Db, call: Call)
    ensures Exec(db, call).0.lineage == db.lineage + Added(db, call)
  {
    match call
    case CommitCapture(c, a) => hide CommitRows, HasSupersedes;
    case CommitRestore(c, a, node, token, migration, rollback) => hide CaptureCommit, RestoredRows;
    case _ => hide CaptureCommit, RestoreCommit;
  }

  lemma LineageMoves(s: Sys, e: Event)
    ensures Step(s, e).db.lineage ==
            s.db.lineage + if CallOf(s, e).Some? then Added(s.db, CallOf(s, e).value) else []
  {
    StepDb(s, e);
    hide Step, CallOf, Exec, Added;
    if CallOf(s, e).Some? { LineageAfter(s.db, CallOf(s, e).value); }
  }

  lemma AddedAreShaped(db: Db, call: Call)
    ensures forall r :: r in Added(db, call) ==> Shaped(r)
  {
    hide CaptureGoes, RestoreGoes;
  }

  // ---------------- supersession ----------------

  // The rows saying what c superseded.
  ghost function Supersessions(db: Db, c: CheckpointId): seq<LineageRow> {
    Select(db.lineage, Supersedes, None, Some(c))
  }

  ghost predicate Unlogged(db: Db, c: CheckpointId) {
    !HasCommit(db, c) ==> Supersessions(db, c) == []
  }


  // Nothing but the commit of c adds to what c superseded.
  lemma OthersSupersedeElse(db: Db, call: Call, c: CheckpointId)
    requires !(CaptureGoes(db, call) && call.c == c)
    ensures Select(Added(db, call), Supersedes, None, Some(c)) == []
  {
    hide CaptureGoes, RestoreGoes, HasSupersedes;
    SelectNone(Added(db, call), Supersedes, None, Some(c));
  }

  // The commit of a checkpoint that has no row yet adds the one to its predecessor.
  lemma CommitSupersedes(db: Db, call: Call)
    requires CaptureGoes(db, call) && call.c in db.checkpoints && Supersessions(db, call.c) == []
    ensures Select(Added(db, call), Supersedes, None, Some(call.c)) == Added(db, call)
    ensures var row := CommitRows(db.checkpoints, call.c)[call.c];
            Added(db, call) ==
            if row.supersedes.Some? then [SupersedesRow(row.workload, call.c, row.supersedes.value)] else []
  {
    Chain.CommitSplices(db.checkpoints, call.c);
    var row := db.checkpoints[call.c];
    var below := NearestBelow(db.checkpoints, L.VISIBLE, row.workload, row.generation);
    if below.Some? {
      if HasSupersedes(db.lineage, call.c, below.value) {
        var r :| r in db.lineage && r.relation == Supersedes && r.checkpoint == Some(call.c);
        SelectFinds(db.lineage, Supersedes, None, Some(call.c), r);
      }
      SelectOne(SupersedesRow(row.workload, call.c, below.value), Supersedes, None, Some(call.c));
    }
    hide CaptureGoes, CommitRows;
  }

  // What a step makes of the rows saying what c superseded: its commit writes the row to
  // the predecessor it is linked to, if it has one, and no other step adds any.
  lemma SupersessionMoves(s: Sys, e: Event, c: CheckpointId)
    requires Inv(s) && Unlogged(s.db, c)
    ensures Publishes(s, e, c) ==>
              c in Step(s, e).db.checkpoints
              && var row := Step(s, e).db.checkpoints[c];
                 Supersessions(Step(s, e).db, c) ==
                 if row.supersedes.Some? then [SupersedesRow(row.workload, c, row.supersedes.value)] else []
    ensures !Publishes(s, e, c) ==> Supersessions(Step(s, e).db, c) == Supersessions(s.db, c)
  {
    hide Step, Inv, CallOf, Exec, Added, Publishes, Select, CaptureCommit, CommitRows, HasCommit;
    StepDb(s, e);
    LineageMoves(s, e);
    PublishedByCommit(s, e, c);
    assert s.db.lineage + [] == s.db.lineage;
    if CallOf(s, e).Some? {
      var call := CallOf(s, e).value;
      ExecRows(s.db, call);
      SelectAppends(s.db.lineage, Added(s.db, call), Supersedes, None, Some(c));
      if Publishes(s, e, c) {
        PublishedIsNew(s, e, c);
        CommitSupersedes(s.db, call);
        Chain.CommitSplices(s.db.checkpoints, c);
      } else {
        OthersSupersedeElse(s.db, call, c);
      }
    }
  }

  lemma PublishedIsNew(s: Sys, e: Event, c: CheckpointId)
    requires Publishes(s, e, c)
    ensures c in s.db.checkpoints && !HasCommit(s.db, c)
  {}

  lemma StepKeepsUnlogged(s: Sys, e: Event, c: CheckpointId)
    requires Inv(s) && Unlogged(s.db, c)
    ensures Unlogged(Step(s, e).db, c)
  {
    StepAdvances(s, e);
    SupersessionMoves(s, e, c);
    hide Step, Inv, Supersessions;
  }

  lemma {:induction false} RunKeepsUnlogged(events: seq<Event>, c: CheckpointId)
    ensures Inv(Run(EmptySys, events)) && Unlogged(Run(EmptySys, events).db, c)
    decreases |events|
  {
    EmptyInv();
    RunKeepsInv(EmptySys, events);
    if events != [] {
      RunKeepsUnlogged(events[..|events| - 1], c);
      hide Inv, Step, Unlogged;
      StepKeepsUnlogged(Run(EmptySys, events[..|events| - 1]), events[|events| - 1], c);
    }
  }

  // In every run, a checkpoint has no Supersedes row before its commit; the commit
  // leaves exactly one, to the checkpoint its row supersedes, or none if it supersedes
  // none; and no step adds or removes one afterwards.
  lemma SupersessionsAreLogged(events: seq<Event>, e: Event, c: CheckpointId)
    ensures var s := Run(EmptySys, events);
            && (!HasCommit(s.db, c) ==> Supersessions(s.db, c) == [])
            && (Publishes(s, e, c) ==>
                  c in Step(s, e).db.checkpoints
                  && var row := Step(s, e).db.checkpoints[c];
                     Supersessions(Step(s, e).db, c) ==
                     if row.supersedes.Some? then [SupersedesRow(row.workload, c, row.supersedes.value)] else [])
            && (!Publishes(s, e, c) ==> Supersessions(Step(s, e).db, c) == Supersessions(s.db, c))
  {
    RunKeepsUnlogged(events, c);
    hide Run, Step, Inv, Supersessions, Publishes;
    SupersessionMoves(Run(EmptySys, events), e, c);
  }

  // ---------------- restores ----------------

  // The attempts with journal entry m, of a workload, of a checkpoint, rollbacks only.
  predicate Chosen(attempt: Attempt, w: Option<WorkloadId>, c: Option<CheckpointId>, rollbacks: bool) {
    (w.Some? ==> attempt.workload == w.value) && (c.Some? ==> attempt.checkpoint == c.value)
    && (rollbacks ==> attempt.kind == RollbackKind)
  }

  ghost function Entered(db: Db, m: Marker, w: Option<WorkloadId>, c: Option<CheckpointId>, rollbacks: bool)
    : set<AttemptId>
  {
    set a | a in db.attempts && JournalHas(db, m, a) && Chosen(db.attempts[a], w, c, rollbacks)
  }

  // A restore commit that adds entry m of a chosen attempt.
  ghost predicate Enters(db: Db, call: Call, m: Marker, w: Option<WorkloadId>, c: Option<CheckpointId>,
        rollbacks: bool)
  {
    RestoreGoes(db, call) && (m == GenerationCommitted || call.migration)
    && (w.Some? ==> db.checkpoints[call.c].workload == w.value) && (c.Some? ==> call.c == c.value)
    && (rollbacks ==> call.rollback)
  }

  lemma EntersIsChosen(s: Sys, e: Event, call: Call, m: Marker, w: Option<WorkloadId>, c: Option<CheckpointId>,
        rollbacks: bool)
    requires Inv(s) && CallOf(s, e) == Some(call) && RestoreGoes(s.db, call)
    requires m == GenerationCommitted || call.migration
    ensures call.a in s.db.attempts
    ensures Enters(s.db, call, m, w, c, rollbacks) <==> Chosen(s.db.attempts[call.a], w, c, rollbacks)
  {
    CommitterRow(s, e, call);
    hide Inv, CallOf, Commits;
  }

  lemma SameChoice(attempt: Attempt, state: AttemptState, w: Option<WorkloadId>, c: Option<CheckpointId>,
        rollbacks: bool)
    ensures Chosen(attempt.(state := state), w, c, rollbacks) <==> Chosen(attempt, w, c, rollbacks)
  {}

  lemma GoesIsOk(db: Db, call: Call)
    ensures RestoreGoes(db, call) <==>
              call.CommitRestore?
              && RestoreCommit(db, call.c, call.a, call.node, call.token, call.migration, call.rollback).Ok?
  {
    hide RestoredRows;
  }

  lemma EnteredAt(s: Sys, e: Event, m: Marker, w: Option<WorkloadId>, c: Option<CheckpointId>, rollbacks: bool,
        a: AttemptId)
    requires Inv(s) && (m == GenerationCommitted || m == AuthorityTransferred) && CallOf(s, e).Some?
    ensures var call := CallOf(s, e).value;
            a in Entered(Step(s, e).db, m, w, c, rollbacks) <==>
              a in Entered(s.db, m, w, c, rollbacks) || (Enters(s.db, call, m, w, c, rollbacks) && a == call.a)
  {
    var call := CallOf(s, e).value;
    assert Journal.Inv(s);
    hide Step, CallOf, Inv, Commits, RestoreCommit, Journal.Inv, RestoreGoes, Chosen;
    AttemptsGrow(s, e, a);
    RestoreMarksAppear(s, e, m, a);
    GoesIsOk(s.db, call);
    if RestoreGoes(s.db, call) && (m == GenerationCommitted || call.migration) {
      EntersIsChosen(s, e, call, m, w, c, rollbacks);
    }
    if a in s.db.attempts { SameChoice(s.db.attempts[a], Step(s, e).db.attempts[a].state, w, c, rollbacks); }
    if a !in s.db.attempts { NewAttemptsAreUnmarked(s, a, m); }
  }

  lemma EntersOnce(s: Sys, e: Event, m: Marker, w: Option<WorkloadId>, c: Option<CheckpointId>, rollbacks: bool)
    requires Inv(s) && (m == GenerationCommitted || m == AuthorityTransferred) && CallOf(s, e).Some?
    requires Enters(s.db, CallOf(s, e).value, m, w, c, rollbacks)
    ensures CallOf(s, e).value.CommitRestore? && CallOf(s, e).value.a !in Entered(s.db, m, w, c, rollbacks)
  {
    hide Inv, CallOf, Commits;
    CommitsAreFirst(s, e, CallOf(s, e).value);
  }

  lemma EnteredMoves(s: Sys, e: Event, m: Marker, w: Option<WorkloadId>, c: Option<CheckpointId>, rollbacks: bool)
    requires Inv(s) && (m == GenerationCommitted || m == AuthorityTransferred)
    ensures |Entered(Step(s, e).db, m, w, c, rollbacks)| ==
            |Entered(s.db, m, w, c, rollbacks)|
            + if CallOf(s, e).Some? && Enters(s.db, CallOf(s, e).value, m, w, c, rollbacks) then 1 else 0
  {
    var before, after := Entered(s.db, m, w, c, rollbacks), Entered(Step(s, e).db, m, w, c, rollbacks);
    hide Step, CallOf, Inv, Enters, Entered;
    if CallOf(s, e).Some? {
      forall a { EnteredAt(s, e, m, w, c, rollbacks, a); }
      if Enters(s.db, CallOf(s, e).value, m, w, c, rollbacks) {
        EntersOnce(s, e, m, w, c, rollbacks);
        assert after == before + {CallOf(s, e).value.a};
      } else {
        assert after == before;
      }
    } else {
      StepDb(s, e);
    }
  }

  // ---------------- rollbacks and migrations in the lineage ----------------

  // The journal entry and the kind of attempt a lineage row of a restore stands for.
  function MarkerOf(relation: Relation): Marker {
    if relation == MigratedFrom then AuthorityTransferred else GenerationCommitted
  }

  lemma AddedByRestore(db: Db, call: Call, relation: Relation, w: Option<WorkloadId>, c: Option<CheckpointId>)
    requires relation == RollbackOf || relation == MigratedFrom
    ensures |Select(Added(db, call), relation, w, c)| ==
            if Enters(db, call, MarkerOf(relation), w, c, relation == RollbackOf) then 1 else 0
  {
    hide CaptureCommit, Commits, HasSupersedes;
    if RestoreGoes(db, call) {
      var w0 := db.checkpoints[call.c].workload;
      var r1 := LineageRow(RollbackOf, w0, Some(call.c), None, None);
      var r2 := LineageRow(MigratedFrom, w0, Some(call.c), None, None);
      SelectOne(r1, relation, w, c);
      SelectOne(r2, relation, w, c);
      SelectAppends(if call.rollback then [r1] else [], if call.migration then [r2] else [], relation, w, c);
    } else {
      SelectNone(Added(db, call), relation, w, c);
    }
  }

  ghost predicate Logged(s: Sys, relation: Relation, w: Option<WorkloadId>, c: Option<CheckpointId>) {
    |Select(s.db.lineage, relation, w, c)| == |Entered(s.db, MarkerOf(relation), w, c, relation == RollbackOf)|
  }

  lemma StepKeepsLogged(s: Sys, e: Event, relation: Relation, w: Option<WorkloadId>, c: Option<CheckpointId>)
    requires Inv(s) && (relation == RollbackOf || relation == MigratedFrom) && Logged(s, relation, w, c)
    ensures Logged(Step(s, e), relation, w, c)
  {
    LineageMoves(s, e);
    EnteredMoves(s, e, MarkerOf(relation), w, c, relation == RollbackOf);
    hide Step, Inv, CallOf, Added, Enters, Entered, Select;
    if CallOf(s, e).Some? {
      var call := CallOf(s, e).value;
      SelectAppends(s.db.lineage, Added(s.db, call), relation, w, c);
      AddedByRestore(s.db, call, relation, w, c);
    } else {
      assert s.db.lineage + [] == s.db.lineage;
    }
  }

  lemma {:induction false} RunKeepsLogged(events: seq<Event>, relation: Relation, w: Option<WorkloadId>,
        c: Option<CheckpointId>)
    requires relation == RollbackOf || relation == MigratedFrom
    ensures Inv(Run(EmptySys, events)) && Logged(Run(EmptySys, events), relation, w, c)
    decreases |events|
  {
    EmptyInv();
    RunKeepsInv(EmptySys, events);
    if events == [] {
      assert Entered(EmptyDb, MarkerOf(relation), w, c, relation == RollbackOf) == {};
    } else {
      RunKeepsLogged(events[..|events| - 1], relation, w, c);
      hide Inv, Step, Logged;
      StepKeepsLogged(Run(EmptySys, events[..|events| - 1]), events[|events| - 1], relation, w, c);
    }
  }

  // In every run, of each workload, each checkpoint, and in all: the RollbackOf rows are
  // as many as the rollback attempts with a generation_committed entry, and the
  // MigratedFrom rows as many as the attempts with an authority_transferred entry.
  lemma LineageCountsTheJournal(events: seq<Event>, w: Option<WorkloadId>, c: Option<CheckpointId>)
    ensures var db := Run(EmptySys, events).db;
            && |Select(db.lineage, RollbackOf, w, c)| == |Entered(db, GenerationCommitted, w, c, true)|
            && |Select(db.lineage, MigratedFrom, w, c)| == |Entered(db, AuthorityTransferred, w, c, false)|
  {
    RunKeepsLogged(events, RollbackOf, w, c);
    RunKeepsLogged(events, MigratedFrom, w, c);
    hide Run, Inv, Select, Entered;
  }

  // ---------------- restore counters ----------------

  lemma CountersAt(db: Db, call: Call, c: CheckpointId)
    requires c in db.checkpoints && !(call.EditRow? && call.c == c && call.edit.Overwrite?)
    ensures c in RowsAfter(db, call)
    ensures var row, row' := db.checkpoints[c], RowsAfter(db, call)[c];
            if RestoreGoes(db, call) && call.c == c then
              row'.restoreCount == row.restoreCount + 1 && row'.lastRestore == Some("restored")
            else row'.restoreCount == row.restoreCount && row'.lastRestore == row.lastRestore
  {
    match call
    case CommitCapture(d, a) =>
      if CaptureCommit(db, d, a).Ok? {
        var row := CommittedRow(db.checkpoints, d);
        hide CaptureCommit;
        SpliceShape(db.checkpoints[d := row], d, row.supersedes, row.supersededBy);
      }
    case CommitRestore(d, a, node, token, migration, rollback) =>
      GoesIsOk(db, call);
      hide Commits;
    case _ =>
  }

  // The counters of c are what the journal says.
  ghost predicate Tallied(s: Sys, c: CheckpointId) {
    var n := |Entered(s.db, GenerationCommitted, None, Some(c), false)|;
    if c in s.db.checkpoints then
      s.db.checkpoints[c].restoreCount == n
      && s.db.checkpoints[c].lastRestore == if n == 0 then None else Some("restored")
    else n == 0
  }

  // Nothing has restored a checkpoint that is not committed.
  lemma UncommittedIsUnrestored(s: Sys, c: CheckpointId)
    requires Inv(s) && !HasCommit(s.db, c)
    ensures Entered(s.db, GenerationCommitted, None, Some(c), false) == {}
  {
    forall a | a in s.db.attempts && s.db.attempts[a].checkpoint == c
      ensures !JournalHas(s.db, GenerationCommitted, a)
    {
      assert Journal.At(s, a) && AttemptRow(s.db, a);
      if a in s.ops { Journal.DeadIsLocal(Journal.MarksOf(s.db, a), Journal.AttemptOf(s.db, a), s.ops[a]); }
      assert GenerationCommitted !in Journal.MarksOf(s.db, a);
      hide Inv, Journal.LocalOp;
    }
  }

  lemma RowKeepsTally(s: Sys, e: Event, c: CheckpointId)
    requires Inv(s) && c in s.db.checkpoints && Tallied(s, c) && CallOf(s, e).Some?
    ensures Tallied(Step(s, e), c)
  {
    var call := CallOf(s, e).value;
    StepDb(s, e);
    CallsAreAllowed(s, e);
    ExecRows(s.db, call);
    EnteredMoves(s, e, GenerationCommitted, None, Some(c), false);
    hide Step, Inv, CallOf, Exec, Entered, Commits, RowsAfter, OpCall, OutsideCall;
    if call.EditRow? && call.c == c && call.edit.Overwrite? {
      OverwritesAreUncommitted(s, Caller(e), call);
      UncommittedIsUnrestored(s, c);
      OverwritesAreUnrestored(s, Caller(e), call);
    } else {
      CountersAt(s.db, call, c);
    }
  }

  lemma OverwritesAreUnrestored(s: Sys, a: AttemptId, call: Call)
    requires call.EditRow? && call.edit.Overwrite? && call.c in s.db.checkpoints
    requires (a in s.ops && OpCall(a, s.ops[a], call)) || OutsideCall(call)
    ensures var row, row' := s.db.checkpoints[call.c], RowsAfter(s.db, call)[call.c];
            (row'.restoreCount == 0 && row'.lastRestore == None) || row' == row
  {}

  lemma StepKeepsTally(s: Sys, e: Event, c: CheckpointId)
    requires Inv(s) && Tallied(s, c)
    ensures Tallied(Step(s, e), c)
  {
    StepKeepsInv(s, e);
    StepAdvances(s, e);
    if c in s.db.checkpoints {
      StepDb(s, e);
      if CallOf(s, e).Some? { RowKeepsTally(s, e, c); }
    } else {
      if c in Step(s, e).db.checkpoints { InsertedRow(s, e, c); }
      UncommittedIsUnrestored(Step(s, e), c);
    }
    hide Step, Inv, CallOf, Entered, Exec;
  }

  lemma {:induction false} RunKeepsTally(events: seq<Event>, c: CheckpointId)
    ensures Inv(Run(EmptySys, events)) && Tallied(Run(EmptySys, events), c)
    decreases |events|
  {
    EmptyInv();
    RunKeepsInv(EmptySys, events);
    if events == [] {
      assert Entered(EmptyDb, GenerationCommitted, None, Some(c), false) == {};
    } else {
      RunKeepsTally(events[..|events| - 1], c);
      hide Inv, Step, Tallied;
      StepKeepsTally(Run(EmptySys, events[..|events| - 1]), events[|events| - 1], c);
    }
  }

  // In every run, restore_count is the number of generation_committed entries of the
  // attempts on the checkpoint, and its last result is there exactly when there is one.
  lemma RestoreCountsTheJournal(events: seq<Event>, c: CheckpointId)
    requires c in Run(EmptySys, events).db.checkpoints
    ensures var db := Run(EmptySys, events).db;
            var n := |Entered(db, GenerationCommitted, None, Some(c), false)|;
            db.checkpoints[c].restoreCount == n
            && db.checkpoints[c].lastRestore == if n == 0 then None else Some("restored")
  {
    RunKeepsTally(events, c);
    hide Run, Inv, Entered;
  }

  // ---------------- forks ----------------

  // w was forked from checkpoint c of workload p, and the lineage says so, once.
  ghost predicate ForkedAt(db: Db, w: WorkloadId, p: WorkloadId, c: CheckpointId) {
    Select(db.lineage, ForkedFrom, Some(w), None) == [LineageRow(ForkedFrom, w, None, Some(p), Some(c))]
    && c in db.checkpoints && db.checkpoints[c].workload == p
  }

  ghost predicate Forked(db: Db, w: WorkloadId) {
    if w in db.workloads && db.workloads[w].parent.Some? then
      exists c :: ForkedAt(db, w, db.workloads[w].parent.value, c)
    else Select(db.lineage, ForkedFrom, Some(w), None) == []
  }

  lemma AddedByFork(db: Db, call: Call, w: WorkloadId)
    ensures Select(Added(db, call), ForkedFrom, Some(w), None) ==
            if ForkGoes(db, call) && call.w == w
            then [LineageRow(ForkedFrom, w, None, Some(call.parentId), Some(call.c))] else []
  {
    hide CaptureCommit, Commits, HasSupersedes;
    if ForkGoes(db, call) {
      SelectOne(LineageRow(ForkedFrom, call.w, None, Some(call.parentId), Some(call.c)), ForkedFrom, Some(w), None);
    } else {
      SelectNone(Added(db, call), ForkedFrom, Some(w), None);
    }
  }

  lemma ParentsRest(w: Workload, e: WorkloadEdit)
    requires EditWorkload(w, e).Ok?
    ensures EditWorkload(w, e).value.parent == w.parent
  {}

  lemma NewWorkloads(s: Sys, e: Event, call: Call)
    requires CallOf(s, e) == Some(call) && !e.Advance?
    ensures call.CreateRow? ==> call.workload.parent == None
    ensures call.ForkRow? ==>
              call.workload.parent == Some(call.parentId) && call.c in s.db.checkpoints
              && s.db.checkpoints[call.c].workload == call.parentId
  {}

  // Where the parent of w comes from.
  lemma ParentMoves(s: Sys, e: Event, call: Call, w: WorkloadId)
    requires Journal.Inv(s) && CallOf(s, e) == Some(call)
    ensures var ws, ws' := s.db.workloads, Step(s, e).db.workloads;
            && (w in ws ==> w in ws' && ws'[w].parent == ws[w].parent && !(ForkGoes(s.db, call) && call.w == w))
            && (w !in ws && w in ws' ==>
                  ws'[w].parent == (if call.ForkRow? then Some(call.parentId) else None) && call.w == w
                  && (call.ForkRow? ==>
                        call.c in s.db.checkpoints && s.db.checkpoints[call.c].workload == call.parentId))
            && (w !in ws && ForkGoes(s.db, call) && call.w == w ==> w in ws')
  {
    StepDb(s, e);
    WorkloadAfter(s.db, call, w);
    CommitsAreRestores(s.db, call, w);
    CallsAreAllowed(s, e);
    if call.EditWorkloadRow? && w in s.db.workloads && EditWorkload(s.db.workloads[w], call.workloadEdit).Ok? {
      ParentsRest(s.db.workloads[w], call.workloadEdit);
    }
    if call.CreateRow? || call.ForkRow? { NewWorkloads(s, e, call); }
    if call.ForkRow? { ForkCreates(s.db, call); }
    hide Step, CallOf, Journal.Inv, Exec, Commits, OpEdit, EditWorkload;
  }

  lemma ForkCreates(db: Db, call: Call)
    requires call.ForkRow?
    ensures call.w in Exec(db, call).0.workloads
  {}

  lemma StillForked(db: Db, db': Db, w: WorkloadId)
    requires Forked(db, w) && Grows(db.checkpoints, db'.checkpoints)
    requires Select(db'.lineage, ForkedFrom, Some(w), None) == Select(db.lineage, ForkedFrom, Some(w), None)
    requires if w in db.workloads then w in db'.workloads && db'.workloads[w].parent == db.workloads[w].parent
             else w in db'.workloads ==> db'.workloads[w].parent.None?
    ensures Forked(db', w)
  {
    hide Select;
    if w in db.workloads && db.workloads[w].parent.Some? {
      var c :| ForkedAt(db, w, db.workloads[w].parent.value, c);
      assert ForkedAt(db', w, db.workloads[w].parent.value, c);
    }
  }

  lemma StepKeepsForked(s: Sys, e: Event, w: WorkloadId)
    requires Inv(s) && Forked(s.db, w)
    ensures Forked(Step(s, e).db, w)
  {
    assert Journal.Inv(s);
    hide Step, Inv, CallOf, Added, Select, Journal.Inv, Forked, Grows;
    LineageMoves(s, e);
    StepKeepsRows(s, e);
    if CallOf(s, e).Some? {
      var call := CallOf(s, e).value;
      SelectAppends(s.db.lineage, Added(s.db, call), ForkedFrom, Some(w), None);
      AddedByFork(s.db, call, w);
      ParentMoves(s, e, call, w);
      if w !in s.db.workloads && ForkGoes(s.db, call) && call.w == w { JustForked(s, e, call, w); }
      else { StillForked(s.db, Step(s, e).db, w); }
    } else {
      StepDb(s, e);
    }
  }

  lemma JustForked(s: Sys, e: Event, call: Call, w: WorkloadId)
    requires w !in s.db.workloads && ForkGoes(s.db, call) && call.w == w && Forked(s.db, w)
    requires Grows(s.db.checkpoints, Step(s, e).db.checkpoints)
    requires w in Step(s, e).db.workloads && Step(s, e).db.workloads[w].parent == Some(call.parentId)
    requires call.c in s.db.checkpoints && s.db.checkpoints[call.c].workload == call.parentId
    requires Select(Step(s, e).db.lineage, ForkedFrom, Some(w), None) ==
             Select(s.db.lineage, ForkedFrom, Some(w), None)
             + [LineageRow(ForkedFrom, w, None, Some(call.parentId), Some(call.c))]
    ensures Forked(Step(s, e).db, w)
  {
    hide Step, Select;
    assert ForkedAt(Step(s, e).db, w, call.parentId, call.c);
  }

  lemma {:induction false} RunKeepsForked(events: seq<Event>, w: WorkloadId)
    ensures Inv(Run(EmptySys, events)) && Forked(Run(EmptySys, events).db, w)
    decreases |events|
  {
    EmptyInv();
    RunKeepsInv(EmptySys, events);
    if events != [] {
      RunKeepsForked(events[..|events| - 1], w);
      hide Inv, Step, Forked;
      StepKeepsForked(Run(EmptySys, events[..|events| - 1]), events[|events| - 1], w);
    }
  }

  // In every run, a workload with a parent has exactly one ForkedFrom row, to that
  // parent and one of its checkpoints, and a workload without one has none.
  lemma ForksAreLogged(events: seq<Event>, w: WorkloadId)
    requires w in Run(EmptySys, events).db.workloads
    ensures var db := Run(EmptySys, events).db;
            match db.workloads[w].parent
            case None => Select(db.lineage, ForkedFrom, Some(w), None) == []
            case Some(p) => exists c :: ForkedAt(db, w, p, c)
  {
    RunKeepsForked(events, w);
    hide Run, Inv, Select, ForkedAt;
  }

  // Every lineage row of every run has the columns of its relation.
  lemma {:induction false} RowsAreShaped(events: seq<Event>)
    ensures forall r :: r in Run(EmptySys, events).db.lineage ==> Shaped(r)
    decreases |events|
  {
    if events != [] {
      var prefix, last := events[..|events| - 1], events[|events| - 1];
      var s := Run(EmptySys, prefix);
      RowsAreShaped(prefix);
      LineageMoves(s, last);
      if CallOf(s, last).Some? { AddedAreShaped(s.db, CallOf(s, last).value); }
      hide Step, CallOf, Added, Shaped;
    }
  }
}
