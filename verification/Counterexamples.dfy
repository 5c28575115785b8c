// Runs from the empty store on which claims of the documentation fail.
module Counterexamples {
  import opened Wrappers
  import opened Tables
  import opened Operations
  import opened Steps
  import opened Recovery
  import opened Restart
  import opened Progress
  import opened RestoreProgress
  import Anchors
  import Chain
  import Availability
  import CrashAtomicity
  import Promotion
  import Directories
  import Journal
  import L = Lifecycle

  const NODE: NodeName := "n"
  const PLAN := CapturePlan(0, 0, NODE, 0, 0, Exact, Image([], 0, 0), "digest", "path", Unprotected, 0)
  const OPENING: seq<Event> := [CreateWorkload(0, Exact, true, Some((NODE, "token"))), BeginCapture(0, PLAN)]

  // After one workload and one capture request the capture is at its first step.
  lemma Opening()
    ensures On(Run(EmptySys, OPENING), 0, CReadGeneration, PLAN)
    ensures Availability.OneAtATime(EmptySys, OPENING) && Run(EmptySys, OPENING).ops.Keys == {0}
  {
    var e1 := OPENING[0];
    var s1 := Step(EmptySys, e1);
    assert OPENING[..1] == [e1] && [e1][..0] == [];
    assert Run(EmptySys, [e1]) == s1;
    assert s1.db.workloads == map[0 := NewWorkload(Exact, true, Some((NODE, "token")), None)] && s1.ops == map[];
    assert Run(EmptySys, OPENING) == Step(s1, OPENING[1]);
    assert Availability.OneAtATime(EmptySys, [e1]);
  }

  lemma {:induction false} TurnsAreOneAtATime(s: Sys, first: seq<Event>, a: AttemptId, n: nat)
    requires Availability.OneAtATime(s, first)
    ensures Availability.OneAtATime(s, first + Turns(a, n))
    decreases n
  {
    if n == 0 {
      assert first + Turns(a, n) == first;
    } else {
      TurnsAreOneAtATime(s, first, a, n - 1);
      OneMoreTurn(s, first + Turns(a, n - 1), Advance(a, GOOD));
      assert first + Turns(a, n) == (first + Turns(a, n - 1)) + [Advance(a, GOOD)];
    }
  }

  lemma OneMoreTurn(s: Sys, events: seq<Event>, e: Event)
    requires Availability.OneAtATime(s, events) && !Availability.Begins(e)
    ensures Availability.OneAtATime(s, events + [e]) && Run(s, events + [e]) == Step(Run(s, events), e)
  {
    assert (events + [e])[..|events|] == events;
  }

  lemma DriveAfter(first: seq<Event>, a: AttemptId, n: nat)
    ensures Run(EmptySys, first + Turns(a, n)) == Drive(Run(EmptySys, first), a, n)
    ensures Availability.OneAtATime(EmptySys, first) ==> Availability.OneAtATime(EmptySys, first + Turns(a, n))
  {
    hide *;
    DriveIsARun(Run(EmptySys, first), a, n);
    RunAppends(EmptySys, first, Turns(a, n));
    if Availability.OneAtATime(EmptySys, first) { TurnsAreOneAtATime(EmptySys, first, a, n); }
  }

  ghost predicate Uncommitted(s: Sys, a: AttemptId) {
    a in s.ops && s.ops[a].Capture? && !JournalHas(s.db, DbCommitted, a)
  }

  // t is s but for the row of the checkpoint that a captures.
  ghost predicate OwnRowApart(s: Sys, t: Sys, a: AttemptId) {
    Uncommitted(s, a) && Uncommitted(t, a) && s.ops[a].cplan.checkpoint == t.ops[a].cplan.checkpoint
    && t.db.checkpoints - {s.ops[a].cplan.checkpoint} == s.db.checkpoints - {s.ops[a].cplan.checkpoint}
  }

  lemma {:induction false} DriveKeepsInv(s: Sys, a: AttemptId, n: nat)
    requires Anchors.Inv(s)
    ensures Anchors.Inv(Drive(s, a, n))
    decreases n
  {
    if n > 0 {
      Anchors.StepKeepsInv(s, Advance(a, GOOD));
      hide Step, Anchors.Inv;
      DriveKeepsInv(Step(s, Advance(a, GOOD)), a, n - 1);
    }
  }

  // Up to its commit a capture changes no row but its own.
  lemma {:induction false} CaptureTouchesOwnRow(s: Sys, a: AttemptId, n: nat)
    requires Anchors.Inv(s) && Uncommitted(Drive(s, a, n), a)
    ensures OwnRowApart(s, Drive(s, a, n), a)
    decreases n
  {
    if n > 0 {
      var s1 := Step(s, Advance(a, GOOD));
      assert Drive(s, a, n) == Drive(s1, a, n - 1);
      hide Drive, Step, Anchors.Inv, Uncommitted, OwnRowApart;
      Anchors.StepKeepsInv(s, Advance(a, GOOD));
      CaptureTouchesOwnRow(s1, a, n - 1);
      ApartIsUncommitted(s1, Drive(s1, a, n - 1), a);
      TurnTouchesOwnRow(s, a);
      ApartIsTransitive(s, s1, Drive(s1, a, n - 1), a);
    }
  }

  lemma ApartIsUncommitted(s: Sys, t: Sys, a: AttemptId)
    requires OwnRowApart(s, t, a)
    ensures Uncommitted(s, a)
  {}

  lemma ApartIsTransitive(s: Sys, t: Sys, u: Sys, a: AttemptId)
    requires OwnRowApart(s, t, a) && OwnRowApart(t, u, a)
    ensures OwnRowApart(s, u, a)
  {}

  lemma TurnTouchesOwnRow(s: Sys, a: AttemptId)
    requires Anchors.Inv(s) && Uncommitted(Step(s, Advance(a, GOOD)), a)
    ensures OwnRowApart(s, Step(s, Advance(a, GOOD)), a)
  {
    var e := Advance(a, GOOD);
    assert Journal.Inv(s);
    Anchors.OpsMove(s, e, a);
    hide Step, Anchors.Inv, Journal.Inv, CallOf, Exec, Anchors.RowsAfter, OpCall;
    Directories.MovesKeepCaptures(s, a, Step(s, e).ops[a], GOOD);
    Anchors.StepAdvances(s, e);
    StepDb(s, e);
    if CallOf(s, e).Some? {
      Anchors.CallsAreAllowed(s, e);
      Anchors.ExecRows(s.db, CallOf(s, e).value);
      Anchors.CommitMarks(s, a, CallOf(s, e).value, a);
      OwnRowOnly(s.db, a, s.ops[a], CallOf(s, e).value);
    }
  }

  lemma OwnRowOnly(db: Db, a: AttemptId, op: Op, call: Call)
    requires op.Capture? && OpCall(a, op, call) && !(call.CommitCapture? && CaptureCommit(db, call.c, a).Ok?)
    ensures Anchors.RowsAfter(db, call) - {op.cplan.checkpoint} == db.checkpoints - {op.cplan.checkpoint}
  {
    hide CaptureCommit, RestoreCommit, Edit;
  }

  lemma PlanIsUnprotected()
    ensures PLAN.protection == Unprotected
  {}

  // Some run brings a capture to its commit.
  lemma AtTheCommit() returns (events: seq<Event>, p: CapturePlan)
    ensures Availability.OneAtATime(EmptySys, events) && On(Run(EmptySys, events), 0, CCommit, p)
    ensures Run(EmptySys, events).ops.Keys == {0} && p.protection == Unprotected
    ensures Run(EmptySys, events).db.checkpoints.Keys == {p.checkpoint} && CapturesOnly(Run(EmptySys, events))
  {
    OpeningRows();
    hide *;
    Opening();
    PlanIsUnprotected();
    var s := Run(EmptySys, OPENING);
    var n := CaptureReachesItsCommit(s, 0, PLAN);
    p := PLAN.(generation := MaxGeneration(s.db.checkpoints, PLAN.workload) + 1);
    events := OPENING + Turns(0, n);
    DriveAfter(OPENING, 0, n);
    DriveStartsNothing(s, 0, n);
    OnIsCapture(Drive(s, 0, n), 0, CCommit, p);
    OnIsCapture(s, 0, CReadGeneration, PLAN);
    Anchors.EmptyInv();
    Anchors.RunKeepsInv(EmptySys, OPENING);
    DriveKeepsInv(s, 0, n);
    NotYetCommitted(Drive(s, 0, n), p);
    CaptureTouchesOwnRow(s, 0, n);
    DriveKeepsCaptures(s, 0, n);
    OnlyRow(s, Drive(s, 0, n), p);
  }

  // No restore has begun.
  ghost predicate CapturesOnly(s: Sys) {
    (forall a :: a in s.db.attempts ==> s.db.attempts[a].kind == CaptureKind) && forall a :: a in s.ops ==>
      IsCapture(s.ops[a])
  }

  lemma TurnKeepsCaptures(s: Sys, a: AttemptId)
    requires Journal.Inv(s) && CapturesOnly(s)
    ensures CapturesOnly(Step(s, Advance(a, GOOD)))
  {
    var e := Advance(a, GOOD);
    forall b | b in Step(s, e).db.attempts
      ensures Step(s, e).db.attempts[b].kind == CaptureKind
    {
      Anchors.AttemptsGrow(s, e, b);
    }
    forall b | b in Step(s, e).ops ensures IsCapture(Step(s, e).ops[b]) {
      Anchors.OpsMove(s, e, b);
      if a == b { Anchors.MovesKeepCheckpoint(s.ops[b], Step(s, e).ops[b], s.db, b, GOOD); }
      hide Step, Anchors.Moves, Journal.Inv, IsCapture;
    }
  }

  lemma {:induction false} DriveKeepsCaptures(s: Sys, a: AttemptId, n: nat)
    requires Anchors.Inv(s) && CapturesOnly(s)
    ensures CapturesOnly(Drive(s, a, n))
    decreases n
  {
    if n > 0 {
      TurnKeepsCaptures(s, a);
      Anchors.StepKeepsInv(s, Advance(a, GOOD));
      hide Step, Anchors.Inv, CapturesOnly;
      DriveKeepsCaptures(Step(s, Advance(a, GOOD)), a, n - 1);
    }
  }

  lemma OpeningRows()
    ensures Run(EmptySys, OPENING).db.checkpoints == map[] && PLAN.checkpoint == 0
            && CapturesOnly(Run(EmptySys, OPENING))
  {
    assert OPENING[..1] == [OPENING[0]] && OPENING[..1][..0] == [];
    assert Run(EmptySys, OPENING[..1]) == Step(EmptySys, OPENING[0]);
  }

  lemma NotYetCommitted(s: Sys, p: CapturePlan)
    requires Anchors.Inv(s) && On(s, 0, CCommit, p)
    ensures Uncommitted(s, 0)
  {
    PersistedAtCommit(s, p);
  }

  lemma OnlyRow(s: Sys, t: Sys, p: CapturePlan)
    requires OwnRowApart(s, t, 0) && s.db.checkpoints == map[] && On(t, 0, CCommit, p)
    ensures t.db.checkpoints.Keys == {p.checkpoint}
  {
    assert (t.db.checkpoints - {p.checkpoint}).Keys == t.db.checkpoints.Keys - {p.checkpoint};
    assert p.checkpoint in t.db.checkpoints.Keys && t.db.checkpoints.Keys - {p.checkpoint} == {};
  }

  lemma {:induction false} DriveStartsNothing(s: Sys, a: AttemptId, n: nat)
    ensures Drive(s, a, n).ops.Keys <= s.ops.Keys
    decreases n
  {
    if n > 0 {
      DriveStartsNothing(Step(s, Advance(a, GOOD)), a, n - 1);
      assert Step(s, Advance(a, GOOD)).ops.Keys <= s.ops.Keys by { hide ActionOf, Next, Failing, Exec; }
    }
    hide Step;
  }

  // An available checkpoint that records a replica on a node that has none.
  ghost predicate Phantom(s: Sys, c: CheckpointId, node: NodeName) {
    c in s.db.checkpoints && s.db.checkpoints[c].lifecycle == L.Available && (node, c) !in s.promoted
    && exists l <- s.db.checkpoints[c].locations :: l.node == node
  }

  // The commit transaction fails once, the abort begins, ...
  lemma IntoTheAbort(s: Sys, p: CapturePlan)
    requires On(s, 0, CCommit, p)
    ensures var t := Step(Step(s, Advance(0, FAULT)), Advance(0, GOOD));
            t.db == s.db && 0 in t.ops && t.ops[0] == CaptureAbort(ANode, p, JournalHas(s.db, DbCommitted, 0))
  {
    var s1 := Step(s, Advance(0, FAULT));
    assert s1 == s.(ops := s.ops[0 := CaptureAbort(ACheck, p, false)]) by { hide Exec, CaptureCommit; }
    hide CaptureCommit, CommitRows;
  }

  // ... the node deletes the promoted directory, and the coordinator crashes before it
  // marks the checkpoint failed: recovery publishes a checkpoint nobody holds.
  lemma PublishedWithoutItsDirectory()
    ensures exists events: seq<Event>, a, c, node ::
              Availability.OneAtATime(EmptySys, events)
                && Phantom(Recovered(Step(Run(EmptySys, events), Advance(a, GOOD)), a), c, node)
  {
    hide Run, Step, On, Recovered, Availability.OneAtATime, Anchors.Inv, Journal.Inv, CrashAtomicity.DurableInv,
      Promotion.BeforeCleanup;
    var events, p := AtTheCommit();
    var s := Run(EmptySys, events);
    CrashAtomicity.Reachable(events);
    PersistedAtCommit(s, p);
    IntoTheAbort(s, p);
    var aborting := events + [Advance(0, FAULT)] + [Advance(0, GOOD)];
    OneMoreTurn(EmptySys, events, Advance(0, FAULT));
    OneMoreTurn(EmptySys, events + [Advance(0, FAULT)], Advance(0, GOOD));
    Promotion.AbortedCopyIsPublished(aborting, 0);
    PersistedLocation(s, p);
    var t := Recovered(Step(Run(EmptySys, aborting), Advance(0, GOOD)), 0);
    assert Location(p.node, p.path, true) in t.db.checkpoints[p.checkpoint].locations;
    assert Phantom(t, p.checkpoint, p.node);
  }

  lemma PersistedLocation(s: Sys, p: CapturePlan)
    requires On(s, 0, CCommit, p)
    ensures p.checkpoint in s.db.checkpoints
            && s.db.checkpoints[p.checkpoint].locations == [Location(p.node, p.path, true)]
  {}

  lemma PersistedAtCommit(s: Sys, p: CapturePlan)
    requires Journal.Inv(s) && On(s, 0, CCommit, p)
    ensures JournalHas(s.db, CapturePersisted, 0) && !JournalHas(s.db, DbCommitted, 0)
    ensures 0 in s.db.attempts && s.db.attempts[0].state == Active
  {
    assert Journal.At(s, 0);
    assert CapturePersisted in Journal.MarksOf(s.db, 0) && DbCommitted !in Journal.MarksOf(s.db, 0);
  }

  // ---------------- a restore racing a retirement ----------------

  // An idle store with an available, unprotected checkpoint on one node.
  ghost predicate Idle(s: Sys, c: CheckpointId, l: Location, node: NodeName) {
    && s.ops == map[] && c in s.db.checkpoints
    && var row := s.db.checkpoints[c];
       && row.lifecycle == L.Available && row.integrity == Valid && row.locations == [l]
       && row.protection == Unprotected
       && row.workload in s.db.workloads && s.db.workloads[row.workload].activeNode == Some(node)
       && !Reserved(s.db, RestoreOf(c))
  }

  // The rest of the capture after its commit.
  lemma CaptureFinishes(s: Sys, p: CapturePlan)
    requires On(s, 0, CCommit, p) && s.ops.Keys == {0} && p.protection == Unprotected
    ensures Idle(Drive(s, 0, 6), p.checkpoint, Location(p.node, p.path, true), p.node)
    ensures p.checkpoint in s.db.checkpoints
            && Drive(s, 0, 6).db.checkpoints == CommitRows(s.db.checkpoints, p.checkpoint)
  {
    hide Drive, CaptureCommit, Exec, On, Step;
    var c := p.checkpoint;
    CommitIsReady(s, 0, p);
    var tx := CaptureCommit(s.db, c, 0);
    CommittedAvailable(s.db, c, 0);
    CommitReplies(s.db, c, 0);
    OnIsCapture(s, 0, CCommit, p);
    Goes(s, 0, CommitCapture(c, 0), tx.value, Done, Capture(CResume, p, None), 6);
    var s1 := s.(db := tx.value, ops := s.ops[0 := Capture(CResume, p, None)]);
    AfterCommit(s1, p);
    CommittedRows(s.db, c, 0);
    assert Idle(Drive(s1, 0, 5), c, Location(p.node, p.path, true), p.node) by {
      PersistedLocation(s, p);
      ActiveNode(s, p);
    }
  }

  lemma CommittedRows(db: Db, c: CheckpointId, a: AttemptId)
    requires CaptureCommit(db, c, a).Ok?
    ensures c in db.checkpoints && CaptureCommit(db, c, a).value.checkpoints == CommitRows(db.checkpoints, c)
  {}

  lemma ActiveNode(s: Sys, p: CapturePlan)
    requires On(s, 0, CCommit, p)
    ensures p.workload in s.db.workloads && s.db.workloads[p.workload].activeNode == Some(p.node)
    ensures !Reserved(s.db, RestoreOf(p.checkpoint))
    ensures p.checkpoint in s.db.checkpoints && s.db.checkpoints[p.checkpoint] == PersistedRow(p, 0)
  {}

  // What the commit transaction keeps and what it sets.
  lemma CommittedAvailable(db: Db, c: CheckpointId, a: AttemptId)
    requires CaptureCommit(db, c, a).Ok?
    ensures var db' := CaptureCommit(db, c, a).value;
            && c in db.checkpoints && c in db'.checkpoints && db'.reservations == db.reservations
            && db'.attempts == db.attempts
            && var row, row' := db.checkpoints[c], db'.checkpoints[c];
               row'.lifecycle == L.Available && row'.integrity == Valid && row'.locations == row.locations
                 && row'.protection == row.protection
               && row'.workload == row.workload
               && (row.workload in db.workloads ==>
                     row.workload in db'.workloads
                     && db'.workloads[row.workload].activeNode == db.workloads[row.workload].activeNode)
  {
    Chain.CommitSplices(db.checkpoints, c);
    hide CommitRows;
  }

  // Resume, journal, replicate, finish, release: none of them touches a row.
  lemma AfterCommit(s: Sys, p: CapturePlan)
    requires 0 in s.ops && s.ops[0] == Capture(CResume, p, None)
    ensures var t := Drive(s, 0, 5);
            && t.ops == s.ops - {0} && t.db.checkpoints == s.db.checkpoints && t.db.workloads == s.db.workloads
            && (!Reserved(s.db, RestoreOf(p.checkpoint)) ==> !Reserved(t.db, RestoreOf(p.checkpoint)))
  {
    hide Drive, Step;
    var s1 := s.(ops := s.ops[0 := Capture(CLogResumed, p, None)]);
    OneOrder(s, 0, Work, Capture(CLogResumed, p, None));
    DriveAppends(s, 0, 1, 4);
    var db2 := JournalAppend(s.db, ResumeDone, 0);
    var s2 := s.(db := db2, ops := s.ops[0 := Capture(CReplicate, p, None)]);
    Goes(s1, 0, Log(ResumeDone, 0), db2, Done, Capture(CReplicate, p, None), 4);
    assert s2 == s1.(db := db2, ops := s1.ops[0 := Capture(CReplicate, p, None)]);
    var s3 := s.(db := db2, ops := s.ops[0 := Capture(CFinish, p, None)]);
    OneOrder(s2, 0, Work, Capture(CFinish, p, None));
    assert s3 == s2.(ops := s2.ops[0 := Capture(CFinish, p, None)]);
    DriveAppends(s2, 0, 1, 2);
    LastTwo(s3, p);
    assert s3.ops - {0} == s.ops - {0};
  }

  lemma LastTwo(s: Sys, p: CapturePlan)
    requires 0 in s.ops && s.ops[0] == Capture(CFinish, p, None)
    ensures var t := Drive(s, 0, 2);
            && t.ops == s.ops - {0} && t.db.checkpoints == s.db.checkpoints && t.db.workloads == s.db.workloads
            && (!Reserved(s.db, RestoreOf(p.checkpoint)) ==> !Reserved(t.db, RestoreOf(p.checkpoint)))
  {
    hide Drive, Step;
    var db1 := AttemptFinish(s.db, 0, Committed);
    Goes(s, 0, Finish(0, Committed), db1, Done, Capture(CRelease, p, None), 2);
    var s1 := s.(db := db1, ops := s.ops[0 := Capture(CRelease, p, None)]);
    Ends(s1, 0, Release(0), ReservationRelease(db1, 0), Done, 1);
    assert s1.ops - {0} == s.ops - {0};
  }

  lemma FreshNat(m: set<nat>) returns (n: nat)
    ensures n !in m
  {
    if m == {} { return 0; }
    var top := 0;
    var left := m;
    while left != {}
      invariant forall k :: k in m && k !in left ==> k <= top
    {
      var k :| k in left;
      if k > top { top := k; }
      left := left - {k};
    }
    n := top + 1;
  }

  function DirectoriesOf(ls: seq<Location>, c: CheckpointId): set<(NodeName, CheckpointId)> {
    if ls == [] then {} else {(ls[0].node, c)} + DirectoriesOf(ls[1..], c)
  }

  // The rows after the last call of a retirement, refused or not.
  function RetiredRows(cs: Rows, c: CheckpointId): Rows {
    if EditTx(cs, c, Retire).Ok? then EditTx(cs, c, Retire).value else cs
  }

  // A retirement left to itself deletes every directory it has read of, and only then
  // finds out whether the lifecycle lets it retire the row: if not, the row stays as it
  // is, with all its locations.
  lemma RetirementRuns(s: Sys, b: AttemptId, c: CheckpointId, ls: seq<Location>)
    requires b in s.ops && s.ops[b] == Retirement(TReserved, c, Unprotected, ls) && !Reserved(s.db, RestoreOf(c))
    ensures Drive(s, b, |ls| + 3) == s.(db := s.db.(checkpoints := RetiredRows(s.db.checkpoints, c)),
                                        ops := s.ops - {b}, promoted := s.promoted - DirectoriesOf(ls, c))
  {
    hide Drive, Step, RetiredRows;
    var op1 := Retirement(TDelete, c, Unprotected, ls);
    Goes(s, b, ReadReserved(c), s.db, Flag(false), op1, |ls| + 3);
    var s1 := s.(ops := s.ops[b := op1]);
    DeletesAndRetires(s1, b, c, ls);
    assert s1.ops - {b} == s.ops - {b};
  }

  lemma {:induction false} DeletesAndRetires(s: Sys, b: AttemptId, c: CheckpointId, ls: seq<Location>)
    requires b in s.ops && s.ops[b] == Retirement(TDelete, c, Unprotected, ls)
    ensures Drive(s, b, |ls| + 2) == s.(db := s.db.(checkpoints := RetiredRows(s.db.checkpoints, c)),
                                        ops := s.ops - {b}, promoted := s.promoted - DirectoriesOf(ls, c))
    decreases |ls|
  {
    hide Drive, Step, Exec, RetiredRows;
    if ls == [] {
      assert s.promoted - {} == s.promoted;
      RetiresRow(s, b, c);
    } else {
      var op1 := Retirement(TDelete, c, Unprotected, ls[1..]);
      OneOrder(s, b, Discard(ls[0].node, c), op1);
      DriveAppends(s, b, 1, |ls| + 1);
      var s1 := s.(ops := s.ops[b := op1], promoted := s.promoted - {(ls[0].node, c)});
      DeletesAndRetires(s1, b, c, ls[1..]);
      assert s1.ops - {b} == s.ops - {b};
      assert s1.promoted - DirectoriesOf(ls[1..], c) == s.promoted - DirectoriesOf(ls, c);
    }
  }

  lemma RetiresRow(s: Sys, b: AttemptId, c: CheckpointId)
    requires b in s.ops && s.ops[b] == Retirement(TDelete, c, Unprotected, [])
    ensures Drive(s, b, 2) == s.(db := s.db.(checkpoints := RetiredRows(s.db.checkpoints, c)), ops := s.ops - {b})
  {
    hide Drive, Step, EditTx;
    var op1 := Retirement(TRetire, c, Unprotected, []);
    OneOrder(s, b, Work, op1);
    DriveAppends(s, b, 1, 1);
    var s1 := s.(ops := s.ops[b := op1]);
    var tx := EditTx(s.db.checkpoints, c, Retire);
    var db1 := s.db.(checkpoints := RetiredRows(s.db.checkpoints, c));
    Ends(s1, b, EditRow(c, Retire), db1, if tx.Ok? then Done else Refused, 1);
    assert s1.ops - {b} == s.ops - {b};
  }

  // The whole race, from any idle state.
  lemma RaceFrom(s: Sys, c: CheckpointId, l: Location, node: NodeName)
    requires Anchors.Inv(s) && Idle(s, c, l, node)
    ensures exists a, b, p ::
              var started := Step(Step(Step(s, BeginRestore(a, p)), Advance(a, GOOD)), BeginRetire(b, c));
              var t := Drive(Drive(started, b, 4), a, 5);
              c in t.db.checkpoints && !Availability.Stocked(t.db.checkpoints[c])
  {
    var used := s.db.attempts.Keys + s.db.reservations.Keys;
    var a := FreshNat(used);
    var b := FreshNat(used + {a});
    var row := s.db.checkpoints[c];
    var p := RestorePlan(row.workload, c, node, "", false, false, true, 0);
    hide Step, Drive, PendingDb;
    RaceOpens(s, c, l, node, a, b, p);
    RaceEnds(Step(Step(Step(s, BeginRestore(a, p)), Advance(a, GOOD)), BeginRetire(b, c)), a, b, p, l);
  }

  // Two requests on the same checkpoint, both accepted.
  lemma RaceOpens(s: Sys, c: CheckpointId, l: Location, node: NodeName, a: AttemptId, b: AttemptId, p: RestorePlan)
    requires Anchors.Inv(s) && Idle(s, c, l, node) && a != b
    requires a !in s.db.attempts && a !in s.db.reservations && b !in s.db.attempts && b !in s.db.reservations
    requires p == RestorePlan(s.db.checkpoints[c].workload, c, node, "", false, false, true, 0)
    ensures var t := Step(Step(Step(s, BeginRestore(a, p)), Advance(a, GOOD)), BeginRetire(b, c));
            && t.db == s.db && t.ops ==
               map[a := Restore(RReserve, p, None, 0, false), b := Retirement(TReserved, c, Unprotected, [l])]
  {
    UnusedIsFresh(s, a);
    UnusedIsFresh(s, b);
    RestoreOpens(s, c, l, node, a, p);
    var s2 := Step(Step(s, BeginRestore(a, p)), Advance(a, GOOD));
    hide Anchors.Inv, MayRestore, ActionOf, Next;
    assert FreshAttempt(s2, b);
  }

  lemma RestoreOpens(s: Sys, c: CheckpointId, l: Location, node: NodeName, a: AttemptId, p: RestorePlan)
    requires Idle(s, c, l, node) && FreshAttempt(s, a)
    requires p == RestorePlan(s.db.checkpoints[c].workload, c, node, "", false, false, true, 0)
    ensures Step(Step(s, BeginRestore(a, p)), Advance(a, GOOD)) ==
            s.(ops := map[a := Restore(RReserve, p, None, 0, false)], tokens := s.tokens + {""})
  {
    var s1 := Step(s, BeginRestore(a, p));
    assert s1 == s.(ops := s.ops[a := Restore(RCheckWorkload, p, None, 0, false)], tokens := s.tokens + {""});
    hide Step;
    ChecksWorkload(s1, a, p);
  }

  lemma RaceEnds(s: Sys, a: AttemptId, b: AttemptId, p: RestorePlan, l: Location)
    requires s.ops ==
             map[a := Restore(RReserve, p, None, 0, false), b := Retirement(TReserved, p.checkpoint, Unprotected, [l])]
    requires a != b && a !in s.db.reservations && !Reserved(s.db, RestoreOf(p.checkpoint))
             && p.checkpoint in s.db.checkpoints
    requires s.db.checkpoints[p.checkpoint].lifecycle == L.Available
             && s.db.checkpoints[p.checkpoint].protection == Unprotected
    ensures var t := Drive(Drive(s, b, 4), a, 5);
            p.checkpoint in t.db.checkpoints && !Availability.Stocked(t.db.checkpoints[p.checkpoint])
  {
    hide Step, Drive, PendingDb;
    RetirementRuns(s, b, p.checkpoint, [l]);
    RetiredRow(s.db.checkpoints, p.checkpoint);
    RestoreTakesRow(Drive(s, b, 4), a, p);
    PendingRow(Drive(s, b, 4).db, a, p);
  }

  lemma RetiredRow(cs: Rows, c: CheckpointId)
    requires c in cs && cs[c].lifecycle == L.Available && cs[c].protection == Unprotected
    ensures RetiredRows(cs, c) == cs[c := At(cs[c], []).(lifecycle := L.Retired)]
  {}

  lemma NoMarker(marks: set<Marker>, m: Marker)
    requires Journal.NoMarks(marks)
    ensures m !in marks
  {
    match m {
      case CaptureReserved => case CaptureSealed => case CapturePersisted => case DbCommitted => case ResumeDone =>
      case RestoreReserved => case Provisioned => case ComponentsRestored => case GenerationCommitted => case Resumed =>
      case AuthorityTransferred =>
    }
  }

  lemma UnusedIsFresh(s: Sys, a: AttemptId)
    requires Journal.Inv(s) && s.ops == map[] && a !in s.db.attempts && a !in s.db.reservations
    ensures FreshAttempt(s, a)
  {
    assert Journal.At(s, a);
    forall m ensures (m, a) !in s.db.journal { NoMarker(Journal.MarksOf(s.db, a), m); }
  }

  // ---------------- the race as one run ----------------

  ghost predicate Reached(s: Sys) {
    exists events :: Run(EmptySys, events) == s
  }

  lemma ReachedByStep(s: Sys, e: Event)
    requires Reached(s)
    ensures Reached(Step(s, e))
  {
    hide Step;
    var events :| Run(EmptySys, events) == s;
    assert (events + [e])[..|events|] == events;
    assert Run(EmptySys, events + [e]) == Step(s, e);
  }

  lemma {:induction false} ReachedByDrive(s: Sys, a: AttemptId, n: nat)
    requires Reached(s)
    ensures Reached(Drive(s, a, n))
    decreases n
  {
    if n > 0 {
      ReachedByStep(s, Advance(a, GOOD));
      ReachedByDrive(Step(s, Advance(a, GOOD)), a, n - 1);
    }
    hide Step;
  }

  // With requests running concurrently, some run ends with a checkpoint under restore
  // that has no location left.
  lemma RestoredFromNothing()
    ensures exists events: seq<Event>, c ::
              c in Run(EmptySys, events).db.checkpoints
                && !Availability.Stocked(Run(EmptySys, events).db.checkpoints[c])
  {
    var events, p := AtTheCommit();
    var s := Run(EmptySys, events);
    CaptureFinishes(s, p);
    var s1 := Drive(s, 0, 6);
    assert Reached(s);
    hide Run, Step, Drive, On, Reached, Idle, Availability.Stocked;
    ReachedByDrive(s, 0, 6);
    ReachedIsSound(s1);
    RaceFrom(s1, p.checkpoint, Location(p.node, p.path, true), p.node);
    var a, b, rp :| var started :=
      Step(Step(Step(s1, BeginRestore(a, rp)), Advance(a, GOOD)), BeginRetire(b, p.checkpoint));
                    var t := Drive(Drive(started, b, 4), a, 5);
                    p.checkpoint in t.db.checkpoints && !Availability.Stocked(t.db.checkpoints[p.checkpoint]);
    var s2 := Step(s1, BeginRestore(a, rp));
    var s3 := Step(s2, Advance(a, GOOD));
    var s4 := Step(s3, BeginRetire(b, p.checkpoint));
    ReachedByStep(s1, BeginRestore(a, rp));
    ReachedByStep(s2, Advance(a, GOOD));
    ReachedByStep(s3, BeginRetire(b, p.checkpoint));
    ReachedByDrive(s4, b, 4);
    ReachedByDrive(Drive(s4, b, 4), a, 5);
    var t := Drive(Drive(s4, b, 4), a, 5);
    var all := RunTo(t);
  }

  lemma RunTo(t: Sys) returns (events: seq<Event>)
    requires Reached(t)
    ensures Run(EmptySys, events) == t
  {
    events :| Run(EmptySys, events) == t;
  }

  lemma ReachedIsSound(s: Sys)
    requires Reached(s)
    ensures Anchors.Inv(s)
  {
    var events :| Run(EmptySys, events) == s;
    Anchors.EmptyInv();
    Anchors.RunKeepsInv(EmptySys, events);
  }
}
