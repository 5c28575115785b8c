// Runs from the empty store that reach what the equivalences about chains, restores and
// directories call exceptions.  All but the last have one request at a time.
module ReachableRuns {
  import opened Wrappers
  import opened Tables
  import opened Operations
  import opened Recovery
  import opened Restart
  import opened Progress
  import opened RestoreProgress
  import opened Counterexamples
  import Anchors
  import Availability
  import Chain
  import CrashAtomicity
  import Fencing
  import InterruptedRecovery
  import Journal
  import RestoreStates
  import Steps
  import L = Lifecycle

  ghost predicate ReachedAlone(s: Sys) {
    exists events :: Availability.OneAtATime(EmptySys, events) && Run(EmptySys, events) == s
  }

  lemma AloneByStep(s: Sys, e: Event)
    requires ReachedAlone(s) && (Availability.Begins(e) ==> s.ops == map[])
    ensures ReachedAlone(Step(s, e))
  {
    hide Step;
    var events :| Availability.OneAtATime(EmptySys, events) && Run(EmptySys, events) == s;
    assert (events + [e])[..|events|] == events;
    assert Run(EmptySys, events + [e]) == Step(s, e);
  }

  lemma {:induction false} AloneByDrive(s: Sys, a: AttemptId, n: nat)
    requires ReachedAlone(s)
    ensures ReachedAlone(Drive(s, a, n))
    decreases n
  {
    if n > 0 {
      AloneByStep(s, Advance(a, GOOD));
      hide Step, ReachedAlone;
      AloneByDrive(Step(s, Advance(a, GOOD)), a, n - 1);
    }
  }

  lemma AloneIsSound(s: Sys)
    requires ReachedAlone(s)
    ensures Anchors.Inv(s) && CrashAtomicity.DurableInv(s)
  {
    var events :| Availability.OneAtATime(EmptySys, events) && Run(EmptySys, events) == s;
    CrashAtomicity.Reachable(events);
  }

  lemma AloneIsFenced(s: Sys, w: WorkloadId)
    requires ReachedAlone(s) && w in s.db.workloads && s.db.workloads[w].activeNode.Some?
    ensures s.db.workloads[w].fenceToken.Some?
  {
    var events :| Availability.OneAtATime(EmptySys, events) && Run(EmptySys, events) == s;
    Anchors.EmptyInv();
    Fencing.RunKeepsInv(EmptySys, events);
    assert Fencing.FencedRow(s, w);
  }

  // ---------------- reservations lapse ----------------

  ghost predicate NoneHeld(db: Db) {
    forall r :: r in db.reservations ==> db.reservations[r].state != Held
  }

  // Some time is late enough for every reservation to have lapsed.
  lemma {:induction false} TimeToLapse(rs: map<AttemptId, Reservation>) returns (before: nat)
    ensures forall r :: r in rs ==> rs[r].expiresAt < before
    decreases |rs|
  {
    if rs == map[] { return 0; }
    var r :| r in rs;
    var rest := TimeToLapse(rs - {r});
    before := if rs[r].expiresAt < rest then rest else rs[r].expiresAt + 1;
    forall k | k in rs ensures rs[k].expiresAt < before {
      if k != r { assert k in (rs - {r}).Keys && (rs - {r})[k] == rs[k]; }
    }
  }

  lemma Lapses(s: Sys, before: nat)
    ensures Step(s, ExpireReservations(before)) == s.(db := ReservationsExpire(s.db, before))
  {}

  // A crash, and every reservation lapses: no request is live, all rows are as before.
  lemma Restarts(s: Sys) returns (before: nat)
    requires ReachedAlone(s)
    ensures var t := Step(Step(s, Crash), ExpireReservations(before));
            ReachedAlone(t) && t.ops == map[] && NoneHeld(t.db) && t.promoted == s.promoted
            && t.db == ReservationsExpire(s.db, before)
  {
    before := TimeToLapse(s.db.reservations);
    AloneByStep(s, Crash);
    AloneByStep(Step(s, Crash), ExpireReservations(before));
    hide ReachedAlone;
    assert Step(s, Crash) == s.(ops := map[]);
    Lapses(s.(ops := map[]), before);
    assert NoneHeld(ReservationsExpire(s.db, before));
  }

  // ---------------- one committed checkpoint ----------------

  // Checkpoint c, available on `node`, is the only one; nothing is live or reserved.
  ghost predicate Settled(s: Sys, c: CheckpointId, l: Location, node: NodeName) {
    Idle(s, c, l, node) && NoneHeld(s.db) && s.db.checkpoints.Keys == {c} && l.node == node
    && s.db.checkpoints[c].supersedes == None && s.db.checkpoints[c].supersededBy == None
  }

  lemma LoneCommit(cs: Rows, c: CheckpointId)
    requires cs.Keys == {c}
    ensures CommitRows(cs, c).Keys == {c}
    ensures CommitRows(cs, c)[c].supersedes == None && CommitRows(cs, c)[c].supersededBy == None
  {}

  lemma LapsedIsIdle(s: Sys, c: CheckpointId, l: Location, node: NodeName, before: nat)
    requires Idle(s, c, l, node)
    ensures Idle(s.(db := ReservationsExpire(s.db, before)), c, l, node)
  {}

  lemma FinishedCapture() returns (s: Sys, c: CheckpointId, l: Location, node: NodeName)
    ensures ReachedAlone(s) && Idle(s, c, l, node) && CapturesOnly(s) && s.db.checkpoints.Keys == {c} && l.node == node
    ensures s.db.checkpoints[c].supersedes == None && s.db.checkpoints[c].supersededBy == None
  {
    var events, p := AtTheCommit();
    var s0 := Run(EmptySys, events);
    assert ReachedAlone(s0);
    c, l, node := p.checkpoint, Location(p.node, p.path, true), p.node;
    hide Run, Step, Drive, On, ReachedAlone, Idle, Anchors.Inv, CrashAtomicity.DurableInv, CapturesOnly, CommitRows;
    AloneIsSound(s0);
    CaptureFinishes(s0, p);
    LoneCommit(s0.db.checkpoints, c);
    s := Drive(s0, 0, 6);
    DriveKeepsCaptures(s0, 0, 6);
    AloneByDrive(s0, 0, 6);
  }

  lemma OneCheckpoint() returns (s: Sys, c: CheckpointId, l: Location, node: NodeName)
    ensures ReachedAlone(s) && Settled(s, c, l, node) && CapturesOnly(s)
  {
    hide Step, ReachedAlone, Idle;
    var r;
    r, c, l, node := FinishedCapture();
    var before := Restarts(r);
    s := Step(Step(r, Crash), ExpireReservations(before));
    IdleIsStill(r, c, l, node);
    LapsedIsIdle(r, c, l, node, before);
    assert s.db.checkpoints == r.db.checkpoints;
    SameIdle(r.(db := ReservationsExpire(r.db, before)), s, c, l, node);
  }

  lemma IdleIsStill(s: Sys, c: CheckpointId, l: Location, node: NodeName)
    requires Idle(s, c, l, node)
    ensures s.ops == map[]
  {}

  lemma SameIdle(s: Sys, t: Sys, c: CheckpointId, l: Location, node: NodeName)
    requires Idle(s, c, l, node) && t.ops == s.ops && t.db == s.db
    ensures Idle(t, c, l, node)
  {}

  // ---------------- another capture up to its commit ----------------

  lemma CaptureOpens(s: Sys, a: AttemptId, p: CapturePlan)
    requires s.ops == map[] && NoneHeld(s.db) && FreshAttempt(s, a) && FreshCheckpoint(s, p.checkpoint)
             && p.digest != ""
    requires p.workload in s.db.workloads && s.db.workloads[p.workload].generation == p.workloadGeneration
    requires s.db.workloads[p.workload].activeNode == Some(p.node) && s.db.workloads[p.workload].fenceToken.Some?
    ensures Step(s, BeginCapture(a, p)) == s.(ops := map[a := Capture(CReadGeneration, p, None)])
    ensures On(Step(s, BeginCapture(a, p)), a, CReadGeneration, p)
  {}

  lemma FreshPlan(s: Sys, w: WorkloadId, node: NodeName) returns (a: AttemptId, p: CapturePlan)
    requires ReachedAlone(s) && s.ops == map[] && NoneHeld(s.db) && w in s.db.workloads
             && s.db.workloads[w].activeNode == Some(node)
    ensures var s1 := Step(s, BeginCapture(a, p));
            s1.db == s.db && s1.ops.Keys == {a} && ReachedAlone(s1) && On(s1, a, CReadGeneration, p)
    ensures p.workload == w && p.checkpoint !in s.db.checkpoints
  {
    AloneIsSound(s);
    AloneIsFenced(s, w);
    a := FreshNat(s.db.attempts.Keys + s.db.reservations.Keys);
    var c := FreshNat(s.db.checkpoints.Keys + set b | b in s.db.attempts :: s.db.attempts[b].checkpoint);
    p := CapturePlan(w, c, node, s.db.workloads[w].generation, 0, Exact, Image([], 0, 0), "digest", "path", Unprotected,
      0);
    hide Anchors.Inv, CrashAtomicity.DurableInv, Step, On, ReachedAlone, FreshAttempt;
    UnusedIsFresh(s, a);
    assert FreshCheckpoint(s, c);
    CaptureOpens(s, a, p);
    AloneByStep(s, BeginCapture(a, p));
  }

  lemma CaptureOnto(s: Sys, w: WorkloadId, node: NodeName) returns (t: Sys, a: AttemptId, p: CapturePlan)
    requires ReachedAlone(s) && s.ops == map[] && NoneHeld(s.db) && w in s.db.workloads
             && s.db.workloads[w].activeNode == Some(node)
    ensures ReachedAlone(t) && On(t, a, CCommit, p) && t.ops.Keys == {a}
    ensures p.workload == w && p.checkpoint !in s.db.checkpoints
            && t.db.checkpoints - {p.checkpoint} == s.db.checkpoints
    ensures p.generation == MaxGeneration(s.db.checkpoints, w) + 1
  {
    hide Anchors.Inv, CrashAtomicity.DurableInv, Step, On, ReachedAlone, Drive, CaptureCommit, NoneHeld;
    var p0: CapturePlan;
    a, p0 := FreshPlan(s, w, node);
    var s1 := Step(s, BeginCapture(a, p0));
    var n := CaptureReachesItsCommit(s1, a, p0);
    p := p0.(generation := MaxGeneration(s1.db.checkpoints, w) + 1);
    t := Drive(s1, a, n);
    AloneByDrive(s1, a, n);
    AloneIsSound(s1);
    AloneIsSound(t);
    DriveStartsNothing(s1, a, n);
    OnIsCapture(s1, a, CReadGeneration, p0);
    OnIsCapture(t, a, CCommit, p);
    CommitIsAhead(t, a, p);
    CaptureTouchesOwnRow(s1, a, n);
    assert s1.db.checkpoints - {p.checkpoint} == s.db.checkpoints;
  }

  lemma CommitIsAhead(s: Sys, a: AttemptId, p: CapturePlan)
    requires Journal.Inv(s) && On(s, a, CCommit, p)
    ensures Uncommitted(s, a)
  {
    assert Journal.At(s, a);
    assert DbCommitted !in Journal.MarksOf(s.db, a);
  }

  // ---------------- a commit beside a checkpoint under restore ----------------

  // A restore request on the only checkpoint, past its validation.
  lemma RestoreIsOpened(s: Sys, c: CheckpointId, l: Location, node: NodeName)
    returns (t: Sys, a: AttemptId, p: RestorePlan)
    requires ReachedAlone(s) && Settled(s, c, l, node)
    ensures ReachedAlone(t) && t == s.(ops := map[a := Restore(RReserve, p, None, 0, false)], tokens := s.tokens + {""})
    ensures a !in s.db.reservations && a !in s.db.attempts && FreshAttempt(s, a) && p.checkpoint == c
  {
    AloneIsSound(s);
    a := FreshNat(s.db.attempts.Keys + s.db.reservations.Keys);
    p := RestorePlan(s.db.checkpoints[c].workload, c, node, "", false, false, true, 0);
    hide Step, ReachedAlone, FreshAttempt, Anchors.Inv, CrashAtomicity.DurableInv;
    UnusedIsFresh(s, a);
    RestoreOpens(s, c, l, node, a, p);
    AloneByStep(s, BeginRestore(a, p));
    AloneByStep(Step(s, BeginRestore(a, p)), Advance(a, GOOD));
    t := Step(Step(s, BeginRestore(a, p)), Advance(a, GOOD));
  }

  // A restore of the only checkpoint, up to where it has taken the row.
  lemma RestoreTakesIt(s: Sys, c: CheckpointId, l: Location, node: NodeName)
    returns (t: Sys, a: AttemptId, p: RestorePlan)
    requires ReachedAlone(s) && Settled(s, c, l, node)
    ensures ReachedAlone(t) && t.ops == map[a := Restore(RLogProvisioned, p, None, 0, false)] && p.checkpoint == c
    ensures a !in s.db.reservations && !Reserved(s.db, RestoreOf(c)) && c in s.db.checkpoints
    ensures t.db == PendingDb(s.db, a, p)
    ensures a !in s.db.attempts && FreshAttempt(s, a)
  {
    hide Drive, ReachedAlone, PendingDb, FreshAttempt, Reserved;
    var r;
    r, a, p := RestoreIsOpened(s, c, l, node);
    t := Drive(r, a, 5);
    AloneByDrive(r, a, 5);
    RestoreTakesRow(r, a, p);
  }

  // Row c is under restore, and row d, a later checkpoint of its workload, is complete
  // and not committed; there are no others.
  ghost predicate Beside(cs: Rows, c: CheckpointId, d: CheckpointId) {
    c != d && cs.Keys == {c, d} && cs[c].workload == cs[d].workload && cs[c].generation < cs[d].generation
    && cs[c].lifecycle.IsLinked() && cs[c].supersedes == None && cs[c].supersededBy == None
    && cs[d].lifecycle == L.Persisting
  }

  lemma BesideIsChained(cs: Rows, c: CheckpointId, d: CheckpointId)
    requires Beside(cs, c, d)
    ensures Chain.AllChained(cs) && Chain.NoneRetired(cs)
    ensures NearestBelow(cs, L.LINKED, cs[d].workload, cs[d].generation) == Some(c)
    ensures NearestAbove(cs, L.LINKED, cs[d].workload, cs[d].generation) == None
  {
    assert IsNearestBelow(cs, L.LINKED, cs[d].workload, cs[d].generation, c);
    assert forall x :: x in cs ==> x in cs.Keys;
  }

  lemma CommitsNow(s: Sys, a: AttemptId, p: CapturePlan)
    requires On(s, a, CCommit, p)
    ensures Steps.CallOf(s, Advance(a, GOOD)) == Some(CommitCapture(p.checkpoint, a))
    ensures Chain.CommitsCapture(s, Advance(a, GOOD)) && !Chain.Retires(s, Advance(a, GOOD))
    ensures p.checkpoint in s.db.checkpoints && s.db.checkpoints[p.checkpoint] == PersistedRow(p, a)
  {
    CommitIsReady(s, a, p);
    hide CaptureCommit;
  }

  // Some run commits a capture while an older checkpoint of its workload is under
  // restore, and the chain, whole until then, is broken.
  lemma CommitBesideRestoreBreaksChain()
    ensures exists events: seq<Event>, e ::
              var s := Run(EmptySys, events);
              Availability.OneAtATime(EmptySys, events) && Chain.AllChained(s.db.checkpoints)
                && Chain.NoneRetired(s.db.checkpoints)
              && Chain.CommitsCapture(s, e) && !Chain.NeighboursSettled(s.db.checkpoints, Steps.CallOf(s, e).value.c)
              && !Chain.AllChained(Step(s, e).db.checkpoints)
  {
    hide *;
    var t, a, p, c := BesideRestore();
    AloneIsSound(t);
    CommitsNow(t, a, p);
    BesideIsChained(t.db.checkpoints, c, p.checkpoint);
    Unsettled(t.db.checkpoints, c, p.checkpoint);
    Chain.StepKeepsChain(t, Advance(a, GOOD));
    var events := AloneRun(t);
  }

  lemma Unsettled(cs: Rows, c: CheckpointId, d: CheckpointId)
    requires Beside(cs, c, d) && MidRestore(cs[c])
    ensures !Chain.NeighboursSettled(cs, d)
  {
    BesideIsChained(cs, c, d);
  }

  lemma AloneRun(s: Sys) returns (events: seq<Event>)
    requires ReachedAlone(s)
    ensures Availability.OneAtATime(EmptySys, events) && Run(EmptySys, events) == s
  {
    events :| Availability.OneAtATime(EmptySys, events) && Run(EmptySys, events) == s;
  }

  // A capture at its commit, the only other checkpoint under restore since before a
  // crash.
  lemma BesideRestore() returns (t: Sys, a: AttemptId, p: CapturePlan, c: CheckpointId)
    ensures ReachedAlone(t) && On(t, a, CCommit, p) && Beside(t.db.checkpoints, c, p.checkpoint)
            && MidRestore(t.db.checkpoints[c])
  {
    hide ReachedAlone, Step, Drive, On, PendingDb;
    var s, l, node;
    s, c, l, node := OneCheckpoint();
    var r, b, rp := RestoreTakesIt(s, c, l, node);
    PendingRow(s.db, b, rp);
    var before := Restarts(r);
    var u := Step(Step(r, Crash), ExpireReservations(before));
    var w := s.db.checkpoints[c].workload;
    t, a, p := CaptureOnto(u, w, node);
    CommitsNow(t, a, p);
    RowsOf(u.db.checkpoints, t.db.checkpoints, p.checkpoint);
  }

  lemma RowsOf(cs: Rows, cs': Rows, d: CheckpointId)
    requires d !in cs && cs' - {d} == cs && d in cs'
    ensures cs'.Keys == cs.Keys + {d} && forall c :: c in cs ==> cs'[c] == cs[c]
  {
    assert (cs' - {d}).Keys == cs'.Keys - {d};
    forall c | c in cs ensures cs'[c] == cs[c] { assert c in cs' - {d} && (cs' - {d})[c] == cs'[c]; }
  }

  // ---------------- a retirement that leaves a link behind ----------------

  // Committing the later row beside an available one links the two.
  lemma CommitLinksBoth(cs: Rows, c: CheckpointId, d: CheckpointId)
    requires Beside(cs, c, d) && cs[c].lifecycle == L.Available
    ensures var cs' := CommitRows(cs, d);
            cs'.Keys == cs.Keys && cs'[c] == cs[c].(supersededBy := Some(d))
            && cs'[d].lifecycle == L.Available && cs'[d].supersedes == Some(c)
  {
    Chain.CommitSplices(cs, d);
    assert IsNearestBelow(cs, L.VISIBLE, cs[d].workload, cs[d].generation, c);
    assert forall x :: x in cs ==> x in cs.Keys;
  }

  // Two available checkpoints of one workload, linked; nothing live or reserved.
  lemma TwoCheckpoints() returns (s: Sys, c: CheckpointId, d: CheckpointId, l: Location)
    ensures ReachedAlone(s) && s.ops == map[] && NoneHeld(s.db) && c != d && s.db.checkpoints.Keys == {c, d}
    ensures var cs := s.db.checkpoints;
            && cs[c].lifecycle == L.Available && cs[d].lifecycle == L.Available && cs[c].protection == Unprotected
            && cs[c].locations == [l]
            && cs[d].supersedes == Some(c) && cs[c].supersededBy == Some(d)
  {
    hide ReachedAlone, Step, Drive, On, CaptureCommit, CommitRows;
    var r, node;
    r, c, l, node := OneCheckpoint();
    var t, a, p := CaptureOnto(r, r.db.checkpoints[c].workload, node);
    d := p.checkpoint;
    CommitsNow(t, a, p);
    RowsOf(r.db.checkpoints, t.db.checkpoints, d);
    CommitLinksBoth(t.db.checkpoints, c, d);
    CommittedNow(t, a, p);
    var t1 := Step(t, Advance(a, GOOD));
    AloneByStep(t, Advance(a, GOOD));
    var before := Restarts(t1);
    s := Step(Step(t1, Crash), ExpireReservations(before));
  }

  lemma CommittedNow(s: Sys, a: AttemptId, p: CapturePlan)
    requires On(s, a, CCommit, p)
    ensures p.checkpoint in s.db.checkpoints
    ensures Step(s, Advance(a, GOOD)).db.checkpoints == CommitRows(s.db.checkpoints, p.checkpoint)
  {
    CommitIsReady(s, a, p);
    Steps.StepDb(s, Advance(a, GOOD));
    CommitsNow(s, a, p);
    CommitReplies(s.db, p.checkpoint, a);
    CommittedRows(s.db, p.checkpoint, a);
    hide Step, CaptureCommit, Exec, On, Steps.CallOf, CommitRows;
  }

  lemma RetirementOpens(s: Sys, c: CheckpointId, l: Location) returns (b: AttemptId)
    requires ReachedAlone(s) && s.ops == map[] && NoneHeld(s.db) && c in s.db.checkpoints
    requires s.db.checkpoints[c].protection == Unprotected && s.db.checkpoints[c].locations == [l]
    ensures var t := Step(s, BeginRetire(b, c));
            ReachedAlone(t) && t == s.(ops := map[b := Retirement(TReserved, c, Unprotected, [l])])
    ensures !Reserved(s.db, RestoreOf(c))
  {
    AloneIsSound(s);
    b := FreshNat(s.db.attempts.Keys + s.db.reservations.Keys);
    UnusedIsFresh(s, b);
    assert Step(s, BeginRetire(b, c)) == s.(ops := map[b := Retirement(TReserved, c, Unprotected, [l])]);
    hide Step, ReachedAlone, Anchors.Inv, CrashAtomicity.DurableInv;
    AloneByStep(s, BeginRetire(b, c));
  }

  // Some run retires a checkpoint with a neighbour, and the neighbour goes on naming
  // the retired checkpoint as the one it supersedes.
  lemma RetirementLeavesDanglingLink()
    ensures exists events: seq<Event>, c, d ::
              var cs := Run(EmptySys, events).db.checkpoints;
              Availability.OneAtATime(EmptySys, events) && c in cs && d in cs && cs[c].lifecycle == L.Retired
              && cs[d].lifecycle.IsLinked() && cs[d].supersedes == Some(c) && !Chain.Chained(cs, d)
  {
    hide ReachedAlone, Step, Drive, RetiredRows, Run, Availability.OneAtATime, Chain.Chained;
    var s, c, d, l := TwoCheckpoints();
    var b := RetirementOpens(s, c, l);
    var s1 := Step(s, BeginRetire(b, c));
    RetirementRuns(s1, b, c, [l]);
    RetiredRow(s.db.checkpoints, c);
    AloneByDrive(s1, b, 4);
    var t := Drive(s1, b, 4);
    Chain.DanglingBreaks(t.db.checkpoints, c, d);
    var events := AloneRun(t);
    assert c in t.db.checkpoints && d in t.db.checkpoints;
  }

  // ---------------- a recovery whose commit call fails ----------------

  // Attempt 0 is recovered up to its commit; that call fails, and recovery goes on.
  const READING := [BeginRecovery(0)] + Turns(0, 3)
  const DROPPING := READING + [Advance(0, FAULT)] + [Advance(0, GOOD)]

  lemma RecoveryReads(s: Sys, p: CapturePlan)
    requires On(s, 0, CCommit, p) && Journal.Inv(s)
    ensures Run(Step(s, Crash), READING) ==
            s.(ops := map[0 := RecoverCapture(KCommit, p.checkpoint, true, Some(L.Persisting), Active)])
  {
    PersistedAtCommit(s, p);
    PlannedAtCommit(s, p);
    hide Step, On, Journal.Inv, Run, Drive;
    var s1 := s.(ops := map[0 := RecoverCapture(KPersisted, p.checkpoint, false, None, Active)]);
    RecoveryOpens(s, p.checkpoint);
    FirstStep(Step(s, Crash), BeginRecovery(0), Turns(0, 3));
    DriveIsARun(s1, 0, 3);
    ReadsEvidence(s1, p.checkpoint);
  }

  lemma PlannedAtCommit(s: Sys, p: CapturePlan)
    requires On(s, 0, CCommit, p) && Journal.Inv(s)
    ensures 0 in s.db.attempts && s.db.attempts[0].kind == CaptureKind && s.db.attempts[0].checkpoint == p.checkpoint
    ensures p.checkpoint in s.db.checkpoints && s.db.checkpoints[p.checkpoint].lifecycle == L.Persisting
  {
    assert Journal.At(s, 0);
  }

  lemma RecoveryOpens(s: Sys, c: CheckpointId)
    requires 0 in s.db.attempts && s.db.attempts[0].state == Active && s.db.attempts[0].kind == CaptureKind
             && s.db.attempts[0].checkpoint == c
    ensures Step(Step(s, Crash), BeginRecovery(0)) ==
            s.(ops := map[0 := RecoverCapture(KPersisted, c, false, None, Active)])
  {}

  lemma ReadsEvidence(s1: Sys, c: CheckpointId)
    requires s1.ops == map[0 := RecoverCapture(KPersisted, c, false, None, Active)]
    requires JournalHas(s1.db, CapturePersisted, 0) && !JournalHas(s1.db, DbCommitted, 0)
    requires c in s1.db.checkpoints && s1.db.checkpoints[c].lifecycle == L.Persisting
    ensures Drive(s1, 0, 3) == s1.(ops := map[0 := RecoverCapture(KCommit, c, true, Some(L.Persisting), Active)])
  {
    hide Drive, Step, JournalHas;
    var s2 := s1.(ops := map[0 := RecoverCapture(KCommitted, c, true, None, Active)]);
    OneCall(s1, 0, ReadMarker(CapturePersisted, 0), s1.db, Flag(true), s2.ops[0]);
    var s3 := s1.(ops := map[0 := RecoverCapture(KRead, c, true, None, Active)]);
    OneCall(s2, 0, ReadMarker(DbCommitted, 0), s1.db, Flag(false), s3.ops[0]);
    var s4 := s1.(ops := map[0 := RecoverCapture(KCommit, c, true, Some(L.Persisting), Active)]);
    OneCall(s3, 0, ReadCheckpoint(c), s1.db, Row(Some(s1.db.checkpoints[c])), s4.ops[0]);
    assert Drive(s1, 0, 1) == s2 && Drive(s2, 0, 1) == s3 && Drive(s3, 0, 1) == s4;
    DriveAppends(s1, 0, 1, 1);
    DriveAppends(s1, 0, 2, 1);
  }

  lemma RecoveryRejects(s: Sys, c: CheckpointId)
    requires s.ops == map[0 := RecoverCapture(KCommit, c, true, Some(L.Persisting), Active)]
    ensures InterruptedRecovery.Rejects(Step(s, Advance(0, FAULT)), Advance(0, GOOD), 0)
  {}

  lemma DroppingRejects(s: Sys, c: CheckpointId)
    requires Run(s, READING).ops == map[0 := RecoverCapture(KCommit, c, true, Some(L.Persisting), Active)]
    ensures InterruptedRecovery.RejectedIn(s, DROPPING, 0)
  {
    var before := READING + [Advance(0, FAULT)];
    assert DROPPING[..|DROPPING| - 1] == before && before[..|before| - 1] == READING;
    assert Run(s, before) == Step(Run(s, READING), Advance(0, FAULT)) by { hide Step; }
    hide Step, Run;
    RecoveryRejects(Run(s, READING), c);
  }

  // Some run with one request at a time crashes at the commit of a persisted capture,
  // and one failing store call of its recovery makes that reject the capture for good.
  lemma RecoveryDropsPersisted()
    ensures exists events: seq<Event>, a, restarts: seq<Event> ::
              && InterruptedRecovery.PersistedAlone(events, a)
              && (forall e :: e in restarts ==> InterruptedRecovery.NoRequest(e))
              && InterruptedRecovery.RejectedIn(Step(Run(EmptySys, events), Crash), restarts, a)
  {
    hide Run, Step, On, Drive, Availability.OneAtATime, Anchors.Inv, Journal.Inv, CrashAtomicity.DurableInv,
      InterruptedRecovery.Rejects;
    var events, p := AtTheCommit();
    var s := Run(EmptySys, events);
    CrashAtomicity.Reachable(events);
    PersistedAtCommit(s, p);
    OnIsCapture(s, 0, CCommit, p);
    assert InterruptedRecovery.PersistedAlone(events, 0);
    RecoveryReads(s, p);
    DroppingRejects(Step(s, Crash), p.checkpoint);
  }

  // ---------------- a directory deleted under a live row ----------------

  // A RESTORED checkpoint, unprotected, on one node, with nothing live or reserved.
  lemma OneRestored() returns (s: Sys, c: CheckpointId, l: Location)
    ensures ReachedAlone(s) && s.ops == map[] && NoneHeld(s.db) && RestoreStates.InState(s, c, L.Restored)
    ensures s.db.checkpoints[c].protection == Unprotected && s.db.checkpoints[c].locations == [l]
  {
    hide ReachedAlone, Step, Drive, PendingDb;
    var r, node;
    r, c, l, node := OneCheckpoint();
    var t, a, p := RestoreTakesIt(r, c, l, node);
    PendingRow(r.db, a, p);
    RestoreCommits(t, a, p);
    var t1 := Drive(t, a, 7);
    AloneByDrive(t, a, 7);
    var before := Restarts(t1);
    s := Step(Step(t1, Crash), ExpireReservations(before));
  }

  // Some run ends with a RESTORED checkpoint, visible to the supersession queries, that
  // records a replica on a node a retirement has made delete it.
  lemma RestoredWithoutDirectory()
    ensures exists events: seq<Event>, c, l: Location ::
              var s := Run(EmptySys, events);
              Availability.OneAtATime(EmptySys, events) && RestoreStates.InState(s, c, L.Restored)
                && L.Restored in L.VISIBLE
              && s.db.checkpoints[c].locations == [l] && (l.node, c) !in s.promoted && s.ops == map[]
  {
    hide ReachedAlone, Step, Drive, Run, Availability.OneAtATime;
    var s, c, l := OneRestored();
    var b := RetirementOpens(s, c, l);
    var s1 := Step(s, BeginRetire(b, c));
    RetirementRuns(s1, b, c, [l]);
    AloneByDrive(s1, b, 4);
    var t := Drive(s1, b, 4);
    assert RetiredRows(s.db.checkpoints, c) == s.db.checkpoints;
    assert t.ops == map[];
    assert [l][0] == l && (l.node, c) in DirectoriesOf([l], c);
    var events := AloneRun(t);
  }

  // Some run ends with an available checkpoint in the same condition: the coordinator
  // crashes between the deletion and the lifecycle change.
  lemma AvailableWithoutDirectory()
    ensures exists events: seq<Event>, c, node ::
              Availability.OneAtATime(EmptySys, events) && Phantom(Run(EmptySys, events), c, node)
  {
    hide ReachedAlone, Step, Drive, Run, Availability.OneAtATime, Phantom;
    var s, c, l, node := OneCheckpoint();
    var b := RetirementOpens(s, c, l);
    var s1 := Step(s, BeginRetire(b, c));
    RetirementDeletes(s1, b, c, l);
    var t := Drive(s1, b, 2);
    AloneByDrive(s1, b, 2);
    NowPhantom(s, t, c, l);
    var events := AloneRun(t);
  }

  lemma RetirementDeletes(s: Sys, b: AttemptId, c: CheckpointId, l: Location)
    requires b in s.ops && s.ops[b] == Retirement(TReserved, c, Unprotected, [l]) && !Reserved(s.db, RestoreOf(c))
    ensures Drive(s, b, 2).db == s.db && (l.node, c) !in Drive(s, b, 2).promoted
  {
    hide Drive, Step;
    var op1 := Retirement(TDelete, c, Unprotected, [l]);
    Goes(s, b, ReadReserved(c), s.db, Flag(false), op1, 2);
    var s1 := s.(ops := s.ops[b := op1]);
    OneOrder(s1, b, Discard(l.node, c), Retirement(TDelete, c, Unprotected, [l][1..]));
  }

  lemma NowPhantom(s: Sys, t: Sys, c: CheckpointId, l: Location)
    requires c in s.db.checkpoints && s.db.checkpoints[c].lifecycle == L.Available
             && s.db.checkpoints[c].locations == [l]
    requires t.db == s.db && (l.node, c) !in t.promoted
    ensures Phantom(t, c, l.node)
  {
    assert l in s.db.checkpoints[c].locations;
  }

  // ---------------- left under restore for good ----------------

  lemma PendingHasNoEvidence(s: Sys, a: AttemptId, p: RestorePlan)
    requires CapturesOnly(s) && FreshAttempt(s, a) && !Reserved(s.db, RestoreOf(p.checkpoint))
             && p.checkpoint in s.db.checkpoints
    ensures RestoreStates.NoEvidence(PendingDb(s.db, a, p), p.checkpoint)
    ensures a in PendingDb(s.db, a, p).attempts && PendingDb(s.db, a, p).attempts[a].checkpoint == p.checkpoint
    ensures PendingDb(s.db, a, p).attempts[a].kind != CaptureKind && PendingDb(s.db, a, p).attempts[a].state == Active
    ensures !JournalHas(PendingDb(s.db, a, p), ComponentsRestored, a)
            && !JournalHas(PendingDb(s.db, a, p), GenerationCommitted, a)
  {
    var db := PendingDb(s.db, a, p);
    forall b ensures !RestoreStates.Evidence(db, p.checkpoint, b) {
      if b == a { assert !JournalHas(db, ComponentsRestored, a); }
    }
  }

  lemma AbortedHasNoEvidence(db: Db, a: AttemptId, c: CheckpointId)
    requires a in db.attempts && db.attempts[a].kind != CaptureKind && db.attempts[a].checkpoint == c
    requires BeingRestored(db, c) && RestoreStates.NoEvidence(db, c)
    requires !JournalHas(db, ComponentsRestored, a) && !JournalHas(db, GenerationCommitted, a)
    ensures Reconciled(db, a).Ok?
    ensures var db' := Reconciled(db, a).value.0;
            BeingRestored(db', c) && RestoreStates.NoEvidence(db', c) && a in db'.attempts
              && db'.attempts[a].state == AttemptFailed
  {
    var db' := Close(db, a, AttemptFailed);
    assert Reconciled(db, a) == Ok((db', RestoreAborted));
    hide Reconciled;
    forall b ensures !RestoreStates.Evidence(db', c, b) { assert !RestoreStates.Evidence(db, c, b); }
  }

  // Recovering the ACTIVE attempt a fails it and leaves c under restore for good.
  ghost predicate LeftUnderRestore(s: Sys, a: AttemptId, c: CheckpointId) {
    var r := Recovered(s, a);
    a in s.db.attempts && s.db.attempts[a].state == Active
    && a in r.db.attempts && r.db.attempts[a].state == AttemptFailed
    && forall after: seq<Event> :: BeingRestored(Run(r, after).db, c)
  }

  // Some run has a restore crash right after it has taken its checkpoint.  Recovery
  // fails the attempt and leaves the checkpoint under restore, in every continuation.
  lemma ReconcileLeavesUnderRestore()
    ensures exists events: seq<Event>, a, c ::
              Availability.OneAtATime(EmptySys, events) && LeftUnderRestore(Run(EmptySys, events), a, c)
  {
    hide ReachedAlone, Step, Drive, PendingDb, FreshAttempt, Run, Recovered, Availability.OneAtATime,
      RestoreStates.NoEvidence,
      CapturesOnly, BeingRestored;
    var s, c, l, node := OneCheckpoint();
    var t, a, p := RestoreTakesIt(s, c, l, node);
    PendingHasNoEvidence(s, a, p);
    PendingRow(s.db, a, p);
    UnderRestoreNow(s.db, a, p);
    AbortedHasNoEvidence(t.db, a, c);
    RecoveryRefinesReconcile(t, a);
    var r := Recovered(t, a);
    RecoveredIsSound(t, a);
    forall after: seq<Event> ensures BeingRestored(Run(r, after).db, c) { StuckInEvery(r, after, c); }
    assert LeftUnderRestore(t, a, c);
    var events := AloneRun(t);
  }

  lemma UnderRestoreNow(db: Db, a: AttemptId, p: RestorePlan)
    requires a !in db.reservations && !Reserved(db, RestoreOf(p.checkpoint)) && p.checkpoint in db.checkpoints
    ensures BeingRestored(PendingDb(db, a, p), p.checkpoint)
  {
    PendingRow(db, a, p);
  }

  lemma RecoveredIsSound(s: Sys, a: AttemptId)
    requires ReachedAlone(s)
    ensures Anchors.Inv(Recovered(s, a))
  {
    AloneIsSound(s);
    RecoveredIsARun(s, a);
    Anchors.RunKeepsInv(s, [Crash, BeginRecovery(a)] + Turns(a, CALLS));
    hide *;
  }

  lemma StuckInEvery(r: Sys, after: seq<Event>, c: CheckpointId)
    requires Anchors.Inv(r) && r.ops == map[] && BeingRestored(r.db, c) && RestoreStates.NoEvidence(r.db, c)
    ensures BeingRestored(Run(r, after).db, c)
  {
    assert RestoreStates.Abandoned(r, c);
    RestoreStates.RunKeepsAbandoned(r, after, c);
    hide Run;
  }

  // ---------------- RESTORED and yet not final ----------------

  lemma AloneIsReached(s: Sys)
    requires ReachedAlone(s)
    ensures Reached(s)
  {
    var events := AloneRun(s);
  }

  // Two restore requests, both past their validation.
  lemma TwoRestoresOpen(s: Sys, c: CheckpointId, l: Location, node: NodeName)
    returns (t: Sys, a: AttemptId, b: AttemptId, p: RestorePlan)
    requires ReachedAlone(s) && Settled(s, c, l, node)
    ensures Reached(t) && a != b && t.db == s.db && p.checkpoint == c
    ensures t.ops == map[b := Restore(RReserve, p, None, 0, false), a := Restore(RReserve, p, None, 0, false)]
    ensures a !in s.db.reservations && b !in s.db.reservations
  {
    AloneIsSound(s);
    var used := s.db.attempts.Keys + s.db.reservations.Keys;
    a := FreshNat(used);
    b := FreshNat(used + {a});
    p := RestorePlan(s.db.checkpoints[c].workload, c, node, "", false, false, true, 0);
    AloneIsReached(s);
    hide Step, ReachedAlone, Reached, Anchors.Inv, CrashAtomicity.DurableInv, FreshAttempt;
    UnusedIsFresh(s, a);
    UnusedIsFresh(s, b);
    RestoreOpens(s, c, l, node, b, p);
    ReachedByStep(s, BeginRestore(b, p));
    ReachedByStep(Step(s, BeginRestore(b, p)), Advance(b, GOOD));
    var s2 := Step(Step(s, BeginRestore(b, p)), Advance(b, GOOD));
    SecondOpens(s, s2, c, l, node, a, b, p);
    var s3 := Step(s2, BeginRestore(a, p));
    ReachedByStep(s2, BeginRestore(a, p));
    ReachedByStep(s3, Advance(a, GOOD));
    t := Step(s3, Advance(a, GOOD));
    ChecksWorkload(s3, a, p);
    assert t.ops == map[b := Restore(RReserve, p, None, 0, false), a := Restore(RReserve, p, None, 0, false)];
  }

  lemma SecondOpens(s: Sys, s2: Sys, c: CheckpointId, l: Location, node: NodeName, a: AttemptId, b: AttemptId,
        p: RestorePlan)
    requires Idle(s, c, l, node) && FreshAttempt(s, a) && a != b
    requires s2 == s.(ops := map[b := Restore(RReserve, p, None, 0, false)], tokens := s.tokens + {""})
    requires p == RestorePlan(s.db.checkpoints[c].workload, c, node, "", false, false, true, 0)
    ensures Step(s2, BeginRestore(a, p)) == s2.(ops := s2.ops[a := Restore(RCheckWorkload, p, None, 0, false)])
  {
    assert FreshAttempt(s2, a);
    assert s2.tokens + {""} == s2.tokens;
  }

  // With concurrent requests, some run reaches RESTORED while another restore, which
  // has read the row before, is about to write it.
  lemma RestoredBesideLateWriter()
    ensures exists events: seq<Event>, c ::
              RestoreStates.InState(Run(EmptySys, events), c, L.Restored)
                && !RestoreStates.NoneWrites(Run(EmptySys, events), c)
  {
    hide ReachedAlone, Reached, Step, Drive, Run, PendingDb, StartedDb, Settled;
    var s, c, l, node := OneCheckpoint();
    var t, a, b, p := TwoRestoresOpen(s, c, l, node);
    var t1 := LateReader(s, t, a, b, p, c, l, node);
    RestoreTakesRow(t1, a, p);
    PendingRow(t1.db, a, p);
    var t2 := Drive(t1, a, 5);
    RestoreCommits(t2, a, p);
    var t3 := Drive(t2, a, 7);
    ReachedByDrive(t1, a, 5);
    ReachedByDrive(t2, a, 7);
    assert b in t3.ops && t3.ops[b] == t1.ops[b] && RestoreStates.Writes(t3.ops[b]);
    assert RestoreStates.InState(t3, c, L.Restored) && !RestoreStates.NoneWrites(t3, c);
    var events := RunTo(t3);
  }

  // One of them reserves, begins, and reads the row; then its reservation lapses.
  lemma LateReader(s: Sys, t: Sys, a: AttemptId, b: AttemptId, p: RestorePlan, c: CheckpointId, l: Location,
        node: NodeName)
    returns (u: Sys)
    requires Settled(s, c, l, node) && Reached(t) && a != b && t.db == s.db && p.checkpoint == c
    requires t.ops == map[b := Restore(RReserve, p, None, 0, false), a := Restore(RReserve, p, None, 0, false)]
    requires a !in s.db.reservations && b !in s.db.reservations
    ensures Reached(u) && u.db.checkpoints == s.db.checkpoints && u.db.workloads == s.db.workloads
    ensures NoneHeld(u.db) && a !in u.db.reservations
    ensures u.ops ==
            map[b := Restore(RPending, p, Some(L.Available), 0, false), a := Restore(RReserve, p, None, 0, false)]
    ensures c in s.db.checkpoints && s.db.checkpoints[c].lifecycle == L.Available
    ensures s.db.checkpoints[c].workload in s.db.workloads
    ensures !Reserved(u.db, RestoreOf(c))
  {
    hide Reached, Step, Drive, StartedDb;
    ReadsLate(t, b, p);
    var t1 := Drive(t, b, 4);
    ReachedByDrive(t, b, 4);
    StartedTables(t.db, b, p);
    var before := TimeToLapse(t1.db.reservations);
    ReachedByStep(t1, ExpireReservations(before));
    u := Step(t1, ExpireReservations(before));
    Lapses(t1, before);
    assert NoneHeld(u.db);
  }

  lemma ReadsLate(t: Sys, b: AttemptId, p: RestorePlan)
    requires b in t.ops && t.ops[b] == Restore(RReserve, p, None, 0, false)
    requires b !in t.db.reservations && !Reserved(t.db, RestoreOf(p.checkpoint))
    requires p.checkpoint in t.db.checkpoints && t.db.checkpoints[p.checkpoint].lifecycle == L.Available
    ensures Drive(t, b, 4) ==
            t.(db := StartedDb(t.db, b, p), ops := t.ops[b := Restore(RPending, p, Some(L.Available), 0, false)])
  {
    hide Step, Drive, Reserved;
    StartedTables(t.db, b, p);
    var t1 := t.(db := StartedDb(t.db, b, p), ops := t.ops[b := Restore(RPending, p, None, 0, false)]);
    RestoreStarts(t, b, p);
    DriveAppends(t, b, 3, 1);
    RestoreReads(t1, b, p);
  }

  lemma StartedTables(db: Db, a: AttemptId, p: RestorePlan)
    requires a !in db.reservations && !Reserved(db, RestoreOf(p.checkpoint))
    ensures StartedDb(db, a, p).checkpoints == db.checkpoints && StartedDb(db, a, p).workloads == db.workloads
    ensures StartedDb(db, a, p).reservations.Keys == db.reservations.Keys + {a}
  {}
}
