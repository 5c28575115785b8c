// The durable store: one object whose methods are the transactions of
// src/persistence.rs, each proved against its function on table contents.
module Persistence {
  import opened Wrappers
  import opened Tables
  import Operations
  import Chain
  import L = Lifecycle

  datatype Outcome = Fine | Failed(error: StoreError)

  class Store {
    var checkpoints: Rows
    var workloads: map<WorkloadId, Workload>
    var attempts: map<AttemptId, Attempt>
    var reservations: map<AttemptId, Reservation>
    var journal: set<(Marker, AttemptId)>
    var lineage: seq<LineageRow>

    ghost function Contents(): Db
      reads this
    {
      Db(checkpoints, workloads, attempts, reservations, journal, lineage)
    }

    // UNIQUE(workload_id, checkpoint_generation)
    ghost predicate Valid()
      reads this
    {
      UniqueGenerations(checkpoints)
    }

    constructor ()
      ensures Valid() && Contents() == EmptyDb
    {
      checkpoints, workloads, attempts, reservations := map[], map[], map[], map[];
      journal, lineage := {}, [];
    }

    // ---------------- queries ----------------

    // SELECT COALESCE(MAX(checkpoint_generation), 0)
    method CheckpointMaxGeneration(w: WorkloadId) returns (g: nat)
      ensures g == Operations.MaxGeneration(checkpoints, w)
    {
      g := 0;
      var left := checkpoints.Keys;
      while left != {}
        invariant left <= checkpoints.Keys
        invariant g == 0
                  || exists c <- checkpoints.Keys :: checkpoints[c].workload == w && checkpoints[c].generation == g
        invariant forall c <- checkpoints.Keys - left :: checkpoints[c].workload == w ==> checkpoints[c].generation <= g
        decreases |left|
      {
        var c :| c in left;
        if checkpoints[c].workload == w && checkpoints[c].generation > g { g := checkpoints[c].generation; }
        left := left - {c};
      }
      assert IsMaxGeneration(checkpoints, w, g);
    }

    // ... < g AND lifecycle IN (AVAILABLE, RESTORED) ORDER BY checkpoint_generation DESC LIMIT 1
    method PreviousOf(w: WorkloadId, g: nat) returns (r: Option<CheckpointId>)
      requires Valid()
      ensures r == NearestBelow(checkpoints, L.VISIBLE, w, g)
    {
      r := None;
      var left := checkpoints.Keys;
      while left != {}
        invariant left <= checkpoints.Keys
        invariant r.Some? ==> Below(checkpoints, L.VISIBLE, w, g, r.value)
        invariant forall d :: d !in left && Below(checkpoints, L.VISIBLE, w, g, d) ==>
                                r.Some? && checkpoints[d].generation <= checkpoints[r.value].generation
        decreases |left|
      {
        var c :| c in left;
        var row := checkpoints[c];
        if row.workload == w && row.generation < g && row.lifecycle in L.VISIBLE
           && (r.None? || checkpoints[r.value].generation < row.generation) {
          r := Some(c);
        }
        left := left - {c};
      }
      if r.Some? {
        Chain.BelowIsUnique(checkpoints, L.VISIBLE, w, g, r.value);
      }
    }

    // ... > g AND lifecycle IN (AVAILABLE, RESTORED) ORDER BY checkpoint_generation ASC LIMIT 1
    method NextOf(w: WorkloadId, g: nat) returns (r: Option<CheckpointId>)
      requires Valid()
      ensures r == NearestAbove(checkpoints, L.VISIBLE, w, g)
    {
      r := None;
      var left := checkpoints.Keys;
      while left != {}
        invariant left <= checkpoints.Keys
        invariant r.Some? ==> Above(checkpoints, L.VISIBLE, w, g, r.value)
        invariant forall d :: d !in left && Above(checkpoints, L.VISIBLE, w, g, d) ==>
                                r.Some? && checkpoints[r.value].generation <= checkpoints[d].generation
        decreases |left|
      {
        var c :| c in left;
        var row := checkpoints[c];
        if row.workload == w && row.generation > g && row.lifecycle in L.VISIBLE
           && (r.None? || row.generation < checkpoints[r.value].generation) {
          r := Some(c);
        }
        left := left - {c};
      }
      if r.Some? {
        Chain.AboveIsUnique(checkpoints, L.VISIBLE, w, g, r.value);
      }
    }

    // SELECT * FROM attempts WHERE state='ACTIVE'
    method ActiveAttempts() returns (keys: seq<AttemptId>)
      ensures forall a :: a in keys <==> a in attempts && attempts[a].state == Active
      ensures forall i, j :: 0 <= i < j < |keys| ==> keys[i] != keys[j]
    {
      keys := [];
      var left := attempts.Keys;
      while left != {}
        invariant left <= attempts.Keys
        invariant forall a :: a in keys <==> a in attempts && a !in left && attempts[a].state == Active
        invariant forall i, j :: 0 <= i < j < |keys| ==> keys[i] != keys[j]
        decreases |left|
      {
        var a :| a in left;
        if attempts[a].state == Active { keys := keys + [a]; }
        left := left - {a};
      }
    }

    // ---------------- checkpoint rows ----------------

    method CheckpointInsert(id: CheckpointId, row: Checkpoint) returns (r: Outcome)
      requires Valid()
      modifies `checkpoints
      ensures Valid()
      ensures match InsertTx(old(checkpoints), id, row)
              case Ok(rows) => r == Fine && checkpoints == rows
              case Err(e) => r == Failed(e) && checkpoints == old(checkpoints)
    {
      if id in checkpoints || Taken(checkpoints, row.workload, row.generation, id) { return Failed(InsertConflict); }
      checkpoints := checkpoints[id := row];
      r := Fine;
    }

    // Every update of one existing row: checkpoint_update, set_lifecycle, set_digest,
    // set_integrity, set_protection, retire, add_location and rebind_location.
    method CheckpointEdit(id: CheckpointId, e: RowEdit) returns (r: Outcome)
      requires Valid()
      modifies `checkpoints
      ensures Valid()
      ensures match EditTx(old(checkpoints), id, e)
              case Ok(rows) => r == Fine && checkpoints == rows
              case Err(error) => r == Failed(error) && checkpoints == old(checkpoints)
    {
      if id !in checkpoints {
        return if Lenient(e) then Fine else Failed(MissingRow(e));
      }
      var row := checkpoints[id];
      match e {
        case Overwrite(new_) =>
          if Taken(checkpoints, row.workload, new_.generation, id) { return Failed(InsertConflict); }
          row := new_.(workload := row.workload);
        case SetLifecycle(target, integrity) =>
          row := row.(lifecycle := target, integrity := integrity);
        case SetDigest(digest) =>
          row := row.(digest := Some(digest));
        case SetIntegrity(integrity) =>
          row := row.(integrity := integrity);
        case SetProtection(p) =>
          row := row.(protection := p);
        case Retire =>
          if row.protection == Pinned { return Failed(PolicyViolation); }
          if !row.lifecycle.CanTransition(L.Retired) { return Failed(InvalidTransition); }
          row := row.(lifecycle := L.Retired, locations := [], replicaCount := 0);
        case AddLocation(location) =>
          var locations := row.locations;
          if !HasNode(locations, location.node) { locations := locations + [location]; }
          row := row.(locations := locations, replicaCount := |locations|);
        case Rebind(node, path) =>
          var locations := RebindLocation(row.locations, node, path);
          row := row.(locations := locations, replicaCount := |locations|);
      }
      checkpoints := checkpoints[id := row];
      r := Fine;
    }

    // Replace the locations of that node or commit path by one.
    static method RebindLocation(locations: seq<Location>, node: NodeName, path: Path) returns (r: seq<Location>)
      ensures r == Rebound(locations, node, path)
    {
      r := [];
      var verified := false;
      var i := |locations|;
      while i > 0
        invariant 0 <= i <= |locations|
        invariant r == Without(locations[i..], node, path)
        invariant verified <==> AnyVerified(locations[i..], node, path)
      {
        i := i - 1;
        var l := locations[i];
        assert locations[i..] == [l] + locations[i + 1..];
        if l.path == path || l.node == node {
          verified := verified || l.verified;
        } else {
          r := [l] + r;
        }
      }
      assert locations[0..] == locations;
      r := r + [Location(node, path, verified)];
    }

    // ---------------- the two commit transactions ----------------

    method CaptureCommit(id: CheckpointId, attempt: AttemptId) returns (r: Outcome)
      requires Valid()
      modifies this
      ensures Valid()
      ensures match Tables.CaptureCommit(old(Contents()), id, attempt)
              case Ok(db) => r == Fine && Contents() == db
              case Err(e) => r == Failed(e) && Contents() == old(Contents())
    {
      hide CommitRows, UniqueGenerations, HasSupersedes;
      if id !in checkpoints { return Failed(CheckpointNotFound); }
      var row := checkpoints[id];
      if row.lifecycle != L.Persisting && row.lifecycle != L.Available { return Failed(InvalidTransition); }
      if row.locations == [] || row.digest.None? || row.digest.value == "" { return Failed(IncompleteCheckpoint); }
      if row.workload !in workloads { return Failed(WorkloadNotFound); }
      var w := workloads[row.workload];
      if row.lifecycle == L.Persisting && w.generation != row.workloadGeneration { return Failed(GenerationMismatch); }

      var prev := PreviousOf(row.workload, row.generation);
      var next := NextOf(row.workload, row.generation);
      Splice(id, prev, next);
      if prev.Some? && !HasSupersedes(lineage, id, prev.value) {
        lineage := lineage + [SupersedesRow(row.workload, id, prev.value)];
      }
      if row.generation >= w.checkpointGeneration {
        workloads :=
          workloads[row.workload := w.(checkpointGeneration := row.generation, resumability := row.resumability)];
      }
      journal := journal + {(DbCommitted, attempt)};
      r := Fine;
    }

    // The three link updates of a commit, one row at a time.
    method Splice(id: CheckpointId, prev: Option<CheckpointId>, next: Option<CheckpointId>)
      requires Valid() && id in checkpoints
      requires prev == NearestBelow(checkpoints, L.VISIBLE, checkpoints[id].workload, checkpoints[id].generation)
      requires next == NearestAbove(checkpoints, L.VISIBLE, checkpoints[id].workload, checkpoints[id].generation)
      modifies `checkpoints
      ensures Valid()
      ensures checkpoints == CommitRows(old(checkpoints), id)
    {
      ghost var cs := checkpoints;
      Chain.CommitSplices(cs, id);
      checkpoints := checkpoints[id := checkpoints[id].(lifecycle := L.Available, integrity := Integrity.Valid,
                                                         supersedes := prev, supersededBy := next)];
      if prev.Some? {
        checkpoints := checkpoints[prev.value := checkpoints[prev.value].(supersededBy := Some(id))];
      }
      if next.Some? {
        checkpoints := checkpoints[next.value := checkpoints[next.value].(supersedes := Some(id))];
      }
      Chain.SameKeysUnique(cs, checkpoints);
    }

    method RestoreCommit(id: CheckpointId, attempt: AttemptId, node: NodeName, token: Token, migration: bool,
          rollback: bool) returns (r: Outcome)
      requires Valid()
      modifies this
      ensures Valid()
      ensures match Tables.RestoreCommit(old(Contents()), id, attempt, node, token, migration, rollback)
              case Ok(db) => r == Fine && Contents() == db
              case Err(e) => r == Failed(e) && Contents() == old(Contents())
    {
      if id !in checkpoints { return Failed(CheckpointNotFound); }
      var row := checkpoints[id];
      if !row.lifecycle.CanTransition(L.Restored) { return Failed(InvalidTransition); }
      if row.workload !in workloads { return Failed(WorkloadNotFound); }
      var w := workloads[row.workload];
      var epoch := w.executionEpoch + 1 + if migration then 1 else 0;
      workloads := workloads[row.workload := w.(generation := w.generation + 1, checkpointGeneration := row.generation,
                                                executionEpoch := epoch, activeNode := Some(node),
                                                fenceToken := Some(token), fenceEpoch := epoch)];
      checkpoints := checkpoints[id := row.(lifecycle := L.Restored, integrity := Integrity.Valid,
                                            restoreCount := row.restoreCount + 1, lastRestore := Some("restored"))];
      assert checkpoints == RestoredRows(old(checkpoints), id);
      RecordRestore(row.workload, id, attempt, migration, rollback);
      r := Fine;
    }

    // The lineage rows and journal entries of a restore commit.
    method RecordRestore(w: WorkloadId, id: CheckpointId, attempt: AttemptId, migration: bool, rollback: bool)
      modifies `lineage, `journal
      ensures lineage == old(lineage)
                         + (if rollback then [LineageRow(RollbackOf, w, Some(id), None, None)] else [])
                         + (if migration then [LineageRow(MigratedFrom, w, Some(id), None, None)] else [])
      ensures journal ==
              old(journal) + (if migration then {(AuthorityTransferred, attempt)}
                else {}) + {(GenerationCommitted, attempt)}
    {
      if rollback { lineage := lineage + [LineageRow(RollbackOf, w, Some(id), None, None)]; }
      if migration {
        lineage := lineage + [LineageRow(MigratedFrom, w, Some(id), None, None)];
        journal := journal + {(AuthorityTransferred, attempt)};
      }
      journal := journal + {(GenerationCommitted, attempt)};
    }

    // ---------------- attempts, reservations, journal ----------------

    method AttemptBegin(id: AttemptId, attempt: Attempt)
      modifies `attempts
      ensures Contents() == Tables.AttemptBegin(old(Contents()), id, attempt)
    {
      if id !in attempts { attempts := attempts[id := attempt]; }
    }

    method AttemptFinish(id: AttemptId, state: AttemptState)
      modifies `attempts
      ensures Contents() == Tables.AttemptFinish(old(Contents()), id, state)
    {
      if id in attempts { attempts := attempts[id := attempts[id].(state := state)]; }
    }

    method ReservationCreate(id: AttemptId, scope: Scope, expiresAt: nat) returns (r: Outcome)
      modifies `reservations
      ensures match Tables.ReservationCreate(old(Contents()), id, scope, expiresAt)
              case Ok(db) => r == Fine && Contents() == db
              case Err(e) => r == Failed(e) && Contents() == old(Contents())
    {
      if id in reservations { return Failed(ReservationConflict); }
      var left := reservations.Keys;
      while left != {}
        invariant left <= reservations.Keys
        invariant forall k <- reservations.Keys - left ::
                  !(reservations[k].state == Held && reservations[k].scope == scope)
        decreases |left|
      {
        var k :| k in left;
        if reservations[k].state == Held && reservations[k].scope == scope { return Failed(ReservationConflict); }
        left := left - {k};
      }
      assert !Reserved(Contents(), scope);
      reservations := reservations[id := Reservation(scope, Held, expiresAt)];
      r := Fine;
    }

    method ReservationRelease(id: AttemptId)
      modifies `reservations
      ensures Contents() == Tables.ReservationRelease(old(Contents()), id)
    {
      if id in reservations && reservations[id].state == Held {
        reservations := reservations[id := reservations[id].(state := Released)];
      }
    }

    static lemma OneFewerLeft(rs: map<AttemptId, Reservation>, before: nat, left: set<AttemptId>, k: AttemptId)
      requires k in left && k in rs
      ensures |DueIn(rs, before) - (left - {k})| ==
              |DueIn(rs, before) - left| + if rs[k].state == Held && rs[k].expiresAt < before then 1 else 0
    {
      var due := DueIn(rs, before);
      if k in due {
        assert due - (left - {k}) == (due - left) + {k};
      } else {
        assert due - (left - {k}) == due - left;
      }
    }

    // The held reservations whose time has passed.
    static ghost function DueIn(rs: map<AttemptId, Reservation>, before: nat): set<AttemptId> {
      set k | k in rs && rs[k].state == Held && rs[k].expiresAt < before
    }

    // UPDATE ... SET state='EXPIRED', row by row.
    method ReservationsExpire(before: nat) returns (count: nat)
      modifies `reservations
      ensures Contents() == Tables.ReservationsExpire(old(Contents()), before)
      ensures count == |DueIn(old(reservations), before)|
    {
      reservations, count := Lapsing(reservations, before);
    }

    static method Lapsing(was: map<AttemptId, Reservation>, before: nat)
      returns (rs: map<AttemptId, Reservation>, count: nat)
      ensures rs == map id | id in was :: Lapse(was[id], before)
      ensures count == |DueIn(was, before)|
    {
      rs, count := was, 0;
      var left := was.Keys;
      assert DueIn(was, before) - left == {};
      hide DueIn;
      while left != {}
        invariant left <= was.Keys && rs.Keys == was.Keys
        invariant count == |DueIn(was, before) - left|
        invariant forall k <- was.Keys :: rs[k] == if k in left then was[k] else Lapse(was[k], before)
        decreases |left|
      {
        var k :| k in left;
        OneFewerLeft(was, before, left, k);
        if rs[k].state == Held && rs[k].expiresAt < before {
          rs := rs[k := rs[k].(state := Expired)];
          count := count + 1;
        }
        left := left - {k};
      }
      assert DueIn(was, before) - left == DueIn(was, before);
      AllLapsed(was, rs, before);
    }

    static lemma AllLapsed(was: map<AttemptId, Reservation>, now: map<AttemptId, Reservation>, before: nat)
      requires now.Keys == was.Keys && forall k <- was.Keys :: now[k] == Lapse(was[k], before)
      ensures now == map id | id in was :: Lapse(was[id], before)
    {}

    method JournalAppend(m: Marker, a: AttemptId)
      modifies `journal
      ensures Contents() == Tables.JournalAppend(old(Contents()), m, a)
    {
      journal := journal + {(m, a)};
    }

    // ---------------- workloads ----------------

    method WorkloadInsert(id: WorkloadId, w: Workload) returns (r: Outcome)
      modifies `workloads
      ensures match Tables.WorkloadInsert(old(Contents()), id, w)
              case Ok(db) => r == Fine && Contents() == db
              case Err(e) => r == Failed(e) && Contents() == old(Contents())
    {
      if id in workloads { return Failed(InsertConflict); }
      workloads := workloads[id := w];
      r := Fine;
    }

    method BumpFence(id: WorkloadId, expected: nat) returns (r: Outcome, epoch: nat)
      modifies `workloads
      ensures match WorkloadTx(old(Contents()), id, WorkloadEdit.BumpFence(expected))
              case Ok(db) => r == Fine && Contents() == db && id in workloads && epoch == workloads[id].executionEpoch
              case Err(e) => r == Failed(e) && Contents() == old(Contents())
    {
      epoch := 0;
      if id !in workloads { return Failed(WorkloadNotFound), 0; }
      var w := workloads[id];
      if w.executionEpoch != expected { return Failed(StaleEpoch), 0; }
      epoch := w.executionEpoch + 1;
      workloads := workloads[id := w.(executionEpoch := epoch, fenceToken := None, activeNode := None)];
      r := Fine;
    }

    method Claim(id: WorkloadId, node: NodeName, token: Token, epoch: nat) returns (r: Outcome)
      modifies `workloads
      ensures match WorkloadTx(old(Contents()), id, WorkloadEdit.Claim(node, token, epoch))
              case Ok(db) => r == Fine && Contents() == db
              case Err(e) => r == Failed(e) && Contents() == old(Contents())
    {
      if id !in workloads { return Failed(WorkloadNotFound); }
      var w := workloads[id];
      if w.singleActive {
        if w.activeNode.Some? && w.activeNode.value != node && w.activeNode.value != MIGRATING {
          return Failed(Fencing);
        }
      }
      if w.executionEpoch != epoch { return Failed(StaleEpoch); }
      workloads :=
        workloads[id := w.(activeNode := Some(node), fenceToken := Some(token), fenceEpoch := w.executionEpoch)];
      r := Fine;
    }

    method Release(id: WorkloadId, node: NodeName)
      modifies `workloads
      ensures WorkloadTx(old(Contents()), id, Unclaim(node)) == Ok(Contents())
    {
      assert id in workloads ==> workloads[id := workloads[id]] == workloads;
      if id in workloads && workloads[id].activeNode == Some(node) {
        workloads := workloads[id := workloads[id].(fenceToken := None, activeNode := None)];
      }
    }
  }
}
