// The tables of the durable store and its transactions as functions on table
// contents (src/persistence.rs).  A transaction either yields new contents or an
// error that leaves the tables as they were.
module Tables {
  import opened Wrappers
  import L = Lifecycle

  type CheckpointId = nat
  type WorkloadId = nat
  type AttemptId = nat
  type NodeName = string
  type Token = string
  type Path = string

  // The owner name that stands for "authority is being handed over".
  const MIGRATING: NodeName := "MIGRATING"

  datatype Integrity = Pending | Valid | Corrupt | Unverifiable
  datatype Protection = Unprotected | Protected | Pinned
  datatype Resumability = Exact | Equivalent | Degraded | RestartFromCheckpoint | NonResumable

  datatype Location = Location(node: NodeName, path: Path, verified: bool)

  // Captured payload metadata: component names with sizes and hashes.
  datatype Image = Image(components: seq<string>, logicalBytes: nat, storedBytes: nat)

  datatype Checkpoint = Checkpoint(
    workload: WorkloadId,
    workloadGeneration: nat,
    generation: nat,
    attempt: AttemptId,
    lifecycle: L.State,
    integrity: Integrity,
    resumability: Resumability,
    image: Image,
    digest: Option<string>,
    locations: seq<Location>,
    replicaCount: nat,
    restoreCount: nat,
    lastRestore: Option<string>,
    protection: Protection,
    supersedes: Option<CheckpointId>,
    supersededBy: Option<CheckpointId>)

  datatype Workload = Workload(
    generation: nat,
    executionEpoch: nat,
    activeNode: Option<NodeName>,
    fenceToken: Option<Token>,
    fenceEpoch: nat,
    checkpointGeneration: nat,
    resumability: Resumability,
    singleActive: bool,
    parent: Option<WorkloadId>)

  datatype AttemptKind = CaptureKind | RestoreKind | RollbackKind
  datatype AttemptState = Active | Committed | CommittedNoResume | ResumeFailed | AttemptFailed

  datatype Attempt = Attempt(
    kind: AttemptKind,
    checkpoint: CheckpointId,
    workload: WorkloadId,
    node: NodeName,
    state: AttemptState)

  datatype Scope = CaptureOf(workload: WorkloadId) | RestoreOf(checkpoint: CheckpointId)
  datatype ReservationState = Held | Released | Expired
  datatype Reservation = Reservation(scope: Scope, state: ReservationState, expiresAt: nat)

  // The recovery journal is keyed by (kind, attempt, state); a marker names the
  // kind and the state.
  datatype Marker =
    | CaptureReserved | CaptureSealed | CapturePersisted | DbCommitted | ResumeDone
    | RestoreReserved | Provisioned | ComponentsRestored | GenerationCommitted | Resumed
    | AuthorityTransferred

  datatype Relation = Supersedes | ForkedFrom | RollbackOf | MigratedFrom
  datatype LineageRow = LineageRow(
    relation: Relation,
    workload: WorkloadId,
    checkpoint: Option<CheckpointId>,
    otherWorkload: Option<WorkloadId>,
    otherCheckpoint: Option<CheckpointId>)

  type Rows = map<CheckpointId, Checkpoint>

  datatype Db = Db(
    checkpoints: Rows,
    workloads: map<WorkloadId, Workload>,
    attempts: map<AttemptId, Attempt>,
    reservations: map<AttemptId, Reservation>,
    journal: set<(Marker, AttemptId)>,
    lineage: seq<LineageRow>)

  const EmptyDb := Db(map[], map[], map[], map[], {}, [])

  datatype StoreError =
    | CheckpointNotFound | WorkloadNotFound | InsertConflict | InvalidTransition
    | IncompleteCheckpoint | GenerationMismatch | StaleEpoch | Fencing
    | ReservationConflict | PolicyViolation | NoRowReturned

  type Tx = Result<Db, StoreError>

  // ---------------- checkpoint rows ----------------

  // UNIQUE(workload_id, checkpoint_generation)
  ghost predicate UniqueGenerations(cs: Rows) {
    forall c, d | c in cs && d in cs && c != d ::
      cs[c].workload != cs[d].workload || cs[c].generation != cs[d].generation
  }

  // Some row other than `but` has that key.
  predicate Taken(cs: Rows, w: WorkloadId, g: nat, but: CheckpointId) {
    exists c <- cs.Keys :: c != but && cs[c].workload == w && cs[c].generation == g
  }

  function InsertTx(cs: Rows, id: CheckpointId, row: Checkpoint): Result<Rows, StoreError> {
    if id in cs || Taken(cs, row.workload, row.generation, id) then Err(InsertConflict) else Ok(cs[id := row])
  }

  // The updates of one existing row.
  datatype RowEdit =
    | Overwrite(row: Checkpoint)
    | SetLifecycle(target: L.State, integrity: Integrity)
    | SetDigest(digest: string)
    | SetIntegrity(integrity: Integrity)
    | SetProtection(protection: Protection)
    | Retire
    | AddLocation(location: Location)
    | Rebind(node: NodeName, path: Path)

  predicate HasNode(locations: seq<Location>, node: NodeName) {
    exists l <- locations :: l.node == node
  }

  function Adding(locations: seq<Location>, location: Location): seq<Location> {
    if HasNode(locations, location.node) then locations else locations + [location]
  }

  // Drop every location with the given node or the given commit path.
  function Without(locations: seq<Location>, node: NodeName, path: Path): seq<Location> {
    if locations == [] then []
    else
      var rest := Without(locations[1..], node, path);
      if locations[0].path == path || locations[0].node == node then rest else [locations[0]] + rest
  }

  predicate AnyVerified(locations: seq<Location>, node: NodeName, path: Path) {
    exists l <- locations :: (l.path == path || l.node == node) && l.verified
  }

  function Rebound(locations: seq<Location>, node: NodeName, path: Path): seq<Location> {
    Without(locations, node, path) + [Location(node, path, AnyVerified(locations, node, path))]
  }

  function At(row: Checkpoint, locations: seq<Location>): Checkpoint {
    row.(locations := locations, replicaCount := |locations|)
  }

  function Edit(row: Checkpoint, e: RowEdit): Result<Checkpoint, StoreError> {
    match e
    // every column but the workload is overwritten
    case Overwrite(row') => Ok(row'.(workload := row.workload))
    case SetLifecycle(target, integrity) => Ok(row.(lifecycle := target, integrity := integrity))
    case SetDigest(digest) => Ok(row.(digest := Some(digest)))
    case SetIntegrity(integrity) => Ok(row.(integrity := integrity))
    case SetProtection(p) => Ok(row.(protection := p))
    case Retire =>
      if row.protection == Pinned then Err(PolicyViolation)
      else if !row.lifecycle.CanTransition(L.Retired) then Err(InvalidTransition)
      else Ok(At(row, []).(lifecycle := L.Retired))
    case AddLocation(location) => Ok(At(row, Adding(row.locations, location)))
    case Rebind(node, path) => Ok(At(row, Rebound(row.locations, node, path)))
  }

  // Updates that report nothing when they touch no row.
  predicate Lenient(e: RowEdit) {
    e.SetDigest? || e.SetIntegrity? || e.SetProtection? || e.Rebind?
  }

  // How an update that needs its row reports that there is none; adding a location reads
  // the row first, and that query fails.
  function MissingRow(e: RowEdit): StoreError {
    if e.AddLocation? then NoRowReturned else CheckpointNotFound
  }

  function EditTx(cs: Rows, id: CheckpointId, e: RowEdit): Result<Rows, StoreError> {
    if id !in cs then if Lenient(e) then Ok(cs) else Err(MissingRow(e))
    else if e.Overwrite? && Taken(cs, cs[id].workload, e.row.generation, id) then Err(InsertConflict)
    else
      var row := Edit(cs[id], e);
      if row.Ok? then Ok(cs[id := row.value]) else Err(row.error)
  }

  // ---------------- range queries ----------------

  ghost predicate Below(cs: Rows, live: set<L.State>, w: WorkloadId, g: nat, c: CheckpointId) {
    c in cs && cs[c].workload == w && cs[c].generation < g && cs[c].lifecycle in live
  }

  ghost predicate Above(cs: Rows, live: set<L.State>, w: WorkloadId, g: nat, c: CheckpointId) {
    c in cs && cs[c].workload == w && cs[c].generation > g && cs[c].lifecycle in live
  }

  // c answers "... < g ORDER BY checkpoint_generation DESC LIMIT 1"
  ghost predicate IsNearestBelow(cs: Rows, live: set<L.State>, w: WorkloadId, g: nat, c: CheckpointId) {
    Below(cs, live, w, g, c) && forall d :: Below(cs, live, w, g, d) ==> cs[d].generation <= cs[c].generation
  }

  // c answers "... > g ORDER BY checkpoint_generation ASC LIMIT 1"
  ghost predicate IsNearestAbove(cs: Rows, live: set<L.State>, w: WorkloadId, g: nat, c: CheckpointId) {
    Above(cs, live, w, g, c) && forall d :: Above(cs, live, w, g, d) ==> cs[c].generation <= cs[d].generation
  }

  ghost function NearestBelow(cs: Rows, live: set<L.State>, w: WorkloadId, g: nat): (r: Option<CheckpointId>)
    ensures r.Some? ==> IsNearestBelow(cs, live, w, g, r.value)
    ensures r.None? ==> forall c :: !IsNearestBelow(cs, live, w, g, c)
  {
    if c :| IsNearestBelow(cs, live, w, g, c) then Some(c) else None
  }

  ghost function NearestAbove(cs: Rows, live: set<L.State>, w: WorkloadId, g: nat): (r: Option<CheckpointId>)
    ensures r.Some? ==> IsNearestAbove(cs, live, w, g, r.value)
    ensures r.None? ==> forall c :: !IsNearestAbove(cs, live, w, g, c)
  {
    if c :| IsNearestAbove(cs, live, w, g, c) then Some(c) else None
  }

  ghost predicate IsMaxGeneration(cs: Rows, w: WorkloadId, g: nat) {
    (g == 0 || exists c <- cs.Keys :: cs[c].workload == w && cs[c].generation == g)
    && forall c <- cs.Keys :: cs[c].workload == w ==> cs[c].generation <= g
  }

  // ---------------- the two commit transactions ----------------

  // Point the two neighbours, where there are any, back at id.
  function Splice(cs: Rows, id: CheckpointId,
                  below: Option<CheckpointId>, above: Option<CheckpointId>): Rows
    requires below.Some? ==> below.value in cs
    requires above.Some? ==> above.value in cs
  {
    var cs1 := if below.Some? then cs[below.value := cs[below.value].(supersededBy := Some(id))] else cs;
    if above.Some? then cs1[above.value := cs1[above.value].(supersedes := Some(id))] else cs1
  }

  function SupersedesRow(w: WorkloadId, id: CheckpointId, other: CheckpointId): LineageRow {
    LineageRow(Supersedes, w, Some(id), None, Some(other))
  }

  predicate HasSupersedes(lineage: seq<LineageRow>, id: CheckpointId, other: CheckpointId) {
    exists r <- lineage :: r.relation == Supersedes && r.checkpoint == Some(id) && r.otherCheckpoint == Some(other)
  }

  // The committed row, with its links taken from the two range queries.
  ghost function CommittedRow(cs: Rows, id: CheckpointId): Checkpoint
    requires id in cs
  {
    cs[id].(lifecycle := L.Available, integrity := Valid,
            supersedes := NearestBelow(cs, L.VISIBLE, cs[id].workload, cs[id].generation),
            supersededBy := NearestAbove(cs, L.VISIBLE, cs[id].workload, cs[id].generation))
  }

  ghost function CommitRows(cs: Rows, id: CheckpointId): Rows
    requires id in cs
  {
    var row := CommittedRow(cs, id);
    Splice(cs[id := row], id, row.supersedes, row.supersededBy)
  }

  ghost function CaptureCommit(db: Db, id: CheckpointId, attempt: AttemptId): Tx {
    if id !in db.checkpoints then Err(CheckpointNotFound)
    else
      var row := db.checkpoints[id];
      if row.lifecycle != L.Persisting && row.lifecycle != L.Available then Err(InvalidTransition)
      else if row.locations == [] || row.digest.None? || row.digest.value == "" then Err(IncompleteCheckpoint)
      else if row.workload !in db.workloads then Err(WorkloadNotFound)
      else if row.lifecycle == L.Persisting && db.workloads[row.workload].generation != row.workloadGeneration then
        Err(GenerationMismatch)
      else
        var below := NearestBelow(db.checkpoints, L.VISIBLE, row.workload, row.generation);
        var w := db.workloads[row.workload];
        Ok(db.(
           checkpoints := CommitRows(db.checkpoints, id),
           lineage := if below.Some? && !HasSupersedes(db.lineage, id, below.value)
                      then db.lineage + [SupersedesRow(row.workload, id, below.value)] else db.lineage,
           workloads := if row.generation >= w.checkpointGeneration
                        then db.workloads[row.workload :=
                          w.(checkpointGeneration := row.generation, resumability := row.resumability)]
                        else db.workloads,
           journal := db.journal + {(DbCommitted, attempt)}))
  }

  function RestoredRows(cs: Rows, id: CheckpointId): Rows
    requires id in cs
  {
    var row := cs[id];
    cs[id := row.(lifecycle := L.Restored, integrity := Valid, restoreCount := row.restoreCount + 1, lastRestore :=
      Some("restored"))]
  }

  function RestoreCommit(db: Db, id: CheckpointId, attempt: AttemptId, node: NodeName, token: Token,
                         migration: bool, rollback: bool): Tx
  {
    if id !in db.checkpoints then Err(CheckpointNotFound)
    else
      var row := db.checkpoints[id];
      if !row.lifecycle.CanTransition(L.Restored) then Err(InvalidTransition)
      else if row.workload !in db.workloads then Err(WorkloadNotFound)
      else
        var w := db.workloads[row.workload];
        var epoch := w.executionEpoch + 1 + if migration then 1 else 0;
        var w' := w.(generation := w.generation + 1, checkpointGeneration := row.generation,
                     executionEpoch := epoch, activeNode := Some(node), fenceToken := Some(token), fenceEpoch := epoch);
        Ok(db.(
           workloads := db.workloads[row.workload := w'],
           checkpoints := RestoredRows(db.checkpoints, id),
           lineage := db.lineage
             + (if rollback then [LineageRow(RollbackOf, row.workload, Some(id), None, None)] else [])
             + (if migration then [LineageRow(MigratedFrom, row.workload, Some(id), None, None)] else []),
           journal := db.journal
             + (if migration then {(AuthorityTransferred, attempt)} else {})
             + {(GenerationCommitted, attempt)}))
  }

  // ---------------- attempts, reservations, journal ----------------

  // INSERT OR IGNORE
  function AttemptBegin(db: Db, a: AttemptId, attempt: Attempt): Db {
    if a in db.attempts then db else db.(attempts := db.attempts[a := attempt])
  }

  function AttemptFinish(db: Db, a: AttemptId, state: AttemptState): Db {
    if a !in db.attempts then db
    else db.(attempts := db.attempts[a := db.attempts[a].(state := state)])
  }

  // The two partial unique indexes: one held reservation per scope.
  predicate Reserved(db: Db, scope: Scope) {
    exists r <- db.reservations.Keys :: db.reservations[r].state == Held && db.reservations[r].scope == scope
  }

  function ReservationCreate(db: Db, id: AttemptId, scope: Scope, expiresAt: nat): Tx {
    if id in db.reservations || Reserved(db, scope)
    then Err(ReservationConflict)
    else Ok(db.(reservations := db.reservations[id := Reservation(scope, Held, expiresAt)]))
  }

  function ReservationRelease(db: Db, id: AttemptId): Db {
    if id !in db.reservations || db.reservations[id].state != Held then db
    else db.(reservations := db.reservations[id := db.reservations[id].(state := Released)])
  }

  function Lapse(r: Reservation, before: nat): Reservation {
    if r.state == Held && r.expiresAt < before then r.(state := Expired) else r
  }

  function ReservationsExpire(db: Db, before: nat): Db {
    db.(reservations := map id | id in db.reservations :: Lapse(db.reservations[id], before))
  }

  // INSERT OR IGNORE on UNIQUE(kind, key, state)
  function JournalAppend(db: Db, m: Marker, a: AttemptId): Db {
    db.(journal := db.journal + {(m, a)})
  }

  predicate JournalHas(db: Db, m: Marker, a: AttemptId) {
    (m, a) in db.journal
  }

  // ---------------- workloads ----------------

  function WorkloadInsert(db: Db, id: WorkloadId, w: Workload): Tx {
    if id in db.workloads then Err(InsertConflict)
    else Ok(db.(workloads := db.workloads[id := w]))
  }

  function WorkloadInsertFork(db: Db, id: WorkloadId, child: Workload, parent: WorkloadId, c: CheckpointId): Tx {
    if id in db.workloads then Err(InsertConflict)
    else Ok(db.(workloads := db.workloads[id := child],
                lineage := db.lineage + [LineageRow(ForkedFrom, id, None, Some(parent), Some(c))]))
  }

  // The updates of one existing workload row.
  datatype WorkloadEdit =
    | BumpFence(expected: nat)
    | Claim(node: NodeName, token: Token, epoch: nat)
    | Unclaim(node: NodeName)

  function EditWorkload(w: Workload, e: WorkloadEdit): Result<Workload, StoreError> {
    match e
    case BumpFence(expected) =>
      if w.executionEpoch != expected then Err(StaleEpoch)
      else Ok(w.(executionEpoch := expected + 1, fenceToken := None, activeNode := None))
    case Claim(node, token, epoch) =>
      if w.singleActive && w.activeNode.Some? && w.activeNode.value != node
        && w.activeNode.value != MIGRATING then Err(Fencing)
      else if w.executionEpoch != epoch then Err(StaleEpoch)
      else Ok(w.(activeNode := Some(node), fenceToken := Some(token), fenceEpoch := w.executionEpoch))
    case Unclaim(node) =>
      Ok(if w.activeNode == Some(node) then w.(fenceToken := None, activeNode := None) else w)
  }

  // A release of an unknown workload touches no row and is no error.
  function WorkloadTx(db: Db, id: WorkloadId, e: WorkloadEdit): Tx {
    if id !in db.workloads then if e.Unclaim? then Ok(db) else Err(WorkloadNotFound)
    else
      var w := EditWorkload(db.workloads[id], e);
      if w.Ok? then Ok(db.(workloads := db.workloads[id := w.value])) else Err(w.error)
  }
}
