// Reconciliation after a restart (src/recovery.rs): every ACTIVE attempt is decided
// from its journal evidence, with no live operation around.
module Recovery {
  import opened Wrappers
  import opened Tables
  import opened Persistence
  import Operations
  import L = Lifecycle

  datatype Decision =
    | CaptureConfirmed | CaptureRecommitted | CaptureRejected | CaptureAborted
    | ResumeUnverified | RestoreConfirmed | RestoreCleaned | RestoreAborted

  datatype RecoveryAction = RecoveryAction(key: AttemptId, decision: Decision)

  // ---------------- what one attempt's reconciliation does to the tables ----------------

  // db' is db with attempt a decided and its reservation given up.
  ghost predicate Closed(db: Db, db': Db, a: AttemptId) {
    && a in db.attempts && db'.attempts.Keys == db.attempts.Keys && db'.attempts[a].state != Active
    && db'.reservations.Keys == db.reservations.Keys && (a in db'.reservations ==> db'.reservations[a].state != Held)
    && (forall b :: b in db.attempts && b != a ==> db'.attempts[b] == db.attempts[b])
    && (forall b :: b in db.reservations && b != a ==> db'.reservations[b] == db.reservations[b])
  }

  lemma CloseCloses(db: Db, db1: Db, a: AttemptId, state: AttemptState)
    requires a in db.attempts && state != Active && db1.attempts == db.attempts && db1.reservations == db.reservations
    ensures Closed(db, Close(db1, a, state), a)
  {}

  lemma CommitKeepsAttempts(db: Db, c: CheckpointId, a: AttemptId)
    requires CaptureCommit(db, c, a).Ok?
    ensures CaptureCommit(db, c, a).value.attempts == db.attempts
            && CaptureCommit(db, c, a).value.reservations == db.reservations
  {
    hide CommitRows;
  }

  function Close(db: Db, a: AttemptId, state: AttemptState): Db {
    ReservationRelease(AttemptFinish(db, a, state), a)
  }

  function SetRow(db: Db, c: CheckpointId, lifecycle: L.State, integrity: Integrity): Db
    requires c in db.checkpoints
  {
    db.(checkpoints := db.checkpoints[c := db.checkpoints[c].(lifecycle := lifecycle, integrity := integrity)])
  }

  predicate BeingRestored(db: Db, c: CheckpointId) {
    c in db.checkpoints && Operations.MidRestore(db.checkpoints[c])
  }

  // A commit that is refused fails the checkpoint when its row is one a commit
  // could have published.
  function Rejected(db: Db, a: AttemptId, c: CheckpointId): Db
    requires c in db.checkpoints
  {
    var row := db.checkpoints[c];
    Close(if row.lifecycle == L.Persisting || row.lifecycle == L.Available then SetRow(db, c, L.Failed, Corrupt)
      else db, a, AttemptFailed)
  }

  ghost function ReconciledCapture(db: Db, a: AttemptId): (r: Result<(Db, Decision), StoreError>)
    requires a in db.attempts
  {
    var c := db.attempts[a].checkpoint;
    if JournalHas(db, DbCommitted, a) then Ok((Close(db, a, Committed), CaptureConfirmed))
    else if !JournalHas(db, CapturePersisted, a) then Ok((Close(db, a, AttemptFailed), CaptureAborted))
    else if c !in db.checkpoints then Err(CheckpointNotFound)
    else
      var tx := CaptureCommit(db, c, a);
      if tx.Ok? then Ok((Close(tx.value, a, Committed), CaptureRecommitted))
        else Ok((Rejected(db, a, c), CaptureRejected))
  }

  function ReconciledRestore(db: Db, a: AttemptId): (Db, Decision)
    requires a in db.attempts
  {
    var c := db.attempts[a].checkpoint;
    if JournalHas(db, GenerationCommitted, a) then
      (Close(db, a, Committed), if JournalHas(db, Resumed, a) then RestoreConfirmed else ResumeUnverified)
    else if JournalHas(db, ComponentsRestored, a) then
      (Close(if BeingRestored(db, c) then SetRow(db, c, L.Available, Valid) else db, a, AttemptFailed), RestoreCleaned)
    else (Close(db, a, AttemptFailed), RestoreAborted)
  }

  ghost function Reconciled(db: Db, a: AttemptId): (r: Result<(Db, Decision), StoreError>)
    requires a in db.attempts
    ensures r.Ok? ==> Closed(db, r.value.0, a)
  {
    CaptureIsClosed(db, a);
    RestoreIsClosed(db, a);
    if db.attempts[a].kind == CaptureKind then ReconciledCapture(db, a) else Ok(ReconciledRestore(db, a))
  }

  lemma CaptureIsClosed(db: Db, a: AttemptId)
    requires a in db.attempts
    ensures ReconciledCapture(db, a).Ok? ==> Closed(db, ReconciledCapture(db, a).value.0, a)
  {
    var c := db.attempts[a].checkpoint;
    var tx := CaptureCommit(db, c, a);
    if tx.Ok? { CommitKeepsAttempts(db, c, a); }
    hide Closed, Close, CaptureCommit;
    CloseCloses(db, db, a, Committed);
    CloseCloses(db, db, a, AttemptFailed);
    if tx.Ok? { CloseCloses(db, tx.value, a, Committed); }
    if c in db.checkpoints { CloseCloses(db, SetRow(db, c, L.Failed, Corrupt), a, AttemptFailed); }
  }

  lemma RestoreIsClosed(db: Db, a: AttemptId)
    requires a in db.attempts
    ensures Closed(db, ReconciledRestore(db, a).0, a)
  {
    var c := db.attempts[a].checkpoint;
    hide Closed, Close;
    CloseCloses(db, db, a, Committed);
    CloseCloses(db, db, a, AttemptFailed);
    if c in db.checkpoints { CloseCloses(db, SetRow(db, c, L.Available, Valid), a, AttemptFailed); }
  }

  // A pass over several attempts, in order, up to the first that cannot be decided.
  ghost function ReconciledAll(db: Db, keys: seq<AttemptId>): (r: (Db, Result<seq<RecoveryAction>, StoreError>))
    requires forall a :: a in keys ==> a in db.attempts
    ensures r.0.attempts.Keys == db.attempts.Keys
    decreases |keys|
  {
    if keys == [] then (db, Ok([]))
    else
      var (done, actions) := ReconciledAll(db, keys[..|keys| - 1]);
      if actions.Err? then (done, actions)
      else
        var a := keys[|keys| - 1];
        var one := Reconciled(done, a);
        if one.Err? then (done, Err(one.error)) else (one.value.0, Ok(actions.value + [RecoveryAction(a, one.value.1)]))
  }

  // ---------------- the procedures ----------------

  method CloseAttempt(store: Store, a: AttemptId, state: AttemptState)
    modifies store`attempts, store`reservations
    ensures store.Contents() == Close(old(store.Contents()), a, state)
  {
    store.AttemptFinish(a, state);
    store.ReservationRelease(a);
  }

  method ReconcileCapture(store: Store, a: AttemptId) returns (r: Result<RecoveryAction, StoreError>)
    requires store.Valid() && a in store.attempts && store.attempts[a].kind == CaptureKind
    modifies store
    ensures store.Valid()
    ensures match ReconciledCapture(old(store.Contents()), a)
            case Ok((db, decision)) => r == Ok(RecoveryAction(a, decision)) && store.Contents() == db
            case Err(e) => r == Err(e) && store.Contents() == old(store.Contents())
  {
    var hasPersisted := (CapturePersisted, a) in store.journal;
    var hasDb := (DbCommitted, a) in store.journal;
    if hasDb {
      CloseAttempt(store, a, Committed);
      return Ok(RecoveryAction(a, CaptureConfirmed));
    }
    if hasPersisted {
      var c := store.attempts[a].checkpoint;
      if c !in store.checkpoints { return Err(CheckpointNotFound); }
      var row := store.checkpoints[c];
      var committed := store.CaptureCommit(c, a);
      if committed.Failed? {
        if row.lifecycle == L.Persisting || row.lifecycle == L.Available {
          var failed := store.CheckpointEdit(c, SetLifecycle(L.Failed, Corrupt));
        }
        CloseAttempt(store, a, AttemptFailed);
        return Ok(RecoveryAction(a, CaptureRejected));
      }
      CloseAttempt(store, a, Committed);
      return Ok(RecoveryAction(a, CaptureRecommitted));
    }
    CloseAttempt(store, a, AttemptFailed);
    r := Ok(RecoveryAction(a, CaptureAborted));
  }

  method ReconcileRestore(store: Store, a: AttemptId) returns (action: RecoveryAction)
    requires store.Valid() && a in store.attempts
    modifies store
    ensures store.Valid()
    ensures store.Contents() == ReconciledRestore(old(store.Contents()), a).0
    ensures action == RecoveryAction(a, ReconciledRestore(old(store.Contents()), a).1)
  {
    var hasRestored := (ComponentsRestored, a) in store.journal;
    var hasCommitted := (GenerationCommitted, a) in store.journal;
    var hasResumed := (Resumed, a) in store.journal;
    if hasCommitted {
      CloseAttempt(store, a, Committed);
      return RecoveryAction(a, if hasResumed then RestoreConfirmed else ResumeUnverified);
    }
    if hasRestored {
      var c := store.attempts[a].checkpoint;
      if c in store.checkpoints {
        var row := store.checkpoints[c];
        if row.lifecycle == L.RestorePending || row.lifecycle == L.Restoring {
          var moved := store.CheckpointEdit(c, SetLifecycle(L.Available, Integrity.Valid));
        }
      }
      CloseAttempt(store, a, AttemptFailed);
      return RecoveryAction(a, RestoreCleaned);
    }
    CloseAttempt(store, a, AttemptFailed);
    action := RecoveryAction(a, RestoreAborted);
  }

  method ReconcileAttempt(store: Store, a: AttemptId) returns (r: Result<RecoveryAction, StoreError>)
    requires store.Valid() && a in store.attempts
    modifies store
    ensures store.Valid()
    ensures match Reconciled(old(store.Contents()), a)
            case Ok((db, decision)) => r == Ok(RecoveryAction(a, decision)) && store.Contents() == db
            case Err(e) => r == Err(e) && store.Contents() == old(store.Contents())
  {
    hide CaptureCommit, Close, Rejected;
    if store.attempts[a].kind == CaptureKind {
      r := ReconcileCapture(store, a);
    } else {
      var action := ReconcileRestore(store, a);
      r := Ok(action);
    }
  }

  method ReconcileAttempts(store: Store, attempts: seq<AttemptId>) returns (r: Result<seq<RecoveryAction>, StoreError>)
    requires store.Valid() && forall a :: a in attempts ==> a in store.attempts
    modifies store
    ensures store.Valid()
    ensures (store.Contents(), r) == ReconciledAll(old(store.Contents()), attempts)
  {
    ghost var db := store.Contents();
    var actions := [];
    var i := 0;
    assert attempts[..0] == [] && ReconciledAll(db, []) == (db, Ok([]));
    hide Reconciled, ReconciledAll;
    while i < |attempts|
      invariant 0 <= i <= |attempts| && store.Valid()
      invariant (store.Contents(), Ok(actions)) == ReconciledAll(db, attempts[..i])
    {
      var a := attempts[i];
      OneMoreKey(db, attempts, i);
      var one := ReconcileAttempt(store, a);
      if one.Err? {
        FirstErrorStays(db, attempts, i + 1);
        return Err(one.error);
      }
      actions := actions + [one.value];
      i := i + 1;
    }
    assert attempts[..i] == attempts;
    r := Ok(actions);
  }

  lemma OneMoreKey(db: Db, keys: seq<AttemptId>, i: nat)
    requires i < |keys| && forall a :: a in keys ==> a in db.attempts
    requires ReconciledAll(db, keys[..i]).1.Ok?
    ensures var (done, actions) := ReconciledAll(db, keys[..i]);
            var one := Reconciled(done, keys[i]);
            ReconciledAll(db, keys[..i + 1]) ==
            if one.Err? then (done, Err(one.error))
            else (one.value.0, Ok(actions.value + [RecoveryAction(keys[i], one.value.1)]))
  {
    hide Reconciled;
    assert keys[..i + 1][..i] == keys[..i];
  }

  // The pass: expired reservations, then every attempt that is ACTIVE at the start.
  method Reconcile(store: Store, now: nat)
    returns (r: Result<seq<RecoveryAction>, StoreError>, expired: nat, ghost keys: seq<AttemptId>)
    requires store.Valid()
    modifies store
    ensures store.Valid() && expired == |Store.DueIn(old(store.reservations), now)|
    ensures forall a :: a in keys <==> a in old(store.attempts) && old(store.attempts)[a].state == Active
    ensures forall i, j :: 0 <= i < j < |keys| ==> keys[i] != keys[j]
    ensures (store.Contents(), r) == ReconciledAll(ReservationsExpire(old(store.Contents()), now), keys)
    ensures r.Ok? ==> forall a :: a in store.attempts ==> store.attempts[a].state != Active
    ensures r.Ok? ==> forall a :: a in keys && a in store.reservations ==> store.reservations[a].state != Held
  {
    expired := store.ReservationsExpire(now);
    ghost var db := store.Contents();
    var attempts := store.ActiveAttempts();
    keys := attempts;
    r := ReconcileAttempts(store, attempts);
    hide ReconciledAll;
    if r.Ok? { AllAreClosed(db, keys); }
  }

  lemma {:induction false} FirstErrorStays(db: Db, keys: seq<AttemptId>, i: nat)
    requires i <= |keys| && forall a :: a in keys ==> a in db.attempts
    requires ReconciledAll(db, keys[..i]).1.Err?
    ensures ReconciledAll(db, keys) == ReconciledAll(db, keys[..i])
    decreases |keys|
  {
    if i < |keys| {
      var prefix := keys[..|keys| - 1];
      assert prefix[..i] == keys[..i];
      FirstErrorStays(db, prefix, i);
    } else {
      assert keys[..i] == keys;
    }
  }

  // ---------------- what a pass achieves ----------------

  // After a pass none of its attempts is ACTIVE or holds a reservation, and no other
  // attempt has changed.
  lemma {:induction false} AllAreClosed(db: Db, keys: seq<AttemptId>)
    requires forall a :: a in keys ==> a in db.attempts
    requires ReconciledAll(db, keys).1.Ok?
    ensures var (db', actions) := ReconciledAll(db, keys);
            && db'.attempts.Keys == db.attempts.Keys
            && (forall a :: a in keys ==>
               db'.attempts[a].state != Active && (a in db'.reservations ==> db'.reservations[a].state != Held))
            && (forall b :: b in db.attempts && b !in keys ==> db'.attempts[b] == db.attempts[b])
    decreases |keys|
  {
    hide Reconciled;
    if keys != [] {
      var prefix, a := keys[..|keys| - 1], keys[|keys| - 1];
      AllAreClosed(db, prefix);
      assert keys == prefix + [a];
    }
  }

  // keys lists the ACTIVE attempts.
  ghost predicate ListsActive(db: Db, keys: seq<AttemptId>) {
    forall a :: a in keys <==> a in db.attempts && db.attempts[a].state == Active
  }

  // A second pass finds no attempt to act on: whenever it comes, it only expires
  // reservations.
  lemma SecondPassIsIdle(db: Db, keys: seq<AttemptId>, later: nat, again: seq<AttemptId>)
    requires ListsActive(db, keys) && ReconciledAll(db, keys).1.Ok?
    requires ListsActive(ReservationsExpire(ReconciledAll(db, keys).0, later), again)
    ensures var db' := ReservationsExpire(ReconciledAll(db, keys).0, later);
            again == [] && ReconciledAll(db', again) == (db', Ok([]))
  {
    assert again == [] || again[0] in again;
    AllAreClosed(db, keys);
  }

  // An interrupted restore: without its commit marker the attempt fails, with it the
  // attempt is committed, and either way no workload row, lineage row, journal entry or
  // other checkpoint changes.  The checkpoint goes back to AVAILABLE exactly when the
  // components_restored marker is there; without that marker this leaves it under
  // restore (for how long, RestoreStates.UnderRestoreForeverExactly says).
  lemma InterruptedRestore(db: Db, a: AttemptId)
    requires a in db.attempts && db.attempts[a].kind != CaptureKind
    ensures Reconciled(db, a).Ok?
    ensures var db' := Reconciled(db, a).value.0;
            var c := db.attempts[a].checkpoint;
            && db'.workloads == db.workloads && db'.lineage == db.lineage && db'.journal == db.journal
            && db'.attempts[a].state == (if JournalHas(db, GenerationCommitted, a) then Committed else AttemptFailed)
            && db'.checkpoints.Keys == db.checkpoints.Keys
            && (forall d :: d in db.checkpoints && d != c ==> db'.checkpoints[d] == db.checkpoints[d])
            && (c in db.checkpoints && !JournalHas(db, GenerationCommitted, a) ==>
                  (BeingRestored(db', c) <==> BeingRestored(db, c) && !JournalHas(db, ComponentsRestored, a))
                  && db'.checkpoints[c] ==
                     (if BeingRestored(db, c) && JournalHas(db, ComponentsRestored, a)
                      then db.checkpoints[c].(lifecycle := L.Available, integrity := Valid) else db.checkpoints[c])
                  && (BeingRestored(db', c) ==> !db'.checkpoints[c].lifecycle.IsRestorable()))
  {
    hide Closed, ReconciledCapture;
  }

  // What reconciliation reports is what it did: each of the eight decisions is reported
  // exactly when the journal before, and the verdict and the journal after, say so.
  lemma ReportsAgree(db: Db, a: AttemptId)
    requires a in db.attempts && Reconciled(db, a).Ok?
    ensures var (db', decision) := Reconciled(db, a).value;
            var capture, state' := db.attempts[a].kind == CaptureKind, db'.attempts[a].state;
            && (decision == CaptureConfirmed <==> capture && JournalHas(db, DbCommitted, a))
            && (decision == CaptureRecommitted <==>
                  capture && !JournalHas(db, DbCommitted, a) && JournalHas(db', DbCommitted, a))
            && (decision == CaptureRejected <==>
                  capture && state' == AttemptFailed && JournalHas(db, CapturePersisted, a))
            && (decision == CaptureAborted <==>
                  capture && state' == AttemptFailed && !JournalHas(db, CapturePersisted, a))
            && (decision == RestoreConfirmed <==> !capture && state' == Committed && JournalHas(db, Resumed, a))
            && (decision == ResumeUnverified <==> !capture && state' == Committed && !JournalHas(db, Resumed, a))
            && (decision == RestoreCleaned <==>
                  !capture && state' == AttemptFailed && JournalHas(db, ComponentsRestored, a))
            && (decision == RestoreAborted <==>
                  !capture && state' == AttemptFailed && !JournalHas(db, ComponentsRestored, a))
            && (state' == Committed || state' == AttemptFailed)
  {
    var c := db.attempts[a].checkpoint;
    if CaptureCommit(db, c, a).Ok? {
      CommitKeepsAttempts(db, c, a);
      CommitIsJournaled(db, c, a);
    }
    hide CaptureCommit, Closed;
  }

  lemma CommitIsJournaled(db: Db, c: CheckpointId, a: AttemptId)
    requires CaptureCommit(db, c, a).Ok?
    ensures JournalHas(CaptureCommit(db, c, a).value, DbCommitted, a)
  {
    hide CommitRows;
  }
}
