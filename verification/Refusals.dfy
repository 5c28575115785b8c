// When a store transaction is refused, and as what, in the tables a run can reach.
module Refusals {
  import opened Wrappers
  import opened Tables
  import opened Operations
  import opened Anchors
  import Availability
  import CrashAtomicity
  import L = Lifecycle

  // A committed checkpoint can be committed again exactly while it is AVAILABLE with a
  // location, however far the workload's generation has moved on; a repeated commit of
  // any other is an invalid transition, and of one that lost its locations incomplete.
  lemma RecommitSucceedsExactly(events: seq<Event>, c: CheckpointId, a: AttemptId)
    requires HasCommit(Run(EmptySys, events).db, c)
    ensures var db := Run(EmptySys, events).db;
            var row := db.checkpoints[c];
            && (CaptureCommit(db, c, a).Ok? <==> row.lifecycle == L.Available && row.locations != [])
            && (CaptureCommit(db, c, a) == Err(InvalidTransition) <==> row.lifecycle != L.Available)
            && (CaptureCommit(db, c, a) == Err(IncompleteCheckpoint) <==>
                  row.lifecycle == L.Available && row.locations == [])
  {
    CommittedExactlyByMarker(events, c);
    CrashAtomicity.Reachable(events);
    Availability.LinkedCheckpointsAreBacked(events, c);
    var db := Run(EmptySys, events).db;
    assert CrashAtomicity.Homed(db, c);
    hide Run, Inv, CrashAtomicity.DurableInv, CommitRows, HasSupersedes;
  }

  // A first commit is refused exactly for these reasons, the first that applies.
  lemma FirstCommitRefusals(db: Db, c: CheckpointId, a: AttemptId)
    requires c in db.checkpoints ==> db.checkpoints[c].lifecycle != L.Available
    ensures var tx := CaptureCommit(db, c, a);
            && (tx == Err(CheckpointNotFound) <==> c !in db.checkpoints)
            && (tx == Err(InvalidTransition) <==> c in db.checkpoints && db.checkpoints[c].lifecycle != L.Persisting)
            && (tx == Err(IncompleteCheckpoint) <==>
                  c in db.checkpoints && db.checkpoints[c].lifecycle == L.Persisting
                  && !CrashAtomicity.Ready(db.checkpoints[c]))
            && (tx == Err(GenerationMismatch) <==>
                  c in db.checkpoints && CrashAtomicity.Ready(db.checkpoints[c])
                  && db.checkpoints[c].workload in db.workloads
                  && db.workloads[db.checkpoints[c].workload].generation != db.checkpoints[c].workloadGeneration)
            && (tx == Err(WorkloadNotFound) <==>
                  c in db.checkpoints && CrashAtomicity.Ready(db.checkpoints[c])
                  && db.checkpoints[c].workload !in db.workloads)
  {
    hide CommitRows, HasSupersedes;
  }

  // A restore can commit exactly on a RESTORING checkpoint.
  lemma RestoreCommitSucceedsExactly(events: seq<Event>, c: CheckpointId, a: AttemptId, node: NodeName, token: Token,
        migration: bool, rollback: bool)
    ensures var db := Run(EmptySys, events).db;
            var tx := RestoreCommit(db, c, a, node, token, migration, rollback);
            && (tx.Ok? <==> c in db.checkpoints && db.checkpoints[c].lifecycle == L.Restoring)
            && (tx == Err(CheckpointNotFound) <==> c !in db.checkpoints)
            && (tx == Err(InvalidTransition) <==> c in db.checkpoints && db.checkpoints[c].lifecycle != L.Restoring)
  {
    var db := Run(EmptySys, events).db;
    hide Run, Inv, RestoredRows;
    CrashAtomicity.Reachable(events);
    assert c in db.checkpoints ==> CrashAtomicity.Homed(db, c);
    hide *;
    HomedRestores(db, c, a, node, token, migration, rollback);
  }

  lemma HomedRestores(db: Db, c: CheckpointId, a: AttemptId, node: NodeName, token: Token, migration: bool,
        rollback: bool)
    requires c in db.checkpoints ==> CrashAtomicity.Homed(db, c)
    ensures var tx := RestoreCommit(db, c, a, node, token, migration, rollback);
            && (tx.Ok? <==> c in db.checkpoints && db.checkpoints[c].lifecycle == L.Restoring)
            && (tx == Err(CheckpointNotFound) <==> c !in db.checkpoints)
            && (tx == Err(InvalidTransition) <==> c in db.checkpoints && db.checkpoints[c].lifecycle != L.Restoring)
  {
    hide RestoredRows;
  }

  // Row updates: a missing row is reported by all but the updates that do not look, and
  // a retirement is refused for a pin before it is refused for its state.
  lemma UpdateRefusals(cs: Rows, c: CheckpointId, e: RowEdit)
    ensures var tx := EditTx(cs, c, e);
            && (tx == Err(CheckpointNotFound) <==> c !in cs && (e.Overwrite? || e.SetLifecycle? || e.Retire?))
            && (tx == Err(NoRowReturned) <==> c !in cs && e.AddLocation?)
            && (tx == Err(PolicyViolation) <==> c in cs && e.Retire? && cs[c].protection == Pinned)
            && (tx == Err(InvalidTransition) <==>
                  c in cs && e.Retire? && cs[c].protection != Pinned && cs[c].lifecycle != L.Available)
            && (tx == Err(InsertConflict) <==>
                  c in cs && e.Overwrite?
                  && exists d :: d in cs && d != c && cs[d].workload == cs[c].workload
                                 && cs[d].generation == e.row.generation)
            && (tx.Ok? ==> forall d :: d in cs && d != c ==> d in tx.value && tx.value[d] == cs[d])
            && (tx.Ok? ==> tx.value.Keys == cs.Keys)
  {
    assert forall d :: d in cs <==> d in cs.Keys;
  }

  // An attempt or workload that is there already is not replaced.
  lemma FirstOnesStay(db: Db, a: AttemptId, attempt: Attempt, w: WorkloadId, workload: Workload)
    ensures a in db.attempts ==> AttemptBegin(db, a, attempt) == db
    ensures a !in db.attempts ==>
              AttemptBegin(db, a, attempt).attempts - {a} == db.attempts
              && AttemptBegin(db, a, attempt).attempts[a] == attempt
    ensures WorkloadInsert(db, w, workload) == Err(InsertConflict) <==> w in db.workloads
  {}

  // A verification is recorded, and nothing else; a checkpoint found corrupt is accepted
  // for no restore.
  lemma VerificationIsRecorded(s: Sys, c: CheckpointId, valid: bool, a: AttemptId, p: RestorePlan)
    requires c in s.db.checkpoints && a !in s.ops && p.checkpoint == c
    ensures var t := Step(s, Verify(c, valid));
            && t == s.(db := t.db) && t.db == s.db.(checkpoints := t.db.checkpoints)
            && t.db.checkpoints ==
               s.db.checkpoints[c := s.db.checkpoints[c].(integrity := if valid then Valid else Corrupt)]
            && (!valid ==> Step(t, BeginRestore(a, p)) == t)
  {}
}
