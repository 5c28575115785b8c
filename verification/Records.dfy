// The columns of a workload that say which checkpoint it is at: its checkpoint
// generation and resumability, over every run.
module Records {
  import opened Wrappers
  import opened Tables
  import opened Operations
  import opened Steps
  import opened RowInvariants
  import opened Anchors
  import opened Conservation
  import Availability
  import CrashAtomicity
  import Journal

  // The db_committed entry of checkpoint c appears.
  ghost predicate Publishes(s: Sys, e: Event, c: CheckpointId) {
    c in s.db.checkpoints && !HasCommit(s.db, c) && HasCommit(Step(s, e).db, c)
  }

  // Restore attempt a gains its generation_committed entry.
  ghost predicate Restores(s: Sys, e: Event, a: AttemptId) {
    !JournalHas(s.db, GenerationCommitted, a) && JournalHas(Step(s, e).db, GenerationCommitted, a)
  }

  // ---------------- what the two entries stand for ----------------

  // A capture about to commit has not committed.
  lemma CommittersArePending(s: Sys, a: AttemptId, call: Call)
    requires Inv(s) && call.CommitCapture? && call.c in s.db.checkpoints
    requires (a in s.ops && OpCall(a, s.ops[a], call)) || OutsideCall(call)
    ensures !HasCommit(s.db, call.c)
  {
    assert Journal.At(s, a);
    assert DbCommitted !in Journal.MarksOf(s.db, a);
    OwnersHold(s, a, call.c);
    hide Inv;
  }

  lemma PublishedByCommit(s: Sys, e: Event, c: CheckpointId)
    requires Inv(s)
    ensures Publishes(s, e, c) <==>
              CallOf(s, e).Some? && CallOf(s, e).value.CommitCapture? && CallOf(s, e).value.c == c
              && CaptureCommit(s.db, c, CallOf(s, e).value.a).Ok?
  {
    StepDb(s, e);
    StepKeepsRows(s, e);
    assert Journal.Inv(s);
    hide Step, Inv, Exec, OpCall, OutsideCall;
    if CallOf(s, e).Some? {
      var call := CallOf(s, e).value;
      CallsAreAllowed(s, e);
      hide CallOf;
      if call.CommitCapture? && CaptureCommit(s.db, call.c, call.a).Ok? { CommittersArePending(s, Caller(e), call); }
      hide CaptureCommit;
      if c in s.db.checkpoints { OwnersCommitTheirOwn(s, Caller(e), call, c); }
    }
  }

  lemma RestoredByCommit(s: Sys, e: Event, a: AttemptId)
    requires Inv(s) && Restores(s, e, a)
    ensures a in s.db.attempts && s.db.attempts[a].kind != CaptureKind
    ensures s.db.attempts[a].checkpoint in s.db.checkpoints
    ensures s.db.checkpoints[s.db.attempts[a].checkpoint].workload == s.db.attempts[a].workload
    ensures CallOf(s, e).Some? && Commits(s.db, CallOf(s, e).value, s.db.attempts[a].workload)
    ensures CallOf(s, e).value.CommitRestore? && CallOf(s, e).value.a == a
    ensures CallOf(s, e).value.c == s.db.attempts[a].checkpoint
    ensures CallOf(s, e).value.rollback <==> s.db.attempts[a].kind == RollbackKind
  {
    StepDb(s, e);
    hide Step, Exec, Inv, CallOf;
    RestoreMarksAppear(s, e, GenerationCommitted, a);
    CommitterRow(s, e, CallOf(s, e).value);
  }

  lemma CommitterRow(s: Sys, e: Event, call: Call)
    requires Inv(s) && CallOf(s, e) == Some(call) && call.CommitRestore?
    ensures call.a in s.db.attempts && call.c in s.db.checkpoints
    ensures var attempt := s.db.attempts[call.a];
            && attempt.kind != CaptureKind && (call.rollback <==> attempt.kind == RollbackKind)
            && attempt.checkpoint == call.c && attempt.workload == s.db.checkpoints[call.c].workload
  {
    CallsAreAllowed(s, e);
    assert Journal.At(s, call.a) && OpRow(s.db, call.a, s.ops[call.a]);
    hide Inv, CallOf;
  }

  // ---------------- one step ----------------

  lemma RecordAfter(db: Db, call: Call, w: WorkloadId)
    requires w in db.workloads
    ensures w in Exec(db, call).0.workloads
    ensures var row, row' := db.workloads[w], Exec(db, call).0.workloads[w];
            if call.CommitCapture? && CaptureCommit(db, call.c, call.a).Ok? && db.checkpoints[call.c].workload == w then
              var c := db.checkpoints[call.c];
              row'.checkpointGeneration == (if c.generation >= row.checkpointGeneration then c.generation
                                            else row.checkpointGeneration)
              && row'.resumability == (if c.generation >= row.checkpointGeneration then c.resumability
                                       else row.resumability)
            else
              row'.resumability == row.resumability
              && row'.checkpointGeneration ==
                 if Commits(db, call, w) then db.checkpoints[call.c].generation else row.checkpointGeneration
  {
    match call
    case CommitCapture(c, a) => hide CommitRows;
    case CommitRestore(c, a, node, token, migration, rollback) => hide CaptureCommit;
    case _ => hide CaptureCommit, RestoreCommit;
  }

  lemma NewRecords(s: Sys, e: Event, w: WorkloadId)
    requires Inv(s) && w !in s.db.workloads && w in Step(s, e).db.workloads
    ensures Step(s, e).db.workloads[w].checkpointGeneration == 0
    ensures Step(s, e).db.checkpoints == s.db.checkpoints && Step(s, e).db.journal == s.db.journal
  {
    StepDb(s, e);
    var call := CallOf(s, e).value;
    WorkloadAfter(s.db, call, w);
    ExecRows(s.db, call);
    Journal.ExecJournal(s.db, call);
    hide Inv, Exec, Step, ActionOf;
    CallsAreAllowed(s, e);
  }

  // What one step makes of the record of w.
  lemma RecordMoves(s: Sys, e: Event, w: WorkloadId)
    requires Inv(s) && w in s.db.workloads
    ensures w in Step(s, e).db.workloads
    ensures var row, row' := s.db.workloads[w], Step(s, e).db.workloads[w];
            && (forall c :: Publishes(s, e, c) && s.db.checkpoints[c].workload == w ==>
                  var g := s.db.checkpoints[c].generation;
                  if g >= row.checkpointGeneration then
                    row'.checkpointGeneration == g && row'.resumability == s.db.checkpoints[c].resumability
                  else
                    row'.checkpointGeneration == row.checkpointGeneration && row'.resumability == row.resumability)
            && ((forall c :: Publishes(s, e, c) ==> s.db.checkpoints[c].workload != w)
                && !(CallOf(s, e).Some? && Commits(s.db, CallOf(s, e).value, w)) ==>
                  row'.checkpointGeneration == row.checkpointGeneration && row'.resumability == row.resumability)
  {
    StepDb(s, e);
    hide Step, Inv, Exec, CallOf, Commits, Publishes;
    forall c { PublishedByCommit(s, e, c); }
    hide CaptureCommit;
    if CallOf(s, e).Some? {
      RecordAfter(s.db, CallOf(s, e).value, w);
      CommitsAreRestores(s.db, CallOf(s, e).value, w);
      if CallOf(s, e).value.CommitCapture? && CaptureCommit(s.db, CallOf(s, e).value.c, CallOf(s, e).value.a).Ok? {
        assert Publishes(s, e, CallOf(s, e).value.c);
      }
    }
  }

  // A committed row keeps the resumability it was captured with, through its commit too.
  lemma ResumabilityRests(s: Sys, e: Event, c: CheckpointId)
    requires Inv(s) && (HasCommit(s.db, c) || Publishes(s, e, c))
    ensures c in Step(s, e).db.checkpoints && SameIdentity(s.db.checkpoints[c], Step(s, e).db.checkpoints[c])
    ensures Step(s, e).db.checkpoints[c].resumability == s.db.checkpoints[c].resumability
  {
    StepKeepsRows(s, e);
    StepDb(s, e);
    PublishedByCommit(s, e, c);
    hide Step, Inv, Exec, Publishes, CallOf, OpCall, OutsideCall;
    if CallOf(s, e).Some? {
      var call := CallOf(s, e).value;
      CallsAreAllowed(s, e);
      ExecRows(s.db, call);
      if call.EditRow? && call.c == c && call.edit.Overwrite? { OverwritesAreUncommitted(s, Caller(e), call); }
      ResumabilityAt(s.db, call, c);
    }
  }

  lemma OverwritesAreUncommitted(s: Sys, a: AttemptId, call: Call)
    requires Inv(s) && call.EditRow? && call.edit.Overwrite? && call.c in s.db.checkpoints
    requires (a in s.ops && OpCall(a, s.ops[a], call)) || OutsideCall(call)
    ensures !HasCommit(s.db, call.c)
  {
    UncommittedStates(s, a, call.c, call.edit);
    OwnersHold(s, a, call.c);
    hide Inv;
  }

  lemma ResumabilityAt(db: Db, call: Call, c: CheckpointId)
    requires c in db.checkpoints && !(call.EditRow? && call.c == c && call.edit.Overwrite?)
    ensures c in RowsAfter(db, call) && RowsAfter(db, call)[c].resumability == db.checkpoints[c].resumability
  {
    hide RowsAfter, CaptureCommit;
    LifecycleAt(db, call, c);
    Availability.RowAt(db, call, c);
  }

  // ---------------- from one state to a later one ----------------

  // c has been committed on the way from db to db'.
  ghost predicate Newly(db: Db, db': Db, w: WorkloadId, c: CheckpointId) {
    HasCommit(db', c) && !HasCommit(db, c) && db'.checkpoints[c].workload == w
  }

  ghost function Recorded(db: Db, w: WorkloadId): nat {
    if w in db.workloads then db.workloads[w].checkpointGeneration else 0
  }

  // The newly committed checkpoint the workload is at.
  ghost predicate Leads(db: Db, db': Db, w: WorkloadId, c: CheckpointId) {
    Newly(db, db', w, c) && w in db'.workloads
    && db'.checkpoints[c].generation == db'.workloads[w].checkpointGeneration
    && db'.checkpoints[c].resumability == db'.workloads[w].resumability
    && Recorded(db, w) <= db'.checkpoints[c].generation
    && forall d :: Newly(db, db', w, d) ==> db'.checkpoints[d].generation <= db'.checkpoints[c].generation
  }

  // Nothing committed since is as late as what was recorded.
  ghost predicate Stands(db: Db, db': Db, w: WorkloadId) {
    Recorded(db', w) == Recorded(db, w)
    && (w in db.workloads ==>
          w in db'.workloads && db'.workloads[w].resumability == db.workloads[w].resumability)
    && forall c :: Newly(db, db', w, c) ==> db'.checkpoints[c].generation < Recorded(db, w)
  }

  ghost predicate Tracks(db: Db, db': Db, w: WorkloadId) {
    Stands(db, db', w) || exists c :: Leads(db, db', w, c)
  }

  lemma NewlyMoves(db: Db, s: Sys, e: Event, w: WorkloadId, c: CheckpointId)
    requires Inv(s) && (HasCommit(db, c) ==> HasCommit(s.db, c))
    ensures Newly(db, Step(s, e).db, w, c) <==>
              Newly(db, s.db, w, c) || (Publishes(s, e, c) && s.db.checkpoints[c].workload == w)
    ensures Newly(db, s.db, w, c) || Publishes(s, e, c) ==>
              c in s.db.checkpoints && c in Step(s, e).db.checkpoints
              && Step(s, e).db.checkpoints[c].generation == s.db.checkpoints[c].generation
              && Step(s, e).db.checkpoints[c].resumability == s.db.checkpoints[c].resumability
  {
    StepAdvances(s, e);
    if HasCommit(s.db, c) || Publishes(s, e, c) { ResumabilityRests(s, e, c); }
    if HasCommit(Step(s, e).db, c) && c !in s.db.checkpoints { InsertedRow(s, e, c); }
    hide Step, Inv;
  }

  // Every checkpoint's workload exists.
  ghost predicate AllHomed(db: Db) {
    forall c :: c in db.checkpoints ==> CrashAtomicity.Homed(db, c)
  }

  ghost predicate Later(db: Db, db': Db) {
    forall c :: HasCommit(db, c) ==> HasCommit(db', c)
  }

  // c has the same identity and resumability in both.
  ghost predicate SameRow(db: Db, db': Db, c: CheckpointId) {
    c in db.checkpoints && c in db'.checkpoints && db'.checkpoints[c].generation == db.checkpoints[c].generation
    && db'.checkpoints[c].resumability == db.checkpoints[c].resumability
  }

  lemma TracksOn(db: Db, db1: Db, db2: Db, w: WorkloadId)
    requires Tracks(db, db1, w) && forall c :: Newly(db, db2, w, c) <==> Newly(db, db1, w, c)
    requires forall c :: Newly(db, db1, w, c) ==> SameRow(db1, db2, c)
    requires Recorded(db2, w) == Recorded(db1, w)
    requires w in db1.workloads ==>
               w in db2.workloads && db2.workloads[w].resumability == db1.workloads[w].resumability
    ensures Tracks(db, db2, w)
  {
    hide Newly;
    if !Stands(db, db1, w) {
      var c :| Leads(db, db1, w, c);
      assert Leads(db, db2, w, c);
    }
  }

  lemma TracksOneMore(db: Db, db1: Db, db2: Db, w: WorkloadId, c: CheckpointId)
    requires Tracks(db, db1, w) && w in db1.workloads && w in db2.workloads && SameRow(db1, db2, c)
    requires forall d :: Newly(db, db2, w, d) <==> Newly(db, db1, w, d) || d == c
    requires forall d :: Newly(db, db1, w, d) ==> SameRow(db1, db2, d)
    requires var g, row, row' := db1.checkpoints[c].generation, db1.workloads[w], db2.workloads[w];
             if g >= row.checkpointGeneration then
               row'.checkpointGeneration == g && row'.resumability == db1.checkpoints[c].resumability
             else row'.checkpointGeneration == row.checkpointGeneration && row'.resumability == row.resumability
    ensures Tracks(db, db2, w)
  {
    hide Newly;
    if db1.checkpoints[c].generation >= db1.workloads[w].checkpointGeneration {
      if Stands(db, db1, w) { assert Leads(db, db2, w, c); }
      else { var d :| Leads(db, db1, w, d); assert Leads(db, db2, w, c); }
    } else if !Stands(db, db1, w) {
      var d :| Leads(db, db1, w, d);
      assert Leads(db, db2, w, d);
    }
  }

  lemma OnePublishes(s: Sys, e: Event, c: CheckpointId, d: CheckpointId)
    requires Inv(s) && Publishes(s, e, c) && Publishes(s, e, d)
    ensures c == d
  {
    hide Publishes, CallOf, Inv, CaptureCommit;
    PublishedByCommit(s, e, c);
    PublishedByCommit(s, e, d);
  }

  // A workload that does not exist yet has no checkpoint.
  lemma NothingYet(s: Sys, e: Event, w: WorkloadId)
    requires Inv(s) && AllHomed(s.db) && w !in s.db.workloads
    ensures forall c :: !(Publishes(s, e, c) && s.db.checkpoints[c].workload == w)
    ensures Recorded(Step(s, e).db, w) == 0
  {
    forall c | Publishes(s, e, c) ensures s.db.checkpoints[c].workload != w { assert CrashAtomicity.Homed(s.db, c); }
    if w in Step(s, e).db.workloads { NewRecords(s, e, w); }
    hide Step, Inv;
  }

  lemma StepTracks(db: Db, s: Sys, e: Event, w: WorkloadId)
    requires Inv(s) && AllHomed(s.db) && Later(db, s.db) && Tracks(db, s.db, w)
    requires !(CallOf(s, e).Some? && Commits(s.db, CallOf(s, e).value, w))
    ensures Tracks(db, Step(s, e).db, w)
  {
    var db' := Step(s, e).db;
    forall c { NewlyMoves(db, s, e, w, c); }
    hide Step, Inv, CallOf, Commits, Publishes, Newly, Tracks, AllHomed, HasCommit;
    if w in s.db.workloads { RecordMoves(s, e, w); } else { NothingYet(s, e, w); }
    if c :| Publishes(s, e, c) && s.db.checkpoints[c].workload == w {
      forall d | Publishes(s, e, d) ensures d == c { OnePublishes(s, e, c, d); }
      TracksOneMore(db, s.db, db', w, c);
    } else {
      TracksOn(db, s.db, db', w);
    }
  }

  lemma {:induction false} RunTracks(s: Sys, after: seq<Event>, w: WorkloadId)
    requires Inv(s) && CrashAtomicity.DurableInv(s)
    requires Marked(Run(s, after).db, GenerationCommitted, w) == Marked(s.db, GenerationCommitted, w)
    ensures Tracks(s.db, Run(s, after).db, w) && Later(s.db, Run(s, after).db)
    decreases |after|
  {
    if after != [] {
      var prefix, last := after[..|after| - 1], after[|after| - 1];
      var t := Run(s, prefix);
      CrashAtomicity.RunKeepsDurable(s, prefix);
      MarkedOnlyGrows(s, prefix, w);
      MarkedGrows(t, last, GenerationCommitted, w);
      assert AllHomed(t.db);
      hide Step, Inv, Marked, CallOf, Commits, CrashAtomicity.DurableInv, Tracks, AllHomed;
      RunTracks(s, prefix, w);
      StepAdvances(t, last);
      StepTracks(s.db, t, last, w);
      assert Later(s.db, Step(t, last).db) by {
        forall c | HasCommit(s.db, c) ensures HasCommit(Step(t, last).db, c) { assert HasCommit(t.db, c); }
      }
    }
  }

  // ---------------- in every run ----------------

  // Through any stretch of a run in which no restore of w commits, checkpoint_generation
  // and resumability follow the latest checkpoint committed meanwhile, if that is at
  // least as late as what was recorded, and stay as they are otherwise.
  lemma RecordFollowsCommits(before: seq<Event>, after: seq<Event>, w: WorkloadId)
    requires var s := Run(EmptySys, before);
             Marked(Run(s, after).db, GenerationCommitted, w) == Marked(s.db, GenerationCommitted, w)
    ensures var s := Run(EmptySys, before); Tracks(s.db, Run(s, after).db, w)
  {
    CrashAtomicity.Reachable(before);
    hide Run, Inv, CrashAtomicity.DurableInv;
    RunTracks(Run(EmptySys, before), after, w);
  }

  // The latest committed checkpoint of w, and no other, is what w records.
  ghost predicate AtLatest(db: Db, w: WorkloadId)
    requires w in db.workloads
  {
    var row := db.workloads[w];
    || (row.checkpointGeneration == 0 && forall c :: HasCommit(db, c) ==> db.checkpoints[c].workload != w)
    || exists c ::
         && HasCommit(db, c) && db.checkpoints[c].workload == w
         && db.checkpoints[c].generation == row.checkpointGeneration
         && db.checkpoints[c].resumability == row.resumability
         && forall d :: HasCommit(db, d) && db.checkpoints[d].workload == w ==>
              db.checkpoints[d].generation <= row.checkpointGeneration
  }

  // In every run, a workload none of whose restores has committed is at its latest
  // committed checkpoint, or at none.
  lemma LatestCheckpointIsRecorded(events: seq<Event>, w: WorkloadId)
    requires w in Run(EmptySys, events).db.workloads
    requires Marked(Run(EmptySys, events).db, GenerationCommitted, w) == {}
    ensures AtLatest(Run(EmptySys, events).db, w)
  {
    assert Run(EmptySys, []) == EmptySys;
    var db := Run(EmptySys, events).db;
    hide Run;
    RecordFollowsCommits([], events, w);
    assert forall c :: Newly(EmptyDb, db, w, c) <==> HasCommit(db, c) && db.checkpoints[c].workload == w;
    if c :| Leads(EmptyDb, db, w, c) { assert HasCommit(db, c); }
  }

  // When a checkpoint's db_committed entry appears, its workload records it unless it
  // already records a later one; and nothing else in any workload row changes.
  lemma CommitsAreRecorded(events: seq<Event>, e: Event, c: CheckpointId)
    requires Publishes(Run(EmptySys, events), e, c)
    ensures var s := Run(EmptySys, events);
            var row, ws, ws' := s.db.checkpoints[c], s.db.workloads, Step(s, e).db.workloads;
            && row.workload in ws
            && ws' == ws[row.workload :=
                 if row.generation < ws[row.workload].checkpointGeneration then ws[row.workload]
                 else ws[row.workload].(checkpointGeneration := row.generation, resumability := row.resumability)]
  {
    var s := Run(EmptySys, events);
    CrashAtomicity.Reachable(events);
    assert CrashAtomicity.Homed(s.db, c);
    hide Run, Inv, CrashAtomicity.DurableInv;
    PublishedByCommit(s, e, c);
    StepDb(s, e);
    CommittedWorkloads(s.db, c, CallOf(s, e).value.a);
    hide Step, Publishes, CallOf;
  }

  lemma CommittedWorkloads(db: Db, c: CheckpointId, a: AttemptId)
    requires c in db.checkpoints && CaptureCommit(db, c, a).Ok? && db.checkpoints[c].workload in db.workloads
    ensures var row, ws := db.checkpoints[c], db.workloads;
            Exec(db, CommitCapture(c, a)).0.workloads ==
            ws[row.workload :=
              if row.generation < ws[row.workload].checkpointGeneration then ws[row.workload]
              else ws[row.workload].(checkpointGeneration := row.generation, resumability := row.resumability)]
  {
    hide CommitRows;
  }

  // When a restore gains its commit marker, its workload records the generation of the
  // checkpoint it went back to, whichever that is, and records it until the next commit
  // of a capture or a restore of that workload.
  lemma RestoresAreRecorded(before: seq<Event>, e: Event, a: AttemptId, after: seq<Event>)
    requires Restores(Run(EmptySys, before), e, a)
    requires var t := Step(Run(EmptySys, before), e);
             var t' := Run(t, after);
             a in t.db.attempts ==>
               var w := t.db.attempts[a].workload;
               Marked(t'.db, GenerationCommitted, w) == Marked(t.db, GenerationCommitted, w)
               && forall c :: !Newly(t.db, t'.db, w, c)
    ensures var t' := Run(Step(Run(EmptySys, before), e), after);
            && a in t'.db.attempts && t'.db.attempts[a].workload in t'.db.workloads
            && t'.db.attempts[a].checkpoint in t'.db.checkpoints
            && t'.db.workloads[t'.db.attempts[a].workload].checkpointGeneration ==
               t'.db.checkpoints[t'.db.attempts[a].checkpoint].generation
  {
    var s := Run(EmptySys, before);
    var t := Step(s, e);
    CrashAtomicity.Reachable(before);
    StepKeepsInv(s, e);
    CrashAtomicity.StepKeepsDurableInv(s, e);
    hide Run, Step, Inv, CrashAtomicity.DurableInv, Restores;
    JustRestored(s, e, a);
    RunTracks(t, after, t.db.attempts[a].workload);
    AttemptStays(t, after, a);
    RowStays(t, after, t.db.attempts[a].checkpoint);
  }

  lemma JustRestored(s: Sys, e: Event, a: AttemptId)
    requires Inv(s) && Restores(s, e, a)
    ensures a in Step(s, e).db.attempts
    ensures var db, attempt := Step(s, e).db, Step(s, e).db.attempts[a];
            && attempt.workload in db.workloads && attempt.checkpoint in db.checkpoints
            && db.workloads[attempt.workload].checkpointGeneration == db.checkpoints[attempt.checkpoint].generation
  {
    StepDb(s, e);
    AttemptsGrow(s, e, a);
    StepKeepsRows(s, e);
    hide Step, Inv, CallOf, Exec, Restores;
    RestoredByCommit(s, e, a);
    hide Commits;
    var w := s.db.attempts[a].workload;
    CommitsNeedWorkload(s.db, CallOf(s, e).value, w);
    RecordAfter(s.db, CallOf(s, e).value, w);
  }

  lemma CommitsNeedWorkload(db: Db, call: Call, w: WorkloadId)
    requires Commits(db, call, w)
    ensures w in db.workloads
  {}

  lemma {:induction false} AttemptStays(s: Sys, events: seq<Event>, a: AttemptId)
    requires Inv(s) && a in s.db.attempts
    ensures var t := Run(s, events);
            a in t.db.attempts && t.db.attempts[a] == s.db.attempts[a].(state := t.db.attempts[a].state)
    decreases |events|
  {
    if events != [] {
      var prefix, last := events[..|events| - 1], events[|events| - 1];
      AttemptStays(s, prefix, a);
      RunKeepsInv(s, prefix);
      AttemptsGrow(Run(s, prefix), last, a);
    }
    hide Step, Inv;
  }

  lemma {:induction false} RowStays(s: Sys, events: seq<Event>, c: CheckpointId)
    requires Inv(s) && c in s.db.checkpoints
    ensures c in Run(s, events).db.checkpoints && SameIdentity(s.db.checkpoints[c], Run(s, events).db.checkpoints[c])
    decreases |events|
  {
    if events != [] {
      var prefix, last := events[..|events| - 1], events[|events| - 1];
      RowStays(s, prefix, c);
      RunKeepsInv(s, prefix);
      StepKeepsRows(Run(s, prefix), last);
    }
    hide Step, Inv;
  }
}
