// Conservation laws: the workload counters are what the recovery journal says they
// are, in every run.
module Conservation {
  import opened Wrappers
  import opened Tables
  import opened Operations
  import opened Steps
  import opened Anchors
  import Journal

  // The attempts of workload w that have journal entry m.
  ghost function Marked(db: Db, m: Marker, w: WorkloadId): set<AttemptId> {
    set a | a in db.attempts && db.attempts[a].workload == w && JournalHas(db, m, a)
  }

  ghost function Bumps(s: Sys, w: WorkloadId): nat {
    if w in s.bumps then s.bumps[w] else 0
  }

  // generation counts committed restores; execution_epoch counts them again, plus
  // the transfers of authority, plus the fence bumps.
  ghost predicate Balanced(s: Sys, w: WorkloadId) {
    var commits, transfers := |Marked(s.db, GenerationCommitted, w)|, |Marked(s.db, AuthorityTransferred, w)|;
    if w in s.db.workloads then
      s.db.workloads[w].generation == commits && s.db.workloads[w].executionEpoch == commits + transfers + Bumps(s, w)
    else commits == 0 && transfers == 0 && Bumps(s, w) == 0
  }

  // ---------------- what a call does to a workload row ----------------

  // A successful restore commit of attempt a on workload w.
  ghost predicate Commits(db: Db, call: Call, w: WorkloadId) {
    call.CommitRestore? && RestoreCommit(db, call.c, call.a, call.node, call.token, call.migration, call.rollback).Ok?
    && call.c in db.checkpoints && db.checkpoints[call.c].workload == w
  }

  lemma CommitsAreRestores(db: Db, call: Call, w: WorkloadId)
    ensures Commits(db, call, w) ==> call.CommitRestore?
  {}

  predicate SameAuthority(w: Workload, w': Workload) {
    w'.generation == w.generation && w'.executionEpoch == w.executionEpoch && w'.activeNode == w.activeNode
    && w'.fenceToken == w.fenceToken && w'.fenceEpoch == w.fenceEpoch && w'.singleActive == w.singleActive
    && w'.parent == w.parent
  }

  lemma WorkloadAfter(db: Db, call: Call, w: WorkloadId)
    ensures var ws := Exec(db, call).0.workloads;
            if w !in db.workloads then
              w in ws ==> (call.CreateRow? || call.ForkRow?) && call.w == w && ws[w] == call.workload
            else if Commits(db, call, w) then
              w in ws
              && ws[w].generation == db.workloads[w].generation + 1
              && ws[w].executionEpoch == db.workloads[w].executionEpoch + (if call.migration then 2 else 1)
              && ws[w].activeNode == Some(call.node) && ws[w].fenceToken == Some(call.token)
              && ws[w].fenceEpoch == ws[w].executionEpoch
              && ws[w].singleActive == db.workloads[w].singleActive && ws[w].parent == db.workloads[w].parent
            else if call.EditWorkloadRow? && call.w == w && EditWorkload(db.workloads[w], call.workloadEdit).Ok? then
              w in ws && ws[w] == EditWorkload(db.workloads[w], call.workloadEdit).value
            else w in ws && SameAuthority(db.workloads[w], ws[w])
  {
    match call
    case CommitCapture(c, a) =>
      if CaptureCommit(db, c, a).Ok? { CaptureCommitWorkloads(db, c, a, w); }
      hide CaptureCommit;
    case CommitRestore(c, a, node, token, migration, rollback) =>
      if RestoreCommit(db, c, a, node, token, migration, rollback).Ok? { RestoreCommitWorkloads(db, call, w); }
      hide RestoreCommit;
    case _ => hide CaptureCommit, RestoreCommit;
  }

  lemma CaptureCommitWorkloads(db: Db, c: CheckpointId, a: AttemptId, w: WorkloadId)
    requires CaptureCommit(db, c, a).Ok?
    ensures var ws := CaptureCommit(db, c, a).value.workloads;
            (w in db.workloads <==> w in ws) && (w in ws ==> SameAuthority(db.workloads[w], ws[w]))
  {
    hide CommitRows;
  }

  lemma RestoreCommitWorkloads(db: Db, call: Call, w: WorkloadId)
    requires call.CommitRestore?
    requires RestoreCommit(db, call.c, call.a, call.node, call.token, call.migration, call.rollback).Ok?
    ensures call.c in db.checkpoints && db.checkpoints[call.c].workload in db.workloads
    ensures var ws :=
            RestoreCommit(db, call.c, call.a, call.node, call.token, call.migration, call.rollback).value.workloads;
            (w in db.workloads <==> w in ws)
            && (w in ws ==>
                  if db.checkpoints[call.c].workload != w then ws[w] == db.workloads[w]
                  else
                    ws[w].generation == db.workloads[w].generation + 1
                    && ws[w].executionEpoch == db.workloads[w].executionEpoch + (if call.migration then 2 else 1)
                    && ws[w].activeNode == Some(call.node) && ws[w].fenceToken == Some(call.token)
                    && ws[w].fenceEpoch == ws[w].executionEpoch
                    && ws[w].singleActive == db.workloads[w].singleActive && ws[w].parent == db.workloads[w].parent)
  {
    hide RestoredRows;
  }

  // ---------------- the two marker sets ----------------

  // Membership of one attempt in a marker set, before and after a step.
  lemma MarkedAt(s: Sys, e: Event, m: Marker, w: WorkloadId, a: AttemptId)
    requires Inv(s) && (m == GenerationCommitted || m == AuthorityTransferred) && CallOf(s, e).Some?
    ensures var call := CallOf(s, e).value;
            a in Marked(Step(s, e).db, m, w)
            <==> (a in Marked(s.db, m, w)
              || (Commits(s.db, call, w) && (m == GenerationCommitted || call.migration) && a == call.a))
  {
    var call := CallOf(s, e).value;
    StepDb(s, e);
    AttemptsGrow(s, e, a);
    RestoreMarksAppear(s, e, m, a);
    if call.CommitRestore? { CommitsAreFirst(s, e, call); }
    if a !in s.db.attempts { NewAttemptsAreUnmarked(s, a, m); }
    hide Step, CallOf, Inv, Exec, RestoreCommit;
  }

  lemma RestoreMarksAppear(s: Sys, e: Event, m: Marker, a: AttemptId)
    requires Inv(s) && (m == GenerationCommitted || m == AuthorityTransferred) && CallOf(s, e).Some?
    ensures var call := CallOf(s, e).value;
            JournalHas(Step(s, e).db, m, a) <==>
              JournalHas(s.db, m, a)
              || (call.CommitRestore? && a == call.a && (m == GenerationCommitted || call.migration)
                  && RestoreCommit(s.db, call.c, call.a, call.node, call.token, call.migration, call.rollback).Ok?)
  {
    assert Journal.Inv(s);
    hide Step, CallOf, Inv, Exec, RestoreCommit, OpEdit;
    var call := CallOf(s, e).value;
    StepDb(s, e);
    CallsAreAllowed(s, e);
    Journal.ExecJournal(s.db, call);
    if call.CommitRestore? { RestoreReplies(s.db, call); }
  }

  lemma RestoreReplies(db: Db, call: Call)
    requires call.CommitRestore?
    ensures Exec(db, call).1.Done? <==>
            RestoreCommit(db, call.c, call.a, call.node, call.token, call.migration, call.rollback).Ok?
  {
    hide RestoreCommit;
  }

  lemma CommittersAreUnmarked(s: Sys, e: Event, m: Marker, w: WorkloadId)
    requires Inv(s) && (m == GenerationCommitted || m == AuthorityTransferred) && CallOf(s, e).Some?
    ensures Commits(s.db, CallOf(s, e).value, w) ==> CallOf(s, e).value.a !in Marked(s.db, m, w)
  {
    hide Step, Inv, RestoreCommit;
    if CallOf(s, e).value.CommitRestore? { CommitsAreFirst(s, e, CallOf(s, e).value); }
    hide CallOf;
  }

  lemma MarkedGrows(s: Sys, e: Event, m: Marker, w: WorkloadId)
    requires Inv(s) && (m == GenerationCommitted || m == AuthorityTransferred)
    ensures var call := CallOf(s, e);
            Marked(Step(s, e).db, m, w) ==
            if call.Some? && Commits(s.db, call.value, w) && (m == GenerationCommitted || call.value.migration)
            then Marked(s.db, m, w) + {call.value.a} else Marked(s.db, m, w)
    ensures var call := CallOf(s, e);
            call.Some? && Commits(s.db, call.value, w) ==> call.value.a !in Marked(s.db, m, w)
  {
    hide Step, CallOf, Inv, Commits, Marked;
    if CallOf(s, e).Some? {
      CommitsAreRestores(s.db, CallOf(s, e).value, w);
      CommittersAreUnmarked(s, e, m, w);
      forall a { MarkedAt(s, e, m, w, a); }
    } else {
      StepDb(s, e);
    }
  }

  lemma CommitsAreFirst(s: Sys, e: Event, call: Call)
    requires Inv(s) && CallOf(s, e) == Some(call) && call.CommitRestore?
    ensures call.a in s.db.attempts && (GenerationCommitted, call.a) !in s.db.journal
            && (AuthorityTransferred, call.a) !in s.db.journal
    ensures call.c in s.db.checkpoints && s.db.attempts[call.a].workload == s.db.checkpoints[call.c].workload
  {
    CallsAreAllowed(s, e);
    assert Journal.At(s, call.a) && OpRow(s.db, call.a, s.ops[call.a]);
    assert GenerationCommitted !in Journal.MarksOf(s.db, call.a)
        && AuthorityTransferred !in Journal.MarksOf(s.db, call.a);
  }

  lemma NewAttemptsAreUnmarked(s: Sys, a: AttemptId, m: Marker)
    requires Inv(s) && a !in s.db.attempts
    ensures !JournalHas(s.db, m, a)
  {
    assert Journal.At(s, a);
    if a in s.ops { Journal.DeadIsLocal(Journal.MarksOf(s.db, a), Journal.AttemptOf(s.db, a), s.ops[a]); }
    assert m !in Journal.MarksOf(s.db, a);
  }

  // ---------------- one step ----------------

  ghost predicate Bumped(s: Sys, e: Event, w: WorkloadId) {
    e.Fence? && e.w == w && w in s.db.workloads && EditWorkload(s.db.workloads[w], BumpFence(e.epoch)).Ok?
  }

  lemma BumpsMove(s: Sys, e: Event, w: WorkloadId)
    ensures Bumps(Step(s, e), w) == Bumps(s, w) + if Bumped(s, e, w) then 1 else 0
    ensures Bumped(s, e, w) ==> w in s.db.workloads
  {
    hide ActionOf, Next, Failing, CaptureCommit, RestoreCommit, CommitRows;
  }

  lemma EditedCounters(w: Workload, e: WorkloadEdit)
    requires EditWorkload(w, e).Ok?
    ensures EditWorkload(w, e).value.generation == w.generation
    ensures EditWorkload(w, e).value.executionEpoch == w.executionEpoch + if e.BumpFence? then 1 else 0
  {}

  lemma OneMore(m: set<AttemptId>, a: AttemptId)
    requires a !in m
    ensures |m + {a}| == |m| + 1
  {}

  // What a step makes of the two counters of w.
  lemma CountersMove(s: Sys, e: Event, w: WorkloadId)
    requires Inv(s)
    ensures var ws, ws' := s.db.workloads, Step(s, e).db.workloads;
            var call := CallOf(s, e);
            (w in ws ==> w in ws')
            && (w !in ws && w in ws' ==> ws'[w].generation == 0 && ws'[w].executionEpoch == 0)
            && (w in ws ==>
                  ws'[w].generation == ws[w].generation + (if call.Some? && Commits(s.db, call.value, w) then 1 else 0)
                  && ws'[w].executionEpoch == ws[w].executionEpoch
                                              + (if call.Some? && Commits(s.db, call.value, w)
                                                then if call.value.migration then 2 else 1 else 0)
                                              + (if Bumped(s, e, w) then 1 else 0))
    ensures w !in s.db.workloads ==> !(CallOf(s, e).Some? && Commits(s.db, CallOf(s, e).value, w))
  {
    StepDb(s, e);
    assert e.Fence? ==> CallOf(s, e) == Some(EditWorkloadRow(e.w, BumpFence(e.epoch)));
    if CallOf(s, e).Some? {
      var call := CallOf(s, e).value;
      CallsAreAllowed(s, e);
      WorkloadAfter(s.db, call, w);
      assert call.EditWorkloadRow? ==> !e.Advance?;
      if call.EditWorkloadRow? { BumpCalls(s, e); }
      hide Step, Inv, Exec, CallOf;
      if w in s.db.workloads && call.EditWorkloadRow? && call.w == w
        && EditWorkload(s.db.workloads[w], call.workloadEdit).Ok? {
        EditedCounters(s.db.workloads[w], call.workloadEdit);
      }
    }
  }

  lemma BumpCalls(s: Sys, e: Event)
    requires CallOf(s, e).Some? && CallOf(s, e).value.EditWorkloadRow? && !e.Advance?
    ensures CallOf(s, e).value.workloadEdit.BumpFence? ==> e.Fence?
  {}

  lemma StepKeepsBalanced(s: Sys, e: Event, w: WorkloadId)
    requires Inv(s) && Balanced(s, w)
    ensures Balanced(Step(s, e), w)
  {
    hide Step, Inv, CallOf, Commits, Marked, Bumps, Bumped;
    CountersMove(s, e, w);
    MarkedGrows(s, e, GenerationCommitted, w);
    MarkedGrows(s, e, AuthorityTransferred, w);
    BumpsMove(s, e, w);
    if CallOf(s, e).Some? { CommitsAreRestores(s.db, CallOf(s, e).value, w); }
    if CallOf(s, e).Some? && Commits(s.db, CallOf(s, e).value, w) {
      OneMore(Marked(s.db, GenerationCommitted, w), CallOf(s, e).value.a);
      OneMore(Marked(s.db, AuthorityTransferred, w), CallOf(s, e).value.a);
    }
  }

  lemma {:induction false} RunKeepsBalanced(s: Sys, events: seq<Event>, w: WorkloadId)
    requires Inv(s) && Balanced(s, w)
    ensures Inv(Run(s, events)) && Balanced(Run(s, events), w)
    decreases |events|
  {
    RunKeepsInv(s, events);
    if events != [] {
      RunKeepsBalanced(s, events[..|events| - 1], w);
      StepKeepsBalanced(Run(s, events[..|events| - 1]), events[|events| - 1], w);
    }
    hide Inv, Step, Balanced;
  }

  // In every run, workload_generation equals the number of generation_committed
  // entries of the workload's attempts, and execution_epoch equals that number plus
  // its authority_transferred entries plus its fence bumps.
  lemma CountersCountTheJournal(events: seq<Event>, w: WorkloadId)
    requires w in Run(EmptySys, events).db.workloads
    ensures var s := Run(EmptySys, events);
            && s.db.workloads[w].generation == |Marked(s.db, GenerationCommitted, w)|
            && s.db.workloads[w].executionEpoch ==
                 |Marked(s.db, GenerationCommitted, w)| + |Marked(s.db, AuthorityTransferred, w)| + Bumps(s, w)
  {
    EmptyInv();
    assert Marked(EmptyDb, GenerationCommitted, w) == {} && Marked(EmptyDb, AuthorityTransferred, w) == {};
    RunKeepsBalanced(EmptySys, events, w);
    hide Run;
  }

  // ---------------- authority ----------------

  // The events that may hand authority over w around without a restore commit.
  predicate TouchesAuthority(e: Event, w: WorkloadId) {
    (e.Attach? && e.w == w) || (e.Detach? && e.w == w) || (e.Fence? && e.w == w)
  }

  lemma AuthorityMovesOnlyByCommit(s: Sys, e: Event, w: WorkloadId)
    requires Inv(s) && w in s.db.workloads && !TouchesAuthority(e, w)
    ensures w in Step(s, e).db.workloads
    ensures Marked(Step(s, e).db, GenerationCommitted, w) == Marked(s.db, GenerationCommitted, w) ==>
              SameAuthority(s.db.workloads[w], Step(s, e).db.workloads[w])
  {
    StepDb(s, e);
    MarkedGrows(s, e, GenerationCommitted, w);
    if CallOf(s, e).Some? {
      var call := CallOf(s, e).value;
      CallsAreAllowed(s, e);
      WorkloadAfter(s.db, call, w);
      assert call.EditWorkloadRow? && call.w == w ==> TouchesAuthority(e, w);
      hide Step, Inv, Exec, CallOf, Commits, Marked;
    }
  }

  ghost predicate LeavesAlone(events: seq<Event>, w: WorkloadId) {
    forall e :: e in events ==> !TouchesAuthority(e, w)
  }

  // Through any stretch of a run without an attach, detach or fence, a workload's
  // generation, epoch, owner and token stay as they are unless some restore of it
  // gains its commit marker: restores that fail or crash before that leave no trace.
  lemma {:induction false} UncommittedRestoresLeaveNoTrace(s: Sys, events: seq<Event>, w: WorkloadId)
    requires Inv(s) && w in s.db.workloads && LeavesAlone(events, w)
    requires Marked(Run(s, events).db, GenerationCommitted, w) == Marked(s.db, GenerationCommitted, w)
    ensures w in Run(s, events).db.workloads
    ensures SameAuthority(s.db.workloads[w], Run(s, events).db.workloads[w])
    decreases |events|
  {
    if events != [] {
      var prefix, last := events[..|events| - 1], events[|events| - 1];
      RunKeepsInv(s, prefix);
      MarkedOnlyGrows(s, prefix, w);
      MarkedGrows(Run(s, prefix), last, GenerationCommitted, w);
      hide Step, Inv, Marked, SameAuthority, CallOf, Commits;
      assert Marked(s.db, GenerationCommitted, w) <= Marked(Run(s, prefix).db, GenerationCommitted, w)
          <= Marked(Run(s, events).db, GenerationCommitted, w);
      UncommittedRestoresLeaveNoTrace(s, prefix, w);
      AuthorityMovesOnlyByCommit(Run(s, prefix), last, w);
      SameAuthorityChains(s.db.workloads[w], Run(s, prefix).db.workloads[w], Run(s, events).db.workloads[w]);
    }
  }

  lemma SameAuthorityChains(w: Workload, w': Workload, w'': Workload)
    requires SameAuthority(w, w') && SameAuthority(w', w'')
    ensures SameAuthority(w, w'')
  {}

  lemma {:induction false} MarkedOnlyGrows(s: Sys, events: seq<Event>, w: WorkloadId)
    requires Inv(s)
    ensures Marked(s.db, GenerationCommitted, w) <= Marked(Run(s, events).db, GenerationCommitted, w)
    decreases |events|
  {
    if events != [] {
      var prefix, last := events[..|events| - 1], events[|events| - 1];
      MarkedOnlyGrows(s, prefix, w);
      RunKeepsInv(s, prefix);
      MarkedGrows(Run(s, prefix), last, GenerationCommitted, w);
      hide Step, Inv, Marked, CallOf, Commits;
    }
  }
}
