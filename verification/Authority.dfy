// Who holds a workload, step by step: what gives authority, what takes it away, and that
// nothing else does (src/persistence.rs, src/workload.rs).
module Authority {
  import opened Wrappers
  import opened Tables
  import opened Operations
  import opened Steps
  import opened Conservation
  import opened Fencing
  import Anchors

  // Some restore of w gains its commit marker.
  ghost predicate GainsCommit(s: Sys, e: Event, w: WorkloadId) {
    Marked(Step(s, e).db, GenerationCommitted, w) != Marked(s.db, GenerationCommitted, w)
  }

  // `node` need not ask anybody before it claims the workload.
  predicate FreeFor(row: Workload, node: NodeName) {
    !row.singleActive || row.activeNode == None || row.activeNode == Some(node) || row.activeNode == Some(MIGRATING)
  }

  // An attach that gets the workload.
  ghost predicate Claims(s: Sys, e: Event, w: WorkloadId) {
    e.Attach? && e.w == w && e.token !in s.tokens && w in s.db.workloads
    && e.epoch == s.db.workloads[w].executionEpoch && FreeFor(s.db.workloads[w], e.node)
  }

  ghost predicate Fences(s: Sys, e: Event, w: WorkloadId) {
    e.Fence? && e.w == w && w in s.db.workloads && e.epoch == s.db.workloads[w].executionEpoch
  }

  // A detach of the node that holds the workload.
  ghost predicate Releases(s: Sys, e: Event, w: WorkloadId) {
    e.Detach? && e.w == w && w in s.db.workloads && s.db.workloads[w].activeNode == Some(e.node)
  }

  // ---------------- what one step does to a claim ----------------

  lemma CommitGains(s: Sys, e: Event, w: WorkloadId)
    requires Anchors.Inv(s)
    ensures GainsCommit(s, e, w) <==> CallOf(s, e).Some? && Commits(s.db, CallOf(s, e).value, w)
  {
    hide Step, CallOf, Anchors.Inv, Commits, Marked;
    MarkedGrows(s, e, GenerationCommitted, w);
  }

  // A restore commit hands the workload to the node and the token of its plan.
  lemma CommitHandsOver(s: Sys, e: Event, w: WorkloadId)
    requires Anchors.Inv(s) && GainsCommit(s, e, w) && w in s.db.workloads
    ensures e.Advance? && e.a in s.ops && s.ops[e.a].Restore? && s.ops[e.a].rplan.workload == w
    ensures w in Step(s, e).db.workloads
    ensures var row, row', p := s.db.workloads[w], Step(s, e).db.workloads[w], s.ops[e.a].rplan;
            row'.executionEpoch > row.executionEpoch && row'.fenceEpoch == row'.executionEpoch
            && row'.activeNode == Some(p.node) && row'.fenceToken == Some(p.token)
  {
    CommitGains(s, e, w);
    var call := CallOf(s, e).value;
    CommitsAreRestores(s.db, call, w);
    StepDb(s, e);
    WorkloadAfter(s.db, call, w);
    Anchors.CallsAreAllowed(s, e);
    assert Anchors.OpRow(s.db, e.a, s.ops[e.a]);
    hide Step, Anchors.Inv, Exec, CallOf;
  }

  lemma EditOf(s: Sys, e: Event, w: WorkloadId)
    requires CallOf(s, e).Some? && CallOf(s, e).value.EditWorkloadRow? && CallOf(s, e).value.w == w && !e.Advance?
    ensures e.Attach? || e.Detach? || e.Fence?
    ensures e.Attach? ==>
              e.w == w && e.token !in s.tokens && CallOf(s, e).value.workloadEdit == Claim(e.node, e.token, e.epoch)
    ensures e.Detach? ==> e.w == w && CallOf(s, e).value.workloadEdit == Unclaim(e.node)
    ensures e.Fence? ==> e.w == w && CallOf(s, e).value.workloadEdit == BumpFence(e.epoch)
  {}

  lemma EditsOf(s: Sys, e: Event, w: WorkloadId)
    ensures (e.Attach? && e.token !in s.tokens) || e.Detach? || e.Fence? ==>
              CallOf(s, e).Some? && CallOf(s, e).value.EditWorkloadRow? && CallOf(s, e).value.w == e.w
  {}

  // The claim of w after a step that commits no restore of it.
  ghost function ClaimAfter(s: Sys, e: Event, w: WorkloadId): Workload
    requires w in s.db.workloads
  {
    var row := s.db.workloads[w];
    if Claims(s, e, w) then
      row.(activeNode := Some(e.node), fenceToken := Some(e.token), fenceEpoch := row.executionEpoch)
    else if Fences(s, e, w) then row.(executionEpoch := row.executionEpoch + 1, activeNode := None, fenceToken := None)
    else if Releases(s, e, w) then row.(activeNode := None, fenceToken := None)
    else row
  }

  lemma ClaimMoves(s: Sys, e: Event, w: WorkloadId)
    requires Anchors.Inv(s) && w in s.db.workloads && !GainsCommit(s, e, w)
    ensures w in Step(s, e).db.workloads && SameAuthority(ClaimAfter(s, e, w), Step(s, e).db.workloads[w])
  {
    CommitGains(s, e, w);
    StepDb(s, e);
    EditsOf(s, e, w);
    if CallOf(s, e).Some? {
      var call := CallOf(s, e).value;
      Anchors.CallsAreAllowed(s, e);
      WorkloadAfter(s.db, call, w);
      assert call.EditWorkloadRow? ==> !e.Advance?;
      if call.EditWorkloadRow? && call.w == w { EditOf(s, e, w); }
    }
    hide Step, Anchors.Inv, Exec, CallOf, Commits, GainsCommit;
  }

  // ---------------- in every run ----------------

  lemma Sound(events: seq<Event>)
    ensures Anchors.Inv(Run(EmptySys, events)) && Fencing.Inv(Run(EmptySys, events))
  {
    Anchors.EmptyInv();
    Fencing.RunKeepsInv(EmptySys, events);
  }

  // A grant that passes stops passing by exactly four kinds of step: a fence at the
  // current epoch, a detach of its node, a claim that the workload is free for (another
  // node's only when the workload is not single-active or its owner is MIGRATING), and
  // the commit of a restore.
  lemma GrantEndsExactly(events: seq<Event>, e: Event, g: Grant)
    requires Passes(Run(EmptySys, events).db.workloads, g)
    ensures var s := Run(EmptySys, events);
            var row := s.db.workloads[g.workload];
            !Passes(Step(s, e).db.workloads, g) <==>
              || (e.Fence? && e.w == g.workload && e.epoch == g.epoch)
              || (e.Detach? && e.w == g.workload && e.node == g.node)
              || (e.Attach? && e.w == g.workload && e.token !in s.tokens && e.epoch == g.epoch
                  && (e.node == g.node || !row.singleActive || g.node == MIGRATING))
              || GainsCommit(s, e, g.workload)
  {
    var s := Run(EmptySys, events);
    Sound(events);
    assert FencedRow(s, g.workload);
    hide Run, Step, Anchors.Inv, Fencing.Inv, GainsCommit;
    if GainsCommit(s, e, g.workload) {
      CommitHandsOver(s, e, g.workload);
    } else {
      ClaimMoves(s, e, g.workload);
    }
  }

  // So nobody seizes a single-active workload from a node whose grant passes.
  lemma {:induction false} HeldWorkloadsStayHeld(events: seq<Event>, after: seq<Event>, g: Grant)
    requires var s := Run(EmptySys, events); Passes(s.db.workloads, g) && s.db.workloads[g.workload].singleActive
    requires g.node != MIGRATING
    requires forall e :: e in after ==>
                          !(e.Fence? && e.w == g.workload) && !(e.Detach? && e.w == g.workload && e.node == g.node)
                          && !(e.Attach? && e.w == g.workload && e.node == g.node)
    requires var s := Run(EmptySys, events);
             Marked(Run(s, after).db, GenerationCommitted, g.workload) ==
             Marked(s.db, GenerationCommitted, g.workload)
    ensures Passes(Run(Run(EmptySys, events), after).db.workloads, g)
    ensures Run(Run(EmptySys, events), after).db.workloads[g.workload].singleActive
    decreases |after|
  {
    if after != [] {
      var s := Run(EmptySys, events);
      var prefix, last := after[..|after| - 1], after[|after| - 1];
      var t := Run(s, prefix);
      hide Step, Anchors.Inv, Fencing.Inv, Marked, CallOf, Commits, GainsCommit;
      Sound(events);
      Anchors.RunKeepsInv(s, prefix);
      MarkedOnlyGrows(s, prefix, g.workload);
      MarkedGrows(t, last, GenerationCommitted, g.workload);
      CommitGains(t, last, g.workload);
      assert !GainsCommit(t, last, g.workload);
      HeldWorkloadsStayHeld(events, prefix, g);
      ClaimMoves(t, last, g.workload);
    }
  }

  // A single-active workload goes from one node to another only by the commit of a
  // restore onto that node.
  lemma OwnersChangeByCommit(events: seq<Event>, e: Event, w: WorkloadId)
    requires var s := Run(EmptySys, events); w in s.db.workloads && s.db.workloads[w].singleActive
    ensures var s := Run(EmptySys, events);
            w in Step(s, e).db.workloads
            && var row, row' := s.db.workloads[w], Step(s, e).db.workloads[w];
               (row.activeNode.Some? && row.activeNode.value != MIGRATING && row'.activeNode.Some?
                && row'.activeNode != row.activeNode ==>
                  GainsCommit(s, e, w) && e.Advance? && e.a in s.ops && s.ops[e.a].Restore?
                  && row'.activeNode == Some(s.ops[e.a].rplan.node)
                  && row'.fenceToken == Some(s.ops[e.a].rplan.token))
  {
    var s := Run(EmptySys, events);
    Sound(events);
    hide Run, Step, Anchors.Inv, Fencing.Inv, GainsCommit;
    if GainsCommit(s, e, w) { CommitHandsOver(s, e, w); } else { ClaimMoves(s, e, w); }
  }

  // An attach is granted exactly when its token is fresh, its epoch current, and the
  // workload free for the node; then its grant passes, and otherwise nothing changes.
  lemma AttachIsGrantedExactly(events: seq<Event>, w: WorkloadId, node: NodeName, token: Token, epoch: nat)
    ensures var s := Run(EmptySys, events);
            var t, g := Step(s, Attach(w, node, token, epoch)), GrantOf(w, node, token, epoch);
            var granted := w in s.db.workloads && token !in s.tokens && epoch == s.db.workloads[w].executionEpoch
              && FreeFor(s.db.workloads[w], node);
            && (granted ==> g in t.grants && Passes(t.db.workloads, g) && token in t.tokens)
            && (!granted ==> t == s)
            && (granted ==> g !in s.grants)
  {
    var s := Run(EmptySys, events);
    Sound(events);
    assert forall g :: g in s.grants ==> IssuedGrant(s, g);
    hide Run, Anchors.Inv, Fencing.Inv;
  }

  // After a release nobody holds the workload, and any node may attach at once; the
  // epoch has not moved.  A release by another node changes nothing.
  lemma ReleasesAreExact(events: seq<Event>, w: WorkloadId, node: NodeName)
    ensures var s := Run(EmptySys, events);
            var t := Step(s, Detach(w, node));
            if w in s.db.workloads && s.db.workloads[w].activeNode == Some(node) then
              && w in t.db.workloads
              && t.db.workloads[w].activeNode == None && IsFenced(t.db.workloads[w])
              && t.db.workloads[w].executionEpoch == s.db.workloads[w].executionEpoch
              && (forall other :: FreeFor(t.db.workloads[w], other))
              && t.db.workloads - {w} == s.db.workloads - {w}
            else t == s
  {
    hide Run;
  }

  // A workload created with a holder is that holder's: its grant of epoch 0 passes.
  // Created under an id or with a token that is in use, nothing happens.
  lemma CreatedForItsHolder(events: seq<Event>, w: WorkloadId, resumability: Resumability, singleActive: bool,
        node: NodeName, token: Token)
    ensures var s := Run(EmptySys, events);
            var t, g := Step(s, CreateWorkload(w, resumability, singleActive, Some((node, token)))),
                        GrantOf(w, node, token, 0);
            if w in s.db.workloads || token in s.tokens then t == s
            else
              g in t.grants && Passes(t.db.workloads, g) && token in t.tokens
              && t.db.workloads[w].singleActive == singleActive && t.db.workloads[w].resumability == resumability
              && t.db.workloads - {w} == s.db.workloads - {w}
  {
    hide Run;
  }

  // The authority that recovery hands to a node passes exactly when the node is the owner.
  lemma RegrantsPassExactly(events: seq<Event>, w: WorkloadId, node: NodeName)
    requires var s := Run(EmptySys, events); w in s.db.workloads && s.db.workloads[w].fenceToken.Some?
    ensures var s := Run(EmptySys, events);
            var row, t := s.db.workloads[w], Step(s, Regrant(w, node));
            var g := GrantOf(w, node, row.fenceToken.value, row.executionEpoch);
            g in t.grants && t.db == s.db && (Passes(t.db.workloads, g) <==> row.activeNode == Some(node))
  {
    hide Run;
  }

  // A fork is nobody's: any node may attach to it at epoch 0, and its parent's authority
  // does not reach it.
  lemma ForkedIsFree(events: seq<Event>, w: WorkloadId, c: CheckpointId, resumability: Resumability,
        singleActive: bool)
    ensures var s := Run(EmptySys, events);
            var t := Step(s, ForkWorkload(w, c, resumability, singleActive));
            if w in s.db.workloads || c !in s.db.checkpoints then t == s
            else
              && t.db.workloads - {w} == s.db.workloads - {w}
              && w in t.db.workloads && IsFenced(t.db.workloads[w]) && t.db.workloads[w].executionEpoch == 0
              && t.db.workloads[w].generation == 0 && t.db.workloads[w].singleActive == singleActive
              && t.db.workloads[w].resumability == resumability
              && t.db.workloads[w].parent == Some(s.db.checkpoints[c].workload)
              && (forall node :: FreeFor(t.db.workloads[w], node))
              && (forall g: Grant :: g.workload == w ==> !Passes(t.db.workloads, g))
  {
    hide Run;
  }
}
