// Epoch and token fencing over whole histories (src/workload.rs, the heartbeat check
// of src/coordinator.rs).
module Fencing {
  import opened Wrappers
  import opened Tables
  import opened Operations
  import opened Steps
  import Anchors
  import opened Conservation
  import Journal

  // is_fenced
  predicate IsFenced(w: Workload) {
    w.fenceToken.None? || w.activeNode.None?
  }

  // validate_fence
  predicate ValidFence(w: Workload, actor: NodeName, token: Token) {
    w.activeNode == Some(actor) && w.fenceToken == Some(token)
  }

  // The check a heartbeat entry has to pass not to be reported stale.
  predicate Passes(workloads: map<WorkloadId, Workload>, g: Grant) {
    g.workload in workloads
    && workloads[g.workload].executionEpoch == g.epoch && ValidFence(workloads[g.workload], g.node, g.token)
  }

  ghost predicate Fenced(row: Workload, tokens: set<Token>) {
    (row.fenceToken.Some? <==> row.activeNode.Some?)
    && (row.fenceToken.Some? ==> row.fenceEpoch == row.executionEpoch && row.fenceToken.value in tokens)
  }

  ghost predicate FencedRow(s: Sys, w: WorkloadId) {
    w in s.db.workloads && Fenced(s.db.workloads[w], s.tokens)
  }

  // No node holds authority of an epoch that has not been reached.
  ghost predicate IssuedGrant(s: Sys, g: Grant) {
    g.token in s.tokens && g.workload in s.db.workloads && g.epoch <= s.db.workloads[g.workload].executionEpoch
  }

  ghost predicate GrantingOp(s: Sys, op: Op) {
    op.Restore? ==>
      op.rplan.token in s.tokens
      && (op.rpc == RResume ==> IssuedGrant(s, GrantOf(op.rplan.workload, op.rplan.node, op.rplan.token, op.epoch)))
  }

  ghost predicate Inv(s: Sys) {
    (forall w :: w in s.db.workloads ==> FencedRow(s, w))
    && (forall g :: g in s.grants ==> IssuedGrant(s, g))
    && (forall a :: a in s.ops ==> GrantingOp(s, s.ops[a]))
  }

  // ---------------- one step ----------------

  lemma TokensGrow(s: Sys, e: Event)
    ensures s.tokens <= Step(s, e).tokens
  {
    hide ActionOf, Next, Failing, Exec;
  }

  // What a call makes of a workload row, when the tokens it brings are among tokens'.
  lemma CallKeepsFenced(db: Db, call: Call, w: WorkloadId, tokens: set<Token>, tokens': set<Token>)
    requires w in db.workloads ==> Fenced(db.workloads[w], tokens)
    requires tokens <= tokens' && (call.CreateRow? || call.ForkRow? ==> OutsideCall(call))
    requires call.EditWorkloadRow? && call.workloadEdit.Claim? && call.w in db.workloads ==>
               EditWorkload(db.workloads[call.w], call.workloadEdit).Ok? ==> call.workloadEdit.token in tokens'
    requires call.CommitRestore? ==> call.token in tokens'
    requires call.CreateRow? && call.workload.fenceToken.Some? ==> call.workload.fenceToken.value in tokens'
    ensures var ws := Exec(db, call).0.workloads;
            (w in db.workloads ==> w in ws && db.workloads[w].executionEpoch <= ws[w].executionEpoch)
            && (w in ws ==> Fenced(ws[w], tokens'))
  {
    WorkloadAfter(db, call, w);
    CommitsAreRestores(db, call, w);
    hide Exec, Commits;
  }

  lemma NewRowsComeFromOutside(s: Sys, e: Event)
    requires Journal.Inv(s) && CallOf(s, e).Some?
    ensures CallOf(s, e).value.CreateRow? || CallOf(s, e).value.ForkRow? ==> OutsideCall(CallOf(s, e).value)
  {
    hide CallOf, Journal.Inv;
    Anchors.CallsAreAllowed(s, e);
  }

  // The rows of a workload before and after a step.
  lemma RowMoves(s: Sys, e: Event, w: WorkloadId)
    requires Anchors.Inv(s) && Inv(s)
    ensures w in s.db.workloads ==> w in Step(s, e).db.workloads
    ensures w in Step(s, e).db.workloads ==> FencedRow(Step(s, e), w)
    ensures w in s.db.workloads ==> s.db.workloads[w].executionEpoch <= Step(s, e).db.workloads[w].executionEpoch
  {
    assert w in s.db.workloads ==> FencedRow(s, w);
    assert Journal.Inv(s);
    hide Step, Anchors.Inv, Inv, Exec, CallOf, OutsideCall, EditWorkload;
    StepDb(s, e);
    TokensGrow(s, e);
    if CallOf(s, e).Some? {
      NewRowsComeFromOutside(s, e);
      TokensOf(s, e, CallOf(s, e).value, w);
      CallKeepsFenced(s.db, CallOf(s, e).value, w, s.tokens, Step(s, e).tokens);
    }
  }

  // The token a call gives a workload is known, and fresh when it is claimed.
  lemma TokensOf(s: Sys, e: Event, call: Call, w: WorkloadId)
    requires Anchors.Inv(s) && Inv(s) && CallOf(s, e) == Some(call)
    ensures call.EditWorkloadRow? && call.workloadEdit.Claim? ==> call.workloadEdit.token !in s.tokens
    ensures call.EditWorkloadRow? && call.workloadEdit.Claim? && call.w in s.db.workloads ==>
              EditWorkload(s.db.workloads[call.w], call.workloadEdit).Ok? ==>
                call.workloadEdit.token in Step(s, e).tokens
    ensures call.CommitRestore? ==> call.token in Step(s, e).tokens
    ensures call.CreateRow? && call.workload.fenceToken.Some? ==> call.workload.fenceToken.value in Step(s, e).tokens
  {
    TokensGrow(s, e);
    if e.Advance? {
      Anchors.CallsAreAllowed(s, e);
      assert GrantingOp(s, s.ops[e.a]);
      hide Step;
    } else {
      hide ActionOf, Next, Failing, CaptureCommit, RestoreCommit;
    }
  }

  // A grant that does not pass before a step does not pass after it.
  lemma StaleStaysStale(s: Sys, e: Event, g: Grant)
    requires Anchors.Inv(s) && Inv(s) && g in s.grants && !Passes(s.db.workloads, g)
    ensures !Passes(Step(s, e).db.workloads, g)
  {
    assert IssuedGrant(s, g);
    hide Step, Anchors.Inv, Inv, Exec, CallOf;
    StepDb(s, e);
    if CallOf(s, e).Some? {
      var call := CallOf(s, e).value;
      WorkloadAfter(s.db, call, g.workload);
      TokensOf(s, e, call, g.workload);
    }
  }

  lemma IssuedStays(s: Sys, e: Event, g: Grant)
    requires Anchors.Inv(s) && Inv(s) && IssuedGrant(s, g)
    ensures IssuedGrant(Step(s, e), g)
  {
    TokensGrow(s, e);
    RowMoves(s, e, g.workload);
    hide Step, Inv, Anchors.Inv;
  }

  lemma EpochIsCurrent(s: Sys, a: AttemptId, op': Op, ans: Answer)
    requires a in s.ops && Anchors.Moves(s.ops[a], op', s.db, a, ans)
    ensures op'.Restore? ==>
              s.ops[a].Restore? && op'.rplan == s.ops[a].rplan
              && (op'.rpc == RResume ==>
                    op'.rplan.workload in s.db.workloads
                      && op'.epoch == s.db.workloads[op'.rplan.workload].executionEpoch)
  {
    var op := s.ops[a];
    if op.Capture? {
      var act := ActionOf(a, op, ans);
      Anchors.CaptureMoves(op.cpc, op.cplan, op.seen, if act.Ask? then Exec(s.db, act.call).1 else Done, ans);
    } else {
      hide TargetMayClaim, Reading, CaptureCommit, RestoreCommit;
    }
  }

  // Where a new grant comes from.
  lemma NewGrants(s: Sys, e: Event, g: Grant)
    requires Anchors.Inv(s) && Inv(s) && g in Step(s, e).grants && g !in s.grants
    ensures IssuedGrant(Step(s, e), g)
  {
    if e.Advance? {
      assert GrantingOp(s, s.ops[e.a]);
      AdvanceGrants(s, e.a, e.ans, g);
      IssuedStays(s, e, g);
    } else {
      assert e.Regrant? ==> FencedRow(s, e.w);
      hide ActionOf, Next, Failing, CaptureCommit, RestoreCommit, Anchors.Inv;
    }
  }

  lemma AdvanceGrants(s: Sys, a: AttemptId, ans: Answer, g: Grant)
    requires a in s.ops && g in AdvanceOp(s, a, ans).grants && g !in s.grants
    ensures var op := s.ops[a];
            op.Restore? && op.rpc == RResume && g == GrantOf(op.rplan.workload, op.rplan.node, op.rplan.token, op.epoch)
  {
    hide Exec, Next, Failing;
  }

  lemma StepKeepsGranting(s: Sys, e: Event, b: AttemptId)
    requires Anchors.Inv(s) && Inv(s) && b in Step(s, e).ops
    ensures GrantingOp(Step(s, e), Step(s, e).ops[b])
  {
    Anchors.OpsMove(s, e, b);
    TokensGrow(s, e);
    var op' := Step(s, e).ops[b];
    assert b in s.ops ==> GrantingOp(s, s.ops[b]);
    if op'.Restore? {
      if e.Advance? && e.a == b { EpochIsCurrent(s, b, op', e.ans); }
      var g := GrantOf(op'.rplan.workload, op'.rplan.node, op'.rplan.token, op'.epoch);
      if IssuedGrant(s, g) { IssuedStays(s, e, g); }
      assert e.BeginRestore? && MayRestore(s, e.a, e.rplan) ==> e.rplan.token in Step(s, e).tokens;
      hide Step, Inv, Anchors.Inv;
    }
  }

  lemma StepKeepsInv(s: Sys, e: Event)
    requires Anchors.Inv(s) && Inv(s)
    ensures Inv(Step(s, e))
  {
    var s' := Step(s, e);
    forall w | w in s'.db.workloads ensures FencedRow(s', w) { RowMoves(s, e, w); }
    forall g | g in s'.grants
      ensures IssuedGrant(s', g) { if g in s.grants { IssuedStays(s, e, g); } else { NewGrants(s, e, g); } }
    forall a | a in s'.ops ensures GrantingOp(s', s'.ops[a]) { StepKeepsGranting(s, e, a); }
    hide Step, FencedRow, IssuedGrant, GrantingOp, Anchors.Inv;
  }

  // ---------------- runs ----------------

  lemma {:induction false} RunKeepsInv(s: Sys, events: seq<Event>)
    requires Anchors.Inv(s) && Inv(s)
    ensures Anchors.Inv(Run(s, events)) && Inv(Run(s, events))
    decreases |events|
  {
    Anchors.RunKeepsInv(s, events);
    if events != [] {
      RunKeepsInv(s, events[..|events| - 1]);
      StepKeepsInv(Run(s, events[..|events| - 1]), events[|events| - 1]);
    }
    hide Anchors.Inv, Inv, Step;
  }

  lemma {:induction false} GrantsAreKept(s: Sys, events: seq<Event>, g: Grant)
    requires g in s.grants
    ensures g in Run(s, events).grants
    decreases |events|
  {
    if events != [] {
      GrantsAreKept(s, events[..|events| - 1], g);
      StepKeepsGrants(Run(s, events[..|events| - 1]), events[|events| - 1], g);
    }
    hide Step;
  }

  lemma StepKeepsGrants(s: Sys, e: Event, g: Grant)
    requires g in s.grants
    ensures g in Step(s, e).grants
  {
    hide ActionOf, Next, Failing, Exec;
  }

  // A workload row that holds a token names an active node, its fence epoch is its
  // execution epoch; granted epochs have been reached and one grant at most passes.
  lemma TokensComeWithAuthority(events: seq<Event>, w: WorkloadId)
    requires w in Run(EmptySys, events).db.workloads
    ensures var row := Run(EmptySys, events).db.workloads[w];
            !IsFenced(row) <==> row.fenceToken.Some?
    ensures var row := Run(EmptySys, events).db.workloads[w];
            row.fenceToken.Some? ==> row.activeNode.Some? && row.fenceEpoch == row.executionEpoch
    ensures forall g :: g in Run(EmptySys, events).grants && g.workload == w ==>
                          g.epoch <= Run(EmptySys, events).db.workloads[w].executionEpoch
    ensures forall g, h ::
              Passes(Run(EmptySys, events).db.workloads, g) && Passes(Run(EmptySys, events).db.workloads, h) ==>
                g.workload == h.workload ==> g == h
  {
    Anchors.EmptyInv();
    RunKeepsInv(EmptySys, events);
    var s := Run(EmptySys, events);
    hide Run, Anchors.Inv;
    assert FencedRow(s, w);
    forall g | g in s.grants && g.workload == w
      ensures g.epoch <= s.db.workloads[w].executionEpoch
    {
      assert IssuedGrant(s, g);
    }
  }

  // A grant that was ever issued and at some moment fails the heartbeat check fails
  // it from then on, whatever is claimed, released, fenced, restored or regranted.
  lemma {:induction false} FencedOutForGood(before: seq<Event>, after: seq<Event>, g: Grant)
    requires g in Run(EmptySys, before).grants && !Passes(Run(EmptySys, before).db.workloads, g)
    ensures !Passes(Run(Run(EmptySys, before), after).db.workloads, g)
    decreases |after|
  {
    if after != [] {
      var s := Run(EmptySys, before);
      var prefix, last := after[..|after| - 1], after[|after| - 1];
      FencedOutForGood(before, prefix, g);
      Anchors.EmptyInv();
      RunKeepsInv(EmptySys, before);
      RunKeepsInv(s, prefix);
      GrantsAreKept(s, prefix, g);
      hide Step, Anchors.Inv, Inv, Passes;
      StaleStaysStale(Run(s, prefix), last, g);
    }
  }

  // Whoever held authority before an epoch moves, by a fence, a restore or a
  // migration, never passes again.
  lemma MovedEpochsRevoke(before: seq<Event>, e: Event, after: seq<Event>, g: Grant)
    requires var s := Run(EmptySys, before);
             g in s.grants && g.workload in s.db.workloads && g.workload in Step(s, e).db.workloads
             && Step(s, e).db.workloads[g.workload].executionEpoch != s.db.workloads[g.workload].executionEpoch
    ensures !Passes(Run(Step(Run(EmptySys, before), e), after).db.workloads, g)
  {
    Anchors.EmptyInv();
    RunKeepsInv(EmptySys, before);
    var s := Run(EmptySys, before);
    assert IssuedGrant(s, g);
    RowMoves(s, e, g.workload);
    StepKeepsGrants(s, e, g);
    assert (before + [e])[..|before|] == before;
    assert Run(EmptySys, before + [e]) == Step(s, e);
    hide Run, Step, Anchors.Inv, Inv;
    FencedOutForGood(before + [e], after, g);
  }
}
