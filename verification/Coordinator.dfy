// Loops of the coordinator over workload rows: the stale sweep, fencing, attachment
// and the heartbeat check (src/coordinator.rs).
module Coordinator {
  import opened Wrappers
  import opened Tables
  import opened Persistence
  import Operations
  import Fencing

  // The rows after every workload of `node` has been fenced.
  ghost predicate Swept(before: map<WorkloadId, Workload>, after: map<WorkloadId, Workload>, node: NodeName,
        left: set<WorkloadId>) {
    after.Keys == before.Keys
    && forall w :: w in before ==>
         after[w] == if before[w].activeNode == Some(node) && w !in left
                     then before[w].(executionEpoch := before[w].executionEpoch + 1, fenceToken := None, activeNode :=
                       None)
                     else before[w]
  }

  // sweep_stale for one node that has gone stale: each of its workloads loses its claim
  // and moves to a new epoch, and no other workload changes.
  method SweepStaleNode(store: Store, node: NodeName)
    requires store.Valid()
    modifies store`workloads
    ensures store.Valid() && Swept(old(store.workloads), store.workloads, node, {})
    ensures forall w :: w in store.workloads ==> store.workloads[w].activeNode != Some(node)
  {
    ghost var before := store.workloads;
    var left := store.workloads.Keys;
    while left != {}
      invariant left <= before.Keys && store.Valid()
      invariant Swept(before, store.workloads, node, left)
      decreases |left|
    {
      var w :| w in left;
      if store.workloads[w].activeNode == Some(node) {
        var bumped, epoch := store.BumpFence(w, store.workloads[w].executionEpoch);
      }
      left := left - {w};
    }
  }

  // A swept node's grants are refused from then on: none that passed before still does.
  lemma SweptGrantsFail(before: map<WorkloadId, Workload>, after: map<WorkloadId, Workload>, node: NodeName,
        g: Operations.Grant)
    requires Swept(before, after, node, {})
    ensures g.node == node ==> !Fencing.Passes(after, g)
    ensures g.node != node ==> (Fencing.Passes(after, g) <==> Fencing.Passes(before, g))
  {}

  // fence_workload
  method FenceWorkload(store: Store, id: WorkloadId) returns (r: Result<Workload, StoreError>)
    requires store.Valid()
    modifies store`workloads
    ensures store.Valid() && (r.Ok? <==> id in old(store.workloads))
            && (r.Err? ==> store.workloads == old(store.workloads))
    ensures r.Ok? ==>
              store.workloads == old(store.workloads)[id := r.value]
              && r.value ==
                 old(store.workloads)[id].(executionEpoch := old(store.workloads)[id].executionEpoch + 1, fenceToken :=
                   None, activeNode := None)
              && Fencing.IsFenced(r.value)
  {
    if id !in store.workloads { return Err(WorkloadNotFound); }
    var w := store.workloads[id];
    var bumped, epoch := store.BumpFence(id, w.executionEpoch);
    store.Release(id, if w.activeNode.Some? then w.activeNode.value else "");
    r := Ok(store.workloads[id]);
  }

  // One entry of a heartbeat.
  datatype Held = Held(workload: WorkloadId, token: Token, epoch: nat)

  // The workloads a heartbeat from `node` is told are stale: those it reports whose row
  // exists and whose grant does not pass.
  method StaleWorkloads(store: Store, node: NodeName, reported: seq<Held>) returns (stale: seq<WorkloadId>)
    ensures forall w :: w in stale <==>
              w in store.workloads
              && exists h <- reported ::
                   h.workload == w && !Fencing.Passes(store.workloads, Operations.GrantOf(w, node, h.token, h.epoch))
  {
    stale := [];
    var i := 0;
    while i < |reported|
      invariant 0 <= i <= |reported|
      invariant forall w :: w in stale <==>
                  w in store.workloads
                  && exists h <- reported[..i] ::
                       h.workload == w
                       && !Fencing.Passes(store.workloads, Operations.GrantOf(w, node, h.token, h.epoch))
    {
      var h := reported[i];
      assert reported[..i + 1] == reported[..i] + [h];
      if h.workload in store.workloads {
        var w := store.workloads[h.workload];
        if h.epoch != w.executionEpoch || !Fencing.ValidFence(w, node, h.token) {
          stale := stale + [h.workload];
        }
      }
      i := i + 1;
    }
    assert reported[..i] == reported;
  }
}
