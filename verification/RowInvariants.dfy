// Invariants of the checkpoint table alone: dense generations, replica counts,
// and supersession links that always run one way.
module RowInvariants {
  import opened Wrappers
  import opened Tables

  // ---------------- generations ----------------

  ghost predicate HasGeneration(cs: Rows, w: WorkloadId, g: nat) {
    exists c :: c in cs && cs[c].workload == w && cs[c].generation == g
  }

  // Generations 1 .. g-1 of w are all present.
  ghost predicate Covered(cs: Rows, w: WorkloadId, g: nat) {
    g >= 1 && forall h: nat :: 1 <= h < g ==> HasGeneration(cs, w, h)
  }

  ghost predicate Dense(cs: Rows) {
    forall c :: c in cs ==> Covered(cs, cs[c].workload, cs[c].generation)
  }

  // ---------------- locations ----------------

  ghost predicate DistinctNodes(locations: seq<Location>) {
    forall i, j :: 0 <= i < j < |locations| ==> locations[i].node != locations[j].node
  }

  ghost predicate CountsReplicas(row: Checkpoint) {
    row.replicaCount == |row.locations| && DistinctNodes(row.locations)
  }

  // ---------------- links ----------------

  ghost predicate PointsDown(cs: Rows, c: CheckpointId, target: Option<CheckpointId>) {
    c in cs && (target.Some? ==>
      target.value in cs && cs[target.value].workload == cs[c].workload
        && cs[target.value].generation < cs[c].generation)
  }

  ghost predicate PointsUp(cs: Rows, c: CheckpointId, target: Option<CheckpointId>) {
    c in cs && (target.Some? ==>
      target.value in cs && cs[target.value].workload == cs[c].workload
        && cs[target.value].generation > cs[c].generation)
  }

  ghost predicate Directed(cs: Rows) {
    forall c :: c in cs ==> PointsDown(cs, c, cs[c].supersedes) && PointsUp(cs, c, cs[c].supersededBy)
  }

  ghost predicate RowsInv(cs: Rows) {
    UniqueGenerations(cs) && Dense(cs) && Directed(cs) && forall c :: c in cs ==> CountsReplicas(cs[c])
  }

  // A row keeps its identity once inserted.
  predicate SameIdentity(r: Checkpoint, r': Checkpoint) {
    r'.workload == r.workload && r'.generation == r.generation && r'.attempt == r.attempt
  }

  ghost predicate Grows(cs: Rows, cs': Rows) {
    forall c :: c in cs ==> c in cs' && SameIdentity(cs[c], cs'[c])
  }

  lemma CoveredGrows(cs: Rows, cs': Rows, w: WorkloadId, g: nat)
    requires Grows(cs, cs') && Covered(cs, w, g)
    ensures Covered(cs', w, g)
  {
    forall h: nat | 1 <= h < g ensures HasGeneration(cs', w, h) {
      assert HasGeneration(cs, w, h);
      var c :| c in cs && cs[c].workload == w && cs[c].generation == h;
      assert c in cs' && cs'[c].workload == w;
    }
  }

  // ---------------- what one row edit does to a row ----------------

  // The edits the coordinator issues never move a row to another key.
  predicate KeepsIdentity(row: Checkpoint, e: RowEdit) {
    e.Overwrite? ==> SameIdentity(row, e.row) && e.row.supersedes == None && e.row.supersededBy == None
                     && e.row.replicaCount == |e.row.locations| == 1
  }

  lemma {:induction false} WithoutDropsNode(locations: seq<Location>, node: NodeName, path: Path)
    ensures var kept := Without(locations, node, path);
            && (forall l :: l in kept <==> l in locations && l.node != node && l.path != path)
            && (DistinctNodes(locations) ==> DistinctNodes(kept))
            && |kept| <= |locations|
  {
    if locations != [] {
      WithoutDropsNode(locations[1..], node, path);
      var rest := Without(locations[1..], node, path);
      assert forall l :: l in locations <==> l == locations[0] || l in locations[1..];
      if DistinctNodes(locations) {
        assert DistinctNodes(locations[1..]);
        forall l | l in rest ensures l.node != locations[0].node {
          var i :| 0 <= i < |locations[1..]| && locations[1..][i] == l;
          assert locations[i + 1] == l;
        }
      }
    }
  }

  // Registration of a restarted node: exactly one location for that node and that
  // path remains, the others are untouched, and trust is carried over only from a
  // location it replaces.
  lemma RebindReplaces(locations: seq<Location>, node: NodeName, path: Path)
    requires DistinctNodes(locations)
    ensures var r := Rebound(locations, node, path);
            && DistinctNodes(r)
            && (forall l :: l in r && (l.node == node || l.path == path) ==>
               l == r[|r| - 1] && l.node == node && l.path == path)
            && (forall l :: l in locations && l.node != node && l.path != path ==> l in r)
            && ((exists l :: l in locations && (l.node == node || l.path == path)) ==> |r| <= |locations|)
            && (r[|r| - 1].verified <==> exists l :: l in locations && (l.node == node || l.path == path) && l.verified)
  {
    WithoutDropsNode(locations, node, path);
    var kept := Without(locations, node, path);
    if l :| l in locations && (l.node == node || l.path == path) {
      WithoutShrinks(locations, node, path, l);
    }
    var r := Rebound(locations, node, path);
    assert r == kept + [r[|r| - 1]];
    forall i, j | 0 <= i < j < |r| ensures r[i].node != r[j].node {
      assert r[i] in kept;
    }
    forall l | l in locations && l.node != node && l.path != path ensures l in r { assert l in kept; }
    forall l | l in r && (l.node == node || l.path == path) ensures l == r[|r| - 1] { assert l !in kept; }
  }

  lemma {:induction false} WithoutShrinks(locations: seq<Location>, node: NodeName, path: Path, l: Location)
    requires l in locations && (l.node == node || l.path == path)
    ensures |Without(locations, node, path)| < |locations|
  {
    WithoutDropsNode(locations[1..], node, path);
    if l != locations[0] { WithoutShrinks(locations[1..], node, path, l); }
  }

  lemma EditKeepsRow(row: Checkpoint, e: RowEdit)
    requires CountsReplicas(row) && KeepsIdentity(row, e)
    ensures Edit(row, e).Ok? ==>
              var r := Edit(row, e).value;
              SameIdentity(row, r) && CountsReplicas(r)
              && (if e.Overwrite? then r.supersedes == None && r.supersededBy == None
                  else r.supersedes == row.supersedes && r.supersededBy == row.supersededBy)
  {
    if e.Rebind? { RebindReplaces(row.locations, e.node, e.path); }
  }

  // ---------------- the table as a whole ----------------

  // Changing links and other columns of rows, but no identity, keeps the keys.
  lemma SameKeys(cs: Rows, cs': Rows)
    requires RowsInv(cs) && Grows(cs, cs') && cs'.Keys == cs.Keys
    ensures UniqueGenerations(cs') && Dense(cs')
    ensures forall c, t: Option<CheckpointId> :: PointsDown(cs, c, t) ==> PointsDown(cs', c, t)
    ensures forall c, t: Option<CheckpointId> :: PointsUp(cs, c, t) ==> PointsUp(cs', c, t)
  {
    forall c | c in cs' ensures Covered(cs', cs'[c].workload, cs'[c].generation) {
      assert c in cs && SameIdentity(cs[c], cs'[c]);
      CoveredGrows(cs, cs', cs[c].workload, cs[c].generation);
    }
    forall c, d | c in cs' && d in cs' && c != d
      ensures cs'[c].workload != cs'[d].workload || cs'[c].generation != cs'[d].generation
    {
      assert SameIdentity(cs[c], cs'[c]) && SameIdentity(cs[d], cs'[d]);
    }
  }

  lemma EditKeepsRows(cs: Rows, c: CheckpointId, e: RowEdit)
    requires RowsInv(cs) && (c in cs ==> KeepsIdentity(cs[c], e))
    ensures EditTx(cs, c, e).Ok? ==> RowsInv(EditTx(cs, c, e).value) && Grows(cs, EditTx(cs, c, e).value)
  {
    if c in cs && EditTx(cs, c, e).Ok? {
      EditKeepsRow(cs[c], e);
      var cs' := EditTx(cs, c, e).value;
      SameKeys(cs, cs');
      forall d | d in cs' ensures PointsDown(cs', d, cs'[d].supersedes) && PointsUp(cs', d, cs'[d].supersededBy) {
        assert PointsDown(cs, d, cs[d].supersedes) && PointsUp(cs, d, cs[d].supersededBy);
      }
    }
  }

  lemma InsertKeepsRows(cs: Rows, c: CheckpointId, row: Checkpoint)
    requires RowsInv(cs) && Covered(cs, row.workload, row.generation)
    requires row.supersedes == None && row.supersededBy == None && row.locations == [] && row.replicaCount == 0
    ensures InsertTx(cs, c, row).Ok? ==> RowsInv(InsertTx(cs, c, row).value) && Grows(cs, InsertTx(cs, c, row).value)
  {
    if InsertTx(cs, c, row).Ok? {
      var cs' := InsertTx(cs, c, row).value;
      assert Grows(cs, cs');
      forall d | d in cs' ensures Covered(cs', cs'[d].workload, cs'[d].generation) {
        if d == c { CoveredGrows(cs, cs', row.workload, row.generation); }
        else { CoveredGrows(cs, cs', cs[d].workload, cs[d].generation); }
      }
      forall d | d in cs' ensures PointsDown(cs', d, cs'[d].supersedes) && PointsUp(cs', d, cs'[d].supersededBy) {
        if d != c { assert PointsDown(cs, d, cs[d].supersedes) && PointsUp(cs, d, cs[d].supersededBy); }
      }
      forall d, d' | d in cs' && d' in cs' && d != d'
        ensures cs'[d].workload != cs'[d'].workload || cs'[d].generation != cs'[d'].generation
      {
        if d == c { assert d' in cs.Keys; } else if d' == c { assert d in cs.Keys; }
      }
    }
  }

  // Splicing touches the links of the neighbours towards c and nothing else.
  lemma SpliceShape(cs: Rows, c: CheckpointId, below: Option<CheckpointId>, above: Option<CheckpointId>)
    requires c in cs && PointsDown(cs, c, below) && PointsUp(cs, c, above)
    ensures var cs' := Splice(cs, c, below, above);
            cs'.Keys == cs.Keys && cs'[c] == cs[c]
            && forall d :: d in cs ==>
                 && cs'[d] == cs[d].(supersedes := cs'[d].supersedes, supersededBy := cs'[d].supersededBy)
                 && cs'[d].supersededBy == (if below == Some(d) then Some(c) else cs[d].supersededBy)
                 && cs'[d].supersedes == (if above == Some(d) then Some(c) else cs[d].supersedes)
  {
    assert below.Some? && above.Some? ==> below.value != above.value;
  }

  lemma SpliceKeepsDirected(cs: Rows, c: CheckpointId, below: Option<CheckpointId>, above: Option<CheckpointId>)
    requires Directed(cs) && c in cs && PointsDown(cs, c, below) && PointsUp(cs, c, above)
    ensures Directed(Splice(cs, c, below, above)) && Grows(cs, Splice(cs, c, below, above))
  {
    SpliceShape(cs, c, below, above);
    var cs' := Splice(cs, c, below, above);
    hide Splice, PointsDown, PointsUp;
    forall d | d in cs' ensures PointsDown(cs', d, cs'[d].supersedes) && PointsUp(cs', d, cs'[d].supersededBy) {
      SplicedPoints(cs, c, below, above, d);
    }
  }

  lemma SplicedPoints(cs: Rows, c: CheckpointId, below: Option<CheckpointId>, above: Option<CheckpointId>,
        d: CheckpointId)
    requires c in cs && PointsDown(cs, c, below) && PointsUp(cs, c, above) && d in cs
    requires PointsDown(cs, d, cs[d].supersedes) && PointsUp(cs, d, cs[d].supersededBy)
    ensures var cs' := Splice(cs, c, below, above);
            d in cs' && PointsDown(cs', d, cs'[d].supersedes) && PointsUp(cs', d, cs'[d].supersededBy)
  {
    SpliceShape(cs, c, below, above);
    hide Splice;
  }

  lemma SpliceKeepsRows(cs: Rows, c: CheckpointId, below: Option<CheckpointId>, above: Option<CheckpointId>)
    requires RowsInv(cs) && c in cs && PointsDown(cs, c, below) && PointsUp(cs, c, above)
    ensures RowsInv(Splice(cs, c, below, above)) && Grows(cs, Splice(cs, c, below, above))
  {
    SpliceKeepsDirected(cs, c, below, above);
    SpliceShape(cs, c, below, above);
    var cs' := Splice(cs, c, below, above);
    hide Splice, Directed, PointsDown, PointsUp;
    SameKeys(cs, cs');
    forall d | d in cs' ensures CountsReplicas(cs'[d]) {
      assert cs'[d].locations == cs[d].locations;
      assert CountsReplicas(cs[d]);
    }
  }

  // Replacing one row by one with the same identity and directed links.
  lemma RelinkKeepsRows(cs: Rows, c: CheckpointId, row: Checkpoint)
    requires RowsInv(cs) && c in cs && SameIdentity(cs[c], row) && CountsReplicas(row)
    requires PointsDown(cs, c, row.supersedes) && PointsUp(cs, c, row.supersededBy)
    ensures RowsInv(cs[c := row]) && Grows(cs, cs[c := row])
  {
    var cs' := cs[c := row];
    SameKeys(cs, cs');
    forall d | d in cs' ensures PointsDown(cs', d, cs'[d].supersedes) && PointsUp(cs', d, cs'[d].supersededBy) {
      if d != c { assert PointsDown(cs, d, cs[d].supersedes) && PointsUp(cs, d, cs[d].supersededBy); }
    }
  }

  lemma CommitKeepsRows(cs: Rows, c: CheckpointId)
    requires RowsInv(cs) && c in cs
    ensures RowsInv(CommitRows(cs, c)) && Grows(cs, CommitRows(cs, c))
  {
    var row := CommittedRow(cs, c);
    assert PointsDown(cs, c, row.supersedes) && PointsUp(cs, c, row.supersededBy);
    RelinkKeepsRows(cs, c, row);
    var cs1 := cs[c := row];
    hide RowsInv, Splice;
    assert PointsDown(cs1, c, row.supersedes) && PointsUp(cs1, c, row.supersededBy);
    SpliceKeepsRows(cs1, c, row.supersedes, row.supersededBy);
  }

  lemma RestoredKeepsRows(cs: Rows, c: CheckpointId)
    requires RowsInv(cs) && c in cs
    ensures RowsInv(RestoredRows(cs, c)) && Grows(cs, RestoredRows(cs, c))
  {
    assert PointsDown(cs, c, cs[c].supersedes) && PointsUp(cs, c, cs[c].supersededBy);
    RelinkKeepsRows(cs, c, RestoredRows(cs, c)[c]);
  }

  // Following supersedes from any row visits ever smaller generations, so the walk
  // ends after at most as many steps as the row's own generation.
  ghost function WalkDown(cs: Rows, c: CheckpointId): (path: seq<CheckpointId>)
    requires Directed(cs) && c in cs
    ensures |path| <= cs[c].generation + 1 && |path| > 0 && path[0] == c
    ensures forall i :: 0 <= i < |path| ==> path[i] in cs && cs[path[i]].workload == cs[c].workload
    ensures forall i, j :: 0 <= i < j < |path| ==> cs[path[i]].generation > cs[path[j]].generation
    decreases cs[c].generation
  {
    assert PointsDown(cs, c, cs[c].supersedes);
    if cs[c].supersedes.None? then [c] else [c] + WalkDown(cs, cs[c].supersedes.value)
  }

  // Following superseded_by visits ever larger generations, so it ends at the latest
  // with the largest one there is.
  ghost function WalkUp(cs: Rows, c: CheckpointId, top: nat): (path: seq<CheckpointId>)
    requires Directed(cs) && c in cs && forall d :: d in cs && cs[d].workload == cs[c].workload ==>
              cs[d].generation <= top
    ensures |path| > 0 && path[0] == c && |path| <= top - cs[c].generation + 1
    ensures forall i :: 0 <= i < |path| ==> path[i] in cs && cs[path[i]].workload == cs[c].workload
    ensures forall i, j :: 0 <= i < j < |path| ==> cs[path[i]].generation < cs[path[j]].generation
    decreases top - cs[c].generation
  {
    assert PointsUp(cs, c, cs[c].supersededBy);
    if cs[c].supersededBy.None? then [c] else [c] + WalkUp(cs, cs[c].supersededBy.value, top)
  }
}
