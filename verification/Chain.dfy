// The supersession chain: the linked checkpoints of a workload as a doubly linked
// list sorted by generation, and exactly which commits and retirements keep it one.
module Chain {
  import opened Wrappers
  import opened Tables
  import opened Operations
  import opened Steps
  import opened RowInvariants
  import opened Anchors
  import L = Lifecycle

  // Both links of row c lead to its nearest linked neighbours.
  ghost predicate Chained(cs: Rows, c: CheckpointId) {
    c in cs
    && cs[c].supersedes == NearestBelow(cs, L.LINKED, cs[c].workload, cs[c].generation)
    && cs[c].supersededBy == NearestAbove(cs, L.LINKED, cs[c].workload, cs[c].generation)
  }

  ghost predicate AllChained(cs: Rows) {
    forall c :: c in cs && cs[c].lifecycle.IsLinked() ==> Chained(cs, c)
  }

  // The queries of capture_commit, which see restorable rows only, find the
  // neighbours the chain has.
  ghost predicate SeesNeighbours(cs: Rows, c: CheckpointId) {
    c in cs
    && NearestBelow(cs, L.VISIBLE, cs[c].workload, cs[c].generation) ==
       NearestBelow(cs, L.LINKED, cs[c].workload, cs[c].generation)
    && NearestAbove(cs, L.VISIBLE, cs[c].workload, cs[c].generation) ==
       NearestAbove(cs, L.LINKED, cs[c].workload, cs[c].generation)
  }

  // ---------------- range queries ----------------

  // A query over a nonempty range has an answer, found by looking at the rows one
  // by one.
  lemma {:induction false} BelowIsFound(cs: Rows, live: set<L.State>, w: WorkloadId, g: nat, c: CheckpointId)
    requires Below(cs, live, w, g, c)
    ensures NearestBelow(cs, live, w, g).Some?
    decreases g - cs[c].generation
  {
    if d :| Below(cs, live, w, g, d) && cs[d].generation > cs[c].generation {
      BelowIsFound(cs, live, w, g, d);
    } else {
      assert IsNearestBelow(cs, live, w, g, c);
    }
  }

  lemma {:induction false} AboveIsFound(cs: Rows, live: set<L.State>, w: WorkloadId, g: nat, c: CheckpointId)
    requires Above(cs, live, w, g, c)
    ensures NearestAbove(cs, live, w, g).Some?
    decreases cs[c].generation
  {
    if d :| Above(cs, live, w, g, d) && cs[d].generation < cs[c].generation {
      AboveIsFound(cs, live, w, g, d);
    } else {
      assert IsNearestAbove(cs, live, w, g, c);
    }
  }

  lemma BelowIsUnique(cs: Rows, live: set<L.State>, w: WorkloadId, g: nat, c: CheckpointId)
    requires UniqueGenerations(cs) && IsNearestBelow(cs, live, w, g, c)
    ensures NearestBelow(cs, live, w, g) == Some(c)
  {
    BelowIsFound(cs, live, w, g, c);
    var d := NearestBelow(cs, live, w, g).value;
    assert Below(cs, live, w, g, d) && Below(cs, live, w, g, c);
  }

  lemma AboveIsUnique(cs: Rows, live: set<L.State>, w: WorkloadId, g: nat, c: CheckpointId)
    requires UniqueGenerations(cs) && IsNearestAbove(cs, live, w, g, c)
    ensures NearestAbove(cs, live, w, g) == Some(c)
  {
    AboveIsFound(cs, live, w, g, c);
    var d := NearestAbove(cs, live, w, g).value;
    assert Above(cs, live, w, g, d) && Above(cs, live, w, g, c);
  }

  // Two tables with the same rows in a range answer a query alike.
  lemma SameBelow(cs: Rows, cs': Rows, live: set<L.State>, w: WorkloadId, g: nat)
    requires UniqueGenerations(cs) && UniqueGenerations(cs')
    requires forall d :: Below(cs, live, w, g, d) <==> Below(cs', live, w, g, d)
    requires forall d :: Below(cs, live, w, g, d) && Below(cs', live, w, g, d) ==> cs[d].generation == cs'[d].generation
    ensures NearestBelow(cs, live, w, g) == NearestBelow(cs', live, w, g)
  {
    var r, r' := NearestBelow(cs, live, w, g), NearestBelow(cs', live, w, g);
    if r.Some? {
      assert IsNearestBelow(cs', live, w, g, r.value);
      BelowIsUnique(cs', live, w, g, r.value);
    } else if r'.Some? {
      assert IsNearestBelow(cs, live, w, g, r'.value);
    }
  }

  lemma SameAbove(cs: Rows, cs': Rows, live: set<L.State>, w: WorkloadId, g: nat)
    requires UniqueGenerations(cs) && UniqueGenerations(cs')
    requires forall d :: Above(cs, live, w, g, d) <==> Above(cs', live, w, g, d)
    requires forall d :: Above(cs, live, w, g, d) && Above(cs', live, w, g, d) ==> cs[d].generation == cs'[d].generation
    ensures NearestAbove(cs, live, w, g) == NearestAbove(cs', live, w, g)
  {
    var r, r' := NearestAbove(cs, live, w, g), NearestAbove(cs', live, w, g);
    if r.Some? {
      assert IsNearestAbove(cs', live, w, g, r.value);
      AboveIsUnique(cs', live, w, g, r.value);
    } else if r'.Some? {
      assert IsNearestAbove(cs, live, w, g, r'.value);
    }
  }

  // ---------------- the chain as a list ----------------

  // Nothing linked lies between a row and its nearest neighbour, seen from either side.
  lemma NearestIsMutual(cs: Rows, c: CheckpointId, d: CheckpointId)
    requires UniqueGenerations(cs) && c in cs && d in cs && cs[c].lifecycle.IsLinked() && cs[d].lifecycle.IsLinked()
    ensures IsNearestBelow(cs, L.LINKED, cs[d].workload, cs[d].generation, c) <==>
              IsNearestAbove(cs, L.LINKED, cs[c].workload, cs[c].generation, d)
  {
    var w := cs[c].workload;
    if cs[d].workload == w && cs[c].generation < cs[d].generation {
      assert forall x :: Above(cs, L.LINKED, w, cs[c].generation, x) && cs[x].generation < cs[d].generation ==>
          Below(cs, L.LINKED, w, cs[d].generation, x);
      assert forall x :: Below(cs, L.LINKED, w, cs[d].generation, x) && cs[x].generation > cs[c].generation ==>
          Above(cs, L.LINKED, w, cs[c].generation, x);
    }
  }

  // Neighbours point at each other.
  lemma LinksAreMutual(cs: Rows, c: CheckpointId, d: CheckpointId)
    requires UniqueGenerations(cs) && AllChained(cs)
    requires c in cs && d in cs && cs[c].lifecycle.IsLinked() && cs[d].lifecycle.IsLinked()
    ensures cs[d].supersedes == Some(c) <==> cs[c].supersededBy == Some(d)
  {
    assert Chained(cs, c) && Chained(cs, d);
    NearestIsMutual(cs, c, d);
    hide UniqueGenerations, IsNearestBelow, IsNearestAbove, AllChained;
    if cs[d].supersedes == Some(c) { AboveIsUnique(cs, L.LINKED, cs[c].workload, cs[c].generation, d); }
    if cs[c].supersededBy == Some(d) { BelowIsUnique(cs, L.LINKED, cs[d].workload, cs[d].generation, c); }
  }

  // Following supersedes from any linked row visits exactly the linked rows of its
  // workload up to its generation, newest first.
  lemma {:induction false} WalkVisitsTheChain(cs: Rows, c: CheckpointId)
    requires Directed(cs) && UniqueGenerations(cs) && AllChained(cs) && c in cs && cs[c].lifecycle.IsLinked()
    ensures forall d :: d in WalkDown(cs, c) <==>
                          d in cs && cs[d].workload == cs[c].workload && cs[d].lifecycle.IsLinked()
                            && cs[d].generation <= cs[c].generation
    decreases cs[c].generation
  {
    assert Chained(cs, c) && PointsDown(cs, c, cs[c].supersedes);
    var path := WalkDown(cs, c);
    if cs[c].supersedes.Some? {
      var b := cs[c].supersedes.value;
      WalkVisitsTheChain(cs, b);
      assert path == [c] + WalkDown(cs, b);
    }
    forall d | d in cs && cs[d].workload == cs[c].workload && cs[d].lifecycle.IsLinked()
      && cs[d].generation <= cs[c].generation
      ensures d in path
    {
      if d != c {
        assert Below(cs, L.LINKED, cs[c].workload, cs[c].generation, d);
        BelowIsFound(cs, L.LINKED, cs[c].workload, cs[c].generation, d);
      }
    }
  }

  // ---------------- capture_commit ----------------

  // The splice changes the committed row, one link of each neighbour, and nothing
  // else.
  lemma CommitSplices(cs: Rows, c: CheckpointId)
    requires c in cs
    ensures var cs' := CommitRows(cs, c);
            var row := CommittedRow(cs, c);
            && cs'.Keys == cs.Keys && cs'[c] == row
            && forall d :: d in cs && d != c ==>
                 && cs'[d] == cs[d].(supersedes := cs'[d].supersedes, supersededBy := cs'[d].supersededBy)
                 && cs'[d].supersededBy == (if row.supersedes == Some(d) then Some(c) else cs[d].supersededBy)
                 && cs'[d].supersedes == (if row.supersededBy == Some(d) then Some(c) else cs[d].supersedes)
  {
    var row := CommittedRow(cs, c);
    var cs1 := cs[c := row];
    assert row.supersedes.Some? ==> Below(cs, L.VISIBLE, row.workload, row.generation, row.supersedes.value);
    assert row.supersededBy.Some? ==> Above(cs, L.VISIBLE, row.workload, row.generation, row.supersededBy.value);
    SpliceShape(cs1, c, row.supersedes, row.supersededBy);
  }

  // Same keys and lifecycles, except that c is linked in cs'.
  ghost predicate Links(cs: Rows, cs': Rows, c: CheckpointId) {
    c in cs && cs'.Keys == cs.Keys && cs'[c].lifecycle.IsLinked()
    && forall d :: d in cs ==> SameIdentity(cs[d], cs'[d]) && (d != c ==> cs'[d].lifecycle == cs[d].lifecycle)
  }

  lemma LinkingMovesBelow(cs: Rows, cs': Rows, c: CheckpointId, d: CheckpointId)
    requires Links(cs, cs', c) && UniqueGenerations(cs) && d in cs && cs[d].lifecycle.IsLinked() && d != c
    ensures var w, g := cs[d].workload, cs[d].generation;
            NearestBelow(cs', L.LINKED, w, g) ==
            if NearestAbove(cs, L.LINKED, cs[c].workload, cs[c].generation) == Some(d) then Some(c)
              else NearestBelow(cs, L.LINKED, w, g)
  {
    var w, g := cs[d].workload, cs[d].generation;
    var above := NearestAbove(cs, L.LINKED, cs[c].workload, cs[c].generation);
    SameKeysUnique(cs, cs');
    assert forall x :: Below(cs', L.LINKED, w, g, x) <==>
        (Below(cs, L.LINKED, w, g, x) || (x == c && cs[c].workload == w && cs[c].generation < g));
    if above == Some(d) {
      forall x | Below(cs', L.LINKED, w, g, x) ensures cs'[x].generation <= cs'[c].generation {
        if x != c { assert cs[x].generation > cs[c].generation ==> Above(cs, L.LINKED, w, cs[c].generation, x); }
      }
      BelowIsUnique(cs', L.LINKED, w, g, c);
    } else if cs[c].workload == w && cs[c].generation < g {
      assert Above(cs, L.LINKED, w, cs[c].generation, d);
      AboveIsFound(cs, L.LINKED, w, cs[c].generation, d);
      var a := above.value;
      assert Below(cs, L.LINKED, w, g, a);
      BelowIsFound(cs, L.LINKED, w, g, a);
      var b := NearestBelow(cs, L.LINKED, w, g).value;
      assert IsNearestBelow(cs', L.LINKED, w, g, b);
      BelowIsUnique(cs', L.LINKED, w, g, b);
    } else {
      SameBelow(cs, cs', L.LINKED, w, g);
    }
  }

  lemma LinkingMovesAbove(cs: Rows, cs': Rows, c: CheckpointId, d: CheckpointId)
    requires Links(cs, cs', c) && UniqueGenerations(cs) && d in cs && cs[d].lifecycle.IsLinked() && d != c
    ensures var w, g := cs[d].workload, cs[d].generation;
            NearestAbove(cs', L.LINKED, w, g) ==
            if NearestBelow(cs, L.LINKED, cs[c].workload, cs[c].generation) == Some(d) then Some(c)
              else NearestAbove(cs, L.LINKED, w, g)
  {
    var w, g := cs[d].workload, cs[d].generation;
    var below := NearestBelow(cs, L.LINKED, cs[c].workload, cs[c].generation);
    SameKeysUnique(cs, cs');
    assert forall x :: Above(cs', L.LINKED, w, g, x) <==>
        (Above(cs, L.LINKED, w, g, x) || (x == c && cs[c].workload == w && cs[c].generation > g));
    if below == Some(d) {
      forall x | Above(cs', L.LINKED, w, g, x) ensures cs'[c].generation <= cs'[x].generation {
        if x != c { assert cs[x].generation < cs[c].generation ==> Below(cs, L.LINKED, w, cs[c].generation, x); }
      }
      AboveIsUnique(cs', L.LINKED, w, g, c);
    } else if cs[c].workload == w && cs[c].generation > g {
      assert Below(cs, L.LINKED, w, cs[c].generation, d);
      BelowIsFound(cs, L.LINKED, w, cs[c].generation, d);
      var a := below.value;
      assert Above(cs, L.LINKED, w, g, a);
      AboveIsFound(cs, L.LINKED, w, g, a);
      var b := NearestAbove(cs, L.LINKED, w, g).value;
      assert IsNearestAbove(cs', L.LINKED, w, g, b);
      AboveIsUnique(cs', L.LINKED, w, g, b);
    } else {
      SameAbove(cs, cs', L.LINKED, w, g);
    }
  }

  lemma SameKeysUnique(cs: Rows, cs': Rows)
    requires UniqueGenerations(cs) && cs'.Keys == cs.Keys && forall d :: d in cs ==> SameIdentity(cs[d], cs'[d])
    ensures UniqueGenerations(cs')
  {
    forall c, d | c in cs' && d in cs' && c != d
      ensures cs'[c].workload != cs'[d].workload || cs'[c].generation != cs'[d].generation
    {
      assert SameIdentity(cs[c], cs'[c]) && SameIdentity(cs[d], cs'[d]);
    }
  }

  // c's own queries look past c.
  lemma OwnQueries(cs: Rows, cs': Rows, c: CheckpointId, live: set<L.State>)
    requires Links(cs, cs', c) && UniqueGenerations(cs)
    ensures NearestBelow(cs', live, cs[c].workload, cs[c].generation) ==
            NearestBelow(cs, live, cs[c].workload, cs[c].generation)
    ensures NearestAbove(cs', live, cs[c].workload, cs[c].generation) ==
            NearestAbove(cs, live, cs[c].workload, cs[c].generation)
  {
    SameKeysUnique(cs, cs');
    SameBelow(cs, cs', live, cs[c].workload, cs[c].generation);
    SameAbove(cs, cs', live, cs[c].workload, cs[c].generation);
  }

  // Committing again links the same neighbours.
  lemma CommitRowsTwice(cs: Rows, c: CheckpointId)
    requires UniqueGenerations(cs) && c in cs
    ensures CommitRows(CommitRows(cs, c), c) == CommitRows(cs, c)
  {
    var cs1 := CommitRows(cs, c);
    CommitSplices(cs, c);
    CommitSplices(cs1, c);
    assert Links(cs, cs1, c);
    OwnQueries(cs, cs1, c, L.VISIBLE);
    hide CommitRows;
    var cs2 := CommitRows(cs1, c);
    forall d | d in cs1 ensures cs2[d] == cs1[d] {}
  }

  // capture_commit is idempotent: rows, links, lineage, counters and journal.
  lemma CommitTwiceIsOnce(db: Db, c: CheckpointId, a: AttemptId)
    requires UniqueGenerations(db.checkpoints) && CaptureCommit(db, c, a).Ok?
    ensures CaptureCommit(CaptureCommit(db, c, a).value, c, a) == CaptureCommit(db, c, a)
  {
    var db1 := CaptureCommit(db, c, a).value;
    var cs, cs1 := db.checkpoints, db1.checkpoints;
    CommitSplices(cs, c);
    CommitRowsTwice(cs, c);
    assert Links(cs, cs1, c);
    OwnQueries(cs, cs1, c, L.VISIBLE);
    var below := NearestBelow(cs, L.VISIBLE, cs[c].workload, cs[c].generation);
    if below.Some? && !HasSupersedes(db.lineage, c, below.value) {
      assert db1.lineage[|db.lineage|] == SupersedesRow(cs[c].workload, c, below.value);
    }
    hide CommitRows;
    assert db1.journal + {(DbCommitted, a)} == db1.journal;
    assert db1.workloads[cs1[c].workload := db1.workloads[cs1[c].workload]] == db1.workloads;
  }

  // Neither neighbour of c in the chain is being restored; the queries skip those.
  ghost predicate NeighboursSettled(cs: Rows, c: CheckpointId) {
    c in cs
    && (var b := NearestBelow(cs, L.LINKED, cs[c].workload, cs[c].generation); b.Some? ==> !MidRestore(cs[b.value]))
    && (var a := NearestAbove(cs, L.LINKED, cs[c].workload, cs[c].generation); a.Some? ==> !MidRestore(cs[a.value]))
  }

  lemma QueriesSeeSettledNeighbours(cs: Rows, c: CheckpointId)
    requires UniqueGenerations(cs) && c in cs
    ensures SeesNeighbours(cs, c) <==> NeighboursSettled(cs, c)
  {
    var w, g := cs[c].workload, cs[c].generation;
    var b, a := NearestBelow(cs, L.LINKED, w, g), NearestAbove(cs, L.LINKED, w, g);
    assert forall x :: Below(cs, L.VISIBLE, w, g, x) ==> Below(cs, L.LINKED, w, g, x);
    assert forall x :: Above(cs, L.VISIBLE, w, g, x) ==> Above(cs, L.LINKED, w, g, x);
    if b.Some? && !MidRestore(cs[b.value]) {
      assert IsNearestBelow(cs, L.VISIBLE, w, g, b.value);
      BelowIsUnique(cs, L.VISIBLE, w, g, b.value);
    } else if b.None? && NearestBelow(cs, L.VISIBLE, w, g).Some? {
      BelowIsFound(cs, L.LINKED, w, g, NearestBelow(cs, L.VISIBLE, w, g).value);
    }
    if a.Some? && !MidRestore(cs[a.value]) {
      assert IsNearestAbove(cs, L.VISIBLE, w, g, a.value);
      AboveIsUnique(cs, L.VISIBLE, w, g, a.value);
    } else if a.None? && NearestAbove(cs, L.VISIBLE, w, g).Some? {
      AboveIsFound(cs, L.LINKED, w, g, NearestAbove(cs, L.VISIBLE, w, g).value);
    }
  }

  // A commit leaves every linked row between its nearest linked neighbours exactly
  // when neither neighbour of the new row is being restored, wherever in the chain
  // its generation falls.
  lemma CommitKeepsChain(cs: Rows, c: CheckpointId)
    requires UniqueGenerations(cs) && AllChained(cs) && c in cs
    ensures AllChained(CommitRows(cs, c)) <==> NeighboursSettled(cs, c)
  {
    CommitSplices(cs, c);
    QueriesSeeSettledNeighbours(cs, c);
    var cs' := CommitRows(cs, c);
    hide CommitRows, NeighboursSettled;
    assert Links(cs, cs', c);
    OwnQueries(cs, cs', c, L.LINKED);
    assert Chained(cs', c) <==> SeesNeighbours(cs, c);
    if SeesNeighbours(cs, c) {
      forall d | d in cs' && cs'[d].lifecycle.IsLinked() ensures Chained(cs', d) {
        if d != c {
          assert Chained(cs, d);
          LinkingMovesBelow(cs, cs', c, d);
          LinkingMovesAbove(cs, cs', c, d);
        }
      }
    }
  }

  // ---------------- every other change of the table ----------------

  // Which rows are linked, and their links, stay as they are.
  ghost predicate SameChain(cs: Rows, cs': Rows) {
    Grows(cs, cs')
    && (forall d :: d in cs ==> (cs'[d].lifecycle.IsLinked() <==> cs[d].lifecycle.IsLinked()))
    && (forall d :: d in cs && cs[d].lifecycle.IsLinked() ==>
                      cs'[d].supersedes == cs[d].supersedes && cs'[d].supersededBy == cs[d].supersededBy)
    && (forall d :: d in cs' && d !in cs ==> !cs'[d].lifecycle.IsLinked())
  }

  lemma SameChainKeepsRow(cs: Rows, cs': Rows, d: CheckpointId)
    requires UniqueGenerations(cs) && UniqueGenerations(cs') && SameChain(cs, cs')
    requires d in cs && cs[d].lifecycle.IsLinked() && Chained(cs, d)
    ensures Chained(cs', d)
  {
    hide UniqueGenerations, IsNearestBelow, IsNearestAbove;
    SameBelow(cs, cs', L.LINKED, cs[d].workload, cs[d].generation);
    SameAbove(cs, cs', L.LINKED, cs[d].workload, cs[d].generation);
  }

  lemma SameChainKeeps(cs: Rows, cs': Rows)
    requires UniqueGenerations(cs) && UniqueGenerations(cs') && AllChained(cs) && SameChain(cs, cs')
    ensures AllChained(cs')
  {
    hide Chained, UniqueGenerations;
    forall d | d in cs' && cs'[d].lifecycle.IsLinked() ensures Chained(cs', d) {
      assert Chained(cs, d);
      SameChainKeepsRow(cs, cs', d);
    }
  }

  // A linked row without neighbours is the only linked row of its workload.
  lemma NoNeighboursMeansAlone(cs: Rows, c: CheckpointId, d: CheckpointId)
    requires UniqueGenerations(cs) && c in cs && cs[c].lifecycle.IsLinked() && Chained(cs, c)
    requires cs[c].supersedes.None? && cs[c].supersededBy.None?
    requires d in cs && d != c && cs[d].lifecycle.IsLinked()
    ensures cs[d].workload != cs[c].workload
  {
    var w, g := cs[c].workload, cs[c].generation;
    if cs[d].workload == w {
      if cs[d].generation < g { BelowIsFound(cs, L.LINKED, w, g, d); } else { AboveIsFound(cs, L.LINKED, w, g, d); }
    }
  }

  lemma RetiredElsewhere(cs: Rows, c: CheckpointId, row: Checkpoint, d: CheckpointId)
    requires UniqueGenerations(cs) && c in cs && SameIdentity(cs[c], row)
    requires d in cs && cs[d].workload != cs[c].workload && Chained(cs, d)
    ensures Chained(cs[c := row], d)
  {
    var cs' := cs[c := row];
    SameKeysUnique(cs, cs');
    SameBelow(cs, cs', L.LINKED, cs[d].workload, cs[d].generation);
    SameAbove(cs, cs', L.LINKED, cs[d].workload, cs[d].generation);
  }

  // Rows that point at an unlinked row are not chained.
  lemma DanglingBreaks(cs: Rows, c: CheckpointId, d: CheckpointId)
    requires c in cs && d in cs && !cs[c].lifecycle.IsLinked()
    requires (cs[d].supersedes == Some(c) || cs[d].supersededBy == Some(c))
    ensures !Chained(cs, d)
  {}

  lemma RetiredRow(row: Checkpoint)
    requires Edit(row, Retire).Ok?
    ensures var row' := Edit(row, Retire).value;
            row.lifecycle == L.Available && row'.lifecycle == L.Retired && SameIdentity(row, row')
            && row'.supersedes == row.supersedes && row'.supersededBy == row.supersededBy
  {}

  lemma ChainLinksAreLinked(cs: Rows, c: CheckpointId)
    requires Chained(cs, c)
    ensures cs[c].supersedes.Some? ==> var b := cs[c].supersedes.value; b in cs && b != c && cs[b].lifecycle.IsLinked()
    ensures cs[c].supersededBy.Some? ==>
              var a := cs[c].supersededBy.value; a in cs && a != c && cs[a].lifecycle.IsLinked()
  {}

  // Retirement does not unlink, so it keeps the chain exactly when the retired row
  // has no neighbours.
  lemma RetireKeepsChain(cs: Rows, c: CheckpointId)
    requires UniqueGenerations(cs) && AllChained(cs) && c in cs && Edit(cs[c], Retire).Ok?
    ensures AllChained(cs[c := Edit(cs[c], Retire).value]) <==> cs[c].supersedes.None? && cs[c].supersededBy.None?
  {
    var cs' := cs[c := Edit(cs[c], Retire).value];
    RetiredRow(cs[c]);
    hide Chained, UniqueGenerations, Edit;
    assert Chained(cs, c);
    ChainLinksAreLinked(cs, c);
    if cs[c].supersedes.Some? {
      LinksAreMutual(cs, cs[c].supersedes.value, c);
      DanglingBreaks(cs', c, cs[c].supersedes.value);
    } else if cs[c].supersededBy.Some? {
      LinksAreMutual(cs, c, cs[c].supersededBy.value);
      DanglingBreaks(cs', c, cs[c].supersededBy.value);
    } else {
      forall d | d in cs' && cs'[d].lifecycle.IsLinked() ensures Chained(cs', d) {
        NoNeighboursMeansAlone(cs, c, d);
        assert Chained(cs, d);
        RetiredElsewhere(cs, c, cs'[c], d);
      }
    }
  }

  // ---------------- runs ----------------

  ghost predicate NoneRetired(cs: Rows) {
    forall c :: c in cs ==> cs[c].lifecycle != L.Retired
  }

  ghost predicate Retires(s: Sys, e: Event) {
    CallOf(s, e).Some? && CallOf(s, e).value.EditRow? && CallOf(s, e).value.edit.Retire?
  }

  ghost predicate CommitsCapture(s: Sys, e: Event) {
    CallOf(s, e).Some? && CallOf(s, e).value.CommitCapture?
      && CaptureCommit(s.db, CallOf(s, e).value.c, CallOf(s, e).value.a).Ok?
  }

  // A call that neither commits a capture nor retires leaves links alone.
  lemma LinksStay(s: Sys, a: AttemptId, call: Call, c: CheckpointId)
    requires c in s.db.checkpoints
    requires !(call.CommitCapture? && CaptureCommit(s.db, call.c, call.a).Ok?)
    requires !(call.EditRow? && call.c == c && call.edit.Overwrite?)
    ensures c in RowsAfter(s.db, call)
    ensures RowsAfter(s.db, call)[c].supersedes == s.db.checkpoints[c].supersedes
    ensures RowsAfter(s.db, call)[c].supersededBy == s.db.checkpoints[c].supersededBy
  {
    hide CaptureCommit;
  }

  lemma RetiredStaysAway(s: Sys, a: AttemptId, call: Call, c: CheckpointId)
    requires c in s.db.checkpoints && s.db.checkpoints[c].lifecycle != L.Retired
    requires (a in s.ops && OpCall(a, s.ops[a], call)) || OutsideCall(call)
    requires !(call.EditRow? && call.edit.Retire?)
    ensures LifecycleAfter(s.db, call, c) != L.Retired
  {
    hide CaptureCommit, RestoreCommit;
  }

  lemma OverwrittenIsUnlinked(s: Sys, a: AttemptId, call: Call, c: CheckpointId)
    requires Inv(s) && c in s.db.checkpoints && call.EditRow? && call.c == c && call.edit.Overwrite?
    requires (a in s.ops && OpCall(a, s.ops[a], call)) || OutsideCall(call)
    ensures !s.db.checkpoints[c].lifecycle.IsLinked()
  {
    UncommittedStates(s, a, c, call.edit);
    OwnersHold(s, a, c);
    assert AnchoredRow(s.db, c);
  }

  lemma CallKeepsChain(s: Sys, a: AttemptId, call: Call, c: CheckpointId)
    requires Inv(s) && NoneRetired(s.db.checkpoints) && c in s.db.checkpoints
    requires (a in s.ops && OpCall(a, s.ops[a], call)) || OutsideCall(call)
    requires !(call.CommitCapture? && CaptureCommit(s.db, call.c, call.a).Ok?) && !(call.EditRow? && call.edit.Retire?)
    ensures var cs, cs' := s.db.checkpoints, RowsAfter(s.db, call);
            && c in cs' && cs'[c].lifecycle != L.Retired
            && (cs'[c].lifecycle.IsLinked() <==> cs[c].lifecycle.IsLinked())
            && (cs[c].lifecycle.IsLinked() ==>
               cs'[c].supersedes == cs[c].supersedes && cs'[c].supersededBy == cs[c].supersededBy)
  {
    LifecycleAt(s.db, call, c);
    CallKeepsLifecycleClass(s, a, call, c);
    RetiredStaysAway(s, a, call, c);
    hide Inv, RowsAfter, LifecycleAfter, OpCall, OutsideCall, CaptureCommit;
    if call.EditRow? && call.c == c && call.edit.Overwrite? {
      OverwrittenIsUnlinked(s, a, call, c);
    } else {
      LinksStay(s, a, call, c);
    }
  }

  lemma CommitCallKeepsChain(db: Db, call: Call)
    requires call.CommitCapture? && CaptureCommit(db, call.c, call.a).Ok?
    requires RowsInv(db.checkpoints) && AllChained(db.checkpoints) && NoneRetired(db.checkpoints)
    ensures call.c in db.checkpoints
    ensures AllChained(RowsAfter(db, call)) <==> NeighboursSettled(db.checkpoints, call.c)
    ensures NoneRetired(RowsAfter(db, call))
  {
    var cs := db.checkpoints;
    assert call.c in cs && RowsAfter(db, call) == CommitRows(cs, call.c);
    hide CaptureCommit, AllChained, NeighboursSettled, CommitRows;
    CommitKeepsChain(cs, call.c);
    CommitSplices(cs, call.c);
  }

  // Row d is linked as before, its links are as before, and it is not retired.
  ghost predicate Unmoved(cs: Rows, cs': Rows, d: CheckpointId) {
    d in cs && d in cs' && cs'[d].lifecycle != L.Retired
      && (cs'[d].lifecycle.IsLinked() <==> cs[d].lifecycle.IsLinked())
    && (cs[d].lifecycle.IsLinked() ==>
       cs'[d].supersedes == cs[d].supersedes && cs'[d].supersededBy == cs[d].supersededBy)
  }

  lemma UnmovedKeepsChain(cs: Rows, cs': Rows)
    requires RowsInv(cs) && RowsInv(cs') && Grows(cs, cs') && AllChained(cs) && NoneRetired(cs)
    requires forall d :: d in cs ==> Unmoved(cs, cs', d)
    requires forall d :: d in cs' && d !in cs ==> cs'[d].lifecycle == L.Created
    ensures AllChained(cs') && NoneRetired(cs')
  {
    assert UniqueGenerations(cs) && UniqueGenerations(cs');
    hide RowsInv, UniqueGenerations, AllChained, SameIdentity;
    SameChainKeeps(cs, cs');
  }

  lemma QuietCallKeepsChain(s: Sys, a: AttemptId, call: Call)
    requires Inv(s) && AllChained(s.db.checkpoints) && NoneRetired(s.db.checkpoints)
    requires (a in s.ops && OpCall(a, s.ops[a], call)) || OutsideCall(call)
    requires !(call.CommitCapture? && CaptureCommit(s.db, call.c, call.a).Ok?) && !(call.EditRow? && call.edit.Retire?)
    requires forall d :: d in RowsAfter(s.db, call) && d !in s.db.checkpoints ==>
              RowsAfter(s.db, call)[d].lifecycle == L.Created
    ensures AllChained(RowsAfter(s.db, call)) && NoneRetired(RowsAfter(s.db, call))
  {
    assert RowsInv(s.db.checkpoints);
    hide Inv, OpCall, OutsideCall, RowsAfter, CaptureCommit, RowsInv, AllChained, NoneRetired, Grows;
    CallKeepsRows(s, a, call);
    forall d | d in s.db.checkpoints
      ensures Unmoved(s.db.checkpoints, RowsAfter(s.db, call), d)
    {
      CallKeepsChain(s, a, call, d);
    }
    UnmovedKeepsChain(s.db.checkpoints, RowsAfter(s.db, call));
  }

  // Short of a retirement, a step breaks the chain exactly when it commits a capture
  // next to a checkpoint that is being restored.
  lemma StepKeepsChain(s: Sys, e: Event)
    requires Inv(s) && AllChained(s.db.checkpoints) && NoneRetired(s.db.checkpoints) && !Retires(s, e)
    ensures NoneRetired(Step(s, e).db.checkpoints)
    ensures AllChained(Step(s, e).db.checkpoints) <==>
              !(CommitsCapture(s, e) && !NeighboursSettled(s.db.checkpoints, CallOf(s, e).value.c))
  {
    StepDb(s, e);
    if CallOf(s, e).Some? {
      var call, cs' := CallOf(s, e).value, Step(s, e).db.checkpoints;
      forall d | d in cs' && d !in s.db.checkpoints ensures cs'[d].lifecycle == L.Created { InsertedRow(s, e, d); }
      CallsAreAllowed(s, e);
      ExecRows(s.db, call);
      assert RowsInv(s.db.checkpoints);
      hide Inv, Step, CallOf, AllChained, NoneRetired, NeighboursSettled, RowsAfter, RowsInv, OpCall, OutsideCall,
        CaptureCommit, Exec;
      if CommitsCapture(s, e) { CommitCallKeepsChain(s.db, call); } else { QuietCallKeepsChain(s, Caller(e), call); }
    }
  }

  // No step retires a checkpoint or commits a capture beside one being restored.
  ghost predicate Undisturbed(s: Sys, events: seq<Event>)
    decreases |events|
  {
    events == []
    || (var prefix, last := events[..|events| - 1], events[|events| - 1];
        var t := Run(s, prefix);
        Undisturbed(s, prefix) && !Retires(t, last)
        && !(CommitsCapture(t, last) && !NeighboursSettled(t.db.checkpoints, CallOf(t, last).value.c)))
  }

  lemma {:induction false} RunKeepsChain(s: Sys, events: seq<Event>)
    requires Inv(s) && AllChained(s.db.checkpoints) && NoneRetired(s.db.checkpoints) && Undisturbed(s, events)
    ensures AllChained(Run(s, events).db.checkpoints) && NoneRetired(Run(s, events).db.checkpoints)
    decreases |events|
  {
    if events != [] {
      var prefix, last := events[..|events| - 1], events[|events| - 1];
      RunKeepsChain(s, prefix);
      RunKeepsInv(s, prefix);
      hide Inv, Step, AllChained, NoneRetired, Retires, CommitsCapture, NeighboursSettled;
      StepKeepsChain(Run(s, prefix), last);
    }
  }

  // Over captures, late recoveries and restores in any interleaving: the committed
  // checkpoints of a workload form one doubly linked list sorted by generation, each
  // link mutual and to the nearest committed generation.
  lemma CheckpointsFormAChain(events: seq<Event>, c: CheckpointId)
    requires Undisturbed(EmptySys, events)
    requires c in Run(EmptySys, events).db.checkpoints && Run(EmptySys, events).db.checkpoints[c].lifecycle.IsLinked()
    ensures var cs := Run(EmptySys, events).db.checkpoints;
            && Chained(cs, c) && Directed(cs)
            && (forall d :: d in WalkDown(cs, c) <==>
                              d in cs && cs[d].workload == cs[c].workload && cs[d].lifecycle.IsLinked()
                              && cs[d].generation <= cs[c].generation)
            && (forall d :: d in cs && cs[d].lifecycle.IsLinked() ==>
                              (cs[d].supersedes == Some(c) <==> cs[c].supersededBy == Some(d)))
  {
    EmptyInv();
    RunKeepsInv(EmptySys, events);
    RunKeepsChain(EmptySys, events);
    var cs := Run(EmptySys, events).db.checkpoints;
    assert RowsInv(cs) && Chained(cs, c);
    hide Run, Inv, Undisturbed, Chained;
    WalkVisitsTheChain(cs, c);
    forall d | d in cs && cs[d].lifecycle.IsLinked() ensures cs[d].supersedes == Some(c) <==>
      cs[c].supersededBy == Some(d) {
      hide *;
      LinksAreMutual(cs, c, d);
    }
  }
}
