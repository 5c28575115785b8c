// Incremental chains: the validation walk and the ancestor path over the same parent
// links (src/lineage.rs).
module IncrementalChain {
  import opened Wrappers
  import T = Tables
  import L = Lifecycle

  type Id = nat

  datatype CheckpointType = Full | Incremental | Delta

  datatype Node = Node(id: Id, kind: CheckpointType, parent: Option<Id>, lifecycle: L.State, integrity: T.Integrity)

  datatype ChainError = Cycle | TooDeep | MissingParent | ParentNotRestorable

  // Every row is stored under its own id.
  type Graph = map<Id, Node>
  ghost predicate Keyed(g: Graph) {
    forall id :: id in g ==> g[id].id == id
  }

  // The base an incremental checkpoint needs.
  function Base(n: Node): Option<Id> {
    if n.kind == Incremental || n.kind == Delta then n.parent else None
  }

  predicate Restorable(n: Node) {
    !n.lifecycle.IsTerminal() && n.integrity != T.Corrupt
  }

  // ---------------- the chain as a list ----------------

  // path starts at leaf and follows bases that are there and restorable.
  ghost predicate Follows(g: Graph, leaf: Node, path: seq<Node>) {
    path != [] && path[0] == leaf
    && forall i :: 0 < i < |path| ==> Linked(g, path[i - 1], path[i])
  }

  ghost predicate Linked(g: Graph, child: Node, parent: Node) {
    Base(child) == Some(parent.id) && parent.id in g && g[parent.id] == parent && Restorable(parent)
  }

  ghost predicate Distinct(path: seq<Node>) {
    forall i, k :: 0 <= i < k < |path| ==> path[i].id != path[k].id
  }

  // A finite, repetition-free chain that ends where no base is needed.
  ghost predicate Chain(g: Graph, leaf: Node, path: seq<Node>) {
    Follows(g, leaf, path) && Distinct(path) && Base(path[|path| - 1]).None?
  }

  // A walk that has come as far as `path` is the beginning of every chain there is.
  lemma {:induction false} WalkIsPrefix(g: Graph, leaf: Node, path: seq<Node>, chain: seq<Node>)
    requires Follows(g, leaf, path) && Chain(g, leaf, chain)
    ensures path <= chain
    decreases |path|
  {
    if |path| > 1 {
      var shorter := path[..|path| - 1];
      assert Follows(g, leaf, shorter) by {
        forall i | 0 < i < |shorter|
          ensures Linked(g, shorter[i - 1], shorter[i])
        {
          assert Linked(g, path[i - 1], path[i]);
        }
      }
      WalkIsPrefix(g, leaf, shorter, chain);
      var n := |shorter|;
      assert Base(chain[|chain| - 1]).None?;
      assert Linked(g, path[n - 1], path[n]) && shorter[n - 1] == path[n - 1] == chain[n - 1];
      assert Linked(g, chain[n - 1], chain[n]);
      assert path == shorter + [path[n]];
    }
  }

  // ---------------- validation ----------------

  function Ids(path: seq<Node>): seq<Id> {
    seq(|path|, i requires 0 <= i < |path| => path[i].id)
  }

  // Why the walk cannot go on from `path`, which is within the limit: the next node is
  // one it has seen, is one too many, is not there, or must not be built upon.
  ghost predicate Stuck(g: Graph, leaf: Node, maxDepth: nat, path: seq<Node>, e: ChainError) {
    Distinct(path) && |path| <= maxDepth && (path == [] || Follows(g, leaf, path))
    && match e
       case Cycle => exists c: Node :: c.id in Ids(path) && Follows(g, leaf, path + [c])
       case TooDeep => exists c: Node :: c.id !in Ids(path) && Follows(g, leaf, path + [c]) && |path| == maxDepth
       case MissingParent => path != [] && Base(path[|path| - 1]).Some? && Base(path[|path| - 1]).value !in g
       case ParentNotRestorable =>
         path != [] && Base(path[|path| - 1]).Some? && Base(path[|path| - 1]).value in g
         && !Restorable(g[Base(path[|path| - 1]).value])
  }

  // Accepts exactly when the chain is finite, repetition-free, no longer than the
  // limit, and made of present, non-terminal, uncorrupted parents; it always ends.
  method ValidateChain(leaf: Node, g: Graph, maxDepth: nat) returns (r: Result<(), ChainError>)
    requires Keyed(g)
    ensures r.Ok? <==> exists chain: seq<Node> :: Chain(g, leaf, chain) && |chain| <= maxDepth
    ensures r.Err? ==> exists path: seq<Node> :: Stuck(g, leaf, maxDepth, path, r.error)
  {
    var depth := 0;
    var seen: set<Id> := {};
    var cur := Some(leaf);
    ghost var path: seq<Node> := [];
    while cur.Some?
      invariant depth == |path| <= maxDepth
      invariant path != [] ==> Follows(g, leaf, path)
      invariant forall id :: id in seen <==> id in Ids(path)
      invariant Distinct(path)
      invariant path == [] ==> cur == Some(leaf)
      invariant path != [] && cur.Some? ==> Linked(g, path[|path| - 1], cur.value)
      invariant path != [] && cur.None? ==> Base(path[|path| - 1]).None?
      decreases cur.Some?, maxDepth - depth
    {
      var c := cur.value;
      ghost var longer := path + [c];
      assert Follows(g, leaf, longer);
      forall chain: seq<Node> | Chain(g, leaf, chain) ensures longer <= chain && c.id !in Ids(path) {
        WalkIsPrefix(g, leaf, longer, chain);
        NoRepeats(path, c, chain);
      }
      if c.id in seen {
        assert Stuck(g, leaf, maxDepth, path, Cycle);
        return Err(Cycle);
      }
      assert Ids(longer) == Ids(path) + [c.id];
      assert forall i :: 0 <= i < |path| ==> Ids(path)[i] == path[i].id;
      seen := seen + {c.id};
      depth := depth + 1;
      if depth > maxDepth {
        assert Stuck(g, leaf, maxDepth, path, TooDeep);
        return Err(TooDeep);
      }
      path := longer;
      var base := Base(c);
      if base.None? {
        cur := None;
      } else {
        forall chain: seq<Node> | Chain(g, leaf, chain) ensures |chain| > |path| && Linked(g, c, chain[|path|]) {
          NextIsLinked(g, leaf, path, chain);
        }
        if base.value !in g {
          assert Stuck(g, leaf, maxDepth, path, MissingParent);
          return Err(MissingParent);
        }
        var parent := g[base.value];
        if parent.lifecycle.IsTerminal() || parent.integrity == T.Corrupt {
          assert Stuck(g, leaf, maxDepth, path, ParentNotRestorable);
          return Err(ParentNotRestorable);
        }
        cur := Some(parent);
      }
    }
    assert Chain(g, leaf, path);
    r := Ok(());
  }

  lemma NoRepeats(path: seq<Node>, c: Node, chain: seq<Node>)
    requires path + [c] <= chain && Distinct(chain)
    ensures c.id !in Ids(path)
  {
    assert (path + [c])[|path|] == chain[|path|];
    forall i | 0 <= i < |path| ensures path[i].id != c.id { assert (path + [c])[i] == chain[i]; }
  }

  lemma NextIsLinked(g: Graph, leaf: Node, path: seq<Node>, chain: seq<Node>)
    requires Chain(g, leaf, chain) && path != [] && path <= chain && Base(path[|path| - 1]).Some?
    ensures |chain| > |path| && Linked(g, path[|path| - 1], chain[|path|])
  {
    assert path[|path| - 1] == chain[|path| - 1];
    if |chain| > |path| { assert Linked(g, chain[|path| - 1], chain[|path|]); }
  }

  // ---------------- the ancestor path ----------------

  // Follows the leaf's parent and then bases.  For an incremental leaf with a valid
  // chain the result is that chain without the leaf.
  method AncestorPath(leaf: Node, g: Graph) returns (r: Result<seq<Id>, ChainError>)
    ensures leaf.kind == Incremental || leaf.kind == Delta ==> forall chain: seq<Node> :: Chain(g, leaf, chain) ==>
              r == Ok(Ids(chain[1..]))
    ensures r.Ok? ==> Ancestry(g, leaf, r.value, None)
    // an error says that the next ancestor has been visited, or is not there
    ensures r.Err? ==> exists path: seq<Id> :: Halted(g, leaf, path, r.error)
  {
    var path: seq<Id> := [];
    var seen: set<Id> := {};
    var cur := leaf.parent;
    ghost var valid := (leaf.kind == Incremental || leaf.kind == Delta) && exists c: seq<Node> :: Chain(g, leaf, c);
    ghost var chain: seq<Node> := [leaf];
    if valid { chain :| Chain(g, leaf, chain); }
    while cur.Some?
      invariant forall id :: id in seen <==> id in path
      invariant seen <= g.Keys
      invariant Ancestry(g, leaf, path, cur)
      invariant valid ==> Chain(g, leaf, chain) && OnChain(chain, path, cur)
      decreases |g.Keys - seen|
    {
      var id := cur.value;
      if valid { ChainGoesOn(g, leaf, chain, path, id); }
      hide Chain, OnChain, Ancestry, Halted;
      if id in seen {
        HaltsHere(g, leaf, path, id, Cycle);
        return Err(Cycle);
      }
      seen := seen + {id};
      if id !in g {
        HaltsHere(g, leaf, path, id, MissingParent);
        return Err(MissingParent);
      }
      AncestryGrows(g, leaf, path, id);
      path := path + [id];
      cur := Base(g[id]);
    }
    if valid {
      ChainEnds(g, leaf, chain, path);
      forall c: seq<Node> | Chain(g, leaf, c) ensures c == chain { ChainIsUnique(g, leaf, c, chain); }
    }
    r := Ok(path);
  }

  // The ancestor after `path` has been visited, or is not there.
  ghost predicate Halted(g: Graph, leaf: Node, path: seq<Id>, e: ChainError) {
    exists id: Id :: Ancestry(g, leaf, path, Some(id))
                     && if e == Cycle then id in path else e == MissingParent && id !in g
  }

  lemma HaltsHere(g: Graph, leaf: Node, path: seq<Id>, id: Id, e: ChainError)
    requires Ancestry(g, leaf, path, Some(id)) && if e == Cycle then id in path else e == MissingParent && id !in g
    ensures Halted(g, leaf, path, e)
  {}

  // path lists ancestors without repetition, each the base of the one before, the
  // first the leaf's parent; cur is the next.
  ghost predicate Ancestry(g: Graph, leaf: Node, path: seq<Id>, cur: Option<Id>) {
    && (forall id :: id in path ==> id in g)
    && (forall i, k :: 0 <= i < k < |path| ==> path[i] != path[k])
    && (if path == [] then cur == leaf.parent
        else leaf.parent == Some(path[0]) && path[|path| - 1] in g && cur == Base(g[path[|path| - 1]]))
    && (forall i {:trigger NextBase(g, path, i)} :: 0 <= i < |path| - 1 ==> NextBase(g, path, i) == Some(path[i + 1]))
  }

  ghost function NextBase(g: Graph, path: seq<Id>, i: nat): Option<Id>
    requires i < |path|
  {
    if path[i] in g then Base(g[path[i]]) else None
  }

  lemma AncestryGrows(g: Graph, leaf: Node, path: seq<Id>, id: Id)
    requires Ancestry(g, leaf, path, Some(id)) && id in g && id !in path
    ensures Ancestry(g, leaf, path + [id], Base(g[id]))
  {
    var longer := path + [id];
    forall i | 0 <= i < |longer| - 1 ensures NextBase(g, longer, i) == Some(longer[i + 1]) {
      if i < |path| - 1 { assert NextBase(g, path, i) == Some(path[i + 1]); }
    }
  }

  // path holds the first ancestors on the chain, and cur is the next one.
  ghost predicate OnChain(chain: seq<Node>, path: seq<Id>, cur: Option<Id>) {
    |path| < |chain| && path == Ids(chain[1..|path| + 1]) && cur == Base(chain[|path|])
  }

  lemma ChainGoesOn(g: Graph, leaf: Node, chain: seq<Node>, path: seq<Id>, id: Id)
    requires Chain(g, leaf, chain) && OnChain(chain, path, Some(id))
    ensures id in g && id !in path && OnChain(chain, path + [id], Base(g[id]))
  {
    var n := |path|;
    assert Base(chain[|chain| - 1]).None?;
    assert Linked(g, chain[n], chain[n + 1]);
    forall i | 0 <= i < n ensures path[i] != id {
      assert path[i] == chain[1..n + 1][i].id == chain[i + 1].id;
    }
    assert chain[1..n + 2] == chain[1..n + 1] + [chain[n + 1]];
    assert Ids(chain[1..n + 2]) == Ids(chain[1..n + 1]) + [chain[n + 1].id];
  }

  lemma ChainEnds(g: Graph, leaf: Node, chain: seq<Node>, path: seq<Id>)
    requires Chain(g, leaf, chain) && OnChain(chain, path, None)
    ensures path == Ids(chain[1..])
  {
    assert |path| + 1 < |chain| ==> Linked(g, chain[|path|], chain[|path| + 1]);
    assert chain[1..|path| + 1] == chain[1..];
  }

  // The two walks agree: whatever the validation accepts, at whatever limit, has one
  // chain, and it is the ancestor path below the leaf.
  lemma ChainIsUnique(g: Graph, leaf: Node, a: seq<Node>, b: seq<Node>)
    requires Chain(g, leaf, a) && Chain(g, leaf, b)
    ensures a == b
  {
    WalkIsPrefix(g, leaf, a, b);
    WalkIsPrefix(g, leaf, b, a);
  }
}
