// The filesystem provider: restore with a durable undo journal, cleanup and commit,
// over a disk on which every operation can fail (src/providers.rs).  A crash is a
// failure after which nothing more is done.
module Filesystem {
  import opened Wrappers
  import opened ByteStrings
  import opened FileTree
  import opened UndoJournal

  // What lies below a restore root.  The reserved journal directory is kept apart.
  class Disk {
    var tree: Tree
    var journalDir: bool
    var journals: map<string, Undo>
    ghost var faults: nat   // how many operations have failed for no reason of their own

    ghost predicate Valid()
      reads this
    {
      Wf(tree) && (journalDir ==> [] in tree) && (journals != map[] ==> journalDir)
    }

    constructor (root: Tree)
      requires Wf(root)
      ensures Valid() && tree == root && journals == map[] && !journalDir && faults == 0
    {
      tree, journalDir, journals, faults := root, false, map[], 0;
    }

    // create_dir_all; a failure may leave some of the parents made.
    method CreateDirAll(p: FsPath) returns (ok: bool)
      requires Valid() && [] in tree
      modifies `tree, `faults
      ensures Valid() && [] in tree && old(faults) <= faults
      ensures faults == old(faults) ==> MkDirs(old(tree), p) == (tree, ok)
      ensures ok ==> MkDirs(old(tree), p) == (tree, true)
      ensures !ok ==> tree == old(tree) || exists m :: 0 <= m <= |p| && MkDirs(old(tree), p[..m]) == (tree, true)
      decreases |p|
    {
      if p in tree { return tree[p].Dir?; }
      ghost var before := tree;
      MkDirsShape(before, p);
      ok := CreateDirAll(Parent(p));
      if !ok {
        if tree != before {
          var m :| 0 <= m <= |p| - 1 && MkDirs(before, Parent(p)[..m]) == (tree, true);
          assert Parent(p)[..m] == p[..m];
        }
        return;
      }
      if * {
        assert p[..|p| - 1] == Parent(p);
        faults := faults + 1;
        return false;
      }
      tree := tree[p := Dir];
    }

    // write: create or truncate, then fill; a failure may leave any content.
    method WriteFile(p: FsPath, content: Bytes) returns (ok: bool)
      requires Valid() && [] in tree && p != []
      modifies `tree, `faults
      ensures Valid() && [] in tree && old(faults) <= faults
      ensures faults == old(faults) ==>
                (ok <==> Parent(p) in old(tree) && old(tree)[Parent(p)].Dir? && (p in old(tree) ==> old(tree)[p].File?))
      ensures ok ==> Parent(p) in old(tree) && tree == old(tree)[p := File(content)]
      ensures tree != old(tree) ==>
                Parent(p) in old(tree) && old(tree)[Parent(p)] == Dir && (p in old(tree) ==> old(tree)[p].File?)
                && exists torn :: tree == old(tree)[p := File(torn)]
      ensures ok ==> old(tree)[Parent(p)] == Dir && (p in old(tree) ==> old(tree)[p].File?)
    {
      if Parent(p) !in tree || tree[Parent(p)].File? || (p in tree && tree[p].Dir?) { return false; }
      if * {
        faults := faults + 1;
        return false;
      }
      var torn: Bytes := *;
      ok := *;
      if !ok { faults := faults + 1; }
      ghost var before := tree;
      tree := tree[p := File(if ok then content else torn)];
      forall q | q in tree && q != [] ensures Parent(q) in tree && tree[Parent(q)] == Dir {
        if q != p { assert Parent(q) in before; }
      }
    }

    method RemoveFile(p: FsPath) returns (ok: bool)
      requires Valid() && p != []
      modifies `tree, `faults
      ensures Valid() && old(faults) <= faults
      ensures faults == old(faults) ==> (ok <==> p in old(tree) && old(tree)[p].File?)
      ensures ok ==> p in old(tree) && old(tree)[p].File? && tree == old(tree) - {p}
      ensures !ok ==> tree == old(tree)
    {
      if p !in tree || tree[p].Dir? { return false; }
      if * {
        faults := faults + 1;
        return false;
      }
      ghost var before := tree;
      tree := tree - {p};
      ok := true;
      forall q | q in tree && q != []
        ensures Parent(q) in tree && tree[Parent(q)] == Dir
      {
        assert Parent(q) in before;
      }
    }

    predicate Empty(d: FsPath)
      reads this
    {
      (forall p <- tree.Keys :: p != [] ==> Parent(p) != d) && (d == [] ==> !journalDir)
    }

    // remove_directory_if_empty
    method RemoveDirIfEmpty(d: FsPath) returns (ok: bool)
      requires Valid()
      modifies `tree, `faults
      ensures Valid() && old(faults) <= faults
      ensures faults == old(faults) ==> (ok <==> d in old(tree) ==> old(tree)[d].Dir?)
      ensures ok ==> tree == (if d in old(tree) && old(Empty(d)) then old(tree) - {d} else old(tree))
      ensures ok && d in old(tree) ==> old(tree)[d].Dir?
      ensures !ok ==> tree == old(tree)
    {
      if d !in tree { return true; }
      if tree[d].File? { return false; }
      if * {
        faults := faults + 1;
        return false;
      }
      if Empty(d) {
        ghost var before := tree;
        tree := tree - {d};
        forall q | q in tree && q != []
          ensures Parent(q) in tree && tree[Parent(q)] == Dir
        {
          assert Parent(q) in before;
        }
      }
      ok := true;
    }

    // Written to a temporary name, synced and renamed, so it appears at once.
    method PersistJournal(attempt: string, j: Undo) returns (ok: bool)
      requires Valid() && [] in tree
      modifies `journalDir, `journals, `faults
      ensures Valid() && old(faults) <= faults
      ensures faults == old(faults) ==> (ok <==> attempt !in old(journals))
      ensures ok ==> attempt !in old(journals) && journals == old(journals)[attempt := j]
      ensures !ok ==> journals == old(journals)
    {
      if * {
        faults := faults + 1;
        return false;
      }
      journalDir := true;
      if attempt in journals { return false; }
      if * {
        faults := faults + 1;
        return false;
      }
      journals := journals[attempt := j];
      ok := true;
    }

    method RemoveJournal(attempt: string) returns (ok: bool)
      requires Valid()
      modifies `journalDir, `journals, `faults
      ensures Valid() && old(faults) <= faults && (faults == old(faults) ==> ok)
      ensures journals == old(journals) || journals == old(journals) - {attempt}
      ensures ok ==> journals == old(journals) - {attempt} && (journals == map[] ==> !journalDir)
    {
      if attempt in journals {
        if * {
          faults := faults + 1;
          return false;
        }
        journals := journals - {attempt};
      }
      if * {
        faults := faults + 1;
        return false;
      }
      if journals == map[] { journalDir := false; }
      assert journals == old(journals) - {attempt};
      ok := true;
    }
  }

  datatype Outcome = Done | Refused | Failed

  class FilesystemProvider {
    const disk: Disk
    var restoreJournals: map<string, Undo>

    // What the provider remembers is what is durable.
    ghost predicate Valid()
      reads this, disk
    {
      disk.Valid() && forall a :: a in restoreJournals ==> a in disk.journals && disk.journals[a] == restoreJournals[a]
    }

    // A provider that starts on a disk, also one with journals left by another.
    constructor (d: Disk)
      requires d.Valid()
      ensures disk == d && Valid() && restoreJournals == map[]
    {
      disk, restoreJournals := d, map[];
    }

    // The tree once the root exists.
    static function Rooted(t: Tree): Tree {
      if [] in t then t else t[[] := Dir]
    }

    // ---------------- validation ----------------

    // Walk the ancestors of one path: none may be a file, missing ones are recorded.
    method CheckAncestors(rel: FsPath, dirs: seq<FsPath>) returns (ok: bool, dirs': seq<FsPath>)
      requires rel != []
      ensures ok <==> forall q :: Above(q, rel) && q in disk.tree ==> disk.tree[q] == Dir
      ensures ok ==> forall d :: d in dirs' <==> d in dirs || (Above(d, rel) && d !in disk.tree)
    {
      dirs' := dirs;
      var k := 1;
      while k < |rel|
        invariant 1 <= k <= |rel|
        invariant forall m :: 1 <= m < k && rel[..m] in disk.tree ==> disk.tree[rel[..m]] == Dir
        invariant forall d :: d in dirs' <==> d in dirs || (d !in disk.tree && exists m :: 1 <= m < k && d == rel[..m])
      {
        var cursor := rel[..k];
        if cursor in disk.tree {
          if disk.tree[cursor].File? {
            assert Above(cursor, rel);
            return false, dirs';
          }
        } else if cursor !in dirs' {
          dirs' := dirs' + [cursor];
        }
        k := k + 1;
      }
      ok := true;
      forall q | Above(q, rel) ensures 1 <= |q| < |rel| && q == rel[..|q|] {}
    }

    method ValidatePayload(entries: Payload, rootCreated: bool) returns (r: Option<Undo>)
      ensures r.Some? <==> Acceptable(disk.tree, entries)
      ensures r.Some? ==> Records(disk.tree, entries, r.value) && r.value.rootCreated == rootCreated
    {
      var seen: set<FsPath> := {};
      var files: seq<(FsPath, Option<Bytes>)> := [];
      var dirs: seq<FsPath> := [];
      var i := 0;
      while i < |entries|
        invariant 0 <= i <= |entries| == |entries|
        invariant forall m :: 0 <= m < i ==> EntryFits(disk.tree, entries, m)
        invariant forall p :: p in seen <==> exists m :: 0 <= m < i && entries[m].path == p
        invariant |files| == i && forall m :: 0 <= m < i ==>
                  files[m] == (entries[m].path, Previous(disk.tree, entries[m].path))
        invariant forall d :: d in dirs <==> Needed(disk.tree, entries, i, d)
      {
        var rel := entries[i].path;
        if !Checked(rel) || rel in seen {
          assert !EntryFits(disk.tree, entries, i);
          return None;
        }
        ghost var before := dirs;
        var ok;
        ok, dirs := CheckAncestors(rel, dirs);
        if !ok || (rel in disk.tree && disk.tree[rel].Dir?) {
          assert !EntryFits(disk.tree, entries, i);
          return None;
        }
        seen := seen + {rel};
        files := files + [(rel, Previous(disk.tree, rel))];
        forall d ensures d in dirs <==> Needed(disk.tree, entries, i + 1, d) {
          assert Needed(disk.tree, entries, i + 1, d) <==>
              Needed(disk.tree, entries, i, d) || (d !in disk.tree && Above(d, rel));
        }
        i := i + 1;
      }
      r := Some(Undo(files, dirs, rootCreated));
    }

    // ---------------- restore ----------------

    method Restore(attempt: string, entries: Payload) returns (r: Outcome)
      requires Valid()
      modifies this, disk
      ensures Valid() && forall a :: a in old(disk.journals) ==>
                a in disk.journals && disk.journals[a] == old(disk.journals)[a]
      // before the undo journal is durable nothing but the root has been touched
      ensures disk.journals == old(disk.journals) ==> disk.tree == old(disk.tree) || disk.tree == Rooted(old(disk.tree))
      // from then on the tree is one an interrupted write loop can leave
      ensures disk.journals != old(disk.journals) ==>
                && attempt !in old(disk.journals) && disk.journals.Keys == old(disk.journals).Keys + {attempt}
                && (var j := disk.journals[attempt];
                    Setting(Rooted(old(disk.tree)), entries, j) && (j.rootCreated <==> [] !in old(disk.tree))
                    && (forall e :: e in entries ==> e.path != [])
                    && Interrupted(Rooted(old(disk.tree)), entries, disk.tree)
                    && (r == Done ==> PutAll(Rooted(old(disk.tree)), entries) == Some(disk.tree)))
      ensures r == Done ==> disk.journals != old(disk.journals)
      // refused only for what it asks, and failed only by a failing operation or a payload
      // one of whose files lies below another
      ensures r == Refused ==> !Acceptable(Rooted(old(disk.tree)), entries) || attempt in old(disk.journals)
      ensures old(disk.faults) <= disk.faults
      ensures disk.faults == old(disk.faults) && Acceptable(Rooted(old(disk.tree)), entries)
              && attempt !in old(disk.journals) ==>
                (r == Done <==> Separate(entries)) && disk.journals != old(disk.journals)
      ensures !Acceptable(Rooted(old(disk.tree)), entries) || attempt in old(disk.journals) ==>
                r != Done && disk.journals == old(disk.journals)
    {
      ghost var before := disk.tree;
      var rootCreated := [] !in disk.tree;
      if rootCreated {
        if * {
          disk.faults := disk.faults + 1;
          return Failed;
        }
        assert disk.tree == map[] by {
          forall p | p in disk.tree ensures false { AncestorsAreThere(disk.tree, p); }
        }
        disk.tree := disk.tree[[] := Dir];
      }
      var journal := ValidatePayload(entries, rootCreated);
      if journal.None? { return Refused; }
      if attempt in restoreJournals { return Refused; }
      var ok := disk.PersistJournal(attempt, journal.value);
      if !ok { return if attempt in disk.journals then Refused else Failed; }
      restoreJournals := restoreJournals[attempt := journal.value];
      WritableExactly(disk.tree, entries);
      r := WriteEntries(entries);
      assert entries[..|entries|] == entries;
    }

    // The write loop.
    method WriteEntries(entries: Payload) returns (r: Outcome)
      requires disk.Valid() && [] in disk.tree && forall e :: e in entries ==> e.path != []
      modifies disk`tree, disk`faults
      ensures old(disk.faults) <= disk.faults
      ensures disk.faults == old(disk.faults) ==> (r == Done <==> PutAll(old(disk.tree), entries).Some?)
      ensures disk.Valid() && Interrupted(old(disk.tree), entries, disk.tree)
      ensures r == Done ==> PutAll(old(disk.tree), entries) == Some(disk.tree)
      ensures r != Refused
    {
      ghost var t0 := disk.tree;
      var i := 0;
      assert entries[..0] == [];
      while i < |entries|
        invariant 0 <= i <= |entries| && disk.Valid() && [] in disk.tree && old(disk.faults) <= disk.faults
        invariant PutAll(t0, entries[..i]) == Some(disk.tree)
      {
        ghost var t := disk.tree;
        var p := entries[i].path;
        assert entries[i] in entries;
        StopsHere(t0, entries, i, t);
        var made := disk.CreateDirAll(Parent(p));
        if !made {
          CutInParents(t, entries[i], disk.tree);
          assert CutAt(t0, entries, i, disk.tree);
          return Failed;
        }
        ghost var t1 := disk.tree;
        var written := disk.WriteFile(p, entries[i].content);
        if !written {
          CutInFile(t, t1, entries[i], disk.tree);
          assert CutAt(t0, entries, i, disk.tree);
          return Failed;
        }
        assert entries[..i + 1][..i] == entries[..i];
        i := i + 1;
      }
      assert entries[..i] == entries;
      assert CutAt(t0, entries, i, disk.tree);
      r := Done;
    }

    static lemma AncestorsAreThere(t: Tree, p: FsPath)
      requires Wf(t) && p in t
      ensures [] in t
    {
      if p != [] { AncestorsAreDirs(t, p, 0); }
    }

    // An entry that cannot be put ends the loop for good.
    static lemma StopsHere(t0: Tree, entries: Payload, i: nat, t: Tree)
      requires i < |entries| && (forall e :: e in entries ==> e.path != []) && PutAll(t0, entries[..i]) == Some(t)
      ensures entries[i].path != []
      ensures PutFile(t, entries[i].path, entries[i].content).None? ==> PutAll(t0, entries).None?
    {
      assert entries[..i + 1][..i] == entries[..i] && entries[i] in entries;
      if PutAll(t0, entries[..i + 1]).None? { NonePersists(t0, entries, i + 1); }
    }

    static lemma {:induction false} NonePersists(t0: Tree, entries: Payload, i: nat)
      requires i <= |entries| && (forall e :: e in entries ==> e.path != []) && PutAll(t0, entries[..i]).None?
      ensures PutAll(t0, entries).None?
      decreases |entries|
    {
      if i < |entries| {
        var prefix := entries[..|entries| - 1];
        assert prefix[..i] == entries[..i];
        NonePersists(t0, prefix, i);
      } else {
        assert entries[..i] == entries;
      }
    }

    static lemma CutInParents(t: Tree, e: PayloadEntry, t': Tree)
      requires e.path != []
      requires t' == t || exists m :: 0 <= m <= |Parent(e.path)| && MkDirs(t, Parent(e.path)[..m]) == (t', true)
      ensures Torn(t, e, t')
    {
      if t' != t {
        var m :| 0 <= m <= |Parent(e.path)| && MkDirs(t, Parent(e.path)[..m]) == (t', true);
        assert Parent(e.path)[..m] == e.path[..m];
      }
    }

    static lemma CutInFile(t: Tree, t1: Tree, e: PayloadEntry, t': Tree)
      requires e.path != [] && MkDirs(t, Parent(e.path)) == (t1, true)
      requires t' == t1 || ((e.path in t1 ==> t1[e.path].File?) && exists torn :: t' == t1[e.path := File(torn)])
      ensures Torn(t, e, t')
    {
      if t' == t1 {
        assert Parent(e.path) == e.path[..|e.path| - 1];
      } else {
        var torn :| t' == t1[e.path := File(torn)];
        assert PutFile(t, e.path, torn) == Some(t');
      }
    }

    // ---------------- cleanup and commit ----------------

    // The created directories, deepest first.
    static method SortByDepth(dirs: seq<FsPath>) returns (sorted: seq<FsPath>)
      ensures DeepestFirst(dirs, sorted)
    {
      sorted := [];
      var i := 0;
      while i < |dirs|
        invariant 0 <= i <= |dirs|
        invariant DeepestFirst(dirs[..i], sorted)
      {
        ghost var before := sorted;
        var k := |sorted|;
        while k > 0 && |sorted[k - 1]| < |dirs[i]|
          invariant 0 <= k <= |sorted|
          invariant forall m :: k <= m < |sorted| ==> |sorted[m]| < |dirs[i]|
        {
          k := k - 1;
        }
        sorted := sorted[..k] + [dirs[i]] + sorted[k..];
        assert forall d :: d in sorted <==> d in before || d == dirs[i];
        assert dirs[..i + 1] == dirs[..i] + [dirs[i]];
        i := i + 1;
      }
      assert dirs[..i] == dirs;
    }

    // t0 is the tree before the restore of `entries` that attempt's journal records.
    ghost predicate Journaled(attempt: string, t0: Tree, entries: Payload)
      reads disk
    {
      attempt in disk.journals
      && var j := disk.journals[attempt];
         Setting(t0, entries, j) && Between(t0, j, disk.tree) && (j.rootCreated ==> t0 == map[[] := Dir])
    }

    // Undo every journaled file, last one first.
    method UndoJournaledFiles(j: Undo, ghost t0: Tree, ghost entries: Payload) returns (ok: bool)
      requires disk.Valid() && Setting(t0, entries, j) && Between(t0, j, disk.tree)
      modifies disk`tree, disk`faults
      ensures disk.Valid() && Between(t0, j, disk.tree)
      ensures old(disk.faults) <= disk.faults && (disk.faults == old(disk.faults) ==> ok)
      ensures ok ==> Undone(t0, j, 0, disk.tree)
    {
      var i := |j.files|;
      while i > 0
        invariant 0 <= i <= |j.files| && disk.Valid() && old(disk.faults) <= disk.faults
        invariant Undone(t0, j, i, disk.tree)
      {
        i := i - 1;
        var (p, previous) := j.files[i];
        ghost var t := disk.tree;
        UndoOne(t0, entries, j, i, t);
        match previous {
          case Some(content) =>
            assert [] in disk.tree by { assert [] in t0; }
            UndoMakesNoDirs(t0, entries, j, i, t);
            var made := disk.CreateDirAll(Parent(p));
            if !made { return false; }
            var written := disk.WriteFile(p, content);
            if !written {
              TornUndoIsBetween(t0, entries, j, i, t, disk.tree);
              return false;
            }
          case None =>
            if p in disk.tree {
              var removed := disk.RemoveFile(p);
              if !removed { return false; }
            }
        }
        assert Some(disk.tree) == UndoFile(t, p, previous);
      }
      ok := true;
    }

    // A file that was there before lies under directories that still are.
    static lemma UndoMakesNoDirs(t0: Tree, entries: Payload, j: Undo, n: nat, t: Tree)
      requires Setting(t0, entries, j) && n < |j.files| && Between(t0, j, t) && j.files[n].1.Some? && j.files[n].0 != []
      ensures forall m :: 0 <= m < |j.files[n].0| ==> MkDirs(t, j.files[n].0[..m]) == (t, true)
      ensures MkDirs(t, Parent(j.files[n].0)) == (t, true)
      ensures forall m :: 0 <= m <= |Parent(j.files[n].0)| ==> MkDirs(t, Parent(j.files[n].0)[..m]) == (t, true)
    {
      var p := j.files[n].0;
      assert EntryFits(t0, entries, n);
      assert Parent(p) == p[..|p| - 1];
      forall m | 0 <= m < |p| ensures p[..m] in t && t[p[..m]] == Dir {
        AncestorsAreDirs(t0, p, m);
        FilePaths(t0, entries, j, p[..m]);
      }
      assert forall m :: 0 <= m <= |Parent(p)| ==> Parent(p)[..m] == p[..m];
    }

    static lemma TornUndoIsBetween(t0: Tree, entries: Payload, j: Undo, n: nat, t: Tree, t': Tree)
      requires Setting(t0, entries, j) && n < |j.files| && Between(t0, j, t) && j.files[n].1.Some? && j.files[n].0 != []
      requires Wf(t') && (t' == t || exists torn :: t' == t[j.files[n].0 := File(torn)])
      ensures Between(t0, j, t')
    {
      assert EntryFits(t0, entries, n) && j.files[n] in j.files;
      FilePaths(t0, entries, j, j.files[n].0);
    }

    // Remove the directories that were made, deepest first.
    method RemoveMadeDirs(sorted: seq<FsPath>, ghost t0: Tree) returns (ok: bool)
      requires disk.Valid() && Wf(t0) && [] in t0 && LeftOver(t0, sorted, disk.tree)
      requires forall d :: d in sorted ==> d !in t0 && d != []
      requires forall i, k :: 0 <= i < k < |sorted| ==> |sorted[i]| >= |sorted[k]|
      modifies disk`tree, disk`faults
      ensures old(disk.faults) <= disk.faults && (disk.faults == old(disk.faults) ==> ok)
      ensures disk.Valid() && LeftOver(t0, sorted, disk.tree) && disk.tree.Keys <= old(disk.tree.Keys)
      ensures ok ==> disk.tree == t0
    {
      var i := 0;
      while i < |sorted|
        invariant 0 <= i <= |sorted| && disk.Valid() && disk.tree.Keys <= old(disk.tree.Keys)
        invariant LeftOver(t0, sorted[i..], disk.tree) && old(disk.faults) <= disk.faults
      {
        var d := sorted[i];
        ghost var t := disk.tree;
        assert sorted[i..][0] == d && sorted[i..][1..] == sorted[i + 1..];
        if d in disk.tree {
          DeepestIsEmpty(t0, sorted[i..], t);
          assert disk.Empty(d) by {
            forall p | p in disk.tree.Keys && p != [] ensures Parent(p) != d { assert p in t; }
          }
          var removed := disk.RemoveDirIfEmpty(d);
          if !removed { return false; }
          assert disk.tree == t - {d};
        }
        i := i + 1;
      }
      ok := true;
      assert sorted[i..] == [];
      assert disk.tree.Keys == t0.Keys;
    }

    method CleanupRestore(attempt: string, ghost t0: Tree, ghost entries: Payload) returns (r: Outcome)
      requires Valid() && (attempt in disk.journals ==> Journaled(attempt, t0, entries))
      modifies this, disk
      ensures Valid()
      ensures attempt !in old(disk.journals) ==>
              r == Done && disk.tree == old(disk.tree) && disk.journals == old(disk.journals)
      // whatever this provider remembers, only a failing operation can stop it
      ensures old(disk.faults) <= disk.faults && (disk.faults == old(disk.faults) ==> r == Done)
      // success: exactly the prior tree, and the root gone again if the restore made it
      ensures attempt in old(disk.journals) && r == Done ==>
                disk.journals == old(disk.journals) - {attempt}
                && disk.tree == if old(disk.journals[attempt]).rootCreated && disk.journals == map[] then map[] else t0
      // failure before the journal is removed: it can be run again, by any provider
      ensures attempt in old(disk.journals) && r != Done && attempt in disk.journals ==>
                disk.journals == old(disk.journals) && Journaled(attempt, t0, entries)
      ensures attempt in old(disk.journals) && r != Done && attempt !in disk.journals ==> disk.tree == t0
    {
      var remembered := if attempt in restoreJournals then Some(restoreJournals[attempt]) else None;
      restoreJournals := restoreJournals - {attempt};
      if attempt !in disk.journals { return Done; }
      var j := if remembered.Some? then remembered.value else disk.journals[attempt];
      assert j == disk.journals[attempt];

      var undone := UndoTree(j, t0, entries);
      if !undone { return Failed; }
      var forgotten := disk.RemoveJournal(attempt);
      if !forgotten { return Failed; }
      if j.rootCreated && [] in disk.tree {
        RootIsBare(disk.tree);
        var gone := disk.RemoveDirIfEmpty([]);
        if !gone { return Failed; }
        assert disk.journals == map[] ==> disk.tree == map[];
      }
      r := Done;
    }

    // Files, then directories.
    method UndoTree(j: Undo, ghost t0: Tree, ghost entries: Payload) returns (ok: bool)
      requires disk.Valid() && Setting(t0, entries, j) && Between(t0, j, disk.tree)
      modifies disk`tree, disk`faults
      ensures disk.Valid() && Between(t0, j, disk.tree)
      ensures old(disk.faults) <= disk.faults && (disk.faults == old(disk.faults) ==> ok)
      ensures ok ==> disk.tree == t0
    {
      ok := UndoJournaledFiles(j, t0, entries);
      if ok {
        var sorted := SortByDepth(j.createdDirs);
        OnlyDirsLeft(t0, entries, j, disk.tree, sorted);
        ok := RemoveMadeDirs(sorted, t0);
        LeftOverIsBetween(t0, entries, j, disk.tree, sorted);
      }
    }

    static lemma RootIsBare(t: Tree)
      requires t == map[[] := Dir]
      ensures forall p :: p in t.Keys && p != [] ==> Parent(p) != []
    {}

    // Once the files are undone only made directories remain.
    static lemma OnlyDirsLeft(t0: Tree, entries: Payload, j: Undo, t: Tree, sorted: seq<FsPath>)
      requires Setting(t0, entries, j) && Undone(t0, j, 0, t) && DeepestFirst(j.createdDirs, sorted)
      ensures LeftOver(t0, sorted, t) && forall d :: d in sorted ==> d !in t0 && d != []
      ensures forall p :: p in t && p !in t0 ==> !IsFilePath(j, p)
    {
      forall p | p in t && p !in t0
        ensures t[p] == Dir && p in sorted { if IsFilePath(j, p) { UndoneFilePath(t0, j, t, p); } }
      forall p | p in t0 ensures p in t && t[p] == t0[p] { if IsFilePath(j, p) { UndoneFilePath(t0, j, t, p); } }
    }

    static lemma LeftOverIsBetween(t0: Tree, entries: Payload, j: Undo, t: Tree, sorted: seq<FsPath>)
      requires Setting(t0, entries, j) && LeftOver(t0, sorted, t) && DeepestFirst(j.createdDirs, sorted)
      requires forall p :: p in t && p !in t0 ==> !IsFilePath(j, p)
      ensures Between(t0, j, t)
    {
      forall p | p in t0 ensures IsFilePath(j, p) ==> t[p].File? { FilePaths(t0, entries, j, p); }
    }

    method CommitRestore(attempt: string) returns (r: Outcome)
      requires Valid()
      modifies this, disk
      ensures Valid() && disk.tree == old(disk.tree)
      ensures old(disk.faults) <= disk.faults && (disk.faults == old(disk.faults) ==> r == Done)
      ensures r == Done ==> disk.journals == old(disk.journals) - {attempt}
      ensures r != Done ==> disk.journals == old(disk.journals) || disk.journals == old(disk.journals) - {attempt}
    {
      restoreJournals := restoreJournals - {attempt};
      var ok := disk.RemoveJournal(attempt);
      r := if ok then Done else Failed;
    }
  }

  // What a restore of orderly entries leaves, wherever it was cut off, is what a cleanup
  // asks for.
  lemma RestoredIsJournaled(disk: Disk, provider: FilesystemProvider, attempt: string, before: Tree, entries: Payload)
    requires provider.disk == disk && disk.Valid() && Wf(before) && Orderly(entries) && attempt in disk.journals
    requires var j := disk.journals[attempt];
             Setting(FilesystemProvider.Rooted(before), entries, j) && (j.rootCreated <==> [] !in before)
             && (forall e :: e in entries ==> e.path != [])
             && Interrupted(FilesystemProvider.Rooted(before), entries, disk.tree)
    ensures provider.Journaled(attempt, FilesystemProvider.Rooted(before), entries)
  {
    InterruptedIsBetween(FilesystemProvider.Rooted(before), entries, disk.journals[attempt], disk.tree);
    RootlessIsEmpty(before);
    hide Setting, Interrupted, Between, Orderly;
  }

  lemma RootlessIsEmpty(t: Tree)
    requires Wf(t)
    ensures [] !in t ==> t == map[]
  {
    if p :| p in t { FilesystemProvider.AncestorsAreThere(t, p); }
  }

  // A restore that fails anywhere or not at all, a restart, and the cleanup of the same
  // attempt by a new provider.  When no operation of the cleanup fails it comes through.
  // When it has, the tree is exactly the one before the restore and no journal of the
  // attempt is left; only a root the restore made stays if the journal never became
  // durable or others lie below it.  A cleanup that fails before it has removed the
  // journal can be run again.
  method RestoreThenCleanup(disk: Disk, attempt: string, entries: Payload)
    returns (restored: Outcome, cleaned: Outcome, durable: bool, ghost restarted: nat)
    requires disk.Valid() && attempt !in disk.journals && Orderly(entries)
    modifies disk
    ensures disk.Valid() && old(disk.faults) <= restarted <= disk.faults
    ensures disk.faults == restarted ==> cleaned == Done
    ensures restarted == old(disk.faults) && Acceptable(FilesystemProvider.Rooted(old(disk.tree)), entries) ==>
              durable && (restored == Done <==> Separate(entries))
    ensures cleaned == Done ==> disk.journals == old(disk.journals)
    ensures cleaned == Done && [] in old(disk.tree) ==> disk.tree == old(disk.tree)
    ensures cleaned == Done && [] !in old(disk.tree) ==>
              old(disk.tree) == map[] && (disk.tree == map[] || disk.tree == map[[] := Dir])
              && (durable && old(disk.journals) == map[] ==> disk.tree == map[])
    ensures restored == Done ==> durable
    ensures cleaned != Done && attempt in disk.journals ==>
              Setting(FilesystemProvider.Rooted(old(disk.tree)), entries, disk.journals[attempt])
              && Between(FilesystemProvider.Rooted(old(disk.tree)), disk.journals[attempt], disk.tree)
  {
    ghost var before, journals := disk.tree, disk.journals;
    RootlessIsEmpty(before);
    var first := new FilesystemProvider(disk);
    restored := first.Restore(attempt, entries);
    assert disk.journals - {attempt} == journals;
    durable, restarted := attempt in disk.journals, disk.faults;
    var second := new FilesystemProvider(disk);
    if attempt in disk.journals { RestoredIsJournaled(disk, second, attempt, before, entries); }
    hide Setting, Between, Orderly, Interrupted, Acceptable, Separate;
    cleaned := second.CleanupRestore(attempt, FilesystemProvider.Rooted(before), entries);
  }
}
