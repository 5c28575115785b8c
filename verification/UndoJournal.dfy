// The filesystem provider's undo journal: what a validated restore records, the trees
// an interrupted restore can leave, and why undoing from any of them gives back the
// prior tree (src/providers.rs).
module UndoJournal {
  import opened Wrappers
  import opened ByteStrings
  import opened FileTree

  datatype PayloadEntry = PayloadEntry(path: FsPath, content: Bytes)
  type Payload = seq<PayloadEntry>

  datatype Undo = Undo(files: seq<(FsPath, Option<Bytes>)>, createdDirs: seq<FsPath>, rootCreated: bool)

  // The reserved directory below a restore root; it is kept apart from the tree.
  const JOURNAL_DIR: Name := ".checkpoint-fabric-restore-journals"

  predicate NormalName(n: Name) {
    n != "" && n != "." && n != ".." && '/' !in n
  }

  // checked_restore_relative
  predicate Checked(p: FsPath) {
    p != [] && p[0] != JOURNAL_DIR && forall n <- p :: NormalName(n)
  }

  // Where a path leads when "." and ".." are followed, or None above the root.
  function Resolved(p: FsPath): Option<FsPath> {
    if p == [] then Some([])
    else
      var before, n := Resolved(p[..|p| - 1]), p[|p| - 1];
      if before.None? then None
      else if n == "" || n == "." then before
      else if n != ".." then Some(before.value + [n])
      else if before.value == [] then None else Some(before.value[..|before.value| - 1])
  }

  lemma {:induction false} ResolvedIsShorter(p: FsPath)
    ensures Resolved(p).Some? ==> |Resolved(p).value| <= |p|
    decreases |p|
  {
    if p != [] { ResolvedIsShorter(p[..|p| - 1]); }
  }

  lemma LastName(x: FsPath, y: FsPath, n: Name)
    ensures x + [n] == y + [n] <==> x == y
  {
    assert (x + [n])[..|x|] == x && (y + [n])[..|y|] == y;
  }

  lemma LastResolved(p: FsPath)
    requires p != [] && '/' !in p[|p| - 1]
    ensures var before, n := Resolved(p[..|p| - 1]), p[|p| - 1];
            if before.None? then Resolved(p).None?
            else if NormalName(n) then Resolved(p) == Some(before.value + [n])
            else Resolved(p).Some? ==> |Resolved(p).value| <= |before.value|
  {}

  lemma {:induction false} NormalNamesResolve(p: FsPath)
    requires forall n :: n in p ==> '/' !in n
    ensures Resolved(p) == Some(p) <==> forall n :: n in p ==> NormalName(n)
    decreases |p|
  {
    if p != [] {
      var before, last := p[..|p| - 1], p[|p| - 1];
      NormalNamesResolve(before);
      ResolvedIsShorter(before);
      assert p == before + [last];
      assert forall n :: n in p <==> n in before || n == last;
      if Resolved(before).Some? { LastName(Resolved(before).value, before, last); }
      assert last in p;
      hide NormalName;
      LastResolved(p);
    }
  }

  // The paths a restore accepts are those that lead where they say: not the root, not
  // into the reserved directory, and nowhere else by following "." and "..".
  lemma CheckedExactly(p: FsPath)
    requires forall n :: n in p ==> '/' !in n
    ensures Checked(p) <==> p != [] && p[0] != JOURNAL_DIR && Resolved(p) == Some(p)
  {
    NormalNamesResolve(p);
  }

  // q is a proper ancestor of p below the root.
  ghost predicate Above(q: FsPath, p: FsPath) {
    q != [] && q < p
  }

  // ---------------- validation ----------------

  ghost predicate EntryFits(t: Tree, entries: Payload, i: nat)
    requires i < |entries|
  {
    var p := entries[i].path;
    && Checked(p)
    && (forall m :: 0 <= m < i ==> entries[m].path != p)
    && (forall q :: Above(q, p) && q in t ==> t[q] == Dir)
    && (p in t ==> t[p].File?)
  }

  ghost predicate Acceptable(t: Tree, entries: Payload) {
    forall i :: 0 <= i < |entries| ==> EntryFits(t, entries, i)
  }

  function Previous(t: Tree, p: FsPath): Option<Bytes> {
    if p in t && t[p].File? then Some(t[p].content) else None
  }

  // Directory d will have to be made for one of the first n entries.
  ghost predicate Needed(t: Tree, entries: Payload, n: nat, d: FsPath)
    requires n <= |entries|
  {
    d !in t && exists i :: 0 <= i < n && Above(d, entries[i].path)
  }

  ghost predicate Records(t: Tree, entries: Payload, j: Undo) {
    && |j.files| == |entries|
    && (forall i :: 0 <= i < |entries| ==> j.files[i] == (entries[i].path, Previous(t, entries[i].path)))
    && (forall d :: d in j.createdDirs <==> Needed(t, entries, |entries|, d))
  }

  // ---------------- the write loop ----------------

  function PutAll(t: Tree, entries: Payload): Option<Tree>
    requires forall e :: e in entries ==> e.path != []
    decreases |entries|
  {
    if entries == [] then Some(t)
    else
      var e := entries[|entries| - 1];
      var t1 := PutAll(t, entries[..|entries| - 1]);
      if t1.None? then None else PutFile(t1.value, e.path, e.content)
  }

  // Where the writing of one more entry can be cut off: some parents made, or the file
  // there with whatever content.
  ghost predicate Torn(t: Tree, e: PayloadEntry, t': Tree)
    requires e.path != []
  {
    t' == t
    || (exists m :: 0 <= m < |e.path| && MkDirs(t, e.path[..m]) == (t', true))
    || (exists content :: PutFile(t, e.path, content) == Some(t'))
  }

  // A tree the write loop can leave behind: k entries written, the next one torn.
  ghost predicate Interrupted(t: Tree, entries: Payload, t': Tree)
    requires forall e :: e in entries ==> e.path != []
  {
    exists k :: 0 <= k <= |entries| && CutAt(t, entries, k, t')
  }

  ghost predicate CutAt(t: Tree, entries: Payload, k: nat, t': Tree)
    requires k <= |entries| && forall e :: e in entries ==> e.path != []
  {
    var done := PutAll(t, entries[..k]);
    done.Some? && (t' == done.value || (k < |entries| && Torn(done.value, entries[k], t')))
  }

  // ---------------- undoing ----------------

  function UndoFile(t: Tree, p: FsPath, previous: Option<Bytes>): Option<Tree>
    requires p != []
  {
    match previous
    case Some(content) => PutFile(t, p, content)
    case None => if p !in t then Some(t) else if t[p].File? then Some(t - {p}) else None
  }

  // Last file first.
  function UndoFiles(t: Tree, files: seq<(FsPath, Option<Bytes>)>): Option<Tree>
    requires forall f :: f in files ==> f.0 != []
    decreases |files|
  {
    if files == [] then Some(t)
    else
      var (p, previous) := files[|files| - 1];
      var t1 := UndoFile(t, p, previous);
      if t1.None? then None else UndoFiles(t1.value, files[..|files| - 1])
  }

  ghost predicate HasChild(t: Tree, d: FsPath) {
    exists p :: p in t && p != [] && Parent(p) == d
  }

  // remove_directory_if_empty over a list
  ghost function UndoDirs(t: Tree, dirs: seq<FsPath>): Option<Tree>
    decreases |dirs|
  {
    if dirs == [] then Some(t)
    else
      var d := dirs[0];
      if d in t && t[d].File? then None
      else UndoDirs(if d in t && !HasChild(t, d) then t - {d} else t, dirs[1..])
  }

  // The same directories, deepest first.
  ghost predicate DeepestFirst(dirs: seq<FsPath>, sorted: seq<FsPath>) {
    (forall d :: d in sorted <==> d in dirs) && forall i, k :: 0 <= i < k < |sorted| ==> |sorted[i]| >= |sorted[k]|
  }

  ghost function UndoAll(t: Tree, j: Undo, sorted: seq<FsPath>): Option<Tree>
    requires forall f :: f in j.files ==> f.0 != []
  {
    var t1 := UndoFiles(t, j.files);
    if t1.None? then None else UndoDirs(t1.value, sorted)
  }

  // ---------------- trees between the prior one and the restored one ----------------

  ghost predicate IsFilePath(j: Undo, p: FsPath) {
    exists f <- j.files :: f.0 == p
  }

  // t differs from the prior tree t0 only where the journal says: journaled files have
  // any content or are gone, new files and made directories may be there.
  ghost predicate Between(t0: Tree, j: Undo, t: Tree) {
    && Wf(t)
    && (forall p :: p in t0 ==> p in t && if IsFilePath(j, p) then t[p].File? else t[p] == t0[p])
    && (forall p :: p in t && p !in t0 ==>
          if IsFilePath(j, p) then t[p].File? else t[p] == Dir && p in j.createdDirs)
  }

  // ---------------- the write loop stays between ----------------

  ghost predicate Setting(t0: Tree, entries: Payload, j: Undo) {
    Wf(t0) && [] in t0 && Acceptable(t0, entries) && Records(t0, entries, j)
  }

  lemma FilePaths(t0: Tree, entries: Payload, j: Undo, p: FsPath)
    requires Setting(t0, entries, j)
    ensures IsFilePath(j, p) <==> exists i :: 0 <= i < |entries| && entries[i].path == p
    ensures IsFilePath(j, p) ==> p != [] && (p in t0 ==> t0[p].File?)
  {
    if IsFilePath(j, p) {
      var f :| f in j.files && f.0 == p;
      var i :| 0 <= i < |j.files| && j.files[i] == f;
      assert EntryFits(t0, entries, i);
    }
    if i :| 0 <= i < |entries| && entries[i].path == p {
      assert j.files[i] in j.files;
    }
  }

  lemma PriorIsBetween(t0: Tree, entries: Payload, j: Undo)
    requires Setting(t0, entries, j)
    ensures Between(t0, j, t0)
  {
    forall p | p in t0 ensures IsFilePath(j, p) ==> t0[p].File? { FilePaths(t0, entries, j, p); }
  }

  // The first entry that an earlier entry's file blocks, where the write loop stops.
  ghost predicate Unblocked(entries: Payload, n: nat)
    requires n <= |entries|
  {
    forall m, i :: 0 <= m < i < n ==> !Above(entries[m].path, entries[i].path)
  }

  // No entry the loop can reach has a later entry for an ancestor.
  ghost predicate Orderly(entries: Payload) {
    forall i, k :: 0 <= i < k < |entries| && Unblocked(entries, i + 1) ==> !Above(entries[k].path, entries[i].path)
  }

  lemma PathsAreNonempty(t0: Tree, entries: Payload)
    requires Acceptable(t0, entries)
    ensures forall e :: e in entries ==> e.path != []
  {
    forall e | e in entries ensures e.path != [] {
      var i :| 0 <= i < |entries| && entries[i] == e;
      assert EntryFits(t0, entries, i);
    }
  }

  // After k entries: between, and the k files are there.
  ghost predicate Written(t0: Tree, entries: Payload, j: Undo, k: nat, t: Tree)
    requires k <= |entries|
  {
    Between(t0, j, t) && [] in t && forall m :: 0 <= m < k ==>
      entries[m].path in t && t[entries[m].path] == File(entries[m].content)
  }

  // A directory made for entry k is a recorded one and no entry's own path.
  lemma MadeDirs(t0: Tree, entries: Payload, j: Undo, k: nat, t: Tree, q: FsPath)
    requires Setting(t0, entries, j) && k < |entries| && Orderly(entries) && Unblocked(entries, k + 1)
    requires Written(t0, entries, j, k, t) && q !in t && Above(q, entries[k].path)
    ensures q !in t0 && q in j.createdDirs && !IsFilePath(j, q)
  {
    assert Needed(t0, entries, |entries|, q);
    FilePaths(t0, entries, j, q);
    assert forall i :: 0 <= i <= k ==> entries[i].path != q;
  }

  lemma WriteOne(t0: Tree, entries: Payload, j: Undo, k: nat, t: Tree, content: Bytes)
    requires Setting(t0, entries, j) && k < |entries| && Orderly(entries) && Unblocked(entries, k + 1)
    requires Written(t0, entries, j, k, t) && entries[k].path != []
    requires PutFile(t, entries[k].path, content).Some?
    ensures var t1 := PutFile(t, entries[k].path, content).value;
            Written(t0, entries, j, k, t1) && entries[k].path in t1 && t1[entries[k].path] == File(content)
  {
    var p := entries[k].path;
    PutFileShape(t, p, content);
    var t1 := PutFile(t, p, content).value;
    assert EntryFits(t0, entries, k);
    FilePaths(t0, entries, j, p);
    forall q | q in t1 && q !in t0
      ensures if IsFilePath(j, q) then t1[q].File? else t1[q] == Dir && q in j.createdDirs {
      if q !in t && q != p { MadeDirs(t0, entries, j, k, t, q); }
    }
  }

  // A blocked entry cannot be written, and trying makes no directory.
  lemma BlockedChangesNothing(t: Tree, r: FsPath, p: FsPath, m: nat)
    requires Wf(t) && [] in t && r in t && t[r].File? && Above(r, p) && m < |p|
    ensures MkDirs(t, p[..m]).1 ==> MkDirs(t, p[..m]).0 == t
    ensures forall content :: PutFile(t, p, content).None?
  {
    MkDirsShape(t, p[..m]);
    assert p[..|r|] == r;
    assert |r| <= m ==> p[..m][..|r|] == r;
    if MkDirs(t, p[..m]).1 {
      assert r[..m] == p[..m];
      AncestorsAreDirs(t, r, m);
    }
    forall content ensures PutFile(t, p, content).None? { PutFileShape(t, p, content); }
  }

  lemma {:induction false} WrittenSoFar(t0: Tree, entries: Payload, j: Undo, k: nat)
    requires Setting(t0, entries, j) && Orderly(entries) && k <= |entries|
    requires forall e :: e in entries ==> e.path != []
    requires PutAll(t0, entries[..k]).Some?
    ensures Written(t0, entries, j, k, PutAll(t0, entries[..k]).value) && Unblocked(entries, k)
    decreases k
  {
    if k == 0 {
      PriorIsBetween(t0, entries, j);
    } else {
      assert entries[..k][..k - 1] == entries[..k - 1];
      assert entries[..k][k - 1] == entries[k - 1];
      WrittenSoFar(t0, entries, j, k - 1);
      var t := PutAll(t0, entries[..k - 1]).value;
      var p := entries[k - 1].path;
      if m :| 0 <= m < k - 1 && Above(entries[m].path, p) {
        BlockedChangesNothing(t, entries[m].path, p, 0);
      }
      WriteOne(t0, entries, j, k - 1, t, entries[k - 1].content);
    }
  }

  // ---------------- which payloads can be written at all ----------------

  // No entry lies below another.
  ghost predicate Separate(entries: Payload) {
    forall m, i :: 0 <= m < |entries| && 0 <= i < |entries| ==> !Above(entries[m].path, entries[i].path)
  }

  predicate IsDir(t: Tree, p: FsPath) {
    p in t && t[p].Dir?
  }

  predicate IsFile(t: Tree, p: FsPath) {
    p in t && t[p].File?
  }

  // One of the first k entries has path p for its file, or below it.
  ghost predicate Explained(entries: Payload, k: nat, t: Tree, p: FsPath)
    requires k <= |entries|
  {
    exists m :: 0 <= m < k && if IsFile(t, p) then entries[m].path == p else Above(p, entries[m].path)
  }

  // What k entries leave of t: the kinds of what was there, their files, and directories
  // above these.
  ghost predicate Filled(t: Tree, entries: Payload, k: nat, t': Tree)
    requires k <= |entries|
  {
    && Wf(t') && [] in t'
    && (forall q :: q in t ==> q in t' && (IsDir(t', q) <==> IsDir(t, q)))
    && (forall m :: 0 <= m < k ==> IsFile(t', entries[m].path))
    && (forall m, q :: 0 <= m < k && Above(q, entries[m].path) ==> IsDir(t', q))
    && (forall q :: q in t' && q !in t ==> Explained(entries, k, t', q))
  }

  // Whether a file can be put at p, from the kinds of what is there.
  ghost predicate Room(t: Tree, p: FsPath) {
    (forall q :: Above(q, p) && q in t ==> t[q].Dir?) && (p in t ==> t[p].File?)
  }

  lemma RoomIsEnough(t: Tree, p: FsPath, content: Bytes)
    requires Wf(t) && [] in t && p != []
    ensures PutFile(t, p, content).Some? <==> Room(t, p)
  {
    PutFileShape(t, p, content);
    hide PutFile;
    if Room(t, p) {
      forall k | 0 <= k < |p| && p[..k] in t ensures t[p[..k]] == Dir { if k > 0 { assert Above(p[..k], p); } }
    } else if forall k :: 0 <= k < |p| && p[..k] in t ==> t[p[..k]] == Dir {
      forall q | Above(q, p) && q in t ensures t[q].Dir? { assert p[..|q|] == q; }
    }
  }

  // One more entry can be written exactly when it is neither below nor above another.
  lemma OneMoreFits(t: Tree, entries: Payload, k: nat, t': Tree)
    requires Acceptable(t, entries) && k < |entries| && Filled(t, entries, k, t')
    ensures Room(t', entries[k].path) <==>
              forall m :: 0 <= m < k ==>
                !Above(entries[m].path, entries[k].path) && !Above(entries[k].path, entries[m].path)
  {
    var p := entries[k].path;
    assert EntryFits(t, entries, k);
    hide Wf, Above;
    if Room(t', p) {
      forall m | 0 <= m < k ensures !Above(entries[m].path, p) && !Above(p, entries[m].path) {
        assert IsFile(t', entries[m].path);
        assert Above(p, entries[m].path) ==> IsDir(t', p);
      }
    } else if q :| Above(q, p) && q in t' && !t'[q].Dir? {
      assert q !in t && Explained(entries, k, t', q);
    } else {
      assert p in t' && p !in t && Explained(entries, k, t', p);
    }
  }

  // t1 is t with a file put at p.
  ghost predicate PutAt(t: Tree, p: FsPath, t1: Tree) {
    && Wf(t1) && [] in t1 && IsFile(t1, p) && !IsDir(t, p)
    && (forall q :: q in t && q != p ==> q in t1 && t1[q] == t[q])
    && (forall q :: q in t1 && q !in t && q != p ==> IsDir(t1, q) && Above(q, p))
    && (forall q :: Above(q, p) ==> IsDir(t1, q))
  }

  lemma PutsAt(t: Tree, p: FsPath, content: Bytes)
    requires Wf(t) && [] in t && p != [] && PutFile(t, p, content).Some?
    ensures PutAt(t, p, PutFile(t, p, content).value)
  {
    PutFileShape(t, p, content);
    ParentsAreMade(t, p, content);
    hide PutFile, Wf;
  }

  lemma OneMoreFilled(t: Tree, entries: Payload, k: nat, t': Tree)
    requires k < |entries| && Filled(t, entries, k, t') && Wf(t') && [] in t'
    requires entries[k].path != [] && PutFile(t', entries[k].path, entries[k].content).Some?
    ensures Filled(t, entries, k + 1, PutFile(t', entries[k].path, entries[k].content).value)
  {
    hide *;
    PutsAt(t', entries[k].path, entries[k].content);
    FilledByPut(t, entries, k, t', PutFile(t', entries[k].path, entries[k].content).value);
  }

  lemma FilledByPut(t: Tree, entries: Payload, k: nat, t': Tree, t1: Tree)
    requires k < |entries| && Filled(t, entries, k, t') && PutAt(t', entries[k].path, t1)
    ensures Filled(t, entries, k + 1, t1)
  {
    hide Wf, Above, Explained;
    forall q | q in t1 && q !in t ensures Explained(entries, k + 1, t1, q) { WhyThere(t, entries, k, t', t1, q); }
    forall m, q | 0 <= m < k + 1 && Above(q, entries[m].path) ensures IsDir(t1, q) {
      StillAbove(t, entries, k, t', t1, m, q);
    }
  }

  lemma StillAbove(t: Tree, entries: Payload, k: nat, t': Tree, t1: Tree, m: nat, q: FsPath)
    requires k < |entries| && Filled(t, entries, k, t') && PutAt(t', entries[k].path, t1)
    requires m < k + 1 && Above(q, entries[m].path)
    ensures IsDir(t1, q)
  {
    hide Wf, Above, Explained;
    if m < k { assert IsDir(t', q); }
  }

  lemma WhyThere(t: Tree, entries: Payload, k: nat, t': Tree, t1: Tree, q: FsPath)
    requires k < |entries| && Filled(t, entries, k, t') && PutAt(t', entries[k].path, t1) && q in t1 && q !in t
    ensures Explained(entries, k + 1, t1, q)
  {
    hide Wf, Above;
    if q in t' && q != entries[k].path {
      assert Explained(entries, k, t', q);
      var m :| 0 <= m < k && if IsFile(t', q) then entries[m].path == q else Above(q, entries[m].path);
    }
  }

  lemma ParentsAreMade(t: Tree, p: FsPath, content: Bytes)
    requires Wf(t) && [] in t && p != [] && PutFile(t, p, content).Some?
    ensures forall q :: Above(q, p) ==> q in PutFile(t, p, content).value && PutFile(t, p, content).value[q].Dir?
  {
    PutFileShape(t, p, content);
    var t1 := PutFile(t, p, content).value;
    forall q | Above(q, p) ensures q in t1 && t1[q].Dir? {
      AncestorsAreDirs(t1, p, |q|);
      assert p[..|q|] == q;
    }
  }

  lemma {:induction false} WritableSoFar(t: Tree, entries: Payload, k: nat)
    requires Wf(t) && [] in t && Acceptable(t, entries) && k <= |entries|
    requires forall e :: e in entries ==> e.path != []
    ensures PutAll(t, entries[..k]).Some? <==> Separate(entries[..k])
    ensures PutAll(t, entries[..k]).Some? ==> Filled(t, entries, k, PutAll(t, entries[..k]).value)
    decreases k
  {
    if k > 0 {
      assert entries[..k][..k - 1] == entries[..k - 1] && entries[..k][k - 1] == entries[k - 1];
      WritableSoFar(t, entries, k - 1);
      SeparateOneMore(entries, k);
      if PutAll(t, entries[..k - 1]).Some? {
        var t' := PutAll(t, entries[..k - 1]).value;
        assert Wf(t') && [] in t' && entries[k - 1] in entries;
        hide Filled, PutFile, Acceptable, Above, Room, Separate, Wf;
        OneMoreFits(t, entries, k - 1, t');
        RoomIsEnough(t', entries[k - 1].path, entries[k - 1].content);
        if PutAll(t, entries[..k]).Some? { OneMoreFilled(t, entries, k - 1, t'); }
      }
    }
  }

  lemma SeparateOneMore(entries: Payload, k: nat)
    requires 0 < k <= |entries|
    ensures Separate(entries[..k]) <==>
              Separate(entries[..k - 1])
              && forall m :: 0 <= m < k - 1 ==>
                   !Above(entries[m].path, entries[k - 1].path) && !Above(entries[k - 1].path, entries[m].path)
  {
    var now, before := entries[..k], entries[..k - 1];
    assert forall m :: 0 <= m < k - 1 ==> before[m] == now[m] && now[m] == entries[m];
    assert now[k - 1] == entries[k - 1];
  }

  // An accepted payload can be written exactly when no entry lies below another: the
  // validation looks at the tree that is there, not at the entries themselves.
  lemma WritableExactly(t: Tree, entries: Payload)
    requires Wf(t) && [] in t && Acceptable(t, entries)
    ensures forall e :: e in entries ==> e.path != []
    ensures PutAll(t, entries).Some? <==> Separate(entries)
  {
    PathsAreNonempty(t, entries);
    WritableSoFar(t, entries, |entries|);
    assert entries[..|entries|] == entries;
  }

  // Making recorded directories that are no entry's path keeps a tree between.
  lemma BetweenGrows(t0: Tree, j: Undo, t1: Tree, t: Tree)
    requires Between(t0, j, t1) && Wf(t) && forall q :: q in t1 ==> q in t && t[q] == t1[q]
    requires forall q :: q in t && q !in t1 ==> t[q] == Dir && q in j.createdDirs && !IsFilePath(j, q)
    ensures Between(t0, j, t)
  {
    hide Wf, IsFilePath;
  }

  lemma PrefixOfPrefix(q: FsPath, p: FsPath, m: nat)
    requires m < |p| && q <= p[..m]
    ensures q < p
  {}

  lemma TornParents(t0: Tree, entries: Payload, j: Undo, k: nat, t1: Tree, t: Tree, m: nat)
    requires Setting(t0, entries, j) && k < |entries| && Orderly(entries) && Unblocked(entries, k + 1)
    requires Written(t0, entries, j, k, t1) && m < |entries[k].path| && MkDirs(t1, entries[k].path[..m]) == (t, true)
    ensures Between(t0, j, t)
  {
    var p := entries[k].path;
    assert Between(t0, j, t1) && Wf(t1) && [] in t1;
    hide *;
    MkDirsShape(t1, p[..m]);
    forall q | q in t && q !in t1 ensures t[q] == Dir && q in j.createdDirs && !IsFilePath(j, q) {
      MadeParent(t0, entries, j, k, t1, q, m);
    }
    BetweenGrows(t0, j, t1, t);
  }

  lemma MadeParent(t0: Tree, entries: Payload, j: Undo, k: nat, t1: Tree, q: FsPath, m: nat)
    requires Setting(t0, entries, j) && k < |entries| && Orderly(entries) && Unblocked(entries, k + 1)
    requires Written(t0, entries, j, k, t1) && m < |entries[k].path|
    requires q !in t1 && q <= entries[k].path[..m] && q != []
    ensures q in j.createdDirs && !IsFilePath(j, q)
  {
    PrefixOfPrefix(q, entries[k].path, m);
    hide Setting, Orderly, Unblocked, Written, IsFilePath;
    MadeDirs(t0, entries, j, k, t1, q);
  }

  lemma TornBlocked(t: Tree, r: FsPath, e: PayloadEntry, t': Tree)
    requires Wf(t) && [] in t && r in t && t[r].File? && Above(r, e.path) && Torn(t, e, t')
    ensures t' == t
  {
    hide Wf, MkDirs, PutFile;
    forall m | 0 <= m < |e.path| ensures MkDirs(t, e.path[..m]).1 ==> MkDirs(t, e.path[..m]).0 == t {
      BlockedChangesNothing(t, r, e.path, m);
    }
    BlockedChangesNothing(t, r, e.path, 0);
  }

  lemma TornFile(t0: Tree, entries: Payload, j: Undo, k: nat, t1: Tree, content: Bytes)
    requires Setting(t0, entries, j) && k < |entries| && Orderly(entries) && Unblocked(entries, k + 1)
    requires Written(t0, entries, j, k, t1) && entries[k].path != [] && PutFile(t1, entries[k].path, content).Some?
    ensures Between(t0, j, PutFile(t1, entries[k].path, content).value)
  {
    hide Setting, Orderly, Unblocked, PutFile, Between;
    WriteOne(t0, entries, j, k, t1, content);
  }

  lemma TornUnblocked(t0: Tree, entries: Payload, j: Undo, k: nat, t1: Tree, t: Tree)
    requires Setting(t0, entries, j) && k < |entries| && Orderly(entries) && Unblocked(entries, k + 1)
    requires Written(t0, entries, j, k, t1) && entries[k].path != [] && Torn(t1, entries[k], t)
    ensures Between(t0, j, t)
  {
    var p := entries[k].path;
    assert Between(t0, j, t1);
    hide Setting, Orderly, Unblocked, MkDirs, PutFile, Between, Written;
    if content :| PutFile(t1, p, content) == Some(t) {
      TornFile(t0, entries, j, k, t1, content);
    } else if m :| 0 <= m < |p| && MkDirs(t1, p[..m]) == (t, true) {
      TornParents(t0, entries, j, k, t1, t, m);
    }
  }

  lemma TornIsBetween(t0: Tree, entries: Payload, j: Undo, k: nat, t1: Tree, t: Tree)
    requires Setting(t0, entries, j) && k < |entries| && Orderly(entries) && Unblocked(entries, k)
    requires Written(t0, entries, j, k, t1) && entries[k].path != [] && Torn(t1, entries[k], t)
    ensures Between(t0, j, t)
  {
    hide Setting, Orderly, Torn, Above, MkDirs, PutFile, IsFilePath;
    if r :| 0 <= r < k && Above(entries[r].path, entries[k].path) {
      hide Unblocked;
      TornBlocked(t1, entries[r].path, entries[k], t);
    } else {
      assert Unblocked(entries, k + 1);
      hide *;
      TornUnblocked(t0, entries, j, k, t1, t);
    }
  }

  // Every tree an interrupted write loop can leave lies between.
  lemma InterruptedIsBetween(t0: Tree, entries: Payload, j: Undo, t: Tree)
    requires Setting(t0, entries, j) && Orderly(entries)
    requires (forall e :: e in entries ==> e.path != []) && Interrupted(t0, entries, t)
    ensures Between(t0, j, t)
  {
    hide Setting, Orderly, Unblocked, Torn, PutAll, Between;
    var k :| 0 <= k <= |entries| && CutAt(t0, entries, k, t);
    WrittenSoFar(t0, entries, j, k);
    var t1 := PutAll(t0, entries[..k]).value;
    if t != t1 { TornIsBetween(t0, entries, j, k, t1, t); }
  }

  // ---------------- undoing from anywhere between ----------------

  // The first n journaled files may still differ from the prior tree; the rest are as
  // they were.
  ghost predicate Undone(t0: Tree, j: Undo, n: nat, t: Tree)
    requires n <= |j.files|
  {
    Between(t0, j, t) && forall i :: n <= i < |j.files| ==> SameAt(t0, t, j.files[i].0)
  }

  predicate SameAt(t0: Tree, t: Tree, p: FsPath) {
    if p in t0 then p in t && t[p] == t0[p] else p !in t
  }

  // Undoing one more file works, and leaves the others alone.
  lemma UndoOne(t0: Tree, entries: Payload, j: Undo, n: nat, t: Tree)
    requires Setting(t0, entries, j) && n < |j.files| && Undone(t0, j, n + 1, t)
    ensures j.files[n].0 != []
    ensures UndoFile(t, j.files[n].0, j.files[n].1).Some?
    ensures Undone(t0, j, n, UndoFile(t, j.files[n].0, j.files[n].1).value)
  {
    var (p, previous) := j.files[n];
    assert EntryFits(t0, entries, n) && j.files[n] in j.files;
    FilePaths(t0, entries, j, p);
    if p in t0 {
      assert previous == Some(t0[p].content);
      forall k | 0 <= k < |p| ensures p[..k] in t && t[p[..k]] == Dir {
        AncestorsAreDirs(t0, p, k);
        FilePaths(t0, entries, j, p[..k]);
      }
      PutFileShape(t, p, previous.value);
      var t1 := PutFile(t, p, previous.value).value;
      assert t1.Keys == t.Keys;
    }
  }

  lemma {:induction false} UndoFilesRestores(t0: Tree, entries: Payload, j: Undo, n: nat, t: Tree)
    requires Setting(t0, entries, j) && n <= |j.files| && Undone(t0, j, n, t)
    requires forall f :: f in j.files ==> f.0 != []
    ensures UndoFiles(t, j.files[..n]).Some? && Undone(t0, j, 0, UndoFiles(t, j.files[..n]).value)
    decreases n
  {
    hide Setting, Undone, UndoFile;
    if n > 0 {
      UndoOne(t0, entries, j, n - 1, t);
      assert j.files[..n][..n - 1] == j.files[..n - 1];
      UndoFilesRestores(t0, entries, j, n - 1, UndoFile(t, j.files[n - 1].0, j.files[n - 1].1).value);
    }
  }

  // Only directories of the list are left over.
  ghost predicate LeftOver(t0: Tree, dirs: seq<FsPath>, t: Tree) {
    Wf(t) && (forall p :: p in t0 ==> p in t && t[p] == t0[p]) && forall p :: p in t && p !in t0 ==>
      t[p] == Dir && p in dirs
  }

  lemma {:induction false} UndoDirsRestores(t0: Tree, dirs: seq<FsPath>, t: Tree)
    requires Wf(t0) && LeftOver(t0, dirs, t)
    requires forall d :: d in dirs ==> d !in t0 && d != []
    requires forall i, k :: 0 <= i < k < |dirs| ==> |dirs[i]| >= |dirs[k]|
    ensures UndoDirs(t, dirs) == Some(t0)
    decreases |dirs|
  {
    if dirs == [] {
      assert t.Keys == t0.Keys;
      assert t == t0;
    } else {
      var d := dirs[0];
      assert d in dirs;
      if d in t {
        assert !HasChild(t, d) by { DeepestIsEmpty(t0, dirs, t); }
        var t1 := t - {d};
        assert Wf(t1) by {
          forall p | p in t1 && p != [] ensures Parent(p) in t1 && t1[Parent(p)] == Dir { assert Parent(p) != d; }
        }
        UndoDirsRestores(t0, dirs[1..], t1);
      } else {
        UndoDirsRestores(t0, dirs[1..], t);
      }
    }
  }

  lemma DeepestIsEmpty(t0: Tree, dirs: seq<FsPath>, t: Tree)
    requires Wf(t0) && LeftOver(t0, dirs, t) && dirs != [] && dirs[0] !in t0
    requires forall i, k :: 0 <= i < k < |dirs| ==> |dirs[i]| >= |dirs[k]|
    ensures !HasChild(t, dirs[0])
  {
    forall p | p in t && p != [] ensures Parent(p) != dirs[0] {
      if p !in t0 {
        var k :| 0 <= k < |dirs| && dirs[k] == p;
        assert |dirs[0]| >= |p|;
      } else {
        assert Parent(p) in t0;
      }
    }
  }

  lemma UndoneFilePath(t0: Tree, j: Undo, t: Tree, p: FsPath)
    requires Undone(t0, j, 0, t) && IsFilePath(j, p)
    ensures SameAt(t0, t, p)
  {
    var f :| f in j.files && f.0 == p;
    var i :| 0 <= i < |j.files| && j.files[i] == f;
  }

  // From every tree between, undoing gives exactly the prior tree.
  lemma UndoRestoresPrior(t0: Tree, entries: Payload, j: Undo, t: Tree, sorted: seq<FsPath>)
    requires Setting(t0, entries, j) && Between(t0, j, t) && DeepestFirst(j.createdDirs, sorted)
    ensures forall f :: f in j.files ==> f.0 != []
    ensures UndoAll(t, j, sorted) == Some(t0)
  {
    forall f | f in j.files ensures f.0 != [] { FilePaths(t0, entries, j, f.0); }
    UndoFilesRestores(t0, entries, j, |j.files|, t);
    assert j.files[..|j.files|] == j.files;
    var t1 := UndoFiles(t, j.files).value;
    forall p | p in t1 && p !in t0 ensures t1[p] == Dir && p in sorted {
      if IsFilePath(j, p) { UndoneFilePath(t0, j, t1, p); }
    }
    forall p | p in t0 ensures p in t1 && t1[p] == t0[p] {
      if IsFilePath(j, p) { UndoneFilePath(t0, j, t1, p); }
    }
    UndoDirsRestores(t0, sorted, t1);
  }

  // ---------------- and exactly when ----------------

  // Entry i written, its ancestor at entry k is a directory that undoing cannot remove
  // as the file it expects.
  lemma {:induction false} UndoGetsStuck(t: Tree, files: seq<(FsPath, Option<Bytes>)>, k: nat, i: nat)
    requires Wf(t) && [] in t && i < k < |files| && Above(files[k].0, files[i].0) && files[k].1.None?
    requires forall f :: f in files ==> f.0 != []
    requires forall a, b :: 0 <= a < b < |files| ==> files[a].0 != files[b].0
    requires files[i].0 in t && t[files[i].0].File?
    ensures UndoFiles(t, files).None?
    decreases |files|
  {
    var n := |files| - 1;
    var (p, previous) := files[n];
    AncestorsAreDirs(t, files[i].0, |files[k].0|);
    assert files[i].0[..|files[k].0|] == files[k].0;
    if n > k && UndoFile(t, p, previous).Some? {
      var t1 := UndoFile(t, p, previous).value;
      if previous.Some? { PutFileShape(t, p, previous.value); }
      assert Wf(t1) by {
        if previous.None? && p in t {
          forall q | q in t1 && q != [] ensures Parent(q) in t1 && t1[Parent(q)] == Dir { assert t[Parent(q)] == Dir; }
        }
      }
      UndoGetsStuck(t1, files[..n], k, i);
    }
  }

  ghost predicate IsPathOf(entries: Payload, n: nat, q: FsPath)
    requires n <= |entries|
  {
    exists a :: 0 <= a < n && entries[a].path == q
  }

  // What the first n writes have made of t0.
  ghost predicate Looped(t0: Tree, entries: Payload, n: nat, t: Tree)
    requires n <= |entries|
  {
    && Wf(t) && [] in t && (forall q :: q in t0 ==> q in t && (t[q].File? <==> t0[q].File?))
    && (forall q :: q in t && q !in t0 && t[q].File? ==> IsPathOf(entries, n, q))
    && (forall q :: q in t && q !in t0 && t[q].Dir? ==> exists a :: 0 <= a < n && Above(q, entries[a].path))
    && (forall a :: 0 <= a < n ==> entries[a].path in t && t[entries[a].path] == File(entries[a].content))
  }

  lemma LoopOnce(t0: Tree, entries: Payload, n: nat, t: Tree)
    requires Wf(t0) && [] in t0 && Acceptable(t0, entries) && n < |entries| && Unblocked(entries, n + 1)
    requires forall a :: 0 <= a < n ==> !Above(entries[n].path, entries[a].path)
    requires entries[n].path != [] && Looped(t0, entries, n, t)
    ensures PutFile(t, entries[n].path, entries[n].content).Some?
    ensures Looped(t0, entries, n + 1, PutFile(t, entries[n].path, entries[n].content).value)
  {
    var p := entries[n].path;
    assert EntryFits(t0, entries, n);
    PutFileShape(t, p, entries[n].content);
    forall k | 0 <= k < |p| && p[..k] in t ensures t[p[..k]] == Dir {
      assert k > 0 ==> Above(p[..k], p);
    }
    assert forall a :: 0 <= a < n ==> entries[a].path != p;
    var t1 := PutFile(t, p, entries[n].content).value;
    hide EntryFits, Acceptable, Wf, PutFile, Unblocked;
    LoopedPaths(t0, entries, n, t, t1);
  }

  lemma LoopedPaths(t0: Tree, entries: Payload, n: nat, t: Tree, t1: Tree)
    requires n < |entries| && Looped(t0, entries, n, t) && Wf(t1) && entries[n].path in t1
    requires var p := entries[n].path;
             && t1[p] == File(entries[n].content) && p != [] && (p in t0 ==> t0[p].File?)
             && (forall q :: q in t && q != p ==> q in t1 && t1[q] == t[q])
             && (forall q :: q in t1 && q !in t && q != p ==> t1[q] == Dir && q < p && q != [])
             && forall a :: 0 <= a < n ==> entries[a].path != p
    ensures Looped(t0, entries, n + 1, t1)
  {
    var p := entries[n].path;
    hide Wf;
    forall q | q in t1 && q !in t0 && t1[q].File? ensures IsPathOf(entries, n + 1, q) {
      if q != p { assert IsPathOf(entries, n, q); }
    }
    forall q | q in t1 && q !in t0 && t1[q].Dir? ensures exists a :: 0 <= a < n + 1 && Above(q, entries[a].path) {
      if q !in t { assert Above(q, entries[n].path); }
    }
  }

  // With no earlier trouble the write loop does get through its first n entries.
  lemma {:induction false} LoopReaches(t0: Tree, entries: Payload, n: nat)
    requires Wf(t0) && [] in t0 && Acceptable(t0, entries) && n <= |entries| && Unblocked(entries, n)
    requires forall a, b :: 0 <= a < b < n ==> !Above(entries[b].path, entries[a].path)
    requires forall e :: e in entries ==> e.path != []
    ensures PutAll(t0, entries[..n]).Some? && Looped(t0, entries, n, PutAll(t0, entries[..n]).value)
    decreases n
  {
    hide Acceptable;
    if n > 0 {
      LoopReaches(t0, entries, n - 1);
      assert entries[..n][..n - 1] == entries[..n - 1] && entries[..n][n - 1] == entries[n - 1];
      hide Looped;
      LoopOnce(t0, entries, n - 1, PutAll(t0, entries[..n - 1]).value);
    }
  }

  lemma {:induction false} FirstOffender(entries: Payload, i: nat, k: nat) returns (i': nat, k': nat)
    requires i < k < |entries| && Above(entries[k].path, entries[i].path) && Unblocked(entries, i + 1)
    ensures i' < k' < |entries| && Above(entries[k'].path, entries[i'].path) && i' <= i
    ensures forall a, b :: 0 <= a < i' && a < b < |entries| ==> !Above(entries[b].path, entries[a].path)
    decreases i
  {
    if a, b :| 0 <= a < i && a < b < |entries| && Above(entries[b].path, entries[a].path) {
      i', k' := FirstOffender(entries, a, b);
    } else {
      i', k' := i, k;
    }
  }

  // Every way of interrupting the restore of an accepted payload can be undone,
  // exactly when no entry the loop can reach has a later entry for an ancestor.
  lemma UndoableExactlyWhenOrderly(t0: Tree, entries: Payload, j: Undo, sorted: seq<FsPath>)
    requires Setting(t0, entries, j) && DeepestFirst(j.createdDirs, sorted)
    ensures forall e :: e in entries ==> e.path != []
    ensures forall f :: f in j.files ==> f.0 != []
    ensures Orderly(entries) <==> forall t :: Interrupted(t0, entries, t) ==> UndoAll(t, j, sorted) == Some(t0)
  {
    PathsAreNonempty(t0, entries);
    forall f | f in j.files ensures f.0 != [] { FilePaths(t0, entries, j, f.0); }
    if Orderly(entries) {
      forall t | Interrupted(t0, entries, t) ensures UndoAll(t, j, sorted) == Some(t0) {
        InterruptedIsBetween(t0, entries, j, t);
        UndoRestoresPrior(t0, entries, j, t, sorted);
      }
    } else {
      var t := DisorderlyCut(t0, entries, j);
      assert Interrupted(t0, entries, t) && UndoAll(t, j, sorted).None?;
    }
  }

  // An entry that lies above an earlier one is not in the prior tree.
  lemma AncestorEntryIsNew(t0: Tree, entries: Payload, j: Undo, i: nat, k: nat)
    requires Setting(t0, entries, j) && i < k < |entries| && Above(entries[k].path, entries[i].path)
    ensures j.files[k].1.None?
  {
    assert EntryFits(t0, entries, i) && EntryFits(t0, entries, k);
  }

  lemma FilesAreDistinct(t0: Tree, entries: Payload, j: Undo)
    requires Setting(t0, entries, j)
    ensures |j.files| == |entries| && forall i :: 0 <= i < |entries| ==> j.files[i].0 == entries[i].path
    ensures forall a, b :: 0 <= a < b < |j.files| ==> j.files[a].0 != j.files[b].0
  {
    forall a, b | 0 <= a < b < |j.files| ensures j.files[a].0 != j.files[b].0 { assert EntryFits(t0, entries, b); }
  }

  lemma LoopedFile(t0: Tree, entries: Payload, i: nat, t: Tree)
    requires i < |entries| && Looped(t0, entries, i + 1, t)
    ensures Wf(t) && [] in t && entries[i].path in t && t[entries[i].path].File?
  {}

  lemma CompleteCut(t0: Tree, entries: Payload, n: nat)
    requires n <= |entries| && (forall e :: e in entries ==> e.path != []) && PutAll(t0, entries[..n]).Some?
    ensures Interrupted(t0, entries, PutAll(t0, entries[..n]).value)
  {
    assert CutAt(t0, entries, n, PutAll(t0, entries[..n]).value);
  }

  lemma DisorderlyCut(t0: Tree, entries: Payload, j: Undo) returns (t: Tree)
    requires Setting(t0, entries, j) && !Orderly(entries)
    requires (forall e :: e in entries ==> e.path != []) && forall f :: f in j.files ==> f.0 != []
    ensures Interrupted(t0, entries, t) && UndoFiles(t, j.files).None?
  {
    var i0, k0 :| 0 <= i0 < k0 < |entries| && Unblocked(entries, i0 + 1) && Above(entries[k0].path, entries[i0].path);
    var i, k := FirstOffender(entries, i0, k0);
    FilesAreDistinct(t0, entries, j);
    AncestorEntryIsNew(t0, entries, j, i, k);
    assert Wf(t0) && [] in t0 && Acceptable(t0, entries) && Unblocked(entries, i + 1);
    hide Setting, Acceptable, EntryFits, Records, Orderly, Unblocked, Above;
    LoopReaches(t0, entries, i + 1);
    t := PutAll(t0, entries[..i + 1]).value;
    LoopedFile(t0, entries, i, t);
    hide PutAll, Looped, Interrupted, UndoFiles;
    CompleteCut(t0, entries, i + 1);
    UndoGetsStuck(t, j.files, k, i);
  }
}
