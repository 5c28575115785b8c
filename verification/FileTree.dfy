// File trees below a restore root and the file operations a restore uses
// (std::fs as FilesystemProvider in src/providers.rs calls it).
module FileTree {
  import opened Wrappers
  import opened ByteStrings

  type Name = string
  type FsPath = seq<Name>

  datatype Entry = Dir | File(content: Bytes)

  // Paths are relative to the root; the root itself is the empty path.
  type Tree = map<FsPath, Entry>

  function Parent(p: FsPath): FsPath
    requires p != []
  {
    p[..|p| - 1]
  }

  // The root, when it exists, is a directory, and whatever exists lies in a directory.
  ghost predicate Wf(t: Tree) {
    ([] in t ==> t[[]] == Dir) && forall p {:trigger Parent(p)} :: p in t && p != [] ==>
      Parent(p) in t && t[Parent(p)] == Dir
  }

  lemma {:induction false} AncestorsAreDirs(t: Tree, p: FsPath, k: nat)
    requires Wf(t) && p in t && k < |p|
    ensures p[..k] in t && t[p[..k]] == Dir
    decreases |p|
  {
    assert Parent(p) in t;
    if k < |p| - 1 {
      AncestorsAreDirs(t, Parent(p), k);
      assert Parent(p)[..k] == p[..k];
    }
  }

  // create_dir_all: existing directories are kept, missing ones are made from the top
  // down, and a file in the way is an error.
  function MkDirs(t: Tree, p: FsPath): (r: (Tree, bool)) {
    if p in t then (t, t[p].Dir?)
    else if p == [] then (t[p := Dir], true)
    else
      var (t1, ok) := MkDirs(t, Parent(p));
      if ok then (t1[p := Dir], true) else (t1, false)
  }

  // Create the parent directories of path, then create or overwrite the file.
  function PutFile(t: Tree, path: FsPath, content: Bytes): Option<Tree>
    requires path != []
  {
    var (t1, ok) := MkDirs(t, Parent(path));
    if !ok || (path in t1 && t1[path].Dir?) then None else Some(t1[path := File(content)])
  }

  // The directories made are exactly the missing prefixes of p, and only if no file is
  // in the way.
  lemma {:induction false} MkDirsShape(t: Tree, p: FsPath)
    requires Wf(t) && [] in t
    ensures var (t1, ok) := MkDirs(t, p);
            && Wf(t1) && (forall q :: q in t ==> q in t1 && t1[q] == t[q])
            && (forall q :: q in t1 && q !in t ==> t1[q] == Dir && q <= p && q != [])
            && (ok ==> forall k :: 0 <= k <= |p| ==> p[..k] in t1 && t1[p[..k]] == Dir)
            && (ok <==> forall k :: 0 <= k <= |p| && p[..k] in t ==> t[p[..k]] == Dir)
    decreases |p|
  {
    assert p[..|p|] == p;
    if p in t {
      forall k | 0 <= k <= |p| ensures t[p].Dir? ==> p[..k] in t && t[p[..k]] == Dir {
        if k < |p| { AncestorsAreDirs(t, p, k); }
      }
    } else if p != [] {
      MkDirsShape(t, Parent(p));
      var (t1, ok) := MkDirs(t, Parent(p));
      assert forall k :: 0 <= k < |p| ==> Parent(p)[..k] == p[..k];
      assert Parent(p)[..|p| - 1] == Parent(p);
      if ok {
        assert p !in t1 by {
          assert !(p <= Parent(p));
        }
      } else {
        var k :| 0 <= k <= |p| - 1 && Parent(p)[..k] in t && t[Parent(p)[..k]] != Dir;
        assert p[..k] in t;
      }
    }
  }

  // Writing a file succeeds exactly when nothing but directories lies above it and no
  // directory in its place; it changes the file and makes the missing parents.
  lemma PutFileShape(t: Tree, p: FsPath, content: Bytes)
    requires Wf(t) && [] in t && p != []
    ensures PutFile(t, p, content).Some? <==>
              (forall k :: 0 <= k < |p| && p[..k] in t ==> t[p[..k]] == Dir) && (p in t ==> t[p].File?)
    ensures PutFile(t, p, content).Some? ==>
              var t1 := PutFile(t, p, content).value;
              && Wf(t1) && p in t1 && t1[p] == File(content)
              && (forall q :: q in t && q != p ==> q in t1 && t1[q] == t[q])
              && (forall q :: q in t1 && q !in t && q != p ==> t1[q] == Dir && q < p && q != [])
  {
    MkDirsShape(t, Parent(p));
    var (t1, ok) := MkDirs(t, Parent(p));
    assert forall k :: 0 <= k < |p| ==> Parent(p)[..k] == p[..k];
    assert !(p <= Parent(p));
    if PutFile(t, p, content).Some? {
      assert Parent(p)[..|p| - 1] == Parent(p);
      var t2 := t1[p := File(content)];
      forall q | q in t2 && q != [] ensures Parent(q) in t2 && t2[Parent(q)] == Dir {
        if q != p { assert Parent(q) in t1 && t1[Parent(q)] == Dir; }
      }
    }
  }
}
