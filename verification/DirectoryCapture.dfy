// Directory capture of the filesystem provider: a stack-driven walk whose result is
// sorted by joined path, and its round trip through restore (src/providers.rs).
module DirectoryCapture {
  import opened Wrappers
  import opened FileTree
  import opened UndoJournal

  // ---------------- the order of the listing ----------------

  // A relative path as captured: names separated by slashes.
  function Joined(p: FsPath): string {
    if p == [] then "" else if |p| == 1 then p[0] else p[0] + "/" + Joined(p[1..])
  }

  // Comparison of strings by character.
  predicate Less(a: string, b: string) {
    if b == "" then false
    else if a == "" then true
    else a[0] < b[0] || (a[0] == b[0] && Less(a[1..], b[1..]))
  }

  lemma {:induction false} LessIsTransitive(a: string, b: string, c: string)
    requires Less(a, b) && Less(b, c)
    ensures Less(a, c)
  {
    if a != "" && a[0] == b[0] && b[0] == c[0] { LessIsTransitive(a[1..], b[1..], c[1..]); }
  }

  lemma {:induction false} LessIsTotal(a: string, b: string)
    ensures !(Less(a, b) && Less(b, a))
    ensures Less(a, b) || Less(b, a) || a == b
  {
    if a != "" && b != "" && a[0] == b[0] {
      LessIsTotal(a[1..], b[1..]);
      assert a == [a[0]] + a[1..] && b == [b[0]] + b[1..];
    }
  }

  lemma {:induction false} PrefixIsLess(a: string, x: string)
    requires x != ""
    ensures Less(a, a + x)
  {
    if a != "" {
      assert (a + x)[1..] == a[1..] + x;
      PrefixIsLess(a[1..], x);
    }
  }

  ghost predicate Normal(p: FsPath) {
    forall n :: n in p ==> NormalName(n)
  }

  lemma SlashesSeparate(p: FsPath)
    requires Normal(p)
    ensures '/' in Joined(p) <==> |p| > 1
    ensures Joined(p) == "" <==> p == []
  {
    if p != [] { assert p[0] in p; }
    if |p| > 1 { assert Joined(p)[|p[0]|] == '/'; }
  }

  lemma {:induction false} JoinedIsInjective(p: FsPath, q: FsPath)
    requires Normal(p) && Normal(q) && Joined(p) == Joined(q)
    ensures p == q
  {
    SlashesSeparate(p);
    SlashesSeparate(q);
    if |p| > 1 {
      assert p[0] in p && q[0] in q;
      FirstName(p[0], Joined(p[1..]), q[0], Joined(q[1..]));
      JoinedIsInjective(p[1..], q[1..]);
      assert p == [p[0]] + p[1..] && q == [q[0]] + q[1..];
    }
  }

  lemma FirstName(a: string, x: string, b: string, y: string)
    requires '/' !in a && '/' !in b && a + "/" + x == b + "/" + y
    ensures a == b && x == y
  {
    var s := a + "/" + x;
    assert s[|a|] == '/' && s[|b|] == '/';
    assert forall i :: 0 <= i < |a| ==> s[i] == a[i] && a[i] in a;
    assert forall i :: 0 <= i < |b| ==> s[i] == b[i] && b[i] in b;
    assert a == s[..|a|] && b == s[..|b|];
    assert x == s[|a| + 1..] && y == s[|b| + 1..];
  }

  // An ancestor's joined path comes before its descendants'.
  lemma {:induction false} AncestorsComeFirst(q: FsPath, p: FsPath)
    requires Above(q, p)
    ensures Less(Joined(q), Joined(p))
  {
    JoinedExtends(q, p);
    var x :| Joined(p) == Joined(q) + x && x != "";
    PrefixIsLess(Joined(q), x);
  }

  lemma {:induction false} JoinedExtends(q: FsPath, p: FsPath)
    requires Above(q, p)
    ensures exists x :: Joined(p) == Joined(q) + x && x != ""
  {
    if |q| == 1 {
      assert Joined(p) == Joined(q) + ("/" + Joined(p[1..]));
    } else {
      JoinedExtends(q[1..], p[1..]);
      var x :| Joined(p[1..]) == Joined(q[1..]) + x && x != "";
      assert Joined(p) == Joined(q) + x;
    }
  }

  // ---------------- listings ----------------

  ghost predicate Sorted(entries: Payload) {
    forall i, k :: 0 <= i < k < |entries| ==> Less(Joined(entries[i].path), Joined(entries[k].path))
  }

  // Every regular file of t exactly once, in order.
  ghost predicate IsListing(t: Tree, entries: Payload) {
    Sorted(entries) && forall p, c :: PayloadEntry(p, c) in entries <==> p in t && t[p] == File(c)
  }

  lemma DropLast(a: Payload, b: Payload)
    requires Sorted(a) && a != [] && b == a[..|a| - 1]
    ensures Sorted(b) && forall e :: e in b <==> e in a && e != a[|a| - 1]
  {
    LessIsTotal(Joined(a[|a| - 1].path), Joined(a[|a| - 1].path));
    forall e | e in a && e != a[|a| - 1] ensures e in b {
      var i :| 0 <= i < |a| && a[i] == e;
      assert b[i] == e;
    }
  }

  lemma LastsAgree(a: Payload, b: Payload)
    requires Sorted(a) && Sorted(b) && a != [] && b != [] && a[|a| - 1] in b && b[|b| - 1] in a
    ensures a[|a| - 1] == b[|b| - 1]
  {
    LessIsTotal(Joined(a[|a| - 1].path), Joined(b[|b| - 1].path));
  }

  lemma {:induction false} SortedListsAreUnique(a: Payload, b: Payload)
    requires Sorted(a) && Sorted(b) && forall e :: e in a <==> e in b
    ensures a == b
    decreases |a|
  {
    assert a != [] ==> a[|a| - 1] in a;
    assert b != [] ==> b[|b| - 1] in b;
    if a != [] {
      LastsAgree(a, b);
      var a', b' := a[..|a| - 1], b[..|b| - 1];
      hide Sorted;
      DropLast(a, a');
      DropLast(b, b');
      SortedListsAreUnique(a', b');
      assert a == a' + [a[|a| - 1]] && b == b' + [b[|b| - 1]];
    }
  }

  // A tree has one listing.
  lemma ListingIsUnique(t: Tree, a: Payload, b: Payload)
    requires IsListing(t, a) && IsListing(t, b)
    ensures a == b
  {
    forall e ensures e in a <==> e in b { assert e == PayloadEntry(e.path, e.content); }
    SortedListsAreUnique(a, b);
  }

  // What capture emits can always be undone: sorted payloads are orderly.
  lemma SortedIsOrderly(entries: Payload)
    requires Sorted(entries)
    ensures Orderly(entries)
  {
    forall i, k | 0 <= i < k < |entries| ensures !Above(entries[k].path, entries[i].path) {
      if Above(entries[k].path, entries[i].path) {
        AncestorsComeFirst(entries[k].path, entries[i].path);
        LessIsTotal(Joined(entries[i].path), Joined(entries[k].path));
      }
    }
  }

  // ---------------- the walk ----------------

  // A directory as a file system holds it: a root, and names without separators.
  ghost predicate Listable(t: Tree) {
    Wf(t) && [] in t && forall p :: p in t && p != [] ==> Normal(p)
  }

  // A restore accepts its listing when nothing lies in the reserved directory.
  ghost predicate Capturable(t: Tree) {
    Listable(t) && forall p :: p in t && p != [] ==> p[0] != JOURNAL_DIR
  }

  // p lies at or below a directory on the stack.
  ghost predicate Covers(stack: seq<FsPath>, p: FsPath) {
    exists s :: s in stack && s <= p
  }

  ghost function Pending(t: Tree, stack: seq<FsPath>): set<FsPath> {
    set p | p in t.Keys && Covers(stack, p)
  }

  // One read_dir: the children of d, in whatever order.
  method ReadDir(t: Tree, d: FsPath) returns (dirs: seq<FsPath>, files: Payload)
    ensures forall p :: p in dirs <==> p in t && p != [] && Parent(p) == d && t[p] == Dir
    ensures forall p, c :: PayloadEntry(p, c) in files <==> p in t && p != [] && Parent(p) == d && t[p] == File(c)
    ensures forall i, k :: 0 <= i < k < |dirs| ==> dirs[i] != dirs[k]
    ensures forall i, k :: 0 <= i < k < |files| ==> files[i].path != files[k].path
  {
    dirs, files := [], [];
    var left := t.Keys;
    while left != {}
      invariant left <= t.Keys
      invariant forall p :: p in dirs <==> p in t && p !in left && p != [] && Parent(p) == d && t[p] == Dir
      invariant forall p, c :: PayloadEntry(p, c) in files <==>
                p in t && p !in left && p != [] && Parent(p) == d && t[p] == File(c)
      invariant forall i, k :: 0 <= i < k < |dirs| ==> dirs[i] != dirs[k]
      invariant forall i, k :: 0 <= i < k < |files| ==> files[i].path != files[k].path
      decreases |left|
    {
      var p :| p in left;
      left := left - {p};
      if p != [] && Parent(p) == d {
        match t[p] {
          case Dir => dirs := dirs + [p];
          case File(c) =>
            assert forall e :: e in files ==> e == PayloadEntry(e.path, e.content) && e.path != p;
            files := files + [PayloadEntry(p, c)];
        }
      }
    }
  }

  // The stack never holds a directory below another, nor one twice.
  ghost predicate Apart(stack: seq<FsPath>) {
    forall i, k :: 0 <= i < |stack| && 0 <= k < |stack| && i != k ==> !(stack[i] <= stack[k])
  }

  // The files found so far are those not pending, each once.
  ghost predicate Found(t: Tree, stack: seq<FsPath>, entries: Payload) {
    && (forall p, c :: PayloadEntry(p, c) in entries <==> p in t && t[p] == File(c) && p !in Pending(t, stack))
    && (forall i, k :: 0 <= i < k < |entries| ==> entries[i].path != entries[k].path)
  }

  lemma CoversEither(a: seq<FsPath>, b: seq<FsPath>, p: FsPath)
    ensures Covers(a + b, p) <==> Covers(a, p) || Covers(b, p)
  {
    if s :| s in a && s <= p { assert s in a + b; }
    if s :| s in b && s <= p { assert s in a + b; }
  }

  // What another directory on the stack covers is neither d nor a child of d.
  lemma ApartCovers(rest: seq<FsPath>, d: FsPath, p: FsPath)
    requires Apart(rest + [d]) && Covers(rest, p)
    ensures p != d && !(p != [] && Parent(p) == d)
  {
    var s :| s in rest && s <= p;
    var i :| 0 <= i < |rest| && rest[i] == s;
    assert (rest + [d])[i] == s && (rest + [d])[|rest|] == d;
  }

  // Below d and not d itself: a file right in d, or at or below a subdirectory.
  lemma BelowDirectory(t: Tree, d: FsPath, dirs: seq<FsPath>, p: FsPath)
    requires Wf(t) && p in t
    requires forall q :: q in dirs <==> q in t && q != [] && Parent(q) == d && t[q] == Dir
    ensures Covers(dirs, p) <==> d <= p && p != d && !(p != [] && Parent(p) == d && t[p].File?)
  {
    if Covers(dirs, p) {
      var s :| s in dirs && s <= p;
      assert Parent(s) == d && |s| == |d| + 1 && d <= s;
      assert p != [] && Parent(p) == d ==> p == s;
    }
    if d <= p && p != d && !(p != [] && Parent(p) == d && t[p].File?) {
      var q := p[..|d| + 1];
      assert q != [] && Parent(q) == d && q <= p;
      if q != p { AncestorsAreDirs(t, p, |d| + 1); }
      assert q in dirs;
    }
  }

  // Replacing a directory by its subdirectories leaves out the directory itself and
  // its files.
  lemma PendingAfter(t: Tree, rest: seq<FsPath>, d: FsPath, dirs: seq<FsPath>)
    requires Wf(t) && Apart(rest + [d])
    requires forall p :: p in dirs <==> p in t && p != [] && Parent(p) == d && t[p] == Dir
    ensures forall p :: p in Pending(t, rest + dirs) <==>
                          p in Pending(t, rest + [d]) && p != d && !(p != [] && Parent(p) == d && t[p].File?)
  {
    forall p | p in t.Keys
      ensures p in Pending(t, rest + dirs) <==>
              p in Pending(t, rest + [d]) && p != d && !(p != [] && Parent(p) == d && t[p].File?)
    {
      CoversEither(rest, dirs, p);
      CoversEither(rest, [d], p);
      BelowDirectory(t, d, dirs, p);
      assert Covers([d], p) <==> d <= p by { assert d in [d]; }
      if Covers(rest, p) { ApartCovers(rest, d, p); }
      hide Covers, Apart, Wf;
    }
  }

  lemma StaysApart(t: Tree, rest: seq<FsPath>, d: FsPath, dirs: seq<FsPath>)
    requires Apart(rest + [d])
    requires forall p :: p in dirs ==> p != [] && Parent(p) == d
    requires forall i, k :: 0 <= i < k < |dirs| ==> dirs[i] != dirs[k]
    ensures Apart(rest + dirs)
  {
    var n := |rest|;
    assert (rest + [d])[n] == d;
    forall i, k | 0 <= i < n + |dirs| && 0 <= k < n + |dirs| && i != k ensures !((rest + dirs)[i] <= (rest + dirs)[k]) {
      var a, b := (rest + dirs)[i], (rest + dirs)[k];
      if i < n { assert (rest + [d])[i] == a; } else { assert a in dirs; }
      if k < n { assert (rest + [d])[k] == b; } else { assert b in dirs; }
      if i >= n && k >= n {
        assert |a| == |b|;
      }
    }
  }

  // One popped directory: its files are found, everything else stays pending.
  lemma FoundAfter(t: Tree, rest: seq<FsPath>, d: FsPath, dirs: seq<FsPath>, entries: Payload, files: Payload)
    requires Wf(t) && d in t && t[d] == Dir && Apart(rest + [d]) && Found(t, rest + [d], entries)
    requires forall p :: p in dirs <==> p in t && p != [] && Parent(p) == d && t[p] == Dir
    requires forall p, c :: PayloadEntry(p, c) in files <==> p in t && p != [] && Parent(p) == d && t[p] == File(c)
    requires forall i, k :: 0 <= i < k < |files| ==> files[i].path != files[k].path
    ensures Found(t, rest + dirs, entries + files)
    ensures Pending(t, rest + dirs) < Pending(t, rest + [d])
  {
    PendingAfter(t, rest, d, dirs);
    assert d in rest + [d] && Covers(rest + [d], d) && d in Pending(t, rest + [d]);
    hide Pending, Apart, Wf, Covers;
    forall p, c ensures PayloadEntry(p, c) in entries + files <==>
      p in t && t[p] == File(c) && p !in Pending(t, rest + dirs) {
      FileIsPending(t, rest, d, p);
    }
    forall e, f | e in entries && f in files ensures e.path != f.path {
      assert PayloadEntry(e.path, e.content) in entries && PayloadEntry(f.path, f.content) in files;
      FileIsPending(t, rest, d, f.path);
    }
  }

  // The children of the directory on top are pending.
  lemma FileIsPending(t: Tree, rest: seq<FsPath>, d: FsPath, p: FsPath)
    ensures p in t && p != [] && Parent(p) == d ==> p in Pending(t, rest + [d])
  {
    if p in t && p != [] && Parent(p) == d { assert d in rest + [d] && d <= p; }
  }

  lemma EverythingIsPending(t: Tree)
    ensures Pending(t, [[]]) == t.Keys
  {
    var stack: seq<FsPath> := [[]];
    forall p | p in t.Keys
      ensures p in Pending(t, stack)
    {
      assert stack[0] in stack && stack[0] <= p;
      assert Covers(stack, p);
    }
  }

  // The walk of one source directory.
  method Walk(t: Tree) returns (entries: Payload)
    requires Wf(t) && [] in t
    ensures forall p, c :: PayloadEntry(p, c) in entries <==> p in t && t[p] == File(c)
    ensures forall i, k :: 0 <= i < k < |entries| ==> entries[i].path != entries[k].path
  {
    entries := [];
    var stack: seq<FsPath> := [[]];
    EverythingIsPending(t);
    while stack != []
      invariant Apart(stack) && Found(t, stack, entries)
      invariant forall s :: s in stack ==> s in t && t[s] == Dir
      decreases Pending(t, stack)
    {
      var d := stack[|stack| - 1];
      var rest := stack[..|stack| - 1];
      assert stack == rest + [d];
      assert d in stack;
      var dirs, files := ReadDir(t, d);
      FoundAfter(t, rest, d, dirs, entries, files);
      StaysApart(t, rest, d, dirs);
      stack := rest + dirs;
      entries := entries + files;
    }
  }

  // Insertion by joined relative path.
  method SortEntries(entries: Payload) returns (sorted: Payload)
    requires forall i, k :: 0 <= i < k < |entries| ==> Joined(entries[i].path) != Joined(entries[k].path)
    ensures Sorted(sorted) && forall e :: e in sorted <==> e in entries
  {
    sorted := [];
    var i := 0;
    while i < |entries|
      invariant 0 <= i <= |entries|
      invariant Sorted(sorted) && forall e :: e in sorted <==> e in entries[..i]
    {
      var e := entries[i];
      ghost var before := sorted;
      assert forall f :: f in entries[..i] ==> Joined(f.path) != Joined(e.path);
      var k := |sorted|;
      while k > 0 && Less(Joined(e.path), Joined(sorted[k - 1].path))
        invariant 0 <= k <= |sorted|
        invariant forall m :: k <= m < |sorted| ==> Less(Joined(e.path), Joined(sorted[m].path))
      {
        k := k - 1;
      }
      Insert(sorted, k, e);
      sorted := sorted[..k] + [e] + sorted[k..];
      assert forall f :: f in sorted <==> f in before || f == e;
      assert entries[..i + 1] == entries[..i] + [e];
      i := i + 1;
    }
    assert entries[..i] == entries;
  }

  lemma Insert(sorted: Payload, k: nat, e: PayloadEntry)
    requires Sorted(sorted) && k <= |sorted|
    requires forall f :: f in sorted ==> Joined(f.path) != Joined(e.path)
    requires forall m :: k <= m < |sorted| ==> Less(Joined(e.path), Joined(sorted[m].path))
    requires k > 0 ==> !Less(Joined(e.path), Joined(sorted[k - 1].path))
    ensures Sorted(sorted[..k] + [e] + sorted[k..])
  {
    forall m | 0 <= m < k ensures Less(Joined(sorted[m].path), Joined(e.path)) {
      assert sorted[k - 1] in sorted;
      LessIsTotal(Joined(sorted[k - 1].path), Joined(e.path));
      if m < k - 1 { LessIsTransitive(Joined(sorted[m].path), Joined(sorted[k - 1].path), Joined(e.path)); }
    }
  }

  // capture of one directory source: the walk terminates and what it emits is the
  // listing of the tree.
  method Capture(t: Tree) returns (payload: Payload)
    requires Listable(t)
    ensures IsListing(t, payload)
  {
    var entries := Walk(t);
    forall i, k | 0 <= i < k < |entries| ensures Joined(entries[i].path) != Joined(entries[k].path) {
      FoundIsNormal(t, entries, entries[i]);
      FoundIsNormal(t, entries, entries[k]);
      if Joined(entries[i].path) == Joined(entries[k].path) { JoinedIsInjective(entries[i].path, entries[k].path); }
    }
    payload := SortEntries(entries);
  }

  lemma FoundIsNormal(t: Tree, entries: Payload, e: PayloadEntry)
    requires Listable(t) && e in entries
    requires forall p, c :: PayloadEntry(p, c) in entries ==> p in t && t[p] == File(c)
    ensures Normal(e.path)
  {
    assert PayloadEntry(e.path, e.content) in entries;
  }

  // ---------------- the round trip ----------------

  lemma ListedPaths(t: Tree, payload: Payload, i: nat)
    requires Capturable(t) && IsListing(t, payload) && i < |payload|
    ensures payload[i].path in t && t[payload[i].path] == File(payload[i].content)
    ensures payload[i].path != [] && Checked(payload[i].path)
  {
    assert payload[i] in payload && payload[i] == PayloadEntry(payload[i].path, payload[i].content);
  }

  lemma ListingIsAcceptable(t: Tree, payload: Payload)
    requires Capturable(t) && IsListing(t, payload)
    ensures Acceptable(map[[] := Dir], payload) && Unblocked(payload, |payload|)
    ensures forall a, b :: 0 <= a < b < |payload| ==> !Above(payload[b].path, payload[a].path)
  {
    forall i | 0 <= i < |payload| ensures EntryFits(map[[] := Dir], payload, i) {
      ListedPaths(t, payload, i);
      forall m | 0 <= m < i ensures payload[m].path != payload[i].path {
        LessIsTotal(Joined(payload[m].path), Joined(payload[i].path));
      }
    }
    forall a, b | 0 <= a < |payload| && 0 <= b < |payload| && a != b ensures !Above(payload[b].path, payload[a].path) {
      ListedPaths(t, payload, a);
      ListedPaths(t, payload, b);
      var q, p := payload[b].path, payload[a].path;
      assert q < p ==> p[..|q|] == q;
      if Above(q, p) {
        AncestorsAreDirs(t, payload[a].path, |payload[b].path|);
      }
    }
  }

  // Restoring a capture onto an empty root succeeds, and capturing that root again
  // gives the same payload.
  lemma CaptureRoundTrip(t: Tree, payload: Payload, again: Payload)
    requires Capturable(t) && IsListing(t, payload)
    ensures forall e :: e in payload ==> e.path != []
    ensures PutAll(map[[] := Dir], payload).Some?
    ensures IsListing(PutAll(map[[] := Dir], payload).value, payload)
    ensures IsListing(PutAll(map[[] := Dir], payload).value, again) ==> again == payload
  {
    var t0: Tree := map[[] := Dir];
    ListingIsAcceptable(t, payload);
    PathsAreNonempty(t0, payload);
    LoopReaches(t0, payload, |payload|);
    assert payload[..|payload|] == payload;
    var t1 := PutAll(t0, payload).value;
    forall p, c ensures PayloadEntry(p, c) in payload <==> p in t1 && t1[p] == File(c) {
      if PayloadEntry(p, c) in payload {
        var a :| 0 <= a < |payload| && payload[a] == PayloadEntry(p, c);
        assert payload[a].path in t1;
      }
      if p in t1 && t1[p] == File(c) {
        assert p !in t0;
        assert IsPathOf(payload, |payload|, p);
        var a :| 0 <= a < |payload| && payload[a].path == p;
        assert payload[a] == PayloadEntry(p, c);
      }
    }
    if IsListing(t1, again) { ListingIsUnique(t1, again, payload); }
  }
}
