// The chunked copy of a replica from a peer that need not be honest, and the serving
// side it is meant for (do_replicate and serve_component in src/node.rs).
module Replication {
  import opened Wrappers
  import opened ByteStrings

  const CHUNK: nat := 0x10_0000

  // A fetch response, or a call that fails.
  datatype Answer = Answer(ok: bool, offset: nat, bytes: Bytes, last: bool) | NoAnswer

  // Whatever a peer does, it can depend on how often it was asked and for what offset.
  type Peer = (nat, nat) -> Answer

  datatype CopyError = CallFailed | PeerRefused | OffsetMismatch | NoProgressOrTooLong | EndedShort | HashMismatch

  // What the first n answers carry.
  function Gathered(peer: Peer, n: nat): Bytes {
    if n == 0 then []
    else
      var before := Gathered(peer, n - 1);
      var a := peer(n - 1, |before|);
      before + if a.Answer? then a.bytes else []
  }

  // ---------------- one component ----------------

  // What the loop makes of the answers from the calls-th on, when file has been written.
  function Fetched(peer: Peer, storedSize: nat, calls: nat, file: Bytes): (r: Option<Bytes>)
    requires |file| <= storedSize
    ensures r.Some? ==> |r.value| == storedSize
    decreases storedSize - |file|
  {
    var a := peer(calls, |file|);
    if a.NoAnswer? || !a.ok || a.offset != |file| then None
    else if (a.bytes == [] && !a.last) || |file| + |a.bytes| > storedSize then None
    else if !a.last then Fetched(peer, storedSize, calls + 1, file + a.bytes)
    else if |file| + |a.bytes| == storedSize then Some(file + a.bytes)
    else None
  }

  // Fetch one component.  Against any peer the loop asks at most storedSize + 1 times,
  // never writes past the declared size, and succeeds only with exactly that many
  // bytes, which hash as declared and are what the peer sent, in order.
  method FetchComponent(peer: Peer, storedSize: nat, storedHash: string, hash: Bytes -> string)
    returns (r: Result<Bytes, CopyError>, calls: nat, file: Bytes)
    ensures calls <= storedSize + 1
    ensures |file| <= storedSize && file <= Gathered(peer, calls)
    ensures r.Ok? ==> r.value == file == Gathered(peer, calls) && |file| == storedSize && hash(file) == storedHash
    ensures var f := Fetched(peer, storedSize, 0, []);
            if f.Some? && hash(f.value) == storedHash then r == Ok(f.value) else r.Err?
    ensures forall source :: Serves(peer, source) && |source| == storedSize && hash(source) == storedHash ==>
              r == Ok(source)
  {
    file, calls := [], 0;
    var offset := 0;
    var done := false;
    forall source | Serves(peer, source) && |source| == storedSize
      ensures Fetched(peer, storedSize, 0, []) == Some(source) {
      HonestIsFetched(peer, source, 0, []);
    }
    hide Serves;
    ghost var whole := Fetched(peer, storedSize, 0, []);
    while !done
      invariant calls <= |file| + (if done then 1 else 0) && |file| == offset <= storedSize
      invariant file == Gathered(peer, calls)
      invariant whole == if !done then Fetched(peer, storedSize, calls, file)
                         else if |file| == storedSize then Some(file) else None
      decreases !done, storedSize - offset
    {
      var chunk := peer(calls, offset);
      calls := calls + 1;
      if chunk.NoAnswer? { return Err(CallFailed), calls, file; }
      if !chunk.ok { return Err(PeerRefused), calls, file; }
      if chunk.offset != offset { return Err(OffsetMismatch), calls, file; }
      if (chunk.bytes == [] && !chunk.last) || offset + |chunk.bytes| > storedSize {
        return Err(NoProgressOrTooLong), calls, file;
      }
      file := file + chunk.bytes;
      offset := offset + |chunk.bytes|;
      done := chunk.last;
    }
    if offset != storedSize { return Err(EndedShort), calls, file; }
    if hash(file) != storedHash { return Err(HashMismatch), calls, file; }
    r := Ok(file);
  }

  // serve_component on a file: one read from the offset, possibly a short one.
  function Serve(source: Bytes, offset: nat, n: nat): Answer
    requires offset + n <= |source|
  {
    Answer(true, offset, source[offset..offset + n], offset + n >= |source|)
  }

  // A read returns nothing only at the end of the file.
  ghost predicate ServesAt(peer: Peer, source: Bytes, call: nat, offset: nat) {
    offset <= |source| ==>
      exists n :: 0 <= n <= CHUNK && offset + n <= |source| && (n == 0 ==> offset == |source|)
        && peer(call, offset) == Serve(source, offset, n)
  }

  ghost predicate Serves(peer: Peer, source: Bytes) {
    forall call, offset :: ServesAt(peer, source, call, offset)
  }

  // A peer that serves the file gets it copied.
  lemma {:induction false} HonestIsFetched(peer: Peer, source: Bytes, calls: nat, file: Bytes)
    requires Serves(peer, source) && file <= source
    ensures Fetched(peer, |source|, calls, file) == Some(source)
    decreases |source| - |file|
  {
    assert ServesAt(peer, source, calls, |file|);
    var n :| 0 <= n <= CHUNK && |file| + n <= |source| && (n == 0 ==> |file| == |source|)
             && peer(calls, |file|) == Serve(source, |file|, n);
    assert file + source[|file|..|file| + n] == source[..|file| + n];
    if |file| + n < |source| { HonestIsFetched(peer, source, calls + 1, source[..|file| + n]); }
    else { assert source[..|source|] == source; }
  }

  // ---------------- a whole checkpoint ----------------

  datatype Component =
    Component(id: string, relativePath: string, storedSize: nat, storedHash: string, contentHash: string)

  // The files of a staging directory below components/ and integrity/.
  type Staging = map<string, Bytes>

  const CRC_SUFFIX := ".crc32c"
  const SHA_SUFFIX := ".sha256"

  // One line of text, as the sidecar files hold it.
  function Line(text: string): (line: Bytes)
    ensures line != []
  {
    seq(|text|, i requires 0 <= i < |text| => (text[i] as int % 256) as byte) + [10]
  }

  predicate SafePath(c: Component, sanitize: string -> string) {
    sanitize(c.id) == c.id && c.relativePath == "components/" + sanitize(c.id)
  }

  // The files one checked component leaves: its bytes, two sidecars next to them, and
  // the content hash under integrity/.
  function Stage(staging: Staging, c: Component, file: Bytes, hash: Bytes -> string, crc: Bytes -> string): Staging {
    staging[c.relativePath := file]
      [c.relativePath + CRC_SUFFIX := Line(crc(file))]
      [c.relativePath + SHA_SUFFIX := Line(hash(file))]
      ["integrity/" + c.id + SHA_SUFFIX := Line(c.contentHash)]
  }

  // What do_replicate makes of the peers' answers: all components or nothing.
  function Copied(peers: string -> Peer, components: seq<Component>, hash: Bytes -> string, crc: Bytes -> string,
        sanitize: string -> string): Option<Staging>
    decreases |components|
  {
    if components == [] then Some(map[])
    else
      var c := components[|components| - 1];
      var before := Copied(peers, components[..|components| - 1], hash, crc, sanitize);
      if before.None? || !SafePath(c, sanitize) then None
      else
        var file := Fetched(peers(c.id), c.storedSize, 0, []);
        if file.None? || hash(file.value) != c.storedHash then None
        else Some(Stage(before.value, c, file.value, hash, crc))
  }

  // The staged file is of the declared size and hash.
  ghost predicate Intact(staging: Staging, c: Component, hash: Bytes -> string) {
    c.relativePath in staging && |staging[c.relativePath]| == c.storedSize
      && hash(staging[c.relativePath]) == c.storedHash
  }

  ghost predicate AllIntact(staging: Staging, components: seq<Component>, hash: Bytes -> string) {
    forall i :: 0 <= i < |components| ==> Intact(staging, components[i], hash)
  }

  // The peer holds files[i] as component i, and every file is as declared.
  ghost predicate HonestPeer(peers: string -> Peer, components: seq<Component>, files: seq<Bytes>,
        hash: Bytes -> string) {
    |files| == |components|
    && forall i :: 0 <= i < |components| ==>
         |files[i]| == components[i].storedSize && hash(files[i]) == components[i].storedHash
         && Serves(peers(components[i].id), files[i])
  }

  // No component is named like a sidecar of a later one.
  ghost predicate Unshadowed(ids: seq<string>) {
    forall i, j :: 0 <= i < j < |ids| ==> ids[i] != ids[j] + CRC_SUFFIX && ids[i] != ids[j] + SHA_SUFFIX
  }

  ghost predicate Distinct(ids: seq<string>) {
    forall i, j :: 0 <= i < j < |ids| ==> ids[i] != ids[j]
  }

  function IdsOf(components: seq<Component>): (ids: seq<string>)
    ensures |ids| == |components| && forall i :: 0 <= i < |ids| ==> ids[i] == components[i].id
  {
    seq(|components|, i requires 0 <= i < |components| => components[i].id)
  }

  // The copy loop over components.
  method Replicate(peers: string -> Peer, components: seq<Component>, hash: Bytes -> string, crc: Bytes -> string,
        sanitize: string -> string)
    returns (r: Option<Staging>)
    ensures r == Copied(peers, components, hash, crc, sanitize)
    // with names that keep out of each other's way every component is as declared
    ensures r.Some? && Distinct(IdsOf(components)) && Unshadowed(IdsOf(components)) ==>
            AllIntact(r.value, components, hash)
  {
    var staging: Staging := map[];
    var i := 0;
    assert components[..0] == [] && Copied(peers, [], hash, crc, sanitize) == Some(staging);
    hide *;
    while i < |components|
      invariant 0 <= i <= |components|
      invariant Copied(peers, components[..i], hash, crc, sanitize) == Some(staging)
    {
      var c := components[i];
      OneMore(peers, components, hash, crc, sanitize, i);
      if !SafePath(c, sanitize) {
        RefusedStays(peers, components, hash, crc, sanitize, i + 1);
        return None;
      }
      var got, calls, file := FetchComponent(peers(c.id), c.storedSize, c.storedHash, hash);
      if got.Err? {
        RefusedStays(peers, components, hash, crc, sanitize, i + 1);
        return None;
      }
      staging := Stage(staging, c, got.value, hash, crc);
      i := i + 1;
    }
    assert components[..i] == components;
    r := Some(staging);
    if Distinct(IdsOf(components)) && Unshadowed(IdsOf(components)) {
      UnshadowedIsIntact(peers, components, hash, crc, sanitize);
    }
  }

  lemma OneMore(peers: string -> Peer, components: seq<Component>, hash: Bytes -> string, crc: Bytes -> string,
        sanitize: string -> string, i: nat)
    requires i < |components| && Copied(peers, components[..i], hash, crc, sanitize).Some?
    ensures var c := components[i];
            var file := Fetched(peers(c.id), c.storedSize, 0, []);
            Copied(peers, components[..i + 1], hash, crc, sanitize) ==
            if !SafePath(c, sanitize) || file.None? || hash(file.value) != c.storedHash then None
            else Some(Stage(Copied(peers, components[..i], hash, crc, sanitize).value, c, file.value, hash, crc))
  {
    assert components[..i + 1][..i] == components[..i];
    hide Fetched, Stage, SafePath;
  }

  lemma {:induction false} RefusedStays(peers: string -> Peer, components: seq<Component>, hash: Bytes -> string,
        crc: Bytes -> string, sanitize: string -> string, n: nat)
    requires n <= |components| && Copied(peers, components[..n], hash, crc, sanitize) == None
    ensures Copied(peers, components, hash, crc, sanitize) == None
    decreases |components|
  {
    if n == |components| {
      assert components[..n] == components;
    } else {
      var before := components[..|components| - 1];
      assert before[..n] == components[..n];
      RefusedStays(peers, before, hash, crc, sanitize, n);
    }
  }

  // ---------------- which names keep a copy intact ----------------

  // Staging c leaves the file of an earlier component alone unless that is named like c
  // or one of its sidecars.
  lemma StageKeeps(staging: Staging, c: Component, file: Bytes, hash: Bytes -> string, crc: Bytes -> string,
        path: string, id: string)
    requires path == "components/" + id && c.relativePath == "components/" + c.id && path in staging
    ensures var after := Stage(staging, c, file, hash, crc);
            path in after
            && after[path] == if id == c.id + SHA_SUFFIX then Line(hash(file))
                              else if id == c.id + CRC_SUFFIX then Line(crc(file))
                              else if id == c.id then file else staging[path]
  {
    var dir := "components/";
    assert path[0] == 'c' && ("integrity/" + c.id + SHA_SUFFIX)[0] == 'i';
    assert path[|dir|..] == id && c.relativePath[|dir|..] == c.id;
    assert (c.relativePath + SHA_SUFFIX)[|dir|..] == c.id + SHA_SUFFIX;
    assert (c.relativePath + CRC_SUFFIX)[|dir|..] == c.id + CRC_SUFFIX;
    assert id == c.id + SHA_SUFFIX ==> path == c.relativePath + SHA_SUFFIX;
    assert id == c.id + CRC_SUFFIX ==> path == c.relativePath + CRC_SUFFIX;
    SuffixesDiffer(c.id);
  }

  lemma SuffixesDiffer(id: string)
    ensures id + SHA_SUFFIX != id + CRC_SUFFIX && id != id + SHA_SUFFIX && id != id + CRC_SUFFIX
  {
    assert (id + SHA_SUFFIX)[|id| + 1] == 's' && (id + CRC_SUFFIX)[|id| + 1] == 'c';
  }

  lemma {:induction false} CopiedAt(peers: string -> Peer, components: seq<Component>, hash: Bytes -> string,
        crc: Bytes -> string, sanitize: string -> string, i: nat)
    requires Distinct(IdsOf(components)) && Unshadowed(IdsOf(components)) && i < |components|
    requires Copied(peers, components, hash, crc, sanitize).Some?
    ensures var staging := Copied(peers, components, hash, crc, sanitize).value;
            var file := Fetched(peers(components[i].id), components[i].storedSize, 0, []);
            && SafePath(components[i], sanitize) && file.Some? && hash(file.value) == components[i].storedHash
            && components[i].relativePath in staging && staging[components[i].relativePath] == file.value
    decreases |components|
  {
    var n := |components| - 1;
    var c, before := components[n], components[..n];
    var staging := Copied(peers, before, hash, crc, sanitize).value;
    var file := Fetched(peers(c.id), c.storedSize, 0, []).value;
    var ids := IdsOf(components);
    assert forall k :: 0 <= k < n ==> before[k] == components[k];
    hide Fetched, Stage, Distinct, Unshadowed;
    NamesBefore(components);
    if i < n {
      CopiedAt(peers, before, hash, crc, sanitize, i);
      StageKeeps(staging, c, file, hash, crc, components[i].relativePath, components[i].id);
      NoClash(ids, i, n);
    } else {
      StageHolds(staging, c, file, hash, crc);
    }
  }

  lemma StageHolds(staging: Staging, c: Component, file: Bytes, hash: Bytes -> string, crc: Bytes -> string)
    requires c.relativePath == "components/" + c.id
    ensures var after := Stage(staging, c, file, hash, crc); c.relativePath in after && after[c.relativePath] == file
  {
    StageKeeps(staging[c.relativePath := file], c, file, hash, crc, c.relativePath, c.id);
    SuffixesDiffer(c.id);
  }

  lemma NamesBefore(components: seq<Component>)
    requires components != []
    ensures var before := components[..|components| - 1];
            (Distinct(IdsOf(components)) ==> Distinct(IdsOf(before)))
            && (Unshadowed(IdsOf(components)) ==> Unshadowed(IdsOf(before)))
  {
    assert forall k :: 0 <= k < |components| - 1 ==> IdsOf(components[..|components| - 1])[k] == IdsOf(components)[k];
  }

  lemma NoClash(ids: seq<string>, i: nat, j: nat)
    requires Distinct(ids) && Unshadowed(ids) && i < j < |ids|
    ensures ids[i] != ids[j] && ids[i] != ids[j] + CRC_SUFFIX && ids[i] != ids[j] + SHA_SUFFIX
  {}

  lemma UnshadowedIsIntact(peers: string -> Peer, components: seq<Component>, hash: Bytes -> string,
        crc: Bytes -> string, sanitize: string -> string)
    requires Distinct(IdsOf(components)) && Unshadowed(IdsOf(components))
    requires Copied(peers, components, hash, crc, sanitize).Some?
    ensures AllIntact(Copied(peers, components, hash, crc, sanitize).value, components, hash)
  {
    forall i | 0 <= i < |components|
      ensures Intact(Copied(peers, components, hash, crc, sanitize).value, components[i], hash) {
      CopiedAt(peers, components, hash, crc, sanitize, i);
    }
  }

  // ---------------- honest peers ----------------

  // With names that keep out of each other's way an unchanged replica at honest peers
  // is copied byte for byte.
  lemma HonestCopy(peers: string -> Peer, components: seq<Component>, files: seq<Bytes>, hash: Bytes -> string,
        crc: Bytes -> string, sanitize: string -> string)
    requires HonestPeer(peers, components, files, hash)
    requires forall i :: 0 <= i < |components| ==> SafePath(components[i], sanitize)
    requires Distinct(IdsOf(components)) && Unshadowed(IdsOf(components))
    ensures var r := Copied(peers, components, hash, crc, sanitize);
            r.Some? && forall i :: 0 <= i < |components| ==>
              components[i].relativePath in r.value && r.value[components[i].relativePath] == files[i]
  {
    HonestSucceeds(peers, components, files, hash, crc, sanitize);
    forall i | 0 <= i < |components|
      ensures var staging := Copied(peers, components, hash, crc, sanitize).value;
              components[i].relativePath in staging && staging[components[i].relativePath] == files[i]
    {
      CopiedAt(peers, components, hash, crc, sanitize, i);
      HonestIsFetched(peers(components[i].id), files[i], 0, []);
    }
  }

  // Whatever the names: honest peers make the copy succeed.
  lemma {:induction false} HonestSucceeds(peers: string -> Peer, components: seq<Component>, files: seq<Bytes>,
        hash: Bytes -> string, crc: Bytes -> string, sanitize: string -> string)
    requires HonestPeer(peers, components, files, hash)
    requires forall i :: 0 <= i < |components| ==> SafePath(components[i], sanitize)
    ensures Copied(peers, components, hash, crc, sanitize).Some?
    decreases |components|
  {
    if components != [] {
      var n := |components| - 1;
      assert forall k :: 0 <= k < n ==> components[..n][k] == components[k] && files[..n][k] == files[k];
      HonestSucceeds(peers, components[..n], files[..n], hash, crc, sanitize);
      HonestIsFetched(peers(components[n].id), files[n], 0, []);
      hide Fetched, Stage;
    }
  }

  // ---------------- names that do not ----------------

  // A peer with nothing in its file.
  function EmptyPeer(): Peer {
    (call: nat, offset: nat) => Answer(true, offset, [], true)
  }

  // Empty components of the given names.
  function EmptyComponents(ids: seq<string>): (components: seq<Component>)
    ensures |components| == |ids|
    ensures forall i :: 0 <= i < |ids| ==> components[i] == Component(ids[i], "components/" + ids[i], 0, "", "")
  {
    seq(|ids|, i requires 0 <= i < |ids| => Component(ids[i], "components/" + ids[i], 0, "", ""))
  }

  function NoText(): Bytes -> string {
    file => ""
  }

  function AnyPeer(): string -> Peer {
    id => EmptyPeer()
  }

  // Once a sidecar has overwritten component i, its file is never empty again.
  lemma {:induction false} OverwrittenStays(ids: seq<string>, sanitize: string -> string, i: nat, j: nat)
    requires Distinct(ids) && (forall id :: id in ids ==> sanitize(id) == id) && i < j < |ids|
    requires ids[i] == ids[j] + CRC_SUFFIX || ids[i] == ids[j] + SHA_SUFFIX
    ensures var r := Copied(AnyPeer(), EmptyComponents(ids), NoText(), NoText(), sanitize);
            var path := "components/" + ids[i];
            r.Some? && path in r.value && r.value[path] != []
    decreases |ids|
  {
    var components := EmptyComponents(ids);
    var n := |ids| - 1;
    var before := ids[..n];
    EmptySucceeds(ids, sanitize);
    EmptySucceeds(before, sanitize);
    assert components[..n] == EmptyComponents(before);
    var c := components[n];
    var staging := Copied(AnyPeer(), EmptyComponents(before), NoText(), NoText(), sanitize).value;
    assert Fetched(EmptyPeer(), 0, 0, []) == Some([]);
    assert c.relativePath == "components/" + c.id && c.id == ids[n];
    PathStays(before, sanitize, i);
    hide Copied, Stage, Fetched;
    StageKeeps(staging, c, [], NoText(), NoText(), "components/" + ids[i], ids[i]);
    EmptyStep(ids, sanitize);
    if j < n { OverwrittenStays(before, sanitize, i, j); }
  }

  lemma EmptyStep(ids: seq<string>, sanitize: string -> string)
    requires ids != [] && forall id :: id in ids ==> sanitize(id) == id
    ensures var n := |ids| - 1;
            var r := Copied(AnyPeer(), EmptyComponents(ids[..n]), NoText(), NoText(), sanitize);
            r.Some? ==>
              Copied(AnyPeer(), EmptyComponents(ids), NoText(), NoText(), sanitize)
              == Some(Stage(r.value, EmptyComponents(ids)[n], [], NoText(), NoText()))
  {
    var n := |ids| - 1;
    assert EmptyComponents(ids)[..n] == EmptyComponents(ids[..n]);
    assert Fetched(EmptyPeer(), 0, 0, []) == Some([]);
    assert ids[n] in ids;
    hide Stage;
  }

  lemma {:induction false} EmptySucceeds(ids: seq<string>, sanitize: string -> string)
    requires forall id :: id in ids ==> sanitize(id) == id
    ensures Copied(AnyPeer(), EmptyComponents(ids), NoText(), NoText(), sanitize).Some?
    decreases |ids|
  {
    if ids != [] {
      EmptySucceeds(ids[..|ids| - 1], sanitize);
      EmptyStep(ids, sanitize);
    }
  }

  lemma {:induction false} PathStays(ids: seq<string>, sanitize: string -> string, i: nat)
    requires (forall id :: id in ids ==> sanitize(id) == id) && i < |ids|
    ensures var r := Copied(AnyPeer(), EmptyComponents(ids), NoText(), NoText(), sanitize);
            r.Some? && "components/" + ids[i] in r.value
    decreases |ids|
  {
    EmptySucceeds(ids, sanitize);
    EmptySucceeds(ids[..|ids| - 1], sanitize);
    EmptyStep(ids, sanitize);
    if i < |ids| - 1 { PathStays(ids[..|ids| - 1], sanitize, i); }
    hide Copied;
  }

  // components have these names.
  ghost predicate Named(components: seq<Component>, ids: seq<string>) {
    IdsOf(components) == ids
  }

  // For safe, pairwise distinct names: whatever sizes and hashes are declared, whatever
  // the peers answer, and whatever the hash and checksum functions are, a copy that
  // succeeds leaves every component as declared, if and only if no component is named
  // like a sidecar of a later one.
  lemma CopiesAreIntactExactly(ids: seq<string>, sanitize: string -> string)
    requires Distinct(ids) && forall id :: id in ids ==> sanitize(id) == id
    ensures Unshadowed(ids) <==>
              forall peers: string -> Peer, components: seq<Component>, hash: Bytes -> string, crc: Bytes -> string ::
                Named(components, ids) && Copied(peers, components, hash, crc, sanitize).Some? ==>
                  AllIntact(Copied(peers, components, hash, crc, sanitize).value, components, hash)
  {
    if Unshadowed(ids) {
      forall peers: string -> Peer, components: seq<Component>, hash: Bytes -> string, crc: Bytes -> string |
        Named(components, ids) && Copied(peers, components, hash, crc, sanitize).Some?
        ensures AllIntact(Copied(peers, components, hash, crc, sanitize).value, components, hash)
      {
        UnshadowedIsIntact(peers, components, hash, crc, sanitize);
      }
    } else {
      var i: nat, j: nat :| 0 <= i < j < |ids| && (ids[i] == ids[j] + CRC_SUFFIX || ids[i] == ids[j] + SHA_SUFFIX);
      OverwrittenStays(ids, sanitize, i, j);
      var components := EmptyComponents(ids);
      var r := Copied(AnyPeer(), components, NoText(), NoText(), sanitize);
      assert IdsOf(components) == ids;
      assert Named(components, ids) && !Intact(r.value, components[i], NoText());
    }
  }

  // The input: a component called a.sha256 before one called a.  Its file passes its
  // check, the sidecar of a replaces it, and the copy succeeds, with honest peers too.
  lemma SidecarReplacesComponent(first: Component, second: Component, files: seq<Bytes>, peers: string -> Peer,
        hash: Bytes -> string, crc: Bytes -> string, sanitize: string -> string)
    requires first.id == "a.sha256" && second.id == "a" && SafePath(first, sanitize) && SafePath(second, sanitize)
    requires HonestPeer(peers, [first, second], files, hash)
    ensures var r := Copied(peers, [first, second], hash, crc, sanitize);
            r.Some? && first.relativePath in r.value && r.value[first.relativePath] == Line(hash(files[1]))
  {
    var components := [first, second];
    HonestSucceeds(peers, components, files, hash, crc, sanitize);
    HonestIsFetched(peers(first.id), files[0], 0, []);
    HonestIsFetched(peers(second.id), files[1], 0, []);
    assert components[..1] == [first] && [first][..0] == [];
    var staging := Stage(map[], first, files[0], hash, crc);
    assert Copied(peers, [first], hash, crc, sanitize) == Some(staging);
    StageHolds(map[], first, files[0], hash, crc);
    hide Fetched, Stage;
    assert first.id == second.id + SHA_SUFFIX;
    StageKeeps(staging, second, files[1], hash, crc, first.relativePath, first.id);
  }

  // ---------------- the sidecars ----------------

  // No later component is named like a sidecar of the i-th.
  ghost predicate Clear(ids: seq<string>, i: nat)
    requires i < |ids|
  {
    forall j :: i < j < |ids| ==> ids[j] != ids[i] && ids[j] != ids[i] + CRC_SUFFIX && ids[j] != ids[i] + SHA_SUFFIX
  }

  // Both checksums of the file as fetched next to it, and the declared content hash.
  ghost predicate Accompanied(staging: Staging, c: Component, file: Bytes, hash: Bytes -> string, crc: Bytes -> string)
  {
    var base, integrity := "components/" + c.id, "integrity/" + c.id + SHA_SUFFIX;
    && base + CRC_SUFFIX in staging && staging[base + CRC_SUFFIX] == Line(crc(file))
    && base + SHA_SUFFIX in staging && staging[base + SHA_SUFFIX] == Line(hash(file))
    && integrity in staging && staging[integrity] == Line(c.contentHash)
  }

  lemma StageAccompanies(staging: Staging, c: Component, file: Bytes, hash: Bytes -> string, crc: Bytes -> string)
    requires c.relativePath == "components/" + c.id
    ensures Accompanied(Stage(staging, c, file, hash, crc), c, file, hash, crc)
  {
    var base := "components/" + c.id;
    assert base[0] == 'c' && (base + CRC_SUFFIX)[0] == 'c' && (base + SHA_SUFFIX)[0] == 'c';
    assert ("integrity/" + c.id + SHA_SUFFIX)[0] == 'i';
    assert (base + CRC_SUFFIX)[|base| + 1] == 'c' && (base + SHA_SUFFIX)[|base| + 1] == 's';
  }

  lemma StageStaysAccompanied(staging: Staging, d: Component, file: Bytes, c: Component, earlier: Bytes,
        hash: Bytes -> string, crc: Bytes -> string)
    requires d.relativePath == "components/" + d.id && Accompanied(staging, c, earlier, hash, crc)
    requires d.id != c.id && d.id != c.id + CRC_SUFFIX && d.id != c.id + SHA_SUFFIX
    ensures Accompanied(Stage(staging, d, file, hash, crc), c, earlier, hash, crc)
  {
    SuffixesApart(c.id, d.id);
    assert "components/" + c.id + CRC_SUFFIX == "components/" + (c.id + CRC_SUFFIX);
    assert "components/" + c.id + SHA_SUFFIX == "components/" + (c.id + SHA_SUFFIX);
    StageKeeps(staging, d, file, hash, crc, "components/" + c.id + CRC_SUFFIX, c.id + CRC_SUFFIX);
    StageKeeps(staging, d, file, hash, crc, "components/" + c.id + SHA_SUFFIX, c.id + SHA_SUFFIX);
    IntegrityStays(staging, d, file, hash, crc, c.id);
    hide Stage, Line;
  }

  lemma SuffixesApart(a: string, b: string)
    requires a != b
    ensures a + CRC_SUFFIX != b + SHA_SUFFIX && a + SHA_SUFFIX != b + CRC_SUFFIX
    ensures a + CRC_SUFFIX != b + CRC_SUFFIX && a + SHA_SUFFIX != b + SHA_SUFFIX
  {
    assert (a + CRC_SUFFIX)[|a + CRC_SUFFIX| - 1] == 'c' && (b + CRC_SUFFIX)[|b + CRC_SUFFIX| - 1] == 'c';
    assert (a + SHA_SUFFIX)[|a + SHA_SUFFIX| - 1] == '6' && (b + SHA_SUFFIX)[|b + SHA_SUFFIX| - 1] == '6';
    assert (a + CRC_SUFFIX)[..|a|] == a && (b + CRC_SUFFIX)[..|b|] == b;
    assert (a + SHA_SUFFIX)[..|a|] == a && (b + SHA_SUFFIX)[..|b|] == b;
  }

  lemma IntegrityStays(staging: Staging, d: Component, file: Bytes, hash: Bytes -> string, crc: Bytes -> string,
        id: string)
    requires d.relativePath == "components/" + d.id && d.id != id && "integrity/" + id + SHA_SUFFIX in staging
    ensures var path := "integrity/" + id + SHA_SUFFIX;
            path in Stage(staging, d, file, hash, crc) && Stage(staging, d, file, hash, crc)[path] == staging[path]
  {
    var path, dir := "integrity/" + id + SHA_SUFFIX, "integrity/";
    assert path[0] == 'i' && d.relativePath[0] == 'c';
    assert (d.relativePath + CRC_SUFFIX)[0] == 'c' && (d.relativePath + SHA_SUFFIX)[0] == 'c';
    SuffixesApart(id, d.id);
    assert path[|dir|..] == id + SHA_SUFFIX && (dir + d.id + SHA_SUFFIX)[|dir|..] == d.id + SHA_SUFFIX;
  }

  // A copy that succeeds leaves, beside every component whose sidecars no later one is
  // named like, the two checksums of the file as fetched, and its declared content hash.
  lemma {:induction false} SidecarsAreWritten(peers: string -> Peer, components: seq<Component>, hash: Bytes -> string,
        crc: Bytes -> string, sanitize: string -> string, i: nat)
    requires i < |components| && Clear(IdsOf(components), i)
    requires Copied(peers, components, hash, crc, sanitize).Some?
    ensures var c := components[i];
            var file := Fetched(peers(c.id), c.storedSize, 0, []);
            file.Some? && hash(file.value) == c.storedHash
            && Accompanied(Copied(peers, components, hash, crc, sanitize).value, c, file.value, hash, crc)
    decreases |components|
  {
    var n := |components| - 1;
    var before, d := components[..n], components[n];
    var staging := Copied(peers, before, hash, crc, sanitize).value;
    var file := Fetched(peers(d.id), d.storedSize, 0, []).value;
    hide Stage, Accompanied, Fetched;
    if i == n {
      StageAccompanies(staging, d, file, hash, crc);
    } else {
      assert IdsOf(components)[i] == components[i].id && IdsOf(components)[n] == d.id;
      SidecarsAreWritten(peers, before, hash, crc, sanitize, i);
      StageStaysAccompanied(staging, d, file, components[i], Fetched(peers(components[i].id), components[i].storedSize,
        0, []).value, hash, crc);
    }
  }
}
