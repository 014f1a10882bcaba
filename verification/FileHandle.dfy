/**
 `DiscordFile` (src/vfs.py): an open handle, and why it behaves like one flat byte array.

 Each public method is specified against `Visible()`, a sequence of bytes: what is committed in the
 database, with this handle's unflushed bytes on top. Failures of either store may strike at any call.
 */
module FileHandle {
  import opened Wrappers
  import opened Bytes
  import opened Tags
  import opened FileContent
  import opened Backend

  const CHUNK_CACHE_SIZE: nat := 2

  datatype Error = Unsupported | FailedState | NegativeSize | NotFound | Integrity | Transport

  type Done = Outcome<(), Error>

  // The tag this handle last saw is over these contents, this place and this name.
  ghost predicate MacCovers(node: FileDoc) {
    node.mac.NodeTag? && node.mac == FileMac(node.(trashedAt := node.mac.trashedAt))
  }

  // Equal as far as a file tag can tell, contents apart.
  ghost predicate SamePlace(a: FileDoc, b: FileDoc) {
    && a.id == b.id && OrEmpty(a.parentId) == OrEmpty(b.parentId)
    && OrEmpty(a.filename) == OrEmpty(b.filename) && a.trashedAt == b.trashedAt
  }

  /**
   A content commit signs what the handle believes about the file's place and trash state. The stored
   document verifies afterwards if and only if that belief is right.
   */
  lemma CommitVerifiesExactly(stored: FileDoc, local: FileDoc)
    requires stored.id == local.id
    ensures var after := stored.(size := local.size, chunks := local.chunks, mac := FileMac(local));
            after.mac == FileMac(after) <==> SamePlace(stored, local)
  {
    var after := stored.(size := local.size, chunks := local.chunks, mac := FileMac(local));
    assert TagsOf(after.chunks) == TagsOf(local.chunks);
  }

  /**
   The case in hand: the file was trashed after the handle last synced. `_sync` does not take up the trash
   state, so the next content commit leaves a trashed document under the tag of a live one.
   */
  lemma TrashedMeanwhileMisSigns(id: Id, tag: Tag, when: nat)
    ensures var local := FileDoc(id, None, None, 0, [], tag, None);
            var stored := local.(trashedAt := Some(when));
            var after := stored.(size := local.size, chunks := local.chunks, mac := FileMac(local));
            after.mac != FileMac(after)
  {
    var local := FileDoc(id, None, None, 0, [], tag, None);
    CommitVerifiesExactly(local.(trashedAt := Some(when)), local);
  }

  lemma CipherFacts(tr: StreamCipher, nonce: ByteString, data: ByteString)
    requires IsCipher(tr)
    ensures |tr(nonce, data)| == |data| && tr(nonce, tr(nonce, data)) == data
  {
  }

  // An uploaded chunk nothing references yet fits on the end of what is already there.
  lemma AppendedOk(cs: seq<Chunk>, c: Chunk, messages: map<MessageId, ByteString>, nonces: seq<ByteString>)
    requires DistinctIds(cs) && Backed(cs, messages) && Issued(cs, nonces)
    requires c.messageId !in Refs(cs) && ChunkBacked(c, messages) && ChunkIssued(c, nonces)
    ensures DistinctIds(cs + [c]) && Backed(cs + [c], messages) && Issued(cs + [c], nonces)
    ensures Refs(cs + [c]) == Refs(cs) + {c.messageId}
  {
    hide Refs, DistinctIds, ChunkBacked, ChunkIssued;
    RefsAppend(cs, c);
    forall i | 0 <= i < |cs + [c]| ensures BackedAt(cs + [c], i, messages) && IssuedAt(cs + [c], i, nonces) {
      if i < |cs| { assert BackedAt(cs, i, messages) && IssuedAt(cs, i, nonces); }
    }
  }

  lemma ReplacedOk(cs: seq<Chunk>, i: nat, c: Chunk, messages: map<MessageId, ByteString>, nonces: seq<ByteString>)
    requires DistinctIds(cs) && Backed(cs, messages) && Issued(cs, nonces) && i < |cs|
    requires c.messageId !in Refs(cs) && ChunkBacked(c, messages) && ChunkIssued(c, nonces)
    ensures DistinctIds(cs[i := c]) && Backed(cs[i := c], messages) && Issued(cs[i := c], nonces)
    ensures Refs(cs[i := c]) == (Refs(cs) - {cs[i].messageId}) + {c.messageId} && cs[i].messageId in Refs(cs)
  {
    hide Refs, DistinctIds, ChunkBacked, ChunkIssued;
    RefsReplace(cs, i, c);
    RefsSplit(cs, i);
    var all := cs[i := c];
    forall j | 0 <= j < |all| ensures BackedAt(all, j, messages) && IssuedAt(all, j, nonces) {
      assert BackedAt(cs, j, messages) && IssuedAt(cs, j, nonces);
    }
  }

  lemma OneBacked(cs: seq<Chunk>, i: nat, messages: map<MessageId, ByteString>)
    requires Backed(cs, messages) && i < |cs|
    ensures ChunkBacked(cs[i], messages)
  {
    assert BackedAt(cs, i, messages);
  }

  lemma PatchIsSplice(whole: ByteString, start: nat, piece: ByteString)
    requires start + |piece| <= |whole| && piece != []
    ensures whole[..start] + piece + whole[start + |piece|..] == Splice(whole, start, piece)
  {
    var x, y := whole[..start] + piece + whole[start + |piece|..], Splice(whole, start, piece);
    forall p | 0 <= p < |whole| ensures x[p] == y[p] {
      SpliceAt(whole, start, piece, p);
    }
  }

  // Re-uploading chunk `i` with `data` patched in from `pos` on changes just those bytes of the file.
  lemma PatchEffect(tr: StreamCipher, id: Id, cs: seq<Chunk>, size: nat, i: nat, pos: nat, data: ByteString)
    requires IsCipher(tr) && Contiguous(id, cs) && i < |cs| && data != []
    requires cs[i].offset <= pos < cs[i].offset + cs[i].size
    ensures |Plain(tr, cs[i])| == cs[i].size && cs[i].offset + cs[i].size <= CoveredEnd(cs)
    ensures var start := pos - cs[i].offset;
            var take := if |data| < cs[i].size - start then |data| else cs[i].size - start;
            var whole := Plain(tr, cs[i]);
            var patched := whole[..start] + data[..take] + whole[start + take..];
            Splice(Content(tr, cs, size), cs[i].offset, patched) == Splice(Content(tr, cs, size), pos, data[..take])
  {
    hide Flat, Splice, Content, Contiguous;
    var start := pos - cs[i].offset;
    var take := if |data| < cs[i].size - start then |data| else cs[i].size - start;
    var whole, v := Plain(tr, cs[i]), Content(tr, cs, size);
    FlatChunk(tr, id, cs, i);
    ContentLength(tr, id, cs, size);
    PatchIsSplice(whole, start, data[..take]);
    PieceOfChunk(Flat(tr, cs), v, cs[i].offset, whole, 0, cs[i].size);
    assert whole[..cs[i].size] == whole;
    SpliceWithin(v, cs[i].offset, whole, start, data[..take]);
  }

  lemma SpliceGap(seen: ByteString, off: nat, d: ByteString, m: nat)
    requires d != [] && (m == 0 || m == off)
    ensures Splice(Extend(seen, m), off, d) == Splice(seen, off, d)
  {
    if m == 0 {
      assert Extend(seen, 0) == seen;
    } else {
      SpliceOfExtended(seen, off, d);
    }
  }

  lemma TornExtended(committed: ByteString, seen: ByteString, off: nat, d: ByteString, m: nat, k: nat)
    requires |committed| <= |seen| && d != [] && k <= |d| && (m == 0 || m == off)
    ensures Torn(committed, seen, Splice(seen, off, d), Splice(Extend(seen, m), off, d[..k]))
  {
    TornOverwrite(committed, seen, off, d, m, k);
    if k > 0 {
      SpliceGap(seen, off, d[..k], m);
    }
  }

  // Cutting a list in two leaves two good lists with nothing in common.
  lemma CutOk(id: Id, cs: seq<Chunk>, n: nat, messages: map<MessageId, ByteString>, nonces: seq<ByteString>)
    requires Contiguous(id, cs) && DistinctIds(cs) && Backed(cs, messages) && Issued(cs, nonces) && n <= |cs|
    ensures Contiguous(id, cs[..n]) && DistinctIds(cs[..n]) && Backed(cs[..n], messages) && Issued(cs[..n], nonces)
    ensures CoveredEnd(cs[..n]) == StartOf(cs, n)
    ensures DistinctIds(cs[n..]) && Refs(cs[..n]) !! Refs(cs[n..]) && Refs(cs[..n]) + Refs(cs[n..]) == Refs(cs)
  {
    hide Refs, DistinctIds, ChunkBacked, ChunkIssued;
    ContiguousPrefix(id, cs, n);
    var init := cs[..n];
    forall i | 0 <= i < |init| ensures BackedAt(init, i, messages) && IssuedAt(init, i, nonces) {
      assert BackedAt(cs, i, messages) && IssuedAt(cs, i, nonces);
    }
    assert cs == cs[..n] + cs[n..];
    RefsConcat(cs[..n], cs[n..]);
  }

  lemma TrimOk(id: Id, cs: seq<Chunk>, n: nat, c: Chunk, messages: map<MessageId, ByteString>, nonces: seq<ByteString>)
    requires Contiguous(id, cs) && DistinctIds(cs) && Backed(cs, messages) && Issued(cs, nonces) && n < |cs|
    requires ChunkOk(id, c, n, StartOf(cs, n)) && c.messageId !in Refs(cs)
    requires ChunkBacked(c, messages) && ChunkIssued(c, nonces)
    ensures var keep, gone := cs[..n] + [c], cs[n + 1..] + [cs[n]];
            && Contiguous(id, keep) && DistinctIds(keep) && Backed(keep, messages) && Issued(keep, nonces)
            && CoveredEnd(keep) == StartOf(cs, n) + c.size
            && DistinctIds(gone) && Refs(keep) !! Refs(gone) && Refs(keep) + Refs(gone) == Refs(cs) + {c.messageId}
  {
    hide Refs, DistinctIds, Backed, Issued, ChunkBacked, ChunkIssued, Contiguous;
    var keep, gone := cs[..n] + [c], cs[n + 1..] + [cs[n]];
    CutOk(id, cs, n, messages, nonces);
    RefsSplit(cs, n);
    RefsOne(cs[n]);
    RefsConcat(cs[n + 1..], [cs[n]]);
    ContiguousAppend(id, cs[..n], c);
    AppendedOk(cs[..n], c, messages, nonces);
  }

  lemma ChunkShape(id: Id, cs: seq<Chunk>, i: nat)
    requires Contiguous(id, cs) && i < |cs|
    ensures cs[i].index == i && cs[i].offset == StartOf(cs, i) && 0 < cs[i].size <= MAX_CHUNK_SIZE
    ensures ChunkOk(id, cs[i], cs[i].index, cs[i].offset)
  {
    assert ChunkAt(id, cs, i);
  }

  lemma NothingLeft(a: set<MessageId>, b: set<MessageId>)
    ensures a - b == {} <==> a <= b
  {
    if a - b == {} {
      forall m | m in a ensures m in b {
        assert m !in a - b;
      }
    }
  }

  lemma EmptyFileOk(id: Id)
    ensures Contiguous(id, []) && CoveredEnd([]) == 0 && Refs([]) == {} && DistinctIds([])
    ensures forall nonces :: Issued([], nonces)
  {
  }

  lemma PieceOfChunk(flat: ByteString, v: ByteString, offset: nat, data: ByteString, start: nat, take: nat)
    requires flat <= v && offset + |data| <= |flat| && flat[offset..offset + |data|] == data
    requires start + take <= |data|
    ensures v[offset + start..offset + start + take] == data[start..start + take]
  {
    assert v[..|flat|] == flat;
    var x, y := v[offset + start..offset + start + take], data[start..start + take];
    forall p | 0 <= p < take ensures x[p] == y[p] {
      assert flat[offset..offset + |data|][start + p] == flat[offset + (start + p)];
      assert v[..|flat|][offset + (start + p)] == v[offset + (start + p)];
    }
  }

  // A chunk's plaintext is the stretch of the file its offset says.
  lemma ChunkPiece(tr: StreamCipher, id: Id, cs: seq<Chunk>, size: nat, i: nat)
    requires IsCipher(tr) && Contiguous(id, cs) && i < |cs|
    ensures |Plain(tr, cs[i])| == cs[i].size && cs[i].offset + cs[i].size <= |Content(tr, cs, size)|
    ensures Content(tr, cs, size)[cs[i].offset..cs[i].offset + cs[i].size] == Plain(tr, cs[i])
  {
    hide Flat, Plain, Content, Contiguous;
    FlatChunk(tr, id, cs, i);
    ContentLength(tr, id, cs, size);
    PieceOfChunk(Flat(tr, cs), Content(tr, cs, size), cs[i].offset, Plain(tr, cs[i]), 0, cs[i].size);
    assert Plain(tr, cs[i])[0..cs[i].size] == Plain(tr, cs[i]);
  }

  lemma HolePiece(v: ByteString, pos: nat, take: nat)
    requires pos + take <= |v| && forall p :: pos <= p < |v| ==> v[p] == 0
    ensures v[pos..pos + take] == Zeros(take)
  {
  }

  lemma PieceAt(v: ByteString, offset: nat, data: ByteString, start: nat, take: nat)
    requires offset + |data| <= |v| && v[offset..offset + |data|] == data && start + take <= |data|
    ensures v[offset + start..offset + start + take] == data[start..start + take]
  {
    var x, y := v[offset + start..offset + start + take], data[start..start + take];
    forall p | 0 <= p < take ensures x[p] == y[p] {
      assert v[offset..offset + |data|][start + p] == v[offset + (start + p)];
    }
  }

  // How many chunks so many bytes fill, the last one perhaps not quite.
  function ChunksFor(n: nat): nat { (n + MAX_CHUNK_SIZE - 1) / MAX_CHUNK_SIZE }

  // How many chunks so many buffered bytes give off.
  function FullChunks(n: nat): nat { n / MAX_CHUNK_SIZE }

  lemma OneFullFewer(n: nat)
    requires n >= MAX_CHUNK_SIZE
    ensures FullChunks(n) == 1 + FullChunks(n - MAX_CHUNK_SIZE)
  {
  }

  lemma NoneFull(n: nat)
    requires n < MAX_CHUNK_SIZE
    ensures FullChunks(n) == 0
  {
  }

  lemma NoChunks()
    ensures ChunksFor(0) == 0
  {
  }

  lemma OneChunkFewer(n: nat)
    requires n > 0
    ensures ChunksFor(n) == 1 + ChunksFor(if n < MAX_CHUNK_SIZE then 0 else n - MAX_CHUNK_SIZE)
  {
  }

  // The first `i` chunks of a resize: kept whole, dropped, and the one the new end falls inside.
  predicate Parted(cs: seq<Chunk>, i: nat, size: nat, keep: seq<Chunk>, drop: seq<Chunk>, straddler: Option<Chunk>) {
    && |keep| <= i <= |cs| && keep == cs[..|keep|] && StartOf(cs, |keep|) <= size
    && (straddler.None? ==> drop == cs[|keep|..i] && (drop != [] ==> StartOf(cs, |keep|) == size))
    && (straddler.Some? ==> |keep| < i && straddler.value == cs[|keep|] && drop == cs[|keep| + 1..i])
    && (straddler.Some? ==> StartOf(cs, |keep|) < size < StartOf(cs, |keep|) + straddler.value.size)
  }

  lemma PartedOn(id: Id, cs: seq<Chunk>, i: nat, size: nat, keep: seq<Chunk>, drop: seq<Chunk>, straddler: Option<Chunk>)
    requires Contiguous(id, cs) && i < |cs| && Parted(cs, i, size, keep, drop, straddler)
    ensures cs[i].offset >= size ==> Parted(cs, i + 1, size, keep, drop + [cs[i]], straddler)
    ensures cs[i].offset < size < cs[i].offset + cs[i].size ==> Parted(cs, i + 1, size, keep, drop, Some(cs[i]))
    ensures cs[i].offset < size && cs[i].offset + cs[i].size <= size ==> Parted(cs, i + 1, size, keep + [cs[i]], drop, straddler)
  {
    assert ChunkAt(id, cs, i);
    OffsetsAscend(id, cs, |keep|, i);
    if |keep| < i {
      assert ChunkAt(id, cs, |keep|);
      OffsetsAscend(id, cs, |keep| + 1, i);
    }
    assert cs[i].offset == StartOf(cs, i) && cs[i].size > 0;
    hide Contiguous, ChunkAt;
    if cs[i].offset >= size && straddler.Some? {
      assert drop + [cs[i]] == cs[|keep| + 1..i + 1];
    } else if cs[i].offset >= size {
      assert drop + [cs[i]] == cs[|keep|..i + 1];
    } else {
      assert |keep| == i;
      assert keep + [cs[i]] == cs[..i + 1];
    }
  }

  // ------------------------------------------------------------------ the chunk cache, an OrderedDict

  type Cache = seq<(nat, ByteString)> // oldest first

  function CacheFind(cache: Cache, key: nat): (r: Option<ByteString>)
    ensures r.Some? ==> (key, r.value) in cache
  {
    if cache == [] then None
    else if cache[0].0 == key then Some(cache[0].1)
    else CacheFind(cache[1..], key)
  }

  function CacheDrop(cache: Cache, key: nat): (r: Cache)
    ensures |r| <= |cache|
    ensures forall e :: e in r <==> e in cache && e.0 != key
    ensures (exists e :: e in cache && e.0 == key) ==> |r| < |cache|
  {
    if cache == [] then []
    else
      assert cache == [cache[0]] + cache[1..];
      if cache[0].0 == key then CacheDrop(cache[1..], key) else [cache[0]] + CacheDrop(cache[1..], key)
  }

  // `cache[key] = value` followed by `move_to_end(key)`.
  function CachePut(cache: Cache, key: nat, value: ByteString): Cache {
    CacheDrop(cache, key) + [(key, value)]
  }

  class DiscordFile {
    const backend: FileBackend
    const cipher: StreamCipher
    const readable: bool
    const writable: bool
    const appendMode: bool
    const createdByHandle: bool
    const target: Option<(Id, Name)>  // where a finished overwrite has to be put

    var node: FileDoc                   // this handle's copy of the document
    var buffer: ByteString
    var cache: Cache
    var closed: bool
    var failed: bool
    var nodeRemoved: Option<bool>       // `Some(false)` is what `stale_node` reports

    ghost predicate CacheOk()
      reads this`cache, this`node, this`nodeRemoved
    {
      && |cache| <= CHUNK_CACHE_SIZE
      && ((nodeRemoved.Some? && node.chunks == [])
          || forall e :: e in cache ==> e.0 < |node.chunks| && e.1 == Plain(cipher, node.chunks[e.0]))
    }

    // The local copy hangs together, whether or not it is the latest.
    ghost predicate ShapeOk()
      reads this
    {
      && IsCipher(cipher)
      && node.id == backend.id
      && Contiguous(node.id, node.chunks)
      && CoveredEnd(node.chunks) <= node.size
      && CacheOk()
      && (nodeRemoved.None? ==> MacCovers(node))
      && (nodeRemoved.Some? ==> failed && createdByHandle)
      && (!writable ==> buffer == [])
    }

    ghost predicate LocalOk()
      reads this
    {
      ShapeOk() && (!failed ==> |buffer| < MAX_CHUNK_SIZE)
    }

    // The writer's copy of the content is the stored one.
    ghost predicate SameContent()
      reads this, backend
    {
      && backend.node.Some? && backend.version.Some? && !backend.condemned
      && backend.node.value.chunks == node.chunks
      && backend.node.value.size == node.size
      && backend.node.value.trashedAt == node.trashedAt
    }

    ghost predicate Owns()
      reads this, backend
    {
      SameContent() && backend.Balanced()
    }

    // And so is its idea of the file's place and name.
    ghost predicate InStep()
      reads this, backend
    {
      Owns() && backend.version == Some(node.mac)
    }

    /**
     A copy of any age: with nothing buffered, another handle may have committed since. What such a handle
     still has to be right about is the trash state, which `_sync` does not take up.
     */
    ghost predicate Valid()
      reads this, backend
    {
      && LocalOk() && backend.Valid() && Issued(node.chunks, backend.nonces)
      && (writable && !failed ==> Follows() && (buffer != [] ==> Owns()))
      // Nobody else can reach a detached file, so nobody else renames it.
      && (writable && !failed && target.Some? ==> InStep())
    }

    // Everything uploaded is referenced, refused deletion, or reported as a stale node.
    ghost predicate Settled()
      reads this, backend
    {
      backend.Balanced() || nodeRemoved == Some(false)
    }

    /**
     Attachments are conserved: if every deletion goes through, Discord holds exactly what the stored document
     references whenever it did before, whatever else fails, unless the node is reported stale. And a file whose
     creator fails is gone, or so reported; the second only if some call of the unwinding failed.
     */
    twostate predicate Conserves()
      reads this, backend
    {
      && (old(Settled()) ==> Settled())
      && (old(backend.Exact()) && backend.refused == old(backend.refused)
          ==> backend.Exact() || nodeRemoved == Some(false))
      && Unwinds()
    }

    twostate predicate Unwinds()
      reads this, backend
    {
      && (nodeRemoved == Some(false) && old(nodeRemoved).None? ==> backend.faults > old(backend.faults))
      && (failed && !old(failed) && createdByHandle
          ==> nodeRemoved.Some? && (nodeRemoved == Some(true) ==> backend.node.None? && backend.version.None?))
    }

    twostate lemma Accounted()
      requires (old(Settled()) ==> Settled()) && backend.Onward() && Unwinds()
      ensures Conserves()
    {
    }

    // The file is still there for this handle to catch up with.
    ghost predicate Reachable()
      reads this, backend
    {
      backend.node.Some? && backend.version.Some? && !backend.condemned && nodeRemoved.None?
    }

    ghost predicate Follows()
      reads this, backend
    {
      Reachable() && backend.Balanced() && backend.node.value.trashedAt == node.trashedAt
    }

    ghost function Latest(): FileDoc
      reads this, backend
    {
      if backend.node.Some? && backend.version.Some? then backend.node.value else node
    }

    ghost function Committed(): ByteString
      reads this, backend
    {
      Content(cipher, Latest().chunks, Latest().size)
    }

    // The file as a client of this handle sees it.
    ghost function Visible(): ByteString
      reads this, backend
    {
      Splice(Committed(), CoveredEnd(Latest().chunks), if failed then [] else buffer)
    }

    // What this handle's copy says is committed.
    ghost function Local(): ByteString
      reads this`node
    {
      Content(cipher, node.chunks, node.size)
    }

    constructor (backend: FileBackend, cipher: StreamCipher, node: FileDoc, readable: bool, writable: bool,
                 appendMode: bool, createdByHandle: bool, target: Option<(Id, Name)>)
      requires IsCipher(cipher) && backend.Valid() && backend.Balanced() && !backend.condemned
      requires backend.node == Some(node) && backend.version == Some(node.mac)
      ensures Valid() && !failed && !closed && buffer == [] && nodeRemoved.None?
      ensures this.backend == backend && this.cipher == cipher && this.readable == readable
      ensures this.writable == writable && this.appendMode == appendMode && this.target == target
      ensures this.createdByHandle == createdByHandle && this.node == node
      ensures Visible() == Content(cipher, node.chunks, node.size)
    {
      this.backend, this.cipher, this.readable, this.writable := backend, cipher, readable, writable;
      this.appendMode, this.createdByHandle, this.target := appendMode, createdByHandle, target;
      this.node, this.buffer, this.cache := node, [], [];
      this.closed, this.failed, this.nodeRemoved := false, false, None;
    }

    // `_end_of_file`.
    function EndOfFile(): nat
      reads this
    {
      var end := CoveredEnd(node.chunks) + |buffer|;
      if node.size < end then end else node.size
    }

    // ---------------------------------------------------------------- keeping up with other handles

    method Sync() returns (r: Done)
      requires LocalOk() && backend.Valid() && Issued(node.chunks, backend.nonces)
      modifies this`node, this`cache, backend`version, backend`faults
      ensures LocalOk() && backend.Valid() && Issued(node.chunks, backend.nonces) && backend.Onward()
      ensures backend.version == old(backend.version) && (r.Ok? ==> backend.faults == old(backend.faults))
      ensures r.Ok? && backend.node.Some? && backend.version.Some? && nodeRemoved.None?
              ==> TagsOf(node.chunks) == TagsOf(backend.node.value.chunks)
                  && node.size == backend.node.value.size && backend.version == Some(node.mac)
      ensures r.Raised? ==> backend.faults > old(backend.faults) || (backend.version.Some? && backend.node.None?)
      ensures old(backend.version) == Some(old(node).mac) ==> r.Ok?
      ensures backend.version.None? || backend.node.None? || r.Raised?
              ==> node == old(node) && cache == old(cache)
      ensures old(Owns()) ==> Owns()
      ensures old(InStep()) ==> InStep()
      ensures old(Follows()) ==> Follows() && (r.Ok? ==> InStep())
      ensures old(Reachable()) && r.Ok? ==> backend.node.Some? && node.chunks == backend.node.value.chunks
    {
      hide Refs, DistinctIds, Backed, Flat, Issued, NoRepeat;
      var current := backend.version;
      if current.None? || current.value == node.mac {
        SameMacSameChunks();
        return Ok(());
      }
      var found := backend.Find();
      if found.Raised? {
        return Raised(Transport);
      }
      if found.value.None? {
        return Raised(NotFound);
      }
      var latest := found.value.value;
      assert latest.mac == FileMac(latest); // what `_verify_node` checks
      backend.version := Some(latest.mac);
      node := node.(size := latest.size, chunks := latest.chunks, mac := latest.mac,
                    parentId := latest.parentId, filename := latest.filename);
      cache := [];
      r := Ok(());
    }

    lemma StoredShape()
      requires backend.Valid() && backend.node.Some?
      ensures Contiguous(backend.id, backend.node.value.chunks) && backend.node.value.mac == FileMac(backend.node.value)
      ensures !backend.condemned ==> Backed(backend.node.value.chunks, backend.messages)
    {
    }

    // The version cache speaks of tags; a copy with the right tag is the right copy.
    lemma SameMacSameChunks()
      requires LocalOk() && backend.Valid() && Issued(node.chunks, backend.nonces)
      ensures Reachable() && backend.version == Some(node.mac)
              ==> node.chunks == backend.node.value.chunks && node.size == backend.node.value.size
    {
      hide Refs, DistinctIds, Backed, Flat, Issued, NoRepeat;
      if Reachable() && backend.version == Some(node.mac) {
        SameTagsSameChunks(node.id, node.chunks, backend.node.value.chunks, backend.nonces);
      }
    }

    // ---------------------------------------------------------------- reading

    // `bisect_right` over the chunk starts, then the bounds check.
    method LocateChunk(pos: int) returns (r: Option<nat>)
      requires Contiguous(node.id, node.chunks)
      ensures r.Some? ==> r.value < |node.chunks|
                          && node.chunks[r.value].offset <= pos < node.chunks[r.value].offset + node.chunks[r.value].size
      ensures r.None? ==> pos < 0 || CoveredEnd(node.chunks) <= pos
    {
      var chunks := node.chunks;
      if pos < 0 || chunks == [] {
        return None;
      }
      var lo, hi := 0, |chunks|;
      while lo < hi
        invariant 0 <= lo <= hi <= |chunks|
        invariant lo > 0 ==> chunks[lo - 1].offset <= pos
        invariant hi < |chunks| ==> pos < chunks[hi].offset
      {
        var mid := (lo + hi) / 2;
        if pos < chunks[mid].offset { hi := mid; } else { lo := mid + 1; }
      }
      assert ChunkAt(node.id, chunks, 0);
      if lo == 0 {
        return None;
      }
      var chunk := chunks[lo - 1];
      assert lo < |chunks| ==> ChunkAt(node.id, chunks, lo);
      if pos >= chunk.offset + chunk.size {
        return None;
      }
      r := Some(lo - 1);
    }

    method ChunkBytes(i: nat) returns (r: Outcome<ByteString, Error>)
      requires ShapeOk() && i < |node.chunks|
      modifies this`cache, backend`faults
      ensures CacheOk()
      ensures r.Ok? ==> r.value == Plain(cipher, node.chunks[i]) && (i, r.value) in cache
      ensures r.Raised? && ChunkBacked(node.chunks[i], backend.messages) ==> backend.faults > old(backend.faults)
      ensures backend.Onward()
    {
      hide Contiguous, MacCovers, Plain, ChunkOk, CoveredEnd;
      var cached := CacheFind(cache, i);
      if cached.Some? {
        cache := CachePut(cache, i, cached.value);
        return Ok(cached.value);
      }
      ChunkShape(node.id, node.chunks, i);
      var fetched := FetchChunk(node.chunks[i]);
      if fetched.Raised? {
        return fetched;
      }
      cache := CachePut(cache, i, fetched.value);
      while |cache| > CHUNK_CACHE_SIZE
        invariant backend.Onward()
        invariant |cache| > 0 && cache[|cache| - 1] == (i, fetched.value)
        invariant forall e :: e in cache ==> e.0 < |node.chunks| && e.1 == Plain(cipher, node.chunks[e.0])
      {
        cache := cache[1..];
      }
      r := fetched;
    }

    // `_fetch_chunk`: authenticated before it is decrypted, so wrong bytes never come out of it.
    method FetchChunk(chunk: Chunk) returns (r: Outcome<ByteString, Error>)
      requires ChunkOk(node.id, chunk, chunk.index, chunk.offset)
      modifies backend`faults
      ensures r.Ok? ==> r.value == Plain(cipher, chunk)
      ensures backend.Onward()
      ensures r.Raised? && ChunkBacked(chunk, backend.messages) ==> backend.faults > old(backend.faults)
    {
      var served := backend.Download(chunk.messageId);
      if served.None? {
        return Raised(Transport);
      }
      var actual := ChunkTag(chunk.nonce, served.value, node.id, chunk.index, chunk.offset, chunk.size);
      if chunk.hmac != actual {
        return Raised(Integrity);
      }
      r := Ok(cipher(chunk.nonce, served.value));
    }

    method ReadAt(offset: int, size: int) returns (r: Outcome<ByteString, Error>)
      requires Valid()
      modifies this, backend
      ensures Valid() && backend.Onward()
      ensures r.Ok? && nodeRemoved.None?
              ==> Visible() == old(Visible()) && r.value == Slice(old(Visible()), offset, size)
      ensures r.Raised? && backend.faults == old(backend.faults) ==> !readable || !old(Reachable())
      ensures r.Raised? && writable && !old(failed) && (!createdByHandle || !failed)
              ==> Committed() == old(Committed()) || Committed() == old(Visible())
      ensures old(buffer == [] || failed)
              ==> backend.node == old(backend.node) && backend.version == old(backend.version)
                  && backend.messages == old(backend.messages) && nodeRemoved == old(nodeRemoved)
      ensures Conserves()
    {
      hide Backed, Slice, DiscordFile.Valid, DiscordFile.Visible, DiscordFile.Committed, DiscordFile.Settled, DiscordFile.Reachable;
      hide DiscordFile.Owns, DiscordFile.Local, DiscordFile.Conserves, DiscordFile.Follows, FileBackend.Exact;
      r := Raised(Unsupported);
      if readable {
        var ready := CatchUp();
        if ready.Raised? {
          r := Raised(ready.error);
        } else {
          r := ReadReady(offset, size);
        }
      }
      Accounted();
    }

    // The reading itself: the cache may change, nothing else does.
    method ReadReady(offset: int, size: int) returns (r: Outcome<ByteString, Error>)
      requires Valid()
      modifies this`cache, backend`faults
      ensures Valid() && Visible() == old(Visible()) && Committed() == old(Committed()) && Local() == old(Local())
      ensures old(Settled()) ==> Settled()
      ensures r.Ok? ==> r.value == Slice(Local(), offset, size)
      ensures r.Raised? && Backed(node.chunks, backend.messages) ==> backend.faults > old(backend.faults)
      ensures backend.Onward()
    {
      hide Refs, DistinctIds, Backed, Flat, Content, Splice, Contiguous, Slice, Issued, NoRepeat;
      r := ReadLoop(offset, size);
    }

    // What `read_at` does before it reads: take up other handles' commits, flush our own bytes.
    method CatchUp() returns (r: Done)
      requires Valid()
      modifies this, backend
      ensures Valid() && backend.Onward()
      ensures r.Ok? ==> backend.faults == old(backend.faults) && (failed || buffer == [])
      ensures r.Ok? && nodeRemoved.None? ==> Local() == Committed() == Visible() == old(Visible())
      ensures r.Ok? && old(Reachable()) ==> Backed(node.chunks, backend.messages)
      ensures r.Raised? && backend.faults == old(backend.faults) ==> !old(Reachable())
      ensures writable && !old(failed) && (!createdByHandle || !failed)
              ==> Committed() == old(Committed()) || Committed() == old(Visible())
      ensures old(buffer == [] || failed)
              ==> backend.node == old(backend.node) && backend.version == old(backend.version)
                  && backend.messages == old(backend.messages) && nodeRemoved == old(nodeRemoved)
      ensures (old(Settled()) ==> Settled()) && Unwinds()
    {
      hide Refs, DistinctIds, Backed, Flat, Content, Splice, Contiguous, Issued, NoRepeat, FileBackend.Sound, MacCovers, FileBackend.Balanced;
      r := Sync();
      // Not on a failed handle: its buffered bytes were reported lost and must stay lost.
      if r.Ok? && buffer != [] && !failed {
        r := FlushBuffer();
      }
      if backend.node.Some? && backend.version.Some? && nodeRemoved.None? && r.Ok? {
        StoredShape();
        SameTagsSameContent(cipher, node.id, node.chunks, backend.node.value.chunks);
      }
    }

    method ReadLoop(offset: int, size: int) returns (r: Outcome<ByteString, Error>)
      requires ShapeOk()
      modifies this`cache, backend`faults
      ensures CacheOk()
      ensures r.Ok? ==> r.value == Slice(Local(), offset, size)
      ensures r.Raised? && Backed(node.chunks, backend.messages) ==> backend.faults > old(backend.faults)
      ensures backend.Onward()
    {
      hide Refs, DistinctIds, Backed, Flat, Issued, NoRepeat;
      ghost var v := Local();
      ContentLength(cipher, node.id, node.chunks, node.size);
      assert |v| == node.size;
      var out: ByteString := [];
      var pos, remaining := offset, size;
      while remaining > 0
        invariant CacheOk() && backend.Onward()
        invariant pos == offset + |out| && remaining == size - |out|
        invariant out == [] || (0 <= offset && pos <= |v| && out == v[offset..pos] && remaining >= 0)
        decreases remaining
      {
        if pos < 0 || pos >= node.size {
          break;
        }
        var piece := ReadPiece(pos, remaining);
        if piece.Raised? {
          return piece;
        }
        out := out + piece.value;
        pos := pos + |piece.value|;
        remaining := remaining - |piece.value|;
      }
      r := Ok(out);
    }

    // One turn of the loop in `read_at`: the rest of a chunk, or a stretch of the hole.
    method ReadPiece(pos: nat, remaining: nat) returns (r: Outcome<ByteString, Error>)
      requires ShapeOk() && pos < node.size && remaining > 0
      modifies this`cache, backend`faults
      ensures CacheOk()
      ensures r.Ok? ==> 0 < |r.value| <= remaining && pos + |r.value| <= |Local()|
                        && r.value == Local()[pos..pos + |r.value|]
      ensures r.Raised? && Backed(node.chunks, backend.messages) ==> backend.faults > old(backend.faults)
      ensures backend.Onward()
    {
      hide Refs, DistinctIds, Flat, Content, Contiguous, Issued, NoRepeat, Plain, MacCovers;
      ContentLength(cipher, node.id, node.chunks, node.size);
      var found := LocateChunk(pos);
      if found.None? {
        var take := if remaining < node.size - pos then remaining else node.size - pos;
        HolePiece(Local(), pos, take);
        return Ok(Zeros(take));
      }
      var chunk := node.chunks[found.value];
      var data := ChunkBytes(found.value);
      if data.Raised? {
        assert Backed(node.chunks, backend.messages) ==> BackedAt(node.chunks, found.value, backend.messages);
        return data;
      }
      var start := pos - chunk.offset;
      ChunkPiece(cipher, node.id, node.chunks, node.size, found.value);
      var take := if remaining < |data.value| - start then remaining else |data.value| - start;
      PieceAt(Local(), chunk.offset, data.value, start, take);
      r := Ok(data.value[start..start + take]);
    }

    // ---------------------------------------------------------------- committing

    method GenerateNonce() returns (nonce: ByteString)
      ensures |nonce| == NONCE_SIZE
    {
      assert |Zeros(NONCE_SIZE)| == NONCE_SIZE;
      nonce :| |nonce| == NONCE_SIZE;
    }

    // `_commit_content`, for the local document as it now stands.
    method CommitContent() returns (lands: bool)
      requires backend.Valid() && backend.node.Some? && !backend.condemned
      requires SamePlace(backend.node.value, node)
      requires Contiguous(node.id, node.chunks) && DistinctIds(node.chunks) && CoveredEnd(node.chunks) <= node.size
      requires Backed(node.chunks, backend.messages) && Issued(node.chunks, backend.nonces)
      modifies this`node, backend`node, backend`version, backend`alwaysSound, backend`faults
      ensures backend.Valid() && backend.Onward()
      ensures lands ==> backend.faults == old(backend.faults)
                        && node == old(node).(mac := FileMac(old(node)))
                        && backend.node == Some(old(backend.node).value.(size := node.size, chunks := node.chunks,
                                                                        mac := node.mac))
                        && backend.version == Some(node.mac)
      ensures !lands ==> backend.faults == old(backend.faults) + 1 && node == old(node)
                         && backend.node == old(backend.node) && backend.version == old(backend.version)
    {
      var mac := FileMac(node);
      lands := backend.UpdateContent(node.size, node.chunks, mac);
      if lands {
        node := node.(mac := mac);
        backend.version := Some(mac);
      }
    }

    // Being in step with the stored tag is being in step with the stored identity.
    lemma InStepPlace()
      requires InStep() && ShapeOk() && nodeRemoved.None? && backend.Valid()
      ensures SamePlace(backend.node.value, node)
    {
    }

    // ---------------------------------------------------------------- giving up

    // A writer in the middle of an operation, between two commits.
    ghost predicate Writing()
      reads this, backend
    {
      writable && ShapeOk() && backend.Valid() && InStep() && !failed && nodeRemoved.None?
    }

    // Where a write that failed part way leaves the handle; a stale node takes a failure of the unwinding as well.
    twostate predicate Broke()
      reads this, backend
    {
      GaveUp() && backend.faults > old(backend.faults) + (if nodeRemoved == Some(false) then 1 else 0)
    }

    twostate predicate GaveUp()
      reads this, backend
    {
      && failed && ShapeOk() && backend.Valid() && Settled() && backend.Onward()
      && Issued(node.chunks, backend.nonces)
      && (createdByHandle ==> nodeRemoved.Some?)
      && (nodeRemoved == Some(false) ==> backend.faults > old(backend.faults))
      && (nodeRemoved == Some(true) ==> backend.node.None? && backend.version.None?)
      && (!createdByHandle ==> nodeRemoved.None? && Owns())
    }

    method Rollback()
      requires ShapeOk() && backend.Valid()
      requires !failed ==> Follows()
      modifies this`failed, this`node, this`nodeRemoved, backend
      ensures failed && ShapeOk() && backend.Valid()
      ensures backend.Onward()
      ensures old(failed) || !createdByHandle
              ==> unchanged(backend) && node == old(node) && nodeRemoved == old(nodeRemoved)
      ensures !old(failed) && createdByHandle ==> nodeRemoved.Some? && Removed() && Issued(node.chunks, backend.nonces)
      ensures !old(failed) && createdByHandle && old(Owns()) ==> Settled()
      ensures !old(failed) && createdByHandle && backend.faults == old(backend.faults)
              ==> nodeRemoved == Some(true) && (old(backend.Exact() && SameContent()) ==> backend.Exact())
    {
      hide Refs, DistinctIds, Backed, Flat, Contiguous, Issued, NoRepeat;
      if !failed {
        failed := true;
        if createdByHandle {
          RemoveCreated();
          OwnerSettles();
          assert nodeRemoved == Some(if nodeRemoved.value then true else false);
        }
      }
    }

    /**
     A file this handle created, unwound: the attachments its copy knows of go, and on success the row, and
     the name out of the directory the copy names. All three come from the copy, which may be out of date.
     Only a call that failed meanwhile can make it a stale node.
     */
    twostate predicate Removed()
      reads this, backend
    {
      var left := old(backend.Live()) - Refs(old(node.chunks));
      && backend.messages.Keys == left + backend.orphaned && left !! backend.orphaned
      && (nodeRemoved == Some(true) ==> backend.node.None? && backend.version.None?)
      && (nodeRemoved == Some(false) ==> backend.faults > old(backend.faults))
      && (nodeRemoved == Some(true) && OrEmpty(old(node.parentId)) != []
          ==> backend.unnamed == Some((OrEmpty(old(node.parentId)), OrEmpty(old(node.filename)))))
    }

    // A copy that is up to date knows of every attachment.
    twostate lemma OwnerSettles()
      requires Removed() && nodeRemoved.Some? && old(backend.node).Some?
      ensures old(SameContent()) ==> Settled()
      ensures old(backend.Exact()) && backend.refused == old(backend.refused) && backend.Onward() && nodeRemoved == Some(true)
              ==> (backend.Exact() <==> old(backend.Live()) <= Refs(old(node.chunks)))
      ensures old(backend.Exact() && SameContent()) && backend.faults == old(backend.faults) && backend.Onward() ==> backend.Exact()
    {
      hide Refs;
      var live, known := old(backend.Live()), Refs(old(node.chunks));
      NothingLeft(live, known);
      if nodeRemoved.value {
        assert backend.Live() == {};
        assert backend.messages.Keys == (live - known) + backend.orphaned;
        if old(SameContent()) {
          assert live == known;
          assert backend.messages.Keys == {} + backend.orphaned;
        }
      }
    }

    // The unwinding of a file this handle made: its attachments, then its row, then its name in the parent.
    method RemoveCreated()
      requires ShapeOk() && backend.Valid() && Follows() && failed && createdByHandle
      modifies this`node, this`nodeRemoved, backend
      ensures ShapeOk() && backend.Valid() && backend.Onward()
      ensures nodeRemoved.Some? && Removed() && Issued(node.chunks, backend.nonces)
    {
      hide Refs, DistinctIds, Backed, Flat, Contiguous, MacCovers, Issued, NoRepeat, FileBackend.Sound;
      var parent, name := OrEmpty(node.parentId), OrEmpty(node.filename);
      var staged := false;
      if parent != [] {
        staged := backend.Elsewhere();
      }
      Condemn();
      Release(node.chunks, backend.Live() - Refs(node.chunks));
      EmptyFileOk(node.id);
      node := node.(chunks := [], size := 0);
      // Without a staged tag the row has to stay, or the parent would sign for a child that is gone.
      var removed := false;
      if staged || parent == [] {
        removed := DropRow(parent, name);
      }
      nodeRemoved := Some(removed);
    }

    method Condemn()
      requires backend.Valid()
      modifies backend`condemned
      ensures backend.Valid() && backend.condemned
    {
      backend.condemned := true;
    }

    method DropRow(parent: Id, name: Name) returns (removed: bool)
      requires backend.Valid() && backend.condemned
      modifies backend`node, backend`version, backend`alwaysSound, backend`faults, backend`unnamed
      ensures backend.Valid() && backend.Onward()
      ensures removed ==> backend.node.None? && backend.version.None?
                          && (parent != [] ==> backend.unnamed == Some((parent, name)))
      ensures !removed ==> backend.faults > old(backend.faults)
    {
      removed := backend.DeleteRow();
      if removed {
        backend.version := None;
        if parent != [] {
          removed := backend.Unname(parent, name);
        }
      }
    }

    // Delete attachments nothing references any more, one by one; a refusal leaves an orphan.
    method Release(chunks: seq<Chunk>, ghost live: set<MessageId>)
      requires backend.Valid()
      requires backend.node.Some? && !backend.condemned ==> Refs(backend.node.value.chunks) == live
      requires backend.messages.Keys == live + (Refs(chunks) * backend.messages.Keys) + backend.orphaned
      requires live !! Refs(chunks) && live !! backend.orphaned
      modifies backend`messages, backend`orphaned, backend`refused, backend`alwaysSound, backend`faults
      ensures backend.Valid() && backend.Onward()
      ensures backend.messages.Keys == live + backend.orphaned && live !! backend.orphaned
    {
      hide Refs, DistinctIds, Issued, NoRepeat, FileBackend.Sound;
      var i := 0;
      assert chunks[0..] == chunks;
      while i < |chunks|
        invariant 0 <= i <= |chunks| && backend.Valid() && backend.Onward()
        invariant live !! Refs(chunks[i..]) && live !! backend.orphaned
        invariant backend.messages.Keys == live + (Refs(chunks[i..]) * backend.messages.Keys) + backend.orphaned
      {
        RefsSplit(chunks, i);
        var gone := backend.Delete(chunks[i].messageId);
        i := i + 1;
      }
      EmptyFileOk(node.id);
      assert chunks[i..] == [];
    }

    // ---------------------------------------------------------------- writing

    method UploadChunk(data: ByteString) returns (r: Done)
      requires Writing() && |data| <= MAX_CHUNK_SIZE
      modifies this, backend
      ensures buffer == old(buffer) && closed == old(closed)
      ensures r.Ok? ==> Writing() && backend.Onward() && backend.faults == old(backend.faults)
                        && CoveredEnd(node.chunks) == old(CoveredEnd(node.chunks)) + |data|
                        && Local() == Splice(old(Local()), old(CoveredEnd(node.chunks)), data)
                        && |node.chunks| == old(|node.chunks|) + (if data == [] then 0 else 1)
      ensures r.Raised? ==> Broke()
      ensures r.Raised? && !createdByHandle ==> Local() == old(Local())
    {
      hide Refs, DistinctIds, Backed, Flat, Content, Splice, Contiguous, CoveredEnd, FileBackend.Sound, Issued, NoRepeat, MacCovers, DiscordFile.CacheOk;
      if data == [] {
        return Ok(());
      }
      InStepPlace();
      var sealed := Seal(|node.chunks|, CoveredEnd(node.chunks), data);
      var lands := false;
      if sealed.Some? {
        lands := CommitAppended(sealed.value);
      }
      if lands {
        r := Ok(());
      } else {
        Unwind(if sealed.Some? then Some(sealed.value.messageId) else None);
        r := Raised(Transport);
      }
    }

    // The chunk that got as far as Discord is released before the handle gives up.
    method Unwind(unreferenced: Option<MessageId>)
      requires writable && !failed && ShapeOk() && backend.Valid() && SameContent() && nodeRemoved.None?
      requires if unreferenced.None? then backend.Balanced() else backend.Floating(unreferenced.value)
      modifies this, backend
      ensures GaveUp() && buffer == old(buffer) && closed == old(closed)
      ensures !createdByHandle ==> node == old(node)
    {
      hide Refs, DistinctIds, Backed, Issued, NoRepeat, FileBackend.Sound, Contiguous, MacCovers, DiscordFile.CacheOk;
      if unreferenced.Some? {
        var gone := backend.Delete(unreferenced.value);
      }
      Rollback();
    }

    // Encrypt a chunk under a fresh nonce, tag it for its place, and put the ciphertext on Discord.
    method Seal(index: nat, offset: nat, data: ByteString) returns (r: Option<Chunk>)
      requires IsCipher(cipher) && node.id == backend.id && backend.Valid() && backend.Balanced()
      requires 0 < |data| <= MAX_CHUNK_SIZE
      modifies backend`messages, backend`nonces, backend`alwaysSound, backend`faults
      ensures backend.Valid() && backend.Onward()
      ensures r.None? ==> backend.messages == old(backend.messages) && backend.faults == old(backend.faults) + 1
      ensures r.Some? ==> ChunkOk(node.id, r.value, index, offset) && r.value.size == |data|
                          && Plain(cipher, r.value) == data && ChunkBacked(r.value, backend.messages)
                          && ChunkIssued(r.value, backend.nonces)
                          && backend.Floating(r.value.messageId) && backend.faults == old(backend.faults)
    {
      hide Refs, DistinctIds, Backed, FileBackend.Sound, Issued, NoRepeat;
      var nonce := GenerateNonce();
      var ciphertext := cipher(nonce, data);
      CipherFacts(cipher, nonce, data);
      var tag := ChunkTag(nonce, ciphertext, node.id, index, offset, |data|);
      var uploaded := backend.Upload(nonce, ciphertext);
      if uploaded.None? {
        return None;
      }
      r := Some(Chunk(index, uploaded.value, nonce, tag, offset, |data|));
    }

    // Put an uploaded chunk into the document and commit it, or take it back out of the local copy.
    method CommitAppended(chunk: Chunk) returns (lands: bool)
      requires ShapeOk() && nodeRemoved.None?
      requires backend.Valid() && SameContent() && SamePlace(backend.node.value, node)
      requires backend.version == Some(node.mac) && backend.Floating(chunk.messageId)
      requires ChunkOk(node.id, chunk, |node.chunks|, CoveredEnd(node.chunks))
      requires ChunkBacked(chunk, backend.messages) && ChunkIssued(chunk, backend.nonces)
      modifies this`node, backend`node, backend`version, backend`alwaysSound, backend`faults
      ensures ShapeOk() && backend.Valid() && backend.Onward()
      ensures !lands ==> node == old(node) && backend.node == old(backend.node) && backend.version == old(backend.version)
                         && backend.faults == old(backend.faults) + 1
      ensures lands ==> InStep() && backend.faults == old(backend.faults)
                        && CoveredEnd(node.chunks) == old(CoveredEnd(node.chunks)) + chunk.size
                        && Local() == Splice(old(Local()), old(CoveredEnd(node.chunks)), Plain(cipher, chunk))
                        && |node.chunks| == old(|node.chunks|) + 1
    {
      hide Refs, DistinctIds, Backed, Flat, Content, Splice, Issued, NoRepeat;
      var before := node;
      var end := CoveredEnd(before.chunks) + chunk.size;
      AppendedOk(before.chunks, chunk, backend.messages, backend.nonces);
      ContiguousAppend(node.id, before.chunks, chunk);
      node := node.(chunks := before.chunks + [chunk], size := if node.size < end then end else node.size);
      lands := CommitContent();
      if !lands {
        node := before;
        return;
      }
      AppendContent(cipher, node.id, before.chunks, before.size, chunk);
    }

    method FlushBuffer() returns (r: Done)
      requires Writing() && |buffer| < MAX_CHUNK_SIZE
      modifies this, backend
      ensures closed == old(closed)
      ensures r.Ok? ==> Writing() && backend.Onward() && backend.faults == old(backend.faults) && buffer == []
                        && CoveredEnd(node.chunks) == old(CoveredEnd(node.chunks) + |buffer|)
                        && Local() == old(Visible())
      ensures r.Raised? ==> Broke()
      ensures r.Raised? && !createdByHandle ==> Local() == old(Local())
    {
      hide Refs, DistinctIds, Backed, Flat, Issued, NoRepeat;
      if buffer != [] {
        r := UploadChunk(buffer);
        if r.Raised? {
          return;
        }
        buffer := [];
      }
      r := Ok(());
    }

    // `_append_now`: chunks right away, nothing buffered.
    method AppendNow(data: ByteString) returns (r: Done)
      requires Writing()
      modifies this, backend
      ensures buffer == old(buffer) && closed == old(closed)
      ensures r.Ok? ==> Writing() && backend.Onward() && backend.faults == old(backend.faults)
                        && CoveredEnd(node.chunks) == old(CoveredEnd(node.chunks)) + |data|
                        && Local() == Splice(old(Local()), old(CoveredEnd(node.chunks)), data)
                        && |node.chunks| == old(|node.chunks|) + ChunksFor(|data|)
      ensures r.Raised? ==> Broke()
      ensures r.Raised? && !createdByHandle
              ==> exists k: nat :: k <= |data| && Local() == Splice(old(Local()), old(CoveredEnd(node.chunks)), data[..k])
    {
      hide Refs, DistinctIds, Backed, Flat, Content, Splice, Contiguous, CoveredEnd, Issued, NoRepeat, DiscordFile.Local, Plain, MacCovers, DiscordFile.CacheOk, ChunksFor, FileBackend.Valid, FileBackend.Balanced;
      ghost var v, end := Local(), CoveredEnd(node.chunks);
      var rest := data;
      assert data[..0] == [];
      while rest != []
        invariant Writing() && backend.Onward() && backend.faults == old(backend.faults)
        invariant buffer == old(buffer) && closed == old(closed)
        invariant |rest| <= |data| && rest == data[|data| - |rest|..]
        invariant CoveredEnd(node.chunks) == end + (|data| - |rest|)
        invariant Local() == Splice(v, end, data[..|data| - |rest|])
        invariant |node.chunks| + ChunksFor(|rest|) == old(|node.chunks|) + ChunksFor(|data|)
      {
        ghost var done := |data| - |rest|;
        OneChunkFewer(|rest|);
        var take := if |rest| < MAX_CHUNK_SIZE then |rest| else MAX_CHUNK_SIZE;
        r := UploadChunk(rest[..take]);
        if r.Raised? {
          return;
        }
        SpliceConcat(v, end, data[..done], rest[..take]);
        assert data[..done] + rest[..take] == data[..done + take];
        rest := rest[take..];
      }
      assert data[..|data|] == data;
      NoChunks();
      r := Ok(());
    }

    // `_append`: buffer, and upload every full chunk the buffer then holds.
    method Append(data: ByteString) returns (r: Outcome<nat, Error>)
      requires Writing() && |buffer| < MAX_CHUNK_SIZE
      modifies this, backend
      ensures closed == old(closed)
      ensures r.Ok? ==> Writing() && |buffer| < MAX_CHUNK_SIZE && backend.Onward() && backend.faults == old(backend.faults)
                        && r.value == |data|
                        && Splice(Local(), CoveredEnd(node.chunks), buffer)
                           == Splice(old(Local()), old(CoveredEnd(node.chunks)), old(buffer) + data)
                        && |node.chunks| == old(|node.chunks|) + FullChunks(|old(buffer) + data|)
      ensures r.Raised? ==> Broke()
      ensures r.Raised? && !createdByHandle
              ==> exists k: nat :: k <= |old(buffer) + data|
                    && Local() == Splice(old(Local()), old(CoveredEnd(node.chunks)), (old(buffer) + data)[..k])
    {
      hide Refs, DistinctIds, Backed, Flat, Content, Splice, Contiguous, CoveredEnd, TagsOf, FileMac, FileBackend.Sound, Issued, NoRepeat, MacCovers, DiscordFile.CacheOk, DiscordFile.Local, Plain, FullChunks;
      hide FileBackend.Valid, FileBackend.Balanced, ChunkAt;
      ghost var v, end := Local(), CoveredEnd(node.chunks);
      buffer := buffer + data;
      ghost var all := buffer;
      assert all[..0] == [];
      while |buffer| >= MAX_CHUNK_SIZE
        invariant Writing() && backend.Onward() && backend.faults == old(backend.faults) && closed == old(closed)
        invariant |buffer| <= |all| && buffer == all[|all| - |buffer|..]
        invariant CoveredEnd(node.chunks) == end + (|all| - |buffer|)
        invariant Local() == Splice(v, end, all[..|all| - |buffer|])
        invariant |node.chunks| + FullChunks(|buffer|) == old(|node.chunks|) + FullChunks(|all|)
      {
        ghost var done := |all| - |buffer|;
        OneFullFewer(|buffer|);
        ghost var first := buffer[..MAX_CHUNK_SIZE];
        var uploaded := UploadChunk(buffer[..MAX_CHUNK_SIZE]);
        if uploaded.Raised? {
          return Raised(uploaded.error);
        }
        SpliceConcat(v, end, all[..done], first);
        assert all[..done] + first == all[..done + MAX_CHUNK_SIZE];
        buffer := buffer[MAX_CHUNK_SIZE..];
      }
      ghost var done := |all| - |buffer|;
      NoneFull(|buffer|);
      SpliceConcat(v, end, all[..done], buffer);
      assert all[..done] + buffer == all;
      r := Ok(|data|);
    }

    // `_replace_chunk`: same place, same length, fresh nonce; the old attachment goes only after the commit.
    method ReplaceChunk(i: nat, plaintext: ByteString) returns (r: Done)
      requires Writing() && i < |node.chunks| && |plaintext| == node.chunks[i].size
      requires exists e :: e in cache && e.0 == i
      modifies this, backend
      ensures Writing() && buffer == old(buffer) && closed == old(closed)
      ensures |node.chunks| == old(|node.chunks|) && node.size == old(node.size)
      ensures CoveredEnd(node.chunks) == old(CoveredEnd(node.chunks))
      ensures r.Ok? ==> Local() == Splice(old(Local()), old(node.chunks[i].offset), plaintext)
      ensures r.Raised? ==> node == old(node) && backend.node == old(backend.node) && backend.faults > old(backend.faults)
      ensures backend.Onward()
    {
      hide Refs, DistinctIds, Backed, Flat, Content, Splice, CoveredEnd, Contiguous, StartOf, FileBackend.Sound, Issued, NoRepeat;
      hide Plain, TagsOf, FileMac, ChunkOk;
      var before, chunk := node, node.chunks[i];
      ChunkShape(node.id, node.chunks, i);
      InStepPlace();
      var sealed := Seal(chunk.index, chunk.offset, plaintext);
      r := Raised(Transport);
      if sealed.Some? {
        var lands := SwapIn(i, sealed.value);
        if lands {
          Recache(i, plaintext, before.chunks);
          r := Ok(());
        }
      }
    }

    // The commit, and the deletion of whichever attachment is then referenced no more.
    method SwapIn(i: nat, c: Chunk) returns (lands: bool)
      requires ShapeOk() && nodeRemoved.None? && i < |node.chunks|
      requires backend.Valid() && SameContent() && SamePlace(backend.node.value, node)
      requires backend.version == Some(node.mac) && backend.Floating(c.messageId)
      requires ChunkOk(node.id, c, i, StartOf(node.chunks, i)) && c.size == node.chunks[i].size
      requires ChunkBacked(c, backend.messages) && ChunkIssued(c, backend.nonces)
      modifies this`node, backend
      ensures backend.Valid() && backend.Onward() && InStep()
      ensures Contiguous(node.id, node.chunks) && MacCovers(node) && node.id == old(node.id)
      ensures !lands ==> node == old(node) && backend.node == old(backend.node) && backend.faults > old(backend.faults)
      ensures lands ==> node == old(node).(chunks := old(node.chunks)[i := c], mac := node.mac)
                        && CoveredEnd(node.chunks) == old(CoveredEnd(node.chunks))
                        && Local() == Splice(old(Local()), old(node.chunks[i].offset), Plain(cipher, c))
    {
      hide Refs, DistinctIds, Backed, Issued, NoRepeat, Flat, Content, Splice, CoveredEnd, StartOf, FileBackend.Sound;
      hide Plain, TagsOf, FileMac, ChunkOk;
      var chunk := node.chunks[i];
      lands := CommitReplaced(i, c);
      var gone := backend.Delete(if lands then chunk.messageId else c.messageId);
    }

    method Recache(i: nat, plaintext: ByteString, ghost before: seq<Chunk>)
      requires |cache| <= CHUNK_CACHE_SIZE && exists e :: e in cache && e.0 == i
      requires forall e :: e in cache ==> e.0 < |before| && e.1 == Plain(cipher, before[e.0])
      requires i < |before| == |node.chunks| && node.chunks == before[i := node.chunks[i]]
      requires Plain(cipher, node.chunks[i]) == plaintext
      modifies this`cache
      ensures CacheOk()
    {
      cache := CachePut(cache, i, plaintext);
    }

    method CommitReplaced(i: nat, c: Chunk) returns (lands: bool)
      requires ShapeOk() && nodeRemoved.None? && i < |node.chunks|
      requires backend.Valid() && SameContent() && SamePlace(backend.node.value, node)
      requires backend.version == Some(node.mac) && backend.Floating(c.messageId)
      requires ChunkOk(node.id, c, i, StartOf(node.chunks, i)) && c.size == node.chunks[i].size
      requires ChunkBacked(c, backend.messages) && ChunkIssued(c, backend.nonces)
      modifies this`node, backend`node, backend`version, backend`alwaysSound, backend`faults
      ensures backend.Valid() && backend.Onward() && SameContent() && backend.version == Some(node.mac)
      ensures Contiguous(node.id, node.chunks) && MacCovers(node) && node.id == old(node.id)
      ensures !lands ==> node == old(node) && backend.node == old(backend.node) && backend.version == old(backend.version)
                         && backend.faults == old(backend.faults) + 1
      ensures lands ==> backend.faults == old(backend.faults)
                        && node == old(node).(chunks := old(node.chunks)[i := c], mac := node.mac)
                        && CoveredEnd(node.chunks) == old(CoveredEnd(node.chunks))
                        && backend.Floating(old(node.chunks[i]).messageId)
                        && Local() == Splice(old(Local()), old(node.chunks[i].offset), Plain(cipher, c))
    {
      hide Refs, DistinctIds, Flat, Content, Splice, Issued, NoRepeat;
      var before := node;
      ReplacedOk(before.chunks, i, c, backend.messages, backend.nonces);
      ContiguousReplace(node.id, before.chunks, i, c);
      node := node.(chunks := before.chunks[i := c]);
      lands := CommitContent();
      if !lands {
        node := before;
        return;
      }
      ReplaceContent(cipher, node.id, before.chunks, before.size, i, c);
    }

    // Overwrite the chunks `data` overlaps from `offset` on; says how many bytes that was.
    method PatchChunks(offset: nat, data: ByteString) returns (r: Outcome<nat, Error>)
      requires Writing() && offset <= CoveredEnd(node.chunks)
      modifies this, backend
      ensures Writing() && buffer == old(buffer) && closed == old(closed)
      ensures CoveredEnd(node.chunks) == old(CoveredEnd(node.chunks))
      ensures r.Ok? ==> r.value <= |data| && (r.value == |data| || offset + r.value == CoveredEnd(node.chunks))
                        && Local() == Splice(old(Local()), offset, data[..r.value])
      ensures backend.Onward() && (r.Raised? ==> backend.faults > old(backend.faults))
      ensures r.Raised?
              ==> exists k: nat :: k <= |data| && Local() == Splice(old(Local()), offset, data[..k])
    {
      hide Refs, DistinctIds, Backed, Flat, Content, Splice, CoveredEnd, Issued, NoRepeat;
      ghost var v := Local();
      var written := 0;
      assert data[..0] == [];
      while written < |data| && offset + written < CoveredEnd(node.chunks)
        invariant Writing() && buffer == old(buffer) && closed == old(closed)
        invariant CoveredEnd(node.chunks) == old(CoveredEnd(node.chunks))
        invariant 0 <= written <= |data| && offset + written <= CoveredEnd(node.chunks)
        invariant Local() == Splice(v, offset, data[..written])
        invariant backend.Onward()
      {
        var patched := PatchOne(offset + written, data[written..]);
        if patched.Raised? {
          return patched;
        }
        var take := patched.value;
        SpliceConcat(v, offset, data[..written], data[written..][..take]);
        assert data[..written] + data[written..][..take] == data[..written + take];
        written := written + take;
      }
      r := Ok(written);
    }

    // One turn of that loop: download, patch and replace the chunk under `pos`.
    method PatchOne(pos: nat, data: ByteString) returns (r: Outcome<nat, Error>)
      requires Writing() && pos < CoveredEnd(node.chunks) && data != []
      modifies this, backend
      ensures Writing() && buffer == old(buffer) && closed == old(closed)
      ensures CoveredEnd(node.chunks) == old(CoveredEnd(node.chunks))
      ensures r.Ok? ==> 0 < r.value <= |data| && pos + r.value <= CoveredEnd(node.chunks)
                        && Local() == Splice(old(Local()), pos, data[..r.value])
      ensures backend.Onward()
      ensures r.Raised? ==> backend.faults > old(backend.faults) && Local() == old(Local())
    {
      hide Refs, DistinctIds, Flat, Content, Splice, Issued, NoRepeat, Backed, Contiguous, CoveredEnd, MacCovers, Plain, ChunkBacked;
      var found := LocateChunk(pos);
      var i := found.value;
      var chunk := node.chunks[i];
      OneBacked(node.chunks, i, backend.messages);
      var bytes := ChunkBytes(i);
      if bytes.Raised? {
        return Raised(bytes.error);
      }
      PatchEffect(cipher, node.id, node.chunks, node.size, i, pos, data);
      var start := pos - chunk.offset;
      var take := if |data| < chunk.size - start then |data| else chunk.size - start;
      var patched := bytes.value[..start] + data[..take] + bytes.value[start + take..];
      var replaced := ReplaceChunk(i, patched);
      if replaced.Raised? {
        return Raised(replaced.error);
      }
      r := Ok(take);
    }

    // The file this handle would show if it committed right now.
    ghost function Pending(): ByteString
      reads this
    {
      Splice(Local(), CoveredEnd(node.chunks), buffer)
    }

    // `_write_random`.
    method WriteRandom(offset: nat, data: ByteString) returns (r: Outcome<nat, Error>)
      requires Writing() && |buffer| < MAX_CHUNK_SIZE && data != []
      modifies this, backend
      ensures closed == old(closed) && backend.Onward()
      ensures r.Ok? ==> Writing() && buffer == [] && r.value == |data|
                        && Local() == Splice(old(Pending()), offset, data)
      ensures r.Raised? ==> backend.faults > old(backend.faults) && (Broke() || Writing())
      ensures r.Raised? && !failed ==> |buffer| < MAX_CHUNK_SIZE
      ensures r.Raised? && (!failed || !createdByHandle)
              ==> Torn(old(Local()), old(Pending()), Splice(old(Pending()), offset, data), Local())
    {
      hide Refs, DistinctIds, Backed, Flat, Content, Splice, CoveredEnd, Contiguous, Torn, FileBackend.Sound, Issued, NoRepeat, MacCovers, DiscordFile.CacheOk, FileBackend.Valid, FileBackend.Balanced;
      ghost var seen := Pending();
      TornNothing(Local(), CoveredEnd(node.chunks), buffer, offset, data);
      var flushed := FlushBuffer();
      if flushed.Raised? {
        return Raised(flushed.error);
      }
      ghost var m := if offset > CoveredEnd(node.chunks) then offset else 0;
      var filled := FillGap(offset);
      if filled.Raised? {
        if !createdByHandle {
          ghost var k: nat :| k <= offset && Local() == Extend(seen, k);
          TornOverwrite(old(Local()), seen, offset, data, k, 0);
        }
        return Raised(filled.error);
      }
      r := Overlay(offset, data);
      if r.Ok? {
        SpliceGap(seen, offset, data, m);
      } else if !failed || !createdByHandle {
        ghost var k: nat :| k <= |data| && Local() == Splice(Extend(seen, m), offset, data[..k]);
        TornExtended(old(Local()), seen, offset, data, m, k);
      }
    }

    // The rest of `_write_random`, once there is data up to `offset`: patch, then extend.
    method Overlay(offset: nat, data: ByteString) returns (r: Outcome<nat, Error>)
      requires Writing() && buffer == [] && offset <= CoveredEnd(node.chunks)
      modifies this, backend
      ensures closed == old(closed) && buffer == [] && backend.Onward()
      ensures r.Ok? ==> Writing() && r.value == |data| && Local() == Splice(old(Local()), offset, data)
      ensures r.Raised? ==> backend.faults > old(backend.faults) && (Broke() || Writing())
      ensures r.Raised? && (!failed || !createdByHandle)
              ==> exists k: nat :: k <= |data| && Local() == Splice(old(Local()), offset, data[..k])
    {
      hide Refs, DistinctIds, Backed, Flat, Content, Splice, CoveredEnd, Contiguous, FileBackend.Sound, Issued, NoRepeat, FileBackend.Valid, FileBackend.Balanced;
      ghost var v := Local();
      r := PatchChunks(offset, data);
      if r.Ok? {
        var written := r.value;
        var rest := data[written..];
        assert data[..written] + rest == data;
        if written < |data| {
          var appended := AppendNow(rest);
          if appended.Raised? {
            if !createdByHandle {
              ghost var k: nat :| k <= |rest| && Local() == Splice(Splice(v, offset, data[..written]), offset + written, rest[..k]);
              SpliceConcat(v, offset, data[..written], rest[..k]);
              assert data[..written] + rest[..k] == data[..written + k];
            }
            return Raised(appended.error);
          }
          SpliceConcat(v, offset, data[..written], rest);
        } else {
          assert data[..written] == data;
        }
        r := Ok(|data|);
      }
    }

    // Only the tail can be a hole, so a gap before `offset` is filled with real zeros first.
    method FillGap(offset: nat) returns (r: Done)
      requires Writing() && buffer == []
      modifies this, backend
      ensures closed == old(closed) && buffer == []
      ensures r.Ok? ==> Writing() && backend.Onward() && offset <= CoveredEnd(node.chunks)
                        && Local() == Extend(old(Local()), if offset > old(CoveredEnd(node.chunks)) then offset else 0)
      ensures r.Raised? ==> Broke()
      ensures r.Raised? && !createdByHandle ==> exists k: nat :: k <= offset && Local() == Extend(old(Local()), k)
    {
      hide Refs, DistinctIds, Backed, Flat, Content, Splice, CoveredEnd, Contiguous, FileBackend.Sound, Issued, NoRepeat;
      ghost var v, end := Local(), CoveredEnd(node.chunks);
      ghost var cs, size := node.chunks, node.size;
      assert Extend(v, 0) == v;
      if offset <= CoveredEnd(node.chunks) {
        return Ok(());
      }
      r := AppendNow(Zeros(offset - CoveredEnd(node.chunks)));
      if r.Raised? {
        if !createdByHandle {
          ghost var k: nat :| k <= offset - end && Local() == Splice(v, end, Zeros(offset - end)[..k]);
          assert Zeros(offset - end)[..k] == Zeros(k);
          ZerosContent(cipher, node.id, cs, size, k);
          assert Local() == Extend(v, end + k);
        }
        return;
      }
      ZerosContent(cipher, node.id, cs, size, offset - end);
    }

    method WriteAt(offset: int, data: ByteString) returns (r: Outcome<nat, Error>)
      requires Valid()
      modifies this, backend
      ensures Valid() && closed == old(closed) && backend.Onward()
      ensures r.Ok? ==> r.value == |data| && !failed
      ensures r.Ok? && data == [] ==> Visible() == old(Visible())
      ensures r.Ok? && data != []
              ==> offset >= 0
                  && Visible() == Splice(old(Visible()), if appendMode then |old(Visible())| else offset, data)
      ensures r.Raised? && backend.faults == old(backend.faults)
              ==> !writable || old(failed) || (data != [] && offset < 0)
      ensures !writable || old(failed) || (data != [] && offset < 0)
              ==> r.Raised? && unchanged(this) && unchanged(backend)
      ensures r.Raised? && writable && !old(failed) && offset >= 0 && (!failed || !createdByHandle)
              ==> Follows() && Torn(old(Committed()), old(Visible()),
                                    Splice(old(Visible()), if appendMode then |old(Visible())| else offset, data), Committed())
      ensures writable && !failed && (old(Owns()) || (r.Ok? && data != [])) ==> Owns()
      ensures Conserves()
    {
      hide Refs, DistinctIds, Backed, Flat, Content, Splice, Contiguous, Torn, FileBackend.Sound, DiscordFile.Conserves, Issued, NoRepeat;
      if !writable {
        r := Raised(Unsupported);
      } else if failed {
        r := Raised(FailedState);
      } else if data == [] {
        r := Ok(0);
      } else if offset < 0 {
        r := Raised(Unsupported);
      } else {
        var synced := Sync();
        if synced.Raised? {
          TornNothing(old(Committed()), old(CoveredEnd(Latest().chunks)), old(buffer),
                      if appendMode then |old(Visible())| else offset, data);
          r := Raised(synced.error);
        } else {
          r := Place(offset, data);
        }
      }
      Accounted();
    }

    // The dispatch in `write_at`, once the handle is in step.
    method Place(offset: nat, data: ByteString) returns (r: Outcome<nat, Error>)
      requires Writing() && |buffer| < MAX_CHUNK_SIZE && data != []
      modifies this, backend
      ensures closed == old(closed) && backend.Onward()
      ensures r.Ok? ==> Writing() && |buffer| < MAX_CHUNK_SIZE && r.value == |data|
                        && Pending() == Splice(old(Pending()), if appendMode then |old(Pending())| else offset, data)
      ensures r.Raised? ==> backend.faults > old(backend.faults) && (Broke() || Writing())
      ensures r.Raised? && !failed ==> |buffer| < MAX_CHUNK_SIZE
      ensures r.Raised? && (!failed || !createdByHandle) ==>
                Torn(old(Local()), old(Pending()),
                     Splice(old(Pending()), if appendMode then |old(Pending())| else offset, data), Local())
    {
      hide Refs, DistinctIds, Backed, Flat, Content, Contiguous, Torn, FileBackend.Sound, Issued, NoRepeat, MacCovers, DiscordFile.CacheOk;
      ContentLength(cipher, node.id, node.chunks, node.size);
      assert EndOfFile() == |Pending()|;
      ghost var v, end, buffered := Local(), CoveredEnd(node.chunks), buffer;
      var at := if appendMode then EndOfFile() else offset;
      if at == CoveredEnd(node.chunks) + |buffer| {
        r := Append(data);
        SpliceConcat(v, end, buffered, data);
        if r.Raised? && !createdByHandle {
          ghost var k: nat :| k <= |buffered + data| && Local() == Splice(v, end, (buffered + data)[..k]);
          TornAppend(v, end, buffered, data, (buffered + data)[..k], (buffered + data)[k..]);
        }
      } else {
        r := WriteRandom(at, data);
      }
    }

    // ---------------------------------------------------------------- resizing

    // What a resize keeps whole, what it drops, and the one chunk the new end falls inside.
    method Partition(size: nat) returns (keep: seq<Chunk>, drop: seq<Chunk>, straddler: Option<Chunk>)
      requires Contiguous(node.id, node.chunks)
      ensures |keep| <= |node.chunks| && keep == node.chunks[..|keep|] && StartOf(node.chunks, |keep|) <= size
      ensures straddler.None? ==> drop == node.chunks[|keep|..]
                                  && (drop != [] ==> StartOf(node.chunks, |keep|) == size)
      ensures straddler.Some? ==> |keep| < |node.chunks| && straddler.value == node.chunks[|keep|]
                                  && drop == node.chunks[|keep| + 1..]
                                  && StartOf(node.chunks, |keep|) < size
                                     < StartOf(node.chunks, |keep|) + straddler.value.size
    {
      var chunks := node.chunks;
      keep, drop, straddler := [], [], None;
      for i := 0 to |chunks|
        invariant Parted(chunks, i, size, keep, drop, straddler)
      {
        var chunk := chunks[i];
        PartedOn(node.id, chunks, i, size, keep, drop, straddler);
        hide Parted;
        if chunk.offset >= size {
          drop := drop + [chunk];
        } else if chunk.offset + chunk.size > size {
          straddler := Some(chunk);
        } else {
          keep := keep + [chunk];
        }
      }
    }

    // A shorter copy of the straddling chunk, on Discord under a fresh nonce.
    method Trim(i: nat, size: nat) returns (r: Outcome<Chunk, Error>)
      requires Writing() && i < |node.chunks|
      requires StartOf(node.chunks, i) < size < StartOf(node.chunks, i) + node.chunks[i].size
      modifies backend`messages, backend`nonces, backend`alwaysSound, backend`faults
      ensures backend.Valid() && backend.Onward()
      ensures r.Raised? ==> backend.messages == old(backend.messages) && backend.faults > old(backend.faults)
      ensures r.Ok? ==> ChunkOk(node.id, r.value, i, StartOf(node.chunks, i))
                        && StartOf(node.chunks, i) + r.value.size == size
                        && r.value.size <= |Plain(cipher, node.chunks[i])|
                        && Plain(cipher, r.value) == Plain(cipher, node.chunks[i])[..r.value.size]
                        && ChunkBacked(r.value, backend.messages) && ChunkIssued(r.value, backend.nonces)
                        && backend.Floating(r.value.messageId)
    {
      hide Refs, DistinctIds, Flat, Content, Splice, Issued, NoRepeat;
      var chunk := node.chunks[i];
      assert ChunkAt(node.id, node.chunks, i) && BackedAt(node.chunks, i, backend.messages);
      PlainLength(cipher, chunk);
      var fetched := FetchChunk(chunk);
      if fetched.Raised? {
        return Raised(fetched.error);
      }
      var sealed := Seal(chunk.index, chunk.offset, fetched.value[..size - chunk.offset]);
      r := if sealed.None? then Raised(Transport) else Ok(sealed.value);
    }

    // Commit the shortened (or lengthened) list; the local copy goes back if the commit does not land.
    method CommitResized(chunks: seq<Chunk>, size: nat) returns (lands: bool)
      requires ShapeOk() && nodeRemoved.None? && backend.Valid() && SameContent()
      requires SamePlace(backend.node.value, node) && backend.version == Some(node.mac)
      requires Contiguous(node.id, chunks) && DistinctIds(chunks) && CoveredEnd(chunks) <= size
      requires Backed(chunks, backend.messages) && Issued(chunks, backend.nonces)
      modifies this`node, this`cache, backend`node, backend`version, backend`alwaysSound, backend`faults
      ensures ShapeOk() && backend.Valid() && backend.Onward() && SameContent() && backend.version == Some(node.mac)
      ensures lands ==> node == old(node).(chunks := chunks, size := size, mac := node.mac)
                        && backend.faults == old(backend.faults)
      ensures !lands ==> node == old(node) && backend.node == old(backend.node)
                         && backend.faults == old(backend.faults) + 1
    {
      hide Refs, DistinctIds, Backed, Flat, Content, Splice, Issued, NoRepeat;
      var before := node;
      node := node.(chunks := chunks, size := size);
      lands := CommitContent();
      if lands {
        // The caller of `_resize_node` drops its cache: indices are about to be handed out again.
        cache := [];
      } else {
        node := before;
      }
    }

    // `_resize_node`.
    method ResizeNode(size: int) returns (r: Done)
      requires Writing() && buffer == []
      modifies this`node, this`cache, backend
      ensures Writing() && backend.Onward()
      ensures r.Ok? ==> size >= 0 && Local() == Resized(old(Local()), size)
      ensures r.Raised? ==> node == old(node) && (size < 0 || backend.faults > old(backend.faults))
      ensures size < 0 ==> r.Raised? && unchanged(backend)
    {
      hide Resized, Content, FileBackend.Valid, DiscordFile.InStep, DiscordFile.ShapeOk;
      if size < 0 {
        r := Raised(NegativeSize);
      } else {
        r := ResizeTo(size);
      }
    }

    method ResizeTo(size: nat) returns (r: Done)
      requires Writing() && buffer == []
      modifies this`node, this`cache, backend
      ensures Writing() && backend.Onward()
      ensures r.Ok? ==> Local() == Resized(old(Local()), size)
      ensures r.Raised? ==> node == old(node) && backend.faults > old(backend.faults)
    {
      hide Refs, DistinctIds, Backed, Flat, Content, Splice, Contiguous, Resized, Issued, NoRepeat, MacCovers, DiscordFile.CacheOk;
      var keep, drop, straddler := Partition(size);
      if straddler.Some? {
        r := CutInside(|keep|, drop, straddler.value, size);
      } else {
        InStepPlace();
        CutContent(cipher, node.id, node.chunks, node.size, |keep|, size);
        CutOk(node.id, node.chunks, |keep|, backend.messages, backend.nonces);
        r := Shorten(keep, drop, size, None);
      }
    }

    // The new end falls inside chunk `n`: a shorter one takes its place.
    method CutInside(n: nat, drop: seq<Chunk>, straddler: Chunk, size: nat) returns (r: Done)
      requires Writing() && n < |node.chunks| && straddler == node.chunks[n] && drop == node.chunks[n + 1..]
      requires StartOf(node.chunks, n) < size < StartOf(node.chunks, n) + straddler.size
      modifies this`node, this`cache, backend
      ensures Writing() && backend.Onward()
      ensures r.Ok? ==> Local() == Resized(old(Local()), size)
      ensures r.Raised? ==> node == old(node) && backend.faults > old(backend.faults)
    {
      hide Refs, DistinctIds, Backed, Flat, Content, Splice, Contiguous, Resized, Issued, NoRepeat, MacCovers, DiscordFile.CacheOk;
      hide Plain, ChunkOk;
      InStepPlace();
      ghost var cs := node.chunks;
      var trimmed := Trim(n, size);
      if trimmed.Raised? {
        r := Raised(trimmed.error);
      } else {
        TrimContent(cipher, node.id, cs, node.size, n, trimmed.value, size);
        TrimOk(node.id, cs, n, trimmed.value, backend.messages, backend.nonces);
        r := Shorten(node.chunks[..n] + [trimmed.value], drop + [straddler], size, Some(trimmed.value.messageId));
      }
    }

    // The commit, and then the deletions it makes safe.
    method Shorten(chunks: seq<Chunk>, gone: seq<Chunk>, size: nat, replacement: Option<MessageId>) returns (r: Done)
      requires writable && !failed && ShapeOk() && nodeRemoved.None? && backend.Valid() && SameContent()
      requires SamePlace(backend.node.value, node) && backend.version == Some(node.mac)
      requires if replacement.None? then backend.Balanced() else backend.Floating(replacement.value)
      requires Contiguous(node.id, chunks) && DistinctIds(chunks) && CoveredEnd(chunks) <= size
      requires Backed(chunks, backend.messages) && Issued(chunks, backend.nonces) && DistinctIds(gone) && Refs(chunks) !! Refs(gone)
      requires Refs(chunks) + Refs(gone)
               == Refs(node.chunks) + if replacement.None? then {} else {replacement.value}
      modifies this`node, this`cache, backend
      ensures Writing() && backend.Onward()
      ensures r.Ok? ==> node.chunks == chunks && node.size == size
      ensures r.Raised? ==> node == old(node) && backend.faults > old(backend.faults)
    {
      hide Refs, DistinctIds, Backed, Flat, Content, Splice, Contiguous, FileBackend.Sound, Issued, NoRepeat, MacCovers, DiscordFile.CacheOk;
      var lands := CommitResized(chunks, size);
      if lands {
        Release(gone, Refs(chunks));
        r := Ok(());
      } else {
        if replacement.Some? {
          var dropped := backend.Delete(replacement.value);
        }
        r := Raised(Transport);
      }
    }

    method TruncateTo(size: int) returns (r: Done)
      requires Valid()
      modifies this, backend
      ensures Valid() && closed == old(closed) && backend.Onward()
      ensures r.Ok? ==> size >= 0 && buffer == [] && Owns() && Visible() == Resized(old(Visible()), size)
      ensures r.Raised? && backend.faults == old(backend.faults) ==> !writable || old(failed) || size < 0
      ensures !writable || old(failed) ==> r.Raised? && unchanged(this) && unchanged(backend)
      ensures size < 0 ==> r.Raised?
      ensures r.Raised? && writable && !old(failed) && (!failed || !createdByHandle)
              ==> Follows() && (old(Owns()) ==> Owns()) && (Committed() == old(Committed()) || Committed() == old(Visible()))
      ensures Conserves()
    {
      hide Refs, DistinctIds, Backed, Flat, Content, Splice, Contiguous, Resized, FileBackend.Sound, DiscordFile.Conserves, Issued, NoRepeat;
      if !writable {
        r := Raised(Unsupported);
      } else if failed {
        r := Raised(FailedState);
      } else {
        r := Sync();
        if r.Ok? {
          r := FlushBuffer();
        }
        if r.Ok? {
          r := ResizeNode(size);
        }
      }
      Accounted();
    }

    // ---------------------------------------------------------------- closing

    // `abort`: the buffered tail belongs to the write being abandoned.
    method Abort()
      requires Valid()
      modifies this, backend
      ensures Valid() && closed && backend.Onward()
      ensures old(closed) ==> unchanged(this) && unchanged(backend)
      ensures !old(closed) && writable ==> failed && buffer == []
      ensures !old(closed) && writable && !old(failed) && createdByHandle ==> nodeRemoved.Some? && Removed()
      ensures writable && !old(failed) && !createdByHandle ==> unchanged(backend) && Follows() && (old(Owns()) ==> Owns())
      ensures !createdByHandle || old(Owns()) ==> Conserves()
      ensures !old(closed) && writable && !old(failed) && createdByHandle && backend.faults == old(backend.faults)
              ==> nodeRemoved == Some(true) && backend.node.None? && backend.version.None?
                  && (OrEmpty(old(node.parentId)) != []
                      ==> backend.unnamed == Some((OrEmpty(old(node.parentId)), OrEmpty(old(node.filename)))))
                  && (old(backend.Exact() && SameContent()) ==> backend.Exact())
      ensures old(backend.Exact()) && backend.refused == old(backend.refused) && nodeRemoved == Some(true) != old(nodeRemoved)
              ==> (backend.Exact() <==> old(backend.Live()) <= Refs(old(node.chunks)))
    {
      hide Refs, DistinctIds, Backed, Flat, Content, Splice, Contiguous, FileBackend.Sound, Issued, NoRepeat;
      if closed {
        return;
      }
      closed := true;
      if !writable {
        return;
      }
      buffer := [];
      Rollback();
    }

    method Close() returns (r: Done)
      requires Valid()
      modifies this, backend
      ensures Valid() && closed && backend.Onward()
      ensures old(closed) || !writable || old(failed) ==> r.Ok? && unchanged(backend) && node == old(node)
      ensures r.Ok? && writable && !old(closed) && !old(failed)
              ==> Follows() && !failed && buffer == [] && Committed() == old(Visible())
                  && (old(Owns() || buffer != []) ==> Owns())
                  && (target.Some? ==> backend.node.value.parentId == Some(target.value.0)
                                       && backend.node.value.filename == Some(target.value.1))
      ensures r.Raised? ==> backend.faults > old(backend.faults)
      ensures r.Raised? && (!failed || !createdByHandle)
              ==> Owns() && (Committed() == old(Committed()) || Committed() == old(Visible()))
      ensures r.Raised? && target.Some? ==> failed
      ensures Conserves()
    {
      hide Refs, DistinctIds, Backed, Flat, Content, Splice, Contiguous, FileBackend.Sound, Issued, NoRepeat;
      r := Ok(());
      if !closed {
        closed := true;
        if writable && !failed {
          r := FlushOnClose();
          if r.Ok? && target.Some? {
            r := SwapOnClose();
          }
        }
      }
    }

    method FlushOnClose() returns (r: Done)
      requires Valid() && writable && !failed
      modifies this, backend
      ensures Valid() && closed == old(closed) && backend.Onward() && Conserves()
      ensures r.Ok? ==> Follows() && !failed && buffer == [] && Committed() == old(Visible())
                        && (old(Owns() || buffer != []) ==> Owns())
      ensures r.Raised? ==> backend.faults > old(backend.faults)
      ensures r.Raised? && target.Some? ==> failed
      ensures r.Raised? && (!failed || !createdByHandle)
              ==> Owns() && (Committed() == old(Committed()) || Committed() == old(Visible()))
    {
      hide Refs, DistinctIds, Backed, Flat, Content, Splice, Contiguous, Issued, NoRepeat, FileBackend.Sound;
      r := Ok(());
      // Only matters if there is something to place.
      if buffer != [] {
        r := Sync();
        if r.Ok? {
          r := FlushBuffer();
        }
      }
      Accounted();
    }

    method SwapOnClose() returns (r: Done)
      requires Valid() && writable && !failed && buffer == [] && target.Some?
      modifies this, backend
      ensures Valid() && closed == old(closed) && backend.Onward() && Conserves()
      ensures r.Ok? ==> Owns() && !failed && buffer == [] && Committed() == old(Committed())
                        && backend.node.value.parentId == Some(target.value.0)
                        && backend.node.value.filename == Some(target.value.1)
      ensures r.Raised? ==> backend.faults > old(backend.faults)
      ensures r.Raised? ==> failed
      ensures r.Raised? && (!failed || !createdByHandle) ==> Owns() && Committed() == old(Committed())
    {
      hide Refs, DistinctIds, Backed, Flat, Content, Splice, Contiguous, Issued, NoRepeat, FileBackend.Sound;
      r := FinishOverwrite(target.value.0, target.value.1);
      if r.Raised? {
        Rollback();
      }
      Accounted();
    }

    // The part of `_finish_overwrite` that touches this file; the directory's part is `Vfs.DiscordVfs.FinishOverwrite`.
    method FinishOverwrite(parentId: Id, filename: Name) returns (r: Done)
      requires Writing() && buffer == []
      modifies this`node, backend
      ensures Writing() && backend.Onward()
      ensures Local() == old(Local())
      ensures r.Ok? ==> backend.node.value.parentId == Some(parentId) && backend.node.value.filename == Some(filename)
      ensures r.Raised? ==> backend.faults > old(backend.faults)
    {
      hide Refs, DistinctIds, Backed, Flat, Content, Splice, Contiguous, Issued, NoRepeat;
      InStepPlace();
      var staged := backend.Elsewhere();
      if !staged {
        return Raised(Transport);
      }
      var lands := AttachHere(parentId, filename);
      if !lands {
        return Raised(Transport);
      }
      var promoted := backend.Elsewhere();
      r := if promoted then Ok(()) else Raised(Transport);
    }

    method AttachHere(parentId: Id, filename: Name) returns (lands: bool)
      requires Writing() && SamePlace(backend.node.value, node)
      modifies this`node, backend`node, backend`version, backend`alwaysSound, backend`faults
      ensures Writing() && backend.Onward() && Local() == old(Local())
      ensures lands ==> backend.node.value.parentId == Some(parentId) && backend.node.value.filename == Some(filename)
      ensures !lands ==> backend.faults > old(backend.faults)
    {
      hide Refs, DistinctIds, Backed, Flat, Content, Splice, Contiguous, Issued, NoRepeat;
      var attached := node.(parentId := Some(parentId), filename := Some(filename));
      attached := attached.(mac := FileMac(attached));
      lands := backend.Attach(parentId, filename, attached.mac);
      if lands {
        node := attached;
        backend.version := Some(attached.mac);
      }
    }
  }
}
