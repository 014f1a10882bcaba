/**
 What a stored file says its bytes are, and how the byte-array operations act on it.

 A file document holds an ordered list of chunks and a size. Its content is the chunks' plaintexts one
 after another and, if the size runs past them, zeros: the tail hole src/vfs.py describes at its head.
 */
module FileContent {
  import opened Wrappers
  import opened Bytes
  import opened Tags
  import CtrCipher

  const MAX_CHUNK_SIZE: nat := 9 * 1024 * 1024
  const NONCE_SIZE: nat := 16

  type MessageId = nat

  // `transform(key, nonce, data)` for one session key.
  type StreamCipher = (ByteString, ByteString) -> ByteString

  // All the model asks of it; `CtrIsCipher` shows AES-CTR delivers it.
  ghost predicate IsCipher(tr: StreamCipher) {
    forall nonce, data {:trigger tr(nonce, tr(nonce, data))} ::
      |tr(nonce, data)| == |data| && tr(nonce, tr(nonce, data)) == data
  }

  lemma CtrIsCipher(aes: CtrCipher.Cipher)
    ensures IsCipher((nonce, data) => CtrCipher.Transform(aes, nonce, data, 0))
  {
    forall nonce, data
      ensures |CtrCipher.Transform(aes, nonce, data, 0)| == |data|
      ensures CtrCipher.Transform(aes, nonce, CtrCipher.Transform(aes, nonce, data, 0), 0) == data
    {
      CtrCipher.TransformInverse(aes, nonce, data, 0);
    }
  }

  datatype Chunk = Chunk(index: nat, messageId: MessageId, nonce: ByteString, hmac: Tag, offset: nat, size: nat)

  datatype FileDoc = FileDoc(id: Id, parentId: Option<Id>, filename: Option<Name>, size: nat,
                             chunks: seq<Chunk>, mac: Tag, trashedAt: Option<nat>)

  // Python's `value or ""`.
  function OrEmpty(value: Option<ByteString>): ByteString {
    if value.Some? then value.value else []
  }

  // `_chunk_tags`; the chunks of a well-formed file are already in offset order.
  function TagsOf(cs: seq<Chunk>): (r: seq<Tag>)
    ensures |r| == |cs|
    ensures forall i :: 0 <= i < |cs| ==> r[i] == cs[i].hmac
  {
    seq(|cs|, i requires 0 <= i < |cs| => cs[i].hmac)
  }

  // `_file_mac`.
  function FileMac(doc: FileDoc): Tag {
    NodeTag(doc.id, OrEmpty(doc.parentId), OrEmpty(doc.filename), doc.size, TagsOf(doc.chunks), doc.trashedAt)
  }

  // ------------------------------------------------------------------ chunk lists

  // Where chunk `i` has to begin: right after the one before it.
  function StartOf(cs: seq<Chunk>, i: nat): nat
    requires i <= |cs|
  {
    if i == 0 then 0 else cs[i - 1].offset + cs[i - 1].size
  }

  // `_covered_end`.
  function CoveredEnd(cs: seq<Chunk>): nat { StartOf(cs, |cs|) }

  // Indexed by position, contiguous, sized, and carrying a tag over its own record.
  predicate ChunkOk(id: Id, c: Chunk, index: nat, offset: nat) {
    && c.index == index && c.offset == offset
    && 0 < c.size <= MAX_CHUNK_SIZE
    && |c.nonce| == NONCE_SIZE
    && c.hmac.ChunkTag?
    && c.hmac == ChunkTag(c.nonce, c.hmac.ciphertext, id, index, offset, c.size)
    && |c.hmac.ciphertext| == c.size
  }

  predicate ChunkAt(id: Id, cs: seq<Chunk>, i: nat)
    requires i < |cs|
  {
    ChunkOk(id, cs[i], i, StartOf(cs, i))
  }

  predicate Contiguous(id: Id, cs: seq<Chunk>) {
    forall i :: 0 <= i < |cs| ==> ChunkAt(id, cs, i)
  }

  // The attachments a chunk list references.
  function Refs(cs: seq<Chunk>): set<MessageId> {
    if cs == [] then {} else Refs(cs[..|cs| - 1]) + {cs[|cs| - 1].messageId}
  }

  predicate DistinctIds(cs: seq<Chunk>) {
    cs == [] || (DistinctIds(cs[..|cs| - 1]) && cs[|cs| - 1].messageId !in Refs(cs[..|cs| - 1]))
  }

  lemma RefsAppend(cs: seq<Chunk>, c: Chunk)
    ensures Refs(cs + [c]) == Refs(cs) + {c.messageId}
    ensures DistinctIds(cs + [c]) <==> DistinctIds(cs) && c.messageId !in Refs(cs)
  {
    assert (cs + [c])[..|cs|] == cs;
  }

  lemma {:induction false} RefsConcat(a: seq<Chunk>, b: seq<Chunk>)
    ensures Refs(a + b) == Refs(a) + Refs(b)
    ensures DistinctIds(a + b) ==> DistinctIds(a) && DistinctIds(b) && Refs(a) !! Refs(b)
    ensures DistinctIds(a) && DistinctIds(b) && Refs(a) !! Refs(b) ==> DistinctIds(a + b)
  {
    if b == [] {
      assert a + b == a;
    } else {
      var n := |b| - 1;
      RefsConcat(a, b[..n]);
      assert (a + b)[..|a| + n] == a + b[..n];
    }
  }

  lemma RefsOne(c: Chunk)
    ensures Refs([c]) == {c.messageId} && DistinctIds([c])
  {
    RefsAppend([], c);
    assert [] + [c] == [c];
  }

  /** Taking a list apart at one chunk takes its references apart too. */
  lemma RefsSplit(cs: seq<Chunk>, i: nat)
    requires i < |cs|
    ensures Refs(cs) == Refs(cs[..i]) + {cs[i].messageId} + Refs(cs[i + 1..])
    ensures Refs(cs[i..]) == {cs[i].messageId} + Refs(cs[i + 1..])
    ensures DistinctIds(cs) ==> cs[i].messageId !in Refs(cs[..i]) && cs[i].messageId !in Refs(cs[i + 1..])
                                && DistinctIds(cs[..i]) && DistinctIds(cs[i + 1..])
                                && Refs(cs[..i]) !! Refs(cs[i..])
  {
    assert cs == cs[..i] + cs[i..] && cs[i..] == [cs[i]] + cs[i + 1..];
    RefsConcat(cs[..i], cs[i..]);
    RefsConcat([cs[i]], cs[i + 1..]);
    RefsOne(cs[i]);
  }

  lemma ReplacedIs(cs: seq<Chunk>, i: nat, c: Chunk)
    requires i < |cs|
    ensures cs[i := c] == cs[..i] + ([c] + cs[i + 1..])
  {
  }

  lemma RefsReplace(cs: seq<Chunk>, i: nat, c: Chunk)
    requires i < |cs| && DistinctIds(cs) && c.messageId !in Refs(cs)
    ensures DistinctIds(cs[i := c])
    ensures Refs(cs[i := c]) == (Refs(cs) - {cs[i].messageId}) + {c.messageId}
  {
    hide Refs, DistinctIds;
    RefsSplit(cs, i);
    ReplacedIs(cs, i, c);
    RefsOne(c);
    RefsConcat([c], cs[i + 1..]);
    RefsConcat(cs[..i], [c] + cs[i + 1..]);
  }

  function Plain(tr: StreamCipher, c: Chunk): ByteString {
    if c.hmac.ChunkTag? then tr(c.nonce, c.hmac.ciphertext) else []
  }

  // The chunks' plaintexts, in order.
  function Flat(tr: StreamCipher, cs: seq<Chunk>): ByteString {
    if cs == [] then [] else Flat(tr, cs[..|cs| - 1]) + Plain(tr, cs[|cs| - 1])
  }

  function Zeros(n: nat): (z: ByteString)
    ensures |z| == n
    ensures forall i :: 0 <= i < n ==> z[i] == 0
  {
    seq(n, _ => 0)
  }

  // The committed content: data, then the hole.
  function Content(tr: StreamCipher, cs: seq<Chunk>, size: nat): (v: ByteString) {
    var data := Flat(tr, cs);
    data + Zeros(if |data| < size then size - |data| else 0)
  }

  lemma {:induction false} OffsetsAscend(id: Id, cs: seq<Chunk>, i: nat, j: nat)
    requires Contiguous(id, cs) && i <= j <= |cs|
    ensures StartOf(cs, i) + (j - i) <= StartOf(cs, j)
    decreases j
  {
    if i < j {
      assert ChunkAt(id, cs, j - 1);
      OffsetsAscend(id, cs, i, j - 1);
    }
  }

  lemma ContiguousPrefix(id: Id, cs: seq<Chunk>, n: nat)
    requires Contiguous(id, cs) && n <= |cs|
    ensures Contiguous(id, cs[..n])
  {
    forall i | 0 <= i < n ensures ChunkAt(id, cs[..n], i) {
      assert ChunkAt(id, cs, i);
      assert StartOf(cs[..n], i) == StartOf(cs, i);
    }
  }

  lemma ContiguousAppend(id: Id, cs: seq<Chunk>, c: Chunk)
    requires Contiguous(id, cs) && ChunkOk(id, c, |cs|, CoveredEnd(cs))
    ensures Contiguous(id, cs + [c]) && CoveredEnd(cs + [c]) == CoveredEnd(cs) + c.size
  {
    var all := cs + [c];
    forall i | 0 <= i < |all| ensures ChunkAt(id, all, i) {
      assert StartOf(all, i) == StartOf(cs, i);
      if i < |cs| { assert ChunkAt(id, cs, i); }
    }
  }

  lemma ContiguousReplace(id: Id, cs: seq<Chunk>, i: nat, c: Chunk)
    requires Contiguous(id, cs) && i < |cs| && ChunkOk(id, c, i, StartOf(cs, i)) && c.size == cs[i].size
    ensures Contiguous(id, cs[i := c]) && CoveredEnd(cs[i := c]) == CoveredEnd(cs)
  {
    var all := cs[i := c];
    assert ChunkAt(id, cs, i);
    forall j | 0 <= j <= |all| ensures StartOf(all, j) == StartOf(cs, j) {
    }
    forall j | 0 <= j < |all| ensures ChunkAt(id, all, j) {
      assert ChunkAt(id, cs, j);
    }
  }

  lemma {:induction false} FlatLength(tr: StreamCipher, id: Id, cs: seq<Chunk>)
    requires IsCipher(tr) && Contiguous(id, cs)
    ensures |Flat(tr, cs)| == CoveredEnd(cs)
  {
    if cs != [] {
      var n := |cs| - 1;
      ContiguousPrefix(id, cs, n);
      FlatLength(tr, id, cs[..n]);
      assert ChunkAt(id, cs, n);
      assert CoveredEnd(cs[..n]) == StartOf(cs, n);
      PlainLength(tr, cs[n]);
    }
  }

  lemma PlainLength(tr: StreamCipher, c: Chunk)
    requires IsCipher(tr) && c.hmac.ChunkTag?
    ensures |Plain(tr, c)| == |c.hmac.ciphertext|
  {
    assert |tr(c.nonce, tr(c.nonce, c.hmac.ciphertext))| == |c.hmac.ciphertext|;
  }

  lemma FlatAppend(tr: StreamCipher, cs: seq<Chunk>, c: Chunk)
    ensures Flat(tr, cs + [c]) == Flat(tr, cs) + Plain(tr, c)
  {
    assert (cs + [c])[..|cs|] == cs;
  }

  lemma {:induction false} FlatPrefix(tr: StreamCipher, id: Id, cs: seq<Chunk>, n: nat)
    requires IsCipher(tr) && Contiguous(id, cs) && n <= |cs|
    ensures StartOf(cs, n) <= |Flat(tr, cs)|
    ensures Flat(tr, cs[..n]) == Flat(tr, cs)[..StartOf(cs, n)]
    decreases |cs|
  {
    FlatLength(tr, id, cs);
    OffsetsAscend(id, cs, n, |cs|);
    if n < |cs| {
      var m := |cs| - 1;
      ContiguousPrefix(id, cs, m);
      FlatPrefix(tr, id, cs[..m], n);
      assert cs[..m][..n] == cs[..n];
      assert StartOf(cs[..m], n) == StartOf(cs, n);
      assert Flat(tr, cs)[..StartOf(cs, n)] == Flat(tr, cs[..m])[..StartOf(cs, n)];
    } else {
      assert cs[..n] == cs;
    }
  }

  /** Chunk `i` is where its offset says, and nowhere else. */
  lemma FlatChunk(tr: StreamCipher, id: Id, cs: seq<Chunk>, i: nat)
    requires IsCipher(tr) && Contiguous(id, cs) && i < |cs|
    ensures cs[i].offset == StartOf(cs, i) && |Plain(tr, cs[i])| == cs[i].size
    ensures cs[i].offset + cs[i].size <= |Flat(tr, cs)| == CoveredEnd(cs)
    ensures Flat(tr, cs)[cs[i].offset..cs[i].offset + cs[i].size] == Plain(tr, cs[i])
  {
    assert ChunkAt(id, cs, i);
    FlatLength(tr, id, cs);
    PlainLength(tr, cs[i]);
    FlatPrefix(tr, id, cs, i);
    FlatPrefix(tr, id, cs, i + 1);
    assert cs[..i + 1] == cs[..i] + [cs[i]];
    FlatAppend(tr, cs[..i], cs[i]);
    assert StartOf(cs, i + 1) == cs[i].offset + cs[i].size;
  }

  lemma {:induction false} FlatReplace(tr: StreamCipher, id: Id, cs: seq<Chunk>, i: nat, c: Chunk)
    requires IsCipher(tr) && Contiguous(id, cs) && i < |cs|
    requires ChunkOk(id, c, i, StartOf(cs, i)) && c.size == cs[i].size
    ensures Flat(tr, cs[i := c]) == Splice(Flat(tr, cs), cs[i].offset, Plain(tr, c))
    decreases |cs|
  {
    var n := |cs| - 1;
    var init, last := cs[..n], cs[n];
    FlatChunk(tr, id, cs, i);
    PlainLength(tr, c);
    ContiguousPrefix(id, cs, n);
    FlatLength(tr, id, init);
    if i == n {
      assert cs[i := c] == init + [c];
      FlatAppend(tr, init, c);
      SpliceLast(Flat(tr, init), Plain(tr, last), Plain(tr, c));
    } else {
      assert StartOf(init, i) == StartOf(cs, i);
      FlatReplace(tr, id, init, i, c);
      FlatChunk(tr, id, init, i);
      assert cs[i := c] == init[i := c] + [last];
      FlatAppend(tr, init[i := c], last);
      SpliceLeft(Flat(tr, init), cs[i].offset, Plain(tr, c), Plain(tr, last));
    }
  }

  lemma SpliceLast(v: ByteString, w: ByteString, d: ByteString)
    requires |w| == |d|
    ensures Splice(v + w, |v|, d) == v + d
  {
    if d != [] {
      var x := Splice(v + w, |v|, d);
      forall p | 0 <= p < |x| ensures x[p] == (v + d)[p] {
        SpliceAt(v + w, |v|, d, p);
      }
    }
  }

  /** The tags fix the content: two well-formed lists with equal tags hold equal bytes at equal places. */
  lemma {:induction false} SameTagsSameContent(tr: StreamCipher, id: Id, a: seq<Chunk>, b: seq<Chunk>)
    requires Contiguous(id, a) && Contiguous(id, b) && TagsOf(a) == TagsOf(b)
    ensures |a| == |b| && Flat(tr, a) == Flat(tr, b) && CoveredEnd(a) == CoveredEnd(b)
    ensures forall size: nat :: Content(tr, a, size) == Content(tr, b, size)
    ensures forall i :: 0 <= i < |a| ==> a[i].(messageId := 0) == b[i].(messageId := 0)
  {
    assert |a| == |TagsOf(a)| == |b|;
    forall i | 0 <= i < |a| ensures a[i].(messageId := 0) == b[i].(messageId := 0) {
      assert ChunkAt(id, a, i) && ChunkAt(id, b, i);
      assert TagsOf(a)[i] == TagsOf(b)[i];
    }
    if a != [] {
      var n := |a| - 1;
      ContiguousPrefix(id, a, n);
      ContiguousPrefix(id, b, n);
      assert TagsOf(a[..n]) == TagsOf(a)[..n] && TagsOf(b[..n]) == TagsOf(b)[..n];
      SameTagsSameContent(tr, id, a[..n], b[..n]);
      assert a[n].(messageId := 0) == b[n].(messageId := 0);
    }
  }

  // ------------------------------------------------------------------ the flat byte array

  // A write: zero-extend up to `off` if need be, then overlay `d`.
  function Splice(v: ByteString, off: nat, d: ByteString): (r: ByteString)
    ensures d != [] ==> |r| == (if |v| < off + |d| then off + |d| else |v|)
    ensures d == [] ==> r == v
  {
    if d == [] then v
    else Extend(v, off)[..off] + d + (if off + |d| < |v| then v[off + |d|..] else [])
  }

  // Zero-extended to at least `n` bytes.
  function Extend(v: ByteString, n: nat): (r: ByteString)
    ensures |r| == (if |v| < n then n else |v|)
  {
    v + Zeros(if |v| < n then n - |v| else 0)
  }

  // `ftruncate`.
  function Resized(v: ByteString, n: nat): (r: ByteString)
    ensures |r| == n
  {
    if n <= |v| then v[..n] else Extend(v, n)
  }

  // A read.
  function Slice(v: ByteString, off: int, n: int): ByteString {
    if off < 0 || off >= |v| || n <= 0 then []
    else v[off..if off + n < |v| then off + n else |v|]
  }

  // The bytes asked for that are there, and no others.
  lemma SliceAt(v: ByteString, off: int, n: int, i: nat)
    ensures i < |Slice(v, off, n)| <==> 0 <= off && i < n && off + i < |v|
    ensures i < |Slice(v, off, n)| ==> Slice(v, off, n)[i] == v[off + i]
  {
  }

  // Up to the new end as it was, and zeros after the old one.
  lemma ResizedAt(v: ByteString, n: nat, p: nat)
    requires p < n
    ensures Resized(v, n)[p] == if p < |v| then v[p] else 0
  {
  }

  lemma SpliceAt(v: ByteString, off: nat, d: ByteString, p: nat)
    requires p < |Splice(v, off, d)|
    ensures Splice(v, off, d)[p]
            == if off <= p < off + |d| then d[p - off] else if p < |v| then v[p] else 0
  {
  }

  lemma SpliceLeft(v: ByteString, off: nat, d: ByteString, w: ByteString)
    requires off + |d| <= |v|
    ensures Splice(v + w, off, d) == Splice(v, off, d) + w
  {
    var a, b := Splice(v + w, off, d), Splice(v, off, d) + w;
    forall p | 0 <= p < |a| ensures a[p] == b[p] {
      SpliceAt(v + w, off, d, p);
      if p < |v| { SpliceAt(v, off, d, p); }
    }
  }

  /** Writing two pieces back to back is writing their concatenation. */
  lemma SpliceConcat(v: ByteString, off: nat, a: ByteString, b: ByteString)
    ensures Splice(Splice(v, off, a), off + |a|, b) == Splice(v, off, a + b)
  {
    var x, y := Splice(Splice(v, off, a), off + |a|, b), Splice(v, off, a + b);
    if a == [] {
      assert a + b == b;
    } else if b == [] {
      assert a + b == a;
    } else {
      assert |x| == |y|;
      forall p | 0 <= p < |x| ensures x[p] == y[p] {
        SpliceAt(Splice(v, off, a), off + |a|, b, p);
        SpliceAt(v, off, a + b, p);
        if p < |Splice(v, off, a)| { SpliceAt(v, off, a, p); }
      }
      assert x == y;
    }
  }

  /** Rewriting a whole chunk with one piece of it changed is writing that piece. */
  lemma SpliceWithin(v: ByteString, off: nat, whole: ByteString, start: nat, piece: ByteString)
    requires start + |piece| <= |whole| && off + |whole| <= |v| && v[off..off + |whole|] == whole
    ensures Splice(v, off, Splice(whole, start, piece)) == Splice(v, off + start, piece)
  {
    hide Splice;
    var d := Splice(whole, start, piece);
    var x, y := Splice(v, off, d), Splice(v, off + start, piece);
    if piece == [] {
      forall p | 0 <= p < |x| ensures x[p] == v[p] {
        SpliceAt(v, off, d, p);
        if off <= p < off + |whole| { assert v[p] == v[off..off + |whole|][p - off]; }
      }
    } else {
      forall p | 0 <= p < |x| ensures x[p] == y[p] {
        SpliceAt(v, off, d, p);
        SpliceAt(v, off + start, piece, p);
        if off <= p < off + |whole| {
          SpliceAt(whole, start, piece, p - off);
          assert v[p] == v[off..off + |whole|][p - off];
        }
      }
    }
  }

  lemma SpliceOfExtended(v: ByteString, off: nat, d: ByteString)
    ensures d != [] ==> Splice(Extend(v, off), off, d) == Splice(v, off, d)
  {
    if d != [] {
      var x, y := Splice(Extend(v, off), off, d), Splice(v, off, d);
      forall p | 0 <= p < |x| ensures x[p] == y[p] {
        SpliceAt(Extend(v, off), off, d, p);
        SpliceAt(v, off, d, p);
      }
    }
  }

  // ------------------------------------------------------------------ how commits act on it

  lemma ContentLength(tr: StreamCipher, id: Id, cs: seq<Chunk>, size: nat)
    requires IsCipher(tr) && Contiguous(id, cs)
    ensures |Content(tr, cs, size)| == if CoveredEnd(cs) < size then size else CoveredEnd(cs)
    ensures forall p :: CoveredEnd(cs) <= p < |Content(tr, cs, size)| ==> Content(tr, cs, size)[p] == 0
    ensures Content(tr, cs, size)[..CoveredEnd(cs)] == Flat(tr, cs)
  {
    FlatLength(tr, id, cs);
  }

  /** A new chunk at the end of the data is a write there; over a hole, it fills it from the left. */
  lemma AppendContent(tr: StreamCipher, id: Id, cs: seq<Chunk>, size: nat, c: Chunk)
    requires IsCipher(tr) && Contiguous(id, cs) && ChunkOk(id, c, |cs|, CoveredEnd(cs))
    ensures var end := CoveredEnd(cs) + c.size;
            Content(tr, cs + [c], if size < end then end else size)
            == Splice(Content(tr, cs, size), CoveredEnd(cs), Plain(tr, c))
  {
    var end := CoveredEnd(cs) + c.size;
    var x := Content(tr, cs + [c], if size < end then end else size);
    var y := Splice(Content(tr, cs, size), CoveredEnd(cs), Plain(tr, c));
    PlainLength(tr, c);
    FlatAppend(tr, cs, c);
    ContiguousAppend(id, cs, c);
    FlatLength(tr, id, cs);
    assert |x| == |y|;
    forall p | 0 <= p < |x| ensures x[p] == y[p] {
      SpliceAt(Content(tr, cs, size), CoveredEnd(cs), Plain(tr, c), p);
    }
  }

  lemma ReplaceContent(tr: StreamCipher, id: Id, cs: seq<Chunk>, size: nat, i: nat, c: Chunk)
    requires IsCipher(tr) && Contiguous(id, cs) && i < |cs|
    requires ChunkOk(id, c, i, StartOf(cs, i)) && c.size == cs[i].size
    ensures Content(tr, cs[i := c], size) == Splice(Content(tr, cs, size), cs[i].offset, Plain(tr, c))
  {
    FlatReplace(tr, id, cs, i, c);
    FlatChunk(tr, id, cs, i);
    PlainLength(tr, c);
    var hole := Zeros(if CoveredEnd(cs) < size then size - CoveredEnd(cs) else 0);
    hide Flat, Plain, Splice, Contiguous, ChunkOk, CoveredEnd;
    SpliceLeft(Flat(tr, cs), cs[i].offset, Plain(tr, c), hole);
  }

  /** Dropping whole chunks past `size`. */
  lemma CutContent(tr: StreamCipher, id: Id, cs: seq<Chunk>, was: nat, n: nat, size: nat)
    requires IsCipher(tr) && Contiguous(id, cs) && n <= |cs| && CoveredEnd(cs) <= was
    requires StartOf(cs, n) <= size && (n < |cs| ==> StartOf(cs, n) == size)
    ensures Content(tr, cs[..n], size) == Resized(Content(tr, cs, was), size)
  {
    FlatPrefix(tr, id, cs, n);
    FlatLength(tr, id, cs);
    ContentLength(tr, id, cs, was);
    var x, y := Content(tr, cs[..n], size), Resized(Content(tr, cs, was), size);
    forall p | 0 <= p < |x| ensures x[p] == y[p] {
    }
  }

  /** Trimming the chunk the new end falls inside, and dropping the ones after it. */
  lemma TrimContent(tr: StreamCipher, id: Id, cs: seq<Chunk>, was: nat, n: nat, c: Chunk, size: nat)
    requires IsCipher(tr) && Contiguous(id, cs) && n < |cs| && CoveredEnd(cs) <= was
    requires StartOf(cs, n) < size < StartOf(cs, n) + cs[n].size
    requires ChunkOk(id, c, n, StartOf(cs, n)) && StartOf(cs, n) + c.size == size
    requires c.size <= |Plain(tr, cs[n])| && Plain(tr, c) == Plain(tr, cs[n])[..c.size]
    ensures Contiguous(id, cs[..n] + [c])
    ensures Content(tr, cs[..n] + [c], size) == Resized(Content(tr, cs, was), size)
  {
    hide Flat, Plain, Contiguous;
    ContiguousPrefix(id, cs, n);
    assert CoveredEnd(cs[..n]) == StartOf(cs, n);
    ContiguousAppend(id, cs[..n], c);
    FlatAppend(tr, cs[..n], c);
    FlatPrefix(tr, id, cs, n);
    FlatChunk(tr, id, cs, n);
    PlainLength(tr, c);
    FlatLength(tr, id, cs[..n]);
    var f, start, k := Flat(tr, cs), StartOf(cs, n), c.size;
    var hole := Zeros(if |f| < was then was - |f| else 0);
    assert Content(tr, cs, was) == f + hole;
    assert Flat(tr, cs[..n] + [c]) == f[..start] + Plain(tr, cs[n])[..k] && |f[..start] + Plain(tr, cs[n])[..k]| == size;
    hide ChunkOk;
    CutTwice(f, start, cs[n].size, k);
    CutLeft(f, hole, size);
    assert Content(tr, cs[..n] + [c], size) == f[..size] + Zeros(0);
  }

  lemma CutTwice(f: ByteString, start: nat, size: nat, k: nat)
    requires start + size <= |f| && k <= size
    ensures f[..start] + f[start..start + size][..k] == f[..start + k]
  {
  }

  lemma CutLeft(f: ByteString, z: ByteString, n: nat)
    requires n <= |f|
    ensures (f + z)[..n] == f[..n]
  {
  }

  /** Zeros written over a hole, or past the end, only lengthen the file. */
  lemma ZerosContent(tr: StreamCipher, id: Id, cs: seq<Chunk>, size: nat, n: nat)
    requires IsCipher(tr) && Contiguous(id, cs)
    ensures Splice(Content(tr, cs, size), CoveredEnd(cs), Zeros(n))
            == Extend(Content(tr, cs, size), CoveredEnd(cs) + n)
  {
    ContentLength(tr, id, cs, size);
    var v := Content(tr, cs, size);
    if n > 0 {
      var x, y := Splice(v, CoveredEnd(cs), Zeros(n)), Extend(v, CoveredEnd(cs) + n);
      forall p | 0 <= p < |x| ensures x[p] == y[p] {
        SpliceAt(v, CoveredEnd(cs), Zeros(n), p);
      }
    } else {
      assert Extend(v, CoveredEnd(cs)) == v;
    }
  }

  // ------------------------------------------------------------------ what a broken-off write may leave

  // Nothing but bytes that were committed, had been accepted, or were being written.
  predicate Torn(committed: ByteString, seen: ByteString, written: ByteString, now: ByteString) {
    && |committed| <= |now| <= |written|
    && forall p :: 0 <= p < |now| ==> TornByte(committed, seen, written, now, p)
  }

  predicate TornByte(committed: ByteString, seen: ByteString, written: ByteString, now: ByteString, p: nat)
    requires p < |now| <= |written|
  {
    (p < |committed| && now[p] == committed[p]) || (p < |seen| && now[p] == seen[p]) || now[p] == written[p]
  }

  // Breaking off an append of `a + b` after `a`.
  lemma TornAppend(v: ByteString, off: nat, buffered: ByteString, d: ByteString, a: ByteString, b: ByteString)
    requires buffered + d == a + b
    ensures var seen := Splice(v, off, buffered);
            Torn(v, seen, Splice(seen, off + |buffered|, d), Splice(v, off, a))
  {
    var seen := Splice(v, off, buffered);
    var written, now := Splice(seen, off + |buffered|, d), Splice(v, off, a);
    SpliceConcat(v, off, buffered, d);
    SpliceConcat(v, off, a, b);
    forall p | 0 <= p < |now| ensures TornByte(v, seen, written, now, p) {
      if a != [] { SpliceAt(v, off, a, p); }
      if a + b != [] { SpliceAt(v, off, a + b, p); }
    }
  }

  // Breaking off an overwrite of `d` after its first `k` bytes; `m` tells how far a gap was filled first.
  lemma TornOverwrite(committed: ByteString, seen: ByteString, off: nat, d: ByteString, m: nat, k: nat)
    requires |committed| <= |seen| && d != [] && k <= |d|
    requires m <= off || m <= |seen|
    ensures Torn(committed, seen, Splice(seen, off, d), Extend(seen, m))
    ensures Torn(committed, seen, Splice(seen, off, d), Splice(seen, off, d[..k]))
  {
    var written := Splice(seen, off, d);
    var now := Splice(seen, off, d[..k]);
    forall p | 0 <= p < |Extend(seen, m)| ensures TornByte(committed, seen, written, Extend(seen, m), p) {
      SpliceAt(seen, off, d, p);
    }
    forall p | 0 <= p < |now| ensures TornByte(committed, seen, written, now, p) {
      SpliceAt(seen, off, d, p);
      if k > 0 { SpliceAt(seen, off, d[..k], p); }
    }
  }

  lemma TornNothing(committed: ByteString, off: nat, buffered: ByteString, at: nat, d: ByteString)
    ensures var seen := Splice(committed, off, buffered);
            Torn(committed, seen, Splice(seen, at, d), committed)
            && |committed| <= |seen|
  {
  }
}
