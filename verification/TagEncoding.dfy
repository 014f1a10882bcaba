/**
 The byte strings the integrity tags are computed over (src/crypto.py), and why no two of them collide.

 A tag is `HMAC(key, message)`. Everything below is about `message`: four builders, one decoder that
 reads all four back, and the canonical order a directory's entries are put in first.
 */
module TagEncoding {
  import opened Wrappers
  import opened Bytes

  const NONCE_SIZE: nat := 16
  const LIMIT: nat := 0x1_0000_0000_0000_0000 // what `to_bytes(8, "big")` can hold

  // The domain-separating labels, in ASCII.
  const CHUNK: ByteString := [99, 104, 117, 110, 107]             // "chunk"
  const NODE3: ByteString := [110, 111, 100, 101, 51]             // "node3"
  const DIR2: ByteString := [100, 105, 114, 50]                   // "dir2"
  const DIRENTS: ByteString := [100, 105, 114, 101, 110, 116, 115] // "dirents"

  type Entry = (ByteString, ByteString) // a child's id, and its name as the tag sees it

  /** What one tag is taken over. Names are NFC-normalised UTF-8 already, see `NameBytes` below. */
  datatype Tagged =
    | Chunk(fileId: ByteString, index: int, offset: int, size: int, nonce: ByteString, ciphertext: ByteString)
    | Node(fileId: ByteString, parentId: ByteString, name: ByteString, size: int,
           trashedAt: Option<int>, chunkTags: seq<ByteString>)
    | Dir(dirId: ByteString, parentId: ByteString, name: ByteString, trashedAt: Option<int>)
    | Entries(dirId: ByteString, items: seq<Entry>)

  predicate FitsInt(n: int) { 0 <= n < LIMIT }

  predicate FitsBytes(b: ByteString) { |b| < LIMIT }

  predicate AllFit(values: seq<ByteString>) { forall v :: v in values ==> FitsBytes(v) }

  predicate FitsTime(t: Option<int>) { t.Some? ==> FitsInt(t.value) }

  // Exactly when no `to_bytes` along the way raises OverflowError.
  predicate Encodable(t: Tagged) {
    match t
    case Chunk(id, index, offset, size, nonce, ct) =>
      FitsBytes(id) && FitsInt(index) && FitsInt(offset) && FitsInt(size) && FitsBytes(ct)
    case Node(id, parent, name, size, trashed, tags) =>
      FitsBytes(id) && FitsBytes(parent) && FitsBytes(name) && FitsInt(size) && FitsTime(trashed)
      && |tags| < LIMIT && AllFit(tags)
    case Dir(id, parent, name, trashed) =>
      FitsBytes(id) && FitsBytes(parent) && FitsBytes(name) && FitsTime(trashed)
    case Entries(id, items) =>
      FitsBytes(id) && |items| < LIMIT && AllFit(Flatten(items))
  }

  // The nonces this system makes are all one length; nothing in the message separates a nonce from what follows.
  predicate StandardNonce(t: Tagged) { t.Chunk? ==> |t.nonce| == NONCE_SIZE }

  // ------------------------------------------------------------------ the messages

  function Int8(n: int): (b: ByteString)
    requires FitsInt(n)
  {
    BigEndian(n, 8)
  }

  function LengthPrefixed(value: ByteString): ByteString
    requires FitsBytes(value)
  {
    Int8(|value|) + value
  }

  // A presence byte, then the time: "not trashed" is not "trashed at the epoch".
  function TrashMarker(trashedAt: Option<int>): ByteString
    requires FitsTime(trashedAt)
  {
    match trashedAt
    case None => [0] + Int8(0)
    case Some(when) => [1] + Int8(when)
  }

  function Prefixes(values: seq<ByteString>): ByteString
    requires AllFit(values)
  {
    if values == [] then [] else LengthPrefixed(values[0]) + Prefixes(values[1..])
  }

  // A list of pairs is fed to the MAC as its ids and names in turn.
  function Flatten(items: seq<Entry>): (r: seq<ByteString>)
    ensures |r| == 2 * |items|
  {
    if items == [] then [] else [items[0].0, items[0].1] + Flatten(items[1..])
  }

  function Message(t: Tagged): ByteString
    requires Encodable(t)
  {
    match t
    case Chunk(id, index, offset, size, nonce, ct) =>
      CHUNK + (LengthPrefixed(id) + (Int8(index) + (Int8(offset) + (Int8(size) + (nonce + LengthPrefixed(ct))))))
    case Node(id, parent, name, size, trashed, tags) =>
      NODE3 + (LengthPrefixed(id) + (LengthPrefixed(parent) + (LengthPrefixed(name)
      + (Int8(size) + (TrashMarker(trashed) + (Int8(|tags|) + Prefixes(tags)))))))
    case Dir(id, parent, name, trashed) =>
      DIR2 + (LengthPrefixed(id) + (LengthPrefixed(parent) + (LengthPrefixed(name) + TrashMarker(trashed))))
    case Entries(id, items) =>
      DIRENTS + (LengthPrefixed(id) + (Int8(|items|) + Prefixes(Flatten(items))))
  }

  // A small number in its eight bytes.
  function Word(n: Byte): ByteString { [0, 0, 0, 0, 0, 0, 0, n] }

  lemma SmallWord(n: Byte)
    ensures Int8(n) == Word(n)
  {
    assert forall k :: 0 < k <= 8 ==> BigEndian(0, k) == BigEndian(0, k - 1) + [0];
    assert BigEndian(n, 8) == BigEndian(0, 7) + [n];
    assert BigEndian(0, 7) == [0, 0, 0, 0, 0, 0, 0];
  }

  /** One message of each kind, byte for byte. */
  lemma KnownMessages()
    ensures Message(Chunk([7], 1, 2, 3, [9], [8, 8]))
            == [99, 104, 117, 110, 107] + (Word(1) + [7] + (Word(1) + (Word(2) + (Word(3) + ([9] + (Word(2) + [8, 8]))))))
    ensures Message(Node([7], [], [5], 3, Some(4), [[6]]))
            == [110, 111, 100, 101, 51] + (Word(1) + [7] + (Word(0) + [] + (Word(1) + [5]
               + (Word(3) + ([1] + Word(4) + (Word(1) + (Word(1) + [6] + [])))))))
    ensures Message(Dir([7], [2], [5], None))
            == [100, 105, 114, 50] + (Word(1) + [7] + (Word(1) + [2] + (Word(1) + [5] + ([0] + Word(0)))))
    ensures Message(Entries([7], [([1], [2])]))
            == [100, 105, 114, 101, 110, 116, 115] + (Word(1) + [7] + (Word(1) + (Word(1) + [1] + (Word(1) + [2] + []))))
  {
    SmallWord(0);
    SmallWord(1);
    SmallWord(2);
    SmallWord(3);
    SmallWord(4);
    hide Int8, Word;
    assert Prefixes([[6]]) == LengthPrefixed([6]) + [];
    assert Flatten([([1], [2])]) == [[1], [2]];
    assert [[1], [2]][1..] == [[2]];
    assert Prefixes([[1], [2]]) == LengthPrefixed([1]) + (LengthPrefixed([2]) + []);
  }

  // ------------------------------------------------------------------ reading a message back

  function TakeInt(b: ByteString): Option<(nat, ByteString)> {
    if |b| < 8 then None else Some((FromBigEndian(b[..8]), b[8..]))
  }

  function TakePrefixed(b: ByteString): Option<(ByteString, ByteString)> {
    match TakeInt(b)
    case None => None
    case Some((n, rest)) => if |rest| < n then None else Some((rest[..n], rest[n..]))
  }

  function TakeMarker(b: ByteString): Option<(Option<int>, ByteString)> {
    if b == [] then None else
    match TakeInt(b[1..])
    case None => None
    case Some((when, rest)) => Some((if b[0] == 0 then None else Some(when), rest))
  }

  function TakeMany(count: nat, b: ByteString): Option<(seq<ByteString>, ByteString)> {
    if count == 0 then Some(([], b)) else
    match TakePrefixed(b)
    case None => None
    case Some((first, rest)) =>
      match TakeMany(count - 1, rest)
      case None => None
      case Some((others, tail)) => Some(([first] + others, tail))
  }

  function Pairs(flat: seq<ByteString>): seq<Entry> {
    if |flat| < 2 then [] else [(flat[0], flat[1])] + Pairs(flat[2..])
  }

  function DecodeChunk(b: ByteString): Option<Tagged> {
    match TakePrefixed(b) case None => None case Some((id, b1)) =>
    match TakeInt(b1) case None => None case Some((index, b2)) =>
    match TakeInt(b2) case None => None case Some((offset, b3)) =>
    match TakeInt(b3) case None => None case Some((size, b4)) =>
    if |b4| < NONCE_SIZE then None else
    match TakePrefixed(b4[NONCE_SIZE..]) case None => None case Some((ct, _)) =>
    Some(Chunk(id, index, offset, size, b4[..NONCE_SIZE], ct))
  }

  function DecodeNode(b: ByteString): Option<Tagged> {
    match TakePrefixed(b) case None => None case Some((id, b1)) =>
    match TakePrefixed(b1) case None => None case Some((parent, b2)) =>
    match TakePrefixed(b2) case None => None case Some((name, b3)) =>
    match TakeInt(b3) case None => None case Some((size, b4)) =>
    match TakeMarker(b4) case None => None case Some((trashed, b5)) =>
    match TakeInt(b5) case None => None case Some((count, b6)) =>
    match TakeMany(count, b6) case None => None case Some((tags, _)) =>
    Some(Node(id, parent, name, size, trashed, tags))
  }

  function DecodeDir(b: ByteString): Option<Tagged> {
    match TakePrefixed(b) case None => None case Some((id, b1)) =>
    match TakePrefixed(b1) case None => None case Some((parent, b2)) =>
    match TakePrefixed(b2) case None => None case Some((name, b3)) =>
    match TakeMarker(b3) case None => None case Some((trashed, _)) =>
    Some(Dir(id, parent, name, trashed))
  }

  function DecodeEntries(b: ByteString): Option<Tagged> {
    match TakePrefixed(b) case None => None case Some((id, b1)) =>
    match TakeInt(b1) case None => None case Some((count, b2)) =>
    match TakeMany(2 * count, b2) case None => None case Some((flat, _)) =>
    Some(Entries(id, Pairs(flat)))
  }

  predicate Labelled(b: ByteString, mark: ByteString) {
    |mark| <= |b| && b[..|mark|] == mark
  }

  function Decode(b: ByteString): Option<Tagged> {
    if Labelled(b, CHUNK) then DecodeChunk(b[5..])
    else if Labelled(b, NODE3) then DecodeNode(b[5..])
    else if Labelled(b, DIR2) then DecodeDir(b[4..])
    else if Labelled(b, DIRENTS) then DecodeEntries(b[7..])
    else None
  }

  lemma Assoc(a: ByteString, b: ByteString, c: ByteString)
    ensures (a + b) + c == a + (b + c)
  {
  }

  lemma TakeIntReads(n: int, rest: ByteString)
    requires FitsInt(n)
    ensures TakeInt(Int8(n) + rest) == Some((n, rest))
  {
    assert Pow256(8) == LIMIT;
    BigEndianRoundTrip(n, 8);
    assert (Int8(n) + rest)[..8] == Int8(n);
    assert (Int8(n) + rest)[8..] == rest;
  }

  lemma TakePrefixedReads(value: ByteString, rest: ByteString)
    requires FitsBytes(value)
    ensures TakePrefixed(LengthPrefixed(value) + rest) == Some((value, rest))
  {
    assert LengthPrefixed(value) + rest == Int8(|value|) + (value + rest);
    TakeIntReads(|value|, value + rest);
    assert (value + rest)[..|value|] == value && (value + rest)[|value|..] == rest;
  }

  lemma TakeMarkerReads(trashedAt: Option<int>, rest: ByteString)
    requires FitsTime(trashedAt)
    ensures TakeMarker(TrashMarker(trashedAt) + rest) == Some((trashedAt, rest))
  {
    var when := if trashedAt.None? then 0 else trashedAt.value;
    assert (TrashMarker(trashedAt) + rest)[1..] == Int8(when) + rest;
    TakeIntReads(when, rest);
  }

  lemma {:induction false} TakeManyReads(values: seq<ByteString>, rest: ByteString)
    requires AllFit(values)
    ensures TakeMany(|values|, Prefixes(values) + rest) == Some((values, rest))
  {
    if values == [] {
      assert Prefixes(values) + rest == rest;
    } else {
      var tail := Prefixes(values[1..]) + rest;
      Assoc(LengthPrefixed(values[0]), Prefixes(values[1..]), rest);
      TakePrefixedReads(values[0], tail);
      TakeManyReads(values[1..], rest);
      assert [values[0]] + values[1..] == values;
    }
  }

  lemma {:induction false} PairsOfFlatten(items: seq<Entry>)
    ensures Pairs(Flatten(items)) == items
  {
    if items != [] {
      PairsOfFlatten(items[1..]);
      assert Flatten(items)[2..] == Flatten(items[1..]);
    }
  }

  lemma Dispatch(mark: ByteString, rest: ByteString)
    requires mark in {CHUNK, NODE3, DIR2, DIRENTS}
    ensures mark == CHUNK ==> Decode(mark + rest) == DecodeChunk(rest)
    ensures mark == NODE3 ==> Decode(mark + rest) == DecodeNode(rest)
    ensures mark == DIR2 ==> Decode(mark + rest) == DecodeDir(rest)
    ensures mark == DIRENTS ==> Decode(mark + rest) == DecodeEntries(rest)
  {
    var b := mark + rest;
    assert b[..|mark|] == mark && b[|mark|..] == rest;
    assert b[0] == mark[0] && b[3] == mark[3];
    assert forall other :: other in {CHUNK, NODE3, DIR2, DIRENTS} && Labelled(b, other) ==>
             b[0] == other[0] && b[3] == other[3];
  }

  lemma ChunkReads(t: Tagged)
    requires t.Chunk? && Encodable(t) && StandardNonce(t)
    ensures Decode(Message(t)) == Some(t)
  {
    var b4 := t.nonce + LengthPrefixed(t.ciphertext);
    var b3 := Int8(t.size) + b4;
    var b2 := Int8(t.offset) + b3;
    var b1 := Int8(t.index) + b2;
    Dispatch(CHUNK, LengthPrefixed(t.fileId) + b1);
    TakePrefixedReads(t.fileId, b1);
    TakeIntReads(t.index, b2);
    TakeIntReads(t.offset, b3);
    TakeIntReads(t.size, b4);
    assert b4[..NONCE_SIZE] == t.nonce;
    assert b4[NONCE_SIZE..] == LengthPrefixed(t.ciphertext) + [];
    TakePrefixedReads(t.ciphertext, []);
  }

  lemma NodeReads(t: Tagged)
    requires t.Node? && Encodable(t)
    ensures Decode(Message(t)) == Some(t)
  {
    var b6 := Prefixes(t.chunkTags);
    var b5 := Int8(|t.chunkTags|) + b6;
    var b4 := TrashMarker(t.trashedAt) + b5;
    var b3 := Int8(t.size) + b4;
    var b2 := LengthPrefixed(t.name) + b3;
    var b1 := LengthPrefixed(t.parentId) + b2;
    Dispatch(NODE3, LengthPrefixed(t.fileId) + b1);
    TakePrefixedReads(t.fileId, b1);
    TakePrefixedReads(t.parentId, b2);
    TakePrefixedReads(t.name, b3);
    TakeIntReads(t.size, b4);
    TakeMarkerReads(t.trashedAt, b5);
    TakeIntReads(|t.chunkTags|, b6);
    assert b6 == b6 + [];
    TakeManyReads(t.chunkTags, []);
  }

  lemma DirReads(t: Tagged)
    requires t.Dir? && Encodable(t)
    ensures Decode(Message(t)) == Some(t)
  {
    var b3 := TrashMarker(t.trashedAt);
    var b2 := LengthPrefixed(t.name) + b3;
    var b1 := LengthPrefixed(t.parentId) + b2;
    Dispatch(DIR2, LengthPrefixed(t.dirId) + b1);
    TakePrefixedReads(t.dirId, b1);
    TakePrefixedReads(t.parentId, b2);
    TakePrefixedReads(t.name, b3);
    assert b3 == b3 + [];
    TakeMarkerReads(t.trashedAt, []);
  }

  lemma EntriesReads(t: Tagged)
    requires t.Entries? && Encodable(t)
    ensures Decode(Message(t)) == Some(t)
  {
    var b2 := Prefixes(Flatten(t.items));
    var b1 := Int8(|t.items|) + b2;
    Dispatch(DIRENTS, LengthPrefixed(t.dirId) + b1);
    TakePrefixedReads(t.dirId, b1);
    TakeIntReads(|t.items|, b2);
    assert b2 == b2 + [];
    TakeManyReads(Flatten(t.items), []);
    PairsOfFlatten(t.items);
  }

  /** Every message says what it was built from: the four layouts share one decoder. */
  lemma DecodeReadsMessage(t: Tagged)
    requires Encodable(t) && StandardNonce(t)
    ensures Decode(Message(t)) == Some(t)
  {
    match t
    case Chunk(_, _, _, _, _, _) => ChunkReads(t);
    case Node(_, _, _, _, _, _) => NodeReads(t);
    case Dir(_, _, _, _) => DirReads(t);
    case Entries(_, _) => EntriesReads(t);
  }

  /** No two different tagged things have one message. */
  lemma MessageInjective(t: Tagged, u: Tagged)
    requires Encodable(t) && StandardNonce(t) && Encodable(u) && StandardNonce(u)
    requires Message(t) == Message(u)
    ensures t == u
  {
    DecodeReadsMessage(t);
    DecodeReadsMessage(u);
  }

  /**
   Without a fixed nonce length the chunk layout is ambiguous: here two chunk records with different
   nonces and different ciphertexts share a message. Only `NONCE_SIZE` keeps the field boundary.
   */
  lemma NonceLengthIsNeeded()
    ensures var t, u := Chunk([], 0, 0, 0, [], Int8(0)), Chunk([], 0, 0, 0, Int8(8), []);
            Encodable(t) && Encodable(u) && t != u && Message(t) == Message(u)
  {
    var t, u := Chunk([], 0, 0, 0, [], Int8(0)), Chunk([], 0, 0, 0, Int8(8), []);
    assert [] + LengthPrefixed(Int8(0)) == Int8(8) + LengthPrefixed([]);
  }

  // ------------------------------------------------------------------ building them step by step

  // Everything `node_tag` feeds before its loop.
  function NodeHead(id: ByteString, parent: ByteString, name: ByteString, size: int, trashed: Option<int>,
                    count: nat): ByteString
    requires FitsBytes(id) && FitsBytes(parent) && FitsBytes(name) && FitsInt(size) && FitsTime(trashed)
    requires count < LIMIT
  {
    NODE3 + LengthPrefixed(id) + LengthPrefixed(parent) + LengthPrefixed(name) + Int8(size)
    + TrashMarker(trashed) + Int8(count)
  }

  // The order of the updates is the order of the message.
  lemma NodeLayout(id: ByteString, parent: ByteString, name: ByteString, size: int, trashed: Option<int>,
                   tags: seq<ByteString>)
    requires Encodable(Node(id, parent, name, size, trashed, tags))
    ensures NodeHead(id, parent, name, size, trashed, |tags|) + Prefixes(tags)
            == Message(Node(id, parent, name, size, trashed, tags))
  {
    var b6 := Prefixes(tags);
    var b5 := Int8(|tags|) + b6;
    var b4 := TrashMarker(trashed) + b5;
    var b3 := Int8(size) + b4;
    var b2 := LengthPrefixed(name) + b3;
    var b1 := LengthPrefixed(parent) + b2;
    var h1 := NODE3 + LengthPrefixed(id);
    var h2 := h1 + LengthPrefixed(parent);
    var h3 := h2 + LengthPrefixed(name);
    var h4 := h3 + Int8(size);
    var h5 := h4 + TrashMarker(trashed);
    Assoc(NODE3, LengthPrefixed(id), b1);
    Assoc(h1, LengthPrefixed(parent), b2);
    Assoc(h2, LengthPrefixed(name), b3);
    Assoc(h3, Int8(size), b4);
    Assoc(h4, TrashMarker(trashed), b5);
    Assoc(h5, Int8(|tags|), b6);
  }

  /** `node_tag`, up to the digest: one update after another, the chunk tags in a loop. */
  method NodeMessage(fileId: ByteString, parentId: ByteString, name: ByteString, size: int,
                     chunkTags: seq<ByteString>, trashedAt: Option<int>) returns (m: Option<ByteString>)
    ensures var t := Node(fileId, parentId, name, size, trashedAt, chunkTags);
            (m.Some? <==> Encodable(t)) && (m.Some? ==> m.value == Message(t))
  {
    if !FitsBytes(fileId) || !FitsBytes(parentId) || !FitsBytes(name) || !FitsInt(size) || !FitsTime(trashedAt)
       || |chunkTags| >= LIMIT {
      return None;
    }
    var running := NODE3;
    running := running + LengthPrefixed(fileId);
    running := running + LengthPrefixed(parentId);
    running := running + LengthPrefixed(name);
    running := running + Int8(size);
    running := running + TrashMarker(trashedAt);
    running := running + Int8(|chunkTags|);
    var tail := FeedTags(chunkTags, running);
    if tail.None? {
      return None;
    }
    assert running == NodeHead(fileId, parentId, name, size, trashedAt, |chunkTags|);
    NodeLayout(fileId, parentId, name, size, trashedAt, chunkTags);
    m := tail;
  }

  // The loop over the chunk tags.
  method FeedTags(chunkTags: seq<ByteString>, head: ByteString) returns (m: Option<ByteString>)
    ensures m.Some? <==> AllFit(chunkTags)
    ensures m.Some? ==> m.value == head + Prefixes(chunkTags)
  {
    var running := head;
    var i := 0;
    while i < |chunkTags|
      invariant 0 <= i <= |chunkTags|
      invariant AllFit(chunkTags[..i])
      invariant running == head + Prefixes(chunkTags[..i])
    {
      if !FitsBytes(chunkTags[i]) {
        assert chunkTags[i] in chunkTags;
        return None;
      }
      PrefixesAppend(chunkTags[..i], chunkTags[i]);
      Assoc(head, Prefixes(chunkTags[..i]), LengthPrefixed(chunkTags[i]));
      assert chunkTags[..i + 1] == chunkTags[..i] + [chunkTags[i]];
      running := running + LengthPrefixed(chunkTags[i]);
      i := i + 1;
    }
    assert chunkTags[..i] == chunkTags;
    m := Some(running);
  }

  lemma {:induction false} PrefixesAppend(values: seq<ByteString>, last: ByteString)
    requires FitsBytes(last) && AllFit(values)
    ensures Prefixes(values + [last]) == Prefixes(values) + LengthPrefixed(last)
  {
    if values == [] {
      assert Prefixes([last]) == LengthPrefixed(last) + [];
    } else {
      PrefixesAppend(values[1..], last);
      assert (values + [last])[1..] == values[1..] + [last];
    }
  }

  lemma {:induction false} FlattenAppend(items: seq<Entry>, last: Entry)
    ensures Flatten(items + [last]) == Flatten(items) + [last.0, last.1]
  {
    if items != [] {
      FlattenAppend(items[1..], last);
      assert (items + [last])[1..] == items[1..] + [last];
    }
  }

  lemma {:induction false} FlattenMember(items: seq<Entry>, i: nat)
    requires i < |items|
    ensures items[i].0 in Flatten(items) && items[i].1 in Flatten(items)
  {
    if i > 0 {
      FlattenMember(items[1..], i - 1);
    } else {
      assert Flatten(items)[0] == items[0].0 && Flatten(items)[1] == items[0].1;
    }
  }

  lemma EntriesStep(items: seq<Entry>, id: ByteString, name: ByteString)
    requires AllFit(Flatten(items)) && FitsBytes(id) && FitsBytes(name)
    ensures AllFit(Flatten(items + [(id, name)]))
    ensures Prefixes(Flatten(items + [(id, name)]))
            == Prefixes(Flatten(items)) + LengthPrefixed(id) + LengthPrefixed(name)
  {
    var flat := Flatten(items);
    FlattenAppend(items, (id, name));
    PrefixesAppend(flat, id);
    PrefixesAppend(flat + [id], name);
    assert flat + [id] + [name] == flat + [id, name];
  }

  // ------------------------------------------------------------------ the canonical order of entries

  predicate EntryLeq(x: Entry, y: Entry) {
    if x.0 == y.0 then LexLeq(x.1, y.1) else LexLeq(x.0, y.0)
  }

  lemma EntryOrder(x: Entry, y: Entry, z: Entry)
    ensures EntryLeq(x, y) || EntryLeq(y, x)
    ensures EntryLeq(x, y) && EntryLeq(y, x) ==> x == y
    ensures EntryLeq(x, y) && EntryLeq(y, z) ==> EntryLeq(x, z)
  {
    LexTotal(x.0, y.0);
    LexTotal(x.1, y.1);
    if EntryLeq(x, y) && EntryLeq(y, x) {
      if x.0 == y.0 { LexAntisymmetric(x.1, y.1); } else { LexAntisymmetric(x.0, y.0); }
    }
    if EntryLeq(x, y) && EntryLeq(y, z) {
      if x.0 == y.0 == z.0 {
        LexTransitive(x.1, y.1, z.1);
      } else if x.0 != y.0 && y.0 != z.0 {
        LexTransitive(x.0, y.0, z.0);
        if x.0 == z.0 { LexAntisymmetric(x.0, y.0); }
      }
    }
  }

  // By id and then by name, a shorter one before what it begins.
  lemma KnownOrder()
    ensures EntryLeq(([1], [9]), ([2], [1])) && !EntryLeq(([2], [1]), ([1], [9]))
    ensures EntryLeq(([1], [1]), ([1], [2])) && !EntryLeq(([1], [2]), ([1], [1]))
    ensures EntryLeq(([1], [9]), ([1, 0], [1])) && !EntryLeq(([1, 0], [1]), ([1], [9]))
  {
  }

  predicate Ordered(items: seq<Entry>) {
    forall i, j :: 0 <= i < j < |items| ==> EntryLeq(items[i], items[j])
  }

  function Insert(x: Entry, items: seq<Entry>): (r: seq<Entry>)
    ensures multiset(r) == multiset(items) + multiset{x}
  {
    if items == [] then [x]
    else if EntryLeq(x, items[0]) then [x] + items
    else
      assert items == [items[0]] + items[1..];
      [items[0]] + Insert(x, items[1..])
  }

  // Python's `sorted` over the pairs.
  function Sorted(items: seq<Entry>): (r: seq<Entry>)
    ensures multiset(r) == multiset(items)
  {
    if items == [] then [] else
    assert items == [items[0]] + items[1..];
    Insert(items[0], Sorted(items[1..]))
  }

  lemma {:induction false} InsertKeepsOrder(x: Entry, items: seq<Entry>)
    requires Ordered(items)
    ensures Ordered(Insert(x, items))
  {
    if items != [] {
      EntryOrder(x, items[0], x);
      if EntryLeq(x, items[0]) {
        forall j | 0 <= j < |items| ensures EntryLeq(x, items[j]) {
          EntryOrder(x, items[0], items[j]);
        }
      } else {
        var rest := Insert(x, items[1..]);
        InsertKeepsOrder(x, items[1..]);
        forall j | 0 <= j < |rest| ensures EntryLeq(items[0], rest[j]) {
          assert rest[j] in multiset(rest);
          assert rest[j] == x || rest[j] in multiset(items[1..]);
          if rest[j] != x {
            assert rest[j] in items[1..];
          }
        }
      }
    }
  }

  lemma {:induction false} SortedIsOrdered(items: seq<Entry>)
    ensures Ordered(Sorted(items))
  {
    if items != [] {
      SortedIsOrdered(items[1..]);
      InsertKeepsOrder(items[0], Sorted(items[1..]));
    }
  }

  lemma HeadIsLeast(a: seq<Entry>, x: Entry)
    requires Ordered(a) && x in multiset(a)
    ensures a != [] && EntryLeq(a[0], x)
  {
    var i :| 0 <= i < |a| && a[i] == x;
    EntryOrder(x, x, x);
  }

  lemma TailMultiset(a: seq<Entry>)
    requires a != []
    ensures multiset(a[1..]) == multiset(a) - multiset{a[0]}
  {
    assert a == [a[0]] + a[1..];
  }

  /** An ordered listing is the only ordered listing of its multiset. */
  lemma {:induction false} OrderedUnique(a: seq<Entry>, b: seq<Entry>)
    requires Ordered(a) && Ordered(b) && multiset(a) == multiset(b)
    ensures a == b
  {
    assert |multiset(a)| == |a| && |multiset(b)| == |b|;
    if a != [] {
      HeadIsLeast(a, b[0]);
      HeadIsLeast(b, a[0]);
      EntryOrder(a[0], b[0], a[0]);
      TailMultiset(a);
      TailMultiset(b);
      OrderedUnique(a[1..], b[1..]);
      assert a == [a[0]] + a[1..] && b == [b[0]] + b[1..];
    }
  }

  // `_name` applied to each pair: `norm` is NFC normalisation followed by UTF-8.
  function NameBytes<Name(==)>(norm: Name -> ByteString, entries: seq<(ByteString, Name)>): (r: seq<Entry>)
    ensures |r| == |entries|
    ensures forall i :: 0 <= i < |r| ==> r[i] == (entries[i].0, norm(entries[i].1))
  {
    seq(|entries|, i requires 0 <= i < |entries| => (entries[i].0, norm(entries[i].1)))
  }

  // What `dir_entries_tag` covers, whatever order the children came back in.
  function EntriesOf<Name(==)>(norm: Name -> ByteString, dirId: ByteString, entries: seq<(ByteString, Name)>): Tagged {
    Entries(dirId, Sorted(NameBytes(norm, entries)))
  }

  /** The entries tag depends on, and determines, exactly the directory and the multiset of its pairs. */
  lemma EntriesTagIsMembership<Name>(norm: Name -> ByteString, d: ByteString, es: seq<(ByteString, Name)>,
                                     d': ByteString, es': seq<(ByteString, Name)>)
    requires Encodable(EntriesOf(norm, d, es)) && Encodable(EntriesOf(norm, d', es'))
    ensures Message(EntriesOf(norm, d, es)) == Message(EntriesOf(norm, d', es'))
            <==> d == d' && multiset(NameBytes(norm, es)) == multiset(NameBytes(norm, es'))
  {
    var a, b := Sorted(NameBytes(norm, es)), Sorted(NameBytes(norm, es'));
    if Message(Entries(d, a)) == Message(Entries(d', b)) {
      MessageInjective(Entries(d, a), Entries(d', b));
    }
    if multiset(NameBytes(norm, es)) == multiset(NameBytes(norm, es')) {
      SortedIsOrdered(NameBytes(norm, es));
      SortedIsOrdered(NameBytes(norm, es'));
      OrderedUnique(a, b);
    }
  }

  lemma NothingYet(items: seq<Entry>, head: ByteString)
    ensures AllFit(Flatten(items[..0])) && head == head + Prefixes(Flatten(items[..0]))
  {
  }

  lemma AssocThree(a: ByteString, b: ByteString, c: ByteString, d: ByteString)
    ensures a + (b + c + d) == a + b + c + d
  {
  }

  /** `dir_entries_tag`, up to the digest: sort, then feed the pairs in a loop. */
  method EntriesMessage<Name(==)>(norm: Name -> ByteString, dirId: ByteString, entries: seq<(ByteString, Name)>)
    returns (m: Option<ByteString>)
    ensures var t := EntriesOf(norm, dirId, entries);
            (m.Some? <==> Encodable(t)) && (m.Some? ==> m.value == Message(t))
  {
    hide Sorted, NameBytes, Prefixes, Flatten, LengthPrefixed, Int8;
    var items := Sorted(NameBytes(norm, entries));
    if !FitsBytes(dirId) || |items| >= LIMIT {
      return None;
    }
    var running := DIRENTS;
    running := running + LengthPrefixed(dirId);
    running := running + Int8(|items|);
    ghost var head := running;
    NothingYet(items, head);
    var i := 0;
    while i < |items|
      invariant 0 <= i <= |items|
      invariant AllFit(Flatten(items[..i]))
      invariant running == head + Prefixes(Flatten(items[..i]))
    {
      var (id, name) := items[i];
      if !FitsBytes(id) || !FitsBytes(name) {
        FlattenMember(items, i);
        return None;
      }
      EntriesStep(items[..i], id, name);
      assert items[..i + 1] == items[..i] + [items[i]];
      AssocThree(head, Prefixes(Flatten(items[..i])), LengthPrefixed(id), LengthPrefixed(name));
      running := running + LengthPrefixed(id);
      running := running + LengthPrefixed(name);
      i := i + 1;
    }
    assert items[..i] == items;
    Assoc(DIRENTS + LengthPrefixed(dirId), Int8(|items|), Prefixes(Flatten(items)));
    Assoc(DIRENTS, LengthPrefixed(dirId), Int8(|items|) + Prefixes(Flatten(items)));
    m := Some(running);
  }
}
