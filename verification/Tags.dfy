/**
 Tags as the rest of the model handles them: terms, equal exactly when the real tags are equal bytes.

 The filesystem never looks inside a tag; it stores tags, recomputes them and compares. `SameBytesSameTag`
 is why comparing terms instead is sound: under an injective MAC, nested tags included, equal tag bytes
 come only from equal terms.
 */
module Tags {
  import opened Wrappers
  import opened Bytes
  import TagEncoding

  type Id = ByteString    // a node id, UTF-8
  type Name = ByteString  // a file name, NFC-normalised UTF-8
  type Entry = (Id, Name)

  datatype Tag =
    | ChunkTag(nonce: ByteString, ciphertext: ByteString, fileId: Id, index: nat, offset: nat, size: nat)
    | NodeTag(fileId: Id, parentId: Id, name: Name, size: nat, chunkTags: seq<Tag>, trashedAt: Option<nat>)
    | DirTag(dirId: Id, parentId: Id, name: Name, trashedAt: Option<nat>)
    | EntriesTag(dirId: Id, entries: multiset<Entry>)

  ghost function Listing(entries: multiset<Entry>): (s: seq<Entry>)
    ensures multiset(s) == entries
  {
    if entries == multiset{} then [] else
    var e :| e in entries;
    [e] + Listing(entries - multiset{e})
  }

  // The bytes a tag term stands for, under `mac`.
  ghost function TagBytes(mac: ByteString -> ByteString, t: Tag): ByteString
    requires WellFormed(mac, t)
    decreases t, 3
  {
    mac(TagEncoding.Message(Lower(mac, t)))
  }

  ghost function Lower(mac: ByteString -> ByteString, t: Tag): TagEncoding.Tagged
    requires forall u :: u in Parts(t) ==> WellFormed(mac, u)
    decreases t, 0
  {
    match t
    case ChunkTag(nonce, ct, id, index, offset, size) => TagEncoding.Chunk(id, index, offset, size, nonce, ct)
    case NodeTag(id, parent, name, size, tags, trashed) =>
      TagEncoding.Node(id, parent, name, size, trashed,
                       seq(|tags|, i requires 0 <= i < |tags| => TagBytes(mac, tags[i])))
    case DirTag(id, parent, name, trashed) => TagEncoding.Dir(id, parent, name, trashed)
    case EntriesTag(id, entries) => TagEncoding.Entries(id, TagEncoding.Sorted(Listing(entries)))
  }

  ghost function Parts(t: Tag): (s: seq<Tag>)
    ensures forall u :: u in s ==> u < t
  {
    if t.NodeTag? then t.chunkTags else []
  }

  // Every length fits its eight bytes and every nonce is a standard one, all the way down.
  ghost predicate WellFormed(mac: ByteString -> ByteString, t: Tag)
    decreases t, 2
  {
    && (forall u :: u in Parts(t) ==> WellFormed(mac, u))
    && TagEncoding.Encodable(Lower(mac, t))
    && TagEncoding.StandardNonce(Lower(mac, t))
  }

  ghost predicate Injective(mac: ByteString -> ByteString) {
    forall a, b :: mac(a) == mac(b) ==> a == b
  }

  /** Comparing tag bytes and comparing tag terms come to the same thing. */
  lemma {:induction false} SameBytesSameTag(mac: ByteString -> ByteString, t: Tag, u: Tag)
    requires Injective(mac) && WellFormed(mac, t) && WellFormed(mac, u)
    ensures TagBytes(mac, t) == TagBytes(mac, u) <==> t == u
    decreases t
  {
    if TagBytes(mac, t) == TagBytes(mac, u) {
      var a, b := Lower(mac, t), Lower(mac, u);
      assert TagEncoding.Message(a) == TagEncoding.Message(b);
      TagEncoding.MessageInjective(a, b);
      match t
      case ChunkTag(_, _, _, _, _, _) =>
      case DirTag(_, _, _, _) =>
      case EntriesTag(_, entries) =>
        assert multiset(TagEncoding.Sorted(Listing(entries))) == entries;
        assert multiset(TagEncoding.Sorted(Listing(u.entries))) == u.entries;
      case NodeTag(_, _, _, _, tags, _) =>
        assert |a.chunkTags| == |tags| && |b.chunkTags| == |u.chunkTags|;
        forall i | 0 <= i < |tags| ensures tags[i] == u.chunkTags[i] {
          assert a.chunkTags[i] == TagBytes(mac, tags[i]) && b.chunkTags[i] == TagBytes(mac, u.chunkTags[i]);
          assert tags[i] in Parts(t) && u.chunkTags[i] in Parts(u);
          SameBytesSameTag(mac, tags[i], u.chunkTags[i]);
        }
        assert tags == u.chunkTags;
    }
  }
}
