/**
 The two stores one file lives in, one call at a time: its document in the database, its attachments on
 Discord, and the process-wide note of which version of the document was committed last.

 Every call either lands or raises with no effect, at the environment's choice. `alwaysSound` is a running
 conjunction: it is true as long as `Sound` held after every single call so far.
 */
module Backend {
  import opened Wrappers
  import opened Bytes
  import opened Tags
  import opened FileContent

  // What a reader needs of a stored document: shape, and a tag over its own fields.
  ghost predicate DocWellFormed(id: Id, doc: FileDoc) {
    && doc.id == id
    && Contiguous(id, doc.chunks)
    && DistinctIds(doc.chunks)
    && CoveredEnd(doc.chunks) <= doc.size
    && doc.mac == FileMac(doc)
  }

  // Everything the document references is on Discord, as it was uploaded.
  ghost predicate Backed(cs: seq<Chunk>, messages: map<MessageId, ByteString>) {
    forall i :: 0 <= i < |cs| ==> BackedAt(cs, i, messages)
  }

  ghost predicate BackedAt(cs: seq<Chunk>, i: nat, messages: map<MessageId, ByteString>)
    requires i < |cs|
  {
    ChunkBacked(cs[i], messages)
  }

  lemma {:induction false} BackedIsThere(cs: seq<Chunk>, messages: map<MessageId, ByteString>)
    requires Backed(cs, messages)
    ensures Refs(cs) <= messages.Keys
  {
    if cs != [] {
      var n := |cs| - 1;
      assert BackedAt(cs, n, messages);
      forall i | 0 <= i < n ensures BackedAt(cs[..n], i, messages) {
        assert BackedAt(cs, i, messages);
      }
      BackedIsThere(cs[..n], messages);
    }
  }

  // What is not referenced may come and go.
  lemma BackedFrame(cs: seq<Chunk>, before: map<MessageId, ByteString>, after: map<MessageId, ByteString>)
    requires Backed(cs, before)
    requires forall m :: m in Refs(cs) ==> m in after && m in before && after[m] == before[m]
    ensures Backed(cs, after)
  {
    forall i | 0 <= i < |cs| ensures BackedAt(cs, i, after) {
      assert BackedAt(cs, i, before);
      RefsSplit(cs, i);
    }
  }

  ghost predicate ChunkBacked(c: Chunk, messages: map<MessageId, ByteString>) {
    c.messageId in messages && c.hmac.ChunkTag? && messages[c.messageId] == c.hmac.ciphertext
  }

  // Each chunk is the upload its nonce was drawn for: `nonces` lists those of every upload so far, by message id.
  ghost predicate Issued(cs: seq<Chunk>, nonces: seq<ByteString>) {
    forall i :: 0 <= i < |cs| ==> IssuedAt(cs, i, nonces)
  }

  ghost predicate IssuedAt(cs: seq<Chunk>, i: nat, nonces: seq<ByteString>)
    requires i < |cs|
  {
    ChunkIssued(cs[i], nonces)
  }

  ghost predicate ChunkIssued(c: Chunk, nonces: seq<ByteString>) {
    c.messageId < |nonces| && nonces[c.messageId] == c.nonce
  }

  // No nonce is drawn twice.
  ghost predicate NoRepeat(nonces: seq<ByteString>) {
    forall i, j :: 0 <= i < j < |nonces| ==> nonces[i] != nonces[j]
  }

  lemma IssuedGrows(cs: seq<Chunk>, nonces: seq<ByteString>, more: seq<ByteString>)
    requires Issued(cs, nonces) && nonces <= more
    ensures Issued(cs, more)
  {
    forall i | 0 <= i < |cs| ensures IssuedAt(cs, i, more) {
      assert IssuedAt(cs, i, nonces);
    }
  }

  /** So equal tags mean the very same attachments, and not only the same bytes. */
  lemma SameTagsSameChunks(id: Id, a: seq<Chunk>, b: seq<Chunk>, nonces: seq<ByteString>)
    requires Contiguous(id, a) && Contiguous(id, b) && TagsOf(a) == TagsOf(b)
    requires Issued(a, nonces) && Issued(b, nonces) && NoRepeat(nonces)
    ensures a == b
  {
    assert |a| == |TagsOf(a)| == |b|;
    forall i | 0 <= i < |a| ensures a[i] == b[i] {
      assert ChunkAt(id, a, i) && ChunkAt(id, b, i) && IssuedAt(a, i, nonces) && IssuedAt(b, i, nonces);
      assert TagsOf(a)[i] == TagsOf(b)[i];
      OffsetsAgree(id, a, b, i);
    }
  }

  lemma OffsetsAgree(id: Id, a: seq<Chunk>, b: seq<Chunk>, i: nat)
    requires Contiguous(id, a) && Contiguous(id, b) && TagsOf(a) == TagsOf(b) && i < |a| == |b|
    ensures a[i].offset == b[i].offset && a[i].size == b[i].size && a[i].index == b[i].index
  {
    assert ChunkAt(id, a, i) && ChunkAt(id, b, i);
    assert TagsOf(a)[i] == TagsOf(b)[i];
  }

  class FileBackend {
    const id: Id
    var node: Option<FileDoc>                    // the stored document, if there still is one
    var messages: map<MessageId, ByteString>     // what is on Discord
    var version: Option<Tag>                     // `_node_versions.get(id)`
    var nonces: seq<ByteString>                  // of every upload so far, by message id
    ghost var orphaned: set<MessageId>           // attachments whose deletion was tried and refused
    ghost var refused: nat                       // how many deletions were refused
    ghost var unnamed: Option<(Id, Name)>        // whose removal from which directory was last staged and promoted
    ghost var condemned: bool                    // the document is being destroyed by the handle that made it
    ghost var alwaysSound: bool
    ghost var faults: nat                        // calls that did not do what was asked

    ghost predicate Sound()
      reads this`node, this`messages, this`condemned
    {
      node.Some? ==> DocWellFormed(id, node.value) && (!condemned ==> Backed(node.value.chunks, messages))
    }

    ghost predicate Valid()
      reads this
    {
      && alwaysSound && Sound()
      && NoRepeat(nonces) && (node.Some? ==> Issued(node.value.chunks, nonces))
      && (forall m :: m in messages ==> m < |nonces|)
      && (node.Some? && version.Some? ==> version.value == node.value.mac)
    }

    // The attachments the stored document references.
    ghost function Live(): set<MessageId>
      reads this`node
    {
      if node.Some? then Refs(node.value.chunks) else {}
    }

    // Discord holds what is referenced, and what it refused to delete.
    ghost predicate Balanced()
      reads this`node, this`messages, this`orphaned
    {
      messages.Keys == Live() + orphaned && Live() !! orphaned
    }

    // Discord holds exactly what is referenced.
    ghost predicate Exact()
      reads this`node, this`messages, this`orphaned
    {
      messages.Keys == Live() && orphaned == {}
    }

    /**
     How one call, or many, may leave this from an earlier state: uploads are only ever added, every new
     orphan is a deletion refused meanwhile, every refusal is a fault, and the trash state is nobody's here.
     */
    twostate predicate Onward()
      reads this`nonces, this`refused, this`faults, this`orphaned, this`node
    {
      && old(nonces) <= nonces
      && 0 <= refused - old(refused) <= faults - old(faults)
      && (refused == old(refused) ==> orphaned <= old(orphaned))
      && (node.Some? ==> old(node).Some? && node.value.trashedAt == old(node).value.trashedAt)
    }

    // Balanced but for one attachment nothing references yet, or any more.
    ghost predicate Floating(m: MessageId)
      reads this`node, this`messages, this`orphaned
    {
      messages.Keys == Live() + orphaned + {m} && Live() !! orphaned && m !in Live() && m !in orphaned
    }

    // A file that has just been created: an empty, tagged document and nothing on Discord.
    constructor (id: Id, parentId: Option<Id>, filename: Option<Name>)
      ensures Valid() && Balanced() && this.id == id && faults == 0 && !condemned
      ensures node.Some? && version == Some(node.value.mac) && messages == map[] && Exact()
      ensures node.value.(mac := node.value.mac)
              == FileDoc(id, parentId, filename, 0, [], node.value.mac, None)
    {
      var doc := FileDoc(id, parentId, filename, 0, [],
                         NodeTag(id, OrEmpty(parentId), OrEmpty(filename), 0, [], None), None);
      assert TagsOf([]) == [];
      this.id := id;
      node := Some(doc);
      messages := map[];
      version := Some(doc.mac);
      nonces := [];
      orphaned, refused, unnamed, condemned, alwaysSound, faults := {}, 0, None, false, true, 0;
    }

    // Nonces are 16 random bytes and taken never to repeat: an upload under one that did counts as one that failed.
    method Upload(nonce: ByteString, ciphertext: ByteString) returns (r: Option<MessageId>)
      requires Valid()
      modifies this`messages, this`nonces, this`alwaysSound, this`faults
      ensures Valid() && Onward()
      ensures r.None? ==> messages == old(messages) && faults == old(faults) + 1
      ensures r.Some? ==> r.value == |old(nonces)| && r.value !in old(messages) && nonces == old(nonces) + [nonce]
                          && messages == old(messages)[r.value := ciphertext] && faults == old(faults)
      ensures r.Some? && old(Balanced()) ==> Floating(r.value)
    {
      var lands: bool := *;
      if lands && nonce !in nonces {
        r := Some(|nonces|);
        messages := messages[|nonces| := ciphertext];
        nonces := nonces + [nonce];
        if node.Some? { IssuedGrows(node.value.chunks, old(nonces), nonces); }
      } else {
        r := None;
        faults := faults + 1;
      }
      assert Sound() by {
        if node.Some? && !condemned {
          BackedIsThere(node.value.chunks, old(messages));
          BackedFrame(node.value.chunks, old(messages), messages);
        }
      }
      alwaysSound := alwaysSound && Sound();
    }

    // `_safe_delete_message`. The caller must not take away anything a live document still points at.
    method Delete(m: MessageId) returns (gone: bool)
      requires Valid()
      requires node.Some? && !condemned ==> m !in Refs(node.value.chunks)
      modifies this`messages, this`orphaned, this`refused, this`alwaysSound, this`faults
      ensures Valid() && Onward()
      ensures gone ==> messages == old(messages) - {m} && orphaned == old(orphaned) - {m} && faults == old(faults)
                       && refused == old(refused)
      ensures !gone ==> messages == old(messages) && orphaned == old(orphaned) + ({m} * messages.Keys)
                        && faults == old(faults) + 1 && refused == old(refused) + 1
      ensures old(Floating(m)) ==> Balanced()
    {
      gone := *;
      if gone {
        messages := messages - {m};
        orphaned := orphaned - {m};
      } else {
        orphaned := orphaned + ({m} * messages.Keys);
        refused := refused + 1;
        faults := faults + 1;
      }
      assert Sound() by {
        if node.Some? && !condemned {
          BackedIsThere(node.value.chunks, old(messages));
          BackedFrame(node.value.chunks, old(messages), messages);
        }
      }
      alwaysSound := alwaysSound && Sound();
    }

    // Whatever serves the attachment may serve anything at all; only the right bytes are not a fault.
    method Download(m: MessageId) returns (r: Option<ByteString>)
      modifies this`faults
      ensures faults == old(faults) || faults == old(faults) + 1
      ensures faults == old(faults) ==> m in messages && r == Some(messages[m])
    {
      var served: Option<ByteString> := *;
      r := served;
      faults := if m in messages && r == Some(messages[m]) then faults else faults + 1;
    }

    // `nodes.update_one({"id": id}, {"$set": {"size": .., "chunks": .., "mac": ..}})`.
    method UpdateContent(size: nat, chunks: seq<Chunk>, mac: Tag) returns (lands: bool)
      modifies this`node, this`alwaysSound, this`faults
      ensures lands ==> faults == old(faults)
                        && node == (if old(node).Some?
                                    then Some(old(node).value.(size := size, chunks := chunks, mac := mac))
                                    else None)
      ensures !lands ==> node == old(node) && faults == old(faults) + 1
      ensures alwaysSound == (old(alwaysSound) && Sound())
    {
      lands := *;
      if lands {
        node := if node.Some? then Some(node.value.(size := size, chunks := chunks, mac := mac)) else None;
      } else {
        faults := faults + 1;
      }
      alwaysSound := alwaysSound && Sound();
    }

    method Find() returns (r: Outcome<Option<FileDoc>, ()>)
      modifies this`faults
      ensures r.Ok? ==> r.value == node && faults == old(faults)
      ensures r.Raised? ==> faults == old(faults) + 1
    {
      var answers: bool := *;
      if answers {
        r := Ok(node);
      } else {
        r := Raised(());
        faults := faults + 1;
      }
    }

    method DeleteRow() returns (lands: bool)
      modifies this`node, this`alwaysSound, this`faults
      ensures lands ==> node == None && faults == old(faults)
      ensures !lands ==> node == old(node) && faults == old(faults) + 1
      ensures alwaysSound == (old(alwaysSound) && Sound())
    {
      lands := *;
      if lands {
        node := None;
      } else {
        faults := faults + 1;
      }
      alwaysSound := alwaysSound && Sound();
    }

    // The write `_finish_overwrite` makes visible: the document gets a parent, a name and a tag over both.
    method Attach(parentId: Id, filename: Name, mac: Tag) returns (lands: bool)
      modifies this`node, this`alwaysSound, this`faults
      ensures lands ==> faults == old(faults)
                        && node == (if old(node).Some?
                                    then Some(old(node).value.(parentId := Some(parentId), filename := Some(filename),
                                                               mac := mac))
                                    else None)
      ensures !lands ==> node == old(node) && faults == old(faults) + 1
      ensures alwaysSound == (old(alwaysSound) && Sound())
    {
      lands := *;
      if lands {
        node := if node.Some?
                then Some(node.value.(parentId := Some(parentId), filename := Some(filename), mac := mac))
                else None;
      } else {
        faults := faults + 1;
      }
      alwaysSound := alwaysSound && Sound();
    }

    // The promotion of the tag without `name`, in the directory `d` it was staged in.
    method Unname(d: Id, name: Name) returns (lands: bool)
      modifies this`faults, this`unnamed
      ensures faults == old(faults) + if lands then 0 else 1
      ensures unnamed == if lands then Some((d, name)) else old(unnamed)
    {
      lands := Elsewhere();
      if lands { unnamed := Some((d, name)); }
    }

    // A read or write of some other document on the way (staging or promoting a directory's tag).
    method Elsewhere() returns (lands: bool)
      modifies this`faults
      ensures faults == old(faults) + if lands then 0 else 1
    {
      lands := *;
      if !lands { faults := faults + 1; }
    }

    // A rename by another connection, as one step: a new place, a new tag, a new version.
    method RenamedElsewhere(parentId: Id, filename: Name)
      requires Valid() && node.Some? && !condemned
      modifies this`node, this`version, this`alwaysSound
      ensures Valid() && Onward() && node.Some? && version == Some(node.value.mac)
      ensures node.value == old(node).value.(parentId := Some(parentId), filename := Some(filename),
                                             mac := node.value.mac)
    {
      var moved := node.value.(parentId := Some(parentId), filename := Some(filename));
      moved := moved.(mac := FileMac(moved));
      node, version := Some(moved), Some(moved.mac);
      alwaysSound := alwaysSound && Sound();
    }
  }
}
