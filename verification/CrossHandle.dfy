/**
 Several handles on one file (src/vfs.py): nobody tells a handle that another one committed; the version
 cache does. These runs put a writer, a rename by a third party and a reader on the same document.
 */
module CrossHandle {
  import opened Wrappers
  import opened Bytes
  import opened Tags
  import opened FileContent
  import opened Backend
  import opened FileHandle

  // A writer's whole life: one write, and a close that commits it.
  method WriteAndClose(w: DiscordFile, offset: nat, data: ByteString) returns (done: bool)
    requires w.Valid() && w.writable && !w.failed && !w.closed && w.target.None? && data != []
    modifies w, w.backend
    ensures w.Valid() && w.backend.Onward()
    ensures done ==> w.Owns() && !w.failed && w.buffer == []
    ensures done
            ==> w.Committed() == Splice(old(w.Visible()), if w.appendMode then |old(w.Visible())| else offset, data)
  {
    hide Refs, DistinctIds, Backed, Issued, NoRepeat, Flat, Content, Splice, Contiguous, FileBackend.Sound, DiscordFile.Conserves;
    done := false;
    var wrote := w.WriteAt(offset, data);
    if wrote.Ok? {
      var shut := w.Close();
      done := shut.Ok?;
    }
  }

  // A handle on the same file, nothing of its own in flight; it may well be open for writing too.
  ghost predicate Idle(v: DiscordFile)
    reads v, v.backend
  {
    v.Valid() && v.buffer == [] && !v.failed && v.nodeRemoved.None? && v.target.None?
  }

  // Where a write of `w` lands, and what it leaves of a file of content `seen`.
  ghost function Written(w: DiscordFile, seen: ByteString, offset: nat, data: ByteString): ByteString
  {
    Splice(seen, if w.appendMode then |seen| else offset, data)
  }

  // Whatever its copy was, an idle handle is still good for use once another one has committed and closed.
  lemma StaysIdle(w: DiscordFile, v: DiscordFile, nonces: seq<ByteString>)
    requires w.backend == v.backend && w.cipher == v.cipher
    requires w.Valid() && w.Owns() && !w.failed && w.buffer == []
    requires v.LocalOk() && v.buffer == [] && !v.failed && v.nodeRemoved.None? && v.target.None?
    requires Issued(v.node.chunks, nonces) && nonces <= v.backend.nonces
    requires v.writable ==> v.node.trashedAt == v.backend.node.value.trashedAt
    ensures Idle(v) && v.Visible() == w.Committed() && v.Reachable()
  {
    hide Refs, DistinctIds, Backed, Flat, Content, Contiguous, NoRepeat, FileBackend.Sound, DiscordFile.CacheOk;
    IssuedGrows(v.node.chunks, nonces, v.backend.nonces);
  }

  /** A reader with a copy of any age reads exactly what the writer committed, though the file moved since. */
  method ReaderSeesWriter(w: DiscordFile, r: DiscordFile, offset: nat, data: ByteString,
                          parentId: Id, filename: Name, at: int, count: int)
    returns (done: bool, got: Outcome<ByteString, Error>)
    requires w != r && w.backend == r.backend && w.cipher == r.cipher && Idle(r)
    requires w.Valid() && w.writable && !w.failed && !w.closed && w.target.None? && data != []
    modifies w, r, w.backend
    ensures done ==> r.Valid()
    ensures done && got.Ok? ==> got.value == Slice(Written(w, old(w.Visible()), offset, data), at, count)
    ensures done && got.Raised? ==> !r.readable || r.backend.faults > old(r.backend.faults)
  {
    hide Refs, DistinctIds, Backed, Issued, NoRepeat, Flat, Content, Splice, Contiguous, Slice, FileBackend.Sound, DiscordFile.Conserves;
    got := Raised(Transport);
    ghost var nonces := w.backend.nonces;
    done := WriteAndClose(w, offset, data);
    if done {
      StaysIdle(w, r, nonces);
      got := MovedThenRead(r, parentId, filename, at, count);
    }
  }

  method MovedThenRead(r: DiscordFile, parentId: Id, filename: Name, at: int, count: int)
    returns (got: Outcome<ByteString, Error>)
    requires Idle(r) && r.Reachable()
    modifies r, r.backend
    ensures r.Valid() && r.backend.Onward()
    ensures got.Ok? ==> got.value == Slice(old(r.Visible()), at, count)
    ensures got.Raised? ==> !r.readable || r.backend.faults > old(r.backend.faults)
  {
    hide Refs, DistinctIds, Backed, Issued, NoRepeat, Flat, Content, Splice, Contiguous, Slice, FileBackend.Sound;
    hide DiscordFile.CacheOk, DiscordFile.Conserves;
    r.backend.RenamedElsewhere(parentId, filename);
    got := r.ReadAt(at, count);
  }

  /** The next write of a handle that has been idle goes on top of what another one committed meanwhile. */
  method WriterFollowsWriter(w: DiscordFile, v: DiscordFile, first: ByteString, at: nat, second: ByteString, later: nat)
    returns (done: bool, r: Outcome<nat, Error>)
    requires w != v && w.backend == v.backend && w.cipher == v.cipher && Idle(v) && v.writable
    requires w.Valid() && w.writable && !w.failed && !w.closed && w.target.None? && first != [] && second != []
    modifies w, v, w.backend
    ensures done ==> v.Valid()
    ensures done && r.Ok? ==> v.Visible() == Written(v, Written(w, old(w.Visible()), at, first), later, second)
  {
    hide Refs, DistinctIds, Backed, Issued, NoRepeat, Flat, Content, Splice, Contiguous, FileBackend.Sound, DiscordFile.Conserves;
    r := Raised(Transport);
    ghost var nonces := w.backend.nonces;
    done := WriteAndClose(w, at, first);
    if done {
      StaysIdle(w, v, nonces);
      r := v.WriteAt(later, second);
    }
  }

  /** And so does its next truncation. */
  method TruncateFollowsWriter(w: DiscordFile, v: DiscordFile, offset: nat, data: ByteString, size: nat)
    returns (done: bool, r: Outcome<(), Error>)
    requires w != v && w.backend == v.backend && w.cipher == v.cipher && Idle(v) && v.writable
    requires w.Valid() && w.writable && !w.failed && !w.closed && w.target.None? && data != []
    modifies w, v, w.backend
    ensures done ==> v.Valid()
    ensures done && r.Ok? ==> v.Owns() && v.Visible() == Resized(Written(w, old(w.Visible()), offset, data), size)
  {
    hide Refs, DistinctIds, Backed, Issued, NoRepeat, Flat, Content, Splice, Contiguous, Resized, FileBackend.Sound, DiscordFile.Conserves;
    r := Raised(Transport);
    ghost var nonces := w.backend.nonces;
    done := WriteAndClose(w, offset, data);
    if done {
      StaysIdle(w, v, nonces);
      r := v.TruncateTo(size);
    }
  }

  /**
   An upload given up after the file was renamed: the handle was never told, and takes the name out of the
   directory the file was in when the handle last looked. `Vfs.DiscordVfs.Rollback` says what that does.
   */
  method RenamedThenAborted(w: DiscordFile, parentId: Id, filename: Name)
    requires w.Valid() && w.InStep() && w.writable && !w.failed && !w.closed && w.createdByHandle && w.target.None?
    requires OrEmpty(w.node.parentId) != []
    modifies w, w.backend
    ensures w.Valid()
    ensures w.backend.faults == old(w.backend.faults) ==> w.nodeRemoved == Some(true)
    ensures w.nodeRemoved == Some(true)
            ==> w.backend.unnamed == Some((OrEmpty(old(w.backend.node.value.parentId)), OrEmpty(old(w.backend.node.value.filename))))
  {
    hide Refs, DistinctIds, Backed, Issued, NoRepeat, Flat, Content, Splice, Contiguous, FileBackend.Sound, DiscordFile.Conserves;
    w.InStepPlace();
    w.backend.RenamedElsewhere(parentId, filename);
    w.Abort();
  }

  /** A rename between two writes is taken up by the second one: the file verifies and nothing is lost. */
  method RenameBetweenWrites(w: DiscordFile, first: ByteString, parentId: Id, filename: Name, second: ByteString)
    returns (a: Outcome<nat, Error>, b: Outcome<nat, Error>)
    requires w.Valid() && w.writable && !w.failed && w.target.None? && w.appendMode
    requires first != [] && second != []
    modifies w, w.backend
    ensures w.Valid()
    ensures a.Ok? && b.Ok? ==> w.Visible() == old(w.Visible()) + first + second
    ensures a.Ok? && b.Ok? ==> w.backend.node.Some? && w.backend.node.value.mac == FileMac(w.backend.node.value)
  {
    hide Refs, DistinctIds, Backed, Issued, NoRepeat, Flat, Content, Contiguous, Splice, FileBackend.Sound, DiscordFile.Conserves;
    a := w.WriteAt(0, first);
    b := Raised(Transport);
    if a.Ok? {
      SpliceAtEnd(old(w.Visible()), first);
      w.backend.RenamedElsewhere(parentId, filename);
      b := w.WriteAt(0, second);
      SpliceAtEnd(old(w.Visible()) + first, second);
      if b.Ok? { w.StoredShape(); }
    }
  }

  lemma SpliceAtEnd(v: ByteString, d: ByteString)
    ensures Splice(v, |v|, d) == v + d
  {
    assert Extend(v, |v|) == v;
  }
}
