/**
 Opening with O_TRUNC (src/vfs.py): the incoming node beside the old file, and what every database in
 between looks like.
 */
module OverwriteFacts {
  import opened Wrappers
  import opened Tags
  import opened Tree
  import opened Paths
  import opened DirectoryTags
  import opened Structure
  import opened Operations
  import opened FileContent
  import opened Attachments
  import opened VfsFacts
  import opened RollbackFacts
  import Subtree
  import TrashView

  // In no directory.
  predicate Detached(db: Db, id: Id) { id in db ==> db[id].parentId.None? }

  function WithContent(n: Node, size: nat, chunks: seq<Chunk>): Node
    requires n.FileNode?
  {
    Resigned(n.(size := size, chunks := chunks))
  }

  // Writing a document that is in no directory.
  lemma DetachedStep(db: Db, root: Id, n: Node)
    requires Shape(db, root) && Covered(db) && Fits(db, root, n) && n.FileNode? && n.parentId.None? && Detached(db, n.id)
    ensures Shape(db[n.id := n], root) && Covered(db[n.id := n]) && KeepsPromoted(db, db[n.id := n])
  {
    hide UniqueLive, DirsAbove;
    var db' := db[n.id := n];
    PutShape(db, root, n);
    forall e ensures ChildPairs(db', e) == ChildPairs(db, e) {
      PairsAfterPut(db, n, e);
    }
    forall e | IsDir(db', e) ensures Carried(db, db', e) && KeepsAt(db, db', {}, e) {
    }
    ChangeKeepsCovered(db, db');
  }


  // New content for a file, wherever it is.
  lemma ContentFits(db: Db, root: Id, id: Id, size: nat, chunks: seq<Chunk>)
    requires Shape(db, root) && id in db && db[id].FileNode?
    ensures Fits(db, root, WithContent(db[id], size, chunks))
  {
    var n := db[id];
    if n.parentId.Some? && n.trashedAt.None? {
      forall c | c in NameTaken(db, n.parentId.value, n.filename.value) ensures c == id {
        assert LiveAt(db, id, n.parentId.value, n.filename.value);
      }
    }
  }

  // How far a swap came: the occupant trashed, the directory staged, the node attached, the tag promoted.
  ghost predicate SwapLog(db: Db, log: seq<State>, o: Id, id: Id, d: Id, name: Name, now: nat)
    requires o in db && id in db && IsDir(db, d)
  {
    var db1 := db[o := WithTrash(db[o], Some(now))];
    var n := Renamed(db[id], d, name);
    && o != d && o != id && IsDir(db1, d) && |log| <= 4
    && (|log| > 0 ==> log[0].nodes == db1)
    && (|log| > 1 ==> log[1].nodes == Staged(db1, d, EnterTag(db1, d, n)))
    && (|log| > 2 ==> log[2].nodes == log[1].nodes[id := n])
    && (|log| > 3 ==> log[3].nodes == Settled(db1[id := n], d))
  }

  lemma SwapLogShown(db: Db, log: seq<State>, o: Id, id: Id, d: Id, name: Name, now: nat, first: State,
                     versions: map<Id, Tag>)
    requires o in db && id in db && db[id].id == id && IsDir(db, d) && o != d && o != id && 0 < |log| <= 4
    requires log[0] == first && first.nodes == db[o := WithTrash(db[o], Some(now))]
    requires log[1..] <= EnterLog(first.nodes, first.versions, versions, d, Renamed(first.nodes[id], d, name))
    ensures SwapLog(db, log, o, id, d, name, now)
  {
    hide EnterTag, Settled;
    var full := EnterLog(first.nodes, first.versions, versions, d, Renamed(first.nodes[id], d, name));
    forall i | 0 < i < |log| ensures log[i] == full[i - 1] {
      assert log[i] == log[1..][i - 1];
    }
    assert first.nodes[id] == db[id] && IsDir(first.nodes, d);
    assert |log| > 1 ==> log[1] == full[0];
    assert |log| > 2 ==> log[2] == full[1];
    assert |log| > 3 ==> log[3] == full[2];
  }

  lemma RootResolves(db: Db, root: Id, path: Path)
    requires Rooted(db, root)
    ensures path == [] ==> ResolvesToDir(db, root, path)
  {
    if path == [] { assert PathTo(db, root, path, root); }
  }

  lemma OnlyOccupant(db: Db, root: Id, d: Id, name: Name, occupant: Option<Id>)
    requires Shape(db, root)
    requires if occupant.Some? then LiveAt(db, occupant.value, d, name) && !IsDir(db, occupant.value)
             else forall c :: !LiveAt(db, c, d, name)
    ensures forall o :: LiveAt(db, o, d, name) ==> occupant == Some(o)
    ensures occupant.None? ==> NameTaken(db, d, name) == {}
    ensures occupant.Some? ==> NameTaken(db, d, name) != {} && occupant.value != root
  {
    if occupant.Some? { assert occupant.value in NameTaken(db, d, name); }
  }

  lemma StillPromoted(db: Db, mid: Db, d: Id)
    requires KeepsPromoted(db, mid) && (IsDir(db, d) ==> Promoted(db, d)) && mid.Keys == db.Keys
    requires IsDir(mid, d) ==> IsDir(db, d)
    ensures IsDir(mid, d) ==> Promoted(mid, d)
  {
    if IsDir(mid, d) { assert KeepsAt(db, mid, {}, d); }
  }

  // What a file handle is opened on: the node, whether this opening made it, and what it is to replace.
  datatype Opened = Opened(node: Node, created: bool, target: Option<(Id, Name)>)


  // Attaching the incoming node under a name nobody holds any more.
  lemma AttachFits(db: Db, root: Id, id: Id, d: Id, name: Name)
    requires Shape(db, root) && id in db && db[id].FileNode? && db[id].parentId.None? && IsDir(db, d)
    requires NameTaken(db, d, name) == {}
    ensures var n := Renamed(db[id], d, name); Fits(db, root, n) && Enters(db, d, n)
  {
  }

  // ------------------------------------------------------------------ while an overwrite is under way

  // The old file whole where it was, or whole in the trash with the finished new one, if anything, in its place.
  ghost predicate AllOrNothing(db: Db, root: Id, path: Path, was: Node, whole: Node, now: nat) {
    was.id in db && (StillThere(db, root, path, was, whole) || SwappedOut(db, root, path, was, whole, now))
  }

  ghost predicate StillThere(db: Db, root: Id, path: Path, was: Node, whole: Node)
    requires was.id in db
  {
    db[was.id] == was && PathTo(db, root, path, was.id) && Detached(db, whole.id)
  }

  ghost predicate SwappedOut(db: Db, root: Id, path: Path, was: Node, whole: Node, now: nat)
    requires was.id in db
  {
    && db[was.id] == WithTrash(was, Some(now)) && TrashView.InTrashList(db, root, was.id)
    && (Detached(db, whole.id) || (whole.id in db && db[whole.id] == whole && PathTo(db, root, path, whole.id)))
  }

  // Before the swap only the incoming node has changed.
  ghost predicate OnlyIncoming(db: Db, db': Db, id: Id) {
    forall c :: c in db && c != id ==> c in db' && db'[c] == db[c]
  }

  lemma BeforeSwap(db: Db, db': Db, root: Id, path: Path, was: Node, whole: Node, now: nat)
    requires Shape(db, root) && PathTo(db, root, path, was.id) && path != [] && db[was.id] == was && whole.id !in db
    requires OnlyIncoming(db, db', whole.id) && Detached(db', whole.id)
    ensures AllOrNothing(db', root, path, was, whole, now)
    ensures PathTo(db', root, path, was.id)
  {
    PathInDb(db, root, path, was.id);
    if Subtree.Descends(db, whole.id, was.id) {
      var k: nat :| Subtree.Under(db, whole.id, was.id, k);
      NewHasNoneBelow(db, whole.id, was.id, k);
    }
    assert Subtree.Under(db, whole.id, whole.id, 0);
    PathKept(db, db', root, whole.id, path, was.id);
  }

  // As it was before the swap, but for the occupant in the trash, the incoming node, and entry tags.
  ghost predicate Swapped(db: Db, db': Db, root: Id, was: Node, whole: Node, now: nat) {
    && Rooted(db', root) && was.id in db' && db'[was.id] == WithTrash(was, Some(now))
    && (forall c :: c in db && c != whole.id && c != was.id ==> c in db' && SamePlace(db[c], db'[c]))
    && (Detached(db', whole.id) || (whole.id in db' && db'[whole.id] == whole))
  }

  // Once the old file is in the trash its place is still there, whatever becomes of the incoming node and of entry tags.
  lemma AfterTrash(db: Db, db': Db, root: Id, path: Path, was: Node, whole: Node, now: nat)
    requires Shape(db, root) && path != [] && now > 0 && whole.id !in db && was.id != whole.id
    requires PathTo(db, root, path, was.id) && db[was.id] == was && Swapped(db, db', root, was, whole, now)
    ensures TrashView.InTrashList(db', root, was.id) && PathTo(db', root, ParentPath(path), was.parentId.value)
  {
    PathInDb(db, root, path, was.id);
    var d := was.parentId.value;
    var mid := db[was.id := WithTrash(was, Some(now))];
    PlaceStays(db, root, ParentPath(path), d, was.id, now);
    if Subtree.Descends(mid, whole.id, d) {
      var k: nat :| Subtree.Under(mid, whole.id, d, k);
      NewHasNoneBelow(mid, whole.id, d, k);
    }
    assert Subtree.Under(mid, whole.id, whole.id, 0);
    PathKept(mid, db', root, whole.id, ParentPath(path), d);
    PathIsNames(db', root, ParentPath(path), d);
  }

  // The incoming node takes the place, or is taken out of it again: each database of the swap and its unwinding.
  lemma DuringSwap(db: Db, db': Db, root: Id, path: Path, was: Node, whole: Node, now: nat)
    requires Shape(db, root) && path != [] && now > 0 && whole.id !in db && was.id != whole.id
    requires PathTo(db, root, path, was.id) && db[was.id] == was && Swapped(db, db', root, was, whole, now)
    requires whole.parentId == was.parentId && whole.filename == was.filename && whole.trashedAt.None?
    ensures AllOrNothing(db', root, path, was, whole, now)
  {
    AfterTrash(db, db', root, path, was, whole, now);
    PathInDb(db, root, path, was.id);
    if !Detached(db', whole.id) {
      var d := was.parentId.value;
      if ParentPath(path) == [] { assert d == root; } else { assert d in db'; }
    }
  }

  lemma SwappedDrop(db: Db, db': Db, root: Id, was: Node, whole: Node, now: nat)
    requires Swapped(db, db', root, was, whole, now) && whole.id !in db && whole.id != root && was.id != whole.id
    ensures Swapped(db, db' - {whole.id}, root, was, whole, now)
  {
  }

  lemma SwappedTags(db: Db, db': Db, root: Id, was: Node, whole: Node, now: nat, d: Id, tag: Tag)
    requires Swapped(db, db', root, was, whole, now) && was.FileNode? && whole.FileNode? && was.id != whole.id
    requires d != whole.id && d != was.id
    ensures IsDir(db', d) ==> Swapped(db, Staged(db', d, tag), root, was, whole, now)
    ensures Swapped(db, PromotedTo(db', d, tag), root, was, whole, now)
  {
  }

  // What the committed writes of an upload leave in the incoming node.
  function Uploaded(n: Node, drafts: seq<(nat, seq<Chunk>)>): (r: Node)
    requires n.FileNode?
    ensures r.FileNode? && r.id == n.id && r.parentId == n.parentId && r.filename == n.filename && r.trashedAt == n.trashedAt
  {
    if drafts == [] then n else WithContent(n, drafts[|drafts| - 1].0, drafts[|drafts| - 1].1)
  }

  // The finished new file, in the old one's place.
  function Finished(id: Id, drafts: seq<(nat, seq<Chunk>)>, was: Node): Node {
    var n := Uploaded(NewFile(id, None, None), drafts);
    Resigned(FileNode(n.id, was.parentId, was.filename, n.trashedAt, n.mac, n.size, n.chunks))
  }

  // It holds what its last commit said, or nothing.
  lemma FinishedHolds(id: Id, drafts: seq<(nat, seq<Chunk>)>, was: Node)
    ensures var n := Finished(id, drafts, was);
            n.FileNode? && n.chunks == DraftChunks(drafts) && n.size == if drafts == [] then 0 else drafts[|drafts| - 1].0
  {
  }

  lemma UploadedStep(n: Node, drafts: seq<(nat, seq<Chunk>)>, i: nat)
    requires n.FileNode? && i < |drafts|
    ensures Uploaded(n, drafts[..i + 1]) == WithContent(Uploaded(n, drafts[..i]), drafts[i].0, drafts[i].1)
  {
  }

  ghost predicate Throughout(log: seq<State>, from: nat, root: Id, path: Path, was: Node, whole: Node, now: nat) {
    forall i :: from <= i < |log| ==> AllOrNothing(log[i].nodes, root, path, was, whole, now)
  }

  lemma ThroughoutMore(log: seq<State>, s: State, from: nat, root: Id, path: Path, was: Node, whole: Node, now: nat)
    requires Throughout(log, from, root, path, was, whole, now) && AllOrNothing(s.nodes, root, path, was, whole, now)
    ensures Throughout(log + [s], from, root, path, was, whole, now)
  {
  }

  // The databases of the swap, as far as it came, are all of that kind.
  lemma SwapIsAllOrNothing(db: Db, mid: Db, log: seq<State>, root: Id, path: Path, was: Node, whole: Node, now: nat)
    requires Shape(db, root) && Shape(mid, root) && path != [] && now > 0 && was.FileNode?
    requires PathTo(db, root, path, was.id) && db[was.id] == was && whole.id !in db
    requires OnlyIncoming(db, mid, whole.id) && whole.id in mid && mid[whole.id].FileNode? && mid[whole.id].parentId.None?
    requires was.parentId.Some? && whole == Renamed(mid[whole.id], was.parentId.value, NameOf(was)) && whole.trashedAt.None?
    requires was.id in mid && IsDir(mid, was.parentId.value)
    requires SwapLog(mid, log, was.id, whole.id, was.parentId.value, NameOf(was), now)
    ensures Throughout(log, 0, root, path, was, whole, now)
    ensures forall i :: 0 <= i < |log| ==> Swapped(db, log[i].nodes, root, was, whole, now)
    ensures |log| == 4 ==> whole.id in log[3].nodes && log[3].nodes[whole.id] == whole && PathTo(log[3].nodes, root, path, whole.id)
  {
    PathInDb(db, root, path, was.id);
    var d := was.parentId.value;
    SettledPlaces(mid[was.id := WithTrash(was, Some(now))][whole.id := whole], d);
    forall i | 0 <= i < |log|
      ensures AllOrNothing(log[i].nodes, root, path, was, whole, now) && Swapped(db, log[i].nodes, root, was, whole, now)
    {
      SwapShapes(db, mid, log, i, root, path, was, whole, now);
      DuringSwap(db, log[i].nodes, root, path, was, whole, now);
    }
    if |log| == 4 { SwapShapes(db, mid, log, 3, root, path, was, whole, now); }
  }

  lemma SwapShapes(db: Db, mid: Db, log: seq<State>, i: nat, root: Id, path: Path, was: Node, whole: Node, now: nat)
    requires Shape(mid, root) && was.FileNode? && whole.id !in db && was.id in db && db[was.id] == was && root in db
    requires OnlyIncoming(db, mid, whole.id) && whole.id in mid && mid[whole.id].FileNode? && mid[whole.id].parentId.None?
    requires was.parentId.Some? && whole == Renamed(mid[whole.id], was.parentId.value, NameOf(was))
    requires was.id in mid && IsDir(mid, was.parentId.value) && i < |log| && was.filename.Some?
    requires SwapLog(mid, log, was.id, whole.id, was.parentId.value, NameOf(was), now)
    ensures Swapped(db, log[i].nodes, root, was, whole, now)
    ensures i >= 2 ==> whole.id in log[i].nodes && log[i].nodes[whole.id] == whole
  {
    var d := was.parentId.value;
    var db1 := mid[was.id := WithTrash(was, Some(now))];
    var after := db1[whole.id := whole];
    ShapeSays(mid, root);
    hide Shape, UniqueLive, DirsAbove, Named, Signed, SwapLog, Near;
    SwapNear(mid, log, was, whole, now);
    SwapShape(db, mid, if i < 2 then db1 else after, log[i].nodes, root, was, whole, now);
  }

  // The same documents in the same places; at most one directory's own fields differ.
  ghost predicate Near(base: Db, db': Db, d: Id) {
    db'.Keys == base.Keys && forall c :: c in base ==> SamePlace(base[c], db'[c]) && (c != d ==> db'[c] == base[c])
  }

  lemma SwapNear(mid: Db, log: seq<State>, was: Node, whole: Node, now: nat)
    requires was.id in mid && mid[was.id] == was && was.parentId.Some? && whole.id in mid && IsDir(mid, was.parentId.value)
    requires whole == Renamed(mid[whole.id], was.parentId.value, NameOf(was)) && mid[whole.id].id == whole.id
    requires SwapLog(mid, log, was.id, whole.id, was.parentId.value, NameOf(was), now)
    ensures var d := was.parentId.value; var db1 := mid[was.id := WithTrash(was, Some(now))];
            var after := db1[whole.id := whole];
            forall i :: 0 <= i < |log| ==> Near(if i < 2 then db1 else after, log[i].nodes, d)
  {
    var d := was.parentId.value;
    var db1 := mid[was.id := WithTrash(was, Some(now))];
    var after := db1[whole.id := whole];
    hide EnterTag;
    if |log| > 1 { OnlyTags(db1, log[1].nodes, d); }
    if |log| > 3 { OnlyTags(after, log[3].nodes, d); }
  }

  // One of them: the trashed occupant, with or without the new file, and some directory's tags.
  lemma SwapShape(db: Db, mid: Db, base: Db, db': Db, root: Id, was: Node, whole: Node, now: nat)
    requires Rooted(mid, root) && Keyed(mid) && was.id in db && db[was.id] == was && root in db && whole.id !in db
    requires OnlyIncoming(db, mid, whole.id) && was.FileNode? && was.parentId.Some? && IsDir(mid, was.parentId.value)
    requires whole.id in mid && mid[whole.id].FileNode? && mid[whole.id].parentId.None?
    requires base == mid[was.id := WithTrash(was, Some(now))] || base == mid[was.id := WithTrash(was, Some(now))][whole.id := whole]
    requires Near(base, db', was.parentId.value)
    ensures Swapped(db, db', root, was, whole, now)
    ensures base == mid[was.id := WithTrash(was, Some(now))][whole.id := whole] ==> whole.id in db' && db'[whole.id] == whole
  {
  }

  // Only the entry tags of one directory differ.
  lemma OnlyTags(db: Db, db': Db, d: Id)
    requires IsDir(db, d) && ((exists tag :: db' == Staged(db, d, tag)) || db' == Settled(db, d))
    ensures db'.Keys == db.Keys && forall c :: c in db ==> SamePlace(db[c], db'[c]) && (c != d ==> db'[c] == db[c])
  {
  }

  lemma ThroughoutBegins(log: seq<State>, root: Id, path: Path, was: Node, whole: Node, now: nat)
    ensures Throughout(log, |log|, root, path, was, whole, now)
  {
  }

  lemma ThroughoutJoined(log: seq<State>, more: seq<State>, from: nat, root: Id, path: Path, was: Node, whole: Node, now: nat)
    requires Throughout(log, from, root, path, was, whole, now) && Throughout(more, 0, root, path, was, whole, now)
    ensures Throughout(log + more, from, root, path, was, whole, now)
  {
    hide AllOrNothing;
  }

  lemma FinishedIs(id: Id, drafts: seq<(nat, seq<Chunk>)>, was: Node)
    requires was.parentId.Some? && was.filename.Some?
    ensures var n := Uploaded(NewFile(id, None, None), drafts);
            && n.FileNode? && n.parentId.None? && n.trashedAt.None? && n.id == id
            && Finished(id, drafts, was) == Renamed(n, was.parentId.value, NameOf(was))
            && Finished(id, drafts, was).id == id && Finished(id, drafts, was).trashedAt.None?
            && Finished(id, drafts, was).FileNode? && Finished(id, drafts, was).parentId == was.parentId
            && Finished(id, drafts, was).filename == was.filename && n.chunks == DraftChunks(drafts) == Finished(id, drafts, was).chunks
    ensures Uploaded(NewFile(id, None, None), drafts[..0]) == NewFile(id, None, None)
  {
  }

  lemma OneFileThere(db: Db, root: Id, path: Path, was: Node)
    requires Shape(db, root) && path != [] && PathTo(db, root, path, was.id) && db[was.id] == was && was.FileNode?
    ensures was.parentId.Some? && LiveAt(db, was.id, was.parentId.value, NameOf(was))
    ensures forall o :: LiveAt(db, o, was.parentId.value, NameOf(was)) ==> o == was.id && !IsDir(db, o)
  {
    forall o | LiveAt(db, o, was.parentId.value, NameOf(was)) ensures o == was.id {
      OneHolder(db, o, was.id, was.parentId.value, NameOf(was));
    }
  }

  // The directory is still ready for the swap: only the incoming node has been written since.
  lemma StillReady(db: Db, mid: Db, root: Id, path: Path, was: Node, id: Id)
    requires Shape(db, root) && path != [] && PathTo(db, root, path, was.id) && db[was.id] == was
    requires ReadyAt(db, root, ParentPath(path)) && KeepsPromoted(db, mid) && OnlyIncoming(db, mid, id) && id !in db
    ensures was.parentId.Some? && IsDir(db, was.parentId.value) && IsDir(mid, was.parentId.value)
    ensures Promoted(mid, was.parentId.value)
  {
    PathInDb(db, root, path, was.id);
    var d := was.parentId.value;
    assert Promoted(db, d);
    assert KeepsAt(db, mid, {}, d);
  }

  lemma NoneUploaded(n: Node, drafts: seq<(nat, seq<Chunk>)>)
    requires n.FileNode?
    ensures Uploaded(n, drafts[..0]) == n
  {
  }

  // What was uploaded goes, as far as Discord allows, and nothing that was there before.
  lemma OnlyDraftGone(before: set<MessageId>, up: set<MessageId>, after: set<MessageId>, chunks: seq<Chunk>, refusals: nat)
    requires up == before + Refs(chunks) && Refs(chunks) !! before && Deletes(up, after, RefList(chunks), refusals)
    ensures before <= after <= up && (refusals == 0 ==> after == before)
  {
    RefListIsRefs(chunks);
    hide Refs, RefList;
  }

  // How an overwriting open ends: whole, given up before the close, or in a close of which `reach` writes land.
  datatype Fate = Finishes | GivenUp | Breaks(reach: nat)

  // What the last commit of an upload leaves referenced.
  function DraftChunks(drafts: seq<(nat, seq<Chunk>)>): seq<Chunk> { if drafts == [] then [] else drafts[|drafts| - 1].1 }

  lemma UploadedChunks(n: Node, drafts: seq<(nat, seq<Chunk>)>)
    requires n.FileNode? && n.chunks == []
    ensures Uploaded(n, drafts).chunks == DraftChunks(drafts)
    ensures forall i :: 0 <= i < |drafts| ==> DraftChunks(drafts[..i + 1]) == drafts[i].1
  {
  }

  lemma NothingSwapped(db: Db, root: Id, o: Id, id: Id, d: Id, name: Name, now: nat)
    requires Shape(db, root) && LiveAt(db, o, d, name) && id in db && db[id].parentId.None? && IsDir(db, d) && !IsDir(db, o)
    ensures SwapLog(db, [], o, id, d, name, now)
  {
  }

  // The unwinding leaves the old file in the trash as it is.
  lemma UnwindingSwapped(db: Db, s: State, root: Id, was: Node, whole: Node, now: nat, b: Belief, takes: Takes)
    requires Swapped(db, s.nodes, root, was, whole, now) && was.FileNode? && whole.FileNode? && was.id != whole.id
    requires whole.id !in db && whole.id != root && (b.parentId.Some? ==> b.parentId.value != whole.id && b.parentId.value != was.id)
    ensures forall i :: 0 <= i < |Unwinding(s, whole.id, b, takes)|
              ==> Swapped(db, Unwinding(s, whole.id, b, takes)[i].nodes, root, was, whole, now)
  {
    hide Swapped, Accepts, RemovalTag;
    SwappedDrop(db, s.nodes, root, was, whole, now);
    if b.parentId.Some? && IsDir(s.nodes, b.parentId.value) {
      var p := b.parentId.value;
      var tag := RemovalTag(s.nodes, p, whole.id, b.filename);
      SwappedTags(db, s.nodes, root, was, whole, now, p, tag);
      SwappedDrop(db, Staged(s.nodes, p, tag), root, was, whole, now);
      SwappedTags(db, Staged(s.nodes, p, tag) - {whole.id}, root, was, whole, now, p, tag);
    }
  }

  lemma UnwindingThroughout(db: Db, s: State, root: Id, path: Path, was: Node, whole: Node, now: nat, b: Belief, takes: Takes)
    requires Shape(db, root) && path != [] && now > 0 && whole.id !in db && was.id != whole.id
    requires PathTo(db, root, path, was.id) && db[was.id] == was && Swapped(db, s.nodes, root, was, whole, now)
    requires whole.parentId == was.parentId && whole.filename == was.filename && whole.trashedAt.None?
    requires was.FileNode? && whole.FileNode? && whole.id != root
    requires b.parentId.Some? ==> b.parentId.value != whole.id && b.parentId.value != was.id
    ensures Throughout(Unwinding(s, whole.id, b, takes), 0, root, path, was, whole, now)
    ensures forall i :: 0 <= i < |Unwinding(s, whole.id, b, takes)|
              ==> Swapped(db, Unwinding(s, whole.id, b, takes)[i].nodes, root, was, whole, now)
  {
    hide Swapped, AllOrNothing, Shape, PathTo, Unwinding;
    UnwindingSwapped(db, s, root, was, whole, now, b, takes);
    var out := Unwinding(s, whole.id, b, takes);
    forall i | 0 <= i < |out| ensures AllOrNothing(out[i].nodes, root, path, was, whole, now) {
      DuringSwap(db, out[i].nodes, root, path, was, whole, now);
    }
  }

  // After the attach, before its promotion.
  lemma HalfAttached(mid: Db, db2: Db, log: seq<State>, o: Id, id: Id, d: Id, name: Name, now: nat)
    requires Keyed(mid) && o in mid && id in mid && IsDir(mid, d) && Promoted(mid, d) && mid[id].parentId.None? && id != d
    requires SwapLog(mid, log, o, id, d, name, now) && |log| == 3 && db2 == log[2].nodes && id != o
    ensures IsDir(db2, d) && IsChild(db2, id, d) && db2[id] == Renamed(mid[id], d, name) && NameOf(db2[id]) == name
    ensures db2[d].entriesMac == Some(EntriesMac(d, ChildPairs(db2, d) - {Pair(db2[id])}))
  {
    var db1 := mid[o := WithTrash(mid[o], Some(now))];
    var n := Renamed(mid[id], d, name);
    hide EnterTag;
    SameMembership(mid, WithTrash(mid[o], Some(now)), d);
    SameMembership(db1, log[1].nodes[d], d);
    PairsAfterPut(log[1].nodes, n, d);
    PairMeans(mid, d, Pair(n));
    assert ChildPairs(db2, d) == ChildPairs(mid, d) + {Pair(n)};
    assert ChildPairs(db2, d) - {Pair(n)} == ChildPairs(mid, d);
  }
}
