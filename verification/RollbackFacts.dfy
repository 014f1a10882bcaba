/**
 The unwinding of a file its handle created (`_rollback` in src/vfs.py): its databases, one write at a time,
 and when the directories still verify in them.

 `_rollback` reads no document. The parent and the name it takes the file out of are those its handle last
 knew, so a rename the handle never heard of sends it to the wrong directory, or leaves the wrong name.
 */
module RollbackFacts {
  import opened Wrappers
  import opened Bytes
  import opened Tags
  import opened Tree
  import opened Paths
  import opened DirectoryTags
  import opened Structure
  import opened Operations
  import opened VfsFacts

  // Where the handle believes its file is; a file in no directory has no parent.
  datatype Belief = Belief(parentId: Option<Id>, filename: Name)

  // Which of the writes the database takes: staging, the deletion of the document, the promotion.
  datatype Takes = Takes(stages: bool, lands: bool, promotes: bool)

  function RemovalTag(db: Db, p: Id, id: Id, was: Name): Tag { StagedMac(db, p, NoEntries(), {(id, was)}) }

  function Dropped(s: State, id: Id): State { State(s.nodes - {id}, s.versions - {id}) }

  // The state after every write.
  function Unwinding(s: State, id: Id, b: Belief, takes: Takes): seq<State> {
    if b.parentId.None? then
      if takes.lands then [Dropped(s, id)] else []
    else
      UnwindingIn(s, id, b.parentId.value, b.filename, takes)
  }

  function UnwindingIn(s: State, id: Id, p: Id, was: Name, takes: Takes): seq<State> {
    // `_stage_entries` raised: the row stays where it is.
    if !takes.stages || !IsDir(s.nodes, p) || !Accepts(s.nodes, p) then [] else
    var tag := RemovalTag(s.nodes, p, id, was);
    var s1 := State(Staged(s.nodes, p, tag), s.versions);
    var s2 := Dropped(s1, id);
    if !takes.lands then [s1]
    else if !takes.promotes then [s1, s2]
    else [s1, s2, State(PromotedTo(s2.nodes, p, tag), s2.versions)]
  }

  // It went all the way: what `_node_removed` says.
  predicate Unlinks(db: Db, b: Belief, takes: Takes) {
    takes.lands && (b.parentId.None? || (takes.stages && takes.promotes && IsDir(db, b.parentId.value) && Accepts(db, b.parentId.value)))
  }

  // What the handle believes is so, or nothing lists the file anyway.
  predicate Right(db: Db, id: Id, b: Belief) {
    id in db && db[id].parentId.Some? && IsDir(db, db[id].parentId.value)
    ==> b.parentId == db[id].parentId && b.filename == NameOf(db[id])
  }

  // No half-finished change behind the directory the handle goes to, nor behind the one the file is in.
  predicate Ready(db: Db, id: Id, b: Belief) {
    && (b.parentId.Some? && IsDir(db, b.parentId.value) ==> Promoted(db, b.parentId.value))
    && (id in db && db[id].parentId.Some? && IsDir(db, db[id].parentId.value)
        ==> Promoted(db, db[id].parentId.value)
            && (b.parentId != db[id].parentId ==> db[db[id].parentId.value].pending.None?))
  }

  ghost predicate Upright(s: State, root: Id) { Shape(s.nodes, root) && VersionsAgree(s) }

  lemma DroppedUpright(s: State, root: Id, id: Id)
    requires Upright(s, root) && id != root
    ensures Upright(Dropped(s, id), root)
  {
    DropShape(s.nodes, root, {id});
    hide Shape;
  }

  lemma TagsUpright(s: State, root: Id, d: Id, entriesMac: Option<Tag>, pending: Option<Tag>)
    requires Upright(s, root) && IsDir(s.nodes, d)
    ensures Upright(State(s.nodes[d := s.nodes[d].(entriesMac := entriesMac, pending := pending)], s.versions), root)
  {
    RelabelShape(s.nodes, root, d, entriesMac, pending);
    hide Shape;
  }

  // Signed and well shaped all along, whatever the belief.
  lemma UnwindingUpright(s: State, root: Id, id: Id, b: Belief, takes: Takes)
    requires Upright(s, root) && id != root
    ensures forall i :: 0 <= i < |Unwinding(s, id, b, takes)| ==> Upright(Unwinding(s, id, b, takes)[i], root)
  {
    hide Upright, Accepts, RemovalTag;
    DroppedUpright(s, root, id);
    if b.parentId.Some? && IsDir(s.nodes, b.parentId.value) {
      var p := b.parentId.value;
      var tag := RemovalTag(s.nodes, p, id, b.filename);
      var s1 := State(Staged(s.nodes, p, tag), s.versions);
      TagsUpright(s, root, p, s.nodes[p].entriesMac, Some(tag));
      DroppedUpright(s1, root, id);
      if IsDir(Dropped(s1, id).nodes, p) { TagsUpright(Dropped(s1, id), root, p, Some(tag), None); }
    }
  }

  // ------------------------------------------------------------------ where a deletion leaves one directory

  // Deleting a document leaves a directory verifying exactly if it did not list it, or one of its tags expects it.
  lemma DroppedAccepts(db: Db, id: Id, e: Id)
    requires Keyed(db) && IsDir(db, e) && e != id
    ensures IsDir(db - {id}, e)
    ensures !IsChild(db, id, e) ==> Accepts(db - {id}, e) == Accepts(db, e) && Promoted(db - {id}, e) == Promoted(db, e)
    ensures IsChild(db, id, e) ==> ChildPairs(db - {id}, e) == ChildPairs(db, e) - {Pair(db[id])}
  {
    PairsAfterDelete(db, id, e);
    if !IsChild(db, id, e) { assert ChildPairs(db - {id}, e) == ChildPairs(db, e); }
  }

  lemma FewerDiffer(pairs: set<Entry>, x: Entry)
    requires x in pairs
    ensures multiset(pairs - {x}) != multiset(pairs)
  {
    assert multiset(pairs)[x] == 1 && multiset(pairs - {x})[x] == 0;
  }

  lemma AddingNothing(pairs: set<Entry>)
    ensures multiset(pairs) + multiset(NoEntries()) == multiset(pairs)
  {
    assert multiset(NoEntries()) == multiset{};
  }

  // The tag staged for the removal: the present listing, unless the pair named is in it.
  lemma RemovalTagIs(db: Db, p: Id, id: Id, was: Name)
    requires Keyed(db) && IsDir(db, p)
    ensures IsChild(db, id, p) && NameOf(db[id]) == was
            ==> RemovalTag(db, p, id, was) == EntriesMac(p, ChildPairs(db, p) - {Pair(db[id])})
    ensures !(IsChild(db, id, p) && NameOf(db[id]) == was) ==> RemovalTag(db, p, id, was) == EntriesMac(p, ChildPairs(db, p))
  {
    PairMeans(db, p, (id, was));
    AddingNothing(ChildPairs(db, p) - {(id, was)});
    if IsChild(db, id, p) && NameOf(db[id]) == was {
      assert Pair(db[id]) == (id, was);
    } else {
      assert ChildPairs(db, p) - {(id, was)} == ChildPairs(db, p);
    }
  }

  // The document goes, with its removal staged: `p` verifies if and only if the right pair was named there.
  lemma DroppedHere(db: Db, p: Id, id: Id, was: Name)
    requires Keyed(db) && IsDir(db, p) && Promoted(db, p) && p != id && id in db
    ensures var db2 := Staged(db, p, RemovalTag(db, p, id, was)) - {id};
            && IsDir(db2, p)
            && (Accepts(db2, p) <==> !IsChild(db, id, p) || NameOf(db[id]) == was)
            && (Accepts(PromotedTo(db2, p, RemovalTag(db, p, id, was)), p) <==> Accepts(db2, p))
  {
    var tag := RemovalTag(db, p, id, was);
    var db1 := Staged(db, p, tag);
    SameMembership(db, db1[p], p);
    RemovalTagIs(db, p, id, was);
    DroppedAccepts(db1, id, p);
    SameMembership(db1 - {id}, PromotedTo(db1 - {id}, p, tag)[p], p);
    if IsChild(db, id, p) {
      PairMeans(db, p, Pair(db[id]));
      FewerDiffer(ChildPairs(db, p), Pair(db[id]));
    }
  }

  // Any other directory.
  lemma DroppedThere(db: Db, p: Id, tag: Tag, id: Id, e: Id)
    requires Keyed(db) && Signed(db) && IsDir(db, p) && IsDir(db, e) && e != p && e != id && id in db
    requires Accepts(db, e) && (IsChild(db, id, e) ==> Promoted(db, e) && db[e].pending.None?)
    ensures var db2 := Staged(db, p, tag) - {id};
            && IsDir(db2, e) && (Accepts(db2, e) <==> !IsChild(db, id, e))
            && (Accepts(PromotedTo(db2, p, tag), e) <==> Accepts(db2, e))
  {
    StagingKeeps(db, p, tag);
    var db1 := Staged(db, p, tag);
    DroppedAccepts(db1, id, e);
    if IsDir(db1 - {id}, p) { SameMembership(db1 - {id}, PromotedTo(db1 - {id}, p, tag)[p], e); }
    if IsChild(db, id, e) {
      PairMeans(db, e, Pair(db[id]));
      FewerDiffer(ChildPairs(db, e), Pair(db[id]));
    }
  }

  // ------------------------------------------------------------------ all directories

  lemma DropCoversExactly(db: Db, id: Id, b: Belief)
    requires Keyed(db) && Covered(db) && Ready(db, id, b) && b.parentId.None? && !IsDir(db, id)
    ensures Covered(db - {id}) <==> Right(db, id, b)
  {
    forall e | IsDir(db, e) ensures IsDir(db - {id}, e) && (Accepts(db - {id}, e) <==> !IsChild(db, id, e)) {
      DroppedAccepts(db, id, e);
      if IsChild(db, id, e) {
        PairMeans(db, e, Pair(db[id]));
        FewerDiffer(ChildPairs(db, e), Pair(db[id]));
      }
    }
    hide Accepts;
    forall e | IsDir(db - {id}, e) ensures IsDir(db, e) {}
  }

  lemma StagedCovers(db: Db, p: Id, id: Id, was: Name)
    requires Keyed(db) && Signed(db) && Covered(db) && IsDir(db, p) && Promoted(db, p)
    ensures Covered(Staged(db, p, RemovalTag(db, p, id, was)))
  {
    StagingKeeps(db, p, RemovalTag(db, p, id, was));
  }

  lemma UnwoundCoversExactly(db: Db, id: Id, b: Belief)
    requires Keyed(db) && Signed(db) && Covered(db) && Ready(db, id, b) && b.parentId.Some? && id in db
    requires IsDir(db, b.parentId.value) && b.parentId.value != id && db[id].parentId != Some(id)
    ensures var p := b.parentId.value; var tag := RemovalTag(db, p, id, b.filename); var db2 := Staged(db, p, tag) - {id};
            && (Covered(db2) <==> Right(db, id, b)) && (Covered(PromotedTo(db2, p, tag)) <==> Right(db, id, b))
  {
    var p := b.parentId.value;
    var tag := RemovalTag(db, p, id, b.filename);
    var db2 := Staged(db, p, tag) - {id};
    var db3 := PromotedTo(db2, p, tag);
    forall e | IsDir(db, e) && e != id
      ensures IsDir(db2, e) && IsDir(db3, e) && (Accepts(db3, e) <==> Accepts(db2, e))
      ensures Accepts(db2, e) <==> IsChild(db, id, e) ==> e == p && NameOf(db[id]) == b.filename
    {
      if e == p { DroppedHere(db, p, id, b.filename); } else { DroppedThere(db, p, tag, id, e); }
    }
    hide Accepts, RemovalTag;
    forall e | IsDir(db2, e) ensures IsDir(db, e) {}
    forall e | IsDir(db3, e) ensures IsDir(db, e) {}
  }

  /**
   In every database of an unwinding every directory verifies, up to the deletion of the document; from then
   on if and only if the pair its handle believed in is the stored one, or no directory lists the file.
   */
  lemma UnwindingVerifiesExactly(s: State, root: Id, id: Id, b: Belief, takes: Takes)
    requires Upright(s, root) && Covered(s.nodes) && Ready(s.nodes, id, b) && id in s.nodes && s.nodes[id].FileNode?
    ensures forall i :: 0 <= i < |Unwinding(s, id, b, takes)| ==>
              var db := Unwinding(s, id, b, takes)[i].nodes; Covered(db) <==> id in db || Right(s.nodes, id, b)
  {
    hide Covered, RemovalTag, Right, Ready, UniqueLive, DirsAbove, Accepts;
    if b.parentId.None? {
      DropCoversExactly(s.nodes, id, b);
    } else if IsDir(s.nodes, b.parentId.value) {
      var p := b.parentId.value;
      ReadyHere(s.nodes, id, b);
      StagedCovers(s.nodes, p, id, b.filename);
      FileHoldsNothing(s.nodes, root, id);
      UnwoundCoversExactly(s.nodes, id, b);
    }
  }

  // Once deleted, deleted.
  lemma UnwoundLast(s: State, id: Id, b: Belief, takes: Takes)
    requires id in s.nodes
    ensures var out := Unwinding(s, id, b, takes);
            || (forall i :: 0 <= i < |out| ==> id in out[i].nodes)
            || (out != [] && id !in out[|out| - 1].nodes && id !in out[|out| - 1].versions)
  {
    hide Accepts, RemovalTag;
  }

  lemma UprightSays(s: State, root: Id)
    requires Upright(s, root)
    ensures Keyed(s.nodes) && Signed(s.nodes)
  {
  }

  lemma FileHoldsNothing(db: Db, root: Id, id: Id)
    requires Shape(db, root) && id in db && db[id].FileNode?
    ensures forall c :: c in db ==> db[c].parentId != Some(id)
  {
  }

  lemma ReadyHere(db: Db, id: Id, b: Belief)
    requires Ready(db, id, b) && b.parentId.Some? && IsDir(db, b.parentId.value)
    ensures Promoted(db, b.parentId.value)
  {
  }

  // With the right pair the directory ends up signed for what it then holds.
  lemma RightSettles(db: Db, p: Id, id: Id)
    requires Keyed(db) && IsDir(db, p) && IsChild(db, id, p) && p != id
    ensures var tag := RemovalTag(db, p, id, NameOf(db[id]));
            PromotedTo(Staged(db, p, tag) - {id}, p, tag) == Settled(db - {id}, p)
  {
    var tag := RemovalTag(db, p, id, NameOf(db[id]));
    RemovalTagIs(db, p, id, NameOf(db[id]));
    DroppedAccepts(db, id, p);
  }

  /**
   Unwinding an attach whose promotion failed: only the pending tag covers the directory, and staging it again
   overwrites that tag. From then on the directory does not verify, until the document is deleted.
   */
  lemma FailedPromotionCovers(s: State, root: Id, id: Id, d: Id, takes: Takes)
    requires Upright(s, root) && Covered(s.nodes) && IsDir(s.nodes, d) && IsChild(s.nodes, id, d) && id != d
    requires s.nodes[id].FileNode?
    requires s.nodes[d].entriesMac == Some(EntriesMac(d, ChildPairs(s.nodes, d) - {Pair(s.nodes[id])}))
    ensures var out := Unwinding(s, id, Belief(Some(d), NameOf(s.nodes[id])), takes);
            && (takes.stages <==> out != [])
            && (forall i :: 0 <= i < |out| ==> (Covered(out[i].nodes) <==> i > 0))
            && (out != [] ==> IsDir(out[0].nodes, d) && !Accepts(out[0].nodes, d))
  {
    hide Accepts, RemovalTag, UniqueLive, DirsAbove, VersionsAgree, Covered;
    CoveredHere(s.nodes, d);
    RestagedFails(s.nodes, id, d);
    RestagedThenDropped(s.nodes, id, d);
  }

  lemma CoveredHere(db: Db, d: Id)
    requires Covered(db) && IsDir(db, d)
    ensures Accepts(db, d)
  {
  }

  lemma RestagedFails(db: Db, id: Id, d: Id)
    requires Keyed(db) && Signed(db) && IsDir(db, d) && IsChild(db, id, d)
    requires db[d].entriesMac == Some(EntriesMac(d, ChildPairs(db, d) - {Pair(db[id])}))
    ensures var db1 := Staged(db, d, RemovalTag(db, d, id, NameOf(db[id])));
            IsDir(db1, d) && !Accepts(db1, d) && !Covered(db1)
  {
    var tag := RemovalTag(db, d, id, NameOf(db[id]));
    RemovalTagIs(db, d, id, NameOf(db[id]));
    PairMeans(db, d, Pair(db[id]));
    FewerDiffer(ChildPairs(db, d), Pair(db[id]));
    StagingCoversExactly(db, d, tag);
  }

  lemma RestagedThenDropped(db: Db, id: Id, d: Id)
    requires Keyed(db) && Signed(db) && Covered(db) && IsDir(db, d) && IsChild(db, id, d) && id != d && !IsDir(db, id)
    requires db[d].entriesMac == Some(EntriesMac(d, ChildPairs(db, d) - {Pair(db[id])}))
    ensures var tag := RemovalTag(db, d, id, NameOf(db[id])); var db2 := Staged(db, d, tag) - {id};
            Covered(db2) && Covered(PromotedTo(db2, d, tag))
  {
    var tag := RemovalTag(db, d, id, NameOf(db[id]));
    var db2 := Staged(db, d, tag) - {id};
    RemovalTagIs(db, d, id, NameOf(db[id]));
    StagingKeeps(db, d, tag);
    PairsAfterDelete(Staged(db, d, tag), id, d);
    hide RemovalTag;
    forall e | IsDir(db2, e) ensures Accepts(db2, e) {
      assert IsDir(db, e) && Accepts(db, e);
      if e != d { DroppedAccepts(Staged(db, d, tag), id, e); }
    }
    PromotionKeeps(db2, d, tag);
  }

  /**
   The case in hand: the file was made in one directory and renamed into another since, and its handle, which
   was never told, gives up. The second directory's tag goes on covering a file that is gone.
   */
  lemma RenamedMeanwhileUncovers(a: Id, b: Id, id: Id, was: Name, name: Name)
    requires a != b && id != a && id != b
    ensures var file := NewFile(id, Some(b), Some(name));
            var db := map[a := TopDir(a, {}), b := TopDir(b, {Pair(file)}), id := file];
            var after := Unwinding(State(db, map[]), id, Belief(Some(a), was), Takes(true, true, true));
            && Promoted(db, a) && Promoted(db, b) && |after| == 3
            && IsDir(after[2].nodes, b) && id !in after[2].nodes && !Accepts(after[2].nodes, b)
  {
    var file := NewFile(id, Some(b), Some(name));
    var db := map[a := TopDir(a, {}), b := TopDir(b, {Pair(file)}), id := file];
    assert IsChild(db, id, b) && ChildPairs(db, b) == {Pair(file)} && ChildPairs(db, a) == {};
    assert Accepts(db, a);
    DroppedThere(db, a, RemovalTag(db, a, id, was), id, b);
  }

  // A directory below nothing, its listing signed.
  function TopDir(d: Id, pairs: set<Entry>): Node {
    Resigned(DirNode(d, None, None, None, DirTag(d, [], [], None), Some(EntriesMac(d, pairs)), None))
  }
}
