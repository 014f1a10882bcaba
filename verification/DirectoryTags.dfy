/**
 Stage, change, promote (src/vfs.py): how a directory's entry tag follows its children, one document
 write at a time, so that stopping between any two of them leaves a listing that still verifies.
 */
module DirectoryTags {
  import opened Wrappers
  import opened Tags
  import opened Tree

  // The tag `_stage_entries` computes: the children there are, less `remove`, plus `add`.
  function StagedMac(db: Db, d: Id, add: set<Entry>, remove: set<Entry>): Tag {
    EntriesTag(d, multiset(ChildPairs(db, d) - remove) + multiset(add))
  }

  lemma StagedIsListing(db: Db, d: Id, add: set<Entry>, remove: set<Entry>)
    requires add !! (ChildPairs(db, d) - remove)
    ensures StagedMac(db, d, add, remove) == EntriesMac(d, (ChildPairs(db, d) - remove) + add)
  {
    var rest := ChildPairs(db, d) - remove;
    assert multiset(rest) + multiset(add) == multiset(rest + add);
  }

  function Staged(db: Db, d: Id, tag: Tag): Db
    requires IsDir(db, d)
  {
    db[d := db[d].(pending := Some(tag))]
  }

  // The promotion; on a directory that is gone it does nothing.
  function PromotedTo(db: Db, d: Id, tag: Tag): Db {
    if IsDir(db, d) then db[d := db[d].(entriesMac := Some(tag), pending := None)] else db
  }

  /**
   What one document write may do to a directory: leave its children and its tags alone, or turn its
   children into what its pending tag says. A new directory comes with its own listing signed.
   */
  ghost predicate Carried(db: Db, db': Db, d: Id)
    requires IsDir(db', d)
  {
    if d !in db then Promoted(db', d)
    else
      && db[d].DirNode? && db'[d].entriesMac == db[d].entriesMac && db'[d].pending == db[d].pending
      && (ChildPairs(db', d) == ChildPairs(db, d) || db[d].pending == Some(EntriesMac(d, ChildPairs(db', d))))
  }

  /** A write that carries every directory leaves every directory verifying. */
  lemma ChangeKeepsCovered(db: Db, db': Db)
    requires Covered(db) && forall d :: IsDir(db', d) ==> Carried(db, db', d)
    ensures Covered(db')
  {
    forall d | IsDir(db', d) ensures Accepts(db', d) {
      assert Carried(db, db', d);
      if d in db { assert IsDir(db, d) && Accepts(db, d); }
    }
  }

  // Fields that are no part of membership may change under a document's hand.
  lemma SameMembership(db: Db, n: Node, d: Id)
    requires Keyed(db) && n.id in db && n.parentId == db[n.id].parentId && NameOf(n) == NameOf(db[n.id])
    ensures ChildPairs(db[n.id := n], d) == ChildPairs(db, d)
  {
    PairsAfterPut(db, n, d);
    PairMeans(db, d, Pair(n));
  }

  /** Staging changes no child and no promoted tag, so what was promoted stays covered. */
  lemma StagingKeeps(db: Db, d: Id, tag: Tag)
    requires Keyed(db) && Signed(db) && IsDir(db, d)
    ensures Keyed(Staged(db, d, tag)) && Signed(Staged(db, d, tag))
    ensures forall e :: ChildPairs(Staged(db, d, tag), e) == ChildPairs(db, e)
    ensures forall e :: IsDir(Staged(db, d, tag), e) ==> IsDir(db, e) && (Promoted(Staged(db, d, tag), e) <==> Promoted(db, e))
    ensures Covered(db) && Promoted(db, d) ==> Covered(Staged(db, d, tag))
  {
    var db' := Staged(db, d, tag);
    forall e ensures ChildPairs(db', e) == ChildPairs(db, e) {
      SameMembership(db, db'[d], e);
    }
    if Covered(db) && Promoted(db, d) {
      forall e | IsDir(db', e) ensures Accepts(db', e) {
        assert IsDir(db, e) && Accepts(db, e);
      }
    }
  }

  /** Promoting a tag over the children there are. */
  lemma PromotionKeeps(db: Db, d: Id, tag: Tag)
    requires Keyed(db) && Signed(db) && (IsDir(db, d) ==> tag == EntriesMac(d, ChildPairs(db, d)))
    ensures Keyed(PromotedTo(db, d, tag)) && Signed(PromotedTo(db, d, tag))
    ensures forall e :: ChildPairs(PromotedTo(db, d, tag), e) == ChildPairs(db, e)
    ensures forall e :: IsDir(PromotedTo(db, d, tag), e) ==> IsDir(db, e)
    ensures forall e :: IsDir(db, e) ==> IsDir(PromotedTo(db, d, tag), e)
                                         && (Promoted(PromotedTo(db, d, tag), e) <==> e == d || Promoted(db, e))
    ensures Covered(db) ==> Covered(PromotedTo(db, d, tag))
  {
    var db' := PromotedTo(db, d, tag);
    if IsDir(db, d) {
      forall e ensures ChildPairs(db', e) == ChildPairs(db, e) {
        SameMembership(db, db'[d], e);
      }
      if Covered(db) {
        forall e | IsDir(db', e) ensures Accepts(db', e) {
          assert IsDir(db, e) && Accepts(db, e);
        }
      }
    }
  }

  function NoEntries(): set<Entry> { {} }

  // ------------------------------------------------------------------ the exact limit of the protocol

  /**
   `_stage_entries` accepts a directory whose pending tag matches, and then overwrites that tag. Until the
   change is made the directory verifies if and only if its promoted tag matched too, or the staged
   listing is the present one.
   */
  lemma StagingCoversExactly(db: Db, d: Id, tag: Tag)
    requires Keyed(db) && Signed(db) && IsDir(db, d)
    ensures Accepts(Staged(db, d, tag), d) <==> Promoted(db, d) || tag == EntriesMac(d, ChildPairs(db, d))
  {
    StagingKeeps(db, d, tag);
  }

  /**
   The case in hand: an operation died after adding `first` and before promoting, so only the pending tag
   matches. Staging the addition of `second` then leaves a listing that neither tag covers.
   */
  lemma StagingAfterDeathUncovers(d: Id, first: Node, second: Entry)
    requires first.FileNode? && first.id != d && first.parentId == Some(d) && first.id != second.0
    ensures var dir := DirNode(d, None, None, None, DirTag(d, [], [], None), Some(EntriesMac(d, {})),
                               Some(EntriesMac(d, {Pair(first)})));
            var db := map[d := dir, first.id := Resigned(first)];
            Accepts(db, d) && !Accepts(Staged(db, d, StagedMac(db, d, {second}, {})), d)
  {
    var dir := DirNode(d, None, None, None, DirTag(d, [], [], None), Some(EntriesMac(d, {})),
                       Some(EntriesMac(d, {Pair(first)})));
    var db := map[d := dir, first.id := Resigned(first)];
    assert IsChild(db, first.id, d);
    assert ChildPairs(db, d) == {Pair(first)};
    var tag := StagedMac(db, d, {second}, {});
    StagingCoversExactly(db, d, tag);
    assert multiset({Pair(first)})[Pair(first)] == 1;
    assert multiset({Pair(first)}) != multiset(NoEntries());
    assert (multiset({Pair(first)} - {}) + multiset({second}))[second] == 1 && multiset({Pair(first)})[second] == 0;
  }
}
