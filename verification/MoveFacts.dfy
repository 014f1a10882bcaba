/**
 A move that goes by a parent and a name read before its locks (`rename` and `restore` in src/vfs.py): what
 every directory is left with when it has completed.
 */
module MoveFacts {
  import opened Wrappers
  import opened Tags
  import opened Tree
  import opened DirectoryTags
  import RollbackFacts

  // What the move stages for a directory: `s` loses the pair that was read, `t` gains the new one.
  function MoveTag(db: Db, id: Id, s: Id, was: Name, t: Id, name: Name, e: Id): Tag {
    StagedMac(db, e, Gained(id, t, name, e), Gained(id, s, was, e))
  }

  function Gained(id: Id, d: Id, name: Name, e: Id): set<Entry> { if e == d then {(id, name)} else {} }

  // What a directory lists of `id`.
  function Own(db: Db, id: Id, e: Id): set<Entry> { if IsChild(db, id, e) then {Pair(db[id])} else {} }

  // Tags of a directory, whatever they are, are no part of what any directory lists.
  lemma TagsAside(db: Db, d: Id, entriesMac: Option<Tag>, pending: Option<Tag>, e: Id)
    requires Keyed(db) && IsDir(db, d)
    ensures var db' := db[d := db[d].(entriesMac := entriesMac, pending := pending)];
            Keyed(db') && ChildPairs(db', e) == ChildPairs(db, e)
  {
    SameMembership(db, db[d].(entriesMac := entriesMac, pending := pending), e);
  }

  function StagedBoth(db: Db, s: Id, out: Tag, t: Id, into: Tag): Db
    requires IsDir(db, s) && IsDir(db, t)
  {
    Staged(Staged(db, s, out), t, into)
  }

  function PromotedBoth(db: Db, s: Id, out: Tag, t: Id, into: Tag): Db { PromotedTo(PromotedTo(db, s, out), t, into) }

  lemma StagedBothKeeps(db: Db, s: Id, out: Tag, t: Id, into: Tag, e: Id)
    requires Keyed(db) && IsDir(db, s) && IsDir(db, t)
    ensures var db' := StagedBoth(db, s, out, t, into); Keyed(db') && ChildPairs(db', e) == ChildPairs(db, e)
  {
    hide ChildPairs, Keyed;
    TagsAside(db, s, db[s].entriesMac, Some(out), e);
    TagsAside(Staged(db, s, out), t, Staged(db, s, out)[t].entriesMac, Some(into), e);
  }

  lemma PromotedBothKeeps(db: Db, s: Id, out: Tag, t: Id, into: Tag, e: Id)
    requires Keyed(db) && IsDir(db, s) && IsDir(db, t)
    ensures ChildPairs(PromotedBoth(db, s, out, t, into), e) == ChildPairs(db, e)
  {
    hide ChildPairs, Keyed;
    TagsAside(db, s, Some(out), None, e);
    TagsAside(PromotedTo(db, s, out), t, Some(into), None, e);
  }

  // Both directories staged, the document written, both promoted.
  function Completed(db: Db, id: Id, s: Id, out: Tag, t: Id, into: Tag, name: Name): Db
    requires IsDir(db, s) && IsDir(db, t) && id in db
  {
    PromotedBoth(StagedBoth(db, s, out, t, into)[id := Renamed(db[id], t, name)], s, out, t, into)
  }

  lemma CompletedListing(db: Db, id: Id, s: Id, out: Tag, t: Id, into: Tag, name: Name, e: Id)
    requires Keyed(db) && IsDir(db, s) && IsDir(db, t) && id in db && id != s && id != t
    ensures ChildPairs(Completed(db, id, s, out, t, into, name), e) == (ChildPairs(db, e) - Own(db, id, e)) + Gained(id, t, name, e)
  {
    var db2 := StagedBoth(db, s, out, t, into);
    var n := Renamed(db[id], t, name);
    StagedBothKeeps(db, s, out, t, into, e);
    assert db2[id] == db[id] && IsDir(db2[id := n], s) && IsDir(db2[id := n], t);
    hide ChildPairs, StagedBoth, PromotedBoth;
    PairsAfterPut(db2, n, e);
    PromotedBothKeeps(db2[id := n], s, out, t, into, e);
  }

  // The tags a completed move leaves.
  lemma CompletedTags(db: Db, id: Id, s: Id, out: Tag, t: Id, into: Tag, name: Name, e: Id)
    requires IsDir(db, s) && IsDir(db, t) && id in db && id != s && id != t
    ensures var db' := Completed(db, id, s, out, t, into, name);
            && (IsDir(db', e) <==> IsDir(db, e))
            && (e == t ==> db'[e].entriesMac == Some(into) && db'[e].pending == None)
            && (e == s && s != t ==> db'[e].entriesMac == Some(out) && db'[e].pending == None)
            && (IsDir(db, e) && e != s && e != t ==> db'[e].entriesMac == db[e].entriesMac && db'[e].pending == db[e].pending)
  {
  }

  lemma OwnStays(pairs: set<Entry>, own: Entry, remove: set<Entry>, add: set<Entry>)
    requires own in pairs - remove
    ensures multiset(pairs - remove) + multiset(add) != multiset((pairs - {own}) + add)
  {
    assert (multiset(pairs - remove) + multiset(add))[own] == 1 + multiset(add)[own];
    assert multiset((pairs - {own}) + add)[own] == multiset(add)[own];
  }

  predicate Listed(db: Db, id: Id, s: Id, was: Name, e: Id) { IsChild(db, id, e) ==> e == s && NameOf(db[id]) == was }

  // What was staged is what a directory comes to hold exactly if the pair taken out was all it lists of the node.
  lemma MoveTagExactly(db: Db, id: Id, s: Id, was: Name, t: Id, name: Name, e: Id)
    requires Keyed(db) && id in db
    ensures MoveTag(db, id, s, was, t, name, e) == EntriesMac(e, (ChildPairs(db, e) - Own(db, id, e)) + Gained(id, t, name, e))
            <==> Listed(db, id, s, was, e)
  {
    var pairs, own, remove, add := ChildPairs(db, e), Own(db, id, e), Gained(id, s, was, e), Gained(id, t, name, e);
    PairMeans(db, e, (id, was));
    PairMeans(db, e, (id, name));
    PairMeans(db, e, Pair(db[id]));
    hide ChildPairs;
    if Listed(db, id, s, was, e) {
      assert pairs - remove == pairs - own;
      StagedIsListing(db, e, add, remove);
    } else {
      OwnStays(pairs, Pair(db[id]), remove, add);
    }
  }

  // No half-finished change behind a directory the node is in that the move does not go to.
  predicate Undisturbed(db: Db, id: Id, s: Id, t: Id)
    requires id in db
  {
    db[id].parentId.Some? && IsDir(db, db[id].parentId.value) && db[id].parentId.value != s && db[id].parentId.value != t
    ==> Promoted(db, db[id].parentId.value) && db[db[id].parentId.value].pending.None?
  }

  function Moved(db: Db, id: Id, s: Id, was: Name, t: Id, name: Name): Db
    requires IsDir(db, s) && IsDir(db, t) && id in db
  {
    Completed(db, id, s, MoveTag(db, id, s, was, t, name, s), t, MoveTag(db, id, s, was, t, name, t), name)
  }

  // With one tag, that tag decides.
  lemma OneTag(db: Db, e: Id, tag: Tag, pairs: set<Entry>)
    requires IsDir(db, e) && db[e].entriesMac == Some(tag) && db[e].pending == None && ChildPairs(db, e) == pairs
    ensures Accepts(db, e) <==> tag == EntriesMac(e, pairs)
  {
  }

  lemma MovedHere(db: Db, id: Id, s: Id, was: Name, t: Id, name: Name, e: Id)
    requires Keyed(db) && IsDir(db, s) && IsDir(db, t) && id in db && id != s && id != t && (e == s || e == t)
    ensures IsDir(Moved(db, id, s, was, t, name), e)
    ensures Accepts(Moved(db, id, s, was, t, name), e) <==> Listed(db, id, s, was, e)
  {
    hide Completed, Accepts, ChildPairs, MoveTag, Own, Gained, Listed, EntriesMac;
    var out, into := MoveTag(db, id, s, was, t, name, s), MoveTag(db, id, s, was, t, name, t);
    CompletedTags(db, id, s, out, t, into, name, e);
    CompletedListing(db, id, s, out, t, into, name, e);
    MoveTagExactly(db, id, s, was, t, name, e);
    hide Keyed, Moved;
    OneTag(Completed(db, id, s, out, t, into, name), e, MoveTag(db, id, s, was, t, name, e),
           (ChildPairs(db, e) - Own(db, id, e)) + Gained(id, t, name, e));
  }

  // A directory whose tags stay.
  lemma SameTags(db: Db, db': Db, id: Id, e: Id)
    requires Keyed(db) && IsDir(db, e) && IsDir(db', e) && Accepts(db, e)
    requires db'[e].entriesMac == db[e].entriesMac && db'[e].pending == db[e].pending
    requires ChildPairs(db', e) == ChildPairs(db, e) - Own(db, id, e)
    requires IsChild(db, id, e) ==> Promoted(db, e) && db[e].pending.None?
    ensures Accepts(db', e) <==> !IsChild(db, id, e)
  {
    if IsChild(db, id, e) {
      PairMeans(db, e, Pair(db[id]));
      RollbackFacts.FewerDiffer(ChildPairs(db, e), Pair(db[id]));
    } else {
      assert ChildPairs(db', e) == ChildPairs(db, e);
    }
  }

  lemma MovedThere(db: Db, id: Id, s: Id, was: Name, t: Id, name: Name, e: Id)
    requires Keyed(db) && IsDir(db, s) && IsDir(db, t) && id in db && id != s && id != t && e != s && e != t
    requires IsDir(db, e) && Accepts(db, e) && Undisturbed(db, id, s, t)
    ensures IsDir(Moved(db, id, s, was, t, name), e)
    ensures Accepts(Moved(db, id, s, was, t, name), e) <==> Listed(db, id, s, was, e)
  {
    hide Completed, Accepts, ChildPairs, MoveTag, Own, EntriesMac;
    var out, into := MoveTag(db, id, s, was, t, name, s), MoveTag(db, id, s, was, t, name, t);
    CompletedTags(db, id, s, out, t, into, name, e);
    CompletedListing(db, id, s, out, t, into, name, e);
    SameTags(db, Completed(db, id, s, out, t, into, name), id, e);
  }

  /**
   When it has completed, every directory verifies if and only if the pair it went by is the stored one, or
   nothing lists the node.
   */
  lemma MoveCoversExactly(db: Db, id: Id, s: Id, was: Name, t: Id, name: Name)
    requires Keyed(db) && Covered(db) && id in db && id != s && id != t
    requires IsDir(db, s) && IsDir(db, t) && Undisturbed(db, id, s, t)
    ensures Covered(Moved(db, id, s, was, t, name)) <==> RollbackFacts.Right(db, id, RollbackFacts.Belief(Some(s), was))
  {
    var out, into := MoveTag(db, id, s, was, t, name, s), MoveTag(db, id, s, was, t, name, t);
    hide Accepts, Completed, MoveTag;
    forall e ensures IsDir(Moved(db, id, s, was, t, name), e) <==> IsDir(db, e) {
      CompletedTags(db, id, s, out, t, into, name, e);
    }
    forall e | IsDir(db, e) ensures Accepts(Moved(db, id, s, was, t, name), e) <==> Listed(db, id, s, was, e) {
      RollbackFacts.CoveredHere(db, e);
      if e == s || e == t { MovedHere(db, id, s, was, t, name, e); } else { MovedThere(db, id, s, was, t, name, e); }
    }
  }
}
