/**
 The write sequences of src/vfs.py's structural operations, as databases: what each write leaves, and what
 the whole sequence amounts to.
 */
module Operations {
  import opened Wrappers
  import opened Tags
  import opened Tree
  import opened Paths
  import opened DirectoryTags
  import opened Structure
  import opened FileContent
  import Subtree

  // ------------------------------------------------------------------ one document enters one directory

  // `n` comes into `d`, from nowhere or from another name in `d`; its own listing does not change.
  ghost predicate Enters(db: Db, d: Id, n: Node) {
    && n.parentId == Some(d) && n.filename.Some? && n.id != d
    && (n.id in db ==>
          && (db[n.id].parentId.None? || db[n.id].parentId == Some(d))
          && (n.DirNode? ==> db[n.id].DirNode? && n.entriesMac == db[n.id].entriesMac && n.pending == db[n.id].pending))
    && (n.id !in db && n.DirNode? ==> n.entriesMac == Some(EntriesTag(n.id, multiset{})))
  }

  // The pair `n.id` has in `d` so far.
  function Leaving(db: Db, d: Id, id: Id): set<Entry> {
    if IsChild(db, id, d) then {(id, NameOf(db[id]))} else {}
  }

  function EnterTag(db: Db, d: Id, n: Node): Tag { StagedMac(db, d, {Pair(n)}, Leaving(db, d, n.id)) }

  lemma StageFits(db: Db, root: Id, d: Id, tag: Tag, n: Node)
    requires Shape(db, root) && IsDir(db, d) && Fits(db, root, n) && n.id != d
    ensures Fits(Staged(db, d, tag), root, n)
  {
    var db' := Staged(db, d, tag);
    if n.parentId.Some? && n.trashedAt.None? {
      var p, name := n.parentId.value, n.filename.value;
      forall c | c in NameTaken(db', p, name) ensures c in NameTaken(db, p, name) {
        assert LiveAt(db, c, p, name);
      }
    }
  }

  // Staging a promoted directory.
  lemma StageStep(db: Db, root: Id, d: Id, tag: Tag)
    requires Shape(db, root) && Covered(db) && IsDir(db, d) && Promoted(db, d)
    ensures Shape(Staged(db, d, tag), root) && Covered(Staged(db, d, tag)) && KeepsPromoted(db, Staged(db, d, tag))
    ensures Promoted(Staged(db, d, tag), d)
  {
    RelabelShape(db, root, d, db[d].entriesMac, Some(tag));
    StagingKeeps(db, d, tag);
  }

  // Promoting the listing there is.
  lemma PromoteStep(db: Db, root: Id, d: Id, tag: Tag)
    requires Shape(db, root) && Covered(db) && (IsDir(db, d) ==> tag == EntriesMac(d, ChildPairs(db, d)))
    ensures PromotedTo(db, d, tag) == Settled(db, d)
    ensures Shape(PromotedTo(db, d, tag), root) && Covered(PromotedTo(db, d, tag))
    ensures KeepsPromoted(db, PromotedTo(db, d, tag)) && (IsDir(db, d) ==> Promoted(PromotedTo(db, d, tag), d))
  {
    if IsDir(db, d) { RelabelShape(db, root, d, Some(tag), None); }
    PromotionKeeps(db, d, tag);
  }

  // The directory's new children are the ones staged.
  lemma EnterListing(db: Db, root: Id, d: Id, n: Node)
    requires Shape(db, root) && IsDir(db, d) && Enters(db, d, n)
    ensures EnterTag(db, d, n) == EntriesMac(d, ChildPairs(db[n.id := n], d))
    ensures forall e :: e != d ==> ChildPairs(db[n.id := n], e) == ChildPairs(db, e)
  {
    var rest := ChildPairs(db, d) - Leaving(db, d, n.id);
    PairsAfterPut(db, n, d);
    if Pair(n) in rest {
      PairMeans(db, d, Pair(n));
      assert false;
    }
    StagedIsListing(db, d, {Pair(n)}, Leaving(db, d, n.id));
    forall e | e != d ensures ChildPairs(db[n.id := n], e) == ChildPairs(db, e) {
      PairsAfterPut(db, n, e);
    }
  }

  lemma NoneBelowUnused(db: Db, root: Id, n: Node)
    requires Fits(db, root, n) && n.id !in db
    ensures ChildPairs(db, n.id) == {}
  {
    forall e | e in ChildPairs(db, n.id) ensures false {
      PairMeans(db, n.id, e);
    }
  }

  // A document entering a directory whose pending tag is waiting for it.
  lemma EnterCovered(db: Db, root: Id, d: Id, n: Node)
    requires Shape(db, root) && Covered(db) && IsDir(db, d) && Fits(db, root, n) && Enters(db, d, n)
    requires db[d].pending == Some(EnterTag(db, d, n))
    ensures Covered(db[n.id := n]) && KeepsOthers(db, db[n.id := n], {d})
    ensures EnterTag(db, d, n) == EntriesMac(d, ChildPairs(db[n.id := n], d))
  {
    hide UniqueLive, DirsAbove;
    var db' := db[n.id := n];
    EnterListing(db, root, d, n);
    if n.id !in db { NoneBelowUnused(db, root, n); }
    forall e | IsDir(db', e)
      ensures Carried(db, db', e)
      ensures KeepsAt(db, db', {d}, e)
    {
      if e == n.id && n.id !in db {
        assert multiset(NoEntries()) == multiset{};
      }
    }
    ChangeKeepsCovered(db, db');
  }

  // The change itself, under the staged tag.
  lemma EnterStep(db: Db, root: Id, d: Id, n: Node)
    requires Shape(db, root) && Covered(db) && IsDir(db, d) && Promoted(db, d) && Fits(db, root, n) && Enters(db, d, n)
    ensures var db1 := Staged(db, d, EnterTag(db, d, n)); var db2 := db1[n.id := n];
            && Shape(db1, root) && Covered(db1) && Shape(db2, root) && Covered(db2)
            && EnterTag(db, d, n) == EntriesMac(d, ChildPairs(db2, d)) && KeepsOthers(db, db2, {d})
  {
    hide Fits, Covered, Promoted;
    var tag := EnterTag(db, d, n);
    var db1 := Staged(db, d, tag);
    StageStep(db, root, d, tag);
    StageFits(db, root, d, tag, n);
    PutShape(db1, root, n);
    StagingKeeps(db, d, tag);
    assert EnterTag(db1, d, n) == tag;
    EnterCovered(db1, root, d, n);
  }

  // Stage, change, promote: the document is in and the listing is signed.
  lemma EnterDone(db: Db, root: Id, d: Id, n: Node)
    requires Shape(db, root) && Covered(db) && IsDir(db, d) && Promoted(db, d) && Fits(db, root, n) && Enters(db, d, n)
    ensures var tag := EnterTag(db, d, n);
            var db3 := PromotedTo(Staged(db, d, tag)[n.id := n], d, tag);
            && db3 == Settled(db[n.id := n], d) && KeepsPromoted(db, db3)
  {
    var tag := EnterTag(db, d, n);
    var db2 := Staged(db, d, tag)[n.id := n];
    EnterStep(db, root, d, n);
    hide Shape, Covered, Fits;
    PromoteStep(db2, root, d, tag);
    EnterListing(db, root, d, n);
    KeepsChain(db, db2, PromotedTo(db2, d, tag), d);
  }

  lemma KeepsChain(a: Db, b: Db, c: Db, d: Id)
    requires KeepsOthers(a, b, {d}) && KeepsPromoted(b, c) && b.Keys == c.Keys && (IsDir(c, d) ==> Promoted(c, d))
    ensures KeepsPromoted(a, c)
  {
    forall e | IsDir(c, e) ensures KeepsAt(a, c, {}, e) {
      assert KeepsAt(b, c, {}, e) && KeepsAt(a, b, {d}, e);
    }
  }

  // It is found where it was put, and nothing else has moved.
  lemma EnterPaths(db: Db, root: Id, d: Id, n: Node, path: Path)
    requires Shape(db, root) && Fits(db, root, n) && Enters(db, d, n) && IsDir(db, d)
    requires PathTo(db, root, path, d) && !Subtree.Descends(db, n.id, d)
    ensures var db' := Settled(db[n.id := n], d);
            && (n.trashedAt.None? ==> PathTo(db', root, path + [n.filename.value], n.id))
            && KeepsPlaces(db, db', n.id) && Hangs(db', root, n.id) && KeepsHanging(db, db', root)
  {
    var mid := db[n.id := n];
    var db' := Settled(mid, d);
    assert n.id != root && Rooted(db, root) && IsDir(mid, d) && Keyed(db);
    SettledPlaces(mid, d);
    PutPlaces(db, n, db');
    PathKept(db, db', root, n.id, path, d);
    PathGrows(db', root, path, d, n);
    PathHangs(db, root, path, d);
    PutHangs(db, root, n);
    hide Settled, Shape, Fits, Enters, Hangs, KeepsHanging, KeepsPlaces, PathTo;
    SettledHangs(db, mid, db', root, n.id);
  }

  // One document written, then some directory's tags: everything not below the document is where it was.
  lemma PutPlaces(db: Db, n: Node, db': Db)
    requires db'.Keys == (db[n.id := n]).Keys && forall c :: c in db[n.id := n] ==> SamePlace(db[n.id := n][c], db'[c])
    ensures KeepsPlaces(db, db', n.id)
  {
    assert Subtree.Under(db, n.id, n.id, 0);
  }

  // The path of a directory and a name in it.
  lemma PathGrows(db: Db, root: Id, path: Path, d: Id, n: Node)
    requires PathTo(db, root, path, d) && n.id in db && SamePlace(n, db[n.id]) && n.parentId == Some(d) && n.filename.Some?
    requires IsDir(db, d) || (d in db && db[d].DirNode?)
    ensures n.trashedAt.None? ==> PathTo(db, root, path + [n.filename.value], n.id)
  {
    var longer := path + [n.filename.value];
    assert longer[..|path|] == path && longer[|longer| - 1] == n.filename.value;
  }

  lemma SettledHangs(db: Db, mid: Db, db': Db, root: Id, id: Id)
    requires KeepsHanging(db, mid, root) && Hangs(mid, root, id) && id in mid
    requires db'.Keys == mid.Keys && forall c :: c in mid ==> SamePlace(mid[c], db'[c])
    ensures KeepsHanging(db, db', root) && Hangs(db', root, id)
  {
    hide Hangs;
    SameParentsHang(mid, db', root);
  }

  lemma SettledPlaces(db: Db, d: Id)
    ensures Settled(db, d).Keys == db.Keys && forall c :: c in db ==> SamePlace(db[c], Settled(db, d)[c])
  {
  }

  lemma {:induction false} NewHasNoneBelow(db: Db, id: Id, c: Id, k: nat)
    requires id !in db && Subtree.Under(db, id, c, k)
    ensures c == id
    decreases k
  {
    if k > 0 {
      NewHasNoneBelow(db, id, db[c].parentId.value, k - 1);
      assert false;
    }
  }

  // ------------------------------------------------------------------ a document changes in place

  // Neither its id, its name nor its parent: trash state, or content.
  lemma InPlaceStep(db: Db, root: Id, n: Node)
    requires Shape(db, root) && Covered(db) && Fits(db, root, n) && n.id in db
    requires n.parentId == db[n.id].parentId && NameOf(n) == NameOf(db[n.id])
    requires n.DirNode? ==> db[n.id].DirNode? && n.entriesMac == db[n.id].entriesMac && n.pending == db[n.id].pending
    ensures Shape(db[n.id := n], root) && Covered(db[n.id := n]) && KeepsPromoted(db, db[n.id := n])
  {
    hide UniqueLive, DirsAbove;
    var db' := db[n.id := n];
    PutShape(db, root, n);
    forall e ensures ChildPairs(db', e) == ChildPairs(db, e) {
      SameMembership(db, n, e);
    }
    forall e | IsDir(db', e) ensures Carried(db, db', e) && KeepsAt(db, db', {}, e) {
    }
    ChangeKeepsCovered(db, db');
  }

  // ------------------------------------------------------------------ a document moves between directories

  function LeaveTag(db: Db, d: Id, id: Id): Tag { StagedMac(db, d, NoEntries(), Leaving(db, d, id)) }

  // A document moving between two directories that have both been staged for it.
  lemma MoveCovered(db: Db, root: Id, s: Id, t: Id, n: Node)
    requires Shape(db, root) && Covered(db) && IsDir(db, s) && IsDir(db, t) && s != t && Fits(db, root, n)
    requires IsChild(db, n.id, s) && n.parentId == Some(t) && n.id != s && n.id != t
    requires n.DirNode? ==> db[n.id].DirNode? && n.entriesMac == db[n.id].entriesMac && n.pending == db[n.id].pending
    requires db[s].pending == Some(LeaveTag(db, s, n.id)) && db[t].pending == Some(StagedMac(db, t, {Pair(n)}, {}))
    ensures Covered(db[n.id := n]) && KeepsOthers(db, db[n.id := n], {s, t})
    ensures LeaveTag(db, s, n.id) == EntriesMac(s, ChildPairs(db[n.id := n], s))
    ensures StagedMac(db, t, {Pair(n)}, {}) == EntriesMac(t, ChildPairs(db[n.id := n], t))
  {
    hide UniqueLive, DirsAbove, Signed;
    var db' := db[n.id := n];
    MovePairs(db, s, t, n);
    hide Fits, Covered;
    forall e | IsDir(db', e) ensures Carried(db, db', e) && KeepsAt(db, db', {s, t}, e) {
      assert IsDir(db, e) && db'[e].entriesMac == db[e].entriesMac && db'[e].pending == db[e].pending;
      if e != s && e != t { assert ChildPairs(db', e) == ChildPairs(db, e); }
    }
    hide Carried, KeepsAt;
    ChangeKeepsCovered(db, db');
  }

  // What the move does to every directory's children.
  lemma MovePairs(db: Db, s: Id, t: Id, n: Node)
    requires Keyed(db) && IsChild(db, n.id, s) && n.parentId == Some(t) && s != t
    ensures var db' := db[n.id := n];
            && (forall e :: e != s && e != t ==> ChildPairs(db', e) == ChildPairs(db, e))
            && LeaveTag(db, s, n.id) == EntriesMac(s, ChildPairs(db', s))
            && StagedMac(db, t, {Pair(n)}, {}) == EntriesMac(t, ChildPairs(db', t))
  {
    var db' := db[n.id := n];
    forall e ensures ChildPairs(db', e) == (ChildPairs(db, e) - Leaving(db, e, n.id)) + (if e == t then {Pair(n)} else {}) {
      PairsAfterPut(db, n, e);
    }
    if Pair(n) in ChildPairs(db, t) {
      PairMeans(db, t, Pair(n));
      assert false;
    }
    StagedIsListing(db, s, NoEntries(), Leaving(db, s, n.id));
    StagedIsListing(db, t, {Pair(n)}, {});
    assert ChildPairs(db', s) == (ChildPairs(db, s) - Leaving(db, s, n.id)) + NoEntries();
    assert ChildPairs(db', t) == (ChildPairs(db, t) - NoEntries()) + {Pair(n)};
  }

  // What a move comes to: the document rewritten, both listings signed.
  function MovedTo(db: Db, s: Id, t: Id, n: Node): Db { Settled(Settled(db[n.id := n], s), t) }

  ghost predicate Moves(db: Db, root: Id, s: Id, t: Id, n: Node) {
    && IsDir(db, s) && IsDir(db, t) && s != t && Fits(db, root, n)
    && IsChild(db, n.id, s) && n.parentId == Some(t) && n.id != s && n.id != t
    && (n.DirNode? ==> db[n.id].DirNode? && n.entriesMac == db[n.id].entriesMac && n.pending == db[n.id].pending)
  }

  // Both ends staged, one after the other.
  function BothStaged(db: Db, s: Id, t: Id, n: Node): Db
    requires IsDir(db, s) && IsDir(db, t)
  {
    var db1 := Staged(db, s, LeaveTag(db, s, n.id));
    Staged(db1, t, StagedMac(db1, t, {Pair(n)}, {}))
  }

  lemma BothStagedReady(db: Db, root: Id, s: Id, t: Id, n: Node)
    requires Shape(db, root) && Covered(db) && Moves(db, root, s, t, n) && Promoted(db, s) && Promoted(db, t)
    ensures var db1 := Staged(db, s, LeaveTag(db, s, n.id)); var db2 := BothStaged(db, s, t, n);
            && Shape(db1, root) && Covered(db1) && Promoted(db1, t)
            && Shape(db2, root) && Covered(db2) && KeepsPromoted(db, db2) && Moves(db2, root, s, t, n)
            && db2[s].pending == Some(LeaveTag(db2, s, n.id)) && db2[t].pending == Some(StagedMac(db2, t, {Pair(n)}, {}))
            && LeaveTag(db2, s, n.id) == LeaveTag(db, s, n.id)
  {
    hide UniqueLive, DirsAbove;
    var tag := LeaveTag(db, s, n.id);
    var db1 := Staged(db, s, tag);
    StageStep(db, root, s, tag);
    StagingKeeps(db, s, tag);
    StageFits(db, root, s, tag, n);
    assert IsDir(db, t) && IsDir(db1, t);
    var tag' := StagedMac(db1, t, {Pair(n)}, {});
    StageStep(db1, root, t, tag');
    StagingKeeps(db1, t, tag');
    StageFits(db1, root, t, tag', n);
    KeepsPromotedTransitive(db, db1, Staged(db1, t, tag'));
  }

  lemma MoveDone(db: Db, root: Id, s: Id, t: Id, n: Node)
    requires Shape(db, root) && Covered(db) && Moves(db, root, s, t, n) && Promoted(db, s) && Promoted(db, t)
    ensures var db2 := BothStaged(db, s, t, n); var db3 := db2[n.id := n];
            && Shape(db3, root) && Covered(db3)
            && LeaveTag(db2, s, n.id) == EntriesMac(s, ChildPairs(db3, s))
            && StagedMac(db2, t, {Pair(n)}, {}) == EntriesMac(t, ChildPairs(Settled(db3, s), t))
            && KeepsOthers(db, db3, {s, t})
            && Settled(Settled(db3, s), t) == MovedTo(db, s, t, n)
  {
    var db2 := BothStaged(db, s, t, n);
    var db3 := db2[n.id := n];
    BothStagedReady(db, root, s, t, n);
    hide Covered, Promoted, Shape, KeepsAt;
    MoveCovered(db2, root, s, t, n);
    PutShape(db2, root, n);
    SettledPlaces(db3, s);
    SamePairs(db3, Settled(db3, s), t);
    KeepsOthersAfter(db, db2, db3, {s, t});
    hide KeepsOthers, KeepsPromoted, Fits, StagedMac;
    MoveSettles(db, s, t, n);
  }

  // Staging leaves no trace once both listings are signed.
  lemma MoveSettles(db: Db, s: Id, t: Id, n: Node)
    requires IsDir(db, s) && IsDir(db, t) && s != t && n.id != s && n.id != t
    ensures Settled(Settled(BothStaged(db, s, t, n)[n.id := n], s), t) == MovedTo(db, s, t, n)
  {
    var db3, plain := BothStaged(db, s, t, n)[n.id := n], db[n.id := n];
    assert TagsApart(db3, plain, {s, t}) by { hide StagedMac; }
    hide TagsApart, Settled, BothStaged;
    SettledCloser(db3, plain, s, {s, t});
    SettledCloser(Settled(db3, s), Settled(plain, s), t, {s, t} - {s});
    assert {s, t} - {s} - {t} == {};
    NothingApart(Settled(Settled(db3, s), t), Settled(Settled(plain, s), t));
  }

  // Two databases that differ in some directories' entry tags only.
  ghost predicate TagsApart(a: Db, b: Db, ds: set<Id>) { a.Keys == b.Keys && forall c :: c in a ==> TagsApartAt(a, b, ds, c) }

  predicate TagsApartAt(a: Db, b: Db, ds: set<Id>, c: Id)
    requires c in a && c in b
  {
    if c in ds then a[c].DirNode? && b[c].DirNode? && a[c].(entriesMac := None, pending := None) == b[c].(entriesMac := None, pending := None)
    else a[c] == b[c]
  }

  lemma SettledCloser(a: Db, b: Db, d: Id, ds: set<Id>)
    requires TagsApart(a, b, ds) && d in a
    ensures TagsApart(Settled(a, d), Settled(b, d), ds - {d}) && d in Settled(a, d)
  {
    forall c | c in a ensures a[c].parentId == b[c].parentId && a[c].filename == b[c].filename && a[c].DirNode? == b[c].DirNode? {
      assert TagsApartAt(a, b, ds, c);
    }
    SamePairs(a, b, d);
    forall c | c in a ensures TagsApartAt(Settled(a, d), Settled(b, d), ds - {d}, c) {
      assert TagsApartAt(a, b, ds, c) && TagsApartAt(a, b, ds, d);
    }
  }

  lemma NothingApart(a: Db, b: Db)
    requires TagsApart(a, b, {})
    ensures a == b
  {
    forall c | c in a ensures a[c] == b[c] {
      assert TagsApartAt(a, b, {}, c);
    }
  }

  lemma KeepsOthersAfter(a: Db, b: Db, c: Db, ds: set<Id>)
    requires KeepsPromoted(a, b) && KeepsOthers(b, c, ds) && a.Keys == b.Keys
    ensures KeepsOthers(a, c, ds)
  {
    forall e | IsDir(c, e) ensures KeepsAt(a, c, ds, e) {
      assert KeepsAt(b, c, ds, e);
      if e in b { assert KeepsAt(a, b, {}, e); }
    }
  }

  // Promoting the two ends settles the account.
  lemma MovePromoted(db: Db, db3: Db, root: Id, s: Id, t: Id)
    requires Shape(db3, root) && Covered(db3) && KeepsOthers(db, db3, {s, t}) && IsDir(db3, s) && IsDir(db3, t)
    ensures KeepsPromoted(db, Settled(Settled(db3, s), t))
  {
    var a := Settled(db3, s);
    PromoteStep(db3, root, s, EntriesMac(s, ChildPairs(db3, s)));
    PromoteStep(a, root, t, EntriesMac(t, ChildPairs(a, t)));
    var b := Settled(a, t);
    SettledPlaces(db3, s);
    SettledPlaces(a, t);
    hide Shape, Covered, Promoted, Settled;
    PromotedChain(db, db3, a, b, s, t);
  }

  lemma PromotedChain(db: Db, db3: Db, a: Db, b: Db, s: Id, t: Id)
    requires KeepsOthers(db, db3, {s, t}) && KeepsPromoted(db3, a) && KeepsPromoted(a, b)
    requires a.Keys == db3.Keys && b.Keys == a.Keys && (forall e :: IsDir(b, e) ==> IsDir(a, e) && IsDir(db3, e))
    requires (IsDir(a, s) ==> Promoted(a, s)) && (IsDir(b, t) ==> Promoted(b, t))
    ensures KeepsPromoted(db, b)
  {
    hide Promoted;
    forall e | IsDir(b, e) ensures KeepsAt(db, b, {}, e) {
      assert KeepsAt(a, b, {}, e) && KeepsAt(db3, a, {}, e) && KeepsAt(db, db3, {s, t}, e);
    }
  }

  // A moved node is found at its new place; nothing that was not below it has moved or come loose.
  lemma MovePaths(db: Db, root: Id, s: Id, t: Id, n: Node, path: Path)
    requires Shape(db, root) && n.parentId == Some(t) && n.filename.Some? && n.id != root && IsDir(db, t)
    requires PathTo(db, root, path, t) && !Subtree.Descends(db, n.id, t) && n.trashedAt.None?
    ensures var db' := MovedTo(db, s, t, n);
            && PathTo(db', root, path + [n.filename.value], n.id)
            && KeepsPlaces(db, db', n.id) && KeepsHanging(db, db', root)
  {
    var mid := db[n.id := n];
    var db' := MovedTo(db, s, t, n);
    assert Rooted(db, root) && t in mid && mid[t].DirNode? by {
      if n.id == t { assert Subtree.Under(db, t, t, 0); }
    }
    MovedPlaces(mid, s, t);
    PutPlaces(db, n, db');
    PathKept(db, db', root, n.id, path, t);
    PathGrows(db', root, path, t, n);
    PathHangs(db, root, path, t);
    PutHangs(db, root, n);
    hide Settled, Shape, Hangs, KeepsHanging, KeepsPlaces, PathTo, MovedTo;
    SettledHangs(db, mid, db', root, n.id);
  }

  lemma MovedPlaces(mid: Db, s: Id, t: Id)
    ensures var db' := Settled(Settled(mid, s), t);
            db'.Keys == mid.Keys && forall c :: c in mid ==> SamePlace(mid[c], db'[c])
  {
    SettledPlaces(mid, s);
    SettledPlaces(Settled(mid, s), t);
  }

  // ------------------------------------------------------------------ a subtree goes

  function Ids(out: seq<Node>): set<Id> { set i | 0 <= i < |out| :: out[i].id }

  // Everything but `top` and what is below it.
  ghost function Without(db: Db, top: Id): Db { map c | c in db && !Subtree.Descends(db, top, c) :: db[c] }

  // While a subtree's documents go, parents first, no directory that is still there loses a child it lists.
  lemma PruneCovered(db: Db, root: Id, p: Id, out: seq<Node>, n: nat)
    requires Keyed(db) && Covered(db) && n <= |out| && out != [] && IsChild(db, out[0].id, p) && p !in Ids(out)
    requires Subtree.Distinct(db, out) && Subtree.ParentsFirst(out)
    requires IsDir(db, p) ==> Promoted(db, p) && db[p].pending == Some(LeaveTag(db, p, out[0].id))
    ensures Covered(db - Ids(out[..n])) && KeepsOthers(db, db - Ids(out[..n]), {p})
    ensures n > 0 ==> LeaveTag(db, p, out[0].id) == EntriesMac(p, ChildPairs(db - Ids(out[..n]), p))
  {
    var db' := db - Ids(out[..n]);
    var top := out[0].id;
    if n > 0 {
      forall e | e !in Ids(out[..n]) ensures ChildPairs(db', e) == ChildPairs(db, e) - Leaving(db, e, top) {
        PruneListing(db, p, out, n, e);
      }
      assert p !in Ids(out[..n]);
      StagedIsListing(db, p, NoEntries(), Leaving(db, p, top));
      assert ChildPairs(db', p) == (ChildPairs(db, p) - Leaving(db, p, top)) + NoEntries();
    } else {
      assert db' == db;
    }
    forall e | IsDir(db', e) ensures Carried(db, db', e) && KeepsAt(db, db', {p}, e) {
      if n > 0 { assert ChildPairs(db', e) == ChildPairs(db, e) - Leaving(db, e, top); }
    }
    ChangeKeepsCovered(db, db');
  }

  lemma ParentGone(out: seq<Node>, n: nat, j: nat)
    requires 0 < j < n <= |out| && Subtree.ParentsFirst(out)
    ensures out[j].parentId.Some? && out[j].parentId.value in Ids(out[..n])
  {
    assert Subtree.HasParentBefore(out, j);
    var k :| 0 <= k < j && out[k].DirNode? && out[j].parentId == Some(out[k].id);
    assert out[..n][k].id == out[k].id;
  }

  lemma PruneListing(db: Db, p: Id, out: seq<Node>, n: nat, e: Id)
    requires Keyed(db) && 0 < n <= |out| && IsChild(db, out[0].id, p) && p !in Ids(out) && e !in Ids(out[..n])
    requires Subtree.Distinct(db, out) && Subtree.ParentsFirst(out)
    ensures ChildPairs(db - Ids(out[..n]), e) == ChildPairs(db, e) - Leaving(db, e, out[0].id)
  {
    var gone := Ids(out[..n]);
    var db' := db - gone;
    var top := out[0].id;
    assert out[..n][0].id in gone;
    forall x | x in ChildPairs(db, e) - Leaving(db, e, top) ensures x in ChildPairs(db', e) {
      PairMeans(db, e, x);
      if x.0 in gone {
        var j :| 0 <= j < n && out[..n][j].id == x.0;
        if j > 0 { ParentGone(out, n, j); }
      }
      assert IsChild(db', x.0, e);
    }
    forall x | x in ChildPairs(db', e) ensures x in ChildPairs(db, e) - Leaving(db, e, top) {
      PairMeans(db', e, x);
      assert IsChild(db, x.0, e);
    }
  }

  ghost predicate Prunes(db: Db, root: Id, p: Id, out: seq<Node>) {
    && out != [] && IsDir(db, p) && Promoted(db, p) && IsChild(db, out[0].id, p) && p !in Ids(out)
    && Subtree.Distinct(db, out) && Subtree.ParentsFirst(out)
    && forall id :: Subtree.Listed(out, id) <==> Subtree.Descends(db, out[0].id, id)
  }

  // What is left when the last of them is gone, and its directory's pending tag promoted.
  ghost function Pruned(db: Db, p: Id, out: seq<Node>): Db
    requires out != []
  {
    var tag := LeaveTag(db, p, out[0].id);
    if IsDir(db, p) then PromotedTo(Staged(db, p, tag) - Ids(out), p, tag) else db - Ids(out)
  }

  lemma PruneDone(db: Db, root: Id, p: Id, out: seq<Node>)
    requires Shape(db, root) && Covered(db) && Prunes(db, root, p, out)
    ensures Pruned(db, p, out) == Settled(Without(db, out[0].id), p)
    ensures KeepsPromoted(db, Pruned(db, p, out)) && KeepsHanging(db, Pruned(db, p, out), root)
  {
    var top := out[0].id;
    var db1 := Staged(db, p, LeaveTag(db, p, top));
    PruneListed(db, root, p, out);
    PruneKeys(db, out);
    hide Shape, Covered, Promoted, Subtree.Distinct, Subtree.ParentsFirst, KeepsOthers, LeaveTag;
    PruneSettled(db, p, out);
    PrunePromoted(db, root, p, out);
    PruneLoosens(db, root, p, out);
  }

  lemma PruneListed(db: Db, root: Id, p: Id, out: seq<Node>)
    requires Shape(db, root) && Covered(db) && Prunes(db, root, p, out)
    ensures var tag := LeaveTag(db, p, out[0].id); var db1 := Staged(db, p, tag);
            KeepsPromoted(db, db1) && KeepsOthers(db1, db1 - Ids(out), {p})
            && tag == EntriesMac(p, ChildPairs(db1 - Ids(out), p))
  {
    var top := out[0].id;
    var db1 := Staged(db, p, LeaveTag(db, p, top));
    assert IsChild(db, top, p) && top != p by { assert out[0].id in Ids(out); }
    StagingReady(db, root, p, top);
    StillThere(db, p, out);
    assert Keyed(db1) && Covered(db1);
    hide Shape, Covered, Subtree.Distinct, Subtree.ParentsFirst;
    PruneCovered(db1, root, p, out, |out|);
    assert out[..|out|] == out;
  }

  lemma PruneLoosens(db: Db, root: Id, p: Id, out: seq<Node>)
    requires Shape(db, root) && out != [] && IsDir(db, p) && p !in Ids(out) && Without(db, out[0].id) == db - Ids(out)
    ensures KeepsHanging(db, Pruned(db, p, out), root)
  {
    var top := out[0].id;
    var final := Pruned(db, p, out);
    assert final.Keys == Without(db, top).Keys;
    assert forall c :: c in db && !Subtree.Descends(db, top, c) ==> c in Without(db, top);
    hide Shape, Subtree.Descends, LeaveTag;
    assert KeepsParents(db, final, top);
    PruneHangs(db, final, root, top);
  }

  lemma PruneSettled(db: Db, p: Id, out: seq<Node>)
    requires out != [] && IsDir(db, p) && p !in Ids(out) && Without(db, out[0].id) == db - Ids(out)
    requires var tag := LeaveTag(db, p, out[0].id);
             tag == EntriesMac(p, ChildPairs(Staged(db, p, tag) - Ids(out), p))
    ensures Pruned(db, p, out) == Settled(Without(db, out[0].id), p)
  {
    var rest, kept := Staged(db, p, LeaveTag(db, p, out[0].id)) - Ids(out), Without(db, out[0].id);
    assert rest.Keys == kept.Keys;
    SamePairs(rest, kept, p);
  }

  lemma PrunePromoted(db: Db, root: Id, p: Id, out: seq<Node>)
    requires out != [] && IsDir(db, p) && p !in Ids(out)
    requires var tag := LeaveTag(db, p, out[0].id); var db1 := Staged(db, p, tag);
             KeepsPromoted(db, db1) && KeepsOthers(db1, db1 - Ids(out), {p})
             && tag == EntriesMac(p, ChildPairs(db1 - Ids(out), p))
    ensures KeepsPromoted(db, Pruned(db, p, out))
  {
    var tag := LeaveTag(db, p, out[0].id);
    var db1 := Staged(db, p, tag);
    var rest, final := db1 - Ids(out), Pruned(db, p, out);
    forall e | IsDir(final, e) ensures KeepsAt(db, final, {}, e) {
      assert KeepsAt(db1, rest, {p}, e) && KeepsAt(db, db1, {}, e);
      SamePairs(rest, final, e);
    }
  }

  // Membership is the parents and the names.
  lemma SamePairs(a: Db, b: Db, e: Id)
    requires a.Keys == b.Keys && forall c :: c in a ==> a[c].parentId == b[c].parentId && a[c].filename == b[c].filename
    ensures ChildPairs(a, e) == ChildPairs(b, e)
  {
  }

  lemma PruneKeys(db: Db, out: seq<Node>)
    requires out != [] && Subtree.Distinct(db, out)
    requires forall id :: Subtree.Listed(out, id) <==> Subtree.Descends(db, out[0].id, id)
    ensures Without(db, out[0].id) == db - Ids(out)
  {
    forall c ensures c in Ids(out) <==> Subtree.Listed(out, c) {
    }
  }

  lemma StagingReady(db: Db, root: Id, p: Id, top: Id)
    requires Shape(db, root) && Covered(db) && IsDir(db, p) && Promoted(db, p) && IsChild(db, top, p) && top != p
    ensures var db1 := Staged(db, p, LeaveTag(db, p, top));
            && Shape(db1, root) && Covered(db1) && KeepsPromoted(db, db1) && Promoted(db1, p)
            && LeaveTag(db1, p, top) == LeaveTag(db, p, top) && IsChild(db1, top, p)
  {
    StageStep(db, root, p, LeaveTag(db, p, top));
    StagingKeeps(db, p, LeaveTag(db, p, top));
  }

  // The documents to go are the same after staging.
  lemma StillThere(db: Db, p: Id, out: seq<Node>)
    requires Subtree.Distinct(db, out) && IsDir(db, p) && p !in Ids(out)
    ensures forall tag :: Subtree.Distinct(Staged(db, p, tag), out)
  {
    forall i | 0 <= i < |out| ensures out[i].id != p {
      assert out[i].id in Ids(out);
    }
  }
}
