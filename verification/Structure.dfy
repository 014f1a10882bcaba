/**
 The shape every stored tree keeps (src/vfs.py), write by write, and what the writes of one structural
 operation add up to.
 */
module Structure {
  import opened Wrappers
  import opened Tags
  import opened Tree
  import opened Paths
  import opened DirectoryTags
  import Subtree

  // Documents under their ids, signed, one live name a place, named below a directory, directories above.
  ghost predicate Shape(db: Db, root: Id) {
    Keyed(db) && Signed(db) && UniqueLive(db) && Rooted(db, root) && Named(db) && DirsAbove(db)
  }

  // A document the tree can take without losing its shape.
  ghost predicate Fits(db: Db, root: Id, n: Node) {
    && n.id != root && n.id != [] && n.mac == MacOf(n)
    && (if n.id in db then db[n.id].DirNode? ==> n.DirNode? else Unused(db, n.id))
    && (n.parentId.Some? ==>
          && n.filename.Some? && (n.parentId.value == n.id ==> n.DirNode?)
          && (n.parentId.value in db ==> IsDir(db, n.parentId.value))
          && (n.trashedAt.None? ==> NameTaken(db, n.parentId.value, n.filename.value) <= {n.id}))
  }

  ghost function NameTaken(db: Db, parent: Id, name: Name): set<Id> {
    set c | c in db && LiveAt(db, c, parent, name)
  }

  lemma PutShape(db: Db, root: Id, n: Node)
    requires Shape(db, root) && Fits(db, root, n)
    ensures Shape(db[n.id := n], root)
  {
    var db' := db[n.id := n];
    forall a, b, parent, name | LiveAt(db', a, parent, name) && LiveAt(db', b, parent, name) ensures a == b {
      if a != n.id { assert LiveAt(db, a, parent, name) && a in NameTaken(db, parent, name); }
      if b != n.id { assert LiveAt(db, b, parent, name) && b in NameTaken(db, parent, name); }
    }
  }

  lemma DropShape(db: Db, root: Id, gone: set<Id>)
    requires Shape(db, root) && root !in gone
    ensures Shape(db - gone, root)
  {
    var db' := db - gone;
    forall a, b, parent, name | LiveAt(db', a, parent, name) && LiveAt(db', b, parent, name) ensures a == b {
      assert LiveAt(db, a, parent, name) && LiveAt(db, b, parent, name);
    }
  }

  // New entry tags on a directory, nothing else.
  lemma RelabelShape(db: Db, root: Id, d: Id, entriesMac: Option<Tag>, pending: Option<Tag>)
    requires Shape(db, root) && IsDir(db, d)
    ensures Shape(db[d := db[d].(entriesMac := entriesMac, pending := pending)], root)
  {
    var db' := db[d := db[d].(entriesMac := entriesMac, pending := pending)];
    forall a, b, parent, name | LiveAt(db', a, parent, name) && LiveAt(db', b, parent, name) ensures a == b {
      assert LiveAt(db, a, parent, name) && LiveAt(db, b, parent, name);
    }
  }

  // A directory whose listing is signed and nothing pending.
  function Settled(db: Db, d: Id): Db {
    if IsDir(db, d) then db[d := db[d].(entriesMac := Some(EntriesMac(d, ChildPairs(db, d))), pending := None)] else db
  }

  // Whatever was promoted is promoted, and whatever is new came that way.
  ghost predicate KeepsPromoted(db: Db, db': Db) { KeepsOthers(db, db', {}) }

  ghost predicate KeepsOthers(db: Db, db': Db, ds: set<Id>) {
    forall d :: IsDir(db', d) ==> KeepsAt(db, db', ds, d)
  }

  ghost predicate KeepsAt(db: Db, db': Db, ds: set<Id>, d: Id)
    requires IsDir(db', d)
  {
    && (d in db ==> IsDir(db, d))
    && (d !in ds && (d in db ==> Promoted(db, d)) ==> Promoted(db', d))
  }

  lemma KeepsPromotedTransitive(a: Db, b: Db, c: Db)
    requires KeepsPromoted(a, b) && KeepsPromoted(b, c)
    requires forall d :: IsDir(c, d) && d in a ==> d in b
    ensures KeepsPromoted(a, c)
  {
    forall d | IsDir(c, d) ensures KeepsAt(a, c, {}, d) {
      assert KeepsAt(b, c, {}, d);
      if d in b { assert KeepsAt(a, b, {}, d); }
    }
  }

  // ------------------------------------------------------------------ hanging together

  ghost predicate Hangs(db: Db, root: Id, c: Id) { exists n: nat :: Reaches(db, root, c, n) }

  // Nothing still stored that hung below the root has come loose.
  ghost predicate KeepsHanging(db: Db, db': Db, root: Id) {
    forall c :: c in db' && Hangs(db, root, c) ==> Hangs(db', root, c)
  }

  // Everything outside `x` and what is below it keeps its parent.
  ghost predicate KeepsParents(db: Db, db': Db, x: Id) {
    forall c :: c in db && !Subtree.Descends(db, x, c) ==> c in db' && db'[c].parentId == db[c].parentId
  }

  lemma {:induction false} AvoidingReaches(db: Db, db': Db, root: Id, x: Id, c: Id, n: nat)
    requires Rooted(db, root) && DirsAbove(db) && KeepsParents(db, db', x)
    requires Reaches(db, root, c, n) && !Subtree.Descends(db, x, c)
    ensures Reaches(db', root, c, n)
    decreases n
  {
    if n > 0 {
      var up := db[c].parentId.value;
      if n == 1 { assert up == root; } else { assert Reaches(db, root, up, n - 1) && up in db; }
      if Subtree.Descends(db, x, up) {
        var k: nat :| Subtree.Under(db, x, up, k);
        assert Subtree.Under(db, x, c, k + 1);
      }
      AvoidingReaches(db, db', root, x, up, n - 1);
    }
  }

  lemma {:induction false} BelowReaches(db: Db, db': Db, root: Id, x: Id, c: Id, k: nat)
    requires Rooted(db, root) && Hangs(db', root, x) && Subtree.Under(db, x, c, k)
    requires forall e :: e in db && e != x ==> e in db' && db'[e].parentId == db[e].parentId
    ensures Hangs(db', root, c)
    decreases k
  {
    if c != x {
      var up := db[c].parentId.value;
      BelowReaches(db, db', root, x, up, k - 1);
      var n: nat :| Reaches(db', root, up, n);
      assert Reaches(db', root, c, n + 1);
    }
  }

  /** Writing one document under a hanging directory that is not below it lets nothing come loose. */
  lemma PutHangs(db: Db, root: Id, n: Node)
    requires Shape(db, root) && n.parentId.Some? && Hangs(db, root, n.parentId.value)
    requires !Subtree.Descends(db, n.id, n.parentId.value) && n.id != root
    ensures Hangs(db[n.id := n], root, n.id) && KeepsHanging(db, db[n.id := n], root)
  {
    hide UniqueLive;
    var db', p := db[n.id := n], n.parentId.value;
    assert KeepsParents(db, db', n.id) by {
      assert Subtree.Under(db, n.id, n.id, 0);
    }
    var m: nat :| Reaches(db, root, p, m);
    AvoidingReaches(db, db', root, n.id, p, m);
    assert Reaches(db', root, n.id, m + 1);
    forall c | c in db' && Hangs(db, root, c) ensures Hangs(db', root, c) {
      if Subtree.Descends(db, n.id, c) {
        var j: nat :| Subtree.Under(db, n.id, c, j);
        BelowReaches(db, db', root, n.id, c, j);
      } else {
        var k: nat :| Reaches(db, root, c, k);
        AvoidingReaches(db, db', root, n.id, c, k);
      }
    }
  }

  lemma {:induction false} SameParentsReaches(db: Db, db': Db, root: Id, c: Id, n: nat)
    requires Reaches(db, root, c, n)
    requires forall e :: e in db ==> e in db' && db'[e].parentId == db[e].parentId
    ensures Reaches(db', root, c, n)
    decreases n
  {
    if n > 0 { SameParentsReaches(db, db', root, db[c].parentId.value, n - 1); }
  }

  lemma SameParentsHang(db: Db, db': Db, root: Id)
    requires forall e :: e in db ==> e in db' && db'[e].parentId == db[e].parentId
    ensures KeepsHanging(db, db', root)
  {
    forall c | c in db' && Hangs(db, root, c) ensures Hangs(db', root, c) {
      var n: nat :| Reaches(db, root, c, n);
      SameParentsReaches(db, db', root, c, n);
    }
  }

  // Removing a whole subtree takes nothing else's way to the root.
  lemma PruneHangs(db: Db, db': Db, root: Id, top: Id)
    requires Shape(db, root) && KeepsParents(db, db', top)
    requires forall c :: c in db' ==> !Subtree.Descends(db, top, c)
    ensures KeepsHanging(db, db', root)
  {
    hide UniqueLive;
    forall c | c in db' && Hangs(db, root, c) ensures Hangs(db', root, c) {
      var n: nat :| Reaches(db, root, c, n);
      AvoidingReaches(db, db', root, top, c, n);
    }
  }

  // Where a document is, as path resolution sees it.
  predicate SamePlace(a: Node, b: Node) {
    a.DirNode? == b.DirNode? && a.parentId == b.parentId && a.filename == b.filename && a.trashedAt == b.trashedAt
  }

  ghost predicate KeepsPlaces(db: Db, db': Db, x: Id) {
    forall c :: c in db && !Subtree.Descends(db, x, c) ==> c in db' && SamePlace(db[c], db'[c])
  }

  /** A path that does not lead through `x` still leads where it led. */
  lemma {:induction false} PathKept(db: Db, db': Db, root: Id, x: Id, path: Path, c: Id)
    requires PathTo(db, root, path, c) && !Subtree.Descends(db, x, c) && KeepsPlaces(db, db', x)
    ensures PathTo(db', root, path, c)
  {
    if path != [] {
      var up := db[c].parentId.value;
      if Subtree.Descends(db, x, up) {
        var k: nat :| Subtree.Under(db, x, up, k);
        assert Subtree.Under(db, x, c, k + 1);
      }
      PathKept(db, db', root, x, path[..|path| - 1], up);
    }
  }

  /** The check `rename` makes on paths: a place below a node has a path that continues the node's own. */
  lemma {:induction false} BelowMeansPrefix(db: Db, root: Id, own: Path, id: Id, path: Path, d: Id, k: nat)
    requires Rooted(db, root) && PathTo(db, root, own, id) && PathTo(db, root, path, d) && Subtree.Under(db, id, d, k)
    ensures own <= path
    decreases k
  {
    if k == 0 {
      PathIsNames(db, root, own, id);
      PathIsNames(db, root, path, d);
      ReachesOnce(db, root, id, |own|, |path|);
    } else {
      assert path != [];
      BelowMeansPrefix(db, root, own, id, path[..|path| - 1], db[d].parentId.value, k - 1);
    }
  }

  lemma PathHangs(db: Db, root: Id, path: Path, id: Id)
    requires Rooted(db, root) && PathTo(db, root, path, id)
    ensures Hangs(db, root, id)
  {
    PathIsNames(db, root, path, id);
  }

  // A node does not hang below something it hangs above.
  lemma NotBelowOwnChild(db: Db, root: Id, p: Id, top: Id, n: nat)
    requires Shape(db, root) && Reaches(db, root, p, n) && top in db && top != root && db[top].parentId == Some(p)
    ensures !Subtree.Descends(db, top, p)
  {
    if Subtree.Descends(db, top, p) {
      var k: nat :| Subtree.Under(db, top, p, k);
      UnderReaches(db, root, top, p, k, n + 1);
      ReachesOnce(db, root, p, n, k + n + 1);
    }
  }

  lemma {:induction false} UnderReaches(db: Db, root: Id, top: Id, c: Id, k: nat, n: nat)
    requires Rooted(db, root) && Subtree.Under(db, top, c, k) && Reaches(db, root, top, n)
    ensures Reaches(db, root, c, k + n)
    decreases k
  {
    if k > 0 { UnderReaches(db, root, top, db[c].parentId.value, k - 1, n); }
  }

  lemma ShapeSays(db: Db, root: Id)
    requires Shape(db, root)
    ensures Keyed(db) && Signed(db) && UniqueLive(db) && Rooted(db, root) && Named(db) && DirsAbove(db)
  {
  }
}
