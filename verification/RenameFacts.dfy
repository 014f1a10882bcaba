/**
 What a `rename` (src/vfs.py) leaves behind, said without its steps: which documents are still there, what of
 them has changed, and what its two paths lead to.
 */
module RenameFacts {
  import opened Wrappers
  import opened Bytes
  import opened Tags
  import opened Tree
  import opened Paths
  import opened DirectoryTags
  import opened Structure
  import opened Operations
  import opened FileContent
  import opened VfsFacts
  import Subtree

  // The same document, but for the two entry tags of a directory.
  predicate SameButTags(a: Node, b: Node) {
    if a.DirNode? && b.DirNode? then b == a.(entriesMac := b.entriesMac, pending := b.pending) else a == b
  }

  // The same node, wherever it is.
  predicate SameContent(a: Node, b: Node) {
    && a.id == b.id && a.trashedAt == b.trashedAt && a.DirNode? == b.DirNode?
    && (a.FileNode? ==> a.size == b.size && a.chunks == b.chunks)
  }

  // `c` is what `path` names, or below that.
  ghost predicate AtOrBelow(db: Db, root: Id, path: Path, c: Id) { exists e :: PathTo(db, root, path, e) && Subtree.Descends(db, e, c) }

  // What was at `to` is gone with all below it, `id` is the same node elsewhere, and nothing else has changed.
  ghost predicate OnlyMoved(db: Db, db': Db, root: Id, id: Id, to: Path) {
    && (forall c :: c in db' <==> c in db && !AtOrBelow(db, root, to, c))
    && (forall c :: c in db' && c != id ==> SameButTags(db[c], db'[c]))
    && id in db' && SameContent(db[id], db'[id])
  }

  lemma SettledSame(db: Db, d: Id)
    ensures Settled(db, d).Keys == db.Keys && forall c :: c in db ==> SameButTags(db[c], Settled(db, d)[c])
    ensures forall c :: c in db && c != d ==> Settled(db, d)[c] == db[c]
  {
  }

  lemma SameButTagsChain(a: Node, b: Node, c: Node)
    requires SameButTags(a, b) && SameButTags(b, c)
    ensures SameButTags(a, c)
  {
  }

  lemma MovedSame(db: Db, s: Id, t: Id, n: Node)
    requires n.id in db && n.id != s && n.id != t
    ensures var db' := MovedTo(db, s, t, n);
            && db'.Keys == db.Keys && db'[n.id] == n
            && forall c :: c in db && c != n.id ==> SameButTags(db[c], db'[c])
  {
    var mid := db[n.id := n];
    SettledSame(mid, s);
    SettledSame(Settled(mid, s), t);
    hide Settled;
    forall c | c in db && c != n.id ensures SameButTags(db[c], MovedTo(db, s, t, n)[c]) {
      SameButTagsChain(db[c], Settled(mid, s)[c], MovedTo(db, s, t, n)[c]);
    }
  }

  // A purge takes a node and all below it, and touches nothing else but its directory's tags.
  ghost predicate OnlyGone(db: Db, db': Db, id: Id) {
    && (forall c :: c in db' <==> c in db && !Subtree.Descends(db, id, c))
    && (forall c :: c in db' ==> SameButTags(db[c], db'[c]))
  }

  lemma OnlyGoneShown(db: Db, id: Id, p: Id)
    ensures OnlyGone(db, Settled(Without(db, id), p), id)
  {
    SettledSame(Without(db, id), p);
    hide Settled, Subtree.Descends;
  }

  // The occupant and everything below it goes; of the rest only the directory's tags change.
  lemma ClearedSame(db: Db, d: Id, e: Id, now: nat)
    requires e in db && e != d && IsDir(db, d)
    ensures var db' := Cleared(db, d, e, now);
            && (forall c :: c in db' <==> c in db && !Subtree.Descends(db, e, c))
            && (forall c :: c in db' ==> SameButTags(db[c], db'[c]) && (c != d ==> db'[c] == db[c]))
  {
    var db1 := db[e := WithTrash(db[e], Some(now))];
    assert Subtree.Under(db, e, e, 0);
    ClearedKeys(db, d, e, now);
    ClearedKeeps(db, d, e, now);
    SettledSame(Without(db1, e), d);
    hide Subtree.Descends, Settled, WithTrash;
  }

  // The database the move starts from, once its place is free.
  ghost predicate Freed(db: Db, mid: Db, root: Id, to: Path, d: Id, occupant: Option<Id>, now: nat) {
    if occupant.Some?
    then PathTo(db, root, to, occupant.value) && occupant.value in db && occupant.value != d && IsDir(db, d)
         && mid == Cleared(db, d, occupant.value, now)
    else !Resolves(db, root, to) && mid == db
  }

  lemma FreedSame(db: Db, mid: Db, root: Id, to: Path, d: Id, occupant: Option<Id>, now: nat)
    requires Shape(db, root) && Freed(db, mid, root, to, d, occupant, now)
    ensures forall c :: c in mid <==> c in db && !AtOrBelow(db, root, to, c)
    ensures forall c :: c in mid ==> SameButTags(db[c], mid[c]) && (c != d ==> mid[c] == db[c])
  {
    hide Cleared, Shape, Subtree.Descends, PathTo, SameButTags;
    if occupant.Some? {
      ClearedSame(db, d, occupant.value, now);
      forall c ensures AtOrBelow(db, root, to, c) <==> Subtree.Descends(db, occupant.value, c) {
        OccupantOnly(db, root, to, occupant.value, c);
      }
    } else {
      forall c | c in mid ensures SameButTags(db[c], mid[c]) { Itself(db[c]); }
    }
  }

  lemma Itself(n: Node)
    ensures SameButTags(n, n)
  {
  }

  lemma OnlyMovedShown(db: Db, mid: Db, root: Id, id: Id, to: Path, s: Id, d: Id, name: Name, occupant: Option<Id>, now: nat)
    requires Shape(db, root) && Freed(db, mid, root, to, d, occupant, now) && id in mid && id != s && id != d
    ensures OnlyMoved(db, MovedTo(mid, s, d, Renamed(mid[id], d, name)), root, id, to)
  {
    ShapeSays(db, root);
    FreedSame(db, mid, root, to, d, occupant, now);
    hide MovedTo, Shape, Freed, AtOrBelow, SameButTags, SameContent, OnlyMoved, Renamed, Keyed, UniqueLive, DirsAbove, Signed, Named, Rooted;
    MoveOnly(db, mid, id, s, d, name);
    OnlyMovedIs(db, mid, MovedTo(mid, s, d, Renamed(mid[id], d, name)), root, id, to);
  }

  lemma OnlyMovedIs(db: Db, mid: Db, db': Db, root: Id, id: Id, to: Path)
    requires forall c :: c in mid <==> c in db && !AtOrBelow(db, root, to, c)
    requires db'.Keys == mid.Keys && id in mid && SameContent(db[id], db'[id])
    requires forall c :: c in db' && c != id ==> SameButTags(db[c], db'[c])
    ensures OnlyMoved(db, db', root, id, to)
  {
    hide AtOrBelow, SameButTags, SameContent;
  }

  lemma OccupantOnly(db: Db, root: Id, to: Path, e: Id, c: Id)
    requires Shape(db, root) && PathTo(db, root, to, e)
    ensures AtOrBelow(db, root, to, c) <==> Subtree.Descends(db, e, c)
  {
    hide Subtree.Descends;
    forall x | PathTo(db, root, to, x) ensures x == e { PathToOnce(db, root, to, x, e); }
  }

  lemma MoveOnly(db: Db, mid: Db, id: Id, s: Id, d: Id, name: Name)
    requires Keyed(db) && mid.Keys <= db.Keys && id in mid && id != s && id != d
    requires forall c :: c in mid ==> SameButTags(db[c], mid[c]) && (c != d ==> mid[c] == db[c])
    ensures var db' := MovedTo(mid, s, d, Renamed(mid[id], d, name));
            && db'.Keys == mid.Keys && SameContent(db[id], db'[id])
            && forall c :: c in db' && c != id ==> SameButTags(db[c], db'[c])
  {
    var n := Renamed(mid[id], d, name);
    var db' := MovedTo(mid, s, d, n);
    MovedSame(mid, s, d, n);
    hide MovedTo;
    forall c | c in db' && c != id ensures SameButTags(db[c], db'[c]) {
      SameButTagsChain(db[c], mid[c], db'[c]);
    }
  }

  /** And its old path leads nowhere any more. */
  lemma OldPathGone(db: Db, db': Db, root: Id, id: Id, from: Path, to: Path)
    requires Shape(db, root) && Shape(db', root) && from != [] && from != to && PathTo(db, root, from, id) && PathTo(db', root, to, id)
    requires OnlyMoved(db, db', root, id, to) && (forall e :: PathTo(db, root, to, e) ==> !HasLiveChild(db, e))
    ensures !Resolves(db', root, from)
  {
    PathInDb(db, root, from, id);
    var s := db[id].parentId.value;
    hide Shape, OnlyMoved, HasLiveChild;
    ParentStays(db, db', root, id, from, to, s);
    forall x ensures !PathTo(db', root, from, x) {
      if PathTo(db', root, from, x) {
        if x == id {
          PathsMeet(db', root, id, from, to);
        } else {
          NobodyElse(db, db', root, id, from, to, s, x);
        }
      }
    }
  }

  // What the last write of a rename leaves.
  lemma MoveShown(db: Db, mid: Db, db': Db, root: Id, id: Id, from: Path, to: Path, d: Id, occupant: Option<Id>, now: nat)
    requires Shape(db, root) && Shape(db', root) && Freed(db, mid, root, to, d, occupant, now) && IsDir(db, d)
    requires id in db && db[id].parentId.Some? && db[id].parentId != Some(id) && id != d && id in mid && mid[id] == db[id]
    requires from != [] && to != [] && from != to && PathTo(db, root, from, id) && PathTo(db', root, to, id)
    requires PathTo(db, root, ParentPath(to), d) && (occupant.Some? ==> !HasLiveChild(db, occupant.value))
    requires db' == MovedTo(mid, db[id].parentId.value, d, Renamed(db[id], d, to[|to| - 1]))
    ensures RenameEffect(db, db', root, id, to, now) && OnlyMoved(db, db', root, id, to) && !Resolves(db', root, from)
  {
    hide Shape, MovedTo, Cleared, PathTo, RenameEffect, OnlyMoved, HasLiveChild, Renamed;
    EffectShown(db, db', root, id, d, to, occupant, now);
    OnlyMovedShown(db, mid, root, id, to, db[id].parentId.value, d, to[|to| - 1], occupant, now);
    EmptyOccupant(db, root, to, occupant);
    OldPathGone(db, db', root, id, from, to);
  }

  lemma PathsMeet(db: Db, root: Id, id: Id, a: Path, b: Path)
    requires Shape(db, root) && PathTo(db, root, a, id) && PathTo(db, root, b, id)
    ensures a == b
  {
    PathsAgree(db, root, id, a, b);
  }

  lemma NobodyElse(db: Db, db': Db, root: Id, id: Id, from: Path, to: Path, s: Id, x: Id)
    requires Shape(db, root) && Shape(db', root) && from != [] && PathTo(db, root, from, id) && id in db && db[id].parentId == Some(s)
    requires OnlyMoved(db, db', root, id, to) && PathTo(db', root, ParentPath(from), s) && PathTo(db', root, from, x)
    ensures x == id
  {
    PathInDb(db, root, from, id);
    PathInDb(db', root, from, x);
    PathToOnce(db', root, ParentPath(from), db'[x].parentId.value, s);
    if x != id {
      assert SameButTags(db[x], db'[x]);
      OneHolder(db, x, id, s, from[|from| - 1]);
    }
  }

  // The directory the node was in is where it was.
  lemma ParentStays(db: Db, db': Db, root: Id, id: Id, from: Path, to: Path, s: Id)
    requires Shape(db, root) && from != [] && from != to && PathTo(db, root, from, id) && id in db && db[id].parentId == Some(s)
    requires OnlyMoved(db, db', root, id, to) && (forall e :: PathTo(db, root, to, e) ==> !HasLiveChild(db, e))
    ensures PathTo(db', root, ParentPath(from), s)
  {
    PathInDb(db, root, from, id);
    LiveChildShows(db, id, s);
    PathIsNames(db, root, ParentPath(from), s);
    NotBelowOwnChild(db, root, s, id, |from| - 1);
    hide HasLiveChild, OnlyMoved;
    ChainStays(db, db', root, id, ParentPath(from), to, s, |from| - 1);
  }

  // Nor has anything on the way to it gone or moved.
  lemma {:induction false} ChainStays(db: Db, db': Db, root: Id, id: Id, path: Path, to: Path, c: Id, n: nat)
    requires Shape(db, root) && PathTo(db, root, path, c) && |path| == n && OnlyMoved(db, db', root, id, to)
    requires HasLiveChild(db, c) && (forall e :: PathTo(db, root, to, e) ==> !HasLiveChild(db, e))
    requires !Subtree.Descends(db, id, c)
    ensures PathTo(db', root, path, c)
    decreases n
  {
    if path != [] {
      hide OnlyMoved, HasLiveChild, AtOrBelow, Subtree.Descends;
      PathInDb(db, root, path, c);
      var up := db[c].parentId.value;
      LiveChildShows(db, c, up);
      OneBelow(db, id, up, c);
      ChainStays(db, db', root, id, ParentPath(path), to, up, n - 1);
      hide Shape;
      NotCleared(db, root, path, to, c);
      NotCleared(db, root, ParentPath(path), to, up);
      StaysPut(db, db', root, id, to, c);
      StaysPut(db, db', root, id, to, up);
    }
  }

  lemma StaysPut(db: Db, db': Db, root: Id, id: Id, to: Path, c: Id)
    requires OnlyMoved(db, db', root, id, to) && c in db && !AtOrBelow(db, root, to, c) && !Subtree.Descends(db, id, c)
    ensures c in db' && SameButTags(db[c], db'[c])
  {
    assert Subtree.Under(db, id, id, 0);
  }

  lemma OneBelow(db: Db, x: Id, up: Id, c: Id)
    requires c in db && db[c].parentId == Some(up) && IsDir(db, up) && !Subtree.Descends(db, x, c)
    ensures !Subtree.Descends(db, x, up)
  {
    if Subtree.Descends(db, x, up) {
      var k: nat :| Subtree.Under(db, x, up, k);
      assert Subtree.Under(db, x, c, k + 1);
    }
  }

  // Something live hangs from it, so it was not what stood in the way.
  lemma NotCleared(db: Db, root: Id, path: Path, to: Path, c: Id)
    requires Shape(db, root) && PathTo(db, root, path, c) && HasLiveChild(db, c)
    requires forall e :: PathTo(db, root, to, e) ==> !HasLiveChild(db, e)
    ensures !AtOrBelow(db, root, to, c)
  {
    hide HasLiveChild;
    if AtOrBelow(db, root, to, c) {
      var e :| PathTo(db, root, to, e) && Subtree.Descends(db, e, c);
      var k: nat :| Subtree.Under(db, e, c, k);
      LiveIsNotBelow(db, root, path, c, e, k);
    }
  }

  // ------------------------------------------------------------------ restoring

  /**
   A restore touches the node, the one that held its name if that was to be replaced, and otherwise only the tags
   of the directory. The node keeps what it is, and its name unless the name is held and both are to be kept.
   */
  ghost predicate OnlyRestored(db: Db, db': Db, id: Id, policy: Policy, now: nat, name: Name)
    requires id in db && db[id].parentId.Some?
  {
    var p, own := db[id].parentId.value, NameOf(db[id]);
    && db'.Keys == db.Keys && SameContent(WithTrash(db[id], None), db'[id]) && db'[id].parentId == Some(p)
    && (forall c :: c in db && c != id && !LiveAt(db, c, p, own) ==> SameButTags(db[c], db'[c]))
    && (forall c :: LiveAt(db, c, p, own) && c != id ==>
          if policy == Replace then db'[c] == WithTrash(db[c], Some(now)) else SameButTags(db[c], db'[c]))
    && (if policy == KeepBoth && Taken(db, p, own)
        then exists k: nat :: 2 <= k < 1000 && name == Candidate(own, k) && !Taken(db, p, name)
                              && forall j :: 2 <= j < k ==> Taken(db, p, Candidate(own, j))
        else name == own)
  }

  lemma OnlyRestoredShown(db: Db, db': Db, root: Id, id: Id, policy: Policy, now: nat, name: Name)
    requires Shape(db, root) && id in db && db[id].parentId.Some? && db[id].trashedAt.Some? && id != db[id].parentId.value
    requires ComesBack(db, db', id, policy, now, name) && (Taken(db, db[id].parentId.value, NameOf(db[id])) ==> policy != Skip && policy != Fail)
    ensures OnlyRestored(db, db', id, policy, now, name)
  {
    hide Shape, ComesBack, OnlyRestored, Taken;
    if !Taken(db, db[id].parentId.value, NameOf(db[id])) {
      BackAlone(db, db', id, policy, now, name);
    } else if policy == Replace {
      BackInstead(db, db', root, id, now, name);
    } else {
      BackBeside(db, db', id, now, name);
    }
  }

  lemma BackAlone(db: Db, db': Db, id: Id, policy: Policy, now: nat, name: Name)
    requires id in db && db[id].parentId.Some? && !Taken(db, db[id].parentId.value, NameOf(db[id]))
    requires ComesBack(db, db', id, policy, now, name)
    ensures OnlyRestored(db, db', id, policy, now, name)
  {
    var p, own := db[id].parentId.value, NameOf(db[id]);
    forall c ensures !LiveAt(db, c, p, own) {
      assert LiveAt(db, c, p, own) ==> c in NameTaken(db, p, own);
    }
    Brought(db, id, own);
    hide WithTrash, Taken;
  }

  lemma BackBeside(db: Db, db': Db, id: Id, now: nat, name: Name)
    requires id in db && db[id].parentId.Some? && Taken(db, db[id].parentId.value, NameOf(db[id])) && id != db[id].parentId.value
    requires ComesBack(db, db', id, KeepBoth, now, name)
    ensures OnlyRestored(db, db', id, KeepBoth, now, name)
  {
    hide Taken;
    Brought(db, id, name);
    SettledSame(db[id := WithTrash(db[id].(filename := Some(name)), None)], db[id].parentId.value);
    hide WithTrash, Settled, SameContent;
  }

  lemma Brought(db: Db, id: Id, name: Name)
    requires id in db
    ensures SameContent(WithTrash(db[id], None), WithTrash(db[id].(filename := Some(name)), None))
    ensures WithTrash(db[id], None).parentId == db[id].parentId
    ensures WithTrash(db[id].(filename := Some(name)), None).parentId == db[id].parentId
    ensures SameContent(WithTrash(db[id], None), WithTrash(db[id], None))
  {
  }

  lemma BackInstead(db: Db, db': Db, root: Id, id: Id, now: nat, name: Name)
    requires Shape(db, root) && id in db && db[id].parentId.Some? && db[id].trashedAt.Some? && Taken(db, db[id].parentId.value, NameOf(db[id]))
    requires ComesBack(db, db', id, Replace, now, name)
    ensures OnlyRestored(db, db', id, Replace, now, name)
  {
    var p, own := db[id].parentId.value, NameOf(db[id]);
    var o :| o in db && LiveAt(db, o, p, own) && db' == db[o := WithTrash(db[o], Some(now))][id := WithTrash(db[id], None)];
    forall c | LiveAt(db, c, p, own) ensures c == o { OneHolder(db, c, o, p, own); }
    hide Shape, Taken, ComesBack;
    InsteadOf(db, db', id, o, now);
  }

  lemma InsteadOf(db: Db, db': Db, id: Id, o: Id, now: nat)
    requires id in db && db[id].parentId.Some? && o in db && o != id && LiveAt(db, o, db[id].parentId.value, NameOf(db[id]))
    requires forall c :: LiveAt(db, c, db[id].parentId.value, NameOf(db[id])) ==> c == o
    requires db' == db[o := WithTrash(db[o], Some(now))][id := WithTrash(db[id], None)]
    ensures OnlyRestored(db, db', id, Replace, now, NameOf(db[id]))
  {
    Brought(db, id, NameOf(db[id]));
    hide WithTrash, SameContent, LiveAt, Taken;
  }
}
