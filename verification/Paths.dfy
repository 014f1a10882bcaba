/**
 Walking the parent pointers (src/vfs.py): resolving a path downwards, placing a node upwards, and
 collecting a subtree. All three stop on any database, well formed or not.
 */
module Paths {
  import opened Wrappers
  import opened Bytes
  import opened Tags
  import opened Tree

  type Path = seq<Name> // a normalised path, one element a segment

  // A tree's root: a live directory below nothing.
  ghost predicate Rooted(db: Db, root: Id) {
    IsDir(db, root) && db[root].parentId.None? && db[root].trashedAt.None? && [] !in db
  }

  // Only directories have anything below them.
  ghost predicate DirsAbove(db: Db) {
    forall c :: c in db && db[c].parentId.Some? && db[c].parentId.value in db ==> db[db[c].parentId.value].DirNode?
  }

  // Every child has a name.
  ghost predicate Named(db: Db) { forall c :: c in db && db[c].parentId.Some? ==> db[c].filename.Some? }

  // ------------------------------------------------------------------ upwards

  // `id` is `n` steps below the root.
  ghost predicate Reaches(db: Db, root: Id, id: Id, n: nat)
    decreases n
  {
    if n == 0 then id == root
    else id in db && id != root && db[id].parentId.Some? && Reaches(db, root, db[id].parentId.value, n - 1)
  }

  // Its path, as names from the root down.
  ghost function Names(db: Db, root: Id, id: Id, n: nat): (p: Path)
    requires Reaches(db, root, id, n)
    ensures |p| == n
    decreases n
  {
    if n == 0 then [] else Names(db, root, db[id].parentId.value, n - 1) + [NameOf(db[id])]
  }

  // Its ancestor `k` steps up.
  ghost function Above(db: Db, root: Id, id: Id, n: nat, k: nat): (a: Id)
    requires Reaches(db, root, id, n) && k <= n
    ensures Reaches(db, root, a, n - k)
    decreases n
  {
    if k == 0 then id else Above(db, root, db[id].parentId.value, n - 1, k - 1)
  }

  // Neither it nor anything between it and the root is in the trash.
  ghost predicate LiveChain(db: Db, root: Id, id: Id, n: nat)
    requires Reaches(db, root, id, n)
    decreases n
  {
    n == 0 || (db[id].trashedAt.None? && LiveChain(db, root, db[id].parentId.value, n - 1))
  }

  lemma {:induction false} ReachesOnce(db: Db, root: Id, id: Id, n: nat, m: nat)
    requires Reaches(db, root, id, n) && Reaches(db, root, id, m)
    ensures n == m
    decreases n
  {
    if n > 0 && m > 0 {
      ReachesOnce(db, root, db[id].parentId.value, n - 1, m - 1);
    }
  }

  // ------------------------------------------------------------------ downwards

  // What `get_node` means by a path leading to a node.
  ghost predicate PathTo(db: Db, root: Id, path: Path, id: Id) {
    if path == [] then id == root
    else id in db && db[id].parentId.Some? && LiveAt(db, id, db[id].parentId.value, path[|path| - 1])
         && IsDir(db, db[id].parentId.value) && PathTo(db, root, path[..|path| - 1], db[id].parentId.value)
  }

  lemma {:induction false} PathToOnce(db: Db, root: Id, path: Path, a: Id, b: Id)
    requires UniqueLive(db) && PathTo(db, root, path, a) && PathTo(db, root, path, b)
    ensures a == b
  {
    if path != [] {
      PathToOnce(db, root, path[..|path| - 1], db[a].parentId.value, db[b].parentId.value);
      assert LiveAt(db, a, db[a].parentId.value, path[|path| - 1]);
      assert LiveAt(db, b, db[a].parentId.value, path[|path| - 1]);
    }
  }

  /** A node has one path: the names on its chain, and it has it exactly when the whole chain is live. */
  lemma {:induction false} PathIsNames(db: Db, root: Id, path: Path, id: Id)
    requires Rooted(db, root) && PathTo(db, root, path, id)
    ensures Reaches(db, root, id, |path|) && Names(db, root, id, |path|) == path && LiveChain(db, root, id, |path|)
  {
    if path != [] {
      PathIsNames(db, root, path[..|path| - 1], db[id].parentId.value);
      assert path == path[..|path| - 1] + [path[|path| - 1]];
    }
  }

  lemma {:induction false} NamesArePath(db: Db, root: Id, id: Id, n: nat)
    requires Rooted(db, root) && DirsAbove(db) && Named(db) && Reaches(db, root, id, n) && LiveChain(db, root, id, n)
    ensures PathTo(db, root, Names(db, root, id, n), id)
    decreases n
  {
    if n > 0 {
      var up, names := db[id].parentId.value, Names(db, root, id, n);
      NamesArePath(db, root, up, n - 1);
      assert names[..n - 1] == Names(db, root, up, n - 1);
      assert up in db by { if n > 1 { assert Reaches(db, root, up, n - 1); } }
    }
  }

  // One query: a live child by name. The unique index makes the answer the only one.
  method FindLive(db: Db, parent: Id, name: Name) returns (r: Option<Node>)
    requires Keyed(db)
    ensures r.Some? ==> r.value.id in db && db[r.value.id] == r.value && LiveAt(db, r.value.id, parent, name)
    ensures r.None? ==> forall c :: !LiveAt(db, c, parent, name)
  {
    var hits := set c | c in db && LiveAt(db, c, parent, name);
    if hits == {} {
      assert forall c :: LiveAt(db, c, parent, name) ==> c in hits;
      r := None;
    } else {
      var c :| c in hits;
      r := Some(db[c]);
    }
  }

  // `get_node`: segment by segment, trashed nodes invisible.
  method GetNode(db: Db, root: Id, path: Path) returns (r: Option<Node>)
    requires Keyed(db) && UniqueLive(db) && Rooted(db, root)
    ensures r.Some? ==> r.value.id in db && db[r.value.id] == r.value && PathTo(db, root, path, r.value.id)
    ensures r.None? ==> forall id :: !PathTo(db, root, path, id)
  {
    r := Some(db[root]);
    assert path[..0] == [];
    for i := 0 to |path|
      invariant r.Some? ==> r.value.id in db && db[r.value.id] == r.value && PathTo(db, root, path[..i], r.value.id)
      invariant r.None? ==> forall id :: !PathTo(db, root, path[..i], id)
    {
      ghost var longer := path[..i + 1];
      assert longer[..i] == path[..i];
      if r.None? || !r.value.DirNode? {
        forall id ensures !PathTo(db, root, longer, id) {
          if PathTo(db, root, longer, id) {
            if r.Some? { PathToOnce(db, root, path[..i], r.value.id, db[id].parentId.value); }
          }
        }
        r := None;
      } else {
        var parent := r.value.id;
        r := FindLive(db, parent, path[i]);
        if r.None? {
          forall id ensures !PathTo(db, root, longer, id) {
            if PathTo(db, root, longer, id) {
              PathToOnce(db, root, path[..i], parent, db[id].parentId.value);
            }
          }
        }
      }
    }
    assert path[..|path|] == path;
  }

  // ------------------------------------------------------------------ placing a node

  // The nearest trashed directory among `id` and the ones above it.
  ghost function Blocker(db: Db, root: Id, id: Id, n: nat): (b: Option<Id>)
    requires Reaches(db, root, id, n)
    ensures b.None? <==> LiveChain(db, root, id, n)
    ensures b.Some? ==> b.value in db && db[b.value].trashedAt.Some?
    decreases n
  {
    if n == 0 then None
    else if db[id].trashedAt.Some? then Some(id)
    else Blocker(db, root, db[id].parentId.value, n - 1)
  }

  // `cur` is `k` parent steps above `start`, none of them from the root.
  ghost predicate Steps(db: Db, root: Id, start: Id, k: nat, cur: Id)
    decreases k
  {
    if k == 0 then start == cur
    else start in db && start != root && db[start].parentId.Some?
         && Steps(db, root, db[start].parentId.value, k - 1, cur)
  }

  lemma {:induction false} StepsReach(db: Db, root: Id, start: Id, k: nat)
    requires Steps(db, root, start, k, root)
    ensures Reaches(db, root, start, k)
    decreases k
  {
    if k > 0 { StepsReach(db, root, db[start].parentId.value, k - 1); }
  }

  lemma {:induction false} StepsAppend(db: Db, root: Id, start: Id, k: nat, cur: Id)
    requires Steps(db, root, start, k, cur) && cur in db && cur != root && db[cur].parentId.Some?
    ensures Steps(db, root, start, k + 1, db[cur].parentId.value)
    decreases k
  {
    if k > 0 { StepsAppend(db, root, db[start].parentId.value, k - 1, cur); }
  }

  // What the walk has gathered after `k` of the `n` steps from `start`, having come to `cur`.
  ghost predicate Gathered(db: Db, root: Id, start: Id, n: nat, k: nat, cur: Id, segments: Path, blocked: Option<Id>) {
    && Reaches(db, root, start, n) && k <= n && Reaches(db, root, cur, n - k)
    && Names(db, root, start, n) == Names(db, root, cur, n - k) + segments
    && Blocker(db, root, start, n) == (if blocked.Some? then blocked else Blocker(db, root, cur, n - k))
  }

  // Something already walked past is further from the root than what comes next.
  ghost predicate Behind(db: Db, root: Id, n: nat, k: nat, seen: set<Id>) {
    forall s :: s in seen ==> exists m: nat :: n < m + k && m <= n && Reaches(db, root, s, m)
  }

  lemma GatheredStep(db: Db, root: Id, start: Id, n: nat, k: nat, cur: Id, segments: Path, blocked: Option<Id>)
    requires Gathered(db, root, start, n, k, cur, segments, blocked) && cur != root && cur in db && db[cur].id == cur
    ensures db[cur].parentId.Some?
    ensures Gathered(db, root, start, n, k + 1, db[cur].parentId.value, [NameOf(db[cur])] + segments,
                     if db[cur].trashedAt.Some? && blocked.None? then Some(cur) else blocked)
  {
    var up := db[cur].parentId.value;
    assert Names(db, root, cur, n - k) == Names(db, root, up, n - k - 1) + [NameOf(db[cur])];
    assert Names(db, root, cur, n - k) + segments
        == Names(db, root, up, n - k - 1) + ([NameOf(db[cur])] + segments);
  }

  lemma WalkBegins(db: Db, root: Id, start: Id, n: nat, known: bool)
    requires known ==> Reaches(db, root, start, n)
    ensures Steps(db, root, start, 0, start)
    ensures known ==> Gathered(db, root, start, n, 0, start, [], None) && Behind(db, root, n, 0, {})
  {
    if known { assert Names(db, root, start, n) + [] == Names(db, root, start, n); }
  }

  lemma WalkEnds(db: Db, root: Id, start: Id, n: nat, k: nat, segments: Path, blocked: Option<Id>)
    requires Gathered(db, root, start, n, k, root, segments, blocked)
    ensures k == n
  {
    ReachesOnce(db, root, root, n - k, 0);
  }

  lemma WalkStays(db: Db, root: Id, start: Id, n: nat, k: nat, cur: Id, segments: Path, blocked: Option<Id>)
    requires Gathered(db, root, start, n, k, cur, segments, blocked)
    ensures k <= n && Reaches(db, root, cur, n - k) && (cur == root || cur in db)
  {
  }

  // A known chain neither leaves the database, nor meets the empty id, nor comes by a place twice.
  lemma NoReturn(db: Db, root: Id, start: Id, n: nat, k: nat, cur: Id, segments: Path, blocked: Option<Id>, seen: set<Id>)
    requires Rooted(db, root) && Gathered(db, root, start, n, k, cur, segments, blocked) && Behind(db, root, n, k, seen)
    ensures cur != [] && cur !in seen
  {
    if cur in seen {
      var m: nat :| n < m + k && m <= n && Reaches(db, root, cur, m);
      ReachesOnce(db, root, cur, n - k, m);
    }
  }

  lemma BehindStep(db: Db, root: Id, n: nat, k: nat, seen: set<Id>, cur: Id)
    requires Behind(db, root, n, k, seen) && k <= n && Reaches(db, root, cur, n - k)
    ensures Behind(db, root, n, k + 1, seen + {cur})
  {
    forall s | s in seen + {cur} ensures exists m: nat :: n < m + (k + 1) && m <= n && Reaches(db, root, s, m) {
      if s == cur {
        assert Reaches(db, root, s, n - k);
      } else {
        var m: nat :| n < m + k && m <= n && Reaches(db, root, s, m);
      }
    }
  }

  /**
   `_ancestors_of`: where a node would come back to, and what stands in the way. It finds a place exactly
   when the node hangs, by whatever chain, below this root; a cycle or a missing parent ends the walk.
   */
  method AncestorsOf(db: Db, root: Id, node: Node) returns (place: Option<Path>, blockedBy: Option<Id>)
    requires Keyed(db) && Rooted(db, root)
    ensures place.Some? ==> node.parentId.Some? && exists n: nat ::
              Gathered(db, root, node.parentId.value, n, n, root, place.value, blockedBy)
    ensures place.None? ==> blockedBy.None?
                            && (node.parentId.Some? ==> forall n: nat :: !Reaches(db, root, node.parentId.value, n))
  {
    hide Reaches, Names, Blocker, Steps, Gathered, Behind;
    var segments: Path := []; // the source keeps them nearest first and reverses at the end
    blockedBy := None;
    var current := node.parentId;
    var seen: set<Id> := {};
    ghost var start := if node.parentId.Some? then node.parentId.value else [];
    ghost var known := node.parentId.Some? && exists n: nat :: Reaches(db, root, start, n);
    ghost var n: nat := 0;
    if known { n :| Reaches(db, root, start, n); }
    ghost var k: nat := 0;
    if node.parentId.Some? { WalkBegins(db, root, start, n, known); }
    while current.Some? && current.value != [] && current.value !in seen
      invariant seen <= db.Keys
      invariant node.parentId.None? ==> current.None?
      invariant known ==> current.Some? && Gathered(db, root, start, n, k, current.value, segments, blockedBy)
                          && Behind(db, root, n, k, seen)
      invariant current.Some? ==> Steps(db, root, start, k, current.value)
      decreases |db.Keys - seen|
    {
      ghost var left := db.Keys - seen;
      if current.value == root {
        StepsReach(db, root, start, k);
        assert known;
        WalkEnds(db, root, start, n, k, segments, blockedBy);
        return Some(segments), blockedBy;
      }
      if current.value !in db {
        if known { WalkStays(db, root, start, n, k, current.value, segments, blockedBy); }
        return None, None;
      }
      if known {
        GatheredStep(db, root, start, n, k, current.value, segments, blockedBy);
        WalkStays(db, root, start, n, k, current.value, segments, blockedBy);
        BehindStep(db, root, n, k, seen, current.value);
      }
      seen := seen + {current.value};
      assert db.Keys - seen == left - {current.value};
      var parent := db[current.value];
      if parent.trashedAt.Some? && blockedBy.None? {
        blockedBy := Some(parent.id);
      }
      segments := [NameOf(parent)] + segments;
      if parent.parentId.Some? {
        StepsAppend(db, root, start, k, current.value);
      }
      current := parent.parentId;
      k := k + 1;
    }
    if known { NoReturn(db, root, start, n, k, current.value, segments, blockedBy, seen); }
    return None, None;
  }
}
