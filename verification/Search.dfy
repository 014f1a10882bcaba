/**
 `search` (src/vfs.py): a breadth-first walk over verified listings that says when it did not finish.
 */
module Search {
  import opened Wrappers
  import opened Tags
  import opened Tree
  import opened Paths
  import Subtree

  datatype Hit = Hit(path: Path, node: Node)

  type Matcher = Name -> bool // `wanted in name.casefold()`

  datatype Error = Integrity

  // ------------------------------------------------------------------ one directory

  ghost predicate LiveChild(db: Db, c: Node, d: Id) {
    c.id in db && db[c.id] == c && c.parentId == Some(d) && c.trashedAt.None?
  }

  // Exactly the live children, each once.
  ghost predicate LiveListing(db: Db, d: Id, kids: seq<Node>) {
    && Subtree.Distinct(db, kids)
    && (forall i :: 0 <= i < |kids| ==> LiveChild(db, kids[i], d))
    && (forall c :: IsChild(db, c, d) && db[c].trashedAt.None? ==> Subtree.Listed(kids, c))
  }

  // `entries_of`: membership first, over every child; then the trashed ones are checked and left out.
  method EntriesOf(db: Db, node: Node) returns (r: Outcome<seq<Node>, Error>)
    requires Keyed(db) && node.DirNode? && node.id in db && db[node.id] == node
    ensures r.Ok? ==> LiveListing(db, node.id, r.value)
    ensures r.Ok? <==> Accepts(db, node.id) && forall c :: IsChild(db, c, node.id) && db[c].trashedAt.Some? ==> db[c].mac == MacOf(db[c])
  {
    var kids := Subtree.ChildrenOf(db, node.id);
    var actual := EntriesMac(node.id, ChildPairs(db, node.id));
    if node.entriesMac != Some(actual) && node.pending != Some(actual) {
      return Raised(Integrity);
    }
    var live: seq<Node> := [];
    for i := 0 to |kids|
      invariant Subtree.Distinct(db, live)
      invariant forall j :: 0 <= j < |live| ==> LiveChild(db, live[j], node.id) && Subtree.Listed(kids[..i], live[j].id)
      invariant forall j :: 0 <= j < i && kids[j].trashedAt.None? ==> Subtree.Listed(live, kids[j].id)
      invariant forall j :: 0 <= j < i && kids[j].trashedAt.Some? ==> kids[j].mac == MacOf(kids[j])
    {
      assert Subtree.Listed(kids, kids[i].id);
      if kids[i].trashedAt.None? {
        ghost var before := live;
        live := live + [kids[i]];
        assert live[|before|].id == kids[i].id;
        forall j | 0 <= j < i && kids[j].trashedAt.None? ensures Subtree.Listed(live, kids[j].id) {
          var k :| 0 <= k < |before| && before[k].id == kids[j].id;
          assert live[k].id == kids[j].id;
        }
      } else if kids[i].mac != MacOf(kids[i]) {
        return Raised(Integrity);
      }
      forall j | 0 <= j < |live| ensures Subtree.Listed(kids[..i + 1], live[j].id) {
        if j < |live| && Subtree.Listed(kids[..i], live[j].id) {
          var k :| 0 <= k < i && kids[..i][k].id == live[j].id;
          assert kids[..i + 1][k].id == live[j].id;
        } else {
          assert kids[..i + 1][i].id == live[j].id;
        }
      }
    }
    forall c | IsChild(db, c, node.id) && db[c].trashedAt.Some? ensures db[c].mac == MacOf(db[c]) {
      assert Subtree.Listed(kids, c);
    }
    r := Ok(live);
  }

  // The children `keep` picks, each with its full path.
  function Pick(kids: seq<Node>, prefix: Path, keep: Node -> bool): seq<Hit> {
    if kids == [] then []
    else
      var last := kids[|kids| - 1];
      Pick(kids[..|kids| - 1], prefix, keep) + if keep(last) then [Hit(prefix + [NameOf(last)], last)] else []
  }

  // What scanning a listing to the end adds to the results, and to the queue.
  function Hits(kids: seq<Node>, prefix: Path, matches: Matcher): seq<Hit> {
    Pick(kids, prefix, (n: Node) => matches(NameOf(n)))
  }

  function Dirs(kids: seq<Node>, prefix: Path): seq<Hit> {
    Pick(kids, prefix, (n: Node) => n.DirNode?)
  }

  predicate HasHit(hits: seq<Hit>, id: Id) { exists i :: 0 <= i < |hits| && hits[i].node.id == id }

  predicate DistinctHits(hits: seq<Hit>) {
    forall i, j :: 0 <= i < j < |hits| ==> hits[i].node.id != hits[j].node.id
  }

  predicate HitFrom(h: Hit, kids: seq<Node>, prefix: Path, keep: Node -> bool) {
    h.path == prefix + [NameOf(h.node)] && keep(h.node) && h.node in kids
  }

  lemma HasHitConcat(a: seq<Hit>, b: seq<Hit>)
    ensures forall id :: HasHit(a + b, id) <==> HasHit(a, id) || HasHit(b, id)
  {
    forall id | HasHit(a, id) || HasHit(b, id) ensures HasHit(a + b, id) {
      if HasHit(a, id) {
        var i :| 0 <= i < |a| && a[i].node.id == id;
        assert (a + b)[i].node.id == id;
      } else {
        var i :| 0 <= i < |b| && b[i].node.id == id;
        assert (a + b)[|a| + i].node.id == id;
      }
    }
  }

  // What `Pick` returns for the nodes it is given.
  ghost predicate Picked(hits: seq<Hit>, kids: seq<Node>, prefix: Path, keep: Node -> bool) {
    && (forall i :: 0 <= i < |hits| ==> HitFrom(hits[i], kids, prefix, keep))
    && (forall i :: 0 <= i < |kids| && keep(kids[i]) ==> HasHit(hits, kids[i].id))
    && DistinctHits(hits)
  }

  lemma PickedOneMore(db: Db, kids: seq<Node>, prefix: Path, keep: Node -> bool, before: seq<Hit>, now: seq<Hit>)
    requires Subtree.Distinct(db, kids) && kids != [] && Picked(before, kids[..|kids| - 1], prefix, keep)
    requires var last := kids[|kids| - 1]; now == if keep(last) then [Hit(prefix + [NameOf(last)], last)] else []
    ensures Picked(before + now, kids, prefix, keep)
  {
    var n := |kids| - 1;
    var init, last := kids[..n], kids[n];
    HasHitConcat(before, now);
    forall i | 0 <= i < |before| ensures HitFrom((before + now)[i], kids, prefix, keep) && before[i].node.id != last.id {
      assert HitFrom(before[i], init, prefix, keep);
      var k :| 0 <= k < n && init[k] == before[i].node;
      assert kids[k] == before[i].node;
    }
    hide HasHit;
    forall i | 0 <= i < |kids| && keep(kids[i]) ensures HasHit(before + now, kids[i].id) {
      if i < n { assert init[i] == kids[i]; } else { HasOnly(now, last.id); }
    }
  }

  lemma HasOnly(hits: seq<Hit>, id: Id)
    requires |hits| == 1 && hits[0].node.id == id
    ensures HasHit(hits, id)
  {
  }

  lemma {:induction false} PickMeans(db: Db, kids: seq<Node>, prefix: Path, keep: Node -> bool)
    requires Subtree.Distinct(db, kids)
    ensures Picked(Pick(kids, prefix, keep), kids, prefix, keep)
  {
    if kids != [] {
      var n := |kids| - 1;
      PickMeans(db, kids[..n], prefix, keep);
      hide Picked;
      PickedOneMore(db, kids, prefix, keep, Pick(kids[..n], prefix, keep),
                    if keep(kids[n]) then [Hit(prefix + [NameOf(kids[n])], kids[n])] else []);
    }
  }

  // The loop over one directory's entries, with both ceilings.
  method ScanDir(kids: seq<Node>, prefix: Path, matches: Matcher, found: seq<Hit>, limit: int, scanned: nat, maxNodes: int)
    returns (found': seq<Hit>, subdirs: seq<Hit>, scanned': nat, truncated: bool)
    requires scanned <= maxNodes && |found| <= limit
    ensures |found'| <= limit && scanned <= scanned'
    ensures !truncated ==> found' == found + Hits(kids, prefix, matches) && subdirs == Dirs(kids, prefix)
                           && scanned' == scanned + |kids| && scanned' <= maxNodes
    ensures truncated ==> exists n: nat :: n < |kids| && found' == found + Hits(kids[..n], prefix, matches)
                                           && (scanned + n == maxNodes || (|found'| == limit && matches(NameOf(kids[n]))))
  {
    found', subdirs, scanned', truncated := found, [], scanned, false;
    for i := 0 to |kids|
      invariant found' == found + Hits(kids[..i], prefix, matches) && |found'| <= limit
      invariant subdirs == Dirs(kids[..i], prefix)
      invariant scanned' == scanned + i && scanned' <= maxNodes && !truncated
    {
      assert kids[..i + 1][..i] == kids[..i];
      scanned' := scanned' + 1;
      if scanned' > maxNodes {
        truncated := true;
        return;
      }
      var child := kids[i];
      var name := NameOf(child);
      var path := prefix + [name];
      if matches(name) {
        if |found'| >= limit {
          truncated := true;
          return;
        }
        found' := found' + [Hit(path, child)];
      }
      if child.DirNode? {
        subdirs := subdirs + [Hit(path, child)];
      }
    }
    assert kids[..|kids|] == kids;
  }

  // ------------------------------------------------------------------ the whole walk

  // A live node of the tree, under its path.
  ghost predicate Placed(db: Db, root: Id, h: Hit) {
    h.node.id in db && db[h.node.id] == h.node && PathTo(db, root, h.path, h.node.id)
  }

  // Between two directories: `done` have been scanned, `queue` are known and waiting, `found` are the hits.
  ghost predicate Walking(db: Db, root: Id, matches: Matcher, queue: seq<Hit>, done: set<Id>, found: seq<Hit>) {
    Waiting(db, root, queue, done) && Gathered(db, root, matches, done, found)
  }

  ghost predicate Waiting(db: Db, root: Id, queue: seq<Hit>, done: set<Id>) {
    QueuePlaced(db, root, queue) && QueueApart(db, root, queue, done) && ChildrenKnown(db, queue, done)
  }

  // Different directories, each where its path says.
  ghost predicate QueuePlaced(db: Db, root: Id, queue: seq<Hit>) {
    (forall i :: 0 <= i < |queue| ==> Placed(db, root, queue[i]) && queue[i].node.DirNode?) && DistinctHits(queue)
  }

  // Not scanned yet, but their parents have been.
  ghost predicate QueueApart(db: Db, root: Id, queue: seq<Hit>, done: set<Id>) {
    && (root in done || HasHit(queue, root))
    && (forall d :: d in done ==> !HasHit(queue, d) && ParentDone(db, root, done, d))
    && (forall d :: HasHit(queue, d) ==> ParentDone(db, root, done, d))
  }

  // Every live subdirectory of a scanned one has been scanned or waits.
  ghost predicate ChildrenKnown(db: Db, queue: seq<Hit>, done: set<Id>) {
    forall d, c :: d in done && IsChild(db, c, d) && db[c].trashedAt.None? && db[c].DirNode? ==> c in done || HasHit(queue, c)
  }

  ghost predicate Gathered(db: Db, root: Id, matches: Matcher, done: set<Id>, found: seq<Hit>) {
    && DistinctHits(found)
    && (forall d, c :: d in done && IsChild(db, c, d) && db[c].trashedAt.None? && matches(NameOf(db[c]))
                       ==> HasHit(found, c))
    && (forall i :: 0 <= i < |found| ==> FoundOk(db, root, matches, done, found[i]))
  }

  ghost predicate ParentDone(db: Db, root: Id, done: set<Id>, d: Id) {
    d == root || (d in db && db[d].parentId.Some? && db[d].parentId.value in done)
  }

  ghost predicate FoundOk(db: Db, root: Id, matches: Matcher, done: set<Id>, h: Hit) {
    && Placed(db, root, h) && h.path != [] && matches(NameOf(h.node))
    && h.node.parentId.Some? && h.node.parentId.value in done
  }

  lemma ChildPlaced(db: Db, root: Id, dir: Hit, c: Node)
    requires Named(db) && Placed(db, root, dir) && dir.node.DirNode? && LiveChild(db, c, dir.node.id)
    ensures Placed(db, root, Hit(dir.path + [NameOf(c)], c))
  {
    assert (dir.path + [NameOf(c)])[..|dir.path|] == dir.path;
  }

  /** Scanning the directory at the head of the queue keeps the walk on course. */
  lemma Scanned(db: Db, root: Id, matches: Matcher, queue: seq<Hit>, done: set<Id>, found: seq<Hit>, kids: seq<Node>)
    requires Keyed(db) && Rooted(db, root) && Named(db) && queue != []
    requires Walking(db, root, matches, queue, done, found) && LiveListing(db, queue[0].node.id, kids)
    ensures var dir := queue[0];
            Walking(db, root, matches, queue[1..] + Dirs(kids, dir.path), done + {dir.node.id},
                    found + Hits(kids, dir.path, matches))
  {
    hide Pick;
    PickMeans(db, kids, queue[0].path, (n: Node) => n.DirNode?);
    PickMeans(db, kids, queue[0].path, (n: Node) => matches(NameOf(n)));
    ScannedQueue(db, root, matches, queue, done, found, kids, Dirs(kids, queue[0].path));
    ScannedFound(db, root, matches, queue, done, found, kids, Hits(kids, queue[0].path, matches));
  }

  lemma ScannedQueue(db: Db, root: Id, matches: Matcher, queue: seq<Hit>, done: set<Id>, found: seq<Hit>,
                     kids: seq<Node>, dirs: seq<Hit>)
    requires Keyed(db) && Rooted(db, root) && Named(db) && queue != []
    requires Walking(db, root, matches, queue, done, found) && LiveListing(db, queue[0].node.id, kids)
    requires DistinctHits(dirs)
    requires forall i :: 0 <= i < |dirs| ==> HitFrom(dirs[i], kids, queue[0].path, (n: Node) => n.DirNode?)
    requires forall i :: 0 <= i < |kids| && kids[i].DirNode? ==> HasHit(dirs, kids[i].id)
    ensures Waiting(db, root, queue[1..] + dirs, done + {queue[0].node.id})
  {
    var d, rest := queue[0].node.id, queue[1..];
    var done', queue' := done + {d}, rest + dirs;
    NewOnes(db, root, matches, queue, done, found, kids, dirs, (n: Node) => n.DirNode?);
    HeadAndRest(queue);
    HasHitConcat(rest, dirs);
    DistinctConcat(rest, dirs);
    hide Gathered, Placed;
    assert QueuePlaced(db, root, queue') by {
      assert forall i :: 0 <= i < |rest| ==> rest[i] == queue[i + 1];
      forall i | 0 <= i < |dirs| ensures dirs[i].node.DirNode? {
        assert HitFrom(dirs[i], kids, queue[0].path, (n: Node) => n.DirNode?);
      }
      hide QueueApart, ChildrenKnown, HasHit, LiveListing;
    }
    ScannedApart(db, root, queue, done, dirs);
    assert ChildrenKnown(db, queue', done') by {
      forall c | IsChild(db, c, d) && db[c].trashedAt.None? && db[c].DirNode? ensures HasHit(queue', c) {
        assert Subtree.Listed(kids, c);
      }
      hide QueueApart, QueuePlaced;
    }
    hide QueuePlaced, QueueApart, ChildrenKnown;
  }

  lemma ScannedApart(db: Db, root: Id, queue: seq<Hit>, done: set<Id>, dirs: seq<Hit>)
    requires queue != [] && DistinctHits(queue) && QueueApart(db, root, queue, done)
    requires forall i :: 0 <= i < |dirs| ==> Placed(db, root, dirs[i]) && dirs[i].node.parentId == Some(queue[0].node.id)
                                             && dirs[i].node.id !in done && !HasHit(queue, dirs[i].node.id)
    ensures QueueApart(db, root, queue[1..] + dirs, done + {queue[0].node.id})
  {
    var d, rest := queue[0].node.id, queue[1..];
    HeadAndRest(queue);
    HasHitConcat(rest, dirs);
    hide Placed, DistinctHits;
    assert HasHit(queue, d);
    forall e | HasHit(dirs, e) ensures ParentDone(db, root, done + {d}, e) && e !in done + {d} {
      var i :| 0 <= i < |dirs| && dirs[i].node.id == e;
      assert Placed(db, root, dirs[i]);
      PlacedIsThere(db, root, dirs[i]);
    }
  }

  lemma PlacedIsThere(db: Db, root: Id, h: Hit)
    requires Placed(db, root, h)
    ensures h.node.id in db && db[h.node.id] == h.node
  {
  }

  lemma HeadAndRest(queue: seq<Hit>)
    requires queue != [] && DistinctHits(queue)
    ensures DistinctHits(queue[1..]) && !HasHit(queue[1..], queue[0].node.id)
    ensures forall id :: HasHit(queue, id) <==> id == queue[0].node.id || HasHit(queue[1..], id)
  {
    HasHitConcat([queue[0]], queue[1..]);
    assert [queue[0]] + queue[1..] == queue;
    assert [queue[0]][0].node.id == queue[0].node.id;
  }

  lemma DistinctConcat(a: seq<Hit>, b: seq<Hit>)
    requires DistinctHits(a) && DistinctHits(b) && forall i :: 0 <= i < |b| ==> !HasHit(a, b[i].node.id)
    ensures DistinctHits(a + b)
  {
    forall i, j | 0 <= i < j < |a + b| ensures (a + b)[i].node.id != (a + b)[j].node.id {
      if i < |a| <= j { assert HasHit(a, a[i].node.id); }
    }
  }

  lemma ScannedFound(db: Db, root: Id, matches: Matcher, queue: seq<Hit>, done: set<Id>, found: seq<Hit>,
                     kids: seq<Node>, hits: seq<Hit>)
    requires Keyed(db) && Rooted(db, root) && Named(db) && queue != []
    requires Walking(db, root, matches, queue, done, found) && LiveListing(db, queue[0].node.id, kids)
    requires DistinctHits(hits)
    requires forall i :: 0 <= i < |hits| ==> HitFrom(hits[i], kids, queue[0].path, (n: Node) => matches(NameOf(n)))
    requires forall i :: 0 <= i < |kids| && matches(NameOf(kids[i])) ==> HasHit(hits, kids[i].id)
    ensures Gathered(db, root, matches, done + {queue[0].node.id}, found + hits)
  {
    var d := queue[0].node.id;
    NewOnes(db, root, matches, queue, done, found, kids, hits, (n: Node) => matches(NameOf(n)));
    hide Waiting;
    HasHitConcat(found, hits);
    forall c | IsChild(db, c, d) && db[c].trashedAt.None? && matches(NameOf(db[c])) ensures HasHit(found + hits, c) {
      assert Subtree.Listed(kids, c);
    }
    forall i | 0 <= i < |hits| ensures FoundOk(db, root, matches, done + {d}, hits[i]) {
      assert HitFrom(hits[i], kids, queue[0].path, (n: Node) => matches(NameOf(n)));
    }
    forall i, j | 0 <= i < j < |found + hits| ensures (found + hits)[i].node.id != (found + hits)[j].node.id {
      if i < |found| <= j { assert HasHit(found, found[i].node.id); }
    }
  }

  // What a scan picks was not known before, is in its place, and has its parent behind it.
  lemma NewOnes(db: Db, root: Id, matches: Matcher, queue: seq<Hit>, done: set<Id>, found: seq<Hit>, kids: seq<Node>,
                picked: seq<Hit>, keep: Node -> bool)
    requires Keyed(db) && Rooted(db, root) && Named(db) && queue != []
    requires Walking(db, root, matches, queue, done, found) && LiveListing(db, queue[0].node.id, kids)
    requires forall i :: 0 <= i < |picked| ==> HitFrom(picked[i], kids, queue[0].path, keep)
    ensures forall i :: 0 <= i < |picked| ==> Placed(db, root, picked[i]) && picked[i].path != []
                                              && picked[i].node.parentId == Some(queue[0].node.id)
                                              && picked[i].node.id !in done && !HasHit(queue, picked[i].node.id)
                                              && !HasHit(found, picked[i].node.id) && picked[i].node.id != root
  {
    forall i | 0 <= i < |picked|
      ensures Placed(db, root, picked[i]) && picked[i].path != []
              && picked[i].node.parentId == Some(queue[0].node.id)
              && picked[i].node.id !in done && !HasHit(queue, picked[i].node.id)
              && !HasHit(found, picked[i].node.id) && picked[i].node.id != root
    {
      assert HitFrom(picked[i], kids, queue[0].path, keep);
      var k :| 0 <= k < |kids| && kids[k] == picked[i].node;
      ChildPlaced(db, root, queue[0], kids[k]);
      assert HasHit(queue, queue[0].node.id);
    }
  }

  // With nothing left in the queue every visible directory has been scanned.
  lemma {:induction false} AllScanned(db: Db, root: Id, matches: Matcher, done: set<Id>, found: seq<Hit>, path: Path, id: Id)
    requires Walking(db, root, matches, [], done, found) && PathTo(db, root, path, id) && IsDir(db, id)
    ensures id in done
  {
    if path != [] {
      AllScanned(db, root, matches, done, found, path[..|path| - 1], db[id].parentId.value);
      assert IsChild(db, id, db[id].parentId.value);
    }
  }

  // ------------------------------------------------------------------ how much there is to find

  // Something a path leads to, below the root.
  ghost predicate Visible(db: Db, root: Id, c: Id) { exists path: Path :: path != [] && PathTo(db, root, path, c) }

  ghost function VisibleIds(db: Db, root: Id): set<Id> { set c | c in db && Visible(db, root, c) }

  ghost function MatchIds(db: Db, root: Id, matches: Matcher): set<Id> {
    set c | c in db && Visible(db, root, c) && matches(NameOf(db[c]))
  }

  // The entries of the directories scanned so far.
  ghost function SeenIds(db: Db, done: set<Id>): set<Id> {
    set c | c in db && db[c].trashedAt.None? && db[c].parentId.Some? && db[c].parentId.value in done
  }

  function KidIds(kids: seq<Node>): set<Id> { set i | 0 <= i < |kids| :: kids[i].id }

  function HitIds(hits: seq<Hit>): set<Id> { set i | 0 <= i < |hits| :: hits[i].node.id }

  lemma {:induction false} KidIdCount(db: Db, kids: seq<Node>)
    requires Subtree.Distinct(db, kids)
    ensures |KidIds(kids)| == |kids|
  {
    if kids != [] {
      var n := |kids| - 1;
      KidIdCount(db, kids[..n]);
      assert KidIds(kids) == KidIds(kids[..n]) + {kids[n].id} by {
        assert forall i :: 0 <= i < n ==> kids[..n][i] == kids[i];
      }
      assert kids[n].id !in KidIds(kids[..n]);
    }
  }

  lemma {:induction false} HitIdCount(hits: seq<Hit>)
    requires DistinctHits(hits)
    ensures |HitIds(hits)| == |hits|
  {
    if hits != [] {
      var n := |hits| - 1;
      HitIdCount(hits[..n]);
      assert HitIds(hits) == HitIds(hits[..n]) + {hits[n].node.id} by {
        assert forall i :: 0 <= i < n ==> hits[..n][i] == hits[i];
      }
      assert hits[n].node.id !in HitIds(hits[..n]);
    }
  }

  lemma Fewer<T>(a: set<T>, b: set<T>)
    requires a <= b
    ensures |a| <= |b|
  {
    if a != b {
      assert b == a + (b - a);
    }
  }

  // What has been scanned is a directory some path leads to.
  ghost predicate DonePlaced(db: Db, root: Id, done: set<Id>) {
    forall d :: d in done ==> IsDir(db, d) && exists path :: PathTo(db, root, path, d)
  }

  lemma SeenVisible(db: Db, root: Id, done: set<Id>)
    requires Keyed(db) && Named(db) && DonePlaced(db, root, done)
    ensures SeenIds(db, done) <= VisibleIds(db, root)
  {
    forall c | c in SeenIds(db, done) ensures Visible(db, root, c) {
      var d := db[c].parentId.value;
      var path :| PathTo(db, root, path, d);
      ChildPlaced(db, root, Hit(path, db[d]), db[c]);
    }
  }

  lemma SeenMore(db: Db, done: set<Id>, d: Id, kids: seq<Node>)
    requires Keyed(db) && LiveListing(db, d, kids) && d !in done
    ensures SeenIds(db, done + {d}) == SeenIds(db, done) + KidIds(kids) && SeenIds(db, done) !! KidIds(kids)
    ensures |SeenIds(db, done + {d})| == |SeenIds(db, done)| + |kids|
  {
    KidIdCount(db, kids);
    forall c | c in SeenIds(db, done + {d}) ensures c in SeenIds(db, done) || c in KidIds(kids) {
      if db[c].parentId == Some(d) { assert IsChild(db, c, d) && Subtree.Listed(kids, c); }
    }
  }

  // With every ceiling respected there is no more to see than has been scanned, and no more to find than was found.
  lemma NoMore(db: Db, root: Id, matches: Matcher, done: set<Id>, found: seq<Hit>)
    requires Keyed(db) && Rooted(db, root) && Walking(db, root, matches, [], done, found)
    ensures VisibleIds(db, root) <= SeenIds(db, done) && MatchIds(db, root, matches) <= HitIds(found)
  {
    forall c | c in VisibleIds(db, root) ensures c in SeenIds(db, done) {
      var path: Path :| path != [] && PathTo(db, root, path, c);
      AllScanned(db, root, matches, done, found, path[..|path| - 1], db[c].parentId.value);
    }
    forall c | c in MatchIds(db, root, matches) ensures c in HitIds(found) {
      var path: Path :| path != [] && PathTo(db, root, path, c);
      Complete(db, root, matches, done, found, path, c);
      var i :| 0 <= i < |found| && found[i] == Hit(path, db[c]);
    }
  }

  // Of some `n` visible entries, everything that matches is among the results.
  ghost predicate CoversSome(db: Db, root: Id, matches: Matcher, hits: seq<Hit>, n: nat) {
    exists seen: set<Id> :: seen <= VisibleIds(db, root) && |seen| == n
                            && forall c :: c in seen && c in db && matches(NameOf(db[c])) ==> HasHit(hits, c)
  }

  // Where the scan of a directory stopped: the entries up to there, and the one it stopped at.
  lemma KidsSoFar(db: Db, root: Id, dir: Hit, done: set<Id>, kids: seq<Node>, n: nat)
    requires Keyed(db) && Named(db) && LiveListing(db, dir.node.id, kids) && dir.node.id !in done && n < |kids|
    requires Placed(db, root, dir) && dir.node.DirNode? && DonePlaced(db, root, done)
    ensures var seen := SeenIds(db, done) + KidIds(kids[..n]);
            && seen <= VisibleIds(db, root) && |seen| == |SeenIds(db, done)| + n
            && kids[n].id !in seen && kids[n].id in VisibleIds(db, root)
  {
    KidIdCount(db, kids[..n]);
    SeenVisible(db, root, done);
    forall i | 0 <= i < |kids| ensures kids[i].id in VisibleIds(db, root) && kids[i].id !in SeenIds(db, done) {
      ChildPlaced(db, root, dir, kids[i]);
    }
  }

  // Stopped by the number of entries: there is one more, and what was found is all there is among those before it.
  lemma StoppedByNodes(db: Db, root: Id, matches: Matcher, queue: seq<Hit>, done: set<Id>, found: seq<Hit>, kids: seq<Node>, n: nat,
                       found': seq<Hit>)
    requires Keyed(db) && Rooted(db, root) && Named(db) && queue != [] && n < |kids| && DonePlaced(db, root, done)
    requires Walking(db, root, matches, queue, done, found) && LiveListing(db, queue[0].node.id, kids)
    requires found' == found + Hits(kids[..n], queue[0].path, matches)
    ensures |VisibleIds(db, root)| > |SeenIds(db, done)| + n
    ensures CoversSome(db, root, matches, found', |SeenIds(db, done)| + n)
  {
    var dir := queue[0];
    var seen := SeenIds(db, done) + KidIds(kids[..n]);
    HeadSays(db, root, matches, queue, done, found);
    KidsSoFar(db, root, dir, done, kids, n);
    SeenFound(db, root, matches, queue, done, found, kids, n);
    hide *;
    OneMoreVisible(db, root, matches, seen, kids[n].id, found');
  }

  lemma OneMoreVisible(db: Db, root: Id, matches: Matcher, seen: set<Id>, one: Id, hits: seq<Hit>)
    requires seen <= VisibleIds(db, root) && one in VisibleIds(db, root) && one !in seen
    requires forall c :: c in seen && c in db && matches(NameOf(db[c])) ==> HasHit(hits, c)
    ensures |VisibleIds(db, root)| > |seen| && CoversSome(db, root, matches, hits, |seen|)
  {
    hide VisibleIds, HasHit;
    Fewer(seen + {one}, VisibleIds(db, root));
  }

  // Of what has been scanned, whatever matches has been found.
  lemma SeenFound(db: Db, root: Id, matches: Matcher, queue: seq<Hit>, done: set<Id>, found: seq<Hit>, kids: seq<Node>, n: nat)
    requires Keyed(db) && queue != [] && n <= |kids|
    requires Walking(db, root, matches, queue, done, found) && LiveListing(db, queue[0].node.id, kids)
    ensures forall c :: c in SeenIds(db, done) + KidIds(kids[..n]) && c in db && matches(NameOf(db[c])) ==>
              HasHit(found + Hits(kids[..n], queue[0].path, matches), c)
  {
    var hits := Hits(kids[..n], queue[0].path, matches);
    PickMeans(db, kids[..n], queue[0].path, (n: Node) => matches(NameOf(n)));
    HasHitConcat(found, hits);
    hide Waiting, HasHit, Pick, DistinctHits;
    forall c | c in SeenIds(db, done) && matches(NameOf(db[c])) ensures HasHit(found, c) {
      assert IsChild(db, c, db[c].parentId.value);
    }
    forall c | c in KidIds(kids[..n]) && c in db && matches(NameOf(db[c])) ensures HasHit(hits, c) {
      var i :| 0 <= i < n && kids[..n][i].id == c;
      assert kids[..n][i] == kids[i];
    }
  }

  // Stopped by the number of results: there is one more.
  lemma StoppedByLimit(db: Db, root: Id, matches: Matcher, queue: seq<Hit>, done: set<Id>, found: seq<Hit>, kids: seq<Node>, n: nat,
                       found': seq<Hit>)
    requires Keyed(db) && Rooted(db, root) && Named(db) && queue != [] && n < |kids| && DonePlaced(db, root, done)
    requires Walking(db, root, matches, queue, done, found) && LiveListing(db, queue[0].node.id, kids)
    requires found' == found + Hits(kids[..n], queue[0].path, matches) && DistinctHits(found')
    requires forall i :: 0 <= i < |found'| ==> Placed(db, root, found'[i]) && found'[i].path != [] && matches(NameOf(found'[i].node))
    requires matches(NameOf(kids[n]))
    ensures |MatchIds(db, root, matches)| > |found'|
  {
    var dir := queue[0];
    HeadSays(db, root, matches, queue, done, found);
    KidsSoFar(db, root, dir, done, kids, n);
    NotYetHit(db, root, matches, queue, done, found, kids, n, found');
    HitIdCount(found');
    KidThere(db, dir.node.id, kids, n);
    hide Walking, DonePlaced, Pick, DistinctHits, SeenIds, KidIds, LiveListing;
    forall c | c in HitIds(found') ensures c in MatchIds(db, root, matches) {
      var i :| 0 <= i < |found'| && found'[i].node.id == c;
      assert Placed(db, root, found'[i]);
    }
    Fewer(HitIds(found') + {kids[n].id}, MatchIds(db, root, matches));
  }

  lemma KidThere(db: Db, d: Id, kids: seq<Node>, n: nat)
    requires LiveListing(db, d, kids) && n < |kids|
    ensures kids[n].id in db && db[kids[n].id] == kids[n]
  {
  }

  lemma NotYetHit(db: Db, root: Id, matches: Matcher, queue: seq<Hit>, done: set<Id>, found: seq<Hit>, kids: seq<Node>, n: nat,
                  found': seq<Hit>)
    requires Keyed(db) && Rooted(db, root) && Named(db) && queue != [] && n < |kids|
    requires Walking(db, root, matches, queue, done, found) && LiveListing(db, queue[0].node.id, kids)
    requires found' == found + Hits(kids[..n], queue[0].path, matches)
    ensures kids[n].id !in HitIds(found')
  {
    var hits := Hits(kids[..n], queue[0].path, matches);
    assert HasHit(queue, queue[0].node.id);
    PickMeans(db, kids[..n], queue[0].path, (n: Node) => matches(NameOf(n)));
    forall i | 0 <= i < |hits| ensures hits[i].node.id != kids[n].id {
      assert HitFrom(hits[i], kids[..n], queue[0].path, (n: Node) => matches(NameOf(n)));
      var k :| 0 <= k < n && kids[..n][k] == hits[i].node;
    }
    forall i | 0 <= i < |found| ensures found[i].node.id != kids[n].id {
      assert FoundOk(db, root, matches, done, found[i]);
    }
  }

  // ------------------------------------------------------------------ breadth first

  // Never a deeper one before a shallower.
  predicate ByDepth(hits: seq<Hit>) { forall i, j :: 0 <= i < j < |hits| ==> |hits[i].path| <= |hits[j].path| }

  predicate Within(hits: seq<Hit>, low: int, high: int) { forall i :: 0 <= i < |hits| ==> low <= |hits[i].path| <= high }

  predicate Levels(queue: seq<Hit>, found: seq<Hit>) {
    && ByDepth(queue) && ByDepth(found)
    && (queue != [] ==> Within(queue, |queue[0].path|, |queue[0].path| + 1) && Within(found, 0, |queue[0].path| + 1))
  }

  lemma {:induction false} PickDepth(kids: seq<Node>, prefix: Path, keep: Node -> bool)
    ensures Within(Pick(kids, prefix, keep), |prefix| + 1, |prefix| + 1)
  {
    if kids != [] { PickDepth(kids[..|kids| - 1], prefix, keep); }
  }

  lemma LevelsKept(queue: seq<Hit>, found: seq<Hit>, hits: seq<Hit>, dirs: seq<Hit>)
    requires queue != [] && Levels(queue, found)
    requires Within(hits, |queue[0].path| + 1, |queue[0].path| + 1) && Within(dirs, |queue[0].path| + 1, |queue[0].path| + 1)
    ensures Levels(queue[1..] + dirs, found + hits)
  {
  }

  /**
   `search`. Whatever it returns is there, under that path, the shallower first; it says `truncated` exactly if
   there are more visible entries, or more matches, than it was allowed; and unless it does, whatever is there
   has been returned. Cut short, it returns as many matches as it may, or all among as many entries as it may.
   */
  method SearchTree(db: Db, root: Id, matches: Matcher, limit: nat, maxNodes: nat)
    returns (r: Outcome<(seq<Hit>, bool), Error>)
    requires Keyed(db) && Rooted(db, root) && Named(db)
    ensures Covered(db) && Signed(db) ==> r.Ok?
    ensures r.Ok? ==> |r.value.0| <= limit && DistinctHits(r.value.0) && ByDepth(r.value.0)
    ensures r.Ok? ==> forall i :: 0 <= i < |r.value.0| ==> Placed(db, root, r.value.0[i]) && r.value.0[i].path != []
                                                            && matches(NameOf(r.value.0[i].node))
    ensures r.Ok? && !r.value.1
            ==> forall path, id :: path != [] && PathTo(db, root, path, id) && matches(NameOf(db[id])) ==>
                  Hit(path, db[id]) in r.value.0
    ensures r.Ok? ==> (r.value.1 <==> |VisibleIds(db, root)| > maxNodes || |MatchIds(db, root, matches)| > limit)
    ensures r.Ok? && r.value.1 ==> |r.value.0| == limit || CoversSome(db, root, matches, r.value.0, maxNodes)
  {
    var found: seq<Hit> := [];
    var scanned: nat := 0;
    var queue := [Hit([], db[root])];
    ghost var done: set<Id> := {};
    assert queue[0].node.id == root;
    while queue != []
      invariant Walking(db, root, matches, queue, done, found) && DonePlaced(db, root, done) && Levels(queue, found)
      invariant |found| <= limit && scanned == |SeenIds(db, done)| <= maxNodes
      decreases maxNodes - scanned, |queue|
    {
      hide Walking, DonePlaced, LiveListing, Levels, SeenIds, CoversSome, VisibleIds, MatchIds;
      var dir := queue[0];
      HeadSays(db, root, matches, queue, done, found);
      var listing := EntriesOf(db, dir.node);
      if listing.Raised? {
        return Raised(listing.error);
      }
      var kids := listing.value;
      var found', subdirs, scanned', truncated := ScanDir(kids, dir.path, matches, found, limit, scanned, maxNodes);
      if truncated {
        ghost var n: nat :| n < |kids| && found' == found + Hits(kids[..n], dir.path, matches)
                            && (scanned + n == maxNodes || (|found'| == limit && matches(NameOf(kids[n]))));
        StoppedShort(db, root, matches, queue, done, found, kids, n, found');
        return Ok((found', true));
      }
      OneMoreDir(db, root, matches, queue, done, found, kids);
      done := done + {dir.node.id};
      if scanned' == scanned { assert subdirs == []; }
      found, scanned, queue := found', scanned', queue[1..] + subdirs;
    }
    Finished(db, root, matches, done, found);
    r := Ok((found, false));
  }

  lemma HeadSays(db: Db, root: Id, matches: Matcher, queue: seq<Hit>, done: set<Id>, found: seq<Hit>)
    requires Walking(db, root, matches, queue, done, found) && queue != []
    ensures var dir := queue[0]; Placed(db, root, dir) && dir.node.DirNode? && dir.node.id in db && db[dir.node.id] == dir.node
    ensures queue[0].node.id !in done
  {
    assert HasHit(queue, queue[0].node.id);
  }

  lemma OneMoreDir(db: Db, root: Id, matches: Matcher, queue: seq<Hit>, done: set<Id>, found: seq<Hit>, kids: seq<Node>)
    requires Keyed(db) && Rooted(db, root) && Named(db) && queue != []
    requires Walking(db, root, matches, queue, done, found) && LiveListing(db, queue[0].node.id, kids)
    requires DonePlaced(db, root, done) && Levels(queue, found)
    ensures var dir := queue[0]; var queue', done', found' := queue[1..] + Dirs(kids, dir.path), done + {dir.node.id}, found + Hits(kids, dir.path, matches);
            && Walking(db, root, matches, queue', done', found') && DonePlaced(db, root, done') && Levels(queue', found')
            && |SeenIds(db, done')| == |SeenIds(db, done)| + |kids|
  {
    var dir := queue[0];
    HeadSays(db, root, matches, queue, done, found);
    hide Waiting, Gathered, LiveListing, Levels, Pick, SeenIds;
    SeenMore(db, done, dir.node.id, kids);
    OneMorePlaced(db, root, done, dir);
    hide DonePlaced, Placed;
    PickDepth(kids, dir.path, (n: Node) => n.DirNode?);
    PickDepth(kids, dir.path, (n: Node) => matches(NameOf(n)));
    LevelsKept(queue, found, Hits(kids, dir.path, matches), Dirs(kids, dir.path));
    hide Within;
    Scanned(db, root, matches, queue, done, found, kids);
  }

  lemma OneMorePlaced(db: Db, root: Id, done: set<Id>, dir: Hit)
    requires DonePlaced(db, root, done) && Placed(db, root, dir) && dir.node.DirNode?
    ensures DonePlaced(db, root, done + {dir.node.id})
  {
  }

  lemma StoppedShort(db: Db, root: Id, matches: Matcher, queue: seq<Hit>, done: set<Id>, found: seq<Hit>, kids: seq<Node>, n: nat,
                     found': seq<Hit>)
    requires Keyed(db) && Rooted(db, root) && Named(db) && queue != [] && n < |kids| && DonePlaced(db, root, done)
    requires Walking(db, root, matches, queue, done, found) && LiveListing(db, queue[0].node.id, kids) && Levels(queue, found)
    requires found' == found + Hits(kids[..n], queue[0].path, matches)
    ensures DistinctHits(found') && ByDepth(found')
    ensures forall i :: 0 <= i < |found'| ==> Placed(db, root, found'[i]) && found'[i].path != [] && matches(NameOf(found'[i].node))
    ensures |VisibleIds(db, root)| > |SeenIds(db, done)| + n && CoversSome(db, root, matches, found', |SeenIds(db, done)| + n)
    ensures matches(NameOf(kids[n])) ==> |MatchIds(db, root, matches)| > |found'|
  {
    PickDepth(kids[..n], queue[0].path, (n: Node) => matches(NameOf(n)));
    PickDepth([], queue[0].path, (n: Node) => n.DirNode?);
    LevelsKept(queue, found, Hits(kids[..n], queue[0].path, matches), []);
    hide Walking, LiveListing, DonePlaced, Pick;
    CutShort(db, root, matches, queue, done, found, kids, found');
    StoppedByNodes(db, root, matches, queue, done, found, kids, n, found');
    if matches(NameOf(kids[n])) { StoppedByLimit(db, root, matches, queue, done, found, kids, n, found'); }
  }

  lemma Finished(db: Db, root: Id, matches: Matcher, done: set<Id>, found: seq<Hit>)
    requires Keyed(db) && Rooted(db, root) && Walking(db, root, matches, [], done, found) && Levels([], found)
    ensures |VisibleIds(db, root)| <= |SeenIds(db, done)| && |MatchIds(db, root, matches)| <= |found|
    ensures forall path, id :: path != [] && PathTo(db, root, path, id) && matches(NameOf(db[id])) ==> Hit(path, db[id]) in found
    ensures DistinctHits(found) && ByDepth(found)
    ensures forall i :: 0 <= i < |found| ==> Placed(db, root, found[i]) && found[i].path != [] && matches(NameOf(found[i].node))
  {
    HitIdCount(found);
    NoMore(db, root, matches, done, found);
    Fewer(VisibleIds(db, root), SeenIds(db, done));
    Fewer(MatchIds(db, root, matches), HitIds(found));
    forall path, id | path != [] && PathTo(db, root, path, id) && matches(NameOf(db[id])) ensures Hit(path, db[id]) in found {
      Complete(db, root, matches, done, found, path, id);
    }
  }

  lemma Complete(db: Db, root: Id, matches: Matcher, done: set<Id>, found: seq<Hit>, path: Path, id: Id)
    requires Keyed(db) && Rooted(db, root) && Walking(db, root, matches, [], done, found)
    requires path != [] && PathTo(db, root, path, id) && matches(NameOf(db[id]))
    ensures Hit(path, db[id]) in found
  {
    var up := db[id].parentId.value;
    AllScanned(db, root, matches, done, found, path[..|path| - 1], up);
    assert IsChild(db, id, up);
    var i :| 0 <= i < |found| && found[i].node.id == id;
    PathIsNames(db, root, path, id);
    PathIsNames(db, root, found[i].path, id);
    ReachesOnce(db, root, id, |path|, |found[i].path|);
  }

  // Stopping inside a directory returns part of what scanning it would have.
  lemma CutShort(db: Db, root: Id, matches: Matcher, queue: seq<Hit>, done: set<Id>, found: seq<Hit>, kids: seq<Node>,
                 found': seq<Hit>)
    requires Keyed(db) && Rooted(db, root) && Named(db) && queue != []
    requires Walking(db, root, matches, queue, done, found) && LiveListing(db, queue[0].node.id, kids)
    requires exists n: nat :: n <= |kids| && found' == found + Hits(kids[..n], queue[0].path, matches)
    ensures DistinctHits(found')
    ensures forall i :: 0 <= i < |found'| ==> Placed(db, root, found'[i]) && found'[i].path != []
                                              && matches(NameOf(found'[i].node))
  {
    var n: nat :| n <= |kids| && found' == found + Hits(kids[..n], queue[0].path, matches);
    var hits := Hits(kids[..n], queue[0].path, matches);
    PickMeans(db, kids[..n], queue[0].path, (n: Node) => matches(NameOf(n)));
    forall i | 0 <= i < |hits|
      ensures HitFrom(hits[i], kids, queue[0].path, (n: Node) => matches(NameOf(n)))
    {
      assert HitFrom(hits[i], kids[..n], queue[0].path, (n: Node) => matches(NameOf(n)));
    }
    NewOnes(db, root, matches, queue, done, found, kids, hits, (n: Node) => matches(NameOf(n)));
    forall i, j | 0 <= i < j < |found'| ensures found'[i].node.id != found'[j].node.id {
      if i < |found| <= j {
        assert !HasHit(found, hits[j - |found|].node.id);
      }
    }
  }
}
