/**
 What the tree operations of src/vfs.py decide, and what the database is like after each of them: the pure
 side of module `Vfs`.
 */
module VfsFacts {
  import opened Wrappers
  import opened Bytes
  import opened Tags
  import opened Tree
  import opened Paths
  import opened DirectoryTags
  import opened Structure
  import opened Operations
  import opened FileContent
  import opened Attachments
  import Subtree
  import TrashView

  datatype VfsError = NotFound | AlreadyExists | NotADirectory | IsADirectory | NotEmpty | Unsupported | Integrity
                    | Interrupted

  datatype State = State(nodes: Db, versions: map<Id, Tag>)

  // What a handle compares itself with is what is stored.
  ghost predicate VersionsAgree(s: State) {
    forall id :: id in s.versions && id in s.nodes && s.nodes[id].FileNode? ==> s.versions[id] == s.nodes[id].mac
  }

  // Signed and well shaped, every directory verifying, the version cache right.
  ghost predicate Steady(s: State, root: Id) { Shape(s.nodes, root) && Covered(s.nodes) && VersionsAgree(s) }

  // The cache after a write: only files are in it.
  function Noted(versions: map<Id, Tag>, n: Node): map<Id, Tag> { if n.FileNode? then versions[n.id := n.mac] else versions }

  // The states of staging, writing `n` and promoting.
  function EnterLog(db: Db, versions: map<Id, Tag>, versions': map<Id, Tag>, d: Id, n: Node): seq<State>
    requires IsDir(db, d)
  {
    var db1 := Staged(db, d, EnterTag(db, d, n));
    [State(db1, versions), State(db1[n.id := n], versions'), State(Settled(db[n.id := n], d), versions')]
  }

  ghost predicate Resolves(db: Db, root: Id, path: Path) { exists id :: PathTo(db, root, path, id) }

  ghost predicate ResolvesToDir(db: Db, root: Id, path: Path) { exists id :: PathTo(db, root, path, id) && IsDir(db, id) }

  // The directory a path names, if any, has no half-finished change behind it.
  ghost predicate ReadyAt(db: Db, root: Id, path: Path) {
    forall d :: PathTo(db, root, path, d) && IsDir(db, d) ==> Promoted(db, d)
  }

  // `split_path`, the part before the name.
  function ParentPath(path: Path): Path { if path == [] then [] else path[..|path| - 1] }

  // ------------------------------------------------------------------ free names

  function Decimal(n: nat): ByteString {
    (if n < 10 then [] else Decimal(n / 10)) + [48 + n % 10]
  }

  // `rpartition(".")`: what is before the last dot, the dot, what is after it.
  function LastDot(name: Name): (r: Option<nat>)
    ensures r.Some? ==> r.value < |name| && name[r.value] == 46 && forall i :: r.value < i < |name| ==> name[i] != 46
    ensures r.None? ==> forall i :: 0 <= i < |name| ==> name[i] != 46
  {
    if name == [] then None
    else if name[|name| - 1] == 46 then Some(|name| - 1)
    else LastDot(name[..|name| - 1])
  }

  // `stem (k).ext`.
  function Candidate(name: Name, k: nat): (r: Name)
    ensures |r| > |name|
  {
    var dot := LastDot(name);
    var stem := if dot.Some? then name[..dot.value] else name;
    var rest := if dot.Some? then name[dot.value..] else [];
    stem + [32, 40] + Decimal(k) + [41] + rest
  }

  // What a run of digits says.
  function DecimalValue(digits: ByteString): int {
    if digits == [] then 0 else 10 * DecimalValue(digits[..|digits| - 1]) + digits[|digits| - 1] - 48
  }

  lemma {:induction false} DecimalReads(n: nat)
    ensures Decimal(n) != [] && DecimalValue(Decimal(n)) == n && forall i :: 0 <= i < |Decimal(n)| ==> 48 <= Decimal(n)[i] < 58
  {
    var init, last := (if n < 10 then [] else Decimal(n / 10)), 48 + n % 10;
    if n >= 10 { DecimalReads(n / 10); }
    assert (init + [last])[..|init|] == init;
  }

  // Where a name's extension begins: at its last dot, if it has one.
  predicate Splits(name: Name, stem: Name, ext: Name) {
    && name == stem + ext
    && (if ext == [] then 46 !in stem else ext[0] == 46 && 46 !in ext[1..])
  }

  lemma LastDotSplits(name: Name, stem: Name, ext: Name)
    requires Splits(name, stem, ext)
    ensures LastDot(name) == if ext == [] then None else Some(|stem|)
  {
    var dot := LastDot(name);
    if ext == [] {
      assert name == stem;
    } else {
      assert name[|stem|] == 46;
      forall i | |stem| < i < |name| ensures name[i] != 46 {
        assert name[i] == ext[1..][i - |stem| - 1];
      }
    }
  }

  /** Stem and extension survive, and in between stands the number asked for. */
  lemma CandidateKeeps(name: Name, stem: Name, ext: Name, k: nat)
    requires Splits(name, stem, ext)
    ensures Candidate(name, k) == stem + [32, 40] + Decimal(k) + [41] + ext && DecimalValue(Decimal(k)) == k
  {
    LastDotSplits(name, stem, ext);
    DecimalReads(k);
    assert name[..|stem|] == stem && name[|stem|..] == ext;
    assert stem + [] == stem;
  }

  /** Different numbers give different names. */
  lemma CandidatesDiffer(name: Name, j: nat, k: nat)
    requires j != k
    ensures Candidate(name, j) != Candidate(name, k)
  {
    var dot := LastDot(name);
    var stem := if dot.Some? then name[..dot.value] else name;
    var rest := if dot.Some? then name[dot.value..] else [];
    DecimalReads(j);
    DecimalReads(k);
    hide Decimal, DecimalValue, LastDot;
    assert Candidate(name, k) == stem + [32, 40] + Decimal(k) + [41] + rest;
    if Candidate(name, j) == Candidate(name, k) { SameMiddle(stem + [32, 40], Decimal(j), Decimal(k), [41], rest); }
  }

  lemma SameMiddle(before: Name, a: Name, b: Name, mark: Name, after: Name)
    requires before + a + mark + after == before + b + mark + after
    ensures a == b
  {
    var x, y := before + a + mark + after, before + b + mark + after;
    assert |a| == |b|;
    assert x[|before|..|before| + |a|] == a && y[|before|..|before| + |b|] == b;
  }

  ghost predicate Taken(db: Db, parent: Id, name: Name) { NameTaken(db, parent, name) != {} }

  // The first suffix from 2 to 999 nobody uses.
  ghost predicate IsFreeName(db: Db, parent: Id, name: Name, r: Option<Name>) {
    if r.None? then forall k :: 2 <= k < 1000 ==> Taken(db, parent, Candidate(name, k))
    else exists k: nat :: 2 <= k < 1000 && r.value == Candidate(name, k) && !Taken(db, parent, r.value)
                          && forall j :: 2 <= j < k ==> Taken(db, parent, Candidate(name, j))
  }

  method FreeName(db: Db, parent: Id, name: Name) returns (r: Option<Name>)
    requires Keyed(db)
    ensures IsFreeName(db, parent, name, r)
  {
    r := None;
    var k := 2;
    while k < 1000 && r.None?
      invariant 2 <= k <= 1000
      invariant r.None? ==> forall j :: 2 <= j < k ==> Taken(db, parent, Candidate(name, j))
      invariant r.Some? ==> IsFreeName(db, parent, name, r)
      decreases 1000 - k, r.None?
    {
      var clash := FindLive(db, parent, Candidate(name, k));
      if clash.None? {
        assert NameTaken(db, parent, Candidate(name, k)) == {};
        r := Some(Candidate(name, k));
      } else {
        assert clash.value.id in NameTaken(db, parent, Candidate(name, k));
        k := k + 1;
      }
    }
  }

  datatype Purged = Purged(nodes: nat, attachments: nat, cancelled: bool)

  datatype Policy = Fail | Skip | Replace | KeepBoth

  datatype Restored = Restored(restored: bool, conflict: bool, path: Option<Path>)

  function WithTrash(n: Node, trashed: Option<nat>): Node { Resigned(n.(trashedAt := trashed)) }

  // `n` is new at `path`, its directory's listing is signed, and everything else is where it was.
  ghost predicate Added(db: Db, db': Db, root: Id, path: Path, n: Node)
    requires path != []
  {
    && n.parentId.Some? && n.filename == Some(path[|path| - 1]) && n.trashedAt.None?
    && PathTo(db, root, path[..|path| - 1], n.parentId.value)
    && db' == Settled(db[n.id := n], n.parentId.value)
    && PathTo(db', root, path, n.id) && KeepsPlaces(db, db', n.id) && KeepsHanging(db, db', root)
    && (n.FileNode? ==> n.chunks == [] && n.size == 0)
  }

  // What a collected subtree is to its directory and to the tree.
  lemma SubtreePrunes(db: Db, root: Id, p: Id, out: seq<Node>)
    requires Shape(db, root) && Hangs(db, root, p) && IsDir(db, p) && Promoted(db, p)
    requires out != [] && IsChild(db, out[0].id, p) && out[0].id != root
    requires Subtree.Distinct(db, out) && Subtree.ParentsFirst(out)
    requires forall id :: Subtree.Listed(out, id) <==> Subtree.Descends(db, out[0].id, id)
    ensures Prunes(db, root, p, out) && root !in Ids(out)
  {
    var n: nat :| Reaches(db, root, p, n);
    NotBelowOwnChild(db, root, p, out[0].id, n);
    if p in Ids(out) { assert Subtree.Listed(out, p); }
    if root in Ids(out) {
      assert Subtree.Listed(out, root);
    }
  }

  lemma HangingIsDir(db: Db, root: Id, p: Id, c: Id)
    requires Shape(db, root) && Hangs(db, root, p) && c in db && db[c].parentId == Some(p)
    ensures IsDir(db, p)
  {
    var n: nat :| Reaches(db, root, p, n);
    if n > 0 { assert p in db; }
  }

  lemma CountGone(db: Db, out: seq<Node>)
    requires Subtree.Distinct(db, out)
    ensures |Ids(out)| == |out| && |(db - Ids(out)).Keys| == |db.Keys| - |out|
  {
    DistinctIdCount(out, |out|);
    assert out[..|out|] == out;
    assert Ids(out) <= db.Keys;
    assert (db - Ids(out)).Keys == db.Keys - Ids(out);
  }

  lemma {:induction false} DistinctIdCount(out: seq<Node>, n: nat)
    requires n <= |out| && forall i, j :: 0 <= i < j < |out| ==> out[i].id != out[j].id
    ensures |Ids(out[..n])| == n
  {
    if n > 0 {
      DistinctIdCount(out, n - 1);
      OneMore(out, n - 1);
    }
  }

  lemma OneMore(out: seq<Node>, i: nat)
    requires i < |out|
    ensures Ids(out[..i + 1]) == Ids(out[..i]) + {out[i].id}
  {
    var a, b := out[..i], out[..i + 1];
    forall x | x in Ids(a) ensures x in Ids(b) {
      var j :| 0 <= j < i && a[j].id == x;
      assert b[j].id == x;
    }
    assert b[i].id == out[i].id;
  }

  ghost predicate Pruning(db: Db, root: Id, p: Id, out: seq<Node>) {
    && Shape(db, root) && Covered(db) && out != [] && IsChild(db, out[0].id, p) && p !in Ids(out) && root !in Ids(out)
    && Subtree.Distinct(db, out) && Subtree.ParentsFirst(out)
    && IsDir(db, p) && Promoted(db, p) && db[p].pending == Some(LeaveTag(db, p, out[0].id))
  }

  lemma PruneBegins(db: Db, root: Id, p: Id, out: seq<Node>)
    requires Shape(db, root) && Covered(db) && Prunes(db, root, p, out) && root !in Ids(out)
    ensures var tag := LeaveTag(db, p, out[0].id);
            Pruning(Staged(db, p, tag), root, p, out) && LeaveTag(Staged(db, p, tag), p, out[0].id) == tag
  {
    assert out[0].id in Ids(out);
    StagingReady(db, root, p, out[0].id);
    StillThere(db, p, out);
  }

  // ------------------------------------------------------------------ renaming

  ghost predicate HasLiveChild(db: Db, d: Id) { exists c :: IsChild(db, c, d) && db[c].trashedAt.None? }

  // Something live hangs from what the path names.
  ghost predicate LiveBelow(db: Db, root: Id, path: Path) { exists e :: PathTo(db, root, path, e) && HasLiveChild(db, e) }

  lemma EmptyOccupant(db: Db, root: Id, to: Path, occupant: Option<Id>)
    requires Shape(db, root)
    requires if occupant.Some? then PathTo(db, root, to, occupant.value) && !HasLiveChild(db, occupant.value) else !Resolves(db, root, to)
    ensures forall e :: PathTo(db, root, to, e) ==> !HasLiveChild(db, e)
  {
    forall e | PathTo(db, root, to, e) ensures !HasLiveChild(db, e) {
      if occupant.Some? { PathToOnce(db, root, to, e, occupant.value); }
    }
  }

  // The target's place, emptied: its occupant in the trash and then destroyed, with all below it.
  ghost function Cleared(db: Db, d: Id, occupant: Id, now: nat): Db
    requires occupant in db
  {
    Settled(Without(db[occupant := WithTrash(db[occupant], Some(now))], occupant), d)
  }

  // `id` moved to `to`, whatever lived there destroyed, both directories' listings signed.
  ghost predicate RenameEffect(db: Db, db': Db, root: Id, id: Id, to: Path, now: nat)
    requires id in db && db[id].parentId.Some? && to != []
  {
    exists d :: IsDir(db, d) && PathTo(db, root, ParentPath(to), d)
                && RenameEffectAt(db, db', root, id, d, to, now)
  }

  ghost predicate RenameEffectAt(db: Db, db': Db, root: Id, id: Id, d: Id, to: Path, now: nat)
    requires id in db && db[id].parentId.Some? && to != []
  {
    && (forall e :: PathTo(db, root, to, e) && e in db ==>
          db' == MovedTo(Cleared(db, d, e, now), db[id].parentId.value, d, Renamed(db[id], d, to[|to| - 1])))
    && (!Resolves(db, root, to) ==> db' == MovedTo(db, db[id].parentId.value, d, Renamed(db[id], d, to[|to| - 1])))
  }

  lemma PathInDb(db: Db, root: Id, path: Path, id: Id)
    requires Shape(db, root) && PathTo(db, root, path, id)
    ensures id in db && (path != [] ==> id != root && db[id].parentId.Some? && db[id].trashedAt.None?
                                        && IsDir(db, db[id].parentId.value) && db[id].filename == Some(path[|path| - 1])
                                        && PathTo(db, root, ParentPath(path), db[id].parentId.value))
    ensures path == [] ==> id == root
  {
  }

  lemma LiveChildShows(db: Db, c: Id, d: Id)
    requires IsChild(db, c, d) && db[c].trashedAt.None?
    ensures HasLiveChild(db, d)
  {
  }

  lemma OneHolder(db: Db, a: Id, b: Id, d: Id, name: Name)
    requires UniqueLive(db) && LiveAt(db, a, d, name) && LiveAt(db, b, d, name)
    ensures a == b
  {
  }

  lemma PathResolves(db: Db, root: Id, path: Path, id: Id)
    requires PathTo(db, root, path, id)
    ensures Resolves(db, root, path)
  {
  }

  /** A directory nothing live hangs in is above no path. */
  lemma {:induction false} LiveIsNotBelow(db: Db, root: Id, path: Path, id: Id, e: Id, k: nat)
    requires Shape(db, root) && PathTo(db, root, path, id) && Subtree.Under(db, e, id, k) && !HasLiveChild(db, e)
    ensures id == e
    decreases k
  {
    hide HasLiveChild;
    if k > 0 {
      PathInDb(db, root, path, id);
      var up := db[id].parentId.value;
      LiveIsNotBelow(db, root, ParentPath(path), up, e, k - 1);
      LiveChildShows(db, id, e);
    }
  }

  // The target is not the node, nor anything the node or its directory hangs from.
  lemma TargetIsApart(db: Db, root: Id, from: Path, id: Id, to: Path, e: Id, d: Id)
    requires Shape(db, root) && from != [] && to != [] && from != to
    requires PathTo(db, root, from, id) && PathTo(db, root, to, e) && !HasLiveChild(db, e)
    requires PathTo(db, root, ParentPath(to), d)
    ensures !Subtree.Descends(db, e, id) && !Subtree.Descends(db, e, db[id].parentId.value) && !Subtree.Descends(db, e, d)
    ensures e in db && e != root && e != d && db[e].parentId == Some(d)
  {
    hide HasLiveChild;
    PathInDb(db, root, from, id);
    PathInDb(db, root, to, e);
    PathToOnce(db, root, ParentPath(to), d, db[e].parentId.value);
    PathIsNames(db, root, ParentPath(to), d);
    NotBelowOwnChild(db, root, d, e, |ParentPath(to)|);
    assert Subtree.Under(db, e, e, 0);
    var s := db[id].parentId.value;
    if Subtree.Descends(db, e, id) {
      var k: nat :| Subtree.Under(db, e, id, k);
      LiveIsNotBelow(db, root, from, id, e, k);
      PathsAgree(db, root, id, from, to);
    }
    if Subtree.Descends(db, e, s) {
      var k: nat :| Subtree.Under(db, e, s, k);
      LiveIsNotBelow(db, root, ParentPath(from), s, e, k);
      LiveChildShows(db, id, e);
    }
  }

  // Nothing hangs below a node that its path does not continue; so the check on paths keeps the tree a tree.
  lemma NotBelowItself(db: Db, root: Id, from: Path, id: Id, above: Path, d: Id)
    requires Shape(db, root) && PathTo(db, root, from, id) && PathTo(db, root, above, d) && IsDir(db, d)
    requires !(from <= above) || db[id].FileNode?
    ensures !Subtree.Descends(db, id, d)
  {
    if Subtree.Descends(db, id, d) {
      var k: nat :| Subtree.Under(db, id, d, k);
      if db[id].FileNode? {
        FileHasNoneBelow(db, id, d, k);
      } else {
        BelowMeansPrefix(db, root, from, id, above, d, k);
      }
    }
  }

  lemma {:induction false} FileHasNoneBelow(db: Db, id: Id, c: Id, k: nat)
    requires !IsDir(db, id) && Subtree.Under(db, id, c, k)
    ensures c == id
    decreases k
  {
    if k > 0 { FileHasNoneBelow(db, id, db[c].parentId.value, k - 1); }
  }

  lemma {:induction false} UnderTrashed(db: Db, o: Id, now: nat, x: Id, c: Id, k: nat)
    requires o in db
    ensures Subtree.Under(db[o := WithTrash(db[o], Some(now))], x, c, k) <==> Subtree.Under(db, x, c, k)
    decreases k
  {
    if k > 0 && c in db && db[c].parentId.Some? { UnderTrashed(db, o, now, x, db[c].parentId.value, k - 1); }
  }

  lemma DescendsTrashed(db: Db, o: Id, now: nat, x: Id, c: Id)
    requires o in db
    ensures Subtree.Descends(db[o := WithTrash(db[o], Some(now))], x, c) <==> Subtree.Descends(db, x, c)
  {
    var db' := db[o := WithTrash(db[o], Some(now))];
    if Subtree.Descends(db', x, c) {
      var k: nat :| Subtree.Under(db', x, c, k);
      UnderTrashed(db, o, now, x, c, k);
    }
    if Subtree.Descends(db, x, c) {
      var k: nat :| Subtree.Under(db, x, c, k);
      UnderTrashed(db, o, now, x, c, k);
    }
  }

  // Clearing a place leaves everything that was not below it as it was, but for the directory's own tags.
  lemma ClearedKeeps(db: Db, d: Id, e: Id, now: nat)
    requires e in db && e != d && IsDir(db, d)
    ensures var db' := Cleared(db, d, e, now);
            forall c :: c in db && !Subtree.Descends(db, e, c) ==>
              c in db' && SamePlace(db[c], db'[c]) && (c != d ==> db'[c] == db[c])
  {
    var db1 := db[e := WithTrash(db[e], Some(now))];
    forall c ensures Subtree.Descends(db1, e, c) <==> Subtree.Descends(db, e, c) {
      DescendsTrashed(db, e, now, e, c);
    }
    assert Subtree.Under(db, e, e, 0);
    hide Subtree.Descends;
    forall c | c in db && !Subtree.Descends(db, e, c)
      ensures c in Cleared(db, d, e, now) && SamePlace(db[c], Cleared(db, d, e, now)[c])
              && (c != d ==> Cleared(db, d, e, now)[c] == db[c])
    {
      assert c in Without(db1, e);
    }
  }

  // And frees the name.
  lemma ClearedFrees(db: Db, root: Id, d: Id, e: Id, now: nat, name: Name)
    requires Shape(db, root) && e in db && e != d && LiveAt(db, e, d, name) && IsDir(db, d)
    ensures !Taken(Cleared(db, d, e, now), d, name)
  {
    ClearedKeys(db, d, e, now);
    ClearedKeeps(db, d, e, now);
    assert Subtree.Under(db, e, e, 0);
    hide Cleared, Subtree.Descends, Signed, DirsAbove, UniqueLive;
    forall c | c in NameTaken(Cleared(db, d, e, now), d, name) ensures false {
      OneHolder(db, c, e, d, name);
    }
  }

  lemma HangsSay(db: Db, db': Db, root: Id, c: Id)
    requires KeepsHanging(db, db', root) && Hangs(db, root, c) && c in db'
    ensures Hangs(db', root, c)
  {
  }

  lemma HangsChain(a: Db, b: Db, c: Db, root: Id)
    requires KeepsHanging(a, b, root) && KeepsHanging(b, c, root) && c.Keys <= b.Keys
    ensures KeepsHanging(a, c, root)
  {
  }

  lemma SettledKeys(db: Db, d: Id)
    ensures Settled(db, d).Keys == db.Keys
  {
  }

  lemma SettledTwice(db: Db, d: Id)
    ensures Settled(Settled(db, d), d) == Settled(db, d)
  {
    SamePairs(Settled(db, d), db, d);
  }

  // A path names at most one node, so what is asked of some node there is asked of this one.
  lemma OneNode(db: Db, root: Id, path: Path, id: Id)
    requires UniqueLive(db) && PathTo(db, root, path, id)
    ensures Resolves(db, root, path) && (ResolvesToDir(db, root, path) <==> IsDir(db, id))
    ensures LiveBelow(db, root, path) <==> HasLiveChild(db, id)
  {
    forall e | PathTo(db, root, path, e) ensures e == id {
      PathToOnce(db, root, path, e, id);
    }
  }

  lemma RelocateReady(db: Db, root: Id, id: Id, from: Path, to: Path, d: Id)
    requires Shape(db, root) && from != [] && to != [] && PathTo(db, root, from, id)
    requires !(ResolvesToDir(db, root, from) && from <= to)
    requires ReadyAt(db, root, ParentPath(from)) && PathTo(db, root, ParentPath(to), d) && IsDir(db, d)
    ensures id in db && id != root && db[id].parentId.Some? && db[id].trashedAt.None? && db[id].parentId != Some(id)
    ensures IsDir(db, db[id].parentId.value) && Promoted(db, db[id].parentId.value) && !Subtree.Descends(db, id, d)
  {
    hide Promoted;
    PathInDb(db, root, from, id);
    OneNode(db, root, from, id);
    NotBelowItself(db, root, from, id, ParentPath(to), d);
    var s := db[id].parentId.value;
    PathIsNames(db, root, ParentPath(from), s);
    NotBelowOwnChild(db, root, s, id, |ParentPath(from)|);
    assert Subtree.Under(db, id, id, 0);
  }

  lemma FreeTarget(db: Db, root: Id, to: Path, d: Id)
    requires to != [] && !Resolves(db, root, to) && PathTo(db, root, ParentPath(to), d) && IsDir(db, d)
    ensures !Taken(db, d, to[|to| - 1])
  {
    hide Resolves;
    var name := to[|to| - 1];
    forall c | c in NameTaken(db, d, name) ensures false {
      PathResolves(db, root, to, c);
    }
  }

  lemma AfterClearing(db: Db, root: Id, id: Id, from: Path, to: Path, d: Id, e: Id, now: nat)
    requires Shape(db, root) && from != [] && to != [] && from != to && IsDir(db, d)
    requires PathTo(db, root, from, id) && PathTo(db, root, to, e) && !HasLiveChild(db, e) && e in db
    requires PathTo(db, root, ParentPath(to), d) && !Subtree.Descends(db, id, d)
    ensures var db' := Cleared(db, d, e, now);
            && id in db && db[id].parentId.Some? && IsDir(db, db[id].parentId.value)
            && id in db' && db'[id] == db[id] && IsDir(db', db[id].parentId.value) && IsDir(db', d)
            && PathTo(db', root, ParentPath(to), d) && !Subtree.Descends(db', id, d) && !Taken(db', d, to[|to| - 1])
            && db'.Keys <= db.Keys
  {
    hide Cleared, UniqueLive;
    TargetIsApart(db, root, from, id, to, e, d);
    PathInDb(db, root, from, id);
    PathInDb(db, root, to, e);
    assert Subtree.Under(db, e, e, 0) && Subtree.Under(db, id, id, 0);
    ClearedKeeps(db, d, e, now);
    ClearedFrees(db, root, d, e, now, to[|to| - 1]);
    ClearedKeys(db, d, e, now);
    var db' := Cleared(db, d, e, now);
    PathKept(db, db', root, e, ParentPath(to), d);
    if Subtree.Descends(db', id, d) {
      var k: nat :| Subtree.Under(db', id, d, k);
      UnderBack(db, db', e, id, d, k);
    }
  }

  lemma ClearedKeys(db: Db, d: Id, e: Id, now: nat)
    requires e in db
    ensures forall c :: c in Cleared(db, d, e, now) ==> c in db && !Subtree.Descends(db, e, c)
  {
    forall c ensures Subtree.Descends(db[e := WithTrash(db[e], Some(now))], e, c) <==> Subtree.Descends(db, e, c) {
      DescendsTrashed(db, e, now, e, c);
    }
  }

  lemma {:induction false} UnderBack(db: Db, db': Db, e: Id, x: Id, c: Id, k: nat)
    requires KeepsPlaces(db, db', e) && forall a :: a in db' ==> a in db && !Subtree.Descends(db, e, a)
    requires Subtree.Under(db', x, c, k)
    ensures Subtree.Under(db, x, c, k)
    decreases k
  {
    if k > 0 { UnderBack(db, db', e, x, db'[c].parentId.value, k - 1); }
  }

  lemma MoveReady(db: Db, mid: Db, s: Id, d: Id)
    requires KeepsPromoted(db, mid) && IsDir(db, s) && Promoted(db, s) && IsDir(db, d) && Promoted(db, d)
    requires IsDir(mid, s) && IsDir(mid, d)
    ensures Promoted(mid, s) && Promoted(mid, d)
  {
    assert KeepsAt(db, mid, {}, s) && KeepsAt(db, mid, {}, d);
  }

  lemma MovedFits(db: Db, root: Id, id: Id, d: Id, name: Name)
    requires Shape(db, root) && id in db && id != root && IsDir(db, d) && !Taken(db, d, name)
    requires !Subtree.Descends(db, id, d)
    ensures var n := Renamed(db[id], d, name); n.id == id && id != d && Fits(db, root, n)
  {
    ShapeSays(db, root);
    assert Subtree.Under(db, id, id, 0);
    assert NameTaken(db, d, name) == {};
  }

  lemma MovedKeys(db: Db, s: Id, t: Id, n: Node)
    requires n.id in db
    ensures MovedTo(db, s, t, n).Keys == db.Keys
  {
    SettledKeys(db[n.id := n], s);
    SettledKeys(Settled(db[n.id := n], s), t);
  }

  // What was done is what `RenameEffect` says.
  lemma EffectShown(db: Db, db': Db, root: Id, id: Id, d: Id, to: Path, occupant: Option<Id>, now: nat)
    requires Shape(db, root) && id in db && db[id].parentId.Some? && to != [] && IsDir(db, d)
    requires PathTo(db, root, ParentPath(to), d)
    requires if occupant.Some? then PathTo(db, root, to, occupant.value) && occupant.value in db else !Resolves(db, root, to)
    requires var base := if occupant.Some? then Cleared(db, d, occupant.value, now) else db;
             db' == MovedTo(base, db[id].parentId.value, d, Renamed(db[id], d, to[|to| - 1]))
    ensures RenameEffect(db, db', root, id, to, now)
  {
    hide MovedTo, Cleared;
    forall e | PathTo(db, root, to, e) ensures occupant == Some(e) {
      if occupant.Some? { PathToOnce(db, root, to, e, occupant.value); }
    }
    assert RenameEffectAt(db, db', root, id, d, to, now);
  }

  lemma PrunedKeys(db: Db, p: Id, out: seq<Node>)
    requires out != [] && IsDir(db, p) && p !in Ids(out)
    ensures Pruned(db, p, out).Keys == (db - Ids(out)).Keys
  {
  }

  lemma PrunedSays(db: Db, root: Id, p: Id, out: seq<Node>, id: Id)
    requires Shape(db, root) && Covered(db) && Prunes(db, root, p, out) && out[0].id == id
    ensures Pruned(db, p, out) == Settled(Without(db, id), p) && |out| == |db.Keys| - |Pruned(db, p, out).Keys|
    ensures KeepsPromoted(db, Pruned(db, p, out)) && KeepsHanging(db, Pruned(db, p, out), root)
  {
    hide Shape, Covered, KeepsPromoted, KeepsHanging, Settled, Pruned, Promoted, Subtree.Distinct, Subtree.ParentsFirst;
    PruneDone(db, root, p, out);
    CountGone(db, out);
    PrunedKeys(db, p, out);
  }

  lemma PrunedIs(db: Db, p: Id, out: seq<Node>, tag: Tag, final: Db)
    requires out != [] && IsDir(db, p) && p !in Ids(out) && tag == LeaveTag(db, p, out[0].id)
    requires var rest := Staged(db, p, tag) - Ids(out);
             tag == EntriesMac(p, ChildPairs(rest, p)) && final == Settled(rest, p)
    ensures final == Pruned(db, p, out)
  {
  }

  lemma IdsPrefix(out: seq<Node>, n: nat)
    requires n <= |out|
    ensures Ids(out[..n]) <= Ids(out)
  {
    forall x | x in Ids(out[..n]) ensures x in Ids(out) {
      var i :| 0 <= i < n && out[..n][i].id == x;
      assert out[i].id == x;
    }
  }

  lemma PruneStep(db: Db, root: Id, p: Id, out: seq<Node>, n: nat)
    requires Pruning(db, root, p, out) && 0 < n <= |out|
    ensures Shape(db - Ids(out[..n]), root) && Covered(db - Ids(out[..n]))
    ensures LeaveTag(db, p, out[0].id) == EntriesMac(p, ChildPairs(db - Ids(out[..n]), p))
  {
    PruneCovered(db, root, p, out, n);
    IdsPrefix(out, n);
    DropShape(db, root, Ids(out[..n]));
  }

  // Trashing a node takes nothing from below it.
  lemma BelowTrashed(db: Db, id: Id, now: nat)
    requires id in db
    ensures Below(db[id := WithTrash(db[id], Some(now))], id) == Below(db, id)
  {
    var db' := db[id := WithTrash(db[id], Some(now))];
    forall c ensures Subtree.Descends(db', id, c) <==> Subtree.Descends(db, id, c) {
      DescendsTrashed(db, id, now, id, c);
    }
    hide Subtree.Descends;
    assert forall c :: c in db ==> RefsOf(db'[c]) == RefsOf(db[c]);
  }

  lemma OneMoreGone(db: Db, out: seq<Node>, i: nat)
    requires i < |out|
    ensures (db - Ids(out[..i])) - {out[i].id} == db - Ids(out[..i + 1])
  {
    OneMore(out, i);
  }

  lemma RootHasNoPath(db: Db, root: Id, path: Path, id: Id)
    requires Rooted(db, root) && path != [] && PathTo(db, root, path, id)
    ensures id != root
  {
  }

  lemma PlacedHangs(db: Db, root: Id, id: Id)
    requires TrashView.PlacedLive(db, root, id)
    ensures Hangs(db, root, id)
  {
    var n: nat :| Reaches(db, root, id, n) && LiveChain(db, root, id, n);
  }

  lemma PathsAgree(db: Db, root: Id, id: Id, a: Path, b: Path)
    requires Rooted(db, root) && PathTo(db, root, a, id) && PathTo(db, root, b, id)
    ensures a == b
  {
    PathIsNames(db, root, a, id);
    PathIsNames(db, root, b, id);
    ReachesOnce(db, root, id, |a|, |b|);
  }

  lemma OwnParentApart(db: Db, root: Id, place: Path, id: Id)
    requires Shape(db, root) && id in db && id != root && db[id].parentId.Some? && PathTo(db, root, place, db[id].parentId.value)
    ensures id != db[id].parentId.value
  {
    PathIsNames(db, root, place, db[id].parentId.value);
    NotBelowOwnChild(db, root, db[id].parentId.value, id, |place|);
    assert Subtree.Under(db, id, id, 0);
  }

  lemma UndoTrash(db: Db, root: Id, path: Path, id: Id, now: nat)
    requires Shape(db, root) && PathTo(db, root, path, id) && id != root
    ensures var mid := db[id := WithTrash(db[id], Some(now))];
            mid[id := WithTrash(mid[id], None)] == db && db[id].trashedAt.None? && db[id].parentId.Some?
  {
  }

  // What the walk to the root says about the place a node would come back to.
  lemma PlaceSays(db: Db, root: Id, node: Node, place: Option<Path>, blockedBy: Option<Id>)
    requires Shape(db, root) && node.parentId.Some?
    requires place.Some? ==> exists n: nat :: Gathered(db, root, node.parentId.value, n, n, root, place.value, blockedBy)
    requires place.None? ==> forall n: nat :: !Reaches(db, root, node.parentId.value, n)
    ensures place.Some? <==> Hangs(db, root, node.parentId.value)
    ensures place.Some? ==> (blockedBy.None? <==> TrashView.PlacedLive(db, root, node.parentId.value))
    ensures place.Some? && blockedBy.None? ==> PathTo(db, root, place.value, node.parentId.value)
  {
    if place.Some? {
      var up := node.parentId.value;
      var n: nat :| Gathered(db, root, up, n, n, root, place.value, blockedBy);
      assert [] + place.value == place.value;
      if TrashView.PlacedLive(db, root, up) {
        var m: nat :| Reaches(db, root, up, m) && LiveChain(db, root, up, m);
        ReachesOnce(db, root, up, n, m);
      }
      if blockedBy.None? { NamesArePath(db, root, up, n); }
    }
  }

  // Whether a restore under `policy` has to be refused for the sake of the name.
  ghost predicate NameBlocks(db: Db, id: Id, policy: Policy)
    requires id in db && db[id].parentId.Some?
  {
    var p, name := db[id].parentId.value, NameOf(db[id]);
    Taken(db, p, name) && (policy == Fail || (policy == KeepBoth && IsFreeName(db, p, name, None)))
  }

  lemma NameBlocksSays(db: Db, id: Id, policy: Policy)
    requires id in db && db[id].parentId.Some?
    ensures var p, name := db[id].parentId.value, NameOf(db[id]);
            NameBlocks(db, id, policy)
            <==> Taken(db, p, name)
                 && (policy == Fail || (policy == KeepBoth && forall k :: 2 <= k < 1000 ==> Taken(db, p, Candidate(name, k))))
  {
  }

  // `name` is where the node comes back; the node, its neighbour and its directory are all that changes.
  ghost predicate ComesBack(db: Db, db': Db, id: Id, policy: Policy, now: nat, name: Name)
    requires id in db && db[id].parentId.Some?
  {
    var p, own := db[id].parentId.value, NameOf(db[id]);
    if !Taken(db, p, own) then name == own && db' == db[id := WithTrash(db[id], None)]
    else if policy == Replace then
      name == own && exists o :: o in db && LiveAt(db, o, p, own)
                                 && db' == db[o := WithTrash(db[o], Some(now))][id := WithTrash(db[id], None)]
    else
      && policy == KeepBoth && IsFreeName(db, p, own, Some(name))
      && db' == Settled(db[id := WithTrash(db[id].(filename := Some(name)), None)], p)
  }

  lemma OneAnswer(db: Db, parent: Id, name: Name, free: Name)
    requires IsFreeName(db, parent, name, Some(free))
    ensures !IsFreeName(db, parent, name, None)
  {
  }

  // With its one holder in the trash, the name is free.
  lemma NameFreed(db: Db, root: Id, o: Id, p: Id, name: Name, now: nat)
    requires Shape(db, root) && LiveAt(db, o, p, name)
    ensures o in NameTaken(db, p, name) && NameTaken(db[o := WithTrash(db[o], Some(now))], p, name) == {}
  {
    var db' := db[o := WithTrash(db[o], Some(now))];
    forall c | c in NameTaken(db', p, name) ensures false {
      assert LiveAt(db, c, p, name);
    }
  }

  // Clearing the trash state of one node, at a place that is live.
  lemma BackInPlace(db: Db, root: Id, place: Path, id: Id)
    requires Shape(db, root) && id in db && id != root && db[id].parentId.Some?
    requires PathTo(db, root, place, db[id].parentId.value)
    ensures PathTo(db[id := WithTrash(db[id], None)], root, place + [NameOf(db[id])], id)
  {
    var p := db[id].parentId.value;
    PathIsNames(db, root, place, p);
    NotBelowOwnChild(db, root, p, id, |place|);
    var db' := db[id := WithTrash(db[id], None)];
    assert KeepsPlaces(db, db', id) by { assert Subtree.Under(db, id, id, 0); }
    PathKept(db, db', root, id, place, p);
    assert p in db' && db'[p].DirNode? by {
      if place == [] { assert p == root; } else { assert p in db; }
    }
    assert db[id].filename.Some?;
    hide Shape, KeepsPlaces;
    PathGrows(db', root, place, p, db'[id]);
  }

  // Trashing a neighbour does not disturb the place.
  lemma PlaceStays(db: Db, root: Id, place: Path, p: Id, o: Id, now: nat)
    requires Shape(db, root) && o in db && o != root && db[o].parentId == Some(p) && PathTo(db, root, place, p)
    ensures PathTo(db[o := WithTrash(db[o], Some(now))], root, place, p)
  {
    PathIsNames(db, root, place, p);
    NotBelowOwnChild(db, root, p, o, |place|);
    var db' := db[o := WithTrash(db[o], Some(now))];
    assert KeepsPlaces(db, db', o) by { assert Subtree.Under(db, o, o, 0); }
    PathKept(db, db', root, o, place, p);
  }

  lemma RenamedFits(db: Db, root: Id, place: Path, id: Id, name: Name)
    requires Shape(db, root) && id in db && id != root && db[id].parentId.Some?
    requires PathTo(db, root, place, db[id].parentId.value) && !Taken(db, db[id].parentId.value, name)
    ensures var n := WithTrash(db[id].(filename := Some(name)), None);
            Fits(db, root, n) && Enters(db, db[id].parentId.value, n) && IsDir(db, db[id].parentId.value)
            && !Subtree.Descends(db, id, db[id].parentId.value)
  {
    var p := db[id].parentId.value;
    PathIsNames(db, root, place, p);
    NotBelowOwnChild(db, root, p, id, |place|);
    assert Subtree.Under(db, id, id, 0);
    assert NameTaken(db, p, name) == {};
    if place == [] { assert p == root; } else { assert p in db; }
  }

  lemma TrashedDoesNotResolve(db: Db, db': Db, root: Id, path: Path, id: Id)
    requires Shape(db, root) && PathTo(db, root, path, id) && id != root
    requires db'.Keys == db.Keys && forall c :: c in db && c != id ==> db'[c] == db[c]
    requires db'[id].trashedAt.Some? && db'[id].parentId == db[id].parentId
    ensures !Resolves(db', root, path)
  {
    forall c ensures !PathTo(db', root, path, c) {
      if PathTo(db', root, path, c) {
        SameBefore(db, db', root, path, c, id);
        PathToOnce(db, root, path, id, c);
      }
    }
  }

  // A node that had a path is on its own in the trash listing.
  lemma TrashedIsListed(db: Db, root: Id, path: Path, id: Id, now: nat)
    requires Shape(db, root) && PathTo(db, root, path, id) && id != root
    ensures var db' := db[id := WithTrash(db[id], Some(now))];
            && db[id].parentId.Some? && PathTo(db', root, ParentPath(path), db[id].parentId.value)
            && TrashView.PlacedLive(db', root, db[id].parentId.value)
            && (now > 0 ==> TrashView.InTrashList(db', root, id))
            && (path[|path| - 1] == NameOf(db[id]))
            && !Taken(db', db[id].parentId.value, NameOf(db[id]))
  {
    var db' := db[id := WithTrash(db[id], Some(now))];
    var p := db[id].parentId.value;
    PlaceStays(db, root, ParentPath(path), p, id, now);
    PathIsNames(db', root, ParentPath(path), p);
    NameFreed(db, root, id, p, NameOf(db[id]), now);
  }

  // A path that resolves with a node in the trash resolved before, and to the same place.
  lemma {:induction false} SameBefore(db: Db, db': Db, root: Id, path: Path, c: Id, id: Id)
    requires PathTo(db', root, path, c) && id in db && db[id].trashedAt.None? && id != root
    requires db'.Keys == db.Keys && forall e :: e in db && e != id ==> db'[e] == db[e]
    requires db'[id].trashedAt.Some? && IsDir(db', root)
    ensures PathTo(db, root, path, c) && c != id
  {
    if path != [] { SameBefore(db, db', root, path[..|path| - 1], db[c].parentId.value, id); }
  }

  lemma NewIsThere(db: Db, d: Id, n: Node)
    requires n.id != d
    ensures n.id in Settled(db[n.id := n], d) && Settled(db[n.id := n], d)[n.id] == n
  {
  }

  lemma NewChildFits(db: Db, root: Id, path: Path, d: Id, n: Node)
    requires Shape(db, root) && path != [] && !Resolves(db, root, path)
    requires PathTo(db, root, path[..|path| - 1], d) && IsDir(db, d)
    requires Unused(db, n.id) && n.id != [] && n.id != root
    requires n == NewDir(n.id, d, path[|path| - 1]) || n == NewFile(n.id, Some(d), Some(path[|path| - 1]))
    ensures Fits(db, root, n) && Enters(db, d, n) && !Subtree.Descends(db, n.id, d)
  {
    var name := path[|path| - 1];
    FreeTarget(db, root, path, d);
    assert NameTaken(db, d, name) == {};
    if Subtree.Descends(db, n.id, d) {
      var k: nat :| Subtree.Under(db, n.id, d, k);
      NewHasNoneBelow(db, n.id, d, k);
    }
  }

  lemma KeepsPromotedRefl(db: Db)
    ensures KeepsPromoted(db, db)
  {
  }
}
