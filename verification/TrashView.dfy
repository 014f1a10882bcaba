/**
 What can still be reached (src/vfs.py): the listing of the trash, and what deleting leaves findable.
 */
module TrashView {
  import opened Wrappers
  import opened Tags
  import opened Tree
  import opened Paths

  // `{"trashed_at": {"$gt": 0}}`, the query the trash listing starts from.
  predicate Candidate(n: Node) { n.trashedAt.Some? && n.trashedAt.value > 0 }

  // A candidate whose ancestors are all live and lead to this root.
  ghost predicate InTrashList(db: Db, root: Id, id: Id) {
    id in db && Candidate(db[id]) && db[id].parentId.Some? && PlacedLive(db, root, db[id].parentId.value)
  }

  ghost predicate PlacedLive(db: Db, root: Id, id: Id) {
    exists n: nat :: Reaches(db, root, id, n) && LiveChain(db, root, id, n)
  }

  // The clock never hands out the epoch itself.
  ghost predicate TimesPositive(db: Db) {
    forall id :: id in db && db[id].trashedAt.Some? ==> Candidate(db[id])
  }

  datatype Item = Item(node: Node, parentPath: Path)

  predicate ItemFor(items: seq<Item>, id: Id) { exists i :: 0 <= i < |items| && items[i].node.id == id }

  ghost predicate ItemOk(db: Db, root: Id, item: Item) {
    && item.node.id in db && db[item.node.id] == item.node && item.node.parentId.Some?
    && exists n: nat :: Reaches(db, root, item.node.parentId.value, n)
                        && item.parentPath == Names(db, root, item.node.parentId.value, n)
  }

  /** `list_trash`: exactly the topmost trashed nodes of this tree, each once, with where it would go back. */
  method ListTrash(db: Db, root: Id) returns (items: seq<Item>)
    requires Keyed(db) && Rooted(db, root)
    ensures forall id :: ItemFor(items, id) <==> InTrashList(db, root, id)
    ensures forall i, j :: 0 <= i < j < |items| ==> items[i].node.id != items[j].node.id
    ensures forall i :: 0 <= i < |items| ==> ItemOk(db, root, items[i])
  {
    var left := set id | id in db && Candidate(db[id]);
    items := [];
    while left != {}
      invariant left <= db.Keys && forall id :: id in left ==> Candidate(db[id]) && !ItemFor(items, id)
      invariant forall id :: ItemFor(items, id) ==> InTrashList(db, root, id)
      invariant forall id :: InTrashList(db, root, id) ==> id in left || ItemFor(items, id)
      invariant forall i, j :: 0 <= i < j < |items| ==> items[i].node.id != items[j].node.id
      invariant forall i :: 0 <= i < |items| ==> ItemOk(db, root, items[i])
      decreases left
    {
      var id :| id in left;
      var place, blockedBy := AncestorsOf(db, root, db[id]);
      PlaceDecides(db, root, id, place, blockedBy);
      if place.Some? && blockedBy.None? {
        ItemAdded(items, Item(db[id], place.value));
        items := items + [Item(db[id], place.value)];
      }
      left := left - {id};
    }
  }

  lemma ItemAdded(items: seq<Item>, item: Item)
    ensures forall id :: ItemFor(items + [item], id) <==> ItemFor(items, id) || id == item.node.id
  {
    var all := items + [item];
    forall id | ItemFor(items, id) || id == item.node.id ensures ItemFor(all, id) {
      if ItemFor(items, id) {
        var i :| 0 <= i < |items| && items[i].node.id == id;
        assert all[i].node.id == id;
      } else {
        assert all[|items|].node.id == id;
      }
    }
  }

  // What the upward walk found is what the listing asks.
  lemma PlaceDecides(db: Db, root: Id, id: Id, place: Option<Path>, blockedBy: Option<Id>)
    requires Keyed(db) && Rooted(db, root) && id in db && Candidate(db[id])
    requires place.Some? ==> db[id].parentId.Some? && exists n: nat ::
               Gathered(db, root, db[id].parentId.value, n, n, root, place.value, blockedBy)
    requires place.None? ==> db[id].parentId.Some? ==> forall n: nat :: !Reaches(db, root, db[id].parentId.value, n)
    ensures place.Some? && blockedBy.None? <==> InTrashList(db, root, id)
    ensures place.Some? ==> ItemOk(db, root, Item(db[id], place.value))
  {
    if place.Some? {
      var up := db[id].parentId.value;
      var n: nat :| Gathered(db, root, up, n, n, root, place.value, blockedBy);
      assert Names(db, root, up, n) == [] + place.value;
      if PlacedLive(db, root, up) {
        var m: nat :| Reaches(db, root, up, m) && LiveChain(db, root, up, m);
        ReachesOnce(db, root, up, n, m);
      }
    }
  }

  // How far up the topmost trashed node of a chain is.
  ghost function TopTrashed(db: Db, root: Id, id: Id, n: nat): (k: nat)
    requires Reaches(db, root, id, n) && !LiveChain(db, root, id, n)
    ensures k < n
    decreases n
  {
    var up := db[id].parentId.value;
    if LiveChain(db, root, up, n - 1) then 0 else 1 + TopTrashed(db, root, up, n - 1)
  }

  /**
   Deleting hides, it does not strand: on the chain of a node that is out of view there is exactly one
   entry of the trash listing, the topmost trashed node, with nothing but live nodes above it.
   */
  lemma {:induction false} HiddenIsListedOnce(db: Db, root: Id, id: Id, n: nat)
    requires Keyed(db) && Rooted(db, root) && TimesPositive(db)
    requires Reaches(db, root, id, n) && !LiveChain(db, root, id, n)
    ensures var k := TopTrashed(db, root, id, n);
            && InTrashList(db, root, Above(db, root, id, n, k))
            && forall j: nat :: j <= n && InTrashList(db, root, Above(db, root, id, n, j)) ==> j == k
    decreases n
  {
    var up := db[id].parentId.value;
    if LiveChain(db, root, up, n - 1) {
      assert Above(db, root, id, n, 0) == id;
      forall j: nat | j <= n && InTrashList(db, root, Above(db, root, id, n, j)) ensures j == 0 {
        if j > 0 { LiveAbove(db, root, up, n - 1, j - 1); }
      }
    } else {
      HiddenIsListedOnce(db, root, up, n - 1);
      var k := TopTrashed(db, root, up, n - 1);
      forall j: nat | j <= n && InTrashList(db, root, Above(db, root, id, n, j)) ensures j == k + 1 {
        if j == 0 {
          var m: nat :| Reaches(db, root, up, m) && LiveChain(db, root, up, m);
          ReachesOnce(db, root, up, n - 1, m);
        } else {
          assert Above(db, root, id, n, j) == Above(db, root, up, n - 1, j - 1);
        }
      }
    }
  }

  lemma {:induction false} LiveAbove(db: Db, root: Id, id: Id, n: nat, j: nat)
    requires Rooted(db, root) && Reaches(db, root, id, n) && LiveChain(db, root, id, n) && j <= n
    ensures var a := Above(db, root, id, n, j); a in db && db[a].trashedAt.None?
    ensures LiveChain(db, root, Above(db, root, id, n, j), n - j)
    decreases n
  {
    if j > 0 { LiveAbove(db, root, db[id].parentId.value, n - 1, j - 1); }
  }

  /** A node whose chain is live has exactly one path, that path leads to it, and the trash lists nothing above it. */
  lemma VisibleResolves(db: Db, root: Id, id: Id, n: nat)
    requires Keyed(db) && Rooted(db, root) && DirsAbove(db) && Named(db)
    requires Reaches(db, root, id, n) && LiveChain(db, root, id, n)
    ensures PathTo(db, root, Names(db, root, id, n), id)
    ensures forall path :: PathTo(db, root, path, id) ==> path == Names(db, root, id, n)
    ensures forall j: nat :: j <= n ==> !InTrashList(db, root, Above(db, root, id, n, j))
  {
    NamesArePath(db, root, id, n);
    forall path | PathTo(db, root, path, id) ensures path == Names(db, root, id, n) {
      PathIsNames(db, root, path, id);
      ReachesOnce(db, root, id, n, |path|);
    }
    forall j: nat | j <= n ensures !InTrashList(db, root, Above(db, root, id, n, j)) {
      LiveAbove(db, root, id, n, j);
    }
  }

  /** And a node that is out of view has no path at all. */
  lemma HiddenHasNoPath(db: Db, root: Id, id: Id, n: nat, path: Path)
    requires Rooted(db, root) && Reaches(db, root, id, n) && !LiveChain(db, root, id, n)
    ensures !PathTo(db, root, path, id)
  {
    if PathTo(db, root, path, id) {
      PathIsNames(db, root, path, id);
      ReachesOnce(db, root, id, n, |path|);
    }
  }

  /**
   The listing's query is `> 0`, so the one trash time it would miss is the epoch: a node trashed at 0 is
   hidden and not listed. For the topmost trashed node of a chain, being listed is having a positive time.
   */
  lemma EpochIsNotListed(db: Db, root: Id, id: Id)
    requires id in db && db[id].trashedAt.Some? && db[id].parentId.Some?
    requires PlacedLive(db, root, db[id].parentId.value)
    ensures InTrashList(db, root, id) <==> db[id].trashedAt.value > 0
  {
  }
}
