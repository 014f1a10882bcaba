/**
 `_subtree` (src/vfs.py): a node and everything under it, breadth first, on any parent graph.
 */
module Subtree {
  import opened Wrappers
  import opened Tags
  import opened Tree

  // `id` is `n` parent steps below `top`, through directories.
  ghost predicate Under(db: Db, top: Id, id: Id, n: nat)
    decreases n
  {
    if n == 0 then id == top
    else id in db && db[id].parentId.Some? && IsDir(db, db[id].parentId.value) && Under(db, top, db[id].parentId.value, n - 1)
  }

  ghost predicate Descends(db: Db, top: Id, id: Id) { exists n: nat :: Under(db, top, id, n) }

  predicate Listed(out: seq<Node>, id: Id) { exists i :: 0 <= i < |out| && out[i].id == id }

  // Real documents, no document twice.
  predicate Distinct(db: Db, out: seq<Node>) {
    && (forall i :: 0 <= i < |out| ==> out[i].id in db && db[out[i].id] == out[i])
    && (forall i, j :: 0 <= i < j < |out| ==> out[i].id != out[j].id)
  }

  predicate HasParentBefore(out: seq<Node>, i: nat)
    requires i < |out|
  {
    exists j :: 0 <= j < i && out[j].DirNode? && out[i].parentId == Some(out[j].id)
  }

  predicate ParentsFirst(out: seq<Node>) {
    forall i :: 0 < i < |out| ==> HasParentBefore(out, i)
  }

  // Every child, in whatever order the database answers.
  method ChildrenOf(db: Db, d: Id) returns (r: seq<Node>)
    requires Keyed(db)
    ensures Distinct(db, r)
    ensures forall c :: Listed(r, c) <==> IsChild(db, c, d)
  {
    var left := set c | c in db && IsChild(db, c, d);
    r := [];
    while left != {}
      invariant Distinct(db, r) && left <= db.Keys
      invariant forall c :: c in left ==> IsChild(db, c, d) && !Listed(r, c)
      invariant forall c :: IsChild(db, c, d) ==> c in left || Listed(r, c)
      invariant forall i :: 0 <= i < |r| ==> IsChild(db, r[i].id, d)
      decreases left
    {
      var c :| c in left;
      ghost var before := r;
      r := r + [db[c]];
      left := left - {c};
      forall k | k in left ensures !Listed(r, k) {
        assert !Listed(before, k);
      }
      forall k | IsChild(db, k, d) ensures k in left || Listed(r, k) {
        if Listed(before, k) {
          var i :| 0 <= i < |before| && before[i].id == k;
          assert r[i].id == k;
        } else if k == c {
          assert r[|before|].id == k;
        }
      }
    }
  }

  // What the walk has collected so far, in order.
  ghost predicate Collected(db: Db, top: Id, acc: seq<Node>, seen: set<Id>) {
    && Distinct(db, acc) && ParentsFirst(acc) && seen <= db.Keys
    && |acc| > 0 && acc[0].id == top
    && (forall id :: id in seen <==> Listed(acc, id))
    && (forall i :: 0 <= i < |acc| ==> Descends(db, top, acc[i].id))
  }

  // The first `n` of them have been expanded.
  ghost predicate Expanded(db: Db, acc: seq<Node>, n: int, seen: set<Id>) {
    forall i, c :: 0 <= i < n && i < |acc| && acc[i].DirNode? && IsChild(db, c, acc[i].id) ==> c in seen
  }

  lemma CollectOne(db: Db, top: Id, acc: seq<Node>, seen: set<Id>, j: nat, child: Node)
    requires Keyed(db) && Collected(db, top, acc, seen) && j < |acc| && acc[j].DirNode?
    requires child.id in db && db[child.id] == child && child.parentId == Some(acc[j].id) && child.id !in seen
    ensures Collected(db, top, acc + [child], seen + {child.id})
  {
    var all := acc + [child];
    assert acc[j] == all[j];
    forall i | 0 < i < |all| ensures HasParentBefore(all, i) {
      if i < |acc| {
        assert HasParentBefore(acc, i);
        var k :| 0 <= k < i && acc[k].DirNode? && acc[i].parentId == Some(acc[k].id);
        assert all[k] == acc[k];
      }
    }
    forall id ensures id in seen + {child.id} <==> Listed(all, id) {
      if Listed(acc, id) {
        var i :| 0 <= i < |acc| && acc[i].id == id;
        assert all[i].id == id;
      }
      if id == child.id { assert all[|acc|].id == id; }
    }
    assert !Listed(acc, child.id);
    var n: nat :| Under(db, top, acc[j].id, n);
    assert Under(db, top, child.id, n + 1);
  }

  method SubtreeOf(db: Db, top: Node) returns (out: seq<Node>)
    requires Keyed(db) && top.id in db && db[top.id] == top
    ensures Distinct(db, out) && |out| > 0 && out[0] == top
    ensures forall id :: Listed(out, id) <==> Descends(db, top.id, id)
    ensures ParentsFirst(out)
  {
    hide Distinct, ParentsFirst, Listed, Expanded, Collected;
    out := [top];
    var frontier := [top];
    var seen := {top.id};
    Begin(db, top);
    while frontier != []
      invariant Collected(db, top.id, out, seen) && seen <= db.Keys
      invariant |out| > 0 && out[0] == top
      invariant |frontier| <= |out| && frontier == out[|out| - |frontier|..]
      invariant Expanded(db, out, |out| - |frontier|, seen)
      decreases |db.Keys - seen|, |frontier|
    {
      ghost var unseen := db.Keys - seen;
      var following := [];
      assert out + following == out;
      for p := 0 to |frontier|
        invariant Collected(db, top.id, out + following, seen) && seen <= db.Keys
        invariant Expanded(db, out + following, |out| - |frontier| + p, seen)
        invariant db.Keys - seen <= unseen && (following != [] ==> db.Keys - seen < unseen)
      {
        var parent := frontier[p];
        ghost var at := |out| - |frontier| + p;
        assert (out + following)[at] == parent;
        if parent.DirNode? {
          var more;
          more, seen := Unseen(db, top.id, out + following, seen, parent, at);
          assert out + following + more == out + (following + more);
          following := following + more;
        } else {
          SkipFile(db, out + following, at, seen);
        }
      }
      if following != [] {
        Smaller(db.Keys - seen, unseen);
      } else {
        SameSize(db.Keys - seen, unseen);
      }
      out := out + following;
      frontier := following;
    }
    assert Expanded(db, out, |out|, seen);
    Closed(db, top.id, out, seen);
  }

  lemma SkipFile(db: Db, acc: seq<Node>, at: nat, seen: set<Id>)
    requires Expanded(db, acc, at, seen) && at < |acc| && !acc[at].DirNode?
    ensures Expanded(db, acc, at + 1, seen)
  {
  }

  lemma Begin(db: Db, top: Node)
    requires top.id in db && db[top.id] == top
    ensures Collected(db, top.id, [top], {top.id}) && Expanded(db, [top], 0, {top.id})
  {
    assert Under(db, top.id, top.id, 0);
    assert [top][0].id == top.id;
  }

  lemma Smaller(a: set<Id>, b: set<Id>)
    requires a < b
    ensures |a| < |b|
  {
    var x :| x in b && x !in a;
    SameSize(a, b - {x});
  }

  lemma SameSize(a: set<Id>, b: set<Id>)
    requires a <= b
    ensures |a| <= |b|
    decreases b
  {
    if a != {} {
      var x :| x in a;
      SameSize(a - {x}, b - {x});
    }
  }

  // The children of one directory that have not been collected yet.
  method Unseen(db: Db, ghost top: Id, ghost acc: seq<Node>, seen: set<Id>, parent: Node, ghost at: nat)
    returns (more: seq<Node>, seen': set<Id>)
    requires Keyed(db) && Collected(db, top, acc, seen) && at < |acc| && acc[at] == parent && parent.DirNode?
    requires Expanded(db, acc, at, seen)
    ensures Collected(db, top, acc + more, seen') && Expanded(db, acc + more, at + 1, seen')
    ensures seen <= seen' <= db.Keys && (more != [] ==> db.Keys - seen' < db.Keys - seen)
  {
    more, seen' := [], seen;
    var kids := ChildrenOf(db, parent.id);
    assert acc + more == acc;
    for q := 0 to |kids|
      invariant Collected(db, top, acc + more, seen') && seen <= seen'
      invariant forall i :: 0 <= i < q ==> kids[i].id in seen'
      invariant more != [] ==> db.Keys - seen' < db.Keys - seen
    {
      assert Listed(kids, kids[q].id);
      if kids[q].id !in seen' {
        assert (acc + more)[at] == parent;
        CollectOne(db, top, acc + more, seen', at, kids[q]);
        assert acc + (more + [kids[q]]) == acc + more + [kids[q]];
        seen' := seen' + {kids[q].id};
        more := more + [kids[q]];
        assert kids[q].id in db.Keys - seen;
      }
    }
    forall c | IsChild(db, c, parent.id) ensures c in seen' {
      assert Listed(kids, c);
    }
    forall i, c | 0 <= i < at + 1 && i < |acc + more| && (acc + more)[i].DirNode? && IsChild(db, c, (acc + more)[i].id)
      ensures c in seen'
    {
      assert (acc + more)[i] == acc[i];
    }
  }

  // Nothing left to expand means nothing was missed.
  lemma Closed(db: Db, top: Id, out: seq<Node>, seen: set<Id>)
    requires Keyed(db) && Collected(db, top, out, seen) && Expanded(db, out, |out|, seen)
    ensures forall id :: Listed(out, id) <==> Descends(db, top, id)
    ensures Distinct(db, out) && ParentsFirst(out)
  {
    forall id | Descends(db, top, id) ensures Listed(out, id) {
      var n: nat :| Under(db, top, id, n);
      ClosedAt(db, top, out, seen, id, n);
    }
  }

  lemma {:induction false} ClosedAt(db: Db, top: Id, out: seq<Node>, seen: set<Id>, id: Id, n: nat)
    requires Keyed(db) && Collected(db, top, out, seen) && Expanded(db, out, |out|, seen) && Under(db, top, id, n)
    ensures Listed(out, id)
    decreases n
  {
    if n == 0 {
      assert out[0].id == id;
    } else {
      var up := db[id].parentId.value;
      ClosedAt(db, top, out, seen, up, n - 1);
      var i :| 0 <= i < |out| && out[i].id == up;
      assert out[i].DirNode? && IsChild(db, id, out[i].id);
      assert id in seen;
    }
  }
}
