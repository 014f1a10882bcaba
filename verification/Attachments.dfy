/**
 The attachments below a node (src/vfs.py): which messages a purge asks Discord to delete, in which order,
 and what is left of them.
 */
module Attachments {
  import opened Wrappers
  import opened Bytes
  import opened Tags
  import opened FileContent
  import opened Tree
  import Subtree

  // The messages a chunk list references, in order.
  function RefList(cs: seq<Chunk>): (r: seq<MessageId>)
    ensures |r| == |cs|
  {
    seq(|cs|, i requires 0 <= i < |cs| => cs[i].messageId)
  }

  // A directory references none.
  function RefsOf(n: Node): seq<MessageId> { if n.FileNode? then RefList(n.chunks) else [] }

  // Node by node, chunk by chunk.
  function AttachmentList(members: seq<Node>): seq<MessageId> {
    if members == [] then []
    else AttachmentList(members[..|members| - 1]) + RefsOf(members[|members| - 1])
  }

  function Elements(list: seq<MessageId>): set<MessageId> { set m | m in list }

  // What the files at and below a node reference.
  ghost function Below(db: Db, id: Id): set<MessageId> {
    set c, m | c in db && Subtree.Descends(db, id, c) && m in RefsOf(db[c]) :: m
  }

  // Deleting these, of which Discord refused some: nothing else goes, and without a refusal all of them do.
  predicate Deletes(before: set<MessageId>, after: set<MessageId>, asked: seq<MessageId>, refusals: nat) {
    && before - Elements(asked) <= after <= before
    && (refusals == 0 ==> after == before - Elements(asked))
  }

  lemma RefListIsRefs(cs: seq<Chunk>)
    ensures Elements(RefList(cs)) == Refs(cs)
  {
    if cs != [] {
      var n := |cs| - 1;
      RefListIsRefs(cs[..n]);
      assert RefList(cs) == RefList(cs[..n]) + [cs[n].messageId];
    }
  }

  lemma ListStep(members: seq<Node>, i: nat)
    requires i < |members|
    ensures AttachmentList(members[..i + 1]) == AttachmentList(members[..i]) + RefsOf(members[i])
  {
    assert members[..i + 1][..i] == members[..i];
  }

  lemma {:induction false} ListPrefix(members: seq<Node>, n: nat)
    requires n <= |members|
    ensures AttachmentList(members[..n]) <= AttachmentList(members)
    decreases |members|
  {
    if n < |members| {
      ListPrefix(members[..|members| - 1], n);
      assert members[..|members| - 1][..n] == members[..n];
    } else {
      assert members[..n] == members;
    }
  }

  /** Whatever order the members come in: what is asked for is what the files among them reference. */
  lemma {:induction false} ListedMessage(members: seq<Node>, m: MessageId)
    ensures m in AttachmentList(members) <==> exists i :: 0 <= i < |members| && m in RefsOf(members[i])
  {
    hide RefsOf;
    if members != [] {
      var n := |members| - 1;
      var init := members[..n];
      ListedMessage(init, m);
      assert m in AttachmentList(members) <==> m in AttachmentList(init) || m in RefsOf(members[n]);
      hide AttachmentList;
      if m in AttachmentList(init) {
        var i :| 0 <= i < |init| && m in RefsOf(init[i]);
        assert members[i] == init[i];
      }
      if exists i :: 0 <= i < |members| && m in RefsOf(members[i]) {
        var i :| 0 <= i < |members| && m in RefsOf(members[i]);
        assert i < n ==> init[i] == members[i];
      }
    }
  }

  /** For a collected subtree, that is everything below its top. */
  lemma ListIsBelow(db: Db, id: Id, members: seq<Node>)
    requires Keyed(db) && Subtree.Distinct(db, members)
    requires forall c :: Subtree.Listed(members, c) <==> Subtree.Descends(db, id, c)
    ensures Elements(AttachmentList(members)) == Below(db, id)
  {
    hide Subtree.Descends, RefsOf;
    forall m ensures m in AttachmentList(members) <==> m in Below(db, id) {
      ListedMessage(members, m);
      if m in AttachmentList(members) {
        var i :| 0 <= i < |members| && m in RefsOf(members[i]);
        assert Subtree.Listed(members, members[i].id);
      }
      if m in Below(db, id) {
        var c :| c in db && Subtree.Descends(db, id, c) && m in RefsOf(db[c]);
        assert Subtree.Listed(members, c);
      }
    }
  }

  // The documents of a list, each dropped when `asked` attachments had been asked for.
  function Drops(members: seq<Node>, asked: nat): (r: seq<(Id, nat)>)
    ensures |r| == |members|
  {
    seq(|members|, i requires 0 <= i < |members| => (members[i].id, asked))
  }

  /**
   The deletions of a purge: the references of the subtree, parents first, up to the first `count` of them. Unless
   it was cancelled that is all of them, and so everything below the node; and then, not before, the documents,
   parents first.
   */
  ghost predicate Purges(db: Db, id: Id, asked: seq<MessageId>, dropped: seq<(Id, nat)>, total: nat, count: nat, cancelled: bool) {
    && (exists members: seq<Node> ::
          && Subtree.Distinct(db, members) && Subtree.ParentsFirst(members)
          && (forall c :: Subtree.Listed(members, c) <==> Subtree.Descends(db, id, c))
          && (if cancelled then count < |AttachmentList(members)| else count == |AttachmentList(members)|)
          && asked == AttachmentList(members)[..count] && dropped == if cancelled then [] else Drops(members, total))
    && (!cancelled ==> Elements(asked) == Below(db, id))
  }

  lemma SubtreePurged(db: Db, out: seq<Node>, total: nat, count: nat, cancelled: bool)
    requires Keyed(db) && out != [] && Subtree.Distinct(db, out) && Subtree.ParentsFirst(out) && count <= |AttachmentList(out)|
    requires forall c :: Subtree.Listed(out, c) <==> Subtree.Descends(db, out[0].id, c)
    requires if cancelled then count < |AttachmentList(out)| else count == |AttachmentList(out)|
    ensures Purges(db, out[0].id, AttachmentList(out)[..count], if cancelled then [] else Drops(out, total), total, count, cancelled)
  {
    hide Subtree.Distinct, Subtree.ParentsFirst, Subtree.Descends, Subtree.Listed, AttachmentList, Below, Elements, Drops;
    if !cancelled {
      ListIsBelow(db, out[0].id, out);
      assert AttachmentList(out)[..count] == AttachmentList(out);
    }
  }

  lemma PurgeIsBelow(db: Db, id: Id, asked: seq<MessageId>, dropped: seq<(Id, nat)>, total: nat, count: nat)
    requires Purges(db, id, asked, dropped, total, count, false)
    ensures Elements(asked) == Below(db, id)
  {
  }

  // Asking for some and then for more.
  lemma DeletesMore(a: set<MessageId>, b: set<MessageId>, c: set<MessageId>, first: seq<MessageId>, second: seq<MessageId>, k: nat, l: nat)
    requires Deletes(a, b, first, k) && Deletes(b, c, second, l)
    ensures Deletes(a, c, first + second, k + l)
  {
    assert Elements(first + second) == Elements(first) + Elements(second);
  }
}
