/**
 `DiscordVFS` (src/vfs.py): the tree operations, each a sequence of single-document writes.

 `log` holds the database after every write made so far, with the version cache as it then stood. An
 operation that is stopped, or raises, between two writes leaves one of the states in the log; so what
 `Valid` says of the whole log holds after an interruption at any point.
 */
module Vfs {
  import opened Wrappers
  import opened Bytes
  import opened Tags
  import opened Tree
  import opened Paths
  import opened DirectoryTags
  import opened Structure
  import opened Operations
  import opened FileContent
  import opened Attachments
  import opened VfsFacts
  import opened RollbackFacts
  import opened OverwriteFacts
  import opened RenameFacts
  import Subtree
  import TrashView

  class DiscordVfs {
    const root: Id
    var nodes: Db
    var versions: map<Id, Tag>
    var messages: set<MessageId>
    ghost var log: seq<State>
    ghost var tried: seq<MessageId>              // the deletions Discord was asked for by a purge or an unwinding
    ghost var refused: nat                       // how many of them it refused
    ghost var dropped: seq<(Id, nat)>            // the documents deleted, each with how many deletions had been asked for

    ghost predicate Valid()
      reads this`nodes, this`versions, this`log
    {
      log != [] && log[|log| - 1] == State(nodes, versions) && forall i :: 0 <= i < |log| ==> Steady(log[i], root)
    }

    // What even a write that leaves some directory unlisted keeps: every database so far signed and well shaped.
    ghost predicate Standing()
      reads this`nodes, this`versions, this`log
    {
      log != [] && log[|log| - 1] == State(nodes, versions) && forall i :: 0 <= i < |log| ==> Upright(log[i], root)
    }

    lemma Stands()
      requires Valid()
      ensures Standing() && Upright(State(nodes, versions), root)
    {
      hide Shape, Covered;
    }

    ghost predicate Unchanged(s: State)
      reads this`nodes, this`versions
    {
      nodes == s.nodes && versions == s.versions
    }

    constructor (root: Id, nodes: Db, versions: map<Id, Tag>, messages: set<MessageId>)
      requires Steady(State(nodes, versions), root)
      ensures Valid() && this.root == root && Unchanged(State(nodes, versions)) && this.messages == messages
    {
      this.root, this.nodes, this.versions, this.messages := root, nodes, versions, messages;
      log, tried, refused, dropped := [State(nodes, versions)], [], 0, [];
    }

    lemma Current()
      requires Valid()
      ensures Steady(State(nodes, versions), root)
    {
      assert Steady(log[|log| - 1], root);
    }

    // ---------------------------------------------------------------- single writes

    method Put(n: Node)
      requires Valid() && Shape(nodes[n.id := n], root) && Covered(nodes[n.id := n])
      modifies this`nodes, this`versions, this`log
      ensures Valid() && nodes == old(nodes)[n.id := n] && versions == Noted(old(versions), n)
      ensures log == old(log) + [State(nodes, versions)]
    {
      hide Shape, Covered;
      assert Steady(log[|log| - 1], root);
      nodes := nodes[n.id := n];
      versions := Noted(versions, n);
      log := log + [State(nodes, versions)];
    }

    // A directory's two entry tags; the update matches nothing if the directory has gone.
    method PutTags(d: Id, entriesMac: Option<Tag>, pending: Option<Tag>)
      requires Valid()
      requires IsDir(nodes, d) ==> var n := nodes[d].(entriesMac := entriesMac, pending := pending);
                                   Shape(nodes[d := n], root) && Covered(nodes[d := n])
      modifies this`nodes, this`log
      ensures Valid() && log == old(log) + [State(nodes, versions)]
      ensures IsDir(old(nodes), d) ==> nodes == old(nodes)[d := old(nodes)[d].(entriesMac := entriesMac, pending := pending)]
      ensures !IsDir(old(nodes), d) ==> nodes == old(nodes)
    {
      hide Shape, Covered;
      assert Steady(log[|log| - 1], root);
      if IsDir(nodes, d) { nodes := nodes[d := nodes[d].(entriesMac := entriesMac, pending := pending)]; }
      log := log + [State(nodes, versions)];
    }

    method Remove(id: Id)
      requires Valid() && Shape(nodes - {id}, root) && Covered(nodes - {id})
      modifies this`nodes, this`versions, this`log, this`dropped
      ensures Valid() && nodes == old(nodes) - {id} && versions == old(versions) - {id}
      ensures log == old(log) + [State(nodes, versions)] && dropped == old(dropped) + [(id, |tried|)]
    {
      hide Shape, Covered;
      assert Steady(log[|log| - 1], root);
      nodes := nodes - {id};
      versions := versions - {id};
      log := log + [State(nodes, versions)];
      dropped := dropped + [(id, |tried|)];
    }

    // One write, whatever it does to the listings.
    method Write(db: Db, versions': map<Id, Tag>)
      requires Standing() && Upright(State(db, versions'), root)
      modifies this`nodes, this`versions, this`log
      ensures Standing() && nodes == db && versions == versions' && log == old(log) + [State(db, versions')]
      ensures old(Valid()) && Covered(db) ==> Valid()
    {
      hide Shape, Covered, VersionsAgree;
      nodes, versions := db, versions';
      log := log + [State(nodes, versions)];
    }

    // A document deleted, whatever that does to the listings.
    method Drop(id: Id)
      requires Standing() && Upright(State(nodes - {id}, versions - {id}), root)
      modifies this`nodes, this`versions, this`log, this`dropped
      ensures Standing() && nodes == old(nodes) - {id} && versions == old(versions) - {id}
      ensures log == old(log) + [State(nodes, versions)] && dropped == old(dropped) + [(id, |tried|)]
    {
      Write(nodes - {id}, versions - {id});
      dropped := dropped + [(id, |tried|)];
    }

    /**
     `_stage_entries`: refuses a directory that is not there or does not verify, and otherwise parks the tag over
     what the children are about to be. That overwrites whatever was pending, so until the change is made the
     directory verifies if and only if its promoted tag matches, or the staged listing is the present one.
     */
    method StageEntries(d: Id, add: set<Entry>, remove: set<Entry>) returns (r: Outcome<Tag, VfsError>)
      requires Standing()
      modifies this`nodes, this`versions, this`log
      ensures Standing() && versions == old(versions)
      ensures r.Raised? <==> !IsDir(old(nodes), d) || !Accepts(old(nodes), d)
      ensures r.Raised? ==> r.error == (if IsDir(old(nodes), d) then Integrity else NotFound)
                            && nodes == old(nodes) && log == old(log)
      ensures r.Ok? ==> r.value == StagedMac(old(nodes), d, add, remove) && nodes == Staged(old(nodes), d, r.value)
                        && log == old(log) + [State(nodes, versions)]
      ensures r.Ok? ==> IsDir(nodes, d)
                        && (Accepts(nodes, d) <==> Promoted(old(nodes), d) || r.value == EntriesMac(d, ChildPairs(old(nodes), d)))
      ensures old(Valid()) && (IsDir(old(nodes), d) ==> Promoted(old(nodes), d)) ==> Valid()
    {
      hide Shape, Covered, VersionsAgree, DiscordVfs.Valid;
      if !IsDir(nodes, d) {
        r := Raised(NotFound);
      } else if !Accepts(nodes, d) {
        r := Raised(Integrity);
      } else {
        var tag := StagedMac(nodes, d, add, remove);
        assert Upright(log[|log| - 1], root);
        TagsUpright(State(nodes, versions), root, d, nodes[d].entriesMac, Some(tag));
        ShapeSays(nodes, root);
        StagingCoversExactly(nodes, d, tag);
        if Valid() && Promoted(nodes, d) {
          Known();
          StageStep(nodes, root, d, tag);
        }
        hide Accepts, Promoted, ChildPairs, StagedMac;
        Write(nodes[d := nodes[d].(pending := Some(tag))], versions);
        r := Ok(tag);
      }
    }

    // The second half of it: promote. A directory that has gone meanwhile is left alone.
    method CommitEntries(d: Id, tag: Tag)
      requires Valid() && (IsDir(nodes, d) ==> tag == EntriesMac(d, ChildPairs(nodes, d)))
      modifies this`nodes, this`log
      ensures Valid() && nodes == Settled(old(nodes), d) && (IsDir(nodes, d) ==> Promoted(nodes, d))
      ensures log == old(log) + [State(nodes, versions)]
    {
      Current();
      PromoteStep(nodes, root, d, tag);
      PutTags(d, Some(tag), None);
    }

    /**
     Stage, write, promote: how every operation puts one document into one directory, or renames one inside it.
     */
    method Enter(d: Id, n: Node) returns (r: Outcome<(), VfsError>)
      requires Valid() && Fits(nodes, root, n) && Enters(nodes, d, n) && (IsDir(nodes, d) ==> Promoted(nodes, d))
      modifies this`nodes, this`versions, this`log
      ensures Valid()
      ensures r.Raised? <==> !IsDir(old(nodes), d)
      ensures r.Raised? ==> r.error == NotFound && Unchanged(old(State(nodes, versions))) && log == old(log)
      ensures r.Ok? ==> nodes == Settled(old(nodes)[n.id := n], d) && versions == Noted(old(versions), n)
                        && KeepsPromoted(old(nodes), nodes)
                        && log == old(log) + EnterLog(old(nodes), old(versions), versions, d, n)
    {
      hide Shape, Covered, Fits, Settled, KeepsPromoted, DiscordVfs.Valid, EnterTag, Promoted;
      Known();
      if IsDir(nodes, d) { EnterDone(nodes, root, d, n); PromotedSettles(nodes, root, d, n); }
      r := EnterUpTo(d, n, 3);
    }

    lemma PromotedSettles(db: Db, root: Id, d: Id, n: Node)
      requires Shape(db, root) && Covered(db) && IsDir(db, d) && Promoted(db, d) && Fits(db, root, n) && Enters(db, d, n)
      ensures KeepsPromoted(db, Settled(db[n.id := n], d))
    {
      hide Shape, Covered, Promoted, Fits, Enters, KeepsPromoted, Settled, EnterTag;
      EnterDone(db, root, d, n);
    }

    // The same, when the database takes `reach` of the three writes and then fails.
    method EnterUpTo(d: Id, n: Node, reach: nat) returns (r: Outcome<(), VfsError>)
      requires Valid() && Fits(nodes, root, n) && Enters(nodes, d, n) && (IsDir(nodes, d) ==> Promoted(nodes, d))
      modifies this`nodes, this`versions, this`log
      ensures Valid()
      ensures (r.Raised? && r.error == NotFound) <==> !IsDir(old(nodes), d)
      ensures !IsDir(old(nodes), d) ==> Unchanged(old(State(nodes, versions))) && log == old(log)
      ensures r.Raised? ==> r.error in {NotFound, Interrupted}
      ensures IsDir(old(nodes), d) ==>
                && (r.Ok? <==> reach >= 3)
                && log == old(log) + EnterLog(old(nodes), old(versions), Noted(old(versions), n), d, n)[..if reach < 3 then reach else 3]
      ensures r.Ok? ==> nodes == Settled(old(nodes)[n.id := n], d) && versions == Noted(old(versions), n)
    {
      hide Shape, Covered, Fits, Settled, DiscordVfs.Valid, Promoted, Accepts;
      ghost var db, full := nodes, if IsDir(nodes, d) then EnterLog(nodes, versions, Noted(versions, n), d, n) else [];
      Known();
      Stands();
      r := Raised(if IsDir(nodes, d) then Interrupted else NotFound);
      if IsDir(nodes, d) {
        PromotedAccepts(nodes, d);
        EnterStep(db, root, d, n);
        EnterDone(db, root, d, n);
        PromoteStep(Staged(db, d, EnterTag(db, d, n))[n.id := n], root, d, EnterTag(db, d, n));
        hide Enters;
        if reach > 0 {
          var staged := StageEntries(d, {Pair(n)}, Leaving(nodes, d, n.id));
          assert log == old(log) + full[..1];
          if reach > 1 {
            Put(n);
            assert log == old(log) + full[..2];
            if reach > 2 {
              CommitEntries(d, staged.value);
              assert log == old(log) + full[..3];
              r := Ok(());
            }
          }
        }
      }
    }

    lemma PromotedAccepts(db: Db, d: Id)
      requires IsDir(db, d) && Promoted(db, d)
      ensures Accepts(db, d)
    {
    }

    // `require_dir`.
    method RequireDir(path: Path) returns (r: Outcome<Node, VfsError>)
      requires Valid()
      ensures r.Ok? ==> r.value.id in nodes && nodes[r.value.id] == r.value && r.value.DirNode?
                        && PathTo(nodes, root, path, r.value.id)
      ensures r.Raised? ==> !ResolvesToDir(nodes, root, path)
                            && r.error == if Resolves(nodes, root, path) then NotADirectory else NotFound
    {
      Known();
      var node := GetNode(nodes, root, path);
      if node.None? {
        r := Raised(NotFound);
      } else if !node.value.DirNode? {
        forall id | PathTo(nodes, root, path, id) ensures id == node.value.id {
          PathToOnce(nodes, root, path, id, node.value.id);
        }
        r := Raised(NotADirectory);
      } else {
        r := Ok(node.value);
      }
    }

    // What `makedir` and `_create_file` share: a new document under a directory that has no such name.
    method AddChild(path: Path, id: Id, isDir: bool) returns (r: Outcome<Node, VfsError>)
      requires Valid() && Unused(nodes, id) && id != [] && id != root
      requires path != [] && !Resolves(nodes, root, path) && ReadyAt(nodes, root, path[..|path| - 1])
      modifies this`nodes, this`versions, this`log
      ensures Valid() && old(log) <= log && KeepsPromoted(old(nodes), nodes)
      ensures r.Raised? <==> !ResolvesToDir(old(nodes), root, path[..|path| - 1])
      ensures r.Raised? ==> Unchanged(old(State(nodes, versions)))
                            && r.error == if Resolves(nodes, root, path[..|path| - 1]) then NotADirectory else NotFound
      ensures r.Ok? ==> Added(old(nodes), nodes, root, path, r.value) && r.value.id == id && r.value.DirNode? == isDir
                        && versions == Noted(old(versions), r.value) && id in nodes && nodes[id] == r.value
    {
      hide Shape, Covered, Settled, DiscordVfs.Valid, NameTaken, KeepsPlaces;
      ghost var db := nodes;
      Known();
      var above := path[..|path| - 1];
      var parent := RequireDir(above);
      if parent.Raised? {
        r := Raised(parent.error);
      } else {
        var d, name := parent.value.id, path[|path| - 1];
        var n := if isDir then NewDir(id, d, name) else NewFile(id, Some(d), Some(name));
        NewChildFits(db, root, path, d, n);
        EnterPaths(db, root, d, n, above);
        NewIsThere(db, d, n);
        assert above + [name] == path;
        var entered := Enter(d, n);
        r := Ok(n);
      }
    }

    method MakeDir(path: Path, id: Id) returns (r: Outcome<Node, VfsError>)
      requires Valid() && Unused(nodes, id) && id != [] && id != root
      requires path != [] ==> ReadyAt(nodes, root, path[..|path| - 1])
      modifies this`nodes, this`versions, this`log
      ensures Valid() && old(log) <= log && KeepsPromoted(old(nodes), nodes)
      ensures r.Raised? ==> Unchanged(old(State(nodes, versions)))
      ensures r.Ok? <==> !Resolves(old(nodes), root, path) && ResolvesToDir(old(nodes), root, ParentPath(path))
      ensures r.Raised? && r.error == AlreadyExists <==> Resolves(old(nodes), root, path)
      ensures r.Raised? && r.error == NotFound
              <==> !Resolves(old(nodes), root, path) && !Resolves(old(nodes), root, ParentPath(path))
      ensures r.Raised? && r.error == NotADirectory
              <==> !Resolves(old(nodes), root, path) && Resolves(old(nodes), root, ParentPath(path))
                   && !ResolvesToDir(old(nodes), root, ParentPath(path))
      ensures r.Raised? ==> r.error in {AlreadyExists, NotFound, NotADirectory}
      ensures r.Ok? ==> Added(old(nodes), nodes, root, path, r.value) && r.value.id == id && r.value.DirNode?
                        && id in nodes && nodes[id] == r.value
    {
      hide Shape, Covered, KeepsPromoted, Added, DiscordVfs.Valid;
      Known();
      if path == [] {
        assert PathTo(nodes, root, path, root);
        r := Raised(AlreadyExists);
        KeepsPromotedRefl(nodes);
      } else {
        var there := GetNode(nodes, root, path);
        if there.Some? {
          r := Raised(AlreadyExists);
          KeepsPromotedRefl(nodes);
        } else {
          r := AddChild(path, id, true);
        }
      }
    }

    // `_set_trashed`: the trash state and the tag over it, in one write. `None` brings the node back.
    method SetTrashed(id: Id, trashed: Option<nat>)
      requires Valid() && id in nodes && id != root
      requires trashed.None? && nodes[id].parentId.Some?
               ==> NameTaken(nodes, nodes[id].parentId.value, NameOf(nodes[id])) <= {id}
      modifies this`nodes, this`versions, this`log
      ensures Valid() && nodes == old(nodes)[id := WithTrash(old(nodes)[id], trashed)]
      ensures versions == Noted(old(versions), nodes[id]) && KeepsPromoted(old(nodes), nodes)
      ensures log == old(log) + [State(nodes, versions)]
    {
      Known();
      var n := WithTrash(nodes[id], trashed);
      hide DiscordVfs.Valid;
      InPlaceStep(nodes, root, n);
      Put(n);
    }

    // `trash`.
    method Trash(path: Path, now: nat) returns (r: Outcome<Id, VfsError>)
      requires Valid()
      modifies this`nodes, this`versions, this`log
      ensures Valid() && old(log) <= log && KeepsPromoted(old(nodes), nodes)
      ensures r.Raised? ==> Unchanged(old(State(nodes, versions)))
                            && r.error == if path == [] then Unsupported else NotFound
      ensures r.Raised? <==> path == [] || !Resolves(old(nodes), root, path)
      ensures r.Ok? ==> PathTo(old(nodes), root, path, r.value)
                        && nodes == old(nodes)[r.value := WithTrash(old(nodes)[r.value], Some(now))]
      ensures r.Ok? ==> !Resolves(nodes, root, path) && (now > 0 ==> TrashView.InTrashList(nodes, root, r.value))
    {
      hide Shape, Covered, DiscordVfs.Valid, NameTaken, KeepsPromoted;
      ghost var db := nodes;
      Known();
      KeepsPromotedRefl(nodes);
      var node := GetNode(nodes, root, path);
      if node.None? {
        assert path == [] ==> PathTo(nodes, root, path, root);
        r := Raised(NotFound);
      } else if node.value.id == root {
        PathIsNames(nodes, root, path, root);
        ReachesOnce(nodes, root, root, |path|, 0);
        r := Raised(Unsupported);
      } else {
        SetTrashed(node.value.id, Some(now));
        r := Ok(node.value.id);
        Known();
        TrashedDoesNotResolve(db, nodes, root, path, node.value.id);
        TrashedIsListed(db, root, path, node.value.id, now);
      }
    }

    // `restore`, up to the directory's lock.
    method Restore(id: Id, policy: Policy, now: nat) returns (r: Outcome<Restored, VfsError>)
      requires Valid()
      requires policy == KeepBoth && id in nodes && nodes[id].parentId.Some? && IsDir(nodes, nodes[id].parentId.value)
               && Taken(nodes, nodes[id].parentId.value, NameOf(nodes[id]))
               ==> Promoted(nodes, nodes[id].parentId.value)
      modifies this`nodes, this`versions, this`log
      ensures Valid() && old(log) <= log && KeepsPromoted(old(nodes), nodes)
      ensures r.Raised? || !r.value.restored ==> Unchanged(old(State(nodes, versions)))
      ensures (r.Raised? && r.error == NotFound)
              <==> id !in old(nodes) || old(nodes)[id].trashedAt.None? || old(nodes)[id].parentId.None?
                   || !Hangs(old(nodes), root, old(nodes)[id].parentId.value)
      ensures (r.Raised? && r.error == Unsupported)
              <==> id in old(nodes) && old(nodes)[id].trashedAt.Some? && old(nodes)[id].parentId.Some?
                   && Hangs(old(nodes), root, old(nodes)[id].parentId.value)
                   && !TrashView.PlacedLive(old(nodes), root, old(nodes)[id].parentId.value)
      ensures (r.Raised? && r.error == AlreadyExists)
              <==> id in old(nodes) && old(nodes)[id].trashedAt.Some? && old(nodes)[id].parentId.Some?
                   && TrashView.PlacedLive(old(nodes), root, old(nodes)[id].parentId.value)
                   && var p, name := old(nodes)[id].parentId.value, NameOf(old(nodes)[id]);
                      Taken(old(nodes), p, name)
                      && (policy == Fail || (policy == KeepBoth && forall k :: 2 <= k < 1000 ==> Taken(old(nodes), p, Candidate(name, k))))
      ensures r.Raised? ==> r.error in {NotFound, Unsupported, AlreadyExists}
      ensures r.Ok? ==> TrashView.PlacedLive(old(nodes), root, old(nodes)[id].parentId.value)
                        && (r.value.conflict <==> Taken(old(nodes), old(nodes)[id].parentId.value, NameOf(old(nodes)[id])))
                        && (r.value.restored <==> !(r.value.conflict && policy == Skip))
      ensures r.Ok? && r.value.restored ==>
                && r.value.path.Some? && r.value.path.value != [] && PathTo(nodes, root, r.value.path.value, id)
                && var path := r.value.path.value;
                   && ComesBack(old(nodes), nodes, id, policy, now, path[|path| - 1])
                   && OnlyRestored(old(nodes), nodes, id, policy, now, path[|path| - 1])
    {
      hide Shape, Covered, DiscordVfs.Valid, ComesBack, OnlyRestored, NameBlocks, Taken, KeepsPromoted, Gathered;
      ghost var db := nodes;
      Known();
      KeepsPromotedRefl(nodes);
      if id !in nodes || nodes[id].trashedAt.None? {
        r := Raised(NotFound);
      } else {
        ShapeSays(nodes, root);
        var place, blockedBy := AncestorsOf(nodes, root, nodes[id]);
        if nodes[id].parentId.Some? { PlaceSays(nodes, root, nodes[id], place, blockedBy); }
        if place.None? {
          r := Raised(NotFound);
        } else if blockedBy.Some? {
          r := Raised(Unsupported);
        } else {
          OwnParentApart(nodes, root, place.value, id);
          PlacedHangs(nodes, root, nodes[id].parentId.value);
          NameBlocksSays(nodes, id, policy);
          r := RestoreAt(id, place.value, policy, now);
          if r.Ok? && r.value.restored {
            OnlyRestoredShown(db, nodes, root, id, policy, now, r.value.path.value[|r.value.path.value| - 1]);
          }
        }
      }
    }

    // The part under the lock: the name, and what is decided about it.
    method RestoreAt(id: Id, place: Path, policy: Policy, now: nat) returns (r: Outcome<Restored, VfsError>)
      requires Valid() && id in nodes && id != root && nodes[id].trashedAt.Some? && nodes[id].parentId.Some?
      requires PathTo(nodes, root, place, nodes[id].parentId.value)
      requires policy == KeepBoth && IsDir(nodes, nodes[id].parentId.value)
               && Taken(nodes, nodes[id].parentId.value, NameOf(nodes[id]))
               ==> Promoted(nodes, nodes[id].parentId.value)
      modifies this`nodes, this`versions, this`log
      ensures Valid() && old(log) <= log && KeepsPromoted(old(nodes), nodes)
      ensures r.Raised? || !r.value.restored ==> Unchanged(old(State(nodes, versions)))
      ensures r.Raised? ==> r.error == AlreadyExists
      ensures r.Raised? <==> NameBlocks(old(nodes), id, policy)
      ensures r.Ok? ==> (r.value.conflict <==> Taken(old(nodes), old(nodes)[id].parentId.value, NameOf(old(nodes)[id])))
                        && (r.value.restored <==> !(r.value.conflict && policy == Skip))
      ensures r.Ok? && r.value.restored ==>
                && r.value.path.Some? && r.value.path.value != [] && PathTo(nodes, root, r.value.path.value, id)
                && var path := r.value.path.value; ComesBack(old(nodes), nodes, id, policy, now, path[|path| - 1])
    {
      hide Shape, Covered, DiscordVfs.Valid, KeepsPromoted, Settled, ComesBack, IsFreeName, PathTo;
      Known();
      KeepsPromotedRefl(nodes);
      ShapeSays(nodes, root);
      var p, name := nodes[id].parentId.value, NameOf(nodes[id]);
      var occupant := FindLive(nodes, p, name);
      assert occupant.Some? <==> Taken(nodes, p, name) by {
        if occupant.Some? { assert occupant.value.id in NameTaken(nodes, p, name); }
      }
      if occupant.Some? && policy == Skip {
        r := Ok(Restored(false, true, None));
      } else if occupant.Some? && policy == Fail {
        r := Raised(AlreadyExists);
      } else if occupant.Some? && policy == KeepBoth {
        var free := FreeName(nodes, p, name);
        if free.None? {
          r := Raised(AlreadyExists);
        } else {
          OneAnswer(nodes, p, name, free.value);
          RestoreBeside(id, place, free.value, now);
          r := Ok(Restored(true, true, Some(place + [free.value])));
        }
      } else {
        RestoreInPlace(id, place, if occupant.Some? then Some(occupant.value.id) else None, policy, now);
        r := Ok(Restored(true, occupant.Some?, Some(place + [name])));
      }
    }

    // `keep_both`: back under a free name, with the directory restaged.
    method RestoreBeside(id: Id, place: Path, name: Name, ghost now: nat)
      requires Valid() && id in nodes && id != root && nodes[id].parentId.Some?
      requires Taken(nodes, nodes[id].parentId.value, NameOf(nodes[id]))
      requires IsFreeName(nodes, nodes[id].parentId.value, NameOf(nodes[id]), Some(name))
      requires PathTo(nodes, root, place, nodes[id].parentId.value)
      requires IsDir(nodes, nodes[id].parentId.value) ==> Promoted(nodes, nodes[id].parentId.value)
      modifies this`nodes, this`versions, this`log
      ensures Valid() && old(log) <= log && KeepsPromoted(old(nodes), nodes)
      ensures PathTo(nodes, root, place + [name], id) && ComesBack(old(nodes), nodes, id, KeepBoth, now, name)
    {
      hide Shape, Covered, DiscordVfs.Valid, KeepsPromoted, Settled, Fits, Enters;
      Known();
      ShapeSays(nodes, root);
      var p := nodes[id].parentId.value;
      var n := WithTrash(nodes[id].(filename := Some(name)), None);
      RenamedFits(nodes, root, place, id, name);
      EnterPaths(nodes, root, p, n, place);
      var entered := Enter(p, n);
    }

    // Back under its own name; whoever has taken it goes to the trash.
    method RestoreInPlace(id: Id, place: Path, occupant: Option<Id>, ghost policy: Policy, now: nat)
      requires Valid() && id in nodes && id != root && nodes[id].parentId.Some? && nodes[id].trashedAt.Some?
      requires PathTo(nodes, root, place, nodes[id].parentId.value)
      requires occupant.Some? ==> LiveAt(nodes, occupant.value, nodes[id].parentId.value, NameOf(nodes[id])) && policy == Replace
      requires occupant.None? ==> !Taken(nodes, nodes[id].parentId.value, NameOf(nodes[id]))
      modifies this`nodes, this`versions, this`log
      ensures Valid() && old(log) <= log && KeepsPromoted(old(nodes), nodes)
      ensures PathTo(nodes, root, place + [NameOf(old(nodes)[id])], id)
      ensures ComesBack(old(nodes), nodes, id, policy, now, NameOf(old(nodes)[id]))
    {
      hide Shape, Covered, DiscordVfs.Valid, KeepsPromoted, PathTo, IsFreeName;
      Known();
      ghost var db := nodes;
      KeepsPromotedRefl(nodes);
      ghost var p, name := nodes[id].parentId.value, NameOf(nodes[id]);
      ShapeSays(nodes, root);
      if occupant.Some? {
        PlaceStays(nodes, root, place, p, occupant.value, now);
        NameFreed(nodes, root, occupant.value, p, name, now);
        SetTrashed(occupant.value, Some(now));
        Known();
      }
      ghost var mid := nodes;
      BackInPlace(nodes, root, place, id);
      SetTrashed(id, None);
      KeepsPromotedTransitive(db, mid, nodes);
    }

    // What asking Discord to delete these, in this order and no others, does.
    twostate predicate Asked(list: seq<MessageId>)
      reads this`tried, this`refused, this`messages
    {
      && tried == old(tried) + list && old(refused) <= refused
      && Deletes(old(messages), messages, list, refused - old(refused))
    }

    lemma NothingDeleted(messages: set<MessageId>)
      ensures Deletes(messages, messages, [], 0)
    {
    }

    // `_safe_delete_message`: a refusal is noted and stops nothing.
    method DeleteMessage(m: MessageId)
      modifies this`messages, this`tried, this`refused
      ensures Asked([m])
      ensures (messages == old(messages) - {m} && refused == old(refused)) || (messages == old(messages) && refused == old(refused) + 1)
    {
      var accepted: bool := *;
      if accepted { messages := messages - {m}; } else { refused := refused + 1; }
      tried := tried + [m];
    }

    // The loop over a subtree's attachments. `stopAfter` is how often `cancelled` is asked before it says yes.
    method ReleaseAttachments(members: seq<Node>, stopAfter: Option<nat>) returns (count: nat, cancelled: bool)
      modifies this`messages, this`tried, this`refused
      ensures count <= |AttachmentList(members)| && Asked(AttachmentList(members)[..count])
      ensures cancelled <==> stopAfter.Some? && stopAfter.value < |AttachmentList(members)|
      ensures if cancelled then count == stopAfter.value else count == |AttachmentList(members)|
    {
      hide RefsOf, RefList, AttachmentList, Deletes;
      ghost var all := AttachmentList(members);
      count, cancelled := 0, false;
      var i := 0;
      NothingAsked(members, messages);
      while i < |members| && !cancelled
        invariant i <= |members| && count <= |all| && Asked(all[..count])
        invariant !cancelled ==> all[..count] == AttachmentList(members[..i]) && (stopAfter.Some? ==> count <= stopAfter.value)
        invariant cancelled ==> stopAfter == Some(count) && count < |all|
        decreases |members| - i, !cancelled
      {
        ListStep(members, i);
        ListPrefix(members, i + 1);
        ghost var from := count;
        if members[i].FileNode? {
          NextAsked(all, members, i, from);
          ghost var midway, denied := messages, refused;
          count, cancelled := ReleaseChunks(members[i].chunks, count, stopAfter);
          ghost var next := RefList(members[i].chunks)[..count - from];
          assert all[..from] + next == all[..count];
          DeletesMore(old(messages), midway, messages, all[..from], next, denied - old(refused), refused - denied);
        } else {
          NoneOf(members[i]);
        }
        i := i + 1;
      }
      assert members[..|members|] == members;
    }

    lemma NoneOf(n: Node)
      requires n.DirNode?
      ensures RefsOf(n) == []
    {
    }

    lemma NothingAsked(members: seq<Node>, messages: set<MessageId>)
      ensures AttachmentList(members[..0]) == [] && AttachmentList(members)[..0] == [] && Deletes(messages, messages, [], 0)
    {
    }

    // Where the next file's references stand in the whole list.
    lemma NextAsked(all: seq<MessageId>, members: seq<Node>, i: nat, from: nat)
      requires i < |members| && members[i].FileNode? && AttachmentList(members[..i + 1]) <= all && from <= |all|
      requires all[..from] == AttachmentList(members[..i])
      requires AttachmentList(members[..i + 1]) == AttachmentList(members[..i]) + RefsOf(members[i])
      ensures from + |RefList(members[i].chunks)| <= |all|
      ensures all[from..from + |RefList(members[i].chunks)|] == RefList(members[i].chunks)
      ensures AttachmentList(members[..i + 1]) == all[..from + |RefList(members[i].chunks)|]
    {
      hide AttachmentList, RefList;
    }

    // One file's part of it.
    method ReleaseChunks(chunks: seq<Chunk>, before: nat, stopAfter: Option<nat>) returns (count: nat, cancelled: bool)
      requires stopAfter.Some? ==> before <= stopAfter.value
      modifies this`messages, this`tried, this`refused
      ensures before <= count <= before + |chunks| && Asked(RefList(chunks)[..count - before])
      ensures !cancelled ==> count == before + |chunks| && (stopAfter.Some? ==> count <= stopAfter.value)
      ensures cancelled ==> stopAfter == Some(count) && count < before + |chunks|
    {
      ghost var all := RefList(chunks);
      count, cancelled := before, false;
      while count - before < |chunks| && !cancelled
        invariant before <= count <= before + |chunks| && Asked(all[..count - before])
        invariant stopAfter.Some? ==> count <= stopAfter.value
        invariant cancelled ==> stopAfter == Some(count) && count < before + |chunks|
        decreases before + |chunks| - count, !cancelled
      {
        if stopAfter == Some(count) {
          cancelled := true;
        } else {
          ghost var k := count - before;
          assert all[..k + 1] == all[..k] + [all[k]];
          DeleteMessage(chunks[count - before].messageId);
          count := count + 1;
        }
      }
    }

    // What has been asked for since is the purge of `id`, as far as the list was gone through.
    twostate predicate Destroyed(db: Db, id: Id, count: nat, cancelled: bool)
      reads this`tried, this`refused, this`messages, this`dropped
    {
      && old(tried) <= tried && old(refused) <= refused && old(dropped) <= dropped
      && Deletes(old(messages), messages, tried[|old(tried)|..], refused - old(refused))
      && Purges(db, id, tried[|old(tried)|..], dropped[|old(dropped)|..], |tried|, count, cancelled)
    }

    twostate predicate Deleted(gone: set<MessageId>)
      reads this`refused, this`messages
    {
      && old(messages) - gone <= messages <= old(messages) && old(refused) <= refused
      && (refused == old(refused) ==> messages == old(messages) - gone)
    }

    /**
     `purge`: destroys a trashed node and everything under it, attachments first, then the documents, parents
     before children. `cancelled` can stop it between attachments and nowhere else, with every document in place.
     */
    method Purge(id: Id, stopAfter: Option<nat>) returns (r: Outcome<Purged, VfsError>)
      requires Valid()
      requires id in nodes && nodes[id].parentId.Some? && IsDir(nodes, nodes[id].parentId.value)
               ==> Promoted(nodes, nodes[id].parentId.value)
      modifies this
      ensures Valid() && old(log) <= log && KeepsPromoted(old(nodes), nodes) && KeepsHanging(old(nodes), nodes, root)
      ensures r.Raised? ==> Unchanged(old(State(nodes, versions))) && Asked([])
      ensures (r.Raised? && r.error == Unsupported) <==> id in old(nodes) && old(nodes)[id].trashedAt.None?
      ensures (r.Raised? && r.error == NotFound)
              <==> id !in old(nodes) || (old(nodes)[id].trashedAt.Some?
                                         && (old(nodes)[id].parentId.None? || !Hangs(old(nodes), root, old(nodes)[id].parentId.value)))
      ensures r.Raised? ==> r.error in {Unsupported, NotFound}
      ensures r.Ok? ==> old(nodes)[id].parentId.Some? && var p := old(nodes)[id].parentId.value;
                && Destroyed(old(nodes), id, r.value.attachments, r.value.cancelled)
                && (r.value.cancelled ==> stopAfter == Some(r.value.attachments))
                && (!r.value.cancelled && stopAfter.Some? ==> r.value.attachments <= stopAfter.value)
                && if r.value.cancelled
                   then nodes == Staged(old(nodes), p, LeaveTag(old(nodes), p, id)) && versions == old(versions)
                   else nodes == Settled(Without(old(nodes), id), p) && r.value.nodes == |old(nodes).Keys| - |nodes.Keys|
                        && OnlyGone(old(nodes), nodes, id)
    {
      hide Shape, Covered, DiscordVfs.Valid, KeepsPromoted, Gathered, KeepsHanging, Prunes, OnlyGone, Purges, Settled;
      Known();
      KeepsPromotedRefl(nodes);
      SameParentsHang(nodes, nodes, root);
      ShapeSays(nodes, root);
      if id !in nodes {
        r := Raised(NotFound);
      } else if nodes[id].trashedAt.None? {
        r := Raised(Unsupported);
      } else if id == root {
        r := Raised(Unsupported);
      } else {
        var place, blockedBy := AncestorsOf(nodes, root, nodes[id]);
        if nodes[id].parentId.Some? { PlaceSays(nodes, root, nodes[id], place, blockedBy); }
        if place.None? {
          r := Raised(NotFound);
        } else {
          HangingIsDir(nodes, root, nodes[id].parentId.value, id);
          OnlyGoneShown(nodes, id, nodes[id].parentId.value);
          var purged := PurgeAt(id, stopAfter);
          r := Ok(purged);
        }
      }
    }

    // The part under the lock.
    method PurgeAt(id: Id, stopAfter: Option<nat>) returns (r: Purged)
      requires Valid() && id in nodes && id != root && nodes[id].parentId.Some? && Hangs(nodes, root, nodes[id].parentId.value)
      requires IsDir(nodes, nodes[id].parentId.value) && Promoted(nodes, nodes[id].parentId.value)
      modifies this
      ensures Valid() && old(log) <= log && KeepsPromoted(old(nodes), nodes) && KeepsHanging(old(nodes), nodes, root)
      ensures Destroyed(old(nodes), id, r.attachments, r.cancelled)
      ensures r.cancelled ==> stopAfter == Some(r.attachments)
      ensures !r.cancelled && stopAfter.Some? ==> r.attachments <= stopAfter.value
      ensures var p := old(nodes)[id].parentId.value;
              if r.cancelled
              then nodes == Staged(old(nodes), p, LeaveTag(old(nodes), p, id)) && versions == old(versions)
              else nodes == Settled(Without(old(nodes), id), p) && r.nodes == |old(nodes).Keys| - |nodes.Keys|
    {
      hide Shape, Covered, DiscordVfs.Valid, KeepsPromoted, KeepsHanging, Settled, LeaveTag, Prunes, Pruned, Purges, Deletes;
      Known();
      ghost var db := nodes;
      var p := nodes[id].parentId.value;
      ShapeSays(nodes, root);
      var out := Subtree.SubtreeOf(nodes, nodes[id]);
      SubtreePrunes(nodes, root, p, out);
      assert out[0].id == id;
      var count, cancelled := PurgeListed(p, out, stopAfter);
      assert Destroyed(db, id, count, cancelled);
      PrunedSays(db, root, p, out, id);
      r := Purged(if cancelled then 0 else |out|, count, cancelled);
    }

    // Stage the parent, destroy, promote.
    method PurgeListed(p: Id, out: seq<Node>, stopAfter: Option<nat>)
      returns (count: nat, cancelled: bool)
      requires Valid() && Prunes(nodes, root, p, out) && root !in Ids(out)
      modifies this
      ensures Valid() && old(log) <= log
      ensures cancelled ==> nodes == Staged(old(nodes), p, LeaveTag(old(nodes), p, out[0].id)) && versions == old(versions)
                            && stopAfter == Some(count) && KeepsPromoted(old(nodes), nodes) && KeepsHanging(old(nodes), nodes, root)
      ensures !cancelled ==> nodes == Pruned(old(nodes), p, out) && (stopAfter.Some? ==> count <= stopAfter.value)
      ensures Destroyed(old(nodes), out[0].id, count, cancelled)
    {
      hide Shape, Covered, DiscordVfs.Valid, KeepsPromoted, KeepsHanging, Subtree.Distinct, Subtree.ParentsFirst, Hangs;
      hide AttachmentList, Below, Elements, Purges, Deletes, LeaveTag, Pruned, Drops, Settled, Promoted, EntriesMac, ChildPairs;
      ghost var db := nodes;
      var tag := BeginPurge(p, out);
      count, cancelled := ReleaseAttachments(out, stopAfter);
      SubtreePurged(db, out, |tried|, count, cancelled);
      if !cancelled {
        DeleteDocuments(db, p, out);
        CommitEntries(p, tag);
        PrunedIs(db, p, out, tag, nodes);
      }
      assert dropped[|old(dropped)|..] == if cancelled then [] else Drops(out, |tried|);
      assert tried[|old(tried)|..] == AttachmentList(out)[..count];
    }

    // The directory's tag for when they will be gone.
    method BeginPurge(p: Id, out: seq<Node>) returns (tag: Tag)
      requires Valid() && Prunes(nodes, root, p, out) && root !in Ids(out)
      modifies this`nodes, this`versions, this`log
      ensures Valid() && old(log) <= log && versions == old(versions)
      ensures tag == LeaveTag(old(nodes), p, out[0].id) && nodes == Staged(old(nodes), p, tag)
      ensures KeepsPromoted(old(nodes), nodes) && KeepsHanging(old(nodes), nodes, root)
      ensures Keyed(old(nodes)) && Shape(old(nodes), root) && Covered(old(nodes))
    {
      hide Shape, Covered, DiscordVfs.Valid, KeepsPromoted, KeepsHanging, Subtree.Distinct, Subtree.ParentsFirst, Hangs;
      Known();
      ghost var db := nodes;
      var top := out[0].id;
      ShapeSays(nodes, root);
      PruneBegins(nodes, root, p, out);
      assert out[0].id in Ids(out);
      Stands();
      StagingReady(db, root, p, top);
      var staged := StageEntries(p, NoEntries(), Leaving(nodes, p, top));
      SameParentsHang(db, nodes, root);
      tag := staged.value;
    }

    // Parents first; at no point does a directory that is still there list a child that is not.
    method DeleteDocuments(ghost db: Db, p: Id, out: seq<Node>)
      requires Valid() && Shape(db, root) && Covered(db) && Prunes(db, root, p, out) && root !in Ids(out)
      requires nodes == Staged(db, p, LeaveTag(db, p, out[0].id))
      modifies this`nodes, this`versions, this`log, this`dropped
      ensures Valid() && old(log) <= log && dropped == old(dropped) + Drops(out, |tried|)
      ensures nodes == old(nodes) - Ids(out) && versions == old(versions) - Ids(out)
      ensures LeaveTag(db, p, out[0].id) == EntriesMac(p, ChildPairs(nodes, p))
    {
      hide Shape, Covered, DiscordVfs.Valid, LeaveTag, Subtree.ParentsFirst, Subtree.Distinct;
      ghost var db1 := nodes;
      PruneBegins(db, root, p, out);
      for i := 0 to |out|
        invariant Valid() && old(log) <= log && dropped == old(dropped) + Drops(out, |tried|)[..i]
        invariant nodes == db1 - Ids(out[..i]) && versions == old(versions) - Ids(out[..i])
      {
        PruneStep(db1, root, p, out, i + 1);
        OneMoreGone(db1, out, i);
        OneMore(out, i);
        Remove(out[i].id);
      }
      PruneStep(db1, root, p, out, |out|);
      assert out[..|out|] == out;
    }

    // The occupant of a rename's target: into the trash, then purged.
    method ClearTarget(e: Id, d: Id, now: nat)
      requires Valid() && e in nodes && e != root && e != d && nodes[e].parentId == Some(d) && Hangs(nodes, root, d)
      requires IsDir(nodes, d) && Promoted(nodes, d)
      modifies this
      ensures Valid() && old(log) <= log && nodes == Cleared(old(nodes), d, e, now) && Deleted(Below(old(nodes), e))
      ensures KeepsPromoted(old(nodes), nodes) && KeepsHanging(old(nodes), nodes, root)
    {
      hide Shape, Covered, DiscordVfs.Valid, KeepsHanging, Settled, LeaveTag, Hangs, Promoted, Below, Purges, OnlyGone, Elements;
      ghost var db := nodes;
      SetTrashed(e, Some(now));
      ghost var mid := nodes;
      SameParentsHang(db, mid, root);
      assert Hangs(mid, root, d) by { HangsSay(db, mid, root, d); }
      assert KeepsAt(db, mid, {}, d);
      BelowTrashed(db, e, now);
      var purged := Purge(e, None);
      PurgeIsBelow(mid, e, tried[|old(tried)|..], dropped[|old(dropped)|..], |tried|, purged.value.attachments);
      SettledKeys(Without(mid, e), d);
      HangsChain(db, mid, nodes, root);
      KeepsPromotedTransitive(db, mid, nodes);
    }

    // The move itself, once the place is free: one directory, or two held and staged together.
    method MoveNode(id: Id, d: Id, to: Path)
      requires Valid() && to != [] && id in nodes && id != root && nodes[id].parentId.Some? && nodes[id].trashedAt.None?
      requires IsDir(nodes, nodes[id].parentId.value) && Promoted(nodes, nodes[id].parentId.value) && nodes[id].parentId != Some(id)
      requires PathTo(nodes, root, ParentPath(to), d) && IsDir(nodes, d) && Promoted(nodes, d)
      requires !Subtree.Descends(nodes, id, d) && !Taken(nodes, d, to[|to| - 1])
      modifies this`nodes, this`versions, this`log
      ensures Valid() && old(log) <= log && KeepsPromoted(old(nodes), nodes) && KeepsHanging(old(nodes), nodes, root)
      ensures nodes == MovedTo(old(nodes), old(nodes)[id].parentId.value, d, Renamed(old(nodes)[id], d, to[|to| - 1]))
      ensures PathTo(nodes, root, to, id) && KeepsPlaces(old(nodes), nodes, id)
    {
      hide Shape, Covered, DiscordVfs.Valid, KeepsHanging, KeepsPromoted, Settled, KeepsPlaces, Promoted, EntriesMac;
      Known();
      ShapeSays(nodes, root);
      ghost var db := nodes;
      var s, name := nodes[id].parentId.value, to[|to| - 1];
      var n := Renamed(nodes[id], d, name);
      MovedFits(nodes, root, id, d, name);
      hide Fits, Subtree.Descends, Taken;
      MovePaths(db, root, s, d, n, ParentPath(to));
      assert ParentPath(to) + [name] == to;
      if s == d {
        var entered := Enter(d, n);
        SettledTwice(db[n.id := n], d);
      } else {
        MoveAcross(s, d, n);
      }
    }

    // Two directories: stage both, move, promote both.
    method MoveAcross(s: Id, t: Id, n: Node)
      requires Valid() && Moves(nodes, root, s, t, n) && Promoted(nodes, s) && Promoted(nodes, t)
      modifies this`nodes, this`versions, this`log
      ensures Valid() && old(log) <= log && KeepsPromoted(old(nodes), nodes) && nodes == MovedTo(old(nodes), s, t, n)
    {
      hide Shape, Covered, DiscordVfs.Valid, KeepsPromoted, Settled, Promoted, EntriesMac, Fits;
      Known();
      ghost var db := nodes;
      BothStagedReady(db, root, s, t, n);
      MoveDone(db, root, s, t, n);
      Stands();
      PromotedAccepts(nodes, s);
      var out := StageEntries(s, NoEntries(), Leaving(nodes, s, n.id));
      PromotedAccepts(nodes, t);
      var into := StageEntries(t, {Pair(n)}, {});
      Put(n);
      ghost var db3 := nodes;
      MovePromoted(db, db3, root, s, t);
      CommitEntries(s, out.value);
      CommitEntries(t, into.value);
    }

    /**
     `rename`: the node is at the new path and nowhere else; what was there is destroyed; nothing else moves,
     and nothing comes loose from the tree. The errors are those of the first check that fails.
     */
    method Rename(from: Path, to: Path, overwrite: bool, now: nat) returns (r: Outcome<(), VfsError>)
      requires Valid() && ReadyAt(nodes, root, ParentPath(from)) && ReadyAt(nodes, root, ParentPath(to))
      modifies this
      ensures Valid() && old(log) <= log && KeepsPromoted(old(nodes), nodes) && KeepsHanging(old(nodes), nodes, root)
      ensures r.Ok?
              <==> from != [] && to != [] && Resolves(old(nodes), root, from)
                   && (from == to
                       || (!(ResolvesToDir(old(nodes), root, from) && from <= to) && ResolvesToDir(old(nodes), root, ParentPath(to))
                           && (Resolves(old(nodes), root, to) ==> overwrite && !LiveBelow(old(nodes), root, to))))
      ensures r.Raised? ==> r.error in {Unsupported, NotFound, NotADirectory, AlreadyExists, NotEmpty}
      ensures r.Raised? && r.error == Unsupported
              <==> from == [] || (to != [] && from != to && ResolvesToDir(old(nodes), root, from) && from <= to)
      ensures r.Raised? && r.error == NotFound
              <==> from != [] && to != []
                   && (!Resolves(old(nodes), root, from)
                       || (from != to && !(ResolvesToDir(old(nodes), root, from) && from <= to)
                           && !Resolves(old(nodes), root, ParentPath(to))))
      ensures r.Raised? && r.error == NotADirectory
              <==> from != [] && to != [] && from != to && Resolves(old(nodes), root, from)
                   && !(ResolvesToDir(old(nodes), root, from) && from <= to)
                   && Resolves(old(nodes), root, ParentPath(to)) && !ResolvesToDir(old(nodes), root, ParentPath(to))
      ensures r.Raised? && r.error == AlreadyExists
              <==> from != []
                   && (to == [] || (from != to && Resolves(old(nodes), root, from)
                                    && !(ResolvesToDir(old(nodes), root, from) && from <= to)
                                    && ResolvesToDir(old(nodes), root, ParentPath(to)) && Resolves(old(nodes), root, to) && !overwrite))
      ensures r.Raised? || from == to ==> Unchanged(old(State(nodes, versions))) && Asked([])
      ensures r.Ok? && from != to ==> forall id :: PathTo(old(nodes), root, from, id) ==>
                && PathTo(nodes, root, to, id) && !Resolves(nodes, root, from) && OnlyMoved(old(nodes), nodes, root, id, to)
                && RenameEffect(old(nodes), nodes, root, id, to, now)
      ensures r.Ok? && from != to ==> Cleans(to)
    {
      hide Shape, Covered, DiscordVfs.Valid, KeepsPromoted, KeepsHanging, PathTo, LiveBelow, OnlyMoved, RenameEffect, Hangs, Below;
      Known();
      KeepsPromotedRefl(nodes);
      SameParentsHang(nodes, nodes, root);
      ShapeSays(nodes, root);
      if from == [] {
        r := Raised(Unsupported);
      } else if to == [] {
        r := Raised(AlreadyExists);
      } else {
        var node := GetNode(nodes, root, from);
        if node.None? {
          r := Raised(NotFound);
        } else if from == to {
          r := Ok(());
        } else {
          forall x | PathTo(nodes, root, from, x) ensures x == node.value.id {
            PathToOnce(nodes, root, from, x, node.value.id);
          }
          OneNode(nodes, root, from, node.value.id);
          if node.value.DirNode? && from <= to {
            r := Raised(Unsupported);
          } else {
            r := RenameTo(node.value.id, from, to, overwrite, now);
          }
        }
      }
    }

    // From the target's directory on, under both locks.
    method RenameTo(id: Id, from: Path, to: Path, overwrite: bool, now: nat) returns (r: Outcome<(), VfsError>)
      requires Valid() && from != [] && to != [] && from != to && PathTo(nodes, root, from, id)
      requires !(ResolvesToDir(nodes, root, from) && from <= to)
      requires ReadyAt(nodes, root, ParentPath(from)) && ReadyAt(nodes, root, ParentPath(to))
      modifies this
      ensures Valid() && old(log) <= log && KeepsPromoted(old(nodes), nodes) && KeepsHanging(old(nodes), nodes, root)
      ensures r.Ok? <==> ResolvesToDir(old(nodes), root, ParentPath(to))
                         && (Resolves(old(nodes), root, to) ==> overwrite && !LiveBelow(old(nodes), root, to))
      ensures r.Raised? ==> r.error in {NotFound, NotADirectory, AlreadyExists, NotEmpty}
      ensures r.Raised? && r.error == NotFound <==> !Resolves(old(nodes), root, ParentPath(to))
      ensures r.Raised? && r.error == NotADirectory
              <==> Resolves(old(nodes), root, ParentPath(to)) && !ResolvesToDir(old(nodes), root, ParentPath(to))
      ensures r.Raised? && r.error == AlreadyExists
              <==> ResolvesToDir(old(nodes), root, ParentPath(to)) && Resolves(old(nodes), root, to) && !overwrite
      ensures r.Raised? ==> Unchanged(old(State(nodes, versions))) && Asked([])
      ensures r.Ok? ==> id in old(nodes) && old(nodes)[id].parentId.Some? && PathTo(nodes, root, to, id)
                        && !Resolves(nodes, root, from) && OnlyMoved(old(nodes), nodes, root, id, to)
                        && RenameEffect(old(nodes), nodes, root, id, to, now) && Cleans(to)
    {
      hide Shape, Covered, DiscordVfs.Valid, KeepsPromoted, KeepsHanging, PathTo, RenameEffect, OnlyMoved, Hangs, Promoted, UniqueLive, Signed;
      hide DirsAbove, Named, Keyed, Below;
      Known();
      KeepsPromotedRefl(nodes);
      SameParentsHang(nodes, nodes, root);
      ShapeSays(nodes, root);
      assert Resolves(nodes, root, from);
      var parent := RequireDir(ParentPath(to));
      if parent.Raised? {
        r := Raised(parent.error);
      } else {
        assert Resolves(nodes, root, ParentPath(to)) && ResolvesToDir(nodes, root, ParentPath(to));
        var existing := GetNode(nodes, root, to);
        if existing.Some? && !overwrite {
          assert Resolves(nodes, root, to);
          r := Raised(AlreadyExists);
        } else {
          var live := false;
          if existing.Some? {
            live := LiveChildren(existing.value.id);
            OneNode(nodes, root, to, existing.value.id);
            forall e | PathTo(nodes, root, to, e) ensures e == existing.value.id {
              PathToOnce(nodes, root, to, e, existing.value.id);
            }
          }
          if live {
            r := Raised(NotEmpty);
          } else {
            Relocate(id, from, to, parent.value.id, if existing.Some? then Some(existing.value.id) else None, now);
            r := Ok(());
          }
        }
      }
    }

    // What was at `path`, if anything, has been destroyed with its attachments, and no others.
    twostate predicate Cleans(path: Path)
      reads this
    {
      && (!Resolves(old(nodes), root, path) ==> Asked([]))
      && forall e :: PathTo(old(nodes), root, path, e) ==> Deleted(Below(old(nodes), e))
    }

    // `live_children`, as far as `rename` asks; of a file there are none.
    method LiveChildren(d: Id) returns (r: bool)
      requires Keyed(nodes)
      ensures r <==> HasLiveChild(nodes, d)
    {
      var kids := set c | c in nodes && IsChild(nodes, c, d) && nodes[c].trashedAt.None?;
      r := kids != {};
      if HasLiveChild(nodes, d) {
        var c :| IsChild(nodes, c, d) && nodes[c].trashedAt.None?;
        assert c in kids;
      }
    }

    method Relocate(id: Id, ghost from: Path, to: Path, d: Id, occupant: Option<Id>, now: nat)
      requires Valid() && from != [] && to != [] && from != to && PathTo(nodes, root, from, id)
      requires !(ResolvesToDir(nodes, root, from) && from <= to)
      requires ReadyAt(nodes, root, ParentPath(from)) && PathTo(nodes, root, ParentPath(to), d) && IsDir(nodes, d) && Promoted(nodes, d)
      requires occupant.Some? ==> PathTo(nodes, root, to, occupant.value) && !HasLiveChild(nodes, occupant.value)
      requires occupant.None? ==> !Resolves(nodes, root, to)
      modifies this
      ensures Valid() && old(log) <= log && KeepsPromoted(old(nodes), nodes) && KeepsHanging(old(nodes), nodes, root)
      ensures id in old(nodes) && old(nodes)[id].parentId.Some? && PathTo(nodes, root, to, id)
      ensures RenameEffect(old(nodes), nodes, root, id, to, now) && OnlyMoved(old(nodes), nodes, root, id, to)
      ensures !Resolves(nodes, root, from)
      ensures if occupant.Some? then Deleted(Below(old(nodes), occupant.value)) else Asked([])
    {
      hide Shape, Covered, DiscordVfs.Valid, KeepsPromoted, KeepsHanging, Hangs, PathTo, KeepsPlaces, MovedTo, OnlyMoved, RenameEffect;
      hide Below, HasLiveChild, Resolves, Promoted, Freed, Deletes;
      Known();
      ghost var db := nodes;
      RelocateReady(db, root, id, from, to, d);
      ShapeSays(db, root);
      FreePlace(id, from, to, d, occupant, now);
      ghost var mid := nodes;
      MoveNode(id, d, to);
      Known();
      MovedKeys(mid, db[id].parentId.value, d, Renamed(db[id], d, to[|to| - 1]));
      KeepsPromotedTransitive(db, mid, nodes);
      HangsChain(db, mid, nodes, root);
      MoveShown(db, mid, nodes, root, id, from, to, d, occupant, now);
    }

    // Whoever is at the target is destroyed; the move can then be made.
    method FreePlace(id: Id, ghost from: Path, to: Path, d: Id, occupant: Option<Id>, now: nat)
      requires Valid() && from != [] && to != [] && from != to && PathTo(nodes, root, from, id)
      requires !(ResolvesToDir(nodes, root, from) && from <= to)
      requires ReadyAt(nodes, root, ParentPath(from)) && PathTo(nodes, root, ParentPath(to), d) && IsDir(nodes, d) && Promoted(nodes, d)
      requires occupant.Some? ==> PathTo(nodes, root, to, occupant.value) && !HasLiveChild(nodes, occupant.value)
      requires occupant.None? ==> !Resolves(nodes, root, to)
      modifies this
      ensures Valid() && old(log) <= log && KeepsPromoted(old(nodes), nodes) && KeepsHanging(old(nodes), nodes, root)
      ensures Freed(old(nodes), nodes, root, to, d, occupant, now) && nodes.Keys <= old(nodes).Keys
      ensures id in nodes && id in old(nodes) && nodes[id] == old(nodes)[id] && nodes[id].parentId.Some? && id != d
      ensures IsDir(nodes, nodes[id].parentId.value) && Promoted(nodes, nodes[id].parentId.value)
      ensures PathTo(nodes, root, ParentPath(to), d) && IsDir(nodes, d) && Promoted(nodes, d)
      ensures !Subtree.Descends(nodes, id, d) && !Taken(nodes, d, to[|to| - 1])
      ensures if occupant.Some? then Deleted(Below(old(nodes), occupant.value)) else Asked([])
    {
      hide Shape, Covered, DiscordVfs.Valid, KeepsPromoted, KeepsHanging, Hangs, PathTo, Cleared, Below, Deletes;
      Known();
      ghost var db := nodes;
      RelocateReady(db, root, id, from, to, d);
      assert id != d by { assert Subtree.Under(db, id, id, 0); }
      KeepsPromotedRefl(nodes);
      SameParentsHang(nodes, nodes, root);
      ShapeSays(db, root);
      if occupant.Some? {
        TargetIsApart(db, root, from, id, to, occupant.value, d);
        PathHangs(db, root, ParentPath(to), d);
        ClearTarget(occupant.value, d, now);
        AfterClearing(db, root, id, from, to, d, occupant.value, now);
      } else {
        FreeTarget(db, root, to, d);
        NothingDeleted(messages);
      }
      MoveReady(db, nodes, db[id].parentId.value, d);
    }

    // `_begin_overwrite`: an empty node in no directory.
    method BeginOverwrite(id: Id) returns (n: Node)
      requires Valid() && Unused(nodes, id) && id != [] && id != root
      modifies this`nodes, this`versions, this`log
      ensures Valid() && n == NewFile(id, None, None) && nodes == old(nodes)[id := n] && KeepsPromoted(old(nodes), nodes)
      ensures log == old(log) + [State(nodes, versions)]
    {
      Known();
      n := NewFile(id, None, None);
      hide DiscordVfs.Valid;
      DetachedStep(nodes, root, n);
      Put(n);
    }

    // A content commit: size, chunks and the tag over both, in one write.
    method WriteContent(id: Id, size: nat, chunks: seq<Chunk>)
      requires Valid() && id in nodes && nodes[id].FileNode?
      modifies this`nodes, this`versions, this`log
      ensures Valid() && nodes == old(nodes)[id := WithContent(old(nodes)[id], size, chunks)]
      ensures KeepsPromoted(old(nodes), nodes) && log == old(log) + [State(nodes, versions)]
    {
      Known();
      hide DiscordVfs.Valid;
      ContentFits(nodes, root, id, size, chunks);
      InPlaceStep(nodes, root, WithContent(nodes[id], size, chunks));
      Put(WithContent(nodes[id], size, chunks));
    }

    /**
     `_finish_overwrite`: whoever lives under the name goes to the trash, and the incoming node takes the name.
     The database takes `reach` of the writes and then fails.
     */
    method FinishOverwrite(id: Id, d: Id, name: Name, now: nat, reach: nat) returns (r: Outcome<(), VfsError>)
      requires Valid() && id in nodes && nodes[id].FileNode? && nodes[id].parentId.None? && nodes[id].trashedAt.None?
      requires IsDir(nodes, d) ==> Promoted(nodes, d)
      modifies this`nodes, this`versions, this`log
      ensures Valid() && old(log) <= log
      ensures (r.Raised? && r.error == IsADirectory) <==> exists o :: LiveAt(old(nodes), o, d, name) && IsDir(old(nodes), o)
      ensures r.Raised? && r.error == IsADirectory ==> Unchanged(old(State(nodes, versions))) && log == old(log)
      ensures r.Raised? && r.error == NotFound ==> !IsDir(old(nodes), d) && Detached(nodes, id)
      ensures r.Raised? ==> r.error in {IsADirectory, NotFound, Interrupted}
      ensures r.Ok? ==> IsDir(old(nodes), d) && reach >= 3
      ensures r.Raised? && r.error == Interrupted ==> reach < 4
      ensures !(r.Raised? && r.error == IsADirectory) && IsDir(old(nodes), d) ==> forall o :: LiveAt(old(nodes), o, d, name) ==>
                && SwapLog(old(nodes), log[|old(log)|..], o, id, d, name, now)
                && |log| - |old(log)| == (if reach < 4 then reach else 4) && (r.Ok? <==> reach >= 4)
      ensures r.Ok? && NameTaken(old(nodes), d, name) == {}
              ==> nodes == Settled(old(nodes)[id := Renamed(old(nodes)[id], d, name)], d)
    {
      hide Shape, Covered, DiscordVfs.Valid, KeepsPromoted, Settled, SwapLog, NameTaken, Promoted, EnterTag, Renamed, Noted, UniqueLive, Signed, DirsAbove, Named, Rooted;
      Known();
      ShapeSays(nodes, root);
      ghost var db, was := nodes, log;
      var occupant := FindLive(nodes, d, name);
      if occupant.Some? && occupant.value.DirNode? {
        r := Raised(IsADirectory);
      } else {
        OnlyOccupant(nodes, root, d, name, if occupant.Some? then Some(occupant.value.id) else None);
        if occupant.None? {
          r := AttachIncoming(id, d, name, reach);
        } else if reach == 0 {
          r := Raised(Interrupted);
          if IsDir(db, d) {
            assert log[|was|..] == [];
            NothingSwapped(db, root, occupant.value.id, id, d, name, now);
          }
        } else {
          NameFreed(nodes, root, occupant.value.id, d, name, now);
          SetTrashed(occupant.value.id, Some(now));
          ghost var mid := State(nodes, versions);
          StillPromoted(db, nodes, d);
          r := AttachIncoming(id, d, name, reach - 1);
          if IsDir(db, d) {
            SwapLogShown(db, log[|was|..], occupant.value.id, id, d, name, now, mid, Noted(mid.versions, Renamed(mid.nodes[id], d, name)));
          }
        }
        assert forall o :: LiveAt(db, o, d, name) ==> occupant.Some? && o == occupant.value.id;
      }
    }

    // Stage, rename, promote, once the name is free.
    method AttachIncoming(id: Id, d: Id, name: Name, reach: nat) returns (r: Outcome<(), VfsError>)
      requires Valid() && id in nodes && nodes[id].FileNode? && nodes[id].parentId.None?
      requires (IsDir(nodes, d) ==> Promoted(nodes, d)) && NameTaken(nodes, d, name) == {}
      modifies this`nodes, this`versions, this`log
      ensures Valid() && (r.Raised? ==> r.error in {NotFound, Interrupted})
      ensures (r.Raised? && r.error == NotFound) <==> !IsDir(old(nodes), d)
      ensures !IsDir(old(nodes), d) ==> Unchanged(old(State(nodes, versions))) && log == old(log)
      ensures IsDir(old(nodes), d) ==>
                && (r.Ok? <==> reach >= 3)
                && var n := Renamed(old(nodes)[id], d, name);
                   log == old(log) + EnterLog(old(nodes), old(versions), Noted(old(versions), n), d, n)[..if reach < 3 then reach else 3]
      ensures r.Ok? ==> nodes == Settled(old(nodes)[id := Renamed(old(nodes)[id], d, name)], d)
    {
      hide Shape, Covered, DiscordVfs.Valid, Settled, Fits, Enters, NameTaken, Promoted, EnterTag;
      Known();
      ShapeSays(nodes, root);
      if IsDir(nodes, d) {
        AttachFits(nodes, root, id, d, name);
        r := EnterUpTo(d, Renamed(nodes[id], d, name), reach);
      } else {
        r := Raised(NotFound);
      }
    }

    /**
     `_rollback`, for a file its handle created: out of the directory the handle believes it is in, attachments
     and document destroyed. Every database it leaves is `Unwinding`'s; they all verify if and only if the
     handle was right about the directory and the name, or the document stayed.
     */
    method Rollback(id: Id, b: Belief, chunks: seq<Chunk>, takes: Takes) returns (removed: bool)
      requires Standing() && id != root
      modifies this
      ensures Standing() && log == old(log) + Unwinding(old(State(nodes, versions)), id, b, takes)
      ensures Asked(RefList(chunks))
      ensures dropped == old(dropped) || dropped == old(dropped) + [(id, |tried|)]
      ensures id in old(nodes) && id !in nodes ==> dropped != old(dropped)
      ensures removed <==> Unlinks(old(nodes), b, takes)
      ensures removed ==> id !in nodes && id !in versions
      ensures id in old(nodes) && id !in nodes ==> takes.lands
      ensures old(Valid()) && id in old(nodes) && old(nodes)[id].FileNode? && Ready(old(nodes), id, b)
              ==> (Valid() <==> id in nodes || Right(old(nodes), id, b))
      ensures removed && id in old(nodes) && old(nodes)[id].FileNode?
              && b == Belief(old(nodes)[id].parentId, NameOf(old(nodes)[id]))
              ==> nodes == if b.parentId.None? then old(nodes) - {id} else Settled(old(nodes) - {id}, b.parentId.value)
    {
      hide Shape, Covered, Accepts, RemovalTag, DiscordVfs.Valid, Settled, Right, Ready, Upright, VersionsAgree, Promoted;
      ghost var s, earlier, fine := State(nodes, versions), log, Valid();
      if fine { AllCovered(); Known(); }
      assert Upright(log[|log| - 1], root);
      UprightSays(s, root);
      removed := Unwind(id, b, chunks, takes);
      if id in s.nodes {
        UnwoundLast(s, id, b, takes);
        if fine && s.nodes[id].FileNode? && Ready(s.nodes, id, b) {
          UnwindingVerifiesExactly(s, root, id, b, takes);
          ValidAfter(earlier, Unwinding(s, id, b, takes));
        }
        if s.nodes[id].FileNode? && b == Belief(s.nodes[id].parentId, NameOf(s.nodes[id])) && removed && b.parentId.Some? {
          RightSettles(s.nodes, b.parentId.value, id);
        }
      }
    }

    lemma AllCovered()
      requires Valid()
      ensures forall i :: 0 <= i < |log| ==> Covered(log[i].nodes)
    {
    }

    lemma ValidAfter(earlier: seq<State>, out: seq<State>)
      requires Standing() && log == earlier + out && forall i :: 0 <= i < |earlier| ==> Covered(earlier[i].nodes)
      ensures Valid() <==> forall i :: 0 <= i < |out| ==> Covered(out[i].nodes)
    {
      hide Shape, Covered, VersionsAgree;
      if forall i :: 0 <= i < |out| ==> Covered(out[i].nodes) {
        forall i | 0 <= i < |log| ensures Steady(log[i], root) {
          assert Upright(log[i], root);
          if i >= |earlier| { assert log[i] == out[i - |earlier|]; } else { assert log[i] == earlier[i]; }
        }
      } else {
        var i :| 0 <= i < |out| && !Covered(out[i].nodes);
        assert log[|earlier| + i] == out[i];
      }
    }

    // Its writes: stage, delete, promote, with the attachments released in between.
    method Unwind(id: Id, b: Belief, chunks: seq<Chunk>, takes: Takes) returns (removed: bool)
      requires Standing() && id != root
      modifies this
      ensures Standing() && log == old(log) + Unwinding(old(State(nodes, versions)), id, b, takes)
      ensures Asked(RefList(chunks))
      ensures dropped == old(dropped) || dropped == old(dropped) + [(id, |tried|)]
      ensures id in old(nodes) && id !in nodes ==> dropped != old(dropped)
      ensures removed <==> Unlinks(old(nodes), b, takes)
    {
      hide Shape, Covered, Accepts, DiscordVfs.Valid, Upright, VersionsAgree, Promoted, ChildPairs;
      ghost var s := State(nodes, versions);
      assert Upright(log[|log| - 1], root);
      UnwindingUpright(s, root, id, b, takes);
      ghost var out := Unwinding(s, id, b, takes);
      removed := false;
      var staged: Outcome<Tag, VfsError> := Raised(Interrupted);
      if b.parentId.Some? && takes.stages {
        staged := StageEntries(b.parentId.value, NoEntries(), {(id, b.filename)});
        assert staged.Ok? ==> log == old(log) + out[..1];
      }
      var count, cancelled := ReleaseChunks(chunks, 0, None);
      assert RefList(chunks)[..|chunks|] == RefList(chunks);
      if takes.lands && (b.parentId.None? || staged.Ok?) {
        ghost var k := if b.parentId.None? then 0 else 1;
        assert out[k] == State(nodes - {id}, versions - {id});
        Drop(id);
        removed := true;
        if staged.Ok? {
          removed := takes.promotes;
          if takes.promotes {
            assert out[2] == State(PromotedTo(nodes, b.parentId.value, staged.value), versions);
            Write(PromotedTo(nodes, b.parentId.value, staged.value), versions);
          }
        }
      }
    }

    /** `open`, up to the handle. */
    method Open(path: Path, write: bool, create: bool, truncate: bool, exclusive: bool, id: Id)
      returns (r: Outcome<Opened, VfsError>)
      requires Valid() && Unused(nodes, id) && id != [] && id != root && ReadyAt(nodes, root, ParentPath(path))
      modifies this`nodes, this`versions, this`log
      ensures Valid() && old(log) <= log && KeepsPromoted(old(nodes), nodes)
      ensures r.Ok?
              <==> if Resolves(old(nodes), root, path) then !ResolvesToDir(old(nodes), root, path) && !exclusive
                   else write && create && ResolvesToDir(old(nodes), root, ParentPath(path))
      ensures r.Raised? ==> Unchanged(old(State(nodes, versions)))
                            && r.error in {IsADirectory, AlreadyExists, NotFound, NotADirectory}
      ensures (r.Raised? && r.error == IsADirectory) <==> ResolvesToDir(old(nodes), root, path)
      ensures (r.Raised? && r.error == AlreadyExists)
              <==> Resolves(old(nodes), root, path) && !ResolvesToDir(old(nodes), root, path) && exclusive
      ensures (r.Raised? && r.error == NotFound)
              <==> !Resolves(old(nodes), root, path) && !(write && create && Resolves(old(nodes), root, ParentPath(path)))
      ensures (r.Raised? && r.error == NotADirectory)
              <==> !Resolves(old(nodes), root, path) && write && create && Resolves(old(nodes), root, ParentPath(path))
                   && !ResolvesToDir(old(nodes), root, ParentPath(path))
      ensures r.Ok? && !Resolves(old(nodes), root, path)
              ==> path != [] && r.value.created && r.value.target.None? && Added(old(nodes), nodes, root, path, r.value.node)
      ensures r.Ok? && Resolves(old(nodes), root, path) && !(write && truncate)
              ==> r.value.target.None? && !r.value.created && Unchanged(old(State(nodes, versions)))
                  && PathTo(nodes, root, path, r.value.node.id) && r.value.node.FileNode?
                  && r.value.node.id in nodes && nodes[r.value.node.id] == r.value.node
      ensures r.Ok? && Resolves(old(nodes), root, path) && write && truncate
              ==> r.value.created && r.value.node == NewFile(id, None, None) && nodes == old(nodes)[id := r.value.node]
                  && r.value.target.Some? && path != [] && r.value.target.value.1 == path[|path| - 1]
                  && PathTo(old(nodes), root, ParentPath(path), r.value.target.value.0)
      ensures r.Ok? ==> r.value.node.id in nodes && nodes[r.value.node.id] == r.value.node && (r.value.created <==> r.value.node.id == id)
    {
      hide Shape, Covered, DiscordVfs.Valid, KeepsPromoted, Added, PathTo;
      Known();
      ShapeSays(nodes, root);
      KeepsPromotedRefl(nodes);
      RootResolves(nodes, root, path);
      var node := GetNode(nodes, root, path);
      if node.Some? {
        OneNode(nodes, root, path, node.value.id);
        PathInDb(nodes, root, path, node.value.id);
      }
      if node.Some? && node.value.DirNode? {
        r := Raised(IsADirectory);
      } else if node.Some? && exclusive {
        r := Raised(AlreadyExists);
      } else if node.None? {
        if write && create {
          var made := AddChild(path, id, false);
          r := if made.Raised? then Raised(made.error) else Ok(Opened(made.value, true, None));
        } else {
          r := Raised(NotFound);
        }
      } else if write && truncate {
        var incoming := BeginOverwrite(id);
        r := Ok(Opened(incoming, true, Some((node.value.parentId.value, NameOf(node.value)))));
      } else {
        r := Ok(Opened(node.value, false, None));
      }
    }

    /**
     An overwriting open, its uploads, and its close or its unwinding, whichever write of the close fails. In every
     database of the run the old file is whole, at its path or in the trash list, and no directory holds the
     new one before it is whole; and no attachment there was before is ever deleted.

     Every directory verifies in every one of these databases but one: when the promotion fails and the
     unwinding stages the directory again, over the tag that covered it, the directory does not verify until
     the new file's document is deleted.
     */
    method OverwriteFile(path: Path, was: Node, id: Id, drafts: seq<(nat, seq<Chunk>)>, fate: Fate, takes: Takes,
                         now: nat) returns (r: Outcome<(), VfsError>)
      requires Valid() && path != [] && was.id in nodes && nodes[was.id] == was && was.FileNode?
      requires PathTo(nodes, root, path, was.id) && now > 0
      requires Unused(nodes, id) && id != [] && id != root && ReadyAt(nodes, root, ParentPath(path))
      requires (forall i :: 0 <= i < |drafts| ==> Refs(drafts[i].1) !! messages) && (fate.Breaks? ==> fate.reach < 4)
      modifies this
      ensures Standing() && old(log) <= log
      ensures Throughout(log, |old(log)|, root, path, was, Finished(id, drafts, was), now)
      ensures old(messages) <= messages
      ensures messages <= old(messages) + Refs(DraftChunks(drafts)) && old(refused) <= refused
      ensures fate != Finishes && refused == old(refused) ==> messages == old(messages)
      ensures r.Ok? <==> fate == Finishes
      ensures fate == Finishes ==> messages == old(messages) + Refs(DraftChunks(drafts)) && id in nodes
                                   && nodes[id] == Finished(id, drafts, was) && PathTo(nodes, root, path, id)
                                   && nodes[id].FileNode? && nodes[id].chunks == DraftChunks(drafts)
                                   && nodes[id].size == if drafts == [] then 0 else drafts[|drafts| - 1].0
      ensures fate == GivenUp || fate == Breaks(0)
              ==> was.id in nodes && nodes[was.id] == was && PathTo(nodes, root, path, was.id)
                  && (takes.lands ==> nodes == old(nodes))
      ensures fate.Breaks? && fate.reach > 0 ==> was.id in nodes && nodes[was.id] == WithTrash(was, Some(now))
                                                 && TrashView.InTrashList(nodes, root, was.id)
      ensures !(fate == Breaks(3) && takes.stages) ==> Valid()
      ensures fate == Breaks(3) && takes.stages ==> forall i :: |old(log)| <= i < |log| ==>
                (Covered(log[i].nodes) <==> i != |old(log)| + |drafts| + 4)
    {
      hide Shape, Covered, DiscordVfs.Valid, KeepsPromoted, PathTo, AllOrNothing, Uploaded, SwapLog, Throughout, Promoted;
      hide Finished, OnlyIncoming, Renamed, Refs;
      Known();
      ghost var db, from := nodes, |log|;
      ghost var whole := Finished(id, drafts, was);
      ShapeSays(db, root);
      PathInDb(db, root, path, was.id);
      FinishedIs(id, drafts, was);
      FinishedHolds(id, drafts, was);
      Upload(path, was, id, drafts, whole, now);
      ghost var up, chunks := messages, nodes[id].chunks;
      UploadedChunks(NewFile(id, None, None), drafts);
      StillReady(db, nodes, root, path, was, id);
      match fate
      case Finishes =>
        r := CloseOverwrite(was, id, now, 4, db, from, path, whole);
        Stands();
      case GivenUp =>
        r := Raised(Interrupted);
        GiveUp(was, id, takes, db, from, path, whole, now);
        OnlyDraftGone(old(messages), up, messages, chunks, refused - old(refused));
        Stands();
      case Breaks(reach) =>
        r := BreakOff(was, id, takes, reach, db, from, path, whole, now);
        OnlyDraftGone(old(messages), up, messages, chunks, refused - old(refused));
    }

    // A close that fails after `reach` writes, and the unwinding of what it had done.
    method BreakOff(was: Node, id: Id, takes: Takes, reach: nat, ghost db: Db, ghost from: nat, ghost path: Path, ghost whole: Node,
                    now: nat) returns (r: Outcome<(), VfsError>)
      requires Valid() && Shape(db, root) && path != [] && now > 0 && was.FileNode? && id !in db && id != root && from <= |log|
      requires PathTo(db, root, path, was.id) && was.id in db && db[was.id] == was && PathTo(nodes, root, path, was.id)
      requires OnlyIncoming(db, nodes, id) && id in nodes && nodes == db[id := nodes[id]] && reach < 4
      requires nodes[id].FileNode? && nodes[id].parentId.None? && nodes[id].trashedAt.None? && nodes[id].id == id
      requires was.parentId.Some? && whole == Renamed(nodes[id], was.parentId.value, NameOf(was)) && whole.chunks == nodes[id].chunks
      requires whole.id == id && whole.FileNode? && whole.parentId == was.parentId && whole.filename == was.filename && whole.trashedAt.None?
      requires IsDir(nodes, was.parentId.value) && Promoted(nodes, was.parentId.value)
      requires Throughout(log, from, root, path, was, whole, now)
      modifies this
      ensures Standing() && old(log) <= log && r.Raised? && Throughout(log, from, root, path, was, whole, now)
      ensures Asked(RefList(old(nodes)[id].chunks))
      ensures reach == 0 ==> was.id in nodes && nodes[was.id] == was && PathTo(nodes, root, path, was.id) && (takes.lands ==> nodes == db)
      ensures reach > 0 ==> was.id in nodes && nodes[was.id] == WithTrash(was, Some(now)) && TrashView.InTrashList(nodes, root, was.id)
      ensures !(reach == 3 && takes.stages) ==> Valid()
      ensures reach == 3 && takes.stages
              ==> forall i :: 0 <= i < |log| ==> (Covered(log[i].nodes) <==> i != |old(log)| + 3)
    {
      hide Shape, Covered, DiscordVfs.Valid, PathTo, AllOrNothing, Throughout, Promoted, OnlyIncoming, Renamed, Refs, Upright, ChildPairs;
      r := CloseOverwrite(was, id, now, reach, db, from, path, whole);
      if reach == 0 {
        GiveUp(was, id, takes, db, from, path, whole, now);
        Stands();
      } else {
        Untangle(was, id, takes, reach, db, from, path, whole, now);
        AfterTrash(db, nodes, root, path, was, whole, now);
      }
    }

    // The open and the commits: into a node of their own. A commit's new attachments are uploaded before it, and
    // what it no longer references is deleted after it.
    method Upload(ghost path: Path, was: Node, id: Id, drafts: seq<(nat, seq<Chunk>)>, ghost whole: Node, ghost now: nat)
      requires Valid() && path != [] && was.id in nodes && nodes[was.id] == was && PathTo(nodes, root, path, was.id)
      requires Unused(nodes, id) && id != [] && id != root && whole.id == id
      requires forall i :: 0 <= i < |drafts| ==> Refs(drafts[i].1) !! messages
      modifies this
      ensures Valid() && old(log) <= log && |log| == |old(log)| + 1 + |drafts| && KeepsPromoted(old(nodes), nodes)
      ensures nodes == old(nodes)[id := Uploaded(NewFile(id, None, None), drafts)] && OnlyIncoming(old(nodes), nodes, id)
      ensures messages == old(messages) + Refs(DraftChunks(drafts)) && Refs(DraftChunks(drafts)) !! old(messages)
      ensures tried == old(tried) && refused == old(refused)
      ensures Throughout(log, |old(log)|, root, path, was, whole, now) && PathTo(nodes, root, path, was.id)
    {
      hide Shape, Covered, DiscordVfs.Valid, KeepsPromoted, PathTo, AllOrNothing, Uploaded, Throughout, Refs;
      Known();
      ghost var db, from := nodes, |log|;
      ThroughoutBegins(log, root, path, was, whole, now);
      var incoming := BeginOverwrite(id);
      NoneUploaded(incoming, drafts);
      UploadedChunks(incoming, drafts);
      NoRefs();
      BeforeSwap(db, nodes, root, path, was, whole, now);
      ThroughoutMore(old(log), log[from], from, root, path, was, whole, now);
      for i := 0 to |drafts|
        invariant Valid() && old(log) <= log && |log| == from + 1 + i && nodes == db[id := Uploaded(incoming, drafts[..i])]
        invariant tried == old(tried) && refused == old(refused)
        invariant messages == old(messages) + Refs(DraftChunks(drafts[..i])) && Refs(DraftChunks(drafts[..i])) !! old(messages)
        invariant Throughout(log, from, root, path, was, whole, now)
        invariant PathTo(nodes, root, path, was.id) && KeepsPromoted(db, nodes)
      {
        UploadedChunks(incoming, drafts[..i]);
        UploadedChunks(incoming, drafts);
        UploadedStep(incoming, drafts, i);
        CommitDraft(drafts[i], id, old(messages), db, from, path, was, whole, now);
      }
      assert drafts[..|drafts|] == drafts;
    }

    // One commit of it.
    method CommitDraft(draft: (nat, seq<Chunk>), id: Id, ghost others: set<MessageId>, ghost db: Db, ghost from: nat, ghost path: Path,
                       ghost was: Node, ghost whole: Node, ghost now: nat)
      requires Valid() && Shape(db, root) && path != [] && PathTo(db, root, path, was.id) && was.id in db && db[was.id] == was
      requires id !in db && whole.id == id && id in nodes && nodes[id].FileNode? && nodes[id].parentId.None?
      requires nodes == db[id := nodes[id]] && KeepsPromoted(db, nodes) && Throughout(log, from, root, path, was, whole, now)
      requires messages == others + Refs(nodes[id].chunks) && Refs(nodes[id].chunks) !! others && Refs(draft.1) !! others
      requires from <= |log|
      modifies this
      ensures Valid() && old(log) <= log && |log| == |old(log)| + 1 && KeepsPromoted(db, nodes)
      ensures nodes == db[id := WithContent(old(nodes)[id], draft.0, draft.1)]
      ensures messages == others + Refs(draft.1) && tried == old(tried) && refused == old(refused)
      ensures Throughout(log, from, root, path, was, whole, now) && PathTo(nodes, root, path, was.id)
    {
      hide Shape, Covered, DiscordVfs.Valid, KeepsPromoted, PathTo, AllOrNothing, Throughout, Refs;
      ghost var known, before := log, nodes;
      messages := (messages - Refs(nodes[id].chunks)) + Refs(draft.1);
      WriteContent(id, draft.0, draft.1);
      KeepsPromotedTransitive(db, before, nodes);
      BeforeSwap(db, nodes, root, path, was, whole, now);
      ThroughoutMore(known, log[|known|], from, root, path, was, whole, now);
    }

    lemma NoRefs()
      ensures Refs([]) == {} && DraftChunks([]) == []
    {
    }

    // The close: the old file is still under its name, and is what gets replaced, as far as the writes land.
    method CloseOverwrite(was: Node, id: Id, now: nat, reach: nat, ghost db: Db, ghost from: nat, ghost path: Path, ghost whole: Node)
      returns (r: Outcome<(), VfsError>)
      requires Valid() && Shape(db, root) && path != [] && now > 0 && was.FileNode? && id !in db && from <= |log|
      requires PathTo(db, root, path, was.id) && was.id in db && db[was.id] == was && PathTo(nodes, root, path, was.id)
      requires OnlyIncoming(db, nodes, id) && id in nodes && nodes[id].FileNode? && nodes[id].parentId.None?
      requires nodes[id].trashedAt.None? && nodes[id].id == id
      requires was.parentId.Some? && whole == Renamed(nodes[id], was.parentId.value, NameOf(was))
      requires IsDir(nodes, was.parentId.value) && Promoted(nodes, was.parentId.value)
      requires Throughout(log, from, root, path, was, whole, now)
      modifies this`nodes, this`versions, this`log
      ensures Valid() && old(log) <= log && Throughout(log, from, root, path, was, whole, now)
      ensures |log| == |old(log)| + (if reach < 4 then reach else 4)
      ensures (r.Ok? <==> reach >= 4) && (r.Raised? ==> r.error == Interrupted)
      ensures reach >= 4 ==> id in nodes && nodes[id] == whole && PathTo(nodes, root, path, id)
      ensures reach == 0 ==> Unchanged(old(State(nodes, versions)))
      ensures 0 < reach < 4 ==> Swapped(db, nodes, root, was, whole, now) && id in nodes
      ensures 0 < reach < 3 ==> nodes[id] == old(nodes)[id]
      ensures reach == 3 ==> nodes[id] == whole && whole.parentId == was.parentId && NameOf(whole) == NameOf(was)
                             && IsChild(nodes, id, was.parentId.value) && IsDir(nodes, was.parentId.value)
                             && nodes[was.parentId.value].entriesMac
                                == Some(EntriesMac(was.parentId.value, ChildPairs(nodes, was.parentId.value) - {Pair(whole)}))
    {
      hide Shape, Covered, DiscordVfs.Valid, KeepsPromoted, PathTo, AllOrNothing, SwapLog, Throughout, Promoted, Settled, Swapped;
      hide ChildPairs;
      ghost var mid, known := nodes, log;
      Known();
      assert was.id in nodes && nodes[was.id] == was;
      OneFileThere(nodes, root, path, was);
      r := FinishOverwrite(id, was.parentId.value, NameOf(was), now, reach);
      assert LiveAt(mid, was.id, was.parentId.value, NameOf(was));
      ghost var swap := log[|known|..];
      SwapIsAllOrNothing(db, mid, swap, root, path, was, whole, now);
      ThroughoutJoined(known, swap, from, root, path, was, whole, now);
      assert log == known + swap;
      LastOf(swap);
      Known();
      SwapEnds(mid, swap, was, id, now);
    }

    lemma SwapEnds(mid: Db, swap: seq<State>, was: Node, id: Id, now: nat)
      requires Shape(mid, root) && was.id in mid && mid[was.id] == was && was.FileNode? && was.parentId.Some? && id in mid
      requires mid[id].FileNode? && mid[id].parentId.None? && IsDir(mid, was.parentId.value) && Promoted(mid, was.parentId.value)
      requires SwapLog(mid, swap, was.id, id, was.parentId.value, NameOf(was), now)
      ensures var d := was.parentId.value; var whole := Renamed(mid[id], d, NameOf(was));
              && (0 < |swap| < 3 ==> id in swap[|swap| - 1].nodes && swap[|swap| - 1].nodes[id] == mid[id])
              && (|swap| == 3 ==>
                    var db2 := swap[2].nodes;
                    && id in db2 && db2[id] == whole && IsChild(db2, id, d) && IsDir(db2, d)
                    && db2[d].entriesMac == Some(EntriesMac(d, ChildPairs(db2, d) - {Pair(whole)})))
    {
      hide EnterTag, Settled, UniqueLive, DirsAbove, Signed;
      if |swap| == 3 { HalfAttached(mid, swap[2].nodes, swap, was.id, id, was.parentId.value, NameOf(was), now); }
    }

    // Given up with the incoming node still in no directory and the old file where it was.
    method GiveUp(was: Node, id: Id, takes: Takes, ghost db: Db, ghost from: nat, ghost path: Path, ghost whole: Node, ghost now: nat)
      requires Valid() && Shape(db, root) && path != [] && whole.id == id && id !in db && id != root && from <= |log|
      requires PathTo(db, root, path, was.id) && was.id in db && db[was.id] == was
      requires id in nodes && nodes[id].FileNode? && nodes[id].parentId.None? && nodes == db[id := nodes[id]]
      requires Throughout(log, from, root, path, was, whole, now)
      modifies this
      ensures Valid() && old(log) <= log && Throughout(log, from, root, path, was, whole, now)
      ensures Asked(RefList(old(nodes)[id].chunks))
      ensures was.id in nodes && nodes[was.id] == was && PathTo(nodes, root, path, was.id) && (takes.lands ==> nodes == db)
    {
      hide Shape, Covered, DiscordVfs.Valid, PathTo, AllOrNothing, Throughout, Refs, Upright;
      Stands();
      ghost var known, b := log, Belief(None, []);
      BeforeSwap(db, nodes, root, path, was, whole, now);
      assert Ready(nodes, id, Belief(None, [])) && Right(nodes, id, Belief(None, []));
      var removed := Rollback(id, Belief(None, []), nodes[id].chunks, takes);
      if takes.lands {
        assert nodes == db;
        BeforeSwap(db, nodes, root, path, was, whole, now);
        ThroughoutMore(known, log[|known|], from, root, path, was, whole, now);
      } else {
        assert log == known;
      }
    }

    // The swap broke with the old file already in the trash.
    method Untangle(was: Node, id: Id, takes: Takes, reach: nat, ghost db: Db, ghost from: nat, ghost path: Path, ghost whole: Node,
                    ghost now: nat)
      requires Valid() && Shape(db, root) && path != [] && now > 0 && whole.id == id && id !in db && id != root && from <= |log|
      requires PathTo(db, root, path, was.id) && was.id in db && db[was.id] == was && was.FileNode? && was.parentId.Some?
      requires whole.FileNode? && whole.parentId == was.parentId && whole.filename == was.filename && whole.trashedAt.None?
      requires Swapped(db, nodes, root, was, whole, now) && id in nodes && nodes[id].FileNode? && 0 < reach < 4
      requires reach < 3 ==> nodes[id].parentId.None?
      requires reach == 3 ==> nodes[id] == whole && IsChild(nodes, id, was.parentId.value) && IsDir(nodes, was.parentId.value)
                              && nodes[was.parentId.value].entriesMac
                                 == Some(EntriesMac(was.parentId.value, ChildPairs(nodes, was.parentId.value) - {Pair(whole)}))
      requires Throughout(log, from, root, path, was, whole, now)
      modifies this
      ensures Standing() && old(log) <= log && Throughout(log, from, root, path, was, whole, now)
      ensures Asked(RefList(old(nodes)[id].chunks))
      ensures Swapped(db, nodes, root, was, whole, now)
      ensures reach < 3 || !takes.stages ==> Valid()
      ensures reach == 3 && takes.stages
              ==> forall i :: 0 <= i < |log| ==> (Covered(log[i].nodes) <==> i != |old(log)|)
    {
      hide Shape, Covered, DiscordVfs.Valid, PathTo, AllOrNothing, Throughout, Refs, Upright, Swapped, ChildPairs, Accepts;
      Stands();
      AllCovered();
      Known();
      PlaceIsApart(db, path, was, id);
      ghost var known, s := log, State(nodes, versions);
      var b := if reach < 3 then Belief(None, []) else Belief(was.parentId, NameOf(was));
      UnwindingThroughout(db, s, root, path, was, whole, now, b, takes);
      if reach == 3 { FailedPromotionCovers(s, root, id, was.parentId.value, takes); }
      assert reach < 3 ==> Ready(nodes, id, b) && Right(nodes, id, b);
      var removed := Rollback(id, b, nodes[id].chunks, takes);
      ghost var out := Unwinding(s, id, b, takes);
      ThroughoutJoined(known, out, from, root, path, was, whole, now);
      if reach == 3 {
        ValidAfter(known, out);
        assert forall i :: 0 <= i < |out| ==> log[|known| + i] == out[i];
      }
      assert nodes == if out == [] then s.nodes else out[|out| - 1].nodes;
    }

    lemma PlaceIsApart(db: Db, path: Path, was: Node, id: Id)
      requires Shape(db, root) && path != [] && PathTo(db, root, path, was.id) && was.id in db && db[was.id] == was
      requires was.FileNode? && was.parentId.Some? && id !in db
      ensures was.parentId.value != id && was.parentId.value != was.id
    {
      PathInDb(db, root, path, was.id);
    }

    /**
     A directory took the name while the upload was in flight: the close refuses before it has written anything,
     and the incoming node goes.
     */
    method CloseBlocked(id: Id, d: Id, name: Name, now: nat, reach: nat, takes: Takes) returns (r: Outcome<(), VfsError>)
      requires Valid() && id in nodes && id != root && nodes[id].FileNode? && nodes[id].parentId.None? && nodes[id].trashedAt.None?
      requires IsDir(nodes, d) && Promoted(nodes, d) && exists o :: LiveAt(nodes, o, d, name) && IsDir(nodes, o)
      modifies this
      ensures Valid() && r == Raised(IsADirectory)
      ensures nodes == if takes.lands then old(nodes) - {id} else old(nodes)
      ensures Asked(RefList(old(nodes)[id].chunks))
    {
      hide Shape, Covered, DiscordVfs.Valid, Refs, Upright;
      r := FinishOverwrite(id, d, name, now, reach);
      Stands();
      assert Ready(nodes, id, Belief(None, [])) && Right(nodes, id, Belief(None, []));
      var removed := Rollback(id, Belief(None, []), nodes[id].chunks, takes);
    }

    /** Putting something in the trash and taking it out again, with nothing in between, changes nothing. */
    method TrashThenRestore(path: Path, policy: Policy, now: nat, later: nat) returns (r: Outcome<Restored, VfsError>)
      requires Valid() && path != [] && Resolves(nodes, root, path)
      modifies this`nodes, this`versions, this`log
      ensures Valid() && nodes == old(nodes) && r == Ok(Restored(true, false, Some(path)))
    {
      hide Shape, Covered, DiscordVfs.Valid, KeepsPromoted, Settled, Hangs, PathTo, Taken;
      ghost var db := nodes;
      Known();
      var trashed := Trash(path, now);
      var id := trashed.value;
      ghost var mid := nodes;
      RootHasNoPath(db, root, path, id);
      TrashedIsListed(db, root, path, id, now);
      Known();
      r := Restore(id, policy, later);
      UndoTrash(db, root, path, id, now);
      PlacedHangs(mid, root, db[id].parentId.value);
      Known();
      PathsAgree(nodes, root, id, path, r.value.path.value);
    }

    // The log ends in the present.
    lemma LastOf(tail: seq<State>)
      requires Valid() && |tail| <= |log| && tail == log[|log| - |tail|..]
      ensures tail != [] ==> tail[|tail| - 1] == State(nodes, versions)
    {
    }

    lemma Known()
      requires Valid()
      ensures Shape(nodes, root) && Covered(nodes) && VersionsAgree(State(nodes, versions))
      ensures log != [] && log[|log| - 1] == State(nodes, versions)
    {
      Current();
    }
  }
}
