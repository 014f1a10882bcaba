/**
 The node documents (src/vfs.py), the tags over them, and what a directory's entry tag has to cover.

 The database is a map from id to document. A directory's children are not stored in it: they are the
 documents that name it as their parent, so the tag and what it covers live in different documents.
 */
module Tree {
  import opened Wrappers
  import opened Bytes
  import opened Tags
  import opened FileContent

  datatype Node =
    | FileNode(id: Id, parentId: Option<Id>, filename: Option<Name>, trashedAt: Option<nat>, mac: Tag,
               size: nat, chunks: seq<Chunk>)
    | DirNode(id: Id, parentId: Option<Id>, filename: Option<Name>, trashedAt: Option<nat>, mac: Tag,
              entriesMac: Option<Tag>, pending: Option<Tag>)

  type Db = map<Id, Node>

  function NameOf(n: Node): Name { OrEmpty(n.filename) }

  // `_file_mac` and `_dir_mac`.
  function MacOf(n: Node): Tag {
    match n
    case FileNode(id, parent, name, trashed, _, size, chunks) =>
      NodeTag(id, OrEmpty(parent), OrEmpty(name), size, TagsOf(chunks), trashed)
    case DirNode(id, parent, name, trashed, _, _, _) =>
      DirTag(id, OrEmpty(parent), OrEmpty(name), trashed)
  }

  function Resigned(n: Node): Node { n.(mac := MacOf(n)) }

  // `_new_dir_doc`: an empty directory, both tags in place.
  function NewDir(id: Id, parentId: Id, filename: Name): Node {
    Resigned(DirNode(id, Some(parentId), Some(filename), None, DirTag([], [], [], None),
                     Some(EntriesTag(id, multiset{})), None))
  }

  function NewFile(id: Id, parentId: Option<Id>, filename: Option<Name>): Node {
    Resigned(FileNode(id, parentId, filename, None, DirTag([], [], [], None), 0, []))
  }

  // Moved to a directory and signed again there.
  function Renamed(n: Node, d: Id, name: Name): Node { Resigned(n.(parentId := Some(d), filename := Some(name))) }

  // ------------------------------------------------------------------ membership

  predicate IsChild(db: Db, c: Id, d: Id) { c in db && db[c].parentId == Some(d) }

  function Pair(n: Node): Entry { (n.id, NameOf(n)) }

  // `_entries_of(children(d))`, trashed children included.
  function ChildPairs(db: Db, d: Id): set<Entry> {
    set c | c in db && IsChild(db, c, d) :: (c, NameOf(db[c]))
  }

  // `dir_entries_tag` over an arbitrary listing.
  function EntriesMac(d: Id, pairs: set<Entry>): Tag { EntriesTag(d, multiset(pairs)) }

  // `verify_dir_entries`, for the children that are there: either tag will do.
  predicate Accepts(db: Db, d: Id)
    requires d in db && db[d].DirNode?
  {
    var actual := EntriesMac(d, ChildPairs(db, d));
    db[d].entriesMac == Some(actual) || db[d].pending == Some(actual)
  }

  predicate Promoted(db: Db, d: Id)
    requires d in db && db[d].DirNode?
  {
    db[d].entriesMac == Some(EntriesMac(d, ChildPairs(db, d)))
  }

  predicate IsDir(db: Db, d: Id) { d in db && db[d].DirNode? }

  // Every directory there is lists without an integrity error.
  ghost predicate Covered(db: Db) { forall d :: IsDir(db, d) ==> Accepts(db, d) }

  ghost predicate AllPromoted(db: Db) { forall d :: IsDir(db, d) ==> Promoted(db, d) }

  // Every document carries the tag over its own fields.
  ghost predicate Signed(db: Db) { forall id :: id in db ==> db[id].mac == MacOf(db[id]) }

  ghost predicate Keyed(db: Db) { forall id :: id in db ==> db[id].id == id }

  predicate LiveAt(db: Db, c: Id, parent: Id, name: Name) {
    c in db && db[c].parentId == Some(parent) && db[c].filename == Some(name) && db[c].trashedAt.None?
  }

  // The partial unique index over live (parent, name) pairs.
  ghost predicate UniqueLive(db: Db) {
    forall a, b, parent, name :: LiveAt(db, a, parent, name) && LiveAt(db, b, parent, name) ==> a == b
  }

  // What a fresh uuid4 gives: nothing is called that, and nothing hangs below it.
  predicate Unused(db: Db, id: Id) { id !in db && forall c :: c in db ==> db[c].parentId != Some(id) }

  // ------------------------------------------------------------------ what one write does to membership

  // Writing one document: its old pair goes, its new one comes, nothing else moves.
  lemma PairsAfterPut(db: Db, n: Node, d: Id)
    requires Keyed(db)
    ensures ChildPairs(db[n.id := n], d)
            == (ChildPairs(db, d) - (if n.id in db && db[n.id].parentId == Some(d) then {Pair(db[n.id])} else {}))
               + (if n.parentId == Some(d) then {Pair(n)} else {})
  {
    var db' := db[n.id := n];
    forall e | e in ChildPairs(db', d) && e.0 != n.id ensures e in ChildPairs(db, d) {
      assert IsChild(db, e.0, d);
    }
    forall e | e in ChildPairs(db, d) && e.0 != n.id ensures e in ChildPairs(db', d) {
      assert IsChild(db', e.0, d);
    }
    if n.parentId == Some(d) { assert IsChild(db', n.id, d); }
  }

  lemma PairsAfterDelete(db: Db, id: Id, d: Id)
    requires Keyed(db)
    ensures ChildPairs(db - {id}, d)
            == ChildPairs(db, d) - (if id in db && db[id].parentId == Some(d) then {Pair(db[id])} else {})
  {
    var db' := db - {id};
    forall e | e in ChildPairs(db, d) && e.0 != id ensures e in ChildPairs(db', d) {
      assert IsChild(db', e.0, d);
    }
    forall e | e in ChildPairs(db', d) ensures e in ChildPairs(db, d) {
      assert IsChild(db, e.0, d);
    }
  }

  // A pair is a child's id and name.
  lemma PairMeans(db: Db, d: Id, e: Entry)
    ensures e in ChildPairs(db, d) <==> IsChild(db, e.0, d) && e.1 == NameOf(db[e.0])
  {
    if IsChild(db, e.0, d) && e.1 == NameOf(db[e.0]) {
      assert e == (e.0, NameOf(db[e.0]));
    }
  }
}
