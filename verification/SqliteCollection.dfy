/**
 `SqliteCollection` (src/sqlitedb.py): a table of documents in insertion order, answering a MongoDB-style
 filter through the SQL it is translated to.
 */
module SqliteCollection {
  import opened Wrappers
  import opened SqlFilter

  datatype Row = Row(id: string, doc: Doc)

  // `_Result`.
  datatype Done = Done(matched: nat, modified: nat)

  // The rows a filter's clause selects.
  predicate Chosen(columns: set<string>, flt: Filter, doc: Doc)
    requires FilterTests(columns, flt).Ok?
  {
    Selects(doc, Clause(FilterTests(columns, flt).value, Bind))
  }

  // The filter compiles, binds, and asks no field about a list or object in it, or a boolean against a number.
  ghost predicate Clean(columns: set<string>, rows: seq<Row>, flt: Filter) {
    && FilterTests(columns, flt).Ok? && Bindable(FilterTests(columns, flt).value)
    && forall k :: 0 <= k < |rows| ==> CleanRow(columns, rows[k].doc, flt)
  }

  ghost predicate CleanRow(columns: set<string>, doc: Doc, flt: Filter)
    requires FilterTests(columns, flt).Ok?
  {
    var ts := FilterTests(columns, flt).value;
    forall i :: 0 <= i < |ts| ==> Answerable(Typed, doc, ts[i])
  }

  lemma ChosenIsMatched(columns: set<string>, rows: seq<Row>, flt: Filter, k: nat)
    requires Clean(columns, rows, flt) && k < |rows|
    ensures Chosen(columns, flt, rows[k].doc) <==> Matches(Typed, rows[k].doc, flt)
  {
    assert CleanRow(columns, rows[k].doc, flt);
    WhereIsExact(Typed, rows[k].doc, columns, flt);
  }

  // `k` is the first matching row, in insertion order; `|rows|` if there is none.
  ghost predicate FirstMatch(rows: seq<Row>, flt: Filter, k: nat) {
    && k <= |rows| && (forall i :: 0 <= i < k ==> !Matches(Typed, rows[i].doc, flt))
    && (k < |rows| ==> Matches(Typed, rows[k].doc, flt))
  }

  // `$set` and `$unset`.
  function Updated(doc: Doc, set_: Doc, unset: set<string>): Doc { (doc + set_) - unset }

  // Python's `==` on two documents: the same fields, their values equal, true being equal to 1.
  predicate PythonSame(a: Doc, b: Doc) { a.Keys == b.Keys && forall f :: f in a ==> Same(Python, a[f], b[f]) }

  // What `update_one` leaves in the row: nothing is written when Python sees no difference.
  function Stored(was: Doc, set_: Doc, unset: set<string>): Doc {
    if PythonSame(Updated(was, set_, unset), was) then was else Updated(was, set_, unset)
  }

  // What an update does to one field, by its arguments: takes it away, or gives it another value;
  predicate Changes(was: Doc, set_: Doc, unset: set<string>, f: string) {
    if f in unset then f in was else f in set_ && (f in was ==> was[f] != set_[f])
  }

  // and if it does, to one Python cannot tell from the old.
  predicate Swaps(was: Doc, set_: Doc, unset: set<string>, f: string) {
    f !in unset && f in set_ && f in was && Same(Python, was[f], set_[f])
  }

  /** An update is stored as asked unless it changes something and every field it changes only swaps true for 1 or false for 0. */
  lemma StoredExactly(was: Doc, set_: Doc, unset: set<string>)
    ensures Stored(was, set_, unset) == Updated(was, set_, unset)
            <==> (forall f :: !Changes(was, set_, unset, f)) || exists f :: Changes(was, set_, unset, f) && !Swaps(was, set_, unset, f)
  {
    var now := Updated(was, set_, unset);
    if f :| Changes(was, set_, unset, f) && !Swaps(was, set_, unset, f) {
      assert f in now <==> f !in unset;
      if PythonSame(now, was) { SameBack(now[f], was[f]); }
    } else {
      forall f ensures f in now <==> f in was {
        assert Changes(was, set_, unset, f) ==> Swaps(was, set_, unset, f);
      }
      forall f | f in now ensures Same(Python, now[f], was[f]) {
        if Changes(was, set_, unset, f) { SameBack(was[f], set_[f]); }
      }
      if f :| Changes(was, set_, unset, f) {
        assert now[f] != was[f];
      } else {
        forall f | f in was ensures now[f] == was[f] {
          assert !Changes(was, set_, unset, f);
        }
        assert now == was;
      }
    }
  }

  lemma {:induction false} SameBack(a: Value, b: Value)
    requires Same(Python, a, b)
    ensures Same(Python, b, a)
    decreases a
  {
    if a.Nested? && b.Nested? && a != b {
      forall i | 0 <= i < |a.items| ensures Same(Python, b.items[i], a.items[i]) {
        SameBack(a.items[i], b.items[i]);
      }
    }
  }

  // What Python cannot tell apart, outside lists and objects: a boolean and its number.
  lemma SwapIsBoolForNumber(a: Value, b: Value)
    requires !a.Nested?
    ensures Same(Python, a, b) && a != b
            <==> (a.Bool? && b == Num(if a.b then 1.0 else 0.0)) || (b.Bool? && a == Num(if b.b then 1.0 else 0.0))
  {
  }

  /** The case in hand: a field that is true, set to 1, stays true. */
  lemma TrueToOneIsLost(f: string)
    ensures var was: Doc := map[f := Bool(true)];
            Updated(was, map[f := Num(1.0)], {}) == map[f := Num(1.0)] && Stored(was, map[f := Num(1.0)], {}) == was
  {
  }

  function ById(rows: seq<Row>): set<string> { set i | 0 <= i < |rows| :: rows[i].id }

  predicate IdsDiffer(rows: seq<Row>) { forall i, j :: 0 <= i < j < |rows| ==> rows[i].id != rows[j].id }

  function IdFor(newId: string, doc: Doc): string
    requires "_id" in doc ==> doc["_id"].Str?
  {
    if "_id" in doc then doc["_id"].s else newId
  }

  function Inserted(newId: string, doc: Doc): Row
    requires "_id" in doc ==> doc["_id"].Str?
  {
    Row(IdFor(newId, doc), if "_id" in doc then doc else doc["_id" := Str(newId)])
  }

  function Lower(c: char): char { if 'A' <= c <= 'Z' then c + 32 as char else c }

  // SQLite's column names are compared without regard to ASCII case.
  predicate SameColumn(f: string, g: string) { |f| == |g| && forall i :: 0 <= i < |f| ==> Lower(f[i]) == Lower(g[i]) }

  // The table has `_id` and `doc` of its own.
  predicate Collides(columns: set<string>, field: string) {
    exists f :: f in columns + {"_id", "doc"} && SameColumn(f, field)
  }

  // One letter's case is no difference, for the table's own columns too; another letter is.
  lemma CaseIsIgnored(columns: set<string>)
    ensures SameColumn("Name", "nAME") && !SameColumn("name", "names") && !SameColumn("name", "nome")
    ensures Collides(columns, "DOC") && Collides(columns, "_ID")
  {
    assert SameColumn("doc", "DOC") && SameColumn("_id", "_ID");
    assert Lower("name"[1]) != Lower("nome"[1]);
    assert "doc" in columns + {"_id", "doc"} && "_id" in columns + {"_id", "doc"};
  }

  class Collection {
    var rows: seq<Row>          // in rowid order
    var columns: set<string>    // the generated columns

    ghost predicate Valid()
      reads this
    {
      && ColumnsOk(columns) && IdsDiffer(rows)
      && (forall f, g :: f in columns && g in columns && f != g ==> !SameColumn(f, g))
    }

    constructor ()
      ensures Valid() && rows == [] && columns == {}
    {
      rows, columns := [], {};
    }

    // `_ensure_column`; no answer changes, by `ColumnsDoNotMatter`. SQLite refuses a name the table has, in any case.
    method EnsureColumn(field: string) returns (r: Outcome<(), Error>)
      requires Valid()
      modifies this`columns
      ensures Valid()
      ensures r.Ok? <==> field in old(columns) || (FieldOk(field) && !Collides(old(columns), field))
      ensures r.Raised? ==> r.error == if FieldOk(field) then DuplicateColumn else UnsupportedQuery
      ensures columns == if r.Ok? then old(columns) + {field} else old(columns)
    {
      if field in columns {
        r := Ok(());
      } else if !FieldOk(field) {
        r := Raised(UnsupportedQuery);
      } else if Collides(columns, field) {
        r := Raised(DuplicateColumn);
      } else {
        assert forall f :: SameColumn(field, f) ==> SameColumn(f, field);
        columns := columns + {field};
        r := Ok(());
      }
    }

    // `_fetch_one`: `ORDER BY rowid LIMIT 1`.
    method FetchOne(flt: Filter) returns (r: Outcome<nat, Error>)
      requires Valid() && (FilterTests(columns, flt).Ok? ==> Clean(columns, rows, flt))
      ensures r.Ok? <==> FilterTests(columns, flt).Ok?
      ensures r.Ok? ==> FirstMatch(rows, flt, r.value)
    {
      hide Matches, Selects, Clean, FilterTests, Clause;
      var clause := Where(columns, flt);
      if clause.Raised? {
        return Raised(clause.error);
      }
      var k := 0;
      while k < |rows| && !Selects(rows[k].doc, clause.value)
        invariant k <= |rows| && forall i :: 0 <= i < k ==> !Matches(Typed, rows[i].doc, flt)
      {
        ChosenIsMatched(columns, rows, flt, k);
        k := k + 1;
      }
      if k < |rows| { ChosenIsMatched(columns, rows, flt, k); }
      return Ok(k);
    }

    // `find_one`.
    method FindOne(flt: Filter) returns (r: Outcome<Option<Doc>, Error>)
      requires Valid() && (FilterTests(columns, flt).Ok? ==> Clean(columns, rows, flt))
      ensures r.Ok? <==> FilterTests(columns, flt).Ok?
      ensures r.Ok? && r.value.Some? ==> exists k: nat :: FirstMatch(rows, flt, k) && k < |rows| && r.value.value == rows[k].doc
      ensures r.Ok? && r.value.None? ==> forall k :: 0 <= k < |rows| ==> !Matches(Typed, rows[k].doc, flt)
    {
      var found := FetchOne(flt);
      if found.Raised? {
        r := Raised(found.error);
      } else if found.value == |rows| {
        r := Ok(None);
      } else {
        r := Ok(Some(rows[found.value].doc));
      }
    }

    // `find`: every match, in insertion order.
    method Find(flt: Filter) returns (r: Outcome<seq<Doc>, Error>)
      requires Valid() && (FilterTests(columns, flt).Ok? ==> Clean(columns, rows, flt))
      ensures r.Ok? <==> FilterTests(columns, flt).Ok?
      ensures r.Ok? ==> exists at :: Selection(rows, flt, at, r.value)
    {
      hide Matches, Selects, Clean, FilterTests, Clause;
      var clause := Where(columns, flt);
      if clause.Raised? {
        return Raised(clause.error);
      }
      var docs: seq<Doc> := [];
      assert rows[..0] == [];
      for k := 0 to |rows|
        invariant docs == Matching(rows[..k], flt)
      {
        ChosenIsMatched(columns, rows, flt, k);
        assert rows[..k + 1][..k] == rows[..k];
        if Selects(rows[k].doc, clause.value) { docs := docs + [rows[k].doc]; }
      }
      assert rows[..|rows|] == rows;
      ghost var at := MatchingSelects(rows, flt);
      return Ok(docs);
    }

    // `insert_one`; `refused` is a unique index saying no, `newId` the id a document without one is given.
    method InsertOne(newId: string, doc: Doc, refused: bool) returns (r: Outcome<string, Error>)
      requires Valid() && ("_id" in doc ==> doc["_id"].Str?)
      modifies this`rows
      ensures Valid()
      ensures r == if refused || IdFor(newId, doc) in ById(old(rows)) then Raised(DuplicateKey) else Ok(IdFor(newId, doc))
      ensures rows == if r.Ok? then old(rows) + [Inserted(newId, doc)] else old(rows)
      ensures r.Ok? ==> r.value == (if "_id" in doc then doc["_id"].s else newId)
                        && rows[|rows| - 1] == Row(r.value, doc["_id" := Str(r.value)])
    {
      if refused || IdFor(newId, doc) in ById(rows) {
        r := Raised(DuplicateKey);
      } else {
        rows := rows + [Inserted(newId, doc)];
        r := Ok(IdFor(newId, doc));
      }
    }

    /** `update_one`: the first match and nothing else, and no write at all when Python sees no change. */
    method UpdateOne(flt: Filter, set_: Doc, unset: set<string>, refused: bool) returns (r: Outcome<Done, Error>)
      requires Valid() && (FilterTests(columns, flt).Ok? ==> Clean(columns, rows, flt))
      modifies this`rows
      ensures Valid()
      ensures r.Raised? ==> rows == old(rows)
      ensures r == Raised(UnsupportedQuery) <==> FilterTests(columns, flt).Raised?
      ensures r == Raised(DuplicateKey)
              <==> refused && FilterTests(columns, flt).Ok?
                   && exists k: nat :: k < |old(rows)| && FirstMatch(old(rows), flt, k)
                                       && !PythonSame(Updated(old(rows)[k].doc, set_, unset), old(rows)[k].doc)
      ensures r.Raised? ==> r.error in {UnsupportedQuery, DuplicateKey}
      ensures r.Ok? ==> exists k: nat :: FirstMatch(old(rows), flt, k) &&
                          if k == |old(rows)| then rows == old(rows) && r.value == Done(0, 0)
                          else
                            var was := old(rows)[k];
                            && rows == old(rows)[k := Row(was.id, Stored(was.doc, set_, unset))]
                            && r.value == Done(1, if PythonSame(Updated(was.doc, set_, unset), was.doc) then 0 else 1)
    {
      var found := FetchOne(flt);
      if found.Raised? {
        return Raised(UnsupportedQuery);
      }
      var k := found.value;
      if k == |rows| {
        return Ok(Done(0, 0));
      }
      var row := rows[k];
      var doc := Updated(row.doc, set_, unset);
      if PythonSame(doc, row.doc) {
        assert rows[k := Row(row.id, row.doc)] == rows;
        return Ok(Done(1, 0));
      }
      if refused {
        return Raised(DuplicateKey);
      }
      rows := rows[k := Row(row.id, doc)];
      return Ok(Done(1, 1));
    }

    /** `replace_one`: the stored `_id` survives the replacement. */
    method ReplaceOne(flt: Filter, doc: Doc, upsert: Option<string>, refused: bool) returns (r: Outcome<Done, Error>)
      requires Valid() && (FilterTests(columns, flt).Ok? ==> Clean(columns, rows, flt)) && ("_id" in doc ==> doc["_id"].Str?)
      modifies this`rows
      ensures Valid()
      ensures r.Raised? ==> rows == old(rows)
      ensures r == Raised(UnsupportedQuery) <==> FilterTests(columns, flt).Raised?
      ensures r == Raised(DuplicateKey)
              <==> FilterTests(columns, flt).Ok?
                   && if exists k :: 0 <= k < |old(rows)| && Matches(Typed, old(rows)[k].doc, flt) then refused
                      else upsert.Some? && (refused || IdFor(upsert.value, doc) in ById(old(rows)))
      ensures r.Raised? ==> r.error in {UnsupportedQuery, DuplicateKey}
      ensures r.Ok? ==> exists k: nat :: FirstMatch(old(rows), flt, k) &&
                          if k < |old(rows)| then rows == old(rows)[k := Row(old(rows)[k].id, doc["_id" := Str(old(rows)[k].id)])]
                                                  && r.value == Done(1, 1)
                          else r.value == Done(0, 0)
                               && rows == if upsert.Some? then old(rows) + [Inserted(upsert.value, doc)] else old(rows)
    {
      var found := FetchOne(flt);
      if found.Raised? {
        return Raised(UnsupportedQuery);
      }
      var k := found.value;
      if k == |rows| {
        if upsert.None? {
          return Ok(Done(0, 0));
        }
        var inserted := InsertOne(upsert.value, doc, refused);
        return if inserted.Ok? then Ok(Done(0, 0)) else Raised(inserted.error);
      }
      if refused {
        return Raised(DuplicateKey);
      }
      rows := rows[k := Row(rows[k].id, doc["_id" := Str(rows[k].id)])];
      return Ok(Done(1, 1));
    }

    /** `delete_one`: the first match and nothing else. */
    method DeleteOne(flt: Filter) returns (r: Outcome<nat, Error>)
      requires Valid() && (FilterTests(columns, flt).Ok? ==> Clean(columns, rows, flt))
      modifies this`rows
      ensures Valid()
      ensures r.Ok? <==> FilterTests(columns, flt).Ok?
      ensures r.Raised? ==> rows == old(rows)
      ensures r.Ok? ==> exists k: nat :: FirstMatch(old(rows), flt, k) &&
                          if k < |old(rows)| then rows == old(rows)[..k] + old(rows)[k + 1..] && r.value == 1
                          else rows == old(rows) && r.value == 0
    {
      var found := FetchOne(flt);
      if found.Raised? {
        r := Raised(found.error);
      } else if found.value == |rows| {
        r := Ok(0);
      } else {
        rows := rows[..found.value] + rows[found.value + 1..];
        r := Ok(1);
      }
    }
  }

  // The in-memory stand-in's `find`.
  ghost function Matching(rows: seq<Row>, flt: Filter): seq<Doc> {
    if rows == [] then []
    else
      var last := rows[|rows| - 1];
      Matching(rows[..|rows| - 1], flt) + if Matches(Typed, last.doc, flt) then [last.doc] else []
  }

  // `docs` are the documents of the rows numbered `at`: each row that matches, once, in the order of the rows.
  ghost predicate Selection(rows: seq<Row>, flt: Filter, at: seq<nat>, docs: seq<Doc>) {
    && |docs| == |at| && (forall i, j :: 0 <= i < j < |at| ==> at[i] < at[j])
    && (forall i :: 0 <= i < |at| ==> at[i] < |rows| && docs[i] == rows[at[i]].doc)
    && (forall k: nat :: k in at <==> k < |rows| && Matches(Typed, rows[k].doc, flt))
  }

  lemma {:induction false} MatchingSelects(rows: seq<Row>, flt: Filter) returns (at: seq<nat>)
    ensures Selection(rows, flt, at, Matching(rows, flt))
  {
    at := [];
    if rows != [] {
      var n := |rows| - 1;
      var init := rows[..n];
      at := MatchingSelects(init, flt);
      OneMoreRow(rows, flt, at, Matching(init, flt));
      if Matches(Typed, rows[n].doc, flt) { at := at + [n]; }
    }
  }

  lemma OneMoreRow(rows: seq<Row>, flt: Filter, at: seq<nat>, docs: seq<Doc>)
    requires rows != [] && Selection(rows[..|rows| - 1], flt, at, docs)
    ensures var n := |rows| - 1;
            if Matches(Typed, rows[n].doc, flt) then Selection(rows, flt, at + [n], docs + [rows[n].doc])
            else Selection(rows, flt, at, docs)
  {
    hide Matches;
    var n := |rows| - 1;
    forall k: nat | k < n ensures rows[..n][k] == rows[k] {}
    forall k: nat ensures k in at + [n] <==> k in at || k == n {}
    forall k: nat ensures k in at <==> k < n && Matches(Typed, rows[k].doc, flt) {
      assert k < n ==> rows[..n][k] == rows[k];
    }
  }
}
