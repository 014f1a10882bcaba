/**
 The filter-to-SQL translation (src/sqlitedb.py): a MongoDB-style filter becomes the text of a `WHERE` clause,
 and the clause has to be true, not merely not false, of exactly the documents the filter matches.

 SQL text is a list of its lexical units, `Tok`; `Text` spells it out. `Parse` is SQL's own reading of such a
 list, with AND binding tighter than OR, and `Eval` its three-valued meaning.
 */
module SqlFilter {
  import opened Wrappers

  // ------------------------------------------------------------------ documents and filters

  /**
   A field's value; one number type, since an integer and a real compare by value. A list, or an object with
   its names in order, is `Nested`; no filter can ask anything of one, but documents are full of them.
   */
  datatype Value = Null | Bool(b: bool) | Num(n: real) | Str(s: string) | Nested(shape: string, items: seq<Value>)

  type Doc = map<string, Value>

  // `doc.get(field)`.
  function Get(doc: Doc, field: string): Value { if field in doc then doc[field] else Null }

  // What a filter asks of one field: operators, a value, or something no backend models.
  datatype Expected = Operators(ops: seq<(string, Value)>) | Equals(v: Value)

  type Filter = seq<(string, Expected)>

  datatype Error = UnsupportedQuery | CannotBind | DuplicateKey | DuplicateColumn

  // `^[A-Za-z_][A-Za-z0-9_]*$`, as `match` reads it: the `$` also matches before one newline that ends the text.
  predicate NameStart(c: char) { 'A' <= c <= 'Z' || 'a' <= c <= 'z' || c == '_' }

  predicate NameChar(c: char) { NameStart(c) || '0' <= c <= '9' }

  predicate FieldOk(f: string) { PlainName(f) || (f != [] && f[|f| - 1] == '\n' && PlainName(f[..|f| - 1])) }

  predicate PlainName(f: string) { f != [] && NameStart(f[0]) && forall i :: 0 <= i < |f| ==> NameChar(f[i]) }

  // ------------------------------------------------------------------ SQL

  datatype Cmp = Eq | Ne | Gt | Ge | Lt | Le

  datatype Expr = Column(field: string) | Extract(field: string) | TypeOf(field: string)

  // A bound parameter, or a literal in its place.
  datatype Arg = Hole(k: nat) | Lit(v: Value)

  datatype Cond =
    | Always
    | IsNull(e: Expr)
    | NotNull(e: Expr)
    | InNumeric(e: Expr)
    | Compare(e: Expr, op: Cmp, arg: Arg)
    | And(l: Cond, r: Cond)
    | Or(l: Cond, r: Cond)

  datatype Tok = LParen | RParen | KAnd | KOr | One | TExpr(e: Expr) | KIsNull | KNotNull | KNumeric | TOp(op: Cmp)
    | THole | TLit(v: Value)

  // What SQLite computes with.
  datatype SqlVal = SNull | SNum(n: real) | SText(s: string)

  datatype Tri = True | False | Unknown

  function AndTri(a: Tri, b: Tri): Tri {
    if a == False || b == False then False else if a == True && b == True then True else Unknown
  }

  function OrTri(a: Tri, b: Tri): Tri {
    if a == True || b == True then True else if a == False && b == False then False else Unknown
  }

  function ToTri(b: bool): Tri { if b then True else False }

  // `json_extract`; a missing field and a stored null are both NULL, and true is the number 1.
  function ExtractValue(v: Value): SqlVal {
    match v
    case Null => SNull
    case Bool(b) => SNum(if b then 1.0 else 0.0)
    case Num(n) => SNum(n)
    case Str(s) => SText(s)
    case Nested(_, _) => SText([]) // some text; nothing below depends on it
  }

  // `json_type`: NULL for a missing field, a name otherwise.
  function TypeName(doc: Doc, f: string): SqlVal {
    if f !in doc then SNull
    else match doc[f]
      case Null => SText("null")
      case Bool(b) => SText(if b then "true" else "false")
      case Num(n) => SText(if n == n.Floor as real then "integer" else "real")
      case Str(_) => SText("text")
      case Nested(_, _) => SText("array")
  }

  // How a parameter binds: Python's `True` is the integer 1 to SQLite.
  function Bound(v: Value): SqlVal { ExtractValue(v) }

  // A generated column is `json_extract` of its field, by its declaration.
  function EvalExpr(doc: Doc, e: Expr): SqlVal {
    match e
    case Column(f) => ExtractValue(Get(doc, f))
    case Extract(f) => ExtractValue(Get(doc, f))
    case TypeOf(f) => TypeName(doc, f)
  }

  // Text order; only its being an order on unequal strings matters here.
  predicate TextLess(a: string, b: string) {
    b != [] && (a == [] || a[0] < b[0] || (a[0] == b[0] && TextLess(a[1..], b[1..])))
  }

  // SQLite compares across storage classes: numbers sort before text.
  predicate SqlLess(a: SqlVal, b: SqlVal) {
    match (a, b)
    case (SNum(x), SNum(y)) => x < y
    case (SNum(_), SText(_)) => true
    case (SText(x), SText(y)) => TextLess(x, y)
    case _ => false
  }

  function CompareVals(op: Cmp, a: SqlVal, b: SqlVal): Tri {
    if a == SNull || b == SNull then Unknown
    else ToTri(
      match op
      case Eq => a == b
      case Ne => a != b
      case Gt => SqlLess(b, a)
      case Ge => SqlLess(b, a) || a == b
      case Lt => SqlLess(a, b)
      case Le => SqlLess(a, b) || a == b)
  }

  function Eval(doc: Doc, params: seq<Value>, c: Cond): Tri {
    match c
    case Always => True
    case IsNull(e) => ToTri(EvalExpr(doc, e) == SNull)
    case NotNull(e) => ToTri(EvalExpr(doc, e) != SNull)
    case InNumeric(e) =>
      var t := EvalExpr(doc, e);
      if t == SNull then Unknown else ToTri(t == SText("integer") || t == SText("real"))
    case Compare(e, op, Hole(k)) => if k < |params| then CompareVals(op, EvalExpr(doc, e), Bound(params[k])) else Unknown
    case Compare(e, op, Lit(v)) => CompareVals(op, EvalExpr(doc, e), Bound(v))
    case And(l, r) => AndTri(Eval(doc, params, l), Eval(doc, params, r))
    case Or(l, r) => OrTri(Eval(doc, params, l), Eval(doc, params, r))
  }

  // ------------------------------------------------------------------ how SQL reads a clause

  // A condition read off the front, what is left, and how many placeholders have been passed.
  datatype Reading = Reading(c: Cond, rest: seq<Tok>, n: nat)

  function ParseOr(ts: seq<Tok>, n: nat): (r: Option<Reading>)
    ensures r.Some? ==> |r.value.rest| < |ts|
    decreases |ts|, 2
  {
    var first := ParseAnd(ts, n);
    if first.None? then None else ParseOrTail(first.value)
  }

  function ParseOrTail(a: Reading): (r: Option<Reading>)
    ensures r.Some? ==> |r.value.rest| <= |a.rest|
    decreases |a.rest|, 3
  {
    if a.rest == [] || a.rest[0] != KOr then Some(a)
    else
      var next := ParseAnd(a.rest[1..], a.n);
      if next.None? then None else ParseOrTail(Reading(Or(a.c, next.value.c), next.value.rest, next.value.n))
  }

  function ParseAnd(ts: seq<Tok>, n: nat): (r: Option<Reading>)
    ensures r.Some? ==> |r.value.rest| < |ts|
    decreases |ts|, 1
  {
    var first := ParseAtom(ts, n);
    if first.None? then None else ParseAndTail(first.value)
  }

  function ParseAndTail(a: Reading): (r: Option<Reading>)
    ensures r.Some? ==> |r.value.rest| <= |a.rest|
    decreases |a.rest|, 2
  {
    if a.rest == [] || a.rest[0] != KAnd then Some(a)
    else
      var next := ParseAtom(a.rest[1..], a.n);
      if next.None? then None else ParseAndTail(Reading(And(a.c, next.value.c), next.value.rest, next.value.n))
  }

  function ParseAtom(ts: seq<Tok>, n: nat): (r: Option<Reading>)
    ensures r.Some? ==> |r.value.rest| < |ts|
    decreases |ts|, 0
  {
    if ts == [] then None
    else match ts[0]
      case One => Some(Reading(Always, ts[1..], n))
      case LParen =>
        var inner := ParseOr(ts[1..], n);
        if inner.None? || inner.value.rest == [] || inner.value.rest[0] != RParen then None
        else Some(Reading(inner.value.c, inner.value.rest[1..], inner.value.n))
      case TExpr(e) =>
        if |ts| < 2 then None
        else (match ts[1]
          case KIsNull => Some(Reading(IsNull(e), ts[2..], n))
          case KNotNull => Some(Reading(NotNull(e), ts[2..], n))
          case KNumeric => Some(Reading(InNumeric(e), ts[2..], n))
          case TOp(op) =>
            if |ts| < 3 then None
            else if ts[2] == THole then Some(Reading(Compare(e, op, Hole(n)), ts[3..], n + 1))
            else if ts[2].TLit? then Some(Reading(Compare(e, op, Lit(ts[2].v)), ts[3..], n))
            else None
          case _ => None)
      case _ => None
  }

  function Parse(ts: seq<Tok>): Option<Cond> {
    var r := ParseOr(ts, 0);
    if r.Some? && r.value.rest == [] then Some(r.value.c) else None
  }

  // ------------------------------------------------------------------ the translation

  datatype Fragment = Fragment(toks: seq<Tok>, params: seq<Value>)

  function FieldPath(f: string): Outcome<string, Error> { if FieldOk(f) then Ok(f) else Raised(UnsupportedQuery) }

  // `_Sql.value`: a generated column if there is one, the JSON otherwise.
  function ValueExpr(columns: set<string>, f: string): Outcome<Expr, Error> {
    if f in columns then Ok(Column(f)) else if FieldOk(f) then Ok(Extract(f)) else Raised(UnsupportedQuery)
  }

  function RangeOp(operator: string): Option<Cmp> {
    if operator == "$gt" then Some(Gt) else if operator == "$gte" then Some(Ge)
    else if operator == "$lt" then Some(Lt) else if operator == "$lte" then Some(Le) else None
  }

  // One test of one field, as the clause puts it; `e` is the field's column or its JSON.
  datatype Test =
    | TestNull(f: string, e: Expr)
    | TestNotNull(f: string, e: Expr)
    | TestBool(f: string, b: bool)
    | TestEqual(f: string, e: Expr, v: Value)
    | TestUnequal(f: string, e: Expr, v: Value)
    | TestRange(f: string, e: Expr, op: Cmp, v: Value)

  // Where a value goes: a placeholder and a bound parameter, or the literal itself.
  datatype Mode = Bind | Inline

  function ArgTok(v: Value, m: Mode): Tok { if m == Bind then THole else TLit(v) }

  function ArgParams(v: Value, m: Mode): seq<Value> { if m == Bind then [v] else [] }

  // Its spelling.
  function Spelled(t: Test, m: Mode): Fragment {
    match t
    case TestNull(_, e) => Fragment([TExpr(e), KIsNull], [])
    case TestNotNull(_, e) => Fragment([TExpr(e), KNotNull], [])
    case TestBool(f, b) => Fragment([TExpr(TypeOf(f)), TOp(Eq), ArgTok(TypeWord(b), m)], ArgParams(TypeWord(b), m))
    case TestEqual(_, e, v) => Fragment([TExpr(e), TOp(Eq), ArgTok(v, m)], ArgParams(v, m))
    case TestUnequal(_, e, v) =>
      Fragment([LParen, TExpr(e), KIsNull, KOr, TExpr(e), TOp(Ne), ArgTok(v, m), RParen], ArgParams(v, m))
    case TestRange(f, e, op, v) =>
      Fragment([LParen, TExpr(TypeOf(f)), KNumeric, KAnd, TExpr(e), TOp(op), ArgTok(v, m), RParen], ArgParams(v, m))
  }

  // `json_type`'s word for a boolean.
  function TypeWord(b: bool): Value { Str(if b then "true" else "false") }

  // One operator of `_operator_clause`.
  function OperatorTest(column: Expr, field: string, operator: string, operand: Value): Outcome<Test, Error> {
    if operator == "$ne" then
      Ok(if operand == Null then TestNotNull(field, column) else TestUnequal(field, column, operand))
    else if RangeOp(operator).Some? then
      if !operand.Num? || !FieldOk(field) then Raised(UnsupportedQuery)
      else Ok(TestRange(field, column, RangeOp(operator).value, operand))
    else Raised(UnsupportedQuery)
  }

  function OperatorTests(column: Expr, field: string, ops: seq<(string, Value)>): Outcome<seq<Test>, Error> {
    if ops == [] then Ok([])
    else
      var before := OperatorTests(column, field, ops[..|ops| - 1]);
      var last := OperatorTest(column, field, ops[|ops| - 1].0, ops[|ops| - 1].1);
      if before.Raised? then before else if last.Raised? then Raised(last.error) else Ok(before.value + [last.value])
  }

  // What `_clause` makes of one `field: expected` pair.
  function ClauseTests(columns: set<string>, field: string, expected: Expected): Outcome<seq<Test>, Error> {
    var value := ValueExpr(columns, field);
    if value.Raised? then Raised(value.error)
    else match expected
      case Operators(ops) => if ops == [] then Raised(UnsupportedQuery) else OperatorTests(value.value, field, ops)
      case Equals(Null) => Ok([TestNull(field, value.value)])
      case Equals(Bool(b)) => if FieldOk(field) then Ok([TestBool(field, b)]) else Raised(UnsupportedQuery)
      case Equals(Num(n)) => Ok([TestEqual(field, value.value, Num(n))])
      case Equals(Str(s)) => Ok([TestEqual(field, value.value, Str(s))])
      case Equals(Nested(_, _)) => Raised(UnsupportedQuery)
  }

  function FilterTests(columns: set<string>, flt: Filter): Outcome<seq<Test>, Error> {
    if flt == [] then Ok([])
    else
      var before := FilterTests(columns, flt[..|flt| - 1]);
      var last := ClauseTests(columns, flt[|flt| - 1].0, flt[|flt| - 1].1);
      if before.Raised? then before else if last.Raised? then Raised(last.error) else Ok(before.value + last.value)
  }

  // `" AND ".join`, with the parameters in the same order.
  function Joined(ts: seq<Test>, m: Mode): Fragment
    requires ts != []
  {
    var last := Spelled(ts[|ts| - 1], m);
    if |ts| == 1 then last
    else
      var before := Joined(ts[..|ts| - 1], m);
      Fragment(before.toks + [KAnd] + last.toks, before.params + last.params)
  }

  // An empty filter is `1`.
  function Clause(ts: seq<Test>, m: Mode): Fragment { if ts == [] then Fragment([One], []) else Joined(ts, m) }

  lemma {:induction false} JoinedConcat(a: seq<Test>, b: seq<Test>, m: Mode)
    requires a != [] && b != []
    ensures Joined(a + b, m).toks == Joined(a, m).toks + [KAnd] + Joined(b, m).toks
    ensures Joined(a + b, m).params == Joined(a, m).params + Joined(b, m).params
    decreases |b|
  {
    hide Spelled, Joined;
    var n := |b| - 1;
    var last := Spelled(b[n], m);
    assert (a + b)[|a| + n] == b[n];
    JoinedSnoc(a + b, m);
    JoinedSnoc(b, m);
    if n == 0 {
      assert (a + b)[..|a|] == a;
    } else {
      var front := b[..n];
      assert (a + b)[..|a| + n] == a + front;
      JoinedConcat(a, front, m);
      SnocAssociates(Joined(a, m).toks + [KAnd], Joined(front, m).toks, [KAnd] + last.toks);
      SnocAssociates(Joined(a, m).params, Joined(front, m).params, last.params);
      SnocAssociates(Joined(a + front, m).toks, [KAnd], last.toks);
      SnocAssociates(Joined(front, m).toks, [KAnd], last.toks);
    }
  }

  lemma JoinedSnoc(ts: seq<Test>, m: Mode)
    requires ts != []
    ensures var n := |ts| - 1; var last := Spelled(ts[n], m);
            Joined(ts, m) == if n == 0 then last
                             else Fragment(Joined(ts[..n], m).toks + [KAnd] + last.toks, Joined(ts[..n], m).params + last.params)
  {
  }

  lemma SnocAssociates<T>(a: seq<T>, b: seq<T>, c: seq<T>)
    ensures a + (b + c) == (a + b) + c
  {
  }

  lemma TestsFail(column: Expr, field: string, ops: seq<(string, Value)>, n: nat)
    requires n <= |ops| && OperatorTests(column, field, ops[..n]).Raised?
    ensures OperatorTests(column, field, ops) == OperatorTests(column, field, ops[..n])
    decreases |ops|
  {
    if n < |ops| {
      assert ops[..|ops| - 1][..n] == ops[..n];
      TestsFail(column, field, ops[..|ops| - 1], n);
    } else {
      assert ops[..n] == ops;
    }
  }

  // `_operator_clause`: one fragment an operator, in a loop.
  method OperatorClause(column: Expr, field: string, ops: seq<(string, Value)>) returns (r: Outcome<Fragment, Error>)
    requires ops != []
    ensures r.Raised? <==> OperatorTests(column, field, ops).Raised?
    ensures r.Ok? ==> OperatorTests(column, field, ops).value != [] && r.value == Joined(OperatorTests(column, field, ops).value, Bind)
  {
    var toks: seq<Tok>, params: seq<Value> := [], [];
    ghost var tests: seq<Test> := [];
    assert ops[..0] == [];
    for i := 0 to |ops|
      invariant OperatorTests(column, field, ops[..i]) == Ok(tests) && |tests| == i
      invariant i > 0 ==> Fragment(toks, params) == Joined(tests, Bind)
      invariant i == 0 ==> toks == [] && params == []
    {
      assert ops[..i + 1][..i] == ops[..i];
      var test := OperatorTest(column, field, ops[i].0, ops[i].1);
      if test.Raised? {
        TestsFail(column, field, ops, i + 1);
        return Raised(test.error);
      }
      var one := Spelled(test.value, Bind);
      assert (tests + [test.value])[..i] == tests;
      toks := if i == 0 then one.toks else toks + [KAnd] + one.toks;
      params := params + one.params;
      tests := tests + [test.value];
    }
    assert ops[..|ops|] == ops;
    return Ok(Fragment(toks, params));
  }

  // `_clause`.
  method ClauseFor(columns: set<string>, field: string, expected: Expected) returns (r: Outcome<Fragment, Error>)
    ensures r.Raised? <==> ClauseTests(columns, field, expected).Raised?
    ensures r.Ok? ==> ClauseTests(columns, field, expected).value != []
                      && r.value == Joined(ClauseTests(columns, field, expected).value, Bind)
  {
    var value := ValueExpr(columns, field);
    if value.Raised? {
      r := Raised(value.error);
    } else {
      match expected
      case Operators(ops) =>
        if ops == [] { r := Raised(UnsupportedQuery); } else { r := OperatorClause(value.value, field, ops); }
      case Equals(Null) => r := Ok(Spelled(TestNull(field, value.value), Bind));
      case Equals(Bool(b)) =>
        var path := FieldPath(field);
        r := if path.Raised? then Raised(path.error) else Ok(Spelled(TestBool(field, b), Bind));
      case Equals(Num(n)) => r := Ok(Spelled(TestEqual(field, value.value, Num(n)), Bind));
      case Equals(Str(s)) => r := Ok(Spelled(TestEqual(field, value.value, Str(s)), Bind));
      case Equals(Nested(_, _)) => r := Raised(UnsupportedQuery);
    }
  }

  // `_where`.
  method Where(columns: set<string>, flt: Filter) returns (r: Outcome<Fragment, Error>)
    ensures r.Raised? <==> FilterTests(columns, flt).Raised?
    ensures r.Ok? ==> r.value == Clause(FilterTests(columns, flt).value, Bind)
  {
    if flt == [] {
      return Ok(Fragment([One], []));
    }
    var toks: seq<Tok>, params: seq<Value> := [], [];
    ghost var tests: seq<Test> := [];
    assert flt[..0] == [];
    for i := 0 to |flt|
      invariant FilterTests(columns, flt[..i]) == Ok(tests) && (i > 0 ==> tests != [])
      invariant i > 0 ==> Fragment(toks, params) == Joined(tests, Bind)
      invariant i == 0 ==> toks == [] && params == [] && tests == []
    {
      assert flt[..i + 1][..i] == flt[..i];
      var one := ClauseFor(columns, flt[i].0, flt[i].1);
      if one.Raised? {
        FilterFails(columns, flt, i + 1);
        return Raised(one.error);
      }
      ghost var more := ClauseTests(columns, flt[i].0, flt[i].1).value;
      if i > 0 { JoinedConcat(tests, more, Bind); } else { assert tests + more == more; }
      toks := if i == 0 then one.value.toks else toks + [KAnd] + one.value.toks;
      params := params + one.value.params;
      tests := tests + more;
    }
    assert flt[..|flt|] == flt;
    return Ok(Fragment(toks, params));
  }

  lemma FilterFails(columns: set<string>, flt: Filter, n: nat)
    requires n <= |flt| && FilterTests(columns, flt[..n]).Raised?
    ensures FilterTests(columns, flt) == FilterTests(columns, flt[..n])
    decreases |flt|
  {
    if n < |flt| {
      assert flt[..|flt| - 1][..n] == flt[..n];
      FilterFails(columns, flt[..|flt| - 1], n);
    } else {
      assert flt[..n] == flt;
    }
  }

  // ------------------------------------------------------------------ SQL reads the clause as it was meant

  function ArgOf(v: Value, n: nat, m: Mode): Arg { if m == Bind then Hole(n) else Lit(v) }

  // A test as a condition, its parameters numbered from `n`.
  function CondOf(t: Test, n: nat, m: Mode): Cond {
    match t
    case TestNull(_, e) => IsNull(e)
    case TestNotNull(_, e) => NotNull(e)
    case TestBool(f, b) => Compare(TypeOf(f), Eq, ArgOf(TypeWord(b), n, m))
    case TestEqual(_, e, v) => Compare(e, Eq, ArgOf(v, n, m))
    case TestUnequal(_, e, v) => Or(IsNull(e), Compare(e, Ne, ArgOf(v, n, m)))
    case TestRange(f, e, op, v) => And(InNumeric(TypeOf(f)), Compare(e, op, ArgOf(v, n, m)))
  }

  // A test is an atom to SQL: what follows it does not change how it is read.
  lemma TestReads(t: Test, rest: seq<Tok>, n: nat, m: Mode)
    ensures ParseAtom(Spelled(t, m).toks + rest, n) == Some(Reading(CondOf(t, n, m), rest, n + |Spelled(t, m).params|))
  {
    match t
    case TestNull(_, e) => assert ([TExpr(e), KIsNull] + rest)[2..] == rest;
    case TestNotNull(_, e) => assert ([TExpr(e), KNotNull] + rest)[2..] == rest;
    case TestBool(f, b) => CompareReads(TypeOf(f), Eq, TypeWord(b), rest, n, m);
    case TestEqual(_, e, v) => CompareReads(e, Eq, v, rest, n, m);
    case TestUnequal(_, e, v) =>
      UnequalReads(e, v, rest, n, m);
      assert Spelled(t, m).toks == [LParen] + [TExpr(e), KIsNull, KOr, TExpr(e), TOp(Ne), ArgTok(v, m), RParen];
      InParens([TExpr(e), KIsNull, KOr, TExpr(e), TOp(Ne), ArgTok(v, m), RParen], rest, n);
    case TestRange(f, e, op, v) =>
      RangeReads(f, e, op, v, rest, n, m);
      assert Spelled(t, m).toks == [LParen] + [TExpr(TypeOf(f)), KNumeric, KAnd, TExpr(e), TOp(op), ArgTok(v, m), RParen];
      InParens([TExpr(TypeOf(f)), KNumeric, KAnd, TExpr(e), TOp(op), ArgTok(v, m), RParen], rest, n);
  }

  lemma CompareReads(e: Expr, op: Cmp, v: Value, rest: seq<Tok>, n: nat, m: Mode)
    ensures ParseAtom([TExpr(e), TOp(op), ArgTok(v, m)] + rest, n)
            == Some(Reading(Compare(e, op, ArgOf(v, n, m)), rest, n + |ArgParams(v, m)|))
  {
    assert ([TExpr(e), TOp(op), ArgTok(v, m)] + rest)[3..] == rest;
  }

  // What stands in parentheses is read on its own.
  lemma InParens(inner: seq<Tok>, rest: seq<Tok>, n: nat)
    requires var r := ParseOr(inner + rest, n); r.Some? && r.value.rest == [RParen] + rest
    ensures [LParen] + inner + rest == [LParen] + (inner + rest)
    ensures var r := ParseOr(inner + rest, n).value;
            ParseAtom([LParen] + inner + rest, n) == Some(Reading(r.c, rest, r.n))
  {
    hide ParseOr;
    assert ([LParen] + inner + rest)[1..] == inner + rest;
    assert ([RParen] + rest)[1..] == rest;
  }

  lemma UnequalReads(e: Expr, v: Value, rest: seq<Tok>, n: nat, m: Mode)
    ensures ParseOr([TExpr(e), KIsNull, KOr, TExpr(e), TOp(Ne), ArgTok(v, m), RParen] + rest, n)
            == Some(Reading(Or(IsNull(e), Compare(e, Ne, ArgOf(v, n, m))), [RParen] + rest, n + |ArgParams(v, m)|))
  {
    var inner := [TExpr(e), KIsNull, KOr, TExpr(e), TOp(Ne), ArgTok(v, m), RParen] + rest;
    var second, last := [TExpr(e), TOp(Ne), ArgTok(v, m), RParen] + rest, [RParen] + rest;
    assert inner[2..] == [KOr] + second;
    assert second[3..] == last;
    assert ParseAtom(inner, n) == Some(Reading(IsNull(e), [KOr] + second, n));
    assert ParseAnd(inner, n) == Some(Reading(IsNull(e), [KOr] + second, n));
    assert ParseAtom(second, n) == Some(Reading(Compare(e, Ne, ArgOf(v, n, m)), last, n + |ArgParams(v, m)|));
    assert ParseAnd(second, n) == Some(Reading(Compare(e, Ne, ArgOf(v, n, m)), last, n + |ArgParams(v, m)|));
    assert ([KOr] + second)[1..] == second;
    assert ParseOrTail(Reading(Or(IsNull(e), Compare(e, Ne, ArgOf(v, n, m))), last, n + |ArgParams(v, m)|))
        == Some(Reading(Or(IsNull(e), Compare(e, Ne, ArgOf(v, n, m))), last, n + |ArgParams(v, m)|));
    assert ParseOrTail(Reading(IsNull(e), [KOr] + second, n))
        == Some(Reading(Or(IsNull(e), Compare(e, Ne, ArgOf(v, n, m))), last, n + |ArgParams(v, m)|));
  }

  lemma RangeReads(f: string, e: Expr, op: Cmp, v: Value, rest: seq<Tok>, n: nat, m: Mode)
    ensures ParseOr([TExpr(TypeOf(f)), KNumeric, KAnd, TExpr(e), TOp(op), ArgTok(v, m), RParen] + rest, n)
            == Some(Reading(And(InNumeric(TypeOf(f)), Compare(e, op, ArgOf(v, n, m))), [RParen] + rest, n + |ArgParams(v, m)|))
  {
    var inner := [TExpr(TypeOf(f)), KNumeric, KAnd, TExpr(e), TOp(op), ArgTok(v, m), RParen] + rest;
    var second, last := [TExpr(e), TOp(op), ArgTok(v, m), RParen] + rest, [RParen] + rest;
    var both := And(InNumeric(TypeOf(f)), Compare(e, op, ArgOf(v, n, m)));
    assert inner[2..] == [KAnd] + second;
    assert second[3..] == last;
    assert ParseAtom(inner, n) == Some(Reading(InNumeric(TypeOf(f)), [KAnd] + second, n));
    assert ([KAnd] + second)[1..] == second;
    assert ParseAtom(second, n) == Some(Reading(Compare(e, op, ArgOf(v, n, m)), last, n + |ArgParams(v, m)|));
    assert ParseAndTail(Reading(both, last, n + |ArgParams(v, m)|)) == Some(Reading(both, last, n + |ArgParams(v, m)|));
    assert ParseAndTail(Reading(InNumeric(TypeOf(f)), [KAnd] + second, n)) == Some(Reading(both, last, n + |ArgParams(v, m)|));
    assert ParseAnd(inner, n) == Some(Reading(both, last, n + |ArgParams(v, m)|));
    assert ParseOrTail(Reading(both, last, n + |ArgParams(v, m)|)) == Some(Reading(both, last, n + |ArgParams(v, m)|));
  }

  // What comes after the first test of a clause: AND and the next, over and over.
  function Tail(ts: seq<Test>, m: Mode): seq<Tok> { if ts == [] then [] else [KAnd] + Spelled(ts[0], m).toks + Tail(ts[1..], m) }

  // The condition built so far, taking in the rest one by one.
  function Fold(c: Cond, ts: seq<Test>, n: nat, m: Mode): Cond
    decreases |ts|
  {
    if ts == [] then c else Fold(And(c, CondOf(ts[0], n, m)), ts[1..], n + |Spelled(ts[0], m).params|, m)
  }

  function Params(ts: seq<Test>, m: Mode): seq<Value> { if ts == [] then [] else Spelled(ts[0], m).params + Params(ts[1..], m) }

  lemma {:induction false} TailReads(c: Cond, ts: seq<Test>, n: nat, m: Mode)
    ensures ParseAndTail(Reading(c, Tail(ts, m), n)) == Some(Reading(Fold(c, ts, n, m), [], n + |Params(ts, m)|))
    decreases |ts|
  {
    hide Spelled, CondOf, ParseAtom;
    if ts != [] {
      var one, rest := Spelled(ts[0], m), Tail(ts[1..], m);
      var k := n + |one.params|;
      assert Tail(ts, m) == [KAnd] + (one.toks + rest);
      TestReads(ts[0], rest, n, m);
      TailReads(And(c, CondOf(ts[0], n, m)), ts[1..], k, m);
      assert Fold(c, ts, n, m) == Fold(And(c, CondOf(ts[0], n, m)), ts[1..], k, m);
      assert |Params(ts, m)| == |one.params| + |Params(ts[1..], m)|;
      hide Tail, Fold, Params;
      NextAtom(c, one.toks + rest, n, And(c, CondOf(ts[0], n, m)), rest, k);
    }
  }

  lemma NextAtom(c: Cond, ts: seq<Tok>, n: nat, c': Cond, rest: seq<Tok>, n': nat)
    requires ParseAtom(ts, n).Some? && c' == And(c, ParseAtom(ts, n).value.c)
    requires ParseAtom(ts, n).value.rest == rest && ParseAtom(ts, n).value.n == n'
    ensures ParseAndTail(Reading(c, [KAnd] + ts, n)) == ParseAndTail(Reading(c', rest, n'))
  {
    hide ParseAtom;
    assert ([KAnd] + ts)[1..] == ts;
  }

  lemma {:induction false} JoinedIsTail(ts: seq<Test>, m: Mode)
    requires ts != []
    ensures Joined(ts, m).toks == Spelled(ts[0], m).toks + Tail(ts[1..], m) && Joined(ts, m).params == Params(ts, m)
    decreases |ts|
  {
    hide Spelled;
    if |ts| == 1 {
      assert ts[1..] == [] && Params(ts[1..], m) == [];
    } else {
      var rest := ts[1..];
      JoinedConcat([ts[0]], rest, m);
      assert [ts[0]] + rest == ts;
      JoinedIsTail(rest, m);
      assert Joined([ts[0]], m) == Spelled(ts[0], m);
      var head, next, more := Spelled(ts[0], m).toks, Spelled(rest[0], m).toks, Tail(rest[1..], m);
      assert Tail(rest, m) == [KAnd] + next + more;
      hide Joined, Tail, Params;
      assert head + [KAnd] + (next + more) == head + ([KAnd] + next + more);
    }
  }

  /** SQL reads the clause as the conjunction of its tests, each with its own parameters. */
  lemma ClauseReads(ts: seq<Test>, m: Mode)
    requires ts != []
    ensures Parse(Joined(ts, m).toks) == Some(Fold(CondOf(ts[0], 0, m), ts[1..], |Spelled(ts[0], m).params|, m))
  {
    hide Spelled, CondOf, Fold, Tail, Joined, Parse, ParseOr, ParseOrTail, ParseAnd, ParseAndTail, ParseAtom;
    JoinedIsTail(ts, m);
    var n := |Spelled(ts[0], m).params|;
    TestReads(ts[0], Tail(ts[1..], m), 0, m);
    TailReads(CondOf(ts[0], 0, m), ts[1..], n, m);
    ParseByAnd(Joined(ts, m).toks, Reading(CondOf(ts[0], 0, m), Tail(ts[1..], m), n),
               Fold(CondOf(ts[0], 0, m), ts[1..], n, m), n + |Params(ts[1..], m)|);
  }

  // A list that reads as one conjunction, to its end.
  lemma ParseByAnd(toks: seq<Tok>, first: Reading, all: Cond, n: nat)
    requires ParseAtom(toks, 0) == Some(first) && ParseAndTail(first) == Some(Reading(all, [], n))
    ensures Parse(toks) == Some(all)
  {
    hide ParseAtom, ParseAndTail;
    assert ParseAnd(toks, 0) == Some(Reading(all, [], n));
    hide ParseAnd;
    assert ParseOrTail(Reading(all, [], n)) == Some(Reading(all, [], n));
  }

  // ------------------------------------------------------------------ what the clause means

  ghost predicate TestTrue(doc: Doc, t: Test) { Eval(doc, Spelled(t, Bind).params, CondOf(t, 0, Bind)) == True }

  // The parameters of a test sit at `n`, if it has any.
  ghost predicate BoundAt(ps: seq<Value>, t: Test, n: nat, m: Mode) {
    var own := Spelled(t, Bind).params;
    m == Bind ==> n + |own| <= |ps| && ps[n..n + |own|] == own
  }

  // The three-valued answer of a test, worked out.
  ghost predicate Answer(doc: Doc, t: Test) {
    match t
    case TestNull(_, e) => EvalExpr(doc, e) == SNull
    case TestNotNull(_, e) => EvalExpr(doc, e) != SNull
    case TestBool(f, b) => CompareVals(Eq, TypeName(doc, f), Bound(TypeWord(b))) == True
    case TestEqual(_, e, v) => CompareVals(Eq, EvalExpr(doc, e), Bound(v)) == True
    case TestUnequal(_, e, v) => EvalExpr(doc, e) == SNull || CompareVals(Ne, EvalExpr(doc, e), Bound(v)) == True
    case TestRange(f, e, op, v) =>
      (TypeName(doc, f) == SText("integer") || TypeName(doc, f) == SText("real"))
      && CompareVals(op, EvalExpr(doc, e), Bound(v)) == True
  }

  lemma TestValueAt(doc: Doc, ps: seq<Value>, t: Test, n: nat, m: Mode)
    requires BoundAt(ps, t, n, m)
    ensures Eval(doc, ps, CondOf(t, n, m)) == True <==> Answer(doc, t)
  {
    var own := Spelled(t, Bind).params;
    if m == Bind && |own| == 1 { assert ps[n..n + 1][0] == ps[n] == own[0]; }
    hide EvalExpr, CompareVals;
    match t
    case TestUnequal(_, e, v) =>
      assert Eval(doc, ps, Compare(e, Ne, ArgOf(v, n, m))) == CompareVals(Ne, EvalExpr(doc, e), Bound(v));
      assert Eval(doc, ps, IsNull(e)) == ToTri(EvalExpr(doc, e) == SNull);
    case TestRange(f, e, op, v) =>
      assert Eval(doc, ps, Compare(e, op, ArgOf(v, n, m))) == CompareVals(op, EvalExpr(doc, e), Bound(v));
      TypeIs(doc, f);
      var named := TypeName(doc, f) == SText("integer") || TypeName(doc, f) == SText("real");
      assert Eval(doc, ps, InNumeric(TypeOf(f))) == if TypeName(doc, f) == SNull then Unknown else ToTri(named);
    case _ =>
      if t.TestBool? { TypeIs(doc, t.f); }
  }

  lemma TypeIs(doc: Doc, f: string)
    ensures EvalExpr(doc, TypeOf(f)) == TypeName(doc, f)
  {
  }

  // One test, wherever its parameters sit, and with literals in their place.
  lemma TestAnywhere(doc: Doc, ps: seq<Value>, t: Test, n: nat, m: Mode)
    requires BoundAt(ps, t, n, m)
    ensures Eval(doc, ps, CondOf(t, n, m)) == True <==> TestTrue(doc, t)
  {
    TestValueAt(doc, ps, t, n, m);
    TestValue(doc, t);
  }

  lemma TestValue(doc: Doc, t: Test)
    ensures TestTrue(doc, t) <==> Answer(doc, t)
  {
    var own := Spelled(t, Bind).params;
    assert own[0..0 + |own|] == own;
    TestValueAt(doc, own, t, 0, Bind);
  }

  lemma {:induction false} FoldTrue(doc: Doc, ps: seq<Value>, c: Cond, ts: seq<Test>, n: nat, m: Mode)
    requires m == Bind ==> n + |Params(ts, Bind)| <= |ps| && ps[n..n + |Params(ts, Bind)|] == Params(ts, Bind)
    ensures Eval(doc, ps, Fold(c, ts, n, m)) == True
            <==> Eval(doc, ps, c) == True && forall i :: 0 <= i < |ts| ==> TestTrue(doc, ts[i])
    decreases |ts|
  {
    hide Spelled, CondOf, TestTrue;
    if ts != [] {
      var k := |Spelled(ts[0], m).params|;
      if m == Bind {
        assert ps[n..n + k] == ps[n..n + |Params(ts, m)|][..k];
        assert ps[n + k..n + k + |Params(ts[1..], m)|] == ps[n..n + |Params(ts, m)|][k..];
      }
      TestAnywhere(doc, ps, ts[0], n, m);
      FoldTrue(doc, ps, And(c, CondOf(ts[0], n, m)), ts[1..], n + k, m);
      assert forall i :: 0 <= i < |ts[1..]| ==> ts[1..][i] == ts[i + 1];
      assert (forall i :: 0 <= i < |ts| ==> TestTrue(doc, ts[i]))
        <==> TestTrue(doc, ts[0]) && (forall i :: 0 <= i < |ts[1..]| ==> TestTrue(doc, ts[1..][i]));
    }
  }

  // The clause is true: read by SQL, evaluated with its parameters bound.
  predicate Selects(doc: Doc, f: Fragment) { Parse(f.toks).Some? && Eval(doc, f.params, Parse(f.toks).value) == True }

  /** A clause, whichever way it carries its values, is true exactly when each of its tests is. */
  lemma ClauseMeans(doc: Doc, ts: seq<Test>, m: Mode)
    ensures Selects(doc, Clause(ts, m)) <==> forall i :: 0 <= i < |ts| ==> TestTrue(doc, ts[i])
  {
    hide TestTrue, Spelled, CondOf;
    if ts == [] {
      assert Parse([One]) == Some(Always);
    } else {
      ClauseReads(ts, m);
      JoinedIsTail(ts, m);
      var k, ps := |Spelled(ts[0], m).params|, Params(ts, m);
      if m == Bind {
        assert ps[0..k] == Spelled(ts[0], m).params;
        assert ps[k..k + |Params(ts[1..], m)|] == Params(ts[1..], m);
      }
      TestAnywhere(doc, ps, ts[0], 0, m);
      FoldTrue(doc, ps, CondOf(ts[0], 0, m), ts[1..], k, m);
      assert forall i :: 0 <= i < |ts[1..]| ==> ts[1..][i] == ts[i + 1];
      assert (forall i :: 0 <= i < |ts| ==> TestTrue(doc, ts[i]))
        <==> TestTrue(doc, ts[0]) && (forall i :: 0 <= i < |ts[1..]| ==> TestTrue(doc, ts[1..][i]));
    }
  }

  // ------------------------------------------------------------------ what the filter means

  // MongoDB's equality keeps types apart; the in-memory stand-in of the tests uses Python's, where true is 1.
  datatype Equality = Typed | Python

  predicate Same(eq: Equality, a: Value, b: Value) {
    || a == b
    || (eq == Python && AsNumber(a).Some? && AsNumber(a) == AsNumber(b))
    || (eq == Python && a.Nested? && b.Nested? && a.shape == b.shape && |a.items| == |b.items|
        && forall i :: 0 <= i < |a.items| ==> Same(eq, a.items[i], b.items[i]))
  }

  function AsNumber(v: Value): Option<real> {
    match v
    case Num(n) => Some(n)
    case Bool(b) => Some(if b then 1.0 else 0.0)
    case _ => None
  }

  predicate InRange(op: Cmp, a: Value, b: Value) {
    a.Num? && b.Num? && match op
    case Gt => a.n > b.n
    case Ge => a.n >= b.n
    case Lt => a.n < b.n
    case Le => a.n <= b.n
    case Eq => false
    case Ne => false
  }

  predicate OperatorMatches(eq: Equality, actual: Value, operator: string, operand: Value) {
    if operator == "$ne" then !Same(eq, actual, operand)
    else RangeOp(operator).Some? && InRange(RangeOp(operator).value, actual, operand)
  }

  ghost predicate FieldMatches(eq: Equality, actual: Value, expected: Expected) {
    match expected
    case Operators(ops) => forall i :: 0 <= i < |ops| ==> OperatorMatches(eq, actual, ops[i].0, ops[i].1)
    case Equals(v) => Same(eq, actual, v)
  }

  ghost predicate Matches(eq: Equality, doc: Doc, flt: Filter) {
    forall i :: 0 <= i < |flt| ==> FieldMatches(eq, Get(doc, flt[i].0), flt[i].1)
  }

  // What a test is meant to ask.
  predicate Meant(eq: Equality, doc: Doc, t: Test) {
    match t
    case TestNull(f, _) => Get(doc, f) == Null
    case TestNotNull(f, _) => Get(doc, f) != Null
    case TestBool(f, b) => Same(eq, Get(doc, f), Bool(b))
    case TestEqual(f, _, v) => Same(eq, Get(doc, f), v)
    case TestUnequal(f, _, v) => !Same(eq, Get(doc, f), v)
    case TestRange(f, _, op, v) => InRange(op, Get(doc, f), v)
  }

  // How the translation builds them.
  predicate Proper(t: Test) {
    match t
    case TestNull(f, e) => e == Column(f) || e == Extract(f)
    case TestNotNull(f, e) => e == Column(f) || e == Extract(f)
    case TestBool(_, _) => true
    case TestEqual(f, e, v) => (e == Column(f) || e == Extract(f)) && (v.Num? || v.Str?)
    case TestUnequal(f, e, v) => (e == Column(f) || e == Extract(f)) && v != Null
    case TestRange(f, e, op, v) => (e == Column(f) || e == Extract(f)) && v.Num? && op != Eq && op != Ne
  }

  lemma {:induction false} OperatorTestsMean(eq: Equality, doc: Doc, column: Expr, field: string, ops: seq<(string, Value)>)
    requires OperatorTests(column, field, ops).Ok? && (column == Column(field) || column == Extract(field))
    ensures var ts := OperatorTests(column, field, ops).value;
            && |ts| == |ops|
            && (forall i :: 0 <= i < |ops| ==> Proper(ts[i]))
            && (forall i :: 0 <= i < |ops| ==>
                  (Meant(eq, doc, ts[i]) <==> OperatorMatches(eq, Get(doc, field), ops[i].0, ops[i].1)))
  {
    if ops != [] {
      var n := |ops| - 1;
      OperatorTestsMean(eq, doc, column, field, ops[..n]);
      var ts := OperatorTests(column, field, ops).value;
      forall i | 0 <= i < |ops|
        ensures Proper(ts[i]) && (Meant(eq, doc, ts[i]) <==> OperatorMatches(eq, Get(doc, field), ops[i].0, ops[i].1))
      {
        if i < n { assert ops[..n][i] == ops[i]; }
      }
    }
  }

  lemma ClauseTestsMean(eq: Equality, doc: Doc, columns: set<string>, field: string, expected: Expected)
    requires ClauseTests(columns, field, expected).Ok?
    ensures var ts := ClauseTests(columns, field, expected).value;
            && (forall i :: 0 <= i < |ts| ==> Proper(ts[i]))
            && (FieldMatches(eq, Get(doc, field), expected) <==> forall i :: 0 <= i < |ts| ==> Meant(eq, doc, ts[i]))
  {
    if expected.Operators? {
      OperatorTestsMean(eq, doc, ValueExpr(columns, field).value, field, expected.ops);
    } else {
      var ts := ClauseTests(columns, field, expected).value;
      assert |ts| == 1 && Proper(ts[0]) && (Meant(eq, doc, ts[0]) <==> Same(eq, Get(doc, field), expected.v));
    }
  }

  lemma {:induction false} FilterTestsMean(eq: Equality, doc: Doc, columns: set<string>, flt: Filter)
    requires FilterTests(columns, flt).Ok?
    ensures var ts := FilterTests(columns, flt).value;
            && (forall i :: 0 <= i < |ts| ==> Proper(ts[i]))
            && (Matches(eq, doc, flt) <==> forall i :: 0 <= i < |ts| ==> Meant(eq, doc, ts[i]))
  {
    hide Meant, Proper, FieldMatches, ClauseTests;
    if flt != [] {
      var n := |flt| - 1;
      var before, last := flt[..n], ClauseTests(columns, flt[n].0, flt[n].1).value;
      FilterTestsMean(eq, doc, columns, before);
      ClauseTestsMean(eq, doc, columns, flt[n].0, flt[n].1);
      var first := FilterTests(columns, before).value;
      assert FilterTests(columns, flt).value == first + last;
      AllOfBoth(eq, doc, first, last);
      MatchesBoth(eq, doc, flt);
    }
  }

  lemma AllOfBoth(eq: Equality, doc: Doc, a: seq<Test>, b: seq<Test>)
    ensures (forall i :: 0 <= i < |a + b| ==> Meant(eq, doc, (a + b)[i]))
            <==> (forall i :: 0 <= i < |a| ==> Meant(eq, doc, a[i])) && (forall i :: 0 <= i < |b| ==> Meant(eq, doc, b[i]))
  {
    hide Meant;
    assert forall i :: 0 <= i < |a| ==> (a + b)[i] == a[i];
    assert forall i :: 0 <= i < |b| ==> (a + b)[|a| + i] == b[i];
  }

  lemma MatchesBoth(eq: Equality, doc: Doc, flt: Filter)
    requires flt != []
    ensures Matches(eq, doc, flt)
            <==> Matches(eq, doc, flt[..|flt| - 1]) && FieldMatches(eq, Get(doc, flt[|flt| - 1].0), flt[|flt| - 1].1)
  {
    hide FieldMatches;
    assert forall i :: 0 <= i < |flt| - 1 ==> flt[..|flt| - 1][i] == flt[i];
  }

  // ------------------------------------------------------------------ where the two part

  predicate NumbersAgree(a: Value, b: Value) { AsNumber(a).Some? && AsNumber(a) == AsNumber(b) }

  // A field that holds a boolean where the filter has the number it extracts to, or the other way round.
  predicate Clashes(eq: Equality, doc: Doc, t: Test) {
    match t
    case TestBool(f, b) => eq == Python && Get(doc, f).Num? && NumbersAgree(Get(doc, f), Bool(b))
    case TestEqual(f, _, v) => eq == Typed && Get(doc, f).Bool? && NumbersAgree(Get(doc, f), v)
    case TestUnequal(f, _, v) => eq == Typed && Get(doc, f) != v && NumbersAgree(Get(doc, f), v)
    case _ => false
  }

  /** One test agrees with what it is meant to ask exactly when booleans and numbers do not meet in it. */
  lemma TestExact(eq: Equality, doc: Doc, t: Test)
    requires Proper(t) && !Get(doc, t.f).Nested? && (t.TestUnequal? ==> !t.v.Nested?)
    ensures (TestTrue(doc, t) <==> Meant(eq, doc, t)) <==> !Clashes(eq, doc, t)
  {
    TestValue(doc, t);
    hide TestTrue;
    match t
    case TestNull(f, e) =>
    case TestNotNull(f, e) =>
    case TestBool(f, b) => BoolExact(eq, doc, f, b);
    case TestEqual(f, e, v) =>
    case TestUnequal(f, e, v) =>
    case TestRange(f, e, op, v) => RangeExact(doc, t);
  }

  lemma BoolExact(eq: Equality, doc: Doc, f: string, b: bool)
    ensures TestTrue(doc, TestBool(f, b)) <==> Get(doc, f) == Bool(b)
  {
    TestValue(doc, TestBool(f, b));
    hide TestTrue;
    assert |"true"| == 4 && |"false"| == 5 && |"null"| == 4 && |"integer"| == 7 && |"real"| == 4 && |"text"| == 4 && |"array"| == 5;
    assert "true"[0] == 't' && "null"[0] == 'n' && "real"[0] == 'r' && "text"[1] == 'e' && "true"[1] == 'r' && "false"[0] == 'f';
    assert "array"[0] == 'a';
  }

  lemma RangeExact(doc: Doc, t: Test)
    requires t.TestRange? && Proper(t)
    ensures TestTrue(doc, t) <==> InRange(t.op, Get(doc, t.f), t.v)
  {
    TestValue(doc, t);
    hide TestTrue;
    assert |"true"| == 4 && |"false"| == 5 && |"null"| == 4 && |"integer"| == 7 && |"real"| == 4 && |"text"| == 4 && |"array"| == 5;
    assert "true"[0] == 't' && "null"[0] == 'n' && "real"[0] == 'r' && "text"[0] == 't';
  }

  // Nothing SQLite could not bind.
  predicate Bindable(ts: seq<Test>) { forall i :: 0 <= i < |ts| ==> (ts[i].TestUnequal? ==> !ts[i].v.Nested?) }

  // The fields it is asked about hold no list or object, and no boolean where the test has the number, or the reverse.
  predicate Answerable(eq: Equality, doc: Doc, t: Test) { !Get(doc, t.f).Nested? && !Clashes(eq, doc, t) }

  /** The generated clause is true of exactly the documents the filter matches. */
  lemma WhereIsExact(eq: Equality, doc: Doc, columns: set<string>, flt: Filter)
    requires FilterTests(columns, flt).Ok?
    requires var ts := FilterTests(columns, flt).value;
             Bindable(ts) && forall i :: 0 <= i < |ts| ==> Answerable(eq, doc, ts[i])
    ensures Selects(doc, Clause(FilterTests(columns, flt).value, Bind)) <==> Matches(eq, doc, flt)
  {
    hide TestTrue, Meant, Clashes, Matches, Selects;
    var ts := FilterTests(columns, flt).value;
    FilterTestsMean(eq, doc, columns, flt);
    ClauseMeans(doc, ts, Bind);
    forall i | 0 <= i < |ts| ensures TestTrue(doc, ts[i]) <==> Meant(eq, doc, ts[i]) {
      TestExact(eq, doc, ts[i]);
    }
  }

  // ------------------------------------------------------------------ generated columns

  predicate ColumnsOk(columns: set<string>) { forall f :: f in columns ==> FieldOk(f) }

  // The same test against another choice of columns.
  predicate Twin(a: Test, b: Test) {
    match (a, b)
    case (TestNull(f, _), TestNull(g, _)) => f == g
    case (TestNotNull(f, _), TestNotNull(g, _)) => f == g
    case (TestBool(f, x), TestBool(g, y)) => f == g && x == y
    case (TestEqual(f, _, v), TestEqual(g, _, w)) => f == g && v == w
    case (TestUnequal(f, _, v), TestUnequal(g, _, w)) => f == g && v == w
    case (TestRange(f, _, op, v), TestRange(g, _, oq, w)) => f == g && op == oq && v == w
    case _ => false
  }

  predicate Twins(a: Outcome<seq<Test>, Error>, b: Outcome<seq<Test>, Error>) {
    && (a.Ok? <==> b.Ok?)
    && (a.Ok? ==> |a.value| == |b.value| && forall i :: 0 <= i < |a.value| ==> Twin(a.value[i], b.value[i]))
  }

  lemma OperatorTwin(c: Expr, d: Expr, field: string, operator: string, operand: Value)
    ensures var x, y := OperatorTest(c, field, operator, operand), OperatorTest(d, field, operator, operand);
            (x.Ok? <==> y.Ok?) && (x.Ok? ==> Twin(x.value, y.value))
  {
  }

  lemma {:induction false} OperatorTwins(c: Expr, d: Expr, field: string, ops: seq<(string, Value)>)
    ensures Twins(OperatorTests(c, field, ops), OperatorTests(d, field, ops))
  {
    if ops != [] {
      var n := |ops| - 1;
      OperatorTwins(c, d, field, ops[..n]);
      OperatorTwin(c, d, field, ops[n].0, ops[n].1);
      hide OperatorTest, Twin;
    }
  }

  lemma {:induction false} FilterTwins(a: set<string>, b: set<string>, flt: Filter)
    requires ColumnsOk(a) && ColumnsOk(b)
    ensures Twins(FilterTests(a, flt), FilterTests(b, flt))
  {
    if flt != [] {
      var n := |flt| - 1;
      FilterTwins(a, b, flt[..n]);
      var x, y := ValueExpr(a, flt[n].0), ValueExpr(b, flt[n].0);
      if x.Ok? && flt[n].1.Operators? { OperatorTwins(x.value, y.value, flt[n].0, flt[n].1.ops); }
    }
  }

  /** Which generated columns a table has changes no answer, and no refusal. */
  lemma ColumnsDoNotMatter(doc: Doc, a: set<string>, b: set<string>, flt: Filter)
    requires ColumnsOk(a) && ColumnsOk(b)
    ensures FilterTests(a, flt).Ok? <==> FilterTests(b, flt).Ok?
    ensures FilterTests(a, flt).Ok? ==>
              (Selects(doc, Clause(FilterTests(a, flt).value, Bind)) <==> Selects(doc, Clause(FilterTests(b, flt).value, Bind)))
  {
    hide TestTrue, Selects, Proper;
    FilterTwins(a, b, flt);
    if FilterTests(a, flt).Ok? {
      var ts, us := FilterTests(a, flt).value, FilterTests(b, flt).value;
      ClauseMeans(doc, ts, Bind);
      ClauseMeans(doc, us, Bind);
      FilterTestsMean(Typed, doc, a, flt);
      FilterTestsMean(Typed, doc, b, flt);
      forall i | 0 <= i < |ts| ensures TestTrue(doc, ts[i]) <==> TestTrue(doc, us[i]) {
        TwinsAgree(doc, ts[i], us[i]);
      }
    }
  }

  lemma TwinsAgree(doc: Doc, a: Test, b: Test)
    requires Proper(a) && Proper(b) && Twin(a, b)
    ensures TestTrue(doc, a) <==> TestTrue(doc, b)
  {
    TestValue(doc, a);
    TestValue(doc, b);
    hide TestTrue;
  }

  // ------------------------------------------------------------------ what compiles

  predicate OperandOk(operator: string, operand: Value) {
    operator == "$ne" || (operator in ["$gt", "$gte", "$lt", "$lte"] && operand.Num?)
  }

  predicate ExpectedOk(expected: Expected) {
    match expected
    case Operators(ops) => ops != [] && forall i :: 0 <= i < |ops| ==> OperandOk(ops[i].0, ops[i].1)
    case Equals(v) => !v.Nested?
  }

  lemma {:induction false} OperatorsCompile(column: Expr, field: string, ops: seq<(string, Value)>)
    requires FieldOk(field)
    ensures OperatorTests(column, field, ops).Ok? <==> forall i :: 0 <= i < |ops| ==> OperandOk(ops[i].0, ops[i].1)
  {
    if ops != [] {
      var n := |ops| - 1;
      OperatorsCompile(column, field, ops[..n]);
      assert forall i :: 0 <= i < n ==> ops[..n][i] == ops[i];
    }
  }

  /** A filter is refused exactly when a field is no plain name, or something it asks is not modelled. */
  lemma {:induction false} CompilesExactly(columns: set<string>, flt: Filter)
    requires ColumnsOk(columns)
    ensures FilterTests(columns, flt).Ok? <==> forall i :: 0 <= i < |flt| ==> FieldOk(flt[i].0) && ExpectedOk(flt[i].1)
  {
    hide OperandOk;
    if flt != [] {
      var n := |flt| - 1;
      CompilesExactly(columns, flt[..n]);
      assert forall i :: 0 <= i < n ==> flt[..n][i] == flt[i];
      var value := ValueExpr(columns, flt[n].0);
      if value.Ok? && flt[n].1.Operators? { OperatorsCompile(value.value, flt[n].0, flt[n].1.ops); }
      assert ClauseTests(columns, flt[n].0, flt[n].1).Ok? <==> FieldOk(flt[n].0) && ExpectedOk(flt[n].1);
    }
  }
}
