/**
 Single questions, in the words of the callers and in the words of SQL (src/sqlitedb.py): the text each kind of
 filter becomes, and the documents it selects, without the translation's own names for them.
 */
module SqlMeaning {
  import opened Wrappers
  import opened SqlFilter
  import opened SqlInline

  // `_where` accepts the filter, and its clause is true of the document.
  ghost predicate Chosen(doc: Doc, columns: set<string>, flt: Filter) {
    FilterTests(columns, flt).Ok? && Selects(doc, Clause(FilterTests(columns, flt).value, Bind))
  }

  function Asking(f: string, operator: string, operand: Value): Filter { [(f, Operators([(operator, operand)]))] }

  // The one test a question of one field becomes.
  lemma OneTest(doc: Doc, columns: set<string>, f: string, expected: Expected, t: Test)
    requires ClauseTests(columns, f, expected) == Ok([t])
    ensures FilterTests(columns, [(f, expected)]) == Ok([t]) && Clause([t], Bind) == Spelled(t, Bind)
    ensures Chosen(doc, columns, [(f, expected)]) <==> Answer(doc, t)
  {
    hide ClauseTests, Selects, Spelled, Answer, TestTrue;
    var flt := [(f, expected)];
    assert flt[..0] == [] && FilterTests(columns, []) == Ok([]);
    assert [] + [t] == [t];
    ClauseMeans(doc, [t], Bind);
    TestValue(doc, t);
  }

  lemma OneOperator(columns: set<string>, f: string, operator: string, operand: Value, t: Test)
    requires FieldOk(f) && OperatorTest(ColumnOf(columns, f), f, operator, operand) == Ok(t)
    ensures ClauseTests(columns, f, Operators([(operator, operand)])) == Ok([t])
  {
    hide OperatorTest;
    var ops := [(operator, operand)];
    assert ops[..0] == [] && OperatorTests(ColumnOf(columns, f), f, []) == Ok([]);
    assert OperatorTests(ColumnOf(columns, f), f, ops) == Ok([] + [t]);
    assert [] + [t] == [t];
  }

  function ColumnOf(columns: set<string>, f: string): Expr { if f in columns then Column(f) else Extract(f) }

  // ------------------------------------------------------------------ which documents

  lemma RangeTests(doc: Doc, columns: set<string>, f: string, operator: string, op: Cmp, n: real)
    requires FieldOk(f) && RangeOp(operator) == Some(op) && operator != "$ne" && op != Eq && op != Ne && !Get(doc, f).Nested?
    ensures Chosen(doc, columns, Asking(f, operator, Num(n))) <==> InRange(op, Get(doc, f), Num(n))
  {
    var t := TestRange(f, ColumnOf(columns, f), op, Num(n));
    OneOperator(columns, f, operator, Num(n), t);
    OneTest(doc, columns, f, Operators([(operator, Num(n))]), t);
    TestValue(doc, t);
    RangeExact(doc, t);
  }

  /** Each comparison selects the numbers on its side of the bound, and nothing that is not a number. */
  lemma RangesSelect(doc: Doc, columns: set<string>, f: string, n: real)
    requires FieldOk(f) && !Get(doc, f).Nested?
    ensures Chosen(doc, columns, Asking(f, "$gt", Num(n))) <==> Get(doc, f).Num? && Get(doc, f).n > n
    ensures Chosen(doc, columns, Asking(f, "$gte", Num(n))) <==> Get(doc, f).Num? && Get(doc, f).n >= n
    ensures Chosen(doc, columns, Asking(f, "$lt", Num(n))) <==> Get(doc, f).Num? && Get(doc, f).n < n
    ensures Chosen(doc, columns, Asking(f, "$lte", Num(n))) <==> Get(doc, f).Num? && Get(doc, f).n <= n
  {
    hide Chosen;
    Names();
    RangeTests(doc, columns, f, "$gt", Gt, n);
    RangeTests(doc, columns, f, "$gte", Ge, n);
    RangeTests(doc, columns, f, "$lt", Lt, n);
    RangeTests(doc, columns, f, "$lte", Le, n);
  }

  // The operators' names are five different strings.
  lemma Names()
    ensures RangeOp("$gt") == Some(Gt) && RangeOp("$gte") == Some(Ge) && RangeOp("$lt") == Some(Lt) && RangeOp("$lte") == Some(Le)
    ensures "$ne" !in ["$gt", "$gte", "$lt", "$lte"]
  {
    assert |"$gt"| == 3 && |"$gte"| == 4 && |"$lt"| == 3 && |"$lte"| == 4 && |"$ne"| == 3;
    assert "$gt"[1] == 'g' && "$lt"[1] == 'l' && "$ne"[1] == 'n' && "$gte"[1] == 'g' && "$lte"[1] == 'l';
  }

  /**
   Equality with null selects a missing field too, with a boolean only that boolean, with a string only that
   string; with a number also the boolean that extracts to it.
   */
  lemma EqualitiesSelect(doc: Doc, columns: set<string>, f: string, b: bool, n: real, s: string)
    requires FieldOk(f) && !Get(doc, f).Nested?
    ensures Chosen(doc, columns, [(f, Equals(Null))]) <==> f !in doc || doc[f] == Null
    ensures Chosen(doc, columns, [(f, Equals(Bool(b)))]) <==> f in doc && doc[f] == Bool(b)
    ensures Chosen(doc, columns, [(f, Equals(Str(s)))]) <==> f in doc && doc[f] == Str(s)
    ensures Chosen(doc, columns, [(f, Equals(Num(n)))])
            <==> f in doc && (doc[f] == Num(n) || (doc[f] == Bool(true) && n == 1.0) || (doc[f] == Bool(false) && n == 0.0))
  {
    hide Chosen;
    var e := ColumnOf(columns, f);
    OneTest(doc, columns, f, Equals(Null), TestNull(f, e));
    OneTest(doc, columns, f, Equals(Bool(b)), TestBool(f, b));
    OneTest(doc, columns, f, Equals(Str(s)), TestEqual(f, e, Str(s)));
    OneTest(doc, columns, f, Equals(Num(n)), TestEqual(f, e, Num(n)));
    TestValue(doc, TestBool(f, b));
    BoolExact(Typed, doc, f, b);
  }

  /** `$ne` selects what is not equal, a missing field included; against null, what is there. */
  lemma InequalitiesSelect(doc: Doc, columns: set<string>, f: string, n: real, s: string)
    requires FieldOk(f) && !Get(doc, f).Nested?
    ensures Chosen(doc, columns, Asking(f, "$ne", Null)) <==> f in doc && doc[f] != Null
    ensures Chosen(doc, columns, Asking(f, "$ne", Str(s))) <==> !(f in doc && doc[f] == Str(s))
    ensures Chosen(doc, columns, Asking(f, "$ne", Num(n)))
            <==> !(f in doc && (doc[f] == Num(n) || (doc[f] == Bool(true) && n == 1.0) || (doc[f] == Bool(false) && n == 0.0)))
  {
    hide Chosen;
    var e := ColumnOf(columns, f);
    OneOperator(columns, f, "$ne", Null, TestNotNull(f, e));
    OneTest(doc, columns, f, Operators([("$ne", Null)]), TestNotNull(f, e));
    OneOperator(columns, f, "$ne", Str(s), TestUnequal(f, e, Str(s)));
    OneTest(doc, columns, f, Operators([("$ne", Str(s))]), TestUnequal(f, e, Str(s)));
    OneOperator(columns, f, "$ne", Num(n), TestUnequal(f, e, Num(n)));
    OneTest(doc, columns, f, Operators([("$ne", Num(n))]), TestUnequal(f, e, Num(n)));
  }

  // ------------------------------------------------------------------ in which words

  // A field as the clause names it: its generated column, or its place in the JSON; and the type of what is there.
  function Named(columns: set<string>, f: string): string {
    if f in columns then "\"" + f + "\"" else "json_extract(doc, '$." + f + "')"
  }

  function TypeNamed(f: string): string { "json_type(doc, '$." + f + "')" }

  function Concat(words: seq<string>): string { if words == [] then [] else words[0] + Concat(words[1..]) }

  // The filter becomes these words, run together, and these parameters.
  ghost predicate Says(columns: set<string>, flt: Filter, words: seq<string>, params: seq<Value>, repr: NumberText) {
    && FilterTests(columns, flt).Ok?
    && Text(Clause(FilterTests(columns, flt).value, Bind).toks, repr) == Concat(words)
    && Clause(FilterTests(columns, flt).value, Bind).params == params
  }

  lemma {:induction false} TextOf(toks: seq<Tok>, words: seq<string>, repr: NumberText)
    requires |toks| == |words| && forall i :: 0 <= i < |toks| ==> TokText(toks[i], repr) == words[i]
    ensures Text(toks, repr) == Concat(words)
  {
    hide TokText;
    if toks != [] { TextOf(toks[1..], words[1..], repr); }
  }

  lemma TestSays(columns: set<string>, f: string, expected: Expected, t: Test, words: seq<string>, repr: NumberText)
    requires ClauseTests(columns, f, expected) == Ok([t]) && |Spelled(t, Bind).toks| == |words|
    requires forall i :: 0 <= i < |words| ==> TokText(Spelled(t, Bind).toks[i], repr) == words[i]
    ensures Says(columns, [(f, expected)], words, Spelled(t, Bind).params, repr)
  {
    OneTest(map[], columns, f, expected, t);
    TextOf(Spelled(t, Bind).toks, words, repr);
  }

  lemma RangeSays(columns: set<string>, f: string, operator: string, op: Cmp, n: real, repr: NumberText)
    requires FieldOk(f) && RangeOp(operator) == Some(op) && operator != "$ne"
    ensures Says(columns, Asking(f, operator, Num(n)),
                 ["(", TypeNamed(f), " IN ('integer','real')", " AND ", Named(columns, f), OpText(op), "?", ")"], [Num(n)], repr)
  {
    var t := TestRange(f, ColumnOf(columns, f), op, Num(n));
    OneOperator(columns, f, operator, Num(n), t);
    hide FieldOk, Says, ClauseTests;
    TestSays(columns, f, Operators([(operator, Num(n))]), t,
             ["(", TypeNamed(f), " IN ('integer','real')", " AND ", Named(columns, f), OpText(op), "?", ")"], repr);
  }

  /** A comparison is guarded by the type, and written with the sign that means what the operator's name says. */
  lemma RangesRead(columns: set<string>, f: string, n: real, repr: NumberText)
    requires FieldOk(f)
    ensures Says(columns, Asking(f, "$gt", Num(n)),
                 ["(", TypeNamed(f), " IN ('integer','real')", " AND ", Named(columns, f), " > ", "?", ")"], [Num(n)], repr)
    ensures Says(columns, Asking(f, "$gte", Num(n)),
                 ["(", TypeNamed(f), " IN ('integer','real')", " AND ", Named(columns, f), " >= ", "?", ")"], [Num(n)], repr)
    ensures Says(columns, Asking(f, "$lt", Num(n)),
                 ["(", TypeNamed(f), " IN ('integer','real')", " AND ", Named(columns, f), " < ", "?", ")"], [Num(n)], repr)
    ensures Says(columns, Asking(f, "$lte", Num(n)),
                 ["(", TypeNamed(f), " IN ('integer','real')", " AND ", Named(columns, f), " <= ", "?", ")"], [Num(n)], repr)
  {
    hide Says;
    Names();
    RangeSays(columns, f, "$gt", Gt, n, repr);
    RangeSays(columns, f, "$gte", Ge, n, repr);
    RangeSays(columns, f, "$lt", Lt, n, repr);
    RangeSays(columns, f, "$lte", Le, n, repr);
  }

  /** A null is asked for by name, a boolean as a type, a number or a string as a parameter. */
  lemma EqualitiesRead(columns: set<string>, f: string, b: bool, n: real, s: string, repr: NumberText)
    requires FieldOk(f)
    ensures Says(columns, [(f, Equals(Null))], [Named(columns, f), " IS NULL"], [], repr)
    ensures Says(columns, [(f, Equals(Bool(b)))], [TypeNamed(f), " = ", "?"], [Str(if b then "true" else "false")], repr)
    ensures Says(columns, [(f, Equals(Num(n)))], [Named(columns, f), " = ", "?"], [Num(n)], repr)
    ensures Says(columns, [(f, Equals(Str(s)))], [Named(columns, f), " = ", "?"], [Str(s)], repr)
  {
    hide Says;
    var e := ColumnOf(columns, f);
    TestSays(columns, f, Equals(Null), TestNull(f, e), [Named(columns, f), " IS NULL"], repr);
    TestSays(columns, f, Equals(Bool(b)), TestBool(f, b), [TypeNamed(f), " = ", "?"], repr);
    TestSays(columns, f, Equals(Num(n)), TestEqual(f, e, Num(n)), [Named(columns, f), " = ", "?"], repr);
    TestSays(columns, f, Equals(Str(s)), TestEqual(f, e, Str(s)), [Named(columns, f), " = ", "?"], repr);
  }

  /** And `$ne` asks for the missing ones as well, unless it is null that they are not to equal. */
  lemma InequalitiesRead(columns: set<string>, f: string, v: Value, repr: NumberText)
    requires FieldOk(f)
    ensures Says(columns, Asking(f, "$ne", Null), [Named(columns, f), " IS NOT NULL"], [], repr)
    ensures v != Null ==>
              Says(columns, Asking(f, "$ne", v),
                   ["(", Named(columns, f), " IS NULL", " OR ", Named(columns, f), " <> ", "?", ")"], [v], repr)
  {
    hide Says;
    var e := ColumnOf(columns, f);
    OneOperator(columns, f, "$ne", Null, TestNotNull(f, e));
    TestSays(columns, f, Operators([("$ne", Null)]), TestNotNull(f, e), [Named(columns, f), " IS NOT NULL"], repr);
    if v != Null {
      OneOperator(columns, f, "$ne", v, TestUnequal(f, e, v));
      TestSays(columns, f, Operators([("$ne", v)]), TestUnequal(f, e, v),
               ["(", Named(columns, f), " IS NULL", " OR ", Named(columns, f), " <> ", "?", ")"], repr);
    }
  }
}
