/**
 Folding bound parameters into a clause as literals (src/sqlitedb.py), for the one place that cannot bind: the
 `WHERE` of a partial index.
 */
module SqlInline {
  import opened Wrappers
  import opened SqlFilter

  // How Python's `repr` writes a number; its reading back is all that is asked of it.
  type NumberText = real -> string

  // ------------------------------------------------------------------ text

  function Doubled(s: string): string {
    if s == [] then [] else (if s[0] == '\'' then "''" else [s[0]]) + Doubled(s[1..])
  }

  // `_literal`: a number as it is, a string quoted; anything else stops.
  function Literal(v: Value, repr: NumberText): Outcome<string, Error> {
    match v
    case Num(n) => Ok(repr(n))
    case Str(s) => Ok("'" + Doubled(s) + "'")
    case _ => Raised(UnsupportedQuery)
  }

  function LiteralText(v: Value, repr: NumberText): string {
    var r := Literal(v, repr);
    if r.Ok? then r.value else []
  }

  function OpText(op: Cmp): string {
    match op
    case Eq => " = "
    case Ne => " <> "
    case Gt => " > "
    case Ge => " >= "
    case Lt => " < "
    case Le => " <= "
  }

  function ExprText(e: Expr): string {
    match e
    case Column(f) => "\"" + f + "\""
    case Extract(f) => "json_extract(doc, '$." + f + "')"
    case TypeOf(f) => "json_type(doc, '$." + f + "')"
  }

  function TokText(t: Tok, repr: NumberText): string {
    match t
    case LParen => "("
    case RParen => ")"
    case KAnd => " AND "
    case KOr => " OR "
    case One => "1"
    case TExpr(e) => ExprText(e)
    case KIsNull => " IS NULL"
    case KNotNull => " IS NOT NULL"
    case KNumeric => " IN ('integer','real')"
    case TOp(op) => OpText(op)
    case THole => "?"
    case TLit(v) => LiteralText(v, repr)
  }

  function Text(ts: seq<Tok>, repr: NumberText): string {
    if ts == [] then [] else TokText(ts[0], repr) + Text(ts[1..], repr)
  }

  lemma {:induction false} TextConcat(a: seq<Tok>, b: seq<Tok>, repr: NumberText)
    ensures Text(a + b, repr) == Text(a, repr) + Text(b, repr)
  {
    hide TokText;
    if a == [] {
      assert a + b == b;
    } else {
      assert (a + b)[1..] == a[1..] + b;
      TextConcat(a[1..], b, repr);
    }
  }

  // ------------------------------------------------------------------ splitting and weaving

  // `str.split`.
  function Split(s: string, c: char): (r: seq<string>)
    ensures r != []
  {
    if s == [] then [[]]
    else
      var rest := Split(s[1..], c);
      if s[0] == c then [[]] + rest else [[s[0]] + rest[0]] + rest[1..]
  }

  predicate Lacks(s: string, c: char) { forall i :: 0 <= i < |s| ==> s[i] != c }

  // Two lists of pieces, the last of one run into the first of the other.
  function Merge(x: seq<string>, y: seq<string>): (r: seq<string>)
    requires x != [] && y != []
    ensures |r| == |x| + |y| - 1
  {
    x[..|x| - 1] + [x[|x| - 1] + y[0]] + y[1..]
  }

  lemma MergeCons(p: string, x: seq<string>, y: seq<string>)
    requires x != [] && y != []
    ensures Merge([p] + x, y) == [p] + Merge(x, y)
  {
  }

  // A character put before the first piece.
  function Onto(h: char, x: seq<string>): seq<string>
    requires x != []
  {
    [[h] + x[0]] + x[1..]
  }

  lemma MergeOnto(h: char, x: seq<string>, y: seq<string>)
    requires x != [] && y != []
    ensures Merge(Onto(h, x), y) == Onto(h, Merge(x, y))
  {
    if |x| == 1 {
      assert ([h] + x[0]) + y[0] == [h] + (x[0] + y[0]);
    } else {
      var r := Merge(x, y);
      assert r[0] == x[0];
      assert Onto(h, r) == [[h] + x[0]] + r[1..];
    }
  }

  lemma {:induction false} SplitJoin(a: string, b: string, c: char)
    ensures Split(a + b, c) == Merge(Split(a, c), Split(b, c))
  {
    if a == [] {
      assert a + b == b;
      assert [] + Split(b, c)[0] == Split(b, c)[0];
    } else {
      var x, y := Split(a[1..], c), Split(b, c);
      SplitJoin(a[1..], b, c);
      assert (a + b)[1..] == a[1..] + b;
      MergeCons([], x, y);
      MergeOnto(a[0], x, y);
      hide Merge;
      if a[0] != c {
        assert Split(a, c) == Onto(a[0], x);
        assert Split(a + b, c) == Onto(a[0], Merge(x, y));
      }
    }
  }

  lemma {:induction false} SplitNone(s: string, c: char)
    requires Lacks(s, c)
    ensures Split(s, c) == [s]
  {
    if s != [] {
      SplitNone(s[1..], c);
      assert [s[0]] + s[1..] == s;
    }
  }

  lemma SplitHole(before: string, after: string)
    requires Lacks(before, '?') && Lacks(after, '?')
    ensures Split(before + "?" + after, '?') == [before, after]
  {
    SplitNone(before, '?');
    SplitNone(after, '?');
    assert Split("?", '?') == [[], []] by { assert "?"[1..] == []; }
    SplitJoin(before, "?", '?');
    assert before + [] == before;
    SplitJoin(before + "?", after, '?');
    assert [] + after == after;
  }

  // The pieces with the first `n` values between them.
  function Woven(parts: seq<string>, params: seq<Value>, n: nat, repr: NumberText): string
    requires n < |parts| && n <= |params|
  {
    if n == 0 then parts[0] else Woven(parts, params, n - 1, repr) + LiteralText(params[n - 1], repr) + parts[n]
  }

  predicate Writable(v: Value) { v.Num? || v.Str? }

  // `_inline`.
  method InlineText(clause: string, params: seq<Value>, repr: NumberText) returns (r: Outcome<string, Error>)
    ensures r.Ok? <==> |Split(clause, '?')| == |params| + 1 && forall i :: 0 <= i < |params| ==> Writable(params[i])
    ensures r.Ok? ==> r.value == Woven(Split(clause, '?'), params, |params|, repr)
  {
    var parts := Split(clause, '?');
    if |parts| - 1 != |params| {
      return Raised(UnsupportedQuery);
    }
    hide Split, Woven;
    WovenStep(parts, params, 0, repr);
    var rendered := parts[0];
    for i := 0 to |params|
      invariant rendered == Woven(parts, params, i, repr) && forall j :: 0 <= j < i ==> Writable(params[j])
    {
      var literal := Literal(params[i], repr);
      if literal.Raised? {
        return Raised(literal.error);
      }
      WovenStep(parts, params, i + 1, repr);
      rendered := rendered + literal.value + parts[i + 1];
    }
    return Ok(rendered);
  }

  // ------------------------------------------------------------------ a clause, inlined

  // What `_inline` makes of a fragment's text.
  ghost predicate Inlines(f: Fragment, g: Fragment, repr: NumberText) {
    var parts := Split(Text(f.toks, repr), '?');
    |parts| == |f.params| + 1 && Woven(parts, f.params, |f.params|, repr) == Text(g.toks, repr)
  }

  lemma {:induction false} WovenFirst(x: seq<string>, y: seq<string>, px: seq<Value>, py: seq<Value>, n: nat, repr: NumberText)
    requires x != [] && y != [] && |x| == |px| + 1 && n < |px|
    ensures Woven(Merge(x, y), px + py, n, repr) == Woven(x, px, n, repr)
    decreases n
  {
    assert Merge(x, y)[n] == x[n];
    if n > 0 {
      WovenFirst(x, y, px, py, n - 1, repr);
      assert (px + py)[n - 1] == px[n - 1];
    }
  }

  lemma WovenStep(parts: seq<string>, params: seq<Value>, n: nat, repr: NumberText)
    requires n < |parts| && n <= |params|
    ensures n == 0 ==> Woven(parts, params, n, repr) == parts[0]
    ensures n > 0 ==> Woven(parts, params, n, repr) == Woven(parts, params, n - 1, repr) + LiteralText(params[n - 1], repr) + parts[n]
  {
  }

  // Weaving two texts joined is joining the two woven.
  lemma {:induction false} WovenJoin(x: seq<string>, y: seq<string>, px: seq<Value>, py: seq<Value>, n: nat, repr: NumberText)
    requires |x| == |px| + 1 && |y| == |py| + 1 && n <= |py|
    ensures Woven(Merge(x, y), px + py, |px| + n, repr) == Woven(x, px, |px|, repr) + Woven(y, py, n, repr)
    decreases n
  {
    if n == 0 {
      hide Woven, Merge, LiteralText;
      WovenSeam(x, y, px, py, repr);
      WovenStep(y, py, 0, repr);
    } else {
      hide Merge, Woven, LiteralText;
      WovenJoin(x, y, px, py, n - 1, repr);
      WovenPast(x, y, px, py, n, repr);
      JoinStep(Woven(Merge(x, y), px + py, |px| + n - 1, repr), Woven(Merge(x, y), px + py, |px| + n, repr), Woven(x, px, |px|, repr),
               Woven(y, py, n - 1, repr), Woven(y, py, n, repr), LiteralText(py[n - 1], repr), y[n]);
    }
  }

  lemma WovenPast(x: seq<string>, y: seq<string>, px: seq<Value>, py: seq<Value>, n: nat, repr: NumberText)
    requires |x| == |px| + 1 && |y| == |py| + 1 && 0 < n <= |py|
    ensures |px| + n < |Merge(x, y)|
    ensures Woven(Merge(x, y), px + py, |px| + n, repr)
            == Woven(Merge(x, y), px + py, |px| + n - 1, repr) + LiteralText(py[n - 1], repr) + y[n]
    ensures Woven(y, py, n, repr) == Woven(y, py, n - 1, repr) + LiteralText(py[n - 1], repr) + y[n]
  {
    hide Merge, Woven, LiteralText;
    MergeAt(x, y, n);
    assert (px + py)[|px| + n - 1] == py[n - 1];
    WovenStep(Merge(x, y), px + py, |px| + n, repr);
    WovenStep(y, py, n, repr);
  }

  lemma JoinStep(before: string, after: string, a: string, b: string, bNext: string, c: string, d: string)
    requires before == a + b && after == before + c + d && bNext == b + c + d
    ensures after == a + bNext
  {
    JoinTwice(a, b, c, d);
  }

  lemma MergeAt(x: seq<string>, y: seq<string>, n: nat)
    requires x != [] && 0 < n < |y|
    ensures |x| - 1 + n < |Merge(x, y)| && Merge(x, y)[|x| - 1 + n] == y[n]
  {
  }

  lemma MergeSeam(x: seq<string>, y: seq<string>)
    requires x != [] && y != []
    ensures |x| - 1 < |Merge(x, y)| && Merge(x, y)[|x| - 1] == x[|x| - 1] + y[0]
  {
  }

  lemma WovenSeam(x: seq<string>, y: seq<string>, px: seq<Value>, py: seq<Value>, repr: NumberText)
    requires |x| == |px| + 1 && |y| == |py| + 1
    ensures Woven(Merge(x, y), px + py, |px|, repr) == Woven(x, px, |px|, repr) + y[0]
  {
    hide Merge, Woven, LiteralText;
    var z, k := Merge(x, y), |px|;
    MergeSeam(x, y);
    if k == 0 {
      WovenStep(z, px + py, 0, repr);
      WovenStep(x, px, 0, repr);
    } else {
      WovenFirst(x, y, px, py, k - 1, repr);
      assert (px + py)[k - 1] == px[k - 1];
      var b := Woven(x, px, k - 1, repr) + LiteralText(px[k - 1], repr);
      calc {
        Woven(z, px + py, k, repr);
      == { WovenStep(z, px + py, k, repr); }
        b + (x[k] + y[0]);
      == { JoinRight(b, x[k], y[0]); }
        (b + x[k]) + y[0];
      == { WovenStep(x, px, k, repr); }
        Woven(x, px, k, repr) + y[0];
      }
    }
  }

  lemma JoinTwice(a: string, b: string, c: string, d: string)
    ensures ((a + b) + c) + d == a + ((b + c) + d)
  {
    JoinRight(a, b, c);
    JoinRight(a, b + c, d);
  }

  lemma JoinRight(a: string, b: string, c: string)
    ensures a + (b + c) == (a + b) + c
  {
  }

  lemma InlinesJoin(f: Fragment, g: Fragment, f': Fragment, g': Fragment, repr: NumberText)
    requires Inlines(f, f', repr) && Inlines(g, g', repr)
    ensures Inlines(Fragment(f.toks + g.toks, f.params + g.params), Fragment(f'.toks + g'.toks, f'.params + g'.params), repr)
  {
    hide Text, Split, Merge, Woven;
    TextConcat(f.toks, g.toks, repr);
    TextConcat(f'.toks, g'.toks, repr);
    var x, y := Split(Text(f.toks, repr), '?'), Split(Text(g.toks, repr), '?');
    SplitJoin(Text(f.toks, repr), Text(g.toks, repr), '?');
    WovenJoin(x, y, f.params, g.params, |g.params|, repr);
  }

  // ------------------------------------------------------------------ fragment by fragment

  // Everything but a placeholder and a literal is spelled without a question mark.
  lemma TokLacks(t: Tok, repr: NumberText)
    requires t != THole && !t.TLit? && (t.TExpr? ==> FieldOk(t.e.field))
    ensures Lacks(TokText(t, repr), '?')
  {
    hide ExprText, FieldOk;
    if t.TExpr? { ExprLacks(t.e); }
  }

  lemma ExprLacks(e: Expr)
    requires FieldOk(e.field)
    ensures Lacks(ExprText(e), '?')
  {
    FieldLacks(e.field);
    hide FieldOk;
    match e
    case Column(f) => LacksAround("\"", f, "\"");
    case Extract(f) => LacksAround("json_extract(doc, '$.", f, "')");
    case TypeOf(f) => LacksAround("json_type(doc, '$.", f, "')");
  }

  lemma FieldLacks(f: string)
    requires FieldOk(f)
    ensures Lacks(f, '?')
  {
    hide PlainName;
    if PlainName(f) {
      PlainLacks(f);
    } else {
      PlainLacks(f[..|f| - 1]);
      assert f == f[..|f| - 1] + "\n";
    }
  }

  lemma PlainLacks(f: string)
    requires PlainName(f)
    ensures Lacks(f, '?')
  {
  }

  lemma LacksAround(a: string, f: string, b: string)
    requires Lacks(a, '?') && Lacks(f, '?') && Lacks(b, '?')
    ensures Lacks(a + f + b, '?')
  {
    LacksJoin(a, f);
    LacksJoin(a + f, b);
  }

  lemma LacksJoin(a: string, b: string)
    requires Lacks(a, '?') && Lacks(b, '?')
    ensures Lacks(a + b, '?')
  {
  }

  predicate Plain(ts: seq<Tok>) {
    forall i :: 0 <= i < |ts| ==> ts[i] != THole && !ts[i].TLit? && (ts[i].TExpr? ==> FieldOk(ts[i].e.field))
  }

  lemma {:induction false} TextLacks(ts: seq<Tok>, repr: NumberText)
    requires Plain(ts)
    ensures Lacks(Text(ts, repr), '?')
  {
    hide TokText;
    if ts != [] {
      TokLacks(ts[0], repr);
      TextLacks(ts[1..], repr);
      LacksJoin(TokText(ts[0], repr), Text(ts[1..], repr));
    }
  }

  // A fragment without a value is its own inlining; one with a value has it where its placeholder was.
  lemma InlinesPlain(ts: seq<Tok>, repr: NumberText)
    requires Plain(ts)
    ensures Inlines(Fragment(ts, []), Fragment(ts, []), repr)
  {
    TextLacks(ts, repr);
    SplitNone(Text(ts, repr), '?');
  }

  lemma InlinesHole(v: Value, repr: NumberText)
    ensures Inlines(Fragment([THole], [v]), Fragment([TLit(v)], []), repr)
  {
    assert Text([THole], repr) == "?" && Text([TLit(v)], repr) == LiteralText(v, repr);
    SplitHole("", "");
    assert "" + "?" + "" == "?";
    assert "" + LiteralText(v, repr) + "" == LiteralText(v, repr);
  }

  predicate FieldsOk(t: Test) { FieldOk(t.f) && (!t.TestBool? ==> FieldOk(t.e.field)) }

  lemma TestInlines(t: Test, repr: NumberText)
    requires FieldsOk(t)
    ensures Inlines(Spelled(t, Bind), Spelled(t, Inline), repr)
  {
    hide Inlines, Plain;
    match t
    case TestNull(_, e) =>
      PlainIs([TExpr(e), KIsNull]);
      InlinesPlain([TExpr(e), KIsNull], repr);
    case TestNotNull(_, e) =>
      PlainIs([TExpr(e), KNotNull]);
      InlinesPlain([TExpr(e), KNotNull], repr);
    case TestBool(f, b) => Around(t, [TExpr(TypeOf(f)), TOp(Eq)], TypeWord(b), [], repr);
    case TestEqual(_, e, v) => Around(t, [TExpr(e), TOp(Eq)], v, [], repr);
    case TestUnequal(_, e, v) => Around(t, [LParen, TExpr(e), KIsNull, KOr, TExpr(e), TOp(Ne)], v, [RParen], repr);
    case TestRange(f, e, op, v) => Around(t, [LParen, TExpr(TypeOf(f)), KNumeric, KAnd, TExpr(e), TOp(op)], v, [RParen], repr);
  }

  lemma PlainIs(ts: seq<Tok>)
    requires forall i :: 0 <= i < |ts| ==> ts[i] != THole && !ts[i].TLit? && (ts[i].TExpr? ==> FieldOk(ts[i].e.field))
    ensures Plain(ts)
  {
  }

  // One value in the middle of a test's fixed text.
  lemma Around(t: Test, before: seq<Tok>, v: Value, after: seq<Tok>, repr: NumberText)
    requires forall i :: 0 <= i < |before| ==> before[i] != THole && !before[i].TLit? && (before[i].TExpr? ==> FieldOk(before[i].e.field))
    requires after == [] || after == [RParen]
    requires Spelled(t, Bind) == Fragment(before + [THole] + after, [v])
    requires Spelled(t, Inline) == Fragment(before + [TLit(v)] + after, [])
    ensures Inlines(Spelled(t, Bind), Spelled(t, Inline), repr)
  {
    hide Inlines;
    var none: seq<Value> := [];
    assert none + none == none && none + [v] == [v] && [v] + none == [v];
    PlainIs(before);
    PlainIs(after);
    InlinesPlain(before, repr);
    InlinesHole(v, repr);
    InlinesJoin(Fragment(before, none), Fragment([THole], [v]), Fragment(before, none), Fragment([TLit(v)], none), repr);
    InlinesPlain(after, repr);
    InlinesJoin(Fragment(before + [THole], [v]), Fragment(after, none), Fragment(before + [TLit(v)], none), Fragment(after, none), repr);
  }

  lemma {:induction false} JoinedInlines(ts: seq<Test>, repr: NumberText)
    requires ts != [] && forall i :: 0 <= i < |ts| ==> FieldsOk(ts[i])
    ensures Inlines(Joined(ts, Bind), Joined(ts, Inline), repr) && Joined(ts, Inline).params == []
  {
    hide Inlines, Spelled;
    var last := ts[|ts| - 1];
    TestInlines(last, repr);
    NoParams(last);
    if |ts| > 1 {
      var front := ts[..|ts| - 1];
      JoinedInlines(front, repr);
      var a, a', z, z' := Joined(front, Bind), Joined(front, Inline), Spelled(last, Bind), Spelled(last, Inline);
      PlainIs([KAnd]);
      InlinesPlain([KAnd], repr);
      InlinesJoin(a, Fragment([KAnd], []), a', Fragment([KAnd], []), repr);
      InlinesJoin(Fragment(a.toks + [KAnd], a.params + []), z, Fragment(a'.toks + [KAnd], a'.params + []), z', repr);
      assert a.params + [] == a.params && a'.params + [] == a'.params;
    }
  }

  lemma NoParams(t: Test)
    ensures Spelled(t, Inline).params == []
  {
  }

  /**
   `_inline`, on any clause `_where` builds: the text comes out as the same clause with every value written in
   its place, and that clause is true of the same documents.
   */
  lemma InlineMeansTheSame(ts: seq<Test>, repr: NumberText, doc: Doc)
    requires forall i :: 0 <= i < |ts| ==> FieldsOk(ts[i])
    ensures Inlines(Clause(ts, Bind), Clause(ts, Inline), repr)
    ensures Selects(doc, Clause(ts, Inline)) <==> Selects(doc, Clause(ts, Bind))
  {
    hide Inlines, Selects;
    if ts == [] { PlainIs([One]); InlinesPlain([One], repr); } else { JoinedInlines(ts, repr); }
    ClauseMeans(doc, ts, Bind);
    ClauseMeans(doc, ts, Inline);
  }

  // ------------------------------------------------------------------ reading a literal back

  // SQL's reading of a quoted string, from after the opening quote: a doubled quote is a quote, a single one ends it.
  function Unquoted(s: string): Option<(string, string)> {
    if s == [] then None
    else if s[0] != '\'' then
      var rest := Unquoted(s[1..]);
      if rest.None? then None else Some(([s[0]] + rest.value.0, rest.value.1))
    else if |s| > 1 && s[1] == '\'' then
      var rest := Unquoted(s[2..]);
      if rest.None? then None else Some((['\''] + rest.value.0, rest.value.1))
    else Some(([], s[1..]))
  }

  /** A string literal is read back as the string, and ends where it was meant to, whatever the string holds. */
  lemma {:induction false} LiteralReadsBack(s: string, after: string)
    requires after == [] || after[0] != '\''
    ensures Unquoted(Doubled(s) + "'" + after) == Some((s, after))
  {
    var text := Doubled(s) + "'" + after;
    if s == [] {
      assert text == "'" + after;
      assert text[1..] == after;
    } else {
      LiteralReadsBack(s[1..], after);
      var rest := Doubled(s[1..]) + "'" + after;
      if s[0] == '\'' {
        assert text == "''" + rest;
        assert text[2..] == rest;
      } else {
        assert text == [s[0]] + rest;
        assert text[1..] == rest;
      }
      assert [s[0]] + s[1..] == s;
    }
  }
}
