/**
 The text of a statement says what the tree says: bound to its parameters it is read back as that
 tree, so no two trees share a text and parameters; and which trees are left out of this, and why.
 */
module TextLaws {
  import opened Prelude
  import opened Values
  import opened SqlQuery
  import opened Rendering
  import opened RenderedFragments
  import opened RenderingLaws
  import opened SqlReader
  import opened Wording
  import opened ReadingBack

  // Readable trees render, without placeholders of their own.

  predicate Plain(leaves: seq<Leaf>) {
    FirstFault(leaves) == None && RawHoles(leaves) == 0
  }

  lemma PlainConcat(a: seq<Leaf>, b: seq<Leaf>)
    ensures Plain(a + b) <==> Plain(a) && Plain(b)
  {
    LeavesConcat(a, b);
  }

  lemma {:induction false} ReadableIsPlain(e: Expression)
    requires Readable(e)
    ensures Plain(ExpressionLeaves(e))
    decreases e
  {
    match e
    case FunctionApplication(_, arguments) => AllReadableArePlain(arguments);
    case Cast(expression, _) => ReadableIsPlain(expression);
    case Condition(left, _, right) =>
      OperandIsPlain(left.value);
      OperandIsPlain(right.value);
      PlainConcat(OperandLeaves(left.value), OperandLeaves(right.value));
    case _ =>
  }

  lemma {:induction false} OperandIsPlain(operand: Operand)
    requires ReadableOperand(operand)
    ensures Plain(OperandLeaves(operand))
    decreases operand
  {
    match operand
    case Single(e) => ReadableIsPlain(e);
    case Several(es) => AllReadableArePlain(es);
    case Subquery(q) => QueryIsPlain(q);
  }

  lemma {:induction false} AllReadableArePlain(es: seq<Expression>)
    requires AllReadable(es)
    ensures Plain(ExpressionsLeaves(es))
    decreases es
  {
    if es != [] {
      ReadableIsPlain(es[0]);
      AllReadableArePlain(es[1..]);
      PlainConcat(ExpressionLeaves(es[0]), ExpressionsLeaves(es[1..]));
    }
  }

  lemma {:induction false} TargetIsPlain(target: ResultTarget)
    requires ReadableTarget(target)
    ensures Plain(TargetLeaves(target))
    decreases target
  {
    ReadableIsPlain(target.expression);
  }

  lemma {:induction false} TargetsArePlain(targets: seq<ResultTarget>)
    requires ReadableTargets(targets)
    ensures Plain(TargetsLeaves(targets))
    decreases targets
  {
    if targets != [] {
      TargetIsPlain(targets[0]);
      TargetsArePlain(targets[1..]);
      PlainConcat(TargetLeaves(targets[0]), TargetsLeaves(targets[1..]));
    }
  }

  lemma {:induction false} SortIsPlain(sort: SortBy)
    requires ReadableSort(sort)
    ensures Plain(SortLeaves(sort))
    decreases sort
  {
    ReadableIsPlain(sort.expression);
  }

  lemma {:induction false} SortsArePlain(sorts: seq<SortBy>)
    requires ReadableSorts(sorts)
    ensures Plain(SortsLeaves(sorts))
    decreases sorts
  {
    if sorts != [] {
      SortIsPlain(sorts[0]);
      SortsArePlain(sorts[1..]);
      PlainConcat(SortLeaves(sorts[0]), SortsLeaves(sorts[1..]));
    }
  }

  lemma {:induction false} NamedArePlain(named: seq<Named>)
    requires ReadableNamed(named)
    ensures Plain(NamedLeaves(named))
    decreases named
  {
    if named != [] {
      QueryIsPlain(named[0].query);
      NamedArePlain(named[1..]);
      PlainConcat(QueryLeaves(named[0].query), NamedLeaves(named[1..]));
    }
  }

  lemma {:induction false} QueriesArePlain(queries: seq<Query>)
    requires forall i :: 0 <= i < |queries| ==> ReadableQuery(queries[i])
    ensures Plain(QueriesLeaves(queries))
    decreases queries
  {
    if queries != [] {
      QueryIsPlain(queries[0]);
      QueriesArePlain(queries[1..]);
      PlainConcat(QueryLeaves(queries[0]), QueriesLeaves(queries[1..]));
    }
  }

  lemma {:induction false} QueryIsPlain(q: Query)
    requires ReadableQuery(q)
    ensures Plain(QueryLeaves(q))
    decreases q
  {
    NamedArePlain(q.commonTableExpressions);
    if q.unions.Some? {
      QueriesArePlain(q.unions.value.queries);
    }
    TargetsArePlain(q.selectTargetList);
    NamedArePlain(q.fromSubqueries);
    AllReadableArePlain(q.whereConditions);
    SortsArePlain(q.sortbyList);
    PlainParts(NamedLeaves(q.commonTableExpressions), UnionLeaves(q.unions), TargetsLeaves(q.selectTargetList),
               NamedLeaves(q.fromSubqueries), ExpressionsLeaves(q.whereConditions), SortsLeaves(q.sortbyList),
               NumberLeaves(q.limitValue), NumberLeaves(q.offsetValue));
  }

  lemma PlainParts(
    a: seq<Leaf>, b: seq<Leaf>, c: seq<Leaf>, d: seq<Leaf>, e: seq<Leaf>, f: seq<Leaf>, g: seq<Leaf>, h: seq<Leaf>)
    requires Plain(a) && Plain(b) && Plain(c) && Plain(d) && Plain(e) && Plain(f) && Plain(g) && Plain(h)
    ensures Plain(a + (b + (c + (d + (e + (f + (g + h)))))))
  {
    PlainConcat(g, h);
    PlainConcat(f, g + h);
    PlainConcat(e, f + (g + h));
    PlainConcat(d, e + (f + (g + h)));
    PlainConcat(c, d + (e + (f + (g + h))));
    PlainConcat(b, c + (d + (e + (f + (g + h)))));
    PlainConcat(a, b + (c + (d + (e + (f + (g + h))))));
  }

  // The laws.

  /** The text with its constants in place is read back as the tree. */
  lemma TextReadsBack(q: Query)
    requires ReadableQuery(q)
    ensures RenderQuery(InPlace, q).Success? && ReadStatement(RenderQuery(InPlace, q).value.sql) == Some(q)
  {
    QueryRendered(q);
    QueryReads(q, []);
    assert QueryWords(q) + [] == QueryWords(q);
  }

  /** So is the text with placeholders, once the driver has put the parameters into them. */
  lemma BoundTextReadsBack(q: Query)
    requires ReadableQuery(q)
    ensures RenderQuery(Placeholders, q).Success?
    ensures var f := RenderQuery(Placeholders, q).value; ReadStatement(Fill(f.sql, f.params)) == Some(q)
  {
    QueryIsPlain(q);
    RendersUnlessFaulty(q);
    FillingIsRenderingInPlace(q);
    TextReadsBack(q);
  }

  /** Different statements never share text and parameters. */
  lemma TextsDiffer(q: Query, q': Query)
    requires ReadableQuery(q) && ReadableQuery(q')
    ensures RenderQuery(Placeholders, q) == RenderQuery(Placeholders, q') ==> q == q'
  {
    BoundTextReadsBack(q);
    BoundTextReadsBack(q');
  }

  // What cannot be told from the text.

  const A := ColumnReference(None, None, "a")

  function Equal(left: Expression, right: Expression): Expression {
    Comparison(Single(left), Equals, Single(right))
  }

  /** Nested comparisons have no parentheses: `a = a = a` may be grouped either way. */
  lemma NestedComparisonsAreAmbiguous()
    ensures Equal(Equal(A, A), A) != Equal(A, Equal(A, A))
    ensures RenderExpression(Placeholders, Equal(Equal(A, A), A))
        == RenderExpression(Placeholders, Equal(A, Equal(A, A)))
  {
    var a, sign := Identifier("a"), Literal(" " + OperatorText(Equals) + " ");
    var inner, outer := Fragment([a] + [sign] + [a], []), Fragment([a] + [sign] + [a] + [sign] + [a], []);
    EqualRendered(A, A, Fragment([a], []), Fragment([a], []), inner);
    EqualRendered(Equal(A, A), A, inner, Fragment([a], []), outer);
    assert [a] + [sign] + inner.sql == outer.sql;
    EqualRendered(A, Equal(A, A), Fragment([a], []), inner, outer);
  }

  lemma EqualRendered(left: Expression, right: Expression, l: Fragment, r: Fragment, whole: Fragment)
    requires RenderExpression(Placeholders, left) == Success(l) && RenderExpression(Placeholders, right) == Success(r)
    requires whole.sql == l.sql + [Literal(" " + OperatorText(Equals) + " ")] + r.sql
    requires whole.params == l.params + r.params
    ensures RenderExpression(Placeholders, Equal(left, right)) == Success(whole)
  {
    assert RenderOperand(Placeholders, Single(left)) == Success(l);
    assert RenderOperand(Placeholders, Single(right)) == Success(r);
  }

  /** A blank subquery is written like an empty list. */
  lemma BlankSubqueriesAreAmbiguous()
    ensures RenderOperand(Placeholders, Subquery(EMPTY_QUERY)) == RenderOperand(Placeholders, Several([]))
  {
    var parts := Parts([], [], [], [], [], []);
    var clauses := ClausesOf(Placeholders, EMPTY_QUERY, parts);
    RenderFromParts(Placeholders, EMPTY_QUERY);
    assert PartsOf(Placeholders, EMPTY_QUERY) == Success(parts);
    assert forall k :: 0 <= k < 8 ==> clauses[k] == Clause(None, []);
    NothingPresent(clauses);
  }

  lemma {:induction false} NothingPresent(clauses: seq<Clause>)
    requires forall k :: 0 <= k < |clauses| ==> clauses[k] == Clause(None, [])
    ensures Present(clauses) == [] && Gathered(clauses) == []
  {
    if clauses != [] {
      NothingPresent(clauses[1..]);
    }
  }

  /** A union of fewer than two queries does not show its kind. */
  lemma SmallUnionsAreAmbiguous(queries: seq<Query>)
    requires |queries| <= 1
    ensures UnionOf(queries, All) != UnionOf(queries, Distinct)
    ensures RenderQuery(Placeholders, UnionOf(queries, All)) == RenderQuery(Placeholders, UnionOf(queries, Distinct))
  {
    var a, b := UnionOf(queries, All), UnionOf(queries, Distinct);
    RenderFromParts(Placeholders, a);
    RenderFromParts(Placeholders, b);
    assert PartsOf(Placeholders, a) == PartsOf(Placeholders, b);
    if PartsOf(Placeholders, a).Success? {
      var parts := PartsOf(Placeholders, a).value;
      UnitedCount(queries);
      SmallJoins(Literal(" UNION ALL "), Literal(" UNION DISTINCT "), Sqls(parts.united));
      assert ClausesOf(Placeholders, a, parts) == ClausesOf(Placeholders, b, parts);
    }
  }

  lemma {:induction false} UnitedCount(queries: seq<Query>)
    ensures RenderQueries(Placeholders, queries).Success? ==>
      |Sqls(RenderQueries(Placeholders, queries).value)| == |queries|
  {
    if queries != [] {
      UnitedCount(queries[1..]);
    }
  }

  lemma SmallJoins(a: Token, b: Token, parts: seq<seq<Token>>)
    requires |parts| <= 1
    ensures Join(a, parts) == Join(b, parts)
  {
  }
}
