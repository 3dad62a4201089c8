/**
 Every paging statement renders: whatever shape the paging clause chooses, its text has one
 placeholder per parameter, provided the filters and sort expressions it is built from are well
 formed and carry no placeholders of their own. When they are readable too, the bound text is read
 back as the statement, and so means its page.
 */
module PagingRendering {
  import opened Prelude
  import opened Values
  import opened SqlQuery
  import opened Evaluation
  import opened KeySetPaging
  import opened PagingRefinement
  import opened Rendering
  import opened RenderedFragments
  import opened RenderingLaws
  import opened SqlReader
  import opened Wording
  import opened TextLaws
  import PageWalks

  /** What a statement is wanted for: to bind its constants, or to be read back as well. */
  datatype Aim = ToBind | ToReadBack

  /** Fit to bind: no defect, and no placeholder brought along by raw text. */
  predicate Fit(aim: Aim, e: Expression) {
    match aim
    case ToBind => Plain(ExpressionLeaves(e))
    case ToReadBack => Readable(e)
  }

  predicate FitOperand(aim: Aim, operand: Operand) {
    match aim
    case ToBind => Plain(OperandLeaves(operand))
    case ToReadBack => ReadableOperand(operand)
  }

  predicate FitQuery(aim: Aim, q: Query) {
    match aim
    case ToBind => Plain(QueryLeaves(q))
    case ToReadBack => ReadableQuery(q)
  }

  lemma {:induction false} PlainExpressions(es: seq<Expression>)
    requires forall e :: e in es ==> Fit(ToBind, e)
    ensures Plain(ExpressionsLeaves(es))
  {
    if es != [] {
      assert es[0] in es;
      PlainExpressions(es[1..]);
      PlainConcat(ExpressionLeaves(es[0]), ExpressionsLeaves(es[1..]));
    }
  }

  lemma {:induction false} PlainTargets(targets: seq<ResultTarget>)
    requires forall t :: t in targets ==> Fit(ToBind, t.expression)
    ensures Plain(TargetsLeaves(targets))
  {
    if targets != [] {
      assert targets[0] in targets;
      PlainTargets(targets[1..]);
      PlainConcat(TargetLeaves(targets[0]), TargetsLeaves(targets[1..]));
    }
  }

  lemma {:induction false} PlainSorts(sorts: seq<SortBy>)
    requires forall s :: s in sorts ==> Fit(ToBind, s.expression)
    ensures Plain(SortsLeaves(sorts))
  {
    if sorts != [] {
      assert sorts[0] in sorts;
      PlainSorts(sorts[1..]);
      PlainConcat(SortLeaves(sorts[0]), SortsLeaves(sorts[1..]));
    }
  }

  lemma {:induction false} PlainNamed(named: seq<Named>)
    requires forall n :: n in named ==> FitQuery(ToBind, n.query)
    ensures Plain(NamedLeaves(named))
  {
    if named != [] {
      assert named[0] in named;
      PlainNamed(named[1..]);
      PlainConcat(QueryLeaves(named[0].query), NamedLeaves(named[1..]));
    }
  }

  lemma {:induction false} PlainQueries(queries: seq<Query>)
    requires forall q :: q in queries ==> FitQuery(ToBind, q)
    ensures Plain(QueriesLeaves(queries))
  {
    if queries != [] {
      assert queries[0] in queries;
      PlainQueries(queries[1..]);
      PlainConcat(QueryLeaves(queries[0]), QueriesLeaves(queries[1..]));
    }
  }

  ghost predicate FitParts(aim: Aim, q: Query) {
    && (forall n :: n in q.commonTableExpressions ==> FitQuery(aim, n.query))
    && (q.unions.Some? ==> FitUnion(aim, q.unions.value))
    && (forall t :: t in q.selectTargetList ==> Fit(aim, t.expression))
    && (forall n :: n in q.fromSubqueries ==> FitQuery(aim, n.query))
    && (forall c :: c in q.whereConditions ==> Fit(aim, c))
    && (forall s :: s in q.sortbyList ==> Fit(aim, s.expression))
  }

  ghost predicate FitUnion(aim: Aim, union: Union) {
    && (forall part :: part in union.queries ==> FitQuery(aim, part))
    && (aim.ToReadBack? ==> union.queries != [] && (|union.queries| == 1 ==> union.mode == All))
  }

  lemma FitFromParts(aim: Aim, q: Query)
    requires FitParts(aim, q)
    ensures FitQuery(aim, q)
  {
    match aim
    case ToBind => PlainFromParts(q);
    case ToReadBack => ReadableFromParts(q);
  }

  lemma ReadableFromParts(q: Query)
    requires FitParts(ToReadBack, q)
    ensures ReadableQuery(q)
  {
    forall i | 0 <= i < |q.selectTargetList| ensures ReadableTarget(q.selectTargetList[i]) {
      assert q.selectTargetList[i] in q.selectTargetList;
    }
    forall i | 0 <= i < |q.sortbyList| ensures ReadableSort(q.sortbyList[i]) {
      assert q.sortbyList[i] in q.sortbyList;
    }
    forall i | 0 <= i < |q.whereConditions| ensures Readable(q.whereConditions[i]) {
      assert Fit(ToReadBack, q.whereConditions[i]);
    }
    NamedFromParts(q.commonTableExpressions);
    NamedFromParts(q.fromSubqueries);
    if q.unions.Some? {
      UnionFromParts(q.unions.value);
    }
  }

  lemma NamedFromParts(named: seq<Named>)
    requires forall n :: n in named ==> FitQuery(ToReadBack, n.query)
    ensures ReadableNamed(named)
  {
    forall i | 0 <= i < |named| ensures ReadableQuery(named[i].query) {
      assert named[i] in named;
    }
  }

  lemma UnionFromParts(union: Union)
    requires FitUnion(ToReadBack, union)
    ensures ReadableUnion(union)
  {
    forall i | 0 <= i < |union.queries| ensures ReadableQuery(union.queries[i]) {
      assert FitQuery(ToReadBack, union.queries[i]);
    }
  }

  lemma PlainFromParts(q: Query)
    requires FitParts(ToBind, q)
    ensures Plain(QueryLeaves(q))
  {
    PlainNamed(q.commonTableExpressions);
    if q.unions.Some? {
      PlainQueries(q.unions.value.queries);
    }
    PlainTargets(q.selectTargetList);
    PlainNamed(q.fromSubqueries);
    PlainExpressions(q.whereConditions);
    PlainSorts(q.sortbyList);
    PlainParts(NamedLeaves(q.commonTableExpressions), UnionLeaves(q.unions), TargetsLeaves(q.selectTargetList),
               NamedLeaves(q.fromSubqueries), ExpressionsLeaves(q.whereConditions), SortsLeaves(q.sortbyList),
               NumberLeaves(q.limitValue), NumberLeaves(q.offsetValue));
  }

  lemma FitComparison(aim: Aim, left: Operand, operator: Operator, right: Operand)
    requires FitOperand(aim, left) && FitOperand(aim, right)
    ensures Fit(aim, Comparison(left, operator, right))
  {
    PlainConcat(OperandLeaves(left), OperandLeaves(right));
  }

  lemma FitLeaf(aim: Aim, e: Expression)
    requires e.Constant? || e == Star(None, None) || (e.ColumnReference? && (e.schema == None || e.table.Some?))
    ensures Fit(aim, e) && FitOperand(aim, Single(e))
  {
  }

  lemma FitSubquery(aim: Aim, q: Query)
    requires FitQuery(aim, q) && q != EMPTY_QUERY
    ensures FitOperand(aim, Subquery(q))
  {
  }

  lemma FitSeveral(aim: Aim, es: seq<Expression>)
    requires forall e :: e in es ==> Fit(aim, e)
    ensures FitOperand(aim, Several(es))
  {
    match aim
    case ToBind => PlainExpressions(es);
    case ToReadBack => assert forall i :: 0 <= i < |es| ==> Fit(ToReadBack, es[i]);
  }

  // The building blocks of the paging statements.

  ghost predicate FitSorts(aim: Aim, sorts: seq<SortBy>) {
    forall s :: s in sorts ==> Fit(aim, s.expression)
  }

  /** The sort expressions of a mixed order become operands of comparisons. */
  ghost predicate FitOperands(aim: Aim, sorts: seq<SortBy>) {
    forall s :: s in sorts ==> FitOperand(aim, Single(s.expression))
  }

  lemma FitWithId(aim: Aim, sorts: seq<SortBy>, direction: SortDirection)
    requires FitSorts(aim, sorts)
    ensures FitSorts(aim, WithId(sorts, direction))
    ensures forall e :: e in Expressions(WithId(sorts, direction)) ==> Fit(aim, e)
  {
  }

  lemma FitRecord(aim: Aim, id: Value, columns: seq<Expression>, table: string)
    requires forall e :: e in columns ==> Fit(aim, e)
    ensures FitQuery(aim, RecordQuery(id, columns, table))
  {
    var q := RecordQuery(id, columns, table);
    var condition := Comparison(Single(ID), Equals, Single(Constant(id)));
    FitLeaf(aim, ID);
    FitLeaf(aim, Constant(id));
    FitComparison(aim, Single(ID), Equals, Single(Constant(id)));
    assert q.whereConditions == [condition];
    SelectedTargets(columns);
    FitFromParts(aim, q);
  }

  lemma SelectedTargets(columns: seq<Expression>)
    ensures forall t :: t in EMPTY_QUERY.Select(columns).selectTargetList ==> t.expression in columns
  {
  }

  lemma FitFromLast(aim: Aim, columns: seq<Expression>)
    requires forall e :: e in columns ==> Fit(aim, e)
    ensures FitQuery(aim, EMPTY_QUERY.Select(columns).FromTable("last"))
  {
    SelectedTargets(columns);
    FitFromParts(aim, EMPTY_QUERY.Select(columns).FromTable("last"));
  }

  lemma FitRowComparison(aim: Aim, columns: seq<Expression>, operator: Operator)
    requires forall e :: e in columns ==> Fit(aim, e)
    ensures Fit(aim, RowComparison(columns, operator, "last"))
  {
    FitSeveral(aim, columns);
    FitLeaf(aim, Star(None, None));
    FitFromLast(aim, [Star(None, None)]);
    FitSubquery(aim, EMPTY_QUERY.SelectAll().FromTable("last"));
    FitComparison(aim, Several(columns), operator, Subquery(EMPTY_QUERY.SelectAll().FromTable("last")));
  }

  lemma FitBranch(aim: Aim, query: Query, order: seq<SortBy>, n: nat, i: nat)
    requires FitParts(aim, query) && FitSorts(aim, order) && FitOperands(aim, order) && i < |order|
    ensures FitQuery(aim, BranchQuery(query, order, n, i))
  {
    var columns := Expressions(order)[..i + 1];
    var conditions := BranchConditions(columns, SortOperators(order));
    forall c | c in conditions ensures Fit(aim, c) {
      var j :| 0 <= j < |conditions| && conditions[j] == c;
      assert columns[j] == order[j].expression && order[j] in order;
      FitFromLast(aim, [columns[j]]);
      FitSubquery(aim, EMPTY_QUERY.Select([columns[j]]).FromTable("last"));
      FitComparison(aim, Single(columns[j]),
                    if j < |columns| - 1 then Equals else OperatorFor(SortOperators(order), columns[j]),
                    Subquery(EMPTY_QUERY.Select([columns[j]]).FromTable("last")));
    }
    FitFromParts(aim, BranchQuery(query, order, n, i));
  }

  lemma FitBranches(aim: Aim, query: Query, order: seq<SortBy>, n: nat)
    requires FitParts(aim, query) && FitSorts(aim, order) && FitOperands(aim, order)
    ensures forall q :: q in Branches(query, order, n) ==> FitQuery(aim, q)
  {
    var branches := Branches(query, order, n);
    forall q | q in branches ensures FitQuery(aim, q) {
      var i :| 0 <= i < |branches| && branches[i] == q;
      FitBranch(aim, query, order, n, i);
    }
  }

  lemma FitOnTop(aim: Aim, page: Query, sorts: seq<SortBy>, n: nat)
    requires FitQuery(aim, page) && FitSorts(aim, sorts)
    ensures FitParts(aim, EMPTY_QUERY.SelectAll().FromSubquery(page, "page").OrderBy(sorts).Limit(n))
  {
    FitLeaf(aim, Star(None, None));
    SelectedTargets([Star(None, None)]);
  }

  // The statements.

  lemma FitNoSort(aim: Aim, query: Query, lastId: Value, n: nat)
    requires FitParts(aim, query)
    ensures FitQuery(aim, NoSortForwards(query, lastId, n)) && FitQuery(aim, NoSortBackwards(query, lastId, n))
  {
    FitLeaf(aim, ID);
    FitLeaf(aim, Constant(lastId));
    FitComparison(aim, Single(ID), GreaterThan, Single(Constant(lastId)));
    FitComparison(aim, Single(ID), LessThan, Single(Constant(lastId)));
    FitFromParts(aim, RowSelectionNoSort(query, lastId, n, true));
    FitFromParts(aim, RowSelectionNoSort(query, lastId, n, false));
    FitOnTop(aim, RowSelectionNoSort(query, lastId, n, false), [SortBy(ID, None)], n);
    FitFromParts(aim, NoSortBackwards(query, lastId, n));
  }

  lemma FitUniformForwards(
    aim: Aim, query: Query, lastId: Value, n: nat, table: string, direction: SortDirection, operator: Operator)
    requires FitParts(aim, query)
    ensures FitQuery(aim, UniformForwards(query, lastId, n, table, direction, operator))
  {
    var order := WithId(query.sortbyList, direction);
    FitWithId(aim, query.sortbyList, direction);
    FitRecord(aim, lastId, Expressions(order), table);
    FitRowComparison(aim, Expressions(order), operator);
    FitFromParts(aim, UniformForwards(query, lastId, n, table, direction, operator));
  }

  lemma FitUniformBackwards(
    aim: Aim, query: Query, lastId: Value, n: nat, table: string, direction: SortDirection, operator: Operator)
    requires FitParts(aim, query)
    ensures FitQuery(aim, UniformBackwards(query, lastId, n, table, direction, operator))
  {
    var order := WithId(query.sortbyList, direction);
    FitWithId(aim, query.sortbyList, direction);
    FitRecord(aim, lastId, Expressions(order), table);
    FitRowComparison(aim, Expressions(order), operator);
    var page := query.Where([RowComparison(Expressions(order), operator, "last")])
      .ReplaceOrderBy(Redirected(order, direction.Reversed())).Limit(n);
    forall s | s in page.sortbyList ensures Fit(aim, s.expression) {
      var i :| 0 <= i < |order| && page.sortbyList[i] == s;
      assert order[i] in order;
    }
    FitFromParts(aim, page);
    FitOnTop(aim, page, order, n);
    FitFromParts(aim, UniformBackwards(query, lastId, n, table, direction, operator));
  }

  lemma FitMixedForwards(aim: Aim, query: Query, lastId: Value, n: nat, table: string)
    requires FitParts(aim, query) && FitOperands(aim, query.sortbyList)
    ensures FitQuery(aim, MixedForwards(query, lastId, n, table))
  {
    var order := WithId(query.sortbyList, Asc);
    FitWithId(aim, query.sortbyList, Asc);
    FitLeaf(aim, ID);
    FitRecord(aim, lastId, Expressions(order), table);
    FitBranches(aim, query, order, n);
    FitFromParts(aim, MixedForwards(query, lastId, n, table));
  }

  lemma FitMixedBackwards(aim: Aim, query: Query, lastId: Value, n: nat, table: string)
    requires FitParts(aim, query) && FitOperands(aim, query.sortbyList)
    ensures FitQuery(aim, MixedBackwards(query, lastId, n, table))
  {
    var order := WithId(query.sortbyList, Asc);
    var reversed := ReversedAll(order);
    FitWithId(aim, query.sortbyList, Asc);
    FitRecord(aim, lastId, Expressions(order), table);
    FitLeaf(aim, ID);
    forall s | s in reversed ensures Fit(aim, s.expression) && FitOperand(aim, Single(s.expression)) {
      var i :| 0 <= i < |order| && reversed[i] == s;
      assert order[i] in order;
    }
    FitBranches(aim, query, reversed, n);
    var page := UnionOf(Branches(query, reversed, n), All).OrderBy(reversed).Limit(n);
    FitFromParts(aim, page);
    FitOnTop(aim, page, order, n);
    FitFromParts(aim, MixedBackwards(query, lastId, n, table));
  }

  lemma FitFirstPages(aim: Aim, query: Query, n: nat, direction: SortDirection)
    requires FitParts(aim, query)
    ensures FitQuery(aim, FirstPageNoSort(query, n)) && FitQuery(aim, FirstPageExistingSort(query, n, direction))
  {
    FitLeaf(aim, ID);
    FitWithId(aim, query.sortbyList, direction);
    FitFromParts(aim, FirstPageNoSort(query, n));
    FitFromParts(aim, FirstPageExistingSort(query, n, direction));
  }

  lemma ApplyIsFit(aim: Aim, clause: KeySetPagingClause, table: string, query: Query)
    requires FitParts(aim, query) && Apply(clause, table, query).Success?
    requires Uniform(query.sortbyList) || FitOperands(aim, query.sortbyList)
    ensures FitQuery(aim, Apply(clause, table, query).value)
  {
    match (clause.lastId, clause.direction)
    case (None, _) =>
      FitFirstPages(aim, query, clause.itemCount, Asc);
      FitFirstPages(aim, query, clause.itemCount, Desc);
    case (Some(last), Forwards) => ForwardsIsFit(aim, clause, table, query, last);
    case (Some(last), Backwards) => BackwardsIsFit(aim, clause, table, query, last);
  }

  lemma ForwardsIsFit(aim: Aim, clause: KeySetPagingClause, table: string, query: Query, last: Value)
    requires FitParts(aim, query) && clause.lastId == Some(last) && clause.direction == Forwards
    requires Apply(clause, table, query).Success?
    requires Uniform(query.sortbyList) || FitOperands(aim, query.sortbyList)
    ensures FitQuery(aim, Apply(clause, table, query).value)
  {
    if query.sortbyList == [] {
      FitNoSort(aim, query, last, clause.itemCount);
    } else if AllAsc(query.sortbyList) {
      FitUniformForwards(aim, query, last, clause.itemCount, table, Asc, GreaterThan);
    } else if AllDesc(query.sortbyList) {
      FitUniformForwards(aim, query, last, clause.itemCount, table, Desc, LessThan);
    } else {
      FitMixedForwards(aim, query, last, clause.itemCount, table);
    }
  }

  lemma BackwardsIsFit(aim: Aim, clause: KeySetPagingClause, table: string, query: Query, last: Value)
    requires FitParts(aim, query) && clause.lastId == Some(last) && clause.direction == Backwards
    requires Apply(clause, table, query).Success?
    requires Uniform(query.sortbyList) || FitOperands(aim, query.sortbyList)
    ensures FitQuery(aim, Apply(clause, table, query).value)
  {
    if query.sortbyList == [] {
      FitNoSort(aim, query, last, clause.itemCount);
    } else if AllAsc(query.sortbyList) {
      FitUniformBackwards(aim, query, last, clause.itemCount, table, Asc, LessThan);
    } else if AllDesc(query.sortbyList) {
      FitUniformBackwards(aim, query, last, clause.itemCount, table, Desc, GreaterThan);
    } else {
      FitMixedBackwards(aim, query, last, clause.itemCount, table);
    }
  }

  lemma StatementIsFit(
    aim: Aim, table: string, filters: seq<Expression>, sorts: seq<SortBy>, clause: KeySetPagingClause)
    requires forall c :: c in filters ==> Fit(aim, c)
    requires FitSorts(aim, sorts) && (Uniform(sorts) || FitOperands(aim, sorts))
    requires PageWalks.Statement(table, filters, sorts, clause).Success?
    ensures FitQuery(aim, PageWalks.Statement(table, filters, sorts, clause).value)
  {
    FitLeaf(aim, Star(None, None));
    SelectedTargets([Star(None, None)]);
    assert FitParts(aim, SearchQuery(table, filters, sorts));
    ApplyIsFit(aim, clause, table, SearchQuery(table, filters, sorts));
  }

  /**
   Whatever shape is chosen, the statement of a search renders with exactly one parameter for
   every placeholder, and binding them writes each constant in its own place.
   */
  lemma EveryPagingStatementBinds(
    table: string, filters: seq<Expression>, sorts: seq<SortBy>, clause: KeySetPagingClause)
    requires forall c :: c in filters ==> Fit(ToBind, c)
    requires FitSorts(ToBind, sorts) && PageWalks.Statement(table, filters, sorts, clause).Success?
    ensures var q := PageWalks.Statement(table, filters, sorts, clause).value;
      && RenderQuery(Placeholders, q).Success?
      && var f := RenderQuery(Placeholders, q).value;
         Holes(f.sql) == |f.params| && RenderQuery(InPlace, q) == Success(Fragment(Fill(f.sql, f.params), []))
  {
    var q := PageWalks.Statement(table, filters, sorts, clause).value;
    StatementIsFit(ToBind, table, filters, sorts, clause);
    RendersUnlessFaulty(q);
    EveryPlaceholderHasItsParameter(q);
    FillingIsRenderingInPlace(q);
  }

  /** Whatever shape is chosen, the bound text of the statement is read back as that statement. */
  lemma EveryPagingStatementReadsBack(
    table: string, filters: seq<Expression>, sorts: seq<SortBy>, clause: KeySetPagingClause)
    requires forall c :: c in filters ==> Fit(ToReadBack, c)
    requires FitSorts(ToReadBack, sorts) && (Uniform(sorts) || FitOperands(ToReadBack, sorts))
    requires PageWalks.Statement(table, filters, sorts, clause).Success?
    ensures var q := PageWalks.Statement(table, filters, sorts, clause).value;
      && RenderQuery(Placeholders, q).Success?
      && var f := RenderQuery(Placeholders, q).value;
         ReadStatement(Fill(f.sql, f.params)) == Some(q)
  {
    StatementIsFit(ToReadBack, table, filters, sorts, clause);
    BoundTextReadsBack(PageWalks.Statement(table, filters, sorts, clause).value);
  }

  /** So is that of an offset page. */
  lemma OffsetStatementReadsBack(
    table: string, filters: seq<Expression>, sorts: seq<SortBy>, clause: OffsetPagingClause)
    requires (forall c :: c in filters ==> Fit(ToReadBack, c)) && FitSorts(ToReadBack, sorts)
    requires clause.pageNumber >= 1
    ensures var q := ApplyOffset(clause, SearchQuery(table, filters, sorts));
      && RenderQuery(Placeholders, q).Success?
      && var f := RenderQuery(Placeholders, q).value;
         ReadStatement(Fill(f.sql, f.params)) == Some(q)
  {
    FitLeaf(ToReadBack, Star(None, None));
    SelectedTargets([Star(None, None)]);
    FitFromParts(ToReadBack, ApplyOffset(clause, SearchQuery(table, filters, sorts)));
    BoundTextReadsBack(ApplyOffset(clause, SearchQuery(table, filters, sorts)));
  }

  /** What a database makes of a text and its parameters. */
  function Run(db: Database, env: Environment, f: Fragment): Option<seq<Row>> {
    match ReadStatement(Fill(f.sql, f.params))
    case None => None
    case Some(q) => Some(EvalQuery(db, env, q))
  }

  /** From the clause to the rows: the text and parameters of any shape, run, give the page asked for. */
  lemma TextServesPage(
    db: Database, env: Environment, table: string, filters: seq<Expression>, sorts: seq<SortBy>,
    clause: KeySetPagingClause, last: Row)
    requires Setting(db, env, table, filters, sorts) && Supported(sorts)
    requires clause.lastId.Some? ==> last in env[table] && clause.lastId.value == Id(last)
    requires (forall c :: c in filters ==> Fit(ToReadBack, c)) && FitSorts(ToReadBack, sorts)
    ensures PageWalks.Statement(table, filters, sorts, clause).Success?
    ensures var q := PageWalks.Statement(table, filters, sorts, clause).value;
      && RenderQuery(Placeholders, q).Success?
      && Run(db, env, RenderQuery(Placeholders, q).value)
         == Some(PageWalks.Page(db, Order(sorts), Ranked(db, env, table, filters, sorts), clause, last))
  {
    PageWalks.EveryShapeMeansItsPage(db, env, table, filters, sorts, clause, last);
    SupportedFits(sorts);
    EveryPagingStatementReadsBack(table, filters, sorts, clause);
  }

  lemma SupportedFits(sorts: seq<SortBy>)
    requires Supported(sorts) && FitSorts(ToReadBack, sorts)
    ensures Uniform(sorts) || FitOperands(ToReadBack, sorts)
  {
    if !Uniform(sorts) {
      forall s | s in sorts ensures FitOperand(ToReadBack, Single(s.expression)) {
        var i :| 0 <= i < |sorts| && sorts[i] == s;
        assert Order(sorts)[i] == s;
      }
    }
  }
}
