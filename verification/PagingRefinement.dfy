/**
 Every statement the paging clause compiles to means the same simple thing: a page of the
 filtered rows ranked by one total order, namely the sort expressions followed by the id.
 */
module PagingRefinement {
  import opened Prelude
  import opened Ordering
  import opened Values
  import opened SqlQuery
  import opened Evaluation
  import opened KeySetPaging
  import opened PagingEvaluation

  // The specification.

  /** The sort, completed by the id: descending only when every sort is. */
  function Order(sorts: seq<SortBy>): seq<SortBy> {
    WithId(sorts, if sorts != [] && AllDesc(sorts) then Desc else Asc)
  }

  function Selected(db: Database, env: Environment, table: string, filters: seq<Expression>): seq<Row>
    requires table in env
  {
    Filter(Matching(db, env, filters), env[table])
  }

  /** The whole result: the rows passing the filters, in order. */
  function Ranked(
    db: Database, env: Environment, table: string, filters: seq<Expression>, sorts: seq<SortBy>): seq<Row>
    requires table in env
  {
    Sort(By(db, Order(sorts)), Selected(db, env, table, filters))
  }

  function AfterRow(db: Database, order: seq<SortBy>, last: Row): Row -> bool {
    (row: Row) => Precedes(db, order, last, row)
  }

  function BeforeRow(db: Database, order: seq<SortBy>, last: Row): Row -> bool {
    (row: Row) => Precedes(db, order, row, last)
  }

  function NextPage(db: Database, order: seq<SortBy>, last: Row, n: nat, ranked: seq<Row>): seq<Row> {
    Take(n, Filter(AfterRow(db, order, last), ranked))
  }

  function PreviousPage(db: Database, order: seq<SortBy>, last: Row, n: nat, ranked: seq<Row>): seq<Row> {
    Last(n, Filter(BeforeRow(db, order, last), ranked))
  }

  // What the laws ask of the data and of the search.

  ghost predicate NonNull(db: Database, sorts: seq<SortBy>, row: Row) {
    forall i :: 0 <= i < |sorts| ==> EvalExpression(db, sorts[i].expression, row) != Null
  }

  ghost predicate Complete(db: Database, sorts: seq<SortBy>, rows: seq<Row>) {
    forall row :: row in rows ==> Id(row) != Null && NonNull(db, sorts, row)
  }

  ghost predicate Directed(sorts: seq<SortBy>) {
    forall i :: 0 <= i < |sorts| ==> sorts[i].direction.Some? && sorts[i].expression != Star(None, None)
  }

  ghost predicate DistinctColumns(sorts: seq<SortBy>) {
    && (forall i :: 0 <= i < |sorts| ==> PlainColumn(sorts[i].expression))
    && (forall i, j :: 0 <= i < j < |sorts| ==> sorts[i].expression != sorts[j].expression)
  }

  predicate Uniform(sorts: seq<SortBy>) {
    AllAsc(sorts) || AllDesc(sorts)
  }

  /** Mixed directions go through a dict keyed by column. */
  ghost predicate Supported(sorts: seq<SortBy>) {
    Directed(sorts) && (Uniform(sorts) || DistinctColumns(Order(sorts)))
  }

  ghost predicate Setting(
    db: Database, env: Environment, table: string, filters: seq<Expression>, sorts: seq<SortBy>)
  {
    && table in env && table != "last"
    && AllSelfContained(filters)
    && IdsIdentify(env[table]) && Complete(db, sorts, env[table])
  }

  // Orders that end with the id have no ties among identified rows.

  lemma OrderDiscriminates(
      db: Database, sorts: seq<SortBy>, direction: SortDirection, rows: seq<Row>, part: seq<Row>)
    requires IdsIdentify(rows) && forall row :: row in part ==> row in rows
    ensures Discriminates(By(db, WithId(sorts, direction)), part)
  {
    var order := WithId(sorts, direction);
    forall a, b | a in part && b in part && Tied(By(db, order), a, b) ensures a == b {
      TiedByKeys(db, order, a, b);
      assert order[|sorts|].expression == ID;
      assert Id(a) == Id(b);
    }
  }

  ghost predicate Opposite(sorts: seq<SortBy>, reversed: seq<SortBy>) {
    && |sorts| == |reversed|
    && forall i :: 0 <= i < |sorts| ==>
         reversed[i].expression == sorts[i].expression && reversed[i].IsDescending() != sorts[i].IsDescending()
  }

  lemma {:induction false} ReversedPrecedes(db: Database, sorts: seq<SortBy>, reversed: seq<SortBy>, a: Row, b: Row)
    requires Opposite(sorts, reversed)
    ensures Precedes(db, reversed, a, b) == Precedes(db, sorts, b, a)
  {
    if sorts != [] {
      ReversedPrecedes(db, sorts[1..], reversed[1..], a, b);
    }
  }

  /** Reverse the order, limit, then sort again: the last n. */
  lemma ResortedPage(
    db: Database, sorts: seq<SortBy>, direction: SortDirection, reversed: seq<SortBy>, rows: seq<Row>, part: seq<Row>,
    n: nat)
    requires IdsIdentify(rows) && forall row :: row in part ==> row in rows
    requires Opposite(WithId(sorts, direction), reversed)
    ensures var lt := By(db, WithId(sorts, direction));
            Sort(lt, Top(By(db, reversed), n, part)) == Last(n, Sort(lt, part))
  {
    var lt := By(db, WithId(sorts, direction));
    ByWeakOrder(db, WithId(sorts, direction));
    OrderDiscriminates(db, sorts, direction, rows, part);
    forall a, b ensures By(db, reversed)(a, b) == Flip(lt)(a, b) {
      ReversedPrecedes(db, WithId(sorts, direction), reversed, a, b);
    }
    SortExtensional(By(db, reversed), Flip(lt), part);
    LastByReversal(lt, part, n);
  }

  // Uniform directions: SQL's row comparison is the order itself.

  /** Every sort goes the same way. */
  ghost predicate Goes(sorts: seq<SortBy>, direction: SortDirection) {
    forall i :: 0 <= i < |sorts| ==> sorts[i].IsDescending() == (direction == Desc)
  }

  function Pair<T>(swap: bool, a: T, b: T): (T, T) {
    if swap then (b, a) else (a, b)
  }

  lemma {:induction false} RowBelowPrecedes(
    db: Database, sorts: seq<SortBy>, direction: SortDirection, a: Row, b: Row)
    requires Goes(sorts, direction) && NonNull(db, sorts, a) && NonNull(db, sorts, b)
    ensures var (x, y) := Pair(direction == Desc, a, b);
      RowBelow(EvalAll(db, Expressions(sorts), x), EvalAll(db, Expressions(sorts), y)) == Precedes(db, sorts, a, b)
  {
    if sorts != [] {
      assert Expressions(sorts)[1..] == Expressions(sorts[1..]);
      assert EvalAll(db, Expressions(sorts), a)[1..] == EvalAll(db, Expressions(sorts[1..]), a);
      assert EvalAll(db, Expressions(sorts), b)[1..] == EvalAll(db, Expressions(sorts[1..]), b);
      RowBelowPrecedes(db, sorts[1..], direction, a, b);
    }
  }

  lemma NonNullWithId(db: Database, sorts: seq<SortBy>, direction: SortDirection, row: Row)
    requires Id(row) != Null && NonNull(db, sorts, row)
    ensures NonNull(db, WithId(sorts, direction), row)
  {
  }

  /** The environment in which `last` is bound to the row paged from. */
  function WithLast(db: Database, env: Environment, order: seq<SortBy>, last: Row): Environment {
    env["last" := [Project(db, LastTargets(Expressions(order)), last)]]
  }

  /** `inner` binds `last` to what the record query for this id yields. */
  ghost predicate Binds(
    db: Database, env: Environment, table: string, lastId: Value, order: seq<SortBy>, inner: Environment)
  {
    inner == env["last" := EvalQuery(db, env, RecordQuery(lastId, Expressions(order), table))]
  }

  lemma BindsRow(db: Database, env: Environment, table: string, order: seq<SortBy>, last: Row)
    requires table in env && IdsIdentify(env[table]) && last in env[table] && Id(last) != Null
    ensures Binds(db, env, table, Id(last), order, WithLast(db, env, order, last))
  {
    EvalRecord(db, env, Id(last), Expressions(order), table);
  }

  lemma FilterConditions(
    db: Database, env: Environment, env': Environment, filters: seq<Expression>, more: seq<Expression>, row: Row)
    requires AllSelfContained(filters)
    ensures Matching(db, env', filters + more)(row)
        <==> Matching(db, env, filters)(row) && HoldAll(db, env', more, row)
  {
    HoldAllConcat(db, env', filters, more, row);
    SelfContainedHoldAll(db, env, env', filters, row);
  }

  /** The operator that keeps the rows after (or before) the last one. */
  function Beyond(direction: SortDirection, forwards: bool): Operator {
    if (direction == Asc) == forwards then GreaterThan else LessThan
  }

  function Side(db: Database, order: seq<SortBy>, last: Row, forwards: bool): Row -> bool {
    if forwards then AfterRow(db, order, last) else BeforeRow(db, order, last)
  }

  lemma RowComparisonMeaning(
    db: Database, env: Environment, order: seq<SortBy>, direction: SortDirection, forwards: bool, last: Row, row: Row)
    requires Directed(order) && Goes(order, direction)
    requires NonNull(db, order, last) && NonNull(db, order, row)
    ensures var condition := RowComparison(Expressions(order), Beyond(direction, forwards), "last");
      HoldAll(db, WithLast(db, env, order, last), [condition], row) == Side(db, order, last, forwards)(row)
  {
    var env' := WithLast(db, env, order, last);
    var condition := RowComparison(Expressions(order), Beyond(direction, forwards), "last");
    EvalAllOfLast(db, env', Expressions(order), last);
    HoldAllEach(db, env', [condition], row);
    RowBelowPrecedes(db, order, direction, last, row);
    RowBelowPrecedes(db, order, direction, row, last);
  }

  lemma SearchQueryShape(table: string, filters: seq<Expression>, sorts: seq<SortBy>)
    ensures var q := SearchQuery(table, filters, sorts);
      PlainSelect(q, table) && q.whereConditions == filters && q.sortbyList == sorts
      && q.limitValue == None && q.offsetValue == None
  {
  }

  function UniformConditions(
    filters: seq<Expression>, order: seq<SortBy>, direction: SortDirection, forwards: bool): seq<Expression>
  {
    filters + [RowComparison(Expressions(order), Beyond(direction, forwards), "last")]
  }

  /** The rows a row-comparison statement selects. */
  lemma UniformSelection(
    db: Database, env: Environment, table: string, filters: seq<Expression>, sorts: seq<SortBy>,
    direction: SortDirection, forwards: bool, last: Row)
    requires Setting(db, env, table, filters, sorts) && last in env[table]
    requires Directed(sorts) && Goes(sorts, direction)
    ensures var order := WithId(sorts, direction);
      var matching := Matching(db, WithLast(db, env, order, last),
                               UniformConditions(filters, order, direction, forwards));
      forall row :: row in env[table] ==>
        (matching(row) <==> Side(db, order, last, forwards)(row) && Matching(db, env, filters)(row))
  {
    var order := WithId(sorts, direction);
    var inner := WithLast(db, env, order, last);
    var condition := RowComparison(Expressions(order), Beyond(direction, forwards), "last");
    forall row | row in env[table]
      ensures Matching(db, inner, filters + [condition])(row)
          <==> Side(db, order, last, forwards)(row) && Matching(db, env, filters)(row)
    {
      FilterConditions(db, env, inner, filters, [condition], row);
      NonNullWithId(db, sorts, direction, row);
      NonNullWithId(db, sorts, direction, last);
      RowComparisonMeaning(db, env, order, direction, forwards, last, row);
    }
  }

  lemma UniformForwardsMeaning(
    db: Database, env: Environment, table: string, filters: seq<Expression>, sorts: seq<SortBy>,
    direction: SortDirection, last: Row, n: nat)
    requires Setting(db, env, table, filters, sorts) && last in env[table]
    requires Directed(sorts) && Goes(sorts, direction)
    ensures var q := UniformForwards(
        SearchQuery(table, filters, sorts), Id(last), n, table, direction, Beyond(direction, true));
      var order := WithId(sorts, direction);
      EvalQuery(db, env, q) == NextPage(db, order, last, n, Sort(By(db, order), Selected(db, env, table, filters)))
  {
    var order := WithId(sorts, direction);
    var matching := Matching(db, WithLast(db, env, order, last), UniformConditions(filters, order, direction, true));
    BindsRow(db, env, table, order, last);
    UniformForwardsSteps(db, env, table, filters, sorts, direction, Id(last), WithLast(db, env, order, last), n);
    UniformSelection(db, env, table, filters, sorts, direction, true, last);
    SelectionForwards(db, order, last, n, Matching(db, env, filters), matching, env[table]);
  }

  /** The statement read off step by step: select after, rank, limit. */
  lemma UniformForwardsSteps(
    db: Database, env: Environment, table: string, filters: seq<Expression>, sorts: seq<SortBy>,
    direction: SortDirection, lastId: Value, inner: Environment, n: nat)
    requires table in env && table != "last"
    requires Binds(db, env, table, lastId, WithId(sorts, direction), inner)
    ensures var order := WithId(sorts, direction);
      var conditions := UniformConditions(filters, order, direction, true);
      EvalQuery(db, env, UniformForwards(
        SearchQuery(table, filters, sorts), lastId, n, table, direction, Beyond(direction, true)))
      == Top(By(db, order), n, Filter(Matching(db, inner, conditions), env[table]))
  {
    var order := WithId(sorts, direction);
    var q := UniformForwards(
      SearchQuery(table, filters, sorts), lastId, n, table, direction, Beyond(direction, true));
    SearchQueryShape(table, filters, sorts);
    EvalPlainWith(db, env, q, Named(RecordQuery(lastId, Expressions(order), table), "last"), table);
  }

  lemma UniformBackwardsMeaning(
    db: Database, env: Environment, table: string, filters: seq<Expression>, sorts: seq<SortBy>,
    direction: SortDirection, last: Row, n: nat)
    requires Setting(db, env, table, filters, sorts) && last in env[table]
    requires Directed(sorts) && Goes(sorts, direction)
    ensures var q := UniformBackwards(
        SearchQuery(table, filters, sorts), Id(last), n, table, direction, Beyond(direction, false));
      var order := WithId(sorts, direction);
      EvalQuery(db, env, q) == PreviousPage(db, order, last, n, Sort(By(db, order), Selected(db, env, table, filters)))
  {
    BindsRow(db, env, table, WithId(sorts, direction), last);
    UniformBackwardsSteps(
      db, env, table, filters, sorts, direction, Id(last), WithLast(db, env, WithId(sorts, direction), last), n);
    UniformBackwardsPage(db, env, table, filters, sorts, direction, last, n);
  }

  lemma UniformBackwardsPage(
    db: Database, env: Environment, table: string, filters: seq<Expression>, sorts: seq<SortBy>,
    direction: SortDirection, last: Row, n: nat)
    requires Setting(db, env, table, filters, sorts) && last in env[table]
    requires Directed(sorts) && Goes(sorts, direction)
    ensures var order := WithId(sorts, direction);
      var conditions := UniformConditions(filters, order, direction, false);
      var before := Filter(Matching(db, WithLast(db, env, order, last), conditions), env[table]);
      Top(By(db, order), n, Top(By(db, Redirected(order, direction.Reversed())), n, before))
      == PreviousPage(db, order, last, n, Sort(By(db, order), Selected(db, env, table, filters)))
  {
    var order := WithId(sorts, direction);
    var matching := Matching(db, WithLast(db, env, order, last), UniformConditions(filters, order, direction, false));
    UniformSelection(db, env, table, filters, sorts, direction, false, last);
    RedirectedOpposite(sorts, direction);
    SelectionBackwards(db, sorts, direction, Redirected(order, direction.Reversed()), last, n,
                       Matching(db, env, filters), matching, env[table]);
  }

  lemma RedirectedOpposite(sorts: seq<SortBy>, direction: SortDirection)
    requires Goes(sorts, direction)
    ensures Opposite(WithId(sorts, direction), Redirected(WithId(sorts, direction), direction.Reversed()))
  {
  }

  /** Selecting forwards: rank, keep what comes after, limit. */
  lemma SelectionForwards(
    db: Database, order: seq<SortBy>, last: Row, n: nat, filter: Row -> bool, matching: Row -> bool, rows: seq<Row>)
    requires forall row :: row in rows ==> (matching(row) <==> AfterRow(db, order, last)(row) && filter(row))
    ensures Top(By(db, order), n, Filter(matching, rows))
         == NextPage(db, order, last, n, Sort(By(db, order), Filter(filter, rows)))
  {
    ByWeakOrder(db, order);
    SortSelection(By(db, order), AfterRow(db, order, last), filter, matching, rows);
  }

  /** Selecting backwards: rank in reverse, limit, rank again, limit. */
  lemma {:induction false} SelectionBackwards(
    db: Database, sorts: seq<SortBy>, direction: SortDirection, reversed: seq<SortBy>, last: Row, n: nat,
    filter: Row -> bool, matching: Row -> bool, rows: seq<Row>)
    requires IdsIdentify(rows) && Opposite(WithId(sorts, direction), reversed)
    requires forall row :: row in rows ==>
      (matching(row) <==> BeforeRow(db, WithId(sorts, direction), last)(row) && filter(row))
    ensures var order := WithId(sorts, direction);
      Top(By(db, order), n, Top(By(db, reversed), n, Filter(matching, rows)))
      == PreviousPage(db, order, last, n, Sort(By(db, order), Filter(filter, rows)))
  {
    var order := WithId(sorts, direction);
    ResortedPage(db, sorts, direction, reversed, rows, Filter(matching, rows), n);
    ByWeakOrder(db, order);
    SortSelection(By(db, order), BeforeRow(db, order, last), filter, matching, rows);
  }

  /** The statement read off step by step: select before, rank in reverse, limit, rank again, limit. */
  lemma UniformBackwardsSteps(
    db: Database, env: Environment, table: string, filters: seq<Expression>, sorts: seq<SortBy>,
    direction: SortDirection, lastId: Value, inner: Environment, n: nat)
    requires table in env && table != "last"
    requires Binds(db, env, table, lastId, WithId(sorts, direction), inner)
    ensures var order := WithId(sorts, direction);
      var conditions := UniformConditions(filters, order, direction, false);
      var before := Filter(Matching(db, inner, conditions), env[table]);
      EvalQuery(db, env, UniformBackwards(
        SearchQuery(table, filters, sorts), lastId, n, table, direction, Beyond(direction, false)))
      == Top(By(db, order), n, Top(By(db, Redirected(order, direction.Reversed())), n, before))
  {
    var order := WithId(sorts, direction);
    var q := UniformBackwards(
      SearchQuery(table, filters, sorts), lastId, n, table, direction, Beyond(direction, false));
    var page := SearchQuery(table, filters, sorts)
      .Where([RowComparison(Expressions(order), Beyond(direction, false), "last")])
      .ReplaceOrderBy(Redirected(order, direction.Reversed()))
      .Limit(n);
    SearchQueryShape(table, filters, sorts);
    assert Resorting(q, order, lastId, table, page, n) by {
      SelectAllTarget(EMPTY_QUERY);
    }
    EvalResorting(db, env, q, order, lastId, inner, table, page, n);
    EvalLimited(db, inner, page, table, n);
  }

  /** A statement binding `last`, selecting from `page`, sorting by `order` and limiting to n. */
  ghost predicate Resorting(q: Query, order: seq<SortBy>, lastId: Value, table: string, page: Query, n: nat) {
    && q.commonTableExpressions == [Named(RecordQuery(lastId, Expressions(order), table), "last")]
    && q.unions == None && q.selectTargetList == [ResultTarget(Star(None, None), None)]
    && q.fromTables == [] && q.fromSubqueries == [Named(page, "page")] && q.whereConditions == []
    && q.sortbyList == order && q.limitValue == Some(n) && q.offsetValue == None
  }

  lemma EvalResorting(
    db: Database, env: Environment, q: Query, order: seq<SortBy>, lastId: Value, inner: Environment, table: string,
    page: Query, n: nat)
    requires Resorting(q, order, lastId, table, page, n) && Binds(db, env, table, lastId, order, inner)
    ensures EvalQuery(db, env, q) == Top(By(db, order), n, EvalQuery(db, inner, page))
  {
    EvalOneNamed(db, env, Named(RecordQuery(lastId, Expressions(order), table), "last"));
    EvalResort(db, env, q, Named(page, "page"));
  }

  lemma EvalLimited(db: Database, env: Environment, q: Query, table: string, n: nat)
    requires PlainSelect(q, table) && table in env && q.limitValue == Some(n) && q.offsetValue == None
    ensures EvalQuery(db, env, q)
         == Top(By(db, q.sortbyList), n, Filter(Matching(db, env, q.whereConditions), env[table]))
  {
    EvalPlain(db, env, q, table);
  }
}
