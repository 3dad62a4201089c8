/** The nine statement shapes against the one specification, and what walking pages yields. */
module PagingLaws {
  import opened Prelude
  import opened Ordering
  import opened Values
  import opened SqlQuery
  import opened Evaluation
  import opened KeySetPaging
  import opened PagingEvaluation
  import opened PagingRefinement
  import opened MixedPaging

  lemma CompleteWithId(db: Database, sorts: seq<SortBy>, direction: SortDirection, rows: seq<Row>)
    requires Complete(db, sorts, rows)
    ensures Complete(db, WithId(sorts, direction), rows)
  {
  }

  // First pages.

  lemma FirstPageMeaning(
    db: Database, env: Environment, table: string, filters: seq<Expression>, sorts: seq<SortBy>,
    direction: SortDirection, n: nat)
    requires table in env && sorts != []
    ensures EvalQuery(db, env, FirstPageExistingSort(SearchQuery(table, filters, sorts), n, direction))
         == Top(By(db, WithId(sorts, direction)), n, Selected(db, env, table, filters))
  {
    var q := FirstPageExistingSort(SearchQuery(table, filters, sorts), n, direction);
    SearchQueryShape(table, filters, sorts);
    EvalLimited(db, env, q, table, n);
  }

  /** An unstated direction sorts as ascending. */
  lemma UndirectedId(db: Database, rows: seq<Row>)
    ensures Sort(By(db, [SortBy(ID, None)]), rows) == Sort(By(db, WithId([], Asc)), rows)
  {
    assert WithId([], Asc) == [SortBy(ID, Some(Asc))];
    forall a, b ensures By(db, [SortBy(ID, None)])(a, b) == By(db, WithId([], Asc))(a, b) {
      SinglePrecedes(db, SortBy(ID, None), a, b);
      SinglePrecedes(db, SortBy(ID, Some(Asc)), a, b);
    }
    SortExtensional(By(db, [SortBy(ID, None)]), By(db, WithId([], Asc)), rows);
  }

  lemma FirstPageNoSortMeaning(
      db: Database, env: Environment, table: string, filters: seq<Expression>, n: nat)
    requires table in env
    ensures EvalQuery(db, env, FirstPageNoSort(SearchQuery(table, filters, []), n))
         == Top(By(db, WithId([], Asc)), n, Selected(db, env, table, filters))
  {
    var q := FirstPageNoSort(SearchQuery(table, filters, []), n);
    SearchQueryShape(table, filters, []);
    assert q.sortbyList == [SortBy(ID, None)];
    EvalLimited(db, env, q, table, n);
    UndirectedId(db, Selected(db, env, table, filters));
  }

  // Subsequent pages without a sort.

  function IdConditions(filters: seq<Expression>, lastId: Value, forwards: bool): seq<Expression> {
    filters + [Comparison(Single(ID), if forwards then GreaterThan else LessThan, Single(Constant(lastId)))]
  }

  lemma IdSelection(
    db: Database, env: Environment, filters: seq<Expression>, lastId: Value, forwards: bool, last: Row, row: Row)
    requires Id(last) == lastId && lastId != Null && Id(row) != Null
    ensures Matching(db, env, IdConditions(filters, lastId, forwards))(row)
      <==> Side(db, WithId([], Asc), last, forwards)(row) && Matching(db, env, filters)(row)
  {
    var condition := Comparison(
      Single(ID), if forwards then GreaterThan else LessThan, Single(Constant(lastId)));
    HoldAllConcat(db, env, filters, [condition], row);
    HoldAllEach(db, env, [condition], row);
    RowBelowSingle(lastId, Id(row));
    assert WithId([], Asc) == [SortBy(ID, Some(Asc))];
    SinglePrecedes(db, SortBy(ID, Some(Asc)), last, row);
    SinglePrecedes(db, SortBy(ID, Some(Asc)), row, last);
  }

  lemma RowBelowSingle(x: Value, y: Value)
    requires x != Null && y != Null
    ensures RowBelow([x], [y]) == (x != y && Below(x, y))
    ensures RowBelow([y], [x]) == (x != y && Below(y, x))
  {
  }

  lemma NoSortForwardsMeaning(
    db: Database, env: Environment, table: string, filters: seq<Expression>, last: Row, n: nat)
    requires Setting(db, env, table, filters, []) && Id(last) != Null
    ensures EvalQuery(db, env, NoSortForwards(SearchQuery(table, filters, []), Id(last), n))
         == NextPage(db, WithId([], Asc), last, n, Ranked(db, env, table, filters, []))
  {
    var q := NoSortForwards(SearchQuery(table, filters, []), Id(last), n);
    var order := WithId([], Asc);
    SearchQueryShape(table, filters, []);
    assert q.sortbyList == order;
    EvalLimited(db, env, q, table, n);
    forall row | row in env[table]
      ensures Matching(db, env, q.whereConditions)(row)
          <==> AfterRow(db, order, last)(row) && Matching(db, env, filters)(row)
    {
      IdSelection(db, env, filters, Id(last), true, last, row);
    }
    SelectionForwards(db, order, last, n, Matching(db, env, filters), Matching(db, env, q.whereConditions), env[table]);
  }

  lemma NoSortBackwardsMeaning(
    db: Database, env: Environment, table: string, filters: seq<Expression>, last: Row, n: nat)
    requires Setting(db, env, table, filters, []) && Id(last) != Null
    ensures EvalQuery(db, env, NoSortBackwards(SearchQuery(table, filters, []), Id(last), n))
         == PreviousPage(db, WithId([], Asc), last, n, Ranked(db, env, table, filters, []))
  {
    var order := WithId([], Asc);
    var matching := Matching(db, env, IdConditions(filters, Id(last), false));
    NoSortBackwardsSteps(db, env, table, filters, Id(last), n);
    forall row | row in env[table]
      ensures matching(row) <==> BeforeRow(db, order, last)(row) && Matching(db, env, filters)(row)
    {
      IdSelection(db, env, filters, Id(last), false, last, row);
    }
    SelectionBackwards(db, [], Asc, [SortBy(ID, Some(Desc))], last, n, Matching(db, env, filters), matching,
                       env[table]);
  }

  lemma NoSortBackwardsSteps(
    db: Database, env: Environment, table: string, filters: seq<Expression>, lastId: Value, n: nat)
    requires table in env
    ensures EvalQuery(db, env, NoSortBackwards(SearchQuery(table, filters, []), lastId, n))
         == Top(By(db, WithId([], Asc)), n,
                Top(By(db, [SortBy(ID, Some(Desc))]), n,
                    Filter(Matching(db, env, IdConditions(filters, lastId, false)), env[table])))
  {
    var q := NoSortBackwards(SearchQuery(table, filters, []), lastId, n);
    var page := RowSelectionNoSort(SearchQuery(table, filters, []), lastId, n, false);
    SearchQueryShape(table, filters, []);
    assert page.sortbyList == [SortBy(ID, Some(Desc))];
    SelectAllTarget(EMPTY_QUERY);
    EvalResort(db, env, q, Named(page, "page"));
    EvalLimited(db, env, page, table, n);
    assert q.sortbyList == [SortBy(ID, None)];
    UndirectedId(db, EvalQuery(db, env, page));
  }

  // Subsequent pages with mixed directions.

  lemma MixedForwardsMeaning(
    db: Database, env: Environment, table: string, filters: seq<Expression>, sorts: seq<SortBy>, last: Row, n: nat)
    requires Setting(db, env, table, filters, sorts) && last in env[table]
    requires Directed(sorts) && DistinctColumns(WithId(sorts, Asc))
    ensures var order := WithId(sorts, Asc);
      EvalQuery(db, env, MixedForwards(SearchQuery(table, filters, sorts), Id(last), n, table))
      == NextPage(db, order, last, n, Sort(By(db, order), Selected(db, env, table, filters)))
  {
    var order := WithId(sorts, Asc);
    BindsRow(db, env, table, order, last);
    MixedForwardsSteps(db, env, table, filters, sorts, Id(last), WithLast(db, env, order, last), n);
    CompleteWithId(db, sorts, Asc, env[table]);
    DirectedWithId(sorts, Asc);
    UnitedBranches(db, env, table, filters, sorts, order, last, n);
  }

  lemma DirectedWithId(sorts: seq<SortBy>, direction: SortDirection)
    requires Directed(sorts)
    ensures Directed(WithId(sorts, direction))
  {
  }

  /** All branches for `order` united, ranked and limited. */
  lemma UnitedBranches(
    db: Database, env: Environment, table: string, filters: seq<Expression>, sorts: seq<SortBy>, order: seq<SortBy>,
    last: Row, n: nat)
    requires Setting(db, env, table, filters, sorts) && last in env[table] && Directed(sorts)
    requires Complete(db, order, env[table]) && Directed(order) && DistinctColumns(order)
    requires order == WithId(sorts, Asc) || order == ReversedAll(WithId(sorts, Asc))
    ensures Top(By(db, order), n,
                Flatten(EvalQueries(db, WithLast(db, env, order, last),
                                    Branches(SearchQuery(table, filters, sorts), order, n))))
         == NextPage(db, order, last, n, Sort(By(db, order), Selected(db, env, table, filters)))
  {
    var selected := Selected(db, env, table, filters);
    EvalBranches(db, env, table, filters, sorts, order, last, n);
    if order == WithId(sorts, Asc) {
      OrderDiscriminates(db, sorts, Asc, env[table], selected);
    } else {
      ReversedDiscriminates(db, sorts, env[table], selected);
    }
    UnionOfBranches(db, selected, order, last, n);
  }

  lemma MixedForwardsSteps(
    db: Database, env: Environment, table: string, filters: seq<Expression>, sorts: seq<SortBy>, lastId: Value,
    inner: Environment, n: nat)
    requires Binds(db, env, table, lastId, WithId(sorts, Asc), inner)
    ensures var order := WithId(sorts, Asc);
      EvalQuery(db, env, MixedForwards(SearchQuery(table, filters, sorts), lastId, n, table))
      == Top(By(db, order), n,
             Flatten(EvalQueries(db, inner,
                                 Branches(SearchQuery(table, filters, sorts), order, n))))
  {
    var order := WithId(sorts, Asc);
    SearchQueryShape(table, filters, sorts);
    EvalUnionWithLast(db, env, MixedForwards(SearchQuery(table, filters, sorts), lastId, n, table),
                      order, lastId, inner, table, Branches(SearchQuery(table, filters, sorts), order, n), n);
  }

  /** A union of queries under a binding of `last`, sorted by `order` and limited to n. */
  lemma EvalUnionWithLast(
    db: Database, env: Environment, q: Query, order: seq<SortBy>, lastId: Value, inner: Environment, table: string,
    queries: seq<Query>, n: nat)
    requires q.commonTableExpressions == [Named(RecordQuery(lastId, Expressions(order), table), "last")]
    requires q.unions == Some(Union(queries, All)) && q.sortbyList == order
    requires q.limitValue == Some(n) && q.offsetValue == None && Binds(db, env, table, lastId, order, inner)
    ensures EvalQuery(db, env, q) == Top(By(db, order), n, Flatten(EvalQueries(db, inner, queries)))
  {
    EvalOneNamed(db, env, Named(RecordQuery(lastId, Expressions(order), table), "last"));
    EvalUnionAll(db, env, q, queries);
  }

  lemma MixedBackwardsMeaning(
    db: Database, env: Environment, table: string, filters: seq<Expression>, sorts: seq<SortBy>, last: Row, n: nat)
    requires Setting(db, env, table, filters, sorts) && last in env[table]
    requires Directed(sorts) && DistinctColumns(WithId(sorts, Asc))
    ensures var order := WithId(sorts, Asc);
      EvalQuery(db, env, MixedBackwards(SearchQuery(table, filters, sorts), Id(last), n, table))
      == PreviousPage(db, order, last, n, Sort(By(db, order), Selected(db, env, table, filters)))
  {
    var order := WithId(sorts, Asc);
    var reversed := ReversedAll(order);
    var selected := Selected(db, env, table, filters);
    BindsRow(db, env, table, order, last);
    MixedBackwardsSteps(db, env, table, filters, sorts, Id(last), WithLast(db, env, order, last), n);
    ReversedOrder(db, sorts, env[table]);
    ReversedWithLast(db, env, order, last);
    UnitedBranches(db, env, table, filters, sorts, reversed, last, n);
    ReversedNextPage(db, sorts, env[table], selected, last, n);
  }

  /** A union of queries sorted by `reversed` and limited, then sorted by `order` and limited again. */
  lemma EvalResortedUnion(
    db: Database, env: Environment, q: Query, page: Query, order: seq<SortBy>, reversed: seq<SortBy>, lastId: Value,
    inner: Environment, table: string, queries: seq<Query>, n: nat)
    requires Resorting(q, order, lastId, table, page, n) && Binds(db, env, table, lastId, order, inner)
    requires page.commonTableExpressions == [] && page.unions == Some(Union(queries, All))
    requires page.sortbyList == reversed && page.limitValue == Some(n) && page.offsetValue == None
    ensures EvalQuery(db, env, q)
         == Top(By(db, order), n, Top(By(db, reversed), n,
                Flatten(EvalQueries(db, inner, queries))))
  {
    EvalResorting(db, env, q, order, lastId, inner, table, page, n);
    EvalUnionAll(db, inner, page, queries);
  }

  lemma MixedBackwardsSteps(
    db: Database, env: Environment, table: string, filters: seq<Expression>, sorts: seq<SortBy>, lastId: Value,
    inner: Environment, n: nat)
    requires Binds(db, env, table, lastId, WithId(sorts, Asc), inner)
    ensures var order := WithId(sorts, Asc);
      EvalQuery(db, env, MixedBackwards(SearchQuery(table, filters, sorts), lastId, n, table))
      == Top(By(db, order), n, Top(By(db, ReversedAll(order)), n,
             Flatten(EvalQueries(db, inner,
                                 Branches(SearchQuery(table, filters, sorts), ReversedAll(order), n)))))
  {
    var order := WithId(sorts, Asc);
    var queries := Branches(SearchQuery(table, filters, sorts), ReversedAll(order), n);
    MixedBackwardsShape(table, filters, sorts, lastId, n);
    EvalResortedUnion(db, env, MixedBackwards(SearchQuery(table, filters, sorts), lastId, n, table),
                      UnionOf(queries, All).OrderBy(ReversedAll(order)).Limit(n),
                      order, ReversedAll(order), lastId, inner, table, queries, n);
  }

  lemma ReversedWithLast(db: Database, env: Environment, order: seq<SortBy>, last: Row)
    ensures WithLast(db, env, ReversedAll(order), last) == WithLast(db, env, order, last)
  {
    assert Expressions(ReversedAll(order)) == Expressions(order);
  }

  lemma MixedBackwardsShape(
      table: string, filters: seq<Expression>, sorts: seq<SortBy>, lastId: Value, n: nat)
    ensures var order := WithId(sorts, Asc);
      var queries := Branches(SearchQuery(table, filters, sorts), ReversedAll(order), n);
      Resorting(MixedBackwards(SearchQuery(table, filters, sorts), lastId, n, table), order, lastId, table,
                UnionOf(queries, All).OrderBy(ReversedAll(order)).Limit(n), n)
  {
    SearchQueryShape(table, filters, sorts);
    SelectAllTarget(EMPTY_QUERY);
  }

  lemma ReversedOrder(db: Database, sorts: seq<SortBy>, rows: seq<Row>)
    requires Directed(sorts) && DistinctColumns(WithId(sorts, Asc)) && Complete(db, sorts, rows)
    ensures var reversed := ReversedAll(WithId(sorts, Asc));
      Directed(reversed) && DistinctColumns(reversed) && Complete(db, reversed, rows)
      && Opposite(WithId(sorts, Asc), reversed)
  {
  }

  lemma ReversedDiscriminates(db: Database, sorts: seq<SortBy>, rows: seq<Row>, selected: seq<Row>)
    requires IdsIdentify(rows) && (forall row :: row in selected ==> row in rows)
    requires Directed(sorts)
    ensures Discriminates(By(db, ReversedAll(WithId(sorts, Asc))), selected)
  {
    var order := WithId(sorts, Asc);
    DirectedWithId(sorts, Asc);
    OrderDiscriminates(db, sorts, Asc, rows, selected);
    forall a, b | a in selected && b in selected && Tied(By(db, ReversedAll(order)), a, b) ensures a == b {
      ReversedPrecedes(db, order, ReversedAll(order), a, b);
      ReversedPrecedes(db, order, ReversedAll(order), b, a);
      assert Tied(By(db, order), a, b);
    }
  }

  /** The next page in the reversed order, ranked again, is the previous page. */
  lemma ReversedNextPage(
      db: Database, sorts: seq<SortBy>, rows: seq<Row>, selected: seq<Row>, last: Row, n: nat)
    requires IdsIdentify(rows) && (forall row :: row in selected ==> row in rows)
    requires Opposite(WithId(sorts, Asc), ReversedAll(WithId(sorts, Asc)))
    ensures var order := WithId(sorts, Asc);
      var reversed := ReversedAll(order);
      Top(By(db, order), n, NextPage(db, reversed, last, n, Sort(By(db, reversed), selected)))
      == PreviousPage(db, order, last, n, Sort(By(db, order), selected))
  {
    var order := WithId(sorts, Asc);
    var reversed := ReversedAll(order);
    var before := BeforeRow(db, order, last);
    forall row ensures AfterRow(db, reversed, last)(row) == before(row) {
      ReversedPrecedes(db, order, reversed, last, row);
    }
    ByWeakOrder(db, order);
    ByWeakOrder(db, reversed);
    FilterSort(By(db, reversed), AfterRow(db, reversed, last), selected);
    FilterExtensional(AfterRow(db, reversed, last), before, selected);
    ResortedPage(db, sorts, Asc, reversed, rows, Filter(before, selected), n);
    FilterSort(By(db, order), before, selected);
  }
}
