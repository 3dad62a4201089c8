/**
 Mixed sort directions: the UNION ALL of one branch per prefix of equal sort expressions
 selects exactly the rows beyond the last one, each once, and taking the first n of every
 branch before uniting them loses none of the first n of the whole.
 */
module MixedPaging {
  import opened Prelude
  import opened Ordering
  import opened Values
  import opened SqlQuery
  import opened Evaluation
  import opened KeySetPaging
  import opened PagingEvaluation
  import opened PagingRefinement

  /** The rows of branch `i`: equal to `last` on the first `i` sorts, beyond it on the next. */
  function InBranch(db: Database, order: seq<SortBy>, i: nat, last: Row): Row -> bool
    requires i < |order|
  {
    (row: Row) =>
      (forall j :: 0 <= j < i ==>
        EvalExpression(db, order[j].expression, row) == EvalExpression(db, order[j].expression, last))
      && Precedes(db, [order[i]], last, row)
  }

  /** The rows in branch `m` or any later one. */
  function InBranchesFrom(db: Database, order: seq<SortBy>, m: nat, last: Row): Row -> bool
    requires m <= |order|
  {
    (row: Row) =>
      (forall j :: 0 <= j < m ==>
        EvalExpression(db, order[j].expression, row) == EvalExpression(db, order[j].expression, last))
      && Precedes(db, order[m..], last, row)
  }

  lemma BranchesSplit(db: Database, order: seq<SortBy>, m: nat, last: Row, row: Row)
    requires m < |order|
    ensures InBranchesFrom(db, order, m, last)(row)
        <==> InBranch(db, order, m, last)(row) || InBranchesFrom(db, order, m + 1, last)(row)
    ensures !(InBranch(db, order, m, last)(row) && InBranchesFrom(db, order, m + 1, last)(row))
  {
    assert order[m..][0] == order[m] && order[m..][1..] == order[m + 1..];
    assert [order[m]][1..] == [];
    var e := order[m].expression;
    if EvalExpression(db, e, row) == EvalExpression(db, e, last) {
      assert !Precedes(db, [order[m]], last, row);
    } else {
      assert !InBranchesFrom(db, order, m + 1, last)(row);
    }
  }

  function BranchPart(db: Database, order: seq<SortBy>, last: Row, i: nat, rows: seq<Row>): seq<Row>
    requires i < |order|
  {
    Filter(InBranch(db, order, i, last), rows)
  }

  function BranchRows(db: Database, order: seq<SortBy>, last: Row, m: nat, rows: seq<Row>): (r: seq<seq<Row>>)
    requires m <= |order|
    ensures |r| == |order| - m
    ensures forall i :: 0 <= i < |r| ==> r[i] == BranchPart(db, order, last, m + i, rows)
    decreases |order| - m
  {
    if m == |order| then []
    else [BranchPart(db, order, last, m, rows)] + BranchRows(db, order, last, m + 1, rows)
  }

  /** The branches partition the rows after the last one. */
  lemma {:induction false} BranchesPartition(db: Database, order: seq<SortBy>, last: Row, m: nat, rows: seq<Row>)
    requires m <= |order|
    ensures multiset(Flatten(BranchRows(db, order, last, m, rows)))
         == multiset(Filter(InBranchesFrom(db, order, m, last), rows))
    decreases |order| - m
  {
    if m == |order| {
      FilterNone(InBranchesFrom(db, order, m, last), rows);
    } else {
      BranchesPartition(db, order, last, m + 1, rows);
      forall row ensures
        && (InBranchesFrom(db, order, m, last)(row)
            <==> InBranch(db, order, m, last)(row) || InBranchesFrom(db, order, m + 1, last)(row))
        && !(InBranch(db, order, m, last)(row) && InBranchesFrom(db, order, m + 1, last)(row))
      {
        BranchesSplit(db, order, m, last, row);
      }
      FilterSplit(InBranch(db, order, m, last), InBranchesFrom(db, order, m + 1, last),
                  InBranchesFrom(db, order, m, last), rows);
    }
  }

  // The conditions of a branch say what InBranch says.

  lemma {:induction false} SortOperatorsAt(sorts: seq<SortBy>, i: nat)
    requires i < |sorts|
    requires forall j, k :: 0 <= j < k < |sorts| ==> sorts[j].expression != sorts[k].expression
    ensures OperatorFor(SortOperators(sorts), sorts[i].expression)
         == if sorts[i].direction == Some(Asc) then GreaterThan else LessThan
  {
    if i < |sorts| - 1 {
      SortOperatorsAt(sorts[..|sorts| - 1], i);
    }
  }

  lemma ComparedWithLast(
    db: Database, env: Environment, columns: seq<Expression>, operator: Operator, last: Row, row: Row, i: nat)
    requires AllColumns(columns) && i < |columns|
    requires "last" in env && env["last"] == [Project(db, LastTargets(columns), last)]
    requires EvalExpression(db, columns[i], row) != Null && EvalExpression(db, columns[i], last) != Null
    ensures var condition :=
        Comparison(Single(columns[i]), operator, Subquery(EMPTY_QUERY.Select([columns[i]]).FromTable("last")));
      var x, y := EvalExpression(db, columns[i], row), EvalExpression(db, columns[i], last);
      && (operator == Equals ==> Holds(db, env, condition, row) == (x == y))
      && (operator == GreaterThan ==> Holds(db, env, condition, row) == (x != y && Below(y, x)))
      && (operator == LessThan ==> Holds(db, env, condition, row) == (x != y && Below(x, y)))
  {
    EvalColumnOfLast(db, env, columns, last, i);
    var x, y := EvalExpression(db, columns[i], row), EvalExpression(db, columns[i], last);
    assert RowEquals([x], [y]) == (x == y);
    assert RowBelow([x], [y]) == (x != y && Below(x, y)) by {
      assert [x][1..] == [] && [y][1..] == [];
    }
    assert RowBelow([y], [x]) == (x != y && Below(y, x)) by {
      assert [x][1..] == [] && [y][1..] == [];
    }
  }

  lemma SinglePrecedes(db: Database, sort: SortBy, a: Row, b: Row)
    ensures var x, y := EvalExpression(db, sort.expression, a), EvalExpression(db, sort.expression, b);
      Precedes(db, [sort], a, b) <==> x != y && if sort.IsDescending() then Below(y, x) else Below(x, y)
  {
    assert [sort][1..] == [];
  }

  /** What the j-th condition of branch i asks of a row. */
  predicate BranchStep(db: Database, order: seq<SortBy>, i: nat, j: nat, last: Row, row: Row)
    requires j <= i < |order|
  {
    if j < i then EvalExpression(db, order[j].expression, row) == EvalExpression(db, order[j].expression, last)
    else Precedes(db, [order[i]], last, row)
  }

  lemma BranchConditionMeaning(
    db: Database, env: Environment, order: seq<SortBy>, i: nat, j: nat, last: Row, row: Row)
    requires Directed(order) && DistinctColumns(order) && j <= i < |order|
    requires NonNull(db, order, last) && NonNull(db, order, row)
    ensures var condition := BranchCondition(Expressions(order)[..i + 1], SortOperators(order), j);
      Holds(db, WithLast(db, env, order, last), condition, row) == BranchStep(db, order, i, j, last, row)
  {
    var columns := Expressions(order);
    var operator := BranchOperator(order, i, j);
    BranchConditionShape(order, i, j);
    ComparedWithLast(db, WithLast(db, env, order, last), columns, operator, last, row, j);
    SinglePrecedes(db, order[j], last, row);
  }

  function BranchOperator(order: seq<SortBy>, i: nat, j: nat): Operator
    requires j <= i < |order|
  {
    if j < i then Equals else if order[j].IsDescending() then LessThan else GreaterThan
  }

  lemma {:induction false} BranchConditionShape(order: seq<SortBy>, i: nat, j: nat)
    requires Directed(order) && DistinctColumns(order) && j <= i < |order|
    ensures BranchCondition(Expressions(order)[..i + 1], SortOperators(order), j)
         == Comparison(Single(order[j].expression), BranchOperator(order, i, j),
                       Subquery(EMPTY_QUERY.Select([order[j].expression]).FromTable("last")))
  {
    SortOperatorsAt(order, j);
    assert order[j].direction.value.Asc? || order[j].direction.value.Desc?;
    assert Expressions(order)[..i + 1][j] == order[j].expression;
  }

  lemma BranchConditionsMeaning(
    db: Database, env: Environment, order: seq<SortBy>, i: nat, last: Row, row: Row)
    requires Directed(order) && DistinctColumns(order) && i < |order|
    requires NonNull(db, order, last) && NonNull(db, order, row)
    ensures var conditions := BranchConditions(Expressions(order)[..i + 1], SortOperators(order));
      HoldAll(db, WithLast(db, env, order, last), conditions, row) == InBranch(db, order, i, last)(row)
  {
    var conditions := BranchConditions(Expressions(order)[..i + 1], SortOperators(order));
    forall j | 0 <= j <= i
      ensures Holds(db, WithLast(db, env, order, last), conditions[j], row) == BranchStep(db, order, i, j, last, row)
    {
      BranchConditionMeaning(db, env, order, i, j, last, row);
    }
    HoldAllEach(db, WithLast(db, env, order, last), conditions, row);
    BranchSteps(db, order, i, last, row);
  }

  lemma BranchSteps(db: Database, order: seq<SortBy>, i: nat, last: Row, row: Row)
    requires i < |order|
    ensures InBranch(db, order, i, last)(row) <==> forall j :: 0 <= j <= i ==> BranchStep(db, order, i, j, last, row)
  {
    if forall j :: 0 <= j <= i ==> BranchStep(db, order, i, j, last, row) {
      assert BranchStep(db, order, i, i, last, row);
      forall j | 0 <= j < i
        ensures EvalExpression(db, order[j].expression, row) == EvalExpression(db, order[j].expression, last)
      {
        assert BranchStep(db, order, i, j, last, row);
      }
    }
  }

  /** What the i-th branch of the union yields. */
  lemma EvalBranch(
    db: Database, env: Environment, table: string, filters: seq<Expression>, sorts: seq<SortBy>,
    order: seq<SortBy>, last: Row, n: nat, i: nat)
    requires table in env && table != "last" && AllSelfContained(filters) && last in env[table]
    requires Complete(db, order, env[table]) && Directed(order) && DistinctColumns(order) && i < |order|
    ensures EvalQuery(db, WithLast(db, env, order, last), Branches(SearchQuery(table, filters, sorts), order, n)[i])
         == Top(By(db, order), n, Filter(InBranch(db, order, i, last), Selected(db, env, table, filters)))
  {
    var inner := WithLast(db, env, order, last);
    var conditions := BranchConditions(Expressions(order)[..i + 1], SortOperators(order));
    var q := Branches(SearchQuery(table, filters, sorts), order, n)[i];
    SearchQueryShape(table, filters, sorts);
    assert q.whereConditions == filters + conditions;
    EvalLimited(db, inner, q, table, n);
    forall row | row in env[table]
      ensures Matching(db, inner, filters + conditions)(row)
          <==> InBranch(db, order, i, last)(row) && Matching(db, env, filters)(row)
    {
      FilterConditions(db, env, inner, filters, conditions, row);
      BranchConditionsMeaning(db, env, order, i, last, row);
    }
    FilterTwice(InBranch(db, order, i, last), Matching(db, env, filters),
                Matching(db, inner, filters + conditions), env[table]);
  }

  lemma EvalBranches(
    db: Database, env: Environment, table: string, filters: seq<Expression>, sorts: seq<SortBy>,
    order: seq<SortBy>, last: Row, n: nat)
    requires table in env && table != "last" && AllSelfContained(filters) && last in env[table]
    requires Complete(db, order, env[table]) && Directed(order) && DistinctColumns(order)
    ensures var parts := BranchRows(db, order, last, 0, Selected(db, env, table, filters));
      EvalQueries(db, WithLast(db, env, order, last), Branches(SearchQuery(table, filters, sorts), order, n))
      == TopEach(By(db, order), n, parts)
  {
    forall i | 0 <= i < |order|
      ensures EvalQuery(db, WithLast(db, env, order, last), Branches(SearchQuery(table, filters, sorts), order, n)[i])
           == Top(By(db, order), n, Filter(InBranch(db, order, i, last), Selected(db, env, table, filters)))
    {
      EvalBranch(db, env, table, filters, sorts, order, last, n, i);
    }
  }

  /** The first n of the union of the first n of each branch are the first n after the last row. */
  lemma UnionOfBranches(
    db: Database, selected: seq<Row>, order: seq<SortBy>, last: Row, n: nat)
    requires Discriminates(By(db, order), selected)
    ensures Top(By(db, order), n, Flatten(TopEach(By(db, order), n, BranchRows(db, order, last, 0, selected))))
         == NextPage(db, order, last, n, Sort(By(db, order), selected))
  {
    var lt := By(db, order);
    var after := InBranchesFrom(db, order, 0, last);
    var united := Flatten(BranchRows(db, order, last, 0, selected));
    ByWeakOrder(db, order);
    BranchesPartition(db, order, last, 0, selected);
    MultisetMembership(united, Filter(after, selected));
    TopOfUnion(lt, n, BranchRows(db, order, last, 0, selected));
    SortOfPermutation(lt, united, Filter(after, selected));
    assert order[0..] == order;
    FilterExtensional(after, AfterRow(db, order, last), selected);
    FilterSort(lt, AfterRow(db, order, last), selected);
  }

  // Repeated columns: `last` then outputs two columns under one name, and a database refuses a
  // query that reads that name as ambiguous.

  ghost predicate OutputOnce(name: string, targets: seq<ResultTarget>) {
    exists i :: 0 <= i < |targets| && OnlyAt(name, targets, i)
  }

  ghost predicate OnlyAt(name: string, targets: seq<ResultTarget>, i: nat)
    requires i < |targets|
  {
    forall k :: 0 <= k < |targets| ==> (TargetName(targets[k]) == name <==> k == i)
  }

  /** The condition reads `last`, and every name it reads there is output once. */
  ghost predicate ReadsUnambiguously(record: Query, condition: Expression) {
    && condition.Condition? && condition.right.Some? && condition.right.value.Subquery?
    && var read := condition.right.value.query;
      && read.fromTables == ["last"]
      && forall target :: target in read.selectTargetList ==> OutputOnce(TargetName(target), record.selectTargetList)
  }

  /** All conditions of all branches for `order`, beside the record query that defines `last`. */
  ghost predicate Resolves(record: Query, order: seq<SortBy>) {
    forall i, j :: 0 <= j <= i < |order| ==> ResolvesAt(record, order, i, j)
  }

  ghost predicate ResolvesAt(record: Query, order: seq<SortBy>, i: nat, j: nat)
    requires j <= i < |order|
  {
    ReadsUnambiguously(record, BranchCondition(Expressions(order)[..i + 1], SortOperators(order), j))
  }

  lemma OutputOnceExactly(columns: seq<Expression>, j: nat)
    requires AllColumns(columns) && j < |columns|
    ensures OutputOnce(TargetName(ResultTarget(columns[j], None)), LastTargets(columns))
        <==> forall k :: 0 <= k < |columns| && k != j ==> columns[k] != columns[j]
  {
    var name, targets := TargetName(ResultTarget(columns[j], None)), LastTargets(columns);
    forall k | 0 <= k < |columns| ensures TargetName(targets[k]) == name <==> columns[k] == columns[j] {
      assert PlainColumn(columns[k]) && PlainColumn(columns[j]);
    }
    assert TargetName(targets[j]) == name;
    if forall k :: 0 <= k < |columns| && k != j ==> columns[k] != columns[j] {
      assert OnlyAt(name, targets, j);
    }
  }

  lemma ResolvesColumn(id: Value, table: string, order: seq<SortBy>, i: nat, j: nat)
    requires AllColumns(Expressions(order)) && j <= i < |order|
    ensures ResolvesAt(RecordQuery(id, Expressions(order), table), order, i, j)
        <==> forall k :: 0 <= k < |order| && k != j ==> order[k].expression != order[j].expression
  {
    var columns := Expressions(order);
    BranchReads(order, i, j);
    ReadsColumn(RecordQuery(id, columns, table), columns, j,
                BranchCondition(columns[..i + 1], SortOperators(order), j));
  }

  lemma BranchReads(order: seq<SortBy>, i: nat, j: nat)
    requires j <= i < |order|
    ensures var condition := BranchCondition(Expressions(order)[..i + 1], SortOperators(order), j);
      condition.Condition?
      && condition.right == Some(Subquery(EMPTY_QUERY.Select([Expressions(order)[j]]).FromTable("last")))
  {
    assert Expressions(order)[..i + 1][j] == Expressions(order)[j];
  }

  lemma ReadsColumn(record: Query, columns: seq<Expression>, j: nat, condition: Expression)
    requires AllColumns(columns) && j < |columns| && record.selectTargetList == LastTargets(columns)
    requires condition.Condition?
    requires condition.right == Some(Subquery(EMPTY_QUERY.Select([columns[j]]).FromTable("last")))
    ensures ReadsUnambiguously(record, condition)
        <==> forall k :: 0 <= k < |columns| && k != j ==> columns[k] != columns[j]
  {
    var target := ResultTarget(columns[j], None);
    assert condition.right.value.query.selectTargetList == [target];
    assert target in condition.right.value.query.selectTargetList;
    OutputOnceExactly(columns, j);
  }

  /** Branches over plain columns resolve exactly when no column is repeated. */
  lemma ResolvesExactly(id: Value, table: string, order: seq<SortBy>)
    requires AllColumns(Expressions(order))
    ensures Resolves(RecordQuery(id, Expressions(order), table), order) <==> DistinctColumns(order)
  {
    var record := RecordQuery(id, Expressions(order), table);
    forall i, j | 0 <= j <= i < |order|
      ensures ResolvesAt(record, order, i, j)
          <==> forall k :: 0 <= k < |order| && k != j ==> order[k].expression != order[j].expression
    {
      ResolvesColumn(id, table, order, i, j);
    }
    forall i | 0 <= i < |order| ensures PlainColumn(order[i].expression) {
      assert PlainColumn(Expressions(order)[i]);
    }
    forall j, k | 0 <= j < k < |order| && Resolves(record, order)
      ensures order[j].expression != order[k].expression
    {
      assert ResolvesAt(record, order, j, j);
    }
  }
}
