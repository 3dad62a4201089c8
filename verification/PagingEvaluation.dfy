/** What the evaluator makes of the building blocks the paging statements are put together from. */
module PagingEvaluation {
  import opened Prelude
  import opened Ordering
  import opened Values
  import opened SqlQuery
  import opened Evaluation
  import opened KeySetPaging

  /** A star select from one table, possibly filtered, sorted and limited. */
  ghost predicate PlainSelect(q: Query, table: string) {
    && q.commonTableExpressions == [] && q.unions == None && q.fromSubqueries == []
    && q.fromTables == [table] && q.selectTargetList == [ResultTarget(Star(None, None), None)]
  }

  lemma SelectAllTarget(q: Query)
    ensures q.SelectAll() == q.(selectTargetList := q.selectTargetList + [ResultTarget(Star(None, None), None)])
  {
  }

  lemma ProductOfOne(rows: seq<Row>)
    ensures Product([rows]) == rows
  {
    assert [rows][1..] == [];
    assert Product([]) == [[]];
    var beside := (row: Row) => Map((rest: Row) => row + rest, Product([rows][1..]));
    assert forall row: Row :: beside(row) == [row] by {
      forall row: Row ensures beside(row) == [row] {
        assert row + [] == row;
      }
    }
    FlattenSingletons(beside, rows);
  }

  lemma {:induction false} FlattenSingletons(f: Row -> seq<Row>, rows: seq<Row>)
    requires forall row :: f(row) == [row]
    ensures Flatten(Map(f, rows)) == rows
  {
    if rows != [] {
      assert Map(f, rows)[1..] == Map(f, rows[1..]);
      FlattenSingletons(f, rows[1..]);
    }
  }

  lemma ProjectStar(db: Database, rows: seq<Row>)
    ensures Map((row: Row) => Project(db, [ResultTarget(Star(None, None), None)], row), rows) == rows
  {
    forall row: Row ensures Project(db, [ResultTarget(Star(None, None), None)], row) == row {
      assert row + [] == row;
    }
  }

  lemma EvalFrom(db: Database, outer: Environment, q: Query, rows: seq<Row>)
    requires q.unions == None && q.selectTargetList == [ResultTarget(Star(None, None), None)]
    requires var env := EvalNamed(db, outer, q.commonTableExpressions);
             TablesNamed(env, q.fromTables) + EvalSubqueries(db, env, q.fromSubqueries) == [rows]
    ensures var env := EvalNamed(db, outer, q.commonTableExpressions);
            EvalQuery(db, outer, q) == Arrange(db, q, Filter(Matching(db, env, q.whereConditions), rows))
  {
    var env := EvalNamed(db, outer, q.commonTableExpressions);
    ProductOfOne(rows);
    ProjectStar(db, Arrange(db, q, Filter(Matching(db, env, q.whereConditions), rows)));
  }

  lemma EvalPlain(db: Database, env: Environment, q: Query, table: string)
    requires PlainSelect(q, table) && table in env
    ensures EvalQuery(db, env, q) == Arrange(db, q, Filter(Matching(db, env, q.whereConditions), env[table]))
  {
    assert TablesNamed(env, [table]) == [env[table]];
    assert TablesNamed(env, q.fromTables) + EvalSubqueries(db, env, q.fromSubqueries) == [env[table]];
    EvalFrom(db, env, q, env[table]);
  }

  /** A plain select carrying one common table expression. */
  lemma EvalPlainWith(db: Database, env: Environment, q: Query, named: Named, table: string)
    requires PlainSelect(q.(commonTableExpressions := []), table) && q.commonTableExpressions == [named]
    requires table in env && table != named.name
    ensures var inner := env[named.name := EvalQuery(db, env, named.query)];
            EvalQuery(db, env, q) == Arrange(db, q, Filter(Matching(db, inner, q.whereConditions), env[table]))
  {
    var inner := env[named.name := EvalQuery(db, env, named.query)];
    EvalOneNamed(db, env, named);
    assert TablesNamed(inner, [table]) == [env[table]];
    assert TablesNamed(inner, q.fromTables) + EvalSubqueries(db, inner, q.fromSubqueries) == [env[table]];
    EvalFrom(db, env, q, env[table]);
  }

  lemma EvalOneNamed(db: Database, env: Environment, named: Named)
    ensures EvalNamed(db, env, [named]) == env[named.name := EvalQuery(db, env, named.query)]
  {
  }

  /** Re-sorting and limiting the rows of a subquery. */
  lemma EvalResort(db: Database, env: Environment, q: Query, page: Named)
    requires q.unions == None && q.selectTargetList == [ResultTarget(Star(None, None), None)]
    requires q.fromTables == [] && q.fromSubqueries == [page] && q.whereConditions == []
    ensures var inner := EvalNamed(db, env, q.commonTableExpressions);
            EvalQuery(db, env, q) == Arrange(db, q, EvalQuery(db, inner, page.query))
  {
    var inner := EvalNamed(db, env, q.commonTableExpressions);
    var rows := EvalQuery(db, inner, page.query);
    assert EvalSubqueries(db, inner, [page]) == [rows] by {
      assert [page][1..] == [];
    }
    EvalFrom(db, env, q, rows);
    FilterAll(Matching(db, inner, []), rows);
  }

  lemma EvalUnionAll(db: Database, outer: Environment, q: Query, queries: seq<Query>)
    requires q.unions == Some(Union(queries, All))
    ensures var env := EvalNamed(db, outer, q.commonTableExpressions);
            EvalQuery(db, outer, q) == Arrange(db, q, Flatten(EvalQueries(db, env, queries)))
  {
  }

  /** Conditions hold together when each part does. */
  lemma {:induction false} HoldAllConcat(
    db: Database, env: Environment, a: seq<Expression>, b: seq<Expression>, row: Row)
    ensures HoldAll(db, env, a + b, row) <==> HoldAll(db, env, a, row) && HoldAll(db, env, b, row)
  {
    if a == [] {
      assert a + b == b;
    } else {
      assert (a + b)[1..] == a[1..] + b;
      HoldAllConcat(db, env, a[1..], b, row);
    }
  }

  lemma {:induction false} HoldAllEach(db: Database, env: Environment, conditions: seq<Expression>, row: Row)
    ensures HoldAll(db, env, conditions, row) <==>
            forall i :: 0 <= i < |conditions| ==> Holds(db, env, conditions[i], row)
  {
    if conditions != [] {
      HoldAllEach(db, env, conditions[1..], row);
      assert forall i :: 0 <= i < |conditions| - 1 ==> conditions[1..][i] == conditions[i + 1];
      assert forall i :: 0 < i < |conditions| ==> conditions[i] == conditions[1..][i - 1];
    }
  }

  predicate SelfContained(condition: Expression) {
    condition.Condition? ==>
      (condition.left.Some? ==> !condition.left.value.Subquery?) &&
      (condition.right.Some? ==> !condition.right.value.Subquery?)
  }

  ghost predicate AllSelfContained(conditions: seq<Expression>) {
    forall i :: 0 <= i < |conditions| ==> SelfContained(conditions[i])
  }

  /** Conditions without subqueries do not see the common table expressions. */
  lemma {:induction false} SelfContainedHoldAll(
    db: Database, env: Environment, env': Environment, conditions: seq<Expression>, row: Row)
    requires AllSelfContained(conditions)
    ensures HoldAll(db, env, conditions, row) == HoldAll(db, env', conditions, row)
  {
    if conditions != [] {
      assert SelfContained(conditions[0]);
      assert Holds(db, env, conditions[0], row) == Holds(db, env', conditions[0], row);
      SelfContainedHoldAll(db, env, env', conditions[1..], row);
    }
  }

  // The `last` common table expression.

  predicate HasId(id: Value, row: Row) {
    id != Null && Id(row) == id
  }

  function WithRowId(id: Value): Row -> bool {
    (row: Row) => HasId(id, row)
  }

  ghost predicate IdsIdentify(rows: seq<Row>) {
    forall a, b :: a in rows && b in rows && Id(a) == Id(b) ==> a == b
  }

  function LastTargets(columns: seq<Expression>): (r: seq<ResultTarget>)
    ensures |r| == |columns|
  {
    Map((e: Expression) => ResultTarget(e, None), columns)
  }

  /** The record query yields the projection of the row with that id, if there is one. */
  lemma EvalRecord(
      db: Database, env: Environment, id: Value, columns: seq<Expression>, table: string)
    requires table in env && IdsIdentify(env[table])
    ensures var rows := EvalQuery(db, env, RecordQuery(id, columns, table));
            && (forall last :: last in env[table] && HasId(id, last) ==>
                  rows == [Project(db, LastTargets(columns), last)])
            && ((forall row :: row in env[table] ==> !HasId(id, row)) ==> rows == [])
  {
    EvalRecordSteps(db, env, RecordQuery(id, columns, table), id, columns, table);
    FirstWithId(id, env[table]);
    if forall row :: row in env[table] ==> !HasId(id, row) {
      assert Take(1, Filter(WithRowId(id), env[table])) == [];
    }
  }

  lemma FirstWithId(id: Value, rows: seq<Row>)
    requires IdsIdentify(rows)
    ensures forall row :: row in rows && HasId(id, row) ==> Take(1, Filter(WithRowId(id), rows)) == [row]
    ensures (forall row :: row in rows ==> !HasId(id, row)) ==> Filter(WithRowId(id), rows) == []
  {
    var found := Filter(WithRowId(id), rows);
    forall row | row in rows && HasId(id, row) ensures Take(1, found) == [row] {
      assert row in found && found[0] in found;
    }
    if forall row :: row in rows ==> !HasId(id, row) {
      FilterNone(WithRowId(id), rows);
    }
  }

  lemma EvalRecordSteps(
    db: Database, env: Environment, q: Query, id: Value, columns: seq<Expression>, table: string)
    requires q == RecordQuery(id, columns, table) && table in env
    ensures EvalQuery(db, env, q)
         == Map((row: Row) => Project(db, LastTargets(columns), row),
                Take(1, Filter(WithRowId(id), env[table])))
  {
    var condition := Comparison(Single(ID), Equals, Single(Constant(id)));
    var matching := Matching(db, env, [condition]);
    assert q.selectTargetList == LastTargets(columns) && q.whereConditions == [condition];
    assert TablesNamed(env, [table]) == [env[table]];
    assert TablesNamed(env, q.fromTables) + EvalSubqueries(db, env, q.fromSubqueries) == [env[table]];
    ProductOfOne(env[table]);
    IdCondition(db, env, id);
    FilterExtensional(matching, WithRowId(id), env[table]);
    SortOfSorted(By(db, []), Filter(matching, env[table]));
  }

  lemma IdCondition(db: Database, env: Environment, id: Value)
    ensures forall row ::
      Matching(db, env, [Comparison(Single(ID), Equals, Single(Constant(id)))])(row) == HasId(id, row)
  {
    var condition := Comparison(Single(ID), Equals, Single(Constant(id)));
    forall row ensures Matching(db, env, [condition])(row) == HasId(id, row) {
      HoldAllEach(db, env, [condition], row);
      assert Holds(db, env, condition, row) == RowEquals([Id(row)], [id]);
    }
  }

  lemma {:induction false} ProjectContents(db: Database, columns: seq<Expression>, row: Row)
    requires forall i :: 0 <= i < |columns| ==> columns[i] != Star(None, None)
    ensures Contents(Project(db, LastTargets(columns), row)) == EvalAll(db, columns, row)
  {
    if columns != [] {
      assert LastTargets(columns)[1..] == LastTargets(columns[1..]);
      assert columns[0] != Star(None, None);
      ProjectContents(db, columns[1..], row);
    }
  }

  predicate PlainColumn(e: Expression) {
    e.ColumnReference? && e.schema == None && e.table == None
  }

  ghost predicate AllColumns(es: seq<Expression>) {
    forall i :: 0 <= i < |es| ==> PlainColumn(es[i])
  }

  lemma {:induction false} ProjectLookup(db: Database, columns: seq<Expression>, row: Row, i: nat)
    requires AllColumns(columns) && i < |columns|
    ensures Lookup(Project(db, LastTargets(columns), row), columns[i].field) == EvalExpression(db, columns[i], row)
  {
    assert LastTargets(columns)[1..] == LastTargets(columns[1..]);
    assert PlainColumn(columns[0]) && PlainColumn(columns[i]);
    if columns[0].field != columns[i].field {
      ProjectLookup(db, columns[1..], row, i - 1);
    }
  }

  /** `SELECT * FROM last`: all of the columns `last` was selected with. */
  lemma EvalAllOfLast(db: Database, env: Environment, columns: seq<Expression>, row: Row)
    requires forall i :: 0 <= i < |columns| ==> columns[i] != Star(None, None)
    requires "last" in env && env["last"] == [Project(db, LastTargets(columns), row)]
    ensures forall other ::
      OperandValues(db, env, Subquery(EMPTY_QUERY.SelectAll().FromTable("last")), other)
      == Some(EvalAll(db, columns, row))
  {
    EvalLastRows(db, env);
    ProjectContents(db, columns, row);
  }

  lemma EvalLastRows(db: Database, env: Environment)
    requires "last" in env
    ensures |env["last"]| <= 1 ==> EvalQuery(db, env, EMPTY_QUERY.SelectAll().FromTable("last")) == env["last"]
  {
    var q := EMPTY_QUERY.SelectAll().FromTable("last");
    SelectAllTarget(EMPTY_QUERY);
    EvalPlain(db, env, q, "last");
    FilterAll(Matching(db, env, []), env["last"]);
    if |env["last"]| <= 1 {
      SortOfSorted(By(db, []), env["last"]);
    }
  }

  /** `SELECT column FROM last`. */
  lemma {:induction false} EvalColumnOfLast(db: Database, env: Environment, columns: seq<Expression>, row: Row, i: nat)
    requires AllColumns(columns) && i < |columns|
    requires "last" in env && env["last"] == [Project(db, LastTargets(columns), row)]
    ensures forall other ::
      OperandValues(db, env, Subquery(EMPTY_QUERY.Select([columns[i]]).FromTable("last")), other)
      == Some([EvalExpression(db, columns[i], row)])
  {
    var q := EMPTY_QUERY.Select([columns[i]]).FromTable("last");
    var target := ResultTarget(columns[i], None);
    assert q.selectTargetList == [target];
    EvalColumnRows(db, env, q, target);
    assert PlainColumn(columns[i]);
    ProjectLookup(db, columns, row, i);
    assert [target][1..] == [];
    var cell := Cell(columns[i].field, Lookup(env["last"][0], columns[i].field));
    assert Project(db, [target], env["last"][0]) == [cell];
    assert Contents([cell]) == [cell.value];
  }

  lemma EvalColumnRows(db: Database, env: Environment, q: Query, target: ResultTarget)
    requires q == EMPTY_QUERY.Select([target.expression]).FromTable("last") && q.selectTargetList == [target]
    requires "last" in env && |env["last"]| <= 1
    ensures EvalQuery(db, env, q) == Map((row: Row) => Project(db, [target], row), env["last"])
  {
    assert TablesNamed(env, ["last"]) == [env["last"]];
    assert TablesNamed(env, q.fromTables) + EvalSubqueries(db, env, q.fromSubqueries) == [env["last"]];
    ProductOfOne(env["last"]);
    FilterAll(Matching(db, env, []), env["last"]);
    SortOfSorted(By(db, []), env["last"]);
  }
}
