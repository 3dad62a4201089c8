/**
 What a query tree means to the database: a small relational evaluator covering the
 statements the converters emit. ORDER BY resolves ties in input order; every law about the
 paging shapes is stated for orders without ties, where no choice is left.
 */
module Evaluation {
  import opened Prelude
  import opened Ordering
  import opened Values
  import opened SqlQuery

  datatype Cell = Cell(name: string, value: Value)

  type Row = seq<Cell>

  type Environment = map<string, seq<Row>>

  /**
   The parts of the database the laws do not depend on: how an expression other than a plain
   column or a constant is computed from a row, and what the operators other than `=`, `<`
   and `>` test.
   */
  datatype Database = Database(
    compute: (Expression, Row) -> Value,
    test: (Operator, seq<Value>, seq<Value>) -> bool)

  function Lookup(row: Row, field: string): Value {
    if row == [] then Null
    else if row[0].name == field then row[0].value
    else Lookup(row[1..], field)
  }

  function Id(row: Row): Value {
    Lookup(row, "id")
  }

  function EvalExpression(db: Database, e: Expression, row: Row): Value {
    match e
    case ColumnReference(None, None, field) => Lookup(row, field)
    case Constant(value) => value
    case _ => db.compute(e, row)
  }

  function EvalAll(db: Database, es: seq<Expression>, row: Row): (r: seq<Value>)
    ensures |r| == |es|
    ensures forall i :: 0 <= i < |es| ==> r[i] == EvalExpression(db, es[i], row)
  {
    if es == [] then [] else [EvalExpression(db, es[0], row)] + EvalAll(db, es[1..], row)
  }

  // Comparison predicates (ISO/IEC 9075-2, section 8.2): NULL makes the result unknown, and a
  // WHERE clause treats unknown as false.

  predicate RowEquals(a: seq<Value>, b: seq<Value>) {
    a == b && Null !in a
  }

  /** `a < b` on rows of equal degree: decided by the first pair that differs. */
  predicate RowBelow(a: seq<Value>, b: seq<Value>) {
    if a == [] || b == [] || a[0] == Null || b[0] == Null then false
    else if a[0] == b[0] then RowBelow(a[1..], b[1..])
    else Below(a[0], b[0])
  }

  predicate Compare(db: Database, operator: Operator, left: seq<Value>, right: seq<Value>) {
    match operator
    case Equals => RowEquals(left, right)
    case LessThan => RowBelow(left, right)
    case GreaterThan => RowBelow(right, left)
    case _ => db.test(operator, left, right)
  }

  // ORDER BY.

  /** `a` sorts strictly before `b`. */
  predicate Precedes(db: Database, sorts: seq<SortBy>, a: Row, b: Row) {
    if sorts == [] then false
    else
      var x, y := EvalExpression(db, sorts[0].expression, a), EvalExpression(db, sorts[0].expression, b);
      if x == y then Precedes(db, sorts[1..], a, b)
      else if sorts[0].IsDescending() then Below(y, x)
      else Below(x, y)
  }

  function By(db: Database, sorts: seq<SortBy>): (Row, Row) -> bool {
    (a: Row, b: Row) => Precedes(db, sorts, a, b)
  }

  lemma {:induction false} PrecedesIrreflexive(db: Database, sorts: seq<SortBy>, a: Row)
    ensures !Precedes(db, sorts, a, a)
  {
    if sorts != [] {
      PrecedesIrreflexive(db, sorts[1..], a);
    }
  }

  lemma {:induction false} PrecedesTransitive(db: Database, sorts: seq<SortBy>, a: Row, b: Row, c: Row)
    requires Precedes(db, sorts, a, b) && Precedes(db, sorts, b, c)
    ensures Precedes(db, sorts, a, c)
  {
    var e := sorts[0].expression;
    var x, y, z := EvalExpression(db, e, a), EvalExpression(db, e, b), EvalExpression(db, e, c);
    if x == y && y == z {
      PrecedesTransitive(db, sorts[1..], a, b, c);
    } else if x != y && y != z {
      if sorts[0].IsDescending() {
        BelowTransitive(z, y, x);
      } else {
        BelowTransitive(x, y, z);
      }
      BelowTotal(x, z);
    }
  }

  lemma {:induction false} PrecedesCotransitive(db: Database, sorts: seq<SortBy>, a: Row, b: Row, c: Row)
    requires Precedes(db, sorts, a, c)
    ensures Precedes(db, sorts, a, b) || Precedes(db, sorts, b, c)
  {
    var e := sorts[0].expression;
    var x, y, z := EvalExpression(db, e, a), EvalExpression(db, e, b), EvalExpression(db, e, c);
    if x == y && y == z {
      PrecedesCotransitive(db, sorts[1..], a, b, c);
    } else if x != y && y != z {
      BelowTotal(x, y);
      BelowTotal(y, z);
      if sorts[0].IsDescending() {
        if Below(x, y) && Below(y, z) {
          BelowTransitive(x, y, z);
          BelowAsymmetric(x, z);
        }
      } else if Below(y, x) && Below(z, y) {
        BelowTransitive(z, y, x);
        BelowAsymmetric(z, x);
      }
    }
  }

  lemma BelowAsymmetric(x: Value, y: Value)
    requires Below(x, y)
    ensures !Below(y, x) && x != y
  {
    BelowTotal(x, y);
    if Below(y, x) {
      BelowTransitive(x, y, x);
    }
  }

  lemma ByWeakOrder(db: Database, sorts: seq<SortBy>)
    ensures WeakOrder(By(db, sorts))
  {
    var lt := By(db, sorts);
    forall a ensures !lt(a, a) {
      PrecedesIrreflexive(db, sorts, a);
    }
    forall a, b, c | lt(a, b) && lt(b, c) ensures lt(a, c) {
      PrecedesTransitive(db, sorts, a, b, c);
    }
    forall a, b, c | lt(a, c) ensures lt(a, b) || lt(b, c) {
      PrecedesCotransitive(db, sorts, a, b, c);
    }
  }

  /** Rows tie exactly when they agree on every sort expression. */
  lemma {:induction false} TiedByKeys(db: Database, sorts: seq<SortBy>, a: Row, b: Row)
    ensures Tied(By(db, sorts), a, b) <==>
            forall i :: 0 <= i < |sorts| ==>
              EvalExpression(db, sorts[i].expression, a) == EvalExpression(db, sorts[i].expression, b)
  {
    if sorts != [] {
      var e := sorts[0].expression;
      var x, y := EvalExpression(db, e, a), EvalExpression(db, e, b);
      if x == y {
        TiedByKeys(db, sorts[1..], a, b);
        assert forall i :: 0 <= i < |sorts[1..]| ==> sorts[1..][i] == sorts[i + 1];
        assert forall i :: 0 < i < |sorts| ==> sorts[i] == sorts[1..][i - 1];
      } else {
        BelowTotal(x, y);
      }
    }
  }

  // Queries.

  function TargetName(target: ResultTarget): string {
    match target.alias
    case Some(alias) => alias
    case None =>
      match target.expression
      case ColumnReference(_, _, field) => field
      case FunctionApplication(name, _) => name
      case _ => "?column?"
  }

  function Project(db: Database, targets: seq<ResultTarget>, row: Row): Row {
    if targets == [] then []
    else
      (if targets[0].expression == Star(None, None) then row
       else [Cell(TargetName(targets[0]), EvalExpression(db, targets[0].expression, row))])
      + Project(db, targets[1..], row)
  }

  function Contents(row: Row): (r: seq<Value>)
    ensures |r| == |row|
  {
    if row == [] then [] else [row[0].value] + Contents(row[1..])
  }

  /** All ways of putting one row of each relation side by side. */
  function Product(relations: seq<seq<Row>>): seq<Row> {
    if relations == [] then [[]]
    else Flatten(Map((row: Row) => Map((rest: Row) => row + rest, Product(relations[1..])), relations[0]))
  }

  function Deduplicate(rows: seq<Row>): seq<Row>
    decreases |rows|
  {
    if rows == [] then []
    else [rows[0]] + Deduplicate(Filter((row: Row) => row != rows[0], rows[1..]))
  }

  function TablesNamed(env: Environment, names: seq<string>): seq<seq<Row>> {
    if names == [] then []
    else [if names[0] in env then env[names[0]] else []] + TablesNamed(env, names[1..])
  }

  /** ORDER BY, OFFSET and LIMIT, in the order SQL applies them. */
  function Arrange(db: Database, q: Query, rows: seq<Row>): seq<Row> {
    var sorted := Sort(By(db, q.sortbyList), rows);
    var shifted := if q.offsetValue.Some? then Skip(q.offsetValue.value, sorted) else sorted;
    if q.limitValue.Some? then Take(q.limitValue.value, shifted) else shifted
  }

  function EvalQuery(db: Database, outer: Environment, q: Query): seq<Row>
    decreases q
  {
    var env := EvalNamed(db, outer, q.commonTableExpressions);
    match q.unions
    case Some(Union(queries, mode)) =>
      var rows := Flatten(EvalQueries(db, env, queries));
      Arrange(db, q, if mode == Distinct then Deduplicate(rows) else rows)
    case None =>
      var sources := TablesNamed(env, q.fromTables) + EvalSubqueries(db, env, q.fromSubqueries);
      var rows := Filter(Matching(db, env, q.whereConditions), Product(sources));
      Map((row: Row) => Project(db, q.selectTargetList, row), Arrange(db, q, rows))
  }

  function EvalNamed(db: Database, env: Environment, named: seq<Named>): Environment
    decreases named
  {
    if named == [] then env
    else EvalNamed(db, env[named[0].name := EvalQuery(db, env, named[0].query)], named[1..])
  }

  function EvalSubqueries(db: Database, env: Environment, named: seq<Named>): seq<seq<Row>>
    decreases named
  {
    if named == [] then []
    else [EvalQuery(db, env, named[0].query)] + EvalSubqueries(db, env, named[1..])
  }

  function EvalQueries(db: Database, env: Environment, queries: seq<Query>): (r: seq<seq<Row>>)
    ensures |r| == |queries|
    ensures forall i :: 0 <= i < |queries| ==> r[i] == EvalQuery(db, env, queries[i])
    decreases queries
  {
    if queries == [] then []
    else [EvalQuery(db, env, queries[0])] + EvalQueries(db, env, queries[1..])
  }

  function Matching(db: Database, env: Environment, conditions: seq<Expression>): Row -> bool
    decreases conditions, 1
  {
    (row: Row) => HoldAll(db, env, conditions, row)
  }

  predicate HoldAll(db: Database, env: Environment, conditions: seq<Expression>, row: Row)
    decreases conditions, 0
  {
    conditions == [] || (Holds(db, env, conditions[0], row) && HoldAll(db, env, conditions[1..], row))
  }

  predicate Holds(db: Database, env: Environment, condition: Expression, row: Row)
    decreases condition
  {
    match condition
    case Condition(Some(left), Some(operator), Some(right)) =>
      var l, r := OperandValues(db, env, left, row), OperandValues(db, env, right, row);
      l.Some? && r.Some? && Compare(db, operator, l.value, r.value)
    case _ => false
  }

  /** The values an operand stands for; a subquery without rows stands for none. */
  function OperandValues(db: Database, env: Environment, operand: Operand, row: Row): Option<seq<Value>>
    decreases operand
  {
    match operand
    case Single(e) => Some([EvalExpression(db, e, row)])
    case Several(es) => Some(EvalAll(db, es, row))
    case Subquery(q) =>
      var rows := EvalQuery(db, env, q);
      if rows == [] then None else Some(Contents(rows[0]))
  }
}
