/**
 The query trees of persistence/postgres/query.py and the clone-style operations that
 build them.
 */
module SqlQuery {
  import opened Prelude
  import opened Values

  datatype SortDirection = Asc | Desc {
    function Reversed(): SortDirection {
      if this == Desc then Asc else Desc
    }
  }

  datatype SetQuantifier = All | Distinct

  datatype Operator =
    | Equals | NotEquals
    | GreaterThan | GreaterThanOrEqual
    | LessThan | LessThanOrEqual
    | In | Contains
    | RegexMatches | NotRegexMatches
    | IsNull | IsNotNull

  datatype Expression =
    | FunctionApplication(functionName: string, arguments: seq<Expression>)
    | Cast(expression: Expression, typename: string)
    | ColumnReference(schema: Option<string>, table: Option<string>, field: string)
    | Star(schema: Option<string>, table: Option<string>)
    | Constant(value: Value)
    | Raw(sql: string)
    | Condition(left: Option<Operand>, operator: Option<Operator>, right: Option<Operand>)

  datatype Operand =
    | Single(expression: Expression)
    | Several(parts: seq<Expression>)
    | Subquery(query: Query)

  /** An element of a select list. A bare star is a target without a label. */
  datatype ResultTarget = ResultTarget(expression: Expression, alias: Option<string>)

  datatype SortBy = SortBy(expression: Expression, direction: Option<SortDirection>) {
    predicate IsAscending() { direction == Some(Asc) || direction == None }

    predicate IsDescending() { direction == Some(Desc) }

    function Reversed(): SortBy {
      this.(direction := if direction.Some? then Some(direction.value.Reversed()) else None)
    }
  }

  datatype Named = Named(query: Query, name: string)

  datatype Union = Union(queries: seq<Query>, mode: SetQuantifier)

  datatype Query = Query(
    commonTableExpressions: seq<Named>,
    unions: Option<Union>,
    selectTargetList: seq<ResultTarget>,
    fromTables: seq<string>,
    fromSubqueries: seq<Named>,
    whereConditions: seq<Expression>,
    sortbyList: seq<SortBy>,
    limitValue: Option<nat>,
    offsetValue: Option<nat>)
  {
    function WithQuery(query: Query, name: string): Query {
      this.(commonTableExpressions := commonTableExpressions + [Named(query, name)])
    }

    function Select(targets: seq<Expression>): Query {
      this.(selectTargetList := selectTargetList + Map(e => ResultTarget(e, None), targets))
    }

    function SelectAll(): Query {
      Select([Star(None, None)])
    }

    function FromTable(table: string): Query {
      this.(fromTables := fromTables + [table])
    }

    function FromSubquery(subquery: Query, alias: string): Query {
      this.(fromSubqueries := fromSubqueries + [Named(subquery, alias)])
    }

    function Where(conditions: seq<Expression>): Query {
      this.(whereConditions := whereConditions + conditions)
    }

    function ReplaceOrderBy(sorts: seq<SortBy>): Query {
      this.(sortbyList := sorts)
    }

    function OrderBy(sorts: seq<SortBy>): Query {
      this.(sortbyList := sortbyList + sorts)
    }

    function Limit(limit: nat): Query {
      this.(limitValue := Some(limit))
    }

    function Offset(offset: nat): Query {
      this.(offsetValue := Some(offset))
    }
  }

  const EMPTY_QUERY := Query([], None, [], [], [], [], [], None, None)

  function UnionOf(queries: seq<Query>, mode: SetQuantifier): Query {
    EMPTY_QUERY.(unions := Some(Union(queries, mode)))
  }

  function Column(field: string): Expression {
    ColumnReference(None, None, field)
  }

  function Comparison(left: Operand, operator: Operator, right: Operand): Expression {
    Condition(Some(left), Some(operator), Some(right))
  }
}
