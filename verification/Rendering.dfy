/**
 Rendering a query tree to SQL text with placeholders and a separate list of parameters
 (`to_fragment` in persistence/postgres/query.py). The text is a sequence of tokens, so that
 quoting identifiers, which psycopg does, stays out of the picture.
 */
module Rendering {
  import opened Prelude
  import opened Values
  import opened SqlQuery

  datatype Token =
    | Literal(text: string)
    | Identifier(name: string)
    | Hole
    | Bound(value: Value)

  datatype RenderError = SchemaWithoutTable | IncompleteCondition

  datatype Fragment = Fragment(sql: seq<Token>, params: seq<Value>)

  datatype Clause = Clause(sql: Option<seq<Token>>, params: seq<Value>)

  /** Whether constants become placeholders, as the converters do, or are written in place. */
  datatype Binding = Placeholders | InPlace

  function Parameter(binding: Binding, value: Value): Fragment {
    if binding == Placeholders then Fragment([Hole], [value]) else Fragment([Bound(value)], [])
  }

  /** Raw text reaches the driver as it stands, with its own `%s` placeholders. */
  function RawTokens(text: string): seq<Token> {
    if text == "" then []
    else if |text| >= 2 && text[0] == '%' && text[1] == 's' then [Hole] + RawTokens(text[2..])
    else [Literal(text[..1])] + RawTokens(text[1..])
  }

  function Join(separator: Token, parts: seq<seq<Token>>): seq<Token> {
    if parts == [] then []
    else if |parts| == 1 then parts[0]
    else parts[0] + [separator] + Join(separator, parts[1..])
  }

  function Sqls(fragments: seq<Fragment>): seq<seq<Token>> {
    if fragments == [] then [] else [fragments[0].sql] + Sqls(fragments[1..])
  }

  function Params(fragments: seq<Fragment>): seq<Value> {
    if fragments == [] then [] else fragments[0].params + Params(fragments[1..])
  }

  function Present(clauses: seq<Clause>): seq<seq<Token>> {
    if clauses == [] then []
    else (if clauses[0].sql.Some? then [clauses[0].sql.value] else []) + Present(clauses[1..])
  }

  function OperatorText(operator: Operator): string {
    match operator
    case Equals => "="
    case NotEquals => "!="
    case GreaterThan => ">"
    case GreaterThanOrEqual => ">="
    case LessThan => "<"
    case LessThanOrEqual => "<="
    case In => "IN"
    case Contains => "@>"
    case RegexMatches => "~"
    case NotRegexMatches => "!~"
    case IsNull => "IS NULL"
    case IsNotNull => "IS NOT NULL"
  }

  function Qualified(schema: Option<string>, table: Option<string>, name: Token): Result<Fragment, RenderError> {
    match (schema, table)
    case (Some(_), None) => Failure(SchemaWithoutTable)
    case (Some(s), Some(t)) =>
      Success(Fragment([Identifier(s), Literal("."), Identifier(t), Literal("."), name], []))
    case (None, Some(t)) => Success(Fragment([Identifier(t), Literal("."), name], []))
    case (None, None) => Success(Fragment([name], []))
  }

  function RenderExpression(b: Binding, e: Expression): Result<Fragment, RenderError>
    decreases e
  {
    match e
    case FunctionApplication(name, arguments) =>
      var parts :- RenderExpressions(b, arguments);
      Success(Fragment(
        [Identifier(name), Literal("(")] + Join(Literal(", "), Sqls(parts)) + [Literal(")")], Params(parts)))
    case Cast(expression, typename) =>
      var inner :- RenderExpression(b, expression);
      Success(Fragment(
        [Literal("CAST(")] + inner.sql + [Literal(" AS "), Identifier(typename), Literal(")")], inner.params))
    case ColumnReference(schema, table, field) => Qualified(schema, table, Identifier(field))
    case Star(schema, table) => Qualified(schema, table, Literal("*"))
    case Constant(value) => Success(Parameter(b, value))
    case Raw(text) => Success(Fragment(RawTokens(text), []))
    case Condition(Some(left), Some(operator), Some(right)) =>
      var l :- RenderOperand(b, left);
      var r :- RenderOperand(b, right);
      Success(Fragment(
        l.sql + [Literal(" " + OperatorText(operator) + " ")] + r.sql, l.params + r.params))
    case Condition(_, _, _) => Failure(IncompleteCondition)
  }

  function RenderOperand(b: Binding, operand: Operand): Result<Fragment, RenderError>
    decreases operand
  {
    match operand
    case Single(e) => RenderExpression(b, e)
    case Several(es) =>
      var parts :- RenderExpressions(b, es);
      Success(Fragment([Literal("(")] + Join(Literal(", "), Sqls(parts)) + [Literal(")")], Params(parts)))
    case Subquery(q) =>
      var inner :- RenderQuery(b, q);
      Success(Fragment([Literal("(")] + inner.sql + [Literal(")")], inner.params))
  }

  function RenderExpressions(b: Binding, es: seq<Expression>): Result<seq<Fragment>, RenderError>
    decreases es
  {
    if es == [] then Success([])
    else
      var head :- RenderExpression(b, es[0]);
      var tail :- RenderExpressions(b, es[1..]);
      Success([head] + tail)
  }

  function RenderTarget(b: Binding, target: ResultTarget): Result<Fragment, RenderError>
    decreases target
  {
    var expression :- RenderExpression(b, target.expression);
    match target.alias
    case Some(alias) => Success(Fragment(expression.sql + [Literal(" AS "), Identifier(alias)], expression.params))
    case None => Success(expression)
  }

  function RenderTargets(b: Binding, targets: seq<ResultTarget>): Result<seq<Fragment>, RenderError>
    decreases targets
  {
    if targets == [] then Success([])
    else
      var head :- RenderTarget(b, targets[0]);
      var tail :- RenderTargets(b, targets[1..]);
      Success([head] + tail)
  }

  function RenderSort(b: Binding, sort: SortBy): Result<Fragment, RenderError>
    decreases sort
  {
    var expression :- RenderExpression(b, sort.expression);
    match sort.direction
    case Some(Asc) => Success(Fragment(expression.sql + [Literal(" ASC")], expression.params))
    case Some(Desc) => Success(Fragment(expression.sql + [Literal(" DESC")], expression.params))
    case None => Success(expression)
  }

  function RenderSorts(b: Binding, sorts: seq<SortBy>): Result<seq<Fragment>, RenderError>
    decreases sorts
  {
    if sorts == [] then Success([])
    else
      var head :- RenderSort(b, sorts[0]);
      var tail :- RenderSorts(b, sorts[1..]);
      Success([head] + tail)
  }

  /** Named subqueries, written `name AS (query)` in WITH and `(query) AS name` in FROM. */
  function RenderNamed(b: Binding, named: seq<Named>, nameFirst: bool): Result<seq<Fragment>, RenderError>
    decreases named
  {
    if named == [] then Success([])
    else
      var inner :- RenderQuery(b, named[0].query);
      var sql :=
        if nameFirst then [Identifier(named[0].name), Literal(" AS (")] + inner.sql + [Literal(")")]
        else [Literal("(")] + inner.sql + [Literal(") AS "), Identifier(named[0].name)];
      var tail :- RenderNamed(b, named[1..], nameFirst);
      Success([Fragment(sql, inner.params)] + tail)
  }

  function RenderQueries(b: Binding, queries: seq<Query>): Result<seq<Fragment>, RenderError>
    decreases queries
  {
    if queries == [] then Success([])
    else
      var inner :- RenderQuery(b, queries[0]);
      var tail :- RenderQueries(b, queries[1..]);
      Success([Fragment([Literal("(")] + inner.sql + [Literal(")")], inner.params)] + tail)
  }

  function RenderUnion(b: Binding, union: Option<Union>): Result<seq<Fragment>, RenderError>
    decreases union
  {
    match union
    case None => Success([])
    case Some(Union(queries, _)) => RenderQueries(b, queries)
  }

  function TableNames(tables: seq<string>): seq<Fragment> {
    if tables == [] then [] else [Fragment([Identifier(tables[0])], [])] + TableNames(tables[1..])
  }

  function ListClause(keyword: string, separator: string, parts: seq<Fragment>): Clause {
    if parts == [] then Clause(None, [])
    else Clause(Some([Literal(keyword)] + Join(Literal(separator), Sqls(parts))), Params(parts))
  }

  function UnionClause(union: Option<Union>, parts: seq<Fragment>): Clause {
    match union
    case None => Clause(None, [])
    case Some(Union(_, mode)) =>
      Clause(Some(Join(Literal(if mode == Distinct then " UNION DISTINCT " else " UNION ALL "), Sqls(parts))),
             Params(parts))
  }

  function NumberClause(b: Binding, keyword: string, number: Option<nat>): Clause {
    match number
    case None => Clause(None, [])
    case Some(n) =>
      var parameter := Parameter(b, Number(n));
      Clause(Some([Literal(keyword)] + parameter.sql), parameter.params)
  }

  function RenderQuery(b: Binding, q: Query): Result<Fragment, RenderError>
    decreases q
  {
    var ctes :- RenderNamed(b, q.commonTableExpressions, true);
    var united :- RenderUnion(b, q.unions);
    var targets :- RenderTargets(b, q.selectTargetList);
    var subqueries :- RenderNamed(b, q.fromSubqueries, false);
    var conditions :- RenderExpressions(b, q.whereConditions);
    var sorts :- RenderSorts(b, q.sortbyList);
    var cte := ListClause("WITH ", ", ", ctes);
    var union := UnionClause(q.unions, united);
    var select := ListClause("SELECT ", ", ", targets);
    var from := ListClause("FROM ", ", ", TableNames(q.fromTables) + subqueries);
    var where := ListClause("WHERE ", " AND ", conditions);
    var orderBy := ListClause("ORDER BY ", ", ", sorts);
    var limit := NumberClause(b, "LIMIT ", q.limitValue);
    var offset := NumberClause(b, "OFFSET ", q.offsetValue);
    Success(Fragment(
      Join(Literal(" "), Present([cte, union, select, from, where, orderBy, limit, offset])),
      cte.params + union.params + select.params + from.params + where.params + orderBy.params
      + limit.params + offset.params))
  }
}
