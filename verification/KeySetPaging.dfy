/**
 The keyset paging clause of persistence/postgres/converters/clause.py: nine statement
 shapes, chosen by direction and by the directions of the existing sort.
 */
module KeySetPaging {
  import opened Prelude
  import opened Values
  import opened SqlQuery

  datatype Path = Path(topLevel: string, subLevels: seq<Value>)

  datatype SortOrder = Ascending | Descending

  datatype SortField = SortField(field: Path, order: SortOrder)

  datatype PagingDirection = Forwards | Backwards

  datatype KeySetPagingClause = KeySetPagingClause(
    lastId: Option<Value>, direction: PagingDirection, itemCount: nat)
  {
    predicate IsForwards() { lastId.Some? && direction == Forwards }

    predicate IsBackwards() { lastId.Some? && direction == Backwards }
  }

  datatype OffsetPagingClause = OffsetPagingClause(pageNumber: nat, itemCount: nat)

  datatype PagingError = UnhashableSortExpression

  function ExpressionForPath(path: Path): Expression {
    if |path.subLevels| > 0 then
      FunctionApplication(
        "jsonb_extract_path", [Column(path.topLevel)] + Map(level => Constant(level), path.subLevels))
    else Column(path.topLevel)
  }

  function ToSortBy(field: SortField): SortBy {
    SortBy(ExpressionForPath(field.field), Some(if field.order == Ascending then Asc else Desc))
  }

  const ID := Column("id")

  function Expressions(sorts: seq<SortBy>): (r: seq<Expression>)
    ensures |r| == |sorts|
    ensures forall i :: 0 <= i < |sorts| ==> r[i] == sorts[i].expression
  {
    Map((sort: SortBy) => sort.expression, sorts)
  }

  function Redirected(sorts: seq<SortBy>, direction: SortDirection): (r: seq<SortBy>)
    ensures |r| == |sorts|
    ensures forall i :: 0 <= i < |sorts| ==> r[i] == SortBy(sorts[i].expression, Some(direction))
  {
    Map((sort: SortBy) => SortBy(sort.expression, Some(direction)), sorts)
  }

  function ReversedAll(sorts: seq<SortBy>): (r: seq<SortBy>)
    ensures |r| == |sorts|
    ensures forall i :: 0 <= i < |sorts| ==> r[i] == sorts[i].Reversed()
  {
    Map((sort: SortBy) => sort.Reversed(), sorts)
  }

  function WithId(sorts: seq<SortBy>, direction: SortDirection): seq<SortBy> {
    sorts + [SortBy(ID, Some(direction))]
  }

  function RowComparison(columns: seq<Expression>, operator: Operator, table: string): Expression {
    Comparison(Several(columns), operator, Subquery(EMPTY_QUERY.SelectAll().FromTable(table)))
  }

  function RecordQuery(id: Value, columns: seq<Expression>, table: string): Query {
    EMPTY_QUERY
    .Select(columns)
    .FromTable(table)
    .Where([Comparison(Single(ID), Equals, Single(Constant(id)))])
    .Limit(1)
  }

  // First pages.

  function FirstPageNoSort(builder: Query, n: nat): Query {
    builder.OrderBy([SortBy(ID, None)]).Limit(n)
  }

  function FirstPageExistingSort(builder: Query, n: nat, direction: SortDirection): Query {
    builder.ReplaceOrderBy(WithId(builder.sortbyList, direction)).Limit(n)
  }

  // Subsequent pages without a sort.

  function RowSelectionNoSort(builder: Query, lastId: Value, n: nat, forwards: bool): Query {
    builder
    .Where([Comparison(Single(ID), if forwards then GreaterThan else LessThan, Single(Constant(lastId)))])
    .OrderBy([SortBy(ID, Some(if forwards then Asc else Desc))])
    .Limit(n)
  }

  function NoSortForwards(builder: Query, lastId: Value, n: nat): Query {
    RowSelectionNoSort(builder, lastId, n, true)
  }

  function NoSortBackwards(builder: Query, lastId: Value, n: nat): Query {
    EMPTY_QUERY
    .SelectAll()
    .FromSubquery(RowSelectionNoSort(builder, lastId, n, false), "page")
    .OrderBy([SortBy(ID, None)])
    .Limit(n)
  }

  // Subsequent pages when every sort goes the same way.

  function UniformForwards(
    query: Query, lastId: Value, n: nat, table: string, direction: SortDirection, operator: Operator): Query
  {
    var pagedSort := WithId(query.sortbyList, direction);
    query
    .WithQuery(RecordQuery(lastId, Expressions(pagedSort), table), "last")
    .Where([RowComparison(Expressions(pagedSort), operator, "last")])
    .ReplaceOrderBy(pagedSort)
    .Limit(n)
  }

  function UniformBackwards(
    query: Query, lastId: Value, n: nat, table: string, direction: SortDirection, operator: Operator): Query
  {
    var pagedSort := WithId(query.sortbyList, direction);
    EMPTY_QUERY
    .WithQuery(RecordQuery(lastId, Expressions(pagedSort), table), "last")
    .SelectAll()
    .FromSubquery(
      query
      .Where([RowComparison(Expressions(pagedSort), operator, "last")])
      .ReplaceOrderBy(Redirected(pagedSort, direction.Reversed()))
      .Limit(n),
      "page")
    .OrderBy(pagedSort)
    .Limit(n)
  }

  function AllAscForwards(query: Query, lastId: Value, n: nat, table: string): Query {
    UniformForwards(query, lastId, n, table, Asc, GreaterThan)
  }

  function AllAscBackwards(query: Query, lastId: Value, n: nat, table: string): Query {
    UniformBackwards(query, lastId, n, table, Asc, LessThan)
  }

  function AllDescForwards(query: Query, lastId: Value, n: nat, table: string): Query {
    UniformForwards(query, lastId, n, table, Desc, LessThan)
  }

  function AllDescBackwards(query: Query, lastId: Value, n: nat, table: string): Query {
    UniformBackwards(query, lastId, n, table, Desc, GreaterThan)
  }

  // Subsequent pages when sort directions are mixed: one branch per length of the prefix of
  // sort expressions on which a row agrees with the last one.

  /** The comprehension building a dict: a repeated expression keeps its last operator. */
  function SortOperators(sorts: seq<SortBy>): map<Expression, Operator> {
    if sorts == [] then map[]
    else
      var last := sorts[|sorts| - 1];
      SortOperators(sorts[..|sorts| - 1])[
        last.expression := if last.direction == Some(Asc) then GreaterThan else LessThan]
  }

  function OperatorFor(operators: map<Expression, Operator>, e: Expression): Operator {
    if e in operators then operators[e] else Equals
  }

  /** The j-th condition of a branch: equality, except on the last of its columns. */
  function BranchCondition(columns: seq<Expression>, operators: map<Expression, Operator>, j: nat): Expression
    requires j < |columns|
  {
    Comparison(
      Single(columns[j]),
      if j < |columns| - 1 then Equals else OperatorFor(operators, columns[j]),
      Subquery(EMPTY_QUERY.Select([columns[j]]).FromTable("last")))
  }

  function BranchConditions(columns: seq<Expression>, operators: map<Expression, Operator>): (r: seq<Expression>)
    ensures |r| == |columns|
    ensures forall j :: 0 <= j < |r| ==> r[j] == BranchCondition(columns, operators, j)
  {
    seq(|columns|, j requires 0 <= j < |columns| => BranchCondition(columns, operators, j))
  }

  function BranchQuery(query: Query, order: seq<SortBy>, n: nat, i: nat): Query
    requires i < |order|
  {
    query
    .Where(BranchConditions(Expressions(order)[..i + 1], SortOperators(order)))
    .ReplaceOrderBy(order)
    .Limit(n)
  }

  function Branches(query: Query, order: seq<SortBy>, n: nat): (r: seq<Query>)
    ensures |r| == |order|
    ensures forall i :: 0 <= i < |r| ==> r[i] == BranchQuery(query, order, n, i)
  {
    seq(|order|, i requires 0 <= i < |order| => BranchQuery(query, order, n, i))
  }

  function MixedForwards(query: Query, lastId: Value, n: nat, table: string): Query {
    var pagedSort := WithId(query.sortbyList, Asc);
    UnionOf(Branches(query, pagedSort, n), All)
    .WithQuery(RecordQuery(lastId, Expressions(pagedSort), table), "last")
    .OrderBy(pagedSort)
    .Limit(n)
  }

  function MixedBackwards(query: Query, lastId: Value, n: nat, table: string): Query {
    var pagedSort := WithId(query.sortbyList, Asc);
    var recordSort := ReversedAll(pagedSort);
    EMPTY_QUERY
    .WithQuery(RecordQuery(lastId, Expressions(pagedSort), table), "last")
    .SelectAll()
    .FromSubquery(UnionOf(Branches(query, recordSort, n), All).OrderBy(recordSort).Limit(n), "page")
    .OrderBy(pagedSort)
    .Limit(n)
  }

  predicate AllAsc(sorts: seq<SortBy>) {
    forall i :: 0 <= i < |sorts| ==> sorts[i].IsAscending()
  }

  predicate AllDesc(sorts: seq<SortBy>) {
    forall i :: 0 <= i < |sorts| ==> sorts[i].IsDescending()
  }

  /**
   Whether an expression can key a dict: a function application holds its arguments in a
   list, which has no hash.
   */
  predicate Hashable(e: Expression) {
    !e.FunctionApplication?
  }

  function IfHashable(sorts: seq<SortBy>, query: Query): Result<Query, PagingError> {
    if forall i :: 0 <= i < |sorts| ==> Hashable(sorts[i].expression) then Success(query)
    else Failure(UnhashableSortExpression)
  }

  function Apply(clause: KeySetPagingClause, table: string, target: Query): Result<Query, PagingError> {
    var sorts, n := target.sortbyList, clause.itemCount;
    if clause.IsForwards() then
      var last := clause.lastId.value;
      if sorts == [] then Success(NoSortForwards(target, last, n))
      else if AllAsc(sorts) then Success(AllAscForwards(target, last, n, table))
      else if AllDesc(sorts) then Success(AllDescForwards(target, last, n, table))
      else IfHashable(sorts, MixedForwards(target, last, n, table))
    else if clause.IsBackwards() then
      var last := clause.lastId.value;
      if sorts == [] then Success(NoSortBackwards(target, last, n))
      else if AllAsc(sorts) then Success(AllAscBackwards(target, last, n, table))
      else if AllDesc(sorts) then Success(AllDescBackwards(target, last, n, table))
      else IfHashable(sorts, MixedBackwards(target, last, n, table))
    else
      if sorts == [] then Success(FirstPageNoSort(target, n))
      else if AllDesc(sorts) && !AllAsc(sorts) then Success(FirstPageExistingSort(target, n, Desc))
      else Success(FirstPageExistingSort(target, n, Asc))
  }

  function ApplyOffset(clause: OffsetPagingClause, target: Query): Query
    requires clause.pageNumber >= 1
  {
    if clause.pageNumber == 1 then target.Limit(clause.itemCount)
    else target.Limit(clause.itemCount).Offset((clause.pageNumber - 1) * clause.itemCount)
  }

  /** The statement a search compiles to before paging. */
  function SearchQuery(table: string, filters: seq<Expression>, sorts: seq<SortBy>): Query {
    EMPTY_QUERY.SelectAll().FromTable(table).Where(filters).OrderBy(sorts)
  }
}
