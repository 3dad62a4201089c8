/** The one theorem about all nine shapes, and what reading page after page amounts to. */
module PageWalks {
  import opened Prelude
  import opened Ordering
  import opened Values
  import opened SqlQuery
  import opened Evaluation
  import opened KeySetPaging
  import opened PagingEvaluation
  import opened PagingRefinement
  import opened MixedPaging
  import opened PagingLaws
  import opened Walking

  /** The page a clause asks for, relative to the row named by its last id. */
  function Page(
    db: Database, order: seq<SortBy>, ranked: seq<Row>, clause: KeySetPagingClause, last: Row): seq<Row>
  {
    if clause.lastId == None then Take(clause.itemCount, ranked)
    else if clause.direction == Forwards then NextPage(db, order, last, clause.itemCount, ranked)
    else PreviousPage(db, order, last, clause.itemCount, ranked)
  }

  /** The statement a search with paging runs. */
  function Statement(
    table: string, filters: seq<Expression>, sorts: seq<SortBy>, clause: KeySetPagingClause): Result<Query, PagingError>
  {
    Apply(clause, table, SearchQuery(table, filters, sorts))
  }

  /** Whatever shape is chosen, it yields the page of the filtered rows ranked by `Order(sorts)`. */
  lemma EveryShapeMeansItsPage(
    db: Database, env: Environment, table: string, filters: seq<Expression>, sorts: seq<SortBy>,
    clause: KeySetPagingClause, last: Row)
    requires Setting(db, env, table, filters, sorts) && Supported(sorts)
    requires clause.lastId.Some? ==> last in env[table] && clause.lastId.value == Id(last)
    ensures Statement(table, filters, sorts, clause).Success?
    ensures EvalQuery(db, env, Statement(table, filters, sorts, clause).value)
         == Page(db, Order(sorts), Ranked(db, env, table, filters, sorts), clause, last)
  {
    SearchQueryShape(table, filters, sorts);
    match (clause.lastId, clause.direction)
    case (None, _) => FirstShapes(db, env, table, filters, sorts, clause);
    case (Some(_), Forwards) => ForwardShapes(db, env, table, filters, sorts, clause, last);
    case (Some(_), Backwards) => BackwardShapes(db, env, table, filters, sorts, clause, last);
  }

  lemma FirstShapes(
    db: Database, env: Environment, table: string, filters: seq<Expression>, sorts: seq<SortBy>,
    clause: KeySetPagingClause)
    requires Setting(db, env, table, filters, sorts) && Supported(sorts) && clause.lastId == None
    ensures Statement(table, filters, sorts, clause).Success?
    ensures EvalQuery(db, env, Statement(table, filters, sorts, clause).value)
         == Take(clause.itemCount, Ranked(db, env, table, filters, sorts))
  {
    SearchQueryShape(table, filters, sorts);
    if sorts == [] {
      FirstPageNoSortMeaning(db, env, table, filters, clause.itemCount);
    } else {
      OneDirection(sorts);
      FirstPageMeaning(db, env, table, filters, sorts, if AllDesc(sorts) then Desc else Asc, clause.itemCount);
    }
  }

  lemma OneDirection(sorts: seq<SortBy>)
    requires sorts != []
    ensures !(AllAsc(sorts) && AllDesc(sorts))
  {
    if AllAsc(sorts) {
      assert sorts[0].IsAscending();
    }
  }

  // The statements for a page beside a given row.

  function DirectionOf(sorts: seq<SortBy>): SortDirection {
    if AllAsc(sorts) then Asc else Desc
  }

  function UniformStatement(
    table: string, filters: seq<Expression>, sorts: seq<SortBy>, clause: KeySetPagingClause): Query
    requires clause.lastId.Some?
  {
    var query, direction := SearchQuery(table, filters, sorts), DirectionOf(sorts);
    if clause.direction == Forwards then
      UniformForwards(query, clause.lastId.value, clause.itemCount, table, direction, Beyond(direction, true))
    else
      UniformBackwards(query, clause.lastId.value, clause.itemCount, table, direction, Beyond(direction, false))
  }

  function MixedStatement(
    table: string, filters: seq<Expression>, sorts: seq<SortBy>, clause: KeySetPagingClause): Query
    requires clause.lastId.Some?
  {
    var query := SearchQuery(table, filters, sorts);
    if clause.direction == Forwards then MixedForwards(query, clause.lastId.value, clause.itemCount, table)
    else MixedBackwards(query, clause.lastId.value, clause.itemCount, table)
  }

  lemma UniformChosen(
    table: string, filters: seq<Expression>, sorts: seq<SortBy>, clause: KeySetPagingClause)
    requires clause.lastId.Some? && sorts != [] && Uniform(sorts)
    ensures Statement(table, filters, sorts, clause) == Success(UniformStatement(table, filters, sorts, clause))
  {
    SearchQueryShape(table, filters, sorts);
  }

  lemma MixedChosen(
    table: string, filters: seq<Expression>, sorts: seq<SortBy>, clause: KeySetPagingClause)
    requires clause.lastId.Some? && sorts != [] && !Uniform(sorts)
    ensures Statement(table, filters, sorts, clause)
         == IfHashable(sorts, MixedStatement(table, filters, sorts, clause))
  {
    SearchQueryShape(table, filters, sorts);
  }

  lemma MixedCompiles(
    table: string, filters: seq<Expression>, sorts: seq<SortBy>, clause: KeySetPagingClause)
    requires clause.lastId.Some? && sorts != [] && !Uniform(sorts) && Supported(sorts)
    ensures Statement(table, filters, sorts, clause) == Success(MixedStatement(table, filters, sorts, clause))
  {
    MixedChosen(table, filters, sorts, clause);
    HashableColumns(sorts, MixedStatement(table, filters, sorts, clause));
  }

  lemma ForwardShapes(
    db: Database, env: Environment, table: string, filters: seq<Expression>, sorts: seq<SortBy>,
    clause: KeySetPagingClause, last: Row)
    requires Setting(db, env, table, filters, sorts) && last in env[table]
    requires clause.lastId == Some(Id(last)) && clause.direction == Forwards
    requires Supported(sorts)
    ensures Statement(table, filters, sorts, clause).Success?
    ensures EvalQuery(db, env, Statement(table, filters, sorts, clause).value)
         == NextPage(db, Order(sorts), last, clause.itemCount, Ranked(db, env, table, filters, sorts))
  {
    if sorts == [] {
      ForwardNoSort(db, env, table, filters, clause, last);
    } else if Uniform(sorts) {
      UniformChosen(table, filters, sorts, clause);
      ForwardUniform(db, env, table, filters, sorts, clause, last);
    } else {
      MixedCompiles(table, filters, sorts, clause);
      ForwardMixed(db, env, table, filters, sorts, clause, last);
    }
  }

  lemma ForwardNoSort(
    db: Database, env: Environment, table: string, filters: seq<Expression>,
    clause: KeySetPagingClause, last: Row)
    requires Setting(db, env, table, filters, []) && last in env[table]
    requires clause.lastId == Some(Id(last)) && clause.direction == Forwards
    ensures Statement(table, filters, [], clause).Success?
    ensures EvalQuery(db, env, Statement(table, filters, [], clause).value)
         == NextPage(db, Order([]), last, clause.itemCount, Ranked(db, env, table, filters, []))
  {
    SearchQueryShape(table, filters, []);
    NoSortForwardsMeaning(db, env, table, filters, last, clause.itemCount);
  }

  lemma ForwardUniform(
    db: Database, env: Environment, table: string, filters: seq<Expression>, sorts: seq<SortBy>,
    clause: KeySetPagingClause, last: Row)
    requires Setting(db, env, table, filters, sorts) && last in env[table]
    requires clause.lastId == Some(Id(last)) && clause.direction == Forwards
    requires Directed(sorts) && sorts != [] && Uniform(sorts)
    ensures EvalQuery(db, env, UniformStatement(table, filters, sorts, clause))
         == NextPage(db, Order(sorts), last, clause.itemCount, Ranked(db, env, table, filters, sorts))
  {
    OneDirection(sorts);
    UniformForwardsMeaning(db, env, table, filters, sorts, DirectionOf(sorts), last, clause.itemCount);
  }

  lemma ForwardMixed(
    db: Database, env: Environment, table: string, filters: seq<Expression>, sorts: seq<SortBy>,
    clause: KeySetPagingClause, last: Row)
    requires Setting(db, env, table, filters, sorts) && last in env[table]
    requires clause.lastId == Some(Id(last)) && clause.direction == Forwards
    requires Supported(sorts) && sorts != [] && !Uniform(sorts)
    ensures EvalQuery(db, env, MixedStatement(table, filters, sorts, clause))
         == NextPage(db, Order(sorts), last, clause.itemCount, Ranked(db, env, table, filters, sorts))
  {
    MixedOrder(db, env, table, filters, sorts);
    MixedForwardsMeaning(db, env, table, filters, sorts, last, clause.itemCount);
  }

  lemma BackwardShapes(
    db: Database, env: Environment, table: string, filters: seq<Expression>, sorts: seq<SortBy>,
    clause: KeySetPagingClause, last: Row)
    requires Setting(db, env, table, filters, sorts) && last in env[table]
    requires clause.lastId == Some(Id(last)) && clause.direction == Backwards
    requires Supported(sorts)
    ensures Statement(table, filters, sorts, clause).Success?
    ensures EvalQuery(db, env, Statement(table, filters, sorts, clause).value)
         == PreviousPage(db, Order(sorts), last, clause.itemCount, Ranked(db, env, table, filters, sorts))
  {
    if sorts == [] {
      BackwardNoSort(db, env, table, filters, clause, last);
    } else if Uniform(sorts) {
      UniformChosen(table, filters, sorts, clause);
      BackwardUniform(db, env, table, filters, sorts, clause, last);
    } else {
      MixedCompiles(table, filters, sorts, clause);
      BackwardMixed(db, env, table, filters, sorts, clause, last);
    }
  }

  lemma BackwardNoSort(
    db: Database, env: Environment, table: string, filters: seq<Expression>,
    clause: KeySetPagingClause, last: Row)
    requires Setting(db, env, table, filters, []) && last in env[table]
    requires clause.lastId == Some(Id(last)) && clause.direction == Backwards
    ensures Statement(table, filters, [], clause).Success?
    ensures EvalQuery(db, env, Statement(table, filters, [], clause).value)
         == PreviousPage(db, Order([]), last, clause.itemCount, Ranked(db, env, table, filters, []))
  {
    SearchQueryShape(table, filters, []);
    NoSortBackwardsMeaning(db, env, table, filters, last, clause.itemCount);
  }

  lemma BackwardUniform(
    db: Database, env: Environment, table: string, filters: seq<Expression>, sorts: seq<SortBy>,
    clause: KeySetPagingClause, last: Row)
    requires Setting(db, env, table, filters, sorts) && last in env[table]
    requires clause.lastId == Some(Id(last)) && clause.direction == Backwards
    requires Directed(sorts) && sorts != [] && Uniform(sorts)
    ensures EvalQuery(db, env, UniformStatement(table, filters, sorts, clause))
         == PreviousPage(db, Order(sorts), last, clause.itemCount, Ranked(db, env, table, filters, sorts))
  {
    OneDirection(sorts);
    UniformBackwardsMeaning(db, env, table, filters, sorts, DirectionOf(sorts), last, clause.itemCount);
  }

  lemma BackwardMixed(
    db: Database, env: Environment, table: string, filters: seq<Expression>, sorts: seq<SortBy>,
    clause: KeySetPagingClause, last: Row)
    requires Setting(db, env, table, filters, sorts) && last in env[table]
    requires clause.lastId == Some(Id(last)) && clause.direction == Backwards
    requires Supported(sorts) && sorts != [] && !Uniform(sorts)
    ensures EvalQuery(db, env, MixedStatement(table, filters, sorts, clause))
         == PreviousPage(db, Order(sorts), last, clause.itemCount, Ranked(db, env, table, filters, sorts))
  {
    MixedOrder(db, env, table, filters, sorts);
    MixedBackwardsMeaning(db, env, table, filters, sorts, last, clause.itemCount);
  }

  lemma MixedOrder(
    db: Database, env: Environment, table: string, filters: seq<Expression>, sorts: seq<SortBy>)
    requires table in env && !Uniform(sorts)
    ensures Order(sorts) == WithId(sorts, Asc)
    ensures Ranked(db, env, table, filters, sorts)
         == Sort(By(db, WithId(sorts, Asc)), Selected(db, env, table, filters))
  {
  }

  lemma HashableColumns(sorts: seq<SortBy>, query: Query)
    requires DistinctColumns(WithId(sorts, Asc))
    ensures IfHashable(sorts, query) == Success(query)
  {
    forall i | 0 <= i < |sorts| ensures Hashable(sorts[i].expression) {
      assert PlainColumn(WithId(sorts, Asc)[i].expression);
    }
  }

  /** A mixed sort on a nested path cannot page at all once a last id is given. */
  lemma MixedNestedPathFails(
    table: string, filters: seq<Expression>, sorts: seq<SortBy>, clause: KeySetPagingClause)
    requires clause.lastId.Some?
    ensures Statement(table, filters, sorts, clause).Failure? <==>
            !Uniform(sorts) && exists i :: 0 <= i < |sorts| && sorts[i].expression.FunctionApplication?
  {
    SearchQueryShape(table, filters, sorts);
    assert forall i :: 0 <= i < |sorts| ==> Hashable(sorts[i].expression) == !sorts[i].expression.FunctionApplication?;
  }

  /** What the sort converter makes of a field or of a path into one. */
  predicate Convertible(sorts: seq<SortBy>) {
    forall i :: 0 <= i < |sorts| ==> PlainColumn(sorts[i].expression) || sorts[i].expression.FunctionApplication?
  }

  /**
   The sorts the laws cover are all that can be paged: given a last id, every other sort either
   fails to compile or reads an ambiguous name in both directions.
   */
  lemma SupportedExactly(
    table: string, filters: seq<Expression>, sorts: seq<SortBy>, clause: KeySetPagingClause)
    requires clause.lastId.Some? && Directed(sorts) && Convertible(sorts)
    ensures Supported(sorts) <==> (
      || Uniform(sorts)
      || (Statement(table, filters, sorts, clause).Success?
          && Resolves(RecordQuery(clause.lastId.value, Expressions(WithId(sorts, Asc)), table),
                      BranchOrder(sorts, clause))))
  {
    MixedNestedPathFails(table, filters, sorts, clause);
    if !Uniform(sorts) {
      var order := WithId(sorts, Asc);
      assert Order(sorts) == order;
      if forall i :: 0 <= i < |sorts| ==> PlainColumn(sorts[i].expression) {
        assert AllColumns(Expressions(order));
        SameColumns(sorts, clause);
        ResolvesExactly(clause.lastId.value, table, BranchOrder(sorts, clause));
      } else {
        assert forall i :: 0 <= i < |sorts| ==> order[i] == sorts[i];
        assert !DistinctColumns(order);
      }
    }
  }

  /** The order the branches of a mixed statement follow: backwards, the reverse. */
  function BranchOrder(sorts: seq<SortBy>, clause: KeySetPagingClause): seq<SortBy> {
    if clause.direction == Forwards then WithId(sorts, Asc) else ReversedAll(WithId(sorts, Asc))
  }

  lemma SameColumns(sorts: seq<SortBy>, clause: KeySetPagingClause)
    ensures Expressions(BranchOrder(sorts, clause)) == Expressions(WithId(sorts, Asc))
    ensures DistinctColumns(BranchOrder(sorts, clause)) <==> DistinctColumns(WithId(sorts, Asc))
  {
    var a, b := BranchOrder(sorts, clause), WithId(sorts, Asc);
    assert forall i :: 0 <= i < |b| ==> a[i].expression == b[i].expression;
  }

  // A last id no record has: the row comparisons are unknown, so the page is empty.

  lemma BindsNothing(
      db: Database, env: Environment, table: string, order: seq<SortBy>, lastId: Value)
    requires table in env && IdsIdentify(env[table])
    requires forall row :: row in env[table] ==> !HasId(lastId, row)
    ensures Binds(db, env, table, lastId, order, env["last" := []])
  {
    EvalRecord(db, env, lastId, Expressions(order), table);
  }

  lemma UnboundSelectsNothing(
      db: Database, inner: Environment, filters: seq<Expression>, condition: Expression, rows: seq<Row>)
    requires forall row :: !Holds(db, inner, condition, row)
    ensures Filter(Matching(db, inner, filters + [condition]), rows) == []
  {
    forall row | row in rows ensures !Matching(db, inner, filters + [condition])(row) {
      HoldAllConcat(db, inner, filters, [condition], row);
      HoldAllEach(db, inner, [condition], row);
    }
    FilterNone(Matching(db, inner, filters + [condition]), rows);
  }

  lemma UnboundRowComparison(
      db: Database, inner: Environment, columns: seq<Expression>, operator: Operator)
    requires "last" in inner && inner["last"] == []
    ensures forall row :: !Holds(db, inner, RowComparison(columns, operator, "last"), row)
  {
    EvalLastRows(db, inner);
  }

  lemma UnboundBranchCondition(
    db: Database, inner: Environment, columns: seq<Expression>, operators: map<Expression, Operator>, j: nat)
    requires "last" in inner && inner["last"] == [] && j < |columns|
    ensures forall row :: !Holds(db, inner, BranchCondition(columns, operators, j), row)
  {
    var q := EMPTY_QUERY.Select([columns[j]]).FromTable("last");
    assert q.selectTargetList == [ResultTarget(columns[j], None)];
    EvalColumnRows(db, inner, q, ResultTarget(columns[j], None));
  }

  lemma UnboundBranch(
    db: Database, inner: Environment, table: string, filters: seq<Expression>, sorts: seq<SortBy>, order: seq<SortBy>,
    n: nat, i: nat)
    requires "last" in inner && inner["last"] == [] && table in inner && i < |order|
    ensures EvalQuery(db, inner, Branches(SearchQuery(table, filters, sorts), order, n)[i]) == []
  {
    var columns := Expressions(order)[..i + 1];
    var conditions := BranchConditions(columns, SortOperators(order));
    var q := BranchQuery(SearchQuery(table, filters, sorts), order, n, i);
    SearchQueryShape(table, filters, sorts);
    EvalLimited(db, inner, q, table, n);
    UnboundBranchCondition(db, inner, columns, SortOperators(order), 0);
    forall row ensures !Matching(db, inner, filters + conditions)(row) {
      HoldAllConcat(db, inner, filters, conditions, row);
      HoldAllEach(db, inner, conditions, row);
      assert !Holds(db, inner, conditions[0], row);
    }
    FilterNone(Matching(db, inner, filters + conditions), inner[table]);
  }

  lemma UnboundBranches(
    db: Database, inner: Environment, table: string, filters: seq<Expression>, sorts: seq<SortBy>, order: seq<SortBy>,
    n: nat)
    requires "last" in inner && inner["last"] == [] && table in inner
    ensures Flatten(EvalQueries(db, inner, Branches(SearchQuery(table, filters, sorts), order, n))) == []
  {
    var results := EvalQueries(db, inner, Branches(SearchQuery(table, filters, sorts), order, n));
    forall i | 0 <= i < |results| ensures results[i] == [] {
      UnboundBranch(db, inner, table, filters, sorts, order, n, i);
    }
    FlattenEmpty(results);
  }

  lemma {:induction false} FlattenEmpty<T>(ss: seq<seq<T>>)
    requires forall i :: 0 <= i < |ss| ==> ss[i] == []
    ensures Flatten(ss) == []
  {
    if ss != [] {
      FlattenEmpty(ss[1..]);
    }
  }

  lemma UnknownUniformForwards(
    db: Database, env: Environment, table: string, filters: seq<Expression>, sorts: seq<SortBy>,
    direction: SortDirection, lastId: Value, n: nat)
    requires table in env && table != "last" && IdsIdentify(env[table])
    requires forall row :: row in env[table] ==> !HasId(lastId, row)
    ensures EvalQuery(db, env, UniformForwards(
      SearchQuery(table, filters, sorts), lastId, n, table, direction, Beyond(direction, true))) == []
  {
    var order, inner := WithId(sorts, direction), env["last" := []];
    BindsNothing(db, env, table, order, lastId);
    UniformForwardsSteps(db, env, table, filters, sorts, direction, lastId, inner, n);
    UnboundUniform(db, inner, filters, order, direction, true, env[table]);
  }

  lemma UnknownUniformBackwards(
    db: Database, env: Environment, table: string, filters: seq<Expression>, sorts: seq<SortBy>,
    direction: SortDirection, lastId: Value, n: nat)
    requires table in env && table != "last" && IdsIdentify(env[table])
    requires forall row :: row in env[table] ==> !HasId(lastId, row)
    ensures EvalQuery(db, env, UniformBackwards(
      SearchQuery(table, filters, sorts), lastId, n, table, direction, Beyond(direction, false))) == []
  {
    var order, inner := WithId(sorts, direction), env["last" := []];
    BindsNothing(db, env, table, order, lastId);
    UniformBackwardsSteps(db, env, table, filters, sorts, direction, lastId, inner, n);
    UnboundUniform(db, inner, filters, order, direction, false, env[table]);
  }

  lemma UnboundUniform(
    db: Database, inner: Environment, filters: seq<Expression>, order: seq<SortBy>, direction: SortDirection,
    forwards: bool, rows: seq<Row>)
    requires "last" in inner && inner["last"] == []
    ensures Filter(Matching(db, inner, UniformConditions(filters, order, direction, forwards)), rows) == []
  {
    var operator := Beyond(direction, forwards);
    UnboundRowComparison(db, inner, Expressions(order), operator);
    UnboundSelectsNothing(db, inner, filters, RowComparison(Expressions(order), operator, "last"), rows);
  }

  lemma UnknownMixedForwards(
    db: Database, env: Environment, table: string, filters: seq<Expression>, sorts: seq<SortBy>, lastId: Value, n: nat)
    requires table in env && table != "last" && IdsIdentify(env[table])
    requires forall row :: row in env[table] ==> !HasId(lastId, row)
    ensures EvalQuery(db, env, MixedForwards(SearchQuery(table, filters, sorts), lastId, n, table)) == []
  {
    var order, inner := WithId(sorts, Asc), env["last" := []];
    BindsNothing(db, env, table, order, lastId);
    MixedForwardsSteps(db, env, table, filters, sorts, lastId, inner, n);
    UnboundBranches(db, inner, table, filters, sorts, order, n);
  }

  lemma UnknownMixedBackwards(
    db: Database, env: Environment, table: string, filters: seq<Expression>, sorts: seq<SortBy>, lastId: Value, n: nat)
    requires table in env && table != "last" && IdsIdentify(env[table])
    requires forall row :: row in env[table] ==> !HasId(lastId, row)
    ensures EvalQuery(db, env, MixedBackwards(SearchQuery(table, filters, sorts), lastId, n, table)) == []
  {
    var order, inner := WithId(sorts, Asc), env["last" := []];
    BindsNothing(db, env, table, order, lastId);
    MixedBackwardsSteps(db, env, table, filters, sorts, lastId, inner, n);
    UnboundBranches(db, inner, table, filters, sorts, ReversedAll(order), n);
  }

  /** With a sort, a last id that names no record gives an empty page in either direction. */
  lemma UnknownLastIdGivesNothing(
    db: Database, env: Environment, table: string, filters: seq<Expression>, sorts: seq<SortBy>,
    clause: KeySetPagingClause)
    requires table in env && table != "last" && IdsIdentify(env[table]) && sorts != []
    requires clause.lastId.Some? && forall row :: row in env[table] ==> !HasId(clause.lastId.value, row)
    requires Statement(table, filters, sorts, clause).Success?
    ensures EvalQuery(db, env, Statement(table, filters, sorts, clause).value) == []
  {
    if Uniform(sorts) {
      UniformChosen(table, filters, sorts, clause);
      UnknownUniform(db, env, table, filters, sorts, clause);
    } else {
      MixedChosen(table, filters, sorts, clause);
      UnknownMixed(db, env, table, filters, sorts, clause);
    }
  }

  lemma UnknownUniform(
    db: Database, env: Environment, table: string, filters: seq<Expression>, sorts: seq<SortBy>,
    clause: KeySetPagingClause)
    requires table in env && table != "last" && IdsIdentify(env[table]) && clause.lastId.Some?
    requires forall row :: row in env[table] ==> !HasId(clause.lastId.value, row)
    ensures EvalQuery(db, env, UniformStatement(table, filters, sorts, clause)) == []
  {
    if clause.direction == Forwards {
      UnknownUniformForwards(db, env, table, filters, sorts, DirectionOf(sorts), clause.lastId.value, clause.itemCount);
    } else {
      UnknownUniformBackwards(db, env, table, filters, sorts, DirectionOf(sorts), clause.lastId.value,
                              clause.itemCount);
    }
  }

  lemma UnknownMixed(
    db: Database, env: Environment, table: string, filters: seq<Expression>, sorts: seq<SortBy>,
    clause: KeySetPagingClause)
    requires table in env && table != "last" && IdsIdentify(env[table]) && clause.lastId.Some?
    requires forall row :: row in env[table] ==> !HasId(clause.lastId.value, row)
    ensures EvalQuery(db, env, MixedStatement(table, filters, sorts, clause)) == []
  {
    if clause.direction == Forwards {
      UnknownMixedForwards(db, env, table, filters, sorts, clause.lastId.value, clause.itemCount);
    } else {
      UnknownMixedBackwards(db, env, table, filters, sorts, clause.lastId.value, clause.itemCount);
    }
  }

  // Walking.

  ghost predicate IsRanking(db: Database, order: seq<SortBy>, ranked: seq<Row>) {
    Sorted(By(db, order), ranked) && Discriminates(By(db, order), ranked) && NoDuplicates(ranked)
  }

  lemma {:induction false} NoDuplicatesCount<T(!new)>(s: seq<T>)
    ensures NoDuplicates(s) <==> forall x :: multiset(s)[x] <= 1
  {
    if s != [] {
      NoDuplicatesCount(s[1..]);
      assert s == [s[0]] + s[1..];
      assert forall j :: 0 < j < |s| ==> s[j] == s[1..][j - 1];
      if NoDuplicates(s) {
        assert s[0] !in s[1..];
        assert multiset(s[1..])[s[0]] == 0;
      }
      if forall x :: multiset(s)[x] <= 1 {
        assert multiset(s)[s[0]] == 1 + multiset(s[1..])[s[0]];
        assert s[0] !in s[1..];
        assert forall x :: multiset(s[1..])[x] <= multiset(s)[x];
      }
    }
  }

  lemma {:induction false} FilterNoDuplicates<T(!new)>(p: T -> bool, s: seq<T>)
    requires NoDuplicates(s)
    ensures NoDuplicates(Filter(p, s))
  {
    if s != [] {
      FilterNoDuplicates(p, s[1..]);
      assert forall j :: 0 < j < |s| ==> s[j] == s[1..][j - 1];
      assert s[0] !in Filter(p, s[1..]);
    }
  }

  lemma RankedNoDuplicates(
    db: Database, env: Environment, table: string, filters: seq<Expression>, sorts: seq<SortBy>)
    requires table in env && NoDuplicates(env[table])
    ensures NoDuplicates(Ranked(db, env, table, filters, sorts))
  {
    FilterNoDuplicates(Matching(db, env, filters), env[table]);
    NoDuplicatesCount(Selected(db, env, table, filters));
    NoDuplicatesCount(Ranked(db, env, table, filters, sorts));
  }

  /** Relative to its own i-th element, a duplicate-free ranking splits at i. */
  lemma RankingSplits(db: Database, order: seq<SortBy>, ranked: seq<Row>, i: nat)
    requires IsRanking(db, order, ranked) && i < |ranked|
    ensures Filter(AfterRow(db, order, ranked[i]), ranked) == ranked[i + 1..]
    ensures Filter(BeforeRow(db, order, ranked[i]), ranked) == ranked[..i]
  {
    forall j | 0 <= j < |ranked|
      ensures AfterRow(db, order, ranked[i])(ranked[j]) == (i < j)
      ensures BeforeRow(db, order, ranked[i])(ranked[j]) == (j < i)
    {
      RankingCompares(db, order, ranked, i, j);
    }
    FilterSuffix(AfterRow(db, order, ranked[i]), ranked, i + 1);
    FilterPrefix(BeforeRow(db, order, ranked[i]), ranked, i);
  }

  lemma RankingCompares(db: Database, order: seq<SortBy>, ranked: seq<Row>, i: nat, j: nat)
    requires IsRanking(db, order, ranked) && i < |ranked| && j < |ranked|
    ensures Precedes(db, order, ranked[i], ranked[j]) == (i < j)
    ensures Precedes(db, order, ranked[j], ranked[i]) == (j < i)
  {
    var lt := By(db, order);
    PrecedesIrreflexive(db, order, ranked[i]);
    assert i < j ==> !lt(ranked[j], ranked[i]);
    assert j < i ==> !lt(ranked[i], ranked[j]);
    assert ranked[i] in ranked && ranked[j] in ranked;
    assert i != j ==> ranked[i] != ranked[j];
    assert i != j ==> !Tied(lt, ranked[i], ranked[j]);
  }

  lemma FilterSuffix<T(!new)>(p: T -> bool, s: seq<T>, i: nat)
    requires i <= |s| && forall j :: 0 <= j < |s| ==> p(s[j]) == (i <= j)
    ensures Filter(p, s) == s[i..]
  {
    assert s == s[..i] + s[i..];
    FilterConcat(p, s[..i], s[i..]);
    FilterNone(p, s[..i]);
    FilterAll(p, s[i..]);
  }

  lemma FilterPrefix<T(!new)>(p: T -> bool, s: seq<T>, i: nat)
    requires i <= |s| && forall j :: 0 <= j < |s| ==> p(s[j]) == (j < i)
    ensures Filter(p, s) == s[..i]
  {
    assert s == s[..i] + s[i..];
    FilterConcat(p, s[..i], s[i..]);
    FilterAll(p, s[..i]);
    FilterNone(p, s[i..]);
  }

  lemma RankedIsRanking(
    db: Database, env: Environment, table: string, filters: seq<Expression>, sorts: seq<SortBy>)
    requires Setting(db, env, table, filters, sorts) && NoDuplicates(env[table])
    ensures var ranked := Ranked(db, env, table, filters, sorts);
      IsRanking(db, Order(sorts), ranked) && forall row :: row in ranked ==> row in env[table]
  {
    var selected := Selected(db, env, table, filters);
    ByWeakOrder(db, Order(sorts));
    SortSorted(By(db, Order(sorts)), selected);
    SortMembership(By(db, Order(sorts)), selected);
    OrderDiscriminates(db, sorts, if sorts != [] && AllDesc(sorts) then Desc else Asc, env[table], selected);
    RankedNoDuplicates(db, env, table, filters, sorts);
  }

  /** Running the statement a clause compiles to; a clause that does not compile yields nothing. */
  function SqlPager(
    db: Database, env: Environment, table: string, filters: seq<Expression>, sorts: seq<SortBy>): Pager<Row>
  {
    (clause: KeySetPagingClause) =>
      match Statement(table, filters, sorts, clause)
      case Success(q) => EvalQuery(db, env, q)
      case Failure(_) => []
  }

  /** The compiled statements serve the pages of the ranking, so both walking laws apply to them. */
  lemma StatementsServePages(
    db: Database, env: Environment, table: string, filters: seq<Expression>, sorts: seq<SortBy>, n: nat)
    requires Setting(db, env, table, filters, sorts) && Supported(sorts) && NoDuplicates(env[table])
    ensures ServesPages(SqlPager(db, env, table, filters, sorts), Id, Ranked(db, env, table, filters, sorts), n)
  {
    var ranked := Ranked(db, env, table, filters, sorts);
    FirstShapes(db, env, table, filters, sorts, KeySetPagingClause(None, Forwards, n));
    forall i: nat | i < |ranked| ensures ServesBeside(SqlPager(db, env, table, filters, sorts), Id, ranked, n, i) {
      RankedIsRanking(db, env, table, filters, sorts);
      assert ranked[i] in ranked;
      RankingSplits(db, Order(sorts), ranked, i);
      ForwardShapes(db, env, table, filters, sorts, KeySetPagingClause(Some(Id(ranked[i])), Forwards, n), ranked[i]);
      BackwardShapes(db, env, table, filters, sorts, KeySetPagingClause(Some(Id(ranked[i])), Backwards, n), ranked[i]);
    }
  }

  /**
   Reading page after page with the compiled statements reads the whole ranked result, a page is
   empty only beyond its end, and the statement for the page before a page's first row returns
   the page read before it.
   */
  lemma WalkingTheStatements(
    db: Database, env: Environment, table: string, filters: seq<Expression>, sorts: seq<SortBy>, n: nat, k: nat)
    requires Setting(db, env, table, filters, sorts) && Supported(sorts) && NoDuplicates(env[table]) && n >= 1
    ensures var pager, ranked := SqlPager(db, env, table, filters, sorts), Ranked(db, env, table, filters, sorts);
      && PagesUpTo(pager, Id, n, k) == Take(k * n, ranked)
      && (k >= |ranked| ==> PagesUpTo(pager, Id, n, k) == ranked)
      && (PageAt(pager, Id, n, k) == [] <==> k * n >= |ranked|)
      && (k >= 1 && PageAt(pager, Id, n, k) != [] ==>
            pager(KeySetPagingClause(Some(Id(PageAt(pager, Id, n, k)[0])), Backwards, n))
            == PageAt(pager, Id, n, k - 1))
  {
    var pager, ranked := SqlPager(db, env, table, filters, sorts), Ranked(db, env, table, filters, sorts);
    StatementsServePages(db, env, table, filters, sorts, n);
    WalkReadsEverything(pager, Id, ranked, n, k);
    if k >= 1 && PageAt(pager, Id, n, k) != [] {
      WalkBackReturns(pager, Id, ranked, n, k);
    }
  }
}
