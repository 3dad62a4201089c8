/**
 Clause order and parameter order never drift apart: rendering with placeholders and filling
 them from the parameters, left to right, gives what rendering every constant in place gives.
 */
module RenderingLaws {
  import opened Prelude
  import opened Values
  import opened SqlQuery
  import opened Rendering
  import opened RenderedFragments

  // What a tree holds, in reading order.

  function QualifierLeaves(schema: Option<string>, table: Option<string>): seq<Leaf> {
    if schema.Some? && table.None? then [Fault(SchemaWithoutTable)] else []
  }

  function ExpressionLeaves(e: Expression): seq<Leaf>
    decreases e
  {
    match e
    case FunctionApplication(_, arguments) => ExpressionsLeaves(arguments)
    case Cast(expression, _) => ExpressionLeaves(expression)
    case ColumnReference(schema, table, _) => QualifierLeaves(schema, table)
    case Star(schema, table) => QualifierLeaves(schema, table)
    case Constant(value) => [Constantly(value)]
    case Raw(text) => [Verbatim(text)]
    case Condition(left, operator, right) =>
      if left.Some? && operator.Some? && right.Some? then
        OperandLeaves(left.value) + OperandLeaves(right.value)
      else [Fault(IncompleteCondition)]
  }

  function OperandLeaves(operand: Operand): seq<Leaf>
    decreases operand
  {
    match operand
    case Single(e) => ExpressionLeaves(e)
    case Several(es) => ExpressionsLeaves(es)
    case Subquery(q) => QueryLeaves(q)
  }

  function ExpressionsLeaves(es: seq<Expression>): seq<Leaf>
    decreases es
  {
    if es == [] then [] else ExpressionLeaves(es[0]) + ExpressionsLeaves(es[1..])
  }

  function TargetLeaves(target: ResultTarget): seq<Leaf>
    decreases target
  {
    ExpressionLeaves(target.expression)
  }

  function TargetsLeaves(targets: seq<ResultTarget>): seq<Leaf>
    decreases targets
  {
    if targets == [] then [] else TargetLeaves(targets[0]) + TargetsLeaves(targets[1..])
  }

  function SortLeaves(sort: SortBy): seq<Leaf>
    decreases sort
  {
    ExpressionLeaves(sort.expression)
  }

  function SortsLeaves(sorts: seq<SortBy>): seq<Leaf>
    decreases sorts
  {
    if sorts == [] then [] else SortLeaves(sorts[0]) + SortsLeaves(sorts[1..])
  }

  function NamedLeaves(named: seq<Named>): seq<Leaf>
    decreases named
  {
    if named == [] then [] else QueryLeaves(named[0].query) + NamedLeaves(named[1..])
  }

  function QueriesLeaves(queries: seq<Query>): seq<Leaf>
    decreases queries
  {
    if queries == [] then [] else QueryLeaves(queries[0]) + QueriesLeaves(queries[1..])
  }

  function UnionLeaves(union: Option<Union>): seq<Leaf>
    decreases union
  {
    match union
    case None => []
    case Some(Union(queries, _)) => QueriesLeaves(queries)
  }

  function QueryLeaves(q: Query): seq<Leaf>
    decreases q
  {
    NamedLeaves(q.commonTableExpressions)
    + (UnionLeaves(q.unions)
    + (TargetsLeaves(q.selectTargetList)
    + (NamedLeaves(q.fromSubqueries)
    + (ExpressionsLeaves(q.whereConditions)
    + (SortsLeaves(q.sortbyList)
    + (NumberLeaves(q.limitValue)
    + NumberLeaves(q.offsetValue)))))))
  }

  // The structural induction.

  lemma {:induction false} ExpressionAgrees(e: Expression)
    ensures BothAgree(RenderExpression(Placeholders, e), RenderExpression(InPlace, e), ExpressionLeaves(e))
    decreases e
  {
    match e
    case FunctionApplication(name, arguments) =>
      ExpressionsAgree(arguments);
      var ps, qs := RenderExpressions(Placeholders, arguments), RenderExpressions(InPlace, arguments);
      JoinedAgrees(ps, qs, Literal(", "), ExpressionsLeaves(arguments));
      WithinAgrees([Identifier(name), Literal("(")], Joined(ps, Literal(", ")), Joined(qs, Literal(", ")),
                   [Literal(")")], ExpressionsLeaves(arguments));
    case Cast(expression, typename) =>
      ExpressionAgrees(expression);
      WithinAgrees([Literal("CAST(")], RenderExpression(Placeholders, expression),
                   RenderExpression(InPlace, expression),
                   [Literal(" AS "), Identifier(typename), Literal(")")], ExpressionLeaves(expression));
    case ColumnReference(schema, table, field) => QualifiedAgrees(schema, table, Identifier(field));
    case Star(schema, table) => QualifiedAgrees(schema, table, Literal("*"));
    case Constant(value) =>
      AgreeParameter(value);
    case Raw(text) =>
      AgreeRaw(text);
    case Condition(left, operator, right) =>
      if left.Some? && operator.Some? && right.Some? {
        OperandAgrees(left.value);
        OperandAgrees(right.value);
        ComparisonAgrees(left.value, operator.value, right.value);
      }
  }

  lemma QualifiedAgrees(schema: Option<string>, table: Option<string>, name: Token)
    requires name != Hole
    ensures BothAgree(Qualified(schema, table, name), Qualified(schema, table, name), QualifierLeaves(schema, table))
  {
    if !(schema.Some? && table.None?) {
      AgreePlain(Qualified(schema, table, name).value.sql);
    }
  }

  lemma AgreeAround(
    p: Fragment, i: Fragment, a: seq<Leaf>, text: seq<Token>, p': Fragment, i': Fragment, b: seq<Leaf>)
    requires Agree(p, i, a) && Agree(p', i', b) && Hole !in text
    ensures Agree(Fragment(p.sql + text + p'.sql, p.params + p'.params),
                  Fragment(i.sql + text + i'.sql, i.params + i'.params), a + b)
  {
    AgreeWithin(text, p', i', [], b);
    AgreePlus(p, i, a, Fragment(text + p'.sql + [], p'.params), Fragment(text + i'.sql + [], i'.params), b);
    assert p.sql + text + p'.sql == p.sql + (text + p'.sql + []);
    assert i.sql + text + i'.sql == i.sql + (text + i'.sql + []);
  }

  lemma ComparisonAgrees(left: Operand, operator: Operator, right: Operand)
    requires BothAgree(RenderOperand(Placeholders, left), RenderOperand(InPlace, left), OperandLeaves(left))
    requires BothAgree(RenderOperand(Placeholders, right), RenderOperand(InPlace, right), OperandLeaves(right))
    ensures var e := Comparison(left, operator, right);
      BothAgree(RenderExpression(Placeholders, e), RenderExpression(InPlace, e), ExpressionLeaves(e))
  {
    LeavesConcat(OperandLeaves(left), OperandLeaves(right));
    if FirstFault(OperandLeaves(left) + OperandLeaves(right)) == None {
      var p, i := RenderOperand(Placeholders, left).value, RenderOperand(InPlace, left).value;
      var p', i' := RenderOperand(Placeholders, right).value, RenderOperand(InPlace, right).value;
      AgreeAround(p, i, OperandLeaves(left), [Literal(" " + OperatorText(operator) + " ")], p', i',
                  OperandLeaves(right));
    }
  }

  lemma OperandAgrees(operand: Operand)
    ensures BothAgree(RenderOperand(Placeholders, operand), RenderOperand(InPlace, operand), OperandLeaves(operand))
    decreases operand
  {
    match operand
    case Single(e) => ExpressionAgrees(e);
    case Several(es) =>
      ExpressionsAgree(es);
      var ps, qs := RenderExpressions(Placeholders, es), RenderExpressions(InPlace, es);
      JoinedAgrees(ps, qs, Literal(", "), ExpressionsLeaves(es));
      WithinAgrees([Literal("(")], Joined(ps, Literal(", ")), Joined(qs, Literal(", ")), [Literal(")")],
                   ExpressionsLeaves(es));
    case Subquery(q) =>
      QueryAgrees(q);
      WithinAgrees([Literal("(")], RenderQuery(Placeholders, q), RenderQuery(InPlace, q), [Literal(")")],
                   QueryLeaves(q));
  }

  lemma {:induction false} ExpressionsAgree(es: seq<Expression>)
    ensures BothAgreeEach(RenderExpressions(Placeholders, es), RenderExpressions(InPlace, es), ExpressionsLeaves(es))
    decreases es
  {
    if es != [] {
      ExpressionAgrees(es[0]);
      ExpressionsAgree(es[1..]);
      ConsAgrees(RenderExpression(Placeholders, es[0]), RenderExpression(InPlace, es[0]), ExpressionLeaves(es[0]),
                 RenderExpressions(Placeholders, es[1..]), RenderExpressions(InPlace, es[1..]),
                 ExpressionsLeaves(es[1..]));
    }
  }

  lemma FollowedAgrees(
    p: Result<Fragment, RenderError>, i: Result<Fragment, RenderError>, after: seq<Token>, leaves: seq<Leaf>)
    requires BothAgree(p, i, leaves) && Hole !in after
    ensures BothAgree(Followed(p, after), Followed(i, after), leaves)
  {
    WithinAgrees([], p, i, after, leaves);
    if FirstFault(leaves) == None {
      assert [] + p.value.sql + after == p.value.sql + after;
      assert [] + i.value.sql + after == i.value.sql + after;
    }
  }

  lemma TargetAgrees(target: ResultTarget)
    ensures BothAgree(RenderTarget(Placeholders, target), RenderTarget(InPlace, target), TargetLeaves(target))
    decreases target
  {
    var e := target.expression;
    ExpressionAgrees(e);
    if target.alias.Some? {
      FollowedAgrees(RenderExpression(Placeholders, e), RenderExpression(InPlace, e),
                     [Literal(" AS "), Identifier(target.alias.value)], TargetLeaves(target));
    }
  }

  lemma {:induction false} TargetsAgree(targets: seq<ResultTarget>)
    ensures BothAgreeEach(RenderTargets(Placeholders, targets), RenderTargets(InPlace, targets), TargetsLeaves(targets))
    decreases targets
  {
    if targets != [] {
      TargetAgrees(targets[0]);
      TargetsAgree(targets[1..]);
      ConsAgrees(RenderTarget(Placeholders, targets[0]), RenderTarget(InPlace, targets[0]), TargetLeaves(targets[0]),
                 RenderTargets(Placeholders, targets[1..]), RenderTargets(InPlace, targets[1..]),
                 TargetsLeaves(targets[1..]));
    }
  }

  lemma SortAgrees(sort: SortBy)
    ensures BothAgree(RenderSort(Placeholders, sort), RenderSort(InPlace, sort), SortLeaves(sort))
    decreases sort
  {
    var e := sort.expression;
    ExpressionAgrees(e);
    if sort.direction.Some? {
      assert sort.direction.value.Asc? || sort.direction.value.Desc?;
      FollowedAgrees(RenderExpression(Placeholders, e), RenderExpression(InPlace, e),
                   [Literal(if sort.direction.value.Asc? then " ASC" else " DESC")], SortLeaves(sort));
    }
  }

  lemma {:induction false} SortsAgree(sorts: seq<SortBy>)
    ensures BothAgreeEach(RenderSorts(Placeholders, sorts), RenderSorts(InPlace, sorts), SortsLeaves(sorts))
    decreases sorts
  {
    if sorts != [] {
      SortAgrees(sorts[0]);
      SortsAgree(sorts[1..]);
      ConsAgrees(RenderSort(Placeholders, sorts[0]), RenderSort(InPlace, sorts[0]), SortLeaves(sorts[0]),
                 RenderSorts(Placeholders, sorts[1..]), RenderSorts(InPlace, sorts[1..]), SortsLeaves(sorts[1..]));
    }
  }

  lemma {:induction false} NamedAgree(named: seq<Named>, nameFirst: bool)
    ensures BothAgreeEach(RenderNamed(Placeholders, named, nameFirst), RenderNamed(InPlace, named, nameFirst),
                          NamedLeaves(named))
    decreases named
  {
    if named != [] {
      QueryAgrees(named[0].query);
      NamedAgree(named[1..], nameFirst);
      var p, i := RenderQuery(Placeholders, named[0].query), RenderQuery(InPlace, named[0].query);
      var before := if nameFirst then [Identifier(named[0].name), Literal(" AS (")] else [Literal("(")];
      var after := if nameFirst then [Literal(")")] else [Literal(") AS "), Identifier(named[0].name)];
      WithinAgrees(before, p, i, after, QueryLeaves(named[0].query));
      ConsAgrees(Within(before, p, after), Within(before, i, after), QueryLeaves(named[0].query),
                 RenderNamed(Placeholders, named[1..], nameFirst), RenderNamed(InPlace, named[1..], nameFirst),
                 NamedLeaves(named[1..]));
    }
  }

  lemma {:induction false} QueriesAgree(queries: seq<Query>)
    ensures BothAgreeEach(RenderQueries(Placeholders, queries), RenderQueries(InPlace, queries), QueriesLeaves(queries))
    decreases queries
  {
    if queries != [] {
      QueryAgrees(queries[0]);
      QueriesAgree(queries[1..]);
      var p, i := RenderQuery(Placeholders, queries[0]), RenderQuery(InPlace, queries[0]);
      WithinAgrees([Literal("(")], p, i, [Literal(")")], QueryLeaves(queries[0]));
      ConsAgrees(Within([Literal("(")], p, [Literal(")")]), Within([Literal("(")], i, [Literal(")")]),
                 QueryLeaves(queries[0]),
                 RenderQueries(Placeholders, queries[1..]), RenderQueries(InPlace, queries[1..]),
                 QueriesLeaves(queries[1..]));
    }
  }

  lemma QueryAgrees(q: Query)
    ensures BothAgree(RenderQuery(Placeholders, q), RenderQuery(InPlace, q), QueryLeaves(q))
    decreases q
  {
    NamedAgree(q.commonTableExpressions, true);
    UnionAgrees(q.unions);
    TargetsAgree(q.selectTargetList);
    NamedAgree(q.fromSubqueries, false);
    ExpressionsAgree(q.whereConditions);
    SortsAgree(q.sortbyList);
    QueryAgreesFromParts(q);
  }

  lemma UnionAgrees(union: Option<Union>)
    ensures BothAgreeEach(RenderUnion(Placeholders, union), RenderUnion(InPlace, union), UnionLeaves(union))
    decreases union
  {
    match union
    case None =>
    case Some(Union(queries, _)) => QueriesAgree(queries);
  }

  /** The parts a query renders first, before it assembles its clauses. */
  datatype Parts = Parts(
    ctes: seq<Fragment>, united: seq<Fragment>, targets: seq<Fragment>, subqueries: seq<Fragment>,
    conditions: seq<Fragment>, sorts: seq<Fragment>)

  function ClausesOf(b: Binding, q: Query, parts: Parts): seq<Clause> {
    [ListClause("WITH ", ", ", parts.ctes), UnionClause(q.unions, parts.united),
     ListClause("SELECT ", ", ", parts.targets), ListClause("FROM ", ", ", TableNames(q.fromTables) + parts.subqueries),
     ListClause("WHERE ", " AND ", parts.conditions), ListClause("ORDER BY ", ", ", parts.sorts),
     NumberClause(b, "LIMIT ", q.limitValue), NumberClause(b, "OFFSET ", q.offsetValue)]
  }

  function ClauseLeaves(q: Query): seq<seq<Leaf>> {
    [NamedLeaves(q.commonTableExpressions), UnionLeaves(q.unions), TargetsLeaves(q.selectTargetList),
     NamedLeaves(q.fromSubqueries), ExpressionsLeaves(q.whereConditions), SortsLeaves(q.sortbyList),
     NumberLeaves(q.limitValue), NumberLeaves(q.offsetValue)]
  }

  lemma {:induction false} GatheredEight(cs: seq<Clause>)
    requires |cs| == 8
    ensures Gathered(cs) == cs[0].params + cs[1].params + cs[2].params + cs[3].params + cs[4].params + cs[5].params
                            + cs[6].params + cs[7].params
  {
    assert cs[1..][1..] == cs[2..] && cs[2..][1..] == cs[3..] && cs[3..][1..] == cs[4..] && cs[4..][1..] == cs[5..];
    assert cs[5..][1..] == cs[6..] && cs[6..][1..] == cs[7..] && cs[7..][1..] == [];
    assert Gathered(cs[7..]) == cs[7].params;
    assert Gathered(cs[6..]) == cs[6].params + cs[7].params;
    assert Gathered(cs[4..]) == cs[4].params + cs[5].params + cs[6].params + cs[7].params;
    assert Gathered(cs[2..]) == cs[2].params + cs[3].params + Gathered(cs[4..]);
  }

  lemma FlattenEight(ls: seq<seq<Leaf>>)
    requires |ls| == 8
    ensures Flatten(ls) == ls[0] + (ls[1] + (ls[2] + (ls[3] + (ls[4] + (ls[5] + (ls[6] + ls[7]))))))
  {
    assert ls[1..][1..] == ls[2..] && ls[2..][1..] == ls[3..] && ls[3..][1..] == ls[4..] && ls[4..][1..] == ls[5..];
    assert ls[5..][1..] == ls[6..] && ls[6..][1..] == ls[7..] && ls[7..][1..] == [];
    assert Flatten(ls[7..]) == ls[7];
    assert Flatten(ls[6..]) == ls[6] + ls[7];
    assert Flatten(ls[4..]) == ls[4] + (ls[5] + (ls[6] + ls[7]));
    assert Flatten(ls[2..]) == ls[2] + (ls[3] + Flatten(ls[4..]));
  }

  function PartsOf(b: Binding, q: Query): Result<Parts, RenderError> {
    var ctes :- RenderNamed(b, q.commonTableExpressions, true);
    var united :- RenderUnion(b, q.unions);
    var targets :- RenderTargets(b, q.selectTargetList);
    var subqueries :- RenderNamed(b, q.fromSubqueries, false);
    var conditions :- RenderExpressions(b, q.whereConditions);
    var sorts :- RenderSorts(b, q.sortbyList);
    Success(Parts(ctes, united, targets, subqueries, conditions, sorts))
  }

  lemma RenderFromParts(b: Binding, q: Query)
    ensures PartsOf(b, q).Failure? ==> RenderQuery(b, q) == Failure(PartsOf(b, q).error)
    ensures PartsOf(b, q).Success? ==>
      var clauses := ClausesOf(b, q, PartsOf(b, q).value);
      RenderQuery(b, q) == Success(Fragment(Join(Literal(" "), Present(clauses)), Gathered(clauses)))
  {
    if PartsOf(b, q).Success? {
      GatheredEight(ClausesOf(b, q, PartsOf(b, q).value));
    }
  }

  ghost predicate PartsAgree(q: Query) {
    && BothAgreeEach(RenderNamed(Placeholders, q.commonTableExpressions, true),
                     RenderNamed(InPlace, q.commonTableExpressions, true), NamedLeaves(q.commonTableExpressions))
    && BothAgreeEach(RenderUnion(Placeholders, q.unions), RenderUnion(InPlace, q.unions), UnionLeaves(q.unions))
    && BothAgreeEach(RenderTargets(Placeholders, q.selectTargetList), RenderTargets(InPlace, q.selectTargetList),
                     TargetsLeaves(q.selectTargetList))
    && BothAgreeEach(RenderNamed(Placeholders, q.fromSubqueries, false), RenderNamed(InPlace, q.fromSubqueries, false),
                     NamedLeaves(q.fromSubqueries))
    && BothAgreeEach(RenderExpressions(Placeholders, q.whereConditions), RenderExpressions(InPlace, q.whereConditions),
                     ExpressionsLeaves(q.whereConditions))
    && BothAgreeEach(RenderSorts(Placeholders, q.sortbyList), RenderSorts(InPlace, q.sortbyList),
                     SortsLeaves(q.sortbyList))
  }

  lemma PartsFault(q: Query)
    requires PartsAgree(q)
    ensures match FirstFault(QueryLeaves(q))
            case Some(error) => PartsOf(Placeholders, q) == Failure(error) && PartsOf(InPlace, q) == Failure(error)
            case None => PartsOf(Placeholders, q).Success? && PartsOf(InPlace, q).Success?
  {
    var numbers := NumberLeaves(q.limitValue) + NumberLeaves(q.offsetValue);
    var s := SortsLeaves(q.sortbyList) + numbers;
    var c := ExpressionsLeaves(q.whereConditions) + s;
    var f := NamedLeaves(q.fromSubqueries) + c;
    var t := TargetsLeaves(q.selectTargetList) + f;
    var u := UnionLeaves(q.unions) + t;
    assert QueryLeaves(q) == NamedLeaves(q.commonTableExpressions) + u;
    LeavesConcat(NamedLeaves(q.commonTableExpressions), u);
    LeavesConcat(UnionLeaves(q.unions), t);
    LeavesConcat(TargetsLeaves(q.selectTargetList), f);
    LeavesConcat(NamedLeaves(q.fromSubqueries), c);
    LeavesConcat(ExpressionsLeaves(q.whereConditions), s);
    LeavesConcat(SortsLeaves(q.sortbyList), numbers);
    LeavesConcat(NumberLeaves(q.limitValue), NumberLeaves(q.offsetValue));
    NumbersHaveNoFault(q.limitValue);
    NumbersHaveNoFault(q.offsetValue);
  }

  lemma NumbersHaveNoFault(number: Option<nat>)
    ensures FirstFault(NumberLeaves(number)) == None
  {
  }

  /** The k-th clauses of both renderings agree. */
  ghost predicate AgreeAt(q: Query, p: Parts, i: Parts, k: nat)
    requires k < 8
  {
    AgreeClause(ClausesOf(Placeholders, q, p)[k], ClausesOf(InPlace, q, i)[k], ClauseLeaves(q)[k])
  }

  lemma LimitClausesAgree(q: Query, p: Parts, i: Parts)
    ensures AgreeAt(q, p, i, 6) && AgreeAt(q, p, i, 7)
  {
    NumberClauseAgrees("LIMIT ", q.limitValue);
    NumberClauseAgrees("OFFSET ", q.offsetValue);
  }

  lemma ConditionsClauseAgrees(q: Query, p: Parts, i: Parts)
    requires AgreeEach(p.conditions, i.conditions, ExpressionsLeaves(q.whereConditions))
    ensures AgreeAt(q, p, i, 4)
  {
    ListClauseAgrees("WHERE ", " AND ", p.conditions, i.conditions, ExpressionsLeaves(q.whereConditions));
  }

  lemma SortsClauseAgrees(q: Query, p: Parts, i: Parts)
    requires AgreeEach(p.sorts, i.sorts, SortsLeaves(q.sortbyList))
    ensures AgreeAt(q, p, i, 5)
  {
    ListClauseAgrees("ORDER BY ", ", ", p.sorts, i.sorts, SortsLeaves(q.sortbyList));
  }

  lemma TargetsClauseAgrees(q: Query, p: Parts, i: Parts)
    requires AgreeEach(p.targets, i.targets, TargetsLeaves(q.selectTargetList))
    ensures AgreeAt(q, p, i, 2)
  {
    ListClauseAgrees("SELECT ", ", ", p.targets, i.targets, TargetsLeaves(q.selectTargetList));
  }

  lemma SourcesClauseAgrees(q: Query, p: Parts, i: Parts)
    requires AgreeEach(p.subqueries, i.subqueries, NamedLeaves(q.fromSubqueries))
    ensures AgreeAt(q, p, i, 3)
  {
    FromClauseAgrees(q.fromTables, p.subqueries, i.subqueries, NamedLeaves(q.fromSubqueries));
  }

  lemma UnitedClauseAgrees(q: Query, p: Parts, i: Parts)
    requires AgreeEach(p.united, i.united, UnionLeaves(q.unions))
    ensures AgreeAt(q, p, i, 1)
  {
    UnionClauseAgrees(q.unions, p.united, i.united, UnionLeaves(q.unions));
  }

  lemma CommonTablesClauseAgrees(q: Query, p: Parts, i: Parts)
    requires AgreeEach(p.ctes, i.ctes, NamedLeaves(q.commonTableExpressions))
    ensures AgreeAt(q, p, i, 0)
  {
    ListClauseAgrees("WITH ", ", ", p.ctes, i.ctes, NamedLeaves(q.commonTableExpressions));
  }

  lemma FirstClausesAgree(q: Query, p: Parts, i: Parts)
    requires AgreeEach(p.ctes, i.ctes, NamedLeaves(q.commonTableExpressions))
    requires AgreeEach(p.united, i.united, UnionLeaves(q.unions))
    requires AgreeEach(p.targets, i.targets, TargetsLeaves(q.selectTargetList))
    requires AgreeEach(p.subqueries, i.subqueries, NamedLeaves(q.fromSubqueries))
    ensures forall k :: 0 <= k < 4 ==> AgreeAt(q, p, i, k)
  {
    forall k | 0 <= k < 4 ensures AgreeAt(q, p, i, k) {
      match k
      case 0 => CommonTablesClauseAgrees(q, p, i);
      case 1 => UnitedClauseAgrees(q, p, i);
      case 2 => TargetsClauseAgrees(q, p, i);
      case _ => SourcesClauseAgrees(q, p, i);
    }
  }

  lemma LastClausesAgree(q: Query, p: Parts, i: Parts)
    requires AgreeEach(p.conditions, i.conditions, ExpressionsLeaves(q.whereConditions))
    requires AgreeEach(p.sorts, i.sorts, SortsLeaves(q.sortbyList))
    ensures forall k :: 4 <= k < 8 ==> AgreeAt(q, p, i, k)
  {
    forall k | 4 <= k < 8 ensures AgreeAt(q, p, i, k) {
      match k
      case 4 => ConditionsClauseAgrees(q, p, i);
      case 5 => SortsClauseAgrees(q, p, i);
      case _ => LimitClausesAgree(q, p, i);
    }
  }

  lemma ClausesAgreeAt(q: Query, p: Parts, i: Parts)
    requires forall k :: 0 <= k < 8 ==> AgreeAt(q, p, i, k)
    ensures AgreeAll(ClausesOf(Placeholders, q, p), ClausesOf(InPlace, q, i), ClauseLeaves(q))
  {
    var ps, qs, leaves := ClausesOf(Placeholders, q, p), ClausesOf(InPlace, q, i), ClauseLeaves(q);
    forall k | 0 <= k < |ps| ensures AgreeClause(ps[k], qs[k], leaves[k]) {
      assert AgreeAt(q, p, i, k);
    }
    AgreeAllOf(ps, qs, leaves);
  }

  lemma EachPartAgrees(q: Query)
    requires PartsAgree(q) && FirstFault(QueryLeaves(q)) == None
    requires PartsOf(Placeholders, q).Success? && PartsOf(InPlace, q).Success?
    ensures var p, i := PartsOf(Placeholders, q).value, PartsOf(InPlace, q).value;
      && AgreeEach(p.ctes, i.ctes, NamedLeaves(q.commonTableExpressions))
      && AgreeEach(p.united, i.united, UnionLeaves(q.unions))
      && AgreeEach(p.targets, i.targets, TargetsLeaves(q.selectTargetList))
      && AgreeEach(p.subqueries, i.subqueries, NamedLeaves(q.fromSubqueries))
      && AgreeEach(p.conditions, i.conditions, ExpressionsLeaves(q.whereConditions))
      && AgreeEach(p.sorts, i.sorts, SortsLeaves(q.sortbyList))
  {
  }

  lemma QueryAgreesFromParts(q: Query)
    requires PartsAgree(q)
    ensures BothAgree(RenderQuery(Placeholders, q), RenderQuery(InPlace, q), QueryLeaves(q))
  {
    PartsFault(q);
    RenderFromParts(Placeholders, q);
    RenderFromParts(InPlace, q);
    if FirstFault(QueryLeaves(q)) == None {
      var p, i := PartsOf(Placeholders, q).value, PartsOf(InPlace, q).value;
      EachPartAgrees(q);
      FirstClausesAgree(q, p, i);
      LastClausesAgree(q, p, i);
      ClausesAgreeAt(q, p, i);
      AgreeAssembled(ClausesOf(Placeholders, q, p), ClausesOf(InPlace, q, i), ClauseLeaves(q));
      FlattenEight(ClauseLeaves(q));
    }
  }

  // The laws.

  /** Rendering fails exactly when some node is defective, with the error of the first one met. */
  lemma RendersUnlessFaulty(q: Query)
    ensures match FirstFault(QueryLeaves(q))
            case Some(error) => RenderQuery(Placeholders, q) == Failure(error)
            case None => RenderQuery(Placeholders, q).Success?
  {
    QueryAgrees(q);
  }

  /** Parameters are the constants of the tree in reading order, one for every placeholder of its own. */
  lemma EveryPlaceholderHasItsParameter(q: Query)
    requires RenderQuery(Placeholders, q).Success?
    ensures var f := RenderQuery(Placeholders, q).value;
      && f.params == Constants(QueryLeaves(q))
      && Holes(f.sql) == |f.params| + RawHoles(QueryLeaves(q))
      && (Holes(f.sql) == |f.params| <==> RawHoles(QueryLeaves(q)) == 0)
  {
    QueryAgrees(q);
  }

  /** Binding parameters to placeholders from left to right writes every constant where it stands. */
  lemma FillingIsRenderingInPlace(q: Query)
    requires RenderQuery(Placeholders, q).Success? && RawHoles(QueryLeaves(q)) == 0
    ensures var f := RenderQuery(Placeholders, q).value;
      RenderQuery(InPlace, q) == Success(Fragment(Fill(f.sql, f.params), []))
  {
    QueryAgrees(q);
  }
}