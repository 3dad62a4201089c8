/**
 What rendering writes, word by word: the text of a tree without raw text, its constants in
 place, is the phrase the grammar has for that tree.
 */
module Wording {
  import opened Prelude
  import opened Values
  import opened SqlQuery
  import opened Rendering
  import opened RenderedFragments
  import opened RenderingLaws
  import opened SqlReader

  // Trees whose text can be read back.

  /**
   Without raw text and complete. The rest is what the text does not tell: it has no parentheses
   around a comparison inside a comparison, writes a blank query like an empty list, leaves an
   empty union out and shows no kind of union where there is only one query.
   */
  predicate Readable(e: Expression)
    decreases e
  {
    match e
    case FunctionApplication(_, arguments) => AllReadable(arguments)
    case Cast(expression, _) => Readable(expression)
    case ColumnReference(schema, table, _) => schema.None? || table.Some?
    case Star(schema, table) => schema.None? || table.Some?
    case Constant(_) => true
    case Raw(_) => false
    case Condition(left, operator, right) =>
      left.Some? && operator.Some? && right.Some? && ReadableOperand(left.value) && ReadableOperand(right.value)
  }

  predicate ReadableOperand(operand: Operand)
    decreases operand
  {
    match operand
    case Single(e) => Readable(e) && !e.Condition?
    case Several(es) => AllReadable(es)
    case Subquery(q) => ReadableQuery(q) && q != EMPTY_QUERY
  }

  predicate AllReadable(es: seq<Expression>)
    decreases es
  {
    forall i :: 0 <= i < |es| ==> Readable(es[i])
  }

  predicate ReadableUnion(union: Union)
    decreases union
  {
    && union.queries != [] && (|union.queries| == 1 ==> union.mode == All)
    && forall i :: 0 <= i < |union.queries| ==> ReadableQuery(union.queries[i])
  }

  predicate ReadableNamed(named: seq<Named>)
    decreases named
  {
    forall i :: 0 <= i < |named| ==> ReadableQuery(named[i].query)
  }

  predicate ReadableTargets(targets: seq<ResultTarget>)
    decreases targets
  {
    forall i :: 0 <= i < |targets| ==> ReadableTarget(targets[i])
  }

  predicate ReadableTarget(target: ResultTarget)
    decreases target
  {
    Readable(target.expression)
  }

  predicate ReadableSorts(sorts: seq<SortBy>)
    decreases sorts
  {
    forall i :: 0 <= i < |sorts| ==> ReadableSort(sorts[i])
  }

  predicate ReadableSort(sort: SortBy)
    decreases sort
  {
    Readable(sort.expression)
  }

  predicate ReadableQuery(q: Query)
    decreases q
  {
    && ReadableNamed(q.commonTableExpressions) && (q.unions.Some? ==> ReadableUnion(q.unions.value))
    && ReadableTargets(q.selectTargetList) && ReadableNamed(q.fromSubqueries)
    && AllReadable(q.whereConditions) && ReadableSorts(q.sortbyList)
  }

  // Phrases.

  function JoinWords(separator: Word, phrases: seq<seq<Word>>): seq<Word> {
    if phrases == [] then []
    else if |phrases| == 1 then phrases[0]
    else phrases[0] + [separator] + JoinWords(separator, phrases[1..])
  }

  function Qualifiers(schema: Option<string>, table: Option<string>): seq<Word> {
    (if schema.Some? then [Name(schema.value), Dot] else []) + if table.Some? then [Name(table.value), Dot] else []
  }

  function ExpressionWords(e: Expression): seq<Word>
    decreases e
  {
    match e
    case FunctionApplication(name, arguments) =>
      [Name(name), Open] + JoinWords(Separated(Comma), ExpressionPhrases(arguments)) + [Close]
    case Cast(expression, typename) => [CastOpen] + ExpressionWords(expression) + [As, Name(typename), Close]
    case ColumnReference(schema, table, field) => Qualifiers(schema, table) + [Name(field)]
    case Star(schema, table) => Qualifiers(schema, table) + [Asterisk]
    case Constant(value) => [SqlReader.Value(value)]
    case Condition(Some(left), Some(operator), Some(right)) =>
      OperandWords(left) + [Sign(operator)] + OperandWords(right)
    case _ => []
  }

  function OperandWords(operand: Operand): seq<Word>
    decreases operand
  {
    match operand
    case Single(e) => ExpressionWords(e)
    case Several(es) => [Open] + JoinWords(Separated(Comma), ExpressionPhrases(es)) + [Close]
    case Subquery(q) => [Open] + QueryWords(q) + [Close]
  }

  function ExpressionPhrases(es: seq<Expression>): (r: seq<seq<Word>>)
    ensures |r| == |es|
    decreases es
  {
    if es == [] then [] else [ExpressionWords(es[0])] + ExpressionPhrases(es[1..])
  }

  function TargetWords(target: ResultTarget): seq<Word>
    decreases target
  {
    ExpressionWords(target.expression) + if target.alias.Some? then [As, Name(target.alias.value)] else []
  }

  function TargetPhrases(targets: seq<ResultTarget>): (r: seq<seq<Word>>)
    ensures |r| == |targets|
    decreases targets
  {
    if targets == [] then [] else [TargetWords(targets[0])] + TargetPhrases(targets[1..])
  }

  function SortWords(sort: SortBy): seq<Word>
    decreases sort
  {
    ExpressionWords(sort.expression) + if sort.direction.Some? then [Sorted(sort.direction.value)] else []
  }

  function SortPhrases(sorts: seq<SortBy>): (r: seq<seq<Word>>)
    ensures |r| == |sorts|
    decreases sorts
  {
    if sorts == [] then [] else [SortWords(sorts[0])] + SortPhrases(sorts[1..])
  }

  function CommonTablePhrases(named: seq<Named>): (r: seq<seq<Word>>)
    ensures |r| == |named|
    decreases named
  {
    if named == [] then []
    else
      [[Name(named[0].name), AsOpen] + QueryWords(named[0].query) + [Close]] + CommonTablePhrases(named[1..])
  }

  function SubqueryPhrases(named: seq<Named>): (r: seq<seq<Word>>)
    ensures |r| == |named|
    decreases named
  {
    if named == [] then []
    else
      [[Open] + QueryWords(named[0].query) + [CloseAs, Name(named[0].name)]] + SubqueryPhrases(named[1..])
  }

  function TablePhrases(tables: seq<string>): (r: seq<seq<Word>>)
    ensures |r| == |tables|
  {
    if tables == [] then [] else [[Name(tables[0])]] + TablePhrases(tables[1..])
  }

  function QueryPhrases(queries: seq<Query>): (r: seq<seq<Word>>)
    ensures |r| == |queries|
    decreases queries
  {
    if queries == [] then [] else [[Open] + QueryWords(queries[0]) + [Close]] + QueryPhrases(queries[1..])
  }

  function UnionWords(union: Option<Union>): seq<Word>
    decreases union
  {
    match union
    case None => []
    case Some(Union(queries, mode)) => JoinWords(United(mode), QueryPhrases(queries))
  }

  /** A clause that lists nothing is left out. */
  function ClauseWords(clause: Clausal, separator: Separator, phrases: seq<seq<Word>>): seq<Word> {
    if phrases == [] then [] else [Clausal(clause)] + JoinWords(Separated(separator), phrases)
  }

  function NumberWords(clause: Clausal, number: Option<nat>): seq<Word> {
    if number.None? then [] else [Clausal(clause), SqlReader.Value(Number(number.value))]
  }

  /** The clauses of a query in order; those left out have no words. */
  function QueryClauses(q: Query): (r: seq<seq<Word>>)
    ensures |r| == 8
    decreases q, 0
  {
    [ClauseWords(With, Comma, CommonTablePhrases(q.commonTableExpressions)),
     UnionWords(q.unions),
     ClauseWords(Select, Comma, TargetPhrases(q.selectTargetList)),
     ClauseWords(From, Comma, TablePhrases(q.fromTables) + SubqueryPhrases(q.fromSubqueries)),
     ClauseWords(Where, And, ExpressionPhrases(q.whereConditions)),
     ClauseWords(OrderBy, Comma, SortPhrases(q.sortbyList)),
     NumberWords(Limit, q.limitValue),
     NumberWords(Offset, q.offsetValue)]
  }

  /** Clauses with a space between any two, and before the first once another has `started`. */
  function Spaced(started: bool, clauses: seq<seq<Word>>): seq<Word>
    decreases |clauses|
  {
    if clauses == [] then []
    else if clauses[0] == [] then Spaced(started, clauses[1..])
    else (if started then [Space] else []) + clauses[0] + Spaced(true, clauses[1..])
  }

  function QueryWords(q: Query): seq<Word>
    decreases q, 1
  {
    Spaced(false, QueryClauses(q))
  }

  // The marks and keywords of the rendered text are those of the grammar.

  lemma ListMarks()
    ensures WordOf(Literal(", ")) == Separated(Comma) && WordOf(Literal(" AND ")) == Separated(And)
    ensures WordOf(Literal(".")) == Dot && WordOf(Literal("*")) == Asterisk
  {
  }

  lemma ParenthesisMarks()
    ensures WordOf(Literal("(")) == Open && WordOf(Literal(")")) == Close
    ensures WordOf(Literal("CAST(")) == CastOpen && WordOf(Literal(" AS (")) == AsOpen
  {
  }

  lemma AliasMarks()
    ensures WordOf(Literal(") AS ")) == CloseAs && WordOf(Literal(" AS ")) == As
    ensures WordOf(Literal(" ")) == Space
  {
  }

  lemma DirectionMarks()
    ensures WordOf(Literal(" ASC")) == Sorted(Asc) && WordOf(Literal(" DESC")) == Sorted(Desc)
  {
  }

  lemma UnionMarks()
    ensures WordOf(Literal(" UNION ALL ")) == United(All) && WordOf(Literal(" UNION DISTINCT ")) == United(Distinct)
  {
  }

  lemma Keywords()
    ensures WordOf(Literal("WITH ")) == Clausal(With) && WordOf(Literal("SELECT ")) == Clausal(Select)
    ensures WordOf(Literal("FROM ")) == Clausal(From) && WordOf(Literal("WHERE ")) == Clausal(Where)
    ensures WordOf(Literal("ORDER BY ")) == Clausal(OrderBy)
    ensures WordOf(Literal("LIMIT ")) == Clausal(Limit) && WordOf(Literal("OFFSET ")) == Clausal(Offset)
  {
  }

  lemma SignsRead(operator: Operator)
    ensures WordOf(Literal(" " + OperatorText(operator) + " ")) == Sign(operator)
  {
    match operator
    case Equals => assert " " + "=" + " " == " = ";
    case NotEquals => assert " " + "!=" + " " == " != ";
    case GreaterThan => assert " " + ">" + " " == " > ";
    case GreaterThanOrEqual => assert " " + ">=" + " " == " >= ";
    case LessThan => assert " " + "<" + " " == " < ";
    case LessThanOrEqual => assert " " + "<=" + " " == " <= ";
    case In => assert " " + "IN" + " " == " IN ";
    case Contains => assert " " + "@>" + " " == " @> ";
    case RegexMatches => assert " " + "~" + " " == " ~ ";
    case NotRegexMatches => assert " " + "!~" + " " == " !~ ";
    case IsNull => assert " " + "IS NULL" + " " == " IS NULL ";
    case IsNotNull => assert " " + "IS NOT NULL" + " " == " IS NOT NULL ";
  }

  // From fragments to phrases.

  lemma WordsConcat(a: seq<Token>, b: seq<Token>)
    ensures Words(a + b) == Words(a) + Words(b)
  {
  }

  lemma WordsAround(before: seq<Token>, sql: seq<Token>, after: seq<Token>)
    ensures Words(before + sql + after) == Words(before) + Words(sql) + Words(after)
  {
    WordsConcat(before, sql);
    WordsConcat(before + sql, after);
  }

  lemma WordsOfOne(token: Token)
    ensures Words([token]) == [WordOf(token)]
  {
  }

  /** Fragment by fragment, the phrases. */
  ghost predicate Phrased(fragments: seq<Fragment>, phrases: seq<seq<Word>>) {
    |fragments| == |phrases| && forall i :: 0 <= i < |phrases| ==> Words(fragments[i].sql) == phrases[i]
  }

  lemma {:induction false} JoinPhrased(separator: Token, fragments: seq<Fragment>, phrases: seq<seq<Word>>)
    requires Phrased(fragments, phrases)
    ensures Words(Join(separator, Sqls(fragments))) == JoinWords(WordOf(separator), phrases)
  {
    if |fragments| > 1 {
      JoinPhrased(separator, fragments[1..], phrases[1..]);
      JoinCons(separator, fragments);
      WordsConcat([] + fragments[0].sql + [separator], Join(separator, Sqls(fragments[1..])));
      WordsAround([], fragments[0].sql, [separator]);
      WordsOfOne(separator);
    } else if |fragments| == 1 {
      assert Sqls(fragments) == [fragments[0].sql];
    }
  }

  ghost predicate Renders(r: Result<Fragment, RenderError>, words: seq<Word>) {
    r.Success? && Words(r.value.sql) == words
  }

  ghost predicate RendersEach(r: Result<seq<Fragment>, RenderError>, phrases: seq<seq<Word>>) {
    r.Success? && Phrased(r.value, phrases)
  }

  lemma {:induction false} ExpressionRendered(e: Expression)
    requires Readable(e)
    ensures Renders(RenderExpression(InPlace, e), ExpressionWords(e))
    decreases e
  {
    match e
    case FunctionApplication(name, arguments) =>
      ExpressionsRendered(arguments);
      FunctionRendered(name, RenderExpressions(InPlace, arguments).value, ExpressionPhrases(arguments));
    case Cast(expression, typename) =>
      ExpressionRendered(expression);
      CastRendered(RenderExpression(InPlace, expression).value, typename);
    case ColumnReference(schema, table, field) => QualifiedRendered(schema, table, Identifier(field));
    case Star(schema, table) =>
      ListMarks();
      QualifiedRendered(schema, table, Literal("*"));
    case Constant(value) => WordsOfOne(Bound(value));
    case Condition(left, operator, right) =>
      OperandRendered(left.value);
      OperandRendered(right.value);
      ComparisonRendered(RenderOperand(InPlace, left.value).value, operator.value,
                         RenderOperand(InPlace, right.value).value);
  }

  lemma FunctionRendered(name: string, parts: seq<Fragment>, phrases: seq<seq<Word>>)
    requires Phrased(parts, phrases)
    ensures Words([Identifier(name), Literal("(")] + Join(Literal(", "), Sqls(parts)) + [Literal(")")])
         == [Name(name), Open] + JoinWords(Separated(Comma), phrases) + [Close]
  {
    ListMarks();
    ParenthesisMarks();
    JoinPhrased(Literal(", "), parts, phrases);
    WordsAround([Identifier(name), Literal("(")], Join(Literal(", "), Sqls(parts)), [Literal(")")]);
    WordsConcat([Identifier(name)], [Literal("(")]);
    assert [Identifier(name), Literal("(")] == [Identifier(name)] + [Literal("(")];
    WordsOfOne(Identifier(name));
    WordsOfOne(Literal("("));
    WordsOfOne(Literal(")"));
  }

  lemma ListRendered(parts: seq<Fragment>, phrases: seq<seq<Word>>)
    requires Phrased(parts, phrases)
    ensures Words([Literal("(")] + Join(Literal(", "), Sqls(parts)) + [Literal(")")])
         == [Open] + JoinWords(Separated(Comma), phrases) + [Close]
  {
    ListMarks();
    ParenthesisMarks();
    JoinPhrased(Literal(", "), parts, phrases);
    WordsAround([Literal("(")], Join(Literal(", "), Sqls(parts)), [Literal(")")]);
    WordsOfOne(Literal("("));
    WordsOfOne(Literal(")"));
  }

  lemma CastRendered(inner: Fragment, typename: string)
    ensures Words([Literal("CAST(")] + inner.sql + [Literal(" AS "), Identifier(typename), Literal(")")])
         == [CastOpen] + Words(inner.sql) + [As, Name(typename), Close]
  {
    ParenthesisMarks();
    AliasMarks();
    WordsAround([Literal("CAST(")], inner.sql, [Literal(" AS "), Identifier(typename), Literal(")")]);
  }

  lemma QualifiedRendered(schema: Option<string>, table: Option<string>, name: Token)
    requires schema.None? || table.Some?
    ensures Renders(Qualified(schema, table, name), Qualifiers(schema, table) + [WordOf(name)])
  {
    ListMarks();
  }

  lemma ComparisonRendered(left: Fragment, operator: Operator, right: Fragment)
    ensures Words(left.sql + [Literal(" " + OperatorText(operator) + " ")] + right.sql)
         == Words(left.sql) + [Sign(operator)] + Words(right.sql)
  {
    SignsRead(operator);
    WordsAround(left.sql, [Literal(" " + OperatorText(operator) + " ")], right.sql);
    WordsOfOne(Literal(" " + OperatorText(operator) + " "));
  }

  lemma {:induction false} OperandRendered(operand: Operand)
    requires ReadableOperand(operand)
    ensures Renders(RenderOperand(InPlace, operand), OperandWords(operand))
    decreases operand
  {
    match operand
    case Single(e) => ExpressionRendered(e);
    case Several(es) =>
      ExpressionsRendered(es);
      ListRendered(RenderExpressions(InPlace, es).value, ExpressionPhrases(es));
    case Subquery(q) =>
      QueryRendered(q);
      ParenthesisedRendered(RenderQuery(InPlace, q).value);
  }

  lemma ParenthesisedRendered(inner: Fragment)
    ensures Words([Literal("(")] + inner.sql + [Literal(")")]) == [Open] + Words(inner.sql) + [Close]
  {
    ParenthesisMarks();
    WordsAround([Literal("(")], inner.sql, [Literal(")")]);
    WordsOfOne(Literal("("));
    WordsOfOne(Literal(")"));
  }

  lemma {:induction false} ExpressionsRendered(es: seq<Expression>)
    requires AllReadable(es)
    ensures RendersEach(RenderExpressions(InPlace, es), ExpressionPhrases(es))
    decreases es
  {
    if es != [] {
      ExpressionRendered(es[0]);
      ExpressionsRendered(es[1..]);
    }
  }

  lemma {:induction false} TargetRendered(target: ResultTarget)
    requires ReadableTarget(target)
    ensures Renders(RenderTarget(InPlace, target), TargetWords(target))
    decreases target
  {
    ExpressionRendered(target.expression);
    if target.alias.Some? {
      AliasMarks();
      WordsConcat(RenderExpression(InPlace, target.expression).value.sql,
                  [Literal(" AS "), Identifier(target.alias.value)]);
    }
  }

  lemma {:induction false} TargetsRendered(targets: seq<ResultTarget>)
    requires ReadableTargets(targets)
    ensures RendersEach(RenderTargets(InPlace, targets), TargetPhrases(targets))
    decreases targets
  {
    if targets != [] {
      TargetRendered(targets[0]);
      TargetsRendered(targets[1..]);
    }
  }

  lemma {:induction false} SortRendered(sort: SortBy)
    requires ReadableSort(sort)
    ensures Renders(RenderSort(InPlace, sort), SortWords(sort))
    decreases sort
  {
    ExpressionRendered(sort.expression);
    if sort.direction.Some? {
      DirectionRendered(RenderExpression(InPlace, sort.expression).value.sql, sort.direction.value);
    }
  }

  lemma DirectionRendered(sql: seq<Token>, direction: SortDirection)
    ensures Words(sql + [Literal(if direction == Asc then " ASC" else " DESC")]) == Words(sql) + [Sorted(direction)]
  {
    DirectionMarks();
    WordsConcat(sql, [Literal(if direction == Asc then " ASC" else " DESC")]);
    WordsOfOne(Literal(if direction == Asc then " ASC" else " DESC"));
  }

  lemma {:induction false} SortsRendered(sorts: seq<SortBy>)
    requires ReadableSorts(sorts)
    ensures RendersEach(RenderSorts(InPlace, sorts), SortPhrases(sorts))
    decreases sorts
  {
    if sorts != [] {
      SortRendered(sorts[0]);
      SortsRendered(sorts[1..]);
    }
  }

  lemma CommonTableRendered(name: string, inner: Fragment)
    ensures Words([Identifier(name), Literal(" AS (")] + inner.sql + [Literal(")")])
         == [Name(name), AsOpen] + Words(inner.sql) + [Close]
  {
    ParenthesisMarks();
    WordsAround([Identifier(name), Literal(" AS (")], inner.sql, [Literal(")")]);
  }

  lemma SubqueryRendered(name: string, inner: Fragment)
    ensures Words([Literal("(")] + inner.sql + [Literal(") AS "), Identifier(name)])
         == [Open] + Words(inner.sql) + [CloseAs, Name(name)]
  {
    ParenthesisMarks();
    AliasMarks();
    WordsAround([Literal("(")], inner.sql, [Literal(") AS "), Identifier(name)]);
  }

  lemma {:induction false} CommonTablesRendered(named: seq<Named>)
    requires ReadableNamed(named)
    ensures RendersEach(RenderNamed(InPlace, named, true), CommonTablePhrases(named))
    decreases named
  {
    if named != [] {
      QueryRendered(named[0].query);
      CommonTableRendered(named[0].name, RenderQuery(InPlace, named[0].query).value);
      CommonTablesRendered(named[1..]);
    }
  }

  lemma {:induction false} SubqueriesRendered(named: seq<Named>)
    requires ReadableNamed(named)
    ensures RendersEach(RenderNamed(InPlace, named, false), SubqueryPhrases(named))
    decreases named
  {
    if named != [] {
      QueryRendered(named[0].query);
      SubqueryRendered(named[0].name, RenderQuery(InPlace, named[0].query).value);
      SubqueriesRendered(named[1..]);
    }
  }

  lemma {:induction false} QueriesRendered(queries: seq<Query>)
    requires forall i :: 0 <= i < |queries| ==> ReadableQuery(queries[i])
    ensures RendersEach(RenderQueries(InPlace, queries), QueryPhrases(queries))
    decreases queries
  {
    if queries != [] {
      QueryRendered(queries[0]);
      ParenthesisedRendered(RenderQuery(InPlace, queries[0]).value);
      QueriesRendered(queries[1..]);
    }
  }

  lemma {:induction false} TablesRendered(tables: seq<string>)
    ensures Phrased(TableNames(tables), TablePhrases(tables))
  {
    if tables != [] {
      TablesRendered(tables[1..]);
      WordsOfOne(Identifier(tables[0]));
    }
  }

  // Clauses.

  /** A clause that is there has words. */
  ghost predicate Worded(clause: Clause, words: seq<Word>) {
    if clause.sql.None? then words == [] else words != [] && Words(clause.sql.value) == words
  }

  ghost predicate AllWorded(clauses: seq<Clause>, phrases: seq<seq<Word>>) {
    |clauses| == |phrases| && forall i :: 0 <= i < |clauses| ==> Worded(clauses[i], phrases[i])
  }

  lemma ListClauseWorded(
    keyword: string, separator: string, parts: seq<Fragment>, clause: Clausal, within: Separator,
    phrases: seq<seq<Word>>)
    requires Phrased(parts, phrases)
    requires WordOf(Literal(keyword)) == Clausal(clause) && WordOf(Literal(separator)) == Separated(within)
    ensures Worded(ListClause(keyword, separator, parts), ClauseWords(clause, within, phrases))
  {
    if parts != [] {
      JoinPhrased(Literal(separator), parts, phrases);
      WordsConcat([Literal(keyword)], Join(Literal(separator), Sqls(parts)));
      WordsOfOne(Literal(keyword));
    }
  }

  lemma UnionClauseWorded(union: Option<Union>, parts: seq<Fragment>)
    requires union.Some? ==> Phrased(parts, QueryPhrases(union.value.queries)) && union.value.queries != []
    ensures Worded(UnionClause(union, parts), UnionWords(union))
  {
    if union.Some? {
      UnionMarks();
      var separator := Literal(if union.value.mode == Distinct then " UNION DISTINCT " else " UNION ALL ");
      JoinPhrased(separator, parts, QueryPhrases(union.value.queries));
      assert WordOf(separator) == United(union.value.mode);
      assert QueryPhrases(union.value.queries)[0][0] == Open;
      JoinStarts(United(union.value.mode), QueryPhrases(union.value.queries));
    }
  }

  /** A joined text starts with its first part. */
  lemma JoinStarts(separator: Word, phrases: seq<seq<Word>>)
    requires phrases != [] && phrases[0] != []
    ensures JoinWords(separator, phrases) != [] && JoinWords(separator, phrases)[0] == phrases[0][0]
  {
  }

  lemma NumberClauseWorded(keyword: string, clause: Clausal, number: Option<nat>)
    requires WordOf(Literal(keyword)) == Clausal(clause)
    ensures Worded(NumberClause(InPlace, keyword, number), NumberWords(clause, number))
  {
    if number.Some? {
      WordsConcat([Literal(keyword)], [Bound(Number(number.value))]);
      WordsOfOne(Literal(keyword));
      WordsOfOne(Bound(Number(number.value)));
    }
  }

  /** Joining the clauses that are there with spaces gives the spaced phrases. */
  lemma {:induction false} JoinSpaced(clauses: seq<Clause>, phrases: seq<seq<Word>>)
    requires AllWorded(clauses, phrases)
    ensures Spaced(false, phrases) == Words(Join(Literal(" "), Present(clauses)))
    ensures Spaced(true, phrases) == (if Present(clauses) == [] then [] else [Space]) + Spaced(false, phrases)
    decreases |clauses|
  {
    if clauses != [] {
      var others, words := Present(clauses[1..]), Spaced(false, phrases[1..]);
      assert Worded(clauses[0], phrases[0]);
      JoinSpaced(clauses[1..], phrases[1..]);
      if clauses[0].sql.Some? {
        SpacedStep(clauses[0].sql.value, others, words);
        PresentStep(clauses, phrases);
      } else {
        assert Present(clauses) == others;
      }
    }
  }

  lemma PresentStep(clauses: seq<Clause>, phrases: seq<seq<Word>>)
    requires clauses != [] && phrases != [] && clauses[0].sql.Some? && phrases[0] != []
    requires Spaced(true, phrases[1..])
          == (if Present(clauses[1..]) == [] then [] else [Space]) + Spaced(false, phrases[1..])
    ensures Present(clauses) == [clauses[0].sql.value] + Present(clauses[1..])
    ensures Spaced(false, phrases)
         == phrases[0] + (if Present(clauses[1..]) == [] then [] else [Space]) + Spaced(false, phrases[1..])
    ensures Spaced(true, phrases) == [Space] + Spaced(false, phrases)
  {
    SpacedFirst(phrases, Spaced(true, phrases[1..]));
  }

  lemma SpacedFirst(phrases: seq<seq<Word>>, others: seq<Word>)
    requires phrases != [] && phrases[0] != [] && others == Spaced(true, phrases[1..])
    ensures Spaced(false, phrases) == phrases[0] + others
    ensures Spaced(true, phrases) == [Space] + (phrases[0] + others)
  {
    assert [Space] + phrases[0] + others == [Space] + (phrases[0] + others);
  }

  lemma SpacedStep(sql: seq<Token>, others: seq<seq<Token>>, words: seq<Word>)
    requires words == Words(Join(Literal(" "), others))
    ensures Words(Join(Literal(" "), [sql] + others)) == Words(sql) + (if others == [] then [] else [Space]) + words
  {
    if others != [] {
      AliasMarks();
      assert ([sql] + others)[1..] == others;
      WordsAround(sql, [Literal(" ")], Join(Literal(" "), others));
      WordsOfOne(Literal(" "));
    }
  }

  /** The parts of a query have been rendered. */
  ghost predicate PartsPhrased(q: Query, p: Parts) {
    && Phrased(p.ctes, CommonTablePhrases(q.commonTableExpressions))
    && (q.unions.Some? ==> Phrased(p.united, QueryPhrases(q.unions.value.queries)))
    && Phrased(p.targets, TargetPhrases(q.selectTargetList))
    && Phrased(p.subqueries, SubqueryPhrases(q.fromSubqueries))
    && Phrased(p.conditions, ExpressionPhrases(q.whereConditions))
    && Phrased(p.sorts, SortPhrases(q.sortbyList))
  }

  lemma SourcesPhrased(tables: seq<string>, parts: seq<Fragment>, phrases: seq<seq<Word>>)
    requires Phrased(parts, phrases)
    ensures Phrased(TableNames(tables) + parts, TablePhrases(tables) + phrases)
  {
    TablesRendered(tables);
  }

  ghost predicate WordedAt(q: Query, p: Parts, k: nat)
    requires k < 8
  {
    Worded(ClausesOf(InPlace, q, p)[k], QueryClauses(q)[k])
  }

  lemma WithWorded(q: Query, p: Parts, k: nat)
    requires k == 0 && Phrased(p.ctes, CommonTablePhrases(q.commonTableExpressions))
    ensures WordedAt(q, p, k)
  {
    Keywords();
    ListMarks();
    ListClauseWorded("WITH ", ", ", p.ctes, With, Comma, CommonTablePhrases(q.commonTableExpressions));
  }

  lemma UnionWorded(q: Query, p: Parts, k: nat)
    requires k == 1
    requires q.unions.Some? ==> Phrased(p.united, QueryPhrases(q.unions.value.queries)) && q.unions.value.queries != []
    ensures WordedAt(q, p, k)
  {
    UnionClauseWorded(q.unions, p.united);
  }

  lemma SelectWorded(q: Query, p: Parts, k: nat)
    requires k == 2 && Phrased(p.targets, TargetPhrases(q.selectTargetList))
    ensures WordedAt(q, p, k)
  {
    Keywords();
    ListMarks();
    ListClauseWorded("SELECT ", ", ", p.targets, Select, Comma, TargetPhrases(q.selectTargetList));
  }

  lemma FromWorded(q: Query, p: Parts, k: nat)
    requires k == 3 && Phrased(p.subqueries, SubqueryPhrases(q.fromSubqueries))
    ensures WordedAt(q, p, k)
  {
    Keywords();
    ListMarks();
    SourcesPhrased(q.fromTables, p.subqueries, SubqueryPhrases(q.fromSubqueries));
    ListClauseWorded("FROM ", ", ", TableNames(q.fromTables) + p.subqueries, From, Comma,
                     TablePhrases(q.fromTables) + SubqueryPhrases(q.fromSubqueries));
  }

  lemma WhereWorded(q: Query, p: Parts, k: nat)
    requires k == 4 && Phrased(p.conditions, ExpressionPhrases(q.whereConditions))
    ensures WordedAt(q, p, k)
  {
    Keywords();
    ListMarks();
    ListClauseWorded("WHERE ", " AND ", p.conditions, Where, And, ExpressionPhrases(q.whereConditions));
  }

  lemma OrderWorded(q: Query, p: Parts, k: nat)
    requires k == 5 && Phrased(p.sorts, SortPhrases(q.sortbyList))
    ensures WordedAt(q, p, k)
  {
    Keywords();
    ListMarks();
    ListClauseWorded("ORDER BY ", ", ", p.sorts, OrderBy, Comma, SortPhrases(q.sortbyList));
  }

  lemma NumbersWorded(q: Query, p: Parts, k: nat)
    requires 6 <= k < 8
    ensures WordedAt(q, p, k)
  {
    Keywords();
    NumberClauseWorded("LIMIT ", Limit, q.limitValue);
    NumberClauseWorded("OFFSET ", Offset, q.offsetValue);
  }

  lemma EachWorded(q: Query, p: Parts)
    requires PartsPhrased(q, p) && (q.unions.Some? ==> q.unions.value.queries != [])
    ensures AllWorded(ClausesOf(InPlace, q, p), QueryClauses(q))
  {
    var clauses, phrases := ClausesOf(InPlace, q, p), QueryClauses(q);
    forall k | 0 <= k < 8 ensures Worded(clauses[k], phrases[k]) {
      if k < 4 {
        FirstClauseWorded(q, p, k);
      } else {
        LastClauseWorded(q, p, k);
      }
      assert WordedAt(q, p, k);
    }
  }

  lemma FirstClauseWorded(q: Query, p: Parts, k: nat)
    requires PartsPhrased(q, p) && (q.unions.Some? ==> q.unions.value.queries != []) && k < 4
    ensures WordedAt(q, p, k)
  {
    match k
    case 0 => WithWorded(q, p, k);
    case 1 => UnionWorded(q, p, k);
    case 2 => SelectWorded(q, p, k);
    case _ => FromWorded(q, p, k);
  }

  lemma LastClauseWorded(q: Query, p: Parts, k: nat)
    requires PartsPhrased(q, p) && 4 <= k < 8
    ensures WordedAt(q, p, k)
  {
    match k
    case 4 => WhereWorded(q, p, k);
    case 5 => OrderWorded(q, p, k);
    case _ => NumbersWorded(q, p, k);
  }

  /** The rendered text of a readable query is its phrase. */
  lemma {:induction false} QueryRendered(q: Query)
    requires ReadableQuery(q)
    ensures Renders(RenderQuery(InPlace, q), QueryWords(q))
    decreases q
  {
    CommonTablesRendered(q.commonTableExpressions);
    if q.unions.Some? {
      QueriesRendered(q.unions.value.queries);
    }
    TargetsRendered(q.selectTargetList);
    SubqueriesRendered(q.fromSubqueries);
    ExpressionsRendered(q.whereConditions);
    SortsRendered(q.sortbyList);
    AssembledRendered(q);
  }

  lemma AssembledRendered(q: Query)
    requires q.unions.Some? ==> q.unions.value.queries != []
    requires PartsOf(InPlace, q).Success? && PartsPhrased(q, PartsOf(InPlace, q).value)
    ensures Renders(RenderQuery(InPlace, q), QueryWords(q))
  {
    var p := PartsOf(InPlace, q).value;
    RenderFromParts(InPlace, q);
    EachWorded(q, p);
    JoinSpaced(ClausesOf(InPlace, q, p), QueryClauses(q));
  }
}
