/**
 The reader reads every phrase back as the tree it was written for, whatever follows, as long as
 what follows cannot be taken for more of it.
 */
module ReadingBack {
  import opened Prelude
  import opened Values
  import opened SqlQuery
  import opened SqlReader
  import opened Wording

  // What may follow.

  predicate EndsOperand(rest: seq<Word>) {
    rest == [] || (rest[0] != Dot && rest[0] != Open)
  }

  predicate EndsExpression(rest: seq<Word>) {
    EndsOperand(rest) && (rest == [] || !rest[0].Sign?)
  }

  predicate EndsClause(rest: seq<Word>) {
    rest == [] || rest[0] == Space || rest[0] == Close || rest[0] == CloseAs
  }

  predicate EndsQuery(rest: seq<Word>) {
    rest == [] || rest[0] == Close || rest[0] == CloseAs
  }

  lemma Regroup<T>(a: seq<T>, b: seq<T>, c: seq<T>, rest: seq<T>)
    ensures a + b + c + rest == a + (b + (c + rest))
  {
  }

  // Expressions.

  lemma {:induction false} ExpressionReads(e: Expression, rest: seq<Word>)
    requires Readable(e) && EndsExpression(rest)
    ensures ReadExpression(ExpressionWords(e) + rest) == Read(e, rest)
    decreases e, 2
  {
    if e.Condition? {
      var left, operator, right := e.left.value, e.operator.value, e.right.value;
      OperandReads(left, [Sign(operator)] + (OperandWords(right) + rest));
      OperandReads(right, rest);
      ComparisonReads(left, operator, right, OperandWords(left), OperandWords(right), rest);
    } else {
      PrimaryReads(e, rest);
    }
  }

  lemma ComparisonReads(
    left: Operand, operator: Operator, right: Operand, words: seq<Word>, words': seq<Word>, rest: seq<Word>)
    requires ReadOperand(words + ([Sign(operator)] + (words' + rest))) == Read(left, [Sign(operator)] + (words' + rest))
    requires ReadOperand(words' + rest) == Read(right, rest)
    ensures ReadExpression(words + [Sign(operator)] + words' + rest) == Read(Comparison(left, operator, right), rest)
  {
    Regroup(words, [Sign(operator)], words', rest);
    assert ([Sign(operator)] + (words' + rest))[1..] == words' + rest;
  }

  lemma {:induction false} OperandReads(operand: Operand, rest: seq<Word>)
    requires ReadableOperand(operand) && EndsOperand(rest)
    ensures ReadOperand(OperandWords(operand) + rest) == Read(operand, rest)
    decreases operand, 2
  {
    match operand
    case Single(e) => PrimaryReads(e, rest);
    case Several(es) =>
      ArgumentsRead(es, rest);
      Regroup([Open], JoinWords(Separated(Comma), ExpressionPhrases(es)), [Close], rest);
      assert (OperandWords(operand) + rest)[1..]
        == JoinWords(Separated(Comma), ExpressionPhrases(es)) + ([Close] + rest);
    case Subquery(q) =>
      SubqueryReads(q, rest);
  }

  lemma {:induction false} PrimaryReads(e: Expression, rest: seq<Word>)
    requires Readable(e) && !e.Condition? && EndsOperand(rest)
    ensures ReadPrimary(ExpressionWords(e) + rest) == Read(e, rest)
    ensures ExpressionWords(e) != [] && ExpressionWords(e)[0] != Open
    decreases e, 1
  {
    match e
    case FunctionApplication(name, arguments) =>
      ArgumentsRead(arguments, rest);
      FunctionReads(name, arguments, JoinWords(Separated(Comma), ExpressionPhrases(arguments)), rest);
    case Cast(expression, typename) =>
      ExpressionReads(expression, [As, Name(typename), Close] + rest);
      CastReads(expression, typename, ExpressionWords(expression), rest);
    case ColumnReference(schema, table, field) => QualifiedReads(schema, table, Name(field), rest);
    case Star(schema, table) => QualifiedReads(schema, table, Asterisk, rest);
    case Constant(value) => assert ([SqlReader.Value(value)] + rest)[1..] == rest;
  }

  lemma FunctionReads(name: string, arguments: seq<Expression>, words: seq<Word>, rest: seq<Word>)
    requires ReadArguments(words + ([Close] + rest)) == Read(arguments, rest)
    ensures ReadPrimary([Name(name), Open] + words + [Close] + rest) == Read(FunctionApplication(name, arguments), rest)
  {
    var all := [Name(name), Open] + words + [Close] + rest;
    assert all[2..] == words + ([Close] + rest);
  }

  lemma CastReads(e: Expression, typename: string, words: seq<Word>, rest: seq<Word>)
    requires ReadExpression(words + ([As, Name(typename), Close] + rest)) == Read(e, [As, Name(typename), Close] + rest)
    ensures ReadPrimary([CastOpen] + words + [As, Name(typename), Close] + rest) == Read(Cast(e, typename), rest)
  {
    var all := [CastOpen] + words + [As, Name(typename), Close] + rest;
    assert all[1..] == words + ([As, Name(typename), Close] + rest);
    assert ([As, Name(typename), Close] + rest)[3..] == rest;
  }

  lemma QualifiedReads(schema: Option<string>, table: Option<string>, name: Word, rest: seq<Word>)
    requires schema.None? || table.Some?
    requires (name.Name? || name == Asterisk) && EndsOperand(rest)
    ensures ReadPrimary(Qualifiers(schema, table) + [name] + rest)
         == Read(if name.Name? then ColumnReference(schema, table, name.name) else Star(schema, table), rest)
    ensures Qualifiers(schema, table) + [name] != [] && (Qualifiers(schema, table) + [name])[0] != Open
  {
    var all := Qualifiers(schema, table) + [name] + rest;
    match (schema, table)
    case (None, None) => assert all[1..] == rest;
    case (None, Some(_)) => assert all[1..][2..] == rest;
    case (Some(_), Some(_)) => assert all[1..][4..] == rest;
  }

  lemma {:induction false} ArgumentsRead(es: seq<Expression>, rest: seq<Word>)
    requires AllReadable(es)
    ensures ReadArguments(JoinWords(Separated(Comma), ExpressionPhrases(es)) + ([Close] + rest)) == Read(es, rest)
    decreases es, 4
  {
    var words := JoinWords(Separated(Comma), ExpressionPhrases(es)) + ([Close] + rest);
    assert ([Close] + rest)[1..] == rest;
    if es != [] {
      ExpressionsRead(Comma, es, [Close] + rest);
      CannotStart(Comma, words);
    }
  }

  /** No expression starts with a closing parenthesis or a keyword. */
  lemma CannotStart(separator: Separator, words: seq<Word>)
    ensures words != [] && (words[0] == Close || words[0].Clausal?) ==> ReadExpressions(separator, words) == Unreadable
  {
    if words != [] && (words[0] == Close || words[0].Clausal?) {
      assert ReadPrimary(words) == Unreadable;
      assert ReadOperand(words) == Unreadable;
      assert ReadExpression(words) == Unreadable;
    }
  }

  /** A list is its first phrase, and after a separator the others. */
  lemma JoinFirst(separator: Word, first: seq<Word>, others: seq<seq<Word>>, rest: seq<Word>)
    ensures JoinWords(separator, [first] + others) + rest
         == first + if others == [] then rest else [separator] + (JoinWords(separator, others) + rest)
  {
    assert ([first] + others)[1..] == others;
    if others != [] {
      Regroup(first, [separator], JoinWords(separator, others), rest);
    }
  }

  lemma {:induction false} ExpressionsRead(separator: Separator, es: seq<Expression>, rest: seq<Word>)
    requires AllReadable(es) && es != [] && EndsExpression(rest) && !Starts(rest, Separated(separator))
    ensures ReadExpressions(separator, JoinWords(Separated(separator), ExpressionPhrases(es)) + rest) == Read(es, rest)
    decreases es, 3
  {
    var phrases := ExpressionPhrases(es[1..]);
    assert es == [es[0]] + es[1..];
    if |es| == 1 {
      ExpressionReads(es[0], rest);
      assert es == [es[0]];
      assert ExpressionPhrases(es) == [ExpressionWords(es[0])];
    } else {
      ExpressionReads(es[0], [Separated(separator)] + (JoinWords(Separated(separator), phrases) + rest));
      ExpressionsRead(separator, es[1..], rest);
      ExpressionsStep(separator, es[0], ExpressionWords(es[0]), es[1..], phrases, rest);
    }
  }

  lemma ExpressionsStep(
    separator: Separator, e: Expression, words: seq<Word>, es: seq<Expression>, phrases: seq<seq<Word>>,
    rest: seq<Word>)
    requires var others := JoinWords(Separated(separator), phrases) + rest;
      && phrases != [] && ReadExpressions(separator, others) == Read(es, rest)
      && ReadExpression(words + ([Separated(separator)] + others)) == Read(e, [Separated(separator)] + others)
    ensures ReadExpressions(separator, JoinWords(Separated(separator), [words] + phrases) + rest)
        == Read([e] + es, rest)
  {
    var others := JoinWords(Separated(separator), phrases) + rest;
    JoinFirst(Separated(separator), words, phrases, rest);
    assert ([Separated(separator)] + others)[1..] == others;
  }

  // Targets and sorts.

  lemma {:induction false} TargetReads(target: ResultTarget, rest: seq<Word>)
    requires ReadableTarget(target) && EndsExpression(rest) && !Starts(rest, As)
    ensures ReadTarget(TargetWords(target) + rest) == Read(target, rest)
    decreases target
  {
    var alias := if target.alias.Some? then [As, Name(target.alias.value)] else [];
    ExpressionReads(target.expression, alias + rest);
    AliasReads(target, ExpressionWords(target.expression), alias, rest);
  }

  lemma AliasReads(target: ResultTarget, words: seq<Word>, alias: seq<Word>, rest: seq<Word>)
    requires alias == if target.alias.Some? then [As, Name(target.alias.value)] else []
    requires ReadExpression(words + (alias + rest)) == Read(target.expression, alias + rest) && !Starts(rest, As)
    ensures ReadTarget(words + alias + rest) == Read(target, rest)
  {
    assert words + alias + rest == words + (alias + rest);
    if target.alias.Some? {
      assert (alias + rest)[2..] == rest;
    } else {
      assert alias + rest == rest;
    }
  }

  lemma {:induction false} TargetsRead(targets: seq<ResultTarget>, rest: seq<Word>)
    requires ReadableTargets(targets) && targets != [] && EndsClause(rest)
    ensures ReadTargets(JoinWords(Separated(Comma), TargetPhrases(targets)) + rest) == Read(targets, rest)
    decreases targets
  {
    var word, phrases := Separated(Comma), TargetPhrases(targets[1..]);
    JoinFirst(word, TargetWords(targets[0]), phrases, rest);
    if |targets| == 1 {
      TargetReads(targets[0], rest);
      assert targets == [targets[0]];
    } else {
      var others := JoinWords(word, phrases) + rest;
      TargetReads(targets[0], [word] + others);
      TargetsRead(targets[1..], rest);
      assert ([word] + others)[1..] == others;
      assert targets == [targets[0]] + targets[1..];
    }
  }

  lemma {:induction false} SortReads(sort: SortBy, rest: seq<Word>)
    requires ReadableSort(sort) && EndsExpression(rest) && (rest == [] || !rest[0].Sorted?)
    ensures ReadSort(SortWords(sort) + rest) == Read(sort, rest)
    decreases sort
  {
    var direction := if sort.direction.Some? then [Sorted(sort.direction.value)] else [];
    ExpressionReads(sort.expression, direction + rest);
    DirectionReads(sort, ExpressionWords(sort.expression), direction, rest);
  }

  lemma DirectionReads(sort: SortBy, words: seq<Word>, direction: seq<Word>, rest: seq<Word>)
    requires direction == if sort.direction.Some? then [Sorted(sort.direction.value)] else []
    requires ReadExpression(words + (direction + rest)) == Read(sort.expression, direction + rest)
    requires rest == [] || !rest[0].Sorted?
    ensures ReadSort(words + direction + rest) == Read(sort, rest)
  {
    assert words + direction + rest == words + (direction + rest);
    if sort.direction.Some? {
      assert (direction + rest)[1..] == rest;
    } else {
      assert direction + rest == rest;
    }
  }

  lemma {:induction false} SortsRead(sorts: seq<SortBy>, rest: seq<Word>)
    requires ReadableSorts(sorts) && sorts != [] && EndsClause(rest)
    ensures ReadSorts(JoinWords(Separated(Comma), SortPhrases(sorts)) + rest) == Read(sorts, rest)
    decreases sorts
  {
    var word, phrases := Separated(Comma), SortPhrases(sorts[1..]);
    JoinFirst(word, SortWords(sorts[0]), phrases, rest);
    if |sorts| == 1 {
      SortReads(sorts[0], rest);
      assert sorts == [sorts[0]];
    } else {
      var others := JoinWords(word, phrases) + rest;
      SortReads(sorts[0], [word] + others);
      SortsRead(sorts[1..], rest);
      assert ([word] + others)[1..] == others;
      assert sorts == [sorts[0]] + sorts[1..];
    }
  }

  // Queries in parentheses.

  lemma {:induction false} ClosedReads(q: Query, closing: Word, rest: seq<Word>)
    requires ReadableQuery(q) && (closing == Close || closing == CloseAs)
    ensures ReadClosed(QueryWords(q) + ([closing] + rest), closing) == Read(q, rest)
    decreases q, 7
  {
    QueryReads(q, [closing] + rest);
    assert ([closing] + rest)[1..] == rest;
  }

  lemma {:induction false} CommonTablesRead(named: seq<Named>, rest: seq<Word>)
    requires ReadableNamed(named) && named != [] && EndsClause(rest)
    ensures ReadCommonTables(JoinWords(Separated(Comma), CommonTablePhrases(named)) + rest) == Read(named, rest)
    decreases named
  {
    var first, phrases := named[0], CommonTablePhrases(named[1..]);
    assert named == [first] + named[1..];
    if |named| == 1 {
      ClosedReads(first.query, Close, rest);
      LastCommonTableReads(first, QueryWords(first.query), rest);
      assert named == [first];
      assert CommonTablePhrases(named) == [[Name(first.name), AsOpen] + QueryWords(first.query) + [Close]];
    } else {
      ClosedReads(first.query, Close, [Separated(Comma)] + (JoinWords(Separated(Comma), phrases) + rest));
      CommonTablesRead(named[1..], rest);
      FirstCommonTableReads(first, QueryWords(first.query), named[1..], phrases, rest);
    }
  }

  lemma LastCommonTableReads(first: Named, words: seq<Word>, rest: seq<Word>)
    requires !Starts(rest, Separated(Comma)) && ReadClosed(words + ([Close] + rest), Close) == Read(first.query, rest)
    ensures ReadCommonTables([Name(first.name), AsOpen] + words + [Close] + rest) == Read([first], rest)
  {
    var all := [Name(first.name), AsOpen] + words + [Close] + rest;
    assert all[2..] == words + ([Close] + rest);
  }

  lemma FirstCommonTableReads(
    first: Named, words: seq<Word>, named: seq<Named>, phrases: seq<seq<Word>>, rest: seq<Word>)
    requires var others := JoinWords(Separated(Comma), phrases) + rest;
      && phrases != [] && ReadCommonTables(others) == Read(named, rest)
      && ReadClosed(words + ([Close] + ([Separated(Comma)] + others)), Close)
         == Read(first.query, [Separated(Comma)] + others)
    ensures ReadCommonTables(
              JoinWords(Separated(Comma), [[Name(first.name), AsOpen] + words + [Close]] + phrases) + rest)
         == Read([first] + named, rest)
  {
    var others := JoinWords(Separated(Comma), phrases) + rest;
    var tail := [Separated(Comma)] + others;
    JoinFirst(Separated(Comma), [Name(first.name), AsOpen] + words + [Close], phrases, rest);
    var all := [Name(first.name), AsOpen] + words + [Close] + tail;
    assert all[2..] == words + ([Close] + tail);
    assert tail[1..] == others;
  }

  lemma {:induction false} SubqueriesRead(named: seq<Named>, rest: seq<Word>)
    requires ReadableNamed(named) && named != [] && EndsClause(rest)
    ensures ReadSubqueries(JoinWords(Separated(Comma), SubqueryPhrases(named)) + rest) == Read(named, rest)
    decreases named, 0
  {
    var first, phrases := named[0], SubqueryPhrases(named[1..]);
    assert named == [first] + named[1..];
    if |named| == 1 {
      ClosedReads(first.query, CloseAs, [Name(first.name)] + rest);
      LastSubqueryReads(first, QueryWords(first.query), rest);
      assert named == [first];
      assert SubqueryPhrases(named) == [[Open] + QueryWords(first.query) + [CloseAs, Name(first.name)]];
    } else {
      ClosedReads(first.query, CloseAs,
                  [Name(first.name)] + ([Separated(Comma)] + (JoinWords(Separated(Comma), phrases) + rest)));
      SubqueriesRead(named[1..], rest);
      FirstSubqueryReads(first, QueryWords(first.query), named[1..], phrases, rest);
    }
  }

  lemma LastSubqueryReads(first: Named, words: seq<Word>, rest: seq<Word>)
    requires !Starts(rest, Separated(Comma))
    requires ReadClosed(words + ([CloseAs] + ([Name(first.name)] + rest)), CloseAs)
          == Read(first.query, [Name(first.name)] + rest)
    ensures ReadSubqueries([Open] + words + [CloseAs, Name(first.name)] + rest) == Read([first], rest)
  {
    var all := [Open] + words + [CloseAs, Name(first.name)] + rest;
    assert all[1..] == words + ([CloseAs] + ([Name(first.name)] + rest));
    assert ([Name(first.name)] + rest)[1..] == rest;
  }

  lemma FirstSubqueryReads(
    first: Named, words: seq<Word>, named: seq<Named>, phrases: seq<seq<Word>>, rest: seq<Word>)
    requires var others := JoinWords(Separated(Comma), phrases) + rest;
      && phrases != [] && ReadSubqueries(others) == Read(named, rest)
      && ReadClosed(words + ([CloseAs] + ([Name(first.name)] + ([Separated(Comma)] + others))), CloseAs)
         == Read(first.query, [Name(first.name)] + ([Separated(Comma)] + others))
    ensures ReadSubqueries(
              JoinWords(Separated(Comma), [[Open] + words + [CloseAs, Name(first.name)]] + phrases) + rest)
         == Read([first] + named, rest)
  {
    var others := JoinWords(Separated(Comma), phrases) + rest;
    var tail := [Separated(Comma)] + others;
    JoinFirst(Separated(Comma), [Open] + words + [CloseAs, Name(first.name)], phrases, rest);
    var all := [Open] + words + [CloseAs, Name(first.name)] + tail;
    assert all[1..] == words + ([CloseAs] + ([Name(first.name)] + tail));
    AfterNext(Name(first.name), Separated(Comma), others);
  }

  lemma AfterNext(first: Word, second: Word, rest: seq<Word>)
    ensures ([first] + ([second] + rest))[1..] == [second] + rest
    ensures ([first] + ([second] + rest))[2..] == rest
  {
  }

  lemma ParenthesisSplits(words: seq<Word>, rest: seq<Word>)
    ensures Starts([Open] + words + [Close] + rest, Open)
    ensures ([Open] + words + [Close] + rest)[1..] == words + ([Close] + rest)
  {
  }

  lemma {:induction false} UnitedRead(queries: seq<Query>, mode: SetQuantifier, rest: seq<Word>)
    requires queries != [] && forall i :: 0 <= i < |queries| ==> ReadableQuery(queries[i])
    requires EndsClause(rest)
    ensures ReadUnited(JoinWords(United(mode), QueryPhrases(queries)) + rest)
         == Read(Union(queries, if |queries| == 1 then All else mode), rest)
    decreases queries
  {
    var first, phrases := queries[0], QueryPhrases(queries[1..]);
    assert queries == [first] + queries[1..];
    if |queries| == 1 {
      ClosedReads(first, Close, rest);
      LastUnitedReads(first, QueryWords(first), rest);
      assert queries == [first];
      assert QueryPhrases(queries) == [[Open] + QueryWords(first) + [Close]];
    } else {
      ClosedReads(first, Close, [United(mode)] + (JoinWords(United(mode), phrases) + rest));
      UnitedRead(queries[1..], mode, rest);
      FirstUnitedReads(first, QueryWords(first), mode, queries[1..], phrases, rest);
    }
  }

  lemma LastUnitedReads(first: Query, words: seq<Word>, rest: seq<Word>)
    requires (rest == [] || !rest[0].United?) && ReadClosed(words + ([Close] + rest), Close) == Read(first, rest)
    ensures ReadUnited([Open] + words + [Close] + rest) == Read(Union([first], All), rest)
  {
    ParenthesisSplits(words, rest);
  }

  lemma FirstUnitedReads(
    first: Query, words: seq<Word>, mode: SetQuantifier, queries: seq<Query>, phrases: seq<seq<Word>>, rest: seq<Word>)
    requires var others := JoinWords(United(mode), phrases) + rest;
      && phrases != [] && queries != []
      && ReadUnited(others) == Read(Union(queries, if |queries| == 1 then All else mode), rest)
      && ReadClosed(words + ([Close] + ([United(mode)] + others)), Close) == Read(first, [United(mode)] + others)
    ensures ReadUnited(JoinWords(United(mode), [[Open] + words + [Close]] + phrases) + rest)
         == Read(Union([first] + queries, mode), rest)
  {
    var others := JoinWords(United(mode), phrases) + rest;
    JoinFirst(United(mode), [Open] + words + [Close], phrases, rest);
    ParenthesisSplits(words, [United(mode)] + others);
    assert ([United(mode)] + others)[1..] == others;
  }

  lemma {:induction false} SourcesRead(tables: seq<string>, named: seq<Named>, rest: seq<Word>)
    requires ReadableNamed(named) && (tables != [] || named != []) && EndsClause(rest)
    ensures ReadSources(JoinWords(Separated(Comma), TablePhrases(tables) + SubqueryPhrases(named)) + rest)
         == Read(Sources(tables, named), rest)
    decreases named, |tables| + 1
  {
    if tables == [] {
      assert TablePhrases(tables) + SubqueryPhrases(named) == SubqueryPhrases(named);
      SubqueriesRead(named, rest);
      JoinOpens(named, rest);
    } else {
      var phrases := TablePhrases(tables[1..]) + SubqueryPhrases(named);
      assert TablePhrases(tables) + SubqueryPhrases(named) == [[Name(tables[0])]] + phrases;
      assert tables == [tables[0]] + tables[1..];
      if phrases != [] {
        SourcesRead(tables[1..], named, rest);
      }
      FirstTableReads(tables[0], tables[1..], named, phrases, rest);
    }
  }

  lemma FirstTableReads(
    table: string, tables: seq<string>, named: seq<Named>, phrases: seq<seq<Word>>, rest: seq<Word>)
    requires phrases == [] <==> tables == [] && named == []
    requires phrases != [] ==>
      ReadSources(JoinWords(Separated(Comma), phrases) + rest) == Read(Sources(tables, named), rest)
    requires EndsClause(rest)
    ensures ReadSources(JoinWords(Separated(Comma), [[Name(table)]] + phrases) + rest)
         == Read(Sources([table] + tables, named), rest)
  {
    JoinFirst(Separated(Comma), [Name(table)], phrases, rest);
    if phrases == [] {
      assert ([Name(table)] + rest)[1..] == rest && [table] + tables == [table];
    } else {
      AfterNext(Name(table), Separated(Comma), JoinWords(Separated(Comma), phrases) + rest);
    }
  }

  lemma JoinOpens(named: seq<Named>, rest: seq<Word>)
    requires named != []
    ensures Starts(JoinWords(Separated(Comma), SubqueryPhrases(named)) + rest, Open)
  {
    var words := [Open] + QueryWords(named[0].query) + [CloseAs, Name(named[0].name)];
    JoinFirst(Separated(Comma), words, SubqueryPhrases(named[1..]), rest);
    assert SubqueryPhrases(named) == [words] + SubqueryPhrases(named[1..]);
  }

  lemma {:induction false} SubqueryReads(q: Query, rest: seq<Word>)
    requires ReadableQuery(q) && q != EMPTY_QUERY
    ensures ReadOperand(OperandWords(Subquery(q)) + rest) == Read(Subquery(q), rest)
    decreases q, 9
  {
    NotArguments(q, rest);
    ClosedReads(q, Close, rest);
    ParenthesisSplits(QueryWords(q), rest);
  }

  /** A query is not read as a list of expressions: it starts with a keyword, or with a query in parentheses. */
  lemma {:induction false} NotArguments(q: Query, rest: seq<Word>)
    requires ReadableQuery(q) && q != EMPTY_QUERY
    ensures ReadArguments(QueryWords(q) + ([Close] + rest)) == Unreadable
    decreases q, 8
  {
    var words := QueryWords(q) + ([Close] + rest);
    QueryStarts(q);
    CannotStart(Comma, words);
    if words[0] == Open {
      var queries := q.unions.value.queries;
      var after := AfterUnion(q) + ([Close] + rest);
      var tail := UnionTail(queries, q.unions.value.mode) + after;
      UnionSplits(q, rest, after, tail);
      ParenthesisedReads(queries[0], tail);
      ClausesHeaded(q);
      SpacedStarts(true, QueryClauses(q)[2..], HEADS[2..]);
      NoSignAfter(queries, q.unions.value.mode, AfterUnion(q), rest);
      ParenthesisedAlone(words, tail);
    }
  }

  /** What follows the first query of a union. */
  function UnionTail(queries: seq<Query>, mode: SetQuantifier): seq<Word>
    requires queries != []
  {
    if |queries| == 1 then [] else [United(mode)] + JoinWords(United(mode), QueryPhrases(queries[1..]))
  }

  /** What follows the union in a query without common tables. */
  function AfterUnion(q: Query): seq<Word> {
    Spaced(true, QueryClauses(q)[2..])
  }

  lemma UnionSplits(q: Query, rest: seq<Word>, after: seq<Word>, tail: seq<Word>)
    requires q.commonTableExpressions == [] && q.unions.Some? && q.unions.value.queries != []
    requires after == AfterUnion(q) + ([Close] + rest)
    requires tail == UnionTail(q.unions.value.queries, q.unions.value.mode) + after
    ensures QueryWords(q) + ([Close] + rest) == [Open] + QueryWords(q.unions.value.queries[0]) + [Close] + tail
  {
    var Union(queries, mode) := q.unions.value;
    UnionFirst(q);
    UnionTails(queries, mode, after);
    assert QueryWords(q) + ([Close] + rest) == UnionWords(q.unions) + after;
  }

  lemma UnionFirst(q: Query)
    requires q.commonTableExpressions == [] && q.unions.Some? && q.unions.value.queries != []
    ensures QueryWords(q) == UnionWords(q.unions) + AfterUnion(q)
  {
    var clauses := QueryClauses(q);
    JoinStarts(United(q.unions.value.mode), QueryPhrases(q.unions.value.queries));
    assert clauses[0] == [] && clauses[1..][0] == UnionWords(q.unions) && clauses[1..][1..] == clauses[2..];
    assert Spaced(false, clauses) == Spaced(false, clauses[1..]);
    assert Spaced(false, clauses[1..]) == [] + clauses[1] + Spaced(true, clauses[2..]);
  }

  lemma UnionTails(queries: seq<Query>, mode: SetQuantifier, after: seq<Word>)
    requires queries != []
    ensures JoinWords(United(mode), QueryPhrases(queries)) + after
         == [Open] + QueryWords(queries[0]) + [Close] + (UnionTail(queries, mode) + after)
  {
    var phrases := QueryPhrases(queries[1..]);
    var first := [Open] + QueryWords(queries[0]) + [Close];
    assert QueryPhrases(queries) == [first] + phrases;
    JoinTail(United(mode), first, phrases, after);
  }

  lemma JoinTail(word: Word, first: seq<Word>, phrases: seq<seq<Word>>, after: seq<Word>)
    ensures var tail := if phrases == [] then [] else [word] + JoinWords(word, phrases);
      JoinWords(word, [first] + phrases) + after == first + (tail + after)
  {
    JoinFirst(word, first, phrases, after);
    if phrases == [] {
      assert [] + after == after;
    } else {
      assert [word] + JoinWords(word, phrases) + after == [word] + (JoinWords(word, phrases) + after);
    }
  }

  lemma NoSignAfter(queries: seq<Query>, mode: SetQuantifier, after: seq<Word>, rest: seq<Word>)
    requires queries != [] && (after == [] || after[0] == Space)
    ensures var tail := UnionTail(queries, mode) + (after + ([Close] + rest)); tail != [] && !tail[0].Sign?
  {
  }

  /** Something in parentheses is not an expression unless an operator follows. */
  lemma ParenthesisedAlone(words: seq<Word>, tail: seq<Word>)
    requires Starts(words, Open) && ReadOperand(words).Read? && !ReadOperand(words).value.Single?
    requires ReadOperand(words).rest == tail && tail != [] && !tail[0].Sign?
    ensures ReadArguments(words) == Unreadable
  {
    assert ReadExpression(words) == Unreadable;
    assert ReadExpressions(Comma, words) == Unreadable;
  }

  /** A query in parentheses is read as an operand, a blank one as an empty list. */
  lemma {:induction false} ParenthesisedReads(q: Query, tail: seq<Word>)
    requires ReadableQuery(q)
    ensures var operand := if q == EMPTY_QUERY then Several([]) else Subquery(q);
      ReadOperand([Open] + QueryWords(q) + [Close] + tail) == Read(operand, tail)
    decreases q, 10
  {
    if q == EMPTY_QUERY {
      BlankWords();
      assert ([Open] + [] + [Close] + tail)[1..] == [Close] + tail;
      assert ([Close] + tail)[1..] == tail;
    } else {
      SubqueryReads(q, tail);
    }
  }

  lemma BlankWords()
    ensures QueryWords(EMPTY_QUERY) == []
  {
    var clauses := QueryClauses(EMPTY_QUERY);
    assert forall k :: 0 <= k < 8 ==> clauses[k] == [];
    AllAbsent(false, clauses);
  }

  lemma {:induction false} AllAbsent(started: bool, clauses: seq<seq<Word>>)
    requires forall k :: 0 <= k < |clauses| ==> clauses[k] == []
    ensures Spaced(started, clauses) == []
    decreases |clauses|
  {
    if clauses != [] {
      AllAbsent(started, clauses[1..]);
    }
  }

  // Clauses of a query.

  /** The word each clause starts with. */
  const HEADS: seq<Word> := [
    Clausal(With), Open, Clausal(Select), Clausal(From), Clausal(Where), Clausal(OrderBy), Clausal(Limit),
    Clausal(Offset)]

  predicate Headed(clauses: seq<seq<Word>>, heads: seq<Word>) {
    && |clauses| == |heads| && Space !in heads
    && forall k :: 0 <= k < |clauses| && clauses[k] != [] ==> clauses[k][0] == heads[k]
  }

  lemma ClausesHeaded(q: Query)
    requires q.unions.Some? ==> q.unions.value.queries != []
    ensures Headed(QueryClauses(q), HEADS)
  {
    forall k | 0 <= k < 8 && QueryClauses(q)[k] != [] ensures QueryClauses(q)[k][0] == HEADS[k] {
      if k == 1 {
        assert QueryClauses(q)[1] == UnionWords(q.unions);
        JoinStarts(United(q.unions.value.mode), QueryPhrases(q.unions.value.queries));
      }
    }
  }

  /** The first clause that is there comes first. */
  lemma {:induction false} SpacedStarts(started: bool, clauses: seq<seq<Word>>, heads: seq<Word>)
    requires Headed(clauses, heads)
    ensures var words := Spaced(started, clauses);
      words != [] ==>
        if started then |words| >= 2 && words[0] == Space && words[1] in heads
        else words[0] in heads
    ensures Spaced(started, clauses) == [] <==> forall k :: 0 <= k < |clauses| ==> clauses[k] == []
    decreases |clauses|
  {
    if clauses != [] {
      SpacedStarts(started, clauses[1..], heads[1..]);
    }
  }

  lemma QueryStarts(q: Query)
    requires ReadableQuery(q) && q != EMPTY_QUERY
    ensures QueryWords(q) != [] && (QueryWords(q)[0].Clausal? || QueryWords(q)[0] == Open)
    ensures QueryWords(q)[0] == Open ==> q.commonTableExpressions == [] && q.unions.Some?
  {
    ClausesHeaded(q);
    BlankExactly(q);
    SpacedStarts(false, QueryClauses(q), HEADS);
    StartsWithUnion(q);
  }

  lemma BlankExactly(q: Query)
    requires q.unions.Some? ==> q.unions.value.queries != []
    requires q != EMPTY_QUERY
    ensures exists k :: 0 <= k < 8 && QueryClauses(q)[k] != []
  {
    FirstClausesBlank(q);
    LastClausesBlank(q);
  }

  lemma FirstClausesBlank(q: Query)
    requires q.unions.Some? ==> q.unions.value.queries != []
    ensures (forall k :: 0 <= k < 4 ==> QueryClauses(q)[k] == []) ==>
      q.commonTableExpressions == [] && q.unions == None && q.selectTargetList == []
      && q.fromTables == [] && q.fromSubqueries == []
  {
    var clauses := QueryClauses(q);
    if q.unions.Some? {
      JoinStarts(United(q.unions.value.mode), QueryPhrases(q.unions.value.queries));
    }
    assert clauses[1] == UnionWords(q.unions);
    assert q.commonTableExpressions != [] ==> clauses[0] != [];
    assert q.selectTargetList != [] ==> clauses[2] != [];
    assert q.fromTables != [] || q.fromSubqueries != [] ==> clauses[3] != [];
  }

  lemma LastClausesBlank(q: Query)
    ensures (forall k :: 4 <= k < 8 ==> QueryClauses(q)[k] == []) ==>
      q.whereConditions == [] && q.sortbyList == [] && q.limitValue == None && q.offsetValue == None
  {
    var clauses := QueryClauses(q);
    assert q.whereConditions != [] ==> clauses[4] != [];
    assert q.sortbyList != [] ==> clauses[5] != [];
    assert q.limitValue.Some? ==> clauses[6] != [];
    assert q.offsetValue.Some? ==> clauses[7] != [];
  }

  lemma StartsWithUnion(q: Query)
    requires Headed(QueryClauses(q), HEADS)
    ensures Starts(QueryWords(q), Open) ==> q.commonTableExpressions == [] && q.unions.Some?
  {
    var clauses := QueryClauses(q);
    SpacedStarts(false, clauses[2..], HEADS[2..]);
    if q.commonTableExpressions != [] {
      assert QueryWords(q) == [] + clauses[0] + Spaced(true, clauses[1..]);
    } else if q.unions.None? {
      assert clauses[1] == UnionWords(q.unions);
      assert clauses[0] == [] && clauses[1] == [] && clauses[1..][1..] == clauses[2..];
      assert Spaced(false, clauses) == Spaced(false, clauses[1..]);
      assert Spaced(false, clauses[1..]) == Spaced(false, clauses[1..][1..]);
    }
  }

  // Reading the clauses on, one after the other.

  /** What lies ahead of a clause that is left out is the head of a later one, or the end. */
  lemma NotAhead(started: bool, clauses: seq<seq<Word>>, heads: seq<Word>, rest: seq<Word>, word: Word)
    requires Headed(clauses, heads) && EndsQuery(rest)
    requires word !in heads && word != Close && word != CloseAs
    ensures Ahead(started, Spaced(started, clauses) + rest) != Some(word)
  {
    SpacedStarts(started, clauses, heads);
    var words := Spaced(started, clauses);
    if words == [] {
      assert words + rest == rest;
    } else {
      assert (words + rest)[0] == words[0];
      assert started ==> (words + rest)[1] == words[1];
    }
  }

  lemma LaterEnds(clauses: seq<seq<Word>>, heads: seq<Word>, rest: seq<Word>)
    requires Headed(clauses, heads) && EndsQuery(rest)
    ensures EndsClause(Spaced(true, clauses) + rest)
  {
    SpacedStarts(true, clauses, heads);
    if Spaced(true, clauses) == [] {
      assert Spaced(true, clauses) + rest == rest;
    }
  }

  /** A clause that is there lies ahead, and after it the others. */
  lemma ClauseAhead(started: bool, clause: seq<Word>, later: seq<seq<Word>>, rest: seq<Word>)
    requires clause != []
    ensures var words := Spaced(started, [clause] + later) + rest;
      Ahead(started, words) == Some(clause[0]) && Onward(started, words) == clause + (Spaced(true, later) + rest)
  {
    assert ([clause] + later)[1..] == later;
    var words := Spaced(started, [clause] + later) + rest;
    var lead := if started then [Space] else [];
    assert words == lead + (clause + (Spaced(true, later) + rest));
  }

  lemma ClauseAbsent(started: bool, later: seq<seq<Word>>)
    ensures Spaced(started, [[]] + later) == Spaced(started, later)
  {
    assert ([[]] + later)[1..] == later;
  }

  /** A keyword and its list lie ahead. */
  lemma KeywordAhead(started: bool, word: Word, list: seq<Word>, later: seq<seq<Word>>, rest: seq<Word>)
    ensures var words := Spaced(started, [[word] + list] + later) + rest;
      Ahead(started, words) == Some(word) && Onward(started, words)[1..] == list + (Spaced(true, later) + rest)
  {
    ClauseAhead(started, [word] + list, later, rest);
    assert ([word] + list + (Spaced(true, later) + rest))[1..] == list + (Spaced(true, later) + rest);
  }

  /** The words of the clauses of `q` from the k-th on, and then `rest`. */
  function WordsFrom(q: Query, k: nat, started: bool, rest: seq<Word>): seq<Word>
    requires k <= 8
  {
    Spaced(started, QueryClauses(q)[k..]) + rest
  }

  lemma LaterHeaded(q: Query, k: nat)
    requires ReadableQuery(q) && k <= 8
    ensures Headed(QueryClauses(q)[k..], HEADS[k..])
    ensures k < 8 ==> QueryClauses(q)[k..] == [QueryClauses(q)[k]] + QueryClauses(q)[k + 1..]
    ensures k < 8 ==> HEADS[k] !in HEADS[k + 1..] && HEADS[k] != Close && HEADS[k] != CloseAs
  {
    ClausesHeaded(q);
    HeadsDiffer(k);
    DropHeaded(QueryClauses(q), HEADS, k);
  }

  lemma HeadsDiffer(k: nat)
    ensures k < 8 ==> HEADS[k] !in HEADS[k + 1..] && HEADS[k] != Close && HEADS[k] != CloseAs
  {
    assert forall i, j :: 0 <= i < j < 8 ==> HEADS[i] != HEADS[j];
  }

  lemma DropHeaded(clauses: seq<seq<Word>>, heads: seq<Word>, k: nat)
    requires Headed(clauses, heads) && k <= |clauses|
    ensures Headed(clauses[k..], heads[k..])
    ensures k < |clauses| ==> clauses[k..] == [clauses[k]] + clauses[k + 1..]
  {
  }

  lemma NumberReads(n: nat, rest: seq<Word>)
    ensures ReadNumber([SqlReader.Value(Number(n))] + rest) == Read(n, rest)
  {
    assert ([SqlReader.Value(Number(n))] + rest)[1..] == rest;
  }

  /** The query with only its clauses before the k-th. */
  function Upto(q: Query, k: nat): Query {
    Query(
      if k > 0 then q.commonTableExpressions else [],
      if k > 1 then q.unions else None,
      if k > 2 then q.selectTargetList else [],
      if k > 3 then q.fromTables else [],
      if k > 3 then q.fromSubqueries else [],
      if k > 4 then q.whereConditions else [],
      if k > 5 then q.sortbyList else [],
      if k > 6 then q.limitValue else None,
      if k > 7 then q.offsetValue else None)
  }

  lemma OffsetReads(base: Query, offset: Option<nat>, started: bool, rest: seq<Word>)
    requires EndsQuery(rest) && base.offsetValue == None
    ensures ReadOffsetOn(base, started, Spaced(started, [NumberWords(Offset, offset)]) + rest)
         == Read(base.(offsetValue := offset), rest)
  {
    assert [NumberWords(Offset, offset)] == [NumberWords(Offset, offset)] + [];
    if offset.Some? {
      KeywordAhead(started, Clausal(Offset), [SqlReader.Value(Number(offset.value))], [], rest);
      assert [Clausal(Offset)] + [SqlReader.Value(Number(offset.value))] == NumberWords(Offset, offset);
      NumberReads(offset.value, rest);
      assert Spaced(true, []) + rest == rest;
    } else {
      ClauseAbsent(started, []);
      NotAhead(started, [], [], rest, Clausal(Offset));
      assert [] + rest == rest;
    }
  }

  lemma LimitReads(base: Query, limit: Option<nat>, offset: Option<nat>, started: bool, rest: seq<Word>)
    requires EndsQuery(rest) && base.limitValue == None && base.offsetValue == None
    ensures ReadLimitOn(base, started, Spaced(started, [NumberWords(Limit, limit), NumberWords(Offset, offset)]) + rest)
         == Read(base.(limitValue := limit, offsetValue := offset), rest)
  {
    var later := [NumberWords(Offset, offset)];
    assert [NumberWords(Limit, limit), NumberWords(Offset, offset)] == [NumberWords(Limit, limit)] + later;
    if limit.Some? {
      KeywordAhead(started, Clausal(Limit), [SqlReader.Value(Number(limit.value))], later, rest);
      assert [Clausal(Limit)] + [SqlReader.Value(Number(limit.value))] == NumberWords(Limit, limit);
      NumberReads(limit.value, Spaced(true, later) + rest);
      OffsetReads(base.(limitValue := limit), offset, true, rest);
    } else {
      ClauseAbsent(started, later);
      NotAhead(started, later, [Clausal(Offset)], rest, Clausal(Limit));
      OffsetReads(base, offset, started, rest);
    }
  }

  lemma NumbersRead(q: Query, started: bool, rest: seq<Word>)
    requires EndsQuery(rest)
    ensures ReadLimitOn(Upto(q, 6), started, WordsFrom(q, 6, started, rest)) == Read(q, rest)
  {
    assert QueryClauses(q)[6..] == [NumberWords(Limit, q.limitValue), NumberWords(Offset, q.offsetValue)];
    LimitReads(Upto(q, 6), q.limitValue, q.offsetValue, started, rest);
  }

  /** The k-th clause is there: its head lies ahead, then its list, then the later clauses. */
  lemma StageAhead(q: Query, k: nat, started: bool, rest: seq<Word>, list: seq<Word>)
    requires ReadableQuery(q) && EndsQuery(rest) && k < 8 && QueryClauses(q)[k] == [HEADS[k]] + list
    ensures Ahead(started, WordsFrom(q, k, started, rest)) == Some(HEADS[k])
    ensures Onward(started, WordsFrom(q, k, started, rest))[1..] == list + WordsFrom(q, k + 1, true, rest)
    ensures EndsClause(WordsFrom(q, k + 1, true, rest))
  {
    LaterHeaded(q, k);
    LaterHeaded(q, k + 1);
    KeywordAhead(started, HEADS[k], list, QueryClauses(q)[k + 1..], rest);
    LaterEnds(QueryClauses(q)[k + 1..], HEADS[k + 1..], rest);
  }

  /** The k-th clause is left out: something else lies ahead. */
  lemma StageAbsent(q: Query, k: nat, started: bool, rest: seq<Word>)
    requires ReadableQuery(q) && EndsQuery(rest) && k < 8 && QueryClauses(q)[k] == []
    ensures WordsFrom(q, k, started, rest) == WordsFrom(q, k + 1, started, rest)
    ensures Ahead(started, WordsFrom(q, k, started, rest)) != Some(HEADS[k])
  {
    LaterHeaded(q, k);
    LaterHeaded(q, k + 1);
    ClauseAbsent(started, QueryClauses(q)[k + 1..]);
    NotAhead(started, QueryClauses(q)[k + 1..], HEADS[k + 1..], rest, HEADS[k]);
  }

  lemma {:induction false} OrderReads(q: Query, started: bool, rest: seq<Word>)
    requires ReadableQuery(q) && EndsQuery(rest)
    ensures ReadOrderOn(Upto(q, 5), started, WordsFrom(q, 5, started, rest)) == Read(q, rest)
    decreases q, 1
  {
    if q.sortbyList != [] {
      StageAhead(q, 5, started, rest, JoinWords(Separated(Comma), SortPhrases(q.sortbyList)));
      SortsRead(q.sortbyList, WordsFrom(q, 6, true, rest));
      NumbersRead(q, true, rest);
    } else {
      StageAbsent(q, 5, started, rest);
      NumbersRead(q, started, rest);
    }
  }

  lemma {:induction false} WhereReads(q: Query, started: bool, rest: seq<Word>)
    requires ReadableQuery(q) && EndsQuery(rest)
    ensures ReadWhereOn(Upto(q, 4), started, WordsFrom(q, 4, started, rest)) == Read(q, rest)
    decreases q, 2
  {
    if q.whereConditions != [] {
      StageAhead(q, 4, started, rest, JoinWords(Separated(And), ExpressionPhrases(q.whereConditions)));
      ExpressionsRead(And, q.whereConditions, WordsFrom(q, 5, true, rest));
      OrderReads(q, true, rest);
    } else {
      StageAbsent(q, 4, started, rest);
      OrderReads(q, started, rest);
    }
  }

  lemma {:induction false} FromReads(q: Query, started: bool, rest: seq<Word>)
    requires ReadableQuery(q) && EndsQuery(rest)
    ensures ReadFromOn(Upto(q, 3), started, WordsFrom(q, 3, started, rest)) == Read(q, rest)
    decreases q, 3
  {
    var phrases := TablePhrases(q.fromTables) + SubqueryPhrases(q.fromSubqueries);
    if phrases != [] {
      StageAhead(q, 3, started, rest, JoinWords(Separated(Comma), phrases));
      SourcesRead(q.fromTables, q.fromSubqueries, WordsFrom(q, 4, true, rest));
      WhereReads(q, true, rest);
    } else {
      StageAbsent(q, 3, started, rest);
      WhereReads(q, started, rest);
    }
  }

  lemma {:induction false} SelectReads(q: Query, started: bool, rest: seq<Word>)
    requires ReadableQuery(q) && EndsQuery(rest)
    ensures ReadSelectOn(Upto(q, 2), started, WordsFrom(q, 2, started, rest)) == Read(q, rest)
    decreases q, 4
  {
    if q.selectTargetList != [] {
      StageAhead(q, 2, started, rest, JoinWords(Separated(Comma), TargetPhrases(q.selectTargetList)));
      TargetsRead(q.selectTargetList, WordsFrom(q, 3, true, rest));
      FromReads(q, true, rest);
    } else {
      StageAbsent(q, 2, started, rest);
      FromReads(q, started, rest);
    }
  }

  lemma {:induction false} UnionReads(q: Query, started: bool, rest: seq<Word>)
    requires ReadableQuery(q) && EndsQuery(rest)
    ensures ReadUnionOn(Upto(q, 1), started, WordsFrom(q, 1, started, rest)) == Read(q, rest)
    decreases q, 5
  {
    if q.unions.Some? {
      var Union(queries, mode) := q.unions.value;
      UnionAhead(q, started, rest);
      UnitedRead(queries, mode, WordsFrom(q, 2, true, rest));
      SelectReads(q, true, rest);
    } else {
      StageAbsent(q, 1, started, rest);
      SelectReads(q, started, rest);
    }
  }

  lemma UnionAhead(q: Query, started: bool, rest: seq<Word>)
    requires ReadableQuery(q) && EndsQuery(rest) && q.unions.Some?
    ensures Ahead(started, WordsFrom(q, 1, started, rest)) == Some(Open)
    ensures Onward(started, WordsFrom(q, 1, started, rest))
         == JoinWords(United(q.unions.value.mode), QueryPhrases(q.unions.value.queries)) + WordsFrom(q, 2, true, rest)
    ensures EndsClause(WordsFrom(q, 2, true, rest))
  {
    LaterHeaded(q, 1);
    LaterHeaded(q, 2);
    JoinStarts(United(q.unions.value.mode), QueryPhrases(q.unions.value.queries));
    ClauseAhead(started, UnionWords(q.unions), QueryClauses(q)[2..], rest);
    LaterEnds(QueryClauses(q)[2..], HEADS[2..], rest);
  }

  lemma {:induction false} QueryReads(q: Query, rest: seq<Word>)
    requires ReadableQuery(q) && EndsQuery(rest)
    ensures ReadQuery(QueryWords(q) + rest) == Read(q, rest)
    decreases q, 6
  {
    assert QueryClauses(q)[0..] == QueryClauses(q);
    if q.commonTableExpressions != [] {
      StageAhead(q, 0, false, rest, JoinWords(Separated(Comma), CommonTablePhrases(q.commonTableExpressions)));
      CommonTablesRead(q.commonTableExpressions, WordsFrom(q, 1, true, rest));
      UnionReads(q, true, rest);
    } else {
      StageAbsent(q, 0, false, rest);
      UnionReads(q, false, rest);
    }
  }
}
