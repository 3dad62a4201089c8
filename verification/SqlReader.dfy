/**
 A reader of SQL text, written from the grammar and not from the renderer: it has its own table
 of words and reads statements by recursive descent. Constants stand in the text as values.
 */
module SqlReader {
  import opened Prelude
  import opened Values
  import opened SqlQuery
  import opened Rendering

  datatype Word =
    | Name(name: string)
    | Value(value: Value)
    | Sign(operator: Operator)
    | Separated(separator: Separator)
    | Clausal(clause: Clausal)
    | Dot
    | Asterisk
    | Open
    | Close
    | CastOpen
    | AsOpen
    | CloseAs
    | As
    | Sorted(direction: SortDirection)
    | United(mode: SetQuantifier)
    | Space
    | Unknown

  datatype Separator = Comma | And

  datatype Clausal = With | Select | From | Where | OrderBy | Limit | Offset

  // Words.

  function SignOf(text: string): Option<Operator> {
    if text == " = " then Some(Equals)
    else if text == " != " then Some(NotEquals)
    else if text == " > " then Some(GreaterThan)
    else if text == " >= " then Some(GreaterThanOrEqual)
    else if text == " < " then Some(LessThan)
    else if text == " <= " then Some(LessThanOrEqual)
    else if text == " IN " then Some(In)
    else if text == " @> " then Some(Contains)
    else if text == " ~ " then Some(RegexMatches)
    else if text == " !~ " then Some(NotRegexMatches)
    else if text == " IS NULL " then Some(IsNull)
    else if text == " IS NOT NULL " then Some(IsNotNull)
    else None
  }

  function ClauseOf(text: string): Option<Clausal> {
    if text == "WITH " then Some(With)
    else if text == "SELECT " then Some(Select)
    else if text == "FROM " then Some(From)
    else if text == "WHERE " then Some(Where)
    else if text == "ORDER BY " then Some(OrderBy)
    else if text == "LIMIT " then Some(Limit)
    else if text == "OFFSET " then Some(Offset)
    else None
  }

  function MarkOf(text: string): Word {
    if text == ", " then Separated(Comma)
    else if text == " AND " then Separated(And)
    else if text == "." then Dot
    else if text == "*" then Asterisk
    else if text == "(" then Open
    else if text == ")" then Close
    else if text == "CAST(" then CastOpen
    else if text == " AS (" then AsOpen
    else if text == ") AS " then CloseAs
    else if text == " AS " then As
    else if text == " ASC" then Sorted(Asc)
    else if text == " DESC" then Sorted(Desc)
    else if text == " UNION ALL " then United(All)
    else if text == " UNION DISTINCT " then United(Distinct)
    else if text == " " then Space
    else Unknown
  }

  function WordOf(token: Token): Word {
    match token
    case Identifier(name) => Name(name)
    case Bound(value) => Value(value)
    case Hole => Unknown
    case Literal(text) =>
      if SignOf(text).Some? then Sign(SignOf(text).value)
      else if ClauseOf(text).Some? then Clausal(ClauseOf(text).value)
      else MarkOf(text)
  }

  function Words(sql: seq<Token>): (r: seq<Word>)
    ensures |r| == |sql|
  {
    Map(WordOf, sql)
  }

  // Reading.

  /** What was read from the front of the words, and what is left of them. */
  datatype Reading<+T> = Unreadable | Read(value: T, rest: seq<Word>)

  predicate Starts(words: seq<Word>, word: Word) {
    words != [] && words[0] == word
  }

  function ReadExpression(words: seq<Word>): (r: Reading<Expression>)
    ensures r.Read? ==> |r.rest| < |words|
    decreases |words|, 3
  {
    match ReadOperand(words)
    case Unreadable => Unreadable
    case Read(left, rest) =>
      if rest != [] && rest[0].Sign? then
        match ReadOperand(rest[1..])
        case Unreadable => Unreadable
        case Read(right, rest') => Read(Comparison(left, rest[0].operator, right), rest')
      else if left.Single? then Read(left.expression, rest)
      else Unreadable
  }

  /** What stands in parentheses is a list of expressions, if it can be read as one, or else a query. */
  function ReadOperand(words: seq<Word>): (r: Reading<Operand>)
    ensures r.Read? ==> |r.rest| < |words|
    decreases |words|, 2
  {
    if Starts(words, Open) then
      match ReadArguments(words[1..])
      case Read(parts, rest) => Read(Several(parts), rest)
      case Unreadable =>
        match ReadQuery(words[1..])
        case Unreadable => Unreadable
        case Read(query, rest) => if Starts(rest, Close) then Read(Subquery(query), rest[1..]) else Unreadable
    else
      match ReadPrimary(words)
      case Unreadable => Unreadable
      case Read(e, rest) => Read(Single(e), rest)
  }

  function ReadPrimary(words: seq<Word>): (r: Reading<Expression>)
    ensures r.Read? ==> |r.rest| < |words|
    decreases |words|, 1
  {
    if words == [] then Unreadable
    else
      match words[0]
      case Value(value) => Read(Constant(value), words[1..])
      case Asterisk => Read(Star(None, None), words[1..])
      case CastOpen =>
        (match ReadExpression(words[1..])
         case Unreadable => Unreadable
         case Read(e, rest) =>
           if |rest| >= 3 && rest[0] == As && rest[1].Name? && rest[2] == Close
           then Read(Cast(e, rest[1].name), rest[3..])
           else Unreadable)
      case Name(name) =>
        if Starts(words[1..], Open) then
          match ReadArguments(words[2..])
          case Unreadable => Unreadable
          case Read(arguments, rest) => Read(FunctionApplication(name, arguments), rest)
        else ReadName(name, words[1..])
      case _ => Unreadable
  }

  /** A column or a star, after its first name. */
  function ReadName(name: string, words: seq<Word>): (r: Reading<Expression>)
    ensures r.Read? ==> |r.rest| <= |words|
  {
    if !Starts(words, Dot) then Read(ColumnReference(None, None, name), words)
    else if |words| < 2 then Unreadable
    else if words[1] == Asterisk then Read(Star(None, Some(name)), words[2..])
    else if !words[1].Name? then Unreadable
    else if !Starts(words[2..], Dot) then Read(ColumnReference(None, Some(name), words[1].name), words[2..])
    else if |words| < 4 then Unreadable
    else if words[3] == Asterisk then Read(Star(Some(name), Some(words[1].name)), words[4..])
    else if words[3].Name? then Read(ColumnReference(Some(name), Some(words[1].name), words[3].name), words[4..])
    else Unreadable
  }

  /** Expressions up to a closing parenthesis. */
  function ReadArguments(words: seq<Word>): (r: Reading<seq<Expression>>)
    ensures r.Read? ==> |r.rest| < |words|
    decreases |words|, 5
  {
    if Starts(words, Close) then Read([], words[1..])
    else
      match ReadExpressions(Comma, words)
      case Unreadable => Unreadable
      case Read(es, rest) => if Starts(rest, Close) then Read(es, rest[1..]) else Unreadable
  }

  function ReadExpressions(separator: Separator, words: seq<Word>): (r: Reading<seq<Expression>>)
    ensures r.Read? ==> |r.rest| < |words|
    decreases |words|, 4
  {
    match ReadExpression(words)
    case Unreadable => Unreadable
    case Read(e, rest) =>
      if !Starts(rest, Separated(separator)) then Read([e], rest)
      else
        match ReadExpressions(separator, rest[1..])
        case Unreadable => Unreadable
        case Read(es, rest') => Read([e] + es, rest')
  }

  function ReadTarget(words: seq<Word>): (r: Reading<ResultTarget>)
    ensures r.Read? ==> |r.rest| < |words|
    decreases |words|, 4
  {
    match ReadExpression(words)
    case Unreadable => Unreadable
    case Read(e, rest) =>
      if !Starts(rest, As) then Read(ResultTarget(e, None), rest)
      else if |rest| >= 2 && rest[1].Name? then Read(ResultTarget(e, Some(rest[1].name)), rest[2..])
      else Unreadable
  }

  function ReadTargets(words: seq<Word>): (r: Reading<seq<ResultTarget>>)
    ensures r.Read? ==> |r.rest| < |words|
    decreases |words|, 5
  {
    match ReadTarget(words)
    case Unreadable => Unreadable
    case Read(target, rest) =>
      if !Starts(rest, Separated(Comma)) then Read([target], rest)
      else
        match ReadTargets(rest[1..])
        case Unreadable => Unreadable
        case Read(targets, rest') => Read([target] + targets, rest')
  }

  function ReadSort(words: seq<Word>): (r: Reading<SortBy>)
    ensures r.Read? ==> |r.rest| < |words|
    decreases |words|, 4
  {
    match ReadExpression(words)
    case Unreadable => Unreadable
    case Read(e, rest) =>
      if rest != [] && rest[0].Sorted? then Read(SortBy(e, Some(rest[0].direction)), rest[1..])
      else Read(SortBy(e, None), rest)
  }

  function ReadSorts(words: seq<Word>): (r: Reading<seq<SortBy>>)
    ensures r.Read? ==> |r.rest| < |words|
    decreases |words|, 5
  {
    match ReadSort(words)
    case Unreadable => Unreadable
    case Read(sort, rest) =>
      if !Starts(rest, Separated(Comma)) then Read([sort], rest)
      else
        match ReadSorts(rest[1..])
        case Unreadable => Unreadable
        case Read(sorts, rest') => Read([sort] + sorts, rest')
  }

  /** A query and the closing parenthesis after it. */
  function ReadClosed(words: seq<Word>, closing: Word): (r: Reading<Query>)
    ensures r.Read? ==> |r.rest| < |words|
    decreases |words|, 15
  {
    match ReadQuery(words)
    case Unreadable => Unreadable
    case Read(query, rest) => if Starts(rest, closing) then Read(query, rest[1..]) else Unreadable
  }

  /** `name AS (query)`, once or more. */
  function ReadCommonTables(words: seq<Word>): (r: Reading<seq<Named>>)
    ensures r.Read? ==> |r.rest| < |words|
    decreases |words|, 13
  {
    if !(|words| >= 2 && words[0].Name? && words[1] == AsOpen) then Unreadable
    else
      match ReadClosed(words[2..], Close)
      case Unreadable => Unreadable
      case Read(query, rest) =>
        var first := Named(query, words[0].name);
        if !Starts(rest, Separated(Comma)) then Read([first], rest)
        else
          match ReadCommonTables(rest[1..])
          case Unreadable => Unreadable
          case Read(others, rest') => Read([first] + others, rest')
  }

  datatype Sources = Sources(tables: seq<string>, subqueries: seq<Named>)

  /** Names of tables, then `(query) AS name`. */
  function ReadSources(words: seq<Word>): (r: Reading<Sources>)
    ensures r.Read? ==> |r.rest| < |words|
    decreases |words|, 13
  {
    if words == [] then Unreadable
    else if words[0].Name? then
      if !Starts(words[1..], Separated(Comma)) then Read(Sources([words[0].name], []), words[1..])
      else
        match ReadSources(words[2..])
        case Unreadable => Unreadable
        case Read(others, rest) => Read(Sources([words[0].name] + others.tables, others.subqueries), rest)
    else
      match ReadSubqueries(words)
      case Unreadable => Unreadable
      case Read(subqueries, rest) => Read(Sources([], subqueries), rest)
  }

  function ReadSubqueries(words: seq<Word>): (r: Reading<seq<Named>>)
    ensures r.Read? ==> |r.rest| < |words|
    decreases |words|, 12
  {
    if !Starts(words, Open) then Unreadable
    else
      match ReadClosed(words[1..], CloseAs)
      case Unreadable => Unreadable
      case Read(query, rest) =>
        if !(rest != [] && rest[0].Name?) then Unreadable
        else
          var first := Named(query, rest[0].name);
          if !Starts(rest[1..], Separated(Comma)) then Read([first], rest[1..])
          else
            match ReadSubqueries(rest[2..])
            case Unreadable => Unreadable
            case Read(others, rest') => Read([first] + others, rest')
  }

  /** Queries in parentheses with UNION between them, all of one kind; a single one counts as ALL. */
  function ReadUnited(words: seq<Word>): (r: Reading<Union>)
    ensures r.Read? ==> |r.rest| < |words|
    decreases |words|, 12
  {
    if !Starts(words, Open) then Unreadable
    else
      match ReadClosed(words[1..], Close)
      case Unreadable => Unreadable
      case Read(query, rest) =>
        if !(rest != [] && rest[0].United?) then Read(Union([query], All), rest)
        else
          match ReadUnited(rest[1..])
          case Unreadable => Unreadable
          case Read(others, rest') =>
            if |others.queries| > 1 && others.mode != rest[0].mode then Unreadable
            else Read(Union([query] + others.queries, rest[0].mode), rest')
  }

  // A query: its clauses in order, with a space between any two.

  /** The word a clause would begin with here: after a space, once there has been a clause. */
  function Ahead(started: bool, words: seq<Word>): Option<Word> {
    if !started then if words == [] then None else Some(words[0])
    else if |words| >= 2 && words[0] == Space then Some(words[1])
    else None
  }

  /** The words from there on. */
  function Onward(started: bool, words: seq<Word>): (r: seq<Word>)
    requires Ahead(started, words).Some?
    ensures r != [] && |r| <= |words| && r[0] == Ahead(started, words).value
  {
    if started then words[1..] else words
  }

  predicate Comes(started: bool, words: seq<Word>, clause: Clausal) {
    Ahead(started, words) == Some(Clausal(clause))
  }

  function ReadQuery(words: seq<Word>): (r: Reading<Query>)
    ensures r.Read? ==> |r.rest| <= |words|
    decreases |words|, 14
  {
    if !Comes(false, words, With) then ReadUnionOn(EMPTY_QUERY, false, words)
    else
      match ReadCommonTables(words[1..])
      case Unreadable => Unreadable
      case Read(named, rest) => ReadUnionOn(EMPTY_QUERY.(commonTableExpressions := named), true, rest)
  }

  function ReadUnionOn(q: Query, started: bool, words: seq<Word>): (r: Reading<Query>)
    ensures r.Read? ==> |r.rest| <= |words|
    decreases |words|, 13
  {
    if Ahead(started, words) != Some(Open) then ReadSelectOn(q, started, words)
    else
      match ReadUnited(Onward(started, words))
      case Unreadable => Unreadable
      case Read(union, rest) => ReadSelectOn(q.(unions := Some(union)), true, rest)
  }

  function ReadSelectOn(q: Query, started: bool, words: seq<Word>): (r: Reading<Query>)
    ensures r.Read? ==> |r.rest| <= |words|
    decreases |words|, 11
  {
    if !Comes(started, words, Select) then ReadFromOn(q, started, words)
    else
      match ReadTargets(Onward(started, words)[1..])
      case Unreadable => Unreadable
      case Read(targets, rest) => ReadFromOn(q.(selectTargetList := targets), true, rest)
  }

  function ReadFromOn(q: Query, started: bool, words: seq<Word>): (r: Reading<Query>)
    ensures r.Read? ==> |r.rest| <= |words|
    decreases |words|, 10
  {
    if !Comes(started, words, From) then ReadWhereOn(q, started, words)
    else
      match ReadSources(Onward(started, words)[1..])
      case Unreadable => Unreadable
      case Read(sources, rest) =>
        ReadWhereOn(q.(fromTables := sources.tables, fromSubqueries := sources.subqueries), true, rest)
  }

  function ReadWhereOn(q: Query, started: bool, words: seq<Word>): (r: Reading<Query>)
    ensures r.Read? ==> |r.rest| <= |words|
    decreases |words|, 9
  {
    if !Comes(started, words, Where) then ReadOrderOn(q, started, words)
    else
      match ReadExpressions(And, Onward(started, words)[1..])
      case Unreadable => Unreadable
      case Read(conditions, rest) => ReadOrderOn(q.(whereConditions := conditions), true, rest)
  }

  function ReadOrderOn(q: Query, started: bool, words: seq<Word>): (r: Reading<Query>)
    ensures r.Read? ==> |r.rest| <= |words|
    decreases |words|, 8
  {
    if !Comes(started, words, OrderBy) then ReadLimitOn(q, started, words)
    else
      match ReadSorts(Onward(started, words)[1..])
      case Unreadable => Unreadable
      case Read(sorts, rest) => ReadLimitOn(q.(sortbyList := sorts), true, rest)
  }

  function ReadNumber(words: seq<Word>): (r: Reading<nat>)
    ensures r.Read? ==> |r.rest| < |words|
  {
    if words != [] && words[0].Value? && words[0].value.Number? && words[0].value.n >= 0
    then Read(words[0].value.n, words[1..])
    else Unreadable
  }

  function ReadLimitOn(q: Query, started: bool, words: seq<Word>): (r: Reading<Query>)
    ensures r.Read? ==> |r.rest| <= |words|
  {
    if !Comes(started, words, Limit) then ReadOffsetOn(q, started, words)
    else
      match ReadNumber(Onward(started, words)[1..])
      case Unreadable => Unreadable
      case Read(n, rest) => ReadOffsetOn(q.(limitValue := Some(n)), true, rest)
  }

  function ReadOffsetOn(q: Query, started: bool, words: seq<Word>): (r: Reading<Query>)
    ensures r.Read? ==> |r.rest| <= |words|
  {
    if !Comes(started, words, Offset) then Read(q, words)
    else
      match ReadNumber(Onward(started, words)[1..])
      case Unreadable => Unreadable
      case Read(n, rest) => Read(q.(offsetValue := Some(n)), rest)
  }

  /** A whole statement: nothing may be left over. */
  function ReadStatement(sql: seq<Token>): Option<Query> {
    match ReadQuery(Words(sql))
    case Unreadable => None
    case Read(query, rest) => if rest == [] then Some(query) else None
  }
}
