/**
 The paged scan of the PostgreSQL event store (`scan` and `scan_query` in
 store/adapters/postgres/adapter.py): one query per page, each resuming after the last
 sequence number yielded, against a table that may grow in between.
 */
module PagedScan {
  import opened Prelude
  import opened Ordering
  import opened Values
  import opened SqlQuery
  import opened Evaluation
  import opened PagingEvaluation
  import opened PagingRefinement

  datatype ScanTarget =
    | LogTarget
    | CategoryTarget(category: string)
    | StreamTarget(category: string, stream: string)
  {
    function NameOfCategory(): string {
      if LogTarget? then "" else category
    }

    function NameOfStream(): string {
      if StreamTarget? then stream else ""
    }
  }

  /** A constraint on sequence numbers, or one of a type registered by the application. */
  datatype ScanConstraint =
    | SequenceNumberAfter(sequenceNumber: int)
    | Registered(condition: SqlQuery.Expression)

  const SEQUENCE_NUMBER := Column("sequence_number")

  const BY_NUMBER := [SortBy(SEQUENCE_NUMBER, None)]

  function NameCondition(field: string, name: string): seq<SqlQuery.Expression> {
    if name == "" then [] else [Comparison(Single(Column(field)), Equals, Single(Constant(Text(name))))]
  }

  /** An empty name counts as no name. */
  function TargetConditions(target: ScanTarget): seq<SqlQuery.Expression> {
    match target
    case LogTarget => []
    case CategoryTarget(category) => NameCondition("category", category)
    case StreamTarget(category, stream) => NameCondition("category", category) + NameCondition("stream", stream)
  }

  function ConstraintCondition(constraint: ScanConstraint): SqlQuery.Expression {
    match constraint
    case SequenceNumberAfter(n) => Comparison(Single(SEQUENCE_NUMBER), GreaterThan, Single(Constant(Number(n))))
    case Registered(condition) => condition
  }

  /** The query for one page; `constraints` lists the set in the order it iterates. */
  function ScanQuery(table: string, target: ScanTarget, constraints: seq<ScanConstraint>, pageSize: nat): Query {
    EMPTY_QUERY.SelectAll().FromTable(table)
    .Where(TargetConditions(target))
    .Where(Map(ConstraintCondition, constraints))
    .OrderBy(BY_NUMBER)
    .Limit(pageSize)
  }

  // What a scan is meant to read.

  predicate InTarget(target: ScanTarget, row: Row) {
    match target
    case LogTarget => true
    case CategoryTarget(category) => Lookup(row, "category") == Text(category)
    case StreamTarget(category, stream) =>
      Lookup(row, "category") == Text(category) && Lookup(row, "stream") == Text(stream)
  }

  /** What a query confines a scan to: an empty name confines it to nothing. */
  predicate Scanned(target: ScanTarget, row: Row) {
    match target
    case LogTarget => true
    case CategoryTarget(category) => Named(row, "category", category)
    case StreamTarget(category, stream) => Named(row, "category", category) && Named(row, "stream", stream)
  }

  predicate Named(row: Row, field: string, name: string) {
    name == "" || Lookup(row, field) == Text(name)
  }

  predicate NonEmptyNames(target: ScanTarget) {
    match target
    case LogTarget => true
    case CategoryTarget(category) => category != ""
    case StreamTarget(category, stream) => category != "" && stream != ""
  }

  predicate Satisfies(db: Database, constraint: ScanConstraint, row: Row) {
    match constraint
    case SequenceNumberAfter(n) => NumberOf(row) > n
    case Registered(condition) => Holds(db, map[], condition, row)
  }

  function NumberOf(row: Row): int {
    match Lookup(row, "sequence_number")
    case Number(n) => n
    case _ => 0
  }

  ghost predicate Wanted(db: Database, target: ScanTarget, constraints: set<ScanConstraint>, row: Row) {
    Scanned(target, row) && SatisfiesAll(db, constraints, row)
  }

  ghost predicate SatisfiesAll(db: Database, constraints: set<ScanConstraint>, row: Row) {
    forall constraint :: constraint in constraints ==> Satisfies(db, constraint, row)
  }

  ghost function Wanting(db: Database, target: ScanTarget, constraints: set<ScanConstraint>): Row -> bool {
    (row: Row) => Wanted(db, target, constraints, row)
  }

  /** One constrained scan of a table, in sequence order. */
  ghost function OneShot(db: Database, target: ScanTarget, constraints: set<ScanConstraint>, rows: seq<Row>): seq<Row> {
    Sort(By(db, BY_NUMBER), Filter(Wanting(db, target, constraints), rows))
  }

  /** The constrained scan of just the events of the target. */
  ghost function TargetScan(
    db: Database, target: ScanTarget, constraints: set<ScanConstraint>, rows: seq<Row>): seq<Row>
  {
    Sort(By(db, BY_NUMBER), Filter(WantingInTarget(db, target, constraints), rows))
  }

  ghost function WantingInTarget(db: Database, target: ScanTarget, constraints: set<ScanConstraint>): Row -> bool {
    (row: Row) => InTarget(target, row) && SatisfiesAll(db, constraints, row)
  }

  /** A table of events: every row numbered, no number twice. */
  ghost predicate EventTable(rows: seq<Row>) {
    && (forall row :: row in rows ==> Lookup(row, "sequence_number").Number?)
    && (forall i, j :: 0 <= i < j < |rows| ==> NumberOf(rows[i]) != NumberOf(rows[j]))
  }

  /** Rows were only added, with numbers beyond those there before. */
  ghost predicate Grown(before: seq<Row>, after: seq<Row>) {
    && before <= after
    && forall i, j :: 0 <= i < |before| <= j < |after| ==> NumberOf(after[i]) < NumberOf(after[j])
  }

  /** Filters of registered constraints do not look at other queries. */
  ghost predicate PlainConstraints(constraints: set<ScanConstraint>) {
    forall constraint :: constraint in constraints && constraint.Registered? ==> SelfContained(constraint.condition)
  }

  // The query means its page.

  lemma NumberOrder(db: Database, a: Row, b: Row)
    requires Lookup(a, "sequence_number").Number? && Lookup(b, "sequence_number").Number?
    ensures By(db, BY_NUMBER)(a, b) <==> NumberOf(a) < NumberOf(b)
  {
    assert BY_NUMBER[1..] == [];
    var x, y := Lookup(a, "sequence_number"), Lookup(b, "sequence_number");
    assert EvalExpression(db, SEQUENCE_NUMBER, a) == x && EvalExpression(db, SEQUENCE_NUMBER, b) == y;
    assert Precedes(db, BY_NUMBER, a, b) == if x == y then Precedes(db, BY_NUMBER[1..], a, b) else Below(x, y);
  }

  lemma NameMeaning(db: Database, env: Environment, field: string, name: string, row: Row)
    ensures HoldAll(db, env, NameCondition(field, name), row) <==> Named(row, field, name)
  {
    if name != "" {
      var condition := Comparison(Single(Column(field)), Equals, Single(Constant(Text(name))));
      assert NameCondition(field, name) == [condition];
      HoldAllEach(db, env, [condition], row);
      assert Holds(db, env, condition, row) == RowEquals([Lookup(row, field)], [Text(name)]);
    }
  }

  lemma TargetMeaning(db: Database, env: Environment, target: ScanTarget, row: Row)
    ensures HoldAll(db, env, TargetConditions(target), row) <==> Scanned(target, row)
  {
    match target
    case LogTarget =>
    case CategoryTarget(category) => NameMeaning(db, env, "category", category, row);
    case StreamTarget(category, stream) =>
      NameMeaning(db, env, "category", category, row);
      NameMeaning(db, env, "stream", stream, row);
      HoldAllConcat(db, env, NameCondition("category", category), NameCondition("stream", stream), row);
  }

  /** The first event of a table, in every named category and stream of the target, else somewhere outside it. */
  function Outsider(target: ScanTarget): Row {
    [Cell("sequence_number", Number(0)),
     Cell("category", Text(NameBeside(target.NameOfCategory()))),
     Cell("stream", Text(NameBeside(target.NameOfStream())))]
  }

  function NameBeside(name: string): string {
    if name == "" then "x" else name
  }

  lemma OutsiderIsScanned(target: ScanTarget)
    ensures Scanned(target, Outsider(target))
    ensures InTarget(target, Outsider(target)) <==> NonEmptyNames(target)
  {
    var row := Outsider(target);
    assert Lookup(row, "category") == Lookup(row[1..], "category") == row[1].value;
    assert Lookup(row, "stream") == Lookup(row[1..], "stream") == Lookup(row[1..][1..], "stream") == row[2].value;
  }

  /** The conditions confine a query to the target exactly when the target has no empty name. */
  lemma ConfinedExactly(db: Database, env: Environment, target: ScanTarget)
    ensures NonEmptyNames(target)
       <==> forall row :: HoldAll(db, env, TargetConditions(target), row) <==> InTarget(target, row)
  {
    forall row ensures HoldAll(db, env, TargetConditions(target), row) <==> Scanned(target, row) {
      TargetMeaning(db, env, target, row);
    }
    OutsiderIsScanned(target);
    assert HoldAll(db, env, TargetConditions(target), Outsider(target));
  }

  ghost predicate ScansItsTarget(
    db: Database, target: ScanTarget, constraints: set<ScanConstraint>, rows: seq<Row>)
  {
    OneShot(db, target, constraints, rows) == TargetScan(db, target, constraints, rows)
  }

  /** A scan reads just the events of its target, on every table, exactly when the target has no empty name. */
  lemma ScansItsTargetExactly(db: Database, target: ScanTarget)
    ensures NonEmptyNames(target)
       <==> forall constraints, rows :: EventTable(rows) ==> ScansItsTarget(db, target, constraints, rows)
  {
    if NonEmptyNames(target) {
      forall constraints, rows ensures ScansItsTarget(db, target, constraints, rows) {
        FilterExtensional(Wanting(db, target, constraints), WantingInTarget(db, target, constraints), rows);
      }
    } else {
      StrayScan(db, target);
    }
  }

  /** Otherwise a table of one event shows the difference. */
  lemma StrayScan(db: Database, target: ScanTarget)
    requires !NonEmptyNames(target)
    ensures EventTable([Outsider(target)]) && !ScansItsTarget(db, target, {}, [Outsider(target)])
  {
    var rows := [Outsider(target)];
    OutsiderIsScanned(target);
    assert rows[1..] == [];
    assert Filter(Wanting(db, target, {}), rows) == rows;
    assert Filter(WantingInTarget(db, target, {}), rows) == [];
    SortMembership(By(db, BY_NUMBER), rows);
    SortMembership(By(db, BY_NUMBER), []);
    assert rows[0] in Sort(By(db, BY_NUMBER), rows);
    assert |Sort(By(db, BY_NUMBER), [])| == 0;
  }

  lemma ConstraintMeaning(db: Database, env: Environment, constraint: ScanConstraint, row: Row)
    requires Lookup(row, "sequence_number").Number?
    requires constraint.Registered? ==> SelfContained(constraint.condition)
    ensures Holds(db, env, ConstraintCondition(constraint), row) <==> Satisfies(db, constraint, row)
  {
    match constraint
    case SequenceNumberAfter(n) =>
      var x := Lookup(row, "sequence_number");
      assert RowBelow([Number(n)], [x]) == (n < x.n) by {
        assert [Number(n)][1..] == [] && [x][1..] == [];
      }
    case Registered(condition) =>
      SelfContainedHoldAll(db, env, map[], [condition], row);
      HoldAllEach(db, env, [condition], row);
      HoldAllEach(db, map[], [condition], row);
      assert [condition][0] == condition;
  }

  function ScanConditions(target: ScanTarget, constraints: seq<ScanConstraint>): seq<SqlQuery.Expression> {
    TargetConditions(target) + Map(ConstraintCondition, constraints)
  }

  lemma ConditionsMeaning(
    db: Database, env: Environment, target: ScanTarget, constraints: seq<ScanConstraint>, row: Row)
    requires Lookup(row, "sequence_number").Number? && PlainConstraints(ToSet(constraints))
    ensures HoldAll(db, env, ScanConditions(target, constraints), row) <==> Wanted(db, target, ToSet(constraints), row)
  {
    var conditions := Map(ConstraintCondition, constraints);
    TargetMeaning(db, env, target, row);
    HoldAllConcat(db, env, TargetConditions(target), conditions, row);
    HoldAllEach(db, env, conditions, row);
    forall i | 0 <= i < |constraints|
      ensures Holds(db, env, conditions[i], row) <==> Satisfies(db, constraints[i], row)
    {
      assert constraints[i] in ToSet(constraints);
      ConstraintMeaning(db, env, constraints[i], row);
    }
  }

  /** A page is the first rows of the one-shot scan. */
  lemma PageMeaning(
    db: Database, env: Environment, table: string, target: ScanTarget, constraints: seq<ScanConstraint>, pageSize: nat)
    requires table in env && EventTable(env[table]) && PlainConstraints(ToSet(constraints))
    ensures EvalQuery(db, env, ScanQuery(table, target, constraints, pageSize))
         == Take(pageSize, OneShot(db, target, ToSet(constraints), env[table]))
  {
    var q := ScanQuery(table, target, constraints, pageSize);
    SelectAllTarget(EMPTY_QUERY);
    assert q.whereConditions == ScanConditions(target, constraints);
    assert q.sortbyList == BY_NUMBER;
    EvalLimited(db, env, q, table, pageSize);
    forall row | row in env[table]
      ensures Matching(db, env, ScanConditions(target, constraints))(row)
          == Wanting(db, target, ToSet(constraints))(row)
    {
      ConditionsMeaning(db, env, target, constraints, row);
    }
    FilterExtensional(Matching(db, env, ScanConditions(target, constraints)),
                      Wanting(db, target, ToSet(constraints)), env[table]);
  }

  // The scan.

  function Others(constraints: set<ScanConstraint>): set<ScanConstraint> {
    set constraint | constraint in constraints && !constraint.SequenceNumberAfter?
  }

  function Resumed(constraints: set<ScanConstraint>, last: int): set<ScanConstraint> {
    Others(constraints) + {SequenceNumberAfter(last)}
  }

  ghost predicate Ascending(rows: seq<Row>) {
    forall i, j :: 0 <= i < j < |rows| ==> NumberOf(rows[i]) < NumberOf(rows[j])
  }

  lemma {:induction false} FilteredTable(p: Row -> bool, rows: seq<Row>)
    requires EventTable(rows)
    ensures EventTable(Filter(p, rows))
  {
    if rows != [] {
      var rest := rows[1..];
      assert EventTable(rest) by {
        assert forall i :: 0 <= i < |rest| ==> rest[i] == rows[i + 1];
      }
      FilteredTable(p, rest);
      if p(rows[0]) {
        forall row | row in Filter(p, rest) ensures NumberOf(row) != NumberOf(rows[0]) {
          var j :| 0 <= j < |rest| && rest[j] == row;
          assert rows[j + 1] == row;
        }
      }
    }
  }

  /** The one-shot scan yields strictly ascending numbers. */
  lemma OneShotAscends(
    db: Database, target: ScanTarget, constraints: set<ScanConstraint>, rows: seq<Row>)
    requires EventTable(rows)
    ensures var scanned := OneShot(db, target, constraints, rows);
      Ascending(scanned) && forall row :: row in scanned <==> row in rows && Wanted(db, target, constraints, row)
  {
    var matching := Filter(Wanting(db, target, constraints), rows);
    FilteredTable(Wanting(db, target, constraints), rows);
    SortedAscends(db, matching);
    SortMembership(By(db, BY_NUMBER), matching);
  }

  lemma {:induction false} SortedAscends(db: Database, rows: seq<Row>)
    requires EventTable(rows)
    ensures Ascending(Sort(By(db, BY_NUMBER), rows))
  {
    if rows != [] {
      var rest := rows[1..];
      assert EventTable(rest) by {
        assert forall i :: 0 <= i < |rest| ==> rest[i] == rows[i + 1];
      }
      SortedAscends(db, rest);
      SortMembership(By(db, BY_NUMBER), rest);
      var sorted := Sort(By(db, BY_NUMBER), rest);
      forall row | row in sorted
        ensures Lookup(row, "sequence_number").Number? && NumberOf(row) != NumberOf(rows[0])
      {
        var j :| 0 <= j < |rest| && rest[j] == row;
        assert rows[j + 1] == row;
      }
      InsertAscends(db, rows[0], sorted);
    }
  }

  lemma {:induction false} InsertAscends(db: Database, row: Row, rows: seq<Row>)
    requires Lookup(row, "sequence_number").Number? && Ascending(rows)
    requires forall x :: x in rows ==> Lookup(x, "sequence_number").Number? && NumberOf(x) != NumberOf(row)
    ensures Ascending(Insert(By(db, BY_NUMBER), row, rows))
  {
    var lt := By(db, BY_NUMBER);
    if rows != [] {
      NumberOrder(db, rows[0], row);
      if lt(rows[0], row) {
        InsertAscends(db, row, rows[1..]);
        FirstStaysFirst(rows[0], row, rows[1..], Insert(lt, row, rows[1..]));
      } else {
        assert forall j :: 0 <= j < |rows| ==> NumberOf(rows[0]) <= NumberOf(rows[j]);
      }
    }
  }

  lemma FirstStaysFirst(first: Row, row: Row, rest: seq<Row>, inserted: seq<Row>)
    requires NumberOf(first) < NumberOf(row) && forall x :: x in rest ==> NumberOf(first) < NumberOf(x)
    requires Ascending(inserted) && multiset(inserted) == multiset(rest) + multiset{row}
    ensures Ascending([first] + inserted)
  {
    forall j | 0 <= j < |inserted| ensures NumberOf(first) < NumberOf(inserted[j]) {
      assert inserted[j] in multiset(inserted);
      assert inserted[j] == row || inserted[j] in rest;
    }
  }

  /** Ascending sequences with the same members are equal. */
  lemma {:induction false} AscendingUnique(a: seq<Row>, b: seq<Row>)
    requires Ascending(a) && Ascending(b) && forall row :: row in a <==> row in b
    ensures a == b
  {
    HasMember(a);
    HasMember(b);
    if a != [] && b != [] {
      SameFirst(a, b);
      AscendingRest(a);
      AscendingRest(b);
      AscendingUnique(a[1..], b[1..]);
      assert a == [a[0]] + a[1..] && b == [b[0]] + b[1..];
    }
  }

  lemma SameFirst(a: seq<Row>, b: seq<Row>)
    requires a != [] && b != [] && Ascending(a) && Ascending(b) && forall row :: row in a <==> row in b
    ensures a[0] == b[0]
  {
    assert a[0] in b && b[0] in a;
    var i :| 0 <= i < |b| && b[i] == a[0];
    var j :| 0 <= j < |a| && a[j] == b[0];
  }

  lemma AscendingRest(a: seq<Row>)
    requires a != [] && Ascending(a)
    ensures Ascending(a[1..]) && forall row :: row in a[1..] <==> row in a && row != a[0]
  {
  }

  /** After yielding a beginning of the scan, what a resumed scan finds is the rest. */
  lemma ResumedIsRest(
    db: Database, target: ScanTarget, constraints: set<ScanConstraint>, rows: seq<Row>, n: nat)
    requires EventTable(rows)
    requires 0 < n <= |OneShot(db, target, constraints, rows)|
    ensures var scanned := OneShot(db, target, constraints, rows);
      OneShot(db, target, Resumed(constraints, NumberOf(scanned[n - 1])), rows) == scanned[n..]
  {
    var scanned := OneShot(db, target, constraints, rows);
    var last := NumberOf(scanned[n - 1]);
    var resumed := OneShot(db, target, Resumed(constraints, last), rows);
    OneShotAscends(db, target, constraints, rows);
    OneShotAscends(db, target, Resumed(constraints, last), rows);
    forall row ensures row in resumed <==> row in scanned[n..] {
      ResumedWants(db, target, constraints, scanned[n - 1], row);
      assert row in resumed <==> row in scanned && NumberOf(row) > last;
      if row in scanned {
        var i :| 0 <= i < |scanned| && scanned[i] == row;
        assert i >= n ==> scanned[n..][i - n] == row;
      }
    }
    AscendingUnique(resumed, scanned[n..]);
  }

  lemma ResumedWants(
    db: Database, target: ScanTarget, constraints: set<ScanConstraint>, seen: Row, row: Row)
    requires Wanted(db, target, constraints, seen)
    ensures Wanted(db, target, Resumed(constraints, NumberOf(seen)), row)
        <==> Wanted(db, target, constraints, row) && NumberOf(row) > NumberOf(seen)
  {
  }

  /** What was added meanwhile goes to the end of the one-shot scan. */
  lemma GrowthExtends(
    db: Database, target: ScanTarget, constraints: set<ScanConstraint>, before: seq<Row>, after: seq<Row>)
    requires EventTable(before) && EventTable(after) && Grown(before, after)
    ensures OneShot(db, target, constraints, before) <= OneShot(db, target, constraints, after)
  {
    var more := after[|before|..];
    var a, added := OneShot(db, target, constraints, before), OneShot(db, target, constraints, more);
    assert after == before + more;
    OneShotAscends(db, target, constraints, before);
    AddedTable(before, after);
    OneShotAscends(db, target, constraints, more);
    OneShotAscends(db, target, constraints, after);
    AddedAreHigher(before, after);
    ConcatAscends(a, added);
    AscendingUnique(a + added, OneShot(db, target, constraints, after));
  }

  lemma AddedTable(before: seq<Row>, after: seq<Row>)
    requires EventTable(after) && before <= after
    ensures EventTable(after[|before|..])
  {
  }

  lemma AddedAreHigher(before: seq<Row>, after: seq<Row>)
    requires Grown(before, after)
    ensures forall x, y :: x in before && y in after[|before|..] ==> NumberOf(x) < NumberOf(y)
  {
  }

  lemma ConcatAscends(a: seq<Row>, b: seq<Row>)
    requires Ascending(a) && Ascending(b) && forall x, y :: x in a && y in b ==> NumberOf(x) < NumberOf(y)
    ensures Ascending(a + b)
  {
  }

  // The table over time: `tables(i)` is what the i-th query sees.

  ghost predicate GrowsAt(tables: nat -> seq<Row>, i: nat) {
    EventTable(tables(i)) && EventTable(tables(i + 1)) && Grown(tables(i), tables(i + 1))
  }

  /** Rows are only appended, with higher numbers, and after query `settled` nothing more is. */
  ghost predicate Growing(tables: nat -> seq<Row>, settled: nat) {
    && (forall i: nat :: GrowsAt(tables, i))
    && (forall i: nat :: i >= settled ==> tables(i) == tables(settled))
  }

  lemma NeverShrinks(
    db: Database, target: ScanTarget, constraints: set<ScanConstraint>, before: seq<Row>, after: seq<Row>)
    requires EventTable(before) && EventTable(after) && Grown(before, after)
    ensures |OneShot(db, target, constraints, before)| <= |OneShot(db, target, constraints, after)|
  {
    GrowthExtends(db, target, constraints, before, after);
  }

  lemma {:induction false} NeverBeyondSettled(
    db: Database, target: ScanTarget, constraints: set<ScanConstraint>, tables: nat -> seq<Row>, settled: nat, i: nat)
    requires Growing(tables, settled)
    ensures |OneShot(db, target, constraints, tables(i))| <= |OneShot(db, target, constraints, tables(settled))|
    decreases settled - i
  {
    if i < settled {
      assert GrowsAt(tables, i);
      NeverShrinks(db, target, constraints, tables(i), tables(i + 1));
      NeverBeyondSettled(db, target, constraints, tables, settled, i + 1);
    }
  }

  /** The cursor after yielding `yielded`: nothing at first, then the last number seen. */
  function Cursor(yielded: seq<Row>): Option<int> {
    if yielded == [] then None else Some(NumberOf(yielded[|yielded| - 1]))
  }

  /** The constraints of the next query: the caller's, or the cursor in place of the caller's cursors. */
  function Current(constraints: set<ScanConstraint>, cursor: Option<int>): set<ScanConstraint> {
    if cursor.None? then constraints else Resumed(constraints, cursor.value)
  }

  lemma NextPageContinues(
    db: Database, target: ScanTarget, constraints: set<ScanConstraint>, rows: seq<Row>, yielded: seq<Row>)
    requires EventTable(rows) && yielded <= OneShot(db, target, constraints, rows)
    ensures OneShot(db, target, Current(constraints, Cursor(yielded)), rows)
         == OneShot(db, target, constraints, rows)[|yielded|..]
  {
    if yielded != [] {
      assert yielded[|yielded| - 1] == OneShot(db, target, constraints, rows)[|yielded| - 1];
      ResumedIsRest(db, target, constraints, rows, |yielded|);
    }
  }

  method ReadPage(
    db: Database, table: string, rows: seq<Row>, target: ScanTarget, constraints: set<ScanConstraint>, pageSize: nat)
    returns (page: seq<Row>)
    requires EventTable(rows) && PlainConstraints(constraints)
    ensures page == Take(pageSize, OneShot(db, target, constraints, rows))
  {
    var order := Enumerate(constraints);
    var env := map[table := rows];
    PageMeaning(db, env, table, target, order, pageSize);
    page := EvalQuery(db, env, ScanQuery(table, target, order, pageSize));
  }

  method YieldEach(before: seq<Row>, page: seq<Row>) returns (yielded: seq<Row>, lastSequenceNumber: Option<int>)
    ensures yielded == before + page && lastSequenceNumber == Cursor(yielded)
  {
    yielded, lastSequenceNumber := before, Cursor(before);
    for i := 0 to |page|
      invariant yielded == before + page[..i]
      invariant lastSequenceNumber == Cursor(yielded)
    {
      yielded := yielded + [page[i]];
      lastSequenceNumber := Some(NumberOf(page[i]));
    }
  }

  ghost predicate ScansAt(
    db: Database, target: ScanTarget, constraints: set<ScanConstraint>, tables: nat -> seq<Row>,
    scans: nat -> seq<Row>, i: nat)
  {
    scans(i) == OneShot(db, target, constraints, tables(i))
  }

  /** `scans` is the one-shot scan of each of the `tables`. */
  ghost predicate Scans(
    db: Database, target: ScanTarget, constraints: set<ScanConstraint>, tables: nat -> seq<Row>, scans: nat -> seq<Row>)
  {
    forall i: nat :: ScansAt(db, target, constraints, tables, scans, i)
  }

  /** What one page adds. */
  lemma QueryStep(
    db: Database, target: ScanTarget, constraints: set<ScanConstraint>, tables: nat -> seq<Row>, settled: nat,
    scans: nat -> seq<Row>, i: nat, yielded: seq<Row>, page: seq<Row>, pageSize: nat)
    requires Growing(tables, settled) && Scans(db, target, constraints, tables, scans)
    requires EventTable(tables(i)) && yielded <= scans(i)
    requires page == Take(pageSize, OneShot(db, target, Current(constraints, Cursor(yielded)), tables(i)))
    ensures |page| != pageSize ==> yielded + page == scans(i)
    ensures |page| == pageSize ==> yielded + page <= scans(i + 1)
    ensures |yielded + page| <= |scans(settled)|
  {
    assert GrowsAt(tables, i);
    assert ScansAt(db, target, constraints, tables, scans, i) && ScansAt(db, target, constraints, tables, scans, i + 1);
    assert ScansAt(db, target, constraints, tables, scans, settled);
    NextPageContinues(db, target, constraints, tables(i), yielded);
    NeverBeyondSettled(db, target, constraints, tables, settled, i);
    GrowthExtends(db, target, constraints, tables(i), tables(i + 1));
    PageStep(yielded, page, scans(i), scans(i + 1), pageSize);
  }

  lemma PageStep(yielded: seq<Row>, page: seq<Row>, now: seq<Row>, next: seq<Row>, n: nat)
    requires yielded <= now <= next && page == Take(n, now[|yielded|..])
    ensures |page| != n ==> yielded + page == now
    ensures yielded + page <= next && |yielded + page| <= |now|
  {
  }

  /** One query of a scan that has yielded `yielded` so far. */
  method ReadNextPage(
    db: Database, table: string, tables: nat -> seq<Row>, ghost settled: nat, ghost scans: nat -> seq<Row>,
    target: ScanTarget, ghost constraints: set<ScanConstraint>, current: set<ScanConstraint>, pageSize: nat,
    i: nat, ghost yielded: seq<Row>)
    returns (page: seq<Row>)
    requires PlainConstraints(constraints)
    requires Growing(tables, settled) && Scans(db, target, constraints, tables, scans)
    requires current == Current(constraints, Cursor(yielded)) && yielded <= scans(i)
    ensures |page| <= pageSize
    ensures |page| != pageSize ==> yielded + page == scans(i)
    ensures |page| == pageSize ==> yielded + page <= scans(i + 1)
    ensures |yielded + page| <= |scans(settled)|
  {
    assert GrowsAt(tables, i);
    assert PlainConstraints(current);
    page := ReadPage(db, table, tables(i), target, current, pageSize);
    QueryStep(db, target, constraints, tables, settled, scans, i, yielded, page, pageSize);
  }

  method ScanPages(
    db: Database, table: string, tables: nat -> seq<Row>, ghost settled: nat, ghost scans: nat -> seq<Row>,
    target: ScanTarget, constraints: set<ScanConstraint>, pageSize: nat)
    returns (yielded: seq<Row>, queries: nat)
    requires pageSize >= 1 && PlainConstraints(constraints)
    requires Growing(tables, settled) && Scans(db, target, constraints, tables, scans)
    ensures queries >= 1 && yielded == scans(queries - 1)
  {
    yielded, queries := [], 0;
    var current := constraints;
    var lastSequenceNumber: Option<int> := None;
    var keepQuerying := true;
    while keepQuerying
      invariant keepQuerying ==> yielded <= scans(queries)
      invariant !keepQuerying ==> queries >= 1 && yielded == scans(queries - 1)
      invariant lastSequenceNumber == Cursor(yielded)
      invariant Others(current) == Others(constraints) && (yielded == [] ==> current == constraints)
      decreases keepQuerying, |scans(settled)| - |yielded|
    {
      if lastSequenceNumber.Some? {
        current := Resumed(current, lastSequenceNumber.value);
      }
      var page := ReadNextPage(
        db, table, tables, settled, scans, target, constraints, current, pageSize, queries, yielded);
      keepQuerying := |page| == pageSize;
      yielded, lastSequenceNumber := YieldEach(yielded, page);
      queries := queries + 1;
    }
  }

  /**
   The scan yields exactly the matches in the table as it was read last, in sequence order, as
   a single scan of that table would.
   */
  method Scan(
    db: Database, table: string, tables: nat -> seq<Row>, ghost settled: nat, target: ScanTarget,
    constraints: set<ScanConstraint>, pageSize: nat)
    returns (yielded: seq<Row>, queries: nat)
    requires pageSize >= 1 && PlainConstraints(constraints) && Growing(tables, settled)
    ensures queries >= 1 && yielded == OneShot(db, target, constraints, tables(queries - 1))
    ensures Ascending(yielded)
  {
    ghost var scans := (i: nat) => OneShot(db, target, constraints, tables(i));
    assert forall i: nat :: ScansAt(db, target, constraints, tables, scans, i);
    yielded, queries := ScanPages(db, table, tables, settled, scans, target, constraints, pageSize);
    assert GrowsAt(tables, queries - 1);
    OneShotAscends(db, target, constraints, tables(queries - 1));
  }

  /** On a table nobody writes to, paging is invisible. */
  method ScanFixed(
    db: Database, table: string, rows: seq<Row>, target: ScanTarget, constraints: set<ScanConstraint>, pageSize: nat)
    returns (yielded: seq<Row>)
    requires pageSize >= 1 && PlainConstraints(constraints) && EventTable(rows)
    ensures yielded == OneShot(db, target, constraints, rows)
  {
    var tables := (i: nat) => rows;
    assert forall i: nat :: GrowsAt(tables, i);
    var queries;
    yielded, queries := Scan(db, table, tables, 0, target, constraints, pageSize);
  }
}
