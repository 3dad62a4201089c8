/**
 The in-memory twin of the compiled searches, persistence/memory/converters/clause.py: filter,
 one stable sort per field from the last to the first, then a slice; and where the two back
 ends agree.
 */
module MemorySearch {
  import opened Prelude
  import opened Ordering
  import opened Values
  import opened SqlQuery
  import opened Evaluation
  import opened KeySetPaging
  import opened PagingEvaluation
  import opened PagingRefinement
  import opened MixedPaging
  import opened PagingLaws
  import opened PageWalks
  import opened Walking

  /** Both back ends read the same value for a field. */
  function Key(db: Database, field: Path, row: Row): Value {
    EvalExpression(db, ExpressionForPath(field), row)
  }

  /** The comparison of `sorted(results, key=..., reverse=...)`; reversing keeps it stable. */
  function KeyOrder(db: Database, field: SortField): (Row, Row) -> bool {
    (a: Row, b: Row) =>
      if field.order == Descending then Below(Key(db, field.field, b), Key(db, field.field, a))
      else Below(Key(db, field.field, a), Key(db, field.field, b))
  }

  function SortPasses(db: Database, fields: seq<SortField>, rows: seq<Row>): seq<Row> {
    if fields == [] then rows
    else SortPasses(db, fields[1..], Sort(KeyOrder(db, fields[0]), rows))
  }

  /** `reduce` over the reversed fields: the first field is sorted by last. */
  function SortRows(db: Database, fields: seq<SortField>, rows: seq<Row>): seq<Row> {
    SortPasses(db, Reverse(fields), rows)
  }

  datatype LastIndex = NotProvided | NotFound | Found(index: nat)

  function IndicesOf(rows: seq<Row>, id: Value, start: nat): (r: seq<nat>)
    ensures forall i :: i in r <==> start <= i < start + |rows| && Id(rows[i - start]) == id
  {
    if rows == [] then []
    else
      var rest := IndicesOf(rows[1..], id, start + 1);
      if Id(rows[0]) == id then [start] + rest else rest
  }

  function DetermineLastIndex(rows: seq<Row>, lastId: Option<Value>): LastIndex {
    match lastId
    case None => NotProvided
    case Some(id) =>
      var indices := IndicesOf(rows, id, 0);
      if |indices| != 1 then NotFound else Found(indices[0])
  }

  function PageRows(clause: KeySetPagingClause, rows: seq<Row>): seq<Row> {
    var n := clause.itemCount;
    match (DetermineLastIndex(rows, clause.lastId), clause.direction)
    case (NotFound, _) => []
    case (NotProvided, Backwards) => []
    case (NotProvided, Forwards) => Take(n, rows)
    case (Found(i), Forwards) => Take(n, Skip(i + 1, rows))
    case (Found(i), Backwards) =>
      var upto := Take(i, rows);
      Skip(if n <= |upto| then |upto| - n else 0, upto)
  }

  function OffsetRows(clause: OffsetPagingClause, rows: seq<Row>): seq<Row>
    requires clause.pageNumber >= 1
  {
    Take(clause.itemCount, Skip((clause.pageNumber - 1) * clause.itemCount, rows))
  }

  function MemorySearch(
    db: Database, filter: Row -> bool, fields: seq<SortField>, clause: KeySetPagingClause, rows: seq<Row>): seq<Row>
  {
    PageRows(clause, SortRows(db, fields, Filter(filter, rows)))
  }

  // Repeated stable sorts are one lexicographic stable sort.

  lemma {:induction false} SortPassesConcat(db: Database, a: seq<SortField>, b: seq<SortField>, rows: seq<Row>)
    ensures SortPasses(db, a + b, rows) == SortPasses(db, b, SortPasses(db, a, rows))
  {
    if a == [] {
      assert a + b == b;
    } else {
      assert (a + b)[1..] == a[1..] + b;
      SortPassesConcat(db, a[1..], b, Sort(KeyOrder(db, a[0]), rows));
    }
  }

  lemma KeyOrderIsBy(db: Database, field: SortField, rows: seq<Row>)
    ensures Sort(KeyOrder(db, field), rows) == Sort(By(db, [ToSortBy(field)]), rows)
  {
    forall a, b ensures KeyOrder(db, field)(a, b) == By(db, [ToSortBy(field)])(a, b) {
      SinglePrecedes(db, ToSortBy(field), a, b);
      BelowTotal(Key(db, field.field, a), Key(db, field.field, b));
    }
    SortExtensional(KeyOrder(db, field), By(db, [ToSortBy(field)]), rows);
  }

  /** Elements a filter keeps stand in a sorted filtered sequence as they stood. */
  lemma {:induction false} FilteredPair(lt: (Row, Row) -> bool, p: Row -> bool, s: seq<Row>, i: nat, j: nat)
    requires Sorted(lt, Filter(p, s)) && i < j < |s| && p(s[i]) && p(s[j])
    ensures !lt(s[j], s[i])
  {
    if i == 0 {
      assert s[j] in s[1..] by {
        assert s[1..][j - 1] == s[j];
      }
      assert s[j] in Filter(p, s[1..]);
      var k :| 0 <= k < |Filter(p, s[1..])| && Filter(p, s[1..])[k] == s[j];
      assert Filter(p, s)[0] == s[i] && Filter(p, s)[k + 1] == s[j];
    } else {
      assert Sorted(lt, Filter(p, s[1..])) by {
        if p(s[0]) {
          assert Filter(p, s[1..]) == Filter(p, s)[1..];
        }
      }
      FilteredPair(lt, p, s[1..], i - 1, j - 1);
    }
  }

  /** Sorting by `sort` what is sorted by `rest` sorts by both, lexicographically. */
  lemma SortAfterSort(db: Database, sort: SortBy, rest: seq<SortBy>, rows: seq<Row>)
    ensures Sort(By(db, [sort]), Sort(By(db, rest), rows)) == Sort(By(db, [sort] + rest), rows)
  {
    var one, both := By(db, [sort]), By(db, [sort] + rest);
    var inner := Sort(By(db, rest), rows);
    var out := Sort(one, inner);
    ByWeakOrder(db, [sort]);
    ByWeakOrder(db, [sort] + rest);
    SortSorted(one, inner);
    forall i, j | 0 <= i < j < |out| ensures !both(out[j], out[i]) {
      SortedByBoth(db, sort, rest, rows, i, j);
    }
    SameTiesTwice(db, sort, rest, rows);
    SortSorted(both, rows);
    SameTiesSort(both, rows);
    forall x ensures Filter(TiedWith(both, x), out) == Filter(TiedWith(both, x), Sort(both, rows)) {
      assert Filter(TiedWith(both, x), out) == Filter(TiedWith(both, x), rows);
      assert Filter(TiedWith(both, x), Sort(both, rows)) == Filter(TiedWith(both, x), rows);
    }
    StableUnique(both, out, Sort(both, rows));
  }

  lemma BothPrecedes(db: Database, sort: SortBy, rest: seq<SortBy>, a: Row, b: Row)
    ensures By(db, [sort] + rest)(a, b) <==>
            By(db, [sort])(a, b) || (Tied(By(db, [sort]), a, b) && By(db, rest)(a, b))
  {
    assert ([sort] + rest)[1..] == rest;
    SinglePrecedes(db, sort, a, b);
    SinglePrecedes(db, sort, b, a);
    var x, y := EvalExpression(db, sort.expression, a), EvalExpression(db, sort.expression, b);
    if x != y {
      BelowTotal(x, y);
      if Below(x, y) {
        BelowAsymmetric(x, y);
      } else {
        BelowAsymmetric(y, x);
      }
    }
  }

  lemma SortedByBoth(db: Database, sort: SortBy, rest: seq<SortBy>, rows: seq<Row>, i: nat, j: nat)
    requires i < j < |rows|
    ensures var out := Sort(By(db, [sort]), Sort(By(db, rest), rows));
      !By(db, [sort] + rest)(out[j], out[i])
  {
    var one, inner := By(db, [sort]), Sort(By(db, rest), rows);
    var out := Sort(one, inner);
    ByWeakOrder(db, [sort]);
    SortSorted(one, inner);
    BothPrecedes(db, sort, rest, out[j], out[i]);
    if Tied(one, out[j], out[i]) {
      var p := TiedWith(one, out[i]);
      PrecedesIrreflexive(db, [sort], out[i]);
      SameTiesSort(one, inner);
      assert Filter(p, out) == Filter(p, inner);
      SortedFilter(db, rest, p, rows);
      FilteredPair(By(db, rest), p, out, i, j);
    }
  }

  lemma SortedFilter(db: Database, sorts: seq<SortBy>, p: Row -> bool, rows: seq<Row>)
    ensures Sorted(By(db, sorts), Filter(p, Sort(By(db, sorts), rows)))
  {
    ByWeakOrder(db, sorts);
    FilterSort(By(db, sorts), p, rows);
    SortSorted(By(db, sorts), Filter(p, rows));
  }

  lemma SameTiesTwice(db: Database, sort: SortBy, rest: seq<SortBy>, rows: seq<Row>)
    ensures SameTies(By(db, [sort] + rest), Sort(By(db, [sort]), Sort(By(db, rest), rows)), rows)
  {
    var out := Sort(By(db, [sort]), Sort(By(db, rest), rows));
    forall x ensures
      Filter(TiedWith(By(db, [sort] + rest), x), out) == Filter(TiedWith(By(db, [sort] + rest), x), rows)
    {
      TiesKept(db, sort, rest, rows, x);
    }
  }

  lemma TiesKept(db: Database, sort: SortBy, rest: seq<SortBy>, rows: seq<Row>, x: Row)
    ensures var p := TiedWith(By(db, [sort] + rest), x);
      Filter(p, Sort(By(db, [sort]), Sort(By(db, rest), rows))) == Filter(p, rows)
  {
    var p := TiedWith(By(db, [sort] + rest), x);
    FilterSortTwice(db, sort, rest, p, rows);
    SortTies(db, sort, rest, x, Filter(p, rows));
  }

  lemma FilterSortTwice(
      db: Database, sort: SortBy, rest: seq<SortBy>, p: Row -> bool, rows: seq<Row>)
    ensures Filter(p, Sort(By(db, [sort]), Sort(By(db, rest), rows)))
         == Sort(By(db, [sort]), Sort(By(db, rest), Filter(p, rows)))
  {
    ByWeakOrder(db, [sort]);
    ByWeakOrder(db, rest);
    FilterSort(By(db, [sort]), p, Sort(By(db, rest), rows));
    FilterSort(By(db, rest), p, rows);
  }

  lemma SortTies(db: Database, sort: SortBy, rest: seq<SortBy>, x: Row, ties: seq<Row>)
    requires forall a :: a in ties ==> Tied(By(db, [sort] + rest), x, a)
    ensures Sort(By(db, [sort]), Sort(By(db, rest), ties)) == ties
  {
    forall a, b | a in ties && b in ties ensures !By(db, [sort])(a, b) && !By(db, rest)(a, b) {
      BothTied(db, sort, rest, x, a, b);
    }
    SortOfSorted(By(db, rest), ties);
    SortOfSorted(By(db, [sort]), ties);
  }

  lemma BothTied(db: Database, sort: SortBy, rest: seq<SortBy>, x: Row, a: Row, b: Row)
    requires Tied(By(db, [sort] + rest), x, a) && Tied(By(db, [sort] + rest), x, b)
    ensures !By(db, [sort])(a, b) && !By(db, rest)(a, b)
  {
    var both := [sort] + rest;
    TiedByKeys(db, both, x, a);
    TiedByKeys(db, both, x, b);
    TiedByKeys(db, [sort], a, b);
    TiedByKeys(db, rest, a, b);
    assert both[0] == sort;
    assert forall i :: 0 <= i < |rest| ==> both[i + 1] == rest[i];
  }

  /**
   Sorting pass by pass is the one stable sort by the lexicographic order of all fields, each
   in its own direction.
   */
  lemma {:induction false} PassesSortLexicographically(db: Database, fields: seq<SortField>, rows: seq<Row>)
    ensures SortRows(db, fields, rows) == Sort(By(db, Map(ToSortBy, fields)), rows)
  {
    if fields == [] {
      SortOfSorted(By(db, []), rows);
    } else {
      PassesSortLexicographically(db, fields[1..], rows);
      SortPassesConcat(db, Reverse(fields[1..]), [fields[0]], rows);
      assert [fields[0]][1..] == [];
      var inner := SortRows(db, fields[1..], rows);
      assert SortRows(db, fields, rows) == Sort(KeyOrder(db, fields[0]), inner);
      KeyOrderIsBy(db, fields[0], inner);
      SortAfterSort(db, ToSortBy(fields[0]), Map(ToSortBy, fields[1..]), rows);
      assert Map(ToSortBy, fields) == [ToSortBy(fields[0])] + Map(ToSortBy, fields[1..]);
    }
  }

  /**
   The sorted rows are a sorted permutation that keeps full ties in input order, and the only
   arrangement that does.
   */
  lemma SortRowsIsTheStableArrangement(
      db: Database, fields: seq<SortField>, rows: seq<Row>, other: seq<Row>)
    ensures var lt := By(db, Map(ToSortBy, fields));
      var out := SortRows(db, fields, rows);
      && multiset(out) == multiset(rows) && Sorted(lt, out) && SameTies(lt, out, rows)
      && (Sorted(lt, other) && SameTies(lt, other, rows) ==> other == out)
  {
    var lt := By(db, Map(ToSortBy, fields));
    var out := SortRows(db, fields, rows);
    PassesSortLexicographically(db, fields, rows);
    ByWeakOrder(db, Map(ToSortBy, fields));
    SortSorted(lt, rows);
    SameTiesSort(lt, rows);
    if Sorted(lt, other) && SameTies(lt, other, rows) {
      forall x ensures Filter(TiedWith(lt, x), other) == Filter(TiedWith(lt, x), out) {
        assert Filter(TiedWith(lt, x), other) == Filter(TiedWith(lt, x), rows);
        assert Filter(TiedWith(lt, x), out) == Filter(TiedWith(lt, x), rows);
      }
      StableUnique(lt, other, out);
    }
  }

  /** The rows agree on the fields before the m-th, and that one puts `a` first. */
  predicate DecidedBy(db: Database, fields: seq<SortField>, a: Row, b: Row, m: nat) {
    && m < |fields| && (forall k :: 0 <= k < m ==> Key(db, fields[k].field, a) == Key(db, fields[k].field, b))
    && Key(db, fields[m].field, a) != Key(db, fields[m].field, b)
    && if fields[m].order == Ascending then Below(Key(db, fields[m].field, a), Key(db, fields[m].field, b))
       else Below(Key(db, fields[m].field, b), Key(db, fields[m].field, a))
  }

  lemma {:induction false} FirstDifferenceDecides(db: Database, fields: seq<SortField>, a: Row, b: Row)
    ensures Precedes(db, Map(ToSortBy, fields), a, b) <==> exists m: nat :: DecidedBy(db, fields, a, b, m)
  {
    if fields != [] {
      var rest := fields[1..];
      assert Map(ToSortBy, fields) == [ToSortBy(fields[0])] + Map(ToSortBy, rest);
      FirstDifferenceDecides(db, rest, a, b);
      if Key(db, fields[0].field, a) == Key(db, fields[0].field, b) {
        if m: nat :| DecidedBy(db, rest, a, b, m) {
          assert DecidedBy(db, fields, a, b, m + 1);
        }
        if m: nat :| DecidedBy(db, fields, a, b, m) {
          assert DecidedBy(db, rest, a, b, m - 1);
        }
      } else {
        assert DecidedBy(db, fields, a, b, 0) <==> Precedes(db, Map(ToSortBy, fields), a, b);
        assert forall m: nat :: DecidedBy(db, fields, a, b, m) ==> m == 0;
      }
    }
  }

  /**
   Of any two sorted rows, the first field they differ in has the lower value in the earlier row if
   it sorts ascending, and the higher one if it sorts descending.
   */
  lemma SortRowsByFirstDifference(db: Database, fields: seq<SortField>, rows: seq<Row>, i: nat, j: nat)
    requires i < j < |rows|
    ensures |SortRows(db, fields, rows)| == |rows|
    ensures var a, b := SortRows(db, fields, rows)[i], SortRows(db, fields, rows)[j];
      || (forall k :: 0 <= k < |fields| ==> Key(db, fields[k].field, a) == Key(db, fields[k].field, b))
      || exists m: nat :: DecidedBy(db, fields, a, b, m)
  {
    var lt, out := By(db, Map(ToSortBy, fields)), SortRows(db, fields, rows);
    SortRowsIsTheStableArrangement(db, fields, rows, []);
    assert |multiset(out)| == |multiset(rows)|;
    assert !lt(out[j], out[i]);
    FirstDifferenceDecides(db, fields, out[i], out[j]);
    if !lt(out[i], out[j]) {
      TiedByKeys(db, Map(ToSortBy, fields), out[i], out[j]);
      forall k | 0 <= k < |fields| ensures Key(db, fields[k].field, out[i]) == Key(db, fields[k].field, out[j]) {
        assert Map(ToSortBy, fields)[k] == ToSortBy(fields[k]);
      }
    }
  }

  // The two back ends.

  lemma {:induction false} PrecedesExtended(db: Database, sorts: seq<SortBy>, more: seq<SortBy>, a: Row, b: Row)
    ensures Precedes(db, sorts + more, a, b) ==> Precedes(db, sorts, a, b) || Tied(By(db, sorts), a, b)
  {
    if sorts != [] {
      assert (sorts + more)[1..] == sorts[1..] + more;
      var x, y := EvalExpression(db, sorts[0].expression, a), EvalExpression(db, sorts[0].expression, b);
      if x == y {
        PrecedesExtended(db, sorts[1..], more, a, b);
      }
    }
  }

  /** Without ties among the sort keys, completing the sort by the id changes nothing. */
  lemma NoTiesNoTieBreak(db: Database, sorts: seq<SortBy>, direction: SortDirection, rows: seq<Row>)
    requires Discriminates(By(db, sorts), rows)
    ensures Sort(By(db, sorts), rows) == Sort(By(db, WithId(sorts, direction)), rows)
  {
    var lt, order := By(db, sorts), By(db, WithId(sorts, direction));
    var out := Sort(lt, rows);
    ByWeakOrder(db, sorts);
    ByWeakOrder(db, WithId(sorts, direction));
    SortSorted(lt, rows);
    SortMembership(lt, rows);
    forall i, j | 0 <= i < j < |out| ensures !order(out[j], out[i]) {
      PrecedesExtended(db, sorts, [SortBy(ID, Some(direction))], out[j], out[i]);
      PrecedesIrreflexive(db, WithId(sorts, direction), out[i]);
      assert out[i] in rows && out[j] in rows;
    }
    assert Discriminates(order, out) by {
      forall a, b | a in out && b in out && Tied(order, a, b) ensures a == b {
        TiedByKeys(db, WithId(sorts, direction), a, b);
        TiedByKeys(db, sorts, a, b);
        assert forall i :: 0 <= i < |sorts| ==> WithId(sorts, direction)[i] == sorts[i];
      }
    }
    SortSorted(order, rows);
    UniqueSorted(order, out, Sort(order, rows));
  }

  /** The memory rows stand in an order that needs no tie-break. */
  ghost predicate NeedsNoTieBreak(db: Database, fields: seq<SortField>, rows: seq<Row>) {
    if fields == [] then Sorted(By(db, WithId([], Asc)), rows)
    else Discriminates(By(db, Map(ToSortBy, fields)), rows)
  }

  lemma SortedAsRanked(
    db: Database, env: Environment, table: string, filters: seq<Expression>, filter: Row -> bool,
    fields: seq<SortField>)
    requires table in env && NeedsNoTieBreak(db, fields, Selected(db, env, table, filters))
    requires forall row :: row in env[table] ==> filter(row) == Matching(db, env, filters)(row)
    ensures SortRows(db, fields, Filter(filter, env[table]))
         == Ranked(db, env, table, filters, Map(ToSortBy, fields))
  {
    var sorts, selected := Map(ToSortBy, fields), Selected(db, env, table, filters);
    FilterExtensional(filter, Matching(db, env, filters), env[table]);
    if fields == [] {
      SortOfSorted(By(db, WithId([], Asc)), selected);
    } else {
      PassesSortLexicographically(db, fields, selected);
      NoTiesNoTieBreak(db, sorts, if AllDesc(sorts) then Desc else Asc, selected);
    }
  }

  lemma {:induction false} IndicesOfUnique(rows: seq<Row>, i: nat, start: nat)
    requires i < |rows| && forall j :: 0 <= j < |rows| && j != i ==> Id(rows[j]) != Id(rows[i])
    ensures IndicesOf(rows, Id(rows[i]), start) == [start + i]
  {
    var id := Id(rows[i]);
    if i == 0 {
      var rest := IndicesOf(rows[1..], id, start + 1);
      assert forall k :: k !in rest;
      EmptyIfNothingIn(rest);
    } else {
      IndicesOfUnique(rows[1..], i - 1, start + 1);
    }
  }

  lemma EmptyIfNothingIn(indices: seq<nat>)
    requires forall k :: k !in indices
    ensures indices == []
  {
    if indices != [] {
      HasMember(indices);
    }
  }

  lemma UniqueIds(rows: seq<Row>, i: nat)
    requires IdsIdentify(rows) && NoDuplicates(rows) && i < |rows|
    ensures forall j :: 0 <= j < |rows| && j != i ==> Id(rows[j]) != Id(rows[i])
  {
  }

  function SlicePager(rows: seq<Row>): Pager<Row> {
    (clause: KeySetPagingClause) => PageRows(clause, rows)
  }

  /** Slicing a ranking serves the same pages as the compiled statements. */
  lemma SlicesServePages(ranked: seq<Row>, n: nat)
    requires IdsIdentify(ranked) && NoDuplicates(ranked)
    ensures ServesPages(SlicePager(ranked), Id, ranked, n)
  {
    forall i: nat | i < |ranked| ensures ServesBeside(SlicePager(ranked), Id, ranked, n, i) {
      UniqueIds(ranked, i);
      IndicesOfUnique(ranked, i, 0);
      SliceBeside(ranked, n, i);
    }
  }

  lemma {:induction false} SliceBeside(ranked: seq<Row>, n: nat, i: nat)
    requires i < |ranked| && IndicesOf(ranked, Id(ranked[i]), 0) == [i]
    ensures ServesBeside(SlicePager(ranked), Id, ranked, n, i)
  {
  }

  /** A clause both back ends anchor alike: no last id forwards, or the id of a selected row. */
  ghost predicate Anchored(clause: KeySetPagingClause, selected: seq<Row>) {
    if clause.lastId == None then clause.direction == Forwards
    else exists row :: row in selected && clause.lastId.value == Id(row)
  }

  /** With no ties, and anchored alike, the two back ends return the same rows. */
  lemma BackEndsAgree(
    db: Database, env: Environment, table: string, filters: seq<Expression>, filter: Row -> bool,
    fields: seq<SortField>, clause: KeySetPagingClause)
    requires var sorts := Map(ToSortBy, fields);
      Setting(db, env, table, filters, sorts) && Supported(sorts) && NoDuplicates(env[table])
    requires forall row :: row in env[table] ==> filter(row) == Matching(db, env, filters)(row)
    requires NeedsNoTieBreak(db, fields, Selected(db, env, table, filters))
    requires Anchored(clause, Selected(db, env, table, filters))
    ensures MemorySearch(db, filter, fields, clause, env[table])
         == SqlPager(db, env, table, filters, Map(ToSortBy, fields))(clause)
  {
    var sorts := Map(ToSortBy, fields);
    var ranked, n := Ranked(db, env, table, filters, sorts), clause.itemCount;
    SortedAsRanked(db, env, table, filters, filter, fields);
    StatementsServePages(db, env, table, filters, sorts, n);
    RankedIsRanking(db, env, table, filters, sorts);
    SlicesServePages(ranked, n);
    if clause.lastId.Some? {
      RankedRow(db, env, table, filters, sorts, clause.lastId.value);
      var i: nat :| i < |ranked| && clause.lastId.value == Id(ranked[i]);
      assert ServesBeside(SlicePager(ranked), Id, ranked, n, i);
      assert ServesBeside(SqlPager(db, env, table, filters, sorts), Id, ranked, n, i);
    }
  }

  lemma RankedRow(
    db: Database, env: Environment, table: string, filters: seq<Expression>, sorts: seq<SortBy>, id: Value)
    requires table in env && exists row :: row in Selected(db, env, table, filters) && id == Id(row)
    ensures var ranked := Ranked(db, env, table, filters, sorts); exists i: nat :: i < |ranked| && id == Id(ranked[i])
  {
    var selected := Selected(db, env, table, filters);
    SortMembership(By(db, Order(sorts)), selected);
    var row :| row in selected && id == Id(row);
    assert row in Ranked(db, env, table, filters, sorts);
  }

  ghost predicate OnSide(db: Database, order: seq<SortBy>, direction: PagingDirection, last: Row, row: Row) {
    if direction == Forwards then Precedes(db, order, last, row) else Precedes(db, order, row, last)
  }

  /**
   The rows a statement selects from: all of them without a last id; those beyond the record the
   last id names, whether or not it passes the filters; and with an unknown last id none, except
   that a search without a sort compares ids alone.
   */
  ghost predicate Asked(db: Database, rows: seq<Row>, sorts: seq<SortBy>, clause: KeySetPagingClause, row: Row) {
    match clause.lastId
    case None => true
    case Some(id) =>
      if exists last :: last in rows && Id(last) == id then
        exists last :: last in rows && Id(last) == id && OnSide(db, Order(sorts), clause.direction, last, row)
      else sorts == [] && OnSide(db, Order([]), clause.direction, [Cell("id", id)], row)
  }

  /**
   Exactly where the two agree. A clause the memory back end cannot anchor gets nothing from it;
   the statement answers it all the same, with rows as soon as any selected row is asked for.
   */
  lemma BackEndsAgreeExactly(
    db: Database, env: Environment, table: string, filters: seq<Expression>, filter: Row -> bool,
    fields: seq<SortField>, clause: KeySetPagingClause)
    requires var sorts := Map(ToSortBy, fields);
      Setting(db, env, table, filters, sorts) && Supported(sorts) && NoDuplicates(env[table])
    requires forall row :: row in env[table] ==> filter(row) == Matching(db, env, filters)(row)
    requires NeedsNoTieBreak(db, fields, Selected(db, env, table, filters))
    requires clause.lastId != Some(Null)
    ensures var sorts, selected := Map(ToSortBy, fields), Selected(db, env, table, filters);
      MemorySearch(db, filter, fields, clause, env[table]) == SqlPager(db, env, table, filters, sorts)(clause)
      <==> || Anchored(clause, selected) || clause.itemCount == 0
           || forall row :: row in selected ==> !Asked(db, env[table], sorts, clause, row)
  {
    var sorts := Map(ToSortBy, fields);
    var selected, ranked := Selected(db, env, table, filters), Ranked(db, env, table, filters, sorts);
    if Anchored(clause, selected) {
      BackEndsAgree(db, env, table, filters, filter, fields, clause);
    } else {
      SortedAsRanked(db, env, table, filters, filter, fields);
      SortMembership(By(db, Order(sorts)), selected);
      UnanchoredSlice(clause, ranked, selected);
      StatementIsEmpty(db, env, table, filters, sorts, clause);
    }
  }

  /** A statement yields nothing exactly when nothing is asked for. */
  lemma StatementIsEmpty(
    db: Database, env: Environment, table: string, filters: seq<Expression>, sorts: seq<SortBy>,
    clause: KeySetPagingClause)
    requires Setting(db, env, table, filters, sorts) && Supported(sorts) && clause.lastId != Some(Null)
    ensures SqlPager(db, env, table, filters, sorts)(clause) == []
        <==> clause.itemCount == 0
             || forall row :: row in Selected(db, env, table, filters) ==> !Asked(db, env[table], sorts, clause, row)
  {
    var selected, ranked := Selected(db, env, table, filters), Ranked(db, env, table, filters, sorts);
    SortMembership(By(db, Order(sorts)), selected);
    if clause.lastId == None {
      FirstShapes(db, env, table, filters, sorts, clause);
      HasMember(ranked);
    } else if last :| last in env[table] && Id(last) == clause.lastId.value {
      EveryShapeMeansItsPage(db, env, table, filters, sorts, clause, last);
      PageIsEmpty(db, Order(sorts), clause, last, ranked);
      forall row ensures Asked(db, env[table], sorts, clause, row)
        <==> OnSide(db, Order(sorts), clause.direction, last, row) {
        assert forall other :: other in env[table] && Id(other) == Id(last) ==> other == last;
      }
    } else if sorts != [] {
      assert forall row :: row in env[table] ==> !HasId(clause.lastId.value, row);
      UnknownIdStatement(db, env, table, filters, sorts, clause);
    } else {
      UnknownIdUnsorted(db, env, table, filters, clause);
      PageIsEmpty(db, Order([]), clause, [Cell("id", clause.lastId.value)], ranked);
    }
  }

  lemma UnknownIdUnsorted(
    db: Database, env: Environment, table: string, filters: seq<Expression>, clause: KeySetPagingClause)
    requires Setting(db, env, table, filters, []) && clause.lastId.Some? && clause.lastId != Some(Null)
    ensures SqlPager(db, env, table, filters, [])(clause)
         == Page(db, Order([]), Ranked(db, env, table, filters, []), clause, [Cell("id", clause.lastId.value)])
  {
    var last := [Cell("id", clause.lastId.value)];
    SearchQueryShape(table, filters, []);
    if clause.direction == Forwards {
      NoSortForwardsMeaning(db, env, table, filters, last, clause.itemCount);
    } else {
      NoSortBackwardsMeaning(db, env, table, filters, last, clause.itemCount);
    }
  }

  lemma PageIsEmpty(
    db: Database, order: seq<SortBy>, clause: KeySetPagingClause, last: Row, ranked: seq<Row>)
    requires clause.lastId.Some?
    ensures Page(db, order, ranked, clause, last) == []
        <==> clause.itemCount == 0 || forall row :: row in ranked ==> !OnSide(db, order, clause.direction, last, row)
  {
    if clause.direction == Forwards {
      HasMember(Filter(AfterRow(db, order, last), ranked));
    } else {
      HasMember(Filter(BeforeRow(db, order, last), ranked));
    }
  }

  lemma UnanchoredSlice(clause: KeySetPagingClause, ranked: seq<Row>, selected: seq<Row>)
    requires !Anchored(clause, selected) && forall row :: row in ranked ==> row in selected
    ensures PageRows(clause, ranked) == []
  {
    if clause.lastId.Some? {
      var indices := IndicesOf(ranked, clause.lastId.value, 0);
      forall k ensures k !in indices {
        assert 0 <= k < |ranked| ==> ranked[k] in ranked;
      }
      EmptyIfNothingIn(indices);
    }
  }

  lemma UnknownIdStatement(
    db: Database, env: Environment, table: string, filters: seq<Expression>, sorts: seq<SortBy>,
    clause: KeySetPagingClause)
    requires table in env && table != "last" && IdsIdentify(env[table]) && sorts != [] && clause.lastId.Some?
    requires forall row :: row in env[table] ==> !HasId(clause.lastId.value, row)
    ensures SqlPager(db, env, table, filters, sorts)(clause) == []
  {
    if Statement(table, filters, sorts, clause).Success? {
      UnknownLastIdGivesNothing(db, env, table, filters, sorts, clause);
    }
  }

  /** Offset paging: LIMIT and OFFSET cut the slice the memory back end cuts. */
  lemma OffsetPagesAgree(
    db: Database, env: Environment, table: string, filters: seq<Expression>, filter: Row -> bool,
    fields: seq<SortField>, clause: OffsetPagingClause)
    requires table in env && clause.pageNumber >= 1
    requires forall row :: row in env[table] ==> filter(row) == Matching(db, env, filters)(row)
    ensures EvalQuery(db, env, ApplyOffset(clause, SearchQuery(table, filters, Map(ToSortBy, fields))))
         == OffsetRows(clause, SortRows(db, fields, Filter(filter, env[table])))
  {
    var sorts := Map(ToSortBy, fields);
    var q := ApplyOffset(clause, SearchQuery(table, filters, sorts));
    SearchQueryShape(table, filters, sorts);
    EvalPlain(db, env, q, table);
    FilterExtensional(filter, Matching(db, env, filters), env[table]);
    PassesSortLexicographically(db, fields, Filter(filter, env[table]));
    var sorted := Sort(By(db, sorts), Filter(filter, env[table]));
    if clause.pageNumber == 1 {
      assert Skip(0, sorted) == sorted;
    }
  }

  // What offset pages hold.

  /** Page p holds the rows from (p - 1) * n on, n of them or as many as there are. */
  ghost predicate RightPage<R>(page: seq<R>, sorted: seq<R>, n: nat, p: nat)
    requires p >= 1
  {
    var start := (p - 1) * n;
    && |page| == (if start >= |sorted| then 0 else if start + n <= |sorted| then n else |sorted| - start)
    && forall i :: 0 <= i < |page| ==> 0 <= start + i < |sorted| && page[i] == sorted[start + i]
  }

  ghost predicate RightPages<R>(page: nat -> seq<R>, sorted: seq<R>, n: nat) {
    forall p: nat :: p >= 1 ==> RightPage(page(p), sorted, n, p)
  }

  function PagesThrough<R>(page: nat -> seq<R>, k: nat): seq<R> {
    if k == 0 then [] else PagesThrough(page, k - 1) + page(k)
  }

  /** The statements of the pages of `n` rows, run one by one. */
  function SqlOffsets(
    db: Database, env: Environment, table: string, filters: seq<Expression>, sorts: seq<SortBy>,
    n: nat): nat -> seq<Row>
  {
    (p: nat) =>
      if p == 0 then []
      else EvalQuery(db, env, ApplyOffset(OffsetPagingClause(p, n), SearchQuery(table, filters, sorts)))
  }

  function MemoryOffsets(
    db: Database, filter: Row -> bool, fields: seq<SortField>, rows: seq<Row>, n: nat): nat -> seq<Row>
  {
    (p: nat) => if p == 0 then [] else OffsetRows(OffsetPagingClause(p, n), SortRows(db, fields, Filter(filter, rows)))
  }

  lemma OffsetRowsAreRight(sorted: seq<Row>, n: nat, p: nat)
    requires p >= 1
    ensures RightPage(OffsetRows(OffsetPagingClause(p, n), sorted), sorted, n, p)
  {
    assert (p - 1) * n >= 0;
  }

  /** Both back ends cut the sorted, filtered rows into the same consecutive pages of n. */
  lemma OffsetPagesAreRight(
    db: Database, env: Environment, table: string, filters: seq<Expression>, filter: Row -> bool,
    fields: seq<SortField>, n: nat)
    requires table in env
    requires forall row :: row in env[table] ==> filter(row) == Matching(db, env, filters)(row)
    ensures var sorted := SortRows(db, fields, Filter(filter, env[table]));
      && RightPages(MemoryOffsets(db, filter, fields, env[table], n), sorted, n)
      && RightPages(SqlOffsets(db, env, table, filters, Map(ToSortBy, fields), n), sorted, n)
  {
    var sorted := SortRows(db, fields, Filter(filter, env[table]));
    forall p: nat | p >= 1
      ensures RightPage(MemoryOffsets(db, filter, fields, env[table], n)(p), sorted, n, p)
      ensures RightPage(SqlOffsets(db, env, table, filters, Map(ToSortBy, fields), n)(p), sorted, n, p)
    {
      OffsetRowsAreRight(sorted, n, p);
      OffsetPagesAgree(db, env, table, filters, filter, fields, OffsetPagingClause(p, n));
    }
  }

  /** Right pages read everything in order, and the first empty one marks the end. */
  lemma {:induction false} RightPagesReadEverything<R>(page: nat -> seq<R>, sorted: seq<R>, n: nat, k: nat)
    requires RightPages(page, sorted, n)
    ensures PagesThrough(page, k) == Take(k * n, sorted)
    ensures n >= 1 && k >= 1 ==> (page(k) == [] <==> (k - 1) * n >= |sorted|)
  {
    if k > 0 {
      RightPagesReadEverything(page, sorted, n, k - 1);
      assert RightPage(page(k), sorted, n, k);
      RightPageExtends(page(k), sorted, n, k);
    }
  }

  lemma RightPageExtends<R>(page: seq<R>, sorted: seq<R>, n: nat, p: nat)
    requires p >= 1 && RightPage(page, sorted, n, p)
    ensures Take((p - 1) * n, sorted) + page == Take(p * n, sorted)
    ensures n >= 1 ==> (page == [] <==> (p - 1) * n >= |sorted|)
  {
    assert p * n == (p - 1) * n + n && (p - 1) * n >= 0;
  }
}
