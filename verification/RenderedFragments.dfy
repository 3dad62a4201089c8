/**
 When a fragment rendered with placeholders and the same fragment rendered with its constants in
 place agree, and why every way of putting fragments together keeps them agreeing.
 */
module RenderedFragments {
  import opened Prelude
  import opened Values
  import opened SqlQuery
  import opened Rendering

  /** What matters about a node: a constant to bind, text passed through, or a defect. */
  datatype Leaf =
    | Constantly(value: Value)
    | Verbatim(text: string)
    | Fault(error: RenderError)

  function NumberLeaves(number: Option<nat>): seq<Leaf> {
    if number.Some? then [Constantly(Number(number.value))] else []
  }

  function Constants(leaves: seq<Leaf>): seq<Value> {
    if leaves == [] then []
    else (if leaves[0].Constantly? then [leaves[0].value] else []) + Constants(leaves[1..])
  }

  function FirstFault(leaves: seq<Leaf>): Option<RenderError> {
    if leaves == [] then None
    else if leaves[0].Fault? then Some(leaves[0].error)
    else FirstFault(leaves[1..])
  }

  function Holes(sql: seq<Token>): nat {
    if sql == [] then 0 else (if sql[0] == Hole then 1 else 0) + Holes(sql[1..])
  }

  /** Placeholders that raw text brings along. */
  function RawHoles(leaves: seq<Leaf>): nat {
    if leaves == [] then 0
    else (if leaves[0].Verbatim? then Holes(RawTokens(leaves[0].text)) else 0) + RawHoles(leaves[1..])
  }

  /** What the driver does: the parameters go into the placeholders, left to right. */
  function Fill(sql: seq<Token>, params: seq<Value>): seq<Token> {
    if sql == [] then []
    else if sql[0] == Hole && params != [] then [Bound(params[0])] + Fill(sql[1..], params[1..])
    else [sql[0]] + Fill(sql[1..], params)
  }

  // Rendering both ways agrees, fragment by fragment.

  /** `p` is rendered with placeholders, `i` in place, both from a tree with these leaves. */
  ghost predicate Agree(p: Fragment, i: Fragment, leaves: seq<Leaf>) {
    && FirstFault(leaves) == None
    && p.params == Constants(leaves) && i.params == []
    && Holes(p.sql) == |p.params| + RawHoles(leaves)
    && Holes(i.sql) == RawHoles(leaves)
    && (RawHoles(leaves) == 0 ==> Fill(p.sql, p.params) == i.sql)
  }

  ghost predicate BothAgree(p: Result<Fragment, RenderError>, i: Result<Fragment, RenderError>, leaves: seq<Leaf>) {
    match FirstFault(leaves)
    case Some(error) => p == Failure(error) && i == Failure(error)
    case None => p.Success? && i.Success? && Agree(p.value, i.value, leaves)
  }

  lemma {:induction false} LeavesConcat(a: seq<Leaf>, b: seq<Leaf>)
    ensures Constants(a + b) == Constants(a) + Constants(b)
    ensures RawHoles(a + b) == RawHoles(a) + RawHoles(b)
    ensures FirstFault(a + b) == if FirstFault(a).Some? then FirstFault(a) else FirstFault(b)
  {
    ConstantsConcat(a, b);
    if a == [] {
      assert a + b == b;
    } else {
      assert (a + b)[1..] == a[1..] + b;
      LeavesConcat(a[1..], b);
    }
  }

  lemma {:induction false} ConstantsConcat(a: seq<Leaf>, b: seq<Leaf>)
    ensures Constants(a + b) == Constants(a) + Constants(b)
  {
    if a == [] {
      assert a + b == b;
    } else {
      ConstantsConcat(a[1..], b);
      assert (a + b)[1..] == a[1..] + b;
    }
  }

  lemma {:induction false} HolesConcat(a: seq<Token>, b: seq<Token>)
    ensures Holes(a + b) == Holes(a) + Holes(b)
  {
    if a == [] {
      assert a + b == b;
    } else {
      assert (a + b)[1..] == a[1..] + b;
      HolesConcat(a[1..], b);
    }
  }

  lemma {:induction false} FillConcat(a: seq<Token>, b: seq<Token>, p: seq<Value>, q: seq<Value>)
    requires Holes(a) == |p|
    ensures Fill(a + b, p + q) == Fill(a, p) + Fill(b, q)
  {
    if a == [] {
      assert a + b == b && p + q == q;
    } else {
      assert (a + b)[1..] == a[1..] + b;
      if a[0] == Hole {
        assert (p + q)[1..] == p[1..] + q;
        FillConcat(a[1..], b, p[1..], q);
      } else {
        FillConcat(a[1..], b, p, q);
      }
    }
  }

  function Plus(a: Fragment, b: Fragment): Fragment {
    Fragment(a.sql + b.sql, a.params + b.params)
  }

  lemma AgreePlus(
    p: Fragment, i: Fragment, a: seq<Leaf>, p': Fragment, i': Fragment, b: seq<Leaf>)
    requires Agree(p, i, a) && Agree(p', i', b)
    ensures Agree(Plus(p, p'), Plus(i, i'), a + b)
  {
    LeavesConcat(a, b);
    HolesConcat(p.sql, p'.sql);
    HolesConcat(i.sql, i'.sql);
    if RawHoles(a + b) == 0 {
      FillConcat(p.sql, p'.sql, p.params, p'.params);
    }
  }

  /** Fixed text around a fragment. */
  lemma AgreeWithin(
    before: seq<Token>, p: Fragment, i: Fragment, after: seq<Token>, leaves: seq<Leaf>)
    requires Agree(p, i, leaves) && Hole !in before && Hole !in after
    ensures Agree(Fragment(before + p.sql + after, p.params), Fragment(before + i.sql + after, i.params), leaves)
  {
    AgreePlain(before);
    AgreePlain(after);
    var b, a := Fragment(before, []), Fragment(after, []);
    AgreePlus(b, b, [], p, i, leaves);
    AgreePlus(Plus(b, p), Plus(b, i), [] + leaves, a, a, []);
    assert [] + leaves + [] == leaves;
    assert [] + p.params + [] == p.params;
  }

  lemma {:induction false} AgreePlain(sql: seq<Token>)
    requires Hole !in sql
    ensures Agree(Fragment(sql, []), Fragment(sql, []), [])
  {
    if sql != [] {
      assert forall t :: t in sql[1..] ==> t in sql;
      AgreePlain(sql[1..]);
    }
  }

  lemma AgreeRaw(text: string)
    ensures Agree(Fragment(RawTokens(text), []), Fragment(RawTokens(text), []), [Verbatim(text)])
  {
    assert [Verbatim(text)][1..] == [];
    var sql := RawTokens(text);
    if Holes(sql) == 0 {
      NoHoles(sql);
      AgreePlain(sql);
    }
  }

  lemma {:induction false} NoHoles(sql: seq<Token>)
    requires Holes(sql) == 0
    ensures Hole !in sql
  {
    if sql != [] {
      NoHoles(sql[1..]);
    }
  }

  lemma AgreeParameter(value: Value)
    ensures Agree(Parameter(Placeholders, value), Parameter(InPlace, value), [Constantly(value)])
  {
  }

  // Lists of fragments.

  /** Fragment by fragment, the two lists agree on consecutive stretches of the leaves. */
  ghost predicate AgreeEach(ps: seq<Fragment>, qs: seq<Fragment>, leaves: seq<Leaf>)
    decreases ps
  {
    if ps == [] || qs == [] then ps == [] && qs == [] && leaves == []
    else
      exists k :: 0 <= k <= |leaves|
        && Agree(ps[0], qs[0], leaves[..k]) && AgreeEach(ps[1..], qs[1..], leaves[k..])
  }

  ghost predicate BothAgreeEach(
    ps: Result<seq<Fragment>, RenderError>, qs: Result<seq<Fragment>, RenderError>, leaves: seq<Leaf>)
  {
    match FirstFault(leaves)
    case Some(error) => ps == Failure(error) && qs == Failure(error)
    case None => ps.Success? && qs.Success? && AgreeEach(ps.value, qs.value, leaves)
  }

  lemma AgreeEachCons(
    p: Fragment, i: Fragment, a: seq<Leaf>, ps: seq<Fragment>, qs: seq<Fragment>, b: seq<Leaf>)
    requires Agree(p, i, a) && AgreeEach(ps, qs, b)
    ensures AgreeEach([p] + ps, [i] + qs, a + b)
  {
    assert ([p] + ps)[1..] == ps && ([i] + qs)[1..] == qs;
    assert (a + b)[..|a|] == a && (a + b)[|a|..] == b;
  }

  lemma {:induction false} AgreeJoin(separator: Token, ps: seq<Fragment>, qs: seq<Fragment>, leaves: seq<Leaf>)
    requires separator != Hole && AgreeEach(ps, qs, leaves)
    ensures Agree(Fragment(Join(separator, Sqls(ps)), Params(ps)), Fragment(Join(separator, Sqls(qs)), Params(qs)),
                  leaves)
  {
    if ps == [] {
      AgreePlain([]);
    } else {
      var k :| 0 <= k <= |leaves|
        && Agree(ps[0], qs[0], leaves[..k]) && AgreeEach(ps[1..], qs[1..], leaves[k..]);
      assert leaves[..k] + leaves[k..] == leaves;
      AgreeJoin(separator, ps[1..], qs[1..], leaves[k..]);
      var p := Fragment(Join(separator, Sqls(ps[1..])), Params(ps[1..]));
      var i := Fragment(Join(separator, Sqls(qs[1..])), Params(qs[1..]));
      if |ps| == 1 {
        assert ps[1..] == [] && qs[1..] == [];
        assert Agree(Fragment([], []), Fragment([], []), leaves[k..]);
        AgreePlus(ps[0], qs[0], leaves[..k], Fragment([], []), Fragment([], []), leaves[k..]);
        assert ps[0].sql + [] == ps[0].sql && qs[0].sql + [] == qs[0].sql;
      } else {
        JoinCons(separator, ps);
        JoinCons(separator, qs);
        AgreeWithin([], ps[0], qs[0], [separator], leaves[..k]);
        AgreePlus(Fragment([] + ps[0].sql + [separator], ps[0].params),
                  Fragment([] + qs[0].sql + [separator], qs[0].params),
                  leaves[..k], p, i, leaves[k..]);
      }
    }
  }

  lemma JoinCons(separator: Token, fragments: seq<Fragment>)
    requires |fragments| > 1
    ensures Join(separator, Sqls(fragments))
         == ([] + fragments[0].sql + [separator]) + Join(separator, Sqls(fragments[1..]))
  {
  }

  // Renderings that may fail.

  function Cons(
      p: Result<Fragment, RenderError>, ps: Result<seq<Fragment>, RenderError>): Result<seq<Fragment>, RenderError> {
    if p.Failure? then Failure(p.error) else if ps.Failure? then Failure(ps.error) else Success([p.value] + ps.value)
  }

  function Within(
      before: seq<Token>, p: Result<Fragment, RenderError>, after: seq<Token>): Result<Fragment, RenderError> {
    if p.Failure? then p else Success(Fragment(before + p.value.sql + after, p.value.params))
  }

  function Followed(p: Result<Fragment, RenderError>, after: seq<Token>): Result<Fragment, RenderError> {
    if p.Failure? then p else Success(Fragment(p.value.sql + after, p.value.params))
  }

  function Joined(ps: Result<seq<Fragment>, RenderError>, separator: Token): Result<Fragment, RenderError> {
    if ps.Failure? then Failure(ps.error) else Success(Fragment(Join(separator, Sqls(ps.value)), Params(ps.value)))
  }

  lemma ConsAgrees(
    p: Result<Fragment, RenderError>, i: Result<Fragment, RenderError>, a: seq<Leaf>,
    ps: Result<seq<Fragment>, RenderError>, qs: Result<seq<Fragment>, RenderError>, b: seq<Leaf>)
    requires BothAgree(p, i, a) && BothAgreeEach(ps, qs, b)
    ensures BothAgreeEach(Cons(p, ps), Cons(i, qs), a + b)
  {
    LeavesConcat(a, b);
    if FirstFault(a + b) == None {
      AgreeEachCons(p.value, i.value, a, ps.value, qs.value, b);
    }
  }

  lemma WithinAgrees(
    before: seq<Token>, p: Result<Fragment, RenderError>, i: Result<Fragment, RenderError>, after: seq<Token>,
    leaves: seq<Leaf>)
    requires BothAgree(p, i, leaves) && Hole !in before && Hole !in after
    ensures BothAgree(Within(before, p, after), Within(before, i, after), leaves)
  {
    if FirstFault(leaves) == None {
      AgreeWithin(before, p.value, i.value, after, leaves);
    }
  }

  lemma JoinedAgrees(
    ps: Result<seq<Fragment>, RenderError>, qs: Result<seq<Fragment>, RenderError>, separator: Token, leaves: seq<Leaf>)
    requires BothAgreeEach(ps, qs, leaves) && separator != Hole
    ensures BothAgree(Joined(ps, separator), Joined(qs, separator), leaves)
  {
    if FirstFault(leaves) == None {
      AgreeJoin(separator, ps.value, qs.value, leaves);
    }
  }

  // Clauses of a query.

  /** The clauses that are present, as fragments. */
  function PresentFragments(clauses: seq<Clause>): seq<Fragment> {
    if clauses == [] then []
    else
      (if clauses[0].sql.Some? then [Fragment(clauses[0].sql.value, clauses[0].params)] else [])
      + PresentFragments(clauses[1..])
  }

  ghost predicate AgreeClause(p: Clause, i: Clause, leaves: seq<Leaf>) {
    if p.sql.None? then i.sql.None? && p.params == [] && i.params == [] && leaves == []
    else
      i.sql.Some? && Agree(Fragment(p.sql.value, p.params), Fragment(i.sql.value, i.params), leaves)
  }

  ghost predicate AgreeClauses(ps: seq<Clause>, qs: seq<Clause>, leaves: seq<Leaf>) {
    && AgreeEach(PresentFragments(ps), PresentFragments(qs), leaves)
    && Sqls(PresentFragments(ps)) == Present(ps) && Sqls(PresentFragments(qs)) == Present(qs)
  }

  lemma ClauseCons(
    p: Clause, i: Clause, a: seq<Leaf>, ps: seq<Clause>, qs: seq<Clause>, b: seq<Leaf>)
    requires AgreeClause(p, i, a) && AgreeClauses(ps, qs, b)
    ensures AgreeClauses([p] + ps, [i] + qs, a + b)
    ensures Params(PresentFragments([p] + ps)) == p.params + Params(PresentFragments(ps))
    ensures Params(PresentFragments([i] + qs)) == i.params + Params(PresentFragments(qs))
  {
    assert ([p] + ps)[1..] == ps && ([i] + qs)[1..] == qs;
    if p.sql.Some? {
      var f, g := Fragment(p.sql.value, p.params), Fragment(i.sql.value, i.params);
      AgreeEachCons(f, g, a, PresentFragments(ps), PresentFragments(qs), b);
      SqlsCons(f, PresentFragments(ps));
      SqlsCons(g, PresentFragments(qs));
    } else {
      assert [] + PresentFragments(ps) == PresentFragments(ps) && [] + PresentFragments(qs) == PresentFragments(qs);
      assert a + b == b;
    }
  }

  lemma SqlsCons(f: Fragment, fragments: seq<Fragment>)
    ensures Sqls([f] + fragments) == [f.sql] + Sqls(fragments)
    ensures Params([f] + fragments) == f.params + Params(fragments)
  {
  }

  function Gathered(clauses: seq<Clause>): seq<Value> {
    if clauses == [] then [] else clauses[0].params + Gathered(clauses[1..])
  }

  /** Clause by clause agreement. */
  ghost predicate AgreeAll(ps: seq<Clause>, qs: seq<Clause>, leaves: seq<seq<Leaf>>)
    decreases ps
  {
    if ps == [] || qs == [] || leaves == [] then ps == [] && qs == [] && leaves == []
    else AgreeClause(ps[0], qs[0], leaves[0]) && AgreeAll(ps[1..], qs[1..], leaves[1..])
  }

  lemma {:induction false} AgreeAllOf(ps: seq<Clause>, qs: seq<Clause>, leaves: seq<seq<Leaf>>)
    requires |ps| == |qs| == |leaves|
    requires forall k :: 0 <= k < |ps| ==> AgreeClause(ps[k], qs[k], leaves[k])
    ensures AgreeAll(ps, qs, leaves)
  {
    if ps != [] {
      AgreeAllOf(ps[1..], qs[1..], leaves[1..]);
    }
  }

  lemma {:induction false} ClausesAgree(ps: seq<Clause>, qs: seq<Clause>, leaves: seq<seq<Leaf>>)
    requires AgreeAll(ps, qs, leaves)
    ensures AgreeClauses(ps, qs, Flatten(leaves))
    ensures Params(PresentFragments(ps)) == Gathered(ps) && Params(PresentFragments(qs)) == Gathered(qs)
  {
    if ps != [] && qs != [] && leaves != [] {
      ClausesAgree(ps[1..], qs[1..], leaves[1..]);
      assert ps == [ps[0]] + ps[1..] && qs == [qs[0]] + qs[1..];
      ClauseCons(ps[0], qs[0], leaves[0], ps[1..], qs[1..], Flatten(leaves[1..]));
    }
  }

  lemma AgreeAssembled(ps: seq<Clause>, qs: seq<Clause>, leaves: seq<seq<Leaf>>)
    requires AgreeAll(ps, qs, leaves)
    ensures Agree(Fragment(Join(Literal(" "), Present(ps)), Gathered(ps)),
                  Fragment(Join(Literal(" "), Present(qs)), Gathered(qs)), Flatten(leaves))
  {
    ClausesAgree(ps, qs, leaves);
    AgreeJoin(Literal(" "), PresentFragments(ps), PresentFragments(qs), Flatten(leaves));
  }

  lemma ListClauseAgrees(
    keyword: string, separator: string, ps: seq<Fragment>, qs: seq<Fragment>, leaves: seq<Leaf>)
    requires AgreeEach(ps, qs, leaves)
    ensures AgreeClause(ListClause(keyword, separator, ps), ListClause(keyword, separator, qs), leaves)
  {
    if ps != [] {
      AgreeJoin(Literal(separator), ps, qs, leaves);
      var p, i := Join(Literal(separator), Sqls(ps)), Join(Literal(separator), Sqls(qs));
      AgreeWithin([Literal(keyword)], Fragment(p, Params(ps)), Fragment(i, Params(qs)), [], leaves);
      assert [Literal(keyword)] + p + [] == [Literal(keyword)] + p;
      assert [Literal(keyword)] + i + [] == [Literal(keyword)] + i;
    }
  }

  lemma UnionClauseAgrees(
      union: Option<Union>, ps: seq<Fragment>, qs: seq<Fragment>, leaves: seq<Leaf>)
    requires AgreeEach(ps, qs, leaves) && (union.None? ==> leaves == [])
    ensures AgreeClause(UnionClause(union, ps), UnionClause(union, qs), leaves)
  {
    if union.Some? {
      AgreeJoin(Literal(if union.value.mode == Distinct then " UNION DISTINCT " else " UNION ALL "), ps, qs, leaves);
    }
  }

  lemma NumberClauseAgrees(keyword: string, number: Option<nat>)
    ensures AgreeClause(NumberClause(Placeholders, keyword, number), NumberClause(InPlace, keyword, number),
                        NumberLeaves(number))
  {
    if number.Some? {
      var value := Number(number.value);
      AgreeParameter(value);
      AgreeWithin([Literal(keyword)], Parameter(Placeholders, value), Parameter(InPlace, value), [],
                  [Constantly(value)]);
      assert [Literal(keyword)] + [Hole] + [] == [Literal(keyword)] + [Hole];
      assert [Literal(keyword)] + [Bound(value)] + [] == [Literal(keyword)] + [Bound(value)];
    }
  }

  lemma {:induction false} TablesAgree(tables: seq<string>, ps: seq<Fragment>, qs: seq<Fragment>, leaves: seq<Leaf>)
    requires AgreeEach(ps, qs, leaves)
    ensures AgreeEach(TableNames(tables) + ps, TableNames(tables) + qs, leaves)
  {
    if tables == [] {
      assert [] + ps == ps && [] + qs == qs;
    } else {
      TablesAgree(tables[1..], ps, qs, leaves);
      var name := Fragment([Identifier(tables[0])], []);
      AgreePlain([Identifier(tables[0])]);
      TableCons(name, TableNames(tables[1..]), ps, qs, leaves);
    }
  }

  lemma TableCons(
      name: Fragment, names: seq<Fragment>, ps: seq<Fragment>, qs: seq<Fragment>, leaves: seq<Leaf>)
    requires Agree(name, name, []) && AgreeEach(names + ps, names + qs, leaves)
    ensures AgreeEach([name] + names + ps, [name] + names + qs, leaves)
  {
    PlainCons(name, names + ps, names + qs, leaves);
    assert [name] + names + ps == [name] + (names + ps) && [name] + names + qs == [name] + (names + qs);
  }

  lemma PlainCons(name: Fragment, ps: seq<Fragment>, qs: seq<Fragment>, leaves: seq<Leaf>)
    requires Agree(name, name, []) && AgreeEach(ps, qs, leaves)
    ensures AgreeEach([name] + ps, [name] + qs, leaves)
  {
    AgreeEachCons(name, name, [], ps, qs, leaves);
    assert [] + leaves == leaves;
  }

  lemma FromClauseAgrees(
      tables: seq<string>, ps: seq<Fragment>, qs: seq<Fragment>, leaves: seq<Leaf>)
    requires AgreeEach(ps, qs, leaves)
    ensures AgreeClause(ListClause("FROM ", ", ", TableNames(tables) + ps),
                        ListClause("FROM ", ", ", TableNames(tables) + qs), leaves)
  {
    TablesAgree(tables, ps, qs, leaves);
    ListClauseAgrees("FROM ", ", ", TableNames(tables) + ps, TableNames(tables) + qs, leaves);
  }
}
