/** Reading a ranking page by page through anything that answers paging clauses. */
module Walking {
  import opened Prelude
  import opened Values
  import opened KeySetPaging

  type Pager<!R> = KeySetPagingClause -> seq<R>

  /** Asked for n rows, the pager answers with the start of the ranking or with what lies beside a row of it. */
  ghost predicate ServesPages<R>(pager: Pager<R>, idOf: R -> Value, ranked: seq<R>, n: nat) {
    && pager(KeySetPagingClause(None, Forwards, n)) == Take(n, ranked)
    && (forall i: nat :: i < |ranked| ==> ServesBeside(pager, idOf, ranked, n, i))
  }

  ghost predicate ServesBeside<R>(pager: Pager<R>, idOf: R -> Value, ranked: seq<R>, n: nat, i: nat)
    requires i < |ranked|
  {
    && pager(KeySetPagingClause(Some(idOf(ranked[i])), Forwards, n)) == Take(n, ranked[i + 1..])
    && pager(KeySetPagingClause(Some(idOf(ranked[i])), Backwards, n)) == Last(n, ranked[..i])
  }

  /** The page after `page`: none after an empty one. */
  function PageAfter<R>(pager: Pager<R>, idOf: R -> Value, n: nat, page: seq<R>): seq<R> {
    if page == [] then []
    else pager(KeySetPagingClause(Some(idOf(page[|page| - 1])), Forwards, n))
  }

  /** The k-th page: the first one, then always the one after the last id seen. */
  function PageAt<R>(pager: Pager<R>, idOf: R -> Value, n: nat, k: nat): seq<R> {
    if k == 0 then pager(KeySetPagingClause(None, Forwards, n))
    else PageAfter(pager, idOf, n, PageAt(pager, idOf, n, k - 1))
  }

  function PagesUpTo<R>(pager: Pager<R>, idOf: R -> Value, n: nat, k: nat): seq<R> {
    if k == 0 then [] else PagesUpTo(pager, idOf, n, k - 1) + PageAt(pager, idOf, n, k - 1)
  }

  /** The stretch of at most n rows starting at m. */
  function Stretch<R>(s: seq<R>, m: nat, n: nat): seq<R> {
    Take(n, Skip(m, s))
  }

  /** Where the k-th page of n rows starts: k * n. */
  function Start(n: nat, k: nat): nat {
    if k == 0 then 0 else Start(n, k - 1) + n
  }

  lemma {:induction false} StartIsProduct(n: nat, k: nat)
    ensures Start(n, k) == k * n
    ensures n >= 1 ==> Start(n, k) >= k
  {
    if k > 0 {
      StartIsProduct(n, k - 1);
      assert k * n == (k - 1) * n + n;
    }
  }

  lemma StretchAfter<R>(s: seq<R>, m: nat, n: nat)
    requires n >= 1 && Stretch(s, m, n) != []
    ensures var i := m + |Stretch(s, m, n)| - 1;
      i < |s| && Stretch(s, m, n)[|Stretch(s, m, n)| - 1] == s[i] && Take(n, s[i + 1..]) == Stretch(s, m + n, n)
  {
  }

  lemma StretchBefore<R>(s: seq<R>, m: nat, n: nat)
    requires n <= m < |s|
    ensures Last(n, s[..m]) == Stretch(s, m - n, n)
  {
  }

  lemma StretchNext<R>(s: seq<R>, m: nat, n: nat)
    ensures Take(m, s) + Stretch(s, m, n) == Take(m + n, s)
  {
  }

  lemma StretchStart<R>(s: seq<R>, m: nat, n: nat)
    requires n >= 1
    ensures Stretch(s, m, n) == [] <==> m >= |s|
    ensures m < |s| ==> Stretch(s, m, n)[0] == s[m]
  {
  }

  lemma WalkStep<R>(pager: Pager<R>, idOf: R -> Value, ranked: seq<R>, m: nat, n: nat)
    requires ServesPages(pager, idOf, ranked, n) && n >= 1
    ensures PageAfter(pager, idOf, n, Stretch(ranked, m, n)) == Stretch(ranked, m + n, n)
  {
    var page := Stretch(ranked, m, n);
    StretchStart(ranked, m, n);
    StretchStart(ranked, m + n, n);
    if page != [] {
      StretchAfter(ranked, m, n);
      assert ServesBeside(pager, idOf, ranked, n, m + |page| - 1);
    }
  }

  /** The k-th page is the k-th stretch of n rows of the ranking. */
  lemma {:induction false} PageAtIsStretch<R>(pager: Pager<R>, idOf: R -> Value, ranked: seq<R>, n: nat, k: nat)
    requires ServesPages(pager, idOf, ranked, n) && n >= 1
    ensures PageAt(pager, idOf, n, k) == Stretch(ranked, Start(n, k), n)
  {
    if k == 0 {
      assert Skip(0, ranked) == ranked;
    } else {
      PageAtIsStretch(pager, idOf, ranked, n, k - 1);
      WalkStep(pager, idOf, ranked, Start(n, k - 1), n);
    }
  }

  lemma {:induction false} StretchesAddUp<R>(pager: Pager<R>, idOf: R -> Value, ranked: seq<R>, n: nat, k: nat)
    requires ServesPages(pager, idOf, ranked, n) && n >= 1
    ensures PagesUpTo(pager, idOf, n, k) == Take(Start(n, k), ranked)
  {
    if k > 0 {
      StretchesAddUp(pager, idOf, ranked, n, k - 1);
      PageAtIsStretch(pager, idOf, ranked, n, k - 1);
      StretchNext(ranked, Start(n, k - 1), n);
    }
  }

  /**
   Walking forwards reads the whole ranking, in order, without gap or repeat, and the page
   after the last row is empty.
   */
  lemma WalkReadsEverything<R>(pager: Pager<R>, idOf: R -> Value, ranked: seq<R>, n: nat, k: nat)
    requires ServesPages(pager, idOf, ranked, n) && n >= 1
    ensures PagesUpTo(pager, idOf, n, k) == Take(k * n, ranked)
    ensures PageAt(pager, idOf, n, k) == [] <==> k * n >= |ranked|
    ensures k >= |ranked| ==> PagesUpTo(pager, idOf, n, k) == ranked
  {
    StretchesAddUp(pager, idOf, ranked, n, k);
    PageAtIsStretch(pager, idOf, ranked, n, k);
    StretchStart(ranked, Start(n, k), n);
    StartIsProduct(n, k);
  }

  /** Paging backwards from the first row of a page gives the page before it. */
  lemma WalkBackReturns<R>(pager: Pager<R>, idOf: R -> Value, ranked: seq<R>, n: nat, k: nat)
    requires ServesPages(pager, idOf, ranked, n) && n >= 1
    requires k >= 1 && PageAt(pager, idOf, n, k) != []
    ensures pager(KeySetPagingClause(Some(idOf(PageAt(pager, idOf, n, k)[0])), Backwards, n))
         == PageAt(pager, idOf, n, k - 1)
  {
    PageAtIsStretch(pager, idOf, ranked, n, k);
    PageAtIsStretch(pager, idOf, ranked, n, k - 1);
    BackStep(pager, idOf, ranked, Start(n, k - 1), n);
  }

  lemma BackStep<R>(pager: Pager<R>, idOf: R -> Value, ranked: seq<R>, m: nat, n: nat)
    requires ServesPages(pager, idOf, ranked, n) && n >= 1 && Stretch(ranked, m + n, n) != []
    ensures pager(KeySetPagingClause(Some(idOf(Stretch(ranked, m + n, n)[0])), Backwards, n)) == Stretch(ranked, m, n)
  {
    StretchStart(ranked, m + n, n);
    StretchBefore(ranked, m + n, n);
    assert ServesBeside(pager, idOf, ranked, n, m + n);
  }
}
