/**
 Stable sorting by a strict weak order given as a comparison function, and the facts that
 make "sort, limit, sort again" pipelines collapse: a sorted arrangement is unique once ties
 are accounted for, filtering commutes with sorting, and only the first n elements of each
 part of a union can reach the first n elements of the whole.
 */
module Ordering {
  import opened Prelude

  ghost predicate WeakOrder<T(!new)>(lt: (T, T) -> bool) {
    && (forall a :: !lt(a, a))
    && (forall a, b, c :: lt(a, b) && lt(b, c) ==> lt(a, c))
    && (forall a, b, c :: lt(a, c) ==> lt(a, b) || lt(b, c))
  }

  predicate Tied<T>(lt: (T, T) -> bool, a: T, b: T) {
    !lt(a, b) && !lt(b, a)
  }

  ghost predicate Sorted<T(!new)>(lt: (T, T) -> bool, s: seq<T>) {
    forall i, j :: 0 <= i < j < |s| ==> !lt(s[j], s[i])
  }

  /** Only identical elements of `s` tie. */
  ghost predicate Discriminates<T(!new)>(lt: (T, T) -> bool, s: seq<T>) {
    forall a, b :: a in s && b in s && Tied(lt, a, b) ==> a == b
  }

  function Insert<T>(lt: (T, T) -> bool, x: T, s: seq<T>): (r: seq<T>)
    ensures |r| == |s| + 1
    ensures multiset(r) == multiset(s) + multiset{x}
  {
    if s == [] then [x]
    else if lt(s[0], x) then
      assert s == [s[0]] + s[1..];
      [s[0]] + Insert(lt, x, s[1..])
    else [x] + s
  }

  /** The stable sort of `s`: ties keep their input order. */
  function Sort<T>(lt: (T, T) -> bool, s: seq<T>): (r: seq<T>)
    ensures |r| == |s|
    ensures multiset(r) == multiset(s)
  {
    if s == [] then []
    else
      assert s == [s[0]] + s[1..];
      Insert(lt, s[0], Sort(lt, s[1..]))
  }

  function Flip<T>(lt: (T, T) -> bool): (T, T) -> bool {
    (a: T, b: T) => lt(b, a)
  }

  lemma FlipWeakOrder<T(!new)>(lt: (T, T) -> bool)
    requires WeakOrder(lt)
    ensures WeakOrder(Flip(lt))
  {
    forall a, b, c | Flip(lt)(a, c) ensures Flip(lt)(a, b) || Flip(lt)(b, c) {
      assert lt(c, a) ==> lt(c, b) || lt(b, a);
    }
  }

  lemma SortMembership<T(!new)>(lt: (T, T) -> bool, s: seq<T>)
    ensures forall x :: x in Sort(lt, s) <==> x in s
  {
    MultisetMembership(Sort(lt, s), s);
  }

  lemma {:induction false} InsertSorted<T(!new)>(lt: (T, T) -> bool, x: T, s: seq<T>)
    requires WeakOrder(lt) && Sorted(lt, s)
    ensures Sorted(lt, Insert(lt, x, s))
  {
    if s != [] {
      if lt(s[0], x) {
        InsertSorted(lt, x, s[1..]);
        var r := Insert(lt, x, s[1..]);
        forall j | 0 <= j < |r| ensures !lt(r[j], s[0]) {
          assert r[j] in multiset(r);
          if r[j] != x {
            assert r[j] in multiset(s[1..]);
            assert r[j] in s[1..];
          }
        }
      } else {
        assert forall j :: 0 <= j < |s| ==> !lt(s[j], x);
      }
    }
  }

  lemma {:induction false} SortSorted<T(!new)>(lt: (T, T) -> bool, s: seq<T>)
    requires WeakOrder(lt)
    ensures Sorted(lt, Sort(lt, s))
  {
    if s != [] {
      SortSorted(lt, s[1..]);
      InsertSorted(lt, s[0], Sort(lt, s[1..]));
    }
  }

  lemma {:induction false} SortOfSorted<T(!new)>(lt: (T, T) -> bool, s: seq<T>)
    requires Sorted(lt, s)
    ensures Sort(lt, s) == s
  {
    if s != [] {
      assert Sorted(lt, s[1..]);
      SortOfSorted(lt, s[1..]);
      if |s| > 1 {
        assert !lt(s[1], s[0]);
      }
    }
  }

  // Uniqueness of the stable arrangement: what is sorted and keeps every class of ties in the
  // order of `s` is Sort(lt, s).

  function TiedWith<T>(lt: (T, T) -> bool, x: T): T -> bool {
    (y: T) => Tied(lt, x, y)
  }

  /** every class of tied elements appears in `s` and in `t` in the same order. */
  ghost predicate SameTies<T(!new)>(lt: (T, T) -> bool, s: seq<T>, t: seq<T>) {
    forall x :: Filter(TiedWith(lt, x), s) == Filter(TiedWith(lt, x), t)
  }

  lemma {:induction false} StableUnique<T(!new)>(lt: (T, T) -> bool, s: seq<T>, t: seq<T>)
    requires WeakOrder(lt) && Sorted(lt, s) && Sorted(lt, t) && SameTies(lt, s, t)
    ensures s == t
  {
    if s == [] {
      if t != [] {
        OwnClass(lt, t);
        assert false;
      }
    } else if t == [] {
      OwnClass(lt, s);
      assert false;
    } else {
      HeadIsLeast(lt, s, t);
      HeadIsLeast(lt, t, s);
      SameHead(lt, s, t);
      StableUnique(lt, s[1..], t[1..]);
      assert s == [s[0]] + s[1..] && t == [t[0]] + t[1..];
    }
  }

  lemma SameHead<T(!new)>(lt: (T, T) -> bool, s: seq<T>, t: seq<T>)
    requires s != [] && t != [] && SameTies(lt, s, t)
    requires Tied(lt, s[0], t[0]) && Tied(lt, s[0], s[0])
    ensures s[0] == t[0] && SameTies(lt, s[1..], t[1..])
  {
    assert Filter(TiedWith(lt, s[0]), s)[0] == s[0];
    assert Filter(TiedWith(lt, s[0]), t)[0] == t[0];
    forall x ensures Filter(TiedWith(lt, x), s[1..]) == Filter(TiedWith(lt, x), t[1..]) {
      var p := TiedWith(lt, x);
      assert Filter(p, s) == Filter(p, t);
      if p(s[0]) {
        assert Filter(p, s[1..]) == Filter(p, s)[1..];
        assert Filter(p, t[1..]) == Filter(p, t)[1..];
      }
    }
  }

  lemma OwnClass<T(!new)>(lt: (T, T) -> bool, s: seq<T>)
    requires s != [] && Tied(lt, s[0], s[0])
    ensures Filter(TiedWith(lt, s[0]), s) != []
  {
    assert s[0] in Filter(TiedWith(lt, s[0]), s);
  }

  lemma HeadIsLeast<T(!new)>(lt: (T, T) -> bool, s: seq<T>, t: seq<T>)
    requires WeakOrder(lt) && Sorted(lt, s) && SameTies(lt, s, t)
    requires s != [] && t != []
    ensures !lt(t[0], s[0])
  {
    assert t[0] in Filter(TiedWith(lt, t[0]), t);
    assert t[0] in Filter(TiedWith(lt, t[0]), s);
    var i :| 0 <= i < |s| && s[i] == t[0];
  }

  /** Filtering commutes with stable sorting. */
  lemma {:induction false} FilterSort<T(!new)>(lt: (T, T) -> bool, p: T -> bool, s: seq<T>)
    requires WeakOrder(lt)
    ensures Filter(p, Sort(lt, s)) == Sort(lt, Filter(p, s))
  {
    if s != [] {
      FilterSort(lt, p, s[1..]);
      SortSorted(lt, s[1..]);
      FilterInsert(lt, p, s[0], Sort(lt, s[1..]));
    }
  }

  lemma {:induction false} FilterInsert<T(!new)>(lt: (T, T) -> bool, p: T -> bool, x: T, s: seq<T>)
    requires WeakOrder(lt) && Sorted(lt, s)
    ensures Filter(p, Insert(lt, x, s)) == if p(x) then Insert(lt, x, Filter(p, s)) else Filter(p, s)
  {
    if s != [] {
      if lt(s[0], x) {
        FilterInsert(lt, p, x, s[1..]);
      } else if p(x) && Filter(p, s) != [] {
        var y := Filter(p, s)[0];
        assert y in Filter(p, s);
        assert y in s;
        var i :| 0 <= i < |s| && s[i] == y;
        assert !lt(y, x);
      }
    }
  }

  lemma SameTiesSort<T(!new)>(lt: (T, T) -> bool, s: seq<T>)
    requires WeakOrder(lt)
    ensures SameTies(lt, Sort(lt, s), s)
  {
    forall x ensures Filter(TiedWith(lt, x), Sort(lt, s)) == Filter(TiedWith(lt, x), s) {
      FilterSort(lt, TiedWith(lt, x), s);
      var ties := Filter(TiedWith(lt, x), s);
      assert Sorted(lt, ties) by {
        forall i, j | 0 <= i < j < |ties| ensures !lt(ties[j], ties[i]) {
          assert ties[i] in ties && ties[j] in ties;
          assert Tied(lt, x, ties[i]) && Tied(lt, x, ties[j]);
        }
      }
      SortOfSorted(lt, ties);
    }
  }

  // Uniqueness for permutations without ties.

  lemma {:induction false} UniqueSorted<T(!new)>(lt: (T, T) -> bool, s: seq<T>, t: seq<T>)
    requires WeakOrder(lt) && Sorted(lt, s) && Sorted(lt, t)
    requires multiset(s) == multiset(t) && Discriminates(lt, s)
    ensures s == t
  {
    if s == [] {
      MultisetMembership(s, t);
    } else {
      LeastFirst(lt, s, t);
      TailPermutation(s, t);
      assert forall x :: x in s[1..] ==> x in s;
      UniqueSorted(lt, s[1..], t[1..]);
    }
  }

  lemma LeastFirst<T(!new)>(lt: (T, T) -> bool, s: seq<T>, t: seq<T>)
    requires WeakOrder(lt) && Sorted(lt, s) && Sorted(lt, t) && s != []
    requires multiset(s) == multiset(t) && Discriminates(lt, s)
    ensures t != [] && s[0] == t[0]
  {
    MultisetMembership(s, t);
    assert t[0] in s && s[0] in t;
    assert !lt(t[0], s[0]) by {
      var i :| 0 <= i < |s| && s[i] == t[0];
    }
    assert !lt(s[0], t[0]) by {
      var j :| 0 <= j < |t| && t[j] == s[0];
    }
    assert Tied(lt, s[0], t[0]);
  }

  lemma TailPermutation<T(!new)>(s: seq<T>, t: seq<T>)
    requires s != [] && t != [] && s[0] == t[0] && multiset(s) == multiset(t)
    ensures s == [s[0]] + s[1..] && t == [t[0]] + t[1..]
    ensures multiset(s[1..]) == multiset(t[1..])
  {
    assert s == [s[0]] + s[1..] && t == [t[0]] + t[1..];
    assert multiset(s[1..]) == multiset(s) - multiset{s[0]};
    assert multiset(t[1..]) == multiset(t) - multiset{t[0]};
  }

  /** Sorting forgets the input order when nothing but identical elements tie. */
  lemma SortOfPermutation<T(!new)>(lt: (T, T) -> bool, s: seq<T>, t: seq<T>)
    requires WeakOrder(lt) && multiset(s) == multiset(t) && Discriminates(lt, s)
    ensures Sort(lt, s) == Sort(lt, t)
  {
    SortSorted(lt, s);
    SortSorted(lt, t);
    SortMembership(lt, s);
    UniqueSorted(lt, Sort(lt, s), Sort(lt, t));
  }

  lemma {:induction false} ReversePermutation<T(!new)>(s: seq<T>)
    ensures multiset(Reverse(s)) == multiset(s)
  {
    if s != [] {
      ReversePermutation(s[1..]);
      assert s == [s[0]] + s[1..];
    }
  }

  /** Sorting by the reversed order reverses the sorted sequence. */
  lemma SortFlipped<T(!new)>(lt: (T, T) -> bool, s: seq<T>)
    requires WeakOrder(lt) && Discriminates(lt, s)
    ensures Sort(Flip(lt), s) == Reverse(Sort(lt, s))
  {
    var r := Reverse(Sort(lt, s));
    FlipWeakOrder(lt);
    SortSorted(lt, s);
    SortSorted(Flip(lt), s);
    ReversePermutation(Sort(lt, s));
    SortMembership(Flip(lt), s);
    assert Sorted(Flip(lt), r);
    assert Discriminates(Flip(lt), Sort(Flip(lt), s)) by {
      forall a, b | a in s && b in s && Tied(Flip(lt), a, b) ensures a == b {
        assert Tied(lt, a, b);
      }
    }
    UniqueSorted(Flip(lt), Sort(Flip(lt), s), r);
  }

  /** Reverse, limit, sort again: the last n of the sorted sequence. */
  lemma LastByReversal<T(!new)>(lt: (T, T) -> bool, s: seq<T>, n: nat)
    requires WeakOrder(lt) && Discriminates(lt, s)
    ensures Sort(lt, Take(n, Sort(Flip(lt), s))) == Last(n, Sort(lt, s))
  {
    var sorted := Sort(lt, s);
    SortFlipped(lt, s);
    SortSorted(lt, s);
    SortMembership(lt, s);
    var page := Last(n, sorted);
    assert Take(n, Reverse(sorted)) == Reverse(page);
    assert forall x :: x in page ==> x in sorted;
    ReversePermutation(page);
    SortOfSorted(lt, page);
    SortOfPermutation(lt, page, Reverse(page));
  }

  lemma {:induction false} InsertExtensional<T(!new)>(lt: (T, T) -> bool, lt': (T, T) -> bool, x: T, s: seq<T>)
    requires forall y :: y in s ==> lt(y, x) == lt'(y, x)
    ensures Insert(lt, x, s) == Insert(lt', x, s)
  {
    if s != [] {
      assert s[0] in s;
      assert forall y :: y in s[1..] ==> y in s;
      InsertExtensional(lt, lt', x, s[1..]);
    }
  }

  lemma {:induction false} SortExtensional<T(!new)>(lt: (T, T) -> bool, lt': (T, T) -> bool, s: seq<T>)
    requires forall x, y :: x in s && y in s ==> lt(x, y) == lt'(x, y)
    ensures Sort(lt, s) == Sort(lt', s)
  {
    if s != [] {
      assert s[0] in s;
      assert forall y :: y in s[1..] ==> y in s;
      SortExtensional(lt, lt', s[1..]);
      SortMembership(lt, s[1..]);
      InsertExtensional(lt, lt', s[0], Sort(lt, s[1..]));
    }
  }

  /** Sorting a selection of the selected rows. */
  lemma SortSelection<T(!new)>(
    lt: (T, T) -> bool, p: T -> bool, q: T -> bool, pq: T -> bool, s: seq<T>)
    requires WeakOrder(lt)
    requires forall x :: x in s ==> (pq(x) <==> p(x) && q(x))
    ensures Sort(lt, Filter(pq, s)) == Filter(p, Sort(lt, Filter(q, s)))
  {
    FilterTwice(p, q, pq, s);
    FilterSort(lt, p, Filter(q, s));
  }

  // Top-n of a union.

  function Top<T>(lt: (T, T) -> bool, n: nat, s: seq<T>): seq<T> {
    Take(n, Sort(lt, s))
  }

  lemma {:induction false} TakeInsert<T(!new)>(lt: (T, T) -> bool, n: nat, x: T, s: seq<T>)
    ensures Take(n, Insert(lt, x, s)) == Take(n, Insert(lt, x, Take(n, s)))
  {
    if s != [] && n != 0 {
      var y, t := s[0], s[1..];
      assert s == [y] + t;
      TakeCons(n, y, t);
      if lt(y, x) {
        TakeInsert(lt, n - 1, x, t);
        InsertCons(lt, n, x, y, t);
        InsertCons(lt, n, x, y, Take(n - 1, t));
      } else {
        InsertFront(lt, n, x, y, t);
      }
    }
  }

  lemma InsertFront<T(!new)>(lt: (T, T) -> bool, n: nat, x: T, y: T, s: seq<T>)
    requires n > 0 && !lt(y, x)
    ensures Take(n, Insert(lt, x, [y] + s)) == Take(n, Insert(lt, x, [y] + Take(n - 1, s)))
  {
    assert Insert(lt, x, [y] + s) == [x] + ([y] + s);
    assert Insert(lt, x, [y] + Take(n - 1, s)) == [x] + ([y] + Take(n - 1, s));
    TakeCons(n, y, s);
    TakeFront(n, x, [y] + s);
  }

  lemma TakeFront<T(!new)>(n: nat, x: T, s: seq<T>)
    ensures Take(n, [x] + s) == Take(n, [x] + Take(n, s))
  {
  }

  lemma TakeCons<T(!new)>(n: nat, x: T, s: seq<T>)
    requires n > 0
    ensures Take(n, [x] + s) == [x] + Take(n - 1, s)
  {
  }

  lemma InsertCons<T(!new)>(lt: (T, T) -> bool, n: nat, x: T, y: T, s: seq<T>)
    requires n > 0 && lt(y, x)
    ensures Take(n, Insert(lt, x, [y] + s)) == [y] + Take(n - 1, Insert(lt, x, s))
  {
    assert ([y] + s)[1..] == s;
    TakeCons(n, y, Insert(lt, x, s));
  }

  lemma TopTop<T(!new)>(lt: (T, T) -> bool, n: nat, s: seq<T>)
    requires WeakOrder(lt)
    ensures Top(lt, n, Top(lt, n, s)) == Top(lt, n, s)
  {
    SortSorted(lt, s);
    SortOfSorted(lt, Top(lt, n, s));
  }

  lemma {:induction false} TopRight<T(!new)>(lt: (T, T) -> bool, n: nat, a: seq<T>, b: seq<T>)
    requires WeakOrder(lt)
    ensures Top(lt, n, a + b) == Top(lt, n, a + Top(lt, n, b))
  {
    var top := Top(lt, n, b);
    if a == [] {
      assert a + b == b && a + top == top;
      TopTop(lt, n, b);
    } else {
      assert (a + b)[1..] == a[1..] + b && (a + top)[1..] == a[1..] + top;
      TopRight(lt, n, a[1..], b);
      TakeInsert(lt, n, a[0], Sort(lt, a[1..] + b));
      TakeInsert(lt, n, a[0], Sort(lt, a[1..] + top));
    }
  }

  lemma TopLeft<T(!new)>(lt: (T, T) -> bool, n: nat, a: seq<T>, b: seq<T>)
    requires WeakOrder(lt) && Discriminates(lt, a + b)
    ensures Top(lt, n, a + b) == Top(lt, n, Top(lt, n, a) + b)
  {
    var top := Top(lt, n, a);
    SortMembership(lt, a);
    assert multiset(a + b) == multiset(b + a) && multiset(top + b) == multiset(b + top);
    assert forall x :: x in top + b ==> x in a + b;
    SortOfPermutation(lt, a + b, b + a);
    TopRight(lt, n, b, a);
    SortOfPermutation(lt, top + b, b + top);
  }

  function TopEach<T>(lt: (T, T) -> bool, n: nat, ss: seq<seq<T>>): (r: seq<seq<T>>)
    ensures |r| == |ss|
    ensures forall i :: 0 <= i < |ss| ==> r[i] == Top(lt, n, ss[i])
  {
    if ss == [] then [] else [Top(lt, n, ss[0])] + TopEach(lt, n, ss[1..])
  }

  /** The first n of a union are found among the first n of each of its parts. */
  lemma {:induction false} TopOfUnion<T(!new)>(lt: (T, T) -> bool, n: nat, ss: seq<seq<T>>)
    requires WeakOrder(lt) && Discriminates(lt, Flatten(ss))
    ensures Top(lt, n, Flatten(TopEach(lt, n, ss))) == Top(lt, n, Flatten(ss))
  {
    if ss != [] {
      var a, rest := ss[0], Flatten(ss[1..]);
      var rest' := Flatten(TopEach(lt, n, ss[1..]));
      assert forall x :: x in rest ==> x in Flatten(ss);
      TopOfUnion(lt, n, ss[1..]);
      TopLeft(lt, n, a, rest);
      TopRight(lt, n, Top(lt, n, a), rest);
      TopRight(lt, n, Top(lt, n, a), rest');
    }
  }
}
