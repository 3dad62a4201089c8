/** Column values and the total order databases and Python sort them by. */
module Values {

  /** A scalar held by a column, bound to a statement or looked up in a record. */
  datatype Value = Null | Number(n: int) | Text(text: string)

  /** Code point order on strings. */
  predicate StringBelow(a: string, b: string) {
    if b == "" then false
    else if a == "" then true
    else if a[0] != b[0] then a[0] < b[0]
    else StringBelow(a[1..], b[1..])
  }

  lemma {:induction false} StringBelowTotal(a: string, b: string)
    ensures !StringBelow(a, a)
    ensures a == b || StringBelow(a, b) || StringBelow(b, a)
  {
    if a != "" {
      StringBelowTotal(a[1..], if b == "" then b else b[1..]);
      if b != "" && a[0] == b[0] && a[1..] == b[1..] {
        assert a == [a[0]] + a[1..] == b;
      }
    }
  }

  lemma {:induction false} StringBelowTransitive(a: string, b: string, c: string)
    requires StringBelow(a, b) && StringBelow(b, c)
    ensures StringBelow(a, c)
  {
    if a != "" && a[0] == b[0] == c[0] {
      StringBelowTransitive(a[1..], b[1..], c[1..]);
    }
  }

  /** Up to index `i` the strings agree, and there the first one ends or has the lower code point. */
  predicate DecidedAt(a: string, b: string, i: nat) {
    i <= |a| && i < |b| && a[..i] == b[..i] && (i == |a| || a[i] < b[i])
  }

  /** The first difference decides. */
  lemma {:induction false} StringBelowByFirstDifference(a: string, b: string)
    ensures StringBelow(a, b) <==> exists i: nat :: DecidedAt(a, b, i)
  {
    if a == "" {
      assert b != "" ==> DecidedAt(a, b, 0);
    } else if b != "" {
      StringBelowByFirstDifference(a[1..], b[1..]);
      if a[0] == b[0] {
        if i: nat :| DecidedAt(a[1..], b[1..], i) {
          assert a[..i + 1] == [a[0]] + a[1..][..i] && b[..i + 1] == [b[0]] + b[1..][..i];
          assert DecidedAt(a, b, i + 1);
        }
        if i: nat :| DecidedAt(a, b, i) {
          assert a[1..][..i - 1] == a[..i][1..] && b[1..][..i - 1] == b[..i][1..];
          assert DecidedAt(a[1..], b[1..], i - 1);
        }
      } else {
        assert a[0] < b[0] ==> DecidedAt(a, b, 0);
        if i: nat :| DecidedAt(a, b, i) {
          assert i > 0 ==> a[..i][0] == b[..i][0];
        }
      }
    }
  }

  lemma {:induction false} StringBelowPrefix(prefix: string, a: string, b: string)
    ensures StringBelow(prefix + a, prefix + b) == StringBelow(a, b)
  {
    if prefix == "" {
      assert prefix + a == a && prefix + b == b;
    } else {
      assert (prefix + a)[1..] == prefix[1..] + a && (prefix + b)[1..] == prefix[1..] + b;
      StringBelowPrefix(prefix[1..], a, b);
    }
  }

  /** Ascending order, with NULL after everything else as PostgreSQL sorts it. */
  predicate Below(x: Value, y: Value) {
    match (x, y)
    case (Null, _) => false
    case (_, Null) => true
    case (Number(m), Number(n)) => m < n
    case (Number(_), Text(_)) => true
    case (Text(_), Number(_)) => false
    case (Text(s), Text(t)) => StringBelow(s, t)
  }

  lemma BelowTotal(x: Value, y: Value)
    ensures !Below(x, x)
    ensures x == y || Below(x, y) || Below(y, x)
  {
    if x.Text? {
      StringBelowTotal(x.text, if y.Text? then y.text else "");
    }
  }

  lemma BelowTransitive(x: Value, y: Value, z: Value)
    requires Below(x, y) && Below(y, z)
    ensures Below(x, z)
  {
    if x.Text? && y.Text? && z.Text? {
      StringBelowTransitive(x.text, y.text, z.text);
    }
  }
}
