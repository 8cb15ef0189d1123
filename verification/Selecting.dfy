/** Order-preserving selection from a sequence. */
module Selecting {
  /** The rows that satisfy `f`, in order. */
  function Select<T>(rows: seq<T>, f: T -> bool): (r: seq<T>)
    ensures |r| <= |rows|
  {
    if rows == [] then []
    else
      var n := |rows| - 1;
      if f(rows[n]) then Select(rows[..n], f) + [rows[n]] else Select(rows[..n], f)
  }

  lemma SelectOne<T>(rows: seq<T>, r: T, f: T -> bool)
    ensures Select(rows + [r], f) == if f(r) then Select(rows, f) + [r] else Select(rows, f)
  {
    assert (rows + [r])[..|rows|] == rows;
  }

  lemma {:induction false} SelectUnion<T>(a: seq<T>, b: seq<T>, f: T -> bool)
    ensures Select(a + b, f) == Select(a, f) + Select(b, f)
  {
    if b == [] {
      assert a + b == a;
    } else {
      var n := |b| - 1;
      assert (a + b)[..|a + b| - 1] == a + b[..n];
      SelectUnion(a, b[..n], f);
    }
  }

  lemma {:induction false} SelectCount<T>(rows: seq<T>, f: T -> bool, r: T)
    ensures multiset(Select(rows, f))[r] == if f(r) then multiset(rows)[r] else 0
  {
    if rows != [] {
      var n := |rows| - 1;
      SelectCount(rows[..n], f, r);
      assert rows == rows[..n] + [rows[n]];
    }
  }

  lemma {:induction false} SelectMembers<T>(rows: seq<T>, f: T -> bool)
    ensures forall i | 0 <= i < |Select(rows, f)| :: Select(rows, f)[i] in rows && f(Select(rows, f)[i])
  {
    if rows != [] {
      SelectMembers(rows[..|rows| - 1], f);
    }
  }

  /** Selections by equivalent tests are the same. */
  lemma {:induction false} SelectSame<T>(rows: seq<T>, f: T -> bool, g: T -> bool)
    requires forall i | 0 <= i < |rows| :: f(rows[i]) == g(rows[i])
    ensures Select(rows, f) == Select(rows, g)
  {
    if rows != [] {
      SelectSame(rows[..|rows| - 1], f, g);
    }
  }

  lemma {:induction false} SelectTwice<T>(rows: seq<T>, f: T -> bool, g: T -> bool, both: T -> bool)
    requires forall i | 0 <= i < |rows| :: both(rows[i]) == (f(rows[i]) && g(rows[i]))
    ensures Select(Select(rows, f), g) == Select(rows, both)
  {
    if rows != [] {
      var n := |rows| - 1;
      SelectTwice(rows[..n], f, g, both);
      SelectOne(Select(rows[..n], f), rows[n], g);
    }
  }

  lemma {:induction false} SelectNone<T>(rows: seq<T>, f: T -> bool)
    requires forall i | 0 <= i < |rows| :: !f(rows[i])
    ensures Select(rows, f) == []
  {
    if rows != [] {
      SelectNone(rows[..|rows| - 1], f);
    }
  }

  lemma {:induction false} SelectAll<T>(rows: seq<T>, f: T -> bool)
    requires forall i | 0 <= i < |rows| :: f(rows[i])
    ensures Select(rows, f) == rows
  {
    if rows != [] {
      SelectAll(rows[..|rows| - 1], f);
    }
  }
}
