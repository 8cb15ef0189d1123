/** The nested-loop equijoin as a multiset of row pairs, and its algebra.
    Every join in this project is proved to produce exactly these pairs. */
module JoinPairs {
  import opened Hashing

  /** A row of either input: its identity and its non-NULL key. */
  datatype Row = Row(id: nat, key: Key)

  /** A (build row, probe row) pair. */
  type Pair = (Row, Row)

  /** The build rows that match one probe row. */
  ghost function Matching(build: seq<Row>, p: Row): multiset<Pair> {
    if build == [] then multiset{}
    else
      var n := |build| - 1;
      Matching(build[..n], p) + if build[n].key == p.key then multiset{(build[n], p)} else multiset{}
  }

  /** The nested loop over both inputs. */
  ghost function Join(build: seq<Row>, probe: seq<Row>): multiset<Pair> {
    if probe == [] then multiset{}
    else Join(build, probe[..|probe| - 1]) + Matching(build, probe[|probe| - 1])
  }

  /** The members of `m` that satisfy `q`. */
  ghost function Keep(q: Pair -> bool, m: multiset<Pair>): multiset<Pair>
    decreases |m|
  {
    if m == multiset{} then m
    else
      var x :| x in m;
      Keep(q, m - multiset{x}) + if q(x) then multiset{x} else multiset{}
  }

  /** Each kept pair is kept as often as it occurred. */
  lemma {:induction false} KeepCount(q: Pair -> bool, m: multiset<Pair>, x: Pair)
    ensures Keep(q, m)[x] == if q(x) then m[x] else 0
    decreases |m|
  {
    if m != multiset{} {
      var y :| y in m && Keep(q, m) == Keep(q, m - multiset{y}) + if q(y) then multiset{y} else multiset{};
      KeepCount(q, m - multiset{y}, x);
    }
  }

  lemma KeepUnion(q: Pair -> bool, a: multiset<Pair>, b: multiset<Pair>)
    ensures Keep(q, a + b) == Keep(q, a) + Keep(q, b)
  {
    forall x: Pair ensures Keep(q, a + b)[x] == Keep(q, a)[x] + Keep(q, b)[x] {
      KeepCount(q, a + b, x);
      KeepCount(q, a, x);
      KeepCount(q, b, x);
    }
  }

  lemma KeepOne(q: Pair -> bool, x: Pair)
    ensures Keep(q, multiset{x}) == if q(x) then multiset{x} else multiset{}
  {
    forall y: Pair ensures Keep(q, multiset{x})[y] == if q(x) && y == x then 1 else 0 {
      KeepCount(q, multiset{x}, y);
    }
  }

  // ----- every pair with the right multiplicity -----

  lemma {:induction false} MatchingCount(build: seq<Row>, p: Row, x: Pair)
    ensures Matching(build, p)[x] == if x.1 == p && x.0.key == p.key then multiset(build)[x.0] else 0
  {
    if build != [] {
      var n := |build| - 1;
      assert build == build[..n] + [build[n]];
      MatchingCount(build[..n], p, x);
    }
  }

  /** `b` build occurrences against `p` probe occurrences. */
  function Times(b: nat, p: nat): nat {
    if p == 0 then 0 else Times(b, p - 1) + b
  }

  lemma {:induction false} TimesIsProduct(b: nat, p: nat)
    ensures Times(b, p) == b * p
  {
    if p > 0 {
      TimesIsProduct(b, p - 1);
    }
  }

  /** A matching pair occurs once for each occurrence of both rows; no other pair does. */
  lemma {:induction false} JoinCount(build: seq<Row>, probe: seq<Row>, x: Pair)
    ensures Join(build, probe)[x] ==
            if x.0.key == x.1.key then Times(multiset(build)[x.0], multiset(probe)[x.1]) else 0
  {
    if probe != [] {
      var n := |probe| - 1;
      JoinCount(build, probe[..n], x);
      MatchingCount(build, probe[n], x);
      LastCount(probe, x.1);
    }
  }

  lemma LastCount(rows: seq<Row>, r: Row)
    requires rows != []
    ensures var n := |rows| - 1;
            multiset(rows)[r] == multiset(rows[..n])[r] + if rows[n] == r then 1 else 0
  {
    var n := |rows| - 1;
    assert rows == rows[..n] + [rows[n]];
  }

  // ----- algebra -----

  lemma JoinSameRows(b1: seq<Row>, p1: seq<Row>, b2: seq<Row>, p2: seq<Row>)
    requires multiset(b1) == multiset(b2) && multiset(p1) == multiset(p2)
    ensures Join(b1, p1) == Join(b2, p2)
  {
    forall x: Pair ensures Join(b1, p1)[x] == Join(b2, p2)[x] {
      JoinCount(b1, p1, x);
      JoinCount(b2, p2, x);
    }
  }

  lemma {:induction false} MatchingUnion(b1: seq<Row>, b2: seq<Row>, p: Row)
    ensures Matching(b1 + b2, p) == Matching(b1, p) + Matching(b2, p)
  {
    if b2 == [] {
      assert b1 + b2 == b1;
    } else {
      var n := |b2| - 1;
      assert (b1 + b2)[..|b1 + b2| - 1] == b1 + b2[..n];
      MatchingUnion(b1, b2[..n], p);
    }
  }

  lemma {:induction false} JoinBuildUnion(b1: seq<Row>, b2: seq<Row>, probe: seq<Row>)
    ensures Join(b1 + b2, probe) == Join(b1, probe) + Join(b2, probe)
  {
    if probe != [] {
      var n := |probe| - 1;
      JoinBuildUnion(b1, b2, probe[..n]);
      MatchingUnion(b1, b2, probe[n]);
    }
  }

  lemma {:induction false} JoinProbeUnion(build: seq<Row>, p1: seq<Row>, p2: seq<Row>)
    ensures Join(build, p1 + p2) == Join(build, p1) + Join(build, p2)
  {
    if p2 == [] {
      assert p1 + p2 == p1;
    } else {
      var n := |p2| - 1;
      assert (p1 + p2)[..|p1 + p2| - 1] == p1 + p2[..n];
      JoinProbeUnion(build, p1, p2[..n]);
    }
  }

  lemma JoinNothing(build: seq<Row>, probe: seq<Row>)
    requires forall b, p | b in build && p in probe :: b.key != p.key
    ensures Join(build, probe) == multiset{}
  {
    forall x: Pair ensures Join(build, probe)[x] == 0 {
      JoinCount(build, probe, x);
      TimesIsProduct(multiset(build)[x.0], multiset(probe)[x.1]);
      assert multiset(build)[x.0] > 0 ==> x.0 in build;
      assert multiset(probe)[x.1] > 0 ==> x.1 in probe;
    }
  }
}
