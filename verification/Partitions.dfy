/** Splitting the rows of a join by key, and putting the partial joins together. */
module Partitions {
  import opened Hashing
  import opened JoinPairs
  import opened Selecting

  // ----- joins of parts -----

  /** The joins of the parts from `from` on. */
  ghost function PartsJoin(build: seq<seq<Row>>, probe: seq<seq<Row>>, from: nat): multiset<Pair>
    requires |build| == |probe| && from <= |build|
    decreases |build| - from
  {
    if from == |build| then multiset{}
    else Join(build[from], probe[from]) + PartsJoin(build, probe, from + 1)
  }

  function Owned(owner: Key -> nat, p: nat): Row -> bool {
    (r: Row) => owner(r.key) == p
  }

  function OwnedKept(owner: Key -> nat, p: nat, keep: Row -> bool): Row -> bool {
    (r: Row) => owner(r.key) == p && keep(r)
  }

  /** Every part holds the rows it owns; the probe side may have dropped some. */
  ghost predicate Split(build: seq<Row>, probe: seq<Row>, b: seq<seq<Row>>, p: seq<seq<Row>>,
                        owner: Key -> nat, keep: Row -> bool)
  {
    && |b| == |p|
    && (forall i | 0 <= i < |b| :: b[i] == Select(build, Owned(owner, i)))
    && (forall i | 0 <= i < |p| :: p[i] == Select(probe, OwnedKept(owner, i, keep)))
    && (forall i | 0 <= i < |build| :: owner(build[i].key) < |b|)
  }

  /** A dropped probe row has no match. */
  ghost predicate DropsUnmatched(build: seq<Row>, probe: seq<Row>, keep: Row -> bool) {
    forall i, j | 0 <= i < |build| && 0 <= j < |probe| && !keep(probe[j]) :: build[i].key != probe[j].key
  }

  lemma TimesZero(b: nat, p: nat)
    requires b == 0 || p == 0
    ensures Times(b, p) == 0
  {
    TimesIsProduct(b, p);
  }

  /** One part holds the pairs of the keys it owns. */
  lemma OnePart(build: seq<Row>, probe: seq<Row>, b: seq<Row>, p: seq<Row>,
                owner: Key -> nat, keep: Row -> bool, i: nat, x: Pair)
    requires b == Select(build, Owned(owner, i)) && p == Select(probe, OwnedKept(owner, i, keep))
    ensures Join(b, p)[x] == if x.0.key == x.1.key && owner(x.0.key) == i && keep(x.1)
                             then Times(multiset(build)[x.0], multiset(probe)[x.1]) else 0
  {
    hide Join, Select, Times;
    JoinCount(b, p, x);
    SelectCount(build, Owned(owner, i), x.0);
    SelectCount(probe, OwnedKept(owner, i, keep), x.1);
    if multiset(b)[x.0] == 0 || multiset(p)[x.1] == 0 {
      TimesZero(multiset(b)[x.0], multiset(p)[x.1]);
    }
  }

  lemma {:induction false} PartCount(build: seq<Row>, probe: seq<Row>, b: seq<seq<Row>>, p: seq<seq<Row>>,
                                     owner: Key -> nat, keep: Row -> bool, from: nat, x: Pair)
    requires Split(build, probe, b, p, owner, keep) && from <= |b|
    ensures PartsJoin(b, p, from)[x] ==
            if x.0.key == x.1.key && from <= owner(x.0.key) < |b| && keep(x.1)
            then Times(multiset(build)[x.0], multiset(probe)[x.1]) else 0
    decreases |b| - from
  {
    hide Join, Select, Times;
    if from < |b| {
      PartCount(build, probe, b, p, owner, keep, from + 1, x);
      OnePart(build, probe, b[from], p[from], owner, keep, from, x);
    }
  }

  /** Partitions split a join: no pair is lost or met in two parts, and dropping
      probe rows without a match changes nothing. */
  lemma PartsJoinIsJoin(build: seq<Row>, probe: seq<Row>, b: seq<seq<Row>>, p: seq<seq<Row>>,
                        owner: Key -> nat, keep: Row -> bool)
    requires Split(build, probe, b, p, owner, keep) && DropsUnmatched(build, probe, keep)
    ensures PartsJoin(b, p, 0) == Join(build, probe)
  {
    forall x: Pair
      ensures PartsJoin(b, p, 0)[x] == Join(build, probe)[x]
    {
      PartCount(build, probe, b, p, owner, keep, 0, x);
      JoinCount(build, probe, x);
      TimesIsProduct(multiset(build)[x.0], multiset(probe)[x.1]);
      assert multiset(build)[x.0] > 0 ==> x.0 in build;
      assert multiset(probe)[x.1] > 0 ==> x.1 in probe;
    }
  }

  lemma JoinEmpty(build: seq<Row>, probe: seq<Row>)
    requires build == [] || probe == []
    ensures Join(build, probe) == multiset{}
  {
    JoinNothing(build, probe);
  }
}
