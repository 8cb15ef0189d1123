/** What holds when the parallel build is ready, in every interleaving. */
module ParallelResults {
  import opened Vectors
  import opened Hashing
  import opened Sizes
  import opened JoinPairs
  import opened Partitions
  import opened Selecting
  import opened SpillRouting
  import opened ParallelState
  import opened ParallelControl
  import opened ParallelRows
  import opened ParallelChains
  import opened ParallelRuns
  import opened BuildSources
  import opened SharedLookup

  /** The build is over and nobody spilled: probing may start. */
  ghost predicate ReadyUnspilled(c: Config, s: State) {
    c.Valid() && Reachable(c, s) && s.shared.phase >= 3 && !s.shared.spilled
  }

  lemma ReadyFacts(c: Config, s: State)
    requires ReadyUnspilled(c, s)
    ensures Inv(c, s) && ChunksOk(s.shared.chunks) && Building(c, s) && Chains(c, s.shared)
  {
    ReachableInv(c, s);
  }

  lemma IdleAfterBuild(g: Gist, l: Local)
    requires LocalOk(g, l) && g.phase >= 3
    ensures Idle(l.pc)
  {}

  /** Every row of every chunk has been pushed. */
  lemma EverythingPushed(c: Config, s: State, id: nat)
    requires ReadyUnspilled(c, s) && ValidId(s.shared.chunks, id)
    ensures Pushed(s.shared.chunks, s.shared.history.progress, id)
  {
    hide Run, Accounted, Placement, Chains, Pcs, AllChecked, SharesKey;
    ReadyFacts(c, s);
    var g, i := s.shared, ChunkOf(id);
    assert ChunkDone(g, s.locals, i);
    var owner := g.history.claimedBy[i];
    assert LocalOk(GistOf(g), s.locals[owner]);
    IdleAfterBuild(GistOf(g), s.locals[owner]);
  }

  /** Each row id is linked from one bucket chain, its own, exactly once. */
  lemma ChainedOnce(c: Config, s: State, id: nat)
    requires ReadyUnspilled(c, s) && ValidId(s.shared.chunks, id)
    ensures Tables(c, s.shared)
    ensures var stacks := s.shared.history.stacks;
            var b := BucketOf(c, |s.shared.buckets|, RowAt(s.shared.chunks, id).key);
            && (exists k :: 0 <= k < |stacks[b]| && stacks[b][k] == id)
            && (forall d, j, k | 0 <= d < |stacks| && 0 <= j < |stacks[d]| && 0 <= k < |stacks[b]| && stacks[b][k] == id
                  && stacks[d][j] == id :: d == b && j == k)
  {
    hide Run, BucketOf;
    ReadyFacts(c, s);
    var g := s.shared;
    EverythingPushed(c, s, id);
    var b := BucketOf(c, |g.buckets|, RowAt(g.chunks, id).key);
    forall d, j, k | 0 <= d < |g.history.stacks| && 0 <= j < |g.history.stacks[d]| && 0 <= k < |g.history.stacks[b]|
      && g.history.stacks[b][k] == id && g.history.stacks[d][j] == id
      ensures d == b && j == k
    {
      assert StackOk(c, g, d) && StackOk(c, g, b);
    }
  }

  // ----- positions and ids -----

  function ChunkIds(index: nat, n: nat): (ids: seq<nat>)
    ensures |ids| == n && forall r | 0 <= r < n :: ids[r] == RowId(index, r)
  {
    if n == 0 then [] else ChunkIds(index, n - 1) + [RowId(index, n - 1)]
  }

  /** The ids of the first `n` chunks, in the order of their rows. */
  function AllIds(chunks: seq<seq<Row>>, n: nat): seq<nat>
    requires n <= |chunks|
  {
    if n == 0 then [] else AllIds(chunks, n - 1) + ChunkIds(n - 1, |chunks[n - 1]|)
  }

  lemma {:induction false} IdsListRows(chunks: seq<seq<Row>>, n: nat)
    requires n <= |chunks| && ChunksOk(chunks)
    ensures |AllIds(chunks, n)| == |FlatAll(chunks[..n])|
    ensures forall k | 0 <= k < |AllIds(chunks, n)| ::
              && ValidId(chunks, AllIds(chunks, n)[k]) && ChunkOf(AllIds(chunks, n)[k]) < n
              && RowAt(chunks, AllIds(chunks, n)[k]) == FlatAll(chunks[..n])[k]
  {
    if n > 0 {
      IdsListRows(chunks, n - 1);
      assert chunks[..n][..n - 1] == chunks[..n - 1];
      var before := AllIds(chunks, n - 1);
      forall k | 0 <= k < |AllIds(chunks, n)|
        ensures ValidId(chunks, AllIds(chunks, n)[k]) && ChunkOf(AllIds(chunks, n)[k]) < n
        ensures RowAt(chunks, AllIds(chunks, n)[k]) == FlatAll(chunks[..n])[k]
      {
        if k >= |before| {
          IdParts(n - 1, k - |before|);
        }
      }
    }
  }

  lemma IdsStep(chunks: seq<seq<Row>>, n: nat, id: nat)
    requires 0 < n <= |chunks|
    ensures id in AllIds(chunks, n) <==> id in AllIds(chunks, n - 1) || id in ChunkIds(n - 1, |chunks[n - 1]|)
  {
    hide ChunkIds;
  }

  lemma {:induction false} IdsComplete(chunks: seq<seq<Row>>, n: nat, id: nat)
    requires n <= |chunks| && ChunksOk(chunks) && ValidId(chunks, id) && ChunkOf(id) < n
    ensures id in AllIds(chunks, n)
  {
    hide AllIds, ChunksOk, RowId, ChunkOf, OffsetOf;
    IdWhole(id);
    IdsStep(chunks, n, id);
    if ChunkOf(id) < n - 1 {
      IdsComplete(chunks, n - 1, id);
    } else {
      assert ChunkIds(n - 1, |chunks[n - 1]|)[OffsetOf(id)] == id;
    }
  }

  lemma {:induction false} IdsDistinct(chunks: seq<seq<Row>>, n: nat)
    requires n <= |chunks| && ChunksOk(chunks)
    ensures Distinct(AllIds(chunks, n))
  {
    if n > 0 {
      IdsDistinct(chunks, n - 1);
      IdsListRows(chunks, n - 1);
      var before := AllIds(chunks, n - 1);
      forall j, k | 0 <= j < k < |AllIds(chunks, n)|
        ensures AllIds(chunks, n)[j] != AllIds(chunks, n)[k]
      {
        if k >= |before| {
          IdParts(n - 1, k - |before|);
          if j >= |before| {
            IdParts(n - 1, j - |before|);
          }
        }
      }
    }
  }

  // ----- repeated keys -----

  /** Two rows share their key. */
  ghost predicate Repeats(rows: seq<Row>) {
    exists i, j :: 0 <= i < j < |rows| && rows[i].key == rows[j].key
  }

  lemma {:induction false} OneWithKey(rows: seq<Row>, key: Key)
    ensures |Select(rows, KeyIs(key))| >= 1 <==> exists i :: 0 <= i < |rows| && rows[i].key == key
  {
    if rows != [] {
      OneWithKey(rows[..|rows| - 1], key);
    }
  }

  lemma {:induction false} TwoWithKey(rows: seq<Row>, key: Key)
    ensures |Select(rows, KeyIs(key))| >= 2 <==> exists i, j :: 0 <= i < j < |rows| && rows[i].key == rows[j].key == key
  {
    if rows != [] {
      var n := |rows| - 1;
      TwoWithKey(rows[..n], key);
      OneWithKey(rows[..n], key);
    }
  }

  lemma SelectSize(a: seq<Row>, b: seq<Row>, f: Row -> bool)
    requires multiset(a) == multiset(b)
    ensures multiset(Select(a, f)) == multiset(Select(b, f))
    ensures |Select(a, f)| == |Select(b, f)|
  {
    forall x: Row
      ensures multiset(Select(a, f))[x] == multiset(Select(b, f))[x]
    {
      SelectCount(a, f, x);
      SelectCount(b, f, x);
    }
    assert |multiset(Select(a, f))| == |Select(a, f)| && |multiset(Select(b, f))| == |Select(b, f)|;
  }

  /** Repeated keys do not depend on the order of the rows. */
  lemma RepeatsAnyOrder(a: seq<Row>, b: seq<Row>)
    requires multiset(a) == multiset(b) && Repeats(a)
    ensures Repeats(b)
  {
    var i, j :| 0 <= i < j < |a| && a[i].key == a[j].key;
    TwoWithKey(a, a[i].key);
    SelectSize(a, b, KeyIs(a[i].key));
    TwoWithKey(b, a[i].key);
  }

  lemma SameRows(c: Config, s: State)
    requires c.Valid() && Reachable(c, s) && s.shared.phase >= 1 && !s.shared.spilled
    ensures multiset(FlatAll(s.shared.chunks)) == multiset(FlatAll(c.build))
  {
    hide Reachable, Control, ChainInv, Placement, ProbeConserved, SumOf;
    ReachableInv(c, s);
    forall x: Row
      ensures multiset(FlatAll(s.shared.chunks))[x] == multiset(FlatAll(c.build))[x]
    {
      ChunksHold(c, s, x);
      FlatAllOcc(s.shared.chunks, x);
      FlatAllOcc(c.build, x);
    }
  }

  // ----- the duplicate flag -----

  lemma SharedKeyRepeats(c: Config, s: State)
    requires ReadyUnspilled(c, s) && SharesKey(s.shared)
    ensures Repeats(FlatAll(s.shared.chunks))
  {
    hide ReadyUnspilled, Inv, Building, Chains;
    ReadyFacts(c, s);
    var chunks := s.shared.chunks;
    var n := |chunks|;
    var x, y :| Pushed(chunks, s.shared.history.progress, x) && Pushed(chunks, s.shared.history.progress, y) && x != y
                && RowAt(chunks, x).key == RowAt(chunks, y).key;
    IdsComplete(chunks, n, x);
    IdsComplete(chunks, n, y);
    IdsListRows(chunks, n);
    assert chunks[..n] == chunks;
    var ids := AllIds(chunks, n);
    var i :| 0 <= i < |ids| && ids[i] == x;
    var j :| 0 <= j < |ids| && ids[j] == y;
    if i < j {
      assert FlatAll(chunks)[i].key == FlatAll(chunks)[j].key;
    } else {
      assert FlatAll(chunks)[j].key == FlatAll(chunks)[i].key;
    }
  }

  /** Rows in one chain with the same key leave the flag set once nobody is checking. */
  lemma PairSetsFlag(c: Config, s: State, x: nat, y: nat)
    requires ReadyUnspilled(c, s) && ValidId(s.shared.chunks, x) && ValidId(s.shared.chunks, y) && x != y
    requires RowAt(s.shared.chunks, x).key == RowAt(s.shared.chunks, y).key
    ensures s.shared.dup
  {
    hide Run, Accounted, Placement, Claims, Pcs, SharesKey, BucketOf;
    ReadyFacts(c, s);
    var g := s.shared;
    ChainedOnce(c, s, x);
    ChainedOnce(c, s, y);
    var b := BucketOf(c, |g.buckets|, RowAt(g.chunks, x).key);
    var stack := g.history.stacks[b];
    var j :| 0 <= j < |stack| && stack[j] == x;
    var k :| 0 <= k < |stack| && stack[k] == y;
    assert StackChecked(g, s.locals, stack);
    if j < k {
      assert PairChecked(g, s.locals, stack, j, k);
      NobodyChecks(c, s, x, y);
    } else {
      assert PairChecked(g, s.locals, stack, k, j);
      NobodyChecks(c, s, y, x);
    }
  }

  lemma NobodyChecks(c: Config, s: State, x: nat, y: nat)
    requires ReadyUnspilled(c, s) && Control(c, s)
    ensures !Unchecked(s.shared, s.locals, x, y)
  {
    hide Reachable;
    var i := ChunkOf(x);
    var g := s.shared;
    if i < |g.history.claimedBy| && g.history.claimedBy[i] < |s.locals| {
      assert LocalOk(GistOf(g), s.locals[g.history.claimedBy[i]]);
      IdleAfterBuild(GistOf(g), s.locals[g.history.claimedBy[i]]);
    }
  }

  /** At ready the flag is set if and only if two build rows share the full key. */
  lemma DuplicatesExact(c: Config, s: State)
    requires ReadyUnspilled(c, s)
    ensures s.shared.dup <==> Repeats(FlatAll(c.build))
  {
    hide Reachable, Control, Accounted, Placement, Chains, Claims, Pcs, AllChecked;
    ReadyFacts(c, s);
    SameRows(c, s);
    var chunks := s.shared.chunks;
    if s.shared.dup {
      SharedKeyRepeats(c, s);
      RepeatsAnyOrder(FlatAll(chunks), FlatAll(c.build));
    }
    if Repeats(FlatAll(c.build)) {
      RepeatsAnyOrder(FlatAll(c.build), FlatAll(chunks));
      var i, j :| 0 <= i < j < |FlatAll(chunks)| && FlatAll(chunks)[i].key == FlatAll(chunks)[j].key;
      IdsListRows(chunks, |chunks|);
      IdsDistinct(chunks, |chunks|);
      assert chunks[..|chunks|] == chunks;
      PairSetsFlag(c, s, AllIds(chunks, |chunks|)[i], AllIds(chunks, |chunks|)[j]);
    }
  }

  // ----- looking up a key in the shared chains -----

  lemma {:induction false} DistinctCounts(ids: seq<nat>, id: nat)
    requires Distinct(ids)
    ensures multiset(ids)[id] == if id in ids then 1 else 0
  {
    if ids != [] {
      DistinctCounts(ids[1..], id);
      assert ids == [ids[0]] + ids[1..];
    }
  }

  lemma {:induction false} WithKeyFacts(chunks: seq<seq<Row>>, ids: seq<nat>, key: Key)
    requires ValidIds(chunks, ids)
    ensures ValidIds(chunks, WithKey(chunks, ids, key))
    ensures forall id :: id in WithKey(chunks, ids, key) <==> id in ids && RowAt(chunks, id).key == key
    ensures Distinct(ids) ==> Distinct(WithKey(chunks, ids, key))
  {
    if ids != [] {
      WithKeyFacts(chunks, ids[1..], key);
    }
  }

  lemma {:induction false} WithKeyOcc(chunks: seq<seq<Row>>, ids: seq<nat>, key: Key, x: Row)
    requires ValidIds(chunks, ids)
    ensures ValidIds(chunks, WithKey(chunks, ids, key))
    ensures Occ(RowsOf(chunks, WithKey(chunks, ids, key)), x) == if x.key == key then Occ(RowsOf(chunks, ids), x) else 0
  {
    WithKeyFacts(chunks, ids, key);
    if ids != [] {
      WithKeyOcc(chunks, ids[1..], key, x);
      WithKeyFacts(chunks, ids[1..], key);
      RowsOfFirst(chunks, ids, x);
      if RowAt(chunks, ids[0]).key == key {
        assert WithKey(chunks, ids, key)[1..] == WithKey(chunks, ids[1..], key);
        RowsOfFirst(chunks, WithKey(chunks, ids, key), x);
      }
    }
  }

  lemma RowsOfFirst(chunks: seq<seq<Row>>, ids: seq<nat>, x: Row)
    requires ValidIds(chunks, ids) && ids != []
    ensures ValidIds(chunks, ids[1..])
    ensures Occ(RowsOf(chunks, ids), x) == Occ(RowsOf(chunks, ids[1..]), x) + if RowAt(chunks, ids[0]) == x then 1 else 0
  {
    assert RowsOf(chunks, ids) == [RowAt(chunks, ids[0])] + RowsOf(chunks, ids[1..]);
  }

  lemma RestSame(all: multiset<nat>, a: multiset<nat>, b: multiset<nat>, id: nat)
    requires all == multiset{id} + a && all == multiset{id} + b
    ensures a == b
  {
    assert a == all - multiset{id} && b == all - multiset{id};
  }

  lemma RemoveId(chunks: seq<seq<Row>>, ids: seq<nat>, j: nat, x: Row)
    requires ValidIds(chunks, ids) && j < |ids|
    ensures var rest := ids[..j] + ids[j + 1..];
            && multiset(ids) == multiset{ids[j]} + multiset(rest) && ValidIds(chunks, rest)
            && Occ(RowsOf(chunks, ids), x) == Occ(RowsOf(chunks, rest), x) + if RowAt(chunks, ids[j]) == x then 1 else 0
  {
    var a, b := ids[..j], ids[j + 1..];
    assert ids == a + [ids[j]] + b;
    assert RowsOf(chunks, ids) == RowsOf(chunks, a) + [RowAt(chunks, ids[j])] + RowsOf(chunks, b);
    assert RowsOf(chunks, a + b) == RowsOf(chunks, a) + RowsOf(chunks, b);
  }

  lemma {:induction false} SameIdsSameRows(chunks: seq<seq<Row>>, a: seq<nat>, b: seq<nat>, x: Row)
    requires ValidIds(chunks, a) && ValidIds(chunks, b) && multiset(a) == multiset(b)
    ensures Occ(RowsOf(chunks, a), x) == Occ(RowsOf(chunks, b), x)
    decreases |a|
  {
    hide Occ;
    if a == [] {
      assert |multiset(b)| == 0;
      assert RowsOf(chunks, a) == RowsOf(chunks, b);
    } else {
      assert a[0] in multiset(b);
      var j :| 0 <= j < |b| && b[j] == a[0];
      RemoveId(chunks, a, 0, x);
      RemoveId(chunks, b, j, x);
      var rest, rest' := a[..0] + a[1..], b[..j] + b[j + 1..];
      RestSame(multiset(a), multiset(rest), multiset(rest'), a[0]);
      SameIdsSameRows(chunks, rest, rest', x);
    }
  }

  /** The rows of a chain with the key are all build rows with it, each once. */
  lemma ChainHasEveryMatch(c: Config, s: State, key: Key)
    requires ReadyUnspilled(c, s)
    ensures Tables(c, s.shared)
    ensures var stack := s.shared.history.stacks[BucketOf(c, |s.shared.buckets|, key)];
            && ValidIds(s.shared.chunks, stack)
            && ValidIds(s.shared.chunks, WithKey(s.shared.chunks, stack, key))
            && multiset(RowsOf(s.shared.chunks, WithKey(s.shared.chunks, stack, key))) ==
               multiset(Select(FlatAll(c.build), KeyIs(key)))
  {
    hide Reachable, Control, Accounted, Placement, Claims, Pcs, AllChecked, Building, BucketOf;
    ReadyFacts(c, s);
    var chunks, n := s.shared.chunks, |s.shared.chunks|;
    var b := BucketOf(c, |s.shared.buckets|, key);
    var stack, ids := s.shared.history.stacks[b], AllIds(chunks, n);
    assert StackOk(c, s.shared, b);
    IdsListRows(chunks, n);
    IdsDistinct(chunks, n);
    assert chunks[..n] == chunks;
    assert RowsOf(chunks, ids) == FlatAll(chunks);
    WithKeyFacts(chunks, stack, key);
    WithKeyFacts(chunks, ids, key);
    SameIds(c, s, key);
    SameRows(c, s);
    forall x: Row
      ensures multiset(RowsOf(chunks, WithKey(chunks, stack, key)))[x] == multiset(Select(FlatAll(c.build), KeyIs(key)))[x]
    {
      SameIdsSameRows(chunks, WithKey(chunks, stack, key), WithKey(chunks, ids, key), x);
      WithKeyOcc(chunks, ids, key, x);
      SelectCount(FlatAll(c.build), KeyIs(key), x);
    }
  }

  lemma SameIds(c: Config, s: State, key: Key)
    requires ReadyUnspilled(c, s)
    ensures Tables(c, s.shared)
    ensures var stack := s.shared.history.stacks[BucketOf(c, |s.shared.buckets|, key)];
            var ids := AllIds(s.shared.chunks, |s.shared.chunks|);
            && ValidIds(s.shared.chunks, stack) && ValidIds(s.shared.chunks, ids)
            && multiset(WithKey(s.shared.chunks, stack, key)) == multiset(WithKey(s.shared.chunks, ids, key))
  {
    hide Reachable, Control, Accounted, Placement, Claims, Pcs, AllChecked, Building, BucketOf;
    ReadyFacts(c, s);
    var chunks, n := s.shared.chunks, |s.shared.chunks|;
    var b := BucketOf(c, |s.shared.buckets|, key);
    var stack, ids := s.shared.history.stacks[b], AllIds(chunks, n);
    assert StackOk(c, s.shared, b);
    IdsListRows(chunks, n);
    IdsDistinct(chunks, n);
    WithKeyFacts(chunks, stack, key);
    WithKeyFacts(chunks, ids, key);
    forall id: nat
      ensures multiset(WithKey(chunks, stack, key))[id] == multiset(WithKey(chunks, ids, key))[id]
    {
      DistinctCounts(WithKey(chunks, stack, key), id);
      DistinctCounts(WithKey(chunks, ids, key), id);
      if ValidId(chunks, id) && RowAt(chunks, id).key == key {
        IdsComplete(chunks, n, id);
        EverythingPushed(c, s, id);
      }
    }
  }

  /** find_head, then next until it returns 0. */
  method VisitChain(c: Config, g: Shared, head: nat, key: Key, ghost stack: seq<nat>) returns (ids: seq<nat>)
    requires c.Valid() && |key| == c.nkeys && KeysFine(c, g.chunks) && ChainFrom(g, head, stack)
    ensures ValidIds(g.chunks, stack) && ids == WithKey(g.chunks, stack, key)
  {
    hide WithKey;
    ids := [];
    var link;
    ghost var after;
    link, after := Follow(c, g, head, key, stack);
    while link != 0
      invariant ValidIds(g.chunks, stack) && ValidIds(g.chunks, after)
      invariant link == 0 ==> WithKey(g.chunks, stack, key) == ids
      invariant link != 0 ==> ChainFrom(g, link, [link - 1] + after)
      invariant link != 0 ==> ValidId(g.chunks, link - 1)
      invariant link != 0 ==> WithKey(g.chunks, stack, key) == ids + [link - 1] + WithKey(g.chunks, after, key)
      decreases if link == 0 then 0 else 1 + |after|
    {
      ids := ids + [link - 1];
      ChainCons(g, link - 1, after);
      link, after := Follow(c, g, LinkOf(g.links, link - 1), key, after);
    }
  }

  /** The rows one probe key meets in a ready run: all build rows with the key, each once. */
  method VisitMatches(c: Config, g: Shared, key: Key, ghost s: State) returns (ids: seq<nat>)
    requires ReadyUnspilled(c, s) && c.Valid() && g == s.shared && |key| == c.nkeys
    ensures ValidIds(g.chunks, ids)
    ensures multiset(RowsOf(g.chunks, ids)) == multiset(Select(FlatAll(c.build), KeyIs(key)))
  {
    hide ReadyUnspilled, ChunksOk, Building, Inv, Select, FlatAll, Chains, WithKey, ChainFrom, BucketOf;
    ReadyFacts(c, s);
    ReadyKeys(c, s);
    ChainHasEveryMatch(c, s, key);
    var b := BucketOf(c, |g.buckets|, key);
    StackIsChain(c, g, b);
    ids := VisitChain(c, g, g.buckets[b], key, g.history.stacks[b]);
  }

  lemma ReadyKeys(c: Config, s: State)
    requires ReadyUnspilled(c, s)
    ensures KeysFine(c, s.shared.chunks)
  {
    hide Reachable, Control, ChainInv, Placement;
    ReadyFacts(c, s);
    ChunkKeys(c, s);
  }

  lemma StackIsChain(c: Config, g: Shared, b: nat)
    requires Chains(c, g) && b < |g.buckets|
    ensures ChainFrom(g, g.buckets[b], g.history.stacks[b])
  {
    assert StackOk(c, g, b);
  }

  /** When the flag is clear a key has at most one build row, so the probe that stops at
      the first match loses none. */
  lemma UniqueProbeIsComplete(c: Config, s: State, key: Key)
    requires ReadyUnspilled(c, s) && !s.shared.dup
    ensures |Select(FlatAll(c.build), KeyIs(key))| <= 1
  {
    hide ReadyUnspilled, FlatAll, Select;
    DuplicatesExact(c, s);
    TwoWithKey(FlatAll(c.build), key);
  }

  /** A ready unspilled run offers its probes sound chains, exact for every key, and a flag
      that is clear only if no key repeats. */
  lemma ReadyIsProbable(c: Config, s: State)
    requires ReadyUnspilled(c, s)
    ensures Probable(c, s.shared)
  {
    hide ReadyUnspilled, ChunksOk, Building, Inv, Select, FlatAll, WithKey, BucketOf, KeysFine;
    ReadyFacts(c, s);
    ReadyKeys(c, s);
    ReadyConfig(c, s);
    BucketsReady(c, s.shared);
    forall key: Key
      ensures multiset(RowsOf(s.shared.chunks, WithKey(s.shared.chunks, StackOf(c, s.shared, key), key))) ==
              multiset(Select(FlatAll(c.build), KeyIs(key)))
    {
      ChainHasEveryMatch(c, s, key);
    }
    if !s.shared.dup {
      forall key: Key
        ensures |Select(FlatAll(c.build), KeyIs(key))| <= 1
      {
        UniqueProbeIsComplete(c, s, key);
      }
    }
  }

  lemma ReadyConfig(c: Config, s: State)
    requires ReadyUnspilled(c, s)
    ensures c.Valid()
  {}

  lemma BucketsReady(c: Config, g: Shared)
    requires c.Valid() && KeysFine(c, g.chunks) && Chains(c, g)
    ensures BucketsOk(c, g)
  {
    hide BucketOf, KeysFine;
    forall b | 0 <= b < |g.buckets|
      ensures ChainFrom(g, g.buckets[b], g.history.stacks[b]) && Distinct(g.history.stacks[b])
      ensures forall k | 0 <= k < |g.history.stacks[b]| ::
                BucketOf(c, |g.buckets|, RowAt(g.chunks, g.history.stacks[b][k]).key) == b
    {
      assert StackOk(c, g, b);
    }
  }

  // ----- memory -----

  lemma Multiply(a: nat, b: nat, r: nat)
    requires a <= b
    ensures a * r <= b * r
  {}

  /** The row counter of a ready run is the number of build rows. */
  lemma RowsCounted(c: Config, s: State)
    requires c.Valid() && Reachable(c, s) && s.shared.phase >= 1
    ensures s.shared.buildRows == |FlatAll(c.build)|
  {
    hide Reachable, Control, ChainInv, Placement, ProbeConserved;
    ReachableInv(c, s);
    AllCounted(c, s);
    FlatAllSize(c.build);
  }

  /** Whatever the interleaving of reservations: the granted ones never exceed the shared
      limit, every chunk is covered by one, and in an unspilled run with a published chunk
      the chunks, their directory and the bucket array fit in them. */
  lemma MemoryWithinLimit(c: Config, s: State)
    requires c.Valid() && Reachable(c, s)
    ensures s.shared.history.granted * Reservation(c.ncolumns) <= c.limit
    ensures |s.shared.chunks| * ChunkSize(c.ncolumns) <= c.limit
    ensures s.shared.phase >= 2 && !s.shared.spilled && s.shared.chunks != [] ==>
              |s.shared.chunks| * ChunkSize(c.ncolumns) + 8 * |s.shared.chunks| + 4 * |s.shared.buckets|
              <= s.shared.history.granted * Reservation(c.ncolumns)
  {
    hide Reachable, Control, Placement, ProbeConserved, Conserved, Claims, Pcs, AllChecked, SharesKey, StackOk;
    hide ChunkSize;
    ReachableInv(c, s);
    var n := |s.shared.chunks|;
    Multiply(n, s.shared.history.granted, Reservation(c.ncolumns));
    Distribute(n, c.ncolumns);
    if s.shared.phase >= 2 && !s.shared.spilled && n > 0 {
      assert Tables(c, s.shared);
    }
  }

  lemma Distribute(n: nat, ncolumns: nat)
    ensures n * Reservation(ncolumns) == n * ChunkSize(ncolumns) + 8 * n + 16 * CHUNK_ROWS * n
  {
    hide ChunkSize;
  }
}
