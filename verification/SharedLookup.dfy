/** Looking up a key in the shared bucket chains of an unspilled parallel build.
    (nodes/parallel_hash_join.c, parallel_hash_join_find_head and parallel_hash_join_next) */
module SharedLookup {
  import opened BuildSources
  import opened Hashing
  import opened JoinPairs
  import opened ParallelChains
  import opened ParallelRows
  import opened ParallelState
  import opened Selecting

  /** The ids of a stack whose rows have the key, in stack order. */
  function WithKey(chunks: seq<seq<Row>>, stack: seq<nat>, key: Key): (ids: seq<nat>)
    requires forall k | 0 <= k < |stack| :: ValidId(chunks, stack[k])
    ensures forall k | 0 <= k < |ids| :: ValidId(chunks, ids[k])
  {
    if stack == [] then []
    else
      var rest := WithKey(chunks, stack[1..], key);
      if RowAt(chunks, stack[0]).key == key then [stack[0]] + rest else rest
  }

  ghost predicate ValidIds(chunks: seq<seq<Row>>, ids: seq<nat>) {
    forall k | 0 <= k < |ids| :: ValidId(chunks, ids[k])
  }

  /** The rest of a chain, from a link on. */
  ghost predicate ChainFrom(g: Shared, link: nat, rest: seq<nat>) {
    && ValidIds(g.chunks, rest) && link == Head(rest)
    && forall k | 0 <= k < |rest| :: LinkOf(g.links, rest[k]) == Head(rest[k + 1..])
  }

  lemma ChainStep(g: Shared, rest: seq<nat>)
    requires ChainFrom(g, Head(rest), rest) && rest != []
    ensures ChainFrom(g, LinkOf(g.links, rest[0]), rest[1..])
  {
    forall k | 0 <= k < |rest[1..]|
      ensures LinkOf(g.links, rest[1..][k]) == Head(rest[1..][k + 1..])
    {
      assert rest[1..][k + 1..] == rest[k + 2..];
      assert LinkOf(g.links, rest[k + 1]) == Head(rest[k + 1 + 1..]);
    }
  }

  lemma ChainCons(g: Shared, id: nat, rest: seq<nat>)
    requires ChainFrom(g, id + 1, [id] + rest)
    ensures ChainFrom(g, LinkOf(g.links, id), rest)
  {
    ChainStep(g, [id] + rest);
    assert ([id] + rest)[1..] == rest;
  }

  /** The comparison of find_head and next: hash and all keys but the last. */
  method SameKey(c: Config, row: Row, key: Key) returns (same: bool)
    requires c.Valid() && |row.key| == |key| == c.nkeys
    ensures same <==> row.key == key
  {
    if c.hash(row.key) != c.hash(key) {
      return false;
    }
    var last := c.nkeys - 1;
    for column := 0 to last
      invariant row.key[..column] == key[..column]
    {
      if row.key[column] != key[column] {
        return false;
      }
    }
    assert Matches(c.hash, row.key, key);
    return true;
  }

  /** The walk that parallel_hash_join_find_head and _next share: down the chain to the
      next row with the key. */
  method Follow(c: Config, g: Shared, from: nat, key: Key, ghost rest: seq<nat>)
    returns (link: nat, ghost after: seq<nat>)
    requires c.Valid() && |key| == c.nkeys && KeysFine(c, g.chunks) && ChainFrom(g, from, rest)
    ensures ValidIds(g.chunks, rest) && ValidIds(g.chunks, after)
    ensures link == 0 ==> WithKey(g.chunks, rest, key) == []
    ensures link != 0 ==> ChainFrom(g, link, [link - 1] + after)
    ensures link != 0 ==> WithKey(g.chunks, rest, key) == [link - 1] + WithKey(g.chunks, after, key)
    ensures link != 0 ==> |after| < |rest| && ValidId(g.chunks, link - 1) && RowAt(g.chunks, link - 1).key == key
    ensures link != 0 ==> rest[|rest| - |after| - 1..] == [link - 1] + after
  {
    hide ValidId, RowAt, KeysFine;
    link, after := from, rest;
    ghost var k := 0;
    while link != 0
      invariant ChainFrom(g, link, after) && k <= |rest| && after == rest[k..]
      invariant WithKey(g.chunks, after, key) == WithKey(g.chunks, rest, key)
      decreases |rest| - k
    {
      AtHead(g, link, after);
      var same := SameKey(c, RowAt(g.chunks, link - 1), key) by {
        HeadKey(c, g, link - 1);
      }
      ChainStep(g, after);
      assert after[1..] == rest[k + 1..];
      if same {
        assert after == [link - 1] + after[1..];
        after := after[1..];
        return;
      }
      link, after, k := LinkOf(g.links, link - 1), after[1..], k + 1;
    }
  }

  lemma AtHead(g: Shared, link: nat, after: seq<nat>)
    requires ChainFrom(g, link, after) && link != 0
    ensures after != [] && after[0] == link - 1 && ValidId(g.chunks, link - 1)
  {}

  lemma HeadKey(c: Config, g: Shared, id: nat)
    requires KeysFine(c, g.chunks) && ValidId(g.chunks, id)
    ensures |RowAt(g.chunks, id).key| == c.nkeys
  {}

  /** The rows of a list of ids. */
  function RowsOf(chunks: seq<seq<Row>>, ids: seq<nat>): (rows: seq<Row>)
    requires forall k | 0 <= k < |ids| :: ValidId(chunks, ids[k])
    ensures |rows| == |ids|
  {
    seq(|ids|, k requires 0 <= k < |ids| => RowAt(chunks, ids[k]))
  }

  /** The ids on the bucket of a key, newest push first. */
  function StackOf(c: Config, g: Shared, key: Key): seq<nat>
    requires |g.buckets| == |g.history.stacks| > 0
  {
    g.history.stacks[BucketOf(c, |g.buckets|, key)]
  }

  ghost predicate BucketsOk(c: Config, g: Shared) {
    && c.Valid() && KeysFine(c, g.chunks) && |g.buckets| == |g.history.stacks| > 0
    && forall b | 0 <= b < |g.buckets| ::
         && ChainFrom(g, g.buckets[b], g.history.stacks[b]) && Distinct(g.history.stacks[b])
         && forall k | 0 <= k < |g.history.stacks[b]| ::
              BucketOf(c, |g.buckets|, RowAt(g.chunks, g.history.stacks[b][k]).key) == b
  }

  /** What a probe needs of the shared state: sound chains that hold, for every key, exactly the
      build rows with it, and a flag that is set if a key repeats. */
  ghost predicate Probable(c: Config, g: Shared) {
    && BucketsOk(c, g)
    && (forall key: Key :: multiset(RowsOf(g.chunks, WithKey(g.chunks, StackOf(c, g, key), key))) ==
                           multiset(Select(FlatAll(c.build), KeyIs(key))))
    && (!g.dup ==> forall key: Key :: |Select(FlatAll(c.build), KeyIs(key))| <= 1)
  }

  /** The part of a stack from an id on. */
  function FromId(stack: seq<nat>, id: nat): seq<nat> {
    if stack == [] || stack[0] == id then stack else FromId(stack[1..], id)
  }

  lemma {:induction false} FromIdAt(stack: seq<nat>, k: nat)
    requires Distinct(stack) && k < |stack|
    ensures FromId(stack, stack[k]) == stack[k..]
  {
    if k > 0 {
      assert stack[1..][k - 1] == stack[k];
      FromIdAt(stack[1..], k - 1);
    }
  }

  /** The ids a link of the shared chains stands for: those with the key of its row, from it on. */
  ghost function RestOf(c: Config, g: Shared, link: nat): seq<nat> {
    if link == 0 || !BucketsOk(c, g) || !ValidId(g.chunks, link - 1) then []
    else
      var key := RowAt(g.chunks, link - 1).key;
      var stack := FromId(StackOf(c, g, key), link - 1);
      if ValidIds(g.chunks, stack) then WithKey(g.chunks, stack, key) else []
  }

  ghost function SharedRest(c: Config, g: Shared): nat -> seq<nat> {
    link => RestOf(c, g, link)
  }

  /** The ids from a position of a bucket's stack on are what the link there stands for. */
  lemma RestAt(c: Config, g: Shared, key: Key, k: nat)
    requires BucketsOk(c, g) && k < |StackOf(c, g, key)|
    ensures ValidIds(g.chunks, StackOf(c, g, key)[k..])
    ensures var stack := StackOf(c, g, key);
            RowAt(g.chunks, stack[k]).key == key ==> RestOf(c, g, stack[k] + 1) == WithKey(g.chunks, stack[k..], key)
    ensures ChainFrom(g, StackOf(c, g, key)[k] + 1, StackOf(c, g, key)[k..])
  {
    hide KeysFine, BucketOf, WithKey;
    var stack := StackOf(c, g, key);
    FromIdAt(stack, k);
    forall j | 0 <= j < |stack[k..]|
      ensures LinkOf(g.links, stack[k..][j]) == Head(stack[k..][j + 1..])
    {
      assert stack[k..][j + 1..] == stack[k + j + 1..];
      assert LinkOf(g.links, stack[k + j]) == Head(stack[k + j + 1..]);
    }
  }

  lemma {:induction false} WithKeyHas(chunks: seq<seq<Row>>, stack: seq<nat>, key: Key)
    requires ValidIds(chunks, stack)
    ensures forall k | 0 <= k < |WithKey(chunks, stack, key)| ::
              ValidId(chunks, WithKey(chunks, stack, key)[k]) && RowAt(chunks, WithKey(chunks, stack, key)[k]).key == key
  {
    if stack != [] {
      WithKeyHas(chunks, stack[1..], key);
    }
  }

  lemma WithKeyFirst(chunks: seq<seq<Row>>, id: nat, after: seq<nat>, key: Key)
    requires ValidIds(chunks, [id] + after) && ValidId(chunks, id) && RowAt(chunks, id).key == key
    ensures ValidIds(chunks, after)
    ensures WithKey(chunks, [id] + after, key) == [id] + WithKey(chunks, after, key)
  {
    assert ([id] + after)[1..] == after;
    forall k | 0 <= k < |after|
      ensures ValidId(chunks, after[k])
    {
      assert ([id] + after)[k + 1] == after[k];
    }
  }

  /** A row with the key in a bucket, reached by a link. */
  lemma LinkLeads(c: Config, g: Shared, key: Key, link: nat, after: seq<nat>)
    requires BucketsOk(c, g) && link > 0 && ValidId(g.chunks, link - 1) && RowAt(g.chunks, link - 1).key == key
    requires var stack := StackOf(c, g, key); |after| < |stack| && stack[|stack| - |after| - 1..] == [link - 1] + after
    ensures ValidIds(g.chunks, after)
    ensures RestOf(c, g, link) == [link - 1] + WithKey(g.chunks, after, key)
    ensures Leads(InChunks(c, g), SharedRest(c, g), link, key)
  {
    hide KeysFine, BucketOf, WithKey, RestOf, ChainFrom, Distinct, ValidId, RowAt;
    var stack := StackOf(c, g, key);
    var k := |stack| - |after| - 1;
    var ids := [link - 1] + after;
    assert stack[k] == stack[k..][0] == ids[0];
    RestAt(c, g, key, k);
    WithKeyFirst(g.chunks, link - 1, after, key);
    WithKeyHas(g.chunks, ids, key);
    assert SharedRest(c, g)(link) == RestOf(c, g, link) == WithKey(g.chunks, ids, key);
    LeadsTo(InChunks(c, g), SharedRest(c, g), link, key) by {
      InChunksRows(c, g, WithKey(g.chunks, ids, key));
    }
  }

  lemma InChunksRows(c: Config, g: Shared, ids: seq<nat>)
    requires ValidIds(g.chunks, ids)
    ensures InChunks(c, g).HasAll(ids)
    ensures forall k | 0 <= k < |ids| :: InChunks(c, g).RowAt(ids[k]) == RowAt(g.chunks, ids[k])
  {}

  lemma LeadsTo(source: BuildSource, rest: nat -> seq<nat>, link: nat, key: Key)
    requires link > 0 && rest(link) != [] && rest(link)[0] == link - 1 && source.HasAll(rest(link))
    requires forall k | 0 <= k < |rest(link)| :: source.RowAt(rest(link)[k]).key == key
    ensures Leads(source, rest, link, key)
  {}

  lemma ZeroLeads(c: Config, g: Shared, key: Key)
    ensures RestOf(c, g, 0) == [] && Leads(InChunks(c, g), SharedRest(c, g), 0, key)
  {}

  /** parallel_hash_join_find_head: the link stands for all build rows with the key. */
  method FindSharedHead(c: Config, g: Shared, p: Row) returns (link: nat)
    requires Probable(c, g) && |p.key| == c.nkeys
    ensures Leads(InChunks(c, g), SharedRest(c, g), link, p.key)
    ensures IdPairs(InChunks(c, g), SharedRest(c, g)(link), p) == Matching(FlatAll(c.build), p)
  {
    hide BucketOf, WithKey, RestOf, ChainFrom, FlatAll, Select, KeysFine;
    var b := BucketOf(c, |g.buckets|, p.key);
    ghost var stack := StackOf(c, g, p.key);
    ghost var after;
    link, after := Follow(c, g, g.buckets[b], p.key, stack);
    ghost var ids := WithKey(g.chunks, stack, p.key);
    if link == 0 {
      ZeroLeads(c, g, p.key);
    } else {
      LinkLeads(c, g, p.key, link, after);
    }
    assert SharedRest(c, g)(link) == RestOf(c, g, link) == ids;
    assert RowsAt(InChunks(c, g), ids) == RowsOf(g.chunks, ids);
    VisitedPairsMatch(InChunks(c, g), ids, p);
  }

  /** parallel_hash_join_next: the link after a row stands for the rows after it. */
  method NextShared(c: Config, g: Shared, link: nat, key: Key) returns (next: nat)
    requires Probable(c, g) && |key| == c.nkeys
    requires link > 0 && Leads(InChunks(c, g), SharedRest(c, g), link, key)
    ensures Leads(InChunks(c, g), SharedRest(c, g), next, key)
    ensures SharedRest(c, g)(link) == [link - 1] + SharedRest(c, g)(next)
  {
    hide BucketOf, WithKey, FlatAll, Select, KeysFine, ValidId, RowAt, Distinct, ChainFrom, Leads, RestOf;
    ghost var stack := StackOf(c, g, key);
    ghost var k := PositionOf(c, g, link, key);
    RestAt(c, g, key, k);
    ghost var below := stack[k + 1..];
    assert stack[k..] == [link - 1] + below;
    assert SharedRest(c, g)(link) == RestOf(c, g, link);
    ChainCons(g, link - 1, below);
    WithKeyFirst(g.chunks, link - 1, below, key);
    ghost var after;
    next, after := Follow(c, g, LinkOf(g.links, link - 1), key, below);
    if next == 0 {
      ZeroLeads(c, g, key);
    } else {
      assert stack[|stack| - |after| - 1..] == below[|below| - |after| - 1..];
      LinkLeads(c, g, key, next, after);
    }
    assert SharedRest(c, g)(next) == RestOf(c, g, next);
  }

  /** Where a link that stands for rows is on its bucket's stack. */
  lemma PositionOf(c: Config, g: Shared, link: nat, key: Key) returns (k: nat)
    requires BucketsOk(c, g) && link > 0 && Leads(InChunks(c, g), SharedRest(c, g), link, key)
    ensures k < |StackOf(c, g, key)| && StackOf(c, g, key)[k] == link - 1 && RowAt(g.chunks, link - 1).key == key
  {
    hide BucketOf, KeysFine;
    var rest := SharedRest(c, g)(link);
    assert rest == RestOf(c, g, link) && rest[0] == link - 1;
    var stack := StackOf(c, g, RowAt(g.chunks, link - 1).key);
    k := FindId(stack, link - 1);
  }

  lemma {:induction false} FindId(stack: seq<nat>, id: nat) returns (k: nat)
    requires FromId(stack, id) != []
    ensures k < |stack| && stack[k] == id
  {
    if stack[0] == id {
      k := 0;
    } else {
      var j := FindId(stack[1..], id);
      k := j + 1;
    }
  }

  /** A clear duplicate flag leaves every probe row at most one match. */
  lemma UniqueRows(c: Config, g: Shared)
    requires Probable(c, g)
    ensures !g.dup ==> NoRepeats(FlatAll(c.build))
  {
    hide BucketsOk, WithKey, Matching, Select, FlatAll;
    if !g.dup {
      forall p: Row
        ensures |Matching(FlatAll(c.build), p)| <= 1
      {
        MatchingSize(FlatAll(c.build), p);
      }
    }
  }
}
