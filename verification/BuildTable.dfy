/** The serial build table: open addressing over keys, duplicates in chains.
    (nodes/hash_join.c, hash_join_finish_build_table and find_build_head) */
module BuildTable {
  import opened Hashing
  import opened Sizes

  // ----- specification -----

  /** The rows below `n` with key `k`, newest first: what a chain must list. */
  function RowsWithKey(keys: seq<Key>, n: nat, k: Key): (rows: seq<nat>)
    requires n <= |keys|
  {
    if n == 0 then []
    else if keys[n - 1] == k then [n - 1] + RowsWithKey(keys, n - 1, k)
    else RowsWithKey(keys, n - 1, k)
  }

  /** Every row with the key, once, and no other row. */
  lemma {:induction false} RowsWithKeyExact(keys: seq<Key>, n: nat, k: Key)
    requires n <= |keys|
    ensures forall r :: r in RowsWithKey(keys, n, k) <==> 0 <= r < n && keys[r] == k
    ensures forall i, j | 0 <= i < j < |RowsWithKey(keys, n, k)| ::
              RowsWithKey(keys, n, k)[i] > RowsWithKey(keys, n, k)[j]
  {
    if n > 0 {
      RowsWithKeyExact(keys, n - 1, k);
      var rest := RowsWithKey(keys, n - 1, k);
      assert forall i | 0 <= i < |rest| :: rest[i] in rest;
    }
  }

  ghost predicate Linked(next: seq<nat>, n: nat) {
    n <= |next| && forall i | 0 <= i < n :: next[i] <= i
  }

  /** The rows a chain visits from `link`, which is a row number plus one. */
  ghost function Chain(next: seq<nat>, n: nat, link: nat): seq<nat>
    requires Linked(next, n) && link <= n
    decreases link
  {
    if link == 0 then [] else [link - 1] + Chain(next, n, next[link - 1])
  }

  /** The slot `d` steps after `start`, wrapping around. */
  function Slot(start: nat, d: nat, n: nat): (s: nat)
    requires start < n && d < n
    ensures s < n
  {
    if start + d < n then start + d else start + d - n
  }

  function Occupied(buckets: seq<nat>): nat {
    if buckets == [] then 0 else (if buckets[0] == 0 then 0 else 1) + Occupied(buckets[1..])
  }

  ghost predicate LinksBelow(buckets: seq<nat>, n: nat) {
    0 < |buckets| && forall b | 0 <= b < |buckets| :: buckets[b] <= n
  }

  /** The first `d` slots from `start` hold other keys than `k`. */
  ghost predicate Passed(keys: seq<Key>, buckets: seq<nat>, start: nat, k: Key, d: nat)
    requires LinksBelow(buckets, |keys|) && start < |buckets| && d <= |buckets|
  {
    forall j | 0 <= j < d :: PassedAt(keys, buckets, start, k, j)
  }

  ghost predicate PassedAt(keys: seq<Key>, buckets: seq<nat>, start: nat, k: Key, j: nat)
    requires LinksBelow(buckets, |keys|) && start < |buckets| && j < |buckets|
  {
    var h := buckets[Slot(start, j, |buckets|)];
    h > 0 && keys[h - 1] != k
  }

  /** Probing from `start` meets key `k` after `d` other keys. */
  ghost predicate FoundAt(keys: seq<Key>, buckets: seq<nat>, start: nat, k: Key, d: nat)
    requires LinksBelow(buckets, |keys|) && start < |buckets| && d < |buckets|
  {
    var h := buckets[Slot(start, d, |buckets|)];
    h > 0 && keys[h - 1] == k && Passed(keys, buckets, start, k, d)
  }

  ghost predicate Found(keys: seq<Key>, buckets: seq<nat>, start: nat, k: Key)
    requires LinksBelow(buckets, |keys|) && start < |buckets|
  {
    exists d :: 0 <= d < |buckets| && FoundAt(keys, buckets, start, k, d)
  }

  ghost predicate ChainsExact(keys: seq<Key>, next: seq<nat>, buckets: seq<nat>, n: nat)
    requires n <= |keys| && Linked(next, n) && LinksBelow(buckets, n)
  {
    forall b | 0 <= b < |buckets| && buckets[b] > 0 ::
      Chain(next, n, buckets[b]) == RowsWithKey(keys, n, keys[buckets[b] - 1])
  }

  ghost predicate HeadsDistinct(keys: seq<Key>, buckets: seq<nat>)
    requires LinksBelow(buckets, |keys|)
  {
    forall b, c | 0 <= b < |buckets| && 0 <= c < |buckets| && b != c && buckets[b] > 0 && buckets[c] > 0 ::
      keys[buckets[b] - 1] != keys[buckets[c] - 1]
  }

  ghost predicate AllFound(hash: Key -> nat, shift: nat, keys: seq<Key>, buckets: seq<nat>, n: nat)
    requires n <= |keys| && LinksBelow(buckets, |keys|)
  {
    forall r | 0 <= r < n :: Found(keys, buckets, Slice(hash(keys[r]), shift, |buckets|), keys[r])
  }

  /** The table holds the first `n` rows. */
  ghost predicate Holds(hash: Key -> nat, shift: nat, keys: seq<Key>, next: seq<nat>, buckets: seq<nat>, n: nat) {
    && n <= |keys| && Linked(next, n) && LinksBelow(buckets, n)
    && ChainsExact(keys, next, buckets, n)
    && HeadsDistinct(keys, buckets)
    && AllFound(hash, shift, keys, buckets, n)
  }

  // ----- lemmas -----

  lemma {:induction false} ChainFrame(next: seq<nat>, n: nat, next': seq<nat>, n': nat, link: nat)
    requires Linked(next, n) && Linked(next', n') && n <= n' && link <= n
    requires forall i | 0 <= i < n :: next[i] == next'[i]
    ensures Chain(next, n, link) == Chain(next', n', link)
    decreases link
  {
    if link > 0 {
      ChainFrame(next, n, next', n', next[link - 1]);
    }
  }

  lemma {:induction false} OccupiedUpdate(buckets: seq<nat>, b: nat, v: nat)
    requires b < |buckets| && v > 0
    ensures Occupied(buckets[b := v]) == Occupied(buckets) + (if buckets[b] == 0 then 1 else 0)
  {
    if b == 0 {
      assert buckets[b := v][1..] == buckets[1..];
    } else {
      assert buckets[b := v][1..] == buckets[1..][b - 1 := v];
      OccupiedUpdate(buckets[1..], b - 1, v);
    }
  }

  lemma {:induction false} EmptySlot(buckets: seq<nat>) returns (e: nat)
    requires Occupied(buckets) < |buckets|
    ensures e < |buckets| && buckets[e] == 0
  {
    if buckets[0] == 0 {
      e := 0;
    } else {
      var f := EmptySlot(buckets[1..]);
      e := f + 1;
    }
  }

  lemma {:induction false} NothingOccupied(buckets: seq<nat>)
    requires forall b | 0 <= b < |buckets| :: buckets[b] == 0
    ensures Occupied(buckets) == 0
  {
    if buckets != [] {
      NothingOccupied(buckets[1..]);
    }
  }

  /** Every slot is some number of steps from the start. */
  lemma SlotsCovered(start: nat, e: nat, n: nat) returns (d: nat)
    requires start < n && e < n
    ensures d < n && Slot(start, d, n) == e
  {
    d := if e >= start then e - start else e + n - start;
  }

  lemma SlotInjective(start: nat, c: nat, d: nat, n: nat)
    requires start < n && c < n && d < n && Slot(start, c, n) == Slot(start, d, n)
    ensures c == d
  {}

  /** When probing reaches an empty slot before meeting `k`, no row has key `k`. */
  lemma AbsentKey(hash: Key -> nat, shift: nat, keys: seq<Key>, next: seq<nat>, buckets: seq<nat>, n: nat, k: Key,
                  d: nat)
    requires Holds(hash, shift, keys, next, buckets, n)
    requires d < |buckets|
    requires var start := Slice(hash(k), shift, |buckets|);
             buckets[Slot(start, d, |buckets|)] == 0 && Passed(keys, buckets, start, k, d)
    ensures RowsWithKey(keys, n, k) == []
    ensures forall r | 0 <= r < n :: keys[r] != k
  {
    var start := Slice(hash(k), shift, |buckets|);
    forall r | 0 <= r < n
      ensures keys[r] != k
    {
      if keys[r] == k {
        assert Found(keys, buckets, start, k);
        var e :| 0 <= e < |buckets| && FoundAt(keys, buckets, start, k, e);
        PassedThenFound(keys, buckets, start, k, d, e);
        FoundThenEmpty(keys, buckets, start, k, d, e);
      }
    }
    NoRowsWithKey(keys, n, k);
  }

  lemma PassedThenFound(keys: seq<Key>, buckets: seq<nat>, start: nat, k: Key, d: nat, e: nat)
    requires LinksBelow(buckets, |keys|) && start < |buckets| && d < |buckets| && e < |buckets|
    requires Passed(keys, buckets, start, k, d) && FoundAt(keys, buckets, start, k, e)
    ensures d <= e
  {
    assert e < d ==> PassedAt(keys, buckets, start, k, e);
  }

  lemma FoundThenEmpty(keys: seq<Key>, buckets: seq<nat>, start: nat, k: Key, d: nat, e: nat)
    requires LinksBelow(buckets, |keys|) && start < |buckets| && d < |buckets| && e < |buckets|
    requires buckets[Slot(start, d, |buckets|)] == 0 && FoundAt(keys, buckets, start, k, e)
    ensures e < d
  {
    assert d < e ==> PassedAt(keys, buckets, start, k, d);
  }

  lemma {:induction false} NoRowsWithKey(keys: seq<Key>, n: nat, k: Key)
    requires n <= |keys| && forall r | 0 <= r < n :: keys[r] != k
    ensures RowsWithKey(keys, n, k) == []
  {
    if n > 0 {
      NoRowsWithKey(keys, n - 1, k);
    }
  }

  /** Slot `at`, `d` steps from `start`, takes row `n`: it is empty or heads the
      chain of the same key. */
  ghost predicate SlotFor(keys: seq<Key>, buckets: seq<nat>, n: nat, start: nat, d: nat, at: nat) {
    && n < |keys| && LinksBelow(buckets, |keys|) && start < |buckets| && d < |buckets| && at < |buckets|
    && at == Slot(start, d, |buckets|)
    && Passed(keys, buckets, start, keys[n], d)
    && (buckets[at] > 0 ==> keys[buckets[at] - 1] == keys[n])
  }

  lemma InsertKeepsHeads(keys: seq<Key>, buckets: seq<nat>, n: nat, at: nat)
    requires n < |keys| && LinksBelow(buckets, n) && HeadsDistinct(keys, buckets) && at < |buckets|
    requires buckets[at] > 0 ==> keys[buckets[at] - 1] == keys[n]
    requires buckets[at] == 0 ==> forall r | 0 <= r < n :: keys[r] != keys[n]
    ensures forall b | 0 <= b < |buckets| && b != at && buckets[b] > 0 :: keys[buckets[b] - 1] != keys[n]
    ensures HeadsDistinct(keys, buckets[at := n + 1])
  {}

  lemma InsertKeepsChains(keys: seq<Key>, next: seq<nat>, buckets: seq<nat>, n: nat, at: nat)
    requires n < |keys| && n < |next| && Linked(next, n) && LinksBelow(buckets, n) && at < |buckets|
    requires ChainsExact(keys, next, buckets, n)
    requires buckets[at] > 0 ==> keys[buckets[at] - 1] == keys[n]
    requires buckets[at] == 0 ==> RowsWithKey(keys, n, keys[n]) == []
    requires forall b | 0 <= b < |buckets| && b != at && buckets[b] > 0 :: keys[buckets[b] - 1] != keys[n]
    ensures ChainsExact(keys, next[n := buckets[at]], buckets[at := n + 1], n + 1)
  {
    var next', buckets' := next[n := buckets[at]], buckets[at := n + 1];
    forall b | 0 <= b < |buckets'| && buckets'[b] > 0
      ensures Chain(next', n + 1, buckets'[b]) == RowsWithKey(keys, n + 1, keys[buckets'[b] - 1])
    {
      ChainAfterInsert(keys, next, buckets, n, at, b);
    }
  }

  lemma ChainAfterInsert(keys: seq<Key>, next: seq<nat>, buckets: seq<nat>, n: nat, at: nat, b: nat)
    requires n < |keys| && n < |next| && Linked(next, n) && LinksBelow(buckets, n) && at < |buckets| && b < |buckets|
    requires ChainsExact(keys, next, buckets, n)
    requires buckets[at] > 0 ==> keys[buckets[at] - 1] == keys[n]
    requires buckets[at] == 0 ==> RowsWithKey(keys, n, keys[n]) == []
    requires b == at || (buckets[b] > 0 && keys[buckets[b] - 1] != keys[n])
    ensures Linked(next[n := buckets[at]], n + 1)
    ensures var link := if b == at then n + 1 else buckets[b];
            Chain(next[n := buckets[at]], n + 1, link) == RowsWithKey(keys, n + 1, keys[link - 1])
  {
    ChainFrame(next, n, next[n := buckets[at]], n + 1, buckets[b]);
  }

  lemma PathKept(keys: seq<Key>, buckets: seq<nat>, start: nat, k: Key, d: nat, at: nat, n: nat)
    requires n < |keys| && LinksBelow(buckets, n) && start < |buckets| && d < |buckets| && at < |buckets|
    requires Passed(keys, buckets, start, k, d)
    requires k != keys[n] || at == Slot(start, d, |buckets|)
    ensures Passed(keys, buckets[at := n + 1], start, k, d)
  {
    var buckets' := buckets[at := n + 1];
    forall j: nat | j < d
      ensures PassedAt(keys, buckets', start, k, j)
    {
      assert PassedAt(keys, buckets, start, k, j);
    }
  }

  lemma InsertKeepsPath(keys: seq<Key>, buckets: seq<nat>, n: nat, at: nat, start: nat, k: Key)
    requires n < |keys| && LinksBelow(buckets, n) && start < |buckets| && at < |buckets|
    requires k != keys[n] && Found(keys, buckets, start, k)
    requires buckets[at] > 0 ==> keys[buckets[at] - 1] == keys[n]
    ensures Found(keys, buckets[at := n + 1], start, k)
  {
    var e :| 0 <= e < |buckets| && FoundAt(keys, buckets, start, k, e);
    PathKept(keys, buckets, start, k, e, at, n);
    assert FoundAt(keys, buckets[at := n + 1], start, k, e);
  }

  lemma InsertKeepsPaths(hash: Key -> nat, shift: nat, keys: seq<Key>, buckets: seq<nat>, n: nat, start: nat,
                         d: nat, at: nat)
    requires SlotFor(keys, buckets, n, start, d, at) && start == Slice(hash(keys[n]), shift, |buckets|)
    requires LinksBelow(buckets, n) && AllFound(hash, shift, keys, buckets, n)
    ensures AllFound(hash, shift, keys, buckets[at := n + 1], n + 1)
  {
    var buckets' := buckets[at := n + 1];
    PathKept(keys, buckets, start, keys[n], d, at, n);
    assert FoundAt(keys, buckets', start, keys[n], d);
    forall r | 0 <= r < n + 1
      ensures Found(keys, buckets', Slice(hash(keys[r]), shift, |buckets'|), keys[r])
    {
      if keys[r] != keys[n] {
        InsertKeepsPath(keys, buckets, n, at, Slice(hash(keys[r]), shift, |buckets|), keys[r]);
      }
    }
  }

  /** Row `n` becomes the head of its slot, in front of the old head. */
  lemma InsertKeepsTable(hash: Key -> nat, shift: nat, keys: seq<Key>, next: seq<nat>, buckets: seq<nat>, n: nat,
                         start: nat, d: nat, at: nat)
    requires n < |next| && Holds(hash, shift, keys, next, buckets, n)
    requires SlotFor(keys, buckets, n, start, d, at) && start == Slice(hash(keys[n]), shift, |buckets|)
    ensures buckets[at] == 0 ==> forall r | 0 <= r < n :: keys[r] != keys[n]
    ensures Holds(hash, shift, keys, next[n := buckets[at]], buckets[at := n + 1], n + 1)
  {
    if buckets[at] == 0 {
      AbsentKey(hash, shift, keys, next, buckets, n, keys[n], d);
    }
    InsertKeepsHeads(keys, buckets, n, at);
    InsertKeepsChains(keys, next, buckets, n, at);
    InsertKeepsPaths(hash, shift, keys, buckets, n, start, d, at);
  }

  /** Two of the first `n` rows share their key. */
  ghost predicate Repeated(keys: seq<Key>, n: nat)
    requires n <= |keys|
  {
    exists i, j :: 0 <= i < j < n && keys[i] == keys[j]
  }

  lemma RepeatedStep(keys: seq<Key>, buckets: seq<nat>, n: nat, at: nat)
    requires n < |keys| && LinksBelow(buckets, n) && at < |buckets|
    requires buckets[at] > 0 ==> keys[buckets[at] - 1] == keys[n]
    requires buckets[at] == 0 ==> forall r | 0 <= r < n :: keys[r] != keys[n]
    ensures Repeated(keys, n + 1) <==> Repeated(keys, n) || buckets[at] > 0
  {}

  /** Everything the build keeps after `n` rows, the duplicate flag included. */
  ghost predicate BuiltTo(hash: Key -> nat, shift: nat, keys: seq<Key>, next: seq<nat>, buckets: seq<nat>,
                          dup: bool, n: nat) {
    && Holds(hash, shift, keys, next, buckets, n)
    && Occupied(buckets) <= n
    && (dup <==> Repeated(keys, n))
  }

  lemma BuildStep(hash: Key -> nat, shift: nat, keys: seq<Key>, next: seq<nat>, buckets: seq<nat>, dup: bool, n: nat,
                  start: nat, d: nat, at: nat)
    requires n < |next| && BuiltTo(hash, shift, keys, next, buckets, dup, n)
    requires SlotFor(keys, buckets, n, start, d, at) && start == Slice(hash(keys[n]), shift, |buckets|)
    ensures BuiltTo(hash, shift, keys, next[n := buckets[at]], buckets[at := n + 1], dup || buckets[at] > 0, n + 1)
  {
    var next', buckets' := next[n := buckets[at]], buckets[at := n + 1];
    assert Occupied(buckets') <= n + 1 by {
      OccupiedUpdate(buckets, at, n + 1);
    }
    assert Repeated(keys, n + 1) <==> Repeated(keys, n) || buckets[at] > 0 by {
      InsertKeepsTable(hash, shift, keys, next, buckets, n, start, d, at);
      RepeatedStep(keys, buckets, n, at);
    }
    assert Holds(hash, shift, keys, next', buckets', n + 1) by {
      InsertKeepsTable(hash, shift, keys, next, buckets, n, start, d, at);
    }
  }

  lemma NothingBuilt(hash: Key -> nat, shift: nat, keys: seq<Key>, next: seq<nat>, buckets: seq<nat>)
    requires |buckets| > 0 && forall b | 0 <= b < |buckets| :: buckets[b] == 0
    ensures BuiltTo(hash, shift, keys, next, buckets, false, 0)
  {
    NothingOccupied(buckets);
  }

  // ----- the table -----

  class Table {
    const hash: Key -> nat
    const nkeys: nat
    /** Keys and hashes of the stored rows. */
    const keys: seq<Key>
    const hashes: seq<nat>
    const shift: nat
    var next: array<nat>
    var buckets: array<nat>
    var hasDuplicates: bool

    ghost predicate Stored() {
      && nkeys > 0 && FixesLastKey(hash, nkeys)
      && |hashes| == |keys| <= MAX_BUCKETS
      && (forall i | 0 <= i < |keys| :: |keys[i]| == nkeys && hashes[i] == hash(keys[i]))
    }

    /** The finished table: chains, probe paths and the duplicate flag are exact. */
    ghost predicate Valid()
      reads this, next, buckets
    {
      && Stored() && next != buckets
      && next.Length == |keys|
      && (buckets.Length >= 2 * |keys| || buckets.Length >= MAX_BUCKETS)
      && BuiltTo(hash, shift, keys, next[..], buckets[..], hasDuplicates, |keys|)
    }

    /** The two facts about a finished table that its users read off directly. */
    lemma Finished()
      requires Valid()
      ensures Linked(next[..], |keys|)
      ensures hasDuplicates <==> Repeated(keys, |keys|)
    {}

    /** The rows visited from `link` by following `next`. */
    ghost function ChainFrom(link: nat): seq<nat>
      requires Valid() && link <= |keys|
      reads this, next, buckets
    {
      Chain(next[..], |keys|, link)
    }

    /** The comparison of the build and of find_build_head: the hash and all keys
        but the last, which together decide equality of the whole key. */
    method KeyMatches(head: nat, hashValue: nat, key: Key) returns (equal: bool)
      requires Stored() && 0 < head <= |keys| && |key| == nkeys && hashValue == hash(key)
      ensures equal <==> keys[head - 1] == key
    {
      if hashes[head - 1] != hashValue {
        return false;
      }
      ghost var stored := keys[head - 1];
      var last := nkeys - 1;
      for column := 0 to last
        invariant stored[..column] == key[..column]
      {
        if keys[head - 1][column] != key[column] {
          return false;
        }
      }
      assert Matches(hash, stored, key);
      return true;
    }

    /** hash_join_finish_build_table */
    constructor (hash: Key -> nat, nkeys: nat, keys: seq<Key>, hashes: seq<nat>, shift: nat)
      requires nkeys > 0 && FixesLastKey(hash, nkeys)
      requires |hashes| == |keys| <= MAX_BUCKETS
      requires forall i | 0 <= i < |keys| :: |keys[i]| == nkeys && hashes[i] == hash(keys[i])
      ensures Valid() && fresh(next) && fresh(buckets)
      ensures this.keys == keys && this.hash == hash && this.nkeys == nkeys
    {
      hide BuiltTo, FixesLastKey;
      this.hash, this.nkeys, this.keys, this.hashes, this.shift := hash, nkeys, keys, hashes, shift;
      hasDuplicates := false;
      next := new nat[|keys|](_ => 0);
      buckets := new nat[BucketCount(|keys|)](_ => 0);
      new;
      Build();
    }

    /** The insertion loop: every row in turn. */
    method Build()
      requires Stored() && next != buckets && next.Length == |keys| && buckets.Length == BucketCount(|keys|)
      requires !hasDuplicates && forall b | 0 <= b < buckets.Length :: buckets[b] == 0
      modifies this`hasDuplicates, next, buckets
      ensures Filled(|keys|)
    {
      hide BuiltTo, FixesLastKey;
      NothingBuilt(hash, shift, keys, next[..], buckets[..]);
      for row := 0 to |keys|
        invariant Filled(row)
      {
        Insert(row);
      }
    }

    /** The state after the first `n` rows. */
    ghost predicate Filled(n: nat)
      reads this, next, buckets
    {
      && Stored() && next != buckets && next.Length == |keys| && buckets.Length == BucketCount(|keys|)
      && BuiltTo(hash, shift, keys, next[..], buckets[..], hasDuplicates, n)
    }

    /** The probe loop: step from `start` to an empty slot or to a head with `key`. */
    method Probe(start: nat, hashValue: nat, key: Key) returns (bucket: nat, ghost d: nat)
      requires Stored() && |key| == nkeys && hashValue == hash(key)
      requires LinksBelow(buckets[..], |keys|) && start < buckets.Length
      requires Occupied(buckets[..]) < buckets.Length
      ensures d < buckets.Length && bucket == Slot(start, d, buckets.Length)
      ensures Passed(keys, buckets[..], start, key, d)
      ensures buckets[bucket] > 0 ==> keys[buckets[bucket] - 1] == key
    {
      ghost var slots: seq<nat> := buckets[..];
      ghost var e := EmptySlot(slots);
      ghost var steps := SlotsCovered(start, e, |slots|);
      bucket, d := start, 0;
      while true
        invariant d <= steps && bucket == Slot(start, d, |slots|)
        invariant Passed(keys, slots, start, key, d)
        decreases steps - d
      {
        var head := buckets[bucket];
        assert head == slots[bucket];
        if head == 0 {
          return;
        }
        var matches := KeyMatches(head, hashValue, key);
        if matches {
          return;
        }
        assert PassedAt(keys, slots, start, key, d);
        bucket, d := if bucket + 1 == buckets.Length then 0 else bucket + 1, d + 1;
      }
    }

    /** One round of the build loop: put the row in front of the slot it probes to. */
    method Insert(row: nat)
      requires row < |keys| && Filled(row)
      modifies this`hasDuplicates, next, buckets
      ensures Filled(row + 1)
    {
      var start := Slice(hashes[row], shift, buckets.Length);
      var bucket, d := Probe(start, hashes[row], keys[row]);
      BuildStep(hash, shift, keys, next[..], buckets[..], hasDuplicates, row, start, d, bucket);
      PushFront(row, bucket);
    }

    /** Link a row in front of the chain of a slot. */
    method PushFront(row: nat, bucket: nat)
      requires next != buckets && row < next.Length && bucket < buckets.Length
      modifies this`hasDuplicates, next, buckets
      ensures next[..] == old(next[..][row := buckets[bucket]])
      ensures buckets[..] == old(buckets[..][bucket := row + 1])
      ensures hasDuplicates == old(hasDuplicates || buckets[bucket] > 0)
    {
      next[row] := buckets[bucket];
      if buckets[bucket] != 0 {
        hasDuplicates := true;
      }
      buckets[bucket] := row + 1;
    }

    /** find_build_head: for every key, its chain lists exactly the rows with it.
        Fewer than 2^31 rows leave an empty slot, so the probe ends. */
    method FindHead(hashValue: nat, key: Key) returns (link: nat)
      requires Valid() && |keys| < MAX_BUCKETS
      requires |key| == nkeys && hashValue == hash(key)
      ensures link <= |keys|
      ensures ChainFrom(link) == RowsWithKey(keys, |keys|, key)
    {
      var start := Slice(hashValue, shift, buckets.Length);
      var bucket, d := Probe(start, hashValue, key);
      link := buckets[bucket];
      if link == 0 {
        AbsentKey(hash, shift, keys, next[..], buckets[..], |keys|, key, d);
      }
    }
  }
}
