/** Looking up a key in the table of a local build.
    (nodes/hash_join.c, find_build_head and the links of the build store) */
module TableLookup {
  import opened BuildSources
  import opened BuildTable
  import opened Hashing
  import opened JoinPairs
  import opened Selecting
  import opened Sizes

  function Keys(rows: seq<Row>): (k: seq<Key>)
    ensures |k| == |rows|
  {
    seq(|rows|, i requires 0 <= i < |rows| => rows[i].key)
  }

  lemma KeysKept(rows: seq<Row>)
    ensures forall i | 0 <= i < |rows| :: Keys(rows)[i] == rows[i].key
  {}

  /** The rows a link of the table stands for: its chain. */
  ghost function TableRest(next: seq<nat>, n: nat): nat -> seq<nat> {
    (link: nat) => if Linked(next, n) && link <= n then Chain(next, n, link) else []
  }

  lemma {:induction false} ChainMembers(next: seq<nat>, n: nat, link: nat)
    requires Linked(next, n) && link <= n
    ensures forall k | 0 <= k < |Chain(next, n, link)| :: Chain(next, n, link)[k] < n
    decreases link
  {
    if link > 0 {
      ChainMembers(next, n, next[link - 1]);
    }
  }

  lemma {:induction false} RowsWithKeyAreMatching(build: seq<Row>, n: nat, p: Row)
    requires n <= |build|
    ensures InMemory(build).HasAll(RowsWithKey(Keys(build), n, p.key))
    ensures forall k | 0 <= k < |RowsWithKey(Keys(build), n, p.key)| :: build[RowsWithKey(Keys(build), n, p.key)[k]].key == p.key
    ensures IdPairs(InMemory(build), RowsWithKey(Keys(build), n, p.key), p) == Matching(build[..n], p)
  {
    if n > 0 {
      RowsWithKeyAreMatching(build, n - 1, p);
      assert build[..n][..n - 1] == build[..n - 1];
      if Keys(build)[n - 1] == p.key {
        assert RowsWithKey(Keys(build), n, p.key)[1..] == RowsWithKey(Keys(build), n - 1, p.key);
      }
    }
  }

  /** A chain that lists the rows with a key leads to them and holds their pairs. */
  lemma HeadPairs(build: seq<Row>, next: seq<nat>, link: nat, p: Row)
    requires Linked(next, |build|) && link <= |build|
    requires Chain(next, |build|, link) == RowsWithKey(Keys(build), |build|, p.key)
    ensures Leads(InMemory(build), TableRest(next, |build|), link, p.key)
    ensures IdPairs(InMemory(build), TableRest(next, |build|)(link), p) == Matching(build, p)
  {
    hide RowsWithKey, IdPairs, Matching;
    RowsWithKeyAreMatching(build, |build|, p);
    assert build[..|build|] == build;
  }

  /** The link stored with a row leads to the rest of its chain. */
  lemma NextLeads(build: seq<Row>, next: seq<nat>, link: nat, key: Key)
    requires Linked(next, |build|) && link > 0 && Leads(InMemory(build), TableRest(next, |build|), link, key)
    ensures link <= |build|
    ensures Leads(InMemory(build), TableRest(next, |build|), next[link - 1], key)
    ensures TableRest(next, |build|)(link) == [link - 1] + TableRest(next, |build|)(next[link - 1])
  {
    var rest, after := TableRest(next, |build|)(link), TableRest(next, |build|)(next[link - 1]);
    assert rest == [link - 1] + after;
    forall k | 0 <= k < |after|
      ensures InMemory(build).Has(after[k]) && build[after[k]].key == key
    {
      assert after[k] == rest[k + 1];
    }
  }

  lemma {:induction false} AtMostOneRow(keys: seq<Key>, n: nat, k: Key)
    requires n <= |keys| && !Repeated(keys, n)
    ensures |RowsWithKey(keys, n, k)| <= 1
  {
    if n > 0 {
      if keys[n - 1] == k {
        NoRowsWithKey(keys, n - 1, k);
      } else {
        AtMostOneRow(keys, n - 1, k);
      }
    }
  }

  /** Without repeated keys a probe row has at most one match. */
  lemma UniqueKeys(build: seq<Row>, p: Row)
    requires !Repeated(Keys(build), |build|)
    ensures |Matching(build, p)| <= 1
  {
    hide RowsWithKey, IdPairs, Matching;
    AtMostOneRow(Keys(build), |build|, p.key);
    RowsWithKeyAreMatching(build, |build|, p);
    IdPairsSize(InMemory(build), RowsWithKey(Keys(build), |build|, p.key), p);
    assert build[..|build|] == build;
  }

  /** A finished table over exactly these build rows. */
  ghost predicate TableFor(table: Table, build: seq<Row>)
    reads table, table.next, table.buckets
  {
    table.Valid() && |build| < MAX_BUCKETS && table.keys == Keys(build)
  }

  /** find_build_head: the link stands for all build rows with the key. */
  method FindTableHead(table: Table, build: seq<Row>, p: Row) returns (link: nat)
    requires TableFor(table, build) && |p.key| == table.nkeys
    ensures Leads(InMemory(build), TableRest(table.next[..], |build|), link, p.key)
    ensures IdPairs(InMemory(build), TableRest(table.next[..], |build|)(link), p) == Matching(build, p)
  {
    hide BuiltTo, Leads, IdPairs, Matching;
    link := table.FindHead(table.hash(p.key), p.key);
    table.Finished();
    HeadPairs(build, table.next[..], link, p);
  }

  /** The next build row of a chain. */
  method NextInTable(table: Table, build: seq<Row>, link: nat, ghost key: Key) returns (next: nat)
    requires TableFor(table, build)
    requires link > 0 && Leads(InMemory(build), TableRest(table.next[..], |build|), link, key)
    ensures Leads(InMemory(build), TableRest(table.next[..], |build|), next, key)
    ensures TableRest(table.next[..], |build|)(link) == [link - 1] + TableRest(table.next[..], |build|)(next)
  {
    hide BuiltTo, Leads;
    table.Finished();
    NextLeads(build, table.next[..], link, key);
    next := table.next[link - 1];
  }
}
