/** Where a probe finds its build rows: in the rows of a local table, or in the shared chunks
    of a parallel build. Either way a link, which is a row id plus one, stands for the rows
    still to be visited for one key. */
module BuildSources {
  import opened Hashing
  import opened JoinPairs
  import opened Selecting
  import Parallel = ParallelState
  import Rows = ParallelRows

  datatype BuildSource =
    | InMemory(rows: seq<Row>)
    | InChunks(config: Parallel.Config, state: Parallel.Shared)
  {
    /** All build rows. */
    function Build(): seq<Row> {
      match this
      case InMemory(rows) => rows
      case InChunks(config, _) => Rows.FlatAll(config.build)
    }

    predicate Has(id: nat) {
      match this
      case InMemory(rows) => id < |rows|
      case InChunks(_, state) => Parallel.ValidId(state.chunks, id)
    }

    function RowAt(id: nat): Row
      requires Has(id)
    {
      match this
      case InMemory(rows) => rows[id]
      case InChunks(_, state) => Parallel.RowAt(state.chunks, id)
    }

    ghost predicate HasAll(ids: seq<nat>) {
      forall k | 0 <= k < |ids| :: Has(ids[k])
    }
  }

  function KeyIs(key: Key): Row -> bool {
    (r: Row) => r.key == key
  }

  /** The rows of a list of ids. */
  function RowsAt(source: BuildSource, ids: seq<nat>): (rows: seq<Row>)
    requires forall k | 0 <= k < |ids| :: source.Has(ids[k])
    ensures |rows| == |ids| && forall k | 0 <= k < |ids| :: rows[k] == source.RowAt(ids[k])
  {
    seq(|ids|, k requires 0 <= k < |ids| => source.RowAt(ids[k]))
  }

  /** The pairs of a probe row with a list of build row ids. */
  ghost function IdPairs(source: BuildSource, ids: seq<nat>, p: Row): multiset<Pair>
    requires source.HasAll(ids)
  {
    if ids == [] then multiset{} else multiset{(source.RowAt(ids[0]), p)} + IdPairs(source, ids[1..], p)
  }

  lemma {:induction false} IdPairsCount(source: BuildSource, ids: seq<nat>, p: Row, x: Pair)
    requires source.HasAll(ids)
    ensures IdPairs(source, ids, p)[x] == if x.1 == p then multiset(RowsAt(source, ids))[x.0] else 0
  {
    if ids != [] {
      IdPairsCount(source, ids[1..], p, x);
      assert RowsAt(source, ids) == [source.RowAt(ids[0])] + RowsAt(source, ids[1..]);
    }
  }

  /** Visiting exactly the build rows with a key, in any order, is that row's share of the
      nested loop. */
  lemma VisitedPairsMatch(source: BuildSource, ids: seq<nat>, p: Row)
    requires source.HasAll(ids)
    requires multiset(RowsAt(source, ids)) == multiset(Select(source.Build(), KeyIs(p.key)))
    ensures IdPairs(source, ids, p) == Matching(source.Build(), p)
  {
    forall x: Pair
      ensures IdPairs(source, ids, p)[x] == Matching(source.Build(), p)[x]
    {
      IdPairsCount(source, ids, p, x);
      MatchingCount(source.Build(), p, x);
      SelectCount(source.Build(), KeyIs(p.key), x.0);
    }
  }

  lemma {:induction false} IdPairsSize(source: BuildSource, ids: seq<nat>, p: Row)
    requires source.HasAll(ids)
    ensures |IdPairs(source, ids, p)| == |ids|
  {
    if ids != [] {
      IdPairsSize(source, ids[1..], p);
    }
  }

  /** `rest` says which rows a link stands for: none for zero, else the row itself first, and
      only rows with the key. */
  ghost predicate Leads(source: BuildSource, rest: nat -> seq<nat>, link: nat, key: Key) {
    && (link == 0 <==> rest(link) == [])
    && (link != 0 ==> rest(link)[0] == link - 1)
    && source.HasAll(rest(link))
    && forall k | 0 <= k < |rest(link)| :: source.RowAt(rest(link)[k]).key == key
  }

  lemma {:induction false} MatchingSize(build: seq<Row>, p: Row)
    ensures |Matching(build, p)| == |Select(build, KeyIs(p.key))|
  {
    if build != [] {
      MatchingSize(build[..|build| - 1], p);
    }
  }

  /** No probe row can have two matches. */
  ghost predicate NoRepeats(build: seq<Row>) {
    forall p: Row :: |Matching(build, p)| <= 1
  }
}
