/** Routing of batches to spill partitions: the loops shared by the first
    partitioning, its probe side and second-level repartitioning.
    (nodes/hash_join_spill.c, hash_join_spill_input_batch and repartition_file) */
module SpillRouting {
  import opened Hashing
  import opened Sizes
  import opened JoinPairs
  import opened Partitions
  import opened Selecting

  const BLOCK_ROWS: nat := 64

  /** The partition of a key: a slice of its hash. */
  function PartOf(hash: Key -> nat, shift: nat, n: nat): Key -> nat
    requires n > 0
  {
    k => Slice(hash(k), shift, n)
  }

  lemma PartOfBound(hash: Key -> nat, shift: nat, n: nat)
    requires n > 0
    ensures forall k :: PartOf(hash, shift, n)(k) < n
  {
    forall k: Key
      ensures PartOf(hash, shift, n)(k) < n
    {
      assert PartOf(hash, shift, n)(k) == Slice(hash(k), shift, n);
    }
  }

  /** The rows of a set of partitions. */
  function OwnedBy(part: Key -> nat, parts: set<nat>): Row -> bool {
    (r: Row) => part(r.key) in parts
  }

  /** What routing adds to one partition file; partitions in `skip` get nothing. */
  function Routed(rows: seq<Row>, part: Key -> nat, skip: set<nat>, p: nat): seq<Row> {
    if p in skip then [] else Select(rows, Owned(part, p))
  }

  ghost predicate AllRouted(pending: seq<seq<Row>>, rows: seq<Row>, part: Key -> nat, skip: set<nat>) {
    forall p | 0 <= p < |pending| :: pending[p] == Routed(rows, part, skip, p)
  }

  ghost predicate UsedExactly(used: seq<nat>, pending: seq<seq<Row>>) {
    && (forall i | 0 <= i < |used| :: used[i] < |pending| && pending[used[i]] != [])
    && (forall i, j | 0 <= i < j < |used| :: used[i] != used[j])
    && (forall p | 0 <= p < |pending| && pending[p] != [] :: p in used)
  }

  lemma RoutedOne(pending: seq<seq<Row>>, rows: seq<Row>, part: Key -> nat, skip: set<nat>, r: Row)
    requires part(r.key) < |pending| && AllRouted(pending, rows, part, skip)
    ensures var p := part(r.key);
            if p in skip then AllRouted(pending, rows + [r], part, skip)
            else AllRouted(pending[p := pending[p] + [r]], rows + [r], part, skip)
  {
    forall p | 0 <= p < |pending|
      ensures Select(rows + [r], Owned(part, p)) ==
              if part(r.key) == p then Select(rows, Owned(part, p)) + [r] else Select(rows, Owned(part, p))
    {
      SelectOne(rows, r, Owned(part, p));
    }
  }

  lemma UsedOne(used: seq<nat>, pending: seq<seq<Row>>, p: nat, r: Row)
    requires p < |pending| && UsedExactly(used, pending)
    ensures UsedExactly(if pending[p] == [] then used + [p] else used, pending[p := pending[p] + [r]])
  {
    var used' := if pending[p] == [] then used + [p] else used;
    forall q | 0 <= q < |pending| && pending[p := pending[p] + [r]][q] != []
      ensures q in used'
    {
      if q == p && pending[p] == [] {
        assert used'[|used|] == p;
      }
    }
  }

  lemma NothingRouted(pending: seq<seq<Row>>, part: Key -> nat, skip: set<nat>)
    requires forall p | 0 <= p < |pending| :: pending[p] == []
    ensures AllRouted(pending, [], part, skip) && UsedExactly([], pending)
  {}

  /** Link the rows of one batch by partition, remembering the partitions used;
      rows of skipped partitions are set apart in order. */
  method LinkByPartition(rows: seq<Row>, n: nat, part: Key -> nat, skip: set<nat>)
    returns (pending: seq<seq<Row>>, used: seq<nat>, apart: seq<Row>)
    requires forall k :: part(k) < n
    ensures |pending| == n && AllRouted(pending, rows, part, skip) && UsedExactly(used, pending)
    ensures apart == Select(rows, OwnedBy(part, skip))
  {
    hide AllRouted, UsedExactly;
    pending, used, apart := seq(n, _ => []), [], [];
    NothingRouted(pending, part, skip);
    for i := 0 to |rows|
      invariant |pending| == n && AllRouted(pending, rows[..i], part, skip) && UsedExactly(used, pending)
      invariant apart == Select(rows[..i], OwnedBy(part, skip))
    {
      var p := part(rows[i].key);
      assert rows[..i + 1] == rows[..i] + [rows[i]];
      RoutedOne(pending, rows[..i], part, skip, rows[i]);
      SelectOne(rows[..i], rows[i], OwnedBy(part, skip));
      if p in skip {
        apart := apart + [rows[i]];
      } else {
        UsedOne(used, pending, p, rows[i]);
        if pending[p] == [] {
          used := used + [p];
        }
        pending := pending[p := pending[p] + [rows[i]]];
      }
    }
    assert rows[..|rows|] == rows;
  }

  /** Every file after `pending` was appended to it. */
  ghost predicate Appended(before: seq<seq<Row>>, pending: seq<seq<Row>>, after: seq<seq<Row>>) {
    && |before| == |pending| == |after|
    && forall p | 0 <= p < |before| :: after[p] == before[p] + pending[p]
  }

  /** The second half of the routing loop: one write per used partition. */
  method WritePartitions(files: seq<seq<Row>>, pending: seq<seq<Row>>, used: seq<nat>) returns (after: seq<seq<Row>>)
    requires |files| == |pending| && UsedExactly(used, pending)
    ensures Appended(files, pending, after)
  {
    after := files;
    for i := 0 to |used|
      invariant |after| == |files|
      invariant forall p | 0 <= p < |files| ::
                  after[p] == if p in used[..i] then files[p] + pending[p] else files[p]
    {
      assert used[..i + 1] == used[..i] + [used[i]];
      after := after[used[i] := after[used[i]] + pending[used[i]]];
    }
    assert used[..|used|] == used;
  }

  lemma AppendedHolds(before: seq<seq<Row>>, pending: seq<seq<Row>>, after: seq<seq<Row>>,
                      rows: seq<Row>, more: seq<Row>, part: Key -> nat, skip: set<nat>)
    requires Appended(before, pending, after)
    requires AllRouted(before, rows, part, skip) && AllRouted(pending, more, part, skip)
    ensures AllRouted(after, rows + more, part, skip)
  {
    forall p | 0 <= p < |after|
      ensures after[p] == Routed(rows + more, part, skip, p)
    {
      SelectUnion(rows, more, Owned(part, p));
    }
  }

  /** Route one batch into the files. */
  method RouteBatch(files: seq<seq<Row>>, rows: seq<Row>, part: Key -> nat, skip: set<nat>, ghost before: seq<Row>)
    returns (after: seq<seq<Row>>, apart: seq<Row>)
    requires forall k :: part(k) < |files|
    requires AllRouted(files, before, part, skip)
    ensures |after| == |files| && AllRouted(after, before + rows, part, skip)
    ensures apart == Select(rows, OwnedBy(part, skip))
  {
    hide AllRouted, UsedExactly, Appended;
    var pending, used;
    pending, used, apart := LinkByPartition(rows, |files|, part, skip);
    after := WritePartitions(files, pending, used);
    AppendedHolds(files, pending, after, before, rows, part, skip);
    assert |after| == |files| by { AppendedLength(files, pending, after); }
  }

  lemma AppendedLength(before: seq<seq<Row>>, pending: seq<seq<Row>>, after: seq<seq<Row>>)
    requires Appended(before, pending, after)
    ensures |after| == |before|
  {}
}
