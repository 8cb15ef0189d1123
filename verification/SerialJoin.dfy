/** The probe side of a spilled join, and the whole serial join.
    (nodes/hash_join.c, fetch_probe_batch; nodes/hash_join_spill.c,
    hash_join_spill_input_batch, hash_join_publish_resident_probe and
    hash_join_finish_resident_probe) */
module SerialJoin {
  import opened Hashing
  import opened Sizes
  import opened JoinPairs
  import opened Partitions
  import opened Selecting
  import opened ProbeOutput
  import opened SpillRouting
  import opened SerialBuild
  import opened PartitionReader

  const RESIDENT_BUFFER: nat := 128

  /** The finished build side, as the probe side sees it. */
  datatype Built = Built(hash: Key -> nat, npartitions: nat, resident: set<nat>, files: seq<seq<Row>>,
                         filter: KeyFilter, filterUsable: bool)
  {
    ghost predicate Valid() {
      npartitions > 0 && |files| == npartitions && (filterUsable ==> filter.bits > 0)
    }

    function Part(): Key -> nat
      requires npartitions > 0
    {
      PartOf(hash, 0, npartitions)
    }

    /** A probe row is routed unless the filter or a missing build file rules it out. */
    predicate Keeps(r: Row)
      requires Valid()
    {
      && (filterUsable ==> filter.MayContain(hash(r.key)))
      && var p := Slice(hash(r.key), 0, npartitions);
         p in resident || files[p] != []
    }

    function Kept(): Row -> bool
      requires Valid()
    {
      r requires Valid() => Keeps(r)
    }
  }

  /** The rows of the probe input that reach memory. */
  function ResidentRows(b: Built, rows: seq<Row>): seq<Row>
    requires b.Valid()
  {
    Select(Select(rows, b.Kept()), OwnedBy(b.Part(), b.resident))
  }

  lemma ResidentRowsUnion(b: Built, before: seq<Row>, rows: seq<Row>)
    requires b.Valid()
    ensures ResidentRows(b, before + rows) == ResidentRows(b, before) + ResidentRows(b, rows)
    ensures Select(before + rows, b.Kept()) == Select(before, b.Kept()) + Select(rows, b.Kept())
  {
    SelectUnion(before, rows, b.Kept());
    SelectUnion(Select(before, b.Kept()), Select(rows, b.Kept()), OwnedBy(b.Part(), b.resident));
  }

  class ProbeSide {
    const built: Built
    const batches: seq<Batch>
    var next: nat
    var files: seq<seq<Row>>
    /** The resident probe block, and how many of its rows are published. */
    var buffer: seq<Row>
    var published: nat
    /** Resident rows already handed out. */
    ghost var given: seq<Row>

    ghost predicate Valid()
      reads this
    {
      && built.Valid() && next <= |batches| && |files| == built.npartitions
      && (forall i | 0 <= i < |batches| :: |batches[i]| <= BATCH_ROWS)
      && published <= |buffer| < RESIDENT_BUFFER && published <= BLOCK_ROWS
      && given + buffer == ResidentRows(built, Arrived())
      && AllRouted(files, Select(Arrived(), built.Kept()), built.Part(), built.resident)
    }

    ghost function Arrived(): seq<Row>
      requires next <= |batches|
      reads this
    {
      Rows(batches[..next])
    }

    constructor (built: Built, batches: seq<Batch>)
      requires built.Valid() && forall i | 0 <= i < |batches| :: |batches[i]| <= BATCH_ROWS
      ensures Valid() && next == 0 && published == 0 && given == []
      ensures this.built == built && this.batches == batches
    {
      this.built, this.batches := built, batches;
      next, buffer, published, given := 0, [], 0, [];
      files := seq(built.npartitions, _ => []);
    }

    /** buffer_resident_probe_row: there is always room. */
    method BufferRow(row: Row)
      requires |buffer| < RESIDENT_BUFFER
      modifies this`buffer
      ensures buffer == old(buffer) + [row]
    {
      buffer := buffer + [row];
    }

    /** The probe side of hash_join_spill_input_batch. */
    method AcceptBatch()
      requires Valid() && next < |batches| && |buffer| < BLOCK_ROWS && published == 0
      modifies this`next, this`files, this`buffer
      ensures Valid() && next == old(next) + 1
    {
      hide AllRouted, Select, LiveFrom, Built.Keeps;
      ghost var arrived := Arrived();
      var rows := LiveFrom(batches[next], 0);
      LiveCount(batches[next], 0);
      var routed := DropUnmatchable(built, rows);
      PartOfBound(built.hash, 0, built.npartitions);
      var after, apart := RouteBatch(files, routed, built.Part(), built.resident, Select(arrived, built.Kept()));
      ResidentRowsUnion(built, arrived, rows);
      files := after;
      ghost var before := buffer;
      for i := 0 to |apart|
        invariant buffer == before + apart[..i]
        modifies this`buffer
      {
        BufferRow(apart[i]);
      }
      assert apart[..|apart|] == apart;
      assert batches[..next + 1][..next] == batches[..next];
      next := next + 1;
      assert given + (before + apart) == (given + before) + apart;
    }

    /** hash_join_publish_resident_probe: a full block, or the rest at the end. */
    method Publish(final: bool) returns (rows: seq<Row>)
      requires Valid() && published == 0
      modifies this`published
      ensures Valid() && rows == buffer[..published]
      ensures published == if |buffer| >= BLOCK_ROWS then BLOCK_ROWS else if final then |buffer| else 0
    {
      if |buffer| < BLOCK_ROWS && !final {
        return [];
      }
      published := if |buffer| < BLOCK_ROWS then |buffer| else BLOCK_ROWS;
      rows := buffer[..published];
    }

    /** hash_join_finish_resident_probe: move the rows behind the published ones down. */
    method Finish()
      requires Valid()
      modifies this`buffer, this`published, this`given
      ensures Valid() && published == 0 && given == old(given + buffer[..published])
      ensures |buffer| == old(|buffer| - published)
    {
      assert buffer == buffer[..published] + buffer[published..];
      given, buffer, published := given + buffer[..published], buffer[published..], 0;
    }

    /** fetch_probe_batch while the probe input is being partitioned. */
    method Fetch() returns (found: bool, rows: seq<Row>)
      requires Valid() && published == 0
      modifies this`next, this`files, this`buffer, this`published
      ensures Valid() && rows == buffer[..published] && found == (rows != [])
      ensures !found ==> next == |batches| && buffer == []
      ensures next > old(next) || (next == old(next) && buffer == old(buffer))
    {
      hide AllRouted, Select, LiveFrom;
      while next < |batches|
        invariant Valid() && published == 0
        invariant next > old(next) || (next == old(next) && buffer == old(buffer))
        decreases |batches| - next
      {
        rows := Publish(false);
        if rows != [] {
          return true, rows;
        }
        AcceptBatch();
      }
      rows := Publish(true);
      found := rows != [];
    }
  }

  method DropUnmatchable(built: Built, rows: seq<Row>) returns (routed: seq<Row>)
    requires built.Valid()
    ensures routed == Select(rows, built.Kept()) && |routed| <= |rows|
  {
    routed := [];
    for i := 0 to |rows|
      invariant routed == Select(rows[..i], built.Kept())
    {
      assert rows[..i + 1] == rows[..i] + [rows[i]];
      SelectOne(rows[..i], rows[i], built.Kept());
      if built.Keeps(rows[i]) {
        routed := routed + [rows[i]];
      }
    }
    assert rows[..|rows|] == rows;
  }

  lemma {:induction false} LiveCount(batch: Batch, from: nat)
    requires from <= |batch|
    ensures |LiveFrom(batch, from)| <= |batch| - from
    decreases |batch| - from
  {
    if from < |batch| {
      LiveCount(batch, from + 1);
    }
  }

  // ----- one pass over the rows in memory -----

  /** Drain the probe input: the resident rows as batches against the rows in memory. */
  method PartitionProbe(side: ProbeSide, store: seq<Row>, nkeys: nat) returns (pass: Pass)
    requires side.Valid() && side.next == 0 && side.published == 0 && side.given == []
    requires RowsOk(nkeys, Rows(side.batches))
    modifies side
    ensures side.Valid() && side.next == |side.batches|
    ensures pass.build == store && pass.shift == 0 && BatchesOk(nkeys, pass.batches)
    ensures BatchesJoin(store, pass.batches) == Join(store, ResidentRows(side.built, Rows(side.batches)))
  {
    hide AllRouted, Select, LiveFrom, Join, BatchesJoin, ResidentRows;
    var blocks: seq<Batch> := [];
    NoBatches(store, nkeys);
    while true
      invariant side.Valid() && side.published == 0
      invariant BatchesOk(nkeys, blocks) && BatchesJoin(store, blocks) == Join(store, side.given)
      decreases |side.batches| - side.next, |side.buffer|
    {
      var found, rows := side.Fetch();
      if !found {
        break;
      }
      ghost var given := side.given;
      ResidentRowsOk(nkeys, side, rows);
      side.Finish();
      BlockLive(rows, 0);
      BatchesAppend(store, blocks, BlockBatch(rows));
      JoinProbeUnion(store, given, rows);
      blocks := blocks + [BlockBatch(rows)];
    }
    assert side.batches[..side.next] == side.batches;
    assert side.given + [] == side.given;
    pass := Pass(store, 0, blocks);
  }

  lemma NoBatches(store: seq<Row>, nkeys: nat)
    ensures BatchesOk(nkeys, []) && BatchesJoin(store, []) == Join(store, [])
  {}

  lemma SelectOk(nkeys: nat, rows: seq<Row>, f: Row -> bool)
    requires RowsOk(nkeys, rows)
    ensures RowsOk(nkeys, Select(rows, f))
  {
    SelectMembers(rows, f);
  }

  lemma {:induction false} RowsPrefix(batches: seq<Batch>, n: nat)
    requires n <= |batches|
    ensures Rows(batches[..n]) <= Rows(batches)
  {
    hide LiveFrom;
    if n < |batches| {
      var m := |batches| - 1;
      RowsPrefix(batches[..m], n);
      assert batches[..m][..n] == batches[..n];
      assert Rows(batches) == Rows(batches[..m]) + LiveFrom(batches[m], 0);
    } else {
      assert batches[..n] == batches;
    }
  }

  lemma ResidentRowsOk(nkeys: nat, side: ProbeSide, rows: seq<Row>)
    requires side.Valid() && rows == side.buffer[..side.published] && RowsOk(nkeys, Rows(side.batches))
    ensures RowsOk(nkeys, rows) && BatchOk(nkeys, BlockBatch(rows))
  {
    RowsPrefix(side.batches, side.next);
    SelectOk(nkeys, side.Arrived(), side.built.Kept());
    SelectOk(nkeys, Select(side.Arrived(), side.built.Kept()), OwnedBy(side.built.Part(), side.built.resident));
    RowsOkParts(nkeys, side.given, side.buffer);
  }

  // ----- memory and files together -----

  lemma {:induction false} PartsExtend(b: seq<seq<Row>>, p: seq<seq<Row>>, x: seq<Row>, y: seq<Row>, from: nat)
    requires |b| == |p| && from <= |b|
    ensures PartsJoin(b + [x], p + [y], from) == PartsJoin(b, p, from) + Join(x, y)
    decreases |b| - from
  {
    hide Join;
    if from < |b| {
      PartsExtend(b, p, x, y, from + 1);
    } else {
      assert PartsJoin(b + [x], p + [y], from + 1) == multiset{};
    }
  }

  /** Resident partitions count as one more part, the last. */
  function OwnerOf(part: Key -> nat, resident: set<nat>, n: nat): Key -> nat {
    k => if part(k) in resident then n else part(k)
  }

  /** The last owner has exactly the rows of resident partitions, which have no other owner;
      the rows of any other partition keep theirs. */
  lemma OwnersSplit(part: Key -> nat, resident: set<nat>, n: nat, i: nat, r: Row)
    requires forall k :: part(k) < n
    ensures Owned(OwnerOf(part, resident, n), n)(r) == OwnedBy(part, resident)(r)
    ensures i < n && i in resident ==> !Owned(OwnerOf(part, resident, n), i)(r)
    ensures i < n && i !in resident ==> Owned(OwnerOf(part, resident, n), i)(r) == Owned(part, i)(r)
  {
    var k := r.key;
    assert part(k) < n;
  }

  lemma OwnedBuild(build: seq<Row>, part: Key -> nat, resident: set<nat>, n: nat, i: nat)
    requires (forall k :: part(k) < n) && i <= n
    ensures Select(build, Owned(OwnerOf(part, resident, n), i)) ==
            if i == n then Select(build, OwnedBy(part, resident)) else if i in resident then [] else Select(build, Owned(part, i))
  {
    hide Select, Owned, OwnedBy, OwnerOf;
    forall k | 0 <= k < |build|
      ensures Owned(OwnerOf(part, resident, n), n)(build[k]) == OwnedBy(part, resident)(build[k])
      ensures i < n && i in resident ==> !Owned(OwnerOf(part, resident, n), i)(build[k])
      ensures i < n && i !in resident ==> Owned(OwnerOf(part, resident, n), i)(build[k]) == Owned(part, i)(build[k])
    {
      OwnersSplit(part, resident, n, i, build[k]);
    }
    if i == n {
      SelectSame(build, OwnedBy(part, resident), Owned(OwnerOf(part, resident, n), n));
    } else if i in resident {
      SelectNone(build, Owned(OwnerOf(part, resident, n), i));
    } else {
      SelectSame(build, Owned(part, i), Owned(OwnerOf(part, resident, n), i));
    }
  }

  lemma OwnedProbe(probe: seq<Row>, part: Key -> nat, resident: set<nat>, n: nat, i: nat, kept: Row -> bool)
    requires (forall k :: part(k) < n) && i <= n
    ensures Select(probe, OwnedKept(OwnerOf(part, resident, n), i, kept)) ==
            Select(Select(probe, kept), Owned(OwnerOf(part, resident, n), i))
  {
    hide Select, OwnerOf;
    SelectTwice(probe, kept, Owned(OwnerOf(part, resident, n), i), OwnedKept(OwnerOf(part, resident, n), i, kept));
  }

  /** The rows in memory and the files of the other partitions split the whole join. */
  lemma MemoryAndFiles(built: Built, store: seq<Row>, build: seq<Row>, probe: seq<Row>, files: seq<seq<Row>>)
    requires built.Valid() && |files| == built.npartitions
    requires Placed(Placement(store, built.files, built.resident), build, built.Part())
    requires AllRouted(files, Select(probe, built.Kept()), built.Part(), built.resident)
    requires DropsUnmatched(build, probe, built.Kept())
    ensures PartsJoin(built.files, files, 0) + Join(store, ResidentRows(built, probe)) == Join(build, probe)
  {
    hide Join, PartsJoin, Built.Keeps, Select, Owned, OwnedBy, OwnedKept;
    var n, part, resident, kept := built.npartitions, built.Part(), built.resident, built.Kept();
    var owner := OwnerOf(part, resident, n);
    PartOfBound(built.hash, 0, n);
    var b, p := built.files + [store], files + [ResidentRows(built, probe)];
    PartsExtend(built.files, files, store, ResidentRows(built, probe), 0);
    forall i | 0 <= i < |b|
      ensures b[i] == Select(build, Owned(owner, i)) && p[i] == Select(probe, OwnedKept(owner, i, kept))
    {
      OwnedBuild(build, part, resident, n, i);
      OwnedProbe(probe, part, resident, n, i, kept);
      OwnedBuild(Select(probe, kept), part, resident, n, i);
    }
    forall i | 0 <= i < |build|
      ensures owner(build[i].key) < |b|
    {
      assert part(build[i].key) < n;
    }
    PartsJoinIsJoin(build, probe, b, p, owner, kept);
  }

  /** The key filter and the missing-file test drop only probe rows without a match. */
  lemma FilterDropsUnmatched(built: Built, store: seq<Row>, build: seq<Row>, probe: seq<Row>)
    requires built.Valid() && Placed(Placement(store, built.files, built.resident), build, built.Part())
    requires built.filter.Covers(built.hash, build)
    ensures DropsUnmatched(build, probe, built.Kept())
  {
    forall i, j | 0 <= i < |build| && 0 <= j < |probe| && !built.Keeps(probe[j])
      ensures build[i].key != probe[j].key
    {
      var p := Slice(built.hash(probe[j].key), 0, built.npartitions);
      SelectCount(build, Owned(built.Part(), p), build[i]);
      assert multiset(build)[build[i]] > 0;
      assert built.Part()(build[i].key) == Slice(built.hash(build[i].key), 0, built.npartitions);
      assert p in built.resident || built.files[p] == Routed(build, built.Part(), built.resident, p);
    }
  }

  // ----- the whole join -----

  lemma {:induction false} RowsAreOk(nkeys: nat, batches: seq<Batch>)
    requires BatchesOk(nkeys, batches)
    ensures RowsOk(nkeys, Rows(batches))
  {
    if batches != [] {
      var n := |batches| - 1;
      RowsAreOk(nkeys, batches[..n]);
      LiveOk(nkeys, batches[n], 0);
      RowsOkParts(nkeys, Rows(batches[..n]), LiveFrom(batches[n], 0));
    }
  }

  lemma {:induction false} LiveOk(nkeys: nat, b: Batch, from: nat)
    requires BatchOk(nkeys, b) && from <= |b|
    ensures RowsOk(nkeys, LiveFrom(b, from))
    decreases |b| - from
  {
    if from < |b| {
      LiveOk(nkeys, b, from + 1);
    }
  }

  lemma OnePass(nkeys: nat, p: Pass)
    requires KeysOk(nkeys, p.build) && BatchesOk(nkeys, p.batches)
    ensures PassesOk(nkeys, [p]) && PassesJoin([p]) == BatchesJoin(p.build, p.batches)
  {
    assert [p][1..] == [];
  }

  /** The passes of a spilled join: rows in memory first, then every partition. */
  method SpilledPasses(side: BuildSide, nkeys: nat, probeBatches: seq<Batch>) returns (passes: seq<Pass>)
    requires side.Valid() && side.spilled && nkeys > 0
    requires RowsOk(nkeys, side.build) && |side.build| < MAX_BUCKETS && BatchesOk(nkeys, probeBatches)
    ensures PassesOk(nkeys, passes)
    ensures PassesJoin(passes) == Join(side.build, Rows(probeBatches))
  {
    hide AllRouted, Select, LiveFrom, Join, BatchesJoin, ResidentRows, PassesJoin, PartsJoin, KeyFilter.Covers;
    hide Placed, FilesOk;
    var build, store, files, fileRows := side.build, side.store, side.files, side.fileRows;
    var built := Built(side.hash, side.npartitions, side.resident, side.files, side.filter, side.filterUsable);
    FilterDropsUnmatched(built, store, build, Rows(probeBatches));
    var probe := new ProbeSide(built, probeBatches);
    RowsAreOk(nkeys, probeBatches);
    var pass := PartitionProbe(probe, store, nkeys);
    assert probeBatches[..|probeBatches|] == probeBatches;
    ghost var kept := Select(Rows(probeBatches), built.Kept());
    SelectOk(nkeys, Rows(probeBatches), built.Kept());
    RoutedOk(nkeys, |kept| + 1, kept, built.Part(), built.resident, probe.files);
    RoutedOk(nkeys, MAX_BUCKETS, build, built.Part(), built.resident, files) by {
      PlacedFiles(Placement(store, files, built.resident), build, built.Part());
    }
    StoreFine(nkeys, Placement(store, files, built.resident), build, built.Part());
    MemoryAndFiles(built, store, build, Rows(probeBatches), probe.files);
    var reader := new Reader(side.hash, nkeys, side.chunkRows, PartitionBits(side.npartitions),
                             files, probe.files, fileRows, |kept| + 1);
    var more := ReadAll(reader);
    OnePass(nkeys, pass);
    PassesUnion(nkeys, [pass], more);
    passes := [pass] + more;
  }

  lemma StoreFine(nkeys: nat, p: Placement, build: seq<Row>, part: Key -> nat)
    requires Placed(p, build, part) && RowsOk(nkeys, build) && |build| < MAX_BUCKETS
    ensures KeysOk(nkeys, p.store)
  {
    SelectOk(nkeys, build, OwnedBy(part, p.resident));
  }

  /** The serial hash join over its whole run. Whatever the memory limit, the plan's
      estimates, the evictions, the filter, the repartitioning and the row limits of the
      requests, it emits exactly the pairs of the nested-loop equijoin that pass the
      residual conditions, each once. */
  method HashJoin(hash: Key -> nat, nkeys: nat, qual: Pair -> bool, memoryLimit: nat, plannedPartitions: nat,
                  innerColumns: nat, outerColumns: nat, estimatedRows: nat,
                  buildBatches: seq<Batch>, probeBatches: seq<Batch>, limits: seq<nat>)
    returns (outputs: seq<seq<Pair>>)
    requires nkeys > 0 && FixesLastKey(hash, nkeys) && memoryLimit > 0
    requires BatchesOk(nkeys, buildBatches) && BatchesOk(nkeys, probeBatches)
    requires |Rows(buildBatches)| < MAX_BUCKETS
    ensures Flat(outputs) == Keep(qual, Join(Rows(buildBatches), Rows(probeBatches)))
    ensures Bounded(outputs, limits)
  {
    hide FixesLastKey, LiveFrom, Join, BatchesJoin, PassesJoin, Keep, Flat, Bounded, PassesOk, Rows, BatchesOk;
    var side := new BuildSide(hash, memoryLimit, plannedPartitions, innerColumns, outerColumns);
    side.BuildHashTable(buildBatches, estimatedRows);
    RowsAreOk(nkeys, buildBatches);
    var passes;
    if !side.spilled {
      OnePass(nkeys, Pass(side.store, 0, probeBatches));
      BatchesJoinIsJoin(side.store, probeBatches);
      passes := [Pass(side.store, 0, probeBatches)];
    } else if side.buildRows == 0 {
      NoPasses(nkeys);
      JoinEmpty(side.build, Rows(probeBatches));
      passes := [];
    } else {
      passes := SpilledPasses(side, nkeys, probeBatches);
    }
    outputs := Run(hash, nkeys, qual, passes, limits);
  }
}
