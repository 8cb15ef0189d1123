/** The build side of the serial join: rows kept in memory, and spilled partitions.
    (nodes/hash_join.c, build_hash_table and limit_resident_build;
    nodes/hash_join_spill.c, hash_join_begin_spill and hash_join_spill_build_store) */
module SerialBuild {
  import opened Arithmetic
  import opened Hashing
  import opened Sizes
  import opened JoinPairs
  import opened Partitions
  import opened Selecting
  import opened ProbeOutput
  import opened SpillRouting

  const UINT32_MAX: nat := 0xffff_ffff

  function Max(a: nat, b: nat): nat { if a < b then b else a }
  function Min(a: nat, b: nat): nat { if a < b then a else b }

  /** hash_join_estimated_build_memory */
  function EstimatedBuildMemory(nrows: nat, ncolumns: nat): nat {
    var capacity := DoubleUntil(1024, nrows, UINT32_MAX / 2 + 1);
    capacity * (8 + 4 * ncolumns) + ((capacity + 63) / 64) * 8 * ncolumns + capacity * 8
  }

  /** What a build store of some capacity and its table take: a link of 8 bytes for each row, a
      value of 4 and a validity bit in words of 8 for each column, and 4 for each bucket. */
  function StoreBytes(capacity: nat, ncolumns: nat, buckets: nat): nat {
    if ncolumns == 0 then 8 * capacity + 4 * buckets
    else StoreBytes(capacity, ncolumns - 1, buckets) + 4 * capacity + 8 * ((capacity + 63) / 64)
  }

  lemma {:induction false} StoreBytesIs(capacity: nat, ncolumns: nat, buckets: nat)
    ensures StoreBytes(capacity, ncolumns, buckets) ==
            8 * capacity + 4 * buckets + ncolumns * (4 * capacity + 8 * ((capacity + 63) / 64))
  {
    if ncolumns > 0 {
      StoreBytesIs(capacity, ncolumns - 1, buckets);
    }
  }

  lemma {:induction false} TwiceDoubled(x: nat, need: nat, limit: nat)
    requires x > 0
    ensures DoubleUntil(x, 2 * need, limit) <= 2 * DoubleUntil(x, need, limit)
    decreases limit - x
  {
    if x < need && x < limit {
      TwiceDoubled(2 * x, need, limit);
    }
  }

  lemma SumOfProducts(c: nat, w: nat, n: nat)
    ensures c * (8 + 4 * n) + w * 8 * n + c * 8 == 16 * c + n * (4 * c + 8 * w)
  {
    Distribute(n, 4 * c, 8 * w);
    Distribute(c, 8, 4 * n);
    assert n * (4 * c) == c * (4 * n) && n * (8 * w) == w * 8 * n;
  }

  /** The estimate covers the arrays of a store that doubled until it holds the rows, and the
      buckets of its table. */
  lemma EstimateCovers(nrows: nat, ncolumns: nat) returns (capacity: nat)
    requires nrows <= 0x4000_0000
    ensures capacity >= nrows && capacity >= 1024
    ensures StoreBytes(capacity, ncolumns, BucketCount(nrows)) <= EstimatedBuildMemory(nrows, ncolumns)
  {
    hide DoubleUntil, StoreBytes;
    capacity := DoubleUntil(1024, nrows, UINT32_MAX / 2 + 1);
    SumOfProducts(capacity, (capacity + 63) / 64, ncolumns);
    StoreBytesIs(capacity, ncolumns, BucketCount(nrows));
    TwiceDoubled(1024, nrows, MAX_BUCKETS);
  }

  lemma {:induction false} DoubleMonotone(x: nat, a: nat, b: nat, limit: nat)
    requires x > 0 && a <= b
    ensures DoubleUntil(x, a, limit) <= DoubleUntil(x, b, limit)
    decreases limit - x
  {
    if x < a && x < limit {
      DoubleMonotone(2 * x, a, b, limit);
    }
  }

  lemma EstimateMonotone(a: nat, b: nat, ncolumns: nat)
    requires a <= b
    ensures EstimatedBuildMemory(a, ncolumns) <= EstimatedBuildMemory(b, ncolumns)
  {
    hide DoubleUntil;
    DoubleMonotone(1024, a, b, UINT32_MAX / 2 + 1);
    var c, d := DoubleUntil(1024, a, UINT32_MAX / 2 + 1), DoubleUntil(1024, b, UINT32_MAX / 2 + 1);
    MoreProducts(c, d, (c + 63) / 64, (d + 63) / 64, ncolumns);
  }

  lemma MoreProducts(c: nat, d: nat, v: nat, w: nat, n: nat)
    requires c <= d && v <= w
    ensures c * (8 + 4 * n) + v * 8 * n + c * 8 <= d * (8 + 4 * n) + w * 8 * n + d * 8
  {
    SumOfProducts(c, v, n);
    SumOfProducts(d, w, n);
    Distribute(n, 4 * c + 8 * v, 4 * (d - c) + 8 * (w - v));
  }

  /** The size of the key filter in bits; zero when it would be too small to help. */
  function FilterBits(estimatedRows: nat, memoryLimit: nat): nat {
    var maxBits := Max(64, (memoryLimit / 16) * 8);
    var doubled := DoubleUntil(64, Max(64, estimatedRows * 8), maxBits / 2 + 1);
    var bits := if doubled > maxBits then doubled / 2 else doubled;
    if estimatedRows > 0 && bits / estimatedRows >= 2 then bits else 0
  }

  /** The memory left for resident partitions after the write buffers and the filter. */
  function ResidentLimit(memoryLimit: nat, npartitions: nat, columns: nat, filterBytes: nat): nat {
    var bytes := 4 * npartitions + 4 * npartitions * 64 + (4 * 64 + 8) * npartitions * columns;
    memoryLimit - Min(memoryLimit, Min(bytes, memoryLimit / 4) + filterBytes)
  }

  lemma LimitLeaves(memoryLimit: nat, npartitions: nat, columns: nat, filterBytes: nat)
    ensures ResidentLimit(memoryLimit, npartitions, columns, filterBytes) <= memoryLimit
  {}

  /** The partitions needed so that each fits in memory, or as planned. */
  function RequiredPartitions(estimatedBytes: nat, memoryLimit: nat, planned: nat): nat
    requires memoryLimit > 0
  {
    Max((estimatedBytes + memoryLimit - 1) / memoryLimit, planned)
  }

  /** How many partitions start out resident: at least one, never all. */
  function ResidentCount(estimatedBytes: nat, npartitions: nat, residentLimit: nat): (n: nat)
    requires npartitions >= 2
    ensures 1 <= n < npartitions
  {
    var perPartition := Max(1, estimatedBytes / npartitions);
    Max(1, Min(npartitions - 1, residentLimit / perPartition))
  }

  /** Rows of one in-memory build chunk of a spilled partition. */
  function ChunkRows(memoryLimit: nat, ncolumns: nat): (n: nat)
    ensures n >= 64
  {
    Max(64, Min(UINT32_MAX, (memoryLimit / 2) / Max(1, EstimatedBuildMemory(1024, ncolumns) / 1024)))
  }

  /** Bits of the key filter that are set; `bits` is its size, zero without a filter. */
  datatype KeyFilter = KeyFilter(bits: nat, marked: set<nat>) {
    function Add(hash: nat): KeyFilter {
      if bits == 0 then this else KeyFilter(bits, marked + {hash % bits})
    }

    predicate MayContain(hash: nat)
      requires bits > 0
    {
      hash % bits in marked
    }

    /** No added key is ever rejected. */
    ghost predicate Covers(hash: Key -> nat, rows: seq<Row>) {
      bits > 0 ==> forall i | 0 <= i < |rows| :: MayContain(hash(rows[i].key))
    }
  }

  method AddToFilter(filter: KeyFilter, hash: Key -> nat, ghost before: seq<Row>,
                     rows: seq<Row>) returns (after: KeyFilter)
    requires filter.Covers(hash, before)
    ensures after.Covers(hash, before + rows) && after.bits == filter.bits
  {
    after := filter;
    for i := 0 to |rows|
      invariant after.bits == filter.bits && after.Covers(hash, before) && after.Covers(hash, rows[..i])
    {
      after := after.Add(hash(rows[i].key));
    }
  }

  // ----- where the build rows are -----

  /** What is stored, in memory and in files, for the build rows seen so far. */
  datatype Placement = Placement(store: seq<Row>, files: seq<seq<Row>>, resident: set<nat>)

  /** Rows of resident partitions are in memory and all others in the file of their
      partition, each in arrival order. */
  ghost predicate Placed(p: Placement, build: seq<Row>, part: Key -> nat) {
    && p.store == Select(build, OwnedBy(part, p.resident))
    && AllRouted(p.files, build, part, p.resident)
  }

  /** The row counts the source keeps per partition. */
  ghost predicate Counted(p: Placement, part: Key -> nat, fileRows: seq<nat>, residentRows: seq<nat>) {
    && |fileRows| == |residentRows| == |p.files|
    && (forall i | 0 <= i < |fileRows| :: fileRows[i] == |p.files[i]|)
    && (forall i | 0 <= i < |residentRows| :: residentRows[i] == |Select(p.store, Owned(part, i))|)
  }

  /** A file that receives rows evicted from memory. */
  lemma EvictedFile(build: seq<Row>, store: seq<Row>, part: Key -> nat, old_: set<nat>, i: nat)
    requires store == Select(build, OwnedBy(part, old_))
    ensures Select(store, Owned(part, i)) == if i in old_ then Select(build, Owned(part, i)) else []
  {
    if i in old_ {
      SelectTwice(build, OwnedBy(part, old_), Owned(part, i), Owned(part, i));
    } else {
      SelectMembers(build, OwnedBy(part, old_));
      SelectNone(store, Owned(part, i));
    }
  }

  /** Shrinking the resident set moves rows from memory to the files and loses none. */
  lemma EvictionPlaces(build: seq<Row>, part: Key -> nat, before: Placement, after: Placement)
    requires Placed(before, build, part) && after.resident <= before.resident && |after.files| == |before.files|
    requires after.store == Select(before.store, OwnedBy(part, after.resident))
    requires forall i | 0 <= i < |after.files| ::
               after.files[i] == if i in after.resident then before.files[i]
                                 else before.files[i] + Select(before.store, Owned(part, i))
    ensures Placed(after, build, part)
  {
    SelectTwice(build, OwnedBy(part, before.resident), OwnedBy(part, after.resident), OwnedBy(part, after.resident));
    forall i | 0 <= i < |after.files|
      ensures after.files[i] == Routed(build, part, after.resident, i)
    {
      EvictedFile(build, before.store, part, before.resident, i);
    }
  }

  /** The partitions below `n`. */
  function FirstParts(n: nat): (s: set<nat>)
    ensures forall i: nat :: i in s <==> i < n
  {
    if n == 0 then {} else FirstParts(n - 1) + {n - 1}
  }

  /** Everything in memory and nothing in files: all partitions count as resident. */
  lemma AllInMemory(build: seq<Row>, part: Key -> nat, n: nat, files: seq<seq<Row>>)
    requires |files| == n && forall i | 0 <= i < n :: files[i] == []
    requires forall k :: part(k) < n
    ensures Placed(Placement(build, files, FirstParts(n)), build, part)
  {
    forall i | 0 <= i < |build|
      ensures OwnedBy(part, FirstParts(n))(build[i])
    {
      assert part(build[i].key) in FirstParts(n);
    }
    SelectAll(build, OwnedBy(part, FirstParts(n)));
  }

  /** A routed batch: its resident rows are appended to the store. */
  lemma BatchPlaces(build: seq<Row>, rows: seq<Row>, part: Key -> nat, p: Placement, files: seq<seq<Row>>)
    requires Placed(p, build, part) && AllRouted(files, build + rows, part, p.resident)
    ensures Placed(Placement(p.store + Select(rows, OwnedBy(part, p.resident)), files, p.resident), build + rows, part)
  {
    SelectUnion(build, rows, OwnedBy(part, p.resident));
  }

  /** One pass of hash_join_spill_build_store over the store: the rows of one
      partition, written in blocks of at most 64. */
  method SpillPartition(store: seq<Row>, part: Key -> nat, partition: nat, file: seq<Row>)
    returns (after: seq<Row>, written: nat)
    ensures after == file + Select(store, Owned(part, partition)) && written == |Select(store, Owned(part, partition))|
  {
    var rows: seq<Row> := [];
    after, written := file, 0;
    for row := 0 to |store|
      invariant after + rows == file + Select(store[..row], Owned(part, partition))
      invariant written == |Select(store[..row], Owned(part, partition))| && |rows| < BLOCK_ROWS
    {
      assert store[..row + 1] == store[..row] + [store[row]];
      SelectOne(store[..row], store[row], Owned(part, partition));
      if part(store[row].key) == partition {
        assert after + (rows + [store[row]]) == (after + rows) + [store[row]];
        written := written + 1;
        rows := rows + [store[row]];
        if |rows| == BLOCK_ROWS {
          after, rows := after + rows, [];
        }
      }
    }
    assert store[..|store|] == store;
    if rows != [] {
      after := after + rows;
    }
  }

  /** The compaction loop: rows of resident partitions move down over the others. */
  method Compact(store: seq<Row>, part: Key -> nat, resident: set<nat>, n: nat) returns (kept: seq<Row>,
                 counts: seq<nat>)
    requires forall k :: part(k) < n
    ensures kept == Select(store, OwnedBy(part, resident)) && |counts| == n
    ensures forall i | 0 <= i < n :: counts[i] == |Select(kept, Owned(part, i))|
  {
    hide Select;
    kept, counts := store, seq(n, _ => 0);
    var write := 0;
    ghost var done: seq<Row> := [];
    NothingSelected(part, n, resident);
    for row := 0 to |store|
      invariant write <= row && |kept| == |store| && |counts| == n
      invariant done == kept[..write] && done == Select(store[..row], OwnedBy(part, resident))
      invariant kept[row..] == store[row..]
      invariant forall i | 0 <= i < n :: counts[i] == |Select(done, Owned(part, i))|
    {
      assert store[..row + 1] == store[..row] + [store[row]];
      SelectOne(store[..row], store[row], OwnedBy(part, resident));
      var partition := part(store[row].key);
      assert kept[row] == kept[row..][0] == store[row];
      if partition in resident {
        CountOne(done, store[row], part, counts);
        counts := counts[partition := counts[partition] + 1];
        MoveDown(kept, write, row);
        done := done + [store[row]];
        if write != row {
          kept := kept[write := kept[row]];
        }
        write := write + 1;
      }
      assert kept[row + 1..] == store[row..][1..];
    }
    assert store[..|store|] == store;
    kept := kept[..write];
  }

  lemma MoveDown(kept: seq<Row>, write: nat, row: nat)
    requires write <= row < |kept|
    ensures kept[write := kept[row]][..write + 1] == kept[..write] + [kept[row]]
    ensures kept[write := kept[row]][row + 1..] == kept[row..][1..] == kept[row + 1..]
  {}

  lemma NothingSelected(part: Key -> nat, n: nat, resident: set<nat>)
    ensures Select([], OwnedBy(part, resident)) == []
    ensures forall i | 0 <= i < n :: Select([], Owned(part, i)) == []
  {}

  lemma CountOne(rows: seq<Row>, r: Row, part: Key -> nat, counts: seq<nat>)
    requires part(r.key) < |counts|
    requires forall i | 0 <= i < |counts| :: counts[i] == |Select(rows, Owned(part, i))|
    ensures var p := part(r.key);
            forall i | 0 <= i < |counts| :: counts[p := counts[p] + 1][i] == |Select(rows + [r], Owned(part, i))|
  {
    forall i | 0 <= i < |counts|
      ensures |Select(rows + [r], Owned(part, i))| == |Select(rows, Owned(part, i))| + if part(r.key) == i then 1 else 0
    {
      SelectOne(rows, r, Owned(part, i));
    }
  }

  /** The scan for the resident partition with most rows; -1 when all are empty. */
  method LargestResident(resident: set<nat>, residentRows: seq<nat>) returns (largest: int)
    ensures largest == -1 || (0 <= largest < |residentRows| && largest in resident)
    ensures largest == -1 ==> forall i | 0 <= i < |residentRows| && i in resident :: residentRows[i] == 0
    ensures largest != -1 ==> forall i | 0 <= i < |residentRows| && i in resident :: residentRows[i] <= residentRows[largest]
  {
    largest := -1;
    var largestRows := 0;
    for partition := 0 to |residentRows|
      invariant largest == -1 || (0 <= largest < partition && largest in resident && residentRows[largest] == largestRows)
      invariant largest == -1 ==> largestRows == 0
      invariant forall i | 0 <= i < partition && i in resident :: residentRows[i] <= largestRows
    {
      if partition in resident && residentRows[partition] > largestRows {
        largest, largestRows := partition, residentRows[partition];
      }
    }
  }

  method FirstResident(n: nat) returns (resident: set<nat>)
    ensures resident == FirstParts(n)
  {
    resident := {};
    for partition := 0 to n
      invariant resident == FirstParts(partition)
    {
      resident := resident + {partition};
    }
  }

  lemma PartitionCountPow2(required: nat)
    ensures IsPow2(PartitionCount(required))
  {
    assert Pow2(1) == 2;
    DoubleUntilPow2(2, required, 1024);
  }

  // ----- the build side -----

  class BuildSide {
    const hash: Key -> nat
    const memoryLimit: nat
    const plannedPartitions: nat
    const innerColumns: nat
    const outerColumns: nat

    var spilled: bool
    var store: seq<Row>
    var npartitions: nat
    /** Spill files by partition; a file is created by its first write. */
    var files: seq<seq<Row>>
    var fileRows: seq<nat>
    var resident: set<nat>
    var residentRows: seq<nat>
    var filter: KeyFilter
    var filterUsable: bool
    var residentLimit: nat
    var chunkRows: nat
    var buildRows: nat

    /** The build rows accepted so far. */
    ghost var build: seq<Row>

    ghost function Part(): Key -> nat
      requires npartitions > 0
      reads this
    {
      PartOf(hash, 0, npartitions)
    }

    function Where(): Placement
      reads this
    {
      Placement(store, files, resident)
    }

    ghost predicate Valid()
      reads this
    {
      && memoryLimit > 0
      && (!spilled ==> store == build && buildRows == 0)
      && (spilled ==> Spilled())
      && (filterUsable ==> spilled && filter.bits > 0)
    }

    /** What is kept in memory is within the limit. */
    predicate WithinLimit()
      reads this
    {
      store == [] || EstimatedBuildMemory(|store|, innerColumns) <= memoryLimit
    }

    ghost predicate Spilled()
      reads this
    {
      && residentLimit <= memoryLimit && npartitions >= 2 && |files| == |fileRows| == |residentRows| == npartitions && chunkRows >= 64
      && Placed(Where(), build, Part()) && Counted(Where(), Part(), fileRows, residentRows)
      && filter.Covers(hash, build) && buildRows == |build|
    }

    constructor (hash: Key -> nat, memoryLimit: nat, plannedPartitions: nat, innerColumns: nat, outerColumns: nat)
      requires memoryLimit > 0
      ensures Valid() && !spilled && build == []
      ensures this.hash == hash && this.plannedPartitions == plannedPartitions
    {
      this.hash, this.memoryLimit, this.plannedPartitions := hash, memoryLimit, plannedPartitions;
      this.innerColumns, this.outerColumns := innerColumns, outerColumns;
      spilled, store, build := false, [], [];
      npartitions, files, fileRows, resident, residentRows := 0, [], [], {}, [];
      filter, filterUsable, residentLimit, chunkRows, buildRows := KeyFilter(0, {}), false, 0, 64, 0;
    }

    /** hash_join_begin_spill, up to the rows themselves: sizes, filter and resident set. */
    method BeginSpill(estimatedBytes: nat, estimatedRows: nat)
      requires memoryLimit > 0
      modifies this
      ensures npartitions >= 2 && |files| == |fileRows| == |residentRows| == npartitions && chunkRows >= 64
      ensures residentLimit <= memoryLimit
      ensures IsPow2(npartitions)
      ensures forall i | 0 <= i < npartitions :: files[i] == [] && fileRows[i] == 0
      ensures resident <= FirstParts(npartitions) && resident != {}
      ensures forall i | 0 <= i < npartitions :: residentRows[i] == 0
      ensures filter.Covers(hash, store)
      ensures spilled && !filterUsable && store == old(store) && build == old(build) && buildRows == old(buildRows)
    {
      hide DoubleUntil, FilterBits, ResidentLimit, ResidentCount, ChunkRows, IsPow2, RequiredPartitions, Max;
      var required := RequiredPartitions(estimatedBytes, memoryLimit, plannedPartitions);
      npartitions := PartitionCount(required);
      PartitionCountPow2(required);
      files, fileRows := seq(npartitions, _ => []), seq(npartitions, _ => 0);
      residentRows := fileRows;
      filter := AddToFilter(KeyFilter(FilterBits(estimatedRows, memoryLimit), {}), hash, [], store);
      assert [] + store == store;
      residentLimit := ResidentLimit(memoryLimit, npartitions, Max(innerColumns, outerColumns), filter.bits / 8);
      LimitLeaves(memoryLimit, npartitions, Max(innerColumns, outerColumns), filter.bits / 8);
      var nresident := ResidentCount(estimatedBytes, npartitions, residentLimit);
      resident := FirstResident(nresident);
      assert 0 in resident;
      chunkRows := ChunkRows(memoryLimit, innerColumns);
      spilled, filterUsable := true, false;
    }

    /** hash_join_spill_build_store: write every row whose partition is no longer
        resident, then close the gaps. */
    method SpillBuildStore(ghost was: set<nat>)
      requires npartitions > 0 && |files| == |fileRows| == npartitions && resident <= was
      requires Placed(Placement(store, files, was), build, Part())
      requires forall i | 0 <= i < npartitions :: fileRows[i] == |files[i]|
      modifies this`store, this`files, this`fileRows, this`residentRows
      ensures |files| == |fileRows| == |residentRows| == npartitions
      ensures Placed(Where(), build, Part()) && Counted(Where(), Part(), fileRows, residentRows)
    {
      hide Placed, AllRouted;
      PartOfBound(hash, 0, npartitions);
      ghost var before := Placement(store, files, was);
      var part := PartOf(hash, 0, npartitions);
      for partition := 0 to npartitions
        invariant |files| == |fileRows| == npartitions && store == before.store
        invariant forall i | 0 <= i < npartitions ::
                    files[i] == if i < partition && i !in resident then before.files[i] + Select(store, Owned(part, i))
                                else before.files[i]
        invariant forall i | 0 <= i < npartitions :: fileRows[i] == |files[i]|
        modifies this`files, this`fileRows
      {
        if partition !in resident {
          var file, written := SpillPartition(store, part, partition, files[partition]);
          files, fileRows := files[partition := file], fileRows[partition := fileRows[partition] + written];
        }
      }
      store, residentRows := Compact(store, part, resident, npartitions);
      EvictionPlaces(build, part, before, Where());
    }

    /** limit_resident_build: evict the largest resident partition until the rest fits. */
    method LimitResidentBuild()
      requires Spilled()
      modifies this`store, this`files, this`fileRows, this`resident, this`residentRows
      ensures Spilled() && resident <= old(resident)
      ensures EstimatedBuildMemory(|store|, innerColumns) <= residentLimit || resident == {} || store == []
      ensures WithinLimit()
    {
      hide Placed, EstimatedBuildMemory, KeyFilter.Covers;
      while resident != {} && EstimatedBuildMemory(|store|, innerColumns) > residentLimit
        invariant Spilled() && resident <= old(resident)
        decreases |resident|
      {
        var largest := LargestResident(resident, residentRows);
        if largest < 0 {
          PartOfBound(hash, 0, npartitions);
          if store != [] {
            FirstRowCounted(Where(), build, Part());
          }
          break;
        }
        ghost var was := resident;
        resident := resident - {largest};
        SpillBuildStore(was);
      }
      if resident == {} {
        NothingResident(Where(), build, Part());
      }
    }

    /** append_or_spill_build_batch: route one batch, keep its resident rows. */
    method SpillBatch(rows: seq<Row>)
      requires memoryLimit > 0 && spilled && Spilled()
      modifies this`store, this`files, this`fileRows, this`resident, this`residentRows, this`filter, this`buildRows, this`build
      ensures Spilled() && build == old(build) + rows && filter.bits == old(filter.bits)
      ensures WithinLimit()
    {
      hide Placed, AllRouted, KeyFilter.Covers, EstimatedBuildMemory, Counted, Routed, Select, PartOf, OwnedBy;
      PartOfBound(hash, 0, npartitions);
      var part := PartOf(hash, 0, npartitions);
      filter := AddToFilter(filter, hash, build, rows);
      ghost var before := Where();
      PlacedFiles(before, build, part);
      var routed, kept := RouteBatch(files, rows, part, resident, build);
      BatchPlaces(build, rows, part, before, routed);
      RoutedCounts(before, build, part, fileRows, residentRows);
      fileRows := AddCounts(fileRows, rows, part, resident, build);
      residentRows := AddCounts(residentRows, kept, part, {}, store);
      store, files := store + kept, routed;
      build, buildRows := build + rows, buildRows + |rows|;
      RoutedCounts(Where(), build, part, fileRows, residentRows);
      LimitResidentBuild();
    }

    /** One round of the loop of build_hash_table. */
    method AcceptBatch(batch: Batch)
      requires Valid()
      modifies this
      ensures Valid() && build == old(build) + LiveFrom(batch, 0)
      ensures spilled <==> old(spilled) || EstimatedBuildMemory(|old(store)| + RowCount(batch), innerColumns) > memoryLimit
      ensures WithinLimit()
    {
      hide Placed, AllRouted, KeyFilter.Covers, Counted, LiveFrom;
      var rows := LiveFrom(batch, 0);
      var estimated := EstimatedBuildMemory(|store| + RowCount(batch), innerColumns);
      if !spilled && estimated > memoryLimit {
        StartSpill(estimated, |store| + RowCount(batch));
      }
      if spilled {
        SpillBatch(rows);
      } else {
        LiveAreSelected(batch);
        EstimateMonotone(|store| + |rows|, |store| + RowCount(batch), innerColumns);
        store, build := store + rows, build + rows;
      }
    }

    /** Spilling planned from the start, before any row has arrived. */
    method PlanSpill(estimatedRows: nat)
      requires Valid() && !spilled && build == []
      modifies this
      ensures Valid() && spilled && build == [] && WithinLimit()
    {
      hide AllRouted;
      BeginSpill(memoryLimit * plannedPartitions, estimatedRows);
      NothingPlaced(Where(), Part(), fileRows, residentRows);
    }

    /** build_hash_table: every batch, then the filter and resident set are settled. */
    method BuildHashTable(batches: seq<Batch>, estimatedRows: nat)
      requires Valid() && !spilled && build == []
      modifies this
      ensures Valid() && build == Rows(batches) && WithinLimit()
    {
      hide Spilled, LiveFrom;
      if plannedPartitions > 1 {
        PlanSpill(estimatedRows);
      }
      for i := 0 to |batches|
        invariant Valid() && build == Rows(batches[..i]) && WithinLimit()
      {
        AcceptBatch(batches[i]);
        assert batches[..i + 1][..i] == batches[..i];
      }
      assert batches[..|batches|] == batches;
      if spilled && buildRows > 0 {
        DropEmptyPartitions();
        SettleFilter();
      }
    }

    /** The key filter is used only when it has two bits or more per build row. */
    method SettleFilter()
      requires Valid() && spilled && buildRows > 0
      modifies this`filterUsable
      ensures Valid()
    {
      filterUsable := filter.bits > 0 && filter.bits / buildRows >= 2;
    }

    /** Resident partitions without rows stop being resident. */
    method DropEmptyPartitions()
      requires Valid() && spilled
      modifies this`resident
      ensures Valid() && resident <= old(resident)
    {
      hide KeyFilter.Covers, AllRouted, Select;
      PartOfBound(hash, 0, npartitions);
      for partition := 0 to npartitions
        invariant Valid() && resident <= old(resident)
      {
        if partition in resident && residentRows[partition] == 0 {
          DropEmpty(Where(), build, Part(), partition);
          resident := resident - {partition};
        }
      }
    }

    /** The switch to spilling, with whatever is stored already. */
    method StartSpill(estimatedBytes: nat, estimatedRows: nat)
      requires Valid() && !spilled && buildRows == 0
      modifies this
      ensures Valid() && spilled && build == old(build)
    {
      hide Placed, AllRouted, KeyFilter.Covers, Counted;
      BeginSpill(estimatedBytes, estimatedRows);
      PartOfBound(hash, 0, npartitions);
      buildRows := buildRows + |store|;
      AllInMemory(build, Part(), npartitions, files);
      SpillBuildStore(FirstParts(npartitions));
      LimitResidentBuild();
    }
  }

  /** pg_batch_row_count: the selected rows of a batch. */
  function RowCount(batch: Batch): nat {
    if batch == [] then 0
    else RowCount(batch[..|batch| - 1]) + if batch[|batch| - 1].selected then 1 else 0
  }

  lemma {:induction false} LiveAppend(batch: Batch, from: nat)
    requires from < |batch|
    ensures LiveFrom(batch, from) ==
            LiveFrom(batch[..|batch| - 1], from) + if batch[|batch| - 1].Live() then [batch[|batch| - 1].row] else []
    decreases |batch| - from
  {
    if from + 1 < |batch| {
      LiveAppend(batch, from + 1);
    }
  }

  lemma {:induction false} LiveAreSelected(batch: Batch)
    ensures |LiveFrom(batch, 0)| <= RowCount(batch)
  {
    if batch != [] {
      LiveAppend(batch, 0);
      LiveAreSelected(batch[..|batch| - 1]);
    }
  }

  lemma NothingResident(p: Placement, build: seq<Row>, part: Key -> nat)
    requires Placed(p, build, part) && p.resident == {}
    ensures p.store == []
  {
    SelectNone(build, OwnedBy(part, {}));
  }

  lemma NothingPlaced(p: Placement, part: Key -> nat, fileRows: seq<nat>, residentRows: seq<nat>)
    requires p.store == [] && |p.files| == |fileRows| == |residentRows|
    requires forall i | 0 <= i < |p.files| :: p.files[i] == [] && fileRows[i] == 0 && residentRows[i] == 0
    ensures Placed(p, [], part) && Counted(p, part, fileRows, residentRows)
  {}

  /** A resident partition without rows can be dropped. */
  lemma DropEmpty(p: Placement, build: seq<Row>, part: Key -> nat, i: nat)
    requires Placed(p, build, part) && i in p.resident && i < |p.files|
    requires |Select(p.store, Owned(part, i))| == 0
    ensures Placed(p.(resident := p.resident - {i}), build, part)
  {
    EvictedFile(build, p.store, part, p.resident, i);
    forall j | 0 <= j < |build|
      ensures part(build[j].key) != i
    {
      SelectCount(build, Owned(part, i), build[j]);
      assert multiset(build)[build[j]] > 0;
    }
    SelectSame(build, OwnedBy(part, p.resident), OwnedBy(part, p.resident - {i}));
  }

  lemma PlacedFiles(p: Placement, build: seq<Row>, part: Key -> nat)
    requires Placed(p, build, part)
    ensures AllRouted(p.files, build, part, p.resident)
  {}

  /** Row counters of the partitions: one more for each row that is not skipped. */
  method AddCounts(counts: seq<nat>, rows: seq<Row>, part: Key -> nat, skip: set<nat>, ghost before: seq<Row>)
    returns (after: seq<nat>)
    requires forall k :: part(k) < |counts|
    requires forall i | 0 <= i < |counts| :: counts[i] == |Routed(before, part, skip, i)|
    ensures |after| == |counts| && forall i | 0 <= i < |counts| :: after[i] == |Routed(before + rows, part, skip, i)|
  {
    after := counts;
    assert before + rows[..0] == before;
    for row := 0 to |rows|
      invariant |after| == |counts|
      invariant forall i | 0 <= i < |counts| :: after[i] == |Routed(before + rows[..row], part, skip, i)|
    {
      assert before + rows[..row + 1] == (before + rows[..row]) + [rows[row]];
      var p := part(rows[row].key);
      forall i | 0 <= i < |counts|
        ensures |Routed(before + rows[..row + 1], part, skip, i)| ==
                |Routed(before + rows[..row], part, skip, i)| + if i == p && p !in skip then 1 else 0
      {
        SelectOne(before + rows[..row], rows[row], Owned(part, i));
      }
      if p !in skip {
        after := after[p := after[p] + 1];
      }
    }
    assert rows[..|rows|] == rows;
  }

  lemma RoutedCounts(p: Placement, build: seq<Row>, part: Key -> nat, fileRows: seq<nat>, residentRows: seq<nat>)
    requires Placed(p, build, part) && |fileRows| == |residentRows| == |p.files|
    ensures Counted(p, part, fileRows, residentRows) <==>
            && (forall i | 0 <= i < |fileRows| :: fileRows[i] == |Routed(build, part, p.resident, i)|)
            && (forall i | 0 <= i < |fileRows| :: residentRows[i] == |Routed(p.store, part, {}, i)|)
  {
    if forall i | 0 <= i < |fileRows| :: residentRows[i] == |Routed(p.store, part, {}, i)| {
      assert forall i | 0 <= i < |fileRows| :: Routed(p.store, part, {}, i) == Select(p.store, Owned(part, i));
    }
    if Counted(p, part, fileRows, residentRows) {
      assert forall i | 0 <= i < |fileRows| :: Routed(p.store, part, {}, i) == Select(p.store, Owned(part, i));
    }
  }

  /** The partition of a stored row is resident and has a positive count. */
  lemma FirstRowCounted(p: Placement, build: seq<Row>, part: Key -> nat)
    requires Placed(p, build, part) && p.store != []
    ensures part(p.store[0].key) in p.resident && |Select(p.store, Owned(part, part(p.store[0].key)))| > 0
  {
    var r := p.store[0];
    SelectMembers(build, OwnedBy(part, p.resident));
    assert OwnedBy(part, p.resident)(r);
    SelectCount(p.store, Owned(part, part(r.key)), r);
    assert multiset(Select(p.store, Owned(part, part(r.key))))[r] > 0;
  }
}
