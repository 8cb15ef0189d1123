/** Reading spilled partitions back: build chunks, probe rescans and second-level
    partitions. (nodes/hash_join_spill.c, load_build_chunk, start_next_partition,
    repartition_current_partition and hash_join_fetch_spilled_probe_batch) */
module PartitionReader {
  import opened Hashing
  import opened Sizes
  import opened JoinPairs
  import opened Partitions
  import opened Selecting
  import opened ProbeOutput
  import opened SpillRouting

  const REPARTITION_MIN_PASSES: nat := 6

  /** partition_bits */
  function PartitionBits(npartitions: nat): nat {
    if npartitions <= 1 then 0 else 1 + PartitionBits(npartitions / 2)
  }

  lemma {:induction false} BitsOfPow2(n: nat)
    ensures PartitionBits(Pow2(n)) == n
  {
    if n > 0 {
      BitsOfPow2(n - 1);
    }
  }

  /** The next block of a spill file: 1 to 64 rows, as they happened to be flushed. */
  method ReadBlock(file: seq<Row>, position: nat) returns (block: seq<Row>, after: nat)
    requires position <= |file|
    ensures position <= after <= |file| && block == file[position..after] && |block| <= BLOCK_ROWS
    ensures block == [] <==> position == |file|
  {
    if position == |file| {
      return [], position;
    }
    var n: nat :| 0 < n <= BLOCK_ROWS && position + n <= |file| by {
      assert 0 < 1 <= BLOCK_ROWS && position + 1 <= |file|;
    }
    block, after := file[position..position + n], position + n;
  }

  /** repartition_file: route a whole file by further hash bits. */
  method RepartitionFile(source: seq<Row>, part: Key -> nat, n: nat, skip: set<nat>) returns (files: seq<seq<Row>>)
    requires forall k :: part(k) < n
    ensures |files| == n && AllRouted(files, source, part, skip)
  {
    hide AllRouted;
    files := seq(n, _ => []);
    NothingRouted(files, part, skip);
    var position := 0;
    assert source[..0] == [];
    while position < |source|
      invariant position <= |source| && |files| == n && AllRouted(files, source[..position], part, skip)
      decreases |source| - position
    {
      var block, after := ReadBlock(source, position);
      assert source[..after] == source[..position] + block;
      var routed, _ := RouteBatch(files, block, part, skip, source[..position]);
      files, position := routed, after;
    }
    assert source[..|source|] == source;
  }

  /** The subpartitions that received no build row. */
  function EmptyFiles(files: seq<seq<Row>>): (s: set<nat>)
    ensures forall i: nat :: i in s <==> i < |files| && files[i] == []
  {
    if files == [] then {}
    else
      var n := |files| - 1;
      EmptyFiles(files[..n]) + if files[n] == [] then {n} else {}
  }

  /** Routing both files of a partition by more hash bits keeps their join. */
  lemma RepartitionKeepsJoin(build: seq<Row>, probe: seq<Row>, part: Key -> nat, b: seq<seq<Row>>, p: seq<seq<Row>>)
    requires |b| == |p| && forall k :: part(k) < |b|
    requires AllRouted(b, build, part, {}) && AllRouted(p, probe, part, EmptyFiles(b))
    ensures PartsJoin(b, p, 0) == Join(build, probe)
  {
    hide Join;
    var skip := EmptyFiles(b);
    var keep := (r: Row) => part(r.key) !in skip;
    forall i | 0 <= i < |b|
      ensures b[i] == Select(build, Owned(part, i)) && p[i] == Select(probe, OwnedKept(part, i, keep))
    {
      if i in skip {
        SelectNone(probe, OwnedKept(part, i, keep));
      } else {
        SelectSame(probe, Owned(part, i), OwnedKept(part, i, keep));
      }
    }
    forall i, j | 0 <= i < |build| && 0 <= j < |probe| && !keep(probe[j])
      ensures build[i].key != probe[j].key
    {
      SelectCount(build, Owned(part, part(probe[j].key)), build[i]);
      assert multiset(build)[build[i]] > 0;
    }
    PartsJoinIsJoin(build, probe, b, p, part, keep);
  }

  ghost predicate RowsOk(nkeys: nat, rows: seq<Row>) {
    forall i | 0 <= i < |rows| :: |rows[i].key| == nkeys
  }

  ghost predicate FilesOk(nkeys: nat, limit: nat, files: seq<seq<Row>>) {
    forall i | 0 <= i < |files| :: RowsOk(nkeys, files[i]) && |files[i]| < limit
  }

  lemma RowsOkParts(nkeys: nat, a: seq<Row>, b: seq<Row>)
    ensures RowsOk(nkeys, a + b) <==> RowsOk(nkeys, a) && RowsOk(nkeys, b)
  {
    if RowsOk(nkeys, a + b) {
      assert forall i | 0 <= i < |a| :: a[i] == (a + b)[i];
      assert forall i | 0 <= i < |b| :: b[i] == (a + b)[|a| + i];
    }
  }

  lemma RowsOkSlice(nkeys: nat, rows: seq<Row>, from: nat, to: nat)
    requires from <= to <= |rows| && RowsOk(nkeys, rows)
    ensures RowsOk(nkeys, rows[from..to])
  {}

  lemma RoutedOk(nkeys: nat, limit: nat, rows: seq<Row>, part: Key -> nat, skip: set<nat>, files: seq<seq<Row>>)
    requires RowsOk(nkeys, rows) && |rows| < limit && AllRouted(files, rows, part, skip)
    ensures FilesOk(nkeys, limit, files)
  {
    forall i | 0 <= i < |files|
      ensures RowsOk(nkeys, files[i]) && |files[i]| < limit
    {
      SelectMembers(rows, Owned(part, i));
    }
  }

  /** A cursor over one build file: the rest of the block just read, and unread rows. */
  datatype Cursor = Cursor(file: seq<Row>, position: nat, block: seq<Row>, blockRow: nat, eof: bool) {
    ghost predicate Valid() {
      position <= |file| && blockRow <= |block| && (eof ==> position == |file|)
    }

    ghost function Rest(): seq<Row>
      requires Valid()
    {
      block[blockRow..] + file[position..]
    }
  }

  /** load_build_chunk: up to `chunkRows` rows, carrying the unused part of a block over. */
  method LoadRows(cursor: Cursor, chunkRows: nat) returns (store: seq<Row>, after: Cursor, more: bool)
    requires cursor.Valid()
    ensures after.Valid() && after.file == cursor.file
    ensures store + after.Rest() == cursor.Rest()
    ensures |store| <= chunkRows && (|store| == chunkRows || after.Rest() == [])
    ensures !more ==> after.Rest() == []
  {
    store, after := [], cursor;
    while |store| < chunkRows
      invariant after.Valid() && after.file == cursor.file
      invariant store + after.Rest() == cursor.Rest() && |store| <= chunkRows
      decreases chunkRows - |store|
    {
      if after.blockRow >= |after.block| {
        var block, position := ReadBlock(after.file, after.position);
        if block == [] {
          after := after.(eof := true);
          break;
        }
        BlockRead(after, block, position);
        after := after.(position := position, block := block, blockRow := 0);
      }
      ghost var filled := |store|;
      while after.blockRow < |after.block| && |store| < chunkRows
        invariant after.Valid() && after.file == cursor.file
        invariant store + after.Rest() == cursor.Rest() && |store| <= chunkRows
        invariant |store| > filled || (|store| == filled && after.blockRow < |after.block|)
        decreases |after.block| - after.blockRow
      {
        store, after := AppendRow(store, after);
      }
    }
    more := !after.eof || after.blockRow < |after.block|;
  }

  lemma BlockRead(c: Cursor, block: seq<Row>, position: nat)
    requires c.Valid() && c.blockRow == |c.block| && c.position <= position <= |c.file|
    requires block == c.file[c.position..position] && block != []
    ensures var d := c.(position := position, block := block, blockRow := 0); d.Valid() && d.Rest() == c.Rest()
  {}

  /** append_spill_build_row */
  method AppendRow(store: seq<Row>, cursor: Cursor) returns (after: seq<Row>, next: Cursor)
    requires cursor.Valid() && cursor.blockRow < |cursor.block|
    ensures after == store + [cursor.block[cursor.blockRow]]
    ensures next == cursor.(blockRow := cursor.blockRow + 1) && next.Valid()
    ensures after + next.Rest() == store + cursor.Rest()
  {
    after, next := store + [cursor.block[cursor.blockRow]], cursor.(blockRow := cursor.blockRow + 1);
    assert cursor.block[cursor.blockRow..] == [cursor.block[cursor.blockRow]] + next.block[next.blockRow..];
  }

  // ----- the reader -----

  /** Row counts and key lengths, as the hash table needs them. */
  ghost predicate KeysFine(nkeys: nat, limit: nat, buildFiles: seq<seq<Row>>, probeFiles: seq<seq<Row>>,
                           subBuild: seq<seq<Row>>, subProbe: seq<seq<Row>>,
                           store: seq<Row>, rest: seq<Row>, probe: seq<Row>)
  {
    && FilesOk(nkeys, MAX_BUCKETS, buildFiles) && FilesOk(nkeys, MAX_BUCKETS, subBuild)
    && FilesOk(nkeys, limit, probeFiles) && FilesOk(nkeys, limit, subProbe)
    && RowsOk(nkeys, store) && RowsOk(nkeys, rest) && RowsOk(nkeys, probe)
    && |store| < MAX_BUCKETS && |rest| < MAX_BUCKETS && |probe| < limit
  }

  lemma FileFine(nkeys: nat, limit: nat, files: seq<seq<Row>>, i: nat)
    requires FilesOk(nkeys, limit, files) && i < |files|
    ensures RowsOk(nkeys, files[i]) && |files[i]| < limit
  {}

  lemma ChunkFine(nkeys: nat, limit: nat, b: seq<seq<Row>>, p: seq<seq<Row>>, sb: seq<seq<Row>>, sp: seq<seq<Row>>,
                  store: seq<Row>, rest: seq<Row>, probe: seq<Row>, store': seq<Row>, rest': seq<Row>)
    requires KeysFine(nkeys, limit, b, p, sb, sp, store, rest, probe) && store' + rest' == rest
    ensures KeysFine(nkeys, limit, b, p, sb, sp, store', rest', probe)
  {
    RowsOkParts(nkeys, store', rest');
  }

  /** The joins of the parts after `i`, none when `i` is past the last. */
  ghost function PartsAfter(b: seq<seq<Row>>, p: seq<seq<Row>>, i: int): multiset<Pair>
    requires |b| == |p| && -1 <= i
  {
    if i < |b| then PartsJoin(b, p, i + 1) else multiset{}
  }

  lemma AfterStep(b: seq<seq<Row>>, p: seq<seq<Row>>, i: int)
    requires |b| == |p| && -1 <= i
    ensures i + 1 >= |b| ==> PartsAfter(b, p, i) == multiset{}
    ensures i + 1 < |b| ==> PartsAfter(b, p, i) == Join(b[i + 1], p[i + 1]) + PartsAfter(b, p, i + 1)
    ensures i + 1 < |b| && (b[i + 1] == [] || p[i + 1] == []) ==> Join(b[i + 1], p[i + 1]) == multiset{}
  {
    hide Join;
    if i + 1 < |b| && (b[i + 1] == [] || p[i + 1] == []) {
      JoinEmpty(b[i + 1], p[i + 1]);
    }
  }

  /** A lexicographic measure: partitions, subpartitions, whether a partition is
      active, its unread build rows and its unread probe rows. */
  datatype Work = Work(parts: int, subs: int, active: bool, rest: int, probe: int)

  ghost predicate Less(a: Work, b: Work) {
    || a.parts < b.parts
    || (a.parts == b.parts && (a.subs < b.subs || (a.subs == b.subs && ((!a.active && b.active) ||
        (a.active == b.active && (a.rest < b.rest || (a.rest == b.rest && a.probe < b.probe)))))))
  }

  datatype Outcome = Started | Split | Done

  class Reader {
    const hash: Key -> nat
    const nkeys: nat
    const chunkRows: nat
    const shift: nat
    /** More rows than any probe file has; only the proof uses it. */
    ghost const probeLimit: nat
    const buildFiles: seq<seq<Row>>
    const probeFiles: seq<seq<Row>>
    const fileRows: seq<nat>

    var current: int
    var repartitioned: bool
    var subBuild: seq<seq<Row>>
    var subProbe: seq<seq<Row>>
    var currentSub: int
    var subShift: nat

    /** The active partition: the build rows in memory, the rest, and the probe tape. */
    var active: bool
    var store: seq<Row>
    var storeShift: nat
    var cursor: Cursor
    var more: bool
    var probe: seq<Row>
    var probePosition: nat
    /** Chunks loaded so far. */
    var chunks: nat

    ghost predicate Valid()
      reads this
    {
      && chunkRows >= 64 && nkeys > 0
      && |buildFiles| == |probeFiles| == |fileRows|
      && (forall i | 0 <= i < |fileRows| :: fileRows[i] == |buildFiles[i]|)
      && -1 <= current && -1 <= currentSub
      && (active || repartitioned ==> 0 <= current < |buildFiles|)
      && |subBuild| == |subProbe| && (repartitioned ==> currentSub < |subBuild|)
      && cursor.Valid() && probePosition <= |probe|
      && (!more ==> cursor.Rest() == [])
      && KeysFine(nkeys, probeLimit, buildFiles, probeFiles, subBuild, subProbe, store, cursor.Rest(), probe)
    }

    /** What the active partition still owes. */
    ghost function ActiveOwed(): multiset<Pair>
      requires Valid()
      reads this
    {
      if active then Join(store, probe[probePosition..]) + Join(cursor.Rest(), probe) else multiset{}
    }

    ghost function SubOwed(): multiset<Pair>
      requires Valid()
      reads this
    {
      if repartitioned then PartsAfter(subBuild, subProbe, currentSub) else multiset{}
    }

    ghost function PartOwed(): multiset<Pair>
      requires Valid()
      reads this
    {
      PartsAfter(buildFiles, probeFiles, current)
    }

    ghost function Owed(): multiset<Pair>
      requires Valid()
      reads this
    {
      ActiveOwed() + SubOwed() + PartOwed()
    }

    constructor (hash: Key -> nat, nkeys: nat, chunkRows: nat, shift: nat,
                 buildFiles: seq<seq<Row>>, probeFiles: seq<seq<Row>>, fileRows: seq<nat>, ghost probeLimit: nat)
      requires chunkRows >= 64 && nkeys > 0 && probeLimit > 0
      requires |buildFiles| == |probeFiles| == |fileRows|
      requires forall i | 0 <= i < |fileRows| :: fileRows[i] == |buildFiles[i]|
      requires FilesOk(nkeys, MAX_BUCKETS, buildFiles) && FilesOk(nkeys, probeLimit, probeFiles)
      ensures Valid() && !active && this.nkeys == nkeys
      ensures Owed() == PartsJoin(buildFiles, probeFiles, 0)
    {
      hide PartsJoin;
      this.hash, this.nkeys, this.chunkRows, this.shift := hash, nkeys, chunkRows, shift;
      this.buildFiles, this.probeFiles, this.fileRows, this.probeLimit := buildFiles, probeFiles, fileRows, probeLimit;
      current, repartitioned, subBuild, subProbe, currentSub, subShift := -1, false, [], [], -1, 0;
      active, store, storeShift, cursor, more := false, [], 0, Cursor([], 0, [], 0, false), false;
      probe, probePosition, chunks := [], 0, 0;
      PartsAfterStart(buildFiles, probeFiles);
    }

    /** load_build_chunk */
    method LoadChunk() returns (loaded: bool)
      requires Valid()
      modifies this`store, this`cursor, this`more, this`chunks
      ensures Valid() && loaded == (store != [])
      ensures store + cursor.Rest() == old(cursor.Rest())
      ensures !loaded ==> cursor.Rest() == []
      ensures chunks == if loaded then old(chunks) + 1 else old(chunks)
    {
      hide KeysFine, Cursor.Rest;
      ghost var before, rest := store, cursor.Rest();
      store, cursor, more := LoadRows(cursor, chunkRows);
      ChunkFine(nkeys, probeLimit, buildFiles, probeFiles, subBuild, subProbe, before, rest, probe, store, cursor.Rest());
      loaded := store != [];
      if loaded {
        chunks := chunks + 1;
      } else {
        more := false;
      }
    }

    /** Open the two files of a partition at their beginning. */
    method OpenFiles(buildFile: seq<Row>, probeFile: seq<Row>, hashShift: nat)
      requires Valid() && !active
      requires RowsOk(nkeys, buildFile) && RowsOk(nkeys, probeFile) && |buildFile| < MAX_BUCKETS && |probeFile| < probeLimit
      modifies this`storeShift, this`cursor, this`more, this`probe, this`probePosition
      ensures Valid() && cursor.Rest() == buildFile && probe == probeFile && probePosition == 0
    {
      hide FilesOk;
      cursor, storeShift, more := Cursor(buildFile, 0, [], 0, false), hashShift, true;
      assert cursor.Rest() == buildFile;
      probe, probePosition := probeFile, 0;
    }

    /** start_partition_files */
    method StartPartition(buildFile: seq<Row>, probeFile: seq<Row>, hashShift: nat) returns (started: bool)
      requires Valid() && !active && 0 <= current < |buildFiles|
      requires RowsOk(nkeys, buildFile) && RowsOk(nkeys, probeFile) && |buildFile| < MAX_BUCKETS && |probeFile| < probeLimit
      modifies this`store, this`storeShift, this`cursor, this`more, this`chunks, this`probe, this`probePosition, this`active
      ensures Valid() && started == active
      ensures started ==> ActiveOwed() == Join(buildFile, probeFile)
      ensures chunks >= old(chunks) && (started ==> chunks > old(chunks))
      ensures !started ==> buildFile == []
    {
      hide KeysFine, Join, Cursor.Rest, RowsOk;
      OpenFiles(buildFile, probeFile, hashShift);
      var loaded := LoadChunk();
      if !loaded {
        return false;
      }
      active := true;
      JoinBuildUnion(store, cursor.Rest(), probe);
      assert probe[0..] == probe;
      started := true;
    }

    /** What every step of a scan lowers. */
    ghost function Left(): Work
      requires cursor.Valid()
      reads this
    {
      Work(|buildFiles| - current, if repartitioned then |subBuild| - currentSub else 0, active,
           |cursor.Rest()|, |probe| - probePosition)
    }

    /** The loop over second-level partitions; their files are freed at its end. */
    method StartSubpartition() returns (started: bool)
      requires Valid() && !active && repartitioned
      modifies this`currentSub, this`store, this`storeShift, this`cursor, this`more, this`chunks,
               this`probe, this`probePosition, this`active, this`repartitioned
      ensures Valid() && started == active == repartitioned
      ensures current == old(current) && Less(Left(), old(Left()))
      ensures chunks >= old(chunks) && (started ==> chunks > old(chunks))
      ensures old(SubOwed()) == ActiveOwed() + SubOwed()
    {
      hide KeysFine, Join, Cursor.Rest, PartsAfter, RowsOk;
      while currentSub + 1 < |subBuild|
        invariant Valid() && !active && repartitioned && old(currentSub) <= currentSub
        invariant old(SubOwed()) == PartsAfter(subBuild, subProbe, currentSub)
        invariant chunks >= old(chunks)
        decreases |subBuild| - currentSub
      {
        AfterStep(subBuild, subProbe, currentSub);
        currentSub := currentSub + 1;
        if subBuild[currentSub] != [] && subProbe[currentSub] != [] {
          SubFine(currentSub);
          started := StartPartition(subBuild[currentSub], subProbe[currentSub], subShift);
          if started {
            return;
          }
        }
      }
      AfterStep(subBuild, subProbe, currentSub);
      started, repartitioned := false, false;
    }

    lemma SubFine(i: nat)
      requires Valid() && i < |subBuild|
      ensures RowsOk(nkeys, subBuild[i]) && RowsOk(nkeys, subProbe[i])
      ensures |subBuild[i]| < MAX_BUCKETS && |subProbe[i]| < probeLimit
    {
      FileFine(nkeys, MAX_BUCKETS, subBuild, i);
      FileFine(nkeys, probeLimit, subProbe, i);
    }

    lemma PartFine(i: nat)
      requires Valid() && i < |buildFiles|
      ensures RowsOk(nkeys, buildFiles[i]) && RowsOk(nkeys, probeFiles[i])
      ensures |buildFiles[i]| < MAX_BUCKETS && |probeFiles[i]| < probeLimit
    {
      FileFine(nkeys, MAX_BUCKETS, buildFiles, i);
      FileFine(nkeys, probeLimit, probeFiles, i);
    }

    /** Route both files of the current partition by further hash bits. */
    method SplitCurrent(n: nat)
      requires Valid() && !active && !repartitioned && 0 <= current < |buildFiles| && n > 0
      modifies this`subBuild, this`subProbe
      ensures Valid() && PartsJoin(subBuild, subProbe, 0) == Join(buildFiles[current], probeFiles[current])
    {
      hide Join, AllRouted, RowsOk, FilesOk, Cursor.Rest, PartsJoin;
      PartFine(current);
      PartOfBound(hash, shift, n);
      var part := PartOf(hash, shift, n);
      subBuild := RepartitionFile(buildFiles[current], part, n, {});
      subProbe := RepartitionFile(probeFiles[current], part, n, EmptyFiles(subBuild));
      RoutedOk(nkeys, MAX_BUCKETS, buildFiles[current], part, {}, subBuild);
      RoutedOk(nkeys, probeLimit, probeFiles[current], part, EmptyFiles(subBuild), subProbe);
      RepartitionKeepsJoin(buildFiles[current], probeFiles[current], part, subBuild, subProbe);
    }

    /** repartition_current_partition: split a large partition by further hash bits,
        unless few passes are cheaper than writing it again. */
    method Repartition() returns (split: bool)
      requires Valid() && !active && !repartitioned && 0 <= current < |buildFiles|
      modifies this`repartitioned, this`subBuild, this`subProbe, this`currentSub, this`subShift
      ensures Valid() && split == repartitioned
      ensures split ==> SubOwed() == Join(buildFiles[current], probeFiles[current])
    {
      hide Join, KeysFine, Cursor.Rest, PartsJoin, PartitionBits;
      var required := PassesNeeded(fileRows[current], chunkRows);
      if required < REPARTITION_MIN_PASSES {
        return false;
      }
      var n := PartitionCount(required);
      SplitCurrent(n);
      repartitioned, currentSub, subShift := true, -1, shift + PartitionBits(n);
      PartsAfterStart(subBuild, subProbe);
      split := true;
    }

    /** The loop over first-level partitions. */
    method NextPartition() returns (outcome: Outcome)
      requires Valid() && !active && !repartitioned
      modifies this
      ensures Valid() && (outcome == Started <==> active) && (outcome == Split <==> repartitioned)
      ensures outcome != Done ==> current > old(current) && Less(Left(), old(Left()))
      ensures chunks >= old(chunks) && (active ==> chunks > old(chunks))
      ensures old(PartOwed()) == Owed() && (outcome == Done ==> Owed() == multiset{})
    {
      hide KeysFine, Join, Cursor.Rest, PartsAfter, RowsOk;
      while current + 1 < |buildFiles|
        invariant Valid() && !active && !repartitioned && current >= old(current)
        invariant old(PartOwed()) == PartsAfter(buildFiles, probeFiles, current)
        invariant chunks >= old(chunks)
        decreases |buildFiles| - current
      {
        AfterStep(buildFiles, probeFiles, current);
        current := current + 1;
        if buildFiles[current] != [] && probeFiles[current] != [] {
          if fileRows[current] > chunkRows {
            var split := Repartition();
            if split {
              return Split;
            }
          }
          PartFine(current);
          var started := StartPartition(buildFiles[current], probeFiles[current], shift);
          if started {
            return Started;
          }
        }
      }
      AfterStep(buildFiles, probeFiles, current);
      outcome := Done;
    }

    /** start_next_partition */
    method StartNext() returns (started: bool)
      requires Valid() && !active
      modifies this
      ensures Valid() && started == active
      ensures Owed() == old(Owed()) && (!started ==> Owed() == multiset{})
      ensures chunks >= old(chunks)
      ensures started ==> chunks > old(chunks) && Less(Left(), old(Left()))
    {
      hide KeysFine, Join, Cursor.Rest, PartsAfter, RowsOk, Less;
      ghost var left := Left();
      while true
        invariant Valid() && !active && Owed() == old(Owed())
        invariant Left() == left || Less(Left(), left)
        invariant chunks >= old(chunks)
        decreases |buildFiles| - current
      {
        ghost var was := Left();
        if repartitioned {
          started := StartSubpartition();
          LessTrans(Left(), was, left);
          if started {
            return;
          }
        }
        ghost var mid := Left();
        var outcome := NextPartition();
        if outcome == Done {
          return false;
        }
        LessTrans(Left(), mid, left);
        if outcome == Started {
          return true;
        }
      }
    }

    /** Hand out the block just read from the probe file. */
    method TakeBlock(block: seq<Row>, position: nat)
      requires Valid() && active && probePosition < position <= |probe| && block == probe[probePosition..position]
      modifies this`probePosition
      ensures Valid() && RowsOk(nkeys, block)
      ensures old(Owed()) == Join(store, block) + Owed() && Less(Left(), old(Left()))
    {
      hide Join, PartsAfter, FilesOk;
      RowsOkSlice(nkeys, probe, probePosition, position);
      assert probe[probePosition..] == block + probe[position..];
      JoinProbeUnion(store, block, probe[position..]);
      probePosition := position;
    }

    lemma ProbeDone()
      requires Valid() && active && probePosition == |probe| && !more
      ensures ActiveOwed() == multiset{}
    {
      assert probe[probePosition..] == [];
      JoinEmptySide(store, []);
      JoinEmptySide([], probe);
    }

    /** The next chunk of the build file, with the probe file rewound. */
    method NextChunk() returns (loaded: bool)
      requires Valid() && active && probePosition == |probe|
      modifies this`store, this`cursor, this`more, this`chunks, this`probePosition
      ensures Valid() && Less(Left().(active := loaded), old(Left()))
      ensures loaded ==> Owed() == old(Owed()) && chunks > old(chunks)
      ensures !loaded ==> SubOwed() + PartOwed() == old(Owed()) && chunks == old(chunks)
    {
      hide KeysFine, Join, PartsAfter, Cursor.Rest;
      ghost var rest := cursor.Rest();
      assert probe[probePosition..] == [];
      JoinEmptySide(store, []);
      loaded := LoadChunk();
      if loaded {
        probePosition := 0;
        JoinBuildUnion(store, cursor.Rest(), probe);
        assert probe[0..] == probe;
        assert |rest| == |store| + |cursor.Rest()|;
      } else {
        JoinEmptySide([], probe);
      }
    }

    /** The end of the probe file: the next chunk, or the end of the partition. */
    method EndOfProbe()
      requires Valid() && active && probePosition == |probe|
      modifies this`store, this`cursor, this`more, this`chunks, this`probePosition, this`active
      ensures Valid() && Less(Left(), old(Left())) && Owed() == old(Owed())
      ensures chunks >= old(chunks) && (chunks == old(chunks) ==> !active)
    {
      hide KeysFine, Join, PartsAfter, Cursor.Rest;
      var loaded := false;
      if more {
        loaded := NextChunk();
      } else {
        ProbeDone();
      }
      active := loaded;
    }

    /** hash_join_fetch_spilled_probe_batch: the next probe block against the current
        chunk; at its end the next chunk rescans the probe file. */
    method Fetch() returns (found: bool, rows: seq<Row>)
      requires Valid()
      modifies this
      ensures Valid()
      ensures found ==> active && 0 < |rows| <= BLOCK_ROWS && RowsOk(nkeys, rows)
      ensures found ==> old(Owed()) == Join(store, rows) + Owed()
      ensures found ==> Less(Left(), old(Left()))
      ensures chunks >= old(chunks)
      ensures found && chunks == old(chunks) ==> old(active) && store == old(store) && storeShift == old(storeShift)
      ensures !found ==> old(Owed()) == multiset{}
    {
      hide KeysFine, Join, PartsAfter, RowsOk, Less, Cursor.Rest, ActiveOwed, SubOwed, PartOwed;
      ghost var left := Left();
      while true
        invariant Valid() && Owed() == old(Owed())
        invariant Left() == left || Less(Left(), left)
        invariant chunks >= old(chunks)
        invariant active && chunks == old(chunks) ==> old(active) && store == old(store) && storeShift == old(storeShift)
        decreases Left().parts, Left().subs, Left().active, Left().rest, Left().probe
      {
        ghost var was := Left();
        if !active {
          var started := StartNext();
          if !started {
            return false, [];
          }
          LessTrans(Left(), was, left);
        }
        ghost var mid := Left();
        var block, position := ReadBlock(probe, probePosition);
        if block != [] {
          TakeBlock(block, position);
          LessTrans(Left(), mid, left);
          return true, block;
        }
        EndOfProbe();
        LessTrans(Left(), mid, left);
        LessTrans(Left(), mid, was);
        LessIsLexicographic(Left(), was);
      }
    }
  }

  lemma LessTrans(a: Work, b: Work, c: Work)
    requires Less(a, b) && (b == c || Less(b, c))
    ensures Less(a, c)
  {}

  lemma LessIsLexicographic(a: Work, b: Work)
    requires Less(a, b)
    ensures a.parts <= b.parts && (a.parts == b.parts ==> a.subs <= b.subs)
    ensures a.parts == b.parts && a.subs == b.subs ==> (a.active ==> b.active)
    ensures a.parts == b.parts && a.subs == b.subs && a.active == b.active ==>
              a.rest < b.rest || (a.rest == b.rest && a.probe < b.probe)
  {}

  function PassesNeeded(rows: nat, chunkRows: nat): nat
    requires chunkRows > 0
  {
    (rows + chunkRows - 1) / chunkRows
  }

  lemma PartsAfterStart(b: seq<seq<Row>>, p: seq<seq<Row>>)
    requires |b| == |p|
    ensures PartsAfter(b, p, -1) == PartsJoin(b, p, 0)
  {}

  lemma JoinEmptySide(build: seq<Row>, probe: seq<Row>)
    ensures build == [] || probe == [] ==> Join(build, probe) == multiset{}
  {
    if build == [] || probe == [] {
      JoinEmpty(build, probe);
    }
  }

  // ----- the whole scan -----

  /** A spill block as a probe batch: every row is live. */
  function BlockBatch(rows: seq<Row>): (b: Batch)
    ensures |b| == |rows|
  {
    seq(|rows|, i requires 0 <= i < |rows| => ProbeSlot(rows[i], true, true))
  }

  lemma {:induction false} BlockLive(rows: seq<Row>, from: nat)
    requires from <= |rows|
    ensures LiveFrom(BlockBatch(rows), from) == rows[from..]
    decreases |rows| - from
  {
    if from < |rows| {
      BlockLive(rows, from + 1);
    }
  }

  lemma {:induction false} BatchesAppend(build: seq<Row>, batches: seq<Batch>, b: Batch)
    ensures BatchesJoin(build, batches + [b]) == BatchesJoin(build, batches) + Join(build, LiveFrom(b, 0))
  {
    if batches != [] {
      assert (batches + [b])[1..] == batches[1..] + [b];
      BatchesAppend(build, batches[1..], b);
    }
  }

  lemma {:induction false} BatchesJoinIsJoin(build: seq<Row>, batches: seq<Batch>)
    ensures BatchesJoin(build, batches) == Join(build, Rows(batches))
  {
    hide Join, LiveFrom;
    if batches == [] {
      JoinEmpty(build, []);
    } else {
      var n := |batches| - 1;
      BatchesJoinIsJoin(build, batches[..n]);
      assert batches == batches[..n] + [batches[n]];
      BatchesAppend(build, batches[..n], batches[n]);
      JoinProbeUnion(build, Rows(batches[..n]), LiveFrom(batches[n], 0));
    }
  }

  lemma {:induction false} PassesAppend(passes: seq<Pass>, p: Pass)
    ensures PassesJoin(passes + [p]) == PassesJoin(passes) + BatchesJoin(p.build, p.batches)
  {
    if passes != [] {
      assert (passes + [p])[1..] == passes[1..] + [p];
      PassesAppend(passes[1..], p);
    }
  }

  lemma {:induction false} PassesUnion(nkeys: nat, a: seq<Pass>, b: seq<Pass>)
    requires PassesOk(nkeys, a) && PassesOk(nkeys, b)
    ensures PassesOk(nkeys, a + b) && PassesJoin(a + b) == PassesJoin(a) + PassesJoin(b)
  {
    hide BatchesJoin;
    if a == [] {
      assert a + b == b;
    } else {
      assert (a + b)[1..] == a[1..] + b;
      PassesUnion(nkeys, a[1..], b);
    }
  }

  /** One more block read against the last pass, or against a new one. */
  function AddBlock(passes: seq<Pass>, build: seq<Row>, shift: nat, rows: seq<Row>, newPass: bool): seq<Pass> {
    if newPass || passes == [] then passes + [Pass(build, shift, [BlockBatch(rows)])]
    else
      var last := passes[|passes| - 1];
      passes[..|passes| - 1] + [Pass(last.build, last.shift, last.batches + [BlockBatch(rows)])]
  }

  lemma AddBlockJoin(passes: seq<Pass>, build: seq<Row>, shift: nat, rows: seq<Row>, newPass: bool)
    requires newPass || passes == [] || passes[|passes| - 1].build == build
    ensures PassesJoin(AddBlock(passes, build, shift, rows, newPass)) == PassesJoin(passes) + Join(build, rows)
  {
    hide Join;
    BlockLive(rows, 0);
    var b := BlockBatch(rows);
    if newPass || passes == [] {
      BatchesAppend(build, [], b);
      assert [] + [b] == [b];
      PassesAppend(passes, Pass(build, shift, [b]));
    } else {
      var n := |passes| - 1;
      var last := passes[n];
      assert passes == passes[..n] + [last];
      PassesAppend(passes[..n], last);
      BatchesAppend(build, last.batches, b);
      PassesAppend(passes[..n], Pass(last.build, last.shift, last.batches + [b]));
    }
  }

  lemma AddBlockOk(nkeys: nat, passes: seq<Pass>, build: seq<Row>, shift: nat, rows: seq<Row>, newPass: bool)
    requires PassesOk(nkeys, passes) && KeysOk(nkeys, build) && RowsOk(nkeys, rows) && |rows| <= BATCH_ROWS
    ensures PassesOk(nkeys, AddBlock(passes, build, shift, rows, newPass))
  {
    assert BatchOk(nkeys, BlockBatch(rows));
  }

  /** Read every spilled partition to its end: the passes met are the owed join. */
  method ReadAll(reader: Reader) returns (passes: seq<Pass>)
    requires reader.Valid() && !reader.active
    modifies reader
    ensures PassesOk(reader.nkeys, passes) && PassesJoin(passes) == old(reader.Owed())
  {
    hide KeysFine, Join, PassesOk, KeysOk, RowsOk, PassesJoin, Less, AddBlock, Reader.ActiveOwed, Reader.SubOwed;
    hide Reader.PartOwed, Cursor.Rest;
    passes := [];
    NoPasses(reader.nkeys);
    while true
      invariant reader.Valid() && PassesOk(reader.nkeys, passes)
      invariant PassesJoin(passes) + reader.Owed() == old(reader.Owed())
      invariant reader.active ==> passes != [] && passes[|passes| - 1].build == reader.store
      decreases reader.Left().parts, reader.Left().subs, reader.Left().active, reader.Left().rest, reader.Left().probe
    {
      ghost var was := reader.Left();
      var before := reader.chunks;
      var found, rows := reader.Fetch();
      if !found {
        return;
      }
      LessIsLexicographic(reader.Left(), was);
      StoreOk(reader);
      AddBlockJoin(passes, reader.store, reader.storeShift, rows, reader.chunks != before);
      AddBlockOk(reader.nkeys, passes, reader.store, reader.storeShift, rows, reader.chunks != before);
      AddBlockLast(passes, reader.store, reader.storeShift, rows, reader.chunks != before);
      passes := AddBlock(passes, reader.store, reader.storeShift, rows, reader.chunks != before);
    }
  }

  lemma AddBlockLast(passes: seq<Pass>, build: seq<Row>, shift: nat, rows: seq<Row>, newPass: bool)
    requires newPass || passes == [] || passes[|passes| - 1].build == build
    ensures var p := AddBlock(passes, build, shift, rows, newPass); p != [] && p[|p| - 1].build == build
  {}

  lemma NoPasses(nkeys: nat)
    ensures PassesOk(nkeys, []) && PassesJoin([]) == multiset{}
  {}

  lemma StoreOk(reader: Reader)
    requires reader.Valid()
    ensures KeysOk(reader.nkeys, reader.store)
  {}
}
