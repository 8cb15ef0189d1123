/** The spilled parallel join: what the shared files hold when partitions are claimed,
    how one partition is processed, and who processes which.
    (nodes/parallel_hash_join.c, partition_probe, start_next_partition,
    load_local_build_chunk and parallel_hash_join_fetch_probe) */
module ParallelPartitions {
  import opened Vectors
  import opened Hashing
  import opened Sizes
  import opened JoinPairs
  import opened Partitions
  import opened Selecting
  import opened ProbeOutput
  import opened SpillRouting
  import opened PartitionReader
  import opened ParallelState
  import opened ParallelControl
  import opened ParallelRows
  import Runs = ParallelRuns

  // ----- the shared files -----

  /** What a shared reader of partition `q` returns: the files of finished writers, in
      participant order. */
  function BuildFile(locals: seq<Local>, q: nat): seq<Row> {
    if locals == [] then []
    else
      var l := locals[|locals| - 1];
      BuildFile(locals[..|locals| - 1], q) + if l.buildDone && q < |l.files| then l.files[q] else []
  }

  function ProbeFile(locals: seq<Local>, q: nat): seq<Row> {
    if locals == [] then []
    else
      var l := locals[|locals| - 1];
      ProbeFile(locals[..|locals| - 1], q) + if l.probeDone && q < |l.probeFiles| then l.probeFiles[q] else []
  }

  lemma {:induction false} SumLast(f: Local -> nat, locals: seq<Local>)
    requires locals != []
    ensures SumOf(f, locals) == SumOf(f, locals[..|locals| - 1]) + f(locals[|locals| - 1])
  {
    if |locals| > 1 {
      SumLast(f, locals[1..]);
      assert locals[1..][..|locals| - 2] == locals[..|locals| - 1][1..];
    }
  }

  lemma {:induction false} BuildFileOcc(locals: seq<Local>, q: nat, x: Row)
    requires forall p | 0 <= p < |locals| && q < |locals[p].files| && locals[p].files[q] != [] :: locals[p].buildDone
    ensures Occ(BuildFile(locals, q), x) == SumOf(Runs.PartOccIn(q, x), locals)
  {
    if locals != [] {
      var n := |locals| - 1;
      BuildFileOcc(locals[..n], q, x);
      SumLast(Runs.PartOccIn(q, x), locals);
      OccUnion(BuildFile(locals[..n], q), if locals[n].buildDone && q < |locals[n].files| then locals[n].files[q] else [], x);
    }
  }

  lemma {:induction false} ProbeFileOcc(locals: seq<Local>, q: nat, x: Row)
    requires forall p | 0 <= p < |locals| && q < |locals[p].probeFiles| && locals[p].probeFiles[q] != [] :: locals[p].probeDone
    ensures Occ(ProbeFile(locals, q), x) == SumOf(Runs.ProbePartOccIn(q, x), locals)
  {
    if locals != [] {
      var n := |locals| - 1;
      ProbeFileOcc(locals[..n], q, x);
      SumLast(Runs.ProbePartOccIn(q, x), locals);
      OccUnion(ProbeFile(locals[..n], q), if locals[n].probeDone && q < |locals[n].probeFiles| then locals[n].probeFiles[q] else [], x);
    }
  }

  lemma {:induction false} PublishedIsSize(locals: seq<Local>, q: nat)
    requires forall p | 0 <= p < |locals| :: q < |locals[p].files|
    ensures PublishedRows(locals, q) == |BuildFile(locals, q)|
  {
    if locals != [] {
      PublishedIsSize(locals[..|locals| - 1], q);
    }
  }

  ghost predicate ReadySpilled(c: Config, s: State) {
    c.Valid() && Runs.Reachable(c, s) && s.shared.phase >= 3 && s.shared.spilled
  }

  lemma SpilledFacts(c: Config, s: State)
    requires ReadySpilled(c, s)
    ensures Control(c, s) && Accounted(c, s) && Runs.Placement(c, s) && Runs.ProbeConserved(c, s) && Sound(c, s)
  {
    hide Runs.Reachable;
    Runs.ReachableInv(c, s);
    Runs.InvSound(c, s);
  }

  /** While the probe is partitioned and ever after, the file of a partition holds all
      build rows of the partition, each as often as in the input. */
  lemma BuildFilesExact(c: Config, s: State, q: nat)
    requires ReadySpilled(c, s) && q < c.npartitions
    ensures multiset(BuildFile(s.locals, q)) == multiset(Select(FlatAll(c.build), Owned(c.Part(), q)))
  {
    hide Runs.Reachable, Accounted, Runs.ProbeConserved, FlatAll, SumOf, BuildFile, Select;
    SpilledFacts(c, s);
    forall p | 0 <= p < |s.locals| && q < |s.locals[p].files| && s.locals[p].files[q] != []
      ensures s.locals[p].buildDone
    {
      assert LocalOk(GistOf(s.shared), s.locals[p]);
      Runs.HolderFinished(GistOf(s.shared), s.locals[p], q);
    }
    forall x: Row
      ensures multiset(BuildFile(s.locals, q))[x] == multiset(Select(FlatAll(c.build), Owned(c.Part(), q)))[x]
    {
      BuildFileOcc(s.locals, q, x);
      Runs.SpilledRows(c, s, q, x);
      SelectCount(FlatAll(c.build), Owned(c.Part(), q), x);
      FlatAllOcc(c.build, x);
    }
  }

  /** The counts read by partition_probe are final: they are the number of build rows of
      the partition, whoever reads them and whenever after the build barrier. */
  lemma CountsFinal(c: Config, s: State, q: nat)
    requires ReadySpilled(c, s) && q < c.npartitions
    ensures Sound(c, s) && PublishedRows(s.locals, q) == |Select(FlatAll(c.build), Owned(c.Part(), q))|
  {
    hide ReadySpilled, FlatAll, Select, PcInRange;
    SpilledFacts(c, s);
    BuildFilesExact(c, s, q);
    PublishedIsSize(s.locals, q);
    var a, b := BuildFile(s.locals, q), Select(FlatAll(c.build), Owned(c.Part(), q));
    assert |multiset(a)| == |a| && |multiset(b)| == |b|;
  }

  /** The probe rows whose partition has build rows. */
  ghost function Kept(c: Config): Row -> bool
    requires c.npartitions > 0
  {
    (r: Row) => Runs.HasBuild(c, c.Part()(r.key))
  }

  ghost predicate ReadyToClaim(c: Config, s: State) {
    ReadySpilled(c, s) && s.shared.phase == 4
  }

  lemma ProbeFilesExact(c: Config, s: State, q: nat)
    requires ReadyToClaim(c, s) && q < c.npartitions
    ensures multiset(ProbeFile(s.locals, q)) == multiset(Select(FlatAll(c.probe), OwnedKept(c.Part(), q, Kept(c))))
  {
    hide Runs.Reachable, Accounted, FlatAll, SumOf, ProbeFile, Select, FlatOcc, Runs.HasBuild, Occ;
    SpilledFacts(c, s);
    forall p | 0 <= p < |s.locals| && q < |s.locals[p].probeFiles| && s.locals[p].probeFiles[q] != []
      ensures s.locals[p].probeDone
    {
      assert LocalOk(GistOf(s.shared), s.locals[p]);
      ProbeHolderFinished(GistOf(s.shared), s.locals[p], q);
    }
    forall x: Row
      ensures multiset(ProbeFile(s.locals, q))[x] == multiset(Select(FlatAll(c.probe), OwnedKept(c.Part(), q, Kept(c))))[x]
    {
      ProbeFileOcc(s.locals, q, x);
      SelectCount(FlatAll(c.probe), OwnedKept(c.Part(), q, Kept(c)), x);
      FlatAllOcc(c.probe, x);
      ProbePartRows(c, s, q, x);
      OccIsCount(ProbeFile(s.locals, q), x);
      OccIsCount(FlatAll(c.probe), x);
    }
  }

  lemma OccIsCount(rows: seq<Row>, x: Row)
    ensures Occ(rows, x) == multiset(rows)[x]
  {}

  lemma ProbeHolderFinished(g: Gist, l: Local, q: nat)
    requires LocalOk(g, l) && g.phase == 4 && g.spilled && q < |l.probeFiles| && l.probeFiles[q] != []
    ensures l.probeDone
  {}

  lemma ProbePartRows(c: Config, s: State, q: nat, x: Row)
    requires Control(c, s) && Runs.Placement(c, s) && Runs.ProbeConserved(c, s)
    requires s.shared.phase == 4 && s.shared.spilled && q < c.npartitions
    ensures SumOf(Runs.ProbePartOccIn(q, x), s.locals) ==
            if c.Part()(x.key) == q && Kept(c)(x) then FlatOcc(c.probe, x) else 0
  {
    hide FlatOcc, SumOf, Runs.PlacedIn, Occ, LocalOk, Runs.HasBuild;
    PartOfBound(c.hash, 0, c.npartitions);
    forall p | 0 <= p < |s.locals|
      ensures Runs.ProbePartOccIn(q, x)(s.locals[p]) == if c.Part()(x.key) == q then Runs.ProbeOccIn(x)(s.locals[p]) else 0
    {
      assert Runs.LocalPlaced(c.Part(), s.locals[p]);
      Runs.PlacedOcc(s.locals[p].probeFiles, c.Part(), x);
    }
    if c.Part()(x.key) == q {
      Runs.SumEqual(Runs.ProbePartOccIn(q, x), Runs.ProbeOccIn(x), s.locals);
      assert SumOf(Runs.ProbeOccIn(x), s.locals) + Runs.KeptOcc(c, s.shared.probePool, x) == Runs.KeptOcc(c, c.probe, x);
      NoPool(x);
    } else {
      SumZero(Runs.ProbePartOccIn(q, x), s.locals);
    }
  }

  // ----- the partitions split the join -----

  function BuildFiles(locals: seq<Local>, n: nat): (files: seq<seq<Row>>)
    ensures |files| == n && forall q | 0 <= q < n :: files[q] == BuildFile(locals, q)
  {
    if n == 0 then [] else BuildFiles(locals, n - 1) + [BuildFile(locals, n - 1)]
  }

  function ProbeFiles(locals: seq<Local>, n: nat): (files: seq<seq<Row>>)
    ensures |files| == n && forall q | 0 <= q < n :: files[q] == ProbeFile(locals, q)
  {
    if n == 0 then [] else ProbeFiles(locals, n - 1) + [ProbeFile(locals, n - 1)]
  }

  function Selections(rows: seq<Row>, f: nat -> (Row -> bool), n: nat): (parts: seq<seq<Row>>)
    ensures |parts| == n && forall q | 0 <= q < n :: parts[q] == Select(rows, f(q))
  {
    if n == 0 then [] else Selections(rows, f, n - 1) + [Select(rows, f(n - 1))]
  }

  lemma {:induction false} PartsJoinSame(b: seq<seq<Row>>, p: seq<seq<Row>>, b': seq<seq<Row>>, p': seq<seq<Row>>,
                                         from: nat)
    requires |b| == |p| == |b'| == |p'| && from <= |b|
    requires forall q | 0 <= q < |b| :: multiset(b[q]) == multiset(b'[q]) && multiset(p[q]) == multiset(p'[q])
    ensures PartsJoin(b, p, from) == PartsJoin(b', p', from)
    decreases |b| - from
  {
    hide Join;
    if from < |b| {
      PartsJoinSame(b, p, b', p', from + 1);
      JoinSameRows(b[from], p[from], b'[from], p'[from]);
    }
  }

  lemma DroppedHaveNoMatch(c: Config)
    requires c.npartitions > 0
    ensures DropsUnmatched(FlatAll(c.build), FlatAll(c.probe), Kept(c))
  {
    var build := FlatAll(c.build);
    forall i, j | 0 <= i < |build| && 0 <= j < |FlatAll(c.probe)| && !Kept(c)(FlatAll(c.probe)[j])
      ensures build[i].key != FlatAll(c.probe)[j].key
    {
      FlatAllOcc(c.build, build[i]);
      Runs.OccMeansMember(c.build, build[i]);
      var k :| 0 <= k < |c.build| && build[i] in c.build[k];
      var r :| 0 <= r < |c.build[k]| && c.build[k][r] == build[i];
      assert Runs.HasBuild(c, c.Part()(build[i].key));
    }
  }

  /** What all partitions owe together is the join of the two inputs. */
  lemma PartitionsOweJoin(c: Config, s: State)
    requires ReadyToClaim(c, s)
    ensures PartsJoin(BuildFiles(s.locals, c.npartitions), ProbeFiles(s.locals, c.npartitions), 0)
            == Join(FlatAll(c.build), FlatAll(c.probe))
  {
    hide ReadySpilled, FlatAll, Select, BuildFile, ProbeFile, Join, Runs.HasBuild, PartsJoin;
    assert c.npartitions > 0 by { SpilledFacts(c, s); }
    var n, part := c.npartitions, c.Part();
    var b := Selections(FlatAll(c.build), q => Owned(part, q), n);
    var p := Selections(FlatAll(c.probe), q => OwnedKept(part, q, Kept(c)), n);
    forall q | 0 <= q < n
      ensures multiset(BuildFiles(s.locals, n)[q]) == multiset(b[q]) && multiset(ProbeFiles(s.locals, n)[q]) == multiset(p[q])
    {
      BuildFilesExact(c, s, q);
      ProbeFilesExact(c, s, q);
    }
    PartsJoinSame(BuildFiles(s.locals, n), ProbeFiles(s.locals, n), b, p, 0);
    PartOfBound(c.hash, 0, n);
    DroppedHaveNoMatch(c);
    PartsJoinIsJoin(FlatAll(c.build), FlatAll(c.probe), b, p, part, Kept(c));
  }

  // ----- one partition -----

  /** load_local_build_chunk: whole blocks until the chunk is full. */
  method LoadLocalChunk(file: seq<Row>, position: nat, chunkRows: nat) returns (store: seq<Row>, after: nat,
                        maybeMore: bool)
    requires position <= |file|
    ensures position <= after <= |file| && store == file[position..after]
    ensures chunkRows > 0 && store == [] ==> position == |file|
    ensures maybeMore <==> |store| >= chunkRows
    ensures !maybeMore ==> after == |file|
    ensures |store| < chunkRows + 64
  {
    store, after := [], position;
    while |store| < chunkRows
      invariant position <= after <= |file| && store == file[position..after] && |store| < chunkRows + 64
      decreases |file| - after
    {
      var block, next := ReadBlock(file, after);
      if block == [] {
        break;
      }
      store, after := store + block, next;
    }
    maybeMore := |store| >= chunkRows;
  }

  /** One scan of the probe file against the chunk in memory. */
  method ScanProbe(nkeys: nat, store: seq<Row>, probe: seq<Row>) returns (pass: Pass)
    requires RowsOk(nkeys, probe)
    ensures pass.build == store && pass.shift == 0 && BatchesOk(nkeys, pass.batches)
    ensures BatchesJoin(store, pass.batches) == Join(store, probe)
  {
    hide Join, LiveFrom;
    var batches, position := [], 0;
    JoinEmpty(store, []);
    while position < |probe|
      invariant position <= |probe| && BatchesOk(nkeys, batches)
      invariant BatchesJoin(store, batches) == Join(store, probe[..position])
      decreases |probe| - position
    {
      var block, next := ReadBlock(probe, position);
      RowsOkSlice(nkeys, probe, position, next);
      BlockLive(block, 0);
      BatchesAppend(store, batches, BlockBatch(block));
      JoinProbeUnion(store, probe[..position], block);
      assert probe[..next] == probe[..position] + block;
      batches, position := batches + [BlockBatch(block)], next;
    }
    assert probe[..|probe|] == probe;
    pass := Pass(store, 0, batches);
  }

  /** The chunks of one file pair: every chunk scans the whole probe file. */
  method ScanPair(nkeys: nat, chunkRows: nat, build: seq<Row>, probe: seq<Row>) returns (passes: seq<Pass>)
    requires chunkRows > 0 && RowsOk(nkeys, build) && RowsOk(nkeys, probe) && |build| < MAX_BUCKETS
    ensures PassesOk(nkeys, passes) && PassesJoin(passes) == Join(build, probe)
  {
    hide Join, BatchesJoin, PassesJoin, LiveFrom;
    passes := [];
    NoPasses(nkeys);
    JoinEmpty([], probe);
    var position, more := 0, true;
    while more
      invariant position <= |build| && PassesOk(nkeys, passes)
      invariant PassesJoin(passes) == Join(build[..position], probe)
      invariant !more ==> position == |build|
      decreases more, |build| - position
    {
      var store, after, maybeMore := LoadLocalChunk(build, position, chunkRows);
      if store == [] {
        break;
      }
      RowsOkSlice(nkeys, build, position, after);
      var pass := ScanProbe(nkeys, store, probe);
      PassesAppend(passes, pass);
      JoinBuildUnion(build[..position], store, probe);
      assert build[..after] == build[..position] + store;
      passes, position, more := passes + [pass], after, maybeMore;
    }
    assert build[..|build|] == build;
  }

  /** Everything the claimer of a partition does with it, second-level partitions included. */
  method ProcessPartition(hash: Key -> nat, nkeys: nat, chunkRows: nat, shift: nat, build: seq<Row>, probe: seq<Row>)
    returns (passes: seq<Pass>)
    requires chunkRows > 0 && RowsOk(nkeys, build) && RowsOk(nkeys, probe) && |build| < MAX_BUCKETS
    ensures PassesOk(nkeys, passes) && PassesJoin(passes) == Join(build, probe)
  {
    hide Join, PassesJoin, AllRouted, RowsOk, PassesOk;
    if PassesNeeded(|build|, chunkRows) < REPARTITION_MIN_PASSES {
      passes := ScanPair(nkeys, chunkRows, build, probe);
      return;
    }
    var n := PartitionCount(PassesNeeded(|build|, chunkRows));
    var part := PartOf(hash, shift, n);
    PartOfBound(hash, shift, n);
    var subBuild := RepartitionFile(build, part, n, {});
    var subProbe := RepartitionFile(probe, part, n, EmptyFiles(subBuild));
    RoutedOk(nkeys, MAX_BUCKETS, build, part, {}, subBuild);
    RoutedOk(nkeys, |probe| + 1, probe, part, EmptyFiles(subBuild), subProbe);
    RepartitionKeepsJoin(build, probe, part, subBuild, subProbe);
    passes := ScanSubpartitions(nkeys, chunkRows, subBuild, subProbe, |probe| + 1);
  }

  /** start_next_repartition, over all second-level partitions. */
  method ScanSubpartitions(nkeys: nat, chunkRows: nat, build: seq<seq<Row>>, probe: seq<seq<Row>>, ghost limit: nat)
    returns (passes: seq<Pass>)
    requires chunkRows > 0 && |build| == |probe| && FilesOk(nkeys, MAX_BUCKETS, build) && FilesOk(nkeys, limit, probe)
    ensures PassesOk(nkeys, passes) && PassesJoin(passes) == PartsJoin(build, probe, 0)
  {
    hide Join, PassesJoin, RowsOk, PassesOk, FilesOk, PartsAfter;
    passes := [];
    NoPasses(nkeys);
    PartsAfterStart(build, probe);
    var sub := 0;
    while sub < |build|
      invariant sub <= |build| && PassesOk(nkeys, passes)
      invariant PassesJoin(passes) + PartsAfter(build, probe, sub - 1) == PartsJoin(build, probe, 0)
    {
      AfterStep(build, probe, sub - 1);
      if build[sub] != [] && probe[sub] != [] {
        FileFine(nkeys, MAX_BUCKETS, build, sub);
        FileFine(nkeys, limit, probe, sub);
        var more := ScanPair(nkeys, chunkRows, build[sub], probe[sub]);
        PassesUnion(nkeys, passes, more);
        passes := passes + more;
      }
      sub := sub + 1;
    }
    AfterStep(build, probe, |build| - 1);
  }

  // ----- who processes which partition -----

  /** A participant between two fetch-adds: the partition it processes, and the passes it has
      made over its partitions so far. */
  datatype Worker = Worker(at: Option<nat>, done: bool, passes: seq<Pass>)

  /** `claims` records, for the proof, which participant's fetch-add returned which index. */
  datatype Claiming = Claiming(next: nat, workers: seq<Worker>, claims: seq<nat>)

  /** What a participant does next: a fetch-add on the partition counter, or the passes of
      processing the partition it claimed. */
  datatype ClaimMove = Claim(p: nat) | Process(p: nat, passes: seq<Pass>)

  /** What ProcessPartition ensures of the passes it makes. */
  ghost predicate Processed(nkeys: nat, build: seq<Row>, probe: seq<Row>, passes: seq<Pass>) {
    PassesOk(nkeys, passes) && PassesJoin(passes) == Join(build, probe)
  }

  ghost predicate CanMove(nkeys: nat, b: seq<seq<Row>>, probe: seq<seq<Row>>, s: Claiming, m: ClaimMove)
    requires |b| == |probe|
  {
    && m.p < |s.workers| && !s.workers[m.p].done
    && match m
       case Claim(p) => s.workers[p].at == None
       case Process(p, passes) =>
         && s.workers[p].at != None && s.workers[p].at.value < |b|
         && Processed(nkeys, b[s.workers[p].at.value], probe[s.workers[p].at.value], passes)
  }

  function ClaimStep(b: seq<seq<Row>>, probe: seq<seq<Row>>, s: Claiming, m: ClaimMove): Claiming
    requires |b| == |probe| && m.p < |s.workers|
  {
    var w := s.workers[m.p];
    match m
    case Process(p, passes) => s.(workers := s.workers[p := Worker(None, false, w.passes + passes)])
    case Claim(p) =>
      var index := s.next;
      var w' := if index >= |b| then w.(done := true)
                else if b[index] == [] || probe[index] == [] then w
                else w.(at := Some(index));
      Claiming(index + 1, s.workers[p := w'], s.claims + [p])
  }

  /** The pairs of a worker's passes, and of the partition it is about to process. */
  ghost function WorkerPairs(b: seq<seq<Row>>, probe: seq<seq<Row>>, w: Worker, x: Pair): nat {
    PassesJoin(w.passes)[x] + if w.at != None && w.at.value < |b| == |probe| then Join(b[w.at.value], probe[w.at.value])[x] else 0
  }

  ghost function AllPairs(b: seq<seq<Row>>, probe: seq<seq<Row>>, workers: seq<Worker>, x: Pair): nat {
    if workers == [] then 0 else WorkerPairs(b, probe, workers[0], x) + AllPairs(b, probe, workers[1..], x)
  }

  lemma {:induction false} AllPairsUpdate(b: seq<seq<Row>>, probe: seq<seq<Row>>, workers: seq<Worker>, p: nat,
                                          w: Worker, x: Pair)
    requires p < |workers|
    ensures AllPairs(b, probe, workers[p := w], x) + WorkerPairs(b, probe, workers[p], x) ==
            AllPairs(b, probe, workers, x) + WorkerPairs(b, probe, w, x)
  {
    if p == 0 {
      assert workers[0 := w][1..] == workers[1..];
    } else {
      assert workers[p := w][1..] == workers[1..][p - 1 := w];
      AllPairsUpdate(b, probe, workers[1..], p - 1, w, x);
    }
  }

  ghost predicate ClaimInv(nkeys: nat, b: seq<seq<Row>>, probe: seq<seq<Row>>, s: Claiming) {
    && |b| == |probe| && |s.claims| == s.next
    && (forall p | 0 <= p < |s.workers| && s.workers[p].at != None ::
          && s.workers[p].at.value < |b| && s.workers[p].at.value < |s.claims|
          && s.claims[s.workers[p].at.value] == p && !s.workers[p].done)
    && (forall p | 0 <= p < |s.workers| && s.workers[p].done :: s.next >= |b|)
    && (forall p | 0 <= p < |s.workers| :: PassesOk(nkeys, s.workers[p].passes))
    && (forall x: Pair :: AllPairs(b, probe, s.workers, x) + PartsAfter(b, probe, s.next - 1)[x] == PartsJoin(b, probe, 0)[x])
  }

  lemma ClaimStepKeeps(nkeys: nat, b: seq<seq<Row>>, probe: seq<seq<Row>>, s: Claiming, m: ClaimMove)
    requires ClaimInv(nkeys, b, probe, s) && CanMove(nkeys, b, probe, s, m)
    ensures ClaimInv(nkeys, b, probe, ClaimStep(b, probe, s, m))
  {
    hide Join, AllPairs, PartsAfter, PartsJoin, PassesOk, PassesJoin;
    var t := ClaimStep(b, probe, s, m);
    AfterStep(b, probe, s.next - 1);
    AfterStep(b, probe, s.next);
    if m.Process? {
      PassesUnion(nkeys, s.workers[m.p].passes, m.passes);
    }
    forall x: Pair
      ensures AllPairs(b, probe, t.workers, x) + PartsAfter(b, probe, t.next - 1)[x] == PartsJoin(b, probe, 0)[x]
    {
      AllPairsUpdate(b, probe, s.workers, m.p, t.workers[m.p], x);
    }
  }

  ghost predicate ClaimRun(nkeys: nat, b: seq<seq<Row>>, probe: seq<seq<Row>>, s: Claiming, moves: seq<ClaimMove>,
                           t: Claiming)
    requires |b| == |probe|
    decreases |moves|
  {
    if moves == [] then t == s
    else
      && CanMove(nkeys, b, probe, s, moves[0])
      && ClaimRun(nkeys, b, probe, ClaimStep(b, probe, s, moves[0]), moves[1..], t)
  }

  lemma {:induction false} ClaimRunKeeps(nkeys: nat, b: seq<seq<Row>>, probe: seq<seq<Row>>, s: Claiming,
                                         moves: seq<ClaimMove>, t: Claiming)
    requires |b| == |probe| && ClaimInv(nkeys, b, probe, s) && ClaimRun(nkeys, b, probe, s, moves, t)
    ensures ClaimInv(nkeys, b, probe, t)
    decreases |moves|
  {
    hide ClaimStep, ClaimInv;
    if moves != [] {
      ClaimStepKeeps(nkeys, b, probe, s, moves[0]);
      ClaimRunKeeps(nkeys, b, probe, ClaimStep(b, probe, s, moves[0]), moves[1..], t);
    }
  }

  function NobodyClaimed(n: nat): (s: Claiming)
    ensures s.next == 0 && s.claims == [] && |s.workers| == n
    ensures forall p | 0 <= p < n :: s.workers[p] == Worker(None, false, [])
  {
    Claiming(0, seq(n, _ => Worker(None, false, [])), [])
  }

  lemma {:induction false} NothingMet(b: seq<seq<Row>>, probe: seq<seq<Row>>, workers: seq<Worker>, x: Pair)
    requires forall p | 0 <= p < |workers| :: workers[p] == Worker(None, false, [])
    ensures AllPairs(b, probe, workers, x) == 0
  {
    if workers != [] {
      NothingMet(b, probe, workers[1..], x);
    }
  }

  ghost function UnionOf(workers: seq<Worker>): multiset<Pair> {
    if workers == [] then multiset{}
    else UnionOf(workers[..|workers| - 1]) + PassesJoin(workers[|workers| - 1].passes)
  }

  lemma {:induction false} UnionCounts(b: seq<seq<Row>>, probe: seq<seq<Row>>, workers: seq<Worker>, x: Pair)
    requires forall p | 0 <= p < |workers| :: workers[p].at == None
    ensures UnionOf(workers)[x] == AllPairs(b, probe, workers, x)
  {
    hide PassesJoin;
    if workers != [] {
      var n := |workers| - 1;
      UnionCounts(b, probe, workers[..n], x);
      AllPairsLast(b, probe, workers, x);
    }
  }

  lemma {:induction false} AllPairsLast(b: seq<seq<Row>>, probe: seq<seq<Row>>, workers: seq<Worker>, x: Pair)
    requires workers != []
    ensures AllPairs(b, probe, workers, x) ==
            AllPairs(b, probe, workers[..|workers| - 1], x) + WorkerPairs(b, probe, workers[|workers| - 1], x)
  {
    hide WorkerPairs;
    if |workers| > 1 {
      AllPairsLast(b, probe, workers[1..], x);
      assert workers[1..][..|workers| - 2] == workers[..|workers| - 1][1..];
    }
  }

  /** No partition is processed by two participants, in any interleaving of claims. */
  lemma ClaimedOnce(nkeys: nat, b: seq<seq<Row>>, probe: seq<seq<Row>>, participants: nat, moves: seq<ClaimMove>,
                    t: Claiming, p: nat, q: nat)
    requires |b| == |probe| && ClaimRun(nkeys, b, probe, NobodyClaimed(participants), moves, t)
    requires p < |t.workers| && q < |t.workers| && t.workers[p].at != None && t.workers[p].at == t.workers[q].at
    ensures p == q
  {
    InitialClaims(nkeys, b, probe, participants);
    ClaimRunKeeps(nkeys, b, probe, NobodyClaimed(participants), moves, t);
  }

  lemma InitialClaims(nkeys: nat, b: seq<seq<Row>>, probe: seq<seq<Row>>, participants: nat)
    requires |b| == |probe|
    ensures ClaimInv(nkeys, b, probe, NobodyClaimed(participants))
  {
    hide Join, PartsJoin;
    PartsAfterStart(b, probe);
    forall x: Pair
      ensures AllPairs(b, probe, NobodyClaimed(participants).workers, x) == 0
    {
      NothingMet(b, probe, NobodyClaimed(participants).workers, x);
    }
  }

  /** When all workers are done, their passes together owe the joins of all file pairs. */
  lemma DoneUnion(nkeys: nat, b: seq<seq<Row>>, probe: seq<seq<Row>>, t: Claiming)
    requires ClaimInv(nkeys, b, probe, t)
    requires t.workers != [] && forall p | 0 <= p < |t.workers| :: t.workers[p].done
    ensures UnionOf(t.workers) == PartsJoin(b, probe, 0)
  {
    hide Join, PartsJoin, AllPairs, UnionOf, PassesOk;
    AfterStep(b, probe, t.next - 1);
    assert t.workers[0].done;
    forall x: Pair
      ensures UnionOf(t.workers)[x] == PartsJoin(b, probe, 0)[x]
    {
      UnionCounts(b, probe, t.workers, x);
    }
  }

  // ----- every participant to its end -----

  /** What is left to do: claims, partitions being processed, participants not done. */
  ghost function WorkersLeft(workers: seq<Worker>): nat {
    if workers == [] then 0
    else (if workers[0].done then 0 else if workers[0].at == None then 1 else 2) + WorkersLeft(workers[1..])
  }

  lemma {:induction false} WorkersLeftUpdate(workers: seq<Worker>, p: nat, w: Worker)
    requires p < |workers|
    ensures WorkersLeft(workers[p := w]) + (if workers[p].done then 0 else if workers[p].at == None then 1 else 2) ==
            WorkersLeft(workers) + if w.done then 0 else if w.at == None then 1 else 2
  {
    if p == 0 {
      assert workers[0 := w][1..] == workers[1..];
    } else {
      assert workers[p := w][1..] == workers[1..][p - 1 := w];
      WorkersLeftUpdate(workers[1..], p - 1, w);
    }
  }

  ghost function ClaimsLeft(n: nat, s: Claiming): nat {
    WorkersLeft(s.workers) + if s.next < n then 2 * (n - s.next) else 0
  }

  /** One move of a participant that is not done: it claims, or it processes what it claimed. */
  method TakeMove(c: Config, chunkRows: nat, shift: nat, b: seq<seq<Row>>, probe: seq<seq<Row>>, s: Claiming, p: nat)
    returns (t: Claiming)
    requires chunkRows > 0 && |b| == |probe| && p < |s.workers| && !s.workers[p].done
    requires FilesOk(c.nkeys, MAX_BUCKETS, b) && forall q | 0 <= q < |probe| :: RowsOk(c.nkeys, probe[q])
    requires ClaimInv(c.nkeys, b, probe, s)
    ensures ClaimInv(c.nkeys, b, probe, t) && |t.workers| == |s.workers| && ClaimsLeft(|b|, t) < ClaimsLeft(|b|, s)
  {
    hide Join, AllPairs, PartsAfter, PartsJoin, PassesOk, PassesJoin, RowsOk;
    var m := ClaimMove.Claim(p);
    if s.workers[p].at != None {
      var q := s.workers[p].at.value;
      FileFine(c.nkeys, MAX_BUCKETS, b, q);
      var passes := ProcessPartition(c.hash, c.nkeys, chunkRows, shift, b[q], probe[q]);
      m := Process(p, passes);
    }
    ClaimStepKeeps(c.nkeys, b, probe, s, m);
    t := ClaimStep(b, probe, s, m);
    WorkersLeftUpdate(s.workers, p, t.workers[p]);
  }

  /** All participants, in any order of their moves: first as the schedule says, then whoever is
      not done. */
  method WorkOff(c: Config, chunkRows: nat, shift: nat, b: seq<seq<Row>>, probe: seq<seq<Row>>, participants: nat,
                 schedule: seq<nat>)
    returns (t: Claiming)
    requires chunkRows > 0 && |b| == |probe|
    requires FilesOk(c.nkeys, MAX_BUCKETS, b) && forall q | 0 <= q < |probe| :: RowsOk(c.nkeys, probe[q])
    ensures ClaimInv(c.nkeys, b, probe, t) && |t.workers| == participants
    ensures forall p | 0 <= p < participants :: t.workers[p].done
  {
    hide ClaimInv, FilesOk, RowsOk;
    t := NobodyClaimed(participants);
    InitialClaims(c.nkeys, b, probe, participants);
    for i := 0 to |schedule|
      invariant ClaimInv(c.nkeys, b, probe, t) && |t.workers| == participants
    {
      if schedule[i] < participants && !t.workers[schedule[i]].done {
        t := TakeMove(c, chunkRows, shift, b, probe, t, schedule[i]);
      }
    }
    var p := 0;
    while p < participants
      invariant ClaimInv(c.nkeys, b, probe, t) && |t.workers| == participants && p <= participants
      invariant forall q | 0 <= q < p :: t.workers[q].done
      decreases ClaimsLeft(|b|, t), participants - p
    {
      if t.workers[p].done {
        p := p + 1;
      } else {
        t := TakeMove(c, chunkRows, shift, b, probe, t, p);
        p := 0;
      }
    }
  }
}
