/** The parallel join as its caller sees it: what the batches of all participants hold
    together, from the state any interleaving of the build left behind.
    (nodes/parallel_hash_join.c and nodes/hash_join.c, produce_output) */
module ParallelJoin {
  import opened Hashing
  import opened JoinPairs
  import opened ParallelPartitions
  import opened ParallelResults
  import opened ParallelRows
  import opened ParallelState
  import opened PartitionReader
  import opened Partitions
  import opened ProbeOutput
  import opened Selecting
  import opened Sizes
  import opened Vectors
  import Runs = ParallelRuns

  /** The probe rows of all shares. */
  function AllRows(shares: seq<seq<Batch>>): seq<Row> {
    if shares == [] then [] else AllRows(shares[..|shares| - 1]) + Rows(shares[|shares| - 1])
  }

  /** What all participants publish together. */
  ghost function Together(outputs: seq<seq<seq<Pair>>>): multiset<Pair> {
    if outputs == [] then multiset{} else Together(outputs[..|outputs| - 1]) + Flat(outputs[|outputs| - 1])
  }

  lemma TogetherAppend(outputs: seq<seq<seq<Pair>>>, output: seq<seq<Pair>>)
    ensures Together(outputs + [output]) == Together(outputs) + Flat(output)
  {
    assert (outputs + [output])[..|outputs|] == outputs;
  }

  lemma KeepEmpty(qual: Pair -> bool)
    ensures Keep(qual, multiset{}) == multiset{}
  {}

  // ----- nobody spilled -----

  /** The unspilled parallel join. Whatever interleaving built the shared table, and however
      the probe rows are dealt out, the output batches of all participants hold the equijoin
      filtered by the residual conditions. The table no longer changes, so it does not matter
      in which order the participants ask for their batches. */
  method UnspilledJoin(c: Config, g: Shared, ghost s: State, qual: Pair -> bool, shares: seq<seq<Batch>>,
                       limits: seq<seq<nat>>)
    returns (outputs: seq<seq<seq<Pair>>>)
    requires ReadyUnspilled(c, s) && g == s.shared && |limits| == |shares|
    requires forall p | 0 <= p < |shares| :: BatchesOk(c.nkeys, shares[p])
    requires multiset(AllRows(shares)) == multiset(FlatAll(c.probe))
    ensures Together(outputs) == Keep(qual, Join(FlatAll(c.build), FlatAll(c.probe)))
    ensures |outputs| == |shares| && forall p | 0 <= p < |shares| :: Bounded(outputs[p], limits[p])
  {
    hide ReadyUnspilled, BatchesOk, Bounded, Flat, Join, BatchesJoin, Keep, FlatAll, SharedLookup.Probable, Rows;
    ReadyIsProbable(c, s);
    ghost var build := FlatAll(c.build);
    outputs := [];
    NothingYet(qual, build);
    for p := 0 to |shares|
      invariant |outputs| == p && forall i | 0 <= i < p :: Bounded(outputs[i], limits[i])
      invariant Together(outputs) == Keep(qual, Join(build, AllRows(shares[..p])))
    {
      var output := RunShared(c, g, qual, shares[p], limits[p]);
      BatchesJoinIsJoin(build, shares[p]);
      OneMoreShare(qual, build, shares, p);
      TogetherAppend(outputs, output);
      outputs := outputs + [output];
    }
    assert shares[..|shares|] == shares;
    JoinSameRows(build, AllRows(shares), build, FlatAll(c.probe));
  }

  lemma NothingYet(qual: Pair -> bool, build: seq<Row>)
    ensures Keep(qual, Join(build, [])) == multiset{}
  {}

  lemma OneMoreShare(qual: Pair -> bool, build: seq<Row>, shares: seq<seq<Batch>>, p: nat)
    requires p < |shares|
    ensures Keep(qual, Join(build, AllRows(shares[..p + 1]))) ==
            Keep(qual, Join(build, AllRows(shares[..p]))) + Keep(qual, Join(build, Rows(shares[p])))
  {
    hide Keep, Join, Rows;
    assert shares[..p + 1][..p] == shares[..p];
    JoinProbeUnion(build, AllRows(shares[..p]), Rows(shares[p]));
    KeepUnion(qual, Join(build, AllRows(shares[..p])), Join(build, Rows(shares[p])));
  }

  // ----- partitions on disk -----

  lemma SameRowsOk(nkeys: nat, file: seq<Row>, rows: seq<Row>, f: Row -> bool)
    requires multiset(file) == multiset(Select(rows, f)) && RowsOk(nkeys, rows)
    ensures RowsOk(nkeys, file) && |file| <= |rows|
  {
    assert |file| == |multiset(file)| && |Select(rows, f)| == |multiset(Select(rows, f))|;
    forall i | 0 <= i < |file|
      ensures |file[i].key| == nkeys
    {
      SelectCount(rows, f, file[i]);
      assert file[i] in multiset(file) && multiset(rows)[file[i]] > 0;
    }
  }

  lemma {:induction false} AllKeysOk(nkeys: nat, parts: seq<seq<Row>>)
    requires forall i, j | 0 <= i < |parts| && 0 <= j < |parts[i]| :: |parts[i][j].key| == nkeys
    ensures RowsOk(nkeys, FlatAll(parts))
  {
    if parts != [] {
      AllKeysOk(nkeys, parts[..|parts| - 1]);
      RowsOkParts(nkeys, FlatAll(parts[..|parts| - 1]), parts[|parts| - 1]);
    }
  }

  lemma FilesFine(c: Config, s: State)
    requires ReadyToClaim(c, s) && RowsOk(c.nkeys, FlatAll(c.probe)) && |FlatAll(c.build)| < MAX_BUCKETS
    ensures FilesOk(c.nkeys, MAX_BUCKETS, BuildFiles(s.locals, c.npartitions))
    ensures forall q | 0 <= q < c.npartitions :: RowsOk(c.nkeys, ProbeFiles(s.locals, c.npartitions)[q])
  {
    hide Runs.Reachable, FlatAll, Select, BuildFile, ProbeFile, RowsOk;
    AllKeysOk(c.nkeys, c.build);
    forall q | 0 <= q < c.npartitions
      ensures RowsOk(c.nkeys, BuildFile(s.locals, q)) && |BuildFile(s.locals, q)| < MAX_BUCKETS
      ensures RowsOk(c.nkeys, ProbeFile(s.locals, q))
    {
      BuildFilesExact(c, s, q);
      ProbeFilesExact(c, s, q);
      SameRowsOk(c.nkeys, BuildFile(s.locals, q), FlatAll(c.build), Owned(c.Part(), q));
      SameRowsOk(c.nkeys, ProbeFile(s.locals, q), FlatAll(c.probe), OwnedKept(c.Part(), q, Kept(c)));
    }
  }

  /** The spilled parallel join. From the files any interleaving of build and probe
      partitioning left behind, for every order in which participants claim and process
      partitions, the output batches of all participants hold the equijoin filtered by the
      residual conditions. */
  method SpilledJoin(c: Config, ghost s: State, build: seq<seq<Row>>, probe: seq<seq<Row>>, chunkRows: nat, shift: nat,
                     participants: nat, schedule: seq<nat>, qual: Pair -> bool, limits: seq<seq<nat>>)
    returns (outputs: seq<seq<seq<Pair>>>)
    requires ReadyToClaim(c, s)
    requires build == BuildFiles(s.locals, c.npartitions) && probe == ProbeFiles(s.locals, c.npartitions)
    requires RowsOk(c.nkeys, FlatAll(c.probe)) && |FlatAll(c.build)| < MAX_BUCKETS
    requires chunkRows > 0 && participants > 0 && |limits| == participants
    ensures Together(outputs) == Keep(qual, Join(FlatAll(c.build), FlatAll(c.probe)))
    ensures |outputs| == participants && forall p | 0 <= p < participants :: Bounded(outputs[p], limits[p])
  {
    hide ReadyToClaim, FilesOk, RowsOk, Join, PassesJoin, PartsJoin, Keep, Flat, Bounded, PassesOk, FlatAll;
    hide BuildFiles, ProbeFiles;
    FilesFine(c, s);
    ClaimConfig(c, s);
    var t := WorkOff(c, chunkRows, shift, build, probe, participants, schedule);
    DoneUnion(c.nkeys, build, probe, t);
    PartitionsOweJoin(c, s);
    outputs := [];
    KeepEmpty(qual);
    for p := 0 to participants
      invariant |outputs| == p && forall i | 0 <= i < p :: Bounded(outputs[i], limits[i])
      invariant Together(outputs) == Keep(qual, UnionOf(t.workers[..p]))
    {
      var output := Run(c.hash, c.nkeys, qual, t.workers[p].passes, limits[p]);
      assert t.workers[..p + 1][..p] == t.workers[..p];
      KeepUnion(qual, UnionOf(t.workers[..p]), PassesJoin(t.workers[p].passes));
      TogetherAppend(outputs, output);
      outputs := outputs + [output];
    }
    assert t.workers[..participants] == t.workers;
  }

  lemma ClaimConfig(c: Config, s: State)
    requires ReadyToClaim(c, s)
    ensures c.nkeys > 0 && FixesLastKey(c.hash, c.nkeys)
  {}
}
