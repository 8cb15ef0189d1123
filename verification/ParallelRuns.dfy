/** Whole runs of the parallel build: the invariant of every reachable state. */
module ParallelRuns {
  import opened Vectors
  import opened Hashing
  import opened Sizes
  import opened JoinPairs
  import opened Partitions
  import opened Selecting
  import opened SpillRouting
  import opened ParallelState
  import opened ParallelControl
  import opened ParallelRows
  import opened ParallelChains

  // ----- rows are in the file of their partition -----

  ghost predicate PlacedIn(part: Key -> nat, files: seq<seq<Row>>) {
    forall q, k | 0 <= q < |files| && 0 <= k < |files[q]| :: part(files[q][k].key) == q
  }

  ghost predicate LocalPlaced(part: Key -> nat, l: Local) {
    PlacedIn(part, l.files) && PlacedIn(part, l.probeFiles)
  }

  ghost predicate Placement(c: Config, s: State)
    requires c.npartitions > 0
  {
    forall p | 0 <= p < |s.locals| :: LocalPlaced(c.Part(), s.locals[p])
  }

  lemma RoutePlaced(files: seq<seq<Row>>, rows: seq<Row>, part: Key -> nat)
    requires PlacedIn(part, files)
    ensures PlacedIn(part, Route(files, rows, part))
  {
    var after: seq<seq<Row>> := Route(files, rows, part);
    forall q, k | 0 <= q < |after| && 0 <= k < |after[q]|
      ensures part(after[q][k].key) == q
    {
      SelectMembers(rows, Owned(part, q));
      if k >= |files[q]| {
        assert after[q][k] == Select(rows, Owned(part, q))[k - |files[q]|];
        assert Owned(part, q)(after[q][k]);
      }
    }
  }

  lemma StepPlaced(c: Config, s: State, p: nat)
    requires Sound(c, s) && p < |s.locals| && LocalPlaced(c.Part(), s.locals[p])
    ensures LocalPlaced(c.Part(), StepOf(c, s, p).local)
  {
    hide Route, PlacedIn, HasBuildRows, BucketOf, SamePrefix, PcInRange, RowAt, Reservation;
    var l := s.locals[p];
    match l.pc {
      case SpillBatch(rows) => RoutePlaced(l.files, rows, c.Part());
      case SpillChunk(rows) => RoutePlaced(l.files, rows, c.Part());
      case PartitionProbe =>
        if s.shared.probePool != [] {
          RoutePlaced(l.probeFiles, Select(s.shared.probePool[0], HasBuildRows(c, s.locals)), c.Part());
        }
      case _ =>
    }
  }

  // ----- the chain invariant over the other phases -----

  predicate Idle(pc: Pc) {
    match pc
    case NextRow(_, _) => false
    case SetLink(_, _, _) => false
    case Cas(_, _, _) => false
    case Detect(_, _, _) => false
    case Walk(_, _, _, _) => false
    case SetDuplicate(_, _) => false
    case _ => true
  }

  /** The parts of the shared state the chains are about. */
  ghost predicate SameTables(g: Shared, h: Shared) {
    h.chunks == g.chunks && h.buckets == g.buckets && h.links == g.links && h.history == g.history && h.dup == g.dup
  }

  lemma QuietMoves(c: Config, s: State, t: State)
    requires Building(c, s) && SameTables(s.shared, t.shared) && |t.locals| == |s.locals|
    requires forall p | 0 <= p < |s.locals| ::
               t.locals[p].pc == s.locals[p].pc || (Idle(t.locals[p].pc) && Idle(s.locals[p].pc))
    ensures Building(c, t)
  {
    var g, h := s.shared, t.shared;
    forall b | 0 <= b < |h.buckets|
      ensures StackOk(c, h, b)
    {
      assert StackOk(c, g, b);
    }
    forall i | 0 <= i < |h.chunks|
      ensures ChunkDone(h, t.locals, i)
    {
      assert ChunkDone(g, s.locals, i);
    }
    if SharesKey(g) {
      SharesKeyKept(g, h);
    }
    QuietPcs(c, s, t);
    QuietChecks(s, t);
  }

  lemma QuietPcs(c: Config, s: State, t: State)
    requires Pcs(c, s.shared, s.locals) && SameTables(s.shared, t.shared) && |t.locals| == |s.locals|
    requires forall p | 0 <= p < |s.locals| ::
               t.locals[p].pc == s.locals[p].pc || (Idle(t.locals[p].pc) && Idle(s.locals[p].pc))
    ensures Pcs(c, t.shared, t.locals)
  {
    forall p | 0 <= p < |t.locals|
      ensures BuildPc(c, t.shared, p, t.locals[p].pc)
    {
      assert BuildPc(c, s.shared, p, s.locals[p].pc);
      if SharesKey(s.shared) {
        SharesKeyKept(s.shared, t.shared);
      }
    }
  }

  lemma QuietChecks(s: State, t: State)
    requires AllChecked(s.shared, s.locals) && SameTables(s.shared, t.shared) && |t.locals| == |s.locals|
    requires forall p | 0 <= p < |s.locals| ::
               t.locals[p].pc == s.locals[p].pc || (Idle(t.locals[p].pc) && Idle(s.locals[p].pc))
    ensures AllChecked(t.shared, t.locals)
  {
    hide PairChecked;
    assert KeepsChecks(s.shared, t.shared, s.locals, t.locals);
    CheckedKept(s.shared, t.shared, s.locals, t.locals);
  }

  lemma EmptyBuilding(c: Config, g: Shared, locals: seq<Local>)
    requires EmptyTables(c, g) && forall p | 0 <= p < |locals| :: Idle(locals[p].pc)
    ensures Building(c, State(g, locals))
  {
    forall b | 0 <= b < |g.buckets|
      ensures StackOk(c, g, b) && StackChecked(g, locals, g.history.stacks[b])
    {}
    forall i | 0 <= i < |g.chunks|
      ensures ChunkDone(g, locals, i)
    {}
  }

  // ----- facts read off the invariants -----

  lemma {:induction false} OccMeansMember(parts: seq<seq<Row>>, x: Row)
    ensures FlatOcc(parts, x) > 0 <==> exists i :: 0 <= i < |parts| && x in parts[i]
  {
    if parts != [] {
      OccMeansMember(parts[1..], x);
      if FlatOcc(parts[1..], x) > 0 {
        var i :| 0 <= i < |parts[1..]| && x in parts[1..][i];
        assert x in parts[i + 1];
      }
      if exists i :: 0 <= i < |parts| && x in parts[i] {
        var i :| 0 <= i < |parts| && x in parts[i];
        if i > 0 {
          assert x in parts[1..][i - 1];
        }
      }
    }
  }

  /** While nobody spills, every row of a chunk is a build row. */
  lemma ChunkKeys(c: Config, s: State)
    requires c.Valid() && Conserved(c, s) && !s.shared.spilled
    ensures KeysFine(c, s.shared.chunks)
  {
    hide FlatOcc, SumOf;
    forall i, r | 0 <= i < |s.shared.chunks| && 0 <= r < |s.shared.chunks[i]|
      ensures |s.shared.chunks[i][r].key| == c.nkeys
    {
      var x := s.shared.chunks[i][r];
      OccMeansMember(s.shared.chunks, x);
      assert SumOf(OccIn(x), s.locals) + SharedOcc(s.shared, x) == FlatOcc(c.build, x);
      OccMeansMember(c.build, x);
    }
  }

  lemma RangeHolds(c: Config, s: State, p: nat)
    requires Control(c, s) && ChainInv(c, s) && p < |s.locals|
    ensures PcInRange(s.shared, s.locals[p].pc)
  {
    hide ChunksOk, AllEmpty, Chains, SharesKey, AllChecked, Claims;
    var g, pc := s.shared, s.locals[p].pc;
    assert LocalOk(GistOf(g), s.locals[p]);
    if !Idle(pc) {
      assert BuildPc(c, g, p, pc);
      TablesHold(c, g);
      if pc.Walk? && pc.link > 0 {
        WalkTarget(c, g, p, pc);
      }
    }
  }

  lemma TablesHold(c: Config, g: Shared)
    requires Chains(c, g)
    ensures Tables(c, g)
  {}

  lemma WalkTarget(c: Config, g: Shared, p: nat, pc: Pc)
    requires Chains(c, g) && pc.Walk? && BuildPc(c, g, p, pc) && pc.link > 0
    ensures ValidId(g.chunks, pc.link - 1)
  {
    hide Chains, StackOk;
    var b := BucketOf(c, |g.buckets|, g.chunks[pc.index][pc.row].key);
    StackAt(c, g, b);
    SuffixNext(c, g, b, pc.below);
  }

  lemma StackAt(c: Config, g: Shared, b: nat)
    requires Chains(c, g) && b < |g.history.stacks|
    ensures b < |g.buckets| == |g.history.stacks| && StackOk(c, g, b)
  {}

  lemma InvSound(c: Config, s: State)
    requires Control(c, s) && ChainInv(c, s)
    ensures Sound(c, s)
  {
    hide ChainInv, PcInRange, LocalOk, ChunksOk;
    forall p | 0 <= p < |s.locals|
      ensures |s.locals[p].files| == c.npartitions && PcInRange(s.shared, s.locals[p].pc)
    {
      RangeHolds(c, s, p);
    }
  }

  // ----- the chain invariant is kept -----

  lemma CollectQuiet(c: Config, g: Shared, l: Local)
    requires c.npartitions > 0
    ensures var h := CollectNext(c, g, l).shared; h.phase == g.phase && h.dup == g.dup && h.history.claimedBy == g.history.claimedBy
  {
    hide Reservation, Route;
  }

  lemma SetupChain(c: Config, s: State, p: nat)
    requires Control(c, s) && Sound(c, s) && Accounted(c, s) && ChainInv(c, s) && s.shared.phase == 1 && p < |s.locals|
    requires PhaseOf(s.locals[p].pc) == Some(1)
    ensures var e := StepOf(c, s, p); ChainInv(c, State(e.shared, s.locals[p := e.local]))
  {
    hide BucketCount, PcInRange, HasBuildRows, ChunksOk, LocalOk, Accounted;
    if !s.shared.spilled && s.shared.chunks != [] {
      BucketsReserved(c, s);
    }
    var e := StepOf(c, s, p);
    var after := s.locals[p := e.local];
    BucketsExist(s.shared.buildRows);
    if AnySetup(s.locals) && s.locals[p].pc != Setup {
      var q :| 0 <= q < |s.locals| && s.locals[q].pc == Setup;
      assert after[q].pc == Setup;
    }
  }

  lemma BucketsExist(rows: nat)
    ensures BucketCount(rows) > 0
  {}

  lemma ProbeQuiet(c: Config, hasBuildRows: Row -> bool, g: Shared, l: Local)
    requires c.npartitions > 0 && PhaseOf(l.pc) == Some(3)
    ensures var e := ProbeNext(c, hasBuildRows, g, l);
            SameTables(g, e.shared) && e.shared.phase == g.phase && e.shared.spilled == g.spilled && Idle(e.local.pc) && Idle(l.pc)
  {
    hide Route;
  }

  lemma ActChain(c: Config, s: State, p: nat)
    requires c.Valid() && Control(c, s) && Sound(c, s) && Accounted(c, s) && ChainInv(c, s)
    requires p < |s.locals| && PhaseOf(s.locals[p].pc) != None
    ensures var e := StepOf(c, s, p); ChainInv(c, State(e.shared, s.locals[p := e.local]))
  {
    hide Building, CollectNext, BuildNext, ProbeNext, SetupNext, PcInRange, HasBuildRows, Accounted, EmptyTables;
    hide Fine, SharedOk, PcOk;
    hide AllEmpty;
    var g, l, e := s.shared, s.locals[p], StepOf(c, s, p);
    assert LocalOk(GistOf(g), l);
    StepFine(c, s, p);
    FineGrows(c, g, l, e);
    if g.phase == 0 {
      CollectQuiet(c, g, l);
    } else if g.phase == 1 {
      SetupChain(c, s, p);
    } else if !g.spilled {
      if g.phase == 2 {
        ChunkKeys(c, s) by { ConservedHolds(c, s); }
        ChunksFine(c, g);
        BuildStep(c, g, s.locals, p);
      } else {
        ProbeQuiet(c, HasBuildRows(c, s.locals), g, l);
        QuietMoves(c, s, State(e.shared, s.locals[p := e.local]));
      }
    }
  }

  lemma FineGrows(c: Config, g: Shared, l: Local, e: Effect)
    requires Fine(c, g, l, e)
    ensures e.shared.phase == g.phase && (g.phase >= 1 ==> e.shared.spilled == g.spilled)
  {}

  lemma ChunksFine(c: Config, g: Shared)
    requires SharedOk(c, g)
    ensures ChunksOk(g.chunks)
  {}

  lemma ConservedHolds(c: Config, s: State)
    requires Accounted(c, s)
    ensures Conserved(c, s)
  {}

  lemma AttachChain(c: Config, s: State, p: nat)
    requires ChainInv(c, s) && Sound(c, s) && Enabled(s, Attach(p))
    ensures ChainInv(c, Apply(c, s, Attach(p)))
  {
    hide EmptyTables, Building;
    var t := Apply(c, s, Attach(p));
    if AnySetup(s.locals) {
      var q :| 0 <= q < |s.locals| && s.locals[q].pc == Setup;
      assert t.locals[q].pc == Setup;
    }
  }

  lemma AdvanceChain(c: Config, s: State, leader: nat)
    requires Control(c, s) && ChainInv(c, s) && Sound(c, s) && Enabled(s, Advance(leader))
    ensures ChainInv(c, Apply(c, s, Advance(leader)))
  {
    hide Building, LocalOk, ChunksOk, EmptyTables;
    var t := Apply(c, s, Advance(leader));
    if s.shared.phase == 0 {
      assert t.locals[leader].pc == Setup;
    } else if !s.shared.spilled {
      assert !AnySetup(s.locals);
      if s.shared.phase == 1 {
        TablesKept(c, s.shared, t.shared);
        EmptyBuilding(c, t.shared, t.locals);
      } else {
        QuietMoves(c, s, t);
      }
    }
  }

  lemma TablesKept(c: Config, g: Shared, h: Shared)
    requires EmptyTables(c, g) && h == g.(phase := h.phase)
    ensures EmptyTables(c, h)
  {}

  // ----- where the build rows end up when the join has spilled -----

  lemma {:induction false} SumPositive(f: Local -> nat, locals: seq<Local>)
    ensures SumOf(f, locals) > 0 <==> exists p :: 0 <= p < |locals| && f(locals[p]) > 0
  {
    if locals != [] {
      SumPositive(f, locals[1..]);
      if SumOf(f, locals[1..]) > 0 {
        var p :| 0 <= p < |locals[1..]| && f(locals[1..][p]) > 0;
        assert f(locals[p + 1]) > 0;
      }
      if exists p :: 0 <= p < |locals| && f(locals[p]) > 0 {
        var p :| 0 <= p < |locals| && f(locals[p]) > 0;
        if p > 0 {
          assert f(locals[1..][p - 1]) > 0;
        }
      }
    }
  }

  lemma {:induction false} PlacedFrom(files: seq<seq<Row>>, part: Key -> nat, from: nat, x: Row)
    requires forall q, k | 0 <= q < |files| && 0 <= k < |files[q]| :: part(files[q][k].key) == from + q
    ensures FlatOcc(files, x) ==
            if from <= part(x.key) < from + |files| then Occ(files[part(x.key) - from], x) else 0
  {
    if files != [] {
      PlacedFrom(files[1..], part, from + 1, x);
      if Occ(files[0], x) > 0 {
        assert x in files[0];
        var k :| 0 <= k < |files[0]| && files[0][k] == x;
      }
    }
  }

  /** All occurrences of a row in one participant's files are in the file of its partition. */
  lemma PlacedOcc(files: seq<seq<Row>>, part: Key -> nat, x: Row)
    requires PlacedIn(part, files)
    ensures FlatOcc(files, x) == if part(x.key) < |files| then Occ(files[part(x.key)], x) else 0
    ensures forall q | 0 <= q < |files| && q != part(x.key) :: Occ(files[q], x) == 0
  {
    PlacedFrom(files, part, 0, x);
    forall q | 0 <= q < |files| && q != part(x.key)
      ensures Occ(files[q], x) == 0
    {
      OtherFile(files[q], part, q, x);
    }
  }

  lemma OtherFile(file: seq<Row>, part: Key -> nat, q: nat, x: Row)
    requires forall k | 0 <= k < |file| :: part(file[k].key) == q
    requires part(x.key) != q
    ensures Occ(file, x) == 0
  {
    assert forall k | 0 <= k < |file| :: file[k] != x;
  }

  /** How often a participant wrote the row to its build file of partition `q`. */
  ghost function PartOccIn(q: nat, x: Row): Local -> nat {
    (l: Local) => if q < |l.files| then Occ(l.files[q], x) else 0
  }

  ghost function ProbePartOccIn(q: nat, x: Row): Local -> nat {
    (l: Local) => if q < |l.probeFiles| then Occ(l.probeFiles[q], x) else 0
  }

  /** From phase 3 on a participant has build rows in its files only. */
  lemma Settled(g: Gist, l: Local, x: Row)
    requires LocalOk(g, l) && g.phase >= 3
    ensures LocalOcc(x, l) == FlatOcc(l.files, x)
  {
    hide AllEmpty, FlatOcc, Occ;
  }

  /** In a spilled run every build row is, when probing starts, in exactly one
      participant's file, the one of its partition. */
  lemma SpilledRows(c: Config, s: State, q: nat, x: Row)
    requires Control(c, s) && Accounted(c, s) && Placement(c, s) && s.shared.phase >= 3 && s.shared.spilled && q < c.npartitions
    ensures SumOf(PartOccIn(q, x), s.locals) == if c.Part()(x.key) == q then FlatOcc(c.build, x) else 0
  {
    hide FlatOcc, SumOf, PlacedIn, LocalOcc, Occ, LocalOk;
    var g := GistOf(s.shared);
    PartOfBound(c.hash, 0, c.npartitions);
    forall p | 0 <= p < |s.locals|
      ensures PartOccIn(q, x)(s.locals[p]) == if c.Part()(x.key) == q then OccIn(x)(s.locals[p]) else 0
    {
      assert LocalPlaced(c.Part(), s.locals[p]);
      Settled(g, s.locals[p], x);
      PlacedOcc(s.locals[p].files, c.Part(), x);
    }
    if c.Part()(x.key) == q {
      SumSame(PartOccIn(q, x), s.locals, s.locals);
      SumEqual(PartOccIn(q, x), OccIn(x), s.locals);
      NothingHeld(c, s, x);
    } else {
      SumZero(PartOccIn(q, x), s.locals);
    }
  }

  lemma NothingHeld(c: Config, s: State, x: Row)
    requires Control(c, s) && Accounted(c, s) && s.shared.phase >= 3 && s.shared.spilled
    ensures SumOf(OccIn(x), s.locals) == FlatOcc(c.build, x)
  {
    hide SumOf, LocalOk;
    assert SumOf(OccIn(x), s.locals) + SharedOcc(s.shared, x) == FlatOcc(c.build, x);
    assert Held(s.shared) == [];
  }

  lemma {:induction false} SumEqual(f: Local -> nat, h: Local -> nat, locals: seq<Local>)
    requires forall p | 0 <= p < |locals| :: f(locals[p]) == h(locals[p])
    ensures SumOf(f, locals) == SumOf(h, locals)
  {
    if locals != [] {
      SumEqual(f, h, locals[1..]);
    }
  }

  // ----- the counts that partition_probe reads are final -----

  /** Some build row belongs to the partition. */
  ghost predicate HasBuild(c: Config, q: nat)
    requires c.npartitions > 0
  {
    exists i, r :: 0 <= i < |c.build| && 0 <= r < |c.build[i]| && c.Part()(c.build[i][r].key) == q
  }

  lemma {:induction false} PublishedPositive(locals: seq<Local>, q: nat)
    requires forall p | 0 <= p < |locals| :: q < |locals[p].files|
    ensures PublishedRows(locals, q) > 0 <==> exists p :: 0 <= p < |locals| && locals[p].buildDone && locals[p].files[q] != []
  {
    if locals != [] {
      var n := |locals| - 1;
      PublishedPositive(locals[..n], q);
      if exists p :: 0 <= p < |locals| && locals[p].buildDone && locals[p].files[q] != [] {
        var p :| 0 <= p < |locals| && locals[p].buildDone && locals[p].files[q] != [];
        if p < n {
          assert locals[..n][p].buildDone;
        }
      }
      if PublishedRows(locals[..n], q) > 0 {
        var p :| 0 <= p < n && locals[..n][p].buildDone && locals[..n][p].files[q] != [];
        assert locals[p].buildDone;
      }
    }
  }

  lemma PublishedExact(c: Config, s: State, q: nat)
    requires Control(c, s) && Sound(c, s) && Accounted(c, s) && Placement(c, s)
    requires s.shared.phase >= 3 && s.shared.spilled && q < c.npartitions
    ensures PublishedRows(s.locals, q) > 0 <==> HasBuild(c, q)
  {
    hide SumOf, FlatOcc, Accounted, PcInRange, PlacedIn, LocalOk, ChunksOk;
    PublishedPositive(s.locals, q);
    if PublishedRows(s.locals, q) > 0 {
      var p :| 0 <= p < |s.locals| && s.locals[p].buildDone && s.locals[p].files[q] != [];
      FirstInFile(c, s, q, p);
    }
    if HasBuild(c, q) {
      var i, r :| 0 <= i < |c.build| && 0 <= r < |c.build[i]| && c.Part()(c.build[i][r].key) == q;
      var x := c.build[i][r];
      OccMeansMember(c.build, x);
      SpilledRows(c, s, q, x);
      SumPositive(PartOccIn(q, x), s.locals);
      var p :| 0 <= p < |s.locals| && PartOccIn(q, x)(s.locals[p]) > 0;
      assert LocalOk(GistOf(s.shared), s.locals[p]);
      HolderFinished(GistOf(s.shared), s.locals[p], q);
    }
  }

  lemma FirstInFile(c: Config, s: State, q: nat, p: nat)
    requires Control(c, s) && Accounted(c, s) && Placement(c, s)
    requires s.shared.phase >= 3 && s.shared.spilled && q < c.npartitions && p < |s.locals| && s.locals[p].files[q] != []
    ensures HasBuild(c, q)
  {
    hide SumOf, FlatOcc, Accounted, LocalOk, ChunksOk;
    var x := s.locals[p].files[q][0];
    assert LocalPlaced(c.Part(), s.locals[p]);
    assert PartOccIn(q, x)(s.locals[p]) > 0;
    SumPositive(PartOccIn(q, x), s.locals);
    SpilledRows(c, s, q, x);
    OccMeansMember(c.build, x);
    var i :| 0 <= i < |c.build| && x in c.build[i];
    var r :| 0 <= r < |c.build[i]| && c.build[i][r] == x;
  }

  lemma HolderFinished(g: Gist, l: Local, q: nat)
    requires LocalOk(g, l) && g.phase >= 3 && g.spilled && q < |l.files| && l.files[q] != []
    ensures l.buildDone
  {}

  // ----- the probe rows of a spilled run -----

  ghost function ProbeOccIn(x: Row): Local -> nat {
    (l: Local) => FlatOcc(l.probeFiles, x)
  }

  /** Occurrences of a probe row that has to be written. */
  ghost function KeptOcc(c: Config, pool: seq<seq<Row>>, x: Row): nat
    requires c.npartitions > 0
  {
    if HasBuild(c, c.Part()(x.key)) then FlatOcc(pool, x) else 0
  }

  /** Probe rows are written once if their partition has build rows, else dropped. */
  ghost predicate ProbeConserved(c: Config, s: State)
    requires c.npartitions > 0
  {
    s.shared.spilled && s.shared.phase >= 3 ==>
      forall x: Row :: SumOf(ProbeOccIn(x), s.locals) + KeptOcc(c, s.shared.probePool, x) == KeptOcc(c, c.probe, x)
  }

  /** The invariant of every reachable state. */
  ghost predicate Inv(c: Config, s: State) {
    && Control(c, s) && Accounted(c, s) && ChainInv(c, s) && Placement(c, s) && ProbeConserved(c, s)
  }

  lemma SelectOcc(rows: seq<Row>, f: Row -> bool, x: Row)
    ensures Occ(Select(rows, f), x) == if f(x) then Occ(rows, x) else 0
  {
    SelectCount(rows, f, x);
  }

  lemma ProbeStepOcc(c: Config, s: State, p: nat, x: Row)
    requires Control(c, s) && Sound(c, s) && Accounted(c, s) && Placement(c, s) && p < |s.locals|
    requires s.shared.phase == 3 && s.shared.spilled && PhaseOf(s.locals[p].pc) == Some(3)
    ensures var e := StepOf(c, s, p);
            FlatOcc(e.local.probeFiles, x) + KeptOcc(c, e.shared.probePool, x) ==
            FlatOcc(s.locals[p].probeFiles, x) + KeptOcc(c, s.shared.probePool, x)
  {
    hide HasBuild, Accounted, Occ, Select, Route, PcInRange, PublishedRows, LocalOk, ChunksOk, PlacedIn;
    var l, pool := s.locals[p], s.shared.probePool;
    var q := c.Part()(x.key);
    PartOfBound(c.hash, 0, c.npartitions);
    if l.pc == PartitionProbe && pool != [] {
      var kept := Select(pool[0], HasBuildRows(c, s.locals));
      RouteOcc(l.probeFiles, kept, c.Part(), x);
      SelectOcc(pool[0], HasBuildRows(c, s.locals), x);
      PublishedExact(c, s, q);
    }
  }

  lemma ActProbe(c: Config, s: State, p: nat)
    requires Inv(c, s) && Sound(c, s) && p < |s.locals| && PhaseOf(s.locals[p].pc) != None
    ensures var e := StepOf(c, s, p); ProbeConserved(c, State(e.shared, s.locals[p := e.local]))
  {
    hide Accounted, ChainInv, Placement, SumOf, KeptOcc, StepOf, FlatOcc, SharedOk, Fine;
    var g, e := s.shared, StepOf(c, s, p);
    StepFine(c, s, p);
    FineGrows(c, g, s.locals[p], e);
    if g.phase >= 3 && g.spilled {
      ActingPhase(GistOf(g), s.locals[p]) by { assert LocalOk(GistOf(g), s.locals[p]); }
      forall x: Row
        ensures SumOf(ProbeOccIn(x), s.locals[p := e.local]) + KeptOcc(c, e.shared.probePool, x) == KeptOcc(c, c.probe, x)
      {
        SumUpdate(ProbeOccIn(x), s.locals, p, e.local);
        ProbeStepOcc(c, s, p, x);
      }
    }
  }

  lemma ActingPhase(g: Gist, l: Local)
    requires LocalOk(g, l) && PhaseOf(l.pc) != None
    ensures PhaseOf(l.pc) == Some(g.phase) && g.phase <= 3
  {}

  lemma AdvanceProbe(c: Config, s: State, leader: nat)
    requires Inv(c, s) && Sound(c, s) && Enabled(s, Advance(leader))
    ensures ProbeConserved(c, Apply(c, s, Advance(leader)))
  {
    hide Accounted, ChainInv, Placement, FlatOcc, ChunksOk, PcInRange;
    var t := Apply(c, s, Advance(leader));
    if t.shared.phase >= 3 && t.shared.spilled {
      forall x: Row
        ensures SumOf(ProbeOccIn(x), t.locals) + KeptOcc(c, t.shared.probePool, x) == KeptOcc(c, c.probe, x)
      {
        if s.shared.phase < 3 {
          forall p | 0 <= p < |t.locals|
            ensures ProbeOccIn(x)(t.locals[p]) == 0
          {
            assert LocalOk(GistOf(s.shared), s.locals[p]);
            EmptyOcc(s.locals[p].probeFiles, x);
          }
          SumZero(ProbeOccIn(x), t.locals);
        } else {
          SumSame(ProbeOccIn(x), s.locals, t.locals);
        }
      }
    }
  }

  lemma PlacementKept(c: Config, s: State, m: Move)
    requires Sound(c, s) && Placement(c, s) && Enabled(s, m)
    ensures Placement(c, Apply(c, s, m))
  {
    hide PcInRange, PlacedIn, StepOf;
    var t := Apply(c, s, m);
    forall p | 0 <= p < |t.locals|
      ensures LocalPlaced(c.Part(), t.locals[p])
    {
      assert LocalPlaced(c.Part(), s.locals[p]);
      if m.Act? && m.p == p {
        StepPlaced(c, s, p);
      }
    }
  }

  /** Every enabled move keeps the invariant. */
  lemma MoveKeeps(c: Config, s: State, m: Move)
    requires c.Valid() && Inv(c, s) && Enabled(s, m)
    ensures Sound(c, s) && Inv(c, Apply(c, s, m))
  {
    hide Control, Accounted, ChainInv, StepOf, Sound;
    InvSound(c, s);
    PlacementKept(c, s, m);
    match m {
      case Attach(p) =>
        AttachMoves(c, s, p);
      case Act(p) =>
        ActControl(c, s, p);
        ActRows(c, s, p);
        ActChain(c, s, p);
        ActProbe(c, s, p);
      case Advance(leader) =>
        AdvanceControl(c, s, leader);
        AdvanceRows(c, s, leader);
        AdvanceChain(c, s, leader);
        AdvanceProbe(c, s, leader);
    }
  }

  lemma AttachMoves(c: Config, s: State, p: nat)
    requires Inv(c, s) && Sound(c, s) && Enabled(s, Attach(p))
    ensures var t := Apply(c, s, Attach(p)); Control(c, t) && Accounted(c, t) && ChainInv(c, t) && ProbeConserved(c, t)
  {
    hide Control, Accounted, ChainInv, Sound, Placement;
    AttachControl(c, s, p);
    AttachRows(c, s, p);
    AttachChain(c, s, p);
  }

  /** A run: any sequence of moves, each enabled when it is made. */
  ghost predicate Run(c: Config, s: State, moves: seq<Move>, t: State)
    decreases |moves|
  {
    if moves == [] then t == s
    else Sound(c, s) && Enabled(s, moves[0]) && Run(c, Apply(c, s, moves[0]), moves[1..], t)
  }

  lemma {:induction false} RunKeeps(c: Config, s: State, moves: seq<Move>, t: State)
    requires c.Valid() && Inv(c, s) && Run(c, s, moves, t)
    ensures Inv(c, t)
    decreases |moves|
  {
    if moves != [] {
      MoveKeeps(c, s, moves[0]);
      RunKeeps(c, Apply(c, s, moves[0]), moves[1..], t);
    }
  }

  lemma InitialInv(c: Config)
    requires c.Valid()
    ensures Inv(c, Initial(c)) && Sound(c, Initial(c))
  {
    var s := Initial(c);
    var l := Unattached(c);
    forall x: Row
      ensures SumOf(OccIn(x), s.locals) == 0
    {
      EmptyOcc(l.files, x);
      SumZero(OccIn(x), s.locals);
    }
    SumZero(Uncounted, s.locals);
    SumZero(HasChunk, s.locals);
  }

  /** A state of some run of the join. */
  ghost predicate Reachable(c: Config, s: State) {
    exists moves :: Run(c, Initial(c), moves, s)
  }

  lemma ReachableInv(c: Config, s: State)
    requires c.Valid() && Reachable(c, s)
    ensures Inv(c, s)
  {
    var moves :| Run(c, Initial(c), moves, s);
    InitialInv(c);
    RunKeeps(c, Initial(c), moves, s);
  }
}
