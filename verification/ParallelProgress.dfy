/** The parallel join always goes on: no reachable state is stuck, no schedule runs forever,
    and every schedule ends with all participants ready to probe. The retry loop of the
    compare-and-swap and the duplicate walk are the places where this is not obvious.
    (nodes/parallel_hash_join.c, build_parallel_hash and build_or_spill_chunks) */
module ParallelProgress {
  import opened Hashing
  import opened JoinPairs
  import opened ParallelChains
  import opened ParallelControl
  import opened ParallelPartitions
  import opened ParallelResults
  import opened ParallelRows
  import opened ParallelRuns
  import opened ParallelState
  import opened Selecting
  import opened Sizes
  import opened Vectors

  /** Somebody is attached, and everybody who is may probe. */
  ghost predicate Finished(s: State) {
    && (exists p :: 0 <= p < |s.locals| && s.locals[p].pc != Detached)
    && forall p | 0 <= p < |s.locals| :: s.locals[p].pc == Detached || s.locals[p].pc == Ready
  }

  // ----- nobody is stuck -----

  /** The barrier is not passed before somebody has come to it. */
  ghost predicate Opened(s: State) {
    s.shared.phase > 0 ==> exists p :: 0 <= p < |s.locals| && s.locals[p].pc != Detached
  }

  lemma StaysAttached(c: Config, s: State, p: nat)
    requires Sound(c, s) && p < |s.locals| && s.locals[p].pc != Detached
    ensures StepOf(c, s, p).local.pc != Detached && StepOf(c, s, p).shared.phase == s.shared.phase
  {
    hide Route, HasBuildRows, BucketOf, SamePrefix, PcInRange, RowAt, Reservation, BucketCount;
  }

  lemma OpenedKept(c: Config, s: State, m: Move)
    requires Sound(c, s) && Enabled(s, m) && Opened(s)
    ensures Opened(Apply(c, s, m))
  {
    hide Sound, StepOf;
    var t := Apply(c, s, m);
    match m {
      case Attach(p) =>
        assert t.locals[p].pc != Detached;
      case Act(p) =>
        StaysAttached(c, s, p);
        assert t.locals[p].pc != Detached;
      case Advance(leader) =>
        assert t.locals[leader].pc != Detached;
    }
  }

  lemma {:induction false} OpenedRun(c: Config, s: State, moves: seq<Move>, t: State)
    requires Opened(s) && Run(c, s, moves, t)
    ensures Opened(t)
    decreases |moves|
  {
    if moves != [] {
      OpenedKept(c, s, moves[0]);
      OpenedRun(c, Apply(c, s, moves[0]), moves[1..], t);
    }
  }

  /** Every reachable state that is not finished has a move: someone may attach, someone may
      act, or all who are attached wait and the barrier lets them go on. */
  lemma CanGoOn(c: Config, s: State)
    requires c.Valid() && c.participants > 0 && Reachable(c, s) && !Finished(s)
    ensures exists m :: Enabled(s, m)
  {
    hide Run, Inv;
    ReachableInv(c, s);
    assert Control(c, s) by { InvSound(c, s); InvControl(c, s); }
    var moves :| Run(c, Initial(c), moves, s);
    OpenedRun(c, Initial(c), moves, s);
    if p :| 0 <= p < |s.locals| && PhaseOf(s.locals[p].pc) != None {
      assert Enabled(s, Act(p));
    } else if p :| 0 <= p < |s.locals| && s.locals[p].pc == Waiting {
      assert LocalOk(GistOf(s.shared), s.locals[p]);
      forall q | 0 <= q < |s.locals|
        ensures s.locals[q].pc == Detached || s.locals[q].pc == Waiting
      {
        assert LocalOk(GistOf(s.shared), s.locals[q]);
        NotBoth(GistOf(s.shared), s.locals[p], s.locals[q]);
      }
      assert Enabled(s, Advance(p));
    } else {
      assert s.locals[0].pc == Detached;
      assert Enabled(s, Attach(0));
    }
  }

  lemma InvControl(c: Config, s: State)
    requires Inv(c, s)
    ensures Control(c, s)
  {}

  lemma NotBoth(g: Gist, a: Local, b: Local)
    requires LocalOk(g, a) && LocalOk(g, b) && a.pc == Waiting && PhaseOf(b.pc) == None
    ensures b.pc == Detached || b.pc == Waiting
  {}

  // ----- what is left to do -----

  lemma {:induction false} TimesGrows(weight: nat, m: nat, n: nat)
    requires m <= n
    ensures Times(weight, m) <= Times(weight, n)
  {
    if m < n {
      TimesGrows(weight, m, n - 1);
    }
  }

  function NotAttached(l: Local): nat {
    if l.pc == Detached then 1 else 0
  }

  /** Attachments and phases still to come. */
  ghost function Ahead(s: State): nat {
    SumOf(NotAttached, s.locals) + if s.shared.phase < 4 then 4 - s.shared.phase else 0
  }

  function ThenWork(cont: Then): nat {
    match cont
    case ToAppend(rows) => 20 * |rows| + 19
    case ToSpill(_) => 8
    case ToBarrier => 3
  }

  /** Phase 0: what a participant has to do before it waits. */
  function CollectWork(l: Local): nat {
    match l.pc
    case Collect => 5
    case CheckSpill(rows) => 20 * |rows| + 21
    case Append(rows) => 20 * |rows| + if l.chunk == None then 18 else 12
    case StartChunk(rows) => 20 * |rows| + 17
    case Reserve(rows) => 20 * |rows| + 16
    case MarkSpilled(_) => 11
    case Leftover(_) => 10
    case Publish(cont) => ThenWork(cont) + 1
    case CountChunk(_, cont) => ThenWork(cont)
    case SpillBatch(_) => 7
    case CountSpilled(_) => 6
    case _ => 0
  }

  function PoolWork(pool: seq<seq<Row>>): nat {
    if pool == [] then 0 else 20 * |pool[0]| + 22 + PoolWork(pool[1..])
  }

  function SetupWork(l: Local): nat {
    match l.pc
    case Setup => 2
    case Arrive => 1
    case _ => 0
  }

  function ProbeWork(l: Local): nat {
    match l.pc
    case CheckProbe => 3
    case PartitionProbe => 2
    case FinishProbe => 1
    case _ => 0
  }

  /** Phase 2: a bound on the work for one row. A push can make the heads that all `n` others
      read stale, and the walk after it passes each stored row at most once. */
  function RowWork(g: Shared, n: nat): nat {
    2 * n + |g.chunks| * CHUNK_ROWS + 20
  }

  function RowsFrom(g: Shared, index: nat, row: nat): nat {
    if index < |g.chunks| && row <= |g.chunks[index]| then |g.chunks[index]| - row else 0
  }

  /** The head a participant read is still the head of its bucket. */
  predicate Fresh(c: Config, g: Shared, index: nat, row: nat, head: nat) {
    && index < |g.chunks| && row < |g.chunks[index]| && g.buckets != []
    && g.buckets[BucketOf(c, |g.buckets|, g.chunks[index][row].key)] == head
  }

  function PcWork(c: Config, g: Shared, n: nat, pc: Pc): nat {
    var w := RowWork(g, n);
    match pc
    case ReadSpilled => 4
    case Claim(_) => 3
    case SpillChunk(_) => 4
    case FinishBuild => 1
    case NextRow(i, r) => Times(w, RowsFrom(g, i, r)) + 4
    case SetLink(i, r, head) => Times(w, RowsFrom(g, i, r + 1)) + w - if Fresh(c, g, i, r, head) then 3 else 1
    case Cas(i, r, head) => Times(w, RowsFrom(g, i, r + 1)) + w - if Fresh(c, g, i, r, head) then 4 else 2
    case Detect(i, r, below) => Times(w, RowsFrom(g, i, r + 1)) + 7 + |below|
    case Walk(i, r, _, below) => Times(w, RowsFrom(g, i, r + 1)) + 6 + |below|
    case SetDuplicate(i, r) => Times(w, RowsFrom(g, i, r + 1)) + 5
    case _ => 0
  }

  function BuildWork(c: Config, g: Shared, n: nat): Local -> nat {
    (l: Local) => PcWork(c, g, n, l.pc)
  }

  /** Chunks nobody has claimed yet. */
  function ChunkWork(g: Shared, n: nat): nat {
    Times(Times(RowWork(g, n), CHUNK_ROWS) + 5, if g.nextChunk < |g.chunks| then |g.chunks| - g.nextChunk else 0)
  }

  /** What is left to do in the current phase. */
  ghost function Work(c: Config, s: State): nat {
    var g, n := s.shared, |s.locals|;
    if g.phase == 0 then PoolWork(g.pool) + SumOf(CollectWork, s.locals)
    else if g.phase == 1 then SumOf(SetupWork, s.locals)
    else if g.phase == 2 then ChunkWork(g, n) + SumOf(BuildWork(c, g, n), s.locals)
    else if g.phase == 3 then |g.probePool| + SumOf(ProbeWork, s.locals)
    else 0
  }

  ghost predicate Lower(c: Config, t: State, s: State) {
    Ahead(t) < Ahead(s) || (Ahead(t) == Ahead(s) && Work(c, t) < Work(c, s))
  }

  // ----- every move lowers it -----

  lemma FillLowers(c: Config, g: Shared, l: Local)
    requires c.npartitions > 0 && PhaseOf(l.pc) == Some(0) && FillsChunk(l.pc)
    ensures var e := CollectNext(c, g, l); e.shared.pool == g.pool && CollectWork(e.local) < CollectWork(l)
  {
    hide Route, Reservation;
  }

  lemma TakeBatchLowers(c: Config, g: Shared, l: Local)
    requires c.npartitions > 0 && l.pc == Collect
    ensures var e := CollectNext(c, g, l);
            PoolWork(e.shared.pool) + CollectWork(e.local) < PoolWork(g.pool) + CollectWork(l)
  {}

  lemma InputLowers(c: Config, g: Shared, l: Local)
    requires c.npartitions > 0 && PhaseOf(l.pc) == Some(0) && !FillsChunk(l.pc) && l.pc != Collect
    ensures var e := CollectNext(c, g, l); e.shared.pool == g.pool && CollectWork(e.local) < CollectWork(l)
  {
    hide Route, Reservation;
  }

  lemma CollectLowers(c: Config, g: Shared, l: Local)
    requires c.npartitions > 0 && PhaseOf(l.pc) == Some(0)
    ensures var e := CollectNext(c, g, l);
            PoolWork(e.shared.pool) + CollectWork(e.local) < PoolWork(g.pool) + CollectWork(l)
  {
    hide CollectNext, CollectWork, PoolWork, FillsChunk;
    if FillsChunk(l.pc) {
      FillLowers(c, g, l);
    } else if l.pc == Collect {
      TakeBatchLowers(c, g, l);
    } else {
      InputLowers(c, g, l);
    }
  }

  lemma SetupLowers(g: Shared, l: Local)
    requires PhaseOf(l.pc) == Some(1)
    ensures SetupWork(SetupNext(g, l).local) < SetupWork(l)
  {
    hide BucketCount;
  }

  lemma ProbeLowers(c: Config, hasBuildRows: Row -> bool, g: Shared, l: Local)
    requires c.npartitions > 0 && PhaseOf(l.pc) == Some(3)
    ensures var e := ProbeNext(c, hasBuildRows, g, l);
            |e.shared.probePool| + ProbeWork(e.local) < |g.probePool| + ProbeWork(l)
  {
    hide Route, Select;
  }

  lemma {:induction false} SumBound(f: Local -> nat, h: Local -> nat, locals: seq<Local>, d: nat)
    requires forall p | 0 <= p < |locals| :: f(locals[p]) <= h(locals[p]) + d
    ensures SumOf(f, locals) <= SumOf(h, locals) + Times(d, |locals|)
  {
    if locals != [] {
      SumBound(f, h, locals[1..], d);
    }
  }

  lemma {:induction false} Twice(n: nat)
    ensures Times(2, n) == 2 * n && Times(0, n) == 0
  {
    if n > 0 {
      Twice(n - 1);
    }
  }

  lemma {:induction false} DistinctFit(ids: seq<nat>, room: set<nat>)
    requires Distinct(ids) && forall k | 0 <= k < |ids| :: ids[k] in room
    ensures |ids| <= |room|
  {
    if ids != [] {
      DistinctFit(ids[1..], room - {ids[0]});
    }
  }

  function Below(n: nat): (r: set<nat>)
    ensures |r| == n && forall x | 0 <= x < n :: x in r
    ensures forall x | x in r :: x < n
  {
    if n == 0 then {} else Below(n - 1) + {n - 1}
  }

  /** A bucket holds no more rows than the chunks. */
  lemma StackBound(c: Config, g: Shared, b: nat)
    requires Chains(c, g) && b < |g.buckets|
    ensures |g.history.stacks[b]| <= |g.chunks| * CHUNK_ROWS
  {
    var stack := g.history.stacks[b];
    assert StackOk(c, g, b);
    forall k | 0 <= k < |stack|
      ensures stack[k] < |g.chunks| * CHUNK_ROWS
    {
      assert Pushed(g.chunks, g.history.progress, stack[k]);
    }
    DistinctFit(stack, Below(|g.chunks| * CHUNK_ROWS));
  }

  lemma TakeLowers(c: Config, me: nat, g: Shared, l: Local, n: nat)
    requires c.npartitions > 0 && ChunksOk(g.chunks)
    requires PcInRange(g, l.pc) && PhaseOf(l.pc) == Some(2) && TakesChunk(l.pc)
    ensures var e := BuildNext(c, me, g, l);
            && e.shared.chunks == g.chunks && e.shared.buckets == g.buckets
            && ChunkWork(e.shared, n) + PcWork(c, g, n, e.local.pc) < ChunkWork(g, n) + PcWork(c, g, n, l.pc)
  {
    hide Route;
    if l.pc.Claim? && g.nextChunk < |g.chunks| {
      TimesGrows(RowWork(g, n), |g.chunks[g.nextChunk]|, CHUNK_ROWS);
    }
  }

  /** Finding the next row, writing its link and failing to push it. */
  lemma LinkLowers(c: Config, me: nat, g: Shared, l: Local, n: nat)
    requires PcInRange(g, l.pc) && c.npartitions > 0
    requires l.pc.NextRow? || l.pc.SetLink? || (l.pc.Cas? && !Fresh(c, g, l.pc.index, l.pc.row, l.pc.head))
    ensures var e := BuildNext(c, me, g, l);
            && e.shared.chunks == g.chunks && e.shared.buckets == g.buckets && e.shared.nextChunk == g.nextChunk
            && PcWork(c, g, n, e.local.pc) < PcWork(c, g, n, l.pc)
  {
    hide BucketOf, LinkOf;
  }

  /** Looking for an equal key below a pushed row. */
  lemma WalkLowers(c: Config, me: nat, g: Shared, l: Local, n: nat)
    requires PcInRange(g, l.pc) && BuildPc(c, g, me, l.pc) && c.npartitions > 0
    requires l.pc.Detect? || l.pc.Walk? || l.pc.SetDuplicate?
    ensures var e := BuildNext(c, me, g, l);
            && e.shared.chunks == g.chunks && e.shared.buckets == g.buckets && e.shared.nextChunk == g.nextChunk
            && PcWork(c, g, n, e.local.pc) < PcWork(c, g, n, l.pc)
  {
    hide BucketOf, SamePrefix, LinkOf, SharesKey, Checking, At, ValidId, RowWork, Fresh;
  }

  /** A successful push costs the others at most one more try each. */
  lemma PushLowers(c: Config, me: nat, g: Shared, l: Local, n: nat)
    requires PcInRange(g, l.pc) && Chains(c, g) && c.npartitions > 0
    requires l.pc.Cas? && Fresh(c, g, l.pc.index, l.pc.row, l.pc.head)
    ensures var e := BuildNext(c, me, g, l);
            && e.shared.chunks == g.chunks && e.shared.nextChunk == g.nextChunk
            && PcWork(c, e.shared, n, e.local.pc) + 2 * n < PcWork(c, g, n, l.pc)
            && PcWork(c, g, n, l.pc) <= PcWork(c, e.shared, n, l.pc)
            && forall pc: Pc :: PcWork(c, e.shared, n, pc) <= PcWork(c, g, n, pc) + 2
  {
    hide BucketOf, SamePrefix, LinkOf, Chains;
    StackBound(c, g, BucketOf(c, |g.buckets|, g.chunks[l.pc.index][l.pc.row].key));
  }

  lemma BuildLowers(c: Config, s: State, p: nat)
    requires Inv(c, s) && Sound(c, s) && p < |s.locals| && PhaseOf(s.locals[p].pc) == Some(2) && s.shared.phase == 2
    ensures var e := StepOf(c, s, p);
            var n := |s.locals|;
            && ChunkWork(e.shared, n) + SumOf(BuildWork(c, e.shared, n), s.locals[p := e.local])
               < ChunkWork(s.shared, n) + SumOf(BuildWork(c, s.shared, n), s.locals)
  {
    hide Accounted, ChainInv, Placement, ProbeConserved, BuildNext, PcWork, ChunkWork, SumOf, TakesChunk;
    hide PcInRange, BuildPc, LocalOk, ChunksOk, Chains, Fresh;
    var g, l, n, e := s.shared, s.locals[p], |s.locals|, StepOf(c, s, p);
    var was, now := BuildWork(c, g, n), BuildWork(c, e.shared, n);
    SumUpdate(now, s.locals, p, e.local);
    Twice(n);
    if TakesChunk(l.pc) {
      TakeLowers(c, p, g, l, n);
      SameWork(c, g, e.shared, n);
      SumBound(now, was, s.locals, 0);
    } else {
      LinkingFacts(c, s, p);
      if l.pc.Cas? && Fresh(c, g, l.pc.index, l.pc.row, l.pc.head) {
        PushLowers(c, p, g, l, n);
        SumBound(now, was, s.locals, 2);
      } else {
        if l.pc.Detect? || l.pc.Walk? || l.pc.SetDuplicate? {
          WalkLowers(c, p, g, l, n);
        } else {
          LinkLowers(c, p, g, l, n) by { StillLinking(l); }
        }
        SameWork(c, g, e.shared, n);
        SumBound(now, was, s.locals, 0);
      }
      SameChunkWork(g, e.shared, n);
    }
  }

  lemma StillLinking(l: Local)
    requires PhaseOf(l.pc) == Some(2) && !TakesChunk(l.pc) && !l.pc.Detect? && !l.pc.Walk? && !l.pc.SetDuplicate?
    ensures l.pc.NextRow? || l.pc.SetLink? || l.pc.Cas?
  {}

  /** Whoever links a row does so in a run that has not spilled. */
  lemma LinkingFacts(c: Config, s: State, p: nat)
    requires Control(c, s) && ChainInv(c, s) && p < |s.locals| && s.shared.phase == 2
    requires PhaseOf(s.locals[p].pc) == Some(2) && !TakesChunk(s.locals[p].pc)
    ensures Chains(c, s.shared) && BuildPc(c, s.shared, p, s.locals[p].pc)
  {
    hide Chains, BuildPc, AllChecked, Claims;
    assert LocalOk(GistOf(s.shared), s.locals[p]);
  }

  lemma SameWork(c: Config, g: Shared, h: Shared, n: nat)
    requires h.chunks == g.chunks && h.buckets == g.buckets
    ensures forall pc: Pc :: PcWork(c, h, n, pc) == PcWork(c, g, n, pc)
  {}

  lemma SameChunkWork(g: Shared, h: Shared, n: nat)
    requires h.chunks == g.chunks && h.nextChunk == g.nextChunk
    ensures ChunkWork(h, n) == ChunkWork(g, n)
  {}

  lemma ActLowers(c: Config, s: State, p: nat)
    requires Inv(c, s) && Sound(c, s) && Enabled(s, Act(p))
    ensures Lower(c, Apply(c, s, Act(p)), s)
  {
    hide Accounted, ChainInv, Placement, ProbeConserved, SumOf, CollectNext, SetupNext, BuildNext, ProbeNext, PcInRange,
         PoolWork, CollectWork, SetupWork, ProbeWork, ChunkWork, LocalOk, ChunksOk, HasBuildRows, PhaseOf;
    var g, l, e := s.shared, s.locals[p], StepOf(c, s, p);
    StaysAttached(c, s, p) by { Acting(l); }
    ActingPhase(GistOf(g), l) by { assert LocalOk(GistOf(g), l); }
    SumUpdate(NotAttached, s.locals, p, e.local);
    Acting(l);
    match g.phase {
      case 0 => CollectLowers(c, g, l); SumUpdate(CollectWork, s.locals, p, e.local);
      case 1 => SetupLowers(g, l); SumUpdate(SetupWork, s.locals, p, e.local);
      case 2 => BuildLowers(c, s, p);
      case _ => ProbeLowers(c, HasBuildRows(c, s.locals), g, l); SumUpdate(ProbeWork, s.locals, p, e.local);
    }
  }

  lemma Acting(l: Local)
    requires PhaseOf(l.pc) != None
    ensures l.pc != Detached
  {}

  /** Every move of every run lowers what is left to do. */
  lemma MoveLowers(c: Config, s: State, m: Move)
    requires Inv(c, s) && Sound(c, s) && Enabled(s, m)
    ensures Lower(c, Apply(c, s, m), s)
  {
    hide Inv, Sound, Work, SumOf;
    var t := Apply(c, s, m);
    match m {
      case Attach(p) =>
        SumUpdate(NotAttached, s.locals, p, t.locals[p]);
      case Act(p) =>
        ActLowers(c, s, p);
      case Advance(leader) =>
        SumSame(NotAttached, s.locals, t.locals);
    }
  }

  // ----- every schedule ends -----

  /** A run in which `pick` chooses every move, up to the first finished state. */
  ghost predicate PickedRun(c: Config, pick: State -> Move, s: State, moves: seq<Move>, t: State)
    decreases |moves|
  {
    if moves == [] then t == s && Finished(s)
    else
      && !Finished(s) && Sound(c, s) && moves[0] == pick(s) && Enabled(s, moves[0])
      && PickedRun(c, pick, Apply(c, s, moves[0]), moves[1..], t)
  }

  lemma {:induction false} PickedIsRun(c: Config, pick: State -> Move, s: State, moves: seq<Move>, t: State)
    requires PickedRun(c, pick, s, moves, t)
    ensures Run(c, s, moves, t) && Finished(t)
    decreases |moves|
  {
    if moves != [] {
      PickedIsRun(c, pick, Apply(c, s, moves[0]), moves[1..], t);
    }
  }

  lemma {:induction false} RunMore(c: Config, s: State, moves: seq<Move>, t: State, m: Move)
    requires Run(c, s, moves, t) && Sound(c, t) && Enabled(t, m)
    ensures Run(c, s, moves + [m], Apply(c, t, m))
    decreases |moves|
  {
    if moves != [] {
      RunMore(c, Apply(c, s, moves[0]), moves[1..], t, m);
      assert (moves + [m])[1..] == moves[1..] + [m];
    }
  }

  lemma NextReachable(c: Config, s: State, m: Move)
    requires c.Valid() && Reachable(c, s) && Sound(c, s) && Enabled(s, m)
    ensures Reachable(c, Apply(c, s, m))
  {
    var moves :| Run(c, Initial(c), moves, s);
    RunMore(c, Initial(c), moves, s, m);
  }

  lemma ReachableSound(c: Config, s: State)
    requires c.Valid() && Reachable(c, s)
    ensures Inv(c, s) && Sound(c, s)
  {
    hide Control, ChainInv, Reachable;
    ReachableInv(c, s);
    InvSound(c, s);
  }

  /** Whoever chooses the next move, and from whatever reachable state, after finitely many
      moves everybody attached is ready to probe. */
  lemma EverySchedulerFinishes(c: Config, pick: State -> Move, s: State) returns (moves: seq<Move>, t: State)
    requires c.Valid() && c.participants > 0 && Reachable(c, s)
    requires forall r: State | Reachable(c, r) && !Finished(r) :: Enabled(r, pick(r))
    ensures PickedRun(c, pick, s, moves, t) && Reachable(c, t)
    decreases Ahead(s), Work(c, s)
  {
    hide Reachable, Finished, Enabled, Inv, Sound, Ahead, Work;
    if Finished(s) {
      return [], s;
    }
    ReachableSound(c, s);
    MoveLowers(c, s, pick(s));
    NextReachable(c, s, pick(s));
    var rest;
    rest, t := EverySchedulerFinishes(c, pick, Apply(c, s, pick(s)));
    moves := [pick(s)] + rest;
  }

  /** What everybody being ready means: the run spilled and all files are complete, or it did
      not and the table is. */
  lemma FinishedIsReady(c: Config, s: State)
    requires c.Valid() && Reachable(c, s) && Finished(s)
    ensures if s.shared.spilled then ReadyToClaim(c, s) else ReadyUnspilled(c, s)
  {
    hide Reachable, ChunksOk, AllEmpty;
    assert Control(c, s) by { ReachableSound(c, s); InvControl(c, s); }
    var p :| 0 <= p < |s.locals| && s.locals[p].pc != Detached;
    assert LocalOk(GistOf(s.shared), s.locals[p]);
  }

  // ----- when a build spills -----

  /** Rows for which a participant may still ask for memory. A chunk just granted will take at
      least one row, so the row it was asked for is not counted again. */
  function Pending(l: Local): nat {
    match l.pc
    case CheckSpill(rows) => |rows|
    case Append(rows) => if l.chunk == Some([]) && rows != [] then |rows| - 1 else |rows|
    case StartChunk(rows) => |rows|
    case Reserve(rows) => |rows|
    case Publish(cont) => ContPending(cont)
    case CountChunk(_, cont) => ContPending(cont)
    case _ => 0
  }

  function ContPending(cont: Then): nat {
    if cont.ToAppend? then |cont.rows| else 0
  }

  /** Memory asked for, and a bound on what may still be asked for. */
  ghost predicate Requested(c: Config, s: State) {
    s.shared.reserved + Times(Reservation(c.ncolumns), FlatCount(s.shared.pool) + SumOf(Pending, s.locals))
    <= Times(Reservation(c.ncolumns), FlatCount(c.build))
  }

  ghost predicate SomeoneMarks(locals: seq<Local>) {
    exists p :: 0 <= p < |locals| && locals[p].pc.MarkSpilled?
  }

  ghost predicate SpillReason(c: Config, s: State) {
    && (s.shared.spilled ==> c.planned || s.shared.reserved > c.limit)
    && (c.planned ==> s.shared.spilled)
    && (SomeoneMarks(s.locals) ==> s.shared.reserved > c.limit)
    && (s.shared.reserved > c.limit ==> s.shared.spilled || SomeoneMarks(s.locals))
  }

  lemma FillAsks(c: Config, g: Shared, l: Local)
    requires LocalOk(GistOf(g), l) && c.npartitions > 0 && PhaseOf(l.pc) == Some(0) && FillsChunk(l.pc)
    ensures var e := CollectNext(c, g, l);
            && e.shared.pool == g.pool && Pending(e.local) + (if l.pc.Reserve? then 1 else 0) <= Pending(l)
            && e.shared.reserved == g.reserved + if l.pc.Reserve? then Reservation(c.ncolumns) else 0
  {
    hide Route, Reservation, AllEmpty;
  }

  lemma TakeBatchAsks(c: Config, g: Shared, l: Local)
    requires c.npartitions > 0 && l.pc == Collect
    ensures var e := CollectNext(c, g, l);
            && FlatCount(e.shared.pool) + Pending(e.local) <= FlatCount(g.pool) + Pending(l)
            && e.shared.reserved == g.reserved
  {}

  lemma InputAsks(c: Config, g: Shared, l: Local)
    requires c.npartitions > 0 && PhaseOf(l.pc) == Some(0) && !FillsChunk(l.pc) && l.pc != Collect
    ensures var e := CollectNext(c, g, l);
            e.shared.pool == g.pool && Pending(e.local) <= Pending(l) && e.shared.reserved == g.reserved
  {
    hide Route, Reservation;
  }

  /** Only phase 0 asks for memory. */
  ghost predicate AsksNothing(g: Shared, e: Effect) {
    && Pending(e.local) == 0 && !e.local.pc.MarkSpilled? && e.shared.reserved == g.reserved
    && e.shared.spilled == g.spilled && e.shared.pool == g.pool
  }

  lemma SetupAsks(c: Config, hasBuildRows: Row -> bool, g: Shared, l: Local)
    requires c.npartitions > 0
    ensures PhaseOf(l.pc) == Some(1) ==> AsksNothing(g, SetupNext(g, l))
    ensures PhaseOf(l.pc) == Some(3) ==> AsksNothing(g, ProbeNext(c, hasBuildRows, g, l))
  {
    hide Route, BucketCount, Select;
  }

  lemma TakeAsks(c: Config, me: nat, g: Shared, l: Local)
    requires c.npartitions > 0 && PcInRange(g, l.pc) && PhaseOf(l.pc) == Some(2) && TakesChunk(l.pc)
    ensures AsksNothing(g, BuildNext(c, me, g, l))
  {
    hide Route, BucketOf, SamePrefix, RowAt, LinkOf, RowId;
  }

  lemma LinkAsks(c: Config, me: nat, g: Shared, l: Local)
    requires c.npartitions > 0 && PcInRange(g, l.pc) && PhaseOf(l.pc) == Some(2) && !TakesChunk(l.pc)
    ensures AsksNothing(g, BuildNext(c, me, g, l))
  {
    hide Route, BucketOf, SamePrefix, RowAt, LinkOf, RowId;
  }

  lemma LaterAsks(c: Config, s: State, p: nat)
    requires Sound(c, s) && p < |s.locals| && PhaseOf(s.locals[p].pc) != None && PhaseOf(s.locals[p].pc) != Some(0)
    ensures AsksNothing(s.shared, StepOf(c, s, p))
  {
    hide SetupNext, BuildNext, ProbeNext, CollectNext, HasBuildRows, PcInRange, AsksNothing;
    var l := s.locals[p];
    PhaseBound(l.pc);
    if PhaseOf(l.pc) == Some(2) {
      if TakesChunk(l.pc) {
        TakeAsks(c, p, s.shared, l);
      } else {
        LinkAsks(c, p, s.shared, l);
      }
    } else {
      SetupAsks(c, HasBuildRows(c, s.locals), s.shared, l);
    }
  }

  lemma PhaseBound(pc: Pc)
    ensures PhaseOf(pc) != None ==> PhaseOf(pc).value <= 3
  {}

  lemma ActAsks(c: Config, s: State, p: nat)
    requires Control(c, s) && Sound(c, s) && p < |s.locals| && PhaseOf(s.locals[p].pc) != None
    ensures var e := StepOf(c, s, p);
            var k := if s.locals[p].pc.Reserve? then 1 else 0;
            && FlatCount(e.shared.pool) + Pending(e.local) + k <= FlatCount(s.shared.pool) + Pending(s.locals[p])
            && e.shared.reserved == s.shared.reserved + if k == 1 then Reservation(c.ncolumns) else 0
  {
    hide LocalOk, CollectNext, Pending, FillsChunk, PcInRange, ChunksOk, Reservation;
    var l := s.locals[p];
    LocalAt(c, GistOf(s.shared), s.locals, p);
    if PhaseOf(l.pc) != Some(0) {
      LaterAsks(c, s, p);
    } else if FillsChunk(l.pc) {
      FillAsks(c, s.shared, l);
    } else if l.pc == Collect {
      TakeBatchAsks(c, s.shared, l);
    } else {
      InputAsks(c, s.shared, l);
      ReserveFills(l);
    }
  }

  lemma ReserveFills(l: Local)
    ensures l.pc.Reserve? ==> FillsChunk(l.pc)
  {}

  lemma ActRequested(c: Config, s: State, p: nat)
    requires Control(c, s) && Sound(c, s) && Requested(c, s) && Enabled(s, Act(p))
    ensures Requested(c, Apply(c, s, Act(p)))
  {
    hide Control, Sound, StepOf, Pending, SumOf, Reservation;
    var e, r, t := StepOf(c, s, p), Reservation(c.ncolumns), Apply(c, s, Act(p));
    ActAsks(c, s, p);
    SumUpdate(Pending, s.locals, p, e.local);
    var was := FlatCount(s.shared.pool) + SumOf(Pending, s.locals);
    var now := FlatCount(t.shared.pool) + SumOf(Pending, t.locals);
    if s.locals[p].pc.Reserve? {
      TimesGrows(r, now, was - 1);
    } else {
      TimesGrows(r, now, was);
    }
  }

  /** A failed reservation is followed by setting the flag, and nothing else sets it. */
  lemma ReserveReason(c: Config, s: State, p: nat)
    requires Control(c, s) && Sound(c, s) && SpillReason(c, s) && p < |s.locals| && PhaseOf(s.locals[p].pc) == Some(0)
    ensures var e := StepOf(c, s, p); SpillReason(c, State(e.shared, s.locals[p := e.local]))
  {
    hide LocalOk, PcInRange, ChunksOk, Reservation, Route, FillsChunk;
    var e := StepOf(c, s, p);
    var after := s.locals[p := e.local];
    assert after[p] == e.local && forall q | 0 <= q < |after| && q != p :: after[q] == s.locals[q];
    assert s.locals[p].pc.MarkSpilled? ==> SomeoneMarks(s.locals);
    if SomeoneMarks(s.locals) {
      var q :| 0 <= q < |s.locals| && s.locals[q].pc.MarkSpilled?;
      assert q != p ==> after[q].pc.MarkSpilled?;
    }
  }

  lemma ReasonKept(c: Config, s: State, m: Move)
    requires Inv(c, s) && Sound(c, s) && Enabled(s, m) && SpillReason(c, s) && Requested(c, s)
    ensures SpillReason(c, Apply(c, s, m)) && Requested(c, Apply(c, s, m))
  {
    hide Accounted, ChainInv, Placement, ProbeConserved, Sound, StepOf, PhaseOf, SumOf, SharedOk, LocalOk;
    var t := Apply(c, s, m);
    match m {
      case Attach(p) =>
        SumUpdate(Pending, s.locals, p, t.locals[p]);
        SameMarks(s.locals, t.locals);
      case Act(p) =>
        ActRequested(c, s, p);
        if PhaseOf(s.locals[p].pc) == Some(0) {
          ReserveReason(c, s, p);
        } else {
          LaterAsks(c, s, p);
          NoMark(s.locals[p]);
          SameMarks(s.locals, t.locals);
        }
      case Advance(leader) =>
        SumSame(Pending, s.locals, t.locals);
        SameMarks(s.locals, t.locals);
    }
  }

  lemma NoMark(l: Local)
    requires PhaseOf(l.pc) != Some(0)
    ensures !l.pc.MarkSpilled?
  {}

  lemma SameMarks(a: seq<Local>, b: seq<Local>)
    requires |a| == |b| && forall p | 0 <= p < |a| :: a[p].pc.MarkSpilled? == b[p].pc.MarkSpilled?
    ensures SomeoneMarks(a) == SomeoneMarks(b)
  {
    if SomeoneMarks(a) {
      var p :| 0 <= p < |a| && a[p].pc.MarkSpilled?;
      assert b[p].pc.MarkSpilled?;
    }
  }

  lemma {:induction false} ReasonRun(c: Config, s: State, moves: seq<Move>, t: State)
    requires c.Valid() && Inv(c, s) && SpillReason(c, s) && Requested(c, s) && Run(c, s, moves, t)
    ensures SpillReason(c, t) && Requested(c, t) && Inv(c, t)
    decreases |moves|
  {
    hide Inv, SpillReason, Requested, Enabled;
    if moves != [] {
      MoveKeeps(c, s, moves[0]);
      ReasonKept(c, s, moves[0]);
      ReasonRun(c, Apply(c, s, moves[0]), moves[1..], t);
    }
  }

  lemma ReasonReached(c: Config, s: State)
    requires c.Valid() && Reachable(c, s)
    ensures SpillReason(c, s) && Requested(c, s) && Control(c, s)
  {
    hide Inv, SharedOk, LocalOk;
    var moves :| Run(c, Initial(c), moves, s);
    InitialInv(c);
    SumZero(Pending, Initial(c).locals);
    ReasonRun(c, Initial(c), moves, s);
    InvControl(c, s);
  }

  /** Once collecting is over, the join has spilled exactly if the plan said so or more memory
      was asked for than the limit, in any interleaving. */
  lemma SpilledIff(c: Config, s: State)
    requires c.Valid() && Reachable(c, s) && s.shared.phase >= 1
    ensures s.shared.spilled <==> c.planned || s.shared.reserved > c.limit
  {
    hide Reachable, Requested, SharedOk;
    ReasonReached(c, s);
    forall p | 0 <= p < |s.locals|
      ensures !s.locals[p].pc.MarkSpilled?
    {
      NoMarkLater(GistOf(s.shared), s.locals[p]) by { assert LocalOk(GistOf(s.shared), s.locals[p]); }
    }
  }

  lemma NoMarkLater(g: Gist, l: Local)
    requires LocalOk(g, l) && g.phase >= 1
    ensures !l.pc.MarkSpilled?
  {}

  /** A limit of one reservation for every build row is enough to stay in memory. */
  lemma EnoughMemory(c: Config, s: State)
    requires c.Valid() && Reachable(c, s) && !c.planned && Times(Reservation(c.ncolumns), FlatCount(c.build)) <= c.limit
    ensures !s.shared.spilled
  {
    hide Reachable, Reservation, FlatCount, Control;
    ReasonReached(c, s);
  }

  // ----- both ends are reached -----

  ghost function SomeMove(s: State): (m: Move)
    ensures (exists n :: Enabled(s, n)) ==> Enabled(s, m)
  {
    if n :| Enabled(s, n) then n else Attach(0)
  }

  /** Every parallel join gets to probing: through files if the plan says so, and in memory if
      the plan allows it and the limit is large enough. */
  lemma ReadyIsReached(c: Config) returns (moves: seq<Move>, t: State)
    requires c.Valid() && c.participants > 0
    ensures Run(c, Initial(c), moves, t)
    ensures ReadyToClaim(c, t) || ReadyUnspilled(c, t)
    ensures c.planned ==> ReadyToClaim(c, t)
    ensures !c.planned && Times(Reservation(c.ncolumns), FlatCount(c.build)) <= c.limit ==> ReadyUnspilled(c, t)
  {
    hide Reservation, FlatCount, PickedRun, Enabled;
    var s := Initial(c);
    assert Reachable(c, s) by { assert Run(c, s, [], s); }
    forall r: State | Reachable(c, r) && !Finished(r)
      ensures Enabled(r, SomeMove(r))
    {
      CanGoOn(c, r);
    }
    moves, t := EverySchedulerFinishes(c, SomeMove, s);
    PickedIsRun(c, SomeMove, s, moves, t);
    FinishedIsReady(c, t);
    SpilledIff(c, t);
    if !c.planned && Times(Reservation(c.ncolumns), FlatCount(c.build)) <= c.limit {
      EnoughMemory(c, t);
    }
  }
}
