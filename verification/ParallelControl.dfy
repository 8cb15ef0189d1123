/** Where participants can be: what the barrier and the spill flag guarantee about
    every program counter, in every interleaving. */
module ParallelControl {
  import opened Vectors
  import opened Hashing
  import opened Sizes
  import opened JoinPairs
  import opened Partitions
  import opened Selecting
  import opened SpillRouting
  import opened ParallelState

  /** What other participants need to know of the shared state. */
  datatype Gist = Gist(phase: nat, spilled: bool, drained: bool, claimed: bool, probed: bool)

  function GistOf(g: Shared): Gist {
    Gist(g.phase, g.spilled, g.pool == [], g.nextChunk >= |g.chunks|, g.probePool == [])
  }

  ghost predicate AllEmpty(files: seq<seq<Row>>) {
    forall q | 0 <= q < |files| :: files[q] == []
  }

  ghost predicate ContOk(g: Gist, cont: Then) {
    match cont
    case ToAppend(_) => true
    case ToSpill(_) => g.spilled
    case ToBarrier => g.drained
  }

  /** What each program counter implies. */
  ghost predicate PcOk(g: Gist, l: Local) {
    match l.pc
    case Detached => l.chunk == None && AllEmpty(l.files) && AllEmpty(l.probeFiles) && !l.buildDone && !l.probeDone
    case Waiting =>
      && l.chunk == None && g.phase <= 3 && (g.phase == 0 ==> g.drained)
      && (g.phase == 2 ==> g.claimed && (g.spilled ==> l.buildDone))
      && (g.phase == 3 ==> g.spilled && l.probeDone && g.probed)
    case StartChunk(rows) => l.chunk == None && rows != []
    case Reserve(rows) => l.chunk == None && rows != []
    case MarkSpilled(rows) => l.chunk == None && rows != []
    case Leftover(rows) => l.chunk == None && rows != [] && g.spilled
    case Publish(cont) => ContOk(g, cont)
    case CountChunk(_, cont) => l.chunk == None && ContOk(g, cont)
    case SpillBatch(_) => l.chunk == None && g.spilled
    case CountSpilled(_) => l.chunk == None && g.spilled
    case Claim(spill) => spill == g.spilled
    case SpillChunk(_) => g.spilled
    case NextRow(_, _) => !g.spilled
    case SetLink(_, _, _) => !g.spilled
    case Cas(_, _, _) => !g.spilled
    case Detect(_, _, _) => !g.spilled
    case Walk(_, _, _, _) => !g.spilled
    case SetDuplicate(_, _) => !g.spilled
    case FinishBuild => g.spilled && g.claimed
    case PartitionProbe => g.spilled
    case FinishProbe => g.spilled && g.probed
    case Ready => if g.spilled then g.phase == 4 && l.probeDone else g.phase == 3
    case _ => true
  }

  ghost predicate LocalOk(g: Gist, l: Local) {
    && (PhaseOf(l.pc) != None ==> PhaseOf(l.pc) == Some(g.phase))
    && PcOk(g, l)
    && (l.chunk != None ==> g.phase == 0 && |l.chunk.value| <= CHUNK_ROWS && (|l.chunk.value| == CHUNK_ROWS ==> l.pc.Publish?))
    && (!g.spilled ==> AllEmpty(l.files))
    && (l.buildDone ==> g.spilled && ((g.phase == 2 && l.pc == Waiting) || g.phase >= 3))
    && (g.phase >= 3 && g.spilled && l.pc != Detached ==> l.buildDone)
    && (l.probeDone ==> g.phase >= 3)
    && ((g.phase < 3 || !g.spilled) ==> AllEmpty(l.probeFiles))
    && (g.phase == 4 ==> (l.pc == Ready || l.pc == Detached))
  }

  ghost predicate Locals(g: Gist, locals: seq<Local>) {
    forall p | 0 <= p < |locals| :: LocalOk(g, locals[p])
  }

  ghost predicate Shape(c: Config, locals: seq<Local>) {
    && |locals| == c.participants
    && forall p | 0 <= p < |locals| :: |locals[p].files| == |locals[p].probeFiles| == c.npartitions
  }

  ghost predicate ChunksOk(chunks: seq<seq<Row>>) {
    forall i | 0 <= i < |chunks| :: 0 < |chunks[i]| <= CHUNK_ROWS
  }

  ghost predicate SharedOk(c: Config, g: Shared) {
    && c.npartitions > 0 && ChunksOk(g.chunks) && g.phase <= 4
    && g.nextChunk == |g.history.claimedBy| && (g.phase <= 1 ==> g.nextChunk == 0)
    && (g.phase >= 1 ==> g.pool == [])
    && (g.phase >= 3 ==> g.nextChunk >= |g.chunks|)
    && (g.phase < 3 ==> g.probePool == c.probe)
    && (g.phase == 4 ==> g.spilled && g.probePool == [])
    && (c.planned ==> g.spilled)
  }

  /** The control invariant. */
  ghost predicate Control(c: Config, s: State) {
    SharedOk(c, s.shared) && Shape(c, s.locals) && Locals(GistOf(s.shared), s.locals)
  }

  /** Changes of the shared state that leave everybody else alone. */
  ghost predicate Grows(g: Gist, h: Gist) {
    && g.phase == h.phase
    && (g.spilled ==> h.spilled) && (g.phase >= 1 ==> g.spilled == h.spilled)
    && (g.drained ==> h.drained) && (g.phase >= 2 && g.claimed ==> h.claimed) && (g.probed ==> h.probed)
  }

  lemma OthersKept(g: Gist, h: Gist, l: Local)
    requires Grows(g, h) && LocalOk(g, l)
    ensures LocalOk(h, l)
  {}

  lemma OneMoves(g: Gist, h: Gist, locals: seq<Local>, p: nat, l: Local)
    requires p < |locals| && Grows(g, h) && Locals(g, locals) && LocalOk(h, l)
    ensures Locals(h, locals[p := l])
  {
    var after := locals[p := l];
    forall q | 0 <= q < |after|
      ensures LocalOk(h, after[q])
    {
      if q != p {
        OthersKept(g, h, locals[q]);
      }
    }
  }

  lemma LocalAt(c: Config, g: Gist, locals: seq<Local>, p: nat)
    requires Locals(g, locals) && Shape(c, locals) && p < |locals|
    ensures LocalOk(g, locals[p]) && |locals[p].files| == |locals[p].probeFiles| == c.npartitions
  {}

  /** What a step may do to the shared state and to its own participant. */
  ghost predicate Fine(c: Config, g: Shared, l: Local, e: Effect) {
    && SharedOk(c, e.shared) && Grows(GistOf(g), GistOf(e.shared)) && LocalOk(GistOf(e.shared), e.local)
    && |e.local.files| == |l.files| && |e.local.probeFiles| == |l.probeFiles|
  }

  predicate FillsChunk(pc: Pc) {
    pc.Append? || pc.StartChunk? || pc.Reserve? || pc.MarkSpilled? || pc.Publish?
  }

  lemma FillFine(c: Config, g: Shared, l: Local)
    requires SharedOk(c, g) && LocalOk(GistOf(g), l) && FillsChunk(l.pc)
    ensures Fine(c, g, l, CollectNext(c, g, l))
  {
    hide Reservation, AllEmpty;
  }

  lemma InputFine(c: Config, g: Shared, l: Local)
    requires SharedOk(c, g) && LocalOk(GistOf(g), l) && PhaseOf(l.pc) == Some(0) && !FillsChunk(l.pc)
    ensures Fine(c, g, l, CollectNext(c, g, l))
  {
    hide AllEmpty, ChunksOk;
  }

  lemma CollectFine(c: Config, g: Shared, l: Local)
    requires SharedOk(c, g) && LocalOk(GistOf(g), l) && PhaseOf(l.pc) == Some(0)
    ensures Fine(c, g, l, CollectNext(c, g, l))
  {
    hide Fine, SharedOk, LocalOk, CollectNext, FillsChunk;
    if FillsChunk(l.pc) {
      FillFine(c, g, l);
    } else {
      InputFine(c, g, l);
    }
  }

  lemma SetupFine(c: Config, g: Shared, l: Local)
    requires SharedOk(c, g) && LocalOk(GistOf(g), l) && PhaseOf(l.pc) == Some(1)
    ensures Fine(c, g, l, SetupNext(g, l))
  {
    hide BucketCount, AllEmpty, ChunksOk;
  }

  predicate TakesChunk(pc: Pc) {
    pc.ReadSpilled? || pc.Claim? || pc.SpillChunk? || pc.FinishBuild?
  }

  lemma TakeFine(c: Config, me: nat, g: Shared, l: Local)
    requires SharedOk(c, g) && LocalOk(GistOf(g), l) && PhaseOf(l.pc) == Some(2) && PcInRange(g, l.pc) && TakesChunk(l.pc)
    ensures Fine(c, g, l, BuildNext(c, me, g, l)) && BuildNext(c, me, g, l).shared.chunks == g.chunks
  {
    hide ChunksOk, AllEmpty;
  }

  lemma LinkFine(c: Config, me: nat, g: Shared, l: Local)
    requires SharedOk(c, g) && LocalOk(GistOf(g), l) && PhaseOf(l.pc) == Some(2) && PcInRange(g, l.pc) && !TakesChunk(l.pc)
    ensures Fine(c, g, l, BuildNext(c, me, g, l)) && BuildNext(c, me, g, l).shared.chunks == g.chunks
  {
    hide ChunksOk, AllEmpty, BucketOf, SamePrefix, LinkOf;
  }

  lemma BuildFine(c: Config, me: nat, g: Shared, l: Local)
    requires SharedOk(c, g) && LocalOk(GistOf(g), l) && PhaseOf(l.pc) == Some(2) && PcInRange(g, l.pc)
    ensures Fine(c, g, l, BuildNext(c, me, g, l)) && BuildNext(c, me, g, l).shared.chunks == g.chunks
  {
    hide Fine, SharedOk, LocalOk, BuildNext, TakesChunk, PcInRange;
    if TakesChunk(l.pc) {
      TakeFine(c, me, g, l);
    } else {
      LinkFine(c, me, g, l);
    }
  }

  lemma ProbeFine(c: Config, hasBuildRows: Row -> bool, g: Shared, l: Local)
    requires SharedOk(c, g) && LocalOk(GistOf(g), l) && PhaseOf(l.pc) == Some(3)
    ensures Fine(c, g, l, ProbeNext(c, hasBuildRows, g, l))
  {
    hide ChunksOk, AllEmpty;
  }

  lemma StepFine(c: Config, s: State, p: nat)
    requires Control(c, s) && Sound(c, s) && p < |s.locals|
    ensures Fine(c, s.shared, s.locals[p], StepOf(c, s, p))
    ensures s.shared.phase >= 1 ==> StepOf(c, s, p).shared.chunks == s.shared.chunks
  {
    hide SharedOk, LocalOk, Grows, CollectNext, BuildNext, PcInRange, HasBuildRows;
    var g, l := s.shared, s.locals[p];
    LocalAt(c, GistOf(g), s.locals, p);
    match PhaseOf(l.pc) {
      case Some(0) => CollectFine(c, g, l); PhaseMatches(GistOf(g), l);
      case Some(1) => SetupFine(c, g, l);
      case Some(2) => BuildFine(c, p, g, l);
      case Some(3) => ProbeFine(c, HasBuildRows(c, s.locals), g, l);
      case _ => NothingFine(c, g, l);
    }
  }

  lemma PhaseMatches(g: Gist, l: Local)
    requires LocalOk(g, l)
    ensures PhaseOf(l.pc) != None ==> PhaseOf(l.pc) == Some(g.phase)
  {}

  lemma NothingFine(c: Config, g: Shared, l: Local)
    requires SharedOk(c, g) && LocalOk(GistOf(g), l)
    ensures Fine(c, g, l, Effect(g, l))
  {}

  lemma ActControl(c: Config, s: State, p: nat)
    requires Control(c, s) && Sound(c, s) && p < |s.locals|
    ensures var e := StepOf(c, s, p); Control(c, State(e.shared, s.locals[p := e.local]))
  {
    hide SharedOk, LocalOk, Grows, StepOf;
    StepFine(c, s, p);
    var e := StepOf(c, s, p);
    OneMoves(GistOf(s.shared), GistOf(e.shared), s.locals, p, e.local);
  }

  lemma AttachControl(c: Config, s: State, p: nat)
    requires Control(c, s) && p < |s.locals| && s.locals[p].pc == Detached && s.shared.phase <= 1
    ensures Control(c, State(s.shared, s.locals[p := s.locals[p].(pc := if s.shared.phase == 0 then Collect else Arrive)]))
  {
    hide Locals, ChunksOk, AllEmpty;
    var g := GistOf(s.shared);
    LocalAt(c, g, s.locals, p);
    OneMoves(g, g, s.locals, p, s.locals[p].(pc := if s.shared.phase == 0 then Collect else Arrive));
  }

  /** The barrier moves everybody on at once. */
  lemma AdvanceControl(c: Config, s: State, leader: nat)
    requires Control(c, s) && Enabled(s, Advance(leader))
    ensures Control(c, State(s.shared.(phase := s.shared.phase + 1), ReleaseAll(s.locals, s.shared.phase, leader)))
  {
    hide ChunksOk, AllEmpty;
    var g := GistOf(s.shared);
    var h, after := g.(phase := g.phase + 1), ReleaseAll(s.locals, g.phase, leader);
    assert LocalOk(g, s.locals[leader]);
    forall p | 0 <= p < |after|
      ensures LocalOk(h, after[p])
    {
      assert LocalOk(g, s.locals[p]);
      ReleaseOk(g, h, s.locals[p], p == leader);
    }
  }

  lemma ReleaseOk(g: Gist, h: Gist, l: Local, elected: bool)
    requires LocalOk(g, l) && (l.pc == Waiting || l.pc == Detached) && g.phase <= 3
    requires h == g.(phase := g.phase + 1) && (g.phase == 3 ==> g.spilled)
    ensures LocalOk(h, if l.pc == Waiting then l.(pc := Released(g.phase, elected)) else l)
  {}
}
