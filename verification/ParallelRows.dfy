/** What no interleaving can change: every build row is in exactly one place, the row
    counter is exact, and memory stays within the granted reservations. */
module ParallelRows {
  import opened Vectors
  import opened Hashing
  import opened Sizes
  import opened JoinPairs
  import opened Partitions
  import opened Selecting
  import opened SpillRouting
  import opened ParallelState
  import opened ParallelControl

  // ----- sums over participants -----

  ghost function SumOf(f: Local -> nat, locals: seq<Local>): nat {
    if locals == [] then 0 else f(locals[0]) + SumOf(f, locals[1..])
  }

  lemma {:induction false} SumUpdate(f: Local -> nat, locals: seq<Local>, p: nat, l: Local)
    requires p < |locals|
    ensures SumOf(f, locals[p := l]) + f(locals[p]) == SumOf(f, locals) + f(l)
  {
    if p == 0 {
      assert locals[0 := l][1..] == locals[1..];
    } else {
      assert locals[p := l][1..] == locals[1..][p - 1 := l];
      SumUpdate(f, locals[1..], p - 1, l);
    }
  }

  lemma {:induction false} SumSame(f: Local -> nat, a: seq<Local>, b: seq<Local>)
    requires |a| == |b| && forall p | 0 <= p < |a| :: f(a[p]) == f(b[p])
    ensures SumOf(f, a) == SumOf(f, b)
  {
    if a != [] {
      SumSame(f, a[1..], b[1..]);
    }
  }

  // ----- occurrences of a row -----

  ghost function Occ(rows: seq<Row>, x: Row): nat {
    multiset(rows)[x]
  }

  lemma OccFirst(rows: seq<Row>, x: Row)
    requires rows != []
    ensures Occ(rows, x) == Occ([rows[0]], x) + Occ(rows[1..], x)
  {
    assert rows == [rows[0]] + rows[1..];
  }

  lemma OccUnion(a: seq<Row>, b: seq<Row>, x: Row)
    ensures Occ(a + b, x) == Occ(a, x) + Occ(b, x)
  {}

  ghost function FlatOcc(parts: seq<seq<Row>>, x: Row): nat {
    if parts == [] then 0 else Occ(parts[0], x) + FlatOcc(parts[1..], x)
  }

  ghost function ContOcc(cont: Then, x: Row): nat {
    if cont == ToBarrier then 0 else Occ(cont.rows, x)
  }

  ghost function PcOcc(pc: Pc, x: Row): nat {
    match pc
    case CheckSpill(rows) => Occ(rows, x)
    case Append(rows) => Occ(rows, x)
    case StartChunk(rows) => Occ(rows, x)
    case Reserve(rows) => Occ(rows, x)
    case MarkSpilled(rows) => Occ(rows, x)
    case Leftover(rows) => Occ(rows, x)
    case SpillBatch(rows) => Occ(rows, x)
    case SpillChunk(rows) => Occ(rows, x)
    case Publish(cont) => ContOcc(cont, x)
    case CountChunk(_, cont) => ContOcc(cont, x)
    case _ => 0
  }

  /** How often a participant has the row: in hand, in its chunk, in its files. */
  ghost function LocalOcc(x: Row, l: Local): nat {
    PcOcc(l.pc, x) + (if l.chunk == None then 0 else Occ(l.chunk.value, x)) + FlatOcc(l.files, x)
  }

  ghost function OccIn(x: Row): Local -> nat {
    l => LocalOcc(x, l)
  }

  /** The published chunks that nobody has taken to spill. */
  function Held(g: Shared): seq<seq<Row>> {
    if g.spilled then g.chunks[if g.nextChunk < |g.chunks| then g.nextChunk else |g.chunks|..] else g.chunks
  }

  ghost function SharedOcc(g: Shared, x: Row): nat {
    FlatOcc(g.pool, x) + FlatOcc(Held(g), x)
  }

  /** No build row is ever lost or doubled. */
  ghost predicate Conserved(c: Config, s: State) {
    forall x: Row :: SumOf(OccIn(x), s.locals) + SharedOcc(s.shared, x) == FlatOcc(c.build, x)
  }

  lemma {:induction false} RouteOccFrom(files: seq<seq<Row>>, after: seq<seq<Row>>, rows: seq<Row>, part: Key -> nat,
                                        from: nat, x: Row)
    requires |after| == |files| && forall q | 0 <= q < |files| :: after[q] == files[q] + Select(rows, Owned(part, from + q))
    ensures FlatOcc(after, x) == FlatOcc(files, x) + if from <= part(x.key) < from + |files| then Occ(rows, x) else 0
  {
    if files != [] {
      RouteOccFrom(files[1..], after[1..], rows, part, from + 1, x);
      SelectCount(rows, Owned(part, from), x);
      OccUnion(files[0], Select(rows, Owned(part, from)), x);
    }
  }

  /** Routing writes each row once. */
  lemma RouteOcc(files: seq<seq<Row>>, rows: seq<Row>, part: Key -> nat, x: Row)
    requires forall k :: part(k) < |files|
    ensures FlatOcc(Route(files, rows, part), x) == FlatOcc(files, x) + Occ(rows, x)
  {
    RouteOccFrom(files, Route(files, rows, part), rows, part, 0, x);
  }

  // ----- counters -----

  function FlatCount(parts: seq<seq<Row>>): nat {
    if parts == [] then 0 else |parts[0]| + FlatCount(parts[1..])
  }

  function ContCount(cont: Then): nat {
    if cont == ToBarrier then 0 else |cont.rows|
  }

  function PcCount(pc: Pc): nat {
    match pc
    case CheckSpill(rows) => |rows|
    case Append(rows) => |rows|
    case StartChunk(rows) => |rows|
    case Reserve(rows) => |rows|
    case MarkSpilled(rows) => |rows|
    case Leftover(rows) => |rows|
    case SpillBatch(rows) => |rows|
    case CountSpilled(n) => n
    case Publish(cont) => ContCount(cont)
    case CountChunk(n, cont) => n + ContCount(cont)
    case _ => 0
  }

  /** Rows of a participant that the shared row counter does not include yet. */
  ghost function Uncounted(l: Local): nat {
    PcCount(l.pc) + if l.chunk == None then 0 else |l.chunk.value|
  }

  ghost predicate Counted(c: Config, s: State) {
    SumOf(Uncounted, s.locals) + FlatCount(s.shared.pool) + s.shared.buildRows == FlatCount(c.build)
  }

  ghost function HasChunk(l: Local): nat {
    if l.chunk == None then 0 else 1
  }

  /** Reservations: no more is granted than was added, and never beyond the limit. */
  ghost predicate Granted(c: Config, g: Shared) {
    g.history.granted * Reservation(c.ncolumns) <= g.reserved && g.history.granted * Reservation(c.ncolumns) <= c.limit
  }

  ghost predicate ChunksGranted(s: State) {
    SumOf(HasChunk, s.locals) + |s.shared.chunks| <= s.shared.history.granted
  }

  // ----- one step balances -----

  ghost predicate SameOcc(g: Shared, l: Local, e: Effect, x: Row) {
    LocalOcc(x, e.local) + SharedOcc(e.shared, x) == LocalOcc(x, l) + SharedOcc(g, x)
  }

  ghost predicate SameCounts(c: Config, g: Shared, l: Local, e: Effect) {
    && Uncounted(e.local) + FlatCount(e.shared.pool) + e.shared.buildRows == Uncounted(l) + FlatCount(g.pool) + g.buildRows
    && HasChunk(e.local) + |e.shared.chunks| + g.history.granted <= HasChunk(l) + |g.chunks| + e.shared.history.granted
    && (Granted(c, g) ==> Granted(c, e.shared))
  }

  /** The facts of phase 0 that conservation rests on. */
  ghost predicate CollectFacts(g: Shared, l: Local) {
    && g.nextChunk == 0
    && (l.pc.Leftover? ==> g.spilled)
    && (l.pc.Reserve? ==> l.chunk == None)
  }

  lemma CollectFactsHold(c: Config, g: Shared, l: Local)
    requires SharedOk(c, g) && LocalOk(GistOf(g), l) && PhaseOf(l.pc) == Some(0)
    ensures CollectFacts(g, l)
  {
    hide ChunksOk, AllEmpty;
  }

  /** Program counters whose step moves rows between places or changes a counter. */
  predicate MovesRows(pc: Pc) {
    pc.Append? || pc.Publish? || pc.Collect? || pc.SpillBatch?
  }

  predicate ChangesCounters(pc: Pc) {
    pc.Reserve? || pc.MarkSpilled? || pc.CountChunk? || pc.CountSpilled?
  }

  lemma MovingOcc(c: Config, g: Shared, l: Local, x: Row)
    requires CollectFacts(g, l) && c.npartitions > 0 && |l.files| == c.npartitions && MovesRows(l.pc) && !l.pc.Publish?
    ensures SameOcc(g, l, CollectNext(c, g, l), x)
  {
    hide Occ, Route, CHUNK_ROWS, FlatOcc, Held;
    PartOfBound(c.hash, 0, c.npartitions);
    NoOcc(x);
    HeldAll(g);
    HeldAll(CollectNext(c, g, l).shared);
    match l.pc {
      case Collect => FlatOccFirst(g.pool, x);
      case SpillBatch(rows) => RouteOcc(l.files, rows, c.Part(), x);
      case Append(rows) =>
        if rows != [] && l.chunk != None {
          OccFirst(rows, x);
          OccUnion(l.chunk.value, [rows[0]], x);
        }
    }
  }

  lemma PublishOcc(c: Config, g: Shared, l: Local, x: Row)
    requires CollectFacts(g, l) && c.npartitions > 0 && l.pc.Publish?
    ensures SameOcc(g, l, CollectNext(c, g, l), x)
  {
    hide Occ, FlatOcc, Held;
    NoOcc(x);
    HeldAll(g);
    HeldAll(CollectNext(c, g, l).shared);
    if l.chunk != None {
      FlatOccFirst([l.chunk.value] + g.chunks, x);
      assert ([l.chunk.value] + g.chunks)[1..] == g.chunks;
    }
  }

  lemma StayingOcc(c: Config, g: Shared, l: Local, x: Row)
    requires CollectFacts(g, l) && c.npartitions > 0 && !MovesRows(l.pc) && !ChangesCounters(l.pc)
    ensures SameOcc(g, l, CollectNext(c, g, l), x)
  {
    hide Reservation, Occ, FlatOcc, Held;
    NoOcc(x);
    HeldAll(g);
    HeldAll(CollectNext(c, g, l).shared);
  }

  lemma CountingOcc(c: Config, g: Shared, l: Local, x: Row)
    requires CollectFacts(g, l) && c.npartitions > 0 && ChangesCounters(l.pc)
    ensures SameOcc(g, l, CollectNext(c, g, l), x)
  {
    hide Reservation, Occ, FlatOcc, Held;
    NoOcc(x);
    HeldAll(g);
    HeldAll(CollectNext(c, g, l).shared);
  }

  lemma CollectOcc(c: Config, g: Shared, l: Local, x: Row)
    requires CollectFacts(g, l) && c.npartitions > 0 && |l.files| == c.npartitions
    ensures SameOcc(g, l, CollectNext(c, g, l), x)
  {
    hide SameOcc, CollectNext, MovesRows, ChangesCounters;
    if l.pc.Publish? {
      PublishOcc(c, g, l, x);
    } else if MovesRows(l.pc) {
      MovingOcc(c, g, l, x);
    } else if ChangesCounters(l.pc) {
      CountingOcc(c, g, l, x);
    } else {
      StayingOcc(c, g, l, x);
    }
  }

  lemma HeldAll(g: Shared)
    requires g.nextChunk == 0
    ensures Held(g) == g.chunks
  {}

  lemma FlatOccFirst(parts: seq<seq<Row>>, x: Row)
    ensures parts != [] ==> FlatOcc(parts, x) == Occ(parts[0], x) + FlatOcc(parts[1..], x)
  {}

  lemma NoOcc(x: Row)
    ensures Occ([], x) == 0
  {}

  lemma MovingCounts(c: Config, g: Shared, l: Local)
    requires CollectFacts(g, l) && c.npartitions > 0 && MovesRows(l.pc)
    ensures SameCounts(c, g, l, CollectNext(c, g, l))
  {
    hide Reservation, Route, CHUNK_ROWS, Granted;
    GrantedStep(c, g, CollectNext(c, g, l).shared);
  }

  lemma CountingCounts(c: Config, g: Shared, l: Local)
    requires CollectFacts(g, l) && c.npartitions > 0 && ChangesCounters(l.pc)
    ensures SameCounts(c, g, l, CollectNext(c, g, l))
  {
    hide Reservation, FlatCount, Granted;
    GrantedStep(c, g, CollectNext(c, g, l).shared);
  }

  lemma CheckingCounts(c: Config, g: Shared, l: Local)
    requires CollectFacts(g, l) && c.npartitions > 0 && !MovesRows(l.pc) && !ChangesCounters(l.pc)
    ensures SameCounts(c, g, l, CollectNext(c, g, l))
  {
    hide FlatCount, Granted;
  }

  lemma CollectCounts(c: Config, g: Shared, l: Local)
    requires CollectFacts(g, l) && c.npartitions > 0
    ensures SameCounts(c, g, l, CollectNext(c, g, l))
  {
    hide SameCounts, CollectNext, MovesRows, ChangesCounters;
    if MovesRows(l.pc) {
      MovingCounts(c, g, l);
    } else if ChangesCounters(l.pc) {
      CountingCounts(c, g, l);
    } else {
      CheckingCounts(c, g, l);
    }
  }

  lemma GrantedStep(c: Config, g: Shared, h: Shared)
    ensures h.history.granted == g.history.granted && h.reserved >= g.reserved && Granted(c, g) ==> Granted(c, h)
    ensures (h.history.granted == g.history.granted + 1 && h.reserved == g.reserved + Reservation(c.ncolumns)
             && h.reserved <= c.limit && Granted(c, g)) ==> Granted(c, h)
  {
    hide Reservation;
    GrantMore(c, g.history.granted);
  }

  lemma GrantMore(c: Config, n: nat)
    ensures (n + 1) * Reservation(c.ncolumns) == n * Reservation(c.ncolumns) + Reservation(c.ncolumns)
  {}

  lemma {:induction false} FlatOccSplit(parts: seq<seq<Row>>, i: nat, x: Row)
    requires i < |parts|
    ensures FlatOcc(parts[i..], x) == Occ(parts[i], x) + FlatOcc(parts[i + 1..], x)
  {
    assert parts[i..][1..] == parts[i + 1..];
  }

  lemma BuildOcc(c: Config, me: nat, g: Shared, l: Local, x: Row)
    requires SharedOk(c, g) && LocalOk(GistOf(g), l) && PhaseOf(l.pc) == Some(2) && PcInRange(g, l.pc)
    requires |l.files| == c.npartitions
    ensures SameOcc(g, l, BuildNext(c, me, g, l), x)
  {
    hide ChunksOk, AllEmpty, Occ, Route, BucketOf, SamePrefix, LinkOf, RowAt, FlatOcc;
    PartOfBound(c.hash, 0, c.npartitions);
    match l.pc {
      case SpillChunk(rows) => RouteOcc(l.files, rows, c.Part(), x);
      case Claim(_) =>
        if g.nextChunk < |g.chunks| {
          FlatOccSplit(g.chunks, g.nextChunk, x);
        }
      case _ =>
    }
  }

  lemma BuildCounts(c: Config, me: nat, g: Shared, l: Local)
    requires SharedOk(c, g) && LocalOk(GistOf(g), l) && PhaseOf(l.pc) == Some(2) && PcInRange(g, l.pc)
    ensures SameCounts(c, g, l, BuildNext(c, me, g, l))
  {
    hide ChunksOk, AllEmpty, Route, BucketOf, SamePrefix, LinkOf, RowAt, FlatCount, Reservation;
  }

  lemma SetupBalanced(c: Config, g: Shared, l: Local, x: Row)
    requires PhaseOf(l.pc) == Some(1)
    ensures SameOcc(g, l, SetupNext(g, l), x) && SameCounts(c, g, l, SetupNext(g, l))
  {
    hide Occ, FlatOcc, FlatCount, Reservation, BucketCount;
  }

  predicate NoRows(pc: Pc) {
    pc in {Detached, Waiting, Collect, Setup, Arrive, ReadSpilled, CheckProbe, PartitionProbe, FinishProbe, Ready}
  }

  /** A participant without rows in hand before and after keeps what it has. */
  lemma KeepsRows(x: Row, l: Local, l': Local)
    requires l'.chunk == l.chunk && l'.files == l.files
    requires l'.pc == l.pc || (NoRows(l.pc) && NoRows(l'.pc))
    ensures LocalOcc(x, l') == LocalOcc(x, l) && Uncounted(l') == Uncounted(l) && HasChunk(l') == HasChunk(l)
  {
    hide Occ, FlatOcc;
  }

  lemma ProbeBalanced(c: Config, hasBuildRows: Row -> bool, g: Shared, l: Local, x: Row)
    requires c.npartitions > 0 && PhaseOf(l.pc) == Some(3)
    ensures var e := ProbeNext(c, hasBuildRows, g, l); SameOcc(g, l, e, x) && SameCounts(c, g, l, e)
  {
    hide Route, FlatOcc, FlatCount, Reservation, LocalOcc, Uncounted, HasChunk;
    KeepsRows(x, l, ProbeNext(c, hasBuildRows, g, l).local);
  }

  lemma StepOcc(c: Config, s: State, p: nat, x: Row)
    requires Control(c, s) && Sound(c, s) && p < |s.locals|
    ensures SameOcc(s.shared, s.locals[p], StepOf(c, s, p), x) && SameCounts(c, s.shared, s.locals[p], StepOf(c, s, p))
  {
    hide SameOcc, SameCounts, SharedOk, LocalOk, CollectNext, BuildNext, SetupNext, ProbeNext, PcInRange, HasBuildRows;
    var g, l := s.shared, s.locals[p];
    LocalAt(c, GistOf(g), s.locals, p);
    match PhaseOf(l.pc) {
      case Some(0) =>
        CollectFactsHold(c, g, l);
        CollectOcc(c, g, l, x);
        CollectCounts(c, g, l);
      case Some(2) =>
        BuildOcc(c, p, g, l, x);
        BuildCounts(c, p, g, l);
      case Some(1) => SetupBalanced(c, g, l, x);
      case Some(3) => ProbeBalanced(c, HasBuildRows(c, s.locals), g, l, x);
      case _ => NothingChanges(c, g, l, x);
    }
  }

  lemma NothingChanges(c: Config, g: Shared, l: Local, x: Row)
    ensures SameOcc(g, l, Effect(g, l), x) && SameCounts(c, g, l, Effect(g, l))
  {}

  // ----- the invariant -----

  ghost predicate Accounted(c: Config, s: State) {
    Conserved(c, s) && Counted(c, s) && Granted(c, s.shared) && ChunksGranted(s)
  }

  lemma ActRows(c: Config, s: State, p: nat)
    requires Control(c, s) && Sound(c, s) && Accounted(c, s) && p < |s.locals|
    ensures var e := StepOf(c, s, p); Accounted(c, State(e.shared, s.locals[p := e.local]))
  {
    hide StepOf, SharedOcc, LocalOcc, Uncounted, HasChunk, FlatOcc, FlatCount, Reservation, SharedOk, LocalOk, Granted;
    var e := StepOf(c, s, p);
    SumUpdate(Uncounted, s.locals, p, e.local);
    SumUpdate(HasChunk, s.locals, p, e.local);
    StepOcc(c, s, p, Row(0, []));
    forall x: Row
      ensures SumOf(OccIn(x), s.locals[p := e.local]) + SharedOcc(e.shared, x) == FlatOcc(c.build, x)
    {
      StepOcc(c, s, p, x);
      SumUpdate(OccIn(x), s.locals, p, e.local);
    }
  }

  /** Steps that only move program counters between places without rows. */
  lemma PcOnlyRows(c: Config, s: State, t: State)
    requires Accounted(c, s) && |t.locals| == |s.locals|
    requires t.shared == s.shared.(phase := t.shared.phase)
    requires forall p | 0 <= p < |s.locals| ::
               && t.locals[p] == s.locals[p].(pc := t.locals[p].pc)
               && (t.locals[p].pc != s.locals[p].pc ==> NoRows(s.locals[p].pc) && NoRows(t.locals[p].pc))
    ensures Accounted(c, t)
  {
    hide FlatOcc, FlatCount, Granted, LocalOcc, Uncounted, HasChunk, SharedOcc, NoRows;
    forall p | 0 <= p < |s.locals|
      ensures Uncounted(t.locals[p]) == Uncounted(s.locals[p]) && HasChunk(t.locals[p]) == HasChunk(s.locals[p])
    {
      KeepsRows(Row(0, []), s.locals[p], t.locals[p]);
    }
    SumSame(Uncounted, s.locals, t.locals);
    SumSame(HasChunk, s.locals, t.locals);
    SharedKept(c, s.shared, t.shared);
    forall x: Row
      ensures SumOf(OccIn(x), t.locals) + SharedOcc(t.shared, x) == FlatOcc(c.build, x)
    {
      SharedOccKept(s.shared, t.shared, x);
      forall p | 0 <= p < |s.locals|
        ensures OccIn(x)(t.locals[p]) == OccIn(x)(s.locals[p])
      {
        KeepsRows(x, s.locals[p], t.locals[p]);
      }
      SumSame(OccIn(x), s.locals, t.locals);
    }
  }

  lemma SharedKept(c: Config, g: Shared, h: Shared)
    requires h == g.(phase := h.phase)
    ensures Granted(c, g) ==> Granted(c, h)
  {}

  lemma SharedOccKept(g: Shared, h: Shared, x: Row)
    requires h == g.(phase := h.phase)
    ensures SharedOcc(g, x) == SharedOcc(h, x)
  {}

  lemma AttachRows(c: Config, s: State, p: nat)
    requires Accounted(c, s) && Enabled(s, Attach(p)) && Sound(c, s)
    ensures Accounted(c, Apply(c, s, Attach(p)))
  {
    PcOnlyRows(c, s, Apply(c, s, Attach(p)));
  }

  lemma AdvanceRows(c: Config, s: State, leader: nat)
    requires Accounted(c, s) && Enabled(s, Advance(leader)) && Sound(c, s)
    ensures Accounted(c, Apply(c, s, Advance(leader)))
  {
    hide Conserved, Counted, Granted, ChunksGranted;
    PcOnlyRows(c, s, Apply(c, s, Advance(leader)));
  }

  // ----- once collecting is over -----

  lemma {:induction false} SumZero(f: Local -> nat, locals: seq<Local>)
    requires forall p | 0 <= p < |locals| :: f(locals[p]) == 0
    ensures SumOf(f, locals) == 0
  {
    if locals != [] {
      SumZero(f, locals[1..]);
    }
  }

  lemma {:induction false} EmptyOcc(files: seq<seq<Row>>, x: Row)
    requires AllEmpty(files)
    ensures FlatOcc(files, x) == 0
  {
    if files != [] {
      EmptyOcc(files[1..], x);
    }
  }

  /** All rows of all parts, in order. */
  function FlatAll(parts: seq<seq<Row>>): seq<Row> {
    if parts == [] then [] else FlatAll(parts[..|parts| - 1]) + parts[|parts| - 1]
  }

  lemma {:induction false} FlatAllOcc(parts: seq<seq<Row>>, x: Row)
    ensures Occ(FlatAll(parts), x) == FlatOcc(parts, x)
  {
    if parts != [] {
      var n := |parts| - 1;
      FlatAllOcc(parts[..n], x);
      OccUnion(FlatAll(parts[..n]), parts[n], x);
      FlatOccLast(parts, x);
    }
  }

  lemma {:induction false} FlatOccLast(parts: seq<seq<Row>>, x: Row)
    requires parts != []
    ensures FlatOcc(parts, x) == FlatOcc(parts[..|parts| - 1], x) + Occ(parts[|parts| - 1], x)
  {
    if |parts| > 1 {
      FlatOccLast(parts[1..], x);
      assert parts[1..][..|parts| - 2] == parts[..|parts| - 1][1..];
    }
  }

  lemma {:induction false} FlatAllSize(parts: seq<seq<Row>>)
    ensures |FlatAll(parts)| == FlatCount(parts)
  {
    if parts != [] {
      var n := |parts| - 1;
      FlatAllSize(parts[..n]);
      FlatCountLast(parts);
    }
  }

  lemma {:induction false} FlatCountLast(parts: seq<seq<Row>>)
    requires parts != []
    ensures FlatCount(parts) == FlatCount(parts[..|parts| - 1]) + |parts[|parts| - 1]|
  {
    if |parts| > 1 {
      FlatCountLast(parts[1..]);
      assert parts[1..][..|parts| - 2] == parts[..|parts| - 1][1..];
    }
  }

  /** choose_bucket_count leaves the bucket array within what the chunks reserved for it. */
  lemma BucketsFit(rows: nat, chunks: nat)
    requires chunks > 0 && rows <= CHUNK_ROWS * chunks
    ensures BucketCount(rows) <= 4 * CHUNK_ROWS * chunks
  {}

  lemma {:induction false} ChunkCounts(chunks: seq<seq<Row>>)
    requires ChunksOk(chunks)
    ensures FlatCount(chunks) <= CHUNK_ROWS * |chunks|
  {
    if chunks != [] {
      ChunkCounts(chunks[1..]);
    }
  }

  /** Once collecting is over and nobody spilled, nobody holds rows of its own. */
  lemma NothingLocal(g: Gist, l: Local, x: Row)
    requires LocalOk(g, l) && g.phase >= 1 && !g.spilled
    ensures LocalOcc(x, l) == 0
  {
    hide FlatOcc, Occ;
    EmptyOcc(l.files, x);
  }

  lemma NothingUncounted(g: Gist, l: Local)
    requires LocalOk(g, l) && g.phase >= 1
    ensures Uncounted(l) == 0
  {}

  lemma NoPool(x: Row)
    ensures FlatOcc([], x) == 0
  {}

  /** While nobody spills, the chunks hold all build rows. */
  lemma ChunksHold(c: Config, s: State, x: Row)
    requires Control(c, s) && Conserved(c, s) && s.shared.phase >= 1 && !s.shared.spilled
    ensures FlatOcc(s.shared.chunks, x) == FlatOcc(c.build, x)
  {
    hide FlatOcc, ChunksOk;
    var g := GistOf(s.shared);
    forall p | 0 <= p < |s.locals|
      ensures OccIn(x)(s.locals[p]) == 0
    {
      assert LocalOk(g, s.locals[p]);
      NothingLocal(g, s.locals[p], x);
    }
    SumZero(OccIn(x), s.locals);
    assert SumOf(OccIn(x), s.locals) + SharedOcc(s.shared, x) == FlatOcc(c.build, x);
    NoPool(x);
  }

  lemma AllCounted(c: Config, s: State)
    requires Control(c, s) && Counted(c, s) && s.shared.phase >= 1
    ensures s.shared.buildRows == FlatCount(c.build)
  {
    forall p | 0 <= p < |s.locals|
      ensures Uncounted(s.locals[p]) == 0
    {
      assert LocalOk(GistOf(s.shared), s.locals[p]);
      NothingUncounted(GistOf(s.shared), s.locals[p]);
    }
    SumZero(Uncounted, s.locals);
  }

  /** The bucket array of an unspilled build fits in what its chunks reserved. */
  lemma BucketsReserved(c: Config, s: State)
    requires Control(c, s) && Accounted(c, s) && s.shared.phase >= 1 && !s.shared.spilled && s.shared.chunks != []
    ensures BucketCount(s.shared.buildRows) <= 4 * CHUNK_ROWS * |s.shared.chunks|
  {
    hide BucketCount, Granted, SumOf;
    AllCounted(c, s);
    var a, b := FlatAll(s.shared.chunks), FlatAll(c.build);
    forall x: Row
      ensures multiset(a)[x] == multiset(b)[x]
    {
      ChunksHold(c, s, x);
      FlatAllOcc(s.shared.chunks, x);
      FlatAllOcc(c.build, x);
    }
    assert multiset(a) == multiset(b);
    assert |multiset(a)| == |a| && |multiset(b)| == |b|;
    FlatAllSize(s.shared.chunks);
    FlatAllSize(c.build);
    ChunkCounts(s.shared.chunks);
    BucketsFit(s.shared.buildRows, |s.shared.chunks|);
  }
}
