/** The parallel hash join build as a transition system: shared state, one program
    counter per participant, and one atomic action per step.
    (nodes/parallel_hash_join.c, parallel_hash_join_prepare and all it calls)

    Every fetch-add, compare-and-swap and write of shared memory is a step of its own, and so
    is every read of shared memory that may still change. A step may also read what is final
    by then: published rows, links of pushed rows and, after the build, partition counts; and
    the one participant elected by the barrier lays out the buckets in one step, before anyone
    visits them. What a participant does with its private memory between two steps is part of
    the earlier one. Atomics are sequentially consistent, and the barrier releases its phase
    only when every attached participant has arrived. */
module ParallelState {
  import opened Vectors
  import opened Hashing
  import opened Sizes
  import opened JoinPairs
  import opened Partitions
  import opened Selecting
  import opened SpillRouting

  const CHUNK_ROWS: nat := 1024

  /** build_chunk_size */
  function ChunkSize(ncolumns: nat): nat {
    16 + 4 * CHUNK_ROWS + 4 * CHUNK_ROWS + 8 * ncolumns * (CHUNK_ROWS / 64) + 4 * ncolumns * CHUNK_ROWS
  }

  /** An element of one of the arrays of a chunk. */
  datatype Element = HashOf(row: nat) | LinkTo(row: nat) | ValidWord(column: nat, word: nat) | ValueOf(column: nat, row: nat)

  predicate InLayout(ncolumns: nat, e: Element) {
    match e
    case HashOf(row) => row < 1024
    case LinkTo(row) => row < 1024
    case ValidWord(column, word) => column < ncolumns && word < 1024 / 64
    case ValueOf(column, row) => column < ncolumns && row < 1024
  }

  /** chunk_hashes, chunk_links, chunk_validity and chunk_values: where an element starts. */
  function AddressOf(ncolumns: nat, e: Element): nat {
    var links := 16 + 4 * 1024;
    var validity := links + 4 * 1024;
    match e
    case HashOf(row) => 16 + 4 * row
    case LinkTo(row) => links + 4 * row
    case ValidWord(column, word) => validity + 8 * (column * 16 + word)
    case ValueOf(column, row) => validity + 8 * (ncolumns * 16) + 4 * (column * 1024 + row)
  }

  function SizeOf(e: Element): nat {
    if e.ValidWord? then 8 else 4
  }

  /** The size of a chunk holds its header of 16 bytes and every element of its arrays, without
      overlap and with nothing to spare. */
  lemma ChunkLayout(ncolumns: nat, a: Element, b: Element)
    requires InLayout(ncolumns, a) && InLayout(ncolumns, b)
    ensures 16 <= AddressOf(ncolumns, a) && AddressOf(ncolumns, a) + SizeOf(a) <= ChunkSize(ncolumns)
    ensures a != b ==> AddressOf(ncolumns, a) + SizeOf(a) <= AddressOf(ncolumns, b) ||
                       AddressOf(ncolumns, b) + SizeOf(b) <= AddressOf(ncolumns, a)
    ensures ncolumns > 0 ==> var last := ValueOf(ncolumns - 1, 1023);
                             AddressOf(ncolumns, last) + SizeOf(last) == ChunkSize(ncolumns)
  {}

  /** What start_chunk reserves: the chunk, its directory entry and its bucket heads. */
  function Reservation(ncolumns: nat): nat {
    ChunkSize(ncolumns) + 8 + 4 * 4 * CHUNK_ROWS
  }

  datatype Config = Config(
    hash: Key -> nat,
    nkeys: nat,
    ncolumns: nat,
    npartitions: nat,
    limit: nat,
    planned: bool,
    participants: nat,
    build: seq<seq<Row>>,
    probe: seq<seq<Row>>)
  {
    ghost predicate Valid() {
      && npartitions > 0 && nkeys > 0 && FixesLastKey(hash, nkeys)
      && (forall i, j | 0 <= i < |build| && 0 <= j < |build[i]| :: |build[i][j].key| == nkeys)
    }

    function Part(): Key -> nat
      requires npartitions > 0
    {
      PartOf(hash, 0, npartitions)
    }
  }

  /** What publish_chunk returns to. */
  datatype Then = ToAppend(rows: seq<Row>) | ToSpill(rows: seq<Row>) | ToBarrier

  datatype Pc =
    | Detached
    | Waiting
      // phase 0: collect_build
    | Collect
    | CheckSpill(rows: seq<Row>)
    | Append(rows: seq<Row>)
    | StartChunk(rows: seq<Row>)
    | Reserve(rows: seq<Row>)
    | MarkSpilled(rows: seq<Row>)
    | Leftover(rows: seq<Row>)
    | Publish(cont: Then)
    | CountChunk(n: nat, cont: Then)
    | SpillBatch(rows: seq<Row>)
    | CountSpilled(n: nat)
      // phase 1: setup_shared_hash by one participant
    | Setup
    | Arrive
      // phase 2: build_or_spill_chunks
    | ReadSpilled
    | Claim(spill: bool)
    | SpillChunk(rows: seq<Row>)
    | NextRow(index: nat, row: nat)
    | SetLink(index: nat, row: nat, head: nat)
    | Cas(index: nat, row: nat, head: nat)
    | Detect(index: nat, row: nat, below: seq<nat>)
    | Walk(index: nat, row: nat, link: nat, below: seq<nat>)
    | SetDuplicate(index: nat, row: nat)
    | FinishBuild
      // phase 3: partition_probe
    | CheckProbe
    | PartitionProbe
    | FinishProbe
    | Ready

  /** One participant: its private chunk and its spill files by partition, visible to
      others once the writer is finished. */
  datatype Local = Local(pc: Pc, chunk: Option<seq<Row>>, files: seq<seq<Row>>, buildDone: bool,
                         probeFiles: seq<seq<Row>>, probeDone: bool)

  /** Bookkeeping of the proof, never read by a step: chunks granted, who claimed which
      chunk, rows pushed of each chunk, and the row ids linked from each bucket. */
  datatype History = History(granted: nat, claimedBy: seq<nat>, progress: seq<nat>, stacks: seq<seq<nat>>)

  datatype Shared = Shared(
    phase: nat,
    pool: seq<seq<Row>>,
    chunks: seq<seq<Row>>,
    buckets: seq<nat>,
    links: map<nat, nat>,
    nextChunk: nat,
    reserved: nat,
    buildRows: nat,
    spilled: bool,
    dup: bool,
    probePool: seq<seq<Row>>,
    history: History)

  datatype State = State(shared: Shared, locals: seq<Local>)

  /** What a step of one participant makes of the shared state and of its own. */
  datatype Effect = Effect(shared: Shared, local: Local)

  // ----- row ids -----

  function RowId(index: nat, row: nat): nat {
    index * CHUNK_ROWS + row
  }

  function ChunkOf(id: nat): nat {
    id / CHUNK_ROWS
  }

  function OffsetOf(id: nat): nat {
    id % CHUNK_ROWS
  }

  predicate ValidId(chunks: seq<seq<Row>>, id: nat) {
    ChunkOf(id) < |chunks| && OffsetOf(id) < |chunks[ChunkOf(id)]|
  }

  function RowAt(chunks: seq<seq<Row>>, id: nat): Row
    requires ValidId(chunks, id)
  {
    chunks[ChunkOf(id)][OffsetOf(id)]
  }

  function LinkOf(links: map<nat, nat>, id: nat): nat {
    if id in links then links[id] else 0
  }

  /** The bucket of a row; a power-of-two mask of its hash. */
  function BucketOf(c: Config, n: nat, key: Key): (b: nat)
    requires n > 0
    ensures b < n
  {
    Slice(c.hash(key), 0, n)
  }

  /** Append each row to the file of its partition. */
  function Route(files: seq<seq<Row>>, rows: seq<Row>, part: Key -> nat): (r: seq<seq<Row>>)
    ensures |r| == |files|
    ensures forall q | 0 <= q < |files| :: r[q] == files[q] + Select(rows, Owned(part, q))
  {
    seq(|files|, q requires 0 <= q < |files| => files[q] + Select(rows, Owned(part, q)))
  }

  function After(cont: Then): Pc {
    match cont
    case ToAppend(rows) => Append(rows)
    case ToSpill(rows) => SpillBatch(rows)
    case ToBarrier => Waiting
  }

  // ----- steps -----

  /** Phase 0: collect_build, append_chunk_rows, start_chunk and publish_chunk. */
  function CollectNext(c: Config, g: Shared, l: Local): Effect
    requires c.npartitions > 0
  {
    match l.pc
    case Collect =>
      if g.pool == [] then Effect(g, l.(pc := Publish(ToBarrier)))
      else Effect(g.(pool := g.pool[1..]), l.(pc := CheckSpill(g.pool[0])))
    case CheckSpill(rows) =>
      Effect(g, l.(pc := if g.spilled then Publish(ToSpill(rows)) else Append(rows)))
    case Append(rows) =>
      if rows == [] then Effect(g, l.(pc := Collect))
      else if l.chunk == None then Effect(g, l.(pc := StartChunk(rows)))
      else
        var chunk := l.chunk.value + [rows[0]];
        var pc := if |chunk| == CHUNK_ROWS then Publish(ToAppend(rows[1..])) else Append(rows[1..]);
        Effect(g, l.(chunk := Some(chunk), pc := pc))
    case StartChunk(rows) =>
      Effect(g, l.(pc := if g.spilled then Leftover(rows) else Reserve(rows)))
    case Reserve(rows) =>
      var granted := g.reserved <= c.limit && Reservation(c.ncolumns) <= c.limit - g.reserved;
      Effect(g.(reserved := g.reserved + Reservation(c.ncolumns),
                history := g.history.(granted := g.history.granted + if granted then 1 else 0)),
             if granted then l.(chunk := Some([]), pc := Append(rows)) else l.(pc := MarkSpilled(rows)))
    case MarkSpilled(rows) =>
      Effect(g.(spilled := true), l.(pc := Leftover(rows)))
    case Leftover(rows) =>
      Effect(g, l.(pc := if g.spilled then Publish(ToSpill(rows)) else Collect))
    case Publish(cont) =>
      if l.chunk == None || l.chunk == Some([]) then Effect(g, l.(chunk := None, pc := After(cont)))
      else
        Effect(g.(chunks := [l.chunk.value] + g.chunks), l.(chunk := None, pc := CountChunk(|l.chunk.value|, cont)))
    case CountChunk(n, cont) =>
      Effect(g.(buildRows := g.buildRows + n), l.(pc := After(cont)))
    case SpillBatch(rows) =>
      Effect(g, l.(files := Route(l.files, rows, c.Part()), pc := CountSpilled(|rows|)))
    case CountSpilled(n) =>
      Effect(g.(buildRows := g.buildRows + n), l.(pc := Collect))
    case _ => Effect(g, l)
  }

  /** Phase 1: one participant lays out the bucket array, the others only arrive. */
  function SetupNext(g: Shared, l: Local): Effect {
    match l.pc
    case Setup =>
      var n := BucketCount(g.buildRows);
      Effect(if g.spilled then g
             else g.(buckets := seq(n, _ => 0),
                     history := g.history.(stacks := seq(n, _ => []), progress := seq(|g.chunks|, _ => 0))),
             l.(pc := Arrive))
    case Arrive => Effect(g, l.(pc := Waiting))
    case _ => Effect(g, l)
  }

  /** Phase 2: build_or_spill_chunks and detect_build_duplicate, by participant `me`. */
  function BuildNext(c: Config, me: nat, g: Shared, l: Local): Effect
    requires c.npartitions > 0 && PcInRange(g, l.pc)
  {
    match l.pc
    case ReadSpilled => Effect(g, l.(pc := Claim(g.spilled)))
    case Claim(spill) =>
      var index := g.nextChunk;
      Effect(g.(nextChunk := index + 1, history := g.history.(claimedBy := g.history.claimedBy + [me])),
             l.(pc := if index >= |g.chunks| then (if spill then FinishBuild else Waiting)
                      else if spill then SpillChunk(g.chunks[index]) else NextRow(index, 0)))
    case SpillChunk(rows) =>
      Effect(g, l.(files := Route(l.files, rows, c.Part()), pc := Claim(true)))
    case NextRow(index, row) =>
      Effect(g, l.(pc := if row == |g.chunks[index]| then Claim(false)
                         else SetLink(index, row, g.buckets[BucketOf(c, |g.buckets|, g.chunks[index][row].key)])))
    case SetLink(index, row, head) =>
      Effect(g.(links := g.links[RowId(index, row) := head]), l.(pc := Cas(index, row, head)))
    case Cas(index, row, head) =>
      var b := BucketOf(c, |g.buckets|, g.chunks[index][row].key);
      if g.buckets[b] != head then Effect(g, l.(pc := SetLink(index, row, g.buckets[b])))
      else
        var id, h := RowId(index, row), g.history;
        Effect(g.(buckets := g.buckets[b := id + 1],
                  history := h.(stacks := h.stacks[b := [id] + h.stacks[b]], progress := h.progress[index := row + 1])),
               l.(pc := Detect(index, row, h.stacks[b])))
    case Detect(index, row, below) =>
      Effect(g, l.(pc := if g.dup then NextRow(index, row + 1)
                         else Walk(index, row, LinkOf(g.links, RowId(index, row)), below)))
    case Walk(index, row, link, below) =>
      if link == 0 then Effect(g, l.(pc := NextRow(index, row + 1)))
      else
        var mine, other := g.chunks[index][row].key, RowAt(g.chunks, link - 1).key;
        var same := |mine| == |other| > 0 && c.hash(mine) == c.hash(other) && SamePrefix(mine, other);
        Effect(g, l.(pc := if same then SetDuplicate(index, row)
                           else Walk(index, row, LinkOf(g.links, link - 1), if below == [] then [] else below[1..])))
    case SetDuplicate(index, row) =>
      Effect(g.(dup := true), l.(pc := NextRow(index, row + 1)))
    case FinishBuild =>
      Effect(g, l.(buildDone := true, pc := Waiting))
    case _ => Effect(g, l)
  }

  /** Indices a step of phase 2 uses; an invariant of every run. */
  predicate PcInRange(g: Shared, pc: Pc) {
    match pc
    case NextRow(index, row) => InChunk(g, index) && row <= |g.chunks[index]|
    case SetLink(index, row, _) => InChunk(g, index) && row < |g.chunks[index]|
    case Cas(index, row, _) => InChunk(g, index) && row < |g.chunks[index]|
    case Detect(index, row, _) => InChunk(g, index) && row < |g.chunks[index]|
    case Walk(index, row, link, _) =>
      InChunk(g, index) && row < |g.chunks[index]| && (link > 0 ==> ValidId(g.chunks, link - 1))
    case SetDuplicate(index, row) => InChunk(g, index) && row < |g.chunks[index]|
    case _ => true
  }

  predicate InChunk(g: Shared, index: nat) {
    index < |g.chunks| == |g.history.progress| && |g.buckets| == |g.history.stacks| > 0
  }

  /** pg_batch_shared_spill_partition_rows: the rows of a partition over finished writers. */
  function PublishedRows(locals: seq<Local>, q: nat): nat
    requires forall p | 0 <= p < |locals| :: q < |locals[p].files|
  {
    if locals == [] then 0
    else
      var l := locals[|locals| - 1];
      PublishedRows(locals[..|locals| - 1], q) + if l.buildDone then |l.files[q]| else 0
  }

  /** A probe row is written only when its partition has build rows. */
  function HasBuildRows(c: Config, locals: seq<Local>): Row -> bool
    requires c.npartitions > 0
    requires forall p | 0 <= p < |locals| :: |locals[p].files| == c.npartitions
  {
    (r: Row) => PublishedRows(locals, Slice(c.hash(r.key), 0, c.npartitions)) > 0
  }

  /** Phase 3: partition_probe. */
  function ProbeNext(c: Config, hasBuildRows: Row -> bool, g: Shared, l: Local): Effect
    requires c.npartitions > 0
  {
    match l.pc
    case CheckProbe => Effect(g, l.(pc := if g.spilled then PartitionProbe else Ready))
    case PartitionProbe =>
      if g.probePool == [] then Effect(g, l.(pc := FinishProbe))
      else
        Effect(g.(probePool := g.probePool[1..]),
               l.(probeFiles := Route(l.probeFiles, Select(g.probePool[0], hasBuildRows), c.Part())))
    case FinishProbe => Effect(g, l.(probeDone := true, pc := Waiting))
    case _ => Effect(g, l)
  }

  /** The phase a program counter belongs to; None for those of several phases. */
  function PhaseOf(pc: Pc): Option<nat> {
    match pc
    case Detached => None
    case Waiting => None
    case Ready => None
    case Setup => Some(1)
    case Arrive => Some(1)
    case ReadSpilled => Some(2)
    case Claim(_) => Some(2)
    case SpillChunk(_) => Some(2)
    case NextRow(_, _) => Some(2)
    case SetLink(_, _, _) => Some(2)
    case Cas(_, _, _) => Some(2)
    case Detect(_, _, _) => Some(2)
    case Walk(_, _, _, _) => Some(2)
    case SetDuplicate(_, _) => Some(2)
    case FinishBuild => Some(2)
    case CheckProbe => Some(3)
    case PartitionProbe => Some(3)
    case FinishProbe => Some(3)
    case _ => Some(0)
  }

  // ----- the barrier -----

  /** Where a released participant goes on in the next phase. */
  function Released(phase: nat, elected: bool): Pc {
    if phase == 0 then (if elected then Setup else Arrive)
    else if phase == 1 then ReadSpilled
    else if phase == 2 then CheckProbe
    else Ready
  }

  function ReleaseAll(locals: seq<Local>, phase: nat, leader: nat): (r: seq<Local>)
    ensures |r| == |locals|
    ensures forall p | 0 <= p < |locals| ::
              r[p] == if locals[p].pc == Waiting then locals[p].(pc := Released(phase, p == leader)) else locals[p]
  {
    seq(|locals|, p requires 0 <= p < |locals| =>
      if locals[p].pc == Waiting then locals[p].(pc := Released(phase, p == leader)) else locals[p])
  }

  datatype Move = Attach(p: nat) | Act(p: nat) | Advance(leader: nat)

  predicate Enabled(s: State, m: Move) {
    match m
    case Attach(p) => p < |s.locals| && s.locals[p].pc == Detached && s.shared.phase <= 1
    case Act(p) => p < |s.locals| && PhaseOf(s.locals[p].pc) != None
    case Advance(leader) =>
      && leader < |s.locals| && s.locals[leader].pc == Waiting && s.shared.phase <= 3
      && forall p | 0 <= p < |s.locals| :: s.locals[p].pc == Detached || s.locals[p].pc == Waiting
  }

  /** Everything a step needs to be defined; part of the invariant of every run. */
  predicate Sound(c: Config, s: State) {
    && c.npartitions > 0
    && (forall p | 0 <= p < |s.locals| :: |s.locals[p].files| == c.npartitions && PcInRange(s.shared, s.locals[p].pc))
  }

  /** The step of one participant. */
  function StepOf(c: Config, s: State, p: nat): Effect
    requires Sound(c, s) && p < |s.locals|
  {
    var g, l := s.shared, s.locals[p];
    match PhaseOf(l.pc)
    case Some(0) => CollectNext(c, g, l)
    case Some(1) => SetupNext(g, l)
    case Some(2) => BuildNext(c, p, g, l)
    case Some(3) => ProbeNext(c, HasBuildRows(c, s.locals), g, l)
    case _ => Effect(g, l)
  }

  function Apply(c: Config, s: State, m: Move): State
    requires Sound(c, s) && Enabled(s, m)
  {
    match m
    case Attach(p) =>
      s.(locals := s.locals[p := s.locals[p].(pc := if s.shared.phase == 0 then Collect else Arrive)])
    case Act(p) =>
      var e := StepOf(c, s, p);
      State(e.shared, s.locals[p := e.local])
    case Advance(leader) =>
      State(s.shared.(phase := s.shared.phase + 1), ReleaseAll(s.locals, s.shared.phase, leader))
  }

  function Unattached(c: Config): Local {
    var empty := seq(c.npartitions, _ => []);
    Local(Detached, None, empty, false, empty, false)
  }

  function Initial(c: Config): State {
    State(Shared(0, c.build, [], [], map[], 0, 0, 0, c.planned, false, c.probe, History(0, [], [], [])),
          seq(c.participants, _ => Unattached(c)))
  }
}
