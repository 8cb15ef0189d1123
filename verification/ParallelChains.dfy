/** The shared bucket chains and the duplicate flag, for every order of the
    compare-and-swap pushes. */
module ParallelChains {
  import opened Vectors
  import opened Hashing
  import opened Sizes
  import opened JoinPairs
  import opened ParallelState
  import opened ParallelControl

  // ----- chains as stacks of row ids -----

  /** The link value that refers to the top of a stack. */
  function Head(stack: seq<nat>): nat {
    if stack == [] then 0 else stack[0] + 1
  }

  /** Following links from the bucket visits exactly the stack, top to bottom. */
  ghost predicate ChainOk(links: map<nat, nat>, bucket: nat, stack: seq<nat>) {
    && bucket == Head(stack)
    && forall k | 0 <= k < |stack| :: LinkOf(links, stack[k]) == Head(stack[k + 1..])
  }

  ghost predicate Distinct(stack: seq<nat>) {
    forall j, k | 0 <= j < k < |stack| :: stack[j] != stack[k]
  }

  ghost predicate Suffix(below: seq<nat>, stack: seq<nat>) {
    |below| <= |stack| && stack[|stack| - |below|..] == below
  }

  /** A row whose push has succeeded. */
  predicate Pushed(chunks: seq<seq<Row>>, progress: seq<nat>, id: nat) {
    ValidId(chunks, id) && |progress| == |chunks| && OffsetOf(id) < progress[ChunkOf(id)]
  }

  /** Everything in a stack was pushed and belongs to its bucket. */
  ghost predicate StackOk(c: Config, g: Shared, b: nat)
    requires b < |g.history.stacks| == |g.buckets|
  {
    var stack := g.history.stacks[b];
    && ChainOk(g.links, g.buckets[b], stack) && Distinct(stack)
    && forall k | 0 <= k < |stack| ::
         && Pushed(g.chunks, g.history.progress, stack[k])
         && BucketOf(c, |g.buckets|, RowAt(g.chunks, stack[k]).key) == b
  }

  ghost predicate Tables(c: Config, g: Shared) {
    && |g.buckets| == |g.history.stacks| > 0 && |g.history.progress| == |g.chunks|
    && (g.chunks != [] ==> |g.buckets| <= 4 * CHUNK_ROWS * |g.chunks|)
    && (forall i | 0 <= i < |g.chunks| :: g.history.progress[i] <= |g.chunks[i]|)
  }

  /** The value part of the chain invariant. */
  ghost predicate Chains(c: Config, g: Shared) {
    && Tables(c, g)
    && (forall b | 0 <= b < |g.buckets| :: StackOk(c, g, b))
    && (forall id | Pushed(g.chunks, g.history.progress, id) ::
          id in g.history.stacks[BucketOf(c, |g.buckets|, RowAt(g.chunks, id).key)])
  }

  // ----- who pushes what -----

  predicate Owns(g: Shared, p: nat, index: nat) {
    index < |g.chunks| && index < |g.history.claimedBy| && g.history.claimedBy[index] == p
  }

  predicate At(g: Shared, p: nat, index: nat, row: nat, pushed: bool)
  {
    && Owns(g, p, index) && |g.history.progress| == |g.chunks| && row < |g.chunks[index]|
    && g.history.progress[index] == if pushed then row + 1 else row
  }

  /** The stack below a row being checked. */
  ghost predicate Checking(c: Config, g: Shared, index: nat, row: nat, below: seq<nat>)
    requires index < |g.chunks| && row < |g.chunks[index]|
  {
    && |g.buckets| == |g.history.stacks| > 0
    && RowId(index, row) !in below
    && Suffix(below, g.history.stacks[BucketOf(c, |g.buckets|, g.chunks[index][row].key)])
  }

  /** What each counter of phase 2 means for the tables. */
  ghost predicate BuildPc(c: Config, g: Shared, p: nat, pc: Pc) {
    match pc
    case NextRow(i, r) => Owns(g, p, i) && |g.history.progress| == |g.chunks| && g.history.progress[i] == r
    case SetLink(i, r, _) => At(g, p, i, r, false)
    case Cas(i, r, head) => At(g, p, i, r, false) && LinkOf(g.links, RowId(i, r)) == head
    case Detect(i, r, below) => At(g, p, i, r, true) && Checking(c, g, i, r, below) && LinkOf(g.links, RowId(i, r)) == Head(below)
    case Walk(i, r, link, below) => At(g, p, i, r, true) && Checking(c, g, i, r, below) && link == Head(below)
    case SetDuplicate(i, r) => At(g, p, i, r, true) && SharesKey(g)
    case _ => true
  }

  /** Two different pushed rows have the same key. */
  ghost predicate SharesKey(g: Shared) {
    exists x, y ::
      && Pushed(g.chunks, g.history.progress, x) && Pushed(g.chunks, g.history.progress, y) && x != y
      && RowAt(g.chunks, x).key == RowAt(g.chunks, y).key
  }

  predicate AtChunk(pc: Pc, i: nat) {
    match pc
    case NextRow(index, _) => index == i
    case SetLink(index, _, _) => index == i
    case Cas(index, _, _) => index == i
    case Detect(index, _, _) => index == i
    case Walk(index, _, _, _) => index == i
    case SetDuplicate(index, _) => index == i
    case _ => false
  }

  /** A claimed chunk is finished or in the hands of its claimer; others are untouched. */
  ghost predicate ChunkDone(g: Shared, locals: seq<Local>, i: nat)
    requires i < |g.chunks| == |g.history.progress|
  {
    if i < |g.history.claimedBy| then
      && g.history.claimedBy[i] < |locals|
      && (g.history.progress[i] == |g.chunks[i]| || AtChunk(locals[g.history.claimedBy[i]].pc, i))
    else g.history.progress[i] == 0
  }

  /** The pusher of `x` has yet to compare it with `y`, or to set the flag. */
  predicate Unchecked(g: Shared, locals: seq<Local>, x: nat, y: nat) {
    var i := ChunkOf(x);
    && i < |g.history.claimedBy| && g.history.claimedBy[i] < |locals|
    && match locals[g.history.claimedBy[i]].pc
       case Detect(index, row, below) => RowId(index, row) == x && y in below
       case Walk(index, row, _, below) => RowId(index, row) == x && y in below
       case SetDuplicate(index, row) => RowId(index, row) == x
       case _ => false
  }

  /** Rows in one stack with the same key: the flag is set or will be. */
  ghost predicate PairChecked(g: Shared, locals: seq<Local>, stack: seq<nat>, j: nat, k: nat)
    requires j < k < |stack|
  {
    ValidId(g.chunks, stack[j]) && ValidId(g.chunks, stack[k])
    && RowAt(g.chunks, stack[j]).key == RowAt(g.chunks, stack[k]).key ==>
      g.dup || Unchecked(g, locals, stack[j], stack[k])
  }

  ghost predicate StackChecked(g: Shared, locals: seq<Local>, stack: seq<nat>) {
    forall j, k | 0 <= j < k < |stack| :: PairChecked(g, locals, stack, j, k)
  }

  ghost predicate AllChecked(g: Shared, locals: seq<Local>) {
    forall b | 0 <= b < |g.history.stacks| :: StackChecked(g, locals, g.history.stacks[b])
  }

  ghost predicate Claims(g: Shared, locals: seq<Local>) {
    |g.history.progress| == |g.chunks| && forall i | 0 <= i < |g.chunks| :: ChunkDone(g, locals, i)
  }

  ghost predicate Pcs(c: Config, g: Shared, locals: seq<Local>) {
    forall p | 0 <= p < |locals| :: BuildPc(c, g, p, locals[p].pc)
  }

  /** The invariant of an unspilled build. */
  ghost predicate Building(c: Config, s: State) {
    && Chains(c, s.shared) && Claims(s.shared, s.locals) && Pcs(c, s.shared, s.locals)
    && (s.shared.dup ==> SharesKey(s.shared)) && AllChecked(s.shared, s.locals)
  }

  /** Nothing pushed yet. */
  ghost predicate EmptyTables(c: Config, g: Shared) {
    && Tables(c, g)
    && (forall b | 0 <= b < |g.buckets| :: g.buckets[b] == 0 && g.history.stacks[b] == [])
    && (forall i | 0 <= i < |g.chunks| :: g.history.progress[i] == 0)
    && g.history.claimedBy == [] && !g.dup
  }

  ghost predicate AnySetup(locals: seq<Local>) {
    exists p :: 0 <= p < |locals| && locals[p].pc == Setup
  }

  ghost predicate ChainInv(c: Config, s: State) {
    && (s.shared.phase == 0 ==> !s.shared.dup && s.shared.history.claimedBy == [])
    && (s.shared.phase == 1 ==> !s.shared.dup && s.shared.history.claimedBy == [])
    && (s.shared.phase == 1 && !s.shared.spilled ==> AnySetup(s.locals) || EmptyTables(c, s.shared))
    && (s.shared.phase >= 2 && !s.shared.spilled ==> Building(c, s))
  }

  // ----- row ids and stacks -----

  lemma IdParts(index: nat, row: nat)
    requires row < CHUNK_ROWS
    ensures ChunkOf(RowId(index, row)) == index && OffsetOf(RowId(index, row)) == row
  {}

  lemma IdWhole(id: nat)
    ensures RowId(ChunkOf(id), OffsetOf(id)) == id && OffsetOf(id) < CHUNK_ROWS
  {}

  lemma PushChain(links: map<nat, nat>, bucket: nat, stack: seq<nat>, id: nat)
    requires ChainOk(links, bucket, stack) && LinkOf(links, id) == bucket
    ensures ChainOk(links, id + 1, [id] + stack)
  {
    var after := [id] + stack;
    forall k | 0 <= k < |after|
      ensures LinkOf(links, after[k]) == Head(after[k + 1..])
    {
      if k == 0 {
        assert after[1..] == stack;
      } else {
        assert after[k + 1..] == stack[k..];
        assert LinkOf(links, stack[k - 1]) == Head(stack[k..]);
      }
    }
  }

  lemma LinkElsewhere(links: map<nat, nat>, bucket: nat, stack: seq<nat>, id: nat, head: nat)
    requires ChainOk(links, bucket, stack) && id !in stack
    ensures ChainOk(links[id := head], bucket, stack)
  {}

  lemma SuffixGrows(below: seq<nat>, stack: seq<nat>, id: nat)
    requires Suffix(below, stack)
    ensures Suffix(below, [id] + stack)
  {
    assert ([id] + stack)[|stack| + 1 - |below|..] == stack[|stack| - |below|..];
  }

  lemma SuffixNext(c: Config, g: Shared, b: nat, below: seq<nat>)
    requires b < |g.history.stacks| == |g.buckets| && StackOk(c, g, b)
    requires Suffix(below, g.history.stacks[b]) && below != []
    ensures Suffix(below[1..], g.history.stacks[b])
    ensures LinkOf(g.links, below[0]) == Head(below[1..])
    ensures Pushed(g.chunks, g.history.progress, below[0])
    ensures BucketOf(c, |g.buckets|, RowAt(g.chunks, below[0]).key) == b
  {
    var stack := g.history.stacks[b];
    var k := |stack| - |below|;
    assert stack[k] == below[0] && stack[k + 1..] == below[1..];
  }

  // ----- changes of the tables -----

  /** The id a participant is about to push is in no stack. */
  lemma NotInStack(c: Config, g: Shared, p: nat, index: nat, row: nat, b: nat)
    requires ChunksOk(g.chunks) && Chains(c, g) && At(g, p, index, row, false) && b < |g.buckets|
    ensures RowId(index, row) !in g.history.stacks[b]
  {
    var stack, id := g.history.stacks[b], RowId(index, row);
    IdParts(index, row);
    assert StackOk(c, g, b);
    forall k | 0 <= k < |stack|
      ensures stack[k] != id
    {
      assert Pushed(g.chunks, g.history.progress, stack[k]);
    }
  }

  lemma SetLinkChains(c: Config, g: Shared, p: nat, index: nat, row: nat, head: nat)
    requires ChunksOk(g.chunks) && Chains(c, g) && At(g, p, index, row, false)
    ensures Chains(c, g.(links := g.links[RowId(index, row) := head]))
  {
    var h := g.(links := g.links[RowId(index, row) := head]);
    forall b | 0 <= b < |h.buckets|
      ensures StackOk(c, h, b)
    {
      assert StackOk(c, g, b);
      NotInStack(c, g, p, index, row, b);
      LinkElsewhere(g.links, g.buckets[b], g.history.stacks[b], RowId(index, row), head);
    }
  }

  function AfterPush(c: Config, g: Shared, index: nat, row: nat): Shared
    requires index < |g.chunks| == |g.history.progress| && row < |g.chunks[index]|
    requires |g.buckets| == |g.history.stacks| > 0
  {
    var b, id, h := BucketOf(c, |g.buckets|, g.chunks[index][row].key), RowId(index, row), g.history;
    g.(buckets := g.buckets[b := id + 1],
       history := h.(stacks := h.stacks[b := [id] + h.stacks[b]], progress := h.progress[index := row + 1]))
  }

  lemma PushedAfter(g: Shared, index: nat, row: nat, x: nat)
    requires index < |g.chunks| == |g.history.progress| && row < |g.chunks[index]| && ChunksOk(g.chunks)
    requires g.history.progress[index] == row
    ensures Pushed(g.chunks, g.history.progress[index := row + 1], x) <==>
            Pushed(g.chunks, g.history.progress, x) || x == RowId(index, row)
  {
    IdParts(index, row);
    IdWhole(x);
  }

  lemma PushStackOk(c: Config, g: Shared, p: nat, index: nat, row: nat, head: nat, b: nat)
    requires ChunksOk(g.chunks) && Chains(c, g) && BuildPc(c, g, p, Cas(index, row, head)) && b < |g.buckets|
    requires g.buckets[BucketOf(c, |g.buckets|, g.chunks[index][row].key)] == head
    ensures StackOk(c, AfterPush(c, g, index, row), b)
  {
    hide BucketOf, ChainOk;
    var h := AfterPush(c, g, index, row);
    var id, stack := RowId(index, row), h.history.stacks[b];
    assert StackOk(c, g, b);
    IdParts(index, row);
    if b == BucketOf(c, |g.buckets|, g.chunks[index][row].key) {
      PushChain(g.links, g.buckets[b], g.history.stacks[b], id);
      NotInStack(c, g, p, index, row, b);
    }
    forall k | 0 <= k < |stack|
      ensures Pushed(h.chunks, h.history.progress, stack[k])
      ensures BucketOf(c, |h.buckets|, RowAt(h.chunks, stack[k]).key) == b
    {
      PushedAfter(g, index, row, stack[k]);
    }
  }

  lemma PushChains(c: Config, g: Shared, p: nat, index: nat, row: nat, head: nat)
    requires ChunksOk(g.chunks) && Chains(c, g) && BuildPc(c, g, p, Cas(index, row, head))
    requires g.buckets[BucketOf(c, |g.buckets|, g.chunks[index][row].key)] == head
    ensures Chains(c, AfterPush(c, g, index, row))
  {
    hide BucketOf, StackOk;
    var h := AfterPush(c, g, index, row);
    forall b | 0 <= b < |h.buckets|
      ensures StackOk(c, h, b)
    {
      PushStackOk(c, g, p, index, row, head, b);
    }
    forall id | Pushed(h.chunks, h.history.progress, id)
      ensures id in h.history.stacks[BucketOf(c, |h.buckets|, RowAt(h.chunks, id).key)]
    {
      PushedAfter(g, index, row, id);
      IdParts(index, row);
    }
  }

  lemma SharesKeyKept(g: Shared, h: Shared)
    requires SharesKey(g) && h.chunks == g.chunks
    requires forall x | Pushed(g.chunks, g.history.progress, x) :: Pushed(h.chunks, h.history.progress, x)
    ensures SharesKey(h)
  {
    var x, y :| Pushed(g.chunks, g.history.progress, x) && Pushed(g.chunks, g.history.progress, y) && x != y
                && RowAt(g.chunks, x).key == RowAt(g.chunks, y).key;
    assert Pushed(h.chunks, h.history.progress, x) && Pushed(h.chunks, h.history.progress, y);
  }

  // ----- steps that move one program counter -----

  /** Comparisons still due stay due, were made, or no longer matter. */
  ghost predicate KeepsChecks(g: Shared, h: Shared, locals: seq<Local>, after: seq<Local>) {
    forall x, y | ValidId(g.chunks, x) && ValidId(g.chunks, y) && RowAt(g.chunks, x).key == RowAt(g.chunks, y).key
                  && Unchecked(g, locals, x, y) ::
      h.dup || Unchecked(h, after, x, y)
  }

  lemma CheckedKept(g: Shared, h: Shared, locals: seq<Local>, after: seq<Local>)
    requires AllChecked(g, locals) && KeepsChecks(g, h, locals, after)
    requires h.chunks == g.chunks && h.history.stacks == g.history.stacks && (g.dup ==> h.dup)
    ensures AllChecked(h, after)
  {
    hide Unchecked;
    forall b, j, k | 0 <= b < |h.history.stacks| && 0 <= j < k < |h.history.stacks[b]|
      ensures PairChecked(h, after, h.history.stacks[b], j, k)
    {
      assert StackChecked(g, locals, g.history.stacks[b]);
      assert PairChecked(g, locals, g.history.stacks[b], j, k);
    }
  }

  /** Only the mover's own comparisons have to be accounted for. */
  lemma OwnChecks(g: Shared, h: Shared, locals: seq<Local>, p: nat, l: Local)
    requires p < |locals| && g.history.claimedBy <= h.history.claimedBy
    requires forall x, y | ValidId(g.chunks, x) && ValidId(g.chunks, y) && RowAt(g.chunks, x).key == RowAt(g.chunks, y).key
                           && ChunkOf(x) < |g.history.claimedBy| && g.history.claimedBy[ChunkOf(x)] == p
                           && Unchecked(g, locals, x, y) ::
               h.dup || Unchecked(h, locals[p := l], x, y)
    ensures KeepsChecks(g, h, locals, locals[p := l])
  {
    forall x, y | ValidId(g.chunks, x) && ValidId(g.chunks, y) && RowAt(g.chunks, x).key == RowAt(g.chunks, y).key
                  && Unchecked(g, locals, x, y)
      ensures h.dup || Unchecked(h, locals[p := l], x, y)
    {
      assert h.history.claimedBy[ChunkOf(x)] == g.history.claimedBy[ChunkOf(x)];
    }
  }

  lemma ClaimsKept(g: Shared, h: Shared, locals: seq<Local>, p: nat, l: Local)
    requires Claims(g, locals) && p < |locals|
    requires h.chunks == g.chunks && h.history.progress == g.history.progress && h.history.claimedBy == g.history.claimedBy
    requires forall i | 0 <= i < |g.chunks| && AtChunk(locals[p].pc, i) && Owns(g, p, i) ::
               AtChunk(l.pc, i) || g.history.progress[i] == |g.chunks[i]|
    ensures Claims(h, locals[p := l])
  {
    var after := locals[p := l];
    forall i | 0 <= i < |h.chunks|
      ensures ChunkDone(h, after, i)
    {
      assert ChunkDone(g, locals, i);
    }
  }

  lemma PcsOneMoves(c: Config, g: Shared, h: Shared, locals: seq<Local>, p: nat, l: Local)
    requires p < |locals| && Pcs(c, g, locals) && BuildPc(c, h, p, l.pc)
    requires forall q | 0 <= q < |locals| && q != p && BuildPc(c, g, q, locals[q].pc) :: BuildPc(c, h, q, locals[q].pc)
    ensures Pcs(c, h, locals[p := l])
  {
    var after := locals[p := l];
    forall q | 0 <= q < |after|
      ensures BuildPc(c, h, q, after[q].pc)
    {
      assert BuildPc(c, g, q, locals[q].pc);
    }
  }

  /** The program counter and perhaps the flag change, the tables do not. */
  lemma PcStep(c: Config, g: Shared, h: Shared, locals: seq<Local>, p: nat, l: Local)
    requires Building(c, State(g, locals)) && p < |locals|
    requires h == g.(dup := h.dup) && (g.dup ==> h.dup) && (h.dup ==> SharesKey(g))
    requires BuildPc(c, g, p, l.pc) && KeepsChecks(g, h, locals, locals[p := l])
    requires forall i | 0 <= i < |g.chunks| && AtChunk(locals[p].pc, i) && Owns(g, p, i) ::
               AtChunk(l.pc, i) || g.history.progress[i] == |g.chunks[i]|
    ensures Building(c, State(h, locals[p := l]))
  {
    hide AllChecked, KeepsChecks, Claims, BuildPc;
    CheckedKept(g, h, locals, locals[p := l]);
    ClaimsKept(g, h, locals, p, l);
    forall q | 0 <= q < |locals| && BuildPc(c, g, q, locals[q].pc)
      ensures BuildPc(c, h, q, locals[q].pc)
    {
      BuildPcFlag(c, g, h, q, locals[q].pc);
    }
    BuildPcFlag(c, g, h, p, l.pc);
    PcsOneMoves(c, g, h, locals, p, l);
    FlagOnly(c, g, h);
  }

  lemma BuildPcFlag(c: Config, g: Shared, h: Shared, p: nat, pc: Pc)
    requires h == g.(dup := h.dup) && BuildPc(c, g, p, pc)
    ensures BuildPc(c, h, p, pc)
  {
    if SharesKey(g) {
      SharesKeyKept(g, h);
    }
  }

  lemma FlagOnly(c: Config, g: Shared, h: Shared)
    requires h == g.(dup := h.dup)
    ensures Chains(c, g) ==> Chains(c, h)
    ensures SharesKey(g) ==> SharesKey(h)
  {
    if SharesKey(g) {
      SharesKeyKept(g, h);
    }
    if Chains(c, g) {
      forall b | 0 <= b < |h.buckets|
        ensures StackOk(c, h, b)
      {
        assert StackOk(c, g, b);
      }
    }
  }

  // ----- the steps of phase 2 -----

  /** Every stored key has the join's number of columns. */
  ghost predicate KeysFine(c: Config, chunks: seq<seq<Row>>) {
    forall i, r | 0 <= i < |chunks| && 0 <= r < |chunks[i]| :: |chunks[i][r].key| == c.nkeys
  }

  /** The comparison of detect_build_duplicate decides equality of whole keys. */
  lemma WalkCompares(c: Config, g: Shared, index: nat, row: nat, id: nat)
    requires c.Valid() && KeysFine(c, g.chunks) && index < |g.chunks| && row < |g.chunks[index]| && ValidId(g.chunks, id)
    ensures var mine, other := g.chunks[index][row].key, RowAt(g.chunks, id).key;
            (|mine| == |other| > 0 && c.hash(mine) == c.hash(other) && SamePrefix(mine, other)) <==> mine == other
  {
    var mine, other := g.chunks[index][row].key, RowAt(g.chunks, id).key;
    if |mine| == |other| > 0 && c.hash(mine) == c.hash(other) && SamePrefix(mine, other) {
      assert Matches(c.hash, mine, other);
    }
  }

  ghost predicate Context(c: Config, g: Shared, locals: seq<Local>, p: nat) {
    && c.Valid() && ChunksOk(g.chunks) && KeysFine(c, g.chunks)
    && Building(c, State(g, locals)) && p < |locals|
  }

  lemma PcHolds(c: Config, g: Shared, locals: seq<Local>, p: nat)
    requires Context(c, g, locals, p)
    ensures BuildPc(c, g, p, locals[p].pc) && Tables(c, g)
  {}

  /** Steps before the push, and steps with nothing to compare. */
  lemma IdleStep(c: Config, g: Shared, locals: seq<Local>, p: nat, pc: Pc)
    requires Context(c, g, locals, p)
    requires !locals[p].pc.Detect? && !locals[p].pc.Walk? && !locals[p].pc.SetDuplicate?
    requires BuildPc(c, g, p, pc)
    requires forall i | 0 <= i < |g.chunks| && AtChunk(locals[p].pc, i) && Owns(g, p, i) ::
               AtChunk(pc, i) || g.history.progress[i] == |g.chunks[i]|
    ensures Building(c, State(g, locals[p := locals[p].(pc := pc)]))
  {
    hide BuildPc, Building;
    var l := locals[p].(pc := pc);
    OwnChecks(g, g, locals, p, l);
    FlagSound(c, g, locals);
    PcStep(c, g, g, locals, p, l);
  }

  lemma FlagSound(c: Config, g: Shared, locals: seq<Local>)
    requires Building(c, State(g, locals))
    ensures g.dup ==> SharesKey(g)
  {}

  lemma DetectStep(c: Config, me: nat, g: Shared, locals: seq<Local>, p: nat)
    requires Context(c, g, locals, p) && locals[p].pc.Detect? && PcInRange(g, locals[p].pc)
    ensures var e := BuildNext(c, me, g, locals[p]); e.shared == g && Building(c, State(g, locals[p := e.local]))
  {
    hide Building, SharesKey;
    var e := BuildNext(c, me, g, locals[p]);
    PcHolds(c, g, locals, p);
    OwnChecks(g, g, locals, p, e.local);
    FlagSound(c, g, locals);
    PcStep(c, g, g, locals, p, e.local);
  }

  lemma WalkEnds(c: Config, me: nat, g: Shared, locals: seq<Local>, p: nat)
    requires Context(c, g, locals, p) && locals[p].pc.Walk? && PcInRange(g, locals[p].pc) && locals[p].pc.link == 0
    ensures var e := BuildNext(c, me, g, locals[p]); e.shared == g && Building(c, State(g, locals[p := e.local]))
  {
    hide Building, SharesKey;
    var e := BuildNext(c, me, g, locals[p]);
    PcHolds(c, g, locals, p);
    OwnChecks(g, g, locals, p, e.local);
    FlagSound(c, g, locals);
    PcStep(c, g, g, locals, p, e.local);
  }

  /** The next row below, found through the link, and what comparing with it shows. */
  lemma WalkBelow(c: Config, g: Shared, p: nat, index: nat, row: nat, link: nat, below: seq<nat>)
    requires ChunksOk(g.chunks) && Chains(c, g) && BuildPc(c, g, p, Walk(index, row, link, below)) && link > 0
    ensures below != [] && link - 1 == below[0] && ValidId(g.chunks, link - 1)
    ensures BuildPc(c, g, p, Walk(index, row, LinkOf(g.links, link - 1), below[1..]))
    ensures g.chunks[index][row].key == RowAt(g.chunks, link - 1).key ==> BuildPc(c, g, p, SetDuplicate(index, row))
  {
    var b := BucketOf(c, |g.buckets|, g.chunks[index][row].key);
    assert StackOk(c, g, b);
    SuffixNext(c, g, b, below);
    IdParts(index, row);
    assert Pushed(g.chunks, g.history.progress, RowId(index, row));
    assert below[0] in below;
  }

  lemma WalkContinues(c: Config, me: nat, g: Shared, locals: seq<Local>, p: nat)
    requires Context(c, g, locals, p) && locals[p].pc.Walk? && PcInRange(g, locals[p].pc) && locals[p].pc.link > 0
    ensures var e := BuildNext(c, me, g, locals[p]); e.shared == g && Building(c, State(g, locals[p := e.local]))
  {
    hide Building, SharesKey, BuildPc, SamePrefix, Chains;
    var e, pc := BuildNext(c, me, g, locals[p]), locals[p].pc;
    PcHolds(c, g, locals, p);
    ChainsHold(c, g, locals);
    WalkBelow(c, g, p, pc.index, pc.row, pc.link, pc.below);
    WalkCompares(c, g, pc.index, pc.row, pc.link - 1);
    IdParts(pc.index, pc.row);
    OwnChecks(g, g, locals, p, e.local);
    FlagSound(c, g, locals);
    PcStep(c, g, g, locals, p, e.local);
  }

  lemma ChainsHold(c: Config, g: Shared, locals: seq<Local>)
    requires Building(c, State(g, locals))
    ensures Chains(c, g)
  {}

  lemma DuplicateStep(c: Config, me: nat, g: Shared, locals: seq<Local>, p: nat)
    requires Context(c, g, locals, p) && locals[p].pc.SetDuplicate? && PcInRange(g, locals[p].pc)
    ensures var e := BuildNext(c, me, g, locals[p]); Building(c, State(e.shared, locals[p := e.local]))
  {
    hide Building, SharesKey;
    var e := BuildNext(c, me, g, locals[p]);
    PcHolds(c, g, locals, p);
    OwnChecks(g, e.shared, locals, p, e.local);
    PcStep(c, g, e.shared, locals, p, e.local);
  }

  // ----- claiming a chunk -----

  lemma ClaimClaims(g: Shared, h: Shared, locals: seq<Local>, p: nat, l: Local)
    requires Claims(g, locals) && p < |locals| && locals[p].pc.Claim?
    requires h.chunks == g.chunks && h.history.progress == g.history.progress
    requires h.history.claimedBy == g.history.claimedBy + [p]
    requires |g.history.claimedBy| < |g.chunks| ==> AtChunk(l.pc, |g.history.claimedBy|)
    ensures Claims(h, locals[p := l])
  {
    var after := locals[p := l];
    forall i | 0 <= i < |h.chunks|
      ensures ChunkDone(h, after, i)
    {
      assert ChunkDone(g, locals, i);
    }
  }

  lemma ClaimOthers(c: Config, g: Shared, h: Shared, q: nat, pc: Pc)
    requires h == g.(nextChunk := h.nextChunk, history := h.history)
    requires h.history == g.history.(claimedBy := h.history.claimedBy) && g.history.claimedBy <= h.history.claimedBy
    requires BuildPc(c, g, q, pc)
    ensures BuildPc(c, h, q, pc)
  {
    if SharesKey(g) {
      SharesKeyKept(g, h);
    }
  }

  lemma ClaimChains(c: Config, g: Shared, h: Shared)
    requires h == g.(nextChunk := h.nextChunk, history := g.history.(claimedBy := h.history.claimedBy))
    ensures Chains(c, g) ==> Chains(c, h)
    ensures SharesKey(g) ==> SharesKey(h)
  {
    if SharesKey(g) {
      SharesKeyKept(g, h);
    }
    if Chains(c, g) {
      forall b | 0 <= b < |h.buckets|
        ensures StackOk(c, h, b)
      {
        assert StackOk(c, g, b);
      }
    }
  }

  lemma ClaimStep(c: Config, g: Shared, locals: seq<Local>, p: nat)
    requires Context(c, g, locals, p) && locals[p].pc == Claim(false) && g.nextChunk == |g.history.claimedBy|
    ensures var e := BuildNext(c, p, g, locals[p]); Building(c, State(e.shared, locals[p := e.local]))
  {
    hide Chains, SharesKey, AllChecked, KeepsChecks, Claims;
    var e := BuildNext(c, p, g, locals[p]);
    ClaimChains(c, g, e.shared);
    NextUntouched(g, locals);
    ClaimClaims(g, e.shared, locals, p, e.local);
    forall q | 0 <= q < |locals| && q != p && BuildPc(c, g, q, locals[q].pc)
      ensures BuildPc(c, e.shared, q, locals[q].pc)
    {
      ClaimOthers(c, g, e.shared, q, locals[q].pc);
    }
    PcsOneMoves(c, g, e.shared, locals, p, e.local);
    OwnChecks(g, e.shared, locals, p, e.local);
    CheckedKept(g, e.shared, locals, locals[p := e.local]);
  }

  lemma NextUntouched(g: Shared, locals: seq<Local>)
    requires Claims(g, locals)
    ensures |g.history.progress| == |g.chunks|
    ensures var i := |g.history.claimedBy|; i < |g.chunks| ==> g.history.progress[i] == 0
  {
    if |g.history.claimedBy| < |g.chunks| {
      assert ChunkDone(g, locals, |g.history.claimedBy|);
    }
  }

  // ----- writing the link of a row -----

  lemma SetLinkOthers(c: Config, g: Shared, p: nat, index: nat, row: nat, head: nat, q: nat, pc: Pc)
    requires ChunksOk(g.chunks) && At(g, p, index, row, false) && q != p && BuildPc(c, g, q, pc)
    ensures BuildPc(c, g.(links := g.links[RowId(index, row) := head]), q, pc)
  {
    var h := g.(links := g.links[RowId(index, row) := head]);
    IdParts(index, row);
    if pc.Cas? || pc.Detect? {
      IdParts(pc.index, pc.row);
    }
    if SharesKey(g) {
      SharesKeyKept(g, h);
    }
  }

  lemma SetLinkStep(c: Config, g: Shared, locals: seq<Local>, p: nat)
    requires Context(c, g, locals, p) && locals[p].pc.SetLink? && PcInRange(g, locals[p].pc)
    ensures var e := BuildNext(c, p, g, locals[p]); Building(c, State(e.shared, locals[p := e.local]))
  {
    hide Chains, SharesKey, AllChecked, KeepsChecks, Claims;
    var e, pc := BuildNext(c, p, g, locals[p]), locals[p].pc;
    PcHolds(c, g, locals, p);
    SetLinkChains(c, g, p, pc.index, pc.row, pc.head);
    ClaimsKept(g, e.shared, locals, p, e.local);
    forall q | 0 <= q < |locals| && q != p && BuildPc(c, g, q, locals[q].pc)
      ensures BuildPc(c, e.shared, q, locals[q].pc)
    {
      SetLinkOthers(c, g, p, pc.index, pc.row, pc.head, q, locals[q].pc);
    }
    PcsOneMoves(c, g, e.shared, locals, p, e.local);
    OwnChecks(g, e.shared, locals, p, e.local);
    CheckedKept(g, e.shared, locals, locals[p := e.local]);
    if g.dup {
      SharesKeyKept(g, e.shared);
    }
  }

  // ----- the push -----

  lemma PushMine(c: Config, g: Shared, p: nat, index: nat, row: nat, head: nat)
    requires ChunksOk(g.chunks) && Chains(c, g) && BuildPc(c, g, p, Cas(index, row, head))
    requires g.buckets[BucketOf(c, |g.buckets|, g.chunks[index][row].key)] == head
    ensures BuildPc(c, AfterPush(c, g, index, row), p,
                    Detect(index, row, g.history.stacks[BucketOf(c, |g.buckets|, g.chunks[index][row].key)]))
  {
    var b := BucketOf(c, |g.buckets|, g.chunks[index][row].key);
    var stack := g.history.stacks[b];
    NotInStack(c, g, p, index, row, b);
    assert StackOk(c, g, b);
    assert stack[|stack| - |stack|..] == stack;
    SuffixGrows(stack, stack, RowId(index, row));
  }

  lemma PushOthers(c: Config, g: Shared, p: nat, index: nat, row: nat, q: nat, pc: Pc)
    requires ChunksOk(g.chunks) && Chains(c, g) && At(g, p, index, row, false) && q != p && BuildPc(c, g, q, pc)
    ensures BuildPc(c, AfterPush(c, g, index, row), q, pc)
  {
    var h := AfterPush(c, g, index, row);
    PushShares(c, g, p, index, row);
    if pc.Detect? || pc.Walk? {
      SuffixGrows(pc.below, g.history.stacks[BucketOf(c, |g.buckets|, g.chunks[pc.index][pc.row].key)], RowId(index, row));
    }
  }

  lemma PushShares(c: Config, g: Shared, p: nat, index: nat, row: nat)
    requires ChunksOk(g.chunks) && Chains(c, g) && At(g, p, index, row, false)
    ensures SharesKey(g) ==> SharesKey(AfterPush(c, g, index, row))
  {
    if SharesKey(g) {
      forall x | Pushed(g.chunks, g.history.progress, x)
        ensures Pushed(g.chunks, g.history.progress[index := row + 1], x)
      {
        PushedAfter(g, index, row, x);
      }
      SharesKeyKept(g, AfterPush(c, g, index, row));
    }
  }

  lemma PushClaims(c: Config, g: Shared, locals: seq<Local>, p: nat, index: nat, row: nat, l: Local)
    requires Claims(g, locals) && p < |locals| && At(g, p, index, row, false) && |g.buckets| == |g.history.stacks| > 0
    requires forall i :: AtChunk(locals[p].pc, i) <==> i == index
    requires AtChunk(l.pc, index)
    ensures Claims(AfterPush(c, g, index, row), locals[p := l])
  {
    var h, after := AfterPush(c, g, index, row), locals[p := l];
    forall i | 0 <= i < |h.chunks|
      ensures ChunkDone(h, after, i)
    {
      assert ChunkDone(g, locals, i);
    }
  }

  /** The new top of a stack is compared with everything below it. */
  lemma PushPair(c: Config, g: Shared, locals: seq<Local>, p: nat, index: nat, row: nat, l: Local, b: nat, j: nat,
                 k: nat)
    requires ChunksOk(g.chunks) && Chains(c, g) && AllChecked(g, locals) && p < |locals| && At(g, p, index, row, false)
    requires locals[p].pc.Cas?
    requires b < |g.buckets| && l.pc == Detect(index, row, g.history.stacks[BucketOf(c, |g.buckets|, g.chunks[index][row].key)])
    requires j < k < |AfterPush(c, g, index, row).history.stacks[b]|
    ensures PairChecked(AfterPush(c, g, index, row), locals[p := l], AfterPush(c, g, index, row).history.stacks[b], j, k)
  {
    hide StackOk;
    var h := AfterPush(c, g, index, row);
    var stack, before := h.history.stacks[b], g.history.stacks[b];
    IdParts(index, row);
    assert StackChecked(g, locals, before);
    if b != BucketOf(c, |g.buckets|, g.chunks[index][row].key) {
      assert PairChecked(g, locals, before, j, k);
    } else if j == 0 {
      assert stack[k] == before[k - 1] && stack[0] == RowId(index, row);
    } else {
      assert stack[j] == before[j - 1] && stack[k] == before[k - 1];
      assert PairChecked(g, locals, before, j - 1, k - 1);
    }
  }

  lemma PushChecked(c: Config, g: Shared, locals: seq<Local>, p: nat, index: nat, row: nat, l: Local)
    requires ChunksOk(g.chunks) && Chains(c, g) && AllChecked(g, locals) && p < |locals| && At(g, p, index, row, false)
    requires locals[p].pc.Cas?
    requires l.pc == Detect(index, row, g.history.stacks[BucketOf(c, |g.buckets|, g.chunks[index][row].key)])
    ensures AllChecked(AfterPush(c, g, index, row), locals[p := l])
  {
    hide PairChecked, StackOk;
    var h, after := AfterPush(c, g, index, row), locals[p := l];
    forall b | 0 <= b < |h.history.stacks|
      ensures StackChecked(h, after, h.history.stacks[b])
    {
      var stack := h.history.stacks[b];
      forall j, k | 0 <= j < k < |stack|
        ensures PairChecked(h, after, stack, j, k)
      {
        PushPair(c, g, locals, p, index, row, l, b, j, k);
      }
    }
  }

  lemma PushStep(c: Config, g: Shared, locals: seq<Local>, p: nat)
    requires Context(c, g, locals, p) && locals[p].pc.Cas? && PcInRange(g, locals[p].pc)
    requires var pc := locals[p].pc; g.buckets[BucketOf(c, |g.buckets|, g.chunks[pc.index][pc.row].key)] == pc.head
    ensures var e := BuildNext(c, p, g, locals[p]); Building(c, State(e.shared, locals[p := e.local]))
  {
    hide Chains, SharesKey, AllChecked, Claims, BuildPc;
    var e, pc := BuildNext(c, p, g, locals[p]), locals[p].pc;
    PcHolds(c, g, locals, p);
    assert At(g, p, pc.index, pc.row, false) by { CasAt(c, g, p, pc); }
    assert e.shared == AfterPush(c, g, pc.index, pc.row);
    PushChains(c, g, p, pc.index, pc.row, pc.head);
    PushMine(c, g, p, pc.index, pc.row, pc.head);
    PushClaims(c, g, locals, p, pc.index, pc.row, e.local);
    forall q | 0 <= q < |locals| && q != p && BuildPc(c, g, q, locals[q].pc)
      ensures BuildPc(c, e.shared, q, locals[q].pc)
    {
      PushOthers(c, g, p, pc.index, pc.row, q, locals[q].pc);
    }
    PcsOneMoves(c, g, e.shared, locals, p, e.local);
    PushShares(c, g, p, pc.index, pc.row);
    PushChecked(c, g, locals, p, pc.index, pc.row, e.local);
  }

  lemma CasAt(c: Config, g: Shared, p: nat, pc: Pc)
    requires pc.Cas? && BuildPc(c, g, p, pc)
    ensures At(g, p, pc.index, pc.row, false)
  {}

  // ----- every step of phase 2 -----

  /** A program counter without pending comparisons moves to one with the same chunk. */
  lemma MoveStep(c: Config, g: Shared, locals: seq<Local>, p: nat)
    requires Context(c, g, locals, p) && PcInRange(g, locals[p].pc)
    requires var pc := locals[p].pc;
             || pc.ReadSpilled? || pc.NextRow?
             || (pc.Cas? && g.buckets[BucketOf(c, |g.buckets|, g.chunks[pc.index][pc.row].key)] != pc.head)
    requires !g.spilled
    ensures var e := BuildNext(c, p, g, locals[p]); e.shared == g && Building(c, State(g, locals[p := e.local]))
  {
    hide Building, BucketOf;
    PcHolds(c, g, locals, p);
    IdleStep(c, g, locals, p, BuildNext(c, p, g, locals[p]).local.pc);
  }

  lemma BuildStep(c: Config, g: Shared, locals: seq<Local>, p: nat)
    requires Context(c, g, locals, p) && PcInRange(g, locals[p].pc) && PhaseOf(locals[p].pc) == Some(2)
    requires !g.spilled && SharedOk(c, g) && LocalOk(GistOf(g), locals[p])
    ensures var e := BuildNext(c, p, g, locals[p]); Building(c, State(e.shared, locals[p := e.local]))
  {
    hide Building, BuildNext, PcInRange, BucketOf, ChunksOk, AllEmpty;
    match locals[p].pc {
      case ReadSpilled => MoveStep(c, g, locals, p);
      case Claim(_) => ClaimStep(c, g, locals, p);
      case NextRow(_, _) => MoveStep(c, g, locals, p);
      case SetLink(_, _, _) => SetLinkStep(c, g, locals, p);
      case Cas(index, row, head) =>
        CasRange(g, locals[p].pc);
        if g.buckets[BucketOf(c, |g.buckets|, g.chunks[index][row].key)] == head {
          PushStep(c, g, locals, p);
        } else {
          MoveStep(c, g, locals, p);
        }
      case Detect(_, _, _) => DetectStep(c, p, g, locals, p);
      case Walk(_, _, link, _) =>
        if link == 0 {
          WalkEnds(c, p, g, locals, p);
        } else {
          WalkContinues(c, p, g, locals, p);
        }
      case SetDuplicate(_, _) => DuplicateStep(c, p, g, locals, p);
      case _ =>
    }
  }

  lemma CasRange(g: Shared, pc: Pc)
    requires PcInRange(g, pc) && pc.Cas?
    ensures InChunk(g, pc.index) && pc.row < |g.chunks[pc.index]|
  {}
}
