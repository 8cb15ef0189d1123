/** The resumable probe: bounded output batches out of a stream of probe batches.
    (nodes/hash_join.c, load_probe_window, probe_unique_rows, probe_round,
    qualify_output and produce_output) */
module ProbeOutput {
  import opened Hashing
  import opened Sizes
  import opened JoinPairs
  import opened BuildTable
  import opened BuildSources
  import opened TableLookup
  import Parallel = ParallelState
  import SharedLookup

  const BATCH_ROWS: nat := 64

  /** One physical row of a probe batch. Only selected rows are visited, and only
      those whose keys were all non-NULL carry a hash. */
  datatype ProbeSlot = ProbeSlot(row: Row, selected: bool, hashed: bool) {
    predicate Live() { selected && hashed }
  }

  type Batch = seq<ProbeSlot>

  /** One build table and the probe batches that are read against it. */
  datatype Pass = Pass(build: seq<Row>, shift: nat, batches: seq<Batch>)

  /** The rows of a batch, from position `from`, that take part in the join. */
  function LiveFrom(batch: Batch, from: nat): seq<Row>
    requires from <= |batch|
    decreases |batch| - from
  {
    if from == |batch| then []
    else (if batch[from].Live() then [batch[from].row] else []) + LiveFrom(batch, from + 1)
  }

  /** The joinable rows of all batches, in order. */
  function Rows(batches: seq<Batch>): seq<Row> {
    if batches == [] then [] else Rows(batches[..|batches| - 1]) + LiveFrom(batches[|batches| - 1], 0)
  }

  /** Where a row stands among the selected rows with a hash. */
  ghost function Places(batches: seq<Batch>, r: Row): set<(int, int)> {
    set j, i | 0 <= j < |batches| && 0 <= i < |batches[j]| &&
               batches[j][i].selected && batches[j][i].hashed && batches[j][i].row == r :: (j, i)
  }

  ghost function PlacesIn(batch: Batch, j: int, from: nat, r: Row): set<(int, int)> {
    set i | from <= i < |batch| && batch[i].selected && batch[i].hashed && batch[i].row == r :: (j, i)
  }

  lemma {:induction false} LivePlaces(batch: Batch, j: int, from: nat, r: Row)
    requires from <= |batch|
    ensures multiset(LiveFrom(batch, from))[r] == |PlacesIn(batch, j, from, r)|
    decreases |batch| - from
  {
    hide PlacesIn;
    if from < |batch| {
      var b := batch[from];
      var first := if b.Live() then [b.row] else [];
      LivePlaces(batch, j, from + 1, r);
      FirstPlace(batch, j, from, r);
      assert LiveFrom(batch, from) == first + LiveFrom(batch, from + 1);
      assert multiset(first)[r] == if b.selected && b.hashed && b.row == r then 1 else 0;
    } else {
      NoPlace(batch, j, r);
    }
  }

  lemma NoPlace(batch: Batch, j: int, r: Row)
    ensures PlacesIn(batch, j, |batch|, r) == {}
  {}

  lemma FirstPlace(batch: Batch, j: int, from: nat, r: Row)
    requires from < |batch|
    ensures var b := batch[from];
            |PlacesIn(batch, j, from, r)| ==
            |PlacesIn(batch, j, from + 1, r)| + if b.selected && b.hashed && b.row == r then 1 else 0
  {
    var b := batch[from];
    assert PlacesIn(batch, j, from, r) ==
           PlacesIn(batch, j, from + 1, r) + if b.selected && b.hashed && b.row == r then {(j, from as int)} else {};
  }

  lemma PlacesStep(batches: seq<Batch>, r: Row)
    requires batches != []
    ensures var n := |batches| - 1;
            Places(batches, r) == Places(batches[..n], r) + PlacesIn(batches[n], n, 0, r) &&
            Places(batches[..n], r) !! PlacesIn(batches[n], n, 0, r)
  {
    var n := |batches| - 1;
    forall x | x in Places(batches, r)
      ensures x in Places(batches[..n], r) || x in PlacesIn(batches[n], n, 0, r)
    {
      if x.0 < n {
        assert batches[..n][x.0] == batches[x.0];
      }
    }
  }

  /** The joinable rows are those selected whose keys were all non-NULL, each as often as it
      occurs so. */
  lemma {:induction false} RowsAreLive(batches: seq<Batch>, r: Row)
    ensures multiset(Rows(batches))[r] == |Places(batches, r)|
  {
    hide LiveFrom, PlacesIn;
    if batches != [] {
      var n := |batches| - 1;
      RowsAreLive(batches[..n], r);
      LivePlaces(batches[n], n, 0, r);
      PlacesStep(batches, r);
    }
  }

  ghost function BatchesJoin(build: seq<Row>, batches: seq<Batch>): multiset<Pair> {
    if batches == [] then multiset{}
    else Join(build, LiveFrom(batches[0], 0)) + BatchesJoin(build, batches[1..])
  }

  /** What a whole run owes: the join of every pass. */
  ghost function PassesJoin(passes: seq<Pass>): multiset<Pair> {
    if passes == [] then multiset{}
    else BatchesJoin(passes[0].build, passes[0].batches) + PassesJoin(passes[1..])
  }

  // ----- chains as pairs -----

  /** A pending lane: a probe row position and the next build link of its chain. */
  datatype Lane = Lane(row: nat, link: nat)

  /** An output row: positions in the current probe batch and build table. */
  datatype Candidate = Candidate(probe: nat, build: nat)

  /** The build side, the rows its links stand for, and the current probe batch. */
  datatype Context = Context(source: BuildSource, rest: nat -> seq<nat>, batch: Batch) {
    ghost predicate ValidLane(lane: Lane) {
      lane.row < |batch| && batch[lane.row].Live() && Leads(source, rest, lane.link, batch[lane.row].row.key)
    }

    ghost predicate ValidCandidate(c: Candidate) {
      c.probe < |batch| && source.Has(c.build)
    }

    ghost predicate Lanes(lanes: seq<Lane>) {
      forall i | 0 <= i < |lanes| :: ValidLane(lanes[i])
    }

    ghost predicate Candidates(output: seq<Candidate>) {
      forall i | 0 <= i < |output| :: ValidCandidate(output[i])
    }

    ghost function PairOf(c: Candidate): Pair
      requires ValidCandidate(c)
    {
      (source.RowAt(c.build), batch[c.probe].row)
    }

    /** The pairs a lane still has to visit. */
    ghost function PairsOf(lane: Lane): multiset<Pair>
      requires ValidLane(lane)
    {
      IdPairs(source, rest(lane.link), batch[lane.row].row)
    }
  }

  ghost function LanePairs(c: Context, lanes: seq<Lane>): multiset<Pair>
    requires c.Lanes(lanes)
  {
    if lanes == [] then multiset{}
    else
      var n := |lanes| - 1;
      LanePairs(c, lanes[..n]) + c.PairsOf(lanes[n])
  }

  ghost function OutputPairs(c: Context, output: seq<Candidate>): multiset<Pair>
    requires c.Candidates(output)
  {
    if output == [] then multiset{}
    else
      var n := |output| - 1;
      OutputPairs(c, output[..n]) + multiset{c.PairOf(output[n])}
  }

  // ----- lanes -----

  lemma {:induction false} LanesUnion(c: Context, a: seq<Lane>, b: seq<Lane>)
    requires c.Lanes(a) && c.Lanes(b)
    ensures c.Lanes(a + b) && LanePairs(c, a + b) == LanePairs(c, a) + LanePairs(c, b)
  {
    if b == [] {
      assert a + b == a;
    } else {
      var n := |b| - 1;
      assert (a + b)[..|a + b| - 1] == a + b[..n];
      LanesUnion(c, a, b[..n]);
    }
  }

  lemma LanesAppend(c: Context, lanes: seq<Lane>, l: Lane)
    requires c.Lanes(lanes) && c.ValidLane(l)
    ensures c.Lanes(lanes + [l])
    ensures LanePairs(c, lanes + [l]) == LanePairs(c, lanes) + c.PairsOf(l)
  {
    assert (lanes + [l])[..|lanes|] == lanes;
  }

  /** The pairs of one lane stand apart from those of all others. */
  lemma LanesSplit(c: Context, lanes: seq<Lane>, i: nat)
    requires c.Lanes(lanes) && i < |lanes|
    ensures c.Lanes(lanes[..i]) && c.Lanes(lanes[i + 1..]) && c.ValidLane(lanes[i])
    ensures LanePairs(c, lanes) == LanePairs(c, lanes[..i]) + LanePairs(c, lanes[i + 1..])
                                   + c.PairsOf(lanes[i])
  {
    var one := [lanes[i]];
    assert lanes == lanes[..i] + one + lanes[i + 1..];
    LanesUnion(c, lanes[..i], one);
    LanesUnion(c, lanes[..i] + one, lanes[i + 1..]);
    assert one[..0] == [];
  }

  // ----- the rest of a batch -----

  lemma {:induction false} LiveSuffix(batch: Batch, from: nat, to: nat)
    requires from <= to <= |batch|
    requires forall i | from <= i < to :: !batch[i].Live()
    ensures LiveFrom(batch, from) == LiveFrom(batch, to)
    decreases |batch| - from
  {
    if from < to {
      LiveSuffix(batch, from + 1, to);
    }
  }

  lemma JoinFirst(build: seq<Row>, p: Row, rest: seq<Row>)
    ensures Join(build, [p] + rest) == Matching(build, p) + Join(build, rest)
  {
    JoinProbeUnion(build, [p], rest);
    assert [p][..0] == [];
    assert Join(build, [p]) == Join(build, []) + Matching(build, p);
  }

  /** pg_batch_selection_next: the first selected position from `from` on, or -1. */
  function NextSelected(batch: Batch, from: nat): (row: int)
    requires from <= |batch|
    ensures row == -1 || from <= row < |batch|
    ensures row == -1 ==> forall i | from <= i < |batch| :: !batch[i].selected
    ensures row != -1 ==> batch[row].selected && forall i | from <= i < row :: !batch[i].selected
    decreases |batch| - from
  {
    if from == |batch| then -1
    else if batch[from].selected then from
    else NextSelected(batch, from + 1)
  }

  /** What is left of a batch after its next visited row. */
  lemma LiveStep(batch: Batch, from: nat)
    requires from <= |batch|
    ensures var row := NextSelected(batch, from);
            && (row == -1 ==> LiveFrom(batch, from) == [])
            && (row != -1 && batch[row].hashed ==> LiveFrom(batch, from) == [batch[row].row] + LiveFrom(batch, row + 1))
            && (row != -1 && !batch[row].hashed ==> LiveFrom(batch, from) == LiveFrom(batch, row + 1))
  {
    var row := NextSelected(batch, from);
    if row == -1 {
      LiveSuffix(batch, from, |batch|);
    } else {
      LiveSuffix(batch, from, row);
    }
  }

  lemma OutputAppend(c: Context, output: seq<Candidate>, o: Candidate)
    requires c.Candidates(output) && c.ValidCandidate(o)
    ensures c.Candidates(output + [o]) && OutputPairs(c, output + [o]) == OutputPairs(c, output) + multiset{c.PairOf(o)}
  {
    assert (output + [o])[..|output|] == output;
  }

  lemma {:induction false} OutputUnion(c: Context, a: seq<Candidate>, b: seq<Candidate>)
    requires c.Candidates(a) && c.Candidates(b)
    ensures c.Candidates(a + b) && OutputPairs(c, a + b) == OutputPairs(c, a) + OutputPairs(c, b)
  {
    if b == [] {
      assert a + b == a;
    } else {
      var n := |b| - 1;
      assert (a + b)[..|a + b| - 1] == a + b[..n];
      OutputUnion(c, a, b[..n]);
    }
  }

  /** The work left in a window; every visit of a lane lowers it. */
  ghost function LaneWork(rest: nat -> seq<nat>, lanes: seq<Lane>): nat {
    if lanes == [] then 0
    else LaneWork(rest, lanes[..|lanes| - 1]) + 1 + |rest(lanes[|lanes| - 1].link)|
  }

  lemma WorkAppend(rest: nat -> seq<nat>, lanes: seq<Lane>, l: Lane)
    ensures LaneWork(rest, lanes + [l]) == LaneWork(rest, lanes) + 1 + |rest(l.link)|
  {
    assert (lanes + [l])[..|lanes|] == lanes;
  }

  /** The lanes kept after a round that visited the first `visited` lanes. */
  function Surviving(lanes: seq<Lane>, visited: nat): seq<Lane> {
    if lanes == [] then []
    else
      var n := |lanes| - 1;
      var kept := Surviving(lanes[..n], visited);
      if n >= visited || lanes[n].link != 0 then kept + [lanes[n]] else kept
  }

  lemma {:induction false} SurvivingKeepsPairs(c: Context, lanes: seq<Lane>, visited: nat)
    requires c.Lanes(lanes)
    ensures |Surviving(lanes, visited)| <= |lanes|
    ensures c.Lanes(Surviving(lanes, visited)) && LanePairs(c, Surviving(lanes, visited)) == LanePairs(c, lanes)
  {
    if lanes != [] {
      var n := |lanes| - 1;
      SurvivingKeepsPairs(c, lanes[..n], visited);
      if n >= visited || lanes[n].link != 0 {
        LanesAppend(c, Surviving(lanes[..n], visited), lanes[n]);
      }
    }
  }

  /** A lane after a visit: its link moved down the chain, or was already at the end. */
  ghost predicate Advanced(rest: nat -> seq<nat>, before: Lane, after: Lane) {
    after.row == before.row && (|rest(after.link)| < |rest(before.link)| || (after == before && before.link == 0))
  }

  lemma AtTheEnd(rest: nat -> seq<nat>, lane: Lane)
    requires lane.link == 0
    ensures Advanced(rest, lane, lane)
  {}

  lemma {:induction false} RoundLowersWork(rest: nat -> seq<nat>, before: seq<Lane>, after: seq<Lane>, visited: nat)
    requires |before| == |after|
    requires forall i | 0 <= i < |before| ::
               if i < visited then Advanced(rest, before[i], after[i]) else after[i] == before[i]
    ensures LaneWork(rest, Surviving(after, visited)) + (if visited < |before| then visited else |before|)
            <= LaneWork(rest, before)
  {
    if before != [] {
      var n := |before| - 1;
      RoundLowersWork(rest, before[..n], after[..n], visited);
      assert n < visited ==> Advanced(rest, before[n], after[n]);
      WorkAppend(rest, Surviving(after[..n], visited), after[n]);
    }
  }

  lemma {:induction false} NothingSurvives(lanes: seq<Lane>, visited: nat)
    requires |lanes| <= visited && forall i | 0 <= i < |lanes| :: lanes[i].link == 0
    ensures Surviving(lanes, visited) == []
  {
    if lanes != [] {
      NothingSurvives(lanes[..|lanes| - 1], visited);
    }
  }

  /** When no row has two matches, a chain has one row. */
  lemma UniqueChain(c: Context, lane: Lane)
    requires c.ValidLane(lane) && lane.link > 0
    requires c.PairsOf(lane) == Matching(c.source.Build(), c.batch[lane.row].row) && NoRepeats(c.source.Build())
    ensures c.source.Has(lane.link - 1)
    ensures c.PairsOf(lane) == multiset{(c.source.RowAt(lane.link - 1), c.batch[lane.row].row)}
  {
    var ids, p := c.rest(lane.link), c.batch[lane.row].row;
    IdPairsSize(c.source, ids, p);
    assert |Matching(c.source.Build(), p)| <= 1;
    assert ids == [lane.link - 1];
    assert ids[1..] == [];
  }

  // ----- the executor state -----

  ghost predicate KeysOk(nkeys: nat, rows: seq<Row>) {
    |rows| < MAX_BUCKETS && forall i | 0 <= i < |rows| :: |rows[i].key| == nkeys
  }

  ghost predicate BatchOk(nkeys: nat, b: Batch) {
    |b| <= BATCH_ROWS && forall i | 0 <= i < |b| && b[i].Live() :: |b[i].row.key| == nkeys
  }

  ghost predicate BatchesOk(nkeys: nat, batches: seq<Batch>) {
    forall j | 0 <= j < |batches| :: BatchOk(nkeys, batches[j])
  }

  ghost predicate PassesOk(nkeys: nat, passes: seq<Pass>) {
    forall i | 0 <= i < |passes| :: KeysOk(nkeys, passes[i].build) && BatchesOk(nkeys, passes[i].batches)
  }

  /** Candidate pairs of the current batch that are not yet output rows. */
  ghost function Ahead(c: Context, lanes: seq<Lane>, from: nat): multiset<Pair>
    requires c.Lanes(lanes) && from <= |c.batch|
  {
    LanePairs(c, lanes) + Join(c.source.Build(), LiveFrom(c.batch, from))
  }

  /** What visiting the next selected row takes out of the pairs ahead. */
  lemma AheadStep(c: Context, lanes: seq<Lane>, from: nat)
    requires c.Lanes(lanes) && from <= |c.batch|
    ensures var row := NextSelected(c.batch, from);
            && (row == -1 ==> LiveFrom(c.batch, from) == [])
            && (row != -1 && c.batch[row].hashed ==>
                  Ahead(c, lanes, from) == Matching(c.source.Build(), c.batch[row].row) + Ahead(c, lanes, row + 1))
            && (row != -1 && !c.batch[row].hashed ==> Ahead(c, lanes, from) == Ahead(c, lanes, row + 1))
  {
    hide LanePairs;
    LiveStep(c.batch, from);
    var row := NextSelected(c.batch, from);
    if row != -1 && c.batch[row].hashed {
      JoinFirst(c.source.Build(), c.batch[row].row, LiveFrom(c.batch, row + 1));
    }
  }

  /** The only match of a row moves from the pairs ahead into the output. */
  lemma UniqueEmitted(c: Context, output: seq<Candidate>, from: nat, row: nat, link: nat)
    requires c.Candidates(output) && from <= |c.batch| && link > 0
    requires NextSelected(c.batch, from) == row && c.batch[row].hashed
    requires c.ValidLane(Lane(row, link)) && NoRepeats(c.source.Build())
    requires c.PairsOf(Lane(row, link)) == Matching(c.source.Build(), c.batch[row].row)
    ensures c.Candidates(output + [Candidate(row, link - 1)])
    ensures OutputPairs(c, output + [Candidate(row, link - 1)]) + Ahead(c, [], row + 1)
            == OutputPairs(c, output) + Ahead(c, [], from)
  {
    hide OutputPairs, Ahead, Matching, NoRepeats, Context.PairsOf, Leads;
    AheadStep(c, [], from);
    UniqueChain(c, Lane(row, link));
    OutputAppend(c, output, Candidate(row, link - 1));
  }

  /** The matches of a row move from the pairs ahead into a lane. */
  lemma LaneOpened(c: Context, lanes: seq<Lane>, from: nat, row: nat, link: nat)
    requires c.Lanes(lanes) && from <= |c.batch|
    requires NextSelected(c.batch, from) == row && c.batch[row].hashed
    requires c.ValidLane(Lane(row, link))
    requires c.PairsOf(Lane(row, link)) == Matching(c.source.Build(), c.batch[row].row)
    ensures c.Lanes(lanes + [Lane(row, link)])
    ensures Ahead(c, lanes + [Lane(row, link)], row + 1) == Ahead(c, lanes, from)
  {
    hide Matching, LanePairs, Join, LiveFrom, Context.PairsOf, Leads;
    AheadStep(c, lanes, from);
    LanesAppend(c, lanes, Lane(row, link));
  }

  /** The first pair of a lane, and the pairs behind its next link. */
  lemma LaneFirst(c: Context, l: Lane, next: nat)
    requires c.ValidLane(l) && l.link > 0 && c.ValidLane(Lane(l.row, next))
    requires c.rest(l.link) == [l.link - 1] + c.rest(next)
    ensures c.source.Has(l.link - 1)
    ensures c.PairsOf(l) == multiset{(c.source.RowAt(l.link - 1), c.batch[l.row].row)} + c.PairsOf(Lane(l.row, next))
  {
    var ids := c.rest(l.link);
    assert ids[0] == l.link - 1 && ids[1..] == c.rest(next);
  }

  /** Visiting one lane moves the first pair of its chain into the output. */
  lemma LaneVisited(c: Context, lanes: seq<Lane>, i: nat, next: nat, output: seq<Candidate>, from: nat)
    requires c.Lanes(lanes) && c.Candidates(output) && i < |lanes| && lanes[i].link > 0 && from <= |c.batch|
    requires c.ValidLane(Lane(lanes[i].row, next))
    requires c.rest(lanes[i].link) == [lanes[i].link - 1] + c.rest(next)
    ensures var l := lanes[i];
            var moved := lanes[i := Lane(l.row, next)];
            var emitted := output + [Candidate(l.row, l.link - 1)];
            && c.Lanes(moved) && c.Candidates(emitted)
            && OutputPairs(c, emitted) + Ahead(c, moved, from) == OutputPairs(c, output) + Ahead(c, lanes, from)
  {
    hide OutputPairs, LanePairs, Join, LiveFrom, Context.Candidates, Context.PairsOf, Leads;
    LanesSplit(c, lanes, i);
    var l := lanes[i];
    LaneFirst(c, l, next);
    var moved := lanes[i := Lane(l.row, next)];
    assert moved[..i] == lanes[..i] && moved[i + 1..] == lanes[i + 1..];
    LanesSplit(c, moved, i);
    OutputAppend(c, output, Candidate(l.row, l.link - 1));
  }

  lemma NoPairs(c: Context, lane: Lane)
    requires c.ValidLane(lane) && lane.link == 0
    ensures c.PairsOf(lane) == multiset{}
  {}

  lemma NoLanes(c: Context, lanes: seq<Lane>)
    requires lanes == []
    ensures c.Lanes(lanes) && LanePairs(c, lanes) == multiset{} && LaneWork(c.rest, lanes) == 0
  {}

  /** The conditions keep a candidate or drop it, and with it its pair. */
  lemma {:induction false} KeptPairs(c: Context, output: seq<Candidate>, o: Candidate, kept: seq<Candidate>,
                                     q: Pair -> bool)
    requires c.Candidates(output) && c.Candidates(kept) && c.ValidCandidate(o)
    requires Keep(q, OutputPairs(c, kept)) == Keep(q, OutputPairs(c, output))
    ensures c.Candidates(kept + [o]) && c.Candidates(output + [o])
    ensures q(c.PairOf(o)) ==> Keep(q, OutputPairs(c, kept + [o])) == Keep(q, OutputPairs(c, output + [o]))
    ensures !q(c.PairOf(o)) ==> Keep(q, OutputPairs(c, kept)) == Keep(q, OutputPairs(c, output + [o]))
  {
    hide OutputPairs, Keep;
    OutputAppend(c, output, o);
    OutputAppend(c, kept, o);
    KeepUnion(q, OutputPairs(c, output), multiset{c.PairOf(o)});
    KeepUnion(q, OutputPairs(c, kept), multiset{c.PairOf(o)});
    KeepOne(q, c.PairOf(o));
  }

  /** What a round lowers: passes and batches left, whether a batch is open, its rows, its lanes. */
  datatype Progress = Progress(passes: nat, batches: nat, active: bool, rows: int, lanes: nat)

  /** The lexicographic order that every round of the output loop descends. */
  ghost predicate Lower(a: Progress, b: Progress) {
    a.passes < b.passes || (a.passes == b.passes && (a.batches < b.batches || (a.batches == b.batches && ((!a.active && b.active) ||
      (a.active == b.active && (a.rows < b.rows || (a.rows == b.rows && a.lanes < b.lanes)))))))
  }

  lemma LowerMeans(a: Progress, b: Progress)
    requires a.passes == b.passes && a.batches == b.batches && !a.active && b.active
    ensures Lower(a, b)
  {}

  lemma LowerTrans(a: Progress, b: Progress, c: Progress)
    requires Lower(a, b) && (b == c || Lower(b, c))
    ensures Lower(a, c)
  {}

  datatype Status = Continue | Full | Exhausted

  /** A build side that can be probed: by a finished local table, or in shared chunks. */
  ghost predicate Serves(source: BuildSource, table: Table?, nkeys: nat, rest: nat -> seq<nat>)
    reads table, if table == null then {} else {table.next, table.buckets}
  {
    match source
    case InMemory(rows) =>
      table != null && TableFor(table, rows) && table.nkeys == nkeys && rest == TableRest(table.next[..], |rows|)
    case InChunks(config, state) =>
      SharedLookup.Probable(config, state) && config.nkeys == nkeys && rest == SharedLookup.SharedRest(config, state)
  }

  class Executor {
    const hash: Key -> nat
    const nkeys: nat
    /** The residual join conditions, as one predicate over (build, probe). */
    const qual: Pair -> bool
    /** Passes still to be fetched, and the batches left in the current one. */
    var passes: seq<Pass>
    var batches: seq<Batch>
    /** Where the build rows are; a local build also has a table. */
    var source: BuildSource
    var table: Table?
    /** The rows a link of the current build side stands for. */
    ghost var rest: nat -> seq<nat>
    var batch: Batch
    var active: bool
    var nextRow: int

    /** The pending window, and the output rows with the count already qualified. */
    var lanes: seq<Lane>
    var output: seq<Candidate>
    var qualified: nat
    var donePending: bool
    /** output_capacity of the current request. */
    var capacity: nat

    ghost function Ctx(): Context
      reads this
    {
      Context(source, rest, batch)
    }

    /** What no step inside a batch changes. */
    ghost predicate Fixed()
      reads this, table, if table == null then {} else {table.next, table.buckets}
    {
      && nkeys > 0 && FixesLastKey(hash, nkeys)
      && PassesOk(nkeys, passes) && BatchesOk(nkeys, batches) && BatchOk(nkeys, batch)
      && (batches != [] || active ==> Serves(source, table, nkeys, rest))
    }

    ghost predicate Valid()
      reads this, table, if table == null then {} else {table.next, table.buckets}
    {
      && Fixed()
      && 0 < capacity <= BATCH_ROWS && 0 <= nextRow + 1 <= |batch|
      && |lanes| <= BATCH_ROWS && qualified <= |output| <= capacity
      && (!active ==> lanes == [] && output == [] && !donePending)
      && (active ==> Ctx().Lanes(lanes) && Ctx().Candidates(output))
      && (donePending ==> lanes == [] && LiveFrom(batch, nextRow + 1) == [])
    }

    /** The pairs of the current batch: output rows, and pairs ahead of them. */
    ghost function Pending(): multiset<Pair>
      requires 0 <= nextRow + 1 <= |batch| && Ctx().Lanes(lanes) && Ctx().Candidates(output)
      reads this
    {
      OutputPairs(Ctx(), output) + Ahead(Ctx(), lanes, nextRow + 1)
    }

    /** What the run still owes beyond the current batch. */
    ghost function Later(): multiset<Pair>
      reads this
    {
      BatchesJoin(source.Build(), batches) + PassesJoin(passes)
    }

    /** Everything still owed, the output batch included. */
    ghost function Owed(): multiset<Pair>
      requires Valid()
      reads this, table, if table == null then {} else {table.next, table.buckets}
    {
      Later() + if active then Pending() else multiset{}
    }

    /** Lowered by every round: passes, batches, the batch, its rows, its lanes. */
    ghost function Measure(): Progress
      requires nextRow <= |batch|
      reads this
    {
      Progress(|passes|, |batches|, active, |batch| - nextRow, LaneWork(rest, lanes))
    }

    ghost predicate Qualified()
      requires Valid()
      reads this, table, if table == null then {} else {table.next, table.buckets}
    {
      forall i | 0 <= i < qualified :: qual(Ctx().PairOf(output[i]))
    }

    /** find_build_head, which asks the shared chains of a parallel build. */
    method FindBuildHead(row: nat) returns (link: nat)
      requires Valid() && active && row < |batch| && batch[row].Live()
      ensures Ctx().ValidLane(Lane(row, link))
      ensures Ctx().PairsOf(Lane(row, link)) == Matching(source.Build(), batch[row].row)
    {
      hide BuiltTo, Leads, IdPairs, Matching, PassesOk, BatchesOk, Context.Lanes, Context.Candidates, LiveFrom;
      hide SharedLookup.Probable, SharedLookup.SharedRest, TableRest;
      match source
      case InMemory(rows) => link := FindTableHead(table, rows, batch[row].row);
      case InChunks(config, state) => link := SharedLookup.FindSharedHead(config, state, batch[row].row);
    }

    /** The next build row for a lane. */
    method NextBuild(lane: Lane) returns (next: nat)
      requires Valid() && active && Ctx().ValidLane(lane) && lane.link > 0
      ensures Ctx().ValidLane(Lane(lane.row, next))
      ensures rest(lane.link) == [lane.link - 1] + rest(next)
    {
      hide BuiltTo, Leads, IdPairs, Matching, PassesOk, BatchesOk, Context.Lanes, Context.Candidates, LiveFrom;
      hide SharedLookup.Probable, SharedLookup.SharedRest, TableRest;
      var key := batch[lane.row].row.key;
      match source
      case InMemory(rows) => next := NextInTable(table, rows, lane.link, key);
      case InChunks(config, state) => next := SharedLookup.NextShared(config, state, lane.link, key);
    }

    /** Whether the build side is known to have no repeated key. */
    method BuildIsUnique() returns (unique: bool)
      requires Valid() && active
      ensures unique ==> NoRepeats(source.Build())
    {
      hide BuiltTo, Matching, PassesOk, BatchesOk, Context.Lanes, Context.Candidates, LiveFrom;
      match source {
        case InMemory(rows) =>
          unique := !table.hasDuplicates;
          table.Finished();
          if unique {
            forall p: Row
              ensures |Matching(rows, p)| <= 1
            {
              UniqueKeys(rows, p);
            }
          }
        case InChunks(config, state) =>
          unique := !state.dup;
          SharedLookup.UniqueRows(config, state);
      }
    }

    /** Look up one visited row and emit its only match. */
    method VisitUnique(row: nat)
      requires Valid() && active && !donePending && lanes == [] && |output| < capacity
      requires NoRepeats(source.Build())
      requires NextSelected(batch, nextRow + 1) == row
      modifies this`output, this`nextRow
      ensures Valid() && nextRow == row && old(output) <= output
      ensures Pending() == old(Pending())
    {
      hide Serves, Ahead, OutputPairs, LiveFrom, Matching, NextSelected, Leads, NoRepeats, IdPairs;
      hide FixesLastKey, PassesOk, BatchesOk;
      ghost var c, from := Ctx(), nextRow + 1;
      AheadStep(c, [], from);
      if batch[row].hashed {
        var link := FindBuildHead(row);
        nextRow := row;
        if link != 0 {
          UniqueEmitted(c, output, from, row, link);
          output := output + [Candidate(row, link - 1)];
        } else {
          NoPairs(c, Lane(row, link));
        }
      } else {
        nextRow := row;
      }
    }

    /** probe_unique_rows: row after row while every build key is unique. */
    method ProbeUniqueRows() returns (full: bool)
      requires Valid() && active && !donePending && lanes == [] && |output| < capacity
      requires NoRepeats(source.Build())
      modifies this`output, this`nextRow
      ensures Valid() && full == (|output| == capacity) && old(output) <= output
      ensures !full ==> LiveFrom(batch, nextRow + 1) == []
      ensures nextRow >= old(nextRow) && (full ==> nextRow > old(nextRow))
      ensures Pending() == old(Pending())
    {
      hide BuiltTo, Ahead, OutputPairs, LiveFrom, FixesLastKey, PassesOk, BatchesOk, BatchOk, KeysOk;
      while |output| < capacity
        invariant Valid() && active && !donePending && lanes == []
        invariant nextRow >= old(nextRow) && (|output| > old(|output|) ==> nextRow > old(nextRow))
        invariant old(output) <= output && Pending() == old(Pending())
        decreases |batch| - nextRow
      {
        var row := NextSelected(batch, nextRow + 1);
        if row == -1 {
          AheadStep(Ctx(), lanes, nextRow + 1);
          break;
        }
        VisitUnique(row);
      }
      full := |output| == capacity;
    }

    /** Look up one visited row and open a lane for its chain. */
    method VisitLane(row: nat)
      requires Valid() && active && !donePending && |lanes| < BATCH_ROWS
      requires NextSelected(batch, nextRow + 1) == row
      modifies this`lanes, this`nextRow
      ensures Valid() && nextRow == row && |lanes| <= old(|lanes|) + 1
      ensures Pending() == old(Pending())
    {
      hide Serves, OutputPairs, Ahead, LiveFrom, Matching, NextSelected, Leads, IdPairs;
      hide FixesLastKey, PassesOk, BatchesOk;
      ghost var c, from := Ctx(), nextRow + 1;
      AheadStep(c, lanes, from);
      if batch[row].hashed {
        var link := FindBuildHead(row);
        LaneOpened(c, lanes, from, row, link);
        lanes := lanes + [Lane(row, link)];
      }
      nextRow := row;
    }

    /** load_probe_window: up to 64 lanes, each with the head of its chain. */
    method LoadProbeWindow() returns (loaded: bool)
      requires Valid() && active && !donePending && lanes == []
      modifies this`lanes, this`nextRow
      ensures Valid() && loaded == (lanes != [])
      ensures !loaded ==> LiveFrom(batch, nextRow + 1) == []
      ensures nextRow >= old(nextRow) && (loaded ==> nextRow > old(nextRow))
      ensures Pending() == old(Pending())
    {
      hide BuiltTo, Ahead, OutputPairs, LiveFrom, FixesLastKey, PassesOk, BatchesOk, BatchOk, KeysOk;
      while |lanes| < BATCH_ROWS
        invariant Valid() && active && !donePending
        invariant nextRow >= old(nextRow) && (lanes != [] ==> nextRow > old(nextRow))
        invariant Pending() == old(Pending())
        decreases |batch| - nextRow
      {
        var row := NextSelected(batch, nextRow + 1);
        if row == -1 {
          AheadStep(Ctx(), lanes, nextRow + 1);
          break;
        }
        VisitLane(row);
      }
      loaded := lanes != [];
    }

    /** Emit the pair at the head of one lane and move the lane on. */
    method VisitChainOf(i: nat) returns (next: nat)
      requires Valid() && active && !donePending && i < |lanes| && lanes[i].link != 0 && |output| < capacity
      modifies this`lanes, this`output
      ensures Valid() && Pending() == old(Pending())
      ensures |output| == |old(output)| + 1 && old(output) <= output
      ensures lanes == old(lanes)[i := Lane(old(lanes)[i].row, next)] && Advanced(rest, old(lanes)[i], lanes[i])
    {
      hide Serves, OutputPairs, Ahead, LiveFrom, Leads, IdPairs, NextSelected;
      hide FixesLastKey, PassesOk, BatchesOk, BatchOk;
      var lane := lanes[i];
      next := NextBuild(lane);
      LaneVisited(Ctx(), lanes, i, next, output, nextRow + 1);
      output := output + [Candidate(lane.row, lane.link - 1)];
      lanes := lanes[i := Lane(lane.row, next)];
    }

    /** The first loop of probe_round: one pair from each lane until the output is full. */
    method VisitLanes() returns (processed: nat, remaining: nat)
      requires Valid() && active && !donePending && lanes != [] && |output| < capacity
      modifies this`lanes, this`output
      ensures Valid() && old(output) <= output && Pending() == old(Pending())
      ensures 0 < processed <= |lanes| == old(|lanes|)
      ensures forall i | 0 <= i < |lanes| ::
                if i < processed then Advanced(rest, old(lanes)[i], lanes[i]) else lanes[i] == old(lanes)[i]
      ensures remaining == 0 ==> forall i | 0 <= i < processed :: lanes[i].link == 0
    {
      hide Fixed, OutputPairs, Ahead, LiveFrom, Leads, Context.Lanes, Context.Candidates, Advanced;
      ghost var before := lanes;
      processed, remaining := 0, 0;
      var full := false;
      while processed < |lanes| && !full
        invariant Valid() && active && !donePending
        invariant old(output) <= output && Pending() == old(Pending())
        invariant processed <= |lanes| == |before| && (full ==> processed > 0)
        invariant full <==> |output| == capacity
        invariant forall i | 0 <= i < |lanes| ::
                    if i < processed then Advanced(rest, before[i], lanes[i]) else lanes[i] == before[i]
        invariant remaining == 0 ==> forall i | 0 <= i < processed :: lanes[i].link == 0
      {
        if lanes[processed].link != 0 {
          var next := VisitChainOf(processed);
          if next != 0 {
            remaining := remaining + 1;
          }
          full := |output| == capacity;
        } else {
          AtTheEnd(rest, lanes[processed]);
        }
        processed := processed + 1;
      }
    }

    /** probe_round: one round over the lanes, then keep those with more to visit. */
    method ProbeRound()
      requires Valid() && active && !donePending && lanes != [] && |output| < capacity
      modifies this`lanes, this`output
      ensures Valid() && old(output) <= output && Pending() == old(Pending())
      ensures LaneWork(rest, lanes) < old(LaneWork(rest, lanes))
    {
      hide BuiltTo, OutputPairs, LanePairs, Join, LiveFrom, Surviving, LaneWork;
      hide FixesLastKey, PassesOk, BatchesOk, BatchOk, KeysOk;
      var processed, remaining := VisitLanes();
      RoundLowersWork(rest, old(lanes), lanes, processed);
      SurvivingKeepsPairs(Ctx(), lanes, processed);
      if processed == |lanes| && remaining == 0 {
        NothingSurvives(lanes, processed);
        lanes := [];
      } else {
        lanes := Compact(lanes, processed);
      }
    }

    /** The second loop of probe_round. */
    static method Compact(lanes: seq<Lane>, processed: nat) returns (kept: seq<Lane>)
      ensures kept == Surviving(lanes, processed)
    {
      kept := [];
      for lane := 0 to |lanes|
        invariant kept == Surviving(lanes[..lane], processed)
      {
        if lane >= processed || lanes[lane].link != 0 {
          kept := kept + [lanes[lane]];
        }
        assert lanes[..lane + 1][..lane] == lanes[..lane];
      }
      assert lanes[..|lanes|] == lanes;
    }

    /** The last loop of qualify_output: close the gaps left by dropped rows. */
    static method KeepQualified(source: BuildSource, batch: Batch, ghost c: Context, output: seq<Candidate>, first: nat,
                                qual: Pair -> bool)
      returns (kept: seq<Candidate>)
      requires c.source == source && c.batch == batch && c.Candidates(output) && first <= |output|
      ensures c.Candidates(kept) && output[..first] <= kept && |kept| <= |output|
      ensures forall i | first <= i < |kept| :: qual(c.PairOf(kept[i]))
      ensures Keep(qual, OutputPairs(c, kept)) == Keep(qual, OutputPairs(c, output))
    {
      hide OutputPairs, Keep;
      kept := output[..first];
      for row := first to |output|
        invariant c.Candidates(kept) && c.Candidates(output[..row])
        invariant output[..first] <= kept && |kept| <= row
        invariant forall i | first <= i < |kept| :: qual(c.PairOf(kept[i]))
        invariant Keep(qual, OutputPairs(c, kept)) == Keep(qual, OutputPairs(c, output[..row]))
      {
        var o := output[row];
        KeptPairs(c, output[..row], o, kept, qual);
        assert output[..row + 1] == output[..row] + [o];
        if qual((source.RowAt(o.build), batch[o.probe].row)) {
          kept := kept + [o];
        }
      }
      assert output[..|output|] == output;
    }

    /** qualify_output: keep the candidates that pass the residual conditions. */
    method QualifyOutput()
      requires Valid() && active && !donePending
      modifies this`output, this`qualified
      ensures Valid() && qualified == |output| <= old(|output|)
      ensures old(output)[..old(qualified)] <= output
      ensures forall i | old(qualified) <= i < |output| :: qual(Ctx().PairOf(output[i]))
      ensures Keep(qual, Owed()) == Keep(qual, old(Owed()))
    {
      hide BuiltTo, OutputPairs, Ahead, LiveFrom, FixesLastKey, PassesOk, BatchesOk, BatchOk, KeysOk, Keep;
      hide BatchesJoin, PassesJoin;
      KeepUnion(qual, Later(), Pending());
      var kept := KeepQualified(source, batch, Ctx(), output, qualified, qual);
      KeepUnion(qual, OutputPairs(Ctx(), output), Ahead(Ctx(), lanes, nextRow + 1));
      KeepUnion(qual, OutputPairs(Ctx(), kept), Ahead(Ctx(), lanes, nextRow + 1));
      output := kept;
      qualified := |kept|;
      KeepUnion(qual, Later(), Pending());
    }

    /** finish_probe_batch: nothing of the batch may be left. */
    method FinishProbeBatch()
      requires Valid() && active && lanes == [] && output == [] && LiveFrom(batch, nextRow + 1) == []
      modifies this`active, this`donePending, this`qualified
      ensures Valid() && !active && old(Pending()) == multiset{}
    {
      hide BuiltTo, FixesLastKey, PassesOk, BatchesOk, BatchOk, KeysOk;
      active, donePending, qualified := false, false, 0;
    }

    /** A serial join, or one participant's part of a spilled parallel join: local tables, one
        after the other. */
    constructor (hash: Key -> nat, nkeys: nat, qual: Pair -> bool, passes: seq<Pass>)
      requires nkeys > 0 && FixesLastKey(hash, nkeys) && PassesOk(nkeys, passes)
      ensures Valid() && !active && Owed() == Unpublished() == PassesJoin(passes)
      ensures this.qual == qual
    {
      this.hash, this.nkeys, this.qual, this.passes := hash, nkeys, qual, passes;
      batches, source, table, batch := [], InMemory([]), null, [];
      rest := (link: nat) => [];
      active, nextRow, lanes, output, qualified, donePending := false, -1, [], [], 0, false;
      capacity := BATCH_ROWS;
    }

    /** One participant's part of an unspilled parallel join: its probe batches against the
        shared chains. */
    constructor Shared(config: Parallel.Config, state: Parallel.Shared, qual: Pair -> bool, batches: seq<Batch>)
      requires SharedLookup.Probable(config, state) && BatchesOk(config.nkeys, batches)
      ensures Valid() && !active && Owed() == Unpublished() == BatchesJoin(InChunks(config, state).Build(), batches)
      ensures this.qual == qual
    {
      this.hash, this.nkeys, this.qual, this.passes := config.hash, config.nkeys, qual, [];
      this.batches, source, table, batch := batches, InChunks(config, state), null, [];
      rest := SharedLookup.SharedRest(config, state);
      active, nextRow, lanes, output, qualified, donePending := false, -1, [], [], 0, false;
      capacity := BATCH_ROWS;
    }

    /** Open the next pass: build its table. */
    method OpenPass()
      requires Valid() && !active && batches == [] && passes != []
      modifies this`passes, this`batches, this`source, this`table, this`rest
      ensures Valid() && |passes| < old(|passes|) && Owed() == old(Owed())
    {
      hide BuiltTo, Join, LiveFrom, FixesLastKey, Keys;
      var pass := passes[0];
      var hashes := seq(|pass.build|, i requires 0 <= i < |pass.build| => hash(pass.build[i].key));
      KeysKept(pass.build);
      var t := new Table(hash, nkeys, Keys(pass.build), hashes, pass.shift);
      table, rest := t, TableRest(t.next[..], |pass.build|);
      source, batches, passes := InMemory(pass.build), pass.batches, passes[1..];
    }

    /** Take the next batch of the current pass. */
    method LoadBatch()
      requires Valid() && !active && batches != []
      modifies this`batches, this`batch, this`active, this`nextRow
      ensures Valid() && active && lanes == [] && output == [] && !donePending
      ensures |batches| < old(|batches|) && Owed() == old(Owed())
    {
      hide Serves, Join, LiveFrom, FixesLastKey, PassesOk, KeysOk;
      batch, batches, nextRow, active := batches[0], batches[1..], -1, true;
    }

    /** fetch_probe_batch: the next batch of the current pass, or of the next pass. */
    method FetchProbe() returns (found: bool)
      requires Valid() && !active
      modifies this`passes, this`batches, this`source, this`table, this`rest, this`batch, this`active, this`nextRow
      ensures Valid() && found == active && lanes == [] && output == [] && !donePending
      ensures Owed() == old(Owed())
      ensures found ==> Lower(Measure(), old(Measure()))
      ensures !found ==> Owed() == multiset{}
    {
      hide BuiltTo, Join, LiveFrom, FixesLastKey, PassesOk, KeysOk, BatchesOk, BatchOk, Ahead, OutputPairs;
      while batches == []
        invariant Valid() && !active && Owed() == old(Owed())
        invariant |passes| < old(|passes|) || (|passes| == old(|passes|) && batches == old(batches))
        decreases |passes|, |batches|
      {
        if passes == [] {
          return false;
        }
        OpenPass();
      }
      LoadBatch();
      found := true;
    }

    /** A round while lanes are pending. */
    method RoundStep() returns (status: Status)
      requires Valid() && active && !donePending && lanes != [] && |output| < capacity && Qualified()
      modifies this`lanes, this`output, this`qualified
      ensures Valid() && Qualified() && Keep(qual, Owed()) == Keep(qual, old(Owed()))
      ensures status == Continue ==> |output| < capacity && Lower(Measure(), old(Measure()))
      ensures status == Full ==> qualified == |output| > 0
      ensures status == Full ==> |output| == capacity
      ensures status != Exhausted
    {
      hide Fixed, Context.Lanes, Context.Candidates, Join, LiveFrom, BatchesJoin, PassesJoin, Ahead;
      hide OutputPairs, LaneWork, Keep;
      ProbeRound();
      if |output| == capacity {
        QualifyOutput();
        if |output| == capacity {
          return Full;
        }
      }
      return Continue;
    }

    method MarkDone()
      requires Valid() && active && lanes == [] && LiveFrom(batch, nextRow + 1) == []
      modifies this`donePending
      ensures Valid() && donePending && Pending() == old(Pending())
    {
      hide BuiltTo, Join, LiveFrom, FixesLastKey, PassesOk, KeysOk, BatchesOk, BatchOk, Context.Lanes;
      hide Context.Candidates;
      donePending := true;
    }

    /** The end of a batch: publish what is collected, or finish the batch. */
    method CloseBatch() returns (status: Status)
      requires Valid() && active && !donePending && lanes == [] && LiveFrom(batch, nextRow + 1) == [] && Qualified()
      modifies this`output, this`qualified, this`donePending, this`active
      ensures Valid() && Qualified() && Keep(qual, Owed()) == Keep(qual, old(Owed()))
      ensures status == Continue ==> !active && !donePending
      ensures status == Full ==> active && qualified == |output| > 0
      ensures status == Full ==> donePending || |output| == capacity
      ensures status != Exhausted
    {
      hide Fixed, Context.Lanes, Context.Candidates, Join, LiveFrom, BatchesJoin, PassesJoin, Ahead;
      hide OutputPairs, LaneWork, Keep;
      if output != [] {
        QualifyOutput();
        if output != [] {
          MarkDone();
          return Full;
        }
      }
      FinishProbeBatch();
      return Continue;
    }

    /** The unique path: a full output is qualified at once. */
    method UniqueStep() returns (full: bool, status: Status)
      requires Valid() && active && !donePending && lanes == [] && |output| < capacity && Qualified()
      requires NoRepeats(source.Build())
      modifies this`output, this`qualified, this`nextRow
      ensures Valid() && Qualified() && Keep(qual, Owed()) == Keep(qual, old(Owed()))
      ensures nextRow >= old(nextRow) && (full ==> nextRow > old(nextRow))
      ensures full ==> status == if |output| == capacity then Full else Continue
      ensures full ==> qualified == |output|
      ensures !full ==> LiveFrom(batch, nextRow + 1) == []
    {
      hide Fixed, Context.Lanes, Context.Candidates, Join, LiveFrom, BatchesJoin, PassesJoin, Ahead;
      hide OutputPairs, LaneWork, Keep;
      status := Continue;
      full := ProbeUniqueRows();
      if full {
        QualifyOutput();
        status := if |output| == capacity then Full else Continue;
      }
    }

    /** Visit more rows of the batch; when none are left, close the batch. */
    method BatchStep() returns (status: Status)
      requires Valid() && active && !donePending && lanes == [] && |output| < capacity && Qualified()
      modifies this`lanes, this`output, this`qualified, this`nextRow, this`donePending, this`active
      ensures Valid() && Qualified() && Keep(qual, Owed()) == Keep(qual, old(Owed()))
      ensures status == Continue ==> |output| < capacity && !donePending && Lower(Measure(), old(Measure()))
      ensures status == Full ==> active && qualified == |output| > 0
      ensures status == Full ==> donePending || |output| == capacity
      ensures status != Exhausted
    {
      hide Fixed, Context.Lanes, Context.Candidates, Join, LiveFrom, BatchesJoin, PassesJoin, Ahead;
      hide OutputPairs, LaneWork, Keep;
      var unique := BuildIsUnique();
      if unique {
        var full;
        full, status := UniqueStep();
        if full {
          return;
        }
      } else {
        var loaded := LoadProbeWindow();
        if loaded {
          return Continue;
        }
      }
      status := CloseBatch();
    }

    /** Visit rows of the current batch, fetching one first if there is none. */
    method FetchAndStep() returns (status: Status)
      requires Valid() && Qualified() && |output| < capacity && !donePending && lanes == []
      requires !active ==> output == []
      modifies this
      ensures Valid() && Qualified() && capacity == old(capacity)
      ensures Keep(qual, Owed()) == Keep(qual, old(Owed()))
      ensures status == Continue ==> |output| < capacity && !donePending && Lower(Measure(), old(Measure()))
      ensures status == Full ==> active && qualified == |output| > 0
      ensures status == Full ==> donePending || |output| == capacity
      ensures status == Exhausted ==> !active && Owed() == multiset{}
    {
      hide Lower, Context.PairOf;
      hide Fixed, Context.Lanes, Context.Candidates, Join, LiveFrom, BatchesJoin, PassesJoin, Ahead;
      hide OutputPairs, LaneWork, Keep;
      ghost var m := Measure();
      if !active {
        var found := FetchProbe();
        if !found {
          return Exhausted;
        }
      }
      ghost var m' := Measure();
      status := BatchStep();
      if status == Continue {
        LowerTrans(Measure(), m', m);
      }
    }

    /** One round of produce_output's loop: work on the current batch, or fetch one. */
    method Advance() returns (status: Status)
      requires Valid() && Qualified() && |output| < capacity && (donePending ==> output == [])
      modifies this
      ensures Valid() && Qualified() && capacity == old(capacity)
      ensures Keep(qual, Owed()) == Keep(qual, old(Owed()))
      ensures status == Continue ==> |output| < capacity && !donePending && Lower(Measure(), old(Measure()))
      ensures status == Full ==> active && qualified == |output| > 0
      ensures status == Full ==> donePending || |output| == capacity
      ensures status == Exhausted ==> !active && Owed() == multiset{}
    {
      hide Lower, Context.PairOf;
      hide Fixed, Context.Lanes, Context.Candidates, Join, LiveFrom, BatchesJoin, PassesJoin, Ahead;
      hide OutputPairs, LaneWork, Keep;
      ghost var m := Measure();
      if donePending {
        FinishProbeBatch();
        LowerMeans(Measure(), m);
      }
      if lanes != [] {
        status := RoundStep();
        return;
      }
      ghost var m' := Measure();
      status := FetchAndStep();
      if status == Continue {
        LowerTrans(Measure(), m', m);
      }
    }

    /** The pairs not yet in any output batch. */
    ghost function Unpublished(): multiset<Pair>
      requires Valid()
      reads this, table, if table == null then {} else {table.next, table.buckets}
    {
      Later() + if active then Ahead(Ctx(), lanes, nextRow + 1) else multiset{}
    }

    /** reset_output, with the capacity of the new request. */
    method ResetOutput(maxRows: nat)
      requires Valid()
      modifies this`output, this`qualified, this`capacity
      ensures Valid() && output == [] && qualified == 0 && capacity == Capacity(maxRows)
      ensures Owed() == old(Unpublished())
    {
      hide BuiltTo, Join, LiveFrom, FixesLastKey, PassesOk, KeysOk, BatchesOk, BatchOk, Context.Lanes;
      output, qualified, capacity := [], 0, Capacity(maxRows);
    }

    lemma Published()
      requires Valid() && Qualified() && active && qualified == |output|
      ensures Keep(qual, Owed()) == Keep(qual, Unpublished()) + OutputPairs(Ctx(), output)
    {
      hide Fixed, Join, LiveFrom, BatchesJoin, PassesJoin, Ahead, OutputPairs, Keep;
      KeepUnion(qual, Unpublished(), OutputPairs(Ctx(), output));
      AllKept(Ctx(), output, qual);
      assert Owed() == Unpublished() + OutputPairs(Ctx(), output);
    }

    /** produce_output: the next nonempty batch of qualifying pairs, or the end.
        Its positions all refer to the one current probe batch. */
    method ProduceOutput(maxRows: nat) returns (more: bool)
      requires Valid()
      modifies this
      ensures Valid()
      ensures more ==> active && 0 < |output| <= 64 && (maxRows > 0 ==> |output| <= maxRows)
      ensures more ==> donePending || |output| == if 0 < maxRows < 64 then maxRows else 64
      ensures more ==> forall i | 0 <= i < |output| :: qual(Ctx().PairOf(output[i]))
      ensures more ==> Keep(qual, old(Unpublished())) == Keep(qual, Unpublished()) + OutputPairs(Ctx(), output)
      ensures !more ==> Keep(qual, old(Unpublished())) == multiset{} == Keep(qual, Unpublished())
    {
      hide Fixed, Context.Lanes, Context.Candidates, Join, LiveFrom, BatchesJoin, PassesJoin, Ahead;
      hide OutputPairs, LaneWork, Lower;
      hide Keep;
      ghost var owed := Unpublished();
      ResetOutput(maxRows);
      var status := Continue;
      while status == Continue
        invariant Valid() && Qualified() && capacity == Capacity(maxRows)
        invariant Keep(qual, Owed()) == Keep(qual, owed)
        invariant status == Continue ==> |output| < capacity && (donePending ==> output == [])
        invariant status == Full ==> active && qualified == |output| > 0 && |output| <= capacity
        invariant status == Full ==> donePending || |output| == capacity
        invariant status == Exhausted ==> !active && Owed() == multiset{}
        decreases status == Continue, Measure().passes, Measure().batches, Measure().active, Measure().rows, Measure().lanes
      {
        ghost var m := Measure();
        status := Advance();
        if status == Continue {
          LowerIsLexicographic(Measure(), m);
        }
      }
      more := status == Full;
      if more {
        Published();
      } else {
        NothingKept(qual);
      }
    }

    /** The published batch as row pairs. */
    method Collect() returns (pairs: seq<Pair>)
      requires Valid() && active
      ensures multiset(pairs) == OutputPairs(Ctx(), output) && |pairs| == |output|
    {
      hide Fixed, Context.Lanes;
      pairs := [];
      for i := 0 to |output|
        invariant |pairs| == i && multiset(pairs) == OutputPairs(Ctx(), output[..i])
      {
        OutputAppend(Ctx(), output[..i], output[i]);
        assert output[..i + 1] == output[..i] + [output[i]];
        pairs := pairs + [(source.RowAt(output[i].build), batch[output[i].probe].row)];
      }
      assert output[..|output|] == output;
    }
  }

  lemma {:induction false} AllKept(c: Context, output: seq<Candidate>, q: Pair -> bool)
    requires c.Candidates(output) && forall i | 0 <= i < |output| :: q(c.PairOf(output[i]))
    ensures Keep(q, OutputPairs(c, output)) == OutputPairs(c, output)
  {
    hide Keep;
    if output == [] {
      NothingKept(q);
    } else {
      var n := |output| - 1;
      AllKept(c, output[..n], q);
      KeepUnion(q, OutputPairs(c, output[..n]), multiset{c.PairOf(output[n])});
      KeepOne(q, c.PairOf(output[n]));
    }
  }

  lemma NothingKept(q: Pair -> bool)
    ensures Keep(q, multiset{}) == multiset{}
  {}

  function Capacity(maxRows: nat): nat {
    if 0 < maxRows < BATCH_ROWS then maxRows else BATCH_ROWS
  }

  lemma LowerIsLexicographic(a: Progress, b: Progress)
    requires Lower(a, b)
    ensures a.passes <= b.passes && (a.passes == b.passes ==> a.batches <= b.batches) && (a.passes == b.passes && a.batches == b.batches ==> (a.active ==> b.active))
    ensures a.passes == b.passes && a.batches == b.batches && a.active == b.active ==> a.rows < b.rows || (a.rows == b.rows && a.lanes < b.lanes)
  {}

  /** All calls of an executor, whatever row limit each asks for: nonempty batches of at most 64
      rows that hold exactly the qualifying pairs it owed. */
  method Drain(executor: Executor, limits: seq<nat>, ghost owed: multiset<Pair>) returns (outputs: seq<seq<Pair>>)
    requires executor.Valid() && !executor.active && owed == Keep(executor.qual, executor.Unpublished())
    modifies executor
    ensures Flat(outputs) == owed
    ensures Bounded(outputs, limits)
  {
    hide Bounded, Keep, Flat, Capacity, Executor.Fixed, Executor.Unpublished, Executor.Owed, OutputPairs;
    hide Context.Lanes;
    ghost var qual := executor.qual;
    outputs := [];
    NothingFlat();
    NothingBounded(limits);
    var more := true;
    while more
      invariant executor.Valid() && executor.qual == qual
      invariant Flat(outputs) + Keep(qual, executor.Unpublished()) == owed
      invariant !more ==> Keep(qual, executor.Unpublished()) == multiset{}
      invariant Bounded(outputs, limits)
      decreases more, |Keep(qual, executor.Unpublished())|
    {
      more := executor.ProduceOutput(if |outputs| < |limits| then limits[|outputs|] else 0);
      if more {
        var pairs := executor.Collect();
        FlatAppend(outputs, pairs);
        BoundedAppend(outputs, limits, pairs);
        outputs := outputs + [pairs];
      }
    }
  }

  /** A whole run over local tables. */
  method Run(hash: Key -> nat, nkeys: nat, qual: Pair -> bool, passes: seq<Pass>, limits: seq<nat>)
    returns (outputs: seq<seq<Pair>>)
    requires nkeys > 0 && FixesLastKey(hash, nkeys) && PassesOk(nkeys, passes)
    ensures Flat(outputs) == Keep(qual, PassesJoin(passes))
    ensures Bounded(outputs, limits)
  {
    hide PassesJoin, Keep, Flat, Bounded, Executor.Fixed, Executor.Owed;
    var executor := new Executor(hash, nkeys, qual, passes);
    outputs := Drain(executor, limits, Keep(qual, PassesJoin(passes)));
  }

  /** A whole run over the shared chains of an unspilled parallel build. */
  method RunShared(config: Parallel.Config, state: Parallel.Shared, qual: Pair -> bool, batches: seq<Batch>,
                   limits: seq<nat>)
    returns (outputs: seq<seq<Pair>>)
    requires SharedLookup.Probable(config, state) && BatchesOk(config.nkeys, batches)
    ensures Flat(outputs) == Keep(qual, BatchesJoin(InChunks(config, state).Build(), batches))
    ensures Bounded(outputs, limits)
  {
    hide BatchesJoin, Keep, Flat, Bounded, Executor.Fixed, Executor.Owed;
    var executor := new Executor.Shared(config, state, qual, batches);
    outputs := Drain(executor, limits, Keep(qual, BatchesJoin(InChunks(config, state).Build(), batches)));
  }

  lemma NothingBounded(limits: seq<nat>)
    ensures Bounded([], limits)
  {}

  lemma BoundedAppend(outputs: seq<seq<Pair>>, limits: seq<nat>, pairs: seq<Pair>)
    requires Bounded(outputs, limits) && 0 < |pairs| <= 64
    requires |outputs| < |limits| && limits[|outputs|] > 0 ==> |pairs| <= limits[|outputs|]
    ensures Bounded(outputs + [pairs], limits)
  {}

  /** Every batch is nonempty, of at most 64 pairs, and within what its request asks for. */
  ghost predicate Bounded(outputs: seq<seq<Pair>>, limits: seq<nat>) {
    forall i | 0 <= i < |outputs| ::
      0 < |outputs[i]| <= 64 && (i < |limits| && limits[i] > 0 ==> |outputs[i]| <= limits[i])
  }

  lemma NothingFlat()
    ensures Flat([]) == multiset{}
  {}

  ghost function Flat(outputs: seq<seq<Pair>>): multiset<Pair> {
    if outputs == [] then multiset{} else Flat(outputs[..|outputs| - 1]) + multiset(outputs[|outputs| - 1])
  }

  lemma FlatAppend(outputs: seq<seq<Pair>>, pairs: seq<Pair>)
    ensures Flat(outputs + [pairs]) == Flat(outputs) + multiset(pairs)
  {
    assert (outputs + [pairs])[..|outputs|] == outputs;
  }
}
