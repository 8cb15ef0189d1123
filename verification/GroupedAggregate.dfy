/** The grouped aggregate: a bounded table of groups, and recursive spill partitions
    processed from a work queue. (nodes/aggregate.c, advance_grouped_batch to
    agg_exec_grouped) */
module GroupedAggregate {
  import opened Vectors
  import opened Hashing
  import opened Arithmetic
  import opened Sizes
  import opened Selecting
  import opened Aggregation

  const FANOUT: nat := 32
  const HASH_BITS: nat := 32

  /** group_hash */
  function HashOf(key: GroupKey): (h: nat)
    ensures h < 0x1_0000_0000
  {
    GroupHash(key) as int
  }

  /** The spill partition of a key at one level. */
  function PartitionOf(key: GroupKey, shift: nat, n: nat): nat
    requires n > 0
  {
    Slice(HashOf(key), shift, n)
  }

  function In(shift: nat, n: nat, p: nat): InputRow -> bool
    requires n > 0
  {
    (r: InputRow) => PartitionOf(r.key, shift, n) == p
  }

  /** Rows of groups that are not in the table, of one partition. */
  function Outside(groups: set<GroupKey>, p: nat): InputRow -> bool {
    (r: InputRow) => r.key !in groups && PartitionOf(r.key, 0, FANOUT) == p
  }

  /** One row of output. */
  datatype Group = Group(key: GroupKey, entry: Entry)

  datatype SpillWork = SpillWork(rows: seq<InputRow>, shift: nat)

  // ----- the table -----

  /** Every group of the table holds the fold of the rows with its key. */
  ghost predicate Folded(spec: Spec, groups: map<GroupKey, Entry>, rows: seq<InputRow>)
    requires RowsOk(spec, rows)
  {
    forall k | k in groups :: FoldKey(spec, rows, k) == Some(groups[k])
  }

  ghost predicate EntriesOk(spec: Spec, groups: map<GroupKey, Entry>) {
    forall k | k in groups :: |groups[k].values| == |spec.inputs|
  }

  /** What the input phase keeps: the table is exact for its keys, all other rows are in
      the file of their partition, in order, and the table is full once that happens. */
  ghost predicate Collected(spec: Spec, limit: nat, groups: map<GroupKey, Entry>, spilling: bool,
                            files: seq<seq<InputRow>>, rows: seq<InputRow>)
  {
    && RowsOk(spec, rows) && Folded(spec, groups, rows) && EntriesOk(spec, groups)
    && |groups| <= limit && |files| == FANOUT
    && (forall p | 0 <= p < FANOUT :: files[p] == Select(rows, Outside(groups.Keys, p)))
    && (!spilling ==> forall i | 0 <= i < |rows| :: rows[i].key in groups)
    && (spilling ==> |groups| == limit)
    && (forall k | k in groups :: k in KeySet(rows))
    && (rows != [] ==> rows[0].key in groups)
  }

  lemma FoldedOne(spec: Spec, groups: map<GroupKey, Entry>, rows: seq<InputRow>, row: InputRow, e: Entry)
    requires RowsOk(spec, rows) && RowOk(spec, row) && Folded(spec, groups, rows)
    requires FoldKey(spec, rows + [row], row.key) == Some(e)
    ensures RowsOk(spec, rows + [row]) && Folded(spec, groups[row.key := e], rows + [row])
  {
    forall k | k in groups[row.key := e]
      ensures FoldKey(spec, rows + [row], k) == Some(groups[row.key := e][k])
    {
      FoldKeyOne(spec, rows, row, k);
    }
  }

  lemma FilesKeep(files: seq<seq<InputRow>>, rows: seq<InputRow>, row: InputRow, groups: set<GroupKey>)
    requires |files| == FANOUT && forall p | 0 <= p < FANOUT :: files[p] == Select(rows, Outside(groups, p))
    ensures row.key in groups ==> forall p | 0 <= p < FANOUT :: files[p] == Select(rows + [row], Outside(groups, p))
    ensures row.key !in groups ==>
              var q := PartitionOf(row.key, 0, FANOUT);
              forall p | 0 <= p < FANOUT :: files[q := files[q] + [row]][p] == Select(rows + [row], Outside(groups, p))
  {
    forall p | 0 <= p < FANOUT
      ensures Select(rows + [row], Outside(groups, p)) ==
              if row.key !in groups && PartitionOf(row.key, 0, FANOUT) == p then files[p] + [row] else files[p]
    {
      SelectOne(rows, row, Outside(groups, p));
    }
  }

  /** A new group while everything is still in the table. */
  lemma FilesGrow(files: seq<seq<InputRow>>, rows: seq<InputRow>, before: set<GroupKey>, after: set<GroupKey>)
    requires |files| == FANOUT && forall p | 0 <= p < FANOUT :: files[p] == Select(rows, Outside(before, p))
    requires before <= after && forall i | 0 <= i < |rows| :: rows[i].key in before
    ensures forall p | 0 <= p < FANOUT :: files[p] == Select(rows, Outside(after, p))
  {
    forall p | 0 <= p < FANOUT
      ensures Select(rows, Outside(before, p)) == Select(rows, Outside(after, p))
    {
      SelectSame(rows, Outside(before, p), Outside(after, p));
    }
  }

  lemma KeySetOne(rows: seq<InputRow>, row: InputRow)
    ensures KeySet(rows + [row]) == KeySet(rows) + {row.key}
  {
    assert (rows + [row])[..|rows|] == rows;
  }

  /** A row that finds or makes its group. */
  lemma AdvanceKeeps(spec: Spec, limit: nat, groups: map<GroupKey, Entry>, spilling: bool, files: seq<seq<InputRow>>,
                     rows: seq<InputRow>, row: InputRow, e: Entry)
    requires Collected(spec, limit, groups, spilling, files, rows) && RowOk(spec, row)
    requires row.key in groups || (!spilling && |groups| < limit)
    requires AdvanceEntry(spec, if row.key in groups then groups[row.key] else ZeroEntry(spec), row) == Some(e)
    ensures Collected(spec, limit, groups[row.key := e], spilling, files, rows + [row])
  {
    hide AdvanceEntry, Fold, FoldKey, Folded, Outside, KeySet, Select, ZeroEntry;
    var after := groups[row.key := e];
    FoldKeyOne(spec, rows, row, row.key);
    KeySetOne(rows, row);
    assert FoldKey(spec, rows, row.key) == Some(if row.key in groups then groups[row.key] else ZeroEntry(spec)) by {
      if row.key !in groups {
        NewKey(spec, limit, groups, spilling, files, rows, row.key);
      } else {
        FoldedAt(spec, groups, rows, row.key);
      }
    }
    FoldedOne(spec, groups, rows, row, e);
    assert after.Keys == groups.Keys + {row.key};
    if row.key !in groups {
      FilesGrow(files, rows, groups.Keys, after.Keys);
    } else {
      assert after.Keys == groups.Keys;
    }
    FilesKeep(files, rows, row, after.Keys);
  }

  lemma FoldedAt(spec: Spec, groups: map<GroupKey, Entry>, rows: seq<InputRow>, k: GroupKey)
    requires RowsOk(spec, rows) && Folded(spec, groups, rows) && k in groups
    ensures FoldKey(spec, rows, k) == Some(groups[k])
  {}

  lemma NewKey(spec: Spec, limit: nat, groups: map<GroupKey, Entry>, spilling: bool, files: seq<seq<InputRow>>,
               rows: seq<InputRow>, key: GroupKey)
    requires Collected(spec, limit, groups, spilling, files, rows) && !spilling && key !in groups
    ensures FoldKey(spec, rows, key) == Some(ZeroEntry(spec))
  {
    KeySetMembers(rows, key);
    NoRowsOfKey(rows, key);
  }

  /** A row without room for its group. */
  lemma SpillKeeps(spec: Spec, limit: nat, groups: map<GroupKey, Entry>, spilling: bool, files: seq<seq<InputRow>>,
                   rows: seq<InputRow>, row: InputRow)
    requires Collected(spec, limit, groups, spilling, files, rows) && RowOk(spec, row)
    requires row.key !in groups && (spilling || |groups| >= limit) && limit > 0
    ensures var p := PartitionOf(row.key, 0, FANOUT);
            Collected(spec, limit, groups, true, files[p := files[p] + [row]], rows + [row])
  {
    hide AdvanceEntry, Fold;
    FilesKeep(files, rows, row, groups.Keys);
    forall k | k in groups
      ensures FoldKey(spec, rows + [row], k) == Some(groups[k])
    {
      FoldKeyOne(spec, rows, row, k);
    }
    KeySetOne(rows, row);
    TableHasRows(groups, rows);
  }

  lemma TableHasRows(groups: map<GroupKey, Entry>, rows: seq<InputRow>)
    requires |groups| > 0 && forall k | k in groups :: k in KeySet(rows)
    ensures rows != []
  {
    var k :| k in groups;
    assert k in KeySet(rows);
  }

  // ----- the work queue -----

  /** All rows agree on the hash bits used so far. */
  ghost predicate Agree(rows: seq<InputRow>, shift: nat) {
    forall i, j | 0 <= i < |rows| && 0 <= j < |rows| :: HashOf(rows[i].key) % Pow2(shift) == HashOf(rows[j].key) % Pow2(shift)
  }

  ghost predicate WorkOk(spec: Spec, input: seq<InputRow>, w: SpillWork) {
    && w.rows != [] && 5 <= w.shift <= HASH_BITS && Agree(w.rows, w.shift) && RowsOk(spec, w.rows)
    && (forall k | k in KeySet(w.rows) :: Select(w.rows, Is(k)) == Select(input, Is(k)))
  }

  ghost predicate KeysApart(work: seq<SpillWork>) {
    forall a, b | 0 <= a < b < |work| :: KeySet(work[a].rows) !! KeySet(work[b].rows)
  }

  ghost predicate AllWorkOk(spec: Spec, input: seq<InputRow>, work: seq<SpillWork>) {
    forall i | 0 <= i < |work| :: WorkOk(spec, input, work[i])
  }

  function WorkKeys(work: seq<SpillWork>): set<GroupKey> {
    if work == [] then {} else KeySet(work[0].rows) + WorkKeys(work[1..])
  }

  function ResultKeys(results: seq<Group>): set<GroupKey> {
    if results == [] then {} else ResultKeys(results[..|results| - 1]) + {results[|results| - 1].key}
  }

  /** Every emitted group is the whole fold of its key, emitted once. */
  ghost predicate ResultsOk(spec: Spec, input: seq<InputRow>, results: seq<Group>)
    requires RowsOk(spec, input)
  {
    && (forall i | 0 <= i < |results| :: FoldKey(spec, input, results[i].key) == Some(results[i].entry))
    && (forall i, j | 0 <= i < j < |results| :: results[i].key != results[j].key)
  }

  /** Every key of the input is emitted or wholly in one work item, never both. */
  ghost predicate Queued(spec: Spec, input: seq<InputRow>, results: seq<Group>, work: seq<SpillWork>) {
    && RowsOk(spec, input) && ResultsOk(spec, input, results) && AllWorkOk(spec, input, work) && KeysApart(work)
    && ResultKeys(results) + WorkKeys(work) == KeySet(input)
    && ResultKeys(results) !! WorkKeys(work)
  }

  /** The hash bits a work item has left, and one. */
  function Level(shift: nat): nat {
    if shift <= HASH_BITS then 33 - shift else 0
  }

  /** What the queue still weighs; repartitioning and processing both lower it. */
  function Weight(work: seq<SpillWork>): nat {
    if work == [] then 0 else |work[0].rows| * Level(work[0].shift) + Weight(work[1..])
  }

  // ----- loading one partition -----

  datatype Load = Loaded(groups: map<GroupKey, Entry>) | TooMany | LoadOverflow

  /** load_spill_groups: the groups of one work item, unless there are too many. */
  method LoadSpillGroups(spec: Spec, limit: nat, rows: seq<InputRow>) returns (load: Load)
    requires RowsOk(spec, rows) && limit > 0
    ensures load.Loaded? ==> Folded(spec, load.groups, rows) && load.groups.Keys == KeySet(rows) && |load.groups| <= limit
    ensures load.TooMany? ==> |KeySet(rows)| > limit
    ensures load.LoadOverflow? ==> exists k :: k in KeySet(rows) && FoldKey(spec, rows, k) == None
  {
    hide Fold, AdvanceEntry, Folded, FoldKey, ZeroEntry, Select, KeySet, EntriesOk;
    var groups: map<GroupKey, Entry> := map[];
    EmptyTable(spec);
    for i := 0 to |rows|
      invariant RowsOk(spec, rows[..i]) && Folded(spec, groups, rows[..i]) && EntriesOk(spec, groups)
      invariant groups.Keys == KeySet(rows[..i]) && |groups| <= limit
    {
      var row := rows[i];
      assert rows[..i + 1] == rows[..i] + [row];
      KeySetOne(rows[..i], row);
      EntriesAt(spec, groups, row.key);
      if row.key !in groups && |groups| >= limit {
        MoreKeys(rows, i, groups.Keys);
        return TooMany;
      }
      var before := if row.key in groups then groups[row.key] else ZeroEntry(spec);
      assert FoldKey(spec, rows[..i], row.key) == Some(before) by {
        if row.key in groups {
          FoldedAt(spec, groups, rows[..i], row.key);
        } else {
          AbsentFold(spec, rows[..i], row.key);
        }
      }
      FoldKeyOne(spec, rows[..i], row, row.key);
      var advanced := AdvanceEntry(spec, before, row);
      if advanced == None {
        OverflowAt(spec, rows, i);
        return LoadOverflow;
      }
      FoldedOne(spec, groups, rows[..i], row, advanced.value);
      EntryAdded(spec, groups, row.key, advanced.value);
      groups := groups[row.key := advanced.value];
    }
    assert rows[..|rows|] == rows;
    load := Loaded(groups);
  }

  lemma OverflowAt(spec: Spec, rows: seq<InputRow>, i: nat)
    requires RowsOk(spec, rows) && i < |rows| && RowsOk(spec, rows[..i] + [rows[i]])
    requires FoldKey(spec, rows[..i] + [rows[i]], rows[i].key) == None
    ensures exists k :: k in KeySet(rows) && FoldKey(spec, rows, k) == None
  {
    hide FoldKey, KeySet, RowsOk;
    assert rows[..i + 1] == rows[..i] + [rows[i]];
    KeyOverflowStays(spec, rows, i + 1, rows[i].key);
    KeySetMembers(rows, rows[i].key);
  }

  lemma EntryAdded(spec: Spec, groups: map<GroupKey, Entry>, key: GroupKey, e: Entry)
    requires EntriesOk(spec, groups) && |e.values| == |spec.inputs|
    ensures EntriesOk(spec, groups[key := e]) && groups[key := e].Keys == groups.Keys + {key}
    ensures key in groups ==> |groups[key := e]| == |groups|
    ensures key !in groups ==> |groups[key := e]| == |groups| + 1
  {
    if key in groups {
      assert groups[key := e].Keys == groups.Keys;
    }
    assert |groups| == |groups.Keys| && |groups[key := e]| == |groups[key := e].Keys|;
  }

  lemma EntriesAt(spec: Spec, groups: map<GroupKey, Entry>, key: GroupKey)
    requires EntriesOk(spec, groups)
    ensures key in groups ==> |groups[key].values| == |spec.inputs|
  {}

  lemma EmptyTable(spec: Spec)
    ensures RowsOk(spec, []) && Folded(spec, map[], []) && EntriesOk(spec, map[]) && KeySet([]) == {}
  {}

  lemma AbsentFold(spec: Spec, rows: seq<InputRow>, key: GroupKey)
    requires RowsOk(spec, rows) && key !in KeySet(rows)
    ensures FoldKey(spec, rows, key) == Some(ZeroEntry(spec))
  {
    NoRowsOfKey(rows, key);
  }

  lemma MoreKeys(rows: seq<InputRow>, i: nat, keys: set<GroupKey>)
    requires i < |rows| && keys == KeySet(rows[..i]) && rows[i].key !in keys
    ensures |KeySet(rows)| > |keys|
  {
    assert rows[..i + 1] == rows[..i] + [rows[i]];
    KeySetOne(rows[..i], rows[i]);
    KeySetPrefix(rows, i + 1);
    Subset(keys + {rows[i].key}, KeySet(rows));
  }

  lemma KeySetPrefix(rows: seq<InputRow>, n: nat)
    requires n <= |rows|
    ensures KeySet(rows[..n]) <= KeySet(rows)
  {
    forall k | k in KeySet(rows[..n])
      ensures k in KeySet(rows)
    {
      KeySetMembers(rows[..n], k);
      KeySetMembers(rows, k);
    }
  }

  lemma {:induction false} Subset(a: set<GroupKey>, b: set<GroupKey>)
    requires a <= b
    ensures |a| <= |b|
  {
    if a != {} {
      var x :| x in a;
      Subset(a - {x}, b - {x});
    }
  }

  // ----- splitting rows by the next hash bits -----

  /** Rows that agreed on `shift` bits and share the next slice agree on all of them. */
  lemma MoreBits(rows: seq<InputRow>, shift: nat, bits: nat, p: nat)
    requires Agree(rows, shift)
    requires forall i | 0 <= i < |rows| :: In(shift, Pow2(bits), p)(rows[i])
    ensures Agree(rows, shift + bits)
  {
    hide HashOf;
    Pow2Sum(shift, bits);
    forall i, j | 0 <= i < |rows| && 0 <= j < |rows|
      ensures HashOf(rows[i].key) % Pow2(shift + bits) == HashOf(rows[j].key) % Pow2(shift + bits)
    {
      var a, b := HashOf(rows[i].key), HashOf(rows[j].key);
      assert In(shift, Pow2(bits), p)(rows[i]) && In(shift, Pow2(bits), p)(rows[j]);
      ModSplit(a, Pow2(shift), Pow2(bits));
      ModSplit(b, Pow2(shift), Pow2(bits));
    }
  }

  ghost predicate Files(files: seq<seq<InputRow>>, rows: seq<InputRow>, shift: nat, n: nat)
  {
    n > 0 && |files| == n && forall p | 0 <= p < n :: files[p] == Select(rows, In(shift, n, p))
  }

  /** One work item for every nonempty partition from `from` on. */
  function Children(files: seq<seq<InputRow>>, from: nat, shift: nat): seq<SpillWork>
    requires from <= |files|
    decreases |files| - from
  {
    if from == |files| then []
    else if files[from] == [] then Children(files, from + 1, shift)
    else [SpillWork(files[from], shift)] + Children(files, from + 1, shift)
  }

  /** Rows that hold every occurrence of their keys. */
  ghost predicate Whole(input: seq<InputRow>, rows: seq<InputRow>) {
    forall k | k in KeySet(rows) :: Select(rows, Is(k)) == Select(input, Is(k))
  }

  lemma FileKeys(files: seq<seq<InputRow>>, rows: seq<InputRow>, shift: nat, n: nat, p: nat, k: GroupKey)
    requires Files(files, rows, shift, n) && p < n
    ensures k in KeySet(files[p]) <==> k in KeySet(rows) && PartitionOf(k, shift, n) == p
  {
    hide PartitionOf;
    SelectMembers(rows, In(shift, n, p));
    KeySetMembers(files[p], k);
    KeySetMembers(rows, k);
    if k in KeySet(files[p]) {
      var i :| 0 <= i < |files[p]| && files[p][i].key == k;
      assert In(shift, n, p)(files[p][i]) && files[p][i] in rows;
    }
    if k in KeySet(rows) && PartitionOf(k, shift, n) == p {
      var i :| 0 <= i < |rows| && rows[i].key == k;
      SelectCount(rows, In(shift, n, p), rows[i]);
      assert multiset(rows)[rows[i]] > 0;
      assert rows[i] in files[p];
    }
  }

  lemma FileWork(spec: Spec, input: seq<InputRow>, files: seq<seq<InputRow>>, rows: seq<InputRow>, shift: nat,
                 bits: nat, p: nat)
    requires RowsOk(spec, rows) && Whole(input, rows) && Agree(rows, shift) && 5 <= shift + bits <= HASH_BITS
    requires Files(files, rows, shift, Pow2(bits)) && p < Pow2(bits) && files[p] != []
    ensures WorkOk(spec, input, SpillWork(files[p], shift + bits))
  {
    hide HashOf, PartitionOf, Pow2;
    var n := Pow2(bits);
    SelectMembers(rows, In(shift, n, p));
    AgreeSelect(rows, In(shift, n, p), shift);
    MoreBits(files[p], shift, bits, p);
    SelectRowsOk(spec, rows, In(shift, n, p));
    forall k | k in KeySet(files[p])
      ensures Select(files[p], Is(k)) == Select(input, Is(k))
    {
      FileKeys(files, rows, shift, n, p, k);
      SelectTwice(rows, In(shift, n, p), Is(k), Is(k));
    }
  }

  lemma AgreeSelect(rows: seq<InputRow>, f: InputRow -> bool, shift: nat)
    requires Agree(rows, shift)
    ensures Agree(Select(rows, f), shift)
  {
    hide HashOf, Pow2;
    SelectMembers(rows, f);
    var kept := Select(rows, f);
    forall i, j | 0 <= i < |kept| && 0 <= j < |kept|
      ensures HashOf(kept[i].key) % Pow2(shift) == HashOf(kept[j].key) % Pow2(shift)
    {
      var a :| 0 <= a < |rows| && rows[a] == kept[i];
      var b :| 0 <= b < |rows| && rows[b] == kept[j];
    }
  }

  /** The keys of the partitions from `from` on. */
  lemma {:induction false} ChildKeys(files: seq<seq<InputRow>>, rows: seq<InputRow>, shift: nat, n: nat, from: nat,
                                     s: nat, k: GroupKey)
    requires Files(files, rows, shift, n) && from <= n
    ensures k in WorkKeys(Children(files, from, s)) <==> k in KeySet(rows) && from <= PartitionOf(k, shift, n)
    decreases n - from
  {
    hide PartitionOf;
    if from < n {
      ChildKeys(files, rows, shift, n, from + 1, s, k);
      FileKeys(files, rows, shift, n, from, k);
    } else {
      PartitionBelow(k, shift, n);
    }
  }

  lemma PartitionBelow(k: GroupKey, shift: nat, n: nat)
    requires n > 0
    ensures PartitionOf(k, shift, n) < n
  {}

  lemma {:induction false} ChildrenOk(spec: Spec, input: seq<InputRow>, files: seq<seq<InputRow>>, rows: seq<InputRow>,
                                      shift: nat, bits: nat, from: nat)
    requires RowsOk(spec, rows) && Whole(input, rows) && Agree(rows, shift) && 5 <= shift + bits <= HASH_BITS
    requires Files(files, rows, shift, Pow2(bits)) && from <= Pow2(bits)
    ensures AllWorkOk(spec, input, Children(files, from, shift + bits))
    ensures KeysApart(Children(files, from, shift + bits))
    decreases Pow2(bits) - from
  {
    hide WorkOk, Files, Whole, Agree;
    var n := Pow2(bits);
    FilesLength(files, rows, shift, n);
    if from < n {
      ChildrenOk(spec, input, files, rows, shift, bits, from + 1);
      var rest := Children(files, from + 1, shift + bits);
      if files[from] != [] {
        FileWork(spec, input, files, rows, shift, bits, from);
        forall k | k in KeySet(files[from])
          ensures k !in WorkKeys(rest)
        {
          FileKeys(files, rows, shift, n, from, k);
          ChildKeys(files, rows, shift, n, from + 1, shift + bits, k);
        }
        ApartCons(SpillWork(files[from], shift + bits), rest);
      }
    }
  }

  lemma FilesLength(files: seq<seq<InputRow>>, rows: seq<InputRow>, shift: nat, n: nat)
    requires Files(files, rows, shift, n)
    ensures |files| == n
  {}

  lemma {:induction false} WorkKeysMember(work: seq<SpillWork>, i: nat)
    requires i < |work|
    ensures KeySet(work[i].rows) <= WorkKeys(work)
  {
    if i > 0 {
      WorkKeysMember(work[1..], i - 1);
    }
  }

  lemma ApartCons(w: SpillWork, rest: seq<SpillWork>)
    requires KeysApart(rest) && KeySet(w.rows) !! WorkKeys(rest)
    ensures KeysApart([w] + rest)
  {
    var all := [w] + rest;
    forall a, b | 0 <= a < b < |all|
      ensures KeySet(all[a].rows) !! KeySet(all[b].rows)
    {
      if a == 0 {
        WorkKeysMember(rest, b - 1);
      } else {
        assert KeySet(rest[a - 1].rows) !! KeySet(rest[b - 1].rows);
      }
    }
  }

  // ----- the queue shrinks -----

  ghost function SumSizes(rows: seq<InputRow>, shift: nat, n: nat, from: nat): nat
    requires n > 0 && from <= n
    decreases n - from
  {
    if from == n then 0 else |Select(rows, In(shift, n, from))| + SumSizes(rows, shift, n, from + 1)
  }

  lemma {:induction false} SumOne(rows: seq<InputRow>, row: InputRow, shift: nat, n: nat, from: nat)
    requires n > 0 && from <= n
    ensures SumSizes(rows + [row], shift, n, from) ==
            SumSizes(rows, shift, n, from) + if from <= PartitionOf(row.key, shift, n) then 1 else 0
    decreases n - from
  {
    hide PartitionOf;
    if from < n {
      SumOne(rows, row, shift, n, from + 1);
      SelectOne(rows, row, In(shift, n, from));
    } else {
      PartitionBelow(row.key, shift, n);
    }
  }

  lemma {:induction false} SumNothing(shift: nat, n: nat, from: nat)
    requires n > 0 && from <= n
    ensures SumSizes([], shift, n, from) == 0
    decreases n - from
  {
    if from < n {
      SumNothing(shift, n, from + 1);
    }
  }

  /** The partitions together have as many rows as what was split. */
  lemma {:induction false} SumAll(rows: seq<InputRow>, shift: nat, n: nat)
    requires n > 0
    ensures SumSizes(rows, shift, n, 0) == |rows|
  {
    if rows == [] {
      SumNothing(shift, n, 0);
    } else {
      var m := |rows| - 1;
      SumAll(rows[..m], shift, n);
      SumOne(rows[..m], rows[m], shift, n, 0);
      assert rows == rows[..m] + [rows[m]];
    }
  }

  lemma {:induction false} ChildrenWeight(files: seq<seq<InputRow>>, rows: seq<InputRow>, shift: nat, n: nat,
                                          from: nat, s: nat)
    requires Files(files, rows, shift, n) && from <= n
    ensures Weight(Children(files, from, s)) == SumSizes(rows, shift, n, from) * Level(s)
    decreases n - from
  {
    hide PartitionOf, Level, Select, KeySet;
    if from < n {
      ChildrenWeight(files, rows, shift, n, from + 1, s);
      var size, rest := |files[from]|, SumSizes(rows, shift, n, from + 1);
      DistributeLeft(size, rest, Level(s));
      FilesLength(files, rows, shift, n);
      if files[from] != [] {
        WeightCons(SpillWork(files[from], s), Children(files, from + 1, s));
      }
    } else {
      FilesLength(files, rows, shift, n);
    }
  }

  lemma WeightCons(w: SpillWork, rest: seq<SpillWork>)
    ensures Weight([w] + rest) == |w.rows| * Level(w.shift) + Weight(rest)
  {
    assert ([w] + rest)[1..] == rest;
  }

  lemma {:induction false} WeightUnion(a: seq<SpillWork>, b: seq<SpillWork>)
    ensures Weight(a + b) == Weight(a) + Weight(b)
  {
    if a == [] {
      assert a + b == b;
    } else {
      assert (a + b)[1..] == a[1..] + b;
      WeightUnion(a[1..], b);
    }
  }

  lemma {:induction false} WorkKeysUnion(a: seq<SpillWork>, b: seq<SpillWork>)
    ensures WorkKeys(a + b) == WorkKeys(a) + WorkKeys(b)
  {
    if a == [] {
      assert a + b == b;
    } else {
      assert (a + b)[1..] == a[1..] + b;
      WorkKeysUnion(a[1..], b);
    }
  }

  /** repartition_spill: the rows of a work item by up to five more hash bits. */
  method RepartitionSpill(w: SpillWork) returns (children: seq<SpillWork>, files: seq<seq<InputRow>>, bits: nat)
    requires w.shift < HASH_BITS
    ensures bits == if HASH_BITS - w.shift < 5 then HASH_BITS - w.shift else 5
    ensures Files(files, w.rows, w.shift, Pow2(bits))
    ensures children == Children(files, 0, w.shift + bits)
  {
    hide PartitionOf, Select;
    var hashBits := if HASH_BITS - w.shift < 5 then HASH_BITS - w.shift else 5;
    var n := Pow2(hashBits);
    var parts := seq(n, _ => []);
    NoFiles(parts, w.shift, n);
    for row := 0 to |w.rows|
      invariant Files(parts, w.rows[..row], w.shift, n)
    {
      var p := PartitionOf(w.rows[row].key, w.shift, n);
      PartitionBelow(w.rows[row].key, w.shift, n);
      assert w.rows[..row + 1] == w.rows[..row] + [w.rows[row]];
      FilesOne(parts, w.rows[..row], w.rows[row], w.shift, n);
      parts := parts[p := parts[p] + [w.rows[row]]];
    }
    assert w.rows[..|w.rows|] == w.rows;
    children := AppendWork(parts, w.shift + hashBits);
    files, bits := parts, hashBits;
  }

  lemma NoFiles(files: seq<seq<InputRow>>, shift: nat, n: nat)
    requires n > 0 && |files| == n && forall p | 0 <= p < n :: files[p] == []
    ensures Files(files, [], shift, n)
  {}

  lemma FilesOne(files: seq<seq<InputRow>>, rows: seq<InputRow>, row: InputRow, shift: nat, n: nat)
    requires Files(files, rows, shift, n)
    ensures var p := PartitionOf(row.key, shift, n);
            p < n && Files(files[p := files[p] + [row]], rows + [row], shift, n)
  {
    hide PartitionOf;
    PartitionBelow(row.key, shift, n);
    forall p | 0 <= p < n
      ensures Select(rows + [row], In(shift, n, p)) ==
              if PartitionOf(row.key, shift, n) == p then files[p] + [row] else files[p]
    {
      SelectOne(rows, row, In(shift, n, p));
    }
  }

  /** append_spill_work for every nonempty partition. */
  method AppendWork(files: seq<seq<InputRow>>, shift: nat) returns (work: seq<SpillWork>)
    ensures work == Children(files, 0, shift)
  {
    work := [];
    var p := 0;
    while p < |files|
      invariant p <= |files| && work + Children(files, p, shift) == Children(files, 0, shift)
    {
      if files[p] != [] {
        assert work + Children(files, p, shift) == (work + [SpillWork(files[p], shift)]) + Children(files, p + 1, shift);
        work := work + [SpillWork(files[p], shift)];
      }
      p := p + 1;
    }
  }

  // ----- the error branch -----

  const TWINS: set<GroupKey> := {None, Some(NULL_GROUP)}

  /** Rows that agree on all 32 hash bits have at most two keys: NULL, and the one value
      that NULL is hashed as. */
  lemma AllBitsAgree(rows: seq<InputRow>)
    requires Agree(rows, HASH_BITS) && |KeySet(rows)| > 1
    ensures KeySet(rows) == TWINS
  {
    hide Pow2;
    forall a, b | a in KeySet(rows) && b in KeySet(rows)
      ensures a == b || (a in TWINS && b in TWINS)
    {
      KeySetMembers(rows, a);
      KeySetMembers(rows, b);
      var i :| 0 <= i < |rows| && rows[i].key == a;
      var j :| 0 <= j < |rows| && rows[j].key == b;
      SameHash(rows[i].key, rows[j].key);
      GroupHashCollisions(a, b);
    }
    TwoElements(KeySet(rows));
  }

  lemma SameHash(a: GroupKey, b: GroupKey)
    requires HashOf(a) % Pow2(HASH_BITS) == HashOf(b) % Pow2(HASH_BITS)
    ensures HashOf(a) == HashOf(b)
  {
    hide Pow2, HashOf;
    FullWord();
    SmallMod(HashOf(a));
    SmallMod(HashOf(b));
  }

  lemma SmallMod(h: nat)
    requires h < 0x1_0000_0000
    ensures h % 0x1_0000_0000 == h
  {}

  lemma FourBits()
    ensures Pow2(4) == 16
  {
    assert Pow2(2) == 4;
  }

  lemma FullWord()
    ensures Pow2(HASH_BITS) == 0x1_0000_0000
  {
    hide Pow2;
    FourBits();
    Pow2Sum(4, 4);
    Pow2Sum(8, 8);
    Pow2Sum(16, 16);
  }

  lemma TwoElements(s: set<GroupKey>)
    requires |s| > 1 && forall a, b | a in s && b in s :: a == b || (a in TWINS && b in TWINS)
    ensures s == TWINS
  {
    var a :| a in s;
    assert |s - {a}| > 0;
    var b :| b in s - {a};
    assert a != b && a in TWINS && b in TWINS;
    forall x | x in s
      ensures x in TWINS
    {
      assert x == a || x in TWINS;
    }
    assert {a, b} <= s;
  }

  // ----- steps of the queue -----

  lemma {:induction false} ResultKeysUnion(a: seq<Group>, b: seq<Group>)
    ensures ResultKeys(a + b) == ResultKeys(a) + ResultKeys(b)
  {
    if b == [] {
      assert a + b == a;
    } else {
      var n := |b| - 1;
      assert (a + b)[..|a + b| - 1] == a + b[..n];
      ResultKeysUnion(a, b[..n]);
    }
  }

  lemma {:induction false} ResultKeysMember(results: seq<Group>, i: nat)
    requires i < |results|
    ensures results[i].key in ResultKeys(results)
  {
    if i < |results| - 1 {
      ResultKeysMember(results[..|results| - 1], i);
    }
  }

  /** The rows of one table as output, in whatever order. */
  ghost predicate Listed(groups: map<GroupKey, Entry>, list: seq<Group>) {
    && ResultKeys(list) == groups.Keys
    && (forall i | 0 <= i < |list| :: list[i].key in groups && list[i].entry == groups[list[i].key])
    && (forall i, j | 0 <= i < j < |list| :: list[i].key != list[j].key)
  }

  /** hash_seq_search over a table: every group once. */
  method EmitGroups(groups: map<GroupKey, Entry>) returns (list: seq<Group>)
    ensures Listed(groups, list)
  {
    list := [];
    var left := groups.Keys;
    while left != {}
      invariant left <= groups.Keys && ResultKeys(list) == groups.Keys - left
      invariant forall i | 0 <= i < |list| :: list[i].key in groups && list[i].entry == groups[list[i].key]
      invariant forall i, j | 0 <= i < j < |list| :: list[i].key != list[j].key
      decreases |left|
    {
      var k :| k in left;
      forall i | 0 <= i < |list|
        ensures list[i].key != k
      {
        ResultKeysMember(list, i);
      }
      assert (list + [Group(k, groups[k])])[..|list|] == list;
      list, left := list + [Group(k, groups[k])], left - {k};
    }
  }

  lemma ResultsJoin(spec: Spec, input: seq<InputRow>, results: seq<Group>, groups: map<GroupKey, Entry>,
                    list: seq<Group>)
    requires RowsOk(spec, input) && ResultsOk(spec, input, results) && Listed(groups, list)
    requires forall k | k in groups :: FoldKey(spec, input, k) == Some(groups[k])
    requires ResultKeys(results) !! groups.Keys
    ensures ResultsOk(spec, input, results + list)
  {
    hide FoldKey;
    var all := results + list;
    forall i, j | 0 <= i < j < |all|
      ensures all[i].key != all[j].key
    {
      if i < |results| <= j {
        ResultKeysMember(results, i);
        assert list[j - |results|].key in groups;
      }
    }
  }

  lemma WholeFolds(spec: Spec, input: seq<InputRow>, rows: seq<InputRow>, groups: map<GroupKey, Entry>)
    requires RowsOk(spec, input) && RowsOk(spec, rows) && Whole(input, rows)
    requires Folded(spec, groups, rows) && groups.Keys <= KeySet(rows)
    ensures forall k | k in groups :: FoldKey(spec, input, k) == Some(groups[k])
  {
    forall k | k in groups
      ensures FoldKey(spec, input, k) == Some(groups[k])
    {
      assert Select(rows, Is(k)) == Select(input, Is(k));
    }
  }

  /** A work item whose groups fit leaves the queue as output. */
  lemma QueueEmit(spec: Spec, input: seq<InputRow>, results: seq<Group>, work: seq<SpillWork>,
                  groups: map<GroupKey, Entry>, list: seq<Group>)
    requires Queued(spec, input, results, work) && work != []
    requires RowsOk(spec, work[0].rows)
    requires Folded(spec, groups, work[0].rows) && groups.Keys == KeySet(work[0].rows) && Listed(groups, list)
    ensures Queued(spec, input, results + list, work[1..])
  {
    hide FoldKey, Folded, ResultsOk, AllWorkOk, KeysApart, KeySet, WorkKeys, ResultKeys, Whole;
    WorkFacts(spec, input, work);
    WholeFolds(spec, input, work[0].rows, groups);
    KeysOfRest(work);
    ResultsJoin(spec, input, results, groups, list);
    ResultKeysUnion(results, list);
    RestOk(spec, input, work);
  }

  lemma WeightRest(spec: Spec, input: seq<InputRow>, work: seq<SpillWork>)
    requires AllWorkOk(spec, input, work) && work != []
    ensures Weight(work[1..]) < Weight(work)
  {
    assert WorkOk(spec, input, work[0]);
    ProductPositive(|work[0].rows|, Level(work[0].shift));
  }

  lemma KeysOfRest(work: seq<SpillWork>)
    requires KeysApart(work) && work != []
    ensures KeysApart(work[1..]) && KeySet(work[0].rows) !! WorkKeys(work[1..])
    ensures WorkKeys(work) == KeySet(work[0].rows) + WorkKeys(work[1..])
  {
    forall a, b | 0 <= a < b < |work[1..]|
      ensures KeySet(work[1..][a].rows) !! KeySet(work[1..][b].rows)
    {
      assert KeySet(work[a + 1].rows) !! KeySet(work[b + 1].rows);
    }
    ApartFrom(KeySet(work[0].rows), work[1..]);
  }

  lemma {:induction false} ApartFrom(keys: set<GroupKey>, rest: seq<SpillWork>)
    requires forall b | 0 <= b < |rest| :: keys !! KeySet(rest[b].rows)
    ensures keys !! WorkKeys(rest)
  {
    if rest != [] {
      ApartFrom(keys, rest[1..]);
    }
  }

  lemma RestOk(spec: Spec, input: seq<InputRow>, work: seq<SpillWork>)
    requires AllWorkOk(spec, input, work) && work != []
    ensures AllWorkOk(spec, input, work[1..])
  {
    hide WorkOk;
    assert forall i | 0 <= i < |work[1..]| :: work[1..][i] == work[i + 1];
  }

  /** The children of a split take its place in the queue. */
  lemma QueueSplit(spec: Spec, input: seq<InputRow>, results: seq<Group>, work: seq<SpillWork>,
                   files: seq<seq<InputRow>>, bits: nat)
    requires Queued(spec, input, results, work) && work != []
    requires bits > 0 && work[0].shift + bits <= HASH_BITS
    requires Files(files, work[0].rows, work[0].shift, Pow2(bits))
    ensures Queued(spec, input, results, work[1..] + Children(files, 0, work[0].shift + bits))
  {
    hide Files, Agree, ResultsOk, Whole, Children, AllWorkOk, KeysApart, KeySet, WorkKeys, ResultKeys, RowsOk;
    var w := work[0];
    WorkFacts(spec, input, work);
    var children := Children(files, 0, w.shift + bits);
    ChildrenOk(spec, input, files, w.rows, w.shift, bits, 0);
    AllChildKeys(files, w.rows, w.shift, Pow2(bits), w.shift + bits);
    KeysOfRest(work);
    RestOk(spec, input, work);
    ApartUnion(work[1..], children);
    WorkKeysUnion(work[1..], children);
    WorkUnion(spec, input, work[1..], children);
  }

  lemma AllChildKeys(files: seq<seq<InputRow>>, rows: seq<InputRow>, shift: nat, n: nat, s: nat)
    requires Files(files, rows, shift, n)
    ensures WorkKeys(Children(files, 0, s)) == KeySet(rows)
  {
    hide Files, KeySet, WorkKeys;
    forall k: GroupKey
      ensures k in WorkKeys(Children(files, 0, s)) <==> k in KeySet(rows)
    {
      ChildKeys(files, rows, shift, n, 0, s, k);
    }
  }

  lemma WeightSplit(spec: Spec, input: seq<InputRow>, work: seq<SpillWork>, files: seq<seq<InputRow>>, bits: nat)
    requires AllWorkOk(spec, input, work) && work != []
    requires bits > 0 && work[0].shift + bits <= HASH_BITS
    requires Files(files, work[0].rows, work[0].shift, Pow2(bits))
    ensures Weight(work[1..] + Children(files, 0, work[0].shift + bits)) < Weight(work)
  {
    hide Files, Agree, Level, Children;
    var w := work[0];
    assert WorkOk(spec, input, w);
    ChildrenWeight(files, w.rows, w.shift, Pow2(bits), 0, w.shift + bits);
    SumAll(w.rows, w.shift, Pow2(bits));
    WeightUnion(work[1..], Children(files, 0, w.shift + bits));
    LessLevel(|w.rows|, w.shift, bits);
  }

  lemma WorkFacts(spec: Spec, input: seq<InputRow>, work: seq<SpillWork>)
    requires AllWorkOk(spec, input, work) && work != []
    ensures var w := work[0];
            && w.rows != [] && 5 <= w.shift <= HASH_BITS && Agree(w.rows, w.shift) && RowsOk(spec, w.rows) && Whole(input, w.rows)
  {
    assert WorkOk(spec, input, work[0]);
  }

  lemma LessLevel(size: nat, shift: nat, bits: nat)
    requires size > 0 && bits > 0 && shift + bits <= HASH_BITS
    ensures size * Level(shift + bits) < size * Level(shift)
  {
    Distribute(size, Level(shift + bits), bits);
    ProductPositive(size, bits);
  }

  lemma ApartUnion(a: seq<SpillWork>, b: seq<SpillWork>)
    requires KeysApart(a) && KeysApart(b) && WorkKeys(a) !! WorkKeys(b)
    ensures KeysApart(a + b)
  {
    var all := a + b;
    forall i, j | 0 <= i < j < |all|
      ensures KeySet(all[i].rows) !! KeySet(all[j].rows)
    {
      if i < |a| <= j {
        WorkKeysMember(a, i);
        WorkKeysMember(b, j - |a|);
      }
    }
  }

  lemma WorkUnion(spec: Spec, input: seq<InputRow>, a: seq<SpillWork>, b: seq<SpillWork>)
    requires AllWorkOk(spec, input, a) && AllWorkOk(spec, input, b)
    ensures AllWorkOk(spec, input, a + b)
  {
    hide WorkOk;
  }

  // ----- from the input phase to the queue -----

  function NotIn(groups: set<GroupKey>): InputRow -> bool {
    (r: InputRow) => r.key !in groups
  }

  lemma RestKeys(input: seq<InputRow>, groups: set<GroupKey>)
    requires groups <= KeySet(input)
    ensures KeySet(Select(input, NotIn(groups))) == KeySet(input) - groups
  {
    var rest := Select(input, NotIn(groups));
    SelectMembers(input, NotIn(groups));
    forall k: GroupKey
      ensures k in KeySet(rest) <==> k in KeySet(input) && k !in groups
    {
      KeySetMembers(rest, k);
      KeySetMembers(input, k);
      if k in KeySet(rest) {
        var i :| 0 <= i < |rest| && rest[i].key == k;
        assert NotIn(groups)(rest[i]) && rest[i] in input;
      }
      if k in KeySet(input) && k !in groups {
        var i :| 0 <= i < |input| && input[i].key == k;
        SelectCount(input, NotIn(groups), input[i]);
        assert multiset(input)[input[i]] > 0;
        assert input[i] in rest;
      }
    }
  }

  lemma RestWhole(spec: Spec, input: seq<InputRow>, groups: set<GroupKey>, files: seq<seq<InputRow>>)
    requires RowsOk(spec, input) && groups <= KeySet(input) && |files| == FANOUT
    requires forall p | 0 <= p < FANOUT :: files[p] == Select(input, Outside(groups, p))
    ensures var rest := Select(input, NotIn(groups));
            RowsOk(spec, rest) && Whole(input, rest) && Agree(rest, 0) && Files(files, rest, 0, FANOUT)
  {
    hide PartitionOf;
    var rest := Select(input, NotIn(groups));
    SelectRowsOk(spec, input, NotIn(groups));
    forall p | 0 <= p < FANOUT
      ensures files[p] == Select(rest, In(0, FANOUT, p))
    {
      SelectTwice(input, NotIn(groups), In(0, FANOUT, p), Outside(groups, p));
    }
    RestKeys(input, groups);
    forall k | k in KeySet(rest)
      ensures Select(rest, Is(k)) == Select(input, Is(k))
    {
      SelectTwice(input, NotIn(groups), Is(k), Is(k));
    }
  }

  lemma FirstLevel()
    ensures Pow2(5) == FANOUT
  {
    assert Pow2(3) == 8;
  }

  /** After the input every key is in the table or wholly in one first-level partition. */
  lemma QueueStarts(spec: Spec, limit: nat, groups: map<GroupKey, Entry>, spilling: bool, files: seq<seq<InputRow>>,
                    input: seq<InputRow>, list: seq<Group>)
    requires Collected(spec, limit, groups, spilling, files, input) && Listed(groups, list)
    ensures Queued(spec, input, list, Children(files, 0, 5))
  {
    hide FoldKey, Outside, Files, Whole, Agree, Children, Collected, AllWorkOk, KeysApart, KeySet, WorkKeys, ResultKeys;
    hide ResultsOk, Select, RowsOk;
    CollectedParts(spec, limit, groups, spilling, files, input);
    var rest := Select(input, NotIn(groups.Keys));
    RestWhole(spec, input, groups.Keys, files);
    RestKeys(input, groups.Keys);
    FirstLevel();
    ChildrenOk(spec, input, files, rest, 0, 5, 0);
    AllChildKeys(files, rest, 0, FANOUT, 5);
    assert [] + list == list;
    NoResults(spec, input);
    ResultsJoin(spec, input, [], groups, list);
  }

  lemma CollectedParts(spec: Spec, limit: nat, groups: map<GroupKey, Entry>, spilling: bool, files: seq<seq<InputRow>>,
                       rows: seq<InputRow>)
    requires Collected(spec, limit, groups, spilling, files, rows)
    ensures RowsOk(spec, rows) && groups.Keys <= KeySet(rows) && |files| == FANOUT
    ensures forall p | 0 <= p < FANOUT :: files[p] == Select(rows, Outside(groups.Keys, p))
    ensures forall k | k in groups :: FoldKey(spec, rows, k) == Some(groups[k])
  {
    hide FoldKey;
  }

  lemma NoResults(spec: Spec, input: seq<InputRow>)
    requires RowsOk(spec, input)
    ensures ResultsOk(spec, input, []) && ResultKeys([]) == {}
  {}

  lemma {:induction false} NoChildren(files: seq<seq<InputRow>>, from: nat, s: nat)
    requires from <= |files| && forall p | from <= p < |files| :: files[p] == []
    ensures Children(files, from, s) == []
    decreases |files| - from
  {
    if from < |files| {
      NoChildren(files, from + 1, s);
    }
  }

  // ----- NULL and the value it is hashed as -----

  /** Both keys of equal hash occur and neither is the first key. */
  ghost predicate TwinsSpill(input: seq<InputRow>) {
    input != [] && TWINS <= KeySet(input) && input[0].key !in TWINS
  }

  /** They stay together in one work item. */
  ghost predicate TwinsTogether(work: seq<SpillWork>) {
    exists i :: 0 <= i < |work| && TWINS <= KeySet(work[i].rows)
  }

  lemma TwinsSameHash()
    ensures HashOf(None) == HashOf(Some(NULL_GROUP))
  {
    GroupHashCollisions(None, Some(NULL_GROUP));
  }

  lemma {:induction false} ChildAt(files: seq<seq<InputRow>>, from: nat, s: nat, p: nat)
    requires from <= p < |files| && files[p] != []
    ensures exists i :: 0 <= i < |Children(files, from, s)| && Children(files, from, s)[i].rows == files[p]
    decreases |files| - from
  {
    var rest := Children(files, from + 1, s);
    if from < p {
      ChildAt(files, from + 1, s, p);
      var i :| 0 <= i < |rest| && rest[i].rows == files[p];
      if files[from] != [] {
        assert Children(files, from, s)[i + 1].rows == files[p];
      } else {
        assert Children(files, from, s)[i].rows == files[p];
      }
    } else {
      assert Children(files, from, s)[0].rows == files[p];
    }
  }

  /** Splitting rows by any hash bits keeps the twins together. */
  lemma TwinsSplit(files: seq<seq<InputRow>>, rows: seq<InputRow>, shift: nat, n: nat, s: nat)
    requires Files(files, rows, shift, n) && TWINS <= KeySet(rows)
    ensures TwinsTogether(Children(files, 0, s))
  {
    hide HashOf;
    TwinsSameHash();
    var p := PartitionOf(None, shift, n);
    PartitionBelow(None, shift, n);
    forall k | k in TWINS
      ensures k in KeySet(files[p])
    {
      FileKeys(files, rows, shift, n, p, k);
    }
    ChildAt(files, 0, s, p) by {
      assert None in KeySet(files[p]);
    }
    var work := Children(files, 0, s);
    var i :| 0 <= i < |work| && work[i].rows == files[p];
  }

  lemma TwinsRest(work: seq<SpillWork>, more: seq<SpillWork>)
    requires work != []
    requires (TwinsTogether(work) && !(TWINS <= KeySet(work[0].rows))) || TwinsTogether(more)
    ensures TwinsTogether(work[1..] + more)
  {
    var all := work[1..] + more;
    if TwinsTogether(more) {
      var i :| 0 <= i < |more| && TWINS <= KeySet(more[i].rows);
      assert all[|work| - 1 + i] == more[i];
    } else {
      var i :| 0 <= i < |work| && TWINS <= KeySet(work[i].rows);
      assert all[i - 1] == work[i];
    }
  }

  lemma TwinsSize(s: set<GroupKey>)
    requires TWINS <= s
    ensures |s| >= 2
  {
    Subset(TWINS, s);
  }

  // ----- the executor -----

  datatype Outcome = Done(results: seq<Group>) | Overflow | Skewed

  /** Some count or sum of some key leaves the 64-bit range on the way. */
  ghost predicate SomeOverflow(spec: Spec, input: seq<InputRow>)
    requires RowsOk(spec, input)
  {
    exists k :: k in KeySet(input) && KeyOverflows(spec, input, k)
  }

  function Merge(files: seq<seq<InputRow>>, pending: seq<seq<InputRow>>): (r: seq<seq<InputRow>>)
    requires |files| == |pending|
    ensures |r| == |files| && forall p | 0 <= p < |r| :: r[p] == files[p] + pending[p]
  {
    seq(|files|, p requires 0 <= p < |files| => files[p] + pending[p])
  }

  lemma MergeOne(files: seq<seq<InputRow>>, pending: seq<seq<InputRow>>, p: nat, row: InputRow)
    requires |files| == |pending| && p < |files|
    ensures Merge(files, pending[p := pending[p] + [row]]) == Merge(files, pending)[p := Merge(files, pending)[p] + [row]]
  {
    assert files[p] + (pending[p] + [row]) == (files[p] + pending[p]) + [row];
  }

  lemma MergeNothing(files: seq<seq<InputRow>>, pending: seq<seq<InputRow>>)
    requires |files| == |pending| && forall p | 0 <= p < |files| :: pending[p] == []
    ensures Merge(files, pending) == files
  {
    assert forall p | 0 <= p < |files| :: files[p] + pending[p] == files[p];
  }

  class Aggregate {
    const spec: Spec
    /** group_limit: at least one group fits. */
    const limit: nat
    var groups: map<GroupKey, Entry>
    var spilling: bool
    var files: seq<seq<InputRow>>
    var work: seq<SpillWork>
    var results: seq<Group>
    ghost var arrived: seq<InputRow>

    ghost predicate Collecting()
      reads this
    {
      limit > 0 && Collected(spec, limit, groups, spilling, files, arrived)
    }

    constructor (spec: Spec, limit: nat)
      requires limit > 0
      ensures Collecting() && arrived == [] && results == [] && this.spec == spec && this.limit == limit
    {
      this.spec, this.limit := spec, limit;
      groups, spilling, files, work, results, arrived := map[], false, seq(FANOUT, _ => []), [], [], [];
    }

    /** One row of advance_grouped_batch: advance its group, make it, or set the row apart. */
    method AdvanceRow(row: InputRow, pending: seq<seq<InputRow>>) returns (ok: bool, after: seq<seq<InputRow>>)
      requires limit > 0 && |files| == |pending| == FANOUT && RowOk(spec, row)
      requires Collected(spec, limit, groups, spilling, Merge(files, pending), arrived)
      modifies this`groups, this`spilling, this`arrived
      ensures arrived == old(arrived) + [row] && |after| == FANOUT
      ensures ok ==> Collected(spec, limit, groups, spilling, Merge(files, after), arrived)
      ensures !ok ==> RowsOk(spec, arrived) && FoldKey(spec, arrived, row.key) == None
    {
      hide Collected, AdvanceEntry, FoldKey, Merge, PartitionOf, ZeroEntry;
      CollectedFacts(spec, limit, groups, spilling, Merge(files, pending), arrived);
      arrived := arrived + [row];
      after := pending;
      if row.key in groups || (!spilling && |groups| < limit) {
        var before := if row.key in groups then groups[row.key] else ZeroEntry(spec);
        FoldBefore(spec, limit, groups, spilling, Merge(files, pending), old(arrived), row);
        var advanced := AdvanceEntry(spec, before, row);
        if advanced == None {
          FoldKeyOne(spec, old(arrived), row, row.key);
          return false, after;
        }
        AdvanceKeeps(spec, limit, groups, spilling, Merge(files, pending), old(arrived), row, advanced.value);
        groups := groups[row.key := advanced.value];
      } else {
        var p := PartitionOf(row.key, 0, FANOUT);
        PartitionBelow(row.key, 0, FANOUT);
        SpillKeeps(spec, limit, groups, spilling, Merge(files, pending), old(arrived), row);
        MergeOne(files, pending, p, row);
        spilling, after := true, pending[p := pending[p] + [row]];
      }
      ok := true;
    }

    /** advance_grouped_batch: the rows in order, then the rows set apart are written. */
    method AdvanceGroupedBatch(batch: seq<InputRow>) returns (ok: bool)
      requires Collecting() && RowsOk(spec, batch)
      modifies this`groups, this`spilling, this`arrived, this`files
      ensures ok ==> Collecting() && arrived == old(arrived) + batch
      ensures !ok ==> RowsOk(spec, arrived) && arrived <= old(arrived) + batch
      ensures !ok ==> exists k :: FoldKey(spec, arrived, k) == None
    {
      hide Collected, FoldKey;
      var pending: seq<seq<InputRow>> := seq(FANOUT, _ => []);
      FilesCount(spec, limit, groups, spilling, files, arrived);
      MergeNothing(files, pending);
      for i := 0 to |batch|
        invariant |files| == |pending| == FANOUT && arrived == old(arrived) + batch[..i]
        invariant Collected(spec, limit, groups, spilling, Merge(files, pending), arrived)
      {
        assert batch[..i + 1] == batch[..i] + [batch[i]];
        ok, pending := AdvanceRow(batch[i], pending);
        if !ok {
          assert old(arrived) + batch == arrived + batch[i + 1..];
          return;
        }
      }
      assert batch[..|batch|] == batch;
      files := Merge(files, pending);
      ok := true;
    }

    /** agg_exec_grouped over a whole input. With at least one group in memory it ends in
        every case: with one exact row per distinct key; with an overflow error only if the
        fold of some key overflows; or with the skew error only if a single group fits
        and both NULL and the one value it is hashed as come after another key. */
    method Run(batches: seq<seq<InputRow>>, ghost input: seq<InputRow>) returns (outcome: Outcome)
      requires Collecting() && arrived == [] && results == []
      requires forall i | 0 <= i < |batches| :: RowsOk(spec, batches[i])
      requires input == Concat(batches) && RowsOk(spec, input)
      modifies this
      ensures outcome.Done? ==> ResultsOk(spec, input, outcome.results) && ResultKeys(outcome.results) == KeySet(input)
      ensures outcome.Done? <==> !SomeOverflow(spec, input) && !(limit == 1 && TwinsSpill(input))
      ensures outcome.Overflow? ==> SomeOverflow(spec, input)
      ensures outcome.Skewed? ==> limit == 1 && TwinsSpill(input)
    {
      hide Collected, FoldKey, ResultsOk, KeySet, TWINS;
      for i := 0 to |batches|
        invariant Collecting() && arrived == Concat(batches[..i]) && results == []
      {
        assert batches[..i + 1][..i] == batches[..i];
        var ok := AdvanceGroupedBatch(batches[i]);
        if !ok {
          PrefixOverflow(spec, batches, i, arrived, input);
          return Overflow;
        }
      }
      assert batches[..|batches|] == batches;
      FinishGroupInput();
      outcome := ProcessWork(input);
    }

    /** finish_group_input: queue the partitions, and emit the table. */
    method FinishGroupInput()
      requires Collecting() && results == []
      modifies this`work, this`results
      ensures Queued(spec, arrived, results, work)
      ensures limit == 1 && TwinsSpill(arrived) ==> TwinsTogether(work)
      ensures arrived != [] ==> arrived[0].key in ResultKeys(results)
    {
      hide Collected, Queued;
      FilesCount(spec, limit, groups, spilling, files, arrived);
      work := [];
      if spilling {
        work := AppendWork(files, 5);
      } else {
        NothingSpilled(spec, limit, groups, files, arrived);
        NoChildren(files, 0, 5);
      }
      results := EmitGroups(groups);
      QueueStarts(spec, limit, groups, spilling, files, arrived, results);
      FirstKeyIn(spec, limit, groups, spilling, files, arrived);
      if limit == 1 && TwinsSpill(arrived) {
        TwinsQueued(spec, groups, spilling, files, arrived);
      }
    }

    /** prepare_next_spill_partition until the queue is empty, emitting each table. */
    method ProcessWork(ghost input: seq<InputRow>) returns (outcome: Outcome)
      requires limit > 0 && RowsOk(spec, input) && Queued(spec, input, results, work)
      requires limit == 1 && TwinsSpill(input) ==> TwinsTogether(work)
      requires input != [] ==> input[0].key in ResultKeys(results)
      modifies this`work, this`results
      ensures outcome.Done? ==> ResultsOk(spec, input, outcome.results) && ResultKeys(outcome.results) == KeySet(input)
      ensures outcome.Done? <==> !SomeOverflow(spec, input) && !(limit == 1 && TwinsSpill(input))
      ensures outcome.Overflow? ==> SomeOverflow(spec, input)
      ensures outcome.Skewed? ==> limit == 1 && TwinsSpill(input)
    {
      hide Queued, FoldKey, Weight, KeySet, TwinsTogether, TwinsSpill, Children, Files, SomeOverflow, ResultsOk;
      hide ResultKeys;
      while work != []
        invariant Queued(spec, input, results, work)
        invariant limit == 1 && TwinsSpill(input) ==> TwinsTogether(work)
        invariant input != [] ==> input[0].key in ResultKeys(results)
        decreases Weight(work)
      {
        var w := work[0];
        QueueHead(spec, input, results, work);
        var load := LoadSpillGroups(spec, limit, w.rows);
        if load.LoadOverflow? {
          WorkOverflow(spec, input, results, work);
          return Overflow;
        }
        if load.TooMany? {
          if w.shift >= HASH_BITS {
            SkewedKeys(spec, limit, input, results, work);
            return Skewed;
          }
          var children, files, bits := RepartitionSpill(w);
          QueueSplit(spec, input, results, work, files, bits);
          WeightSplit(spec, input, work, files, bits);
          TwinsKept(limit, input, work, files, bits);
          work := work[1..] + children;
        } else {
          var list := EmitGroups(load.groups);
          QueueEmit(spec, input, results, work, load.groups, list);
          WeightRest(spec, input, work);
          TwinsEmitted(limit, input, work, load.groups);
          ResultKeysUnion(results, list);
          results, work := results + list, work[1..];
        }
      }
      QueueEnds(spec, limit, input, results);
      outcome := Done(results);
    }
  }

  function Concat(batches: seq<seq<InputRow>>): seq<InputRow> {
    if batches == [] then [] else Concat(batches[..|batches| - 1]) + batches[|batches| - 1]
  }

  lemma {:induction false} ConcatPrefix(batches: seq<seq<InputRow>>, i: nat)
    requires i <= |batches|
    ensures Concat(batches[..i]) <= Concat(batches)
  {
    if i < |batches| {
      var n := |batches| - 1;
      ConcatPrefix(batches[..n], i);
      assert batches[..n][..i] == batches[..i];
    } else {
      assert batches[..i] == batches;
    }
  }

  lemma PrefixOverflow(spec: Spec, batches: seq<seq<InputRow>>, i: nat, arrived: seq<InputRow>, input: seq<InputRow>)
    requires i < |batches| && input == Concat(batches) && RowsOk(spec, input) && RowsOk(spec, arrived)
    requires arrived <= Concat(batches[..i]) + batches[i]
    requires exists k :: FoldKey(spec, arrived, k) == None
    ensures SomeOverflow(spec, input)
  {
    hide FoldKey, KeySet, Concat, RowsOk;
    ConcatPrefix(batches, i + 1);
    ConcatOne(batches, i);
    var k :| FoldKey(spec, arrived, k) == None;
    assert arrived == input[..|arrived|];
    KeyOverflowStays(spec, input, |arrived|, k);
    OverflowHasKey(spec, input, k);
    KeyFailsIff(spec, input, k);
  }

  lemma ConcatOne(batches: seq<seq<InputRow>>, i: nat)
    requires i < |batches|
    ensures Concat(batches[..i + 1]) == Concat(batches[..i]) + batches[i]
  {
    assert batches[..i + 1][..i] == batches[..i];
  }

  lemma OverflowHasKey(spec: Spec, rows: seq<InputRow>, k: GroupKey)
    requires RowsOk(spec, rows) && FoldKey(spec, rows, k) == None
    ensures k in KeySet(rows)
  {
    if k !in KeySet(rows) {
      NoRowsOfKey(rows, k);
    }
  }

  lemma CollectedFacts(spec: Spec, limit: nat, groups: map<GroupKey, Entry>, spilling: bool, files: seq<seq<InputRow>>,
                       rows: seq<InputRow>)
    requires Collected(spec, limit, groups, spilling, files, rows)
    ensures RowsOk(spec, rows) && EntriesOk(spec, groups) && Folded(spec, groups, rows)
    ensures |groups| <= limit && (spilling ==> |groups| == limit)
  {}

  lemma FilesCount(spec: Spec, limit: nat, groups: map<GroupKey, Entry>, spilling: bool, files: seq<seq<InputRow>>,
                   rows: seq<InputRow>)
    requires Collected(spec, limit, groups, spilling, files, rows)
    ensures |files| == FANOUT
  {}

  lemma FoldBefore(spec: Spec, limit: nat, groups: map<GroupKey, Entry>, spilling: bool, files: seq<seq<InputRow>>,
                   rows: seq<InputRow>, row: InputRow)
    requires Collected(spec, limit, groups, spilling, files, rows) && (row.key in groups || !spilling)
    ensures RowsOk(spec, rows)
    ensures FoldKey(spec, rows, row.key) == Some(if row.key in groups then groups[row.key] else ZeroEntry(spec))
  {
    hide FoldKey, ZeroEntry;
    if row.key !in groups {
      NewKey(spec, limit, groups, spilling, files, rows, row.key);
    }
  }

  lemma NothingSpilled(spec: Spec, limit: nat, groups: map<GroupKey, Entry>, files: seq<seq<InputRow>>,
                       rows: seq<InputRow>)
    requires Collected(spec, limit, groups, false, files, rows)
    ensures forall p | 0 <= p < |files| :: files[p] == []
  {
    hide PartitionOf;
    forall p | 0 <= p < |files|
      ensures files[p] == []
    {
      SelectNone(rows, Outside(groups.Keys, p));
    }
  }

  lemma FirstKeyIn(spec: Spec, limit: nat, groups: map<GroupKey, Entry>, spilling: bool, files: seq<seq<InputRow>>,
                   rows: seq<InputRow>)
    requires Collected(spec, limit, groups, spilling, files, rows)
    ensures rows != [] ==> rows[0].key in groups
  {}

  lemma OneElement(s: set<GroupKey>, a: GroupKey)
    requires |s| <= 1 && a in s
    ensures s == {a}
  {
    Subset({a}, s);
    assert |s - {a}| == 0;
  }

  /** With one group in memory, both twins are in the files, in the same one. */
  lemma TwinsQueued(spec: Spec, groups: map<GroupKey, Entry>, spilling: bool, files: seq<seq<InputRow>>,
                    input: seq<InputRow>)
    requires Collected(spec, 1, groups, spilling, files, input) && TwinsSpill(input)
    ensures TwinsTogether(Children(files, 0, 5))
  {
    hide Outside, Folded, Files, PartitionOf;
    OneElement(groups.Keys, input[0].key);
    RestWhole(spec, input, groups.Keys, files);
    RestKeys(input, groups.Keys);
    TwinsSplit(files, Select(input, NotIn(groups.Keys)), 0, FANOUT, 5);
  }

  lemma QueueHead(spec: Spec, input: seq<InputRow>, results: seq<Group>, work: seq<SpillWork>)
    requires Queued(spec, input, results, work) && work != []
    ensures RowsOk(spec, work[0].rows) && AllWorkOk(spec, input, work) && work[0].shift <= HASH_BITS
  {
    WorkFacts(spec, input, work);
  }

  lemma WorkOverflow(spec: Spec, input: seq<InputRow>, results: seq<Group>, work: seq<SpillWork>)
    requires Queued(spec, input, results, work) && work != [] && RowsOk(spec, work[0].rows)
    requires exists k :: k in KeySet(work[0].rows) && FoldKey(spec, work[0].rows, k) == None
    ensures SomeOverflow(spec, input)
  {
    WorkFacts(spec, input, work);
    var k :| k in KeySet(work[0].rows) && FoldKey(spec, work[0].rows, k) == None;
    assert FoldKey(spec, input, k) == None;
    assert k in WorkKeys(work);
    KeyFailsIff(spec, input, k);
  }

  lemma SkewedKeys(spec: Spec, limit: nat, input: seq<InputRow>, results: seq<Group>, work: seq<SpillWork>)
    requires Queued(spec, input, results, work) && work != [] && limit > 0
    requires work[0].shift >= HASH_BITS && |KeySet(work[0].rows)| > limit
    requires input != [] ==> input[0].key in ResultKeys(results)
    ensures limit == 1 && TwinsSpill(input)
  {
    hide ResultsOk, Agree, KeysApart, Whole, RowsOk;
    WorkFacts(spec, input, work);
    AllBitsAgree(work[0].rows);
    WorkKeysMember(work, 0);
    KeysNonempty(input);
    assert |TWINS| == 2;
  }

  lemma KeysNonempty(input: seq<InputRow>)
    ensures KeySet(input) != {} ==> input != []
  {}

  lemma TwinsKept(limit: nat, input: seq<InputRow>, work: seq<SpillWork>, files: seq<seq<InputRow>>, bits: nat)
    requires work != [] && Files(files, work[0].rows, work[0].shift, Pow2(bits))
    requires limit == 1 && TwinsSpill(input) ==> TwinsTogether(work)
    ensures limit == 1 && TwinsSpill(input) ==> TwinsTogether(work[1..] + Children(files, 0, work[0].shift + bits))
  {
    hide Files, Children, KeySet;
    if limit == 1 && TwinsSpill(input) {
      var s := work[0].shift + bits;
      if TWINS <= KeySet(work[0].rows) {
        TwinsSplit(files, work[0].rows, work[0].shift, Pow2(bits), s);
      }
      TwinsRest(work, Children(files, 0, s));
    }
  }

  lemma TwinsEmitted(limit: nat, input: seq<InputRow>, work: seq<SpillWork>, groups: map<GroupKey, Entry>)
    requires work != [] && groups.Keys == KeySet(work[0].rows) && |groups| <= limit
    requires limit == 1 && TwinsSpill(input) ==> TwinsTogether(work)
    ensures limit == 1 && TwinsSpill(input) ==> TwinsTogether(work[1..])
  {
    hide KeySet;
    if limit == 1 && TwinsSpill(input) {
      assert TWINS <= groups.Keys ==> |groups.Keys| >= 2 by {
        if TWINS <= groups.Keys {
          TwinsSize(groups.Keys);
        }
      }
      assert |groups.Keys| == |groups|;
      TwinsRest(work, []);
      assert work[1..] + [] == work[1..];
    }
  }

  lemma QueueEnds(spec: Spec, limit: nat, input: seq<InputRow>, results: seq<Group>)
    requires RowsOk(spec, input) && Queued(spec, input, results, [])
    requires limit == 1 && TwinsSpill(input) ==> TwinsTogether([])
    ensures ResultsOk(spec, input, results) && ResultKeys(results) == KeySet(input)
    ensures !SomeOverflow(spec, input) && !(limit == 1 && TwinsSpill(input))
  {
    hide FoldKey, KeySet;
    forall k | k in KeySet(input)
      ensures !KeyOverflows(spec, input, k)
    {
      ResultOfKey(results, k);
      KeyFailsIff(spec, input, k);
    }
  }

  lemma {:induction false} ResultOfKey(results: seq<Group>, k: GroupKey)
    requires k in ResultKeys(results)
    ensures exists i :: 0 <= i < |results| && results[i].key == k
  {
    var n := |results| - 1;
    if results[n].key != k {
      ResultOfKey(results[..n], k);
      var i :| 0 <= i < n && results[..n][i].key == k;
      assert results[i].key == k;
    }
  }
}
