/** A compressed snapshot: encoded 64-row batches and the storage groups over them.
    (examples/compressed_tam/compressed.c) */
module CompressedTable {
  import opened ColumnCodec
  import opened Int4Kernels
  import opened StorageGroups
  import opened Vectors

  type Row = seq<Option<int>>

  datatype Batch = Batch(nrows: nat, columns: seq<Stored>)
  datatype Group = Group(firstBatch: nat, nbatches: nat, columns: seq<Summary>)

  ghost predicate BatchOk(b: Batch) {
    && 1 <= b.nrows <= ROWS
    && forall c | 0 <= c < |b.columns| :: b.columns[c].Shaped(b.nrows) && CountsNulls(b.columns[c], b.nrows)
  }

  ghost predicate BatchesOk(batches: seq<Batch>, ncolumns: nat) {
    forall b | 0 <= b < |batches| :: BatchOk(batches[b]) && |batches[b].columns| == ncolumns
  }

  // ----- the rows a snapshot holds -----

  ghost function RowOf(b: Batch, r: nat): Row
    requires BatchOk(b) && r < b.nrows
  {
    seq(|b.columns|, c requires 0 <= c < |b.columns| => Item(b.columns[c], r))
  }

  ghost function RowsOf(b: Batch): (rows: seq<Row>)
    requires BatchOk(b)
    ensures |rows| == b.nrows
  {
    seq(b.nrows, r requires 0 <= r < b.nrows => RowOf(b, r))
  }

  ghost function Contents(batches: seq<Batch>): seq<Row>
    requires forall b | 0 <= b < |batches| :: BatchOk(batches[b])
  {
    if batches == [] then [] else Contents(batches[..|batches| - 1]) + RowsOf(batches[|batches| - 1])
  }

  lemma ContentsOne(batches: seq<Batch>, b: Batch, ncolumns: nat)
    requires BatchesOk(batches, ncolumns) && BatchOk(b) && |b.columns| == ncolumns
    ensures BatchesOk(batches + [b], ncolumns)
    ensures Contents(batches + [b]) == Contents(batches) + RowsOf(b)
  {
    assert (batches + [b])[..|batches|] == batches;
  }

  lemma ContentsSingle(b: Batch)
    requires BatchOk(b)
    ensures Contents([b]) == RowsOf(b)
  {
    hide RowsOf, BatchOk;
    assert [b][..0] == [];
  }

  lemma {:induction false} ContentsUnion(a: seq<Batch>, b: seq<Batch>, ncolumns: nat)
    requires BatchesOk(a, ncolumns) && BatchesOk(b, ncolumns)
    ensures BatchesOk(a + b, ncolumns)
    ensures Contents(a + b) == Contents(a) + Contents(b)
  {
    hide BatchOk, RowsOf;
    if b == [] {
      assert a + b == a;
    } else {
      var n := |b| - 1;
      assert (a + b)[..|a + b| - 1] == a + b[..n];
      ContentsUnion(a, b[..n], ncolumns);
    }
  }

  lemma {:induction false} ContentsWidth(batches: seq<Batch>, ncolumns: nat)
    requires BatchesOk(batches, ncolumns)
    ensures forall i | 0 <= i < |Contents(batches)| :: |Contents(batches)[i]| == ncolumns
  {
    if batches != [] {
      ContentsWidth(batches[..|batches| - 1], ncolumns);
    }
  }

  /** The non-NULL values of a column in some rows. */
  ghost function ValuesIn(rows: seq<Row>, column: nat): set<int> {
    set r | 0 <= r < |rows| && column < |rows[r]| && rows[r][column] != None :: rows[r][column].value
  }

  lemma ValuesUnion(a: seq<Row>, b: seq<Row>, column: nat)
    ensures ValuesIn(a + b, column) == ValuesIn(a, column) + ValuesIn(b, column)
  {
    forall v | v in ValuesIn(a, column) + ValuesIn(b, column)
      ensures v in ValuesIn(a + b, column)
    {
      if v in ValuesIn(a, column) {
        var r :| 0 <= r < |a| && column < |a[r]| && a[r][column] == Some(v);
        assert (a + b)[r] == a[r];
      } else {
        var r :| 0 <= r < |b| && column < |b[r]| && b[r][column] == Some(v);
        assert (a + b)[|a| + r] == b[r];
      }
    }
    forall v | v in ValuesIn(a + b, column)
      ensures v in ValuesIn(a, column) + ValuesIn(b, column)
    {
      var r :| 0 <= r < |a + b| && column < |(a + b)[r]| && (a + b)[r][column] == Some(v);
      if r < |a| {
        assert (a + b)[r] == a[r];
      } else {
        assert (a + b)[r] == b[r - |a|];
      }
    }
  }

  // ----- storage groups -----

  function EndOf(g: Group): nat {
    g.firstBatch + g.nbatches
  }

  /** Groups follow each other without gaps and cover all batches. */
  ghost predicate Contiguous(groups: seq<Group>, nbatches: nat) {
    && (groups == [] ==> nbatches == 0)
    && (groups != [] ==> groups[0].firstBatch == 0 && EndOf(groups[|groups| - 1]) == nbatches)
    && (forall g | 0 < g < |groups| :: groups[g].firstBatch == EndOf(groups[g - 1]))
    && (forall g | 0 <= g < |groups| :: EndOf(groups[g]) <= nbatches)
  }

  ghost predicate Described(g: Group, batches: seq<Batch>, ncolumns: nat)
    requires BatchesOk(batches, ncolumns)
  {
    && EndOf(g) <= |batches| && |g.columns| == ncolumns
    && forall c | 0 <= c < ncolumns :: Summarizes(g.columns[c], ValuesIn(Contents(batches[g.firstBatch..EndOf(g)]), c))
  }

  /** The groups of a snapshot; while a batch is being added the last group may still be empty
      and has room. */
  ghost predicate GroupsOk(groups: seq<Group>, batches: seq<Batch>, ncolumns: nat, groupBatches: nat, adding: bool)
    requires BatchesOk(batches, ncolumns)
  {
    && Contiguous(groups, |batches|)
    && (forall g | 0 <= g < |groups| :: groups[g].nbatches <= groupBatches)
    && (forall g | 0 <= g < |groups| :: groups[g].nbatches >= 1 || (adding && g == |groups| - 1))
    && (adding ==> groups != [] && groups[|groups| - 1].nbatches < groupBatches)
    && (forall g | 0 <= g < |groups| :: Described(groups[g], batches, ncolumns))
  }

  // ----- one batch -----

  /** The columns of a batch before encoding. */
  ghost predicate InputOk(values: seq<seq<int>>, nonnull: seq<seq<bool>>, nrows: nat) {
    && |values| == |nonnull| && 1 <= nrows <= ROWS
    && forall c | 0 <= c < |values| :: |values[c]| == nrows && IsColumn(values[c], nonnull[c])
  }

  ghost function InputItem(values: seq<seq<int>>, nonnull: seq<seq<bool>>, r: nat, c: nat): Option<int>
    requires c < |values| == |nonnull| && r < |values[c]| && r < |nonnull[c]|
  {
    if nonnull[c][r] then Some(values[c][r]) else None
  }

  ghost predicate Holds(b: Batch, values: seq<seq<int>>, nonnull: seq<seq<bool>>, nrows: nat)
    requires InputOk(values, nonnull, nrows)
  {
    && BatchOk(b) && b.nrows == nrows && |b.columns| == |values|
    && forall r, c | 0 <= r < nrows && 0 <= c < |values| :: RowOf(b, r)[c] == InputItem(values, nonnull, r, c)
  }

  /** build_compressed_batch */
  method BuildBatch(values: seq<seq<int>>, nonnull: seq<seq<bool>>, nrows: nat) returns (batch: Batch)
    requires InputOk(values, nonnull, nrows)
    ensures Holds(batch, values, nonnull, nrows)
  {
    hide Encodes, Narrowest, Item;
    var columns: seq<Stored> := [];
    for c := 0 to |values|
      invariant |columns| == c
      invariant forall k | 0 <= k < c :: columns[k].Shaped(nrows) && CountsNulls(columns[k], nrows)
      invariant forall k, r | 0 <= k < c && 0 <= r < nrows :: Item(columns[k], r) == InputItem(values, nonnull, r, k)
    {
      var encoding, base, dataSize := ChooseCompression(values[c], nonnull[c]);
      var stored := WriteColumn(values[c], nonnull[c], encoding, base);
      EncodedItems(stored, values[c], nonnull[c]);
      columns := columns + [stored];
    }
    batch := Batch(nrows, columns);
  }

  lemma BatchValues(b: Batch, values: seq<seq<int>>, nonnull: seq<seq<bool>>, nrows: nat, c: nat)
    requires InputOk(values, nonnull, nrows) && Holds(b, values, nonnull, nrows) && c < |values|
    ensures ValuesIn(RowsOf(b), c) == NonnullValues(values[c], nonnull[c])
  {
    hide Item, Encodes;
    var rows := RowsOf(b);
    forall r | 0 <= r < nrows
      ensures rows[r][c] == InputItem(values, nonnull, r, c)
    {
      assert rows[r] == RowOf(b, r);
    }
    forall v | v in NonnullValues(values[c], nonnull[c])
      ensures v in ValuesIn(rows, c)
    {
      var r :| 0 <= r < nrows && nonnull[c][r] && values[c][r] == v;
      assert rows[r][c] == Some(v);
    }
    forall v | v in ValuesIn(rows, c)
      ensures v in NonnullValues(values[c], nonnull[c])
    {
      var r :| 0 <= r < |rows| && rows[r][c] == Some(v);
    }
  }

  /** update_group: every column's summary takes in the batch's values. */
  method UpdateGroup(columns: seq<Summary>, values: seq<seq<int>>, nonnull: seq<seq<bool>>, nrows: nat,
                     ghost seen: seq<set<int>>)
    returns (after: seq<Summary>)
    requires InputOk(values, nonnull, nrows) && |columns| == |values| == |seen|
    requires forall c | 0 <= c < |columns| :: Summarizes(columns[c], seen[c])
    ensures |after| == |columns|
    ensures forall c | 0 <= c < |columns| :: Summarizes(after[c], seen[c] + NonnullValues(values[c], nonnull[c]))
  {
    hide Summarizes;
    after := columns;
    for c := 0 to |values|
      invariant |after| == |columns|
      invariant forall k | 0 <= k < c :: Summarizes(after[k], seen[k] + NonnullValues(values[k], nonnull[k]))
      invariant forall k | c <= k < |columns| :: after[k] == columns[k]
    {
      var column := UpdateColumn(after[c], values[c], nonnull[c], seen[c]);
      after := after[c := column];
    }
  }

  lemma HoldsShape(b: Batch, values: seq<seq<int>>, nonnull: seq<seq<bool>>, nrows: nat)
    requires InputOk(values, nonnull, nrows) && Holds(b, values, nonnull, nrows)
    ensures BatchOk(b) && b.nrows == nrows && |b.columns| == |values|
  {}

  /** A description stays true when batches are appended. */
  lemma DescribedStays(g: Group, batches: seq<Batch>, more: seq<Batch>, ncolumns: nat)
    requires BatchesOk(batches, ncolumns) && BatchesOk(more, ncolumns) && Described(g, batches, ncolumns)
    requires |batches| <= |more| && more[..|batches|] == batches
    ensures Described(g, more, ncolumns)
  {
    hide Summarizes, Contents, ValuesIn;
    PrefixSlice(more, |batches|, g.firstBatch, EndOf(g));
  }

  lemma TailGrows<T>(s: seq<T>, x: T, from: nat)
    requires from <= |s|
    ensures (s + [x])[from..|s| + 1] == s[from..|s|] + [x]
  {}

  lemma PrefixSlice<T>(s: seq<T>, n: nat, i: nat, j: nat)
    requires i <= j <= n <= |s|
    ensures s[..n][i..j] == s[i..j]
  {}

  /** Taking in one more batch: the summaries now describe the group with it. */
  lemma GrowGroup(members: seq<Batch>, b: Batch, values: seq<seq<int>>, nonnull: seq<seq<bool>>, nrows: nat,
                  columns: seq<Summary>, seen: seq<set<int>>)
    requires InputOk(values, nonnull, nrows) && Holds(b, values, nonnull, nrows)
    requires BatchesOk(members, |values|) && |columns| == |values| == |seen|
    requires forall c | 0 <= c < |columns| :: seen[c] == ValuesIn(Contents(members), c)
    requires forall c | 0 <= c < |columns| :: Summarizes(columns[c], seen[c] + NonnullValues(values[c], nonnull[c]))
    ensures BatchesOk(members + [b], |values|)
    ensures forall c | 0 <= c < |columns| :: Summarizes(columns[c], ValuesIn(Contents(members + [b]), c))
  {
    hide Summarizes, Contents, ValuesIn, RowsOf;
    ContentsOne(members, b, |values|);
    forall c | 0 <= c < |columns|
      ensures Summarizes(columns[c], ValuesIn(Contents(members + [b]), c))
    {
      BatchValues(b, values, nonnull, nrows, c);
      ValuesUnion(Contents(members), RowsOf(b), c);
    }
  }

  lemma EmptySummary(column: nat)
    ensures Summarizes(EMPTY, ValuesIn(Contents([]), column))
  {}

  lemma MembersOk(batches: seq<Batch>, first: nat, end: nat, ncolumns: nat)
    requires BatchesOk(batches, ncolumns) && first <= end <= |batches|
    ensures BatchesOk(batches[first..end], ncolumns)
    ensures forall b | 0 <= b < end - first :: BatchOk(batches[first..end][b])
  {}

  /** The last group ends with the last batch. */
  lemma LastGroup(groups: seq<Group>, batches: seq<Batch>, ncolumns: nat, groupBatches: nat)
    requires BatchesOk(batches, ncolumns)
    requires GroupsOk(groups, batches, ncolumns, groupBatches, false) || GroupsOk(groups, batches, ncolumns, groupBatches, true)
    ensures groups != [] ==>
              && EndOf(groups[|groups| - 1]) == |batches| && Described(groups[|groups| - 1], batches, ncolumns)
              && groups[|groups| - 1].nbatches <= groupBatches
    ensures groups != [] && groups[|groups| - 1].nbatches < groupBatches ==> GroupsOk(groups, batches, ncolumns, groupBatches, true)
  {
    hide Described;
  }

  /** append_group: an empty group at the end. */
  lemma OpenGroup(groups: seq<Group>, g: Group, batches: seq<Batch>, ncolumns: nat, groupBatches: nat)
    requires BatchesOk(batches, ncolumns) && GroupsOk(groups, batches, ncolumns, groupBatches, false) && groupBatches >= 1
    requires g == Group(|batches|, 0, seq(ncolumns, _ => EMPTY))
    ensures GroupsOk(groups + [g], batches, ncolumns, groupBatches, true)
  {
    hide Summarizes, Contents, ValuesIn;
    assert batches[g.firstBatch..EndOf(g)] == [];
    forall c | 0 <= c < ncolumns
      ensures Summarizes(EMPTY, ValuesIn(Contents([]), c))
    {
      EmptySummary(c);
    }
  }

  /** The last group takes in the batch that was appended. */
  lemma CloseGroup(groups: seq<Group>, g: Group, before: seq<Batch>, b: Batch, ncolumns: nat, groupBatches: nat)
    requires BatchesOk(before, ncolumns) && GroupsOk(groups, before, ncolumns, groupBatches, true)
    requires BatchesOk(before + [b], ncolumns) && Described(g, before + [b], ncolumns)
    requires g.firstBatch == groups[|groups| - 1].firstBatch && g.nbatches == groups[|groups| - 1].nbatches + 1
    ensures GroupsOk(groups[|groups| - 1 := g], before + [b], ncolumns, groupBatches, false)
  {
    hide Described, BatchesOk;
    forall k | 0 <= k < |groups|
      ensures Described(groups[k], before + [b], ncolumns)
    {
      DescribedStays(groups[k], before, before + [b], ncolumns);
    }
  }

  /** CompressedRelation */
  class Relation {
    const ncolumns: nat
    const groupBatches: nat
    var batches: seq<Batch>
    var groups: seq<Group>

    ghost predicate Valid()
      reads this
    {
      && ncolumns >= 1 && groupBatches >= 1
      && BatchesOk(batches, ncolumns)
      && GroupsOk(groups, batches, ncolumns, groupBatches, false)
    }

    constructor (ncolumns: nat, groupBatches: nat)
      requires ncolumns >= 1 && groupBatches >= 1
      ensures Valid() && batches == [] && this.ncolumns == ncolumns && this.groupBatches == groupBatches
    {
      this.ncolumns, this.groupBatches := ncolumns, groupBatches;
      batches, groups := [], [];
    }

    /** append_compressed_batch: the rows go to the end; a group that is full is followed by a new one. */
    method Append(values: seq<seq<int>>, nonnull: seq<seq<bool>>, nrows: nat)
      requires Valid() && InputOk(values, nonnull, nrows) && |values| == ncolumns
      modifies this
      ensures Valid()
      ensures |batches| == |old(batches)| + 1 && batches[..|old(batches)|] == old(batches)
      ensures Holds(batches[|old(batches)|], values, nonnull, nrows)
      ensures Contents(batches) == old(Contents(batches)) + RowsOf(batches[|old(batches)|])
      ensures |groups| == |old(groups)| +
                if old(groups) == [] || old(groups)[|old(groups)| - 1].nbatches == groupBatches then 1 else 0
    {
      hide InputOk, Holds, RowsOf, ValuesIn, Summarizes, Contents, GroupsOk, BatchesOk;
      var batch := BuildBatch(values, nonnull, nrows);
      HoldsShape(batch, values, nonnull, nrows);
      ghost var before := batches;
      ContentsOne(before, batch, ncolumns);
      LastGroup(groups, before, ncolumns, groupBatches);
      var last := |groups| - 1;
      if |groups| == 0 || groups[last].nbatches == groupBatches {
        var empty := Group(|batches|, 0, seq(ncolumns, _ => EMPTY));
        OpenGroup(groups, empty, before, ncolumns, groupBatches);
        groups := groups + [empty];
        last := last + 1;
      }
      LastGroup(groups, before, ncolumns, groupBatches);
      batches := batches + [batch];
      var g := groups[last];
      ghost var members := before[g.firstBatch..EndOf(g)];
      MembersOk(before, g.firstBatch, EndOf(g), ncolumns);
      ghost var seen := seq(ncolumns, c requires 0 <= c < ncolumns => ValuesIn(Contents(members), c));
      var columns := UpdateGroup(g.columns, values, nonnull, nrows, seen);
      TailGrows(before, batch, g.firstBatch);
      GrowGroup(members, batch, values, nonnull, nrows, columns, seen);
      var grown := Group(g.firstBatch, g.nbatches + 1, columns);
      CloseGroup(groups, grown, before, batch, ncolumns, groupBatches);
      groups := groups[last := grown];
    }
  }

  // ----- compressing a relation -----

  ghost predicate RowOk(row: Row, ncolumns: nat) {
    |row| == ncolumns && forall c | 0 <= c < ncolumns :: row[c] != None ==> IsInt32(row[c].value)
  }

  ghost predicate RowsOk(rows: seq<Row>, ncolumns: nat) {
    forall r | 0 <= r < |rows| :: RowOk(rows[r], ncolumns)
  }

  /** The row buffers of a batch that is being filled. */
  ghost predicate Filling(values: seq<seq<int>>, nonnull: seq<seq<bool>>, ncolumns: nat, filled: seq<Row>) {
    && |values| == |nonnull| == ncolumns && |filled| <= ROWS
    && (forall c | 0 <= c < ncolumns :: |values[c]| == |nonnull[c]| == ROWS && forall r | 0 <= r < ROWS :: IsInt32(values[c][r]))
    && (forall r | 0 <= r < |filled| :: |filled[r]| == ncolumns)
    && (forall r, c | 0 <= r < |filled| && 0 <= c < ncolumns ::
          filled[r][c] == if nonnull[c][r] then Some(values[c][r]) else None)
    && (forall r, c | |filled| <= r < ROWS && 0 <= c < ncolumns :: !nonnull[c][r])
  }

  /** One fetched row goes into the buffers; a NULL is stored as zero. */
  method StoreRow(values: seq<seq<int>>, nonnull: seq<seq<bool>>, row: Row, batchRow: nat, ghost filled: seq<Row>)
    returns (values': seq<seq<int>>, nonnull': seq<seq<bool>>)
    requires RowOk(row, |row|) && Filling(values, nonnull, |row|, filled) && batchRow == |filled| < ROWS
    ensures Filling(values', nonnull', |row|, filled + [row])
  {
    values', nonnull' := values, nonnull;
    for c := 0 to |row|
      invariant |values'| == |nonnull'| == |row|
      invariant forall k | 0 <= k < |row| :: |values'[k]| == |nonnull'[k]| == ROWS
      invariant forall k | c <= k < |row| :: values'[k] == values[k] && nonnull'[k] == nonnull[k]
      invariant forall k | 0 <= k < c :: Stores(values[k], nonnull[k], values'[k], nonnull'[k], row[k], |filled|)
    {
      var value := 0;
      if row[c] != None {
        value := row[c].value;
        nonnull' := nonnull'[c := nonnull'[c][batchRow := true]];
      }
      values' := values'[c := values'[c][batchRow := value]];
    }
    StoredRow(values, nonnull, values', nonnull', row, filled);
  }

  /** One item went into place `at`; the rest of the column's buffers is as it was. */
  ghost predicate Stores(values: seq<int>, nonnull: seq<bool>, values': seq<int>, nonnull': seq<bool>,
                         item: Option<int>, at: nat) {
    && |values| == |nonnull| == |values'| == |nonnull'| == ROWS && at < ROWS
    && values' == values[at := if item == None then 0 else item.value]
    && nonnull' == if item == None then nonnull else nonnull[at := true]
  }

  lemma StoredRow(values: seq<seq<int>>, nonnull: seq<seq<bool>>, values': seq<seq<int>>, nonnull': seq<seq<bool>>,
                  row: Row, filled: seq<Row>)
    requires RowOk(row, |row|) && Filling(values, nonnull, |row|, filled) && |filled| < ROWS
    requires |values'| == |nonnull'| == |row|
    requires forall c | 0 <= c < |row| :: Stores(values[c], nonnull[c], values'[c], nonnull'[c], row[c], |filled|)
    ensures Filling(values', nonnull', |row|, filled + [row])
  {
    var now := filled + [row];
    forall c | 0 <= c < |row|
      ensures |values'[c]| == |nonnull'[c]| == ROWS && forall r | 0 <= r < ROWS :: IsInt32(values'[c][r])
    {
      assert Stores(values[c], nonnull[c], values'[c], nonnull'[c], row[c], |filled|);
    }
    forall r, c | 0 <= r < |now| && 0 <= c < |row|
      ensures |now[r]| == |row| && now[r][c] == if nonnull'[c][r] then Some(values'[c][r]) else None
    {
      assert Stores(values[c], nonnull[c], values'[c], nonnull'[c], row[c], |filled|);
      if r < |filled| {
        assert now[r] == filled[r];
        assert values'[c][r] == values[c][r] && nonnull'[c][r] == nonnull[c][r];
      } else {
        assert now[r] == row;
        assert !nonnull[c][r];
      }
    }
    forall r, c | |now| <= r < ROWS && 0 <= c < |row|
      ensures !nonnull'[c][r]
    {
      assert Stores(values[c], nonnull[c], values'[c], nonnull'[c], row[c], |filled|);
    }
  }

  function NoFlags(ncolumns: nat): (r: seq<seq<bool>>)
    ensures |r| == ncolumns && forall c | 0 <= c < ncolumns :: |r[c]| == ROWS && forall i | 0 <= i < ROWS :: !r[c][i]
  {
    seq(ncolumns, _ => seq(ROWS, _ => false))
  }

  lemma EmptyBuffers(values: seq<seq<int>>, ncolumns: nat)
    requires |values| == ncolumns
    requires forall c | 0 <= c < ncolumns :: |values[c]| == ROWS && forall r | 0 <= r < ROWS :: IsInt32(values[c][r])
    ensures Filling(values, NoFlags(ncolumns), ncolumns, [])
  {}

  /** Only the flags are cleared between batches; old values stay in the buffer unseen. */
  lemma Cleared(values: seq<seq<int>>, nonnull: seq<seq<bool>>, ncolumns: nat, filled: seq<Row>)
    requires Filling(values, nonnull, ncolumns, filled)
    ensures Filling(values, NoFlags(ncolumns), ncolumns, [])
  {
    EmptyBuffers(values, ncolumns);
  }

  lemma BufferShape(values: seq<seq<int>>, nonnull: seq<seq<bool>>, ncolumns: nat, filled: seq<Row>)
    requires Filling(values, nonnull, ncolumns, filled)
    ensures |values| == |nonnull| == ncolumns && |filled| <= ROWS
    ensures forall c | 0 <= c < ncolumns :: |values[c]| == |nonnull[c]| == ROWS
  {}

  /** The filled part of the buffers becomes a batch of the snapshot. */
  method Flush(compressed: Relation, values: seq<seq<int>>, nonnull: seq<seq<bool>>, nrows: nat, ghost filled: seq<Row>)
    requires compressed.Valid() && Filling(values, nonnull, compressed.ncolumns, filled)
    requires nrows == |filled| >= 1
    modifies compressed
    ensures compressed.Valid()
    ensures Contents(compressed.batches) == old(Contents(compressed.batches)) + filled
  {
    hide Filling, InputOk, Holds, RowsOf, Contents, GroupsOk, FirstRows;
    BufferShape(values, nonnull, compressed.ncolumns, filled);
    FilledInput(values, nonnull, compressed.ncolumns, filled);
    compressed.Append(FirstRows(values, nrows), FirstRows(nonnull, nrows), nrows);
    FilledRows(values, nonnull, compressed.ncolumns, filled, compressed.batches[|compressed.batches| - 1]);
  }

  function FirstRows<T>(columns: seq<seq<T>>, nrows: nat): (r: seq<seq<T>>)
    requires forall c | 0 <= c < |columns| :: nrows <= |columns[c]|
    ensures |r| == |columns| && forall c | 0 <= c < |r| :: r[c] == columns[c][..nrows]
  {
    seq(|columns|, c requires 0 <= c < |columns| => columns[c][..nrows])
  }

  /** A filled buffer is a valid batch, and the batch made of it holds the filled rows. */
  lemma FilledInput(values: seq<seq<int>>, nonnull: seq<seq<bool>>, ncolumns: nat, filled: seq<Row>)
    requires Filling(values, nonnull, ncolumns, filled) && |filled| >= 1
    ensures InputOk(FirstRows(values, |filled|), FirstRows(nonnull, |filled|), |filled|)
  {}

  lemma FilledRows(values: seq<seq<int>>, nonnull: seq<seq<bool>>, ncolumns: nat, filled: seq<Row>, b: Batch)
    requires Filling(values, nonnull, ncolumns, filled) && |filled| >= 1
    requires InputOk(FirstRows(values, |filled|), FirstRows(nonnull, |filled|), |filled|)
    requires Holds(b, FirstRows(values, |filled|), FirstRows(nonnull, |filled|), |filled|)
    ensures RowsOf(b) == filled
  {
    hide Item, IsColumn;
    forall r | 0 <= r < |filled|
      ensures RowOf(b, r) == filled[r]
    {
      forall c | 0 <= c < ncolumns
        ensures RowOf(b, r)[c] == filled[r][c]
      {
        assert RowOf(b, r)[c] == InputItem(FirstRows(values, |filled|), FirstRows(nonnull, |filled|), r, c);
      }
    }
  }

  /** pg_batch_compress: refused for a table without columns or a group size that is not a
      positive multiple of 64; otherwise the snapshot holds exactly the table's rows, in order. */
  method Compress(rows: seq<Row>, ncolumns: nat, groupRows: int) returns (relation: Relation?)
    requires RowsOk(rows, ncolumns)
    ensures relation == null <==> ncolumns == 0 || groupRows < 64 || groupRows % 64 != 0
    ensures relation != null ==>
              && relation.Valid() && relation.ncolumns == ncolumns && relation.groupBatches * 64 == groupRows
              && Contents(relation.batches) == rows
  {
    if ncolumns == 0 {
      return null;
    }
    if groupRows < ROWS || groupRows % ROWS != 0 {
      return null;
    }
    hide Filling, InputOk, Holds, RowsOf, Contents, GroupsOk;
    var compressed := new Relation(ncolumns, groupRows / ROWS);
    var values := seq(ncolumns, _ => seq(ROWS, _ => 0));
    var nonnull := NoFlags(ncolumns);
    ghost var filled := [];
    var batchRow := 0;
    assert Filling(values, nonnull, ncolumns, filled) by {
      EmptyBuffers(values, ncolumns);
    }
    for i := 0 to |rows|
      invariant compressed.Valid() && compressed.ncolumns == ncolumns && fresh(compressed)
      invariant batchRow == |filled| < ROWS && Filling(values, nonnull, ncolumns, filled)
      invariant Contents(compressed.batches) + filled == rows[..i]
    {
      values, nonnull := StoreRow(values, nonnull, rows[i], batchRow, filled);
      filled := filled + [rows[i]];
      assert rows[..i + 1] == rows[..i] + [rows[i]];
      batchRow := batchRow + 1;
      if batchRow == ROWS {
        Flush(compressed, values, nonnull, batchRow, filled);
        Cleared(values, nonnull, ncolumns, filled);
        nonnull := NoFlags(ncolumns);
        filled := [];
        batchRow := 0;
      }
    }
    if batchRow > 0 {
      Flush(compressed, values, nonnull, batchRow, filled);
    }
    relation := compressed;
  }
}
