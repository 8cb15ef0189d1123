/** Scanning a compressed snapshot with group pruning and source filters.
    (examples/compressed_tam/compressed.c and source.c) */
module CompressedScan {
  import opened ColumnCodec
  import opened CompressedTable
  import opened Expressions
  import opened Int4Kernels
  import opened Selecting
  import opened StorageGroups
  import opened Vectors

  /** How much of the clauses the source handles itself. */
  datatype Mode = Batches | Prune | Filter

  ghost predicate QualsOk(quals: seq<Qual>, ncolumns: nat) {
    forall q | 0 <= q < |quals| :: QualOk(quals[q]) && quals[q].column < ncolumns
  }

  /** A row for which every clause is TRUE. */
  ghost predicate Passes(quals: seq<Qual>, row: Row)
    requires QualsOk(quals, |row|)
  {
    forall q | 0 <= q < |quals| :: Judge(quals[q].clause, row[quals[q].column]) == True
  }

  /** The same test for rows of any width, as a selection needs it. */
  ghost function Test(quals: seq<Qual>): Row -> bool {
    row => QualsOk(quals, |row|) && Passes(quals, row)
  }

  ghost predicate Rejected(g: Group, quals: seq<Qual>, scalars: seq<Option<int>>)
    requires |scalars| == |quals| && QualsOk(quals, |g.columns|)
  {
    exists q | 0 <= q < |quals| :: Rejects(g.columns, quals[q], scalars[q])
  }

  // ----- skipping a group loses no row -----

  lemma MemberSeen(rows: seq<Row>, i: nat, column: nat)
    requires i < |rows| && column < |rows[i]|
    ensures rows[i][column] != None ==> rows[i][column].value in ValuesIn(rows, column)
  {}

  /** No row of a rejected group passes the clauses. */
  lemma RejectedGroup(g: Group, batches: seq<Batch>, ncolumns: nat, quals: seq<Qual>, scalars: seq<Option<int>>)
    requires BatchesOk(batches, ncolumns) && Described(g, batches, ncolumns)
    requires QualsOk(quals, ncolumns) && ScalarsOf(quals, scalars) && Rejected(g, quals, scalars)
    ensures BatchesOk(batches[g.firstBatch..EndOf(g)], ncolumns)
    ensures Select(Contents(batches[g.firstBatch..EndOf(g)]), Test(quals)) == []
  {
    hide Contents, ValuesIn, Summarizes, Judge, Judged, AnalyzeFilter, Eval, Select;
    MembersOk(batches, g.firstBatch, EndOf(g), ncolumns);
    var members := batches[g.firstBatch..EndOf(g)];
    var rows := Contents(members);
    ContentsWidth(members, ncolumns);
    var q :| 0 <= q < |quals| && Rejects(g.columns, quals[q], scalars[q]);
    var column := quals[q].column;
    forall i | 0 <= i < |rows|
      ensures !Test(quals)(rows[i])
    {
      MemberSeen(rows, i, column);
      RejectedRowsFail(g.columns[column], ValuesIn(rows, column), quals[q], scalars[q], rows[i][column]);
    }
    SelectNone(rows, Test(quals));
  }

  /** What a scan works on: a snapshot, its clauses and their scalars. */
  datatype Setting = Setting(batches: seq<Batch>, groups: seq<Group>, ncolumns: nat,
                             quals: seq<Qual>, scalars: seq<Option<int>>, pruning: bool)

  ghost predicate SettingOk(s: Setting) {
    && BatchesOk(s.batches, s.ncolumns) && QualsOk(s.quals, s.ncolumns) && ScalarsOf(s.quals, s.scalars)
    && Contiguous(s.groups, |s.batches|)
    && forall g | 0 <= g < |s.groups| :: Described(s.groups[g], s.batches, s.ncolumns)
  }

  ghost function Members(s: Setting, first: nat, end: nat): (rows: seq<Row>)
    requires SettingOk(s) && first <= end <= |s.batches|
  {
    MembersOk(s.batches, first, end, s.ncolumns);
    Contents(s.batches[first..end])
  }

  ghost predicate Skipped(s: Setting, g: nat)
    requires SettingOk(s) && g < |s.groups|
  {
    s.pruning && Rejected(s.groups[g], s.quals, s.scalars)
  }

  /** The rows of the first groups without the skipped ones, in storage order. */
  ghost function Offered(s: Setting, n: nat): seq<Row>
    requires SettingOk(s) && n <= |s.groups|
  {
    if n == 0 then []
    else Offered(s, n - 1) + if Skipped(s, n - 1) then [] else Members(s, s.groups[n - 1].firstBatch, EndOf(s.groups[n - 1]))
  }

  ghost function EndOfFirst(s: Setting, n: nat): (end: nat)
    requires SettingOk(s) && n <= |s.groups|
    ensures end <= |s.batches| && (n == |s.groups| ==> end == |s.batches|)
    ensures n < |s.groups| ==> s.groups[n].firstBatch == end
  {
    if n == 0 then 0 else EndOf(s.groups[n - 1])
  }

  lemma MembersUnion(s: Setting, a: nat, b: nat, c: nat)
    requires SettingOk(s) && a <= b <= c <= |s.batches|
    ensures Members(s, a, c) == Members(s, a, b) + Members(s, b, c)
  {
    hide Contents;
    MembersOk(s.batches, a, b, s.ncolumns);
    MembersOk(s.batches, b, c, s.ncolumns);
    assert s.batches[a..c] == s.batches[a..b] + s.batches[b..c];
    ContentsUnion(s.batches[a..b], s.batches[b..c], s.ncolumns);
  }

  lemma NoMembers(s: Setting, a: nat)
    requires SettingOk(s) && a <= |s.batches|
    ensures Members(s, a, a) == []
  {}

  /** The rows of skipped groups would not have passed: skipping loses nothing. */
  lemma {:induction false} SkippingLosesNothing(s: Setting, n: nat)
    requires SettingOk(s) && n <= |s.groups|
    ensures Select(Offered(s, n), Test(s.quals)) == Select(Members(s, 0, EndOfFirst(s, n)), Test(s.quals))
    ensures !s.pruning ==> Offered(s, n) == Members(s, 0, EndOfFirst(s, n))
  {
    if n == 0 {
      NoMembers(s, 0);
    } else {
      hide SettingOk, Select, Members, Test, Offered, EndOfFirst, Skipped;
      SkippingLosesNothing(s, n - 1);
      var start, end := EndOfFirst(s, n - 1), EndOfFirst(s, n);
      var test := Test(s.quals);
      OfferedStep(s, n);
      MembersUnion(s, 0, start, end);
      SelectUnion(Members(s, 0, start), Members(s, start, end), test);
      SelectUnion(Offered(s, n - 1), Members(s, start, end), test);
      if Skipped(s, n - 1) {
        SkippedGroup(s, n - 1);
        assert Select(Members(s, 0, end), test) == Select(Members(s, 0, start), test) + [];
      }
    }
  }

  lemma OfferedStep(s: Setting, n: nat)
    requires SettingOk(s) && 1 <= n <= |s.groups|
    ensures s.groups[n - 1].firstBatch == EndOfFirst(s, n - 1) <= EndOfFirst(s, n) == EndOf(s.groups[n - 1]) <= |s.batches|
    ensures Offered(s, n) == if Skipped(s, n - 1) then Offered(s, n - 1)
                             else Offered(s, n - 1) + Members(s, EndOfFirst(s, n - 1), EndOfFirst(s, n))
    ensures Skipped(s, n - 1) ==> s.pruning
  {
    hide Members, Rejected;
    GroupSpan(s, n - 1);
  }

  lemma GroupSpan(s: Setting, g: nat)
    requires SettingOk(s) && g < |s.groups|
    ensures s.groups[g].firstBatch == EndOfFirst(s, g) <= EndOfFirst(s, g + 1) == EndOf(s.groups[g]) <= |s.batches|
  {}

  lemma SkippedGroup(s: Setting, g: nat)
    requires SettingOk(s) && g < |s.groups| && Skipped(s, g)
    ensures s.groups[g].firstBatch <= EndOf(s.groups[g]) <= |s.batches|
    ensures Select(Members(s, s.groups[g].firstBatch, EndOf(s.groups[g])), Test(s.quals)) == []
  {
    hide Contents, Select, Rejected, Test;
    RejectedGroup(s.groups[g], s.batches, s.ncolumns, s.quals, s.scalars);
  }

  // ----- the scan position -----

  datatype Cursor = Cursor(group: nat, batch: nat, row: nat, ready: bool)

  /** A later position. */
  predicate Ahead(c: Cursor, d: Cursor) {
    d.group > c.group || (d.group == c.group && (d.batch > c.batch || (d.batch == c.batch && d.row > c.row)))
  }

  ghost predicate CursorOk(s: Setting, c: Cursor)
    requires SettingOk(s)
  {
    && c.group <= |s.groups|
    && (if c.group == |s.groups| then !c.ready
        else s.groups[c.group].firstBatch <= c.batch <= EndOf(s.groups[c.group]))
    && (!c.ready ==> c.batch == EndOfFirst(s, c.group) && c.row == 0)
    && (c.ready ==> if c.batch < EndOf(s.groups[c.group]) then !Skipped(s, c.group) && c.row < s.batches[c.batch].nrows
                    else c.row == 0)
  }

  /** The rows of the current group before the position. */
  ghost function Within(s: Setting, c: Cursor): seq<Row>
    requires SettingOk(s) && CursorOk(s, c) && c.ready
  {
    if Skipped(s, c.group) then []
    else Members(s, s.groups[c.group].firstBatch, c.batch) +
         if c.batch < EndOf(s.groups[c.group]) then RowsOf(s.batches[c.batch])[..c.row] else []
  }

  /** The rows a scan has gone over when it reaches a position, without those of skipped groups. */
  ghost function Passed(s: Setting, c: Cursor): seq<Row>
    requires SettingOk(s) && CursorOk(s, c)
  {
    Offered(s, c.group) + if c.ready then Within(s, c) else []
  }

  lemma EnterKeeps(s: Setting, c: Cursor, to: Cursor)
    requires SettingOk(s) && CursorOk(s, c) && !c.ready && c.group < |s.groups|
    requires to == Cursor(c.group, if Skipped(s, c.group) then EndOf(s.groups[c.group]) else c.batch, 0, true)
    ensures CursorOk(s, to) && Passed(s, to) == Passed(s, c)
  {
    hide Contents, Offered, Rejected, RowsOf;
    GroupSpan(s, c.group);
    NoMembers(s, c.batch);
  }

  lemma LeaveKeeps(s: Setting, c: Cursor)
    requires SettingOk(s) && CursorOk(s, c) && c.ready && c.batch == EndOf(s.groups[c.group])
    ensures CursorOk(s, Cursor(c.group + 1, c.batch, 0, false))
    ensures Passed(s, Cursor(c.group + 1, c.batch, 0, false)) == Passed(s, c)
  {
    hide Contents, Rejected, RowsOf, Members;
    GroupSpan(s, c.group);
  }

  /** Moving over some rows of one batch. */
  lemma SpanAdds(s: Setting, c: Cursor, count: nat, to: Cursor)
    requires SettingOk(s) && CursorOk(s, c) && c.ready && c.batch < EndOf(s.groups[c.group])
    requires 1 <= count <= s.batches[c.batch].nrows - c.row
    requires to == if c.row + count == s.batches[c.batch].nrows then Cursor(c.group, c.batch + 1, 0, true)
                   else Cursor(c.group, c.batch, c.row + count, true)
    ensures CursorOk(s, to)
    ensures Passed(s, to) == Passed(s, c) + RowsOf(s.batches[c.batch])[c.row..c.row + count]
  {
    hide Contents, Rejected, RowsOf, Offered;
    var rows := RowsOf(s.batches[c.batch]);
    var first := s.groups[c.group].firstBatch;
    assert rows[..c.row + count] == rows[..c.row] + rows[c.row..c.row + count];
    if c.row + count == s.batches[c.batch].nrows {
      MembersUnion(s, first, c.batch, c.batch + 1);
      OneMember(s, c.batch);
      assert rows[..c.row + count] == rows;
      if to.batch < EndOf(s.groups[c.group]) {
        assert RowsOf(s.batches[to.batch])[..0] == [];
      }
      assert Within(s, to) == Members(s, first, c.batch) + rows;
    }
    assert Within(s, to) == Within(s, c) + rows[c.row..c.row + count];
  }

  lemma OneMember(s: Setting, b: nat)
    requires SettingOk(s) && b < |s.batches|
    ensures Members(s, b, b + 1) == RowsOf(s.batches[b])
  {
    hide BatchOk, RowsOf, Described, Contiguous, ScalarsOf, QualsOk;
    assert s.batches[b..b + 1] == [s.batches[b]];
    ContentsSingle(s.batches[b]);
  }

  // ----- the selection of one span -----

  /** The selected rows, in order. */
  ghost function Chosen(rows: seq<Row>, selected: seq<bool>): seq<Row>
    requires |rows| == |selected|
  {
    if rows == [] then []
    else
      var n := |rows| - 1;
      Chosen(rows[..n], selected[..n]) + if selected[n] then [rows[n]] else []
  }

  lemma {:induction false} ChosenIsSelect(rows: seq<Row>, selected: seq<bool>, test: Row -> bool)
    requires |rows| == |selected| && forall i | 0 <= i < |rows| :: selected[i] == test(rows[i])
    ensures Chosen(rows, selected) == Select(rows, test)
  {
    if rows != [] {
      ChosenIsSelect(rows[..|rows| - 1], selected[..|rows| - 1], test);
    }
  }

  lemma {:induction false} ChosenAll(rows: seq<Row>, selected: seq<bool>)
    requires |rows| == |selected| && forall i | 0 <= i < |rows| :: selected[i]
    ensures Chosen(rows, selected) == rows
  {
    if rows != [] {
      ChosenAll(rows[..|rows| - 1], selected[..|rows| - 1]);
    }
  }

  lemma {:induction false} ChosenEmpty(rows: seq<Row>, selected: seq<bool>)
    requires |rows| == |selected|
    ensures Chosen(rows, selected) == [] <==> forall i | 0 <= i < |rows| :: !selected[i]
  {
    if rows != [] {
      var n := |rows| - 1;
      ChosenEmpty(rows[..n], selected[..n]);
      if Chosen(rows, selected) == [] {
        forall i | 0 <= i < |rows|
          ensures !selected[i]
        {
          if i < n {
            assert !selected[..n][i];
          }
        }
      }
    }
  }

  /** The first clauses are TRUE for a row of a batch. */
  ghost predicate PassesFirst(b: Batch, quals: seq<Qual>, r: nat, n: nat)
    requires BatchOk(b) && QualsOk(quals, |b.columns|) && r < b.nrows && n <= |quals|
  {
    forall q | 0 <= q < n :: Judge(quals[q].clause, Item(b.columns[quals[q].column], r)) == True
  }

  /** A clause fails for a row that all clauses before it are TRUE for. */
  ghost predicate Fails(b: Batch, quals: seq<Qual>, r: nat, q: nat)
    requires BatchOk(b) && QualsOk(quals, |b.columns|)
  {
    && r < b.nrows && q < |quals| && PassesFirst(b, quals, r, q)
    && Judge(quals[q].clause, Item(b.columns[quals[q].column], r)) == Error
  }

  /** One of the rows from `start` to `end` makes a clause fail that it comes to. */
  ghost predicate SpanFails(b: Batch, quals: seq<Qual>, start: nat, end: nat)
    requires BatchOk(b) && QualsOk(quals, |b.columns|)
  {
    exists r, q :: start <= r < end && Fails(b, quals, r, q)
  }

  /** None of the first clauses fails for a row of the span that comes to it. */
  ghost predicate CleanFirst(b: Batch, quals: seq<Qual>, start: nat, end: nat, n: nat)
    requires BatchOk(b) && QualsOk(quals, |b.columns|)
  {
    forall r, q | start <= r < end && 0 <= q < n :: !Fails(b, quals, r, q)
  }

  lemma NothingTried(b: Batch, quals: seq<Qual>, start: nat, end: nat)
    requires BatchOk(b) && QualsOk(quals, |b.columns|)
    ensures CleanFirst(b, quals, start, end, 0)
  {}

  lemma RowFails(b: Batch, quals: seq<Qual>, start: nat, end: nat, r: nat, q: nat)
    requires BatchOk(b) && QualsOk(quals, |b.columns|) && start <= r < end <= b.nrows && q < |quals|
    requires PassesFirst(b, quals, r, q) && Judge(quals[q].clause, Item(b.columns[quals[q].column], r)) == Error
    ensures SpanFails(b, quals, start, end)
  {
    hide Judge, AnalyzeFilter, Item, BatchOk, QualsOk, PassesFirst;
    assert Fails(b, quals, r, q);
  }

  lemma CleanStep(b: Batch, quals: seq<Qual>, start: nat, end: nat, n: nat)
    requires BatchOk(b) && QualsOk(quals, |b.columns|) && end <= b.nrows && n < |quals|
    requires CleanFirst(b, quals, start, end, n)
    requires forall r | start <= r < end && PassesFirst(b, quals, r, n) ::
               Judge(quals[n].clause, Item(b.columns[quals[n].column], r)) != Error
    ensures CleanFirst(b, quals, start, end, n + 1)
  {
    hide Judge, AnalyzeFilter, Item, BatchOk, QualsOk;
  }

  lemma CleanSpan(b: Batch, quals: seq<Qual>, start: nat, end: nat, n: nat)
    requires BatchOk(b) && QualsOk(quals, |b.columns|) && end <= b.nrows && n <= |quals|
    requires CleanFirst(b, quals, start, end, n)
    requires n < |quals| ==> forall r | start <= r < end :: !PassesFirst(b, quals, r, n)
    ensures !SpanFails(b, quals, start, end)
  {
    hide Judge, AnalyzeFilter, Item, BatchOk, QualsOk;
    forall r, q | start <= r < end
      ensures !Fails(b, quals, r, q)
    {
      assert n <= q && Fails(b, quals, r, q) ==> PassesFirst(b, quals, r, n);
    }
  }

  /** filter_batch: clause after clause while rows are left. */
  method FilterSpan(b: Batch, quals: seq<Qual>, start: nat, count: nat) returns (ok: bool, selected: seq<bool>)
    requires BatchOk(b) && QualsOk(quals, |b.columns|) && start + count <= b.nrows
    ensures ok ==> |selected| == count
    ensures ok ==> forall i | 0 <= i < count :: selected[i] <==> PassesFirst(b, quals, start + i, |quals|)
    ensures ok <==> !SpanFails(b, quals, start, start + count)
  {
    hide Judge, AnalyzeFilter, Item, CleanFirst, Fails;
    selected := seq(count, _ => true);
    NothingTried(b, quals, start, start + count);
    var q := 0;
    var any := count > 0;
    assert any ==> selected[0];
    while q < |quals| && any
      invariant q <= |quals| && |selected| == count
      invariant any <==> exists i | 0 <= i < count :: selected[i]
      invariant forall i | 0 <= i < count :: selected[i] <==> PassesFirst(b, quals, start + i, q)
      invariant CleanFirst(b, quals, start, start + count, q)
    {
      var vector := ColumnVector(b.columns[quals[q].column], b.nrows, start, count);
      var filter := new FilterEvaluator(quals[q].clause, vector, selected);
      ok := filter.ApplyFilter(true);
      if !ok {
        ghost var row :| 0 <= row < count && selected[row] && Judge(quals[q].clause, vector.At(row)) == Error;
        RowFails(b, quals, start, start + count, start + row, q);
        return;
      }
      forall r | start <= r < start + count && PassesFirst(b, quals, r, q)
        ensures Judge(quals[q].clause, Item(b.columns[quals[q].column], r)) != Error
      {
        assert selected[r - start] <==> PassesFirst(b, quals, start + (r - start), q);
        assert vector.At(r - start) == Item(b.columns[quals[q].column], start + (r - start));
      }
      CleanStep(b, quals, start, start + count, q);
      selected := filter.value.selected;
      any := AnyTrue(selected);
      q := q + 1;
    }
    forall i | 0 <= i < count
      ensures selected[i] <==> PassesFirst(b, quals, start + i, |quals|)
    {
      assert PassesFirst(b, quals, start + i, |quals|) ==> PassesFirst(b, quals, start + i, q);
    }
    forall r | start <= r < start + count
      ensures q < |quals| ==> !PassesFirst(b, quals, r, q)
    {
      assert selected[r - start] <==> PassesFirst(b, quals, start + (r - start), q);
    }
    CleanSpan(b, quals, start, start + count, q);
    ok := true;
  }

  // ----- the rows that make a filtering scan fail -----

  /** Some row of a group before a position fails. */
  ghost predicate GroupFails(s: Setting, g: nat, batch: nat, row: nat)
    requires SettingOk(s) && g < |s.groups|
  {
    exists b | s.groups[g].firstBatch <= b <= batch && b < |s.batches| ::
      SpanFails(s.batches[b], s.quals, 0, if b < batch then s.batches[b].nrows else row)
  }

  /** Some row before a position fails, in a group that is not skipped. */
  ghost predicate FailsBefore(s: Setting, c: Cursor)
    requires SettingOk(s) && CursorOk(s, c)
  {
    || (exists g | 0 <= g < c.group :: !Skipped(s, g) && GroupFails(s, g, EndOf(s.groups[g]), 0))
    || (c.ready && !Skipped(s, c.group) && GroupFails(s, c.group, c.batch, c.row))
  }

  /** Some row of some group that is not skipped fails. */
  ghost predicate SomeRowFails(s: Setting)
    requires SettingOk(s)
  {
    exists g | 0 <= g < |s.groups| :: !Skipped(s, g) && GroupFails(s, g, EndOf(s.groups[g]), 0)
  }

  /** The rows presented so far are all that are visible before some position, and one of the next
      rows of its batch, at most as many as asked for, fails. */
  ghost predicate Meets(s: Setting, presented: seq<Row>, maxRows: nat)
    requires SettingOk(s)
  {
    exists c: Cursor, end: nat :: FailureAt(s, presented, maxRows, c, end)
  }

  ghost predicate FailureAt(s: Setting, presented: seq<Row>, maxRows: nat, c: Cursor, end: nat)
    requires SettingOk(s)
  {
    && CursorOk(s, c) && c.ready && c.batch < EndOf(s.groups[c.group])
    && presented == Visible(Filter, s.quals, Passed(s, c))
    && c.row < end <= s.batches[c.batch].nrows && (maxRows > 0 ==> end - c.row <= maxRows)
    && SpanFails(s.batches[c.batch], s.quals, c.row, end)
  }

  lemma NothingFails(s: Setting, g: nat)
    requires SettingOk(s) && g < |s.groups|
    ensures !GroupFails(s, g, s.groups[g].firstBatch, 0)
  {}

  lemma EnterFails(s: Setting, c: Cursor, to: Cursor)
    requires SettingOk(s) && CursorOk(s, c) && !c.ready && c.group < |s.groups|
    requires to == Cursor(c.group, if Skipped(s, c.group) then EndOf(s.groups[c.group]) else c.batch, 0, true)
    requires CursorOk(s, to)
    ensures FailsBefore(s, to) <==> FailsBefore(s, c)
  {
    hide Skipped, GroupFails, SettingOk, Contiguous;
    GroupSpan(s, c.group);
    NothingFails(s, c.group);
  }

  lemma LeaveFails(s: Setting, c: Cursor)
    requires SettingOk(s) && CursorOk(s, c) && c.ready && c.batch == EndOf(s.groups[c.group])
    requires CursorOk(s, Cursor(c.group + 1, c.batch, 0, false))
    ensures FailsBefore(s, Cursor(c.group + 1, c.batch, 0, false)) <==> FailsBefore(s, c)
  {
    hide Skipped, GroupFails, SettingOk, Contiguous;
  }

  lemma FailureMet(s: Setting, presented: seq<Row>, maxRows: nat, c: Cursor, end: nat)
    requires SettingOk(s) && CursorOk(s, c) && c.ready && c.batch < EndOf(s.groups[c.group]) <= |s.batches|
    requires BatchOk(s.batches[c.batch]) && QualsOk(s.quals, |s.batches[c.batch].columns|)
    requires presented == Visible(Filter, s.quals, Passed(s, c))
    requires c.row < end <= s.batches[c.batch].nrows && (maxRows > 0 ==> end - c.row <= maxRows)
    requires SpanFails(s.batches[c.batch], s.quals, c.row, end)
    ensures Meets(s, presented, maxRows)
  {
    hide SettingOk, Visible, Passed, SpanFails, CursorOk;
    assert FailureAt(s, presented, maxRows, c, end);
  }

  lemma AnyGroupFails(s: Setting, c: Cursor, end: nat)
    requires SettingOk(s) && CursorOk(s, c) && c.ready && c.batch < EndOf(s.groups[c.group]) <= |s.batches|
    requires BatchOk(s.batches[c.batch]) && QualsOk(s.quals, |s.batches[c.batch].columns|)
    requires c.row <= end <= s.batches[c.batch].nrows && SpanFails(s.batches[c.batch], s.quals, c.row, end)
    ensures SomeRowFails(s)
  {
    hide Skipped, SettingOk, Contiguous, SpanFails;
    var b := s.batches[c.batch];
    SpanUnion(b, s.quals, 0, c.row, end);
    SpanUnion(b, s.quals, 0, end, b.nrows);
    assert GroupFails(s, c.group, EndOf(s.groups[c.group]), 0);
  }

  lemma SpanUnion(b: Batch, quals: seq<Qual>, start: nat, middle: nat, end: nat)
    requires BatchOk(b) && QualsOk(quals, |b.columns|) && start <= middle <= end
    ensures SpanFails(b, quals, start, end) <==> SpanFails(b, quals, start, middle) || SpanFails(b, quals, middle, end)
  {
    hide BatchOk, QualsOk, Fails;
  }

  lemma SpanAddsFailures(s: Setting, c: Cursor, count: nat, to: Cursor)
    requires SettingOk(s) && CursorOk(s, c) && c.ready && c.batch < EndOf(s.groups[c.group]) <= |s.batches|
    requires BatchOk(s.batches[c.batch]) && QualsOk(s.quals, |s.batches[c.batch].columns|)
    requires 1 <= count <= s.batches[c.batch].nrows - c.row
    requires to == if c.row + count == s.batches[c.batch].nrows then Cursor(c.group, c.batch + 1, 0, true)
                   else Cursor(c.group, c.batch, c.row + count, true)
    requires CursorOk(s, to)
    ensures FailsBefore(s, to) <==>
              FailsBefore(s, c) || SpanFails(s.batches[c.batch], s.quals, c.row, c.row + count)
  {
    hide Skipped, GroupFails, SettingOk, Contiguous, SpanFails;
    SpanUnion(s.batches[c.batch], s.quals, 0, c.row, c.row + count);
    GroupAddsFailures(s, c.group, c.batch, c.row, c.row + count);
  }

  lemma GroupAddsFailures(s: Setting, g: nat, batch: nat, row: nat, end: nat)
    requires SettingOk(s) && g < |s.groups| && s.groups[g].firstBatch <= batch < |s.batches|
    requires row <= end <= s.batches[batch].nrows
    requires BatchOk(s.batches[batch]) && QualsOk(s.quals, |s.batches[batch].columns|)
    ensures GroupFails(s, g, batch, end) <==>
              GroupFails(s, g, batch, row) || SpanFails(s.batches[batch], s.quals, row, end)
    ensures end == s.batches[batch].nrows ==> (GroupFails(s, g, batch + 1, 0) <==> GroupFails(s, g, batch, end))
  {
  }

  lemma PassesIsTest(b: Batch, quals: seq<Qual>, r: nat)
    requires BatchOk(b) && QualsOk(quals, |b.columns|) && r < b.nrows
    ensures PassesFirst(b, quals, r, |quals|) <==> Test(quals)(RowsOf(b)[r])
  {
    hide Judge, AnalyzeFilter, Item;
    assert RowsOf(b)[r] == RowOf(b, r);
    forall q | 0 <= q < |quals|
      ensures RowOf(b, r)[quals[q].column] == Item(b.columns[quals[q].column], r)
    {}
  }

  lemma GroupShape(s: Setting, g: nat)
    requires SettingOk(s) && g < |s.groups|
    ensures |s.groups[g].columns| == s.ncolumns && EndOf(s.groups[g]) <= |s.batches| && |s.scalars| == |s.quals|
    ensures QualsOk(s.quals, s.ncolumns)
  {}

  lemma NotReady(s: Setting, c: Cursor)
    requires SettingOk(s) && CursorOk(s, c) && !c.ready && c.group < |s.groups|
    ensures c.row == 0 && c.batch <= EndOf(s.groups[c.group])
    ensures |s.groups[c.group].columns| == s.ncolumns && |s.scalars| == |s.quals|
    ensures forall q | 0 <= q < |s.quals| :: QualOk(s.quals[q]) && s.quals[q].column < s.ncolumns
  {
    GroupShape(s, c.group);
  }

  lemma AtBatch(s: Setting, c: Cursor)
    requires SettingOk(s) && CursorOk(s, c) && c.ready && c.batch < EndOf(s.groups[c.group])
    ensures c.batch < |s.batches| && BatchOk(s.batches[c.batch]) && c.row < s.batches[c.batch].nrows <= ROWS
    ensures |s.batches[c.batch].columns| == s.ncolumns && QualsOk(s.quals, s.ncolumns)
    ensures EndOf(s.groups[c.group]) <= |s.batches|
  {
    hide Described, ScalarsOf, QualsOk;
  }

  /** Publishing a span's selection keeps what was presented in step with the position. */
  lemma SpanPublished(s: Setting, c: Cursor, to: Cursor, mode: Mode, selected: seq<bool>)
    requires SettingOk(s) && CursorOk(s, c) && c.ready && c.batch < EndOf(s.groups[c.group])
    requires c.batch < |s.batches| && 1 <= |selected| <= s.batches[c.batch].nrows - c.row
    requires BatchOk(s.batches[c.batch]) && QualsOk(s.quals, |s.batches[c.batch].columns|)
    requires forall i | 0 <= i < |selected| :: selected[i] <==> (mode != Filter || PassesFirst(s.batches[c.batch], s.quals, c.row + i, |s.quals|))
    requires to == if c.row + |selected| == s.batches[c.batch].nrows then Cursor(c.group, c.batch + 1, 0, true)
                   else Cursor(c.group, c.batch, c.row + |selected|, true)
    ensures CursorOk(s, to)
    ensures Visible(mode, s.quals, Passed(s, to)) == Visible(mode, s.quals, Passed(s, c)) +
              Chosen(RowsOf(s.batches[c.batch])[c.row..c.row + |selected|], selected)
  {
    hide SettingOk, CursorOk, BatchOk, QualsOk, PassesFirst, Visible, Passed, Chosen, RowsOf;
    SpanAdds(s, c, |selected|, to);
    ChosenVisible(mode, s.quals, s.batches[c.batch], c.row, selected);
    VisibleUnion(mode, s.quals, Passed(s, c), RowsOf(s.batches[c.batch])[c.row..c.row + |selected|]);
  }

  /** The selection of a span shows what is visible of its rows. */
  lemma ChosenVisible(mode: Mode, quals: seq<Qual>, b: Batch, start: nat, selected: seq<bool>)
    requires BatchOk(b) && QualsOk(quals, |b.columns|) && start + |selected| <= b.nrows
    requires forall i | 0 <= i < |selected| :: selected[i] <==> (mode != Filter || PassesFirst(b, quals, start + i, |quals|))
    ensures Chosen(RowsOf(b)[start..start + |selected|], selected) == Visible(mode, quals, RowsOf(b)[start..start + |selected|])
  {
    hide PassesFirst, Test, RowsOf, Chosen, Select;
    var rows := RowsOf(b)[start..start + |selected|];
    if mode == Filter {
      forall i | 0 <= i < |rows|
        ensures selected[i] == Test(quals)(rows[i])
      {
        PassesIsTest(b, quals, start + i);
      }
      ChosenIsSelect(rows, selected, Test(quals));
    } else {
      ChosenAll(rows, selected);
    }
  }

  lemma SelectAgain(rows: seq<Row>, test: Row -> bool)
    ensures Select(Select(rows, test), test) == Select(rows, test)
  {
    SelectTwice(rows, test, test, test);
  }

  lemma BatchInRange(s: Setting, c: Cursor)
    requires SettingOk(s) && CursorOk(s, c) && c.ready && c.batch < EndOf(s.groups[c.group])
    ensures c.batch < |s.batches| && c.row < ROWS
  {
    AtBatch(s, c);
  }

  lemma AtEnd(s: Setting, c: Cursor)
    requires SettingOk(s) && CursorOk(s, c)
    ensures c.group <= |s.groups| && c.batch <= |s.batches| && c.row <= ROWS
  {
    if c.ready {
      GroupShape(s, c.group);
    }
  }

  lemma VisibleUnion(mode: Mode, quals: seq<Qual>, a: seq<Row>, b: seq<Row>)
    ensures Visible(mode, quals, a + b) == Visible(mode, quals, a) + Visible(mode, quals, b)
  {
    SelectUnion(a, b, Test(quals));
  }

  // ----- the scan -----

  /** An active batch: some rows of a stored batch with their selection. */
  datatype Active = Active(batch: nat, start: nat, selected: seq<bool>)

  datatype Outcome = Done | Published(batch: Active) | Failed

  class Scan {
    const relation: Relation
    const quals: seq<Qual>
    const mode: Mode
    var scalars: seq<Option<int>>
    var pruneReady: bool
    var groupIndex: nat
    var batchIndex: nat
    var batchRow: nat
    var groupReady: bool
    var active: Option<Active>
    /** All rows published so far. */
    ghost var presented: seq<Row>

    ghost function Here(): Cursor
      reads this
    {
      Cursor(groupIndex, batchIndex, batchRow, groupReady)
    }

    ghost function Work(): Setting
      reads this, relation
    {
      Setting(relation.batches, relation.groups, relation.ncolumns, quals, scalars, mode != Batches)
    }

    ghost predicate Steady()
      reads this, relation
    {
      relation.Valid() && QualsOk(quals, relation.ncolumns)
    }

    /** Some row makes a clause fail that it comes to, in a group not skipped. */
    ghost predicate RowFails()
      requires Steady() && !ScalarFails(quals)
      reads this, relation
    {
      var s := Setting(relation.batches, relation.groups, relation.ncolumns, quals, ScalarsFor(quals), mode != Batches);
      SettingOk(s) && SomeRowFails(s)
    }

    /** Before the first call nothing is known; after it, everything up to the position has been
        published, except skipped groups and rows that do not pass, and no row before it fails. */
    ghost predicate Valid()
      reads this, relation
    {
      && Steady()
      && (!pruneReady ==> Here() == Cursor(0, 0, 0, false) && presented == [])
      && (pruneReady ==>
            && !ScalarFails(quals) && scalars == ScalarsFor(quals) && SettingOk(Work()) && CursorOk(Work(), Here())
            && presented == Visible(mode, quals, Passed(Work(), Here()))
            && (mode == Filter ==> !FailsBefore(Work(), Here())))
    }

    constructor (relation: Relation, quals: seq<Qual>, mode: Mode)
      requires relation.Valid() && QualsOk(quals, relation.ncolumns)
      ensures Valid() && active == None && presented == []
      ensures this.relation == relation && this.quals == quals && this.mode == mode
    {
      this.relation, this.quals, this.mode := relation, quals, mode;
      scalars, pruneReady, active, presented := [], false, None, [];
      groupIndex, batchIndex, batchRow, groupReady := 0, 0, 0, false;
    }

    /** rescan */
    method Rescan()
      requires Valid()
      modifies this
      ensures Valid() && active == old(active) && presented == []
    {
      hide SettingOk, CursorOk, QualsOk, Visible, Passed, GroupsOk, BatchesOk;
      groupIndex, batchIndex, batchRow, groupReady, pruneReady := 0, 0, 0, false, false;
      presented := [];
    }

    /** The next rows, at most as many as asked for, hold one that fails. */
    ghost predicate MeetsFailure(maxRows: nat)
      requires Steady()
      reads this, relation
    {
      && mode == Filter && !ScalarFails(quals) && scalars == ScalarsFor(quals)
      && SettingOk(Work()) && Meets(Work(), presented, maxRows)
    }

    /** prepare_prune_quals */
    method PrepareScalars() returns (ok: bool)
      requires Valid() && !pruneReady
      modifies `scalars, `pruneReady
      ensures ok ==> Valid() && pruneReady
      ensures ok <==> !ScalarFails(quals)
    {
      hide Eval, AnalyzeFilter, Contents;
      var values := [];
      for q := 0 to |quals|
        invariant |values| == q
        invariant forall k | 0 <= k < q && quals[k].prunable :: Eval(ScalarSide(quals[k].clause), None) == Value.Ok(values[k])
        invariant forall k | 0 <= k < q && !quals[k].prunable :: values[k] == None
      {
        var value := None;
        if quals[q].prunable {
          var scalar := Eval(ScalarSide(quals[q].clause), None);
          if scalar.Failed? {
            return false;
          }
          value := scalar.value;
        }
        values := values + [value];
      }
      scalars := values;
      pruneReady := true;
      ok := true;
    }

    /** The rows an active batch shows. */
    ghost function Rows(a: Active): seq<Row>
      requires Steady() && a.batch < |relation.batches| && a.start + |a.selected| <= relation.batches[a.batch].nrows
      reads this, relation
    {
      Chosen(RowsOf(relation.batches[a.batch])[a.start..a.start + |a.selected|], a.selected)
    }

    ghost predicate ActiveOk(a: Active)
      requires Steady()
      reads this, relation
    {
      a.batch < |relation.batches| && 1 <= |a.selected| && a.start + |a.selected| <= relation.batches[a.batch].nrows
    }

    /** A span is as long as asked for, or goes to the end of its stored batch. */
    ghost predicate FullSpan(a: Active, maxRows: nat)
      requires a.batch < |relation.batches|
      reads relation
    {
      || |a.selected| == (if 0 < maxRows < 64 then maxRows else 64)
      || a.start + |a.selected| == relation.batches[a.batch].nrows
    }

    /** Deciding once per group whether any of its batches need to be touched. */
    method EnterGroup()
      requires Valid() && pruneReady && !groupReady && groupIndex < |relation.groups|
      modifies `groupReady, `batchIndex, `batchRow
      ensures Valid() && groupReady && batchIndex >= old(batchIndex) && batchRow == old(batchRow)
    {
      hide Contents, Offered, Rejects, Described, Contiguous, ScalarsOf, CursorOk, Visible, Passed, SettingOk;
      hide QualsOk, GroupsOk, BatchesOk;
      ghost var before := Here();
      NotReady(Work(), before);
      var result := Matches;
      if mode != Batches {
        result := GroupMayMatch(relation.groups[groupIndex].columns, quals, scalars);
      }
      groupReady := true;
      if result != Matches {
        batchIndex := EndOf(relation.groups[groupIndex]);
        batchRow := 0;
      }
      EnterKeeps(Work(), before, Here());
      EnterFails(Work(), before, Here());
    }

    method LeaveGroup()
      requires Valid() && pruneReady && groupReady && groupIndex < |relation.groups|
      requires batchIndex >= EndOf(relation.groups[groupIndex])
      modifies `groupIndex, `groupReady
      ensures Valid() && groupIndex == old(groupIndex) + 1
    {
      hide Contents, Offered, Rejects, Described, Contiguous, ScalarsOf, Visible;
      LeaveKeeps(Work(), Here());
      LeaveFails(Work(), Here());
      groupIndex := groupIndex + 1;
      groupReady := false;
    }

    lemma InRange()
      requires Valid()
      ensures groupIndex <= |relation.groups| && batchIndex <= |relation.batches| && batchRow <= ROWS
    {
      if pruneReady {
        AtEnd(Work(), Here());
      }
    }

    lemma RowsEmpty(a: Active)
      requires Steady() && ActiveOk(a)
      ensures Rows(a) == [] <==> !exists i :: 0 <= i < |a.selected| && a.selected[i]
    {
      ChosenEmpty(RowsOf(relation.batches[a.batch])[a.start..a.start + |a.selected|], a.selected);
    }

    /** A failure met on the way is a failure of the whole scan. */
    lemma MetFails(maxRows: nat)
      requires Steady() && MeetsFailure(maxRows)
      ensures !ScalarFails(quals) && mode == Filter && RowFails()
    {
      hide SettingOk, Contiguous, QualsOk, Visible, Passed, ScalarFails, Fails, Skipped;
      var c: Cursor, end: nat :| FailureAt(Work(), presented, maxRows, c, end);
      AtBatch(Work(), c);
      AnyGroupFails(Work(), c, end);
    }

    /** When the scan is done, filtering has shown exactly the stored rows that pass, in storage
        order; pruning alone all rows of the groups it kept, among them every row that passes;
        and without either every row. */
    lemma Complete()
      requires Valid() && pruneReady && groupIndex == |relation.groups|
      ensures mode == Filter ==> presented == Select(Contents(relation.batches), Test(quals))
      ensures mode == Prune ==> presented == Offered(Work(), |relation.groups|)
      ensures mode == Batches ==> presented == Contents(relation.batches)
      ensures Select(presented, Test(quals)) == Select(Contents(relation.batches), Test(quals))
      ensures !ScalarFails(quals) && (mode == Filter ==> !RowFails())
    {
      hide Contents, Offered, Rejects, Described, Contiguous, ScalarsOf, Select, Test, BatchOk;
      var s := Work();
      SkippingLosesNothing(s, |s.groups|);
      assert s.batches[0..|s.batches|] == s.batches;
      assert Passed(s, Here()) == Offered(s, |s.groups|);
      if mode == Filter {
        SelectAgain(Contents(relation.batches), Test(quals));
      }
    }

    /** The next rows of the current batch, at most as many as asked for, with their selection. */
    method TakeSpan(maxRows: nat) returns (ok: bool)
      requires Valid() && pruneReady && groupReady && groupIndex < |relation.groups|
      requires batchIndex < EndOf(relation.groups[groupIndex])
      modifies `batchIndex, `batchRow, `active, `presented
      ensures ok ==> Valid()
      ensures ok ==> if batchIndex == old(batchIndex) then old(batchRow) < batchRow < ROWS else batchIndex == old(batchIndex) + 1
      ensures ok ==> active != None && ActiveOk(active.value) && presented == old(presented) + Rows(active.value)
      ensures ok ==> |active.value.selected| <= 64 && (maxRows > 0 ==> |active.value.selected| <= maxRows)
      ensures ok ==> FullSpan(active.value, maxRows)
      ensures !ok ==> MeetsFailure(maxRows)
    {
      hide SettingOk, CursorOk, BatchOk, QualsOk, PassesFirst, Visible, Passed, Chosen, RowsOf, GroupsOk, BatchesOk;
      hide Meets, FailsBefore, SpanFails, ScalarFails, ScalarsOf, Rejects, ScalarsFor;
      ghost var work, before := Work(), Here();
      AtBatch(work, before);
      var stored := relation.batches[batchIndex];
      var start := batchRow;
      var limit := if 0 < maxRows < ROWS then maxRows else ROWS;
      var nrows := if limit < stored.nrows - start then limit else stored.nrows - start;
      var selected := seq(nrows, _ => true);
      var batch := batchIndex;
      batchRow := batchRow + nrows;
      if batchRow == stored.nrows {
        batchIndex := batchIndex + 1;
        batchRow := 0;
      }
      ok := true;
      if mode == Filter {
        ok, selected := FilterSpan(stored, quals, start, nrows);
        if !ok {
          FailureMet(work, presented, maxRows, before, before.row + nrows);
          return;
        }
      }
      active := Some(Active(batch, start, selected));
      SpanPublished(work, before, Here(), mode, selected);
      SpanAddsFailures(work, before, nrows, Here());
      presented := presented + Rows(active.value);
    }

    /** One turn of the loop: judge the group if it is new, then take rows of it or leave it. */
    method Turn(maxRows: nat) returns (outcome: Option<Outcome>)
      requires Valid() && pruneReady && active == None && groupIndex < |relation.groups|
      modifies this`groupIndex, this`batchIndex, this`batchRow, this`groupReady, this`active, this`presented
      ensures outcome != Some(Outcome.Failed) ==> Valid() && Ahead(old(Here()), Here())
      ensures outcome != Some(Outcome.Failed) ==>
                groupIndex <= |relation.groups| && batchIndex <= |relation.batches| && batchRow <= ROWS
      ensures match outcome
              case None => active == None && presented == old(presented)
              case Some(Published(a)) =>
                && active == Some(a) && ActiveOk(a) && presented == old(presented) + Rows(a) && Rows(a) != []
                && |a.selected| <= 64 && (maxRows > 0 ==> |a.selected| <= maxRows) && FullSpan(a, maxRows)
              case Some(Done) => false
              case Some(Failed) => MeetsFailure(maxRows)
    {
      hide SettingOk, CursorOk, BatchOk, QualsOk, Visible, Passed, Chosen, RowsOf, Rows, GroupsOk, BatchesOk;
      hide MeetsFailure, FailsBefore, Contents, EndOfFirst;
      if !groupReady {
        EnterGroup();
      }
      if batchIndex < EndOf(relation.groups[groupIndex]) {
        BatchInRange(Work(), Here());
        var ok := TakeSpan(maxRows);
        if !ok {
          return Some(Outcome.Failed);
        }
        AtEnd(Work(), Here());
        var any := AnyTrue(active.value.selected);
        RowsEmpty(active.value);
        if !any {
          active := None;
          return None;
        }
        return Some(Published(active.value));
      }
      LeaveGroup();
      AtEnd(Work(), Here());
      outcome := None;
    }

    /** pg_batch_compressed_scan_next: the next batch with a selected row, or the end. */
    method Next(maxRows: nat) returns (outcome: Outcome)
      requires Valid() && active == None
      modifies this
      ensures !outcome.Failed? ==> Valid() && pruneReady
      ensures !outcome.Failed? ==> !ScalarFails(quals) && (mode == Filter ==> !FailsBefore(Work(), Here()))
      ensures match outcome
              case Published(a) =>
                && active == Some(a) && ActiveOk(a) && presented == old(presented) + Rows(a) && Rows(a) != []
                && |a.selected| <= 64 && (maxRows > 0 ==> |a.selected| <= maxRows) && FullSpan(a, maxRows)
              case Done => active == None && presented == old(presented) && groupIndex == |relation.groups|
              case Failed => if old(pruneReady) then MeetsFailure(maxRows) else ScalarFails(quals) || MeetsFailure(maxRows)
      ensures outcome.Published? ==> Ahead(old(Here()), Here())
      ensures !outcome.Failed? ==>
                groupIndex <= |relation.groups| && batchIndex <= |relation.batches| && batchRow <= ROWS
    {
      hide SettingOk, CursorOk, BatchOk, QualsOk, Visible, Passed, Chosen, RowsOf, Rows, GroupsOk, BatchesOk;
      hide MeetsFailure, FailsBefore, Contents, EndOfFirst;
      if !pruneReady {
        var ok := PrepareScalars();
        if !ok {
          return Outcome.Failed;
        }
      }
      InRange();
      while groupIndex < |relation.groups|
        invariant Valid() && pruneReady && active == None && presented == old(presented)
        invariant Here() == old(Here()) || Ahead(old(Here()), Here())
        invariant groupIndex <= |relation.groups| && batchIndex <= |relation.batches| && batchRow <= ROWS
        decreases |relation.groups| - groupIndex, |relation.batches| - batchIndex, ROWS - batchRow
      {
        var taken := Turn(maxRows);
        if taken != None {
          return taken.value;
        }
      }
      outcome := Done;
    }

    /** The consumer hands the active batch back. */
    method Release()
      requires Valid()
      modifies `active
      ensures Valid() && active == None
    {
      hide SettingOk, CursorOk, QualsOk, Visible, Passed, GroupsOk, BatchesOk;
      active := None;
    }
  }

  /** The scalar side of a prunable clause fails. */
  ghost predicate ScalarFails(quals: seq<Qual>) {
    exists q | 0 <= q < |quals| ::
      quals[q].prunable && QualOk(quals[q]) && Eval(ScalarSide(quals[q].clause), None).Failed?
  }

  /** The scalars of the prunable clauses; there is none for another clause. */
  ghost function ScalarsFor(quals: seq<Qual>): (scalars: seq<Option<int>>)
    requires !ScalarFails(quals) && forall q | 0 <= q < |quals| :: QualOk(quals[q])
    ensures ScalarsOf(quals, scalars)
  {
    seq(|quals|, q requires 0 <= q < |quals| =>
      if quals[q].prunable then assert QualOk(quals[q]); Eval(ScalarSide(quals[q].clause), None).value else None)
  }

  /** What the consumer sees of some rows: with filtering, only those that pass. */
  ghost function Visible(mode: Mode, quals: seq<Qual>, rows: seq<Row>): seq<Row> {
    if mode == Filter then Select(rows, Test(quals)) else rows
  }

  /** A whole scan with any row limit per call: the batches it gets, put together. */
  method ReadAll(scan: Scan, limit: nat -> nat) returns (ok: bool, ghost rows: seq<Row>)
    requires scan.Valid() && scan.active == None && scan.presented == []
    modifies scan
    ensures ok ==> scan.Valid() && rows == scan.presented
    ensures ok ==> Select(rows, Test(scan.quals)) == Select(Contents(scan.relation.batches), Test(scan.quals))
    ensures ok && scan.mode == Filter ==> rows == Select(Contents(scan.relation.batches), Test(scan.quals))
    ensures ok && scan.mode == Batches ==> rows == Contents(scan.relation.batches)
    ensures scan.Steady() && (ok <==> !ScalarFails(scan.quals) && !(scan.mode == Filter && scan.RowFails()))
  {
    hide CursorOk, SettingOk, Passed, Visible, Contents, Select, Test;
    rows := [];
    scan.InRange();
    var calls := 0;
    while true
      invariant scan.Valid() && scan.active == None && rows == scan.presented
      invariant scan.groupIndex <= |scan.relation.groups| && scan.batchIndex <= |scan.relation.batches| && scan.batchRow <= ROWS
      decreases |scan.relation.groups| - scan.groupIndex, |scan.relation.batches| - scan.batchIndex, ROWS - scan.batchRow
    {
      var outcome := scan.Next(limit(calls));
      match outcome {
        case Failed =>
          if !ScalarFails(scan.quals) {
            scan.MetFails(limit(calls));
          }
          return false, rows;
        case Done => scan.Complete(); return true, rows;
        case Published(a) =>
          rows := rows + scan.Rows(a);
          scan.Release();
      }
      calls := calls + 1;
    }
  }
}
