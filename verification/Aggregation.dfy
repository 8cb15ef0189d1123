/** The grouped aggregate's accumulators (nodes/aggregate.c, advance_group_entry). */
module Aggregation {
  import opened Vectors
  import opened Hashing
  import opened Selecting

  const INT64_MIN: int := -0x8000_0000_0000_0000
  const INT64_MAX: int := 0x7fff_ffff_ffff_ffff

  /** A group key; NULL is a group of its own. */
  type GroupKey = Option<Cell>

  /** An input row: its group key and one nullable int4 per aggregate input. */
  datatype InputRow = InputRow(key: GroupKey, values: seq<Option<int>>)

  datatype Flags = Flags(count: bool, sum: bool, min: bool, max: bool)
  datatype Spec = Spec(countStar: bool, inputs: seq<Flags>)
  datatype Reduction = Reduction(count: int, sum: int, min: int, max: int, hasValue: bool)
  datatype Entry = Entry(countStar: int, values: seq<Reduction>)

  ghost predicate RowOk(spec: Spec, row: InputRow) {
    |row.values| == |spec.inputs|
  }

  ghost predicate RowsOk(spec: Spec, rows: seq<InputRow>) {
    forall i | 0 <= i < |rows| :: RowOk(spec, rows[i])
  }

  /** add_int64_checked; None is the "bigint out of range" error. */
  function AddChecked(a: int, b: int): Option<int> {
    if INT64_MIN <= a + b <= INT64_MAX then Some(a + b) else None
  }

  function ZeroReduction(): Reduction {
    Reduction(0, 0, 0, 0, false)
  }

  function ZeroEntry(spec: Spec): (e: Entry)
    ensures |e.values| == |spec.inputs|
  {
    Entry(0, seq(|spec.inputs|, _ => ZeroReduction()))
  }

  /** One input column of advance_group_entry. */
  function AdvanceValue(f: Flags, v: Reduction, x: Option<int>): Option<Reduction> {
    if (!f.count && !f.sum && !f.min && !f.max) || x == None then Some(v)
    else
      var count := if f.count then AddChecked(v.count, 1) else Some(v.count);
      var sum := if f.sum then AddChecked(v.sum, x.value) else Some(v.sum);
      if count == None || sum == None then None
      else
        var min := if !v.hasValue || (f.min && x.value < v.min) then x.value else v.min;
        var max := if !v.hasValue || (f.max && x.value > v.max) then x.value else v.max;
        Some(Reduction(count.value, sum.value, min, max, true))
  }

  function AdvanceValues(flags: seq<Flags>, values: seq<Reduction>, row: seq<Option<int>>): (r: Option<seq<Reduction>>)
    requires |flags| == |values| == |row|
    ensures r != None ==> |r.value| == |flags|
    ensures r != None ==> forall i | 0 <= i < |flags| :: AdvanceValue(flags[i], values[i], row[i]) == Some(r.value[i])
    ensures r == None ==> exists i :: 0 <= i < |flags| && AdvanceValue(flags[i], values[i], row[i]) == None
  {
    if flags == [] then Some([])
    else
      var n := |flags| - 1;
      var rest := AdvanceValues(flags[..n], values[..n], row[..n]);
      if rest == None then None
      else
        var last := AdvanceValue(flags[n], values[n], row[n]);
        if last == None then None else Some(rest.value + [last.value])
  }

  function AdvanceEntry(spec: Spec, e: Entry, row: InputRow): (r: Option<Entry>)
    requires |e.values| == |spec.inputs| == |row.values|
    ensures r != None ==> |r.value.values| == |spec.inputs|
  {
    var countStar := if spec.countStar then AddChecked(e.countStar, 1) else Some(e.countStar);
    if countStar == None then None
    else
      var values := AdvanceValues(spec.inputs, e.values, row.values);
      if values == None then None else Some(Entry(countStar.value, values.value))
  }

  /** The in-order fold of rows; None once any accumulator leaves int64. */
  function Fold(spec: Spec, rows: seq<InputRow>): (r: Option<Entry>)
    requires forall i | 0 <= i < |rows| :: |rows[i].values| == |spec.inputs|
    ensures r != None ==> |r.value.values| == |spec.inputs|
  {
    if rows == [] then Some(ZeroEntry(spec))
    else
      var before := Fold(spec, rows[..|rows| - 1]);
      if before == None then None else AdvanceEntry(spec, before.value, rows[|rows| - 1])
  }

  // ----- what the fold means -----

  /** The non-NULL values of one input, in order. */
  function Present(rows: seq<InputRow>, i: nat): seq<int>
    requires forall k | 0 <= k < |rows| :: i < |rows[k].values|
  {
    if rows == [] then []
    else
      var n := |rows| - 1;
      match rows[n].values[i]
      case Some(x) => Present(rows[..n], i) + [x]
      case None => Present(rows[..n], i)
  }

  function Total(xs: seq<int>): int {
    if xs == [] then 0 else Total(xs[..|xs| - 1]) + xs[|xs| - 1]
  }

  ghost predicate Accumulates(f: Flags, v: Reduction, xs: seq<int>) {
    && (f.count ==> v.count == |xs|)
    && (f.sum ==> v.sum == Total(xs))
    && (f.count || f.sum || f.min || f.max ==> (v.hasValue <==> xs != []))
    && (f.min && xs != [] ==> v.min in xs && forall k | 0 <= k < |xs| :: v.min <= xs[k])
    && (f.max && xs != [] ==> v.max in xs && forall k | 0 <= k < |xs| :: v.max >= xs[k])
  }

  lemma AdvanceAccumulates(f: Flags, v: Reduction, xs: seq<int>, x: Option<int>)
    requires Accumulates(f, v, xs) && AdvanceValue(f, v, x) != None
    ensures Accumulates(f, AdvanceValue(f, v, x).value, if x == None then xs else xs + [x.value])
  {
    if x != None {
      var after := xs + [x.value];
      assert after[..|xs|] == xs;
      assert forall k | 0 <= k < |xs| :: after[k] == xs[k];
      assert after[|xs|] == x.value;
      if f.min && xs != [] {
        assert v.min in after;
      }
      if f.max && xs != [] {
        assert v.max in after;
      }
    }
  }

  /** A fold that does not overflow counts the rows, and counts, sums and finds the
      extremes of the non-NULL values of every input. */
  lemma {:induction false} FoldMeans(spec: Spec, rows: seq<InputRow>, i: nat)
    requires RowsOk(spec, rows) && Fold(spec, rows) != None && i < |spec.inputs|
    ensures spec.countStar ==> Fold(spec, rows).value.countStar == |rows|
    ensures Accumulates(spec.inputs[i], Fold(spec, rows).value.values[i], Present(rows, i))
  {
    if rows != [] {
      var n := |rows| - 1;
      FoldMeans(spec, rows[..n], i);
      AdvanceAccumulates(spec.inputs[i], Fold(spec, rows[..n]).value.values[i], Present(rows[..n], i), rows[n].values[i]);
    }
  }

  // ----- when a fold overflows -----

  predicate OutsideInt64(x: int) {
    x < -0x8000_0000_0000_0000 || x > 0x7fff_ffff_ffff_ffff
  }

  /** A count or sum kept for one input that does not fit in 64 bits. */
  predicate InputOutside(f: Flags, xs: seq<int>) {
    (f.count && OutsideInt64(|xs|)) || (f.sum && OutsideInt64(Total(xs)))
  }

  /** Some accumulator of these rows does not fit in 64 bits. */
  predicate TooLarge(spec: Spec, rows: seq<InputRow>)
    requires forall i | 0 <= i < |rows| :: |rows[i].values| == |spec.inputs|
  {
    || (spec.countStar && OutsideInt64(|rows|))
    || exists i | 0 <= i < |spec.inputs| :: InputOutside(spec.inputs[i], Present(rows, i))
  }

  /** Some accumulator does not fit after some of the rows, taken in order. */
  predicate Overflows(spec: Spec, rows: seq<InputRow>)
    requires forall i | 0 <= i < |rows| :: |rows[i].values| == |spec.inputs|
  {
    exists n | 0 <= n <= |rows| :: TooLarge(spec, rows[..n])
  }

  /** One more row fails exactly if an accumulator leaves the range with it. */
  lemma AdvanceFailsIff(spec: Spec, rows: seq<InputRow>)
    requires rows != [] && RowsOk(spec, rows) && Fold(spec, rows[..|rows| - 1]) != None
    requires !TooLarge(spec, rows[..|rows| - 1])
    ensures Fold(spec, rows) == None <==> TooLarge(spec, rows)
  {
    var n := |rows| - 1;
    var before := Fold(spec, rows[..n]).value;
    forall i | 0 <= i < |spec.inputs|
      ensures AdvanceValue(spec.inputs[i], before.values[i], rows[n].values[i]) == None
              <==> InputOutside(spec.inputs[i], Present(rows, i))
    {
      FoldMeans(spec, rows[..n], i);
      ValueFailsIff(spec.inputs[i], before.values[i], Present(rows[..n], i), rows[n].values[i]);
    }
    if spec.countStar {
      CountStarIs(spec, rows[..n]);
    }
  }

  lemma {:induction false} CountStarIs(spec: Spec, rows: seq<InputRow>)
    requires RowsOk(spec, rows) && Fold(spec, rows) != None && spec.countStar
    ensures Fold(spec, rows).value.countStar == |rows|
  {
    if rows != [] {
      CountStarIs(spec, rows[..|rows| - 1]);
    }
  }

  lemma ValueFailsIff(f: Flags, v: Reduction, xs: seq<int>, x: Option<int>)
    requires Accumulates(f, v, xs) && !InputOutside(f, xs)
    ensures AdvanceValue(f, v, x) == None <==> InputOutside(f, if x == None then xs else xs + [x.value])
  {
    if x != None {
      assert (xs + [x.value])[..|xs|] == xs;
    }
  }

  /** A fold is refused if and only if some count of rows, count of values or sum of values
      leaves the 64-bit range on the way. */
  lemma {:induction false} FoldFailsIff(spec: Spec, rows: seq<InputRow>)
    requires RowsOk(spec, rows)
    ensures Fold(spec, rows) == None <==> Overflows(spec, rows)
  {
    assert rows[..|rows|] == rows;
    if rows == [] {
      assert forall i | 0 <= i < |spec.inputs| :: !InputOutside(spec.inputs[i], Present([], i));
    } else {
      hide TooLarge, AdvanceEntry;
      var n := |rows| - 1;
      FoldFailsIff(spec, rows[..n]);
      PrefixOverflows(spec, rows, n);
      if Fold(spec, rows[..n]) != None {
        assert rows[..n][..n] == rows[..n];
        AdvanceFailsIff(spec, rows);
      }
    }
  }

  lemma PrefixOverflows(spec: Spec, rows: seq<InputRow>, n: nat)
    requires RowsOk(spec, rows) && n + 1 == |rows|
    ensures Overflows(spec, rows) <==> Overflows(spec, rows[..n]) || TooLarge(spec, rows)
  {
    hide TooLarge;
    assert forall k | 0 <= k <= n :: rows[..n][..k] == rows[..k];
    assert rows[..|rows|] == rows;
    if Overflows(spec, rows[..n]) {
      var k :| 0 <= k <= n && TooLarge(spec, rows[..n][..k]);
      assert TooLarge(spec, rows[..k]);
    }
    if Overflows(spec, rows) {
      var k :| 0 <= k <= |rows| && TooLarge(spec, rows[..k]);
      assert k <= n ==> TooLarge(spec, rows[..n][..k]);
    }
  }

  // ----- folds of a key -----

  function Is(key: GroupKey): InputRow -> bool {
    (r: InputRow) => r.key == key
  }

  lemma SelectRowsOk(spec: Spec, rows: seq<InputRow>, f: InputRow -> bool)
    requires RowsOk(spec, rows)
    ensures RowsOk(spec, Select(rows, f))
  {
    SelectMembers(rows, f);
  }

  /** The fold of all rows with one key. */
  ghost function FoldKey(spec: Spec, rows: seq<InputRow>, key: GroupKey): Option<Entry>
    requires RowsOk(spec, rows)
  {
    SelectRowsOk(spec, rows, Is(key));
    Fold(spec, Select(rows, Is(key)))
  }

  /** The rows of a key overflow on the way. */
  ghost predicate KeyOverflows(spec: Spec, rows: seq<InputRow>, key: GroupKey)
    requires RowsOk(spec, rows)
  {
    SelectRowsOk(spec, rows, Is(key));
    Overflows(spec, Select(rows, Is(key)))
  }

  lemma KeyFailsIff(spec: Spec, rows: seq<InputRow>, key: GroupKey)
    requires RowsOk(spec, rows)
    ensures FoldKey(spec, rows, key) == None <==> KeyOverflows(spec, rows, key)
  {
    hide Fold, Overflows;
    SelectRowsOk(spec, rows, Is(key));
    FoldFailsIff(spec, Select(rows, Is(key)));
  }

  lemma {:induction false} OverflowStays(spec: Spec, a: seq<InputRow>, b: seq<InputRow>)
    requires RowsOk(spec, a + b) && RowsOk(spec, a) && Fold(spec, a) == None
    ensures Fold(spec, a + b) == None
  {
    if b == [] {
      assert a + b == a;
    } else {
      var n := |b| - 1;
      assert (a + b)[..|a + b| - 1] == a + b[..n];
      OverflowStays(spec, a, b[..n]);
    }
  }

  /** An overflow among the first rows of a key is an overflow of the key. */
  lemma KeyOverflowStays(spec: Spec, rows: seq<InputRow>, n: nat, key: GroupKey)
    requires n <= |rows| && RowsOk(spec, rows) && RowsOk(spec, rows[..n]) && FoldKey(spec, rows[..n], key) == None
    ensures FoldKey(spec, rows, key) == None
  {
    assert rows == rows[..n] + rows[n..];
    SelectUnion(rows[..n], rows[n..], Is(key));
    SelectRowsOk(spec, rows, Is(key));
    SelectRowsOk(spec, rows[..n], Is(key));
    OverflowStays(spec, Select(rows[..n], Is(key)), Select(rows[n..], Is(key)));
  }

  /** One more row advances the fold of its key and of no other. */
  lemma FoldKeyOne(spec: Spec, rows: seq<InputRow>, row: InputRow, key: GroupKey)
    requires RowsOk(spec, rows) && RowOk(spec, row)
    ensures RowsOk(spec, rows + [row])
    ensures FoldKey(spec, rows + [row], key) ==
            if row.key != key then FoldKey(spec, rows, key)
            else if FoldKey(spec, rows, key) == None then None
            else AdvanceEntry(spec, FoldKey(spec, rows, key).value, row)
  {
    SelectOne(rows, row, Is(key));
    SelectRowsOk(spec, rows + [row], Is(key));
    var before := Select(rows, Is(key));
    assert (before + [row])[..|before|] == before;
  }

  /** The keys of some rows. */
  function KeySet(rows: seq<InputRow>): set<GroupKey> {
    if rows == [] then {} else KeySet(rows[..|rows| - 1]) + {rows[|rows| - 1].key}
  }

  lemma {:induction false} KeySetMembers(rows: seq<InputRow>, key: GroupKey)
    ensures key in KeySet(rows) <==> exists i :: 0 <= i < |rows| && rows[i].key == key
  {
    if rows != [] {
      var n := |rows| - 1;
      KeySetMembers(rows[..n], key);
      if exists i :: 0 <= i < |rows| && rows[i].key == key {
        var i :| 0 <= i < |rows| && rows[i].key == key;
        assert i < n ==> rows[..n][i].key == key;
      }
    }
  }

  lemma {:induction false} NoRowsOfKey(rows: seq<InputRow>, key: GroupKey)
    requires key !in KeySet(rows)
    ensures Select(rows, Is(key)) == []
  {
    if rows != [] {
      NoRowsOfKey(rows[..|rows| - 1], key);
    }
  }
}
