/** The int4 comparison and arithmetic kernels, with and without four-lane compares.
    (kernels/int4.c and kernels/int4_simd.c) */
module Int4Kernels {
  import opened Arithmetic
  import opened Vectors

  const INT32_MIN: int := -0x8000_0000
  const INT32_MAX: int := 0x7fff_ffff
  const WORD: nat := 64
  const LANES: nat := 4

  // ----- comparisons -----

  datatype Comparison = Eq | Ne | Lt | Le | Gt | Ge

  predicate Compare(op: Comparison, left: int, right: int) {
    match op
    case Eq => left == right
    case Ne => left != right
    case Lt => left < right
    case Le => left <= right
    case Gt => left > right
    case Ge => left >= right
  }

  /** pg_batch_int4_compare_op: the comparison with the column on the left. */
  function Normalized(op: Comparison, valueArg: nat): Comparison {
    if valueArg != 1 then op
    else
      match op
      case Lt => Gt
      case Le => Ge
      case Gt => Lt
      case Ge => Le
      case _ => op
  }

  /** Swapping the operands and normalizing the operator is the same comparison. */
  lemma NormalizedCompares(op: Comparison, value: int, scalar: int)
    ensures Compare(Normalized(op, 1), value, scalar) <==> Compare(op, scalar, value)
    ensures Compare(Normalized(op, 0), value, scalar) <==> Compare(op, value, scalar)
  {}

  /** A row passes when it is selected, not NULL, and compares TRUE. */
  predicate Passes(column: Vector<int>, row: nat, op: Comparison, scalar: int)
    requires column.Covers(row + 1)
  {
    !column.IsNull(row) && Compare(op, column.ValueAt(row), scalar)
  }

  // ----- four lanes -----

  /** The two lane operations the instruction sets offer; the others are built of them. */
  predicate LaneEq(left: int, right: int) { left == right }
  predicate LaneGt(left: int, right: int) { left > right }

  /** The lane expression chosen for each operator: NE, LE and GE are complements, LT is
      GT with its operands swapped. */
  predicate LaneCompare(op: Comparison, left: int, right: int) {
    match op
    case Eq => LaneEq(left, right)
    case Ne => !LaneEq(left, right)
    case Lt => LaneGt(right, left)
    case Le => !LaneGt(left, right)
    case Gt => LaneGt(left, right)
    case Ge => !LaneGt(right, left)
  }

  /** The physical value of a row, whatever its validity. */
  function RawValue(column: Vector<int>, row: nat): int
    requires column.Covers(row + 1)
  {
    column.ValueAt(row)
  }

  /** pg_batch_int4_simd_compare: groups of four rows, then a scalar tail. */
  method SimdCompare(column: Vector<int>, firstRow: nat, nrows: nat, op: Comparison,
                     scalar: int) returns (mask: seq<bool>)
    requires column.Covers(firstRow + nrows)
    ensures |mask| == nrows
    ensures forall i | 0 <= i < nrows :: mask[i] == Compare(op, RawValue(column, firstRow + i), scalar)
  {
    mask := [];
    var row := 0;
    while row + LANES <= nrows
      invariant |mask| == row <= nrows
      invariant forall i | 0 <= i < row :: mask[i] == Compare(op, RawValue(column, firstRow + i), scalar)
    {
      var lanes := LoadLanes(column, firstRow + row);
      mask := mask + [LaneCompare(op, lanes[0], scalar), LaneCompare(op, lanes[1], scalar),
                      LaneCompare(op, lanes[2], scalar), LaneCompare(op, lanes[3], scalar)];
      row := row + LANES;
    }
    while row < nrows
      invariant |mask| == row <= nrows
      invariant forall i | 0 <= i < row :: mask[i] == Compare(op, RawValue(column, firstRow + i), scalar)
    {
      mask := mask + [Compare(op, RawValue(column, firstRow + row), scalar)];
      row := row + 1;
    }
  }

  /** load_datum_values and load_packed_values: four consecutive values. */
  function LoadLanes(column: Vector<int>, row: nat): (lanes: seq<int>)
    requires column.Covers(row + LANES)
    ensures |lanes| == LANES
    ensures forall i | 0 <= i < LANES :: lanes[i] == RawValue(column, row + i)
  {
    match column
    case Datums(values, _) => values[row..row + LANES]
    case Packed(values, _, offset) => values[offset + row..offset + row + LANES]
  }

  // ----- one word of a selection -----

  /** The rows of a word that are not NULL; two layouts skip the row loop. */
  method NotNullMask(column: Vector<int>, firstRow: nat, rows: seq<bool>) returns (mask: seq<bool>)
    requires column.Covers(firstRow + |rows|)
    ensures |mask| == |rows|
    ensures forall i | 0 <= i < |rows| :: mask[i] <==> rows[i] && !column.IsNull(firstRow + i)
  {
    if column.Packed? && column.validity == None {
      return rows;
    }
    if column.Datums? && AllTrue(rows) {
      var nulls := AnyTrue(column.isnull[firstRow..firstRow + |rows|]);
      if !nulls {
        return rows;
      }
    }
    mask := [];
    for i := 0 to |rows|
      invariant |mask| == i
      invariant forall k | 0 <= k < i :: mask[k] <==> rows[k] && !column.IsNull(firstRow + k)
    {
      mask := mask + [rows[i] && !column.IsNull(firstRow + i)];
    }
  }

  predicate AllTrue(rows: seq<bool>) {
    forall i | 0 <= i < |rows| :: rows[i]
  }

  /** memchr over the NULL flags. */
  method AnyTrue(flags: seq<bool>) returns (found: bool)
    ensures found <==> exists i :: 0 <= i < |flags| && flags[i]
  {
    found := false;
    for i := 0 to |flags|
      invariant !found && forall k | 0 <= k < i :: !flags[k]
    {
      if flags[i] {
        return true;
      }
    }
  }

  /** scalar_compare: the selected rows of a word that pass. */
  method ScalarCompare(column: Vector<int>, firstRow: nat, rows: seq<bool>, op: Comparison, scalar: int)
    returns (mask: seq<bool>)
    requires column.Covers(firstRow + |rows|)
    ensures |mask| == |rows|
    ensures forall i | 0 <= i < |rows| :: mask[i] <==> rows[i] && Passes(column, firstRow + i, op, scalar)
  {
    mask := [];
    for i := 0 to |rows|
      invariant |mask| == i
      invariant forall k | 0 <= k < i :: mask[k] <==> rows[k] && Passes(column, firstRow + k, op, scalar)
    {
      mask := mask + [rows[i] && Passes(column, firstRow + i, op, scalar)];
    }
  }

  /** One round of pg_batch_filter_int4. */
  method FilterWord(column: Vector<int>, firstRow: nat, rows: seq<bool>, op: Comparison, scalar: int, simd: bool)
    returns (kept: seq<bool>)
    requires column.Covers(firstRow + |rows|)
    ensures |kept| == |rows|
    ensures forall i | 0 <= i < |rows| :: kept[i] <==> rows[i] && Passes(column, firstRow + i, op, scalar)
  {
    var any := AnyTrue(rows);
    if !any {
      return rows;
    }
    if simd && AllTrue(rows) && |rows| >= LANES {
      var passing := SimdCompare(column, firstRow, |rows|, op, scalar);
      var valid := NotNullMask(column, firstRow, rows);
      kept := And(passing, valid);
    } else {
      kept := ScalarCompare(column, firstRow, rows, op, scalar);
    }
  }

  function And(a: seq<bool>, b: seq<bool>): (r: seq<bool>)
    requires |a| == |b|
    ensures |r| == |a| && forall i | 0 <= i < |r| :: r[i] == (a[i] && b[i])
  {
    seq(|a|, i requires 0 <= i < |a| => a[i] && b[i])
  }

  /** pg_batch_filter_int4: word by word; with four-lane compares or without them, exactly
      the selected non-NULL rows that compare TRUE stay selected. */
  method FilterInt4(column: Vector<int>, selected: seq<bool>, op: Comparison, scalar: int, simd: bool)
    returns (kept: seq<bool>)
    requires column.Covers(|selected|)
    ensures |kept| == |selected|
    ensures forall row | 0 <= row < |selected| :: kept[row] <==> selected[row] && Passes(column, row, op, scalar)
  {
    kept := [];
    while |kept| < |selected|
      invariant |kept| <= |selected|
      invariant forall row | 0 <= row < |kept| :: kept[row] <==> selected[row] && Passes(column, row, op, scalar)
      decreases |selected| - |kept|
    {
      var firstRow := |kept|;
      var n := if |selected| - firstRow < WORD then |selected| - firstRow else WORD;
      CoversLess(column, firstRow + n, |selected|);
      var word := FilterWord(column, firstRow, selected[firstRow..firstRow + n], op, scalar, simd);
      forall row | firstRow <= row < firstRow + n
        ensures (kept + word)[row] <==> selected[row] && Passes(column, row, op, scalar)
      {
        assert (kept + word)[row] == word[row - firstRow];
        assert selected[firstRow..firstRow + n][row - firstRow] == selected[row];
      }
      kept := kept + word;
    }
  }

  lemma CoversLess(column: Vector<int>, a: nat, b: nat)
    requires column.Covers(b) && a <= b
    ensures column.Covers(a)
  {}

  // ----- arithmetic -----

  datatype ArithmeticOp = Add | Subtract | Multiply | Divide | Modulo | Negate

  /** A computed int4, NULL, or an error. */
  datatype Value = Ok(value: Option<int>) | Failed

  /** C division truncates toward zero; Dafny's does not. */
  function TruncDiv(a: int, b: int): int
    requires b != 0
  {
    if a >= 0 then (if b > 0 then a / b else -(a / -b))
    else if b > 0 then -((-a) / b) else (-a) / (-b)
  }

  function TruncMod(a: int, b: int): int
    requires b != 0
  {
    a - b * TruncDiv(a, b)
  }

  function InRange(x: int): Value {
    if INT32_MIN <= x <= INT32_MAX then Ok(Some(x)) else Failed
  }

  /** int4_arithmetic */
  function Int4Arithmetic(op: ArithmeticOp, left: int, right: int): Value {
    match op
    case Add => InRange(left + right)
    case Subtract => InRange(left - right)
    case Multiply => InRange(left * right)
    case Divide =>
      if right == 0 then Failed
      else if right == -1 && left == INT32_MIN then Failed
      else Ok(Some(TruncDiv(left, right)))
    case Modulo =>
      if right == 0 then Failed
      else if right == -1 then Ok(Some(0)) else Ok(Some(TruncMod(left, right)))
    case Negate => if left == INT32_MIN then Failed else Ok(Some(-left))
  }

  predicate IsInt32(x: int) {
    INT32_MIN <= x <= INT32_MAX
  }

  lemma QuotientBounds(a: nat, b: nat)
    requires b > 0
    ensures 0 <= a / b <= a && b * (a / b) <= a < b * (a / b) + b
  {
    DivMod(a, b);
    AtMostProduct(b, a / b);
  }

  lemma AtMostProduct(b: nat, q: nat)
    requires b > 0
    ensures q <= b * q
  {
    Distribute(q, 1, b - 1);
    Commute(q, b);
  }

  /** The quotient is the exact one cut off toward zero: the remainder is smaller than the
      divisor and has the sign of the dividend. */
  lemma TruncatedDivision(a: int, b: int)
    requires b != 0
    ensures a == b * TruncDiv(a, b) + TruncMod(a, b)
    ensures if b > 0 then -b < TruncMod(a, b) < b else b < TruncMod(a, b) < -b
    ensures (a >= 0 ==> TruncMod(a, b) >= 0) && (a <= 0 ==> TruncMod(a, b) <= 0)
    ensures (if a >= 0 then -a <= TruncDiv(a, b) <= a else a <= TruncDiv(a, b) <= -a)
  {
    QuotientBounds(if a >= 0 then a else -a, if b > 0 then b else -b);
  }

  /** Only INT32_MIN / -1 leaves the range. */
  lemma QuotientSmall(left: int, right: int)
    requires IsInt32(left) && IsInt32(right) && right != 0 && right != -1
    ensures IsInt32(TruncDiv(left, right))
  {
    TruncatedDivision(left, right);
    if left == INT32_MIN && right < -1 {
      QuotientBounds(-left, -right);
      HalfAtMost(-left, -right);
    }
  }

  /** `v` is what the operator means for mathematical integers; division and remainder by
      their law: the remainder is smaller than the divisor and has the sign of the dividend. */
  ghost predicate Means(op: ArithmeticOp, left: int, right: int, v: int) {
    match op
    case Add => v == left + right
    case Subtract => v == left - right
    case Multiply => v == left * right
    case Divide => exists rest :: Leaves(left, right, v, rest)
    case Modulo => exists quotient :: Leaves(left, right, quotient, v)
    case Negate => v == -left
  }

  ghost predicate Leaves(left: int, right: int, quotient: int, rest: int) {
    && left == right * quotient + rest
    && (if right > 0 then -right < rest < right else right < rest < -right)
    && (left >= 0 ==> rest >= 0) && (left <= 0 ==> rest <= 0)
  }

  lemma LeavesOnce(left: int, right: int, q: int, r: int, q': int, r': int)
    requires Leaves(left, right, q, r) && Leaves(left, right, q', r')
    ensures q == q' && r == r'
  {
    var d := q - q';
    assert right * d == r' - r by {
      assert right * d == right * q - right * q';
    }
    if d >= 1 {
      Multiple(right, d);
    } else if d <= -1 {
      Multiple(right, -d);
      assert right * -d == -(right * d);
    }
  }

  lemma Multiple(b: int, d: int)
    requires d >= 1
    ensures if b >= 0 then b * d >= b else b * d <= b
  {
    assert b * d == b + b * (d - 1);
    if b >= 0 {
      assert b * (d - 1) >= 0;
    } else {
      assert b * (d - 1) <= 0;
    }
  }

  lemma MeansOnce(op: ArithmeticOp, left: int, right: int, v: int, w: int)
    requires Means(op, left, right, v) && Means(op, left, right, w)
    ensures v == w
  {
    if op == Divide {
      var r :| Leaves(left, right, v, r);
      var s :| Leaves(left, right, w, s);
      LeavesOnce(left, right, v, r, w, s);
    } else if op == Modulo {
      var q :| Leaves(left, right, q, v);
      var p :| Leaves(left, right, p, w);
      LeavesOnce(left, right, q, v, p, w);
    }
  }

  lemma QuotientMeans(left: int, right: int)
    requires right != 0
    ensures Leaves(left, right, TruncDiv(left, right), TruncMod(left, right))
    ensures Means(Divide, left, right, TruncDiv(left, right)) && Means(Modulo, left, right, TruncMod(left, right))
  {
    hide TruncDiv, TruncMod;
    TruncatedDivision(left, right);
  }

  lemma DivideExact(left: int, right: int)
    requires IsInt32(left) && IsInt32(right) && right != 0
    ensures Means(Divide, left, right, TruncDiv(left, right))
    ensures IsInt32(TruncDiv(left, right)) <==> !(right == -1 && left == INT32_MIN)
  {
    hide TruncDiv, TruncMod;
    QuotientMeans(left, right);
    if right != -1 {
      QuotientSmall(left, right);
    }
  }

  lemma ModuloExact(left: int, right: int)
    requires IsInt32(left) && IsInt32(right) && right != 0
    ensures Means(Modulo, left, right, if right == -1 then 0 else TruncMod(left, right))
    ensures right != -1 ==> IsInt32(TruncMod(left, right))
  {
    hide TruncDiv, TruncMod;
    QuotientMeans(left, right);
    if right == -1 {
      assert Leaves(left, -1, -left, 0);
    }
  }

  /** The result for int4 operands is the value the operator means if there is one and it is an
      int4, and otherwise an error. */
  lemma ArithmeticExact(op: ArithmeticOp, left: int, right: int, v: int)
    requires -0x8000_0000 <= left <= 0x7fff_ffff && -0x8000_0000 <= right <= 0x7fff_ffff
    ensures Int4Arithmetic(op, left, right) == Ok(Some(v))
            <==> Means(op, left, right, v) && -0x8000_0000 <= v <= 0x7fff_ffff
    ensures Int4Arithmetic(op, left, right) != Ok(None)
  {
    hide TruncDiv, TruncMod, Leaves;
    if right != 0 && op == Divide {
      DivideExact(left, right);
      if Means(op, left, right, v) {
        MeansOnce(op, left, right, v, TruncDiv(left, right));
      }
    } else if right != 0 && op == Modulo {
      ModuloExact(left, right);
      if Means(op, left, right, v) {
        MeansOnce(op, left, right, v, if right == -1 then 0 else TruncMod(left, right));
      }
    } else if op == Divide || op == Modulo {
      NothingLeaves(left);
    }
  }

  /** Without an error the result is again an int4: the checks miss no overflow. */
  lemma ArithmeticInRange(op: ArithmeticOp, left: int, right: int)
    requires IsInt32(left) && IsInt32(right) && Int4Arithmetic(op, left, right) != Failed
    ensures Int4Arithmetic(op, left, right).value != None && IsInt32(Int4Arithmetic(op, left, right).value.value)
  {
    hide Int4Arithmetic;
    var v := Int4Arithmetic(op, left, right).value;
    ArithmeticExact(op, left, right, if v == None then 0 else v.value);
  }

  lemma NothingLeaves(left: int)
    ensures forall q, r :: !Leaves(left, 0, q, r)
  {}

  lemma HalfAtMost(a: nat, b: nat)
    requires b >= 2
    ensures 2 * (a / b) <= a
  {
    QuotientBounds(a, b);
    var q := a / b;
    assert b * q >= 2 * q;
  }
}
