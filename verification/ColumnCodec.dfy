/** Plain and delta encoding of one int4 column of at most 64 rows.
    (examples/compressed_tam/compressed.c) */
module ColumnCodec {
  import opened Int4Kernels
  import opened Vectors

  const ROWS: nat := 64

  datatype Encoding = Plain | Delta8 | Delta16

  /** CompressedColumn with the bytes behind its data offset as elements of the encoding's width. */
  datatype Stored = Stored(encoding: Encoding, validity: seq<bool>, nullCount: nat, base: int, data: seq<int>)
  {
    predicate Shaped(nrows: nat) {
      && |validity| == ROWS && 1 <= nrows <= ROWS
      && |data| == if encoding == Plain then nrows else nrows - 1
    }
  }

  // ----- C integer conversions -----

  /** The cast to a signed integer of `half` negative values keeps the low bits. */
  function Narrow(x: int, half: int): int
    requires half > 0
  {
    (x + half) % (2 * half) - half
  }

  lemma NarrowFits(x: int, half: int)
    requires half == 0x80 || half == 0x8000 || half == 0x8000_0000
    requires -half <= x < half
    ensures Narrow(x, half) == x
  {}

  /** 32-bit addition. */
  function Add32(a: int, b: int): int {
    Narrow(a + b, 0x8000_0000)
  }

  function Half(encoding: Encoding): int {
    match encoding
    case Plain => 0x8000_0000
    case Delta8 => 0x80
    case Delta16 => 0x8000
  }

  // ----- what is encoded -----

  /** The input of one column: int4 values, zero or not in NULL rows. */
  ghost predicate IsColumn(values: seq<int>, nonnull: seq<bool>) {
    1 <= |values| == |nonnull| <= ROWS && forall i | 0 <= i < |values| :: IsInt32(values[i])
  }

  /** The value a row carries: its own, or for a NULL the last one before it, at first zero. */
  function Carried(values: seq<int>, nonnull: seq<bool>, row: nat): int
    requires row < |values| == |nonnull|
  {
    if nonnull[row] then values[row] else if row == 0 then 0 else Carried(values, nonnull, row - 1)
  }

  function Delta(values: seq<int>, nonnull: seq<bool>, row: nat): int
    requires 1 <= row < |values| == |nonnull|
  {
    Carried(values, nonnull, row) - Carried(values, nonnull, row - 1)
  }

  ghost predicate DeltasFit(values: seq<int>, nonnull: seq<bool>, half: int)
    requires |values| == |nonnull|
  {
    forall row | 1 <= row < |values| :: -half <= Delta(values, nonnull, row) < half
  }

  /** The narrowest encoding whose width holds every delta. */
  ghost predicate Narrowest(encoding: Encoding, values: seq<int>, nonnull: seq<bool>)
    requires |values| == |nonnull|
  {
    match encoding
    case Delta8 => DeltasFit(values, nonnull, 0x80)
    case Delta16 => DeltasFit(values, nonnull, 0x8000) && !DeltasFit(values, nonnull, 0x80)
    case Plain => !DeltasFit(values, nonnull, 0x8000)
  }

  lemma {:induction false} CarriedInRange(values: seq<int>, nonnull: seq<bool>, row: nat)
    requires IsColumn(values, nonnull) && row < |values|
    ensures IsInt32(Carried(values, nonnull, row))
  {
    if !nonnull[row] && row > 0 {
      CarriedInRange(values, nonnull, row - 1);
    }
  }

  // ----- encoding -----

  /** choose_compression: the base, the narrowest encoding and the bytes it takes. */
  method ChooseCompression(values: seq<int>, nonnull: seq<bool>) returns (encoding: Encoding, base: int, dataSize: nat)
    requires IsColumn(values, nonnull)
    ensures base == Carried(values, nonnull, 0)
    ensures Narrowest(encoding, values, nonnull)
    ensures dataSize == match encoding case Delta8 => |values| - 1
                                       case Delta16 => 2 * (|values| - 1)
                                       case Plain => 4 * |values|
  {
    var normalized := new int[|values|];
    var last := 0;
    for row := 0 to |values|
      invariant row > 0 ==> last == Carried(values, nonnull, row - 1)
      invariant row == 0 ==> last == 0
      invariant forall k | 0 <= k < row :: normalized[k] == Carried(values, nonnull, k)
    {
      if nonnull[row] {
        last := values[row];
      }
      normalized[row] := last;
    }
    base := normalized[0];
    var fits8, fits16 := true, true;
    for row := 1 to |values|
      invariant fits8 <==> forall k | 1 <= k < row :: -0x80 <= Delta(values, nonnull, k) < 0x80
      invariant fits16 <==> forall k | 1 <= k < row :: -0x8000 <= Delta(values, nonnull, k) < 0x8000
    {
      var delta := normalized[row] - normalized[row - 1];
      assert delta == Delta(values, nonnull, row);
      if delta < -0x80 || delta > 0x7f {
        fits8 := false;
        assert !(-0x80 <= Delta(values, nonnull, row) < 0x80);
      }
      if delta < -0x8000 || delta > 0x7fff {
        fits16 := false;
      }
    }
    if fits8 {
      return Delta8, base, |values| - 1;
    }
    if fits16 {
      return Delta16, base, 2 * (|values| - 1);
    }
    return Plain, base, 4 * |values|;
  }

  function NullCount(nonnull: seq<bool>): nat {
    if nonnull == [] then 0 else NullCount(nonnull[..|nonnull| - 1]) + if nonnull[|nonnull| - 1] then 0 else 1
  }

  lemma {:induction false} NoNulls(nonnull: seq<bool>)
    ensures NullCount(nonnull) == 0 <==> forall i | 0 <= i < |nonnull| :: nonnull[i]
  {
    if nonnull != [] {
      var rest := nonnull[..|nonnull| - 1];
      NoNulls(rest);
      assert forall i | 0 <= i < |rest| :: rest[i] == nonnull[i];
    }
  }

  /** A stored column that was written from this input. */
  ghost predicate Encodes(stored: Stored, values: seq<int>, nonnull: seq<bool>)
    requires IsColumn(values, nonnull)
  {
    && stored.Shaped(|values|)
    && (forall i | 0 <= i < ROWS :: stored.validity[i] <==> i < |values| && nonnull[i])
    && stored.nullCount == NullCount(nonnull)
    && stored.base == Carried(values, nonnull, 0)
    && Narrowest(stored.encoding, values, nonnull)
    && (if stored.encoding == Plain then stored.data == values
        else forall row | 1 <= row < |values| ::
               stored.data[row - 1] == Narrow(Delta(values, nonnull, row), Half(stored.encoding)))
  }

  /** write_column: the validity map and NULL count, then the values or their deltas. */
  method WriteColumn(values: seq<int>, nonnull: seq<bool>, encoding: Encoding, base: int) returns (stored: Stored)
    requires IsColumn(values, nonnull)
    requires base == Carried(values, nonnull, 0) && Narrowest(encoding, values, nonnull)
    ensures Encodes(stored, values, nonnull)
  {
    hide Narrowest, Narrow, DeltasFit;
    var validity := seq(ROWS, _ => false);
    var nullCount := 0;
    for row := 0 to |values|
      invariant |validity| == ROWS
      invariant forall i | 0 <= i < ROWS :: validity[i] <==> i < row && nonnull[i]
      invariant nullCount == NullCount(nonnull[..row])
    {
      assert nonnull[..row + 1][..row] == nonnull[..row];
      if nonnull[row] {
        validity := validity[row := true];
      } else {
        nullCount := nullCount + 1;
      }
    }
    assert nonnull[..|values|] == nonnull;
    if encoding == Plain {
      return Stored(encoding, validity, nullCount, base, values);
    }
    var last := base;
    var data := [];
    for row := 1 to |values|
      invariant last == Carried(values, nonnull, row - 1)
      invariant |data| == row - 1
      invariant forall k | 1 <= k < row :: data[k - 1] == Narrow(Delta(values, nonnull, k), Half(encoding))
    {
      var value := last;
      if nonnull[row] {
        value := values[row];
      }
      data := data + [Narrow(value - last, Half(encoding))];
      last := value;
    }
    stored := Stored(encoding, validity, nullCount, base, data);
  }

  // ----- decoding -----

  /** The value decoded for a row: a running 32-bit sum of the deltas. */
  function DecodedAt(stored: Stored, row: nat): int
    requires if stored.encoding == Plain then row < |stored.data| else row <= |stored.data|
  {
    if stored.encoding == Plain then stored.data[row]
    else if row == 0 then stored.base
    else Add32(DecodedAt(stored, row - 1), stored.data[row - 1])
  }

  /** column_values */
  method ColumnValues(stored: Stored, nrows: nat) returns (decoded: seq<int>)
    requires stored.Shaped(nrows)
    ensures |decoded| == nrows
    ensures forall row | 0 <= row < nrows :: decoded[row] == DecodedAt(stored, row)
  {
    if stored.encoding == Plain {
      return stored.data;
    }
    decoded := [stored.base];
    for row := 1 to nrows
      invariant |decoded| == row
      invariant forall k | 0 <= k < row :: decoded[k] == DecodedAt(stored, k)
    {
      decoded := decoded + [Add32(decoded[row - 1], stored.data[row - 1])];
    }
  }

  /** Decoding what was written gives back every non-NULL value: both sides fill NULLs alike, so
      no delta is cut off by its width and no running sum leaves int4. */
  lemma {:induction false} RoundTrip(stored: Stored, values: seq<int>, nonnull: seq<bool>, row: nat)
    requires IsColumn(values, nonnull) && Encodes(stored, values, nonnull) && row < |values|
    ensures nonnull[row] ==> DecodedAt(stored, row) == values[row]
    ensures IsInt32(DecodedAt(stored, row))
    ensures stored.encoding != Plain ==> DecodedAt(stored, row) == Carried(values, nonnull, row)
  {
    if stored.encoding != Plain {
      CarriedInRange(values, nonnull, row);
      if row > 0 {
        RoundTrip(stored, values, nonnull, row - 1);
        assert DeltasFit(values, nonnull, Half(stored.encoding));
        NarrowFits(Delta(values, nonnull, row), Half(stored.encoding));
        NarrowFits(Carried(values, nonnull, row), 0x8000_0000);
      }
    }
  }

  /** The value of a stored row, NULL as None. */
  function Item(stored: Stored, row: nat): Option<int>
    requires row < |stored.validity| && (if stored.encoding == Plain then row < |stored.data| else row <= |stored.data|)
  {
    if stored.validity[row] then Some(DecodedAt(stored, row)) else None
  }

  /** A NULL count of zero stands for "every row is valid". */
  ghost predicate CountsNulls(stored: Stored, nrows: nat)
    requires stored.Shaped(nrows)
  {
    stored.nullCount == 0 <==> forall row | 0 <= row < nrows :: stored.validity[row]
  }

  /** An encoded column shows its input: NULLs and values. */
  lemma EncodedItems(stored: Stored, values: seq<int>, nonnull: seq<bool>)
    requires IsColumn(values, nonnull) && Encodes(stored, values, nonnull)
    ensures stored.Shaped(|values|) && CountsNulls(stored, |values|)
    ensures forall row | 0 <= row < |values| :: Item(stored, row) == if nonnull[row] then Some(values[row]) else None
  {
    hide Narrowest, Narrow, DecodedAt, Carried;
    NoNulls(nonnull);
    forall row | 0 <= row < |values|
      ensures Item(stored, row) == if nonnull[row] then Some(values[row]) else None
    {
      RoundTrip(stored, values, nonnull, row);
    }
  }

  /** prepare_column: the vector of the rows from `start`; without NULLs there is no validity map. */
  method ColumnVector(stored: Stored, nrows: nat, start: nat, count: nat) returns (vector: Vector<int>)
    requires stored.Shaped(nrows) && CountsNulls(stored, nrows) && start + count <= nrows
    ensures vector.Covers(count)
    ensures forall row | 0 <= row < count :: vector.At(row) == Item(stored, start + row)
  {
    hide DecodedAt;
    var decoded := ColumnValues(stored, nrows);
    vector := Packed(decoded, if stored.nullCount == 0 then None else Some(stored.validity), start);
  }
}
