/** The format of a spill tape: blocks of up to 64 rows, column by column.
    (spill/spill.c, flush_writer and pg_batch_spill_reader_next) */
module SpillFiles {
  import opened Arithmetic
  import opened Vectors

  const BLOCK: nat := 64
  const MAGIC: nat := 0x50474253

  /** A spilled row: its hash and one nullable int4 per column. */
  datatype SpillRow = SpillRow(hash: nat, values: seq<Option<int>>)

  /** What a tape holds, at the granularity in which it is written and read back. */
  datatype Word =
    | Header(magic: nat, nrows: nat, ncolumns: nat)
    | HashWord(hash: nat)
    | ValidityWord(bits: seq<bool>)
    | ValueWord(value: int)

  /** Bytes of one word: the header is 4 + 2 + 2, a validity map 64 bits. */
  function WordBytes(w: Word): nat {
    match w
    case Header(_, _, _) => 8
    case HashWord(_) => 4
    case ValidityWord(_) => 8
    case ValueWord(_) => 4
  }

  function Bytes(tape: seq<Word>): nat {
    if tape == [] then 0 else Bytes(tape[..|tape| - 1]) + WordBytes(tape[|tape| - 1])
  }

  /** block_bytes */
  function BlockBytes(ncolumns: nat, nrows: nat): nat {
    8 + 4 * nrows + 8 * ncolumns + 4 * ncolumns * nrows
  }

  /** One block: hashes, per column a 64-bit validity map and the packed values. */
  datatype Block = Block(hashes: seq<nat>, validity: seq<seq<bool>>, values: seq<seq<int>>) {
    ghost predicate Valid(ncolumns: nat) {
      && 0 < |hashes| <= BLOCK && |validity| == |values| == ncolumns
      && (forall c | 0 <= c < ncolumns :: |validity[c]| == BLOCK && |values[c]| == |hashes|)
    }

    function Row(ncolumns: nat, i: nat): SpillRow
      requires i < |hashes| <= BLOCK && ncolumns <= |validity| && ncolumns <= |values|
      requires forall c | 0 <= c < ncolumns :: |validity[c]| == BLOCK && |values[c]| == |hashes|
    {
      SpillRow(hashes[i], seq(ncolumns, c requires 0 <= c < ncolumns => if validity[c][i] then Some(values[c][i]) else None))
    }
  }

  function BlockRows(b: Block, ncolumns: nat): (rows: seq<SpillRow>)
    requires b.Valid(ncolumns)
    ensures |rows| == |b.hashes| && forall i | 0 <= i < |rows| :: rows[i] == b.Row(ncolumns, i)
  {
    seq(|b.hashes|, i requires 0 <= i < |b.hashes| => b.Row(ncolumns, i))
  }

  function HashWords(hashes: seq<nat>): (w: seq<Word>)
    ensures |w| == |hashes| && forall i | 0 <= i < |w| :: w[i] == HashWord(hashes[i])
  {
    seq(|hashes|, i requires 0 <= i < |hashes| => HashWord(hashes[i]))
  }

  function ValueWords(values: seq<int>): (w: seq<Word>)
    ensures |w| == |values| && forall i | 0 <= i < |w| :: w[i] == ValueWord(values[i])
  {
    seq(|values|, i requires 0 <= i < |values| => ValueWord(values[i]))
  }

  function ValidityWords(validity: seq<seq<bool>>): (w: seq<Word>)
    ensures |w| == |validity| && forall c | 0 <= c < |w| :: w[c] == ValidityWord(validity[c])
  {
    seq(|validity|, c requires 0 <= c < |validity| => ValidityWord(validity[c]))
  }

  /** The columns one after another. */
  function ColumnWords(values: seq<seq<int>>): seq<Word> {
    if values == [] then [] else ColumnWords(values[..|values| - 1]) + ValueWords(values[|values| - 1])
  }

  function BlockWords(b: Block): seq<Word> {
    [Header(MAGIC, |b.hashes|, |b.values|)] + HashWords(b.hashes) + ValidityWords(b.validity) + ColumnWords(b.values)
  }

  function TapeOf(blocks: seq<Block>): seq<Word> {
    if blocks == [] then [] else TapeOf(blocks[..|blocks| - 1]) + BlockWords(blocks[|blocks| - 1])
  }

  ghost predicate BlocksOk(blocks: seq<Block>, ncolumns: nat) {
    forall k | 0 <= k < |blocks| :: blocks[k].Valid(ncolumns)
  }

  /** The rows of all blocks, in order. */
  function TapeRows(blocks: seq<Block>, ncolumns: nat): seq<SpillRow>
    requires BlocksOk(blocks, ncolumns)
  {
    if blocks == [] then []
    else TapeRows(blocks[..|blocks| - 1], ncolumns) + BlockRows(blocks[|blocks| - 1], ncolumns)
  }

  // ----- sizes -----

  lemma {:induction false} BytesUnion(a: seq<Word>, b: seq<Word>)
    ensures Bytes(a + b) == Bytes(a) + Bytes(b)
  {
    if b == [] {
      assert a + b == a;
    } else {
      var n := |b| - 1;
      assert (a + b)[..|a + b| - 1] == a + b[..n];
      BytesUnion(a, b[..n]);
    }
  }

  lemma {:induction false} EvenBytes(words: seq<Word>, size: nat)
    requires forall i | 0 <= i < |words| :: WordBytes(words[i]) == size
    ensures Bytes(words) == size * |words|
  {
    if words != [] {
      EvenBytes(words[..|words| - 1], size);
      Distribute(size, |words| - 1, 1);
    }
  }

  lemma {:induction false} ColumnBytes(values: seq<seq<int>>, nrows: nat)
    requires forall c | 0 <= c < |values| :: |values[c]| == nrows
    ensures Bytes(ColumnWords(values)) == 4 * (|values| * nrows)
    ensures |ColumnWords(values)| == |values| * nrows
  {
    if values != [] {
      var n := |values| - 1;
      ColumnBytes(values[..n], nrows);
      EvenBytes(ValueWords(values[n]), 4);
      BytesUnion(ColumnWords(values[..n]), ValueWords(values[n]));
      Distribute(nrows, n, 1);
      Commute(nrows, n);
      Commute(nrows, |values|);
    }
  }

  /** The byte counter of flush_writer adds exactly what it appends. */
  lemma BlockBytesExact(b: Block, ncolumns: nat)
    requires b.Valid(ncolumns)
    ensures Bytes(BlockWords(b)) == BlockBytes(ncolumns, |b.hashes|)
  {
    hide Bytes;
    var h, x, v, u := [Header(MAGIC, |b.hashes|, |b.values|)], HashWords(b.hashes), ValidityWords(b.validity), ColumnWords(b.values);
    EvenBytes(h, 8);
    EvenBytes(x, 4);
    EvenBytes(v, 8);
    ColumnBytes(b.values, |b.hashes|);
    BytesUnion(h, x);
    BytesUnion(h + x, v);
    BytesUnion(h + x + v, u);
    Quadruple(ncolumns, |b.hashes|);
  }

  lemma Quadruple(a: nat, b: nat)
    ensures 4 * (a * b) == 4 * a * b
  {}

  // ----- reading a block back -----

  datatype Read = End | Damaged | Got(block: Block, next: nat)

  /** The values of one column at a position. */
  function Values(tape: seq<Word>, at: nat, n: nat): (r: Option<seq<int>>)
    ensures r != None ==> |r.value| == n
  {
    if n == 0 then Some([])
    else
      var rest := Values(tape, at, n - 1);
      if rest == None || at + n > |tape| || !tape[at + n - 1].ValueWord? then None
      else Some(rest.value + [tape[at + n - 1].value])
  }

  function Columns(tape: seq<Word>, at: nat, ncolumns: nat, nrows: nat): (r: Option<seq<seq<int>>>)
    ensures r != None ==> |r.value| == ncolumns && forall c | 0 <= c < ncolumns :: |r.value[c]| == nrows
  {
    if ncolumns == 0 then Some([])
    else
      var rest := Columns(tape, at, ncolumns - 1, nrows);
      var last := Values(tape, at + (ncolumns - 1) * nrows, nrows);
      if rest == None || last == None then None else Some(rest.value + [last.value])
  }

  function Hashes(tape: seq<Word>, at: nat, n: nat): (r: Option<seq<nat>>)
    ensures r != None ==> |r.value| == n
  {
    if n == 0 then Some([])
    else
      var rest := Hashes(tape, at, n - 1);
      if rest == None || at + n > |tape| || !tape[at + n - 1].HashWord? then None
      else Some(rest.value + [tape[at + n - 1].hash])
  }

  function Validity(tape: seq<Word>, at: nat, n: nat): (r: Option<seq<seq<bool>>>)
    ensures r != None ==> |r.value| == n
  {
    if n == 0 then Some([])
    else
      var rest := Validity(tape, at, n - 1);
      if rest == None || at + n > |tape| || !tape[at + n - 1].ValidityWord? then None
      else Some(rest.value + [tape[at + n - 1].bits])
  }

  /** pg_batch_spill_reader_next: one block from a position. */
  function ReadBlock(tape: seq<Word>, at: nat, ncolumns: nat): Read {
    if at >= |tape| then End
    else if !tape[at].Header? || tape[at].magic != MAGIC || tape[at].ncolumns != ncolumns
            || tape[at].nrows == 0 || tape[at].nrows > BLOCK then Damaged
    else
      var nrows := tape[at].nrows;
      var hashes := Hashes(tape, at + 1, nrows);
      var validity := Validity(tape, at + 1 + nrows, ncolumns);
      var values := Columns(tape, at + 1 + nrows + ncolumns, ncolumns, nrows);
      if hashes == None || validity == None || values == None then Damaged
      else Got(Block(hashes.value, validity.value, values.value), at + 1 + nrows + ncolumns + ncolumns * nrows)
  }

  /** `part` stands at position `at` of the tape. */
  ghost predicate Stands(tape: seq<Word>, at: nat, part: seq<Word>) {
    at + |part| <= |tape| && tape[at..at + |part|] == part
  }

  lemma StandsSplit(tape: seq<Word>, at: nat, a: seq<Word>, b: seq<Word>)
    requires Stands(tape, at, a + b)
    ensures Stands(tape, at, a) && Stands(tape, at + |a|, b)
  {
    assert a == (a + b)[..|a|] && b == (a + b)[|a|..];
  }

  lemma {:induction false} HashesBack(tape: seq<Word>, at: nat, hashes: seq<nat>)
    requires Stands(tape, at, HashWords(hashes))
    ensures Hashes(tape, at, |hashes|) == Some(hashes)
  {
    if hashes != [] {
      var n := |hashes| - 1;
      assert HashWords(hashes) == HashWords(hashes[..n]) + [HashWord(hashes[n])];
      StandsSplit(tape, at, HashWords(hashes[..n]), [HashWord(hashes[n])]);
      HashesBack(tape, at, hashes[..n]);
      assert tape[at + n..at + n + 1][0] == HashWord(hashes[n]);
      assert hashes == hashes[..n] + [hashes[n]];
    }
  }

  lemma {:induction false} ValidityBack(tape: seq<Word>, at: nat, validity: seq<seq<bool>>)
    requires Stands(tape, at, ValidityWords(validity))
    ensures Validity(tape, at, |validity|) == Some(validity)
  {
    if validity != [] {
      var n := |validity| - 1;
      assert ValidityWords(validity) == ValidityWords(validity[..n]) + [ValidityWord(validity[n])];
      StandsSplit(tape, at, ValidityWords(validity[..n]), [ValidityWord(validity[n])]);
      ValidityBack(tape, at, validity[..n]);
      assert tape[at + n..at + n + 1][0] == ValidityWord(validity[n]);
      assert validity == validity[..n] + [validity[n]];
    }
  }

  lemma {:induction false} ValuesBack(tape: seq<Word>, at: nat, values: seq<int>)
    requires Stands(tape, at, ValueWords(values))
    ensures Values(tape, at, |values|) == Some(values)
  {
    if values != [] {
      var n := |values| - 1;
      assert ValueWords(values) == ValueWords(values[..n]) + [ValueWord(values[n])];
      StandsSplit(tape, at, ValueWords(values[..n]), [ValueWord(values[n])]);
      ValuesBack(tape, at, values[..n]);
      assert tape[at + n..at + n + 1][0] == ValueWord(values[n]);
      assert values == values[..n] + [values[n]];
    }
  }

  lemma ColumnsOne(tape: seq<Word>, at: nat, values: seq<seq<int>>, last: seq<int>, nrows: nat)
    requires Columns(tape, at, |values|, nrows) == Some(values)
    requires Values(tape, at + |values| * nrows, nrows) == Some(last)
    ensures Columns(tape, at, |values| + 1, nrows) == Some(values + [last])
  {
    hide Values;
  }

  lemma NoColumns(tape: seq<Word>, at: nat, nrows: nat)
    ensures Columns(tape, at, 0, nrows) == Some([])
  {}

  lemma LastColumn(values: seq<seq<int>>, nrows: nat)
    requires values != [] && forall c | 0 <= c < |values| :: |values[c]| == nrows
    ensures var n := |values| - 1;
            ColumnWords(values) == ColumnWords(values[..n]) + ValueWords(values[n]) && |ColumnWords(values[..n])| == n * nrows
  {
    ColumnBytes(values[..|values| - 1], nrows);
  }

  lemma {:induction false} ColumnsBack(tape: seq<Word>, at: nat, values: seq<seq<int>>, nrows: nat)
    requires Stands(tape, at, ColumnWords(values)) && forall c | 0 <= c < |values| :: |values[c]| == nrows
    ensures Columns(tape, at, |values|, nrows) == Some(values)
  {
    hide Values, Stands, Columns, ColumnWords, ValueWords;
    if values == [] {
      NoColumns(tape, at, nrows);
    } else {
      var n := |values| - 1;
      var rest, last := values[..n], values[n];
      assert values == rest + [last];
      LastColumn(values, nrows);
      StandsSplit(tape, at, ColumnWords(rest), ValueWords(last));
      ColumnsBack(tape, at, rest, nrows);
      ValuesBack(tape, at + n * nrows, last);
      ColumnsOne(tape, at, rest, last, nrows);
    }
  }

  lemma PartsStand(tape: seq<Word>, at: nat, b: Block, ncolumns: nat)
    requires b.Valid(ncolumns) && Stands(tape, at, BlockWords(b))
    ensures at < |tape| && tape[at] == Header(MAGIC, |b.hashes|, ncolumns)
    ensures Stands(tape, at + 1, HashWords(b.hashes))
    ensures Stands(tape, at + 1 + |b.hashes|, ValidityWords(b.validity))
    ensures Stands(tape, at + 1 + |b.hashes| + ncolumns, ColumnWords(b.values))
  {
    var h, x, v, u := [Header(MAGIC, |b.hashes|, |b.values|)], HashWords(b.hashes), ValidityWords(b.validity), ColumnWords(b.values);
    StandsSplit(tape, at, h + x + v, u);
    StandsSplit(tape, at, h + x, v);
    StandsSplit(tape, at, h, x);
    assert tape[at..at + 1][0] == h[0];
  }

  lemma BlockLength(b: Block, ncolumns: nat)
    requires b.Valid(ncolumns)
    ensures |BlockWords(b)| == 1 + |b.hashes| + ncolumns + ncolumns * |b.hashes|
  {
    ColumnBytes(b.values, |b.hashes|);
  }

  /** Reading where a block was written returns it, NULLs and hashes included. */
  lemma BlockBack(tape: seq<Word>, at: nat, b: Block, ncolumns: nat)
    requires b.Valid(ncolumns) && Stands(tape, at, BlockWords(b))
    ensures ReadBlock(tape, at, ncolumns) == Got(b, at + |BlockWords(b)|)
  {
    hide Hashes, Validity, Columns, Stands, BlockWords, HashWords, ValidityWords, ColumnWords;
    PartsStand(tape, at, b, ncolumns);
    HashesBack(tape, at + 1, b.hashes);
    ValidityBack(tape, at + 1 + |b.hashes|, b.validity);
    ColumnsBack(tape, at + 1 + |b.hashes| + ncolumns, b.values, |b.hashes|);
    BlockLength(b, ncolumns);
  }

  // ----- reading a whole tape -----

  lemma {:induction false} TapePrefix(blocks: seq<Block>, k: nat)
    requires k <= |blocks|
    ensures TapeOf(blocks[..k]) <= TapeOf(blocks)
  {
    if k < |blocks| {
      var n := |blocks| - 1;
      TapePrefix(blocks[..n], k);
      assert blocks[..n][..k] == blocks[..k];
    } else {
      assert blocks[..k] == blocks;
    }
  }

  /** Block `k` stands right after the first `k` blocks. */
  lemma BlockStands(blocks: seq<Block>, k: nat)
    requires k < |blocks|
    ensures Stands(TapeOf(blocks), |TapeOf(blocks[..k])|, BlockWords(blocks[k]))
    ensures |TapeOf(blocks[..k + 1])| == |TapeOf(blocks[..k])| + |BlockWords(blocks[k])|
  {
    hide BlockWords;
    TapePrefix(blocks, k + 1);
    assert blocks[..k + 1][..k] == blocks[..k];
    assert TapeOf(blocks[..k + 1]) == TapeOf(blocks[..k]) + BlockWords(blocks[k]);
  }
}
