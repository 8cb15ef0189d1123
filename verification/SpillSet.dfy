/** The spill service: a bounded number of block writers over one tape per partition.
    (spill/spill.c, pg_batch_spill_create to pg_batch_spill_reader_rewind) */
module SpillSet {
  import opened Arithmetic
  import opened Vectors
  import opened Selecting
  import opened SpillFiles

  // ----- one writer -----

  /** A block being filled: column-major slots of 64 rows with their validity bits. */
  datatype Writer = Writer(nrows: nat, hashes: seq<nat>, validity: seq<seq<bool>>, values: seq<seq<int>>) {
    /** Bits above the rows are clear, so that appending only has to set bits. */
    ghost predicate Valid(ncolumns: nat) {
      && nrows <= BLOCK && |hashes| == BLOCK && |validity| == |values| == ncolumns
      && (forall c | 0 <= c < ncolumns :: |validity[c]| == BLOCK && |values[c]| == BLOCK)
      && (forall c, i | 0 <= c < ncolumns && nrows <= i < BLOCK :: !validity[c][i])
    }
  }

  function NullableAt(valid: seq<bool>, values: seq<int>, i: nat): Option<int>
    requires i < |valid| && i < |values|
  {
    if valid[i] then Some(values[i]) else None
  }

  function WriterRow(w: Writer, ncolumns: nat, i: nat): SpillRow
    requires |w.hashes| == BLOCK && i < BLOCK && |w.validity| == |w.values| == ncolumns
    requires forall c | 0 <= c < ncolumns :: |w.validity[c]| == BLOCK && |w.values[c]| == BLOCK
  {
    SpillRow(w.hashes[i], seq(ncolumns, c requires 0 <= c < ncolumns => NullableAt(w.validity[c], w.values[c], i)))
  }

  function WriterRows(w: Writer, ncolumns: nat): (rows: seq<SpillRow>)
    requires w.Valid(ncolumns)
    ensures |rows| == w.nrows && forall i | 0 <= i < |rows| :: rows[i] == WriterRow(w, ncolumns, i)
  {
    seq(w.nrows, i requires 0 <= i < w.nrows => WriterRow(w, ncolumns, i))
  }

  function NewWriter(ncolumns: nat): (w: Writer)
    ensures w.Valid(ncolumns) && w.nrows == 0
  {
    Writer(0, seq(BLOCK, _ => 0), seq(ncolumns, _ => seq(BLOCK, _ => false)), seq(ncolumns, _ => seq(BLOCK, _ => 0)))
  }

  /** A row as the service receives it: raw values, and which of them are not NULL. */
  datatype Incoming = Incoming(hash: nat, values: seq<int>, valid: seq<bool>)

  function RowOf(r: Incoming, ncolumns: nat): SpillRow
    requires |r.values| == |r.valid| == ncolumns
  {
    SpillRow(r.hash, seq(ncolumns, c requires 0 <= c < ncolumns => NullableAt(r.valid, r.values, c)))
  }

  /** The loop over columns that stores one row: values are copied, bits only set. */
  function StoreRow(w: Writer, r: Incoming, ncolumns: nat): Writer
    requires w.Valid(ncolumns) && w.nrows < BLOCK && |r.values| == |r.valid| == ncolumns
  {
    var dest := w.nrows;
    Writer(dest + 1, w.hashes[dest := r.hash],
           seq(ncolumns, c requires 0 <= c < ncolumns => if r.valid[c] then w.validity[c][dest := true] else w.validity[c]),
           seq(ncolumns, c requires 0 <= c < ncolumns => w.values[c][dest := r.values[c]]))
  }

  lemma StoreRowAppends(w: Writer, r: Incoming, ncolumns: nat)
    requires w.Valid(ncolumns) && w.nrows < BLOCK && |r.values| == |r.valid| == ncolumns
    ensures StoreRow(w, r, ncolumns).Valid(ncolumns)
    ensures WriterRows(StoreRow(w, r, ncolumns), ncolumns) == WriterRows(w, ncolumns) + [RowOf(r, ncolumns)]
  {
    var after := StoreRow(w, r, ncolumns);
    forall i | 0 <= i < after.nrows
      ensures WriterRow(after, ncolumns, i) == (WriterRows(w, ncolumns) + [RowOf(r, ncolumns)])[i]
    {
      if i < w.nrows {
        assert WriterRow(after, ncolumns, i).values == WriterRow(w, ncolumns, i).values;
      } else {
        assert WriterRow(after, ncolumns, i).values == RowOf(r, ncolumns).values;
      }
    }
  }

  function FlushedBlock(w: Writer, ncolumns: nat): Block
    requires w.Valid(ncolumns)
  {
    Block(w.hashes[..w.nrows], w.validity, seq(ncolumns, c requires 0 <= c < ncolumns => w.values[c][..w.nrows]))
  }

  function Emptied(w: Writer, ncolumns: nat): (e: Writer)
    requires w.Valid(ncolumns)
    ensures e.Valid(ncolumns) && e.nrows == 0
  {
    w.(nrows := 0, validity := seq(ncolumns, _ => seq(BLOCK, _ => false)))
  }

  /** Flushing writes exactly the rows held. */
  lemma FlushedRows(w: Writer, ncolumns: nat)
    requires w.Valid(ncolumns) && w.nrows > 0
    ensures FlushedBlock(w, ncolumns).Valid(ncolumns)
    ensures BlockRows(FlushedBlock(w, ncolumns), ncolumns) == WriterRows(w, ncolumns)
  {
    var b := FlushedBlock(w, ncolumns);
    forall i | 0 <= i < w.nrows
      ensures b.Row(ncolumns, i) == WriterRow(w, ncolumns, i)
    {
      assert b.Row(ncolumns, i).values == WriterRow(w, ncolumns, i).values;
    }
  }

  // ----- one partition -----

  ghost function Unflushed(w: Option<Writer>, ncolumns: nat): seq<SpillRow>
    requires w != None ==> w.value.Valid(ncolumns)
  {
    if w == None then [] else WriterRows(w.value, ncolumns)
  }

  /** The tape holds whole blocks; with the rows of the writer they are the rows written. */
  ghost predicate PartOk(ncolumns: nat, tape: seq<Word>, blocks: seq<Block>, w: Option<Writer>, log: seq<SpillRow>,
                         rows: nat) {
    && BlocksOk(blocks, ncolumns) && tape == TapeOf(blocks)
    && (w != None ==> w.value.Valid(ncolumns) && w.value.nrows < BLOCK)
    && TapeRows(blocks, ncolumns) + Unflushed(w, ncolumns) == log
    && rows == |log|
  }

  lemma BlockAppended(blocks: seq<Block>, b: Block, ncolumns: nat)
    requires BlocksOk(blocks, ncolumns) && b.Valid(ncolumns)
    ensures BlocksOk(blocks + [b], ncolumns) && TapeOf(blocks + [b]) == TapeOf(blocks) + BlockWords(b)
    ensures TapeRows(blocks + [b], ncolumns) == TapeRows(blocks, ncolumns) + BlockRows(b, ncolumns)
  {
    assert (blocks + [b])[..|blocks|] == blocks;
  }

  /** flush_writer on one partition. */
  method FlushPart(ncolumns: nat, tape: seq<Word>, ghost blocks: seq<Block>, w: Writer)
    returns (after: seq<Word>, w': Writer, bytes: nat, ghost blocks': seq<Block>)
    requires BlocksOk(blocks, ncolumns) && tape == TapeOf(blocks) && w.Valid(ncolumns)
    ensures BlocksOk(blocks', ncolumns) && after == TapeOf(blocks') && w'.Valid(ncolumns) && w'.nrows == 0
    ensures TapeRows(blocks', ncolumns) == TapeRows(blocks, ncolumns) + WriterRows(w, ncolumns)
    ensures |blocks'| == |blocks| + if w.nrows > 0 then 1 else 0
    ensures bytes == if w.nrows > 0 then BlockBytes(ncolumns, w.nrows) else 0
    ensures Bytes(after) == Bytes(tape) + bytes
  {
    hide BlockWords, BlockBytes, Bytes, TapeOf, TapeRows;
    if w.nrows == 0 {
      return tape, w, 0, blocks;
    }
    var b := FlushedBlock(w, ncolumns);
    FlushedRows(w, ncolumns);
    BlockAppended(blocks, b, ncolumns);
    BlockBytesExact(b, ncolumns);
    BytesUnion(tape, BlockWords(b));
    after, w', bytes := tape + BlockWords(b), Emptied(w, ncolumns), BlockBytes(ncolumns, w.nrows);
    blocks' := blocks + [b];
  }

  /** The row loop of pg_batch_spill_write and _write_dense on one partition: store each
      row, flush whenever the block is full. */
  method AppendRows(ncolumns: nat, tape: seq<Word>, ghost blocks: seq<Block>, w: Writer, incoming: seq<Incoming>)
    returns (after: seq<Word>, w': Writer, bytes: nat, flushed: nat, ghost blocks': seq<Block>)
    requires BlocksOk(blocks, ncolumns) && tape == TapeOf(blocks) && w.Valid(ncolumns) && w.nrows < BLOCK
    requires forall i | 0 <= i < |incoming| :: |incoming[i].values| == |incoming[i].valid| == ncolumns
    ensures BlocksOk(blocks', ncolumns) && after == TapeOf(blocks') && w'.Valid(ncolumns) && w'.nrows < BLOCK
    ensures TapeRows(blocks', ncolumns) + WriterRows(w', ncolumns) ==
            TapeRows(blocks, ncolumns) + WriterRows(w, ncolumns) + RowsOf(incoming, ncolumns)
    ensures |blocks'| == |blocks| + flushed && Bytes(after) == Bytes(tape) + bytes
  {
    hide BlockBytes, Bytes, TapeOf, TapeRows, StoreRow, BlocksOk, WriterRows;
    after, w', bytes, flushed, blocks' := tape, w, 0, 0, blocks;
    ghost var start := TapeRows(blocks, ncolumns) + WriterRows(w, ncolumns);
    assert start + [] == start;
    for i := 0 to |incoming|
      invariant BlocksOk(blocks', ncolumns) && after == TapeOf(blocks') && w'.Valid(ncolumns) && w'.nrows < BLOCK
      invariant TapeRows(blocks', ncolumns) + WriterRows(w', ncolumns) == start + RowsOf(incoming[..i], ncolumns)
      invariant |blocks'| == |blocks| + flushed && Bytes(after) == Bytes(tape) + bytes
    {
      var r := incoming[i];
      StoreRowAppends(w', r, ncolumns);
      assert incoming[..i + 1] == incoming[..i] + [r];
      RowsOfOne(incoming[..i], r, ncolumns);
      Regroup(TapeRows(blocks', ncolumns), WriterRows(w', ncolumns), start, RowsOf(incoming[..i], ncolumns), RowOf(r, ncolumns));
      w' := StoreRow(w', r, ncolumns);
      if w'.nrows == BLOCK {
        var size;
        ghost var before := blocks';
        after, w', size, blocks' := FlushPart(ncolumns, after, blocks', w');
        NoWriterRows(w', ncolumns);
        assert TapeRows(blocks', ncolumns) + [] == TapeRows(blocks', ncolumns);
        bytes, flushed := bytes + size, flushed + 1;
      }
    }
    assert incoming[..|incoming|] == incoming;
  }

  lemma NoWriterRows(w: Writer, ncolumns: nat)
    requires w.Valid(ncolumns) && w.nrows == 0
    ensures WriterRows(w, ncolumns) == []
  {}

  lemma Regroup(t: seq<SpillRow>, w: seq<SpillRow>, start: seq<SpillRow>, rows: seq<SpillRow>, r: SpillRow)
    requires t + w == start + rows
    ensures t + (w + [r]) == start + (rows + [r])
  {
    assert t + (w + [r]) == (t + w) + [r];
    assert start + (rows + [r]) == (start + rows) + [r];
  }

  function RowsOf(incoming: seq<Incoming>, ncolumns: nat): seq<SpillRow>
    requires forall i | 0 <= i < |incoming| :: |incoming[i].values| == |incoming[i].valid| == ncolumns
  {
    if incoming == [] then [] else RowsOf(incoming[..|incoming| - 1], ncolumns) + [RowOf(incoming[|incoming| - 1], ncolumns)]
  }

  lemma RowsOfOne(incoming: seq<Incoming>, r: Incoming, ncolumns: nat)
    requires forall i | 0 <= i < |incoming| :: |incoming[i].values| == |incoming[i].valid| == ncolumns
    requires |r.values| == |r.valid| == ncolumns
    ensures RowsOf(incoming + [r], ncolumns) == RowsOf(incoming, ncolumns) + [RowOf(r, ncolumns)]
  {
    assert (incoming + [r])[..|incoming|] == incoming;
  }

  // ----- totals over partitions -----

  function SumLen<T>(parts: seq<seq<T>>): nat {
    if parts == [] then 0 else |parts[0]| + SumLen(parts[1..])
  }

  lemma {:induction false} SumLenUpdate<T>(parts: seq<seq<T>>, p: nat, part: seq<T>)
    requires p < |parts|
    ensures SumLen(parts[p := part]) + |parts[p]| == SumLen(parts) + |part|
  {
    if p == 0 {
      assert parts[0 := part][1..] == parts[1..];
    } else {
      assert parts[p := part][1..] == parts[1..][p - 1 := part];
      SumLenUpdate(parts[1..], p - 1, part);
    }
  }

  function TotalBytes(tapes: seq<seq<Word>>): nat {
    if tapes == [] then 0 else Bytes(tapes[0]) + TotalBytes(tapes[1..])
  }

  lemma {:induction false} TotalBytesUpdate(tapes: seq<seq<Word>>, p: nat, tape: seq<Word>)
    requires p < |tapes|
    ensures TotalBytes(tapes[p := tape]) + Bytes(tapes[p]) == TotalBytes(tapes) + Bytes(tape)
  {
    if p == 0 {
      assert tapes[0 := tape][1..] == tapes[1..];
    } else {
      assert tapes[p := tape][1..] == tapes[1..][p - 1 := tape];
      TotalBytesUpdate(tapes[1..], p - 1, tape);
    }
  }

  function LiveWriters(writers: seq<Option<Writer>>): nat {
    if writers == [] then 0 else (if writers[0] == None then 0 else 1) + LiveWriters(writers[1..])
  }

  lemma {:induction false} LiveUpdate(writers: seq<Option<Writer>>, p: nat, w: Option<Writer>)
    requires p < |writers|
    ensures LiveWriters(writers[p := w]) + (if writers[p] == None then 0 else 1) ==
            LiveWriters(writers) + if w == None then 0 else 1
  {
    if p == 0 {
      assert writers[0 := w][1..] == writers[1..];
    } else {
      assert writers[p := w][1..] == writers[1..][p - 1 := w];
      LiveUpdate(writers[1..], p - 1, w);
    }
  }

  lemma {:induction false} SomeLive(writers: seq<Option<Writer>>) returns (p: nat)
    requires LiveWriters(writers) > 0
    ensures p < |writers| && writers[p] != None
  {
    if writers[0] != None {
      p := 0;
    } else {
      p := SomeLive(writers[1..]);
      p := p + 1;
    }
  }

  lemma {:induction false} NoneLive(writers: seq<Option<Writer>>)
    requires forall p | 0 <= p < |writers| :: writers[p] == None
    ensures LiveWriters(writers) == 0
  {
    if writers != [] {
      NoneLive(writers[1..]);
    }
  }

  lemma {:induction false} NothingYet<T>(parts: seq<seq<T>>)
    requires forall p | 0 <= p < |parts| :: parts[p] == []
    ensures SumLen(parts) == 0
  {
    if parts != [] {
      NothingYet(parts[1..]);
    }
  }

  lemma {:induction false} NoBytesYet(tapes: seq<seq<Word>>)
    requires forall p | 0 <= p < |tapes| :: tapes[p] == []
    ensures TotalBytes(tapes) == 0
  {
    if tapes != [] {
      NoBytesYet(tapes[1..]);
    }
  }

  // ----- the set -----

  /** What is kept per partition: tape, writer and row count. */
  ghost predicate PartsOk(ncolumns: nat, tapes: seq<seq<Word>>, blocks: seq<seq<Block>>, writers: seq<Option<Writer>>,
                          log: seq<seq<SpillRow>>, rows: seq<nat>)
  {
    && |tapes| == |blocks| == |writers| == |log| == |rows|
    && forall p | 0 <= p < |tapes| :: PartOk(ncolumns, tapes[p], blocks[p], writers[p], log[p], rows[p])
  }

  lemma PartChanged(ncolumns: nat, tapes: seq<seq<Word>>, blocks: seq<seq<Block>>, writers: seq<Option<Writer>>,
                    log: seq<seq<SpillRow>>, rows: seq<nat>, p: nat,
                    tape: seq<Word>, bs: seq<Block>, w: Option<Writer>, l: seq<SpillRow>, n: nat)
    requires PartsOk(ncolumns, tapes, blocks, writers, log, rows) && p < |tapes| && PartOk(ncolumns, tape, bs, w, l, n)
    ensures PartsOk(ncolumns, tapes[p := tape], blocks[p := bs], writers[p := w], log[p := l], rows[p := n])
  {
    hide PartOk;
  }

  lemma PartAt(ncolumns: nat, tapes: seq<seq<Word>>, blocks: seq<seq<Block>>, writers: seq<Option<Writer>>,
               log: seq<seq<SpillRow>>, rows: seq<nat>, p: nat)
    requires PartsOk(ncolumns, tapes, blocks, writers, log, rows) && p < |tapes|
    ensures PartOk(ncolumns, tapes[p], blocks[p], writers[p], log[p], rows[p])
  {}

  lemma PartMeans(ncolumns: nat, tape: seq<Word>, blocks: seq<Block>, w: Option<Writer>, log: seq<SpillRow>, rows: nat)
    requires PartOk(ncolumns, tape, blocks, w, log, rows)
    ensures BlocksOk(blocks, ncolumns) && tape == TapeOf(blocks)
    ensures w != None ==> w.value.Valid(ncolumns) && w.value.nrows < BLOCK
  {}

  lemma PartReleased(ncolumns: nat, tape: seq<Word>, blocks: seq<Block>, w: Writer, log: seq<SpillRow>, rows: nat,
                     after: seq<Word>, blocks': seq<Block>)
    requires PartOk(ncolumns, tape, blocks, Some(w), log, rows) && w.Valid(ncolumns)
    requires BlocksOk(blocks, ncolumns) && BlocksOk(blocks', ncolumns) && after == TapeOf(blocks')
    requires TapeRows(blocks', ncolumns) == TapeRows(blocks, ncolumns) + WriterRows(w, ncolumns)
    ensures PartOk(ncolumns, after, blocks', None, log, rows)
  {
    hide BlocksOk, TapeOf, TapeRows, WriterRows;
    assert TapeRows(blocks', ncolumns) + [] == TapeRows(blocks', ncolumns);
  }

  lemma PartOpened(ncolumns: nat, tape: seq<Word>, blocks: seq<Block>, w: Writer, log: seq<SpillRow>, rows: nat)
    requires PartOk(ncolumns, tape, blocks, None, log, rows) && w.Valid(ncolumns) && w.nrows == 0
    ensures PartOk(ncolumns, tape, blocks, Some(w), log, rows)
  {
    hide BlocksOk, TapeOf, TapeRows;
    NoWriterRows(w, ncolumns);
  }

  lemma PartExtended(ncolumns: nat, tape: seq<Word>, blocks: seq<Block>, w: Writer, log: seq<SpillRow>, rows: nat,
                     after: seq<Word>, blocks': seq<Block>, w': Writer, more: seq<SpillRow>)
    requires PartOk(ncolumns, tape, blocks, Some(w), log, rows) && w.Valid(ncolumns) && BlocksOk(blocks, ncolumns)
    requires BlocksOk(blocks', ncolumns) && after == TapeOf(blocks') && w'.Valid(ncolumns) && w'.nrows < BLOCK
    requires TapeRows(blocks', ncolumns) + WriterRows(w', ncolumns) == TapeRows(blocks, ncolumns) + WriterRows(w, ncolumns) + more
    ensures PartOk(ncolumns, after, blocks', Some(w'), log + more, rows + |more|)
  {
    hide BlocksOk, TapeOf, TapeRows, WriterRows;
  }

  function Next(p: nat, n: nat): (q: nat)
    requires n > 0
    ensures q < n
  {
    (p + 1) % n
  }

  /** The scan of get_writer: the first live writer from the cursor on, around the end. */
  method FindVictim(writers: seq<Option<Writer>>, cursor: nat) returns (victim: nat)
    requires cursor < |writers| && LiveWriters(writers) > 0
    ensures victim < |writers| && writers[victim] != None
  {
    ghost var live := SomeLive(writers);
    ghost var distance := DistanceTo(cursor, live, |writers|);
    var offset := 0;
    while writers[(cursor + offset) % |writers|] == None
      invariant offset <= distance
      decreases distance - offset
    {
      offset := offset + 1;
    }
    victim := (cursor + offset) % |writers|;
  }

  class Spill {
    const ncolumns: nat
    const npartitions: nat
    const maxWriters: nat
    var tapes: seq<seq<Word>>
    var writers: seq<Option<Writer>>
    var partitionRows: seq<nat>
    var active: nat
    var cursor: nat
    var finished: bool
    var frozen: bool
    var rowsWritten: nat
    var blocksWritten: nat
    var bytesWritten: nat
    /** The blocks on each tape, and the rows written to each partition, in order. */
    ghost var blocks: seq<seq<Block>>
    ghost var log: seq<seq<SpillRow>>

    ghost predicate Valid()
      reads this
    {
      && |tapes| == npartitions && 1 <= maxWriters <= npartitions && cursor < npartitions
      && PartsOk(ncolumns, tapes, blocks, writers, log, partitionRows)
      && active == LiveWriters(writers) <= maxWriters
      && bytesWritten == TotalBytes(tapes) && blocksWritten == SumLen(blocks) && rowsWritten == SumLen(log)
      && (finished ==> forall p | 0 <= p < |writers| :: writers[p] == None)
    }

    /** pg_batch_spill_create; the source rejects an empty configuration. */
    constructor (ncolumns: nat, npartitions: nat, buffers: nat)
      requires ncolumns > 0 && npartitions > 0
      ensures Valid() && !finished && this.ncolumns == ncolumns && this.npartitions == npartitions
      ensures log == seq(npartitions, _ => [])
      ensures maxWriters <= if buffers > 0 then buffers else 1
    {
      this.ncolumns, this.npartitions := ncolumns, npartitions;
      var wanted := if buffers > 0 then buffers else 1;
      maxWriters := if wanted < npartitions then wanted else npartitions;
      tapes, writers, partitionRows := seq(npartitions, _ => []), seq(npartitions, _ => None), seq(npartitions, _ => 0);
      active, cursor, finished, frozen, rowsWritten, blocksWritten, bytesWritten := 0, 0, false, false, 0, 0, 0;
      blocks, log := seq(npartitions, _ => []), seq(npartitions, _ => []);
      new;
      NoneLive(writers);
      NothingYet(blocks);
      NothingYet(log);
      NoBytesYet(tapes);
    }

    /** flush_writer and free_writer. */
    method Release(p: nat)
      requires Valid() && p < npartitions && writers[p] != None
      modifies this`tapes, this`writers, this`active, this`blocksWritten, this`bytesWritten, this`blocks
      ensures Valid() && active == old(active) - 1 && writers == old(writers)[p := None]
    {
      hide PartOk, PartsOk, Bytes, TotalBytes, SumLen, LiveWriters, TapeRows, TapeOf, BlocksOk;
      PartAt(ncolumns, tapes, blocks, writers, log, partitionRows, p);
      Lengths(ncolumns, tapes, blocks, writers, log, partitionRows);
      var w := writers[p].value;
      PartMeans(ncolumns, tapes[p], blocks[p], writers[p], log[p], partitionRows[p]);
      var tape, w', bytes;
      ghost var bs;
      tape, w', bytes, bs := FlushPart(ncolumns, tapes[p], blocks[p], w);
      PartReleased(ncolumns, tapes[p], blocks[p], w, log[p], partitionRows[p], tape, bs);
      PartChanged(ncolumns, tapes, blocks, writers, log, partitionRows, p, tape, bs, None, log[p], partitionRows[p]);
      assert log[p := log[p]] == log && partitionRows[p := partitionRows[p]] == partitionRows;
      LiveUpdate(writers, p, None);
      TotalBytesUpdate(tapes, p, tape);
      SumLenUpdate(blocks, p, bs);
      tapes, writers, blocks, active := tapes[p := tape], writers[p := None], blocks[p := bs], active - 1;
      bytesWritten := bytesWritten + bytes;
      if w.nrows > 0 {
        blocksWritten := blocksWritten + 1;
      }
    }

    /** The eviction scan of get_writer: release the first live writer from the cursor on. */
    method Evict()
      requires Valid() && active == maxWriters
      modifies this`tapes, this`writers, this`active, this`blocksWritten, this`bytesWritten, this`blocks, this`cursor
      ensures Valid() && active == old(active) - 1 && |writers| == npartitions
      ensures forall q | 0 <= q < npartitions && old(writers[q]) == None :: writers[q] == None
    {
      hide PartsOk, TotalBytes, SumLen, LiveWriters;
      Lengths(ncolumns, tapes, blocks, writers, log, partitionRows);
      var victim := FindVictim(writers, cursor);
      Release(victim);
      cursor := Next(victim, npartitions);
    }

    /** get_writer */
    method GetWriter(p: nat)
      requires Valid() && p < npartitions && !finished
      modifies this`tapes, this`writers, this`active, this`blocksWritten, this`bytesWritten, this`blocks, this`cursor
      ensures Valid() && |writers| == npartitions && writers[p] != None
    {
      hide PartOk, PartsOk, Bytes, TotalBytes, SumLen, LiveWriters, TapeRows, TapeOf, BlocksOk;
      Lengths(ncolumns, tapes, blocks, writers, log, partitionRows);
      if writers[p] != None {
        return;
      }
      if active == maxWriters {
        Evict();
      }
      Lengths(ncolumns, tapes, blocks, writers, log, partitionRows);
      var w := NewWriter(ncolumns);
      PartAt(ncolumns, tapes, blocks, writers, log, partitionRows, p);
      PartOpened(ncolumns, tapes[p], blocks[p], w, log[p], partitionRows[p]);
      PartChanged(ncolumns, tapes, blocks, writers, log, partitionRows, p, tapes[p], blocks[p], Some(w), log[p], partitionRows[p]);
      assert log[p := log[p]] == log && partitionRows[p := partitionRows[p]] == partitionRows;
      assert tapes[p := tapes[p]] == tapes && blocks[p := blocks[p]] == blocks;
      LiveUpdate(writers, p, Some(w));
      writers, active := writers[p := Some(w)], active + 1;
    }

    /** The rows of one write call, in order. */
    method Append(p: nat, incoming: seq<Incoming>)
      requires Valid() && p < npartitions && !finished && incoming != []
      requires forall i | 0 <= i < |incoming| :: |incoming[i].values| == |incoming[i].valid| == ncolumns
      modifies this
      ensures Valid() && !finished && frozen == old(frozen)
      ensures |log| == npartitions == |old(log)| && log == old(log)[p := old(log)[p] + RowsOf(incoming, ncolumns)]
    {
      hide PartOk, PartsOk, Bytes, TotalBytes, SumLen, LiveWriters, TapeRows, TapeOf, BlocksOk, RowsOf, WriterRows;
      Lengths(ncolumns, tapes, blocks, writers, log, partitionRows);
      GetWriter(p);
      Lengths(ncolumns, tapes, blocks, writers, log, partitionRows);
      PartAt(ncolumns, tapes, blocks, writers, log, partitionRows, p);
      PartMeans(ncolumns, tapes[p], blocks[p], writers[p], log[p], partitionRows[p]);
      ghost var before := writers[p].value;
      var tape, w, bytes, flushed;
      ghost var bs;
      tape, w, bytes, flushed, bs := AppendRows(ncolumns, tapes[p], blocks[p], writers[p].value, incoming);
      ghost var l := log[p] + RowsOf(incoming, ncolumns);
      RowsOfSize(incoming, ncolumns);
      PartExtended(ncolumns, tapes[p], blocks[p], before, log[p], partitionRows[p], tape, bs, w, RowsOf(incoming, ncolumns));
      PartChanged(ncolumns, tapes, blocks, writers, log, partitionRows, p, tape, bs, Some(w), l, partitionRows[p] + |incoming|);
      LiveUpdate(writers, p, Some(w));
      TotalBytesUpdate(tapes, p, tape);
      SumLenUpdate(blocks, p, bs);
      SumLenUpdate(log, p, l);
      tapes, writers, blocks, log := tapes[p := tape], writers[p := Some(w)], blocks[p := bs], log[p := l];
      partitionRows := partitionRows[p := partitionRows[p] + |incoming|];
      rowsWritten, blocksWritten, bytesWritten := rowsWritten + |incoming|, blocksWritten + flushed, bytesWritten + bytes;
    }

    /** pg_batch_spill_write: the selected rows of borrowed vectors. */
    method Write(p: nat, columns: seq<Vector<int>>, selected: seq<bool>, hashes: seq<nat>) returns (ok: bool)
      requires Valid() && |columns| == ncolumns && |selected| <= |hashes|
      requires forall c | 0 <= c < ncolumns :: columns[c].Covers(|selected|)
      modifies this
      ensures Valid() && finished == old(finished) && frozen == old(frozen)
      ensures ok == (p < npartitions && !finished && |selected| <= 64)
      ensures !ok ==> log == old(log)
      ensures ok ==> |log| == npartitions == |old(log)| &&
                     log == old(log)[p := old(log)[p] + VectorRows(columns, selected, hashes, |selected|)]
    {
      hide PartsOk, VectorRows, RowsOf;
      if p >= npartitions || finished || |selected| > BLOCK {
        return false;
      }
      Lengths(ncolumns, tapes, blocks, writers, log, partitionRows);
      var incoming := Gather(columns, selected, hashes);
      if incoming != [] {
        Append(p, incoming);
      } else {
        NoRowsOf(ncolumns);
        assert log[p] + [] == log[p];
        assert log[p := log[p]] == log;
      }
      ok := true;
    }

    /** pg_batch_spill_write_dense: rows of packed column-major values. */
    method WriteDense(p: nat, nrows: nat, hashes: seq<nat>, values: seq<int>, stride: nat, validity: seq<seq<bool>>)
      returns (ok: bool)
      requires Valid() && |hashes| >= nrows && |validity| == ncolumns
      requires nrows <= stride ==> |values| >= ncolumns * stride
      requires forall c | 0 <= c < ncolumns :: |validity[c]| >= nrows
      modifies this
      ensures Valid() && finished == old(finished) && frozen == old(frozen)
      ensures ok == (p < npartitions && !finished && 0 < nrows <= 64 && stride >= nrows)
      ensures !ok ==> log == old(log)
      ensures ok ==> |log| == npartitions == |old(log)| && log == old(log)[p := log[p]]
      ensures ok ==> |log[p]| == |old(log)[p]| + nrows && old(log)[p] <= log[p]
      ensures ok ==> forall i | |old(log)[p]| <= i < |log[p]| ::
                       IsDenseRow(log[p][i], ncolumns, i - |old(log)[p]|, hashes, values, stride, validity)
    {
      hide PartsOk, RowsOf, Dense, IsDenseRow;
      if p >= npartitions || finished || nrows == 0 || nrows > BLOCK || stride < nrows {
        return false;
      }
      Lengths(ncolumns, tapes, blocks, writers, log, partitionRows);
      var incoming := GatherDense(ncolumns, nrows, hashes, values, stride, validity);
      Append(p, incoming);
      DenseWritten(old(log)[p], log[p], incoming, ncolumns, hashes, values, stride, validity);
      ok := true;
    }

    /** pg_batch_spill_finish: flush and free every writer; a second call is an error. */
    method Finish(freeze: bool) returns (ok: bool)
      requires Valid()
      modifies this
      ensures Valid() && finished && log == old(log) && ok == !old(finished)
      ensures ok ==> frozen == freeze
      ensures |tapes| == |blocks| == |log| == npartitions
      ensures forall p | 0 <= p < npartitions :: TapeIs(ncolumns, tapes[p], blocks[p], log[p])
    {
      hide PartsOk, TapeIs;
      if finished {
        AllTapes(ncolumns, tapes, blocks, writers, log, partitionRows);
        return false;
      }
      Lengths(ncolumns, tapes, blocks, writers, log, partitionRows);
      for p := 0 to npartitions
        invariant Valid() && !finished && log == old(log) && |writers| == npartitions
        invariant forall q | 0 <= q < p :: writers[q] == None
        modifies this`tapes, this`writers, this`active, this`blocksWritten, this`bytesWritten, this`blocks
      {
        if writers[p] != None {
          Release(p);
        }
      }
      finished, frozen := true, freeze;
      AllTapes(ncolumns, tapes, blocks, writers, log, partitionRows);
      ok := true;
    }
  }

  lemma Lengths(ncolumns: nat, tapes: seq<seq<Word>>, blocks: seq<seq<Block>>, writers: seq<Option<Writer>>,
                log: seq<seq<SpillRow>>, rows: seq<nat>)
    requires PartsOk(ncolumns, tapes, blocks, writers, log, rows)
    ensures |tapes| == |blocks| == |writers| == |log| == |rows|
  {}

  lemma DistanceTo(cursor: nat, live: nat, n: nat) returns (d: nat)
    requires cursor < n && live < n
    ensures d < n && (cursor + d) % n == live
  {
    d := if live >= cursor then live - cursor else live + n - cursor;
  }

  lemma NoRowsOf(ncolumns: nat)
    ensures RowsOf([], ncolumns) == []
  {}

  /** The selected rows of a write, in row order. */
  method Gather(columns: seq<Vector<int>>, selected: seq<bool>, hashes: seq<nat>) returns (incoming: seq<Incoming>)
    requires |selected| <= |hashes| && forall c | 0 <= c < |columns| :: columns[c].Covers(|selected|)
    ensures forall i | 0 <= i < |incoming| :: |incoming[i].values| == |incoming[i].valid| == |columns|
    ensures RowsOf(incoming, |columns|) == VectorRows(columns, selected, hashes, |selected|)
  {
    incoming := [];
    for row := 0 to |selected|
      invariant forall i | 0 <= i < |incoming| :: |incoming[i].values| == |incoming[i].valid| == |columns|
      invariant RowsOf(incoming, |columns|) == VectorRows(columns, selected, hashes, row)
    {
      if selected[row] {
        var r := TakeRow(columns, row, hashes[row]);
        TakeRowIsRow(columns, row, hashes[row]);
        RowsOfOne(incoming, r, |columns|);
        incoming := incoming + [r];
      }
    }
  }

  /** Row `r` of packed columns: column `c` of it lies at `c * stride + r`, and is NULL where its
      validity bit is clear. */
  ghost predicate IsDenseRow(row: SpillRow, n: nat, r: nat, hashes: seq<nat>, values: seq<int>, stride: nat,
                             validity: seq<seq<bool>>)
    requires r < |hashes| && r < stride && |values| >= n * stride && |validity| == n
    requires forall c | 0 <= c < n :: r < |validity[c]|
  {
    && row.hash == hashes[r] && |row.values| == n
    && forall c | 0 <= c < n ::
         row.values[c] == (StrideIndex(c, n, stride, r); if validity[c][r] then Some(values[c * stride + r]) else None)
  }

  /** The received rows are the rows of the packed columns, in order. */
  ghost predicate Dense(incoming: seq<Incoming>, n: nat, hashes: seq<nat>, values: seq<int>, stride: nat,
                        validity: seq<seq<bool>>)
    requires |incoming| <= |hashes| && |incoming| <= stride && |values| >= n * stride && |validity| == n
    requires forall c | 0 <= c < n :: |incoming| <= |validity[c]|
    requires forall i | 0 <= i < |incoming| :: |incoming[i].values| == |incoming[i].valid| == n
  {
    forall r | 0 <= r < |incoming| :: IsDenseRow(RowOf(incoming[r], n), n, r, hashes, values, stride, validity)
  }

  lemma {:induction false} RowsOfAt(incoming: seq<Incoming>, ncolumns: nat, r: nat)
    requires forall i | 0 <= i < |incoming| :: |incoming[i].values| == |incoming[i].valid| == ncolumns
    requires r < |incoming|
    ensures |RowsOf(incoming, ncolumns)| == |incoming|
    ensures RowsOf(incoming, ncolumns)[r] == RowOf(incoming[r], ncolumns)
  {
    hide RowOf;
    var n := |incoming| - 1;
    RowsOfSize(incoming[..n], ncolumns);
    if r < n {
      RowsOfAt(incoming[..n], ncolumns, r);
    }
  }

  /** What such rows are once they stand at the end of a log. */
  lemma DenseWritten(was: seq<SpillRow>, now: seq<SpillRow>, incoming: seq<Incoming>, n: nat, hashes: seq<nat>,
                     values: seq<int>, stride: nat, validity: seq<seq<bool>>)
    requires |incoming| <= |hashes| && |incoming| <= stride && |values| >= n * stride && |validity| == n
    requires forall c | 0 <= c < n :: |incoming| <= |validity[c]|
    requires forall i | 0 <= i < |incoming| :: |incoming[i].values| == |incoming[i].valid| == n
    requires Dense(incoming, n, hashes, values, stride, validity) && now == was + RowsOf(incoming, n)
    ensures |now| == |was| + |incoming| && was <= now
    ensures forall i | |was| <= i < |now| :: IsDenseRow(now[i], n, i - |was|, hashes, values, stride, validity)
  {
    hide IsDenseRow, RowsOf, RowOf;
    RowsOfSize(incoming, n);
    forall i | |was| <= i < |now|
      ensures IsDenseRow(now[i], n, i - |was|, hashes, values, stride, validity)
    {
      assert now[i] == RowsOf(incoming, n)[i - |was|];
      RowsOfAt(incoming, n, i - |was|);
    }
  }

  method GatherDense(n: nat, nrows: nat, hashes: seq<nat>, values: seq<int>, stride: nat, validity: seq<seq<bool>>)
    returns (incoming: seq<Incoming>)
    requires nrows <= |hashes| && nrows <= stride && |values| >= n * stride && |validity| == n
    requires forall c | 0 <= c < n :: nrows <= |validity[c]|
    ensures |incoming| == nrows && forall i | 0 <= i < nrows :: |incoming[i].values| == |incoming[i].valid| == n
    ensures Dense(incoming, n, hashes, values, stride, validity)
  {
    hide IsDenseRow, RowOf;
    incoming := [];
    for row := 0 to nrows
      invariant |incoming| == row && forall i | 0 <= i < row :: |incoming[i].values| == |incoming[i].valid| == n
      invariant Dense(incoming, n, hashes, values, stride, validity)
    {
      var r := TakeDense(n, row, hashes[row], values, stride, validity);
      AlsoDense(r, n, row, hashes, values, stride, validity);
      incoming := incoming + [r];
    }
  }

  /** The loop over columns of one row. */
  method TakeDense(n: nat, row: nat, hash: nat, values: seq<int>, stride: nat, validity: seq<seq<bool>>)
    returns (r: Incoming)
    requires row < stride && |values| >= n * stride && |validity| == n && forall c | 0 <= c < n :: row < |validity[c]|
    ensures r.hash == hash && |r.values| == |r.valid| == n
    ensures forall c | 0 <= c < n :: r.valid[c] == validity[c][row]
    ensures forall c | 0 <= c < n :: r.values[c] == (StrideIndex(c, n, stride, row); values[c * stride + row])
  {
    var taken, valid := [], [];
    for column := 0 to n
      invariant |taken| == |valid| == column
      invariant forall c | 0 <= c < column :: valid[c] == validity[c][row]
      invariant forall c | 0 <= c < column :: taken[c] == (StrideIndex(c, n, stride, row); values[c * stride + row])
    {
      StrideIndex(column, n, stride, row);
      taken, valid := taken + [values[column * stride + row]], valid + [validity[column][row]];
    }
    r := Incoming(hash, taken, valid);
  }

  lemma AlsoDense(r: Incoming, n: nat, row: nat, hashes: seq<nat>, values: seq<int>, stride: nat,
                  validity: seq<seq<bool>>)
    requires row < |hashes| && row < stride && |values| >= n * stride && |validity| == n
    requires forall c | 0 <= c < n :: row < |validity[c]|
    requires r.hash == hashes[row] && |r.values| == |r.valid| == n
    requires forall c | 0 <= c < n :: r.valid[c] == validity[c][row]
    requires forall c | 0 <= c < n :: r.values[c] == (StrideIndex(c, n, stride, row); values[c * stride + row])
    ensures IsDenseRow(RowOf(r, n), n, row, hashes, values, stride, validity)
  {}

  lemma {:induction false} RowsOfSize(incoming: seq<Incoming>, ncolumns: nat)
    requires forall i | 0 <= i < |incoming| :: |incoming[i].values| == |incoming[i].valid| == ncolumns
    ensures |RowsOf(incoming, ncolumns)| == |incoming|
  {
    if incoming != [] {
      RowsOfSize(incoming[..|incoming| - 1], ncolumns);
    }
  }

  /** A row of borrowed vectors, NULLs included. */
  function VectorRow(columns: seq<Vector<int>>, row: nat, hash: nat): SpillRow
    requires forall c | 0 <= c < |columns| :: columns[c].Covers(row + 1)
  {
    SpillRow(hash, seq(|columns|, c requires 0 <= c < |columns| => columns[c].At(row)))
  }

  /** The selected rows among the first `n`. */
  function VectorRows(columns: seq<Vector<int>>, selected: seq<bool>, hashes: seq<nat>, n: nat): seq<SpillRow>
    requires n <= |selected| <= |hashes| && forall c | 0 <= c < |columns| :: columns[c].Covers(|selected|)
  {
    if n == 0 then []
    else
      var before := VectorRows(columns, selected, hashes, n - 1);
      if selected[n - 1] then before + [VectorRow(columns, n - 1, hashes[n - 1])] else before
  }

  /** What the write loop copies for one row: a NULL is stored as zero without its bit. */
  function TakeRow(columns: seq<Vector<int>>, row: nat, hash: nat): (r: Incoming)
    requires forall c | 0 <= c < |columns| :: columns[c].Covers(row + 1)
    ensures |r.values| == |r.valid| == |columns|
  {
    Incoming(hash,
             seq(|columns|, c requires 0 <= c < |columns| => if columns[c].IsNull(row) then 0 else columns[c].ValueAt(row)),
             seq(|columns|, c requires 0 <= c < |columns| => !columns[c].IsNull(row)))
  }

  lemma TakeRowIsRow(columns: seq<Vector<int>>, row: nat, hash: nat)
    requires forall c | 0 <= c < |columns| :: columns[c].Covers(row + 1)
    ensures RowOf(TakeRow(columns, row, hash), |columns|) == VectorRow(columns, row, hash)
  {
    assert RowOf(TakeRow(columns, row, hash), |columns|).values == VectorRow(columns, row, hash).values;
  }

  lemma StrideIndex(c: nat, n: nat, stride: nat, row: nat)
    requires c < n && row < stride
    ensures c * stride + row < n * stride
  {
    DistributeLeft(c, n - c, stride);
    AtLeast(stride, n - c);
    Commute(stride, n - c);
  }

  /** A finished tape: whole blocks that hold the rows written, in order. */
  ghost predicate TapeIs(ncolumns: nat, tape: seq<Word>, blocks: seq<Block>, log: seq<SpillRow>) {
    BlocksOk(blocks, ncolumns) && tape == TapeOf(blocks) && TapeRows(blocks, ncolumns) == log
  }

  lemma AllTapes(ncolumns: nat, tapes: seq<seq<Word>>, blocks: seq<seq<Block>>, writers: seq<Option<Writer>>,
                 log: seq<seq<SpillRow>>, rows: seq<nat>)
    requires PartsOk(ncolumns, tapes, blocks, writers, log, rows)
    requires forall p | 0 <= p < |writers| :: writers[p] == None
    ensures |tapes| == |blocks| == |log|
    ensures forall p | 0 <= p < |tapes| :: TapeIs(ncolumns, tapes[p], blocks[p], log[p])
  {
    forall p | 0 <= p < |tapes|
      ensures TapeIs(ncolumns, tapes[p], blocks[p], log[p])
    {
      assert PartOk(ncolumns, tapes[p], blocks[p], writers[p], log[p], rows[p]);
      assert TapeRows(blocks[p], ncolumns) + [] == TapeRows(blocks[p], ncolumns);
    }
  }

  // ----- reading back -----

  /** A reader over one partition of a finished set. */
  class Reader {
    const ncolumns: nat
    const tape: seq<Word>
    const rewindable: bool
    var position: nat
    ghost const blocks: seq<Block>
    ghost var read: nat

    ghost predicate Valid()
      reads this
    {
      BlocksOk(blocks, ncolumns) && tape == TapeOf(blocks) && read <= |blocks| && position == |TapeOf(blocks[..read])|
    }

    constructor (ncolumns: nat, tape: seq<Word>, frozen: bool, ghost blocks: seq<Block>)
      requires BlocksOk(blocks, ncolumns) && tape == TapeOf(blocks)
      ensures Valid() && read == 0 && this.blocks == blocks && this.ncolumns == ncolumns && rewindable == frozen
    {
      this.ncolumns, this.tape, this.rewindable, this.blocks := ncolumns, tape, frozen, blocks;
      position, read := 0, 0;
    }

    /** pg_batch_spill_reader_next: the next block as it was written; never a damaged one. */
    method Next() returns (block: Option<Block>)
      requires Valid()
      modifies this`position, this`read
      ensures Valid()
      ensures block == None <==> old(read) == |blocks|
      ensures block != None ==> block.value == blocks[old(read)] && block.value.Valid(ncolumns) && read == old(read) + 1
      ensures block == None ==> read == old(read)
    {
      hide TapeOf, ReadBlock, BlockWords;
      if read < |blocks| {
        BlockStands(blocks, read);
        BlockBack(tape, position, blocks[read], ncolumns);
      } else {
        assert blocks[..read] == blocks;
        EndOfTape(tape, ncolumns);
      }
      var r := ReadBlock(tape, position, ncolumns);
      match r {
        case Got(b, next) =>
          position, read := next, read + 1;
          block := Some(b);
        case _ => block := None;
      }
    }

    /** pg_batch_spill_reader_rewind: an error unless the set was finished frozen. */
    method Rewind() returns (ok: bool)
      requires Valid()
      modifies this`position, this`read
      ensures Valid() && ok == rewindable
      ensures read == if ok then 0 else old(read)
    {
      if !rewindable {
        return false;
      }
      position, read := 0, 0;
      ok := true;
    }

    /** Reading to the end returns the rows not read yet, in the order written. */
    method ReadRest() returns (rows: seq<SpillRow>)
      requires Valid()
      modifies this`position, this`read
      ensures Valid() && read == |blocks|
      ensures TapeRows(blocks[..old(read)], ncolumns) + rows == TapeRows(blocks, ncolumns)
    {
      hide TapeOf, TapeRows, BlocksOk;
      rows := [];
      PrefixOk(blocks, read, ncolumns);
      ghost var start := TapeRows(blocks[..read], ncolumns);
      assert start + [] == start;
      while true
        invariant Valid() && BlocksOk(blocks[..read], ncolumns) && start + rows == TapeRows(blocks[..read], ncolumns)
        decreases |blocks| - read
      {
        ghost var before := read;
        var block := Next();
        if block == None {
          assert blocks[..read] == blocks;
          return;
        }
        PrefixOk(blocks, read, ncolumns);
        OneMoreBlock(blocks, before, ncolumns);
        assert start + (rows + BlockRows(block.value, ncolumns)) == (start + rows) + BlockRows(block.value, ncolumns);
        rows := rows + BlockRows(block.value, ncolumns);
      }
    }
  }

  lemma PrefixOk(blocks: seq<Block>, k: nat, ncolumns: nat)
    requires BlocksOk(blocks, ncolumns) && k <= |blocks|
    ensures BlocksOk(blocks[..k], ncolumns)
  {}

  lemma OneMoreBlock(blocks: seq<Block>, k: nat, ncolumns: nat)
    requires BlocksOk(blocks, ncolumns) && k < |blocks|
    ensures BlocksOk(blocks[..k], ncolumns) && BlocksOk(blocks[..k + 1], ncolumns)
    ensures TapeRows(blocks[..k + 1], ncolumns) == TapeRows(blocks[..k], ncolumns) + BlockRows(blocks[k], ncolumns)
  {
    assert blocks[..k + 1][..k] == blocks[..k];
  }

  lemma EndOfTape(tape: seq<Word>, ncolumns: nat)
    ensures ReadBlock(tape, |tape|, ncolumns) == End
  {}

  /** A finished partition is read back exactly as written; a frozen one any number of times. */
  method ReadTwice(spill: Spill, p: nat) returns (first: seq<SpillRow>, ok: bool, again: seq<SpillRow>)
    requires spill.Valid() && spill.finished && p < spill.npartitions
    ensures p < |spill.log| && first == spill.log[p]
    ensures ok == spill.frozen && (ok ==> again == first)
  {
    hide PartsOk, TapeOf, BlocksOk, TotalBytes, SumLen, LiveWriters;
    AllTapes(spill.ncolumns, spill.tapes, spill.blocks, spill.writers, spill.log, spill.partitionRows);
    var reader := new Reader(spill.ncolumns, spill.tapes[p], spill.frozen, spill.blocks[p]);
    first := reader.ReadRest();
    assert spill.blocks[p][..0] == [];
    assert [] + first == first;
    ok := reader.Rewind();
    again := [];
    if ok {
      again := reader.ReadRest();
      assert [] + again == again;
    }
  }
}
