/** The accounting journal as bytes, and the reader that cuts it into records
    (deploy/network/accounting_replay.py). */
module JournalRecords {
  import opened Common

  type Byte = b: int | 0 <= b < 256

  type Bytes = seq<Byte>

  const TAB: Byte := 9
  const LF: Byte := 10
  const CR: Byte := 13
  const SPACE: Byte := 32

  const MAX_BLOCK := 32768
  const MAX_LINE := 4096

  /** What `bytes.strip` removes. */
  predicate White(b: Byte) { b in {9, 10, 11, 12, 13, 32} }

  predicate Blank(line: Bytes) { forall k :: 0 <= k < |line| ==> White(line[k]) }

  /** Where a line that starts at `pos` ends: after its first line feed, or at `stop`. */
  function LineEnd(file: Bytes, pos: nat, stop: nat): (end: nat)
    requires pos <= stop <= |file|
    ensures pos <= end <= stop && (pos < stop ==> pos < end)
    ensures forall k :: pos <= k < end - 1 ==> file[k] != LF
    ensures end < stop ==> pos < end && file[end - 1] == LF
    decreases stop - pos
  {
    if pos == stop then pos
    else if file[pos] == LF then pos + 1
    else LineEnd(file, pos + 1, stop)
  }

  /** `readline(MAX_LINE + 2)`: the end of the line it returns. */
  function ReadLine(file: Bytes, pos: nat): (end: nat)
    requires pos <= |file|
    ensures pos <= end <= |file| && (pos < |file| ==> pos < end)
  {
    LineEnd(file, pos, Min(|file|, pos + MAX_LINE + 2))
  }

  predicate EndsLine(file: Bytes, pos: nat, end: nat)
    requires pos <= end <= |file|
  {
    pos < end && file[end - 1] == LF
  }

  predicate TooLong(block: Bytes, length: int) { length > MAX_LINE || |block| + length > MAX_BLOCK }

  /** What `_block` answers: a record and where reading goes on, nothing more to read, a
      record still being written, or an error. */
  datatype Outcome = Record(block: Bytes, next: nat) | End | Incomplete | Oversized

  /** `_block` from position `pos`, with `block` already gathered. */
  function NextBlock(file: Bytes, pos: nat, block: Bytes): (r: Outcome)
    requires pos <= |file|
    ensures r.Record? ==> pos < r.next <= |file| && r.block != []
    decreases |file| - pos
  {
    var end := ReadLine(file, pos);
    if end == pos then (if block == [] then End else Incomplete)
    else if TooLong(block, end - pos) then Oversized
    else if file[end - 1] != LF then Incomplete
    else if Blank(file[pos..end]) then
      if block != [] then Record(block, end) else NextBlock(file, end, [])
    else NextBlock(file, end, block + file[pos..end])
  }

  /** A record of the journal: its bytes, where the blank line that ends it starts and ends. */
  datatype Item = Item(block: Bytes, stop: nat, next: nat)

  /** Reading goes on past the line at `pos`. */
  predicate Whole(file: Bytes, pos: nat, block: Bytes)
    requires pos <= |file|
  {
    var end := ReadLine(file, pos);
    pos < end && file[end - 1] == LF && !TooLong(block, end - pos)
  }

  /** The record gathered so far, after one more line. */
  function Gathered(block: Bytes, line: Bytes): Bytes { if Blank(line) then [] else block + line }

  /** The record that the line at `pos` completes, if any. */
  function Completed(file: Bytes, pos: nat, end: nat, block: Bytes): (r: seq<Item>)
    requires pos <= end <= |file|
  {
    if block != [] && Blank(file[pos..end]) then [Item(block, pos, end)] else []
  }

  /** All the records from `pos` on, line by line, with `block` already gathered. */
  function Records(file: Bytes, pos: nat, block: Bytes): (r: seq<Item>)
    requires pos <= |file|
    ensures forall k :: 0 <= k < |r| ==> pos <= r[k].stop < r[k].next <= |file| && (block == [] ==> pos < r[k].stop)
    ensures forall j, k :: 0 <= j < k < |r| ==> r[j].next < r[k].stop
    decreases |file| - pos
  {
    if !Whole(file, pos, block) then []
    else
      var end := ReadLine(file, pos);
      Completed(file, pos, end, block) + Records(file, end, Gathered(block, file[pos..end]))
  }

  /** Reading from `pos` meets no line or record over its bound. */
  predicate Clean(file: Bytes, pos: nat, block: Bytes)
    requires pos <= |file|
    decreases |file| - pos
  {
    var end := ReadLine(file, pos);
    if Whole(file, pos, block) then Clean(file, end, Gathered(block, file[pos..end]))
    else end == pos || !TooLong(block, end - pos)
  }

  /** The records are what repeated calls of `_block` give, each from where the last ended. */
  lemma {:induction false} RecordsAreBlocks(file: Bytes, pos: nat, block: Bytes)
    requires pos <= |file|
    ensures Records(file, pos, block) == FromBlock(file, NextBlock(file, pos, block), Records(file, pos, block))
    decreases |file| - pos
  {
    hide ReadLine, Blank;
    if Whole(file, pos, block) {
      var end := ReadLine(file, pos);
      if !Blank(file[pos..end]) || block == [] {
        RecordsAreBlocks(file, end, Gathered(block, file[pos..end]));
      }
    }
  }

  /** The records that an answer of `_block` starts; the place of its blank line is taken from `items`. */
  function FromBlock(file: Bytes, r: Outcome, items: seq<Item>): seq<Item>
    requires r.Record? ==> r.next <= |file|
  {
    match r
    case Record(block, next) =>
      [Item(block, if items == [] then 0 else items[0].stop, next)] + Records(file, next, [])
    case _ => []
  }

  /* ---- appending ---- */

  /** Appending moves the end of a line only when the line was still open at the end of the file. */
  lemma {:induction false} LineEndMoves(file: Bytes, more: Bytes, pos: nat, stop: nat, stop': nat)
    requires pos <= stop <= |file| && stop <= stop' <= |file + more|
    ensures var end, end' := LineEnd(file, pos, stop), LineEnd(file + more, pos, stop');
            end <= end' && ((pos < end && file[end - 1] == LF) || stop == stop' ==> end' == end)
    decreases stop - pos
  {
    if pos < stop {
      assert (file + more)[pos] == file[pos];
      if file[pos] != LF {
        LineEndMoves(file, more, pos + 1, stop, stop');
      }
    }
  }

  lemma ReadLineAppends(file: Bytes, more: Bytes, pos: nat)
    requires pos <= |file|
    ensures var end, end' := ReadLine(file, pos), ReadLine(file + more, pos);
            end <= end' && (EndsLine(file, pos, end) ==> end' == end)
    ensures EndsLine(file, pos, ReadLine(file, pos)) ==>
              (file + more)[pos..ReadLine(file, pos)] == file[pos..ReadLine(file, pos)]
              && (file + more)[ReadLine(file, pos) - 1] == LF
  {
    LineEndMoves(file, more, pos, Min(|file|, pos + MAX_LINE + 2), Min(|file + more|, pos + MAX_LINE + 2));
  }

  /** A record once read is read the same after any append, even one in the middle of a line. */
  lemma {:induction false} RecordStands(file: Bytes, more: Bytes, pos: nat, block: Bytes)
    requires pos <= |file|
    ensures NextBlock(file, pos, block).Record? || NextBlock(file, pos, block).Oversized? ==>
              NextBlock(file + more, pos, block) == NextBlock(file, pos, block)
    decreases |file| - pos
  {
    var end := ReadLine(file, pos);
    ReadLineAppends(file, more, pos);
    if EndsLine(file, pos, end) && !TooLong(block, end - pos) {
      var line := file[pos..end];
      if !Blank(line) {
        RecordStands(file, more, end, block + line);
      } else if block == [] {
        RecordStands(file, more, end, []);
      }
    }
  }

  lemma WholeMoves(file: Bytes, pos: nat, block: Bytes)
    requires pos <= |file| && Whole(file, pos, block)
    ensures pos < ReadLine(file, pos)
  {
  }

  lemma WholeAppends(file: Bytes, more: Bytes, pos: nat, block: Bytes)
    requires pos <= |file| && Whole(file, pos, block)
    ensures var end := ReadLine(file, pos);
            && Whole(file + more, pos, block) && ReadLine(file + more, pos) == end
            && (file + more)[pos..end] == file[pos..end]
            && Completed(file + more, pos, end, block) == Completed(file, pos, end, block)
  {
    hide ReadLine, Blank;
    ReadLineAppends(file, more, pos);
  }

  /** Appending only adds records at the end. */
  lemma {:induction false} RecordsAppend(file: Bytes, more: Bytes, pos: nat, block: Bytes)
    requires pos <= |file|
    ensures Records(file, pos, block) <= Records(file + more, pos, block)
    decreases |file| - pos
  {
    hide ReadLine, Blank, Whole, Completed, Gathered;
    if Whole(file, pos, block) {
      var end := ReadLine(file, pos);
      WholeAppends(file, more, pos, block);
      assert end > pos by { WholeMoves(file, pos, block); }
      RecordsAppend(file, more, end, Gathered(block, file[pos..end]));
    }
  }

  /** Where reading goes on after the first `k` records. */
  function Offset(items: seq<Item>, k: nat): nat
    requires k <= |items|
  {
    if k == 0 then 0 else items[k - 1].next
  }

  /** Reading on from the end of any record gives exactly the records after it. */
  lemma {:induction false} ResumeFrom(file: Bytes, pos: nat, block: Bytes, k: nat)
    requires pos <= |file| && k < |Records(file, pos, block)|
    ensures Records(file, Records(file, pos, block)[k].next, []) == Records(file, pos, block)[k + 1..]
    decreases |file| - pos
  {
    hide ReadLine, Blank;
    var end := ReadLine(file, pos);
    var first := Completed(file, pos, end, block);
    var rest := Records(file, end, Gathered(block, file[pos..end]));
    assert Records(file, pos, block) == first + rest;
    if k < |first| {
      assert (first + rest)[1..] == rest;
    } else {
      ResumeFrom(file, end, Gathered(block, file[pos..end]), k - |first|);
      assert (first + rest)[k + 1..] == rest[k - |first| + 1..];
    }
  }

  /** From a saved offset, after any appends, reading gives the remaining records of reading from zero. */
  lemma SplitResumes(file: Bytes, more: Bytes, k: nat)
    requires k <= |Records(file, 0, [])|
    ensures var all := Records(file + more, 0, []);
            && Records(file, 0, []) <= all
            && Records(file + more, Offset(Records(file, 0, []), k), []) == all[k..]
  {
    hide Records;
    RecordsAppend(file, more, 0, []);
    if k > 0 {
      ResumeFrom(file + more, 0, [], k - 1);
    }
  }

  /* ---- the reader ---- */

  class JournalStream {
    var file: Bytes
    var position: nat

    ghost predicate Valid()
      reads this
    {
      position <= |file|
    }

    constructor (bytes: Bytes)
      ensures Valid() && file == bytes && position == 0
    {
      file, position := bytes, 0;
    }

    /** `_block`: gathers lines until a blank one ends the record. */
    method Block() returns (r: Outcome)
      requires Valid()
      modifies this`position
      ensures Valid()
      ensures r == NextBlock(file, old(position), [])
      ensures r.Record? ==> position == r.next
    {
      hide ReadLine;
      var block: Bytes := [];
      while true
        invariant position <= |file|
        invariant NextBlock(file, old(position), []) == NextBlock(file, position, block)
        decreases |file| - position
      {
        var start := position;
        position := ReadLine(file, start);
        var line := file[start..position];
        if line == [] {
          return if block == [] then End else Incomplete;
        }
        if |line| > MAX_LINE || |block| + |line| > MAX_BLOCK {
          return Oversized;
        }
        if line[|line| - 1] != LF {
          return Incomplete;
        }
        if Blank(line) {
          if block != [] {
            return Record(block, position);
          }
        } else {
          block := block + line;
        }
      }
    }
  }
}
