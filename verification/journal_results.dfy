/** What is read back from a journal that was written record by record, and where reading stops. */
module JournalResults {
  import opened Common
  import opened JournalRecords
  import B = JournalBackup
  import R = JournalReplay

  /** Only spaces, tabs, line feeds, vertical tabs, form feeds and carriage returns. */
  predicate Empty(line: Bytes) {
    forall k :: 0 <= k < |line| ==> line[k] == 32 || 9 <= line[k] <= 13
  }

  /** At most 4096 bytes, the last of them the only line feed. */
  predicate Line(line: Bytes) {
    && 1 <= |line| <= 4096 && line[|line| - 1] == 10
    && forall k :: 0 <= k < |line| - 1 ==> line[k] != 10
  }

  /** A detail record: lines with something in them, 32767 bytes at most. */
  predicate Detail(lines: seq<Bytes>) {
    && lines != [] && |Joined(lines)| <= 32_767
    && forall k :: 0 <= k < |lines| ==> Line(lines[k]) && !Empty(lines[k])
  }

  function Joined(lines: seq<Bytes>): Bytes { if lines == [] then [] else lines[0] + Joined(lines[1..]) }

  /** Each record followed by an empty line. */
  function Written(details: seq<seq<Bytes>>): Bytes {
    if details == [] then [] else Joined(details[0]) + [10] + Written(details[1..])
  }

  lemma EmptyIsBlank(line: Bytes)
    ensures Blank(line) <==> Empty(line)
  {
  }

  /** `line` is read at `pos` and fits. */
  predicate Fits(file: Bytes, pos: nat, end: nat, line: Bytes, block: Bytes) {
    && pos < end <= |file| && file[pos..end] == line && ReadLine(file, pos) == end && file[end - 1] == 10
    && |line| <= 4096 && |block| + |line| <= 32_768
  }

  /** A line within its bounds is read whole. */
  lemma ReadsLine(before: Bytes, line: Bytes, rest: Bytes, block: Bytes)
    requires Line(line) && |block| + |line| <= 32_768
    ensures Fits(before + line + rest, |before|, |before| + |line|, line, block)
  {
    hide ReadLine;
    var file, end := before + line + rest, |before| + |line|;
    assert file[|before|..end] == line;
    assert forall k :: |before| <= k < end ==> file[k] == line[k - |before|];
    B.LineEndIs(file, |before|, end);
  }

  lemma LineStep(file: Bytes, pos: nat, end: nat, block: Bytes)
    requires pos < end <= |file| && ReadLine(file, pos) == end && file[end - 1] == 10
    requires end - pos <= 4096 && |block| + (end - pos) <= 32_768
    ensures NextBlock(file, pos, block)
            == if !Blank(file[pos..end]) then NextBlock(file, end, block + file[pos..end])
               else if block == [] then NextBlock(file, end, []) else Record(block, end)
    ensures Records(file, pos, block)
            == if !Blank(file[pos..end]) then Records(file, end, block + file[pos..end])
               else (if block == [] then [] else [Item(block, pos, end)]) + Records(file, end, [])
  {
    hide ReadLine, Blank;
    B.RecordsUnfold(file, pos, block);
    var rest := Records(file, end, Gathered(block, file[pos..end]));
    assert [] + rest == rest;
  }

  lemma LineAdded(file: Bytes, pos: nat, end: nat, line: Bytes, block: Bytes)
    requires Fits(file, pos, end, line, block) && !Blank(line)
    ensures NextBlock(file, pos, block) == NextBlock(file, end, block + line) && Records(file, pos, block) == Records(file, end, block + line)
  {
    hide NextBlock, Records, Blank, ReadLine;
    LineStep(file, pos, end, block);
  }

  lemma LineEnds(file: Bytes, pos: nat, end: nat, line: Bytes, block: Bytes)
    requires Fits(file, pos, end, line, block) && Blank(line)
    ensures NextBlock(file, pos, block) == if block == [] then NextBlock(file, end, []) else Record(block, end)
    ensures Records(file, pos, block) == (if block == [] then [] else [Item(block, pos, end)]) + Records(file, end, [])
  {
    hide NextBlock, Records, Blank, ReadLine;
    LineStep(file, pos, end, block);
  }

  /** Lines with something in them are added to the record, as long as both bounds hold. */
  lemma {:induction false} GathersLines(before: Bytes, lines: seq<Bytes>, rest: Bytes, block: Bytes)
    requires (forall k :: 0 <= k < |lines| ==> Line(lines[k]) && !Empty(lines[k])) && |block| + |Joined(lines)| <= 32_768
    ensures var file := before + Joined(lines) + rest;
            && NextBlock(file, |before|, block) == NextBlock(file, |before| + |Joined(lines)|, block + Joined(lines))
            && Records(file, |before|, block) == Records(file, |before| + |Joined(lines)|, block + Joined(lines))
    decreases |lines|
  {
    hide NextBlock, Records, Line, Empty, Fits, Blank;
    if lines == [] {
      assert block + Joined(lines) == block;
    } else {
      var line, more := lines[0], Joined(lines[1..]);
      var file := before + Joined(lines) + rest;
      assert file == before + line + (more + rest) && file == (before + line) + more + rest;
      ReadsLine(before, line, more + rest, block);
      EmptyIsBlank(line);
      LineAdded(file, |before|, |before| + |line|, line, block);
      GathersLines(before + line, lines[1..], rest, block + line);
      assert block + line + more == block + Joined(lines) && before + line + more == before + Joined(lines);
    }
  }

  /** An empty line ends a record, and is passed over where there is none. */
  lemma EmptyLineEnds(before: Bytes, line: Bytes, rest: Bytes, block: Bytes)
    requires Line(line) && Empty(line) && |block| + |line| <= 32_768
    ensures var file, next := before + line + rest, |before| + |line|;
            && NextBlock(file, |before|, block) == (if block == [] then NextBlock(file, next, []) else Record(block, next))
            && Records(file, |before|, block) == (if block == [] then [] else [Item(block, |before|, next)]) + Records(file, next, [])
  {
    hide *;
    ReadsLine(before, line, rest, block);
    EmptyIsBlank(line);
    LineEnds(before + line + rest, |before|, |before| + |line|, line, block);
  }

  /** A record is read exactly as it was written, up to and with the empty line that ends it. */
  lemma ReadsRecord(before: Bytes, lines: seq<Bytes>, empty: Bytes, rest: Bytes)
    requires Detail(lines) && Line(empty) && Empty(empty) && |Joined(lines)| + |empty| <= 32_768
    ensures NextBlock(before + Joined(lines) + empty + rest, |before|, []) == Record(Joined(lines), |before| + |Joined(lines)| + |empty|)
  {
    hide NextBlock, Records;
    var text := Joined(lines);
    var file := before + text + empty + rest;
    assert file == before + text + (empty + rest) && file == (before + text) + empty + rest;
    GathersLines(before, lines, empty + rest, []);
    assert [] + text == text;
    EmptyLineEnds(before + text, empty, rest, text);
    NotEmpty(lines);
  }

  lemma NotEmpty(lines: seq<Bytes>)
    requires Detail(lines)
    ensures Joined(lines) != []
  {
    assert Line(lines[0]);
  }

  /** The end, a record still being written, and a bound that is broken are told apart: nothing left; lines left, but no line
      feed; a line of more than 4096 bytes, or a record of more than 32768. */
  lemma StopsWhere(before: Bytes, lines: seq<Bytes>, last: Bytes)
    requires forall k :: 0 <= k < |lines| ==> Line(lines[k]) && !Empty(lines[k])
    requires |Joined(lines)| <= 32_768 && forall k :: 0 <= k < |last| ==> last[k] != 10
    ensures NextBlock(before + Joined(lines) + last, |before|, [])
            == if |last| > 4096 || |Joined(lines)| + |last| > 32_768 then Oversized
               else if lines == [] && last == [] then End else Incomplete
  {
    hide NextBlock, Records, Line, Empty, Joined;
    var text := Joined(lines);
    GathersFrom(before, lines, last);
    SomeText(lines);
    StopsAfter(before, text, last);
  }

  lemma GathersFrom(before: Bytes, lines: seq<Bytes>, rest: Bytes)
    requires (forall k :: 0 <= k < |lines| ==> Line(lines[k]) && !Empty(lines[k])) && |Joined(lines)| <= 32_768
    ensures var text := Joined(lines);
            NextBlock(before + text + rest, |before|, []) == NextBlock(before + text + rest, |before| + |text|, text)
  {
    hide NextBlock, Records, Line, Empty, Joined;
    GathersLines(before, lines, rest, []);
    assert [] + Joined(lines) == Joined(lines);
  }

  lemma StopsAfter(before: Bytes, text: Bytes, last: Bytes)
    requires |text| <= 32_768 && forall k :: 0 <= k < |last| ==> last[k] != 10
    ensures NextBlock(before + text + last, |before| + |text|, text)
            == if |last| > 4096 || |text| + |last| > 32_768 then Oversized
               else if text == [] && last == [] then End else Incomplete
  {
    hide NextBlock;
    NoFeed(before + text, last);
    NoLineStep(before + text + last, |before| + |text|, text);
  }

  lemma SomeText(lines: seq<Bytes>)
    requires forall k :: 0 <= k < |lines| ==> Line(lines[k])
    ensures Joined(lines) == [] <==> lines == []
  {
    if lines != [] { assert Line(lines[0]); }
  }

  lemma NoLineStep(file: Bytes, pos: nat, block: Bytes)
    requires pos <= |file| && |block| <= 32_768 && ReadLine(file, pos) == (if |file| - pos <= 4098 then |file| else pos + 4098)
    requires forall k :: pos <= k < |file| ==> file[k] != 10
    ensures NextBlock(file, pos, block)
            == if |file| - pos > 4096 || |block| + (|file| - pos) > 32_768 then Oversized
               else if pos == |file| && block == [] then End else Incomplete
  {
    hide ReadLine, Blank;
  }

  /** Without a line feed ahead a line ends at the bound of the read or at the end of the file. */
  lemma NoFeed(before: Bytes, last: Bytes)
    requires forall k :: 0 <= k < |last| ==> last[k] != 10
    ensures ReadLine(before + last, |before|) == if |last| <= 4098 then |before| + |last| else |before| + 4098
    ensures forall k :: |before| <= k < |before + last| ==> (before + last)[k] != 10
  {
    NoFeedTo(before + last, |before|, if |last| <= 4098 then |before| + |last| else |before| + 4098);
  }

  lemma {:induction false} NoFeedTo(file: Bytes, pos: nat, stop: nat)
    requires pos <= stop <= |file| && forall k :: pos <= k < stop ==> file[k] != 10
    ensures LineEnd(file, pos, stop) == stop
    decreases stop - pos
  {
    if pos < stop { NoFeedTo(file, pos + 1, stop); }
  }

  /** What is written record by record is read back: the same records, in order, and nothing else. */
  lemma ReadsBack(details: seq<seq<Bytes>>)
    requires forall k :: 0 <= k < |details| ==> Detail(details[k])
    ensures var items := Records(Written(details), 0, []);
            |items| == |details| && forall k :: 0 <= k < |details| ==> items[k].block == Joined(details[k])
  {
    ReadsFrom([], details);
    assert [] + Written(details) == Written(details);
    hide Records, Written, Detail, Joined;
  }

  /** The blocks of the items are the records. */
  ghost predicate AreRead(items: seq<Item>, details: seq<seq<Bytes>>) {
    |items| == |details| && forall k :: 0 <= k < |details| ==> items[k].block == Joined(details[k])
  }

  lemma {:induction false} ReadsFrom(before: Bytes, details: seq<seq<Bytes>>)
    requires forall k :: 0 <= k < |details| ==> Detail(details[k])
    ensures AreRead(Records(before + Written(details), |before|, []), details)
    decreases |details|
  {
    hide Records, Detail, Joined, AreRead;
    if details == [] {
      assert before + Written(details) == before;
      B.NothingAtEnd(before, []);
      NoneRead();
    } else {
      var text, rest := Joined(details[0]), Written(details[1..]);
      var next := before + text + [10];
      assert before + Written(details) == next + rest;
      OneRecord(before, details[0], rest);
      ReadsFrom(next, details[1..]);
      OneMoreRead(Item(text, |before + text|, |next|), Records(next + rest, |next|, []), details);
    }
  }

  lemma NoneRead()
    ensures AreRead([], [])
  {
  }

  lemma OneMoreRead(item: Item, items: seq<Item>, details: seq<seq<Bytes>>)
    requires details != [] && item.block == Joined(details[0]) && AreRead(items, details[1..])
    ensures AreRead([item] + items, details)
  {
    hide Joined;
    forall k | 0 <= k < |details|
      ensures ([item] + items)[k].block == Joined(details[k])
    {
      assert k > 0 ==> ([item] + items)[k] == items[k - 1] && details[k] == details[1..][k - 1];
    }
  }

  lemma OneRecord(before: Bytes, lines: seq<Bytes>, rest: Bytes)
    requires Detail(lines)
    ensures var text := Joined(lines); var file := before + text + [10] + rest;
            Records(file, |before|, []) == [Item(text, |before + text|, |before + text| + 1)] + Records(file, |before + text| + 1, [])
  {
    hide Records, NextBlock;
    var text := Joined(lines);
    assert before + text + [10] + rest == before + text + ([10] + rest);
    GathersLines(before, lines, [10] + rest, []);
    assert [] + text == text;
    EmptyLineEnds(before + text, [10], rest, text);
    NotEmpty(lines);
  }

  /** A saved place is taken up exactly in the same file, within it, with the same 128 bytes before it. */
  lemma ResumedExactlyWhen(w: R.World)
    ensures R.Resume(w) == match w.cursor
              case NoCursor => 0
              case Saved(id, offset, anchor) =>
                if id == w.id && offset <= |w.file| && anchor == w.file[(if offset < 128 then 0 else offset - 128)..offset] then offset else 0
  {
  }
}
