/** Where a backup cuts the journal (deploy/backup.py). */
module JournalBackup {
  import opened JournalRecords

  datatype Found = Nowhere | At(end: nat)

  datatype Cut = Prefix(size: nat) | OversizedTail

  predicate Indent(b: Byte) { b == SPACE || b == TAB }

  function SkipIndent(tail: Bytes, i: nat): (j: nat)
    requires i <= |tail|
    ensures i <= j <= |tail| && (forall k :: i <= k < j ==> Indent(tail[k])) && (j < |tail| ==> !Indent(tail[j]))
    decreases |tail| - i
  {
    if i < |tail| && Indent(tail[i]) then SkipIndent(tail, i + 1) else i
  }

  /** The end of an optional carriage return and a line feed at `i`. */
  function NewLine(tail: Bytes, i: nat): (r: Found)
    requires i <= |tail|
    ensures r.At? ==> i < r.end <= |tail| && tail[r.end - 1] == LF
  {
    if i < |tail| && tail[i] == LF then At(i + 1)
    else if i + 1 < |tail| && tail[i] == CR && tail[i + 1] == LF then At(i + 2)
    else Nowhere
  }

  /** The pattern `\r?\n[ \t]*\r?\n` matched at `i`. */
  function MatchAt(tail: Bytes, i: nat): (r: Found)
    requires i <= |tail|
    ensures r.At? ==> i + 1 < r.end <= |tail|
  {
    var first := NewLine(tail, i);
    if first.Nowhere? then Nowhere else NewLine(tail, SkipIndent(tail, first.end))
  }

  /** The end of the last of the non-overlapping matches from `i` on. */
  function LastMatch(tail: Bytes, i: nat, found: Found): (r: Found)
    requires i <= |tail| && (found.At? ==> found.end <= i)
    ensures r.At? ==> r.end <= |tail|
    ensures found.At? ==> r.At? && found.end <= r.end
    decreases |tail| - i
  {
    if i == |tail| then found
    else
      var m := MatchAt(tail, i);
      if m.At? then LastMatch(tail, m.end, m) else LastMatch(tail, i + 1, found)
  }

  function TailStart(file: Bytes): nat { if |file| <= 2 * MAX_BLOCK then 0 else |file| - 2 * MAX_BLOCK }

  /** `_complete_journal_prefix`. */
  function CompletePrefix(file: Bytes): (r: Cut)
    ensures r.Prefix? ==> r.size <= |file| <= r.size + MAX_BLOCK
  {
    if |file| == 0 then Prefix(0)
    else
      var start := TailStart(file);
      var last := LastMatch(file[start..], 0, Nowhere);
      var prefix := if last.At? then start + last.end else 0;
      if |file| - prefix > MAX_BLOCK then OversizedTail else Prefix(prefix)
  }

  /* ---- what the pattern finds ---- */

  /** A blank line as FreeRADIUS writes it: only spaces and tabs, and its line end. */
  predicate Plain(line: Bytes) {
    && line != [] && line[|line| - 1] == LF
    && forall k :: 0 <= k < |line| - 1 ==> Indent(line[k]) || (k == |line| - 2 && line[k] == CR)
  }

  /** A plain blank line from `s` to `e`, after the end of another line. */
  predicate Boundary(file: Bytes, s: nat, e: nat) { 0 < s < e <= |file| && file[s - 1] == LF && Plain(file[s..e]) }

  lemma MatchIsBoundary(tail: Bytes, i: nat)
    requires i <= |tail|
    ensures MatchAt(tail, i).At? ==> exists s: nat :: i < s && Boundary(tail, s, MatchAt(tail, i).end)
  {
    var first := NewLine(tail, i);
    if first.At? && MatchAt(tail, i).At? {
      var s, e := first.end, MatchAt(tail, i).end;
      var j := SkipIndent(tail, s);
      assert e == j + 1 || (e == j + 2 && tail[j] == CR);
      assert forall k :: 0 <= k < e - s ==> tail[s..e][k] == tail[s + k];
      assert Boundary(tail, s, e);
    }
  }

  lemma BoundaryMatches(tail: Bytes, s: nat, e: nat)
    requires Boundary(tail, s, e)
    ensures MatchAt(tail, s - 1) == At(e)
  {
    assert forall k :: s <= k < e ==> tail[k] == tail[s..e][k - s];
    var j := SkipIndent(tail, s);
    if j < e - 1 {
      assert !Indent(tail[j]);
    }
  }

  lemma {:induction false} LastIsBoundary(tail: Bytes, i: nat, found: Found)
    requires i <= |tail| && (found.At? ==> found.end <= i)
    ensures var r := LastMatch(tail, i, found); r == found || (r.At? && exists s: nat :: i < s && Boundary(tail, s, r.end))
    decreases |tail| - i
  {
    hide MatchAt, Boundary;
    if i < |tail| {
      var m := MatchAt(tail, i);
      MatchIsBoundary(tail, i);
      if m.At? { LastIsBoundary(tail, m.end, m); } else { LastIsBoundary(tail, i + 1, found); }
    }
  }

  /** No match is missed: the last one found ends after the start of any other. */
  lemma {:induction false} LastCovers(tail: Bytes, i: nat, found: Found, k: nat)
    requires i <= k < |tail| && (found.At? ==> found.end <= i) && MatchAt(tail, k).At?
    ensures var r := LastMatch(tail, i, found); r.At? && k < r.end
    decreases |tail| - i
  {
    hide MatchAt;
    var m := MatchAt(tail, i);
    if m.At? {
      if m.end <= k { LastCovers(tail, m.end, m, k); }
    } else {
      LastCovers(tail, i + 1, found, k);
    }
  }

  lemma TailBoundary(file: Bytes, start: nat, s: nat, e: nat)
    requires start <= |file|
    ensures start < s && Boundary(file, s, e) ==> Boundary(file[start..], s - start, e - start)
    ensures Boundary(file[start..], s, e) ==> Boundary(file, start + s, start + e)
  {
    if start < s < e <= |file| {
      assert file[start..][s - start..e - start] == file[s..e];
    }
    if 0 < s < e <= |file| - start {
      assert file[start..][s..e] == file[start + s..start + e];
    }
  }

  /** A cut that is not at the very start is right after a plain blank line. */
  lemma PrefixIsBoundary(file: Bytes)
    requires CompletePrefix(file).Prefix? && 0 < CompletePrefix(file).size
    ensures exists s: nat :: Boundary(file, s, CompletePrefix(file).size)
  {
    hide LastMatch, Boundary;
    var start := TailStart(file);
    var last := LastMatch(file[start..], 0, Nowhere);
    LastIsBoundary(file[start..], 0, Nowhere);
    var s: nat :| 0 < s && Boundary(file[start..], s, last.end);
    TailBoundary(file, start, s, last.end);
  }

  /** Although only the tail is searched, the cut comes after the start of every plain blank line. */
  lemma PrefixCovers(file: Bytes, s: nat, e: nat)
    requires CompletePrefix(file).Prefix? && Boundary(file, s, e)
    ensures s <= CompletePrefix(file).size
  {
    hide LastMatch;
    var start := TailStart(file);
    if start < s {
      TailBoundary(file, start, s, e);
      BoundaryMatches(file[start..], s - start, e - start);
      LastCovers(file[start..], 0, Nowhere, s - start - 1);
    }
  }

  /* ---- no record is cut ---- */

  lemma LineEndIs(file: Bytes, pos: nat, end: nat)
    requires pos < end <= |file| && end - pos <= MAX_LINE && file[end - 1] == LF
    requires forall k :: pos <= k < end - 1 ==> file[k] != LF
    ensures ReadLine(file, pos) == end
  {
  }

  lemma PlainHasOneLine(file: Bytes, s: nat, e: nat)
    requires Boundary(file, s, e)
    ensures 0 < s < e <= |file| && file[s - 1] == LF && forall i :: s <= i < e - 1 ==> file[i] != LF
  {
    assert forall k :: s <= k < e ==> file[k] == file[s..e][k - s];
  }

  /** A line that ends before `p` is read the same in the file cut at `p`. */
  lemma WholeInPrefix(file: Bytes, pos: nat, block: Bytes, p: nat)
    requires pos <= p <= |file| && Whole(file, pos, block) && ReadLine(file, pos) <= p
    ensures Whole(file[..p], pos, block) && ReadLine(file[..p], pos) == ReadLine(file, pos)
  {
    LineEndIs(file[..p], pos, ReadLine(file, pos));
  }

  /** Reading on from before a boundary, the next line ends no later than the boundary does,
      and ends there only when it is the blank line itself. */
  lemma LineBeforeBoundary(file: Bytes, pos: nat, block: Bytes, s: nat, p: nat)
    requires Boundary(file, s, p) && pos <= s && Clean(file, pos, block)
    ensures var end := ReadLine(file, pos);
            && Whole(file, pos, block) && end <= p
            && (pos < s ==> end <= s) && (pos == s ==> end == p && Blank(file[pos..end]))
  {
    hide Blank, Plain;
    var end := ReadLine(file, pos);
    PlainHasOneLine(file, s, p);
    PlainEnds(file, s, p);
    assert end - pos <= MAX_LINE by { CleanBounds(file, pos, block); }
    assert file[end - 1] == LF;
  }

  lemma CleanBounds(file: Bytes, pos: nat, block: Bytes)
    requires pos <= |file| && Clean(file, pos, block) && pos < ReadLine(file, pos)
    ensures ReadLine(file, pos) - pos <= MAX_LINE && |block| + ReadLine(file, pos) - pos <= MAX_BLOCK
  {
  }

  lemma PlainEnds(file: Bytes, s: nat, p: nat)
    requires Boundary(file, s, p)
    ensures file[p - 1] == LF && Blank(file[s..p])
  {
    assert file[s..p][p - s - 1] == file[p - 1];
  }

  lemma CompletedBefore(file: Bytes, p: nat, pos: nat, end: nat, block: Bytes)
    requires pos <= end <= p <= |file|
    ensures Completed(file[..p], pos, end, block) == Completed(file, pos, end, block)
    ensures file[..p][pos..end] == file[pos..end]
  {
    assert file[..p][pos..end] == file[pos..end];
  }

  /** Splitting at a boundary splits the records. */
  lemma {:induction false} RecordsSplit(file: Bytes, pos: nat, block: Bytes, s: nat, p: nat)
    requires Boundary(file, s, p) && pos <= s && Clean(file, pos, block)
    ensures Records(file, pos, block) == Records(file[..p], pos, block) + Records(file, p, [])
    decreases |file| - pos
  {
    hide ReadLine, Blank, Boundary, Whole, Completed, Gathered, Records;
    var end := ReadLine(file, pos);
    LineBeforeBoundary(file, pos, block, s, p);
    WholeMoves(file, pos, block);
    BoundaryOrder(file, s, p);
    WholeInPrefix(file, pos, block, p);
    CompletedBefore(file, p, pos, end, block);
    var gathered := Gathered(block, file[pos..end]);
    RecordsUnfold(file, pos, block);
    RecordsUnfold(file[..p], pos, block);
    if pos < s {
      RecordsSplit(file, end, gathered, s, p);
    } else {
      assert gathered == [] by { BlankGathers(block, file[pos..end]); }
      NothingAtEnd(file[..p], []);
    }
  }

  lemma RecordsUnfold(file: Bytes, pos: nat, block: Bytes)
    requires pos <= |file| && Whole(file, pos, block)
    ensures var end := ReadLine(file, pos);
            Records(file, pos, block) == Completed(file, pos, end, block) + Records(file, end, Gathered(block, file[pos..end]))
  {
  }

  lemma BoundaryOrder(file: Bytes, s: nat, p: nat)
    requires Boundary(file, s, p)
    ensures 0 < s < p <= |file|
  {
  }

  lemma BlankGathers(block: Bytes, line: Bytes)
    requires Blank(line)
    ensures Gathered(block, line) == []
  {
  }

  lemma NothingAtEnd(file: Bytes, block: Bytes)
    ensures Records(file, |file|, block) == []
  {
  }

  /** The archived prefix cuts no record: its records and the ones after the cut are all of them. */
  lemma CutsNoRecord(file: Bytes)
    requires CompletePrefix(file).Prefix? && Clean(file, 0, [])
    ensures var p := CompletePrefix(file).size;
            Records(file, 0, []) == Records(file[..p], 0, []) + Records(file, p, [])
  {
    hide CompletePrefix, Boundary;
    var p := CompletePrefix(file).size;
    if p > 0 {
      PrefixIsBoundary(file);
      var s: nat :| Boundary(file, s, p);
      RecordsSplit(file, 0, [], s, p);
    } else {
      assert file[..0] == [];
      NothingAtEnd([], []);
    }
  }

  /* ---- no complete record is left behind ---- */

  /** A plain blank line follows the content of the last record. */
  ghost predicate EndsPlainly(file: Bytes) {
    var items := Records(file, 0, []);
    items == [] || exists s: nat, e: nat :: items[|items| - 1].stop <= s && Boundary(file, s, e)
  }

  /** The line before a record's blank line ends there, and the blank line is one line. */
  lemma {:induction false} RecordLines(file: Bytes, pos: nat, block: Bytes, k: nat)
    requires pos <= |file| && k < |Records(file, pos, block)| && (pos > 0 ==> file[pos - 1] == LF) && (pos == 0 ==> block == [])
    ensures var item := Records(file, pos, block)[k];
            0 < item.stop && file[item.stop - 1] == LF && forall i :: item.stop <= i < item.next - 1 ==> file[i] != LF
    decreases |file| - pos
  {
    hide ReadLine, Blank, Whole, Completed, Gathered;
    var end := ReadLine(file, pos);
    var first := Completed(file, pos, end, block);
    assert Whole(file, pos, block);
    LineOfRecord(file, pos, block);
    if k >= |first| {
      RecordLines(file, end, Gathered(block, file[pos..end]), k - |first|);
    }
  }

  lemma LineOfRecord(file: Bytes, pos: nat, block: Bytes)
    requires pos <= |file| && Whole(file, pos, block)
    ensures var end := ReadLine(file, pos);
            && pos < end && file[end - 1] == LF && (forall i :: pos <= i < end - 1 ==> file[i] != LF)
            && Completed(file, pos, end, block) <= [Item(block, pos, end)]
            && (block == [] ==> Completed(file, pos, end, block) == [])
  {
  }

  lemma CleanAtEnd(file: Bytes)
    ensures Clean(file, |file|, [])
  {
  }

  /** The cut leaves no complete record behind exactly when a plain blank line follows the
      content of the last record. */
  lemma LeavesNoRecordExactlyWhen(file: Bytes)
    requires CompletePrefix(file).Prefix? && Clean(file, 0, [])
    ensures Records(file, CompletePrefix(file).size, []) == [] <==> EndsPlainly(file)
  {
    hide CompletePrefix, Boundary, Records, EndsPlainly;
    if EndsPlainly(file) { PlainEndLeavesNone(file); }
    if Records(file, CompletePrefix(file).size, []) == [] { NoneLeftEndsPlainly(file); }
  }

  lemma PlainEndLeavesNone(file: Bytes)
    requires CompletePrefix(file).Prefix? && Clean(file, 0, []) && EndsPlainly(file)
    ensures Records(file, CompletePrefix(file).size, []) == []
  {
    hide CompletePrefix, Boundary, Records;
    var all, left := Records(file, 0, []), Records(file, CompletePrefix(file).size, []);
    CutsNoRecord(file);
    assert left != [] ==> all[|all| - 1] == left[|left| - 1];
    if all != [] {
      var s: nat, e: nat :| all[|all| - 1].stop <= s && Boundary(file, s, e);
      PrefixCovers(file, s, e);
    }
  }

  lemma NoneLeftEndsPlainly(file: Bytes)
    requires CompletePrefix(file).Prefix? && Clean(file, 0, []) && Records(file, CompletePrefix(file).size, []) == []
    ensures EndsPlainly(file)
  {
    hide CompletePrefix, Boundary, Records;
    var p := CompletePrefix(file).size;
    var all := Records(file, 0, []);
    CutsNoRecord(file);
    if all != [] {
      assert all == Records(file[..p], 0, []);
      var last := all[|all| - 1];
      PrefixIsBoundary(file);
      var s: nat :| Boundary(file, s, p);
      PlainHasOneLine(file, s, p);
      RecordLines(file, 0, [], |all| - 1);
      assert last.stop <= s;
    }
  }

  /* ---- a record the backup leaves behind ---- */

  /** From `pos` on there are only whole lines, none of them blank: a record still being written. */
  predicate Unfinished(file: Bytes, pos: nat, block: Bytes)
    requires pos <= |file|
    decreases |file| - pos
  {
    pos == |file|
    || (Whole(file, pos, block) && !Blank(file[pos..ReadLine(file, pos)])
        && Unfinished(file, ReadLine(file, pos), block + file[pos..ReadLine(file, pos)]))
  }

  /** A vertical tab on a line of its own. */
  const TABBED: Bytes := [11, 10]

  lemma TabbedLine(file: Bytes)
    requires |file| + 2 <= MAX_BLOCK
    ensures var f := file + TABBED;
            && ReadLine(f, |file|) == |f| && f[|file|..] == TABBED && Blank(TABBED) && Whole(f, |file|, file)
  {
    var f := file + TABBED;
    assert f[|file|] == 11 && f[|file| + 1] == LF && f[|file|..] == TABBED;
    LineEndIs(f, |file|, |f|);
  }

  /** The tabbed line ends the record for the reader. */
  lemma {:induction false} TabEndsRecord(file: Bytes, pos: nat)
    requires pos <= |file| && Unfinished(file, pos, file[..pos]) && 0 < |file| && |file| + 2 <= MAX_BLOCK
    ensures var f := file + TABBED;
            Records(f, pos, file[..pos]) == [Item(file, |file|, |f|)] && Clean(f, pos, file[..pos])
    decreases |file| - pos
  {
    hide ReadLine, Blank, Whole;
    var f := file + TABBED;
    if pos == |file| {
      TabbedLine(file);
      assert file[..pos] == file && f[pos..|f|] == TABBED;
      NothingAtEnd(f, []);
      CleanAtEnd(f);
      assert Completed(f, pos, |f|, file) == [Item(file, pos, |f|)];
      assert Gathered(file, f[pos..|f|]) == [];
    } else {
      var end := ReadLine(file, pos);
      WholeMoves(file, pos, file[..pos]);
      WholeAppends(file, TABBED, pos, file[..pos]);
      assert file[..end] == file[..pos] + file[pos..end];
      TabEndsRecord(file, end);
    }
  }

  lemma NoPlainAtTab(file: Bytes, s: nat, e: nat)
    requires |file| <= s
    ensures !Boundary(file + TABBED, s, e)
  {
    var f := file + TABBED;
    if s < e <= |f| {
      assert f[s..e][0] == f[s];
      assert s == |file| + 1 ==> f[s - 1] == 11;
      assert s == |file| ==> f[s] == 11 && !Indent(f[s]);
    }
  }

  /** Whatever the record, one that a vertical tab ends is whole for the reader and is exactly what
      the backup leaves behind. */
  lemma VerticalTabLeftBehind(file: Bytes)
    requires Unfinished(file, 0, []) && 0 < |file| && |file| + 2 <= MAX_BLOCK
    ensures var f := file + TABBED;
            && Clean(f, 0, []) && Records(f, 0, []) == [Item(file, |file|, |f|)]
            && CompletePrefix(f).Prefix? && Records(f, CompletePrefix(f).size, []) == [Item(file, |file|, |f|)]
  {
    hide Records, Boundary, Clean, Unfinished;
    var f := file + TABBED;
    assert file[..0] == [];
    TabEndsRecord(file, 0);
    forall s: nat, e: nat | |file| <= s
      ensures !Boundary(f, s, e)
    {
      NoPlainAtTab(file, s, e);
    }
    assert CompletePrefix(f).Prefix?;
    LeavesNoRecordExactlyWhen(f);
    CutsNoRecord(f);
    OneLeft(Records(f[..CompletePrefix(f).size], 0, []), Records(f, CompletePrefix(f).size, []), Item(file, |file|, |f|));
  }

  lemma OneLeft(first: seq<Item>, left: seq<Item>, item: Item)
    requires [item] == first + left && left != []
    ensures left == [item]
  {
    assert |first| + |left| == 1;
    assert left[0] == (first + left)[|first|];
  }

  /** One line of text: its line feed at the end, and not blank. */
  predicate OneLine(line: Bytes) {
    && 0 < |line| <= MAX_LINE && line[|line| - 1] == LF
    && (forall k :: 0 <= k < |line| - 1 ==> line[k] != LF) && !Blank(line)
  }

  function Text(lines: seq<Bytes>): Bytes { if lines == [] then [] else lines[0] + Text(lines[1..]) }

  /** Lines of text are an unfinished record. */
  lemma {:induction false} TextIsUnfinished(before: Bytes, lines: seq<Bytes>)
    requires (forall k :: 0 <= k < |lines| ==> OneLine(lines[k])) && |before + Text(lines)| <= MAX_BLOCK
    ensures Unfinished(before + Text(lines), |before|, before)
    decreases |lines|
  {
    hide ReadLine, Whole, Blank, OneLine;
    if lines == [] {
      assert before + Text(lines) == before;
    } else {
      var line, rest := lines[0], Text(lines[1..]);
      var f := before + Text(lines);
      assert f == before + line + rest;
      NextLineIs(before, line, rest);
      TextIsUnfinished(before + line, lines[1..]);
    }
  }

  /** The line after `before` is read whole and is not blank. */
  lemma NextLineIs(before: Bytes, line: Bytes, rest: Bytes)
    requires OneLine(line) && |before + line + rest| <= MAX_BLOCK
    ensures var f := before + line + rest;
            && ReadLine(f, |before|) == |before| + |line| && f[|before|..|before| + |line|] == line
            && Whole(f, |before|, before) && !Blank(line)
  {
    var f := before + line + rest;
    var end := |before| + |line|;
    assert f[|before|..end] == line;
    assert forall k :: |before| <= k < end ==> f[k] == line[k - |before|];
    LineEndIs(f, |before|, end);
  }

  /** A line feed at the end, a letter second, and nothing but plain characters. */
  predicate Typed(s: string) {
    && 3 <= |s| <= 100 && s[|s| - 1] == '\n' && 'A' <= s[1] <= 'z'
    && forall k :: 0 <= k < |s| - 1 ==> ' ' <= s[k] <= 'z'
  }

  function Ascii(s: string): (line: Bytes)
    requires Typed(s)
    ensures OneLine(line) && |line| == |s|
  {
    var line: Bytes := seq(|s|, k requires 0 <= k < |s| => s[k] as int);
    assert !White(line[1]);
    line
  }

  function HeaderLine(): (line: Bytes)
    ensures OneLine(line) && |line| <= 100
  {
    Ascii("Mon Jan 1 00:00:00 2024\n")
  }

  function StatusLine(): (line: Bytes)
    ensures OneLine(line) && |line| <= 100
  {
    Ascii(" Acct-Status-Type = Start\n")
  }

  function UserLine(): (line: Bytes)
    ensures OneLine(line) && |line| <= 100
  {
    Ascii(" User-Name = u\n")
  }

  function SessionLine(): (line: Bytes)
    ensures OneLine(line) && |line| <= 100
  {
    Ascii(" Acct-Session-Id = s\n")
  }

  function RouterLine(): (line: Bytes)
    ensures OneLine(line) && |line| <= 100
  {
    Ascii(" NAS-IP-Address = 10.253.0.6\n")
  }

  function TimestampLine(): (line: Bytes)
    ensures OneLine(line) && |line| <= 100
  {
    Ascii(" Timestamp = 1704067200\n")
  }

  /** The start of a session, as the parser accepts it, ended by a vertical tab: it is left behind. */
  lemma StartLeftBehind()
    ensures var content := Text([HeaderLine(), StatusLine(), UserLine(), SessionLine(), RouterLine(), TimestampLine()]);
            var f := content + TABBED;
            CompletePrefix(f).Prefix? && Records(f, CompletePrefix(f).size, []) == [Item(content, |content|, |f|)]
  {
    hide Records, CompletePrefix, Unfinished, OneLine, HeaderLine, StatusLine, UserLine, SessionLine, RouterLine, TimestampLine;
    var lines := [HeaderLine(), StatusLine(), UserLine(), SessionLine(), RouterLine(), TimestampLine()];
    ShortText(lines);
    TextIsUnfinished([], lines);
    assert [] + Text(lines) == Text(lines);
    VerticalTabLeftBehind(Text(lines));
  }

  lemma {:induction false} ShortText(lines: seq<Bytes>)
    requires forall k :: 0 <= k < |lines| ==> OneLine(lines[k]) && |lines[k]| <= 100
    ensures |lines| <= |Text(lines)| <= 100 * |lines|
    decreases |lines|
  {
    if lines != [] {
      ShortText(lines[1..]);
    }
  }

  /* ---- the search ---- */

  lemma LastMatchStep(tail: Bytes, i: nat, last: Found)
    requires i < |tail| && (last.At? ==> last.end <= i)
    ensures var m := MatchAt(tail, i);
            LastMatch(tail, i, last) == if m.At? then LastMatch(tail, m.end, m) else LastMatch(tail, i + 1, last)
  {
  }

  lemma LastMatchEnd(tail: Bytes, last: Found)
    requires last.At? ==> last.end <= |tail|
    ensures LastMatch(tail, |tail|, last) == last
  {
  }

  /** `_complete_journal_prefix`: searches the tail for the last boundary. */
  method FreezePrefix(file: Bytes) returns (r: Cut)
    ensures r == CompletePrefix(file)
  {
    hide MatchAt, LastMatch;
    if |file| == 0 {
      return Prefix(0);
    }
    var start := if |file| <= 2 * MAX_BLOCK then 0 else |file| - 2 * MAX_BLOCK;
    var tail := file[start..];
    var last := Nowhere;
    var i := 0;
    while i < |tail|
      invariant i <= |tail| && (last.At? ==> last.end <= i)
      invariant LastMatch(tail, i, last) == LastMatch(tail, 0, Nowhere)
    {
      LastMatchStep(tail, i, last);
      var m := MatchAt(tail, i);
      if m.At? {
        last, i := m, m.end;
      } else {
        i := i + 1;
      }
    }
    LastMatchEnd(tail, last);
    var prefix := if last.At? then start + last.end else 0;
    r := if |file| - prefix > MAX_BLOCK then OversizedTail else Prefix(prefix);
  }
}
