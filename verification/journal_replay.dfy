/** Replaying the journal to the accounting endpoint with a saved cursor
    (deploy/network/accounting_replay.py), and restoring both from a backup. */
module JournalReplay {
  import opened Common
  import opened JournalRecords
  import B = JournalBackup
  import opened A = AccountingMerge

  /** `parse_detail_block`, on the fields the session row is made of. */
  type Parser = Bytes -> Option<Payload>

  /** A saved place in the file with a given inode, and the bytes just before it. */
  datatype Cursor = NoCursor | Saved(id: nat, offset: nat, anchor: Bytes)

  /** One journal file, its cursor, and the endpoint; `posted` is what the endpoint ever confirmed. */
  datatype World = World(file: Bytes, id: nat, cursor: Cursor, sessions: Table, posted: set<Packet>)

  datatype Event =
    | Append(more: Bytes)
    /** The packet is confirmed; `saved` is false when the replayer dies before it saves its cursor. */
    | Post(now: int, saved: bool)
    | LoseCursor

  /** `_anchor`: the digest stands for the bytes themselves. */
  function Anchor(file: Bytes, offset: nat): Bytes
    requires offset <= |file|
  {
    file[(if offset <= 128 then 0 else offset - 128)..offset]
  }

  /** Where a pass starts reading. */
  function Resume(w: World): (offset: nat)
    ensures offset <= |w.file|
  {
    if w.cursor.Saved? && w.cursor.id == w.id && w.cursor.offset <= |w.file|
       && w.cursor.anchor == Anchor(w.file, w.cursor.offset)
    then w.cursor.offset else 0
  }

  /** The payload of the next record, if the record is complete and parses. */
  function Next(parse: Parser, w: World): Option<Payload> {
    var r := NextBlock(w.file, Resume(w), []);
    if r.Record? then parse(r.block) else None
  }

  predicate Confirms(parse: Parser, w: World, now: int) {
    var p := Next(parse, w);
    p.Some? && Accept(w.sessions, p.value, now).Confirmed?
  }

  /** The packet of a payload, if it has one. */
  function PacketIn(payload: Payload): set<Packet> { if payload.Usage? then {payload.packet} else {} }

  /** The endpoint takes the next packet. */
  function Posted(parse: Parser, w: World, now: int): World
    requires Confirms(parse, w, now)
  {
    var p := Next(parse, w).value;
    w.(sessions := Accept(w.sessions, p, now).sessions, posted := w.posted + PacketIn(p))
  }

  /** The replayer moves its cursor past the record. */
  function Advanced(w: World): (r: Cursor)
    requires NextBlock(w.file, Resume(w), []).Record?
  {
    var next := NextBlock(w.file, Resume(w), []).next;
    Saved(w.id, next, Anchor(w.file, next))
  }

  function Step(parse: Parser, w: World, e: Event): World {
    match e
    case Append(more) => w.(file := w.file + more)
    case LoseCursor => w.(cursor := NoCursor)
    case Post(now, saved) =>
      if !Confirms(parse, w, now) then w
      else Posted(parse, w, now).(cursor := if saved then Advanced(w) else w.cursor)
  }

  function Run(parse: Parser, w: World, es: seq<Event>): World
    decreases |es|
  {
    if es == [] then w else Run(parse, Step(parse, w, es[0]), es[1..])
  }

  predicate NotAhead(next: Option<Payload>, now: int) {
    next.Some? && next.value.Usage? ==> Happened(next.value.packet) <= now
  }

  /** No packet is dated after it is posted. */
  ghost predicate Timely(parse: Parser, w: World, es: seq<Event>)
    decreases |es|
  {
    es != [] ==>
      && (es[0].Post? ==> NotAhead(Next(parse, w), es[0].now))
      && Timely(parse, Step(parse, w, es[0]), es[1..])
  }

  /* ---- the invariant ---- */

  function PacketsOf(parse: Parser, items: seq<Item>): set<Packet> {
    set k | 0 <= k < |items| && parse(items[k].block).Some? && parse(items[k].block).value.Usage?
      :: parse(items[k].block).value.packet
  }

  /** The first `k` records parse and were confirmed. */
  ghost predicate Acknowledged(parse: Parser, items: seq<Item>, k: nat, posted: set<Packet>)
    requires k <= |items|
  {
    forall j :: 0 <= j < k ==> parse(items[j].block).Some? && PacketIn(parse(items[j].block).value) <= posted
  }

  /** A pass starts at a record boundary, and every record before it was confirmed. */
  ghost predicate AtBoundary(parse: Parser, w: World) {
    var items := Records(w.file, 0, []);
    exists k :: 0 <= k <= |items| && Resume(w) == Offset(items, k) && Acknowledged(parse, items, k, w.posted)
  }

  /** The cursor, if it is of this file, fits it. */
  predicate CursorFits(w: World) {
    w.cursor.Saved? && w.cursor.id == w.id ==>
      w.cursor.offset <= |w.file| && w.cursor.anchor == Anchor(w.file, w.cursor.offset)
  }

  ghost predicate Inv(parse: Parser, w: World, before: set<Packet>) {
    && Reflects(w.sessions, w.posted)
    && CursorFits(w) && AtBoundary(parse, w)
    && before <= w.posted <= before + PacketsOf(parse, Records(w.file, 0, []))
  }

  /** A file that replay never started on: no cursor, or one of another file. */
  ghost predicate Fresh(w: World) {
    Reflects(w.sessions, w.posted) && (w.cursor.Saved? ==> w.cursor.id != w.id)
  }

  lemma FreshInv(parse: Parser, w: World)
    requires Fresh(w)
    ensures Inv(parse, w, w.posted)
  {
    hide Records, Reflects;
    assert Resume(w) == Offset(Records(w.file, 0, []), 0);
  }

  /** Appending never makes a pass fall back: the saved place still fits. */
  lemma AppendKeepsPlace(w: World, more: Bytes)
    requires CursorFits(w)
    ensures CursorFits(w.(file := w.file + more)) && Resume(w.(file := w.file + more)) == Resume(w)
  {
    if w.cursor.Saved? && w.cursor.id == w.id {
      var offset := w.cursor.offset;
      assert Anchor(w.file + more, offset) == Anchor(w.file, offset);
    }
  }

  lemma AppendKeepsInv(parse: Parser, w: World, more: Bytes, before: set<Packet>)
    requires Inv(parse, w, before)
    ensures Inv(parse, w.(file := w.file + more), before)
  {
    hide Records, Reflects, CursorFits, Resume, PacketsOf, Acknowledged;
    var w' := w.(file := w.file + more);
    AppendKeepsPlace(w, more);
    RecordsAppend(w.file, more, 0, []);
    var items, all := Records(w.file, 0, []), Records(w'.file, 0, []);
    PacketsAppend(parse, items, all);
    var k: nat :| k <= |items| && Resume(w) == Offset(items, k) && Acknowledged(parse, items, k, w.posted);
    SameStart(parse, items, all, k, w.posted);
    assert Resume(w') == Offset(all, k);
  }

  lemma SameStart(parse: Parser, items: seq<Item>, all: seq<Item>, k: nat, posted: set<Packet>)
    requires items <= all && k <= |items|
    ensures Offset(all, k) == Offset(items, k)
    ensures Acknowledged(parse, items, k, posted) ==> Acknowledged(parse, all, k, posted)
  {
    assert forall j :: 0 <= j < |items| ==> all[j] == items[j];
  }

  lemma PacketsAppend(parse: Parser, items: seq<Item>, all: seq<Item>)
    requires items <= all
    ensures PacketsOf(parse, items) <= PacketsOf(parse, all)
  {
    assert forall j :: 0 <= j < |items| ==> all[j] == items[j];
  }

  /** The record after the first `k` is the one a pass reads next. */
  lemma NextIsItem(file: Bytes, k: nat)
    requires k <= |Records(file, 0, [])|
    ensures var items := Records(file, 0, []); var r := NextBlock(file, Offset(items, k), []);
            && (r.Record? <==> k < |items|)
            && (r.Record? ==> r.block == items[k].block && r.next == items[k].next)
  {
    hide Records;
    var items := Records(file, 0, []);
    SplitResumes(file, [], k);
    assert file + [] == file;
    RecordsAreBlocks(file, Offset(items, k), []);
  }

  /** The saved place is the end of the record just posted. */
  lemma SavedPlace(w: World)
    requires NextBlock(w.file, Resume(w), []).Record?
    ensures var w' := w.(cursor := Advanced(w)); Resume(w') == NextBlock(w.file, Resume(w), []).next && CursorFits(w')
  {
    hide NextBlock;
  }

  /** A confirmed packet is the one of the record after the first `k`. */
  lemma PostedItem(parse: Parser, w: World, now: int, k: nat)
    requires k <= |Records(w.file, 0, [])| && Resume(w) == Offset(Records(w.file, 0, []), k) && Confirms(parse, w, now)
    ensures var items := Records(w.file, 0, []); var p := Next(parse, w).value;
            && k < |items| && parse(items[k].block) == Some(p) && PacketIn(p) <= PacketsOf(parse, items)
            && NextBlock(w.file, Resume(w), []).Record? && NextBlock(w.file, Resume(w), []).next == Offset(items, k + 1)
  {
    hide Records, Accept, NextBlock, Resume;
    NextIsItem(w.file, k);
  }

  lemma PostKeepsInv(parse: Parser, w: World, now: int, saved: bool, before: set<Packet>)
    requires Inv(parse, w, before)
    requires NotAhead(Next(parse, w), now)
    ensures Inv(parse, Step(parse, w, Post(now, saved)), before)
  {
    hide Records, Reflects, Accept, NextBlock, NotAhead, Resume, Next, CursorFits, PacketsOf, PacketIn;
    if Confirms(parse, w, now) {
      var items := Records(w.file, 0, []);
      var k: nat :| k <= |items| && Resume(w) == Offset(items, k) && Acknowledged(parse, items, k, w.posted);
      var p := Next(parse, w).value;
      PostedItem(parse, w, now, k);
      ConfirmedReflects(parse, w, now);
      PostedPlace(w, Posted(parse, w, now));
      var w' := Step(parse, w, Post(now, saved));
      if saved { SavedPlace(Posted(parse, w, now)); }
      var k' := if saved then k + 1 else k;
      assert Resume(w') == Offset(items, k') && Acknowledged(parse, items, k', w'.posted);
    }
  }

  lemma ConfirmedReflects(parse: Parser, w: World, now: int)
    requires Reflects(w.sessions, w.posted) && Confirms(parse, w, now) && NotAhead(Next(parse, w), now)
    ensures Reflects(Posted(parse, w, now).sessions, w.posted + PacketIn(Next(parse, w).value))
  {
    hide Reflects, Merge, Next, Happened;
    var p := Next(parse, w).value;
    if p.Usage? {
      MergeReflects(w.sessions, w.posted, p.packet, now);
    } else {
      assert w.posted + {} == w.posted;
    }
  }

  /** Posting moves no cursor. */
  lemma PostedPlace(w: World, w': World)
    requires w' == w.(sessions := w'.sessions, posted := w'.posted)
    ensures Resume(w') == Resume(w) && (CursorFits(w) ==> CursorFits(w'))
    ensures NextBlock(w.file, Resume(w), []).Record? ==> Advanced(w') == Advanced(w)
  {
    hide NextBlock;
  }

  lemma LoseKeepsInv(parse: Parser, w: World, before: set<Packet>)
    requires Inv(parse, w, before)
    ensures Inv(parse, w.(cursor := NoCursor), before)
  {
    hide Records, Reflects;
    assert Resume(w.(cursor := NoCursor)) == Offset(Records(w.file, 0, []), 0);
  }

  lemma {:induction false} RunKeepsInv(parse: Parser, w: World, es: seq<Event>, before: set<Packet>)
    requires Inv(parse, w, before) && Timely(parse, w, es)
    ensures Inv(parse, Run(parse, w, es), before)
    decreases |es|
  {
    hide Inv;
    if es != [] {
      StepKeepsInv(parse, w, es[0], before);
      RunKeepsInv(parse, Step(parse, w, es[0]), es[1..], before);
    }
  }

  lemma StepKeepsInv(parse: Parser, w: World, e: Event, before: set<Packet>)
    requires Inv(parse, w, before)
    requires e.Post? ==> NotAhead(Next(parse, w), e.now)
    ensures Inv(parse, Step(parse, w, e), before)
  {
    hide Inv;
    match e
    case Append(more) => AppendKeepsInv(parse, w, more, before);
    case Post(now, saved) => PostKeepsInv(parse, w, now, saved, before);
    case LoseCursor => LoseKeepsInv(parse, w, before);
  }

  /* ---- the theorems ---- */

  /** No record is skipped: over every run with crashes, appends and lost cursors, reading goes
      on at a record boundary with every record before it confirmed. */
  lemma NothingSkipped(parse: Parser, w: World, es: seq<Event>)
    requires Fresh(w) && Timely(parse, w, es)
    ensures AtBoundary(parse, Run(parse, w, es))
  {
    hide Reflects, Records, AtBoundary;
    FreshInv(parse, w);
    RunKeepsInv(parse, w, es, w.posted);
  }

  predicate CaughtUp(w: World) { !NextBlock(w.file, Resume(w), []).Record? }

  /** When a pass finds nothing more, every record of the journal was confirmed, and the table is
      the join of what it held before and exactly the packets of the journal. */
  lemma CaughtUpTable(parse: Parser, w: World, es: seq<Event>)
    requires Fresh(w) && Timely(parse, w, es) && CaughtUp(Run(parse, w, es))
    ensures var w' := Run(parse, w, es); var items := Records(w'.file, 0, []);
            && Acknowledged(parse, items, |items|, w'.posted)
            && w'.posted == w.posted + PacketsOf(parse, items)
            && Reflects(w'.sessions, w.posted + PacketsOf(parse, items))
  {
    hide Reflects, Records, NextBlock;
    var w' := Run(parse, w, es);
    FreshInv(parse, w);
    RunKeepsInv(parse, w, es, w.posted);
    var items := Records(w'.file, 0, []);
    var k: nat :| k <= |items| && Resume(w') == Offset(items, k) && Acknowledged(parse, items, k, w'.posted);
    NextIsItem(w'.file, k);
    assert w'.posted == w.posted + PacketsOf(parse, items);
  }

  /** Two histories of the same journal, whatever crashes, repeats and resets they had, end in the same table. */
  lemma HistoryDoesNotMatter(parse: Parser, w: World, es: seq<Event>, fs: seq<Event>)
    requires Fresh(w) && Timely(parse, w, es) && Timely(parse, w, fs)
    requires CaughtUp(Run(parse, w, es)) && CaughtUp(Run(parse, w, fs))
    requires Run(parse, w, es).file == Run(parse, w, fs).file
    ensures Run(parse, w, es).sessions == Run(parse, w, fs).sessions
  {
    hide Reflects, Records, CaughtUp;
    CaughtUpTable(parse, w, es);
    CaughtUpTable(parse, w, fs);
    OnlyTheSetMatters(Run(parse, w, es).sessions, Run(parse, w, fs).sessions,
                      w.posted + PacketsOf(parse, Records(Run(parse, w, es).file, 0, [])));
  }

  /* ---- restoring a backup ---- */

  /** What a restore starts from: the table of the snapshot, the archived prefix as a new file
      with inode `id`, and no cursor. */
  function Restored(snapshot: World, archived: Bytes, id: nat): World {
    World(archived, id, NoCursor, snapshot.sessions, snapshot.posted)
  }

  /** Blocks of an untouched prefix keep their packets. */
  lemma ArchivedPackets(parse: Parser, file: Bytes)
    requires B.CompletePrefix(file).Prefix? && Clean(file, 0, []) && B.EndsPlainly(file)
    ensures Records(file[..B.CompletePrefix(file).size], 0, []) == Records(file, 0, [])
  {
    hide Records, B.EndsPlainly;
    B.CutsNoRecord(file);
    B.LeavesNoRecordExactlyWhen(file);
  }

  /** A snapshot taken before the journal was archived, restored and replayed to the end, gives
      the table that the live system has once it has caught up with the journal as archived. */
  lemma RestoreLosesNothing(parse: Parser, w: World, early: seq<Event>, late: seq<Event>, again: seq<Event>, id: nat)
    requires Fresh(w) && Timely(parse, w, early)
    requires var snapshot := Run(parse, w, early);
             && Timely(parse, snapshot, late) && CaughtUp(Run(parse, snapshot, late))
    requires var live := Run(parse, Run(parse, w, early), late);
             && B.CompletePrefix(live.file).Prefix? && Clean(live.file, 0, []) && B.EndsPlainly(live.file)
             && (forall k :: 0 <= k < |again| ==> !again[k].Append?)
             && var restored := Restored(Run(parse, w, early), live.file[..B.CompletePrefix(live.file).size], id);
                Timely(parse, restored, again) && CaughtUp(Run(parse, restored, again))
    ensures var live := Run(parse, Run(parse, w, early), late);
            var restored := Restored(Run(parse, w, early), live.file[..B.CompletePrefix(live.file).size], id);
            Run(parse, restored, again).sessions == live.sessions
  {
    hide Reflects, Records, CaughtUp, Timely, Clean, B.CompletePrefix, B.EndsPlainly;
    var snapshot := Run(parse, w, early);
    var live := Run(parse, snapshot, late);
    var archived := live.file[..B.CompletePrefix(live.file).size];
    var restored := Restored(snapshot, archived, id);
    SnapshotWithin(parse, w, early);
    ArchivedPackets(parse, live.file);
    LivePackets(parse, snapshot, late, w.posted);
    SnapshotReflects(parse, w, early);
    CaughtUpTable(parse, restored, again);
    NoAppends(parse, restored, again);
    OnlyTheSetMatters(Run(parse, restored, again).sessions, live.sessions, live.posted);
  }

  lemma SnapshotReflects(parse: Parser, w: World, early: seq<Event>)
    requires Fresh(w) && Timely(parse, w, early)
    ensures Reflects(Run(parse, w, early).sessions, Run(parse, w, early).posted)
  {
    hide Reflects, Records;
    FreshInv(parse, w);
    RunKeepsInv(parse, w, early, w.posted);
  }

  lemma SnapshotWithin(parse: Parser, w: World, early: seq<Event>)
    requires Fresh(w) && Timely(parse, w, early)
    ensures Inv(parse, Run(parse, w, early), w.posted)
  {
    FreshInv(parse, w);
    RunKeepsInv(parse, w, early, w.posted);
  }

  /** A live system that has caught up confirmed what the snapshot had and all the journal's packets. */
  lemma LivePackets(parse: Parser, snapshot: World, late: seq<Event>, before: set<Packet>)
    requires Inv(parse, snapshot, before) && Timely(parse, snapshot, late) && CaughtUp(Run(parse, snapshot, late))
    ensures var live := Run(parse, snapshot, late);
            && live.posted == snapshot.posted + PacketsOf(parse, Records(live.file, 0, []))
            && Reflects(live.sessions, live.posted)
  {
    hide Reflects, Records, NextBlock, Timely;
    var live := Run(parse, snapshot, late);
    RunKeepsInv(parse, snapshot, late, before);
    PostedGrows(parse, snapshot, late);
    var items := Records(live.file, 0, []);
    var k: nat :| k <= |items| && Resume(live) == Offset(items, k) && Acknowledged(parse, items, k, live.posted);
    NextIsItem(live.file, k);
  }

  lemma {:induction false} PostedGrows(parse: Parser, w: World, es: seq<Event>)
    ensures w.posted <= Run(parse, w, es).posted
    decreases |es|
  {
    hide Confirms, Advanced;
    if es != [] {
      PostedGrows(parse, Step(parse, w, es[0]), es[1..]);
    }
  }

  lemma {:induction false} NoAppends(parse: Parser, w: World, es: seq<Event>)
    requires forall k :: 0 <= k < |es| ==> !es[k].Append?
    ensures Run(parse, w, es).file == w.file
    decreases |es|
  {
    hide Confirms, Advanced;
    if es != [] {
      NoAppends(parse, Step(parse, w, es[0]), es[1..]);
    }
  }

  /* ---- one pass ---- */

  /** `n` packets in a row, each confirmed and its cursor saved. */
  function Passed(parse: Parser, w: World, now: int, n: nat): World {
    if n == 0 then w else Step(parse, Passed(parse, w, now, n - 1), Post(now, true))
  }

  lemma PassedNone(parse: Parser, w: World, now: int)
    ensures Passed(parse, w, now, 0) == w
  {
  }

  lemma PassedNext(parse: Parser, w: World, now: int, n: nat)
    ensures Passed(parse, w, now, n + 1) == Step(parse, Passed(parse, w, now, n), Post(now, true))
  {
  }

  /** Every record parses, and its packet is one that the endpoint takes and not dated ahead. */
  ghost predicate AllFit(parse: Parser, items: seq<Item>, now: int) {
    forall k :: 0 <= k < |items| ==> parse(items[k].block).Some? && Fits(parse(items[k].block).value, now)
  }

  predicate Fits(payload: Payload, now: int) {
    payload.Usage? ==> Acceptable(payload.packet, now) && Happened(payload.packet) <= now
  }

  /** No two packets name the same session with different users. */
  ghost predicate OneUser(packets: set<Packet>) {
    forall p, q :: p in packets && q in packets && p.key == q.key ==> p.username == q.username
  }

  /** A packet that agrees with what the table reflects is confirmed. */
  lemma AgreeingIsConfirmed(sessions: Table, posted: set<Packet>, all: set<Packet>, p: Packet, now: int)
    requires Reflects(sessions, posted) && posted <= all && p in all && OneUser(all) && Acceptable(p, now)
    ensures Merge(sessions, p, now).Confirmed?
  {
    if p.key in sessions {
      assert Summarizes(sessions[p.key], p.key, posted);
      var q :| q in posted && q.key == p.key && Happened(q) == sessions[p.key].updated;
    }
  }

  lemma NextConfirmed(parse: Parser, w: World, now: int, before: set<Packet>, k: nat)
    requires Inv(parse, w, before) && k < |Records(w.file, 0, [])| && Resume(w) == Offset(Records(w.file, 0, []), k)
    requires AllFit(parse, Records(w.file, 0, []), now) && OneUser(before + PacketsOf(parse, Records(w.file, 0, [])))
    ensures Confirms(parse, w, now) && NotAhead(Next(parse, w), now)
  {
    hide Records, Reflects, NextBlock, Resume, CursorFits, Acknowledged, OneUser, Merge, AtBoundary;
    var items := Records(w.file, 0, []);
    NextIsItem(w.file, k);
    var p := parse(items[k].block).value;
    if p.Usage? {
      AgreeingIsConfirmed(w.sessions, w.posted, before + PacketsOf(parse, items), p.packet, now);
    }
  }

  /** Pass by pass, one record further. */
  lemma {:induction false} PassedPlace(parse: Parser, w: World, now: int, before: set<Packet>, k: nat, m: nat)
    requires Inv(parse, w, before) && k + m <= |Records(w.file, 0, [])| && Resume(w) == Offset(Records(w.file, 0, []), k)
    requires AllFit(parse, Records(w.file, 0, []), now) && OneUser(before + PacketsOf(parse, Records(w.file, 0, [])))
    ensures var u := Passed(parse, w, now, m);
            u.file == w.file && Inv(parse, u, before) && Resume(u) == Offset(Records(w.file, 0, []), k + m)
  {
    hide Records, Inv, NextBlock, NotAhead, Resume, AllFit, OneUser, PacketsOf, Offset;
    if m > 0 {
      PassedPlace(parse, w, now, before, k, m - 1);
      var u := Passed(parse, w, now, m - 1);
      NextConfirmed(parse, u, now, before, k + m - 1);
      PostKeepsInv(parse, u, now, true, before);
      PostedItem(parse, u, now, k + m - 1);
      PostedPlace(u, Posted(parse, u, now));
      SavedPlace(Posted(parse, u, now));
    }
  }

  /** Replay makes progress: from any moment of any history, if every record parses to a packet that the
      endpoint takes and no session is named with two users, as many posts as there are records left reach the end of the journal, with
      the table of exactly its packets. */
  lemma ReplayFinishes(parse: Parser, w: World, es: seq<Event>, now: int) returns (n: nat)
    requires Fresh(w) && Timely(parse, w, es)
    requires var items := Records(Run(parse, w, es).file, 0, []);
             AllFit(parse, items, now) && OneUser(w.posted + PacketsOf(parse, items))
    ensures var v := Run(parse, w, es); var items := Records(v.file, 0, []); var u := Passed(parse, v, now, n);
            && n <= |items| && Resume(v) == Offset(items, |items| - n)
            && CaughtUp(u) && u.file == v.file && Reflects(u.sessions, w.posted + PacketsOf(parse, items))
  {
    hide Reflects, Records, NextBlock, Timely, Run, AllFit, OneUser, Acknowledged;
    var v := Run(parse, w, es);
    FreshInv(parse, w);
    RunKeepsInv(parse, w, es, w.posted);
    var items := Records(v.file, 0, []);
    var k: nat :| k <= |items| && Resume(v) == Offset(items, k) && Acknowledged(parse, items, k, v.posted);
    n := |items| - k;
    PassedPlace(parse, v, now, w.posted, k, n);
    EndReflects(parse, Passed(parse, v, now, n), w.posted);
  }

  lemma EndReflects(parse: Parser, u: World, before: set<Packet>)
    requires Inv(parse, u, before) && Resume(u) == Offset(Records(u.file, 0, []), |Records(u.file, 0, [])|)
    ensures CaughtUp(u) && Reflects(u.sessions, before + PacketsOf(parse, Records(u.file, 0, [])))
  {
    hide Reflects, Records, NextBlock;
    var items := Records(u.file, 0, []);
    NextIsItem(u.file, |items|);
    var k: nat :| k <= |items| && Resume(u) == Offset(items, k) && Acknowledged(parse, items, k, u.posted);
    NextIsItem(u.file, k);
    assert u.posted == before + PacketsOf(parse, items);
  }

  lemma EndOfFile(file: Bytes)
    ensures NextBlock(file, |file|, []) == End
  {
  }

  lemma PlaceOf(w: World)
    ensures Resume(w) == if w.cursor.Saved? && w.cursor.id == w.id && w.cursor.offset <= |w.file|
                            && w.cursor.anchor == Anchor(w.file, w.cursor.offset)
                         then w.cursor.offset else 0
  {
  }

  class AccountingReplay {
    const parse: Parser
    var file: Bytes
    var id: nat
    var cursor: Cursor
    var sessions: Table
    ghost var posted: set<Packet>

    ghost function View(): World
      reads this
    {
      World(file, id, cursor, sessions, posted)
    }

    constructor (parser: Parser, journal: Bytes, inode: nat)
      ensures parse == parser && View() == World(journal, inode, NoCursor, map[], {}) && Fresh(View())
    {
      parse, file, id, cursor, sessions, posted := parser, journal, inode, NoCursor, map[], {};
    }

    /** `replay_once` on one journal file: posts records in turn until the limit, the deadline
        (after `ticks` records) or an error stops it, or there is nothing more to read. */
    method ReplayOnce(limit: nat, ticks: nat, now: int) returns (processed: nat, backlog: bool, error: bool)
      modifies this`cursor, this`sessions, this`posted
      ensures processed <= limit && processed <= ticks
      ensures View() == Passed(parse, old(View()), now, processed)
      ensures forall n: nat | n < processed :: Confirms(parse, Passed(parse, old(View()), now, n), now)
      ensures error ==> NextBlock(file, Resume(View()), []).Oversized? || (!CaughtUp(View()) && !Confirms(parse, View(), now))
      ensures !error && !backlog ==> NextBlock(file, Resume(View()), []).End?
      ensures !error && backlog ==> processed == limit || processed == ticks || NextBlock(file, Resume(View()), []).Incomplete?
    {
      hide NextBlock, Accept, Records, Passed, Resume;
      processed, backlog, error := 0, false, false;
      PassedNone(parse, View(), now);
      var offset := if cursor.Saved? && cursor.id == id && cursor.offset <= |file| && cursor.anchor == Anchor(file, cursor.offset)
                    then cursor.offset else 0;
      PlaceOf(View());
      while offset < |file|
        invariant offset <= |file| && offset == Resume(View())
        invariant processed <= limit && processed <= ticks
        invariant View() == Passed(parse, old(View()), now, processed)
        invariant forall n: nat | n < processed :: Confirms(parse, Passed(parse, old(View()), now, n), now)
        decreases |file| - offset
      {
        if processed >= limit || processed >= ticks {
          return processed, true, false;
        }
        var block := NextBlock(file, offset, []);
        if block.Oversized? {
          return processed, true, true;
        }
        if !block.Record? {
          return processed, block.Incomplete?, false;
        }
        var payload := parse(block.block);
        if payload.None? {
          return processed, true, true;
        }
        var reply := Accept(sessions, payload.value, now);
        if !reply.Confirmed? {
          return processed, true, true;
        }
        ghost var before := View();
        sessions := reply.sessions;
        posted := posted + PacketIn(payload.value);
        offset := block.next;
        cursor := Saved(id, offset, Anchor(file, offset));
        PostedPlace(before, before.(sessions := sessions, posted := posted));
        SavedPlace(before.(sessions := sessions, posted := posted));
        PassedNext(parse, old(View()), now, processed);
        processed := processed + 1;
      }
      EndOfFile(file);
    }
  }
}
