/** The accounting endpoint's session row as a join over packets (network/views.py; counters as
    in RFC 2866 sections 5.3 and 5.4 with the gigaword parts of RFC 2869 sections 5.1 and 5.2). */
module AccountingMerge {
  import opened Common

  datatype Kind = Start | Stop | Interim

  datatype Key = Key(router: nat, session: string)

  /** The fields of one journal record that the session row is made of. */
  datatype Packet = Packet(key: Key, username: string, kind: Kind, inputOctets: nat, inputGigawords: nat,
                           outputOctets: nat, outputGigawords: nat, stamp: int, delay: nat)

  datatype Row = Row(username: string, started: Option<int>, stopped: Option<int>, updated: int, inputs: int, outputs: int)

  type Table = map<Key, Row>

  datatype Reply = Confirmed(sessions: Table) | BadRequest | Conflict

  const GIGAWORD := 0x1_0000_0000
  const MAX_COUNTER := 0x7FFF_FFFF_FFFF_FFFF
  /** The first second of the year 2000. */
  const EARLIEST := 946_684_800

  function Inputs(p: Packet): int { p.inputOctets + p.inputGigawords * GIGAWORD }

  function Outputs(p: Packet): int { p.outputOctets + p.outputGigawords * GIGAWORD }

  /** When the event happened, by the journal's own clock. */
  function Happened(p: Packet): int { p.stamp - p.delay }

  predicate Acceptable(p: Packet, now: int) {
    && 0 < |p.key.session| <= 128 && 0 < |p.username| <= 100
    && Inputs(p) <= MAX_COUNTER && Outputs(p) <= MAX_COUNTER
    && p.delay < GIGAWORD
    && EARLIEST <= Happened(p) <= now + 300
  }

  function Earlier(t: Option<int>, at: int): Option<int> { if t.Some? then Some(Min(t.value, at)) else Some(at) }

  /** The row before the packet: the stored one, or a new one. */
  function Found(sessions: Table, p: Packet, at: int): Row {
    if p.key in sessions then sessions[p.key] else Row(p.username, None, None, at, 0, 0)
  }

  function Joined(row: Row, p: Packet, at: int): Row {
    Row(row.username,
        if p.kind == Start then Earlier(row.started, at) else row.started,
        if p.kind == Stop then Earlier(row.stopped, at) else row.stopped,
        Max(row.updated, at), Max(row.inputs, Inputs(p)), Max(row.outputs, Outputs(p)))
  }

  /** A packet of a session, joined into its row. */
  function Merge(sessions: Table, p: Packet, now: int): Reply {
    if !Acceptable(p, now) then BadRequest
    else
      var at := Min(Happened(p), now);
      var row := Found(sessions, p, at);
      if row.username != p.username then Conflict else Confirmed(sessions[p.key := Joined(row, p, at)])
  }

  /** What a journal record says: usage of a session, or that a router started or stopped
      accounting, which changes no row. */
  datatype Payload = Usage(packet: Packet) | Notice

  /** `radius_accounting` for a known router, at time `now`. */
  function Accept(sessions: Table, payload: Payload, now: int): Reply {
    match payload
    case Usage(p) => Merge(sessions, p, now)
    case Notice => Confirmed(sessions)
  }

  /* ---- what the row says ---- */

  /** `t` is the earliest time of the packets of session `k` and kind `kind`, if there are any. */
  ghost predicate Earliest(t: Option<int>, k: Key, kind: Kind, packets: set<Packet>) {
    && (t.None? ==> forall p :: p in packets && p.key == k ==> p.kind != kind)
    && (t.Some? ==>
          && (exists p :: p in packets && p.key == k && p.kind == kind && Happened(p) == t.value)
          && (forall p :: p in packets && p.key == k && p.kind == kind ==> t.value <= Happened(p)))
  }

  /** The row is the join of the packets of session `k`. */
  ghost predicate Summarizes(row: Row, k: Key, packets: set<Packet>) {
    && (forall p :: p in packets && p.key == k ==>
          && p.username == row.username
          && Happened(p) <= row.updated && Inputs(p) <= row.inputs && Outputs(p) <= row.outputs)
    && (exists p :: p in packets && p.key == k && Happened(p) == row.updated)
    && (exists p :: p in packets && p.key == k && Inputs(p) == row.inputs)
    && (exists p :: p in packets && p.key == k && Outputs(p) == row.outputs)
    && Earliest(row.started, k, Start, packets)
    && Earliest(row.stopped, k, Stop, packets)
  }

  /** The table holds one row for each session of the packets, and each row is their join. */
  ghost predicate Reflects(sessions: Table, packets: set<Packet>) {
    && (forall p :: p in packets ==> p.key in sessions)
    && (forall k :: k in sessions ==> Summarizes(sessions[k], k, packets))
  }

  lemma MinOfEarlier(t: Option<int>, k: Key, kind: Kind, packets: set<Packet>, p: Packet)
    requires Earliest(t, k, kind, packets) && p.key == k
    ensures Earliest(if p.kind == kind then Earlier(t, Happened(p)) else t, k, kind, packets + {p})
  {
    var t' := if p.kind == kind then Earlier(t, Happened(p)) else t;
    if t'.Some? {
      if t.Some? && t'.value == t.value {
        var q :| q in packets && q.key == k && q.kind == kind && Happened(q) == t.value;
        assert q in packets + {p};
      } else {
        assert p in packets + {p};
      }
    }
  }

  lemma RowJoins(row: Row, k: Key, packets: set<Packet>, p: Packet)
    requires Summarizes(row, k, packets) && p.key == k && p.username == row.username
    ensures Summarizes(Joined(row, p, Happened(p)), k, packets + {p})
  {
    hide Inputs, Outputs, Happened, Earliest;
    MinOfEarlier(row.started, k, Start, packets, p);
    MinOfEarlier(row.stopped, k, Stop, packets, p);
    assert p in packets + {p};
    var u :| u in packets && u.key == k && Happened(u) == row.updated;
    var i :| i in packets && i.key == k && Inputs(i) == row.inputs;
    var o :| o in packets && o.key == k && Outputs(o) == row.outputs;
    assert u in packets + {p} && i in packets + {p} && o in packets + {p};
  }

  lemma NewRow(packets: set<Packet>, p: Packet)
    requires forall q :: q in packets ==> q.key != p.key
    ensures Summarizes(Joined(Row(p.username, None, None, Happened(p), 0, 0), p, Happened(p)), p.key, packets + {p})
  {
    assert p in packets + {p};
  }

  lemma OtherRow(row: Row, k: Key, packets: set<Packet>, p: Packet)
    requires Summarizes(row, k, packets) && p.key != k
    ensures Summarizes(row, k, packets + {p})
  {
    hide Inputs, Outputs, Happened;
    var u :| u in packets && u.key == k && Happened(u) == row.updated;
    var i :| i in packets && i.key == k && Inputs(i) == row.inputs;
    var o :| o in packets && o.key == k && Outputs(o) == row.outputs;
    assert u in packets + {p} && i in packets + {p} && o in packets + {p};
    OtherEarliest(row.started, k, Start, packets, p);
    OtherEarliest(row.stopped, k, Stop, packets, p);
  }

  lemma OtherEarliest(t: Option<int>, k: Key, kind: Kind, packets: set<Packet>, p: Packet)
    requires Earliest(t, k, kind, packets) && p.key != k
    ensures Earliest(t, k, kind, packets + {p})
  {
    if t.Some? {
      var q :| q in packets && q.key == k && q.kind == kind && Happened(q) == t.value;
      assert q in packets + {p};
    }
  }

  /** Confirming a packet that is not from the future adds it to what the table reflects. */
  lemma MergeReflects(sessions: Table, packets: set<Packet>, p: Packet, now: int)
    requires Reflects(sessions, packets) && Happened(p) <= now && Merge(sessions, p, now).Confirmed?
    ensures Reflects(Merge(sessions, p, now).sessions, packets + {p})
  {
    hide Joined, Summarizes, Happened, Acceptable;
    var after := Merge(sessions, p, now).sessions;
    forall k | k in after
      ensures Summarizes(after[k], k, packets + {p})
    {
      if k != p.key {
        OtherRow(sessions[k], k, packets, p);
      } else if k in sessions {
        assert sessions[k].username == p.username;
        RowJoins(sessions[k], k, packets, p);
      } else {
        NewRow(packets, p);
      }
    }
  }

  /** A packet the table already reflects changes nothing. */
  lemma MergeAgain(sessions: Table, packets: set<Packet>, p: Packet, now: int)
    requires Reflects(sessions, packets) && p in packets && Happened(p) <= now && Acceptable(p, now)
    ensures Merge(sessions, p, now) == Confirmed(sessions)
  {
    assert Summarizes(sessions[p.key], p.key, packets);
    assert Joined(sessions[p.key], p, Happened(p)) == sessions[p.key];
    assert sessions[p.key := sessions[p.key]] == sessions;
  }

  lemma SameEarliest(t: Option<int>, t': Option<int>, k: Key, kind: Kind, packets: set<Packet>)
    requires Earliest(t, k, kind, packets) && Earliest(t', k, kind, packets)
    ensures t == t'
  {
    if t.Some? && t'.Some? {
      var p :| p in packets && p.key == k && p.kind == kind && Happened(p) == t.value;
      var q :| q in packets && q.key == k && q.kind == kind && Happened(q) == t'.value;
    }
  }

  lemma SameRow(row: Row, row': Row, k: Key, packets: set<Packet>)
    requires Summarizes(row, k, packets) && Summarizes(row', k, packets)
    ensures row == row'
  {
    hide Inputs, Outputs, Happened, Earliest;
    SameEarliest(row.started, row'.started, k, Start, packets);
    SameEarliest(row.stopped, row'.stopped, k, Stop, packets);
  }

  /** The table depends only on the set of packets. */
  lemma OnlyTheSetMatters(sessions: Table, other: Table, packets: set<Packet>)
    requires Reflects(sessions, packets) && Reflects(other, packets)
    ensures sessions == other
  {
    hide Summarizes;
    forall k | k in sessions
      ensures k in other && sessions[k] == other[k]
    {
      HasPacket(sessions[k], k, packets);
      SameRow(sessions[k], other[k], k, packets);
    }
    forall k | k in other
      ensures k in sessions
    {
      HasPacket(other[k], k, packets);
    }
  }

  lemma HasPacket(row: Row, k: Key, packets: set<Packet>)
    requires Summarizes(row, k, packets)
    ensures exists p :: p in packets && p.key == k
  {
  }

  /* ---- deliveries ---- */

  /** A packet and the time it arrived. */
  datatype Delivery = Delivery(packet: Packet, now: int)

  /** Packets in turn; a refused one leaves the table alone. */
  function Deliver(sessions: Table, ds: seq<Delivery>): Table
    decreases |ds|
  {
    if ds == [] then sessions
    else
      var r := Merge(sessions, ds[0].packet, ds[0].now);
      Deliver(if r.Confirmed? then r.sessions else sessions, ds[1..])
  }

  function PacketsIn(ds: seq<Delivery>): set<Packet> { set d | d in ds :: d.packet }

  /** Acceptable packets, none from the future, that agree on the user of each session. */
  ghost predicate Consistent(ds: seq<Delivery>) {
    && (forall d :: d in ds ==> Acceptable(d.packet, d.now) && Happened(d.packet) <= d.now)
    && (forall p, q :: p in PacketsIn(ds) && q in PacketsIn(ds) && p.key == q.key ==> p.username == q.username)
  }

  lemma {:induction false} DeliverReflects(sessions: Table, packets: set<Packet>, ds: seq<Delivery>)
    requires Reflects(sessions, packets)
    requires forall d :: d in ds ==> Acceptable(d.packet, d.now) && Happened(d.packet) <= d.now
    requires forall p, q :: p in packets + PacketsIn(ds) && q in packets + PacketsIn(ds) && p.key == q.key ==>
               p.username == q.username
    ensures Reflects(Deliver(sessions, ds), packets + PacketsIn(ds))
    decreases |ds|
  {
    hide Joined, Happened, Acceptable, Reflects;
    if ds == [] {
      assert packets + PacketsIn(ds) == packets;
    } else {
      var p := ds[0].packet;
      assert p in PacketsIn(ds);
      assert packets + PacketsIn(ds) == packets + {p} + PacketsIn(ds[1..]) by {
        assert ds == [ds[0]] + ds[1..];
      }
      AgreedUser(sessions, packets, p, ds[0].now);
      MergeReflects(sessions, packets, p, ds[0].now);
      DeliverReflects(Merge(sessions, p, ds[0].now).sessions, packets + {p}, ds[1..]);
    }
  }

  lemma AgreedUser(sessions: Table, packets: set<Packet>, p: Packet, now: int)
    requires Reflects(sessions, packets) && Acceptable(p, now)
    requires forall q :: q in packets && q.key == p.key ==> q.username == p.username
    ensures Merge(sessions, p, now).Confirmed?
  {
    hide Acceptable, Joined;
    if p.key in sessions {
      assert Summarizes(sessions[p.key], p.key, packets);
    }
  }

  /** Order, duplication and timing of the deliveries do not matter: only which packets arrived. */
  lemma AnyOrder(ds: seq<Delivery>, es: seq<Delivery>)
    requires Consistent(ds) && Consistent(es) && PacketsIn(ds) == PacketsIn(es)
    ensures Deliver(map[], ds) == Deliver(map[], es)
  {
    DeliverReflects(map[], {}, ds);
    DeliverReflects(map[], {}, es);
    assert {} + PacketsIn(ds) == PacketsIn(ds) && {} + PacketsIn(es) == PacketsIn(es);
    OnlyTheSetMatters(Deliver(map[], ds), Deliver(map[], es), PacketsIn(ds));
  }

  /** From one row to a later one: counters do not decrease, times only spread, a stop stays. */
  predicate Advanced(row: Row, later: Row) {
    && later.username == row.username
    && row.inputs <= later.inputs && row.outputs <= later.outputs && row.updated <= later.updated
    && (row.started.Some? ==> later.started.Some? && later.started.value <= row.started.value)
    && (row.stopped.Some? ==> later.stopped.Some? && later.stopped.value <= row.stopped.value)
  }

  /** Over any deliveries at all, accepted or not, no session goes back. */
  lemma {:induction false} NothingUndone(sessions: Table, ds: seq<Delivery>, k: Key)
    requires k in sessions
    ensures k in Deliver(sessions, ds) && Advanced(sessions[k], Deliver(sessions, ds)[k])
    decreases |ds|
  {
    hide Inputs, Outputs, Acceptable;
    if ds != [] {
      var r := Merge(sessions, ds[0].packet, ds[0].now);
      NothingUndone(if r.Confirmed? then r.sessions else sessions, ds[1..], k);
    }
  }

  /** A packet dated after its arrival is dated by its arrival: what it does to a table is independent of
      the arrival, for every table, exactly when it is not dated after it. */
  lemma FutureDependsOnArrival(p: Packet, now: int, later: int)
    requires Acceptable(p, now) && Acceptable(p, later) && now < later
    ensures (forall sessions: Table :: Merge(sessions, p, now) == Merge(sessions, p, later)) <==> Happened(p) <= now
  {
    var first, second := Merge(map[], p, now), Merge(map[], p, later);
    assert first.sessions[p.key].updated == Min(Happened(p), now);
    assert second.sessions[p.key].updated == Min(Happened(p), later);
    if Happened(p) <= now {
      forall sessions: Table
        ensures Merge(sessions, p, now) == Merge(sessions, p, later)
      {
        assert Min(Happened(p), now) == Min(Happened(p), later);
      }
    }
  }

  /* ---- the endpoint ---- */

  class AccountingEndpoint {
    var sessions: Table

    constructor ()
      ensures sessions == map[]
    {
      sessions := map[];
    }

    /** `radius_accounting`: the row's fields one after the other; answers the HTTP status. */
    method Account(payload: Payload, now: int) returns (status: int)
      modifies this
      ensures (status == 204) == Accept(old(sessions), payload, now).Confirmed?
      ensures (status == 409) == Accept(old(sessions), payload, now).Conflict?
      ensures (status == 400) == Accept(old(sessions), payload, now).BadRequest?
      ensures sessions == if status == 204 then Accept(old(sessions), payload, now).sessions else old(sessions)
    {
      if payload.Notice? {
        return 204;
      }
      var p := payload.packet;
      if |p.key.session| == 0 || |p.username| == 0 || |p.key.session| > 128 || |p.username| > 100 {
        return 400;
      }
      var inputs, outputs := p.inputOctets + p.inputGigawords * GIGAWORD, p.outputOctets + p.outputGigawords * GIGAWORD;
      if Max(inputs, outputs) > MAX_COUNTER || p.delay >= GIGAWORD {
        return 400;
      }
      var eventAt := p.stamp - p.delay;
      if eventAt > now + 300 || eventAt < EARLIEST {
        return 400;
      }
      eventAt := Min(eventAt, now);
      var created := p.key !in sessions;
      var session := if created then Row(p.username, None, None, now, 0, 0) else sessions[p.key];
      if session.username != p.username {
        return 409;
      }
      var lastEventAt := if created then eventAt else Max(session.updated, eventAt);
      if p.kind == Start {
        session := session.(started := Earlier(session.started, eventAt));
      }
      if p.kind == Stop {
        session := session.(stopped := Earlier(session.stopped, eventAt));
      }
      session := session.(inputs := Max(session.inputs, inputs));
      session := session.(outputs := Max(session.outputs, outputs));
      session := session.(updated := lastEventAt);
      sessions := sessions[p.key := session];
      status := 204;
    }
  }
}
