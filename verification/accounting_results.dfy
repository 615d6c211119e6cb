/** What one packet does to a session's row, on the packet's own fields. */
module AccountingResults {
  import opened Common
  import opened AccountingMerge

  /** The fields are within their bounds, and the event lies between the year 2000 and five minutes ahead. */
  predicate WellFormed(p: Packet, now: int) {
    && 1 <= |p.key.session| <= 128 && 1 <= |p.username| <= 100
    && p.inputOctets + 4_294_967_296 * p.inputGigawords <= 9_223_372_036_854_775_807
    && p.outputOctets + 4_294_967_296 * p.outputGigawords <= 9_223_372_036_854_775_807
    && p.delay <= 4_294_967_295
    && 946_684_800 + p.delay <= p.stamp <= now + p.delay + 300
  }

  /** A packet is refused exactly when a field is out of bounds, conflicts exactly when its session is another user's, and
      is confirmed otherwise. */
  lemma AnsweredExactlyWhen(sessions: Table, p: Packet, now: int)
    ensures Merge(sessions, p, now).BadRequest? <==> !WellFormed(p, now)
    ensures Merge(sessions, p, now).Conflict? <==> WellFormed(p, now) && p.key in sessions && sessions[p.key].username != p.username
  {
  }

  /** The first packet of a session makes its row: the event happened its delay before its stamp, or now if that lies ahead. */
  lemma FirstPacket(sessions: Table, p: Packet, now: int)
    requires WellFormed(p, now) && p.key !in sessions
    ensures var at := if p.stamp <= now + p.delay then p.stamp - p.delay else now;
            Merge(sessions, p, now)
            == Confirmed(sessions[p.key := Row(p.username, if p.kind == Start then Some(at) else None, if p.kind == Stop then Some(at) else None, at,
                                              p.inputOctets + 4_294_967_296 * p.inputGigawords,
                                              p.outputOctets + 4_294_967_296 * p.outputGigawords)])
  {
  }

  /** The least of a stored time and a new one. */
  predicate IsFirst(t: Option<int>, before: Option<int>, at: int) {
    t.Some? && t.value <= at && (before.Some? ==> t.value <= before.value) && (t.value == at || t == before)
  }

  predicate IsGreatest(x: int, before: int, reported: int) { x >= before && x >= reported && (x == before || x == reported) }

  /** A later packet advances the row: starts and stops keep their first time, the last activity and the counters their greatest. */
  lemma LaterPacket(sessions: Table, p: Packet, now: int)
    requires WellFormed(p, now) && p.key in sessions && sessions[p.key].username == p.username
    ensures var r := Merge(sessions, p, now); var at := if p.stamp <= now + p.delay then p.stamp - p.delay else now;
            && r.Confirmed? && p.key in r.sessions && r.sessions == sessions[p.key := r.sessions[p.key]]
            && var before, after := sessions[p.key], r.sessions[p.key];
               && after.username == p.username
               && (if p.kind == Start then IsFirst(after.started, before.started, at) else after.started == before.started)
               && (if p.kind == Stop then IsFirst(after.stopped, before.stopped, at) else after.stopped == before.stopped)
               && IsGreatest(after.updated, before.updated, at)
               && IsGreatest(after.inputs, before.inputs, p.inputOctets + 4_294_967_296 * p.inputGigawords)
               && IsGreatest(after.outputs, before.outputs, p.outputOctets + 4_294_967_296 * p.outputGigawords)
  {
  }

  /** The same packet sent again `k` seconds later. */
  function Retransmitted(p: Packet, k: nat): Packet { p.(stamp := p.stamp + k, delay := p.delay + k) }

  /** A retransmission stands for the same event: from every table, whenever the two arrive, they give the same answer and the
      same table, and after the one the other changes nothing. */
  lemma RetransmissionIsTheSame(sessions: Table, p: Packet, k: nat, now: int, later: int)
    requires p.stamp <= now + p.delay && p.stamp <= later + p.delay && p.delay + k <= 4_294_967_295
    ensures Merge(sessions, Retransmitted(p, k), later) == Merge(sessions, p, now)
    ensures Merge(sessions, p, now).Confirmed? ==>
              Merge(Merge(sessions, p, now).sessions, Retransmitted(p, k), later) == Merge(sessions, p, now)
  {
    var r := Merge(sessions, p, now);
    if r.Confirmed? {
      assert r.sessions[p.key := r.sessions[p.key]] == r.sessions;
    }
  }

  /** One more second of delay moves the event of a new session one second back. */
  lemma DelayMovesBack(sessions: Table, p: Packet, now: int)
    requires p.key !in sessions && WellFormed(p, now) && WellFormed(p.(delay := p.delay + 1), now) && p.stamp <= now + p.delay
    ensures Merge(sessions, p.(delay := p.delay + 1), now).sessions[p.key].updated == Merge(sessions, p, now).sessions[p.key].updated - 1
  {
  }
}
