/** Who may connect: the online answer (network/views.py), the snapshot published for outages
    (network/services.py), and the agent that keeps it (deploy/network/agent.py). */
module Entitlements {
  import opened Common

  /* ---- addresses ---- */

  datatype Quad = Quad(a: int, b: int, c: int, d: int)

  /** The dotted form of an IPv4 address. */
  function Dotted(n: int): Quad { Quad(n / 0x100_0000, n / 0x1_0000 % 256, n / 256 % 256, n % 256) }

  /** 10.253.0.0 and 10.254.0.0 */
  const TUNNELS := 0x0AFD_0000
  const POOLS := 0x0AFE_0000
  const MAX_ROUTER := 4095

  datatype Addresses = Addresses(server: Quad, router: Quad, serverPort: int, routerPort: int,
                                 poolStart: Quad, poolEnd: Quad, gateway: Quad)

  /** `addressing`, on the web side. */
  function Addressing(router: nat): Option<Addresses> {
    if !(1 <= router <= MAX_ROUTER) then None
    else
      var host := TUNNELS + router * 4;
      Some(Addresses(Dotted(host + 1), Dotted(host + 2), 50000 + router, 55000 + router,
                     Dotted(POOLS + router * 8 + 2), Dotted(POOLS + router * 8 + 6), Dotted(POOLS + router * 8 + 1)))
  }

  datatype AgentConfig = AgentConfig(server: Quad, router: Quad, serverPort: int, routerPort: int, gateway: Quad)

  /** `config`, on the agent's side. */
  function Config(router: nat): Option<AgentConfig> {
    if router < 1 || router > MAX_ROUTER then None
    else
      var start := TUNNELS + router * 4;
      Some(AgentConfig(Dotted(start + 1), Dotted(start + 2), 50000 + router, 55000 + router, Dotted(POOLS + router * 8 + 1)))
  }

  lemma DottedInjective(m: int, n: int)
    requires Dotted(m) == Dotted(n)
    ensures m == n
  {
    Octets(m);
    Octets(n);
  }

  lemma Octets(n: int)
    ensures var q := Dotted(n); n == ((q.a * 256 + q.b) * 256 + q.c) * 256 + q.d
  {
    assert n / 256 / 256 == n / 0x1_0000 && n / 0x1_0000 / 256 == n / 0x100_0000;
    assert n == n / 256 * 256 + n % 256;
    assert n / 256 == n / 256 / 256 * 256 + n / 256 % 256;
    assert n / 0x1_0000 == n / 0x1_0000 / 256 * 256 + n / 0x1_0000 % 256;
  }

  /** Both sides reserve the same addresses and ports. */
  lemma SameAddresses(router: nat)
    ensures Addressing(router).Some? <==> Config(router).Some?
    ensures Config(router).Some? ==>
              var web, agent := Addressing(router).value, Config(router).value;
              agent == AgentConfig(web.server, web.router, web.serverPort, web.routerPort, web.gateway)
  {
  }

  /** No two routers share a tunnel address, a port, a gateway or an address of their pools, and
      no address is used for two purposes. */
  lemma AddressesApart(r: nat, s: nat, i: nat, j: nat, x: nat, y: nat)
    requires 1 <= r <= MAX_ROUTER && 1 <= s <= MAX_ROUTER && r != s
    requires 1 <= i <= 2 && 1 <= j <= 2 && 1 <= x <= 6 && 1 <= y <= 6
    ensures Dotted(TUNNELS + r * 4 + i) != Dotted(TUNNELS + s * 4 + j)
    ensures Dotted(POOLS + r * 8 + x) != Dotted(POOLS + s * 8 + y)
    ensures Dotted(TUNNELS + r * 4 + i) != Dotted(POOLS + s * 8 + y)
    ensures Addressing(r).value.serverPort != Addressing(s).value.serverPort
    ensures Addressing(r).value.serverPort != Addressing(s).value.routerPort
  {
    hide Dotted;
    if Dotted(TUNNELS + r * 4 + i) == Dotted(TUNNELS + s * 4 + j) { DottedInjective(TUNNELS + r * 4 + i, TUNNELS + s * 4 + j); }
    if Dotted(POOLS + r * 8 + x) == Dotted(POOLS + s * 8 + y) { DottedInjective(POOLS + r * 8 + x, POOLS + s * 8 + y); }
    if Dotted(TUNNELS + r * 4 + i) == Dotted(POOLS + s * 8 + y) { DottedInjective(TUNNELS + r * 4 + i, POOLS + s * 8 + y); }
  }

  lemma RouterAddressInjective(r: nat, s: nat)
    requires Addressing(r).Some? && Addressing(s).Some? && Addressing(r).value.router == Addressing(s).value.router
    ensures r == s
  {
    hide Dotted;
    DottedInjective(TUNNELS + r * 4 + 2, TUNNELS + s * 4 + 2);
  }

  /* ---- the database ---- */

  datatype Status = Pending | Active | Suspended | Cancelled

  datatype Router = Router(id: nat, provisioned: bool, node: string, organization: nat)

  datatype Service = Service(status: Status, organization: nat, download: nat, upload: nat)

  datatype Credential = Credential(router: nat, username: string, password: string, enabled: bool, expires: Option<int>,
                                   commissioning: bool, lab: bool, service: Option<Service>, download: nat, upload: nat)

  datatype Db = Db(routers: seq<Router>, credentials: seq<Credential>)

  datatype Grant = Grant(password: string, upload: nat, download: nat)

  /** `radius_router`: the first provisioned router of the node with that tunnel address. */
  function RouterAt(routers: seq<Router>, node: string, source: Quad): Option<Router> {
    if routers == [] then None
    else if routers[0].provisioned && routers[0].node == node && Addressing(routers[0].id).Some?
            && Addressing(routers[0].id).value.router == source
    then Some(routers[0])
    else RouterAt(routers[1..], node, source)
  }

  function CredentialFor(credentials: seq<Credential>, router: nat, username: string): Option<Credential> {
    if credentials == [] then None
    else if credentials[0].router == router && credentials[0].username == username && credentials[0].enabled
    then Some(credentials[0])
    else CredentialFor(credentials[1..], router, username)
  }

  predicate Expired(c: Credential, now: int) { c.expires.Some? && c.expires.value <= now }

  /** `radius_authorize`. */
  function Authorize(db: Db, node: string, source: Quad, username: string, now: int): Option<Grant> {
    var router := RouterAt(db.routers, node, source);
    if router.None? then None
    else
      var found := CredentialFor(db.credentials, router.value.id, username);
      if found.None? || Expired(found.value, now) then None
      else
        var c := found.value;
        if c.lab && c.service.None? then Some(Grant(c.password, c.upload, c.download))
        else if c.service.None? then None
        else
          var commissioning := c.commissioning && c.expires.Some? && c.expires.value > now && c.service.value.status == Pending;
          if (c.service.value.status != Active && !commissioning) || c.service.value.organization != router.value.organization
          then None
          else Some(Grant(c.password, c.service.value.upload, c.service.value.download))
  }

  /* ---- the snapshot ---- */

  datatype Entry = Entry(username: string, password: string, router: nat, upload: nat, download: nat, expires: Option<int>)

  function RouterById(routers: seq<Router>, id: nat): Option<Router> {
    if routers == [] then None else if routers[0].id == id then Some(routers[0]) else RouterById(routers[1..], id)
  }

  /** The entry of one credential, if it is published. */
  function Published(db: Db, node: string, c: Credential, now: int): Option<Entry> {
    var router := RouterById(db.routers, c.router);
    if !c.enabled || router.None? || !router.value.provisioned || router.value.node != node then None
    else if c.expires.Some? && c.expires.value <= now then None
    else if !c.lab || c.service.Some? then
      if c.service.None? then None
      else
        var s := c.service.value;
        var commissioning := c.commissioning && c.expires.Some? && c.expires.value > now && s.status == Pending;
        if (s.status != Active && !commissioning) || s.organization != router.value.organization then None
        else Some(Entry(c.username, c.password, c.router, s.upload, s.download, c.expires))
    else Some(Entry(c.username, c.password, c.router, c.upload, c.download, c.expires))
  }

  function Entries(db: Db, node: string, credentials: seq<Credential>, now: int): seq<Entry> {
    if credentials == [] then []
    else
      var e := Published(db, node, credentials[0], now);
      (if e.Some? then [e.value] else []) + Entries(db, node, credentials[1..], now)
  }

  const MAX_ENTRIES := 25_000

  /** `_sync_confirmed_entitlements`: the whole list, or nothing when there are too many. */
  function Snapshot(db: Db, node: string, now: int): Option<seq<Entry>> {
    var entries := Entries(db, node, db.credentials, now);
    if |entries| > MAX_ENTRIES then None else Some(entries)
  }

  /** What the cached file answers: the user's line, for the source address it names, until it expires. */
  function Lookup(entries: seq<Entry>, source: Quad, username: string, now: int): Option<Grant> {
    if entries == [] then None
    else if entries[0].username == username && Config(entries[0].router).Some? && Config(entries[0].router).value.router == source
            && !(entries[0].expires.Some? && entries[0].expires.value <= now)
    then Some(Grant(entries[0].password, entries[0].upload, entries[0].download))
    else Lookup(entries[1..], source, username, now)
  }

  /* ---- agreement ---- */

  /** Keys are keys, and a router in use has an address. */
  ghost predicate DbOk(db: Db) {
    && (forall i, j :: 0 <= i < j < |db.routers| ==> db.routers[i].id != db.routers[j].id)
    && (forall i :: 0 <= i < |db.routers| && db.routers[i].provisioned ==> 1 <= db.routers[i].id <= MAX_ROUTER)
    && DistinctUsers(db.credentials)
  }

  ghost predicate DistinctUsers(credentials: seq<Credential>) {
    forall i, j :: 0 <= i < j < |credentials| ==> credentials[i].username != credentials[j].username
  }

  lemma {:induction false} RouterByIdIs(routers: seq<Router>, i: nat)
    requires i < |routers| && forall j, k :: 0 <= j < k < |routers| ==> routers[j].id != routers[k].id
    ensures RouterById(routers, routers[i].id) == Some(routers[i])
    decreases |routers|
  {
    if i > 0 {
      assert routers[0].id != routers[i].id;
      RouterByIdIs(routers[1..], i - 1);
    }
  }

  lemma {:induction false} RouterByIdIn(routers: seq<Router>, id: nat)
    ensures var r := RouterById(routers, id); r.Some? ==> r.value in routers && r.value.id == id
    decreases |routers|
  {
    if routers != [] {
      RouterByIdIn(routers[1..], id);
    }
  }

  /** A router is found by its tunnel address exactly when it is provisioned on the node. */
  lemma {:induction false} RouterAtIs(routers: seq<Router>, node: string, source: Quad)
    ensures var r := RouterAt(routers, node, source);
            && (r.Some? ==> r.value in routers && Answers(r.value, node, source))
            && (r.None? ==> forall x :: x in routers ==> !Answers(x, node, source))
    decreases |routers|
  {
    hide Addressing;
    if routers != [] {
      RouterAtIs(routers[1..], node, source);
      assert routers == [routers[0]] + routers[1..];
    }
  }

  predicate Answers(r: Router, node: string, source: Quad) {
    r.provisioned && r.node == node && Addressing(r.id).Some? && Addressing(r.id).value.router == source
  }

  lemma {:induction false} CredentialForIs(credentials: seq<Credential>, router: nat, username: string)
    ensures var r := CredentialFor(credentials, router, username);
            && (r.Some? ==> r.value in credentials && r.value.router == router && r.value.username == username && r.value.enabled)
            && (r.None? ==> forall c :: c in credentials && c.router == router && c.username == username ==> !c.enabled)
    decreases |credentials|
  {
    if credentials != [] {
      CredentialForIs(credentials[1..], router, username);
      assert credentials == [credentials[0]] + credentials[1..];
    }
  }

  /** What credential `c` allows at time `later` from an address, if it was published at `now`. */
  function Cached(db: Db, node: string, c: Credential, now: int, source: Quad, later: int): Option<Grant> {
    var e := Published(db, node, c, now);
    if e.Some? && Config(c.router).Some? && Config(c.router).value.router == source && !Expired(c, later)
    then Some(Grant(e.value.password, e.value.upload, e.value.download)) else None
  }

  /** The file answers for a user as that user's credential was published. */
  lemma {:induction false} LookupIs(db: Db, node: string, credentials: seq<Credential>, now: int, source: Quad, username: string, later: int)
    requires DistinctUsers(credentials)
    ensures var r := Lookup(Entries(db, node, credentials, now), source, username, later);
            && (forall c :: c in credentials && c.username == username ==> r == Cached(db, node, c, now, source, later))
            && ((forall c :: c in credentials ==> c.username != username) ==> r == None)
    decreases |credentials|
  {
    hide Config, RouterById;
    if credentials != [] {
      var c := credentials[0];
      var rest := Entries(db, node, credentials[1..], now);
      LookupIs(db, node, credentials[1..], now, source, username, later);
      PublishedIs(db, node, c, now);
      var e := Published(db, node, c, now);
      assert e.Some? ==> ([e.value] + rest)[1..] == rest;
      assert [] + rest == rest;
      assert forall d :: d in credentials[1..] ==> d.username != c.username;
      assert credentials == [c] + credentials[1..];
    }
  }

  lemma PublishedIs(db: Db, node: string, c: Credential, now: int)
    ensures var e := Published(db, node, c, now);
            e.Some? ==> e.value.username == c.username && e.value.router == c.router && e.value.expires == c.expires
  {
  }

  /** What the online decision says of credential `c`, given its router. */
  function Decided(c: Credential, router: Router, now: int): Option<Grant> {
    if !c.enabled || Expired(c, now) then None
    else if c.lab && c.service.None? then Some(Grant(c.password, c.upload, c.download))
    else if c.service.None? then None
    else
      var commissioning := c.commissioning && c.expires.Some? && c.expires.value > now && c.service.value.status == Pending;
      if (c.service.value.status != Active && !commissioning) || c.service.value.organization != router.organization
      then None
      else Some(Grant(c.password, c.service.value.upload, c.service.value.download))
  }

  /** While nothing changes, what was published is what is decided later: entries only expire. */
  lemma CachedIsDecided(db: Db, node: string, c: Credential, now: int, source: Quad, later: int)
    requires now <= later && DbOk(db)
    ensures var router := RouterById(db.routers, c.router);
            Cached(db, node, c, now, source, later)
            == if router.Some? && Answers(router.value, node, source) then Decided(c, router.value, later) else None
  {
    hide Addressing, Config, RouterById;
    SameAddresses(c.router);
    RouterByIdIn(db.routers, c.router);
  }

  /** From the moment a snapshot is published, and for as long as the database stays as it is, the
      cached file grants exactly what the online decision grants: the same users from the same
      addresses, with the same password and rates. */
  lemma OfflineAgrees(db: Db, node: string, source: Quad, username: string, now: int, later: int)
    requires DbOk(db) && now <= later && Snapshot(db, node, now).Some?
    ensures Lookup(Snapshot(db, node, now).value, source, username, later) == Authorize(db, node, source, username, later)
  {
    hide Addressing, Published, Lookup, Entries, Decided, Cached, RouterById;
    var entries := Snapshot(db, node, now).value;
    LookupIs(db, node, db.credentials, now, source, username, later);
    RouterAtIs(db.routers, node, source);
    var router := RouterAt(db.routers, node, source);
    if exists c :: c in db.credentials && c.username == username {
      var c :| c in db.credentials && c.username == username;
      CachedIsDecided(db, node, c, now, source, later);
      OnlineIs(db, node, source, c, later);
    } else if router.Some? {
      CredentialForIs(db.credentials, router.value.id, username);
    }
  }

  /** The online decision, by the user's credential and its router. */
  lemma OnlineIs(db: Db, node: string, source: Quad, c: Credential, now: int)
    requires DbOk(db) && c in db.credentials
    ensures var router := RouterById(db.routers, c.router);
            Authorize(db, node, source, c.username, now)
            == if router.Some? && Answers(router.value, node, source) then Decided(c, router.value, now) else None
  {
    hide Addressing, RouterById, Dotted;
    RouterAtIs(db.routers, node, source);
    RouterByIdIn(db.routers, c.router);
    var at, own := RouterAt(db.routers, node, source), RouterById(db.routers, c.router);
    if at.Some? {
      var i :| 0 <= i < |db.routers| && db.routers[i] == at.value;
      RouterByIdIs(db.routers, i);
      OwnCredential(db, c, at.value.id);
      if own.Some? && Answers(own.value, node, source) {
        RouterAddressInjective(at.value.id, own.value.id);
      }
    }
  }

  lemma OwnCredential(db: Db, c: Credential, router: nat)
    requires DbOk(db) && c in db.credentials
    ensures CredentialFor(db.credentials, router, c.username)
            == if c.router == router && c.enabled then Some(c) else None
  {
    CredentialForIs(db.credentials, router, c.username);
    var r := CredentialFor(db.credentials, router, c.username);
    if r.Some? {
      var i :| 0 <= i < |db.credentials| && db.credentials[i] == c;
      var j :| 0 <= j < |db.credentials| && db.credentials[j] == r.value;
      assert i == j;
    }
  }

  /* ---- the loops ---- */

  /** The loop of `_sync_confirmed_entitlements`. */
  method BuildSnapshot(db: Db, node: string, now: int) returns (r: Option<seq<Entry>>)
    ensures r == Snapshot(db, node, now)
  {
    hide Published;
    var entries: seq<Entry> := [];
    var k := 0;
    while k < |db.credentials|
      invariant k <= |db.credentials| && |entries| <= MAX_ENTRIES
      invariant Entries(db, node, db.credentials, now) == entries + Entries(db, node, db.credentials[k..], now)
    {
      assert db.credentials[k..][1..] == db.credentials[k + 1..];
      var e := Published(db, node, db.credentials[k], now);
      if e.Some? {
        if |entries| >= MAX_ENTRIES {
          return None;
        }
        entries := entries + [e.value];
      }
      k := k + 1;
    }
    assert db.credentials[k..] == [];
    assert entries + [] == entries;
    r := Some(entries);
  }

  predicate UserChar(c: char) { 'A' <= c <= 'Z' || 'a' <= c <= 'z' || '0' <= c <= '9' || c in "_.@-" }

  /** What the agent accepts of an entry. */
  predicate WellFormed(e: Entry) {
    && (forall k :: 0 <= k < |e.username| ==> UserChar(e.username[k]))
    && (forall k :: 0 <= k < |e.password| ==> e.password[k] as int >= 32)
    && Config(e.router).Some? && 1 <= |e.username| <= 100 && 1 <= |e.password| <= 128
    && 1 <= e.upload <= 100000 && 1 <= e.download <= 100000
  }

  ghost predicate DistinctNames(entries: seq<Entry>) {
    forall i, j :: 0 <= i < j < |entries| ==> entries[i].username != entries[j].username
  }

  ghost predicate Acceptable(entries: seq<Entry>) {
    |entries| <= MAX_ENTRIES && (forall i :: 0 <= i < |entries| ==> WellFormed(entries[i])) && DistinctNames(entries)
  }

  /** What the cached file holds after a list is offered. */
  ghost function Synced(cached: seq<Entry>, offered: seq<Entry>): seq<Entry> { if Acceptable(offered) then offered else cached }

  /** The file grants now and later what the online decision would, while the database stays as it is. */
  ghost predicate Agrees(db: Db, node: string, file: seq<Entry>, now: int) {
    forall source, username, later | now <= later ::
      Lookup(file, source, username, later) == Authorize(db, node, source, username, later)
  }

  /** After a synchronization the file agrees with the online decision exactly when the list was
      accepted, unless the file it kept already did. */
  lemma SyncedAgrees(db: Db, node: string, cached: seq<Entry>, now: int)
    requires DbOk(db) && Snapshot(db, node, now).Some?
    ensures var offered := Snapshot(db, node, now).value;
            Agrees(db, node, Synced(cached, offered), now) <==> Acceptable(offered) || Agrees(db, node, cached, now)
  {
    hide Lookup, Authorize, Acceptable, Snapshot;
    var offered := Snapshot(db, node, now).value;
    forall source, username, later | now <= later
      ensures Lookup(offered, source, username, later) == Authorize(db, node, source, username, later)
    {
      OfflineAgrees(db, node, source, username, now, later);
    }
  }

  lemma {:induction false} EntriesOf(db: Db, node: string, credentials: seq<Credential>, now: int)
    ensures var es := Entries(db, node, credentials, now);
            && (forall e :: e in es ==> exists c :: c in credentials && Published(db, node, c, now) == Some(e))
            && (forall c :: c in credentials && Published(db, node, c, now).Some? ==> Published(db, node, c, now).value in es)
    decreases |credentials|
  {
    hide Published;
    if credentials != [] {
      EntriesOf(db, node, credentials[1..], now);
      assert credentials == [credentials[0]] + credentials[1..];
      assert forall e :: e in Entries(db, node, credentials[1..], now) ==>
          exists c :: c in credentials && Published(db, node, c, now) == Some(e);
    }
  }

  lemma {:induction false} EntriesDistinct(db: Db, node: string, credentials: seq<Credential>, now: int)
    requires DistinctUsers(credentials)
    ensures DistinctNames(Entries(db, node, credentials, now))
    decreases |credentials|
  {
    hide Published, DistinctNames;
    if credentials == [] {
      NoNames();
    } else {
      var c := credentials[0];
      var rest := Entries(db, node, credentials[1..], now);
      EntriesDistinct(db, node, credentials[1..], now);
      EntriesOf(db, node, credentials[1..], now);
      PublishedIs(db, node, c, now);
      forall i | 0 <= i < |rest|
        ensures rest[i].username != c.username
      {
        assert rest[i] in rest;
        var d :| d in credentials[1..] && Published(db, node, d, now) == Some(rest[i]);
        PublishedIs(db, node, d, now);
      }
      assert [] + rest == rest;
      if Published(db, node, c, now).Some? { NamesPlus(Published(db, node, c, now).value, rest); }
    }
  }

  lemma NoNames()
    ensures DistinctNames([])
  {
  }

  lemma NamesPlus(e: Entry, rest: seq<Entry>)
    requires DistinctNames(rest) && forall i :: 0 <= i < |rest| ==> rest[i].username != e.username
    ensures DistinctNames([e] + rest)
  {
    var es := [e] + rest;
    forall i, j | 0 <= i < j < |es|
      ensures es[i].username != es[j].username
    {
      assert es[j] == rest[j - 1] && (i > 0 ==> es[i] == rest[i - 1]);
    }
  }

  /** The agent accepts a published list exactly when each of its entries is well formed. */
  lemma AcceptedExactlyWhen(db: Db, node: string, now: int)
    requires DbOk(db) && Snapshot(db, node, now).Some?
    ensures Acceptable(Snapshot(db, node, now).value)
            <==> forall c :: c in db.credentials && Published(db, node, c, now).Some? ==> WellFormed(Published(db, node, c, now).value)
  {
    hide Published, WellFormed, Entries;
    EntriesOf(db, node, db.credentials, now);
    EntriesDistinct(db, node, db.credentials, now);
    var es := Snapshot(db, node, now).value;
    if Acceptable(es) {
      forall c | c in db.credentials && Published(db, node, c, now).Some?
        ensures WellFormed(Published(db, node, c, now).value)
      {
        var i :| 0 <= i < |es| && es[i] == Published(db, node, c, now).value;
      }
    }
    if forall c :: c in db.credentials && Published(db, node, c, now).Some? ==> WellFormed(Published(db, node, c, now).value) {
      forall i | 0 <= i < |es|
        ensures WellFormed(es[i])
      {
        assert es[i] in es;
        var c :| c in db.credentials && Published(db, node, c, now) == Some(es[i]);
      }
    }
  }

  class RadiusCache {
    var entries: seq<Entry>
    var generation: nat

    constructor ()
      ensures entries == [] && generation == 0
    {
      entries, generation := [], 0;
    }

    /** `sync_entitlements`: the whole file is replaced, or on any fault nothing is; the generation
        moves exactly when the contents do. */
    method SyncEntitlements(offered: seq<Entry>) returns (accepted: bool)
      modifies this
      ensures accepted <==> Acceptable(offered)
      ensures entries == Synced(old(entries), offered)
      ensures generation == if entries != old(entries) then old(generation) + 1 else old(generation)
    {
      hide WellFormed;
      if |offered| > MAX_ENTRIES {
        return false;
      }
      var seen: set<string> := {};
      var k := 0;
      while k < |offered|
        invariant k <= |offered| && entries == old(entries) && generation == old(generation)
        invariant seen == set i | 0 <= i < k :: offered[i].username
        invariant forall i :: 0 <= i < k ==> WellFormed(offered[i])
        invariant DistinctNames(offered[..k])
      {
        if !WellFormed(offered[k]) || offered[k].username in seen {
          return false;
        }
        seen := seen + {offered[k].username};
        k := k + 1;
      }
      assert offered[..k] == offered;
      if entries != offered {
        entries, generation := offered, generation + 1;
      }
      accepted := true;
    }
  }
}
