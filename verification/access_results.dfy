/** Who is granted access, and at which rates, on the rows themselves. */
module AccessResults {
  import opened Common
  import opened Entitlements

  /** The reserved addresses: four of 10.253.0.0/16 and eight of 10.254.0.0/16 for each of 4095 routers. */
  lemma AddressesAre(router: nat)
    ensures Addressing(router)
            == if 1 <= router <= 4095 then
                 Some(Addresses(Quad(10, 253, router / 64, router % 64 * 4 + 1), Quad(10, 253, router / 64, router % 64 * 4 + 2),
                                50000 + router, 55000 + router,
                                Quad(10, 254, router / 32, router % 32 * 8 + 2), Quad(10, 254, router / 32, router % 32 * 8 + 6),
                                Quad(10, 254, router / 32, router % 32 * 8 + 1)))
               else None
  {
    if 1 <= router <= 4095 {
      InNetwork(0x0AFD_0000, 253, router * 4 + 1, router / 64, router % 64 * 4 + 1);
      InNetwork(0x0AFD_0000, 253, router * 4 + 2, router / 64, router % 64 * 4 + 2);
      InNetwork(0x0AFE_0000, 254, router * 8 + 1, router / 32, router % 32 * 8 + 1);
      InNetwork(0x0AFE_0000, 254, router * 8 + 2, router / 32, router % 32 * 8 + 2);
      InNetwork(0x0AFE_0000, 254, router * 8 + 6, router / 32, router % 32 * 8 + 6);
    }
  }

  lemma InNetwork(network: nat, second: nat, offset: nat, c: nat, d: nat)
    requires network == 256 * 256 * (10 * 256 + second) && second < 256 && c < 256 && d < 256 && offset == c * 256 + d
    ensures Dotted(network + offset) == Quad(10, second, c, d)
  {
    var n := network + offset;
    assert n == ((10 * 256 + second) * 256 + c) * 256 + d;
    assert n / 256 == (10 * 256 + second) * 256 + c && n % 256 == d;
    assert n / 0x1_0000 == 10 * 256 + second;
  }

  /** The credential is enabled and not expired. */
  predicate Usable(c: Credential, now: int) { c.enabled && (c.expires.Some? ==> now < c.expires.value) }

  /** Its service belongs to the router's organization, and is active, or pending while it is put into service; a laboratory
      credential needs none. */
  predicate Entitled(c: Credential, r: Router) {
    if c.service.None? then c.lab
    else
      && c.service.value.organization == r.organization
      && (c.service.value.status == Active || (c.service.value.status == Pending && c.commissioning && c.expires.Some?))
  }

  /** The rates of its service, or its own. */
  predicate RatesAre(c: Credential, upload: nat, download: nat) {
    if c.service.Some? then upload == c.service.value.upload && download == c.service.value.download
    else upload == c.upload && download == c.download
  }

  /** Router `r` is in use on the node, and asks from its own tunnel address. */
  predicate Asks(r: Router, node: string, source: Quad) {
    && r.provisioned && r.node == node && 1 <= r.id <= 4095
    && source == Quad(10, 253, r.id / 64, r.id % 64 * 4 + 2)
  }

  /** A user is granted access exactly by a usable, entitled credential of its name on the router that asks, with that
      credential's password and rates. */
  lemma GrantedExactlyWhen(db: Db, node: string, source: Quad, username: string, now: int, g: Grant)
    requires DbOk(db)
    ensures Authorize(db, node, source, username, now) == Some(g) <==>
            exists r, c :: r in db.routers && c in db.credentials && Asks(r, node, source) && c.router == r.id && c.username == username
              && Usable(c, now) && Entitled(c, r) && g.password == c.password && RatesAre(c, g.upload, g.download)
  {
    hide *;
    if Authorize(db, node, source, username, now) == Some(g) { GrantedBy(db, node, source, username, now, g); }
    if r, c :| r in db.routers && c in db.credentials && Asks(r, node, source) && c.router == r.id && c.username == username
               && Usable(c, now) && Entitled(c, r) && g.password == c.password && RatesAre(c, g.upload, g.download) {
      GrantedTo(db, node, source, r, c, now, g);
    }
  }

  /** Who is granted access has such a credential. */
  lemma GrantedBy(db: Db, node: string, source: Quad, username: string, now: int, g: Grant)
    requires Authorize(db, node, source, username, now) == Some(g)
    ensures exists r, c :: r in db.routers && c in db.credentials && Asks(r, node, source) && c.router == r.id && c.username == username
              && Usable(c, now) && Entitled(c, r) && g.password == c.password && RatesAre(c, g.upload, g.download)
  {
    hide Addressing, Dotted, RouterAt, CredentialFor;
    RouterAtIs(db.routers, node, source);
    var r := RouterAt(db.routers, node, source).value;
    CredentialForIs(db.credentials, r.id, username);
    AddressesAre(r.id);
    var c := CredentialFor(db.credentials, r.id, username).value;
    assert r in db.routers && c in db.credentials && Asks(r, node, source) && c.router == r.id && c.username == username;
  }

  lemma GrantedTo(db: Db, node: string, source: Quad, r: Router, c: Credential, now: int, g: Grant)
    requires DbOk(db) && r in db.routers && c in db.credentials && Asks(r, node, source) && c.router == r.id
    requires Usable(c, now) && Entitled(c, r) && g.password == c.password && RatesAre(c, g.upload, g.download)
    ensures Authorize(db, node, source, c.username, now) == Some(g)
  {
    hide Addressing, Dotted, RouterById, Authorize;
    OnlineIs(db, node, source, c, now);
    AddressesAre(r.id);
    var i :| 0 <= i < |db.routers| && db.routers[i] == r;
    RouterByIdIs(db.routers, i);
  }

  /** A credential is published exactly when its router is in use on the node and it is usable and entitled. */
  lemma PublishedExactlyWhen(db: Db, node: string, c: Credential, now: int, e: Entry)
    requires DbOk(db)
    ensures Published(db, node, c, now) == Some(e) <==>
            && e.username == c.username && e.password == c.password && e.router == c.router && e.expires == c.expires
            && RatesAre(c, e.upload, e.download) && Usable(c, now)
            && exists r :: r in db.routers && r.id == c.router && r.provisioned && r.node == node && Entitled(c, r)
  {
    hide RouterById;
    RouterByIdIn(db.routers, c.router);
    if r :| r in db.routers && r.id == c.router && r.provisioned && r.node == node && Entitled(c, r) {
      var i :| 0 <= i < |db.routers| && db.routers[i] == r;
      RouterByIdIs(db.routers, i);
    }
  }

  /** The list is published exactly when it has at most 25000 entries. */
  lemma SnapshotExactlyWhen(db: Db, node: string, now: int)
    ensures Snapshot(db, node, now).Some? <==> |Entries(db, node, db.credentials, now)| <= 25_000
    ensures Snapshot(db, node, now).Some? ==> Snapshot(db, node, now).value == Entries(db, node, db.credentials, now)
  {
  }

  /** The file grants exactly what the user's line says, to the address of the router it names, until it expires. */
  lemma {:induction false} FileGrantsExactlyWhen(entries: seq<Entry>, source: Quad, username: string, now: int, g: Grant)
    requires DistinctNames(entries)
    ensures Lookup(entries, source, username, now) == Some(g) <==>
            exists e :: e in entries && e.username == username && 1 <= e.router <= 4095
              && source == Quad(10, 253, e.router / 64, e.router % 64 * 4 + 2)
              && (e.expires.Some? ==> now < e.expires.value) && g == Grant(e.password, e.upload, e.download)
    decreases |entries|
  {
    hide Config, Addressing, Dotted;
    if entries != [] {
      var first, rest := entries[0], entries[1..];
      assert entries == [first] + rest;
      AddressesAre(first.router);
      SameAddresses(first.router);
      FileGrantsExactlyWhen(rest, source, username, now, g);
      if first.username == username {
        forall e | e in rest
          ensures e.username != username
        {
          var i :| 0 <= i < |rest| && rest[i] == e;
          assert entries[i + 1] == e;
        }
      }
    }
  }

  /** The agent takes an entry exactly with a name and a password of the allowed length and characters, a router that has
      addresses, and rates from one to a hundred thousand. */
  lemma WellFormedExactlyWhen(e: Entry)
    ensures WellFormed(e) <==>
            && 1 <= |e.username| <= 100 && 1 <= |e.password| <= 128 && 1 <= e.router <= 4095
            && 1 <= e.upload <= 100_000 && 1 <= e.download <= 100_000
            && (forall k :: 0 <= k < |e.password| ==> 32 <= e.password[k] as int)
            && (forall k :: 0 <= k < |e.username| ==> var x := e.username[k] as int;
                  48 <= x <= 57 || 65 <= x <= 90 || 97 <= x <= 122 || x == 45 || x == 46 || x == 64 || x == 95)
  {
    AddressesAre(e.router);
    SameAddresses(e.router);
    hide Config, Addressing;
    forall k | 0 <= k < |e.username|
      ensures UserChar(e.username[k]) <==> var x := e.username[k] as int;
                48 <= x <= 57 || 65 <= x <= 90 || 97 <= x <= 122 || x == 45 || x == 46 || x == 64 || x == 95
    {
      UserCharIs(e.username[k]);
    }
  }

  lemma UserCharIs(c: char)
    ensures UserChar(c) <==> var x := c as int; 48 <= x <= 57 || 65 <= x <= 90 || 97 <= x <= 122 || x == 45 || x == 46 || x == 64 || x == 95
  {
    assert c in "_.@-" <==> c == '_' || c == '.' || c == '@' || c == '-';
  }
}
