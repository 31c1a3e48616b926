/**
 The migration that turns free-text tenants and sites into clients and locations, and the runtime lookup that must
 agree with it. The truncated hash of the migration's stable identifiers is a parameter `h`.
 */
module ScopeHierarchy {
  import opened Wrappers
  import Text

  const QUARANTINE_CLIENT := "cl_legacy_quarantine"
  const QUARANTINE_LOCATION := "loc_legacy_quarantine"
  const NULL_TEXT := "<null>"
  const NUL := '\0'

  datatype State = Active | Archived | MigrationQuarantine

  datatype Client = Client(key: Option<string>, state: State)

  datatype Location = Location(client: string, key: Option<string>, state: State)

  // The legacy fields of a row: tenant and site.
  datatype Pair = Pair(tenant: Option<string>, site: Option<string>)

  type Digest = string -> string

  // ---- Stable identifiers ----

  function OrNull(field: Option<string>): string {
    if field.Some? then field.value else NULL_TEXT
  }

  function Joined(p: Pair): string {
    OrNull(p.tenant) + [NUL] + OrNull(p.site)
  }

  function ClientId(tenant: Option<string>, h: Digest): string {
    if tenant.None? then QUARANTINE_CLIENT else "cl_" + h(tenant.value)
  }

  function LocationId(p: Pair, h: Digest): string {
    if p == Pair(None, None) then QUARANTINE_LOCATION else "loc_" + h(Joined(p))
  }

  // The pairs that get a location of their own.
  function Located(pairs: set<Pair>): set<Pair> {
    pairs - {Pair(None, None)}
  }

  // The pairs of a tenant without a site.
  function TenantOnly(pairs: set<Pair>): set<Pair> {
    set p | p in pairs && p.tenant.Some? && p.site.None?
  }

  function Under(pairs: set<Pair>, tenants: set<string>): set<Pair> {
    set p | p in pairs && p.tenant.Some? && p.tenant.value in tenants
  }

  lemma MoreIsStillDistinct(located: set<Pair>, p: Pair)
    requires JoinedDistinct(located) && forall q | q in located :: Joined(q) != Joined(p)
    ensures JoinedDistinct(located + {p})
  {
  }

  lemma StillDistinct(pairs: set<Pair>, done: set<string>, t: string)
    requires JoinedDistinct(TenantOnly(Under(pairs, done)))
    requires Pair(Some(t), None) in pairs ==>
               forall q | q in TenantOnly(Under(pairs, done)) :: Joined(q) != Joined(Pair(Some(t), None))
    ensures JoinedDistinct(TenantOnly(Under(pairs, done + {t})))
  {
    forall p | p in TenantOnly(Under(pairs, done + {t})) && p !in TenantOnly(Under(pairs, done))
      ensures p == Pair(Some(t), None) && p in pairs
    {
    }
  }

  function Tenants(pairs: set<Pair>): set<string> {
    set p | p in pairs && p.tenant.Some? :: p.tenant.value
  }

  lemma UnderAllTenants(pairs: set<Pair>)
    ensures TenantOnly(Under(pairs, Tenants(pairs))) == TenantOnly(pairs)
  {
    forall p | p in TenantOnly(pairs) ensures p in Under(pairs, Tenants(pairs)) {}
  }

  // The digest has 32 characters and tells apart everything this migration hashes.
  ghost predicate Tells(h: Digest, pairs: set<Pair>) {
    && (forall x :: |h(x)| == 32)
    && (forall t, u | t in Tenants(pairs) && u in Tenants(pairs) && h(t) == h(u) :: t == u)
    && (forall p, q | p in Located(pairs) && q in Located(pairs) && h(Joined(p)) == h(Joined(q)) :: Joined(p) == Joined(q))
  }

  predicate JoinedDistinct(pairs: set<Pair>) {
    forall p, q | p in Located(pairs) && q in Located(pairs) && Joined(p) == Joined(q) :: p == q
  }

  predicate PlainField(field: Option<string>) {
    field.Some? ==> field.value != NULL_TEXT && NUL !in field.value
  }

  lemma JoinIsInjective(t: string, s: string, u: string, v: string)
    requires NUL !in t && NUL !in u && t + [NUL] + s == u + [NUL] + v
    ensures t == u && s == v
  {
    var text := t + [NUL] + s;
    assert forall k | 0 <= k < |t| :: text[k] == t[k] && t[k] in t;
    assert forall k | 0 <= k < |u| :: text[k] == u[k] && u[k] in u;
    assert text[|t|] == NUL && text[|u|] == NUL;
    assert |t| == |u|;
    assert t == text[..|t|] && u == text[..|u|] && s == text[|t| + 1..] && v == text[|u| + 1..];
  }

  // Plain fields never collide.
  lemma PlainPairsAreDistinct(pairs: set<Pair>)
    requires forall p | p in pairs :: PlainField(p.tenant) && PlainField(p.site)
    ensures JoinedDistinct(pairs)
  {
    forall p, q | p in Located(pairs) && q in Located(pairs) && Joined(p) == Joined(q) ensures p == q {
      JoinIsInjective(OrNull(p.tenant), OrNull(p.site), OrNull(q.tenant), OrNull(q.site));
    }
  }

  // A site spelled like the marker for a missing one does.
  lemma NullMarkerCollides(tenant: string)
    ensures !JoinedDistinct({Pair(Some(tenant), None), Pair(Some(tenant), Some(NULL_TEXT))})
  {
    var p, q := Pair(Some(tenant), None), Pair(Some(tenant), Some(NULL_TEXT));
    assert p in Located({p, q}) && q in Located({p, q}) && Joined(p) == Joined(q);
  }

  // ---- The rows the migration creates ----

  function ClientFor(tenant: string): Client {
    Client(Some(tenant), Active)
  }

  function LocationFor(p: Pair, h: Digest): Location {
    Location(ClientId(p.tenant, h), p.site, if p.tenant.Some? && p.site.Some? then Active else MigrationQuarantine)
  }

  // The clients for exactly these tenants, and the quarantine.
  ghost predicate ClientsFor(clients: map<string, Client>, tenants: set<string>, h: Digest) {
    && QUARANTINE_CLIENT in clients && clients[QUARANTINE_CLIENT] == Client(None, MigrationQuarantine)
    && (forall t | t in tenants :: ClientId(Some(t), h) in clients && clients[ClientId(Some(t), h)] == ClientFor(t))
    && (forall c | c in clients && c != QUARANTINE_CLIENT :: exists t :: t in tenants && c == ClientId(Some(t), h))
  }

  ghost predicate LocationsFor(locations: map<string, Location>, located: set<Pair>, h: Digest) {
    && QUARANTINE_LOCATION in locations
    && locations[QUARANTINE_LOCATION] == Location(QUARANTINE_CLIENT, None, MigrationQuarantine)
    && (forall p | p in located :: LocationId(p, h) in locations && locations[LocationId(p, h)] == LocationFor(p, h))
    && (forall l | l in locations && l != QUARANTINE_LOCATION :: exists p :: p in located && l == LocationId(p, h))
  }

  ghost predicate Migrated(clients: map<string, Client>, locations: map<string, Location>, pairs: set<Pair>, h: Digest) {
    ClientsFor(clients, Tenants(pairs), h) && LocationsFor(locations, Located(pairs), h)
  }

  // What has both keys is active, and everything else is in quarantine.
  lemma MigratedStates(clients: map<string, Client>, locations: map<string, Location>, pairs: set<Pair>, h: Digest)
    requires Migrated(clients, locations, pairs, h)
    ensures forall c | c in clients :: clients[c].state == if clients[c].key.Some? then Active else MigrationQuarantine
    ensures forall l | l in locations ::
              && locations[l].client in clients
              && locations[l].state ==
                 if clients[locations[l].client].key.Some? && locations[l].key.Some? then Active else MigrationQuarantine
  {
    forall c | c in clients ensures clients[c].state == if clients[c].key.Some? then Active else MigrationQuarantine {
      if c != QUARANTINE_CLIENT {
        var t :| t in Tenants(pairs) && c == ClientId(Some(t), h);
      }
    }
    forall l | l in locations
      ensures locations[l].client in clients
      ensures locations[l].state ==
              if clients[locations[l].client].key.Some? && locations[l].key.Some? then Active else MigrationQuarantine
    {
      if l != QUARANTINE_LOCATION {
        var p :| p in Located(pairs) && l == LocationId(p, h);
        assert p.tenant.Some? ==> p.tenant.value in Tenants(pairs);
      }
    }
  }

  // The constraints the two tables declare.
  predicate UniqueKeys(clients: map<string, Client>, locations: map<string, Location>) {
    && (forall c, d | c in clients && d in clients && clients[c].key.Some? && clients[c].key == clients[d].key :: c == d)
    && (forall l, m | l in locations && m in locations && locations[l].key.Some? && locations[l].key == locations[m].key
                      && locations[l].client == locations[m].client :: l == m)
    && (forall l | l in locations :: locations[l].client in clients)
  }

  predicate ClientKeyFree(clients: map<string, Client>, key: Option<string>) {
    key.Some? ==> forall c | c in clients :: clients[c].key != key
  }

  predicate LocationKeyFree(locations: map<string, Location>, client: string, key: Option<string>) {
    key.Some? ==> forall l | l in locations :: locations[l].client != client || locations[l].key != key
  }

  lemma NewClientIsFree(clients: map<string, Client>, done: set<string>, t: string, h: Digest)
    requires ClientsFor(clients, done, h) && t !in done
    requires |h(t)| == 32 && forall u | u in done :: h(u) != h(t)
    ensures ClientId(Some(t), h) !in clients && ClientKeyFree(clients, Some(t))
    ensures ClientsFor(clients[ClientId(Some(t), h) := ClientFor(t)], done + {t}, h)
  {
    var id := ClientId(Some(t), h);
    assert id[3..] == h(t);
    assert |id| != |QUARANTINE_CLIENT|;
    forall u | u in done ensures ClientId(Some(u), h) != id {
      assert ClientId(Some(u), h)[3..] == h(u);
    }
    forall c | c in clients ensures clients[c].key != Some(t) {
      if c != QUARANTINE_CLIENT {
        var u :| u in done && c == ClientId(Some(u), h);
      }
    }
  }

  // A location can be inserted exactly if no pair with the same joined text has been.
  lemma NewLocationIsFree(locations: map<string, Location>, done: set<Pair>, p: Pair, h: Digest)
    requires LocationsFor(locations, done, h) && p !in done && p != Pair(None, None) && Pair(None, None) !in done
    requires |h(Joined(p))| == 32
    requires forall q | q in done && h(Joined(q)) == h(Joined(p)) :: Joined(q) == Joined(p)
    ensures LocationId(p, h) in locations <==> exists q :: q in done && Joined(q) == Joined(p)
    ensures LocationId(p, h) !in locations ==> LocationsFor(locations[LocationId(p, h) := LocationFor(p, h)], done + {p}, h)
  {
    var id := LocationId(p, h);
    assert id[4..] == h(Joined(p));
    assert |id| != |QUARANTINE_LOCATION|;
    if id in locations {
      var q :| q in done && id == LocationId(q, h);
      assert LocationId(q, h)[4..] == h(Joined(q));
    }
    if q :| q in done && Joined(q) == Joined(p) {
      assert LocationId(q, h) == id;
    }
  }

  lemma ClientsApart(t: Option<string>, u: Option<string>, h: Digest)
    requires t.Some? ==> |h(t.value)| == 32
    requires u.Some? ==> |h(u.value)| == 32
    requires t.Some? && u.Some? && h(t.value) == h(u.value) ==> t == u
    ensures ClientId(t, h) == ClientId(u, h) ==> t == u
  {
    if t.Some? {
      assert ClientId(t, h)[3..] == h(t.value) && |ClientId(t, h)| == 35;
    }
    if u.Some? {
      assert ClientId(u, h)[3..] == h(u.value) && |ClientId(u, h)| == 35;
    }
  }

  lemma NewLocationKeyIsFree(locations: map<string, Location>, done: set<Pair>, p: Pair, h: Digest, pairs: set<Pair>)
    requires LocationsFor(locations, done, h) && done <= Located(pairs) && p in pairs && p !in done && Tells(h, pairs)
    ensures LocationKeyFree(locations, ClientId(p.tenant, h), p.site)
  {
    if p.site.Some? {
      forall l | l in locations ensures locations[l].client != ClientId(p.tenant, h) || locations[l].key != p.site {
        if l != QUARANTINE_LOCATION {
          var q :| q in done && l == LocationId(q, h);
          assert q.tenant.Some? ==> q.tenant.value in Tenants(pairs);
          assert p.tenant.Some? ==> p.tenant.value in Tenants(pairs);
          ClientsApart(q.tenant, p.tenant, h);
          assert locations[l] == LocationFor(q, h);
        }
      }
    }
  }

  lemma TellsTenants(h: Digest, pairs: set<Pair>, p: Pair, q: Pair)
    requires Tells(h, pairs) && p in pairs && q in pairs
    ensures ClientId(p.tenant, h) == ClientId(q.tenant, h) ==> p.tenant == q.tenant
  {
    assert p.tenant.Some? ==> p.tenant.value in Tenants(pairs);
    assert q.tenant.Some? ==> q.tenant.value in Tenants(pairs);
    ClientsApart(p.tenant, q.tenant, h);
  }

  // No identifier and no key is given out twice, and every location belongs to a client.
  lemma MigratedKeysAreUnique(clients: map<string, Client>, locations: map<string, Location>, pairs: set<Pair>, h: Digest)
    requires Migrated(clients, locations, pairs, h) && Tells(h, pairs)
    ensures UniqueKeys(clients, locations)
  {
    forall c, d | c in clients && d in clients && clients[c].key.Some? && clients[c].key == clients[d].key ensures c == d {
      var t :| t in Tenants(pairs) && c == ClientId(Some(t), h);
      var u :| u in Tenants(pairs) && d == ClientId(Some(u), h);
    }
    forall l | l in locations ensures locations[l].client in clients {
      if l != QUARANTINE_LOCATION {
        var p :| p in Located(pairs) && l == LocationId(p, h);
        assert p.tenant.Some? ==> p.tenant.value in Tenants(pairs);
      }
    }
    forall l, m | l in locations && m in locations && locations[l].key.Some? && locations[l].key == locations[m].key
                  && locations[l].client == locations[m].client
      ensures l == m
    {
      var p :| p in Located(pairs) && l == LocationId(p, h);
      var q :| q in Located(pairs) && m == LocationId(q, h);
      TellsTenants(h, pairs, p, q);
    }
  }

  // ---- The migration ----

  datatype Row = Row(pair: Pair, client: Option<string>, location: Option<string>)

  function BackfilledRow(row: Row, h: Digest): Row {
    Row(row.pair, Some(ClientId(row.pair.tenant, h)), Some(LocationId(row.pair, h)))
  }

  class Database {
    var clients: map<string, Client>
    var locations: map<string, Location>
    var rows: map<string, Row>

    constructor (rows: map<string, Row>)
      ensures clients == map[] && locations == map[] && this.rows == rows
    {
      clients, locations, this.rows := map[], map[], rows;
    }

    // _insert_client; false stands for the integrity error that aborts the migration.
    method InsertClient(id: string, client: Client) returns (ok: bool)
      modifies this`clients
      ensures ok <==> id !in old(clients) && ClientKeyFree(old(clients), client.key)
      ensures clients == if ok then old(clients)[id := client] else old(clients)
    {
      ok := id !in clients && ClientKeyFree(clients, client.key);
      if ok {
        clients := clients[id := client];
      }
    }

    // _insert_location
    method InsertLocation(id: string, location: Location) returns (ok: bool)
      modifies this`locations
      ensures ok <==> id !in old(locations) && location.client in clients
                      && LocationKeyFree(old(locations), location.client, location.key)
      ensures locations == if ok then old(locations)[id := location] else old(locations)
    {
      ok := id !in locations && location.client in clients && LocationKeyFree(locations, location.client, location.key);
      if ok {
        locations := locations[id := location];
      }
    }

    // The location of one more pair
    method InsertPair(p: Pair, h: Digest, ghost done: set<Pair>, ghost pairs: set<Pair>) returns (ok: bool)
      requires LocationsFor(locations, done, h) && Tells(h, pairs)
      requires done <= Located(pairs) && p in Located(pairs) && p !in done && ClientId(p.tenant, h) in clients
      modifies this`locations
      ensures ok <==> forall q | q in done :: Joined(q) != Joined(p)
      ensures ok ==> LocationsFor(locations, done + {p}, h)
    {
      NewLocationIsFree(locations, done, p, h);
      NewLocationKeyIsFree(locations, done, p, h, pairs);
      ok := InsertLocation(LocationId(p, h), LocationFor(p, h));
    }

    // One tenant: its client and, if some row has no site, the location for those
    method CreateTenant(t: string, pairs: set<Pair>, h: Digest, ghost done: set<string>) returns (ok: bool)
      requires done <= Tenants(pairs) && t in Tenants(pairs) && t !in done && Tells(h, pairs)
      requires ClientsFor(clients, done, h) && LocationsFor(locations, TenantOnly(Under(pairs, done)), h)
      modifies this`clients, this`locations
      ensures ok ==> ClientsFor(clients, done + {t}, h) && LocationsFor(locations, TenantOnly(Under(pairs, done + {t})), h)
      ensures ok ==> forall q | q in TenantOnly(Under(pairs, done)) && Pair(Some(t), None) in pairs ::
                       Joined(q) != Joined(Pair(Some(t), None))
      ensures !ok ==> !JoinedDistinct(pairs)
    {
      NewClientIsFree(clients, done, t, h);
      ok := InsertClient(ClientId(Some(t), h), ClientFor(t));
      var p := Pair(Some(t), None);
      ghost var located := TenantOnly(Under(pairs, done));
      if p in pairs {
        ok := InsertPair(p, h, located, pairs);
        if !ok {
          ghost var q :| q in located && Joined(q) == Joined(p);
          assert p in Located(pairs) && q in Located(pairs);
          return;
        }
        assert TenantOnly(Under(pairs, done + {t})) == located + {p};
      } else {
        assert TenantOnly(Under(pairs, done + {t})) == located;
      }
    }

    // The first loop of _create_scope_rows
    method CreateTenants(pairs: set<Pair>, h: Digest) returns (ok: bool)
      requires ClientsFor(clients, {}, h) && LocationsFor(locations, {}, h) && Tells(h, pairs)
      modifies this`clients, this`locations
      ensures ok ==> ClientsFor(clients, Tenants(pairs), h) && LocationsFor(locations, TenantOnly(pairs), h)
      ensures ok ==> JoinedDistinct(TenantOnly(pairs))
      ensures !ok ==> !JoinedDistinct(pairs)
    {
      var rest := Tenants(pairs);
      ghost var done: set<string> := {};
      assert TenantOnly(Under(pairs, done)) == {};
      while rest != {}
        invariant rest <= Tenants(pairs) && done == Tenants(pairs) - rest
        invariant ClientsFor(clients, done, h) && LocationsFor(locations, TenantOnly(Under(pairs, done)), h)
        invariant JoinedDistinct(TenantOnly(Under(pairs, done)))
      {
        var t :| t in rest;
        ok := CreateTenant(t, pairs, h, done);
        if !ok {
          return;
        }
        StillDistinct(pairs, done, t);
        done, rest := done + {t}, rest - {t};
      }
      assert done == Tenants(pairs);
      UnderAllTenants(pairs);
      return true;
    }

    // One location with a site
    method CreateSite(p: Pair, pairs: set<Pair>, h: Digest, ghost done: set<Pair>) returns (ok: bool)
      requires ClientsFor(clients, Tenants(pairs), h) && LocationsFor(locations, done, h) && Tells(h, pairs)
      requires done <= Located(pairs) && p in Located(pairs) && p !in done
      modifies this`locations
      ensures ok ==> LocationsFor(locations, done + {p}, h) && forall q | q in done :: Joined(q) != Joined(p)
      ensures !ok ==> !JoinedDistinct(pairs)
    {
      assert p.tenant.Some? ==> p.tenant.value in Tenants(pairs);
      ok := InsertPair(p, h, done, pairs);
      if !ok {
        ghost var q :| q in done && Joined(q) == Joined(p);
        assert p in Located(pairs) && q in Located(pairs);
      }
    }

    // The second loop of _create_scope_rows
    method CreateSites(pairs: set<Pair>, h: Digest) returns (ok: bool)
      requires ClientsFor(clients, Tenants(pairs), h) && Tells(h, pairs)
      requires LocationsFor(locations, TenantOnly(pairs), h) && JoinedDistinct(TenantOnly(pairs))
      modifies this`locations
      ensures ok ==> LocationsFor(locations, Located(pairs), h)
      ensures ok <==> JoinedDistinct(pairs)
    {
      var rest := set p | p in pairs && p.site.Some?;
      ghost var located := TenantOnly(pairs);
      while rest != {}
        invariant rest <= pairs && (forall p | p in rest :: p.site.Some?) && located == Located(pairs) - rest
        invariant LocationsFor(locations, located, h) && JoinedDistinct(located)
      {
        var p :| p in rest;
        ok := CreateSite(p, pairs, h, located);
        if !ok {
          return;
        }
        MoreIsStillDistinct(located, p);
        rest, located := rest - {p}, located + {p};
      }
      assert located == Located(pairs);
      return true;
    }

    // _create_scope_rows: it goes through exactly if no two pairs look alike once joined.
    method CreateScopeRows(pairs: set<Pair>, h: Digest) returns (ok: bool)
      requires clients == map[] && locations == map[] && Tells(h, pairs)
      modifies this`clients, this`locations
      ensures ok <==> JoinedDistinct(pairs)
      ensures ok ==> Migrated(clients, locations, pairs, h) && UniqueKeys(clients, locations)
    {
      ok := InsertClient(QUARANTINE_CLIENT, Client(None, MigrationQuarantine));
      ok := InsertLocation(QUARANTINE_LOCATION, Location(QUARANTINE_CLIENT, None, MigrationQuarantine));
      ok := CreateTenants(pairs, h);
      if ok {
        ok := CreateSites(pairs, h);
        if ok {
          MigratedKeysAreUnique(clients, locations, pairs, h);
        }
      }
    }

    // _backfill_table
    method BackfillTable(h: Digest)
      modifies this`rows
      ensures rows == map id | id in old(rows) :: BackfilledRow(old(rows)[id], h)
    {
      var rest := rows.Keys;
      while rest != {}
        invariant rows.Keys == old(rows).Keys && rest <= rows.Keys
        invariant forall id | id in rows :: rows[id] == if id in rest then old(rows)[id] else BackfilledRow(old(rows)[id], h)
      {
        var id :| id in rest;
        rows := rows[id := BackfilledRow(rows[id], h)];
        rest := rest - {id};
      }
    }

    // The data part of the upgrade. It is total: every row ends up at an existing location of an existing client.
    method Upgrade(h: Digest) returns (ok: bool)
      requires clients == map[] && locations == map[] && Tells(h, PairsOf(rows))
      modifies this
      ensures ok <==> JoinedDistinct(PairsOf(old(rows)))
      ensures ok ==> Migrated(clients, locations, PairsOf(rows), h) && UniqueKeys(clients, locations)
      ensures ok ==> rows == map id | id in old(rows) :: BackfilledRow(old(rows)[id], h)
      ensures ok ==> forall id | id in rows ::
                       && rows[id].pair == old(rows)[id].pair
                       && rows[id].client.Some? && rows[id].client.value in clients
                       && rows[id].location.Some? && rows[id].location.value in locations
                       && locations[rows[id].location.value].client == rows[id].client.value
                       && locations[rows[id].location.value].key == rows[id].pair.site
                       && clients[rows[id].client.value].key == rows[id].pair.tenant
    {
      ok := CreateScopeRows(PairsOf(rows), h);
      if ok {
        BackfillTable(h);
        BackfillKeepsPairs(old(rows), h);
        forall id | id in rows
          ensures ClientId(rows[id].pair.tenant, h) in clients && LocationId(rows[id].pair, h) in locations
          ensures locations[LocationId(rows[id].pair, h)].client == ClientId(rows[id].pair.tenant, h)
          ensures locations[LocationId(rows[id].pair, h)].key == rows[id].pair.site
          ensures clients[ClientId(rows[id].pair.tenant, h)].key == rows[id].pair.tenant
        {
          MigratedRowIsPlaced(clients, locations, PairsOf(rows), h, rows[id].pair);
        }
      }
    }
  }

  lemma BackfillKeepsPairs(rows: map<string, Row>, h: Digest)
    ensures PairsOf(map id | id in rows :: BackfilledRow(rows[id], h)) == PairsOf(rows)
  {
    var after := map id | id in rows :: BackfilledRow(rows[id], h);
    forall p | p in PairsOf(rows) ensures p in PairsOf(after) {
      var id :| id in rows && rows[id].pair == p;
      assert after[id].pair == p;
    }
  }

  function PairsOf(rows: map<string, Row>): set<Pair> {
    set id | id in rows :: rows[id].pair
  }

  lemma MigratedRowIsPlaced(clients: map<string, Client>, locations: map<string, Location>, pairs: set<Pair>, h: Digest, p: Pair)
    requires Migrated(clients, locations, pairs, h) && p in pairs
    ensures ClientId(p.tenant, h) in clients && clients[ClientId(p.tenant, h)].key == p.tenant
    ensures clients[ClientId(p.tenant, h)].state != Archived
    ensures LocationId(p, h) in locations && locations[LocationId(p, h)].key == p.site
    ensures locations[LocationId(p, h)].client == ClientId(p.tenant, h) && locations[LocationId(p, h)].state != Archived
  {
    assert p.tenant.Some? ==> p.tenant.value in Tenants(pairs);
    assert p != Pair(None, None) ==> p in Located(pairs);
  }

  // ---- Runtime resolution ----

  const UNPROCESSABLE := 422
  const CONFLICT := 409

  datatype Scope = Scope(client: string, location: string, tenant: Option<string>, site: Option<string>)

  // What a request says: the canonical identifiers, the legacy fields, and which of them were supplied at all.
  datatype ScopeRequest = ScopeRequest(client: Option<string>, location: Option<string>, tenant: Option<string>, site: Option<string>,
                                       canonicalSupplied: bool, tenantSupplied: bool, siteSupplied: bool)

  // normalize_optional_string
  function NormalizeOptional(field: Option<string>): Result<Option<string>, nat> {
    if field.None? then Success(None)
    else if Text.Strip(field.value, Text.PYTHON_SPACE) == "" then Failure(UNPROCESSABLE)
    else Success(Some(Text.Strip(field.value, Text.PYTHON_SPACE)))
  }

  // The client with a key; the column is unique.
  ghost function ClientWithKey(clients: map<string, Client>, key: string): Option<string> {
    if c :| c in clients && clients[c].key == Some(key) then Some(c) else None
  }

  // The first location of a client with a key, where no key asks for one without.
  ghost function LocationWithKey(locations: map<string, Location>, client: string, key: Option<string>): Option<string> {
    if l :| l in locations && locations[l].client == client && locations[l].key == key then Some(l) else None
  }

  // load_scope
  function LoadScope(clients: map<string, Client>, locations: map<string, Location>, client: string, location: string)
    : Result<(string, string), nat>
  {
    if client !in clients || location !in locations || locations[location].client != client then Failure(UNPROCESSABLE)
    else if clients[client].state.Archived? || locations[location].state.Archived? then Failure(CONFLICT)
    else Success((client, location))
  }

  ghost function ResolveCanonical(
    clients: map<string, Client>, locations: map<string, Location>, request: ScopeRequest, tenant: Option<string>, site: Option<string>)
    : Result<Scope, nat>
  {
    if request.client.None? || request.location.None? then Failure(UNPROCESSABLE)
    else
      match (NormalizeOptional(request.client), NormalizeOptional(request.location))
      case (Failure(code), _) => Failure(code)
      case (_, Failure(code)) => Failure(code)
      case (Success(c), Success(l)) =>
        match LoadScope(clients, locations, c.value, l.value)
        case Failure(code) => Failure(code)
        case Success((client, location)) =>
          if request.tenantSupplied && tenant != clients[client].key then Failure(UNPROCESSABLE)
          else if request.siteSupplied && site != locations[location].key then Failure(UNPROCESSABLE)
          else Success(Scope(client, location, clients[client].key, locations[location].key))
  }

  // The client and location that carry the legacy fields as keys, if both exist.
  ghost function FindLegacy(
    clients: map<string, Client>, locations: map<string, Location>, tenant: Option<string>, site: Option<string>)
    : Option<(string, string)>
  {
    var client :=
      if tenant.Some? then ClientWithKey(clients, tenant.value)
      else if site.Some? && QUARANTINE_CLIENT in clients then Some(QUARANTINE_CLIENT)
      else None;
    if client.None? then None
    else
      var location := LocationWithKey(locations, client.value, site);
      if location.None? then None else Some((client.value, location.value))
  }

  ghost function ResolveLegacy(
    clients: map<string, Client>, locations: map<string, Location>, tenant: Option<string>, site: Option<string>): Result<Scope, nat>
  {
    var found := FindLegacy(clients, locations, tenant, site);
    if found.None? || found.value.0 !in clients || clients[found.value.0].state.Archived?
       || found.value.1 !in locations || locations[found.value.1].state.Archived?
    then
      match LoadScope(clients, locations, QUARANTINE_CLIENT, QUARANTINE_LOCATION)
      case Failure(code) => Failure(code)
      case Success(_) => Success(Scope(QUARANTINE_CLIENT, QUARANTINE_LOCATION, tenant, site))
    else
      Success(Scope(found.value.0, found.value.1, tenant, site))
  }

  // resolve_scope
  ghost function ResolveScope(clients: map<string, Client>, locations: map<string, Location>, request: ScopeRequest)
    : Result<Scope, nat>
  {
    match (NormalizeOptional(request.tenant), NormalizeOptional(request.site))
    case (Failure(code), _) => Failure(code)
    case (_, Failure(code)) => Failure(code)
    case (Success(tenant), Success(site)) =>
      if request.canonicalSupplied then ResolveCanonical(clients, locations, request, tenant, site)
      else ResolveLegacy(clients, locations, tenant, site)
  }

  // Whatever the tables hold: a resolved scope is an unarchived location of an unarchived client.
  lemma ResolvedScopeIsUsable(clients: map<string, Client>, locations: map<string, Location>, request: ScopeRequest)
    requires ResolveScope(clients, locations, request).Success?
    ensures IsUsable(clients, locations, ResolveScope(clients, locations, request).value)
  {
    var tenant, site := NormalizeOptional(request.tenant).value, NormalizeOptional(request.site).value;
    if request.canonicalSupplied {
      CanonicalScopeIsUsable(clients, locations, request, tenant, site);
    } else {
      LegacyScopeIsUsable(clients, locations, tenant, site);
    }
  }

  predicate IsUsable(clients: map<string, Client>, locations: map<string, Location>, scope: Scope) {
    && scope.client in clients && !clients[scope.client].state.Archived?
    && scope.location in locations && !locations[scope.location].state.Archived?
    && locations[scope.location].client == scope.client
  }

  lemma CanonicalScopeIsUsable(
    clients: map<string, Client>, locations: map<string, Location>, request: ScopeRequest, tenant: Option<string>, site: Option<string>)
    requires ResolveCanonical(clients, locations, request, tenant, site).Success?
    ensures IsUsable(clients, locations, ResolveCanonical(clients, locations, request, tenant, site).value)
  {
    var client, location := NormalizeOptional(request.client).value.value, NormalizeOptional(request.location).value.value;
    assert LoadScope(clients, locations, client, location).Success?;
  }

  lemma LegacyScopeIsUsable(clients: map<string, Client>, locations: map<string, Location>, tenant: Option<string>, site: Option<string>)
    requires ResolveLegacy(clients, locations, tenant, site).Success?
    ensures IsUsable(clients, locations, ResolveLegacy(clients, locations, tenant, site).value)
  {
  }

  // ---- What is resolved, in terms of tables and texts ----

  // A legacy field names a key: neither is given, or the key is the field without the white space around it.
  ghost predicate Names(field: Option<string>, key: Option<string>) {
    if field.None? then key.None?
    else key.Some? && key.value != "" && Text.IsTrimOf(field.value, key.value, Text.PYTHON_SPACE)
  }

  // A field that is given has something in it.
  ghost predicate IsFilled(field: Option<string>) {
    exists key :: Names(field, key)
  }

  ghost predicate IsLinked(clients: map<string, Client>, locations: map<string, Location>, client: string, location: string) {
    client in clients && location in locations && locations[location].client == client
  }

  lemma NormalizeNames(field: Option<string>, key: Option<string>)
    ensures NormalizeOptional(field) == Success(key) <==> Names(field, key)
    ensures NormalizeOptional(field) == Success(key) || NormalizeOptional(field).Failure? || !Names(field, key)
    ensures NormalizeOptional(field).Failure? ==> NormalizeOptional(field) == Failure(UNPROCESSABLE)
  {
    if field.Some? && key.Some? {
      Text.StripIff(field.value, key.value, Text.PYTHON_SPACE);
    }
  }

  lemma NormalizeIsFilled(field: Option<string>)
    ensures NormalizeOptional(field).Success? <==> IsFilled(field)
    ensures NormalizeOptional(field).Success? ==> Names(field, NormalizeOptional(field).value)
  {
    if NormalizeOptional(field).Success? {
      NormalizeNames(field, NormalizeOptional(field).value);
    } else if key :| Names(field, key) {
      NormalizeNames(field, key);
    }
  }

  // The canonical identifiers of the request, trimmed, and what it says beside them.
  ghost predicate AsksFor(request: ScopeRequest, client: string, location: string) {
    && request.client.Some? && Names(request.client, Some(client))
    && request.location.Some? && Names(request.location, Some(location))
    && IsFilled(request.tenant) && IsFilled(request.site)
  }

  // A canonical request gets exactly the location it names, with its keys, if that is an unarchived location of the
  // unarchived client it names and every legacy field it supplies names the key there.
  lemma CanonicalResolutionIff(
    clients: map<string, Client>, locations: map<string, Location>, request: ScopeRequest, scope: Scope)
    requires request.canonicalSupplied
    ensures ResolveScope(clients, locations, request) == Success(scope) <==>
            && AsksFor(request, scope.client, scope.location) && IsUsable(clients, locations, scope)
            && scope.tenant == clients[scope.client].key && scope.site == locations[scope.location].key
            && (request.tenantSupplied ==> Names(request.tenant, scope.tenant))
            && (request.siteSupplied ==> Names(request.site, scope.site))
  {
    NormalizeIsFilled(request.tenant);
    NormalizeIsFilled(request.site);
    NormalizeNames(request.tenant, scope.tenant);
    NormalizeNames(request.site, scope.site);
    NormalizeNames(request.client, Some(scope.client));
    NormalizeNames(request.location, Some(scope.location));
  }

  // It is refused with 409 exactly if it names a location of a client and one of them is archived, and with 422 otherwise.
  lemma CanonicalConflictIff(clients: map<string, Client>, locations: map<string, Location>, request: ScopeRequest)
    requires request.canonicalSupplied
    ensures ResolveScope(clients, locations, request) == Failure(CONFLICT) <==>
            exists client, location ::
              && AsksFor(request, client, location) && IsLinked(clients, locations, client, location)
              && (clients[client].state.Archived? || locations[location].state.Archived?)
    ensures ResolveScope(clients, locations, request).Failure? ==>
              ResolveScope(clients, locations, request).error in {CONFLICT, UNPROCESSABLE}
  {
    NormalizeIsFilled(request.tenant);
    NormalizeIsFilled(request.site);
    NormalizeIsFilled(request.client);
    NormalizeIsFilled(request.location);
    if ResolveScope(clients, locations, request) == Failure(CONFLICT) {
      var client, location := NormalizeOptional(request.client).value.value, NormalizeOptional(request.location).value.value;
      assert AsksFor(request, client, location);
    }
    if client, location :| && AsksFor(request, client, location) && IsLinked(clients, locations, client, location)
                           && (clients[client].state.Archived? || locations[location].state.Archived?) {
      NormalizeNames(request.client, Some(client));
      NormalizeNames(request.location, Some(location));
    }
  }

  // The unarchived place that the legacy fields name by its keys.
  ghost predicate IsPlaceOf(
    clients: map<string, Client>, locations: map<string, Location>, tenant: Option<string>, site: Option<string>,
    client: string, location: string)
  {
    && IsLinked(clients, locations, client, location)
    && !clients[client].state.Archived? && !locations[location].state.Archived?
    && locations[location].key == site
    && (if tenant.Some? then clients[client].key == tenant else site.Some? && client == QUARANTINE_CLIENT)
  }

  // A legacy request gets its trimmed fields back, with a place that they name or with the quarantine.
  lemma LegacyResolutionIsNamed(
    clients: map<string, Client>, locations: map<string, Location>, request: ScopeRequest, scope: Scope)
    requires !request.canonicalSupplied && ResolveScope(clients, locations, request) == Success(scope)
    ensures Names(request.tenant, scope.tenant) && Names(request.site, scope.site) && IsUsable(clients, locations, scope)
    ensures || IsPlaceOf(clients, locations, scope.tenant, scope.site, scope.client, scope.location)
            || (scope.client == QUARANTINE_CLIENT && scope.location == QUARANTINE_LOCATION)
  {
    NormalizeIsFilled(request.tenant);
    NormalizeIsFilled(request.site);
    LegacyScopeIsUsable(clients, locations, scope.tenant, scope.site);
  }

  ghost predicate HasUniqueKeys(clients: map<string, Client>, locations: map<string, Location>) {
    && (forall c, d | c in clients && d in clients && clients[c].key.Some? && clients[c].key == clients[d].key :: c == d)
    && (forall l, m | l in locations && m in locations && locations[l].client == locations[m].client
                      && locations[l].key == locations[m].key :: l == m)
  }

  lemma UniquePlaceIsFound(
    clients: map<string, Client>, locations: map<string, Location>, tenant: Option<string>, site: Option<string>,
    client: string, location: string)
    requires HasUniqueKeys(clients, locations) && IsPlaceOf(clients, locations, tenant, site, client, location)
    ensures FindLegacy(clients, locations, tenant, site) == Some((client, location))
  {
    if tenant.Some? {
      assert ClientWithKey(clients, tenant.value) == Some(client);
    }
    assert LocationWithKey(locations, client, site) == Some(location);
  }

  lemma FoundIsPlace(clients: map<string, Client>, locations: map<string, Location>, tenant: Option<string>, site: Option<string>)
    requires FindLegacy(clients, locations, tenant, site).Some?
    ensures var (client, location) := FindLegacy(clients, locations, tenant, site).value;
            && client in clients && location in locations
            && (clients[client].state.Archived? || locations[location].state.Archived?
                || IsPlaceOf(clients, locations, tenant, site, client, location))
  {
  }

  ghost predicate HasPlace(
    clients: map<string, Client>, locations: map<string, Location>, tenant: Option<string>, site: Option<string>)
  {
    exists client, location :: IsPlaceOf(clients, locations, tenant, site, client, location)
  }

  lemma PlaceIsResolved(
    clients: map<string, Client>, locations: map<string, Location>, tenant: Option<string>, site: Option<string>,
    client: string, location: string)
    requires HasUniqueKeys(clients, locations) && IsPlaceOf(clients, locations, tenant, site, client, location)
    ensures ResolveLegacy(clients, locations, tenant, site) == Success(Scope(client, location, tenant, site))
  {
    UniquePlaceIsFound(clients, locations, tenant, site, client, location);
  }

  lemma NoPlaceIsQuarantine(
    clients: map<string, Client>, locations: map<string, Location>, tenant: Option<string>, site: Option<string>)
    requires !HasPlace(clients, locations, tenant, site)
    ensures ResolveLegacy(clients, locations, tenant, site) ==
            match LoadScope(clients, locations, QUARANTINE_CLIENT, QUARANTINE_LOCATION)
            case Failure(code) => Failure(code)
            case Success(_) => Success(Scope(QUARANTINE_CLIENT, QUARANTINE_LOCATION, tenant, site))
  {
    if FindLegacy(clients, locations, tenant, site).Some? {
      FoundIsPlace(clients, locations, tenant, site);
    }
  }

  // What the fields resolve to: the place they name if there is one, else the quarantine if that is open.
  ghost predicate IsLegacyScope(clients: map<string, Client>, locations: map<string, Location>, scope: Scope) {
    if HasPlace(clients, locations, scope.tenant, scope.site) then
      IsPlaceOf(clients, locations, scope.tenant, scope.site, scope.client, scope.location)
    else
      scope.client == QUARANTINE_CLIENT && scope.location == QUARANTINE_LOCATION && IsUsable(clients, locations, scope)
  }

  lemma LegacyScopeIff(
    clients: map<string, Client>, locations: map<string, Location>, tenant: Option<string>, site: Option<string>, scope: Scope)
    requires HasUniqueKeys(clients, locations)
    ensures ResolveLegacy(clients, locations, tenant, site) == Success(scope) <==>
            scope.tenant == tenant && scope.site == site && IsLegacyScope(clients, locations, scope)
  {
    if client, location :| IsPlaceOf(clients, locations, tenant, site, client, location) {
      PlaceIsResolved(clients, locations, tenant, site, client, location);
      if scope.tenant == tenant && scope.site == site
         && IsPlaceOf(clients, locations, tenant, site, scope.client, scope.location) {
        PlaceIsResolved(clients, locations, tenant, site, scope.client, scope.location);
      }
    } else {
      NoPlaceIsQuarantine(clients, locations, tenant, site);
    }
  }

  // Where keys are unique, a legacy request gets exactly that, with its trimmed fields as tenant and site.
  lemma LegacyResolutionIff(
    clients: map<string, Client>, locations: map<string, Location>, request: ScopeRequest, scope: Scope)
    requires !request.canonicalSupplied && HasUniqueKeys(clients, locations)
    ensures ResolveScope(clients, locations, request) == Success(scope) <==>
            && Names(request.tenant, scope.tenant) && Names(request.site, scope.site)
            && IsLegacyScope(clients, locations, scope)
  {
    NormalizeNames(request.tenant, scope.tenant);
    NormalizeNames(request.site, scope.site);
    if NormalizeOptional(request.tenant).Success? && NormalizeOptional(request.site).Success? {
      LegacyScopeIff(clients, locations, NormalizeOptional(request.tenant).value, NormalizeOptional(request.site).value, scope);
    }
  }

  // ---- Agreement ----

  // Normalising leaves the field alone.
  predicate Canonical(field: Option<string>) {
    field.Some? ==> field.value != "" && Text.Trimmed(field.value, Text.PYTHON_SPACE)
  }

  function LegacyRequest(p: Pair): ScopeRequest {
    ScopeRequest(None, None, p.tenant, p.site, false, true, true)
  }

  lemma NormalizeKeepsCanonical(field: Option<string>)
    ensures NormalizeOptional(field) == Success(field) <==> Canonical(field)
    ensures NormalizeOptional(field).Success? && !Canonical(field) ==>
              NormalizeOptional(field).value.Some? && NormalizeOptional(field).value != field
  {
    if field.Some? {
      Text.StripFixesTrimmed(field.value, Text.PYTHON_SPACE);
    }
  }

  lemma MigratedClientHasKey(clients: map<string, Client>, locations: map<string, Location>, pairs: set<Pair>, h: Digest, p: Pair)
    requires Migrated(clients, locations, pairs, h) && Tells(h, pairs) && p in pairs && p.tenant.Some?
    ensures ClientWithKey(clients, p.tenant.value) == Some(ClientId(p.tenant, h))
  {
    MigratedKeysAreUnique(clients, locations, pairs, h);
    MigratedRowIsPlaced(clients, locations, pairs, h, p);
  }

  lemma MigratedLocationHasKey(clients: map<string, Client>, locations: map<string, Location>, pairs: set<Pair>, h: Digest, p: Pair)
    requires Migrated(clients, locations, pairs, h) && Tells(h, pairs) && p in Located(pairs)
    ensures LocationWithKey(locations, ClientId(p.tenant, h), p.site) == Some(LocationId(p, h))
  {
    MigratedRowIsPlaced(clients, locations, pairs, h, p);
    forall l | l in locations && locations[l].client == ClientId(p.tenant, h) && locations[l].key == p.site
      ensures l == LocationId(p, h)
    {
      OnlyPairAtLocation(locations, pairs, h, p, l);
    }
  }

  lemma OnlyPairAtLocation(locations: map<string, Location>, pairs: set<Pair>, h: Digest, p: Pair, l: string)
    requires LocationsFor(locations, Located(pairs), h) && Tells(h, pairs) && p in Located(pairs)
    requires l in locations && locations[l].client == ClientId(p.tenant, h) && locations[l].key == p.site
    ensures l == LocationId(p, h)
  {
    assert p.tenant.Some? ==> p.tenant.value in Tenants(pairs);
    if l == QUARANTINE_LOCATION {
      ClientsApart(p.tenant, None, h);
      assert false;
    }
    var q :| q in Located(pairs) && l == LocationId(q, h);
    TellsTenants(h, pairs, p, q);
  }

  // A client found by key has that key, and so does a location.
  lemma FoundByKey(clients: map<string, Client>, locations: map<string, Location>, tenant: Option<string>, site: Option<string>)
    requires ResolveLegacy(clients, locations, tenant, site).Success?
    ensures var scope := ResolveLegacy(clients, locations, tenant, site).value;
            || (scope.client == QUARANTINE_CLIENT && scope.location == QUARANTINE_LOCATION)
            || (&& scope.client in clients && scope.location in locations && locations[scope.location].key == site
                && (if tenant.Some? then clients[scope.client].key == tenant else scope.client == QUARANTINE_CLIENT))
  {
  }

  lemma OwnPlaceIsNotQuarantine(p: Pair, h: Digest, pairs: set<Pair>)
    requires Tells(h, pairs)
    ensures p.tenant.Some? ==> ClientId(p.tenant, h) != QUARANTINE_CLIENT
    ensures p != Pair(None, None) ==> LocationId(p, h) != QUARANTINE_LOCATION
  {
    assert p.tenant.Some? ==> |ClientId(p.tenant, h)| == 35;
    assert p != Pair(None, None) ==> |LocationId(p, h)| == 36;
  }

  lemma CanonicalFieldsResolve(
    clients: map<string, Client>, locations: map<string, Location>, pairs: set<Pair>, h: Digest, p: Pair)
    requires Migrated(clients, locations, pairs, h) && Tells(h, pairs) && p in pairs
    ensures var resolved := ResolveLegacy(clients, locations, p.tenant, p.site);
            resolved.Success? && resolved.value.client == ClientId(p.tenant, h) && resolved.value.location == LocationId(p, h)
  {
    MigratedRowIsPlaced(clients, locations, pairs, h, p);
    if p.tenant.Some? {
      MigratedClientHasKey(clients, locations, pairs, h, p);
    }
    if p != Pair(None, None) {
      MigratedLocationHasKey(clients, locations, pairs, h, p);
    }
  }

  lemma OtherFieldsResolveElsewhere(
    clients: map<string, Client>, locations: map<string, Location>, pairs: set<Pair>, h: Digest, p: Pair,
    tenant: Option<string>, site: Option<string>)
    requires Migrated(clients, locations, pairs, h) && Tells(h, pairs) && p in pairs
    requires tenant.Some? <==> p.tenant.Some?
    requires site.Some? <==> p.site.Some?
    requires tenant != p.tenant || site != p.site
    ensures var resolved := ResolveLegacy(clients, locations, tenant, site);
            !(resolved.Success? && resolved.value.client == ClientId(p.tenant, h) && resolved.value.location == LocationId(p, h))
  {
    MigratedRowIsPlaced(clients, locations, pairs, h, p);
    OwnPlaceIsNotQuarantine(p, h, pairs);
    if ResolveLegacy(clients, locations, tenant, site).Success? {
      FoundByKey(clients, locations, tenant, site);
    }
  }

  // Right after the backfill, resolving the legacy fields of a migrated row names the client and the location that the
  // backfill stored exactly if normalising does not change those fields.
  lemma ResolutionAgreesIffCanonical(
    clients: map<string, Client>, locations: map<string, Location>, pairs: set<Pair>, h: Digest, p: Pair)
    requires Migrated(clients, locations, pairs, h) && Tells(h, pairs) && p in pairs
    ensures var resolved := ResolveScope(clients, locations, LegacyRequest(p));
            resolved.Success? && resolved.value.client == ClientId(p.tenant, h) && resolved.value.location == LocationId(p, h) <==>
            Canonical(p.tenant) && Canonical(p.site)
  {
    NormalizeKeepsCanonical(p.tenant);
    NormalizeKeepsCanonical(p.site);
    if Canonical(p.tenant) && Canonical(p.site) {
      CanonicalFieldsResolve(clients, locations, pairs, h, p);
    } else if NormalizeOptional(p.tenant).Success? && NormalizeOptional(p.site).Success? {
      OtherFieldsResolveElsewhere(clients, locations, pairs, h, p, NormalizeOptional(p.tenant).value, NormalizeOptional(p.site).value);
    }
  }
}
