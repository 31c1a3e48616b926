/**
 Scoped permissions: loading a user's grants, the direct check of a grant, and the SQL filters compiled from grants,
 evaluated with SQL's three truth values.
 */
module Authorization {
  import opened Wrappers

  datatype ScopeType = Global | ClientScope | LocationScope

  // A row of user_role_bindings.
  datatype Binding = Binding(user: string, role: string, scopeType: ScopeType, client: Option<string>, location: Option<string>,
                             revoked: bool)

  // `roles` maps role identifiers to role keys.
  datatype Tables = Tables(bindings: map<string, Binding>, roles: map<string, string>, permissions: set<(string, string)>)

  datatype Grant = Grant(binding: string, roleKey: string, scopeType: ScopeType, client: Option<string>, location: Option<string>,
                         permissions: set<string>)
  {
    // ScopeGrant.permits
    predicate Permits(permission: string, forClient: Option<string>, forLocation: Option<string>) {
      if permission !in permissions then false
      else if scopeType.Global? then true
      else if forClient.None? || client != forClient then false
      else if scopeType.ClientScope? then true
      else forLocation.Some? && location == forLocation
    }
  }

  // permits_scope
  predicate PermitsScope(grants: seq<Grant>, permission: string, client: Option<string>, location: Option<string>) {
    exists g :: g in grants && g.Permits(permission, client, location)
  }

  // ---- What a binding covers ----

  // A binding covers everything, the rows of one client, or the rows of one location of one client.
  predicate Covers(b: Binding, client: Option<string>, location: Option<string>) {
    match b.scopeType
    case Global => true
    case ClientScope => client.Some? && b.client == client
    case LocationScope => client.Some? && location.Some? && b.client == client && b.location == location
  }

  predicate IsActiveBinding(tables: Tables, user: string, id: string) {
    && id in tables.bindings
    && tables.bindings[id].user == user && !tables.bindings[id].revoked
    && tables.bindings[id].role in tables.roles
  }

  function RolePermissions(tables: Tables, role: string): set<string> {
    set p | p in tables.permissions && p.0 == role :: p.1
  }

  function GrantOf(tables: Tables, id: string): Grant
    requires id in tables.bindings && tables.bindings[id].role in tables.roles
  {
    var b := tables.bindings[id];
    Grant(id, tables.roles[b.role], b.scopeType, b.client, b.location, RolePermissions(tables, b.role))
  }

  // The grants of a user: one for each unrevoked binding whose role has a permission at all.
  ghost predicate AreGrantsOf(grants: seq<Grant>, tables: Tables, user: string) {
    && (forall g | g in grants :: IsActiveBinding(tables, user, g.binding) && g == GrantOf(tables, g.binding))
    && (forall id | IsActiveBinding(tables, user, id) && RolePermissions(tables, tables.bindings[id].role) != {} ::
          GrantOf(tables, id) in grants)
  }

  // The joined rows of the query: a binding of the user with each permission of its role
  function JoinedRows(tables: Tables, user: string): set<(string, string)> {
    set id, p | id in tables.bindings && IsActiveBinding(tables, user, id)
                && p in tables.permissions && p.0 == tables.bindings[id].role :: (id, p.1)
  }

  function PermissionsIn(rows: set<(string, string)>, id: string): set<string> {
    set row | row in rows && row.0 == id :: row.1
  }

  // The first loop of load_user_grants; rows come in no particular order here.
  method CollectPermissions(rows: set<(string, string)>) returns (collected: map<string, set<string>>)
    ensures forall id :: id in collected <==> exists row :: row in rows && row.0 == id
    ensures forall id | id in collected :: collected[id] == PermissionsIn(rows, id)
  {
    collected := map[];
    var rest := rows;
    while rest != {}
      invariant rest <= rows
      invariant forall id | id in collected :: collected[id] == PermissionsIn(rows - rest, id)
      invariant forall id | id in collected :: exists row :: row in rows && row.0 == id
      invariant forall row | row in rows - rest :: row.0 in collected
    {
      var row :| row in rest;
      var known := if row.0 in collected then collected[row.0] else {};
      MoreRows(rows - rest, row);
      assert known == PermissionsIn(rows - rest, row.0);
      collected := collected[row.0 := known + {row.1}];
      assert rows - (rest - {row}) == (rows - rest) + {row};
      rest := rest - {row};
    }
    assert rows - rest == rows;
  }

  lemma MoreRows(rows: set<(string, string)>, row: (string, string))
    ensures forall id :: PermissionsIn(rows + {row}, id) == PermissionsIn(rows, id) + (if id == row.0 then {row.1} else {})
  {
    assert row in rows + {row};
    forall id, p | p in PermissionsIn(rows, id) ensures p in PermissionsIn(rows + {row}, id) {
      assert (id, p) in rows + {row};
    }
  }

  // load_user_grants
  method LoadUserGrants(tables: Tables, user: string) returns (grants: seq<Grant>)
    ensures AreGrantsOf(grants, tables, user)
  {
    var permissionsByBinding := CollectPermissions(JoinedRows(tables, user));
    AllPermissionsCollected(tables, user, permissionsByBinding);
    grants := [];
    var ids := permissionsByBinding.Keys;
    while ids != {}
      invariant ids <= permissionsByBinding.Keys
      invariant forall g | g in grants :: IsActiveBinding(tables, user, g.binding) && g == GrantOf(tables, g.binding)
      invariant forall id | id in permissionsByBinding && id !in ids :: GrantOf(tables, id) in grants
    {
      var id :| id in ids;
      var b := tables.bindings[id];
      grants := grants + [Grant(id, tables.roles[b.role], b.scopeType, b.client, b.location, permissionsByBinding[id])];
      ids := ids - {id};
    }
  }

  lemma AllPermissionsCollected(tables: Tables, user: string, collected: map<string, set<string>>)
    requires forall id :: id in collected <==> exists row :: row in JoinedRows(tables, user) && row.0 == id
    requires forall id | id in collected :: collected[id] == PermissionsIn(JoinedRows(tables, user), id)
    ensures forall id | id in collected ::
              IsActiveBinding(tables, user, id) && collected[id] == RolePermissions(tables, tables.bindings[id].role)
    ensures forall id | IsActiveBinding(tables, user, id) && RolePermissions(tables, tables.bindings[id].role) != {} ::
              id in collected
  {
    var rows := JoinedRows(tables, user);
    forall id, permission | IsActiveBinding(tables, user, id) && permission in RolePermissions(tables, tables.bindings[id].role)
      ensures (id, permission) in rows
    {
      assert (tables.bindings[id].role, permission) in tables.permissions;
    }
    forall id | IsActiveBinding(tables, user, id) && RolePermissions(tables, tables.bindings[id].role) != {} ensures id in collected {
      var permission :| permission in RolePermissions(tables, tables.bindings[id].role);
      assert (id, permission) in rows;
    }
    forall id | id in collected
      ensures IsActiveBinding(tables, user, id) && collected[id] == RolePermissions(tables, tables.bindings[id].role)
    {
      forall permission | permission in RolePermissions(tables, tables.bindings[id].role) ensures permission in collected[id] {
        assert (id, permission) in rows;
      }
    }
  }

  // The check on grants is a statement about the tables: some unrevoked binding's role has the permission and its scope
  // covers the row.
  lemma CheckMeansSomeBindingCovers(
    tables: Tables, user: string, grants: seq<Grant>, permission: string, client: Option<string>, location: Option<string>)
    requires AreGrantsOf(grants, tables, user)
    ensures PermitsScope(grants, permission, client, location) <==>
            exists id :: && id in tables.bindings
                         && var b := tables.bindings[id];
                            && b.user == user && !b.revoked
                            && b.role in tables.roles && (b.role, permission) in tables.permissions
                            && Covers(b, client, location)
  {
    if PermitsScope(grants, permission, client, location) {
      var g :| g in grants && g.Permits(permission, client, location);
      assert (tables.bindings[g.binding].role, permission) in tables.permissions;
      assert Covers(tables.bindings[g.binding], client, location);
    }
    if id :| && id in tables.bindings && IsActiveBinding(tables, user, id)
             && (tables.bindings[id].role, permission) in tables.permissions
             && Covers(tables.bindings[id], client, location)
    {
      assert permission in RolePermissions(tables, tables.bindings[id].role);
      assert GrantOf(tables, id).Permits(permission, client, location);
    }
  }

  // ---- SQL conditions ----

  datatype Truth = True | False | Unknown

  datatype Clause =
    | Always | Never
    | ClientIs(client: string)
    | LocationIs(location: string)
    | ClientIn(clients: set<string>)
    | And(left: Clause, right: Clause)
    | Or(clauses: seq<Clause>)

  // A row's two columns, either of which may be NULL.
  datatype Row = Row(client: Option<string>, location: Option<string>)

  function Equals(column: Option<string>, value: string): Truth {
    if column.None? then Unknown else if column.value == value then True else False
  }

  function Conjunction(a: Truth, b: Truth): Truth {
    if a.False? || b.False? then False else if a.True? && b.True? then True else Unknown
  }

  function Disjunction(a: Truth, b: Truth): Truth {
    if a.True? || b.True? then True else if a.False? && b.False? then False else Unknown
  }

  function Rank(t: Truth): int {
    match t
    case False => 0
    case Unknown => 1
    case True => 2
  }

  // AND gives the lesser of two truth values and OR the greater.
  lemma TruthIsOrdered(a: Truth, b: Truth)
    ensures Rank(Conjunction(a, b)) == if Rank(a) <= Rank(b) then Rank(a) else Rank(b)
    ensures Rank(Disjunction(a, b)) == if Rank(a) <= Rank(b) then Rank(b) else Rank(a)
  {
  }

  function Eval(clause: Clause, row: Row): Truth {
    match clause
    case Always => True
    case Never => False
    case ClientIs(client) => Equals(row.client, client)
    case LocationIs(location) => Equals(row.location, location)
    case ClientIn(clients) =>
      if row.client.None? then Unknown else if row.client.value in clients then True else False
    case And(left, right) => Conjunction(Eval(left, row), Eval(right, row))
    case Or(clauses) => EvalAny(clauses, row)
  }

  function EvalAny(clauses: seq<Clause>, row: Row): Truth {
    if clauses == [] then False else Disjunction(Eval(clauses[0], row), EvalAny(clauses[1..], row))
  }

  // A row passes a filter only if the condition is true, not if it is unknown.
  predicate Passes(clause: Clause, row: Row) {
    Eval(clause, row).True?
  }

  lemma {:induction false} AnyIsTrue(clauses: seq<Clause>, row: Row)
    ensures EvalAny(clauses, row).True? <==> exists c :: c in clauses && Eval(c, row).True?
  {
    if clauses != [] {
      AnyIsTrue(clauses[1..], row);
      if EvalAny(clauses[1..], row).True? {
        var c :| c in clauses[1..] && Eval(c, row).True?;
        assert c in clauses;
      } else if Eval(clauses[0], row).True? {
        assert clauses[0] in clauses;
      }
      if c :| c in clauses && Eval(c, row).True? {
        assert c == clauses[0] || c in clauses[1..];
      }
    }
  }

  // scope_clause: the filter lets a row through exactly if the check permits the row's scope.
  method ScopeClause(grants: seq<Grant>, permission: string) returns (clause: Clause)
    ensures forall row: Row :: Passes(clause, row) <==> PermitsScope(grants, permission, row.client, row.location)
  {
    var clauses: seq<Clause> := [];
    for i := 0 to |grants|
      invariant forall row: Row ::
                  (exists c :: c in clauses && Eval(c, row).True?) <==>
                  PermitsScope(grants[..i], permission, row.client, row.location)
    {
      var g := grants[i];
      assert grants[..i + 1] == grants[..i] + [g];
      ghost var before := clauses;
      if permission in g.permissions {
        if g.scopeType.Global? {
          assert forall row: Row :: g.Permits(permission, row.client, row.location);
          return Always;
        }
        if g.scopeType.ClientScope? && g.client.Some? {
          clauses := clauses + [ClientIs(g.client.value)];
        } else if g.scopeType.LocationScope? && g.client.Some? && g.location.Some? {
          clauses := clauses + [And(ClientIs(g.client.value), LocationIs(g.location.value))];
        }
      }
      forall row: Row
        ensures (exists c :: c in clauses && Eval(c, row).True?) <==>
                PermitsScope(grants[..i + 1], permission, row.client, row.location)
      {
        OneMoreGrant(grants[..i], g, permission, row);
        OneMoreClause(before, clauses, g, permission, row);
      }
    }
    assert grants[..|grants|] == grants;
    clause := if clauses != [] then Or(clauses) else Never;
    forall row: Row ensures Passes(clause, row) <==> exists c :: c in clauses && Eval(c, row).True? {
      AnyIsTrue(clauses, row);
    }
  }

  lemma OneMoreGrant(grants: seq<Grant>, g: Grant, permission: string, row: Row)
    ensures PermitsScope(grants + [g], permission, row.client, row.location) <==>
            PermitsScope(grants, permission, row.client, row.location) || g.Permits(permission, row.client, row.location)
  {
  }

  lemma OneMoreClause(before: seq<Clause>, after: seq<Clause>, g: Grant, permission: string, row: Row)
    requires after == before || exists c :: after == before + [c] && (Eval(c, row).True? <==> g.Permits(permission, row.client, row.location))
    requires after == before ==> !g.Permits(permission, row.client, row.location)
    ensures (exists c :: c in after && Eval(c, row).True?) <==>
            (exists c :: c in before && Eval(c, row).True?) || g.Permits(permission, row.client, row.location)
  {
    if after != before {
      var c :| after == before + [c] && (Eval(c, row).True? <==> g.Permits(permission, row.client, row.location));
      if w :| w in before && Eval(w, row).True? {
        assert w in after;
      }
      assert c in after;
    }
  }

  // ---- Which clients a user sees ----

  predicate Reaches(grants: seq<Grant>, permission: string, client: string) {
    exists g :: g in grants && permission in g.permissions && (g.scopeType.Global? || g.client == Some(client))
  }

  // client_scope_clause
  method ClientScopeClause(grants: seq<Grant>, permission: string) returns (clause: Clause)
    ensures forall client, location :: Passes(clause, Row(Some(client), location)) <==> Reaches(grants, permission, client)
    ensures forall location :: Passes(clause, Row(None, location)) ==>
              exists g :: g in grants && permission in g.permissions && g.scopeType.Global?
  {
    var clients: set<string> := {};
    for i := 0 to |grants|
      invariant forall c :: c in clients <==> exists g :: g in grants[..i] && permission in g.permissions && g.client == Some(c)
      invariant forall g | g in grants[..i] && permission in g.permissions :: !g.scopeType.Global?
    {
      var g := grants[i];
      assert grants[..i + 1] == grants[..i] + [g];
      if permission in g.permissions {
        if g.scopeType.Global? {
          return Always;
        }
        if g.client.Some? {
          clients := clients + {g.client.value};
        }
      }
    }
    assert grants[..|grants|] == grants;
    clause := if clients != {} then ClientIn(clients) else Never;
  }

  // What the table's check constraint demands of a binding, carried over to grants.
  predicate WellFormed(grants: seq<Grant>) {
    forall g | g in grants ::
      match g.scopeType
      case Global => g.client.None? && g.location.None?
      case ClientScope => g.client.Some? && g.location.None?
      case LocationScope => g.client.Some? && g.location.Some?
  }

  // The client filter selects a client exactly if some scope inside it is permitted.
  lemma ReachesIffSomeScopePermitted(grants: seq<Grant>, permission: string, client: string)
    requires WellFormed(grants)
    ensures Reaches(grants, permission, client) <==>
            exists location :: PermitsScope(grants, permission, Some(client), Some(location))
  {
    if g :| g in grants && permission in g.permissions && (g.scopeType.Global? || g.client == Some(client)) {
      var location := if g.location.Some? then g.location.value else "";
      assert g.Permits(permission, Some(client), Some(location));
    }
  }

  // `locations` maps each existing location to its client, and the foreign key ties location grants to it.
  predicate LocationsExist(grants: seq<Grant>, locations: map<string, string>) {
    forall g | g in grants && g.scopeType.LocationScope? && g.location.Some? ::
      g.location.value in locations && Some(locations[g.location.value]) == g.client
  }

  ghost predicate SomeLocationPermitted(grants: seq<Grant>, permission: string, client: string, locations: map<string, string>) {
    exists l :: l in locations && locations[l] == client && PermitsScope(grants, permission, Some(client), Some(l))
  }

  // Over the locations that exist, the filter selects more than that exactly for clients without any location that a
  // global grant or a grant on the whole client reaches.
  lemma ClientFilterIsExactIff(grants: seq<Grant>, permission: string, client: string, locations: map<string, string>)
    requires WellFormed(grants) && LocationsExist(grants, locations)
    ensures (Reaches(grants, permission, client) <==> SomeLocationPermitted(grants, permission, client, locations)) <==>
            ((exists l :: l in locations && locations[l] == client) || !Reaches(grants, permission, client))
  {
    if Reaches(grants, permission, client) {
      var g :| g in grants && permission in g.permissions && (g.scopeType.Global? || g.client == Some(client));
      if g.scopeType.LocationScope? {
        assert g.Permits(permission, Some(client), g.location);
        assert SomeLocationPermitted(grants, permission, client, locations);
      } else if l :| l in locations && locations[l] == client {
        assert g.Permits(permission, Some(client), Some(l));
        assert SomeLocationPermitted(grants, permission, client, locations);
      }
    }
    if SomeLocationPermitted(grants, permission, client, locations) {
      ReachesIffSomeScopePermitted(grants, permission, client);
    }
  }

  lemma ClientWithoutLocationsIsSelected(client: string, permission: string)
    ensures var grants := [Grant("urb_1", "manager", ClientScope, Some(client), None, {permission})];
            && WellFormed(grants) && LocationsExist(grants, map[])
            && Reaches(grants, permission, client) && !SomeLocationPermitted(grants, permission, client, map[])
  {
    var grants := [Grant("urb_1", "manager", ClientScope, Some(client), None, {permission})];
    assert grants[0] in grants;
  }
}
