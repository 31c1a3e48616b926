/**
 The two migrations that rewrite aliases of observation keys to canonical control identifiers, row by row, and the
 alias table that ingestion uses at run time.
 */
module ControlAliases {
  import opened Wrappers
  import Text

  // A posture result: its snapshot, the two copies of its control key, and everything else.
  datatype Row = Row(snapshot: string, key: string, normalizedKey: string, rest: map<string, string>)

  type Table = map<string, Row>

  type Aliases = seq<(string, string)>

  const CONTROL_WINDOWS := "control.windows."
  const DEFENDER := CONTROL_WINDOWS + "defender-real-time-protection"
  const FIREWALL_PROFILES := CONTROL_WINDOWS + "firewall-all-profiles"
  const SECURITY_LOGGING := "linux.telemetry.security-logging"
  const SSH_PASSWORD := "linux.ssh." + "password-authentication-disabled"
  const FIREWALL_SERVICE := "linux.firewall.service-active"

  const ALIASES_0002: Aliases := [
    ("windows.defender.real-time-protection", DEFENDER),
    ("windows.firewall.all-profiles-enabled", FIREWALL_PROFILES)]

  const ALIASES_0004: Aliases := [
    ("journald.storage-persistent", SECURITY_LOGGING),
    ("linux.ssh.disable_password_authentication", SSH_PASSWORD),
    ("ssh.disable-password-authentication", SSH_PASSWORD),
    ("ufw.enabled", FIREWALL_SERVICE),
    ("windows.defender.real-time-protection", DEFENDER),
    ("windows.defender.real_time_protection", DEFENDER),
    ("windows.firewall.all-profiles-enabled", FIREWALL_PROFILES),
    ("windows.firewall.all_profiles", FIREWALL_PROFILES)]

  // Aliases are told apart, canonical keys are lower case, and no canonical key is an alias.
  ghost predicate WellFormed(aliases: Aliases) {
    && (forall i, j | 0 <= i < |aliases| && 0 <= j < |aliases| && aliases[i].0 == aliases[j].0 :: i == j)
    && (forall i | 0 <= i < |aliases| :: Text.Lower(aliases[i].1) == aliases[i].1)
    && (forall i, j | 0 <= i < |aliases| && 0 <= j < |aliases| :: aliases[i].1 != aliases[j].0)
  }

  // ---- What rewriting means ----

  predicate IsAlias(aliases: Aliases, key: string) {
    exists i :: 0 <= i < |aliases| && aliases[i].0 == Text.Lower(key)
  }

  // The canonical form of a stored key.
  function Canonical(aliases: Aliases, key: string): (canonical: string)
    ensures !IsAlias(aliases, key) ==> canonical == Text.Lower(key)
  {
    if aliases == [] then Text.Lower(key)
    else if aliases[|aliases| - 1].0 == Text.Lower(key) then aliases[|aliases| - 1].1
    else Canonical(aliases[..|aliases| - 1], key)
  }

  lemma {:induction false} CanonicalOfAlias(aliases: Aliases, key: string, i: nat)
    requires WellFormed(aliases) && i < |aliases| && aliases[i].0 == Text.Lower(key)
    ensures Canonical(aliases, key) == aliases[i].1
    decreases |aliases|
  {
    if i < |aliases| - 1 {
      assert aliases[|aliases| - 1].0 != Text.Lower(key);
      CanonicalOfAlias(aliases[..|aliases| - 1], key, i);
    }
  }

  predicate Unique(rows: Table) {
    forall r, q | r in rows && q in rows && rows[r].snapshot == rows[q].snapshot && rows[r].normalizedKey == rows[q].normalizedKey ::
      r == q
  }

  // What the table observes: which control was observed in which snapshot.
  function Observations(rows: Table, aliases: Aliases): set<(string, string)> {
    set r | r in rows :: (rows[r].snapshot, Canonical(aliases, rows[r].normalizedKey))
  }

  function WithKey(row: Row, canonical: string): Row {
    row.(key := canonical, normalizedKey := canonical)
  }

  // One table rewritten to another: no observation is lost or made up, no row changes except for the keys of an alias
  // row, canonical rows stay, and no alias is left.
  ghost predicate Rewritten(before: Table, after: Table, aliases: Aliases) {
    && Observations(after, aliases) == Observations(before, aliases)
    && (forall r | r in after :: !IsAlias(aliases, after[r].normalizedKey))
    && (forall r | r in before && !IsAlias(aliases, before[r].normalizedKey) :: r in after && after[r] == before[r])
    && (forall r | r in after ::
          r in before
          && (IsAlias(aliases, before[r].normalizedKey) ==>
                after[r] == WithKey(before[r], Canonical(aliases, before[r].normalizedKey))))
  }

  // ---- The loops ----

  // The rows with one alias that an inner loop has still to visit keep it; all other rows are final for this alias.
  ghost predicate Progress(start: Table, rows: Table, alias: string, canonical: string, todo: set<string>) {
    && rows.Keys <= start.Keys && todo <= rows.Keys
    && (forall r | r in start && Text.Lower(start[r].normalizedKey) != alias :: r in rows && rows[r] == start[r])
    && (forall r | r in todo :: rows[r] == start[r] && Text.Lower(start[r].normalizedKey) == alias)
    && (forall r | r in rows && r !in todo && Text.Lower(start[r].normalizedKey) == alias ::
          rows[r] == WithKey(start[r], canonical))
    // a row that is gone has a canonical row in its snapshot
    && (forall r | r in start && r !in rows ::
          exists q :: q in rows && rows[q].snapshot == start[r].snapshot && Text.Lower(rows[q].normalizedKey) == canonical)
  }

  lemma DeleteKeepsProgress(start: Table, rows: Table, alias: string, canonical: string, todo: set<string>, r: string, q: string)
    requires Progress(start, rows, alias, canonical, todo) && r in todo && alias != canonical
    requires q in rows && rows[q].snapshot == rows[r].snapshot && Text.Lower(rows[q].normalizedKey) == canonical
    ensures Progress(start, rows - {r}, alias, canonical, todo - {r})
  {
    var after := rows - {r};
    assert q in after;
    forall p | p in start && p !in after
      ensures exists w :: w in after && after[w].snapshot == start[p].snapshot && Text.Lower(after[w].normalizedKey) == canonical
    {
      if p == r {
        assert after[q].snapshot == start[p].snapshot;
      } else {
        var w :| w in rows && rows[w].snapshot == start[p].snapshot && Text.Lower(rows[w].normalizedKey) == canonical;
        assert w in after;
      }
    }
  }

  lemma UpdateKeepsProgress(start: Table, rows: Table, alias: string, canonical: string, todo: set<string>, r: string)
    requires Progress(start, rows, alias, canonical, todo) && r in todo && alias != canonical
    requires Text.Lower(canonical) == canonical
    ensures Progress(start, rows[r := WithKey(rows[r], canonical)], alias, canonical, todo - {r})
  {
    var after := rows[r := WithKey(rows[r], canonical)];
    forall p | p in start && p !in after
      ensures exists w :: w in after && after[w].snapshot == start[p].snapshot && Text.Lower(after[w].normalizedKey) == canonical
    {
      var w :| w in rows && rows[w].snapshot == start[p].snapshot && Text.Lower(rows[w].normalizedKey) == canonical;
      assert after[w].snapshot == start[p].snapshot && Text.Lower(after[w].normalizedKey) == canonical;
    }
  }

  lemma UpdateKeepsUnique(rows: Table, canonical: string, r: string)
    requires Unique(rows) && r in rows && Text.Lower(canonical) == canonical
    requires forall q | q in rows && rows[q].snapshot == rows[r].snapshot :: Text.Lower(rows[q].normalizedKey) != canonical
    ensures Unique(rows[r := WithKey(rows[r], canonical)])
  {
  }

  class PostureResults {
    var rows: Table

    constructor (rows: Table)
      ensures this.rows == rows
    {
      this.rows := rows;
    }

    // The inner loop: every row with this alias is deleted or updated, in any order.
    method RewriteAlias(alias: string, canonical: string)
      requires Unique(rows) && alias != canonical && Text.Lower(canonical) == canonical
      modifies this
      ensures Unique(rows) && Progress(old(rows), rows, alias, canonical, {})
    {
      var todo := set r | r in rows && Text.Lower(rows[r].normalizedKey) == alias;
      while todo != {}
        invariant Unique(rows) && Progress(old(rows), rows, alias, canonical, todo)
      {
        var r :| r in todo;
        var row := rows[r];
        if q :| q in rows && rows[q].snapshot == row.snapshot && Text.Lower(rows[q].normalizedKey) == canonical {
          DeleteKeepsProgress(old(rows), rows, alias, canonical, todo, r, q);
          rows := rows - {r};
        } else {
          UpdateKeepsProgress(old(rows), rows, alias, canonical, todo, r);
          UpdateKeepsUnique(rows, canonical, r);
          rows := rows[r := WithKey(row, canonical)];
        }
        todo := todo - {r};
      }
    }

    // upgrade, of either migration. Running it on a table without aliases changes nothing, so it is idempotent.
    method Upgrade(aliases: Aliases)
      requires Unique(rows) && WellFormed(aliases)
      modifies this
      ensures Unique(rows) && Rewritten(old(rows), rows, aliases)
      ensures (forall r | r in old(rows) :: !IsAlias(aliases, old(rows)[r].normalizedKey)) ==> rows == old(rows)
    {
      for i := 0 to |aliases|
        invariant Unique(rows) && Rewritten(old(rows), rows, aliases[..i])
      {
        ghost var before := rows;
        RewriteAlias(aliases[i].0, aliases[i].1);
        assert aliases[..i + 1][..i] == aliases[..i];
        OneMoreAlias(old(rows), before, rows, aliases[..i + 1]);
      }
      assert aliases[..|aliases|] == aliases;
    }
  }

  // ---- Putting the passes together ----

  lemma {:induction false} CanonicalIsNoAlias(aliases: Aliases, key: string)
    requires WellFormed(aliases)
    ensures !IsAlias(aliases, Canonical(aliases, key))
    ensures IsAlias(aliases, key) ==> exists i :: 0 <= i < |aliases| && Canonical(aliases, key) == aliases[i].1
    ensures Text.Lower(Canonical(aliases, key)) == Canonical(aliases, key)
  {
    if i :| 0 <= i < |aliases| && aliases[i].0 == Text.Lower(key) {
      CanonicalOfAlias(aliases, key, i);
    } else {
      Text.LowerIsIdempotent(key);
    }
  }

  function Renamed(observations: set<(string, string)>, alias: string, canonical: string): set<(string, string)> {
    set o | o in observations :: (o.0, if o.1 == alias then canonical else o.1)
  }

  // Taking one more alias into account renames it.
  lemma CanonicalWithOneMore(aliases: Aliases, key: string)
    requires WellFormed(aliases) && aliases != []
    ensures var (alias, canonical) := aliases[|aliases| - 1];
            var k := Canonical(aliases[..|aliases| - 1], key);
            Canonical(aliases, key) == if k == alias then canonical else k
  {
    var fewer := aliases[..|aliases| - 1];
    assert WellFormed(fewer);
    if Text.Lower(key) == aliases[|aliases| - 1].0 {
      assert !IsAlias(fewer, key);
    } else if i :| 0 <= i < |fewer| && fewer[i].0 == Text.Lower(key) {
      CanonicalOfAlias(fewer, key, i);
    }
  }

  lemma ObservationsWithOneMore(rows: Table, aliases: Aliases)
    requires WellFormed(aliases) && aliases != []
    ensures Observations(rows, aliases) ==
            Renamed(Observations(rows, aliases[..|aliases| - 1]), aliases[|aliases| - 1].0, aliases[|aliases| - 1].1)
  {
    var fewer := aliases[..|aliases| - 1];
    var (alias, canonical) := aliases[|aliases| - 1];
    forall r | r in rows
      ensures var k := Canonical(fewer, rows[r].normalizedKey);
              Canonical(aliases, rows[r].normalizedKey) == if k == alias then canonical else k
    {
      CanonicalWithOneMore(aliases, rows[r].normalizedKey);
    }
    RenamedObservations(rows, fewer, aliases, alias, canonical);
  }

  lemma RenamedObservations(rows: Table, few: Aliases, all: Aliases, alias: string, canonical: string)
    requires forall r | r in rows ::
               var k := Canonical(few, rows[r].normalizedKey);
               Canonical(all, rows[r].normalizedKey) == if k == alias then canonical else k
    ensures Observations(rows, all) == Renamed(Observations(rows, few), alias, canonical)
  {
    var one, two := Observations(rows, few), Observations(rows, all);
    forall o | o in two ensures o in Renamed(one, alias, canonical) {
      var r :| r in rows && o == (rows[r].snapshot, Canonical(all, rows[r].normalizedKey));
      var p := (rows[r].snapshot, Canonical(few, rows[r].normalizedKey));
      assert p in one && o == (p.0, if p.1 == alias then canonical else p.1);
    }
    forall o | o in Renamed(one, alias, canonical) ensures o in two {
      var p :| p in one && o == (p.0, if p.1 == alias then canonical else p.1);
      var r :| r in rows && p == (rows[r].snapshot, Canonical(few, rows[r].normalizedKey));
      assert o == (rows[r].snapshot, Canonical(all, rows[r].normalizedKey));
    }
  }

  lemma SameObservations(before: Table, after: Table, aliases: Aliases)
    requires after.Keys <= before.Keys
    requires forall r | r in after ::
               && after[r].snapshot == before[r].snapshot
               && Canonical(aliases, after[r].normalizedKey) == Canonical(aliases, before[r].normalizedKey)
    requires forall r | r in before && r !in after ::
               exists q :: && q in after && after[q].snapshot == before[r].snapshot
                           && Canonical(aliases, after[q].normalizedKey) == Canonical(aliases, before[r].normalizedKey)
    ensures Observations(after, aliases) == Observations(before, aliases)
  {
    forall o | o in Observations(before, aliases) ensures o in Observations(after, aliases) {
      var r :| r in before && o == (before[r].snapshot, Canonical(aliases, before[r].normalizedKey));
      if r in after {
        assert o == (after[r].snapshot, Canonical(aliases, after[r].normalizedKey));
      } else {
        var q :| && q in after && after[q].snapshot == before[r].snapshot
                 && Canonical(aliases, after[q].normalizedKey) == Canonical(aliases, before[r].normalizedKey);
        assert o == (after[q].snapshot, Canonical(aliases, after[q].normalizedKey));
      }
    }
  }

  lemma LastAliasDecides(aliases: Aliases, key: string)
    requires WellFormed(aliases) && aliases != []
    requires Text.Lower(key) == aliases[|aliases| - 1].0 || Text.Lower(key) == aliases[|aliases| - 1].1
    ensures Canonical(aliases, key) == aliases[|aliases| - 1].1
  {
    if Text.Lower(key) != aliases[|aliases| - 1].0 {
      assert !IsAlias(aliases, key);
    }
  }

  lemma PassKeepsObservations(before: Table, after: Table, aliases: Aliases)
    requires WellFormed(aliases) && aliases != []
    requires Progress(before, after, aliases[|aliases| - 1].0, aliases[|aliases| - 1].1, {})
    ensures Observations(after, aliases) == Observations(before, aliases)
  {
    var (alias, canonical) := aliases[|aliases| - 1];
    forall r | r in after
      ensures after[r].snapshot == before[r].snapshot
      ensures Canonical(aliases, after[r].normalizedKey) == Canonical(aliases, before[r].normalizedKey)
    {
      if Text.Lower(before[r].normalizedKey) == alias {
        LastAliasDecides(aliases, before[r].normalizedKey);
        LastAliasDecides(aliases, canonical);
      }
    }
    forall r | r in before && r !in after
      ensures exists q :: && q in after && after[q].snapshot == before[r].snapshot
                          && Canonical(aliases, after[q].normalizedKey) == Canonical(aliases, before[r].normalizedKey)
    {
      var q :| q in after && after[q].snapshot == before[r].snapshot && Text.Lower(after[q].normalizedKey) == canonical;
      LastAliasDecides(aliases, after[q].normalizedKey);
      LastAliasDecides(aliases, before[r].normalizedKey);
    }
    SameObservations(before, after, aliases);
  }

  lemma IsAliasWithOneMore(aliases: Aliases, key: string)
    requires aliases != []
    ensures IsAlias(aliases, key) <==> IsAlias(aliases[..|aliases| - 1], key) || Text.Lower(key) == aliases[|aliases| - 1].0
  {
    var fewer := aliases[..|aliases| - 1];
    if IsAlias(fewer, key) {
      var i :| 0 <= i < |fewer| && fewer[i].0 == Text.Lower(key);
      assert aliases[i].0 == Text.Lower(key);
    }
  }

  // One row, through the passes so far and one more.
  lemma RowWithOneMore(start: Table, before: Table, after: Table, aliases: Aliases, r: string)
    requires WellFormed(aliases) && aliases != [] && r in after && r in before && r in start
    requires var fewer := aliases[..|aliases| - 1];
             && !IsAlias(fewer, before[r].normalizedKey)
             && (if IsAlias(fewer, start[r].normalizedKey)
                 then before[r] == WithKey(start[r], Canonical(fewer, start[r].normalizedKey)) else before[r] == start[r])
    requires if Text.Lower(before[r].normalizedKey) == aliases[|aliases| - 1].0
             then after[r] == WithKey(before[r], aliases[|aliases| - 1].1) else after[r] == before[r]
    ensures !IsAlias(aliases, after[r].normalizedKey)
    ensures if IsAlias(aliases, start[r].normalizedKey)
            then after[r] == WithKey(start[r], Canonical(aliases, start[r].normalizedKey)) else after[r] == start[r]
  {
    IsAliasWithOneMore(aliases, start[r].normalizedKey);
    IsAliasWithOneMore(aliases, after[r].normalizedKey);
    CanonicalWithOneMore(aliases, start[r].normalizedKey);
    CanonicalIsNoAlias(aliases[..|aliases| - 1], start[r].normalizedKey);
    CanonicalIsNoAlias(aliases, start[r].normalizedKey);
    LastAliasDecides(aliases, aliases[|aliases| - 1].1);
  }

  lemma OneMoreAlias(start: Table, before: Table, after: Table, aliases: Aliases)
    requires WellFormed(aliases) && aliases != []
    requires Rewritten(start, before, aliases[..|aliases| - 1])
    requires Progress(before, after, aliases[|aliases| - 1].0, aliases[|aliases| - 1].1, {})
    ensures Rewritten(start, after, aliases)
  {
    assert Observations(after, aliases) == Observations(start, aliases) by {
      PassKeepsObservations(before, after, aliases);
      ObservationsWithOneMore(start, aliases);
      ObservationsWithOneMore(before, aliases);
    }
    forall r | r in after
      ensures r in start && !IsAlias(aliases, after[r].normalizedKey)
      ensures if IsAlias(aliases, start[r].normalizedKey)
              then after[r] == WithKey(start[r], Canonical(aliases, start[r].normalizedKey)) else after[r] == start[r]
    {
      RowWithOneMore(start, before, after, aliases, r);
    }
    forall r | r in start && !IsAlias(aliases, start[r].normalizedKey) ensures r in after {
      IsAliasWithOneMore(aliases, start[r].normalizedKey);
    }
  }

  // The earlier, smaller pass makes no difference to what the table observes in the end.
  lemma EarlierPassIsHarmless(start: Table, middle: Table, after: Table, direct: Table, few: Aliases, all: Aliases)
    requires WellFormed(few) && WellFormed(all) && forall a | a in few :: a in all
    requires Rewritten(start, middle, few) && Rewritten(middle, after, all) && Rewritten(start, direct, all)
    ensures Observations(after, all) == Observations(direct, all)
  {
    forall r | r in start ensures Canonical(all, Canonical(few, start[r].normalizedKey)) == Canonical(all, start[r].normalizedKey) {
      CanonicalAfterFewer(start[r].normalizedKey, few, all);
    }
    forall r | r in middle ensures Canonical(all, Canonical(few, middle[r].normalizedKey)) == Canonical(all, middle[r].normalizedKey) {
      CanonicalAfterFewer(middle[r].normalizedKey, few, all);
    }
    SameObservationsStaySame(start, middle, few, all);
    SameObservationsStaySame(middle, start, few, all);
  }

  lemma SameObservationsStaySame(one: Table, two: Table, few: Aliases, all: Aliases)
    requires Observations(one, few) == Observations(two, few)
    requires forall r | r in one :: Canonical(all, Canonical(few, one[r].normalizedKey)) == Canonical(all, one[r].normalizedKey)
    requires forall r | r in two :: Canonical(all, Canonical(few, two[r].normalizedKey)) == Canonical(all, two[r].normalizedKey)
    ensures Observations(one, all) <= Observations(two, all)
  {
    forall r | r in one ensures (one[r].snapshot, Canonical(all, one[r].normalizedKey)) in Observations(two, all) {
      var o := (one[r].snapshot, Canonical(few, one[r].normalizedKey));
      assert o in Observations(two, few);
      var q :| q in two && o == (two[q].snapshot, Canonical(few, two[q].normalizedKey));
      assert (two[q].snapshot, Canonical(all, two[q].normalizedKey)) in Observations(two, all);
    }
  }

  lemma CanonicalAfterFewer(key: string, few: Aliases, all: Aliases)
    requires WellFormed(few) && WellFormed(all) && forall a | a in few :: a in all
    ensures Canonical(all, Canonical(few, key)) == Canonical(all, key)
  {
    CanonicalIsNoAlias(few, key);
    if i :| 0 <= i < |few| && few[i].0 == Text.Lower(key) {
      CanonicalOfAlias(few, key, i);
      assert few[i] in all;
      var j :| 0 <= j < |all| && all[j] == few[i];
      CanonicalOfAlias(all, key, j);
      assert !IsAlias(all, all[j].1);
    } else {
      Text.LowerIsIdempotent(key);
      LowerHasSameCanonical(all, key);
    }
  }

  lemma {:induction false} LowerHasSameCanonical(aliases: Aliases, key: string)
    ensures Canonical(aliases, Text.Lower(key)) == Canonical(aliases, key)
  {
    Text.LowerIsIdempotent(key);
    if aliases != [] {
      LowerHasSameCanonical(aliases[..|aliases| - 1], key);
    }
  }

  // ---- Agreement with ingestion ----

  // _OBSERVATION_ALIASES
  function ObservationAliases(control: string): seq<string> {
    if control == FIREWALL_SERVICE then ["ufw.enabled"]
    else if control == SSH_PASSWORD then
      ["linux.ssh.disable_password_authentication", "ssh.disable-password-authentication"]
    else if control == SECURITY_LOGGING then ["journald.storage-persistent"]
    else if control == DEFENDER then
      ["windows.defender.real-time-protection", "windows.defender.real_time_protection"]
    else if control == FIREWALL_PROFILES then
      ["windows.firewall.all-profiles-enabled", "windows.firewall.all_profiles"]
    else []
  }

  function KeysOf(control: string): seq<string> {
    [control] + ObservationAliases(control)
  }

  ghost predicate Maps(controls: seq<string>, key: string, control: string) {
    control in controls && exists i :: 0 <= i < |KeysOf(control)| && Text.Lower(KeysOf(control)[i]) == key
  }

  ghost predicate Unambiguous(controls: seq<string>) {
    forall key, c, d | Maps(controls, key, c) && Maps(controls, key, d) :: c == d
  }

  // The map holds exactly what some of the keys ask for.
  ghost predicate Collects(ids: map<string, string>, controls: seq<string>) {
    && (forall key | key in ids :: Maps(controls, key, ids[key]))
    && (forall key, c | Maps(controls, key, c) :: key in ids && ids[key] == c)
  }

  // The keys of one control are added; none of them may belong to another.
  ghost predicate Extends(before: map<string, string>, ids: map<string, string>, keys: seq<string>, control: string) {
    && (forall key | key in before :: key in ids && ids[key] == before[key])
    && (forall key | key in ids && key !in before ::
          ids[key] == control && exists k :: 0 <= k < |keys| && Text.Lower(keys[k]) == key)
    && (forall k | 0 <= k < |keys| :: Text.Lower(keys[k]) in ids && ids[Text.Lower(keys[k])] == control)
  }

  lemma OneMoreKey(before: map<string, string>, ids: map<string, string>, keys: seq<string>, key: string, control: string)
    requires Extends(before, ids, keys, control) && (Text.Lower(key) in ids ==> ids[Text.Lower(key)] == control)
    ensures Extends(before, ids[Text.Lower(key) := control], keys + [key], control)
  {
    assert (keys + [key])[|keys|] == key;
    forall i | 0 <= i < |keys| ensures (keys + [key])[i] == keys[i] {}
  }

  // The inner loop of observation_control_ids; None stands for its RuntimeError.
  method AddKeys(before: map<string, string>, keys: seq<string>, control: string) returns (r: Option<map<string, string>>)
    ensures r.Some? ==> Extends(before, r.value, keys, control)
    ensures r.None? ==> exists k :: 0 <= k < |keys| && Text.Lower(keys[k]) in before && before[Text.Lower(keys[k])] != control
  {
    var ids := before;
    for j := 0 to |keys|
      invariant Extends(before, ids, keys[..j], control)
    {
      var key := Text.Lower(keys[j]);
      assert keys[..j + 1] == keys[..j] + [keys[j]];
      if key in ids && ids[key] != control {
        return None;
      }
      OneMoreKey(before, ids, keys[..j], keys[j], control);
      ids := ids[key := control];
    }
    assert keys[..|keys|] == keys;
    return Some(ids);
  }

  // observation_control_ids
  method ObservationControlIds(controls: seq<string>) returns (r: Option<map<string, string>>)
    ensures r.Some? <==> Unambiguous(controls)
    ensures r.Some? ==> Collects(r.value, controls)
  {
    var ids: map<string, string> := map[];
    for i := 0 to |controls|
      invariant Collects(ids, controls[..i])
    {
      assert controls[..i + 1] == controls[..i] + [controls[i]];
      var keys := KeysOf(controls[i]);
      var extended := AddKeys(ids, keys, controls[i]);
      if extended.None? {
        ghost var k :| 0 <= k < |keys| && Text.Lower(keys[k]) in ids && ids[Text.Lower(keys[k])] != controls[i];
        ghost var key := Text.Lower(keys[k]);
        assert Maps(controls[..i], key, ids[key]);
        assert Maps(controls, key, ids[key]) && Maps(controls, key, controls[i]);
        return None;
      }
      OneMoreControl(ids, extended.value, controls[..i], controls[i]);
      ids := extended.value;
    }
    assert controls[..|controls|] == controls;
    return Some(ids);
  }

  lemma OneMoreControl(before: map<string, string>, ids: map<string, string>, controls: seq<string>, control: string)
    requires Collects(before, controls)
    requires Extends(before, ids, KeysOf(control), control)
    ensures Collects(ids, controls + [control])
  {
    forall key, c | Maps(controls + [control], key, c) ensures key in ids && ids[key] == c {
      if c in controls {
        assert Maps(controls, key, c);
      }
    }
    forall key | key in ids ensures Maps(controls + [control], key, ids[key]) {
      if key in before {
        assert Maps(controls, key, before[key]);
      }
    }
  }

  lemma MigrationAliasesAreIngestionAliases(i: nat)
    requires i < |ALIASES_0004|
    ensures ALIASES_0004[i].0 in ObservationAliases(ALIASES_0004[i].1)
  {
    assert ALIASES_0004[0] == ("journald.storage-persistent", SECURITY_LOGGING);
  }

  lemma IngestionAliasesAreMigrationAliases(control: string, alias: string)
    requires alias in ObservationAliases(control)
    ensures (alias, control) in ALIASES_0004
  {
    assert ALIASES_0004[0].0 == "journald.storage-persistent";
  }

  lemma LowerOfLowerCase(text: string)
    requires forall k | 0 <= k < |text| :: !('A' <= text[k] <= 'Z')
    ensures Text.Lower(text) == text
  {
  }

  lemma LowerOfJoined(first: string, second: string)
    requires Text.Lower(first) == first && Text.Lower(second) == second
    ensures Text.Lower(first + second) == first + second
  {
    forall k | 0 <= k < |first + second| ensures Text.LowerChar((first + second)[k]) == (first + second)[k] {
      if k < |first| {
        assert Text.LowerChar(first[k]) == first[k];
      } else {
        assert Text.LowerChar(second[k - |first|]) == second[k - |first|];
      }
    }
  }

  lemma WindowsKeysAreLowerCase()
    ensures Text.Lower(DEFENDER) == DEFENDER && Text.Lower(FIREWALL_PROFILES) == FIREWALL_PROFILES
  {
    LowerOfLowerCase(CONTROL_WINDOWS);
    LowerOfLowerCase("defender-real-time-protection");
    LowerOfLowerCase("firewall-all-profiles");
    LowerOfJoined(CONTROL_WINDOWS, "defender-real-time-protection");
    LowerOfJoined(CONTROL_WINDOWS, "firewall-all-profiles");
  }

  lemma LinuxKeysAreLowerCase()
    ensures Text.Lower(SECURITY_LOGGING) == SECURITY_LOGGING && Text.Lower(SSH_PASSWORD) == SSH_PASSWORD
    ensures Text.Lower(FIREWALL_SERVICE) == FIREWALL_SERVICE
  {
    LowerOfLowerCase(SECURITY_LOGGING);
    LowerOfLowerCase("linux.ssh.");
    LowerOfLowerCase("password-authentication-disabled");
    LowerOfJoined("linux.ssh.", "password-authentication-disabled");
    LowerOfLowerCase(FIREWALL_SERVICE);
  }

  predicate IsCanonicalKey(key: string) {
    key == SECURITY_LOGGING || key == SSH_PASSWORD || key == FIREWALL_SERVICE || key == DEFENDER || key == FIREWALL_PROFILES
  }

  lemma CanonicalKeyOf(i: nat)
    requires i < |ALIASES_0004|
    ensures IsCanonicalKey(ALIASES_0004[i].1)
  {
  }

  lemma CanonicalKeyShape(key: string)
    requires IsCanonicalKey(key)
    ensures key != "" && (key[0] == 'c' || (key[0] == 'l' && |key| != 41))
  {
    assert CONTROL_WINDOWS[0] == 'c' && "linux.ssh."[0] == 'l';
    assert SECURITY_LOGGING[0] == 'l' && FIREWALL_SERVICE[0] == 'l';
  }

  lemma CanonicalKeysAreLowerCase(i: nat)
    requires i < |ALIASES_0004|
    ensures Text.Lower(ALIASES_0004[i].1) == ALIASES_0004[i].1
  {
    CanonicalKeyOf(i);
    WindowsKeysAreLowerCase();
    LinuxKeysAreLowerCase();
  }

  // A number that tells the aliases apart.
  function Tag(key: string): nat
    requires |key| > 10
  {
    3 * |key| + if |key| == 37 && key[8] == 'f' then 1 else if |key| == 37 && key[21] == '_' then 2 else 0
  }

  const TAGS := [81, 123, 105, 33, 111, 113, 112, 87]

  lemma AliasHasTag(i: nat)
    requires i < |ALIASES_0004|
    ensures |ALIASES_0004[i].0| > 10 && Tag(ALIASES_0004[i].0) == TAGS[i]
  {
  }

  lemma CanonicalKeyIsNoAlias(i: nat, j: nat)
    requires i < |ALIASES_0004| && j < |ALIASES_0004|
    ensures ALIASES_0004[i].1 != ALIASES_0004[j].0
  {
    CanonicalKeyOf(i);
    CanonicalKeyShape(ALIASES_0004[i].1);
    assert ALIASES_0004[j].0[0] == ['j', 'l', 's', 'u', 'w', 'w', 'w', 'w'][j];
    assert j == 1 ==> |ALIASES_0004[j].0| == 41;
  }

  lemma MigrationAliasesAreWellFormed()
    ensures WellFormed(ALIASES_0004) && WellFormed(ALIASES_0002)
    ensures forall a | a in ALIASES_0002 :: a in ALIASES_0004
  {
    forall i, j | 0 <= i < |ALIASES_0004| && 0 <= j < |ALIASES_0004| && ALIASES_0004[i].0 == ALIASES_0004[j].0 ensures i == j {
      AliasHasTag(i);
      AliasHasTag(j);
    }
    forall i | 0 <= i < |ALIASES_0004| ensures Text.Lower(ALIASES_0004[i].1) == ALIASES_0004[i].1 {
      CanonicalKeysAreLowerCase(i);
    }
    forall i, j | 0 <= i < |ALIASES_0004| && 0 <= j < |ALIASES_0004| ensures ALIASES_0004[i].1 != ALIASES_0004[j].0 {
      CanonicalKeyIsNoAlias(i, j);
    }
    SubsetIsWellFormed();
  }

  lemma SubsetIsWellFormed()
    requires WellFormed(ALIASES_0004)
    ensures WellFormed(ALIASES_0002) && forall a | a in ALIASES_0002 :: a in ALIASES_0004
  {
    assert ALIASES_0002[0] == ALIASES_0004[4] && ALIASES_0002[1] == ALIASES_0004[6];
    assert ALIASES_0004[4].0 != ALIASES_0004[6].0;
  }

  // ---- What ingestion stores, and what the migrations leave ----

  // normalize_observation_control_id; `platforms` gives the platform of each control. None stands for its ValueError.
  function NormalizeObservation(
    ids: map<string, string>, platforms: map<string, string>, value: string, platform: Option<string>): Option<string>
    requires forall key | key in ids :: ids[key] in platforms
  {
    var key := Text.Lower(Text.Strip(value, Text.PYTHON_SPACE));
    if key !in ids || (platform.Some? && platforms[ids[key]] != platform.value) then None else Some(ids[key])
  }

  // An observation is accepted exactly under a known key, in whatever case and with white space around it, and only for
  // an endpoint on the control's own platform, if it says one.
  lemma ObservationIsAcceptedIff(
    ids: map<string, string>, platforms: map<string, string>, value: string, platform: Option<string>, control: string)
    requires forall key | key in ids :: ids[key] in platforms
    ensures NormalizeObservation(ids, platforms, value, platform) == Some(control) <==>
            exists trimmed ::
              && Text.IsTrimOf(value, trimmed, Text.PYTHON_SPACE)
              && Text.Lower(trimmed) in ids && ids[Text.Lower(trimmed)] == control
              && (platform.None? || platform == Some(platforms[control]))
  {
    var stripped := Text.Strip(value, Text.PYTHON_SPACE);
    Text.StripIff(value, stripped, Text.PYTHON_SPACE);
    forall trimmed | Text.IsTrimOf(value, trimmed, Text.PYTHON_SPACE) ensures trimmed == stripped {
      Text.StripIff(value, trimmed, Text.PYTHON_SPACE);
    }
  }

  // The normalised key of normalize_control_key
  function NormalizedKey(value: string): string {
    Text.Lower(Text.Strip(value, Text.PYTHON_SPACE))
  }

  // The normalised key that an observation with this key is stored under now, if it is accepted.
  function StoredKey(ids: map<string, string>, platforms: map<string, string>, value: string, platform: Option<string>)
    : Option<string>
    requires forall key | key in ids :: ids[key] in platforms
  {
    var control := NormalizeObservation(ids, platforms, value, platform);
    if control.Some? then Some(NormalizedKey(control.value)) else None
  }

  predicate IsNormalKey(key: string) {
    Text.Trimmed(key, Text.PYTHON_SPACE) && Text.Lower(key) == key
  }

  // A table filled through normalize_control_key
  predicate HasNormalKeys(rows: Table) {
    forall r | r in rows :: IsNormalKey(rows[r].normalizedKey)
  }

  // The map of observation_control_ids for a registry that knows the target of every alias.
  ghost predicate IsIngestionMap(ids: map<string, string>, platforms: map<string, string>, controls: seq<string>) {
    && Collects(ids, controls) && Unambiguous(controls)
    && (forall i | 0 <= i < |ALIASES_0004| :: ALIASES_0004[i].1 in controls)
    && (forall key | key in ids :: ids[key] in platforms)
  }

  // Normalised keys are the texts that normalisation leaves alone.
  lemma NormalizedKeyIsNormal(value: string)
    ensures IsNormalKey(NormalizedKey(value))
    ensures NormalizedKey(value) == value <==> IsNormalKey(value)
  {
    Text.StripGivesTrimmed(value, Text.PYTHON_SPACE);
    Text.StripFixesTrimmed(value, Text.PYTHON_SPACE);
    Text.LowerKeepsTrimmed(Text.Strip(value, Text.PYTHON_SPACE));
    Text.LowerIsIdempotent(Text.Strip(value, Text.PYTHON_SPACE));
  }

  lemma AliasIsTrimmed(i: nat)
    requires i < |ALIASES_0004|
    ensures Text.Trimmed(ALIASES_0004[i].0, Text.PYTHON_SPACE)
  {
  }

  lemma CanonicalKeyIsNormal(i: nat)
    requires i < |ALIASES_0004|
    ensures IsNormalKey(ALIASES_0004[i].1)
  {
    CanonicalKeyOf(i);
    CanonicalKeysAreLowerCase(i);
    CanonicalKeyIsTrimmed(ALIASES_0004[i].1);
  }

  lemma CanonicalKeyIsTrimmed(key: string)
    requires IsCanonicalKey(key)
    ensures Text.Trimmed(key, Text.PYTHON_SPACE)
  {
    CanonicalKeyShape(key);
    CanonicalKeyEnd(key);
  }

  lemma CanonicalKeyEnd(key: string)
    requires IsCanonicalKey(key)
    ensures key != "" && key[|key| - 1] in {'n', 's', 'g', 'd', 'e'}
  {
    assert DEFENDER[|DEFENDER| - 1] == 'n' && FIREWALL_PROFILES[|FIREWALL_PROFILES| - 1] == 's';
    assert SECURITY_LOGGING[|SECURITY_LOGGING| - 1] == 'g' && SSH_PASSWORD[|SSH_PASSWORD| - 1] == 'd';
  }

  // An alias is stored now under the canonical key that the migration gives it.
  lemma AliasIsStoredCanonically(
    controls: seq<string>, ids: map<string, string>, platforms: map<string, string>, key: string, platform: Option<string>)
    requires IsIngestionMap(ids, platforms, controls) && IsAlias(ALIASES_0004, key)
    requires StoredKey(ids, platforms, key, platform).Some?
    ensures StoredKey(ids, platforms, key, platform) == Some(Canonical(ALIASES_0004, key))
  {
    var i :| 0 <= i < |ALIASES_0004| && ALIASES_0004[i].0 == Text.Lower(key);
    AliasIsTrimmed(i);
    Text.LowerKeepsTrimmed(key);
    Text.StripFixesTrimmed(key, Text.PYTHON_SPACE);
    MigrationAliasesAreWellFormed();
    CanonicalOfAlias(ALIASES_0004, key, i);
    MigrationAliasIsMapped(controls, key, i);
    assert Maps(controls, Text.Lower(key), ids[Text.Lower(key)]);
    CanonicalKeyIsNormal(i);
    NormalizedKeyIsNormal(ALIASES_0004[i].1);
  }

  // Any other key is stored as it is now exactly if it is trimmed and in lower case.
  lemma OtherKeyIsStoredIffNormal(
    controls: seq<string>, ids: map<string, string>, platforms: map<string, string>, key: string, platform: Option<string>)
    requires IsIngestionMap(ids, platforms, controls) && !IsAlias(ALIASES_0004, key)
    requires StoredKey(ids, platforms, key, platform).Some?
    ensures StoredKey(ids, platforms, key, platform) == Some(key) <==> IsNormalKey(key)
  {
    var trimmed := Text.Strip(key, Text.PYTHON_SPACE);
    var control := ids[Text.Lower(trimmed)];
    NormalizedKeyIsNormal(control);
    if IsNormalKey(key) {
      Text.StripFixesTrimmed(key, Text.PYTHON_SPACE);
      assert Maps(controls, Text.Lower(key), control);
      OnlyControlItself(control, key);
      Text.LowerKeepsTrimmed(control);
      Text.StripFixesTrimmed(control, Text.PYTHON_SPACE);
    }
  }

  // Whatever the table held: a row that the upgrade leaves carries the key its old key would be stored under now exactly
  // if that was an alias or a trimmed key in lower case. The migration rewrites aliases and nothing else.
  lemma UpgradeAgreesWithIngestionIff(
    before: Table, after: Table, controls: seq<string>, ids: map<string, string>, platforms: map<string, string>,
    r: string, platform: Option<string>)
    requires Rewritten(before, after, ALIASES_0004) && r in after && IsIngestionMap(ids, platforms, controls)
    requires StoredKey(ids, platforms, before[r].normalizedKey, platform).Some?
    ensures StoredKey(ids, platforms, before[r].normalizedKey, platform) == Some(after[r].normalizedKey) <==>
            IsAlias(ALIASES_0004, before[r].normalizedKey) || IsNormalKey(before[r].normalizedKey)
  {
    var key := before[r].normalizedKey;
    if IsAlias(ALIASES_0004, key) {
      AliasIsStoredCanonically(controls, ids, platforms, key, platform);
    } else {
      OtherKeyIsStoredIffNormal(controls, ids, platforms, key, platform);
    }
  }

  // Hence for every table that ingestion has filled: each remaining row carries the key that ingestion would store for
  // its old one, and the table stays one of that kind.
  lemma UpgradeAgreesWithIngestion(
    before: Table, after: Table, controls: seq<string>, ids: map<string, string>, platforms: map<string, string>)
    requires Rewritten(before, after, ALIASES_0004) && HasNormalKeys(before) && IsIngestionMap(ids, platforms, controls)
    ensures HasNormalKeys(after)
    ensures forall r, platform | r in after ::
              var stored := StoredKey(ids, platforms, before[r].normalizedKey, platform);
              stored.Some? ==> stored.value == after[r].normalizedKey
  {
    forall r | r in after ensures IsNormalKey(after[r].normalizedKey) {
      if i :| 0 <= i < |ALIASES_0004| && ALIASES_0004[i].0 == Text.Lower(before[r].normalizedKey) {
        MigrationAliasesAreWellFormed();
        CanonicalOfAlias(ALIASES_0004, before[r].normalizedKey, i);
        CanonicalKeyIsNormal(i);
      }
    }
    forall r, platform | r in after && StoredKey(ids, platforms, before[r].normalizedKey, platform).Some?
      ensures StoredKey(ids, platforms, before[r].normalizedKey, platform).value == after[r].normalizedKey
    {
      UpgradeAgreesWithIngestionIff(before, after, controls, ids, platforms, r, platform);
    }
  }

  // The same key with a capital letter
  function Capitalized(key: string): string
    requires key != ""
  {
    "L" + key[1..]
  }

  lemma CapitalizedKeyIsLeftAlone(
    after: Table, controls: seq<string>, ids: map<string, string>, platforms: map<string, string>, i: nat, key: string)
    requires i < |ALIASES_0004| && ALIASES_0004[i].1 != "" && ALIASES_0004[i].1[0] == 'l' && key == Capitalized(ALIASES_0004[i].1)
    requires Rewritten(map["result" := Row("snapshot", key, key, map[])], after, ALIASES_0004)
    requires IsIngestionMap(ids, platforms, controls)
    ensures "result" in after && after["result"].normalizedKey == key
    ensures StoredKey(ids, platforms, key, None) == Some(ALIASES_0004[i].1) && ALIASES_0004[i].1 != key
  {
    CapitalizedAliasTarget(i, key);
    NoAliasIsLeftAlone(map["result" := Row("snapshot", key, key, map[])], after, ALIASES_0004, "result");
    CanonicalKeyIsStoredAsItself(controls, ids, platforms, i);
  }

  lemma NoAliasIsLeftAlone(before: Table, after: Table, aliases: Aliases, r: string)
    requires Rewritten(before, after, aliases) && r in before && !IsAlias(aliases, before[r].normalizedKey)
    ensures r in after && after[r] == before[r]
  {
  }

  lemma CapitalizedAliasTarget(i: nat, key: string)
    requires i < |ALIASES_0004| && ALIASES_0004[i].1 != "" && ALIASES_0004[i].1[0] == 'l' && key == Capitalized(ALIASES_0004[i].1)
    ensures !IsAlias(ALIASES_0004, key) && NormalizedKey(key) == ALIASES_0004[i].1 != key
  {
    CanonicalKeyOf(i);
    CanonicalKeysAreLowerCase(i);
    CapitalizedKey(ALIASES_0004[i].1, key);
    forall j | 0 <= j < |ALIASES_0004| ensures ALIASES_0004[j].0 != ALIASES_0004[i].1 {
      CanonicalKeyIsNoAlias(i, j);
    }
  }

  // In a table filled by something else, a row may hold this key: the migration leaves it, ingestion stores the
  // lower-case one.
  lemma MixedCaseKeyIsLeftAlone(
    after: Table, controls: seq<string>, ids: map<string, string>, platforms: map<string, string>, key: string)
    requires key == Capitalized(FIREWALL_SERVICE)
    requires Rewritten(map["result" := Row("snapshot", key, key, map[])], after, ALIASES_0004)
    requires IsIngestionMap(ids, platforms, controls)
    ensures "result" in after && after["result"].normalizedKey == key
    ensures StoredKey(ids, platforms, key, None) == Some(FIREWALL_SERVICE) && FIREWALL_SERVICE != key
  {
    CapitalizedKeyIsLeftAlone(after, controls, ids, platforms, 3, key);
  }

  lemma CanonicalKeyIsStoredAsItself(
    controls: seq<string>, ids: map<string, string>, platforms: map<string, string>, i: nat)
    requires IsIngestionMap(ids, platforms, controls) && i < |ALIASES_0004|
    ensures ALIASES_0004[i].1 in ids && ids[ALIASES_0004[i].1] == ALIASES_0004[i].1
    ensures NormalizedKey(ALIASES_0004[i].1) == ALIASES_0004[i].1
  {
    var control := ALIASES_0004[i].1;
    CanonicalKeyIsNormal(i);
    assert KeysOf(control)[0] == control;
    assert Maps(controls, control, control);
    NormalizedKeyIsNormal(control);
  }

  lemma CapitalizedKey(key: string, capitalized: string)
    requires IsCanonicalKey(key) && key[0] == 'l' && Text.Lower(key) == key && capitalized == Capitalized(key)
    ensures Text.Lower(capitalized) == key != capitalized
    ensures Text.Strip(capitalized, Text.PYTHON_SPACE) == capitalized
  {
    assert capitalized[0] == 'L';
    forall k | 0 <= k < |key| ensures Text.LowerChar(capitalized[k]) == key[k] {
      assert Text.Lower(key)[k] == Text.LowerChar(key[k]);
    }
    CanonicalKeyIsTrimmed(key);
    Text.LowerKeepsTrimmed(capitalized);
    Text.StripFixesTrimmed(capitalized, Text.PYTHON_SPACE);
  }

  lemma MigrationAliasIsMapped(controls: seq<string>, key: string, i: nat)
    requires i < |ALIASES_0004| && ALIASES_0004[i].0 == Text.Lower(key) && ALIASES_0004[i].1 in controls
    ensures Maps(controls, Text.Lower(key), ALIASES_0004[i].1)
  {
    MigrationAliasesAreIngestionAliases(i);
    var control := ALIASES_0004[i].1;
    var j :| 0 <= j < |ObservationAliases(control)| && ObservationAliases(control)[j] == ALIASES_0004[i].0;
    Text.LowerIsIdempotent(key);
    assert KeysOf(control)[j + 1] == ALIASES_0004[i].0;
  }

  lemma OnlyControlItself(control: string, key: string)
    requires !IsAlias(ALIASES_0004, key)
    requires exists i :: 0 <= i < |KeysOf(control)| && Text.Lower(KeysOf(control)[i]) == Text.Lower(key)
    ensures Text.Lower(control) == Text.Lower(key)
  {
    var i :| 0 <= i < |KeysOf(control)| && Text.Lower(KeysOf(control)[i]) == Text.Lower(key);
    if i > 0 {
      var alias := ObservationAliases(control)[i - 1];
      IngestionAliasesAreMigrationAliases(control, alias);
      var j :| 0 <= j < |ALIASES_0004| && ALIASES_0004[j] == (alias, control);
      AliasIsLowerCase(j);
    }
  }

  lemma AliasIsLowerCase(i: nat)
    requires i < |ALIASES_0004|
    ensures Text.Lower(ALIASES_0004[i].0) == ALIASES_0004[i].0
  {
    if i == 0 || i == 3 {
      LinuxAliasIsLowerCase(i);
    } else if i < 3 {
      SshAliasIsLowerCase(i);
    } else if i < 6 {
      DefenderAliasIsLowerCase(i);
    } else {
      FirewallAliasIsLowerCase(i);
    }
  }

  lemma LinuxAliasIsLowerCase(i: nat)
    requires i == 0 || i == 3
    ensures Text.Lower(ALIASES_0004[i].0) == ALIASES_0004[i].0
  {
    LowerOfLowerCase("journald.storage-persistent");
    LowerOfLowerCase("ufw.enabled");
  }

  lemma SshAliasIsLowerCase(i: nat)
    requires 1 <= i < 3
    ensures Text.Lower(ALIASES_0004[i].0) == ALIASES_0004[i].0
  {
    LowerOfLowerCase("linux.ssh.disable_password_authentication");
    LowerOfLowerCase("ssh.disable-password-authentication");
  }

  lemma DefenderAliasIsLowerCase(i: nat)
    requires 4 <= i < 6
    ensures Text.Lower(ALIASES_0004[i].0) == ALIASES_0004[i].0
  {
    LowerOfLowerCase("windows.defender.real-time-protection");
    LowerOfLowerCase("windows.defender.real_time_protection");
  }

  lemma FirewallAliasIsLowerCase(i: nat)
    requires 6 <= i < |ALIASES_0004|
    ensures Text.Lower(ALIASES_0004[i].0) == ALIASES_0004[i].0
  {
    LowerOfLowerCase("windows.firewall.all-profiles-enabled");
    LowerOfLowerCase("windows.firewall.all_profiles");
  }
}
