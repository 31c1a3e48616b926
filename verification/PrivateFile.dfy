/**
 The crash-atomic replacement of a private file, over a small file system with volatile and durable contents.

 The model is one directory. Node contents that were written but not synced are `torn`: a power loss may leave
 anything in them. Directory entries that were changed but not synced leave several `survivors`: a power loss may
 leave any of them. Every primitive may fail, and every state the primitives pass through is recorded, so a
 statement about `history` is a statement about every crash point.
 */
module PrivateFile {
  import opened Wrappers
  import opened DurableCell

  const PRIVATE_FILE_MODE: nat := 0x180 // 0600
  const PRIVATE_DIRECTORY_MODE: nat := 0x1C0 // 0700
  const TEMPORARY_PREFIX := ".sha-agent-private-"
  const TEMPORARY_SUFFIX := ".tmp"

  type Entries = map<string, nat>

  datatype Kind = Regular | Directory | Symlink

  datatype Node = Node(kind: Kind, mode: nat, owner: nat, content: string)

  datatype Fs = Fs(parent: Node, nodes: map<nat, Node>, torn: set<nat>, entries: Entries, survivors: set<Entries>)
  {
    ghost predicate Valid() {
      && entries in survivors
      && (forall e, n | e in survivors && n in e :: e[n] in nodes)
    }

    // No directory version that may survive a power loss gives `name` to a node with unsynced content.
    ghost predicate Intact(name: string) {
      forall e | e in survivors && name in e :: e[name] !in torn
    }

    // The same for all private files of the directory.
    ghost predicate AllIntact() {
      forall e, n | e in survivors && n in e && !IsTemporaryName(n) :: e[n] !in torn
    }

    // Only temporary names lead to the node.
    ghost predicate Unpublished(node: nat) {
      forall e, n | e in survivors && n in e && e[n] == node :: IsTemporaryName(n)
    }
  }

  predicate IsTemporaryName(name: string) {
    && |TEMPORARY_PREFIX| + |TEMPORARY_SUFFIX| <= |name|
    && name[..|TEMPORARY_PREFIX|] == TEMPORARY_PREFIX
    && name[|name| - |TEMPORARY_SUFFIX|..] == TEMPORARY_SUFFIX
  }

  function Lookup(nodes: map<nat, Node>, entries: Entries, name: string): Option<Node> {
    if name in entries && entries[name] in nodes then Some(nodes[entries[name]]) else None
  }

  // The named file as an atomically replaceable cell.
  ghost function View(fs: Fs, name: string): Cell<Option<Node>> {
    Cell(Lookup(fs.nodes, fs.entries, name), set e | e in fs.survivors :: Lookup(fs.nodes, e, name))
  }

  // The private files of one version of the directory.
  function Files(nodes: map<nat, Node>, entries: Entries): map<string, Node> {
    map n | n in entries && !IsTemporaryName(n) && entries[n] in nodes :: nodes[entries[n]]
  }

  // All private files of the directory together, as one atomically replaceable cell.
  ghost function DirectoryView(fs: Fs): Cell<map<string, Node>> {
    Cell(Files(fs.nodes, fs.entries), Versions(fs.nodes, fs.survivors))
  }

  ghost function Versions(nodes: map<nat, Node>, survivors: set<Entries>): set<map<string, Node>> {
    set e | e in survivors :: Files(nodes, e)
  }

  predicate OwnedPrivately(node: Node, euid: nat) {
    node.owner == 0 || node.owner == euid
  }

  predicate ValidPrivateDirectory(node: Node, euid: nat) {
    node.kind == Directory && node.mode == PRIVATE_DIRECTORY_MODE && OwnedPrivately(node, euid)
  }

  predicate ValidPrivateFile(node: Node, euid: nat) {
    node.kind == Regular && node.mode == PRIVATE_FILE_MODE && OwnedPrivately(node, euid)
  }

  // The directory is private, and so is the file if there is one.
  predicate IsReplaceable(fs: Fs, name: string, euid: nat) {
    && ValidPrivateDirectory(fs.parent, euid)
    && (name in fs.entries && fs.entries[name] in fs.nodes ==> ValidPrivateFile(fs.nodes[fs.entries[name]], euid))
  }

  datatype ReadError = BadDirectory | Missing | NotPrivate | TooLarge

  function ReadPrivateFile(parent: Node, found: Option<Node>, euid: nat, maximumBytes: nat): Result<string, ReadError> {
    if !ValidPrivateDirectory(parent, euid) then Failure(BadDirectory)
    else if found.None? then Failure(Missing)
    else if !ValidPrivateFile(found.value, euid) then Failure(NotPrivate)
    else if |found.value.content| > maximumBytes then Failure(TooLarge)
    else Success(found.value.content)
  }

  // A read succeeds exactly on a private file of bounded size in a private directory, and gives its content.
  lemma ReadIffPrivate(fs: Fs, name: string, euid: nat, maximumBytes: nat, content: string)
    requires fs.Valid()
    ensures ReadPrivateFile(fs.parent, View(fs, name).visible, euid, maximumBytes) == Success(content) <==>
            && name in fs.entries && fs.nodes[fs.entries[name]].content == content && |content| <= maximumBytes
            && fs.nodes[fs.entries[name]].kind == Regular && fs.nodes[fs.entries[name]].mode == PRIVATE_FILE_MODE
            && fs.nodes[fs.entries[name]].owner in {0, euid}
            && fs.parent.kind == Directory && fs.parent.mode == PRIVATE_DIRECTORY_MODE && fs.parent.owner in {0, euid}
  {
    assert name in fs.entries ==> fs.entries[name] in fs.nodes by {
      assert fs.entries in fs.survivors;
    }
  }

  // ---- Effects of the primitives ----

  function Created(fs: Fs, name: string, node: nat, euid: nat): Fs {
    var entries := fs.entries[name := node];
    fs.(nodes := fs.nodes[node := Node(Regular, PRIVATE_FILE_MODE, euid, "")],
        torn := fs.torn + {node},
        entries := entries,
        survivors := fs.survivors + {entries})
  }

  function Rewritten(fs: Fs, node: nat, value: Node): Fs {
    fs.(nodes := fs.nodes[node := value], torn := fs.torn + {node})
  }

  function Synced(fs: Fs, node: nat): Fs {
    fs.(torn := fs.torn - {node})
  }

  function Filled(fs: Fs, node: nat, file: Node): Fs {
    Synced(Rewritten(fs, node, file), node)
  }

  function Renamed(fs: Fs, source: string, target: string): Fs
    requires source in fs.entries
  {
    var entries := fs.entries[target := fs.entries[source]] - {source};
    fs.(entries := entries, survivors := fs.survivors + {entries})
  }

  function Removed(fs: Fs, name: string): Fs {
    var entries := fs.entries - {name};
    fs.(entries := entries, survivors := fs.survivors + {entries})
  }

  function DirectorySynced(fs: Fs): Fs {
    fs.(survivors := {fs.entries})
  }

  // What a power loss may turn the file system into.
  ghost predicate PowerLoss(fs: Fs, after: Fs) {
    && after.entries in fs.survivors
    && after.survivors == {after.entries}
    && after.parent == fs.parent
    && after.torn == {}
    && after.nodes.Keys == fs.nodes.Keys
    && (forall n | n in fs.nodes && n !in fs.torn :: after.nodes[n] == fs.nodes[n])
  }

  // ---- How the primitives look from one file ----

  lemma NewEntryKeepsView(fs: Fs, after: Fs, name: string)
    requires fs.Valid() && fs.Intact(name)
    requires after.survivors == fs.survivors + {after.entries}
    requires name in after.entries <==> name in fs.entries
    requires name in fs.entries ==> after.entries[name] == fs.entries[name]
    requires after.torn - fs.torn !! fs.nodes.Keys
    requires forall n | n in fs.nodes :: n in after.nodes && after.nodes[n] == fs.nodes[n]
    ensures after.Intact(name) && View(after, name) == View(fs, name)
  {
    forall e | e in fs.survivors ensures Lookup(after.nodes, e, name) == Lookup(fs.nodes, e, name) {}
    forall x | x in View(after, name).outcomes ensures x in View(fs, name).outcomes {
      var e :| e in after.survivors && x == Lookup(after.nodes, e, name);
      if e !in fs.survivors {
        assert x == Lookup(fs.nodes, fs.entries, name);
      }
    }
    forall x | x in View(fs, name).outcomes ensures x in View(after, name).outcomes {
      var e :| e in fs.survivors && x == Lookup(fs.nodes, e, name);
      assert x == Lookup(after.nodes, e, name);
    }
  }

  lemma NodeChangeKeepsView(fs: Fs, after: Fs, name: string, node: nat)
    requires fs.Valid() && fs.Intact(name) && fs.Unpublished(node) && !IsTemporaryName(name) && node in fs.nodes
    requires SameButForNode(fs, after, node)
    ensures after.Valid() && after.Intact(name) && after.Unpublished(node) && View(after, name) == View(fs, name)
  {
    forall e | e in fs.survivors ensures Lookup(after.nodes, e, name) == Lookup(fs.nodes, e, name) {}
    forall x | x in View(after, name).outcomes ensures x in View(fs, name).outcomes {
      var e :| e in after.survivors && x == Lookup(after.nodes, e, name);
      assert x == Lookup(fs.nodes, e, name);
    }
    forall x | x in View(fs, name).outcomes ensures x in View(after, name).outcomes {
      var e :| e in fs.survivors && x == Lookup(fs.nodes, e, name);
      assert x == Lookup(after.nodes, e, name);
    }
  }

  lemma RenameReplacesView(fs: Fs, source: string, target: string)
    requires fs.Valid() && fs.Intact(target) && source in fs.entries && source != target
    requires fs.entries[source] !in fs.torn
    ensures Renamed(fs, source, target).Valid() && Renamed(fs, source, target).Intact(target)
    ensures View(Renamed(fs, source, target), target) ==
            AfterSave(View(fs, target), Some(fs.nodes[fs.entries[source]]), ReplacedNotSynced)
  {
    var after := Renamed(fs, source, target);
    var replaced := AfterSave(View(fs, target), Some(fs.nodes[fs.entries[source]]), ReplacedNotSynced);
    assert after.entries in after.survivors;
    assert Lookup(after.nodes, after.entries, target) == Some(fs.nodes[fs.entries[source]]);
    forall x | x in View(after, target).outcomes ensures x in replaced.outcomes {
      var e :| e in after.survivors && x == Lookup(after.nodes, e, target);
    }
    forall x | x in replaced.outcomes ensures x in View(after, target).outcomes {
      if x in View(fs, target).outcomes {
        var e :| e in fs.survivors && x == Lookup(fs.nodes, e, target);
        assert e in after.survivors;
      }
    }
  }

  lemma DirectorySyncSettlesView(fs: Fs, name: string)
    requires fs.Valid() && fs.Intact(name)
    ensures DirectorySynced(fs).Valid() && DirectorySynced(fs).Intact(name)
    ensures View(DirectorySynced(fs), name) == AfterSave(View(fs, name), View(fs, name).visible, Saved)
  {
    var after := DirectorySynced(fs);
    assert after.entries in after.survivors;
    forall x | x in View(after, name).outcomes ensures x == View(fs, name).visible {
      var e :| e in after.survivors && x == Lookup(after.nodes, e, name);
    }
    assert View(fs, name).visible in View(after, name).outcomes;
  }

  // A power loss takes an intact file to one of its recorded outcomes, whole, and to nothing else.
  lemma PowerLossPicksAnOutcome(fs: Fs, after: Fs, name: string)
    requires fs.Valid() && fs.Intact(name) && PowerLoss(fs, after)
    ensures after.Valid() && after.Intact(name)
    ensures View(after, name).visible in View(fs, name).outcomes
    ensures View(after, name) == AfterPowerLoss(View(after, name).visible)
  {
    assert Lookup(after.nodes, after.entries, name) == Lookup(fs.nodes, after.entries, name);
    forall x | x in View(after, name).outcomes ensures x == View(after, name).visible {
      var e :| e in after.survivors && x == Lookup(after.nodes, e, name);
    }
    assert after.entries in after.survivors;
  }

  // The outcomes are exact: each of them is what some power loss leaves.
  lemma EveryOutcomeCanSurvive(fs: Fs, name: string, outcome: Option<Node>)
    requires fs.Valid() && fs.Intact(name) && outcome in View(fs, name).outcomes
    ensures exists after :: PowerLoss(fs, after) && View(after, name).visible == outcome
  {
    var e :| e in fs.survivors && outcome == Lookup(fs.nodes, e, name);
    var after := fs.(torn := {}, entries := e, survivors := {e});
    assert PowerLoss(fs, after) && View(after, name).visible == outcome;
  }

  // ---- How the primitives look from the whole directory ----

  lemma FilesKept(nodes: map<nat, Node>, later: map<nat, Node>, entries: Entries)
    requires forall n | n in entries && !IsTemporaryName(n) && entries[n] in later :: entries[n] in nodes
    requires forall n | n in entries && !IsTemporaryName(n) && entries[n] in nodes ::
               entries[n] in later && later[entries[n]] == nodes[entries[n]]
    ensures Files(later, entries) == Files(nodes, entries)
  {
  }

  lemma VersionsKept(nodes: map<nat, Node>, later: map<nat, Node>, survivors: set<Entries>)
    requires forall e | e in survivors :: Files(later, e) == Files(nodes, e)
    ensures Versions(later, survivors) == Versions(nodes, survivors)
  {
    forall files | files in Versions(later, survivors) ensures files in Versions(nodes, survivors) {
      var e :| e in survivors && files == Files(later, e);
      assert files == Files(nodes, e);
    }
    forall files | files in Versions(nodes, survivors) ensures files in Versions(later, survivors) {
      var e :| e in survivors && files == Files(nodes, e);
      assert files == Files(later, e);
    }
  }

  lemma OneMoreVersion(nodes: map<nat, Node>, survivors: set<Entries>, entries: Entries)
    ensures Versions(nodes, survivors + {entries}) == Versions(nodes, survivors) + {Files(nodes, entries)}
  {
    forall files | files in Versions(nodes, survivors) + {Files(nodes, entries)}
      ensures files in Versions(nodes, survivors + {entries})
    {
      if files in Versions(nodes, survivors) {
        var e :| e in survivors && files == Files(nodes, e);
        assert e in survivors + {entries};
      } else {
        assert entries in survivors + {entries};
      }
    }
  }

  lemma NoNewVersion(nodes: map<nat, Node>, survivors: set<Entries>, current: Entries, entries: Entries)
    requires current in survivors && Files(nodes, entries) == Files(nodes, current)
    ensures Versions(nodes, survivors + {entries}) == Versions(nodes, survivors)
  {
    OneMoreVersion(nodes, survivors, entries);
    assert Files(nodes, current) in Versions(nodes, survivors);
  }

  lemma NodeChangeKeepsDirectory(fs: Fs, after: Fs, node: nat)
    requires fs.Valid() && fs.AllIntact() && fs.Unpublished(node) && node in fs.nodes && SameButForNode(fs, after, node)
    ensures after.AllIntact() && DirectoryView(after) == DirectoryView(fs)
  {
    forall e | e in fs.survivors ensures Files(after.nodes, e) == Files(fs.nodes, e) {
      FilesKept(fs.nodes, after.nodes, e);
    }
    VersionsKept(fs.nodes, after.nodes, fs.survivors);
  }

  lemma EntryBesides(entries: Entries, name: string, node: nat)
    ensures entries[name := node] - {name} == entries - {name}
  {
  }

  lemma NewNodeKeepsVersions(nodes: map<nat, Node>, survivors: set<Entries>, node: nat, value: Node)
    requires node !in nodes && forall e, n | e in survivors && n in e :: e[n] in nodes
    ensures forall e | e in survivors :: Files(nodes[node := value], e) == Files(nodes, e)
    ensures Versions(nodes[node := value], survivors) == Versions(nodes, survivors)
  {
    forall e | e in survivors ensures Files(nodes[node := value], e) == Files(nodes, e) {
      FilesKept(nodes, nodes[node := value], e);
    }
    VersionsKept(nodes, nodes[node := value], survivors);
  }

  lemma CreationKeepsDirectory(fs: Fs, temporary: string, node: nat, euid: nat)
    requires fs.Valid() && fs.AllIntact() && IsTemporaryName(temporary) && node !in fs.nodes
    ensures var after := Created(fs, temporary, node, euid); after.AllIntact() && DirectoryView(after) == DirectoryView(fs)
  {
    var value := Node(Regular, PRIVATE_FILE_MODE, euid, "");
    var entries := fs.entries[temporary := node];
    NewNodeKeepsVersions(fs.nodes, fs.survivors, node, value);
    EntryBesides(fs.entries, temporary, node);
    FilesKeptBesides(fs.nodes, fs.nodes[node := value], fs.entries, entries, temporary);
    NoNewVersion(fs.nodes[node := value], fs.survivors, fs.entries, entries);
  }

  // Temporary entries are no part of it.
  lemma FilesKeptBesides(nodes: map<nat, Node>, later: map<nat, Node>, entries: Entries, after: Entries, temporary: string)
    requires IsTemporaryName(temporary) && after - {temporary} == entries - {temporary}
    requires Files(later, entries) == Files(nodes, entries)
    ensures Files(later, after) == Files(nodes, entries)
  {
    forall n | n != temporary ensures n in after <==> n in entries {
      assert n in after - {temporary} <==> n in entries - {temporary};
    }
    forall n | n != temporary && n in after ensures after[n] == entries[n] {
      assert (after - {temporary})[n] == (entries - {temporary})[n];
    }
    assert Files(later, after) == Files(later, entries);
  }

  lemma RemovalKeepsDirectory(fs: Fs, temporary: string)
    requires fs.Valid() && fs.AllIntact() && IsTemporaryName(temporary)
    ensures var after := Removed(fs, temporary); after.AllIntact() && DirectoryView(after) == DirectoryView(fs)
  {
    var after := Removed(fs, temporary);
    FilesKeptBesides(fs.nodes, fs.nodes, fs.entries, after.entries, temporary);
    NoNewVersion(fs.nodes, fs.survivors, fs.entries, after.entries);
  }

  // A rename replaces one file of the directory, and leaves open whether it survives.
  lemma RenameReplacesInDirectory(fs: Fs, temporary: string, target: string)
    requires fs.Valid() && fs.AllIntact() && IsTemporaryName(temporary) && !IsTemporaryName(target)
    requires temporary in fs.entries && fs.entries[temporary] !in fs.torn
    ensures var after := Renamed(fs, temporary, target);
            && after.Valid() && after.AllIntact()
            && DirectoryView(after) ==
               AfterSave(DirectoryView(fs), DirectoryView(fs).visible[target := fs.nodes[fs.entries[temporary]]], ReplacedNotSynced)
  {
    var after := Renamed(fs, temporary, target);
    assert Files(fs.nodes, after.entries) == Files(fs.nodes, fs.entries)[target := fs.nodes[fs.entries[temporary]]];
    OneMoreVersion(fs.nodes, fs.survivors, after.entries);
    assert after.entries in after.survivors;
  }

  // Syncing the directory settles every file in it.
  lemma SyncSettlesDirectory(fs: Fs)
    requires fs.Valid() && fs.AllIntact()
    ensures DirectorySynced(fs).AllIntact() && DirectoryView(DirectorySynced(fs)) == AfterWriteback(DirectoryView(fs))
  {
    var after := DirectorySynced(fs);
    assert fs.entries in after.survivors;
    assert DirectoryView(after).outcomes == {Files(fs.nodes, fs.entries)};
  }

  // A power loss takes all files of the directory to one version of it.
  lemma PowerLossPicksAVersion(fs: Fs, after: Fs)
    requires fs.Valid() && fs.AllIntact() && PowerLoss(fs, after)
    ensures after.AllIntact() && DirectoryView(after).visible in DirectoryView(fs).outcomes
    ensures DirectoryView(after) == AfterPowerLoss(DirectoryView(after).visible)
  {
    assert Files(after.nodes, after.entries) == Files(fs.nodes, after.entries);
    assert after.entries in after.survivors;
    assert DirectoryView(after).outcomes == {Files(after.nodes, after.entries)};
  }

  // ---- Unused names ----

  lemma {:induction false} LongerThanAll(names: set<string>) returns (n: nat)
    ensures forall name | name in names :: |name| <= n
  {
    n := 0;
    if names != {} {
      var name :| name in names;
      var rest := LongerThanAll(names - {name});
      n := if |name| > rest then |name| else rest;
      forall other | other in names ensures |other| <= n {
        assert other == name || other in names - {name};
      }
    }
  }

  lemma UnusedTemporaryName(names: set<string>)
    ensures exists name :: IsTemporaryName(name) && name !in names
  {
    var n := LongerThanAll(names);
    var name := TEMPORARY_PREFIX + seq(n, _ => '0') + TEMPORARY_SUFFIX;
    assert name[..|TEMPORARY_PREFIX|] == TEMPORARY_PREFIX && name[|name| - |TEMPORARY_SUFFIX|..] == TEMPORARY_SUFFIX;
    assert IsTemporaryName(name) && |name| > n;
  }

  lemma {:induction false} MoreThanAll(nodes: set<nat>) returns (n: nat)
    ensures forall node | node in nodes :: node < n
  {
    n := 0;
    if nodes != {} {
      var node :| node in nodes;
      var rest := MoreThanAll(nodes - {node});
      n := if node < rest then rest else node + 1;
      forall other | other in nodes ensures other < n {
        assert other == node || other in nodes - {node};
      }
    }
  }

  lemma UnusedNode(nodes: set<nat>)
    ensures exists node: nat :: node !in nodes
  {
    var n := MoreThanAll(nodes);
    assert n !in nodes;
  }

  // ---- The directory and its primitives ----

  class PrivateDirectory {
    var fs: Fs
    ghost var history: seq<Fs>
    const euid: nat
    const reliable: bool // no primitive fails
    const removes: bool // whatever else fails, a temporary file can be removed

    ghost predicate Valid() reads this {
      fs.Valid() && history != [] && history[|history| - 1] == fs
    }

    // Moves to a new state and remembers it as a possible crash point.
    method Enter(next: Fs)
      modifies this
      ensures fs == next && history == old(history) + [next]
    {
      fs := next;
      history := history + [next];
    }

    method CreateTemporary() returns (created: Option<string>)
      requires fs.Valid()
      modifies this
      ensures created.None? ==> !reliable && fs == old(fs) && history == old(history)
      ensures created.Some? ==>
                && IsTemporaryName(created.value)
                && created.value !in old(fs).entries
                && (exists node | node !in old(fs).nodes :: fs == Created(old(fs), created.value, node, euid))
                && history == old(history) + [fs]
    {
      var fails: bool := *;
      if fails && !reliable {
        return None;
      }
      UnusedTemporaryName(fs.entries.Keys);
      UnusedNode(fs.nodes.Keys);
      var name: string :| IsTemporaryName(name) && name !in fs.entries;
      var node: nat :| node !in fs.nodes;
      Enter(Created(fs, name, node, euid));
      return Some(name);
    }

    // os.Chmod and File.Chmod: giving a node the mode it already has leaves nothing to sync.
    method Chmod(name: string, mode: nat) returns (ok: bool)
      requires fs.Valid() && name in fs.entries
      modifies this
      ensures var node := old(fs).entries[name];
              fs == if !ok || old(fs).nodes[node].mode == mode then old(fs)
                    else Rewritten(old(fs), node, old(fs).nodes[node].(mode := mode))
      ensures history == old(history) + [fs]
      ensures reliable ==> ok
    {
      var node := fs.entries[name];
      ok := *;
      ok := ok || reliable;
      Enter(if !ok || fs.nodes[node].mode == mode then fs else Rewritten(fs, node, fs.nodes[node].(mode := mode)));
    }

    // A failed write may have stored any part of the content.
    method Write(name: string, content: string) returns (ok: bool)
      requires fs.Valid() && name in fs.entries
      modifies this
      ensures var node := old(fs).entries[name];
              exists stored: string ::
                fs == Rewritten(old(fs), node, old(fs).nodes[node].(content := stored)) && (ok ==> stored == content)
      ensures history == old(history) + [fs]
      ensures reliable ==> ok
    {
      ok := *;
      ok := ok || reliable;
      var stored: string := *;
      var value := fs.nodes[fs.entries[name]].(content := if ok then content else stored);
      Enter(Rewritten(fs, fs.entries[name], value));
    }

    method Sync(name: string) returns (ok: bool)
      requires fs.Valid() && name in fs.entries
      modifies this
      ensures fs == if ok then Synced(old(fs), old(fs).entries[name]) else old(fs)
      ensures history == old(history) + [fs]
      ensures reliable ==> ok
    {
      ok := *;
      ok := ok || reliable;
      Enter(if ok then Synced(fs, fs.entries[name]) else fs);
    }

    method Rename(source: string, target: string) returns (ok: bool)
      requires fs.Valid() && source in fs.entries
      modifies this
      ensures fs == if ok then Renamed(old(fs), source, target) else old(fs)
      ensures history == old(history) + [fs]
      ensures reliable ==> ok
    {
      ok := *;
      ok := ok || reliable;
      Enter(if ok then Renamed(fs, source, target) else fs);
    }

    method Remove(name: string)
      modifies this
      ensures fs == old(fs) || fs == Removed(old(fs), name)
      ensures removes ==> fs == Removed(old(fs), name)
      ensures history == old(history) + [fs]
    {
      var ok: bool := *;
      ok := ok || removes;
      Enter(if ok then Removed(fs, name) else fs);
    }

    method SyncDirectory() returns (ok: bool)
      modifies this
      ensures fs == if ok then DirectorySynced(old(fs)) else old(fs)
      ensures history == old(history) + [fs]
      ensures reliable ==> ok
    {
      ok := *;
      ok := ok || reliable;
      Enter(if ok then DirectorySynced(fs) else fs);
    }

    // platformProtectPrivateFile: set the mode, then check what the path leads to.
    method ProtectPrivateFile(name: string) returns (ok: bool)
      requires fs.Valid() && name in fs.entries && fs.nodes[fs.entries[name]].mode == PRIVATE_FILE_MODE
      modifies this
      ensures fs == old(fs) && history == old(history) + [fs]
      ensures ok ==> ValidPrivateFile(fs.nodes[fs.entries[name]], euid)
      ensures reliable && ValidPrivateFile(fs.nodes[fs.entries[name]], euid) ==> ok
    {
      ok := Chmod(name, PRIVATE_FILE_MODE);
      ok := ok && ValidPrivateFile(fs.nodes[fs.entries[name]], euid);
    }

    // Fills the temporary file, syncs it and closes it; no other node and no directory entry changes.
    method FillTemporary(temporary: string, content: string) returns (ok: bool)
      requires fs.Valid() && temporary in fs.entries
      requires fs.nodes[fs.entries[temporary]] == NewFile(euid, "")
      modifies this
      ensures old(history) < history && history[|history| - 1] == fs
      ensures forall i | |old(history)| <= i < |history| :: SameButForNode(old(fs), history[i], old(fs).entries[temporary])
      ensures ok ==> fs == Filled(old(fs), old(fs).entries[temporary], NewFile(euid, content))
      ensures reliable ==> ok
    {
      ok := Chmod(temporary, PRIVATE_FILE_MODE);
      if !ok { return; }
      ok := Write(temporary, content);
      if !ok { return; }
      ok := Sync(temporary);
      if !ok { return; }
      ok := *;
      if !ok && !reliable { return; } // the close failed
      ok := ProtectPrivateFile(temporary);
    }

    // Moves the synced temporary file over the target and makes the directory entry durable.
    method PublishTemporary(temporary: string, target: string) returns (ok: bool, replaced: bool)
      requires fs.Valid() && fs.Intact(target) && temporary in fs.entries && temporary != target
      requires fs.entries[temporary] !in fs.torn && fs.nodes[fs.entries[temporary]].mode == PRIVATE_FILE_MODE
      modifies this
      ensures ok ==> replaced
      ensures fs == if !replaced then old(fs)
                    else if ok then DirectorySynced(Renamed(old(fs), temporary, target))
                    else Renamed(old(fs), temporary, target)
      ensures old(history) < history && history[|history| - 1] == fs
      ensures forall i | |old(history)| <= i < |history| ::
                || history[i] == old(fs)
                || history[i] == Renamed(old(fs), temporary, target)
                || history[i] == DirectorySynced(Renamed(old(fs), temporary, target))
      ensures reliable && ValidPrivateFile(old(fs).nodes[old(fs).entries[temporary]], euid) ==> ok
    {
      replaced := Rename(temporary, target);
      if !replaced { return false, false; }
      ok := ProtectPrivateFile(target);
      if !ok { return; }
      ok := SyncDirectory();
    }

    // Everything between the creation of the temporary file and the deferred clean-up.
    method ReplaceThroughTemporary(temporary: string, target: string, content: string)
      returns (ok: bool, replaced: bool)
      requires fs.Valid() && fs.Intact(target) && !IsTemporaryName(target)
      requires IsTemporaryName(temporary) && temporary in fs.entries && fs.Unpublished(fs.entries[temporary])
      requires fs.nodes[fs.entries[temporary]] == NewFile(euid, "")
      modifies this
      ensures (ok ==> replaced) && (reliable ==> ok)
      ensures ReplacedNames(old(fs).entries, fs.entries, temporary, target, replaced)
      ensures Progress(old(fs), fs, target, NewFile(euid, content),
                       if ok then Saved else if replaced then ReplacedNotSynced else NotReplaced)
      ensures old(fs).AllIntact() ==>
                ProgressTogether(old(fs), fs, target, NewFile(euid, content),
                                 if ok then Saved else if replaced then ReplacedNotSynced else NotReplaced)
      ensures old(history) < history && history[|history| - 1] == fs
      ensures forall i | |old(history)| <= i < |history| ::
                Whole(history[i], target, View(old(fs), target), NewFile(euid, content))
    {
      ghost var initial, node, mark := fs, fs.entries[temporary], |history|;
      ghost var file := NewFile(euid, content);
      ok := FillTemporary(temporary, content);
      FillingIsWhole(initial, history, mark, target, node, file);
      if !ok {
        FillingIsNoProgress(initial, fs, target, node, file);
        return false, false;
      }
      ghost var filled := history;
      ok, replaced := PublishTemporary(temporary, target);
      PrefixesCompose(old(history), filled, history);
      PublishingIsProgress(initial, temporary, target, file);
      PublishingIsProgressTogether(initial, temporary, target, file);
      PublishingReplacesNames(initial, temporary, target, file);
      PublishingIsWhole(initial, history, |filled|, temporary, target, file);
    }

    // The deferred removal of the temporary file
    method Abandon(temporary: string, ghost target: string)
      requires fs.Valid() && fs.Intact(target) && IsTemporaryName(temporary) && !IsTemporaryName(target)
      modifies this
      ensures fs.Valid() && fs.Intact(target) && View(fs, target) == View(old(fs), target) && fs.parent == old(fs).parent
      ensures forall n | !IsTemporaryName(n) ::
                Lookup(fs.nodes, fs.entries, n) == Lookup(old(fs).nodes, old(fs).entries, n)
      ensures old(fs).AllIntact() ==> fs.AllIntact() && DirectoryView(fs) == DirectoryView(old(fs))
      ensures history == old(history) + [fs]
      ensures removes ==> fs.entries.Keys == old(fs).entries.Keys - {temporary}
    {
      ghost var before := fs;
      Remove(temporary);
      NewEntryKeepsView(before, fs, target);
      if before.AllIntact() {
        RemovalKeepsDirectory(before, temporary);
      }
    }

    // The write once the temporary file exists
    method WriteThroughTemporary(temporary: string, target: string, content: string)
      returns (ok: bool, ghost result: SaveResult)
      requires fs.Valid() && fs.Intact(target) && !IsTemporaryName(target)
      requires IsTemporaryName(temporary) && temporary in fs.entries && fs.Unpublished(fs.entries[temporary])
      requires fs.nodes[fs.entries[temporary]] == NewFile(euid, "")
      modifies this
      ensures (ok <==> result == Saved) && (reliable ==> ok)
      ensures removes ==> fs.entries.Keys <= old(fs).entries.Keys - {temporary} + {target}
      ensures Progress(old(fs), fs, target, NewFile(euid, content), result)
      ensures old(fs).AllIntact() ==> ProgressTogether(old(fs), fs, target, NewFile(euid, content), result)
      ensures old(history) < history && history[|history| - 1] == fs
      ensures forall i | |old(history)| <= i < |history| ::
                Whole(history[i], target, View(old(fs), target), NewFile(euid, content))
    {
      var replaced;
      ok, replaced := ReplaceThroughTemporary(temporary, target, content);
      result := if ok then Saved else if replaced then ReplacedNotSynced else NotReplaced;
      if !replaced {
        Abandon(temporary, target);
      }
    }

    // The write of a file that may be replaced
    method WriteNew(target: string, content: string) returns (ok: bool, ghost result: SaveResult)
      requires Valid() && fs.Intact(target) && !IsTemporaryName(target)
      modifies this
      ensures Valid() && Progress(old(fs), fs, target, NewFile(euid, content), result)
      ensures (ok <==> result == Saved) && (reliable ==> ok)
      ensures removes ==> fs.entries.Keys <= old(fs).entries.Keys + {target}
      ensures old(fs).AllIntact() ==> ProgressTogether(old(fs), fs, target, NewFile(euid, content), result)
      ensures old(history) <= history
      ensures forall i | |old(history)| <= i < |history| ::
                Whole(history[i], target, View(old(fs), target), NewFile(euid, content))
    {
      result := NotReplaced;
      ghost var initial := fs;
      var temporary := CreateTemporary();
      if temporary.None? { return false, result; }
      CreationKeepsView(initial, fs, temporary.value, target, euid);
      CreationIsNoProgressTogether(initial, fs, temporary.value, euid);
      ok, result := WriteThroughTemporary(temporary.value, target, content);
    }

    method WriteAtomicPrivateFile(target: string, content: string) returns (ok: bool, ghost result: SaveResult)
      requires Valid() && fs.Intact(target) && !IsTemporaryName(target)
      modifies this
      // It refuses to touch a directory or a file that is not private, and nothing else if no primitive fails.
      ensures !IsReplaceable(old(fs), target, euid) ==> !ok && fs == old(fs) && history == old(history)
      ensures reliable && IsReplaceable(old(fs), target, euid) ==> ok
      // No temporary file is left behind.
      ensures removes ==> fs.entries.Keys <= old(fs).entries.Keys + {target}
      // The write is one attempt to save the cell; it reports success exactly when nothing else can survive.
      ensures Valid() && Progress(old(fs), fs, target, NewFile(euid, content), result)
      ensures ok <==> result == Saved
      // It is also one attempt to save all private files of the directory, with the others unchanged.
      ensures old(fs).AllIntact() ==> ProgressTogether(old(fs), fs, target, NewFile(euid, content), result)
      // Every state it passes through shows the old file or the whole new one, now and after a power loss.
      ensures old(history) <= history
      ensures forall i | |old(history)| <= i < |history| ::
                Whole(history[i], target, View(old(fs), target), NewFile(euid, content))
    {
      if !ValidPrivateDirectory(fs.parent, euid) { return false, NotReplaced; }
      var found := Lookup(fs.nodes, fs.entries, target);
      if found.Some? && !ValidPrivateFile(found.value, euid) { return false, NotReplaced; }
      ok, result := WriteNew(target, content);
    }
  }

  // The directory as a whole went through one save attempt that replaces this one file.
  ghost predicate ProgressTogether(before: Fs, after: Fs, target: string, file: Node, result: SaveResult) {
    && after.AllIntact()
    && DirectoryView(after) == AfterSave(DirectoryView(before), DirectoryView(before).visible[target := file], result)
  }

  lemma PublishingIsProgressTogether(fs: Fs, temporary: string, target: string, file: Node)
    requires fs.Valid() && !IsTemporaryName(target)
    requires IsTemporaryName(temporary) && temporary in fs.entries && fs.Unpublished(fs.entries[temporary])
    ensures fs.AllIntact() ==>
            var filled := Filled(fs, fs.entries[temporary], file);
            var renamed := Renamed(filled, temporary, target);
            && ProgressTogether(fs, filled, target, file, NotReplaced)
            && ProgressTogether(fs, renamed, target, file, ReplacedNotSynced)
            && ProgressTogether(fs, DirectorySynced(renamed), target, file, Saved)
  {
    if fs.AllIntact() {
      var filled := Filled(fs, fs.entries[temporary], file);
      NodeChangeKeepsDirectory(fs, filled, fs.entries[temporary]);
      RenameReplacesInDirectory(filled, temporary, target);
      SyncSettlesDirectory(Renamed(filled, temporary, target));
    }
  }

  lemma CreationIsNoProgressTogether(fs: Fs, after: Fs, temporary: string, euid: nat)
    requires fs.Valid() && IsTemporaryName(temporary)
    requires exists node | node !in fs.nodes :: after == Created(fs, temporary, node, euid)
    ensures fs.AllIntact() ==> after.AllIntact() && DirectoryView(after) == DirectoryView(fs)
  {
    if fs.AllIntact() {
      var node :| node !in fs.nodes && after == Created(fs, temporary, node, euid);
      CreationKeepsDirectory(fs, temporary, node, euid);
    }
  }

  // The target went through one save attempt with this result, and no other file's visible content changed.
  ghost predicate Progress(before: Fs, after: Fs, target: string, file: Node, result: SaveResult) {
    && after.Valid() && after.Intact(target) && after.parent == before.parent
    && View(after, target) == AfterSave(View(before, target), Some(file), result)
    && (forall n | n != target && !IsTemporaryName(n) ::
          Lookup(after.nodes, after.entries, n) == Lookup(before.nodes, before.entries, n))
  }

  lemma PrefixesCompose<T>(a: seq<T>, b: seq<T>, c: seq<T>)
    requires a < b && b < c
    ensures a < c && forall i | |a| <= i < |b| :: c[i] == b[i]
  {
  }

  lemma FillingIsWhole(initial: Fs, history: seq<Fs>, mark: nat, target: string, node: nat, file: Node)
    requires initial.Valid() && initial.Intact(target) && !IsTemporaryName(target)
    requires node in initial.nodes && initial.Unpublished(node)
    requires forall i | mark <= i < |history| :: SameButForNode(initial, history[i], node)
    ensures forall i | mark <= i < |history| :: Whole(history[i], target, View(initial, target), file)
  {
    forall i | mark <= i < |history| ensures Whole(history[i], target, View(initial, target), file) {
      NodeChangeKeepsView(initial, history[i], target, node);
    }
  }

  lemma PublishingIsWhole(initial: Fs, history: seq<Fs>, mark: nat, temporary: string, target: string, file: Node)
    requires initial.Valid() && initial.Intact(target) && !IsTemporaryName(target)
    requires IsTemporaryName(temporary) && temporary in initial.entries && initial.Unpublished(initial.entries[temporary])
    requires var filled := Filled(initial, initial.entries[temporary], file);
             var renamed := Renamed(filled, temporary, target);
             forall i | mark <= i < |history| ::
               history[i] == filled || history[i] == renamed || history[i] == DirectorySynced(renamed)
    ensures forall i | mark <= i < |history| :: Whole(history[i], target, View(initial, target), file)
  {
    PublishingIsProgress(initial, temporary, target, file);
  }

  // The names after a write through a temporary file
  ghost predicate ReplacedNames(before: Entries, after: Entries, temporary: string, target: string, replaced: bool) {
    after.Keys == if replaced then before.Keys - {temporary} + {target} else before.Keys
  }

  lemma PublishingReplacesNames(fs: Fs, temporary: string, target: string, file: Node)
    requires temporary in fs.entries && temporary != target
    ensures var filled := Filled(fs, fs.entries[temporary], file);
            var renamed := Renamed(filled, temporary, target);
            && ReplacedNames(fs.entries, filled.entries, temporary, target, false)
            && ReplacedNames(fs.entries, renamed.entries, temporary, target, true)
            && ReplacedNames(fs.entries, DirectorySynced(renamed).entries, temporary, target, true)
  {
  }

  lemma FillingIsNoProgress(before: Fs, after: Fs, target: string, node: nat, file: Node)
    requires before.Valid() && before.Intact(target) && !IsTemporaryName(target)
    requires node in before.nodes && before.Unpublished(node) && SameButForNode(before, after, node)
    ensures Progress(before, after, target, file, NotReplaced)
    ensures before.AllIntact() ==> ProgressTogether(before, after, target, file, NotReplaced)
  {
    NodeChangeKeepsView(before, after, target, node);
    if before.AllIntact() {
      NodeChangeKeepsDirectory(before, after, node);
    }
  }

  lemma PublishingIsProgress(fs: Fs, temporary: string, target: string, file: Node)
    requires fs.Valid() && fs.Intact(target) && !IsTemporaryName(target)
    requires IsTemporaryName(temporary) && temporary in fs.entries && fs.Unpublished(fs.entries[temporary])
    ensures var filled := Filled(fs, fs.entries[temporary], file);
            var renamed := Renamed(filled, temporary, target);
            && Progress(fs, filled, target, file, NotReplaced)
            && Progress(fs, renamed, target, file, ReplacedNotSynced)
            && Progress(fs, DirectorySynced(renamed), target, file, Saved)
  {
    var filled := Filled(fs, fs.entries[temporary], file);
    NodeChangeKeepsView(fs, filled, target, fs.entries[temporary]);
    RenameReplacesView(filled, temporary, target);
    DirectorySyncSettlesView(Renamed(filled, temporary, target), target);
  }

  lemma CreationKeepsView(fs: Fs, after: Fs, temporary: string, target: string, euid: nat)
    requires fs.Valid() && fs.Intact(target) && IsTemporaryName(temporary) && !IsTemporaryName(target)
    requires temporary !in fs.entries
    requires exists node | node !in fs.nodes :: after == Created(fs, temporary, node, euid)
    ensures after.Valid() && after.Intact(target) && View(after, target) == View(fs, target)
    ensures after.Unpublished(after.entries[temporary])
    ensures after.nodes[after.entries[temporary]] == NewFile(euid, "")
  {
    NewEntryKeepsView(fs, after, target);
  }

  // Nothing but the content and the durability of one node differs.
  ghost predicate SameButForNode(before: Fs, after: Fs, node: nat) {
    && after == before.(nodes := after.nodes, torn := after.torn)
    && after.torn <= before.torn + {node}
    && after.nodes.Keys == before.nodes.Keys
    && (forall n | n in before.nodes && n != node :: after.nodes[n] == before.nodes[n])
  }

  // At every crash point of a write, a power loss leaves a file that reads exactly as one of the contents that
  // could have been there before, or as the whole new content; it is never refused for its permissions.
  lemma CrashedWriteReadsOldOrNew(
    before: Fs, crashed: Fs, after: Fs, name: string, content: string, euid: nat, maximumBytes: nat)
    requires before.Valid() && before.Intact(name) && ValidPrivateDirectory(before.parent, euid)
    requires Whole(crashed, name, View(before, name), NewFile(euid, content)) && PowerLoss(crashed, after)
    requires |content| <= maximumBytes
    ensures var read := ReadPrivateFile(before.parent, View(after, name).visible, euid, maximumBytes);
            || read == Success(content)
            || exists earlier | earlier in View(before, name).outcomes ::
                 read == ReadPrivateFile(before.parent, earlier, euid, maximumBytes)
  {
    PowerLossPicksAnOutcome(crashed, after, name);
    assert View(before, name).visible in View(before, name).outcomes by {
      assert before.entries in before.survivors;
    }
  }

  // A write that returned nil survives any power loss that follows it.
  lemma ReportedWriteSurvivesPowerLoss(
    before: Fs, written: Fs, after: Fs, name: string, content: string, euid: nat, maximumBytes: nat)
    requires ValidPrivateDirectory(before.parent, euid) && |content| <= maximumBytes
    requires Progress(before, written, name, NewFile(euid, content), Saved) && PowerLoss(written, after)
    ensures ReadPrivateFile(after.parent, View(after, name).visible, euid, maximumBytes) == Success(content)
  {
    PowerLossPicksAnOutcome(written, after, name);
  }

  function NewFile(euid: nat, content: string): Node {
    Node(Regular, PRIVATE_FILE_MODE, euid, content)
  }

  // The file is, in this state, one of the three results of saving `file` over what was there before.
  ghost predicate Whole(fs: Fs, name: string, before: Cell<Option<Node>>, file: Node) {
    && fs.Valid() && fs.Intact(name)
    && (|| View(fs, name) == AfterSave(before, Some(file), NotReplaced)
        || View(fs, name) == AfterSave(before, Some(file), ReplacedNotSynced)
        || View(fs, name) == AfterSave(before, Some(file), Saved))
  }
}
