/**
 Release manifests: listing the files of a staged release, and checking a release against its manifest. A directory
 tree is a map from relative POSIX paths; digests are injective, so a file's digest stands for its content.
 */
module ReleaseManifest {
  import opened Wrappers
  import Text

  const RELEASE_SCHEMA := "sha-agent-release-manifest-v1"
  const PRODUCT := "sha-agent"
  const MAXIMUM_BYTES := 1024 * 1024

  datatype Node = File(sha256: string, size: nat) | Directory | Link | Special

  type Tree = map<string, Node>

  // What the packaging script itself may put beside the release.
  const OWN_FILES: set<string> := {"release-manifest.json", "release-manifest.json.sig", "bootstrap-manifest.json",
                                   "bootstrap-manifest.json.sig", "bootstrap-ca.pem"}

  // A row as the verifier finds it: any field may be missing or of another type.
  datatype Row = Row(path: Option<string>, sha256: Option<string>, size: Option<nat>)

  datatype Signing = Signing(algorithm: string, identity: string, keyId: string, fingerprint: string)

  const SIGNATURE_ALGORITHM := "rsa-pkcs1v15-sha256"

  datatype Manifest = Manifest(schema: string, product: string, platform: string, architecture: string, version: string,
                               signing: Option<Signing>, artifacts: seq<Row>)

  // ---- Relative paths ----

  // The parts PurePosixPath finds in a relative path.
  function Parts(path: string): seq<string> {
    Kept(Text.Split(path, '/'))
  }

  function Kept(pieces: seq<string>): seq<string> {
    if pieces == [] then []
    else if pieces[0] == "" || pieces[0] == "." then Kept(pieces[1..])
    else [pieces[0]] + Kept(pieces[1..])
  }

  function AsPosix(path: string): string {
    if Parts(path) == [] then "." else Text.Join(Parts(path), '/')
  }

  // The check both verifiers make on a path.
  predicate PassesPathCheck(path: string) {
    && !(path != "" && path[0] == '/')
    && path == AsPosix(path)
    && ".." !in Parts(path) && "." !in Parts(path)
  }

  // A path that stays below the root: no empty, current or parent component.
  predicate IsProper(path: string) {
    forall piece | piece in Text.Split(path, '/') :: piece != "" && piece != "." && piece != ".."
  }

  lemma {:induction false} KeptIsAll(pieces: seq<string>)
    ensures (forall p | p in pieces :: p != "" && p != ".") ==> Kept(pieces) == pieces
    ensures forall p | p in Kept(pieces) :: p in pieces && p != "" && p != "."
    ensures |Kept(pieces)| <= |pieces|
  {
    if pieces != [] {
      KeptIsAll(pieces[1..]);
      assert pieces == [pieces[0]] + pieces[1..];
      assert forall p | p in pieces[1..] :: p in pieces;
      assert pieces[0] in pieces;
    }
  }

  lemma AbsolutePathIsImproper(path: string)
    requires path != "" && path[0] == '/'
    ensures !IsProper(path)
  {
    var pieces := Text.Split(path, '/');
    assert pieces[0] == "";
    assert pieces[0] in pieces;
  }

  // Apart from ".", which names the root itself and is refused as a directory later, the check accepts exactly the
  // proper paths.
  lemma PathCheckIsProper(path: string)
    requires path != "."
    ensures PassesPathCheck(path) <==> IsProper(path)
  {
    var pieces := Text.Split(path, '/');
    KeptIsAll(pieces);
    Text.JoinOfSplit(path, '/');
    if path != "" && path[0] == '/' {
      AbsolutePathIsImproper(path);
    }
    if IsProper(path) {
      assert Kept(pieces) == pieces == Parts(path);
      assert AsPosix(path) == path;
      assert PassesPathCheck(path);
    }
    if PassesPathCheck(path) {
      assert forall p | p in Kept(pieces) :: '/' !in p;
      Text.SplitOfJoin(Kept(pieces), '/');
      assert pieces == Kept(pieces);
      forall piece | piece in pieces ensures piece != "" && piece != "." && piece != ".." {
        assert piece in Parts(path);
      }
    }
  }

  // ---- Creating ----

  function RowOf(tree: Tree, path: string): Row
    requires path in tree && tree[path].File?
  {
    Row(Some(path), Some(tree[path].sha256), Some(tree[path].size))
  }

  predicate HasOnlyFilesAndDirectories(tree: Tree) {
    forall p | p in tree :: tree[p].File? || tree[p].Directory?
  }

  // The rows list each file outside `excluded` exactly once.
  ghost predicate ListsFiles(rows: seq<Row>, tree: Tree, excluded: set<string>) {
    && (forall i | 0 <= i < |rows| ::
          && rows[i].path.Some? && var path := rows[i].path.value;
             path in tree && tree[path].File? && path !in excluded && rows[i] == RowOf(tree, path))
    && (forall i, j | 0 <= i < |rows| && 0 <= j < |rows| && rows[i].path == rows[j].path :: i == j)
    && (forall path | path in tree && tree[path].File? && path !in excluded :: RowOf(tree, path) in rows)
  }

  // artifact_rows; None stands for a staging directory with a link or a special file. The order of the rows is left open.
  method ArtifactRows(tree: Tree, excluded: set<string>) returns (r: Option<seq<Row>>)
    ensures r.Some? <==> HasOnlyFilesAndDirectories(tree)
    ensures r.Some? ==> ListsFiles(r.value, tree, excluded)
  {
    var rows: seq<Row> := [];
    var rest := tree.Keys;
    while rest != {}
      invariant rest <= tree.Keys
      invariant forall p | p in tree && p !in rest :: tree[p].File? || tree[p].Directory?
      invariant forall i | 0 <= i < |rows| ::
                  && rows[i].path.Some? && var path := rows[i].path.value;
                     path in tree && path !in rest && tree[path].File? && path !in excluded && rows[i] == RowOf(tree, path)
      invariant forall i, j | 0 <= i < |rows| && 0 <= j < |rows| && rows[i].path == rows[j].path :: i == j
      invariant forall path | path in tree && path !in rest && tree[path].File? && path !in excluded :: RowOf(tree, path) in rows
    {
      var path :| path in rest;
      rest := rest - {path};
      if tree[path].Link? {
        return None;
      }
      if tree[path].Directory? {
        continue;
      }
      if !tree[path].File? {
        return None;
      }
      if path in excluded {
        continue;
      }
      rows := rows + [RowOf(tree, path)];
    }
    return Some(rows);
  }

  // ---- Verifying ----

  // strict_file: a regular file that no link leads to
  predicate IsStrictFile(tree: Tree, parts: seq<string>) {
    && Text.Join(parts, '/') in tree && tree[Text.Join(parts, '/')].File?
    && (forall i | 0 < i < |parts| :: Text.Join(parts[..i], '/') in tree ==> !tree[Text.Join(parts[..i], '/')].Link?)
  }

  // The row names a file of the release and describes its content.
  predicate RowMatches(row: Row, tree: Tree) {
    && row.path.Some? && PassesPathCheck(row.path.value)
    && var parts := Parts(row.path.value);
       && parts != [] && IsStrictFile(tree, parts)
       && var file := tree[Text.Join(parts, '/')];
          row.size == Some(file.size) && row.sha256 == Some(file.sha256)
  }

  predicate SigningMatches(signing: Option<Signing>, identity: string, keyId: string, fingerprint: string) {
    signing == Some(Signing(SIGNATURE_ALGORITHM, identity, keyId, fingerprint))
  }

  function Listed(rows: seq<Row>): set<string> {
    set row | row in rows && row.path.Some? :: row.path.value
  }

  // The loop over the rows: None when a row is unsafe, repeated, missing or does not match.
  method CheckRows(rows: seq<Row>, tree: Tree) returns (r: Option<set<string>>)
    ensures r.Some? <==>
            && (forall i | 0 <= i < |rows| :: RowMatches(rows[i], tree))
            && (forall i, j | 0 <= i < |rows| && 0 <= j < |rows| && rows[i].path == rows[j].path :: i == j)
    ensures r.Some? ==> r.value == Listed(rows)
  {
    var expected: set<string> := {};
    for i := 0 to |rows|
      invariant expected == Listed(rows[..i])
      invariant forall k | 0 <= k < i :: RowMatches(rows[k], tree)
      invariant forall j, k | 0 <= j < i && 0 <= k < i && rows[j].path == rows[k].path :: j == k
    {
      var row := rows[i];
      assert rows[..i + 1] == rows[..i] + [row];
      if row.path.None? || !PassesPathCheck(row.path.value) {
        return None;
      }
      if row.path.value in expected {
        assert exists k :: 0 <= k < i && rows[k].path == row.path;
        return None;
      }
      expected := expected + {row.path.value};
      var parts := Parts(row.path.value);
      if parts == [] || !IsStrictFile(tree, parts) {
        return None;
      }
      var file := tree[Text.Join(parts, '/')];
      if row.size != Some(file.size) || row.sha256 != Some(file.sha256) {
        return None;
      }
    }
    assert rows[..|rows|] == rows;
    return Some(expected);
  }

  // The walk over the release: its files, or None when it holds a link or a special file
  method ActualFiles(tree: Tree) returns (r: Option<set<string>>)
    ensures r.Some? <==> HasOnlyFilesAndDirectories(tree)
    ensures r.Some? ==> r.value == set p | p in tree && tree[p].File?
  {
    var actual: set<string> := {};
    var rest := tree.Keys;
    while rest != {}
      invariant rest <= tree.Keys
      invariant forall p | p in tree && p !in rest :: tree[p].File? || tree[p].Directory?
      invariant actual == set p | p in tree && p !in rest && tree[p].File?
    {
      var path :| path in rest;
      rest := rest - {path};
      if tree[path].Link? {
        return None;
      }
      if tree[path].Directory? {
        continue;
      }
      if !tree[path].File? {
        return None;
      }
      actual := actual + {path};
    }
    return Some(actual);
  }

  // The manifests, signatures and CA bundle that may lie beside the files of a release.
  predicate IsOwnFile(path: string) {
    || path == "release-manifest.json" || path == "release-manifest.json.sig"
    || path == "bootstrap-manifest.json" || path == "bootstrap-manifest.json.sig" || path == "bootstrap-ca.pem"
  }

  lemma OwnFilesAreThese()
    ensures forall path :: path in OWN_FILES <==> IsOwnFile(path)
  {
  }

  predicate IsForThisProduct(manifest: Manifest, bytes: nat) {
    bytes <= 1048576 && manifest.schema == "sha-agent-release-manifest-v1" && manifest.product == "sha-agent"
  }

  lemma ProductIff(manifest: Manifest, bytes: nat)
    ensures IsForThisProduct(manifest, bytes) <==>
            bytes <= MAXIMUM_BYTES && manifest.schema == RELEASE_SCHEMA && manifest.product == PRODUCT
  {
  }

  predicate IsSignedUnder(manifest: Manifest, identity: string, keyId: string, fingerprint: string) {
    && manifest.signing.Some?
    && var signing := manifest.signing.value;
       && signing.algorithm == "rsa-pkcs1v15-sha256"
       && signing.identity == identity && signing.keyId == keyId && signing.fingerprint == fingerprint
  }

  lemma SignedUnderIff(manifest: Manifest, identity: string, keyId: string, fingerprint: string)
    ensures IsSignedUnder(manifest, identity, keyId, fingerprint) <==>
            SigningMatches(manifest.signing, identity, keyId, fingerprint)
  {
  }

  // What an accepted release is: the manifest is for this product and signed under the pinned key, the rows describe
  // distinct files as they are, there are no links, and every other file is one of the script's own.
  ghost predicate IsGenuine(manifest: Manifest, bytes: nat, tree: Tree, identity: string, keyId: string, fingerprint: string) {
    && IsForThisProduct(manifest, bytes) && IsSignedUnder(manifest, identity, keyId, fingerprint)
    && manifest.artifacts != []
    && (forall i | 0 <= i < |manifest.artifacts| :: RowMatches(manifest.artifacts[i], tree))
    && (forall i, j | 0 <= i < |manifest.artifacts| && 0 <= j < |manifest.artifacts|
                      && manifest.artifacts[i].path == manifest.artifacts[j].path :: i == j)
    && HasOnlyFilesAndDirectories(tree)
    && (forall p | p in tree && tree[p].File? :: p in Listed(manifest.artifacts) || IsOwnFile(p))
  }

  // verify_release
  method VerifyRelease(manifest: Manifest, bytes: nat, tree: Tree, identity: string, keyId: string, fingerprint: string)
    returns (accepted: bool)
    ensures accepted <==> IsGenuine(manifest, bytes, tree, identity, keyId, fingerprint)
  {
    ProductIff(manifest, bytes);
    SignedUnderIff(manifest, identity, keyId, fingerprint);
    OwnFilesAreThese();
    if bytes > MAXIMUM_BYTES {
      return false;
    }
    if manifest.schema != RELEASE_SCHEMA || manifest.product != PRODUCT {
      return false;
    }
    if !SigningMatches(manifest.signing, identity, keyId, fingerprint) {
      return false;
    }
    if manifest.artifacts == [] {
      return false;
    }
    var expected := CheckRows(manifest.artifacts, tree);
    if expected.None? {
      return false;
    }
    var actual := ActualFiles(tree);
    if actual.None? {
      return false;
    }
    var unexpected := actual.value - (expected.value + OWN_FILES);
    return unexpected == {};
  }

  // ---- What acceptance means, and when it is certain ----

  // Every file of an accepted release is one of the script's own, or is described by a row under its own name; every
  // row describes such a file.
  lemma AcceptedFilesAreDescribed(manifest: Manifest, bytes: nat, tree: Tree, identity: string, keyId: string, fingerprint: string)
    requires IsGenuine(manifest, bytes, tree, identity, keyId, fingerprint)
    ensures forall p | p in tree && tree[p].File? && !IsOwnFile(p) :: RowOf(tree, p) in manifest.artifacts
    ensures forall row | row in manifest.artifacts ::
              row.path.Some? && row.path.value in tree && tree[row.path.value].File? && row == RowOf(tree, row.path.value)
    ensures forall p | p in tree :: !tree[p].Link?
  {
    forall row | row in manifest.artifacts
      ensures row.path.Some? && row.path.value in tree && tree[row.path.value].File? && row == RowOf(tree, row.path.value)
    {
      assert RowMatches(row, tree);
      assert row.path.value == Text.Join(Parts(row.path.value), '/');
    }
    forall p | p in tree && tree[p].File? && !IsOwnFile(p) ensures RowOf(tree, p) in manifest.artifacts {
      var row :| row in manifest.artifacts && row.path == Some(p);
    }
  }

  // The names a file system can hold.
  predicate HasProperNames(tree: Tree) {
    forall p | p in tree :: p != "." && IsProper(p)
  }

  // The release as it is verified: the stage, with the script's own files added, replaced or removed.
  predicate SameRelease(stage: Tree, release: Tree) {
    && (forall p | p in stage && p !in OWN_FILES :: p in release && release[p] == stage[p])
    && (forall p | p in release && p !in OWN_FILES :: p in stage)
    && (forall p | p in release && p in OWN_FILES :: release[p].File?)
  }

  lemma ListedFileMatches(row: Row, stage: Tree, release: Tree)
    requires SameRelease(stage, release) && HasOnlyFilesAndDirectories(stage) && HasProperNames(stage)
    requires row.path.Some? && row.path.value in stage && stage[row.path.value].File? && row.path.value !in OWN_FILES
    requires row == RowOf(stage, row.path.value)
    ensures RowMatches(row, release)
  {
    var path := row.path.value;
    PathCheckIsProper(path);
    KeptIsAll(Text.Split(path, '/'));
    Text.JoinOfSplit(path, '/');
    assert Parts(path) == Text.Split(path, '/');
    assert forall p | p in release :: !release[p].Link?;
  }

  // A manifest made from a stage is accepted for the same release, under its own key, exactly if it lists anything and
  // its file is not larger than the verifier is willing to read.
  lemma CreatedManifestIsAccepted(
    stage: Tree, rows: seq<Row>, manifest: Manifest, bytes: nat, release: Tree, identity: string, keyId: string, fingerprint: string)
    requires HasOnlyFilesAndDirectories(stage) && HasProperNames(stage) && ListsFiles(rows, stage, OWN_FILES)
    requires SameRelease(stage, release)
    requires manifest.schema == RELEASE_SCHEMA && manifest.product == PRODUCT && manifest.artifacts == rows
    requires manifest.signing == Some(Signing(SIGNATURE_ALGORITHM, identity, keyId, fingerprint))
    ensures IsGenuine(manifest, bytes, release, identity, keyId, fingerprint) <==>
            bytes <= MAXIMUM_BYTES && exists p :: p in stage && stage[p].File? && p !in OWN_FILES
  {
    ProductIff(manifest, bytes);
    SignedUnderIff(manifest, identity, keyId, fingerprint);
    OwnFilesAreThese();
    forall i | 0 <= i < |rows| ensures RowMatches(rows[i], release) {
      ListedFileMatches(rows[i], stage, release);
    }
    if p :| p in stage && stage[p].File? && p !in OWN_FILES {
      assert RowOf(stage, p) in rows;
    }
    if rows != [] {
      assert rows[0].path.value in stage;
    }
    forall p | p in release && release[p].File? && p !in OWN_FILES ensures p in Listed(rows) {
      assert RowOf(stage, p) in rows;
    }
  }
}
