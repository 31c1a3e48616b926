/**
 Bootstrap manifests: what the packaging script writes for an enrollment, and the agent configuration it later derives
 from it. JSON itself is left out; texts that the script prints and parses again are modelled as texts.
 */
module BootstrapManifest {
  import opened Wrappers
  import opened CredentialText
  import opened ControlPlaneUrl
  import opened UtcText
  import R = ReleaseManifest
  import Text

  // ---- Timestamps ----

  // A datetime in UTC, to the microsecond.
  datatype Instant = Instant(moment: Moment, micro: int)
  {
    predicate Valid() { moment.Valid() && moment.year <= 9999 && 0 <= micro < 1000000 }
  }

  function Ticks(t: Instant): int
    requires t.Valid()
  {
    1000000 * Seconds(t.moment) + t.micro
  }

  function Six(n: int): string
    requires 0 <= n < 1000000
  {
    Two(n / 10000) + Two(n / 100 % 100) + Two(n % 100)
  }

  function ClockText(m: Moment): (text: string)
    requires m.Valid() && m.year <= 9999
    ensures |text| == 19
  {
    Four(m.year) + "-" + Two(m.month) + "-" + Two(m.day) + "T" + Two(m.hour) + ":" + Two(m.minute) + ":" + Two(m.second)
  }

  // isoformat, with the offset written as Z
  function Print(t: Instant): string
    requires t.Valid()
  {
    ClockText(t.moment) + (if t.micro == 0 then "" else "." + Six(t.micro)) + "Z"
  }

  function PlainNumber(text: string): nat {
    if IsDecimal(text) then DecimalValue(text) else 0
  }

  // The date and time at the start of a text, if it is one.
  function ClockOf(text: string): Option<Moment>
    requires |text| >= 19
  {
    var m := Moment(PlainNumber(text[0..4]), PlainNumber(text[5..7]), PlainNumber(text[8..10]), PlainNumber(text[11..13]),
                    PlainNumber(text[14..16]), PlainNumber(text[17..19]));
    if && IsDecimal(text[0..4]) && IsDecimal(text[5..7]) && IsDecimal(text[8..10]) && IsDecimal(text[11..13])
       && IsDecimal(text[14..16]) && IsDecimal(text[17..19])
       && text[4] == '-' && text[7] == '-' && text[10] == 'T' && text[13] == ':' && text[16] == ':' && m.Valid()
    then Some(m) else None
  }

  // parse_timestamp, for the texts this script prints
  function Parse(text: string): Option<Instant> {
    if |text| != 20 && |text| != 27 then None
    else if text[|text| - 1] != 'Z' || ClockOf(text).None? then None
    else if |text| == 20 then Some(Instant(ClockOf(text).value, 0))
    else if text[19] == '.' && IsDecimal(text[20..26]) then Some(Instant(ClockOf(text).value, DecimalValue(text[20..26])))
    else None
  }

  lemma ValueOfJoined(first: string, second: string)
    requires IsDecimal(first) && |second| == 2 && IsDecimal(second)
    ensures IsDecimal(first + second) && DecimalValue(first + second) == 100 * DecimalValue(first) + DecimalValue(second)
  {
    var text := first + second;
    assert text[..|text| - 1] == first + second[..1];
    assert (first + second[..1])[..|first|] == first;
    assert second[..1][..0] == "";
    assert DecimalValue(second[..1]) == (second[0] - '0') as int;
    assert DecimalValue(first + second[..1]) == 10 * DecimalValue(first) + (second[0] - '0') as int;
  }

  lemma ValueOfTwo(n: int)
    requires 0 <= n < 100
    ensures IsDecimal(Two(n)) && DecimalValue(Two(n)) == n
  {
    var text := Two(n);
    assert text[..1] == [Digit(n / 10)] && text[..1][..0] == "";
    assert DecimalValue(text[..1]) == n / 10;
  }

  lemma ValueOfFour(n: int)
    requires 0 <= n < 10000
    ensures IsDecimal(Four(n)) && DecimalValue(Four(n)) == n
  {
    ValueOfTwo(n / 100);
    ValueOfTwo(n % 100);
    ValueOfJoined(Two(n / 100), Two(n % 100));
  }

  lemma ValueOfSix(n: int)
    requires 0 <= n < 1000000
    ensures IsDecimal(Six(n)) && DecimalValue(Six(n)) == n
  {
    ValueOfTwo(n / 10000);
    ValueOfTwo(n / 100 % 100);
    ValueOfTwo(n % 100);
    ValueOfJoined(Two(n / 10000), Two(n / 100 % 100));
    ValueOfJoined(Two(n / 10000) + Two(n / 100 % 100), Two(n % 100));
    HundredsOfHundreds(n);
  }

  lemma HundredsOfHundreds(n: int)
    requires 0 <= n
    ensures n / 100 == 100 * (n / 10000) + n / 100 % 100
  {
    var hundreds := n / 100;
    assert hundreds == 100 * (hundreds / 100) + hundreds % 100 && n == 100 * hundreds + n % 100;
    assert 10000 * (hundreds / 100) <= n < 10000 * (hundreds / 100) + 10000;
  }

  lemma FieldsOfClock(m: Moment, rest: string)
    requires m.Valid() && m.year <= 9999
    ensures var text := ClockText(m) + rest;
            && text[0..4] == Four(m.year) && text[5..7] == Two(m.month) && text[8..10] == Two(m.day)
            && text[11..13] == Two(m.hour) && text[14..16] == Two(m.minute) && text[17..19] == Two(m.second)
            && text[4] == '-' && text[7] == '-' && text[10] == 'T' && text[13] == ':' && text[16] == ':'
  {
  }

  lemma ClockIsReadBack(m: Moment, rest: string)
    requires m.Valid() && m.year <= 9999
    ensures ClockOf(ClockText(m) + rest) == Some(m)
  {
    FieldsOfClock(m, rest);
    ValueOfFour(m.year);
    ValueOfTwo(m.month);
    ValueOfTwo(m.day);
    ValueOfTwo(m.hour);
    ValueOfTwo(m.minute);
    ValueOfTwo(m.second);
  }

  // Every timestamp the script prints is read back unchanged.
  lemma ParseOfPrint(t: Instant)
    requires t.Valid()
    ensures Parse(Print(t)) == Some(t)
  {
    var rest := (if t.micro == 0 then "" else "." + Six(t.micro)) + "Z";
    assert Print(t) == ClockText(t.moment) + rest;
    ClockIsReadBack(t.moment, rest);
    if t.micro != 0 {
      ValueOfSix(t.micro);
      MicrosAfterClock(ClockText(t.moment), Six(t.micro));
    }
  }

  lemma MicrosAfterClock(clock: string, micros: string)
    requires |clock| == 19 && |micros| == 6
    ensures var text := clock + ("." + micros + "Z"); |text| == 27 && text[19] == '.' && text[20..26] == micros && text[26] == 'Z'
  {
  }

  // So is every timestamp the backend stores.
  lemma ParseOfToUtcZ(m: Moment)
    requires m.Printable()
    ensures Parse(ToUtcZ(m)) == Some(Instant(m, 0))
  {
    assert ToUtcZ(m) == Print(Instant(m, 0));
    ParseOfPrint(Instant(m, 0));
  }

  // ---- Values ----

  predicate IsSafeChar(c: char) {
    IsAlphanumeric(c) || c == '.' || c == '_' || c == '@' || c == ':' || c == '/' || c == '+' || c == '-'
  }

  predicate IsSafe(text: string) {
    1 <= |text| <= 256 && IsAlphanumeric(text[0]) && forall k | 0 <= k < |text| :: IsSafeChar(text[k])
  }

  // safe_value
  function SafeValue(value: string): Option<string> {
    var text := Text.Strip(value, Text.PYTHON_SPACE);
    if IsSafe(text) then Some(text) else None
  }

  lemma SafeValueIsKept(value: string)
    requires SafeValue(value).Some?
    ensures SafeValue(SafeValue(value).value) == SafeValue(value)
  {
    Text.StripIsIdempotent(value, Text.PYTHON_SPACE);
  }

  // ---- Creating a bootstrap manifest ----

  const BOOTSTRAP_SCHEMA := "sha-agent-bootstrap-manifest-v1"
  const MAXIMUM_BYTES := 64 * 1024
  const LIFETIME_SECONDS := 24 * 60 * 60

  // A release manifest file: its content, its size and its digest.
  datatype ReleaseFile = ReleaseFile(manifest: R.Manifest, bytes: nat, digest: string)

  datatype Key = Key(identity: string, keyId: string, fingerprint: string)

  datatype Arguments = Arguments(
    created: Instant, expires: Instant, tokenFile: string, platform: string, architecture: string, approvalPolicy: string,
    client: string, location: string, maxUses: int, profile: string, url: string, key: Key, ca: Option<string>)

  datatype Bootstrap = Bootstrap(
    schema: string, signing: Option<R.Signing>, platform: string, architecture: string, createdAt: string, expiresAt: string,
    token: string, tokenId: string, approvalPolicy: string, maxUses: int, client: string, location: string,
    releaseVersion: string, releaseDigest: string, ca: Option<string>, profile: string, url: string)

  predicate HasGoodLifetime(created: Instant, expires: Instant)
    requires created.Valid() && expires.Valid()
  {
    Ticks(created) < Ticks(expires) <= Ticks(created) + 1000000 * LIFETIME_SECONDS
  }

  predicate IsApprovalPolicy(policy: string) {
    policy == "pending" || policy == "approved"
  }

  // read_token and canonical_token
  function ReadToken(file: string): Option<(string, string)> {
    if |file| > 4096 then None
    else
      match CanonicalToken(Text.Strip(file, Text.PYTHON_SPACE))
      case Success(token) => Some(token)
      case Failure(_) => None
  }

  predicate HasSafeFields(a: Arguments, release: ReleaseFile) {
    && SafeValue(a.architecture).Some? && SafeValue(a.client).Some? && SafeValue(a.location).Some?
    && SafeValue(a.platform).Some? && SafeValue(a.profile).Some? && SafeValue(release.manifest.version).Some?
    && SafeValue(a.key.identity).Some? && SafeValue(a.key.keyId).Some?
  }

  predicate MatchesRelease(a: Arguments, release: ReleaseFile) {
    && release.bytes <= R.MAXIMUM_BYTES && release.manifest.schema == R.RELEASE_SCHEMA
    && release.manifest.platform == a.platform && release.manifest.architecture == a.architecture
  }

  // create_bootstrap
  function CreateBootstrap(a: Arguments, release: ReleaseFile, ipv6: IsIpv6): Option<Bootstrap>
    requires a.created.Valid() && a.expires.Valid()
  {
    if !HasGoodLifetime(a.created, a.expires) then None
    else if ReadToken(a.tokenFile).None? || !MatchesRelease(a, release) then None
    else if !(1 <= a.maxUses <= 1000) || !IsApprovalPolicy(a.approvalPolicy) then None
    else if !HasSafeFields(a, release) || NormalizedUrl(a.url, false, ipv6).None? then None
    else
      var (tokenId, token) := ReadToken(a.tokenFile).value;
      Some(Bootstrap(
        BOOTSTRAP_SCHEMA,
        Some(R.Signing(R.SIGNATURE_ALGORITHM, SafeValue(a.key.identity).value, SafeValue(a.key.keyId).value, a.key.fingerprint)),
        SafeValue(a.platform).value, SafeValue(a.architecture).value, Print(a.created), Print(a.expires),
        token, tokenId, a.approvalPolicy, a.maxUses, SafeValue(a.client).value, SafeValue(a.location).value,
        SafeValue(release.manifest.version).value, release.digest, a.ca, SafeValue(a.profile).value,
        NormalizedUrl(a.url, false, ipv6).value))
  }

  // A value of the manifest is the argument without the white space around it.
  ghost predicate IsValueOf(argument: string, value: string) {
    Text.IsTrimOf(argument, value, Text.PYTHON_SPACE) && IsSafe(value)
  }

  lemma SafeValueIff(argument: string, value: string)
    ensures SafeValue(argument) == Some(value) <==> IsValueOf(argument, value)
  {
    Text.StripIff(argument, value, Text.PYTHON_SPACE);
  }

  lemma ReadTokenIff(file: string, id: string, token: string)
    ensures ReadToken(file) == Some((id, token)) <==>
            && |file| <= 4096 && Text.IsTrimOf(file, token, Text.PYTHON_SPACE)
            && exists secret :: IsTokenId(id) && IsCanonicalSecret(secret) && token == TokenText(id, secret)
  {
    Text.StripIff(file, token, Text.PYTHON_SPACE);
    CanonicalTokenIff(token, id);
    if ReadToken(file).Some? {
      CanonicalTokenIff(Text.Strip(file, Text.PYTHON_SPACE), ReadToken(file).value.0);
    }
  }

  // Which arguments may make a manifest at all, apart from the texts that go into it.
  predicate IsWorkable(a: Arguments, release: ReleaseFile)
    requires a.created.Valid() && a.expires.Valid()
  {
    && Ticks(a.created) < Ticks(a.expires) && Ticks(a.expires) - Ticks(a.created) <= 86400000000
    && 1 <= a.maxUses <= 1000 && (a.approvalPolicy == "pending" || a.approvalPolicy == "approved")
    && release.bytes <= 1048576 && release.manifest.schema == "sha-agent-release-manifest-v1"
    && release.manifest.platform == a.platform && release.manifest.architecture == a.architecture
  }

  lemma WorkableIff(a: Arguments, release: ReleaseFile)
    requires a.created.Valid() && a.expires.Valid()
    ensures IsWorkable(a, release) <==>
            && HasGoodLifetime(a.created, a.expires) && MatchesRelease(a, release)
            && 1 <= a.maxUses <= 1000 && IsApprovalPolicy(a.approvalPolicy)
  {
  }

  // The pinned key, as the verifier will compare it.
  ghost predicate CarriesKey(b: Bootstrap, key: Key) {
    && b.signing.Some? && b.signing.value.algorithm == "rsa-pkcs1v15-sha256"
    && IsValueOf(key.identity, b.signing.value.identity) && IsValueOf(key.keyId, b.signing.value.keyId)
    && b.signing.value.fingerprint == key.fingerprint
  }

  lemma CarriesKeyIff(b: Bootstrap, key: Key)
    ensures CarriesKey(b, key) <==>
            && SafeValue(key.identity).Some? && SafeValue(key.keyId).Some?
            && b.signing == Some(R.Signing(R.SIGNATURE_ALGORITHM, SafeValue(key.identity).value, SafeValue(key.keyId).value,
                                           key.fingerprint))
  {
    if b.signing.Some? {
      SafeValueIff(key.identity, b.signing.value.identity);
      SafeValueIff(key.keyId, b.signing.value.keyId);
    }
  }

  // The token in the file, without the white space around it, and the identifier in it.
  ghost predicate CarriesToken(b: Bootstrap, a: Arguments) {
    && |a.tokenFile| <= 4096 && Text.IsTrimOf(a.tokenFile, b.token, Text.PYTHON_SPACE)
    && exists secret :: IsTokenId(b.tokenId) && IsCanonicalSecret(secret) && b.token == TokenText(b.tokenId, secret)
  }

  ghost predicate CarriesValues(b: Bootstrap, a: Arguments, version: string) {
    && IsValueOf(a.client, b.client) && IsValueOf(a.location, b.location)
    && IsValueOf(a.platform, b.platform) && IsValueOf(a.architecture, b.architecture)
    && IsValueOf(a.profile, b.profile) && IsValueOf(version, b.releaseVersion)
  }

  lemma CarriesValuesIff(b: Bootstrap, a: Arguments, version: string)
    ensures CarriesValues(b, a, version) <==>
            && SafeValue(a.client) == Some(b.client) && SafeValue(a.location) == Some(b.location)
            && SafeValue(a.platform) == Some(b.platform) && SafeValue(a.architecture) == Some(b.architecture)
            && SafeValue(a.profile) == Some(b.profile) && SafeValue(version) == Some(b.releaseVersion)
  {
    SafeValueIff(a.client, b.client);
    SafeValueIff(a.location, b.location);
    SafeValueIff(a.platform, b.platform);
    SafeValueIff(a.architecture, b.architecture);
    SafeValueIff(a.profile, b.profile);
    SafeValueIff(version, b.releaseVersion);
  }

  predicate HasItsSchema(b: Bootstrap) {
    b.schema == "sha-agent-bootstrap-manifest-v1"
  }

  lemma ItsSchemaIff(b: Bootstrap)
    ensures HasItsSchema(b) <==> b.schema == BOOTSTRAP_SCHEMA
  {
  }

  // What the manifest says apart from its texts.
  predicate CarriesTerms(b: Bootstrap, a: Arguments, digest: string)
    requires a.created.Valid() && a.expires.Valid()
  {
    && b.createdAt == Print(a.created) && b.expiresAt == Print(a.expires)
    && b.approvalPolicy == a.approvalPolicy && b.maxUses == a.maxUses && b.ca == a.ca && b.releaseDigest == digest
  }

  // The manifest's fields, as the code computes them.
  predicate HasComputedFields(b: Bootstrap, a: Arguments, release: ReleaseFile, ipv6: IsIpv6)
    requires a.created.Valid() && a.expires.Valid()
  {
    && ReadToken(a.tokenFile).Some?
    && ReadToken(a.tokenFile).value.0 == b.tokenId && ReadToken(a.tokenFile).value.1 == b.token
    && NormalizedUrl(a.url, false, ipv6) == Some(b.url)
    && SafeValue(a.key.identity).Some? && SafeValue(a.key.keyId).Some?
    && b.signing == Some(R.Signing(R.SIGNATURE_ALGORITHM, SafeValue(a.key.identity).value, SafeValue(a.key.keyId).value,
                                   a.key.fingerprint))
    && SafeValue(a.client) == Some(b.client) && SafeValue(a.location) == Some(b.location)
    && SafeValue(a.platform) == Some(b.platform) && SafeValue(a.architecture) == Some(b.architecture)
    && SafeValue(a.profile) == Some(b.profile) && SafeValue(release.manifest.version) == Some(b.releaseVersion)
    && b.schema == BOOTSTRAP_SCHEMA && CarriesTerms(b, a, release.digest)
  }

  lemma CreatedHasFields(a: Arguments, release: ReleaseFile, ipv6: IsIpv6, b: Bootstrap)
    requires a.created.Valid() && a.expires.Valid() && CreateBootstrap(a, release, ipv6) == Some(b)
    ensures HasComputedFields(b, a, release, ipv6)
  {
  }

  lemma FieldsAreCreated(a: Arguments, release: ReleaseFile, ipv6: IsIpv6, b: Bootstrap)
    requires a.created.Valid() && a.expires.Valid()
    requires HasGoodLifetime(a.created, a.expires) && MatchesRelease(a, release)
             && 1 <= a.maxUses <= 1000 && IsApprovalPolicy(a.approvalPolicy)
    requires HasComputedFields(b, a, release, ipv6)
    ensures CreateBootstrap(a, release, ipv6) == Some(b)
  {
  }

  // A manifest is made exactly from workable arguments, and carries them and the release's version and digest.
  lemma CreatedManifestIff(a: Arguments, release: ReleaseFile, ipv6: IsIpv6, b: Bootstrap)
    requires a.created.Valid() && a.expires.Valid()
    ensures CreateBootstrap(a, release, ipv6) == Some(b) <==>
            && IsWorkable(a, release) && HasItsSchema(b) && CarriesKey(b, a.key) && CarriesToken(b, a)
            && CarriesValues(b, a, release.manifest.version) && CarriesTerms(b, a, release.digest)
            && NormalizedUrl(a.url, false, ipv6) == Some(b.url)
  {
    WorkableIff(a, release);
    ItsSchemaIff(b);
    if IsWorkable(a, release) {
      CarriesKeyIff(b, a.key);
      CarriesValuesIff(b, a, release.manifest.version);
      ReadTokenIff(a.tokenFile, b.tokenId, b.token);
      if HasComputedFields(b, a, release, ipv6) {
        FieldsAreCreated(a, release, ipv6, b);
      }
    }
    if CreateBootstrap(a, release, ipv6) == Some(b) {
      CreatedHasFields(a, release, ipv6, b);
    }
  }

  // ---- The configuration made from it ----

  datatype Config = Config(agentVersion: string, token: string, profile: string, url: string)

  // The verifier's side: the pinned key, the package it runs in, the clock, and what lies beside the manifest.
  datatype Installer = Installer(key: Key, platform: string, architecture: string, agentVersion: string, now: Instant,
                                 release: ReleaseFile, caBeside: Option<string>, caRequested: bool)

  predicate IsForInstaller(b: Bootstrap, at: Installer) {
    && b.schema == BOOTSTRAP_SCHEMA
    && R.SigningMatches(b.signing, at.key.identity, at.key.keyId, at.key.fingerprint)
    && b.platform == at.platform && b.architecture == at.architecture
  }

  predicate IsInTime(b: Bootstrap, now: Instant)
    requires now.Valid()
  {
    match (Parse(b.createdAt), Parse(b.expiresAt))
    case (Some(created), Some(expires)) =>
      created.Valid() && expires.Valid() && Ticks(now) < Ticks(expires) && HasGoodLifetime(created, expires)
    case _ => false
  }

  predicate HasGoodMetadata(b: Bootstrap) {
    && CanonicalToken(b.token).Success? && CanonicalToken(b.token).value.0 == b.tokenId
    && IsApprovalPolicy(b.approvalPolicy) && 1 <= b.maxUses <= 1000
    && b.client != "" && b.location != "" && b.releaseVersion != "" && b.releaseDigest != ""
  }

  predicate IsBoundToRelease(b: Bootstrap, release: ReleaseFile) {
    release.bytes <= R.MAXIMUM_BYTES && release.manifest.version == b.releaseVersion && release.digest == b.releaseDigest
  }

  predicate HasItsBundle(b: Bootstrap, at: Installer) {
    if b.ca.Some? then at.caBeside == b.ca else !at.caRequested
  }

  // bootstrap_config, for a manifest file of so many bytes
  function BootstrapConfig(b: Bootstrap, bytes: nat, at: Installer, ipv6: IsIpv6): Option<Config>
    requires at.now.Valid()
  {
    if !IsAdmissible(b, bytes, at) then None else ConfigFrom(b, at.agentVersion, ipv6)
  }

  predicate IsAdmissible(b: Bootstrap, bytes: nat, at: Installer)
    requires at.now.Valid()
  {
    && bytes <= MAXIMUM_BYTES && IsForInstaller(b, at) && IsInTime(b, at.now) && HasGoodMetadata(b)
    && IsBoundToRelease(b, at.release) && HasItsBundle(b, at)
  }

  function ConfigFrom(b: Bootstrap, agentVersion: string, ipv6: IsIpv6): Option<Config>
    requires HasGoodMetadata(b)
  {
    if SafeValue(agentVersion).None? || SafeValue(b.profile).None? || NormalizedUrl(b.url, false, ipv6).None? then None
    else
      Some(Config(SafeValue(agentVersion).value, CanonicalToken(b.token).value.1, SafeValue(b.profile).value,
                  NormalizedUrl(b.url, false, ipv6).value))
  }

  // ---- What the verifier accepts ----

  // The key, package and release that the installer has pinned, and the CA bundle that lies beside the manifest.
  predicate BelongsTo(b: Bootstrap, at: Installer) {
    && b.signing.Some? && b.signing.value.algorithm == "rsa-pkcs1v15-sha256"
    && b.signing.value.identity == at.key.identity && b.signing.value.keyId == at.key.keyId
    && b.signing.value.fingerprint == at.key.fingerprint
    && b.platform == at.platform && b.architecture == at.architecture
    && at.release.bytes <= 1048576 && b.releaseVersion == at.release.manifest.version && b.releaseDigest == at.release.digest
    && (b.ca.Some? ==> at.caBeside == b.ca) && (b.ca.None? ==> !at.caRequested)
  }

  lemma BelongsToIff(b: Bootstrap, at: Installer)
    ensures HasItsSchema(b) && BelongsTo(b, at) <==>
            IsForInstaller(b, at) && IsBoundToRelease(b, at.release) && HasItsBundle(b, at)
  {
    ItsSchemaIff(b);
  }

  ghost predicate HasSoundTerms(b: Bootstrap) {
    && (exists secret :: IsTokenId(b.tokenId) && IsCanonicalSecret(secret) && b.token == TokenText(b.tokenId, secret))
    && (b.approvalPolicy == "pending" || b.approvalPolicy == "approved") && 1 <= b.maxUses <= 1000
    && b.client != "" && b.location != "" && b.releaseVersion != "" && b.releaseDigest != ""
  }

  lemma SoundTermsIff(b: Bootstrap)
    ensures HasSoundTerms(b) <==> HasGoodMetadata(b)
    ensures HasGoodMetadata(b) ==> CanonicalToken(b.token).value.1 == b.token
  {
    CanonicalTokenIff(b.token, b.tokenId);
  }

  // Between its two times, which are at most a day apart.
  ghost predicate IsCurrent(b: Bootstrap, now: Instant)
    requires now.Valid()
  {
    exists created: Instant, expires: Instant ::
      && Parse(b.createdAt) == Some(created) && Parse(b.expiresAt) == Some(expires) && created.Valid() && expires.Valid()
      && Ticks(now) < Ticks(expires) && Ticks(created) < Ticks(expires) && Ticks(expires) - Ticks(created) <= 86400000000
  }

  lemma CurrentIff(b: Bootstrap, now: Instant)
    requires now.Valid()
    ensures IsCurrent(b, now) <==> IsInTime(b, now)
  {
  }

  // A configuration is made exactly from a small, current and sound manifest of the installer's own, and repeats it.
  lemma AcceptedManifestIff(b: Bootstrap, bytes: nat, at: Installer, ipv6: IsIpv6, config: Config)
    requires at.now.Valid()
    ensures BootstrapConfig(b, bytes, at, ipv6) == Some(config) <==>
            && bytes <= 65536 && HasItsSchema(b) && BelongsTo(b, at) && IsCurrent(b, at.now) && HasSoundTerms(b)
            && IsValueOf(at.agentVersion, config.agentVersion) && config.token == b.token
            && IsValueOf(b.profile, config.profile) && NormalizedUrl(b.url, false, ipv6) == Some(config.url)
  {
    BelongsToIff(b, at);
    CurrentIff(b, at.now);
    SoundTermsIff(b);
    SafeValueIff(at.agentVersion, config.agentVersion);
    SafeValueIff(b.profile, config.profile);
  }

  // ---- The round trip ----

  // The fields of a release manifest as create_release writes them.
  predicate HasNormalFields(release: ReleaseFile) {
    && SafeValue(release.manifest.platform) == Some(release.manifest.platform)
    && SafeValue(release.manifest.architecture) == Some(release.manifest.architecture)
    && SafeValue(release.manifest.version) == Some(release.manifest.version)
    && release.digest != ""
  }

  // The same key, platform, release and CA bundle as at creation.
  predicate IsSameSetup(a: Arguments, release: ReleaseFile, at: Installer) {
    && SafeValue(a.key.identity) == Some(at.key.identity) && SafeValue(a.key.keyId) == Some(at.key.keyId)
    && a.key.fingerprint == at.key.fingerprint
    && at.platform == a.platform && at.architecture == a.architecture && at.release == release
    && at.caBeside == a.ca && (at.caRequested ==> a.ca.Some?)
    && SafeValue(at.agentVersion).Some?
  }

  lemma CreatedManifestIsInTime(a: Arguments, release: ReleaseFile, ipv6: IsIpv6, now: Instant)
    requires a.created.Valid() && a.expires.Valid() && now.Valid() && CreateBootstrap(a, release, ipv6).Some?
    ensures IsInTime(CreateBootstrap(a, release, ipv6).value, now) <==> Ticks(now) < Ticks(a.expires)
  {
    ParseOfPrint(a.created);
    ParseOfPrint(a.expires);
  }

  lemma CreatedTokenIsAccepted(file: string)
    requires ReadToken(file).Some?
    ensures var (tokenId, token) := ReadToken(file).value; CanonicalToken(token) == Success((tokenId, token))
  {
  }

  lemma SafeTextIsNotEmpty(value: string)
    ensures SafeValue(value).Some? ==> SafeValue(value).value != ""
  {
  }

  lemma CreatedMetadataIsGood(a: Arguments, release: ReleaseFile, ipv6: IsIpv6)
    requires a.created.Valid() && a.expires.Valid() && CreateBootstrap(a, release, ipv6).Some? && HasNormalFields(release)
    ensures HasGoodMetadata(CreateBootstrap(a, release, ipv6).value)
  {
    CreatedTokenIsAccepted(a.tokenFile);
    SafeTextIsNotEmpty(a.client);
    SafeTextIsNotEmpty(a.location);
    SafeTextIsNotEmpty(release.manifest.version);
  }

  lemma CreatedManifestMatches(a: Arguments, release: ReleaseFile, ipv6: IsIpv6, at: Installer)
    requires a.created.Valid() && a.expires.Valid() && CreateBootstrap(a, release, ipv6).Some? && HasNormalFields(release)
    requires IsSameSetup(a, release, at)
    ensures var b := CreateBootstrap(a, release, ipv6).value;
            IsForInstaller(b, at) && IsBoundToRelease(b, at.release) && HasItsBundle(b, at)
  {
  }

  // A manifest whose own values survive the checks unchanged.
  lemma ConfigOfGoodManifest(b: Bootstrap, agentVersion: string, ipv6: IsIpv6)
    requires HasGoodMetadata(b) && SafeValue(agentVersion).Some? && SafeValue(b.profile) == Some(b.profile)
    requires CanonicalToken(b.token) == Success((b.tokenId, b.token))
    ensures ConfigFrom(b, agentVersion, ipv6) == Some(Config(SafeValue(agentVersion).value, b.token, b.profile, b.url)) <==>
            NormalizedUrl(b.url, false, ipv6) == Some(b.url)
  {
  }

  lemma CreatedValuesSurvive(a: Arguments, release: ReleaseFile, ipv6: IsIpv6)
    requires IsIpv6Check(ipv6) && a.created.Valid() && a.expires.Valid() && CreateBootstrap(a, release, ipv6).Some?
    ensures var b := CreateBootstrap(a, release, ipv6).value;
            && SafeValue(b.profile) == Some(b.profile)
            && CanonicalToken(b.token) == Success((b.tokenId, b.token))
            && (NormalizedUrl(b.url, false, ipv6) == Some(b.url) <==> !HostEndsInSpace(a.url))
  {
    SafeValueIsKept(a.profile);
    CreatedTokenIsAccepted(a.tokenFile);
    NormalizationIsIdempotentIff(a.url, false, ipv6);
  }

  // A created manifest is accepted under the same setup at every instant before it expires, and gives back its own
  // token, profile and URL, exactly if its file is not too large and the URL it was made from names a port or a host without
  // white space at its end.
  lemma CreatedManifestRoundTrips(a: Arguments, release: ReleaseFile, bytes: nat, at: Installer, ipv6: IsIpv6)
    requires IsIpv6Check(ipv6) && a.created.Valid() && a.expires.Valid() && at.now.Valid()
    requires CreateBootstrap(a, release, ipv6).Some? && HasNormalFields(release) && IsSameSetup(a, release, at)
    ensures var b := CreateBootstrap(a, release, ipv6).value;
            BootstrapConfig(b, bytes, at, ipv6) == Some(Config(SafeValue(at.agentVersion).value, b.token, b.profile, b.url)) <==>
            Ticks(at.now) < Ticks(a.expires) && bytes <= MAXIMUM_BYTES && !HostEndsInSpace(a.url)
  {
    var b := CreateBootstrap(a, release, ipv6).value;
    CreatedManifestIsInTime(a, release, ipv6, at.now);
    CreatedMetadataIsGood(a, release, ipv6);
    CreatedManifestMatches(a, release, ipv6, at);
    CreatedValuesSurvive(a, release, ipv6);
    ConfigOfGoodManifest(b, at.agentVersion, ipv6);
  }
}
