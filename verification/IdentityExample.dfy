/** One concrete device and control plane on which the careless runs happen, so nothing above is about no device at all. */
module IdentityExample {
  import opened Wrappers
  import opened DurableCell
  import opened Base64Url
  import opened CredentialText
  import opened IdentityServer
  import opened IdentityProtocol
  import opened IdentityRuns
  import opened IdentityPowerLoss
  import opened IdentityDurability
  import opened BootstrapSecrets
  import opened SharedDirectory
  import opened DeviceAgent

  function Bytes(count: nat, value: Byte): (raw: seq<Byte>)
    ensures |raw| == count
  {
    seq(count, _ => value)
  }

  const HOST := Host("host-1", "12", "linux", "1.0.0", "fp-1")
  const RANDOM := Randomness(Bytes(24, 0), Bytes(24, 0), Bytes(32, 0))
  const TOKEN_ID := "et_" + "0123456789abcdef" + "0123456789abcdef"
  const ENDPOINT := "ep_" + "0123456789abcdef"

  // The same machine after its host name was changed.
  const RENAMED := Host("host-2", "12", "linux", "1.0.0", "fp-2")
  const RENAMED_RANDOM := Randomness(Bytes(24, 1), Bytes(24, 1), Bytes(32, 1))
  const RENAMED_ENDPOINT := "ep_" + "fedcba9876543210"

  function Secret(): string { Encode(Bytes(32, 7)) }

  function Token(): string { TokenText(TOKEN_ID, Secret()) }

  // A control plane with one enrollment token and nothing else.
  function ControlPlane(): Server {
    Server(map[TOKEN_ID := TokenRow(Secret(), true, 0, 2, None, Scope("cl_1", "loc_1"), true, true)],
           map[], map[], map[], map[], map[])
  }

  function Device(): Sys {
    Sys(AfterPowerLoss(None), AfterPowerLoss(ConfigFile(Some(Token()), None, map[])), ControlPlane(), {}, "amd64", {}, {}, false)
  }

  lemma TokenIsRead()
    ensures ParseEnrollmentToken(Token()) == Some((TOKEN_ID, Secret()))
  {
    assert IsCanonicalSecret(Secret());
    BackendSecretsAreCanonical(Secret());
    CanonicalSecretText(Secret());
    TokenIdIsValid();
    TokenParts(TOKEN_ID, Secret());
  }

  lemma TokenIdIsValid()
    ensures IsTokenId(TOKEN_ID)
  {
    var half := "0123456789abcdef";
    assert forall i | 0 <= i < 16 :: IsLowerHex(half[i]);
    forall i | 3 <= i < 35 ensures IsLowerHex(TOKEN_ID[i]) {
      assert TOKEN_ID[i] == half[if i < 19 then i - 3 else i - 19];
    }
    assert TOKEN_ID[..3] == "et_";
  }

  lemma EndpointsAreFresh()
    ensures IsFresh(ControlPlane(), ENDPOINT) && IsFresh(ControlPlane(), RENAMED_ENDPOINT) && ENDPOINT != RENAMED_ENDPOINT
  {
    var up, down := "0123456789abcdef", "fedcba9876543210";
    assert forall i | 0 <= i < 16 :: IsDigit(up[i]);
    assert forall i | 0 <= i < 16 :: IsDigit(down[i]);
    assert ENDPOINT[..3] == "ep_" && ENDPOINT[3..] == up;
    assert RENAMED_ENDPOINT[..3] == "ep_" && RENAMED_ENDPOINT[3..] == down;
    assert up[0] != down[0];
  }

  lemma ArchitectureIsValid()
    ensures IsProtocolValue("amd64") && IsProtocolValue(PROTOCOL)
  {
  }

  lemma DeviceIsInitial()
    ensures Initial(Device())
  {
    ArchitectureIsValid();
  }

  predicate StartsAndEndsPlainly(text: string) {
    text != "" && IsAlphanumeric(text[0]) && IsAlphanumeric(text[|text| - 1])
  }

  lemma AlphanumericIsNoSpace(c: char)
    requires IsAlphanumeric(c)
    ensures c !in Text.PYTHON_SPACE && c !in Text.GO_SPACE
  {
  }

  lemma PlainTextIsBounded(text: string, maximum: nat)
    requires StartsAndEndsPlainly(text) && |text| <= maximum
    ensures IsBoundedText(text, maximum) && NotBlank(text)
  {
    AlphanumericIsNoSpace(text[0]);
    AlphanumericIsNoSpace(text[|text| - 1]);
    Text.StripFixesTrimmed(text, Text.PYTHON_SPACE);
    Text.StripFixesTrimmed(text, Text.GO_SPACE);
  }

  lemma {:induction false} StripRightKeepsStart(text: string, space: set<char>)
    requires text != "" && text[0] !in space
    ensures Text.StripRight(text, space) != ""
    decreases |text|
  {
    if text[|text| - 1] in space {
      StripRightKeepsStart(text[..|text| - 1], space);
    }
  }

  lemma TokenIsNotBlank()
    ensures !Text.Blank(Token(), Text.GO_SPACE)
  {
    assert Token()[0] == 's';
    StripRightKeepsStart(Token(), Text.GO_SPACE);
  }

  predicate IsPlainHost(host: Host) {
    && StartsAndEndsPlainly(host.fingerprint) && |host.fingerprint| <= 64 && StartsAndEndsPlainly(host.hostname) && |host.hostname| <= 64
    && StartsAndEndsPlainly(host.platformVersion) && |host.platformVersion| <= 64
    && StartsAndEndsPlainly(host.agentVersion) && |host.agentVersion| <= 64
    && host.platform == "linux"
  }

  lemma BothHostsArePlain()
    ensures IsPlainHost(HOST) && IsPlainHost(RENAMED)
  {
  }

  function State(host: Host, random: Randomness): DeviceState {
    EnrollmentState(host, "amd64", random)
  }

  function Request(host: Host, random: Randomness): EnrollmentRequest {
    State(host, random).pendingEnrollment.value
  }

  lemma DrawIsValid(random: Randomness)
    requires random.Valid()
    ensures IsInstallationId(random.Installation()) && ValidMaterial(random.Credential())
    ensures BackendValidSecret(random.Credential().secret)
  {
    GeneratedInstallationIdIsValid(random.installation);
    GeneratedMaterialIsValid(random.credentialId, random.secret);
    GoSecretsAreCanonical(random.Credential().secret);
    BackendSecretsAreCanonical(random.Credential().secret);
  }

  lemma RequestIsAcceptable(host: Host, random: Randomness)
    requires IsPlainHost(host) && random.Valid()
    ensures Acceptable(Request(host, random))
    ensures NotBlank(host.fingerprint) && NotBlank(host.hostname) && NotBlank(host.agentVersion)
  {
    PlainTextIsBounded(host.fingerprint, 255);
    PlainTextIsBounded(host.hostname, 255);
    PlainTextIsBounded(host.platformVersion, 255);
    PlainTextIsBounded(host.agentVersion, 64);
    ArchitectureIsValid();
    DrawIsValid(random);
  }

  lemma StateIsValid(host: Host, random: Randomness)
    requires IsPlainHost(host) && random.Valid()
    ensures ValidDeviceState(State(host, random))
  {
    RequestIsAcceptable(host, random);
    DrawIsValid(random);
    ArchitectureIsValid();
  }

  lemma RequestIsRedeemable(host: Host, random: Randomness)
    requires host.platform == "linux"
    ensures Redeemable(ControlPlane(), TOKEN_ID, Request(host, random)) && ControlPlane().tokens[TOKEN_ID].secret == Secret()
  {
  }

  lemma RequestIsRedeemableWithToken(host: Host, random: Randomness, newEndpoint: string)
    requires IsPlainHost(host) && random.Valid() && IsFresh(ControlPlane(), newEndpoint)
    ensures RedeemableWith(ControlPlane(), Token(), Request(host, random), newEndpoint)
  {
    assert Acceptable(Request(host, random)) by { RequestIsAcceptable(host, random); }
    TokenIsRead();
    RequestIsRedeemable(host, random);
  }

  lemma DrawIsFresh(random: Randomness)
    requires random.Valid()
    ensures IsFreshDraw(Device(), random)
  {
    DrawIsValid(random);
  }

  lemma DeviceIsRecoverable()
    ensures Recoverable(Device(), Token(), HOST, RANDOM, ENDPOINT)
  {
    BothHostsArePlain();
    EndpointsAreFresh();
    StateIsValid(HOST, RANDOM);
    DrawIsFresh(RANDOM);
    RequestIsRedeemableWithToken(HOST, RANDOM, ENDPOINT);
  }

  lemma PrefixedEncodingsDiffer(prefix: string, one: seq<Byte>, two: seq<Byte>)
    requires one != two
    ensures GeneratedId(prefix, one) != GeneratedId(prefix, two)
  {
    GoDecodesEncoding(one);
    GoDecodesEncoding(two);
    assert GeneratedId(prefix, one)[|prefix|..] == Encode(one) && GeneratedId(prefix, two)[|prefix|..] == Encode(two);
  }

  lemma DrawsDiffer()
    ensures RENAMED_RANDOM.Credential().id != RANDOM.Credential().id
    ensures RENAMED_RANDOM.Installation() != RANDOM.Installation()
  {
    assert Bytes(24, 1)[0] != Bytes(24, 0)[0];
    PrefixedEncodingsDiffer("dc_", Bytes(24, 1), Bytes(24, 0));
    PrefixedEncodingsDiffer("si_", Bytes(24, 1), Bytes(24, 0));
  }

  // This device can be locked out by the code as it stands.
  lemma DeviceCanBeLockedOut()
    ensures exists run: seq<Action> :: Legal(Device(), run, Code) && LockedOut(Exec(Device(), run), Exec(Device(), run).state.visible)
  {
    DeviceIsInitial();
    DeviceIsRecoverable();
    DrawIsValid(RENAMED_RANDOM);
    DrawsDiffer();
    CodeCanLockItselfOut(Device(), Token(), HOST, RANDOM, ENDPOINT, RENAMED_RANDOM.Credential());
  }

  lemma FingerprintsDiffer()
    ensures Normalized(Request(HOST, RANDOM)).fingerprint != Normalized(Request(RENAMED, RENAMED_RANDOM)).fingerprint
  {
    FingerprintOf(HOST, RANDOM);
    FingerprintOf(RENAMED, RENAMED_RANDOM);
    BothHostsArePlain();
    LoweredDiffer();
  }

  lemma LoweredDiffer()
    ensures Text.Lower("fp-1") != Text.Lower("fp-2")
  {
    assert Text.Lower("fp-1")[3] == '1' && Text.Lower("fp-2")[3] == '2';
  }

  lemma FingerprintOf(host: Host, random: Randomness)
    requires IsPlainHost(host)
    ensures Normalized(Request(host, random)).fingerprint == Text.Lower(host.fingerprint)
  {
    AlphanumericIsNoSpace(host.fingerprint[0]);
    AlphanumericIsNoSpace(host.fingerprint[|host.fingerprint| - 1]);
    Text.StripFixesTrimmed(host.fingerprint, Text.PYTHON_SPACE);
  }

  lemma RenamedIsSecondChance()
    ensures IsSecondChance(Device(), Token(), State(HOST, RANDOM), ENDPOINT, State(RENAMED, RENAMED_RANDOM), Token(), RENAMED_ENDPOINT)
  {
    BothHostsArePlain();
    EndpointsAreFresh();
    DrawsDiffer();
    RenamedMayBeCreated();
    RequestIsRedeemableWithToken(RENAMED, RENAMED_RANDOM, RENAMED_ENDPOINT);
    RenamedIsIndependent();
  }

  lemma RenamedMayBeCreated()
    ensures MaySave(Device(), Create, State(RENAMED, RENAMED_RANDOM))
  {
    BothHostsArePlain();
    StateIsValid(RENAMED, RENAMED_RANDOM);
    DrawIsFresh(RENAMED_RANDOM);
    NewStateMayBeCreated(Device(), RENAMED, RENAMED_RANDOM);
  }

  lemma RenamedIsIndependent()
    ensures IsIndependent(ControlPlane(), Token(), Request(HOST, RANDOM), Token(), Request(RENAMED, RENAMED_RANDOM))
  {
    TokenIsRead();
    DrawsDiffer();
    FingerprintsDiffer();
  }

  // Renamed after its first save was lost, it can be enrolled twice.
  lemma DeviceCanEnrollTwice()
    ensures exists run: seq<Action> :: Legal(Device(), run, Code) && EnrolledTwice(Exec(Device(), run))
  {
    DeviceIsInitial();
    DeviceIsRecoverable();
    RenamedIsSecondChance();
    CodeCanEnrollTwice(Device(), Token(), HOST, RANDOM, ENDPOINT, State(RENAMED, RENAMED_RANDOM), Token(), RENAMED_ENDPOINT);
  }

  // And, with its state file in a directory of its own, it can lose its bootstrap secrets while its endpoint can still
  // be lost.
  lemma DeviceCanClearTooEarly()
    ensures exists run: seq<Action> :: Legal(Device(), run, Code) && !KeepsSecrets(Exec(Device(), run))
  {
    DeviceIsInitial();
    DeviceIsRecoverable();
    CodeCanClearTooEarly(Device(), Token(), HOST, RANDOM, ENDPOINT);
  }

  // The same device with both files in one directory
  function SharedDevice(): Machine {
    Machine(AfterPowerLoss(Files(None, Device().config.visible)), Device())
  }

  lemma SharedDeviceIsFresh()
    ensures Fresh(SharedDevice()) && forall files | files in SharedDevice().files.outcomes :: !SecretsGone(files.config)
  {
    DeviceIsInitial();
    SurvivingPart(SharedDevice().files.visible, StateIn);
    SurvivingPart(SharedDevice().files.visible, ConfigIn);
    TokenIsNotBlank();
  }

  lemma SharedDeviceCanBeLockedOut()
    ensures exists run: seq<Action> ::
              MayRun(SharedDevice(), run, Code)
              && LockedOut(Run(SharedDevice(), run).sys, Run(SharedDevice(), run).sys.state.visible)
  {
    SharedDeviceIsFresh();
    DeviceIsRecoverable();
    DrawIsValid(RENAMED_RANDOM);
    DrawsDiffer();
    CodeCanLockItselfOutInOneDirectory(SharedDevice(), Token(), HOST, RANDOM, ENDPOINT, RENAMED_RANDOM.Credential());
  }
}
