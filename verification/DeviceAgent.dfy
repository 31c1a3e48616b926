/** The agent's identity code: enrollment, recovery and rotation, as methods over the world they run in. */
module DeviceAgent {
  import opened Wrappers
  import opened DurableCell
  import opened CredentialText
  import opened Base64Url
  import opened IdentityServer
  import opened EnrollmentRules
  import opened IdentityProtocol
  import opened IdentitySafety
  import opened IdentityWorld
  import opened IdentityLosses
  import Text

  datatype Session = Session(state: DeviceState, identity: Identity)

  datatype AgentError =
    | StateUnreadable | TokenRequired | CandidateInvalid | SaveFailed | Unreachable | Mismatch | NotEnrolled
    | EnrollmentRefused | RotationRejected | ConfigNotCleared | RandomUnavailable

  // The facts about the host that go into an enrollment request, and the random bytes drawn for it.
  datatype Host = Host(hostname: string, platformVersion: string, platform: string, agentVersion: string, fingerprint: string)

  datatype Randomness = Randomness(installation: seq<Byte>, credentialId: seq<Byte>, secret: seq<Byte>)
  {
    predicate Valid() { |installation| == 24 && |credentialId| == 24 && |secret| == 32 }

    function Installation(): string { GeneratedId("si_", installation) }

    function Credential(): Material { GeneratedMaterial(credentialId, secret) }
  }

  // ---- Checks on what the control plane says ----

  // validateIdentityResponse
  predicate Matches(identity: Identity, s: DeviceState, material: Material, architecture: string) {
    && identity.endpoint != ""
    && identity.installation == Some(s.installation)
    && identity.device
    && identity.protocol == PROTOCOL
    && identity.architecture == architecture
    && identity.credentialId == material.id
    && identity.credentialEndpoint == identity.endpoint
    && identity.credentialActive
    && (s.endpoint != "" ==> identity.endpoint == s.endpoint)
  }

  // validateRotationResponse
  predicate MatchesRotation(reply: CredentialReply, endpoint: string, candidate: Material) {
    reply.credentialId == candidate.id && reply.endpoint == endpoint && reply.active
  }

  // An accepted identity is the device's own in every field but its approval, and keeps the endpoint it had.
  lemma MatchingIdentityIff(identity: Identity, s: DeviceState, material: Material, architecture: string)
    ensures Matches(identity, s, material, architecture) <==>
            && identity.endpoint != "" && (s.endpoint == "" || s.endpoint == identity.endpoint)
            && identity == Identity(identity.endpoint, Some(s.installation), true, "sha-agent-v1", architecture, identity.status,
                                    material.id, identity.endpoint, true)
  {
  }

  lemma MatchingRotationIff(reply: CredentialReply, endpoint: string, candidate: Material)
    ensures MatchesRotation(reply, endpoint, candidate) <==> reply == CredentialReply(candidate.id, endpoint, true)
  {
  }

  // newPendingEnrollmentState, apart from its checks
  function EnrollmentState(host: Host, architecture: string, random: Randomness): DeviceState {
    var installation, credential := random.Installation(), random.Credential();
    DeviceState(STATE_VERSION, installation, "", credential,
                Some(EnrollmentRequest(installation, credential, host.fingerprint, host.hostname, host.platform,
                                       host.platformVersion, host.agentVersion, PROTOCOL, architecture)),
                None)
  }

  predicate IsBlankSecret(secret: Option<string>) {
    secret.Some? ==> Text.Blank(secret.value, Text.GO_SPACE)
  }

  predicate SecretsGone(config: ConfigFile) {
    IsBlankSecret(config.enrollmentToken) && IsBlankSecret(config.apiToken)
  }

  // A missing field is read as the empty string.
  function SecretText(field: Option<string>): string {
    if field.Some? then field.value else ""
  }

  // The token as loadConfig and every use of it trim it.
  function LoadedToken(config: ConfigFile): string {
    Text.Strip(SecretText(config.enrollmentToken), Text.GO_SPACE)
  }

  predicate IsBlankText(text: string) { Text.Blank(text, Text.GO_SPACE) }

  lemma LoadedSecretsAreRemembered(config: ConfigFile)
    ensures Text.Strip(LoadedToken(config), Text.GO_SPACE) == LoadedToken(config)
    ensures IsBlankText(LoadedToken(config)) && IsBlankText(SecretText(config.apiToken)) ==> SecretsGone(config)
  {
    Text.StripIsIdempotent(SecretText(config.enrollmentToken), Text.GO_SPACE);
  }

  // ---- What an answer means ----

  lemma ConfirmedCredentialIsActive(sys: Sys, mode: Mode, s: DeviceState, m: Material)
    requires Inv(sys, mode) && Me(sys.server, m).Ok? && Matches(Me(sys.server, m).body, s, m, sys.architecture)
    ensures var endpoint := Me(sys.server, m).body.endpoint;
            && IsActive(sys.server, endpoint, m) && IsEndpointId(endpoint)
            && s.installation in sys.server.installations && sys.server.installations[s.installation] == endpoint
  {
  }

  lemma ActiveCredentialIsConfirmed(sys: Sys, mode: Mode, s: DeviceState, m: Material)
    requires Inv(sys, mode) && s.installation in sys.mine && s.installation in sys.server.installations
    requires var endpoint := sys.server.installations[s.installation];
             IsActive(sys.server, endpoint, m) && (s.endpoint == "" || s.endpoint == endpoint)
    ensures Me(sys.server, m).Ok? && Matches(Me(sys.server, m).body, s, m, sys.architecture)
  {
    assert IsEndpointId(sys.server.installations[s.installation]);
  }

  // Whether a bootstrap request under this token would be redeemed, creating `newEndpoint` if it must.
  ghost predicate RedeemableWith(server: Server, token: string, request: EnrollmentRequest, newEndpoint: string) {
    && ParseEnrollmentToken(token).Some?
    && Acceptable(request) && request.protocol == PROTOCOL
    && var (tokenId, secret) := ParseEnrollmentToken(token).value;
       && Redeemable(server, tokenId, request) && server.tokens[tokenId].secret == secret
       && IsFresh(server, newEndpoint)
  }

  // What the control plane then knows of a new device: what its host reports, under the identifiers it has drawn.
  lemma NewDeviceIsEnrolled(server: Server, token: string, host: Host, architecture: string, random: Randomness, newEndpoint: string)
    returns (tokenId: string, endpoint: string)
    requires Consistent(server)
    requires RedeemableWith(server, token, EnrollmentState(host, architecture, random).pendingEnrollment.value, newEndpoint)
    ensures var installation, id := "si_" + Encode(random.installation), "dc_" + Encode(random.credentialId);
            var after := Exchange(server, token, EnrollmentState(host, architecture, random).pendingEnrollment.value, newEndpoint).0;
            && endpoint in after.endpoints && after.endpoints[endpoint].installation == Some(installation)
            && IsLowerTrimOf(host.fingerprint, after.endpoints[endpoint].fingerprint)
            && after.endpoints[endpoint].platform == host.platform && after.endpoints[endpoint].architecture == architecture
            && id in after.credentials && after.credentials[id] == CredentialRow(endpoint, Encode(random.secret), Active)
            && (tokenId, installation) in after.redemptions
            && var kept := after.redemptions[(tokenId, installation)].request;
               && Text.IsTrimOf(host.hostname, kept.hostname, Text.PYTHON_SPACE)
               && Text.IsTrimOf(host.platformVersion, kept.platformVersion, Text.PYTHON_SPACE)
               && Text.IsTrimOf(host.agentVersion, kept.agentVersion, Text.PYTHON_SPACE)
  {
    var request := EnrollmentState(host, architecture, random).pendingEnrollment.value;
    var (parsed, secret) := ParseEnrollmentToken(token).value;
    RedeemableIsRedeemed(server, parsed, secret, request, newEndpoint);
    EnrollingChangesServer(server, parsed, request, newEndpoint);
    tokenId, endpoint := ExchangeWrites(server, token, request, newEndpoint);
  }

  // ---- Confirmed facts and the saves they allow ----

  // The control plane has an endpoint for the pending enrollment the device holds.
  ghost predicate EnrollmentConfirmed(sys: Sys, s: DeviceState, endpoint: string) {
    && sys.state.visible == Some(s) && s.endpoint == "" && s.pendingRotation.None?
    && s.installation in sys.mine
    && s.installation in sys.server.installations && sys.server.installations[s.installation] == endpoint
    && Pinned(sys, endpoint, s.credential)
  }

  lemma AnswerConfirmsEnrollment(sys: Sys, mode: Mode, s: DeviceState, identity: Identity)
    requires Inv(sys, mode) && sys.state.visible == Some(s) && s.endpoint == "" && s.pendingRotation.None?
    requires Me(sys.server, s.credential) == Ok(identity) && Matches(identity, s, s.credential, sys.architecture)
    ensures EnrollmentConfirmed(sys, s, identity.endpoint) && IsEndpointId(identity.endpoint) && ValidDeviceState(s)
  {
    ConfirmedCredentialIsActive(sys, mode, s, s.credential);
    assert StateSound(sys.server, sys.mine, sys.minted, sys.architecture, s);
  }

  lemma EnrollmentStaysConfirmed(before: Sys, after: Sys, reliable: bool, s: DeviceState, endpoint: string)
    requires EnrollmentConfirmed(before, s, endpoint) && Surroundings(before, after, reliable)
    ensures EnrollmentConfirmed(after, s, endpoint)
  {
  }

  function Promoted(s: DeviceState, endpoint: string): DeviceState {
    s.(endpoint := endpoint, pendingEnrollment := None)
  }

  lemma ConfirmedEnrollmentMayBePromoted(sys: Sys, s: DeviceState, endpoint: string)
    requires EnrollmentConfirmed(sys, s, endpoint) && IsEndpointId(endpoint) && ValidDeviceState(s)
    ensures MaySave(sys, SaveKind.PromoteEnrollment, Promoted(s, endpoint)) && ValidDeviceState(Promoted(s, endpoint))
    ensures IsActive(sys.server, endpoint, s.credential)
  {
  }

  // ---- Finishing an enrollment ----

  // The enrollment has been redeemed, or would be under this token.
  ghost predicate Enrollable(server: Server, s: DeviceState, token: string, newEndpoint: string) {
    || s.installation in server.installations
    || (s.pendingEnrollment.Some? && RedeemableWith(server, token, s.pendingEnrollment.value, newEndpoint))
  }

  lemma PendingStateIsWellFormed(sys: Sys, mode: Mode, s: DeviceState)
    requires Inv(sys, mode) && sys.state.visible == Some(s) && s.endpoint == ""
    ensures ValidDeviceState(s) && CanSendBootstrap(sys) && s.pendingRotation.None? && s.installation in sys.mine
    ensures var request := s.pendingEnrollment.value;
            && request.installation == s.installation && request.credential == s.credential
            && request.protocol == PROTOCOL && request.architecture == sys.architecture
  {
    assert StateSound(sys.server, sys.mine, sys.minted, sys.architecture, s);
  }

  lemma InstalledIsConfirmed(sys: Sys, mode: Mode, s: DeviceState)
    requires Inv(sys, mode) && sys.state.visible == Some(s) && s.endpoint == ""
    requires s.installation in sys.server.installations
    ensures Me(sys.server, s.credential).Ok?
    ensures Matches(Me(sys.server, s.credential).body, s, s.credential, sys.architecture)
  {
    PendingStateIsWellFormed(sys, mode, s);
    assert Covers(sys.server, s.installation, Some(s));
    ActiveCredentialIsConfirmed(sys, mode, s, s.credential);
  }

  lemma NotInstalledIsUnauthorized(sys: Sys, mode: Mode, s: DeviceState)
    requires Inv(sys, mode) && sys.state.visible == Some(s) && s.endpoint == ""
    requires s.installation !in sys.server.installations
    ensures Me(sys.server, s.credential) == Status(UNAUTHORIZED)
  {
    PendingStateIsWellFormed(sys, mode, s);
    assert StateSound(sys.server, sys.mine, sys.minted, sys.architecture, s);
    forall i | i in sys.mine && i in sys.server.installations ensures i == s.installation {
      assert Covers(sys.server, i, Some(s));
    }
  }

  lemma EnrollableStays(before: Sys, after: Sys, s: DeviceState, token: string, newEndpoint: string)
    requires OnlyCompletesEnrollment(before, after) && before.state.visible == Some(s)
    requires s.pendingEnrollment.Some? && s.pendingEnrollment.value.installation == s.installation
    requires Enrollable(before.server, s, token, newEndpoint)
    ensures Enrollable(after.server, s, token, newEndpoint)
  {
  }

  // The exchange of a redeemable request enrolls it, or finds that a request in flight has.
  lemma ExchangeEnrolls(before: Sys, seen: Sys, s: DeviceState, token: string, newEndpoint: string)
    requires OnlyCompletesEnrollment(before, seen) && before.state.visible == Some(s)
    requires s.pendingEnrollment.Some? && s.pendingEnrollment.value.installation == s.installation
    requires Consistent(before.server) && RedeemableWith(before.server, token, s.pendingEnrollment.value, newEndpoint)
    ensures var request := s.pendingEnrollment.value;
            var (after, reply) := Exchange(seen.server, token, request, newEndpoint);
            && MayHandle(seen.server, BootstrapRequest(token, request), newEndpoint)
            && s.installation in after.installations
            && (reply.Ok? || reply == Status(CONFLICT))
  {
    var request := s.pendingEnrollment.value;
    var (tokenId, secret) := ParseEnrollmentToken(token).value;
    if seen.server == before.server {
      RedeemableIsRedeemed(before.server, tokenId, secret, request, newEndpoint);
    } else {
      var other, otherId :| Redeemable(before.server, other, request) && IsFresh(before.server, otherId)
                            && seen.server == Enrolled(before.server, other, request, otherId);
      RedeemedIsReplayedOrRefused(before.server, tokenId, secret, request, newEndpoint, other, otherId);
    }
  }

  // An identity check of a device that is about to enroll finds the enrollment done, or still possible.
  lemma FetchedEnrollment(before: Sys, after: Sys, mode: Mode, reliable: bool, s: DeviceState, token: string, newEndpoint: string)
    requires Inv(before, mode) && Inv(after, mode) && Surroundings(before, after, reliable)
    requires before.state.visible == Some(s) && s.endpoint == ""
    ensures s.installation in after.server.installations ==> Me(after.server, s.credential).Ok?
    ensures s.installation !in after.server.installations ==> Me(after.server, s.credential) == Status(UNAUTHORIZED)
    ensures s.installation in before.server.installations ==> s.installation in after.server.installations
    ensures reliable && Enrollable(before.server, s, token, newEndpoint) && s.installation !in after.server.installations ==>
              RedeemableWith(after.server, token, s.pendingEnrollment.value, newEndpoint) && GoValidToken(token)
  {
    PendingStateIsWellFormed(before, mode, s);
    if s.installation in after.server.installations {
      InstalledIsConfirmed(after, mode, s);
    } else {
      NotInstalledIsUnauthorized(after, mode, s);
      TokensThreeWays(token);
      if reliable && Enrollable(before.server, s, token, newEndpoint) {
        EnrollableStays(before, after, s, token, newEndpoint);
      }
    }
  }

  // What an answered exchange tells the agent.
  lemma ExchangeAnswers(sent: Sys, before: Sys, after: Sys, reliable: bool, s: DeviceState, token: string, newEndpoint: string,
                        reply: Reply<Identity>)
    requires Surroundings(sent, before, reliable) && sent.state.visible == Some(s) && s.pendingEnrollment.Some?
    requires Consistent(before.server) && Consistent(sent.server)
    requires s.pendingEnrollment.value.installation == s.installation && s.pendingEnrollment.value.credential == s.credential
    requires var request := s.pendingEnrollment.value;
             var message := BootstrapRequest(token, request);
             && (reply != Lost ==>
                   && MayHandle(before.server, message, newEndpoint)
                   && reply == Exchange(before.server, token, request, newEndpoint).1
                   && after == before.(server := Handle(before.server, message, newEndpoint)))
             && (reliable && MayHandle(before.server, message, newEndpoint) ==>
                   reply == Exchange(before.server, token, request, newEndpoint).1
                   && after == before.(server := Handle(before.server, message, newEndpoint)))
    ensures reply.Ok? ==> reply == Me(after.server, s.credential)
    ensures reliable && RedeemableWith(sent.server, token, s.pendingEnrollment.value, newEndpoint) ==>
              s.installation in after.server.installations && (reply.Ok? || reply == Status(CONFLICT))
  {
    if reply.Ok? {
      AcceptedExchangeAuthenticates(before.server, token, s.pendingEnrollment.value, newEndpoint);
    }
    if reliable && RedeemableWith(sent.server, token, s.pendingEnrollment.value, newEndpoint) {
      ExchangeEnrolls(sent, before, s, token, newEndpoint);
    }
  }

  // ---- Finishing a rotation ----

  // Adopted: the control plane has the candidate. Rejected: it refused it for good. CurrentRefused: it does not
  // know the current credential any more.
  datatype RotationOutcome = Adopted | Rejected | CurrentRefused

  function WithCandidatePromoted(s: DeviceState): DeviceState
    requires s.pendingRotation.Some?
  {
    s.(credential := s.pendingRotation.value, pendingRotation := None)
  }

  function WithoutCandidate(s: DeviceState): DeviceState {
    s.(pendingRotation := None)
  }

  ghost predicate Rotating(sys: Sys, s: DeviceState) {
    && sys.state.visible == Some(s) && s.endpoint != "" && s.pendingRotation.Some?
    && s.pendingRotation.value.id != s.credential.id
  }

  ghost predicate CandidateInstalled(sys: Sys, s: DeviceState) {
    Rotating(sys, s) && Pinned(sys, s.endpoint, s.pendingRotation.value)
  }

  ghost predicate CandidateRefused(sys: Sys, s: DeviceState) {
    Rotating(sys, s) && Pinned(sys, s.endpoint, s.credential)
  }

  lemma EnrolledStateIsWellFormed(sys: Sys, mode: Mode, s: DeviceState)
    requires Inv(sys, mode) && sys.state.visible == Some(s) && s.endpoint != ""
    ensures ValidDeviceState(s) && s.installation in sys.mine
    ensures s.installation in sys.server.installations && sys.server.installations[s.installation] == s.endpoint
    ensures Reaches(sys.server, s.endpoint, s)
  {
    assert StateSound(sys.server, sys.mine, sys.minted, sys.architecture, s);
    assert Covers(sys.server, s.installation, Some(s));
  }

  // What the device holds authenticates as its own endpoint or not at all.
  lemma AuthenticatesAsItself(sys: Sys, mode: Mode, s: DeviceState, m: Material)
    requires Inv(sys, mode) && sys.state.visible == Some(s) && s.endpoint != "" && m in Held(s)
    ensures Authenticate(sys.server, m) == if IsActive(sys.server, s.endpoint, m) then Some(s.endpoint) else None
  {
    EnrolledStateIsWellFormed(sys, mode, s);
    HeldIsMinted(sys, Contents(sys, mode), m);
    assert sys.server.endpoints[s.endpoint].installation == Some(s.installation);
    if Authenticate(sys.server, m).Some? {
      var endpoint := Authenticate(sys.server, m).value;
      RotatedEndpointIsMine(sys, Contents(sys, mode), endpoint, m);
      assert Covers(sys.server, sys.server.endpoints[endpoint].installation.value, Some(s));
    }
  }

  lemma IdentityCheckOfEnrolled(sys: Sys, mode: Mode, s: DeviceState, m: Material)
    requires Inv(sys, mode) && sys.state.visible == Some(s) && s.endpoint != "" && m in Held(s)
    ensures IsActive(sys.server, s.endpoint, m) ==>
              Me(sys.server, m).Ok? && Matches(Me(sys.server, m).body, s, m, sys.architecture)
    ensures !IsActive(sys.server, s.endpoint, m) ==> Me(sys.server, m) == Status(UNAUTHORIZED)
  {
    EnrolledStateIsWellFormed(sys, mode, s);
    AuthenticatesAsItself(sys, mode, s, m);
    if IsActive(sys.server, s.endpoint, m) {
      ActiveCredentialIsConfirmed(sys, mode, s, m);
    }
  }

  lemma RefusedCurrentMeansCandidate(sys: Sys, mode: Mode, s: DeviceState)
    requires Inv(sys, mode) && sys.state.visible == Some(s) && s.endpoint != "" && s.pendingRotation.Some?
    ensures Rotating(sys, s)
    ensures !IsActive(sys.server, s.endpoint, s.credential) ==> CandidateInstalled(sys, s)
    ensures IsActive(sys.server, s.endpoint, s.pendingRotation.value) ==> CandidateInstalled(sys, s)
  {
    EnrolledStateIsWellFormed(sys, mode, s);
  }

  lemma SettledCandidateMayBeSent(sys: Sys, mode: Mode, s: DeviceState)
    requires !mode.Code? && (mode.WriteAhead? ==> sys.state.Settled())
    requires sys.state.visible == Some(s) && s.endpoint != "" && s.pendingRotation.Some?
    ensures CanSendRotate(sys) && CandidateIsDurable(sys, Contents(sys, mode))
  {
  }

  // What an answered rotation request tells the agent.
  lemma RotateAnswers(before: Sys, mode: Mode, s: DeviceState, after: Sys)
    requires Inv(before, mode) && before.state.visible == Some(s) && s.endpoint != "" && s.pendingRotation.Some?
    requires after == before.(server := Rotate(before.server, s.credential, s.pendingRotation.value).0)
    ensures var reply := Rotate(before.server, s.credential, s.pendingRotation.value).1;
            && (reply.Ok? ==>
                  MatchesRotation(reply.body, s.endpoint, s.pendingRotation.value) && CandidateInstalled(after, s))
            && (reply == Status(CONFLICT) ==> CandidateRefused(after, s))
            && (reply == Status(CONFLICT) <==> CandidateRefused(before, s))
            && (reply == Status(UNAUTHORIZED) ==> CandidateInstalled(after, s))
            && (reply.Ok? || reply == Status(CONFLICT) || reply == Status(UNAUTHORIZED))
  {
    EnrolledStateIsWellFormed(before, mode, s);
    RefusedCurrentMeansCandidate(before, mode, s);
    AuthenticatesAsItself(before, mode, s, s.credential);
    if IsActive(before.server, s.endpoint, s.credential) {
      RotateMovesTheActiveCredential(before.server, s.credential, s.pendingRotation.value, s.endpoint);
    }
  }

  // A network that fails at nothing makes no difference to whether the candidate is refused.
  lemma RefusedCandidateStaysRefused(start: Sys, before: Sys, s: DeviceState)
    requires Surroundings(start.(net := before.net), before, true) && start.state.visible == Some(s)
    ensures CandidateRefused(before, s) <==> CandidateRefused(start, s)
  {
  }

  lemma OfferIsAnswered(start: Sys, before: Sys, mode: Mode, reliable: bool, s: DeviceState, after: Sys)
    requires start.state.visible == Some(s) && s.endpoint != "" && s.pendingRotation.Some?
    requires Surroundings(start.(net := before.net), before, reliable) && Inv(before, mode)
    requires after == before.(server := Rotate(before.server, s.credential, s.pendingRotation.value).0)
    ensures var reply := Rotate(before.server, s.credential, s.pendingRotation.value).1;
            && (reply.Ok? ==>
                  MatchesRotation(reply.body, s.endpoint, s.pendingRotation.value) && CandidateInstalled(after, s))
            && (reply == Status(CONFLICT) ==> CandidateRefused(after, s))
            && (reply == Status(UNAUTHORIZED) ==> CandidateInstalled(after, s))
            && (reply.Ok? || reply == Status(CONFLICT) || reply == Status(UNAUTHORIZED))
            && (reliable ==> (reply == Status(CONFLICT) <==> CandidateRefused(start, s)))
  {
    RotateAnswers(before, mode, s, after);
    if reliable {
      RefusedCandidateStaysRefused(start, before, s);
    }
  }

  lemma SettledStaysSettled(start: Sys, before: Sys, after: Sys, reliable: bool)
    requires Surroundings(start, before, reliable) && SameAgent(before, after) && after.state.Valid()
    ensures before.state.visible == start.state.visible == after.state.visible && after.config.visible == start.config.visible
    ensures start.state.Settled() ==> after.state.Settled()
  {
  }

  lemma InstalledCandidateMayBePromoted(sys: Sys, s: DeviceState)
    requires CandidateInstalled(sys, s)
    ensures MaySave(sys, SaveKind.PromoteRotation, WithCandidatePromoted(s))
    ensures ValidDeviceState(s) ==> ValidDeviceState(WithCandidatePromoted(s))
    ensures IsActive(sys.server, s.endpoint, s.pendingRotation.value)
  {
  }

  lemma RefusedCandidateMayBeDiscarded(sys: Sys, s: DeviceState)
    requires CandidateRefused(sys, s)
    ensures MaySave(sys, SaveKind.Discard, WithoutCandidate(s))
    ensures ValidDeviceState(s) ==> ValidDeviceState(WithoutCandidate(s))
    ensures IsActive(sys.server, s.endpoint, s.credential)
  {
  }

  // The control plane knows the candidate's identifier although the old credential is active.
  ghost predicate HoldsRefusedCandidate(sys: Sys) {
    sys.state.visible.Some? && CandidateRefused(sys, sys.state.visible.value)
  }

  // ---- Recovery ----

  // The drawn identifiers are in use nowhere; a draw that collides is treated as one that failed.
  predicate IsFreshDraw(sys: Sys, random: Randomness) {
    && random.Valid()
    && random.Installation() !in sys.mine && random.Installation() !in sys.server.installations
    && IsNewCredential(sys, random.Credential())
  }

  // The device can finish on its own: it is enrolled, or its enrollment has been or would be redeemed.
  ghost predicate Recoverable(sys: Sys, token: string, host: Host, random: Randomness, newEndpoint: string) {
    match sys.state.visible
    case Some(s) => CanFinish(sys.server, s, token, newEndpoint)
    case None =>
      var s := EnrollmentState(host, sys.architecture, random);
      && IsFreshDraw(sys, random) && ValidDeviceState(s)
      && RedeemableWith(sys.server, token, s.pendingEnrollment.value, newEndpoint)
  }

  ghost predicate CanFinish(server: Server, s: DeviceState, token: string, newEndpoint: string) {
    s.endpoint != "" || Enrollable(server, s, token, newEndpoint)
  }

  predicate HasPendingRotation(v: Option<DeviceState>) {
    v.Some? && v.value.pendingRotation.Some?
  }

  // Enrolled, with nothing pending.
  predicate IsFinished(v: Option<DeviceState>) {
    v.Some? && v.value.endpoint != "" && v.value.pendingRotation.None?
  }

  lemma RecoverableDeviceCanStart(sys: Sys, token: string, host: Host, random: Randomness, newEndpoint: string)
    requires Recoverable(sys, token, host, random, newEndpoint)
    ensures sys.state.visible.Some? ==> CanFinish(sys.server, sys.state.visible.value, token, newEndpoint)
    ensures sys.state.visible.None? ==>
              var s := EnrollmentState(host, sys.architecture, random);
              && GoValidToken(token) && IsFreshDraw(sys, random) && ValidDeviceState(s)
              && CanFinish(sys.server, s, token, newEndpoint)
  {
    TokensThreeWays(token);
  }

  // Nothing comes into use but the credential drawn for a device that had none.
  ghost predicate UsesOnlyDrawn(before: Sys, after: Sys, random: Randomness) {
    if before.state.visible.Some? then UsesNothingNew(before, after)
    else forall id | IsUnused(before, id) && id != random.Credential().id :: IsUnused(after, id)
  }

  // The candidate is new, and unlike the credential that is drawn first if the device has none.
  predicate IsNewDraw(sys: Sys, random: Randomness, candidate: Material) {
    IsNewCredential(sys, candidate) && (sys.state.visible.None? ==> candidate.id != random.Credential().id)
  }

  lemma UndrawnStaysNew(before: Sys, after: Sys, random: Randomness, candidate: Material)
    requires UsesOnlyDrawn(before, after, random) && IsNewDraw(before, random, candidate)
    ensures IsNewCredential(after, candidate)
  {
    assert IsUnused(before, candidate.id);
    assert IsUnused(after, candidate.id);
  }

  function WithCandidate(s: DeviceState, candidate: Material): DeviceState {
    s.(pendingRotation := Some(candidate))
  }

  lemma NewCandidateMayBeMinted(sys: Sys, mode: Mode, s: DeviceState, candidate: Material)
    requires Inv(sys, mode) && sys.state.visible == Some(s) && s.endpoint != "" && s.pendingRotation.None?
    requires IsNewCredential(sys, candidate)
    ensures MaySave(sys, SaveKind.Mint, WithCandidate(s, candidate)) && ValidDeviceState(WithCandidate(s, candidate))
  {
    EnrolledStateIsWellFormed(sys, mode, s);
    HeldIsMinted(sys, Contents(sys, mode), s.credential);
  }

  lemma NewStateMayBeCreated(sys: Sys, host: Host, random: Randomness)
    requires sys.state.visible.None? && IsFreshDraw(sys, random)
    requires ValidDeviceState(EnrollmentState(host, sys.architecture, random))
    ensures MaySave(sys, SaveKind.Create, EnrollmentState(host, sys.architecture, random))
  {
  }

  // What a call starts from: the saved state, or a new one for this host.
  function StateAtStart(sys: Sys, host: Host, random: Randomness): DeviceState {
    if sys.state.visible.Some? then sys.state.visible.value else EnrollmentState(host, sys.architecture, random)
  }

  // The same device with its business finished.
  function Finished(s: DeviceState, endpoint: string): DeviceState {
    if s.pendingRotation.Some? then WithCandidatePromoted(s)
    else if s.endpoint == "" then Promoted(s, endpoint)
    else s
  }

  // ---- The agent ----

  class Agent {
    const world: World
    const hasConfigPath: bool
    var enrollmentToken: string
    var apiToken: string

    // loadConfig, as far as the two secrets are concerned
    constructor (world: World, hasConfigPath: bool)
      requires world.Valid()
      ensures Valid() && this.world == world && this.hasConfigPath == hasConfigPath
      ensures Token() == LoadedToken(world.sys.config.visible)
    {
      this.world, this.hasConfigPath := world, hasConfigPath;
      enrollmentToken := LoadedToken(world.sys.config.visible);
      apiToken := SecretText(world.sys.config.visible.apiToken);
      new;
      LoadedSecretsAreRemembered(world.sys.config.visible);
    }

    // The secrets in memory are gone only if those in the config file are.
    ghost predicate Remembers() reads this, world {
      hasConfigPath && IsBlankText(enrollmentToken) && IsBlankText(apiToken) ==>
        SecretsGone(world.sys.config.visible)
    }

    ghost predicate Valid() reads this, world { world.Valid() && Remembers() }

    // Only what the state file shows can survive a power loss.
    ghost predicate IsDurable() reads world {
      world.sys.state.Settled()
    }

    // Nothing the agent is about to send can be lost while its call lasts: its last save returned nil, or the power does
    // not fail meanwhile. In a world without power loss this asks for nothing.
    ghost predicate Settled() reads world {
      world.mode.WriteAhead? ==> world.sys.state.Settled()
    }

    ghost predicate Holds(s: DeviceState) reads world {
      world.sys.state.visible == Some(s)
    }

    ghost predicate ForgetsSecrets() reads this {
      IsBlankText(enrollmentToken) && IsBlankText(apiToken)
    }

    // What a session stands for: an enrolled device without unfinished business, whose credential is active.
    ghost predicate Complete(s: DeviceState) reads this, world {
      && Holds(s) && Settled() && ForgetsSecrets()
      && s.endpoint != "" && s.pendingEnrollment.None? && s.pendingRotation.None?
      && IsActive(world.sys.server, s.endpoint, s.credential)
      && (hasConfigPath ==> SecretsGone(world.sys.config.visible))
    }

    ghost predicate Established(session: Session) reads this, world {
      && Complete(session.state)
      && Matches(session.identity, session.state, session.state.credential, world.sys.architecture)
    }

    function Token(): string reads this { Text.Strip(enrollmentToken, Text.GO_SPACE) }

    // clearPersistedBootstrapCredentials
    method ClearPersistedBootstrapCredentials() returns (ok: bool)
      requires Valid() && EndpointIsDurable(Contents(world.sys, world.mode))
      modifies this, world
      ensures Valid() && old(world.log) <= world.log
      ensures world.reliable ==> UsesNothingNew(old(world.sys), world.sys)
      ensures world.sys.state == old(world.sys).state && world.sys.server == old(world.sys).server
      ensures world.sys.mine == old(world.sys).mine && world.sys.architecture == old(world.sys).architecture
      ensures ok && hasConfigPath ==> SecretsGone(world.sys.config.visible)
      ensures ok ==> ForgetsSecrets()
      ensures !ok || old(ForgetsSecrets()) ==> enrollmentToken == old(enrollmentToken) && apiToken == old(apiToken)
      ensures old(ForgetsSecrets()) ==> world.sys == old(world.sys)
      ensures world.reliable ==> ok
    {
      if IsBlankText(enrollmentToken) && IsBlankText(apiToken) {
        return true;
      }
      if hasConfigPath {
        ok := ClearBootstrapCredentialsFromConfig();
        if !ok { return; }
      }
      enrollmentToken, apiToken := "", "";
      ok := true;
    }

    // clearBootstrapCredentialsFromConfig: a file without either field is left as it is.
    method ClearBootstrapCredentialsFromConfig() returns (ok: bool)
      requires world.Valid() && EndpointIsDurable(Contents(world.sys, world.mode))
      modifies world
      ensures world.Valid() && old(world.log) <= world.log
      ensures world.sys == old(world.sys).(config := world.sys.config, cleared := world.sys.cleared)
      ensures world.sys.config.visible == old(world.sys).config.visible
              || world.sys.config.visible == ConfigFile(None, None, old(world.sys).config.visible.rest)
      ensures ok ==> world.sys.config.visible == ConfigFile(None, None, old(world.sys).config.visible.rest)
      ensures ConfigFile(None, None, old(world.sys).config.visible.rest) == old(world.sys).config.visible ==> world.sys == old(world.sys)
      ensures world.reliable ==> ok
    {
      var readable: bool := *;
      if !readable && !world.reliable {
        return false;
      }
      var fields := world.sys.config.visible;
      if fields.enrollmentToken.None? && fields.apiToken.None? {
        return true;
      }
      ghost var result;
      ok, result := world.RewriteConfig();
    }

    // The save of promoteEnrollment; the surroundings may act before it.
    method SavePromoted(state: DeviceState, endpoint: string) returns (ok: bool)
      requires Valid() && EnrollmentConfirmed(world.sys, state, endpoint) && IsEndpointId(endpoint) && ValidDeviceState(state)
      modifies world
      ensures Valid() && old(world.log) <= world.log
      ensures world.reliable ==> UsesNothingNew(old(world.sys), world.sys)
      ensures ok ==> world.sys.state == Cell(Some(Promoted(state, endpoint)), {Some(Promoted(state, endpoint))})
      ensures ok ==> IsActive(world.sys.server, endpoint, state.credential)
      ensures world.sys.architecture == old(world.sys).architecture
      ensures world.reliable ==> ok
    {
      ghost var confirmed := world.sys;
      world.Interfere();
      EnrollmentStaysConfirmed(confirmed, world.sys, world.reliable, state, endpoint);
      ConfirmedEnrollmentMayBePromoted(world.sys, state, endpoint);
      ghost var result;
      ok, result := world.Save(SaveKind.PromoteEnrollment, Promoted(state, endpoint));
    }

    // promoteEnrollment, for an identity the control plane has just confirmed
    method PromoteEnrollment(state: DeviceState, identity: Identity) returns (r: Result<DeviceState, AgentError>)
      requires Valid() && Holds(state) && state.endpoint == "" && state.pendingRotation.None?
      requires Me(world.sys.server, state.credential) == Ok(identity)
      requires Matches(identity, state, state.credential, world.sys.architecture)
      modifies this, world
      ensures Valid() && old(world.log) <= world.log
      ensures world.reliable ==> UsesNothingNew(old(world.sys), world.sys)
      ensures world.sys.architecture == old(world.sys).architecture
      ensures r.Success? ==> Complete(r.value) && IsDurable() && r.value == Promoted(state, identity.endpoint)
      ensures r != Failure(RotationRejected)
      ensures world.reliable ==> r.Success?
    {
      assert EnrollmentConfirmed(world.sys, state, identity.endpoint) && IsEndpointId(identity.endpoint) && ValidDeviceState(state) by {
        world.Invariant();
        AnswerConfirmsEnrollment(world.sys, world.mode, state, identity);
      }
      var ok := SavePromoted(state, identity.endpoint);
      if !ok { return Failure(SaveFailed); }
      ok := ClearPersistedBootstrapCredentials();
      if !ok { return Failure(ConfigNotCleared); }
      return Success(Promoted(state, identity.endpoint));
    }

    // GET /api/agent/me, with what the agent knows afterwards
    method FetchIdentity(material: Material) returns (reply: Reply<Identity>)
      requires Valid() && Settled()
      modifies world
      ensures Valid() && Settled() && old(world.log) <= world.log
      ensures Surroundings(old(world.sys), world.sys, world.reliable)
      ensures old(IsDurable()) ==> IsDurable()
      ensures reply == Me(world.sys.server, material) || (!world.reliable && reply == Lost)
    {
      reply := world.Fetch(material);
      world.Invariant();
    }

    // The identity check of a device that has not finished its enrollment
    method FetchEnrollment(state: DeviceState, ghost token: string, ghost newEndpoint: string) returns (reply: Reply<Identity>)
      requires Valid() && Settled() && Holds(state) && state.endpoint == ""
      modifies world
      ensures Valid() && Settled() && Holds(state) && old(world.log) <= world.log
      ensures world.reliable ==> UsesNothingNew(old(world.sys), world.sys)
      ensures world.sys.architecture == old(world.sys).architecture
      ensures state.pendingEnrollment.Some?
      ensures reply.Ok? ==> reply == Me(world.sys.server, state.credential)
      ensures world.reliable ==>
                reply == (if state.installation in world.sys.server.installations then Me(world.sys.server, state.credential)
                          else Status(UNAUTHORIZED))
      ensures reply.Ok? ==> state.installation in world.sys.server.installations
      ensures state.installation in old(world.sys).server.installations ==>
                state.installation in world.sys.server.installations
      ensures state.installation in world.sys.server.installations ==> Me(world.sys.server, state.credential).Ok?
      ensures world.reliable && Enrollable(old(world.sys).server, state, token, newEndpoint)
              && state.installation !in world.sys.server.installations ==>
                RedeemableWith(world.sys.server, token, state.pendingEnrollment.value, newEndpoint) && GoValidToken(token)
    {
      world.Invariant();
      PendingStateIsWellFormed(world.sys, world.mode, state);
      reply := FetchIdentity(state.credential);
      world.Invariant();
      FetchedEnrollment(old(world.sys), world.sys, world.mode, world.reliable, state, token, newEndpoint);
    }

    // POST /api/agent/bootstrap with the pending request
    method ExchangeToken(state: DeviceState, token: string, newEndpoint: string) returns (reply: Reply<Identity>)
      requires Valid() && Settled() && Holds(state) && state.endpoint == ""
      modifies world
      ensures Valid() && Settled() && Holds(state) && old(world.log) <= world.log
      ensures world.reliable ==> UsesNothingNew(old(world.sys), world.sys)
      ensures world.sys.architecture == old(world.sys).architecture
      ensures reply.Ok? ==> reply == Me(world.sys.server, state.credential)
      ensures world.sys.config.visible == old(world.sys).config.visible
      ensures world.reliable && state.pendingEnrollment.Some?
              && RedeemableWith(old(world.sys).server, token, state.pendingEnrollment.value, newEndpoint) ==>
                state.installation in world.sys.server.installations && (reply.Ok? || reply == Status(CONFLICT))
    {
      world.Invariant();
      PendingStateIsWellFormed(world.sys, world.mode, state);
      ghost var sent := Apply(world.sys, SendBootstrap(token));
      ghost var before;
      reply, before := world.Bootstrap(token, newEndpoint);
      world.Invariant();
      ExchangeAnswers(sent, before, world.sys, world.reliable, state, token, newEndpoint, reply);
    }

    // The identity checks that follow an answer about the pending enrollment.
    method AcceptEnrollment(state: DeviceState, identity: Identity) returns (r: Result<Session, AgentError>)
      requires Valid() && Holds(state) && state.endpoint == ""
      requires Me(world.sys.server, state.credential) == Ok(identity)
      modifies this, world
      ensures Valid() && old(world.log) <= world.log
      ensures world.reliable ==> UsesNothingNew(old(world.sys), world.sys)
      ensures r.Success? ==> Established(r.value) && IsDurable()
      ensures r.Success? ==> r.value.state == Promoted(state, r.value.state.endpoint)
      ensures r != Failure(RotationRejected)
      ensures world.reliable && state.installation in old(world.sys).server.installations ==> r.Success?
    {
      assert state.pendingRotation.None? by {
        world.Invariant();
        PendingStateIsWellFormed(world.sys, world.mode, state);
      }
      assert state.installation in world.sys.server.installations ==>
               Matches(identity, state, state.credential, world.sys.architecture) by {
        if state.installation in world.sys.server.installations {
          world.Invariant();
          InstalledIsConfirmed(world.sys, world.mode, state);
        }
      }
      if !Matches(identity, state, state.credential, world.sys.architecture) {
        return Failure(Mismatch);
      }
      var promoted := PromoteEnrollment(state, identity);
      if promoted.Failure? {
        return Failure(promoted.error);
      }
      return Success(Session(promoted.value, identity));
    }

    // The exchange, and the identity check that resolves a conflict
    method RedeemToken(state: DeviceState, token: string, newEndpoint: string) returns (reply: Reply<Identity>)
      requires Valid() && Settled() && Holds(state) && state.endpoint == "" && state.pendingEnrollment.Some?
      modifies world
      ensures Valid() && Settled() && Holds(state) && old(world.log) <= world.log
      ensures world.reliable ==> UsesNothingNew(old(world.sys), world.sys)
      ensures reply.Ok? ==> reply == Me(world.sys.server, state.credential)
      ensures world.reliable && RedeemableWith(old(world.sys).server, token, state.pendingEnrollment.value, newEndpoint) ==>
                reply.Ok? && state.installation in world.sys.server.installations
    {
      reply := ExchangeToken(state, token, newEndpoint);
      if reply == Status(CONFLICT) {
        var recovered := FetchEnrollment(state, token, newEndpoint);
        if recovered.Ok? {
          reply := recovered;
        }
      }
    }

    // The control plane's answer about the pending enrollment: the identity check, then the exchange
    method AskForEnrollment(state: DeviceState, newEndpoint: string) returns (answer: Result<Identity, AgentError>)
      requires Valid() && Settled() && Holds(state) && state.endpoint == ""
      modifies world
      ensures Valid() && Settled() && Holds(state) && old(world.log) <= world.log
      ensures world.reliable ==> UsesNothingNew(old(world.sys), world.sys)
      ensures answer.Success? ==> Me(world.sys.server, state.credential) == Ok(answer.value)
      ensures answer != Failure(RotationRejected)
      ensures world.reliable && Enrollable(old(world.sys).server, state, Token(), newEndpoint) ==>
                answer.Success? && state.installation in world.sys.server.installations
    {
      var token := Token();
      var reply := FetchEnrollment(state, token, newEndpoint);
      if reply.Ok? {
        answer := Success(reply.body);
      } else if reply != Status(UNAUTHORIZED) {
        answer := Failure(Unreachable);
      } else if state.pendingEnrollment.None? {
        answer := Failure(NotEnrolled);
      } else if !GoValidToken(token) {
        answer := Failure(TokenRequired);
      } else {
        reply := RedeemToken(state, token, newEndpoint);
        answer := if reply.Ok? then Success(reply.body) else Failure(EnrollmentRefused);
      }
    }

    // The branch of ensureDeviceIdentity for a state without an endpoint
    method FinishEnrollment(state: DeviceState, newEndpoint: string) returns (r: Result<Session, AgentError>)
      requires Valid() && Settled() && Holds(state) && state.endpoint == ""
      modifies this, world
      ensures Valid() && old(world.log) <= world.log
      ensures world.reliable ==> UsesNothingNew(old(world.sys), world.sys)
      ensures r.Success? ==> Established(r.value) && IsDurable()
      ensures r.Success? ==> r.value.state == Promoted(state, r.value.state.endpoint)
      ensures r != Failure(RotationRejected)
      ensures world.reliable && Enrollable(old(world.sys).server, state, old(Token()), newEndpoint) ==> r.Success?
    {
      var answer := AskForEnrollment(state, newEndpoint);
      if answer.Failure? {
        return Failure(answer.error);
      }
      r := AcceptEnrollment(state, answer.value);
    }

    // POST /api/agent/credentials/rotate with the pending candidate
    method SendCandidate(state: DeviceState) returns (reply: Reply<CredentialReply>)
      requires Valid() && Settled() && Holds(state) && state.endpoint != "" && state.pendingRotation.Some?
      modifies world
      ensures Valid() && Settled() && Holds(state) && old(world.log) <= world.log
      ensures world.reliable ==> UsesNothingNew(old(world.sys), world.sys)
      ensures world.sys.config.visible == old(world.sys).config.visible
      ensures reply.Ok? ==>
                MatchesRotation(reply.body, state.endpoint, state.pendingRotation.value) && CandidateInstalled(world.sys, state)
      ensures reply == Status(CONFLICT) ==> CandidateRefused(world.sys, state)
      ensures world.reliable ==> (reply == Status(CONFLICT) <==> CandidateRefused(old(world.sys), state))
      ensures reply == Status(UNAUTHORIZED) ==> CandidateInstalled(world.sys, state)
      ensures world.reliable ==> reply.Ok? || reply == Status(CONFLICT) || reply == Status(UNAUTHORIZED)
    {
      SettledCandidateMayBeSent(world.sys, world.mode, state);
      ghost var sent := Apply(world.sys, SendRotate);
      ghost var before;
      reply, before := world.RotateCredential();
      assert world.sys.state.Valid() by {
        world.Invariant();
      }
      SettledStaysSettled(sent, before, world.sys, world.reliable);
      if reply != Lost {
        assert sent == old(world.sys).(net := before.net);
        OfferIsAnswered(old(world.sys), before, world.mode, world.reliable, state, world.sys);
      }
    }

    // The identity check of an enrolled device with one of the credentials it holds
    method FetchEnrolled(state: DeviceState, material: Material) returns (reply: Reply<Identity>)
      requires Valid() && Settled() && Holds(state) && state.endpoint != "" && material in Held(state)
      modifies world
      ensures Valid() && Settled() && Holds(state) && old(world.log) <= world.log
      ensures world.reliable ==> UsesNothingNew(old(world.sys), world.sys)
      ensures world.sys.config.visible == old(world.sys).config.visible
      ensures old(IsDurable()) ==> IsDurable()
      ensures forall m | Pinned(old(world.sys), state.endpoint, m) :: Pinned(world.sys, state.endpoint, m)
      ensures world.reliable && CandidateRefused(world.sys, state) ==> CandidateRefused(old(world.sys), state)
      ensures reply.Ok? ==>
                && Matches(reply.body, state, material, world.sys.architecture)
                && IsActive(world.sys.server, state.endpoint, material)
      ensures reply == Status(UNAUTHORIZED) ==> !IsActive(world.sys.server, state.endpoint, material)
      ensures world.reliable ==> reply.Ok? || reply == Status(UNAUTHORIZED)
    {
      reply := FetchIdentity(material);
      world.Invariant();
      IdentityCheckOfEnrolled(world.sys, world.mode, state, material);
    }

    // The part of reconcilePendingRotation that asks about the current credential and offers the candidate
    method TryRotation(state: DeviceState) returns (answer: Result<RotationOutcome, AgentError>)
      requires Valid() && Settled() && Holds(state) && state.endpoint != "" && state.pendingRotation.Some?
      modifies world
      ensures Valid() && Settled() && Holds(state) && old(world.log) <= world.log
      ensures world.reliable ==> UsesNothingNew(old(world.sys), world.sys)
      ensures world.sys.config.visible == old(world.sys).config.visible
      ensures answer == Success(Adopted) || answer == Success(CurrentRefused) ==> CandidateInstalled(world.sys, state)
      ensures answer == Success(Rejected) ==> CandidateRefused(world.sys, state)
      ensures world.reliable ==> (answer == Success(Rejected) <==> CandidateRefused(old(world.sys), state))
      ensures world.reliable ==> answer.Success?
      ensures answer != Failure(RotationRejected)
    {
      var current := FetchEnrolled(state, state.credential);
      world.Invariant();
      RefusedCurrentMeansCandidate(world.sys, world.mode, state);
      if current == Status(UNAUTHORIZED) {
        return Success(CurrentRefused);
      }
      if !current.Ok? {
        return Failure(Unreachable);
      }
      if !Matches(current.body, state, state.credential, world.sys.architecture) {
        return Failure(Mismatch);
      }
      var reply := SendCandidate(state);
      if reply == Status(UNAUTHORIZED) {
        return Success(CurrentRefused);
      }
      if reply == Status(CONFLICT) {
        return Success(Rejected);
      }
      if !reply.Ok? {
        return Failure(Unreachable);
      }
      if !MatchesRotation(reply.body, state.endpoint, state.pendingRotation.value) {
        return Failure(Mismatch);
      }
      return Success(Adopted);
    }

    // promoteRotation
    method PromoteRotation(state: DeviceState) returns (ok: bool)
      requires Valid() && CandidateInstalled(world.sys, state) && ValidDeviceState(state)
      modifies world
      ensures Valid() && old(world.log) <= world.log
      ensures world.reliable ==> UsesNothingNew(old(world.sys), world.sys)
      ensures world.sys.config.visible == old(world.sys).config.visible
      ensures ok ==>
                && world.sys.state == Cell(Some(WithCandidatePromoted(state)), {Some(WithCandidatePromoted(state))})
                && IsActive(world.sys.server, state.endpoint, state.pendingRotation.value)
      ensures world.reliable ==> ok
    {
      world.Interfere();
      InstalledCandidateMayBePromoted(world.sys, state);
      ghost var result;
      ok, result := world.Save(SaveKind.PromoteRotation, WithCandidatePromoted(state));
    }

    method DiscardCandidate(state: DeviceState) returns (ok: bool)
      requires Valid() && CandidateRefused(world.sys, state) && ValidDeviceState(state)
      modifies world
      ensures Valid() && old(world.log) <= world.log
      ensures world.reliable ==> UsesNothingNew(old(world.sys), world.sys)
      ensures world.sys.config.visible == old(world.sys).config.visible
      ensures ok ==>
                && world.sys.state == Cell(Some(WithoutCandidate(state)), {Some(WithoutCandidate(state))})
                && IsActive(world.sys.server, state.endpoint, state.credential)
      ensures world.reliable ==> ok
    {
      world.Interfere();
      RefusedCandidateMayBeDiscarded(world.sys, state);
      ghost var result;
      ok, result := world.Save(SaveKind.Discard, WithoutCandidate(state));
    }

    // The check of the candidate once the control plane has refused the current credential
    method RecoverCandidate(state: DeviceState) returns (problem: Option<AgentError>)
      requires Valid() && Settled() && CandidateInstalled(world.sys, state)
      modifies world
      ensures Valid() && Settled() && old(world.log) <= world.log
      ensures world.reliable ==> UsesNothingNew(old(world.sys), world.sys)
      ensures world.sys.config.visible == old(world.sys).config.visible
      ensures CandidateInstalled(world.sys, state)
      ensures problem.Some? ==> !world.reliable && problem.value != RotationRejected
    {
      var recovered := FetchEnrolled(state, state.pendingRotation.value);
      if !recovered.Ok? {
        return Some(Unreachable);
      }
      if !Matches(recovered.body, state, state.pendingRotation.value, world.sys.architecture) {
        return Some(Mismatch);
      }
      return None;
    }

    // reconcilePendingRotation
    method ReconcilePendingRotation(state: DeviceState) returns (r: Result<DeviceState, AgentError>)
      requires Valid() && Settled() && Holds(state) && state.endpoint != "" && state.pendingRotation.Some?
      modifies world
      ensures Valid() && old(world.log) <= world.log
      ensures world.reliable ==> UsesNothingNew(old(world.sys), world.sys)
      ensures world.sys.config.visible == old(world.sys).config.visible
      ensures r.Success? ==>
                && r.value == WithCandidatePromoted(state) && Holds(r.value) && Settled() && IsDurable()
                && IsActive(world.sys.server, state.endpoint, state.pendingRotation.value)
      ensures r == Failure(RotationRejected) ==>
                && Holds(WithoutCandidate(state)) && Settled() && IsDurable()
                && IsActive(world.sys.server, state.endpoint, state.credential)
      ensures world.reliable ==> r.Success? || r == Failure(RotationRejected)
      ensures world.reliable ==> (r == Failure(RotationRejected) <==> CandidateRefused(old(world.sys), state))
    {
      assert ValidDeviceState(state) by {
        world.Invariant();
        EnrolledStateIsWellFormed(world.sys, world.mode, state);
      }
      var answer := TryRotation(state);
      if answer.Failure? {
        return Failure(answer.error);
      }
      if answer.value.Rejected? {
        var discarded := DiscardCandidate(state);
        return Failure(if discarded then RotationRejected else SaveFailed);
      }
      if answer.value.CurrentRefused? {
        var problem := RecoverCandidate(state);
        if problem.Some? {
          return Failure(problem.value);
        }
      }
      var ok := PromoteRotation(state);
      return if ok then Success(WithCandidatePromoted(state)) else Failure(SaveFailed);
    }

    // The end of ensureDeviceIdentity, for a state with an endpoint
    method ConfirmEnrolled(state: DeviceState) returns (r: Result<Session, AgentError>)
      requires Valid() && Settled() && Holds(state) && state.endpoint != "" && state.pendingRotation.None?
      modifies this, world
      ensures Valid() && old(world.log) <= world.log
      ensures world.reliable ==> UsesNothingNew(old(world.sys), world.sys)
      ensures r.Success? ==> Established(r.value) && r.value.state == state
      ensures r.Success? && old(IsDurable()) ==> IsDurable()
      ensures r != Failure(RotationRejected)
      ensures world.reliable ==> r.Success?
    {
      var reply := FetchEnrolled(state, state.credential);
      world.Invariant();
      EnrolledStateIsWellFormed(world.sys, world.mode, state);
      if !reply.Ok? {
        return Failure(Unreachable);
      }
      if !Matches(reply.body, state, state.credential, world.sys.architecture) {
        return Failure(Mismatch);
      }
      var ok := ClearPersistedBootstrapCredentials();
      return if ok then Success(Session(state, reply.body)) else Failure(ConfigNotCleared);
    }

    lemma LoadedStateIsSound()
      requires Valid() && world.sys.state.visible.Some?
      ensures var s := world.sys.state.visible.value; s.pendingRotation.Some? ==> s.endpoint != ""
    {
      world.Invariant();
      assert StateSound(world.sys.server, world.sys.mine, world.sys.minted, world.sys.architecture, world.sys.state.visible.value);
    }

    // newPendingEnrollmentState
    method NewPendingEnrollmentState(host: Host, random: Randomness) returns (r: Result<DeviceState, AgentError>)
      requires world.sys.state.visible.None?
      ensures r.Success? ==>
                && r.value == EnrollmentState(host, world.sys.architecture, random) && ValidDeviceState(r.value)
                && MaySave(world.sys, SaveKind.Create, r.value)
      ensures r != Failure(RotationRejected)
      ensures forall newEndpoint | Recoverable(world.sys, Token(), host, random, newEndpoint) ::
                r.Success? && CanFinish(world.sys.server, r.value, Token(), newEndpoint)
    {
      forall newEndpoint | Recoverable(world.sys, Token(), host, random, newEndpoint)
        ensures var s := EnrollmentState(host, world.sys.architecture, random);
                && GoValidToken(Token()) && IsFreshDraw(world.sys, random) && ValidDeviceState(s)
                && CanFinish(world.sys.server, s, Token(), newEndpoint)
      {
        RecoverableDeviceCanStart(world.sys, Token(), host, random, newEndpoint);
      }
      if !GoValidToken(Token()) {
        return Failure(TokenRequired);
      }
      if !IsFreshDraw(world.sys, random) {
        return Failure(RandomUnavailable);
      }
      var state := EnrollmentState(host, world.sys.architecture, random);
      if !ValidDeviceState(state) {
        return Failure(CandidateInvalid);
      }
      NewStateMayBeCreated(world.sys, host, random);
      return Success(state);
    }

    // The start of ensureDeviceIdentity
    method LoadOrCreate(host: Host, random: Randomness, ghost newEndpoint: string) returns (r: Result<DeviceState, AgentError>)
      requires Valid() && Settled()
      modifies world
      ensures Valid() && old(world.log) <= world.log
      ensures UsesOnlyDrawn(old(world.sys), world.sys, random)
      ensures world.sys.config.visible == old(world.sys).config.visible && world.sys.server == old(world.sys).server
      ensures r.Success? ==> Holds(r.value) && Settled() && (r.value.pendingRotation.Some? ==> r.value.endpoint != "")
      ensures r != Failure(RotationRejected)
      ensures old(world.sys).state.visible.Some? && r.Success? ==>
                r.value == old(world.sys).state.visible.value && world.sys == old(world.sys)
      ensures old(world.sys).state.visible.None? && r.Success? ==> r.value.pendingRotation.None? && IsDurable()
      ensures old(world.sys).state.visible.None? && r.Success? ==>
                r.value == EnrollmentState(host, old(world.sys).architecture, random)
      ensures world.reliable && Recoverable(old(world.sys), Token(), host, random, newEndpoint) ==>
                r.Success? && CanFinish(world.sys.server, r.value, Token(), newEndpoint)
    {
      var loaded := world.Load();
      if loaded.None? {
        return Failure(StateUnreadable);
      }
      if loaded.value.Some? {
        LoadedStateIsSound();
        return Success(loaded.value.value);
      }
      var state := NewPendingEnrollmentState(host, random);
      if state.Failure? {
        return Failure(state.error);
      }
      ghost var result;
      var ok: bool;
      ok, result := world.Save(SaveKind.Create, state.value);
      return if ok then state else Failure(SaveFailed);
    }

    method ReconcileIfPending(state: DeviceState) returns (r: Result<DeviceState, AgentError>)
      requires Valid() && Settled() && Holds(state) && (state.pendingRotation.Some? ==> state.endpoint != "")
      modifies world
      ensures Valid() && old(world.log) <= world.log
      ensures world.reliable ==> UsesNothingNew(old(world.sys), world.sys)
      ensures state.pendingRotation.None? ==> r == Success(state) && world.sys == old(world.sys)
      ensures r.Success? ==> Holds(r.value) && Settled() && r.value.pendingRotation.None? && r.value.endpoint == state.endpoint
      ensures r.Success? && state.pendingRotation.Some? ==> IsDurable()
      ensures r.Success? && state.pendingRotation.Some? ==> r.value == WithCandidatePromoted(state)
      ensures r == Failure(RotationRejected) ==>
                state.pendingRotation.Some? && Holds(WithoutCandidate(state)) && Settled() && IsDurable()
      ensures world.reliable ==> r.Success? || r == Failure(RotationRejected)
      ensures world.reliable ==> (r == Failure(RotationRejected) <==> CandidateRefused(old(world.sys), state))
    {
      if state.pendingRotation.None? {
        return Success(state);
      }
      r := ReconcilePendingRotation(state);
    }

    // ensureDeviceIdentity. A device that is enrolled, with nothing pending, is the one case in which it saves nothing.
    method EnsureDeviceIdentity(host: Host, random: Randomness, newEndpoint: string) returns (r: Result<Session, AgentError>)
      requires Valid() && Settled()
      modifies this, world
      ensures Valid() && old(world.log) <= world.log
      ensures r.Success? ==> Established(r.value)
      ensures r.Success? ==> r.value.state == Finished(StateAtStart(old(world.sys), host, random), r.value.state.endpoint)
      ensures r.Success? && (old(IsDurable()) || !IsFinished(old(world.sys).state.visible)) ==> IsDurable()
      ensures r.Success? && IsFinished(old(world.sys).state.visible) ==> Some(r.value.state) == old(world.sys).state.visible
      ensures r == Failure(RotationRejected) ==>
                && IsDurable()
                && old(world.sys).state.visible.Some? && old(world.sys).state.visible.value.pendingRotation.Some?
                && old(world.sys).state.visible.value.endpoint != ""
                && Holds(WithoutCandidate(old(world.sys).state.visible.value)) && Settled()
      ensures world.reliable && Recoverable(old(world.sys), old(Token()), host, random, newEndpoint) ==>
                r.Success? || r == Failure(RotationRejected)
      ensures world.reliable && old(world.sys).state.visible.Some? ==>
                (r == Failure(RotationRejected) <==> CandidateRefused(old(world.sys), old(world.sys).state.visible.value))
      ensures world.reliable ==> UsesOnlyDrawn(old(world.sys), world.sys, random)
    {
      var loaded := LoadOrCreate(host, random, newEndpoint);
      if loaded.Failure? {
        return Failure(loaded.error);
      }
      var reconciled := ReconcileIfPending(loaded.value);
      if reconciled.Failure? {
        return Failure(reconciled.error);
      }
      var state := reconciled.value;
      if state.endpoint == "" {
        r := FinishEnrollment(state, newEndpoint);
      } else {
        r := ConfirmEnrolled(state);
      }
    }

    // ensureDeviceIdentity called again once the control plane has refused a candidate
    method Recover(host: Host, random: Randomness, newEndpoint: string) returns (r: Result<Session, AgentError>, calls: nat)
      requires Valid() && Settled() && world.reliable
      requires Recoverable(world.sys, Token(), host, random, newEndpoint)
      modifies this, world
      ensures Valid() && old(world.log) <= world.log
      ensures r.Success? && Established(r.value)
      ensures old(IsDurable()) || !IsFinished(old(world.sys).state.visible) ==> IsDurable()
      ensures calls <= 2
      ensures calls == 2 ==>
                && HasPendingRotation(old(world.sys).state.visible)
                && r.value.state == WithoutCandidate(old(world.sys).state.visible.value)
    {
      r := EnsureDeviceIdentity(host, random, newEndpoint);
      calls := 1;
      if r == Failure(RotationRejected) {
        assert Recoverable(world.sys, Token(), host, random, newEndpoint);
        r := EnsureDeviceIdentity(host, random, newEndpoint);
        calls := 2;
      }
    }

    // rotateDeviceCredential, with the bytes drawn for the candidate
    method RotateDeviceCredential(host: Host, random: Randomness, newEndpoint: string, candidateId: seq<Byte>, candidateSecret: seq<Byte>)
      returns (r: Result<Session, AgentError>)
      requires Valid() && Settled() && |candidateId| == 24 && |candidateSecret| == 32
      modifies this, world
      ensures Valid() && old(world.log) <= world.log
      ensures r.Success? ==>
                && Established(r.value) && IsDurable()
                && r.value.state == Finished(StateAtStart(old(world.sys), host, random), r.value.state.endpoint)
                                    .(credential := GeneratedMaterial(candidateId, candidateSecret))
      ensures world.reliable && Recoverable(old(world.sys), old(Token()), host, random, newEndpoint)
              && IsNewDraw(old(world.sys), random, GeneratedMaterial(candidateId, candidateSecret)) ==>
                if HoldsRefusedCandidate(old(world.sys)) then r == Failure(RotationRejected) else r.Success?
    {
      var session := EnsureDeviceIdentity(host, random, newEndpoint);
      if session.Failure? {
        return session;
      }
      var state := session.value.state;
      var candidate := GeneratedMaterial(candidateId, candidateSecret);
      assert world.reliable && IsNewDraw(old(world.sys), random, candidate) ==> IsNewCredential(world.sys, candidate) by {
        if world.reliable && IsNewDraw(old(world.sys), random, candidate) {
          UndrawnStaysNew(old(world.sys), world.sys, random, candidate);
        }
      }
      if !IsNewCredential(world.sys, candidate) {
        return Failure(RandomUnavailable);
      }
      r := MintAndRotate(state, candidate);
    }

    // The part of rotateDeviceCredential that persists the candidate and installs it
    method MintAndRotate(state: DeviceState, candidate: Material) returns (r: Result<Session, AgentError>)
      requires Valid() && Settled() && Holds(state) && state.endpoint != "" && state.pendingRotation.None?
      requires IsNewCredential(world.sys, candidate)
      requires ForgetsSecrets() && (hasConfigPath ==> SecretsGone(world.sys.config.visible))
      modifies this, world
      ensures Valid() && old(world.log) <= world.log
      ensures r.Success? ==> Established(r.value) && IsDurable() && r.value.state == state.(credential := candidate)
      ensures world.reliable ==> r.Success?
    {
      var minted := WithCandidate(state, candidate);
      assert MaySave(world.sys, SaveKind.Mint, minted) && ValidDeviceState(minted) by {
        world.Invariant();
        NewCandidateMayBeMinted(world.sys, world.mode, state, candidate);
      }
      ghost var result;
      var ok: bool;
      ok, result := world.Save(SaveKind.Mint, minted);
      if !ok {
        return Failure(SaveFailed);
      }
      var reconciled := ReconcilePendingRotation(minted);
      if reconciled.Failure? {
        return Failure(reconciled.error);
      }
      r := ConfirmRotated(reconciled.value);
    }

    // The identity check that ends rotateDeviceCredential
    method ConfirmRotated(state: DeviceState) returns (r: Result<Session, AgentError>)
      requires Valid() && Settled() && Holds(state) && state.endpoint != "" && state.pendingRotation.None?
      requires ForgetsSecrets() && (hasConfigPath ==> SecretsGone(world.sys.config.visible))
      modifies world
      ensures Valid() && old(world.log) <= world.log
      ensures r.Success? ==> Established(r.value) && r.value.state == state
      ensures old(IsDurable()) ==> IsDurable()
      ensures world.reliable ==> r.Success?
    {
      var reply := FetchEnrolled(state, state.credential);
      world.Invariant();
      EnrolledStateIsWellFormed(world.sys, world.mode, state);
      if !reply.Ok? {
        return Failure(Unreachable);
      }
      if !Matches(reply.body, state, state.credential, world.sys.architecture) {
        return Failure(Mismatch);
      }
      return Success(Session(state, reply.body));
    }
  }

  ghost predicate IsCompleteIn(sys: Sys, s: DeviceState) {
    && sys.state.visible == Some(s)
    && s.endpoint != "" && s.pendingEnrollment.None? && s.pendingRotation.None?
    && IsActive(sys.server, s.endpoint, s.credential)
  }

  // How recovery may leave a device: complete, with the bootstrap secrets gone, after one call, or two if the first one
  // discarded the candidate of a pending rotation. Only a device that was finished, but unsynced, is left as durable as
  // it was.
  ghost predicate IsRecovered(before: Sys, after: Sys, s: DeviceState, hasConfigPath: bool, calls: nat) {
    && IsCompleteIn(after, s)
    && (hasConfigPath ==> SecretsGone(after.config.visible))
    && (before.state.Settled() || !IsFinished(before.state.visible) ==> after.state.Settled())
    && calls <= 2
    && (calls == 2 ==> HasPendingRotation(before.state.visible) && s == WithoutCandidate(before.state.visible.value))
  }

  // A run of the code whose power losses, if any, took nothing away that had been sent.
  ghost predicate IsReachedBy(start: Sys, run: seq<Action>, sys: Sys) {
    Initial(start) && sys == Exec(start, run) && Legal(start, run, Code) && HarmlessLosses(start, run)
  }

  // An agent started on a machine whose power holds and whose surroundings fail at nothing
  method StartedOn(ghost start: Sys, ghost run: seq<Action>, sys: Sys, hasConfigPath: bool) returns (agent: Agent)
    requires IsReachedBy(start, run, sys)
    ensures fresh(agent) && fresh(agent.world) && agent.Valid()
    ensures agent.world.mode == NoPowerLoss && agent.world.reliable && agent.world.sys == sys
    ensures agent.hasConfigPath == hasConfigPath && agent.Token() == LoadedToken(sys.config.visible)
  {
    SoundAfterHarmlessLosses(start, run);
    var world := new World(sys, NoPowerLoss, true);
    agent := new Agent(world, hasConfigPath);
  }

  method RecoverAndReport(agent: Agent, host: Host, random: Randomness, newEndpoint: string)
    returns (r: Result<Session, AgentError>, calls: nat, after: Sys)
    requires agent.Valid() && agent.Settled() && agent.world.reliable
    requires Recoverable(agent.world.sys, agent.Token(), host, random, newEndpoint)
    modifies agent, agent.world
    ensures r.Success? && IsRecovered(old(agent.world.sys), after, r.value.state, agent.hasConfigPath, calls)
  {
    r, calls := agent.Recover(host, random, newEndpoint);
    after := agent.world.sys;
  }

  // Recovery on its own: from whatever a run left, settled or not, the calls complete if the power holds while they last
  // and nothing else fails.
  method RecoverFromReachable(
    ghost start: Sys, ghost run: seq<Action>, sys: Sys, hasConfigPath: bool, host: Host, random: Randomness, newEndpoint: string)
    returns (r: Result<Session, AgentError>, calls: nat, after: Sys)
    requires IsReachedBy(start, run, sys)
    requires Recoverable(sys, LoadedToken(sys.config.visible), host, random, newEndpoint)
    ensures r.Success? && IsRecovered(sys, after, r.value.state, hasConfigPath, calls)
  {
    var agent := StartedOn(start, run, sys, hasConfigPath);
    assert agent.world.sys == sys && agent.hasConfigPath == hasConfigPath;
    r, calls, after := RecoverAndReport(agent, host, random, newEndpoint);
  }
}
