/**
 The control plane's half of device identity: who a device credential authenticates, the enrollment exchange and
 credential rotation. Tables are maps from their primary keys; unique columns are kept as index maps. Hashes are
 injective, so a stored hash is modelled by the value that was hashed.
 */
module IdentityServer {
  import opened Wrappers
  import opened CredentialText
  import Text

  const PROTOCOL := "sha-agent-v1"

  datatype EnrollmentRequest = EnrollmentRequest(
    installation: string, credential: Material, fingerprint: string, hostname: string, platform: string,
    platformVersion: string, agentVersion: string, protocol: string, architecture: string)

  datatype Scope = Scope(client: string, location: string)

  // `live`: neither revoked nor expired. `scopeActive`: the token's client and location are active.
  datatype TokenRow = TokenRow(secret: string, live: bool, useCount: nat, maxUses: nat, platform: Option<string>,
                               scope: Scope, scopeActive: bool, approved: bool)

  datatype EndpointStatus = PendingApproval | Approved | Stale

  datatype EndpointRow = EndpointRow(fingerprint: string, installation: Option<string>, device: bool, platform: string,
                                     scope: Scope, protocol: string, architecture: string, status: EndpointStatus)

  datatype CredentialStatus = Active | Replaced | Revoked

  datatype CredentialRow = CredentialRow(endpoint: string, secret: string, status: CredentialStatus)

  datatype Redemption = Redemption(endpoint: string, credentialId: string, request: EnrollmentRequest)

  datatype Server = Server(
    tokens: map<string, TokenRow>,
    endpoints: map<string, EndpointRow>,
    installations: map<string, string>, // unique index: installation to endpoint
    fingerprints: map<string, string>, // unique index: fingerprint to endpoint
    credentials: map<string, CredentialRow>,
    redemptions: map<(string, string), Redemption>) // by token and installation

  datatype Identity = Identity(endpoint: string, installation: Option<string>, device: bool, protocol: string,
                               architecture: string, status: EndpointStatus,
                               credentialId: string, credentialEndpoint: string, credentialActive: bool)

  datatype CredentialReply = CredentialReply(credentialId: string, endpoint: string, active: bool)

  // An HTTP answer: a body, an error status, or no usable answer at all.
  datatype Reply<T> = Ok(body: T) | Status(code: nat) | Lost

  const UNAUTHORIZED := 401
  const CONFLICT := 409
  const UNPROCESSABLE := 422
  const UPGRADE_REQUIRED := 426

  ghost predicate IsActive(server: Server, endpoint: string, material: Material) {
    && material.id in server.credentials
    && server.credentials[material.id] == CredentialRow(endpoint, material.secret, Active)
  }

  // The constraints the database schema declares, and those the handlers maintain on top of them.
  predicate Consistent(server: Server) {
    && OwnedByDevices(server.credentials, server.endpoints)
    && OneActive(server.credentials)
    && RowsIndexed(server.endpoints, server.installations, server.fingerprints)
    && InstallationsIndexed(server.endpoints, server.installations)
    && FingerprintsIndexed(server.endpoints, server.fingerprints)
    && RedemptionsConsistent(server.redemptions, server.installations, server.credentials)
    && (forall e | e in server.endpoints :: IsEndpointId(e))
  }

  predicate OwnedByDevices(credentials: map<string, CredentialRow>, endpoints: map<string, EndpointRow>) {
    forall c | c in credentials :: credentials[c].endpoint in endpoints && endpoints[credentials[c].endpoint].device
  }

  predicate OneActive(credentials: map<string, CredentialRow>) {
    forall c, d | && c in credentials && d in credentials && credentials[c].status.Active? && credentials[d].status.Active?
                  && credentials[c].endpoint == credentials[d].endpoint :: c == d
  }

  predicate RowsIndexed(
    endpoints: map<string, EndpointRow>, installations: map<string, string>, fingerprints: map<string, string>) {
    forall e | e in endpoints ::
      var row := endpoints[e];
      && (!row.device ==> row.installation.None?)
      && (row.installation.Some? ==> row.installation.value in installations && installations[row.installation.value] == e)
      && row.fingerprint in fingerprints && fingerprints[row.fingerprint] == e
  }

  predicate InstallationsIndexed(endpoints: map<string, EndpointRow>, installations: map<string, string>) {
    forall i | i in installations :: installations[i] in endpoints && endpoints[installations[i]].installation == Some(i)
  }

  predicate FingerprintsIndexed(endpoints: map<string, EndpointRow>, fingerprints: map<string, string>) {
    forall f | f in fingerprints :: fingerprints[f] in endpoints && endpoints[fingerprints[f]].fingerprint == f
  }

  predicate RedemptionsConsistent(
    redemptions: map<(string, string), Redemption>, installations: map<string, string>, credentials: map<string, CredentialRow>) {
    && (forall k | k in redemptions ::
          var redemption := redemptions[k];
          && k.1 in installations && installations[k.1] == redemption.endpoint
          && redemption.credentialId in credentials
          && credentials[redemption.credentialId].endpoint == redemption.endpoint)
    && (forall k, l | k in redemptions && l in redemptions && k.1 == l.1 :: k == l)
  }

  // ---- Authentication and GET /api/agent/me ----

  function Authenticate(server: Server, material: Material): Option<string> {
    if && material.id in server.credentials
       && server.credentials[material.id].secret == material.secret
       && server.credentials[material.id].status.Active?
       && server.credentials[material.id].endpoint in server.endpoints
       && server.endpoints[server.credentials[material.id].endpoint].device
    then Some(server.credentials[material.id].endpoint) else None
  }

  function IdentityOf(server: Server, endpoint: string, credentialId: string): Identity
    requires endpoint in server.endpoints && credentialId in server.credentials
  {
    var row, credential := server.endpoints[endpoint], server.credentials[credentialId];
    Identity(endpoint, row.installation, row.device, row.protocol, row.architecture, row.status,
             credentialId, credential.endpoint, credential.status.Active?)
  }

  function Me(server: Server, material: Material): Reply<Identity> {
    match Authenticate(server, material)
    case None => Status(UNAUTHORIZED)
    case Some(endpoint) => Ok(IdentityOf(server, endpoint, material.id))
  }

  // ---- POST /api/agent/credentials/rotate ----

  function Rotate(server: Server, bearer: Material, candidate: Material): (Server, Reply<CredentialReply>) {
    match Authenticate(server, bearer)
    case None => (server, Status(UNAUTHORIZED))
    case Some(endpoint) =>
      if !ValidMaterial(candidate) then (server, Status(UNPROCESSABLE))
      else if candidate.id == bearer.id then
        if candidate.secret == bearer.secret then (server, Ok(CredentialReply(bearer.id, endpoint, true)))
        else (server, Status(CONFLICT))
      else if candidate.id in server.credentials then (server, Status(CONFLICT))
      else
        (Rotated(server, endpoint, bearer, candidate), Ok(CredentialReply(candidate.id, endpoint, true)))
  }

  function Rotated(server: Server, endpoint: string, bearer: Material, candidate: Material): Server {
    server.(credentials := Moved(server.credentials, endpoint, bearer, candidate))
  }

  function Moved(credentials: map<string, CredentialRow>, endpoint: string, bearer: Material, candidate: Material)
    : map<string, CredentialRow> {
    credentials[bearer.id := CredentialRow(endpoint, bearer.secret, Replaced)]
               [candidate.id := CredentialRow(endpoint, candidate.secret, Active)]
  }

  // ---- POST /api/agent/bootstrap ----

  predicate IsPlatform(platform: string) {
    platform == "linux" || platform == "windows" || platform == "macos"
  }

  predicate IsBoundedText(text: string, maximum: nat) {
    |text| <= maximum && !Text.Blank(text, Text.PYTHON_SPACE)
  }

  predicate IsProtocolValue(text: string) {
    && 1 <= |text| <= 32
    && (IsAlphanumericLower(text[0]))
    && (forall i | 1 <= i < |text| :: IsAlphanumericLower(text[i]) || text[i] == '.' || text[i] == '_' || text[i] == '-')
  }

  predicate IsAlphanumericLower(c: char) {
    'a' <= c <= 'z' || '0' <= c <= '9'
  }

  // The request schema and the normalisers; a request that fails them is answered 422.
  predicate Acceptable(request: EnrollmentRequest) {
    && IsInstallationId(request.installation)
    && IsCredentialId(request.credential.id) && BackendValidSecret(request.credential.secret)
    && IsBoundedText(request.fingerprint, 255) && IsBoundedText(request.hostname, 255)
    && IsPlatform(request.platform)
    && IsBoundedText(request.platformVersion, 255) && IsBoundedText(request.agentVersion, 64)
    && IsProtocolValue(request.protocol) && IsProtocolValue(request.architecture)
  }

  function Normalized(request: EnrollmentRequest): EnrollmentRequest {
    request.(fingerprint := Text.Lower(Text.Strip(request.fingerprint, Text.PYTHON_SPACE)),
             hostname := Text.Strip(request.hostname, Text.PYTHON_SPACE),
             platformVersion := Text.Strip(request.platformVersion, Text.PYTHON_SPACE),
             agentVersion := Text.Strip(request.agentVersion, Text.PYTHON_SPACE))
  }

  // An endpoint that already has the fingerprint blocks the exchange unless it is a legacy one of the same scope.
  predicate FingerprintFree(server: Server, fingerprint: string, token: TokenRow, platform: string) {
    fingerprint in server.fingerprints && server.fingerprints[fingerprint] in server.endpoints ==>
      var row := server.endpoints[server.fingerprints[fingerprint]];
      !row.device && row.scope == token.scope && row.platform == platform
  }

  function EnrolledRow(request: EnrollmentRequest, token: TokenRow): EndpointRow {
    EndpointRow(Normalized(request).fingerprint, Some(request.installation), true, request.platform, token.scope,
                request.protocol, request.architecture, if token.approved then Approved else PendingApproval)
  }

  // The state after a first exchange; a legacy endpoint with the same fingerprint is taken over, otherwise `newId`
  // is the new endpoint's identifier.
  function Enrolled(server: Server, tokenId: string, request: EnrollmentRequest, newId: string): Server
    requires tokenId in server.tokens
  {
    Installed(server, EnrolledEndpoint(server, request, newId), EnrolledRow(request, server.tokens[tokenId]),
              request.installation, request.credential, tokenId, Normalized(request))
  }

  function Installed(server: Server, endpoint: string, row: EndpointRow, installation: string, credential: Material,
                     token: string, request: EnrollmentRequest): Server
    requires token in server.tokens
  {
    Server(
      server.tokens[token := server.tokens[token].(useCount := server.tokens[token].useCount + 1)],
      server.endpoints[endpoint := row],
      server.installations[installation := endpoint],
      server.fingerprints[row.fingerprint := endpoint],
      server.credentials[credential.id := CredentialRow(endpoint, credential.secret, Active)],
      server.redemptions[(token, installation) := Redemption(endpoint, credential.id, request)])
  }

  function EnrolledEndpoint(server: Server, request: EnrollmentRequest, newId: string): string {
    var fingerprint := Normalized(request).fingerprint;
    if fingerprint in server.fingerprints then server.fingerprints[fingerprint] else newId
  }

  function Replay(server: Server, redemption: Redemption, request: EnrollmentRequest): Reply<Identity> {
    if Normalized(request) != redemption.request then Status(CONFLICT)
    else RedeemedIdentity(server, redemption, request.credential)
  }

  function RedeemedIdentity(server: Server, redemption: Redemption, credential: Material): Reply<Identity> {
    var id := redemption.credentialId;
    if && id in server.credentials && redemption.endpoint in server.endpoints
       && id == credential.id && server.credentials[id].status.Active?
       && server.credentials[id].secret == credential.secret
    then Ok(IdentityOf(server, redemption.endpoint, id))
    else Status(UNAUTHORIZED)
  }

  // Whether a first exchange of this request under this token goes through.
  predicate Redeemable(server: Server, tokenId: string, request: EnrollmentRequest) {
    && tokenId in server.tokens
    && var token := server.tokens[tokenId];
       && token.live && token.useCount < token.maxUses && token.scopeActive
       && (token.platform.Some? ==> token.platform.value == request.platform)
       && request.installation !in server.installations && request.credential.id !in server.credentials
       && FingerprintFree(server, Normalized(request).fingerprint, token, request.platform)
  }

  function Exchange(server: Server, bearer: string, request: EnrollmentRequest, newId: string): (Server, Reply<Identity>) {
    if !Acceptable(request) then (server, Status(UNPROCESSABLE))
    else if request.protocol != PROTOCOL then (server, Status(UPGRADE_REQUIRED))
    else
      match ParseEnrollmentToken(bearer)
      case None => (server, Status(UNAUTHORIZED))
      case Some((tokenId, secret)) => ExchangeUnder(server, tokenId, secret, request, newId)
  }

  // The exchange under a well-formed token.
  function ExchangeUnder(server: Server, tokenId: string, secret: string, request: EnrollmentRequest, newId: string)
    : (Server, Reply<Identity>)
  {
    if tokenId !in server.tokens || server.tokens[tokenId].secret != secret then (server, Status(UNAUTHORIZED))
    else if (tokenId, request.installation) in server.redemptions then
      (server, Replay(server, server.redemptions[(tokenId, request.installation)], request))
    else
      var token := server.tokens[tokenId];
      if !token.live || token.useCount >= token.maxUses then (server, Status(UNAUTHORIZED))
      else if token.platform.Some? && token.platform.value != request.platform then (server, Status(UNPROCESSABLE))
      else if !token.scopeActive then (server, Status(UNAUTHORIZED))
      else if request.installation in server.installations || request.credential.id in server.credentials then
        (server, Status(CONFLICT))
      else if !FingerprintFree(server, Normalized(request).fingerprint, token, request.platform) then
        (server, Status(CONFLICT))
      else
        var after := Enrolled(server, tokenId, request, newId);
        (after, Ok(IdentityOf(after, EnrolledEndpoint(server, request, newId), request.credential.id)))
  }

  predicate IsFresh(server: Server, endpoint: string) {
    IsEndpointId(endpoint) && endpoint !in server.endpoints
  }

  // ---- What the handlers keep ----

  lemma RotateEffect(server: Server, bearer: Material, candidate: Material)
    requires Consistent(server)
    ensures var after := Rotate(server, bearer, candidate).0;
            || after == server
            || (exists endpoint ::
                  && IsActive(server, endpoint, bearer) && candidate.id !in server.credentials
                  && after == Rotated(server, endpoint, bearer, candidate))
  {
    if Rotate(server, bearer, candidate).0 != server {
      var endpoint := Authenticate(server, bearer).value;
      assert IsActive(server, endpoint, bearer);
    }
  }

  lemma RotatingKeepsConsistency(server: Server, endpoint: string, bearer: Material, candidate: Material)
    requires Consistent(server) && IsActive(server, endpoint, bearer) && candidate.id !in server.credentials
    ensures Consistent(Rotated(server, endpoint, bearer, candidate))
    ensures IsActive(Rotated(server, endpoint, bearer, candidate), endpoint, candidate)
  {
    MovingKeepsCredentials(server.credentials, server.endpoints, endpoint, bearer, candidate);
    MovingKeepsRedemptions(server.credentials, server.installations, server.redemptions, endpoint, bearer, candidate);
  }

  lemma MovingKeepsCredentials(
    credentials: map<string, CredentialRow>, endpoints: map<string, EndpointRow>,
    endpoint: string, bearer: Material, candidate: Material)
    requires OwnedByDevices(credentials, endpoints) && OneActive(credentials)
    requires bearer.id in credentials && credentials[bearer.id] == CredentialRow(endpoint, bearer.secret, Active)
    requires candidate.id !in credentials
    ensures OwnedByDevices(Moved(credentials, endpoint, bearer, candidate), endpoints)
    ensures OneActive(Moved(credentials, endpoint, bearer, candidate))
  {
  }

  lemma MovingKeepsRedemptions(
    credentials: map<string, CredentialRow>, installations: map<string, string>, redemptions: map<(string, string), Redemption>,
    endpoint: string, bearer: Material, candidate: Material)
    requires RedemptionsConsistent(redemptions, installations, credentials)
    requires bearer.id in credentials && credentials[bearer.id].endpoint == endpoint && candidate.id !in credentials
    ensures RedemptionsConsistent(redemptions, installations, Moved(credentials, endpoint, bearer, candidate))
  {
    forall k | k in redemptions ensures redemptions[k].credentialId in credentials {}
  }

  lemma RotateKeepsConsistency(server: Server, bearer: Material, candidate: Material)
    requires Consistent(server)
    ensures Consistent(Rotate(server, bearer, candidate).0)
  {
    RotateEffect(server, bearer, candidate);
    var after := Rotate(server, bearer, candidate).0;
    if after != server {
      var endpoint :| && IsActive(server, endpoint, bearer) && candidate.id !in server.credentials
                      && after == Rotated(server, endpoint, bearer, candidate);
      RotatingKeepsConsistency(server, endpoint, bearer, candidate);
    }
  }

  // A rotation leaves either the old or the new credential active on the endpoint, never both and never neither.
  lemma RotateMovesTheActiveCredential(server: Server, bearer: Material, candidate: Material, endpoint: string)
    requires Consistent(server) && IsActive(server, endpoint, bearer) && ValidMaterial(candidate)
    ensures var (after, reply) := Rotate(server, bearer, candidate);
            && (reply.Ok? <==> IsActive(after, endpoint, candidate))
            && (IsActive(after, endpoint, bearer) <==> (reply.Status? || candidate == bearer))
            && (reply.Status? ==> reply.code == CONFLICT && after == server && candidate.id in server.credentials)
  {
  }

  lemma ExchangeEffect(server: Server, bearer: string, request: EnrollmentRequest, newId: string)
    ensures var after := Exchange(server, bearer, request, newId).0;
            || after == server
            || (&& ParseEnrollmentToken(bearer).Some? && request.protocol == PROTOCOL && Acceptable(request)
                && Redeemable(server, ParseEnrollmentToken(bearer).value.0, request)
                && after == Enrolled(server, ParseEnrollmentToken(bearer).value.0, request, newId))
  {
  }

  // The endpoint row is new, or takes over a legacy row with the same fingerprint.
  ghost predicate CanInstall(server: Server, endpoint: string, row: EndpointRow, installation: string, credential: Material) {
    && row.device && row.installation == Some(installation)
    && IsEndpointId(endpoint)
    && (endpoint in server.endpoints ==>
          !server.endpoints[endpoint].device && server.endpoints[endpoint].fingerprint == row.fingerprint)
    && (row.fingerprint in server.fingerprints ==> server.fingerprints[row.fingerprint] == endpoint)
    && installation !in server.installations && credential.id !in server.credentials
  }

  lemma EnrollingCanInstall(server: Server, tokenId: string, request: EnrollmentRequest, newId: string)
    requires Consistent(server) && IsFresh(server, newId) && Redeemable(server, tokenId, request)
    ensures CanInstall(server, EnrolledEndpoint(server, request, newId), EnrolledRow(request, server.tokens[tokenId]),
                       request.installation, request.credential)
  {
  }

  lemma InstallingKeepsCredentials(
    server: Server, endpoint: string, row: EndpointRow, installation: string, credential: Material,
    token: string, request: EnrollmentRequest)
    requires Consistent(server) && CanInstall(server, endpoint, row, installation, credential) && token in server.tokens
    ensures var after := Installed(server, endpoint, row, installation, credential, token, request);
            OwnedByDevices(after.credentials, after.endpoints) && OneActive(after.credentials)
  {
    assert forall c | c in server.credentials :: server.credentials[c].endpoint != endpoint;
  }

  lemma InstallingKeepsIndexes(
    server: Server, endpoint: string, row: EndpointRow, installation: string, credential: Material,
    token: string, request: EnrollmentRequest)
    requires Consistent(server) && CanInstall(server, endpoint, row, installation, credential) && token in server.tokens
    ensures var after := Installed(server, endpoint, row, installation, credential, token, request);
            InstallationsIndexed(after.endpoints, after.installations) && FingerprintsIndexed(after.endpoints, after.fingerprints)
  {
    forall i | i in server.installations ensures server.installations[i] != endpoint {}
    forall e | e in server.endpoints && e != endpoint ensures server.endpoints[e].fingerprint != row.fingerprint {}
  }

  lemma InstallingKeepsRows(
    server: Server, endpoint: string, row: EndpointRow, installation: string, credential: Material,
    token: string, request: EnrollmentRequest)
    requires Consistent(server) && CanInstall(server, endpoint, row, installation, credential) && token in server.tokens
    ensures var after := Installed(server, endpoint, row, installation, credential, token, request);
            RowsIndexed(after.endpoints, after.installations, after.fingerprints)
  {
    forall e | e in server.endpoints && e != endpoint ensures server.endpoints[e].fingerprint != row.fingerprint {}
  }

  lemma InstallingKeepsRedemptions(
    server: Server, endpoint: string, row: EndpointRow, installation: string, credential: Material,
    token: string, request: EnrollmentRequest)
    requires Consistent(server) && CanInstall(server, endpoint, row, installation, credential) && token in server.tokens
    ensures var after := Installed(server, endpoint, row, installation, credential, token, request);
            RedemptionsConsistent(after.redemptions, after.installations, after.credentials)
  {
    AddingKeepsRedemptions(server.redemptions, server.installations, server.credentials, (token, installation),
                           Redemption(endpoint, credential.id, request), CredentialRow(endpoint, credential.secret, Active));
  }

  lemma AddingKeepsRedemptions(
    redemptions: map<(string, string), Redemption>, installations: map<string, string>, credentials: map<string, CredentialRow>,
    key: (string, string), redemption: Redemption, row: CredentialRow)
    requires RedemptionsConsistent(redemptions, installations, credentials)
    requires key.1 !in installations && redemption.credentialId !in credentials && row.endpoint == redemption.endpoint
    ensures RedemptionsConsistent(redemptions[key := redemption], installations[key.1 := redemption.endpoint],
                                  credentials[redemption.credentialId := row])
  {
    forall k | k in redemptions ensures k.1 in installations && redemptions[k].credentialId in credentials {}
  }

  lemma UninstalledIsUnredeemed(server: Server, installation: string, token: string)
    requires Consistent(server) && installation !in server.installations
    ensures (token, installation) !in server.redemptions
  {
    assert (token, installation) in server.redemptions ==> (token, installation).1 in server.installations;
  }

  lemma EnrollingKeepsConsistency(server: Server, tokenId: string, request: EnrollmentRequest, newId: string)
    requires Consistent(server) && IsFresh(server, newId) && Redeemable(server, tokenId, request)
    ensures Consistent(Enrolled(server, tokenId, request, newId))
    ensures IsActive(Enrolled(server, tokenId, request, newId), EnrolledEndpoint(server, request, newId), request.credential)
    ensures (tokenId, request.installation) !in server.redemptions
  {
    var endpoint, row := EnrolledEndpoint(server, request, newId), EnrolledRow(request, server.tokens[tokenId]);
    EnrollingCanInstall(server, tokenId, request, newId);
    var kept := Normalized(request);
    InstallingKeepsCredentials(server, endpoint, row, request.installation, request.credential, tokenId, kept);
    InstallingKeepsRows(server, endpoint, row, request.installation, request.credential, tokenId, kept);
    InstallingKeepsIndexes(server, endpoint, row, request.installation, request.credential, tokenId, kept);
    InstallingKeepsRedemptions(server, endpoint, row, request.installation, request.credential, tokenId, kept);
    UninstalledIsUnredeemed(server, request.installation, tokenId);
  }

  lemma ExchangeKeepsConsistency(server: Server, bearer: string, request: EnrollmentRequest, newId: string)
    requires Consistent(server) && IsFresh(server, newId)
    ensures Consistent(Exchange(server, bearer, request, newId).0)
  {
    ExchangeEffect(server, bearer, request, newId);
    var after := Exchange(server, bearer, request, newId).0;
    if after != server {
      EnrollingKeepsConsistency(server, ParseEnrollmentToken(bearer).value.0, request, newId);
    }
  }

  ghost predicate SpendsOneUse(before: Server, after: Server, token: string, installation: string) {
    && token in before.tokens
    && (token, installation) !in before.redemptions
    && after.redemptions.Keys == before.redemptions.Keys + {(token, installation)}
    && after.tokens == before.tokens[token := before.tokens[token].(useCount := before.tokens[token].useCount + 1)]
    && after.tokens[token].useCount <= after.tokens[token].maxUses
  }

  // Token uses are conserved: each exchange that changes the tables adds one redemption and one use of its token.
  lemma ExchangeSpendsOneUse(server: Server, bearer: string, request: EnrollmentRequest, newId: string)
    requires Consistent(server) && IsFresh(server, newId)
    ensures var after := Exchange(server, bearer, request, newId).0;
            || after == server
            || (&& ParseEnrollmentToken(bearer).Some?
                && var (token, secret) := ParseEnrollmentToken(bearer).value;
                   SpendsOneUse(server, after, token, request.installation) && server.tokens[token].secret == secret)
  {
    ExchangeEffect(server, bearer, request, newId);
    var after := Exchange(server, bearer, request, newId).0;
    if after != server {
      var token := ParseEnrollmentToken(bearer).value.0;
      EnrollingSpendsOneUse(server, token, request, newId);
    }
  }

  lemma EnrollingSpendsOneUse(server: Server, token: string, request: EnrollmentRequest, newId: string)
    requires Consistent(server) && IsFresh(server, newId) && Redeemable(server, token, request)
    ensures SpendsOneUse(server, Enrolled(server, token, request, newId), token, request.installation)
  {
    EnrollingKeepsConsistency(server, token, request, newId);
    InstallingSpendsOneUse(server, EnrolledEndpoint(server, request, newId), EnrolledRow(request, server.tokens[token]),
                           request.installation, request.credential, token, Normalized(request));
  }

  lemma InstallingSpendsOneUse(
    server: Server, endpoint: string, row: EndpointRow, installation: string, credential: Material,
    token: string, request: EnrollmentRequest)
    requires token in server.tokens && server.tokens[token].useCount < server.tokens[token].maxUses
    requires (token, installation) !in server.redemptions
    ensures SpendsOneUse(server, Installed(server, endpoint, row, installation, credential, token, request), token, installation)
  {
  }

  // ---- Answers ----

  lemma RedeemableIsRedeemed(server: Server, tokenId: string, secret: string, request: EnrollmentRequest, newId: string)
    requires Consistent(server) && IsFresh(server, newId)
    requires Redeemable(server, tokenId, request) && server.tokens[tokenId].secret == secret
    ensures var (after, reply) := ExchangeUnder(server, tokenId, secret, request, newId);
            && after == Enrolled(server, tokenId, request, newId)
            && request.installation in after.installations && request.credential.id in after.credentials
            && after.installations[request.installation] in after.endpoints
            && reply == Ok(IdentityOf(after, after.installations[request.installation], request.credential.id))
  {
    EnrollingKeepsConsistency(server, tokenId, request, newId);
  }

  // If the same request was redeemed meanwhile, under this token or another, the answer is a replay or a conflict.
  lemma RedeemedIsReplayedOrRefused(
    server: Server, tokenId: string, secret: string, request: EnrollmentRequest, newId: string, other: string, otherId: string)
    requires Consistent(server) && IsFresh(server, otherId)
    requires Redeemable(server, tokenId, request) && server.tokens[tokenId].secret == secret
    requires Redeemable(server, other, request)
    ensures var redeemed, endpoint := Enrolled(server, other, request, otherId), EnrolledEndpoint(server, request, otherId);
            && endpoint in redeemed.endpoints && request.credential.id in redeemed.credentials
            && ExchangeUnder(redeemed, tokenId, secret, request, newId) ==
               (redeemed, if other == tokenId then Ok(IdentityOf(redeemed, endpoint, request.credential.id)) else Status(CONFLICT))
  {
    var redeemed := Enrolled(server, other, request, otherId);
    if other == tokenId {
      EnrollingKeepsConsistency(server, other, request, otherId);
      SameTokenReplays(redeemed, tokenId, secret, request, newId, EnrolledEndpoint(server, request, otherId));
    } else {
      OtherTokenStaysOpen(server, tokenId, request, other, otherId);
      OpenTokenOfInstalled(redeemed, tokenId, secret, request, newId);
    }
  }

  lemma OtherTokenStaysOpen(server: Server, tokenId: string, request: EnrollmentRequest, other: string, otherId: string)
    requires Consistent(server) && other in server.tokens && other != tokenId
    requires tokenId in server.tokens && request.installation !in server.installations
    ensures var redeemed := Enrolled(server, other, request, otherId);
            && tokenId in redeemed.tokens && redeemed.tokens[tokenId] == server.tokens[tokenId]
            && (tokenId, request.installation) !in redeemed.redemptions
            && request.installation in redeemed.installations
  {
    NotRedeemedYet(server, tokenId, request.installation);
    InstallingKeepsOtherTokens(server, EnrolledEndpoint(server, request, otherId), EnrolledRow(request, server.tokens[other]),
                               request.installation, request.credential, other, Normalized(request), tokenId);
  }

  lemma NotRedeemedYet(server: Server, tokenId: string, installation: string)
    requires Consistent(server) && installation !in server.installations
    ensures (tokenId, installation) !in server.redemptions
  {
    var key := (tokenId, installation);
    assert key in server.redemptions ==> key.1 in server.installations;
  }

  lemma InstallingKeepsOtherTokens(
    server: Server, endpoint: string, row: EndpointRow, installation: string, credential: Material, token: string,
    request: EnrollmentRequest, tokenId: string)
    requires token in server.tokens && tokenId in server.tokens && tokenId != token
    requires (tokenId, installation) !in server.redemptions
    ensures var redeemed := Installed(server, endpoint, row, installation, credential, token, request);
            && tokenId in redeemed.tokens && redeemed.tokens[tokenId] == server.tokens[tokenId]
            && (tokenId, installation) !in redeemed.redemptions
            && installation in redeemed.installations
  {
  }

  lemma SameTokenReplays(
    server: Server, tokenId: string, secret: string, request: EnrollmentRequest, newId: string, endpoint: string)
    requires tokenId in server.tokens && server.tokens[tokenId].secret == secret
    requires (tokenId, request.installation) in server.redemptions
    requires server.redemptions[(tokenId, request.installation)] == Redemption(endpoint, request.credential.id, Normalized(request))
    requires IsActive(server, endpoint, request.credential) && endpoint in server.endpoints
    ensures ExchangeUnder(server, tokenId, secret, request, newId) ==
            (server, Ok(IdentityOf(server, endpoint, request.credential.id)))
  {
    ReplayOfRedemption(server, endpoint, request);
  }

  lemma ReplayOfRedemption(server: Server, endpoint: string, request: EnrollmentRequest)
    requires IsActive(server, endpoint, request.credential) && endpoint in server.endpoints
    ensures Replay(server, Redemption(endpoint, request.credential.id, Normalized(request)), request) ==
            Ok(IdentityOf(server, endpoint, request.credential.id))
  {
  }

  lemma OpenTokenOfInstalled(server: Server, tokenId: string, secret: string, request: EnrollmentRequest, newId: string)
    requires tokenId in server.tokens && server.tokens[tokenId].secret == secret
    requires var token := server.tokens[tokenId];
             && token.live && token.useCount < token.maxUses && token.scopeActive
             && (token.platform.Some? ==> token.platform.value == request.platform)
    requires (tokenId, request.installation) !in server.redemptions && request.installation in server.installations
    ensures ExchangeUnder(server, tokenId, secret, request, newId) == (server, Status(CONFLICT))
  {
  }

  lemma EnrollingChangesServer(server: Server, tokenId: string, request: EnrollmentRequest, newId: string)
    requires tokenId in server.tokens
    ensures Enrolled(server, tokenId, request, newId) != server
  {
    assert Enrolled(server, tokenId, request, newId).tokens[tokenId].useCount == server.tokens[tokenId].useCount + 1;
  }

  // A successful exchange tells the device exactly what its next identity check will.
  lemma AcceptedExchangeAuthenticates(server: Server, bearer: string, request: EnrollmentRequest, newId: string)
    requires Consistent(server) && Exchange(server, bearer, request, newId).1.Ok?
    requires IsFresh(server, newId) || Exchange(server, bearer, request, newId).0 == server
    ensures var (after, reply) := Exchange(server, bearer, request, newId);
            reply == Me(after, request.credential)
  {
    var (tokenId, secret) := ParseEnrollmentToken(bearer).value;
    if (tokenId, request.installation) in server.redemptions {
      AcceptedReplayAuthenticates(server, server.redemptions[(tokenId, request.installation)], request.credential);
    } else {
      EnrollingChangesServer(server, tokenId, request, newId);
      EnrollingKeepsConsistency(server, tokenId, request, newId);
    }
  }

  lemma AcceptedReplayAuthenticates(server: Server, redemption: Redemption, credential: Material)
    requires OwnedByDevices(server.credentials, server.endpoints) && RedeemedIdentity(server, redemption, credential).Ok?
    requires server.credentials[redemption.credentialId].endpoint == redemption.endpoint
    ensures RedeemedIdentity(server, redemption, credential) == Me(server, credential)
  {
    assert Authenticate(server, credential) == Some(redemption.endpoint);
  }
}
