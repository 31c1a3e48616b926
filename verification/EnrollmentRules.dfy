/**
 What the control plane's three device requests may do, said of the tables, the bearer and the request alone: when an
 exchange enrolls, what it then writes, and which answer every other one gets; the same for rotation and the identity
 check.
 */
module EnrollmentRules {
  import opened Wrappers
  import opened CredentialText
  import opened IdentityServer
  import Text

  // ---- The bearer and the request ----

  // The bearer is the text of a stored token and of the secret stored with it.
  ghost predicate Proves(server: Server, bearer: string, token: string) {
    && IsTokenId(token) && token in server.tokens && IsCanonicalSecret(server.tokens[token].secret)
    && bearer == TokenText(token, server.tokens[token].secret)
  }

  lemma ProvenIsParsed(server: Server, bearer: string, token: string)
    ensures Proves(server, bearer, token) <==>
            && token in server.tokens
            && ParseEnrollmentToken(bearer) == Some((token, server.tokens[token].secret))
  {
    if token in server.tokens {
      ParsedTokenIff(bearer, token, server.tokens[token].secret);
    }
  }

  // A bearer proves at most one token.
  lemma ProvenTokenIsUnique(server: Server, bearer: string, token: string, other: string)
    requires Proves(server, bearer, token) && Proves(server, bearer, other)
    ensures token == other
  {
    ProvenIsParsed(server, bearer, token);
    ProvenIsParsed(server, bearer, other);
  }

  // The request as it is kept: white space around its four texts is dropped and the fingerprint is in lower case.
  ghost predicate IsKeptAs(request: EnrollmentRequest, kept: EnrollmentRequest) {
    && IsLowerTrimOf(request.fingerprint, kept.fingerprint)
    && Text.IsTrimOf(request.hostname, kept.hostname, Text.PYTHON_SPACE)
    && Text.IsTrimOf(request.platformVersion, kept.platformVersion, Text.PYTHON_SPACE)
    && Text.IsTrimOf(request.agentVersion, kept.agentVersion, Text.PYTHON_SPACE)
    && kept.installation == request.installation && kept.credential == request.credential
    && kept.platform == request.platform && kept.protocol == request.protocol && kept.architecture == request.architecture
  }

  ghost predicate IsLowerTrimOf(text: string, lower: string) {
    exists trimmed ::
      && Text.IsTrimOf(text, trimmed, Text.PYTHON_SPACE) && |lower| == |trimmed|
      && forall i | 0 <= i < |trimmed| ::
           lower[i] == if 'A' <= trimmed[i] <= 'Z' then trimmed[i] - 'A' + 'a' else trimmed[i]
  }

  lemma LowerTrimIff(text: string, lower: string)
    ensures lower == Text.Lower(Text.Strip(text, Text.PYTHON_SPACE)) <==> IsLowerTrimOf(text, lower)
  {
    var stripped := Text.Strip(text, Text.PYTHON_SPACE);
    Text.StripIff(text, stripped, Text.PYTHON_SPACE);
    if trimmed :| && Text.IsTrimOf(text, trimmed, Text.PYTHON_SPACE) && |lower| == |trimmed|
                  && forall i | 0 <= i < |trimmed| ::
                       lower[i] == if 'A' <= trimmed[i] <= 'Z' then trimmed[i] - 'A' + 'a' else trimmed[i] {
      Text.StripIff(text, trimmed, Text.PYTHON_SPACE);
      assert lower == Text.Lower(stripped);
    }
  }

  lemma KeptIff(request: EnrollmentRequest, kept: EnrollmentRequest)
    ensures kept == Normalized(request) <==> IsKeptAs(request, kept)
  {
    LowerTrimIff(request.fingerprint, kept.fingerprint);
    Text.StripIff(request.hostname, kept.hostname, Text.PYTHON_SPACE);
    Text.StripIff(request.platformVersion, kept.platformVersion, Text.PYTHON_SPACE);
    Text.StripIff(request.agentVersion, kept.agentVersion, Text.PYTHON_SPACE);
  }

  // ---- When an exchange enrolls ----

  predicate IsSupported(request: EnrollmentRequest) {
    Acceptable(request) && request.protocol == "sha-agent-v1"
  }

  predicate MayStillUse(token: TokenRow) {
    token.live && token.useCount < token.maxUses
  }

  predicate FitsPlatform(token: TokenRow, platform: string) {
    token.platform.None? || token.platform == Some(platform)
  }

  // Neither the installation nor the credential's identifier is known, and no endpoint has the fingerprint but a legacy
  // one of the token's scope on the same platform.
  ghost predicate IsUnclaimed(server: Server, token: TokenRow, request: EnrollmentRequest) {
    && (forall e | e in server.endpoints :: server.endpoints[e].installation != Some(request.installation))
    && request.credential.id !in server.credentials
    && (forall e | e in server.endpoints && IsLowerTrimOf(request.fingerprint, server.endpoints[e].fingerprint) ::
          IsLegacyOf(server.endpoints[e], token, request))
  }

  predicate IsLegacyOf(row: EndpointRow, token: TokenRow, request: EnrollmentRequest) {
    !row.device && row.scope == token.scope && row.platform == request.platform
  }

  lemma UnclaimedIff(server: Server, token: TokenRow, request: EnrollmentRequest)
    requires Consistent(server)
    ensures IsUnclaimed(server, token, request) <==>
            && request.installation !in server.installations && request.credential.id !in server.credentials
            && FingerprintFree(server, Normalized(request).fingerprint, token, request.platform)
  {
    InstallationIsTakenIff(server, request.installation);
    FingerprintIsFreeIff(server, token, request);
  }

  lemma InstallationIsTakenIff(server: Server, installation: string)
    requires Consistent(server)
    ensures installation in server.installations <==>
            exists e :: e in server.endpoints && server.endpoints[e].installation == Some(installation)
  {
    if installation in server.installations {
      assert server.installations[installation] in server.endpoints;
    }
  }

  lemma FingerprintIsFreeIff(server: Server, token: TokenRow, request: EnrollmentRequest)
    requires Consistent(server)
    ensures FingerprintFree(server, Normalized(request).fingerprint, token, request.platform) <==>
            forall e | e in server.endpoints && IsLowerTrimOf(request.fingerprint, server.endpoints[e].fingerprint) ::
              IsLegacyOf(server.endpoints[e], token, request)
  {
    var fingerprint := Normalized(request).fingerprint;
    LowerTrimIff(request.fingerprint, fingerprint);
    forall e | e in server.endpoints
      ensures IsLowerTrimOf(request.fingerprint, server.endpoints[e].fingerprint) <==>
              fingerprint in server.fingerprints && server.fingerprints[fingerprint] == e
    {
      LowerTrimIff(request.fingerprint, server.endpoints[e].fingerprint);
    }
  }

  // Under a token that still has uses, fits the platform and belongs to an active scope.
  ghost predicate Enrolls(server: Server, token: string, request: EnrollmentRequest) {
    && token in server.tokens
    && MayStillUse(server.tokens[token]) && FitsPlatform(server.tokens[token], request.platform)
    && server.tokens[token].scopeActive && IsUnclaimed(server, server.tokens[token], request)
  }

  lemma EnrollsIff(server: Server, token: string, request: EnrollmentRequest)
    requires Consistent(server)
    ensures Enrolls(server, token, request) <==> Redeemable(server, token, request)
  {
    if token in server.tokens {
      UnclaimedIff(server, server.tokens[token], request);
    }
  }

  // An exchange changes the tables exactly if the request is supported and the bearer proves a token it enrolls under.
  lemma ExchangeEnrollsIff(server: Server, bearer: string, request: EnrollmentRequest, newId: string)
    requires Consistent(server) && IsFresh(server, newId)
    ensures Exchange(server, bearer, request, newId).0 != server <==>
            IsSupported(request) && exists token :: Proves(server, bearer, token) && Enrolls(server, token, request)
  {
    ExchangeEffect(server, bearer, request, newId);
    if Exchange(server, bearer, request, newId).0 != server {
      var token := ParseEnrollmentToken(bearer).value.0;
      ProvenIsParsed(server, bearer, token);
      EnrollsIff(server, token, request);
    }
    if token :| IsSupported(request) && Proves(server, bearer, token) && Enrolls(server, token, request) {
      ProvenExchangeEnrolls(server, bearer, request, newId, token);
    }
  }

  lemma ProvenExchangeEnrolls(server: Server, bearer: string, request: EnrollmentRequest, newId: string, token: string)
    requires Consistent(server) && IsFresh(server, newId)
    requires IsSupported(request) && Proves(server, bearer, token) && Enrolls(server, token, request)
    ensures Exchange(server, bearer, request, newId).0 != server
  {
    ProvenIsParsed(server, bearer, token);
    EnrollsIff(server, token, request);
    RedeemableIsRedeemed(server, token, server.tokens[token].secret, request, newId);
    EnrollingChangesServer(server, token, request, newId);
  }

  // ---- What an enrollment writes ----

  // Only the row of `key` may be new or different.
  ghost predicate ChangesOnly<K, V>(before: map<K, V>, after: map<K, V>, key: K) {
    && after.Keys == before.Keys + {key}
    && forall k | k in before && k != key :: after[k] == before[k]
  }

  // The endpoint is the legacy one with the request's fingerprint, if there is one, and else has the new identifier.
  ghost predicate IsEnrolledAt(before: Server, request: EnrollmentRequest, newId: string, endpoint: string) {
    if exists e :: e in before.endpoints && IsLowerTrimOf(request.fingerprint, before.endpoints[e].fingerprint) then
      endpoint in before.endpoints && IsLowerTrimOf(request.fingerprint, before.endpoints[endpoint].fingerprint)
    else
      endpoint == newId
  }

  ghost predicate WritesEndpoint(row: EndpointRow, token: TokenRow, request: EnrollmentRequest) {
    && row.device && row.installation == Some(request.installation)
    && IsLowerTrimOf(request.fingerprint, row.fingerprint)
    && row.platform == request.platform && row.protocol == request.protocol && row.architecture == request.architecture
    && row.scope == token.scope
    && row.status == if token.approved then Approved else PendingApproval
  }

  ghost predicate WritesEnrollment(before: Server, after: Server, token: string, request: EnrollmentRequest, endpoint: string) {
    && token in before.tokens
    && ChangesOnly(before.endpoints, after.endpoints, endpoint)
    && WritesEndpoint(after.endpoints[endpoint], before.tokens[token], request)
    && ChangesOnly(before.credentials, after.credentials, request.credential.id)
    && after.credentials[request.credential.id] == CredentialRow(endpoint, request.credential.secret, Active)
    && ChangesOnly(before.tokens, after.tokens, token)
    && after.tokens[token] == before.tokens[token].(useCount := before.tokens[token].useCount + 1)
    && ChangesOnly(before.redemptions, after.redemptions, (token, request.installation))
    && var redemption := after.redemptions[(token, request.installation)];
       && redemption.endpoint == endpoint && redemption.credentialId == request.credential.id
       && IsKeptAs(request, redemption.request)
  }

  // Whenever an exchange changes the tables, it writes one endpoint, one credential, one redemption and one use.
  lemma ExchangeWrites(server: Server, bearer: string, request: EnrollmentRequest, newId: string)
    returns (token: string, endpoint: string)
    requires Consistent(server) && IsFresh(server, newId) && Exchange(server, bearer, request, newId).0 != server
    ensures Proves(server, bearer, token) && IsEnrolledAt(server, request, newId, endpoint)
    ensures WritesEnrollment(server, Exchange(server, bearer, request, newId).0, token, request, endpoint)
    ensures (token, request.installation) !in server.redemptions
  {
    ExchangeEffect(server, bearer, request, newId);
    token := ParseEnrollmentToken(bearer).value.0;
    endpoint := EnrolledEndpoint(server, request, newId);
    ProvenIsParsed(server, bearer, token);
    EnrolledEndpointIff(server, request, newId);
    UninstalledIsUnredeemed(server, request.installation, token);
    EnrolledWrites(server, token, request, newId);
  }

  lemma EnrolledWrites(server: Server, token: string, request: EnrollmentRequest, newId: string)
    requires token in server.tokens
    ensures WritesEnrollment(server, Enrolled(server, token, request, newId), token, request,
                             EnrolledEndpoint(server, request, newId))
  {
    var row, kept := EnrolledRow(request, server.tokens[token]), Normalized(request);
    KeptIff(request, kept);
    InstalledWrites(server, EnrolledEndpoint(server, request, newId), row, request, token, kept);
  }

  lemma EnrolledEndpointIff(server: Server, request: EnrollmentRequest, newId: string)
    requires Consistent(server)
    ensures IsEnrolledAt(server, request, newId, EnrolledEndpoint(server, request, newId))
  {
    var fingerprint := Normalized(request).fingerprint;
    LowerTrimIff(request.fingerprint, fingerprint);
    forall e | e in server.endpoints && IsLowerTrimOf(request.fingerprint, server.endpoints[e].fingerprint)
      ensures fingerprint in server.fingerprints
    {
      LowerTrimIff(request.fingerprint, server.endpoints[e].fingerprint);
    }
  }

  lemma InstalledWrites(
    server: Server, endpoint: string, row: EndpointRow, request: EnrollmentRequest, token: string, kept: EnrollmentRequest)
    requires token in server.tokens && WritesEndpoint(row, server.tokens[token], request) && IsKeptAs(request, kept)
    ensures WritesEnrollment(
              server, Installed(server, endpoint, row, request.installation, request.credential, token, kept), token, request, endpoint)
  {
    UpdateChangesOnly(server.endpoints, endpoint, row);
    UpdateChangesOnly(server.credentials, request.credential.id, CredentialRow(endpoint, request.credential.secret, Active));
    UpdateChangesOnly(server.tokens, token, server.tokens[token].(useCount := server.tokens[token].useCount + 1));
    UpdateChangesOnly(server.redemptions, (token, request.installation), Redemption(endpoint, request.credential.id, kept));
  }

  lemma UpdateChangesOnly<K, V>(table: map<K, V>, key: K, row: V)
    ensures ChangesOnly(table, table[key := row], key)
  {
  }

  // ---- Which answer an exchange gets ----

  // What was redeemed before under the token for this installation.
  predicate IsRedeemed(server: Server, token: string, request: EnrollmentRequest) {
    (token, request.installation) in server.redemptions
  }

  // The request repeats the one that was redeemed, and its credential is still active.
  ghost predicate Repeats(server: Server, token: string, request: EnrollmentRequest)
    requires IsRedeemed(server, token, request)
  {
    IsKeptAs(request, server.redemptions[(token, request.installation)].request)
  }

  ghost predicate StillActive(server: Server, token: string, request: EnrollmentRequest)
    requires IsRedeemed(server, token, request)
  {
    var redemption := server.redemptions[(token, request.installation)];
    redemption.credentialId == request.credential.id && IsActive(server, redemption.endpoint, request.credential)
  }

  // 422 and 426 before the bearer is looked at, and 401 for every bearer that proves no token.
  lemma UnprovenIsRefused(server: Server, bearer: string, request: EnrollmentRequest, newId: string)
    requires IsSupported(request) ==> forall token :: !Proves(server, bearer, token)
    ensures Exchange(server, bearer, request, newId) ==
            (server, Status(if !Acceptable(request) then 422 else if request.protocol != "sha-agent-v1" then 426 else 401))
  {
    if ParseEnrollmentToken(bearer).Some? {
      ProvenIsParsed(server, bearer, ParseEnrollmentToken(bearer).value.0);
    }
  }

  // Under a proven token, an installation redeemed before gets its identity again, 409 for another request and 401 for a
  // credential that is not active any more. Nothing is written.
  lemma RedeemedIsAnswered(server: Server, bearer: string, request: EnrollmentRequest, newId: string, token: string)
    requires Consistent(server) && IsSupported(request) && Proves(server, bearer, token) && IsRedeemed(server, token, request)
    ensures Exchange(server, bearer, request, newId).0 == server
    ensures Exchange(server, bearer, request, newId).1 ==
            if !Repeats(server, token, request) then Status(409)
            else if !StillActive(server, token, request) then Status(401)
            else Me(server, request.credential)
    ensures Repeats(server, token, request) && StillActive(server, token, request) ==> Me(server, request.credential).Ok?
  {
    ProvenIsParsed(server, bearer, token);
    var redemption := server.redemptions[(token, request.installation)];
    KeptIff(request, redemption.request);
    if RedeemedIdentity(server, redemption, request.credential).Ok? {
      AcceptedReplayAuthenticates(server, redemption, request.credential);
    }
  }

  // Under a proven token, an installation not redeemed before is enrolled or refused: 401 for a token that is revoked,
  // expired, used up or of an inactive scope, 422 for another platform, and 409 for anything that is claimed.
  lemma UnredeemedIsAnswered(server: Server, bearer: string, request: EnrollmentRequest, newId: string, token: string)
    requires Consistent(server) && IsFresh(server, newId)
    requires IsSupported(request) && Proves(server, bearer, token) && !IsRedeemed(server, token, request)
    ensures var row, (after, reply) := server.tokens[token], Exchange(server, bearer, request, newId);
            if !MayStillUse(row) then reply == Status(401) && after == server
            else if !FitsPlatform(row, request.platform) then reply == Status(422) && after == server
            else if !row.scopeActive then reply == Status(401) && after == server
            else if !IsUnclaimed(server, row, request) then reply == Status(409) && after == server
            else reply.Ok? && reply == Me(after, request.credential) && after != server
  {
    ProvenIsParsed(server, bearer, token);
    UnclaimedIff(server, server.tokens[token], request);
    if Redeemable(server, token, request) {
      RedeemableIsRedeemed(server, token, server.tokens[token].secret, request, newId);
      EnrollingChangesServer(server, token, request, newId);
      AcceptedExchangeAuthenticates(server, bearer, request, newId);
    }
  }

  // ---- The identity check ----

  ghost predicate Describes(identity: Identity, row: EndpointRow) {
    && identity.installation == row.installation && identity.device == row.device && identity.protocol == row.protocol
    && identity.architecture == row.architecture && identity.status == row.status
  }

  // The check passes exactly with an active credential, and then describes its endpoint; otherwise the answer is 401.
  lemma IdentityCheckIff(server: Server, m: Material)
    requires Consistent(server)
    ensures Me(server, m).Ok? <==> exists endpoint :: IsActive(server, endpoint, m)
    ensures !Me(server, m).Ok? ==> Me(server, m) == Status(401)
    ensures forall endpoint | IsActive(server, endpoint, m) ::
              && Me(server, m).Ok? && endpoint in server.endpoints
              && var identity := Me(server, m).body;
                 && identity.endpoint == endpoint && Describes(identity, server.endpoints[endpoint])
                 && identity.credentialId == m.id && identity.credentialEndpoint == endpoint && identity.credentialActive
  {
    if Me(server, m).Ok? {
      assert IsActive(server, Authenticate(server, m).value, m);
    }
  }

  // ---- Rotation ----

  ghost predicate WritesRotation(before: Server, after: Server, endpoint: string, bearer: Material, candidate: Material) {
    && after == before.(credentials := after.credentials)
    && after.credentials.Keys == before.credentials.Keys + {candidate.id}
    && (forall c | c in before.credentials && c != bearer.id :: after.credentials[c] == before.credentials[c])
    && after.credentials[candidate.id] == CredentialRow(endpoint, candidate.secret, Active)
    && bearer.id in before.credentials
    && after.credentials[bearer.id] == before.credentials[bearer.id].(status := Replaced)
  }

  lemma MovedWrites(server: Server, endpoint: string, bearer: Material, candidate: Material)
    requires bearer.id in server.credentials && server.credentials[bearer.id] == CredentialRow(endpoint, bearer.secret, Active)
    requires candidate.id !in server.credentials
    ensures WritesRotation(server, Rotated(server, endpoint, bearer, candidate), endpoint, bearer, candidate)
  {
  }

  // Only an active bearer rotates: a new valid candidate takes its place, its own candidate is confirmed again, and
  // everything else is refused with 422 or 409 and changes nothing.
  lemma RotateIsAnswered(server: Server, bearer: Material, candidate: Material, endpoint: string)
    requires Consistent(server) && IsActive(server, endpoint, bearer)
    ensures var (after, reply) := Rotate(server, bearer, candidate);
            if !IsCredentialId(candidate.id) || !IsCanonicalSecret(candidate.secret) then
              after == server && reply == Status(422)
            else if candidate.id !in server.credentials then
              WritesRotation(server, after, endpoint, bearer, candidate) && reply == Ok(CredentialReply(candidate.id, endpoint, true))
            else
              after == server && reply == if candidate == bearer then Ok(CredentialReply(bearer.id, endpoint, true)) else Status(409)
  {
    GoSecretsAreCanonical(candidate.secret);
    if candidate.id !in server.credentials {
      MovedWrites(server, endpoint, bearer, candidate);
    }
  }

  lemma InactiveBearerIsRefused(server: Server, bearer: Material, candidate: Material)
    requires Consistent(server) && forall endpoint :: !IsActive(server, endpoint, bearer)
    ensures Rotate(server, bearer, candidate) == (server, Status(401))
  {
    if Authenticate(server, bearer).Some? {
      assert IsActive(server, Authenticate(server, bearer).value, bearer);
    }
  }
}
