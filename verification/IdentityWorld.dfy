/**
 The agent's surroundings as an object: the system of IdentityProtocol with the steps taken so far. Every primitive
 may be preceded by any activity of the network, the server's other clients and the kernel. When the world is
 `reliable`, nothing fails and no other client interferes, though requests still in flight may arrive.
 */
module IdentityWorld {
  import opened Wrappers
  import opened DurableCell
  import opened CredentialText
  import opened IdentityServer
  import opened IdentityProtocol
  import opened IdentitySafety

  // ---- What surroundings keep ----

  // An active credential the device holds that no request in flight can replace.
  ghost predicate Pinned(sys: Sys, endpoint: string, m: Material) {
    && sys.state.visible.Some?
    && var s := sys.state.visible.value;
       && m in Held(s)
       && IsActive(sys.server, endpoint, m)
       && (m == s.credential && s.pendingRotation.Some? ==> s.pendingRotation.value.id in sys.server.credentials)
  }

  ghost predicate SameAgent(before: Sys, after: Sys) {
    && after.state.visible == before.state.visible && after.state.outcomes <= before.state.outcomes
    && after.config.visible == before.config.visible
    && after.net == before.net && after.architecture == before.architecture
    && after.mine == before.mine && after.minted == before.minted
  }

  ghost predicate ServerGrows(sys: Sys, server: Server) {
    && (forall c | c in sys.server.credentials :: c in server.credentials)
    && (forall i | i in sys.mine && i in sys.server.installations ::
          i in server.installations && server.installations[i] == sys.server.installations[i])
  }

  ghost predicate KeepsPinned(before: Sys, after: Sys) {
    forall endpoint, m | Pinned(before, endpoint, m) :: Pinned(after, endpoint, m)
  }

  // While enrollment is pending, the only thing a quiet network can do to the server is to complete it.
  ghost predicate OnlyCompletesEnrollment(before: Sys, after: Sys) {
    && (before.state.visible.None? ==> after.server == before.server)
    && (before.state.visible.Some? && before.state.visible.value.pendingEnrollment.Some? ==>
          var request := before.state.visible.value.pendingEnrollment.value;
          || after.server == before.server
          || (&& request.installation !in before.server.installations
              && exists token, newEndpoint ::
                   && Redeemable(before.server, token, request) && IsFresh(before.server, newEndpoint)
                   && after.server == Enrolled(before.server, token, request, newEndpoint)))
  }

  // No stored credential has the identifier, and the agent has generated none with it.
  ghost predicate IsUnused(sys: Sys, id: string) {
    id !in sys.server.credentials && forall m | m in sys.minted :: m.id != id
  }

  ghost predicate UsesNothingNew(before: Sys, after: Sys) {
    forall id | IsUnused(before, id) :: IsUnused(after, id)
  }

  // A candidate that is refused afterwards was refused before: the old credential was active, the identifier taken.
  ghost predicate RefusesNothing(before: Sys, after: Sys) {
    before.state.visible.Some? && before.state.visible.value.pendingRotation.Some? ==>
      forall endpoint | Pinned(after, endpoint, before.state.visible.value.credential) ::
        Pinned(before, endpoint, before.state.visible.value.credential)
  }

  ghost predicate Quiet(before: Sys, after: Sys) {
    OnlyCompletesEnrollment(before, after) && UsesNothingNew(before, after) && RefusesNothing(before, after)
  }

  ghost predicate Surroundings(before: Sys, after: Sys, reliable: bool) {
    && SameAgent(before, after)
    && ServerGrows(before, after.server)
    && KeepsPinned(before, after)
    && (reliable ==> Quiet(before, after))
  }

  predicate IsSurrounding(a: Action, reliable: bool) {
    a.Deliver? || a.WritebackState? || a.WritebackConfig? || (a.Others? && !reliable)
  }

  lemma SurroundingStep(sys: Sys, a: Action, mode: Mode, reliable: bool)
    requires Inv(sys, mode) && Enabled(sys, a, mode) && IsSurrounding(a, reliable)
    ensures Surroundings(sys, Apply(sys, a), reliable)
  {
    match a
    case WritebackState =>
    case WritebackConfig =>
    case Others(server) =>
      OthersKeepPinned(sys, Contents(sys, mode), server);
    case Deliver(message, newEndpoint) =>
      match message {
        case BootstrapRequest(token, request) => BootstrapStep(sys, Contents(sys, mode), token, request, newEndpoint);
        case RotateRequest(bearer, candidate) => RotateStep(sys, Contents(sys, mode), bearer, candidate, newEndpoint);
      }
  }

  lemma HeldIsMinted(sys: Sys, contents: States, m: Material)
    requires Core(sys, contents) && sys.state.visible in contents && sys.state.visible.Some?
    requires m in Held(sys.state.visible.value)
    ensures m in sys.minted
  {
    assert StateSound(sys.server, sys.mine, sys.minted, sys.architecture, sys.state.visible.value);
  }

  lemma OthersKeepPinned(sys: Sys, contents: States, server: Server)
    requires Core(sys, contents) && sys.state.visible in contents && LeavesMineAlone(sys, server)
    ensures ServerGrows(sys, server) && KeepsPinned(sys, sys.(server := server))
  {
    forall endpoint, m | Pinned(sys, endpoint, m) ensures Pinned(sys.(server := server), endpoint, m) {
      HeldIsMinted(sys, contents, m);
      RotatedEndpointIsMine(sys, contents, endpoint, m);
      var installation := sys.server.endpoints[endpoint].installation.value;
      assert installation in sys.mine && sys.server.installations[installation] == endpoint;
      assert IsMine(sys, endpoint);
      assert m.id in server.credentials && server.credentials[m.id].endpoint == endpoint;
    }
  }

  // A request that has not been redeemed is the one the device holds.
  lemma UnredeemedIsPending(sys: Sys, contents: States, token: string, request: EnrollmentRequest)
    requires Core(sys, contents) && sys.state.visible in contents && BootstrapRequest(token, request) in sys.net
    requires request.installation !in sys.server.installations
    ensures request.credential in sys.minted
    ensures sys.state.visible.Some?
    ensures sys.state.visible.value.pendingEnrollment == Some(request) && sys.state.visible.value.pendingRotation.None?
  {
    assert MessageSound(sys.server, sys.mine, sys.minted, sys.architecture, contents, BootstrapRequest(token, request));
    assert StateSound(sys.server, sys.mine, sys.minted, sys.architecture, sys.state.visible.value);
  }

  lemma BootstrapStep(sys: Sys, contents: States, token: string, request: EnrollmentRequest, newEndpoint: string)
    requires Core(sys, contents) && sys.state.visible in contents
    requires BootstrapRequest(token, request) in sys.net && MayHandle(sys.server, BootstrapRequest(token, request), newEndpoint)
    ensures Surroundings(sys, Apply(sys, Deliver(BootstrapRequest(token, request), newEndpoint)), true)
  {
    ExchangeEffect(sys.server, token, request, newEndpoint);
    var after := Exchange(sys.server, token, request, newEndpoint).0;
    ExchangeStep(sys, contents, token, request, newEndpoint, after);
    assert Apply(sys, Deliver(BootstrapRequest(token, request), newEndpoint)) == sys.(server := after);
  }

  lemma ExchangeStep(sys: Sys, contents: States, token: string, request: EnrollmentRequest, newEndpoint: string, after: Server)
    requires Core(sys, contents) && sys.state.visible in contents && BootstrapRequest(token, request) in sys.net
    requires after == sys.server
             || (&& ParseEnrollmentToken(token).Some? && IsFresh(sys.server, newEndpoint)
                 && var tokenId := ParseEnrollmentToken(token).value.0;
                    Redeemable(sys.server, tokenId, request) && after == Enrolled(sys.server, tokenId, request, newEndpoint))
    ensures Surroundings(sys, sys.(server := after), true)
  {
    if after == sys.server {
      SurroundingsReflexive(sys, true);
    } else {
      UnredeemedIsPending(sys, contents, token, request);
      CompletionStep(sys, ParseEnrollmentToken(token).value.0, request, newEndpoint);
    }
  }

  ghost predicate OnlyAdds(server: Server, after: Server) {
    && (forall c | c in server.credentials :: c in after.credentials && after.credentials[c] == server.credentials[c])
    && (forall i | i in server.installations :: i in after.installations && after.installations[i] == server.installations[i])
  }

  lemma EnrollingOnlyAdds(server: Server, token: string, request: EnrollmentRequest, newEndpoint: string)
    requires Redeemable(server, token, request)
    ensures OnlyAdds(server, Enrolled(server, token, request, newEndpoint))
  {
    InstallingOnlyAdds(server, EnrolledEndpoint(server, request, newEndpoint), EnrolledRow(request, server.tokens[token]),
                       request.installation, request.credential, token, Normalized(request));
  }

  lemma InstallingOnlyAdds(server: Server, endpoint: string, row: EndpointRow, installation: string, credential: Material,
                           token: string, request: EnrollmentRequest)
    requires token in server.tokens && installation !in server.installations && credential.id !in server.credentials
    ensures OnlyAdds(server, Installed(server, endpoint, row, installation, credential, token, request))
  {
  }

  lemma AdditionsKeepPinned(sys: Sys, server: Server)
    requires OnlyAdds(sys.server, server)
    ensures KeepsPinned(sys, sys.(server := server))
  {
  }

  lemma CompletionStep(sys: Sys, token: string, request: EnrollmentRequest, newEndpoint: string)
    requires sys.state.visible.Some? && sys.state.visible.value.pendingEnrollment == Some(request)
    requires sys.state.visible.value.pendingRotation.None? && request.credential in sys.minted
    requires Redeemable(sys.server, token, request) && IsFresh(sys.server, newEndpoint)
    ensures Surroundings(sys, sys.(server := Enrolled(sys.server, token, request, newEndpoint)), true)
  {
    EnrollingOnlyAdds(sys.server, token, request, newEndpoint);
    AdditionsKeepPinned(sys, Enrolled(sys.server, token, request, newEndpoint));
  }

  lemma RotateStep(sys: Sys, contents: States, bearer: Material, candidate: Material, newEndpoint: string)
    requires Core(sys, contents) && sys.state.visible in contents
    requires RotateRequest(bearer, candidate) in sys.net
    ensures Surroundings(sys, Apply(sys, Deliver(RotateRequest(bearer, candidate), newEndpoint)), true)
  {
    assert MessageSound(sys.server, sys.mine, sys.minted, sys.architecture, contents, RotateRequest(bearer, candidate));
    RotateEffect(sys.server, bearer, candidate);
    if Rotate(sys.server, bearer, candidate).0 != sys.server {
      var endpoint :| && IsActive(sys.server, endpoint, bearer) && candidate.id !in sys.server.credentials
                      && Rotate(sys.server, bearer, candidate).0 == Rotated(sys.server, endpoint, bearer, candidate);
      var s := sys.state.visible.value;
      assert StateSound(sys.server, sys.mine, sys.minted, sys.architecture, s);
      InstallerIsCurrent(sys, contents, endpoint, bearer, candidate);
      RotationStep(sys, endpoint, bearer, candidate);
    }
  }

  // Only the credential the device holds as its own can install the candidate it holds.
  lemma InstallerIsCurrent(sys: Sys, contents: States, endpoint: string, bearer: Material, candidate: Material)
    requires Core(sys, contents) && sys.state.visible in contents && sys.state.visible.Some?
    requires sys.state.visible.value.endpoint != "" && candidate in Held(sys.state.visible.value)
    requires bearer in sys.minted && candidate.id !in sys.server.credentials && IsActive(sys.server, endpoint, bearer)
    ensures bearer == sys.state.visible.value.credential
  {
    var s := sys.state.visible.value;
    assert StateSound(sys.server, sys.mine, sys.minted, sys.architecture, s);
    RotatedEndpointIsMine(sys, contents, endpoint, bearer);
    CoveredByCurrent(sys.server, sys.server.endpoints[endpoint].installation.value, s, bearer, candidate);
  }

  lemma CoveredByCurrent(server: Server, installation: string, s: DeviceState, bearer: Material, candidate: Material)
    requires installation in server.installations && Covers(server, installation, Some(s)) && OneActive(server.credentials)
    requires IsActive(server, server.installations[installation], bearer)
    requires candidate in Held(s) && candidate.id !in server.credentials && s.credential.id in server.credentials
    ensures bearer == s.credential
  {
  }

  lemma RotationStep(sys: Sys, endpoint: string, bearer: Material, candidate: Material)
    requires sys.state.visible.Some? && Distinct(sys.minted)
    requires var s := sys.state.visible.value;
             && s.pendingEnrollment.None? && s.credential.id in sys.server.credentials
             && Held(s) <= sys.minted && candidate in Held(s) && bearer == s.credential
    requires candidate.id !in sys.server.credentials && IsActive(sys.server, endpoint, bearer)
    ensures Surroundings(sys, sys.(server := Rotated(sys.server, endpoint, bearer, candidate)), true)
  {
    // A candidate that is still to be installed leaves nothing pinned.
    forall e, m ensures !Pinned(sys, e, m) {
      if Pinned(sys, e, m) {
        assert false;
      }
    }
  }

  lemma SurroundingsCompose(first: Sys, second: Sys, third: Sys, reliable: bool)
    requires Surroundings(first, second, reliable) && Surroundings(second, third, reliable)
    ensures Surroundings(first, third, reliable)
  {
  }

  lemma SurroundingsReflexive(sys: Sys, reliable: bool)
    ensures Surroundings(sys, sys, reliable)
  {
  }

  // What a save may bring into use: the credential of a new enrollment, the candidate of a rotation, and nothing else.
  ghost predicate UsesOnly(before: Sys, after: Sys, kind: SaveKind, content: DeviceState) {
    && (kind.Create? ==> forall id | IsUnused(before, id) && id != content.credential.id :: IsUnused(after, id))
    && (!kind.Create? && !kind.Mint? ==> UsesNothingNew(before, after))
  }

  lemma SaveUsesOnly(sys: Sys, mode: Mode, kind: SaveKind, content: DeviceState, result: SaveResult)
    requires Inv(sys, mode) && MaySave(sys, kind, content)
    ensures UsesOnly(sys, Apply(sys, Action.Save(kind, content, result)), kind, content)
  {
    if !kind.Create? && !kind.Mint? {
      var s := sys.state.visible.value;
      assert StateSound(sys.server, sys.mine, sys.minted, sys.architecture, s);
      assert Held(content) <= Held(s);
    }
  }

  predicate MaySurround(sys: Sys, a: Action, reliable: bool) {
    match a
    case Deliver(message, newEndpoint) => message in sys.net && MayHandle(sys.server, message, newEndpoint)
    case Others(server) => !reliable && LeavesMineAlone(sys, server)
    case WritebackState => true
    case WritebackConfig => true
    case _ => false
  }

  lemma WhatMaySurroundIsEnabled(sys: Sys, a: Action, mode: Mode, reliable: bool)
    requires MaySurround(sys, a, reliable)
    ensures Enabled(sys, a, mode) && IsSurrounding(a, reliable)
  {
  }

  // A legal run from a sound system.
  ghost predicate Leads(origin: Sys, log: seq<Action>, mode: Mode, sys: Sys) {
    Inv(origin, mode) && Legal(origin, log, mode) && Exec(origin, log) == sys
  }

  // The same. Quantifying over the runs that equal the log keeps the run out of proofs that do not ask for it.
  ghost predicate LedTo(origin: Sys, log: seq<Action>, mode: Mode, sys: Sys) {
    forall run {:trigger Leads(origin, run, mode, sys)} | run <= log && |run| == |log| :: Leads(origin, run, mode, sys)
  }

  lemma RunLeads(origin: Sys, log: seq<Action>, mode: Mode, sys: Sys)
    requires Leads(origin, log, mode, sys)
    ensures LedTo(origin, log, mode, sys)
  {
    forall run | run <= log && |run| == |log| ensures Leads(origin, run, mode, sys) {
      assert run == log;
    }
  }

  class World {
    ghost const origin: Sys
    ghost const mode: Mode
    const reliable: bool
    var sys: Sys
    ghost var log: seq<Action>

    // The current system is what a legal run from a sound one has led to.
    ghost predicate Valid() reads this {
      !mode.Code? && LedTo(origin, log, mode, sys)
    }

    constructor (start: Sys, ghost mode: Mode, reliable: bool)
      requires Inv(start, mode) && !mode.Code?
      ensures Valid() && sys == start && this.mode == mode && this.reliable == reliable
    {
      origin, this.mode, this.reliable, sys, log := start, mode, reliable, start, [];
      RunLeads(start, [], mode, start);
    }

    lemma Invariant()
      requires Valid()
      ensures Inv(sys, mode)
    {
      assert Leads(origin, log, mode, sys);
      ContinuationKeepsInvariant(origin, log, mode);
    }

    method Take(a: Action)
      requires Valid() && Enabled(sys, a, mode)
      modifies this
      ensures Valid() && sys == Apply(old(sys), a) && log == old(log) + [a]
    {
      assert Leads(origin, log, mode, sys);
      ExecStep(origin, log, a);
      sys := Apply(sys, a);
      log := log + [a];
      RunLeads(origin, log, mode, sys);
    }

    // Any number of steps of the surroundings.
    method Interfere()
      requires Valid()
      modifies this
      ensures Valid() && old(log) <= log && Surroundings(old(sys), sys, reliable)
    {
      SurroundingsReflexive(sys, reliable);
      var steps: nat := *;
      while steps > 0
        invariant Valid() && old(log) <= log && Surroundings(old(sys), sys, reliable)
      {
        var a: Action := *;
        if MaySurround(sys, a, reliable) {
          Invariant();
          WhatMaySurroundIsEnabled(sys, a, mode, reliable);
          SurroundingStep(sys, a, mode, reliable);
          SurroundingsCompose(old(sys), sys, Apply(sys, a), reliable);
          Take(a);
        }
        steps := steps - 1;
      }
    }

    // The power fails and comes back: whatever may survive is what the files hold from now on.
    method LosePower()
      requires Valid() && !mode.NoPowerLoss?
      modifies this
      ensures Valid() && old(log) <= log
      ensures sys.state.visible in old(sys).state.outcomes && sys.config.visible in old(sys).config.outcomes
      ensures sys.state.Settled() && sys.config.Settled() && sys.server == old(sys).server
    {
      Invariant();
      var survivor :| survivor in sys.state.outcomes;
      var survivingConfig :| survivingConfig in sys.config.outcomes;
      Take(PowerLoss(survivor, survivingConfig));
    }

    // stateStore.Load: None when the file cannot be read, otherwise what it shows.
    method Load() returns (loaded: Option<Option<DeviceState>>)
      ensures loaded == Some(sys.state.visible) || (!reliable && loaded == None)
    {
      var failed: bool := *;
      loaded := if failed && !reliable then None else Some(sys.state.visible);
    }

    // stateStore.Save: validates, then replaces the file.
    method Save(kind: SaveKind, content: DeviceState) returns (ok: bool, ghost result: SaveResult)
      requires Valid() && MaySave(sys, kind, content)
      modifies this
      ensures Valid() && old(log) <= log
      ensures ok ==> result == Saved
      ensures reliable && ValidDeviceState(content) ==> ok
      ensures sys == old(sys) || sys == Apply(old(sys), Action.Save(kind, content, result))
      ensures ok ==> sys == Apply(old(sys), Action.Save(kind, content, result))
      ensures UsesOnly(old(sys), sys, kind, content)
    {
      result := NotReplaced;
      if !ValidDeviceState(content) {
        return false, result;
      }
      var outcome: SaveResult := *;
      if reliable {
        outcome := Saved;
      }
      result := outcome;
      Invariant();
      SaveUsesOnly(sys, mode, kind, content, outcome);
      Take(Action.Save(kind, content, outcome));
      ok := outcome == Saved;
    }

    // clearBootstrapCredentialsFromConfig, once the file has been read and found to hold a secret.
    method RewriteConfig() returns (ok: bool, ghost result: SaveResult)
      requires Valid() && EndpointIsDurable(Contents(sys, mode))
      modifies this
      ensures Valid() && old(log) <= log
      ensures sys == Apply(old(sys), ClearConfig(result)) && (ok <==> result == Saved)
      ensures reliable ==> ok
    {
      var outcome: SaveResult := *;
      if reliable {
        outcome := Saved;
      }
      result := outcome;
      Take(ClearConfig(outcome));
      ok := outcome == Saved;
    }

    // GET /api/agent/me
    method Fetch(material: Material) returns (reply: Reply<Identity>)
      requires Valid()
      modifies this
      ensures Valid() && old(log) <= log && Surroundings(old(sys), sys, reliable)
      ensures reply == Me(sys.server, material) || (!reliable && reply == Lost)
    {
      Interfere();
      var lost: bool := *;
      reply := if lost && !reliable then Lost else Me(sys.server, material);
    }

    // Waits for an answer to a request in flight. `before` is the system when the server handles it, if it does.
    method Transmit(message: Message, newEndpoint: string) returns (answered: bool, before: Sys)
      requires Valid() && message in sys.net
      modifies this
      ensures Valid() && old(log) <= log
      ensures Surroundings(old(sys), before, reliable) && Inv(before, mode)
      ensures sys == before || sys == before.(server := Handle(before.server, message, newEndpoint))
      ensures answered ==>
                MayHandle(before.server, message, newEndpoint) && sys == before.(server := Handle(before.server, message, newEndpoint))
      ensures reliable && MayHandle(before.server, message, newEndpoint) ==> answered
      ensures reliable ==> UsesNothingNew(old(sys), sys)
    {
      Interfere();
      Invariant();
      before := sys;
      answered := false;
      var arrives: bool := *;
      if (arrives || reliable) && MayHandle(sys.server, message, newEndpoint) {
        answered := *;
        answered := answered || reliable;
        SurroundingStep(sys, Deliver(message, newEndpoint), mode, reliable);
        Take(Deliver(message, newEndpoint));
      }
    }

    // POST /api/agent/bootstrap
    method Bootstrap(token: string, newEndpoint: string) returns (reply: Reply<Identity>, ghost before: Sys)
      requires Valid() && CanSendBootstrap(sys) && BootstrapIsDurable(sys, Contents(sys, mode))
      modifies this
      ensures Valid() && old(log) <= log
      ensures Surroundings(Apply(old(sys), SendBootstrap(token)), before, reliable) && Inv(before, mode)
      ensures SameAgent(before, sys)
      ensures var message := BootstrapMessage(old(sys), token);
              && (reply != Lost ==>
                    && MayHandle(before.server, message, newEndpoint)
                    && reply == Exchange(before.server, token, message.request, newEndpoint).1
                    && sys == before.(server := Handle(before.server, message, newEndpoint)))
              && (reliable && MayHandle(before.server, message, newEndpoint) ==>
                    reply == Exchange(before.server, token, message.request, newEndpoint).1
                    && sys == before.(server := Handle(before.server, message, newEndpoint)))
      ensures reliable ==> UsesNothingNew(old(sys), sys)
    {
      var message := BootstrapMessage(sys, token);
      Take(SendBootstrap(token));
      var answered, seen := Transmit(message, newEndpoint);
      before := seen;
      reply := if answered then Exchange(seen.server, token, message.request, newEndpoint).1 else Lost;
    }

    // POST /api/agent/credentials/rotate
    method RotateCredential() returns (reply: Reply<CredentialReply>, ghost before: Sys)
      requires Valid() && CanSendRotate(sys) && CandidateIsDurable(sys, Contents(sys, mode))
      modifies this
      ensures Valid() && old(log) <= log
      ensures Surroundings(Apply(old(sys), SendRotate), before, reliable) && Inv(before, mode)
      ensures SameAgent(before, sys)
      ensures var s := old(sys).state.visible.value;
              && (reply != Lost ==>
                    && reply == Rotate(before.server, s.credential, s.pendingRotation.value).1
                    && sys == before.(server := Rotate(before.server, s.credential, s.pendingRotation.value).0))
              && (reliable ==> reply != Lost)
      ensures reliable ==> UsesNothingNew(old(sys), sys)
    {
      var message := RotateMessage(sys);
      Take(SendRotate);
      var answered, seen := Transmit(message, "");
      before := seen;
      reply := if answered then Rotate(seen.server, message.bearer, message.candidate).1 else Lost;
    }
  }
}
