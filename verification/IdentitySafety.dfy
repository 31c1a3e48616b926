/** What every step of the identity protocol keeps, and what follows for whole runs. */
module IdentitySafety {
  import opened Wrappers
  import opened DurableCell
  import opened CredentialText
  import opened IdentityServer
  import opened IdentityProtocol

  type States = set<Option<DeviceState>>

  // ---- The invariant, clause by clause ----

  ghost predicate ServerSound(server: Server, mine: set<string>, minted: set<Material>, architecture: string) {
    && Consistent(server)
    && (forall i | i in mine && i in server.installations ::
          var row := server.endpoints[server.installations[i]];
          row.device && row.protocol == PROTOCOL && row.architecture == architecture)
    && (forall m | m in minted && m.id in server.credentials && server.credentials[m.id].secret == m.secret ::
          var row := server.endpoints[server.credentials[m.id].endpoint];
          row.installation.Some? && row.installation.value in mine)
  }

  ghost predicate StateSound(server: Server, mine: set<string>, minted: set<Material>, architecture: string, s: DeviceState) {
    && ValidDeviceState(s)
    && s.installation in mine
    && Held(s) <= minted
    && (s.pendingEnrollment.Some? ==> s.pendingEnrollment.value.architecture == architecture)
    && (s.endpoint != "" ==>
          && s.installation in server.installations && server.installations[s.installation] == s.endpoint
          && s.credential.id in server.credentials)
  }

  ghost predicate AllSound(server: Server, mine: set<string>, minted: set<Material>, architecture: string, contents: States) {
    forall v | v in contents && v.Some? :: StateSound(server, mine, minted, architecture, v.value)
  }

  // A device with this state can still authenticate as the endpoint.
  ghost predicate Reaches(server: Server, endpoint: string, s: DeviceState) {
    || IsActive(server, endpoint, s.credential)
    || (s.pendingRotation.Some? && IsActive(server, endpoint, s.pendingRotation.value))
  }

  ghost predicate Covers(server: Server, installation: string, v: Option<DeviceState>)
    requires installation in server.installations
  {
    && v.Some?
    && v.value.installation == installation
    && (v.value.endpoint == "" || v.value.endpoint == server.installations[installation])
    && Reaches(server, server.installations[installation], v.value)
  }

  ghost predicate AllCovered(server: Server, mine: set<string>, contents: States) {
    forall i, v | i in mine && i in server.installations && v in contents :: Covers(server, i, v)
  }

  // Delivering a bootstrap request that has not been redeemed installs what every content still holds.
  ghost predicate BootstrapSound(
    server: Server, mine: set<string>, minted: set<Material>, architecture: string, contents: States, request: EnrollmentRequest) {
    && request.installation in mine && request.credential in minted
    && request.architecture == architecture
    && (request.installation !in server.installations ==>
          forall v | v in contents :: v.Some? && v.value.pendingEnrollment == Some(request))
  }

  // Delivering a rotation either cannot install its candidate any more, or installs one that every content holds.
  ghost predicate RotateSound(server: Server, minted: set<Material>, contents: States, bearer: Material, candidate: Material) {
    && bearer in minted && candidate in minted && bearer.id != candidate.id
    && (candidate.id !in server.credentials ==>
          forall v | v in contents :: v.Some? && v.value.endpoint != "" && candidate in Held(v.value))
  }

  ghost predicate NetSound(
    server: Server, net: set<Message>, mine: set<string>, minted: set<Material>, architecture: string, contents: States) {
    forall message | message in net :: MessageSound(server, mine, minted, architecture, contents, message)
  }

  ghost predicate MessageSound(
    server: Server, mine: set<string>, minted: set<Material>, architecture: string, contents: States, message: Message) {
    match message
    case BootstrapRequest(_, request) => BootstrapSound(server, mine, minted, architecture, contents, request)
    case RotateRequest(bearer, candidate) => RotateSound(server, minted, contents, bearer, candidate)
  }

  ghost predicate Distinct(minted: set<Material>) {
    forall m, n | m in minted && n in minted && m.id == n.id :: m == n
  }

  ghost predicate Core(sys: Sys, contents: States) {
    && ServerSound(sys.server, sys.mine, sys.minted, sys.architecture)
    && AllSound(sys.server, sys.mine, sys.minted, sys.architecture, contents)
    && AllCovered(sys.server, sys.mine, contents)
    && NetSound(sys.server, sys.net, sys.mine, sys.minted, sys.architecture, contents)
    && Distinct(sys.minted)
    && (sys.cleared ==> EndpointIsDurable(contents))
  }

  ghost predicate Inv(sys: Sys, mode: Mode) {
    && sys.state.Valid() && sys.config.Valid()
    && IsProtocolValue(sys.architecture)
    && Core(sys, Contents(sys, mode))
  }

  lemma FewerContents(sys: Sys, contents: States, fewer: States)
    requires Core(sys, contents) && fewer <= contents
    ensures Core(sys, fewer)
  {
    forall message | message in sys.net
      ensures MessageSound(sys.server, sys.mine, sys.minted, sys.architecture, fewer, message)
    {
      assert MessageSound(sys.server, sys.mine, sys.minted, sys.architecture, contents, message);
    }
  }

  // ---- Saves ----

  // The system after a save, as far as the invariant is concerned.
  ghost function Remembering(sys: Sys, content: DeviceState): Sys {
    sys.(mine := sys.mine + {content.installation}, minted := sys.minted + Held(content))
  }

  lemma RememberedMaterial(sys: Sys, content: DeviceState, minted: set<Material>)
    requires content.installation in sys.mine && Held(content) <= minted && sys.minted <= minted <= sys.minted + Held(content)
    ensures Remembering(sys, content) == sys.(minted := minted)
  {
    assert sys.mine + {content.installation} == sys.mine && sys.minted + Held(content) == minted;
  }

  lemma NewMaterialKeepsServerSound(
    server: Server, mine: set<string>, minted: set<Material>, architecture: string, material: Material)
    requires ServerSound(server, mine, minted, architecture) && material.id !in server.credentials
    ensures ServerSound(server, mine, minted + {material}, architecture)
  {
  }

  lemma NewInstallationKeepsServerSound(
    server: Server, mine: set<string>, minted: set<Material>, architecture: string, installation: string)
    requires ServerSound(server, mine, minted, architecture) && installation !in server.installations
    ensures ServerSound(server, mine + {installation}, minted, architecture)
  {
  }

  lemma NewMaterialIsDistinct(minted: set<Material>, material: Material)
    requires Distinct(minted) && forall m | m in minted :: m.id != material.id
    ensures Distinct(minted + {material})
  {
  }

  // More of the agent's own installations and credentials, and a further content.
  lemma ExtraContentIsSound(
    server: Server, mine: set<string>, minted: set<Material>, moreMine: set<string>, moreMinted: set<Material>,
    architecture: string, contents: States, content: DeviceState)
    requires AllSound(server, mine, minted, architecture, contents) && mine <= moreMine && minted <= moreMinted
    requires StateSound(server, moreMine, moreMinted, architecture, content)
    ensures AllSound(server, moreMine, moreMinted, architecture, contents + {Some(content)})
  {
    forall v | v in contents && v.Some? ensures StateSound(server, moreMine, moreMinted, architecture, v.value) {
      assert StateSound(server, mine, minted, architecture, v.value);
    }
  }

  // `content` covers whatever `s` covers.
  ghost predicate CoversAsMuch(server: Server, s: DeviceState, content: DeviceState) {
    forall i | i in server.installations && Covers(server, i, Some(s)) :: Covers(server, i, Some(content))
  }

  // `content` still holds what a request under way needs of `s`.
  ghost predicate HoldsAsMuch(server: Server, s: DeviceState, content: DeviceState) {
    && (s.pendingEnrollment.Some? && s.pendingEnrollment.value.installation !in server.installations ==>
          content.pendingEnrollment == s.pendingEnrollment)
    && (s.endpoint != "" ==>
          && content.endpoint != ""
          && forall m | m in Held(s) && m.id !in server.credentials :: m in Held(content))
  }

  lemma ExtraContentIsCovered(server: Server, mine: set<string>, contents: States, s: DeviceState, content: DeviceState)
    requires AllCovered(server, mine, contents) && Some(s) in contents && CoversAsMuch(server, s, content)
    ensures AllCovered(server, mine, contents + {Some(content)})
  {
    forall i | i in mine && i in server.installations ensures Covers(server, i, Some(content)) {
      assert Covers(server, i, Some(s));
    }
  }

  lemma ExtraContentKeepsMessage(
    server: Server, mine: set<string>, minted: set<Material>, more: set<Material>, architecture: string,
    contents: States, s: DeviceState, content: DeviceState, message: Message)
    requires MessageSound(server, mine, minted, architecture, contents, message) && minted <= more
    requires Some(s) in contents && HoldsAsMuch(server, s, content)
    ensures MessageSound(server, mine, more, architecture, contents + {Some(content)}, message)
  {
  }

  lemma ExtraContentKeepsNet(
    server: Server, net: set<Message>, mine: set<string>, minted: set<Material>, more: set<Material>,
    architecture: string, contents: States, s: DeviceState, content: DeviceState)
    requires NetSound(server, net, mine, minted, architecture, contents) && minted <= more
    requires Some(s) in contents && HoldsAsMuch(server, s, content)
    ensures NetSound(server, net, mine, more, architecture, contents + {Some(content)})
  {
    forall message | message in net ensures MessageSound(server, mine, more, architecture, contents + {Some(content)}, message) {
      ExtraContentKeepsMessage(server, mine, minted, more, architecture, contents, s, content, message);
    }
  }

  // Saving a content over one that it does no less than.
  lemma ExtraContentKeepsCore(sys: Sys, contents: States, s: DeviceState, content: DeviceState, minted: set<Material>)
    requires Core(sys, contents) && Some(s) in contents
    requires CoversAsMuch(sys.server, s, content) && HoldsAsMuch(sys.server, s, content)
    requires sys.minted <= minted
    requires ServerSound(sys.server, sys.mine, minted, sys.architecture) && Distinct(minted)
    requires StateSound(sys.server, sys.mine, minted, sys.architecture, content)
    ensures Core(sys.(minted := minted), contents + {Some(content)})
  {
    ExtraContentIsSound(sys.server, sys.mine, sys.minted, sys.mine, minted, sys.architecture, contents, content);
    ExtraContentIsCovered(sys.server, sys.mine, contents, s, content);
    ExtraContentKeepsNet(sys.server, sys.net, sys.mine, sys.minted, minted, sys.architecture, contents, s, content);
  }

  lemma CoveredContentExists(sys: Sys, contents: States, installation: string, v: Option<DeviceState>)
    requires Core(sys, contents) && v in contents && installation in sys.mine && installation in sys.server.installations
    ensures v.Some?
  {
    assert Covers(sys.server, installation, v);
  }

  lemma NothingSentYet(sys: Sys, contents: States)
    requires Core(sys, contents) && None in contents
    ensures forall i | i in sys.mine :: i !in sys.server.installations
    ensures forall message | message in sys.net ::
              message.RotateRequest? && message.candidate.id in sys.server.credentials
  {
    forall i | i in sys.mine ensures i !in sys.server.installations {
      if i in sys.server.installations {
        CoveredContentExists(sys, contents, i, None);
      }
    }
    forall message | message in sys.net
      ensures message.RotateRequest? && message.candidate.id in sys.server.credentials
    {
    }
  }

  // Rotations that can no longer take effect ask nothing of any content.
  lemma SpentNetIsSound(
    server: Server, net: set<Message>, mine: set<string>, minted: set<Material>, moreMine: set<string>,
    moreMinted: set<Material>, architecture: string, contents: States, more: States)
    requires NetSound(server, net, mine, minted, architecture, contents) && minted <= moreMinted
    requires forall message | message in net :: message.RotateRequest? && message.candidate.id in server.credentials
    ensures NetSound(server, net, moreMine, moreMinted, architecture, more)
  {
    forall message | message in net ensures MessageSound(server, moreMine, moreMinted, architecture, more, message) {
      assert MessageSound(server, mine, minted, architecture, contents, message);
    }
  }

  lemma CreatedContentIsSound(sys: Sys, contents: States, content: DeviceState, mine: set<string>, minted: set<Material>)
    requires Core(sys, contents) && MayCreate(sys, content)
    requires mine == sys.mine + {content.installation} && minted == sys.minted + {content.credential}
    ensures ServerSound(sys.server, mine, minted, sys.architecture) && Distinct(minted)
    ensures AllSound(sys.server, mine, minted, sys.architecture, contents + {Some(content)})
  {
    NewInstallationKeepsServerSound(sys.server, sys.mine, sys.minted, sys.architecture, content.installation);
    NewMaterialKeepsServerSound(sys.server, mine, sys.minted, sys.architecture, content.credential);
    NewMaterialIsDistinct(sys.minted, content.credential);
    ExtraContentIsSound(sys.server, sys.mine, sys.minted, mine, minted, sys.architecture, contents, content);
  }

  // Without a state file nothing of the agent's is installed and nothing it sent can change that.
  lemma CreatedContentIsCovered(sys: Sys, contents: States, content: DeviceState, mine: set<string>, minted: set<Material>)
    requires Core(sys, contents) && None in contents && MayCreate(sys, content)
    requires mine == sys.mine + {content.installation} && minted == sys.minted + {content.credential}
    ensures AllCovered(sys.server, mine, contents + {Some(content)})
    ensures NetSound(sys.server, sys.net, mine, minted, sys.architecture, contents + {Some(content)})
  {
    NothingSentYet(sys, contents);
    SpentNetIsSound(sys.server, sys.net, sys.mine, sys.minted, mine, minted, sys.architecture, contents,
                    contents + {Some(content)});
  }

  lemma CreateKeepsCore(sys: Sys, contents: States, content: DeviceState)
    requires Core(sys, contents) && sys.state.visible in contents && MayCreate(sys, content)
    ensures Core(Remembering(sys, content), contents + {Some(content)})
  {
    var mine, minted := sys.mine + {content.installation}, sys.minted + {content.credential};
    assert Held(content) == {content.credential};
    CreatedContentIsSound(sys, contents, content, mine, minted);
    CreatedContentIsCovered(sys, contents, content, mine, minted);
  }

  lemma PromotedEnrollmentDoesAsMuch(server: Server, s: DeviceState, content: DeviceState)
    requires ValidDeviceState(s) && s.endpoint == "" && content == s.(endpoint := content.endpoint, pendingEnrollment := None)
    requires s.installation in server.installations && server.installations[s.installation] == content.endpoint
    requires IsActive(server, content.endpoint, s.credential)
    ensures CoversAsMuch(server, s, content) && HoldsAsMuch(server, s, content) && Held(content) == Held(s)
  {
  }

  lemma PromoteEnrollmentKeepsCore(sys: Sys, contents: States, s: DeviceState, content: DeviceState)
    requires Core(sys, contents) && Some(s) in contents && MayPromoteEnrollment(sys, s, content)
    ensures Core(Remembering(sys, content), contents + {Some(content)})
  {
    assert StateSound(sys.server, sys.mine, sys.minted, sys.architecture, s);
    RememberedMaterial(sys, content, sys.minted);
    PromotedEnrollmentDoesAsMuch(sys.server, s, content);
    ExtraContentKeepsCore(sys, contents, s, content, sys.minted);
  }

  lemma MintKeepsCore(sys: Sys, contents: States, s: DeviceState, content: DeviceState)
    requires Core(sys, contents) && Some(s) in contents && MayMint(sys, s, content)
    ensures Core(Remembering(sys, content), contents + {Some(content)})
  {
    var candidate := content.pendingRotation.value;
    assert StateSound(sys.server, sys.mine, sys.minted, sys.architecture, s);
    RememberedMaterial(sys, content, sys.minted + {candidate});
    NewMaterialKeepsServerSound(sys.server, sys.mine, sys.minted, sys.architecture, candidate);
    NewMaterialIsDistinct(sys.minted, candidate);
    ExtraContentKeepsCore(sys, contents, s, content, sys.minted + {candidate});
  }

  lemma PromoteRotationKeepsCore(sys: Sys, contents: States, s: DeviceState, content: DeviceState)
    requires Core(sys, contents) && Some(s) in contents && MayPromoteRotation(sys, s, content)
    ensures Core(Remembering(sys, content), contents + {Some(content)})
  {
    assert StateSound(sys.server, sys.mine, sys.minted, sys.architecture, s);
    RememberedMaterial(sys, content, sys.minted);
    assert CoversAsMuch(sys.server, s, content) && HoldsAsMuch(sys.server, s, content);
    ExtraContentKeepsCore(sys, contents, s, content, sys.minted);
  }

  lemma DiscardKeepsCore(sys: Sys, contents: States, s: DeviceState, content: DeviceState)
    requires Core(sys, contents) && Some(s) in contents && MayDiscard(sys, s, content)
    ensures Core(Remembering(sys, content), contents + {Some(content)})
  {
    assert StateSound(sys.server, sys.mine, sys.minted, sys.architecture, s);
    RememberedMaterial(sys, content, sys.minted);
    assert CoversAsMuch(sys.server, s, content) && HoldsAsMuch(sys.server, s, content);
    ExtraContentKeepsCore(sys, contents, s, content, sys.minted);
  }

  lemma AllowedSaveKeepsCore(sys: Sys, contents: States, kind: SaveKind, content: DeviceState)
    requires Core(sys, contents) && sys.state.visible in contents && MaySave(sys, kind, content)
    ensures Core(Remembering(sys, content), contents + {Some(content)})
  {
    match kind
    case Create => CreateKeepsCore(sys, contents, content);
    case PromoteEnrollment => PromoteEnrollmentKeepsCore(sys, contents, sys.state.visible.value, content);
    case Mint => MintKeepsCore(sys, contents, sys.state.visible.value, content);
    case PromoteRotation => PromoteRotationKeepsCore(sys, contents, sys.state.visible.value, content);
    case Discard => DiscardKeepsCore(sys, contents, sys.state.visible.value, content);
  }

  lemma SaveKeepsInvariant(sys: Sys, kind: SaveKind, content: DeviceState, result: SaveResult, mode: Mode)
    requires Inv(sys, mode) && MaySave(sys, kind, content)
    ensures Inv(Apply(sys, Save(kind, content, result)), mode)
  {
    var contents := Contents(sys, mode);
    AllowedSaveKeepsCore(sys, contents, kind, content);
    var after := Apply(sys, Save(kind, content, result));
    assert Contents(after, mode) <= contents + {Some(content)};
    assert Core(after, contents + {Some(content)});
    FewerContents(after, contents + {Some(content)}, Contents(after, mode));
  }

  // ---- Sending ----

  lemma SoundMessageKeepsCore(sys: Sys, contents: States, message: Message)
    requires Core(sys, contents)
    requires MessageSound(sys.server, sys.mine, sys.minted, sys.architecture, contents, message)
    ensures Core(sys.(net := sys.net + {message}), contents)
  {
  }

  lemma SendBootstrapKeepsInvariant(sys: Sys, token: string, mode: Mode)
    requires Inv(sys, mode) && Enabled(sys, SendBootstrap(token), mode)
    ensures Inv(Apply(sys, SendBootstrap(token)), mode)
  {
    assert StateSound(sys.server, sys.mine, sys.minted, sys.architecture, sys.state.visible.value);
    SoundMessageKeepsCore(sys, Contents(sys, mode), BootstrapMessage(sys, token));
  }

  lemma SendRotateKeepsInvariant(sys: Sys, mode: Mode)
    requires Inv(sys, mode) && Enabled(sys, SendRotate, mode)
    ensures Inv(Apply(sys, SendRotate), mode)
  {
    assert StateSound(sys.server, sys.mine, sys.minted, sys.architecture, sys.state.visible.value);
    SoundMessageKeepsCore(sys, Contents(sys, mode), RotateMessage(sys));
  }

  // ---- The control plane handling a request ----

  lemma RotationKeepsInvariant(sys: Sys, bearer: Material, candidate: Material, newEndpoint: string, mode: Mode)
    requires Inv(sys, mode) && RotateRequest(bearer, candidate) in sys.net
    ensures Inv(Apply(sys, Deliver(RotateRequest(bearer, candidate), newEndpoint)), mode)
  {
    var contents, server := Contents(sys, mode), Rotate(sys.server, bearer, candidate).0;
    RotationKeepsCore(sys, contents, bearer, candidate, server);
    DeliveryKeepsInvariant(sys, RotateRequest(bearer, candidate), newEndpoint, server, mode);
  }

  lemma DeliveryKeepsInvariant(sys: Sys, message: Message, newEndpoint: string, server: Server, mode: Mode)
    requires Inv(sys, mode) && server == Handle(sys.server, message, newEndpoint)
    requires Core(sys.(server := server), Contents(sys, mode))
    ensures Inv(Apply(sys, Deliver(message, newEndpoint)), mode)
  {
  }

  lemma RotationKeepsCore(sys: Sys, contents: States, bearer: Material, candidate: Material, after: Server)
    requires Core(sys, contents) && RotateRequest(bearer, candidate) in sys.net
    requires after == Rotate(sys.server, bearer, candidate).0
    ensures Core(sys.(server := after), contents)
  {
    assert MessageSound(sys.server, sys.mine, sys.minted, sys.architecture, contents, RotateRequest(bearer, candidate));
    RotateEffect(sys.server, bearer, candidate);
    if after == sys.server {
      assert sys.(server := after) == sys;
    } else {
      var endpoint :| && IsActive(sys.server, endpoint, bearer) && candidate.id !in sys.server.credentials
                      && after == Rotated(sys.server, endpoint, bearer, candidate);
      RotatedKeepsCore(sys, contents, endpoint, bearer, candidate);
    }
  }

  // A rotation that takes effect does so on this agent's endpoint.
  lemma RotatedEndpointIsMine(sys: Sys, contents: States, endpoint: string, bearer: Material)
    requires Core(sys, contents) && IsActive(sys.server, endpoint, bearer) && bearer in sys.minted
    ensures endpoint in sys.server.endpoints
    ensures var row := sys.server.endpoints[endpoint];
            && row.installation.Some? && row.installation.value in sys.mine
            && row.installation.value in sys.server.installations
            && sys.server.installations[row.installation.value] == endpoint
  {
  }

  lemma RotatedServerIsSound(sys: Sys, contents: States, endpoint: string, bearer: Material, candidate: Material)
    requires Core(sys, contents) && IsActive(sys.server, endpoint, bearer) && candidate.id !in sys.server.credentials
    requires bearer in sys.minted && candidate in sys.minted
    ensures ServerSound(Rotated(sys.server, endpoint, bearer, candidate), sys.mine, sys.minted, sys.architecture)
  {
    RotatingKeepsConsistency(sys.server, endpoint, bearer, candidate);
    RotatedEndpointIsMine(sys, contents, endpoint, bearer);
    var after := Rotated(sys.server, endpoint, bearer, candidate);
    forall m | m in sys.minted && m.id in after.credentials && after.credentials[m.id].secret == m.secret
      ensures var row := after.endpoints[after.credentials[m.id].endpoint];
              row.installation.Some? && row.installation.value in sys.mine
    {
      if m.id != candidate.id {
        assert m.id in sys.server.credentials && sys.server.credentials[m.id].secret == m.secret;
      }
    }
  }

  lemma RotatedIsCovered(sys: Sys, contents: States, endpoint: string, bearer: Material, candidate: Material)
    requires Core(sys, contents) && IsActive(sys.server, endpoint, bearer) && candidate.id !in sys.server.credentials
    requires RotateSound(sys.server, sys.minted, contents, bearer, candidate)
    ensures AllCovered(Rotated(sys.server, endpoint, bearer, candidate), sys.mine, contents)
  {
    RotatedEndpointIsMine(sys, contents, endpoint, bearer);
    var after := Rotated(sys.server, endpoint, bearer, candidate);
    var installation := sys.server.endpoints[endpoint].installation.value;
    forall i, v | i in sys.mine && i in after.installations && v in contents ensures Covers(after, i, v) {
      OneInstallation(sys, contents, installation, i, v);
      RotatedCovers(sys.server, endpoint, bearer, candidate, i, v);
    }
  }

  lemma RotatedCovers(
    server: Server, endpoint: string, bearer: Material, candidate: Material, installation: string, v: Option<DeviceState>)
    requires installation in server.installations && server.installations[installation] == endpoint
    requires IsActive(server, endpoint, bearer) && candidate.id !in server.credentials
    requires Covers(server, installation, v) && candidate in Held(v.value)
    ensures Covers(Rotated(server, endpoint, bearer, candidate), installation, v)
  {
    assert IsActive(Rotated(server, endpoint, bearer, candidate), endpoint, candidate);
  }

  lemma OneInstallation(sys: Sys, contents: States, installation: string, i: string, v: Option<DeviceState>)
    requires AllCovered(sys.server, sys.mine, contents) && v in contents
    requires installation in sys.mine && installation in sys.server.installations
    requires i in sys.mine && i in sys.server.installations
    ensures i == installation && Covers(sys.server, i, v)
  {
    assert Covers(sys.server, i, v) && Covers(sys.server, installation, v);
  }

  lemma RotatedKeepsCore(sys: Sys, contents: States, endpoint: string, bearer: Material, candidate: Material)
    requires Core(sys, contents) && IsActive(sys.server, endpoint, bearer) && candidate.id !in sys.server.credentials
    requires RotateSound(sys.server, sys.minted, contents, bearer, candidate)
    ensures Core(sys.(server := Rotated(sys.server, endpoint, bearer, candidate)), contents)
  {
    RotatedServerIsSound(sys, contents, endpoint, bearer, candidate);
    RotatedIsCovered(sys, contents, endpoint, bearer, candidate);
    MoreCredentialsKeepRest(sys, contents, Rotated(sys.server, endpoint, bearer, candidate));
  }

  // The clauses about file contents and requests survive any change that only adds credentials and installations.
  lemma MoreCredentialsKeepRest(sys: Sys, contents: States, server: Server)
    requires Core(sys, contents)
    requires forall c | c in sys.server.credentials :: c in server.credentials
    requires forall i | i in sys.mine && i in sys.server.installations ::
               i in server.installations && server.installations[i] == sys.server.installations[i]
    ensures AllSound(server, sys.mine, sys.minted, sys.architecture, contents)
    ensures NetSound(server, sys.net, sys.mine, sys.minted, sys.architecture, contents)
  {
    forall v | v in contents && v.Some? ensures StateSound(server, sys.mine, sys.minted, sys.architecture, v.value) {
      assert StateSound(sys.server, sys.mine, sys.minted, sys.architecture, v.value);
    }
    forall message | message in sys.net
      ensures MessageSound(server, sys.mine, sys.minted, sys.architecture, contents, message)
    {
      assert MessageSound(sys.server, sys.mine, sys.minted, sys.architecture, contents, message);
    }
  }

  lemma BootstrapKeepsInvariant(sys: Sys, token: string, request: EnrollmentRequest, newEndpoint: string, mode: Mode)
    requires Inv(sys, mode) && BootstrapRequest(token, request) in sys.net
    requires MayHandle(sys.server, BootstrapRequest(token, request), newEndpoint)
    ensures Inv(Apply(sys, Deliver(BootstrapRequest(token, request), newEndpoint)), mode)
  {
    var contents, server := Contents(sys, mode), Exchange(sys.server, token, request, newEndpoint).0;
    ExchangeKeepsCore(sys, contents, token, request, newEndpoint, server);
    DeliveryKeepsInvariant(sys, BootstrapRequest(token, request), newEndpoint, server, mode);
  }

  lemma ExchangeKeepsCore(
    sys: Sys, contents: States, token: string, request: EnrollmentRequest, newEndpoint: string, after: Server)
    requires Core(sys, contents) && BootstrapRequest(token, request) in sys.net
    requires after == Exchange(sys.server, token, request, newEndpoint).0
    requires after == sys.server || IsFresh(sys.server, newEndpoint)
    ensures Core(sys.(server := after), contents)
  {
    assert MessageSound(sys.server, sys.mine, sys.minted, sys.architecture, contents, BootstrapRequest(token, request));
    ExchangeEffect(sys.server, token, request, newEndpoint);
    if after == sys.server {
      assert sys.(server := after) == sys;
    } else {
      EnrolledKeepsCore(sys, contents, ParseEnrollmentToken(token).value.0, request, newEndpoint);
    }
  }

  lemma EnrolledKeepsCore(sys: Sys, contents: States, tokenId: string, request: EnrollmentRequest, newEndpoint: string)
    requires Core(sys, contents) && IsFresh(sys.server, newEndpoint) && Redeemable(sys.server, tokenId, request)
    requires request.protocol == PROTOCOL
    requires BootstrapSound(sys.server, sys.mine, sys.minted, sys.architecture, contents, request)
    ensures Core(sys.(server := Enrolled(sys.server, tokenId, request, newEndpoint)), contents)
  {
    EnrollingKeepsConsistency(sys.server, tokenId, request, newEndpoint);
    EnrollingCanInstall(sys.server, tokenId, request, newEndpoint);
    InstalledKeepsCore(sys, contents, EnrolledEndpoint(sys.server, request, newEndpoint),
                       EnrolledRow(request, sys.server.tokens[tokenId]), request, tokenId, Normalized(request));
  }

  ghost predicate NewInstallation(
    sys: Sys, contents: States, endpoint: string, row: EndpointRow, request: EnrollmentRequest, token: string) {
    && Core(sys, contents) && token in sys.server.tokens
    && CanInstall(sys.server, endpoint, row, request.installation, request.credential)
    && row.protocol == PROTOCOL && row.architecture == request.architecture
    && BootstrapSound(sys.server, sys.mine, sys.minted, sys.architecture, contents, request)
  }

  lemma InstalledServerIsSound(
    sys: Sys, contents: States, endpoint: string, row: EndpointRow, request: EnrollmentRequest, token: string, kept: EnrollmentRequest)
    requires NewInstallation(sys, contents, endpoint, row, request, token)
    requires Consistent(Installed(sys.server, endpoint, row, request.installation, request.credential, token, kept))
    ensures ServerSound(Installed(sys.server, endpoint, row, request.installation, request.credential, token, kept),
                        sys.mine, sys.minted, sys.architecture)
  {
    assert forall c | c in sys.server.credentials :: sys.server.credentials[c].endpoint != endpoint;
    assert forall i | i in sys.mine && i in sys.server.installations :: sys.server.installations[i] != endpoint;
    InstalledRowsAreSound(sys, endpoint, row, request.installation, request.credential, token, kept);
    InstalledCredentialsAreMine(sys, endpoint, row, request.installation, request.credential, token, kept);
  }

  lemma InstalledRowsAreSound(sys: Sys, endpoint: string, row: EndpointRow, installation: string, credential: Material, token: string,
                              kept: EnrollmentRequest)
    requires token in sys.server.tokens
    requires row.device && row.protocol == PROTOCOL && row.architecture == sys.architecture
    requires forall i | i in sys.mine && i in sys.server.installations ::
               && sys.server.installations[i] != endpoint && sys.server.installations[i] in sys.server.endpoints
               && var row := sys.server.endpoints[sys.server.installations[i]];
                  row.device && row.protocol == PROTOCOL && row.architecture == sys.architecture
    ensures var after := Installed(sys.server, endpoint, row, installation, credential, token, kept);
            forall i | i in sys.mine && i in after.installations ::
              && after.installations[i] in after.endpoints
              && var row := after.endpoints[after.installations[i]];
                 row.device && row.protocol == PROTOCOL && row.architecture == sys.architecture
  {
  }

  lemma InstalledCredentialsAreMine(sys: Sys, endpoint: string, row: EndpointRow, installation: string, credential: Material,
                                    token: string, kept: EnrollmentRequest)
    requires token in sys.server.tokens && row.installation == Some(installation) && installation in sys.mine
    requires OwnedByDevices(sys.server.credentials, sys.server.endpoints)
    requires forall c | c in sys.server.credentials :: sys.server.credentials[c].endpoint != endpoint
    requires forall m | m in sys.minted && m.id in sys.server.credentials && sys.server.credentials[m.id].secret == m.secret ::
               var row := sys.server.endpoints[sys.server.credentials[m.id].endpoint];
               row.installation.Some? && row.installation.value in sys.mine
    ensures var after := Installed(sys.server, endpoint, row, installation, credential, token, kept);
            forall m | m in sys.minted && m.id in after.credentials && after.credentials[m.id].secret == m.secret ::
              && after.credentials[m.id].endpoint in after.endpoints
              && var row := after.endpoints[after.credentials[m.id].endpoint];
                 row.installation.Some? && row.installation.value in sys.mine
  {
  }

  lemma InstalledIsCovered(
    sys: Sys, contents: States, endpoint: string, row: EndpointRow, request: EnrollmentRequest, token: string, kept: EnrollmentRequest)
    requires NewInstallation(sys, contents, endpoint, row, request, token)
    ensures AllCovered(Installed(sys.server, endpoint, row, request.installation, request.credential, token, kept),
                       sys.mine, contents)
  {
    var after := Installed(sys.server, endpoint, row, request.installation, request.credential, token, kept);
    forall i, v | i in sys.mine && i in after.installations && v in contents ensures Covers(after, i, v) {
      assert v.Some? && v.value.pendingEnrollment == Some(request);
      assert StateSound(sys.server, sys.mine, sys.minted, sys.architecture, v.value);
      assert i in sys.server.installations ==> Covers(sys.server, i, v);
      assert i == request.installation;
      assert IsActive(after, endpoint, request.credential);
    }
  }

  lemma InstalledKeepsCore(
    sys: Sys, contents: States, endpoint: string, row: EndpointRow, request: EnrollmentRequest, token: string, kept: EnrollmentRequest)
    requires NewInstallation(sys, contents, endpoint, row, request, token)
    requires Consistent(Installed(sys.server, endpoint, row, request.installation, request.credential, token, kept))
    ensures Core(sys.(server := Installed(sys.server, endpoint, row, request.installation, request.credential, token, kept)), contents)
  {
    InstalledServerIsSound(sys, contents, endpoint, row, request, token, kept);
    InstalledIsCovered(sys, contents, endpoint, row, request, token, kept);
    MoreCredentialsKeepRest(sys, contents, Installed(sys.server, endpoint, row, request.installation, request.credential, token, kept));
  }

  // ---- Everyone else ----

  lemma OthersKeepServerSound(sys: Sys, server: Server)
    requires ServerSound(sys.server, sys.mine, sys.minted, sys.architecture) && LeavesMineAlone(sys, server)
    ensures ServerSound(server, sys.mine, sys.minted, sys.architecture)
  {
    forall m | m in sys.minted && m.id in server.credentials && server.credentials[m.id].secret == m.secret
      ensures var row := server.endpoints[server.credentials[m.id].endpoint];
              row.installation.Some? && row.installation.value in sys.mine
    {
      assert m == Material(m.id, server.credentials[m.id].secret);
      assert m.id in sys.server.credentials;
      var installation := sys.server.endpoints[sys.server.credentials[m.id].endpoint].installation.value;
      assert installation in sys.mine && installation in sys.server.installations;
    }
  }

  lemma OthersKeepCovered(sys: Sys, contents: States, server: Server)
    requires AllCovered(sys.server, sys.mine, contents) && LeavesMineAlone(sys, server)
    ensures AllCovered(server, sys.mine, contents)
  {
    forall i, v | i in sys.mine && i in server.installations && v in contents ensures Covers(server, i, v) {
      assert Covers(sys.server, i, v);
      var endpoint := server.installations[i];
      assert IsMine(sys, endpoint);
      forall m | IsActive(sys.server, endpoint, m) ensures IsActive(server, endpoint, m) {
        assert m.id in server.credentials && server.credentials[m.id].endpoint == endpoint;
      }
    }
  }

  lemma OthersKeepInvariant(sys: Sys, server: Server, mode: Mode)
    requires Inv(sys, mode) && LeavesMineAlone(sys, server)
    ensures Inv(Apply(sys, Others(server)), mode)
  {
    var contents := Contents(sys, mode);
    MoreCredentialsKeepRest(sys, contents, server);
    OthersKeepServerSound(sys, server);
    OthersKeepCovered(sys, contents, server);
  }

  // ---- The files on their own ----

  lemma FilesKeepInvariant(sys: Sys, a: Action, mode: Mode)
    requires Inv(sys, mode) && Enabled(sys, a, mode) && !mode.Code?
    requires a.ClearConfig? || a.WritebackState? || a.WritebackConfig? || a.PowerLoss?
    ensures Inv(Apply(sys, a), mode)
  {
    var after := Apply(sys, a);
    FewerContents(sys, Contents(sys, mode), Contents(after, mode));
    assert Core(after, Contents(after, mode));
  }

  // ---- Every step ----

  lemma StepKeepsInvariant(sys: Sys, a: Action, mode: Mode)
    requires Inv(sys, mode) && Enabled(sys, a, mode) && !mode.Code?
    ensures Inv(Apply(sys, a), mode)
  {
    match a
    case Save(kind, content, result) => SaveKeepsInvariant(sys, kind, content, result, mode);
    case SendBootstrap(token) => SendBootstrapKeepsInvariant(sys, token, mode);
    case SendRotate => SendRotateKeepsInvariant(sys, mode);
    case ClearConfig(_) => FilesKeepInvariant(sys, a, mode);
    case Deliver(message, newEndpoint) =>
      match message {
        case BootstrapRequest(token, request) => BootstrapKeepsInvariant(sys, token, request, newEndpoint, mode);
        case RotateRequest(bearer, candidate) => RotationKeepsInvariant(sys, bearer, candidate, newEndpoint, mode);
      }
    case Others(server) => OthersKeepInvariant(sys, server, mode);
    case WritebackState => FilesKeepInvariant(sys, a, mode);
    case WritebackConfig => FilesKeepInvariant(sys, a, mode);
    case PowerLoss(_, _) => FilesKeepInvariant(sys, a, mode);
  }

  lemma {:induction false} ContinuationKeepsInvariant(sys: Sys, run: seq<Action>, mode: Mode)
    requires Inv(sys, mode) && Legal(sys, run, mode) && !mode.Code?
    ensures Inv(Exec(sys, run), mode)
    decreases |run|
  {
    if run != [] {
      ContinuationKeepsInvariant(sys, run[..|run| - 1], mode);
      StepKeepsInvariant(Exec(sys, run[..|run| - 1]), run[|run| - 1], mode);
    }
  }

  lemma InitialIsSound(start: Sys, mode: Mode)
    requires Initial(start)
    ensures Inv(start, mode)
  {
  }

  lemma RunKeepsInvariant(start: Sys, run: seq<Action>, mode: Mode)
    requires Initial(start) && Legal(start, run, mode) && !mode.Code?
    ensures Inv(Exec(start, run), mode)
  {
    InitialIsSound(start, mode);
    ContinuationKeepsInvariant(start, run, mode);
  }
}
