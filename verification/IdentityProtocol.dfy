/**
 Enrollment and credential rotation as a system of steps: the agent's two private files, the requests it has sent,
 the control plane, and everything that may interrupt them.

 Requests stay in `net` for ever and may be delivered at any time, any number of times, which covers lost, late and
 repeated requests. A power loss replaces both files by contents that may have survived; a crash of the process alone
 needs no step, because a run may stop following the agent's code after any step.
 */
module IdentityProtocol {
  import opened Wrappers
  import opened DurableCell
  import opened CredentialText
  import opened IdentityServer
  import Text

  const STATE_VERSION: nat := 1

  datatype DeviceState = DeviceState(
    version: nat, installation: string, endpoint: string, credential: Material,
    pendingEnrollment: Option<EnrollmentRequest>, pendingRotation: Option<Material>)

  predicate NotBlank(text: string) { !Text.Blank(text, Text.GO_SPACE) }

  // validateDeviceState
  predicate ValidDeviceState(s: DeviceState) {
    && s.version == STATE_VERSION
    && IsInstallationId(s.installation)
    && ValidMaterial(s.credential)
    && (if s.endpoint == "" then s.pendingEnrollment.Some? else IsEndpointId(s.endpoint) && s.pendingEnrollment.None?)
    && (s.pendingEnrollment.Some? ==> ValidPendingEnrollment(s, s.pendingEnrollment.value))
    && (s.pendingRotation.Some? ==>
          && s.endpoint != ""
          && ValidMaterial(s.pendingRotation.value)
          && s.pendingRotation.value.id != s.credential.id)
  }

  predicate ValidPendingEnrollment(s: DeviceState, request: EnrollmentRequest) {
    && request.installation == s.installation
    && request.credential == s.credential
    && NotBlank(request.fingerprint) && NotBlank(request.hostname) && IsPlatform(request.platform)
    && NotBlank(request.agentVersion)
    && request.protocol == PROTOCOL
    && IsProtocolValue(request.architecture)
  }

  // The agent's config file: the two bootstrap secrets and everything else.
  datatype ConfigFile = ConfigFile(enrollmentToken: Option<string>, apiToken: Option<string>, rest: map<string, string>)

  function WithoutBootstrapSecrets(config: ConfigFile): ConfigFile {
    config.(enrollmentToken := None, apiToken := None)
  }

  // The agent's two files
  datatype Files = Files(state: Option<DeviceState>, config: ConfigFile)

  datatype Message =
    | BootstrapRequest(token: string, request: EnrollmentRequest)
    | RotateRequest(bearer: Material, candidate: Material)

  datatype Sys = Sys(
    state: Cell<Option<DeviceState>>,
    config: Cell<ConfigFile>,
    server: Server,
    net: set<Message>,
    architecture: string, // the agent binary's own
    mine: set<string>, // installation identifiers this agent has generated
    minted: set<Material>, // credentials this agent has generated
    cleared: bool) // whether the config was ever replaced by one without the bootstrap secrets

  datatype SaveKind = Create | PromoteEnrollment | Mint | PromoteRotation | Discard

  datatype Action =
    | Save(kind: SaveKind, content: DeviceState, result: SaveResult)
    | SendBootstrap(token: string)
    | SendRotate
    | ClearConfig(saveResult: SaveResult)
    | Deliver(message: Message, newEndpoint: string)
    | Others(server: Server)
    | WritebackState
    | WritebackConfig
    | PowerLoss(survivor: Option<DeviceState>, survivingConfig: ConfigFile)

  // Which steps a run may take. `Code`: whatever the agent's code does. `NoPowerLoss`: the same on a machine that
  // never loses power. `WriteAhead`: the code, whenever what a request depends on cannot be lost any more.
  datatype Mode = Code | NoPowerLoss | WriteAhead

  // ---- Effects ----

  function CandidateSet(s: DeviceState): set<Material> {
    if s.pendingRotation.Some? then {s.pendingRotation.value} else {}
  }

  // The credentials a device with this state can authenticate with.
  function Held(s: DeviceState): set<Material> {
    {s.credential} + CandidateSet(s)
  }

  function Handle(server: Server, message: Message, newEndpoint: string): Server {
    match message
    case BootstrapRequest(token, request) => Exchange(server, token, request, newEndpoint).0
    case RotateRequest(bearer, candidate) => Rotate(server, bearer, candidate).0
  }

  function BootstrapMessage(sys: Sys, token: string): Message
    requires CanSendBootstrap(sys)
  {
    BootstrapRequest(token, sys.state.visible.value.pendingEnrollment.value)
  }

  function RotateMessage(sys: Sys): Message
    requires CanSendRotate(sys)
  {
    RotateRequest(sys.state.visible.value.credential, sys.state.visible.value.pendingRotation.value)
  }

  function Apply(sys: Sys, a: Action): Sys {
    match a
    case Save(_, content, result) =>
      sys.(state := AfterSave(sys.state, Some(content), result),
           mine := sys.mine + {content.installation},
           minted := sys.minted + Held(content))
    case SendBootstrap(token) =>
      if CanSendBootstrap(sys) then sys.(net := sys.net + {BootstrapMessage(sys, token)}) else sys
    case SendRotate =>
      if CanSendRotate(sys) then sys.(net := sys.net + {RotateMessage(sys)}) else sys
    case ClearConfig(result) =>
      sys.(config := AfterSave(sys.config, WithoutBootstrapSecrets(sys.config.visible), result),
           cleared := sys.cleared || !result.NotReplaced?)
    case Deliver(message, newEndpoint) => sys.(server := Handle(sys.server, message, newEndpoint))
    case Others(server) => sys.(server := server)
    case WritebackState => sys.(state := AfterWriteback(sys.state))
    case WritebackConfig => sys.(config := AfterWriteback(sys.config))
    case PowerLoss(survivor, survivingConfig) =>
      sys.(state := AfterPowerLoss(survivor), config := AfterPowerLoss(survivingConfig))
  }

  // ---- When a step may happen ----

  predicate CanSendBootstrap(sys: Sys) {
    && sys.state.visible.Some?
    && sys.state.visible.value.endpoint == ""
    && sys.state.visible.value.pendingEnrollment.Some?
  }

  predicate CanSendRotate(sys: Sys) {
    sys.state.visible.Some? && sys.state.visible.value.pendingRotation.Some?
  }

  // The credential is new: random, so unlike any credential this agent generated or the server has stored.
  predicate IsNewCredential(sys: Sys, material: Material) {
    && ValidMaterial(material)
    && material.id !in sys.server.credentials
    && (forall m | m in sys.minted :: m.id != material.id)
  }

  ghost predicate MayCreate(sys: Sys, content: DeviceState) {
    && sys.state.visible.None?
    && ValidDeviceState(content) && content.endpoint == "" && content.pendingRotation.None?
    && content.pendingEnrollment.value.architecture == sys.architecture
    && content.installation !in sys.mine && content.installation !in sys.server.installations
    && IsNewCredential(sys, content.credential)
  }

  // The control plane has confirmed the enrollment.
  ghost predicate MayPromoteEnrollment(sys: Sys, s: DeviceState, content: DeviceState) {
    && s.endpoint == ""
    && content == s.(endpoint := content.endpoint, pendingEnrollment := None)
    && s.installation in sys.server.installations && sys.server.installations[s.installation] == content.endpoint
    && IsActive(sys.server, content.endpoint, s.credential)
  }

  ghost predicate MayMint(sys: Sys, s: DeviceState, content: DeviceState) {
    && s.endpoint != "" && s.pendingRotation.None? && content.pendingRotation.Some?
    && content == s.(pendingRotation := content.pendingRotation)
    && IsNewCredential(sys, content.pendingRotation.value)
  }

  // The control plane has confirmed the candidate.
  ghost predicate MayPromoteRotation(sys: Sys, s: DeviceState, content: DeviceState) {
    && s.pendingRotation.Some?
    && content == s.(credential := s.pendingRotation.value, pendingRotation := None)
    && IsActive(sys.server, s.endpoint, s.pendingRotation.value)
  }

  // The control plane has answered 409: the candidate's identifier is taken while the old credential is active.
  ghost predicate MayDiscard(sys: Sys, s: DeviceState, content: DeviceState) {
    && s.pendingRotation.Some?
    && content == s.(pendingRotation := None)
    && s.pendingRotation.value.id in sys.server.credentials
    && IsActive(sys.server, s.endpoint, s.credential)
  }

  ghost predicate MaySave(sys: Sys, kind: SaveKind, content: DeviceState) {
    if kind.Create? then MayCreate(sys, content)
    else
      && sys.state.visible.Some?
      && var s := sys.state.visible.value;
         match kind
         case Create => true
         case PromoteEnrollment => MayPromoteEnrollment(sys, s, content)
         case Mint => MayMint(sys, s, content)
         case PromoteRotation => MayPromoteRotation(sys, s, content)
         case Discard => MayDiscard(sys, s, content)
  }

  // The contents of the state file that count: those that may survive, or only the one a reader sees.
  ghost function Contents(sys: Sys, mode: Mode): set<Option<DeviceState>> {
    if mode.WriteAhead? then sys.state.outcomes else {sys.state.visible}
  }

  ghost predicate BootstrapIsDurable(sys: Sys, contents: set<Option<DeviceState>>)
    requires CanSendBootstrap(sys)
  {
    forall v | v in contents ::
      v.Some? && v.value.pendingEnrollment == sys.state.visible.value.pendingEnrollment
  }

  ghost predicate CandidateIsDurable(sys: Sys, contents: set<Option<DeviceState>>)
    requires CanSendRotate(sys)
  {
    forall v | v in contents ::
      v.Some? && v.value.endpoint != "" && sys.state.visible.value.pendingRotation.value in Held(v.value)
  }

  ghost predicate EndpointIsDurable(contents: set<Option<DeviceState>>) {
    forall v | v in contents :: v.Some? && v.value.endpoint != ""
  }

  // What other devices and operators may do to the tables: anything that leaves this agent's rows alone. They cannot
  // guess this agent's secrets, and they neither revoke nor delete its endpoint or credentials.
  predicate LeavesMineAlone(sys: Sys, server: Server) {
    && Consistent(server)
    && (forall i | i in sys.mine ::
          && (i in server.installations <==> i in sys.server.installations)
          && (i in server.installations ==>
                && server.installations[i] == sys.server.installations[i]
                && server.installations[i] in server.endpoints && server.installations[i] in sys.server.endpoints
                && server.endpoints[server.installations[i]].(status := Approved) ==
                   sys.server.endpoints[server.installations[i]].(status := Approved)))
    && (forall c | c in sys.server.credentials ::
          && c in server.credentials
          && server.credentials[c].endpoint == sys.server.credentials[c].endpoint
          && server.credentials[c].secret == sys.server.credentials[c].secret)
    && (forall c | c in server.credentials ::
          && (IsMine(sys, server.credentials[c].endpoint) ==>
                c in sys.server.credentials && server.credentials[c] == sys.server.credentials[c])
          && (c !in sys.server.credentials ==> forall m | m in sys.minted :: m != Material(c, server.credentials[c].secret)))
  }

  predicate IsMine(sys: Sys, endpoint: string) {
    exists i :: i in sys.mine && i in sys.server.installations && sys.server.installations[i] == endpoint
  }

  // A request that creates an endpoint gets an identifier that is not in use.
  predicate MayHandle(server: Server, message: Message, newEndpoint: string) {
    IsFresh(server, newEndpoint) || Handle(server, message, newEndpoint) == server || message.RotateRequest?
  }

  ghost predicate Enabled(sys: Sys, a: Action, mode: Mode) {
    match a
    case Save(kind, content, _) => MaySave(sys, kind, content)
    case SendBootstrap(_) => CanSendBootstrap(sys) && BootstrapIsDurable(sys, Contents(sys, mode))
    case SendRotate => CanSendRotate(sys) && CandidateIsDurable(sys, Contents(sys, mode))
    case ClearConfig(_) => EndpointIsDurable(Contents(sys, mode))
    case Deliver(message, newEndpoint) => message in sys.net && MayHandle(sys.server, message, newEndpoint)
    case Others(server) => LeavesMineAlone(sys, server)
    case WritebackState => true
    case WritebackConfig => true
    case PowerLoss(survivor, survivingConfig) =>
      !mode.NoPowerLoss? && survivor in sys.state.outcomes && survivingConfig in sys.config.outcomes
  }

  // ---- Runs ----

  function Exec(sys: Sys, run: seq<Action>): Sys
    decreases |run|
  {
    if run == [] then sys else Apply(Exec(sys, run[..|run| - 1]), run[|run| - 1])
  }

  ghost predicate Legal(sys: Sys, run: seq<Action>, mode: Mode)
    decreases |run|
  {
    run == [] ||
    (Legal(sys, run[..|run| - 1], mode) && Enabled(Exec(sys, run[..|run| - 1]), run[|run| - 1], mode))
  }

  // A device that has no identity yet: no state file, nothing sent, nothing of its own on the server.
  ghost predicate Initial(sys: Sys) {
    && sys.state == AfterPowerLoss<Option<DeviceState>>(None)
    && sys.config.Valid()
    && Consistent(sys.server)
    && sys.net == {} && sys.mine == {} && sys.minted == {} && !sys.cleared
    && IsProtocolValue(sys.architecture)
  }

  lemma ExecStep(sys: Sys, run: seq<Action>, a: Action)
    ensures Exec(sys, run + [a]) == Apply(Exec(sys, run), a)
    ensures forall mode :: Legal(sys, run + [a], mode) <==> Legal(sys, run, mode) && Enabled(Exec(sys, run), a, mode)
  {
    assert (run + [a])[..|run|] == run;
  }
}
