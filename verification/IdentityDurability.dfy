/**
 Exactly when the code is as careful as it means to be. The write-ahead runs are the runs of the code in which requests
 are sent and secrets cleared only once what they rely on cannot be lost; for requests this module gives the runs that go
 wrong otherwise, and shows that nothing else does.
 */
module IdentityDurability {
  import opened Wrappers
  import opened DurableCell
  import opened CredentialText
  import opened IdentityServer
  import opened IdentityProtocol
  import opened IdentitySafety
  import opened IdentityRuns
  import opened IdentityWorld
  import opened IdentityPowerLoss
  import opened DeviceAgent

  // ---- What every run of the code keeps, careful or not ----

  // What may survive beside a missing file is a missing file, and beside a device that has not finished its enrollment
  // only that same device or none.
  ghost predicate Lineage(file: Cell<Option<DeviceState>>) {
    && file.Valid()
    && (file.visible.None? ==> forall v | v in file.outcomes :: v.None?)
    && (file.visible.Some? && file.visible.value.endpoint == "" ==> forall v | v in file.outcomes :: v.None? || v == file.visible)
  }

  ghost predicate Basic(sys: Sys) {
    Lineage(sys.state) && sys.config.Valid() && Consistent(sys.server)
  }

  lemma ActiveEndpointIsNamed(server: Server, endpoint: string, m: Material)
    requires Consistent(server) && IsActive(server, endpoint, m)
    ensures endpoint != ""
  {
    assert IsEndpointId(endpoint);
  }

  lemma LaterSavesNameEndpoint(sys: Sys, kind: SaveKind, content: DeviceState)
    requires Consistent(sys.server) && MaySave(sys, kind, content) && !kind.Create?
    ensures content.endpoint != ""
  {
    var s := sys.state.visible.value;
    match kind
    case PromoteEnrollment => ActiveEndpointIsNamed(sys.server, content.endpoint, s.credential);
    case PromoteRotation => ActiveEndpointIsNamed(sys.server, s.endpoint, s.pendingRotation.value);
    case Discard => ActiveEndpointIsNamed(sys.server, s.endpoint, s.credential);
    case Mint =>
  }

  lemma SaveKeepsLineage(file: Cell<Option<DeviceState>>, content: DeviceState, result: SaveResult)
    requires Lineage(file) && (content.endpoint == "" ==> file.visible.None?)
    ensures Lineage(AfterSave(file, Some(content), result))
  {
  }

  lemma DeliveryKeepsConsistency(server: Server, message: Message, newEndpoint: string)
    requires Consistent(server) && MayHandle(server, message, newEndpoint)
    ensures Consistent(Handle(server, message, newEndpoint))
  {
    match message
    case RotateRequest(bearer, candidate) => RotateKeepsConsistency(server, bearer, candidate);
    case BootstrapRequest(token, request) =>
      if IsFresh(server, newEndpoint) {
        ExchangeKeepsConsistency(server, token, request, newEndpoint);
      }
  }

  lemma StepKeepsBasic(sys: Sys, a: Action, mode: Mode)
    requires Basic(sys) && Enabled(sys, a, mode)
    ensures Basic(Apply(sys, a))
  {
    match a
    case Save(kind, content, result) =>
      if !kind.Create? {
        LaterSavesNameEndpoint(sys, kind, content);
      }
      SaveKeepsLineage(sys.state, content, result);
    case Deliver(message, newEndpoint) => DeliveryKeepsConsistency(sys.server, message, newEndpoint);
    case _ =>
  }

  lemma {:induction false} RunKeepsBasic(start: Sys, run: seq<Action>, mode: Mode)
    requires Initial(start) && Legal(start, run, mode)
    ensures Basic(Exec(start, run))
    decreases |run|
  {
    if run != [] {
      RunKeepsBasic(start, run[..|run| - 1], mode);
      StepKeepsBasic(Exec(start, run[..|run| - 1]), run[|run| - 1], mode);
    }
  }

  // ---- Careful runs ----

  // The step relies on nothing that a power loss could take away.
  ghost predicate IsCareful(sys: Sys, a: Action) {
    match a
    case SendBootstrap(_) => CanSendBootstrap(sys) && BootstrapIsDurable(sys, sys.state.outcomes)
    case SendRotate => CanSendRotate(sys) && CandidateIsDurable(sys, sys.state.outcomes)
    case ClearConfig(_) => EndpointIsDurable(sys.state.outcomes)
    case _ => true
  }

  ghost predicate AllCareful(start: Sys, run: seq<Action>)
    decreases |run|
  {
    run == [] || (AllCareful(start, run[..|run| - 1]) && IsCareful(Exec(start, run[..|run| - 1]), run[|run| - 1]))
  }

  // The agent sends and clears only when its last save returned nil.
  ghost predicate OnlyWhenSettled(start: Sys, run: seq<Action>)
    decreases |run|
  {
    run != [] ==>
      var sys, a := Exec(start, run[..|run| - 1]), run[|run| - 1];
      && OnlyWhenSettled(start, run[..|run| - 1])
      && (a.SendBootstrap? || a.SendRotate? || a.ClearConfig? ==> sys.state.Settled())
  }

  lemma CarefulStepIsWriteAhead(sys: Sys, a: Action)
    requires sys.state.Valid()
    ensures Enabled(sys, a, WriteAhead) <==> Enabled(sys, a, Code) && IsCareful(sys, a)
  {
  }

  // The write-ahead runs, for which the main results are stated, are exactly the careful runs of the code.
  lemma {:induction false} CarefulCodeIsWriteAhead(start: Sys, run: seq<Action>)
    requires Initial(start)
    ensures Legal(start, run, WriteAhead) <==> Legal(start, run, Code) && AllCareful(start, run)
    decreases |run|
  {
    if run != [] {
      var earlier := run[..|run| - 1];
      CarefulCodeIsWriteAhead(start, earlier);
      if Legal(start, earlier, Code) {
        RunKeepsBasic(start, earlier, Code);
        CarefulStepIsWriteAhead(Exec(start, earlier), run[|run| - 1]);
      }
    }
  }

  lemma SettledStepIsCareful(sys: Sys, a: Action)
    requires Inv(sys, WriteAhead) && Enabled(sys, a, Code)
    requires a.SendBootstrap? || a.SendRotate? || a.ClearConfig? ==> sys.state.Settled()
    ensures IsCareful(sys, a)
  {
    if sys.state.Settled() {
      SettledFileIsDurable(sys, WriteAhead);
    }
  }

  // What the agent can check is enough: a run in which it sends and clears only after saves that returned nil is careful.
  lemma {:induction false} SettledCodeIsWriteAhead(start: Sys, run: seq<Action>)
    requires Initial(start) && Legal(start, run, Code) && OnlyWhenSettled(start, run)
    ensures Legal(start, run, WriteAhead)
    decreases |run|
  {
    if run != [] {
      var earlier := run[..|run| - 1];
      SettledCodeIsWriteAhead(start, earlier);
      RunKeepsInvariant(start, earlier, WriteAhead);
      SettledStepIsCareful(Exec(start, earlier), run[|run| - 1]);
      CarefulStepIsWriteAhead(Exec(start, earlier), run[|run| - 1]);
    }
  }

  // ---- Bootstrap requests ----

  lemma OnlyNothingMaySurvive(sys: Sys)
    requires Lineage(sys.state) && CanSendBootstrap(sys)
    ensures BootstrapIsDurable(sys, sys.state.outcomes) <==> None !in sys.state.outcomes
  {
  }

  // A bootstrap request can be followed by a lock-out exactly if the pending enrollment it carries can still be lost.
  lemma BootstrapIsSafeIffDurable(start: Sys, run: seq<Action>, token: string, newEndpoint: string)
    requires Initial(start) && Legal(start, run, WriteAhead) && CanSendBootstrap(Exec(start, run))
    requires var sys := Exec(start, run);
             RedeemableWith(sys.server, token, sys.state.visible.value.pendingEnrollment.value, newEndpoint)
    ensures var sys := Exec(start, run);
            BootstrapIsDurable(sys, sys.state.outcomes) <==> !CanLockOut(Apply(sys, SendBootstrap(token)))
  {
    var sys := Exec(start, run);
    RunKeepsInvariant(start, run, WriteAhead);
    assert Lineage(sys.state) && sys.config.Valid() by { RunKeepsBasic(start, run, WriteAhead); }
    OnlyNothingMaySurvive(sys);
    if BootstrapIsDurable(sys, sys.state.outcomes) {
      DurableBootstrapIsSafe(sys, token);
    } else {
      LosingTheEnrollmentLocksOut(sys, token, newEndpoint);
    }
  }

  lemma DurableBootstrapIsSafe(sys: Sys, token: string)
    requires Inv(sys, WriteAhead) && CanSendBootstrap(sys) && BootstrapIsDurable(sys, sys.state.outcomes)
    ensures !CanLockOut(Apply(sys, SendBootstrap(token)))
  {
    var after := Apply(sys, SendBootstrap(token));
    StepKeepsInvariant(sys, SendBootstrap(token), WriteAhead);
    forall later | Legal(after, later, WriteAhead) ensures !LockedOut(Exec(after, later), Exec(after, later).state.visible) {
      ContinuationKeepsInvariant(after, later, WriteAhead);
      CoveredIsNotLockedOut(Exec(after, later), Exec(after, later).state.outcomes, Exec(after, later).state.visible);
    }
  }

  // The device once its request has been redeemed and its file lost.
  function Lost(sys: Sys, token: string, newEndpoint: string): Sys
    requires CanSendBootstrap(sys)
  {
    var sent, message := Apply(sys, SendBootstrap(token)), BootstrapMessage(sys, token);
    sent.(server := Handle(sys.server, message, newEndpoint), state := AfterPowerLoss(None),
          config := AfterPowerLoss(sys.config.visible))
  }

  lemma RedeemedAndLost(sys: Sys, token: string, newEndpoint: string, mode: Mode)
    requires Inv(sys, WriteAhead) && CanSendBootstrap(sys) && None in sys.state.outcomes && !mode.NoPowerLoss?
    requires RedeemableWith(sys.server, token, sys.state.visible.value.pendingEnrollment.value, newEndpoint)
    ensures var sent := Apply(sys, SendBootstrap(token));
            var run := [Deliver(BootstrapMessage(sys, token), newEndpoint), PowerLoss(None, sys.config.visible)];
            && Legal(sent, run, mode) && LockedOut(Exec(sent, run), Exec(sent, run).state.visible)
            && Exec(sent, run) == Lost(sys, token, newEndpoint)
    ensures var installation := sys.state.visible.value.installation;
            installation in sys.mine && installation in Lost(sys, token, newEndpoint).server.installations
  {
    var s := sys.state.visible.value;
    PendingStateIsWellFormed(sys, WriteAhead, s);
    DeliveredEnrollment(sys.server, token, s.pendingEnrollment.value, newEndpoint);
    DeliveredAndLost(Apply(sys, SendBootstrap(token)), token, s.pendingEnrollment.value, newEndpoint,
                     Handle(sys.server, BootstrapMessage(sys, token), newEndpoint), mode);
  }

  lemma LosingTheEnrollmentLocksOut(sys: Sys, token: string, newEndpoint: string)
    requires Inv(sys, WriteAhead) && CanSendBootstrap(sys) && None in sys.state.outcomes
    requires RedeemableWith(sys.server, token, sys.state.visible.value.pendingEnrollment.value, newEndpoint)
    ensures CanLockOut(Apply(sys, SendBootstrap(token)))
  {
    RedeemedAndLost(sys, token, newEndpoint, WriteAhead);
    LockOutIsReached(Apply(sys, SendBootstrap(token)),
                     [Deliver(BootstrapMessage(sys, token), newEndpoint), PowerLoss(None, sys.config.visible)]);
  }

  // ---- Enrolling once ----

  // Two endpoints of this agent.
  ghost predicate EnrolledTwice(sys: Sys) {
    exists i, j :: i != j && i in sys.mine && j in sys.mine && i in sys.server.installations && j in sys.server.installations
  }

  ghost predicate CanEnrollTwice(sys: Sys) {
    exists run: seq<Action> :: Legal(sys, run, WriteAhead) && EnrolledTwice(Exec(sys, run))
  }

  lemma CoveredIsEnrolledOnce(sys: Sys, contents: States, v: Option<DeviceState>)
    requires Core(sys, contents) && v in contents
    ensures !EnrolledTwice(sys)
  {
    forall i | i in sys.mine && i in sys.server.installations ensures v.Some? && i == v.value.installation {
      assert Covers(sys.server, i, v);
    }
  }

  lemma DurableBootstrapEnrollsOnce(sys: Sys, token: string)
    requires Inv(sys, WriteAhead) && CanSendBootstrap(sys) && BootstrapIsDurable(sys, sys.state.outcomes)
    ensures !CanEnrollTwice(Apply(sys, SendBootstrap(token)))
  {
    var after := Apply(sys, SendBootstrap(token));
    StepKeepsInvariant(sys, SendBootstrap(token), WriteAhead);
    forall later | Legal(after, later, WriteAhead) ensures !EnrolledTwice(Exec(after, later)) {
      ContinuationKeepsInvariant(after, later, WriteAhead);
      CoveredIsEnrolledOnce(Exec(after, later), Exec(after, later).state.outcomes, Exec(after, later).state.visible);
    }
  }

  // A device without a file enrolls again.
  function EnrollingAgain(second: DeviceState, token: string, newEndpoint: string): seq<Action>
    requires second.pendingEnrollment.Some?
  {
    [Action.Save(Create, second, Saved), SendBootstrap(token)]
    + [Deliver(BootstrapRequest(token, second.pendingEnrollment.value), newEndpoint)]
  }

  // A second enrollment that this device could go through.
  ghost predicate CanEnrollAgain(sys: Sys, second: DeviceState, token: string, newEndpoint: string) {
    && sys.state == AfterPowerLoss(None) && Consistent(sys.server) && MaySave(sys, Create, second)
    && RedeemableWith(sys.server, token, second.pendingEnrollment.value, newEndpoint)
  }

  lemma EnrolledAgain(sys: Sys, first: string, second: DeviceState, token: string, newEndpoint: string, mode: Mode)
    requires CanEnrollAgain(sys, second, token, newEndpoint)
    requires first in sys.mine && first in sys.server.installations
    ensures var run := EnrollingAgain(second, token, newEndpoint);
            Legal(sys, run, mode) && EnrolledTwice(Exec(sys, run))
  {
    CreatedAndSent(sys, token, second);
    SecondIsNew(sys, second);
    SecondIsDelivered(sys, first, second, token, newEndpoint);
    var sent := CreatedAndSentState(sys, token, second);
    var deliver := Deliver(BootstrapRequest(token, second.pendingEnrollment.value), newEndpoint);
    OneStep(sent, deliver, mode);
    RunsConcatenate(sys, [Action.Save(Create, second, Saved), SendBootstrap(token)], [deliver], mode);
  }

  lemma OneStep(sys: Sys, a: Action, mode: Mode)
    requires Enabled(sys, a, mode)
    ensures Legal(sys, [a], mode) && Exec(sys, [a]) == Apply(sys, a)
  {
    ExecStep(sys, [], a);
    PairIsAppended(a, a);
  }

  lemma SecondIsNew(sys: Sys, second: DeviceState)
    requires MaySave(sys, Create, second)
    ensures second.pendingEnrollment.Some? && second.pendingEnrollment.value.installation == second.installation
    ensures second.pendingEnrollment.value.credential == second.credential
    ensures second.installation !in sys.mine
  {
  }

  lemma SecondIsDelivered(sys: Sys, first: string, second: DeviceState, token: string, newEndpoint: string)
    requires second.pendingEnrollment.Some? && second.pendingEnrollment.value.installation == second.installation
    requires Consistent(sys.server) && RedeemableWith(sys.server, token, second.pendingEnrollment.value, newEndpoint)
    requires first in sys.mine && first in sys.server.installations && first != second.installation
    ensures var sent := CreatedAndSentState(sys, token, second);
            var deliver := Deliver(BootstrapRequest(token, second.pendingEnrollment.value), newEndpoint);
            (forall mode :: Enabled(sent, deliver, mode)) && EnrolledTwice(Apply(sent, deliver))
  {
    var request := second.pendingEnrollment.value;
    DeliveredEnrollment(sys.server, token, request, newEndpoint);
    EnrollmentsAreKept(sys.server, token, request, newEndpoint, first);
    DeliveredTwice(sys, first, second, token, newEndpoint, Handle(sys.server, BootstrapRequest(token, request), newEndpoint));
  }

  lemma DeliveredTwice(sys: Sys, first: string, second: DeviceState, token: string, newEndpoint: string, after: Server)
    requires second.pendingEnrollment.Some? && IsFresh(sys.server, newEndpoint)
    requires after == Handle(sys.server, BootstrapRequest(token, second.pendingEnrollment.value), newEndpoint)
    requires first in sys.mine && first in after.installations && second.installation in after.installations
    requires first != second.installation
    ensures var sent := CreatedAndSentState(sys, token, second);
            var deliver := Deliver(BootstrapRequest(token, second.pendingEnrollment.value), newEndpoint);
            (forall mode :: Enabled(sent, deliver, mode)) && EnrolledTwice(Apply(sent, deliver))
  {
    var sent := CreatedAndSentState(sys, token, second);
    var deliver := Deliver(BootstrapRequest(token, second.pendingEnrollment.value), newEndpoint);
    TwoInstallations(Apply(sent, deliver), first, second.installation);
  }

  lemma TwoInstallations(sys: Sys, i: string, j: string)
    requires i != j && i in sys.mine && j in sys.mine && i in sys.server.installations && j in sys.server.installations
    ensures EnrolledTwice(sys)
  {
  }

  lemma EnrollmentsAreKept(server: Server, token: string, request: EnrollmentRequest, newEndpoint: string, installation: string)
    requires Consistent(server) && RedeemableWith(server, token, request, newEndpoint) && installation in server.installations
    ensures installation in Handle(server, BootstrapRequest(token, request), newEndpoint).installations
  {
    var (tokenId, secret) := ParseEnrollmentToken(token).value;
    RedeemableIsRedeemed(server, tokenId, secret, request, newEndpoint);
    EnrollingOnlyAdds(server, tokenId, request, newEndpoint);
  }

  // A bootstrap request can be followed by a second enrollment exactly if the pending enrollment it carries can still
  // be lost, given that a second one would be redeemed then.
  lemma EnrollmentIsUniqueIffDurable(
    start: Sys, run: seq<Action>, token: string, newEndpoint: string,
    second: DeviceState, secondToken: string, secondEndpoint: string)
    requires Initial(start) && Legal(start, run, WriteAhead) && CanSendBootstrap(Exec(start, run))
    requires var sys := Exec(start, run);
             && RedeemableWith(sys.server, token, sys.state.visible.value.pendingEnrollment.value, newEndpoint)
             && CanEnrollAgain(Lost(sys, token, newEndpoint), second, secondToken, secondEndpoint)
    ensures var sys := Exec(start, run);
            BootstrapIsDurable(sys, sys.state.outcomes) <==> !CanEnrollTwice(Apply(sys, SendBootstrap(token)))
  {
    var sys := Exec(start, run);
    RunKeepsInvariant(start, run, WriteAhead);
    assert Lineage(sys.state) by { RunKeepsBasic(start, run, WriteAhead); }
    OnlyNothingMaySurvive(sys);
    if BootstrapIsDurable(sys, sys.state.outcomes) {
      DurableBootstrapEnrollsOnce(sys, token);
    } else {
      LosingTheEnrollmentEnrollsTwice(sys, token, newEndpoint, second, secondToken, secondEndpoint);
    }
  }

  lemma LosingTheEnrollmentEnrollsTwice(
    sys: Sys, token: string, newEndpoint: string, second: DeviceState, secondToken: string, secondEndpoint: string)
    requires Inv(sys, WriteAhead) && CanSendBootstrap(sys) && None in sys.state.outcomes
    requires RedeemableWith(sys.server, token, sys.state.visible.value.pendingEnrollment.value, newEndpoint)
    requires CanEnrollAgain(Lost(sys, token, newEndpoint), second, secondToken, secondEndpoint)
    ensures CanEnrollTwice(Apply(sys, SendBootstrap(token)))
  {
    var sent, lost := Apply(sys, SendBootstrap(token)), Lost(sys, token, newEndpoint);
    RedeemedAndLost(sys, token, newEndpoint, WriteAhead);
    EnrolledAgain(lost, sys.state.visible.value.installation, second, secondToken, secondEndpoint, WriteAhead);
    SecondEnrollmentIsReached(sent, [Deliver(BootstrapMessage(sys, token), newEndpoint), PowerLoss(None, sys.config.visible)],
                              EnrollingAgain(second, secondToken, secondEndpoint));
  }

  lemma SecondEnrollmentIsReached(sys: Sys, losing: seq<Action>, enrolling: seq<Action>)
    requires Legal(sys, losing, WriteAhead) && Legal(Exec(sys, losing), enrolling, WriteAhead)
    requires EnrolledTwice(Exec(Exec(sys, losing), enrolling))
    ensures CanEnrollTwice(sys)
  {
    RunsConcatenate(sys, losing, enrolling, WriteAhead);
  }

  // Another enrollment that the control plane would redeem, and that stays redeemable once the first one is.
  ghost predicate IsIndependent(
    server: Server, token: string, request: EnrollmentRequest, otherToken: string, other: EnrollmentRequest) {
    && ParseEnrollmentToken(token).Some? && ParseEnrollmentToken(otherToken).Some?
    && other.installation != request.installation && other.credential.id != request.credential.id
    && Normalized(other).fingerprint != Normalized(request).fingerprint
    && var (id, otherId) := (ParseEnrollmentToken(token).value.0, ParseEnrollmentToken(otherToken).value.0);
       id == otherId && id in server.tokens ==> server.tokens[id].useCount + 1 < server.tokens[id].maxUses
  }

  lemma InstallingKeepsFingerprintFree(
    server: Server, endpoint: string, row: EndpointRow, installation: string, credential: Material, token: string,
    request: EnrollmentRequest, fingerprint: string, otherToken: TokenRow, platform: string)
    requires FingerprintsIndexed(server.endpoints, server.fingerprints) && token in server.tokens
    requires fingerprint != row.fingerprint && FingerprintFree(server, fingerprint, otherToken, platform)
    requires endpoint in server.endpoints ==> server.endpoints[endpoint].fingerprint == row.fingerprint
    ensures FingerprintFree(Installed(server, endpoint, row, installation, credential, token, request), fingerprint, otherToken, platform)
  {
  }

  lemma StaysRedeemable(
    server: Server, tokenId: string, request: EnrollmentRequest, newId: string, otherToken: string, other: EnrollmentRequest)
    requires Consistent(server) && IsFresh(server, newId)
    requires Redeemable(server, tokenId, request) && Redeemable(server, otherToken, other)
    requires other.installation != request.installation && other.credential.id != request.credential.id
    requires Normalized(other).fingerprint != Normalized(request).fingerprint
    requires otherToken == tokenId ==> server.tokens[tokenId].useCount + 1 < server.tokens[tokenId].maxUses
    ensures Redeemable(Enrolled(server, tokenId, request, newId), otherToken, other)
  {
    EnrollingCanInstall(server, tokenId, request, newId);
    var endpoint, row := EnrolledEndpoint(server, request, newId), EnrolledRow(request, server.tokens[tokenId]);
    InstallingKeepsFingerprintFree(server, endpoint, row, request.installation, request.credential, tokenId, Normalized(request),
                                   Normalized(other).fingerprint, server.tokens[otherToken], other.platform);
    InstallingKeepsRedeemable(server, endpoint, row, request.installation, request.credential, tokenId, Normalized(request),
                              otherToken, other);
  }

  lemma FingerprintFreeForScope(server: Server, fingerprint: string, token: TokenRow, other: TokenRow, platform: string)
    requires FingerprintFree(server, fingerprint, token, platform) && other.scope == token.scope
    ensures FingerprintFree(server, fingerprint, other, platform)
  {
  }

  lemma TablesAfterInstalling(
    server: Server, endpoint: string, row: EndpointRow, installation: string, credential: Material, token: string,
    request: EnrollmentRequest, otherToken: string)
    requires token in server.tokens && otherToken in server.tokens
    ensures var after := Installed(server, endpoint, row, installation, credential, token, request);
            && otherToken in after.tokens
            && after.tokens[otherToken] ==
               server.tokens[otherToken].(useCount := server.tokens[otherToken].useCount + if otherToken == token then 1 else 0)
            && after.installations.Keys == server.installations.Keys + {installation}
            && after.credentials.Keys == server.credentials.Keys + {credential.id}
            && after.endpoints.Keys == server.endpoints.Keys + {endpoint}
  {
  }

  lemma InstallingKeepsRedeemable(
    server: Server, endpoint: string, row: EndpointRow, installation: string, credential: Material, token: string,
    request: EnrollmentRequest, otherToken: string, other: EnrollmentRequest)
    requires token in server.tokens && Redeemable(server, otherToken, other)
    requires other.installation != installation && other.credential.id != credential.id
    requires otherToken == token ==> server.tokens[token].useCount + 1 < server.tokens[token].maxUses
    requires FingerprintFree(Installed(server, endpoint, row, installation, credential, token, request),
                             Normalized(other).fingerprint, server.tokens[otherToken], other.platform)
    ensures Redeemable(Installed(server, endpoint, row, installation, credential, token, request), otherToken, other)
  {
    var after := Installed(server, endpoint, row, installation, credential, token, request);
    TablesAfterInstalling(server, endpoint, row, installation, credential, token, request, otherToken);
    FingerprintFreeForScope(after, Normalized(other).fingerprint, server.tokens[otherToken], after.tokens[otherToken], other.platform);
  }

  lemma OtherEnrollmentStaysRedeemable(
    server: Server, token: string, request: EnrollmentRequest, newEndpoint: string,
    otherToken: string, other: EnrollmentRequest, otherEndpoint: string)
    requires Consistent(server) && RedeemableWith(server, token, request, newEndpoint)
    requires RedeemableWith(server, otherToken, other, otherEndpoint) && otherEndpoint != newEndpoint
    requires IsIndependent(server, token, request, otherToken, other)
    ensures var after := Handle(server, BootstrapRequest(token, request), newEndpoint);
            Consistent(after) && RedeemableWith(after, otherToken, other, otherEndpoint)
  {
    var ((tokenId, secret), (otherId, otherSecret)) := (ParseEnrollmentToken(token).value, ParseEnrollmentToken(otherToken).value);
    RedeemableIsRedeemed(server, tokenId, secret, request, newEndpoint);
    EnrollingKeepsConsistency(server, tokenId, request, newEndpoint);
    StaysRedeemable(server, tokenId, request, newEndpoint, otherId, other);
    EnrollingKeepsTokens(server, tokenId, request, newEndpoint, otherId, otherEndpoint);
  }

  lemma EnrollingKeepsTokens(
    server: Server, tokenId: string, request: EnrollmentRequest, newId: string, otherId: string, otherEndpoint: string)
    requires FingerprintsIndexed(server.endpoints, server.fingerprints) && tokenId in server.tokens && otherId in server.tokens
    requires IsFresh(server, otherEndpoint) && otherEndpoint != newId
    ensures var after := Enrolled(server, tokenId, request, newId);
            && otherId in after.tokens && after.tokens[otherId].secret == server.tokens[otherId].secret
            && IsFresh(after, otherEndpoint)
  {
    var endpoint := EnrolledEndpoint(server, request, newId);
    assert endpoint != otherEndpoint;
    TablesAfterInstalling(server, endpoint, EnrolledRow(request, server.tokens[tokenId]), request.installation, request.credential,
                          tokenId, Normalized(request), otherId);
  }

  // A second device state that this fresh machine could draw, and its enrollment.
  ghost predicate IsSecondChance(
    start: Sys, token: string, first: DeviceState, newEndpoint: string,
    second: DeviceState, secondToken: string, secondEndpoint: string) {
    && first.pendingEnrollment.Some? && MaySave(start, Create, second)
    && second.credential.id != first.credential.id
    && RedeemableWith(start.server, secondToken, second.pendingEnrollment.value, secondEndpoint) && secondEndpoint != newEndpoint
    && IsIndependent(start.server, token, first.pendingEnrollment.value, secondToken, second.pendingEnrollment.value)
  }

  lemma SecondMayBeCreated(
    start: Sys, token: string, first: DeviceState, newEndpoint: string, second: DeviceState)
    requires Initial(start) && first.pendingEnrollment.Some? && MaySave(start, Create, second)
    requires second.credential.id != first.credential.id && second.installation != first.installation
    requires var after := Handle(start.server, BootstrapRequest(token, first.pendingEnrollment.value), newEndpoint);
             second.installation !in after.installations && second.credential.id !in after.credentials
    ensures MaySave(LostAfterEnrollment(start, token, first, newEndpoint), Create, second)
  {
  }

  // From every fresh device that could enroll, with a second enrollment the control plane would redeem as well: the run
  // of the code that enrolls it twice.
  lemma CodeCanEnrollTwice(
    start: Sys, token: string, host: Host, random: Randomness, newEndpoint: string,
    second: DeviceState, secondToken: string, secondEndpoint: string)
    requires Initial(start) && Recoverable(start, token, host, random, newEndpoint)
    requires IsSecondChance(start, token, EnrollmentState(host, start.architecture, random), newEndpoint,
                            second, secondToken, secondEndpoint)
    ensures var s := EnrollmentState(host, start.architecture, random);
            var run := FatalEnrollment(s, token, newEndpoint, start.config.visible) + EnrollingAgain(second, secondToken, secondEndpoint);
            Legal(start, run, Code) && EnrolledTwice(Exec(start, run))
  {
    var s := EnrollmentState(host, start.architecture, random);
    var losing := FatalEnrollment(s, token, newEndpoint, start.config.visible);
    FirstEnrollmentCanLockOut(start, token, host, random, newEndpoint);
    SecondChanceRemains(start, token, s, newEndpoint, second, secondToken, secondEndpoint);
    EnrolledAgain(Exec(start, losing), s.installation, second, secondToken, secondEndpoint, Code);
    RunsConcatenate(start, losing, EnrollingAgain(second, secondToken, secondEndpoint), Code);
  }

  lemma SecondChanceRemains(
    start: Sys, token: string, first: DeviceState, newEndpoint: string,
    second: DeviceState, secondToken: string, secondEndpoint: string)
    requires Initial(start) && IsSecondChance(start, token, first, newEndpoint, second, secondToken, secondEndpoint)
    requires RedeemableWith(start.server, token, first.pendingEnrollment.value, newEndpoint)
    requires first.pendingEnrollment.value.installation == first.installation
    ensures var lost := LostAfterEnrollment(start, token, first, newEndpoint);
            && CanEnrollAgain(lost, second, secondToken, secondEndpoint)
            && first.installation in lost.mine && first.installation in lost.server.installations
  {
    var request, other := first.pendingEnrollment.value, second.pendingEnrollment.value;
    SecondIsNew(start, second);
    DeliveredEnrollment(start.server, token, request, newEndpoint);
    OtherEnrollmentStaysRedeemable(start.server, token, request, newEndpoint, secondToken, other, secondEndpoint);
    RedeemableIsNew(Handle(start.server, BootstrapRequest(token, request), newEndpoint), secondToken, other, secondEndpoint);
    SecondMayBeCreated(start, token, first, newEndpoint, second);
  }

  lemma RedeemableIsNew(server: Server, token: string, request: EnrollmentRequest, newEndpoint: string)
    requires RedeemableWith(server, token, request, newEndpoint)
    ensures request.installation !in server.installations && request.credential.id !in server.credentials
  {
  }

  // The second enrollment must come from another host name or profile: the fingerprint made of them is refused.
  lemma SameFingerprintIsRefused(
    server: Server, tokenId: string, request: EnrollmentRequest, newId: string, otherToken: string, other: EnrollmentRequest)
    requires tokenId in server.tokens && Normalized(other).fingerprint == Normalized(request).fingerprint
    ensures !Redeemable(Enrolled(server, tokenId, request, newId), otherToken, other)
  {
    var after := Enrolled(server, tokenId, request, newId);
    var fingerprint, endpoint := Normalized(request).fingerprint, EnrolledEndpoint(server, request, newId);
    assert after.fingerprints[fingerprint] == endpoint && after.endpoints[endpoint].device;
  }
}
