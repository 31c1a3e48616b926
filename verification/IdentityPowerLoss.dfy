/**
 The code does not keep its own write-ahead rule after a save that fails between the rename and the directory sync:
 the next call finds the new content and sends a candidate that a power loss can still take back. From every device
 that could enroll at all there is a run of the code that ends locked out.
 */
module IdentityPowerLoss {
  import opened Wrappers
  import opened DurableCell
  import opened CredentialText
  import opened IdentityServer
  import opened IdentityProtocol
  import opened IdentitySafety
  import opened IdentityRuns
  import opened DeviceAgent

  lemma SnocOfAppended<T>(first: seq<T>, second: seq<T>)
    requires second != []
    ensures var (shorter, last) := (second[..|second| - 1], second[|second| - 1]);
            second == shorter + [last] && first + second == (first + shorter) + [last]
  {
  }

  lemma {:induction false} RunsConcatenate(sys: Sys, first: seq<Action>, second: seq<Action>, mode: Mode)
    ensures Exec(sys, first + second) == Exec(Exec(sys, first), second)
    ensures Legal(sys, first + second, mode) <==> Legal(sys, first, mode) && Legal(Exec(sys, first), second, mode)
    decreases |second|
  {
    if second == [] {
      assert first + second == first;
    } else {
      var shorter, last := second[..|second| - 1], second[|second| - 1];
      RunsConcatenate(sys, first, shorter, mode);
      SnocOfAppended(first, second);
      ExecStep(sys, first + shorter, last);
      ExecStep(Exec(sys, first), shorter, last);
    }
  }

  // A call whose save fails after the rename, the next call's request, its arrival, and a power loss.
  function FatalRun(s: DeviceState, candidate: Material, config: ConfigFile): seq<Action> {
    [MintUnsynced(s, candidate), SendRotate] + FatalEnd(s, candidate, config)
  }

  function MintUnsynced(s: DeviceState, candidate: Material): Action {
    Action.Save(Mint, WithCandidate(s, candidate), ReplacedNotSynced)
  }

  function FatalEnd(s: DeviceState, candidate: Material, config: ConfigFile): seq<Action> {
    [Deliver(RotateRequest(s.credential, candidate), ""), PowerLoss(Some(s), config)]
  }

  function WithCandidate(s: DeviceState, candidate: Material): DeviceState {
    s.(pendingRotation := Some(candidate))
  }

  lemma MintedButUnsynced(sys: Sys, s: DeviceState, candidate: Material)
    requires sys.state == Cell(Some(s), {Some(s)}) && s.endpoint != "" && s.pendingRotation.None?
    requires IsNewCredential(sys, candidate)
    ensures MaySave(sys, Mint, WithCandidate(s, candidate))
    ensures var saved := Apply(sys, MintUnsynced(s, candidate));
            && saved.state.visible == Some(WithCandidate(s, candidate)) && Some(s) in saved.state.outcomes
            && saved.server == sys.server && saved.config == sys.config
            && CanSendRotate(saved) && CandidateIsDurable(saved, Contents(saved, Code))
            && candidate.id !in sys.server.credentials
  {
  }

  lemma FatalEndLoses(saved: Sys, s: DeviceState, candidate: Material)
    requires saved.state.visible == Some(WithCandidate(s, candidate))
    ensures FatalEnd(s, candidate, saved.config.visible) ==
            [Deliver(RotateMessage(saved), ""), PowerLoss(Some(s), saved.config.visible)]
  {
  }

  // From the moment the request is sent.
  lemma SentCandidateIsLost(saved: Sys, s: DeviceState, candidate: Material)
    requires Inv(saved, WriteAhead) && saved.state.visible == Some(WithCandidate(s, candidate)) && Some(s) in saved.state.outcomes
    requires s.endpoint != "" && s.pendingRotation.None? && candidate != s.credential
    requires IsActive(saved.server, s.endpoint, s.credential) && candidate.id !in saved.server.credentials
    ensures var sent := Apply(saved, SendRotate);
            var run := FatalEnd(s, candidate, saved.config.visible);
            && Legal(sent, run, Code) && LockedOut(Exec(sent, run), Exec(sent, run).state.visible)
  {
    FatalEndLoses(saved, s, candidate);
    LosingTheCandidate(saved, s.endpoint, Some(s), Code);
  }

  // Every settled, enrolled device can be locked out by it.
  lemma UnsyncedCandidateLocksOut(sys: Sys, s: DeviceState, candidate: Material)
    requires Inv(sys, WriteAhead) && sys.state == Cell(Some(s), {Some(s)}) && s.endpoint != "" && s.pendingRotation.None?
    requires IsNewCredential(sys, candidate)
    ensures var run := FatalRun(s, candidate, sys.config.visible);
            Legal(sys, run, Code) && LockedOut(Exec(sys, run), Exec(sys, run).state.visible)
  {
    assert IsActive(sys.server, s.endpoint, s.credential) by {
      EnrolledStateIsWellFormed(sys, WriteAhead, s);
    }
    MintedButUnsynced(sys, s, candidate);
    var save := MintUnsynced(s, candidate);
    SaveKeepsInvariant(sys, Mint, save.content, ReplacedNotSynced, WriteAhead);
    var saved := Apply(sys, save);
    SentCandidateIsLost(saved, s, candidate);
    FatalRunIsLegal(sys, save, FatalEnd(s, candidate, sys.config.visible));
  }

  lemma FatalRunIsLegal(sys: Sys, save: Action, end: seq<Action>)
    requires Enabled(sys, save, Code) && Enabled(Apply(sys, save), SendRotate, Code)
    requires Legal(Apply(Apply(sys, save), SendRotate), end, Code)
    ensures Legal(sys, [save, SendRotate] + end, Code)
    ensures Exec(sys, [save, SendRotate] + end) == Exec(Apply(Apply(sys, save), SendRotate), end)
  {
    TwoSteps(sys, save, SendRotate);
    RunsConcatenate(sys, [save, SendRotate], end, Code);
  }

  // The enrollment of a fresh device, when nothing goes wrong.
  function EnrollmentRun(s: DeviceState, token: string, newEndpoint: string, endpoint: string): seq<Action>
    requires s.pendingEnrollment.Some?
  {
    [Action.Save(Create, s, Saved), SendBootstrap(token)]
    + [Deliver(BootstrapRequest(token, s.pendingEnrollment.value), newEndpoint),
       Action.Save(PromoteEnrollment, Promoted(s, endpoint), Saved)]
  }

  function CreatedAndSentState(start: Sys, token: string, s: DeviceState): Sys
    requires s.pendingEnrollment.Some?
  {
    start.(state := Cell(Some(s), {Some(s)}), mine := start.mine + {s.installation}, minted := start.minted + {s.credential},
           net := start.net + {BootstrapRequest(token, s.pendingEnrollment.value)})
  }

  lemma CreatedAndSent(start: Sys, token: string, s: DeviceState)
    requires start.state == AfterPowerLoss(None) && MaySave(start, Create, s)
    ensures var run := [Action.Save(Create, s, Saved), SendBootstrap(token)];
            && (forall mode :: Legal(start, run, mode))
            && Exec(start, run) == CreatedAndSentState(start, token, s)
  {
    TwoSteps(start, Action.Save(Create, s, Saved), SendBootstrap(token));
    assert Held(s) == {s.credential};
  }

  lemma DeliveredAndPromoted(sent: Sys, token: string, s: DeviceState, newEndpoint: string, after: Server, endpoint: string)
    requires sent.state == Cell(Some(s), {Some(s)}) && s.endpoint == "" && s.pendingEnrollment.Some?
    requires BootstrapRequest(token, s.pendingEnrollment.value) in sent.net && IsFresh(sent.server, newEndpoint)
    requires after == Handle(sent.server, BootstrapRequest(token, s.pendingEnrollment.value), newEndpoint)
    requires s.installation in after.installations && after.installations[s.installation] == endpoint
    requires IsActive(after, endpoint, s.credential)
    ensures var promoted := Promoted(s, endpoint);
            var run := [Deliver(BootstrapRequest(token, s.pendingEnrollment.value), newEndpoint),
                        Action.Save(PromoteEnrollment, promoted, Saved)];
            && (forall mode :: Legal(sent, run, mode))
            && Exec(sent, run).state == Cell(Some(promoted), {Some(promoted)}) && Exec(sent, run).server == after
            && Exec(sent, run).minted == sent.minted + Held(promoted) && Exec(sent, run).config == sent.config
  {
    var promoted := Promoted(s, endpoint);
    var deliver := Deliver(BootstrapRequest(token, s.pendingEnrollment.value), newEndpoint);
    TwoSteps(sent, deliver, Action.Save(PromoteEnrollment, promoted, Saved));
    assert MayPromoteEnrollment(Apply(sent, deliver), s, promoted);
  }

  lemma DeliveredEnrollment(server: Server, token: string, request: EnrollmentRequest, newEndpoint: string)
    requires Consistent(server) && RedeemableWith(server, token, request, newEndpoint)
    ensures var after := Handle(server, BootstrapRequest(token, request), newEndpoint);
            var endpoint := EnrolledEndpoint(server, request, newEndpoint);
            && request.installation in after.installations && after.installations[request.installation] == endpoint
            && IsActive(after, endpoint, request.credential)
            && endpoint != ""
            && after.credentials.Keys == server.credentials.Keys + {request.credential.id}
  {
    var (tokenId, secret) := ParseEnrollmentToken(token).value;
    RedeemableIsRedeemed(server, tokenId, secret, request, newEndpoint);
    EnrollingKeepsConsistency(server, tokenId, request, newEndpoint);
    EnrollingCanInstall(server, tokenId, request, newEndpoint);
    EnrolledTables(server, tokenId, request, newEndpoint);
  }

  lemma EnrolledTables(server: Server, tokenId: string, request: EnrollmentRequest, newEndpoint: string)
    requires tokenId in server.tokens
    ensures var after := Enrolled(server, tokenId, request, newEndpoint);
            && request.installation in after.installations
            && after.installations[request.installation] == EnrolledEndpoint(server, request, newEndpoint)
            && after.credentials.Keys == server.credentials.Keys + {request.credential.id}
  {
    InstalledTables(server, EnrolledEndpoint(server, request, newEndpoint), EnrolledRow(request, server.tokens[tokenId]),
                    request.installation, request.credential, tokenId, Normalized(request));
  }

  lemma InstalledTables(server: Server, endpoint: string, row: EndpointRow, installation: string, credential: Material,
                        token: string, request: EnrollmentRequest)
    requires token in server.tokens
    ensures var after := Installed(server, endpoint, row, installation, credential, token, request);
            && installation in after.installations && after.installations[installation] == endpoint
            && after.credentials.Keys == server.credentials.Keys + {credential.id}
  {
  }

  lemma FreshDeviceEnrolls(start: Sys, token: string, s: DeviceState, newEndpoint: string, sent: Sys, after: Server, endpoint: string)
    requires s.endpoint == "" && s.pendingEnrollment.Some? && s.pendingRotation.None?
    requires forall mode :: Legal(start, [Action.Save(Create, s, Saved), SendBootstrap(token)], mode)
    requires Exec(start, [Action.Save(Create, s, Saved), SendBootstrap(token)]) == sent
    requires sent.state == Cell(Some(s), {Some(s)}) && BootstrapRequest(token, s.pendingEnrollment.value) in sent.net
    requires IsFresh(sent.server, newEndpoint)
    requires after == Handle(sent.server, BootstrapRequest(token, s.pendingEnrollment.value), newEndpoint)
    requires s.installation in after.installations && after.installations[s.installation] == endpoint
    requires IsActive(after, endpoint, s.credential)
    ensures var run, enrolled := EnrollmentRun(s, token, newEndpoint, endpoint), Promoted(s, endpoint);
            && (forall mode :: Legal(start, run, mode))
            && Exec(start, run).state == Cell(Some(enrolled), {Some(enrolled)})
            && Exec(start, run).minted == sent.minted + {s.credential} && Exec(start, run).server == after
            && Exec(start, run).config == sent.config
  {
    var sending := [Action.Save(Create, s, Saved), SendBootstrap(token)];
    var finishing := [Deliver(BootstrapRequest(token, s.pendingEnrollment.value), newEndpoint),
                      Action.Save(PromoteEnrollment, Promoted(s, endpoint), Saved)];
    DeliveredAndPromoted(sent, token, s, newEndpoint, after, endpoint);
    assert Held(Promoted(s, endpoint)) == {s.credential};
    RunsConcatenate(start, sending, finishing, Code);
    forall mode ensures Legal(start, sending + finishing, mode) {
      RunsConcatenate(start, sending, finishing, mode);
    }
  }

  ghost predicate IsSent(start: Sys, token: string, s: DeviceState) {
    && s.endpoint == "" && s.pendingEnrollment.Some? && s.pendingRotation.None?
    && s.pendingEnrollment.value.installation == s.installation && s.pendingEnrollment.value.credential == s.credential
    && var run := [Action.Save(Create, s, Saved), SendBootstrap(token)];
       && (forall mode :: Legal(start, run, mode))
       && Exec(start, run) == CreatedAndSentState(start, token, s)
  }

  // The device enrolls, and then its first rotation is persisted, sent, installed and lost.
  function LockOutRun(
    s: DeviceState, token: string, newEndpoint: string, endpoint: string, candidate: Material, config: ConfigFile): seq<Action>
    requires s.pendingEnrollment.Some?
  {
    EnrollmentRun(s, token, newEndpoint, endpoint) + FatalRun(Promoted(s, endpoint), candidate, config)
  }

  lemma SentEnrollmentCanLockOut(start: Sys, token: string, s: DeviceState, newEndpoint: string, after: Server, endpoint: string,
                                 candidate: Material)
    requires Initial(start) && IsSent(start, token, s) && IsFresh(start.server, newEndpoint)
    requires after == Handle(start.server, BootstrapRequest(token, s.pendingEnrollment.value), newEndpoint)
    requires s.installation in after.installations && after.installations[s.installation] == endpoint
    requires IsActive(after, endpoint, s.credential) && endpoint != ""
    requires ValidMaterial(candidate) && candidate.id !in after.credentials && candidate.id != s.credential.id
    ensures var run := LockOutRun(s, token, newEndpoint, endpoint, candidate, start.config.visible);
            Legal(start, run, Code) && LockedOut(Exec(start, run), Exec(start, run).state.visible)
  {
    FreshDeviceEnrolls(start, token, s, newEndpoint, CreatedAndSentState(start, token, s), after, endpoint);
    var run, enrolled := EnrollmentRun(s, token, newEndpoint, endpoint), Promoted(s, endpoint);
    assert IsNewCredential(Exec(start, run), candidate);
    EnrolledRunCanLockOut(start, run, enrolled, candidate);
  }

  lemma NewEnrollmentCanLockOut(start: Sys, token: string, s: DeviceState, newEndpoint: string, candidate: Material)
    requires Initial(start) && IsSent(start, token, s)
    requires RedeemableWith(start.server, token, s.pendingEnrollment.value, newEndpoint)
    requires ValidMaterial(candidate) && candidate.id !in start.server.credentials && candidate.id != s.credential.id
    ensures var endpoint := EnrolledEndpoint(start.server, s.pendingEnrollment.value, newEndpoint);
            var run := LockOutRun(s, token, newEndpoint, endpoint, candidate, start.config.visible);
            Legal(start, run, Code) && LockedOut(Exec(start, run), Exec(start, run).state.visible)
  {
    var request := s.pendingEnrollment.value;
    DeliveredEnrollment(start.server, token, request, newEndpoint);
    SentEnrollmentCanLockOut(start, token, s, newEndpoint, Handle(start.server, BootstrapRequest(token, request), newEndpoint),
                             EnrolledEndpoint(start.server, request, newEndpoint), candidate);
  }

  // Whatever the control plane and the host look like: if the device can enroll, the code can lock it out.
  lemma CodeCanLockItselfOut(start: Sys, token: string, host: Host, random: Randomness, newEndpoint: string, candidate: Material)
    requires Initial(start) && Recoverable(start, token, host, random, newEndpoint)
    requires ValidMaterial(candidate) && candidate.id !in start.server.credentials && candidate.id != random.Credential().id
    ensures var s := EnrollmentState(host, start.architecture, random);
            var endpoint := EnrolledEndpoint(start.server, s.pendingEnrollment.value, newEndpoint);
            var run := LockOutRun(s, token, newEndpoint, endpoint, candidate, start.config.visible);
            Legal(start, run, Code) && LockedOut(Exec(start, run), Exec(start, run).state.visible)
  {
    var s := EnrollmentState(host, start.architecture, random);
    NewStateMayBeCreated(start, host, random);
    CreatedAndSent(start, token, s);
    NewEnrollmentCanLockOut(start, token, s, newEndpoint, candidate);
  }

  lemma EnrolledRunCanLockOut(start: Sys, run: seq<Action>, enrolled: DeviceState, candidate: Material)
    requires Initial(start) && Legal(start, run, WriteAhead) && Legal(start, run, Code)
    requires Exec(start, run).state == Cell(Some(enrolled), {Some(enrolled)})
    requires enrolled.endpoint != "" && enrolled.pendingRotation.None?
    requires IsNewCredential(Exec(start, run), candidate)
    ensures var fatal := run + FatalRun(enrolled, candidate, Exec(start, run).config.visible);
            Legal(start, fatal, Code) && LockedOut(Exec(start, fatal), Exec(start, fatal).state.visible)
  {
    RunKeepsInvariant(start, run, WriteAhead);
    var sys := Exec(start, run);
    UnsyncedCandidateLocksOut(sys, enrolled, candidate);
    RunsConcatenate(start, run, FatalRun(enrolled, candidate, sys.config.visible), Code);
  }

  // ---- The same for the first save ----

  // The first save fails after the rename, the next call sends the request, and a power loss takes the file away.
  function FatalEnrollment(s: DeviceState, token: string, newEndpoint: string, config: ConfigFile): seq<Action>
    requires s.pendingEnrollment.Some?
  {
    [Action.Save(Create, s, ReplacedNotSynced), SendBootstrap(token)]
    + [Deliver(BootstrapRequest(token, s.pendingEnrollment.value), newEndpoint), PowerLoss(None, config)]
  }

  function UnsyncedAndSentState(start: Sys, token: string, s: DeviceState): Sys
    requires s.pendingEnrollment.Some?
  {
    start.(state := AfterSave(start.state, Some(s), ReplacedNotSynced), mine := start.mine + {s.installation},
           minted := start.minted + {s.credential}, net := start.net + {BootstrapRequest(token, s.pendingEnrollment.value)})
  }

  // What is left after the whole run: no file, and an endpoint on the server.
  function LostAfterEnrollment(start: Sys, token: string, s: DeviceState, newEndpoint: string): Sys
    requires s.pendingEnrollment.Some?
  {
    UnsyncedAndSentState(start, token, s).(
      server := Handle(start.server, BootstrapRequest(token, s.pendingEnrollment.value), newEndpoint),
      state := AfterPowerLoss(None), config := AfterPowerLoss(start.config.visible))
  }

  lemma UnsyncedAndSent(start: Sys, token: string, s: DeviceState)
    requires start.state == AfterPowerLoss(None) && MaySave(start, Create, s)
    ensures var run := [Action.Save(Create, s, ReplacedNotSynced), SendBootstrap(token)];
            Legal(start, run, Code) && Exec(start, run) == UnsyncedAndSentState(start, token, s)
  {
    var save := Action.Save(Create, s, ReplacedNotSynced);
    TwoSteps(start, save, SendBootstrap(token));
    SendsUnsynced(start, token, s);
  }

  lemma SendsUnsynced(start: Sys, token: string, s: DeviceState)
    requires start.state == AfterPowerLoss(None) && s.endpoint == "" && s.pendingEnrollment.Some? && s.pendingRotation.None?
    ensures var saved := Apply(start, Action.Save(Create, s, ReplacedNotSynced));
            Enabled(saved, SendBootstrap(token), Code) && Apply(saved, SendBootstrap(token)) == UnsyncedAndSentState(start, token, s)
  {
    assert Held(s) == {s.credential};
  }

  lemma NothingLeftIsShutOut(server: Server, mine: set<string>, installation: string)
    requires installation in mine && installation in server.installations
    ensures IsShutOut(server, mine, None)
  {
  }

  lemma DeliveredThenLost(sent: Sys, message: Message, newEndpoint: string, after: Server, mode: Mode)
    requires message in sent.net && MayHandle(sent.server, message, newEndpoint) && !mode.NoPowerLoss?
    requires after == Handle(sent.server, message, newEndpoint)
    requires None in sent.state.outcomes && sent.config.visible in sent.config.outcomes
    ensures var run := [Deliver(message, newEndpoint), PowerLoss(None, sent.config.visible)];
            && Legal(sent, run, mode)
            && Exec(sent, run) == sent.(server := after, state := AfterPowerLoss(None), config := AfterPowerLoss(sent.config.visible))
  {
    var delivered := sent.(server := after);
    assert delivered == Apply(sent, Deliver(message, newEndpoint));
    LegalPair(sent, delivered, Deliver(message, newEndpoint), PowerLoss(None, sent.config.visible), mode);
  }

  lemma LegalPair(sys: Sys, middle: Sys, first: Action, second: Action, mode: Mode)
    requires middle == Apply(sys, first) && Enabled(sys, first, mode) && Enabled(middle, second, mode)
    ensures Legal(sys, [first, second], mode) && Exec(sys, [first, second]) == Apply(middle, second)
  {
    TwoSteps(sys, first, second);
  }

  lemma DeliveredAndLost(sent: Sys, token: string, request: EnrollmentRequest, newEndpoint: string, after: Server, mode: Mode)
    requires BootstrapRequest(token, request) in sent.net && IsFresh(sent.server, newEndpoint) && !mode.NoPowerLoss?
    requires after == Handle(sent.server, BootstrapRequest(token, request), newEndpoint)
    requires None in sent.state.outcomes && sent.config.visible in sent.config.outcomes
    requires request.installation in sent.mine && request.installation in after.installations
    ensures var run := [Deliver(BootstrapRequest(token, request), newEndpoint), PowerLoss(None, sent.config.visible)];
            && Legal(sent, run, mode) && LockedOut(Exec(sent, run), Exec(sent, run).state.visible)
            && Exec(sent, run) == sent.(server := after, state := AfterPowerLoss(None), config := AfterPowerLoss(sent.config.visible))
  {
    DeliveredThenLost(sent, BootstrapRequest(token, request), newEndpoint, after, mode);
    NothingLeftIsShutOut(after, sent.mine, request.installation);
  }

  // A device that could enroll can also be locked out before its first save is settled.
  lemma FirstEnrollmentCanLockOut(start: Sys, token: string, host: Host, random: Randomness, newEndpoint: string)
    requires Initial(start) && Recoverable(start, token, host, random, newEndpoint)
    ensures var s := EnrollmentState(host, start.architecture, random);
            var run := FatalEnrollment(s, token, newEndpoint, start.config.visible);
            && Legal(start, run, Code) && LockedOut(Exec(start, run), Exec(start, run).state.visible)
            && Exec(start, run) == LostAfterEnrollment(start, token, s, newEndpoint)
  {
    var s := EnrollmentState(host, start.architecture, random);
    assert MaySave(start, Create, s) by {
      NewStateMayBeCreated(start, host, random);
    }
    UnsyncedAndSent(start, token, s);
    UnsyncedEnrollmentIsLost(start, token, s, newEndpoint);
  }

  lemma UnsyncedEnrollmentIsLost(start: Sys, token: string, s: DeviceState, newEndpoint: string)
    requires Initial(start) && s.pendingEnrollment.Some? && s.pendingEnrollment.value.installation == s.installation
    requires RedeemableWith(start.server, token, s.pendingEnrollment.value, newEndpoint)
    requires var run := [Action.Save(Create, s, ReplacedNotSynced), SendBootstrap(token)];
             Legal(start, run, Code) && Exec(start, run) == UnsyncedAndSentState(start, token, s)
    ensures var run := FatalEnrollment(s, token, newEndpoint, start.config.visible);
            && Legal(start, run, Code) && LockedOut(Exec(start, run), Exec(start, run).state.visible)
            && Exec(start, run) == LostAfterEnrollment(start, token, s, newEndpoint)
  {
    var request := s.pendingEnrollment.value;
    DeliveredEnrollment(start.server, token, request, newEndpoint);
    LostAfterSending(start, token, s, newEndpoint, Handle(start.server, BootstrapRequest(token, request), newEndpoint));
  }

  lemma LostAfterSending(start: Sys, token: string, s: DeviceState, newEndpoint: string, after: Server)
    requires start.state == AfterPowerLoss(None) && start.config.Valid() && IsFresh(start.server, newEndpoint)
    requires s.pendingEnrollment.Some? && s.pendingEnrollment.value.installation == s.installation
    requires after == Handle(start.server, BootstrapRequest(token, s.pendingEnrollment.value), newEndpoint)
    requires s.installation in after.installations
    requires var run := [Action.Save(Create, s, ReplacedNotSynced), SendBootstrap(token)];
             Legal(start, run, Code) && Exec(start, run) == UnsyncedAndSentState(start, token, s)
    ensures var run := FatalEnrollment(s, token, newEndpoint, start.config.visible);
            && Legal(start, run, Code) && LockedOut(Exec(start, run), Exec(start, run).state.visible)
            && Exec(start, run) == LostAfterEnrollment(start, token, s, newEndpoint)
  {
    var request, sent := s.pendingEnrollment.value, UnsyncedAndSentState(start, token, s);
    DeliveredAndLost(sent, token, request, newEndpoint, after, Code);
    RunsConcatenate(start, [Action.Save(Create, s, ReplacedNotSynced), SendBootstrap(token)],
                    [Deliver(BootstrapRequest(token, request), newEndpoint), PowerLoss(None, start.config.visible)], Code);
  }
}
