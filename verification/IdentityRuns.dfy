/** The main results about whole runs of the identity protocol, and the exact point where they stop holding. */
module IdentityRuns {
  import opened Wrappers
  import opened DurableCell
  import opened CredentialText
  import opened IdentityServer
  import opened IdentityProtocol
  import opened IdentitySafety

  // The server has an endpoint for this agent, and nothing the device holds authenticates as that endpoint.
  ghost predicate LockedOut(sys: Sys, v: Option<DeviceState>) {
    IsShutOut(sys.server, sys.mine, v)
  }

  ghost predicate IsShutOut(server: Server, mine: set<string>, v: Option<DeviceState>) {
    exists i :: && i in mine && i in server.installations
                && (v.None? || forall m | m in Held(v.value) :: Authenticate(server, m) != Some(server.installations[i]))
  }

  lemma CoveredIsNotLockedOut(sys: Sys, contents: States, v: Option<DeviceState>)
    requires Core(sys, contents) && v in contents
    ensures !LockedOut(sys, v)
  {
    forall i | i in sys.mine && i in sys.server.installations
      ensures v.Some? && exists m :: m in Held(v.value) && Authenticate(sys.server, m) == Some(sys.server.installations[i])
    {
      assert Covers(sys.server, i, v);
      var s, endpoint := v.value, sys.server.installations[i];
      var m := if IsActive(sys.server, endpoint, s.credential) then s.credential else s.pendingRotation.value;
      assert m in Held(s) && Authenticate(sys.server, m) == Some(endpoint);
    }
  }

  // As long as requests are sent only when what they carry is durable, no crash, power loss, lost, late or repeated
  // message, failed save or foreign activity locks the device out: neither with the file it has now nor with any
  // content a power loss could leave it.
  lemma NeverLockedOut(start: Sys, run: seq<Action>, v: Option<DeviceState>)
    requires Initial(start) && Legal(start, run, WriteAhead) && v in Exec(start, run).state.outcomes
    ensures !LockedOut(Exec(start, run), v)
  {
    RunKeepsInvariant(start, run, WriteAhead);
    CoveredIsNotLockedOut(Exec(start, run), Exec(start, run).state.outcomes, v);
  }

  // On a machine that never loses power the code is safe as it stands, whatever its saves report.
  lemma NeverLockedOutWithoutPowerLoss(start: Sys, run: seq<Action>)
    requires Initial(start) && Legal(start, run, NoPowerLoss)
    ensures !LockedOut(Exec(start, run), Exec(start, run).state.visible)
  {
    RunKeepsInvariant(start, run, NoPowerLoss);
    CoveredIsNotLockedOut(Exec(start, run), {Exec(start, run).state.visible}, Exec(start, run).state.visible);
  }

  // The active credential of this agent's endpoint is the durable credential or the durable candidate.
  lemma ActiveCredentialIsDurable(start: Sys, run: seq<Action>, v: Option<DeviceState>, installation: string, m: Material)
    requires Initial(start) && Legal(start, run, WriteAhead)
    requires var sys := Exec(start, run);
             && v in sys.state.outcomes && installation in sys.mine && installation in sys.server.installations
             && IsActive(sys.server, sys.server.installations[installation], m)
    ensures v.Some? && v.value.installation == installation
    ensures m == v.value.credential || Some(m) == v.value.pendingRotation
  {
    RunKeepsInvariant(start, run, WriteAhead);
    assert Covers(Exec(start, run).server, installation, v);
  }

  // Bootstrap secrets leave the config only once every content that may survive names an endpoint.
  lemma SecretsClearedOnlyWhenEnrolled(start: Sys, run: seq<Action>)
    requires Initial(start) && Legal(start, run, WriteAhead) && Exec(start, run).cleared
    ensures EndpointIsDurable(Exec(start, run).state.outcomes)
  {
    RunKeepsInvariant(start, run, WriteAhead);
  }

  // ---- Enrollment happens at most once ----

  // Every bootstrap request sent so far is the one the files hold, and the files agree on the installation.
  ghost predicate OneEnrollment(sys: Sys, contents: States) {
    && (forall m | m in sys.net && m.BootstrapRequest? ::
          forall v | v in contents ::
            && v.Some? && v.value.installation == m.request.installation
            && (v.value.pendingEnrollment.Some? ==> v.value.pendingEnrollment == Some(m.request)))
    && (forall m, n | m in sys.net && n in sys.net && m.BootstrapRequest? && n.BootstrapRequest? :: m.request == n.request)
  }

  // No save changes the installation or makes up a new pending enrollment, except the one that starts it all.
  ghost predicate KeepsEnrollment(v: Option<DeviceState>, content: DeviceState) {
    v.Some? ==>
      && content.installation == v.value.installation
      && (content.pendingEnrollment == v.value.pendingEnrollment || content.pendingEnrollment.None?)
  }

  lemma SaveKeepsEnrollment(sys: Sys, kind: SaveKind, content: DeviceState)
    requires MaySave(sys, kind, content)
    ensures KeepsEnrollment(sys.state.visible, content)
  {
  }

  lemma MoreContentsKeepOneEnrollment(sys: Sys, contents: States, content: DeviceState)
    requires OneEnrollment(sys, contents) && sys.state.visible in contents && KeepsEnrollment(sys.state.visible, content)
    ensures OneEnrollment(sys, contents + {Some(content)})
  {
  }

  lemma FewerContentsKeepOneEnrollment(sys: Sys, contents: States, after: Sys, fewer: States)
    requires OneEnrollment(sys, contents) && fewer <= contents && after.net == sys.net
    ensures OneEnrollment(after, fewer)
  {
  }

  lemma SendBootstrapKeepsOneEnrollment(sys: Sys, token: string, contents: States)
    requires OneEnrollment(sys, contents) && sys.state.visible in contents
    requires CanSendBootstrap(sys) && BootstrapIsDurable(sys, contents)
    requires AllSound(sys.server, sys.mine, sys.minted, sys.architecture, contents)
    ensures OneEnrollment(Apply(sys, SendBootstrap(token)), contents)
  {
    var s := sys.state.visible.value;
    var request := s.pendingEnrollment.value;
    forall v | v in contents ensures v.Some? && v.value.installation == request.installation {
      assert StateSound(sys.server, sys.mine, sys.minted, sys.architecture, v.value);
    }
    forall m | m in sys.net && m.BootstrapRequest? ensures m.request == request {}
  }

  lemma OtherStepsOnlyForget(sys: Sys, a: Action, mode: Mode)
    requires !a.Save? && !a.SendBootstrap? && !a.SendRotate? && sys.state.Valid()
    requires a.PowerLoss? ==> mode.WriteAhead? && a.survivor in sys.state.outcomes
    ensures Apply(sys, a).net == sys.net && Contents(Apply(sys, a), mode) <= Contents(sys, mode)
  {
  }

  lemma StepKeepsOneEnrollment(sys: Sys, a: Action, mode: Mode)
    requires sys.state.Valid() && OneEnrollment(sys, Contents(sys, mode)) && Enabled(sys, a, mode) && !mode.Code?
    requires AllSound(sys.server, sys.mine, sys.minted, sys.architecture, Contents(sys, mode))
    ensures OneEnrollment(Apply(sys, a), Contents(Apply(sys, a), mode))
  {
    if a.Save? {
      var after, contents := Apply(sys, a), Contents(sys, mode);
      SaveKeepsEnrollment(sys, a.kind, a.content);
      MoreContentsKeepOneEnrollment(sys, contents, a.content);
      FewerContentsKeepOneEnrollment(sys, contents + {Some(a.content)}, after, Contents(after, mode));
    } else if a.SendBootstrap? {
      SendBootstrapKeepsOneEnrollment(sys, a.token, Contents(sys, mode));
    } else if a.SendRotate? {
      SendRotateKeepsOneEnrollment(sys, Contents(sys, mode));
    } else {
      OtherStepsOnlyForget(sys, a, mode);
      FewerContentsKeepOneEnrollment(sys, Contents(sys, mode), Apply(sys, a), Contents(Apply(sys, a), mode));
    }
  }

  lemma SendRotateKeepsOneEnrollment(sys: Sys, contents: States)
    requires OneEnrollment(sys, contents) && CanSendRotate(sys)
    ensures OneEnrollment(Apply(sys, SendRotate), contents)
  {
  }

  lemma {:induction false} RunKeepsOneEnrollment(start: Sys, run: seq<Action>, mode: Mode)
    requires Initial(start) && Legal(start, run, mode) && !mode.Code?
    ensures OneEnrollment(Exec(start, run), Contents(Exec(start, run), mode))
    decreases |run|
  {
    if run != [] {
      RunKeepsOneEnrollment(start, run[..|run| - 1], mode);
      RunKeepsInvariant(start, run[..|run| - 1], mode);
      StepKeepsOneEnrollment(Exec(start, run[..|run| - 1]), run[|run| - 1], mode);
    }
  }

  // However often enrollment is retried, interrupted or replayed: all bootstrap requests carry the same payload, the
  // agent has at most one endpoint, and it has consumed at most one redemption of any token.
  lemma EnrollmentHappensAtMostOnce(start: Sys, run: seq<Action>, mode: Mode)
    requires Initial(start) && Legal(start, run, mode) && !mode.Code?
    ensures var sys := Exec(start, run);
            && (forall m, n | m in sys.net && n in sys.net && m.BootstrapRequest? && n.BootstrapRequest? ::
                  m.request == n.request)
            && (forall i, j | i in sys.mine && j in sys.mine && i in sys.server.installations && j in sys.server.installations ::
                  i == j)
            && (forall k, l | k in sys.server.redemptions && l in sys.server.redemptions && k.1 in sys.mine && l.1 in sys.mine ::
                  k == l)
  {
    RunKeepsOneEnrollment(start, run, mode);
    RunKeepsInvariant(start, run, mode);
    var sys := Exec(start, run);
    forall i, j | i in sys.mine && j in sys.mine && i in sys.server.installations && j in sys.server.installations
      ensures i == j
    {
      assert Covers(sys.server, i, sys.state.visible) && Covers(sys.server, j, sys.state.visible);
    }
  }

  // ---- Where safety ends ----

  ghost predicate CanLockOut(sys: Sys) {
    exists run: seq<Action> :: Legal(sys, run, WriteAhead) && LockedOut(Exec(sys, run), Exec(sys, run).state.visible)
  }

  // A rotate request can be followed by a lock-out exactly when some content that may survive a power loss does not
  // hold the candidate yet. The agent knows: it is so only if its last save reported an error.
  lemma RotateIsSafeIffCandidateIsDurable(sys: Sys, endpoint: string)
    requires Inv(sys, WriteAhead) && CanSendRotate(sys)
    requires IsActive(sys.server, endpoint, sys.state.visible.value.credential)
    requires sys.state.visible.value.pendingRotation.value.id !in sys.server.credentials
    ensures CandidateIsDurable(sys, sys.state.outcomes) <==> !CanLockOut(Apply(sys, SendRotate))
  {
    var after := Apply(sys, SendRotate);
    if CandidateIsDurable(sys, sys.state.outcomes) {
      StepKeepsInvariant(sys, SendRotate, WriteAhead);
      forall run | Legal(after, run, WriteAhead) ensures !LockedOut(Exec(after, run), Exec(after, run).state.visible) {
        ContinuationKeepsInvariant(after, run, WriteAhead);
        CoveredIsNotLockedOut(Exec(after, run), Exec(after, run).state.outcomes, Exec(after, run).state.visible);
      }
    } else {
      var v :| v in sys.state.outcomes && !(v.Some? && v.value.endpoint != ""
                 && sys.state.visible.value.pendingRotation.value in Held(v.value));
      LosingTheCandidateLocksOut(sys, endpoint, v);
    }
  }

  // The request arrives, and the power fails before the candidate reaches the disk.
  lemma LosingTheCandidateLocksOut(sys: Sys, endpoint: string, v: Option<DeviceState>)
    requires Inv(sys, WriteAhead) && CanSendRotate(sys)
    requires IsActive(sys.server, endpoint, sys.state.visible.value.credential)
    requires sys.state.visible.value.pendingRotation.value.id !in sys.server.credentials
    requires v in sys.state.outcomes
    requires !(v.Some? && v.value.endpoint != "" && sys.state.visible.value.pendingRotation.value in Held(v.value))
    ensures CanLockOut(Apply(sys, SendRotate))
  {
    LosingTheCandidate(sys, endpoint, v, WriteAhead);
    LockOutIsReached(Apply(sys, SendRotate), [Deliver(RotateMessage(sys), ""), PowerLoss(v, sys.config.visible)]);
  }

  lemma LockOutIsReached(sys: Sys, run: seq<Action>)
    requires Legal(sys, run, WriteAhead) && LockedOut(Exec(sys, run), Exec(sys, run).state.visible)
    ensures CanLockOut(sys)
  {
  }

  lemma LosingTheCandidate(sys: Sys, endpoint: string, v: Option<DeviceState>, mode: Mode)
    requires Inv(sys, WriteAhead) && CanSendRotate(sys) && !mode.NoPowerLoss?
    requires IsActive(sys.server, endpoint, sys.state.visible.value.credential)
    requires sys.state.visible.value.pendingRotation.value.id !in sys.server.credentials
    requires v in sys.state.outcomes
    requires !(v.Some? && v.value.endpoint != "" && sys.state.visible.value.pendingRotation.value in Held(v.value))
    ensures var sent := Apply(sys, SendRotate);
            var run := [Deliver(RotateMessage(sys), ""), PowerLoss(v, sys.config.visible)];
            && Legal(sent, run, mode)
            && LockedOut(Exec(sent, run), Exec(sent, run).state.visible) && Exec(sent, run).state.visible == v
  {
    var s := sys.state.visible.value;
    var after := Rotated(sys.server, endpoint, s.credential, s.pendingRotation.value);
    assert after == Handle(sys.server, RotateMessage(sys), "") by {
      DeliveredRotation(sys, endpoint);
    }
    assert IsShutOut(after, sys.mine, v) by {
      NothingHeldIsActive(sys, endpoint, v);
    }
    DeliveredAndShutOut(sys, v, after, mode);
  }

  lemma DeliveredAndShutOut(sys: Sys, v: Option<DeviceState>, after: Server, mode: Mode)
    requires CanSendRotate(sys) && !mode.NoPowerLoss? && sys.config.Valid() && v in sys.state.outcomes
    requires after == Handle(sys.server, RotateMessage(sys), "") && IsShutOut(after, sys.mine, v)
    ensures var sent := Apply(sys, SendRotate);
            var run := [Deliver(RotateMessage(sys), ""), PowerLoss(v, sys.config.visible)];
            && Legal(sent, run, mode)
            && LockedOut(Exec(sent, run), Exec(sent, run).state.visible) && Exec(sent, run).state.visible == v
  {
    TwoSteps(Apply(sys, SendRotate), Deliver(RotateMessage(sys), ""), PowerLoss(v, sys.config.visible));
  }

  lemma PairIsAppended<T>(first: T, second: T)
    ensures [] + [first] == [first] && [first] + [second] == [first, second]
  {
  }

  lemma TwoSteps(sys: Sys, first: Action, second: Action)
    ensures Exec(sys, [first, second]) == Apply(Apply(sys, first), second)
    ensures forall mode | Enabled(sys, first, mode) && Enabled(Apply(sys, first), second, mode) ::
              Legal(sys, [first, second], mode)
  {
    ExecStep(sys, [], first);
    ExecStep(sys, [first], second);
    PairIsAppended(first, second);
  }

  lemma DeliveredRotation(sys: Sys, endpoint: string)
    requires Inv(sys, WriteAhead) && CanSendRotate(sys)
    requires IsActive(sys.server, endpoint, sys.state.visible.value.credential)
    requires sys.state.visible.value.pendingRotation.value.id !in sys.server.credentials
    ensures var s := sys.state.visible.value;
            Handle(sys.server, RotateMessage(sys), "") == Rotated(sys.server, endpoint, s.credential, s.pendingRotation.value)
  {
    var s := sys.state.visible.value;
    assert StateSound(sys.server, sys.mine, sys.minted, sys.architecture, s);
    RotateTakesEffect(sys.server, endpoint, s.credential, s.pendingRotation.value);
  }

  lemma RotateTakesEffect(server: Server, endpoint: string, bearer: Material, candidate: Material)
    requires Consistent(server) && IsActive(server, endpoint, bearer)
    requires ValidMaterial(candidate) && candidate.id !in server.credentials
    ensures Rotate(server, bearer, candidate).0 == Rotated(server, endpoint, bearer, candidate)
  {
  }

  lemma NothingHeldIsActive(sys: Sys, endpoint: string, v: Option<DeviceState>)
    requires Inv(sys, WriteAhead) && CanSendRotate(sys) && v in sys.state.outcomes
    requires var s := sys.state.visible.value;
             && IsActive(sys.server, endpoint, s.credential) && s.pendingRotation.value.id !in sys.server.credentials
             && !(v.Some? && v.value.endpoint != "" && s.pendingRotation.value in Held(v.value))
    ensures var s := sys.state.visible.value;
            IsShutOut(Rotated(sys.server, endpoint, s.credential, s.pendingRotation.value), sys.mine, v)
  {
    var s := sys.state.visible.value;
    assert StateSound(sys.server, sys.mine, sys.minted, sys.architecture, s);
    RotatedEndpointIsMine(sys, sys.state.outcomes, endpoint, s.credential);
    var installation := sys.server.endpoints[endpoint].installation.value;
    assert Covers(sys.server, installation, v);
    assert StateSound(sys.server, sys.mine, sys.minted, sys.architecture, v.value);
    OnlyTheCandidateIsActive(sys.server, endpoint, s.credential, s.pendingRotation.value, sys.minted, v.value);
  }

  lemma OnlyTheCandidateIsActive(
    server: Server, endpoint: string, bearer: Material, candidate: Material, minted: set<Material>, v: DeviceState)
    requires OneActive(server.credentials) && Distinct(minted) && Held(v) + {candidate} <= minted
    requires IsActive(server, endpoint, bearer) && candidate.id !in server.credentials
    requires Reaches(server, endpoint, v) && (v.endpoint == "" ==> v.pendingRotation.None?)
    requires v.endpoint != "" ==> candidate !in Held(v)
    ensures forall m | m in Held(v) :: Authenticate(Rotated(server, endpoint, bearer, candidate), m) != Some(endpoint)
  {
  }

  // A settled file is all the condition asks for: the code is safe after every save that returned nil.
  lemma SettledFileIsDurable(sys: Sys, mode: Mode)
    requires Inv(sys, mode) && sys.state.Settled()
    ensures CanSendRotate(sys) ==> CandidateIsDurable(sys, sys.state.outcomes)
    ensures CanSendBootstrap(sys) ==> BootstrapIsDurable(sys, sys.state.outcomes)
  {
    if sys.state.visible.Some? {
      assert StateSound(sys.server, sys.mine, sys.minted, sys.architecture, sys.state.visible.value);
    }
  }
}
