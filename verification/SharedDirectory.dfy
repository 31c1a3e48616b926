/**
 The agent's two files in one directory, where they are by default. A directory has one set of entries: what may survive
 are versions of both files together, and whatever settles one file settles the other. Every run of this system is a run
 of the protocol, in which the files have a directory each, so what is proved there holds here. The converse fails: here
 the secrets cannot be lost before the endpoint.
 */
module SharedDirectory {
  import opened Wrappers
  import opened DurableCell
  import opened CredentialText
  import opened IdentityServer
  import opened IdentityProtocol
  import opened IdentitySafety
  import opened IdentityRuns
  import opened IdentityWorld
  import opened IdentityPowerLoss
  import opened IdentityDurability
  import opened BootstrapSecrets
  import opened DeviceAgent

  // `sys` shows each file of `files` on its own.
  datatype Machine = Machine(files: Cell<Files>, sys: Sys)

  function StateIn(files: Files): Option<DeviceState> { files.state }

  function ConfigIn(files: Files): ConfigFile { files.config }

  ghost function WithFiles(sys: Sys, files: Cell<Files>): Sys {
    sys.(state := Decoded(files, StateIn), config := Decoded(files, ConfigIn))
  }

  ghost predicate Valid(d: Machine) {
    d.files.Valid() && d.sys == WithFiles(d.sys, d.files)
  }

  // ---- Steps ----

  function Touched(files: Cell<Files>, a: Action): Cell<Files> {
    match a
    case Save(_, content, result) => AfterSave(files, files.visible.(state := Some(content)), result)
    case ClearConfig(result) =>
      AfterSave(files, files.visible.(config := WithoutBootstrapSecrets(files.visible.config)), result)
    case WritebackState => AfterWriteback(files)
    case WritebackConfig => AfterWriteback(files)
    case PowerLoss(survivor, survivingConfig) => AfterPowerLoss(Files(survivor, survivingConfig))
    case _ => files
  }

  ghost function Step(d: Machine, a: Action): Machine {
    var files := Touched(d.files, a);
    Machine(files, WithFiles(Apply(d.sys, a), files))
  }

  // As in the protocol, but a power loss leaves one version of the directory.
  ghost predicate MayStep(d: Machine, a: Action, mode: Mode) {
    Enabled(d.sys, a, mode) && (a.PowerLoss? ==> Files(a.survivor, a.survivingConfig) in d.files.outcomes)
  }

  ghost function Run(d: Machine, run: seq<Action>): Machine
    decreases |run|
  {
    if run == [] then d else Step(Run(d, run[..|run| - 1]), run[|run| - 1])
  }

  ghost predicate MayRun(d: Machine, run: seq<Action>, mode: Mode)
    decreases |run|
  {
    run == [] ||
    (MayRun(d, run[..|run| - 1], mode) && MayStep(Run(d, run[..|run| - 1]), run[|run| - 1], mode))
  }

  lemma RunStep(d: Machine, run: seq<Action>, a: Action)
    ensures Run(d, run + [a]) == Step(Run(d, run), a)
    ensures forall mode :: MayRun(d, run + [a], mode) <==> MayRun(d, run, mode) && MayStep(Run(d, run), a, mode)
  {
    assert (run + [a])[..|run|] == run;
  }

  ghost predicate Fresh(d: Machine) { Valid(d) && Initial(d.sys) }

  // ---- Every run is a run of the protocol ----

  // A step that settles the directory is one that settles both files.
  predicate Settles(a: Action) {
    || a.WritebackState? || a.WritebackConfig?
    || (a.Save? && a.result.Saved?) || (a.ClearConfig? && a.saveResult.Saved?)
  }

  function Expanded(a: Action): seq<Action> {
    if Settles(a) then [a, WritebackState, WritebackConfig] else [a]
  }

  function Expansion(run: seq<Action>): seq<Action>
    decreases |run|
  {
    if run == [] then [] else Expansion(run[..|run| - 1]) + Expanded(run[|run| - 1])
  }

  lemma UnchangedPart<T>(files: Cell<Files>, content: Files, result: SaveResult, part: Files -> T)
    requires files.Valid() && part(content) == part(files.visible)
    ensures Decoded(AfterSave(files, content, result), part) ==
            if result.Saved? then AfterWriteback(Decoded(files, part)) else Decoded(files, part)
  {
    DecodingCommutesWithSave(files, content, result, part);
  }

  lemma SettledPart<T>(files: Cell<Files>, part: Files -> T)
    ensures Decoded(AfterWriteback(files), part) == AfterWriteback(Decoded(files, part))
  {
    assert part(files.visible) in Decoded(AfterWriteback(files), part).outcomes;
  }

  lemma SurvivingPart<T>(files: Files, part: Files -> T)
    ensures Decoded(AfterPowerLoss(files), part) == AfterPowerLoss(part(files))
  {
    assert part(files) in Decoded(AfterPowerLoss(files), part).outcomes;
  }

  lemma StepIsValid(d: Machine, a: Action)
    requires Valid(d)
    ensures Valid(Step(d, a))
  {
  }

  // The two files after a step, each seen on its own.
  lemma TouchedParts(files: Cell<Files>, a: Action, state: Cell<Option<DeviceState>>, config: Cell<ConfigFile>)
    requires files.Valid() && state == Decoded(files, StateIn) && config == Decoded(files, ConfigIn)
    ensures var after := Touched(files, a);
            && Decoded(after, StateIn) ==
               (match a
                case Save(_, content, result) => AfterSave(state, Some(content), result)
                case ClearConfig(result) => if result.Saved? then AfterWriteback(state) else state
                case WritebackState => AfterWriteback(state)
                case WritebackConfig => AfterWriteback(state)
                case PowerLoss(survivor, _) => AfterPowerLoss(survivor)
                case _ => state)
            && Decoded(after, ConfigIn) ==
               (match a
                case Save(_, _, result) => if result.Saved? then AfterWriteback(config) else config
                case ClearConfig(result) => AfterSave(config, WithoutBootstrapSecrets(config.visible), result)
                case WritebackState => AfterWriteback(config)
                case WritebackConfig => AfterWriteback(config)
                case PowerLoss(_, survivor) => AfterPowerLoss(survivor)
                case _ => config)
  {
    match a
    case Save(_, content, result) =>
      DecodingCommutesWithSave(files, files.visible.(state := Some(content)), result, StateIn);
      UnchangedPart(files, files.visible.(state := Some(content)), result, ConfigIn);
    case ClearConfig(result) =>
      var cleared := files.visible.(config := WithoutBootstrapSecrets(files.visible.config));
      DecodingCommutesWithSave(files, cleared, result, ConfigIn);
      UnchangedPart(files, cleared, result, StateIn);
    case WritebackState =>
      SettledPart(files, StateIn);
      SettledPart(files, ConfigIn);
    case WritebackConfig =>
      SettledPart(files, StateIn);
      SettledPart(files, ConfigIn);
    case PowerLoss(survivor, survivingConfig) =>
      SurvivingPart(Files(survivor, survivingConfig), StateIn);
      SurvivingPart(Files(survivor, survivingConfig), ConfigIn);
    case _ =>
  }

  // Without a settling, a step changes the files as in the protocol; with one, both are settled as well.
  lemma StepOfFiles(d: Machine, a: Action)
    requires Valid(d)
    ensures Step(d, a).sys ==
            if Settles(a) then Apply(Apply(Apply(d.sys, a), WritebackState), WritebackConfig) else Apply(d.sys, a)
  {
    TouchedParts(d.files, a, d.sys.state, d.sys.config);
  }

  lemma TripleIsAppended<T>(first: T, second: T, third: T)
    ensures [] + [first] == [first] && [first] + [second] == [first, second]
    ensures [first, second] + [third] == [first, second, third]
  {
  }

  lemma ExpandedStep(sys: Sys, a: Action, mode: Mode)
    requires Enabled(sys, a, mode)
    ensures Legal(sys, Expanded(a), mode)
    ensures Exec(sys, Expanded(a)) ==
            if Settles(a) then Apply(Apply(Apply(sys, a), WritebackState), WritebackConfig) else Apply(sys, a)
  {
    ExecStep(sys, [], a);
    TripleIsAppended(a, WritebackState, WritebackConfig);
    if Settles(a) {
      ExecStep(sys, [a], WritebackState);
      ExecStep(sys, [a, WritebackState], WritebackConfig);
    }
  }

  lemma {:induction false} SharedRunIsARun(d: Machine, run: seq<Action>, mode: Mode)
    requires Valid(d) && MayRun(d, run, mode)
    ensures Valid(Run(d, run))
    ensures Legal(d.sys, Expansion(run), mode) && Exec(d.sys, Expansion(run)) == Run(d, run).sys
    decreases |run|
  {
    if run != [] {
      var earlier, a := run[..|run| - 1], run[|run| - 1];
      SharedRunIsARun(d, earlier, mode);
      StepIsValid(Run(d, earlier), a);
      StepOfFiles(Run(d, earlier), a);
      ExpandedStep(Run(d, earlier).sys, a, mode);
      RunsConcatenate(d.sys, Expansion(earlier), Expanded(a), mode);
    }
  }

  // ---- What carries over ----

  lemma SharedRunKeepsInvariant(start: Machine, run: seq<Action>, mode: Mode)
    requires Fresh(start) && MayRun(start, run, mode) && !mode.Code?
    ensures Inv(Run(start, run).sys, mode)
  {
    SharedRunIsARun(start, run, mode);
    RunKeepsInvariant(start.sys, Expansion(run), mode);
  }

  lemma NeverLockedOutInOneDirectory(start: Machine, run: seq<Action>, files: Files)
    requires Fresh(start) && MayRun(start, run, WriteAhead) && files in Run(start, run).files.outcomes
    ensures !LockedOut(Run(start, run).sys, files.state)
  {
    SharedRunIsARun(start, run, WriteAhead);
    assert StateIn(files) in Run(start, run).sys.state.outcomes;
    NeverLockedOut(start.sys, Expansion(run), files.state);
  }

  // ---- The secrets ----

  lemma SaveKeepsNoneStranded(files: Cell<Files>, content: Files, result: SaveResult)
    requires (forall f | f in files.outcomes :: !IsStranded(f)) && !IsStranded(content)
    ensures forall f | f in AfterSave(files, content, result).outcomes :: !IsStranded(f)
  {
  }

  // The agent clears only a config beside an endpoint, and no later save takes the endpoint away.
  lemma TouchedIsNotStranded(d: Machine, a: Action, mode: Mode)
    requires Valid(d) && Basic(d.sys) && MayStep(d, a, mode) && !IsStranded(d.files.visible)
    ensures a.Save? ==> !IsStranded(d.files.visible.(state := Some(a.content)))
    ensures a.ClearConfig? ==> NamesEndpoint(d.files.visible.state)
  {
    if a.Save? && !a.kind.Create? {
      LaterSavesNameEndpoint(d.sys, a.kind, a.content);
    }
    if a.ClearConfig? {
      assert d.sys.state.visible in Contents(d.sys, mode);
    }
  }

  lemma StepKeepsNoneStranded(d: Machine, a: Action, mode: Mode)
    requires Valid(d) && Basic(d.sys) && MayStep(d, a, mode)
    requires forall files | files in d.files.outcomes :: !IsStranded(files)
    ensures forall files | files in Step(d, a).files.outcomes :: !IsStranded(files)
  {
    TouchedIsNotStranded(d, a, mode);
    if a.Save? {
      SaveKeepsNoneStranded(d.files, d.files.visible.(state := Some(a.content)), a.result);
    } else if a.ClearConfig? {
      var cleared := WithoutBootstrapSecrets(d.files.visible.config);
      SaveKeepsNoneStranded(d.files, d.files.visible.(config := cleared), a.saveResult);
    }
  }

  // In one directory no version that may survive is without endpoint and secrets, whatever the saves report.
  lemma {:induction false} SecretsAreKeptInOneDirectory(start: Machine, run: seq<Action>, mode: Mode)
    requires Fresh(start) && MayRun(start, run, mode)
    requires forall files | files in start.files.outcomes :: !SecretsGone(files.config)
    ensures forall files | files in Run(start, run).files.outcomes :: !IsStranded(files)
    decreases |run|
  {
    if run != [] {
      var earlier := run[..|run| - 1];
      SecretsAreKeptInOneDirectory(start, earlier, mode);
      SharedRunIsARun(start, earlier, mode);
      RunKeepsBasic(start.sys, Expansion(earlier), mode);
      StepKeepsNoneStranded(Run(start, earlier), run[|run| - 1], mode);
    }
  }

  // ---- What goes wrong here as well ----

  // The run replaces only the state file, and a power loss leaves the config as it is.
  predicate LeavesConfigAlone(run: seq<Action>, config: ConfigFile) {
    forall i | 0 <= i < |run| ::
      && !run[i].ClearConfig? && !run[i].WritebackConfig?
      && (run[i].PowerLoss? ==> run[i].survivingConfig == config)
  }

  // Every state that may survive may do so beside this config.
  ghost predicate Pairs(d: Machine, config: ConfigFile) {
    d.files.visible.config == config && forall v | v in d.sys.state.outcomes :: Files(v, config) in d.files.outcomes
  }

  // The same system, except for what else may survive of the config.
  ghost predicate SameButConfig(one: Sys, two: Sys) {
    && one.state == two.state && one.server == two.server && one.net == two.net && one.architecture == two.architecture
    && one.mine == two.mine && one.minted == two.minted && one.config.visible == two.config.visible
  }

  lemma SameStep(one: Sys, two: Sys, a: Action)
    requires SameButConfig(one, two) && two.config.Valid() && Enabled(one, a, Code)
    requires !a.ClearConfig? && !a.WritebackConfig? && (a.PowerLoss? ==> a.survivingConfig == two.config.visible)
    ensures Enabled(two, a, Code) && SameButConfig(Apply(one, a), Apply(two, a))
  {
  }

  lemma SteadyStep(d: Machine, a: Action, config: ConfigFile)
    requires Valid(d) && Pairs(d, config) && Enabled(d.sys, a, Code)
    requires !a.ClearConfig? && !a.WritebackConfig? && (a.PowerLoss? ==> a.survivingConfig == config)
    ensures MayStep(d, a, Code) && Pairs(Step(d, a), config) && SameButConfig(Apply(d.sys, a), Step(d, a).sys)
  {
    TouchedParts(d.files, a, d.sys.state, d.sys.config);
    StatesOfSteady(d, a, config);
  }

  lemma StatesOfSteady(d: Machine, a: Action, config: ConfigFile)
    requires Valid(d) && Pairs(d, config)
    requires !a.ClearConfig? && !a.WritebackConfig? && (a.PowerLoss? ==> a.survivingConfig == config)
    ensures Touched(d.files, a).visible.config == config
    ensures forall v | v in Decoded(Touched(d.files, a), StateIn).outcomes :: Files(v, config) in Touched(d.files, a).outcomes
  {
    forall v | v in Decoded(Touched(d.files, a), StateIn).outcomes ensures Files(v, config) in Touched(d.files, a).outcomes {
      var f :| f in Touched(d.files, a).outcomes && v == StateIn(f);
      if f in d.files.outcomes {
        assert v in d.sys.state.outcomes;
      }
    }
  }

  lemma {:induction false} SteadyRunCarriesOver(d: Machine, run: seq<Action>)
    requires Valid(d) && Pairs(d, d.files.visible.config)
    requires Legal(d.sys, run, Code) && LeavesConfigAlone(run, d.files.visible.config)
    ensures MayRun(d, run, Code) && Valid(Run(d, run)) && Pairs(Run(d, run), d.files.visible.config)
    ensures SameButConfig(Exec(d.sys, run), Run(d, run).sys)
    decreases |run|
  {
    if run != [] {
      var earlier, a := run[..|run| - 1], run[|run| - 1];
      SteadyRunCarriesOver(d, earlier);
      SameStep(Exec(d.sys, earlier), Run(d, earlier).sys, a);
      SteadyStep(Run(d, earlier), a, d.files.visible.config);
      SameStepsAgree(Exec(d.sys, earlier), Run(d, earlier), a);
    }
  }

  lemma SameStepsAgree(one: Sys, d: Machine, a: Action)
    requires SameButConfig(Apply(one, a), Apply(d.sys, a)) && SameButConfig(Apply(d.sys, a), Step(d, a).sys)
    ensures SameButConfig(Apply(one, a), Step(d, a).sys)
  {
  }

  lemma FreshPairs(start: Machine)
    requires Fresh(start)
    ensures Pairs(start, start.files.visible.config) && start.sys.config.visible == start.files.visible.config
  {
    forall v | v in start.sys.state.outcomes ensures Files(v, start.files.visible.config) in start.files.outcomes {
      assert StateIn(start.files.visible) in start.sys.state.outcomes;
    }
  }

  lemma LockOutCarriesOver(start: Machine, run: seq<Action>)
    requires Fresh(start) && LeavesConfigAlone(run, start.sys.config.visible)
    requires Legal(start.sys, run, Code) && LockedOut(Exec(start.sys, run), Exec(start.sys, run).state.visible)
    ensures MayRun(start, run, Code) && LockedOut(Run(start, run).sys, Run(start, run).sys.state.visible)
  {
    FreshPairs(start);
    SteadyRunCarriesOver(start, run);
  }

  lemma SecondEnrollmentCarriesOver(start: Machine, run: seq<Action>)
    requires Fresh(start) && LeavesConfigAlone(run, start.sys.config.visible)
    requires Legal(start.sys, run, Code) && EnrolledTwice(Exec(start.sys, run))
    ensures MayRun(start, run, Code) && EnrolledTwice(Run(start, run).sys)
  {
    FreshPairs(start);
    SteadyRunCarriesOver(start, run);
  }

  lemma BothLeaveConfigAlone(first: seq<Action>, second: seq<Action>, config: ConfigFile)
    requires LeavesConfigAlone(first, config) && LeavesConfigAlone(second, config)
    ensures LeavesConfigAlone(first + second, config)
  {
  }

  lemma FatalEnrollmentLeavesConfigAlone(s: DeviceState, token: string, newEndpoint: string, config: ConfigFile)
    requires s.pendingEnrollment.Some?
    ensures LeavesConfigAlone(FatalEnrollment(s, token, newEndpoint, config), config)
  {
    BothLeaveConfigAlone(
      [Action.Save(Create, s, ReplacedNotSynced), SendBootstrap(token)],
      [Deliver(BootstrapRequest(token, s.pendingEnrollment.value), newEndpoint), PowerLoss(None, config)], config);
  }

  lemma EnrollingAgainLeavesConfigAlone(second: DeviceState, token: string, newEndpoint: string, config: ConfigFile)
    requires second.pendingEnrollment.Some?
    ensures LeavesConfigAlone(EnrollingAgain(second, token, newEndpoint), config)
  {
  }

  lemma LockOutRunLeavesConfigAlone(
    s: DeviceState, token: string, newEndpoint: string, endpoint: string, candidate: Material, config: ConfigFile)
    requires s.pendingEnrollment.Some?
    ensures LeavesConfigAlone(LockOutRun(s, token, newEndpoint, endpoint, candidate, config), config)
  {
    var promoted := Promoted(s, endpoint);
    BothLeaveConfigAlone(
      [Action.Save(Create, s, Saved), SendBootstrap(token)],
      [Deliver(BootstrapRequest(token, s.pendingEnrollment.value), newEndpoint),
       Action.Save(PromoteEnrollment, promoted, Saved)], config);
    BothLeaveConfigAlone([MintUnsynced(promoted, candidate), SendRotate], FatalEnd(promoted, candidate, config), config);
    BothLeaveConfigAlone(EnrollmentRun(s, token, newEndpoint, endpoint), FatalRun(promoted, candidate, config), config);
  }

  lemma CodeCanLockItselfOutInOneDirectory(
    start: Machine, token: string, host: Host, random: Randomness, newEndpoint: string, candidate: Material)
    requires Fresh(start) && Recoverable(start.sys, token, host, random, newEndpoint)
    requires ValidMaterial(candidate) && candidate.id !in start.sys.server.credentials
    requires candidate.id != random.Credential().id
    ensures var s := EnrollmentState(host, start.sys.architecture, random);
            var endpoint := EnrolledEndpoint(start.sys.server, s.pendingEnrollment.value, newEndpoint);
            var run := LockOutRun(s, token, newEndpoint, endpoint, candidate, start.sys.config.visible);
            MayRun(start, run, Code) && LockedOut(Run(start, run).sys, Run(start, run).sys.state.visible)
  {
    var s := EnrollmentState(host, start.sys.architecture, random);
    var endpoint := EnrolledEndpoint(start.sys.server, s.pendingEnrollment.value, newEndpoint);
    CodeCanLockItselfOut(start.sys, token, host, random, newEndpoint, candidate);
    LockOutRunLeavesConfigAlone(s, token, newEndpoint, endpoint, candidate, start.sys.config.visible);
    LockOutCarriesOver(start, LockOutRun(s, token, newEndpoint, endpoint, candidate, start.sys.config.visible));
  }

  lemma FirstEnrollmentCanLockOutInOneDirectory(
    start: Machine, token: string, host: Host, random: Randomness, newEndpoint: string)
    requires Fresh(start) && Recoverable(start.sys, token, host, random, newEndpoint)
    ensures var s := EnrollmentState(host, start.sys.architecture, random);
            var run := FatalEnrollment(s, token, newEndpoint, start.sys.config.visible);
            MayRun(start, run, Code) && LockedOut(Run(start, run).sys, Run(start, run).sys.state.visible)
  {
    var s := EnrollmentState(host, start.sys.architecture, random);
    FirstEnrollmentCanLockOut(start.sys, token, host, random, newEndpoint);
    FatalEnrollmentLeavesConfigAlone(s, token, newEndpoint, start.sys.config.visible);
    LockOutCarriesOver(start, FatalEnrollment(s, token, newEndpoint, start.sys.config.visible));
  }

  lemma CodeCanEnrollTwiceInOneDirectory(
    start: Machine, token: string, host: Host, random: Randomness, newEndpoint: string,
    second: DeviceState, secondToken: string, secondEndpoint: string)
    requires Fresh(start) && Recoverable(start.sys, token, host, random, newEndpoint)
    requires IsSecondChance(start.sys, token, EnrollmentState(host, start.sys.architecture, random), newEndpoint,
                            second, secondToken, secondEndpoint)
    ensures var s := EnrollmentState(host, start.sys.architecture, random);
            var run := FatalEnrollment(s, token, newEndpoint, start.sys.config.visible)
                       + EnrollingAgain(second, secondToken, secondEndpoint);
            MayRun(start, run, Code) && EnrolledTwice(Run(start, run).sys)
  {
    var s, config := EnrollmentState(host, start.sys.architecture, random), start.sys.config.visible;
    var losing, again := FatalEnrollment(s, token, newEndpoint, config), EnrollingAgain(second, secondToken, secondEndpoint);
    CodeCanEnrollTwice(start.sys, token, host, random, newEndpoint, second, secondToken, secondEndpoint);
    FatalEnrollmentLeavesConfigAlone(s, token, newEndpoint, config);
    EnrollingAgainLeavesConfigAlone(second, secondToken, secondEndpoint, config);
    BothLeaveConfigAlone(losing, again, config);
    SecondEnrollmentCarriesOver(start, losing + again);
  }

  // ---- And the exact conditions ----

  ghost predicate CanLockOutTogether(d: Machine) {
    exists run: seq<Action> :: MayRun(d, run, WriteAhead) && LockedOut(Run(d, run).sys, Run(d, run).sys.state.visible)
  }

  // A request can be followed by a lock-out here only if it can in the protocol.
  lemma LockOutTogetherIsALockOut(d: Machine)
    requires Valid(d) && CanLockOutTogether(d)
    ensures CanLockOut(d.sys)
  {
    var run :| MayRun(d, run, WriteAhead) && LockedOut(Run(d, run).sys, Run(d, run).sys.state.visible);
    SharedRunIsARun(d, run, WriteAhead);
    LockOutIsReached(d.sys, Expansion(run));
  }

  // The request arrives, and the power loss that follows leaves this version of the directory.
  lemma LostTogether(d: Machine, message: Message, newEndpoint: string, files: Files, after: Server)
    requires Valid(d) && message in d.sys.net && MayHandle(d.sys.server, message, newEndpoint) && files in d.files.outcomes
    requires after == Handle(d.sys.server, message, newEndpoint) && IsShutOut(after, d.sys.mine, files.state)
    ensures CanLockOutTogether(d)
  {
    var deliver, lose := Deliver(message, newEndpoint), PowerLoss(files.state, files.config);
    var delivered := Step(d, deliver);
    StepOfFiles(d, deliver);
    StepIsValid(d, deliver);
    SurvivorsOnTheirOwn(delivered, files);
    StepOfFiles(delivered, lose);
    TwoStepsTogether(d, delivered, deliver, lose);
    assert LockedOut(Run(d, [deliver, lose]).sys, Run(d, [deliver, lose]).sys.state.visible);
  }

  lemma SurvivorsOnTheirOwn(d: Machine, files: Files)
    requires Valid(d) && files in d.files.outcomes
    ensures files.state in d.sys.state.outcomes && files.config in d.sys.config.outcomes
  {
    assert StateIn(files) in d.sys.state.outcomes && ConfigIn(files) in d.sys.config.outcomes;
  }

  lemma TwoStepsTogether(d: Machine, after: Machine, first: Action, second: Action)
    requires after == Step(d, first) && MayStep(d, first, WriteAhead) && MayStep(after, second, WriteAhead)
    ensures MayRun(d, [first, second], WriteAhead) && Run(d, [first, second]) == Step(after, second)
  {
    RunStep(d, [], first);
    RunStep(d, [first], second);
    PairIsAppended(first, second);
  }

  lemma RotateIsSafeIffCandidateIsDurableInOneDirectory(d: Machine, endpoint: string)
    requires Valid(d) && Inv(d.sys, WriteAhead) && CanSendRotate(d.sys)
    requires IsActive(d.sys.server, endpoint, d.sys.state.visible.value.credential)
    requires d.sys.state.visible.value.pendingRotation.value.id !in d.sys.server.credentials
    ensures CandidateIsDurable(d.sys, d.sys.state.outcomes) <==> !CanLockOutTogether(Step(d, SendRotate))
  {
    var sent := Step(d, SendRotate);
    StepOfFiles(d, SendRotate);
    StepIsValid(d, SendRotate);
    if CandidateIsDurable(d.sys, d.sys.state.outcomes) {
      RotateIsSafeIffCandidateIsDurable(d.sys, endpoint);
      if CanLockOutTogether(sent) {
        LockOutTogetherIsALockOut(sent);
      }
    } else {
      LosingTheCandidateTogether(d, endpoint);
    }
  }

  lemma LosingTheCandidateTogether(d: Machine, endpoint: string)
    requires Valid(d) && Inv(d.sys, WriteAhead) && CanSendRotate(d.sys)
    requires IsActive(d.sys.server, endpoint, d.sys.state.visible.value.credential)
    requires d.sys.state.visible.value.pendingRotation.value.id !in d.sys.server.credentials
    requires !CandidateIsDurable(d.sys, d.sys.state.outcomes)
    ensures CanLockOutTogether(Step(d, SendRotate))
  {
    var files := VersionWithoutCandidate(d);
    var s := d.sys.state.visible.value;
    var after := Rotated(d.sys.server, endpoint, s.credential, s.pendingRotation.value);
    assert after == Handle(d.sys.server, RotateMessage(d.sys), "") by { DeliveredRotation(d.sys, endpoint); }
    assert IsShutOut(after, d.sys.mine, files.state) by { NothingHeldIsActive(d.sys, endpoint, files.state); }
    SentRotationTogether(d);
    LostTogether(Step(d, SendRotate), RotateMessage(d.sys), "", files, after);
  }

  lemma VersionWithoutCandidate(d: Machine) returns (files: Files)
    requires Valid(d) && CanSendRotate(d.sys) && !CandidateIsDurable(d.sys, d.sys.state.outcomes)
    ensures files in d.files.outcomes && files.state in d.sys.state.outcomes
    ensures !(NamesEndpoint(files.state) && d.sys.state.visible.value.pendingRotation.value in Held(files.state.value))
  {
    var candidate := d.sys.state.visible.value.pendingRotation.value;
    var v :| v in d.sys.state.outcomes && !(NamesEndpoint(v) && candidate in Held(v.value));
    files :| files in d.files.outcomes && StateIn(files) == v;
  }

  lemma SentRotationTogether(d: Machine)
    requires Valid(d) && CanSendRotate(d.sys)
    ensures var sent := Step(d, SendRotate);
            && Valid(sent) && sent.files == d.files && RotateMessage(d.sys) in sent.sys.net
            && sent.sys.server == d.sys.server && sent.sys.mine == d.sys.mine
  {
    StepIsValid(d, SendRotate);
    StepOfFiles(d, SendRotate);
  }

  lemma SentBootstrapTogether(d: Machine, token: string)
    requires Valid(d) && CanSendBootstrap(d.sys)
    ensures var sent := Step(d, SendBootstrap(token));
            && Valid(sent) && sent.files == d.files && BootstrapMessage(d.sys, token) in sent.sys.net
            && sent.sys.server == d.sys.server && sent.sys.mine == d.sys.mine
  {
    StepIsValid(d, SendBootstrap(token));
    StepOfFiles(d, SendBootstrap(token));
  }

  lemma BootstrapIsSafeIffDurableInOneDirectory(start: Machine, run: seq<Action>, token: string, newEndpoint: string)
    requires Fresh(start) && MayRun(start, run, WriteAhead) && CanSendBootstrap(Run(start, run).sys)
    requires var sys := Run(start, run).sys;
             RedeemableWith(sys.server, token, sys.state.visible.value.pendingEnrollment.value, newEndpoint)
    ensures var d := Run(start, run);
            BootstrapIsDurable(d.sys, d.sys.state.outcomes) <==> !CanLockOutTogether(Step(d, SendBootstrap(token)))
  {
    var d := Run(start, run);
    SharedRunIsARun(start, run, WriteAhead);
    StepOfFiles(d, SendBootstrap(token));
    StepIsValid(d, SendBootstrap(token));
    if BootstrapIsDurable(d.sys, d.sys.state.outcomes) {
      BootstrapIsSafeIffDurable(start.sys, Expansion(run), token, newEndpoint);
      if CanLockOutTogether(Step(d, SendBootstrap(token))) {
        LockOutTogetherIsALockOut(Step(d, SendBootstrap(token)));
      }
    } else {
      RunKeepsInvariant(start.sys, Expansion(run), WriteAhead);
      RunKeepsBasic(start.sys, Expansion(run), WriteAhead);
      OnlyNothingMaySurvive(d.sys);
      LosingTheEnrollmentTogether(d, token, newEndpoint);
    }
  }

  lemma LosingTheEnrollmentTogether(d: Machine, token: string, newEndpoint: string)
    requires Valid(d) && Inv(d.sys, WriteAhead) && CanSendBootstrap(d.sys) && None in d.sys.state.outcomes
    requires RedeemableWith(d.sys.server, token, d.sys.state.visible.value.pendingEnrollment.value, newEndpoint)
    ensures CanLockOutTogether(Step(d, SendBootstrap(token)))
  {
    var files :| files in d.files.outcomes && StateIn(files) == None;
    var s := d.sys.state.visible.value;
    var after := Handle(d.sys.server, BootstrapMessage(d.sys, token), newEndpoint);
    assert IsShutOut(after, d.sys.mine, None) by {
      PendingStateIsWellFormed(d.sys, WriteAhead, s);
      DeliveredEnrollment(d.sys.server, token, s.pendingEnrollment.value, newEndpoint);
    }
    SentBootstrapTogether(d, token);
    LostTogether(Step(d, SendBootstrap(token)), BootstrapMessage(d.sys, token), newEndpoint, files, after);
  }
}
