/**
 The bootstrap secrets and the endpoint that replaces them, over what may survive of the agent's two files when each has
 a directory of its own. The agent removes the secrets from its config after it has saved the endpoint, and that save may
 have failed after its rename.
 */
module BootstrapSecrets {
  import opened Wrappers
  import opened DurableCell
  import opened CredentialText
  import opened IdentityServer
  import opened IdentityProtocol
  import opened IdentitySafety
  import opened IdentityRuns
  import opened IdentityWorld
  import opened IdentityPowerLoss
  import opened IdentityDurability
  import opened DeviceAgent

  predicate NamesEndpoint(v: Option<DeviceState>) { v.Some? && v.value.endpoint != "" }

  // The device has neither an endpoint nor the secrets to get one.
  predicate IsStranded(files: Files) {
    SecretsGone(files.config) && !NamesEndpoint(files.state)
  }

  // No pair of contents that may survive is stranded.
  ghost predicate KeepsSecrets(sys: Sys) {
    forall v, config | v in sys.state.outcomes && config in sys.config.outcomes :: !IsStranded(Files(v, config))
  }

  // At no point of the run.
  ghost predicate AlwaysKeepsSecrets(start: Sys, run: seq<Action>)
    decreases |run|
  {
    KeepsSecrets(Exec(start, run)) && (run != [] ==> AlwaysKeepsSecrets(start, run[..|run| - 1]))
  }

  // ---- What else the config says ----

  // The original config, or that without both secrets and nothing else changed.
  predicate IsRemnantOf(config: ConfigFile, original: ConfigFile) {
    && config.rest == original.rest
    && (|| (config.enrollmentToken == original.enrollmentToken && config.apiToken == original.apiToken)
        || (config.enrollmentToken.None? && config.apiToken.None?))
  }

  ghost predicate AllRemnants(cell: Cell<ConfigFile>, original: ConfigFile) {
    IsRemnantOf(cell.visible, original) && forall config | config in cell.outcomes :: IsRemnantOf(config, original)
  }

  // Along every run, whatever survives of the config keeps the rest of it, and loses the two secrets together or not at all.
  lemma {:induction false} RunKeepsRestOfConfig(start: Sys, run: seq<Action>, mode: Mode, original: ConfigFile)
    requires Legal(start, run, mode) && AllRemnants(start.config, original)
    ensures AllRemnants(Exec(start, run).config, original)
    decreases |run|
  {
    if run != [] {
      RunKeepsRestOfConfig(start, run[..|run| - 1], mode, original);
      StepKeepsRestOfConfig(Exec(start, run[..|run| - 1]), run[|run| - 1], mode, original);
    }
  }

  lemma StepKeepsRestOfConfig(sys: Sys, a: Action, mode: Mode, original: ConfigFile)
    requires Enabled(sys, a, mode) && AllRemnants(sys.config, original)
    ensures AllRemnants(Apply(sys, a).config, original)
  {
  }

  // ---- What the agent knows ----

  // The step leaves one content of the state file: a save that returned nil, the kernel's own writeback, or a power loss.
  predicate SettlesState(a: Action) {
    (a.Save? && a.result.Saved?) || a.WritebackState? || a.PowerLoss?
  }

  predicate IsUnsyncedPromotion(a: Action) {
    a.Save? && a.kind.PromoteEnrollment? && a.result.ReplacedNotSynced?
  }

  // The last promotion failed after its rename, and nothing has settled the state file since.
  predicate PromotionIsOpen(run: seq<Action>)
    decreases |run|
  {
    run != [] &&
    var a := run[|run| - 1];
    (IsUnsyncedPromotion(a) || (!SettlesState(a) && PromotionIsOpen(run[..|run| - 1])))
  }

  predicate ReplacesConfig(a: Action) { a.ClearConfig? && !a.saveResult.NotReplaced? }

  // No clear replaces the config while a promotion is open.
  predicate ClearsWait(run: seq<Action>)
    decreases |run|
  {
    run != [] ==>
      && ClearsWait(run[..|run| - 1])
      && (ReplacesConfig(run[|run| - 1]) ==> !PromotionIsOpen(run[..|run| - 1]))
  }

  // ---- What that means for the state file ----

  // A content without endpoint may survive beside a visible one with an endpoint exactly while a promotion is open.
  ghost predicate OpenMeansLosable(sys: Sys, open: bool) {
    && (open ==> NamesEndpoint(sys.state.visible) && !EndpointIsDurable(sys.state.outcomes))
    && (!open && NamesEndpoint(sys.state.visible) ==> EndpointIsDurable(sys.state.outcomes))
  }

  lemma SaveKeepsMeaning(sys: Sys, kind: SaveKind, content: DeviceState, result: SaveResult, open: bool)
    requires Basic(sys) && OpenMeansLosable(sys, open) && MaySave(sys, kind, content)
    ensures var save := Action.Save(kind, content, result);
            OpenMeansLosable(Apply(sys, save), IsUnsyncedPromotion(save) || (!SettlesState(save) && open))
  {
    if !kind.Create? {
      LaterSavesNameEndpoint(sys, kind, content);
      LaterSavesFollowEndpoint(sys, kind, content);
    }
    SavedMeaning(sys.state, content, result, kind.PromoteEnrollment?, open);
  }

  lemma LaterSavesFollowEndpoint(sys: Sys, kind: SaveKind, content: DeviceState)
    requires Consistent(sys.server) && MaySave(sys, kind, content) && !kind.Create?
    ensures NamesEndpoint(sys.state.visible) <==> !kind.PromoteEnrollment?
  {
    LaterSavesNameEndpoint(sys, kind, content);
  }

  lemma SavedMeaning(file: Cell<Option<DeviceState>>, content: DeviceState, result: SaveResult, promotes: bool, open: bool)
    requires file.Valid()
    requires open ==> NamesEndpoint(file.visible) && !EndpointIsDurable(file.outcomes)
    requires !open && NamesEndpoint(file.visible) ==> EndpointIsDurable(file.outcomes)
    requires content.endpoint != "" ==> (NamesEndpoint(file.visible) <==> !promotes)
    requires content.endpoint == "" ==> !promotes && file.visible.None?
    ensures var after, still := AfterSave(file, Some(content), result),
                                (promotes && result.ReplacedNotSynced?) || (!result.Saved? && open);
            && (still ==> NamesEndpoint(after.visible) && !EndpointIsDurable(after.outcomes))
            && (!still && NamesEndpoint(after.visible) ==> EndpointIsDurable(after.outcomes))
  {
    assert file.visible in AfterSave(file, Some(content), ReplacedNotSynced).outcomes;
  }

  lemma StepKeepsMeaning(sys: Sys, a: Action, open: bool)
    requires Basic(sys) && OpenMeansLosable(sys, open) && Enabled(sys, a, Code)
    ensures OpenMeansLosable(Apply(sys, a), IsUnsyncedPromotion(a) || (!SettlesState(a) && open))
  {
    if a.Save? {
      SaveKeepsMeaning(sys, a.kind, a.content, a.result, open);
    }
  }

  lemma {:induction false} OpenPromotionIsLosable(start: Sys, run: seq<Action>)
    requires Initial(start) && Legal(start, run, Code)
    ensures OpenMeansLosable(Exec(start, run), PromotionIsOpen(run))
    decreases |run|
  {
    if run != [] {
      var earlier := run[..|run| - 1];
      OpenPromotionIsLosable(start, earlier);
      RunKeepsBasic(start, earlier, Code);
      StepKeepsMeaning(Exec(start, earlier), run[|run| - 1], PromotionIsOpen(earlier));
    }
  }

  // ---- The secrets ----

  lemma DurableEndpointStays(sys: Sys, a: Action, mode: Mode)
    requires Basic(sys) && Enabled(sys, a, mode) && EndpointIsDurable(sys.state.outcomes)
    ensures EndpointIsDurable(Apply(sys, a).state.outcomes)
  {
    assert sys.state.visible in sys.state.outcomes;
    if a.Save? {
      LaterSavesNameEndpoint(sys, a.kind, a.content);
      SavedEndpointIsDurable(sys.state, a.content, a.result);
    }
  }

  lemma SavedEndpointIsDurable(file: Cell<Option<DeviceState>>, content: DeviceState, result: SaveResult)
    requires EndpointIsDurable(file.outcomes) && content.endpoint != ""
    ensures EndpointIsDurable(AfterSave(file, Some(content), result).outcomes)
  {
  }

  lemma WithoutSecretsTheyAreGone(config: ConfigFile)
    ensures SecretsGone(WithoutBootstrapSecrets(config))
  {
  }

  lemma ClearKeepsSecretsIff(sys: Sys, result: SaveResult)
    requires KeepsSecrets(sys)
    ensures KeepsSecrets(Apply(sys, ClearConfig(result))) <==> (!result.NotReplaced? ==> EndpointIsDurable(sys.state.outcomes))
  {
    var cleared, after := WithoutBootstrapSecrets(sys.config.visible), Apply(sys, ClearConfig(result));
    WithoutSecretsTheyAreGone(sys.config.visible);
    if !result.NotReplaced? && KeepsSecrets(after) {
      forall v | v in sys.state.outcomes ensures NamesEndpoint(v) {
        assert !IsStranded(Files(v, cleared));
      }
    }
  }

  lemma OtherStepKeepsSecrets(sys: Sys, a: Action)
    requires Basic(sys) && Enabled(sys, a, Code) && KeepsSecrets(sys) && !a.ClearConfig?
    ensures KeepsSecrets(Apply(sys, a))
  {
    if config :| config in sys.config.outcomes && SecretsGone(config) {
      forall v | v in sys.state.outcomes ensures NamesEndpoint(v) {
        assert !IsStranded(Files(v, config));
      }
      DurableEndpointStays(sys, a, Code);
    }
    OtherStepKeepsConfigs(sys, a);
  }

  lemma OtherStepKeepsConfigs(sys: Sys, a: Action)
    requires sys.config.Valid() && Enabled(sys, a, Code) && !a.ClearConfig?
    ensures Apply(sys, a).config.outcomes <= sys.config.outcomes
  {
  }

  // Over all runs of the code from a device that has its secrets: they are kept until the endpoint is durable exactly if
  // no clear replaces the config while a promotion is open.
  lemma {:induction false} SecretsAreKeptIffClearsWait(start: Sys, run: seq<Action>)
    requires Initial(start) && Legal(start, run, Code)
    requires forall config | config in start.config.outcomes :: !SecretsGone(config)
    ensures AlwaysKeepsSecrets(start, run) <==> ClearsWait(run)
    decreases |run|
  {
    if run != [] {
      var earlier, a := run[..|run| - 1], run[|run| - 1];
      var sys := Exec(start, earlier);
      SecretsAreKeptIffClearsWait(start, earlier);
      RunKeepsBasic(start, earlier, Code);
      OpenPromotionIsLosable(start, earlier);
      if AlwaysKeepsSecrets(start, earlier) {
        if a.ClearConfig? {
          ClearKeepsSecretsIff(sys, a.saveResult);
        } else {
          OtherStepKeepsSecrets(sys, a);
        }
      }
    }
  }

  // No save since
  predicate IsQuiet(run: seq<Action>) {
    forall i | 0 <= i < |run| :: !run[i].Save?
  }

  // After a save, either nothing but the visible content can survive, or what could survive then still can.
  lemma {:induction false} QuietRunSettlesOrKeeps(sys: Sys, run: seq<Action>, mode: Mode)
    requires sys.state.Valid() && Legal(sys, run, mode) && IsQuiet(run)
    ensures Exec(sys, run).state == sys.state || Exec(sys, run).state.Settled()
    ensures sys.state.Settled() ==> Exec(sys, run).state.Settled()
    decreases |run|
  {
    if run != [] {
      QuietRunSettlesOrKeeps(sys, run[..|run| - 1], mode);
    }
  }

  // The clear that follows the promotion of an enrollment: it finds a durable endpoint exactly if the file is settled,
  // which the agent knows if the save of the promotion returned nil.
  lemma ClearAfterPromotionIsSafeIffSettled(
    start: Sys, run: seq<Action>, content: DeviceState, result: SaveResult, quiet: seq<Action>, clear: SaveResult)
    requires Initial(start) && Legal(start, run + [Action.Save(PromoteEnrollment, content, result)] + quiet, Code)
    requires result != NotReplaced && IsQuiet(quiet)
    requires Enabled(Exec(start, run + [Action.Save(PromoteEnrollment, content, result)] + quiet), ClearConfig(clear), Code)
    ensures var sys := Exec(start, run + [Action.Save(PromoteEnrollment, content, result)] + quiet);
            && (EndpointIsDurable(sys.state.outcomes) <==> sys.state.Settled())
            && (result == Saved ==> sys.state.Settled())
  {
    var save := Action.Save(PromoteEnrollment, content, result);
    RunsConcatenate(start, run + [save], quiet, Code);
    RunsConcatenate(start, run, [save], Code);
    ExecStep(start, run, save);
    RunKeepsBasic(start, run, Code);
    PromotionThenQuiet(Exec(start, run), content, result, quiet);
  }

  lemma PromotionThenQuiet(sys: Sys, content: DeviceState, result: SaveResult, quiet: seq<Action>)
    requires sys.state.Valid() && MaySave(sys, PromoteEnrollment, content) && result != NotReplaced
    requires var saved := Apply(sys, Action.Save(PromoteEnrollment, content, result));
             && Legal(saved, quiet, Code) && IsQuiet(quiet) && EndpointIsDurable({Exec(saved, quiet).state.visible})
    ensures var after := Exec(Apply(sys, Action.Save(PromoteEnrollment, content, result)), quiet);
            && (EndpointIsDurable(after.state.outcomes) <==> after.state.Settled())
            && (result == Saved ==> after.state.Settled())
  {
    var saved := Apply(sys, Action.Save(PromoteEnrollment, content, result));
    QuietRunSettlesOrKeeps(saved, quiet, Code);
    var after := Exec(saved, quiet);
    if !after.state.Settled() {
      assert sys.state.visible in after.state.outcomes && sys.state.visible.value.endpoint == "";
    } else {
      assert after.state.outcomes == {after.state.visible};
    }
  }

  // ---- The clear that comes too early ----

  // The save of the promotion fails after the rename; the next call finds the endpoint confirmed and clears the secrets.
  function EarlyClear(s: DeviceState, token: string, newEndpoint: string, endpoint: string): seq<Action>
    requires s.pendingEnrollment.Some?
  {
    [Action.Save(Create, s, Saved), SendBootstrap(token)]
    + ([Deliver(BootstrapRequest(token, s.pendingEnrollment.value), newEndpoint),
        Action.Save(PromoteEnrollment, Promoted(s, endpoint), ReplacedNotSynced)]
       + [ClearConfig(Saved)])
  }

  lemma DeliveredAndPromotedUnsynced(sent: Sys, token: string, s: DeviceState, newEndpoint: string, after: Server, endpoint: string)
    requires sent.state == Cell(Some(s), {Some(s)}) && s.endpoint == "" && s.pendingEnrollment.Some?
    requires BootstrapRequest(token, s.pendingEnrollment.value) in sent.net && IsFresh(sent.server, newEndpoint)
    requires after == Handle(sent.server, BootstrapRequest(token, s.pendingEnrollment.value), newEndpoint)
    requires s.installation in after.installations && after.installations[s.installation] == endpoint
    requires IsActive(after, endpoint, s.credential)
    ensures var run := [Deliver(BootstrapRequest(token, s.pendingEnrollment.value), newEndpoint),
                        Action.Save(PromoteEnrollment, Promoted(s, endpoint), ReplacedNotSynced)];
            && Legal(sent, run, Code)
            && Exec(sent, run).config == sent.config
            && Exec(sent, run).state.visible == Some(Promoted(s, endpoint)) && Some(s) in Exec(sent, run).state.outcomes
  {
    var deliver := Deliver(BootstrapRequest(token, s.pendingEnrollment.value), newEndpoint);
    TwoSteps(sent, deliver, Action.Save(PromoteEnrollment, Promoted(s, endpoint), ReplacedNotSynced));
    assert MayPromoteEnrollment(Apply(sent, deliver), s, Promoted(s, endpoint));
  }

  lemma ClearedWhileUnsynced(promoted: Sys, s: DeviceState, newer: DeviceState)
    requires promoted.state.visible == Some(newer) && Some(s) in promoted.state.outcomes && newer.endpoint != "" && s.endpoint == ""
    ensures var cleared := WithoutBootstrapSecrets(promoted.config.visible);
            && Legal(promoted, [ClearConfig(Saved)], Code)
            && Exec(promoted, [ClearConfig(Saved)]).config == Cell(cleared, {cleared})
            && !KeepsSecrets(Exec(promoted, [ClearConfig(Saved)]))
  {
    OneStep(promoted, ClearConfig(Saved), Code);
  }

  lemma PromotedUnsyncedAndCleared(sent: Sys, token: string, s: DeviceState, newEndpoint: string, after: Server, endpoint: string)
    requires sent.state == Cell(Some(s), {Some(s)}) && s.endpoint == "" && s.pendingEnrollment.Some? && endpoint != ""
    requires BootstrapRequest(token, s.pendingEnrollment.value) in sent.net && IsFresh(sent.server, newEndpoint)
    requires after == Handle(sent.server, BootstrapRequest(token, s.pendingEnrollment.value), newEndpoint)
    requires s.installation in after.installations && after.installations[s.installation] == endpoint
    requires IsActive(after, endpoint, s.credential)
    ensures var run := [Deliver(BootstrapRequest(token, s.pendingEnrollment.value), newEndpoint),
                        Action.Save(PromoteEnrollment, Promoted(s, endpoint), ReplacedNotSynced)] + [ClearConfig(Saved)];
            && Legal(sent, run, Code)
            && (var cleared := WithoutBootstrapSecrets(sent.config.visible); Exec(sent, run).config == Cell(cleared, {cleared}))
            && !KeepsSecrets(Exec(sent, run))
  {
    var run := [Deliver(BootstrapRequest(token, s.pendingEnrollment.value), newEndpoint),
                Action.Save(PromoteEnrollment, Promoted(s, endpoint), ReplacedNotSynced)];
    DeliveredAndPromotedUnsynced(sent, token, s, newEndpoint, after, endpoint);
    ClearedWhileUnsynced(Exec(sent, run), s, Promoted(s, endpoint));
    RunsConcatenate(sent, run, [ClearConfig(Saved)], Code);
  }

  // From every fresh device that could enroll, the code has a run that clears the secrets while a power loss can still
  // take the endpoint away.
  lemma CodeCanClearTooEarly(start: Sys, token: string, host: Host, random: Randomness, newEndpoint: string)
    requires Initial(start) && Recoverable(start, token, host, random, newEndpoint)
    ensures var s := EnrollmentState(host, start.architecture, random);
            var run := EarlyClear(s, token, newEndpoint, EnrolledEndpoint(start.server, s.pendingEnrollment.value, newEndpoint));
            && Legal(start, run, Code) && !KeepsSecrets(Exec(start, run))
            && Exec(start, run).config.outcomes == {WithoutBootstrapSecrets(start.config.visible)}
  {
    var s := EnrollmentState(host, start.architecture, random);
    assert MaySave(start, Create, s) by { NewStateMayBeCreated(start, host, random); }
    CreatedAndSent(start, token, s);
    NewEnrollmentCanClearTooEarly(start, token, s, newEndpoint);
  }

  lemma NewEnrollmentCanClearTooEarly(start: Sys, token: string, s: DeviceState, newEndpoint: string)
    requires Initial(start) && IsSent(start, token, s)
    requires RedeemableWith(start.server, token, s.pendingEnrollment.value, newEndpoint)
    ensures var run := EarlyClear(s, token, newEndpoint, EnrolledEndpoint(start.server, s.pendingEnrollment.value, newEndpoint));
            && Legal(start, run, Code) && !KeepsSecrets(Exec(start, run))
            && Exec(start, run).config.outcomes == {WithoutBootstrapSecrets(start.config.visible)}
  {
    var request := s.pendingEnrollment.value;
    DeliveredEnrollment(start.server, token, request, newEndpoint);
    SentEnrollmentCanClearTooEarly(start, token, s, newEndpoint, Handle(start.server, BootstrapRequest(token, request), newEndpoint),
                                   EnrolledEndpoint(start.server, request, newEndpoint));
  }

  lemma SentEnrollmentCanClearTooEarly(start: Sys, token: string, s: DeviceState, newEndpoint: string, after: Server, endpoint: string)
    requires IsSent(start, token, s) && IsFresh(start.server, newEndpoint) && endpoint != ""
    requires after == Handle(start.server, BootstrapRequest(token, s.pendingEnrollment.value), newEndpoint)
    requires s.installation in after.installations && after.installations[s.installation] == endpoint
    requires IsActive(after, endpoint, s.credential)
    ensures var run := EarlyClear(s, token, newEndpoint, endpoint);
            && Legal(start, run, Code) && !KeepsSecrets(Exec(start, run))
            && Exec(start, run).config.outcomes == {WithoutBootstrapSecrets(start.config.visible)}
  {
    var sent := CreatedAndSentState(start, token, s);
    PromotedUnsyncedAndCleared(sent, token, s, newEndpoint, after, endpoint);
    RunsConcatenate(start, [Action.Save(Create, s, Saved), SendBootstrap(token)],
                    [Deliver(BootstrapRequest(token, s.pendingEnrollment.value), newEndpoint),
                     Action.Save(PromoteEnrollment, Promoted(s, endpoint), ReplacedNotSynced)] + [ClearConfig(Saved)], Code);
  }
}
