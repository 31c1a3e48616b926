/**
 Runs of the code, with power losses, that end in a sound state although requests were sent before what they carry was
 durable: it is enough that no power loss took any of that away.
 */
module IdentityLosses {
  import opened Wrappers
  import opened DurableCell
  import opened CredentialText
  import opened IdentityServer
  import opened IdentityProtocol
  import opened IdentitySafety
  import opened IdentityWorld

  // What is left of the state file still authenticates, holds what requests under way carry, and names an endpoint if the
  // bootstrap secrets are gone.
  ghost predicate IsHarmless(sys: Sys, survivor: Option<DeviceState>) {
    && AllCovered(sys.server, sys.mine, {survivor})
    && NetSound(sys.server, sys.net, sys.mine, sys.minted, sys.architecture, {survivor})
    && (sys.cleared ==> EndpointIsDurable({survivor}))
  }

  ghost predicate HarmlessLosses(start: Sys, run: seq<Action>)
    decreases |run|
  {
    run != [] ==>
      && HarmlessLosses(start, run[..|run| - 1])
      && (run[|run| - 1].PowerLoss? ==> IsHarmless(Exec(start, run[..|run| - 1]), run[|run| - 1].survivor))
  }

  // What is visible is sound in every respect, and whatever may survive is sound as a state.
  ghost predicate SoundSoFar(sys: Sys) {
    && Inv(sys, NoPowerLoss)
    && AllSound(sys.server, sys.mine, sys.minted, sys.architecture, sys.state.outcomes)
  }

  lemma SavedIsSound(before: Sys, after: Sys, content: DeviceState)
    requires AllSound(before.server, before.mine, before.minted, before.architecture, before.state.outcomes)
    requires before.mine <= after.mine && before.minted <= after.minted
    requires after.server == before.server && after.architecture == before.architecture
    requires after.state.outcomes <= before.state.outcomes + {Some(content)}
    requires Some(content) in after.state.outcomes && Some(content) !in before.state.outcomes ==>
               StateSound(after.server, after.mine, after.minted, after.architecture, content)
    ensures AllSound(after.server, after.mine, after.minted, after.architecture, after.state.outcomes)
  {
    forall v | v in after.state.outcomes && v.Some?
      ensures StateSound(after.server, after.mine, after.minted, after.architecture, v.value)
    {
      if v in before.state.outcomes {
        assert StateSound(before.server, before.mine, before.minted, before.architecture, v.value);
      }
    }
  }

  lemma SaveKeepsAllSound(sys: Sys, kind: SaveKind, content: DeviceState, result: SaveResult)
    requires SoundSoFar(sys) && MaySave(sys, kind, content)
    ensures SoundSoFar(Apply(sys, Action.Save(kind, content, result)))
  {
    var after := Apply(sys, Action.Save(kind, content, result));
    SaveKeepsInvariant(sys, kind, content, result, NoPowerLoss);
    assert !result.NotReplaced? ==> StateSound(after.server, after.mine, after.minted, after.architecture, content) by {
      if !result.NotReplaced? {
        VisibleIsSound(after);
      }
    }
    SavedIsSound(sys, after, content);
  }

  lemma VisibleIsSound(sys: Sys)
    requires Inv(sys, NoPowerLoss) && sys.state.visible.Some?
    ensures StateSound(sys.server, sys.mine, sys.minted, sys.architecture, sys.state.visible.value)
  {
  }

  lemma GrownServerKeepsAllSound(sys: Sys, server: Server, contents: States)
    requires AllSound(sys.server, sys.mine, sys.minted, sys.architecture, contents) && ServerGrows(sys, server)
    ensures AllSound(server, sys.mine, sys.minted, sys.architecture, contents)
  {
    forall v | v in contents && v.Some? ensures StateSound(server, sys.mine, sys.minted, sys.architecture, v.value) {
      assert StateSound(sys.server, sys.mine, sys.minted, sys.architecture, v.value);
    }
  }

  lemma ServerStepKeepsAllSound(sys: Sys, a: Action)
    requires SoundSoFar(sys) && Enabled(sys, a, NoPowerLoss) && (a.Deliver? || a.Others?)
    ensures SoundSoFar(Apply(sys, a))
  {
    StepKeepsInvariant(sys, a, NoPowerLoss);
    assert ServerGrows(sys, Apply(sys, a).server) by {
      SurroundingStep(sys, a, NoPowerLoss, false);
    }
    GrownServerKeepsAllSound(sys, Apply(sys, a).server, sys.state.outcomes);
  }

  lemma HarmlessIsCore(sys: Sys, survivor: Option<DeviceState>)
    requires SoundSoFar(sys) && survivor in sys.state.outcomes && IsHarmless(sys, survivor)
    ensures Core(sys, {survivor})
  {
  }

  lemma CoreOfOneContent(sys: Sys, survivor: Option<DeviceState>)
    requires Core(sys, {survivor}) && IsProtocolValue(sys.architecture)
    requires sys.state == AfterPowerLoss(survivor) && sys.config.Valid()
    ensures SoundSoFar(sys)
  {
    assert Contents(sys, NoPowerLoss) == {survivor};
  }

  lemma HarmlessLossKeepsSound(sys: Sys, survivor: Option<DeviceState>, config: ConfigFile)
    requires SoundSoFar(sys) && survivor in sys.state.outcomes && IsHarmless(sys, survivor)
    ensures SoundSoFar(Apply(sys, PowerLoss(survivor, config)))
  {
    var after := Apply(sys, PowerLoss(survivor, config));
    assert Core(after, {survivor}) by {
      HarmlessIsCore(sys, survivor);
    }
    CoreOfOneContent(after, survivor);
  }

  lemma StepKeepsSound(sys: Sys, a: Action)
    requires SoundSoFar(sys) && Enabled(sys, a, Code)
    requires a.PowerLoss? ==> IsHarmless(sys, a.survivor)
    ensures SoundSoFar(Apply(sys, a))
  {
    match a
    case Save(kind, content, result) => SaveKeepsAllSound(sys, kind, content, result);
    case PowerLoss(survivor, config) => HarmlessLossKeepsSound(sys, survivor, config);
    case Deliver(_, _) => ServerStepKeepsAllSound(sys, a);
    case Others(_) => ServerStepKeepsAllSound(sys, a);
    case _ => StepKeepsInvariant(sys, a, NoPowerLoss);
  }

  lemma {:induction false} SoundAfterHarmlessLosses(start: Sys, run: seq<Action>)
    requires Initial(start) && Legal(start, run, Code) && HarmlessLosses(start, run)
    ensures SoundSoFar(Exec(start, run))
    decreases |run|
  {
    if run == [] {
      InitialIsSound(start, NoPowerLoss);
    } else {
      SoundAfterHarmlessLosses(start, run[..|run| - 1]);
      StepKeepsSound(Exec(start, run[..|run| - 1]), run[|run| - 1]);
    }
  }

  // ---- Runs that lose nothing ----

  lemma WriteAheadLossIsHarmless(sys: Sys, survivor: Option<DeviceState>)
    requires Inv(sys, WriteAhead) && survivor in sys.state.outcomes
    ensures IsHarmless(sys, survivor)
  {
    FewerContents(sys, sys.state.outcomes, {survivor});
  }

  lemma GuardedStepIsCode(sys: Sys, a: Action, mode: Mode)
    requires sys.state.Valid() && Enabled(sys, a, mode)
    ensures Enabled(sys, a, Code)
  {
  }

  // Both kinds of run that the main results are about are such runs.
  lemma {:induction false} GuardedRunIsHarmless(start: Sys, run: seq<Action>, mode: Mode)
    requires Initial(start) && Legal(start, run, mode) && !mode.Code?
    ensures Legal(start, run, Code) && HarmlessLosses(start, run)
    decreases |run|
  {
    if run != [] {
      var earlier, a := run[..|run| - 1], run[|run| - 1];
      GuardedRunIsHarmless(start, earlier, mode);
      RunKeepsInvariant(start, earlier, mode);
      GuardedStepIsCode(Exec(start, earlier), a, mode);
      if a.PowerLoss? {
        WriteAheadLossIsHarmless(Exec(start, earlier), a.survivor);
      }
    }
  }
}
