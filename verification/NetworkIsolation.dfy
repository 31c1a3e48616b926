/**
 Endpoint isolation with iptables, as the generated Linux agent installs and removes it. Chains are rule lists with
 first-match semantics. Every command may fail, and one that times out may or may not have taken effect.
 */
module NetworkIsolation {
  import opened Wrappers

  const INPUT := "INPUT"
  const OUTPUT := "OUTPUT"
  const SHA_IN := "SHA-ISOLATION-IN"
  const SHA_OUT := "SHA-ISOLATION-OUT"

  datatype Packet = Packet(established: bool, inLoopback: bool, outLoopback: bool, tcp: bool, destination: string, port: int)

  datatype Verdict = Accept | Drop

  // Rules the agent writes, and everyone else's, whose meaning is a parameter.
  datatype Rule =
    | AcceptEstablished | AcceptInLoopback | AcceptOutLoopback | AcceptTcp(address: string, port: int) | DropRest
    | Jump(chain: string)
    | Foreign(id: nat)

  type Chains = map<string, seq<Rule>>

  // ---- First-match evaluation ----

  type ForeignMeaning = (nat, Packet) -> Option<Verdict>

  // What a list of rules decides; None when the packet falls off its end. `depth` bounds the nesting of jumps.
  function FirstMatch(chains: Chains, rules: seq<Rule>, packet: Packet, foreign: ForeignMeaning, depth: nat): Option<Verdict>
    decreases depth, |rules|
  {
    if rules == [] then None
    else
      var here := match rules[0] {
        case AcceptEstablished => if packet.established then Some(Accept) else None
        case AcceptInLoopback => if packet.inLoopback then Some(Accept) else None
        case AcceptOutLoopback => if packet.outLoopback then Some(Accept) else None
        case AcceptTcp(address, port) =>
          if packet.tcp && packet.destination == address && packet.port == port then Some(Accept) else None
        case DropRest => Some(Drop)
        case Foreign(id) => foreign(id, packet)
        case Jump(chain) =>
          if chain in chains && depth > 0 then FirstMatch(chains, chains[chain], packet, foreign, depth - 1) else None
      };
      if here.Some? then here else FirstMatch(chains, rules[1..], packet, foreign, depth)
  }

  // ---- The rules of an isolation ----

  const INPUT_RULES := [AcceptEstablished, AcceptInLoopback, DropRest]

  function TargetRules(targets: seq<(string, int)>): (rules: seq<Rule>)
    ensures |rules| == |targets|
  {
    if targets == [] then []
    else TargetRules(targets[..|targets| - 1]) + [AcceptTcp(targets[|targets| - 1].0, targets[|targets| - 1].1)]
  }

  function OutputRules(targets: seq<(string, int)>): seq<Rule> {
    [AcceptEstablished, AcceptOutLoopback] + TargetRules(targets) + [DropRest]
  }

  lemma {:induction false} TargetRulesSplit(first: (string, int), rest: seq<(string, int)>)
    ensures TargetRules([first] + rest) == [AcceptTcp(first.0, first.1)] + TargetRules(rest)
    decreases |rest|
  {
    if rest == [] {
      assert [first] + rest == [first];
      assert TargetRules([first][..0]) == [];
    } else {
      var shorter := rest[..|rest| - 1];
      TargetRulesSplit(first, shorter);
      assert ([first] + rest)[..|rest|] == [first] + shorter;
    }
  }

  lemma {:induction false} TargetsDecide(
    chains: Chains, targets: seq<(string, int)>, packet: Packet, foreign: ForeignMeaning, depth: nat)
    ensures FirstMatch(chains, TargetRules(targets) + [DropRest], packet, foreign, depth) ==
            Some(if packet.tcp && (packet.destination, packet.port) in targets then Accept else Drop)
    decreases |targets|
  {
    var rules := TargetRules(targets) + [DropRest];
    if targets != [] {
      assert targets == [targets[0]] + targets[1..];
      TargetRulesSplit(targets[0], targets[1..]);
      assert rules[1..] == TargetRules(targets[1..]) + [DropRest];
      TargetsDecide(chains, targets[1..], packet, foreign, depth);
    }
  }

  lemma OutputRulesDecide(chains: Chains, targets: seq<(string, int)>, packet: Packet, foreign: ForeignMeaning, depth: nat)
    ensures FirstMatch(chains, OutputRules(targets), packet, foreign, depth) ==
            Some(if packet.established || packet.outLoopback || (packet.tcp && (packet.destination, packet.port) in targets)
                 then Accept else Drop)
  {
    var rules := OutputRules(targets);
    TargetsDecide(chains, targets, packet, foreign, depth);
    assert rules[1..] == [AcceptOutLoopback] + (TargetRules(targets) + [DropRest]);
    assert rules[1..][1..] == TargetRules(targets) + [DropRest];
  }

  lemma InputRulesDecide(chains: Chains, packet: Packet, foreign: ForeignMeaning, depth: nat)
    ensures FirstMatch(chains, INPUT_RULES, packet, foreign, depth) ==
            Some(if packet.established || packet.inLoopback then Accept else Drop)
  {
    assert FirstMatch(chains, [DropRest], packet, foreign, depth) == Some(Drop);
    assert [AcceptInLoopback, DropRest][1..] == [DropRest];
    assert INPUT_RULES[1..] == [AcceptInLoopback, DropRest];
  }

  // ---- Tables an agent can meet ----

  function Jumps(chain: string, count: nat): (rules: seq<Rule>)
    ensures |rules| == count && forall i | 0 <= i < count :: rules[i] == Jump(chain)
  {
    seq(count, _ => Jump(chain))
  }

  predicate IsSha(chain: string) {
    chain == SHA_IN || chain == SHA_OUT
  }

  // The tables before any isolation: no SHA chain and no jump to one.
  predicate Pristine(original: Chains) {
    && INPUT in original && OUTPUT in original && SHA_IN !in original && SHA_OUT !in original
    && (forall c | c in original :: Jump(SHA_IN) !in original[c] && Jump(SHA_OUT) !in original[c])
  }

  // A parent chain with a number of jumps in front of its original rules.
  predicate Fronted(original: Chains, chains: Chains, parent: string, sha: string, count: nat) {
    && parent in original && parent in chains
    && chains[parent] == Jumps(sha, count) + original[parent]
    && (count > 0 ==> sha in chains)
  }

  // What any mixture of complete and interrupted applies and rollbacks can leave of the original tables.
  predicate Derived(original: Chains, chains: Chains, inputs: nat, outputs: nat) {
    && Fronted(original, chains, INPUT, SHA_IN, inputs)
    && Fronted(original, chains, OUTPUT, SHA_OUT, outputs)
    && (forall c | c in chains && !IsSha(c) :: c in original)
    && (forall c | c in original :: c in chains)
    && (forall c | c in original && c != INPUT && c != OUTPUT :: chains[c] == original[c])
    && (forall c | c in chains && IsSha(c) :: forall i | 0 <= i < |chains[c]| :: !chains[c][i].Jump?)
  }

  // Nothing of an isolation is left.
  lemma DerivedWithoutTraces(original: Chains, chains: Chains)
    requires Derived(original, chains, 0, 0) && SHA_IN !in chains && SHA_OUT !in chains
    ensures chains == original
  {
    assert Jumps(SHA_IN, 0) + original[INPUT] == original[INPUT];
    assert Jumps(SHA_OUT, 0) + original[OUTPUT] == original[OUTPUT];
  }

  ghost predicate Isolated(chains: Chains, targets: set<(string, int)>) {
    forall packet, foreign: ForeignMeaning, depth: nat | depth > 0 ::
      && FirstMatch(chains, Rules(chains, INPUT), packet, foreign, depth) ==
         Some(if packet.established || packet.inLoopback then Accept else Drop)
      && FirstMatch(chains, Rules(chains, OUTPUT), packet, foreign, depth) ==
         Some(if packet.established || packet.outLoopback || (packet.tcp && (packet.destination, packet.port) in targets)
              then Accept else Drop)
  }

  function Rules(chains: Chains, chain: string): seq<Rule> {
    if chain in chains then chains[chain] else []
  }

  // An isolation in force decides every packet, whatever the machine's own rules and policies are.
  lemma InstalledTablesIsolate(chains: Chains, targets: seq<(string, int)>)
    requires SHA_IN in chains && chains[SHA_IN] == INPUT_RULES
    requires SHA_OUT in chains && chains[SHA_OUT] == OutputRules(targets)
    requires Rules(chains, INPUT) != [] && Rules(chains, INPUT)[0] == Jump(SHA_IN)
    requires Rules(chains, OUTPUT) != [] && Rules(chains, OUTPUT)[0] == Jump(SHA_OUT)
    ensures Isolated(chains, set t | t in targets)
  {
    forall packet, foreign: ForeignMeaning, depth: nat | depth > 0
      ensures FirstMatch(chains, Rules(chains, INPUT), packet, foreign, depth) ==
              FirstMatch(chains, INPUT_RULES, packet, foreign, depth - 1)
      ensures FirstMatch(chains, Rules(chains, OUTPUT), packet, foreign, depth) ==
              FirstMatch(chains, OutputRules(targets), packet, foreign, depth - 1)
      ensures FirstMatch(chains, INPUT_RULES, packet, foreign, depth - 1) ==
              Some(if packet.established || packet.inLoopback then Accept else Drop)
      ensures FirstMatch(chains, OutputRules(targets), packet, foreign, depth - 1) ==
              Some(if packet.established || packet.outLoopback || (packet.tcp && (packet.destination, packet.port) in targets)
                   then Accept else Drop)
    {
      InputRulesDecide(chains, packet, foreign, depth - 1);
      OutputRulesDecide(chains, targets, packet, foreign, depth - 1);
    }
  }

  // ---- Commands ----

  datatype Command =
    | Version
    | New(chain: string)
    | Flush(chain: string)
    | Append(chain: string, rule: Rule)
    | Check(parent: string, chain: string)
    | InsertFirst(parent: string, chain: string)
    | Delete(parent: string, chain: string)
    | DeleteChain(chain: string)

  predicate Referenced(chains: Chains, chain: string) {
    exists c :: c in chains && Jump(chain) in chains[c]
  }

  // When iptables accepts a command
  predicate Possible(chains: Chains, command: Command) {
    match command
    case Version => true
    case New(chain) => chain !in chains
    case Flush(chain) => chain in chains
    case Append(chain, _) => chain in chains
    case Check(parent, chain) => parent in chains && Jump(chain) in chains[parent]
    case InsertFirst(parent, chain) => parent in chains && chain in chains
    case Delete(parent, chain) => parent in chains && Jump(chain) in chains[parent]
    case DeleteChain(chain) => chain in chains && chains[chain] == [] && !Referenced(chains, chain)
  }

  function RemoveFirst(rules: seq<Rule>, rule: Rule): seq<Rule>
    requires rule in rules
  {
    if rules[0] == rule then rules[1..] else [rules[0]] + RemoveFirst(rules[1..], rule)
  }

  function Effect(chains: Chains, command: Command): Chains
    requires Possible(chains, command)
  {
    match command
    case Version => chains
    case New(chain) => chains[chain := []]
    case Flush(chain) => chains[chain := []]
    case Append(chain, rule) => chains[chain := chains[chain] + [rule]]
    case Check(_, _) => chains
    case InsertFirst(parent, chain) => chains[parent := [Jump(chain)] + chains[parent]]
    case Delete(parent, chain) => chains[parent := RemoveFirst(chains[parent], Jump(chain))]
    case DeleteChain(chain) => chains - {chain}
  }

  // The commands the agent issues, by what they may touch
  predicate Harmless(command: Command) {
    match command
    case Version => true
    case New(chain) => IsSha(chain)
    case Flush(chain) => IsSha(chain)
    case Append(chain, rule) => IsSha(chain) && !rule.Jump?
    case Check(parent, chain) => true
    case InsertFirst(parent, chain) => Paired(parent, chain)
    case Delete(parent, chain) => Paired(parent, chain)
    case DeleteChain(chain) => IsSha(chain)
  }

  predicate Paired(parent: string, chain: string) {
    (parent == INPUT && chain == SHA_IN) || (parent == OUTPUT && chain == SHA_OUT)
  }

  function Added(command: Command, parent: string): int {
    match command
    case InsertFirst(p, _) => if p == parent then 1 else 0
    case Delete(p, _) => if p == parent then -1 else 0
    case _ => 0
  }

  lemma FrontedHasJump(original: Chains, chains: Chains, parent: string, sha: string, count: nat)
    requires Fronted(original, chains, parent, sha, count) && Jump(sha) !in original[parent]
    ensures Jump(sha) in chains[parent] <==> count > 0
  {
    if count > 0 {
      assert chains[parent][0] == Jump(sha);
    }
  }

  // Changes to the SHA chains themselves
  lemma OwnChainKeepsDerived(original: Chains, chains: Chains, inputs: nat, outputs: nat, chain: string, rules: seq<Rule>)
    requires Pristine(original) && Derived(original, chains, inputs, outputs) && IsSha(chain)
    requires forall i | 0 <= i < |rules| :: !rules[i].Jump?
    ensures Derived(original, chains[chain := rules], inputs, outputs)
  {
  }

  lemma JumpKeepsDerived(original: Chains, chains: Chains, inputs: nat, outputs: nat, parent: string, chain: string)
    requires Pristine(original) && Derived(original, chains, inputs, outputs) && Paired(parent, chain) && chain in chains
    ensures Derived(original, chains[parent := [Jump(chain)] + chains[parent]],
                    if parent == INPUT then inputs + 1 else inputs, if parent == OUTPUT then outputs + 1 else outputs)
  {
    var count := if parent == INPUT then inputs else outputs;
    assert [Jump(chain)] + (Jumps(chain, count) + original[parent]) == Jumps(chain, count + 1) + original[parent];
  }

  lemma DeletedJumpKeepsDerived(original: Chains, chains: Chains, inputs: nat, outputs: nat, parent: string, chain: string)
    requires Pristine(original) && Derived(original, chains, inputs, outputs) && Paired(parent, chain)
    requires Jump(chain) in chains[parent]
    ensures (if parent == INPUT then inputs else outputs) > 0
    ensures Derived(original, chains[parent := RemoveFirst(chains[parent], Jump(chain))],
                    if parent == INPUT then inputs - 1 else inputs, if parent == OUTPUT then outputs - 1 else outputs)
  {
    var count := if parent == INPUT then inputs else outputs;
    FrontedHasJump(original, chains, parent, chain, count);
    assert chains[parent][0] == Jump(chain);
    assert chains[parent][1..] == Jumps(chain, count - 1) + original[parent];
  }

  lemma DeletedChainKeepsDerived(original: Chains, chains: Chains, inputs: nat, outputs: nat, chain: string)
    requires Pristine(original) && Derived(original, chains, inputs, outputs) && IsSha(chain) && !Referenced(chains, chain)
    ensures Derived(original, chains - {chain}, inputs, outputs)
  {
    FrontedHasJump(original, chains, INPUT, SHA_IN, inputs);
    FrontedHasJump(original, chains, OUTPUT, SHA_OUT, outputs);
    assert chain == SHA_IN ==> inputs == 0;
    assert chain == SHA_OUT ==> outputs == 0;
  }

  // No command of the agent touches anything but its own chains and the jumps to them.
  lemma CommandKeepsDerived(original: Chains, chains: Chains, inputs: nat, outputs: nat, command: Command)
    requires Pristine(original) && Derived(original, chains, inputs, outputs)
    requires Harmless(command) && Possible(chains, command)
    ensures inputs + Added(command, INPUT) >= 0 && outputs + Added(command, OUTPUT) >= 0
    ensures Derived(original, Effect(chains, command), inputs + Added(command, INPUT), outputs + Added(command, OUTPUT))
  {
    match command
    case Version =>
    case Check(_, _) =>
    case New(chain) => OwnChainKeepsDerived(original, chains, inputs, outputs, chain, []);
    case Flush(chain) => OwnChainKeepsDerived(original, chains, inputs, outputs, chain, []);
    case Append(chain, rule) =>
      OwnChainKeepsDerived(original, chains, inputs, outputs, chain, chains[chain] + [rule]);
    case InsertFirst(parent, chain) => JumpKeepsDerived(original, chains, inputs, outputs, parent, chain);
    case Delete(parent, chain) => DeletedJumpKeepsDerived(original, chains, inputs, outputs, parent, chain);
    case DeleteChain(chain) => DeletedChainKeepsDerived(original, chains, inputs, outputs, chain);
  }

  lemma UnfrontedChainIsNotReferenced(original: Chains, chains: Chains, inputs: nat, outputs: nat, chain: string)
    requires Pristine(original) && Derived(original, chains, inputs, outputs)
    requires (chain == SHA_IN && inputs == 0) || (chain == SHA_OUT && outputs == 0)
    ensures !Referenced(chains, chain)
  {
    forall c | c in chains ensures Jump(chain) !in chains[c] {
      if c == INPUT {
        assert Jumps(SHA_IN, inputs) + original[INPUT] == chains[INPUT];
      } else if c == OUTPUT {
        assert Jumps(SHA_OUT, outputs) + original[OUTPUT] == chains[OUTPUT];
      } else if IsSha(c) {
        assert forall i | 0 <= i < |chains[c]| :: !chains[c][i].Jump?;
      }
    }
  }

  lemma TracesShow(original: Chains, chains: Chains, inputs: nat, outputs: nat)
    requires Pristine(original) && Derived(original, chains, inputs, outputs)
    ensures chains == original <==> inputs == 0 && outputs == 0 && SHA_IN !in chains && SHA_OUT !in chains
  {
    FrontedHasJump(original, chains, INPUT, SHA_IN, inputs);
    FrontedHasJump(original, chains, OUTPUT, SHA_OUT, outputs);
    if inputs == 0 && outputs == 0 && SHA_IN !in chains && SHA_OUT !in chains {
      DerivedWithoutTraces(original, chains);
    }
  }

  // Fewer jumps or a missing SHA chain show in the tables.
  lemma CountsShow(
    original: Chains, before: Chains, ins: nat, outs: nat, after: Chains, inputs: nat, outputs: nat)
    requires Derived(original, before, ins, outs) && Derived(original, after, inputs, outputs)
    ensures before == after ==> ins == inputs && outs == outputs
  {
    assert |before[INPUT]| == ins + |original[INPUT]| && |after[INPUT]| == inputs + |original[INPUT]|;
    assert |before[OUTPUT]| == outs + |original[OUTPUT]| && |after[OUTPUT]| == outputs + |original[OUTPUT]|;
  }

  // ---- Resolving the control plane ----

  datatype AddressInfo = AddressInfo(ipv4: bool, address: string, port: int)

  // The IPv4 addresses among the resolver's answers; none when there is no host or the lookup fails.
  function Resolved(answers: Option<seq<AddressInfo>>): set<(string, int)> {
    if answers.None? then {}
    else set info | info in answers.value && info.ipv4 :: (info.address, info.port)
  }

  // control_plane_ipv4_targets; the order of the list does not matter here.
  method ControlPlaneTargets(answers: Option<seq<AddressInfo>>) returns (targets: seq<(string, int)>)
    ensures (set t | t in targets) == Resolved(answers)
  {
    if answers.None? {
      return [];
    }
    var found: set<(string, int)> := {};
    for i := 0 to |answers.value|
      invariant found == Resolved(Some(answers.value[..i]))
    {
      var info := answers.value[i];
      assert answers.value[..i + 1] == answers.value[..i] + [info];
      if info.ipv4 {
        found := found + {(info.address, info.port)};
      }
    }
    assert answers.value[..|answers.value|] == answers.value;
    targets := [];
    var rest := found;
    while rest != {}
      invariant (set t | t in targets) + rest == found
    {
      var target :| target in rest;
      targets := targets + [target];
      rest := rest - {target};
    }
  }

  method BuildOutputRules(targets: seq<(string, int)>) returns (rules: seq<Rule>)
    ensures rules == OutputRules(targets)
  {
    rules := [AcceptEstablished, AcceptOutLoopback];
    for i := 0 to |targets|
      invariant rules == [AcceptEstablished, AcceptOutLoopback] + TargetRules(targets[..i])
    {
      assert targets[..i + 1][..i] == targets[..i];
      rules := rules + [AcceptTcp(targets[i].0, targets[i].1)];
    }
    assert targets[..|targets|] == targets;
    rules := rules + [DropRest];
  }

  lemma {:induction false} TargetRulesNeverJump(targets: seq<(string, int)>)
    ensures forall i | 0 <= i < |TargetRules(targets)| :: !TargetRules(targets)[i].Jump?
  {
    if targets != [] {
      TargetRulesNeverJump(targets[..|targets| - 1]);
    }
  }

  lemma PrefixGrows<T>(s: seq<T>, i: nat)
    requires i < |s|
    ensures s[..i + 1] == s[..i] + [s[i]]
  {
  }

  lemma PrefixIsWhole<T>(s: seq<T>)
    ensures s[..|s|] == s
  {
  }

  // ---- The agent ----

  datatype Outcome = Succeeded | Failed | Raised

  // How a command ends: with an exit status, or with an exception such as a timeout.
  datatype Ended = Exited(ok: bool) | TimedOut

  class Firewall {
    ghost const original: Chains
    var chains: Chains
    var stateFile: bool
    ghost var inputs: nat
    ghost var outputs: nat

    // The tables are what some history of this agent has made of the original ones.
    ghost predicate Valid() reads this {
      Pristine(original) && Derived(original, chains, inputs, outputs)
    }

    ghost predicate Clean() reads this {
      chains == original && !stateFile
    }

    constructor (original: Chains)
      requires Pristine(original)
      ensures Valid() && Clean() && this.original == original
    {
      this.original, chains, stateFile, inputs, outputs := original, original, false, 0, 0;
      new;
      assert Jumps(SHA_IN, 0) + original[INPUT] == original[INPUT];
      assert Jumps(SHA_OUT, 0) + original[OUTPUT] == original[OUTPUT];
    }

    twostate predicate Acts(command: Command) reads this {
      && Possible(old(chains), command) && chains == Effect(old(chains), command)
      && inputs == old(inputs) + Added(command, INPUT) && outputs == old(outputs) + Added(command, OUTPUT)
    }

    twostate predicate Idles() reads this {
      chains == old(chains) && inputs == old(inputs) && outputs == old(outputs)
    }

    // run_command. `works`: the command does what iptables does when nothing is wrong with the machine.
    method Run(command: Command, works: bool) returns (ended: Ended)
      requires Valid() && Harmless(command)
      modifies this`chains, this`inputs, this`outputs
      ensures Valid()
      ensures Acts(command) || Idles()
      ensures ended == Exited(true) ==> Acts(command)
      ensures ended == Exited(false) ==> Idles()
      ensures works ==> ended == Exited(Possible(old(chains), command))
    {
      var fails: bool, times: bool, acts: bool := *, *, *;
      fails, times := fails && !works, times && !works;
      if !Possible(chains, command) || (times && !acts) || fails {
        return if times then TimedOut else Exited(false);
      }
      Take(command);
      ended := if times then TimedOut else Exited(true);
    }

    // The command takes effect.
    method Take(command: Command)
      requires Valid() && Harmless(command) && Possible(chains, command)
      modifies this`chains, this`inputs, this`outputs
      ensures Valid() && Acts(command)
    {
      CommandKeepsDerived(original, chains, inputs, outputs, command);
      inputs, outputs := inputs + Added(command, INPUT), outputs + Added(command, OUTPUT);
      chains := Effect(chains, command);
    }

    // Everything but one parent chain and its SHA chain is left alone.
    twostate predicate OnlyTouches(parent: string, sha: string) reads this {
      && (forall c | c != parent && c != sha :: c in chains <==> c in old(chains))
      && (forall c | c != parent && c != sha && c in chains :: chains[c] == old(chains)[c])
      && (parent != INPUT ==> inputs == old(inputs)) && (parent != OUTPUT ==> outputs == old(outputs))
    }

    ghost function Count(parent: string): nat reads this {
      if parent == INPUT then inputs else outputs
    }

    // iptables -A
    method AppendRule(parent: string, sha: string, rule: Rule, works: bool) returns (ok: bool)
      requires Valid() && Paired(parent, sha) && sha in chains && !rule.Jump?
      modifies this`chains, this`inputs, this`outputs
      ensures Valid() && OnlyTouches(parent, sha)
      ensures ok ==> sha in chains && chains[sha] == old(chains[sha]) + [rule]
      ensures works ==> ok
    {
      var ended := Run(Append(sha, rule), works);
      return ended == Exited(true);
    }

    // The flushed chain, rule by rule
    method AppendRules(parent: string, sha: string, rules: seq<Rule>, works: bool) returns (ok: bool)
      requires Valid() && Paired(parent, sha) && sha in chains && chains[sha] == []
      requires forall i | 0 <= i < |rules| :: !rules[i].Jump?
      modifies this`chains, this`inputs, this`outputs
      ensures Valid() && OnlyTouches(parent, sha)
      ensures ok ==> sha in chains && chains[sha] == rules
      ensures works ==> ok
    {
      for i := 0 to |rules|
        invariant Valid() && OnlyTouches(parent, sha)
        invariant sha in chains && chains[sha] == rules[..i]
      {
        ok := AppendRule(parent, sha, rules[i], works);
        if !ok {
          return;
        }
        PrefixGrows(rules, i);
      }
      PrefixIsWhole(rules);
      return true;
    }

    // iptables -C parent -j sha
    method HasJump(parent: string, sha: string, works: bool) returns (present: Ended)
      requires Valid() && Paired(parent, sha)
      modifies this`chains, this`inputs, this`outputs
      ensures Valid() && chains == old(chains) && inputs == old(inputs) && outputs == old(outputs)
      ensures present == Exited(true) ==> Count(parent) > 0 && chains[parent] != [] && chains[parent][0] == Jump(sha)
      ensures works ==> present == Exited(Count(parent) > 0)
    {
      FrontedHasJump(original, chains, parent, sha, Count(parent));
      present := Run(Check(parent, sha), works);
    }

    // iptables -D parent -j sha
    method DeleteJump(parent: string, sha: string, works: bool) returns (deleted: Ended)
      requires Valid() && Paired(parent, sha)
      modifies this`chains, this`inputs, this`outputs
      ensures Valid() && OnlyTouches(parent, sha)
      ensures sha in chains <==> sha in old(chains)
      ensures if deleted == Exited(true) then Count(parent) == old(Count(parent)) - 1 else Count(parent) <= old(Count(parent))
      ensures works ==> deleted == Exited(old(Count(parent)) > 0)
    {
      FrontedHasJump(original, chains, parent, sha, Count(parent));
      deleted := Run(Delete(parent, sha), works);
    }

    // iptables -N sha
    method NewChain(parent: string, sha: string, works: bool) returns (created: Ended)
      requires Valid() && Paired(parent, sha)
      modifies this`chains, this`inputs, this`outputs
      ensures Valid() && OnlyTouches(parent, sha)
      ensures works ==> !created.TimedOut? && sha in chains
    {
      created := Run(New(sha), works);
    }

    // iptables -F sha
    method FlushSha(parent: string, sha: string, works: bool) returns (flushed: Ended)
      requires Valid() && Paired(parent, sha)
      modifies this`chains, this`inputs, this`outputs
      ensures Valid() && OnlyTouches(parent, sha) && Count(parent) == old(Count(parent))
      ensures sha in chains <==> sha in old(chains)
      ensures flushed == Exited(true) ==> sha in chains && chains[sha] == []
      ensures works ==> flushed == Exited(sha in chains)
    {
      flushed := Run(Flush(sha), works);
    }

    // iptables -X sha
    method RemoveSha(parent: string, sha: string, works: bool) returns (removed: Ended)
      requires Valid() && Paired(parent, sha)
      modifies this`chains, this`inputs, this`outputs
      ensures Valid() && OnlyTouches(parent, sha) && Count(parent) == old(Count(parent))
      ensures sha in chains ==> sha in old(chains)
      ensures removed == Exited(true) ==> sha in old(chains) && sha !in chains
      ensures works && Count(parent) == 0 && (sha in old(chains) ==> old(chains)[sha] == []) ==>
                removed == Exited(sha in old(chains)) && sha !in chains
    {
      if Count(parent) == 0 {
        UnfrontedChainIsNotReferenced(original, chains, inputs, outputs, sha);
      }
      removed := Run(DeleteChain(sha), works);
    }

    // iptables -N and -F; false stands for the exception of a required command.
    method PrepareChain(parent: string, sha: string, works: bool) returns (ok: bool)
      requires Valid() && Paired(parent, sha)
      modifies this`chains, this`inputs, this`outputs
      ensures Valid() && OnlyTouches(parent, sha)
      ensures ok ==> sha in chains && chains[sha] == []
      ensures works ==> ok
    {
      var created := NewChain(parent, sha, works);
      if created.TimedOut? {
        return false;
      }
      var flushed := FlushSha(parent, sha, works);
      return flushed == Exited(true);
    }

    // iptables -I parent 1 -j sha
    method InsertJump(parent: string, sha: string, works: bool) returns (ok: bool)
      requires Valid() && Paired(parent, sha)
      modifies this`chains, this`inputs, this`outputs
      ensures Valid() && OnlyTouches(parent, sha)
      ensures sha in chains <==> sha in old(chains)
      ensures sha in chains ==> chains[sha] == old(chains[sha])
      ensures ok ==> chains[parent] != [] && chains[parent][0] == Jump(sha)
      ensures works && sha in chains ==> ok
    {
      var inserted := Run(InsertFirst(parent, sha), works);
      return inserted == Exited(true);
    }

    // iptables -C, and -I when it finds no jump
    method EnsureJump(parent: string, sha: string, works: bool) returns (ok: bool)
      requires Valid() && Paired(parent, sha)
      modifies this`chains, this`inputs, this`outputs
      ensures Valid() && OnlyTouches(parent, sha)
      ensures sha in chains <==> sha in old(chains)
      ensures sha in chains ==> chains[sha] == old(chains[sha])
      ensures ok ==> chains[parent] != [] && chains[parent][0] == Jump(sha)
      ensures works && sha in chains ==> ok
    {
      var present := HasJump(parent, sha, works);
      if present.TimedOut? {
        return false;
      }
      if present.ok {
        return true;
      }
      ok := InsertJump(parent, sha, works);
    }

    // install_isolation_chain. When the commands work it succeeds.
    method InstallIsolationChain(parent: string, sha: string, rules: seq<Rule>, works: bool) returns (ok: bool)
      requires Valid() && Paired(parent, sha) && forall i | 0 <= i < |rules| :: !rules[i].Jump?
      modifies this`chains, this`inputs, this`outputs
      ensures Valid() && OnlyTouches(parent, sha)
      ensures ok ==> sha in chains && chains[sha] == rules && chains[parent] != [] && chains[parent][0] == Jump(sha)
      ensures works ==> ok
    {
      ok := PrepareChain(parent, sha, works);
      if ok {
        ok := AppendRules(parent, sha, rules, works);
      }
      if ok {
        ok := EnsureJump(parent, sha, works);
      }
    }

    // The loop that deletes jumps until none is left. `sees`: every check for a jump tells the truth.
    method RemoveJumps(parent: string, sha: string, works: bool, sees: bool) returns (ok: bool, changed: bool)
      requires Valid() && Paired(parent, sha)
      modifies this`chains, this`inputs, this`outputs
      ensures Valid() && OnlyTouches(parent, sha) && Count(parent) <= old(Count(parent))
      ensures sha in chains <==> sha in old(chains)
      ensures changed ==> Count(parent) < old(Count(parent))
      ensures works ==> ok && Count(parent) == 0 && (changed <==> old(Count(parent)) > 0)
      ensures sees && ok ==> Count(parent) == 0
    {
      changed := false;
      while true
        invariant Valid() && OnlyTouches(parent, sha) && Count(parent) <= old(Count(parent))
        invariant sha in chains <==> sha in old(chains)
        invariant changed <==> Count(parent) < old(Count(parent))
        decreases Count(parent)
      {
        var present := HasJump(parent, sha, works || sees);
        if present.TimedOut? {
          return false, changed;
        }
        if !present.ok {
          return true, changed;
        }
        var deleted := DeleteJump(parent, sha, works);
        if deleted != Exited(true) {
          return false, changed;
        }
        changed := true;
      }
    }

    // iptables -F and -X
    method DeleteSha(parent: string, sha: string, works: bool) returns (ok: bool, removed: bool)
      requires Valid() && Paired(parent, sha)
      modifies this`chains, this`inputs, this`outputs
      ensures Valid() && OnlyTouches(parent, sha) && Count(parent) == old(Count(parent))
      ensures sha in chains ==> sha in old(chains)
      ensures removed ==> sha in old(chains) && sha !in chains
      ensures works && Count(parent) == 0 ==> ok && sha !in chains && (removed <==> sha in old(chains))
    {
      var ended := FlushSha(parent, sha, works);
      if ended.TimedOut? {
        return false, false;
      }
      ended := RemoveSha(parent, sha, works);
      ok, removed := !ended.TimedOut?, ended == Exited(true);
    }

    // One iteration of the rollback's loop over the two chains
    method RemoveIsolation(parent: string, sha: string, works: bool, sees: bool) returns (ok: bool, changed: bool)
      requires Valid() && Paired(parent, sha)
      modifies this`chains, this`inputs, this`outputs
      ensures Valid() && OnlyTouches(parent, sha) && Count(parent) <= old(Count(parent))
      ensures sha in chains ==> sha in old(chains)
      ensures changed ==> Count(parent) < old(Count(parent)) || (sha in old(chains) && sha !in chains)
      ensures works ==> ok && Count(parent) == 0 && sha !in chains
      ensures works ==> (changed <==> old(Count(parent)) > 0 || sha in old(chains))
      ensures sees && ok ==> Count(parent) == 0
    {
      ok, changed := RemoveJumps(parent, sha, works, sees);
      if !ok {
        return;
      }
      var removed: bool;
      ok, removed := DeleteSha(parent, sha, works);
      changed := changed || removed;
    }

    // The rollback's loop over the two chains
    method RemoveAll(works: bool, sees: bool) returns (ok: bool, changed: bool)
      requires Valid()
      modifies this`chains, this`inputs, this`outputs
      ensures Valid()
      ensures changed ==> chains != old(chains)
      ensures works ==> ok && chains == original && (changed <==> old(chains) != original)
      ensures sees && ok ==> inputs == 0 && outputs == 0
    {
      TracesShow(original, chains, inputs, outputs);
      ghost var before, ins, outs := chains, inputs, outputs;
      ok, changed := RemoveIsolation(INPUT, SHA_IN, works, sees);
      if !ok {
        CountsShow(original, before, ins, outs, chains, inputs, outputs);
        return;
      }
      var outChanged: bool;
      ok, outChanged := RemoveIsolation(OUTPUT, SHA_OUT, works, sees);
      changed := changed || outChanged;
      TracesShow(original, chains, inputs, outputs);
      CountsShow(original, before, ins, outs, chains, inputs, outputs);
    }

    // rollback_linux_network_isolation. Whatever applies and rollbacks came before, and however they ended: when the
    // commands work, the tables are the original ones again, and the rollback succeeds exactly if they were not.
    method Rollback(works: bool, sees: bool) returns (outcome: Outcome)
      requires Valid()
      modifies this`chains, this`inputs, this`outputs, this`stateFile
      ensures Valid()
      ensures works ==> Clean() && outcome == (if old(Clean()) then Failed else Succeeded)
      // Even when they do not, it reports success only for a change, and none without the state file gone.
      ensures outcome == Succeeded ==> !stateFile && (old(stateFile) || chains != old(chains))
      ensures outcome == Failed ==> stateFile == old(stateFile)
      // If at least its checks tell the truth, success leaves no jump behind, whatever became of the deletions.
      ensures sees && outcome == Succeeded ==> inputs == 0 && outputs == 0
    {
      var version := Run(Version, works);
      if version != Exited(true) {
        return if version.TimedOut? then Raised else Failed;
      }
      var removed, changed := RemoveAll(works, sees);
      if !removed {
        return Raised;
      }
      if stateFile {
        var unlinked: bool := *;
        if !unlinked && !works {
          return Raised;
        }
        stateFile := false;
        changed := true;
      }
      outcome := if changed then Succeeded else Failed;
    }

    // The part of the apply that is undone when it raises
    method Install(targets: seq<(string, int)>, works: bool) returns (ok: bool)
      requires Valid()
      modifies this`chains, this`inputs, this`outputs, this`stateFile
      ensures Valid()
      ensures ok ==> stateFile && Isolated(chains, set t | t in targets)
      ensures works ==> ok
    {
      ok := InstallIsolationChain(INPUT, SHA_IN, INPUT_RULES, works);
      if !ok {
        return;
      }
      var outputRules := BuildOutputRules(targets);
      TargetRulesNeverJump(targets);
      ok := InstallIsolationChain(OUTPUT, SHA_OUT, outputRules, works);
      if !ok {
        return;
      }
      InstalledTablesIsolate(chains, targets);
      var written: bool, complete: bool := *, *;
      written, complete := written || works, complete || works;
      stateFile := stateFile || written;
      return written && complete;
    }

    // apply_linux_network_isolation: all or nothing. `works` is about the commands of the apply itself, `undoes` about
    // those of its rollback. `begun`: the machine was touched at all.
    method Apply(answers: Option<seq<AddressInfo>>, works: bool, undoes: bool) returns (outcome: Outcome, ghost begun: bool)
      requires Valid()
      modifies this`chains, this`inputs, this`outputs, this`stateFile
      ensures Valid()
      ensures outcome == Succeeded ==> Resolved(answers) != {} && stateFile && Isolated(chains, Resolved(answers))
      ensures works && Resolved(answers) != {} ==> outcome == Succeeded
      ensures !begun ==> chains == old(chains) && stateFile == old(stateFile)
      ensures outcome != Succeeded && begun && undoes ==> outcome == Failed && Clean()
      ensures Resolved(answers) == {} ==> !begun && outcome != Succeeded && (works ==> outcome == Failed)
    {
      begun := false;
      var version := Run(Version, works);
      if version != Exited(true) {
        return if version.TimedOut? then Raised else Failed, false;
      }
      var targets := ControlPlaneTargets(answers);
      if targets == [] {
        return Failed, false;
      }
      assert targets[0] in Resolved(answers);
      begun := true;
      var ok := Install(targets, works);
      if ok {
        return Succeeded, begun;
      }
      var rolledBack := Rollback(undoes, undoes);
      outcome := if rolledBack.Raised? then Raised else Failed;
    }
  }
}
