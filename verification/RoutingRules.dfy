/**
 * The routing policy compiler (mobile/src/network-routing.ts:739-996): a policy
 * and a network snapshot become `ip rule` commands with managed priorities.
 * Rules are records instead of text, and the kernel is the list of its rules.
 */
module RoutingRules {
  import opened Common
  import opened Ipv4Cidr

  // --------------------------------------------------- policy and snapshot

  datatype Family = V4 | V6

  /** Addresses `first` to `first + size - 1`, of either family. */
  datatype Block = Block(first: nat, size: nat)

  function BlockOf(c: Cidr): Block
    requires c.prefix <= 32
  {
    Block(c.network, Size(c))
  }

  datatype Network = Network(name: string, v4Table: string, v6Table: Option<string>, v6Default: bool,
                             v6Local: seq<Block>)

  datatype Route = Route(family: Family, block: Block, table: string)

  datatype Snapshot = Snapshot(wifi: Network, carrier: Network, management: seq<Route>, defaultNetId: Option<nat>)

  datatype Target = DefaultTarget | WifiTarget | CarrierTarget

  datatype Policy = Policy(generation: nat, revision: nat, target: Target, lan: seq<Cidr>)

  const BOUND_START := 10_400
  const MANAGEMENT_START := 10_450
  const MAX_MANAGEMENT := 32
  const LAN_START := 10_500
  const MAX_LAN := 16
  const DEFAULT_RULE := 10_600
  const BLOCK_TABLE := "16661"

  /** What parsing a policy guarantees. */
  predicate ValidPolicy(p: Policy) {
    p.generation >= 1 && |p.lan| <= MAX_LAN && forall c :: c in p.lan ==> Canonical(c)
  }

  /** What reading the network state guarantees: both lists are cut to these lengths. */
  predicate ValidSnapshot(s: Snapshot) {
    |s.management| <= MAX_MANAGEMENT && |s.wifi.v6Local| <= MAX_LAN
  }

  // ---------------------------------------------------------------- rules

  datatype Rule = Rule(family: Family, priority: nat, oif: Option<string>, to: Option<Block>, local: bool,
                       table: string)

  datatype Kernel = Kernel(rules: seq<Rule>, v6Blocked: bool, defaultNet: Option<nat>)

  datatype Command =
    | Add(rule: Rule)
    | Del(family: Family, priority: nat)
    | FlushBlockTable
    | BlockV6
    | SetDefaultNet(net: Option<nat>)

  predicate Managed(priority: nat) {
    || BOUND_START <= priority < BOUND_START + 2
    || MANAGEMENT_START <= priority < MANAGEMENT_START + MAX_MANAGEMENT
    || LAN_START <= priority < LAN_START + MAX_LAN
    || priority == DEFAULT_RULE
  }

  function DelFirst(rules: seq<Rule>, family: Family, priority: nat): seq<Rule> {
    if rules == [] then []
    else if rules[0].family == family && rules[0].priority == priority then rules[1..]
    else [rules[0]] + DelFirst(rules[1..], family, priority)
  }

  function Exec(k: Kernel, c: Command): Kernel {
    match c
    case Add(rule) => k.(rules := k.rules + [rule])
    case Del(family, priority) => k.(rules := DelFirst(k.rules, family, priority))
    case FlushBlockTable => k.(v6Blocked := false)
    case BlockV6 => k.(v6Blocked := true)
    case SetDefaultNet(net) => k.(defaultNet := net)
  }

  function ExecAll(k: Kernel, commands: seq<Command>): Kernel
    decreases |commands|
  {
    if commands == [] then k else Exec(ExecAll(k, commands[..|commands| - 1]), commands[|commands| - 1])
  }

  // ------------------------------------------------------------- compiler

  function TargetOf(p: Policy, s: Snapshot): Option<Network> {
    match p.target
    case DefaultTarget => None
    case WifiTarget => Some(s.wifi)
    case CarrierTarget => Some(s.carrier)
  }

  function BoundRules(n: Network, priority: nat): seq<Rule> {
    [Rule(V4, priority, Some(n.name), None, false, n.v4Table)]
    + if n.v6Table.Some? then [Rule(V6, priority, Some(n.name), None, false, n.v6Table.value)] else []
  }

  function ManagementRules(routes: seq<Route>): seq<Rule> {
    seq(|routes|, i requires 0 <= i < |routes| =>
      Rule(routes[i].family, MANAGEMENT_START + i, None, Some(routes[i].block), true, routes[i].table))
  }

  function LanRules(family: Family, blocks: seq<Block>, table: string): seq<Rule> {
    seq(|blocks|, i requires 0 <= i < |blocks| => Rule(family, LAN_START + i, None, Some(blocks[i]), true, table))
  }

  function LanBlocks(lan: seq<Cidr>): seq<Block>
    requires forall c :: c in lan ==> c.prefix <= 32
  {
    seq(|lan|, i requires 0 <= i < |lan| => BlockOf(lan[i]))
  }

  function DefaultRule(family: Family, table: string): Rule {
    Rule(family, DEFAULT_RULE, None, None, true, table)
  }

  predicate UsesV6(n: Network) {
    n.v6Table.Some? && n.v6Default
  }

  function DefaultTable6(n: Network): string {
    if UsesV6(n) then n.v6Table.value else BLOCK_TABLE
  }

  /** The rules above the default rule, in the order they are added. */
  function BeforeTarget(p: Policy, s: Snapshot): seq<Rule>
    requires ValidPolicy(p)
  {
    BoundRules(s.wifi, BOUND_START)
    + BoundRules(s.carrier, BOUND_START + 1)
    + ManagementRules(s.management)
    + LanRules(V4, LanBlocks(p.lan), s.wifi.v4Table)
    + (if s.wifi.v6Table.Some? then LanRules(V6, s.wifi.v6Local, s.wifi.v6Table.value) else [])
  }

  function TargetRules(target: Option<Network>): seq<Rule> {
    if target.None? then []
    else [DefaultRule(V4, target.value.v4Table), DefaultRule(V6, DefaultTable6(target.value))]
  }

  /** Every rule of a policy on a snapshot. */
  function Compiled(p: Policy, s: Snapshot): seq<Rule>
    requires ValidPolicy(p)
  {
    BeforeTarget(p, s) + TargetRules(TargetOf(p, s))
  }

  function Adds(rules: seq<Rule>): seq<Command> {
    seq(|rules|, i requires 0 <= i < |rules| => Add(rules[i]))
  }

  /** The priorities that clearing visits, in each family. */
  function ManagedPriorities(): seq<nat> {
    [BOUND_START, BOUND_START + 1]
    + seq(MAX_MANAGEMENT, i requires 0 <= i < MAX_MANAGEMENT => MANAGEMENT_START + i)
    + seq(MAX_LAN, i requires 0 <= i < MAX_LAN => LAN_START + i)
    + [DEFAULT_RULE]
  }

  function Dels(family: Family, priorities: seq<nat>): seq<Command> {
    seq(|priorities|, i requires 0 <= i < |priorities| => Del(family, priorities[i]))
  }

  function ClearCommands(): seq<Command> {
    Dels(V4, ManagedPriorities()) + Dels(V6, ManagedPriorities()) + [FlushBlockTable]
  }

  /** The commands behind the rules for the target: the unreachable table, its rule, Android's default network. */
  function TargetCommands(p: Policy, s: Snapshot): seq<Command> {
    if TargetOf(p, s).None? then []
    else
      var target := TargetOf(p, s).value;
      [Add(DefaultRule(V4, target.v4Table))]
      + (if UsesV6(target) then [] else [BlockV6])
      + [Add(DefaultRule(V6, DefaultTable6(target)))]
      + (if s.defaultNetId.Some? then [SetDefaultNet(s.defaultNetId)] else [])
  }

  function ApplyCommands(p: Policy, s: Snapshot): seq<Command>
    requires ValidPolicy(p)
  {
    ClearCommands() + Adds(BeforeTarget(p, s)) + TargetCommands(p, s)
  }

  function RemoveCommands(net: Option<nat>): seq<Command> {
    ClearCommands() + [SetDefaultNet(if net == Some(0) then None else net)]
  }

  lemma AddsAppend(xs: seq<Rule>, ys: seq<Rule>)
    ensures Adds(xs + ys) == Adds(xs) + Adds(ys)
  {}

  /** The compiler as it is written: a command list that grows, a priority that moves. */
  method BuildApplyCommand(p: Policy, s: Snapshot) returns (commands: seq<Command>)
    requires ValidPolicy(p)
    ensures commands == ApplyCommands(p, s)
  {
    hide ClearCommands, ManagementRules, LanRules, BoundRules, Adds, LanBlocks, TargetCommands;
    commands := ClearCommands();
    ghost var added: seq<Rule> := [];
    assert Adds([]) == [] by { AddsNothing(); }
    var priority := BOUND_START;
    commands := AddBoundRules(commands, added, s.wifi, priority);
    added := added + BoundRules(s.wifi, priority);
    priority := priority + 1;
    commands := AddBoundRules(commands, added, s.carrier, priority);
    added := added + BoundRules(s.carrier, priority);
    commands := AddManagementRules(commands, added, s.management);
    added := added + ManagementRules(s.management);
    commands := AddLanRules(commands, added, V4, LanBlocks(p.lan), s.wifi.v4Table);
    added := added + LanRules(V4, LanBlocks(p.lan), s.wifi.v4Table);
    if s.wifi.v6Table.Some? {
      commands := AddLanRules(commands, added, V6, s.wifi.v6Local, s.wifi.v6Table.value);
      added := added + LanRules(V6, s.wifi.v6Local, s.wifi.v6Table.value);
    }
    assert added == BeforeTarget(p, s);
    commands := AddTargetCommands(commands, p, s);
  }

  lemma AddsNothing()
    ensures Adds([]) == []
  {}

  method AddBoundRules(before: seq<Command>, ghost known: seq<Rule>, network: Network, priority: nat)
    returns (commands: seq<Command>)
    requires before == ClearCommands() + Adds(known)
    ensures commands == ClearCommands() + Adds(known + BoundRules(network, priority))
  {
    hide ClearCommands;
    AddsAppend(known, BoundRules(network, priority));
    commands := before + [Add(Rule(V4, priority, Some(network.name), None, false, network.v4Table))];
    if network.v6Table.Some? {
      commands := commands + [Add(Rule(V6, priority, Some(network.name), None, false, network.v6Table.value))];
    }
  }

  method AddManagementRules(before: seq<Command>, ghost known: seq<Rule>, routes: seq<Route>)
    returns (commands: seq<Command>)
    requires before == ClearCommands() + Adds(known)
    ensures commands == ClearCommands() + Adds(known + ManagementRules(routes))
  {
    hide ClearCommands;
    commands := before;
    ghost var added := known;
    var priority := MANAGEMENT_START;
    assert ManagementRules(routes[..0]) == [] && known + [] == known;
    for i := 0 to |routes|
      invariant priority == MANAGEMENT_START + i
      invariant added == known + ManagementRules(routes[..i])
      invariant commands == ClearCommands() + Adds(added)
    {
      var rule := Rule(routes[i].family, priority, None, Some(routes[i].block), true, routes[i].table);
      assert ManagementRules(routes[..i + 1]) == ManagementRules(routes[..i]) + [rule];
      AddsAppend(added, [rule]);
      commands := commands + [Add(rule)];
      added := added + [rule];
      priority := priority + 1;
    }
    assert routes[..|routes|] == routes;
  }

  method AddLanRules(before: seq<Command>, ghost known: seq<Rule>, family: Family, blocks: seq<Block>, table: string)
      returns (commands: seq<Command>)
    requires before == ClearCommands() + Adds(known)
    ensures commands == ClearCommands() + Adds(known + LanRules(family, blocks, table))
  {
    hide ClearCommands;
    commands := before;
    ghost var added := known;
    var priority := LAN_START;
    assert LanRules(family, blocks[..0], table) == [] && known + [] == known;
    for i := 0 to |blocks|
      invariant priority == LAN_START + i
      invariant added == known + LanRules(family, blocks[..i], table)
      invariant commands == ClearCommands() + Adds(added)
    {
      var rule := Rule(family, priority, None, Some(blocks[i]), true, table);
      assert LanRules(family, blocks[..i + 1], table) == LanRules(family, blocks[..i], table) + [rule];
      AddsAppend(added, [rule]);
      commands := commands + [Add(rule)];
      added := added + [rule];
      priority := priority + 1;
    }
    assert blocks[..|blocks|] == blocks;
  }

  method AddTargetCommands(before: seq<Command>, p: Policy, s: Snapshot) returns (commands: seq<Command>)
    ensures commands == before + TargetCommands(p, s)
  {
    commands := before;
    if TargetOf(p, s).Some? {
      var target := TargetOf(p, s).value;
      commands := commands + [Add(DefaultRule(V4, target.v4Table))];
      if target.v6Table.Some? && target.v6Default {
        commands := commands + [Add(DefaultRule(V6, target.v6Table.value))];
      } else {
        commands := commands + [BlockV6];
        commands := commands + [Add(DefaultRule(V6, BLOCK_TABLE))];
      }
      if s.defaultNetId.Some? {
        commands := commands + [SetDefaultNet(s.defaultNetId)];
      }
    }
  }

  // ------------------------------------------- what commands keep and reach

  function Unmanaged(rules: seq<Rule>): seq<Rule> {
    if rules == [] then []
    else (if Managed(rules[0].priority) then [] else [rules[0]]) + Unmanaged(rules[1..])
  }

  predicate SameSlot(a: Rule, b: Rule) {
    a.family == b.family && a.priority == b.priority
  }

  /** At most one rule per family and managed priority. */
  ghost predicate AtMostOne(rules: seq<Rule>) {
    forall i, j :: 0 <= i < j < |rules| && Managed(rules[i].priority) ==> !SameSlot(rules[i], rules[j])
  }

  predicate Touches(c: Command) {
    match c
    case Add(rule) => Managed(rule.priority)
    case Del(family, priority) => Managed(priority)
    case FlushBlockTable => true
    case BlockV6 => true
    case SetDefaultNet(_) => true
  }

  lemma {:induction false} UnmanagedAppend(xs: seq<Rule>, ys: seq<Rule>)
    ensures Unmanaged(xs + ys) == Unmanaged(xs) + Unmanaged(ys)
    decreases |xs|
  {
    if xs == [] {
      assert xs + ys == ys;
    } else {
      assert (xs + ys)[1..] == xs[1..] + ys;
      UnmanagedAppend(xs[1..], ys);
    }
  }

  lemma {:induction false} AllManaged(rules: seq<Rule>)
    requires forall r :: r in rules ==> Managed(r.priority)
    ensures Unmanaged(rules) == []
    decreases |rules|
  {
    if rules != [] {
      assert rules[0] in rules;
      AllManaged(rules[1..]);
    }
  }

  lemma {:induction false} NoneManaged(rules: seq<Rule>)
    requires forall r :: r in rules ==> !Managed(r.priority)
    ensures Unmanaged(rules) == rules
    decreases |rules|
  {
    if rules != [] {
      assert rules[0] in rules;
      NoneManaged(rules[1..]);
      assert rules == [rules[0]] + rules[1..];
    }
  }

  lemma {:induction false} DelKeepsUnmanaged(rules: seq<Rule>, family: Family, priority: nat)
    requires Managed(priority)
    ensures Unmanaged(DelFirst(rules, family, priority)) == Unmanaged(rules)
    decreases |rules|
  {
    if rules != [] && !(rules[0].family == family && rules[0].priority == priority) {
      DelKeepsUnmanaged(rules[1..], family, priority);
      UnmanagedAppend([rules[0]], DelFirst(rules[1..], family, priority));
      UnmanagedAppend([rules[0]], rules[1..]);
      assert rules == [rules[0]] + rules[1..];
    }
  }

  /** Whatever commands ran, and however far, foreign rules are exactly what they were. */
  lemma {:induction false} ForeignRulesStay(k: Kernel, commands: seq<Command>)
    requires forall c :: c in commands ==> Touches(c)
    ensures Unmanaged(ExecAll(k, commands).rules) == Unmanaged(k.rules)
    decreases |commands|
  {
    if commands != [] {
      var last := commands[|commands| - 1];
      var before := ExecAll(k, commands[..|commands| - 1]);
      ForeignRulesStay(k, commands[..|commands| - 1]);
      assert last in commands;
      if last.Del? {
        DelKeepsUnmanaged(before.rules, last.family, last.priority);
      } else if last.Add? {
        UnmanagedAppend(before.rules, [last.rule]);
        AllManaged([last.rule]);
      }
    }
  }

  lemma {:induction false} ExecAppend(k: Kernel, xs: seq<Command>, ys: seq<Command>)
    ensures ExecAll(k, xs + ys) == ExecAll(ExecAll(k, xs), ys)
    decreases |ys|
  {
    if ys == [] {
      assert xs + ys == xs;
    } else {
      assert (xs + ys)[..|xs + ys| - 1] == xs + ys[..|ys| - 1];
      ExecAppend(k, xs, ys[..|ys| - 1]);
    }
  }

  /** Deleting keeps order, takes out the slot, and touches no other slot. */
  lemma {:induction false} DelEmptiesSlot(rules: seq<Rule>, family: Family, priority: nat)
    requires AtMostOne(rules)
    ensures var left := DelFirst(rules, family, priority);
            && AtMostOne(left)
            && (forall r :: r in left ==> r in rules)
            && (Managed(priority) ==> forall r :: r in left ==> !(r.family == family && r.priority == priority))
    decreases |rules|
  {
    if rules != [] {
      if rules[0].family == family && rules[0].priority == priority {
        forall r | r in rules[1..] && Managed(priority)
          ensures !(r.family == family && r.priority == priority)
        {
          var j :| 0 <= j < |rules[1..]| && rules[1..][j] == r;
          assert rules[j + 1] == r;
        }
      } else {
        DelEmptiesSlot(rules[1..], family, priority);
        var left := DelFirst(rules[1..], family, priority);
        forall j | 0 <= j < |left| && Managed(rules[0].priority)
          ensures !SameSlot(rules[0], left[j])
        {
          assert left[j] in rules[1..];
          var i :| 0 <= i < |rules[1..]| && rules[1..][i] == left[j];
          assert rules[i + 1] == left[j];
        }
      }
    }
  }
}
