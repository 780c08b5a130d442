/**
 * What compiled rules do: clearing empties the managed range, applying installs
 * exactly the compiled rules, a script that stops half-way leaves at most one
 * rule per slot, and first-match lookup is the policy.
 */
module RoutingMeaning {
  import opened Common
  import opened Ipv4Cidr
  import opened RoutingRules

  // ------------------------------------------------------------- clearing

  lemma {:induction false} ManagedPrioritiesCover(priority: nat)
    ensures Managed(priority) <==> priority in ManagedPriorities()
  {
    var all := ManagedPriorities();
    if BOUND_START <= priority < BOUND_START + 2 {
      assert all[priority - BOUND_START] == priority;
    } else if MANAGEMENT_START <= priority < MANAGEMENT_START + MAX_MANAGEMENT {
      assert all[2 + priority - MANAGEMENT_START] == priority;
    } else if LAN_START <= priority < LAN_START + MAX_LAN {
      assert all[2 + MAX_MANAGEMENT + priority - LAN_START] == priority;
    } else if priority == DEFAULT_RULE {
      assert all[2 + MAX_MANAGEMENT + MAX_LAN] == priority;
    }
  }

  predicate OnlyDels(commands: seq<Command>) {
    forall c :: c in commands ==> c.Del? || c.FlushBlockTable?
  }

  /** Deletions keep slots single and empty every slot they name. */
  lemma {:induction false} DelsEmptySlots(k: Kernel, commands: seq<Command>)
    requires AtMostOne(k.rules) && OnlyDels(commands)
    ensures var rules := ExecAll(k, commands).rules;
            && AtMostOne(rules)
            && (forall r :: r in rules ==> r in k.rules)
            && (forall r :: r in rules && Managed(r.priority) ==> Del(r.family, r.priority) !in commands)
    decreases |commands|
  {
    if commands != [] {
      var n := |commands| - 1;
      DelsEmptySlots(k, commands[..n]);
      assert commands == commands[..n] + [commands[n]];
      assert commands[n] in commands;
      if commands[n].Del? {
        DelEmptiesSlot(ExecAll(k, commands[..n]).rules, commands[n].family, commands[n].priority);
      }
    }
  }

  lemma {:induction false} ClearNamesEverySlot(family: Family, priority: nat)
    requires Managed(priority)
    ensures Del(family, priority) in ClearCommands()
  {
    ManagedPrioritiesCover(priority);
    var priorities := ManagedPriorities();
    hide ManagedPriorities;
    var i :| 0 <= i < |priorities| && priorities[i] == priority;
    assert Dels(family, priorities)[i] == Del(family, priority);
  }

  lemma {:induction false} ClearOnlyDels()
    ensures OnlyDels(ClearCommands())
    ensures forall c :: c in ClearCommands() ==> Touches(c)
  {
    forall c | c in ClearCommands()
      ensures (c.Del? || c.FlushBlockTable?) && Touches(c)
    {
      if c.Del? {
        assert c.priority in ManagedPriorities();
        ManagedPrioritiesCover(c.priority);
      }
    }
  }

  /** Clearing leaves exactly the foreign rules. */
  lemma {:induction false} ClearingLeavesForeignRules(k: Kernel)
    requires AtMostOne(k.rules)
    ensures ExecAll(k, ClearCommands()).rules == Unmanaged(k.rules)
  {
    hide ClearCommands, Managed;
    ClearOnlyDels();
    DelsEmptySlots(k, ClearCommands());
    ForeignRulesStay(k, ClearCommands());
    var rules := ExecAll(k, ClearCommands()).rules;
    forall r | r in rules
      ensures !Managed(r.priority)
    {
      if Managed(r.priority) {
        ClearNamesEverySlot(r.family, r.priority);
      }
    }
    NoneManaged(rules);
  }

  // ------------------------------------------------------------- applying

  /** Within a family, priorities go up. */
  ghost predicate Ascending(rules: seq<Rule>) {
    forall i, j :: 0 <= i < j < |rules| && rules[i].family == rules[j].family ==> rules[i].priority < rules[j].priority
  }

  predicate Within(rules: seq<Rule>, low: nat, high: nat) {
    forall r :: r in rules ==> low <= r.priority < high
  }

  lemma AscendingAppend(xs: seq<Rule>, ys: seq<Rule>, low: nat, middle: nat, high: nat)
    requires Ascending(xs) && Ascending(ys) && Within(xs, low, middle) && Within(ys, middle, high)
             && low <= middle <= high
    ensures Ascending(xs + ys) && Within(xs + ys, low, high)
  {}

  /** LAN rules of the two families share their priorities. */
  lemma LanRulesAscend(s: Snapshot, lan: seq<Block>)
    requires |lan| <= MAX_LAN && |s.wifi.v6Local| <= MAX_LAN
    ensures var rules := LanRules(V4, lan, s.wifi.v4Table)
                         + (if s.wifi.v6Table.Some? then LanRules(V6, s.wifi.v6Local, s.wifi.v6Table.value) else []);
            Ascending(rules) && Within(rules, LAN_START, DEFAULT_RULE) && forall r :: r in rules ==> Managed(r.priority)
  {}

  lemma {:induction false} CompiledAscends(p: Policy, s: Snapshot)
    requires ValidPolicy(p) && ValidSnapshot(s)
    ensures Ascending(Compiled(p, s)) && forall r :: r in Compiled(p, s) ==> Managed(r.priority)
  {
    hide Ascending, Within, LanRules;
    var wifi, carrier := BoundRules(s.wifi, BOUND_START), BoundRules(s.carrier, BOUND_START + 1);
    var management := ManagementRules(s.management);
    var lan := LanRules(V4, LanBlocks(p.lan), s.wifi.v4Table)
               + (if s.wifi.v6Table.Some? then LanRules(V6, s.wifi.v6Local, s.wifi.v6Table.value) else []);
    var target := TargetRules(TargetOf(p, s));
    LanRulesAscend(s, LanBlocks(p.lan));
    SmallListsAscend(p, s);
    AscendingAppend(wifi, carrier, BOUND_START, BOUND_START + 1, MANAGEMENT_START);
    AscendingAppend(wifi + carrier, management, BOUND_START, MANAGEMENT_START, LAN_START);
    AscendingAppend(wifi + carrier + management, lan, BOUND_START, LAN_START, DEFAULT_RULE);
    AscendingAppend(wifi + carrier + management + lan, target, BOUND_START, DEFAULT_RULE, DEFAULT_RULE + 1);
    assert Compiled(p, s) == wifi + carrier + management + lan + target by {
      assert wifi + carrier + management + lan
          == wifi + carrier + management + LanRules(V4, LanBlocks(p.lan), s.wifi.v4Table)
             + (if s.wifi.v6Table.Some? then LanRules(V6, s.wifi.v6Local, s.wifi.v6Table.value) else []);
    }
  }

  lemma SmallListsAscend(p: Policy, s: Snapshot)
    requires ValidPolicy(p) && ValidSnapshot(s)
    ensures Ascending(BoundRules(s.wifi, BOUND_START))
            && Within(BoundRules(s.wifi, BOUND_START), BOUND_START, BOUND_START + 1)
    ensures Ascending(BoundRules(s.carrier, BOUND_START + 1))
    ensures Within(BoundRules(s.carrier, BOUND_START + 1), BOUND_START + 1, MANAGEMENT_START)
    ensures Ascending(ManagementRules(s.management))
            && Within(ManagementRules(s.management), MANAGEMENT_START, LAN_START)
    ensures Ascending(TargetRules(TargetOf(p, s)))
            && Within(TargetRules(TargetOf(p, s)), DEFAULT_RULE, DEFAULT_RULE + 1)
    ensures forall r :: r in ManagementRules(s.management) ==> Managed(r.priority)
  {}

  /** The add commands of a command list. */
  function AddedRules(commands: seq<Command>): seq<Rule> {
    if commands == [] then []
    else AddedRules(commands[..|commands| - 1])
         + (if commands[|commands| - 1].Add? then [commands[|commands| - 1].rule] else [])
  }

  lemma {:induction false} AddedAppend(xs: seq<Command>, ys: seq<Command>)
    ensures AddedRules(xs + ys) == AddedRules(xs) + AddedRules(ys)
    decreases |ys|
  {
    if ys == [] {
      assert xs + ys == xs;
    } else {
      assert (xs + ys)[..|xs + ys| - 1] == xs + ys[..|ys| - 1];
      AddedAppend(xs, ys[..|ys| - 1]);
    }
  }

  lemma {:induction false} AddedOfAdds(rules: seq<Rule>)
    ensures AddedRules(Adds(rules)) == rules
    decreases |rules|
  {
    if rules != [] {
      assert Adds(rules)[..|rules| - 1] == Adds(rules[..|rules| - 1]);
      AddedOfAdds(rules[..|rules| - 1]);
      assert rules == rules[..|rules| - 1] + [rules[|rules| - 1]];
    }
  }

  predicate NoDels(commands: seq<Command>) {
    forall c :: c in commands ==> !c.Del?
  }

  lemma {:induction false} AddsExtend(k: Kernel, commands: seq<Command>)
    requires NoDels(commands)
    ensures ExecAll(k, commands).rules == k.rules + AddedRules(commands)
    decreases |commands|
  {
    if commands != [] {
      var n := |commands| - 1;
      assert commands[n] in commands;
      AddsExtend(k, commands[..n]);
    }
  }

  function AddingCommands(p: Policy, s: Snapshot): seq<Command>
    requires ValidPolicy(p)
  {
    Adds(BeforeTarget(p, s)) + TargetCommands(p, s)
  }

  lemma {:induction false} TargetCommandsAdd(p: Policy, s: Snapshot)
    ensures AddedRules(TargetCommands(p, s)) == TargetRules(TargetOf(p, s)) && NoDels(TargetCommands(p, s))
  {
    if TargetOf(p, s).Some? {
      var target := TargetOf(p, s).value;
      var first := [Add(DefaultRule(V4, target.v4Table))];
      var block := if UsesV6(target) then [] else [BlockV6];
      var second := [Add(DefaultRule(V6, DefaultTable6(target)))];
      var net := if s.defaultNetId.Some? then [SetDefaultNet(s.defaultNetId)] else [];
      AddedAppend(first + block + second, net);
      AddedAppend(first + block, second);
      AddedAppend(first, block);
    }
  }

  lemma {:induction false} AddingAddsCompiled(p: Policy, s: Snapshot)
    requires ValidPolicy(p)
    ensures AddedRules(AddingCommands(p, s)) == Compiled(p, s) && NoDels(AddingCommands(p, s))
  {
    hide BeforeTarget, TargetCommands, TargetRules;
    AddedAppend(Adds(BeforeTarget(p, s)), TargetCommands(p, s));
    AddedOfAdds(BeforeTarget(p, s));
    TargetCommandsAdd(p, s);
  }

  lemma {:induction false} ApplyIsClearThenAdd(p: Policy, s: Snapshot)
    requires ValidPolicy(p)
    ensures ApplyCommands(p, s) == ClearCommands() + AddingCommands(p, s)
  {
    hide ClearCommands, Adds, TargetCommands, BeforeTarget;
    assert ClearCommands() + (Adds(BeforeTarget(p, s)) + TargetCommands(p, s))
        == ClearCommands() + Adds(BeforeTarget(p, s)) + TargetCommands(p, s);
  }

  /** A completed script leaves the foreign rules and the compiled ones, in this order. */
  lemma {:induction false} ApplyInstallsCompiled(k: Kernel, p: Policy, s: Snapshot)
    requires ValidPolicy(p) && AtMostOne(k.rules)
    ensures ExecAll(k, ApplyCommands(p, s)).rules == Unmanaged(k.rules) + Compiled(p, s)
  {
    hide ClearCommands, AddingCommands, Compiled, ApplyCommands;
    ApplyIsClearThenAdd(p, s);
    ExecAppend(k, ClearCommands(), AddingCommands(p, s));
    ClearingLeavesForeignRules(k);
    AddingAddsCompiled(p, s);
    AddsExtend(ExecAll(k, ClearCommands()), AddingCommands(p, s));
  }

  lemma {:induction false} ForeignPlusAscending(foreign: seq<Rule>, rules: seq<Rule>)
    requires (forall r :: r in foreign ==> !Managed(r.priority)) && Ascending(rules)
    ensures AtMostOne(foreign + rules)
  {
    var all := foreign + rules;
    forall i, j | 0 <= i < j < |all| && Managed(all[i].priority)
      ensures !SameSlot(all[i], all[j])
    {
      if i >= |foreign| {
        assert all[i] == rules[i - |foreign|] && all[j] == rules[j - |foreign|];
      }
    }
  }

  lemma {:induction false} UnmanagedAreForeign(rules: seq<Rule>)
    ensures forall r :: r in Unmanaged(rules) ==> !Managed(r.priority)
    decreases |rules|
  {
    if rules != [] {
      UnmanagedAreForeign(rules[1..]);
    }
  }

  lemma {:induction false} AddedPrefix(commands: seq<Command>, n: nat)
    requires n <= |commands|
    ensures AddedRules(commands[..n]) <= AddedRules(commands)
  {
    assert commands == commands[..n] + commands[n..];
    AddedAppend(commands[..n], commands[n..]);
  }

  /** Stopping the script after any command leaves at most one rule per slot, so the next clear still works. */
  lemma {:induction false} StoppedScriptsStayClearable(k: Kernel, p: Policy, s: Snapshot, n: nat)
    requires ValidPolicy(p) && ValidSnapshot(s) && AtMostOne(k.rules) && n <= |ApplyCommands(p, s)|
    ensures AtMostOne(ExecAll(k, ApplyCommands(p, s)[..n]).rules)
    ensures Unmanaged(ExecAll(k, ApplyCommands(p, s)[..n]).rules) == Unmanaged(k.rules)
  {
    hide ClearCommands, AddingCommands, Compiled, ApplyCommands, Managed;
    ApplyIsClearThenAdd(p, s);
    ClearOnlyDels();
    var clear, adding := ClearCommands(), AddingCommands(p, s);
    if n <= |clear| {
      assert (clear + adding)[..n] == clear[..n];
      assert forall c :: c in clear[..n] ==> c in clear;
      DelsEmptySlots(k, clear[..n]);
      ForeignRulesStay(k, clear[..n]);
    } else {
      var m := n - |clear|;
      assert (clear + adding)[..n] == clear + adding[..m];
      ExecAppend(k, clear, adding[..m]);
      ClearingLeavesForeignRules(k);
      AddingAddsCompiled(p, s);
      AddsExtend(ExecAll(k, clear), adding[..m]);
      AddedPrefix(adding, m);
      CompiledAscends(p, s);
      var added := AddedRules(adding[..m]);
      assert Ascending(added) && forall r :: r in added ==> r in Compiled(p, s);
      UnmanagedAreForeign(k.rules);
      ForeignPlusAscending(Unmanaged(k.rules), added);
      UnmanagedAppend(Unmanaged(k.rules), added);
      NoneManaged(Unmanaged(k.rules));
      AllManaged(added);
    }
  }

  /** The unreachable route stands behind the block table exactly when the target has no IPv6 default. */
  lemma {:induction false} BlockTableIsSetIff(k: Kernel, p: Policy, s: Snapshot)
    requires ValidPolicy(p)
    ensures ExecAll(k, ApplyCommands(p, s)).v6Blocked <==> (TargetOf(p, s).Some? && !UsesV6(TargetOf(p, s).value))
  {
    hide AddingCommands, ApplyCommands, Dels, ManagedPriorities, BeforeTarget;
    ApplyIsClearThenAdd(p, s);
    var clear := ClearCommands();
    assert clear[|clear| - 1] == FlushBlockTable;
    ExecAppend(k, clear, AddingCommands(p, s));
    AddingBlocks(ExecAll(k, clear), p, s);
  }

  lemma {:induction false} AddingBlocks(k: Kernel, p: Policy, s: Snapshot)
    requires ValidPolicy(p) && !k.v6Blocked
    ensures ExecAll(k, AddingCommands(p, s)).v6Blocked <==> (TargetOf(p, s).Some? && !UsesV6(TargetOf(p, s).value))
  {
    hide BeforeTarget, ExecAll, TargetCommands;
    var adds := Adds(BeforeTarget(p, s));
    ExecAppend(k, adds, TargetCommands(p, s));
    AddsKeepBlock(k, BeforeTarget(p, s));
    TargetBlocks(ExecAll(k, adds), p, s);
  }

  lemma {:induction false} AddsKeepBlock(k: Kernel, rules: seq<Rule>)
    ensures ExecAll(k, Adds(rules)).v6Blocked == k.v6Blocked
    decreases |rules|
  {
    if rules != [] {
      assert Adds(rules)[..|rules| - 1] == Adds(rules[..|rules| - 1]);
      AddsKeepBlock(k, rules[..|rules| - 1]);
    }
  }

  lemma {:induction false} TargetBlocks(k: Kernel, p: Policy, s: Snapshot)
    requires !k.v6Blocked
    ensures ExecAll(k, TargetCommands(p, s)).v6Blocked <==> (TargetOf(p, s).Some? && !UsesV6(TargetOf(p, s).value))
  {
    if TargetOf(p, s).Some? {
      var target := TargetOf(p, s).value;
      var first := [Add(DefaultRule(V4, target.v4Table))];
      var block := if UsesV6(target) then [] else [BlockV6];
      var second := [Add(DefaultRule(V6, DefaultTable6(target)))];
      var net := if s.defaultNetId.Some? then [SetDefaultNet(s.defaultNetId)] else [];
      ExecAppend(k, first + block + second, net);
      ExecAppend(k, first + block, second);
      ExecAppend(k, first, block);
    }
  }

  // --------------------------------------------------------------- lookup

  /** A packet: its destination, the interface its socket is bound to, and whether it is sent by this host. */
  datatype Packet = Packet(family: Family, destination: nat, oif: Option<string>, local: bool)

  predicate Covers(b: Block, address: nat) {
    b.first <= address < b.first + b.size
  }

  predicate Matches(r: Rule, packet: Packet) {
    && r.family == packet.family
    && (r.oif.Some? ==> packet.oif == r.oif)
    && (r.to.Some? ==> Covers(r.to.value, packet.destination))
    && (r.local ==> packet.local)
  }

  /** The kernel's choice: the matching rule of least priority, the older one when priorities are equal. */
  function Lookup(rules: seq<Rule>, packet: Packet): Option<Rule> {
    if rules == [] then None
    else
      var rest := Lookup(rules[1..], packet);
      if Matches(rules[0], packet) && (rest.None? || rules[0].priority <= rest.value.priority) then Some(rules[0])
        else rest
  }

  lemma {:induction false} LookupFinds(rules: seq<Rule>, packet: Packet)
    ensures Lookup(rules, packet).Some? <==> exists r :: r in rules && Matches(r, packet)
    ensures Lookup(rules, packet).Some? ==>
              && Lookup(rules, packet).value in rules
              && Matches(Lookup(rules, packet).value, packet)
              && forall r :: r in rules && Matches(r, packet) ==> Lookup(rules, packet).value.priority <= r.priority
    decreases |rules|
  {
    if rules != [] {
      LookupFinds(rules[1..], packet);
      assert rules == [rules[0]] + rules[1..];
    }
  }

  /** The first matching rule in list order. */
  function FirstMatch(rules: seq<Rule>, packet: Packet): Option<Rule> {
    if rules == [] then None
    else if Matches(rules[0], packet) then Some(rules[0])
    else FirstMatch(rules[1..], packet)
  }

  lemma {:induction false} FirstMatchAppend(xs: seq<Rule>, ys: seq<Rule>, packet: Packet)
    ensures FirstMatch(xs + ys, packet)
            == (if FirstMatch(xs, packet).Some? then FirstMatch(xs, packet) else FirstMatch(ys, packet))
    decreases |xs|
  {
    if xs == [] {
      assert xs + ys == ys;
    } else {
      assert (xs + ys)[1..] == xs[1..] + ys;
      FirstMatchAppend(xs[1..], ys, packet);
    }
  }

  lemma {:induction false} AscendingLookup(rules: seq<Rule>, packet: Packet)
    requires Ascending(rules)
    ensures Lookup(rules, packet) == FirstMatch(rules, packet)
    decreases |rules|
  {
    if rules != [] {
      AscendingLookup(rules[1..], packet);
      LookupFinds(rules[1..], packet);
      var rest := Lookup(rules[1..], packet);
      if rest.Some? {
        var j :| 0 <= j < |rules[1..]| && rules[1..][j] == rest.value;
        assert rules[j + 1] == rest.value;
      }
    }
  }

  /** Foreign rules play no part when none that matches comes before the managed range ends. */
  lemma {:induction false} ForeignRulesBehind(foreign: seq<Rule>, rules: seq<Rule>, packet: Packet)
    requires forall r :: r in foreign && Matches(r, packet) ==> r.priority > DEFAULT_RULE
    requires forall r :: r in rules ==> r.priority <= DEFAULT_RULE
    requires Lookup(rules, packet).Some?
    ensures Lookup(foreign + rules, packet) == Lookup(rules, packet)
    decreases |foreign|
  {
    if foreign == [] {
      assert foreign + rules == rules;
    } else {
      assert (foreign + rules)[1..] == foreign[1..] + rules;
      assert foreign[0] in foreign;
      ForeignRulesBehind(foreign[1..], rules, packet);
      LookupFinds(rules, packet);
    }
  }

  // -------------------------------------------------------------- meaning

  /** The table of the first listed management route of the family that covers the destination. */
  function RouteTable(routes: seq<Route>, packet: Packet): Option<string> {
    if routes == [] then None
    else if routes[0].family == packet.family && Covers(routes[0].block, packet.destination) then Some(routes[0].table)
    else RouteTable(routes[1..], packet)
  }

  function BoundTable(n: Network, packet: Packet): Option<string> {
    if packet.oif != Some(n.name) then None
    else if packet.family == V4 then Some(n.v4Table)
    else n.v6Table
  }

  predicate OnLan(p: Policy, s: Snapshot, packet: Packet)
    requires ValidPolicy(p)
  {
    if packet.family == V4 then exists c :: c in p.lan && InBlock(packet.destination, c)
    else s.wifi.v6Table.Some? && exists b :: b in s.wifi.v6Local && Covers(b, packet.destination)
  }

  function FamilyTable(n: Network, family: Family): Option<string> {
    if family == V4 then Some(n.v4Table) else n.v6Table
  }

  /** What the policy says of a packet: its table, or that it says nothing. */
  function Meaning(p: Policy, s: Snapshot, packet: Packet): Option<string>
    requires ValidPolicy(p)
  {
    if BoundTable(s.wifi, packet).Some? then BoundTable(s.wifi, packet)
    else if BoundTable(s.carrier, packet).Some? then BoundTable(s.carrier, packet)
    else if !packet.local then None
    else if RouteTable(s.management, packet).Some? then RouteTable(s.management, packet)
    else if OnLan(p, s, packet) then FamilyTable(s.wifi, packet.family)
    else if TargetOf(p, s).None? then None
    else if packet.family == V4 then Some(TargetOf(p, s).value.v4Table)
    else Some(DefaultTable6(TargetOf(p, s).value))
  }

  function TableOf(r: Option<Rule>): Option<string> {
    if r.Some? then Some(r.value.table) else None
  }

  lemma {:induction false} BoundRulesMean(n: Network, priority: nat, packet: Packet)
    ensures TableOf(FirstMatch(BoundRules(n, priority), packet)) == BoundTable(n, packet)
  {
    var rules := BoundRules(n, priority);
    var six := if n.v6Table.Some? then [Rule(V6, priority, Some(n.name), None, false, n.v6Table.value)] else [];
    assert rules[1..] == six;
    if six != [] {
      assert six[1..] == [];
      assert FirstMatch(six[1..], packet) == None;
    }
    assert FirstMatch(six, packet) == if six != [] && Matches(six[0], packet) then Some(six[0]) else None;
  }

  /** Rules of routes, from the route at `from` on. */
  lemma {:induction false} ManagementRulesMean(routes: seq<Route>, from: nat, packet: Packet)
    requires from <= |routes| && packet.local
    ensures TableOf(FirstMatch(ManagementRules(routes)[from..], packet)) == RouteTable(routes[from..], packet)
    decreases |routes| - from
  {
    if from < |routes| {
      ManagementRulesMean(routes, from + 1, packet);
      assert ManagementRules(routes)[from..][1..] == ManagementRules(routes)[from + 1..];
      assert routes[from..][1..] == routes[from + 1..];
    }
  }

  lemma {:induction false} LanRulesMean(family: Family, blocks: seq<Block>, table: string, from: nat, packet: Packet)
    requires from <= |blocks| && packet.local
    ensures TableOf(FirstMatch(LanRules(family, blocks, table)[from..], packet))
         == if packet.family == family && exists b :: b in blocks[from..] && Covers(b, packet.destination)
           then Some(table) else None
    decreases |blocks| - from
  {
    if from < |blocks| {
      LanRulesMean(family, blocks, table, from + 1, packet);
      assert LanRules(family, blocks, table)[from..][1..] == LanRules(family, blocks, table)[from + 1..];
      assert blocks[from..] == [blocks[from]] + blocks[from + 1..];
    }
  }

  lemma {:induction false} NonLocalSkips(rules: seq<Rule>, packet: Packet)
    requires !packet.local && forall r :: r in rules ==> r.local
    ensures FirstMatch(rules, packet) == None
    decreases |rules|
  {
    if rules != [] {
      assert rules[0] in rules;
      NonLocalSkips(rules[1..], packet);
    }
  }

  /** The mask test of the policy is the range test of the kernel. */
  lemma {:induction false} LanBlocksCover(lan: seq<Cidr>, address: nat)
    requires address < WORD
    requires forall c :: c in lan ==> c.prefix <= 32 && Canonical(c)
    ensures (exists b :: b in LanBlocks(lan) && Covers(b, address)) <==> exists c :: c in lan && InBlock(address, c)
  {
    hide BitAnd, Mask, Pow2;
    forall i | 0 <= i < |lan|
      ensures InBlock(address, lan[i]) <==> Covers(LanBlocks(lan)[i], address)
    {
      assert lan[i] in lan;
      BlockIsRange(address, lan[i]);
    }
    if c :| c in lan && InBlock(address, c) {
      var i :| 0 <= i < |lan| && lan[i] == c;
      assert LanBlocks(lan)[i] in LanBlocks(lan);
    }
  }

  /** First-match lookup over the compiled rules is the policy, for every packet. */
  lemma {:induction false} CompiledMeansPolicy(p: Policy, s: Snapshot, packet: Packet)
    requires ValidPolicy(p) && ValidSnapshot(s) && (packet.family == V4 ==> packet.destination < WORD)
    ensures TableOf(Lookup(Compiled(p, s), packet)) == Meaning(p, s, packet)
  {
    hide Ascending, BoundRules, ManagementRules, LanRules, LanBlocks, TargetRules, RouteTable, BoundTable, Matches,
         OnLan, InBlock, Lookup, FirstMatch;
    CompiledAscends(p, s);
    AscendingLookup(Compiled(p, s), packet);
    var wifi, carrier := BoundRules(s.wifi, BOUND_START), BoundRules(s.carrier, BOUND_START + 1);
    var management := ManagementRules(s.management);
    var lan4 := LanRules(V4, LanBlocks(p.lan), s.wifi.v4Table);
    var lan6 := if s.wifi.v6Table.Some? then LanRules(V6, s.wifi.v6Local, s.wifi.v6Table.value) else [];
    var target := TargetRules(TargetOf(p, s));
    assert Compiled(p, s) == wifi + carrier + management + lan4 + lan6 + target;
    FirstMatchAppend(wifi + carrier + management + lan4 + lan6, target, packet);
    FirstMatchAppend(wifi + carrier + management + lan4, lan6, packet);
    FirstMatchAppend(wifi + carrier + management, lan4, packet);
    FirstMatchAppend(wifi + carrier, management, packet);
    FirstMatchAppend(wifi, carrier, packet);
    BoundRulesMean(s.wifi, BOUND_START, packet);
    BoundRulesMean(s.carrier, BOUND_START + 1, packet);
    if packet.local {
      assert management[0..] == management && s.management[0..] == s.management;
      ManagementRulesMean(s.management, 0, packet);
      LanMeans(p, s, packet);
      TargetMeans(p, s, packet);
    } else {
      LocalRules(p, s);
      NonLocalSkips(management, packet);
      NonLocalSkips(lan4, packet);
      NonLocalSkips(lan6, packet);
      NonLocalSkips(target, packet);
    }
  }

  lemma LocalRules(p: Policy, s: Snapshot)
    requires ValidPolicy(p)
    ensures forall r :: r in ManagementRules(s.management) ==> r.local
    ensures forall r :: r in LanRules(V4, LanBlocks(p.lan), s.wifi.v4Table) ==> r.local
    ensures s.wifi.v6Table.Some? ==> forall r :: r in LanRules(V6, s.wifi.v6Local, s.wifi.v6Table.value) ==> r.local
    ensures forall r :: r in TargetRules(TargetOf(p, s)) ==> r.local
  {}

  lemma {:induction false} LanMeans(p: Policy, s: Snapshot, packet: Packet)
    requires ValidPolicy(p) && packet.local && (packet.family == V4 ==> packet.destination < WORD)
    ensures var lan4 := LanRules(V4, LanBlocks(p.lan), s.wifi.v4Table);
            var lan6 := if s.wifi.v6Table.Some? then LanRules(V6, s.wifi.v6Local, s.wifi.v6Table.value) else [];
            (if FirstMatch(lan4, packet).Some? then TableOf(FirstMatch(lan4, packet))
             else TableOf(FirstMatch(lan6, packet)))
            == if OnLan(p, s, packet) then FamilyTable(s.wifi, packet.family) else None
    ensures OnLan(p, s, packet) ==> FamilyTable(s.wifi, packet.family).Some?
  {
    hide LanRules, InBlock, Covers;
    var blocks := LanBlocks(p.lan);
    var lan4 := LanRules(V4, blocks, s.wifi.v4Table);
    assert lan4[0..] == lan4 && blocks[0..] == blocks;
    LanRulesMean(V4, blocks, s.wifi.v4Table, 0, packet);
    if packet.family == V4 {
      LanBlocksCover(p.lan, packet.destination);
    }
    if s.wifi.v6Table.Some? {
      var lan6 := LanRules(V6, s.wifi.v6Local, s.wifi.v6Table.value);
      assert lan6[0..] == lan6 && s.wifi.v6Local[0..] == s.wifi.v6Local;
      LanRulesMean(V6, s.wifi.v6Local, s.wifi.v6Table.value, 0, packet);
    }
  }

  lemma TargetMeans(p: Policy, s: Snapshot, packet: Packet)
    requires packet.local
    ensures TableOf(FirstMatch(TargetRules(TargetOf(p, s)), packet))
         == (if TargetOf(p, s).None? then None
             else if packet.family == V4 then Some(TargetOf(p, s).value.v4Table)
               else Some(DefaultTable6(TargetOf(p, s).value)))
  {}

  /** After a completed script the kernel routes as the policy says, unless a foreign rule comes first. */
  lemma {:induction false} AppliedKernelFollowsPolicy(k: Kernel, p: Policy, s: Snapshot, packet: Packet)
    requires ValidPolicy(p) && ValidSnapshot(s) && AtMostOne(k.rules)
    requires (packet.family == V4 ==> packet.destination < WORD) && Meaning(p, s, packet).Some?
    requires forall r :: r in k.rules && !Managed(r.priority) && Matches(r, packet) ==> r.priority > DEFAULT_RULE
    ensures TableOf(Lookup(ExecAll(k, ApplyCommands(p, s)).rules, packet)) == Meaning(p, s, packet)
  {
    hide Compiled, Meaning, ApplyCommands, Matches, Lookup;
    ApplyInstallsCompiled(k, p, s);
    CompiledMeansPolicy(p, s, packet);
    CompiledAscends(p, s);
    UnmanagedAreForeign(k.rules);
    UnmanagedAreOld(k.rules);
    ForeignRulesBehind(Unmanaged(k.rules), Compiled(p, s), packet);
  }

  lemma {:induction false} UnmanagedAreOld(rules: seq<Rule>)
    ensures forall r :: r in Unmanaged(rules) ==> r in rules
    decreases |rules|
  {
    if rules != [] {
      UnmanagedAreOld(rules[1..]);
    }
  }

  // ------------------------------------------------------------ the check

  predicate HasRule(rules: seq<Rule>, family: Family, priority: nat, oif: Option<string>, to: Option<Block>,
                    table: string)
  {
    exists r :: r in rules && r.family == family && r.priority == priority && (oif.Some? ==> r.oif == oif)
                && (to.Some? ==> r.to == to) && r.table == table
  }

  predicate HasAny(rules: seq<Rule>, family: Family, priority: nat) {
    exists r :: r in rules && r.family == family && r.priority == priority
  }

  /** What the manager checks after applying: six groups of rules, the IPv6 bound rules are not among them. */
  predicate Accepts(p: Policy, s: Snapshot, rules: seq<Rule>)
    requires ValidPolicy(p)
  {
    && HasRule(rules, V4, BOUND_START, Some(s.wifi.name), None, s.wifi.v4Table)
    && HasRule(rules, V4, BOUND_START + 1, Some(s.carrier.name), None, s.carrier.v4Table)
    && (forall i :: 0 <= i < |s.management| ==>
          HasRule(rules, s.management[i].family, MANAGEMENT_START + i, None, Some(s.management[i].block),
                  s.management[i].table))
    && (forall i :: 0 <= i < |p.lan| ==>
        HasRule(rules, V4, LAN_START + i, None, Some(LanBlocks(p.lan)[i]), s.wifi.v4Table))
    && (s.wifi.v6Table.Some? ==> forall i :: 0 <= i < |s.wifi.v6Local| ==>
          HasRule(rules, V6, LAN_START + i, None, Some(s.wifi.v6Local[i]), s.wifi.v6Table.value))
    && (if TargetOf(p, s).Some? then
          && HasRule(rules, V4, DEFAULT_RULE, None, None, TargetOf(p, s).value.v4Table)
          && HasRule(rules, V6, DEFAULT_RULE, None, None, DefaultTable6(TargetOf(p, s).value))
        else !HasAny(rules, V4, DEFAULT_RULE) && !HasAny(rules, V6, DEFAULT_RULE))
  }

  /** The check accepts what the compiler installs on the same snapshot. */
  lemma {:induction false} AppliedIsAccepted(k: Kernel, p: Policy, s: Snapshot)
    requires ValidPolicy(p) && ValidSnapshot(s) && AtMostOne(k.rules)
    ensures Accepts(p, s, ExecAll(k, ApplyCommands(p, s)).rules)
  {
    hide ApplyCommands, Managed, LanBlocks;
    ApplyInstallsCompiled(k, p, s);
    UnmanagedAreForeign(k.rules);
    var rules := Unmanaged(k.rules) + Compiled(p, s);
    CompiledIsAccepted(Unmanaged(k.rules), p, s);
  }

  predicate Contains(rules: seq<Rule>, part: seq<Rule>) {
    forall r :: r in part ==> r in rules
  }

  lemma {:induction false} HasBound(rules: seq<Rule>, n: Network, priority: nat)
    requires Contains(rules, BoundRules(n, priority))
    ensures HasRule(rules, V4, priority, Some(n.name), None, n.v4Table)
  {
    assert BoundRules(n, priority)[0] in rules;
  }

  lemma {:induction false} HasManagement(rules: seq<Rule>, routes: seq<Route>)
    requires Contains(rules, ManagementRules(routes))
    ensures forall i :: 0 <= i < |routes| ==>
              HasRule(rules, routes[i].family, MANAGEMENT_START + i, None, Some(routes[i].block), routes[i].table)
  {
    forall i | 0 <= i < |routes|
      ensures HasRule(rules, routes[i].family, MANAGEMENT_START + i, None, Some(routes[i].block), routes[i].table)
    {
      assert ManagementRules(routes)[i] in rules;
    }
  }

  lemma {:induction false} HasLan(rules: seq<Rule>, family: Family, blocks: seq<Block>, table: string)
    requires Contains(rules, LanRules(family, blocks, table))
    ensures forall i :: 0 <= i < |blocks| ==> HasRule(rules, family, LAN_START + i, None, Some(blocks[i]), table)
  {
    forall i | 0 <= i < |blocks|
      ensures HasRule(rules, family, LAN_START + i, None, Some(blocks[i]), table)
    {
      assert LanRules(family, blocks, table)[i] in rules;
    }
  }

  lemma {:induction false} HasDefaults(rules: seq<Rule>, n: Network)
    requires Contains(rules, TargetRules(Some(n)))
    ensures HasRule(rules, V4, DEFAULT_RULE, None, None, n.v4Table)
            && HasRule(rules, V6, DEFAULT_RULE, None, None, DefaultTable6(n))
  {
    assert TargetRules(Some(n))[0] in rules && TargetRules(Some(n))[1] in rules;
  }

  lemma {:induction false} NoDefaults(p: Policy, s: Snapshot)
    requires ValidPolicy(p) && ValidSnapshot(s)
    ensures forall r :: r in BeforeTarget(p, s) ==> r.priority < DEFAULT_RULE
  {
    SmallListsAscend(p, s);
    LanRulesAscend(s, LanBlocks(p.lan));
  }

  lemma {:induction false} CompiledIsAccepted(foreign: seq<Rule>, p: Policy, s: Snapshot)
    requires ValidPolicy(p) && ValidSnapshot(s) && forall r :: r in foreign ==> !Managed(r.priority)
    ensures Accepts(p, s, foreign + Compiled(p, s))
  {
    hide BoundRules, ManagementRules, LanRules, TargetRules, HasRule;
    var rules := foreign + Compiled(p, s);
    HasBound(rules, s.wifi, BOUND_START);
    HasBound(rules, s.carrier, BOUND_START + 1);
    HasManagement(rules, s.management);
    HasLan(rules, V4, LanBlocks(p.lan), s.wifi.v4Table);
    if s.wifi.v6Table.Some? {
      HasLan(rules, V6, s.wifi.v6Local, s.wifi.v6Table.value);
    }
    assert |LanBlocks(p.lan)| == |p.lan|;
    if TargetOf(p, s).Some? {
      HasDefaults(rules, TargetOf(p, s).value);
    } else {
      NoDefaults(p, s);
      NoTargetRules(p, s);
    }
  }

  lemma NoTargetRules(p: Policy, s: Snapshot)
    requires TargetOf(p, s).None?
    ensures TargetRules(TargetOf(p, s)) == []
  {}

  predicate BoundV6(r: Rule) {
    r.family == V6 && BOUND_START <= r.priority < BOUND_START + 2
  }

  function WithoutBoundV6(rules: seq<Rule>): seq<Rule> {
    if rules == [] then []
    else if BoundV6(rules[0]) then WithoutBoundV6(rules[1..])
    else [rules[0]] + WithoutBoundV6(rules[1..])
  }

  lemma {:induction false} WithoutBoundV6Has(rules: seq<Rule>)
    ensures forall r :: r in WithoutBoundV6(rules) <==> r in rules && !BoundV6(r)
    decreases |rules|
  {
    if rules != [] {
      WithoutBoundV6Has(rules[1..]);
      assert rules == [rules[0]] + rules[1..];
    }
  }

  /** Every rule the check asks for, and the absence it asks for, is untouched. */
  ghost predicate SameForCheck(a: seq<Rule>, b: seq<Rule>) {
    && (forall family, priority: nat, oif, to, table | family == V4 || priority >= MANAGEMENT_START ::
          HasRule(a, family, priority, oif, to, table) <==> HasRule(b, family, priority, oif, to, table))
    && (forall family, priority: nat | family == V4 || priority >= MANAGEMENT_START ::
          HasAny(a, family, priority) <==> HasAny(b, family, priority))
  }

  lemma {:induction false} BoundV6IsUnchecked(rules: seq<Rule>)
    ensures SameForCheck(WithoutBoundV6(rules), rules)
  {
    hide WithoutBoundV6;
    WithoutBoundV6Has(rules);
  }

  /** The check gives the same answer when every IPv6 rule of a bound interface is taken away. */
  lemma {:induction false} CheckIgnoresBoundV6(p: Policy, s: Snapshot, rules: seq<Rule>)
    requires ValidPolicy(p)
    ensures Accepts(p, s, WithoutBoundV6(rules)) <==> Accepts(p, s, rules)
  {
    hide DefaultTable6, WithoutBoundV6, HasRule, HasAny;
    BoundV6IsUnchecked(rules);
    assert |LanBlocks(p.lan)| == |p.lan|;
  }

  /** So an accepted kernel may have no rule for a forwarded IPv6 packet that the policy sends to the Wi-Fi table. */
  lemma {:induction false} AcceptedWithoutBoundV6(p: Policy, s: Snapshot, packet: Packet)
    requires ValidPolicy(p) && ValidSnapshot(s) && s.wifi.v6Table.Some?
    requires packet.family == V6 && packet.oif == Some(s.wifi.name) && !packet.local
    ensures Accepts(p, s, WithoutBoundV6(Compiled(p, s)))
    ensures Meaning(p, s, packet) == s.wifi.v6Table
    ensures Lookup(WithoutBoundV6(Compiled(p, s)), packet) == None
  {
    hide Accepts, Compiled;
    assert Accepts(p, s, Compiled(p, s)) by {
      assert [] + Compiled(p, s) == Compiled(p, s);
      CompiledIsAccepted([], p, s);
    }
    CheckIgnoresBoundV6(p, s, Compiled(p, s));
    WithoutBoundV6Has(Compiled(p, s));
    ForwardedV6IsBound(p, s, packet);
    LookupFinds(WithoutBoundV6(Compiled(p, s)), packet);
  }

  /** Of the compiled rules only the bound ones match a forwarded IPv6 packet. */
  lemma {:induction false} ForwardedV6IsBound(p: Policy, s: Snapshot, packet: Packet)
    requires ValidPolicy(p) && packet.family == V6 && !packet.local
    ensures forall r :: r in Compiled(p, s) && Matches(r, packet) ==> BoundV6(r)
  {
    hide ManagementRules, LanRules, LanBlocks, TargetRules;
    LocalRules(p, s);
  }

  // --------------------------------------------- what acceptance implies

  /** A rule in the slot of `r` that looks the table of `r` up, on its interface and for its destination. */
  ghost predicate Filled(rules: seq<Rule>, r: Rule) {
    exists q :: q in rules && q.family == r.family && q.priority == r.priority && q.table == r.table
                && (r.oif.Some? ==> q.oif == r.oif) && (r.to.Some? ==> q.to == r.to)
  }

  ghost predicate AllFilled(rules: seq<Rule>, wanted: seq<Rule>) {
    forall r :: r in wanted && !BoundV6(r) ==> Filled(rules, r)
  }

  lemma {:induction false} AllFilledAppend(rules: seq<Rule>, xs: seq<Rule>, ys: seq<Rule>)
    ensures AllFilled(rules, xs + ys) <==> AllFilled(rules, xs) && AllFilled(rules, ys)
  {
    hide Filled;
    assert forall r :: r in xs + ys <==> r in xs || r in ys;
  }

  lemma BoundFilled(rules: seq<Rule>, n: Network, priority: nat)
    requires BOUND_START <= priority < BOUND_START + 2
    ensures AllFilled(rules, BoundRules(n, priority)) <==> HasRule(rules, V4, priority, Some(n.name), None, n.v4Table)
  {
    var four := Rule(V4, priority, Some(n.name), None, false, n.v4Table);
    assert four == BoundRules(n, priority)[0];
    assert Filled(rules, four) <==> HasRule(rules, V4, priority, Some(n.name), None, n.v4Table);
    assert forall r :: r in BoundRules(n, priority) ==> r == four || BoundV6(r);
  }

  lemma {:induction false} ManagementFilled(rules: seq<Rule>, routes: seq<Route>)
    ensures AllFilled(rules, ManagementRules(routes))
       <==> forall i :: 0 <= i < |routes| ==>
              HasRule(rules, routes[i].family, MANAGEMENT_START + i, None, Some(routes[i].block), routes[i].table)
  {
    var wanted := ManagementRules(routes);
    forall i | 0 <= i < |routes|
      ensures Filled(rules, wanted[i])
         <==> HasRule(rules, routes[i].family, MANAGEMENT_START + i, None, Some(routes[i].block), routes[i].table)
      ensures wanted[i] in wanted && !BoundV6(wanted[i])
    {}
  }

  lemma {:induction false} LanFilled(rules: seq<Rule>, family: Family, blocks: seq<Block>, table: string)
    ensures AllFilled(rules, LanRules(family, blocks, table))
       <==> forall i :: 0 <= i < |blocks| ==> HasRule(rules, family, LAN_START + i, None, Some(blocks[i]), table)
  {
    var wanted := LanRules(family, blocks, table);
    forall i | 0 <= i < |blocks|
      ensures Filled(rules, wanted[i]) <==> HasRule(rules, family, LAN_START + i, None, Some(blocks[i]), table)
      ensures wanted[i] in wanted && !BoundV6(wanted[i])
    {}
  }

  lemma TargetFilled(rules: seq<Rule>, n: Network)
    ensures AllFilled(rules, TargetRules(Some(n)))
       <==> HasRule(rules, V4, DEFAULT_RULE, None, None, n.v4Table)
            && HasRule(rules, V6, DEFAULT_RULE, None, None, DefaultTable6(n))
  {
    var four, six := DefaultRule(V4, n.v4Table), DefaultRule(V6, DefaultTable6(n));
    assert TargetRules(Some(n)) == [four, six];
    assert Filled(rules, four) <==> HasRule(rules, V4, DEFAULT_RULE, None, None, n.v4Table);
    assert Filled(rules, six) <==> HasRule(rules, V6, DEFAULT_RULE, None, None, DefaultTable6(n));
  }

  /**
   * What the check says of any kernel: it accepts if and only if the slot of every
   * compiled rule, the IPv6 rules of the bound interfaces aside, holds a rule with its
   * table, interface and destination, and a policy without a target finds no default
   * rule.
   */
  lemma {:induction false} AcceptsIff(p: Policy, s: Snapshot, rules: seq<Rule>)
    requires ValidPolicy(p)
    ensures Accepts(p, s, rules)
       <==> AllFilled(rules, Compiled(p, s))
            && (TargetOf(p, s).None? ==> !HasAny(rules, V4, DEFAULT_RULE) && !HasAny(rules, V6, DEFAULT_RULE))
  {
    hide BoundRules, ManagementRules, LanRules, TargetRules, HasRule, HasAny, AllFilled, DefaultTable6;
    var wifi, carrier := BoundRules(s.wifi, BOUND_START), BoundRules(s.carrier, BOUND_START + 1);
    var management := ManagementRules(s.management);
    var lan4 := LanRules(V4, LanBlocks(p.lan), s.wifi.v4Table);
    var lan6 := if s.wifi.v6Table.Some? then LanRules(V6, s.wifi.v6Local, s.wifi.v6Table.value) else [];
    var target := TargetRules(TargetOf(p, s));
    assert Compiled(p, s) == wifi + carrier + management + lan4 + lan6 + target;
    AllFilledAppend(rules, wifi + carrier + management + lan4 + lan6, target);
    AllFilledAppend(rules, wifi + carrier + management + lan4, lan6);
    AllFilledAppend(rules, wifi + carrier + management, lan4);
    AllFilledAppend(rules, wifi + carrier, management);
    AllFilledAppend(rules, wifi, carrier);
    BoundFilled(rules, s.wifi, BOUND_START);
    BoundFilled(rules, s.carrier, BOUND_START + 1);
    ManagementFilled(rules, s.management);
    LanFilled(rules, V4, LanBlocks(p.lan), s.wifi.v4Table);
    NothingFilled(rules);
    if s.wifi.v6Table.Some? {
      LanFilled(rules, V6, s.wifi.v6Local, s.wifi.v6Table.value);
    }
    if TargetOf(p, s).Some? {
      TargetFilled(rules, TargetOf(p, s).value);
    } else {
      NoTargetRules(p, s);
    }
    assert |LanBlocks(p.lan)| == |p.lan|;
  }

  lemma NothingFilled(rules: seq<Rule>)
    ensures AllFilled(rules, [])
  {}

  /** A compiled rule whose slot is empty, or holds only other tables or destinations, makes the check fail. */
  lemma {:induction false} MissingRuleIsNoticed(p: Policy, s: Snapshot, rules: seq<Rule>, r: Rule)
    requires ValidPolicy(p) && r in Compiled(p, s) && !BoundV6(r)
    requires forall q :: q in rules && q.family == r.family && q.priority == r.priority ==>
               q.table != r.table || (r.to.Some? && q.to != r.to) || (r.oif.Some? && q.oif != r.oif)
    ensures !Accepts(p, s, rules)
  {
    hide Accepts, Compiled;
    AcceptsIff(p, s, rules);
    assert !Filled(rules, r);
  }
}
