/**
 * What each operation of the routing manager leaves in memory and on disk, and
 * which answer it gives, when something on its way fails.
 */
module RoutingOutcomes {
  import opened Common
  import opened RoutingRules
  import opened RoutingMeaning
  import opened RoutingManager

  /** Memory and disk hold this state. */
  predicate Holds(m: Machine, s: RoutingState) {
    m.state == s && m.disk == s
  }

  /** Applying `p` gets as far as its script. */
  predicate ReachesScript(m: Machine, p: Policy, env: Env) {
    p.generation > m.state.generation && env.inspected.Some? && env.prerequisites && env.exit.Some?
  }

  /** The script ran through, what it left passed every check, and the state was written. */
  predicate GoesThrough(m: Machine, p: Policy, env: Env)
    requires ValidPolicy(p) && env.inspected.Some?
  {
    var commands := ApplyCommands(p, env.inspected.value);
    && Completes(commands, env.ran) && env.saved && env.reconnected && env.inspectedAfter.Some? && env.exitAfter.Some?
    && Accepts(p, env.inspectedAfter.value, ExecAll(m.kernel, commands).rules)
    && (p.target == WifiTarget || p.target == CarrierTarget ==> env.exitAfter == env.exit)
  }

  /** The script that the catch runs: the earlier policy again, or the removal; absent when nothing can be read. */
  function RollbackScript(m: Machine, env: Env): Option<seq<Command>>
    requires ValidState(m.state) && env.inspected.Some?
  {
    if !m.state.active then Some(RemoveCommands(env.inspected.value.defaultNetId))
    else if env.inspectedForRollback.Some? then
      Some(ApplyCommands(m.state.policy.value, env.inspectedForRollback.value))
    else None
  }

  lemma {:induction false} ScriptCompletes(k: Kernel, commands: seq<Command>, ran: Option<nat>)
    ensures RunScript(k, commands, ran).1 <==> Completes(commands, ran)
    ensures Completes(commands, ran) ==> RunScript(k, commands, ran).0 == ExecAll(k, commands)
  {}

  /**
   * A new policy that gets to its script: installed and saved when everything goes
   * through, rolled back when the catch does, degraded under the new generation when it
   * does not, and with the old state only if even that cannot be written.
   */
  lemma {:induction false} ApplyOutcome(m: Machine, p: Policy, env: Env)
    requires Inv(m) && ValidPolicy(p) && ReachesScript(m, p, env)
    ensures var (after, answer) := Apply(m, Some(p), env);
      var rollback, found := RollbackScript(m, env), env.inspected.value.defaultNetId;
      if GoesThrough(m, p, env) then
        && answer == Succeeded && after.reports == m.reports + [Report(p.generation, Some(p))]
        && Holds(after, RoutingState(true, p.generation, Some(p), if m.state.active then m.state.baseline else found,
                                     Active))
      else
        && after.reports == m.reports
        && if rollback.Some? && Completes(rollback.value, env.rollbackRan) && env.rollbackReconnected then
             answer == RolledBack && Holds(after, m.state)
           else if env.finallySaved then
             && answer == RollbackFailed
             && Holds(after, RoutingState(true, p.generation, if m.state.active then m.state.policy else Some(p),
                                          if m.state.baseline.Some? then m.state.baseline else found, Degraded))
           else answer == Threw && Holds(after, m.state)
  {
    hide ApplyCommands, RemoveCommands, Accepts, AtMostOne, ExecAll, RunScript;
    var k, commands := m.kernel, ApplyCommands(p, env.inspected.value);
    ScriptCompletes(k, commands, env.ran);
    var left := RunScript(k, commands, env.ran).0;
    ScriptCompletes(left, RollbackScript(m, env).GetOr([]), env.rollbackRan);
  }

  /** One that does not get there changes nothing. */
  lemma ApplyStops(m: Machine, p: Policy, env: Env)
    requires Inv(m) && ValidPolicy(p) && p.generation > m.state.generation && !ReachesScript(m, p, env)
    ensures Apply(m, Some(p), env) == (m, Failed)
  {}

  /** Disabling that fails keeps the state; the default network it resets is the present one, else the baseline. */
  lemma {:induction false} DisableOutcome(m: Machine, generation: nat, current: Option<nat>, env: Env)
    requires Inv(m) && generation > m.state.generation
    ensures var (after, answer) := Disable(m, generation, current, env);
      var commands := RemoveCommands(match current case Some(net) => Some(net) case None => m.state.baseline);
      && after.kernel == RunScript(m.kernel, commands, env.ran).0
      && if Completes(commands, env.ran) && env.reconnected && env.saved then
           && answer == Succeeded && Holds(after, RoutingState(false, generation, None, None, Disabled))
           && after.reports == m.reports + [Report(generation, None)]
         else answer == Failed && Holds(after, m.state) && after.reports == m.reports
  {
    hide RemoveCommands, AtMostOne, RunScript;
    ScriptCompletes(m.kernel, RemoveCommands(if current.Some? then current else m.state.baseline), env.ran);
  }

  /** A check that leaves ACTIVE behind: rules accepted, or rewritten and accepted, and both probes as wanted. */
  predicate Healthy(m: Machine, env: Env)
    requires ValidState(m.state) && m.state.active
  {
    && env.inspected.Some? && env.prerequisites
    && var p, s := m.state.policy.value, env.inspected.value;
    && (Accepts(p, s, m.kernel.rules)
        || (Completes(ApplyCommands(p, s), env.ran) && env.reconnected && env.inspectedAfter.Some?
            && Accepts(p, env.inspectedAfter.value, ExecAll(m.kernel, ApplyCommands(p, s)).rules)))
    && env.exit.Some? && env.exitAfter.Some? && (p.target != DefaultTarget ==> env.exit == env.exitAfter)
    && env.activeSaved
  }

  /** The status while a check runs: RECOVERING on a network change, and on the way out of DEGRADED. */
  function Meanwhile(m: Machine, networkChange: bool): RoutingState {
    if networkChange || m.state.status == Degraded then m.state.(status := Recovering) else m.state
  }

  /** The drift check ends ACTIVE exactly when all is healthy, else DEGRADED, unless that cannot be written. */
  lemma {:induction false} DriftOutcome(m: Machine, networkChange: bool, env: Env)
    requires Inv(m) && m.state.active
    ensures var (after, answer) := CheckDrift(m, networkChange, env);
      if (networkChange || m.state.status == Degraded) && !env.saved then after == m && answer == Threw
      else
        && after.reports == m.reports
        && if Healthy(m, env) then answer == Succeeded && Holds(after, m.state.(status := Active))
           else if env.finallySaved then answer == Failed && Holds(after, m.state.(status := Degraded))
           else answer == Threw && Holds(after, Meanwhile(m, networkChange))
  {
    hide ApplyCommands, Accepts, AtMostOne, ExecAll, RunScript;
    if env.inspected.Some? {
      ScriptCompletes(m.kernel, ApplyCommands(m.state.policy.value, env.inspected.value), env.ran);
    }
  }

  /** The restart restores under RECOVERING; it ends ACTIVE or, as far as it can be written, DEGRADED. */
  lemma {:induction false} RestoreOutcome(m: Machine, env: Env)
    requires Inv(m) && m.state.active
    ensures var (after, answer) := Restore(m, env);
      if !env.saved then after == m && answer == Threw
      else
        && after.reports == m.reports
        && if answer == Succeeded then Holds(after, m.state.(status := Active))
           else answer == Threw && Holds(after, m.state.(status := if env.finallySaved then Degraded else Recovering))
  {
    hide ApplyCommands, Accepts, AtMostOne, ExecAll, RunScript;
  }

  /** While routing is off neither does anything. */
  lemma NothingToRepair(m: Machine, networkChange: bool, env: Env)
    requires ValidState(m.state) && !m.state.active
    ensures CheckDrift(m, networkChange, env) == (m, Succeeded) && Restore(m, env) == (m, Succeeded)
  {}

  // ------------------------------------------------- the default network

  predicate LeavesNet(commands: seq<Command>) {
    forall c :: c in commands ==> !c.SetDefaultNet?
  }

  lemma {:induction false} NetStays(k: Kernel, commands: seq<Command>)
    requires LeavesNet(commands)
    ensures ExecAll(k, commands).defaultNet == k.defaultNet
    decreases |commands|
  {
    if commands != [] {
      assert commands[|commands| - 1] in commands;
      NetStays(k, commands[..|commands| - 1]);
    }
  }

  lemma {:induction false} NetIsSet(k: Kernel, commands: seq<Command>, net: Option<nat>)
    ensures ExecAll(k, commands + [SetDefaultNet(net)]).defaultNet == net
  {
    assert (commands + [SetDefaultNet(net)])[..|commands|] == commands;
  }

  /** A completed policy with a target puts the default network back; without one it does not touch it. */
  lemma {:induction false} AppliedNet(k: Kernel, p: Policy, s: Snapshot)
    requires ValidPolicy(p)
    ensures ExecAll(k, ApplyCommands(p, s)).defaultNet
         == if p.target != DefaultTarget && s.defaultNetId.Some? then s.defaultNetId else k.defaultNet
  {
    hide ExecAll, BeforeTarget, ManagedPriorities;
    var commands := ApplyCommands(p, s);
    if p.target != DefaultTarget && s.defaultNetId.Some? {
      var n := |commands| - 1;
      assert commands[n] == SetDefaultNet(s.defaultNetId) && commands == commands[..n] + [commands[n]];
      NetIsSet(k, commands[..n], s.defaultNetId);
    } else {
      NetStays(k, commands);
    }
  }

  /** A completed removal resets it to what it was asked to, network 0 and none standing for none. */
  lemma {:induction false} RemovedNet(k: Kernel, net: Option<nat>)
    ensures ExecAll(k, RemoveCommands(net)).defaultNet == if net.Some? && net.value != 0 then net else None
  {
    hide ExecAll, ClearCommands;
    NetIsSet(k, ClearCommands(), if net == Some(0) then None else net);
  }
}
