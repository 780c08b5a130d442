/**
 * The routing manager (mobile/src/network-routing.ts:1010-1400): serialised
 * operations that apply, disable, restore and repair a policy while scripts,
 * probes and disk writes may fail at any point.
 */
module RoutingManager {
  import opened Common
  import opened RoutingRules
  import opened RoutingMeaning

  datatype Status = Active | Disabled | Recovering | Degraded

  datatype RoutingState = RoutingState(active: bool, generation: nat, policy: Option<Policy>, baseline: Option<nat>,
                                       status: Status)

  /** A SUCCESS result; `policy` is absent when routing was disabled. */
  datatype Report = Report(generation: nat, policy: Option<Policy>)

  /** The manager in memory and on disk, the kernel, and the SUCCESS results given so far. */
  datatype Machine = Machine(state: RoutingState, disk: RoutingState, kernel: Kernel, reports: seq<Report>)

  datatype Answer = Succeeded | Rejected | Failed | RolledBack | RollbackFailed | Threw

  /** What the outside answers during one operation; a script stops after `Some(n)` commands, or completes. */
  datatype Env = Env(
    inspected: Option<Snapshot>,
    prerequisites: bool,
    exit: Option<string>,
    ran: Option<nat>,
    reconnected: bool,
    inspectedAfter: Option<Snapshot>,
    exitAfter: Option<string>,
    saved: bool,
    inspectedForRollback: Option<Snapshot>,
    rollbackRan: Option<nat>,
    rollbackReconnected: bool,
    activeSaved: bool,
    finallySaved: bool)

  predicate PlausibleEnv(env: Env) {
    && (env.inspected.Some? ==> ValidSnapshot(env.inspected.value))
    && (env.inspectedAfter.Some? ==> ValidSnapshot(env.inspectedAfter.value))
    && (env.inspectedForRollback.Some? ==> ValidSnapshot(env.inspectedForRollback.value))
  }

  predicate Completes(commands: seq<Command>, ran: Option<nat>) {
    ran.None? || ran.value >= |commands|
  }

  /** A script under `set -e` that may stop early; whether it completed. */
  function RunScript(k: Kernel, commands: seq<Command>, ran: Option<nat>): (Kernel, bool) {
    if Completes(commands, ran) then (ExecAll(k, commands), true)
    else (ExecAll(k, commands[..ran.value]), false)
  }

  function Save(m: Machine, state: RoutingState): Machine {
    m.(state := state, disk := state)
  }

  predicate Stale(s: RoutingState, p: Policy) {
    p.generation < s.generation || (p.generation == s.generation && (!s.active || s.policy != Some(p)))
  }

  /** Reconnecting, the rule check, the probes and the exit identity, on the rules that now stand. */
  predicate Verified(p: Policy, rules: seq<Rule>, env: Env)
    requires ValidPolicy(p)
  {
    && env.reconnected
    && env.inspectedAfter.Some?
    && Accepts(p, env.inspectedAfter.value, rules)
    && env.exitAfter.Some?
    && (p.target != DefaultTarget ==> env.exitAfter == env.exit)
  }

  predicate ValidState(s: RoutingState) {
    (s.policy.Some? ==> ValidPolicy(s.policy.value)) && (s.active ==> s.policy.Some?)
  }

  function Apply(m: Machine, parsed: Option<Policy>, env: Env): (Machine, Answer)
    requires ValidState(m.state) && (parsed.Some? ==> ValidPolicy(parsed.value))
  {
    if parsed.None? || Stale(m.state, parsed.value) then (m, Rejected)
    else
      var p := parsed.value;
      if p.generation == m.state.generation then (m.(reports := m.reports + [Report(p.generation, Some(p))]), Succeeded)
      else if env.inspected.None? || !env.prerequisites || env.exit.None? then (m, Failed)
      else
        var (kernel, completed) := RunScript(m.kernel, ApplyCommands(p, env.inspected.value), env.ran);
        if completed && Verified(p, kernel.rules, env) && env.saved then
          var baseline := if m.state.active then m.state.baseline else env.inspected.value.defaultNetId;
          (Save(m, RoutingState(true, p.generation, Some(p), baseline, Active)).(
             kernel := kernel, reports := m.reports + [Report(p.generation, Some(p))]),
           Succeeded)
        else Rollback(m.(kernel := kernel), p, env.inspected.value.defaultNetId, env)
  }

  /** The catch of `applyExclusive`; `m` still holds the previous state. */
  function Rollback(m: Machine, p: Policy, defaultNetId: Option<nat>, env: Env): (Machine, Answer)
    requires ValidState(m.state)
  {
    var inspectionFailed := m.state.active && env.inspectedForRollback.None?;
    var commands := if inspectionFailed then []
                    else if m.state.active then ApplyCommands(m.state.policy.value, env.inspectedForRollback.value)
                    else RemoveCommands(defaultNetId);
    var (kernel, completed) := RunScript(m.kernel, commands, env.rollbackRan);
    if !inspectionFailed && completed && env.rollbackReconnected then (m.(kernel := kernel), RolledBack)
    else if !env.finallySaved then (m.(kernel := kernel), Threw)
    else
      (Save(m, RoutingState(true, p.generation, if m.state.active then m.state.policy else Some(p),
                            if m.state.baseline.Some? then m.state.baseline
                              else defaultNetId, Degraded)).(kernel := kernel),
       RollbackFailed)
  }

  /** `current` is Android's default network when it could be read. */
  function Disable(m: Machine, generation: int, current: Option<nat>, env: Env): (Machine, Answer) {
    if generation < 1 || generation <= m.state.generation then (m, Rejected)
    else
      var net := if current.Some? then current else m.state.baseline;
      var (kernel, completed) := RunScript(m.kernel, RemoveCommands(net), env.ran);
      if completed && env.reconnected && env.saved then
        (Save(m, RoutingState(false, generation, None, None, Disabled)).(
           kernel := kernel, reports := m.reports + [Report(generation, None)]),
         Succeeded)
      else (m.(kernel := kernel), Failed)
  }

  function WithStatus(s: RoutingState, status: Status): RoutingState {
    s.(status := status)
  }

  /** Saving a runtime status; when the write fails nothing changes. */
  function SaveStatus(m: Machine, status: Status, saved: bool): Machine {
    if saved then Save(m, WithStatus(m.state, status)) else m
  }

  /** `env.saved` is about the RECOVERING status, `env.activeSaved` about ACTIVE, `env.finallySaved` about DEGRADED. */
  function Restore(m: Machine, env: Env): (Machine, Answer)
    requires ValidState(m.state)
  {
    if !m.state.active then (m, Succeeded)
    else if !env.saved then (m, Threw)
    else
      var p := m.state.policy.value;
      var started := SaveStatus(m, Recovering, true);
      if env.inspected.None? || !env.prerequisites then (SaveStatus(started, Degraded, env.finallySaved), Threw)
      else
        var (kernel, completed) := RunScript(m.kernel, ApplyCommands(p, env.inspected.value), env.ran);
        var ran := started.(kernel := kernel);
        if completed && env.inspectedAfter.Some? && Accepts(p, env.inspectedAfter.value, kernel.rules)
          && env.activeSaved
        then (SaveStatus(ran, Active, true), Succeeded)
        else (SaveStatus(ran, Degraded, env.finallySaved), Threw)
  }

  /** A drift check rewrites the rules only when the check on the inspected snapshot fails. */
  function CheckDrift(m: Machine, networkChange: bool, env: Env): (Machine, Answer)
    requires ValidState(m.state)
  {
    if !m.state.active then (m, Succeeded)
    else if (networkChange || m.state.status == Degraded) && !env.saved then (m, Threw)
    else
      var p := m.state.policy.value;
      var started := if networkChange || m.state.status == Degraded then SaveStatus(m, Recovering, true) else m;
      if env.inspected.None? || !env.prerequisites then Unhealthy(started, env)
      else if Accepts(p, env.inspected.value, m.kernel.rules) then Probed(started, p, env)
      else
        var (kernel, completed) := RunScript(m.kernel, ApplyCommands(p, env.inspected.value), env.ran);
        var ran := started.(kernel := kernel);
        if completed && env.reconnected && env.inspectedAfter.Some?
          && Accepts(p, env.inspectedAfter.value, kernel.rules)
        then Probed(ran, p, env)
        else Unhealthy(ran, env)
  }

  /** Both probes answer, as the target wants, and the healthy status is written. */
  predicate ProbesPass(p: Policy, env: Env) {
    && env.exit.Some? && env.exitAfter.Some?
    && (p.target != DefaultTarget ==> env.exit == env.exitAfter)
    && env.activeSaved
  }

  function Probed(m: Machine, p: Policy, env: Env): (Machine, Answer) {
    if ProbesPass(p, env) then (SaveStatus(m, Active, true), Succeeded) else Unhealthy(m, env)
  }

  /** The catch of a drift check: it throws when even the degraded status cannot be written. */
  function Unhealthy(m: Machine, env: Env): (Machine, Answer) {
    (SaveStatus(m, Degraded, env.finallySaved), if env.finallySaved then Failed else Threw)
  }

  // -------------------------------------------------------------- any run

  /** The last three: crashes in the middle of a script, with the restart, and a restart at rest. */
  datatype Operation =
    | ApplyOp(parsed: Option<Policy>, env: Env)
    | DisableOp(generation: int, current: Option<nat>, env: Env)
    | RestoreOp(env: Env)
    | DriftOp(networkChange: bool, env: Env)
    | CrashInApply(p: Policy, s: Snapshot, n: nat)
    | CrashInRemove(net: Option<nat>, n: nat)
    | Restart

  predicate Plausible(op: Operation) {
    match op
    case ApplyOp(parsed, env) => PlausibleEnv(env) && (parsed.Some? ==> ValidPolicy(parsed.value))
    case DisableOp(_, _, env) => PlausibleEnv(env)
    case RestoreOp(env) => PlausibleEnv(env)
    case DriftOp(_, env) => PlausibleEnv(env)
    case CrashInApply(p, s, _) => ValidPolicy(p) && ValidSnapshot(s)
    case CrashInRemove(_, _) => true
    case Restart => true
  }

  function Do(m: Machine, op: Operation): (Machine, Answer)
    requires ValidState(m.state) && Plausible(op)
  {
    match op
    case ApplyOp(parsed, env) => Apply(m, parsed, env)
    case DisableOp(generation, current, env) => Disable(m, generation, current, env)
    case RestoreOp(env) => Restore(m, env)
    case DriftOp(networkChange, env) => CheckDrift(m, networkChange, env)
    case CrashInApply(p, s, n) => (m.(kernel := RunScript(m.kernel, ApplyCommands(p, s), Some(n)).0, state := m.disk),
                                   Threw)
    case CrashInRemove(net, n) => (m.(kernel := RunScript(m.kernel, RemoveCommands(net), Some(n)).0, state := m.disk),
                                   Threw)
    case Restart => (m.(state := m.disk), Succeeded)
  }

  // ----------------------------------------------------------- invariants

  /** Reports of a generation agree with each other, and those of the current one with the state. */
  ghost predicate ReportsAgree(reports: seq<Report>, s: RoutingState) {
    && (forall q, r :: q in reports && r in reports && q.generation == r.generation ==> q.policy == r.policy)
    && (forall r :: r in reports ==> r.generation <= s.generation)
    && (forall r :: r in reports && r.generation == s.generation ==> r.policy == if s.active then s.policy else None)
  }

  ghost predicate Inv(m: Machine) {
    && ValidState(m.state)
    && m.disk == m.state
    && AtMostOne(m.kernel.rules)
    && ReportsAgree(m.reports, m.state)
  }

  /** What every operation keeps besides. */
  ghost predicate Keeps(m: Machine, after: Machine) {
    && Inv(after)
    && m.state.generation <= after.state.generation
    && Unmanaged(after.kernel.rules) == Unmanaged(m.kernel.rules)
  }

  lemma {:induction false} ScriptKeepsSlots(k: Kernel, p: Policy, s: Snapshot, ran: Option<nat>)
    requires ValidPolicy(p) && ValidSnapshot(s) && AtMostOne(k.rules)
    ensures var after := RunScript(k, ApplyCommands(p, s), ran).0;
            AtMostOne(after.rules) && Unmanaged(after.rules) == Unmanaged(k.rules)
    ensures var (after, completed) := RunScript(k, ApplyCommands(p, s), ran);
            completed ==> after.rules == Unmanaged(k.rules) + Compiled(p, s)
  {
    hide ApplyCommands, AtMostOne, Compiled, Unmanaged;
    var commands := ApplyCommands(p, s);
    if ran.Some? && ran.value < |commands| {
      StoppedScriptsStayClearable(k, p, s, ran.value);
    } else {
      assert commands[..|commands|] == commands;
      StoppedScriptsStayClearable(k, p, s, |commands|);
      ApplyInstallsCompiled(k, p, s);
    }
  }

  lemma {:induction false} RemovalKeepsSlots(k: Kernel, net: Option<nat>, ran: Option<nat>)
    requires AtMostOne(k.rules)
    ensures var after := RunScript(k, RemoveCommands(net), ran).0;
            AtMostOne(after.rules) && Unmanaged(after.rules) == Unmanaged(k.rules)
    ensures var (after, completed) := RunScript(k, RemoveCommands(net), ran);
            completed ==> after.rules == Unmanaged(k.rules)
  {
    hide ClearCommands, AtMostOne, Unmanaged, OnlyDels, Touches;
    var clear := ClearCommands();
    var commands := RemoveCommands(net);
    var n := if ran.Some? && ran.value < |commands| then ran.value else |commands|;
    assert commands[..n] == if n <= |clear| then clear[..n] else commands;
    RemovalPrefix(k, net, n);
  }

  lemma {:induction false} RemovalPrefix(k: Kernel, net: Option<nat>, n: nat)
    requires AtMostOne(k.rules) && n <= |RemoveCommands(net)|
    ensures var after := ExecAll(k, RemoveCommands(net)[..n]);
            AtMostOne(after.rules) && Unmanaged(after.rules) == Unmanaged(k.rules)
            && (n == |RemoveCommands(net)| ==> after.rules == Unmanaged(k.rules))
  {
    hide ClearCommands, AtMostOne, Unmanaged;
    var clear := ClearCommands();
    var m := if n <= |clear| then n else |clear|;
    ClearOnlyDels();
    assert RemoveCommands(net)[..m] == clear[..m];
    assert forall c :: c in clear[..m] ==> c in clear;
    DelsEmptySlots(k, clear[..m]);
    ForeignRulesStay(k, clear[..m]);
    if n > |clear| {
      var last := RemoveCommands(net)[|clear|];
      assert clear[..|clear|] == clear;
      assert RemoveCommands(net)[..n] == clear + [last];
      ExecAppend(k, clear, [last]);
      assert [last][..0] == [];
      ClearingLeavesForeignRules(k);
    }
  }

  // ------------------------------------------------------------- theorems

  lemma {:induction false} ApplyKeeps(m: Machine, parsed: Option<Policy>, env: Env)
    requires Inv(m) && PlausibleEnv(env) && (parsed.Some? ==> ValidPolicy(parsed.value))
    ensures Keeps(m, Apply(m, parsed, env).0)
  {
    hide AtMostOne, Unmanaged, ApplyCommands, RemoveCommands, RunScript, Verified, Compiled, ValidPolicy;
    if parsed.Some? && !Stale(m.state, parsed.value) && parsed.value.generation != m.state.generation
      && env.inspected.Some? {
      var p := parsed.value;
      ScriptKeepsSlots(m.kernel, p, env.inspected.value, env.ran);
      var kernel := RunScript(m.kernel, ApplyCommands(p, env.inspected.value), env.ran).0;
      RollbackKeeps(m.(kernel := kernel), p, env.inspected.value.defaultNetId, env);
    }
  }

  lemma {:induction false} RollbackKeeps(m: Machine, p: Policy, net: Option<nat>, env: Env)
    requires Inv(m) && PlausibleEnv(env) && ValidPolicy(p) && p.generation > m.state.generation
    ensures Keeps(m, Rollback(m, p, net, env).0)
  {
    hide AtMostOne, Unmanaged, ApplyCommands, RemoveCommands, RunScript, Compiled, ValidPolicy;
    RemovalKeepsSlots(m.kernel, net, env.rollbackRan);
    if m.state.active && env.inspectedForRollback.Some? {
      ScriptKeepsSlots(m.kernel, m.state.policy.value, env.inspectedForRollback.value, env.rollbackRan);
    }
    NoScript(m.kernel, env.rollbackRan);
  }

  lemma NoScript(k: Kernel, ran: Option<nat>)
    ensures RunScript(k, [], ran).0 == k
  {}

  lemma {:induction false} DisableKeeps(m: Machine, generation: int, current: Option<nat>, env: Env)
    requires Inv(m)
    ensures Keeps(m, Disable(m, generation, current, env).0)
  {
    hide AtMostOne, Unmanaged, RemoveCommands, RunScript;
    RemovalKeepsSlots(m.kernel, if current.Some? then current else m.state.baseline, env.ran);
  }

  lemma {:induction false} StatusKeeps(m: Machine, status: Status, saved: bool)
    requires Inv(m)
    ensures Keeps(m, SaveStatus(m, status, saved))
  {
    hide AtMostOne, Unmanaged, ValidPolicy;
  }

  /** The script of the stored policy, and the status that is saved after it. */
  lemma {:induction false} ScriptThenStatusKeeps(m: Machine, s: Snapshot, ran: Option<nat>, status: Status, saved: bool)
    requires Inv(m) && m.state.active && ValidSnapshot(s)
    ensures var after := m.(kernel := RunScript(m.kernel, ApplyCommands(m.state.policy.value, s), ran).0);
            Inv(after) && Keeps(m, SaveStatus(after, status, saved))
  {
    hide AtMostOne, Unmanaged, ApplyCommands, RunScript, Compiled, ValidPolicy;
    ScriptKeepsSlots(m.kernel, m.state.policy.value, s, ran);
  }

  lemma {:induction false} RestoreKeeps(m: Machine, env: Env)
    requires Inv(m) && PlausibleEnv(env)
    ensures Keeps(m, Restore(m, env).0)
  {
    hide AtMostOne, Unmanaged, ApplyCommands, RunScript, Accepts, ValidPolicy, ReportsAgree;
    if m.state.active && env.saved {
      StatusKeeps(m, Recovering, true);
      var started := SaveStatus(m, Recovering, true);
      StatusKeeps(started, Degraded, env.finallySaved);
      if env.inspected.Some? {
        ScriptThenStatusKeeps(started, env.inspected.value, env.ran, Active, true);
        ScriptThenStatusKeeps(started, env.inspected.value, env.ran, Degraded, env.finallySaved);
      }
    }
  }

  lemma {:induction false} ProbedKeeps(m: Machine, p: Policy, env: Env)
    requires Inv(m)
    ensures Keeps(m, Probed(m, p, env).0)
  {
    hide Inv, Unmanaged;
    StatusKeeps(m, Active, true);
    StatusKeeps(m, Degraded, env.finallySaved);
  }

  lemma {:induction false} DriftKeeps(m: Machine, networkChange: bool, env: Env)
    requires Inv(m) && PlausibleEnv(env)
    ensures Keeps(m, CheckDrift(m, networkChange, env).0)
  {
    hide AtMostOne, Unmanaged, ApplyCommands, RunScript, Accepts, ValidPolicy, Probed, ReportsAgree;
    if m.state.active {
      StatusKeeps(m, Recovering, true);
      var started := if networkChange || m.state.status == Degraded then SaveStatus(m, Recovering, true) else m;
      StatusKeeps(started, Degraded, env.finallySaved);
      ProbedKeeps(started, m.state.policy.value, env);
      if env.inspected.Some? {
        var kernel := RunScript(m.kernel, ApplyCommands(m.state.policy.value, env.inspected.value), env.ran).0;
        ScriptThenStatusKeeps(started, env.inspected.value, env.ran, Degraded, env.finallySaved);
        ProbedKeeps(started.(kernel := kernel), m.state.policy.value, env);
      }
    }
  }

  lemma {:induction false} DoKeeps(m: Machine, op: Operation)
    requires Inv(m) && Plausible(op)
    ensures Keeps(m, Do(m, op).0)
  {
    hide AtMostOne, Unmanaged, ApplyCommands, RemoveCommands, RunScript, Compiled, ValidPolicy, Apply, Disable,
         Restore, CheckDrift, ReportsAgree;
    match op
    case ApplyOp(parsed, env) => ApplyKeeps(m, parsed, env);
    case DisableOp(generation, current, env) => DisableKeeps(m, generation, current, env);
    case RestoreOp(env) => RestoreKeeps(m, env);
    case DriftOp(networkChange, env) => DriftKeeps(m, networkChange, env);
    case CrashInApply(p, s, n) => ScriptKeepsSlots(m.kernel, p, s, Some(n));
    case CrashInRemove(net, n) => RemovalKeepsSlots(m.kernel, net, Some(n));
    case Restart =>
  }

  /** A fresh installation on any kernel with at most one rule per managed slot. */
  function Fresh(k: Kernel): Machine {
    var state := RoutingState(false, 0, None, None, Disabled);
    Machine(state, state, k, [])
  }

  /** The runs: every machine that a sequence of operations reaches. */
  ghost predicate Reaches(m: Machine, ops: seq<Operation>, after: Machine)
    decreases |ops|
  {
    if ops == [] then m == after
    else ValidState(m.state) && Plausible(ops[0]) && Reaches(Do(m, ops[0]).0, ops[1..], after)
  }

  /** Over every run the generation never goes back and foreign rules never change. */
  lemma {:induction false} RunKeeps(m: Machine, ops: seq<Operation>, after: Machine)
    requires Inv(m) && Reaches(m, ops, after)
    ensures Keeps(m, after)
    decreases |ops|
  {
    hide Inv, Unmanaged, Do;
    if ops != [] {
      DoKeeps(m, ops[0]);
      RunKeeps(Do(m, ops[0]).0, ops[1..], after);
    }
  }

  /** No generation is reported successful for two different policies, or both applied and disabled. */
  lemma {:induction false} OneSuccessPerGeneration(k: Kernel, ops: seq<Operation>, after: Machine)
    requires AtMostOne(k.rules) && Reaches(Fresh(k), ops, after)
    ensures forall i, j ::
              0 <= i < |after.reports| && 0 <= j < |after.reports|
              && after.reports[i].generation == after.reports[j].generation
              ==> after.reports[i].policy == after.reports[j].policy
    ensures Unmanaged(after.kernel.rules) == Unmanaged(k.rules) && AtMostOne(after.kernel.rules)
  {
    hide AtMostOne, Unmanaged, Reaches;
    RunKeeps(Fresh(k), ops, after);
  }

  /** A failed apply that rolled back leaves the state as it was and the rules of the earlier policy, or none. */
  lemma {:induction false} RolledBackRestores(m: Machine, parsed: Option<Policy>, env: Env)
    requires Inv(m) && PlausibleEnv(env) && (parsed.Some? ==> ValidPolicy(parsed.value))
    requires Apply(m, parsed, env).1 == RolledBack
    ensures var after := Apply(m, parsed, env).0;
            && after.state == m.state && after.disk == m.disk
            && after.kernel.rules == Unmanaged(m.kernel.rules)
               + (if m.state.active then Compiled(m.state.policy.value, env.inspectedForRollback.value) else [])
  {
    hide AtMostOne, ApplyCommands, RemoveCommands, RunScript, Verified, Compiled, ValidPolicy, ReportsAgree;
    var p := parsed.value;
    ScriptKeepsSlots(m.kernel, p, env.inspected.value, env.ran);
    var kernel := RunScript(m.kernel, ApplyCommands(p, env.inspected.value), env.ran).0;
    RemovalKeepsSlots(kernel, env.inspected.value.defaultNetId, env.rollbackRan);
    if m.state.active {
      ScriptKeepsSlots(kernel, m.state.policy.value, env.inspectedForRollback.value, env.rollbackRan);
    }
  }

  /**
   * A policy that was not active before and is reported successful has exactly its compiled rules
   * installed, and was checked.
   */
  lemma {:induction false} SuccessMeansInstalled(m: Machine, p: Policy, env: Env)
    requires Inv(m) && PlausibleEnv(env) && ValidPolicy(p)
    requires Apply(m, Some(p), env).1 == Succeeded && p.generation != m.state.generation
    ensures var after := Apply(m, Some(p), env).0;
            && after.state.active && after.state.policy == Some(p)
               && after.state.generation == p.generation > m.state.generation
            && after.kernel.rules == Unmanaged(m.kernel.rules) + Compiled(p, env.inspected.value)
            && Accepts(p, env.inspectedAfter.value, after.kernel.rules)
  {
    hide AtMostOne, ApplyCommands, RemoveCommands, RunScript, Compiled, ValidPolicy, ReportsAgree, Accepts;
    ScriptKeepsSlots(m.kernel, p, env.inspected.value, env.ran);
  }

  /**
   * A policy that is already active is reported successful without looking at the rules. They may be gone: a failed
   * disable that got past its script leaves the status as it was over an empty managed range.
   */
  lemma {:induction false} FailedDisableKeepsStatusNotRules(m: Machine, generation: nat, current: Option<nat>, env: Env)
    requires Inv(m) && generation > m.state.generation && env.ran.None? && !(env.reconnected && env.saved)
    ensures var (after, answer) := Disable(m, generation, current, env);
            answer == Failed && after.state == m.state && after.kernel.rules == Unmanaged(m.kernel.rules)
  {
    hide AtMostOne, RemoveCommands, ReportsAgree;
    RemovalKeepsSlots(m.kernel, if current.Some? then current else m.state.baseline, env.ran);
  }

  // ------------------------------------------------ when operations succeed

  /** A drift check that reports health leaves every checked slot filled, on a snapshot of this very check. */
  lemma {:induction false} HealthyDriftFillsSlots(m: Machine, networkChange: bool, env: Env)
    requires Inv(m) && m.state.active && PlausibleEnv(env)
    requires CheckDrift(m, networkChange, env).1 == Succeeded
    ensures var (after, p) := (CheckDrift(m, networkChange, env).0, m.state.policy.value);
      && after.state == WithStatus(m.state, Active)
      && env.inspected.Some?
      && (Accepts(p, env.inspected.value, m.kernel.rules) ==>
            after.kernel == m.kernel && AllFilled(after.kernel.rules, Compiled(p, env.inspected.value)))
      && (!Accepts(p, env.inspected.value, m.kernel.rules) ==>
            && after.kernel == ExecAll(m.kernel, ApplyCommands(p, env.inspected.value))
            && env.inspectedAfter.Some? && AllFilled(after.kernel.rules, Compiled(p, env.inspectedAfter.value)))
  {
    hide Accepts, Compiled, ApplyCommands, AllFilled, AtMostOne, ReportsAgree, ValidPolicy, ValidSnapshot;
    var p := m.state.policy.value;
    AcceptsIff(p, env.inspected.value, m.kernel.rules);
    if !Accepts(p, env.inspected.value, m.kernel.rules) {
      AcceptsIff(p, env.inspectedAfter.value, ExecAll(m.kernel, ApplyCommands(p, env.inspected.value)).rules);
    }
  }

  /** A kernel that misses a checked rule is rewritten by the next drift check that can inspect it. */
  lemma {:induction false} DriftRewritesMissingRules(m: Machine, networkChange: bool, env: Env, r: Rule)
    requires Inv(m) && m.state.active && env.inspected.Some? && env.prerequisites && env.saved
    requires r in Compiled(m.state.policy.value, env.inspected.value) && !BoundV6(r)
    requires forall q :: q in m.kernel.rules ==> q.family != r.family || q.priority != r.priority
    ensures CheckDrift(m, networkChange, env).0.kernel
         == RunScript(m.kernel, ApplyCommands(m.state.policy.value, env.inspected.value), env.ran).0
  {
    hide Accepts, Compiled, ApplyCommands, AtMostOne, ReportsAgree, RunScript;
    MissingRuleIsNoticed(m.state.policy.value, env.inspected.value, m.kernel.rules, r);
  }

  /** A new policy succeeds if and only if everything on its way goes through. */
  lemma {:induction false} ApplySucceedsIff(m: Machine, parsed: Option<Policy>, env: Env)
    requires Inv(m) && PlausibleEnv(env) && (parsed.Some? ==> ValidPolicy(parsed.value))
    ensures Apply(m, parsed, env).1 == Rejected
       <==> parsed.None? || parsed.value.generation < m.state.generation
            || (parsed.value.generation == m.state.generation && !(m.state.active && m.state.policy == parsed))
    ensures Apply(m, parsed, env).1 == Succeeded
       <==> parsed.Some?
            && if parsed.value.generation > m.state.generation
               then env.inspected.Some? && env.prerequisites && env.exit.Some?
                    && Completes(ApplyCommands(parsed.value, env.inspected.value), env.ran)
                    && Verified(parsed.value,
                                ExecAll(m.kernel, ApplyCommands(parsed.value, env.inspected.value)).rules, env)
                    && env.saved
               else parsed.value.generation == m.state.generation && m.state.active && m.state.policy == parsed
  {
    hide ApplyCommands, RemoveCommands, Verified, AtMostOne, ReportsAgree, ValidPolicy;
  }

  /** Disabling succeeds if and only if it is newer and goes through; then no managed rule is left. */
  lemma {:induction false} DisableSucceedsIff(m: Machine, generation: int, current: Option<nat>, env: Env)
    requires Inv(m)
    ensures Disable(m, generation, current, env).1 == Rejected <==> generation < 1 || generation <= m.state.generation
    ensures Disable(m, generation, current, env).1 == Succeeded
       <==> generation >= 1 && generation > m.state.generation && env.reconnected && env.saved
            && Completes(RemoveCommands(if current.Some? then current else m.state.baseline), env.ran)
    ensures Disable(m, generation, current, env).1 == Succeeded ==>
      var after := Disable(m, generation, current, env).0;
      && after.kernel.rules == Unmanaged(m.kernel.rules)
      && after.disk == after.state == RoutingState(false, generation, None, None, Disabled)
  {
    hide RemoveCommands, AtMostOne, ReportsAgree, Unmanaged;
    RemovalKeepsSlots(m.kernel, if current.Some? then current else m.state.baseline, env.ran);
  }

  /** Restoring succeeds if and only if nothing is active or everything goes through; then the policy is installed. */
  lemma {:induction false} RestoreSucceedsIff(m: Machine, env: Env)
    requires Inv(m) && PlausibleEnv(env)
    ensures Restore(m, env).1 == Succeeded
       <==> m.state.active ==>
              var p := m.state.policy.value;
              && env.saved && env.inspected.Some? && env.prerequisites && env.inspectedAfter.Some? && env.activeSaved
              && Completes(ApplyCommands(p, env.inspected.value), env.ran)
              && Accepts(p, env.inspectedAfter.value, ExecAll(m.kernel, ApplyCommands(p, env.inspected.value)).rules)
    ensures Restore(m, env).1 == Succeeded && m.state.active ==>
      var after := Restore(m, env).0;
      && after.kernel.rules == Unmanaged(m.kernel.rules) + Compiled(m.state.policy.value, env.inspected.value)
      && after.state == WithStatus(m.state, Active)
  {
    hide ApplyCommands, AtMostOne, ReportsAgree, Unmanaged, Compiled, Accepts, ValidPolicy, ValidSnapshot;
    if m.state.active && env.inspected.Some? {
      ScriptKeepsSlots(m.kernel, m.state.policy.value, env.inspected.value, env.ran);
    }
  }

  // -------------------------------------------------------- the manager

  class NetworkRoutingManager {
    var state: RoutingState
    var disk: RoutingState
    var kernel: Kernel
    ghost var reports: seq<Report>

    ghost function Now(): Machine
      reads this
    {
      Machine(state, disk, kernel, reports)
    }

    constructor (saved: RoutingState, k: Kernel)
      ensures Now() == Machine(saved, saved, k, [])
    {
      state, disk, kernel, reports := saved, saved, k, [];
    }

    /** Writes the file, then takes the new state over; when the write fails neither changes. */
    method SaveState(next: RoutingState, written: bool)
      modifies this
      ensures Now() == if written then Save(old(Now()), next) else old(Now())
    {
      if !written { return; }
      disk := next;
      state := next;
    }

    method SaveRuntimeStatus(status: Status, written: bool)
      modifies this
      ensures Now() == SaveStatus(old(Now()), status, written)
    {
      SaveState(state.(status := status), written);
    }

    method RunRoot(commands: seq<Command>, ran: Option<nat>) returns (completed: bool)
      modifies this
      ensures Now() == old(Now()).(kernel := RunScript(old(kernel), commands, ran).0)
      ensures completed == RunScript(old(kernel), commands, ran).1
    {
      hide ExecAll;
      var stops := ran.Some? && ran.value < |commands|;
      var limit := if stops then ran.value else |commands|;
      ExecNothing(kernel);
      assert commands[..0] == [];
      for i := 0 to limit
        invariant Now() == old(Now()).(kernel := ExecAll(old(kernel), commands[..i]))
      {
        ExecNext(old(kernel), commands, i);
        kernel := Exec(kernel, commands[i]);
      }
      assert commands[..|commands|] == commands;
      return !stops;
    }

    method ApplyExclusive(parsed: Option<Policy>, env: Env) returns (answer: Answer)
      requires ValidState(state) && (parsed.Some? ==> ValidPolicy(parsed.value))
      modifies this
      ensures Now() == Apply(old(Now()), parsed, env).0 && answer == Apply(old(Now()), parsed, env).1
    {
      hide RunScript, ApplyCommands, RemoveCommands, Accepts, ValidPolicy;
      if parsed.None? { return Rejected; }
      var policy := parsed.value;
      if policy.generation < state.generation
         || (policy.generation == state.generation && (!state.active || state.policy != Some(policy))) {
        return Rejected;
      }
      if policy.generation == state.generation && state.active {
        reports := reports + [Report(policy.generation, Some(policy))];
        return Succeeded;
      }
      var previous := state;
      if env.inspected.None? || !env.prerequisites || env.exit.None? { return Failed; }
      var snapshot := env.inspected.value;
      var commands := BuildApplyCommand(policy, snapshot);
      var completed := RunRoot(commands, env.ran);
      if completed && Verified(policy, kernel.rules, env) {
        var baseline := if previous.active then previous.baseline else snapshot.defaultNetId;
        SaveState(RoutingState(true, policy.generation, Some(policy), baseline, Active), env.saved);
        if env.saved {
          reports := reports + [Report(policy.generation, Some(policy))];
          return Succeeded;
        }
      }
      answer := RollBack(policy, snapshot.defaultNetId, env);
    }

    method RollBack(policy: Policy, defaultNetId: Option<nat>, env: Env) returns (answer: Answer)
      requires ValidState(state)
      modifies this
      ensures Now() == Rollback(old(Now()), policy, defaultNetId, env).0
              && answer == Rollback(old(Now()), policy, defaultNetId, env).1
    {
      hide RunScript, ApplyCommands, RemoveCommands, ValidPolicy;
      var previous := state;
      NoScript(kernel, env.rollbackRan);
      var completed := false;
      if previous.active {
        if env.inspectedForRollback.Some? {
          var commands := BuildApplyCommand(previous.policy.value, env.inspectedForRollback.value);
          completed := RunRoot(commands, env.rollbackRan);
        }
      } else {
        completed := RunRoot(RemoveCommands(defaultNetId), env.rollbackRan);
      }
      if completed && env.rollbackReconnected {
        state := previous;
        return RolledBack;
      }
      SaveState(RoutingState(true, policy.generation, if previous.active then previous.policy else Some(policy),
                             if previous.baseline.Some? then previous.baseline
                               else defaultNetId, Degraded), env.finallySaved);
      return if env.finallySaved then RollbackFailed else Threw;
    }

    method DisableExclusive(generation: int, current: Option<nat>, env: Env) returns (answer: Answer)
      modifies this
      ensures Now() == Disable(old(Now()), generation, current, env).0
              && answer == Disable(old(Now()), generation, current, env).1
    {
      hide RunScript, RemoveCommands;
      if generation < 1 || generation <= state.generation { return Rejected; }
      var completed := RunRoot(RemoveCommands(if current.Some? then current else state.baseline), env.ran);
      if !completed || !env.reconnected { return Failed; }
      SaveState(RoutingState(false, generation, None, None, Disabled), env.saved);
      if !env.saved { return Failed; }
      reports := reports + [Report(generation, None)];
      return Succeeded;
    }

    method RestoreOnStartup(env: Env) returns (answer: Answer)
      requires ValidState(state)
      modifies this
      ensures Now() == Restore(old(Now()), env).0 && answer == Restore(old(Now()), env).1
    {
      hide RunScript, ApplyCommands, Accepts, ValidPolicy;
      if !state.active { return Succeeded; }
      SaveRuntimeStatus(Recovering, env.saved);
      if !env.saved { return Threw; }
      if env.inspected.Some? && env.prerequisites {
        var commands := BuildApplyCommand(state.policy.value, env.inspected.value);
        var completed := RunRoot(commands, env.ran);
        if completed && env.inspectedAfter.Some? && Accepts(state.policy.value, env.inspectedAfter.value, kernel.rules)
          && env.activeSaved {
          SaveRuntimeStatus(Active, true);
          return Succeeded;
        }
      }
      SaveRuntimeStatus(Degraded, env.finallySaved);
      return Threw;
    }

    method CheckDriftExclusive(networkChange: bool, env: Env) returns (answer: Answer)
      requires ValidState(state)
      modifies this
      ensures Now() == CheckDrift(old(Now()), networkChange, env).0
              && answer == CheckDrift(old(Now()), networkChange, env).1
    {
      hide RunScript, ApplyCommands, Accepts, ValidPolicy;
      if !state.active { return Succeeded; }
      if networkChange || state.status == Degraded {
        SaveRuntimeStatus(Recovering, env.saved);
        if !env.saved { return Threw; }
      }
      var policy := state.policy.value;
      if env.inspected.Some? && env.prerequisites {
        var healthy := Accepts(policy, env.inspected.value, kernel.rules);
        if !healthy {
          var commands := BuildApplyCommand(policy, env.inspected.value);
          var completed := RunRoot(commands, env.ran);
          healthy := completed && env.reconnected && env.inspectedAfter.Some?
            && Accepts(policy, env.inspectedAfter.value, kernel.rules);
        }
        if healthy && env.exit.Some? && env.exitAfter.Some?
          && (policy.target == DefaultTarget || env.exit == env.exitAfter)
           && env.activeSaved {
          SaveRuntimeStatus(Active, true);
          return Succeeded;
        }
      }
      SaveRuntimeStatus(Degraded, env.finallySaved);
      return if env.finallySaved then Failed else Threw;
    }
  }

  lemma ExecNothing(k: Kernel)
    ensures ExecAll(k, []) == k
  {}

  lemma {:induction false} ExecNext(k: Kernel, commands: seq<Command>, i: nat)
    requires i < |commands|
    ensures ExecAll(k, commands[..i + 1]) == Exec(ExecAll(k, commands[..i]), commands[i])
  {
    assert commands[..i + 1][..i] == commands[..i];
  }
}
