/**
 * When the routing status tells the truth: status ACTIVE should mean that the
 * managed rules are compiled from the stored policy
 * (mobile/src/network-routing.ts:1014-1372). For every operation this file says
 * exactly when that stays so, and shows a run after which a repeated apply
 * answers SUCCESS over an empty managed range.
 */
module RoutingTruth {
  import opened Common
  import opened RoutingRules
  import opened RoutingMeaning
  import opened RoutingManager

  /** The rules are what the compiler makes of the policy on some snapshot, behind the foreign ones. */
  ghost predicate InStep(p: Policy, rules: seq<Rule>)
    requires ValidPolicy(p)
  {
    exists s :: ValidSnapshot(s) && rules == Unmanaged(rules) + Compiled(p, s)
  }

  ghost predicate CompiledFrom(p: Policy, rules: seq<Rule>)
    requires ValidPolicy(p)
  {
    exists s :: ValidSnapshot(s) && rules == Compiled(p, s)
  }

  predicate Claims(s: RoutingState) {
    s.active && s.policy.Some? && s.status == Active
  }

  /** ACTIVE means that the rules of the stored policy are installed. */
  ghost predicate Truthful(m: Machine)
    requires ValidState(m.state)
  {
    Claims(m.state) ==> InStep(m.state.policy.value, m.kernel.rules)
  }

  // ------------------------------------------------- scripts that may stop

  /** The commands of a script that took effect. */
  function Done(commands: seq<Command>, ran: Option<nat>): seq<Command> {
    if ran.Some? && ran.value < |commands| then commands[..ran.value] else commands
  }

  predicate IsScript(commands: seq<Command>) {
    ClearCommands() <= commands && NoDels(commands[|ClearCommands()|..])
  }

  /** A script of clearing and a tail without deletions adds what its tail adds. */
  lemma {:induction false} ScriptOf(tail: seq<Command>)
    requires NoDels(tail)
    ensures IsScript(ClearCommands() + tail) && AddedRules(ClearCommands() + tail) == AddedRules(tail)
  {
    var clear := ClearCommands();
    hide ClearCommands;
    assert (clear + tail)[|clear|..] == tail;
    ClearAddsNothing(clear);
    AddedAppend(clear, tail);
  }

  lemma {:induction false} ApplyScript(p: Policy, s: Snapshot)
    requires ValidPolicy(p)
    ensures IsScript(ApplyCommands(p, s)) && AddedRules(ApplyCommands(p, s)) == Compiled(p, s)
  {
    ApplyIsClearThenAdd(p, s);
    AddingAddsCompiled(p, s);
    ScriptOf(AddingCommands(p, s));
  }

  lemma {:induction false} RemoveScript(net: Option<nat>)
    ensures IsScript(RemoveCommands(net)) && AddedRules(RemoveCommands(net)) == [] && RemoveCommands(net) != []
  {
    var reset := SetDefaultNet(if net == Some(0) then None else net);
    hide ClearCommands;
    assert AddedRules([reset]) == [] by {
      assert [reset][..0] == [];
    }
    ScriptOf([reset]);
  }

  lemma {:induction false} ClearAddsNothing(commands: seq<Command>)
    requires forall c :: c in commands ==> c in ClearCommands()
    ensures AddedRules(commands) == []
    decreases |commands|
  {
    hide ClearCommands;
    ClearOnlyDels();
    if commands != [] {
      assert commands[|commands| - 1] in commands;
      ClearAddsNothing(commands[..|commands| - 1]);
    }
  }

  /** The first command of every script empties the slot of the first bound rule. */
  lemma {:induction false} ClearStarts()
    ensures |ClearCommands()| >= 1 && ClearCommands()[0] == Del(V4, BOUND_START)
  {
    assert ManagedPriorities()[0] == BOUND_START;
    assert Dels(V4, ManagedPriorities())[0] == Del(V4, BOUND_START);
  }

  lemma CompiledStarts(p: Policy, s: Snapshot)
    requires ValidPolicy(p)
    ensures Compiled(p, s) != [] && Compiled(p, s)[0].family == V4 && Compiled(p, s)[0].priority == BOUND_START
  {
  }

  /**
   * A script that ran at least one command leaves exactly a wanted compilation
   * behind the foreign rules if and only if that is what it has added so far.
   */
  lemma {:induction false} StoppedScriptIff(k: Kernel, commands: seq<Command>, n: nat, p: Policy, s: Snapshot)
    requires IsScript(commands) && 1 <= n <= |commands| && AtMostOne(k.rules) && ValidPolicy(p)
    ensures ExecAll(k, commands[..n]).rules == Unmanaged(k.rules) + Compiled(p, s)
            <==> AddedRules(commands[..n]) == Compiled(p, s)
  {
    var clear := ClearCommands();
    hide ClearCommands, Compiled, ExecAll;
    CompiledStarts(p, s);
    ClearStarts();
    if n <= |clear| {
      assert commands[..n] == clear[..n];
      StoppedInClear(k, n);
      ClearAddsNothing(clear[..n]);
      SecondPartIsIn(ExecAll(k, commands[..n]).rules, Unmanaged(k.rules), Compiled(p, s));
    } else {
      var tail := commands[|clear|..];
      var m := n - |clear|;
      assert commands[..n] == clear + tail[..m];
      assert NoDels(tail[..m]);
      ExecAppend(k, clear, tail[..m]);
      ClearingLeavesForeignRules(k);
      AddsExtend(ExecAll(k, clear), tail[..m]);
      AddedAppend(clear, tail[..m]);
      ClearAddsNothing(clear);
      SamePrefix(Unmanaged(k.rules), AddedRules(tail[..m]), Compiled(p, s));
    }
  }

  lemma {:induction false} SecondPartIsIn<T>(all: seq<T>, a: seq<T>, b: seq<T>)
    requires b != []
    ensures all == a + b ==> b[0] in all
  {
    assert (a + b)[|a|] == b[0];
  }

  lemma {:induction false} SamePrefix<T>(a: seq<T>, b: seq<T>, c: seq<T>)
    ensures a + b == a + c <==> b == c
  {
    if a + b == a + c {
      assert (a + b)[|a|..] == b && (a + c)[|a|..] == c;
    }
  }

  lemma {:induction false} StoppedInClear(k: Kernel, n: nat)
    requires AtMostOne(k.rules) && 1 <= n <= |ClearCommands()|
    ensures forall r :: r in ExecAll(k, ClearCommands()[..n]).rules ==> !(r.family == V4 && r.priority == BOUND_START)
  {
    var clear := ClearCommands();
    hide ClearCommands, ExecAll;
    ClearOnlyDels();
    ClearStarts();
    assert OnlyDels(clear[..n]);
    DelsEmptySlots(k, clear[..n]);
    assert clear[..n][0] == Del(V4, BOUND_START);
    assert Del(V4, BOUND_START) in clear[..n];
  }

  /** What the rules are compiled from after a script: as before when nothing ran, else what was added. */
  lemma {:induction false} AfterScriptIff(k: Kernel, commands: seq<Command>, ran: Option<nat>, p: Policy)
    requires IsScript(commands) && AtMostOne(k.rules) && ValidPolicy(p)
    requires Unmanaged(RunScript(k, commands, ran).0.rules) == Unmanaged(k.rules)
    ensures |Done(commands, ran)| == 0 ==> RunScript(k, commands, ran).0 == k
    ensures |Done(commands, ran)| >= 1 ==>
      (InStep(p, RunScript(k, commands, ran).0.rules) <==> CompiledFrom(p, AddedRules(Done(commands, ran))))
  {
    hide Compiled, IsScript, AddedRules;
    var done, after := Done(commands, ran), RunScript(k, commands, ran).0;
    assert done == commands[..|done|] && after == ExecAll(k, done);
    if |done| >= 1 {
      forall s: Snapshot
        ensures after.rules == Unmanaged(after.rules) + Compiled(p, s) <==> AddedRules(done) == Compiled(p, s)
      {
        StoppedScriptIff(k, commands, |done|, p, s);
      }
    }
  }

  /** The same for the scripts of the manager. */
  lemma {:induction false} AfterApplyScript(k: Kernel, q: Policy, s: Snapshot, ran: Option<nat>, p: Policy)
    requires AtMostOne(k.rules) && ValidPolicy(p) && ValidPolicy(q) && ValidSnapshot(s)
    ensures var (after, commands) := (RunScript(k, ApplyCommands(q, s), ran).0, ApplyCommands(q, s));
      && AtMostOne(after.rules)
      && (|Done(commands, ran)| == 0 ==> after == k)
      && (|Done(commands, ran)| >= 1 ==> (InStep(p, after.rules) <==> CompiledFrom(p, AddedRules(Done(commands, ran)))))
      && (RunScript(k, commands, ran).1 ==> InStep(q, after.rules))
  {
    hide RunScript, ApplyCommands, ClearCommands, Compiled, InStep, CompiledFrom;
    ScriptKeepsSlots(k, q, s, ran);
    ApplyScript(q, s);
    AfterScriptIff(k, ApplyCommands(q, s), ran, p);
    if RunScript(k, ApplyCommands(q, s), ran).1 {
      InstalledIsInStep(k.rules, RunScript(k, ApplyCommands(q, s), ran).0.rules, q, s);
    }
  }

  lemma InstalledIsInStep(before: seq<Rule>, rules: seq<Rule>, p: Policy, s: Snapshot)
    requires ValidPolicy(p) && ValidSnapshot(s) && rules == Unmanaged(before) + Compiled(p, s)
             && Unmanaged(rules) == Unmanaged(before)
    ensures InStep(p, rules)
  {
  }

  lemma {:induction false} NothingIsNotCompiled(p: Policy)
    requires ValidPolicy(p)
    ensures !CompiledFrom(p, [])
  {
    forall s: Snapshot ensures Compiled(p, s) != [] {
      CompiledStarts(p, s);
    }
  }

  lemma {:induction false} AfterRemoval(k: Kernel, net: Option<nat>, ran: Option<nat>, p: Policy)
    requires AtMostOne(k.rules) && ValidPolicy(p)
    ensures var after := RunScript(k, RemoveCommands(net), ran).0;
      && (ran == Some(0) ==> after == k)
      && (ran != Some(0) ==> !InStep(p, after.rules))
  {
    hide RunScript, ApplyCommands, RemoveCommands, ClearCommands, Compiled, InStep, CompiledFrom, AddedRules;
    RemovalKeepsSlots(k, net, ran);
    RemoveScript(net);
    AfterScriptIff(k, RemoveCommands(net), ran, p);
    NothingIsNotCompiled(p);
    var done := Done(RemoveCommands(net), ran);
    AddedPrefix(RemoveCommands(net), |done|);
    assert done == RemoveCommands(net)[..|done|];
    assert AddedRules(done) == [];
    assert ran != Some(0) ==> |done| >= 1;
  }

  // ------------------------------------------------------- the exact condition

  /** A script leaves the rules of `p`: nothing of it ran, or what it added is what `p` compiles to. */
  ghost predicate Leaves(p: Policy, commands: seq<Command>, ran: Option<nat>)
    requires ValidPolicy(p)
  {
    |Done(commands, ran)| == 0 || CompiledFrom(p, AddedRules(Done(commands, ran)))
  }

  /** The two scripts of an apply whose rollback could not be recorded. */
  ghost predicate ApplyLeaves(m: Machine, p: Policy, env: Env)
    requires ValidState(m.state) && Claims(m.state) && ValidPolicy(p) && env.inspected.Some?
  {
    var stored := m.state.policy.value;
    if env.inspectedForRollback.Some?
      && |Done(ApplyCommands(stored, env.inspectedForRollback.value), env.rollbackRan)| >= 1
    then CompiledFrom(stored, AddedRules(Done(ApplyCommands(stored, env.inspectedForRollback.value), env.rollbackRan)))
    else Leaves(stored, ApplyCommands(p, env.inspected.value), env.ran)
  }

  /** The script of the rollback: the stored policy on what was then inspected. */
  predicate RolledBackWhole(stored: Policy, env: Env)
    requires ValidPolicy(stored)
  {
    && env.inspectedForRollback.Some?
    && Completes(ApplyCommands(stored, env.inspectedForRollback.value), env.rollbackRan)
    && env.rollbackReconnected
  }

  /** An apply that gets as far as its script. */
  predicate Runs(m: Machine, parsed: Option<Policy>, env: Env) {
    && parsed.Some? && !Stale(m.state, parsed.value) && parsed.value.generation != m.state.generation
    && env.inspected.Some? && env.prerequisites && env.exit.Some?
  }

  /** An apply breaks the claim when it fails, the rollback fails, and that cannot be recorded. */
  ghost predicate ApplyStaysTruthful(m: Machine, parsed: Option<Policy>, env: Env)
    requires ValidState(m.state) && Plausible(ApplyOp(parsed, env))
  {
    Claims(m.state) && Runs(m, parsed, env) && !env.finallySaved ==>
      var p, commands := parsed.value, ApplyCommands(parsed.value, env.inspected.value);
      || (Completes(commands, env.ran) && Verified(p, ExecAll(m.kernel, commands).rules, env) && env.saved)
      || RolledBackWhole(m.state.policy.value, env)
      || ApplyLeaves(m, p, env)
  }

  /** A disable breaks it when it fails behind the first command of its script. */
  ghost predicate DisableStaysTruthful(m: Machine, generation: int, current: Option<nat>, env: Env) {
    Claims(m.state) && generation >= 1 && generation > m.state.generation ==>
      var commands := RemoveCommands(if current.Some? then current else m.state.baseline);
      (Completes(commands, env.ran) && env.reconnected && env.saved) || env.ran == Some(0)
  }

  /**
   * A drift check breaks it in two ways: it renews a claim that was given up, over
   * rules that pass the check but are not the policy's; or its repair stops over
   * other rules and the standing claim cannot be taken back.
   */
  ghost predicate DriftStaysTruthful(m: Machine, networkChange: bool, env: Env)
    requires ValidState(m.state) && PlausibleEnv(env)
  {
    m.state.active && env.inspected.Some? && env.prerequisites
    && (networkChange || m.state.status == Degraded ==> env.saved) ==>
      var p := m.state.policy.value;
      var commands := ApplyCommands(p, env.inspected.value);
      if Accepts(p, env.inspected.value, m.kernel.rules)
      then ProbesPass(p, env) && !Claims(m.state) ==> InStep(p, m.kernel.rules)
      else
        Claims(m.state) && !networkChange && !Completes(commands, env.ran) && !env.finallySaved ==>
          Leaves(p, commands, env.ran)
  }

  /**
   * What an operation must not do to a truthful machine, said of the machine and
   * of what the outside answers before and while it runs.
   */
  ghost predicate StaysTruthful(m: Machine, op: Operation)
    requires ValidState(m.state) && Plausible(op)
  {
    match op
    case ApplyOp(parsed, env) => ApplyStaysTruthful(m, parsed, env)
    case DisableOp(generation, current, env) => DisableStaysTruthful(m, generation, current, env)
    case RestoreOp(_) => true
    case DriftOp(networkChange, env) => DriftStaysTruthful(m, networkChange, env)
    case CrashInApply(p, s, n) => Claims(m.state) ==> Leaves(m.state.policy.value, ApplyCommands(p, s), Some(n))
    case CrashInRemove(_, n) => Claims(m.state) ==> n == 0
    case Restart => true
  }

  lemma CompletedScript(k: Kernel, commands: seq<Command>, ran: Option<nat>)
    ensures RunScript(k, commands, ran).1 <==> Completes(commands, ran)
    ensures Completes(commands, ran) ==> RunScript(k, commands, ran).0 == ExecAll(k, commands)
  {}

  lemma {:induction false} ApplyTruthIff(m: Machine, parsed: Option<Policy>, env: Env)
    requires Inv(m) && Truthful(m) && Plausible(ApplyOp(parsed, env))
    ensures Truthful(Apply(m, parsed, env).0) <==> ApplyStaysTruthful(m, parsed, env)
  {
    hide RunScript, ApplyCommands, RemoveCommands, Compiled, InStep, CompiledFrom, Accepts, ValidPolicy, ValidSnapshot,
         AddedRules, Done;
    hide AtMostOne, ReportsAgree, Verified;
    if Runs(m, parsed, env) {
      var p, s := parsed.value, env.inspected.value;
      var (kernel, completed) := RunScript(m.kernel, ApplyCommands(p, s), env.ran);
      AfterApplyScript(m.kernel, p, s, env.ran, p);
      CompletedScript(m.kernel, ApplyCommands(p, s), env.ran);
      if m.state.active {
        AfterApplyScript(m.kernel, p, s, env.ran, m.state.policy.value);
        if env.inspectedForRollback.Some? {
          AfterApplyScript(kernel, m.state.policy.value, env.inspectedForRollback.value, env.rollbackRan,
                           m.state.policy.value);
          CompletedScript(kernel, ApplyCommands(m.state.policy.value, env.inspectedForRollback.value), env.rollbackRan);
        } else {
          NoScript(kernel, env.rollbackRan);
        }
      }
    }
  }

  lemma {:induction false} DisableTruthIff(m: Machine, generation: int, current: Option<nat>, env: Env)
    requires Inv(m) && Truthful(m) && PlausibleEnv(env)
    ensures Truthful(Disable(m, generation, current, env).0) <==> DisableStaysTruthful(m, generation, current, env)
  {
    hide RunScript, RemoveCommands, InStep, ValidPolicy;
    if Claims(m.state) {
      var net := if current.Some? then current else m.state.baseline;
      AfterRemoval(m.kernel, net, env.ran, m.state.policy.value);
      CompletedScript(m.kernel, RemoveCommands(net), env.ran);
    }
  }

  /** Restoring takes the claim back first and renews it only behind a completed script. */
  lemma {:induction false} RestoreStaysTruthful(m: Machine, env: Env)
    requires Inv(m) && Truthful(m) && PlausibleEnv(env)
    ensures Truthful(Restore(m, env).0)
  {
    hide RunScript, ApplyCommands, Compiled, InStep, Accepts, ValidPolicy, ValidSnapshot, AddedRules, Done;
    if m.state.active && env.inspected.Some? {
      AfterApplyScript(m.kernel, m.state.policy.value, env.inspected.value, env.ran, m.state.policy.value);
    }
  }

  lemma {:induction false} DriftTruthIff(m: Machine, networkChange: bool, env: Env)
    requires Inv(m) && Truthful(m) && PlausibleEnv(env)
    ensures Truthful(CheckDrift(m, networkChange, env).0) <==> DriftStaysTruthful(m, networkChange, env)
  {
    hide RunScript, ApplyCommands, Compiled, InStep, CompiledFrom, Accepts, ValidPolicy, ValidSnapshot, AddedRules;
    hide AtMostOne, ReportsAgree;
    if m.state.active && env.inspected.Some? {
      var p := m.state.policy.value;
      AfterApplyScript(m.kernel, p, env.inspected.value, env.ran, p);
      CompletedScript(m.kernel, ApplyCommands(p, env.inspected.value), env.ran);
      CompletedLeaves(p, env.inspected.value, env.ran);
    }
  }

  /** A completed script of the policy is one that leaves its rules. */
  lemma {:induction false} CompletedLeaves(p: Policy, s: Snapshot, ran: Option<nat>)
    requires ValidPolicy(p) && ValidSnapshot(s)
    ensures !(ran.Some? && ran.value < |ApplyCommands(p, s)|) ==> Leaves(p, ApplyCommands(p, s), ran)
  {
    hide ApplyCommands, Compiled;
    ApplyScript(p, s);
  }

  lemma {:induction false} CrashTruthIff(m: Machine, op: Operation)
    requires Inv(m) && Truthful(m) && Plausible(op) && (op.CrashInApply? || op.CrashInRemove?)
    ensures Truthful(Do(m, op).0) <==> StaysTruthful(m, op)
  {
    hide RunScript, ApplyCommands, RemoveCommands, Compiled, InStep, CompiledFrom, ValidPolicy, ValidSnapshot,
         AddedRules, Done;
    if Claims(m.state) {
      if op.CrashInApply? {
        AfterApplyScript(m.kernel, op.p, op.s, Some(op.n), m.state.policy.value);
      } else {
        AfterRemoval(m.kernel, op.net, Some(op.n), m.state.policy.value);
      }
    }
  }

  /** For every truthful machine and every operation, the exact condition under which it stays truthful. */
  lemma {:induction false} OperationTruthIff(m: Machine, op: Operation)
    requires Inv(m) && Truthful(m) && Plausible(op)
    ensures Truthful(Do(m, op).0) <==> StaysTruthful(m, op)
  {
    hide Apply, Disable, Restore, CheckDrift, DriftStaysTruthful, InStep, RunScript, Inv;
    match op
    case ApplyOp(parsed, env) => ApplyTruthIff(m, parsed, env);
    case DisableOp(generation, current, env) => DisableTruthIff(m, generation, current, env);
    case RestoreOp(env) => RestoreStaysTruthful(m, env);
    case DriftOp(networkChange, env) => DriftTruthIff(m, networkChange, env);
    case CrashInApply(_, _, _) => CrashTruthIff(m, op);
    case CrashInRemove(_, _) => CrashTruthIff(m, op);
    case Restart => assert m.disk == m.state by { FileIsMemory(m); }
  }

  lemma FileIsMemory(m: Machine)
    requires Inv(m)
    ensures m.disk == m.state
  {
  }

  /** A run each of whose operations meets its condition. */
  ghost predicate ReachesTruthfully(m: Machine, ops: seq<Operation>, after: Machine)
    decreases |ops|
  {
    if ops == [] then m == after
    else
      && ValidState(m.state) && Plausible(ops[0]) && StaysTruthful(m, ops[0])
      && ReachesTruthfully(Do(m, ops[0]).0, ops[1..], after)
  }

  /** Over such a run ACTIVE means installed, from a fresh installation on. */
  lemma {:induction false} RunStaysTruthful(m: Machine, ops: seq<Operation>, after: Machine)
    requires Inv(m) && Truthful(m) && ReachesTruthfully(m, ops, after)
    ensures Inv(after) && Truthful(after)
    decreases |ops|
  {
    hide Do, Truthful, StaysTruthful, Inv;
    if ops != [] {
      OperationTruthIff(m, ops[0]);
      DoKeeps(m, ops[0]);
      RunStaysTruthful(Do(m, ops[0]).0, ops[1..], after);
    }
  }

  // ------------------------------------------------- SUCCESS over nothing

  const NETWORK := Network("wlan0", "1001", None, false, [])
  const SNAPSHOT := Snapshot(NETWORK, NETWORK.(name := "rmnet0"), [], None)
  const POLICY := Policy(1, 1, DefaultTarget, [])
  const GOOD := Env(Some(SNAPSHOT), true, Some("exit"), None, true, Some(SNAPSHOT), Some("exit"), true, None, None,
                    true, true, true)
  const NO_RULES := Kernel([], false, None)

  lemma WitnessIsPlausible()
    ensures ValidPolicy(POLICY) && ValidSnapshot(SNAPSHOT) && PlausibleEnv(GOOD) && AtMostOne(NO_RULES.rules)
  {
  }

  /** The policy is applied. */
  function Applied(): Machine
    ensures ValidPolicy(POLICY)
  {
    Apply(Fresh(NO_RULES), Some(POLICY), GOOD).0
  }

  lemma {:induction false} PolicyIsApplied()
    ensures var m := Applied();
      && Inv(m) && m.state == RoutingState(true, 1, Some(POLICY), None, Active)
      && m.reports == [Report(1, Some(POLICY))] && Unmanaged(m.kernel.rules) == []
  {
    WitnessIsPlausible();
    var m := Fresh(NO_RULES);
    assert RunScript(NO_RULES, ApplyCommands(POLICY, SNAPSHOT), None)
           == (ExecAll(NO_RULES, ApplyCommands(POLICY, SNAPSHOT)), true);
    AppliedIsAccepted(NO_RULES, POLICY, SNAPSHOT);
    hide RunScript, ApplyCommands, ExecAll, Accepts, AtMostOne;
    assert Inv(m) by { FreshIsValid(); }
    ApplyKeeps(m, Some(POLICY), GOOD);
    assert Unmanaged(NO_RULES.rules) == [];
  }

  lemma FreshIsValid()
    ensures Inv(Fresh(NO_RULES))
  {
  }

  /**
   * A run of three operations: a policy is applied, a disable fails to save behind
   * its script, and the same policy is applied again. The last answer is SUCCESS,
   * the status is ACTIVE, and there is no rule.
   */
  lemma {:induction false} SuccessOverNothing() returns (ops: seq<Operation>, after: Machine)
    ensures Reaches(Fresh(NO_RULES), ops, after)
    ensures after.kernel.rules == [] && Claims(after.state)
    ensures after.reports == [Report(1, Some(POLICY)), Report(1, Some(POLICY))]
    ensures Inv(after) && !Truthful(after)
  {
    WitnessIsPlausible();
    PolicyIsApplied();
    var m0, m1 := Fresh(NO_RULES), Applied();
    var unsaved := GOOD.(saved := false);
    hide Inv, ApplyCommands, RunScript, Compiled, RemoveCommands, Unmanaged, Applied;
    FailedDisableKeepsStatusNotRules(m1, 2, None, unsaved);
    DisableKeepsReports(m1, 2, unsaved);
    DisableKeeps(m1, 2, None, unsaved);
    var m2 := Disable(m1, 2, None, unsaved).0;
    var again := ApplyOp(Some(POLICY), GOOD);
    after := m2.(reports := m2.reports + [Report(1, Some(POLICY))]);
    assert Do(m2, again).0 == after;
    ApplyKeeps(m2, Some(POLICY), GOOD);
    ops := [again, DisableOp(2, None, unsaved), again];
    assert ops[1..] == [DisableOp(2, None, unsaved), again] && ops[1..][1..] == [again] && [again][1..] == [];
    assert Do(m0, again).0 == m1 by { AppliedIsDone(); }
    assert ValidState(m0.state) && ValidState(m1.state) && ValidState(m2.state);
    assert Reaches(m2, [again], after);
    assert Reaches(m1, ops[1..], after);
    EmptyIsNotInStep();
  }

  lemma {:induction false} AppliedIsDone()
    ensures Do(Fresh(NO_RULES), ApplyOp(Some(POLICY), GOOD)).0 == Applied()
  {
    hide Apply;
  }

  lemma {:induction false} DisableKeepsReports(m: Machine, generation: nat, env: Env)
    requires generation > m.state.generation && !env.saved
    ensures Disable(m, generation, None, env).0.reports == m.reports
            && Disable(m, generation, None, env).0.disk == m.disk
  {
    hide RunScript, RemoveCommands;
  }

  lemma {:induction false} EmptyIsNotInStep()
    ensures ValidPolicy(POLICY) && !InStep(POLICY, [])
  {
    forall s: Snapshot ensures Compiled(POLICY, s) != [] {
      CompiledStarts(POLICY, s);
    }
  }
}
