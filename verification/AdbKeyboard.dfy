/**
 * The temporary input method of a publish task and its crash-proof restoration
 * (mobile/src/adb-keyboard.ts:186-374). A recovery file is written before the
 * first device command; commands may fail or the client may die after any of them.
 */
module AdbKeyboard {
  import opened Common

  type Ime = string

  const ADB_KEYBOARD: Ime := "com.android.adbkeyboard/.AdbKeyboard"

  /** The device settings in question; `package` says whether the keyboard's package is enabled. */
  datatype Device = Device(current: Option<Ime>, enabled: set<Ime>, package: bool)

  datatype Saved = Saved(previous: Option<Ime>, packageWasEnabled: bool, imeWasEnabled: bool)

  datatype Keyboard = Keyboard(device: Device, file: Option<Saved>)

  datatype Command =
    | PmEnable
    | PmDisable
    | ImeEnable(ime: Ime)
    | ImeDisable(ime: Ime)
    | ImeSet(ime: Ime)
    | ImeReset(chosen: Ime)

  /** A disabled package takes its input method along. */
  function Exec(d: Device, c: Command): Device {
    match c
    case PmEnable => d.(package := true)
    case PmDisable => d.(package := false, enabled := d.enabled - {ADB_KEYBOARD})
    case ImeEnable(ime) => d.(enabled := d.enabled + {ime})
    case ImeDisable(ime) => d.(enabled := d.enabled - {ime})
    case ImeSet(ime) => d.(current := Some(ime))
    case ImeReset(chosen) => d.(current := Some(chosen), enabled := d.enabled + {chosen})
  }

  function ExecAll(d: Device, commands: seq<Command>): Device
    decreases |commands|
  {
    if commands == [] then d else ExecAll(Exec(d, commands[0]), commands[1..])
  }

  /** What activation reads before it touches anything. */
  function Describe(d: Device): Saved {
    Saved(d.current, d.package, ADB_KEYBOARD in d.enabled)
  }

  const ACTIVATION: seq<Command> := [PmEnable, ImeEnable(ADB_KEYBOARD), ImeSet(ADB_KEYBOARD)]

  /** `fallback` is what the system picks when the default is reset. */
  function RestoreCommands(s: Saved, fallback: Ime): seq<Command> {
    (if s.previous.Some? then [ImeEnable(s.previous.value), ImeSet(s.previous.value)] else [])
    + (if s.imeWasEnabled then [] else [ImeDisable(ADB_KEYBOARD)])
    + (if s.previous.Some? then [] else [ImeReset(fallback)])
    + (if s.packageWasEnabled then [] else [PmDisable])
  }

  /**
   * The commands of a list that take effect. `Some(n)` is a failure or a crash
   * behind `n` of them; behind all of them it is a check that fails at the end, or
   * a crash before what follows them.
   */
  function Cut(commands: seq<Command>, stop: Option<nat>): seq<Command> {
    if stop.Some? && stop.value < |commands| then commands[..stop.value] else commands
  }

  /** The recovery file goes away only behind the last command. */
  function Restore(k: Keyboard, fallback: Ime, stop: Option<nat>): Keyboard {
    if k.file.None? then k
    else
      var commands := RestoreCommands(k.file.value, fallback);
      Keyboard(ExecAll(k.device, Cut(commands, stop)), if stop.None? then None else k.file)
  }

  predicate Restores(k: Keyboard, stop: Option<nat>) {
    k.file.Some? ==> stop.None?
  }

  /** Outcomes of one activation: an earlier restore, the checks, the commands, and the restore after a failure. */
  datatype Env = Env(fallback: Ime, first: Option<nat>, admitted: bool, stop: Option<nat>, crashed: bool,
                     undo: Option<nat>)

  function Activate(k: Keyboard, env: Env): Keyboard {
    var settled := Restore(k, env.fallback, env.first);
    if !Restores(k, env.first) || !env.admitted then settled
    else
      var captured := settled.(file := Some(Describe(settled.device)));
      var active := captured.(device := ExecAll(captured.device, Cut(ACTIVATION, env.stop)));
      if env.stop.None? || env.crashed then active else Restore(active, env.fallback, env.undo)
  }

  /** The keyboard is in use for a publish: everything before and during activation went through. */
  predicate BecomesActive(k: Keyboard, env: Env) {
    Restores(k, env.first) && env.admitted && env.stop.None?
  }

  function Recover(k: Keyboard, fallback: Ime, stops: seq<Option<nat>>): Keyboard
    decreases |stops|
  {
    if stops == [] || k.file.None? then k
    else Recover(Restore(k, fallback, stops[0]), fallback, stops[1..])
  }

  datatype Operation =
    | ActivateOp(env: Env)
    | RestoreOp(fallback: Ime, stop: Option<nat>)
    | RecoverOp(fallback: Ime, stops: seq<Option<nat>>)
    | UserChanges(device: Device)

  /** The user is assumed to leave the settings alone while a restoration is owed. */
  function Do(k: Keyboard, op: Operation): Keyboard {
    match op
    case ActivateOp(env) => Activate(k, env)
    case RestoreOp(fallback, stop) => Restore(k, fallback, stop)
    case RecoverOp(fallback, stops) => Recover(k, fallback, stops)
    case UserChanges(device) => if k.file.None? then k.(device := device) else k
  }

  // ------------------------------------------------------------ invariant

  /** A default that is set and enabled; a disabled package has no enabled input method. */
  predicate Plausible(d: Device) {
    && d.current.Some? && d.current.value in d.enabled
    && (!d.package ==> ADB_KEYBOARD !in d.enabled)
  }

  /** Between `original` and its temporary form. */
  predicate OnTheWay(d: Device, original: Device) {
    && d.current in {original.current, Some(ADB_KEYBOARD)}
    && d.enabled - {ADB_KEYBOARD} == original.enabled - {ADB_KEYBOARD}
    && (ADB_KEYBOARD in original.enabled ==> ADB_KEYBOARD in d.enabled)
    && (original.package ==> d.package)
  }

  /** The settings that a pending restoration owes: those at the activation that wrote the file. */
  function Owed(k: Keyboard, original: Device, op: Operation): Device {
    match op
    case UserChanges(device) => if k.file.None? then device else original
    case ActivateOp(_) => original
    case RestoreOp(_, _) => original
    case RecoverOp(_, _) => original
  }

  /** `original` is what the user last had: the device when nothing is pending, what the file describes otherwise. */
  predicate Inv(k: Keyboard, original: Device) {
    && Plausible(original)
    && (k.file.None? ==> k.device == original)
    && (k.file.Some? ==> k.file.value == Describe(original) && OnTheWay(k.device, original))
  }

  lemma {:induction false} ExecCut(d: Device, commands: seq<Command>, original: Device, stop: Option<nat>)
    requires Plausible(original) && OnTheWay(d, original)
    requires forall c :: c in commands ==> KeepsOnTheWay(c, original)
    ensures OnTheWay(ExecAll(d, Cut(commands, stop)), original)
    decreases |commands|
  {
    if commands != [] && !(stop.Some? && stop.value == 0) {
      assert commands[0] in commands;
      var rest := if stop.Some? then Some(stop.value - 1) else None;
      ExecCut(Exec(d, commands[0]), commands[1..], original, rest);
      assert Cut(commands, stop) != [] && Cut(commands, stop)[0] == commands[0];
      assert Cut(commands, stop)[1..] == Cut(commands[1..], rest);
    }
  }

  /** The commands that activation and restoration use for this original. */
  predicate KeepsOnTheWay(c: Command, original: Device) {
    match c
    case PmEnable => true
    case PmDisable => !original.package
    case ImeEnable(ime) => ime == ADB_KEYBOARD || original.current == Some(ime)
    case ImeDisable(ime) => ime == ADB_KEYBOARD && ADB_KEYBOARD !in original.enabled
    case ImeSet(ime) => ime == ADB_KEYBOARD || original.current == Some(ime)
    case ImeReset(_) => false
  }

  /** The device behind all restore commands. */
  function Restored(d: Device, s: Saved, fallback: Ime): Device {
    var picked := if s.previous.Some? then d.enabled + {s.previous.value} else d.enabled;
    var dropped := if s.imeWasEnabled then picked else picked - {ADB_KEYBOARD};
    var reset := if s.previous.Some? then dropped else dropped + {fallback};
    Device(Some(if s.previous.Some? then s.previous.value else fallback),
           if s.packageWasEnabled then reset else reset - {ADB_KEYBOARD},
           s.packageWasEnabled && d.package)
  }

  lemma {:induction false} ExecAppend(d: Device, xs: seq<Command>, ys: seq<Command>)
    ensures ExecAll(d, xs + ys) == ExecAll(ExecAll(d, xs), ys)
    decreases |xs|
  {
    if xs == [] {
      assert xs + ys == ys;
    } else {
      assert (xs + ys)[1..] == xs[1..] + ys;
      ExecAppend(Exec(d, xs[0]), xs[1..], ys);
    }
  }

  lemma {:induction false} RestoreOutcome(d: Device, s: Saved, fallback: Ime)
    ensures ExecAll(d, RestoreCommands(s, fallback)) == Restored(d, s, fallback)
  {
    var pick := if s.previous.Some? then [ImeEnable(s.previous.value), ImeSet(s.previous.value)] else [];
    var drop := if s.imeWasEnabled then [] else [ImeDisable(ADB_KEYBOARD)];
    var reset := if s.previous.Some? then [] else [ImeReset(fallback)];
    var pm := if s.packageWasEnabled then [] else [PmDisable];
    assert RestoreCommands(s, fallback) == pick + drop + reset + pm;
    ExecAppend(d, pick + drop + reset, pm);
    ExecAppend(d, pick + drop, reset);
    ExecAppend(d, pick, drop);
    if s.previous.Some? {
      ExecAppend(d, [ImeEnable(s.previous.value)], [ImeSet(s.previous.value)]);
      assert pick == [ImeEnable(s.previous.value)] + [ImeSet(s.previous.value)];
    }
  }

  /**
   * All restore commands in a row bring every setting back, from wherever they start, exactly when there was a
   * default input method and it was enabled (or was the keyboard itself). Without a default `ime reset` picks one.
   */
  lemma {:induction false} RestoreIsExactIff(d: Device, original: Device, fallback: Ime)
    requires (!original.package ==> ADB_KEYBOARD !in original.enabled) && OnTheWay(d, original)
    ensures ExecAll(d, RestoreCommands(Describe(original), fallback)) == original
       <==> original.current.Some?
            && (original.current.value in original.enabled || original.current.value == ADB_KEYBOARD)
  {
    var s := Describe(original);
    RestoreOutcome(d, s, fallback);
    var after := Restored(d, s, fallback);
    forall x | x != ADB_KEYBOARD
      ensures x in d.enabled <==> x in original.enabled
    {
      assert x in d.enabled - {ADB_KEYBOARD} <==> x in original.enabled - {ADB_KEYBOARD};
    }
    if original.current.Some?
      && (original.current.value in original.enabled || original.current.value == ADB_KEYBOARD) {
      assert after.enabled == original.enabled;
    }
  }

  lemma {:induction false} RestoreKeepsInv(k: Keyboard, original: Device, fallback: Ime, stop: Option<nat>)
    requires Inv(k, original)
    ensures Inv(Restore(k, fallback, stop), original)
    ensures Restores(k, stop) ==> Restore(k, fallback, stop) == Keyboard(original, None)
  {
    if k.file.Some? {
      var commands := RestoreCommands(k.file.value, fallback);
      ExecCut(k.device, commands, original, stop);
      RestoreIsExactIff(k.device, original, fallback);
    }
  }

  lemma {:induction false} ActivateKeepsInv(k: Keyboard, original: Device, env: Env)
    requires Inv(k, original)
    ensures Inv(Activate(k, env), original)
  {
    hide ExecAll, Restore, RestoreCommands;
    RestoreKeepsInv(k, original, env.fallback, env.first);
    if Restores(k, env.first) && env.admitted {
      var active := Keyboard(ExecAll(original, Cut(ACTIVATION, env.stop)), Some(Describe(original)));
      ExecCut(original, ACTIVATION, original, env.stop);
      RestoreKeepsInv(active, original, env.fallback, env.undo);
    }
  }

  lemma {:induction false} RecoverKeepsInv(k: Keyboard, original: Device, fallback: Ime, stops: seq<Option<nat>>)
    requires Inv(k, original)
    ensures Inv(Recover(k, fallback, stops), original)
    decreases |stops|
  {
    hide Inv, Restore;
    if stops != [] && k.file.Some? {
      RestoreKeepsInv(k, original, fallback, stops[0]);
      RecoverKeepsInv(Restore(k, fallback, stops[0]), original, fallback, stops[1..]);
    }
  }

  lemma {:induction false} DoKeepsInv(k: Keyboard, original: Device, op: Operation)
    requires Inv(k, original) && (op.UserChanges? ==> Plausible(op.device))
    ensures Inv(Do(k, op), Owed(k, original, op))
  {
    hide Activate, Restore, Recover, Plausible, OnTheWay;
    match op
    case ActivateOp(env) => ActivateKeepsInv(k, original, env);
    case RestoreOp(fallback, stop) => RestoreKeepsInv(k, original, fallback, stop);
    case RecoverOp(fallback, stops) => RecoverKeepsInv(k, original, fallback, stops);
    case UserChanges(device) =>
  }

  // ------------------------------------------------------------- theorems

  predicate PlausibleOps(ops: seq<Operation>) {
    forall op :: op in ops ==> (op.UserChanges? ==> Plausible(op.device))
  }

  /** A run, with the settings the user had last. */
  function Run(d: Device, ops: seq<Operation>): (Keyboard, Device)
    decreases |ops|
  {
    if ops == [] then (Keyboard(d, None), d)
    else
      var (k, original) := Run(d, ops[..|ops| - 1]);
      (Do(k, ops[|ops| - 1]), Owed(k, original, ops[|ops| - 1]))
  }

  /**
   * However activations, crashes, partial restores and reruns follow each other: the recovery file describes the
   * settings before the first activation that is not yet undone, never the temporary ones, and without a file the
   * settings are the user's.
   */
  lemma {:induction false} RunKeepsSettings(d: Device, ops: seq<Operation>)
    requires Plausible(d) && PlausibleOps(ops)
    ensures var (k, original) := Run(d, ops); Inv(k, original)
    decreases |ops|
  {
    hide Inv, Do, Owed, Plausible;
    if ops == [] {
      FreshHolds(d);
    } else {
      var (k, original) := Run(d, ops[..|ops| - 1]);
      RunKeepsSettings(d, ops[..|ops| - 1]);
      assert ops[|ops| - 1] in ops;
      DoKeepsInv(k, original, ops[|ops| - 1]);
    }
  }

  lemma FreshHolds(d: Device)
    requires Plausible(d)
    ensures Inv(Keyboard(d, None), d)
  {}

  /** A completed restore after any run gives the user's settings back: default, enablement and package. */
  lemma {:induction false} CompletedRestoreRestores(d: Device, ops: seq<Operation>, fallback: Ime, stop: Option<nat>)
    requires Plausible(d) && PlausibleOps(ops) && Restores(Run(d, ops).0, stop)
    ensures Restore(Run(d, ops).0, fallback, stop) == Keyboard(Run(d, ops).1, None)
  {
    hide Run, Restore;
    RunKeepsSettings(d, ops);
    RestoreKeepsInv(Run(d, ops).0, Run(d, ops).1, fallback, stop);
  }

  /** A successful activation: the keyboard is enabled and the default, its package too, the rest is as it was. */
  lemma {:induction false} ActivationTakesEffect(k: Keyboard, env: Env)
    requires BecomesActive(k, env)
    ensures var before, after := Restore(k, env.fallback, env.first).device, Activate(k, env);
      && after.device == Device(Some(ADB_KEYBOARD), before.enabled + {ADB_KEYBOARD}, true)
      && after.file == Some(Saved(before.current, before.package, ADB_KEYBOARD in before.enabled))
  {
    hide Restore;
    var d := Restore(k, env.fallback, env.first).device;
    assert ACTIVATION == [PmEnable] + [ImeEnable(ADB_KEYBOARD)] + [ImeSet(ADB_KEYBOARD)];
    ExecAppend(d, [PmEnable] + [ImeEnable(ADB_KEYBOARD)], [ImeSet(ADB_KEYBOARD)]);
    ExecAppend(d, [PmEnable], [ImeEnable(ADB_KEYBOARD)]);
  }

  /** A failed activation whose undoing goes through leaves the user's settings and no file. */
  lemma {:induction false} FailedActivationIsUndone(k: Keyboard, original: Device, env: Env)
    requires Inv(k, original) && Restores(k, env.first) && env.admitted
    requires env.stop.Some? && !env.crashed && env.undo.None?
    ensures Activate(k, env) == Keyboard(original, None)
  {
    hide ExecAll, Restore, RestoreCommands;
    RestoreKeepsInv(k, original, env.fallback, env.first);
    var active := Keyboard(ExecAll(original, Cut(ACTIVATION, env.stop)), Some(Describe(original)));
    ExecCut(original, ACTIVATION, original, env.stop);
    RestoreKeepsInv(active, original, env.fallback, env.undo);
  }

  /** Startup recovery is done exactly when one of its restores completes; the settings are then the user's. */
  lemma {:induction false} RecoveryCompletesIff(k: Keyboard, original: Device, fallback: Ime, stops: seq<Option<nat>>)
    requires Inv(k, original)
    ensures Recover(k, fallback, stops).file.None? <==> k.file.None? || exists i :: 0 <= i < |stops| && stops[i].None?
    ensures Recover(k, fallback, stops).file.None? ==> Recover(k, fallback, stops).device == original
    decreases |stops|
  {
    hide Inv;
    RecoverKeepsInv(k, original, fallback, stops);
    SettledMeansOriginal(Recover(k, fallback, stops), original);
    if stops != [] && k.file.Some? {
      RestoreKeepsInv(k, original, fallback, stops[0]);
      RecoveryCompletesIff(Restore(k, fallback, stops[0]), original, fallback, stops[1..]);
      if i :| 0 <= i < |stops| && stops[i].None? {
        assert i > 0 ==> stops[1..][i - 1].None?;
      }
    }
  }

  lemma SettledMeansOriginal(k: Keyboard, original: Device)
    requires Inv(k, original)
    ensures k.file.None? ==> k.device == original
  {}

  // ----------------------------------------------------------- the manager

  class AdbKeyboardManager {
    var device: Device
    var recovery: Option<Saved>

    ghost function Now(): Keyboard
      reads this
    {
      Keyboard(device, recovery)
    }

    constructor (d: Device)
      ensures Now() == Keyboard(d, None)
    {
      device, recovery := d, None;
    }

    /** Runs commands one after the other until one fails, or the check behind them does. */
    method Execute(commands: seq<Command>, stop: Option<nat>) returns (completed: bool)
      modifies this`device
      ensures device == ExecAll(old(device), Cut(commands, stop)) && completed == stop.None?
    {
      hide Exec;
      completed := stop.None?;
      var run := if stop.Some? && stop.value < |commands| then commands[..stop.value] else commands;
      var i := 0;
      while i < |run|
        invariant 0 <= i <= |run|
        invariant ExecAll(device, run[i..]) == ExecAll(old(device), run)
      {
        assert run[i..][1..] == run[i + 1..];
        device := Exec(device, run[i]);
        i := i + 1;
      }
    }

    method RestoreSettings(fallback: Ime, stop: Option<nat>) returns (done: bool)
      modifies this
      ensures Now() == Restore(old(Now()), fallback, stop) && done == Restores(old(Now()), stop)
    {
      hide ExecAll, RestoreCommands;
      if recovery.None? { return true; }
      done := Execute(RestoreCommands(recovery.value, fallback), stop);
      if done {
        recovery := None;
      }
    }

    method ActivateForPublish(env: Env) returns (active: bool)
      modifies this
      ensures Now() == Activate(old(Now()), env) && (active <==> BecomesActive(old(Now()), env))
    {
      hide ExecAll, RestoreCommands, Restore;
      var settled := RestoreSettings(env.fallback, env.first);
      if !settled || !env.admitted { return false; }
      recovery := Some(Describe(device));
      active := Execute(ACTIVATION, env.stop);
      if !active && !env.crashed {
        var undone := RestoreSettings(env.fallback, env.undo);
      }
    }

    /** Retries until a restore completes or the attempts are used up; `None` stands for the last error. */
    method RecoverOnStartup(fallback: Ime, stops: seq<Option<nat>>) returns (recovered: Option<bool>)
      modifies this
      ensures Now() == Recover(old(Now()), fallback, stops)
      ensures recovered == if old(recovery).None? then Some(false) else if recovery.None? then Some(true) else None
    {
      hide Restore;
      if recovery.None? { return Some(false); }
      var attempt := 0;
      assert stops[0..] == stops;
      while attempt < |stops| && recovery.Some?
        invariant attempt <= |stops|
        invariant Recover(Now(), fallback, stops[attempt..]) == Recover(old(Now()), fallback, stops)
      {
        assert stops[attempt..][1..] == stops[attempt + 1..];
        var done := RestoreSettings(fallback, stops[attempt]);
        attempt := attempt + 1;
      }
      return if recovery.None? then Some(true) else None;
    }
  }
}
