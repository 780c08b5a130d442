/**
 * Who may use the device (mobile/src/client.ts:470-482, 1161-1200, 1380-1538,
 * 2053-2178 and 2258-2317, mobile/src/deployment-manager.ts:472-567,
 * mobile/src/remote-session-peer.ts:1412-1479, mobile/src/ops-session.ts:495-551).
 * The client is single-threaded: every stretch between two awaits is one step.
 */
module Scheduler {
  import opened Common
  import opened TaskQueue

  /** A task whose script may be running; `cleaning` once its cleanup has begun. */
  datatype ActiveTask = ActiveTask(request: Request, launched: bool, cleaning: bool)

  /** How far a deployment is; `sawTask` says that forced stopping found an active task. */
  datatype Stage = Staging | ForceStopping(sawTask: bool) | Draining | ReadyToActivate | Activated

  datatype Deployment = Deployment(id: string, stage: Stage)

  /** What an activation found. */
  datatype Activation = Activation(queued: nat, starting: bool, active: bool)

  /**
   * `executing` holds the executions that have neither become active nor ended. An
   * execution is the queue entry it took: its arrival number tells apart two
   * executions of the same id.
   */
  datatype Client = Client(
    queue: seq<Entry>,
    nextSequence: nat,
    limit: nat,
    known: set<string>,
    isStarting: bool,
    starting: Option<Entry>,
    executing: set<Entry>,
    active: Option<ActiveTask>,
    block: Option<string>,
    deployment: Option<Deployment>,
    lease: bool,
    ops: bool,
    activations: seq<Activation>)

  function NewClient(limit: nat): Client {
    Client([], 0, limit, {}, false, None, {}, None, None, None, false, false, [])
  }

  // ---------------------------------------------------------------- tasks

  function MarkStarting(c: Client, queued: Entry): Client {
    c.(isStarting := true, starting := Some(queued), executing := c.executing + {queued})
  }

  /** The flag falls for any task, the record only for this one. */
  function ClearStarting(c: Client, taskId: string): Client {
    c.(isStarting := false,
       starting := if c.starting.Some? && c.starting.value.request.taskId == taskId then None else c.starting)
  }

  predicate MayStart(c: Client) {
    c.active.None? && !c.isStarting && c.block.None? && !c.lease
  }

  function ProcessNext(c: Client): Client {
    if !MayStart(c) || c.queue == [] then c
    else MarkStarting(c.(queue := c.queue[1..]), c.queue[0])
  }

  function Forget(c: Client, taskId: string): Client {
    c.(known := c.known - {taskId})
  }

  /** A new task; with an active one the queue is looked at again only after the preemption attempt. */
  function Enqueue(c: Client, request: Request): Client {
    if c.block.Some? || request.taskId in c.known then c
    else if |c.queue| >= c.limit && EvictionIndexIsNone(c, request) then c
    else
      var roomy := if |c.queue| >= c.limit then Evict(c, request) else c;
      var queued := roomy.(known := roomy.known + {request.taskId},
                           queue := Insert(roomy.queue, Entry(request, roomy.nextSequence)),
                           nextSequence := roomy.nextSequence + 1);
      if queued.active.Some? then queued else ProcessNext(queued)
  }

  predicate EvictionIndexIsNone(c: Client, request: Request) {
    EvictionIndex(c.queue, request).None?
  }

  function Evict(c: Client, request: Request): Client
    requires !EvictionIndexIsNone(c, request)
  {
    var index := EvictionIndex(c.queue, request).value;
    Forget(c.(queue := RemoveAt(c.queue, index)), c.queue[index].request.taskId)
  }

  function IndexOf(queue: seq<Entry>, taskId: string): (r: Option<nat>)
    ensures r.Some? ==> r.value < |queue| && queue[r.value].request.taskId == taskId
    ensures r.None? ==> forall e :: e in queue ==> e.request.taskId != taskId
  {
    if queue == [] then None
    else if queue[0].request.taskId == taskId then Some(0)
    else
      var later := IndexOf(queue[1..], taskId);
      if later.None? then None else Some(later.value + 1)
  }

  function CancelQueued(c: Client, taskId: string): Client {
    var index := IndexOf(c.queue, taskId);
    if index.None? then c else Forget(c.(queue := RemoveAt(c.queue, index.value)), taskId)
  }

  /** An execution is rejected, expired or finished by the client itself. */
  function FinishStarting(c: Client, execution: Entry): Client {
    if execution !in c.executing then c
    else
      var taskId := execution.request.taskId;
      ClearStarting(Forget(c, taskId), taskId).(executing := c.executing - {execution})
  }

  function BecomeActive(c: Client, execution: Entry): Client {
    if execution !in c.executing then c
    else ClearStarting(c, execution.request.taskId).(executing := c.executing - {execution},
                                                     active := Some(ActiveTask(execution.request, false, false)))
  }

  /**
   * The catch around `executeTask`; a late one comes when its execution is past
   * starting. An id may be delivered again once it is forgotten, so the id alone
   * does not say which execution threw.
   */
  function ExecutorError(c: Client, execution: Entry): Client {
    var taskId := execution.request.taskId;
    ClearStarting(Forget(c, taskId), taskId).(executing := c.executing - {execution})
  }

  function Launched(c: Client): Client {
    if c.active.None? || c.active.value.cleaning then c else c.(active := Some(c.active.value.(launched := true)))
  }

  function BeginCleanup(c: Client): Client {
    if c.active.None? then c else c.(active := Some(c.active.value.(cleaning := true)))
  }

  function FinishCleanup(c: Client): Client {
    if c.active.None? || !c.active.value.cleaning then c
    else Forget(c, c.active.value.request.taskId).(active := None)
  }

  // ------------------------------------------------- lease and operations

  predicate Busy(c: Client) {
    c.active.Some? || c.isStarting || c.ops
  }

  function OpenLease(c: Client): Client {
    if c.block.Some? || Busy(c) || c.lease then c else c.(lease := true)
  }

  function CloseLease(c: Client): Client {
    if !c.lease then c else ProcessNext(c.(lease := false))
  }

  function OpenOps(c: Client): Client {
    if c.block.Some? || c.lease || c.ops then c else c.(ops := true)
  }

  // ----------------------------------------------------------- deployment

  function Ids(queue: seq<Entry>): set<string> {
    set e | e in queue :: e.request.taskId
  }

  /** Blocks intake and cancels what is queued, in one stretch. */
  function StartDeployment(c: Client, id: string): Client {
    if c.deployment.Some? then c
    else c.(deployment := Some(Deployment(id, Staging)), block := Some(id), queue := [],
            known := c.known - Ids(c.queue))
  }

  function SetStage(c: Client, stage: Stage): Client
    requires c.deployment.Some?
  {
    c.(deployment := Some(c.deployment.value.(stage := stage)))
  }

  predicate Idle(c: Client) {
    c.active.None? && !c.isStarting
  }

  /** Staging is done; forced stopping gives up when a task is still starting after its wait. */
  function Staged(c: Client, force: bool): Client {
    if c.deployment.None? || c.deployment.value.stage != Staging then c
    else if !force then SetStage(c, Draining)
    else if c.active.Some? then SetStage(c, ForceStopping(true))
    else if c.isStarting then FailDeployment(c)
    else SetStage(c, ForceStopping(false))
  }

  /** Either way of waiting ends; `stopped` is what stopping the task and restoring the device returned. */
  function StageOver(c: Client, stopped: bool): Client {
    if c.deployment.None? then c
    else
      var stage := c.deployment.value.stage;
      if stage.Draining? then (if Idle(c) then SetStage(c, ReadyToActivate) else c)
      else if stage.ForceStopping? then
        (if stopped && (stage.sawTask ==> c.active.None?) then SetStage(c, ReadyToActivate) else FailDeployment(c))
      else c
  }

  function Activate(c: Client): Client {
    if c.deployment.None? || c.deployment.value.stage != ReadyToActivate then c
    else SetStage(c, Activated).(activations := c.activations + [Activation(|c.queue|, c.isStarting, c.active.Some?)])
  }

  /** Unblocks intake, lets the queue run, and forgets the deployment. */
  function FailDeployment(c: Client): Client {
    if c.deployment.None? then c
    else ProcessNext(c.(block := None)).(deployment := None)
  }

  // ------------------------------------------------------------- all steps

  datatype Step =
    | EnqueueStep(request: Request)
    | ProcessNextStep
    | CancelStep(taskId: string)
    | FinishStartingStep(execution: Entry)
    | BecomeActiveStep(execution: Entry)
    | ExecutorErrorStep(execution: Entry)
    | LaunchedStep
    | BeginCleanupStep
    | FinishCleanupStep
    | OpenLeaseStep
    | CloseLeaseStep
    | OpenOpsStep
    | CloseOpsStep
    | StartDeploymentStep(id: string)
    | StagedStep(force: bool)
    | StageOverStep(stopped: bool)
    | ActivateStep
    | FailDeploymentStep

  function After(c: Client, step: Step): Client {
    match step
    case EnqueueStep(request) => Enqueue(c, request)
    case ProcessNextStep => ProcessNext(c)
    case CancelStep(taskId) => CancelQueued(c, taskId)
    case FinishStartingStep(execution) => FinishStarting(c, execution)
    case BecomeActiveStep(execution) => BecomeActive(c, execution)
    case ExecutorErrorStep(execution) => ExecutorError(c, execution)
    case LaunchedStep => Launched(c)
    case BeginCleanupStep => BeginCleanup(c)
    case FinishCleanupStep => FinishCleanup(c)
    case OpenLeaseStep => OpenLease(c)
    case CloseLeaseStep => CloseLease(c)
    case OpenOpsStep => OpenOps(c)
    case CloseOpsStep => c.(ops := false)
    case StartDeploymentStep(id) => StartDeployment(c, id)
    case StagedStep(force) => Staged(c, force)
    case StageOverStep(stopped) => StageOver(c, stopped)
    case ActivateStep => Activate(c)
    case FailDeploymentStep => FailDeployment(c)
  }

  function Run(c: Client, steps: seq<Step>): Client {
    if steps == [] then c else After(Run(c, steps[..|steps| - 1]), steps[|steps| - 1])
  }

  // ----------------------------------------------------------- invariant

  function SlotIds(starting: Option<Entry>, active: Option<ActiveTask>): set<string> {
    (if starting.Some? then {starting.value.request.taskId} else {})
      + (if active.Some? then {active.value.request.taskId} else {})
  }

  /** One slot, and the known ids are exactly those queued, starting and active. */
  ghost predicate TasksInv(c: Client) {
    && ValidQueue(c.queue, c.nextSequence)
    && |c.queue| <= c.limit
    && (c.isStarting <==> c.starting.Some?)
    && c.executing == (if c.starting.Some? then {c.starting.value} else {})
    && (c.starting.None? || c.active.None?)
    && c.known == Ids(c.queue) + SlotIds(c.starting, c.active)
    && (c.starting.Some? ==> c.starting.value.request.taskId !in Ids(c.queue))
    && (c.active.Some? ==> c.active.value.request.taskId !in Ids(c.queue))
  }

  ghost predicate DeviceInv(c: Client) {
    && (c.lease ==> Idle(c) && !c.ops)
    && (c.block.Some? <==> c.deployment.Some?)
    && (c.block.Some? ==> c.queue == [] && c.block.value == c.deployment.value.id)
    && (c.deployment.Some? ==>
          match c.deployment.value.stage
          case Staging => true
          case Draining => true
          case ForceStopping(sawTask) => if sawTask then !c.isStarting else Idle(c)
          case ReadyToActivate => Idle(c)
          case Activated => Idle(c))
    && (forall a :: a in c.activations ==> a == Activation(0, false, false))
  }

  ghost predicate Inv(c: Client) {
    TasksInv(c) && DeviceInv(c)
  }

  lemma {:induction false} ProcessNextKeepsInv(c: Client)
    requires TasksInv(c) && (c.block.None? || DeviceInv(c))
    ensures TasksInv(ProcessNext(c))
    ensures DeviceInv(c) ==> DeviceInv(ProcessNext(c))
  {
    hide Sorted;
    if MayStart(c) && c.queue != [] {
      RemovalKeepsOrder(c.queue, c.nextSequence, 0);
      assert RemoveAt(c.queue, 0) == c.queue[1..];
      IdsWithout(c.queue, c.nextSequence, 0);
    }
  }

  lemma {:induction false} IdsWithout(queue: seq<Entry>, nextSequence: nat, index: nat)
    requires ValidQueue(queue, nextSequence) && index < |queue|
    ensures Ids(RemoveAt(queue, index)) == Ids(queue) - {queue[index].request.taskId}
    ensures queue[index].request.taskId in Ids(queue)
  {
    RemovalKeepsOrder(queue, nextSequence, index);
    var left := RemoveAt(queue, index);
    assert queue[index] in queue;
    forall id | id in Ids(queue) && id != queue[index].request.taskId
      ensures id in Ids(left)
    {
      var e :| e in queue && e.request.taskId == id;
      assert e in Waiting(left);
    }
    forall id | id in Ids(left)
      ensures id in Ids(queue) && id != queue[index].request.taskId
    {
      var e :| e in left && e.request.taskId == id;
      assert e in Waiting(left);
      var i :| 0 <= i < |queue| && queue[i] == e;
      assert i != index;
    }
  }

  lemma {:induction false} IdsWith(queue: seq<Entry>, nextSequence: nat, request: Request)
    requires ValidQueue(queue, nextSequence) && request.taskId !in Ids(queue)
    ensures Ids(Insert(queue, Entry(request, nextSequence))) == Ids(queue) + {request.taskId}
    ensures ValidQueue(Insert(queue, Entry(request, nextSequence)), nextSequence + 1)
    ensures |Insert(queue, Entry(request, nextSequence))| == |queue| + 1
  {
    InsertedIsValid(queue, nextSequence, request);
    InsertKeepsOrder(queue, Entry(request, nextSequence));
  }

  lemma {:induction false} RemoveKeepsInv(c: Client, index: nat)
    requires Inv(c) && index < |c.queue|
    ensures Inv(Forget(c.(queue := RemoveAt(c.queue, index)), c.queue[index].request.taskId))
  {
    hide ValidQueue;
    RemovalKeepsOrder(c.queue, c.nextSequence, index);
    IdsWithout(c.queue, c.nextSequence, index);
  }

  lemma {:induction false} EnqueueKeepsInv(c: Client, request: Request)
    requires Inv(c)
    ensures Inv(Enqueue(c, request))
  {
    hide ValidQueue, Insert, EvictionIndex, RemoveAt, Ids;
    if c.block.None? && request.taskId !in c.known {
      if |c.queue| < c.limit {
        AddKeepsInv(c, request);
      } else if !EvictionIndexIsNone(c, request) {
        EvictionIsRight(c.queue, c.nextSequence, request);
        RemoveKeepsInv(c, EvictionIndex(c.queue, request).value);
        RoomAfterEviction(c, request);
        AddKeepsInv(Evict(c, request), request);
      }
    }
  }

  lemma {:induction false} RoomAfterEviction(c: Client, request: Request)
    requires Inv(c) && EvictionIndex(c.queue, request).Some?
    ensures |RemoveAt(c.queue, EvictionIndex(c.queue, request).value)| < |c.queue|
  {
    EvictionIsRight(c.queue, c.nextSequence, request);
  }

  lemma {:induction false} AddKeepsInv(c: Client, request: Request)
    requires Inv(c) && c.block.None? && request.taskId !in c.known && |c.queue| < c.limit
    ensures var queued :=
            c.(known := c.known + {request.taskId}, queue := Insert(c.queue, Entry(request, c.nextSequence)),
                             nextSequence := c.nextSequence + 1);
            Inv(queued) && Inv(ProcessNext(queued))
  {
    hide ValidQueue, Insert, ProcessNext;
    IdsWith(c.queue, c.nextSequence, request);
    ProcessNextKeepsInv(c.(known := c.known + {request.taskId},
                           queue := Insert(c.queue, Entry(request, c.nextSequence)),
                           nextSequence := c.nextSequence + 1));
  }

  lemma {:induction false} StartingKeepsInv(c: Client, execution: Entry)
    requires Inv(c)
    ensures Inv(FinishStarting(c, execution)) && Inv(BecomeActive(c, execution))
  {
    hide ValidQueue;
  }

  lemma {:induction false} ActiveKeepsInv(c: Client)
    requires Inv(c)
    ensures Inv(Launched(c)) && Inv(BeginCleanup(c)) && Inv(FinishCleanup(c))
  {
    hide ValidQueue;
  }

  lemma {:induction false} SessionsKeepInv(c: Client)
    requires Inv(c)
    ensures Inv(OpenLease(c)) && Inv(CloseLease(c)) && Inv(OpenOps(c)) && Inv(c.(ops := false))
  {
    hide ValidQueue, ProcessNext;
    ProcessNextKeepsInv(c.(lease := false));
  }

  lemma StartDeploymentKeepsInv(c: Client, id: string)
    requires Inv(c)
    ensures Inv(StartDeployment(c, id))
  {}

  lemma {:induction false} FailDeploymentKeepsInv(c: Client)
    requires Inv(c)
    ensures Inv(FailDeployment(c))
  {
    hide ValidQueue;
  }

  lemma {:induction false} DeploymentKeepsInv(c: Client, force: bool, stopped: bool)
    requires Inv(c)
    ensures Inv(Staged(c, force)) && Inv(StageOver(c, stopped)) && Inv(Activate(c))
  {
    hide ValidQueue, FailDeployment, Ids;
    FailDeploymentKeepsInv(c);
  }

  /** What the catch around an execution would have to check. */
  predicate HarmlessError(c: Client, execution: Entry) {
    if c.starting.Some? then c.starting.value == execution else execution.request.taskId !in c.known
  }

  /**
   * The catch around an execution clears the starting flag whoever is starting. It
   * is harmless exactly when the execution that throws is the one starting, not
   * merely one of the same id, or when nothing is starting and its id is neither
   * queued nor active.
   */
  lemma {:induction false} ExecutorErrorIsSafeIff(c: Client, execution: Entry)
    requires Inv(c)
    ensures Inv(ExecutorError(c, execution)) <==> HarmlessError(c, execution)
  {
    hide ValidQueue;
    var after, taskId := ExecutorError(c, execution), execution.request.taskId;
    if c.starting == Some(execution) {
      assert after.known == Ids(c.queue) + SlotIds(after.starting, after.active);
    } else if c.starting.Some? {
      assert c.starting.value in after.executing;
    } else if taskId !in c.known {
      assert after.known == c.known;
    } else {
      assert taskId !in after.known;
    }
  }

  predicate SafeStep(c: Client, step: Step) {
    step.ExecutorErrorStep? ==> HarmlessError(c, step.execution)
  }

  lemma {:induction false} StepKeepsInv(c: Client, step: Step)
    requires Inv(c) && SafeStep(c, step)
    ensures Inv(After(c, step))
  {
    hide Inv, Enqueue, ProcessNext, CancelQueued, FinishStarting, BecomeActive, ExecutorError, Launched, BeginCleanup,
         FinishCleanup, OpenLease, CloseLease, OpenOps, StartDeployment, Staged, StageOver, Activate, FailDeployment;
    match step
    case EnqueueStep(request) => EnqueueKeepsInv(c, request);
    case ProcessNextStep => ProcessNextWhole(c);
    case CancelStep(taskId) => CancelKeepsInv(c, taskId);
    case FinishStartingStep(execution) => StartingKeepsInv(c, execution);
    case BecomeActiveStep(execution) => StartingKeepsInv(c, execution);
    case ExecutorErrorStep(execution) => ExecutorErrorIsSafeIff(c, execution);
    case LaunchedStep => ActiveKeepsInv(c);
    case BeginCleanupStep => ActiveKeepsInv(c);
    case FinishCleanupStep => ActiveKeepsInv(c);
    case OpenLeaseStep => SessionsKeepInv(c);
    case CloseLeaseStep => SessionsKeepInv(c);
    case OpenOpsStep => SessionsKeepInv(c);
    case CloseOpsStep => SessionsKeepInv(c);
    case StartDeploymentStep(id) => StartDeploymentKeepsInv(c, id);
    case StagedStep(force) => DeploymentKeepsInv(c, force, true);
    case StageOverStep(stopped) => DeploymentKeepsInv(c, true, stopped);
    case ActivateStep => DeploymentKeepsInv(c, true, true);
    case FailDeploymentStep => FailDeploymentKeepsInv(c);
  }

  lemma {:induction false} ProcessNextWhole(c: Client)
    requires Inv(c)
    ensures Inv(ProcessNext(c))
  {
    hide TasksInv, DeviceInv, ProcessNext;
    ProcessNextKeepsInv(c);
  }

  lemma {:induction false} CancelKeepsInv(c: Client, taskId: string)
    requires Inv(c)
    ensures Inv(CancelQueued(c, taskId))
  {
    hide Inv, RemoveAt, Forget;
    var index := IndexOf(c.queue, taskId);
    if index.Some? {
      RemoveKeepsInv(c, index.value);
    }
  }

  // ------------------------------------------------------------- theorems

  /**
   * Every execution that throws does so while it is the one starting, or with nothing starting and
   * its id forgotten.
   */
  predicate SafeRun(c: Client, steps: seq<Step>) {
    forall i :: 0 <= i < |steps| ==> SafeStep(Run(c, steps[..i]), steps[i])
  }

  /** In every reachable state the device has one user, and the bookkeeping is exact. */
  lemma {:induction false} RunIsSafe(limit: nat, steps: seq<Step>)
    requires SafeRun(NewClient(limit), steps)
    ensures Inv(Run(NewClient(limit), steps))
    decreases |steps|
  {
    hide After, SafeStep;
    if steps != [] {
      var prefix := steps[..|steps| - 1];
      assert forall i :: 0 <= i <= |prefix| ==> prefix[..i] == steps[..i];
      RunIsSafe(limit, prefix);
      StepKeepsInv(Run(NewClient(limit), prefix), steps[|steps| - 1]);
    }
  }

  /** The same, in the words of the source's own variables. */
  lemma {:induction false} OneUserOfTheDevice(limit: nat, steps: seq<Step>)
    requires SafeRun(NewClient(limit), steps)
    ensures var c := Run(NewClient(limit), steps);
            && !(c.isStarting && c.active.Some?)
            && |c.executing| <= 1 && (c.active.Some? ==> c.executing == {})
            && (c.lease ==> c.active.None? && !c.isStarting && !c.ops)
            && c.known == Ids(c.queue) + SlotIds(c.starting, c.active)
            && (c.block.Some? ==> c.queue == [])
            && |c.queue| <= limit
            && forall a :: a in c.activations ==> a == Activation(0, false, false)
  {
    hide Run, SafeRun;
    RunIsSafe(limit, steps);
    LimitStays(NewClient(limit), steps);
  }

  lemma ProcessNextKeepsLimit(c: Client)
    ensures ProcessNext(c).limit == c.limit
  {}

  lemma {:induction false} StepKeepsLimit(c: Client, step: Step)
    ensures After(c, step).limit == c.limit
  {
    hide IndexOf, Insert, EvictionIndex, RemoveAt, MayStart, ProcessNext, Ids, Busy, Idle;
    ProcessNextKeepsLimit(c);
    ProcessNextKeepsLimit(c.(lease := false));
    ProcessNextKeepsLimit(c.(block := None));
    if step.EnqueueStep? && !(|c.queue| >= c.limit && EvictionIndexIsNone(c, step.request)) {
      var roomy := if |c.queue| >= c.limit then Evict(c, step.request) else c;
      ProcessNextKeepsLimit(roomy.(known := roomy.known + {step.request.taskId},
                                   queue := Insert(roomy.queue, Entry(step.request, roomy.nextSequence)),
                                   nextSequence := roomy.nextSequence + 1));
    }
  }

  lemma {:induction false} LimitStays(c: Client, steps: seq<Step>)
    ensures Run(c, steps).limit == c.limit
    decreases |steps|
  {
    hide After;
    if steps != [] {
      LimitStays(c, steps[..|steps| - 1]);
      StepKeepsLimit(Run(c, steps[..|steps| - 1]), steps[|steps| - 1]);
    }
  }

  // ------------------------------------------------------- which task starts

  /** When a task may start, the best of those waiting does, and it alone leaves the queue. */
  lemma {:induction false} BestStarts(c: Client)
    requires ValidQueue(c.queue, c.nextSequence) && MayStart(c) && c.queue != []
    ensures var after := ProcessNext(c);
      && after.starting.Some? && after.isStarting && after.executing == c.executing + {after.starting.value}
      && IsBest(after.starting.value, Waiting(c.queue))
      && Waiting(after.queue) == Waiting(c.queue) - {after.starting.value}
      && |after.queue| == |c.queue| - 1
      && after == c.(queue := after.queue, isStarting := true, starting := after.starting,
                     executing := after.executing)
  {
    HeadIsBest(c.queue);
    RemovalKeepsOrder(c.queue, c.nextSequence, 0);
    assert RemoveAt(c.queue, 0) == c.queue[1..];
  }

  lemma NothingMayStart(c: Client)
    requires !MayStart(c) || c.queue == []
    ensures ProcessNext(c) == c
  {}

  /** A step starts a task: before it nothing was starting. */
  predicate Starts(c: Client, after: Client) {
    after.starting.Some? && after.starting != c.starting
  }

  /** The task that started was the best of those that waited for it. */
  ghost predicate BestStarted(after: Client) {
    after.starting.Some? && IsBest(after.starting.value, Waiting(after.queue) + {after.starting.value})
  }

  lemma {:induction false} NextIsBest(c: Client)
    requires ValidQueue(c.queue, c.nextSequence)
    ensures Starts(c, ProcessNext(c)) ==> BestStarted(ProcessNext(c))
  {
    hide ProcessNext, IsBest, Sorted;
    if MayStart(c) && c.queue != [] {
      BestStarts(c);
      var e := ProcessNext(c).starting.value;
      assert e in Waiting(c.queue) by { BestIsWaiting(e, Waiting(c.queue)); }
      assert Waiting(ProcessNext(c).queue) + {e} == Waiting(c.queue);
    } else {
      NothingMayStart(c);
    }
  }

  lemma BestIsWaiting(e: Entry, waiting: set<Entry>)
    requires IsBest(e, waiting)
    ensures e in waiting
  {}

  lemma {:induction false} EnqueueStartsBest(c: Client, request: Request)
    requires Inv(c)
    ensures Starts(c, Enqueue(c, request)) ==> BestStarted(Enqueue(c, request))
  {
    hide ValidQueue, Insert, EvictionIndex, RemoveAt, Ids, ProcessNext, BestStarted;
    if c.block.None? && request.taskId !in c.known {
      if |c.queue| < c.limit {
        AddedStartsBest(c, request);
      } else if !EvictionIndexIsNone(c, request) {
        EvictionIsRight(c.queue, c.nextSequence, request);
        RemoveKeepsInv(c, EvictionIndex(c.queue, request).value);
        RoomAfterEviction(c, request);
        AddedStartsBest(Evict(c, request), request);
      }
    }
  }

  lemma {:induction false} AddedStartsBest(c: Client, request: Request)
    requires Inv(c) && c.block.None? && request.taskId !in c.known && |c.queue| < c.limit
    ensures var queued :=
            c.(known := c.known + {request.taskId}, queue := Insert(c.queue, Entry(request, c.nextSequence)),
               nextSequence := c.nextSequence + 1);
            Starts(c, ProcessNext(queued)) ==> BestStarted(ProcessNext(queued))
  {
    hide ValidQueue, Insert, ProcessNext, BestStarted;
    IdsWith(c.queue, c.nextSequence, request);
    NextIsBest(c.(known := c.known + {request.taskId},
                  queue := Insert(c.queue, Entry(request, c.nextSequence)),
                  nextSequence := c.nextSequence + 1));
  }

  /** Whatever the step, what it starts was the best of all that waited at that moment. */
  lemma {:induction false} StepStartsBest(c: Client, step: Step)
    requires Inv(c)
    ensures Starts(c, After(c, step)) ==> BestStarted(After(c, step))
  {
    hide Inv, Enqueue, ProcessNext, BestStarted, ValidQueue, Insert, RemoveAt, Ids, IndexOf;
    assert ValidQueue(c.queue, c.nextSequence) by { InvQueue(c); }
    NextIsBest(c);
    NextIsBest(c.(lease := false));
    NextIsBest(c.(block := None));
    match step
    case EnqueueStep(request) => EnqueueStartsBest(c, request);
    case FailDeploymentStep => FailedStartsBest(c);
    case StagedStep(_) => FailedStartsBest(c);
    case StageOverStep(_) => FailedStartsBest(c);
    case _ =>
  }

  lemma InvQueue(c: Client)
    requires Inv(c)
    ensures ValidQueue(c.queue, c.nextSequence)
  {}

  lemma {:induction false} FailedStartsBest(c: Client)
    requires ValidQueue(c.queue, c.nextSequence)
    ensures Starts(c, FailDeployment(c)) ==> BestStarted(FailDeployment(c))
  {
    hide ProcessNext, ValidQueue;
    NextIsBest(c.(block := None));
  }

  /** Over a run: each task that starts is, at that moment, the best of those waiting. */
  lemma {:induction false} RunStartsBest(limit: nat, steps: seq<Step>, i: nat)
    requires SafeRun(NewClient(limit), steps) && i < |steps|
    ensures var before, after := Run(NewClient(limit), steps[..i]), Run(NewClient(limit), steps[..i + 1]);
      Starts(before, after) ==> BestStarted(after)
  {
    hide After, SafeStep, Inv, BestStarted;
    assert forall j :: 0 <= j <= i ==> steps[..i][..j] == steps[..j];
    RunIsSafe(limit, steps[..i]);
    StepStartsBest(Run(NewClient(limit), steps[..i]), steps[i]);
    RunNext(NewClient(limit), steps[..i], steps[i]);
    assert steps[..i] + [steps[i]] == steps[..i + 1];
  }

  /** The slot is never left empty by the steps that look at the queue. */
  lemma {:induction false} LookingStarts(c: Client)
    requires c.active.None? && !c.isStarting && c.queue != []
    ensures c.block.None? && !c.lease ==> After(c, ProcessNextStep).isStarting
    ensures c.block.None? && c.lease ==> After(c, CloseLeaseStep).isStarting
    ensures c.deployment.Some? && !c.lease ==> After(c, FailDeploymentStep).isStarting
  {}

  // ------------------------------------------------- a throw that comes late

  function Task(taskId: string): Request {
    Request(taskId, Normal, false)
  }

  function Execution(taskId: string, sequence: nat): Entry {
    Entry(Task(taskId), sequence)
  }

  /**
   * Task a runs to its end, a second task starts, c waits; then the execution of a
   * throws and c starts as well. The second task may be a itself, delivered again.
   */
  function LateThrow(second: string): seq<Step> {
    [EnqueueStep(Task("a")), BecomeActiveStep(Execution("a", 0)), BeginCleanupStep, FinishCleanupStep,
     EnqueueStep(Task(second)), EnqueueStep(Task("c")), ExecutorErrorStep(Execution("a", 0)), ProcessNextStep,
     BecomeActiveStep(Execution("c", 2))]
  }

  lemma {:induction false} RunNext(c: Client, steps: seq<Step>, step: Step)
    ensures Run(c, steps + [step]) == After(Run(c, steps), step)
  {
    hide After;
    assert (steps + [step])[..|steps|] == steps;
  }

  /** The client with task a starting, active, being cleaned up, gone; then the second starts, and c waits. */
  function Scene(limit: nat, second: string, k: nat): Client {
    var idle := NewClient(limit);
    var first := idle.(nextSequence := 1, known := {"a"});
    var behind := idle.(nextSequence := 2, known := {second}, isStarting := true,
                        starting := Some(Execution(second, 1)), executing := {Execution(second, 1)});
    match k
    case 0 => idle
    case 1 => first.(isStarting := true, starting := Some(Execution("a", 0)), executing := {Execution("a", 0)})
    case 2 => first.(active := Some(ActiveTask(Task("a"), false, false)))
    case 3 => first.(active := Some(ActiveTask(Task("a"), false, true)))
    case 4 => idle.(nextSequence := 1)
    case 5 => behind
    case _ => behind.(nextSequence := 3, known := {second, "c"}, queue := [Execution("c", 2)])
  }

  lemma {:induction false} NextScene(limit: nat, second: string, k: nat)
    requires limit >= 1 && second != "c" && k < 6
    ensures After(Scene(limit, second, k), LateThrow(second)[k]) == Scene(limit, second, k + 1)
  {
    if k == 0 {
      Enqueued(limit, second, 0, "a");
    } else if k == 4 {
      Enqueued(limit, second, 4, second);
    } else if k == 5 {
    } else {
      hide Insert, EvictionIndex;
    }
  }

  /** A task that comes to an idle client starts at once. */
  lemma Enqueued(limit: nat, second: string, k: nat, taskId: string)
    requires limit >= 1 && (k == 0 || k == 4)
    ensures var c := Scene(limit, second, k);
      Enqueue(c, Task(taskId)) == c.(nextSequence := c.nextSequence + 1, known := {taskId}, isStarting := true,
                                     starting := Some(Execution(taskId, c.nextSequence)),
                                     executing := {Execution(taskId, c.nextSequence)})
  {
  }

  lemma {:induction false} SceneIsReached(limit: nat, second: string, k: nat)
    requires limit >= 1 && second != "c" && k <= 6
    ensures Run(NewClient(limit), LateThrow(second)[..k]) == Scene(limit, second, k)
  {
    hide After, Scene;
    var all := LateThrow(second);
    if k == 0 {
      assert all[..0] == [] && Scene(limit, second, 0) == NewClient(limit) by { FreshScene(limit, second); }
    } else {
      SceneIsReached(limit, second, k - 1);
      NextScene(limit, second, k - 1);
      RunNext(NewClient(limit), all[..k - 1], all[k - 1]);
      assert all[..k] == all[..k - 1] + [all[k - 1]];
    }
  }

  lemma FreshScene(limit: nat, second: string)
    ensures Scene(limit, second, 0) == NewClient(limit) && LateThrow(second)[..0] == []
  {
  }

  lemma {:induction false} SecondStarts(limit: nat, second: string)
    requires limit >= 1 && second != "c"
    ensures var c := Run(NewClient(limit), LateThrow(second)[..6]);
      && c.starting == Some(Execution(second, 1)) && c.executing == {Execution(second, 1)}
      && c.active.None? && c.block.None? && !c.lease && c.queue == [Execution("c", 2)]
  {
    hide Run;
    SceneIsReached(limit, second, 6);
  }

  /**
   * From an empty client, with room for one waiting task: after these nine steps
   * task c is active while the second execution is still starting, whether it is
   * of another task or of a again. The throw is the one step that is not safe.
   */
  lemma {:induction false} LateExecutorErrorRunsTwo(limit: nat, second: string)
    requires limit >= 1 && second != "c"
    ensures var c := Run(NewClient(limit), LateThrow(second));
      && c.active == Some(ActiveTask(Task("c"), false, false)) && c.executing == {Execution(second, 1)}
    ensures !HarmlessError(Run(NewClient(limit), LateThrow(second)[..6]), Execution("a", 0))
  {
    SecondStarts(limit, second);
    var all, c0 := LateThrow(second), NewClient(limit);
    var c6 := Run(c0, all[..6]);
    var c7, c8 := After(c6, all[6]), After(After(c6, all[6]), all[7]);
    assert c7.executing == {Execution(second, 1)} && !c7.isStarting;
    assert c8.executing == {Execution(second, 1), Execution("c", 2)} && c8.starting == Some(Execution("c", 2));
    assert After(c8, all[8]).executing == {Execution(second, 1)};
    hide After, HarmlessError;
    assert all[..7] == all[..6] + [all[6]] && all[..8] == all[..7] + [all[7]] && all == all[..8] + [all[8]];
    RunNext(c0, all[..6], all[6]);
    RunNext(c0, all[..7], all[7]);
    RunNext(c0, all[..8], all[8]);
  }

  // ----------------------------------------------------------- the client

  /** The client's module-level variables and the stretches of code that assign them. */
  class MobileClient {
    const queueLimit: nat
    var taskQueue: seq<Entry>
    var queueSequence: nat
    var queuedTaskIds: set<string>
    var isStartingTask: bool
    var startingTask: Option<Entry>
    ghost var executing: set<Entry>
    var activeTask: Option<ActiveTask>
    var deploymentBlockId: Option<string>
    var currentDeployment: Option<Deployment>
    var remoteLease: bool
    var opsSession: bool
    ghost var activations: seq<Activation>

    ghost function Now(): Client
      reads this
    {
      Client(taskQueue, queueSequence, queueLimit, queuedTaskIds, isStartingTask, startingTask, executing, activeTask,
             deploymentBlockId, currentDeployment, remoteLease, opsSession, activations)
    }

    constructor (limit: nat)
      ensures Now() == NewClient(limit)
    {
      queueLimit := limit;
      taskQueue, queueSequence, queuedTaskIds := [], 0, {};
      isStartingTask, startingTask, executing, activeTask := false, None, {}, None;
      deploymentBlockId, currentDeployment := None, None;
      remoteLease, opsSession, activations := false, false, [];
    }

    method MarkTaskStarting(queued: Entry)
      modifies this
      ensures Now() == MarkStarting(old(Now()), queued)
    {
      isStartingTask, startingTask := true, Some(queued);
      executing := executing + {queued};
    }

    method ClearTaskStarting(taskId: string)
      modifies this
      ensures Now() == ClearStarting(old(Now()), taskId)
    {
      if startingTask.Some? && startingTask.value.request.taskId == taskId {
        startingTask := None;
      }
      isStartingTask := false;
    }

    method ProcessNextTask()
      modifies this
      ensures Now() == ProcessNext(old(Now()))
    {
      if activeTask.Some? || isStartingTask || deploymentBlockId.Some? || remoteLease { return; }
      if taskQueue != [] {
        var queued := taskQueue[0];
        taskQueue := taskQueue[1..];
        MarkTaskStarting(queued);
      }
    }

    method EnqueueTask(request: Request)
      modifies this
      ensures Now() == Enqueue(old(Now()), request)
    {
      hide EvictionIndex, Insert, RemoveAt, ProcessNext;
      if deploymentBlockId.Some? { return; }
      if request.taskId in queuedTaskIds { return; }
      if |taskQueue| >= queueLimit {
        var evictionIndex := EvictionIndex(taskQueue, request);
        if evictionIndex.None? { return; }
        var evicted := taskQueue[evictionIndex.value];
        taskQueue := RemoveAt(taskQueue, evictionIndex.value);
        queuedTaskIds := queuedTaskIds - {evicted.request.taskId};
      }
      queuedTaskIds := queuedTaskIds + {request.taskId};
      taskQueue := Insert(taskQueue, Entry(request, queueSequence));
      queueSequence := queueSequence + 1;
      if activeTask.None? {
        ProcessNextTask();
      }
    }

    method CancelQueuedTask(taskId: string)
      modifies this
      ensures Now() == CancelQueued(old(Now()), taskId)
    {
      var queuedIndex := IndexOf(taskQueue, taskId);
      if queuedIndex.Some? {
        taskQueue := RemoveAt(taskQueue, queuedIndex.value);
        queuedTaskIds := queuedTaskIds - {taskId};
      }
    }

    /** The end of an execution that never became active. */
    method RejectQueuedTask(execution: Entry)
      requires execution in executing
      modifies this
      ensures Now() == FinishStarting(old(Now()), execution)
    {
      queuedTaskIds := queuedTaskIds - {execution.request.taskId};
      ClearTaskStarting(execution.request.taskId);
      executing := executing - {execution};
    }

    method TaskBecomesActive(execution: Entry)
      requires execution in executing
      modifies this
      ensures Now() == BecomeActive(old(Now()), execution)
    {
      activeTask := Some(ActiveTask(execution.request, false, false));
      ClearTaskStarting(execution.request.taskId);
      executing := executing - {execution};
    }

    /** The catch around an execution. */
    method ExecutionThrew(execution: Entry)
      modifies this
      ensures Now() == ExecutorError(old(Now()), execution)
    {
      queuedTaskIds := queuedTaskIds - {execution.request.taskId};
      ClearTaskStarting(execution.request.taskId);
      executing := executing - {execution};
    }

    method CleanupActiveTask()
      modifies this
      ensures Now() == FinishCleanup(old(Now()))
    {
      if activeTask.None? || !activeTask.value.cleaning { return; }
      queuedTaskIds := queuedTaskIds - {activeTask.value.request.taskId};
      activeTask := None;
    }

    method OpenRemoteLease() returns (accepted: bool)
      modifies this
      ensures Now() == OpenLease(old(Now())) && (accepted <==> remoteLease && !old(remoteLease))
    {
      if deploymentBlockId.Some? { return false; }
      if activeTask.Some? || isStartingTask || opsSession { return false; }
      if remoteLease { return false; }
      remoteLease := true;
      return true;
    }

    method CloseRemoteLease()
      modifies this
      ensures Now() == CloseLease(old(Now()))
    {
      if !remoteLease { return; }
      remoteLease := false;
      ProcessNextTask();
    }

    method OpenOpsSession() returns (accepted: bool)
      modifies this
      ensures Now() == OpenOps(old(Now())) && (accepted <==> opsSession && !old(opsSession))
    {
      if deploymentBlockId.Some? || remoteLease || opsSession { return false; }
      opsSession := true;
      return true;
    }

    method CancelQueuedTasksForDeployment()
      modifies this`taskQueue, this`queuedTaskIds
      ensures taskQueue == [] && queuedTaskIds == old(queuedTaskIds) - Ids(old(taskQueue))
    {
      while |taskQueue| > 0
        invariant queuedTaskIds - Ids(taskQueue) == old(queuedTaskIds) - Ids(old(taskQueue))
        decreases |taskQueue|
      {
        var queued := taskQueue[0];
        assert taskQueue == [queued] + taskQueue[1..];
        assert Ids(taskQueue) == {queued.request.taskId} + Ids(taskQueue[1..]);
        taskQueue := taskQueue[1..];
        queuedTaskIds := queuedTaskIds - {queued.request.taskId};
      }
    }

    method HandleDeployment(id: string) returns (accepted: bool)
      modifies this
      ensures Now() == StartDeployment(old(Now()), id) && (accepted <==> old(currentDeployment).None?)
    {
      if currentDeployment.Some? { return false; }
      currentDeployment := Some(Deployment(id, Staging));
      deploymentBlockId := Some(id);
      CancelQueuedTasksForDeployment();
      return true;
    }

    method UnblockTaskIntake()
      requires currentDeployment.Some? && deploymentBlockId == Some(currentDeployment.value.id)
      modifies this
      ensures Now() == FailDeployment(old(Now()))
    {
      deploymentBlockId := None;
      ProcessNextTask();
      currentDeployment := None;
    }
  }
}
