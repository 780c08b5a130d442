/**
 * What the scheduler does with each task and each session: when a task is taken
 * in, exactly how a waiting task leaves the queue, and that a task and a
 * deployment that meet no obstacle run to their end.
 */
module SchedulerOutcomes {
  import opened Common
  import opened Scheduler
  import opened TaskQueue

  // ------------------------------------------------------------ taking in

  /** There is room, or a HIGH arrival finds a waiting task that is not. */
  predicate RoomFor(c: Client, request: Request) {
    |c.queue| < c.limit || (request.priority == High && exists e :: e in c.queue && e.request.priority != High)
  }

  predicate TakesIn(c: Client, request: Request) {
    c.block.None? && request.taskId !in c.known && RoomFor(c, request)
  }

  /** The queue with its victim out, when it has to make room. */
  function Roomy(c: Client, request: Request): Client
    requires |c.queue| >= c.limit ==> EvictionIndex(c.queue, request).Some?
  {
    if |c.queue| >= c.limit then Evict(c, request) else c
  }

  function Added(c: Client, request: Request): Client {
    c.(known := c.known + {request.taskId}, queue := Insert(c.queue, Entry(request, c.nextSequence)),
       nextSequence := c.nextSequence + 1)
  }

  lemma {:induction false} EnqueueIs(c: Client, request: Request)
    requires Inv(c)
    ensures !TakesIn(c, request) ==> Enqueue(c, request) == c
    ensures TakesIn(c, request) ==>
      && (|c.queue| >= c.limit ==> EvictionIndex(c.queue, request).Some?)
      && var added := Added(Roomy(c, request), request);
      Enqueue(c, request) == if c.active.Some? then added else ProcessNext(added)
  {
    hide ValidQueue, Insert, ProcessNext, EvictionIndex, Ids;
    QueueIsValid(c);
    EvictionIsRight(c.queue, c.nextSequence, request);
  }

  lemma QueueIsValid(c: Client)
    requires Inv(c)
    ensures ValidQueue(c.queue, c.nextSequence)
    ensures forall e :: e in c.queue ==> c.starting != Some(e)
  {
    if c.starting.Some? {
      forall e | e in c.queue ensures e != c.starting.value {
        assert e.request.taskId in Ids(c.queue);
      }
    }
  }

  lemma {:induction false} RoomyFacts(c: Client, request: Request)
    requires Inv(c) && TakesIn(c, request) && (|c.queue| >= c.limit ==> EvictionIndex(c.queue, request).Some?)
    ensures var roomy := Roomy(c, request);
      && Inv(roomy) && |roomy.queue| < roomy.limit && roomy.limit == c.limit && request.taskId !in roomy.known
      && roomy == c.(queue := roomy.queue, known := roomy.known)
    ensures forall e :: e in c.queue ==>
      (e !in Roomy(c, request).queue <==> |c.queue| >= c.limit && IsVictim(e, Waiting(c.queue)))
    ensures Waiting(Roomy(c, request).queue) <= Waiting(c.queue)
  {
    hide ValidQueue, Ids, IsVictim, EvictionIndex, RemoveAt;
    QueueIsValid(c);
    if |c.queue| >= c.limit {
      var index := EvictionIndex(c.queue, request).value;
      EvictionIsRight(c.queue, c.nextSequence, request);
      RemoveKeepsInv(c, index);
      RoomAfterEviction(c, request);
      RemovalKeepsOrder(c.queue, c.nextSequence, index);
      forall e | e in c.queue
        ensures e !in RemoveAt(c.queue, index) <==> IsVictim(e, Waiting(c.queue))
      {
        assert e in Waiting(c.queue) && (e in RemoveAt(c.queue, index) <==> e in Waiting(RemoveAt(c.queue, index)));
        OneVictim(e, c.queue[index], Waiting(c.queue));
      }
    }
  }

  lemma OneVictim(e: Entry, victim: Entry, waiting: set<Entry>)
    requires IsVictim(victim, waiting)
    ensures IsVictim(e, waiting) <==> e == victim
  {}

  lemma {:induction false} AddedFacts(c: Client, request: Request)
    requires Inv(c) && c.block.None? && request.taskId !in c.known && |c.queue| < c.limit
    ensures var added := Added(c, request);
      && ValidQueue(added.queue, added.nextSequence)
      && Waiting(added.queue) == Waiting(c.queue) + {Entry(request, c.nextSequence)}
      && |added.queue| == |c.queue| + 1
    ensures forall e :: e in Added(c, request).queue ==> c.starting != Some(e)
  {
    hide Insert, Sorted;
    AddKeepsInv(c, request);
    QueueIsValid(c);
    forall e | e in c.queue ensures e.request.taskId != request.taskId {
      assert e.request.taskId in Ids(c.queue);
    }
    InsertedIsValid(c.queue, c.nextSequence, request);
    IdsWith(c.queue, c.nextSequence, request);
    QueueIsValid(Added(c, request));
  }

  /** Looking at the queue takes exactly what starts. */
  lemma {:induction false} NextTakes(c: Client, e: Entry)
    requires ValidQueue(c.queue, c.nextSequence) && c.starting != Some(e) && e in c.queue
    ensures e !in ProcessNext(c).queue <==> ProcessNext(c).starting == Some(e)
  {
    hide ProcessNext, ValidQueue, IsBest;
    if MayStart(c) {
      BestStarts(c);
      assert e in Waiting(c.queue) && (e in ProcessNext(c).queue <==> e in Waiting(ProcessNext(c).queue));
    } else {
      NothingMayStart(c);
    }
  }

  /**
   * A delivered task is taken in exactly when intake is open, its id is unknown and
   * there is room; it then waits or starts, and otherwise nothing changes.
   */
  lemma {:induction false} EnqueueOutcome(c: Client, request: Request)
    requires Inv(c)
    ensures var after, incoming := Enqueue(c, request), Entry(request, c.nextSequence);
      if TakesIn(c, request) then
        && after.nextSequence == c.nextSequence + 1 && request.taskId in after.known
        && (incoming in after.queue || after.starting == Some(incoming))
        && (MayStart(c) && c.queue == [] ==> after.starting == Some(incoming))
      else after == c
  {
    hide ValidQueue, Insert, ProcessNext, EvictionIndex, Ids, RemoveAt, Inv;
    EnqueueIs(c, request);
    if TakesIn(c, request) {
      RoomyFacts(c, request);
      var roomy, incoming := Roomy(c, request), Entry(request, c.nextSequence);
      var added := Added(roomy, request);
      AddedFacts(roomy, request);
      assert incoming in Waiting(added.queue);
      NextTakes(added, incoming);
      NextKeepsBooks(added);
      if MayStart(c) && c.queue == [] {
        assert Waiting(added.queue) == {incoming};
        BestStarts(added);
        BestIsWaiting(ProcessNext(added).starting.value, {incoming});
      }
    }
  }

  lemma NextKeepsBooks(c: Client)
    ensures ProcessNext(c).nextSequence == c.nextSequence && ProcessNext(c).known == c.known
  {}

  // ---------------------------------------------------- leaving the queue

  /** The ways out of the queue other than being started. */
  ghost predicate IsDropped(c: Client, step: Step, e: Entry) {
    match step
    case CancelStep(taskId) => taskId == e.request.taskId
    case StartDeploymentStep(_) => c.deployment.None?
    case EnqueueStep(request) =>
      TakesIn(c, request) && |c.queue| >= c.limit && IsVictim(e, Waiting(c.queue))
    case _ => false
  }

  lemma {:induction false} EnqueueDrops(c: Client, request: Request, e: Entry)
    requires Inv(c) && e in c.queue
    ensures var after := Enqueue(c, request);
      e !in after.queue <==>
      after.starting == Some(e) || (TakesIn(c, request) && |c.queue| >= c.limit && IsVictim(e, Waiting(c.queue)))
  {
    hide ValidQueue, Insert, ProcessNext, EvictionIndex, Ids, RemoveAt, Inv, TakesIn, IsVictim;
    EnqueueIs(c, request);
    QueueIsValid(c);
    if TakesIn(c, request) {
      assert c.block.None? && request.taskId !in c.known by { TakesInFacts(c, request); }
      RoomyFacts(c, request);
      var roomy := Roomy(c, request);
      var added := Added(roomy, request);
      AddedFacts(roomy, request);
      NewerThanAll(c, e);
      assert e in added.queue <==> e in Waiting(added.queue);
      assert e in roomy.queue <==> e in Waiting(roomy.queue);
      if e in added.queue {
        NextTakes(added, e);
      } else {
        NextTakesOneOf(added, e);
      }
    }
  }

  lemma TakesInFacts(c: Client, request: Request)
    requires TakesIn(c, request)
    ensures c.block.None? && request.taskId !in c.known
  {}

  lemma NewerThanAll(c: Client, e: Entry)
    requires Inv(c) && e in c.queue
    ensures e.sequence < c.nextSequence
  {}

  lemma {:induction false} NextTakesOneOf(c: Client, e: Entry)
    requires ValidQueue(c.queue, c.nextSequence) && c.starting != Some(e) && e !in c.queue
    ensures e !in ProcessNext(c).queue && ProcessNext(c).starting != Some(e)
  {}

  lemma {:induction false} CancelDrops(c: Client, taskId: string, e: Entry)
    requires Inv(c) && e in c.queue
    ensures e !in CancelQueued(c, taskId).queue <==> taskId == e.request.taskId
    ensures CancelQueued(c, taskId).starting == c.starting
  {
    hide Ids, RemoveAt, IndexOf;
    QueueIsValid(c);
    var index := IndexOf(c.queue, taskId);
    if index.Some? {
      RemovalKeepsOrder(c.queue, c.nextSequence, index.value);
      var left := RemoveAt(c.queue, index.value);
      assert e in left <==> e in Waiting(left);
      assert e in Waiting(c.queue);
    }
  }

  lemma {:induction false} FailureDrops(c: Client, e: Entry)
    requires Inv(c) && e in c.queue
    ensures e !in FailDeployment(c).queue <==> FailDeployment(c).starting == Some(e)
  {
    hide ProcessNext, ValidQueue;
    QueueIsValid(c);
    NextTakes(c.(block := None), e);
  }

  /**
   * No task is lost: a step takes a waiting task out of the queue exactly when it
   * starts it, cancels it by its id, begins a deployment, or makes room for a HIGH
   * task and this is the oldest one of the lowest priority.
   */
  lemma {:induction false} LeavesIff(c: Client, step: Step, e: Entry)
    requires Inv(c) && e in c.queue
    ensures e !in After(c, step).queue <==> After(c, step).starting == Some(e) || IsDropped(c, step, e)
  {
    hide Inv, Enqueue, ProcessNext, ValidQueue, CancelQueued, FailDeployment, Ids, TakesIn, IsVictim;
    QueueIsValid(c);
    match step
    case EnqueueStep(request) => EnqueueDrops(c, request, e);
    case ProcessNextStep => NextTakes(c, e);
    case CancelStep(taskId) => CancelDrops(c, taskId, e);
    case CloseLeaseStep => NextTakes(c.(lease := false), e);
    case StagedStep(_) => FailureDrops(c, e);
    case StageOverStep(_) => FailureDrops(c, e);
    case FailDeploymentStep => FailureDrops(c, e);
    case _ =>
  }

  /** The end of an execution that never became active frees the slot and forgets the id; the queue waits on. */
  lemma {:induction false} StartingEnds(c: Client, execution: Entry)
    requires Inv(c) && c.starting == Some(execution)
    ensures After(c, FinishStartingStep(execution))
         == c.(isStarting := false, starting := None, executing := {}, known := Ids(c.queue))
  {
    hide ValidQueue, Ids;
    assert execution.request.taskId !in Ids(c.queue);
    assert Ids(c.queue) + {execution.request.taskId} - {execution.request.taskId} == Ids(c.queue);
    assert {execution} - {execution} == {};
  }

  // ------------------------------------------------------------- sessions

  /** A lease opens exactly on an idle device with no ops session while intake is open. */
  lemma LeaseOpensIff(c: Client)
    requires !c.lease
    ensures OpenLease(c) == c.(lease := OpenLease(c).lease)
    ensures OpenLease(c).lease <==> c.active.None? && !c.isStarting && !c.ops && c.block.None?
  {}

  /** An ops session opens exactly when intake is open and there is no lease. */
  lemma OpsOpensIff(c: Client)
    requires !c.ops
    ensures OpenOps(c) == c.(ops := OpenOps(c).ops)
    ensures OpenOps(c).ops <==> c.block.None? && !c.lease
  {}

  // ------------------------------------------------------------ whole runs

  /** A task that is alone on an idle device starts, becomes active, runs, is cleaned up and forgotten. */
  lemma {:induction false} TaskRunsToItsEnd(c: Client, request: Request)
    requires Inv(c) && MayStart(c) && c.queue == [] && TakesIn(c, request)
    ensures var execution := Entry(request, c.nextSequence);
      var started := After(c, EnqueueStep(request));
      var running := After(After(started, BecomeActiveStep(execution)), LaunchedStep);
      && started.starting == Some(execution) && started.isStarting
      && running.active == Some(ActiveTask(request, true, false)) && !running.isStarting
      && running.starting.None?
      && After(After(running, BeginCleanupStep), FinishCleanupStep) == c.(nextSequence := c.nextSequence + 1)
  {
    hide Insert, EvictionIndex;
    var execution := Entry(request, c.nextSequence);
    EnqueueIs(c, request);
    assert Insert([], execution) == [execution] by { InsertSplices([], execution, 0); }
    var started := After(c, EnqueueStep(request));
    assert started == c.(known := c.known + {request.taskId}, nextSequence := c.nextSequence + 1, isStarting := true,
                         starting := Some(execution), executing := c.executing + {execution});
    assert c.executing == {} && c.starting.None?;
    assert c.known + {request.taskId} - {request.taskId} == c.known;
    assert c.executing + {execution} - {execution} == c.executing;
  }

  function Blocked(c: Client, id: string, stage: Stage): Client {
    c.(deployment := Some(Deployment(id, stage)), block := Some(id), queue := [], known := c.known - Ids(c.queue))
  }

  lemma {:induction false} DeploymentStages(c: Client, id: string, force: bool)
    requires c.deployment.None?
    ensures After(c, StartDeploymentStep(id)) == Blocked(c, id, Staging)
    ensures Idle(c) ==>
      After(Blocked(c, id, Staging), StagedStep(force))
      == Blocked(c, id, if force then ForceStopping(false) else Draining)
    ensures After(Blocked(c, id, Staging), StagedStep(false)) == Blocked(c, id, Draining)
    ensures c.active.Some? ==> After(Blocked(c, id, Staging), StagedStep(true)) == Blocked(c, id, ForceStopping(true))
  {
    hide Ids, ProcessNext;
  }

  lemma {:induction false} WaitingEnds(c: Client, id: string, stage: Stage, stopped: bool)
    requires stage == Draining || (stage == ForceStopping(false) && stopped)
    ensures Idle(c) ==> After(Blocked(c, id, stage), StageOverStep(stopped)) == Blocked(c, id, ReadyToActivate)
    ensures !Idle(c) && stage == Draining ==>
      After(Blocked(c, id, stage), StageOverStep(stopped)) == Blocked(c, id, stage)
    ensures Idle(c) ==>
      After(Blocked(c, id, ReadyToActivate), ActivateStep)
      == Blocked(c, id, Activated).(activations := c.activations + [Activation(0, false, false)])
  {
    hide Ids, ProcessNext, FailDeployment;
  }

  /** A deployment that finds an idle client goes through to its activation, over an empty queue. */
  lemma {:induction false} IdleDeploymentActivates(c: Client, id: string, force: bool)
    requires c.deployment.None? && Idle(c)
    ensures var staged := After(After(c, StartDeploymentStep(id)), StagedStep(force));
      After(After(staged, StageOverStep(true)), ActivateStep)
      == c.(deployment := Some(Deployment(id, Activated)), block := Some(id), queue := [],
            known := c.known - Ids(c.queue), activations := c.activations + [Activation(0, false, false)])
  {
    hide Ids, After;
    DeploymentStages(c, id, force);
    WaitingEnds(c, id, if force then ForceStopping(false) else Draining, true);
  }

  /** A draining one waits for the active task and goes through once that is cleaned up. */
  lemma {:induction false} DrainingDeploymentActivates(c: Client, id: string)
    requires c.deployment.None? && c.active.Some? && !c.isStarting
    ensures var staged := After(After(c, StartDeploymentStep(id)), StagedStep(false));
      var drained := After(After(staged, BeginCleanupStep), FinishCleanupStep);
      && After(staged, StageOverStep(true)) == staged
      && After(After(drained, StageOverStep(true)), ActivateStep).deployment == Some(Deployment(id, Activated))
      && After(After(drained, StageOverStep(true)), ActivateStep).active.None?
  {
    hide Ids, After;
    DeploymentStages(c, id, false);
    WaitingEnds(c, id, Draining, true);
    var idle := c.(active := None, queue := [], known := c.known - Ids(c.queue) - {c.active.value.request.taskId});
    CleanupUnderDeployment(c, id);
    WaitingEnds(idle, id, Draining, true);
  }

  lemma {:induction false} CleanupUnderDeployment(c: Client, id: string)
    requires c.active.Some?
    ensures var idle :=
              c.(active := None, queue := [], known := c.known - Ids(c.queue) - {c.active.value.request.taskId});
      After(After(Blocked(c, id, Draining), BeginCleanupStep), FinishCleanupStep) == Blocked(idle, id, Draining)
  {
    hide ProcessNext, FailDeployment;
    assert Ids([]) == {};
    var known := c.known - Ids(c.queue) - {c.active.value.request.taskId};
    assert known - {} == known;
  }

  /** A forced one whose task does not stop fails, and intake is open again. */
  lemma {:induction false} StuckDeploymentFails(c: Client, id: string, stopped: bool)
    requires c.deployment.None? && c.active.Some? && !c.isStarting
    ensures var staged := After(After(c, StartDeploymentStep(id)), StagedStep(true));
      var over := After(staged, StageOverStep(stopped));
      over.deployment.None? && over.block.None? && over.active == c.active && over.queue == []
  {
    hide Ids;
  }
}
