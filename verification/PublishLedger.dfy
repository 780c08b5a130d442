/**
 * The ledger over whole runs of the publish protocol: what every interleaving of
 * tasks, launch failures, crashes and restarts keeps in the files and in every
 * ledger object, and exactly when a launch failure lets the files go backwards.
 */
module PublishLedger {
  import opened Common
  import opened TikTokLedger
  import opened TikTokPolicy
  import opened PublishProtocol
  import F = LedgerFleet

  /** The files and the ledger objects of the client process. */
  function FleetOf(w: World): F.Fleet {
    F.Fleet(w.disk, if w.client.Some? then w.client.value.ledgers else map[])
  }

  // ------------------------------------------- steps as ledger operations

  /** What merging a result through the object of task `id` does to the ledger. */
  function ResultEvents(w: World, client: Client, id: TaskId, result: ScriptResult, now: int,
                        faults: Faults): seq<F.Timed>
  {
    if id !in client.ledgers || id !in w.tasks || w.tasks[id].action == Preflight then []
    else [F.Timed(F.Operated(id, F.ResultStored(w.tasks[id].publicationId, result, faults)), now)]
  }

  function PollEvents(w: World, client: Client, step: Step): seq<F.Timed>
    requires step.PollCheckpoint? && client.active.Some?
    requires client.active.value.id in w.checkpoints && client.active.value.id in client.ledgers
  {
    var active := client.active.value;
    var file := w.checkpoints[active.id];
    if file.phase == EditorReady then
      [F.Timed(F.Operated(active.id,
                          F.CheckpointStored(file.publicationId, NO_CHECKPOINT.(evidence := file.content.evidence),
                                             step.first)), step.now)]
    else if (file.phase == Committing && active.reviewRejected) || active.checkpointPhase == Some(file.phase) then []
    else
      var store := Store(client.ledgers[active.id], w.disk);
      [F.Timed(F.Operated(active.id, F.CheckpointStored(file.publicationId, file.content, step.first)), step.now)]
      + if ApplyCheckpoint(store, file.publicationId, file.content, step.now, step.first).result.Err? then []
        else [F.Timed(F.Operated(active.id, if file.phase == Committing
                                 then F.CommitMarked(file.publicationId, step.second)
                                            else F.SubmissionMarked(file.publicationId, step.second)), step.now)]
  }

  function ClientEvents(w: World, client: Client, step: Step): seq<F.Timed> {
    match step
    case PrepareTask(id, request, now, midnight, fault) =>
      if id !in client.executing || id in w.tasks then []
      else
        var p := Prepare(w.disk, request, now, midnight, fault).result;
        [F.Timed(F.Opened(if p.Ok? && p.value.runsScript then Some(id) else None, request, midnight, fault), now)]
    case ReportStart(id, result, now, faults) =>
      if InPreparation(w, client, id) then ResultEvents(w, client, id, result, now, faults) else []
    case RecordResult(result, now, faults) =>
      if client.active.Some? then ResultEvents(w, client, client.active.value.id, result, now, faults) else []
    case LaunchFails(id, now, faults) =>
      if id in client.launching && id in w.tasks
      then ResultEvents(w, client, id, FailureReport(w.tasks[id].publicationId, "AUTOJS_LAUNCH_FAILED", false), now,
                        faults) else []
    case PollCheckpoint(_, _, _, _, _) =>
      if client.active.None? || client.active.value.cleaning || client.active.value.reviewing
         || client.active.value.id !in w.checkpoints || client.active.value.id !in client.ledgers then []
      else PollEvents(w, client, step)
    case _ => []
  }

  function EventsOf(w: World, step: Step): seq<F.Timed> {
    if step.ClientCrashes? then [F.Timed(F.Restarted, 0)]
    else if w.client.Some? then ClientEvents(w, w.client.value, step)
    else []
  }

  predicate KnownPhases(w: World) {
    forall id :: id in w.checkpoints ==> w.checkpoints[id].phase in {EditorReady, Committing, Submitted}
  }

  lemma {:induction false} StepKeepsPhases(w: World, step: Step)
    requires KnownPhases(w)
    ensures KnownPhases(Apply(w, step))
  {
    hide ApplyCheckpoint, StoreAndMark, Prepare, ApplyScriptResult, EvidenceError;
    if !IsScriptStep(step) && w.client.Some? && !step.ClientCrashes? && !step.RemoveFiles? {
      ClientKeepsCheckpoints(w, step);
    }
  }

  lemma {:induction false} ClientKeepsCheckpoints(w: World, step: Step)
    requires w.client.Some?
    ensures forall id :: id in ClientStep(w, w.client.value, step).checkpoints ==>
      id in w.checkpoints && ClientStep(w, w.client.value, step).checkpoints[id] == w.checkpoints[id]
  {
    hide ApplyCheckpoint, StoreAndMark, Prepare, ApplyScriptResult, EvidenceError;
  }

  lemma {:induction false} OneEvent(f: F.Fleet, e: F.Timed)
    ensures F.AfterAll(f, [e]) == F.After(f, e)
  {
    hide F.After;
    assert [e][..0] == [];
    assert F.AfterAll(f, []) == f;
  }

  lemma {:induction false} TwoEvents(f: F.Fleet, d: F.Timed, e: F.Timed)
    ensures F.AfterAll(f, [d, e]) == F.After(F.After(f, d), e)
  {
    hide F.After;
    OneEvent(f, d);
    assert [d, e][..1] == [d];
  }

  lemma {:induction false} ResultIsFleet(w: World, client: Client, id: TaskId, result: ScriptResult, now: int,
                                         faults: Faults)
    requires w.client.Some? && client.ledgers == w.client.value.ledgers && id in client.ledgers && id in w.tasks
    ensures FleetOf(Record(w, client, id, result, now, faults))
            == F.AfterAll(FleetOf(w), ResultEvents(w, client, id, result, now, faults))
  {
    hide ApplyScriptResult;
    if w.tasks[id].action != Preflight {
      OneEvent(FleetOf(w), ResultEvents(w, client, id, result, now, faults)[0]);
    }
  }

  lemma {:induction false} PrepareIsFleet(w: World, step: Step)
    requires w.client.Some? && step.PrepareTask? && step.id in w.client.value.executing && step.id !in w.tasks
    ensures FleetOf(AfterPrepare(w, w.client.value, step))
            == F.AfterAll(FleetOf(w), ClientEvents(w, w.client.value, step))
  {
    hide Prepare;
    OneEvent(FleetOf(w), ClientEvents(w, w.client.value, step)[0]);
  }

  /** Acknowledging changes neither files nor objects. */
  lemma AnswerIsNoOperation(w: World, client: Client, phase: Phase, step: Step)
    requires step.PollCheckpoint? && client.active.Some? && w.client == Some(client)
    ensures FleetOf(Answer(w, client, phase, step)) == FleetOf(w)
    ensures FleetOf(Acknowledge(w, client, phase, step.ackWritten)) == FleetOf(w)
  {
  }

  lemma {:induction false} PollIsFleet(w: World, step: Step)
    requires w.client.Some? && step.PollCheckpoint? && w.client.value.active.Some? && KnownPhases(w)
    requires w.client.value.active.value.id in w.checkpoints && w.client.value.active.value.id in w.client.value.ledgers
    ensures FleetOf(AfterPoll(w, w.client.value, step)) == F.AfterAll(FleetOf(w), PollEvents(w, w.client.value, step))
  {
    hide ApplyCheckpoint, MarkPhase, Answer, Acknowledge, EvidenceError;
    var client := w.client.value;
    var active := client.active.value;
    var file := w.checkpoints[active.id];
    var events := PollEvents(w, client, step);
    if file.phase == EditorReady {
      OneEvent(FleetOf(w), events[0]);
      var raw := NO_CHECKPOINT.(evidence := file.content.evidence);
      var stored :=
        ApplyCheckpoint(Store(client.ledgers[active.id], w.disk), file.publicationId, raw, step.now, step.first);
      var w' := PutStore(w, client, active.id, stored.store);
      AnswerIsNoOperation(w', w'.client.value, EditorReady, step);
    } else if file.phase == Committing && active.reviewRejected {
    } else if active.checkpointPhase == Some(file.phase) {
      AnswerIsNoOperation(w.(client := Some(client)), client, file.phase, step);
    } else {
      var marked := StoreAndMark(Store(client.ledgers[active.id], w.disk), file, step.now, step.first, step.second);
      var w' := PutStore(w, client, active.id, marked.store);
      AnswerIsNoOperation(w', w'.client.value, file.phase, step);
      MarkIsFleet(w, step);
    }
  }

  lemma {:induction false} MarkIsFleet(w: World, step: Step)
    requires w.client.Some? && step.PollCheckpoint? && w.client.value.active.Some? && KnownPhases(w)
    requires w.client.value.active.value.id in w.checkpoints && w.client.value.active.value.id in w.client.value.ledgers
    requires var (active, file) := (w.client.value.active.value, w.checkpoints[w.client.value.active.value.id]);
      file.phase != EditorReady && active.checkpointPhase != Some(file.phase)
        && !(file.phase == Committing && active.reviewRejected)
    ensures var (client, file) := (w.client.value, w.checkpoints[w.client.value.active.value.id]);
      var id := client.active.value.id;
      FleetOf(PutStore(w, client, id,
                       StoreAndMark(Store(client.ledgers[id], w.disk), file, step.now, step.first, step.second).store))
      == F.AfterAll(FleetOf(w), PollEvents(w, client, step))
  {
    hide ApplyCheckpoint, MarkPhase;
    var events := PollEvents(w, w.client.value, step);
    if |events| == 1 {
      OneEvent(FleetOf(w), events[0]);
    } else {
      TwoEvents(FleetOf(w), events[0], events[1]);
    }
  }

  lemma ScriptsKeepLedgers(w: World, step: Step)
    requires IsScriptStep(step)
    ensures ScriptStep(w, step).disk == w.disk && ScriptStep(w, step).client == w.client
            && ScriptStep(w, step).tasks == w.tasks
  {
  }

  /** Every step of the protocol is a run of ledger operations. */
  lemma {:induction false} StepIsFleet(w: World, step: Step)
    requires KnownPhases(w)
    ensures FleetOf(Apply(w, step)) == F.AfterAll(FleetOf(w), EventsOf(w, step))
  {
    hide ClientStep, ScriptStep, ClientEvents, F.After;
    assert F.AfterAll(FleetOf(w), []) == FleetOf(w);
    if IsScriptStep(step) {
      ScriptsKeepLedgers(w, step);
      assert EventsOf(w, step) == [] by { NoScriptEvents(w, step); }
    } else if step.ClientCrashes? {
      OneEvent(FleetOf(w), F.Timed(F.Restarted, 0));
      assert F.After(FleetOf(w), F.Timed(F.Restarted, 0))
             == FleetOf(w).(objects := map[]) by { Restarting(FleetOf(w)); }
    } else if step.RemoveFiles? {
      assert EventsOf(w, step) == [] by { NoScriptEvents(w, step); }
    } else if w.client.Some? {
      ClientStepIsFleet(w, step);
    }
  }

  lemma NoScriptEvents(w: World, step: Step)
    requires IsScriptStep(step) || step.RemoveFiles?
    ensures EventsOf(w, step) == []
  {
  }

  lemma Restarting(f: F.Fleet)
    ensures F.After(f, F.Timed(F.Restarted, 0)) == f.(objects := map[])
  {
  }

  /** Steps that use no ledger object. */
  predicate NoOperation(step: Step) {
    step.ClientStarts? || step.StartTask? || step.Activate? || step.AbandonStart? || step.ExecutorError?
    || step.LaunchSucceeds? || step.ReviewEnds? || step.BeginCleanup? || step.EndCleanup?
  }

  lemma {:induction false} NoOperationKeepsFleet(w: World, step: Step)
    requires w.client.Some? && NoOperation(step)
    ensures FleetOf(ClientStep(w, w.client.value, step)) == FleetOf(w) && ClientEvents(w, w.client.value, step) == []
  {
    hide Acknowledge;
    if step.ReviewEnds? && w.client.value.active.Some? {
      AnswerIsNoOperation(w, w.client.value, Committing,
                          PollCheckpoint(0, NoFault, NoFault, Accepted, step.ackWritten));
    }
  }

  lemma {:induction false} ClientStepIsFleet(w: World, step: Step)
    requires KnownPhases(w) && w.client.Some?
    ensures FleetOf(ClientStep(w, w.client.value, step))
            == F.AfterAll(FleetOf(w), ClientEvents(w, w.client.value, step))
  {
    hide AfterPrepare, AfterPoll, Record, Acknowledge, PollEvents, ResultEvents, F.After, Prepare;
    hide EndExecution, StartCleanup, WithoutFiles, AfterActivate, AfterReview, AfterLaunchFailure;
    assert F.AfterAll(FleetOf(w), []) == FleetOf(w);
    var client := w.client.value;
    if NoOperation(step) {
      NoOperationKeepsFleet(w, step);
      return;
    }
    match step
    case PrepareTask(id, _, _, _, _) =>
      if id in client.executing && id !in w.tasks {
        PrepareIsFleet(w, step);
      }
    case ReportStart(id, result, now, faults) =>
      if InPreparation(w, client, id) {
        ResultIsFleet(w, client, id, result, now, faults);
      }
    case RecordResult(result, now, faults) =>
      if client.active.Some? && client.active.value.id in client.ledgers && client.active.value.id in w.tasks {
        ResultIsFleet(w, client, client.active.value.id, result, now, faults);
      } else if client.active.Some? {
        NoResultEvents(w, client, client.active.value.id, result, now, faults);
      }
    case LaunchFails(id, now, faults) => LaunchFailureIsFleet(w, step);
    case PollCheckpoint(_, _, _, _, _) =>
      if client.active.Some? && client.active.value.id in w.checkpoints && client.active.value.id in client.ledgers {
        PollIsFleet(w, step);
      }
    case _ =>
  }

  lemma SameResultEvents(w: World, a: Client, b: Client, id: TaskId, result: ScriptResult, now: int,
                         faults: Faults)
    requires a.ledgers == b.ledgers
    ensures ResultEvents(w, a, id, result, now, faults) == ResultEvents(w, b, id, result, now, faults)
  {
  }

  lemma NoResultEvents(w: World, client: Client, id: TaskId, result: ScriptResult, now: int,
                       faults: Faults)
    requires id !in client.ledgers || id !in w.tasks
    ensures ResultEvents(w, client, id, result, now, faults) == []
  {
  }

  lemma {:induction false} LaunchFailureIsFleet(w: World, step: Step)
    requires w.client.Some? && step.LaunchFails?
    ensures FleetOf(ClientStep(w, w.client.value, step))
            == F.AfterAll(FleetOf(w), ClientEvents(w, w.client.value, step))
  {
    hide Record, ResultEvents, F.After;
    assert F.AfterAll(FleetOf(w), []) == FleetOf(w);
    var client := w.client.value;
    if step.id in client.launching && step.id in w.tasks {
      var report := FailureReport(w.tasks[step.id].publicationId, "AUTOJS_LAUNCH_FAILED", false);
      if step.id in client.ledgers {
        var left := client.(launching := client.launching - {step.id});
        RecordIgnoresClient(w, w, left, step.id, report, step.now, step.faults);
        ResultIsFleet(w, left, step.id, report, step.now, step.faults);
        SameResultEvents(w, left, client, step.id, report, step.now, step.faults);
      } else {
        NoResultEvents(w, client, step.id, report, step.now, step.faults);
      }
    }
  }

  // ----------------------------------------------- what every run keeps

  lemma {:induction false} RunKeepsPhases(disk: Disk, steps: seq<Step>)
    ensures KnownPhases(Run(Initial(disk), steps))
  {
    hide Apply, KnownPhases;
    if steps == [] {
      assert KnownPhases(Initial(disk)) by { NoCheckpoints(disk); }
    } else {
      RunKeepsPhases(disk, steps[..|steps| - 1]);
      StepKeepsPhases(Run(Initial(disk), steps[..|steps| - 1]), steps[|steps| - 1]);
    }
  }

  lemma NoCheckpoints(disk: Disk)
    ensures KnownPhases(Initial(disk))
  {
  }

  /**
   * Over every run of the protocol, late launch failures and throwing executions
   * included: every record keeps its invariant, in the files and in every ledger
   * object of the client.
   */
  lemma {:induction false} RunKeepsRecords(disk: Disk, steps: seq<Step>)
    requires LedgerInv(Reopen(disk))
    ensures F.WellFormed(FleetOf(Run(Initial(disk), steps)))
  {
    hide Apply, EventsOf, KnownPhases;
    if steps != [] {
      var before := Run(Initial(disk), steps[..|steps| - 1]);
      RunKeepsRecords(disk, steps[..|steps| - 1]);
      RunKeepsPhases(disk, steps[..|steps| - 1]);
      StepIsFleet(before, steps[|steps| - 1]);
      F.RunKeepsRecords(FleetOf(before), EventsOf(before, steps[|steps| - 1]));
    }
  }

  // --------------------------------------------- when the files only evolve

  /**
   * For every world and every launch failure: its report lets the files evolve if
   * and only if it saves nothing, or the ledger object of its task is not behind
   * the files.
   */
  lemma {:induction false} LaunchFailureKeepsFilesIff(w: World, step: Step)
    requires w.client.Some? && step.LaunchFails? && step.id in w.client.value.ledgers && step.id in w.tasks
    ensures Evolves(Reopen(w.disk), Reopen(AfterLaunchFailure(w, w.client.value, step).disk))
       <==> SavesNothing(w, w.client.value, step) || Evolves(Reopen(w.disk), w.client.value.ledgers[step.id])
  {
    hide ApplyScriptResult, Evolves, Reopen;
    var store, p := Store(w.client.value.ledgers[step.id], w.disk), w.tasks[step.id].publicationId;
    EvolvesReflexive(Reopen(w.disk));
    F.ReportKeepsFilesIff(store, p, FailureReport(p, "AUTOJS_LAUNCH_FAILED", false), step.now, step.faults);
  }

  /**
   * What makes a late report harmless to all later saves as well: its object is
   * not behind the files, and the object of the task in progress is not behind it.
   */
  ghost predicate HarmlessReport(w: World, step: Step) {
    step.LaunchFails? && w.client.Some? && step.id in w.client.value.launching
    && step.id in w.client.value.ledgers && step.id in w.tasks ==>
      var client := w.client.value;
      || Holder(client) == Some(step.id)
      || SavesNothing(w, client, step)
      || (Evolves(Reopen(w.disk), client.ledgers[step.id])
          && (Holder(client).Some? && Holder(client).value in client.ledgers ==>
                Evolves(client.ledgers[step.id], client.ledgers[Holder(client).value])))
  }

  ghost predicate HarmlessCatch(w: World, step: Step) {
    HarmlessReport(w, step) && SafeExecutorCatch(w, step)
  }

  ghost predicate HarmlessCatches(w: World, steps: seq<Step>) {
    forall i :: 0 <= i < |steps| ==> HarmlessCatch(Run(w, steps[..i]), steps[i])
  }

  /** The object of the task in progress is not behind the files. */
  ghost predicate HolderIsAhead(w: World) {
    w.client.Some? ==>
      var client := w.client.value;
      && OneExecution(w.tasks, client)
      && (client.active.Some? ==> client.active.value.id in client.ledgers)
      && (Holder(client).Some? ==> Evolves(Reopen(w.disk), client.ledgers[Holder(client).value]))
  }

  predicate AllBy(events: seq<F.Timed>, id: nat) {
    forall e :: e in events ==> e.event.Operated? && e.event.owner == id
  }

  /** Operations of one object that is not behind the files leave it so, and the files evolve. */
  lemma {:induction false} OwnEventsKeepAhead(f: F.Fleet, events: seq<F.Timed>, id: nat)
    requires AllBy(events, id) && id in f.objects && Evolves(Reopen(f.disk), f.objects[id])
    ensures var after := F.AfterAll(f, events);
      && id in after.objects && after.objects == f.objects[id := after.objects[id]]
      && Evolves(Reopen(f.disk), Reopen(after.disk)) && Evolves(Reopen(after.disk), after.objects[id])
    decreases |events|
  {
    if events == [] {
      EvolvesReflexive(Reopen(f.disk));
    } else {
      var prefix, e := events[..|events| - 1], events[|events| - 1];
      var before := F.AfterAll(f, prefix);
      OwnEventsKeepAhead(f, prefix, id);
      assert e in events;
      OneOwnEvent(before, e);
      hide F.After, Evolves;
      EvolvesTransitive(Reopen(f.disk), Reopen(before.disk), Reopen(F.After(before, e).disk));
    }
  }

  lemma {:induction false} OneOwnEvent(f: F.Fleet, e: F.Timed)
    requires e.event.Operated? && e.event.owner in f.objects && Evolves(Reopen(f.disk), f.objects[e.event.owner])
    ensures var after := F.After(f, e);
      && e.event.owner in after.objects && after.objects == f.objects[e.event.owner := after.objects[e.event.owner]]
      && Evolves(Reopen(f.disk), Reopen(after.disk)) && Evolves(Reopen(after.disk), after.objects[e.event.owner])
  {
    hide Evolves, F.Operate;
    F.EventKeepsFiles(f, e);
  }

  /** A report changes nothing in its object that evolution looks at. */
  lemma ReportedEvolves(a: LedgerState, b: LedgerState, later: LedgerState, id: string)
    requires id in a.publications && id in b.publications && b.publications == a.publications[id := b.publications[id]]
    requires var (r, s) := (a.publications[id], b.publications[id]);
      s == r.(outcome := s.outcome, errorCode := s.errorCode, updatedAt := s.updatedAt)
    ensures Evolves(a, later) ==> Evolves(b, later)
  {
  }

  lemma {:induction false} LateReportKeepsAhead(w: World, step: Step)
    requires HolderIsAhead(w) && w.client.Some? && step.LaunchFails? && HarmlessReport(w, step)
    requires step.id in w.client.value.launching && step.id in w.client.value.ledgers && step.id in w.tasks
    requires Holder(w.client.value) != Some(step.id)
    ensures var w' := AfterLaunchFailure(w, w.client.value, step);
      HolderIsAhead(w') && Evolves(Reopen(w.disk), Reopen(w'.disk))
  {
    hide Evolves, ApplyScriptResult, Reopen, RecordEvolves;
    var client := w.client.value;
    var store, p := Store(client.ledgers[step.id], w.disk), w.tasks[step.id].publicationId;
    var report := FailureReport(p, "AUTOJS_LAUNCH_FAILED", false);
    var after := ApplyScriptResult(store, p, report, step.now, step.faults).store;
    LaunchFailureKeepsFilesIff(w, step);
    LaunchFailureFrame(w, step);
    LaunchFailureFiles(w, step);
    if !SavesNothing(w, client, step) {
      F.OutcomeIsAll(store, p, report, step.now, step.faults);
      PersistIsAtomic(store.disk, after.state, step.faults.final);
      if Holder(client).Some? {
        ReportedEvolves(store.state, after.state, client.ledgers[Holder(client).value], p);
      }
    }
  }

  lemma {:induction false} FreshAhead(w: World, step: Step)
    requires HolderIsAhead(w) && w.client.Some? && step.PrepareTask? && step.id in w.client.value.executing
             && step.id !in w.tasks
    ensures var w' := AfterPrepare(w, w.client.value, step);
      HolderIsAhead(w') && Evolves(Reopen(w.disk), Reopen(w'.disk))
  {
    hide Evolves, Prepare, Reopen;
    var p := Prepare(w.disk, step.request, step.now, step.midnight, step.fault);
    var e := F.Timed(F.Opened(None, step.request, step.midnight, step.fault), step.now);
    EvolvesReflexive(Reopen(w.disk));
    F.EventKeepsFiles(FleetOf(w), e);
  }

  /** Steps of the task in progress, as operations of its object. */
  lemma {:induction false} OwnStepKeepsAhead(w: World, after: World, events: seq<F.Timed>)
    requires HolderIsAhead(w) && w.client.Some? && Holder(w.client.value).Some?
             && AllBy(events, Holder(w.client.value).value)
    requires FleetOf(after) == F.AfterAll(FleetOf(w), events) && after.client.Some? && after.tasks == w.tasks
    requires OneExecution(after.tasks, after.client.value)
    requires Holder(after.client.value) == Holder(w.client.value) || Holder(after.client.value) == None
    ensures HolderIsAhead(after) && Evolves(Reopen(w.disk), Reopen(after.disk))
  {
    hide Evolves, F.AfterAll, AllBy;
    OwnEventsKeepAhead(FleetOf(w), events, Holder(w.client.value).value);
  }

  lemma {:induction false} StepKeepsAhead(w: World, step: Step)
    requires HolderIsAhead(w) && HarmlessCatch(w, step) && KnownPhases(w)
    ensures HolderIsAhead(Apply(w, step)) && Evolves(Reopen(w.disk), Reopen(Apply(w, step).disk))
  {
    hide ClientStep, ScriptStep, Evolves, Holder, HarmlessReport, Reopen;
    EvolvesReflexive(Reopen(w.disk));
    if IsScriptStep(step) {
      ScriptsKeepLedgers(w, step);
    } else if w.client.Some? && !step.ClientCrashes? && !step.RemoveFiles? {
      ClientStepKeepsAhead(w, step);
    } else if w.client.None? && step.ClientStarts? {
      assert Holder(Client(None, {}, None, map[], {})) == None by { FreshClient(); }
    }
  }

  lemma FreshClient()
    ensures Holder(Client(None, {}, None, map[], {})) == None
  {
  }

  lemma {:induction false} ResultKeepsAhead(w: World, id: TaskId, client: Client, result: ScriptResult, now: int,
                                            faults: Faults)
    requires HolderIsAhead(w) && w.client.Some? && Holder(w.client.value) == Some(id) && id in w.tasks
             && id in w.client.value.ledgers
    requires client.ledgers == w.client.value.ledgers && OneExecution(w.tasks, client)
    requires Holder(client) == Some(id) || Holder(client) == None
    ensures var w' := Record(w, client, id, result, now, faults);
      HolderIsAhead(w') && Evolves(Reopen(w.disk), Reopen(w'.disk))
  {
    hide Evolves, ApplyScriptResult, F.After, Reopen;
    ResultIsFleet(w, client, id, result, now, faults);
    OwnStepKeepsAhead(w, Record(w, client, id, result, now, faults), ResultEvents(w, client, id, result, now, faults));
  }

  lemma {:induction false} PollKeepsAhead(w: World, step: Step)
    requires HolderIsAhead(w) && w.client.Some? && step.PollCheckpoint? && w.client.value.active.Some? && KnownPhases(w)
    requires w.client.value.active.value.id in w.checkpoints && w.client.value.active.value.id in w.client.value.ledgers
    ensures var w' := AfterPoll(w, w.client.value, step);
      HolderIsAhead(w') && Evolves(Reopen(w.disk), Reopen(w'.disk))
  {
    PollFrame(w, step);
    PollIsFleet(w, step);
    PollEventsAreOwn(w, step);
    hide Evolves, AfterPoll, PollEvents, Reopen, F.After, AllBy;
    OwnStepKeepsAhead(w, AfterPoll(w, w.client.value, step), PollEvents(w, w.client.value, step));
  }

  lemma {:induction false} PollEventsAreOwn(w: World, step: Step)
    requires w.client.Some? && step.PollCheckpoint? && w.client.value.active.Some?
    requires w.client.value.active.value.id in w.checkpoints && w.client.value.active.value.id in w.client.value.ledgers
    ensures AllBy(PollEvents(w, w.client.value, step), w.client.value.active.value.id)
  {
    hide ApplyCheckpoint;
  }

  /** The same task is active and no other slot has changed. */
  predicate SameSlots(a: World, b: World) {
    && a.client.Some? && b.client.Some? && a.tasks == b.tasks
    && a.client.value.active.Some? && b.client.value.active.Some?
    && a.client.value.active.value.id == b.client.value.active.value.id
    && a.client.value.starting == b.client.value.starting && a.client.value.executing == b.client.value.executing
    && a.client.value.ledgers.Keys == b.client.value.ledgers.Keys
  }

  lemma AnswerKeepsSlots(w: World, client: Client, phase: Phase, step: Step)
    requires step.PollCheckpoint? && client.active.Some? && w.client == Some(client)
    ensures SameSlots(w, Answer(w, client, phase, step)) && SameSlots(w, Acknowledge(w, client, phase, step.ackWritten))
  {
  }

  lemma PutStoreKeepsSlots(w: World, id: TaskId, store: Store)
    requires w.client.Some? && w.client.value.active.Some? && id in w.client.value.ledgers
    ensures SameSlots(w, PutStore(w, w.client.value, id, store))
  {
  }

  lemma {:induction false} PollFrame(w: World, step: Step)
    requires w.client.Some? && step.PollCheckpoint? && w.client.value.active.Some?
    requires w.client.value.active.value.id in w.checkpoints && w.client.value.active.value.id in w.client.value.ledgers
    ensures SameSlots(w, AfterPoll(w, w.client.value, step))
  {
    hide ApplyCheckpoint, StoreAndMark, EvidenceError, Answer, Acknowledge;
    var client := w.client.value;
    var file := w.checkpoints[client.active.value.id];
    var store := Store(client.ledgers[client.active.value.id], w.disk);
    var raw := NO_CHECKPOINT.(evidence := file.content.evidence);
    var stored := ApplyCheckpoint(store, file.publicationId, raw, step.now, step.first).store;
    var marked := StoreAndMark(store, file, step.now, step.first, step.second).store;
    assert w.(client := Some(client)) == w;
    AnswerKeepsSlots(w, client, file.phase, step);
    AnswerBehindSave(w, stored, EditorReady, step);
    AnswerBehindSave(w, marked, file.phase, step);
    hide SameSlots, PutStore;
  }

  lemma {:induction false} AnswerBehindSave(w: World, store: Store, phase: Phase, step: Step)
    requires w.client.Some? && w.client.value.active.Some? && step.PollCheckpoint?
    requires w.client.value.active.value.id in w.client.value.ledgers
    ensures var w' := PutStore(w, w.client.value, w.client.value.active.value.id, store);
      && SameSlots(w, w') && SameSlots(w, Answer(w', w'.client.value, phase, step))
      && SameSlots(w, Acknowledge(w', w'.client.value, phase, step.ackWritten))
  {
    hide Answer, Acknowledge;
    PutStoreKeepsSlots(w, w.client.value.active.value.id, store);
    var w' := PutStore(w, w.client.value, w.client.value.active.value.id, store);
    AnswerKeepsSlots(w', w'.client.value, phase, step);
  }

  lemma {:induction false} SlotKeepsAhead(w: World, step: Step)
    requires HolderIsAhead(w) && w.client.Some? && NoOperation(step) && SafeExecutorCatch(w, step)
    ensures HolderIsAhead(ClientStep(w, w.client.value, step)) && ClientStep(w, w.client.value, step).disk == w.disk
  {
    hide Evolves, Reopen;
  }

  lemma {:induction false} PreparationHolds(w: World, id: TaskId)
    requires HolderIsAhead(w) && w.client.Some? && InPreparation(w, w.client.value, id)
    ensures Holder(w.client.value) == Some(id) && OneExecution(w.tasks, w.client.value)
  {
    hide Evolves;
  }

  lemma {:induction false} ActiveHolds(w: World)
    requires HolderIsAhead(w) && w.client.Some? && w.client.value.active.Some?
    ensures Holder(w.client.value) == Some(w.client.value.active.value.id) && OneExecution(w.tasks, w.client.value)
  {
    hide Evolves;
  }

  lemma {:induction false} ClientStepKeepsAhead(w: World, step: Step)
    requires HolderIsAhead(w) && w.client.Some? && HarmlessCatch(w, step) && KnownPhases(w)
    ensures HolderIsAhead(ClientStep(w, w.client.value, step))
            && Evolves(Reopen(w.disk), Reopen(ClientStep(w, w.client.value, step).disk))
  {
    hide AfterPrepare, AfterPoll, Record, AfterLaunchFailure, Evolves, SavesNothing, Reopen, KnownPhases,
         HolderIsAhead, Holder;
    hide EndExecution, StartCleanup, WithoutFiles, AfterActivate, AfterReview, HarmlessReport;
    EvolvesReflexive(Reopen(w.disk));
    var client := w.client.value;
    if NoOperation(step) {
      SlotKeepsAhead(w, step);
      return;
    }
    match step
    case PrepareTask(id, _, _, _, _) =>
      if id in client.executing && id !in w.tasks {
        FreshAhead(w, step);
      }
    case ReportStart(id, result, now, faults) =>
      if InPreparation(w, client, id) {
        PreparationHolds(w, id);
        ResultKeepsAhead(w, id, client, result, now, faults);
      }
    case RecordResult(result, now, faults) =>
      if client.active.Some? && client.active.value.id in client.ledgers && client.active.value.id in w.tasks {
        ActiveHolds(w);
        ResultKeepsAhead(w, client.active.value.id, client, result, now, faults);
      }
    case LaunchFails(id, now, faults) =>
      if id in client.launching && id in client.ledgers && id in w.tasks {
        LaunchKeepsAhead(w, step);
      }
    case PollCheckpoint(_, _, _, _, _) =>
      if client.active.Some? && client.active.value.id in w.checkpoints && client.active.value.id in client.ledgers {
        PollKeepsAhead(w, step);
      }
    case _ =>
  }

  lemma {:induction false} LaunchKeepsAhead(w: World, step: Step)
    requires HolderIsAhead(w) && w.client.Some? && step.LaunchFails? && HarmlessReport(w, step)
    requires step.id in w.client.value.launching && step.id in w.client.value.ledgers && step.id in w.tasks
    ensures var w' := AfterLaunchFailure(w, w.client.value, step);
      HolderIsAhead(w') && Evolves(Reopen(w.disk), Reopen(w'.disk))
  {
    hide Evolves, Record, Reopen;
    if Holder(w.client.value) == Some(step.id) {
      var left := w.client.value.(launching := w.client.value.launching - {step.id});
      var report := FailureReport(w.tasks[step.id].publicationId, "AUTOJS_LAUNCH_FAILED", false);
      RecordIgnoresClient(w, w, left, step.id, report, step.now, step.faults);
      ResultKeepsAhead(w, step.id, left, report, step.now, step.faults);
    } else {
      LateReportKeepsAhead(w, step);
    }
  }

  lemma {:induction false} RunIsAhead(disk: Disk, steps: seq<Step>, i: nat)
    requires HarmlessCatches(Initial(disk), steps) && i <= |steps|
    ensures HolderIsAhead(Run(Initial(disk), steps))
    ensures Evolves(Reopen(Run(Initial(disk), steps[..i]).disk), Reopen(Run(Initial(disk), steps).disk))
    decreases |steps|
  {
    hide Apply, HarmlessCatch, Evolves, Reopen, KnownPhases;
    if steps == [] {
      assert steps[..i] == [];
      EvolvesReflexive(Reopen(disk));
    } else {
      var prefix := steps[..|steps| - 1];
      var before := Run(Initial(disk), prefix);
      assert forall k :: 0 <= k <= |prefix| ==> prefix[..k] == steps[..k];
      RunIsAhead(disk, prefix, if i <= |prefix| then i else |prefix|);
      RunKeepsPhases(disk, prefix);
      StepKeepsAhead(before, steps[|steps| - 1]);
      if i == |steps| {
        assert steps[..i] == steps;
        EvolvesReflexive(Reopen(Run(Initial(disk), steps).disk));
      } else {
        EvolvesTransitive(Reopen(Run(Initial(disk), steps[..i]).disk), Reopen(before.disk),
                          Reopen(Run(Initial(disk), steps).disk));
      }
    }
  }

  /**
   * From any point of a run whose launch failures are harmless and whose throwing
   * executions hit nobody else's start, the files only evolve: phases never
   * regress, and identity, evidence and commit time are final.
   */
  lemma {:induction false} RunKeepsFiles(disk: Disk, steps: seq<Step>, i: nat)
    requires HarmlessCatches(Initial(disk), steps) && i <= |steps|
    ensures Evolves(Reopen(Run(Initial(disk), steps[..i]).disk), Reopen(Run(Initial(disk), steps).disk))
  {
    RunIsAhead(disk, steps, i);
  }

  // ------------------------------------------------------------ commit times

  /** The clock reading of a step, if it makes one. */
  function Reading(step: Step): Option<int> {
    match step
    case PrepareTask(_, _, now, _, _) => Some(now)
    case ReportStart(_, _, now, _) => Some(now)
    case LaunchFails(_, now, _) => Some(now)
    case PollCheckpoint(now, _, _, _, _) => Some(now)
    case RecordResult(_, now, _) => Some(now)
    case _ => None
  }

  /** The last reading of a run that starts at `start`. */
  function ClockAfter(steps: seq<Step>, start: int): int {
    if steps == [] then start
    else Reading(steps[|steps| - 1]).GetOr(ClockAfter(steps[..|steps| - 1], start))
  }

  predicate ClockRunsForward(steps: seq<Step>, start: int) {
    forall i :: 0 <= i < |steps| ==>
      ClockAfter(steps[..i], start) <= Reading(steps[i]).GetOr(ClockAfter(steps[..i], start))
  }

  lemma {:induction false} EventsAtReading(w: World, step: Step)
    requires !step.ClientCrashes?
    ensures forall e :: e in EventsOf(w, step) ==> Reading(step) == Some(e.at)
  {
    hide Prepare, ApplyCheckpoint;
  }

  lemma {:induction false} StepKeepsClock(w: World, step: Step, clock: int)
    requires F.AllClocked(FleetOf(w), clock) && KnownPhases(w) && clock <= Reading(step).GetOr(clock)
    ensures F.AllClocked(FleetOf(Apply(w, step)), Reading(step).GetOr(clock))
  {
    hide KnownPhases;
    if step.ClientCrashes? {
      hide Clocked;
    } else {
      StepIsFleet(w, step);
      EventsAtReading(w, step);
      hide Clocked, F.AllClocked, Apply, EventsOf, FleetOf, F.AfterAll;
      F.RunKeepsClock(FleetOf(w), EventsOf(w, step), clock);
    }
  }

  /** While the clock does not run backwards, no reuse table of files or objects is behind a commit. */
  lemma {:induction false} RunKeepsClock(disk: Disk, steps: seq<Step>, start: int)
    requires Clocked(Reopen(disk), start) && ClockRunsForward(steps, start)
    ensures F.AllClocked(FleetOf(Run(Initial(disk), steps)), ClockAfter(steps, start))
    decreases |steps|
  {
    if steps != [] {
      var prefix := steps[..|steps| - 1];
      assert forall k :: 0 <= k <= |prefix| ==> prefix[..k] == steps[..k];
      RunKeepsClock(disk, prefix, start);
      RunKeepsPhases(disk, prefix);
      hide Apply, F.AllClocked, KnownPhases, FleetOf;
      StepKeepsClock(Run(Initial(disk), prefix), steps[|steps| - 1], ClockAfter(prefix, start));
    }
  }

  /**
   * With the clock running forwards and harmless catches, a NEW decision keeps its
   * distance from every commit the files held at any point of the run, and all of
   * them count for the day.
   */
  lemma {:induction false} RunSpacesNewDecisions(disk: Disk, steps: seq<Step>, i: nat, start: int, request: Request,
                                                 now: int, midnight: int, fault: Fault, id: string)
    requires Clocked(Reopen(disk), start) && ClockRunsForward(steps, start) && ClockAfter(steps, start) <= now
    requires HarmlessCatches(Initial(disk), steps) && i <= |steps|
    requires F.IsNew(Run(Initial(disk), steps).disk, request, now, midnight, fault)
    requires var earlier := Reopen(Run(Initial(disk), steps[..i]).disk);
      id in earlier.publications && Reached(earlier.publications[id], Committing)
    ensures var earlier := Reopen(Run(Initial(disk), steps[..i]).disk);
      var made := Prepare(Run(Initial(disk), steps).disk, request, now, midnight, fault).result.value.publication.value;
      && F.SpacedFrom(earlier.publications[id], made, request.policy, now)
      && |CommittedIdsSince(earlier.publications, midnight)| < request.policy.maxPostsPerDay
  {
    hide Prepare, CommittedIdsSince, Apply, F.IsNew, HarmlessCatch;
    var prefix := steps[..i];
    assert forall k :: 0 <= k <= |prefix| ==> prefix[..k] == steps[..k];
    RunKeepsClock(disk, steps, start);
    RunKeepsClock(disk, prefix, start);
    RunKeepsFiles(disk, steps, i);
    var a, b := Reopen(Run(Initial(disk), prefix).disk), Reopen(Run(Initial(disk), steps).disk);
    F.CommitsStay(a, b, ClockAfter(prefix, start), midnight);
    assert RecordEvolves(a.publications[id], b.publications[id]);
    F.NewIsSpacedFromFiles(Run(Initial(disk), steps).disk, request, now, midnight, fault, ClockAfter(steps, start), id);
  }
}
