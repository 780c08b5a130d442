/**
 * The journal-before-act publish protocol between the AutoJS script
 * (mobile/task-scripts/tiktok_post_v2.js), the mobile client
 * (mobile/src/client.ts) and the ledger files. One step is one stretch of code
 * between two awaits of the client, or one file access or tap of a script.
 */
module PublishProtocol {
  import opened Common
  import opened TikTokLedger
  import opened TikTokPolicy

  /** Every execution has its own task id, hence its own checkpoint and ack files. */
  type TaskId = nat

  /** What a started task was prepared to do. */
  datatype Task = Task(action: Action, publicationId: string)

  datatype CheckpointFile = CheckpointFile(publicationId: string, phase: Phase, content: RawCheckpoint)

  /** Where one script instance stands in `runPublish`. */
  datatype ScriptState = Working | AwaitingEditorAck | EditorAcked | AwaitingCommitAck | Cleared | Posted | Stopped

  datatype ActiveTask = ActiveTask(
    id: TaskId,
    checkpointPhase: Option<Phase>,
    reviewing: bool,
    reviewRejected: bool,
    cleaning: bool)

  /**
   * Memory of one client process: `starting` holds the starting flag, `executing`
   * are the executions that have not become active, `launching` those whose
   * `am start` is pending, `ledgers` has the ledger object of every prepared task.
   */
  datatype Client = Client(
    starting: Option<TaskId>,
    executing: set<TaskId>,
    active: Option<ActiveTask>,
    ledgers: map<TaskId, LedgerState>,
    launching: set<TaskId>)

  /** `granted` records which tasks ever received a COMMITTING acknowledgement. */
  datatype World = World(
    disk: Disk,
    client: Option<Client>,
    tasks: map<TaskId, Task>,
    activated: set<TaskId>,
    checkpoints: map<TaskId, CheckpointFile>,
    acks: map<TaskId, Phase>,
    scripts: map<TaskId, ScriptState>,
    granted: set<TaskId>,
    taps: seq<TaskId>)

  datatype Review = Accepted | Rejected | Deferred

  datatype Step =
    | ClientStarts
    | ClientCrashes
    | StartTask(id: TaskId)
    | PrepareTask(id: TaskId, request: Request, now: int, midnight: int, fault: Fault)
    | ReportStart(id: TaskId, result: ScriptResult, now: int, faults: Faults)
    | AbandonStart(id: TaskId)
    | Activate(id: TaskId)
    | ExecutorError(id: TaskId)
    | LaunchSucceeds(id: TaskId)
    | LaunchFails(id: TaskId, now: int, faults: Faults)
    | PollCheckpoint(now: int, first: Fault, second: Fault, review: Review, ackWritten: bool)
    | ReviewEnds(accepted: bool, ackWritten: bool)
    | RecordResult(result: ScriptResult, now: int, faults: Faults)
    | BeginCleanup
    | EndCleanup(removed: bool)
    | RemoveFiles(ids: set<TaskId>)
    | ScriptStarts(id: TaskId)
    | ScriptWritesEditorReady(id: TaskId, content: RawCheckpoint)
    | ScriptSeesEditorAck(id: TaskId)
    | ScriptWritesCommitting(id: TaskId, content: RawCheckpoint)
    | ScriptSeesCommitAck(id: TaskId)
    | ScriptTaps(id: TaskId)
    | ScriptWritesSubmitted(id: TaskId, content: RawCheckpoint)
    | ScriptStops(id: TaskId)

  // ------------------------------------------------------------ the client

  /** The task that is starting or active. */
  function Current(client: Client): Option<TaskId> {
    if client.active.Some? then Some(client.active.value.id) else client.starting
  }

  /** The report that `recordTikTokFailure` merges into the ledger. */
  function FailureReport(id: string, code: string, published: bool): ScriptResult {
    ScriptResult(id, 2, published, Absent, None, None, "", "", "", None, code)
  }

  /** Writes back one ledger object after an operation on it. */
  function PutStore(w: World, client: Client, id: TaskId, store: Store): World {
    w.(disk := store.disk, client := Some(client.(ledgers := client.ledgers[id := store.state])))
  }

  /** Merges a result through the ledger object of task `id`; a pure preflight has no record. */
  function Record(w: World, client: Client, id: TaskId, result: ScriptResult, now: int, faults: Faults): World
    requires id in client.ledgers && id in w.tasks
  {
    if w.tasks[id].action == Preflight then w.(client := Some(client))
    else PutStore(w, client, id,
                  ApplyScriptResult(Store(client.ledgers[id], w.disk), w.tasks[id].publicationId, result, now,
                                    faults).store)
  }

  /** The end of an execution that is not active: the starting flag falls, whoever holds it. */
  function EndExecution(client: Client, id: TaskId): Client {
    client.(starting := None, executing := client.executing - {id})
  }

  function AfterPrepare(w: World, client: Client, step: Step): World
    requires step.PrepareTask?
  {
    var p := Prepare(w.disk, step.request, step.now, step.midnight, step.fault);
    if p.result.Err? || !p.result.value.runsScript
      then w.(disk := p.store.disk, client := Some(EndExecution(client, step.id)))
    else
      w.(disk := p.store.disk,
         tasks := w.tasks[step.id := Task(p.result.value.action, p.result.value.publicationId)],
         client := Some(client.(ledgers := client.ledgers[step.id := p.store.state])))
  }

  function AfterActivate(w: World, client: Client, id: TaskId): World {
    w.(activated := w.activated + {id},
       client := Some(EndExecution(client, id).(active := Some(ActiveTask(id, None, false, false, false)),
                                                launching := client.launching + {id})))
  }

  /** An execution that was prepared and may still become active. */
  predicate InPreparation(w: World, client: Client, id: TaskId) {
    id in client.executing && id in client.ledgers && id in w.tasks
  }

  /** The acknowledgement file gets the phase and the client remembers it. */
  function Acknowledge(w: World, client: Client, phase: Phase, ackWritten: bool): World
    requires client.active.Some?
  {
    var active := client.active.value.(reviewing := false);
    if !ackWritten then w.(client := Some(client.(active := Some(active))))
    else
      w.(acks := w.acks[active.id := phase],
         granted := if phase == Committing then w.granted + {active.id} else w.granted,
         client := Some(client.(active := Some(active.(checkpointPhase := Some(phase))))))
  }

  /** One poll of the active task's checkpoint file; an exception ends it early. */
  function AfterPoll(w: World, client: Client, step: Step): World
    requires step.PollCheckpoint? && client.active.Some?
    requires client.active.value.id in w.checkpoints && client.active.value.id in client.ledgers
  {
    var file := w.checkpoints[client.active.value.id];
    if file.phase == EditorReady then AfterEditorPoll(w, client, step)
    else if file.phase == Committing && client.active.value.reviewRejected then w
    else AfterCommitPoll(w, client, step)
  }

  function AfterEditorPoll(w: World, client: Client, step: Step): World
    requires step.PollCheckpoint? && client.active.Some?
    requires client.active.value.id in w.checkpoints && client.active.value.id in client.ledgers
  {
    var active := client.active.value;
    var file := w.checkpoints[active.id];
    var raw := NO_CHECKPOINT.(evidence := file.content.evidence);
    var stored :=
      ApplyCheckpoint(Store(client.ledgers[active.id], w.disk), file.publicationId, raw, step.now, step.first);
    var w' := PutStore(w, client, active.id, stored.store);
    if stored.result.Err?
       || (stored.result.value.postSettings.Some? && EvidenceError(stored.result.value, step.now).Some?) then w'
    else Acknowledge(w', w'.client.value, EditorReady, step.ackWritten)
  }

  function AfterCommitPoll(w: World, client: Client, step: Step): World
    requires step.PollCheckpoint? && client.active.Some?
    requires client.active.value.id in w.checkpoints && client.active.value.id in client.ledgers
  {
    var active := client.active.value;
    var file := w.checkpoints[active.id];
    if active.checkpointPhase == Some(file.phase) then Answer(w.(client := Some(client)), client, file.phase, step)
    else
      var marked := StoreAndMark(Store(client.ledgers[active.id], w.disk), file, step.now, step.first, step.second);
      var w' := PutStore(w, client, active.id, marked.store);
      if marked.result.Err? then w' else Answer(w', w'.client.value, file.phase, step)
  }

  /** Behind the journal: the review of a commit, then the acknowledgement. */
  function Answer(w: World, client: Client, phase: Phase, step: Step): World
    requires step.PollCheckpoint? && client.active.Some?
  {
    if phase == Submitted || step.review == Accepted then Acknowledge(w, client, phase, step.ackWritten)
    else
      var active := client.active.value;
      var waiting := if step.review == Deferred then active.(reviewing := true) else active.(reviewRejected := true);
      w.(client := Some(client.(active := Some(waiting))))
  }

  /** The recovery context first, then the phase; both are saved before anything is acknowledged. */
  function StoreAndMark(store: Store, file: CheckpointFile, now: int, first: Fault, second: Fault): Reply<Publication> {
    var stored := ApplyCheckpoint(store, file.publicationId, file.content, now, first);
    if stored.result.Err? then stored else MarkPhase(stored.store, file.publicationId, file.phase, now, second)
  }

  function AfterReview(w: World, client: Client, step: Step): World
    requires step.ReviewEnds? && client.active.Some?
  {
    var active := client.active.value;
    if !step.accepted
      then w.(client := Some(client.(active := Some(active.(reviewing := false, reviewRejected := true)))))
    else if active.cleaning then w.(client := Some(client.(active := Some(active.(reviewing := false)))))
    else Acknowledge(w, client, Committing, step.ackWritten)
  }

  function StartCleanup(client: Client): Client {
    if client.active.None? then client
    else client.(active := Some(client.active.value.(cleaning := true)))
  }

  function WithoutFiles(w: World, ids: set<TaskId>): World {
    w.(checkpoints := w.checkpoints - ids, acks := w.acks - ids)
  }

  /**
   * The catch around `am start`: it reports through the ledger object of its own
   * task and cleans up whichever task is active by now.
   */
  function AfterLaunchFailure(w: World, client: Client, step: Step): World
    requires step.LaunchFails? && step.id in client.ledgers && step.id in w.tasks
  {
    var report := FailureReport(w.tasks[step.id].publicationId, "AUTOJS_LAUNCH_FAILED", false);
    var w' := Record(w, client.(launching := client.launching - {step.id}), step.id, report, step.now, step.faults);
    w'.(client := Some(StartCleanup(w'.client.value)))
  }

  function ClientStep(w: World, client: Client, step: Step): World {
    match step
    case StartTask(id) =>
      if Current(client).Some? || id in w.tasks then w
      else w.(client := Some(client.(starting := Some(id), executing := client.executing + {id})))
    case PrepareTask(id, _, _, _, _) =>
      if id !in client.executing || id in w.tasks then w else AfterPrepare(w, client, step)
    case ReportStart(id, result, now, faults) =>
      if !InPreparation(w, client, id) then w else Record(w, client, id, result, now, faults)
    case AbandonStart(id) =>
      if !InPreparation(w, client, id) then w else w.(client := Some(EndExecution(client, id)))
    case Activate(id) => if !InPreparation(w, client, id) then w else AfterActivate(w, client, id)
    case ExecutorError(id) => w.(client := Some(EndExecution(client, id)))
    case LaunchSucceeds(id) => w.(client := Some(client.(launching := client.launching - {id})))
    case LaunchFails(id, _, _) =>
      if id !in client.launching || id !in client.ledgers || id !in w.tasks then w
        else AfterLaunchFailure(w, client, step)
    case PollCheckpoint(_, _, _, _, _) =>
      if client.active.None? || client.active.value.cleaning || client.active.value.reviewing
         || client.active.value.id !in w.checkpoints || client.active.value.id !in client.ledgers then w
      else AfterPoll(w, client, step)
    case ReviewEnds(_, _) =>
      if client.active.None? || !client.active.value.reviewing then w else AfterReview(w, client, step)
    case RecordResult(result, now, faults) =>
      if client.active.None? || client.active.value.id !in client.ledgers || client.active.value.id !in w.tasks then w
      else Record(w, client, client.active.value.id, result, now, faults)
    case BeginCleanup => w.(client := Some(StartCleanup(client)))
    case EndCleanup(removed) =>
      if client.active.None? || !client.active.value.cleaning then w
      else (if removed then WithoutFiles(w, {client.active.value.id}) else w).(client := Some(client.(active := None)))
    case _ => w
  }

  // ----------------------------------------------------------- the scripts

  function Pc(w: World, id: TaskId): Option<ScriptState> {
    if id in w.scripts && id in w.tasks && w.tasks[id].action == Publish then Some(w.scripts[id]) else None
  }

  function MoveScript(w: World, id: TaskId, from: ScriptState, to: ScriptState): World {
    if Pc(w, id) == Some(from) then w.(scripts := w.scripts[id := to]) else w
  }

  function WriteCheckpoint(w: World, id: TaskId, phase: Phase, content: RawCheckpoint): World
    requires id in w.tasks
  {
    w.(checkpoints := w.checkpoints[id := CheckpointFile(w.tasks[id].publicationId, phase, content)])
  }

  predicate AckReads(w: World, id: TaskId, phase: Phase) {
    id in w.acks && w.acks[id] == phase
  }

  function ScriptStep(w: World, step: Step): World {
    match step
    case ScriptStarts(id) =>
      if id !in w.activated || id in w.scripts then w else w.(scripts := w.scripts[id := Working])
    case ScriptWritesEditorReady(id, content) =>
      if Pc(w, id) != Some(Working) then w
      else MoveScript(WriteCheckpoint(w, id, EditorReady, content), id, Working, AwaitingEditorAck)
    case ScriptSeesEditorAck(id) =>
      if AckReads(w, id, EditorReady) then MoveScript(w, id, AwaitingEditorAck, EditorAcked) else w
    case ScriptWritesCommitting(id, content) =>
      if Pc(w, id) != Some(EditorAcked) then w
      else MoveScript(WriteCheckpoint(w, id, Committing, content), id, EditorAcked, AwaitingCommitAck)
    case ScriptSeesCommitAck(id) =>
      if AckReads(w, id, Committing) then MoveScript(w, id, AwaitingCommitAck, Cleared) else w
    case ScriptTaps(id) =>
      if Pc(w, id) != Some(Cleared) then w else MoveScript(w, id, Cleared, Posted).(taps := w.taps + [id])
    case ScriptWritesSubmitted(id, content) =>
      if Pc(w, id) != Some(Posted) then w else WriteCheckpoint(w, id, Submitted, content)
    case ScriptStops(id) =>
      if id !in w.scripts then w else w.(scripts := w.scripts[id := Stopped])
    case _ => w
  }

  predicate IsScriptStep(step: Step) {
    step.ScriptStarts? || step.ScriptWritesEditorReady? || step.ScriptSeesEditorAck? || step.ScriptWritesCommitting?
    || step.ScriptSeesCommitAck? || step.ScriptTaps? || step.ScriptWritesSubmitted? || step.ScriptStops?
  }

  function Apply(w: World, step: Step): World {
    if IsScriptStep(step) then ScriptStep(w, step)
    else if step.ClientCrashes? then w.(client := None)
    else if step.RemoveFiles? then WithoutFiles(w, step.ids)
    else if w.client.Some? then ClientStep(w, w.client.value, step)
    else if step.ClientStarts? then w.(client := Some(Client(None, {}, None, map[], {})))
    else w
  }

  function Run(w: World, steps: seq<Step>): World {
    if steps == [] then w else Apply(Run(w, steps[..|steps| - 1]), steps[|steps| - 1])
  }

  /** Before the first client starts there are files, but no tasks. */
  function Initial(disk: Disk): World {
    World(disk, None, map[], {}, map[], map[], map[], {}, [])
  }

  // --------------------------------------------------------- the invariant

  predicate CommittedIn(state: LedgerState, publicationId: string) {
    publicationId in state.publications && Reached(state.publications[publicationId], Committing)
  }

  predicate JournaledIn(tasks: map<TaskId, Task>, state: LedgerState, id: TaskId) {
    id in tasks && CommittedIn(state, tasks[id].publicationId)
  }

  /** The files hold the publication of `id` at COMMITTING or later. */
  predicate Journaled(w: World, id: TaskId) {
    JournaledIn(w.tasks, Reopen(w.disk), id)
  }

  predicate SamePublication(tasks: map<TaskId, Task>, a: TaskId, b: TaskId) {
    a in tasks && b in tasks && tasks[a].publicationId == tasks[b].publicationId
  }

  /** Every task that was cleared to post is journaled, and no two of them share a publication. */
  ghost predicate GrantsInv(tasks: map<TaskId, Task>, granted: set<TaskId>, state: LedgerState) {
    && (forall id :: id in granted ==> JournaledIn(tasks, state, id))
    && (forall a, b :: a in granted && b in granted && SamePublication(tasks, a, b) ==> a == b)
  }

  /** Acknowledgements and cleared scripts trace back to a grant; a tap happens once per script. */
  ghost predicate ScriptsInv(granted: set<TaskId>, acks: map<TaskId, Phase>, scripts: map<TaskId, ScriptState>,
                             taps: seq<TaskId>)
  {
    && (forall id :: id in acks && acks[id] == Committing ==> id in granted)
    && (forall id :: id in scripts && (scripts[id] == Cleared || scripts[id] == Posted) ==> id in granted)
    && (forall i :: 0 <= i < |taps| ==>
        taps[i] in granted && taps[i] in scripts
        && (scripts[taps[i]] == Posted || scripts[taps[i]] == Stopped))
    && (forall i, j :: 0 <= i < j < |taps| ==> taps[i] != taps[j])
  }

  /** Only publishing scripts write checkpoints, and only for their own publication. */
  ghost predicate CheckpointsInv(tasks: map<TaskId, Task>, checkpoints: map<TaskId, CheckpointFile>) {
    forall id :: id in checkpoints ==>
      && id in tasks && tasks[id].action == Publish
      && checkpoints[id].publicationId == tasks[id].publicationId
      && (checkpoints[id].phase == EditorReady || checkpoints[id].phase == Committing
          || checkpoints[id].phase == Submitted)
  }

  /** A ledger state that has every cleared task at COMMITTING or later. */
  ghost predicate HoldsGrants(tasks: map<TaskId, Task>, granted: set<TaskId>, state: LedgerState) {
    forall id :: id in granted ==> JournaledIn(tasks, state, id)
  }

  /** The current task's ledger object knows all clearances, and nobody else was cleared for its publication. */
  ghost predicate CurrentInv(tasks: map<TaskId, Task>, granted: set<TaskId>, ledgers: map<TaskId, LedgerState>,
                             id: TaskId)
  {
    && id in tasks && id in ledgers
    && HoldsGrants(tasks, granted, ledgers[id])
    && (tasks[id].action == Publish ==> forall other :: other in granted && SamePublication(tasks, other, id) ==>
        other == id)
  }

  /** Past the commit boundary the active task is journaled, in the files and in memory. */
  ghost predicate ActiveInv(tasks: map<TaskId, Task>, state: LedgerState, ledgers: map<TaskId, LedgerState>,
                            active: ActiveTask)
  {
    && active.id in tasks && active.id in ledgers
    && (active.reviewing || active.checkpointPhase == Some(Committing) || active.checkpointPhase == Some(Submitted) ==>
          && JournaledIn(tasks, state, active.id) && JournaledIn(tasks, ledgers[active.id], active.id)
          && tasks[active.id].action == Publish)
  }

  /** At most one execution at a time, and the objects belong to prepared tasks. */
  predicate OneExecution(tasks: map<TaskId, Task>, client: Client) {
    && (client.starting.Some? ==> client.active.None?)
    && (forall id :: id in client.executing ==> client.starting == Some(id))
    && client.ledgers.Keys <= tasks.Keys
  }

  /** The task that is active, or starting and already prepared. */
  function Holder(client: Client): Option<TaskId> {
    if client.active.Some? then Some(client.active.value.id)
    else if client.starting.Some? && client.starting.value in client.executing
      && client.starting.value in client.ledgers
    then client.starting else None
  }

  ghost predicate ClientInv(tasks: map<TaskId, Task>, granted: set<TaskId>, state: LedgerState, client: Client) {
    && OneExecution(tasks, client)
    && (Holder(client).Some? ==> CurrentInv(tasks, granted, client.ledgers, Holder(client).value))
    && (client.active.Some? ==> ActiveInv(tasks, state, client.ledgers, client.active.value))
  }

  ghost predicate Inv(w: World) {
    && GrantsInv(w.tasks, w.granted, Reopen(w.disk))
    && ScriptsInv(w.granted, w.acks, w.scripts, w.taps)
    && CheckpointsInv(w.tasks, w.checkpoints)
    && (w.client.Some? ==> ClientInv(w.tasks, w.granted, Reopen(w.disk), w.client.value))
  }

  /** A state that has every commit of `files`. */
  ghost predicate HoldsCommits(state: LedgerState, files: LedgerState) {
    forall p :: CommittedIn(files, p) ==> CommittedIn(state, p)
  }

  /** A report that changes nothing in the files: no record to change, or no completed save. */
  predicate SavesNothing(w: World, client: Client, step: Step)
    requires step.LaunchFails? && step.id in client.ledgers && step.id in w.tasks
  {
    || w.tasks[step.id].action == Preflight
    || w.tasks[step.id].publicationId !in client.ledgers[step.id].publications
    || step.faults.final != NoFault
  }

  /**
   * What the launch catch does not check: that its task is still active, or its
   * ledger object has every commit the files have, or its report is cut short.
   */
  ghost predicate SafeLaunchCatch(w: World, step: Step) {
    step.LaunchFails? && w.client.Some? && step.id in w.client.value.launching
    && step.id in w.client.value.ledgers && step.id in w.tasks ==>
      var client := w.client.value;
      || (client.active.Some? && client.active.value.id == step.id)
      || SavesNothing(w, client, step)
      || HoldsCommits(client.ledgers[step.id], Reopen(w.disk))
  }

  /** What the catch around an execution does not check: that no other execution is on its way. */
  predicate SafeExecutorCatch(w: World, step: Step) {
    step.ExecutorError? && w.client.Some? ==> w.client.value.executing <= {step.id}
  }

  ghost predicate SafeCatch(w: World, step: Step) {
    SafeLaunchCatch(w, step) && SafeExecutorCatch(w, step)
  }

  // ------------------------------------------------- how its parts are kept

  lemma {:induction false} JournalEvolves(tasks: map<TaskId, Task>, a: LedgerState, b: LedgerState, id: TaskId)
    requires Evolves(a, b) && JournaledIn(tasks, a, id)
    ensures JournaledIn(tasks, b, id)
  {
    assert tasks[id].publicationId in a.publications;
  }

  lemma {:induction false} HeldGrantsEvolve(tasks: map<TaskId, Task>, granted: set<TaskId>, a: LedgerState,
                                            b: LedgerState)
    requires HoldsGrants(tasks, granted, a) && Evolves(a, b)
    ensures HoldsGrants(tasks, granted, b)
  {
    forall id | id in granted ensures JournaledIn(tasks, b, id) {
      JournalEvolves(tasks, a, b, id);
    }
  }

  lemma GrantsAreHeld(tasks: map<TaskId, Task>, granted: set<TaskId>, a: LedgerState, b: LedgerState)
    requires GrantsInv(tasks, granted, a)
    ensures HoldsGrants(tasks, granted, a) && (HoldsGrants(tasks, granted, b) ==> GrantsInv(tasks, granted, b))
  {
  }

  /** An operation on a ledger object that knows a journal entry of the files keeps it in both. */
  lemma {:induction false} FollowingJournal(tasks: map<TaskId, Task>, before: Store, after: Store, now: int, id: TaskId)
    requires Follows(before, after, now)
    requires JournaledIn(tasks, Reopen(before.disk), id) && JournaledIn(tasks, before.state, id)
    ensures JournaledIn(tasks, Reopen(after.disk), id) && JournaledIn(tasks, after.state, id)
  {
    hide Evolves, LedgerInv, Clocked, JournaledIn;
    JournalEvolves(tasks, before.state, after.state, id);
    if Reopen(after.disk) != Reopen(before.disk) {
      JournalEvolves(tasks, before.state, Reopen(after.disk), id);
    }
  }

  lemma {:induction false} FollowingGrants(tasks: map<TaskId, Task>, granted: set<TaskId>, before: Store, after: Store,
                                           now: int)
    requires Follows(before, after, now)
    requires GrantsInv(tasks, granted, Reopen(before.disk)) && HoldsGrants(tasks, granted, before.state)
    ensures GrantsInv(tasks, granted, Reopen(after.disk)) && HoldsGrants(tasks, granted, after.state)
  {
    hide Evolves, LedgerInv, Clocked, GrantsInv, HoldsGrants;
    HeldGrantsEvolve(tasks, granted, before.state, after.state);
    if Reopen(after.disk) != Reopen(before.disk) {
      HeldGrantsEvolve(tasks, granted, before.state, Reopen(after.disk));
      GrantsAreHeld(tasks, granted, Reopen(before.disk), Reopen(after.disk));
    }
  }

  /** Writing back the current task's ledger keeps the invariant. */
  lemma {:induction false} PutStoreKeepsInv(w: World, id: TaskId, after: Store, now: int)
    requires Inv(w) && w.client.Some?
    requires Holder(w.client.value) == Some(id)
    requires Follows(Store(w.client.value.ledgers[id], w.disk), after, now)
    ensures Inv(PutStore(w, w.client.value, id, after))
  {
    hide Evolves, Follows, GrantsInv, HoldsGrants, ScriptsInv, CheckpointsInv, JournaledIn;
    var client := w.client.value;
    var before := Store(client.ledgers[id], w.disk);
    FollowingGrants(w.tasks, w.granted, before, after, now);
    if JournaledIn(w.tasks, Reopen(w.disk), id) && JournaledIn(w.tasks, before.state, id) {
      FollowingJournal(w.tasks, before, after, now, id);
    }
    var client' := client.(ledgers := client.ledgers[id := after.state]);
    assert CurrentInv(w.tasks, w.granted, client'.ledgers, id);
    assert Holder(client') == Holder(client);
  }

  lemma {:induction false} RecordKeepsInv(w: World, id: TaskId, result: ScriptResult, now: int, faults: Faults)
    requires Inv(w) && w.client.Some? && Holder(w.client.value) == Some(id)
    ensures Inv(Record(w, w.client.value, id, result, now, faults))
  {
    hide ApplyScriptResult, Evolves, Follows, GrantsInv, HoldsGrants, ScriptsInv, CheckpointsInv;
    if w.tasks[id].action != Preflight {
      var store := Store(w.client.value.ledgers[id], w.disk);
      ApplyScriptResultFollows(store, w.tasks[id].publicationId, result, now, faults);
      PutStoreKeepsInv(w, id, ApplyScriptResult(store, w.tasks[id].publicationId, result, now, faults).store, now);
    }
  }

  lemma PreparedIdentifier(disk: Disk, request: Request, now: int, midnight: int, fault: Fault)
    ensures var p := Prepare(disk, request, now, midnight, fault).result;
      p.Ok? ==> p.value.publicationId == request.publicationId
  {
  }

  /** A task with a fresh id changes nothing about the others. */
  lemma NewTaskKeeps(w: World, id: TaskId, task: Task, state: LedgerState)
    requires GrantsInv(w.tasks, w.granted, Reopen(w.disk)) && CheckpointsInv(w.tasks, w.checkpoints) && id !in w.tasks
    requires HoldsGrants(w.tasks, w.granted, state)
    ensures GrantsInv(w.tasks[id := task], w.granted, Reopen(w.disk))
            && CheckpointsInv(w.tasks[id := task], w.checkpoints)
    ensures HoldsGrants(w.tasks[id := task], w.granted, state)
  {
  }

  /** A freshly prepared publish concerns a publication nobody was cleared for. */
  lemma {:induction false} PreparedIsCurrent(w: World, step: Step)
    requires step.PrepareTask? && step.id !in w.tasks
    requires GrantsInv(w.tasks, w.granted, Reopen(w.disk))
    requires var p := Prepare(w.disk, step.request, step.now, step.midnight, step.fault);
             p.result.Ok? && p.result.value.runsScript
    ensures var p := Prepare(w.disk, step.request, step.now, step.midnight, step.fault);
      var tasks := w.tasks[step.id := Task(p.result.value.action, p.result.value.publicationId)];
      tasks[step.id].action == Publish ==> forall other ::
        other in w.granted && SamePublication(tasks, other, step.id)
        ==> other == step.id
  {
    PreparedIdentifier(w.disk, step.request, step.now, step.midnight, step.fault);
    var p := Prepare(w.disk, step.request, step.now, step.midnight, step.fault);
    if p.result.value.action == Publish {
      PublishIsNeverRepeated(w.disk, step.request, step.now, step.midnight, step.fault);
    }
    hide Prepare;
    var tasks := w.tasks[step.id := Task(p.result.value.action, p.result.value.publicationId)];
    forall other | p.result.value.action == Publish && other in w.granted
      ensures !SamePublication(tasks, other, step.id)
    {
      assert JournaledIn(w.tasks, Reopen(w.disk), other);
    }
  }

  lemma {:induction false} PrepareKeepsInv(w: World, step: Step)
    requires Inv(w) && w.client.Some? && step.PrepareTask?
    requires step.id in w.client.value.executing && step.id !in w.tasks
    ensures Inv(AfterPrepare(w, w.client.value, step))
  {
    hide Prepare, Evolves, Follows, GrantsInv, HoldsGrants, ScriptsInv, CheckpointsInv, JournaledIn;
    var p := Prepare(w.disk, step.request, step.now, step.midnight, step.fault);
    var before := Store(Reopen(w.disk), w.disk);
    PrepareFollows(w.disk, step.request, step.now, step.midnight, step.fault);
    GrantsAreHeld(w.tasks, w.granted, Reopen(w.disk), Reopen(w.disk));
    FollowingGrants(w.tasks, w.granted, before, p.store, step.now);
    assert w.client.value.active.None?;
    if p.result.Ok? && p.result.value.runsScript {
      var task := Task(p.result.value.action, p.result.value.publicationId);
      PreparedIsCurrent(w, step);
      NewTaskKeeps(w.(disk := p.store.disk), step.id, task, p.store.state);
    }
  }

  /** A successful mark is on disk. */
  lemma {:induction false} MarkIsJournaled(store: Store, file: CheckpointFile, now: int, first: Fault, second: Fault)
    requires file.phase == Committing || file.phase == Submitted
    ensures Follows(store, StoreAndMark(store, file, now, first, second).store, now)
    ensures StoreAndMark(store, file, now, first, second).result.Ok? ==>
      && CommittedIn(Reopen(StoreAndMark(store, file, now, first, second).store.disk), file.publicationId)
      && CommittedIn(StoreAndMark(store, file, now, first, second).store.state, file.publicationId)
  {
    hide ApplyCheckpoint, Follows;
    var stored := ApplyCheckpoint(store, file.publicationId, file.content, now, first);
    ApplyCheckpointFollows(store, file.publicationId, file.content, now, first);
    if stored.result.Ok? {
      MarkPhaseFollows(stored.store, file.publicationId, file.phase, now, second);
      FollowsTransitive(store, stored.store, StoreAndMark(store, file, now, first, second).store, now);
    }
  }

  /** Clearing the current task of a publish that is journaled keeps all grants distinct. */
  lemma GrantKeeps(w: World, id: TaskId, state: LedgerState)
    requires GrantsInv(w.tasks, w.granted, Reopen(w.disk)) && Journaled(w, id)
    requires HoldsGrants(w.tasks, w.granted, state) && JournaledIn(w.tasks, state, id)
    requires forall other :: other in w.granted && SamePublication(w.tasks, other, id) ==> other == id
    ensures GrantsInv(w.tasks, w.granted + {id}, Reopen(w.disk)) && HoldsGrants(w.tasks, w.granted + {id}, state)
    ensures forall other :: other in w.granted + {id} && SamePublication(w.tasks, other, id) ==> other == id
  {
  }

  lemma AckKeepsScripts(w: World, id: TaskId, phase: Phase, granted: set<TaskId>)
    requires ScriptsInv(w.granted, w.acks, w.scripts, w.taps) && w.granted <= granted
    requires phase == Committing ==> id in granted
    ensures ScriptsInv(granted, w.acks[id := phase], w.scripts, w.taps)
  {
  }

  /** Acknowledging the active task is safe once its publication is journaled. */
  lemma {:induction false} AcknowledgeKeepsInv(w: World, phase: Phase, ackWritten: bool)
    requires Inv(w) && w.client.Some? && w.client.value.active.Some?
    requires phase == Committing || phase == Submitted ==>
      && Journaled(w, w.client.value.active.value.id)
      && JournaledIn(w.tasks, w.client.value.ledgers[w.client.value.active.value.id], w.client.value.active.value.id)
      && w.tasks[w.client.value.active.value.id].action == Publish
    ensures Inv(Acknowledge(w, w.client.value, phase, ackWritten))
  {
    hide Evolves, GrantsInv, HoldsGrants, ScriptsInv, CheckpointsInv, JournaledIn;
    var id := w.client.value.active.value.id;
    assert CurrentInv(w.tasks, w.granted, w.client.value.ledgers, id);
    if phase == Committing {
      GrantKeeps(w, id, w.client.value.ledgers[id]);
    }
    var granted := if phase == Committing then w.granted + {id} else w.granted;
    AckKeepsScripts(w, id, phase, granted);
    assert CurrentInv(w.tasks, granted, w.client.value.ledgers, id);
  }

  lemma FileIsOwn(w: World, id: TaskId)
    requires CheckpointsInv(w.tasks, w.checkpoints) && id in w.checkpoints
    ensures id in w.tasks && w.tasks[id].action == Publish
            && w.checkpoints[id].publicationId == w.tasks[id].publicationId
    ensures w.checkpoints[id].phase == EditorReady || w.checkpoints[id].phase == Committing
            || w.checkpoints[id].phase == Submitted
  {
  }

  lemma {:induction false} PollKeepsInv(w: World, step: Step)
    requires Inv(w) && w.client.Some? && step.PollCheckpoint?
    requires var client := w.client.value;
      client.active.Some? && client.active.value.id in w.checkpoints && client.active.value.id in client.ledgers
    ensures Inv(AfterPoll(w, w.client.value, step))
  {
    hide Inv, AfterEditorPoll, AfterCommitPoll;
    var id := w.client.value.active.value.id;
    assert w.checkpoints[id].phase in {EditorReady, Committing, Submitted} by {
      assert Inv(w);
      CheckpointPhases(w, id);
    }
    if w.checkpoints[id].phase == EditorReady {
      EditorPollKeepsInv(w, step);
    } else {
      CommitPollKeepsInv(w, step);
    }
  }

  lemma {:induction false} CheckpointPhases(w: World, id: TaskId)
    requires Inv(w) && id in w.checkpoints
    ensures w.checkpoints[id].phase in {EditorReady, Committing, Submitted}
  {
    FileIsOwn(w, id);
  }

  lemma {:induction false} EditorPollKeepsInv(w: World, step: Step)
    requires Inv(w) && w.client.Some? && step.PollCheckpoint? && w.client.value.active.Some?
    requires w.client.value.active.value.id in w.checkpoints && w.client.value.active.value.id in w.client.value.ledgers
    ensures Inv(AfterEditorPoll(w, w.client.value, step))
  {
    hide Inv, ApplyCheckpoint, EvidenceError, Acknowledge, Follows;
    var client := w.client.value;
    var id := client.active.value.id;
    var file := w.checkpoints[id];
    var store := Store(client.ledgers[id], w.disk);
    var raw := NO_CHECKPOINT.(evidence := file.content.evidence);
    var stored := ApplyCheckpoint(store, file.publicationId, raw, step.now, step.first);
    ApplyCheckpointFollows(store, file.publicationId, raw, step.now, step.first);
    PutStoreKeepsInv(w, id, stored.store, step.now);
    AcknowledgeKeepsInv(PutStore(w, client, id, stored.store), EditorReady, step.ackWritten);
  }

  lemma {:induction false} CommitPollKeepsInv(w: World, step: Step)
    requires Inv(w) && w.client.Some? && step.PollCheckpoint? && w.client.value.active.Some?
    requires var id := w.client.value.active.value.id;
      id in w.checkpoints && id in w.client.value.ledgers && w.checkpoints[id].phase in {Committing, Submitted}
    ensures Inv(AfterCommitPoll(w, w.client.value, step))
  {
    hide Inv, StoreAndMark, Answer, Follows, Reopen;
    var client := w.client.value;
    var id := client.active.value.id;
    var file := w.checkpoints[id];
    if client.active.value.checkpointPhase == Some(file.phase) {
      PastTheBoundary(w);
      assert w.(client := Some(client)) == w;
      AnswerKeepsInv(w, file.phase, step);
    } else {
      var store := Store(client.ledgers[id], w.disk);
      var marked := StoreAndMark(store, file, step.now, step.first, step.second);
      OwnCheckpoint(w, id);
      MarkIsJournaled(store, file, step.now, step.first, step.second);
      PutStoreKeepsInv(w, id, marked.store, step.now);
      if marked.result.Ok? {
        AnswerKeepsInv(PutStore(w, client, id, marked.store), file.phase, step);
      }
    }
  }

  lemma {:induction false} OwnCheckpoint(w: World, id: TaskId)
    requires Inv(w) && id in w.checkpoints
    ensures id in w.tasks && w.tasks[id].action == Publish
            && w.checkpoints[id].publicationId == w.tasks[id].publicationId
  {
    FileIsOwn(w, id);
  }

  /** What the client remembers of an acknowledged or reviewed commit. */
  lemma PastTheBoundary(w: World)
    requires Inv(w) && w.client.Some? && w.client.value.active.Some?
    ensures var active := w.client.value.active.value;
      active.reviewing || active.checkpointPhase == Some(Committing) || active.checkpointPhase == Some(Submitted) ==>
        active.id in w.tasks && active.id in w.client.value.ledgers
        && Journaled(w, active.id) && JournaledIn(w.tasks, w.client.value.ledgers[active.id], active.id)
        && w.tasks[active.id].action == Publish
  {
  }

  lemma {:induction false} AnswerKeepsInv(w: World, phase: Phase, step: Step)
    requires Inv(w) && w.client.Some? && step.PollCheckpoint? && w.client.value.active.Some?
    requires var id := w.client.value.active.value.id;
      && id in w.tasks && id in w.client.value.ledgers && w.tasks[id].action == Publish
      && Journaled(w, id) && JournaledIn(w.tasks, w.client.value.ledgers[id], id)
    ensures Inv(Answer(w, w.client.value, phase, step))
  {
    hide Acknowledge, GrantsInv, HoldsGrants, ScriptsInv, CheckpointsInv;
    AcknowledgeKeepsInv(w, phase, step.ackWritten);
  }

  /** Reporting a failure never moves a phase, and saves at most once. */
  lemma FailureReportKeepsPhases(store: Store, id: string, code: string, now: int, faults: Faults)
    ensures var after := ApplyScriptResult(store, id, FailureReport(id, code, false), now, faults).store;
      && (id in store.state.publications ==> after.disk == Persist(store.disk, after.state, faults.final).0)
      && (id !in store.state.publications ==> after == store)
      && forall p :: CommittedIn(after.state, p) <==> CommittedIn(store.state, p)
  {
  }

  /** A launch failure leaves the files alone, or makes them the commits of the failing task's object. */
  lemma {:induction false} LaunchFailureFiles(w: World, step: Step)
    requires w.client.Some? && step.LaunchFails? && step.id in w.client.value.ledgers && step.id in w.tasks
    ensures var w' := AfterLaunchFailure(w, w.client.value, step);
      && (SavesNothing(w, w.client.value, step) ==> Reopen(w'.disk) == Reopen(w.disk))
      && (!SavesNothing(w, w.client.value, step) ==>
            forall p :: CommittedIn(Reopen(w'.disk), p) <==> CommittedIn(w.client.value.ledgers[step.id], p))
      && w'.client.Some? && step.id in w'.client.value.ledgers
      && (forall p :: CommittedIn(w'.client.value.ledgers[step.id], p) <==>
          CommittedIn(w.client.value.ledgers[step.id], p))
      && w'.client.value.ledgers == w.client.value.ledgers[step.id := w'.client.value.ledgers[step.id]]
  {
    hide ApplyScriptResult, CommittedIn;
    var before := Store(w.client.value.ledgers[step.id], w.disk);
    var p := w.tasks[step.id].publicationId;
    var after :=
      ApplyScriptResult(before, p, FailureReport(p, "AUTOJS_LAUNCH_FAILED", false), step.now, step.faults).store;
    FailureReportKeepsPhases(before, p, "AUTOJS_LAUNCH_FAILED", step.now, step.faults);
    PersistIsAtomic(before.disk, after.state, step.faults.final);
  }

  /** The launch catch keeps the invariant when it is safe. */
  lemma {:induction false} LaunchFailureKeepsInv(w: World, step: Step)
    requires Inv(w) && w.client.Some? && step.LaunchFails? && SafeLaunchCatch(w, step)
    requires step.id in w.client.value.launching && step.id in w.client.value.ledgers && step.id in w.tasks
    ensures Inv(AfterLaunchFailure(w, w.client.value, step))
  {
    if w.client.value.active.Some? && w.client.value.active.value.id == step.id {
      CurrentLaunchFailureKeepsInv(w, step);
    } else {
      OtherLaunchFailureKeepsInv(w, step);
    }
  }

  lemma {:induction false} CurrentLaunchFailureKeepsInv(w: World, step: Step)
    requires Inv(w) && w.client.Some? && step.LaunchFails? && step.id in w.tasks
    requires w.client.value.active.Some? && w.client.value.active.value.id == step.id
             && step.id in w.client.value.ledgers
    ensures Inv(AfterLaunchFailure(w, w.client.value, step))
  {
    hide ApplyScriptResult, Record, Evolves, GrantsInv, HoldsGrants, ScriptsInv, CheckpointsInv, CurrentInv;
    var client := w.client.value.(launching := w.client.value.launching - {step.id});
    var idle := w.(client := Some(client));
    assert Holder(client) == Holder(w.client.value) == Some(step.id);
    var report := FailureReport(w.tasks[step.id].publicationId, "AUTOJS_LAUNCH_FAILED", false);
    RecordKeepsInv(idle, step.id, report, step.now, step.faults);
    RecordIgnoresClient(w, idle, client, step.id, report, step.now, step.faults);
  }

  lemma {:induction false} OtherLaunchFailureKeepsInv(w: World, step: Step)
    requires Inv(w) && w.client.Some? && step.LaunchFails? && step.id in w.client.value.ledgers && step.id in w.tasks
    requires SavesNothing(w, w.client.value, step) || HoldsCommits(w.client.value.ledgers[step.id], Reopen(w.disk))
    ensures Inv(AfterLaunchFailure(w, w.client.value, step))
  {
    hide ApplyScriptResult, CommittedIn, ScriptsInv, CheckpointsInv, Reopen;
    LaunchFailureFiles(w, step);
    LaunchFailureFrame(w, step);
    var client, w' := w.client.value, AfterLaunchFailure(w, w.client.value, step);
    var client' := w'.client.value;
    hide AfterLaunchFailure, SavesNothing;
    assert HoldsCommits(Reopen(w'.disk), Reopen(w.disk));
    assert forall id :: JournaledIn(w.tasks, Reopen(w.disk), id) ==> JournaledIn(w.tasks, Reopen(w'.disk), id);
    assert forall id, o :: o in client.ledgers && JournaledIn(w.tasks, client.ledgers[o], id) ==>
           JournaledIn(w.tasks, client'.ledgers[o], id);
  }

  /** What a launch failure does not touch. */
  lemma {:induction false} LaunchFailureFrame(w: World, step: Step)
    requires w.client.Some? && step.LaunchFails? && step.id in w.client.value.ledgers && step.id in w.tasks
    ensures var w' := AfterLaunchFailure(w, w.client.value, step);
      && w'.client.Some?
      && w' == w.(disk := w'.disk, client := w'.client)
      && w'.client.value
         == StartCleanup(w.client.value).(ledgers := w'.client.value.ledgers,
                                          launching := w.client.value.launching - {step.id})
  {
    hide ApplyScriptResult;
  }

  lemma {:induction false} RecordIgnoresClient(w: World, v: World, client: Client, id: TaskId, result: ScriptResult,
                                               now: int, faults: Faults)
    requires id in client.ledgers && id in w.tasks && v == w.(client := v.client)
    ensures Record(w, client, id, result, now, faults) == Record(v, client, id, result, now, faults)
    ensures Record(w, client, id, result, now, faults).client.Some?
    ensures Record(w, client, id, result, now, faults).client.value
         == client.(ledgers := Record(w, client, id, result, now, faults).client.value.ledgers)
  {
    hide ApplyScriptResult;
  }

  lemma {:induction false} AloneInPreparation(w: World, id: TaskId)
    requires Inv(w) && w.client.Some? && InPreparation(w, w.client.value, id)
    ensures Holder(w.client.value) == Some(id) && w.client.value.executing <= {id}
  {
    hide GrantsInv, HoldsGrants, ScriptsInv, CheckpointsInv, JournaledIn;
  }

  /** Starting and becoming active change who holds the slot, and nothing else. */
  lemma {:induction false} SlotKeepsInv(w: World, id: TaskId)
    requires Inv(w) && w.client.Some?
    ensures Current(w.client.value).None? && id !in w.tasks ==>
      Inv(w.(client := Some(w.client.value.(starting := Some(id), executing := w.client.value.executing + {id}))))
    ensures InPreparation(w, w.client.value, id) ==> Inv(AfterActivate(w, w.client.value, id))
  {
    hide GrantsInv, HoldsGrants, ScriptsInv, CheckpointsInv, JournaledIn;
  }

  /**
   * The end of an execution clears the starting flag whoever holds it; that keeps
   * the invariant if and only if no other execution is on its way.
   */
  lemma {:induction false} EndKeepsInvIff(w: World, id: TaskId)
    requires Inv(w) && w.client.Some?
    ensures Inv(w.(client := Some(EndExecution(w.client.value, id)))) <==> w.client.value.executing <= {id}
  {
    hide GrantsInv, HoldsGrants, ScriptsInv, CheckpointsInv, JournaledIn, ActiveInv, CurrentInv;
    var ended := EndExecution(w.client.value, id);
    if !(w.client.value.executing <= {id}) {
      var other :| other in w.client.value.executing && other != id;
      assert other in ended.executing && ended.starting != Some(other);
      assert !OneExecution(w.tasks, ended);
    }
  }

  /** Cleanup and the end of a launch. */
  lemma {:induction false} CleanupKeepsInv(w: World, id: TaskId)
    requires Inv(w) && w.client.Some?
    ensures Inv(w.(client := Some(StartCleanup(w.client.value))))
    ensures Inv(w.(client := Some(w.client.value.(launching := w.client.value.launching - {id}))))
    ensures Inv(w.(client := Some(w.client.value.(active := None))))
    ensures w.client.value.active.Some? ==>
      Inv(WithoutFiles(w, {w.client.value.active.value.id}).(client := Some(w.client.value.(active := None))))
  {
    hide GrantsInv, HoldsGrants, ScriptsInv, CheckpointsInv, JournaledIn;
    if w.client.value.active.Some? {
      RemovingKeeps(w, {w.client.value.active.value.id});
    }
  }

  lemma {:induction false} ReviewKeepsInv(w: World, step: Step)
    requires Inv(w) && w.client.Some? && step.ReviewEnds? && w.client.value.active.Some?
             && w.client.value.active.value.reviewing
    ensures Inv(AfterReview(w, w.client.value, step))
  {
    hide Acknowledge, GrantsInv, HoldsGrants, ScriptsInv, CheckpointsInv;
    PastTheBoundary(w);
    AcknowledgeKeepsInv(w, Committing, step.ackWritten);
  }

  lemma ActiveIsHolder(w: World)
    requires Inv(w) && w.client.Some? && w.client.value.active.Some?
    ensures Holder(w.client.value) == Some(w.client.value.active.value.id)
  {
  }

  lemma {:induction false} ClientStepKeepsInv(w: World, step: Step)
    requires Inv(w) && w.client.Some? && SafeCatch(w, step)
    ensures Inv(ClientStep(w, w.client.value, step))
  {
    hide AfterPrepare, AfterActivate, EndExecution, AfterPoll, AfterReview, AfterLaunchFailure, Record, Inv,
         StartCleanup, WithoutFiles;
    hide HoldsCommits, SavesNothing;
    var client := w.client.value;
    match step
    case StartTask(id) => SlotKeepsInv(w, id);
    case Activate(id) => SlotKeepsInv(w, id);
    case ExecutorError(id) => EndKeepsInvIff(w, id);
    case PrepareTask(id, _, _, _, _) =>
      if id in client.executing && id !in w.tasks {
        PrepareKeepsInv(w, step);
      }
    case ReportStart(id, result, now, faults) =>
      if InPreparation(w, client, id) {
        AloneInPreparation(w, id);
        RecordKeepsInv(w, id, result, now, faults);
      }
    case AbandonStart(id) =>
      if InPreparation(w, client, id) {
        AloneInPreparation(w, id);
        EndKeepsInvIff(w, id);
      }
    case LaunchSucceeds(id) => CleanupKeepsInv(w, id);
    case LaunchFails(id, _, _) =>
      if id in client.launching && id in client.ledgers && id in w.tasks {
        LaunchFailureKeepsInv(w, step);
      }
    case PollCheckpoint(_, _, _, _, _) =>
      if client.active.Some? && client.active.value.id in w.checkpoints && client.active.value.id in client.ledgers {
        PollKeepsInv(w, step);
      }
    case ReviewEnds(accepted, ackWritten) =>
      if client.active.Some? && client.active.value.reviewing {
        ReviewKeepsInv(w, step);
      }
    case RecordResult(result, now, faults) =>
      if client.active.Some? && client.active.value.id in client.ledgers && client.active.value.id in w.tasks {
        ActiveIsHolder(w);
        RecordKeepsInv(w, client.active.value.id, result, now, faults);
      }
    case BeginCleanup => CleanupKeepsInv(w, 0);
    case EndCleanup(removed) => CleanupKeepsInv(w, 0);
    case _ =>
  }

  lemma RemovingKeeps(w: World, ids: set<TaskId>)
    requires ScriptsInv(w.granted, w.acks, w.scripts, w.taps) && CheckpointsInv(w.tasks, w.checkpoints)
    ensures ScriptsInv(w.granted, w.acks - ids, w.scripts, w.taps) && CheckpointsInv(w.tasks, w.checkpoints - ids)
  {
  }

  /** Moving a script keeps `ScriptsInv` when clearance has a grant and a posted script never posts again. */
  lemma MoveKeepsScripts(w: World, id: TaskId, to: ScriptState, taps: seq<TaskId>)
    requires ScriptsInv(w.granted, w.acks, w.scripts, w.taps)
    requires to == Cleared || to == Posted ==> id in w.granted
    requires id in w.scripts && (w.scripts[id] == Posted || w.scripts[id] == Stopped) ==> to == Stopped
    requires taps == w.taps || (taps == w.taps + [id] && to == Posted && id in w.scripts)
    ensures ScriptsInv(w.granted, w.acks, w.scripts[id := to], taps)
  {
  }

  /** What an acknowledgement or a cleared script tells. */
  lemma ClearedIsGranted(w: World, id: TaskId)
    requires ScriptsInv(w.granted, w.acks, w.scripts, w.taps)
    ensures AckReads(w, id, Committing) || (id in w.scripts && w.scripts[id] == Cleared) ==> id in w.granted
  {
  }

  lemma WrittenCheckpointKeeps(w: World, id: TaskId, phase: Phase, content: RawCheckpoint)
    requires CheckpointsInv(w.tasks, w.checkpoints) && id in w.tasks && w.tasks[id].action == Publish
    requires phase == EditorReady || phase == Committing || phase == Submitted
    ensures CheckpointsInv(w.tasks, WriteCheckpoint(w, id, phase, content).checkpoints)
  {
  }

  lemma {:induction false} ScriptStepKeepsInv(w: World, step: Step)
    requires Inv(w)
    ensures Inv(ScriptStep(w, step))
  {
    hide GrantsInv, ScriptsInv, CheckpointsInv, ClientInv, AckReads;
    match step
    case ScriptStarts(id) =>
      if id in w.activated && id !in w.scripts {
        MoveKeepsScripts(w, id, Working, w.taps);
      }
    case ScriptWritesEditorReady(id, content) =>
      if Pc(w, id) == Some(Working) {
        WrittenCheckpointKeeps(w, id, EditorReady, content);
        MoveKeepsScripts(w, id, AwaitingEditorAck, w.taps);
      }
    case ScriptSeesEditorAck(id) =>
      if Pc(w, id) == Some(AwaitingEditorAck) {
        MoveKeepsScripts(w, id, EditorAcked, w.taps);
      }
    case ScriptWritesCommitting(id, content) =>
      if Pc(w, id) == Some(EditorAcked) {
        WrittenCheckpointKeeps(w, id, Committing, content);
        MoveKeepsScripts(w, id, AwaitingCommitAck, w.taps);
      }
    case ScriptSeesCommitAck(id) =>
      ClearedIsGranted(w, id);
      if Pc(w, id) == Some(AwaitingCommitAck) && AckReads(w, id, Committing) {
        MoveKeepsScripts(w, id, Cleared, w.taps);
      }
    case ScriptTaps(id) =>
      ClearedIsGranted(w, id);
      if Pc(w, id) == Some(Cleared) {
        MoveKeepsScripts(w, id, Posted, w.taps + [id]);
      }
    case ScriptWritesSubmitted(id, content) =>
      if Pc(w, id) == Some(Posted) {
        WrittenCheckpointKeeps(w, id, Submitted, content);
      }
    case ScriptStops(id) =>
      if id in w.scripts {
        MoveKeepsScripts(w, id, Stopped, w.taps);
      }
    case _ =>
  }

  lemma {:induction false} StepKeepsInv(w: World, step: Step)
    requires Inv(w) && SafeCatch(w, step)
    ensures Inv(Apply(w, step))
  {
    hide ClientStep, ScriptStep, GrantsInv, ScriptsInv, CheckpointsInv, CurrentInv, SafeLaunchCatch;
    if step.RemoveFiles? {
      RemovingKeeps(w, step.ids);
    } else if IsScriptStep(step) {
      ScriptStepKeepsInv(w, step);
    } else if w.client.Some? && !step.ClientCrashes? {
      ClientStepKeepsInv(w, step);
    }
  }

  /** Both catches are safe whenever they fire. */
  ghost predicate SafeCatches(w: World, steps: seq<Step>) {
    forall i :: 0 <= i < |steps| ==> SafeCatch(Run(w, steps[..i]), steps[i])
  }

  lemma FreshInv(disk: Disk)
    ensures Inv(Initial(disk))
  {
  }

  lemma {:induction false} RunKeepsInv(disk: Disk, steps: seq<Step>)
    requires SafeCatches(Initial(disk), steps)
    ensures Inv(Run(Initial(disk), steps))
  {
    hide SafeCatch, Apply, Inv;
    if steps == [] {
      FreshInv(disk);
    } else {
      var prefix := steps[..|steps| - 1];
      assert forall i :: 0 <= i < |prefix| ==> prefix[..i] == steps[..i];
      RunKeepsInv(disk, prefix);
      StepKeepsInv(Run(Initial(disk), prefix), steps[|steps| - 1]);
    }
  }

  /** Every tap is journaled, and no two taps concern the same publication. */
  ghost predicate AtMostOncePosted(w: World) {
    && (forall i :: 0 <= i < |w.taps| ==> Journaled(w, w.taps[i]))
    && (forall i, j :: 0 <= i < j < |w.taps| ==> !SamePublication(w.tasks, w.taps[i], w.taps[j]))
  }

  lemma {:induction false} InvPostsAtMostOnce(w: World)
    requires Inv(w)
    ensures AtMostOncePosted(w)
  {
    hide Evolves, CheckpointsInv, ClientInv;
    forall i, j | 0 <= i < j < |w.taps| ensures !SamePublication(w.tasks, w.taps[i], w.taps[j]) {
      assert w.taps[i] in w.granted && w.taps[j] in w.granted;
    }
  }

  /**
   * Whatever the interleaving of scripts, polls, crashes and restarts, the Post
   * tap for one publication happens at most once, and only while the files hold
   * that publication at COMMITTING or later, as long as both catches are safe.
   */
  lemma {:induction false} AtMostOneTap(disk: Disk, steps: seq<Step>)
    requires SafeCatches(Initial(disk), steps)
    ensures AtMostOncePosted(Run(Initial(disk), steps))
  {
    RunKeepsInv(disk, steps);
    InvPostsAtMostOnce(Run(Initial(disk), steps));
  }

  /** After a tap, no later request for that publication is prepared as a publish. */
  lemma {:induction false} TappedIsNeverPublishedAgain(disk: Disk, steps: seq<Step>, id: TaskId, request: Request,
                                                       now: int, midnight: int, fault: Fault)
    requires SafeCatches(Initial(disk), steps)
    requires var w := Run(Initial(disk), steps);
      id in w.taps && id in w.tasks && request.publicationId == w.tasks[id].publicationId
    ensures var p := Prepare(Run(Initial(disk), steps).disk, request, now, midnight, fault).result;
      p.Ok? && p.value.runsScript ==> p.value.action != Publish
  {
    AtMostOneTap(disk, steps);
    var w := Run(Initial(disk), steps);
    var p := Prepare(w.disk, request, now, midnight, fault).result;
    if p.Ok? && p.value.runsScript && p.value.action == Publish {
      PublishIsNeverRepeated(w.disk, request, now, midnight, fault);
    }
  }

  // ------------------------------------------------- losing the main file

  /**
   * The main file alone may be lost right behind a save without losing a commit
   * if and only if the save brought no new commit: behind the COMMITTING mark one
   * more save has to follow before the backup protects it.
   */
  lemma {:induction false} LossKeepsJournalIff(disk: Disk, state: LedgerState)
    ensures var saved := Persist(disk, state, NoFault).0;
      HoldsCommits(Reopen(LoseMain(saved)), Reopen(saved)) <==> HoldsCommits(Reopen(disk), state)
  {
    hide CommittedIn;
  }

  /** A loss that keeps the commits keeps the protocol's invariant. */
  lemma {:induction false} SafeLossKeepsInv(w: World)
    requires Inv(w) && HoldsCommits(Reopen(LoseMain(w.disk)), Reopen(w.disk))
    ensures Inv(w.(disk := LoseMain(w.disk)))
  {
    hide CommittedIn, ScriptsInv, CheckpointsInv, Reopen;
    assert forall id :: JournaledIn(w.tasks, Reopen(w.disk), id) ==> JournaledIn(w.tasks, Reopen(LoseMain(w.disk)), id);
  }
}
