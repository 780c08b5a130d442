/**
 * The interleavings that break the publish protocol. The catch around `am start`
 * (mobile/src/client.ts:2071-2080) does not check that its task is still active,
 * so a late launch failure writes a stale ledger object over the journal; the
 * catch around an execution (mobile/src/client.ts:2097-2108) clears the starting
 * flag of another task, so two executions prepare the same publication. Each
 * posts twice; for the launch catch the exact condition is stated.
 */
module UnsafeCatches {
  import opened Common
  import opened TikTokLedger
  import opened TikTokPolicy
  import opened PublishProtocol

  /**
   * For every world and every launch failure: its report leaves all commits of
   * the files in the files if and only if it saves nothing, or the ledger object
   * of the failing task has all of them.
   */
  lemma {:induction false} LaunchFailureKeepsJournalIff(w: World, step: Step)
    requires w.client.Some? && step.LaunchFails? && step.id in w.client.value.ledgers && step.id in w.tasks
    ensures HoldsCommits(Reopen(AfterLaunchFailure(w, w.client.value, step).disk), Reopen(w.disk))
       <==> SavesNothing(w, w.client.value, step) || HoldsCommits(w.client.value.ledgers[step.id], Reopen(w.disk))
  {
    LaunchFailureFiles(w, step);
    hide AfterLaunchFailure, SavesNothing, CommittedIn, Reopen;
  }

  lemma {:induction false} RunConcat(w: World, a: seq<Step>, b: seq<Step>)
    ensures Run(w, a + b) == Run(Run(w, a), b)
  {
    if b == [] {
      assert a + b == a;
    } else {
      assert (a + b)[..|a + b| - 1] == a + b[..|b| - 1];
      RunConcat(w, a, b[..|b| - 1]);
    }
  }

  lemma RunNone(w: World)
    ensures Run(w, []) == w
  {
  }

  lemma {:induction false} RunOne(w: World, steps: seq<Step>, step: Step)
    ensures Run(w, steps + [step]) == Apply(Run(w, steps), step)
  {
    assert (steps + [step])[..|steps + [step]| - 1] == steps;
  }

  // ------------------------------------------------------------- a witness

  const MEDIA := Media("/sdcard/post.mp4", true, 7, None)
  const CAPTION := Caption("title", "details", 11)
  const REQUEST :=
    Request(Publish, "publication", Some("@shop"), None, None, [MEDIA], [CAPTION], 13, PostingPolicy(0, 1, 0, 0))

  /** The record of the witness request before any commit. */
  predicate Uncommitted(state: LedgerState) {
    && "publication" in state.publications
    && var r := state.publications["publication"];
       r.phase == Prechecked && r.requestFingerprint == 13 && r.postSettings.None? && r.evidence.None?
  }

  predicate Untouched(w: World, id: TaskId) {
    id !in w.tasks && Unlaunched(w, id)
  }

  predicate Unlaunched(w: World, id: TaskId) {
    id !in w.activated && id !in w.scripts && id !in w.acks && id !in w.checkpoints
  }

  /** An idle client facing a task id nobody used. */
  predicate ReadyFor(w: World, id: TaskId) {
    w.client.Some? && Current(w.client.value).None? && Untouched(w, id)
  }

  /** Told to publish, with its ledger object loaded from the files, and not active yet. */
  predicate Waiting(w: World, id: TaskId) {
    && w.client.Some? && id in w.client.value.executing
    && id in w.client.value.ledgers && Uncommitted(w.client.value.ledgers[id])
    && id in w.tasks && w.tasks[id] == Task(Publish, "publication")
    && Unlaunched(w, id)
  }

  /** The same, active. */
  predicate Started(w: World, id: TaskId, taps: seq<TaskId>) {
    && w.client.Some? && w.client.value.active == Some(ActiveTask(id, None, false, false, false))
    && w.client.value.starting.None?
    && id in w.client.value.ledgers && Uncommitted(w.client.value.ledgers[id])
    && id in w.tasks && w.tasks[id] == Task(Publish, "publication")
    && id in w.activated && id !in w.scripts && id !in w.acks && id !in w.checkpoints
    && w.taps == taps
  }

  /** What the witness steps of task `id` leave alone. */
  ghost predicate SameOthers(w: World, w': World, id: TaskId) {
    && w.client.Some? && w'.client.Some?
    && w.client.value.executing - {id} == w'.client.value.executing - {id}
    && w.client.value.launching <= w'.client.value.launching
    && (forall other :: other in w.tasks && other != id ==> other in w'.tasks && w'.tasks[other] == w.tasks[other])
    && (forall other :: other in w.client.value.ledgers && other != id ==>
          other in w'.client.value.ledgers && w'.client.value.ledgers[other] == w.client.value.ledgers[other])
    && w'.tasks.Keys <= w.tasks.Keys + {id} && w'.activated <= w.activated + {id}
    && w'.scripts.Keys <= w.scripts.Keys + {id} && w'.acks.Keys <= w.acks.Keys + {id}
    && w'.checkpoints.Keys <= w.checkpoints.Keys + {id}
  }

  lemma {:induction false} WaitingStays(w: World, w': World, other: TaskId, id: TaskId)
    requires SameOthers(w, w', id) && Waiting(w, other) && other != id
    ensures Waiting(w', other)
  {
    assert other in w.client.value.executing - {id};
  }

  lemma SameOthersTransitive(a: World, b: World, c: World, id: TaskId)
    requires SameOthers(a, b, id) && SameOthers(b, c, id)
    ensures SameOthers(a, c, id)
  {
  }

  /** From an uncommitted record, any fresh task can be prepared as a publish again. */
  lemma {:induction false} CanPrepare(w: World, id: TaskId) returns (steps: seq<Step>)
    requires ReadyFor(w, id)
    requires Uncommitted(Reopen(w.disk)) || (w.disk == Disk(Missing, Missing))
    ensures var w' := Run(w, steps);
      && Waiting(w', id) && SameOthers(w, w', id)
      && w'.client.value.active.None? && w'.taps == w.taps && Uncommitted(Reopen(w'.disk))
  {
    var prepare := PrepareTask(id, REQUEST, 1, 0, NoFault);
    steps := [StartTask(id), prepare];
    var w1 := StartWitness(w, id);
    var w2 := PreparingWitness(w1, id);
    hide Run, Apply, Uncommitted;
    RunTwo(w, StartTask(id), prepare);
  }

  lemma {:induction false} RunTwo(w: World, a: Step, b: Step)
    ensures Run(w, [a, b]) == Apply(Apply(w, a), b)
  {
    hide Apply;
    assert Run(w, []) == w;
    RunOne(w, [], a);
    RunOne(w, [a], b);
    assert [] + [a] == [a] && [a] + [b] == [a, b];
  }

  lemma {:induction false} StartWitness(w: World, id: TaskId) returns (w1: World)
    requires ReadyFor(w, id)
    ensures w1 == Apply(w, StartTask(id))
    ensures w1
            == w.(client := Some(w.client.value.(starting := Some(id), executing := w.client.value.executing + {id})))
  {
    w1 := Apply(w, StartTask(id));
  }

  lemma {:induction false} PreparingWitness(w: World, id: TaskId) returns (w1: World)
    requires w.client.Some? && id in w.client.value.executing && id !in w.tasks
    requires Uncommitted(Reopen(w.disk)) || (w.disk == Disk(Missing, Missing))
    ensures w1 == Apply(w, PrepareTask(id, REQUEST, 1, 0, NoFault))
    ensures Uncommitted(Reopen(w1.disk))
    ensures w1 == w.(disk := w1.disk, tasks := w.tasks[id := Task(Publish, "publication")],
                     client := Some(w.client.value.(ledgers := w.client.value.ledgers[id := Reopen(w1.disk)])))
  {
    PrepareWitness(w.disk);
    hide Prepare, Uncommitted;
    w1 := Apply(w, PrepareTask(id, REQUEST, 1, 0, NoFault));
  }

  lemma {:induction false} CanActivate(w: World, id: TaskId)
    requires Waiting(w, id)
    ensures var w' := Run(w, [Activate(id)]);
      && Started(w', id, w.taps) && SameOthers(w, w', id)
      && id in w'.client.value.launching && w'.tasks == w.tasks && w'.disk == w.disk
  {
    hide Uncommitted;
    ActivateWitness(w, id);
    RunNone(w);
    hide Run, Apply;
    RunOne(w, [], Activate(id));
    assert [] + [Activate(id)] == [Activate(id)];
  }

  lemma ActivateWitness(w: World, id: TaskId)
    requires w.client.Some? && InPreparation(w, w.client.value, id)
    ensures Apply(w, Activate(id)) == AfterActivate(w, w.client.value, id)
  {
  }

  lemma {:induction false} PrepareWitness(disk: Disk)
    requires Uncommitted(Reopen(disk)) || (disk == Disk(Missing, Missing))
    ensures var p := Prepare(disk, REQUEST, 1, 0, NoFault);
      && p.result.Ok? && p.result.value.runsScript && p.result.value.action == Publish
      && p.result.value.publicationId == "publication"
      && Uncommitted(p.store.state) && Reopen(p.store.disk) == p.store.state
  {
    if disk == Disk(Missing, Missing) {
      SelectWitness();
      assert CommittedIdsSince(map[], 0) == {};
    }
  }

  lemma {:induction false} SelectWitness()
    ensures Select(MediaFingerprints([MEDIA]), map[], 0, 1) == Some(0)
    ensures Select(CaptionFingerprints([CAPTION]), map[], 0, 1) == Some(0)
  {
    assert Select(MediaFingerprints([MEDIA])[..0], map[], 0, 1) == None;
    assert Select(CaptionFingerprints([CAPTION])[..0], map[], 0, 1) == None;
  }

  /** The script reaches its editor checkpoint and is acknowledged. */
  predicate AtEditor(w: World, id: TaskId, taps: seq<TaskId>) {
    && w.client.Some? && w.client.value.active == Some(ActiveTask(id, Some(EditorReady), false, false, false))
    && w.client.value.starting.None?
    && id in w.client.value.ledgers && Uncommitted(w.client.value.ledgers[id])
    && id in w.tasks && w.tasks[id] == Task(Publish, "publication")
    && id in w.scripts && w.scripts[id] == EditorAcked
    && w.taps == taps
  }

  lemma EditorCheckpointWitness(store: Store)
    requires Uncommitted(store.state)
    ensures var stored := ApplyCheckpoint(store, "publication", NO_CHECKPOINT, 1, NoFault);
      stored.result.Ok? && stored.result.value.postSettings.None? && Uncommitted(stored.store.state)
  {
  }

  lemma CommitWitness(store: Store)
    requires Uncommitted(store.state)
    ensures var marked := StoreAndMark(store, CheckpointFile("publication", Committing, NO_CHECKPOINT), 1, NoFault,
                                       NoFault);
      marked.result.Ok? && Uncommitted(Reopen(LoseMain(marked.store.disk)))
  {
  }

  lemma ApplyScript(w: World, step: Step)
    requires IsScriptStep(step)
    ensures Apply(w, step) == ScriptStep(w, step)
  {
  }

  lemma {:induction false} ApplyPoll(w: World, step: Step)
    requires step.PollCheckpoint? && w.client.Some? && w.client.value.active.Some?
    requires !w.client.value.active.value.cleaning && !w.client.value.active.value.reviewing
    requires w.client.value.active.value.id in w.checkpoints && w.client.value.active.value.id in w.client.value.ledgers
    ensures Apply(w, step) == AfterPoll(w, w.client.value, step)
  {
    hide AfterPoll;
  }

  /** The poll of an editor checkpoint acknowledges it. */
  lemma {:induction false} EditorPollWitness(w: World, id: TaskId)
    requires w.client.Some? && w.client.value.active == Some(ActiveTask(id, None, false, false, false))
    requires id in w.client.value.ledgers && Uncommitted(w.client.value.ledgers[id])
    requires id in w.checkpoints && w.checkpoints[id] == CheckpointFile("publication", EditorReady, NO_CHECKPOINT)
    ensures var w' := AfterPoll(w, w.client.value, PollCheckpoint(1, NoFault, NoFault, Accepted, true));
      && w'.client.Some? && w'.client.value.active == Some(ActiveTask(id, Some(EditorReady), false, false, false))
      && w'.client.value.starting == w.client.value.starting
      && id in w'.client.value.ledgers && Uncommitted(w'.client.value.ledgers[id])
      && AckReads(w', id, EditorReady)
      && w' == w.(disk := w'.disk, client := w'.client, acks := w'.acks)
      && SameOthers(w, w', id)
  {
    hide ApplyCheckpoint, Uncommitted;
    EditorCheckpointWitness(Store(w.client.value.ledgers[id], w.disk));
  }

  /** The poll of a commit checkpoint journals the commit and acknowledges it. */
  lemma {:induction false} CommitPollWitness(w: World, id: TaskId)
    requires w.client.Some? && w.client.value.active == Some(ActiveTask(id, Some(EditorReady), false, false, false))
    requires id in w.client.value.ledgers && Uncommitted(w.client.value.ledgers[id])
    requires id in w.checkpoints && w.checkpoints[id] == CheckpointFile("publication", Committing, NO_CHECKPOINT)
    ensures var w' := AfterPoll(w, w.client.value, PollCheckpoint(1, NoFault, NoFault, Accepted, true));
      && w'.client.Some? && w'.client.value.active == Some(ActiveTask(id, Some(Committing), false, false, false))
      && w'.client.value.starting == w.client.value.starting
      && AckReads(w', id, Committing)
      && w' == w.(disk := w'.disk, client := w'.client, acks := w'.acks, granted := w'.granted)
      && SameOthers(w, w', id) && Uncommitted(Reopen(LoseMain(w'.disk)))
  {
    hide StoreAndMark, Uncommitted;
    CommitWitness(Store(w.client.value.ledgers[id], w.disk));
  }

  lemma {:induction false} CanReachEditor(w: World, id: TaskId, taps: seq<TaskId>) returns (steps: seq<Step>)
    requires Started(w, id, taps)
    ensures AtEditor(Run(w, steps), id, taps) && SameOthers(w, Run(w, steps), id)
    ensures Run(w, steps).tasks == w.tasks
  {
    hide AfterPoll, Uncommitted, Apply, ScriptStep, Run, SameOthers;
    var poll := PollCheckpoint(1, NoFault, NoFault, Accepted, true);
    var w2 := WriteEditorWitness(w, id);
    EditorPollWitness(w2, id);
    ApplyPoll(w2, poll);
    var w3 := Apply(w2, poll);
    SeeEditorAckWitness(w3, id);
    SameOthersTransitive(w, w2, w3, id);
    SameOthersTransitive(w, w3, Apply(w3, ScriptSeesEditorAck(id)), id);
    steps := [ScriptStarts(id), ScriptWritesEditorReady(id, NO_CHECKPOINT), poll, ScriptSeesEditorAck(id)];
    RunFour(w, steps[0], steps[1], steps[2], steps[3]);
  }

  lemma {:induction false} WriteEditorWitness(w: World, id: TaskId) returns (w2: World)
    requires w.client.Some? && id in w.tasks && w.tasks[id] == Task(Publish, "publication")
    requires id in w.activated && id !in w.scripts
    ensures w2 == Apply(Apply(w, ScriptStarts(id)), ScriptWritesEditorReady(id, NO_CHECKPOINT))
    ensures w2
            == w.(scripts := w2.scripts,
                  checkpoints := w.checkpoints[id := CheckpointFile("publication", EditorReady, NO_CHECKPOINT)])
    ensures id in w2.scripts && w2.scripts[id] == AwaitingEditorAck
    ensures SameOthers(w, w2, id)
  {
    hide ClientStep;
    var w1 := w.(scripts := w.scripts[id := Working]);
    ApplyScript(w, ScriptStarts(id));
    ApplyScript(w1, ScriptWritesEditorReady(id, NO_CHECKPOINT));
    w2 := Apply(w1, ScriptWritesEditorReady(id, NO_CHECKPOINT));
  }

  lemma {:induction false} SeeEditorAckWitness(w: World, id: TaskId)
    requires w.client.Some? && id in w.tasks && w.tasks[id] == Task(Publish, "publication")
    requires id in w.scripts && w.scripts[id] == AwaitingEditorAck && AckReads(w, id, EditorReady)
    ensures Apply(w, ScriptSeesEditorAck(id)) == w.(scripts := w.scripts[id := EditorAcked])
    ensures SameOthers(w, Apply(w, ScriptSeesEditorAck(id)), id)
  {
    hide ClientStep;
    ApplyScript(w, ScriptSeesEditorAck(id));
  }

  lemma {:induction false} RunFour(w: World, a: Step, b: Step, c: Step, d: Step)
    ensures Run(w, [a, b, c, d]) == Apply(Apply(Apply(Apply(w, a), b), c), d)
  {
    hide Apply;
    assert Run(w, []) == w;
    RunOne(w, [], a);
    RunOne(w, [a], b);
    RunOne(w, [a, b], c);
    RunOne(w, [a, b, c], d);
    assert [] + [a] == [a] && [a] + [b] == [a, b] && [a, b] + [c] == [a, b, c] && [a, b, c] + [d] == [a, b, c, d];
  }

  /** An acknowledged script taps. */
  lemma {:induction false} TapWitness(w: World, id: TaskId) returns (w': World)
    requires w.client.Some? && id in w.scripts && w.scripts[id] == AwaitingCommitAck && AckReads(w, id, Committing)
    requires id in w.tasks && w.tasks[id].action == Publish
    ensures w' == Apply(Apply(w, ScriptSeesCommitAck(id)), ScriptTaps(id))
    ensures w' == w.(scripts := w'.scripts, taps := w.taps + [id])
    ensures SameOthers(w, w', id)
  {
    hide ClientStep, ScriptStep, Apply;
    var w1 := w.(scripts := w.scripts[id := Cleared]);
    ScriptClears(w, id);
    ScriptPosts(w1, id);
    ApplyScript(w, ScriptSeesCommitAck(id));
    ApplyScript(w1, ScriptTaps(id));
    w' := Apply(w1, ScriptTaps(id));
  }

  lemma ScriptClears(w: World, id: TaskId)
    requires id in w.scripts && w.scripts[id] == AwaitingCommitAck && AckReads(w, id, Committing)
    requires id in w.tasks && w.tasks[id].action == Publish
    ensures ScriptStep(w, ScriptSeesCommitAck(id)) == w.(scripts := w.scripts[id := Cleared])
  {
  }

  lemma ScriptPosts(w: World, id: TaskId)
    requires id in w.scripts && w.scripts[id] == Cleared && id in w.tasks && w.tasks[id].action == Publish
    ensures ScriptStep(w, ScriptTaps(id)) == w.(scripts := w.scripts[id := Posted], taps := w.taps + [id])
  {
  }

  /** Past the editor nothing stands between a publishing script and its tap. */
  lemma {:induction false} CanTap(w: World, id: TaskId, taps: seq<TaskId>) returns (steps: seq<Step>)
    requires AtEditor(w, id, taps)
    ensures var w' := Run(w, steps);
      && w'.taps == taps + [id]
      && SameOthers(w, w', id)
      && w'.client.value.active.Some? && w'.client.value.active.value.id == id && w'.client.value.starting.None?
      && w'.tasks == w.tasks && Uncommitted(Reopen(LoseMain(w'.disk)))
  {
    hide AfterPoll, Uncommitted, Apply, ScriptStep, Run, SameOthers;
    var poll := PollCheckpoint(1, NoFault, NoFault, Accepted, true);
    var w1 := WriteCommitWitness(w, id);
    CommitPollWitness(w1, id);
    ApplyPoll(w1, poll);
    var w2 := Apply(w1, poll);
    var w3 := TapWitness(w2, id);
    SameOthersTransitive(w, w1, w2, id);
    SameOthersTransitive(w, w2, w3, id);
    steps := [ScriptWritesCommitting(id, NO_CHECKPOINT), poll, ScriptSeesCommitAck(id), ScriptTaps(id)];
    RunFour(w, steps[0], steps[1], steps[2], steps[3]);
  }

  lemma {:induction false} WriteCommitWitness(w: World, id: TaskId) returns (w1: World)
    requires w.client.Some? && id in w.tasks && w.tasks[id] == Task(Publish, "publication")
    requires id in w.scripts && w.scripts[id] == EditorAcked
    ensures w1 == Apply(w, ScriptWritesCommitting(id, NO_CHECKPOINT))
    ensures w1 == w.(scripts := w.scripts[id := AwaitingCommitAck],
                     checkpoints := w.checkpoints[id := CheckpointFile("publication", Committing, NO_CHECKPOINT)])
    ensures SameOthers(w, w1, id)
  {
    hide ClientStep;
    ApplyScript(w, ScriptWritesCommitting(id, NO_CHECKPOINT));
    w1 := Apply(w, ScriptWritesCommitting(id, NO_CHECKPOINT));
  }

  /** A waiting task becomes active and posts. */
  lemma {:induction false} CanPost(w: World, id: TaskId) returns (steps: seq<Step>)
    requires Waiting(w, id)
    ensures var w' := Run(w, steps);
      && w'.taps == w.taps + [id]
      && SameOthers(w, w', id) && w'.tasks == w.tasks
      && w'.client.value.active.Some? && w'.client.value.active.value.id == id && w'.client.value.starting.None?
      && Uncommitted(Reopen(LoseMain(w'.disk)))
  {
    hide Uncommitted, Run, SameOthers;
    CanActivate(w, id);
    var w1 := Run(w, [Activate(id)]);
    var edit := CanReachEditor(w1, id, w.taps);
    var w2 := Run(w1, edit);
    var tap := CanTap(w2, id, w.taps);
    steps := [Activate(id)] + edit + tap;
    RunConcat(w, [Activate(id)], edit);
    RunConcat(w, [Activate(id)] + edit, tap);
    SameOthersTransitive(w, w1, w2, id);
    SameOthersTransitive(w, w2, Run(w2, tap), id);
  }

  /** Closing the active task leaves an idle client. */
  lemma {:induction false} CleanupWitness(w: World) returns (steps: seq<Step>)
    requires w.client.Some? && w.client.value.active.Some?
    ensures var w' := Run(w, steps);
      && w'.client == Some(w.client.value.(active := None))
      && w' == w.(client := w'.client)
  {
    hide ClientStep;
    steps := [BeginCleanup, EndCleanup(false)];
    var w1 := w.(client := Some(StartCleanup(w.client.value)));
    assert ClientStep(w, w.client.value, BeginCleanup) == w1 by { BeginWitness(w); }
    assert ClientStep(w1, w1.client.value, EndCleanup(false))
           == w.(client := Some(w.client.value.(active := None))) by { EndWitness(w1); }
    assert Run(w, []) == w;
    RunOne(w, [], BeginCleanup);
    RunOne(w, [BeginCleanup], EndCleanup(false));
    assert [] + [BeginCleanup] == [BeginCleanup] && [BeginCleanup] + [EndCleanup(false)] == steps;
  }

  lemma BeginWitness(w: World)
    requires w.client.Some?
    ensures ClientStep(w, w.client.value, BeginCleanup) == w.(client := Some(StartCleanup(w.client.value)))
  {
  }

  lemma EndWitness(w: World)
    requires w.client.Some? && w.client.value.active.Some? && w.client.value.active.value.cleaning
    ensures ClientStep(w, w.client.value, EndCleanup(false)) == w.(client := Some(w.client.value.(active := None)))
  {
  }

  // ------------------------------------------------------- the double posts

  /**
   * A double post: the launch of task 1 fails only after the client timed it
   * out, resumed the publication as task 2 and journaled and posted it. The
   * failure report of task 1 puts the old ledger object back, and task 3 posts again.
   */
  lemma {:induction false} LateLaunchFailurePostsTwice() returns (steps: seq<Step>)
    ensures var w := Run(Initial(Disk(Missing, Missing)), steps);
      && w.taps == [2, 3]
      && SamePublication(w.tasks, 2, 3)
    ensures !SafeCatches(Initial(Disk(Missing, Missing)), steps)
  {
    hide Run, Apply, Uncommitted, SafeCatches, AtMostOncePosted;
    var w0 := Initial(Disk(Missing, Missing));
    var reverted := PostThenRevert(w0);
    var w1 := Run(w0, reverted);
    var prepare3 := CanPrepare(w1, 3);
    var w2 := Run(w1, prepare3);
    var post3 := CanPost(w2, 3);
    steps := reverted + prepare3 + post3;
    RunConcat(w0, reverted, prepare3);
    RunConcat(w0, reverted + prepare3, post3);
    DoublePostsAreUnsafe(steps);
  }

  lemma {:induction false} DoublePostsAreUnsafe(steps: seq<Step>)
    requires var w := Run(Initial(Disk(Missing, Missing)), steps); w.taps == [2, 3] && SamePublication(w.tasks, 2, 3)
    ensures !SafeCatches(Initial(Disk(Missing, Missing)), steps)
  {
    hide Run, SafeCatches, AtMostOncePosted;
    TwoPostsAreTooMany(Run(Initial(Disk(Missing, Missing)), steps));
    if SafeCatches(Initial(Disk(Missing, Missing)), steps) {
      AtMostOneTap(Disk(Missing, Missing), steps);
    }
  }

  lemma {:induction false} TwoPostsAreTooMany(w: World)
    requires w.taps == [2, 3] && SamePublication(w.tasks, 2, 3)
    ensures !AtMostOncePosted(w)
  {
    assert SamePublication(w.tasks, w.taps[0], w.taps[1]);
  }

  /** Task 2 posts, and the late failure of task 1 reverts the journal. */
  lemma {:induction false} PostThenRevert(w0: World) returns (steps: seq<Step>)
    requires w0 == Initial(Disk(Missing, Missing))
    ensures var w := Run(w0, steps);
      && ReadyFor(w, 3) && w.taps == [2] && Uncommitted(Reopen(w.disk))
      && 2 in w.tasks && w.tasks[2] == Task(Publish, "publication")
  {
    hide Run, Apply, Uncommitted;
    var first := StartAndTimeOut(w0);
    var w1 := Run(w0, first);
    var prepare2 := CanPrepare(w1, 2);
    var w2 := Run(w1, prepare2);
    var post2 := CanPost(w2, 2);
    var w3 := Run(w2, post2);
    var late := LaunchFails(1, 1, Faults(NoFault, NoFault, NoFault));
    LateFailureWitness(w3, late);
    RunNone(w3);
    RunOne(w3, [], late);
    assert [] + [late] == [late];
    var w4 := Run(w3, [late]);
    var clean := CleanupWitness(w4);
    steps := first + prepare2 + post2 + [late] + clean;
    RunConcat(w0, first, prepare2);
    RunConcat(w0, first + prepare2, post2);
    RunConcat(w0, first + prepare2 + post2, [late]);
    RunConcat(w0, first + prepare2 + post2 + [late], clean);
  }

  lemma {:induction false} LateFailureWitness(w: World, late: Step)
    requires late == LaunchFails(1, 1, Faults(NoFault, NoFault, NoFault))
    requires w.client.Some? && 1 in w.client.value.launching
    requires w.client.value.starting.None? && w.client.value.active.Some?
    requires 1 in w.client.value.ledgers && Uncommitted(w.client.value.ledgers[1])
    requires 1 in w.tasks && w.tasks[1] == Task(Publish, "publication")
    ensures var w' := Apply(w, late);
      && w'.client.Some? && w'.client.value.active.Some? && w'.client.value.starting.None?
      && Uncommitted(Reopen(w'.disk))
      && w' == w.(disk := w'.disk, client := w'.client)
  {
    hide ApplyScriptResult;
    FailedReportWitness(Store(w.client.value.ledgers[1], w.disk));
  }

  lemma FailedReportWitness(store: Store)
    requires Uncommitted(store.state)
    ensures var report := FailureReport("publication", "AUTOJS_LAUNCH_FAILED", false);
      Uncommitted(Reopen(ApplyScriptResult(store, "publication", report, 1,
                                           Faults(NoFault, NoFault, NoFault)).store.disk))
  {
  }

  /** Task 1 starts, its launch hangs, and the client gives up on it. */
  lemma {:induction false} StartAndTimeOut(w0: World) returns (steps: seq<Step>)
    requires w0 == Initial(Disk(Missing, Missing))
    ensures var w := Run(w0, steps);
      && w.client.Some?
      && ReadyFor(w, 2) && 1 in w.client.value.launching && w.taps == []
      && 1 in w.client.value.ledgers && Uncommitted(w.client.value.ledgers[1])
      && Uncommitted(Reopen(w.disk))
      && 1 in w.tasks && w.tasks[1] == Task(Publish, "publication")
      && Untouched(w, 3)
  {
    hide Run, ClientStep, Uncommitted;
    var start := [ClientStarts];
    assert start == [] + [ClientStarts];
    RunNone(w0);
    RunOne(w0, [], ClientStarts);
    var w1 := Run(w0, [] + [ClientStarts]);
    var prepare := CanPrepare(w1, 1);
    var w2 := Run(w1, prepare);
    CanActivate(w2, 1);
    var w3 := Run(w2, [Activate(1)]);
    var clean := CleanupWitness(w3);
    steps := start + prepare + [Activate(1)] + clean;
    RunConcat(w0, start, prepare);
    RunConcat(w0, start + prepare, [Activate(1)]);
    RunConcat(w0, start + prepare + [Activate(1)], clean);
  }

  /**
   * Another double post: the launch of task 1 fails while task 2 is preparing the
   * publication, and the report of that failure throws. The catch around the
   * execution clears the starting flag, so task 3 prepares the same publication
   * beside task 2, and both post.
   */
  lemma {:induction false} LateExecutorErrorPostsTwice() returns (steps: seq<Step>)
    ensures var w := Run(Initial(Disk(Missing, Missing)), steps);
      && w.taps == [2, 3]
      && SamePublication(w.tasks, 2, 3)
    ensures !SafeCatches(Initial(Disk(Missing, Missing)), steps)
  {
    hide Run, Apply, Uncommitted, SafeCatches, SameOthers, Waiting;
    var w0 := Initial(Disk(Missing, Missing));
    var both := TwoWaiting(w0);
    var w1 := Run(w0, both);
    var post2 := CanPost(w1, 2);
    var w2 := Run(w1, post2);
    WaitingStays(w1, w2, 3, 2);
    var clean := CleanupWitness(w2);
    var w3 := Run(w2, clean);
    IdleWaiting(w2, w3, 3);
    var post3 := CanPost(w3, 3);
    steps := both + post2 + clean + post3;
    RunConcat(w0, both, post2);
    RunConcat(w0, both + post2, clean);
    RunConcat(w0, both + post2 + clean, post3);
    DoublePostsAreUnsafe(steps);
  }

  lemma IdleWaiting(w: World, w': World, id: TaskId)
    requires Waiting(w, id) && w' == w.(client := w'.client) && w'.client == Some(w.client.value.(active := None))
    ensures Waiting(w', id)
  {
  }

  /** Tasks 2 and 3 are prepared at the same time. */
  lemma {:induction false} TwoWaiting(w0: World) returns (steps: seq<Step>)
    requires w0 == Initial(Disk(Missing, Missing))
    ensures var w := Run(w0, steps);
      && Waiting(w, 2) && Waiting(w, 3) && w.taps == []
      && 2 in w.tasks && 3 in w.tasks && SamePublication(w.tasks, 2, 3)
  {
    hide Run, Apply, Uncommitted;
    var first := StartAndTimeOut(w0);
    var w1 := Run(w0, first);
    var prepare2 := CanPrepare(w1, 2);
    var w2 := Run(w1, prepare2);
    var throws := ReportThrows(w2);
    var w3 := Run(w2, throws);
    var prepare3 := CanPrepare(w3, 3);
    var w4 := Run(w3, prepare3);
    WaitingStays(w3, w4, 2, 3);
    steps := first + prepare2 + throws + prepare3;
    RunConcat(w0, first, prepare2);
    RunConcat(w0, first + prepare2, throws);
    RunConcat(w0, first + prepare2 + throws, prepare3);
  }

  /** The launch of task 1 is reported as failed beside task 2, then its execution throws. */
  lemma {:induction false} ReportThrows(w: World) returns (steps: seq<Step>)
    requires w.client.Some? && 1 in w.client.value.launching && w.client.value.active.None?
    requires 1 in w.client.value.ledgers && Uncommitted(w.client.value.ledgers[1])
    requires 1 in w.tasks && w.tasks[1] == Task(Publish, "publication")
    requires Waiting(w, 2) && Untouched(w, 3)
    ensures var w' := Run(w, steps);
      && Waiting(w', 2) && ReadyFor(w', 3) && Uncommitted(Reopen(w'.disk))
      && w'.taps == w.taps && w'.tasks == w.tasks && w'.client.value.active.None?
  {
    hide Uncommitted;
    var late := LaunchFails(1, 1, Faults(NoFault, NoFault, NoFault));
    steps := [late, ExecutorError(1)];
    var w1 := LateReportWitness(w, late);
    hide Run, Apply;
    RunTwo(w, late, ExecutorError(1));
    ThrowWitness(w1);
  }

  lemma {:induction false} LateReportWitness(w: World, late: Step) returns (w1: World)
    requires late == LaunchFails(1, 1, Faults(NoFault, NoFault, NoFault))
    requires w.client.Some? && 1 in w.client.value.launching && w.client.value.active.None?
    requires 1 in w.client.value.ledgers && Uncommitted(w.client.value.ledgers[1])
    requires 1 in w.tasks && w.tasks[1] == Task(Publish, "publication")
    ensures w1 == Apply(w, late) && w1.client.Some? && Uncommitted(Reopen(w1.disk))
    ensures var client, left := w.client.value, w1.client.value;
      && 1 in left.ledgers && left.ledgers == client.ledgers[1 := left.ledgers[1]]
      && left == client.(ledgers := left.ledgers, launching := client.launching - {1})
      && w1 == w.(disk := w1.disk, client := w1.client)
  {
    hide ApplyScriptResult;
    FailedReportWitness(Store(w.client.value.ledgers[1], w.disk));
    w1 := Apply(w, late);
  }

  lemma ThrowWitness(w: World)
    requires w.client.Some?
    ensures Apply(w, ExecutorError(1)) == w.(client := Some(EndExecution(w.client.value, 1)))
  {
  }
}
