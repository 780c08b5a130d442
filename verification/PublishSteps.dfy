/**
 * When the client answers a script (mobile/src/client.ts, the checkpoint poll): an
 * acknowledgement is written exactly behind completed saves, good evidence and an
 * accepted review, and for the phase that was asked for.
 */
module PublishSteps {
  import opened Common
  import opened PublishOutcomes
  import opened PublishProtocol
  import opened TikTokLedger
  import opened TikTokPolicy

  /** The active task has a checkpoint to be looked at. */
  predicate Polls(w: World, id: TaskId) {
    && w.client.Some? && w.client.value.active.Some? && w.client.value.active.value.id == id
    && !w.client.value.active.value.cleaning && !w.client.value.active.value.reviewing
    && id in w.checkpoints && id in w.client.value.ledgers
  }

  /** The acknowledgement of this phase, and the memory of it; a commit is a clearance. */
  predicate Answered(w: World, after: World, id: TaskId, phase: Phase) {
    && after.acks == w.acks[id := phase]
    && after.granted == (if phase == Committing then w.granted + {id} else w.granted)
    && after.client.Some? && after.client.value.active.Some?
    && after.client.value.active.value.id == id && after.client.value.active.value.checkpointPhase == Some(phase)
    && !after.client.value.active.value.reviewing
  }

  /** No acknowledgement, and none will follow from a review that did not begin. */
  predicate Silent(w: World, after: World) {
    after.acks == w.acks && after.granted == w.granted
  }

  /** The record that a checkpoint is about, when its evidence can be merged. */
  predicate Merges(state: LedgerState, id: string, evidence: RawEvidence, now: int) {
    id in state.publications && (evidence.Absent? || Acceptable(state.publications[id], evidence, now))
  }

  /** Evidence that fits is there, with what the checkpoint brings. */
  predicate CoveredBy(record: Publication, evidence: RawEvidence, now: int) {
    Acceptable(record, evidence, now) || Covered(record, now)
  }

  lemma {:induction false} MergedCover(before: Publication, after: Publication, evidence: RawEvidence, now: int)
    requires SameIdentity(before, after) && (evidence.Absent? || Acceptable(before, evidence, now))
    requires after.evidence == if evidence.Absent? then before.evidence
                               else Some(Evidence(Public, YourBrand, true, evidence.verifiedAt.value))
    ensures Covered(after, now) <==> CoveredBy(before, evidence, now)
  {}

  lemma CoveredAfter(record: Publication, now: int)
    ensures record.postSettings.Some? && EvidenceError(record, now).Some? <==> !Covered(record, now)
  {
    CoveredIff(record, now);
  }

  lemma {:induction false} PollIs(w: World, id: TaskId, step: Step)
    requires Polls(w, id) && step.PollCheckpoint?
    ensures Apply(w, step) == AfterPoll(w, w.client.value, step)
  {
    hide AfterPoll;
  }

  /** EDITOR_READY is answered exactly when its evidence could be saved and covers the settings. */
  lemma {:induction false} EditorReadyIsAnsweredIff(w: World, id: TaskId, step: Step)
    requires Polls(w, id) && step.PollCheckpoint? && w.checkpoints[id].phase == EditorReady
    ensures var after, file, state := Apply(w, step), w.checkpoints[id], w.client.value.ledgers[id];
      var good := Merges(state, file.publicationId, file.content.evidence, step.now)
                  && CoveredBy(state.publications[file.publicationId], file.content.evidence, step.now)
                  && step.first == NoFault && step.ackWritten;
      if good then Answered(w, after, id, EditorReady) else Silent(w, after)
  {
    hide Apply, ApplyCheckpoint, Acceptable, Covered, Baseline, IsPostId, AfterCommitPoll;
    var file, state := w.checkpoints[id], w.client.value.ledgers[id];
    var raw := NO_CHECKPOINT.(evidence := file.content.evidence);
    PollIs(w, id, step);
    CheckpointOutcome(Store(state, w.disk), file.publicationId, raw, step.now, step.first);
    if Merges(state, file.publicationId, file.content.evidence, step.now) {
      var stored := ApplyCheckpoint(Store(state, w.disk), file.publicationId, raw, step.now, step.first).store;
      var before, after := state.publications[file.publicationId], stored.state.publications[file.publicationId];
      MergedCover(before, after, file.content.evidence, step.now);
      CoveredAfter(after, step.now);
    }
  }

  /** A mark behind its checkpoint is saved. */
  predicate Journals(state: LedgerState, file: CheckpointFile, step: Step)
    requires step.PollCheckpoint?
  {
    && Merges(state, file.publicationId, file.content.evidence, step.now)
    && CoveredBy(state.publications[file.publicationId], file.content.evidence, step.now)
    && PhaseOrder(state.publications[file.publicationId].phase) <= PhaseOrder(file.phase)
    && step.first == NoFault && step.second == NoFault
  }

  lemma {:induction false} MarkIsSavedIff(store: Store, file: CheckpointFile, step: Step)
    requires step.PollCheckpoint? && (file.phase == Committing || file.phase == Submitted)
    ensures StoreAndMark(store, file, step.now, step.first, step.second).result.Ok?
       <==> Journals(store.state, file, step)
  {
    hide ApplyCheckpoint, MarkPhase, Acceptable, Covered, Baseline, IsPostId;
    var id := file.publicationId;
    CheckpointOutcome(store, id, file.content, step.now, step.first);
    var stored := ApplyCheckpoint(store, id, file.content, step.now, step.first).store;
    MarkOutcome(stored, id, file.phase, step.now, step.second);
    if Merges(store.state, id, file.content.evidence, step.now) {
      MergedCover(store.state.publications[id], stored.state.publications[id], file.content.evidence, step.now);
    }
  }

  /**
   * COMMITTING and SUBMITTED are answered exactly behind the saved mark (or one saved
   * before) and, for a commit, an accepted review; a deferred review is waited for, a
   * rejected one is remembered.
   */
  lemma {:induction false} MarkIsAnsweredIff(w: World, id: TaskId, step: Step)
    requires Polls(w, id) && step.PollCheckpoint?
    requires w.checkpoints[id].phase == Committing || w.checkpoints[id].phase == Submitted
    ensures var after, file, active := Apply(w, step), w.checkpoints[id], w.client.value.active.value;
      var journaled := active.checkpointPhase == Some(file.phase) || Journals(w.client.value.ledgers[id], file, step);
      if file.phase == Committing && active.reviewRejected then after == w
      else if !journaled then Silent(w, after)
      else if file.phase == Submitted || step.review == Accepted then
        if step.ackWritten then Answered(w, after, id, file.phase) else Silent(w, after)
      else
        && Silent(w, after) && after.client.Some? && after.client.value.active.Some?
        && after.client.value.active.value.reviewing == (step.review == Deferred)
        && after.client.value.active.value.reviewRejected == (active.reviewRejected || step.review == Rejected)
  {
    hide Apply, StoreAndMark, Journals, AfterEditorPoll;
    PollIs(w, id, step);
    MarkIsSavedIff(Store(w.client.value.ledgers[id], w.disk), w.checkpoints[id], step);
  }

  /** The end of a deferred review: acceptance clears the task, unless it is being cleaned up. */
  lemma {:induction false} ReviewIsAnsweredIff(w: World, id: TaskId, step: Step)
    requires step.ReviewEnds? && w.client.Some? && w.client.value.active.Some?
    requires w.client.value.active.value.id == id && w.client.value.active.value.reviewing
    ensures var after, active := Apply(w, step), w.client.value.active.value;
      && (if step.accepted && !active.cleaning && step.ackWritten then Answered(w, after, id, Committing)
          else Silent(w, after))
      && after.client.Some? && after.client.value.active.Some? && !after.client.value.active.value.reviewing
      && after.client.value.active.value.reviewRejected == (active.reviewRejected || !step.accepted)
  {}

  lemma {:induction false} LaunchFailureIs(w: World, step: Step)
    requires step.LaunchFails? && w.client.Some? && step.id in w.client.value.launching
    requires step.id in w.client.value.ledgers && step.id in w.tasks
    ensures Apply(w, step) == AfterLaunchFailure(w, w.client.value, step)
  {
    hide AfterLaunchFailure;
  }

  /** A launch that fails also begins the cleanup of whichever task is active. */
  lemma {:induction false} LaunchFailureCleansUp(w: World, step: Step)
    requires step.LaunchFails? && w.client.Some? && step.id in w.client.value.launching
    requires step.id in w.client.value.ledgers && step.id in w.tasks
    ensures var after, before := Apply(w, step), w.client.value;
      && after.client.Some?
      && after.client.value.launching == before.launching - {step.id}
      && after.client.value.active == (match before.active case None => None
                                       case Some(active) => Some(active.(cleaning := true)))
      && Silent(w, after) && after.taps == w.taps
  {
    hide Apply, ApplyScriptResult;
    LaunchFailureIs(w, step);
  }

  /** The end of a cleanup frees the slot, and takes the task's files along when they could be removed. */
  lemma {:induction false} CleanupFrees(w: World, removed: bool)
    requires w.client.Some? && w.client.value.active.Some? && w.client.value.active.value.cleaning
    ensures var after, id := Apply(w, EndCleanup(removed)), w.client.value.active.value.id;
      && after.client == Some(w.client.value.(active := None))
      && (removed ==> id !in after.checkpoints && id !in after.acks)
      && (!removed ==> after.checkpoints == w.checkpoints && after.acks == w.acks)
      && (forall other :: other != id ==>
            (other in after.acks <==> other in w.acks) && (other in after.checkpoints <==> other in w.checkpoints))
  {}

  /** Removing task files, which any process may do, takes those of the given tasks and nothing else. */
  lemma {:induction false} FilesGo(w: World, ids: set<TaskId>)
    ensures var after := Apply(w, RemoveFiles(ids));
      && after == w.(checkpoints := after.checkpoints, acks := after.acks)
      && (forall id :: id in after.acks <==> id in w.acks && id !in ids)
      && (forall id :: id in after.checkpoints <==> id in w.checkpoints && id !in ids)
  {}

  // ------------------------------------------------------------ the script

  /** The script of a publishing task stands here. */
  predicate Stands(w: World, id: TaskId, state: ScriptState) {
    id in w.tasks && w.tasks[id].action == Publish && id in w.scripts && w.scripts[id] == state
  }

  /** The script moved on and, with `phase`, left this checkpoint; nothing else changed. */
  predicate MovesOn(w: World, after: World, id: TaskId, to: ScriptState, phase: Option<Phase>, content: RawCheckpoint)
    requires id in w.tasks
  {
    after == w.(scripts := w.scripts[id := to],
                checkpoints := if phase.None? then w.checkpoints
                  else w.checkpoints[id := CheckpointFile(w.tasks[id].publicationId, phase.value, content)])
  }

  lemma {:induction false} WritesEditorReady(w: World, id: TaskId, content: RawCheckpoint)
    ensures var after := Apply(w, ScriptWritesEditorReady(id, content));
      if Stands(w, id, Working) then MovesOn(w, after, id, AwaitingEditorAck, Some(EditorReady), content)
      else after == w
  {
    hide ClientStep;
  }

  lemma {:induction false} WritesCommitting(w: World, id: TaskId, content: RawCheckpoint)
    ensures var after := Apply(w, ScriptWritesCommitting(id, content));
      if Stands(w, id, EditorAcked) then MovesOn(w, after, id, AwaitingCommitAck, Some(Committing), content)
      else after == w
  {
    hide ClientStep;
  }

  lemma {:induction false} WritesSubmitted(w: World, id: TaskId, content: RawCheckpoint)
    ensures var after := Apply(w, ScriptWritesSubmitted(id, content));
      if Stands(w, id, Posted) then MovesOn(w, after, id, Posted, Some(Submitted), content) else after == w
  {
    hide ClientStep;
    if id in w.scripts {
      assert w.scripts[id := w.scripts[id]] == w.scripts;
    }
  }

  /** Each checkpoint of a publishing script is for its own publication, and written only in its turn. */
  lemma {:induction false} ScriptWrites(w: World, id: TaskId, content: RawCheckpoint)
    ensures var after := Apply(w, ScriptWritesEditorReady(id, content));
      if Stands(w, id, Working) then MovesOn(w, after, id, AwaitingEditorAck, Some(EditorReady), content)
      else after == w
    ensures var after := Apply(w, ScriptWritesCommitting(id, content));
      if Stands(w, id, EditorAcked) then MovesOn(w, after, id, AwaitingCommitAck, Some(Committing), content)
      else after == w
    ensures var after := Apply(w, ScriptWritesSubmitted(id, content));
      if Stands(w, id, Posted) then MovesOn(w, after, id, Posted, Some(Submitted), content) else after == w
  {
    hide Apply, MovesOn;
    WritesEditorReady(w, id, content);
    WritesCommitting(w, id, content);
    WritesSubmitted(w, id, content);
  }

  lemma {:induction false} SeesAcks(w: World, id: TaskId)
    ensures var after := Apply(w, ScriptSeesEditorAck(id));
      if Stands(w, id, AwaitingEditorAck) && AckReads(w, id, EditorReady)
      then MovesOn(w, after, id, EditorAcked, None, NO_CHECKPOINT) else after == w
    ensures var after := Apply(w, ScriptSeesCommitAck(id));
      if Stands(w, id, AwaitingCommitAck) && AckReads(w, id, Committing)
      then MovesOn(w, after, id, Cleared, None, NO_CHECKPOINT) else after == w
  {
    hide ClientStep;
  }

  lemma {:induction false} TapsOnce(w: World, id: TaskId)
    ensures var after := Apply(w, ScriptTaps(id));
      if Stands(w, id, Cleared) then
        after.taps == w.taps + [id] && MovesOn(w, after.(taps := w.taps), id, Posted, None, NO_CHECKPOINT)
      else after == w
  {
    hide ClientStep;
  }

  /** It waits for the acknowledgement of its own phase, and taps once cleared. */
  lemma {:induction false} ScriptWaits(w: World, id: TaskId)
    ensures var after := Apply(w, ScriptSeesEditorAck(id));
      if Stands(w, id, AwaitingEditorAck) && AckReads(w, id, EditorReady)
      then MovesOn(w, after, id, EditorAcked, None, NO_CHECKPOINT) else after == w
    ensures var after := Apply(w, ScriptSeesCommitAck(id));
      if Stands(w, id, AwaitingCommitAck) && AckReads(w, id, Committing)
      then MovesOn(w, after, id, Cleared, None, NO_CHECKPOINT) else after == w
    ensures var after := Apply(w, ScriptTaps(id));
      if Stands(w, id, Cleared) then
        after.taps == w.taps + [id] && MovesOn(w, after.(taps := w.taps), id, Posted, None, NO_CHECKPOINT)
      else after == w
  {
    hide Apply, MovesOn;
    SeesAcks(w, id);
    TapsOnce(w, id);
  }

  /** It may stop at any time. */
  lemma {:induction false} ScriptMayStop(w: World, id: TaskId)
    ensures Apply(w, ScriptStops(id)) == if id in w.scripts then w.(scripts := w.scripts[id := Stopped]) else w
  {
    hide ClientStep;
  }

  /** An execution that is abandoned before it became active frees the slot; its ledger object stays. */
  lemma {:induction false} AbandonFrees(w: World, id: TaskId)
    requires w.client.Some? && InPreparation(w, w.client.value, id)
    ensures Apply(w, AbandonStart(id))
         == w.(client := Some(w.client.value.(starting := None, executing := w.client.value.executing - {id})))
  {}
}
