/**
 * The decision table of a task (mobile/src/tiktok-policy.ts:951-1138): for every
 * action exactly when it is accepted, what the script is told, and what is saved.
 */
module PublishDecisions {
  import opened Common
  import opened PublishOutcomes
  import P = PublishProtocol
  import opened TikTokLedger
  import opened TikTokPolicy

  // -------------------------------------------------------- the questions

  /** A hash that was asked for belongs to the one file that was found. */
  predicate HashHolds(request: Request) {
    request.expectedSha256.Some? ==>
      |request.media| == 1 && request.media[0].fingerprint == request.expectedSha256.value
  }

  /** Settings and hash, where the request repeats them, are those of the record. */
  predicate Repeats(request: Request, record: Publication) {
    && (request.postSettings.Some? ==> record.postSettings == request.postSettings)
    && (request.expectedSha256.Some? ==> record.media.expectedSha256 == request.expectedSha256)
  }

  /** The record, or the request, concerns settings or a hash. */
  predicate Sensitive(request: Request, record: Publication) {
    || record.postSettings.Some? || record.media.expectedSha256.Some?
    || request.postSettings.Some? || request.expectedSha256.Some?
  }

  predicate SomeMediumRested(request: Request, state: LedgerState, now: int) {
    exists m :: m in request.media
                && Rested(m.fingerprint, state.materialUses, request.policy.materialReuseSeconds, now)
  }

  predicate SomeCaptionRested(request: Request, state: LedgerState, now: int) {
    exists c :: c in request.captions
                && Rested(c.fingerprint, state.captionUses, request.policy.captionReuseSeconds, now)
  }

  /** Last used at least `seconds` ago; a fingerprint that was never used counts as used at time 0. */
  predicate Rested(fingerprint: Fingerprint, uses: map<Fingerprint, int>, seconds: nat, now: int) {
    (if fingerprint in uses then uses[fingerprint] else 0) + seconds * 1000 <= now
  }

  lemma {:induction false} CandidatesAsMembers(request: Request)
    ensures forall m :: m in request.media ==> m.fingerprint in MediaFingerprints(request.media)
    ensures forall c :: c in request.captions ==> c.fingerprint in CaptionFingerprints(request.captions)
  {
    forall m | m in request.media ensures m.fingerprint in MediaFingerprints(request.media) {
      var i :| 0 <= i < |request.media| && request.media[i] == m;
      assert MediaFingerprints(request.media)[i] == m.fingerprint;
    }
    forall c | c in request.captions ensures c.fingerprint in CaptionFingerprints(request.captions) {
      var i :| 0 <= i < |request.captions| && request.captions[i] == c;
      assert CaptionFingerprints(request.captions)[i] == c.fingerprint;
    }
  }

  /** A medium and a caption are found exactly when one has rested, and the found one has. */
  lemma {:induction false} ChoiceExistsIff(request: Request, state: LedgerState, now: int)
    ensures var m :=
              Select(MediaFingerprints(request.media), state.materialUses, request.policy.materialReuseSeconds, now);
      && (m.Some? <==> SomeMediumRested(request, state, now))
      && (m.Some? ==> m.value < |request.media|
                      && Rested(request.media[m.value].fingerprint, state.materialUses,
                                request.policy.materialReuseSeconds, now))
    ensures var c :=
              Select(CaptionFingerprints(request.captions), state.captionUses, request.policy.captionReuseSeconds, now);
      && (c.Some? <==> SomeCaptionRested(request, state, now))
      && (c.Some? ==> c.value < |request.captions|
                      && Rested(request.captions[c.value].fingerprint, state.captionUses,
                                request.policy.captionReuseSeconds, now))
  {
    hide Select;
    var media, captions := MediaFingerprints(request.media), CaptionFingerprints(request.captions);
    CandidatesAsMembers(request);
    SelectIsLeast(media, state.materialUses, request.policy.materialReuseSeconds, now);
    SelectIsLeast(captions, state.captionUses, request.policy.captionReuseSeconds, now);
    assert forall i :: 0 <= i < |media| ==> media[i] == request.media[i].fingerprint;
    assert forall i :: 0 <= i < |captions| ==> captions[i] == request.captions[i].fingerprint;
  }

  // ----------------------------------------------------------- the table

  /** Nothing is saved by this preparation. */
  predicate SavesNothing(disk: Disk, made: Preparation) {
    made.store == Store(Reopen(disk), disk)
  }

  /** STATUS never runs a script; sensitive records are shown to the account that owns them. */
  lemma {:induction false} StatusDecision(disk: Disk, request: Request, now: int, midnight: int, fault: Fault)
    requires request.action == Status
    ensures var made, id := Prepare(disk, request, now, midnight, fault), request.publicationId;
      var known := Reopen(disk).publications;
      && SavesNothing(disk, made)
      && (made.result.Ok? <==>
            && id in known
            && (Sensitive(request, known[id]) ==>
                  request.expectedHandle == Some(known[id].account) && Repeats(request, known[id])))
      && (made.result.Ok? ==> made.result.value == Prepared(Status, id, StatusOnly, Some(known[id]), false))
  {}

  /** RECOVER is for the owner of a known record; a confirmed link is answered without a script. */
  lemma {:induction false} RecoverDecision(disk: Disk, request: Request, now: int, midnight: int, fault: Fault)
    requires request.action == Recover
    ensures var made, id := Prepare(disk, request, now, midnight, fault), request.publicationId;
      var known := Reopen(disk).publications;
      && SavesNothing(disk, made)
      && (made.result.Ok? <==>
            id in known && request.expectedHandle == Some(known[id].account) && Repeats(request, known[id]))
      && (made.result.Ok? ==>
            made.result.value == if known[id].phase == LinkConfirmed
                                 then Prepared(Recover, id, Cached, Some(known[id]), false)
                                 else Prepared(Recover, id, RecoverOnly, Some(known[id]), true))
  {}

  /** PREFLIGHT runs a script that never publishes, over media and a caption that have rested. */
  lemma {:induction false} PreflightDecision(disk: Disk, request: Request, now: int, midnight: int, fault: Fault)
    requires request.action == Preflight
    ensures var made, state := Prepare(disk, request, now, midnight, fault), Reopen(disk);
      && SavesNothing(disk, made)
      && (made.result.Ok? <==>
            && HashHolds(request)
            && (request.captions == []
                || ((request.media == [] || SomeMediumRested(request, state, now))
                    && SomeCaptionRested(request, state, now))))
      && (made.result.Ok? ==>
            made.result.value == Prepared(Preflight, request.publicationId, PreflightOnly, None, true))
  {
    hide Select, SomeMediumRested, SomeCaptionRested;
    ChoiceExistsIff(request, Reopen(disk), now);
  }

  /** What a repeated PUBLISH for this record comes to. */
  function Repeated(record: Publication): Prepared {
    match record.phase
    case LinkConfirmed => Prepared(Publish, record.publicationId, Cached, Some(record), false)
    case Committing | Submitted | PostConfirmed =>
      Prepared(Recover, record.publicationId, RecoverOnly, Some(record), true)
    case Prechecked | EditorReady =>
      if record.postSettings.Some? && record.outcome == PublishOutcomeUnknown
      then Prepared(Recover, record.publicationId, RecoverOnly, Some(record), true)
      else Prepared(Publish, record.publicationId, Resume, Some(record), true)
  }

  /**
   * PUBLISH for a known identifier: the same request is resumed before its commit,
   * recovered behind it and answered from the ledger once its link is confirmed.
   */
  lemma {:induction false} RepeatDecision(disk: Disk, request: Request, now: int, midnight: int, fault: Fault)
    requires request.action == Publish && request.publicationId in Reopen(disk).publications
    requires Reopen(disk).publications[request.publicationId].publicationId == request.publicationId
    ensures var made := Prepare(disk, request, now, midnight, fault);
      var record := Reopen(disk).publications[request.publicationId];
      && SavesNothing(disk, made)
      && (made.result.Ok? <==>
            && HashHolds(request) && request.captions != [] && record.requestFingerprint == request.fingerprint
            && (record.evidence.Some? ==> record.phase != Prechecked && record.phase != EditorReady))
      && (made.result.Ok? ==> made.result.value == Repeated(record))
  {
    hide Select, PolicyAllows;
  }

  /** The new record of a PUBLISH request. */
  predicate IsNewRecord(record: Publication, request: Request, state: LedgerState, now: int) {
    && record.publicationId == request.publicationId && record.requestFingerprint == request.fingerprint
    && record.account == (if request.expectedHandle.Some? then request.expectedHandle.value else "LEGACY_UNVERIFIED")
    && record.phase == Prechecked && record.outcome == Pending && record.errorCode == None
    && record.postSettings == request.postSettings && record.evidence == None
    && record.createdAt == record.updatedAt == now
    && record.committedAt == record.submittedAt == record.publishedAt == None
    && record.postId == record.postUrl == record.canonicalUrl == record.shareUrl == None
    && (exists m :: m in request.media && record.media.path == m.path && record.media.fingerprint == m.fingerprint)
    && Rested(record.media.fingerprint, state.materialUses, request.policy.materialReuseSeconds, now)
    && (request.expectedSha256.Some? ==> record.media.expectedSha256 == request.expectedSha256)
    && record.caption in request.captions
    && Rested(record.caption.fingerprint, state.captionUses, request.policy.captionReuseSeconds, now)
  }

  /**
   * PUBLISH for a new identifier: accepted exactly when the hash holds, the policy
   * allows a post, and a medium and a caption have rested; one record is then created
   * and saved, and the script is told to publish.
   */
  lemma {:induction false} NewDecision(disk: Disk, request: Request, now: int, midnight: int, fault: Fault)
    requires request.action == Publish && request.publicationId !in Reopen(disk).publications
    ensures var made, state := Prepare(disk, request, now, midnight, fault), Reopen(disk);
      var accepted :=
        && HashHolds(request) && PolicyAllows(state.publications, request.policy, now, midnight)
        && SomeMediumRested(request, state, now) && SomeCaptionRested(request, state, now);
      && (made.result.Ok? <==> accepted && fault == NoFault)
      && (!accepted ==> SavesNothing(disk, made))
      && (made.result.Ok? ==>
            && made.result.value.publication.Some?
            && var record := made.result.value.publication.value;
            && IsNewRecord(record, request, state, now)
            && made.result.value == Prepared(Publish, request.publicationId, New, Some(record), true)
            && made.store.state == state.(publications := state.publications[request.publicationId := record])
            && Reopen(made.store.disk) == made.store.state)
  {
    hide Select, SomeMediumRested, SomeCaptionRested, PolicyAllows, Rested;
    ChoiceExistsIff(request, Reopen(disk), now);
    NothingRests(request, Reopen(disk), now);
  }

  lemma NothingRests(request: Request, state: LedgerState, now: int)
    ensures SomeMediumRested(request, state, now) ==> request.media != []
    ensures SomeCaptionRested(request, state, now) ==> request.captions != []
  {}

  // ---------------------------------------------- from a result to a repeat

  /** A result that confirms a published post with its link, for this record. */
  predicate Confirms(record: Publication, result: ScriptResult, now: int) {
    && result.ScriptResult? && !Mismatched(record, result) && EvidenceMerges(record, result, now)
    && result.published && result.linkedPostId.Some? && CoveredWith(record, result, now)
  }

  /** The active task's publication, as its ledger object has it. */
  predicate Publishing(w: P.World, id: string, record: Publication) {
    && w.client.Some? && w.client.value.active.Some?
    && var task := w.client.value.active.value.id;
    && task in w.tasks && w.tasks[task].action != Preflight && w.tasks[task].publicationId == id
    && task in w.client.value.ledgers && id in w.client.value.ledgers[task].publications
    && w.client.value.ledgers[task].publications[id] == record
  }

  /** The client records a confirming result in the files: LINK_CONFIRMED, with the post it names. */
  lemma {:induction false} ResultConfirms(w: P.World, id: string, record: Publication, result: ScriptResult, now: int)
    requires Publishing(w, id, record) && Confirms(record, result, now)
    ensures var after := P.Apply(w, P.RecordResult(result, now, Faults(NoFault, NoFault, NoFault)));
      && id in Reopen(after.disk).publications
      && var saved := Reopen(after.disk).publications[id];
      && SameIdentity(record, saved) && saved.phase == LinkConfirmed && saved.outcome == Success
      && saved.postId == result.linkedPostId && saved.postUrl == Some(Link(result))
      && after.taps == w.taps && after.granted == w.granted
  {
    hide ApplyScriptResult, Mismatched, EvidenceMerges, CoveredWith, Reopen;
    var task := w.client.value.active.value.id;
    var store, faults := Store(w.client.value.ledgers[task], w.disk), Faults(NoFault, NoFault, NoFault);
    MergedOutcome(store, id, result, now, faults);
    CompletedIsSaved(store, id, result, now);
  }

  /** When a result completes, its record is what the files reopen with. */
  lemma {:induction false} CompletedIsSaved(store: Store, id: string, result: ScriptResult, now: int)
    ensures var reply := ApplyScriptResult(store, id, result, now, Faults(NoFault, NoFault, NoFault));
      reply.result.Ok? ==> Reopen(reply.store.disk) == reply.store.state
  {
    hide ApplyCheckpoint, SettleResult, SetOutcome;
    if result.NotARecord? {
      OutcomeIsSaved(store, id, PublishOutcomeUnknown, Some("INVALID_SCRIPT_RESULT"), now);
    } else if result.evidence.Absent? {
      EndIsSaved(store, id, result, now);
    } else {
      var merged := ApplyCheckpoint(store, id, NO_CHECKPOINT.(evidence := result.evidence), now, NoFault).store;
      EndIsSaved(merged, id, result, now);
      forall outcome | true
        ensures var reply := SetOutcome(merged, id, outcome, Some("POST_SETTINGS_NOT_VERIFIED"), now, NoFault);
          reply.result.Ok? ==> Reopen(reply.store.disk) == reply.store.state
      {
        OutcomeIsSaved(merged, id, outcome, Some("POST_SETTINGS_NOT_VERIFIED"), now);
      }
    }
    forall outcome | true
      ensures var reply := SetOutcome(store, id, outcome, Some("PUBLICATION_RESULT_MISMATCH"), now, NoFault);
        reply.result.Ok? ==> Reopen(reply.store.disk) == reply.store.state
    {
      OutcomeIsSaved(store, id, outcome, Some("PUBLICATION_RESULT_MISMATCH"), now);
    }
  }

  lemma {:induction false} OutcomeIsSaved(store: Store, id: string, outcome: Outcome, code: Option<string>, now: int)
    ensures var reply := SetOutcome(store, id, outcome, code, now, NoFault);
      reply.result.Ok? ==> Reopen(reply.store.disk) == reply.store.state
  {}

  lemma {:induction false} AdvanceIsSaved(store: Store, id: string, phase: Phase, patch: AdvancePatch, now: int)
    ensures var reply := Advance(store, id, phase, patch, now, NoFault);
      reply.result.Ok? ==> Reopen(reply.store.disk) == reply.store.state
  {
    hide AdvanceState, AdvanceRecord;
  }

  lemma {:induction false} SettlingIsSaved(store: Store, id: string, result: ScriptResult, now: int)
    requires result.ScriptResult?
    ensures var reply := SettleResult(store, id, result, now, NoFault);
      reply.result.Ok? ==> Reopen(reply.store.disk) == reply.store.state
  {
    hide Advance, SetOutcome, EvidenceError;
    var link := if result.canonicalUrl != "" then result.canonicalUrl else result.postUrl;
    AdvanceIsSaved(store, id, LinkConfirmed,
                   AdvancePatch(Set(Success), Keep, Keep, Set(now), Set(Some(link)), Set(Some(link)),
                                Set(NonEmpty(result.shareUrl)), Set(result.linkedPostId), Set(None)), now);
    AdvanceIsSaved(store, id, PostConfirmed,
                   NO_PATCH.(outcome := Set(PublishedLinkPending), publishedAt := Set(now),
                             errorCode := Set(Some("PUBLISHED_LINK_PENDING"))), now);
    OutcomeIsSaved(store, id, PublishOutcomeUnknown, Some("POST_SETTINGS_NOT_VERIFIED"), now);
    OutcomeIsSaved(store, id, PublishOutcomeUnknown, Some(result.code), now);
    OutcomeIsSaved(store, id, Failure, Some(result.code), now);
  }

  lemma {:induction false} EndIsSaved(store: Store, id: string, result: ScriptResult, now: int)
    requires result.ScriptResult?
    ensures var reply := StoreBaseline(store, id, result, now, Faults(NoFault, NoFault, NoFault));
      reply.result.Ok? ==> Reopen(reply.store.disk) == reply.store.state
  {
    hide ApplyCheckpoint, SettleResult;
    var baseline := NO_CHECKPOINT.(baselinePostIds := result.baselinePostIds,
                                   baselineTileCount := result.baselineTileCount);
    SettlingIsSaved(store, id, result, now);
    SettlingIsSaved(ApplyCheckpoint(store, id, baseline, now, NoFault).store, id, result, now);
  }

  /** From then on every repeat of the request is answered from the ledger, and no script runs. */
  lemma {:induction false} ConfirmedIsCached(w: P.World, id: string, record: Publication, result: ScriptResult,
                                             now: int, request: Request, later: int, midnight: int, fault: Fault)
    requires Publishing(w, id, record) && Confirms(record, result, now) && record.publicationId == id
    requires request.action == Publish && request.publicationId == id && request.captions != []
    requires request.fingerprint == record.requestFingerprint && HashHolds(request)
    ensures var after := P.Apply(w, P.RecordResult(result, now, Faults(NoFault, NoFault, NoFault)));
      var made := Prepare(after.disk, request, later, midnight, fault);
      && made.result.Ok? && made.result.value.decision == Cached && !made.result.value.runsScript
      && made.result.value.publication.Some? && made.result.value.publication.value.postId == result.linkedPostId
      && Reopen(made.store.disk) == Reopen(after.disk)
  {
    hide Publishing, Confirms, Prepare, P.Apply;
    ResultConfirms(w, id, record, result, now);
    var after := P.Apply(w, P.RecordResult(result, now, Faults(NoFault, NoFault, NoFault)));
    RepeatDecision(after.disk, request, later, midnight, fault);
  }
}
