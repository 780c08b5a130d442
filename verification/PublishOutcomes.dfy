/**
 * What the ledger holds after the script's reports (mobile/src/tiktok-policy.ts:
 * 1141-1348), said of the records themselves: when evidence is accepted, what a
 * mark and a checkpoint write, and how each kind of result ends a publication.
 */
module PublishOutcomes {
  import opened Common
  import opened TikTokLedger
  import opened TikTokPolicy

  // -------------------------------------------------------------- evidence

  /** Evidence for exactly the requested settings, verified since the record exists and not in the future. */
  predicate Fits(record: Publication, e: Evidence, now: int) {
    && record.postSettings.Some?
    && e.audience == record.postSettings.value.audience
    && e.commercialDisclosure == record.postSettings.value.commercialDisclosure
    && e.verified
    && record.createdAt <= e.verifiedAt <= now
  }

  /** The same of evidence as it was supplied, and not in conflict with what is stored. */
  predicate Acceptable(record: Publication, raw: RawEvidence, now: int) {
    && raw.Supplied? && raw.verified && raw.verifiedAt.Some? && record.postSettings.Some?
    && raw.audience == "PUBLIC" && raw.commercialDisclosure == "YOUR_BRAND"
    && record.createdAt <= raw.verifiedAt.value <= now
    && (record.evidence.Some? ==> record.evidence.value == Evidence(Public, YourBrand, true, raw.verifiedAt.value))
  }

  lemma EvidenceIsValidIff(record: Publication, raw: RawEvidence, now: int)
    ensures ValidateEvidence(raw, record, now).Ok? <==> raw.Absent? || Acceptable(record, raw, now)
    ensures raw.Absent? ==> ValidateEvidence(raw, record, now) == Ok(None)
    ensures Acceptable(record, raw, now) ==>
      ValidateEvidence(raw, record, now) == Ok(Some(Evidence(Public, YourBrand, true, raw.verifiedAt.value)))
  {}

  /** Settings that were asked for need evidence, and it has to fit now. */
  predicate Covered(record: Publication, now: int) {
    record.postSettings.Some? ==> record.evidence.Some? && Fits(record, record.evidence.value, now)
  }

  lemma CoveredIff(record: Publication, now: int)
    ensures EvidenceError(record, now).None? <==> Covered(record, now)
  {}

  // ------------------------------------------------ marks and checkpoints

  /** What identifies a publication, and what was chosen for it. */
  predicate SameIdentity(a: Publication, b: Publication) {
    && a.publicationId == b.publicationId && a.requestFingerprint == b.requestFingerprint && a.account == b.account
    && a.media == b.media && a.caption == b.caption && a.postSettings == b.postSettings && a.createdAt == b.createdAt
  }

  /** The recovery context: baseline, identifiers, links and evidence. */
  predicate SameContext(a: Publication, b: Publication) {
    && a.baselinePostIds == b.baselinePostIds && a.baselineTileCount == b.baselineTileCount
    && a.evidence == b.evidence && a.postId == b.postId && a.postUrl == b.postUrl
    && a.canonicalUrl == b.canonicalUrl && a.shareUrl == b.shareUrl
  }

  /** A commit is stamped once, when it is first reached. */
  predicate Stamped(before: Publication, after: Publication, now: int) {
    && after.committedAt == (if Reached(before, Committing) then before.committedAt
                             else if Reached(after, Committing) then Some(now) else before.committedAt)
    && after.submittedAt == (if Reached(before, Submitted) then before.submittedAt
                             else if Reached(after, Submitted) then Some(now) else before.submittedAt)
  }

  /** The reuse tables know the first commit at its time, and are otherwise untouched. */
  predicate UsesStamped(a: LedgerState, b: LedgerState, before: Publication, after: Publication, now: int) {
    if Reached(after, Committing) && !Reached(before, Committing) then
      && b.materialUses == a.materialUses[before.media.fingerprint := now]
      && b.captionUses == a.captionUses[before.caption.fingerprint := now]
    else b.materialUses == a.materialUses && b.captionUses == a.captionUses
  }

  /** A mark is refused exactly for an unknown record, missing evidence or a step back; else the phase is written. */
  lemma {:induction false} MarkOutcome(store: Store, id: string, phase: Phase, now: int, fault: Fault)
    requires phase == Committing || phase == Submitted
    ensures var reply := MarkPhase(store, id, phase, now, fault);
      if id !in store.state.publications || !Covered(store.state.publications[id], now)
         || PhaseOrder(phase) < PhaseOrder(store.state.publications[id].phase)
      then reply.result.Err? && reply.store == store
      else
        var before, after := store.state.publications[id], reply.store.state.publications[id];
        && reply.store.state.publications == store.state.publications[id := after]
        && (reply.result == if fault == NoFault then Ok(after) else Err(PersistFailed))
        && SameIdentity(before, after) && SameContext(before, after) && Stamped(before, after, now)
        && UsesStamped(store.state, reply.store.state, before, after, now)
        && after.phase == phase && after.outcome == Pending && after.errorCode == None && after.updatedAt == now
        && after.publishedAt == before.publishedAt
  {
    hide Covered, EvidenceError, AdvanceRecord, SameIdentity, SameContext, Stamped;
    if id in store.state.publications {
      CoveredIff(store.state.publications[id], now);
      MarkedRecord(store.state.publications[id], phase, now);
    }
  }

  lemma {:induction false} MarkedRecord(before: Publication, phase: Phase, now: int)
    requires phase == Committing || phase == Submitted
    ensures var after := AdvanceRecord(before, phase, NO_PATCH.(outcome := Set(Pending), errorCode := Set(None)), now);
      && SameIdentity(before, after) && SameContext(before, after)
      && (PhaseOrder(before.phase) <= PhaseOrder(phase) ==> Stamped(before, after, now))
      && after.phase == phase && after.outcome == Pending && after.errorCode == None && after.updatedAt == now
      && after.publishedAt == before.publishedAt
  {}

  /** A checkpoint is refused exactly for an unknown record or bad evidence; else what it provides is written. */
  lemma {:induction false} CheckpointOutcome(store: Store, id: string, raw: RawCheckpoint, now: int, fault: Fault)
    ensures var reply := ApplyCheckpoint(store, id, raw, now, fault);
      if id !in store.state.publications
         || !(raw.evidence.Absent? || Acceptable(store.state.publications[id], raw.evidence, now))
      then reply.result.Err? && reply.store == store
      else
        var before, after := store.state.publications[id], reply.store.state.publications[id];
        && reply.store.state.publications == store.state.publications[id := after]
        && (reply.result == if fault == NoFault then Ok(after) else Err(PersistFailed))
        && SameIdentity(before, after) && after.phase == before.phase && after.outcome == before.outcome
        && after.errorCode == before.errorCode && after.updatedAt == now
        && after.committedAt == before.committedAt && after.submittedAt == before.submittedAt
        && after.publishedAt == before.publishedAt
        && (after.evidence == if raw.evidence.Absent? then before.evidence
                              else Some(Evidence(Public, YourBrand, true, raw.evidence.verifiedAt.value)))
        && (after.postId == if raw.postId.Some? && IsPostId(raw.postId.value) then raw.postId else before.postId)
        && (after.postUrl == if raw.postUrl.Some? then raw.postUrl else before.postUrl)
        && (after.canonicalUrl == if raw.canonicalUrl.Some? then raw.canonicalUrl else before.canonicalUrl)
        && (after.shareUrl == if raw.shareUrl.Some? then raw.shareUrl else before.shareUrl)
        && (after.baselineTileCount == if raw.baselineTileCount.Some? && 0 <= raw.baselineTileCount.value <= 9
                                       then raw.baselineTileCount else before.baselineTileCount)
        && (raw.baselinePostIds.None? ==> after.baselinePostIds == before.baselinePostIds)
        && (raw.baselinePostIds.Some? ==>
              after.baselinePostIds.Some? && Baseline(raw.baselinePostIds.value, after.baselinePostIds.value))
  {
    hide ValidateEvidence, Acceptable, Baseline, IsPostId;
    if id in store.state.publications {
      EvidenceIsValidIff(store.state.publications[id], raw.evidence, now);
    }
    if raw.baselinePostIds.Some? {
      PostIdsAreTheBaseline(raw.baselinePostIds.value);
    }
  }

  /** The well-formed identifiers of a list, each once. */
  ghost predicate Baseline(raw: seq<string>, kept: seq<string>) {
    && (forall x :: x in kept <==> x in raw && IsPostId(x))
    && (forall i, j :: 0 <= i < j < |kept| ==> kept[i] != kept[j])
  }

  lemma {:induction false} PostIdsAreTheBaseline(raw: seq<string>)
    ensures Baseline(raw, PostIds(raw))
    decreases |raw|
  {
    hide IsPostId;
    if raw != [] {
      PostIdsAreTheBaseline(raw[..|raw| - 1]);
      assert raw == raw[..|raw| - 1] + [raw[|raw| - 1]];
    }
  }

  // -------------------------------------------------------- script results

  function Link(result: ScriptResult): string
    requires result.ScriptResult?
  {
    if result.canonicalUrl != "" then result.canonicalUrl else result.postUrl
  }

  /** A published post whose link names it. */
  predicate LinkKept(before: Publication, after: Publication, result: ScriptResult, now: int) {
    && result.ScriptResult?
    && after.phase == LinkConfirmed && after.outcome == Success && after.errorCode == None
    && after.postId == result.linkedPostId
    && after.postUrl == Some(Link(result)) && after.canonicalUrl == Some(Link(result))
    && after.shareUrl == (if result.shareUrl == "" then None else Some(result.shareUrl))
    && after.publishedAt == Some(now) && after.updatedAt == now
    && SameIdentity(before, after) && Stamped(before, after, now)
    && after.evidence == before.evidence && after.baselinePostIds == before.baselinePostIds
    && after.baselineTileCount == before.baselineTileCount
  }

  /** A published post whose link is not known yet. */
  predicate PostKept(before: Publication, after: Publication, now: int) {
    && after.phase == PostConfirmed && after.outcome == PublishedLinkPending
    && after.errorCode == Some("PUBLISHED_LINK_PENDING")
    && after.publishedAt == Some(now) && after.updatedAt == now
    && SameIdentity(before, after) && SameContext(before, after) && Stamped(before, after, now)
  }

  /** Only outcome and error code change. */
  predicate OutcomeKept(before: Publication, after: Publication, outcome: Outcome, code: string, now: int) {
    after == before.(outcome := outcome, errorCode := Some(code), updatedAt := now)
  }

  /** A failed script is a FAILURE before the commit and an unknown outcome behind it. */
  function FailedAs(record: Publication): Outcome {
    if PhaseOrder(record.phase) >= PhaseOrder(Committing) then PublishOutcomeUnknown else Failure
  }

  /** The reply of an operation that writes one record: the others stay, and only the save can fail. */
  predicate Writes(store: Store, id: string, reply: Reply<Publication>, after: Publication, now: int, fault: Fault)
    requires id in store.state.publications
  {
    && reply.store.state.publications == store.state.publications[id := after]
    && UsesStamped(store.state, reply.store.state, store.state.publications[id], after, now)
    && reply.result == if fault == NoFault then Ok(after) else Err(PersistFailed)
  }

  lemma {:induction false} LinkOutcome(store: Store, id: string, result: ScriptResult, now: int, fault: Fault)
    requires id in store.state.publications && result.ScriptResult? && result.published && result.linkedPostId.Some?
    requires EvidenceError(store.state.publications[id], now).None?
    ensures var reply := SettleResult(store, id, result, now, fault);
      && id in reply.store.state.publications
      && var after := reply.store.state.publications[id];
      Writes(store, id, reply, after, now, fault) && LinkKept(store.state.publications[id], after, result, now)
  {
    hide EvidenceError;
  }

  lemma {:induction false} PostOutcome(store: Store, id: string, result: ScriptResult, now: int, fault: Fault)
    requires id in store.state.publications && result.ScriptResult? && result.published && result.linkedPostId.None?
    requires EvidenceError(store.state.publications[id], now).None?
    ensures var before, reply := store.state.publications[id], SettleResult(store, id, result, now, fault);
      if before.phase == LinkConfirmed then reply.result.Err? && reply.store == store
      else
        && id in reply.store.state.publications
        && var after := reply.store.state.publications[id];
        Writes(store, id, reply, after, now, fault) && PostKept(before, after, now)
  {
    hide EvidenceError;
  }

  lemma {:induction false} FailureOutcome(store: Store, id: string, result: ScriptResult, now: int, fault: Fault)
    requires id in store.state.publications && result.ScriptResult?
    requires result.published ==> EvidenceError(store.state.publications[id], now).Some?
    ensures var before, reply := store.state.publications[id], SettleResult(store, id, result, now, fault);
      if result.published && before.evidence.Some? then reply.result.Err? && reply.store == store
      else
        && id in reply.store.state.publications
        && var after := reply.store.state.publications[id];
        && Writes(store, id, reply, after, now, fault)
        && if result.published then OutcomeKept(before, after, PublishOutcomeUnknown, "POST_SETTINGS_NOT_VERIFIED", now)
           else OutcomeKept(before, after, FailedAs(before), result.code, now)
  {
    hide EvidenceError;
  }

  /**
   * The end of a result, whatever it claims: published with a link, published
   * without one, published without evidence, and failed. It is refused exactly when
   * the evidence no longer fits, or a confirmed link would be taken back.
   */
  lemma {:induction false} SettledOutcome(store: Store, id: string, result: ScriptResult, now: int, fault: Fault)
    requires id in store.state.publications && result.ScriptResult?
    ensures var before, reply := store.state.publications[id], SettleResult(store, id, result, now, fault);
      if (result.published && before.evidence.Some? && !Covered(before, now))
         || (result.published && Covered(before, now) && result.linkedPostId.None? && before.phase == LinkConfirmed)
      then reply.result.Err? && reply.store == store
      else
        && id in reply.store.state.publications
        && var after := reply.store.state.publications[id];
        && Writes(store, id, reply, after, now, fault)
        && (result.published && Covered(before, now) && result.linkedPostId.Some? ==>
              LinkKept(before, after, result, now))
        && (result.published && Covered(before, now) && result.linkedPostId.None? ==> PostKept(before, after, now))
        && (result.published && !Covered(before, now) ==>
              OutcomeKept(before, after, PublishOutcomeUnknown, "POST_SETTINGS_NOT_VERIFIED", now))
        && (!result.published ==> OutcomeKept(before, after, FailedAs(before), result.code, now))
  {
    hide EvidenceError, Covered, SettleResult, LinkKept, PostKept, OutcomeKept, Writes;
    var before := store.state.publications[id];
    CoveredIff(before, now);
    if result.published && EvidenceError(before, now).None? {
      if result.linkedPostId.Some? {
        LinkOutcome(store, id, result, now, fault);
      } else {
        PostOutcome(store, id, result, now, fault);
      }
    } else {
      FailureOutcome(store, id, result, now, fault);
    }
    NoSettingsNoEvidence(before, now);
  }

  lemma NoSettingsNoEvidence(record: Publication, now: int)
    ensures record.postSettings.None? ==> Covered(record, now)
  {}

  /** A result for another publication, or of another contract, where settings were asked for. */
  predicate Mismatched(before: Publication, result: ScriptResult) {
    && result.ScriptResult? && before.postSettings.Some?
    && (result.publicationId != before.publicationId || result.contractVersion != 2)
  }

  /** The evidence of a result is merged first; what does not fit ends it. */
  predicate EvidenceMerges(before: Publication, result: ScriptResult, now: int) {
    result.ScriptResult? && (result.evidence.Absent? || Acceptable(before, result.evidence, now))
  }

  /** Whether evidence that fits is there once the result's own is merged. */
  predicate CoveredWith(before: Publication, result: ScriptResult, now: int) {
    result.ScriptResult? && (Acceptable(before, result.evidence, now) || Covered(before, now))
  }

  /** Results that are refused before anything is merged. */
  lemma {:induction false} RejectedOutcome(store: Store, id: string, result: ScriptResult, now: int, faults: Faults)
    requires id in store.state.publications
    ensures var before, after := store.state.publications[id],
            ApplyScriptResult(store, id, result, now, faults).store.state.publications;
      && (result.NotARecord? ==>
            id in after
            && OutcomeKept(before, after[id], PublishOutcomeUnknown, "INVALID_SCRIPT_RESULT", now))
      && (Mismatched(before, result) ==>
            id in after
            && OutcomeKept(before, after[id], if result.published then PublishOutcomeUnknown else FailedAs(before),
                           "PUBLICATION_RESULT_MISMATCH", now))
      && (result.ScriptResult? && !Mismatched(before, result) && !EvidenceMerges(before, result, now) ==>
            id in after
            && OutcomeKept(before, after[id], if result.published then PublishOutcomeUnknown else FailedAs(before),
                           "POST_SETTINGS_NOT_VERIFIED", now))
  {
    hide StoreBaseline, ValidateEvidence, Acceptable, CheckpointFields;
    if result.ScriptResult? && !Mismatched(store.state.publications[id], result) {
      EvidenceIsValidIff(store.state.publications[id], result.evidence, now);
    }
  }

  /** Every other result, with its evidence and baseline saved: which of the endings it has. */
  lemma {:induction false} MergedOutcome(store: Store, id: string, result: ScriptResult, now: int, faults: Faults)
    requires id in store.state.publications && result.ScriptResult?
    requires var before := store.state.publications[id];
      !Mismatched(before, result) && EvidenceMerges(before, result, now)
    requires faults == Faults(NoFault, NoFault, NoFault)
    ensures var before, reply := store.state.publications[id], ApplyScriptResult(store, id, result, now, faults);
      && id in reply.store.state.publications
      && var after := reply.store.state.publications[id];
      && SameIdentity(before, after)
      && (after.evidence == if result.evidence.Absent? then before.evidence
                            else Some(Evidence(Public, YourBrand, true, result.evidence.verifiedAt.value)))
      && (result.published && CoveredWith(before, result, now) && result.linkedPostId.Some? ==>
            && reply.result == Ok(after)
            && after.phase == LinkConfirmed && after.outcome == Success && after.postId == result.linkedPostId
            && after.postUrl == after.canonicalUrl == Some(Link(result)) && after.errorCode == None)
      && (result.published && CoveredWith(before, result, now) && result.linkedPostId.None?
          && before.phase != LinkConfirmed ==>
            && reply.result == Ok(after)
            && after.phase == PostConfirmed && after.outcome == PublishedLinkPending
            && after.postId == before.postId && after.postUrl == before.postUrl
            && after.errorCode == Some("PUBLISHED_LINK_PENDING"))
      && (!result.published ==>
            && reply.result == Ok(after)
            && after.phase == before.phase && after.outcome == FailedAs(before)
            && after.errorCode == Some(result.code))
      && (result.published && !CoveredWith(before, result, now) && before.evidence.None? ==>
            && reply.result == Ok(after)
            && after.phase == before.phase && after.outcome == PublishOutcomeUnknown
            && after.errorCode == Some("POST_SETTINGS_NOT_VERIFIED"))
  {
    hide ApplyCheckpoint, SettleResult, Acceptable, Covered, IsPostId, Baseline;
    var evidence := NO_CHECKPOINT.(evidence := result.evidence);
    var baseline := NO_CHECKPOINT.(baselinePostIds := result.baselinePostIds,
                                   baselineTileCount := result.baselineTileCount);
    CheckpointOutcome(store, id, evidence, now, NoFault);
    var first := if result.evidence.Absent? then store else ApplyCheckpoint(store, id, evidence, now, NoFault).store;
    CheckpointOutcome(first, id, baseline, now, NoFault);
    var second := if result.baselinePostIds.None? then first
                  else ApplyCheckpoint(first, id, baseline, now, NoFault).store;
    SettledOutcome(second, id, result, now, NoFault);
    CoverageMerges(store.state.publications[id], first.state.publications[id], result, now);
    CoverageStays(first.state.publications[id], second.state.publications[id], now);
  }

  lemma CoverageMerges(before: Publication, after: Publication, result: ScriptResult, now: int)
    requires result.ScriptResult? && SameIdentity(before, after) && EvidenceMerges(before, result, now)
    requires after.evidence == if result.evidence.Absent? then before.evidence
                               else Some(Evidence(Public, YourBrand, true, result.evidence.verifiedAt.value))
    ensures Covered(after, now) <==> CoveredWith(before, result, now)
  {}

  lemma CoverageStays(before: Publication, after: Publication, now: int)
    requires SameIdentity(before, after) && before.evidence == after.evidence
    ensures Covered(after, now) <==> Covered(before, now)
  {}

  // --------------------------------------------------------- older history

  /** Every known use is kept, the later of the two where both know one. */
  ghost predicate Merged(known: map<Fingerprint, int>, found: map<Fingerprint, int>, merged: map<Fingerprint, int>) {
    && merged.Keys == known.Keys + found.Keys
    && (forall f :: f in known ==> known[f] <= merged[f])
    && (forall f :: f in found ==> found[f] <= merged[f])
    && (forall f :: f in merged && !(f in known && merged[f] == known[f]) ==>
          f in found && (merged[f] == found[f] || merged[f] == 0))
  }

  /** The older history is taken in once: uses are merged, records stay, and a second import changes nothing. */
  lemma {:induction false} ImportOutcome(store: Store, material: map<Fingerprint, int>, captions: map<Fingerprint, int>,
                                         now: int, fault: Fault)
    ensures var reply := ImportLegacy(store, material, captions, now, fault);
      if store.state.legacyImport.Some? then reply.store == store && reply.result.Ok?
      else
        var after := reply.store.state;
        && after.publications == store.state.publications && after.legacyImport == Some(now)
        && Merged(store.state.materialUses, material, after.materialUses)
        && Merged(store.state.captionUses, captions, after.captionUses)
        && (reply.result.Ok? <==> fault == NoFault)
        && (reply.result.Ok? ==> Reopen(reply.store.disk) == after)
  {}
}
