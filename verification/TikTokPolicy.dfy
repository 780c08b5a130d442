/**
 * Publishing policy and idempotency decisions (mobile/src/tiktok-policy.ts),
 * and the invariants that every sequence of them keeps in the ledger.
 */
module TikTokPolicy {
  import opened Common
  import opened TikTokLedger

  // ------------------------------------------------------------ evidence

  /** Evidence as found in a checkpoint or a script result. */
  datatype RawEvidence =
    | Absent
    | Malformed
    | Supplied(audience: string, commercialDisclosure: string, verified: bool, verifiedAt: Option<int>)

  function AudienceText(audience: Audience): string {
    match audience case Public => "PUBLIC"
  }

  function DisclosureText(disclosure: Disclosure): string {
    match disclosure case YourBrand => "YOUR_BRAND"
  }

  function StoredEvidence(evidence: Option<Evidence>): RawEvidence {
    match evidence
    case None => Absent
    case Some(e) => Supplied(AudienceText(e.audience), DisclosureText(e.commercialDisclosure), e.verified,
                             Some(e.verifiedAt))
  }

  function ValidateEvidence(raw: RawEvidence, publication: Publication, now: int): Result<Option<Evidence>, LedgerError>
  {
    match raw
    case Absent => Ok(None)
    case Malformed => Err(PostSettingsNotVerified)
    case Supplied(audience, disclosure, verified, verifiedAt) =>
      if publication.postSettings.None?
         || audience != AudienceText(publication.postSettings.value.audience)
         || disclosure != DisclosureText(publication.postSettings.value.commercialDisclosure)
         || !verified || verifiedAt.None?
         || verifiedAt.value < publication.createdAt || now < verifiedAt.value
      then Err(PostSettingsNotVerified)
      else
        var evidence := Evidence(Public, YourBrand, true, verifiedAt.value);
        if publication.evidence.Some? && publication.evidence.value != evidence then Err(EvidenceConflict)
        else Ok(Some(evidence))
  }

  // ------------------------------------------------- checkpoints and phases

  datatype RawCheckpoint = RawCheckpoint(
    baselinePostIds: Option<seq<string>>,
    baselineTileCount: Option<int>,
    postId: Option<string>,
    postUrl: Option<string>,
    canonicalUrl: Option<string>,
    shareUrl: Option<string>,
    evidence: RawEvidence)

  const NO_CHECKPOINT := RawCheckpoint(None, None, None, None, None, None, Absent)

  predicate IsPostId(text: string) {
    1 <= |text| <= 32 && forall i :: 0 <= i < |text| ==> '0' <= text[i] <= '9'
  }

  /** First occurrences of the well-formed identifiers, in order. */
  function PostIds(raw: seq<string>): seq<string> {
    if raw == [] then []
    else
      var kept := PostIds(raw[..|raw| - 1]);
      var last := raw[|raw| - 1];
      if IsPostId(last) && last !in kept then kept + [last] else kept
  }

  function Provided<T>(field: Option<T>): Change<Option<T>> {
    if field.Some? then Set(field) else Keep
  }

  function CheckpointFields(raw: RawCheckpoint, evidence: Option<Evidence>): CheckpointPatch {
    CheckpointPatch(
      if raw.baselinePostIds.Some? then Set(Some(PostIds(raw.baselinePostIds.value))) else Keep,
      if raw.baselineTileCount.Some? && 0 <= raw.baselineTileCount.value <= 9 then Set(raw.baselineTileCount) else Keep,
      if raw.postId.Some? && IsPostId(raw.postId.value) then Set(raw.postId) else Keep,
      Provided(raw.postUrl), Provided(raw.canonicalUrl), Provided(raw.shareUrl), Provided(evidence))
  }

  function ApplyCheckpoint(store: Store, id: string, raw: RawCheckpoint, now: int, fault: Fault): Reply<Publication> {
    if id !in store.state.publications then Reply(store, Err(PublicationNotFound))
    else
      match ValidateEvidence(raw.evidence, store.state.publications[id], now)
      case Err(e) => Reply(store, Err(e))
      case Ok(evidence) => Checkpoint(store, id, CheckpointFields(raw, evidence), now, fault)
  }

  /** Evidence required, and missing or not valid any more. */
  function EvidenceError(publication: Publication, now: int): Option<LedgerError> {
    if publication.postSettings.None? then None
    else
      match ValidateEvidence(StoredEvidence(publication.evidence), publication, now)
      case Err(e) => Some(e)
      case Ok(None) => Some(PostSettingsNotVerified)
      case Ok(Some(_)) => None
  }

  function MarkPhase(store: Store, id: string, phase: Phase, now: int, fault: Fault): Reply<Publication> {
    var error := if id in store.state.publications && PhaseOrder(Committing) <= PhaseOrder(phase)
                 then EvidenceError(store.state.publications[id], now) else None;
    if error.Some? then Reply(store, Err(error.value))
    else
      var patch := if phase == Committing || phase == Submitted
                   then NO_PATCH.(outcome := Set(Pending), errorCode := Set(None)) else NO_PATCH;
      Advance(store, id, phase, patch, now, fault)
  }

  // -------------------------------------------------------- script results

  datatype ScriptResult =
    | NotARecord
    | ScriptResult(publicationId: string, contractVersion: int, published: bool, evidence: RawEvidence,
                   baselinePostIds: Option<seq<string>>, baselineTileCount: Option<int>,
                   canonicalUrl: string, shareUrl: string, postUrl: string, linkedPostId: Option<string>, code: string)

  datatype Faults = Faults(evidence: Fault, baseline: Fault, final: Fault)

  function NonEmpty(text: string): Option<string> {
    if text == "" then None else Some(text)
  }

  function ScriptEvidenceFailure(store: Store, id: string, published: bool, now: int, fault: Fault): Reply<Publication>
  {
    var committed := id in store.state.publications && Reached(store.state.publications[id], Committing);
    SetOutcome(store, id, if published || committed then PublishOutcomeUnknown else Failure,
               Some("POST_SETTINGS_NOT_VERIFIED"), now, fault)
  }

  /** What remains once the evidence and the baseline of a result are stored. */
  function SettleResult(store: Store, id: string, result: ScriptResult, now: int, fault: Fault): Reply<Publication>
    requires result.ScriptResult?
  {
    var link := if result.canonicalUrl != "" then result.canonicalUrl else result.postUrl;
    var error := if result.published && id in store.state.publications
                 then EvidenceError(store.state.publications[id], now) else None;
    if error.Some? then
      if id in store.state.publications && store.state.publications[id].evidence.None?
      then SetOutcome(store, id, PublishOutcomeUnknown, Some("POST_SETTINGS_NOT_VERIFIED"), now, fault)
      else Reply(store, Err(error.value))
    else if result.published && result.linkedPostId.Some? then
      Advance(store, id, LinkConfirmed,
              AdvancePatch(Set(Success), Keep, Keep, Set(now), Set(Some(link)), Set(Some(link)),
                           Set(NonEmpty(result.shareUrl)), Set(result.linkedPostId), Set(None)), now, fault)
    else if result.published then
      Advance(store, id, PostConfirmed,
              NO_PATCH.(outcome := Set(PublishedLinkPending), publishedAt := Set(now),
                        errorCode := Set(Some("PUBLISHED_LINK_PENDING"))), now, fault)
    else
      var committed := id in store.state.publications && Reached(store.state.publications[id], Committing);
      SetOutcome(store, id, if committed then PublishOutcomeUnknown else Failure, Some(result.code), now, fault)
  }

  function StoreBaseline(store: Store, id: string, result: ScriptResult, now: int, faults: Faults): Reply<Publication>
    requires result.ScriptResult?
  {
    if result.baselinePostIds.None? then SettleResult(store, id, result, now, faults.final)
    else
      var raw :=
        NO_CHECKPOINT.(baselinePostIds := result.baselinePostIds, baselineTileCount := result.baselineTileCount);
      var stored := ApplyCheckpoint(store, id, raw, now, faults.baseline);
      if stored.result.Err? then stored else SettleResult(stored.store, id, result, now, faults.final)
  }

  function ApplyScriptResult(store: Store, id: string, result: ScriptResult, now: int,
                             faults: Faults): Reply<Publication>
  {
    if result.NotARecord?
      then SetOutcome(store, id, PublishOutcomeUnknown, Some("INVALID_SCRIPT_RESULT"), now, faults.final)
    else if id in store.state.publications && store.state.publications[id].postSettings.Some?
            && (result.publicationId != store.state.publications[id].publicationId || result.contractVersion != 2) then
      SetOutcome(store, id,
                 if result.published || Reached(store.state.publications[id], Committing) then PublishOutcomeUnknown
                   else Failure,
                 Some("PUBLICATION_RESULT_MISMATCH"), now, faults.final)
    else if result.evidence.Absent? then StoreBaseline(store, id, result, now, faults)
    else
      var stored := ApplyCheckpoint(store, id, NO_CHECKPOINT.(evidence := result.evidence), now, faults.evidence);
      if stored.result.Err? then ScriptEvidenceFailure(stored.store, id, result.published, now, faults.final)
      else StoreBaseline(stored.store, id, result, now, faults)
  }

  // -------------------------------------------------- ledger invariants

  predicate EvidenceFits(record: Publication) {
    record.evidence.Some? ==>
      && record.postSettings.Some?
      && record.evidence.value.audience == record.postSettings.value.audience
      && record.evidence.value.commercialDisclosure == record.postSettings.value.commercialDisclosure
      && record.evidence.value.verified
      && record.createdAt <= record.evidence.value.verifiedAt
  }

  predicate RecordInv(record: Publication) {
    && (record.committedAt.Some? <==> Reached(record, Committing))
    && (Reached(record, Committing) ==> record.outcome != Failure)
    && (record.outcome == Success ==> record.phase == LinkConfirmed)
    && (record.phase == LinkConfirmed ==> record.postId.Some? && record.postUrl.Some? && record.canonicalUrl.Some?)
    && EvidenceFits(record)
    && (Reached(record, Committing) && record.postSettings.Some? ==> record.evidence.Some?)
  }

  ghost predicate LedgerInv(state: LedgerState) {
    forall id :: id in state.publications ==>
      state.publications[id].publicationId == id && RecordInv(state.publications[id])
  }

  /** What may happen to one record: identity, creation, evidence and commit time are final, phases only grow. */
  predicate RecordEvolves(a: Publication, b: Publication) {
    && a.publicationId == b.publicationId
    && a.requestFingerprint == b.requestFingerprint
    && a.account == b.account
    && a.media == b.media
    && a.caption == b.caption
    && a.postSettings == b.postSettings
    && a.createdAt == b.createdAt
    && PhaseOrder(a.phase) <= PhaseOrder(b.phase)
    && (a.evidence.Some? ==> b.evidence == a.evidence)
    && (Reached(a, Committing) ==> b.committedAt == a.committedAt)
  }

  ghost predicate Evolves(a: LedgerState, b: LedgerState) {
    forall id :: id in a.publications ==> id in b.publications && RecordEvolves(a.publications[id], b.publications[id])
  }

  lemma {:induction false} EvolvesTransitive(a: LedgerState, b: LedgerState, c: LedgerState)
    requires Evolves(a, b) && Evolves(b, c)
    ensures Evolves(a, c)
  {
    forall id | id in a.publications
      ensures id in c.publications && RecordEvolves(a.publications[id], c.publications[id])
    {
      assert id in b.publications;
    }
  }

  /** Every commit is known to the reuse tables, and none lies after `clock`. */
  ghost predicate Clocked(state: LedgerState, clock: int) {
    forall id :: id in state.publications && Reached(state.publications[id], Committing) ==>
      var r := state.publications[id];
      && r.committedAt.Some?
      && r.committedAt.value <= clock
      && r.media.fingerprint in state.materialUses && r.committedAt.value <= state.materialUses[r.media.fingerprint]
      && r.caption.fingerprint in state.captionUses && r.committedAt.value <= state.captionUses[r.caption.fingerprint]
  }

  /** `b` is a state some operation may leave in memory or in the files, starting from memory `a`. */
  ghost predicate Keeps(a: LedgerState, b: LedgerState, now: int) {
    && Evolves(a, b)
    && (LedgerInv(a) ==> LedgerInv(b))
    && (Clocked(a, now) ==> Clocked(b, now))
  }

  lemma {:induction false} KeepsTransitive(a: LedgerState, b: LedgerState, c: LedgerState, now: int)
    requires Keeps(a, b, now) && Keeps(b, c, now)
    ensures Keeps(a, c, now)
  {
    EvolvesTransitive(a, b, c);
  }

  /**
   * One policy operation: memory evolves and keeps the invariant; the files
   * reopen as before, or as a state between the old and the new memory.
   */
  ghost predicate Follows(a: Store, b: Store, now: int) {
    && Keeps(a.state, b.state, now)
    && (Reopen(b.disk) == Reopen(a.disk)
        || (Keeps(a.state, Reopen(b.disk), now) && Keeps(Reopen(b.disk), b.state, now)))
  }

  lemma {:induction false} FollowsReflexive(store: Store, now: int)
    ensures Follows(store, store, now)
  {
    hide LedgerInv, Clocked;
    assert Evolves(store.state, store.state) by { EvolvesReflexive(store.state); }
  }

  lemma {:induction false} FollowsTransitive(a: Store, b: Store, c: Store, now: int)
    requires Follows(a, b, now) && Follows(b, c, now)
    ensures Follows(a, c, now)
  {
    KeepsTransitive(a.state, b.state, c.state, now);
    if Reopen(c.disk) != Reopen(b.disk) {
      KeepsTransitive(a.state, b.state, Reopen(c.disk), now);
    } else if Reopen(b.disk) != Reopen(a.disk) {
      KeepsTransitive(Reopen(b.disk), b.state, c.state, now);
    }
  }

  /** Saving one changed record follows when the record itself evolves and keeps its invariant. */
  lemma {:induction false} SaveFollows(store: Store, next: LedgerState, id: string, record: Publication, now: int,
                                       fault: Fault)
    requires id in store.state.publications
    requires next.publications == store.state.publications[id := record]
    requires RecordEvolves(store.state.publications[id], record)
    requires RecordInv(store.state.publications[id]) ==> RecordInv(record)
    requires Clocked(store.state, now) ==> Clocked(next, now)
    ensures Follows(store, Save(store, next, record, fault).store, now)
  {
    PersistIsAtomic(store.disk, next, fault);
    assert Keeps(store.state, next, now);
    assert Keeps(next, next, now);
  }

  /** An outcome other than success may be recorded unless it contradicts a commit. */
  lemma {:induction false} SetOutcomeFollows(store: Store, id: string, outcome: Outcome, code: Option<string>, now: int,
                                             fault: Fault)
    requires outcome != Success
    requires outcome == Failure ==> id in store.state.publications ==>
             !Reached(store.state.publications[id], Committing)
    ensures Follows(store, SetOutcome(store, id, outcome, code, now, fault).store, now)
  {
    if id in store.state.publications {
      var record := OutcomeRecord(store.state.publications[id], outcome, code, now);
      SaveFollows(store, WithPublication(store.state, id, record), id, record, now, fault);
    }
  }

  lemma {:induction false} ApplyCheckpointFollows(store: Store, id: string, raw: RawCheckpoint, now: int, fault: Fault)
    ensures Follows(store, ApplyCheckpoint(store, id, raw, now, fault).store, now)
  {
    if id in store.state.publications {
      var known := store.state.publications[id];
      var checked := ValidateEvidence(raw.evidence, known, now);
      if checked.Ok? {
        var record := CheckpointRecord(known, CheckpointFields(raw, checked.value), now);
        SaveFollows(store, WithPublication(store.state, id, record), id, record, now, fault);
      }
    }
  }

  /** Advancing at the current clock reading keeps the reuse tables ahead of all commits. */
  lemma {:induction false} AdvanceIsClocked(state: LedgerState, id: string, phase: Phase, patch: AdvancePatch, now: int)
    requires Clocked(state, now) && patch.committedAt == Keep
    requires id in state.publications && PhaseOrder(state.publications[id].phase) <= PhaseOrder(phase)
    ensures Clocked(AdvanceState(state, id, state.publications[id], phase, patch, now), now)
  {
    var next := AdvanceState(state, id, state.publications[id], phase, patch, now);
    forall other | other in next.publications && Reached(next.publications[other], Committing)
      ensures var r := next.publications[other];
        && r.committedAt.Some? && r.committedAt.value <= now
        && r.media.fingerprint in next.materialUses && r.committedAt.value <= next.materialUses[r.media.fingerprint]
        && r.caption.fingerprint in next.captionUses && r.committedAt.value <= next.captionUses[r.caption.fingerprint]
    {
      if other != id || Reached(state.publications[id], Committing) {
        assert other in state.publications && Reached(state.publications[other], Committing);
      }
    }
  }

  /** A patch that confirms a link names it. */
  predicate NamesLink(patch: AdvancePatch) {
    && patch.postId.Set? && patch.postId.value.Some?
    && patch.postUrl.Set? && patch.postUrl.value.Some?
    && patch.canonicalUrl.Set? && patch.canonicalUrl.value.Some?
  }

  lemma AdvanceRecordKeeps(record: Publication, phase: Phase, patch: AdvancePatch, now: int)
    requires patch.committedAt == Keep && patch.outcome.Set? && patch.outcome.value != Failure
    requires patch.outcome.value == Success ==> phase == LinkConfirmed
    requires PhaseOrder(Committing) <= PhaseOrder(phase) && PhaseOrder(record.phase) <= PhaseOrder(phase)
    requires EvidenceError(record, now) == None && (phase == LinkConfirmed ==> NamesLink(patch))
    ensures RecordEvolves(record, AdvanceRecord(record, phase, patch, now))
    ensures RecordInv(record) ==> RecordInv(AdvanceRecord(record, phase, patch, now))
  {
  }

  /** Advancing follows when evidence is present where required and the outcome fits the phase. */
  lemma {:induction false} AdvanceFollows(store: Store, id: string, phase: Phase, patch: AdvancePatch, now: int,
                                          fault: Fault)
    requires patch.committedAt == Keep && patch.outcome.Set? && patch.outcome.value != Failure
    requires patch.outcome.value == Success ==> phase == LinkConfirmed
    requires PhaseOrder(Committing) <= PhaseOrder(phase) && (phase == LinkConfirmed ==> NamesLink(patch))
    requires id in store.state.publications ==> EvidenceError(store.state.publications[id], now) == None
    ensures Follows(store, Advance(store, id, phase, patch, now, fault).store, now)
  {
    hide Follows, AdvanceRecord, Clocked, RecordEvolves, RecordInv, EvidenceError, Persist;
    FollowsReflexive(store, now);
    if id in store.state.publications && PhaseOrder(store.state.publications[id].phase) <= PhaseOrder(phase) {
      var record := AdvanceRecord(store.state.publications[id], phase, patch, now);
      AdvanceRecordKeeps(store.state.publications[id], phase, patch, now);
      if Clocked(store.state, now) {
        AdvanceIsClocked(store.state, id, phase, patch, now);
      }
      SaveFollows(store, AdvanceState(store.state, id, store.state.publications[id], phase, patch, now), id, record,
                  now, fault);
    }
  }

  lemma {:induction false} MarkPhaseFollows(store: Store, id: string, phase: Phase, now: int, fault: Fault)
    requires phase == Committing || phase == Submitted
    ensures Follows(store, MarkPhase(store, id, phase, now, fault).store, now)
  {
    if id in store.state.publications && EvidenceError(store.state.publications[id], now).None? {
      AdvanceFollows(store, id, phase, NO_PATCH.(outcome := Set(Pending), errorCode := Set(None)), now, fault);
    }
  }

  lemma {:induction false} SettleResultFollows(store: Store, id: string, result: ScriptResult, now: int, fault: Fault)
    requires result.ScriptResult?
    ensures Follows(store, SettleResult(store, id, result, now, fault).store, now)
  {
    hide Follows, Advance, SetOutcome, EvidenceError;
    FollowsReflexive(store, now);
    var link := if result.canonicalUrl != "" then result.canonicalUrl else result.postUrl;
    if result.published && id in store.state.publications && EvidenceError(store.state.publications[id], now).Some? {
      SetOutcomeFollows(store, id, PublishOutcomeUnknown, Some("POST_SETTINGS_NOT_VERIFIED"), now, fault);
    } else if result.published && result.linkedPostId.Some? {
      AdvanceFollows(store, id, LinkConfirmed,
                     AdvancePatch(Set(Success), Keep, Keep, Set(now), Set(Some(link)), Set(Some(link)),
                                  Set(NonEmpty(result.shareUrl)), Set(result.linkedPostId), Set(None)), now, fault);
    } else if result.published {
      AdvanceFollows(store, id, PostConfirmed,
                     NO_PATCH.(outcome := Set(PublishedLinkPending), publishedAt := Set(now),
                               errorCode := Set(Some("PUBLISHED_LINK_PENDING"))), now, fault);
    } else {
      var committed := id in store.state.publications && Reached(store.state.publications[id], Committing);
      SetOutcomeFollows(store, id, if committed then PublishOutcomeUnknown else Failure, Some(result.code), now, fault);
    }
  }

  lemma {:induction false} StoreBaselineFollows(store: Store, id: string, result: ScriptResult, now: int,
                                                faults: Faults)
    requires result.ScriptResult?
    ensures Follows(store, StoreBaseline(store, id, result, now, faults).store, now)
  {
    if result.baselinePostIds.None? {
      SettleResultFollows(store, id, result, now, faults.final);
    } else {
      var raw :=
        NO_CHECKPOINT.(baselinePostIds := result.baselinePostIds, baselineTileCount := result.baselineTileCount);
      var stored := ApplyCheckpoint(store, id, raw, now, faults.baseline);
      ApplyCheckpointFollows(store, id, raw, now, faults.baseline);
      if stored.result.Ok? {
        SettleResultFollows(stored.store, id, result, now, faults.final);
        FollowsTransitive(store, stored.store, StoreBaseline(store, id, result, now, faults).store, now);
      }
    }
  }

  lemma {:induction false} ApplyScriptResultFollows(store: Store, id: string, result: ScriptResult, now: int,
                                                    faults: Faults)
    ensures Follows(store, ApplyScriptResult(store, id, result, now, faults).store, now)
  {
    if result.NotARecord? {
      SetOutcomeFollows(store, id, PublishOutcomeUnknown, Some("INVALID_SCRIPT_RESULT"), now, faults.final);
    } else if id in store.state.publications && store.state.publications[id].postSettings.Some?
              && (result.publicationId != store.state.publications[id].publicationId || result.contractVersion != 2) {
      var committed := Reached(store.state.publications[id], Committing);
      SetOutcomeFollows(store, id, if result.published || committed then PublishOutcomeUnknown else Failure,
                        Some("PUBLICATION_RESULT_MISMATCH"), now, faults.final);
    } else if result.evidence.Absent? {
      StoreBaselineFollows(store, id, result, now, faults);
    } else {
      var raw := NO_CHECKPOINT.(evidence := result.evidence);
      var stored := ApplyCheckpoint(store, id, raw, now, faults.evidence);
      ApplyCheckpointFollows(store, id, raw, now, faults.evidence);
      if stored.result.Err? {
        var committed := id in stored.store.state.publications
          && Reached(stored.store.state.publications[id], Committing);
        SetOutcomeFollows(stored.store, id, if result.published || committed then PublishOutcomeUnknown else Failure,
                          Some("POST_SETTINGS_NOT_VERIFIED"), now, faults.final);
      } else {
        StoreBaselineFollows(stored.store, id, result, now, faults);
      }
      FollowsTransitive(store, stored.store, ApplyScriptResult(store, id, result, now, faults).store, now);
    }
  }

  // ---------------------------------------------------- posting policy

  datatype PostingPolicy = PostingPolicy(
    minIntervalSeconds: nat, maxPostsPerDay: nat, materialReuseSeconds: nat, captionReuseSeconds: nat)

  datatype PolicyCheck = Allowed | Cooldown(retryAt: int) | DailyLimit

  function CommitTime(record: Publication): int {
    record.committedAt.GetOr(record.submittedAt.GetOr(record.updatedAt))
  }

  function LastCommit(records: seq<Publication>): int {
    if records == [] then 0
    else
      var rest := LastCommit(records[1..]);
      if Reached(records[0], Committing) then Max(CommitTime(records[0]), rest) else rest
  }

  function CommitsSince(records: seq<Publication>, start: int): nat {
    if records == [] then 0
    else
      CommitsSince(records[1..], start)
      + if Reached(records[0], Committing) && start <= CommitTime(records[0]) then 1 else 0
  }

  /** `midnight` is the start of the local day of `now`. */
  function EvaluatePostingPolicy(records: seq<Publication>, policy: PostingPolicy, now: int, midnight: int): PolicyCheck
  {
    var last := LastCommit(records);
    if last != 0 && now < last + policy.minIntervalSeconds * 1000 then Cooldown(last + policy.minIntervalSeconds * 1000)
    else if policy.maxPostsPerDay <= CommitsSince(records, midnight) then DailyLimit
    else Allowed
  }

  predicate SpacedAfter(record: Publication, policy: PostingPolicy, now: int) {
    Reached(record, Committing) ==>
      CommitTime(record) <= 0 || CommitTime(record) + policy.minIntervalSeconds * 1000 <= now
  }

  predicate CommittedSince(record: Publication, start: int) {
    Reached(record, Committing) && start <= CommitTime(record)
  }

  function CommittedIdsSince(publications: map<string, Publication>, start: int): set<string> {
    set id | id in publications && CommittedSince(publications[id], start)
  }

  /** What the check promises about the ledger as a whole, without an order on its records. */
  predicate PolicyAllows(publications: map<string, Publication>, policy: PostingPolicy, now: int, midnight: int) {
    && (forall id :: id in publications ==> SpacedAfter(publications[id], policy, now))
    && |CommittedIdsSince(publications, midnight)| < policy.maxPostsPerDay
  }

  /** `ids` lists the records of the ledger once each, in any order. */
  ghost predicate Lists(ids: seq<string>, publications: map<string, Publication>) {
    && (forall i, j :: 0 <= i < j < |ids| ==> ids[i] != ids[j])
    && (forall id :: id in ids <==> id in publications)
  }

  function Records(ids: seq<string>, publications: map<string, Publication>): (records: seq<Publication>)
    requires forall id :: id in ids ==> id in publications
  {
    seq(|ids|, i requires 0 <= i < |ids| => assert ids[i] in ids; publications[ids[i]])
  }

  lemma {:induction false} LastCommitBounds(records: seq<Publication>)
    ensures LastCommit(records) >= 0
    ensures forall r :: r in records && Reached(r, Committing) ==> CommitTime(r) <= LastCommit(records)
    ensures LastCommit(records) > 0 ==>
      exists r :: r in records && Reached(r, Committing) && CommitTime(r) == LastCommit(records)
  {
    if records != [] {
      LastCommitBounds(records[1..]);
      assert records == [records[0]] + records[1..];
    }
  }

  lemma {:induction false} CountsOneMore(ids: seq<string>, publications: map<string, Publication>, start: int)
    requires ids != [] && (forall id :: id in ids ==> id in publications) && ids[0] !in ids[1..]
    ensures |set id | id in ids && CommittedSince(publications[id], start)|
         == |set id | id in ids[1..] && CommittedSince(publications[id], start)|
           + (if CommittedSince(publications[ids[0]], start) then 1 else 0)
  {
    hide CommittedSince;
    var rest := set id | id in ids[1..] && CommittedSince(publications[id], start);
    var all := set id | id in ids && CommittedSince(publications[id], start);
    assert ids == [ids[0]] + ids[1..];
    assert all == if CommittedSince(publications[ids[0]], start) then rest + {ids[0]} else rest;
  }

  lemma {:induction false} CommitsSinceCounts(ids: seq<string>, publications: map<string, Publication>, start: int)
    requires forall id :: id in ids ==> id in publications
    requires forall i, j :: 0 <= i < j < |ids| ==> ids[i] != ids[j]
    ensures CommitsSince(Records(ids, publications), start)
         == |set id | id in ids && CommittedSince(publications[id], start)|
  {
    if ids != [] {
      CommitsSinceCounts(ids[1..], publications, start);
      assert Records(ids, publications)[1..] == Records(ids[1..], publications);
      CountsOneMore(ids, publications, start);
      hide Records;
    }
  }

  lemma {:induction false} RecordsAreAll(ids: seq<string>, publications: map<string, Publication>)
    requires Lists(ids, publications)
    ensures forall r :: r in Records(ids, publications) <==> exists id :: id in publications && publications[id] == r
  {
    var records := Records(ids, publications);
    forall id | id in publications ensures publications[id] in records {
      var i :| 0 <= i < |ids| && ids[i] == id;
      assert records[i] == publications[id];
    }
    forall r | r in records ensures exists id :: id in publications && publications[id] == r {
      var i :| 0 <= i < |records| && records[i] == r;
      assert ids[i] in publications && publications[ids[i]] == r;
    }
  }

  /** The last commit is far enough back exactly when each of them is. */
  lemma {:induction false} SpacedMeansAll(ids: seq<string>, publications: map<string, Publication>,
                                          policy: PostingPolicy, now: int)
    requires Lists(ids, publications)
    ensures var last := LastCommit(Records(ids, publications));
      (last == 0 || last + policy.minIntervalSeconds * 1000 <= now)
      <==> forall id :: id in publications ==> SpacedAfter(publications[id], policy, now)
  {
    hide Records, LastCommit, CommitTime;
    RecordsAreAll(ids, publications);
    LastCommitBounds(Records(ids, publications));
    forall id | id in publications ensures publications[id] in Records(ids, publications) {}
  }

  /** The scan accepts exactly when every recorded commit is far enough back and the day has room. */
  lemma {:induction false} EvaluateMatchesPolicy(ids: seq<string>, publications: map<string, Publication>,
                                                 policy: PostingPolicy, now: int, midnight: int)
    requires Lists(ids, publications)
    ensures EvaluatePostingPolicy(Records(ids, publications), policy, now, midnight).Allowed?
        <==> PolicyAllows(publications, policy, now, midnight)
  {
    SpacedMeansAll(ids, publications, policy, now);
    CommitsSinceCounts(ids, publications, midnight);
    hide Records, LastCommit, CommitsSince, SpacedAfter, CommittedSince;
    assert CommittedIdsSince(publications, midnight)
        == set id | id in ids && CommittedSince(publications[id], midnight);
  }

  // ------------------------------------------------------------ selection

  function LastUse(uses: map<Fingerprint, int>, fingerprint: Fingerprint): int {
    if fingerprint in uses then uses[fingerprint] else 0
  }

  predicate Eligible(fingerprint: Fingerprint, uses: map<Fingerprint, int>, reuseSeconds: nat, now: int) {
    reuseSeconds * 1000 <= now - LastUse(uses, fingerprint)
  }

  /** Longest unused first, then by fingerprint. */
  predicate Before(a: Fingerprint, b: Fingerprint, uses: map<Fingerprint, int>) {
    LastUse(uses, a) < LastUse(uses, b) || (LastUse(uses, a) == LastUse(uses, b) && a < b)
  }

  /** Position of the first eligible candidate that no other eligible one precedes. */
  function Select(fingerprints: seq<Fingerprint>, uses: map<Fingerprint, int>, reuseSeconds: nat,
                  now: int): (r: Option<nat>)
    ensures r.Some? ==> r.value < |fingerprints|
  {
    if fingerprints == [] then None
    else
      var last := |fingerprints| - 1;
      var best := Select(fingerprints[..last], uses, reuseSeconds, now);
      if !Eligible(fingerprints[last], uses, reuseSeconds, now) then best
      else if best.Some? && !Before(fingerprints[last], fingerprints[best.value], uses) then best
      else Some(last)
  }

  lemma {:induction false} SelectIsLeast(fingerprints: seq<Fingerprint>, uses: map<Fingerprint, int>, reuseSeconds: nat,
                                         now: int)
    ensures Select(fingerprints, uses, reuseSeconds, now).None?
        <==> forall f :: f in fingerprints ==> !Eligible(f, uses, reuseSeconds, now)
    ensures var r := Select(fingerprints, uses, reuseSeconds, now);
      r.Some? ==>
        && Eligible(fingerprints[r.value], uses, reuseSeconds, now)
        && forall f :: f in fingerprints && Eligible(f, uses, reuseSeconds, now) ==>
           !Before(f, fingerprints[r.value], uses)
  {
    if fingerprints != [] {
      var last := |fingerprints| - 1;
      SelectIsLeast(fingerprints[..last], uses, reuseSeconds, now);
      assert fingerprints == fingerprints[..last] + [fingerprints[last]];
    }
  }

  /** The chosen fingerprint does not depend on the order, or the repetition, of the candidates. */
  lemma {:induction false} SelectIgnoresOrder(xs: seq<Fingerprint>, ys: seq<Fingerprint>, uses: map<Fingerprint, int>,
                                              reuseSeconds: nat, now: int)
    requires forall f :: f in xs <==> f in ys
    ensures var a, b := Select(xs, uses, reuseSeconds, now), Select(ys, uses, reuseSeconds, now);
      a.Some? == b.Some? && (a.Some? ==> xs[a.value] == ys[b.value])
  {
    SelectIsLeast(xs, uses, reuseSeconds, now);
    SelectIsLeast(ys, uses, reuseSeconds, now);
    var a, b := Select(xs, uses, reuseSeconds, now), Select(ys, uses, reuseSeconds, now);
    if a.Some? && b.Some? {
      assert !Before(ys[b.value], xs[a.value], uses) && !Before(xs[a.value], ys[b.value], uses);
    }
  }

  // ---------------------------------------------------------- preparation

  datatype Action = Publish | Preflight | Recover | Status

  /** A normalized request whose media files were inspected and whose captions were composed. */
  datatype Request = Request(
    action: Action,
    publicationId: string,
    expectedHandle: Option<string>,
    postSettings: Option<PostSettings>,
    expectedSha256: Option<Fingerprint>,
    media: seq<Media>,
    captions: seq<Caption>,
    fingerprint: Fingerprint,
    policy: PostingPolicy)

  datatype Decision = New | Resume | RecoverOnly | Cached | PreflightOnly | StatusOnly

  /** `action` is what the script will be told to do; nothing runs when `runsScript` is false. */
  datatype Prepared = Prepared(action: Action, publicationId: string, decision: Decision,
                               publication: Option<Publication>, runsScript: bool)

  datatype PrepareError = Ledger(error: LedgerError) | Policy(code: string)
  datatype Preparation = Preparation(store: Store, result: Result<Prepared, PrepareError>)

  function MediaFingerprints(media: seq<Media>): seq<Fingerprint> {
    seq(|media|, i requires 0 <= i < |media| => media[i].fingerprint)
  }

  function CaptionFingerprints(captions: seq<Caption>): seq<Fingerprint> {
    seq(|captions|, i requires 0 <= i < |captions| => captions[i].fingerprint)
  }

  /** Settings or a media hash repeated in a later request must match the record. */
  function RepeatError(request: Request, publication: Publication): Option<PrepareError> {
    if request.postSettings.Some? && request.postSettings != publication.postSettings
    then Some(Policy("POST_SETTINGS_RECOVERY_MISMATCH"))
    else if request.expectedSha256.Some? && request.expectedSha256 != publication.media.expectedSha256
    then Some(Policy("MEDIA_SHA256_RECOVERY_MISMATCH"))
    else None
  }

  function PrepareStatus(state: LedgerState, request: Request): Result<Prepared, PrepareError> {
    if request.publicationId !in state.publications then Err(Ledger(PublicationNotFound))
    else
      var publication := state.publications[request.publicationId];
      var sensitive := publication.postSettings.Some? || publication.media.expectedSha256.Some?
                       || request.postSettings.Some? || request.expectedSha256.Some?;
      if sensitive && request.expectedHandle.None? then Err(Policy("EXPECTED_HANDLE_REQUIRED"))
      else if sensitive && request.expectedHandle.value != publication.account
        then Err(Policy("EXPECTED_ACCOUNT_MISMATCH"))
      else if sensitive && RepeatError(request, publication).Some? then Err(RepeatError(request, publication).value)
      else Ok(Prepared(Status, request.publicationId, StatusOnly, Some(publication), false))
  }

  function PrepareRecover(state: LedgerState, request: Request): Result<Prepared, PrepareError> {
    if request.publicationId !in state.publications then Err(Ledger(PublicationNotFound))
    else
      var publication := state.publications[request.publicationId];
      if request.expectedHandle != Some(publication.account) then Err(Policy("EXPECTED_ACCOUNT_MISMATCH"))
      else if RepeatError(request, publication).Some? then Err(RepeatError(request, publication).value)
      else
        var done := publication.phase == LinkConfirmed;
        Ok(Prepared(Recover, request.publicationId, if done then Cached else RecoverOnly, Some(publication), !done))
  }

  /** A second publish request for a known identifier. */
  function PrepareRepeat(publication: Publication, request: Request): Result<Prepared, PrepareError> {
    if publication.requestFingerprint != request.fingerprint then Err(Ledger(PublicationIdConflict))
    else if publication.evidence.Some? && !Reached(publication, Committing)
      then Err(Policy("POST_SETTINGS_REVIEW_REQUIRED"))
    else
      var decision := if publication.phase == LinkConfirmed then Cached
                      else if Reached(publication, Committing)
                              || (publication.postSettings.Some? && publication.outcome == PublishOutcomeUnknown)
                      then RecoverOnly
                      else Resume;
      Ok(Prepared(if decision == RecoverOnly then Recover else Publish, request.publicationId, decision,
                  Some(publication), decision != Cached))
  }

  function PrepareNew(store: Store, request: Request, media: Media, caption: Caption, now: int,
                      fault: Fault): Preparation
  {
    var input := NewPublication(
      request.publicationId, request.fingerprint, request.expectedHandle.GetOr("LEGACY_UNVERIFIED"),
      media.(expectedSha256 := if request.expectedSha256.Some? then request.expectedSha256 else media.expectedSha256),
      caption, request.postSettings);
    var begun := Begin(store, input, now, fault);
    match begun.result
    case Err(e) => Preparation(begun.store, Err(Ledger(e)))
    case Ok((record, created)) =>
      var decision := if record.phase == LinkConfirmed then Cached
                      else if Reached(record, Committing) then RecoverOnly
                      else if created then New else Resume;
      Preparation(begun.store,
                  Ok(Prepared(if decision == RecoverOnly then Recover else Publish, request.publicationId, decision,
                              Some(record), decision != Cached)))
  }

  /** A fresh ledger object is opened for every task. */
  function Prepare(disk: Disk, request: Request, now: int, midnight: int, fault: Fault): Preparation {
    var store := Store(Reopen(disk), disk);
    var state := store.state;
    if request.action == Status then Preparation(store, PrepareStatus(state, request))
    else if request.action == Recover then Preparation(store, PrepareRecover(state, request))
    else if request.expectedSha256.Some?
            && (|request.media| != 1 || request.media[0].fingerprint != request.expectedSha256.value)
    then Preparation(store, Err(Policy("MEDIA_HASH_MISMATCH")))
    else if request.action == Preflight && request.captions == [] then
      Preparation(store, Ok(Prepared(Preflight, request.publicationId, PreflightOnly, None, true)))
    else if request.captions == [] then Preparation(store, Err(Policy("CAPTION_REQUIRED")))
    else if request.action == Publish && request.publicationId in state.publications then
      Preparation(store, PrepareRepeat(state.publications[request.publicationId], request))
    else if request.action == Publish && !PolicyAllows(state.publications, request.policy, now, midnight) then
      Preparation(store, Err(Policy("POSTING_POLICY")))
    else
      var medium :=
        Select(MediaFingerprints(request.media), state.materialUses, request.policy.materialReuseSeconds, now);
      var caption :=
        Select(CaptionFingerprints(request.captions), state.captionUses, request.policy.captionReuseSeconds, now);
      if request.media != [] && medium.None? then Preparation(store, Err(Policy("MATERIAL_REUSE_COOLDOWN")))
      else if caption.None? then Preparation(store, Err(Policy("CAPTION_REUSE_COOLDOWN")))
      else if request.action == Preflight then
        Preparation(store, Ok(Prepared(Preflight, request.publicationId, PreflightOnly, None, true)))
      else if request.media == [] then Preparation(store, Err(Policy("MEDIA_REQUIRED")))
      else PrepareNew(store, request, request.media[medium.value], request.captions[caption.value], now, fault)
  }

  /** A new record is uncommitted, so the ledger with it keeps everything. */
  lemma NewRecordKeeps(state: LedgerState, input: NewPublication, now: int)
    requires input.publicationId !in state.publications
    ensures var next := WithPublication(state, input.publicationId, NewRecord(input, now));
      Keeps(state, next, now) && Keeps(next, next, now)
  {
  }

  lemma {:induction false} BeginFollows(store: Store, input: NewPublication, now: int, fault: Fault)
    ensures Follows(store, Begin(store, input, now, fault).store, now)
  {
    hide Keeps, NewRecord, Persist, Reopen;
    if input.publicationId in store.state.publications {
      FollowsReflexive(store, now);
    } else {
      var next := WithPublication(store.state, input.publicationId, NewRecord(input, now));
      NewRecordKeeps(store.state, input, now);
      PersistIsAtomic(store.disk, next, fault);
    }
  }

  lemma {:induction false} PrepareNewFollows(store: Store, request: Request, media: Media, caption: Caption, now: int,
                                             fault: Fault)
    ensures Follows(store, PrepareNew(store, request, media, caption, now, fault).store, now)
  {
    hide Follows, Begin;
    var input := NewPublication(
      request.publicationId, request.fingerprint, request.expectedHandle.GetOr("LEGACY_UNVERIFIED"),
      media.(expectedSha256 := if request.expectedSha256.Some? then request.expectedSha256 else media.expectedSha256),
      caption, request.postSettings);
    BeginFollows(store, input, now, fault);
  }

  /** Preparing keeps the ledger, whatever the request and wherever the save stops. */
  lemma {:induction false} PrepareFollows(disk: Disk, request: Request, now: int, midnight: int, fault: Fault)
    ensures Follows(Store(Reopen(disk), disk), Prepare(disk, request, now, midnight, fault).store, now)
  {
    hide Follows, PrepareNew, PrepareStatus, PrepareRecover, PrepareRepeat, PolicyAllows, Reopen;
    var store := Store(Reopen(disk), disk);
    FollowsReflexive(store, now);
    var medium :=
      Select(MediaFingerprints(request.media), store.state.materialUses, request.policy.materialReuseSeconds, now);
    var caption :=
      Select(CaptionFingerprints(request.captions), store.state.captionUses, request.policy.captionReuseSeconds, now);
    if medium.Some? && caption.Some? {
      PrepareNewFollows(store, request, request.media[medium.value], request.captions[caption.value], now, fault);
    }
  }

  /** A script is told to publish only while the files hold no commit for that publication. */
  lemma PublishIsNeverRepeated(disk: Disk, request: Request, now: int, midnight: int, fault: Fault)
    requires var p := Prepare(disk, request, now, midnight, fault).result;
      p.Ok? && p.value.runsScript && p.value.action == Publish
    ensures request.publicationId in Reopen(disk).publications ==>
      !Reached(Reopen(disk).publications[request.publicationId], Committing)
  {
  }

  // --------------------------------------------------------- commit times

  /** A NEW decision at `now` keeps the configured distance from every commit recorded so far. */
  lemma {:induction false} NewDecisionIsSpaced(disk: Disk, request: Request, now: int, midnight: int, fault: Fault,
                                               clock: int, id: string)
    requires Clocked(Reopen(disk), clock)
    requires Prepare(disk, request, now, midnight, fault).result.Ok?
    requires Prepare(disk, request, now, midnight, fault).result.value.decision == New
    requires id in Reopen(disk).publications && Reached(Reopen(disk).publications[id], Committing)
    ensures var made, r := Prepare(disk, request, now, midnight, fault).result.value.publication.value,
            Reopen(disk).publications[id];
      var commit := r.committedAt.value;
      && (commit <= 0 || commit + request.policy.minIntervalSeconds * 1000 <= now)
      && (r.media.fingerprint == made.media.fingerprint ==> commit + request.policy.materialReuseSeconds * 1000 <= now)
      && (r.caption.fingerprint == made.caption.fingerprint
          ==> commit + request.policy.captionReuseSeconds * 1000 <= now)
      && |CommittedIdsSince(Reopen(disk).publications, midnight)| < request.policy.maxPostsPerDay
  {
    var state := Reopen(disk);
    var medium := MediaFingerprints(request.media);
    var captions := CaptionFingerprints(request.captions);
    SelectIsLeast(medium, state.materialUses, request.policy.materialReuseSeconds, now);
    SelectIsLeast(captions, state.captionUses, request.policy.captionReuseSeconds, now);
    assert SpacedAfter(state.publications[id], request.policy, now);
  }

  lemma {:induction false} ImportLegacyFollows(store: Store, material: map<Fingerprint, int>,
                                               captions: map<Fingerprint, int>, now: int, fault: Fault)
    ensures Follows(store, ImportLegacy(store, material, captions, now, fault).store, now)
  {
    assert Keeps(store.state, store.state, now);
    if store.state.legacyImport.None? {
      var next := ImportLegacy(store, material, captions, now, fault).store.state;
      PersistIsAtomic(store.disk, next, fault);
      assert next.publications == store.state.publications;
      assert Keeps(store.state, next, now);
      assert Keeps(next, next, now);
    }
  }

  lemma EvolvesReflexive(state: LedgerState)
    ensures Evolves(state, state)
  {
  }

  lemma ClockedLater(state: LedgerState, clock: int, later: int)
    requires Clocked(state, clock) && clock <= later
    ensures Clocked(state, later)
  {
  }

  // ---------------------------------------------- operations on the object

  method MarkPublicationPhase(ledger: Ledger, id: string, phase: Phase, now: int, fault: Fault)
    returns (result: Result<Publication, LedgerError>)
    modifies ledger`state, ledger.files
    ensures Reply(ledger.Value(), result) == MarkPhase(old(ledger.Value()), id, phase, now, fault)
  {
    if id in ledger.state.publications {
      var publication := ledger.state.publications[id];
      if publication.postSettings.Some? && PhaseOrder(Committing) <= PhaseOrder(phase) {
        var checked := ValidateEvidence(StoredEvidence(publication.evidence), publication, now);
        if checked.Err? {
          return Err(checked.error);
        }
        if checked.value.None? {
          return Err(PostSettingsNotVerified);
        }
      }
    }
    var patch := NO_PATCH;
    if phase == Committing || phase == Submitted {
      patch := patch.(outcome := Set(Pending), errorCode := Set(None));
    }
    result := ledger.AdvancePhase(id, phase, patch, now, fault);
  }

  method ApplyPublicationCheckpoint(ledger: Ledger, id: string, raw: RawCheckpoint, now: int, fault: Fault)
    returns (result: Result<Publication, LedgerError>)
    modifies ledger`state, ledger.files
    ensures Reply(ledger.Value(), result) == ApplyCheckpoint(old(ledger.Value()), id, raw, now, fault)
  {
    if id !in ledger.state.publications {
      return Err(PublicationNotFound);
    }
    var checked := ValidateEvidence(raw.evidence, ledger.state.publications[id], now);
    if checked.Err? {
      return Err(checked.error);
    }
    result := ledger.SaveCheckpoint(id, CheckpointFields(raw, checked.value), now, fault);
  }

  /** Merges the final result of a script into the ledger. */
  method ApplyPublicationResult(ledger: Ledger, id: string, result: ScriptResult, now: int, faults: Faults)
    returns (reply: Result<Publication, LedgerError>)
    modifies ledger`state, ledger.files
    ensures Reply(ledger.Value(), reply) == ApplyScriptResult(old(ledger.Value()), id, result, now, faults)
  {
    if result.NotARecord? {
      reply := ledger.RecordOutcome(id, PublishOutcomeUnknown, Some("INVALID_SCRIPT_RESULT"), now, faults.final);
      return;
    }
    if id in ledger.state.publications && ledger.state.publications[id].postSettings.Some? {
      var original := ledger.state.publications[id];
      if result.publicationId != original.publicationId || result.contractVersion != 2 {
        var unknown := result.published || Reached(original, Committing);
        reply := ledger.RecordOutcome(id, if unknown then PublishOutcomeUnknown else Failure,
                                      Some("PUBLICATION_RESULT_MISMATCH"), now, faults.final);
        return;
      }
    }
    if !result.evidence.Absent? {
      reply :=
        ApplyPublicationCheckpoint(ledger, id, NO_CHECKPOINT.(evidence := result.evidence), now, faults.evidence);
      if reply.Err? {
        var committed := id in ledger.state.publications && Reached(ledger.state.publications[id], Committing);
        reply := ledger.RecordOutcome(id, if result.published || committed then PublishOutcomeUnknown else Failure,
                                      Some("POST_SETTINGS_NOT_VERIFIED"), now, faults.final);
        return;
      }
    }
    if result.baselinePostIds.Some? {
      reply := ApplyPublicationCheckpoint(
        ledger, id,
        NO_CHECKPOINT.(baselinePostIds := result.baselinePostIds, baselineTileCount := result.baselineTileCount),
        now, faults.baseline);
      if reply.Err? {
        return;
      }
    }
    reply := SettlePublicationResult(ledger, id, result, now, faults.final);
  }

  method SettlePublicationResult(ledger: Ledger, id: string, result: ScriptResult, now: int, fault: Fault)
    returns (reply: Result<Publication, LedgerError>)
    requires result.ScriptResult?
    modifies ledger`state, ledger.files
    ensures Reply(ledger.Value(), reply) == SettleResult(old(ledger.Value()), id, result, now, fault)
  {
    var link := if result.canonicalUrl != "" then result.canonicalUrl else result.postUrl;
    if result.published && id in ledger.state.publications && ledger.state.publications[id].postSettings.Some? {
      var publication := ledger.state.publications[id];
      var checked := ValidateEvidence(StoredEvidence(publication.evidence), publication, now);
      if checked.Err? {
        return Err(checked.error);
      }
      if checked.value.None? {
        reply := ledger.RecordOutcome(id, PublishOutcomeUnknown, Some("POST_SETTINGS_NOT_VERIFIED"), now, fault);
        return;
      }
    }
    if result.published && result.linkedPostId.Some? {
      var patch := NO_PATCH.(outcome := Set(Success), publishedAt := Set(now), postUrl := Set(Some(link)),
                             canonicalUrl := Set(Some(link)), shareUrl := Set(NonEmpty(result.shareUrl)),
                             postId := Set(result.linkedPostId), errorCode := Set(None));
      reply := ledger.AdvancePhase(id, LinkConfirmed, patch, now, fault);
      return;
    }
    if result.published {
      var patch := NO_PATCH.(outcome := Set(PublishedLinkPending), publishedAt := Set(now),
                             errorCode := Set(Some("PUBLISHED_LINK_PENDING")));
      reply := ledger.AdvancePhase(id, PostConfirmed, patch, now, fault);
      return;
    }
    var committed := id in ledger.state.publications && Reached(ledger.state.publications[id], Committing);
    reply :=
      ledger.RecordOutcome(id, if committed then PublishOutcomeUnknown else Failure, Some(result.code), now, fault);
  }
}
