/**
 * The private publication ledger (mobile/src/tiktok-ledger.ts): its record
 * operations, and the two files that make it survive a crash.
 */
module TikTokLedger {
  import opened Common

  datatype Phase = Prechecked | EditorReady | Committing | Submitted | PostConfirmed | LinkConfirmed

  function PhaseOrder(phase: Phase): nat {
    match phase
    case Prechecked => 0
    case EditorReady => 1
    case Committing => 2
    case Submitted => 3
    case PostConfirmed => 4
    case LinkConfirmed => 5
  }

  datatype Outcome = Pending | Success | Failure | PublishedLinkPending | PublishOutcomeUnknown

  /** A SHA-256 digest; hexadecimal digests of equal length compare as numbers. */
  type Fingerprint = nat

  datatype Media = Media(path: string, isVideo: bool, fingerprint: Fingerprint, expectedSha256: Option<Fingerprint>)
  datatype Caption = Caption(title: string, details: string, fingerprint: Fingerprint)

  /** The only accepted per-post settings. */
  datatype Audience = Public
  datatype Disclosure = YourBrand
  datatype PostSettings = PostSettings(audience: Audience, commercialDisclosure: Disclosure)
  datatype Evidence = Evidence(audience: Audience, commercialDisclosure: Disclosure, verified: bool, verifiedAt: int)

  datatype Publication = Publication(
    publicationId: string,
    requestFingerprint: Fingerprint,
    account: string,
    phase: Phase,
    outcome: Outcome,
    media: Media,
    caption: Caption,
    postSettings: Option<PostSettings>,
    evidence: Option<Evidence>,
    createdAt: int,
    updatedAt: int,
    committedAt: Option<int>,
    submittedAt: Option<int>,
    publishedAt: Option<int>,
    baselinePostIds: Option<seq<string>>,
    baselineTileCount: Option<int>,
    postUrl: Option<string>,
    canonicalUrl: Option<string>,
    shareUrl: Option<string>,
    postId: Option<string>,
    errorCode: Option<string>)

  datatype NewPublication = NewPublication(
    publicationId: string,
    requestFingerprint: Fingerprint,
    account: string,
    media: Media,
    caption: Caption,
    postSettings: Option<PostSettings>)

  datatype LedgerState = LedgerState(
    publications: map<string, Publication>,
    materialUses: map<Fingerprint, int>,
    captionUses: map<Fingerprint, int>,
    legacyImport: Option<int>)

  const EMPTY := LedgerState(map[], map[], map[], None)

  datatype LedgerError =
    | PublicationIdConflict
    | PublicationNotFound
    | PhaseRegression
    | PersistFailed
    | PostSettingsNotVerified
    | EvidenceConflict

  /** Fields that advancing a phase may overwrite. */
  datatype AdvancePatch = AdvancePatch(
    outcome: Change<Outcome>,
    committedAt: Change<int>,
    submittedAt: Change<int>,
    publishedAt: Change<int>,
    postUrl: Change<Option<string>>,
    canonicalUrl: Change<Option<string>>,
    shareUrl: Change<Option<string>>,
    postId: Change<Option<string>>,
    errorCode: Change<Option<string>>)

  const NO_PATCH := AdvancePatch(Keep, Keep, Keep, Keep, Keep, Keep, Keep, Keep, Keep)

  /** Recovery context that a checkpoint may overwrite. */
  datatype CheckpointPatch = CheckpointPatch(
    baselinePostIds: Change<Option<seq<string>>>,
    baselineTileCount: Change<Option<int>>,
    postId: Change<Option<string>>,
    postUrl: Change<Option<string>>,
    canonicalUrl: Change<Option<string>>,
    shareUrl: Change<Option<string>>,
    evidence: Change<Option<Evidence>>)

  // ---------------------------------------------------------------- files

  datatype FileContent = Missing | Unreadable | Readable(state: LedgerState)
  datatype Disk = Disk(main: FileContent, backup: FileContent)

  /** Where a save stops: an I/O error and a crash leave the same files behind. */
  datatype Fault = NoFault | FailsBeforeBackup | FailsBeforeMain

  function ReadState(file: FileContent): Option<LedgerState> {
    match file
    case Readable(state) => Some(state)
    case _ => None
  }

  /** The state a fresh process loads: main file, else backup, else empty. */
  function Reopen(disk: Disk): LedgerState {
    match ReadState(disk.main)
    case Some(state) => state
    case None => ReadState(disk.backup).GetOr(EMPTY)
  }

  /** Files after a save of `state` that stops where `fault` says, and whether it completed. */
  function Persist(disk: Disk, state: LedgerState, fault: Fault): (Disk, bool) {
    if fault == FailsBeforeBackup then (disk, false)
    else
      var kept := if disk.main.Readable? then disk.(backup := disk.main) else disk;
      if fault == FailsBeforeMain then (kept, false)
      else (kept.(main := Readable(state)), true)
  }

  /** A save that stops anywhere reopens as the state just before or just after it. */
  lemma PersistIsAtomic(disk: Disk, state: LedgerState, fault: Fault)
    ensures Reopen(Persist(disk, state, fault).0) == if Persist(disk, state, fault).1 then state else Reopen(disk)
  {
  }

  /** The main file alone becomes unreadable. */
  function LoseMain(disk: Disk): Disk {
    disk.(main := Unreadable)
  }

  /** Events in the life of the two files; `Mutate` is one save by any process. */
  datatype DiskEvent = Mutate(state: LedgerState, fault: Fault) | CorruptMain

  function AfterDiskEvents(disk: Disk, events: seq<DiskEvent>): Disk {
    if events == [] then disk
    else
      var before := AfterDiskEvents(disk, events[..|events| - 1]);
      match events[|events| - 1]
      case Mutate(state, fault) => Persist(before, state, fault).0
      case CorruptMain => LoseMain(before)
  }

  /**
   * What a reader should expect of the files, without looking at them: the
   * states saved so far, and whether the backup is one save behind the main file.
   */
  datatype History = History(saved: seq<LedgerState>, lag: bool) {
    predicate Valid() {
      |saved| >= if lag then 2 else 1
    }

    function Top(): LedgerState
      requires Valid()
    {
      saved[|saved| - 1]
    }

    /** The state that survives the loss of the main file. */
    function Fallback(): LedgerState
      requires Valid()
    {
      if lag then saved[|saved| - 2] else Top()
    }
  }

  /** A completed save pushes, a save cut short pushes nothing, losing the main file pops at most the top. */
  function Remember(h: History, event: DiskEvent): (h': History)
    requires h.Valid()
    ensures h'.Valid()
  {
    match event
    case Mutate(state, NoFault) => History(h.saved + [state], true)
    case Mutate(_, FailsBeforeBackup) => h
    case Mutate(_, FailsBeforeMain) => History(h.saved, false)
    case CorruptMain => if h.lag then History(h.saved[..|h.saved| - 1], false) else h
  }

  function HistoryAfter(start: History, events: seq<DiskEvent>): (h: History)
    requires start.Valid()
    ensures h.Valid()
  {
    if events == [] then start else Remember(HistoryAfter(start, events[..|events| - 1]), events[|events| - 1])
  }

  function InitialHistory(disk: Disk): (h: History)
    ensures h.Valid()
  {
    History([ReadState(disk.backup).GetOr(EMPTY), Reopen(disk)], disk.main.Readable?)
  }

  /**
   * Over any run of saves, saves cut short and losses of the main file,
   * reopening gives the top of the history: a loss costs at most the last
   * completed save, also when more saves followed an earlier recovery.
   */
  lemma {:induction false} ReopenFollowsHistory(disk: Disk, events: seq<DiskEvent>)
    ensures var now, h := AfterDiskEvents(disk, events), HistoryAfter(InitialHistory(disk), events);
      && Reopen(now) == h.Top()
      && Reopen(LoseMain(now)) == h.Fallback()
      && (h.lag ==> now.main.Readable?)
  {
    if events != [] {
      ReopenFollowsHistory(disk, events[..|events| - 1]);
    }
  }

  // ------------------------------------------------------------- records

  /** A ledger object together with the files it saves to. */
  datatype Store = Store(state: LedgerState, disk: Disk)
  datatype Reply<+T> = Reply(store: Store, result: Result<T, LedgerError>)

  /** Memory changes first, then the save; a failed save leaves memory ahead of the files. */
  function Save(store: Store, next: LedgerState, value: Publication, fault: Fault): Reply<Publication> {
    var (disk, completed) := Persist(store.disk, next, fault);
    Reply(Store(next, disk), if completed then Ok(value) else Err(PersistFailed))
  }

  function WithPublication(state: LedgerState, id: string, record: Publication): LedgerState {
    state.(publications := state.publications[id := record])
  }

  function NewRecord(input: NewPublication, now: int): Publication {
    Publication(input.publicationId, input.requestFingerprint, input.account, Prechecked, Pending,
                input.media, input.caption, input.postSettings, None, now, now,
                None, None, None, None, None, None, None, None, None, None)
  }

  /** The record and whether it was created. */
  function Begin(store: Store, input: NewPublication, now: int, fault: Fault): Reply<(Publication, bool)> {
    if input.publicationId in store.state.publications then
      var existing := store.state.publications[input.publicationId];
      Reply(store, if existing.requestFingerprint != input.requestFingerprint
                   then Err(PublicationIdConflict) else Ok((existing, false)))
    else
      var record := NewRecord(input, now);
      var saved := Save(store, WithPublication(store.state, input.publicationId, record), record, fault);
      Reply(saved.store, match saved.result case Ok(r) => Ok((r, true)) case Err(e) => Err(e))
  }

  /** The patched fields alone. */
  function AssignPatch(record: Publication, patch: AdvancePatch): Publication {
    record.(outcome := patch.outcome.Apply(record.outcome),
            committedAt := if patch.committedAt.Set? then Some(patch.committedAt.value) else record.committedAt,
            submittedAt := if patch.submittedAt.Set? then Some(patch.submittedAt.value) else record.submittedAt,
            publishedAt := if patch.publishedAt.Set? then Some(patch.publishedAt.value) else record.publishedAt,
            postUrl := patch.postUrl.Apply(record.postUrl),
            canonicalUrl := patch.canonicalUrl.Apply(record.canonicalUrl),
            shareUrl := patch.shareUrl.Apply(record.shareUrl),
            postId := patch.postId.Apply(record.postId),
            errorCode := patch.errorCode.Apply(record.errorCode))
  }

  function AdvanceRecord(record: Publication, phase: Phase, patch: AdvancePatch, now: int): Publication {
    var patched := AssignPatch(record, patch);
    patched.(phase := phase,
             updatedAt := now,
             committedAt := if Crosses(record, phase, Committing) then Some(patch.committedAt.Apply(now))
               else patched.committedAt,
             submittedAt := if Crosses(record, phase, Submitted) then Some(patch.submittedAt.Apply(now))
               else patched.submittedAt)
  }

  predicate Reached(record: Publication, phase: Phase) {
    PhaseOrder(phase) <= PhaseOrder(record.phase)
  }

  /** Whether moving `record` to `phase` is the first time it reaches `threshold`. */
  predicate Crosses(record: Publication, phase: Phase, threshold: Phase) {
    !Reached(record, threshold) && PhaseOrder(threshold) <= PhaseOrder(phase)
  }

  function AdvanceState(state: LedgerState, id: string, record: Publication, phase: Phase, patch: AdvancePatch,
                        now: int): LedgerState
  {
    var next := WithPublication(state, id, AdvanceRecord(record, phase, patch, now));
    if Crosses(record, phase, Committing) then
      next.(materialUses := next.materialUses[record.media.fingerprint := now],
            captionUses := next.captionUses[record.caption.fingerprint := now])
    else next
  }

  function Advance(store: Store, id: string, phase: Phase, patch: AdvancePatch, now: int,
                   fault: Fault): Reply<Publication>
  {
    if id !in store.state.publications then Reply(store, Err(PublicationNotFound))
    else
      var record := store.state.publications[id];
      if PhaseOrder(phase) < PhaseOrder(record.phase) then Reply(store, Err(PhaseRegression))
      else Save(store, AdvanceState(store.state, id, record, phase, patch, now),
                AdvanceRecord(record, phase, patch, now), fault)
  }

  function OutcomeRecord(record: Publication, outcome: Outcome, errorCode: Option<string>, now: int): Publication {
    record.(outcome := outcome, errorCode := errorCode, updatedAt := now)
  }

  function SetOutcome(store: Store, id: string, outcome: Outcome, errorCode: Option<string>, now: int,
                      fault: Fault): Reply<Publication>
  {
    if id !in store.state.publications then Reply(store, Err(PublicationNotFound))
    else
      var record := OutcomeRecord(store.state.publications[id], outcome, errorCode, now);
      Save(store, WithPublication(store.state, id, record), record, fault)
  }

  function CheckpointRecord(record: Publication, patch: CheckpointPatch, now: int): Publication {
    record.(baselinePostIds := patch.baselinePostIds.Apply(record.baselinePostIds),
            baselineTileCount := patch.baselineTileCount.Apply(record.baselineTileCount),
            postId := patch.postId.Apply(record.postId),
            postUrl := patch.postUrl.Apply(record.postUrl),
            canonicalUrl := patch.canonicalUrl.Apply(record.canonicalUrl),
            shareUrl := patch.shareUrl.Apply(record.shareUrl),
            evidence := patch.evidence.Apply(record.evidence),
            updatedAt := now)
  }

  function Checkpoint(store: Store, id: string, patch: CheckpointPatch, now: int, fault: Fault): Reply<Publication> {
    if id !in store.state.publications then Reply(store, Err(PublicationNotFound))
    else
      var record := CheckpointRecord(store.state.publications[id], patch, now);
      Save(store, WithPublication(store.state, id, record), record, fault)
  }

  function Max(a: int, b: int): int {
    if a < b then b else a
  }

  function MergeUses(uses: map<Fingerprint, int>, imported: map<Fingerprint, int>): map<Fingerprint, int> {
    map f | f in uses.Keys + imported.Keys ::
      if f !in imported then uses[f]
      else Max(if f in uses then uses[f] else 0, imported[f])
  }

  /** Whether the import saved anything, and where that left the store. */
  function ImportLegacy(store: Store, materialUses: map<Fingerprint, int>, captionUses: map<Fingerprint, int>, now: int,
                        fault: Fault): Reply<()>
  {
    if store.state.legacyImport.Some? then Reply(store, Ok(()))
    else
      var next := store.state.(materialUses := MergeUses(store.state.materialUses, materialUses),
                               captionUses := MergeUses(store.state.captionUses, captionUses),
                               legacyImport := Some(now));
      var (disk, completed) := Persist(store.disk, next, fault);
      Reply(Store(next, disk), if completed then Ok(()) else Err(PersistFailed))
  }

  // ---------------------------------------------------------- the object

  /** The two ledger files. */
  class LedgerFiles {
    var main: FileContent
    var backup: FileContent

    constructor (disk: Disk)
      ensures Content() == disk
    {
      main, backup := disk.main, disk.backup;
    }

    function Content(): Disk
      reads this
    {
      Disk(main, backup)
    }
  }

  /** The order in which the fields of a record are assigned does not matter. */
  lemma PatchIsAdvance(record: Publication, phase: Phase, patch: AdvancePatch, now: int,
                       patched: Publication)
    requires var merged := AssignPatch(record.(phase := phase, updatedAt := now), patch);
             var committed := if Crosses(record, phase, Committing)
               then merged.(committedAt := Some(patch.committedAt.Apply(now))) else merged;
             patched == if Crosses(record, phase, Submitted)
               then committed.(submittedAt := Some(patch.submittedAt.Apply(now))) else committed
    ensures patched == AdvanceRecord(record, phase, patch, now)
  {}

  /** Nor does it matter whether the uses or the record are stored first. */
  lemma UsesCommute(state: LedgerState, id: string, next: Publication, record: Publication, now: int)
    ensures var used := state.(materialUses := state.materialUses[record.media.fingerprint := now],
                               captionUses := state.captionUses[record.caption.fingerprint := now]);
            var stored := WithPublication(state, id, next);
            WithPublication(used, id, next)
            == stored.(materialUses := stored.materialUses[record.media.fingerprint := now],
                       captionUses := stored.captionUses[record.caption.fingerprint := now])
  {}

  class Ledger {
    var state: LedgerState
    const files: LedgerFiles

    function Value(): Store
      reads this, files
    {
      Store(state, files.Content())
    }

    constructor (files: LedgerFiles)
      ensures this.files == files && Value() == Store(Reopen(files.Content()), files.Content())
    {
      this.files := files;
      var fromMain := ReadState(files.main);
      var fromBackup := ReadState(files.backup);
      state := if fromMain.Some? then fromMain.value else fromBackup.GetOr(EMPTY);
    }

    /** Keeps the previous readable file as the backup, then replaces the main file. */
    method PersistState(fault: Fault) returns (completed: bool)
      modifies files
      ensures (files.Content(), completed) == Persist(old(files.Content()), state, fault)
    {
      if fault == FailsBeforeBackup {
        return false;
      }
      if files.main.Readable? {
        files.backup := files.main;
      }
      if fault == FailsBeforeMain {
        return false;
      }
      files.main := Readable(state);
      return true;
    }

    method BeginPublication(input: NewPublication, now: int, fault: Fault)
      returns (result: Result<(Publication, bool), LedgerError>)
      modifies this`state, files
      ensures Reply(Value(), result) == Begin(old(Value()), input, now, fault)
    {
      if input.publicationId in state.publications {
        var existing := state.publications[input.publicationId];
        if existing.requestFingerprint != input.requestFingerprint {
          return Err(PublicationIdConflict);
        }
        return Ok((existing, false));
      }
      var record := NewRecord(input, now);
      state := WithPublication(state, input.publicationId, record);
      var completed := PersistState(fault);
      result := if completed then Ok((record, true)) else Err(PersistFailed);
    }

    method AdvancePhase(id: string, phase: Phase, patch: AdvancePatch, now: int, fault: Fault)
      returns (result: Result<Publication, LedgerError>)
      modifies this`state, files
      ensures Reply(Value(), result) == Advance(old(Value()), id, phase, patch, now, fault)
    {
      hide Persist, WithPublication, AdvanceRecord, PhaseOrder;
      if id !in state.publications {
        return Err(PublicationNotFound);
      }
      var record := state.publications[id];
      if PhaseOrder(phase) < PhaseOrder(record.phase) {
        return Err(PhaseRegression);
      }
      var firstCommit := Crosses(record, phase, Committing);
      var patched := PatchRecord(record, phase, patch, now);
      UsesCommute(state, id, patched, record, now);
      if firstCommit {
        state := state.(materialUses := state.materialUses[record.media.fingerprint := now],
                        captionUses := state.captionUses[record.caption.fingerprint := now]);
      }
      state := WithPublication(state, id, patched);
      var completed := PersistState(fault);
      result := if completed then Ok(patched) else Err(PersistFailed);
    }

    method PatchRecord(original: Publication, phase: Phase, patch: AdvancePatch, now: int) returns (record: Publication)
      ensures record == AdvanceRecord(original, phase, patch, now)
    {
      var firstCommit := PhaseOrder(original.phase) < PhaseOrder(Committing) <= PhaseOrder(phase);
      var firstSubmission := PhaseOrder(original.phase) < PhaseOrder(Submitted) <= PhaseOrder(phase);
      record := AssignPatch(original.(phase := phase, updatedAt := now), patch);
      if firstCommit {
        record := record.(committedAt := Some(patch.committedAt.Apply(now)));
      }
      if firstSubmission {
        record := record.(submittedAt := Some(patch.submittedAt.Apply(now)));
      }
      PatchIsAdvance(original, phase, patch, now, record);
    }

    method RecordOutcome(id: string, outcome: Outcome, errorCode: Option<string>, now: int, fault: Fault)
      returns (result: Result<Publication, LedgerError>)
      modifies this`state, files
      ensures Reply(Value(), result) == SetOutcome(old(Value()), id, outcome, errorCode, now, fault)
    {
      if id !in state.publications {
        return Err(PublicationNotFound);
      }
      var record := state.publications[id].(outcome := outcome, errorCode := errorCode, updatedAt := now);
      state := WithPublication(state, id, record);
      var completed := PersistState(fault);
      result := if completed then Ok(record) else Err(PersistFailed);
    }

    method SaveCheckpoint(id: string, patch: CheckpointPatch, now: int, fault: Fault)
      returns (result: Result<Publication, LedgerError>)
      modifies this`state, files
      ensures Reply(Value(), result) == Checkpoint(old(Value()), id, patch, now, fault)
    {
      if id !in state.publications {
        return Err(PublicationNotFound);
      }
      var record := CheckpointRecord(state.publications[id], patch, now);
      state := WithPublication(state, id, record);
      var completed := PersistState(fault);
      result := if completed then Ok(record) else Err(PersistFailed);
    }
  }
}
