/**
 * Whole runs of the publication ledger. Every prepared task has its own ledger
 * object, and any of them may save at any time: the objects share two files and
 * do not know of each other (mobile/src/tiktok-policy.ts:959-1348).
 */
module LedgerFleet {
  import opened Common
  import opened TikTokLedger
  import opened TikTokPolicy

  datatype Fleet = Fleet(disk: Disk, objects: map<nat, LedgerState>)

  /** One operation of a live ledger object. */
  datatype Operation =
    | CheckpointStored(id: string, raw: RawCheckpoint, fault: Fault)
    | CommitMarked(id: string, fault: Fault)
    | SubmissionMarked(id: string, fault: Fault)
    | ResultStored(id: string, result: ScriptResult, faults: Faults)

  /** An object that is opened is kept under a number, or dropped at once. */
  datatype Event =
    | Opened(keep: Option<nat>, request: Request, midnight: int, fault: Fault)
    | Operated(owner: nat, operation: Operation)
    | LegacyImported(materialUses: map<Fingerprint, int>, captionUses: map<Fingerprint, int>, fault: Fault)
    | Restarted

  datatype Timed = Timed(event: Event, at: int)

  function Operate(store: Store, operation: Operation, at: int): Store {
    match operation
    case CheckpointStored(id, raw, fault) => ApplyCheckpoint(store, id, raw, at, fault).store
    case CommitMarked(id, fault) => MarkPhase(store, id, Committing, at, fault).store
    case SubmissionMarked(id, fault) => MarkPhase(store, id, Submitted, at, fault).store
    case ResultStored(id, result, faults) => ApplyScriptResult(store, id, result, at, faults).store
  }

  function Freshly(disk: Disk): Store {
    Store(Reopen(disk), disk)
  }

  function After(f: Fleet, e: Timed): Fleet {
    match e.event
    case Opened(keep, request, midnight, fault) =>
      var store := Prepare(f.disk, request, e.at, midnight, fault).store;
      Fleet(store.disk, if keep.Some? then f.objects[keep.value := store.state] else f.objects)
    case Operated(owner, operation) =>
      if owner !in f.objects then f
      else
        var store := Operate(Store(f.objects[owner], f.disk), operation, e.at);
        Fleet(store.disk, f.objects[owner := store.state])
    case LegacyImported(material, captions, fault) =>
      f.(disk := ImportLegacy(Freshly(f.disk), material, captions, e.at, fault).store.disk)
    case Restarted => f.(objects := map[])
  }

  function AfterAll(f: Fleet, events: seq<Timed>): Fleet {
    if events == [] then f else After(AfterAll(f, events[..|events| - 1]), events[|events| - 1])
  }

  lemma {:induction false} OperateFollows(store: Store, operation: Operation, at: int)
    ensures Follows(store, Operate(store, operation, at), at)
  {
    hide Follows, ApplyCheckpoint, MarkPhase, ApplyScriptResult;
    match operation
    case CheckpointStored(id, raw, fault) => ApplyCheckpointFollows(store, id, raw, at, fault);
    case CommitMarked(id, fault) => MarkPhaseFollows(store, id, Committing, at, fault);
    case SubmissionMarked(id, fault) => MarkPhaseFollows(store, id, Submitted, at, fault);
    case ResultStored(id, result, faults) => ApplyScriptResultFollows(store, id, result, at, faults);
  }

  /** The memory an event starts from, and the store it leaves. */
  function Start(f: Fleet, e: Timed): Store {
    if e.event.Operated? && e.event.owner in f.objects then Store(f.objects[e.event.owner], f.disk) else Freshly(f.disk)
  }

  function End(f: Fleet, e: Timed): Store {
    match e.event
    case Opened(_, request, midnight, fault) => Prepare(f.disk, request, e.at, midnight, fault).store
    case Operated(owner, operation) =>
      if owner in f.objects then Operate(Start(f, e), operation, e.at) else Start(f, e)
    case LegacyImported(material, captions, fault) => ImportLegacy(Start(f, e), material, captions, e.at, fault).store
    case Restarted => Start(f, e)
  }

  /** One event is one followed operation; the other objects stay as they were. */
  lemma {:induction false} EventFollows(f: Fleet, e: Timed)
    ensures Follows(Start(f, e), End(f, e), e.at)
    ensures After(f, e).disk == End(f, e).disk
    ensures forall o :: o in After(f, e).objects ==>
      After(f, e).objects[o] == End(f, e).state || (o in f.objects && After(f, e).objects[o] == f.objects[o])
  {
    hide Follows, Prepare, Operate, ImportLegacy, Reopen;
    FollowsReflexive(Start(f, e), e.at);
    match e.event
    case Opened(_, request, midnight, fault) => PrepareFollows(f.disk, request, e.at, midnight, fault);
    case Operated(owner, operation) => OperateFollows(Start(f, e), operation, e.at);
    case LegacyImported(material, captions, fault) => ImportLegacyFollows(Start(f, e), material, captions, e.at, fault);
    case Restarted =>
  }

  // ---------------------------------------------------- what every run keeps

  /** Every record of the files and of every live object keeps its invariant. */
  ghost predicate WellFormed(f: Fleet) {
    LedgerInv(Reopen(f.disk)) && forall o :: o in f.objects ==> LedgerInv(f.objects[o])
  }

  lemma {:induction false} EventKeepsRecords(f: Fleet, e: Timed)
    requires WellFormed(f)
    ensures WellFormed(After(f, e))
  {
    EventFollows(f, e);
    hide LedgerInv, Evolves, Clocked, After, End, Reopen;
  }

  /**
   * Over every run, stale objects included: commit time is set exactly from
   * COMMITTING on, no committed record is a FAILURE, SUCCESS means LINK_CONFIRMED,
   * and evidence fits its settings - in the files and in every object.
   */
  lemma {:induction false} RunKeepsRecords(f: Fleet, events: seq<Timed>)
    requires WellFormed(f)
    ensures WellFormed(AfterAll(f, events))
  {
    hide WellFormed, After;
    if events != [] {
      RunKeepsRecords(f, events[..|events| - 1]);
      EventKeepsRecords(AfterAll(f, events[..|events| - 1]), events[|events| - 1]);
    }
  }

  predicate Monotone(events: seq<Timed>, start: int) {
    forall i :: 0 <= i < |events| ==> start <= events[i].at && (i > 0 ==> events[i - 1].at <= events[i].at)
  }

  function LastTime(events: seq<Timed>, start: int): int {
    if events == [] then start else events[|events| - 1].at
  }

  /** The reuse tables of the files and of every object are ahead of all their commits. */
  ghost predicate AllClocked(f: Fleet, clock: int) {
    Clocked(Reopen(f.disk), clock) && forall o :: o in f.objects ==> Clocked(f.objects[o], clock)
  }

  lemma {:induction false} EventKeepsClock(f: Fleet, e: Timed, clock: int)
    requires AllClocked(f, clock) && clock <= e.at
    ensures AllClocked(After(f, e), e.at)
  {
    hide LedgerInv, Evolves, Clocked, After, End, Reopen;
    EventFollows(f, e);
    ClockedLater(Reopen(f.disk), clock, e.at);
    forall o | o in f.objects ensures Clocked(f.objects[o], e.at) {
      ClockedLater(f.objects[o], clock, e.at);
    }
  }

  /** While the clock does not run backwards this holds over every run, stale objects included. */
  lemma {:induction false} RunKeepsClock(f: Fleet, events: seq<Timed>, start: int)
    requires AllClocked(f, start) && Monotone(events, start)
    ensures AllClocked(AfterAll(f, events), LastTime(events, start))
  {
    hide AllClocked, After;
    if events != [] {
      var prefix := events[..|events| - 1];
      RunKeepsClock(f, prefix, start);
      EventKeepsClock(AfterAll(f, prefix), events[|events| - 1], LastTime(prefix, start));
    }
  }

  // --------------------------------------------------- what a stale save breaks

  /** No save of this operation completes. */
  predicate CutShort(operation: Operation) {
    match operation
    case CheckpointStored(_, _, fault) => fault != NoFault
    case CommitMarked(_, fault) => fault != NoFault
    case SubmissionMarked(_, fault) => fault != NoFault
    case ResultStored(_, _, faults) =>
      faults.evidence != NoFault && faults.baseline != NoFault
      && faults.final != NoFault
  }

  lemma {:induction false} CutPartsKeepFiles(store: Store, id: string, fault: Fault, now: int)
    requires fault != NoFault
    ensures forall raw :: Reopen(ApplyCheckpoint(store, id, raw, now, fault).store.disk) == Reopen(store.disk)
    ensures forall phase :: Reopen(MarkPhase(store, id, phase, now, fault).store.disk) == Reopen(store.disk)
    ensures forall phase, patch :: Reopen(Advance(store, id, phase, patch, now, fault).store.disk) == Reopen(store.disk)
    ensures forall outcome, code ::
            Reopen(SetOutcome(store, id, outcome, code, now, fault).store.disk)
            == Reopen(store.disk)
  {
    hide ValidateEvidence, EvidenceError, CheckpointFields, AdvanceState;
  }

  lemma {:induction false} CutSettleKeepsFiles(store: Store, id: string, result: ScriptResult, now: int, faults: Faults)
    requires result.ScriptResult? && faults.baseline != NoFault && faults.final != NoFault
    ensures Reopen(StoreBaseline(store, id, result, now, faults).store.disk) == Reopen(store.disk)
  {
    hide ApplyCheckpoint, SetOutcome, Advance, EvidenceError, Reopen;
    CutPartsKeepFiles(store, id, faults.baseline, now);
    CutPartsKeepFiles(store, id, faults.final, now);
    var raw := NO_CHECKPOINT.(baselinePostIds := result.baselinePostIds, baselineTileCount := result.baselineTileCount);
    CutPartsKeepFiles(ApplyCheckpoint(store, id, raw, now, faults.baseline).store, id, faults.final, now);
  }

  lemma {:induction false} CutResultKeepsFiles(store: Store, id: string, result: ScriptResult, now: int, faults: Faults)
    requires faults.evidence != NoFault && faults.baseline != NoFault && faults.final != NoFault
    ensures Reopen(ApplyScriptResult(store, id, result, now, faults).store.disk) == Reopen(store.disk)
  {
    hide ApplyCheckpoint, SetOutcome, StoreBaseline, Reopen;
    CutPartsKeepFiles(store, id, faults.final, now);
    if result.ScriptResult? {
      CutSettleKeepsFiles(store, id, result, now, faults);
      var stored := ApplyCheckpoint(store, id, NO_CHECKPOINT.(evidence := result.evidence), now, faults.evidence);
      CutPartsKeepFiles(store, id, faults.evidence, now);
      CutPartsKeepFiles(stored.store, id, faults.final, now);
      CutSettleKeepsFiles(stored.store, id, result, now, faults);
    }
  }

  lemma {:induction false} CutShortKeepsFiles(store: Store, operation: Operation, at: int)
    requires CutShort(operation)
    ensures Reopen(Operate(store, operation, at).disk) == Reopen(store.disk)
  {
    hide ApplyCheckpoint, MarkPhase, ApplyScriptResult, Reopen;
    match operation
    case CheckpointStored(id, raw, fault) => CutPartsKeepFiles(store, id, fault, at);
    case CommitMarked(id, fault) => CutPartsKeepFiles(store, id, fault, at);
    case SubmissionMarked(id, fault) => CutPartsKeepFiles(store, id, fault, at);
    case ResultStored(id, result, faults) => CutResultKeepsFiles(store, id, result, at, faults);
  }

  /** A report that only records an outcome: what the catches of the client merge. */
  predicate OnlyOutcome(store: Store, id: string, result: ScriptResult) {
    || result.NotARecord?
    || (id in store.state.publications && store.state.publications[id].postSettings.Some?
        && (result.publicationId != store.state.publications[id].publicationId || result.contractVersion != 2))
    || (!result.published && result.evidence.Absent? && result.baselinePostIds.None?)
  }

  /**
   * Exactly when such a report lets the files evolve: its save does not complete,
   * or the object that reports is not behind the files.
   */
  lemma {:induction false} ReportKeepsFilesIff(store: Store, id: string, result: ScriptResult, now: int, faults: Faults)
    requires OnlyOutcome(store, id, result)
    ensures Evolves(Reopen(store.disk), Reopen(ApplyScriptResult(store, id, result, now, faults).store.disk))
       <==> id !in store.state.publications || faults.final != NoFault || Evolves(Reopen(store.disk), store.state)
  {
    EvolvesReflexive(Reopen(store.disk));
    if id in store.state.publications {
      var after := ApplyScriptResult(store, id, result, now, faults).store;
      OutcomeIsAll(store, id, result, now, faults);
      PersistIsAtomic(store.disk, after.state, faults.final);
      hide ApplyScriptResult, Reopen;
      SameRecordsEvolve(Reopen(store.disk), store.state, after.state, id);
    }
  }

  lemma {:induction false} OutcomeIsAll(store: Store, id: string, result: ScriptResult, now: int, faults: Faults)
    requires OnlyOutcome(store, id, result) && id in store.state.publications
    ensures var after := ApplyScriptResult(store, id, result, now, faults).store;
      && after.disk == Persist(store.disk, after.state, faults.final).0
      && id in after.state.publications
      && after.state.publications == store.state.publications[id := after.state.publications[id]]
      && after.state.publications[id]
         == store.state.publications[id].(outcome := after.state.publications[id].outcome,
                                          errorCode := after.state.publications[id].errorCode, updatedAt := now)
  {
    hide Persist;
  }

  /** Outcome, error code and time of a record do not matter to evolution. */
  lemma {:induction false} SameRecordsEvolve(files: LedgerState, a: LedgerState, b: LedgerState, id: string)
    requires id in a.publications && id in b.publications && b.publications == a.publications[id := b.publications[id]]
    requires var (r, s) := (a.publications[id], b.publications[id]);
             s == r.(outcome := s.outcome, errorCode := s.errorCode, updatedAt := s.updatedAt)
    ensures Evolves(files, a) <==> Evolves(files, b)
  {
    assert forall r :: RecordEvolves(r, a.publications[id]) <==> RecordEvolves(r, b.publications[id]);
    hide RecordEvolves;
  }

  /** The check that no operation makes: its object is not behind the files, or nothing is saved. */
  ghost predicate SavesAhead(f: Fleet, e: Timed) {
    e.event.Operated? && e.event.owner in f.objects ==>
      CutShort(e.event.operation) || Evolves(Reopen(f.disk), f.objects[e.event.owner])
  }

  lemma {:induction false} EventKeepsFiles(f: Fleet, e: Timed)
    requires SavesAhead(f, e)
    ensures Evolves(Reopen(f.disk), Reopen(After(f, e).disk))
    ensures Evolves(Reopen(f.disk), Start(f, e).state) ==> Evolves(Reopen(After(f, e).disk), End(f, e).state)
  {
    EventFollows(f, e);
    EvolvesReflexive(Reopen(f.disk));
    hide LedgerInv, Clocked, RecordEvolves, After, End, Reopen, Operate;
    if e.event.Operated? && e.event.owner in f.objects && CutShort(e.event.operation) {
      CutShortKeepsFiles(Start(f, e), e.event.operation, e.at);
      assert End(f, e) == Operate(Start(f, e), e.event.operation, e.at) by { EndOfOperation(f, e); }
    }
    if Evolves(Reopen(f.disk), Start(f, e).state) {
      EvolvesTransitive(Reopen(f.disk), Start(f, e).state, End(f, e).state);
      if Reopen(End(f, e).disk) != Reopen(f.disk) {
        EvolvesTransitive(Reopen(f.disk), Start(f, e).state, Reopen(End(f, e).disk));
      }
    }
  }

  lemma EndOfOperation(f: Fleet, e: Timed)
    requires e.event.Operated? && e.event.owner in f.objects
    ensures End(f, e) == Operate(Start(f, e), e.event.operation, e.at)
  {
  }

  ghost predicate AllSaveAhead(f: Fleet, events: seq<Timed>) {
    forall i :: 0 <= i < |events| ==> SavesAhead(AfterAll(f, events[..i]), events[i])
  }

  /**
   * From any point of a run whose saves are made by objects not behind the files,
   * the files only evolve: phases never regress, and identity, evidence and
   * commit time are final.
   */
  lemma {:induction false} RunKeepsFiles(f: Fleet, events: seq<Timed>, i: nat)
    requires AllSaveAhead(f, events) && i <= |events|
    ensures Evolves(Reopen(AfterAll(f, events[..i]).disk), Reopen(AfterAll(f, events).disk))
    decreases |events|
  {
    hide Evolves, After, Reopen, SavesAhead;
    if i == |events| {
      assert events[..i] == events;
      EvolvesReflexive(Reopen(AfterAll(f, events).disk));
    } else {
      var prefix := events[..|events| - 1];
      assert forall k :: 0 <= k <= |prefix| ==> prefix[..k] == events[..k];
      RunKeepsFiles(f, prefix, i);
      EventKeepsFiles(AfterAll(f, prefix), events[|events| - 1]);
      EvolvesTransitive(Reopen(AfterAll(f, events[..i]).disk), Reopen(AfterAll(f, prefix).disk),
                        Reopen(AfterAll(f, events).disk));
    }
  }

  /** The object that was opened last, unless the process restarted since. */
  function Newest(events: seq<Timed>): Option<nat> {
    if events == [] then None
    else
      match events[|events| - 1].event
      case Opened(keep, _, _, _) => keep
      case Restarted => None
      case _ => Newest(events[..|events| - 1])
  }

  predicate NewestWrites(events: seq<Timed>) {
    forall i :: 0 <= i < |events| && events[i].event.Operated? ==> Newest(events[..i]) == Some(events[i].event.owner)
  }

  ghost predicate NewestIsAhead(f: Fleet, newest: Option<nat>) {
    newest.Some? ==> newest.value in f.objects && Evolves(Reopen(f.disk), f.objects[newest.value])
  }

  /** As long as only the newest object writes, it is never behind the files. */
  lemma {:induction false} NewestSavesAhead(f: Fleet, events: seq<Timed>)
    requires NewestWrites(events)
    ensures AllSaveAhead(f, events) && NewestIsAhead(AfterAll(f, events), Newest(events))
    decreases |events|
  {
    hide Evolves, After, SavesAhead, NewestIsAhead;
    if events == [] {
      assert NewestIsAhead(f, None) by { NoneIsAhead(f); }
    } else {
      var prefix, e := events[..|events| - 1], events[|events| - 1];
      var before := AfterAll(f, prefix);
      assert forall k :: 0 <= k <= |prefix| ==> prefix[..k] == events[..k];
      NewestSavesAhead(f, prefix);
      NewestStaysAhead(before, e, Newest(prefix));
    }
  }

  lemma NoneIsAhead(f: Fleet)
    ensures NewestIsAhead(f, None)
  {
  }

  lemma {:induction false} NewestStaysAhead(f: Fleet, e: Timed, newest: Option<nat>)
    requires NewestIsAhead(f, newest) && (e.event.Operated? ==> newest == Some(e.event.owner))
    ensures SavesAhead(f, e)
    ensures NewestIsAhead(After(f, e), if e.event.Opened? then e.event.keep else if e.event.Restarted? then None
                          else newest)
  {
    hide Evolves, Prepare, Operate, ImportLegacy;
    EvolvesReflexive(Reopen(f.disk));
    EventKeepsFiles(f, e);
    if e.event.LegacyImported? {
      ImportKeepsRecords(Freshly(f.disk), e.event.materialUses, e.event.captionUses, e.at, e.event.fault);
      if newest.Some? {
        SamePublicationsEvolve(Reopen(f.disk), Reopen(After(f, e).disk), f.objects[newest.value]);
      }
    }
  }

  lemma ImportKeepsRecords(store: Store, material: map<Fingerprint, int>,
                           captions: map<Fingerprint, int>, now: int, fault: Fault)
    requires store.state == Reopen(store.disk)
    ensures Reopen(ImportLegacy(store, material, captions, now, fault).store.disk).publications
            == store.state.publications
  {
  }

  lemma SamePublicationsEvolve(a: LedgerState, b: LedgerState, c: LedgerState)
    requires a.publications == b.publications
    ensures Evolves(a, c) <==> Evolves(b, c)
  {
  }

  // ------------------------------------------------------------ commit times

  /** The commits of one moment are among those of a later one, at the same times. */
  lemma {:induction false} CommitsStay(a: LedgerState, b: LedgerState, clock: int, start: int)
    requires Evolves(a, b) && Clocked(a, clock)
    ensures CommittedIdsSince(a.publications, start) <= CommittedIdsSince(b.publications, start)
    ensures |CommittedIdsSince(a.publications, start)| <= |CommittedIdsSince(b.publications, start)|
  {
    var xs, ys := CommittedIdsSince(a.publications, start), CommittedIdsSince(b.publications, start);
    forall id | id in xs ensures id in ys {
      assert a.publications[id].committedAt.Some?;
      assert b.publications[id].committedAt == a.publications[id].committedAt;
    }
    SubsetSize(xs, ys);
  }

  lemma {:induction false} SubsetSize<T>(xs: set<T>, ys: set<T>)
    requires xs <= ys
    ensures |xs| <= |ys|
    decreases |xs|
  {
    if xs != {} {
      var x :| x in xs;
      SubsetSize(xs - {x}, ys - {x});
    }
  }

  const NO_FILES := Fleet(Disk(Missing, Missing), map[])

  /** What one earlier commit of the files means for a NEW decision at `now`. */
  predicate SpacedFrom(commit: Publication, made: Publication, policy: PostingPolicy, now: int) {
    && commit.committedAt.Some? && commit.committedAt.value <= now
    && (commit.committedAt.value <= 0 || commit.committedAt.value + policy.minIntervalSeconds * 1000 <= now)
    && (commit.media.fingerprint == made.media.fingerprint ==>
          commit.committedAt.value + policy.materialReuseSeconds * 1000 <= now)
    && (commit.caption.fingerprint == made.caption.fingerprint ==>
          commit.committedAt.value + policy.captionReuseSeconds * 1000 <= now)
  }

  ghost predicate IsNew(disk: Disk, request: Request, now: int, midnight: int, fault: Fault) {
    var p := Prepare(disk, request, now, midnight, fault).result;
    p.Ok? && p.value.decision == New && p.value.publication.Some?
  }

  lemma {:induction false} NewIsSpacedFromFiles(disk: Disk, request: Request, now: int, midnight: int, fault: Fault,
                                                clock: int, id: string)
    requires Clocked(Reopen(disk), clock) && clock <= now && IsNew(disk, request, now, midnight, fault)
    requires id in Reopen(disk).publications && Reached(Reopen(disk).publications[id], Committing)
    ensures SpacedFrom(Reopen(disk).publications[id],
                       Prepare(disk, request, now, midnight, fault).result.value.publication.value, request.policy, now)
    ensures |CommittedIdsSince(Reopen(disk).publications, midnight)| < request.policy.maxPostsPerDay
  {
    NewDecisionIsSpaced(disk, request, now, midnight, fault, clock, id);
  }

  /**
   * With the clock running forwards and every save made by an object not behind
   * the files, a NEW decision keeps its distance from every commit the files ever
   * held, not only from those still recorded, and counts all of them for the day.
   */
  lemma {:induction false} RunSpacesNewDecisions(events: seq<Timed>, i: nat, request: Request, now: int, midnight: int,
                                                 fault: Fault, id: string)
    requires Monotone(events, 0) && LastTime(events, 0) <= now && AllSaveAhead(NO_FILES, events) && i <= |events|
    requires IsNew(AfterAll(NO_FILES, events).disk, request, now, midnight, fault)
    requires var earlier := Reopen(AfterAll(NO_FILES, events[..i]).disk);
             id in earlier.publications && Reached(earlier.publications[id], Committing)
    ensures var earlier := Reopen(AfterAll(NO_FILES, events[..i]).disk);
      var made :=
        Prepare(AfterAll(NO_FILES, events).disk, request, now, midnight, fault).result.value.publication.value;
      && SpacedFrom(earlier.publications[id], made, request.policy, now)
      && |CommittedIdsSince(earlier.publications, midnight)| < request.policy.maxPostsPerDay
  {
    hide Prepare, CommittedIdsSince, After, IsNew;
    var prefix := events[..i];
    assert AllClocked(NO_FILES, 0);
    RunKeepsClock(NO_FILES, events, 0);
    RunKeepsClock(NO_FILES, prefix, 0);
    RunKeepsFiles(NO_FILES, events, i);
    var a, b := Reopen(AfterAll(NO_FILES, prefix).disk), Reopen(AfterAll(NO_FILES, events).disk);
    CommitsStay(a, b, LastTime(prefix, 0), midnight);
    assert RecordEvolves(a.publications[id], b.publications[id]);
    NewIsSpacedFromFiles(AfterAll(NO_FILES, events).disk, request, now, midnight, fault, LastTime(events, 0), id);
  }
}
