/**
 * Messages cut into data-channel chunks with a 20-byte header, and their
 * reassembly under a timer race (mobile/rtc-sidecar/chunk.go). Every locked
 * section of the source is one atomic step here.
 */
module ChunkFraming {
  import opened Common
  import opened IpcRecords

  const MAGIC := 0x41364443
  const VERSION: byte := 1
  const HEADER := 20
  const CHUNK_PAYLOAD_MAX := 12 * 1024
  const LAST_ID := WORD - 1
  /** Five seconds, in nanoseconds. */
  const ASSEMBLY_TIMEOUT := 5_000_000_000

  datatype ChunkError =
    | EmptyMessage | PayloadLimit | MessageTooLong | IdsExhausted | AssemblerClosed
    | ChunkLength | Signature | UnknownFlags | MessageBounds | BeyondMessage
    | TimedOutOnPush | BadStart | OutOfOrder | MissingEnd | PrematureEnd

  // ------------------------------------------------------------- sending

  function Flags(start: bool, end: bool): byte {
    (if start then 1 else 0) + (if end then 2 else 0)
  }

  function Chunk(id: nat, total: nat, offset: nat, flags: byte, payload: Bytes): (c: Bytes)
    requires id < WORD && total < WORD && offset < WORD
    ensures |c| == HEADER + |payload|
  {
    Put32(MAGIC) + [VERSION, flags, 0, 0] + Put32(id) + Put32(total) + Put32(offset) + payload
  }

  function PieceEnd(content: Bytes, limit: nat, offset: nat): nat {
    if offset + limit > |content| then |content| else offset + limit
  }

  /** The chunks of a message from `offset` on. */
  function Cut(content: Bytes, limit: nat, id: nat, offset: nat): seq<Bytes>
    requires 1 <= limit && id < WORD && |content| < WORD && offset <= |content|
    decreases |content| - offset
  {
    if offset == |content| then []
    else
      var end := PieceEnd(content, limit, offset);
      [Chunk(id, |content|, offset, Flags(offset == 0, end == |content|), content[offset..end])]
        + Cut(content, limit, id, end)
  }

  datatype Sender = Sender(next: nat, exhausted: bool)

  predicate Splittable(sender: Sender, content: Bytes, limit: int) {
    1 <= |content| < WORD && 1 <= limit <= CHUNK_PAYLOAD_MAX && !sender.exhausted && sender.next < WORD
  }

  function AfterSplit(sender: Sender): Sender {
    if sender.next == LAST_ID then sender.(exhausted := true) else sender.(next := sender.next + 1)
  }

  /** The chunks of a message, and the sender behind it. */
  function SplitOf(sender: Sender, content: Bytes, limit: int): (Option<seq<Bytes>>, Sender) {
    if Splittable(sender, content, limit) then (Some(Cut(content, limit, sender.next, 0)), AfterSplit(sender))
      else (None, sender)
  }

  lemma SplitOutcome(sender: Sender, content: Bytes, limit: int)
    ensures !Splittable(sender, content, limit) ==> SplitOf(sender, content, limit) == (None, sender)
    ensures Splittable(sender, content, limit) ==>
      SplitOf(sender, content, limit) == (Some(Cut(content, limit, sender.next, 0)), AfterSplit(sender))
  {}

  class Chunker {
    var nextMessageID: nat
    var exhausted: bool

    ghost predicate Valid()
      reads this
    {
      nextMessageID < WORD
    }

    ghost function State(): Sender
      reads this
    {
      Sender(nextMessageID, exhausted)
    }

    constructor ()
      ensures Valid() && State() == Sender(0, false)
    {
      nextMessageID, exhausted := 0, false;
    }

    method Split(content: Bytes, payloadMaxBytes: int) returns (result: Result<seq<Bytes>, ChunkError>)
      requires Valid()
      modifies this
      ensures Valid()
      ensures State() == SplitOf(old(State()), content, payloadMaxBytes).1
      ensures result.Ok? <==> SplitOf(old(State()), content, payloadMaxBytes).0.Some?
      ensures result.Ok? ==> result.value == SplitOf(old(State()), content, payloadMaxBytes).0.value
    {
      hide Chunk, Flags, SplitOf;
      SplitOutcome(State(), content, payloadMaxBytes);
      if |content| == 0 { return Err(EmptyMessage); }
      if payloadMaxBytes < 1 || payloadMaxBytes > CHUNK_PAYLOAD_MAX { return Err(PayloadLimit); }
      if |content| > WORD - 1 { return Err(MessageTooLong); }
      if exhausted { return Err(IdsExhausted); }
      var messageID := nextMessageID;
      if messageID == LAST_ID {
        exhausted := true;
      } else {
        nextMessageID := nextMessageID + 1;
      }
      var chunks: seq<Bytes> := [];
      var offset := 0;
      while offset < |content|
        invariant 0 <= offset <= |content|
        invariant Cut(content, payloadMaxBytes, messageID, 0)
                  == chunks + Cut(content, payloadMaxBytes, messageID, offset)
      {
        var end := offset + payloadMaxBytes;
        if end > |content| {
          end := |content|;
        }
        var chunk := Chunk(messageID, |content|, offset, Flags(offset == 0, end == |content|), content[offset..end]);
        assert chunks + ([chunk] + Cut(content, payloadMaxBytes, messageID, end))
            == (chunks + [chunk]) + Cut(content, payloadMaxBytes, messageID, end);
        chunks := chunks + [chunk];
        offset := end;
      }
      assert chunks + [] == chunks;
      return Ok(chunks);
    }
  }

  // ----------------------------------------------------------- receiving

  /** A message under assembly; `absorbed` is the part of its buffer that is filled. */
  datatype Partial = Partial(id: nat, total: nat, startedAt: int, absorbed: Bytes)

  /** `timer` holds the generation that the running timer was started with. */
  datatype Assembler = Assembler(
    limit: nat, active: Option<Partial>, last: Option<nat>, timer: Option<nat>, generation: nat, closed: bool)

  function NewAssembler(limit: nat): Assembler {
    Assembler(limit, None, None, None, 0, false)
  }

  datatype Outcome = Nothing | Message(content: Bytes) | Refused(error: ChunkError)

  /** What happens to assemblies, each named by the generation of its timer. */
  datatype Happening =
    | Began(generation: nat, id: nat)
    | Absorbed(generation: nat, offset: nat, payload: Bytes)
    | Completed(generation: nat, id: nat, content: Bytes)
    | Expired(generation: nat)
    | TimedOut(generation: nat)
    | Dropped(generation: nat)

  datatype Pushed = Pushed(assembler: Assembler, outcome: Outcome, events: seq<Happening>)

  function CancelTimer(a: Assembler): Assembler {
    a.(timer := None, generation := a.generation + 1)
  }

  function StartTimer(a: Assembler): Assembler {
    var cancelled := CancelTimer(a);
    cancelled.(generation := cancelled.generation + 1, timer := Some(cancelled.generation + 1))
  }

  function ChunkFlags(chunk: Bytes): byte requires |chunk| >= HEADER { chunk[5] }
  function ChunkId(chunk: Bytes): nat requires |chunk| >= HEADER { Get32(chunk[8..12]) }
  function ChunkTotal(chunk: Bytes): nat requires |chunk| >= HEADER { Get32(chunk[12..16]) }
  function ChunkOffset(chunk: Bytes): nat requires |chunk| >= HEADER { Get32(chunk[16..20]) }
  predicate IsStart(flags: byte) { flags % 2 == 1 }
  predicate IsEnd(flags: byte) { flags / 2 % 2 == 1 }

  /** The checks that look at the chunk alone, in the order the source makes them. */
  function Malformed(chunk: Bytes, limit: nat): Option<ChunkError> {
    if |chunk| < HEADER || |chunk| > HEADER + CHUNK_PAYLOAD_MAX then Some(ChunkLength)
    else if Get32(chunk[0..4]) != MAGIC || chunk[4] != VERSION then Some(Signature)
    else if chunk[5] >= 4 || chunk[6] != 0 || chunk[7] != 0 then Some(UnknownFlags)
    else if ChunkTotal(chunk) == 0 || ChunkTotal(chunk) > limit || |chunk| == HEADER then Some(MessageBounds)
    else if ChunkOffset(chunk) + (|chunk| - HEADER) > ChunkTotal(chunk) then Some(BeyondMessage)
    else None
  }

  function Absorb(a: Assembler, chunk: Bytes, before: seq<Happening>): Pushed
    requires |chunk| >= HEADER
  {
    var payload := chunk[HEADER..];
    if a.active.None? || a.active.value.id != ChunkId(chunk) || a.active.value.total != ChunkTotal(chunk)
       || |a.active.value.absorbed| != ChunkOffset(chunk)
    then Pushed(a, Refused(OutOfOrder), before)
    else
      var grown := a.active.value.(absorbed := a.active.value.absorbed + payload);
      var kept := a.(active := Some(grown));
      var events := before + [Absorbed(a.generation, ChunkOffset(chunk), payload)];
      if !IsEnd(ChunkFlags(chunk)) then
        Pushed(kept, if |grown.absorbed| == grown.total then Refused(MissingEnd) else Nothing, events)
      else if |grown.absorbed| != grown.total then Pushed(kept, Refused(PrematureEnd), events)
      else
        Pushed(CancelTimer(a.(last := Some(grown.id), active := None)), Message(grown.absorbed),
               events + [Completed(a.generation, grown.id, grown.absorbed)])
  }

  function Push(a: Assembler, chunk: Bytes, now: int): Pushed {
    if a.closed then Pushed(a, Refused(AssemblerClosed), [])
    else if Malformed(chunk, a.limit).Some? then Pushed(a, Refused(Malformed(chunk, a.limit).value), [])
    else if a.active.Some? && now - a.active.value.startedAt >= ASSEMBLY_TIMEOUT then
      Pushed(CancelTimer(a.(active := None)), Refused(TimedOutOnPush), [Expired(a.generation)])
    else if IsStart(ChunkFlags(chunk)) then
      if a.last == Some(LAST_ID) then Pushed(a, Refused(IdsExhausted), [])
      else if ChunkOffset(chunk) != 0 || a.active.Some?
        || ChunkId(chunk) != (if a.last.Some? then a.last.value + 1 else 0)
      then Pushed(a, Refused(BadStart), [])
      else
        var begun := StartTimer(a.(active := Some(Partial(ChunkId(chunk), ChunkTotal(chunk), now, []))));
        Absorb(begun, chunk, [Began(begun.generation, ChunkId(chunk))])
    else Absorb(a, chunk, [])
  }

  /** The callback of the timer that was started with `generation`; it may come late, after the timer was stopped. */
  function Fire(a: Assembler, generation: nat): Pushed {
    if a.closed || a.active.None? || generation != a.generation then Pushed(a, Nothing, [])
    else Pushed(a.(active := None, timer := None, generation := a.generation + 1), Nothing, [TimedOut(generation)])
  }

  function Shut(a: Assembler): Pushed {
    if a.closed then Pushed(a, Nothing, [])
    else Pushed(CancelTimer(a.(closed := true, active := None)), Nothing,
                if a.active.Some? then [Dropped(a.generation)] else [])
  }

  // ------------------------------------------------------------- any run

  datatype Call = PushCall(chunk: Bytes, now: int) | FireCall(generation: nat) | CloseCall

  function Do(a: Assembler, call: Call): Pushed {
    match call
    case PushCall(chunk, now) => Push(a, chunk, now)
    case FireCall(generation) => Fire(a, generation)
    case CloseCall => Shut(a)
  }

  datatype Run = Run(assembler: Assembler, log: seq<Happening>)

  function RunOf(limit: nat, calls: seq<Call>): Run {
    if calls == [] then Run(NewAssembler(limit), [])
    else
      var before := RunOf(limit, calls[..|calls| - 1]);
      var pushed := Do(before.assembler, calls[|calls| - 1]);
      Run(pushed.assembler, before.log + pushed.events)
  }

  /** The payloads one assembly absorbed, in the order they came. */
  function Payloads(log: seq<Happening>, generation: nat): Bytes {
    if log == [] then []
    else
      var earlier := Payloads(log[..|log| - 1], generation);
      var last := log[|log| - 1];
      if last.Absorbed? && last.generation == generation then earlier + last.payload else earlier
  }

  function CompletedCount(log: seq<Happening>): nat {
    if log == [] then 0 else CompletedCount(log[..|log| - 1]) + (if log[|log| - 1].Completed? then 1 else 0)
  }

  predicate Terminal(e: Happening) {
    e.Completed? || e.Expired? || e.TimedOut? || e.Dropped?
  }

  /** One event after the events before it: the story of every assembly stays well formed. */
  ghost predicate Follows(log: seq<Happening>, e: Happening) {
    && (forall x :: x in log && Terminal(x) ==> x.generation != e.generation)
    && (if e.Began? then Before(log, e.generation) else HasBegun(log, e.generation))
    && (e.Absorbed? ==> e.offset == |Payloads(log, e.generation)|)
    && (e.Completed? ==> e.content == Payloads(log, e.generation) && e.id == CompletedCount(log))
  }

  predicate HasBegun(log: seq<Happening>, generation: nat) {
    exists x :: x in log && x.Began? && x.generation == generation
  }

  /** Every logged assembly is older. */
  ghost predicate Before(log: seq<Happening>, generation: nat) {
    forall x :: x in log ==> x.generation < generation
  }

  ghost predicate Coherent(log: seq<Happening>) {
    forall i :: 0 <= i < |log| ==> Follows(log[..i], log[i])
  }

  ghost predicate Inv(r: Run) {
    var a := r.assembler;
    && Coherent(r.log)
    && (a.last == if CompletedCount(r.log) == 0 then None else Some(CompletedCount(r.log) - 1))
    && (if a.active.None? then Before(r.log, a.generation)
        else
          && !a.closed
          && a.timer == Some(a.generation)
          && Growing(r.log, a.generation, a.active.value))
  }

  /** The assembly of this generation is the one in progress. */
  ghost predicate Growing(log: seq<Happening>, generation: nat, partial: Partial) {
    && HasBegun(log, generation)
    && partial.absorbed == Payloads(log, generation)
    && |partial.absorbed| <= partial.total
    && partial.id == CompletedCount(log)
    && (forall x :: x in log ==> x.generation <= generation && (Terminal(x) ==> x.generation < generation))
  }

  lemma {:induction false} Extend(log: seq<Happening>, e: Happening)
    requires Coherent(log) && Follows(log, e)
    ensures Coherent(log + [e])
    ensures CompletedCount(log + [e]) == CompletedCount(log) + (if e.Completed? then 1 else 0)
    ensures forall g :: HasBegun(log + [e], g) <==> HasBegun(log, g) || (e.Began? && e.generation == g)
    ensures forall g ::
            Payloads(log + [e], g) == Payloads(log, g)
            + (if e.Absorbed? && e.generation == g then e.payload else [])
  {
    hide Follows;
    var all := log + [e];
    assert all[..|log|] == log;
    assert all[|log|] in all;
    assert forall i :: 0 <= i < |log| ==> all[..i] == log[..i] && all[i] == log[i];
  }

  lemma {:induction false} NoPayloadsYet(log: seq<Happening>, generation: nat)
    requires Before(log, generation)
    ensures Payloads(log, generation) == []
    decreases |log|
  {
    if log != [] {
      NoPayloadsYet(log[..|log| - 1], generation);
      assert log[|log| - 1] in log;
    }
  }

  lemma {:induction false} BeginKeepsInv(r: Run, id: nat, total: nat, now: int)
    requires Inv(r) && r.assembler.active.None? && !r.assembler.closed && id == CompletedCount(r.log)
    ensures var begun := StartTimer(r.assembler.(active := Some(Partial(id, total, now, []))));
            Inv(Run(begun, r.log + [Began(begun.generation, id)]))
  {
    hide Coherent, Payloads, CompletedCount, HasBegun;
    var begun := StartTimer(r.assembler.(active := Some(Partial(id, total, now, []))));
    Extend(r.log, Began(begun.generation, id));
    NoPayloadsYet(r.log, begun.generation);
  }

  /** Ending the current assembly leaves only older ones. */
  lemma {:induction false} EndKeepsInv(r: Run, after: Assembler, e: Happening)
    requires Inv(r) && r.assembler.active.Some? && Terminal(e) && e.generation == r.assembler.generation
    requires e.Completed? ==> e.content == r.assembler.active.value.absorbed && e.id == r.assembler.active.value.id
    requires after.active.None? && after.generation == r.assembler.generation + 1
    requires after.last == if e.Completed? then Some(e.id) else r.assembler.last
    ensures Inv(Run(after, r.log + [e]))
  {
    hide Coherent, Payloads, CompletedCount, HasBegun;
    Extend(r.log, e);
  }

  lemma {:induction false} AbsorbKeepsInv(r: Run, chunk: Bytes)
    requires Inv(r) && |chunk| >= HEADER && !r.assembler.closed
    requires ChunkOffset(chunk) + (|chunk| - HEADER) <= ChunkTotal(chunk)
    ensures var p := Absorb(r.assembler, chunk, []); Inv(Run(p.assembler, r.log + p.events))
  {
    hide ChunkId, ChunkTotal, ChunkOffset, ChunkFlags, Coherent, Payloads, CompletedCount, HasBegun;
    var a, p := r.assembler, Absorb(r.assembler, chunk, []);
    if p.outcome == Refused(OutOfOrder) {
      assert r.log + [] == r.log;
    } else {
      var e := Absorbed(a.generation, ChunkOffset(chunk), chunk[HEADER..]);
      var grown := a.active.value.(absorbed := a.active.value.absorbed + chunk[HEADER..]);
      var kept := a.(active := Some(grown));
      Extend(r.log, e);
      assert Inv(Run(kept, r.log + [e]));
      assert r.log + ([] + [e]) == r.log + [e];
      if p.outcome.Message? {
        var done := Completed(a.generation, grown.id, grown.absorbed);
        EndKeepsInv(Run(kept, r.log + [e]), p.assembler, done);
        assert r.log + ([] + [e] + [done]) == (r.log + [e]) + [done];
      }
    }
  }

  /** The events of `before` come first. */
  lemma {:induction false} AbsorbAfter(a: Assembler, chunk: Bytes, before: seq<Happening>)
    requires |chunk| >= HEADER
    ensures var p, q := Absorb(a, chunk, before), Absorb(a, chunk, []);
            p.assembler == q.assembler && p.outcome == q.outcome && p.events == before + q.events
  {
    hide ChunkId, ChunkTotal, ChunkOffset, ChunkFlags;
  }

  lemma {:induction false} PushKeepsInv(r: Run, chunk: Bytes, now: int)
    requires Inv(r)
    ensures var p := Push(r.assembler, chunk, now); Inv(Run(p.assembler, r.log + p.events))
  {
    hide Inv, Absorb, ChunkFlags, Get32;
    var a, p := r.assembler, Push(r.assembler, chunk, now);
    assert r.log + [] == r.log;
    if !a.closed && Malformed(chunk, a.limit).None? {
      if a.active.Some? && now - a.active.value.startedAt >= ASSEMBLY_TIMEOUT {
        EndKeepsInv(r, p.assembler, Expired(a.generation));
      } else if !IsStart(ChunkFlags(chunk)) {
        AbsorbKeepsInv(r, chunk);
      } else if a.last != Some(LAST_ID) && ChunkOffset(chunk) == 0 && a.active.None?
                && ChunkId(chunk) == (if a.last.Some? then a.last.value + 1 else 0) {
        var begun := StartTimer(a.(active := Some(Partial(ChunkId(chunk), ChunkTotal(chunk), now, []))));
        var began := [Began(begun.generation, ChunkId(chunk))];
        NextId(r);
        BeginKeepsInv(r, ChunkId(chunk), ChunkTotal(chunk), now);
        AbsorbKeepsInv(Run(begun, r.log + began), chunk);
        AbsorbAfter(begun, chunk, began);
        var q := Absorb(begun, chunk, []);
        assert r.log + (began + q.events) == (r.log + began) + q.events;
      }
    }
  }

  lemma NextId(r: Run)
    requires Inv(r)
    ensures (if r.assembler.last.Some? then r.assembler.last.value + 1 else 0) == CompletedCount(r.log)
  {}

  lemma {:induction false} DoKeepsInv(r: Run, call: Call)
    requires Inv(r)
    ensures var p := Do(r.assembler, call); Inv(Run(p.assembler, r.log + p.events))
  {
    hide Push, Coherent, Growing, Before;
    var a, p := r.assembler, Do(r.assembler, call);
    assert r.log + [] == r.log;
    if call.PushCall? {
      PushKeepsInv(r, call.chunk, call.now);
    } else if call.FireCall? {
      if p.events != [] {
        EndKeepsInv(r, p.assembler, TimedOut(call.generation));
      }
    } else if a.active.Some? {
      EndKeepsInv(r, p.assembler, Dropped(a.generation));
    } else if !a.closed {
      OlderStill(r.log, a.generation);
    }
  }

  lemma OlderStill(log: seq<Happening>, generation: nat)
    requires Before(log, generation)
    ensures Before(log, generation + 1)
  {}

  lemma {:induction false} RunKeepsInv(limit: nat, calls: seq<Call>)
    ensures Inv(RunOf(limit, calls))
    decreases |calls|
  {
    hide Do;
    if calls == [] {
    } else {
      RunKeepsInv(limit, calls[..|calls| - 1]);
      DoKeepsInv(RunOf(limit, calls[..|calls| - 1]), calls[|calls| - 1]);
    }
  }

  // ------------------------------------------------------------- theorems

  /**
   * Whatever is pushed, whenever the clock is read and the timers fire: a returned message is the gap-free
   * concatenation of what its assembly absorbed, and returned ids count up from 0.
   */
  lemma {:induction false} MessagesAreWhatWasAbsorbed(limit: nat, calls: seq<Call>, i: nat)
    requires i < |RunOf(limit, calls).log|
    ensures var log := RunOf(limit, calls).log;
            && (log[i].Completed? ==>
                log[i].content == Payloads(log[..i], log[i].generation)
                && log[i].id == CompletedCount(log[..i]))
            && (log[i].Absorbed? ==> log[i].offset == |Payloads(log[..i], log[i].generation)|)
  {
    hide RunOf;
    RunKeepsInv(limit, calls);
  }

  /**
   * An assembly ends at most once - completed, expired, timed out or dropped - and nothing happens
   * to it afterwards.
   */
  lemma {:induction false} AssembliesEndOnce(limit: nat, calls: seq<Call>, i: nat, j: nat)
    requires i < j < |RunOf(limit, calls).log| && Terminal(RunOf(limit, calls).log[i])
    ensures RunOf(limit, calls).log[j].generation != RunOf(limit, calls).log[i].generation
  {
    hide RunOf;
    RunKeepsInv(limit, calls);
    var log := RunOf(limit, calls).log;
    assert log[..j][i] == log[i];
    assert log[i] in log[..j];
    assert Follows(log[..j], log[j]);
  }

  /** The callback of a timer whose assembly has ended, or is not the newest, changes nothing. */
  lemma {:induction false} StaleTimersAreHarmless(limit: nat, calls: seq<Call>, generation: nat, later: Happening)
    requires later in RunOf(limit, calls).log
    requires later.generation > generation || (later.generation == generation && Terminal(later))
    ensures Fire(RunOf(limit, calls).assembler, generation) == Pushed(RunOf(limit, calls).assembler, Nothing, [])
  {
    hide RunOf;
    RunKeepsInv(limit, calls);
  }

  /** The message a push returns is the one it logs as completed. */
  lemma {:induction false} ReturnedIsLogged(a: Assembler, chunk: Bytes, now: int)
    ensures var p := Push(a, chunk, now);
            p.outcome.Message? <==> exists e :: e in p.events && e.Completed?
    ensures var p := Push(a, chunk, now);
            p.outcome.Message? ==> exists e :: e in p.events && e.Completed? && e.content == p.outcome.content
  {
    hide Malformed, ChunkId, ChunkTotal, ChunkOffset, ChunkFlags;
    var p := Push(a, chunk, now);
    if p.outcome.Message? {
      var e := p.events[|p.events| - 1];
      assert e in p.events && e.Completed? && e.content == p.outcome.content;
    }
  }
}
