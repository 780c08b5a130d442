/**
 * Exactly which chunks the reassembler takes, and what one push leaves behind
 * (mobile/rtc-sidecar/chunk.go:117-184).
 */
module ChunkChecks {
  import opened Common
  import opened ChunkFraming
  import opened IpcRecords
  import opened Transparency

  // ----------------------------------------------------------- the header

  /** Four bytes are a number with the most significant first, and each number has one such form. */
  lemma {:induction false} BigEndian(a: byte, b: byte, c: byte, d: byte)
    ensures Get32([a, b, c, d]) == ((a as int * 256 + b as int) * 256 + c as int) * 256 + d as int
    ensures Get32([a, b, c, d]) < WORD && Put32(Get32([a, b, c, d])) == [a, b, c, d]
  {
    var n := Get32([a, b, c, d]);
    assert n / 0x100_0000 == a as int;
    assert n / 0x1_0000 == a as int * 256 + b as int;
    assert n / 256 == (a as int * 256 + b as int) * 256 + c as int;
  }

  lemma {:induction false} PutGet(bytes: Bytes)
    requires |bytes| == 4
    ensures Get32(bytes) < WORD && Put32(Get32(bytes)) == bytes
  {
    hide Get32, Put32;
    BigEndian(bytes[0], bytes[1], bytes[2], bytes[3]);
    assert bytes == [bytes[0], bytes[1], bytes[2], bytes[3]];
  }

  /** The first bytes of every chunk: A6DC, version 1, the flags of START and END, two zero bytes. */
  lemma {:induction false} HeaderBytes(id: nat, total: nat, offset: nat, start: bool, end: bool, payload: Bytes)
    requires id < WORD && total < WORD && offset < WORD
    ensures Chunk(id, total, offset, Flags(start, end), payload)[..8]
         == [0x41, 0x36, 0x44, 0x43, 1, if start then (if end then 3 else 1) else if end then 2 else 0, 0, 0]
    ensures IsStart(Flags(start, end)) == start && IsEnd(Flags(start, end)) == end
  {
    hide Get32;
    assert Put32(MAGIC) == [0x41, 0x36, 0x44, 0x43];
  }

  /** A piece of at most 12 KiB inside a message of at most `limit` bytes. */
  predicate InBounds(total: nat, offset: nat, flags: byte, payload: Bytes, limit: nat) {
    && 1 <= total <= limit && offset + |payload| <= total
    && 1 <= |payload| <= 12_288 && flags < 4
  }

  /** The bytes of some chunk that lies in its message. */
  ghost predicate IsChunk(chunk: Bytes, limit: nat) {
    exists id: nat, total: nat, offset: nat, flags: byte, payload: Bytes ::
      && id < WORD && total < WORD && offset < WORD
      && chunk == Chunk(id, total, offset, flags, payload) && InBounds(total, offset, flags, payload, limit)
  }

  lemma {:induction false} ChunkParts(chunk: Bytes, limit: nat)
    requires Malformed(chunk, limit).None?
    ensures |chunk| >= HEADER && ChunkId(chunk) < WORD && ChunkTotal(chunk) < WORD && ChunkOffset(chunk) < WORD
    ensures chunk == Chunk(ChunkId(chunk), ChunkTotal(chunk), ChunkOffset(chunk), ChunkFlags(chunk), chunk[HEADER..])
    ensures InBounds(ChunkTotal(chunk), ChunkOffset(chunk), ChunkFlags(chunk), chunk[HEADER..], limit)
  {
    hide Get32, Put32;
    PutGet(chunk[0..4]);
    PutGet(chunk[8..12]);
    PutGet(chunk[12..16]);
    PutGet(chunk[16..20]);
    assert chunk[4..8] == [VERSION, chunk[5], 0, 0];
    assert chunk == chunk[0..4] + chunk[4..8] + chunk[8..12] + chunk[12..16] + chunk[16..20] + chunk[HEADER..];
  }

  /** The checks let pass exactly the bytes of a chunk: signature, version, flags, and bounds as a sender makes them. */
  lemma {:induction false} WellFormedIff(chunk: Bytes, limit: nat)
    ensures Malformed(chunk, limit).None? <==> IsChunk(chunk, limit)
  {
    hide Chunk, Get32;
    if Malformed(chunk, limit).None? {
      ChunkParts(chunk, limit);
    }
    if IsChunk(chunk, limit) {
      var id: nat, total: nat, offset: nat, flags: byte, payload: Bytes :|
        id < WORD && total < WORD && offset < WORD
        && chunk == Chunk(id, total, offset, flags, payload) && InBounds(total, offset, flags, payload, limit);
      ChunkFields(id, total, offset, flags, payload);
    }
  }

  // ------------------------------------------------------------- one push

  /** The assembly in progress has been going on for five seconds. */
  predicate Stale(a: Assembler, now: int) {
    a.active.Some? && now >= a.active.value.startedAt + 5_000_000_000
  }

  function Expected(a: Assembler): nat {
    if a.last.Some? then a.last.value + 1 else 0
  }

  /**
   * A START opens the next message while none is in progress and ids are left; others
   * go on exactly where the message stands.
   */
  predicate Continues(a: Assembler, chunk: Bytes)
    requires |chunk| >= HEADER
  {
    if IsStart(ChunkFlags(chunk)) then
      a.active.None? && ChunkOffset(chunk) == 0 && ChunkId(chunk) == Expected(a) && a.last != Some(0xFFFF_FFFF)
    else
      && a.active.Some? && a.active.value.id == ChunkId(chunk) && a.active.value.total == ChunkTotal(chunk)
      && |a.active.value.absorbed| == ChunkOffset(chunk)
  }

  /** The bytes held behind this chunk. */
  function Held(a: Assembler, chunk: Bytes): Bytes
    requires |chunk| >= HEADER && Continues(a, chunk)
  {
    (if IsStart(ChunkFlags(chunk)) then [] else a.active.value.absorbed) + chunk[HEADER..]
  }

  /** Only the assembly, with its clock, changes. */
  predicate Holds(before: Assembler, after: Assembler, chunk: Bytes, now: int)
    requires |chunk| >= HEADER && Continues(before, chunk)
  {
    var startedAt := if IsStart(ChunkFlags(chunk)) then now else before.active.value.startedAt;
    && after.active == Some(Partial(ChunkId(chunk), ChunkTotal(chunk), startedAt, Held(before, chunk)))
    && after.last == before.last && after.closed == before.closed && after.limit == before.limit
    && (IsStart(ChunkFlags(chunk)) ==> after.timer == Some(after.generation) && after.generation > before.generation)
    && (!IsStart(ChunkFlags(chunk)) ==> after.timer == before.timer && after.generation == before.generation)
  }

  /** A finished assembly: nothing in progress, its timer outdated. */
  predicate Ended(before: Assembler, after: Assembler) {
    && after.active.None? && after.timer.None? && after.generation > before.generation
    && after.closed == before.closed && after.limit == before.limit
  }

  /**
   * Every push of every chunk: refused without a trace unless the bytes are a chunk
   * that continues; a stale assembly is dropped; otherwise the payload is taken in,
   * and the message is returned exactly when it is complete and its END flag is set.
   */
  lemma {:induction false} PushOutcome(a: Assembler, chunk: Bytes, now: int)
    ensures var p := Push(a, chunk, now);
      if a.closed || !IsChunk(chunk, a.limit) then p.assembler == a && p.outcome.Refused?
      else if Stale(a, now) then Ended(a, p.assembler) && p.assembler.last == a.last && p.outcome.Refused?
      else
        && |chunk| >= HEADER
        && if !Continues(a, chunk) then p.assembler == a && p.outcome.Refused?
           else if !IsEnd(ChunkFlags(chunk)) then
             && Holds(a, p.assembler, chunk, now)
             && if |Held(a, chunk)| < ChunkTotal(chunk) then p.outcome == Nothing else p.outcome.Refused?
           else if |Held(a, chunk)| < ChunkTotal(chunk) then Holds(a, p.assembler, chunk, now) && p.outcome.Refused?
           else
             && p.outcome == Message(Held(a, chunk)) && Ended(a, p.assembler)
             && p.assembler.last == Some(ChunkId(chunk))
  {
    hide IsChunk, Get32, ChunkId, ChunkTotal, ChunkOffset;
    WellFormedIff(chunk, a.limit);
    if Malformed(chunk, a.limit).None? {
      ChunkParts(chunk, a.limit);
    }
  }

  /** Closing drops what is in progress, and every later push is refused. */
  lemma ClosingIsFinal(a: Assembler, chunk: Bytes, now: int)
    ensures var after := Shut(a).assembler;
      after.closed && (!a.closed ==> after.active.None? && after.timer.None? && after.last == a.last)
    ensures Push(Shut(a).assembler, chunk, now) == Pushed(Shut(a).assembler, Refused(AssemblerClosed), [])
  {}

  /** The running timer of an assembly drops it; the next message is still expected under its id. */
  lemma TimerDropsItsAssembly(a: Assembler)
    requires !a.closed && a.active.Some?
    ensures var fired := Fire(a, a.generation);
      fired.events == [TimedOut(a.generation)] && Ended(a, fired.assembler) && fired.assembler.last == a.last
  {}
}
