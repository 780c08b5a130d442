/**
 * Frames from the client through the sidecar's data channel to the other end:
 * IPC records, an arbitrarily cut pipe, chunks of any negotiated size, reassembly.
 */
module Transparency {
  import opened Common
  import opened IpcRecords
  import opened ChunkFraming

  const FRAME_MAX := 4 * 1024 * 1024
  const BINARY_INPUT: byte := 0x04

  // ------------------------------------------------------- one message

  lemma {:induction false} ChunkFields(id: nat, total: nat, offset: nat, flags: byte, payload: Bytes)
    requires id < WORD && total < WORD && offset < WORD
    ensures var c := Chunk(id, total, offset, flags, payload);
            && Get32(c[0..4]) == MAGIC && c[4] == VERSION && c[5] == flags && c[6] == 0 && c[7] == 0
            && ChunkId(c) == id && ChunkTotal(c) == total && ChunkOffset(c) == offset && c[HEADER..] == payload
  {
    hide Get32, Put32;
    var c := Chunk(id, total, offset, flags, payload);
    GetPut(MAGIC);
    GetPut(id);
    GetPut(total);
    GetPut(offset);
    assert c[0..4] == Put32(MAGIC);
    assert c[8..12] == Put32(id);
    assert c[12..16] == Put32(total);
    assert c[16..20] == Put32(offset);
  }

  /** The messages among the outcomes. */
  function Delivered(outcomes: seq<Outcome>): seq<Bytes> {
    if outcomes == [] then []
    else (if outcomes[0].Message? then [outcomes[0].content] else []) + Delivered(outcomes[1..])
  }

  predicate NoneRefused(outcomes: seq<Outcome>) {
    forall o :: o in outcomes ==> !o.Refused?
  }

  /** Pushes in a row, each with its own clock reading. */
  function PushAll(a: Assembler, chunks: seq<Bytes>, clock: seq<int>): (Assembler, seq<Outcome>)
    requires |clock| == |chunks|
    decreases |chunks|
  {
    if chunks == [] then (a, [])
    else
      var first := Push(a, chunks[0], clock[0]);
      var rest := PushAll(first.assembler, chunks[1..], clock[1..]);
      (rest.0, [first.outcome] + rest.1)
  }

  /** Ready for the message with this id. */
  predicate Idle(a: Assembler, id: nat) {
    !a.closed && a.active.None? && a.last == if id == 0 then None else Some(id - 1)
  }

  predicate Cuttable(content: Bytes, limit: nat, id: nat) {
    1 <= |content| < WORD && 1 <= limit <= CHUNK_PAYLOAD_MAX && id < WORD
  }

  /** The assembler has the first `offset` bytes of the message, taken in since `start`. */
  predicate Holding(a: Assembler, content: Bytes, id: nat, offset: nat, start: int) {
    && !a.closed && |content| <= a.limit && offset <= |content|
    && a.active == Some(Partial(id, |content|, start, content[..offset]))
  }

  /** Absorbing the chunk at `offset` moves on to its end, or completes the message. */
  lemma {:induction false} AbsorbPiece(a: Assembler, content: Bytes, limit: nat, id: nat, offset: nat, start: int,
                                       events: seq<Happening>)
    requires Cuttable(content, limit, id) && offset < |content| && Holding(a, content, id, offset, start)
    ensures var end := PieceEnd(content, limit, offset);
            var chunk := Chunk(id, |content|, offset, Flags(offset == 0, end == |content|), content[offset..end]);
            var p := Absorb(a, chunk, events);
            && p.assembler.limit == a.limit
            && (if end == |content| then p.outcome == Message(content) && Idle(p.assembler, id + 1)
                else p.outcome == Nothing && Holding(p.assembler, content, id, end, start))
  {
    hide ChunkId, ChunkTotal, ChunkOffset, Chunk;
    var end := PieceEnd(content, limit, offset);
    var flags := Flags(offset == 0, end == |content|);
    ChunkFields(id, |content|, offset, flags, content[offset..end]);
    assert content[..offset] + content[offset..end] == content[..end];
    assert content[..|content|] == content;
  }

  lemma {:induction false} PieceIsWellFormed(content: Bytes, limit: nat, id: nat, offset: nat, max: nat)
    requires Cuttable(content, limit, id) && offset < |content| <= max
    ensures var end := PieceEnd(content, limit, offset);
            var c := Chunk(id, |content|, offset, Flags(offset == 0, end == |content|), content[offset..end]);
            Malformed(c, max).None? && (IsStart(ChunkFlags(c)) <==> offset == 0)
  {
    hide ChunkId, ChunkTotal, ChunkOffset, Chunk;
    var end := PieceEnd(content, limit, offset);
    ChunkFields(id, |content|, offset, Flags(offset == 0, end == |content|), content[offset..end]);
  }

  /** The remaining chunks of a message, pushed before the timeout. */
  lemma {:induction false} PushRest(a: Assembler, content: Bytes, limit: nat, id: nat, offset: nat, start: int,
                                    clock: seq<int>)
    requires Cuttable(content, limit, id) && 0 < offset < |content| && Holding(a, content, id, offset, start)
    requires |clock| == |Cut(content, limit, id, offset)|
    requires forall t :: t in clock ==> t - start < ASSEMBLY_TIMEOUT
    ensures var (after, outcomes) := PushAll(a, Cut(content, limit, id, offset), clock);
            Idle(after, id + 1) && after.limit == a.limit && Delivered(outcomes) == [content] && NoneRefused(outcomes)
    decreases |content| - offset
  {
    hide Chunk, Malformed, ChunkFlags, Absorb;
    var end := PieceEnd(content, limit, offset);
    var chunks := Cut(content, limit, id, offset);
    assert chunks[1..] == Cut(content, limit, id, end);
    PieceIsWellFormed(content, limit, id, offset, a.limit);
    AbsorbPiece(a, content, limit, id, offset, start, []);
    assert clock[0] in clock;
    assert forall t :: t in clock[1..] ==> t in clock;
    var first := Push(a, chunks[0], clock[0]);
    assert first == Absorb(a, chunks[0], []);
    var (after, rest) := PushAll(first.assembler, chunks[1..], clock[1..]);
    assert ([first.outcome] + rest)[1..] == rest;
    if end < |content| {
      PushRest(first.assembler, content, limit, id, end, start, clock[1..]);
    }
  }

  /** A whole message: every clock reading less than the timeout after the first. */
  lemma {:induction false} PushMessage(a: Assembler, content: Bytes, limit: nat, id: nat, clock: seq<int>)
    requires Cuttable(content, limit, id) && Idle(a, id) && |content| <= a.limit
    requires |clock| == |Cut(content, limit, id, 0)|
    requires forall t :: t in clock ==> t - clock[0] < ASSEMBLY_TIMEOUT
    ensures var (after, outcomes) := PushAll(a, Cut(content, limit, id, 0), clock);
            Idle(after, id + 1) && after.limit == a.limit && Delivered(outcomes) == [content] && NoneRefused(outcomes)
  {
    hide Chunk, Malformed, ChunkFlags, Absorb;
    var end := PieceEnd(content, limit, 0);
    var chunks := Cut(content, limit, id, 0);
    assert chunks[1..] == Cut(content, limit, id, end);
    PieceIsWellFormed(content, limit, id, 0, a.limit);
    ChunkFields(id, |content|, 0, Flags(true, end == |content|), content[0..end]);
    var begun := StartTimer(a.(active := Some(Partial(id, |content|, clock[0], []))));
    assert content[..0] == [];
    AbsorbPiece(begun, content, limit, id, 0, clock[0], [Began(begun.generation, id)]);
    assert forall t :: t in clock[1..] ==> t in clock;
    var first := Push(a, chunks[0], clock[0]);
    assert first == Absorb(begun, chunks[0], [Began(begun.generation, id)]);
    var (after, rest) := PushAll(first.assembler, chunks[1..], clock[1..]);
    assert ([first.outcome] + rest)[1..] == rest;
    if end < |content| {
      PushRest(first.assembler, content, limit, id, end, clock[0], clock[1..]);
    }
  }

  // ------------------------------------------------------ many messages

  /** How one message travels: its payload size and the clock readings at the receiver. */
  datatype Travel = Travel(limit: nat, clock: seq<int>)

  predicate TravelsInTime(content: Bytes, id: nat, travel: Travel) {
    && Cuttable(content, travel.limit, id)
    && |travel.clock| == |Cut(content, travel.limit, id, 0)|
    && forall t :: t in travel.clock ==> t - travel.clock[0] < ASSEMBLY_TIMEOUT
  }

  predicate AllInTime(contents: seq<Bytes>, travels: seq<Travel>, id: nat) {
    |travels| == |contents| && forall k :: 0 <= k < |contents| ==> TravelsInTime(contents[k], id + k, travels[k])
  }

  /** A message that travels in time is one the sender splits. */
  lemma InTimeSplits(content: Bytes, sender: Sender, travel: Travel)
    requires TravelsInTime(content, sender.next, travel) && !sender.exhausted
    ensures SplitOf(sender, content, travel.limit)
            == (Some(Cut(content, travel.limit, sender.next, 0)), AfterSplit(sender))
  {}

  /** The sender splits message after message, and the assembler takes their chunks. */
  function Transmit(a: Assembler, sender: Sender, contents: seq<Bytes>, travels: seq<Travel>)
    : (Assembler, Sender, seq<Outcome>)
    requires AllInTime(contents, travels, sender.next) && (contents != [] ==> !sender.exhausted)
    decreases |contents|
  {
    if contents == [] then (a, sender, [])
    else
      LaterInTime(contents, travels, sender.next);
      InTimeSplits(contents[0], sender, travels[0]);
      LaterSender(contents, travels, sender);
      var (chunks, next) := SplitOf(sender, contents[0], travels[0].limit);
      var first := PushAll(a, chunks.value, travels[0].clock);
      var rest := Transmit(first.0, next, contents[1..], travels[1..]);
      (rest.0, rest.1, first.1 + rest.2)
  }

  lemma {:induction false} DeliveredAppend(xs: seq<Outcome>, ys: seq<Outcome>)
    ensures Delivered(xs + ys) == Delivered(xs) + Delivered(ys)
    decreases |xs|
  {
    if xs == [] {
      assert xs + ys == ys;
    } else {
      DeliveredAppend(xs[1..], ys);
      assert (xs + ys)[1..] == xs[1..] + ys;
    }
  }

  lemma {:induction false} LaterInTime(contents: seq<Bytes>, travels: seq<Travel>, id: nat)
    requires AllInTime(contents, travels, id) && contents != []
    ensures |travels| == |contents| && TravelsInTime(contents[0], id, travels[0])
            && AllInTime(contents[1..], travels[1..], id + 1)
  {
    hide TravelsInTime;
    assert TravelsInTime(contents[0], id + 0, travels[0]);
    forall k | 0 <= k < |contents| - 1
      ensures TravelsInTime(contents[1..][k], id + 1 + k, travels[1..][k])
    {
      assert TravelsInTime(contents[k + 1], id + (k + 1), travels[k + 1]);
    }
  }

  /** The sender behind the first message can send the others. */
  lemma {:induction false} LaterSender(contents: seq<Bytes>, travels: seq<Travel>, sender: Sender)
    requires AllInTime(contents, travels, sender.next) && contents != [] && !sender.exhausted
    ensures AllInTime(contents[1..], travels[1..], AfterSplit(sender).next)
    ensures contents[1..] != [] ==> !AfterSplit(sender).exhausted
  {
    LaterInTime(contents, travels, sender.next);
    if |contents| > 1 {
      hide TravelsInTime;
      assert TravelsInTime(contents[1], sender.next + 1, travels[1]);
      assert sender.next != LAST_ID by { NextIsWord(contents[1], sender.next + 1, travels[1]); }
    }
  }

  lemma NextIsWord(content: Bytes, id: nat, travel: Travel)
    requires TravelsInTime(content, id, travel)
    ensures id < WORD
  {}

  /** The sender numbers messages 0, 1, 2, ... and stops for good after 2^32 of them. */
  function SenderAfter(sender: Sender, count: nat): Sender
    decreases count
  {
    if count == 0 then sender else SenderAfter(AfterSplit(sender), count - 1)
  }

  lemma {:induction false} SenderCountsUp(sender: Sender, count: nat)
    requires !sender.exhausted && sender.next < WORD && sender.next + count <= WORD
    ensures SenderAfter(sender, count)
         == if sender.next + count < WORD then Sender(sender.next + count, false) else Sender(LAST_ID, true)
    decreases count
  {
    if count > 0 && sender.next < LAST_ID {
      SenderCountsUp(AfterSplit(sender), count - 1);
    }
  }

  lemma {:induction false} TransmitFirst(a: Assembler, sender: Sender, contents: seq<Bytes>, travels: seq<Travel>)
    requires AllInTime(contents, travels, sender.next) && contents != [] && !sender.exhausted
    ensures |travels| == |contents| && TravelsInTime(contents[0], sender.next, travels[0])
    ensures AllInTime(contents[1..], travels[1..], AfterSplit(sender).next)
            && (contents[1..] != [] ==> !AfterSplit(sender).exhausted)
    ensures var first := PushAll(a, Cut(contents[0], travels[0].limit, sender.next, 0), travels[0].clock);
      var rest := Transmit(first.0, AfterSplit(sender), contents[1..], travels[1..]);
      Transmit(a, sender, contents, travels) == (rest.0, rest.1, first.1 + rest.2)
  {
    hide PushAll, Cut, AllInTime, SplitOf, AfterSplit;
    LaterInTime(contents, travels, sender.next);
    LaterSender(contents, travels, sender);
    InTimeSplits(contents[0], sender, travels[0]);
  }

  lemma {:induction false} DeliveredFirst(contents: seq<Bytes>, first: seq<Outcome>, rest: seq<Outcome>)
    requires contents != [] && Delivered(first) == [contents[0]] && NoneRefused(first)
    requires Delivered(rest) == contents[1..] && NoneRefused(rest)
    ensures Delivered(first + rest) == contents && NoneRefused(first + rest)
  {
    DeliveredAppend(first, rest);
  }

  lemma {:induction false} TransmitDelivers(a: Assembler, sender: Sender, contents: seq<Bytes>, travels: seq<Travel>)
    requires AllInTime(contents, travels, sender.next) && Idle(a, sender.next) && (contents != [] ==> !sender.exhausted)
    requires forall c :: c in contents ==> |c| <= a.limit
    ensures var (after, last, outcomes) := Transmit(a, sender, contents, travels);
            Delivered(outcomes) == contents && NoneRefused(outcomes) && last == SenderAfter(sender, |contents|)
            && Idle(after, sender.next + |contents|)
    decreases |contents|
  {
    hide PushAll, Cut, AllInTime, Idle, SplitOf, TravelsInTime, Transmit, AfterSplit, Delivered, NoneRefused, Cuttable,
         SenderAfter;
    if contents == [] {
      NothingToTransmit(a, sender, travels);
    } else {
      TransmitFirst(a, sender, contents, travels);
      var (c, travel) := (contents[0], travels[0]);
      InTimeIsCuttable(c, sender.next, travel);
      NextNumber(sender, |contents|);
      assert c in contents;
      PushMessage(a, c, travel.limit, sender.next, travel.clock);
      var (between, outcomes) := PushAll(a, Cut(c, travel.limit, sender.next, 0), travel.clock);
      var rest := Transmit(between, AfterSplit(sender), contents[1..], travels[1..]);
      if |contents| == 1 {
        NothingToTransmit(between, AfterSplit(sender), travels[1..]);
      } else {
        TransmitDelivers(between, AfterSplit(sender), contents[1..], travels[1..]);
      }
      DeliveredFirst(contents, outcomes, rest.2);
    }
  }

  lemma InTimeIsCuttable(content: Bytes, id: nat, travel: Travel)
    requires TravelsInTime(content, id, travel)
    ensures Cuttable(content, travel.limit, id) && |travel.clock| == |Cut(content, travel.limit, id, 0)|
    ensures forall t :: t in travel.clock ==> t - travel.clock[0] < ASSEMBLY_TIMEOUT
  {}

  lemma NothingToTransmit(a: Assembler, sender: Sender, travels: seq<Travel>)
    requires AllInTime([], travels, sender.next)
    ensures Transmit(a, sender, [], travels) == (a, sender, []) && Delivered([]) == [] && NoneRefused([])
    ensures SenderAfter(sender, 0) == sender
  {}

  lemma NextNumber(sender: Sender, count: nat)
    requires count >= 1
    ensures !AfterSplit(sender).exhausted ==> AfterSplit(sender).next == sender.next + 1
    ensures SenderAfter(sender, count) == SenderAfter(AfterSplit(sender), count - 1)
    ensures SenderAfter(sender, 0) == sender && SenderAfter(AfterSplit(sender), 0) == AfterSplit(sender)
  {}

  // ---------------------------------------------------------- end to end

  function Frames(contents: seq<Bytes>): seq<Record> {
    seq(|contents|, i requires 0 <= i < |contents| => Record(BINARY_INPUT, contents[i]))
  }

  function Contents(records: seq<Record>): seq<Bytes> {
    seq(|records|, i requires 0 <= i < |records| => records[i].payload)
  }

  predicate ValidFrames(contents: seq<Bytes>) {
    |contents| <= WORD && forall c :: c in contents ==> 1 <= |c| <= FRAME_MAX
  }

  /**
   * Frames of 1 byte to 4 MiB, encoded by the client, cut anyhow, read piece by piece by the sidecar, split by a
   * fresh sender with any payload sizes and pushed in time to a fresh assembler come out as they went in, and
   * nothing is refused on the way.
   */
  lemma {:induction false} EndToEnd(contents: seq<Bytes>, pieces: seq<Bytes>, travels: seq<Travel>, limit: nat)
    requires ValidFrames(contents) && FRAME_MAX <= limit
    requires AllSendable(Frames(contents)) && Flatten(pieces) == Flatten(EncodeAll(Frames(contents)))
    requires AllInTime(contents, travels, 0)
    ensures Contents(ReadRecords(pieces)) == contents
    ensures var (after, last, outcomes) :=
            Transmit(NewAssembler(limit), Sender(0, false), Contents(ReadRecords(pieces)), travels);
            && Delivered(outcomes) == contents && NoneRefused(outcomes)
            && Idle(after, |contents|) && last == SenderAfter(Sender(0, false), |contents|)
  {
    hide Transmit, ReadAll, ReadRecords, Encode, EncodeAll, Parse, AllInTime, Delivered, NoneRefused, SenderAfter;
    RoundTrip(Frames(contents));
    ReadersAgree(Flatten(pieces));
    EveryCutReadsTheSame(pieces);
    TransmitDelivers(NewAssembler(limit), Sender(0, false), contents, travels);
  }

  /** The other direction: what the sidecar writes, the client decodes, however the pipe cuts it. */
  lemma {:induction false} DecoderDelivers(records: seq<Record>, pieces: seq<Bytes>)
    requires AllSendable(records) && Flatten(pieces) == Flatten(EncodeAll(records))
    ensures Feed([], pieces) == Fed(records, [])
  {
    hide Encode, Feed, EncodeAll;
    RoundTrip(records);
    assert [] + Flatten(pieces) == Flatten(pieces);
    CutsDoNotMatter([], pieces);
  }
}
