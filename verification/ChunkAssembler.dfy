/**
 * The reassembler as the object it is in the source: a buffer of the declared
 * size that chunks are copied into, and a timer told apart by its generation.
 */
module ChunkAssembler {
  import opened Common
  import opened IpcRecords
  import F = ChunkFraming

  class Assembly {
    const messageID: nat
    const total: nat
    const startedAt: int
    const content: array<byte>
    var next: nat

    constructor (messageID: nat, total: nat, startedAt: int)
      ensures this.messageID == messageID && this.total == total && this.startedAt == startedAt && next == 0
      ensures fresh(content) && content.Length == total
    {
      this.messageID, this.total, this.startedAt, next := messageID, total, startedAt, 0;
      content := new byte[total];
    }

    ghost predicate Valid()
      reads this
    {
      content.Length == total && next <= total
    }

    ghost function State(): F.Partial
      requires Valid()
      reads this, content
    {
      F.Partial(messageID, total, startedAt, content[..next])
    }

    /** Copies a payload behind what is already there. */
    method Copy(payload: Bytes)
      requires Valid() && next + |payload| <= total
      modifies this, content
      ensures Valid() && State() == old(State()).(absorbed := old(State()).absorbed + payload)
    {
      forall i | 0 <= i < |payload| {
        content[next + i] := payload[i];
      }
      next := next + |payload|;
      assert content[..next] == old(content[..next]) + payload;
    }
  }

  class ChunkAssembler {
    const maxMessageBytes: nat
    var active: Assembly?
    var lastMessageID: nat
    var hasLastMessage: bool
    var timer: Option<nat>
    var timerGeneration: nat
    var closed: bool

    ghost function Repr(): set<object>
      reads this
    {
      {this} + (if active == null then {} else {active, active.content})
    }

    ghost predicate Valid()
      reads this, Repr()
    {
      active == null || active.Valid()
    }

    ghost function State(): F.Assembler
      requires Valid()
      reads this, Repr()
    {
      F.Assembler(maxMessageBytes, if active == null then None else Some(active.State()),
                  if hasLastMessage then Some(lastMessageID) else None, timer, timerGeneration, closed)
    }

    constructor (limit: nat)
      ensures Valid() && State() == F.NewAssembler(limit)
    {
      maxMessageBytes, active := limit, null;
      lastMessageID, hasLastMessage := 0, false;
      timer, timerGeneration, closed := None, 0, false;
    }

    method CancelTimerLocked()
      requires Valid()
      modifies this`timer, this`timerGeneration
      ensures Valid() && State() == F.CancelTimer(old(State()))
    {
      timer := None;
      timerGeneration := timerGeneration + 1;
    }

    method StartTimerLocked()
      requires Valid()
      modifies this`timer, this`timerGeneration
      ensures Valid() && State() == F.StartTimer(old(State()))
    {
      CancelTimerLocked();
      timerGeneration := timerGeneration + 1;
      timer := Some(timerGeneration);
    }

    method TimerFired(generation: nat) returns (timedOut: bool)
      requires Valid()
      modifies this
      ensures Valid() && State() == F.Fire(old(State()), generation).assembler
      ensures timedOut <==> F.Fire(old(State()), generation).events != []
    {
      if closed || active == null || generation != timerGeneration {
        return false;
      }
      active := null;
      timer := None;
      timerGeneration := timerGeneration + 1;
      return true;
    }

    method Close()
      requires Valid()
      modifies this
      ensures Valid() && State() == F.Shut(old(State())).assembler
    {
      if closed { return; }
      closed := true;
      active := null;
      CancelTimerLocked();
    }

    /** The part of a push behind the START handling. */
    method Absorb(chunk: Bytes) returns (outcome: F.Outcome)
      requires Valid() && |chunk| >= F.HEADER && F.ChunkOffset(chunk) + (|chunk| - F.HEADER) <= F.ChunkTotal(chunk)
      modifies Repr()
      ensures Valid() && Repr() <= old(Repr())
      ensures State() == F.Absorb(old(State()), chunk, []).assembler
      ensures outcome == F.Absorb(old(State()), chunk, []).outcome
    {
      var flags, messageID, total, offset := F.ChunkFlags(chunk), F.ChunkId(chunk), F.ChunkTotal(chunk),
        F.ChunkOffset(chunk);
      var payload := chunk[F.HEADER..];
      if active == null || active.messageID != messageID || active.total != total || active.next != offset {
        return F.Refused(F.OutOfOrder);
      }
      active.Copy(payload);
      if !F.IsEnd(flags) {
        return if active.next == active.total then F.Refused(F.MissingEnd) else F.Nothing;
      }
      if active.next != active.total {
        return F.Refused(F.PrematureEnd);
      }
      var content := active.content[..];
      assert content == active.content[..active.next];
      lastMessageID, hasLastMessage := active.messageID, true;
      active := null;
      CancelTimerLocked();
      return F.Message(content);
    }

    method Push(chunk: Bytes, now: int) returns (outcome: F.Outcome)
      requires Valid()
      modifies Repr()
      ensures Valid() && fresh(Repr() - old(Repr()))
      ensures State() == F.Push(old(State()), chunk, now).assembler
      ensures outcome == F.Push(old(State()), chunk, now).outcome
    {
      hide F.Absorb;
      if closed { return F.Refused(F.AssemblerClosed); }
      if |chunk| < F.HEADER || |chunk| > F.HEADER + F.CHUNK_PAYLOAD_MAX { return F.Refused(F.ChunkLength); }
      if Get32(chunk[0..4]) != F.MAGIC || chunk[4] != F.VERSION { return F.Refused(F.Signature); }
      var flags := F.ChunkFlags(chunk);
      if flags >= 4 || chunk[6] != 0 || chunk[7] != 0 { return F.Refused(F.UnknownFlags); }
      var messageID, total, offset := F.ChunkId(chunk), F.ChunkTotal(chunk), F.ChunkOffset(chunk);
      if total == 0 || total > maxMessageBytes || |chunk| == F.HEADER { return F.Refused(F.MessageBounds); }
      if offset + (|chunk| - F.HEADER) > total { return F.Refused(F.BeyondMessage); }
      if active != null && now - active.startedAt >= F.ASSEMBLY_TIMEOUT {
        active := null;
        CancelTimerLocked();
        return F.Refused(F.TimedOutOnPush);
      }
      if F.IsStart(flags) {
        var expected := 0;
        if hasLastMessage {
          if lastMessageID == F.LAST_ID { return F.Refused(F.IdsExhausted); }
          expected := lastMessageID + 1;
        }
        if offset != 0 || active != null || messageID != expected { return F.Refused(F.BadStart); }
        active := new Assembly(messageID, total, now);
        StartTimerLocked();
        F.AbsorbAfter(State(), chunk, [F.Began(timerGeneration, messageID)]);
      }
      outcome := Absorb(chunk);
    }
  }
}
