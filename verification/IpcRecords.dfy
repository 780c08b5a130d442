/**
 * The records on the pipes between the mobile client and its WebRTC sidecar:
 * a four-byte big-endian length, a type byte, a payload. The TypeScript side
 * writes frames and decodes incrementally (mobile/src/rtc-sidecar-client.ts);
 * the Go side reads one record at a time (mobile/rtc-sidecar/ipc.go).
 */
module IpcRecords {
  import opened Common

  type Bytes = seq<byte>

  const WORD := 0x1_0000_0000
  const MAX_PAYLOAD := 4 * 1024 * 1024 + 64 * 1024

  // ----------------------------------------------------------- big endian

  function Put32(n: nat): (b: Bytes)
    requires n < WORD
    ensures |b| == 4
  {
    [n / 0x100_0000, n / 0x1_0000 % 256, n / 256 % 256, n % 256]
  }

  function Get32(b: Bytes): nat
    requires |b| == 4
  {
    b[0] as int * 0x100_0000 + b[1] as int * 0x1_0000 + b[2] as int * 256 + b[3] as int
  }

  lemma {:induction false} GetPut(n: nat)
    requires n < WORD
    ensures Get32(Put32(n)) == n
  {
    var high, low := n / 0x1_0000, n % 0x1_0000;
    assert n / 0x100_0000 == high / 256;
    assert n / 256 % 256 == low / 256;
    assert n % 256 == low % 256;
  }

  // -------------------------------------------------------------- records

  datatype Record = Record(typ: byte, payload: Bytes)

  datatype RecordError = PayloadTooLarge | InvalidLength | EndOfInput | TruncatedInput

  predicate Sendable(r: Record) {
    |r.payload| <= MAX_PAYLOAD
  }

  function Encode(r: Record): Bytes
    requires Sendable(r)
  {
    Put32(|r.payload| + 1) + [r.typ] + r.payload
  }

  /** The frame is allocated once and filled in place. */
  method EncodeRecord(typ: byte, payload: Bytes) returns (result: Result<Bytes, RecordError>)
    ensures result == if Sendable(Record(typ, payload)) then Ok(Encode(Record(typ, payload))) else Err(PayloadTooLarge)
  {
    if |payload| > MAX_PAYLOAD {
      return Err(PayloadTooLarge);
    }
    var frame := new byte[5 + |payload|];
    var length := Put32(|payload| + 1);
    frame[0], frame[1], frame[2], frame[3] := length[0], length[1], length[2], length[3];
    frame[4] := typ;
    forall i | 0 <= i < |payload| {
      frame[5 + i] := payload[i];
    }
    assert frame[..] == Encode(Record(typ, payload));
    return Ok(frame[..]);
  }

  // --------------------------------------------------- incremental decoder

  /** The complete records at the head of a stream, and what is left of it. */
  datatype Parsed = Parsed(records: seq<Record>, rest: Bytes, valid: bool)

  predicate ValidLength(n: nat) {
    1 <= n <= MAX_PAYLOAD + 1
  }

  function Parse(s: Bytes): Parsed {
    if |s| < 4 then Parsed([], s, true)
    else
      var n := Get32(s[..4]);
      if !ValidLength(n) then Parsed([], s, false)
      else if |s| < n + 4 then Parsed([], s, true)
      else
        var tail := Parse(s[n + 4..]);
        tail.(records := [Record(s[4], s[5..n + 4])] + tail.records)
  }

  /** The stream starts with a complete record. */
  predicate Complete(s: Bytes) {
    |s| >= 4 && ValidLength(Get32(s[..4])) && |s| >= Get32(s[..4]) + 4
  }

  lemma ParseOneRecord(s: Bytes)
    ensures Complete(s) ==>
              var n := Get32(s[..4]);
              Parse(s) == Parse(s[n + 4..]).(records := [Record(s[4], s[5..n + 4])] + Parse(s[n + 4..]).records)
    ensures !Complete(s) ==> Parse(s) == Parsed([], s, |s| < 4 || ValidLength(Get32(s[..4])))
  {}

  lemma {:induction false} FirstRecordStays(a: Bytes, b: Bytes)
    requires Complete(a)
    ensures var n := Get32(a[..4]);
            Complete(a + b) && Parse(a + b)
              == Parse(a[n + 4..] + b).(records := [Record(a[4], a[5..n + 4])] + Parse(a[n + 4..] + b).records)
  {
    var n := Get32(a[..4]);
    assert (a + b)[..4] == a[..4];
    assert (a + b)[n + 4..] == a[n + 4..] + b;
    assert (a + b)[5..n + 4] == a[5..n + 4];
  }

  /** Parsing a stream in two parts. */
  lemma {:induction false} ParseAppend(a: Bytes, b: Bytes)
    ensures Parse(a).valid ==>
              var tail := Parse(Parse(a).rest + b);
              Parse(a + b) == Parsed(Parse(a).records + tail.records, tail.rest, tail.valid)
    ensures !Parse(a).valid ==> Parse(a + b) == Parse(a).(rest := Parse(a).rest + b)
    decreases |a|
  {
    hide Get32, Parse;
    ParseOneRecord(a);
    if Complete(a) {
      var n := Get32(a[..4]);
      var rest := a[n + 4..];
      FirstRecordStays(a, b);
      ParseAppend(rest, b);
      var first := [Record(a[4], a[5..n + 4])];
      var tail := Parse(Parse(rest).rest + b);
      assert first + (Parse(rest).records + tail.records) == (first + Parse(rest).records) + tail.records;
    } else if |a| >= 4 && !ValidLength(Get32(a[..4])) {
      assert (a + b)[..4] == a[..4];
      ParseOneRecord(a + b);
    } else {
      assert [] + Parse(a + b).records == Parse(a + b).records;
    }
  }

  lemma {:induction false} ParseIsIdempotent(s: Bytes)
    ensures var rest := Parse(s).rest; Parse(rest) == Parsed([], rest, Parse(s).valid)
    decreases |s|
  {
    if |s| >= 4 && ValidLength(Get32(s[..4])) && |s| >= Get32(s[..4]) + 4 {
      ParseIsIdempotent(s[Get32(s[..4]) + 4..]);
    }
  }

  /** The decoder of the TypeScript client. */
  class RecordDecoder {
    var pending: Bytes

    constructor ()
      ensures pending == []
    {
      pending := [];
    }

    /** An invalid length throws: the records decoded earlier in the same call are lost. */
    method Push(chunk: Bytes) returns (result: Result<seq<Record>, RecordError>)
      modifies this
      ensures var parsed := Parse(old(pending) + chunk);
              && pending == parsed.rest
              && result == if parsed.valid then Ok(parsed.records) else Err(InvalidLength)
    {
      hide Get32, Parse;
      ghost var stream := pending + chunk;
      pending := if |pending| == 0 then chunk else pending + chunk;
      var records: seq<Record> := [];
      assert pending == stream;
      assert records + Parse(pending).records == Parse(pending).records;
      while |pending| >= 4
        invariant Parse(stream).records == records + Parse(pending).records
        invariant Parse(stream).rest == Parse(pending).rest && Parse(stream).valid == Parse(pending).valid
        decreases |pending|
      {
        ParseOneRecord(pending);
        var recordBytes := Get32(pending[..4]);
        if recordBytes < 1 || recordBytes > MAX_PAYLOAD + 1 {
          return Err(InvalidLength);
        }
        if |pending| < recordBytes + 4 { break; }
        var record := Record(pending[4], pending[5..recordBytes + 4]);
        ghost var tail := Parse(pending[recordBytes + 4..]);
        assert records + ([record] + tail.records) == (records + [record]) + tail.records;
        records := records + [record];
        pending := pending[recordBytes + 4..];
      }
      ParseOneRecord(pending);
      assert records + [] == records;
      return Ok(records);
    }
  }

  /** What a decoder delivers when a stream arrives in pieces. */
  datatype Fed = Fed(delivered: seq<Record>, pending: Bytes)

  function Feed(pending: Bytes, pieces: seq<Bytes>): Fed
    decreases |pieces|
  {
    if pieces == [] then Fed([], pending)
    else
      var parsed := Parse(pending + pieces[0]);
      var later := Feed(parsed.rest, pieces[1..]);
      if parsed.valid then later.(delivered := parsed.records + later.delivered) else later
  }

  /** Neither the records nor the residue of a stream with valid lengths depend on how it is cut. */
  lemma {:induction false} CutsDoNotMatter(pending: Bytes, pieces: seq<Bytes>)
    requires Parse(pending) == Parsed([], pending, true) && Parse(pending + Flatten(pieces)).valid
    ensures Feed(pending, pieces)
            == Fed(Parse(pending + Flatten(pieces)).records, Parse(pending + Flatten(pieces)).rest)
    decreases |pieces|
  {
    if pieces == [] {
      assert pending + Flatten(pieces) == pending;
    } else {
      var head := pending + pieces[0];
      assert pending + Flatten(pieces) == head + Flatten(pieces[1..]);
      ParseAppend(head, Flatten(pieces[1..]));
      ParseIsIdempotent(head);
      CutsDoNotMatter(Parse(head).rest, pieces[1..]);
    }
  }

  /** Whatever the lengths are, delivered records are a prefix of the stream's records. */
  lemma {:induction false} DeliveredIsAPrefix(pending: Bytes, pieces: seq<Bytes>)
    requires Parse(pending).records == []
    ensures Feed(pending, pieces).delivered <= Parse(pending + Flatten(pieces)).records
    decreases |pieces|
  {
    if pieces == [] {
      assert pending + Flatten(pieces) == pending;
    } else {
      var head := pending + pieces[0];
      assert pending + Flatten(pieces) == head + Flatten(pieces[1..]);
      ParseAppend(head, Flatten(pieces[1..]));
      ParseIsIdempotent(head);
      if !Parse(head).valid {
        ParseAppend(Parse(head).rest, Flatten(pieces[1..]));
      }
      DeliveredIsAPrefix(Parse(head).rest, pieces[1..]);
    }
  }

  /** Cutting is invisible exactly when the stream holds no invalid length behind a complete record. */
  lemma {:induction false} CutsDoNotMatterIff(s: Bytes)
    ensures (forall pieces: seq<Bytes> :: Flatten(pieces) == s ==> Feed([], pieces).delivered == Parse(s).records)
       <==> (Parse(s).valid || Parse(s).records == [])
  {
    assert [] + s == s;
    if Parse(s).valid || Parse(s).records == [] {
      forall pieces: seq<Bytes> | Flatten(pieces) == s
        ensures Feed([], pieces).delivered == Parse(s).records
      {
        if Parse(s).valid {
          CutsDoNotMatter([], pieces);
        } else {
          DeliveredIsAPrefix([], pieces);
        }
      }
    } else {
      assert Flatten([s]) == s + Flatten([]);
      assert Flatten([s]) == s;
      assert Feed([], [s]).delivered == Feed(Parse(s).rest, []).delivered == [];
    }
  }

  // ------------------------------------------------------------ Go reader

  /** The pipe as its reader finds it: each piece is what one read call may return. */
  class PipeReader {
    var pieces: seq<Bytes>

    constructor (content: seq<Bytes>)
      ensures pieces == content
    {
      pieces := content;
    }

    ghost function Remaining(): Bytes
      reads this
    {
      Flatten(pieces)
    }

    /** Fills a buffer of `n` bytes over as many reads as it takes. */
    method ReadFull(n: nat) returns (result: Result<Bytes, RecordError>)
      modifies this
      ensures pieces == Take(old(pieces), n).1 && result == Filled(Take(old(pieces), n).0, n)
    {
      var content: Bytes := [];
      ghost var all := pieces;
      assert content + Take(pieces, n).0 == Take(pieces, n).0;
      while |content| < n && pieces != []
        invariant |content| <= n
        invariant Take(all, n) == (content + Take(pieces, n - |content|).0, Take(pieces, n - |content|).1)
        decreases |pieces|, n - |content|
      {
        var available := pieces[0];
        var count := if n - |content| < |available| then n - |content| else |available|;
        ghost var later := if count < |available| then [] else Take(pieces[1..], n - |content| - count).0;
        assert available[..|available|] == available;
        assert Take(pieces, n - |content|).0 == available[..count] + later;
        assert content + (available[..count] + later) == (content + available[..count]) + later;
        content := content + available[..count];
        pieces := if count < |available| then [available[count..]] + pieces[1..] else pieces[1..];
        assert Take(pieces, n - |content|).0 == later;
      }
      assert content + [] == content;
      result := if |content| < n then Err(if |content| == 0 then EndOfInput else TruncatedInput) else Ok(content);
    }

    method ReadRecord() returns (result: Result<Record, RecordError>)
      modifies this
      ensures result == ReadRecordFrom(old(pieces)).0 && pieces == ReadRecordFrom(old(pieces)).1
    {
      hide Take, Get32;
      var header := ReadFull(4);
      if header.Err? { return Err(header.error); }
      var recordBytes := Get32(header.value);
      if recordBytes < 1 || recordBytes > MAX_PAYLOAD + 1 {
        return Err(InvalidLength);
      }
      var content := ReadFull(recordBytes);
      if content.Err? { return Err(content.error); }
      return Ok(Record(content.value[0], content.value[1..]));
    }

    /** The read loop of the sidecar: records until the first error, whatever the pipe cuts them into. */
    method ReadAllRecords() returns (records: seq<Record>, error: RecordError)
      modifies this
      ensures records == ReadAll(old(Remaining()))
      ensures error == LastError(old(Remaining()))
    {
      hide Flatten, ReadRecordFrom, ReadOne, ReadAll, LastError;
      records := [];
      ghost var all := Remaining();
      assert records + ReadAll(all) == ReadAll(all);
      while true
        invariant ReadAll(all) == records + ReadAll(Remaining())
        invariant LastError(all) == LastError(Remaining())
        decreases |Remaining()|
      {
        ReadRecordIsOne(pieces);
        ReadingGoesOn(Remaining());
        var next := ReadRecord();
        if next.Err? {
          assert records + [] == records;
          return records, next.error;
        }
        ghost var later := ReadAll(Remaining());
        assert records + ([next.value] + later) == (records + [next.value]) + later;
        records := records + [next.value];
      }
    }
  }

  // ------------------------------------------------- reading over pieces

  /** Up to `n` bytes, one piece after the other, and what is left of the pieces. */
  function Take(pieces: seq<Bytes>, n: nat): (r: (Bytes, seq<Bytes>))
    ensures |r.0| <= n
    decreases |pieces|
  {
    if n == 0 || pieces == [] then ([], pieces)
    else if n < |pieces[0]| then (pieces[0][..n], [pieces[0][n..]] + pieces[1..])
    else
      var later := Take(pieces[1..], n - |pieces[0]|);
      (pieces[0] + later.0, later.1)
  }

  function Filled(content: Bytes, n: nat): Result<Bytes, RecordError> {
    if |content| < n then Err(if content == [] then EndOfInput else TruncatedInput) else Ok(content)
  }

  /** Taking is cutting the stream; less than asked for is all there was. */
  lemma {:induction false} TakeCuts(pieces: seq<Bytes>, n: nat)
    ensures var (content, rest) := Take(pieces, n);
      content + Flatten(rest) == Flatten(pieces) && (|content| < n ==> Flatten(rest) == [])
    decreases |pieces|
  {
    if n == 0 || pieces == [] {
      assert [] + Flatten(pieces) == Flatten(pieces);
    } else if n < |pieces[0]| {
      assert pieces[0] == pieces[0][..n] + pieces[0][n..];
      assert ([pieces[0][n..]] + pieces[1..])[1..] == pieces[1..];
    } else {
      TakeCuts(pieces[1..], n - |pieces[0]|);
    }
  }

  function ReadRecordFrom(pieces: seq<Bytes>): (Result<Record, RecordError>, seq<Bytes>) {
    var (header, behind) := Take(pieces, 4);
    if |header| < 4 then (Err(if header == [] then EndOfInput else TruncatedInput), behind)
    else if !ValidLength(Get32(header)) then (Err(InvalidLength), behind)
    else
      var (content, rest) := Take(behind, Get32(header));
      if |content| < Get32(header) then (Err(if content == [] then EndOfInput else TruncatedInput), rest)
      else (Ok(Record(content[0], content[1..])), rest)
  }

  /** Reading a record over pieces is taking it off the head of the stream. */
  lemma {:induction false} ReadRecordIsOne(pieces: seq<Bytes>)
    ensures ReadRecordFrom(pieces).0 == ReadOne(Flatten(pieces)).0
    ensures ReadRecordFrom(pieces).0.Ok? ==>
      Flatten(ReadRecordFrom(pieces).1) == ReadOne(Flatten(pieces)).1
        && |Flatten(ReadRecordFrom(pieces).1)| < |Flatten(pieces)|
  {
    hide Take, Get32;
    var s := Flatten(pieces);
    var (header, behind) := Take(pieces, 4);
    TakeCuts(pieces, 4);
    if |header| == 4 {
      assert s[..4] == header && s[4..] == Flatten(behind);
      var n := Get32(header);
      if ValidLength(n) {
        var (content, rest) := Take(behind, n);
        TakeCuts(behind, n);
        if |content| == n {
          assert s[4..][..n] == content && s[4..][n..] == Flatten(rest);
          assert s[4..n + 4] == content && s[5..n + 4] == content[1..] && s[n + 4..] == Flatten(rest);
        } else {
          assert Flatten(behind) == content;
        }
      }
    } else {
      assert s == header;
    }
  }

  /** The records that a reader of the pieces finds. */
  function ReadRecords(pieces: seq<Bytes>): seq<Record>
    decreases |Flatten(pieces)|
  {
    ReadRecordIsOne(pieces);
    var (record, rest) := ReadRecordFrom(pieces);
    if record.Err? then [] else [record.value] + ReadRecords(rest)
  }

  /** Every cutting of a stream gives the reader the same records. */
  lemma {:induction false} EveryCutReadsTheSame(pieces: seq<Bytes>)
    ensures ReadRecords(pieces) == ReadAll(Flatten(pieces))
    decreases |Flatten(pieces)|
  {
    hide ReadRecordFrom, ReadOne;
    ReadRecordIsOne(pieces);
    if ReadRecordFrom(pieces).0.Ok? {
      EveryCutReadsTheSame(ReadRecordFrom(pieces).1);
    }
  }

  /** One record off the head of a stream. */
  function ReadOne(s: Bytes): (Result<Record, RecordError>, Bytes) {
    if |s| < 4 then (Err(if s == [] then EndOfInput else TruncatedInput), [])
    else
      var n := Get32(s[..4]);
      if !ValidLength(n) then (Err(InvalidLength), s[4..])
      else if |s| < n + 4 then (Err(if |s| == 4 then EndOfInput else TruncatedInput), [])
      else (Ok(Record(s[4], s[5..n + 4])), s[n + 4..])
  }

  /** Records read until the first error. */
  function ReadAll(s: Bytes): seq<Record>
    decreases |s|
  {
    var (record, rest) := ReadOne(s);
    if record.Err? then [] else [record.value] + ReadAll(rest)
  }

  /** The error that ends the reading. */
  function LastError(s: Bytes): RecordError
    decreases |s|
  {
    var (record, rest) := ReadOne(s);
    if record.Err? then record.error else LastError(rest)
  }

  lemma ReadingGoesOn(s: Bytes)
    ensures ReadOne(s).0.Err? ==> ReadAll(s) == [] && LastError(s) == ReadOne(s).0.error
    ensures ReadOne(s).0.Ok? ==>
      ReadAll(s) == [ReadOne(s).0.value] + ReadAll(ReadOne(s).1) && LastError(s) == LastError(ReadOne(s).1)
  {}

  /** The two ends agree on every stream, also on a broken one. */
  lemma {:induction false} ReadersAgree(s: Bytes)
    ensures ReadAll(s) == Parse(s).records
    decreases |s|
  {
    var (record, rest) := ReadOne(s);
    if record.Ok? {
      ReadersAgree(rest);
    }
  }

  // ---------------------------------------------------------- round trip

  predicate AllSendable(records: seq<Record>) {
    forall r :: r in records ==> Sendable(r)
  }

  function EncodeAll(records: seq<Record>): seq<Bytes>
    requires AllSendable(records)
  {
    seq(|records|, i requires 0 <= i < |records| => Encode(records[i]))
  }

  lemma {:induction false} ParseEncoded(r: Record, rest: Bytes)
    requires Sendable(r)
    ensures Parse(Encode(r) + rest) == Parse(rest).(records := [r] + Parse(rest).records)
  {
    var s := Encode(r) + rest;
    var n := |r.payload| + 1;
    assert s[..4] == Put32(n);
    GetPut(n);
    assert s[4] == r.typ && s[5..n + 4] == r.payload && s[n + 4..] == rest;
  }

  /** Encoding, then parsing the concatenation, gives the records back and leaves nothing. */
  lemma {:induction false} RoundTrip(records: seq<Record>)
    requires AllSendable(records)
    ensures Parse(Flatten(EncodeAll(records))) == Parsed(records, [], true)
    decreases |records|
  {
    hide Encode, Get32;
    if records == [] {
    } else {
      RoundTrip(records[1..]);
      assert EncodeAll(records)[1..] == EncodeAll(records[1..]);
      ParseEncoded(records[0], Flatten(EncodeAll(records[1..])));
    }
  }
}
