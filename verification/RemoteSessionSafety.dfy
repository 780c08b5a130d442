/**
 * What every run of a lease keeps: control frames reach a local socket over one
 * transport and in order, device frames are FIFO across the switch to the relay,
 * the transport history and the signaling sequence are well formed.
 */
module RemoteSessionSafety {
  import opened Common
  import opened RemoteSession

  // ---------------------------------------------------------- invariants

  /** The controls that wait for the local socket, and their byte counter. */
  ghost predicate QueueInv(pending: seq<Control>, bytes: nat, open: bool) {
    && (forall c, d :: c in pending && d in pending ==> c.transport == d.transport)
    && bytes == TotalBytes(Contents(pending)) <= PENDING_CONTROL_MAX
    && (open ==> pending == [])
  }

  /** Everything written or queued arrived, in this order, at most once. */
  ghost predicate InOrder(arrived: seq<Control>, writes: seq<Write>, pending: seq<Control>) {
    && (forall i :: 0 <= i < |arrived| ==> arrived[i].arrival == i)
    && (forall w :: w in writes ==> w.control in arrived)
    && (forall c :: c in pending ==> c in arrived)
    && (forall i, j :: 0 <= i < j < |writes| ==> writes[i].control.arrival < writes[j].control.arrival)
    && (forall i, j :: 0 <= i < j < |pending| ==> pending[i].arrival < pending[j].arrival)
    && (forall w, c :: w in writes && c in pending ==> w.control.arrival < c.arrival)
  }

  /** One transport per socket; only the relay once it has taken over. */
  ghost predicate OneTransport(writes: seq<Write>, relayFrom: Option<nat>) {
    && (forall v, w :: v in writes && w in writes && v.socket == w.socket ==>
        v.control.transport == w.control.transport)
    && (relayFrom.Some? ==> forall i :: relayFrom.value <= i < |writes| ==> writes[i].control.transport == Relay)
  }

  ghost predicate SocketInv(localSocket: Option<nat>, selected: Option<Transport>, writes: seq<Write>, sockets: nat) {
    && (forall w :: w in writes ==> w.socket < sockets)
    && (localSocket.Some? ==> localSocket.value < sockets)
    && (forall w :: w in writes && localSocket == Some(w.socket) ==> selected == Some(w.control.transport))
  }

  /** The frames of `part` occur in `all` in this order, each at its own place. */
  predicate Subsequence(part: seq<Bytes>, all: seq<Bytes>)
    decreases |all|
  {
    || part == []
    || (all != [] && Subsequence(part, all[..|all| - 1]))
    || (all != [] && part[|part| - 1] == all[|all| - 1] && Subsequence(part[..|part| - 1], all[..|all| - 1]))
  }

  /** Frames of the current local socket: those sent, then those queued; a closed lease may have skipped some. */
  ghost predicate DeviceInv(closed: bool, recovering: bool, socket: Option<nat>, pending: seq<Bytes>, bytes: nat,
                            received: seq<Bytes>, sent: seq<Bytes>)
  {
    && (if closed then Subsequence(sent, received) else received == sent + pending)
    && (pending != [] ==> recovering)
    && bytes == TotalBytes(pending) <= PENDING_DEVICE_MAX
    && (socket.None? ==> received == [])
  }

  /** The transports a lease selected, oldest first. */
  predicate LegalHistory(transports: seq<Transport>) {
    transports == [] || transports == [Relay] || transports == [P2P] || transports == [P2P, Relay]
  }

  ghost predicate HistoryInv(s: Session, t: Trace) {
    && LegalHistory(t.transports)
    && (s.paired <==> s.selected.Some?)
    && (s.selected == Some(P2P) ==> t.transports == [P2P] && !s.recovering && !s.awaitingRecovery)
    && (s.selected == Some(Relay) ==> Relay in t.transports)
    && (s.selected.None? ==> Relay !in t.transports)
    && (s.selected.None? && t.transports == [P2P] ==> !s.p2pReady && s.sidecar.None? && s.attemptId.Some?)
    && (t.relayFrom.Some? <==> Relay in t.transports)
    && (s.localSocket.None? ==> !s.bridged && !s.localReady)
    && (s.localSocket.Some? ==> s.recovering || s.selected.Some?)
    && (s.sidecar.Some? ==> s.attemptId.Some? && !s.failureReported && !s.closed)
    && (!s.closed && s.sidecar.Some? && s.p2pReady && s.selected != Some(Relay) ==> s.readyReported)
    && (!s.closed && s.sidecar.Some? && s.selected == Some(P2P) ==> s.readyReported)
    && (s.recovering || s.awaitingRecovery ==> s.failureReported)
    && (s.failureReported ==> s.attemptId.Some?)
    && (s.attemptId.None? ==> t.sidecarsStarted == 0 && !s.p2pReady && t.transports != [P2P])
    && t.sidecarsStarted <= 1
  }

  /** The sidecar sees one offer at 0, then candidates 1, 2, ... */
  ghost predicate AppliedInOrder(applied: seq<Applied>) {
    forall i :: 0 <= i < |applied| ==> applied[i].sequence == i && (applied[i].isOffer <==> i == 0)
  }

  ghost predicate AppliedInv(sidecar: Option<nat>, attemptId: Option<string>, incoming: nat, applied: seq<Applied>) {
    && AppliedInOrder(applied)
    && (sidecar.Some? ==> incoming == |applied|)
    && (attemptId.None? ==> applied == [])
  }

  predicate Sent(signals: seq<Signal>, kind: SignalKind) {
    exists x :: x in signals && x.kind == kind
  }

  /** Rising numbers; after a state only a further failure. */
  ghost predicate SignalsInOrder(signals: seq<Signal>) {
    && (forall i, j :: 0 <= i < j < |signals| ==> signals[i].sequence < signals[j].sequence)
    && (forall j :: 0 <= j < |signals| && Sent(signals[..j], Ready) ==> signals[j].kind == Failed)
    && (forall j :: 0 <= j < |signals| && Sent(signals[..j], Failed) ==> signals[j].kind == Failed)
  }

  /** No gap, and candidates only after an answer. */
  ghost predicate SignalsComplete(signals: seq<Signal>) {
    && (forall i :: 0 <= i < |signals| ==> signals[i].sequence == i)
    && (forall j :: 0 <= j < |signals| && signals[j].kind == Candidate ==> Sent(signals[..j], Answer))
  }

  predicate Below(signals: seq<Signal>, number: nat) {
    forall x :: x in signals ==> x.sequence < number
  }

  ghost predicate SignalInv(signals: seq<Signal>, closed: bool, outgoing: nat, attemptId: Option<string>,
                            answerSent: bool, ready: bool, failed: bool)
  {
    && SignalsInOrder(signals)
    && Below(signals, outgoing)
    && (attemptId.None? ==> signals == [])
    && (Sent(signals, Ready) ==> ready)
    && (Sent(signals, Failed) ==> failed)
    && (!closed ==>
          && SignalsComplete(signals)
          && outgoing == |signals|
          && (answerSent ==> Sent(signals, Answer)))
  }

  ghost predicate Inv(st: State) {
    var s, t := st.session, st.trace;
    && QueueInv(s.pendingControls, s.pendingControlBytes, s.bridged && s.localReady)
    && InOrder(t.arrived, t.writes, s.pendingControls)
    && OneTransport(t.writes, t.relayFrom)
    && SocketInv(s.localSocket, s.selected, t.writes, t.sockets)
    && DeviceInv(s.closed, s.recovering, s.localSocket, s.pendingFrames, s.pendingFrameBytes, t.received, t.sent)
    && HistoryInv(s, t)
    && AppliedInv(s.sidecar, s.attemptId, s.incoming, t.applied)
    && SignalInv(t.signals, s.closed, s.outgoing, s.attemptId, s.answerSent, s.readyReported, s.failureReported)
  }

  // ------------------------------------------------------- basic actions

  lemma {:induction false} NothingQueuedYet()
    ensures QueueInv([], 0, false)
  {
    assert Contents([]) == [];
  }

  lemma {:induction false} NothingYet()
    ensures InOrder([], [], []) && OneTransport([], None) && SocketInv(None, None, [], 0)
    ensures DeviceInv(false, false, None, [], 0, [], []) && AppliedInv(None, None, 0, [])
    ensures SignalInv([], false, 0, None, false, false, false)
  {
    assert forall kind :: !Sent([], kind);
  }

  lemma {:induction false} OpenHolds(expiresAt: int)
    ensures Inv(Open(expiresAt))
  {
    hide QueueInv, InOrder, OneTransport, SocketInv, DeviceInv, AppliedInv, SignalInv;
    NothingQueuedYet();
    NothingYet();
  }

  lemma {:induction false} PrefixIsSubsequence(part: seq<Bytes>, rest: seq<Bytes>)
    ensures Subsequence(part, part + rest)
    decreases |part| + |rest|
  {
    if rest != [] {
      assert (part + rest)[..|part + rest| - 1] == part + rest[..|rest| - 1];
      PrefixIsSubsequence(part, rest[..|rest| - 1]);
    } else if part != [] {
      assert part + rest == part && part[..|part| - 1] + [] == part[..|part| - 1];
      PrefixIsSubsequence(part[..|part| - 1], []);
    }
  }

  lemma {:induction false} ClosedControls(t: Trace, pending: seq<Control>, bytes: nat, open: bool)
    requires InOrder(t.arrived, t.writes, pending) && QueueInv(pending, bytes, open)
    ensures InOrder(t.arrived, t.writes, []) && QueueInv([], 0, open)
  {
    assert Contents([]) == [];
  }

  lemma {:induction false} ClosedFrames(s: Session, received: seq<Bytes>, sent: seq<Bytes>)
    requires DeviceInv(s.closed, s.recovering, s.localSocket, s.pendingFrames, s.pendingFrameBytes, received, sent)
    ensures Subsequence(sent, received)
    ensures DeviceInv(true, s.recovering, s.localSocket, [], 0, received, sent)
  {
    PrefixIsSubsequence(sent, s.pendingFrames);
  }

  lemma {:induction false} ClosedSignals(s: Session, signals: seq<Signal>)
    requires SignalInv(signals, s.closed, s.outgoing, s.attemptId, s.answerSent, s.readyReported, s.failureReported)
    ensures SignalInv(signals, true, s.outgoing, s.attemptId, s.answerSent, s.readyReported, s.failureReported)
    ensures SignalInv(signals, true, s.outgoing + 1, s.attemptId, s.answerSent, s.readyReported, s.failureReported)
  {
    hide SignalsInOrder, SignalsComplete, Sent;
  }

  lemma {:induction false} CloseKeepsInv(st: State)
    requires Inv(st)
    ensures Inv(Close(st))
  {
    hide QueueInv, InOrder, OneTransport, SocketInv, DeviceInv, AppliedInOrder, SignalInv;
    var s := st.session;
    ClosedControls(st.trace, s.pendingControls, s.pendingControlBytes, s.bridged && s.localReady);
    ClosedFrames(s, st.trace.received, st.trace.sent);
    ClosedSignals(s, st.trace.signals);
  }

  lemma {:induction false} SentAppended(signals: seq<Signal>, x: Signal)
    ensures forall k :: Sent(signals + [x], k) <==> Sent(signals, k) || k == x.kind
  {
    var all := signals + [x];
    assert all[|signals|] == x;
    forall k | Sent(signals, k)
      ensures Sent(all, k)
    {
      var y :| y in signals && y.kind == k;
      assert y in all;
    }
  }

  lemma {:induction false} SignalAppended(signals: seq<Signal>, number: nat, kind: SignalKind)
    requires SignalsInOrder(signals) && Below(signals, number)
    requires Sent(signals, Ready) || Sent(signals, Failed) ==> kind == Failed
    ensures SignalsInOrder(signals + [Signal(number, kind)]) && Below(signals + [Signal(number, kind)], number + 1)
  {
    hide Sent;
    var all := signals + [Signal(number, kind)];
    assert forall j :: 0 <= j <= |signals| ==> all[..j] == signals[..j];
    assert signals[..|signals|] == signals;
  }

  lemma {:induction false} CompleteAppended(signals: seq<Signal>, kind: SignalKind)
    requires SignalsComplete(signals) && (kind == Candidate ==> Sent(signals, Answer))
    ensures SignalsComplete(signals + [Signal(|signals|, kind)])
  {
    var all := signals + [Signal(|signals|, kind)];
    assert forall j :: 0 <= j <= |signals| ==> all[..j] == signals[..j];
    assert signals[..|signals|] == signals;
  }

  lemma {:induction false} CloseTakenKeepsInv(st: State)
    requires Inv(st)
    ensures Inv(Close(Taken(st)))
  {
    hide QueueInv, InOrder, OneTransport, SocketInv, DeviceInv, AppliedInOrder, SignalInv;
    var s := st.session;
    ClosedControls(st.trace, s.pendingControls, s.pendingControlBytes, s.bridged && s.localReady);
    ClosedFrames(s, st.trace.received, st.trace.sent);
    ClosedSignals(s, st.trace.signals);
  }

  /** What the session has noted down before it sends a signal of this kind. */
  ghost predicate MaySend(s: Session, signals: seq<Signal>, kind: SignalKind) {
    && s.attemptId.Some?
    && (!s.closed && kind == Candidate ==> Sent(signals, Answer))
    && (kind != Failed ==> !Sent(signals, Ready) && !Sent(signals, Failed))
    && (kind == Ready ==> s.readyReported)
    && (kind == Failed ==> s.failureReported)
  }

  lemma {:induction false} RecordedSignals(s: Session, signals: seq<Signal>, kind: SignalKind)
    requires SignalInv(signals, s.closed, s.outgoing, s.attemptId, s.answerSent, s.readyReported, s.failureReported)
    requires MaySend(s, signals, kind)
    ensures SignalInv(signals + [Signal(s.outgoing, kind)], s.closed, s.outgoing + 1, s.attemptId, s.answerSent,
                      s.readyReported, s.failureReported)
  {
    hide SignalsInOrder, SignalsComplete, Sent, Below;
    SignalAppended(signals, s.outgoing, kind);
    SentAppended(signals, Signal(s.outgoing, kind));
    if !s.closed {
      CompleteAppended(signals, kind);
    }
  }

  lemma {:induction false} RecordedKeepsInv(st: State, kind: SignalKind)
    requires Inv(st) && MaySend(st.session, st.trace.signals, kind)
    ensures Inv(Recorded(st, kind))
  {
    hide OneTransport, SocketInv, AppliedInOrder, SignalInv, MaySend, DeviceInv, QueueInv, InOrder;
    RecordedSignals(st.session, st.trace.signals, kind);
  }

  lemma CloseFacts(st: State)
    ensures Close(st).session.closed && Close(st).session.attemptId == st.session.attemptId
    ensures Close(st).trace == st.trace
  {}

  lemma {:induction false} SignalOrClosed(st: State, kind: SignalKind, writable: bool)
    ensures var after := SendSignal(st, kind, writable);
            && after.session.attemptId == st.session.attemptId
            && (after == Recorded(st, kind) || (after.session.closed && after.trace == st.trace))
  {
    hide Close;
    CloseFacts(st);
    CloseFacts(Taken(st));
  }

  lemma {:induction false} SendSignalKeepsInv(st: State, kind: SignalKind, writable: bool)
    requires Inv(st) && MaySend(st.session, st.trace.signals, kind)
    ensures Inv(SendSignal(st, kind, writable))
  {
    hide Inv, Close, Taken, Recorded;
    if st.session.attemptId.None? || st.session.outgoing > MAX_SEQUENCE {
      CloseKeepsInv(st);
    } else if !writable {
      CloseTakenKeepsInv(st);
    } else {
      RecordedKeepsInv(st, kind);
    }
  }

  // ------------------------------------------------------- control frames

  lemma {:induction false} TotalAppended(frames: seq<Bytes>, frame: Bytes)
    ensures TotalBytes(frames + [frame]) == TotalBytes(frames) + |frame|
  {
    assert (frames + [frame])[..|frames|] == frames;
  }

  /** A control that arrived after everything written or queued so far. */
  ghost predicate Next(t: Trace, pending: seq<Control>, control: Control) {
    && control in t.arrived
    && (forall w :: w in t.writes ==> w.control.arrival < control.arrival)
    && (forall c :: c in pending ==> c.arrival < control.arrival)
  }

  lemma {:induction false} ArriveKeepsInv(st: State, control: Control)
    requires Inv(st) && control.arrival == |st.trace.arrived|
    ensures Inv(Arrive(st, control))
    ensures Next(Arrive(st, control).trace, st.session.pendingControls, control)
  {
    hide OneTransport, SocketInv, DeviceInv, QueueInv, SignalInv, AppliedInv;
    var arrived := st.trace.arrived + [control];
    assert forall i :: 0 <= i < |arrived| ==> arrived[i].arrival == i;
    assert arrived[|arrived| - 1] == control;
  }

  lemma {:induction false} OrderedAppended(t: Trace, pending: seq<Control>, control: Control)
    requires InOrder(t.arrived, t.writes, pending) && Next(t, pending, control)
    ensures InOrder(t.arrived, t.writes, pending + [control])
  {
    assert forall c :: c in pending + [control] ==> c in pending || c == control;
  }

  lemma {:induction false} QueueAppended(pending: seq<Control>, bytes: nat, control: Control)
    requires QueueInv(pending, bytes, false)
    requires forall c :: c in pending ==> c.transport == control.transport
    requires bytes + |control.content| <= PENDING_CONTROL_MAX
    ensures QueueInv(pending + [control], bytes + |control.content|, false)
  {
    assert Contents(pending + [control]) == Contents(pending) + [control.content];
    TotalAppended(Contents(pending), control.content);
  }

  lemma {:induction false} QueueControlKeepsInv(st: State, control: Control)
    requires Inv(st) && Next(st.trace, st.session.pendingControls, control)
    requires !(st.session.bridged && st.session.localReady)
    requires !OtherTransportQueued(st.session.pendingControls, control.transport)
    requires st.session.pendingControlBytes + |control.content| <= PENDING_CONTROL_MAX
    ensures Inv(st.(session := st.session.(pendingControls := st.session.pendingControls + [control],
                                           pendingControlBytes := st.session.pendingControlBytes + |control.content|)))
  {
    hide InOrder, OneTransport, SocketInv, DeviceInv, SignalInv, AppliedInv, QueueInv, Next;
    QueueAppended(st.session.pendingControls, st.session.pendingControlBytes, control);
    OrderedAppended(st.trace, st.session.pendingControls, control);
  }

  lemma OrderedWrite(t: Trace, pending: seq<Control>, w: Write)
    requires InOrder(t.arrived, t.writes, pending) && Next(t, pending, w.control) && pending == []
    ensures InOrder(t.arrived, t.writes + [w], pending)
  {}

  lemma {:induction false} WriteKeepsInv(st: State, control: Control)
    requires Inv(st) && Next(st.trace, st.session.pendingControls, control)
    requires OpenBridge(st.session) && st.session.selected == Some(control.transport)
    ensures Inv(st.(trace := st.trace.(writes := st.trace.writes + [Write(st.session.localSocket.value, control)])))
  {
    hide DeviceInv, SignalInv, AppliedInv, QueueInv, InOrder, Next;
    var w := Write(st.session.localSocket.value, control);
    OrderedWrite(st.trace, st.session.pendingControls, w);
    assert forall v :: v in st.trace.writes + [w] ==> v in st.trace.writes || v == w;
  }

  /** The queue is empty and the local socket takes frames. */
  predicate OpenBridge(s: Session) {
    s.bridged && s.localReady && s.localSocket.Some? && s.pendingControls == []
  }

  lemma OpenMeansEmpty(st: State)
    requires Inv(st) && st.session.bridged && st.session.localReady
    ensures st.session.pendingControls == []
  {}

  lemma {:induction false} SendToLocalKeepsInv(st: State, control: Control, writable: bool)
    requires Inv(st) && Next(st.trace, st.session.pendingControls, control)
    ensures Inv(SendToLocal(st, control, writable))
  {
    hide InOrder, OneTransport, SocketInv, DeviceInv, SignalInv, AppliedInv, QueueInv, Close;
    CloseKeepsInv(st);
    var s := st.session;
    if !s.bridged || s.localSocket.None? || !s.localReady {
      if !(s.selected.Some? && s.selected.value != control.transport)
        && !OtherTransportQueued(s.pendingControls, control.transport)
         && s.pendingControlBytes + |control.content| <= PENDING_CONTROL_MAX {
        QueueControlKeepsInv(st, control);
      }
    } else if s.selected == Some(control.transport) && writable {
      OpenMeansEmpty(st);
      WriteKeepsInv(st, control);
    }
  }

  lemma {:induction false} FlushKeepsInv(st: State, pending: seq<Control>, writable: seq<bool>)
    requires Inv(st) && OpenBridge(st.session) && InOrder(st.trace.arrived, st.trace.writes, pending)
    ensures var after := Flush(st, pending, writable);
            && Inv(after)
            && after.trace.arrived == st.trace.arrived
            && (after.session.closed || OpenBridge(after.session))
            && (forall w :: w in after.trace.writes ==> w in st.trace.writes || w.control in pending)
    decreases |pending|
  {
    hide OneTransport, SocketInv, DeviceInv, SignalInv, AppliedInv, QueueInv, HistoryInv;
    if pending != [] {
      var n := |pending| - 1;
      FlushKeepsInv(st, pending[..n], writable);
      var before := Flush(st, pending[..n], writable);
      if !before.session.closed {
        assert forall c :: c in pending[..n] ==> c.arrival < pending[n].arrival;
        SendToLocalKeepsInv(before, pending[n], At(writable, n));
      }
    }
  }

  // -------------------------------------------------------- device frames

  /** The places of the frames that the socket takes. */
  function TakenPlaces(count: nat, writable: seq<bool>): (r: seq<nat>)
    ensures forall i: nat :: i in r <==> i < count && At(writable, i)
    ensures forall k :: 0 <= k < |r| ==> r[k] < count
  {
    if count == 0 then []
    else TakenPlaces(count - 1, writable) + if At(writable, count - 1) then [count - 1] else []
  }

  function FramesAt(frames: seq<Bytes>, places: seq<nat>): seq<Bytes>
    requires forall k :: 0 <= k < |places| ==> places[k] < |frames|
  {
    seq(|places|, i requires 0 <= i < |places| => frames[places[i]])
  }

  function TakenFrames(frames: seq<Bytes>, writable: seq<bool>): seq<Bytes> {
    FramesAt(frames, TakenPlaces(|frames|, writable))
  }

  predicate AllTaken(count: nat, writable: seq<bool>) {
    forall i :: 0 <= i < count ==> At(writable, i)
  }

  lemma NothingTaken(writable: seq<bool>)
    ensures TakenFrames([], writable) == []
  {}

  lemma {:induction false} LastTaken(frames: seq<Bytes>, writable: seq<bool>)
    requires frames != []
    ensures var n := |frames| - 1;
      TakenFrames(frames, writable)
      == TakenFrames(frames[..n], writable) + if At(writable, n) then [frames[n]] else []
  {
    var n := |frames| - 1;
    var places, before := TakenPlaces(|frames|, writable), TakenPlaces(n, writable);
    assert places == before + if At(writable, n) then [n] else [];
    forall k | 0 <= k < |before|
      ensures FramesAt(frames, places)[k] == FramesAt(frames[..n], before)[k]
    {
      assert places[k] == before[k] < n;
    }
  }

  /** Draining sends every frame the socket takes, in order, and closes the lease at the first it refuses. */
  lemma {:induction false} DrainSends(st: State, frames: seq<Bytes>, writable: seq<bool>)
    requires st.session.selected == Some(Relay)
    ensures var after := SendAllToRelay(st, frames, writable);
            && after.trace == st.trace.(sent := st.trace.sent + TakenFrames(frames, writable))
            && after.session == (if AllTaken(|frames|, writable) then st.session else Close(st).session)
            && (AllTaken(|frames|, writable) ==> after.trace.sent == st.trace.sent + frames)
    decreases |frames|
  {
    hide TakenFrames;
    NothingTaken(writable);
    if frames != [] {
      var n := |frames| - 1;
      DrainSends(st, frames[..n], writable);
      LastTaken(frames, writable);
      assert frames == frames[..n] + [frames[n]];
    }
  }

  function Upto(n: nat): seq<nat> {
    seq(n, i => i)
  }

  lemma {:induction false} AllPlaces(count: nat, writable: seq<bool>)
    requires AllTaken(count, writable)
    ensures TakenPlaces(count, writable) == Upto(count)
  {
    if count > 0 {
      AllPlaces(count - 1, writable);
    }
  }

  /** The frames sent are the first ones if and only if the socket takes none behind one that it refused. */
  lemma {:induction false} DrainIsAPrefixIff(count: nat, writable: seq<bool>)
    ensures TakenPlaces(count, writable) == Upto(|TakenPlaces(count, writable)|)
       <==> forall i, j :: 0 <= i < j < count && At(writable, j) ==> At(writable, i)
  {
    var places := TakenPlaces(count, writable);
    if places == Upto(|places|) {
      forall i, j | 0 <= i < j < count && At(writable, j)
        ensures At(writable, i)
      {
        assert j in places;
        assert i == places[i];
      }
    }
    if forall i, j :: 0 <= i < j < count && At(writable, j) ==> At(writable, i) {
      if count > 0 && At(writable, count - 1) {
        AllPlaces(count, writable);
      } else if count > 0 {
        DrainIsAPrefixIff(count - 1, writable);
      }
    }
  }

  /** A frame that does not fit closes the lease, the smaller one behind it is sent all the same. */
  lemma {:induction false} SmallerFrameOvertakes(st: State, a: Bytes, b: Bytes)
    requires st.session.selected == Some(Relay) && !st.session.closed
    ensures var after := SendAllToRelay(st, [a, b], [false, true]);
            after.session.closed && after.trace.sent == st.trace.sent + [b]
  {
    DrainSends(st, [a, b], [false, true]);
    assert TakenPlaces(0, [false, true]) == [];
    assert TakenPlaces(1, [false, true]) == [];
    assert TakenPlaces(2, [false, true]) == [1];
    assert !At([false, true], 0);
  }

  lemma {:induction false} SubsequenceGrows(part: seq<Bytes>, all: seq<Bytes>, x: Bytes)
    requires Subsequence(part, all)
    ensures Subsequence(part, all + [x]) && Subsequence(part + [x], all + [x])
  {
    assert (all + [x])[..|all|] == all && (part + [x])[..|part|] == part;
  }

  lemma {:induction false} TakenIsSubsequence(before: seq<Bytes>, frames: seq<Bytes>, writable: seq<bool>)
    ensures Subsequence(before + TakenFrames(frames, writable), before + frames)
    decreases |frames|
  {
    hide TakenFrames, Subsequence;
    NothingTaken(writable);
    if frames == [] {
      PrefixIsSubsequence(before, []);
      assert before + frames == before + [] && before + TakenFrames(frames, writable) == before;
    } else {
      var n := |frames| - 1;
      var taken := TakenFrames(frames[..n], writable);
      TakenIsSubsequence(before, frames[..n], writable);
      LastTaken(frames, writable);
      SubsequenceGrows(before + taken, before + frames[..n], frames[n]);
      assert before + frames == (before + frames[..n]) + [frames[n]];
      assert before + TakenFrames(frames, writable)
             == if At(writable, n) then (before + taken) + [frames[n]] else before + taken;
    }
  }

  function Received(st: State, content: Bytes): State {
    st.(trace := st.trace.(received := st.trace.received + [content]))
  }

  lemma {:induction false} CloseReceivedKeepsInv(st: State, content: Bytes)
    requires Inv(st) && st.session.localSocket.Some? && !st.session.closed
    ensures Inv(Close(Received(st, content)))
  {
    hide InOrder, OneTransport, SocketInv, QueueInv, SignalsInOrder, SignalsComplete, AppliedInOrder, Subsequence;
    CloseKeepsInv(st);
    PrefixIsSubsequence(st.trace.sent, st.session.pendingFrames + [content]);
    assert st.trace.sent + (st.session.pendingFrames + [content]) == st.trace.received + [content];
  }

  lemma {:induction false} QueueFrameKeepsInv(st: State, content: Bytes)
    requires Inv(st) && st.session.localSocket.Some? && !st.session.closed && st.session.recovering
    ensures Inv(QueueFrame(Received(st, content), content))
  {
    hide InOrder, OneTransport, SocketInv, SignalInv, AppliedInv, QueueInv;
    TotalAppended(st.session.pendingFrames, content);
    assert st.trace.sent + (st.session.pendingFrames + [content]) == st.trace.received + [content];
    if st.session.pendingFrameBytes + |content| > PENDING_DEVICE_MAX {
      CloseReceivedKeepsInv(st, content);
    }
  }

  // -------------------------------------------- failure, start, selection

  lemma {:induction false} KeptIsAllOrNothing(pending: seq<Control>)
    requires forall c, d :: c in pending && d in pending ==> c.transport == d.transport
    ensures RelayOnly(pending) == pending || RelayOnly(pending) == []
  {
    if pending != [] {
      KeptIsAllOrNothing(pending[..|pending| - 1]);
      assert pending == pending[..|pending| - 1] + [pending[|pending| - 1]];
      if |pending| > 1 {
        assert pending[|pending| - 2] in pending;
        LastDecides(pending[..|pending| - 1]);
      }
    }
  }

  lemma {:induction false} LastDecides(pending: seq<Control>)
    requires pending != []
    ensures pending[|pending| - 1].transport == Relay ==> RelayOnly(pending) != []
    ensures (forall c :: c in pending ==> c.transport == P2P) ==> RelayOnly(pending) == []
  {
    if |pending| > 1 {
      LastDecides(pending[..|pending| - 1]);
    }
  }

  /** The state `ReportInitialFailure` signals from. */
  function Failing(st: State): State {
    var kept := RelayOnly(st.session.pendingControls);
    st.(session := st.session.(disconnectedTimer := false, failureReported := true, p2pReady := false,
                               pendingCandidates := [], pendingControls := kept,
                               pendingControlBytes := TotalBytes(Contents(kept)), sidecar := None))
  }

  lemma {:induction false} KeptInOrder(t: Trace, pending: seq<Control>, bytes: nat, open: bool)
    requires InOrder(t.arrived, t.writes, pending) && QueueInv(pending, bytes, open)
    ensures InOrder(t.arrived, t.writes, RelayOnly(pending))
    ensures QueueInv(RelayOnly(pending), TotalBytes(Contents(RelayOnly(pending))), open)
  {
    KeptIsAllOrNothing(pending);
  }

  lemma {:induction false} FailingKeepsInv(st: State)
    requires Inv(st.(session := st.session.(sidecar := None))) && st.session.attemptId.Some?
    ensures Inv(Failing(st))
  {
    hide InOrder, OneTransport, SocketInv, DeviceInv, SignalsInOrder, AppliedInOrder, QueueInv, Sent, RelayOnly;
    var s := st.session;
    KeptInOrder(st.trace, s.pendingControls, s.pendingControlBytes, s.bridged && s.localReady);
  }

  lemma {:induction false} DetachKeepsInv(st: State)
    requires Inv(st)
    ensures Inv(st.(session := st.session.(sidecar := None)))
  {
    hide InOrder, OneTransport, SocketInv, DeviceInv, SignalInv, AppliedInOrder, QueueInv;
  }

  /** Reporting detaches the sidecar, so what was handed to it no longer matters. */
  lemma {:induction false} FailKeepsInv(st: State, writable: bool)
    requires Inv(st.(session := st.session.(sidecar := None)))
    requires !st.session.failureReported && st.session.attemptId.Some?
    ensures Inv(ReportInitialFailure(st, writable))
  {
    hide InOrder, OneTransport, SocketInv, DeviceInv, SignalsInOrder, AppliedInOrder, QueueInv, SendSignal, Sent, Inv;
    FailingKeepsInv(st);
    SendSignalKeepsInv(Failing(st), Failed, writable);
  }

  lemma {:induction false} ReportInitialKeepsInv(st: State, writable: bool)
    requires Inv(st)
    ensures Inv(ReportInitialFailure(st, writable))
  {
    hide Inv, SendSignal, RelayOnly;
    if !(st.session.failureReported || st.session.attemptId.None?) {
      DetachKeepsInv(st);
      FailKeepsInv(st, writable);
    }
  }

  /** The state `ReportActiveFailure` signals from. */
  function Frozen(st: State): State {
    State(st.session.(disconnectedTimer := false, recovering := true, paired := false, selected := None,
                      p2pReady := false, failureReported := true, pendingCandidates := [], sidecar := None,
                      localSocket := None, localReady := false, bridged := false,
                      pendingControls := [], pendingControlBytes := 0, pendingFrames := [], pendingFrameBytes := 0),
          st.trace.(received := [], sent := []))
  }

  lemma {:induction false} FrozenKeepsInv(st: State, content: Option<Bytes>)
    requires Inv(st) && st.session.selected == Some(P2P) && !st.session.recovering
    ensures Inv(Frozen(if content.Some? then Received(st, content.value) else st))
  {
    hide OneTransport, SignalsInOrder, AppliedInOrder, Sent;
  }

  /** Also from a frame just read from the local socket: the socket is dropped with it. */
  lemma {:induction false} ReportActiveKeepsInv(st: State, content: Option<Bytes>, writable: bool)
    requires Inv(st) && (content.Some? ==> st.session.selected == Some(P2P) && !st.session.recovering)
    ensures Inv(ReportActiveFailure(if content.Some? then Received(st, content.value) else st, writable))
  {
    hide InOrder, OneTransport, SocketInv, DeviceInv, SignalsInOrder, AppliedInOrder, QueueInv, SendSignal, Sent;
    var s := st.session;
    var from := if content.Some? then Received(st, content.value) else st;
    if !(s.recovering || s.selected != Some(P2P)) {
      FrozenKeepsInv(st, content);
      SendSignalKeepsInv(Frozen(from), Failed, writable);
    }
  }

  // ------------------------------------------------------------- handlers

  lemma {:induction false} RelayBinaryKeepsInv(st: State, content: Bytes, writable: bool)
    requires Inv(st)
    ensures Inv(RelayBinary(st, content, writable))
  {
    hide Inv, Close, SendToLocal, Next;
    var control := NextControl(st, Relay, content);
    ArriveKeepsInv(st, control);
    CloseKeepsInv(Arrive(st, control));
    SendToLocalKeepsInv(Arrive(st, control), control, writable);
  }

  lemma {:induction false} SidecarBinaryKeepsInv(st: State, sidecar: nat, content: Bytes, localWritable: bool,
                                                 relayWritable: bool)
    requires Inv(st)
    ensures Inv(SidecarBinary(st, sidecar, content, localWritable, relayWritable))
  {
    hide Inv, Close, SendToLocal, Next, ReportActiveFailure, ReportInitialFailure;
    var control := NextControl(st, P2P, content);
    var seen := Arrive(st, control);
    ArriveKeepsInv(st, control);
    CloseKeepsInv(seen);
    SendToLocalKeepsInv(seen, control, localWritable);
    ReportActiveKeepsInv(seen, None, relayWritable);
    ReportInitialKeepsInv(seen, relayWritable);
  }

  lemma {:induction false} LocalBinaryKeepsInv(st: State, socket: nat, content: Bytes, accepted: bool,
                                               relayWritable: bool)
    requires Inv(st)
    ensures Inv(LocalBinary(st, socket, content, accepted, relayWritable))
  {
    hide InOrder, OneTransport, SocketInv, SignalInv, AppliedInv, QueueInv, Close, ReportActiveFailure, QueueFrame;
    var s := st.session;
    if !(s.closed || s.localSocket != Some(socket)) {
      if |content| > DEVICE_FRAME_MAX {
        CloseKeepsInv(st);
      } else if s.recovering || s.selected.None? {
        QueueFrameKeepsInv(st, content);
      } else if s.selected == Some(Relay) {
        CloseReceivedKeepsInv(st, content);
      } else if s.sidecar.None? || content == [] || !accepted {
        assert s.selected == Some(P2P) by { assert s.selected.value == Relay || s.selected.value == P2P; }
        ReportActiveKeepsInv(st, Some(content), relayWritable);
      }
    }
  }

  lemma {:induction false} StartP2PKeepsInv(st: State, attemptId: string, creation: Creation, writable: bool)
    requires Inv(st)
    ensures Inv(StartP2P(st, attemptId, creation, writable))
  {
    hide InOrder, OneTransport, SocketInv, DeviceInv, QueueInv, AppliedInOrder, SignalsInOrder, Close,
         ReportInitialFailure;
    var s := st.session;
    if !s.closed {
      if s.attemptId.Some? || s.sidecar.Some? || s.paired {
        CloseKeepsInv(st);
      } else {
        var attempt := NewAttempt(s, attemptId);
        var created := State(attempt.(sidecar := Some(st.trace.sidecarsStarted)),
                             st.trace.(sidecarsStarted := st.trace.sidecarsStarted + 1));
        assert !Sent([], Ready) && !Sent([], Failed);
        assert Inv(st.(session := attempt));
        assert Inv(created);
        ReportInitialKeepsInv(st.(session := attempt), writable);
        ReportInitialKeepsInv(created, writable);
      }
    }
  }

  lemma {:induction false} SendCandidatesKeepsInv(st: State, count: nat, writable: seq<bool>)
    requires Inv(st) && MaySend(st.session, st.trace.signals, Candidate)
    ensures Inv(SendCandidates(st, count, writable))
    ensures var after := SendCandidates(st, count, writable); MaySend(after.session, after.trace.signals, Candidate)
    decreases count
  {
    hide InOrder, OneTransport, SocketInv, DeviceInv, QueueInv, AppliedInv, HistoryInv, SignalsInOrder, Sent,
         SendSignal;
    if count != 0 {
      var before := SendCandidates(st, count - 1, writable);
      SendCandidatesKeepsInv(st, count - 1, writable);
      SendSignalKeepsInv(before, Candidate, At(writable, count));
      SignalOrClosed(before, Candidate, At(writable, count));
      SentAppended(before.trace.signals, Signal(before.session.outgoing, Candidate));
    }
  }

  /** Noting the answer down after it was sent, or after sending it closed the lease. */
  function Answered(st: State): State {
    st.(session := st.session.(answerSent := true, pendingCandidates := []))
  }

  lemma {:induction false} AnsweredKeepsInv(st: State)
    requires Inv(st) && (!st.session.closed ==> Sent(st.trace.signals, Answer))
    ensures Inv(Answered(st))
  {
    hide InOrder, OneTransport, SocketInv, DeviceInv, QueueInv, AppliedInv, SignalsInOrder, Sent;
  }

  lemma {:induction false} AnswerIsSent(st: State, writable: bool)
    requires Inv(st) && st.session.attemptId.Some? && !st.session.readyReported && !st.session.failureReported
             && !st.session.closed
    ensures var after := Answered(SendSignal(st, Answer, writable));
            Inv(after) && MaySend(after.session, after.trace.signals, Candidate)
  {
    hide InOrder, OneTransport, SocketInv, DeviceInv, QueueInv, AppliedInv, SignalsInOrder, SendSignal, Sent;
    SignalOrClosed(st, Answer, writable);
    SendSignalKeepsInv(st, Answer, writable);
    var after := SendSignal(st, Answer, writable);
    SentAppended(st.trace.signals, Signal(st.session.outgoing, Answer));
    AnsweredKeepsInv(after);
  }

  lemma {:induction false} LocalDescriptionKeepsInv(st: State, sidecar: nat, writable: seq<bool>)
    requires Inv(st)
    ensures Inv(LocalDescription(st, sidecar, writable))
  {
    hide InOrder, OneTransport, SocketInv, DeviceInv, QueueInv, AppliedInv, SignalInv, MaySend, SendSignal;
    if Negotiating(st.session, sidecar) {
      AnswerIsSent(st, At(writable, 0));
      var answered := SendSignal(st, Answer, At(writable, 0));
      SendCandidatesKeepsInv(Answered(answered), |answered.session.pendingCandidates|, writable);
    }
  }

  lemma {:induction false} LocalCandidateKeepsInv(st: State, sidecar: nat, candidate: string, writable: bool)
    requires Inv(st)
    ensures Inv(LocalCandidate(st, sidecar, candidate, writable))
  {
    hide InOrder, OneTransport, SocketInv, DeviceInv, QueueInv, AppliedInOrder, SignalsInOrder, Sent, SendSignal,
         ReportInitialFailure;
    if Negotiating(st.session, sidecar) {
      if st.session.answerSent {
        SendSignalKeepsInv(st, Candidate, writable);
      } else {
        ReportInitialKeepsInv(st, writable);
      }
    }
  }

  lemma {:induction false} SidecarChangedKeepsInv(st: State, sidecar: nat, state: SidecarState, writable: bool)
    requires Inv(st)
    ensures Inv(SidecarChanged(st, sidecar, state, writable))
  {
    hide InOrder, OneTransport, SocketInv, DeviceInv, QueueInv, AppliedInOrder, SignalsInOrder, Sent, SendSignal,
         ReportInitialFailure, ReportActiveFailure;
    var s := st.session;
    if s.sidecar == Some(sidecar) && !s.closed {
      if state == SidecarReady {
        var ready := s.(disconnectedTimer := false, p2pReady := true);
        if s.paired || s.readyReported || s.failureReported {
          assert s.paired ==> s.selected.Some? && (s.selected.value.P2P? || s.selected.value.Relay?);
          assert s.readyReported || s.selected == Some(Relay);
          assert HistoryInv(ready, st.trace);
        } else {
          assert Inv(st.(session := ready.(readyReported := true)));
          SendSignalKeepsInv(st.(session := ready.(readyReported := true)), Ready, writable);
        }
      } else if state == Gone {
        ReportActiveKeepsInv(st, None, writable);
        ReportInitialKeepsInv(st, writable);
      }
    }
  }

  lemma {:induction false} DisconnectTimeoutKeepsInv(st: State, writable: bool)
    requires Inv(st)
    ensures Inv(DisconnectTimeout(st, writable))
  {
    hide InOrder, OneTransport, SocketInv, DeviceInv, QueueInv, AppliedInv, SignalInv, ReportInitialFailure,
         ReportActiveFailure;
    var fired := st.(session := st.session.(disconnectedTimer := false));
    ReportActiveKeepsInv(fired, None, writable);
    ReportInitialKeepsInv(fired, writable);
  }

  function Counted(st: State): State {
    st.(session := st.session.(incoming := st.session.incoming + 1))
  }

  function Handed(st: State, signal: Applied): State {
    Counted(st).(trace := st.trace.(applied := st.trace.applied + [signal]))
  }

  lemma {:induction false} CountedKeepsInv(st: State)
    requires Inv(st)
    ensures Inv(Counted(st).(session := Counted(st).session.(sidecar := None)))
  {
    hide InOrder, OneTransport, SocketInv, DeviceInv, QueueInv, SignalInv, AppliedInOrder;
  }

  lemma {:induction false} HandedKeepsInv(st: State, signal: Applied)
    requires Inv(st) && st.session.sidecar.Some? && signal.sequence == st.session.incoming
             && (signal.isOffer <==> signal.sequence == 0)
    ensures Inv(Handed(st, signal))
  {
    hide InOrder, OneTransport, SocketInv, DeviceInv, QueueInv, SignalInv;
  }

  lemma {:induction false} CountingKeepsInv(st: State)
    requires Inv(st) && st.session.sidecar.None?
    ensures Inv(Counted(st))
  {
    hide InOrder, OneTransport, SocketInv, DeviceInv, QueueInv, SignalInv, AppliedInOrder;
  }

  lemma {:induction false} RemoteSignalKeepsInv(st: State, attemptId: string, sequence: nat, isOffer: bool,
                                                usable: bool, applies: bool, writable: bool)
    requires Inv(st)
    ensures Inv(RemoteSignal(st, attemptId, sequence, isOffer, usable, applies, writable))
  {
    hide Inv, ReportInitialFailure, Close;
    var s := st.session;
    var signal := Applied(sequence, isOffer);
    CloseKeepsInv(st);
    if s.sidecar.None? {
      CountingKeepsInv(st);
    } else {
      SidecarIsLive(st);
      CountedKeepsInv(st);
      if sequence == s.incoming && (sequence == 0) == isOffer {
        HandedKeepsInv(st, signal);
        DetachKeepsInv(Handed(st, signal));
        FailKeepsInv(Handed(st, signal), writable);
      }
      FailKeepsInv(Counted(st), writable);
    }
  }

  lemma SidecarIsLive(st: State)
    requires Inv(st) && st.session.sidecar.Some?
    ensures !st.session.failureReported && st.session.attemptId.Some? && !st.session.closed
  {}

  lemma {:induction false} ConnectLocalKeepsInv(st: State)
    requires Inv(st) && (st.session.recovering || st.session.selected.Some?)
    ensures Inv(ConnectLocal(st))
  {
    hide InOrder, OneTransport, QueueInv, SignalInv, AppliedInv;
  }

  lemma SelectedSocket(localSocket: Option<nat>, selected: Option<Transport>, writes: seq<Write>,
                       sockets: nat, transport: Transport)
    requires SocketInv(localSocket, selected, writes, sockets) && (selected.None? || selected == Some(transport))
    ensures SocketInv(localSocket, Some(transport), writes, sockets)
  {}

  lemma RelayFromHere(writes: seq<Write>, relayFrom: Option<nat>)
    requires OneTransport(writes, relayFrom)
    ensures OneTransport(writes, Some(|writes|))
  {}

  lemma {:induction false} SelectedHistory(s: Session, t: Trace, transport: Transport)
    requires HistoryInv(s, t)
    requires s.selected.None? || (s.selected == Some(Relay) && transport == Relay)
    requires transport == P2P ==> s.p2pReady && !s.recovering && !s.awaitingRecovery
    ensures HistoryInv(s.(paired := true, selected := Some(transport)), Selection(t, transport))
  {
    assert [P2P] + [Relay] == [P2P, Relay];
  }

  lemma SelectedTrace(t: Trace, transport: Transport)
    ensures var after := Selection(t, transport);
            && (after.relayFrom == t.relayFrom || after.relayFrom == Some(|t.writes|))
            && after == t.(transports := after.transports, relayFrom := after.relayFrom)
  {}

  lemma {:induction false} SelectKeepsInv(st: State, transport: Transport)
    requires Inv(st)
    requires st.session.selected.None? || (st.session.selected == Some(Relay) && transport == Relay)
    requires transport == P2P ==> st.session.p2pReady && !st.session.recovering && !st.session.awaitingRecovery
    ensures Inv(Select(st, transport))
    ensures Select(st, transport).session == st.session.(paired := true, selected := Some(transport))
  {
    hide InOrder, DeviceInv, SignalInv, AppliedInv, QueueInv, OneTransport, SocketInv, HistoryInv, Selection;
    var s, t := st.session, st.trace;
    SelectedHistory(s, t, transport);
    SelectedTrace(t, transport);
    SelectedSocket(s.localSocket, s.selected, t.writes, t.sockets, transport);
    RelayFromHere(t.writes, t.relayFrom);
  }

  lemma {:induction false} ExpiryKeepsInv(st: State, expiresAt: int)
    requires Inv(st)
    ensures Inv(st.(session := st.session.(expiresAt := expiresAt)))
  {
    hide InOrder, OneTransport, SocketInv, DeviceInv, QueueInv, SignalInv, AppliedInv;
  }

  lemma {:induction false} AwaitKeepsInv(st: State, awaiting: bool, recovering: bool)
    requires Inv(st) && st.session.selected != Some(P2P) && (st.session.recovering ==> recovering)
             && st.session.failureReported
    ensures Inv(st.(session := st.session.(awaitingRecovery := awaiting, recovering := recovering)))
  {
    hide InOrder, OneTransport, SocketInv, QueueInv, SignalInv, AppliedInv;
  }

  /** A successful selection, up to the connection to the local socket. */
  lemma {:induction false} ChosenKeepsInv(st: State, transport: Transport)
    requires Inv(st) && st.session.selected.None?
    requires transport == P2P ==> st.session.p2pReady && st.session.sidecar.Some? && !st.session.awaitingRecovery
    requires !(transport == P2P && st.session.recovering)
    ensures Inv(ConnectLocal(Chosen(st, transport)))
  {
    hide Select, ConnectLocal, InOrder, OneTransport, SocketInv, DeviceInv, QueueInv, SignalInv, AppliedInv;
    SelectKeepsInv(st, transport);
    var chosen := Select(st, transport);
    DetachKeepsInv(chosen);
    ConnectLocalKeepsInv(Chosen(st, transport));
  }

  lemma UnpairedMeansUnselected(st: State)
    requires Inv(st)
    ensures st.session.paired <==> st.session.selected.Some?
    ensures st.session.recovering ==> st.session.sidecar.None?
  {}

  lemma {:induction false} SelectInitialKeepsInv(st: State, transport: Transport, expiresAt: int, now: int)
    requires Inv(st)
    ensures Inv(SelectInitial(st, transport, expiresAt, now))
  {
    hide Inv, Close, ConnectLocal, Select;
    var s := st.session;
    CloseKeepsInv(st);
    UnpairedMeansUnselected(st);
    var unavailable := transport == P2P && (!s.p2pReady || s.sidecar.None?);
    var limited := st.(session := s.(expiresAt := expiresAt));
    ExpiryKeepsInv(st, expiresAt);
    if !s.paired && !s.awaitingRecovery && (unavailable ==> s.failureReported) {
      if unavailable {
        AwaitKeepsInv(limited, true, s.recovering);
      } else {
        ChosenKeepsInv(limited, transport);
      }
    }
  }

  lemma NotP2PWhileAwaiting(st: State)
    requires Inv(st) && (st.session.awaitingRecovery || st.session.recovering)
    ensures st.session.selected != Some(P2P) && st.session.failureReported
  {}

  lemma {:induction false} RecoveryRequestedKeepsInv(st: State, writable: bool)
    requires Inv(st)
    ensures Inv(RecoveryRequested(st, writable))
  {
    hide Inv, Close, ConnectLocal, ReportActiveFailure;
    if st.session.awaitingRecovery {
      NotP2PWhileAwaiting(st);
      AwaitKeepsInv(st, false, true);
      ConnectLocalKeepsInv(st.(session := st.session.(awaitingRecovery := false, recovering := true)));
    } else {
      ReportActiveKeepsInv(st, None, writable);
      var reported := ReportActiveFailure(st, writable);
      CloseKeepsInv(reported);
      if reported.session.recovering {
        ConnectLocalKeepsInv(reported);
      }
    }
  }

  lemma NothingQueued(t: Trace, pending: seq<Control>)
    requires InOrder(t.arrived, t.writes, pending)
    ensures InOrder(t.arrived, t.writes, [])
  {}

  /** Between the switch to the relay and the last queued frame only the trace of sent frames lags behind. */
  lemma {:induction false} DrainKeepsInv(st: State, after: State)
    requires Inv(st) && st.session.localSocket.Some? && !st.session.closed && st.session.selected != Some(P2P)
    requires var drained := Drained(st);
             && after.trace == drained.trace.(sent := after.trace.sent)
             && Subsequence(after.trace.sent, drained.trace.sent + st.session.pendingFrames)
             && after.session == (if after.session.closed then Close(drained).session else drained.session)
             && (!after.session.closed ==> after.trace.sent == drained.trace.sent + st.session.pendingFrames)
    ensures Inv(after)
  {
    hide InOrder, OneTransport, SocketInv, QueueInv, SignalsInOrder, SignalsComplete, AppliedInOrder, Select;
    assert st.session.selected.None? || st.session.selected.value == Relay;
    SelectKeepsInv(st, Relay);
    CloseKeepsInv(Select(st, Relay));
  }

  lemma {:induction false} RecoveryCommittedKeepsInv(st: State, writable: seq<bool>)
    requires Inv(st)
    ensures Inv(RecoveryCommitted(st, writable))
  {
    hide Inv, Close, Select, SendAllToRelay, TotalBytes, TakenFrames, Subsequence;
    var s := st.session;
    CloseKeepsInv(st);
    if !s.closed && s.recovering && s.bridged && s.localSocket.Some? {
      NotP2PWhileAwaiting(st);
      assert s.selected.None? || s.selected.value == Relay;
      SelectKeepsInv(st, Relay);
      DrainSends(Drained(st), s.pendingFrames, writable);
      CloseFacts(Drained(st));
      TakenIsSubsequence(Drained(st).trace.sent, s.pendingFrames, writable);
      DrainKeepsInv(st, SendAllToRelay(Drained(st), s.pendingFrames, writable));
    }
  }

  lemma {:induction false} LocalOpenedKeepsInv(st: State, socket: nat, localWritable: seq<bool>, relayWritable: bool)
    requires Inv(st)
    ensures Inv(LocalOpened(st, socket, localWritable, relayWritable))
  {
    hide InOrder, OneTransport, SocketInv, DeviceInv, SignalInv, AppliedInv, Close, Flush;
    var s := st.session;
    if !(s.closed || s.localSocket != Some(socket)) {
      var bridge :=
        st.(session := s.(bridged := true, localReady := true, pendingControls := [], pendingControlBytes := 0));
      NothingQueued(st.trace, s.pendingControls);
      FlushKeepsInv(bridge, s.pendingControls, localWritable);
      CloseKeepsInv(Flush(bridge, s.pendingControls, localWritable));
    }
  }

  lemma {:induction false} LocalStoppingKeepsInv(st: State, socket: nat)
    requires Inv(st)
    ensures Inv(LocalStopping(st, socket))
  {
    hide InOrder, OneTransport, SocketInv, DeviceInv, SignalInv, AppliedInv;
  }

  lemma {:induction false} RelayOpenedKeepsInv(st: State, version: Option<Protocol>, now: int)
    requires Inv(st)
    ensures Inv(RelayOpened(st, version, now))
  {
    hide InOrder, OneTransport, SocketInv, DeviceInv, QueueInv, SignalInv, AppliedInv, Close;
    CloseKeepsInv(st);
  }

  lemma {:induction false} RelayTextKeepsInv(st: State, text: RelayText, env: Env)
    requires Inv(st)
    ensures Inv(RelayTextReceived(st, text, env))
  {
    hide Inv, Close, SelectInitial, StartP2P, RemoteSignal, RecoveryRequested, RecoveryCommitted;
    CloseKeepsInv(st);
    match text
    case ReadyFrame(transport, expiresAt) => SelectInitialKeepsInv(st, transport, expiresAt, env.now);
    case StartFrame(attemptId, deadlineAt) => StartP2PKeepsInv(st, attemptId, env.creation, At(env.relay, 0));
    case SignalFrame(attemptId, sequence, isOffer, usable) =>
      RemoteSignalKeepsInv(st, attemptId, sequence, isOffer, usable, env.applies, At(env.relay, 0));
    case RecoveringFrame => RecoveryRequestedKeepsInv(st, At(env.relay, 0));
    case RecoveredFrame => RecoveryCommittedKeepsInv(st, env.relay);
    case Unparsable =>
    case ErrorOrClosed =>
  }

  lemma {:induction false} StepKeepsInv(st: State, step: Step)
    requires Inv(st)
    ensures Inv(After(st, step))
  {
    hide Inv, Close, RelayOpened, RelayBinary, RelayTextReceived, LocalOpened, LocalBinary, LocalStopping,
      LocalDescription, LocalCandidate, SidecarChanged, SidecarBinary, DisconnectTimeout;
    var env := step.env;
    match step.event
    case OnRelayOpened(version) => RelayOpenedKeepsInv(st, version, env.now);
    case OnRelayBinary(content) => RelayBinaryKeepsInv(st, content, At(env.local, 0));
    case OnRelayText(text) => RelayTextKeepsInv(st, text, env);
    case OnLocalOpened(socket) => LocalOpenedKeepsInv(st, socket, env.local, At(env.relay, 0));
    case OnLocalBinary(socket, content) => LocalBinaryKeepsInv(st, socket, content, env.accepted, At(env.relay, 0));
    case OnLocalStopping(socket) => LocalStoppingKeepsInv(st, socket);
    case OnSidecarDescription(sidecar) => LocalDescriptionKeepsInv(st, sidecar, env.relay);
    case OnSidecarCandidate(sidecar, candidate) => LocalCandidateKeepsInv(st, sidecar, candidate, At(env.relay, 0));
    case OnSidecarState(sidecar, state) => SidecarChangedKeepsInv(st, sidecar, state, At(env.relay, 0));
    case OnSidecarBinary(sidecar, content) => SidecarBinaryKeepsInv(st, sidecar, content, At(env.local, 0),
                                                                    At(env.relay, 0));
    case OnDisconnectTimeout => DisconnectTimeoutKeepsInv(st, At(env.relay, 0));
    case OnClose => CloseKeepsInv(st);
  }

  lemma {:induction false} RunKeepsInv(expiresAt: int, steps: seq<Step>)
    ensures Inv(Run(Open(expiresAt), steps))
    decreases |steps|
  {
    hide Inv, After;
    if steps == [] {
      OpenHolds(expiresAt);
    } else {
      RunKeepsInv(expiresAt, steps[..|steps| - 1]);
      StepKeepsInv(Run(Open(expiresAt), steps[..|steps| - 1]), steps[|steps| - 1]);
    }
  }
}
