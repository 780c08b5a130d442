/**
 * The data plane of a lease: what one frame does to an open lease (written, sent,
 * kept back, reported as a failure) and exactly when it closes the lease.
 */
module RemoteSessionData {
  import opened Common
  import opened RemoteSession
  import opened RemoteSessionSafety

  // ------------------------------------------------- the vocabulary

  /** The local socket is announced and takes frames. */
  predicate Bridge(s: Session) {
    s.bridged && s.localSocket.Some? && s.localReady
  }

  /** Data flows over `transport` in both directions. */
  predicate Carries(s: Session, transport: Transport) {
    && !s.closed && s.paired && !s.recovering && s.selected == Some(transport) && Bridge(s)
    && (transport == P2P ==> s.sidecar.Some?)
  }

  /** 1 byte to 64 KiB. */
  predicate ControlSize(content: Bytes) {
    1 <= |content| <= 65_536
  }

  /** Relay frames are expected on the selected relay, and before anything is selected. */
  predicate RelayPhase(s: Session) {
    if s.paired then s.selected == Some(Relay)
    else s.protocolVersion.Some? && s.selected.None? && !s.recovering
  }

  /** P2P frames are expected on the selected P2P path, and before the selection once P2P is ready. */
  predicate P2PPhase(s: Session) {
    if s.paired then s.selected == Some(P2P)
    else
      s.protocolVersion == Some(V2) && s.selected.None? && !s.recovering && s.attemptId.Some? && s.p2pReady
  }

  predicate AllOver(pending: seq<Control>, transport: Transport) {
    forall c :: c in pending ==> c.transport == transport
  }

  /** An open socket takes the frame, or the queue has room and holds frames of this transport only. */
  predicate HasRoom(s: Session, control: Control, writable: bool) {
    if Bridge(s) then s.selected == Some(control.transport) && writable
    else
      && (s.selected.None? || s.selected == Some(control.transport))
      && AllOver(s.pendingControls, control.transport)
      && s.pendingControlBytes + |control.content| <= 262_144
  }

  /** The lease is as it was and the local socket got this frame. */
  predicate IsWritten(st: State, after: State, control: Control) {
    && Bridge(st.session)
    && after.session == st.session
    && after.trace == st.trace.(arrived := st.trace.arrived + [control],
                                writes := st.trace.writes + [Write(st.session.localSocket.value, control)])
  }

  function Keeping(s: Session, control: Control): Session {
    s.(pendingControls := s.pendingControls + [control],
       pendingControlBytes := s.pendingControlBytes + |control.content|)
  }

  /** The frame waits as the last one for the local socket. */
  predicate IsKept(st: State, after: State, control: Control) {
    && after.session == Keeping(st.session, control)
    && after.trace == st.trace.(arrived := st.trace.arrived + [control])
  }

  /** The frame arrived and went nowhere. */
  predicate IsDropped(st: State, after: State, control: Control) {
    after.trace == st.trace.(arrived := st.trace.arrived + [control])
  }

  /** A frame handed on to the local socket: it gets there or waits, unless the lease closes. */
  ghost predicate HandedOn(st: State, after: State, control: Control, writable: bool) {
    && (after.session.closed <==> !HasRoom(st.session, control, writable))
    && (after.session.closed ==> IsDropped(st, after, control))
    && (!after.session.closed ==>
          if Bridge(st.session) then IsWritten(st, after, control) else IsKept(st, after, control))
  }

  // --------------------------------------------------- control frames

  lemma ClosingKeepsTrace(st: State)
    ensures Close(st).session.closed && Close(st).trace == st.trace
  {}

  lemma ArrivingKeepsSession(st: State, control: Control)
    ensures Arrive(st, control).session == st.session && IsDropped(st, Arrive(st, control), control)
  {}

  function Kept(st: State, control: Control): State {
    st.(session := st.session.(pendingControls := st.session.pendingControls + [control],
                               pendingControlBytes := st.session.pendingControlBytes + |control.content|))
  }

  lemma KeptSession(st: State, control: Control)
    ensures Kept(st, control).session == Keeping(st.session, control) && Kept(st, control).trace == st.trace
    ensures Kept(st, control).session.closed == st.session.closed
  {}

  lemma RoomInQueue(s: Session, control: Control)
    requires !Bridge(s)
    ensures HasRoom(s, control, false)
       <==> (s.selected.Some? ==> s.selected.value == control.transport)
            && !OtherTransportQueued(s.pendingControls, control.transport)
            && s.pendingControlBytes + |control.content| <= PENDING_CONTROL_MAX
  {}

  lemma {:induction false} QueueingIsExact(st: State, control: Control)
    requires !st.session.closed && !Bridge(st.session)
    ensures Queued(st, control) == if HasRoom(st.session, control, false) then Kept(st, control) else Close(st)
  {
    hide Close, HasRoom, OtherTransportQueued;
    RoomInQueue(st.session, control);
  }

  lemma {:induction false} KeepingIsExact(st: State, control: Control, writable: bool)
    requires !st.session.closed && !Bridge(st.session)
    ensures HandedOn(st, Queued(Arrive(st, control), control), control, writable)
  {
    hide Close, Arrive, Queued, AllOver, Kept, Keeping;
    ArrivingKeepsSession(st, control);
    ClosingKeepsTrace(Arrive(st, control));
    KeptSession(Arrive(st, control), control);
    QueueingIsExact(Arrive(st, control), control);
  }

  lemma {:induction false} WritingIsExact(st: State, control: Control, writable: bool)
    requires !st.session.closed && Bridge(st.session)
    ensures HandedOn(st, SendToLocal(Arrive(st, control), control, writable), control, writable)
  {
    hide Close, Arrive, Queued;
    ArrivingKeepsSession(st, control);
    ClosingKeepsTrace(Arrive(st, control));
  }

  lemma {:induction false} HandingOn(st: State, control: Control, writable: bool)
    requires !st.session.closed
    ensures HandedOn(st, SendToLocal(Arrive(st, control), control, writable), control, writable)
  {
    hide Close, Arrive, Queued, IsKept, IsWritten, IsDropped;
    ArrivingKeepsSession(st, control);
    if Bridge(st.session) {
      WritingIsExact(st, control, writable);
    } else {
      KeepingIsExact(st, control, writable);
      assert SendToLocal(Arrive(st, control), control, writable) == Queued(Arrive(st, control), control);
    }
  }

  /**
   * A frame over the relay. In the phase that carries it and within its size it is
   * handed on; everything else closes the lease.
   */
  lemma {:induction false} RelayFrameOutcome(st: State, content: Bytes, writable: bool)
    requires !st.session.closed
    ensures var after, control := RelayBinary(st, content, writable), Control(Relay, content, |st.trace.arrived|);
      if ControlSize(content) && RelayPhase(st.session) then HandedOn(st, after, control, writable)
      else after.session.closed && IsDropped(st, after, control)
  {
    hide Close, SendToLocal, HandedOn;
    var control := Control(Relay, content, |st.trace.arrived|);
    HandingOn(st, control, writable);
    ClosingKeepsTrace(Arrive(st, control));
  }

  // ---------------------------------------------------- failure reports

  /** The failure gets a number and the relay socket takes it. */
  predicate CanReport(s: Session, writable: bool) {
    s.attemptId.Some? && s.outgoing <= 1_000_000 && writable
  }

  /** P2P is given up: its sidecar and its queued controls go, all else stays. */
  predicate GivesUpP2P(st: State, after: State) {
    var s, r := st.session, after.session;
    && r.failureReported && r.sidecar.None? && !r.p2pReady && !r.disconnectedTimer && r.pendingCandidates == []
    && r.pendingControls == RelayOnly(s.pendingControls)
    && r.selected == s.selected && r.paired == s.paired && r.recovering == s.recovering
    && r.localSocket == s.localSocket && r.bridged == s.bridged && r.localReady == s.localReady
    && after.trace == st.trace.(signals := st.trace.signals + [Signal(s.outgoing, Failed)])
  }

  /** The lease waits for its recovery: nothing selected, no sidecar, no local socket, nothing queued. */
  predicate Freezes(st: State, after: State) {
    var r := after.session;
    && r.failureReported && r.recovering && !r.paired && r.selected.None? && r.sidecar.None? && !r.p2pReady
    && r.localSocket.None? && !r.bridged && !r.localReady && !r.disconnectedTimer
    && r.pendingControls == [] && r.pendingFrames == []
    && after.trace == st.trace.(received := [], sent := [],
                                signals := st.trace.signals + [Signal(st.session.outgoing, Failed)])
  }

  lemma {:induction false} SignalOutcome(st: State, kind: SignalKind, writable: bool)
    requires !st.session.closed
    ensures var after := SendSignal(st, kind, writable);
      && (after.session.closed <==> !CanReport(st.session, writable))
      && (after.session.closed ==> after.trace == st.trace)
      && (!after.session.closed ==> after == Recorded(st, kind))
  {
    hide Close, Recorded;
    ClosingKeepsTrace(st);
    ClosingKeepsTrace(Taken(st));
    assert Recorded(st, kind).session.closed == st.session.closed by { RecordedIs(st, kind); }
  }

  lemma RecordedIs(st: State, kind: SignalKind)
    ensures Recorded(st, kind).session == st.session.(outgoing := st.session.outgoing + 1)
    ensures Recorded(st, kind).trace == st.trace.(signals := st.trace.signals + [Signal(st.session.outgoing, kind)])
  {}

  lemma {:induction false} InitialFailureOutcome(st: State, writable: bool)
    requires !st.session.closed && st.session.attemptId.Some? && !st.session.failureReported
    ensures var after := ReportInitialFailure(st, writable);
      && (after.session.closed <==> !CanReport(st.session, writable))
      && (after.session.closed ==> after.trace == st.trace)
      && (!after.session.closed ==> GivesUpP2P(st, after))
  {
    hide SendSignal, Recorded, RelayOnly, TotalBytes, Contents;
    assert ReportInitialFailure(st, writable) == SendSignal(Failing(st), Failed, writable);
    SignalOutcome(Failing(st), Failed, writable);
    RecordedIs(Failing(st), Failed);
  }

  lemma {:induction false} ActiveFailureOutcome(st: State, writable: bool)
    requires !st.session.closed && st.session.attemptId.Some? && st.session.selected == Some(P2P)
             && !st.session.recovering
    ensures var after := ReportActiveFailure(st, writable);
      && (after.session.closed <==> !CanReport(st.session, writable))
      && (after.session.closed ==> after.trace == Frozen(st).trace)
      && (!after.session.closed ==> Freezes(st, after))
  {
    hide SendSignal, Recorded;
    assert ReportActiveFailure(st, writable) == SendSignal(Frozen(st), Failed, writable);
    SignalOutcome(Frozen(st), Failed, writable);
    RecordedIs(Frozen(st), Failed);
  }

  // -------------------------------------------- frames from the sidecar

  /** What the invariant says about an attempt whose failure is still to be reported. */
  lemma AttemptFacts(st: State)
    requires Inv(st)
    ensures st.session.sidecar.Some? ==> st.session.attemptId.Some? && !st.session.failureReported
    ensures st.session.selected == Some(P2P) ==> st.session.attemptId.Some? && !st.session.recovering
    ensures st.session.selected.Some? <==> st.session.paired
  {}

  /**
   * A frame from the sidecar. It is handed on in the phase that carries it, closes a
   * lease on the relay, and counts as a failure of P2P otherwise: reported, and
   * closing the lease exactly when it cannot be.
   */
  lemma {:induction false} P2PFrameOutcome(st: State, sidecar: nat, content: Bytes, localWritable: bool,
                                           relayWritable: bool)
    requires Inv(st) && !st.session.closed && st.session.sidecar == Some(sidecar)
    ensures var after, s := SidecarBinary(st, sidecar, content, localWritable, relayWritable), st.session;
      var control := Control(P2P, content, |st.trace.arrived|);
      if ControlSize(content) && P2PPhase(s) then HandedOn(st, after, control, localWritable)
      else if ControlSize(content) && s.paired then after.session.closed && IsDropped(st, after, control)
      else
        && (after.session.closed <==> !CanReport(s, relayWritable))
        && (!after.session.closed ==>
              if s.selected == Some(P2P) then Freezes(Arrive(st, control), after)
              else GivesUpP2P(Arrive(st, control), after))
  {
    hide Inv, Close, SendToLocal, HandedOn, ReportInitialFailure, ReportActiveFailure, Freezes, GivesUpP2P, Arrive;
    var control := Control(P2P, content, |st.trace.arrived|);
    AttemptFacts(st);
    HandingOn(st, control, localWritable);
    ArrivingKeepsSession(st, control);
    ClosingKeepsTrace(Arrive(st, control));
    InitialFailureOutcome(Arrive(st, control), relayWritable);
    if st.session.selected == Some(P2P) {
      ActiveFailureOutcome(Arrive(st, control), relayWritable);
    }
  }

  /** A sidecar that is not, or no longer, the one of this lease is not heard. */
  lemma StaleSidecarIsIgnored(st: State, sidecar: nat, content: Bytes, localWritable: bool, relayWritable: bool)
    requires st.session.sidecar != Some(sidecar)
    ensures SidecarBinary(st, sidecar, content, localWritable, relayWritable) == st
  {}

  // ------------------------------------------- frames from the device

  /** The lease is as it was and the browser's side got this frame. */
  predicate IsSent(st: State, after: State, content: Bytes) {
    && after.session == st.session
    && after.trace == st.trace.(received := st.trace.received + [content], sent := st.trace.sent + [content])
  }

  function Holding(s: Session, content: Bytes): Session {
    s.(pendingFrames := s.pendingFrames + [content], pendingFrameBytes := s.pendingFrameBytes + |content|)
  }

  /** The frame waits as the last one for the relay. */
  predicate IsHeld(st: State, after: State, content: Bytes) {
    && after.session == Holding(st.session, content)
    && after.trace == st.trace.(received := st.trace.received + [content])
  }

  function Held(st: State, content: Bytes): State {
    st.(session := st.session.(pendingFrames := st.session.pendingFrames + [content],
                               pendingFrameBytes := st.session.pendingFrameBytes + |content|))
  }

  lemma ReceivingKeepsSession(st: State, content: Bytes)
    ensures Received(st, content).session == st.session
    ensures Received(st, content).trace == st.trace.(received := st.trace.received + [content])
  {}

  lemma HeldSession(st: State, content: Bytes)
    ensures Held(st, content).session == Holding(st.session, content) && Held(st, content).trace == st.trace
    ensures Held(st, content).session.closed == st.session.closed
  {}

  lemma HoldingIsExact(st: State, content: Bytes)
    ensures QueueFrame(st, content)
         == if st.session.pendingFrameBytes + |content| <= 8_388_608 then Held(st, content) else Close(st)
  {}

  lemma RelayingIsExact(st: State, content: Bytes, writable: bool)
    requires st.session.selected == Some(Relay)
    ensures SendToRelay(st, content, writable)
         == if writable then st.(trace := st.trace.(sent := st.trace.sent + [content])) else Close(st)
  {}

  /** On P2P: the frame goes to the sidecar, or the failure is reported. */
  lemma {:induction false} P2PDeviceFrame(st: State, socket: nat, content: Bytes, accepted: bool, writable: bool)
    requires Inv(st) && !st.session.closed && st.session.localSocket == Some(socket)
    requires st.session.selected == Some(P2P) && |content| <= 4_194_304
    ensures var after, s := LocalBinary(st, socket, content, accepted, writable), st.session;
      if s.sidecar.Some? && content != [] && accepted then IsSent(st, after, content)
      else
        && (after.session.closed <==> !CanReport(s, writable))
        && (!after.session.closed ==> Freezes(Received(st, content), after))
  {
    hide Inv, Close, ReportActiveFailure, Freezes;
    AttemptFacts(st);
    ReceivingKeepsSession(st, content);
    ActiveFailureOutcome(Received(st, content), writable);
  }

  /**
   * A frame from the local socket of an open lease: over 4 MiB it closes the lease,
   * while recovering it is held back within 8 MiB, on the relay it is sent when the
   * relay socket takes it, on P2P it goes to the sidecar or counts as a failure.
   */
  lemma {:induction false} DeviceFrameOutcome(st: State, socket: nat, content: Bytes, accepted: bool, writable: bool)
    requires Inv(st) && !st.session.closed && st.session.localSocket == Some(socket)
    ensures var after, s := LocalBinary(st, socket, content, accepted, writable), st.session;
      if |content| > 4_194_304 then after.session.closed && after.trace == st.trace
      else if s.recovering || s.selected.None? then
        if s.pendingFrameBytes + |content| <= 8_388_608 then IsHeld(st, after, content) else after.session.closed
      else if s.selected == Some(Relay) then
        if writable then IsSent(st, after, content) else after.session.closed
      else if s.sidecar.Some? && content != [] && accepted then IsSent(st, after, content)
      else
        && (after.session.closed <==> !CanReport(s, writable))
        && (!after.session.closed ==> Freezes(Received(st, content), after))
  {
    hide Inv, Close, ReportActiveFailure, Freezes, QueueFrame, SendToRelay, Held, Holding;
    ClosingKeepsTrace(st);
    ClosingKeepsTrace(Received(st, content));
    ReceivingKeepsSession(st, content);
    HoldingIsExact(Received(st, content), content);
    HeldSession(Received(st, content), content);
    if st.session.selected == Some(Relay) {
      RelayingIsExact(Received(st, content), content, writable);
    } else if st.session.selected.Some? && |content| <= 4_194_304 {
      AttemptFacts(st);
      assert st.session.selected.value.P2P?;
      P2PDeviceFrame(st, socket, content, accepted, writable);
    }
  }

  /** A local socket that is not, or no longer, the one of this lease is not heard. */
  lemma StaleSocketIsIgnored(st: State, socket: nat, content: Bytes, accepted: bool, writable: bool)
    requires st.session.localSocket != Some(socket)
    ensures LocalBinary(st, socket, content, accepted, writable) == st
  {}

  // ---------------------------------------------- opening the local socket

  /** How many frames the socket takes before it refuses one. */
  function Leading(count: nat, writable: seq<bool>): (k: nat)
    ensures k <= count
    ensures forall i :: 0 <= i < k ==> At(writable, i)
    ensures k < count ==> !At(writable, k)
  {
    if count == 0 then 0
    else
      var k := Leading(count - 1, writable);
      if k == count - 1 && At(writable, count - 1) then count else k
  }

  function Writes(socket: nat, controls: seq<Control>): (r: seq<Write>) {
    seq(|controls|, i requires 0 <= i < |controls| => Write(socket, controls[i]))
  }

  lemma WritesNext(socket: nat, controls: seq<Control>, control: Control)
    ensures Writes(socket, controls + [control]) == Writes(socket, controls) + [Write(socket, control)]
  {}

  lemma Passing(st: State, control: Control, writable: bool)
    requires !st.session.closed && Bridge(st.session) && st.session.selected == Some(control.transport)
    ensures SendToLocal(st, control, writable)
         == if writable then
              st.(trace := st.trace.(writes := st.trace.writes + [Write(st.session.localSocket.value, control)]))
            else Close(st)
  {}

  /** The queued controls are written in order up to the first one the socket refuses, which closes the lease. */
  lemma {:induction false} FlushOutcome(st: State, pending: seq<Control>, writable: seq<bool>)
    requires !st.session.closed && Bridge(st.session)
    requires forall c :: c in pending ==> st.session.selected == Some(c.transport)
    ensures var after, k := Flush(st, pending, writable), Leading(|pending|, writable);
      && after.trace
         == st.trace.(writes := st.trace.writes + Writes(st.session.localSocket.value, pending[..k]))
      && (after.session.closed <==> k < |pending|)
      && (!after.session.closed ==> after.session == st.session)
    decreases |pending|
  {
    hide Close, SendToLocal, Writes;
    var socket := st.session.localSocket.value;
    if pending == [] {
      assert Writes(socket, []) == [] by { NoWrites(socket); }
    } else {
      var n := |pending| - 1;
      var before, k := Flush(st, pending[..n], writable), Leading(n, writable);
      FlushOutcome(st, pending[..n], writable);
      assert pending[..n][..k] == pending[..k];
      if !before.session.closed {
        Passing(before, pending[n], At(writable, n));
        ClosingKeepsTrace(before);
        WritesNext(socket, pending[..n], pending[n]);
        assert pending[..n] + [pending[n]] == pending[..n + 1];
        assert st.trace.writes + Writes(socket, pending[..n]) + [Write(socket, pending[n])]
            == st.trace.writes + (Writes(socket, pending[..n]) + [Write(socket, pending[n])]);
      }
    }
  }

  lemma NoWrites(socket: nat)
    ensures Writes(socket, []) == []
  {}

  /** Nothing queued for another transport is written. */
  lemma {:induction false} FlushRefuses(st: State, pending: seq<Control>, writable: seq<bool>)
    requires !st.session.closed && Bridge(st.session)
    requires forall c :: c in pending ==> st.session.selected != Some(c.transport)
    ensures Flush(st, pending, writable).trace == st.trace
    ensures Flush(st, pending, writable).session.closed <==> pending != []
    ensures pending == [] ==> Flush(st, pending, writable) == st
    decreases |pending|
  {
    hide Close;
    if pending != [] {
      FlushRefuses(st, pending[..|pending| - 1], writable);
      ClosingKeepsTrace(st);
    }
  }

  /** Frames queued before their transport was selected are refused as a whole. */
  predicate MatchesSelection(s: Session) {
    s.pendingControls == [] || s.selected == Some(s.pendingControls[0].transport)
  }

  function Opening(s: Session): Session {
    s.(bridged := true, localReady := true, pendingControls := [], pendingControlBytes := 0)
  }

  lemma OpeningFacts(st: State)
    ensures Bridged(st) == State(Opening(st.session), st.trace)
    ensures var o, s := Opening(st.session), st.session;
      && o.closed == s.closed && o.selected == s.selected && o.localSocket == s.localSocket
      && o.recovering == s.recovering && o.bridged && o.localReady
  {}

  lemma OneTransportQueued(st: State)
    requires Inv(st)
    ensures var p := st.session.pendingControls; forall c :: c in p ==> c.transport == p[0].transport
  {}

  /**
   * The local socket opens: the queued controls are written in order up to the first
   * refusal. The lease closes exactly when one is refused, when they wait for a
   * transport that is not selected, or when a recovering lease cannot report.
   */
  lemma {:induction false} LocalOpenedOutcome(st: State, socket: nat, writable: seq<bool>, relayWritable: bool)
    requires Inv(st) && !st.session.closed && st.session.localSocket == Some(socket)
    ensures var after, s := LocalOpened(st, socket, writable, relayWritable), st.session;
      var k := if MatchesSelection(s) then Leading(|s.pendingControls|, writable) else 0;
      && after.trace == st.trace.(writes := st.trace.writes + Writes(socket, s.pendingControls[..k]))
      && (after.session.closed <==> k < |s.pendingControls| || (s.recovering && !relayWritable))
      && (!after.session.closed ==> after.session == Opening(s))
  {
    hide Inv, Close, Flush, Bridged, Opening, Writes;
    var s, bridged := st.session, State(Opening(st.session), st.trace);
    OneTransportQueued(st);
    OpeningFacts(st);
    if MatchesSelection(s) {
      FlushOutcome(bridged, s.pendingControls, writable);
    } else {
      FlushRefuses(bridged, s.pendingControls, writable);
      NoWrites(socket);
      assert st.trace.writes + [] == st.trace.writes;
    }
    ClosingKeepsTrace(Flush(bridged, s.pendingControls, writable));
  }
}
