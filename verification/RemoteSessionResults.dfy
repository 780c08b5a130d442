/** The guarantees of a remote-control lease over every run of its callbacks. */
module RemoteSessionResults {
  import opened Common
  import opened RemoteSession
  import opened RemoteSessionSafety

  // ---------------------------------------------------- nothing is dropped

  function Written(writes: seq<Write>): seq<Control> {
    seq(|writes|, i requires 0 <= i < |writes| => writes[i].control)
  }

  /** Until a failure is reported every control that arrived is written or queued. */
  ghost predicate Complete(st: State) {
    !st.session.closed && !st.session.failureReported
    ==> Written(st.trace.writes) + st.session.pendingControls == st.trace.arrived
  }

  /** No control moved, or the lease is past the point where `Complete` promises anything. */
  predicate Unmoved(st: State, after: State) {
    || after.session.closed
    || after.session.failureReported
    || (!st.session.closed && !st.session.failureReported && after.trace.arrived == st.trace.arrived
        && after.trace.writes == st.trace.writes && after.session.pendingControls == st.session.pendingControls)
  }

  lemma {:induction false} SignalMovesNothing(st: State, kind: SignalKind, writable: bool)
    ensures Unmoved(st, SendSignal(st, kind, writable))
  {
    hide Close, MAX_SEQUENCE;
    CloseFacts(st);
    CloseFacts(Taken(st));
  }

  lemma {:induction false} CandidatesMoveNothing(st: State, count: nat, writable: seq<bool>)
    ensures Unmoved(st, SendCandidates(st, count, writable))
    decreases count
  {
    hide SendSignal;
    if count != 0 {
      CandidatesMoveNothing(st, count - 1, writable);
      SignalMovesNothing(SendCandidates(st, count - 1, writable), Candidate, At(writable, count));
    }
  }

  lemma {:induction false} FailureMovesNothing(st: State, writable: bool)
    ensures Unmoved(st, ReportInitialFailure(st, writable))
    ensures Unmoved(st, ReportActiveFailure(st, writable))
    ensures !st.session.failureReported && st.session.attemptId.Some?
            ==> ReportInitialFailure(st, writable).session.closed
                || ReportInitialFailure(st, writable).session.failureReported
    ensures !st.session.recovering && st.session.selected == Some(P2P)
            ==> ReportActiveFailure(st, writable).session.closed
                || ReportActiveFailure(st, writable).session.failureReported
  {
    hide SendSignal, RelayOnly, TotalBytes;
    SignalMovesNothing(Failing(st), Failed, writable);
    SignalMovesNothing(Frozen(st), Failed, writable);
  }

  lemma WrittenAppended(writes: seq<Write>, w: Write)
    ensures Written(writes + [w]) == Written(writes) + [w.control]
  {}

  lemma {:induction false} SentToLocalIsComplete(st: State, control: Control, writable: bool)
    requires Complete(st) && (st.session.bridged && st.session.localReady ==> st.session.pendingControls == [])
    ensures Complete(SendToLocal(Arrive(st, control), control, writable))
  {
    hide TotalBytes, Close, Written, OtherTransportQueued;
    var seen := Arrive(st, control);
    CloseFacts(seen);
    if st.session.localSocket.Some? {
      WrittenAppended(st.trace.writes, Write(st.session.localSocket.value, control));
    }
    assert (Written(st.trace.writes) + st.session.pendingControls) + [control]
        == Written(st.trace.writes) + (st.session.pendingControls + [control]);
  }

  lemma {:induction false} FlushIsComplete(st: State, pending: seq<Control>, writable: seq<bool>)
    requires OpenBridge(st.session)
    ensures var after := Flush(st, pending, writable);
            after.session.closed
            || (OpenBridge(after.session) && after.trace.arrived == st.trace.arrived && after.session == st.session
                && Written(after.trace.writes) == Written(st.trace.writes) + pending)
    decreases |pending|
  {
    hide Written, Close, OtherTransportQueued, TotalBytes;
    if pending != [] {
      var n := |pending| - 1;
      FlushIsComplete(st, pending[..n], writable);
      var before := Flush(st, pending[..n], writable);
      CloseFacts(before);
      assert pending == pending[..n] + [pending[n]];
      if before.session.localSocket.Some? {
        WrittenAppended(before.trace.writes, Write(before.session.localSocket.value, pending[n]));
      }
    }
  }

  lemma OpenBridgeIsEmpty(st: State)
    requires Inv(st)
    ensures st.session.bridged && st.session.localReady ==> st.session.pendingControls == []
    ensures st.session.sidecar.Some? ==> !st.session.failureReported && st.session.attemptId.Some?
    ensures st.session.selected == Some(P2P) ==> !st.session.recovering
    ensures st.session.attemptId.None? ==> !st.session.failureReported
  {}

  lemma {:induction false} RelayBinaryIsComplete(st: State, content: Bytes, writable: bool)
    requires Inv(st) && Complete(st)
    ensures Complete(RelayBinary(st, content, writable))
  {
    hide Inv, SendToLocal, Close, Written;
    OpenBridgeIsEmpty(st);
    var control := NextControl(st, Relay, content);
    SentToLocalIsComplete(st, control, writable);
    CloseFacts(Arrive(st, control));
  }

  lemma {:induction false} SidecarBinaryIsComplete(st: State, sidecar: nat, content: Bytes, localWritable: bool,
                                                   writable: bool)
    requires Inv(st) && Complete(st)
    ensures Complete(SidecarBinary(st, sidecar, content, localWritable, writable))
  {
    hide Inv, SendToLocal, Close, ReportInitialFailure, ReportActiveFailure, Written;
    OpenBridgeIsEmpty(st);
    var control := NextControl(st, P2P, content);
    SentToLocalIsComplete(st, control, localWritable);
    CloseFacts(Arrive(st, control));
    FailureMovesNothing(Arrive(st, control), writable);
  }

  lemma {:induction false} OpenedIsComplete(st: State, socket: nat, localWritable: seq<bool>, relayWritable: bool)
    requires Complete(st)
    ensures Complete(LocalOpened(st, socket, localWritable, relayWritable))
  {
    hide Flush, Written, Close;
    var s := st.session;
    if !(s.closed || s.localSocket != Some(socket)) {
      var bridge :=
        st.(session := s.(bridged := true, localReady := true, pendingControls := [], pendingControlBytes := 0));
      FlushIsComplete(bridge, s.pendingControls, localWritable);
      CloseFacts(Flush(bridge, s.pendingControls, localWritable));
    }
  }

  lemma {:induction false} LocalBinaryMovesNothing(st: State, socket: nat, content: Bytes, accepted: bool,
                                                   writable: bool)
    ensures Unmoved(st, LocalBinary(st, socket, content, accepted, writable))
  {
    hide Close, ReportActiveFailure, DEVICE_FRAME_MAX, PENDING_DEVICE_MAX;
    CloseFacts(st);
    CloseFacts(Received(st, content));
    FailureMovesNothing(Received(st, content), writable);
  }

  lemma {:induction false} DescriptionMovesNothing(st: State, sidecar: nat, writable: seq<bool>)
    ensures Unmoved(st, LocalDescription(st, sidecar, writable))
  {
    hide SendSignal, SendCandidates;
    var answered := SendSignal(st, Answer, At(writable, 0));
    SignalMovesNothing(st, Answer, At(writable, 0));
    CandidatesMoveNothing(Answered(answered), |answered.session.pendingCandidates|, writable);
  }

  lemma {:induction false} CandidateMovesNothing(st: State, sidecar: nat, candidate: string, writable: bool)
    ensures Unmoved(st, LocalCandidate(st, sidecar, candidate, writable))
  {
    hide SendSignal, ReportInitialFailure;
    SignalMovesNothing(st, Candidate, writable);
    FailureMovesNothing(st, writable);
  }

  lemma {:induction false} StateMovesNothing(st: State, sidecar: nat, state: SidecarState, writable: bool)
    ensures Unmoved(st, SidecarChanged(st, sidecar, state, writable))
  {
    hide SendSignal, ReportInitialFailure, ReportActiveFailure;
    var ready := st.session.(disconnectedTimer := false, p2pReady := true, readyReported := true);
    SignalMovesNothing(st.(session := ready), Ready, writable);
    FailureMovesNothing(st, writable);
  }

  lemma {:induction false} TimeoutMovesNothing(st: State, writable: bool)
    ensures Unmoved(st, DisconnectTimeout(st, writable))
  {
    hide ReportInitialFailure, ReportActiveFailure;
    FailureMovesNothing(st.(session := st.session.(disconnectedTimer := false)), writable);
  }

  lemma {:induction false} StartMovesNothing(st: State, attemptId: string, creation: Creation, writable: bool)
    requires Inv(st)
    ensures Unmoved(st, StartP2P(st, attemptId, creation, writable))
  {
    hide Inv, Close, ReportInitialFailure;
    CloseFacts(st);
    OpenBridgeIsEmpty(st);
    var attempt := NewAttempt(st.session, attemptId);
    FailureMovesNothing(st.(session := attempt), writable);
    FailureMovesNothing(State(attempt.(sidecar := Some(st.trace.sidecarsStarted)),
                              st.trace.(sidecarsStarted := st.trace.sidecarsStarted + 1)), writable);
  }

  lemma {:induction false} RemoteSignalMovesNothing(st: State, attemptId: string, sequence: nat, isOffer: bool,
                                                    usable: bool, applies: bool, writable: bool)
    ensures Unmoved(st, RemoteSignal(st, attemptId, sequence, isOffer, usable, applies, writable))
  {
    hide Close, ReportInitialFailure;
    CloseFacts(st);
    FailureMovesNothing(Counted(st), writable);
    FailureMovesNothing(Handed(st, Applied(sequence, isOffer)), writable);
  }

  lemma SelectionFacts(t: Trace, transport: Transport)
    ensures Selection(t, transport).writes == t.writes && Selection(t, transport).arrived == t.arrived
  {}

  lemma ConnectMovesNothing(st: State)
    ensures Unmoved(st, ConnectLocal(st))
  {}

  lemma {:induction false} ChosenMovesNothing(st: State, transport: Transport)
    ensures Unmoved(st, ConnectLocal(Chosen(st, transport)))
  {
    hide Selection, ConnectLocal;
    SelectionFacts(st.trace, transport);
    ConnectMovesNothing(Chosen(st, transport));
  }

  lemma {:induction false} SelectionMovesNothing(st: State, transport: Transport, expiresAt: int, now: int)
    ensures Unmoved(st, SelectInitial(st, transport, expiresAt, now))
  {
    hide Close, Chosen, OtherTransportQueued, ConnectLocal;
    CloseFacts(st);
    ChosenMovesNothing(st.(session := st.session.(expiresAt := expiresAt)), transport);
  }

  lemma {:induction false} RequestMovesNothing(st: State, writable: bool)
    ensures Unmoved(st, RecoveryRequested(st, writable))
  {
    hide Close, ReportActiveFailure;
    CloseFacts(ReportActiveFailure(st, writable));
    FailureMovesNothing(st, writable);
  }

  lemma {:induction false} CommitMovesNothing(st: State, writable: seq<bool>)
    ensures Unmoved(st, RecoveryCommitted(st, writable))
  {
    hide Close, SendAllToRelay, Selection;
    CloseFacts(st);
    SelectionFacts(st.trace, Relay);
    SendAllMovesNothing(Drained(st), st.session.pendingFrames, writable);
  }

  lemma {:induction false} SendAllMovesNothing(st: State, frames: seq<Bytes>, writable: seq<bool>)
    ensures Unmoved(st, SendAllToRelay(st, frames, writable))
  {
    hide Close;
    SendingFacts(st, frames, writable);
    CloseFacts(st);
  }

  lemma {:induction false} SendingFacts(st: State, frames: seq<Bytes>, writable: seq<bool>)
    ensures var after := SendAllToRelay(st, frames, writable);
            && after.trace == st.trace.(sent := after.trace.sent)
            && (after.session == st.session || after.session == Close(st).session)
    decreases |frames|
  {
    if frames != [] {
      SendingFacts(st, frames[..|frames| - 1], writable);
    }
  }

  lemma {:induction false} TextMovesNothing(st: State, text: RelayText, env: Env)
    requires Inv(st)
    ensures Unmoved(st, RelayTextReceived(st, text, env))
  {
    hide Inv, Close, Unmoved, SelectInitial, StartP2P, RemoteSignal, RecoveryRequested, RecoveryCommitted;
    var writable := At(env.relay, 0);
    ClosedOrUnmoved(st);
    match text
    case ReadyFrame(transport, expiresAt) => SelectionMovesNothing(st, transport, expiresAt, env.now);
    case StartFrame(attemptId, deadlineAt) => StartMovesNothing(st, attemptId, env.creation, writable);
    case SignalFrame(attemptId, sequence, isOffer, usable) =>
      RemoteSignalMovesNothing(st, attemptId, sequence, isOffer, usable, env.applies, writable);
    case RecoveringFrame => RequestMovesNothing(st, writable);
    case RecoveredFrame => CommitMovesNothing(st, env.relay);
    case Unparsable =>
    case ErrorOrClosed =>
  }

  lemma {:induction false} ClosedOrUnmoved(st: State)
    ensures Unmoved(st, Close(st)) && Unmoved(st, st)
  {
    hide Close;
    CloseFacts(st);
  }

  lemma {:induction false} OpenOrStopMovesNothing(st: State, version: Option<Protocol>, now: int, socket: nat)
    ensures Unmoved(st, RelayOpened(st, version, now)) && Unmoved(st, LocalStopping(st, socket))
  {
    hide Close;
    CloseFacts(st);
  }

  lemma UnmovedIsComplete(st: State, after: State)
    requires Complete(st) && Unmoved(st, after)
    ensures Complete(after)
  {}

  lemma {:induction false} StepIsComplete(st: State, step: Step)
    requires Inv(st) && Complete(st)
    ensures Complete(After(st, step))
  {
    hide Inv, Complete, Unmoved, RelayOpened, RelayBinary, RelayTextReceived, LocalOpened, LocalBinary, LocalStopping,
      LocalDescription, LocalCandidate, SidecarChanged, SidecarBinary, DisconnectTimeout, Close;
    var env := step.env;
    var writable := At(env.relay, 0);
    match step.event
    case OnRelayBinary(content) => RelayBinaryIsComplete(st, content, At(env.local, 0));
    case OnSidecarBinary(sidecar, content) => SidecarBinaryIsComplete(st, sidecar, content, At(env.local, 0), writable);
    case OnLocalOpened(socket) => OpenedIsComplete(st, socket, env.local, writable);
    case OnRelayOpened(version) =>
      OpenOrStopMovesNothing(st, version, env.now, 0);
      UnmovedIsComplete(st, After(st, step));
    case OnLocalStopping(socket) => OpenOrStopMovesNothing(st, None, 0, socket); UnmovedIsComplete(st, After(st, step));
    case OnRelayText(text) => TextMovesNothing(st, text, env); UnmovedIsComplete(st, After(st, step));
    case OnLocalBinary(socket, content) =>
      LocalBinaryMovesNothing(st, socket, content, env.accepted, writable);
      UnmovedIsComplete(st, After(st, step));
    case OnSidecarDescription(sidecar) =>
      DescriptionMovesNothing(st, sidecar, env.relay);
      UnmovedIsComplete(st, After(st, step));
    case OnSidecarCandidate(sidecar, candidate) =>
      CandidateMovesNothing(st, sidecar, candidate, writable);
      UnmovedIsComplete(st, After(st, step));
    case OnSidecarState(sidecar, state) =>
      StateMovesNothing(st, sidecar, state, writable);
      UnmovedIsComplete(st, After(st, step));
    case OnDisconnectTimeout => TimeoutMovesNothing(st, writable); UnmovedIsComplete(st, After(st, step));
    case OnClose => ClosedOrUnmoved(st); UnmovedIsComplete(st, After(st, step));
  }

  // ------------------------------------------------------------- theorems

  /** Each socket carries one transport, the relay alone once it took over; the queue holds one transport. */
  ghost predicate ControlsInOrder(st: State) {
    var writes, pending, relayFrom := st.trace.writes, st.session.pendingControls, st.trace.relayFrom;
    && (forall w :: w in writes ==> w.control in st.trace.arrived)
    && (forall i, j :: 0 <= i < j < |writes| ==> writes[i].control.arrival < writes[j].control.arrival)
    && (forall v, w :: v in writes && w in writes && v.socket == w.socket
                       ==> v.control.transport == w.control.transport)
    && (relayFrom.Some? ==> forall i :: relayFrom.value <= i < |writes| ==> writes[i].control.transport == Relay)
    && (forall c, d :: c in pending && d in pending ==> c.transport == d.transport)
    && st.session.pendingControlBytes == TotalBytes(Contents(pending)) <= PENDING_CONTROL_MAX
  }

  /**
   * Frames of the current local socket: while the lease is open those sent, then
   * those queued for the relay; of a closed lease those sent, in their order.
   */
  predicate FramesFifo(st: State) {
    && (!st.session.closed ==> st.trace.received == st.trace.sent + st.session.pendingFrames)
    && Subsequence(st.trace.sent, st.trace.received)
    && (st.session.pendingFrames != [] ==> st.session.recovering)
    && st.session.pendingFrameBytes == TotalBytes(st.session.pendingFrames) <= PENDING_DEVICE_MAX
  }

  predicate SwitchedOnce(st: State) {
    && LegalHistory(st.trace.transports)
    && st.trace.sidecarsStarted <= 1
    && (st.session.selected == Some(Relay) ==> st.trace.transports == [Relay] || st.trace.transports == [P2P, Relay])
    && (st.session.selected == Some(P2P) ==> st.trace.transports == [P2P])
  }

  /**
   * Rising numbers, without a gap and with no candidate before the answer while the
   * lease is open; after a state only a failure; the sidecar sees one offer first.
   */
  ghost predicate SignalingOrdered(st: State) {
    var t := st.trace;
    && (forall i, j :: 0 <= i < j < |t.signals| ==> t.signals[i].sequence < t.signals[j].sequence)
    && (!st.session.closed ==> SignalsComplete(t.signals))
    && (forall i, j :: 0 <= i < j < |t.signals| && t.signals[i].kind in {Ready, Failed} ==> t.signals[j].kind == Failed)
    && (forall i :: 0 <= i < |t.applied| ==> t.applied[i].sequence == i && (t.applied[i].isOffer <==> i == 0))
  }

  /** Control frames: one transport per socket, in order, nothing from P2P after the relay took over. */
  lemma {:induction false} ControlsKeepTheirTransportAndOrder(expiresAt: int, steps: seq<Step>)
    ensures ControlsInOrder(Run(Open(expiresAt), steps))
  {
    hide Run;
    RunKeepsInv(expiresAt, steps);
  }

  /** No loss: while the lease is open and reported no failure, what arrived is what was written plus what is queued. */
  lemma {:induction false} NoControlIsLost(expiresAt: int, steps: seq<Step>)
    ensures Complete(Run(Open(expiresAt), steps))
    decreases |steps|
  {
    hide After, Inv;
    if steps != [] {
      NoControlIsLost(expiresAt, steps[..|steps| - 1]);
      RunKeepsInv(expiresAt, steps[..|steps| - 1]);
      StepIsComplete(Run(Open(expiresAt), steps[..|steps| - 1]), steps[|steps| - 1]);
    }
  }

  /** Device frames of the current local socket: FIFO across the switch to the relay. */
  lemma {:induction false} DeviceFramesAreFifo(expiresAt: int, steps: seq<Step>)
    ensures FramesFifo(Run(Open(expiresAt), steps))
  {
    hide Run;
    RunKeepsInv(expiresAt, steps);
    var st := Run(Open(expiresAt), steps);
    PrefixIsSubsequence(st.trace.sent, st.session.pendingFrames);
  }

  /** At most one switch, from P2P to the relay, and at most one sidecar. */
  lemma {:induction false} TransportSwitchesOnce(expiresAt: int, steps: seq<Step>)
    ensures SwitchedOnce(Run(Open(expiresAt), steps))
  {
    hide Run;
    RunKeepsInv(expiresAt, steps);
    assert Relay !in [P2P];
  }

  /** Outgoing signals are numbered without gaps and ordered; the sidecar sees one offer and then candidates. */
  lemma {:induction false} SignalingIsOrdered(expiresAt: int, steps: seq<Step>)
    ensures SignalingOrdered(Run(Open(expiresAt), steps))
  {
    hide Run;
    RunKeepsInv(expiresAt, steps);
    var signals := Run(Open(expiresAt), steps).trace.signals;
    forall i, j | 0 <= i < j < |signals| && signals[i].kind in {Ready, Failed}
      ensures signals[j].kind == Failed
    {
      assert signals[..j][i] == signals[i];
      assert Sent(signals[..j], signals[i].kind);
    }
  }

  /**
   * Why the lease has to be open: an answer that the relay socket refuses closes
   * it, a candidate kept back goes out all the same, without the answer and behind
   * a gap.
   */
  lemma {:induction false} CandidateWithoutAnswer(st: State, sidecar: nat, candidate: string)
    requires Negotiating(st.session, sidecar) && st.session.attemptId.Some? && st.session.outgoing < MAX_SEQUENCE
    requires st.session.pendingCandidates == [candidate]
    ensures var after := LocalDescription(st, sidecar, [false, true]);
      && after.session.closed
      && after.trace.signals == st.trace.signals + [Signal(st.session.outgoing + 1, Candidate)]
  {
    var answered := Close(Taken(st));
    assert SendSignal(st, Answer, At([false, true], 0)) == answered;
    assert SendCandidates(Answered(answered), 0, [false, true]) == Answered(answered);
    assert SendCandidates(Answered(answered), 1, [false, true]) == Recorded(Answered(answered), Candidate);
  }
}
