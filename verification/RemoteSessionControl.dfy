/**
 * The control plane of a lease: what each message of the relay, each callback of
 * the sidecar and the disconnection timer do to an open lease, case by case.
 */
module RemoteSessionControl {
  import opened Common
  import opened RemoteSession
  import opened RemoteSessionData
  import opened RemoteSessionSafety

  /** The lease is over; nothing was sent, written or handed on. */
  predicate Ends(st: State, after: State) {
    after.session.closed && after.trace == st.trace
  }

  // --------------------------------------------------------- relay messages

  /** The relay speaks a known protocol and the lease has time left, or the lease is over. */
  lemma {:induction false} RelayOpenedIff(st: State, version: Option<Protocol>, now: int)
    requires !st.session.closed
    ensures var after := RelayOpened(st, version, now);
      if version.Some? && now < st.session.expiresAt then
        after.session == st.session.(protocolVersion := version) && after.trace == st.trace
      else Ends(st, after)
  {
    hide Close;
    ClosingKeepsTrace(st);
  }

  /** The messages that each version of the protocol has. */
  predicate Expects(version: Protocol, text: RelayText) {
    match version
    case V1 => text.ReadyFrame? && text.transport == Relay
    case V2 => !text.Unparsable? && !text.ErrorOrClosed?
  }

  /** A message that the protocol does not have ends the lease; so do errors, and a start outside the lease's time. */
  lemma {:induction false} TextOutcome(st: State, text: RelayText, env: Env)
    requires !st.session.closed
    ensures var after, s := RelayTextReceived(st, text, env), st.session;
      if s.protocolVersion.None? || !Expects(s.protocolVersion.value, text) then Ends(st, after)
      else
        match text
        case ReadyFrame(transport, expiresAt) => after == SelectInitial(st, transport, expiresAt, env.now)
        case StartFrame(attemptId, deadlineAt) =>
          if env.now < deadlineAt <= s.expiresAt then after == StartP2P(st, attemptId, env.creation, At(env.relay, 0))
          else Ends(st, after)
        case SignalFrame(attemptId, sequence, isOffer, usable) =>
          after == RemoteSignal(st, attemptId, sequence, isOffer, usable, env.applies, At(env.relay, 0))
        case RecoveringFrame => after == RecoveryRequested(st, At(env.relay, 0))
        case RecoveredFrame => after == RecoveryCommitted(st, env.relay)
        case _ => false
  {
    hide Close, SelectInitial, StartP2P, RemoteSignal, RecoveryRequested, RecoveryCommitted;
    ClosingKeepsTrace(st);
  }

  // ------------------------------------------------------------ an attempt

  /** The only attempt of a lease, with a sidecar, or without one and its failure reported as signal 0. */
  lemma {:induction false} StartOutcome(st: State, attempt: string, creation: Creation, writable: bool)
    requires !st.session.closed
    ensures var after, s, t := StartP2P(st, attempt, creation, writable), st.session, st.trace;
      if s.attemptId.Some? || s.sidecar.Some? || s.paired then Ends(st, after)
      else if creation.Started? then
        && after.session.sidecar == Some(t.sidecarsStarted) && after.session.attemptId == Some(attempt)
        && !after.session.closed && !after.session.failureReported && !after.session.readyReported
        && !after.session.p2pReady && !after.session.answerSent
        && after.session.incoming == after.session.outgoing == 0 && after.session.pendingCandidates == []
        && after.trace == t.(sidecarsStarted := t.sidecarsStarted + 1)
      else
        && (after.session.closed <==> !writable)
        && (writable ==>
              && after.session.failureReported && after.session.sidecar.None?
              && after.session.attemptId == Some(attempt)
              && after.trace.signals == t.signals + [Signal(0, Failed)])
  {
    hide Close, ReportInitialFailure, RelayOnly;
    ClosingKeepsTrace(st);
    var attempted := st.(session := NewAttempt(st.session, attempt));
    var created := State(attempted.session.(sidecar := Some(st.trace.sidecarsStarted)),
                         st.trace.(sidecarsStarted := st.trace.sidecarsStarted + 1));
    FailedStart(attempted, attempt, writable);
    FailedStart(created, attempt, writable);
  }

  lemma {:induction false} FailedStart(st: State, attempt: string, writable: bool)
    requires !st.session.closed && st.session.attemptId == Some(attempt) && !st.session.failureReported
    requires st.session.outgoing == 0
    ensures var after := ReportInitialFailure(st, writable);
      && (after.session.closed <==> !writable)
      && (writable ==>
            && after.session.failureReported && after.session.sidecar.None? && after.session.attemptId == Some(attempt)
            && after.trace.signals == st.trace.signals + [Signal(0, Failed)])
  {
    hide ReportInitialFailure, RelayOnly, SendSignal;
    InitialFailureOutcome(st, writable);
    AttemptStays(st, writable);
  }

  lemma {:induction false} AttemptStays(st: State, writable: bool)
    ensures ReportInitialFailure(st, writable).session.attemptId == st.session.attemptId
  {
    hide RelayOnly, TotalBytes, Contents, SendSignal, Recorded;
    if !st.session.failureReported && st.session.attemptId.Some? {
      assert ReportInitialFailure(st, writable) == SendSignal(Failing(st), Failed, writable);
      SignalOrClosed(Failing(st), Failed, writable);
    }
  }

  /** One candidate of the sidecar: sent behind the answer, kept back before it up to 128, else a failure. */
  lemma {:induction false} CandidateOutcome(st: State, sidecar: nat, candidate: string, writable: bool)
    requires Inv(st) && !st.session.closed && st.session.sidecar == Some(sidecar)
    requires !st.session.readyReported && !st.session.failureReported
    ensures var after, s := LocalCandidate(st, sidecar, candidate, writable), st.session;
      if s.answerSent then
        && (after.session.closed <==> !CanReport(s, writable))
        && (!after.session.closed ==>
              && after.session == s.(outgoing := s.outgoing + 1)
              && after.trace == st.trace.(signals := st.trace.signals + [Signal(s.outgoing, Candidate)]))
      else if |s.pendingCandidates| < 128 then
        && after.session == s.(pendingCandidates := s.pendingCandidates + [candidate]) && after.trace == st.trace
      else
        && (after.session.closed <==> !CanReport(s, writable))
        && (!after.session.closed ==> GivesUpP2P(st, after))
  {
    hide Inv, SendSignal, Recorded, ReportInitialFailure, GivesUpP2P;
    AttemptFacts(st);
    SignalOutcome(st, Candidate, writable);
    RecordedIs(st, Candidate);
    InitialFailureOutcome(st, writable);
  }

  // -------------------------------------------- states and their absence

  /** Ready: noted, the timer stopped, and reported once while nothing is selected. */
  lemma {:induction false} ReadyOutcome(st: State, sidecar: nat, writable: bool)
    requires Inv(st) && !st.session.closed && st.session.sidecar == Some(sidecar)
    ensures var after, s := SidecarChanged(st, sidecar, SidecarReady, writable), st.session;
      var ready := s.(disconnectedTimer := false, p2pReady := true);
      if s.paired || s.readyReported then after.session == ready && after.trace == st.trace
      else
        && (after.session.closed <==> !CanReport(s, writable))
        && (!after.session.closed ==>
              && after.session == ready.(readyReported := true, outgoing := s.outgoing + 1)
              && after.trace == st.trace.(signals := st.trace.signals + [Signal(s.outgoing, Ready)]))
  {
    hide Inv, SendSignal, Recorded;
    AttemptFacts(st);
    var reported :=
      st.(session := st.session.(disconnectedTimer := false, p2pReady := true, readyReported := true));
    SignalOutcome(reported, Ready, writable);
    RecordedIs(reported, Ready);
  }

  /** Disconnected: the timer runs on the P2P path, and between the report and the selection. */
  lemma {:induction false} DisconnectedOutcome(st: State, sidecar: nat, writable: bool)
    requires Inv(st) && !st.session.closed && st.session.sidecar == Some(sidecar)
    ensures var after, s := SidecarChanged(st, sidecar, Disconnected, writable), st.session;
      && after.trace == st.trace
      && after.session == s.(disconnectedTimer :=
           s.disconnectedTimer || s.selected == Some(P2P) || (!s.paired && s.readyReported))
  {
    hide Inv;
    AttemptFacts(st);
  }

  /** Failed or closed: on the P2P path the lease waits for its recovery, before a selection P2P is given up. */
  lemma {:induction false} GoneOutcome(st: State, sidecar: nat, writable: bool)
    requires Inv(st) && !st.session.closed && st.session.sidecar == Some(sidecar)
    ensures var after, s := SidecarChanged(st, sidecar, Gone, writable), st.session;
      if s.selected == Some(Relay) then after == st
      else
        && (after.session.closed <==> !CanReport(s, writable))
        && (!after.session.closed ==> if s.selected == Some(P2P) then Freezes(st, after) else GivesUpP2P(st, after))
  {
    hide Inv, ReportInitialFailure, ReportActiveFailure, Freezes, GivesUpP2P;
    AttemptFacts(st);
    InitialFailureOutcome(st, writable);
    assert st.session.selected.Some? ==> st.session.selected.value.Relay? || st.session.selected.value.P2P?;
    if st.session.selected == Some(P2P) {
      ActiveFailureOutcome(st, writable);
    }
  }

  /** The timer: the same, for a sidecar that stayed away; it finds nothing to do once the relay was selected. */
  lemma {:induction false} TimeoutOutcome(st: State, writable: bool)
    requires Inv(st) && !st.session.closed && st.session.disconnectedTimer
    ensures var after, s := DisconnectTimeout(st, writable), st.session;
      var fired := st.(session := s.(disconnectedTimer := false));
      if s.selected == Some(P2P) then
        && (after.session.closed <==> !CanReport(s, writable))
        && (!after.session.closed ==> Freezes(st, after))
      else if !s.paired && s.readyReported && !s.failureReported then
        && (after.session.closed <==> !CanReport(s, writable) && s.attemptId.Some?)
        && (!after.session.closed && s.attemptId.Some? ==> GivesUpP2P(st, after))
      else after == fired
  {
    hide Inv, ReportInitialFailure, ReportActiveFailure, RelayOnly;
    AttemptFacts(st);
    var fired := st.(session := st.session.(disconnectedTimer := false));
    if st.session.selected == Some(P2P) {
      ActiveFailureOutcome(fired, writable);
    } else if st.session.attemptId.Some? && !st.session.failureReported {
      InitialFailureOutcome(fired, writable);
    } else if st.session.attemptId.None? {
      assert ReportInitialFailure(fired, writable) == fired by { NothingToReport(fired, writable); }
    }
  }

  lemma NothingToReport(st: State, writable: bool)
    requires st.session.attemptId.None? || st.session.failureReported
    ensures ReportInitialFailure(st, writable) == st
  {}

  /** A candidate that comes after the failure was reported is counted and dropped. */
  lemma {:induction false} LateSignalIsCounted(st: State, attempt: string, number: nat, isOffer: bool, usable: bool,
                                               applies: bool, writable: bool)
    requires !st.session.closed && st.session.sidecar.None?
    ensures var after, s := RemoteSignal(st, attempt, number, isOffer, usable, applies, writable), st.session;
      if s.failureReported && !s.p2pReady && s.attemptId == Some(attempt) && number == s.incoming && !isOffer then
        after.session == s.(incoming := s.incoming + 1) && after.trace == st.trace
      else Ends(st, after)
  {
    hide Close;
    ClosingKeepsTrace(st);
  }

  // --------------------------------------- waiting for a recovery at once

  /** P2P was reported ready, then failed, and is selected: the lease waits for the recovery with nothing selected. */
  lemma {:induction false} SelectionAwaits(st: State, until: int, now: int)
    requires var s := st.session; !s.closed && !s.paired && !s.awaitingRecovery && s.readyReported && s.failureReported
    requires !(st.session.p2pReady && st.session.sidecar.Some?)
    requires now < until <= st.session.expiresAt && AllOver(st.session.pendingControls, P2P)
    ensures var after := SelectInitial(st, P2P, until, now);
      && after.session == st.session.(expiresAt := until, awaitingRecovery := true) && after.trace == st.trace
  {
    hide ConnectLocal, Chosen, Close;
    assert !OtherTransportQueued(st.session.pendingControls, P2P);
  }

  /** The request for it opens the local socket; nothing is reported a second time. */
  lemma {:induction false} AwaitedRecoveryStarts(st: State, writable: bool)
    requires !st.session.closed && st.session.awaitingRecovery && st.session.localSocket.None?
    ensures var after, t := RecoveryRequested(st, writable), st.trace;
      && after.session == st.session.(awaitingRecovery := false, recovering := true, localReady := false,
                                      localSocket := Some(t.sockets))
      && after.trace == t.(sockets := t.sockets + 1, received := [], sent := [])
  {}

  /** A request on a lease that is neither on P2P nor recovering ends it, and so does an early commit. */
  lemma {:induction false} UnexpectedRecoveryEnds(st: State, writable: seq<bool>)
    requires !st.session.closed
    ensures !st.session.awaitingRecovery && !st.session.recovering && st.session.selected != Some(P2P) ==>
      Ends(st, RecoveryRequested(st, At(writable, 0)))
    ensures !(st.session.recovering && st.session.bridged && st.session.localSocket.Some?) ==>
      Ends(st, RecoveryCommitted(st, writable))
  {
    hide Close, Drained, SendAllToRelay, ConnectLocal;
    ClosingKeepsTrace(st);
  }

  /** A local socket that is closing takes no more controls; the next ones wait. */
  lemma {:induction false} StoppingHoldsControls(st: State, socket: nat, content: Bytes, writable: bool)
    requires Carries(st.session, Relay) && ControlSize(content)
    requires st.session.pendingControls == [] && st.session.pendingControlBytes == 0
    requires st.session.localSocket == Some(socket)
    ensures var stopping := LocalStopping(st, socket);
      && stopping == st.(session := st.session.(localReady := false))
      && IsKept(stopping, RelayBinary(stopping, content, writable), Control(Relay, content, |st.trace.arrived|))
  {
    hide RelayBinary, IsKept, IsWritten;
    RelayFrameOutcome(LocalStopping(st, socket), content, writable);
  }

  /** Stopping another socket changes nothing. */
  lemma StaleStopIsIgnored(st: State, socket: nat)
    requires st.session.localSocket != Some(socket)
    ensures LocalStopping(st, socket) == st
  {}

  /** Closing is final: both queues are gone, the sidecar and the timer too, and what was done stays done. */
  lemma ClosingIsFinal(st: State)
    requires !st.session.closed
    ensures var after := After(st, Step(OnClose, Env(0, Started, false, false, [], [])));
      && Ends(st, after) && after.session.sidecar.None? && !after.session.disconnectedTimer
      && after.session.pendingControls == [] && after.session.pendingFrames == []
      && after.session.selected == st.session.selected && after.session.localSocket == st.session.localSocket
  {}
}
