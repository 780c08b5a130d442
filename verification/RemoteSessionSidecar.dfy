/**
 * A lease on P2P without a sidecar. The catch around the sidecar's signals
 * (mobile/src/remote-session-peer.ts:972-979) reports an initial failure even
 * when P2P is already selected: the sidecar goes, the selection stays.
 */
module RemoteSessionSidecar {
  import opened Common
  import opened RemoteSession
  import opened RemoteSessionSafety

  /** A failure report that reaches the relay; otherwise the lease closes. */
  predicate ReportGoesOut(st: State, env: Env) {
    st.session.outgoing <= MAX_SEQUENCE && At(env.relay, 0)
  }

  /** The signal the sidecar is waiting for. */
  predicate Expected(s: Session, attemptId: string, sequence: nat, isOffer: bool) {
    s.attemptId == Some(attemptId) && sequence == s.incoming && (sequence == 0) == isOffer
  }

  /** An expected signal that the sidecar does not take. */
  predicate LosesSidecar(st: State, step: Step) {
    var s := st.session;
    && ReportGoesOut(st, step.env)
    && match step.event
       case OnRelayText(SignalFrame(attemptId, sequence, isOffer, usable)) =>
         && s.protocolVersion == Some(V2)
         && Expected(s, attemptId, sequence, isOffer)
         && !(usable && step.env.applies)
       case _ => false
  }

  predicate HasSidecar(s: Session) {
    !s.closed && s.selected == Some(P2P) ==> s.sidecar.Some?
  }

  lemma ActiveFailureUnselects(st: State, writable: bool)
    requires st.session.selected == Some(P2P) && !st.session.recovering
    ensures ReportActiveFailure(st, writable).session.selected.None?
  {}

  /** The lease is closed, or sidecar and selection are what they were. */
  predicate Settled(before: Session, after: Session) {
    after.closed || (after.sidecar == before.sidecar && after.selected == before.selected && !before.closed)
  }

  lemma SettledChain(a: Session, b: Session, c: Session)
    requires Settled(a, b) && Settled(b, c)
    ensures Settled(a, c)
  {}

  lemma ClosedIsSettled(st: State, before: Session)
    ensures Settled(before, Close(st).session)
  {}

  lemma {:induction false} SignalSettles(st: State, kind: SignalKind, writable: bool)
    ensures Settled(st.session, SendSignal(st, kind, writable).session)
  {
    hide Close;
    ClosedIsSettled(st, st.session);
    ClosedIsSettled(Taken(st), st.session);
  }

  lemma {:induction false} SignalClosesIff(st: State, kind: SignalKind, writable: bool)
    requires !st.session.closed && st.session.attemptId.Some?
    ensures SendSignal(st, kind, writable).session.closed <==> !(st.session.outgoing <= MAX_SEQUENCE && writable)
  {
    hide Close;
    CloseFacts(st);
    CloseFacts(Taken(st));
  }

  lemma {:induction false} InitialFailureLoses(st: State, writable: bool)
    requires st.session.selected == Some(P2P) && !st.session.closed && st.session.attemptId.Some?
             && !st.session.failureReported
    ensures HasSidecar(ReportInitialFailure(st, writable).session)
            <==> !(st.session.outgoing <= MAX_SEQUENCE && writable)
  {
    hide RelayOnly, TotalBytes, Contents, SendSignal;
    SignalClosesIff(Failing(st), Failed, writable);
    SignalSettles(Failing(st), Failed, writable);
  }

  lemma {:induction false} CandidatesSettle(st: State, count: nat, writable: seq<bool>)
    ensures Settled(st.session, SendCandidates(st, count, writable).session)
    decreases count
  {
    hide SendSignal;
    if count > 0 {
      var before := SendCandidates(st, count - 1, writable);
      CandidatesSettle(st, count - 1, writable);
      SignalSettles(before, Candidate, At(writable, count));
      SettledChain(st.session, before.session, SendCandidates(st, count, writable).session);
    }
  }

  lemma {:induction false} QueueingSettles(st: State, control: Control)
    requires !st.session.closed
    ensures Settled(st.session, Queued(st, control).session)
  {
    hide Close, OtherTransportQueued;
    ClosedIsSettled(st, st.session);
  }

  lemma {:induction false} ForwardingSettles(st: State, control: Control, writable: bool)
    requires !st.session.closed
    ensures Settled(st.session, SendToLocal(st, control, writable).session)
  {
    hide Close, Queued;
    QueueingSettles(st, control);
    ClosedIsSettled(st, st.session);
  }

  lemma {:induction false} FlushSettles(st: State, pending: seq<Control>, writable: seq<bool>)
    requires !st.session.closed
    ensures Settled(st.session, Flush(st, pending, writable).session)
    decreases |pending|
  {
    hide SendToLocal;
    if pending != [] {
      var before := Flush(st, pending[..|pending| - 1], writable);
      FlushSettles(st, pending[..|pending| - 1], writable);
      if !before.session.closed {
        ForwardingSettles(before, pending[|pending| - 1], At(writable, |pending| - 1));
        SettledChain(st.session, before.session, Flush(st, pending, writable).session);
      }
    }
  }

  /** What the invariant says while P2P is selected over a live sidecar. */
  lemma LiveFacts(st: State)
    requires Inv(st) && !st.session.closed && st.session.selected == Some(P2P) && st.session.sidecar.Some?
    ensures var s := st.session;
            s.readyReported && s.paired && !s.recovering && !s.awaitingRecovery && s.attemptId.Some?
              && !s.failureReported
  {}

  /** The state in which a refused signal is reported. */
  lemma RefusedFacts(st: State, signal: Applied)
    ensures Handed(st, signal).session == Counted(st).session
    ensures var s := Counted(st).session;
            && s.selected == st.session.selected && s.closed == st.session.closed && s.sidecar == st.session.sidecar
            && s.attemptId == st.session.attemptId && s.failureReported == st.session.failureReported
               && s.outgoing == st.session.outgoing
  {}

  lemma {:induction false} ExpectedIsHanded(st: State, attemptId: string, sequence: nat, isOffer: bool, usable: bool,
                                            applies: bool, writable: bool)
    requires !st.session.closed && st.session.sidecar.Some? && Expected(st.session, attemptId, sequence, isOffer)
    ensures var handed := if usable then Handed(st, Applied(sequence, isOffer)) else Counted(st);
            RemoteSignal(st, attemptId, sequence, isOffer, usable, applies, writable)
            == if usable && applies then handed else ReportInitialFailure(handed, writable)
  {
    hide ReportInitialFailure, Close;
  }

  lemma {:induction false} UnexpectedCloses(st: State, attemptId: string, sequence: nat, isOffer: bool, usable: bool,
                                            applies: bool, writable: bool)
    requires !st.session.closed && st.session.sidecar.Some? && !Expected(st.session, attemptId, sequence, isOffer)
    ensures RemoteSignal(st, attemptId, sequence, isOffer, usable, applies, writable) == Close(st)
  {
    hide ReportInitialFailure, Close;
  }

  lemma {:induction false} SignalFrameLosesIff(st: State, attemptId: string, sequence: nat, isOffer: bool, usable: bool,
                                               applies: bool, writable: bool)
    requires !st.session.closed && st.session.selected == Some(P2P) && st.session.sidecar.Some?
    requires st.session.attemptId.Some? && !st.session.failureReported
    ensures HasSidecar(RemoteSignal(st, attemptId, sequence, isOffer, usable, applies, writable).session)
       <==> !(st.session.outgoing <= MAX_SEQUENCE && writable && Expected(st.session, attemptId, sequence, isOffer)
              && !(usable && applies))
  {
    hide RemoteSignal, ReportInitialFailure, Close, Handed, Counted;
    RefusedFacts(st, Applied(sequence, isOffer));
    ClosedIsSettled(st, st.session);
    if Expected(st.session, attemptId, sequence, isOffer) {
      ExpectedIsHanded(st, attemptId, sequence, isOffer, usable, applies, writable);
      if !(usable && applies) {
        InitialFailureLoses(if usable then Handed(st, Applied(sequence, isOffer)) else Counted(st), writable);
      }
    } else {
      UnexpectedCloses(st, attemptId, sequence, isOffer, usable, applies, writable);
    }
  }

  lemma {:induction false} TextLosesIff(st: State, text: RelayText, env: Env)
    requires !st.session.closed && st.session.selected == Some(P2P) && st.session.sidecar.Some? && st.session.paired
    requires st.session.attemptId.Some? && !st.session.failureReported && !st.session.recovering
             && !st.session.awaitingRecovery
    ensures HasSidecar(RelayTextReceived(st, text, env).session) <==> !LosesSidecar(st, Step(OnRelayText(text), env))
  {
    hide RemoteSignal, ReportActiveFailure, ConnectLocal, Chosen, Drained, SendAllToRelay, Close, OtherTransportQueued,
         ReportInitialFailure;
    ClosedIsSettled(st, st.session);
    if text.SignalFrame? {
      SignalFrameLosesIff(st, text.attemptId, text.sequence, text.isOffer, text.usable, env.applies, At(env.relay, 0));
    }
    if text.RecoveringFrame? {
      var frozen := ReportActiveFailure(st, At(env.relay, 0));
      ActiveFailureUnselects(st, At(env.relay, 0));
      ConnectingKeepsSelection(frozen);
      ClosedIsSettled(frozen, st.session);
    }
  }

  lemma ConnectingKeepsSelection(st: State)
    ensures ConnectLocal(st).session.selected == st.session.selected
  {}

  lemma {:induction false} FramesKeepSidecar(st: State, sidecar: nat, content: Bytes, env: Env)
    requires !st.session.closed && st.session.selected == Some(P2P) && st.session.sidecar.Some? && st.session.paired
             && !st.session.recovering
    ensures HasSidecar(RelayBinary(st, content, At(env.local, 0)).session)
    ensures HasSidecar(SidecarBinary(st, sidecar, content, At(env.local, 0), At(env.relay, 0)).session)
  {
    hide SendToLocal, ReportActiveFailure, ReportInitialFailure, Close;
    ClosedIsSettled(Arrive(st, NextControl(st, Relay, content)), st.session);
    var control := NextControl(st, P2P, content);
    ForwardingSettles(Arrive(st, control), control, At(env.local, 0));
    ActiveFailureUnselects(Arrive(st, control), At(env.relay, 0));
  }

  lemma {:induction false} LocalKeepsSidecar(st: State, socket: nat, content: Bytes, env: Env)
    requires !st.session.closed && st.session.selected == Some(P2P) && st.session.sidecar.Some?
             && !st.session.recovering
    ensures HasSidecar(LocalBinary(st, socket, content, env.accepted, At(env.relay, 0)).session)
    ensures HasSidecar(LocalOpened(st, socket, env.local, At(env.relay, 0)).session)
  {
    hide ReportActiveFailure, Close, Flush, SendToRelay, QueueFrame;
    ClosedIsSettled(st, st.session);
    ActiveFailureUnselects(st.(trace := st.trace.(received := st.trace.received + [content])), At(env.relay, 0));
    var pending := st.session.pendingControls;
    var bridge :=
      st.(session := st.session.(bridged := true, localReady := true, pendingControls := [], pendingControlBytes := 0));
    FlushSettles(bridge, pending, env.local);
    ClosedIsSettled(Flush(bridge, pending, env.local), st.session);
  }

  lemma {:induction false} DescriptionKeepsSidecar(st: State, sidecar: nat, env: Env)
    requires st.session.selected == Some(P2P) && st.session.sidecar.Some?
    ensures HasSidecar(LocalDescription(st, sidecar, env.relay).session)
  {
    hide SendSignal, SendCandidates;
    var answered := SendSignal(st, Answer, At(env.relay, 0));
    var noted := answered.(session := answered.session.(answerSent := true, pendingCandidates := []));
    SignalSettles(st, Answer, At(env.relay, 0));
    CandidatesSettle(noted, |answered.session.pendingCandidates|, env.relay);
  }

  /** Selected P2P means that ready was reported, and then candidates are no longer taken. */
  lemma CandidateKeepsSidecar(st: State, sidecar: nat, candidate: string, writable: bool)
    requires st.session.sidecar.Some? && st.session.readyReported
    ensures HasSidecar(LocalCandidate(st, sidecar, candidate, writable).session)
  {}

  lemma {:induction false} ChangesKeepSidecar(st: State, sidecar: nat, state: SidecarState, env: Env)
    requires !st.session.closed && st.session.selected == Some(P2P) && st.session.sidecar.Some? && st.session.paired
             && !st.session.recovering
    ensures HasSidecar(SidecarChanged(st, sidecar, state, At(env.relay, 0)).session)
    ensures HasSidecar(DisconnectTimeout(st, At(env.relay, 0)).session)
  {
    hide SendSignal, ReportActiveFailure, ReportInitialFailure;
    ActiveFailureUnselects(st, At(env.relay, 0));
    ActiveFailureUnselects(st.(session := st.session.(disconnectedTimer := false)), At(env.relay, 0));
  }

  lemma {:induction false} QuietStepsKeepSidecar(st: State, version: Option<Protocol>, now: int, socket: nat)
    requires st.session.sidecar.Some?
    ensures HasSidecar(RelayOpened(st, version, now).session) && HasSidecar(LocalStopping(st, socket).session)
            && HasSidecar(Close(st).session)
  {
    hide Close;
    ClosedIsSettled(st, st.session);
  }

  lemma OnlySignalsLose(st: State, step: Step)
    ensures !step.event.OnRelayText? ==> !LosesSidecar(st, step)
  {}

  /**
   * While P2P is selected over a live sidecar, one step leaves an open lease on P2P without a sidecar exactly when
   * the sidecar refuses, or lacks the body of, the next expected signal, and the failure can still be reported.
   */
  lemma {:induction false} P2PKeepsItsSidecarIff(st: State, step: Step)
    requires Inv(st) && !st.session.closed && st.session.selected == Some(P2P) && st.session.sidecar.Some?
    ensures HasSidecar(After(st, step).session) <==> !LosesSidecar(st, step)
  {
    hide Inv, RelayTextReceived, RelayBinary, SidecarBinary, LocalBinary, LocalOpened, LocalDescription, LocalCandidate;
    hide SidecarChanged, DisconnectTimeout, Close, RelayOpened, LocalStopping, LosesSidecar, HasSidecar;
    var env := step.env;
    LiveFacts(st);
    OnlySignalsLose(st, step);
    match step.event
    case OnRelayText(text) => TextLosesIff(st, text, env);
    case OnRelayBinary(content) => FramesKeepSidecar(st, 0, content, env);
    case OnSidecarBinary(sidecar, content) => FramesKeepSidecar(st, sidecar, content, env);
    case OnLocalBinary(socket, content) => LocalKeepsSidecar(st, socket, content, env);
    case OnLocalOpened(socket) => LocalKeepsSidecar(st, socket, [], env);
    case OnSidecarDescription(sidecar) => DescriptionKeepsSidecar(st, sidecar, env);
    case OnSidecarCandidate(sidecar, candidate) => CandidateKeepsSidecar(st, sidecar, candidate, At(env.relay, 0));
    case OnSidecarState(sidecar, state) => ChangesKeepSidecar(st, sidecar, state, env);
    case OnDisconnectTimeout => ChangesKeepSidecar(st, 0, Gone, env);
    case OnRelayOpened(version) => QuietStepsKeepSidecar(st, version, env.now, 0);
    case OnLocalStopping(socket) => QuietStepsKeepSidecar(st, None, env.now, socket);
    case OnClose => QuietStepsKeepSidecar(st, None, env.now, 0);
  }

  // ---------------------------------------------------- over a whole run

  predicate NoP2P(st: State) {
    st.session.selected != Some(P2P)
  }

  lemma ClosingSelectsNothing(st: State)
    requires NoP2P(st)
    ensures NoP2P(Close(st))
  {}

  lemma {:induction false} SendingSelectsNothing(st: State, kind: SignalKind, writable: bool)
    requires NoP2P(st)
    ensures NoP2P(SendSignal(st, kind, writable))
  {
    hide Close;
    ClosingSelectsNothing(st);
    ClosingSelectsNothing(Taken(st));
  }

  lemma {:induction false} FailuresSelectNothing(st: State, writable: bool)
    requires NoP2P(st)
    ensures NoP2P(ReportInitialFailure(st, writable)) && NoP2P(ReportActiveFailure(st, writable))
  {
    hide RelayOnly, TotalBytes, Contents, SendSignal;
    SendingSelectsNothing(Failing(st), Failed, writable);
  }

  lemma {:induction false} CandidatesSelectNothing(st: State, count: nat, writable: seq<bool>)
    requires NoP2P(st)
    ensures NoP2P(SendCandidates(st, count, writable))
    decreases count
  {
    hide SendSignal;
    if count > 0 {
      CandidatesSelectNothing(st, count - 1, writable);
      SendingSelectsNothing(SendCandidates(st, count - 1, writable), Candidate, At(writable, count));
    }
  }

  lemma {:induction false} ControlSelectsNothing(st: State, control: Control, writable: bool)
    requires NoP2P(st)
    ensures NoP2P(SendToLocal(st, control, writable))
  {
    hide Close, Queued;
    ClosingSelectsNothing(st);
    QueueingSelectsNothing(st, control);
  }

  lemma {:induction false} QueueingSelectsNothing(st: State, control: Control)
    requires NoP2P(st)
    ensures NoP2P(Queued(st, control))
  {
    hide Close, OtherTransportQueued, PENDING_CONTROL_MAX;
    ClosingSelectsNothing(st);
  }

  lemma {:induction false} FlushSelectsNothing(st: State, pending: seq<Control>, writable: seq<bool>)
    requires NoP2P(st)
    ensures NoP2P(Flush(st, pending, writable))
    decreases |pending|
  {
    hide SendToLocal;
    if pending != [] {
      var before := Flush(st, pending[..|pending| - 1], writable);
      FlushSelectsNothing(st, pending[..|pending| - 1], writable);
      ControlSelectsNothing(before, pending[|pending| - 1], At(writable, |pending| - 1));
    }
  }

  lemma {:induction false} DrainSelectsNothing(st: State, frames: seq<Bytes>, writable: seq<bool>)
    requires NoP2P(st)
    ensures NoP2P(SendAllToRelay(st, frames, writable))
    decreases |frames|
  {
    if frames != [] {
      DrainSelectsNothing(st, frames[..|frames| - 1], writable);
    }
  }

  lemma {:induction false} FramesSelectNothing(st: State, sidecar: nat, content: Bytes, env: Env)
    requires NoP2P(st)
    ensures NoP2P(RelayBinary(st, content, At(env.local, 0)))
    ensures NoP2P(SidecarBinary(st, sidecar, content, At(env.local, 0), At(env.relay, 0)))
  {
    hide SendToLocal, ReportInitialFailure, ReportActiveFailure, Close;
    var relay, p2p := Arrive(st, NextControl(st, Relay, content)), Arrive(st, NextControl(st, P2P, content));
    ControlSelectsNothing(relay, NextControl(st, Relay, content), At(env.local, 0));
    ControlSelectsNothing(p2p, NextControl(st, P2P, content), At(env.local, 0));
    ClosingSelectsNothing(relay);
    ClosingSelectsNothing(p2p);
    FailuresSelectNothing(p2p, At(env.relay, 0));
  }

  lemma {:induction false} LocalFrameSelectsNothing(st: State, socket: nat, content: Bytes, accepted: bool,
                                                    writable: bool)
    requires NoP2P(st)
    ensures NoP2P(LocalBinary(st, socket, content, accepted, writable))
  {
    hide Close, ReportActiveFailure, DEVICE_FRAME_MAX, PENDING_DEVICE_MAX;
    ClosingSelectsNothing(st);
    ClosingSelectsNothing(Received(st, content));
    FailuresSelectNothing(Received(st, content), writable);
  }

  lemma {:induction false} OpeningSelectsNothing(st: State, socket: nat, env: Env)
    requires NoP2P(st)
    ensures NoP2P(LocalOpened(st, socket, env.local, At(env.relay, 0)))
  {
    hide Close, Flush;
    var flushed := Flush(Bridged(st), st.session.pendingControls, env.local);
    FlushSelectsNothing(Bridged(st), st.session.pendingControls, env.local);
    ClosingSelectsNothing(flushed);
  }

  lemma {:induction false} DescriptionSelectsNothing(st: State, sidecar: nat, writable: seq<bool>)
    requires NoP2P(st)
    ensures NoP2P(LocalDescription(st, sidecar, writable))
  {
    hide SendSignal, SendCandidates;
    var answered := SendSignal(st, Answer, At(writable, 0));
    SendingSelectsNothing(st, Answer, At(writable, 0));
    CandidatesSelectNothing(Answered(answered), |answered.session.pendingCandidates|, writable);
  }

  lemma {:induction false} CandidateSelectsNothing(st: State, sidecar: nat, candidate: string, writable: bool)
    requires NoP2P(st)
    ensures NoP2P(LocalCandidate(st, sidecar, candidate, writable))
  {
    hide SendSignal, ReportInitialFailure;
    SendingSelectsNothing(st, Candidate, writable);
    FailuresSelectNothing(st, writable);
  }

  lemma {:induction false} ChangeSelectsNothing(st: State, sidecar: nat, state: SidecarState, writable: bool)
    requires NoP2P(st)
    ensures NoP2P(SidecarChanged(st, sidecar, state, writable))
  {
    hide SendSignal, ReportInitialFailure, ReportActiveFailure;
    FailuresSelectNothing(st, writable);
    var ready := st.session.(disconnectedTimer := false, p2pReady := true, readyReported := true);
    SendingSelectsNothing(st.(session := ready), Ready, writable);
  }

  lemma {:induction false} TimeoutSelectsNothing(st: State, writable: bool)
    requires NoP2P(st)
    ensures NoP2P(DisconnectTimeout(st, writable))
  {
    hide ReportInitialFailure, ReportActiveFailure;
    FailuresSelectNothing(st.(session := st.session.(disconnectedTimer := false)), writable);
  }

  lemma {:induction false} AttemptSelectsNothing(st: State, attemptId: string, sequence: nat, isOffer: bool,
                                                 usable: bool,
                                                 env: Env)
    requires NoP2P(st)
    ensures NoP2P(StartP2P(st, attemptId, env.creation, At(env.relay, 0)))
    ensures NoP2P(RemoteSignal(st, attemptId, sequence, isOffer, usable, env.applies, At(env.relay, 0)))
  {
    hide ReportInitialFailure, Close;
    var writable := At(env.relay, 0);
    ClosingSelectsNothing(st);
    var attempt := NewAttempt(st.session, attemptId);
    FailuresSelectNothing(st.(session := attempt), writable);
    FailuresSelectNothing(State(attempt.(sidecar := Some(st.trace.sidecarsStarted)),
                                st.trace.(sidecarsStarted := st.trace.sidecarsStarted + 1)), writable);
    FailuresSelectNothing(Counted(st), writable);
    FailuresSelectNothing(Handed(st, Applied(sequence, isOffer)), writable);
  }

  lemma {:induction false} RequestSelectsNothing(st: State, writable: bool)
    requires NoP2P(st)
    ensures NoP2P(RecoveryRequested(st, writable))
  {
    hide Close, ReportActiveFailure;
    FailuresSelectNothing(st, writable);
    ClosingSelectsNothing(ReportActiveFailure(st, writable));
  }

  lemma {:induction false} CommitSelectsTheRelay(st: State, writable: seq<bool>)
    requires NoP2P(st)
    ensures NoP2P(RecoveryCommitted(st, writable))
  {
    hide Close, SendAllToRelay, Selection;
    ClosingSelectsNothing(st);
    DrainSelectsNothing(Drained(st), st.session.pendingFrames, writable);
  }

  lemma ConnectingKeepsPath(st: State)
    ensures ConnectLocal(st).session.selected == st.session.selected
    ensures ConnectLocal(st).session.sidecar == st.session.sidecar
  {}

  lemma {:induction false} ChoosingKeepsSidecar(st: State, transport: Transport)
    ensures Chosen(st, transport).session.selected == Some(transport)
    ensures transport == P2P ==> Chosen(st, transport).session.sidecar == st.session.sidecar
  {
    hide Selection;
  }

  /** The one step that selects P2P has checked that the sidecar is there. */
  lemma {:induction false} SelectingFindsASidecar(st: State, transport: Transport, expiresAt: int, now: int)
    requires NoP2P(st)
    ensures HasSidecar(SelectInitial(st, transport, expiresAt, now).session)
  {
    hide Close, ConnectLocal, Chosen, OtherTransportQueued;
    ClosingSelectsNothing(st);
    var limited := st.(session := st.session.(expiresAt := expiresAt));
    ChoosingKeepsSidecar(limited, transport);
    ConnectingKeepsPath(Chosen(limited, transport));
  }

  lemma {:induction false} QuietSelectsNothing(st: State, version: Option<Protocol>, now: int, socket: nat)
    requires NoP2P(st)
    ensures NoP2P(RelayOpened(st, version, now)) && NoP2P(LocalStopping(st, socket)) && NoP2P(Close(st))
  {
    hide Close;
    ClosingSelectsNothing(st);
  }

  lemma {:induction false} TextFindsASidecar(st: State, text: RelayText, env: Env)
    requires NoP2P(st)
    ensures HasSidecar(RelayTextReceived(st, text, env).session)
  {
    hide StartP2P, RemoteSignal, RecoveryRequested, RecoveryCommitted, SelectInitial, Close;
    ClosingSelectsNothing(st);
    match text
    case ReadyFrame(transport, expiresAt) => SelectingFindsASidecar(st, transport, expiresAt, env.now);
    case StartFrame(attemptId, _) => AttemptSelectsNothing(st, attemptId, 0, true, true, env);
    case SignalFrame(attemptId, sequence, isOffer, usable) =>
      AttemptSelectsNothing(st, attemptId, sequence, isOffer, usable, env);
    case RecoveringFrame => RequestSelectsNothing(st, At(env.relay, 0));
    case RecoveredFrame => CommitSelectsTheRelay(st, env.relay);
    case Unparsable =>
    case ErrorOrClosed =>
  }

  lemma {:induction false} NewP2PHasASidecar(st: State, step: Step)
    requires NoP2P(st)
    ensures HasSidecar(After(st, step).session)
  {
    hide RelayTextReceived, RelayBinary, SidecarBinary, LocalBinary, LocalOpened, LocalDescription, LocalCandidate,
         SidecarChanged, DisconnectTimeout, RelayOpened, LocalStopping, Close;
    var env := step.env;
    match step.event
    case OnRelayText(text) => TextFindsASidecar(st, text, env);
    case OnRelayBinary(content) => FramesSelectNothing(st, 0, content, env);
    case OnSidecarBinary(sidecar, content) => FramesSelectNothing(st, sidecar, content, env);
    case OnLocalBinary(socket, content) =>
      LocalFrameSelectsNothing(st, socket, content, env.accepted, At(env.relay, 0));
    case OnLocalOpened(socket) => OpeningSelectsNothing(st, socket, env);
    case OnSidecarDescription(sidecar) => DescriptionSelectsNothing(st, sidecar, env.relay);
    case OnSidecarCandidate(sidecar, candidate) => CandidateSelectsNothing(st, sidecar, candidate, At(env.relay, 0));
    case OnSidecarState(sidecar, state) => ChangeSelectsNothing(st, sidecar, state, At(env.relay, 0));
    case OnDisconnectTimeout => TimeoutSelectsNothing(st, At(env.relay, 0));
    case OnRelayOpened(version) => QuietSelectsNothing(st, version, env.now, 0);
    case OnLocalStopping(socket) => QuietSelectsNothing(st, None, env.now, socket);
    case OnClose => QuietSelectsNothing(st, None, env.now, 0);
  }

  /** Whenever a lease of the run is on P2P with its sidecar, the next step does not lose it. */
  predicate NeverLoses(st: State, steps: seq<Step>) {
    forall i :: 0 <= i < |steps| ==>
      var before := Run(st, steps[..i]);
      !before.session.closed && before.session.selected == Some(P2P) && before.session.sidecar.Some?
      ==> !LosesSidecar(before, steps[i])
  }

  /** On every run an open lease on P2P has its sidecar, unless a step of the run lost it. */
  lemma {:induction false} RunKeepsItsSidecar(expiresAt: int, steps: seq<Step>)
    requires NeverLoses(Open(expiresAt), steps)
    ensures HasSidecar(Run(Open(expiresAt), steps).session)
    decreases |steps|
  {
    hide After, LosesSidecar, Inv;
    if steps != [] {
      var prefix, last := steps[..|steps| - 1], steps[|steps| - 1];
      var before := Run(Open(expiresAt), prefix);
      assert forall i :: 0 <= i <= |prefix| ==> prefix[..i] == steps[..i];
      RunKeepsItsSidecar(expiresAt, prefix);
      RunKeepsInv(expiresAt, prefix);
      if before.session.closed {
        ClosedStays(before, last);
      } else if before.session.selected != Some(P2P) {
        NewP2PHasASidecar(before, last);
      } else {
        P2PKeepsItsSidecarIff(before, last);
      }
    }
  }

  /** A closed lease ignores its sockets. */
  lemma ClosedIgnoresSockets(st: State, socket: nat, content: Bytes, text: RelayText, env: Env)
    requires st.session.closed
    ensures RelayBinary(st, content, At(env.local, 0)) == st && RelayTextReceived(st, text, env) == st
    ensures LocalOpened(st, socket, env.local, At(env.relay, 0)) == st
    ensures LocalBinary(st, socket, content, env.accepted, At(env.relay, 0)) == st
  {}

  /** And its sidecar, which is gone. */
  lemma ClosedIgnoresSidecar(st: State, sidecar: nat, content: Bytes, env: Env)
    requires st.session.closed && st.session.sidecar.None?
    ensures LocalDescription(st, sidecar, env.relay) == st
    ensures SidecarBinary(st, sidecar, content, At(env.local, 0), At(env.relay, 0)) == st
    ensures forall candidate :: LocalCandidate(st, sidecar, candidate, At(env.relay, 0)) == st
    ensures forall state :: SidecarChanged(st, sidecar, state, At(env.relay, 0)) == st
  {}

  lemma QuietStepsStayClosed(st: State, version: Option<Protocol>, now: int, socket: nat,
                             writable: bool)
    requires st.session.closed
    ensures RelayOpened(st, version, now).session.closed && LocalStopping(st, socket).session.closed
    ensures DisconnectTimeout(st, writable).session.closed && Close(st).session.closed
  {}

  lemma {:induction false} ClosedStays(st: State, step: Step)
    requires Inv(st) && st.session.closed
    ensures After(st, step).session.closed
  {
    hide Inv, RelayBinary, RelayTextReceived, LocalOpened, LocalBinary, LocalDescription, LocalCandidate,
         SidecarChanged, SidecarBinary, RelayOpened, LocalStopping, DisconnectTimeout, Close;
    var env := step.env;
    ClosedHasNoSidecar(st);
    match step.event
    case OnRelayBinary(content) => ClosedIgnoresSockets(st, 0, content, Unparsable, env);
    case OnRelayText(text) => ClosedIgnoresSockets(st, 0, [], text, env);
    case OnLocalOpened(socket) => ClosedIgnoresSockets(st, socket, [], Unparsable, env);
    case OnLocalBinary(socket, content) => ClosedIgnoresSockets(st, socket, content, Unparsable, env);
    case OnSidecarDescription(sidecar) => ClosedIgnoresSidecar(st, sidecar, [], env);
    case OnSidecarCandidate(sidecar, _) => ClosedIgnoresSidecar(st, sidecar, [], env);
    case OnSidecarState(sidecar, _) => ClosedIgnoresSidecar(st, sidecar, [], env);
    case OnSidecarBinary(sidecar, content) => ClosedIgnoresSidecar(st, sidecar, content, env);
    case OnRelayOpened(version) => QuietStepsStayClosed(st, version, env.now, 0, true);
    case OnLocalStopping(socket) => QuietStepsStayClosed(st, None, 0, socket, true);
    case OnDisconnectTimeout => QuietStepsStayClosed(st, None, 0, 0, At(env.relay, 0));
    case OnClose => QuietStepsStayClosed(st, None, 0, 0, true);
  }

  lemma ClosedHasNoSidecar(st: State)
    requires Inv(st) && st.session.closed
    ensures st.session.sidecar.None?
  {}

  // ------------------------------------------------------------- a witness

  const FINE := Env(0, Started, true, true, [true], [true])

  /** From opening to the offer, nothing going wrong. */
  function Offered(): State {
    After(Attempted(), Step(OnRelayText(SignalFrame("attempt", 0, true, true)), FINE))
  }

  function Attempted(): State {
    After(After(Open(5), Step(OnRelayOpened(Some(V2)), FINE)), Step(OnRelayText(StartFrame("attempt", 5)), FINE))
  }

  function Answering(): State {
    After(Offered(), Step(OnSidecarDescription(0), FINE))
  }

  function Connected(): State {
    After(Answering(), Step(OnSidecarState(0, SidecarReady), FINE))
  }

  /** Up to the selection of P2P. */
  function Negotiated(): State {
    After(Connected(), Step(OnRelayText(ReadyFrame(P2P, 5)), FINE))
  }

  function NegotiationSteps(): seq<Step> {
    [Step(OnRelayOpened(Some(V2)), FINE), Step(OnRelayText(StartFrame("attempt", 5)), FINE),
     Step(OnRelayText(SignalFrame("attempt", 0, true, true)), FINE), Step(OnSidecarDescription(0), FINE),
     Step(OnSidecarState(0, SidecarReady), FINE), Step(OnRelayText(ReadyFrame(P2P, 5)), FINE)]
  }

  lemma {:induction false} RunNext(st: State, steps: seq<Step>, step: Step)
    ensures Run(st, steps + [step]) == After(Run(st, steps), step)
  {
    hide After;
    assert (steps + [step])[..|steps|] == steps;
  }

  lemma {:induction false} NegotiationRuns()
    ensures Run(Open(5), NegotiationSteps()) == Negotiated()
  {
    hide After, Open;
    var all := NegotiationSteps();
    assert all[..0] == [];
    assert Run(Open(5), []) == Open(5);
    RunNext(Open(5), all[..0], all[0]);
    RunNext(Open(5), all[..1], all[1]);
    RunNext(Open(5), all[..2], all[2]);
    RunNext(Open(5), all[..3], all[3]);
    RunNext(Open(5), all[..4], all[4]);
    RunNext(Open(5), all[..5], all[5]);
    assert all[..1] == all[..0] + [all[0]] && all[..2] == all[..1] + [all[1]] && all[..3] == all[..2] + [all[2]];
    assert all[..4] == all[..3] + [all[3]] && all[..5] == all[..4] + [all[4]] && all == all[..5] + [all[5]];
  }

  lemma AttemptedSession()
    ensures Attempted().session
         == Open(5).session.(protocolVersion := Some(V2), attemptId := Some("attempt"), sidecar := Some(0))
  {}

  lemma {:induction false} OfferedSession()
    ensures Offered().session
         == Open(5).session.(protocolVersion := Some(V2), attemptId := Some("attempt"), sidecar := Some(0),
                             incoming := 1)
  {
    hide Attempted;
    AttemptedSession();
  }

  lemma {:induction false} AnsweringSession()
    ensures Answering().session == Offered().session.(outgoing := 1, answerSent := true)
  {
    hide Offered;
    OfferedSession();
  }

  lemma {:induction false} ConnectedSession()
    ensures Connected().session == Answering().session.(p2pReady := true, readyReported := true, outgoing := 2)
  {
    hide Offered, Answering;
    OfferedSession();
    AnsweringSession();
  }

  lemma {:induction false} NegotiatedIsLive()
    ensures var s := Negotiated().session;
            && !s.closed && s.selected == Some(P2P) && s.sidecar == Some(0) && s.protocolVersion == Some(V2)
            && s.attemptId == Some("attempt") && s.incoming == 1 && s.outgoing == 2
  {
    hide Offered, Answering, Connected;
    OfferedSession();
    AnsweringSession();
    ConnectedSession();
  }

  /** An open lease that selected P2P and lost its sidecar to a candidate it could not use. */
  lemma {:induction false} P2PWithoutSidecar() returns (steps: seq<Step>)
    ensures var s := Run(Open(5), steps).session; !s.closed && s.selected == Some(P2P) && s.sidecar.None?
  {
    hide Negotiated, NegotiationSteps, After, Inv, Open;
    var refused := Step(OnRelayText(SignalFrame("attempt", 1, false, true)), FINE.(applies := false));
    steps := NegotiationSteps() + [refused];
    NegotiationRuns();
    NegotiatedIsLive();
    RunKeepsInv(5, NegotiationSteps());
    RunNext(Open(5), NegotiationSteps(), refused);
    P2PKeepsItsSidecarIff(Negotiated(), refused);
  }
}
