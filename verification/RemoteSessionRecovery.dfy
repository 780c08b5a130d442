/**
 * The recovery of a lease from P2P to the relay: frames the device sends meanwhile
 * wait and reach the relay in order, and the lease carries data again.
 */
module RemoteSessionRecovery {
  import opened Common
  import opened RemoteSession
  import opened RemoteSessionData
  import opened RemoteSessionRuns
  import opened RemoteSessionSafety

  /** A lease on P2P that can still report a failure. */
  predicate OnP2P(st: State) {
    var s := st.session;
    && !s.closed && s.selected == Some(P2P) && !s.recovering && !s.awaitingRecovery && s.protocolVersion == Some(V2)
    && s.attemptId.Some? && s.outgoing <= 1_000_000 && st.trace.transports == [P2P]
  }

  /** Frozen, the failure reported. */
  function Reported(st: State): State {
    Recorded(Frozen(st), Failed)
  }

  /** And the next local socket under way. */
  function Reconnecting(st: State): State {
    State(Reported(st).session.(localSocket := Some(st.trace.sockets)),
          Reported(st).trace.(sockets := st.trace.sockets + 1))
  }

  lemma {:induction false} FailureIsReported(st: State, writable: bool)
    requires OnP2P(st) && writable
    ensures ReportActiveFailure(st, writable) == Reported(st)
  {
    hide SendSignal, Recorded;
    assert ReportActiveFailure(st, writable) == SendSignal(Frozen(st), Failed, writable);
    SignalOutcome(Frozen(st), Failed, writable);
  }

  lemma {:induction false} ReportedFacts(st: State)
    ensures var s, t := Reported(st).session, Reported(st).trace;
      && s.closed == st.session.closed && s.recovering && s.selected.None? && !s.paired && s.localSocket.None?
      && !s.localReady && !s.bridged && s.pendingFrames == [] && s.pendingFrameBytes == 0 && s.pendingControls == []
      && s.awaitingRecovery == st.session.awaitingRecovery && s.protocolVersion == st.session.protocolVersion
      && t.sockets == st.trace.sockets && t.received == [] && t.sent == [] && t.writes == st.trace.writes
      && t.arrived == st.trace.arrived && t.transports == st.trace.transports
      && t.signals == st.trace.signals + [Signal(st.session.outgoing, Failed)]
  {}

  lemma {:induction false} Reconnects(st: State)
    requires !st.session.closed
    ensures ConnectLocal(Reported(st)) == Reconnecting(st)
  {
    hide Reported;
    ReportedFacts(st);
  }

  /** The sidecar is gone: the failure is reported. */
  lemma {:induction false} LossIsReported(st: State, sidecar: nat, step: Step)
    requires OnP2P(st) && st.session.sidecar == Some(sidecar)
    requires step.event == OnSidecarState(sidecar, Gone) && At(step.env.relay, 0)
    ensures After(st, step) == Reported(st)
  {
    hide ReportActiveFailure, ReportInitialFailure, Reported;
    FailureIsReported(st, At(step.env.relay, 0));
  }

  /** A sidecar that stays disconnected until the timer fires counts as gone. */
  lemma {:induction false} SilentLossIsReported(st: State, sidecar: nat, first: Step, second: Step)
    requires OnP2P(st) && st.session.sidecar == Some(sidecar)
    requires first.event == OnSidecarState(sidecar, Disconnected)
    requires second.event == OnDisconnectTimeout && At(second.env.relay, 0)
    ensures Run(st, [first, second]) == Reported(st)
  {
    hide ReportActiveFailure, ReportInitialFailure;
    TwoSteps(st, first, second);
    var fired := st.(session := st.session.(disconnectedTimer := false));
    FailureIsReported(fired, At(second.env.relay, 0));
    assert Frozen(fired) == Frozen(st);
  }

  /** One that is back in time does not: the timer finds nothing to do and the lease is still on P2P. */
  lemma {:induction false} ShortLossIsForgiven(st: State, sidecar: nat, first: Step, second: Step, third: Step)
    requires OnP2P(st) && st.session.sidecar == Some(sidecar) && st.session.paired && st.session.p2pReady
    requires first.event == OnSidecarState(sidecar, Disconnected)
    requires second.event == OnSidecarState(sidecar, SidecarReady) && third.event == OnDisconnectTimeout
    ensures Run(st, [first, second, third]) == st.(session := st.session.(disconnectedTimer := false))
  {
    hide ReportActiveFailure, ReportInitialFailure;
    TwoSteps(st, first, second);
    RunAppends(st, [first, second], [third]);
    RunOne(Run(st, [first, second]), third);
    assert [first, second] + [third] == [first, second, third];
  }

  /** The service asks for the recovery of a lease that reported, or of one still on P2P: a new local socket. */
  lemma {:induction false} RequestReconnects(st: State, reported: bool, step: Step)
    requires OnP2P(st) && step.event == OnRelayText(RecoveringFrame) && At(step.env.relay, 0)
    ensures After(if reported then Reported(st) else st, step) == Reconnecting(st)
  {
    hide Reported, Reconnecting, ConnectLocal, Close;
    ReportedFacts(st);
    Reconnects(st);
    FailureIsReported(st, At(step.env.relay, 0));
    RequestIsHandled(if reported then Reported(st) else st, step);
    if reported {
      assert ReportActiveFailure(Reported(st), At(step.env.relay, 0)) == Reported(st);
    }
  }

  lemma {:induction false} RequestIsHandled(st: State, step: Step)
    requires !st.session.closed && st.session.protocolVersion == Some(V2) && !st.session.awaitingRecovery
    requires step.event == OnRelayText(RecoveringFrame)
    ensures var reported := ReportActiveFailure(st, At(step.env.relay, 0));
      reported.session.recovering ==> After(st, step) == ConnectLocal(reported)
  {
    hide ReportActiveFailure, ConnectLocal, Close;
  }

  /** The new local socket is open, the relay has been told. */
  lemma {:induction false} SocketReopens(st: State, step: Step)
    requires Inv(Reconnecting(st)) && !st.session.closed
    requires step.event == OnLocalOpened(st.trace.sockets) && At(step.env.relay, 0)
    ensures var after, before := After(Reconnecting(st), step), Reconnecting(st);
      after.session == Opening(before.session) && after.trace == before.trace
  {
    hide Inv, LocalOpened, Opening, Writes, Reconnecting;
    ReconnectingFacts(st);
    LocalOpenedOutcome(Reconnecting(st), st.trace.sockets, step.env.local, At(step.env.relay, 0));
    NoWrites(st.trace.sockets);
    var before := Reconnecting(st).trace;
    assert before.writes + [] == before.writes;
  }

  lemma {:induction false} ReconnectingFacts(st: State)
    ensures var s, t := Reconnecting(st).session, Reconnecting(st).trace;
      && s.closed == st.session.closed && s.recovering && s.selected.None? && s.localSocket == Some(st.trace.sockets)
      && s.pendingFrames == [] && s.pendingFrameBytes == 0 && s.pendingControls == []
      && s.protocolVersion == st.session.protocolVersion
      && t.received == [] && t.sent == [] && t.writes == st.trace.writes
      && t.arrived == st.trace.arrived && t.transports == st.trace.transports
      && t.signals == st.trace.signals + [Signal(st.session.outgoing, Failed)]
  {
    hide Reported;
    ReportedFacts(st);
  }

  // --------------------------------------------------- frames meanwhile

  /** Open, recovering, the local socket announced. */
  predicate Recovers(s: Session, socket: nat) {
    && !s.closed && s.recovering && s.selected.None? && s.localSocket == Some(socket) && s.bridged && s.localReady
    && s.protocolVersion == Some(V2)
  }

  /** These frames came from the device and wait behind those that wait already. */
  function HeldBack(st: State, contents: seq<Bytes>): State {
    State(st.session.(pendingFrames := st.session.pendingFrames + contents,
                      pendingFrameBytes := st.session.pendingFrameBytes + TotalBytes(contents)),
          st.trace.(received := st.trace.received + contents))
  }

  lemma HeldBackFacts(st: State, socket: nat, contents: seq<Bytes>)
    requires Recovers(st.session, socket)
    ensures Recovers(HeldBack(st, contents).session, socket)
    ensures HeldBack(st, []) == st
  {
    assert st.session.pendingFrames + [] == st.session.pendingFrames && st.trace.received + [] == st.trace.received;
  }

  lemma {:induction false} OneMoreHeld(st: State, contents: seq<Bytes>, content: Bytes)
    ensures var before, after := HeldBack(st, contents), HeldBack(st, contents + [content]);
      && after.session == Holding(before.session, content)
      && after.trace == before.trace.(received := before.trace.received + [content])
  {
    hide TotalBytes;
    TotalAppended(contents, content);
    assert st.session.pendingFrames + contents + [content] == st.session.pendingFrames + (contents + [content]);
    assert st.trace.received + contents + [content] == st.trace.received + (contents + [content]);
  }

  predicate DeviceFrames(socket: nat, contents: seq<Bytes>, steps: seq<Step>) {
    && |steps| == |contents|
    && forall i :: 0 <= i < |steps| ==>
         |contents[i]| <= 4_194_304 && steps[i].event == OnLocalBinary(socket, contents[i])
  }

  lemma {:induction false} OneFrameHeld(st: State, socket: nat, content: Bytes, step: Step)
    requires Recovers(st.session, socket) && |content| <= 4_194_304
    requires st.session.pendingFrameBytes + |content| <= 8_388_608 && step.event == OnLocalBinary(socket, content)
    ensures IsHeld(st, After(st, step), content)
  {
    hide QueueFrame, Held, Holding;
    ReceivingKeepsSession(st, content);
    HoldingIsExact(Received(st, content), content);
    HeldSession(Received(st, content), content);
  }

  lemma {:induction false} FramesHeldBack(st: State, socket: nat, contents: seq<Bytes>, steps: seq<Step>)
    requires Recovers(st.session, socket) && DeviceFrames(socket, contents, steps)
    requires st.session.pendingFrameBytes + TotalBytes(contents) <= 8_388_608
    ensures Run(st, steps) == HeldBack(st, contents)
    decreases |contents|
  {
    hide After, Recovers, Holding, HeldBack;
    if contents == [] {
      HeldBackFacts(st, socket, []);
    } else {
      var n := |contents| - 1;
      var content := contents[n];
      TotalAppended(contents[..n], content);
      assert contents[..n] + [content] == contents;
      FramesHeldBack(st, socket, contents[..n], steps[..n]);
      HeldBackFacts(st, socket, contents[..n]);
      OneMoreHeld(st, contents[..n], content);
      BytesHeld(st, contents[..n]);
      OneFrameHeld(HeldBack(st, contents[..n]), socket, content, steps[n]);
    }
  }

  lemma BytesHeld(st: State, contents: seq<Bytes>)
    ensures HeldBack(st, contents).session.pendingFrameBytes == st.session.pendingFrameBytes + TotalBytes(contents)
  {}

  // ---------------------------------------------------------- the commit

  /** The relay takes over: everything held back is sent, in order. */
  lemma {:induction false} CommitSends(st: State, socket: nat, step: Step)
    requires Recovers(st.session, socket) && st.trace.transports == [P2P]
    requires step.event == OnRelayText(RecoveredFrame) && AllTaken(|st.session.pendingFrames|, step.env.relay)
    ensures var after := After(st, step);
      && after.session == Drained(st).session
      && after.trace == Drained(st).trace.(sent := st.trace.sent + st.session.pendingFrames)
  {
    hide Select, SendAllToRelay, Close;
    DrainedFacts(st);
    DrainSends(Drained(st), st.session.pendingFrames, step.env.relay);
    assert After(st, step) == SendAllToRelay(Drained(st), st.session.pendingFrames, step.env.relay);
  }

  lemma {:induction false} DrainedFacts(st: State)
    ensures var s, t := Drained(st).session, Drained(st).trace;
      && s.closed == st.session.closed && s.paired && s.selected == Some(Relay) && !s.recovering
      && s.localSocket == st.session.localSocket && s.bridged == st.session.bridged
      && s.localReady == st.session.localReady && s.pendingFrames == []
      && t.sent == st.trace.sent && t.received == st.trace.received && t.writes == st.trace.writes
      && t.arrived == st.trace.arrived && t.signals == st.trace.signals
      && (st.trace.transports == [P2P] ==> t.transports == [P2P, Relay] && t.relayFrom == Some(|t.writes|))
  {}

  // ------------------------------------------------------------ theorems

  /** The loss of the sidecar (if it is noticed first), the request, the new socket, frames meanwhile, the commit. */
  predicate Recovery(socket: nat, lost: bool, sidecar: nat, contents: seq<Bytes>, steps: seq<Step>) {
    var h := if lost then 1 else 0;
    var n := h + 2 + |contents|;
    && |steps| == n + 1
    && (lost ==> steps[0].event == OnSidecarState(sidecar, Gone) && At(steps[0].env.relay, 0))
    && steps[h].event == OnRelayText(RecoveringFrame) && At(steps[h].env.relay, 0)
    && steps[h + 1].event == OnLocalOpened(socket) && At(steps[h + 1].env.relay, 0)
    && DeviceFrames(socket, contents, steps[h + 2..n]) && TotalBytes(contents) <= 8_388_608
    && steps[n].event == OnRelayText(RecoveredFrame) && AllTaken(|contents|, steps[n].env.relay)
  }

  lemma {:induction false} RecoveryStarts(st: State, lost: bool, sidecar: nat, contents: seq<Bytes>, steps: seq<Step>)
    requires OnP2P(st) && st.session.sidecar == Some(sidecar)
    requires Recovery(st.trace.sockets, lost, sidecar, contents, steps)
    ensures Run(st, steps[..if lost then 2 else 1]) == Reconnecting(st)
  {
    hide After, Reconnecting, Reported, DeviceFrames;
    if lost {
      LossIsReported(st, sidecar, steps[0]);
      TwoSteps(st, steps[0], steps[1]);
      assert steps[..2] == [steps[0], steps[1]];
      RequestReconnects(st, true, steps[1]);
    } else {
      RunOne(st, steps[0]);
      assert steps[..1] == [steps[0]];
      RequestReconnects(st, false, steps[0]);
    }
  }

  /**
   * A recovery, whether or not the loss of the sidecar was noticed first: the frames
   * that the device sent meanwhile reach the relay in order, no control is lost or
   * repeated, and the lease carries data over the relay.
   */
  lemma {:induction false} RecoveryDelivers(st: State, lost: bool, sidecar: nat, contents: seq<Bytes>, steps: seq<Step>)
    requires Inv(st) && OnP2P(st) && st.session.sidecar == Some(sidecar)
    requires Recovery(st.trace.sockets, lost, sidecar, contents, steps)
    ensures var after, t := Run(st, steps), Run(st, steps).trace;
      && CarriesOver(after.session, Path(Relay, st.trace.sockets, sidecar))
      && t.received == t.sent == contents
      && t.writes == st.trace.writes && t.arrived == st.trace.arrived
      && t.transports == [P2P, Relay] && t.relayFrom == Some(|st.trace.writes|)
      && t.signals == st.trace.signals + [Signal(st.session.outgoing, Failed)]
  {
    hide Inv, After, Reconnecting, Opening, DeviceFrames, HeldBack, Drained;
    var h, socket := if lost then 1 else 0, st.trace.sockets;
    var n := h + 2 + |contents|;
    RecoveryStarts(st, lost, sidecar, contents, steps);
    InvOverRun(st, steps[..h + 1]);
    SocketReopens(st, steps[h + 1]);
    ReconnectingFacts(st);
    assert steps[..h + 2][..h + 1] == steps[..h + 1];
    var reopened := Run(st, steps[..h + 2]);
    assert Recovers(reopened.session, socket) by { OpeningRecovers(Reconnecting(st).session, socket); }
    OpeningRecovers(Reconnecting(st).session, socket);
    FramesHeldBack(reopened, socket, contents, steps[h + 2..n]);
    RunAppends(st, steps[..h + 2], steps[h + 2..n]);
    assert steps[..h + 2] + steps[h + 2..n] == steps[..n] && steps[..n + 1] == steps;
    HeldFrames(reopened, contents);
    HeldBackFacts(reopened, socket, contents);
    CommitSends(HeldBack(reopened, contents), socket, steps[n]);
    DrainedFacts(HeldBack(reopened, contents));
  }

  lemma OpeningRecovers(s: Session, socket: nat)
    requires !s.closed && s.recovering && s.selected.None? && s.localSocket == Some(socket)
             && s.protocolVersion == Some(V2) && s.pendingFrames == [] && s.pendingFrameBytes == 0
    ensures Recovers(Opening(s), socket) && Opening(s).pendingFrames == [] && Opening(s).pendingFrameBytes == 0
  {}

  lemma HeldFrames(st: State, contents: seq<Bytes>)
    requires st.session.pendingFrames == [] && st.trace.received == []
    ensures var after := HeldBack(st, contents);
      && after.session.pendingFrames == contents && after.trace.received == contents
      && after.trace.sent == st.trace.sent
      && after.trace.writes == st.trace.writes && after.trace.arrived == st.trace.arrived
      && after.trace.transports == st.trace.transports && after.trace.signals == st.trace.signals
  {
    assert [] + contents == contents;
  }

  lemma {:induction false} InvOverRun(st: State, steps: seq<Step>)
    requires Inv(st)
    ensures Inv(Run(st, steps))
    decreases |steps|
  {
    hide Inv, After;
    if steps != [] {
      InvOverRun(st, steps[..|steps| - 1]);
      StepKeepsInv(Run(st, steps[..|steps| - 1]), steps[|steps| - 1]);
    }
  }

  lemma P2PCarries(st: State, attempt: string, until: int, count: nat)
    requires UnderWay(st, P2P, until, []) && CarriesOver(st.session, Path(P2P, 0, 0)) && count <= 130
    requires st.session.protocolVersion == Some(V2) && !st.session.awaitingRecovery
    requires st.session.attemptId == Some(attempt) && st.session.outgoing == count
    ensures OnP2P(st)
  {}

  lemma {:induction false} TrafficKeepsP2P(st: State, frames: seq<Frame>, steps: seq<Step>)
    requires CarriesOver(st.session, Path(P2P, 0, 0)) && OnP2P(st) && Traffic(Path(P2P, 0, 0), frames, steps)
    ensures var after := Run(st, steps);
      && OnP2P(after) && after.session == st.session && after.trace.sockets == st.trace.sockets
      && |after.trace.arrived| == |st.trace.arrived| + |ForDevice(frames)|
  {
    hide After, Traffic, ForDevice, ForBrowser, Controls, Writes;
    DataFlows(st, Path(P2P, 0, 0), frames, steps);
    ControlsLength(P2P, ForDevice(frames), |st.trace.arrived|);
  }

  /**
   * A whole lease: P2P negotiated and used, a recovery with frames meanwhile, the
   * relay used. Every control reached the device once, in order, over the transport
   * it came by; of the frames of the second local socket none is missing.
   */
  lemma {:induction false} LeaseSurvivesP2P(expiresAt: int, until: int, deadline: int, attempt: string,
                                            candidates: seq<string>, heard: nat, opening: seq<Step>,
                                            before: seq<Frame>, overP2P: seq<Step>,
                                            lost: bool, meanwhile: seq<Bytes>, recovery: seq<Step>,
                                            behind: seq<Frame>, overRelay: seq<Step>)
    requires P2POpening(expiresAt, until, deadline, attempt, candidates, heard, opening)
    requires Traffic(Path(P2P, 0, 0), before, overP2P) && Recovery(1, lost, 0, meanwhile, recovery)
    requires Traffic(Path(Relay, 1, 0), behind, overRelay)
    ensures var after := Run(Open(expiresAt), opening + overP2P + recovery + overRelay);
      var first := ForDevice(before);
      && Carries(after.session, Relay)
      && after.trace.writes
         == Writes(0, Controls(P2P, first, 0)) + Writes(1, Controls(Relay, ForDevice(behind), |first|))
      && after.trace.received == after.trace.sent == meanwhile + ForBrowser(behind)
      && after.trace.transports == [P2P, Relay]
  {
    hide Inv, After, Traffic, P2POpening, Recovery, ForDevice, ForBrowser, Controls, Writes, OnP2P, UnderWay, Heard,
         AnsweredSignals;
    var st := Open(expiresAt);
    P2PStarts(expiresAt, until, deadline, attempt, candidates, heard, opening);
    P2PLeaseDelivers(expiresAt, until, deadline, attempt, candidates, heard, opening, before, overP2P);
    var live, used := Run(st, opening), Run(st, opening + overP2P);
    P2PCarries(live, attempt, until, |candidates| + 2);
    RunAppends(st, opening, overP2P);
    TrafficKeepsP2P(live, before, overP2P);
    RunKeepsInv(expiresAt, opening + overP2P);
    RunAppends(st, opening + overP2P, recovery);
    RecoveryDelivers(used, lost, 0, meanwhile, recovery);
    RunAppends(st, opening + overP2P + recovery, overRelay);
    DataFlows(Run(used, recovery), Path(Relay, 1, 0), behind, overRelay);
  }
}
