/**
 * Leases that work: from opening over the relay or P2P to frames in both
 * directions, and over a recovery from P2P to the relay without losing a frame.
 */
module RemoteSessionRuns {
  import opened Common
  import opened RemoteSession
  import opened RemoteSessionData
  import opened RemoteSessionSafety

  // ------------------------------------------------------- carrying data

  datatype Frame = ToDevice(content: Bytes) | ToBrowser(content: Bytes)

  datatype Path = Path(transport: Transport, socket: nat, sidecar: nat)

  /** The lease carries data over this path. */
  predicate CarriesOver(s: Session, path: Path) {
    && Carries(s, path.transport) && s.localSocket == Some(path.socket)
    && (path.transport == P2P ==> s.sidecar == Some(path.sidecar))
  }

  predicate FrameSize(frame: Frame) {
    1 <= |frame.content| <= if frame.ToDevice? then 65_536 else 4_194_304
  }

  /** The callback that delivers this frame. */
  function Delivery(path: Path, frame: Frame): Event {
    if frame.ToBrowser? then OnLocalBinary(path.socket, frame.content)
    else if path.transport == Relay then OnRelayBinary(frame.content)
    else OnSidecarBinary(path.sidecar, frame.content)
  }

  /** Every socket takes what it is given. */
  predicate TakesAll(env: Env) {
    env.accepted && At(env.local, 0) && At(env.relay, 0)
  }

  function ForDevice(frames: seq<Frame>): seq<Bytes> {
    if frames == [] then []
    else
      var last := frames[|frames| - 1];
      ForDevice(frames[..|frames| - 1]) + if last.ToDevice? then [last.content] else []
  }

  function ForBrowser(frames: seq<Frame>): seq<Bytes> {
    if frames == [] then []
    else
      var last := frames[|frames| - 1];
      ForBrowser(frames[..|frames| - 1]) + if last.ToBrowser? then [last.content] else []
  }

  /** These contents as controls numbered on from `arrival`. */
  function Controls(transport: Transport, contents: seq<Bytes>, arrival: nat): (r: seq<Control>) {
    seq(|contents|, i requires 0 <= i < |contents| => Control(transport, contents[i], arrival + i))
  }

  /** Frames of both directions within the size limits, one step for each, with every socket writable. */
  predicate Traffic(path: Path, frames: seq<Frame>, steps: seq<Step>) {
    && |steps| == |frames|
    && forall i :: 0 <= i < |frames| ==>
         FrameSize(frames[i]) && steps[i].event == Delivery(path, frames[i]) && TakesAll(steps[i].env)
  }

  /** Exactly these frames went to the device and to the browser, and nothing else changed. */
  predicate Delivered(st: State, after: State, path: Path, frames: seq<Frame>) {
    var controls := Controls(path.transport, ForDevice(frames), |st.trace.arrived|);
    && after.session == st.session
    && after.trace == st.trace.(arrived := st.trace.arrived + controls,
                                writes := st.trace.writes + Writes(path.socket, controls),
                                received := st.trace.received + ForBrowser(frames),
                                sent := st.trace.sent + ForBrowser(frames))
  }

  lemma {:induction false} FrameFlows(st: State, path: Path, frame: Frame, step: Step)
    requires CarriesOver(st.session, path) && FrameSize(frame)
    requires step.event == Delivery(path, frame) && TakesAll(step.env)
    ensures var after := After(st, step);
      if frame.ToDevice? then IsWritten(st, after, Control(path.transport, frame.content, |st.trace.arrived|))
      else IsSent(st, after, frame.content)
  {
    hide Close, SendToLocal, IsWritten, IsDropped, IsKept;
    var control := Control(path.transport, frame.content, |st.trace.arrived|);
    HandingOn(st, control, At(step.env.local, 0));
    if frame.ToDevice? && path.transport == Relay {
      RelayFrameOutcome(st, frame.content, At(step.env.local, 0));
    }
  }

  lemma ControlsNext(transport: Transport, contents: seq<Bytes>, arrival: nat, content: Bytes)
    ensures Controls(transport, contents + [content], arrival)
         == Controls(transport, contents, arrival) + [Control(transport, content, arrival + |contents|)]
  {}

  lemma {:induction false} DeliveredNext(st: State, before: State, after: State, path: Path, frames: seq<Frame>,
                                         frame: Frame)
    requires CarriesOver(st.session, path) && Delivered(st, before, path, frames)
    requires
      if frame.ToDevice? then IsWritten(before, after, Control(path.transport, frame.content, |before.trace.arrived|))
      else IsSent(before, after, frame.content)
    ensures Delivered(st, after, path, frames + [frame])
  {
    hide Controls, Writes;
    var contents, arrival, t := ForDevice(frames), |st.trace.arrived|, st.trace;
    var controls, socket := Controls(path.transport, contents, arrival), path.socket;
    var control := Control(path.transport, frame.content, |before.trace.arrived|);
    assert (frames + [frame])[..|frames|] == frames;
    if frame.ToDevice? {
      ControlsLength(path.transport, contents, arrival);
      ControlsNext(path.transport, contents, arrival, frame.content);
      WritesNext(socket, controls, control);
      assert t.arrived + controls + [control] == t.arrived + (controls + [control]);
      assert t.writes + Writes(socket, controls) + [Write(socket, control)]
          == t.writes + (Writes(socket, controls) + [Write(socket, control)]);
      assert ForBrowser(frames + [frame]) == ForBrowser(frames);
    } else {
      assert ForDevice(frames + [frame]) == contents;
      var sent := ForBrowser(frames);
      assert t.sent + sent + [frame.content] == t.sent + (sent + [frame.content]);
      assert t.received + sent + [frame.content] == t.received + (sent + [frame.content]);
    }
  }

  lemma DeliveredKeepsSession(st: State, after: State, path: Path, frames: seq<Frame>)
    requires Delivered(st, after, path, frames)
    ensures after.session == st.session
  {}

  lemma NothingDelivered(st: State, path: Path)
    ensures Delivered(st, st, path, [])
  {}

  lemma ControlsLength(transport: Transport, contents: seq<Bytes>, arrival: nat)
    ensures |Controls(transport, contents, arrival)| == |contents|
  {}

  /**
   * A lease that carries data over the relay or P2P delivers every frame within the
   * size limits, in both directions, in order, as often as it came, and stays as it was.
   */
  lemma {:induction false} DataFlows(st: State, path: Path, frames: seq<Frame>, steps: seq<Step>)
    requires CarriesOver(st.session, path) && Traffic(path, frames, steps)
    ensures Delivered(st, Run(st, steps), path, frames)
    decreases |frames|
  {
    hide After, FrameSize, Delivery, TakesAll, Delivered, IsWritten, IsSent;
    if frames == [] {
      NothingDelivered(st, path);
    } else {
      var n := |frames| - 1;
      var before := Run(st, steps[..n]);
      DataFlows(st, path, frames[..n], steps[..n]);
      assert before.session == st.session by { DeliveredKeepsSession(st, before, path, frames[..n]); }
      FrameFlows(before, path, frames[n], steps[n]);
      DeliveredNext(st, before, Run(st, steps), path, frames[..n], frames[n]);
      assert frames[..n] + [frames[n]] == frames;
    }
  }

  // ---------------------------------------------------- over the relay

  lemma {:induction false} RunAppends(st: State, first: seq<Step>, second: seq<Step>)
    ensures Run(st, first + second) == Run(Run(st, first), second)
    decreases |second|
  {
    hide After;
    if second == [] {
      assert first + second == first;
    } else {
      var n := |second| - 1;
      RunAppends(st, first, second[..n]);
      assert (first + second)[..|first| + n] == first + second[..n];
    }
  }

  lemma {:induction false} RunOne(st: State, step: Step)
    ensures Run(st, [step]) == After(st, step)
  {
    hide After;
    assert [step][..0] == [];
  }

  /** These frames queued behind what waits already. */
  function Waiting(st: State, transport: Transport, contents: seq<Bytes>): State {
    var controls, s := Controls(transport, contents, |st.trace.arrived|), st.session;
    State(s.(pendingControls := s.pendingControls + controls,
             pendingControlBytes := s.pendingControlBytes + TotalBytes(contents)),
          st.trace.(arrived := st.trace.arrived + controls))
  }

  /** An open relay before the selection, with frames of the relay queued at most. */
  predicate BeforeSelection(s: Session) {
    && !s.closed && !s.paired && s.selected.None? && !s.recovering && !s.awaitingRecovery && s.protocolVersion.Some?
    && s.localSocket.None? && AllOver(s.pendingControls, Relay)
  }

  lemma {:induction false} OneWaits(st: State, before: State, contents: seq<Bytes>, content: Bytes)
    requires before == Waiting(st, Relay, contents)
    ensures var control := Control(Relay, content, |before.trace.arrived|);
      var after := Waiting(st, Relay, contents + [content]);
      && after.session == Keeping(before.session, control)
      && after.trace == before.trace.(arrived := before.trace.arrived + [control])
  {
    hide Controls;
    var arrival := |st.trace.arrived|;
    var controls := Controls(Relay, contents, arrival);
    var control := Control(Relay, content, |before.trace.arrived|);
    ControlsLength(Relay, contents, arrival);
    ControlsNext(Relay, contents, arrival, content);
    TotalAppended(contents, content);
    assert st.trace.arrived + controls + [control] == st.trace.arrived + (controls + [control]);
    assert st.session.pendingControls + controls + [control] == st.session.pendingControls + (controls + [control]);
  }

  lemma NoneWaiting(st: State)
    ensures Waiting(st, Relay, []) == st
  {
    assert st.trace.arrived + [] == st.trace.arrived && st.session.pendingControls + [] == st.session.pendingControls;
  }

  lemma {:induction false} WaitingFacts(st: State, contents: seq<Bytes>)
    requires BeforeSelection(st.session)
    ensures BeforeSelection(Waiting(st, Relay, contents).session)
    ensures var s := Waiting(st, Relay, contents).session;
      !Bridge(s) && s.pendingControlBytes == st.session.pendingControlBytes + TotalBytes(contents)
  {
    var before, controls := st.session.pendingControls, Controls(Relay, contents, |st.trace.arrived|);
    assert AllOver(before + controls, Relay);
  }

  predicate RelayFrames(contents: seq<Bytes>, steps: seq<Step>) {
    && |steps| == |contents|
    && forall i :: 0 <= i < |contents| ==> ControlSize(contents[i]) && steps[i].event == OnRelayBinary(contents[i])
  }

  lemma {:induction false} FramesWait(st: State, contents: seq<Bytes>, steps: seq<Step>)
    requires BeforeSelection(st.session) && RelayFrames(contents, steps)
    requires st.session.pendingControlBytes + TotalBytes(contents) <= 262_144
    ensures Run(st, steps) == Waiting(st, Relay, contents)
    decreases |contents|
  {
    hide BeforeSelection, Waiting, RelayBinary, ControlSize, Keeping;
    if contents == [] {
      NoneWaiting(st);
    } else {
      var n := |contents| - 1;
      var before, content := Run(st, steps[..n]), contents[n];
      TotalAppended(contents[..n], content);
      assert contents[..n] + [content] == contents;
      FramesWait(st, contents[..n], steps[..n]);
      WaitingFacts(st, contents[..n]);
      OneWaits(st, before, contents[..n], content);
      OneFrameWaits(before, content, At(steps[n].env.local, 0));
    }
  }

  lemma {:induction false} OneFrameWaits(st: State, content: Bytes, writable: bool)
    requires BeforeSelection(st.session) && ControlSize(content)
    requires st.session.pendingControlBytes + |content| <= 262_144
    ensures IsKept(st, RelayBinary(st, content, writable), Control(Relay, content, |st.trace.arrived|))
  {
    hide RelayBinary, IsKept, IsDropped, AllOver;
    RelayFrameOutcome(st, content, writable);
  }

  /** The lease over the chosen transport, its next local socket under way. */
  function Chose(s: Session, transport: Transport, until: int, socket: nat): Session {
    s.(expiresAt := until, paired := true, selected := Some(transport), localSocket := Some(socket),
       localReady := false, sidecar := if transport == Relay then None else s.sidecar)
  }

  function Limited(st: State, until: int): State {
    st.(session := st.session.(expiresAt := until))
  }

  lemma {:induction false} SelectionGoesThrough(st: State, transport: Transport, until: int, now: int)
    requires var s := st.session; !s.closed && !s.paired && !s.awaitingRecovery
    requires transport == P2P ==> st.session.p2pReady && st.session.sidecar.Some?
    requires now < until <= st.session.expiresAt && AllOver(st.session.pendingControls, transport)
    ensures SelectInitial(st, transport, until, now) == ConnectLocal(Chosen(Limited(st, until), transport))
  {
    hide ConnectLocal, Chosen, Close;
  }

  lemma {:induction false} ChosenSession(st: State, transport: Transport)
    ensures Chosen(st, transport).trace == Selection(st.trace, transport)
    ensures Chosen(st, transport).session
         == st.session.(paired := true, selected := Some(transport),
                        sidecar := if transport == Relay then None else st.session.sidecar)
  {
    hide Selection;
  }

  lemma Connecting(st: State)
    requires !st.session.closed && st.session.localSocket.None?
    ensures ConnectLocal(st).session == st.session.(localSocket := Some(st.trace.sockets), localReady := false)
    ensures ConnectLocal(st).trace == st.trace.(sockets := st.trace.sockets + 1, received := [], sent := [])
  {}

  lemma {:induction false} SelectionOutcome(st: State, transport: Transport, until: int, now: int)
    requires var s := st.session; !s.closed && !s.paired && !s.awaitingRecovery && s.localSocket.None?
    requires transport == P2P ==> st.session.p2pReady && st.session.sidecar.Some?
    requires now < until <= st.session.expiresAt && AllOver(st.session.pendingControls, transport)
    requires st.trace.transports == []
    ensures var after, t := SelectInitial(st, transport, until, now), st.trace;
      && after.session == Chose(st.session, transport, until, t.sockets)
      && after.trace == t.(transports := [transport], sockets := t.sockets + 1, received := [], sent := [],
                           relayFrom := if transport == Relay then Some(|t.writes|) else t.relayFrom)
  {
    hide ConnectLocal, Chosen, Close, SelectInitial, AllOver;
    SelectionGoesThrough(st, transport, until, now);
    ChosenSession(Limited(st, until), transport);
    Connecting(Chosen(Limited(st, until), transport));
  }

  /** Exactly when the first selection closes an open lease; a later expiry than the present one is refused. */
  lemma {:induction false} SelectionClosesIff(st: State, transport: Transport, until: int, now: int)
    requires !st.session.closed
    ensures var s := st.session;
      var unusable := transport == P2P && !(s.p2pReady && s.sidecar.Some?);
      SelectInitial(st, transport, until, now).session.closed
      <==> s.paired || s.awaitingRecovery || !(now < until <= s.expiresAt)
           || !AllOver(s.pendingControls, transport)
           || (unusable && !(s.readyReported && s.failureReported))
  {
    hide ConnectLocal, Chosen, Close, AllOver, OtherTransportQueued, Selection;
    ClosingKeepsTrace(st);
    ConnectingStaysOpen(Chosen(Limited(st, until), transport));
    ChosenSession(Limited(st, until), transport);
    assert Limited(st, until).session.closed == st.session.closed;
    OneTransportIff(st.session.pendingControls, transport);
  }

  lemma OneTransportIff(pending: seq<Control>, transport: Transport)
    ensures AllOver(pending, transport) <==> !OtherTransportQueued(pending, transport)
  {}

  lemma ConnectingStaysOpen(st: State)
    ensures ConnectLocal(st).session.closed == st.session.closed
  {}

  lemma RelayOpenedOutcome(expiresAt: int, version: Protocol, now: int)
    requires now < expiresAt
    ensures var after := RelayOpened(Open(expiresAt), Some(version), now);
      && after.session == Open(expiresAt).session.(protocolVersion := Some(version))
      && after.trace == Open(expiresAt).trace
  {}

  /** The lease carries data; its local socket got these controls and nothing has come back yet. */
  predicate UnderWay(st: State, transport: Transport, until: int, controls: seq<Control>) {
    && Carries(st.session, transport) && st.session.expiresAt == until && st.session.localSocket == Some(0)
    && st.trace.arrived == controls && st.trace.writes == Writes(0, controls)
    && st.trace.received == [] && st.trace.sent == [] && st.trace.transports == [transport]
  }

  /** The relay opens, frames come in early, the relay is selected and the local socket opens. */
  predicate RelayOpening(expiresAt: int, until: int, version: Protocol, early: seq<Bytes>, opening: seq<Step>) {
    var n := |early|;
    && |opening| == n + 3
    && opening[0].event == OnRelayOpened(Some(version)) && opening[0].env.now < expiresAt
    && RelayFrames(early, opening[1..n + 1]) && TotalBytes(early) <= 262_144
    && opening[n + 1].event == OnRelayText(ReadyFrame(Relay, until)) && opening[n + 1].env.now < until <= expiresAt
    && opening[n + 2].event == OnLocalOpened(0) && AllTaken(n, opening[n + 2].env.local)
  }

  lemma {:induction false} EarlyFrames(expiresAt: int, version: Protocol, early: seq<Bytes>, first: Step,
                                       steps: seq<Step>)
    requires first.event == OnRelayOpened(Some(version)) && first.env.now < expiresAt
    requires RelayFrames(early, steps) && TotalBytes(early) <= 262_144
    ensures var after := Run(Open(expiresAt), [first] + steps);
      && BeforeSelection(after.session) && after.session.expiresAt == expiresAt
      && after.session.protocolVersion == Some(version)
      && after.session.pendingControls == Controls(Relay, early, 0)
      && after.trace == Open(expiresAt).trace.(arrived := Controls(Relay, early, 0))
  {
    hide Controls, RelayFrames;
    var connected := After(Open(expiresAt), first);
    RelayOpenedOutcome(expiresAt, version, first.env.now);
    RunAppends(Open(expiresAt), [first], steps);
    RunOne(Open(expiresAt), first);
    FramesWait(connected, early, steps);
    WaitingFacts(connected, early);
    assert [] + Controls(Relay, early, 0) == Controls(Relay, early, 0);
  }

  lemma {:induction false} RelayStarts(expiresAt: int, until: int, version: Protocol, early: seq<Bytes>,
                                       opening: seq<Step>)
    requires RelayOpening(expiresAt, until, version, early, opening)
    ensures UnderWay(Run(Open(expiresAt), opening), Relay, until, Controls(Relay, early, 0))
  {
    hide Controls, RelayFrames, Inv, After, SelectInitial, LocalOpened, Writes;
    var n, controls := |early|, Controls(Relay, early, 0);
    var waiting := Run(Open(expiresAt), opening[..n + 1]);
    var selected := After(waiting, opening[n + 1]);
    assert opening[..n + 1] == [opening[0]] + opening[1..n + 1];
    EarlyFrames(expiresAt, version, early, opening[0], opening[1..n + 1]);
    assert opening[..n + 2][..n + 1] == opening[..n + 1] && opening[..n + 3] == opening;
    RelaySelects(waiting, until, version, opening[n + 1]);
    SelectionOutcome(waiting, Relay, until, opening[n + 1].env.now);
    assert selected == Run(Open(expiresAt), opening[..n + 2]);
    RunKeepsInv(expiresAt, opening[..n + 2]);
    ControlsLength(Relay, early, 0);
    SocketOpens(selected, controls, opening[n + 2]);
  }

  lemma {:induction false} RelaySelects(st: State, until: int, version: Protocol, step: Step)
    requires !st.session.closed && st.session.protocolVersion == Some(version)
    requires step.event == OnRelayText(ReadyFrame(Relay, until))
    ensures After(st, step) == SelectInitial(st, Relay, until, step.env.now)
  {
    hide SelectInitial, Close;
  }

  lemma {:induction false} SocketOpens(st: State, controls: seq<Control>, step: Step)
    requires Inv(st) && !st.session.closed && !st.session.recovering && st.session.localSocket == Some(0)
    requires st.session.pendingControls == controls
    requires forall c :: c in controls ==> st.session.selected == Some(c.transport)
    requires step.event == OnLocalOpened(0) && AllTaken(|controls|, step.env.local)
    ensures var after := After(st, step);
      && after.session == Opening(st.session)
      && after.trace == st.trace.(writes := st.trace.writes + Writes(0, controls))
  {
    hide Inv, LocalOpened, Opening, Writes;
    LocalOpenedOutcome(st, 0, step.env.local, At(step.env.relay, 0));
    assert controls[..|controls|] == controls;
  }

  /** The lease still carries data, the device got these contents and the browser those, all in order. */
  predicate Carried(st: State, transport: Transport, toDevice: seq<Bytes>, toBrowser: seq<Bytes>) {
    && Carries(st.session, transport) && st.session.localSocket == Some(0)
    && st.trace.writes == Writes(0, Controls(transport, toDevice, 0))
    && st.trace.received == st.trace.sent == toBrowser
  }

  lemma ControlsTogether(transport: Transport, first: seq<Bytes>, second: seq<Bytes>)
    ensures Controls(transport, first, 0) + Controls(transport, second, |first|)
         == Controls(transport, first + second, 0)
    ensures forall a: seq<Control>, b: seq<Control> {:trigger Writes(0, a + b)} ::
              Writes(0, a) + Writes(0, b) == Writes(0, a + b)
  {}

  lemma {:induction false} TrafficBehindOpening(st: State, transport: Transport, until: int, early: seq<Bytes>,
                                                frames: seq<Frame>, steps: seq<Step>)
    requires UnderWay(st, transport, until, Controls(transport, early, 0))
    requires CarriesOver(st.session, Path(transport, 0, 0)) && Traffic(Path(transport, 0, 0), frames, steps)
    ensures Carried(Run(st, steps), transport, early + ForDevice(frames), ForBrowser(frames))
  {
    hide After, FrameSize, Delivery, Controls, Writes;
    DataFlows(st, Path(transport, 0, 0), frames, steps);
    ControlsLength(transport, early, 0);
    ControlsTogether(transport, early, ForDevice(frames));
    assert Controls(transport, early + ForDevice(frames), 0)
        == Controls(transport, early, 0) + Controls(transport, ForDevice(frames), |early|);
  }

  /**
   * A lease over the relay, whatever the times and contents are: the frames that come
   * before the local socket is open and all later ones reach the device once and in
   * order, and every device frame reaches the relay.
   */
  lemma {:induction false} RelayLeaseDelivers(expiresAt: int, until: int, version: Protocol, early: seq<Bytes>,
                                              opening: seq<Step>, frames: seq<Frame>, steps: seq<Step>)
    requires RelayOpening(expiresAt, until, version, early, opening) && Traffic(Path(Relay, 0, 0), frames, steps)
    ensures Carried(Run(Open(expiresAt), opening + steps), Relay, early + ForDevice(frames), ForBrowser(frames))
  {
    hide After, Traffic, RelayOpening, Controls, Carried;
    RelayStarts(expiresAt, until, version, early, opening);
    RunAppends(Open(expiresAt), opening, steps);
    TrafficBehindOpening(Run(Open(expiresAt), opening), Relay, until, early, frames, steps);
  }

  // ----------------------------------------------------------- over P2P

  /** An attempt that runs: the signals heard so far and the candidates kept back. */
  function Attempt(expiresAt: int, attempt: string, heard: nat, kept: seq<string>): Session {
    Open(expiresAt).session.(protocolVersion := Some(V2), attemptId := Some(attempt), sidecar := Some(0),
                             incoming := heard, pendingCandidates := kept)
  }

  lemma {:induction false} AttemptStarts(expiresAt: int, attempt: string, deadline: int, first: Step, second: Step)
    requires first.event == OnRelayOpened(Some(V2)) && first.env.now < expiresAt
    requires second.event == OnRelayText(StartFrame(attempt, deadline)) && second.env.creation.Started?
    requires second.env.now < deadline <= expiresAt
    ensures After(After(Open(expiresAt), first), second)
         == State(Attempt(expiresAt, attempt, 0, []), Open(expiresAt).trace.(sidecarsStarted := 1))
  {}

  /** The offer is number 0, candidates follow; the sidecar gets every one. */
  lemma {:induction false} SignalHanded(st: State, expiresAt: int, attempt: string, heard: nat, step: Step)
    requires st.session == Attempt(expiresAt, attempt, heard, [])
    requires step.event == OnRelayText(SignalFrame(attempt, heard, heard == 0, true)) && step.env.applies
    ensures After(st, step) == State(Attempt(expiresAt, attempt, heard + 1, []),
                                     st.trace.(applied := st.trace.applied + [Applied(heard, heard == 0)]))
  {}

  /** Exactly when a signal closes an open lease that has its sidecar. */
  lemma {:induction false} SignalClosesIff(st: State, attempt: string, number: nat, isOffer: bool, usable: bool,
                                           applies: bool, writable: bool)
    requires Inv(st) && !st.session.closed && st.session.sidecar.Some?
    ensures var s := st.session;
      var expected := s.attemptId == Some(attempt) && number == s.incoming && (isOffer <==> number == 0);
      RemoteSignal(st, attempt, number, isOffer, usable, applies, writable).session.closed
      <==> !expected || (!(usable && applies) && !CanReport(s, writable))
  {
    hide Inv, ReportInitialFailure, Close;
    AttemptFacts(st);
    ClosingKeepsTrace(st);
    var counted := Counted(st);
    var handed := if usable then Handed(st, Applied(number, isOffer)) else counted;
    if !(usable && applies) {
      InitialFailureOutcome(handed, writable);
    }
  }

  lemma {:induction false} CandidateKept(st: State, expiresAt: int, attempt: string, heard: nat, kept: seq<string>,
                                         candidate: string, step: Step)
    requires st.session == Attempt(expiresAt, attempt, heard, kept) && |kept| < 128
    requires step.event == OnSidecarCandidate(0, candidate)
    ensures After(st, step) == State(Attempt(expiresAt, attempt, heard, kept + [candidate]), st.trace)
  {}

  function Candidates(first: nat, count: nat): (r: seq<Signal>) {
    seq(count, i requires 0 <= i < count => Signal(first + i, Candidate))
  }

  lemma CandidatesNext(first: nat, count: nat)
    ensures Candidates(first, count) + [Signal(first + count, Candidate)] == Candidates(first, count + 1)
  {}

  lemma {:induction false} CandidatesGoOut(st: State, count: nat, writable: seq<bool>)
    requires !st.session.closed && st.session.attemptId.Some? && st.session.outgoing + count <= 1_000_000
    requires forall i :: 1 <= i <= count ==> At(writable, i)
    ensures var after := SendCandidates(st, count, writable);
      && after.session == st.session.(outgoing := st.session.outgoing + count)
      && after.trace == st.trace.(signals := st.trace.signals + Candidates(st.session.outgoing, count))
    decreases count
  {
    hide SendSignal, Recorded, Candidates;
    if count == 0 {
      assert Candidates(st.session.outgoing, 0) == [] by { NoCandidates(st.session.outgoing); }
    } else {
      var before, first := SendCandidates(st, count - 1, writable), st.session.outgoing;
      CandidatesGoOut(st, count - 1, writable);
      SignalOutcome(before, Candidate, At(writable, count));
      RecordedIs(before, Candidate);
      CandidatesNext(first, count - 1);
      assert st.trace.signals + Candidates(first, count - 1) + [Signal(first + (count - 1), Candidate)]
          == st.trace.signals + (Candidates(first, count - 1) + [Signal(first + (count - 1), Candidate)]);
    }
  }

  lemma NoCandidates(first: nat)
    ensures Candidates(first, 0) == []
  {}

  function Heard(count: nat): (r: seq<Applied>) {
    seq(count, i requires 0 <= i < count => Applied(i, i == 0))
  }

  lemma HeardNext(count: nat)
    ensures Heard(0) == [] && Heard(count) + [Applied(count, count == 0)] == Heard(count + 1)
  {}

  predicate Signals(attempt: string, steps: seq<Step>) {
    forall i: nat :: i < |steps| ==>
      steps[i].event == OnRelayText(SignalFrame(attempt, i, i == 0, true)) && steps[i].env.applies
  }

  lemma {:induction false} SignalsHanded(st: State, expiresAt: int, attempt: string, steps: seq<Step>)
    requires st.session == Attempt(expiresAt, attempt, 0, []) && st.trace.applied == []
    requires Signals(attempt, steps)
    ensures Run(st, steps)
         == State(Attempt(expiresAt, attempt, |steps|, []), st.trace.(applied := Heard(|steps|)))
    decreases |steps|
  {
    hide After, Attempt, Heard;
    HeardNext(|steps|);
    if steps != [] {
      var n := |steps| - 1;
      SignalsHanded(st, expiresAt, attempt, steps[..n]);
      HeardNext(n);
      SignalHanded(Run(st, steps[..n]), expiresAt, attempt, n, steps[n]);
    }
  }

  predicate LocalCandidates(candidates: seq<string>, steps: seq<Step>) {
    && |steps| == |candidates|
    && forall i :: 0 <= i < |steps| ==> steps[i].event == OnSidecarCandidate(0, candidates[i])
  }

  lemma {:induction false} CandidatesKept(st: State, expiresAt: int, attempt: string, heard: nat,
                                          candidates: seq<string>, steps: seq<Step>)
    requires st.session == Attempt(expiresAt, attempt, heard, [])
    requires LocalCandidates(candidates, steps) && |candidates| <= 128
    ensures Run(st, steps) == State(Attempt(expiresAt, attempt, heard, candidates), st.trace)
    decreases |steps|
  {
    hide After, Attempt;
    if steps != [] {
      var n := |steps| - 1;
      CandidatesKept(st, expiresAt, attempt, heard, candidates[..n], steps[..n]);
      CandidateKept(Run(st, steps[..n]), expiresAt, attempt, heard, candidates[..n], candidates[n], steps[n]);
      assert candidates[..n] + [candidates[n]] == candidates;
    }
  }

  /** The answer went out as number 0, the candidates behind it. */
  function AnsweredSignals(count: nat): seq<Signal> {
    [Signal(0, Answer)] + Candidates(1, count)
  }

  lemma {:induction false} DescriptionOutcome(st: State, expiresAt: int, attempt: string, heard: nat,
                                              kept: seq<string>, step: Step)
    requires st.session == Attempt(expiresAt, attempt, heard, kept) && st.trace.signals == [] && |kept| <= 128
    requires step.event == OnSidecarDescription(0) && AllTaken(|kept| + 1, step.env.relay)
    ensures var after := After(st, step);
      && after.session == Attempt(expiresAt, attempt, heard, []).(answerSent := true, outgoing := |kept| + 1)
      && after.trace == st.trace.(signals := AnsweredSignals(|kept|))
  {
    hide SendSignal, Recorded, Candidates, SendCandidates;
    var writable := step.env.relay;
    SignalOutcome(st, Answer, At(writable, 0));
    RecordedIs(st, Answer);
    var answered := Answered(Recorded(st, Answer));
    assert answered.session == Attempt(expiresAt, attempt, heard, []).(answerSent := true, outgoing := 1);
    assert After(st, step) == SendCandidates(answered, |kept|, writable);
    CandidatesGoOut(answered, |kept|, writable);
    assert [] + [Signal(0, Answer)] == [Signal(0, Answer)];
  }

  lemma {:induction false} ReadyOutcome(st: State, expiresAt: int, attempt: string, heard: nat, sent: nat, step: Step)
    requires st.session == Attempt(expiresAt, attempt, heard, []).(answerSent := true, outgoing := sent)
    requires sent <= 1_000_000 && step.event == OnSidecarState(0, SidecarReady) && At(step.env.relay, 0)
    ensures var after := After(st, step);
      && after.session == Attempt(expiresAt, attempt, heard, []).(answerSent := true, outgoing := sent + 1,
                                                                 p2pReady := true, readyReported := true)
      && after.trace == st.trace.(signals := st.trace.signals + [Signal(sent, Ready)])
  {}

  /**
   * The start of an attempt, the signals for its sidecar (the offer first), the
   * sidecar's candidates and then its answer, its readiness, the selection of P2P and
   * the local socket.
   */
  predicate P2POpening(expiresAt: int, until: int, deadline: int, attempt: string, candidates: seq<string>,
                       heard: nat, opening: seq<Step>)
  {
    var k, m := 2 + heard, 2 + heard + |candidates|;
    && |opening| == m + 4 && |candidates| <= 128
    && opening[0].event == OnRelayOpened(Some(V2)) && opening[0].env.now < expiresAt
    && opening[1].event == OnRelayText(StartFrame(attempt, deadline)) && opening[1].env.creation.Started?
    && opening[1].env.now < deadline <= expiresAt
    && Signals(attempt, opening[2..k]) && LocalCandidates(candidates, opening[k..m])
    && opening[m].event == OnSidecarDescription(0) && AllTaken(|candidates| + 1, opening[m].env.relay)
    && opening[m + 1].event == OnSidecarState(0, SidecarReady) && At(opening[m + 1].env.relay, 0)
    && opening[m + 2].event == OnRelayText(ReadyFrame(P2P, until)) && opening[m + 2].env.now < until <= expiresAt
    && opening[m + 3].event == OnLocalOpened(0)
  }

  lemma {:induction false} TwoSteps(st: State, first: Step, second: Step)
    ensures Run(st, [first, second]) == After(After(st, first), second)
  {
    hide After;
    RunAppends(st, [first], [second]);
    RunOne(st, first);
    RunOne(After(st, first), second);
    assert [first] + [second] == [first, second];
  }

  /** Up to the candidates that wait for the answer. */
  lemma {:induction false} AttemptRuns(expiresAt: int, until: int, deadline: int, attempt: string,
                                       candidates: seq<string>, heard: nat, opening: seq<Step>)
    requires P2POpening(expiresAt, until, deadline, attempt, candidates, heard, opening)
    ensures Run(Open(expiresAt), opening[..2 + heard + |candidates|])
         == State(Attempt(expiresAt, attempt, heard, candidates),
                  Open(expiresAt).trace.(sidecarsStarted := 1, applied := Heard(heard)))
  {
    hide After, Attempt, Heard, Signals, LocalCandidates;
    var k, m, st := 2 + heard, 2 + heard + |candidates|, Open(expiresAt);
    AttemptStarts(expiresAt, attempt, deadline, opening[0], opening[1]);
    TwoSteps(st, opening[0], opening[1]);
    var attempted := Run(st, [opening[0], opening[1]]);
    RunAppends(st, [opening[0], opening[1]], opening[2..k]);
    assert [opening[0], opening[1]] + opening[2..k] == opening[..k];
    assert attempted.session == Attempt(expiresAt, attempt, 0, []);
    SignalsHanded(attempted, expiresAt, attempt, opening[2..k]);
    RunAppends(st, opening[..k], opening[k..m]);
    assert opening[..k] + opening[k..m] == opening[..m];
    CandidatesKept(Run(st, opening[..k]), expiresAt, attempt, heard, candidates, opening[k..m]);
  }

  /** Up to the report that P2P is ready. */
  lemma {:induction false} P2PNegotiates(expiresAt: int, until: int, deadline: int, attempt: string,
                                         candidates: seq<string>, heard: nat, opening: seq<Step>)
    requires P2POpening(expiresAt, until, deadline, attempt, candidates, heard, opening)
    ensures var after := Run(Open(expiresAt), opening[..4 + heard + |candidates|]);
      && after.session == Attempt(expiresAt, attempt, heard, []).(answerSent := true, outgoing := |candidates| + 2,
                                                                  p2pReady := true, readyReported := true)
      && after.trace == Open(expiresAt).trace.(sidecarsStarted := 1, applied := Heard(heard),
                            signals := AnsweredSignals(|candidates|) + [Signal(|candidates| + 1, Ready)])
  {
    hide After, Attempt, Heard, AnsweredSignals;
    var m := 2 + heard + |candidates|;
    AttemptRuns(expiresAt, until, deadline, attempt, candidates, heard, opening);
    assert opening[..m + 1][..m] == opening[..m] && opening[..m + 2][..m + 1] == opening[..m + 1];
    DescriptionOutcome(Run(Open(expiresAt), opening[..m]), expiresAt, attempt, heard, candidates, opening[m]);
    ReadyOutcome(Run(Open(expiresAt), opening[..m + 1]), expiresAt, attempt, heard, |candidates| + 1, opening[m + 1]);
  }

  lemma {:induction false} P2PSelects(st: State, until: int, step: Step)
    requires !st.session.closed && st.session.protocolVersion == Some(V2)
    requires step.event == OnRelayText(ReadyFrame(P2P, until))
    ensures After(st, step) == SelectInitial(st, P2P, until, step.env.now)
  {
    hide SelectInitial, Close;
  }

  /** Negotiated, selected, and the local socket open. */
  lemma {:induction false} P2PStarts(expiresAt: int, until: int, deadline: int, attempt: string,
                                     candidates: seq<string>, heard: nat, opening: seq<Step>)
    requires P2POpening(expiresAt, until, deadline, attempt, candidates, heard, opening)
    ensures var after := Run(Open(expiresAt), opening);
      && UnderWay(after, P2P, until, []) && CarriesOver(after.session, Path(P2P, 0, 0))
      && after.session.outgoing == |candidates| + 2 && after.session.attemptId == Some(attempt)
      && after.session.protocolVersion == Some(V2) && !after.session.awaitingRecovery
      && after.trace.arrived == [] && after.trace.sockets == 1 && |candidates| <= 128
      && after.trace.signals == AnsweredSignals(|candidates|) + [Signal(|candidates| + 1, Ready)]
      && after.trace.applied == Heard(heard)
  {
    hide Inv, After, SelectInitial, Heard, AnsweredSignals, Signals, LocalCandidates;
    var m := 2 + heard + |candidates|;
    var ready := Run(Open(expiresAt), opening[..m + 2]);
    P2PNegotiates(expiresAt, until, deadline, attempt, candidates, heard, opening);
    assert opening[..m + 3][..m + 2] == opening[..m + 2] && opening[..m + 4] == opening;
    P2PSelects(ready, until, opening[m + 2]);
    SelectionOutcome(ready, P2P, until, opening[m + 2].env.now);
    var selected := Run(Open(expiresAt), opening[..m + 3]);
    RunKeepsInv(expiresAt, opening[..m + 3]);
    SocketOpens(selected, [], opening[m + 3]);
    NoWrites(0);
  }

  /**
   * A lease over P2P, whatever the times, candidates and contents are: the answer and
   * the candidates kept back for it go out in order, and every later frame reaches the
   * device or the browser once and in order.
   */
  lemma {:induction false} P2PLeaseDelivers(expiresAt: int, until: int, deadline: int, attempt: string,
                                            candidates: seq<string>, heard: nat, opening: seq<Step>,
                                            frames: seq<Frame>, steps: seq<Step>)
    requires P2POpening(expiresAt, until, deadline, attempt, candidates, heard, opening)
    requires Traffic(Path(P2P, 0, 0), frames, steps)
    ensures var after := Run(Open(expiresAt), opening + steps);
      && Carried(after, P2P, ForDevice(frames), ForBrowser(frames))
      && after.trace.signals == AnsweredSignals(|candidates|) + [Signal(|candidates| + 1, Ready)]
      && after.trace.applied == Heard(heard)
  {
    hide After, Traffic, P2POpening, Carried, Heard, AnsweredSignals;
    P2PStarts(expiresAt, until, deadline, attempt, candidates, heard, opening);
    RunAppends(Open(expiresAt), opening, steps);
    var ready := Run(Open(expiresAt), opening);
    assert Controls(P2P, [], 0) == [];
    TrafficBehindOpening(ready, P2P, until, [], frames, steps);
    assert [] + ForDevice(frames) == ForDevice(frames);
    DataFlows(ready, Path(P2P, 0, 0), frames, steps);
  }
}
