/**
 * One remote-control lease (mobile/src/remote-session-peer.ts): relay messages,
 * sidecar callbacks, the local scrcpy socket and timers are atomic steps over
 * one session record. The trace records what arrived and what was written.
 */
module RemoteSession {
  import opened Common

  datatype Transport = Relay | P2P
  datatype Protocol = V1 | V2

  type Bytes = seq<byte>

  const BROWSER_FRAME_MAX := 64 * 1024
  const DEVICE_FRAME_MAX := 4 * 1024 * 1024
  const PENDING_CONTROL_MAX := 4 * BROWSER_FRAME_MAX
  const PENDING_DEVICE_MAX := 8 * 1024 * 1024
  const MAX_CANDIDATES := 128
  const MAX_SEQUENCE := 1_000_000

  /** A browser control frame; `arrival` numbers the frames of a lease as they come in. */
  datatype Control = Control(transport: Transport, content: Bytes, arrival: nat)

  datatype Session = Session(
    expiresAt: int,
    protocolVersion: Option<Protocol>,
    localSocket: Option<nat>,
    localReady: bool,
    sidecar: Option<nat>,
    selected: Option<Transport>,
    paired: bool,
    bridged: bool,
    recovering: bool,
    awaitingRecovery: bool,
    closed: bool,
    attemptId: Option<string>,
    incoming: nat,
    outgoing: nat,
    p2pReady: bool,
    readyReported: bool,
    failureReported: bool,
    pendingCandidates: seq<string>,
    answerSent: bool,
    pendingControls: seq<Control>,
    pendingControlBytes: nat,
    pendingFrames: seq<Bytes>,
    pendingFrameBytes: nat,
    disconnectedTimer: bool)

  datatype SignalKind = Answer | Candidate | Ready | Failed
  datatype Signal = Signal(sequence: nat, kind: SignalKind)
  datatype Applied = Applied(sequence: nat, isOffer: bool)
  datatype Write = Write(socket: nat, control: Control)

  /**
   * `received` and `sent` concern the current local socket only; `relayFrom`
   * marks the writes made before the relay took over.
   */
  datatype Trace = Trace(
    arrived: seq<Control>,
    writes: seq<Write>,
    relayFrom: Option<nat>,
    received: seq<Bytes>,
    sent: seq<Bytes>,
    transports: seq<Transport>,
    sidecarsStarted: nat,
    sockets: nat,
    signals: seq<Signal>,
    applied: seq<Applied>)

  datatype State = State(session: Session, trace: Trace)

  function Open(expiresAt: int): State {
    State(Session(expiresAt, None, None, false, None, None, false, false, false, false, false, None, 0, 0,
                  false, false, false, [], false, [], 0, [], 0, false),
          Trace([], [], None, [], [], [], 0, 0, [], []))
  }

  // --------------------------------------------------------- basic actions

  function Close(st: State): State {
    if st.session.closed then st
    else
      st.(session := st.session.(closed := true, disconnectedTimer := false, sidecar := None,
                                 pendingControls := [], pendingControlBytes := 0,
                                 pendingFrames := [], pendingFrameBytes := 0))
  }

  predicate At(flags: seq<bool>, i: nat) {
    i < |flags| && flags[i]
  }

  /** One frame on the signaling socket; an unwritable socket closes the lease. */
  function SendRelayJson(st: State, writable: bool): State {
    if writable then st else Close(st)
  }

  function Taken(st: State): State {
    st.(session := st.session.(outgoing := st.session.outgoing + 1))
  }

  function Recorded(st: State, kind: SignalKind): State {
    Taken(st).(trace := st.trace.(signals := st.trace.signals + [Signal(st.session.outgoing, kind)]))
  }

  /**
   * One signal or state with the shared sequence number. Closing leaves the relay
   * socket open for a moment: the rest of the stretch that closed the lease still
   * sends what the socket takes.
   */
  function SendSignal(st: State, kind: SignalKind, writable: bool): State {
    if st.session.attemptId.None? || st.session.outgoing > MAX_SEQUENCE then Close(st)
    else if !writable then Close(Taken(st))
    else Recorded(st, kind)
  }

  function SendCandidates(st: State, count: nat, writable: seq<bool>): State
    decreases count
  {
    if count == 0 then st
    else SendSignal(SendCandidates(st, count - 1, writable), Candidate, At(writable, count))
  }

  function TotalBytes(frames: seq<Bytes>): nat {
    if frames == [] then 0 else TotalBytes(frames[..|frames| - 1]) + |frames[|frames| - 1]|
  }

  function Contents(controls: seq<Control>): (r: seq<Bytes>) {
    seq(|controls|, i requires 0 <= i < |controls| => controls[i].content)
  }

  // ---------------------------------------------------- browser to device

  predicate OtherTransportQueued(pending: seq<Control>, transport: Transport) {
    exists c :: c in pending && c.transport != transport
  }

  /** A control that comes before the local socket is open. */
  function Queued(st: State, control: Control): State {
    var s := st.session;
    if (s.selected.Some? && s.selected.value != control.transport)
      || OtherTransportQueued(s.pendingControls, control.transport) then Close(st)
    else if s.pendingControlBytes + |control.content| > PENDING_CONTROL_MAX then Close(st)
    else
      st.(session := s.(pendingControls := s.pendingControls + [control],
                        pendingControlBytes := s.pendingControlBytes + |control.content|))
  }

  function SendToLocal(st: State, control: Control, writable: bool): State {
    var s := st.session;
    if !s.bridged || s.localSocket.None? || !s.localReady then Queued(st, control)
    else if s.selected != Some(control.transport) then Close(st)
    else if !writable then Close(st)
    else st.(trace := st.trace.(writes := st.trace.writes + [Write(s.localSocket.value, control)]))
  }

  /** The queued controls go to the freshly opened socket until one closes the lease. */
  function Flush(st: State, pending: seq<Control>, writable: seq<bool>): State {
    if pending == [] then st
    else
      var before := Flush(st, pending[..|pending| - 1], writable);
      if before.session.closed then before
      else SendToLocal(before, pending[|pending| - 1], At(writable, |pending| - 1))
  }

  function NextControl(st: State, transport: Transport, content: Bytes): Control {
    Control(transport, content, |st.trace.arrived|)
  }

  function Arrive(st: State, control: Control): State {
    st.(trace := st.trace.(arrived := st.trace.arrived + [control]))
  }

  /** A frame outside 1 byte to 64 KiB, or outside the phase that carries its transport, is never forwarded. */
  function RelayBinary(st: State, content: Bytes, writable: bool): State {
    var s := st.session;
    if s.closed then st
    else
      var control := NextControl(st, Relay, content);
      var seen := Arrive(st, control);
      if |content| == 0 || |content| > BROWSER_FRAME_MAX then Close(seen)
      else if !s.paired then
        if s.protocolVersion.Some? && s.selected.None? && !s.recovering then SendToLocal(seen, control, writable)
        else Close(seen)
      else if s.selected != Some(Relay) then Close(seen)
      else SendToLocal(seen, control, writable)
  }

  function SidecarBinary(st: State, sidecar: nat, content: Bytes, localWritable: bool, relayWritable: bool): State {
    var s := st.session;
    if s.sidecar != Some(sidecar) then st
    else
      var control := NextControl(st, P2P, content);
      var seen := Arrive(st, control);
      if |content| == 0 || |content| > BROWSER_FRAME_MAX then
        if s.paired && s.selected == Some(P2P) then ReportActiveFailure(seen, relayWritable)
        else ReportInitialFailure(seen, relayWritable)
      else if !s.paired then
        if s.protocolVersion == Some(V2) && s.selected.None? && !s.recovering && s.attemptId.Some? && s.p2pReady
        then SendToLocal(seen, control, localWritable)
        else ReportInitialFailure(seen, relayWritable)
      else if s.selected != Some(P2P) then Close(seen)
      else SendToLocal(seen, control, localWritable)
  }

  // ---------------------------------------------------- device to browser

  function SendToRelay(st: State, content: Bytes, writable: bool): State {
    if st.session.selected != Some(Relay) || !writable then Close(st)
    else st.(trace := st.trace.(sent := st.trace.sent + [content]))
  }

  /** Draining goes on behind a frame that was refused and closed the lease. */
  function SendAllToRelay(st: State, frames: seq<Bytes>, writable: seq<bool>): State {
    if frames == [] then st
    else SendToRelay(SendAllToRelay(st, frames[..|frames| - 1], writable), frames[|frames| - 1],
                     At(writable, |frames| - 1))
  }

  function QueueFrame(st: State, content: Bytes): State {
    var s := st.session;
    if s.pendingFrameBytes + |content| > PENDING_DEVICE_MAX then Close(st)
    else
      st.(session := s.(pendingFrames := s.pendingFrames + [content],
                        pendingFrameBytes := s.pendingFrameBytes + |content|))
  }

  /** A frame from the local socket; the sidecar refuses frames outside 1 byte to 4 MiB. */
  function LocalBinary(st: State, socket: nat, content: Bytes, accepted: bool, relayWritable: bool): State {
    var s := st.session;
    if s.closed || s.localSocket != Some(socket) then st
    else if |content| > DEVICE_FRAME_MAX then Close(st)
    else
      var seen := st.(trace := st.trace.(received := st.trace.received + [content]));
      if s.recovering || s.selected.None? then QueueFrame(seen, content)
      else if s.selected == Some(Relay) then SendToRelay(seen, content, relayWritable)
      else if s.sidecar.None? || content == [] || !accepted then ReportActiveFailure(seen, relayWritable)
      else seen.(trace := seen.trace.(sent := seen.trace.sent + [content]))
  }

  // ------------------------------------------------------ P2P negotiation

  function RelayOnly(controls: seq<Control>): seq<Control> {
    if controls == [] then []
    else
      var kept := RelayOnly(controls[..|controls| - 1]);
      if controls[|controls| - 1].transport == Relay then kept + [controls[|controls| - 1]] else kept
  }

  function ReportInitialFailure(st: State, writable: bool): State {
    var s := st.session;
    if s.failureReported || s.attemptId.None? then st
    else
      var kept := RelayOnly(s.pendingControls);
      SendSignal(st.(session := s.(disconnectedTimer := false, failureReported := true, p2pReady := false,
                                   pendingCandidates := [], pendingControls := kept,
                                   pendingControlBytes := TotalBytes(Contents(kept)), sidecar := None)),
                 Failed, writable)
  }

  function ReportActiveFailure(st: State, writable: bool): State {
    var s := st.session;
    if s.recovering || s.selected != Some(P2P) then st
    else
      SendSignal(State(s.(disconnectedTimer := false, recovering := true, paired := false, selected := None,
                          p2pReady := false, failureReported := true, pendingCandidates := [], sidecar := None,
                          localSocket := None, localReady := false, bridged := false,
                          pendingControls := [], pendingControlBytes := 0, pendingFrames := [], pendingFrameBytes := 0),
                       st.trace.(received := [], sent := [])),
                 Failed, writable)
  }

  datatype Creation = Started | StartThrew | NotCreated

  function NewAttempt(s: Session, attemptId: string): Session {
    s.(attemptId := Some(attemptId), incoming := 0, outgoing := 0, p2pReady := false,
       readyReported := false, failureReported := false, pendingCandidates := [], answerSent := false)
  }

  function StartP2P(st: State, attemptId: string, creation: Creation, writable: bool): State {
    var s := st.session;
    if s.closed then st
    else if s.attemptId.Some? || s.sidecar.Some? || s.paired then Close(st)
    else
      var attempt := NewAttempt(s, attemptId);
      if creation == NotCreated then ReportInitialFailure(st.(session := attempt), writable)
      else
        var created := State(attempt.(sidecar := Some(st.trace.sidecarsStarted)),
                             st.trace.(sidecarsStarted := st.trace.sidecarsStarted + 1));
        if creation == Started then created else ReportInitialFailure(created, writable)
  }

  /** The guard shared by the description and candidate callbacks. */
  predicate Negotiating(s: Session, sidecar: nat) {
    s.sidecar == Some(sidecar) && !s.closed && !s.readyReported && !s.failureReported
  }

  function LocalDescription(st: State, sidecar: nat, writable: seq<bool>): State {
    if !Negotiating(st.session, sidecar) then st
    else
      var answered := SendSignal(st, Answer, At(writable, 0));
      SendCandidates(answered.(session := answered.session.(answerSent := true, pendingCandidates := [])),
                     |answered.session.pendingCandidates|, writable)
  }

  function LocalCandidate(st: State, sidecar: nat, candidate: string, writable: bool): State {
    if !Negotiating(st.session, sidecar) then st
    else if st.session.answerSent then SendSignal(st, Candidate, writable)
    else if |st.session.pendingCandidates| >= MAX_CANDIDATES then ReportInitialFailure(st, writable)
    else st.(session := st.session.(pendingCandidates := st.session.pendingCandidates + [candidate]))
  }

  datatype SidecarState = SidecarReady | Disconnected | Gone

  function SidecarChanged(st: State, sidecar: nat, state: SidecarState, writable: bool): State {
    var s := st.session;
    if s.sidecar != Some(sidecar) || s.closed then st
    else
      match state
      case SidecarReady =>
        var ready := s.(disconnectedTimer := false, p2pReady := true);
        if s.paired || s.readyReported || s.failureReported then st.(session := ready)
        else SendSignal(st.(session := ready.(readyReported := true)), Ready, writable)
      case Disconnected =>
        var beforeSelection := !s.paired && s.readyReported && !s.failureReported && s.attemptId.Some?;
        if (s.selected != Some(P2P) && !beforeSelection) || s.disconnectedTimer then st
        else st.(session := s.(disconnectedTimer := true))
      case Gone =>
        if s.selected == Some(P2P) then ReportActiveFailure(st, writable)
        else if !s.paired then ReportInitialFailure(st, writable)
        else st
  }

  function DisconnectTimeout(st: State, writable: bool): State {
    if !st.session.disconnectedTimer then st
    else
      var fired := st.(session := st.session.(disconnectedTimer := false));
      if fired.session.closed then fired
      else if fired.session.selected == Some(P2P) then ReportActiveFailure(fired, writable)
      else if !fired.session.paired && fired.session.readyReported && !fired.session.failureReported
      then ReportInitialFailure(fired, writable)
      else fired
  }

  /** `usable` says whether the signal carries the body its type needs, `applies` whether the sidecar accepts it. */
  function RemoteSignal(st: State, attemptId: string, sequence: nat, isOffer: bool, usable: bool, applies: bool,
                        writable: bool): State
  {
    var s := st.session;
    if s.closed then st
    else if s.sidecar.None? && s.failureReported && !s.p2pReady && s.attemptId == Some(attemptId)
            && sequence == s.incoming && !isOffer
    then st.(session := s.(incoming := s.incoming + 1))
    else if s.sidecar.None? || s.attemptId != Some(attemptId) || sequence != s.incoming || (sequence == 0) != isOffer
    then Close(st)
    else
      var counted := st.(session := s.(incoming := s.incoming + 1));
      var handed :=
        if usable then counted.(trace := st.trace.(applied := st.trace.applied + [Applied(sequence, isOffer)]))
        else counted;
      if usable && applies then handed else ReportInitialFailure(handed, writable)
  }

  // --------------------------------------------- selection and recovery

  function ConnectLocal(st: State): State {
    if st.session.closed || st.session.localSocket.Some? then st
    else
      State(st.session.(localSocket := Some(st.trace.sockets), localReady := false),
            st.trace.(sockets := st.trace.sockets + 1, received := [], sent := []))
  }

  /** A selection enters the history when it differs from the last one. */
  function Selection(t: Trace, transport: Transport): Trace {
    if t.transports != [] && t.transports[|t.transports| - 1] == transport then t
    else t.(transports := t.transports + [transport],
            relayFrom := if transport == Relay then Some(|t.writes|) else t.relayFrom)
  }

  function Select(st: State, transport: Transport): State {
    State(st.session.(paired := true, selected := Some(transport)), Selection(st.trace, transport))
  }

  /** Selecting the relay also detaches the sidecar. */
  function Chosen(st: State, transport: Transport): State {
    var chosen := Select(st, transport);
    if transport == Relay then chosen.(session := chosen.session.(sidecar := None)) else chosen
  }

  function SelectInitial(st: State, transport: Transport, expiresAt: int, now: int): State {
    var s := st.session;
    var unavailable := transport == P2P && (!s.p2pReady || s.sidecar.None?);
    if s.closed then st
    else if s.paired || s.awaitingRecovery || expiresAt <= now || expiresAt > s.expiresAt
            || (unavailable && !(s.readyReported && s.failureReported))
               || OtherTransportQueued(s.pendingControls, transport)
    then Close(st)
    else
      var limited := st.(session := s.(expiresAt := expiresAt));
      if unavailable then limited.(session := limited.session.(awaitingRecovery := true))
      else
        ConnectLocal(Chosen(limited, transport))
  }

  function RecoveryRequested(st: State, writable: bool): State {
    if st.session.closed then st
    else if st.session.awaitingRecovery then
      ConnectLocal(st.(session := st.session.(awaitingRecovery := false, recovering := true)))
    else
      var reported := ReportActiveFailure(st, writable);
      if !reported.session.recovering then Close(reported) else ConnectLocal(reported)
  }

  /** The relay selected, the queue of device frames taken out. */
  function Drained(st: State): State {
    var chosen := Select(st, Relay);
    chosen.(session := chosen.session.(recovering := false, pendingFrames := [], pendingFrameBytes := 0))
  }

  function RecoveryCommitted(st: State, writable: seq<bool>): State {
    var s := st.session;
    if s.closed then st
    else if !s.recovering || !s.bridged || s.localSocket.None? then Close(st)
    else
      SendAllToRelay(Drained(st), s.pendingFrames, writable)
  }

  /** The local socket is open and the queued controls are taken out. */
  function Bridged(st: State): State {
    st.(session := st.session.(bridged := true, localReady := true, pendingControls := [], pendingControlBytes := 0))
  }

  /** A recovering lease reports that the relay path is ready. */
  function AfterFlush(st: State, writable: bool): State {
    if st.session.closed || !st.session.recovering then st else SendRelayJson(st, writable)
  }

  function LocalOpened(st: State, socket: nat, localWritable: seq<bool>, relayWritable: bool): State {
    if st.session.closed || st.session.localSocket != Some(socket) then st
    else AfterFlush(Flush(Bridged(st), st.session.pendingControls, localWritable), relayWritable)
  }

  /** The socket is closing: it takes no more writes, its close event is still to come. */
  function LocalStopping(st: State, socket: nat): State {
    if st.session.localSocket == Some(socket) then st.(session := st.session.(localReady := false)) else st
  }

  function RelayOpened(st: State, version: Option<Protocol>, now: int): State {
    if st.session.closed then st
    else if st.session.expiresAt <= now || version.None? then Close(st)
    else st.(session := st.session.(protocolVersion := version))
  }

  // -------------------------------------------------- relay text messages

  datatype RelayText =
    | Unparsable
    | ErrorOrClosed
    | ReadyFrame(transport: Transport, expiresAt: int)
    | StartFrame(attemptId: string, deadlineAt: int)
    | SignalFrame(attemptId: string, sequence: nat, isOffer: bool, usable: bool)
    | RecoveringFrame
    | RecoveredFrame

  /** What the clock, the sidecar and the sockets answer during one step. */
  datatype Env = Env(now: int, creation: Creation, applies: bool, accepted: bool, local: seq<bool>, relay: seq<bool>)

  /** The first version of the relay protocol knows the relay transport only. */
  predicate Understood(version: Protocol, text: RelayText) {
    version == V2 || text.ErrorOrClosed? || (text.ReadyFrame? && text.transport == Relay)
  }

  function RelayTextReceived(st: State, text: RelayText, env: Env): State {
    var s := st.session;
    if s.closed then st
    else if s.protocolVersion.None? || !Understood(s.protocolVersion.value, text) then Close(st)
    else
      match text
      case ReadyFrame(transport, expiresAt) => SelectInitial(st, transport, expiresAt, env.now)
      case StartFrame(attemptId, deadlineAt) =>
        if deadlineAt <= env.now || deadlineAt > s.expiresAt then Close(st)
        else StartP2P(st, attemptId, env.creation, At(env.relay, 0))
      case SignalFrame(attemptId, sequence, isOffer, usable) =>
        RemoteSignal(st, attemptId, sequence, isOffer, usable, env.applies, At(env.relay, 0))
      case RecoveringFrame => RecoveryRequested(st, At(env.relay, 0))
      case RecoveredFrame => RecoveryCommitted(st, env.relay)
      case Unparsable => Close(st)
      case ErrorOrClosed => Close(st)
  }

  // ------------------------------------------------------------- all events

  datatype Event =
    | OnRelayOpened(version: Option<Protocol>)
    | OnRelayBinary(content: Bytes)
    | OnRelayText(text: RelayText)
    | OnLocalOpened(socket: nat)
    | OnLocalBinary(socket: nat, content: Bytes)
    | OnLocalStopping(socket: nat)
    | OnSidecarDescription(sidecar: nat)
    | OnSidecarCandidate(sidecar: nat, candidate: string)
    | OnSidecarState(sidecar: nat, state: SidecarState)
    | OnSidecarBinary(sidecar: nat, content: Bytes)
    | OnDisconnectTimeout
    | OnClose

  datatype Step = Step(event: Event, env: Env)

  function After(st: State, step: Step): State {
    var env := step.env;
    match step.event
    case OnRelayOpened(version) => RelayOpened(st, version, env.now)
    case OnRelayBinary(content) => RelayBinary(st, content, At(env.local, 0))
    case OnRelayText(text) => RelayTextReceived(st, text, env)
    case OnLocalOpened(socket) => LocalOpened(st, socket, env.local, At(env.relay, 0))
    case OnLocalBinary(socket, content) => LocalBinary(st, socket, content, env.accepted, At(env.relay, 0))
    case OnLocalStopping(socket) => LocalStopping(st, socket)
    case OnSidecarDescription(sidecar) => LocalDescription(st, sidecar, env.relay)
    case OnSidecarCandidate(sidecar, candidate) => LocalCandidate(st, sidecar, candidate, At(env.relay, 0))
    case OnSidecarState(sidecar, state) => SidecarChanged(st, sidecar, state, At(env.relay, 0))
    case OnSidecarBinary(sidecar, content) => SidecarBinary(st, sidecar, content, At(env.local, 0), At(env.relay, 0))
    case OnDisconnectTimeout => DisconnectTimeout(st, At(env.relay, 0))
    case OnClose => Close(st)
  }

  function Run(st: State, steps: seq<Step>): State {
    if steps == [] then st else After(Run(st, steps[..|steps| - 1]), steps[|steps| - 1])
  }
}
