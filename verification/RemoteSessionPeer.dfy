/**
 * The lease as the object it is in the source: callbacks that assign its own
 * fields, in the order the source assigns them. `Lease` and `Now` read those
 * fields as the value that `RemoteSession` steps; `Handle` is one callback and
 * `Serve` any sequence of them, with the guarantees of `RemoteSessionResults`.
 */
module RemoteSessionPeer {
  import opened Common
  import opened RemoteSession
  import opened RemoteSessionResults

  class RemoteSessionPeer {
    var expiresAt: int
    var protocolVersion: Option<Protocol>
    var localSocket: Option<nat>
    var localReady: bool
    var sidecar: Option<nat>
    var selected: Option<Transport>
    var paired: bool
    var bridged: bool
    var recovering: bool
    var awaitingRecovery: bool
    var closed: bool
    var attemptId: Option<string>
    var incoming: nat
    var outgoing: nat
    var p2pReady: bool
    var readyReported: bool
    var failureReported: bool
    var pendingCandidates: seq<string>
    var answerSent: bool
    var pendingControls: seq<Control>
    var pendingControlBytes: nat
    var pendingFrames: seq<Bytes>
    var pendingFrameBytes: nat
    var disconnectedTimer: bool

    /** The sockets and the sidecar seen from outside: what came in, what went out, which connections were made. */
    var trace: Trace

    ghost function Lease(): Session
      reads this
    {
      Session(expiresAt, protocolVersion, localSocket, localReady, sidecar, selected, paired, bridged, recovering,
              awaitingRecovery, closed, attemptId, incoming, outgoing, p2pReady, readyReported, failureReported,
              pendingCandidates, answerSent, pendingControls, pendingControlBytes, pendingFrames, pendingFrameBytes,
              disconnectedTimer)
    }

    ghost function Now(): State
      reads this
    {
      State(Lease(), trace)
    }

    constructor (expiry: int)
      ensures Now() == Open(expiry)
    {
      expiresAt, protocolVersion, localSocket, localReady, sidecar := expiry, None, None, false, None;
      selected, paired, bridged, recovering, awaitingRecovery, closed := None, false, false, false, false, false;
      attemptId, incoming, outgoing, p2pReady, readyReported, failureReported := None, 0, 0, false, false, false;
      pendingCandidates, answerSent, pendingControls, pendingControlBytes := [], false, [], 0;
      pendingFrames, pendingFrameBytes, disconnectedTimer := [], 0, false;
      trace := Trace([], [], None, [], [], [], 0, 0, [], []);
    }

    method CloseActive()
      modifies this
      ensures Now() == Close(old(Now()))
    {
      if closed { return; }
      Release();
    }

    /** The timer, the sidecar and both queues of a lease that ends. */
    method Release()
      modifies `closed, `disconnectedTimer, `sidecar, `pendingControls, `pendingControlBytes, `pendingFrames,
               `pendingFrameBytes
      ensures closed && !disconnectedTimer && sidecar == None
      ensures pendingControls == [] && pendingControlBytes == 0 && pendingFrames == [] && pendingFrameBytes == 0
    {
      closed := true;
      disconnectedTimer := false;
      pendingControls := [];
      pendingControlBytes := 0;
      pendingFrames := [];
      pendingFrameBytes := 0;
      sidecar := None;
    }

    method SendRelayFrame(writable: bool)
      modifies this
      ensures Now() == SendRelayJson(old(Now()), writable)
    {
      if !writable { CloseActive(); }
    }

    method TakeOutgoingSequence() returns (sequence: Option<nat>)
      modifies this
      ensures sequence == if old(attemptId.None? || outgoing > MAX_SEQUENCE) then None else Some(old(outgoing))
      ensures Now() == if sequence.None? then Close(old(Now())) else Taken(old(Now()))
    {
      hide Close;
      if attemptId.None? || outgoing > MAX_SEQUENCE {
        CloseActive();
        return None;
      }
      sequence := Some(outgoing);
      outgoing := outgoing + 1;
    }

    method SendP2P(kind: SignalKind, writable: bool)
      modifies this
      ensures Now() == SendSignal(old(Now()), kind, writable)
    {
      hide Close;
      var sequence := TakeOutgoingSequence();
      if sequence.None? { return; }
      if !writable {
        CloseActive();
        return;
      }
      trace := trace.(signals := trace.signals + [Signal(sequence.value, kind)]);
    }

    // ------------------------------------------------- browser to device

    method QueueControl(control: Control)
      modifies this
      ensures Now() == Queued(old(Now()), control)
    {
      hide Close, OtherTransportQueued;
      if (selected.Some? && selected.value != control.transport)
         || OtherTransportQueued(pendingControls, control.transport) {
        CloseActive();
        return;
      }
      if pendingControlBytes + |control.content| > PENDING_CONTROL_MAX {
        CloseActive();
        return;
      }
      pendingControls := pendingControls + [control];
      pendingControlBytes := pendingControlBytes + |control.content|;
    }

    method Forward(control: Control, writable: bool)
      modifies this
      ensures Now() == SendToLocal(old(Now()), control, writable)
    {
      hide Close, Queued;
      if !bridged || localSocket.None? || !localReady {
        QueueControl(control);
        return;
      }
      if selected != Some(control.transport) || !writable {
        CloseActive();
        return;
      }
      trace := trace.(writes := trace.writes + [Write(localSocket.value, control)]);
    }

    method HandleRelayBinary(content: Bytes, writable: bool)
      modifies this
      ensures Now() == RelayBinary(old(Now()), content, writable)
    {
      if closed { return; }
      var control := Control(Relay, content, |trace.arrived|);
      trace := trace.(arrived := trace.arrived + [control]);
      if |content| == 0 || |content| > BROWSER_FRAME_MAX {
        CloseActive();
        return;
      }
      if !paired {
        if protocolVersion.Some? && selected.None? && !recovering {
          Forward(control, writable);
          return;
        }
        CloseActive();
        return;
      }
      if selected != Some(Relay) {
        CloseActive();
        return;
      }
      Forward(control, writable);
    }

    method HandleSidecarBinary(source: nat, content: Bytes, localWritable: bool, relayWritable: bool)
      modifies this
      ensures Now() == SidecarBinary(old(Now()), source, content, localWritable, relayWritable)
    {
      if sidecar != Some(source) { return; }
      var control := Control(P2P, content, |trace.arrived|);
      trace := trace.(arrived := trace.arrived + [control]);
      if |content| == 0 || |content| > BROWSER_FRAME_MAX {
        if paired && selected == Some(P2P) {
          ReportActiveP2PFailure(relayWritable);
        } else {
          ReportInitialP2PFailure(relayWritable);
        }
        return;
      }
      if !paired {
        if protocolVersion == Some(V2) && selected.None? && !recovering && attemptId.Some? && p2pReady {
          Forward(control, localWritable);
          return;
        }
        ReportInitialP2PFailure(relayWritable);
        return;
      }
      if selected != Some(P2P) {
        CloseActive();
        return;
      }
      Forward(control, localWritable);
    }

    // ------------------------------------------------- device to browser

    method ForwardToRelay(content: Bytes, writable: bool)
      modifies this
      ensures Now() == SendToRelay(old(Now()), content, writable)
    {
      if selected != Some(Relay) || !writable {
        CloseActive();
        return;
      }
      trace := trace.(sent := trace.sent + [content]);
    }

    method QueueDeviceFrame(content: Bytes)
      modifies this
      ensures Now() == QueueFrame(old(Now()), content)
    {
      if pendingFrameBytes + |content| > PENDING_DEVICE_MAX {
        CloseActive();
        return;
      }
      pendingFrames := pendingFrames + [content];
      pendingFrameBytes := pendingFrameBytes + |content|;
    }

    method HandleLocalBinary(socket: nat, content: Bytes, accepted: bool, relayWritable: bool)
      modifies this
      ensures Now() == LocalBinary(old(Now()), socket, content, accepted, relayWritable)
    {
      if closed || localSocket != Some(socket) { return; }
      if |content| > DEVICE_FRAME_MAX {
        CloseActive();
        return;
      }
      trace := trace.(received := trace.received + [content]);
      if recovering || selected.None? {
        QueueDeviceFrame(content);
      } else if selected == Some(Relay) {
        ForwardToRelay(content, relayWritable);
      } else if sidecar.None? || content == [] || !accepted {
        ReportActiveP2PFailure(relayWritable);
      } else {
        trace := trace.(sent := trace.sent + [content]);
      }
    }

    // ---------------------------------------------------- P2P negotiation

    method ReportInitialP2PFailure(writable: bool)
      modifies this
      ensures Now() == ReportInitialFailure(old(Now()), writable)
    {
      hide SendSignal;
      if failureReported || attemptId.None? { return; }
      AbandonAttempt();
      SendP2P(Failed, writable);
    }

    /** Controls of the lost path are dropped, those of the relay stay queued. */
    method AbandonAttempt()
      modifies `disconnectedTimer, `failureReported, `p2pReady, `pendingCandidates, `pendingControls,
               `pendingControlBytes, `sidecar
      ensures !disconnectedTimer && failureReported && !p2pReady && pendingCandidates == [] && sidecar == None
      ensures pendingControls == RelayOnly(old(pendingControls))
              && pendingControlBytes == TotalBytes(Contents(pendingControls))
    {
      disconnectedTimer := false;
      failureReported := true;
      p2pReady := false;
      pendingCandidates := [];
      pendingControls := RelayOnly(pendingControls);
      pendingControlBytes := TotalBytes(Contents(pendingControls));
      sidecar := None;
    }

    method ReportActiveP2PFailure(writable: bool)
      modifies this
      ensures Now() == ReportActiveFailure(old(Now()), writable)
    {
      hide SendSignal;
      if recovering || selected != Some(P2P) { return; }
      Freeze();
      SendP2P(Failed, writable);
    }

    /** The path, the sidecar, the local socket and both queues go; the lease waits for the relay. */
    method Freeze()
      modifies `disconnectedTimer, `recovering, `paired, `selected, `p2pReady, `failureReported, `pendingCandidates,
               `sidecar, `localSocket, `localReady, `bridged, `pendingControls, `pendingControlBytes, `pendingFrames,
               `pendingFrameBytes, `trace
      ensures recovering && failureReported && !disconnectedTimer && !paired && selected == None && !p2pReady
      ensures pendingCandidates == [] && sidecar == None && localSocket == None && !localReady && !bridged
      ensures pendingControls == [] && pendingControlBytes == 0 && pendingFrames == [] && pendingFrameBytes == 0
      ensures trace == old(trace).(received := [], sent := [])
    {
      LeavePath();
      DropLocal();
    }

    method LeavePath()
      modifies `disconnectedTimer, `recovering, `paired, `selected, `p2pReady, `failureReported, `pendingCandidates,
               `sidecar
      ensures recovering && failureReported && !disconnectedTimer && !paired && selected == None && !p2pReady
      ensures pendingCandidates == [] && sidecar == None
    {
      disconnectedTimer := false;
      recovering := true;
      paired := false;
      selected := None;
      p2pReady := false;
      failureReported := true;
      pendingCandidates := [];
      sidecar := None;
    }

    method DropLocal()
      modifies `localSocket, `localReady, `bridged, `pendingControls, `pendingControlBytes, `pendingFrames,
               `pendingFrameBytes, `trace
      ensures localSocket == None && !localReady && !bridged
      ensures pendingControls == [] && pendingControlBytes == 0 && pendingFrames == [] && pendingFrameBytes == 0
      ensures trace == old(trace).(received := [], sent := [])
    {
      localSocket := None;
      localReady := false;
      bridged := false;
      pendingControls := [];
      pendingControlBytes := 0;
      pendingFrames := [];
      pendingFrameBytes := 0;
      trace := trace.(received := [], sent := []);
    }

    method HandleStartP2P(attempt: string, creation: Creation, writable: bool)
      modifies this
      ensures Now() == StartP2P(old(Now()), attempt, creation, writable)
    {
      hide Close, ReportInitialFailure;
      if closed { return; }
      if attemptId.Some? || sidecar.Some? || paired {
        CloseActive();
        return;
      }
      BeginAttempt(attempt);
      if creation != NotCreated {
        AttachSidecar();
      }
      if creation != Started {
        ReportInitialP2PFailure(writable);
      }
    }

    method BeginAttempt(attempt: string)
      modifies this
      ensures Now() == old(Now()).(session := NewAttempt(old(Lease()), attempt))
    {
      ResetAttempt(attempt);
    }

    method ResetAttempt(attempt: string)
      modifies `attemptId, `incoming, `outgoing, `p2pReady, `readyReported, `failureReported, `pendingCandidates,
               `answerSent
      ensures attemptId == Some(attempt) && incoming == 0 && outgoing == 0 && !p2pReady && !readyReported
              && !failureReported
      ensures pendingCandidates == [] && !answerSent
    {
      attemptId := Some(attempt);
      incoming := 0;
      outgoing := 0;
      p2pReady := false;
      readyReported := false;
      failureReported := false;
      pendingCandidates := [];
      answerSent := false;
    }

    /** A new sidecar process, named by its number. */
    method AttachSidecar()
      modifies this
      ensures Now() == State(old(Lease()).(sidecar := Some(old(trace).sidecarsStarted)),
                             old(trace).(sidecarsStarted := old(trace).sidecarsStarted + 1))
    {
      sidecar := Some(trace.sidecarsStarted);
      trace := trace.(sidecarsStarted := trace.sidecarsStarted + 1);
    }

    method HandleLocalDescription(source: nat, writable: seq<bool>)
      modifies this
      ensures Now() == LocalDescription(old(Now()), source, writable)
    {
      if sidecar != Some(source) || closed || readyReported || failureReported { return; }
      hide SendSignal;
      SendP2P(Answer, At(writable, 0));
      var pending := TakeCandidates();
      ghost var answered := Now();
      var i := 0;
      while i < |pending|
        invariant 0 <= i <= |pending|
        invariant Now() == SendCandidates(answered, i, writable)
      {
        SendP2P(Candidate, At(writable, i + 1));
        i := i + 1;
      }
    }

    method TakeCandidates() returns (pending: seq<string>)
      modifies this
      ensures pending == old(pendingCandidates)
      ensures Now() == old(Now()).(session := old(Lease()).(answerSent := true, pendingCandidates := []))
    {
      pending := pendingCandidates;
      answerSent := true;
      pendingCandidates := [];
    }

    method HandleIceCandidate(source: nat, candidate: string, writable: bool)
      modifies this
      ensures Now() == LocalCandidate(old(Now()), source, candidate, writable)
    {
      hide SendSignal, ReportInitialFailure;
      if sidecar != Some(source) || closed || readyReported || failureReported { return; }
      if !answerSent {
        if |pendingCandidates| >= MAX_CANDIDATES {
          ReportInitialP2PFailure(writable);
          return;
        }
        pendingCandidates := pendingCandidates + [candidate];
      } else {
        SendP2P(Candidate, writable);
      }
    }

    method HandleSidecarState(source: nat, state: SidecarState, writable: bool)
      modifies this
      ensures Now() == SidecarChanged(old(Now()), source, state, writable)
    {
      hide SendSignal, ReportActiveFailure, ReportInitialFailure;
      if sidecar != Some(source) || closed { return; }
      if state == SidecarReady {
        MarkReady();
        if !paired && !readyReported && !failureReported {
          ReportReady(writable);
        }
        return;
      }
      if state == Disconnected {
        var isActiveP2P := selected == Some(P2P);
        var isReadyBeforeSelection := !paired && readyReported && !failureReported && attemptId.Some?;
        if (!isActiveP2P && !isReadyBeforeSelection) || disconnectedTimer { return; }
        disconnectedTimer := true;
        return;
      }
      if selected == Some(P2P) {
        ReportActiveP2PFailure(writable);
      } else if !paired {
        ReportInitialP2PFailure(writable);
      }
    }

    method ReportReady(writable: bool)
      modifies this
      ensures Now() == SendSignal(old(Now()).(session := old(Lease()).(readyReported := true)), Ready, writable)
    {
      hide SendSignal;
      readyReported := true;
      SendP2P(Ready, writable);
    }

    method MarkReady()
      modifies this
      ensures Now() == old(Now()).(session := old(Lease()).(disconnectedTimer := false, p2pReady := true))
    {
      disconnectedTimer := false;
      p2pReady := true;
    }

    method HandleDisconnectTimeout(writable: bool)
      modifies this
      ensures Now() == DisconnectTimeout(old(Now()), writable)
    {
      hide ReportActiveFailure, ReportInitialFailure;
      if !disconnectedTimer { return; }
      disconnectedTimer := false;
      if closed { return; }
      if selected == Some(P2P) {
        ReportActiveP2PFailure(writable);
      } else if !paired && readyReported && !failureReported {
        ReportInitialP2PFailure(writable);
      }
    }

    method HandleP2PSignal(attempt: string, sequence: nat, isOffer: bool, usable: bool, applies: bool, writable: bool)
      modifies this
      ensures Now() == RemoteSignal(old(Now()), attempt, sequence, isOffer, usable, applies, writable)
    {
      hide Close, ReportInitialFailure;
      if closed { return; }
      if sidecar.None? && failureReported && !p2pReady && attemptId == Some(attempt)
         && sequence == incoming && !isOffer {
        incoming := incoming + 1;
        return;
      }
      if sidecar.None? || attemptId != Some(attempt) || sequence != incoming
         || (sequence == 0 && !isOffer) || (sequence > 0 && isOffer) {
        CloseActive();
        return;
      }
      incoming := incoming + 1;
      if usable {
        trace := trace.(applied := trace.applied + [Applied(sequence, isOffer)]);
      }
      if !usable || !applies {
        ReportInitialP2PFailure(writable);
      }
    }

    // --------------------------------------------- selection and recovery

    method ConnectLocalScrcpy()
      modifies this
      ensures Now() == ConnectLocal(old(Now()))
    {
      if closed || localSocket.Some? { return; }
      localSocket := Some(trace.sockets);
      localReady := false;
      trace := trace.(sockets := trace.sockets + 1, received := [], sent := []);
    }

    /** A lease may be shortened, never extended. */
    method ApplyEffectiveExpiry(expiry: int)
      modifies this
      ensures Now() == old(Now()).(session := old(Lease()).(expiresAt := expiresAt))
      ensures expiresAt == if expiry < old(expiresAt) then expiry else old(expiresAt)
    {
      if expiry >= expiresAt { return; }
      expiresAt := expiry;
    }

    method Pair(transport: Transport)
      modifies this
      ensures Now() == Select(old(Now()), transport)
    {
      hide Selection;
      paired := true;
      selected := Some(transport);
      trace := Selection(trace, transport);
    }

    method CloseSidecar()
      modifies this
      ensures Now() == old(Now()).(session := old(Lease()).(sidecar := None))
    {
      sidecar := None;
    }

    method Choose(transport: Transport)
      modifies this
      ensures Now() == Chosen(old(Now()), transport)
    {
      hide Selection;
      Pair(transport);
      if transport == Relay {
        CloseSidecar();
      }
    }

    method SelectInitialTransport(transport: Transport, expiry: int, now: int)
      modifies this
      ensures Now() == SelectInitial(old(Now()), transport, expiry, now)
    {
      hide Close, ConnectLocal, Selection, OtherTransportQueued;
      if closed { return; }
      var p2pUnavailable := transport == P2P && (!p2pReady || sidecar.None?);
      var failedAfterReady := readyReported && failureReported;
      if paired || awaitingRecovery || expiry <= now || expiry > expiresAt
         || (p2pUnavailable && !failedAfterReady) || OtherTransportQueued(pendingControls, transport) {
        CloseActive();
        return;
      }
      ApplyEffectiveExpiry(expiry);
      if p2pUnavailable {
        awaitingRecovery := true;
        return;
      }
      Choose(transport);
      ConnectLocalScrcpy();
    }

    method HandleRecoveryRequested(writable: bool)
      modifies this
      ensures Now() == RecoveryRequested(old(Now()), writable)
    {
      hide Close, SendSignal, ConnectLocal;
      if closed { return; }
      if awaitingRecovery {
        awaitingRecovery := false;
        recovering := true;
        ConnectLocalScrcpy();
        return;
      }
      if selected == Some(P2P) {
        ReportActiveP2PFailure(writable);
      }
      if !recovering {
        CloseActive();
        return;
      }
      ConnectLocalScrcpy();
    }

    method TakeFrames() returns (pending: seq<Bytes>)
      modifies this
      ensures pending == old(pendingFrames)
      ensures Now() == old(Now()).(session := old(Lease()).(pendingFrames := [], pendingFrameBytes := 0))
    {
      pending := pendingFrames;
      pendingFrames := [];
      pendingFrameBytes := 0;
    }

    method HandleRecoveryCommitted(writable: seq<bool>)
      modifies this
      ensures Now() == RecoveryCommitted(old(Now()), writable)
    {
      hide Close, Selection, SendToRelay;
      if closed { return; }
      if !recovering || !bridged || localSocket.None? {
        CloseActive();
        return;
      }
      recovering := false;
      Pair(Relay);
      var pending := TakeFrames();
      ghost var drained := Now();
      assert drained == Drained(old(Now()));
      var i := 0;
      while i < |pending|
        invariant 0 <= i <= |pending|
        invariant Now() == SendAllToRelay(drained, pending[..i], writable)
      {
        ForwardToRelay(pending[i], At(writable, i));
        assert pending[..i + 1][..i] == pending[..i];
        i := i + 1;
      }
      assert pending[..i] == pending;
    }

    method Bridge() returns (pending: seq<Control>)
      modifies this
      ensures pending == old(pendingControls)
      ensures Now() == Bridged(old(Now()))
    {
      bridged := true;
      localReady := true;
      pending := TakeControls();
    }

    method TakeControls() returns (pending: seq<Control>)
      modifies this
      ensures pending == old(pendingControls)
      ensures Now() == old(Now()).(session := old(Lease()).(pendingControls := [], pendingControlBytes := 0))
    {
      pending := pendingControls;
      pendingControls := [];
      pendingControlBytes := 0;
    }

    method HandleLocalOpened(socket: nat, localWritable: seq<bool>, relayWritable: bool)
      modifies this
      ensures Now() == LocalOpened(old(Now()), socket, localWritable, relayWritable)
    {
      hide Close, Flush, SendRelayJson;
      if closed || localSocket != Some(socket) { return; }
      assert LocalOpened(Now(), socket, localWritable, relayWritable)
          == AfterFlush(Flush(Bridged(Now()), pendingControls, localWritable), relayWritable);
      hide LocalOpened, Bridged;
      var pending := Bridge();
      FlushControls(pending, localWritable);
      if closed { return; }
      if recovering {
        SendRelayFrame(relayWritable);
      }
    }

    method FlushControls(pending: seq<Control>, writable: seq<bool>)
      requires !closed
      modifies this
      ensures Now() == Flush(old(Now()), pending, writable)
    {
      hide SendToLocal;
      var i := 0;
      while i < |pending|
        invariant 0 <= i <= |pending|
        invariant !closed && Now() == Flush(old(Now()), pending[..i], writable)
      {
        Forward(pending[i], At(writable, i));
        assert pending[..i + 1][..i] == pending[..i];
        i := i + 1;
        if closed {
          FlushStops(old(Now()), pending, i, writable);
          return;
        }
      }
      assert pending[..i] == pending;
    }

    method HandleLocalStopping(socket: nat)
      modifies this
      ensures Now() == LocalStopping(old(Now()), socket)
    {
      if localSocket != Some(socket) { return; }
      assert LocalStopping(Now(), socket) == Now().(session := Lease().(localReady := false));
      hide LocalStopping;
      localReady := false;
    }

    method HandleRelayOpened(version: Option<Protocol>, now: int)
      modifies this
      ensures Now() == RelayOpened(old(Now()), version, now)
    {
      if closed { return; }
      if expiresAt <= now || version.None? {
        CloseActive();
        return;
      }
      protocolVersion := version;
    }

    method HandleRelayText(text: RelayText, env: Env)
      modifies this
      ensures Now() == RelayTextReceived(old(Now()), text, env)
    {
      if closed { return; }
      if protocolVersion.None? || !Understood(protocolVersion.value, text) {
        CloseActive();
        return;
      }
      match text
      case ReadyFrame(transport, expiry) => SelectInitialTransport(transport, expiry, env.now);
      case StartFrame(attempt, deadlineAt) =>
        if deadlineAt <= env.now || deadlineAt > expiresAt {
          CloseActive();
        } else {
          HandleStartP2P(attempt, env.creation, At(env.relay, 0));
        }
      case SignalFrame(attempt, sequence, isOffer, usable) =>
        HandleP2PSignal(attempt, sequence, isOffer, usable, env.applies, At(env.relay, 0));
      case RecoveringFrame => HandleRecoveryRequested(At(env.relay, 0));
      case RecoveredFrame => HandleRecoveryCommitted(env.relay);
      case Unparsable => CloseActive();
      case ErrorOrClosed => CloseActive();
    }

    /** One callback, with what the clock, the sidecar and the sockets answer while it runs. */
    method Handle(step: Step)
      modifies this
      ensures Now() == After(old(Now()), step)
    {
      var env := step.env;
      match step.event
      case OnRelayOpened(version) => HandleRelayOpened(version, env.now);
      case OnRelayBinary(content) => HandleRelayBinary(content, At(env.local, 0));
      case OnRelayText(text) => HandleRelayText(text, env);
      case OnLocalOpened(socket) => HandleLocalOpened(socket, env.local, At(env.relay, 0));
      case OnLocalBinary(socket, content) => HandleLocalBinary(socket, content, env.accepted, At(env.relay, 0));
      case OnLocalStopping(socket) => HandleLocalStopping(socket);
      case OnSidecarDescription(source) => HandleLocalDescription(source, env.relay);
      case OnSidecarCandidate(source, candidate) => HandleIceCandidate(source, candidate, At(env.relay, 0));
      case OnSidecarState(source, state) => HandleSidecarState(source, state, At(env.relay, 0));
      case OnSidecarBinary(source, content) =>
        HandleSidecarBinary(source, content, At(env.local, 0), At(env.relay, 0));
      case OnDisconnectTimeout => HandleDisconnectTimeout(At(env.relay, 0));
      case OnClose => CloseActive();
    }
  }

  /** A lease from its opening through any sequence of callbacks. */
  method Serve(expiry: int, steps: seq<Step>) returns (peer: RemoteSessionPeer)
    ensures fresh(peer) && peer.Now() == Run(Open(expiry), steps)
    ensures ControlsInOrder(peer.Now()) && Complete(peer.Now()) && FramesFifo(peer.Now()) && SwitchedOnce(peer.Now())
    ensures SignalingOrdered(peer.Now())
  {
    hide After, Open, ControlsInOrder, Complete, FramesFifo, SwitchedOnce, SignalingOrdered;
    peer := new RemoteSessionPeer(expiry);
    for i := 0 to |steps|
      invariant fresh(peer) && peer.Now() == Run(Open(expiry), steps[..i])
    {
      peer.Handle(steps[i]);
      assert steps[..i + 1][..i] == steps[..i];
    }
    assert steps[..|steps|] == steps;
    ControlsKeepTheirTransportAndOrder(expiry, steps);
    NoControlIsLost(expiry, steps);
    DeviceFramesAreFifo(expiry, steps);
    TransportSwitchesOnce(expiry, steps);
    SignalingIsOrdered(expiry, steps);
  }

  /** The queue is abandoned at the control that closes the lease. */
  lemma {:induction false} FlushStops(st: State, pending: seq<Control>, i: nat, writable: seq<bool>)
    requires i <= |pending| && Flush(st, pending[..i], writable).session.closed
    ensures Flush(st, pending, writable) == Flush(st, pending[..i], writable)
    decreases |pending|
  {
    if i == |pending| {
      assert pending[..i] == pending;
    } else {
      assert pending[..|pending| - 1][..i] == pending[..i];
      FlushStops(st, pending[..|pending| - 1], i, writable);
    }
  }
}
