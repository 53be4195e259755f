/** The call screen: the call status machine, the four resources the screen
    owns (local media tracks, the peer connection, the per-user socket and
    the one-second duration interval), offer/answer/ICE signalling and the
    `mm:ss` duration label. Every handler is modelled as running to
    completion; the outcomes of HTTP calls and of the media request are
    event parameters, and the requests the screen issues and its `onEnd`
    notifications are appended to `effects`. */
module VideoCall {
  import opened Common
  import opened Domain

  datatype Status = Initiating | Ringing | Connecting | Active

  datatype TrackKind = AudioTrack | VideoTrack

  datatype Track = Track(kind: TrackKind, enabled: bool, stopped: bool)

  /** The ICE server urls handed to a new peer connection. */
  datatype IceConfig = IceConfig(urls: seq<string>)

  /** Two public STUN servers, used when the TURN configuration could not be
      fetched or has not arrived yet. */
  const DefaultIceConfig: IceConfig :=
    IceConfig(["stun:stun.l.google.com:19302", "stun:stun1.l.google.com:19302"])

  /** A peer connection: the configuration it was built with, how many local
      tracks were added to it, whether it was closed, whether a remote
      description was applied and how many remote ICE candidates it took. */
  datatype PeerConn = PeerConn(config: IceConfig, trackCount: nat, closed: bool, remoteSet: bool, candidates: nat)

  datatype SocketState = NoSocket | SocketConnecting | SocketOpen | SocketClosed

  datatype PeerState = Disconnected | Failed | OtherPeerState

  /** What the screen does outside itself. */
  datatype Effect =
    | PostInitiate
    | PostAnswer
    | PostReject
    | PostEnd
    | SendSignal(signal: SignalType)
    | EndNotified

  datatype CallState = CallState(
    isIncoming: bool,
    callType: CallType,
    status: Status,
    isVideoEnabled: bool,
    isAudioEnabled: bool,
    duration: nat,
    iceConfig: Option<IceConfig>,
    stream: Option<seq<Track>>,
    pc: Option<PeerConn>,
    socket: SocketState,
    intervalArmed: bool,
    effects: seq<Effect>,
    retiredStreams: seq<seq<Track>>,
    retiredPcs: seq<PeerConn>)

  /** One event handled to completion. `initiateOk`, `ok` and `mediaOk` are
      the outcomes of the request or media acquisition the handler awaits. */
  datatype CallEvent =
    | IceConfigLoaded(fetched: Option<IceConfig>)
    | SocketOpened(initiateOk: bool)
    | Frame(frame: InFrame, mediaOk: bool)
    | RemoteTrack
    | PeerStateChanged(state: PeerState)
    | LocalCandidate
    | Tick
    | AnswerClicked(ok: bool, mediaOk: bool)
    | RejectClicked(ok: bool)
    | EndClicked
    | ToggleVideoClicked
    | ToggleAudioClicked
    | Unmounted

  /** The screen as first rendered; the socket is only opened for a signed-in
      user. */
  function Initial(isIncoming: bool, callType: CallType, signedIn: bool): (s: CallState)
    ensures s.status == (if isIncoming then Ringing else Initiating)
    ensures s.isVideoEnabled <==> callType == Video
    ensures s.isAudioEnabled && s.duration == 0 && s.effects == []
    ensures s.stream.None? && s.pc.None? && !s.intervalArmed
    ensures s.retiredStreams == [] && s.retiredPcs == []
  {
    CallState(isIncoming, callType, if isIncoming then Ringing else Initiating,
              callType == Video, true, 0, None, None, None,
              if signedIn then SocketConnecting else NoSocket, false, [], [], [])
  }

  // ---------------------------------------------------------------------------
  // Resources

  /** The tracks a successful media request yields: a microphone always, a
      camera only for video calls. */
  function LocalTracks(callType: CallType): (ts: seq<Track>)
    ensures |ts| >= 1 && ts[0].kind == AudioTrack
    ensures (exists i :: 0 <= i < |ts| && ts[i].kind == VideoTrack) <==> callType == Video
    ensures forall i :: 0 <= i < |ts| ==> ts[i].enabled && !ts[i].stopped
  {
    var ts := [Track(AudioTrack, true, false)] + (if callType == Video then [Track(VideoTrack, true, false)] else []);
    assert callType == Video ==> ts[1].kind == VideoTrack;
    ts
  }

  /** `startLocalStream`: the new stream takes the ref. A stream the ref
      held before is not stopped; it is set aside in `retiredStreams`, where
      its tracks stay live. */
  function StartMedia(s: CallState): CallState
  {
    s.(stream := Some(LocalTracks(s.callType)),
       retiredStreams := s.retiredStreams + if s.stream.Some? then [s.stream.value] else [])
  }

  /** The configuration a new peer connection is built with. */
  function PcConfig(s: CallState): (c: IceConfig)
    ensures s.iceConfig.None? ==> c == DefaultIceConfig
    ensures s.iceConfig.Some? ==> c == s.iceConfig.value
  {
    if s.iceConfig.Some? then s.iceConfig.value else DefaultIceConfig
  }

  /** `createPeerConnection`: a fresh, open connection carrying every local
      track takes the ref. A connection the ref held before is not closed;
      it is set aside in `retiredPcs`, still open. */
  function CreatePc(s: CallState): CallState
  {
    s.(pc := Some(PeerConn(PcConfig(s), if s.stream.Some? then |s.stream.value| else 0, false, false, 0)),
       retiredPcs := s.retiredPcs + if s.pc.Some? then [s.pc.value] else [])
  }

  function Emit(s: CallState, e: Effect): CallState
  {
    s.(effects := s.effects + [e])
  }

  /** `setCallStatus`, together with the effect keyed on the status: a change
      clears the running interval and starts a new one exactly when the new
      status is `active`; setting the same status again re-runs nothing. */
  function SetStatus(s: CallState, st: Status): (r: CallState)
    ensures r.status == st
    ensures s.status == st ==> r == s
    ensures s.status != st ==> r.intervalArmed == (st == Active)
    ensures r.(status := s.status, intervalArmed := s.intervalArmed) == s
  {
    if s.status == st then s else s.(status := st, intervalArmed := st == Active)
  }

  function StopAll(ts: seq<Track>): (r: seq<Track>)
    ensures |r| == |ts|
    ensures forall i :: 0 <= i < |r| ==> r[i] == ts[i].(stopped := true)
  {
    seq(|ts|, i requires 0 <= i < |ts| => ts[i].(stopped := true))
  }

  /** Stops tracks one by one, in order. */
  method StopTracks(ts: seq<Track>) returns (r: seq<Track>)
    ensures r == StopAll(ts)
  {
    r := [];
    var i := 0;
    while i < |ts|
      invariant 0 <= i <= |ts|
      invariant |r| == i
      invariant forall j :: 0 <= j < i ==> r[j] == ts[j].(stopped := true)
    {
      r := r + [ts[i].(stopped := true)];
      i := i + 1;
    }
  }

  /** Every resource the refs currently hold is released: the stream's
      tracks are stopped, the connection is closed, the socket is closed and
      the interval is cleared. */
  predicate Released(s: CallState)
  {
    && (s.stream.Some? ==> forall i :: 0 <= i < |s.stream.value| ==> s.stream.value[i].stopped)
    && (s.pc.Some? ==> s.pc.value.closed)
    && s.socket != SocketOpen && s.socket != SocketConnecting
    && !s.intervalArmed
  }

  /** Nothing the screen ever acquired is live: the current resources are
      released and so is every stream and connection that was replaced. */
  predicate NothingLive(s: CallState)
  {
    && Released(s)
    && (forall k, i :: 0 <= k < |s.retiredStreams| && 0 <= i < |s.retiredStreams[k]| ==> s.retiredStreams[k][i].stopped)
    && (forall k :: 0 <= k < |s.retiredPcs| ==> s.retiredPcs[k].closed)
  }

  /** `cleanup`: stop every local track, close the peer connection and the
      socket that the refs hold, and clear the interval; nothing else
      changes, and in particular replaced streams and connections are left
      as they are. */
  function CleanedUp(s: CallState): (r: CallState)
    ensures Released(r)
    ensures r == s.(stream := r.stream, pc := r.pc, socket := r.socket, intervalArmed := false)
    ensures s.stream.Some? ==> r.stream == Some(StopAll(s.stream.value))
    ensures s.pc.Some? ==> r.pc == Some(s.pc.value.(closed := true))
    ensures r.stream.Some? == s.stream.Some? && r.pc.Some? == s.pc.Some?
    ensures (r.socket == NoSocket) == (s.socket == NoSocket)
  {
    s.(stream := if s.stream.Some? then Some(StopAll(s.stream.value)) else None,
       pc := if s.pc.Some? then Some(s.pc.value.(closed := true)) else None,
       socket := if s.socket == NoSocket then NoSocket else SocketClosed,
       intervalArmed := false)
  }

  /** Running `cleanup` a second time changes nothing. */
  lemma CleanupIdempotent(s: CallState)
    ensures CleanedUp(CleanedUp(s)) == CleanedUp(s)
  {
    var r := CleanedUp(s);
    if s.stream.Some? {
      assert StopAll(r.stream.value) == r.stream.value;
    }
  }

  /** `cleanup()` followed by `onEnd()`. */
  function Ended(s: CallState): CallState
  {
    Emit(CleanedUp(s), EndNotified)
  }

  // ---------------------------------------------------------------------------
  // Handlers

  /** `ws.onopen`: an outgoing call posts `/calls/initiate`; success rings,
      failure notifies `onEnd` and leaves the status as it was. */
  function OnSocketOpen(s: CallState, initiateOk: bool): CallState
  {
    var s1 := s.(socket := SocketOpen);
    if s.isIncoming then s1
    else
      var s2 := Emit(s1, PostInitiate);
      if initiateOk then SetStatus(s2, Ringing) else Emit(s2, EndNotified)
  }

  /** A media request that succeeded is followed by a new peer connection. */
  function MediaAndPc(s: CallState): CallState
  {
    CreatePc(StartMedia(s))
  }

  /** Applying a remote offer and replying with an answer; a closed
      connection rejects the offer and the handler stops. */
  function AcceptOffer(s: CallState): CallState
    requires s.pc.Some?
  {
    if s.pc.value.closed then s
    else Emit(s.(pc := Some(s.pc.value.(remoteSet := true))), SendSignal(Answer))
  }

  /** `handleSignal`. An offer with no connection first acquires media and
      builds one (a failed media request ends the handler); an answer or a
      candidate with no connection is ignored; a candidate that cannot be
      added is swallowed. */
  function SignalStep(s: CallState, kind: SignalType, mediaOk: bool): CallState
  {
    match kind
    case Offer =>
      if s.pc.Some? then AcceptOffer(s)
      else if !mediaOk then s
      else AcceptOffer(MediaAndPc(s))
    case Answer =>
      if s.pc.None? || s.pc.value.closed then s
      else s.(pc := Some(s.pc.value.(remoteSet := true)))
    case IceCandidate =>
      if s.pc.Some? && !s.pc.value.closed && s.pc.value.remoteSet
      then s.(pc := Some(s.pc.value.(candidates := s.pc.value.candidates + 1)))
      else s
    case OtherSignal => s
  }

  /** `ws.onmessage`. */
  function OnFrame(s: CallState, f: InFrame, mediaOk: bool): CallState
  {
    match f
    case CallAnswered =>
      var s1 := SetStatus(s, Connecting);
      if !mediaOk then s1 else Emit(MediaAndPc(s1), SendSignal(Offer))
    case CallRejected => Ended(s)
    case CallEnded => Ended(s)
    case WebrtcSignal(kind) => SignalStep(s, kind, mediaOk)
    case _ => s
  }

  /** `answerCall`: post the answer; on success go to `connecting` and build
      the connection. */
  function AnswerCall(s: CallState, ok: bool, mediaOk: bool): CallState
  {
    var s1 := Emit(s, PostAnswer);
    if !ok then s1
    else
      var s2 := SetStatus(s1, Connecting);
      if mediaOk then MediaAndPc(s2) else s2
  }

  /** `rejectCall`: only a successful request ends the screen. */
  function RejectCall(s: CallState, ok: bool): CallState
  {
    var s1 := Emit(s, PostReject);
    if ok then Ended(s1) else s1
  }

  /** `endCall`: the screen ends whatever the request's outcome. */
  function EndCall(s: CallState): CallState
  {
    Ended(Emit(s, PostEnd))
  }

  /** The index of the first track of `kind`, or `|ts|` when there is none. */
  function FirstOfKind(ts: seq<Track>, kind: TrackKind): (i: nat)
    ensures i <= |ts|
    ensures i < |ts| ==> ts[i].kind == kind
    ensures forall j :: 0 <= j < i ==> ts[j].kind != kind
  {
    if ts == [] then 0
    else if ts[0].kind == kind then 0
    else 1 + FirstOfKind(ts[1..], kind)
  }

  /** `toggleVideo` / `toggleAudio`: flip `enabled` on the first track of the
      kind, if any, and mirror the new value in the matching flag. */
  function ToggleTracks(s: CallState, kind: TrackKind): CallState
  {
    if s.stream.None? then s
    else
      var ts := s.stream.value;
      var i := FirstOfKind(ts, kind);
      if i == |ts| then s
      else
        var flipped := !ts[i].enabled;
        var s1 := s.(stream := Some(ts[i := ts[i].(enabled := flipped)]));
        if kind == VideoTrack then s1.(isVideoEnabled := flipped) else s1.(isAudioEnabled := flipped)
  }

  /** The one-second interval: counts only while armed. */
  function OnTick(s: CallState): CallState
  {
    if s.intervalArmed then s.(duration := s.duration + 1) else s
  }

  /** The incoming-call prompt (answer and reject buttons) is what is shown. */
  predicate PromptShown(s: CallState)
  {
    s.isIncoming && s.status == Ringing
  }

  predicate PcOpen(s: CallState)
  {
    s.pc.Some? && !s.pc.value.closed
  }

  /** The screen's reaction to one event. Events the screen cannot receive in
      the current state (a button that is not rendered, a frame on a socket
      that is not open, a callback of a connection that is gone) change
      nothing. */
  function Step(s: CallState, e: CallEvent): CallState
  {
    match e
    case IceConfigLoaded(fetched) =>
      if s.iceConfig.Some? then s
      else s.(iceConfig := Some(if fetched.Some? then fetched.value else DefaultIceConfig))
    case SocketOpened(ok) => if s.socket == SocketConnecting then OnSocketOpen(s, ok) else s
    case Frame(f, mediaOk) => if s.socket == SocketOpen then OnFrame(s, f, mediaOk) else s
    case RemoteTrack => if PcOpen(s) then SetStatus(s, Active) else s
    case PeerStateChanged(st) =>
      if PcOpen(s) && (st == Disconnected || st == Failed) then Ended(s) else s
    case LocalCandidate => if PcOpen(s) then Emit(s, SendSignal(IceCandidate)) else s
    case Tick => OnTick(s)
    case AnswerClicked(ok, mediaOk) => if PromptShown(s) then AnswerCall(s, ok, mediaOk) else s
    case RejectClicked(ok) => if PromptShown(s) then RejectCall(s, ok) else s
    case EndClicked => if !PromptShown(s) then EndCall(s) else s
    case ToggleVideoClicked =>
      if !PromptShown(s) && s.callType == Video then ToggleTracks(s, VideoTrack) else s
    case ToggleAudioClicked => if !PromptShown(s) then ToggleTracks(s, AudioTrack) else s
    case Unmounted => CleanedUp(s)
  }

  function Run(s: CallState, es: seq<CallEvent>): CallState
    decreases |es|
  {
    if es == [] then s else Run(Step(s, es[0]), es[1..])
  }

  // ---------------------------------------------------------------------------
  // Properties

  /** What holds of every reachable screen: the interval only runs while the
      call is active; an outgoing call whose socket has not opened is still
      initiating with no connection; an incoming call never initiates. */
  predicate Inv(s: CallState)
  {
    && (s.intervalArmed ==> s.status == Active)
    && (!s.isIncoming && (s.socket == SocketConnecting || s.socket == NoSocket) ==>
          s.status == Initiating && s.pc.None?)
    && (s.isIncoming ==> s.status != Initiating)
  }

  lemma InitialInv(isIncoming: bool, callType: CallType, signedIn: bool)
    ensures Inv(Initial(isIncoming, callType, signedIn))
  {
  }

  /** A signalling message on the open socket keeps the invariant. */
  lemma SignalKeepsInv(s: CallState, kind: SignalType, mediaOk: bool)
    requires Inv(s) && s.socket == SocketOpen
    ensures Inv(SignalStep(s, kind, mediaOk))
  {
    match kind {
      case Offer =>
        if s.pc.None? && mediaOk {
          assert MediaAndPc(s).status == s.status;
        }
      case _ =>
    }
  }

  /** Any frame on the open socket keeps the invariant. */
  lemma FrameKeepsInv(s: CallState, f: InFrame, mediaOk: bool)
    requires Inv(s) && s.socket == SocketOpen
    ensures Inv(OnFrame(s, f, mediaOk))
  {
    match f {
      case WebrtcSignal(kind) => SignalKeepsInv(s, kind, mediaOk);
      case _ =>
    }
  }

  /** Toggling a track touches only the stream and the two flags. */
  lemma ToggleKeepsInv(s: CallState, kind: TrackKind)
    requires Inv(s)
    ensures Inv(ToggleTracks(s, kind))
  {
  }

  lemma StepKeepsInv(s: CallState, e: CallEvent)
    requires Inv(s)
    ensures Inv(Step(s, e))
  {
    match e {
      case Frame(f, m) =>
        if s.socket == SocketOpen {
          FrameKeepsInv(s, f, m);
        }
      case ToggleVideoClicked => ToggleKeepsInv(s, VideoTrack);
      case ToggleAudioClicked => ToggleKeepsInv(s, AudioTrack);
      case _ =>
    }
  }

  lemma {:induction false} RunKeepsInv(s: CallState, es: seq<CallEvent>)
    requires Inv(s)
    ensures Inv(Run(s, es))
    decreases |es|
  {
    if es != [] {
      StepKeepsInv(s, es[0]);
      RunKeepsInv(Step(s, es[0]), es[1..]);
    }
  }

  /** The status only moves forward: nothing returns to `initiating`, and once
      the call is connecting or active it never goes back to `ringing`. */
  lemma StatusMovesForward(s: CallState, e: CallEvent)
    requires Inv(s)
    ensures s.status != Initiating ==> Step(s, e).status != Initiating
    ensures s.status == Connecting || s.status == Active ==>
              Step(s, e).status == Connecting || Step(s, e).status == Active
  {
    match e {
      case Frame(f, m) =>
        if s.socket == SocketOpen {
          match f {
            case WebrtcSignal(kind) =>
            case _ =>
          }
        }
      case _ =>
    }
  }

  /** The duration changes only on a tick, and then by one second exactly
      while the call is active with its interval running. */
  lemma DurationCounting(s: CallState, e: CallEvent)
    requires Inv(s)
    ensures e != Tick ==> Step(s, e).duration == s.duration
    ensures Step(s, Tick).duration == s.duration + (if s.intervalArmed then 1 else 0)
    ensures Step(s, Tick).duration > s.duration ==> s.status == Active
  {
    match e {
      case Frame(f, m) =>
        if s.socket == SocketOpen {
          match f {
            case WebrtcSignal(kind) =>
            case _ =>
          }
        }
      case _ =>
    }
  }

  function Ticks(n: nat): seq<CallEvent>
  {
    if n == 0 then [] else [Tick] + Ticks(n - 1)
  }

  /** `n` ticks of a running interval add `n` seconds. */
  lemma {:induction false} TicksAdd(s: CallState, n: nat)
    requires s.intervalArmed
    ensures Run(s, Ticks(n)) == s.(duration := s.duration + n)
    decreases n
  {
    if n > 0 {
      var s1 := Step(s, Tick);
      assert Ticks(n)[0] == Tick && Ticks(n)[1..] == Ticks(n - 1);
      TicksAdd(s1, n - 1);
    }
  }

  /** `endCall` notifies `onEnd` and releases the current stream and
      connection whether or not the request succeeds; `rejectCall` does so
      only when it succeeds, and a failed reject changes nothing but the
      request log. Neither touches a stream or connection that was replaced. */
  lemma EndAndRejectOutcomes(s: CallState)
    ensures var r := EndCall(s);
            Released(r) && r.effects == s.effects + [PostEnd, EndNotified] &&
            r.retiredStreams == s.retiredStreams && r.retiredPcs == s.retiredPcs
    ensures var r := RejectCall(s, true);
            Released(r) && r.effects == s.effects + [PostReject, EndNotified] &&
            r.retiredStreams == s.retiredStreams && r.retiredPcs == s.retiredPcs
    ensures RejectCall(s, false) == s.(effects := s.effects + [PostReject])
  {
  }

  /** Unmounting after the screen has ended changes nothing. */
  lemma UnmountAfterEnd(s: CallState)
    ensures Step(EndCall(s), Unmounted) == EndCall(s)
  {
    CleanupIdempotent(Emit(s, PostEnd));
  }

  /** `b` is `a` with possibly more entries after it. */
  predicate Extends<T(==)>(b: seq<T>, a: seq<T>)
  {
    |a| <= |b| && b[..|a|] == a
  }

  /** No handler stops a replaced stream or closes a replaced connection:
      what was set aside stays exactly as it was, and more may follow. */
  lemma ReplacedStayLive(s: CallState, e: CallEvent)
    ensures Extends(Step(s, e).retiredStreams, s.retiredStreams)
    ensures Extends(Step(s, e).retiredPcs, s.retiredPcs)
  {
    match e {
      case Frame(f, m) =>
        if s.socket == SocketOpen {
          FrameSetsAside(s, f, m);
        }
      case AnswerClicked(ok, m) =>
        if PromptShown(s) && ok {
          MediaAndPcSetsAside(SetStatus(Emit(s, PostAnswer), Connecting));
        }
      case _ =>
    }
  }

  /** Building media and a connection only appends to what was set aside. */
  lemma MediaAndPcSetsAside(s: CallState)
    ensures Extends(MediaAndPc(s).retiredStreams, s.retiredStreams)
    ensures Extends(MediaAndPc(s).retiredPcs, s.retiredPcs)
  {
  }

  lemma FrameSetsAside(s: CallState, f: InFrame, mediaOk: bool)
    ensures Extends(OnFrame(s, f, mediaOk).retiredStreams, s.retiredStreams)
    ensures Extends(OnFrame(s, f, mediaOk).retiredPcs, s.retiredPcs)
  {
    match f {
      case CallAnswered =>
        if mediaOk {
          MediaAndPcSetsAside(SetStatus(s, Connecting));
        }
      case WebrtcSignal(kind) =>
        if kind == Offer && s.pc.None? && mediaOk {
          MediaAndPcSetsAside(s);
        }
      case _ =>
    }
  }

  /** Over any run of events, a replaced track is never stopped and a
      replaced connection never closed. */
  lemma {:induction false} RunReplacedStayLive(s: CallState, es: seq<CallEvent>)
    ensures Extends(Run(s, es).retiredStreams, s.retiredStreams)
    ensures Extends(Run(s, es).retiredPcs, s.retiredPcs)
    decreases |es|
  {
    if es != [] {
      var s1 := Step(s, es[0]);
      ReplacedStayLive(s, es[0]);
      RunReplacedStayLive(s1, es[1..]);
      var r := Run(s1, es[1..]);
      assert r.retiredStreams[..|s.retiredStreams|] == r.retiredStreams[..|s1.retiredStreams|][..|s.retiredStreams|];
      assert r.retiredPcs[..|s.retiredPcs|] == r.retiredPcs[..|s1.retiredPcs|][..|s.retiredPcs|];
    }
  }

  /** The race of an offer that reaches the callee while it is still
      ringing: `handleSignal` builds a first stream and connection and
      answers; the answer button then builds a second pair over them, and
      hanging up releases only the second. The first stream's tracks stay
      live and the first connection stays open. */
  lemma EarlyOfferLeaks(s: CallState)
    requires s.isIncoming && s.status == Ringing && s.socket == SocketOpen
    requires s.stream.None? && s.pc.None? && s.retiredStreams == [] && s.retiredPcs == []
    ensures var s1 := Step(s, Frame(WebrtcSignal(Offer), true));
            var s2 := Step(s1, AnswerClicked(true, true));
            var s3 := Step(s2, EndClicked);
            && s1.status == Ringing && PcOpen(s1) && s1.pc.value.remoteSet
            && s2.status == Connecting && PcOpen(s2) && !s2.pc.value.remoteSet
            && Released(s3) && !NothingLive(s3)
            && s3.retiredStreams == [LocalTracks(s.callType)]
            && |s3.retiredPcs| == 1 && !s3.retiredPcs[0].closed && s3.retiredPcs[0].remoteSet
  {
    var s3 := Step(Step(Step(s, Frame(WebrtcSignal(Offer), true)), AnswerClicked(true, true)), EndClicked);
    assert !s3.retiredStreams[0][0].stopped;
  }

  /** An offer that arrives before any connection exists gets media, a
      connection built from the current ICE configuration carrying every
      local track, and an answer. */
  lemma OfferFirst(s: CallState)
    requires s.pc.None?
    ensures var r := SignalStep(s, Offer, true);
            r.stream == Some(LocalTracks(s.callType)) &&
            r.pc == Some(PeerConn(PcConfig(s), |LocalTracks(s.callType)|, false, true, 0)) &&
            r.effects == s.effects + [SendSignal(Answer)] &&
            r.status == s.status
    ensures SignalStep(s, Offer, false) == s
    ensures SignalStep(s, Answer, true) == s && SignalStep(s, IceCandidate, true) == s
  {
  }

  /** The connection is built with the fetched configuration, or the STUN
      default when the fetch failed or has not completed. */
  lemma IceFallback(s: CallState, fetched: Option<IceConfig>)
    requires s.iceConfig.None?
    ensures PcConfig(s) == DefaultIceConfig
    ensures PcConfig(Step(s, IceConfigLoaded(fetched))) ==
              if fetched.Some? then fetched.value else DefaultIceConfig
  {
  }

  /** Toggling twice restores the stream, and the flag then mirrors the
      track's own state; no track is ever removed. */
  lemma ToggleTracksTwice(s: CallState, kind: TrackKind)
    requires s.stream.Some?
    ensures ToggleTracks(ToggleTracks(s, kind), kind).stream == s.stream
    ensures |ToggleTracks(s, kind).stream.value| == |s.stream.value|
    ensures var i := FirstOfKind(s.stream.value, kind);
            i < |s.stream.value| ==>
              ToggleTracks(s, kind).stream.value[i].enabled == !s.stream.value[i].enabled &&
              (kind == VideoTrack ==> ToggleTracks(ToggleTracks(s, kind), kind).isVideoEnabled == s.stream.value[i].enabled) &&
              (kind == AudioTrack ==> ToggleTracks(ToggleTracks(s, kind), kind).isAudioEnabled == s.stream.value[i].enabled)
  {
    var ts := s.stream.value;
    var i := FirstOfKind(ts, kind);
    if i < |ts| {
      var ts1 := ts[i := ts[i].(enabled := !ts[i].enabled)];
      assert FirstOfKind(ts1, kind) == i by {
        FirstOfKindSameKinds(ts, ts1, kind);
      }
      assert ts1[i := ts1[i].(enabled := !ts1[i].enabled)] == ts;
    }
  }

  /** `FirstOfKind` depends on the kinds only. */
  lemma {:induction false} FirstOfKindSameKinds(a: seq<Track>, b: seq<Track>, kind: TrackKind)
    requires |a| == |b|
    requires forall i :: 0 <= i < |a| ==> a[i].kind == b[i].kind
    ensures FirstOfKind(a, kind) == FirstOfKind(b, kind)
  {
    if a != [] && a[0].kind != kind {
      FirstOfKindSameKinds(a[1..], b[1..], kind);
    }
  }

  /** An outgoing video call that is answered, connects, runs three seconds
      and is hung up: ringing, connecting, active, and finally everything
      released and `onEnd` notified once. */
  lemma OutgoingCallScenario()
    ensures var s0 := Initial(false, Video, true);
            var s1 := Run(s0, [IceConfigLoaded(None), SocketOpened(true)]);
            var s2 := Step(s1, Frame(CallAnswered, true));
            var s3 := Run(s2, [Frame(WebrtcSignal(Answer), true), RemoteTrack]);
            var s4 := Run(s3, Ticks(3));
            var s5 := Step(s4, EndClicked);
            s1.status == Ringing &&
            s2.status == Connecting && s2.pc == Some(PeerConn(DefaultIceConfig, 2, false, false, 0)) &&
            s3.status == Active && s3.intervalArmed &&
            s4.duration == 3 &&
            NothingLive(s5) && s5.retiredStreams == [] && s5.retiredPcs == [] &&
            s5.effects == [PostInitiate, SendSignal(Offer), PostEnd, EndNotified]
  {
    var s0 := Initial(false, Video, true);
    DialStage();
    var s1 := Run(s0, [IceConfigLoaded(None), SocketOpened(true)]);
    AnswerStage(s1);
    var s2 := Step(s1, Frame(CallAnswered, true));
    ConnectStage(s2);
    var s3 := Run(s2, [Frame(WebrtcSignal(Answer), true), RemoteTrack]);
    TicksAdd(s3, 3);
    var s4 := Run(s3, Ticks(3));
    HangUpStage(s4);
  }

  /** The socket opening, for every state it can open in: an incoming call
      only marks the socket open and posts nothing; an outgoing one posts
      `/calls/initiate`, rings when it succeeds, and when it fails notifies
      `onEnd` with its status left as it was. */
  lemma SocketOpenOutcomes(s: CallState, ok: bool)
    requires s.socket == SocketConnecting
    ensures var r := Step(s, SocketOpened(ok));
            && (s.isIncoming ==> r == s.(socket := SocketOpen))
            && (!s.isIncoming && ok ==> r.status == Ringing && r.effects == s.effects + [PostInitiate])
            && (!s.isIncoming && !ok ==> r.status == s.status && r.effects == s.effects + [PostInitiate, EndNotified])
            && r.socket == SocketOpen && r.pc == s.pc && r.stream == s.stream
  {
  }

  /** The scenario's first stage: the configuration arrives and the socket
      opens, so the outgoing call is initiated and rings. */
  lemma DialStage()
    ensures var s1 := Run(Initial(false, Video, true), [IceConfigLoaded(None), SocketOpened(true)]);
            s1.status == Ringing && s1.socket == SocketOpen && s1.pc.None? && s1.effects == [PostInitiate] &&
            !s1.isIncoming && s1.callType == Video && s1.iceConfig == Some(DefaultIceConfig) && s1.duration == 0 &&
            s1.stream.None? && s1.retiredStreams == [] && s1.retiredPcs == []
  {
    var s0 := Initial(false, Video, true);
    RunPair(s0, IceConfigLoaded(None), SocketOpened(true));
  }

  /** The callee answers: media is acquired, a connection with both tracks
      is built and an offer is sent. */
  lemma AnswerStage(s: CallState)
    requires s.socket == SocketOpen && !s.isIncoming && s.status == Ringing && s.callType == Video
    requires s.pc.None? && s.iceConfig == Some(DefaultIceConfig)
    ensures var t := Step(s, Frame(CallAnswered, true));
            t.status == Connecting && t.pc == Some(PeerConn(DefaultIceConfig, 2, false, false, 0)) &&
            t.effects == s.effects + [SendSignal(Offer)] && t.socket == SocketOpen && !t.isIncoming &&
            t.duration == s.duration && t.retiredPcs == s.retiredPcs &&
            t.retiredStreams == s.retiredStreams + if s.stream.Some? then [s.stream.value] else []
  {
  }

  /** The answer is applied and the remote track arrives: the call is
      active and the interval runs. */
  lemma ConnectStage(s: CallState)
    requires s.socket == SocketOpen && s.pc.Some? && !s.pc.value.closed && s.status == Connecting
    ensures var t := Run(s, [Frame(WebrtcSignal(Answer), true), RemoteTrack]);
            t.status == Active && t.intervalArmed && t.effects == s.effects && t.isIncoming == s.isIncoming &&
            t.duration == s.duration && t.retiredStreams == s.retiredStreams && t.retiredPcs == s.retiredPcs
  {
    RunPair(s, Frame(WebrtcSignal(Answer), true), RemoteTrack);
  }

  /** Hanging up an outgoing call releases its current stream and
      connection and notifies; replaced ones are left as they were. */
  lemma HangUpStage(s: CallState)
    requires !s.isIncoming
    ensures Released(Step(s, EndClicked))
    ensures Step(s, EndClicked).effects == s.effects + [PostEnd, EndNotified]
    ensures Step(s, EndClicked).retiredStreams == s.retiredStreams
    ensures Step(s, EndClicked).retiredPcs == s.retiredPcs
  {
  }

  /** Running two events is stepping twice. */
  lemma RunPair(s: CallState, a: CallEvent, b: CallEvent)
    ensures Run(s, [a, b]) == Step(Step(s, a), b)
  {
    assert [a, b][0] == a && [a, b][1..] == [b];
    assert [b][0] == b && [b][1..] == [];
    assert Run(s, [a, b]) == Run(Step(s, a), [b]);
    assert Run(Step(s, a), [b]) == Run(Step(Step(s, a), b), []);
  }

  // ---------------------------------------------------------------------------
  // The `mm:ss` label

  /** `formatDuration`: minutes and seconds, each padded to two digits. */
  function FormatDuration(seconds: nat): string
  {
    Pad2(DecimalString(seconds / 60)) + ":" + Pad2(DecimalString(seconds % 60))
  }

  /** A number below 100 prints in at most two digits. */
  lemma TwoDigitsBelow100(n: nat)
    requires n < 100
    ensures |DecimalString(n)| <= 2
  {
  }

  /** A padded field holds the digits of its number: two of them below
      100, at least two otherwise. */
  lemma PaddedField(n: nat)
    ensures AllDigits(Pad2(DecimalString(n))) && DigitsValue(Pad2(DecimalString(n))) == n
    ensures |Pad2(DecimalString(n))| >= 2
    ensures n < 100 ==> |Pad2(DecimalString(n))| == 2
  {
    if n < 100 {
      TwoDigitsBelow100(n);
    }
    Pad2Digits(DecimalString(n));
    DecimalRoundTrip(n);
  }

  /** The two fields of `a:b` are read back from either side of the colon. */
  lemma FieldsOfLabel(a: string, b: string)
    requires |b| == 2
    ensures var r := a + ":" + b;
            |r| == |a| + 3 && r[|r| - 3] == ':' && r[..|r| - 3] == a && r[|r| - 2..] == b
  {
    var r := a + ":" + b;
    assert r[..|r| - 3] == a;
    assert r[|r| - 2..] == b;
  }

  /** Joining two digit fields with a colon keeps both readable. */
  lemma LabelValues(a: string, b: string, m: nat, sec: nat)
    requires AllDigits(a) && |a| >= 2 && DigitsValue(a) == m
    requires AllDigits(b) && |b| == 2 && DigitsValue(b) == sec && sec < 60
    ensures var r := a + ":" + b;
            |r| >= 5 && r[|r| - 3] == ':' &&
            AllDigits(r[..|r| - 3]) && AllDigits(r[|r| - 2..]) &&
            DigitsValue(r[|r| - 2..]) < 60 &&
            DigitsValue(r[..|r| - 3]) * 60 + DigitsValue(r[|r| - 2..]) == m * 60 + sec
  {
    FieldsOfLabel(a, b);
  }

  /** The label is `mm:ss`: the seconds field is exactly two digits below 60,
      the minutes field at least two digits, and reading both back gives the
      duration. */
  lemma FormatDurationRoundTrip(seconds: nat)
    ensures var r := FormatDuration(seconds);
            |r| >= 5 && r[|r| - 3] == ':' &&
            AllDigits(r[..|r| - 3]) && AllDigits(r[|r| - 2..]) &&
            DigitsValue(r[|r| - 2..]) < 60 &&
            DigitsValue(r[..|r| - 3]) * 60 + DigitsValue(r[|r| - 2..]) == seconds
  {
    var m := seconds / 60;
    var sec := seconds % 60;
    PaddedField(m);
    PaddedField(sec);
    var a := Pad2(DecimalString(m));
    var b := Pad2(DecimalString(sec));
    LabelValues(a, b, m, sec);
    assert FormatDuration(seconds) == a + ":" + b;
    assert m * 60 + sec == seconds;
  }

  // ---------------------------------------------------------------------------
  // The screen object

  class CallSession {
    const isIncoming: bool
    const callType: CallType
    var status: Status
    var isVideoEnabled: bool
    var isAudioEnabled: bool
    var duration: nat
    var iceConfig: Option<IceConfig>
    var stream: Option<seq<Track>>
    var pc: Option<PeerConn>
    var socket: SocketState
    var intervalArmed: bool
    var effects: seq<Effect>
    var retiredStreams: seq<seq<Track>>
    var retiredPcs: seq<PeerConn>

    function State(): CallState
      reads this
    {
      CallState(isIncoming, callType, status, isVideoEnabled, isAudioEnabled, duration,
                iceConfig, stream, pc, socket, intervalArmed, effects, retiredStreams, retiredPcs)
    }

    constructor (incoming: bool, kind: CallType, signedIn: bool)
      ensures State() == Initial(incoming, kind, signedIn)
    {
      isIncoming := incoming;
      callType := kind;
      status := if incoming then Ringing else Initiating;
      isVideoEnabled := kind == Video;
      isAudioEnabled := true;
      duration := 0;
      iceConfig := None;
      stream := None;
      pc := None;
      socket := if signedIn then SocketConnecting else NoSocket;
      intervalArmed := false;
      effects := [];
      retiredStreams := [];
      retiredPcs := [];
    }

    method SetCallStatus(st: Status)
      modifies this
      ensures State() == SetStatus(old(State()), st)
    {
      if status != st {
        status := st;
        intervalArmed := st == Active;
      }
    }

    method Cleanup()
      modifies this
      ensures State() == CleanedUp(old(State()))
    {
      if stream.Some? {
        var stopped := StopTracks(stream.value);
        stream := Some(stopped);
      }
      if pc.Some? {
        pc := Some(pc.value.(closed := true));
      }
      if socket != NoSocket {
        socket := SocketClosed;
      }
      intervalArmed := false;
    }

    /** `cleanup()` then `onEnd()`. */
    method Finish()
      modifies this
      ensures State() == Ended(old(State()))
    {
      Cleanup();
      effects := effects + [EndNotified];
    }

    /** The previous stream, if any, is set aside unstopped. */
    method StartLocalStream()
      modifies this
      ensures State() == StartMedia(old(State()))
      ensures stream == Some(LocalTracks(callType))
      ensures retiredStreams == old(retiredStreams) + if old(stream).Some? then [old(stream).value] else []
    {
      if stream.Some? {
        retiredStreams := retiredStreams + [stream.value];
      }
      stream := Some(LocalTracks(callType));
    }

    /** The previous connection, if any, is set aside unclosed. */
    method CreatePeerConnection()
      modifies this
      ensures State() == CreatePc(old(State()))
      ensures pc.Some? && !pc.value.closed && pc.value.config == PcConfig(old(State()))
      ensures retiredPcs == old(retiredPcs) + if old(pc).Some? then [old(pc).value] else []
    {
      var config := if iceConfig.Some? then iceConfig.value else DefaultIceConfig;
      var count := if stream.Some? then |stream.value| else 0;
      if pc.Some? {
        retiredPcs := retiredPcs + [pc.value];
      }
      pc := Some(PeerConn(config, count, false, false, 0));
    }

    method OnIceConfig(fetched: Option<IceConfig>)
      modifies this
      ensures State() == Step(old(State()), IceConfigLoaded(fetched))
    {
      if iceConfig.None? {
        iceConfig := Some(if fetched.Some? then fetched.value else DefaultIceConfig);
      }
    }

    method OnSocketOpen(initiateOk: bool)
      modifies this
      ensures State() == Step(old(State()), SocketOpened(initiateOk))
    {
      if socket != SocketConnecting {
        return;
      }
      socket := SocketOpen;
      if !isIncoming {
        effects := effects + [PostInitiate];
        if initiateOk {
          SetCallStatus(Ringing);
        } else {
          effects := effects + [EndNotified];
        }
      }
    }

    /** `handleSignal`. */
    method HandleSignal(kind: SignalType, mediaOk: bool)
      modifies this
      ensures State() == SignalStep(old(State()), kind, mediaOk)
    {
      match kind {
        case Offer =>
          if pc.None? {
            if !mediaOk {
              return;
            }
            StartLocalStream();
            CreatePeerConnection();
          }
          if !pc.value.closed {
            pc := Some(pc.value.(remoteSet := true));
            effects := effects + [SendSignal(Answer)];
          }
        case Answer =>
          if pc.Some? && !pc.value.closed {
            pc := Some(pc.value.(remoteSet := true));
          }
        case IceCandidate =>
          if pc.Some? && !pc.value.closed && pc.value.remoteSet {
            pc := Some(pc.value.(candidates := pc.value.candidates + 1));
          }
        case OtherSignal =>
      }
    }

    /** `ws.onmessage`. */
    method OnMessage(frame: InFrame, mediaOk: bool)
      modifies this
      ensures State() == Step(old(State()), Frame(frame, mediaOk))
    {
      if socket != SocketOpen {
        return;
      }
      match frame {
        case CallAnswered =>
          SetCallStatus(Connecting);
          if mediaOk {
            StartLocalStream();
            CreatePeerConnection();
            effects := effects + [SendSignal(Offer)];
          }
        case CallRejected =>
          Finish();
        case CallEnded =>
          Finish();
        case WebrtcSignal(kind) =>
          HandleSignal(kind, mediaOk);
        case _ =>
      }
    }

    /** `pc.ontrack`. */
    method OnRemoteTrack()
      modifies this
      ensures State() == Step(old(State()), RemoteTrack)
    {
      if pc.Some? && !pc.value.closed {
        SetCallStatus(Active);
      }
    }

    /** `pc.onconnectionstatechange`. */
    method OnConnectionStateChange(st: PeerState)
      modifies this
      ensures State() == Step(old(State()), PeerStateChanged(st))
    {
      if pc.Some? && !pc.value.closed && (st == Disconnected || st == Failed) {
        Finish();
      }
    }

    /** `pc.onicecandidate` with a candidate. */
    method OnIceCandidate()
      modifies this
      ensures State() == Step(old(State()), LocalCandidate)
    {
      if pc.Some? && !pc.value.closed {
        effects := effects + [SendSignal(IceCandidate)];
      }
    }

    /** The interval callback. */
    method OnTick()
      modifies this
      ensures State() == Step(old(State()), Tick)
    {
      if intervalArmed {
        duration := duration + 1;
      }
    }

    /** `answerCall`, offered only by the incoming prompt. */
    method AnswerCall(ok: bool, mediaOk: bool)
      modifies this
      ensures State() == Step(old(State()), AnswerClicked(ok, mediaOk))
    {
      if !(isIncoming && status == Ringing) {
        return;
      }
      effects := effects + [PostAnswer];
      if ok {
        SetCallStatus(Connecting);
        if mediaOk {
          StartLocalStream();
          CreatePeerConnection();
        }
      }
    }

    /** `rejectCall`, offered only by the incoming prompt. */
    method RejectCall(ok: bool)
      modifies this
      ensures State() == Step(old(State()), RejectClicked(ok))
    {
      if !(isIncoming && status == Ringing) {
        return;
      }
      effects := effects + [PostReject];
      if ok {
        Finish();
      }
    }

    /** `endCall`, offered on the call screen. */
    method EndCall()
      modifies this
      ensures State() == Step(old(State()), EndClicked)
    {
      if isIncoming && status == Ringing {
        return;
      }
      effects := effects + [PostEnd];
      Finish();
    }

    method ToggleTrack(kind: TrackKind)
      modifies this
      ensures State() == ToggleTracks(old(State()), kind)
    {
      if stream.None? {
        return;
      }
      var ts := stream.value;
      var i := FirstOfKind(ts, kind);
      if i == |ts| {
        return;
      }
      var flipped := !ts[i].enabled;
      stream := Some(ts[i := ts[i].(enabled := flipped)]);
      if kind == VideoTrack {
        isVideoEnabled := flipped;
      } else {
        isAudioEnabled := flipped;
      }
    }

    /** `toggleVideo`; its button is only rendered for video calls. */
    method ToggleVideo()
      modifies this
      ensures State() == Step(old(State()), ToggleVideoClicked)
    {
      if !(isIncoming && status == Ringing) && callType == Video {
        ToggleTrack(VideoTrack);
      }
    }

    /** `toggleAudio`. */
    method ToggleAudio()
      modifies this
      ensures State() == Step(old(State()), ToggleAudioClicked)
    {
      if !(isIncoming && status == Ringing) {
        ToggleTrack(AudioTrack);
      }
    }

    /** The effect's teardown when the screen goes away. */
    method Unmount()
      modifies this
      ensures State() == Step(old(State()), Unmounted)
    {
      Cleanup();
    }
  }
}
