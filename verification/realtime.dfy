/** The realtime voice session hook (frontend/src/hooks/useRealtimeAPI.ts):
    the reducer that folds provider events into transcript, response, the
    assistant accumulator, the append-only conversation history and the error;
    the guarded send; the idempotent teardown of the four browser handles; and
    the failure path of the connection handshake, whose browser steps are
    abstract outcomes. */
module RealtimeApi {
  import opened Base
  import opened Strings

  // Event types the handler distinguishes.
  const TranscriptionCompletedType := "conversation.item.input_audio_transcription.completed"
  const TranscriptDeltaType := "response.audio_transcript.delta"
  const TranscriptDoneType := "response.audio_transcript.done"
  const ResponseDoneType := "response.done"
  const SessionCreatedType := "session.created"
  const SpeechStartedType := "input_audio_buffer.speech_started"
  const SpeechStoppedType := "input_audio_buffer.speech_stopped"
  const ErrorType := "error"

  const UnknownError := "Unknown error"
  const NoTokenMessage := "No token in response"
  const ConnectionFailed := "Connection failed"

  /** The `error` object of an error event. */
  datatype ErrorBody = ErrorBody(message: Option<string>)

  /** A parsed provider event: its `type` and the optional fields the handler reads. */
  datatype ServerEvent = ServerEvent(
    kind: string,
    transcript: Option<string>,
    delta: Option<string>,
    error: Option<ErrorBody>)

  datatype Speaker = Student | Tutor

  /** One entry of `conversationHistory`. */
  datatype Turn = Turn(speaker: Speaker, transcript: string, timestamp: Time)

  /** The part of the hook's state that provider events change: the `transcript`
      and `response` state, the two transcript refs, the history and the error. */
  datatype EventState = EventState(
    transcript: string,
    response: string,
    userText: string,
    assistantText: string,
    history: seq<Turn>,
    error: Option<string>)

  /** `x || ''` on an optional string. */
  function OrEmpty(x: Option<string>): string {
    match x
    case Some(s) => s
    case None => ""
  }

  /** `event.error?.message || "Unknown error"`. */
  function ErrorText(body: Option<ErrorBody>): (msg: string)
    ensures msg != ""
    ensures body.Some? && body.value.message.Some? && body.value.message.value != "" ==> msg == body.value.message.value
  {
    if body.Some? && body.value.message.Some? && body.value.message.value != "" then body.value.message.value
    else UnknownError
  }

  /** `handleServerEvent`: the new state after one provider event arriving at `now`. */
  function HandleEvent(s: EventState, e: ServerEvent, now: Time): (r: EventState)
    ensures |s.history| <= |r.history| <= |s.history| + 1 && r.history[..|s.history|] == s.history
    ensures |r.history| > |s.history| ==> r.history[|s.history|].transcript != "" && r.history[|s.history|].timestamp == now
    ensures r.error != s.error ==> e.kind == ErrorType && r.error.Some?
  {
    if e.kind == TranscriptionCompletedType then
      var userText := OrEmpty(e.transcript);
      s.(userText := userText, transcript := userText,
         history := if userText != "" then s.history + [Turn(Student, userText, now)] else s.history)
    else if e.kind == TranscriptDeltaType then
      var acc := s.assistantText + OrEmpty(e.delta);
      s.(assistantText := acc, response := acc)
    else if e.kind == TranscriptDoneType || e.kind == ResponseDoneType then
      s.(history := if s.assistantText != "" then s.history + [Turn(Tutor, s.assistantText, now)] else s.history,
         assistantText := "")
    else if e.kind == SpeechStartedType then
      s.(transcript := "")
    else if e.kind == ErrorType then
      s.(error := Some(ErrorText(e.error)))
    else
      s
  }

  /** The state after a whole stream of events, the i-th arriving at `times[i]`. */
  function HandleAll(s: EventState, events: seq<ServerEvent>, times: seq<Time>): EventState
    requires |times| == |events|
    decreases |events|
  {
    if |events| == 0 then s
    else HandleAll(HandleEvent(s, events[0], times[0]), events[1..], times[1..])
  }

  predicate IsDone(kind: string) {
    kind == TranscriptDoneType || kind == ResponseDoneType
  }

  // ---------------------------------------------------------------------------
  // Properties of the reducer

  /** A completed transcription appends exactly one student turn with its text
      when the text is non-empty and nothing otherwise; `transcript` becomes the
      text, which is `''` when it is missing. */
  lemma TranscriptionCompleted(s: EventState, e: ServerEvent, now: Time)
    requires e.kind == TranscriptionCompletedType
    ensures var t := HandleEvent(s, e, now);
      && t.transcript == t.userText == OrEmpty(e.transcript)
      && (OrEmpty(e.transcript) != "" ==> t.history == s.history + [Turn(Student, e.transcript.value, now)])
      && (OrEmpty(e.transcript) == "" ==> t.history == s.history && t.transcript == "")
      && t.assistantText == s.assistantText && t.response == s.response && t.error == s.error
  {
  }

  /** A delta extends the accumulator by its text (`''` when missing), and
      `response` shows the accumulator. */
  lemma DeltaAccumulates(s: EventState, e: ServerEvent, now: Time)
    requires e.kind == TranscriptDeltaType
    ensures var t := HandleEvent(s, e, now);
      && t.assistantText == s.assistantText + OrEmpty(e.delta)
      && t.response == t.assistantText
      && t.history == s.history && t.transcript == s.transcript
  {
  }

  /** Both "done" events append one tutor turn with the accumulated text when it
      is non-empty, and always empty the accumulator. */
  lemma DoneFlushes(s: EventState, e: ServerEvent, now: Time)
    requires IsDone(e.kind)
    ensures var t := HandleEvent(s, e, now);
      && t.assistantText == ""
      && (s.assistantText != "" ==> t.history == s.history + [Turn(Tutor, s.assistantText, now)])
      && (s.assistantText == "" ==> t.history == s.history)
      && t.response == s.response && t.transcript == s.transcript
  {
  }

  /** A second "done" straight after the first adds nothing. */
  lemma DoneTwiceAddsNothing(s: EventState, e1: ServerEvent, e2: ServerEvent, t1: Time, t2: Time)
    requires IsDone(e1.kind) && IsDone(e2.kind)
    ensures HandleEvent(HandleEvent(s, e1, t1), e2, t2) == HandleEvent(s, e1, t1)
  {
  }

  /** `speech_started` only clears `transcript`; `speech_stopped`,
      `session.created` and every unhandled type change nothing. */
  lemma QuietEvents(s: EventState, e: ServerEvent, now: Time)
    ensures e.kind == SpeechStartedType ==> HandleEvent(s, e, now) == s.(transcript := "")
    ensures e.kind in {SpeechStoppedType, SessionCreatedType} ==> HandleEvent(s, e, now) == s
    ensures (e.kind !in {TranscriptionCompletedType, TranscriptDeltaType, TranscriptDoneType,
                         ResponseDoneType, SpeechStartedType, ErrorType}) ==> HandleEvent(s, e, now) == s
  {
  }

  /** An error event records its message, or "Unknown error", and nothing else. */
  lemma ErrorEvent(s: EventState, e: ServerEvent, now: Time)
    requires e.kind == ErrorType
    ensures HandleEvent(s, e, now) == s.(error := Some(ErrorText(e.error)))
    ensures e.error.None? || e.error.value.message.None? ==> HandleEvent(s, e, now).error == Some(UnknownError)
  {
  }

  /** Each event leaves the history alone or appends one turn at its end. */
  lemma AppendOnlyStep(s: EventState, e: ServerEvent, now: Time)
    ensures var h := HandleEvent(s, e, now).history;
      h == s.history || (|h| == |s.history| + 1 && h[..|s.history|] == s.history)
  {
  }

  /** Over any stream the old history stays a prefix, and at most one turn is
      added per event. */
  lemma {:induction false} AppendOnly(s: EventState, events: seq<ServerEvent>, times: seq<Time>)
    requires |times| == |events|
    ensures var h := HandleAll(s, events, times).history;
      |s.history| <= |h| <= |s.history| + |events| && h[..|s.history|] == s.history
    decreases |events|
  {
    if |events| > 0 {
      var s1 := HandleEvent(s, events[0], times[0]);
      AppendOnlyStep(s, events[0], times[0]);
      AppendOnly(s1, events[1..], times[1..]);
      var h := HandleAll(s1, events[1..], times[1..]).history;
      assert h[..|s.history|] == h[..|s1.history|][..|s.history|];
    }
  }

  /** The concatenation of the deltas' texts. */
  function Deltas(events: seq<ServerEvent>): string {
    if |events| == 0 then "" else OrEmpty(events[0].delta) + Deltas(events[1..])
  }

  predicate AllDeltas(events: seq<ServerEvent>) {
    forall k :: 0 <= k < |events| ==> events[k].kind == TranscriptDeltaType
  }

  /** A run of deltas appends all their texts to the accumulator in arrival order. */
  lemma {:induction false} DeltaRun(s: EventState, events: seq<ServerEvent>, times: seq<Time>)
    requires |times| == |events| && AllDeltas(events)
    ensures var t := HandleAll(s, events, times);
      && t.assistantText == s.assistantText + Deltas(events)
      && (|events| > 0 ==> t.response == t.assistantText)
      && t.history == s.history
    decreases |events|
  {
    if |events| > 0 {
      var s1 := HandleEvent(s, events[0], times[0]);
      assert AllDeltas(events[1..]) by {
        forall k | 0 <= k < |events[1..]| ensures events[1..][k].kind == TranscriptDeltaType {
          assert events[1..][k] == events[k + 1];
        }
      }
      DeltaRun(s1, events[1..], times[1..]);
      assert s.assistantText + Deltas(events) == s1.assistantText + Deltas(events[1..]);
    }
  }

  /** A response from an empty accumulator: its deltas followed by one "done"
      append exactly one tutor turn holding the whole text (when it is not empty). */
  lemma TutorResponse(s: EventState, deltas: seq<ServerEvent>, done: ServerEvent, times: seq<Time>, now: Time)
    requires s.assistantText == ""
    requires |times| == |deltas| && AllDeltas(deltas) && IsDone(done.kind)
    ensures var t := HandleAll(s, deltas + [done], times + [now]);
      && t.assistantText == ""
      && t.history == s.history + (if Deltas(deltas) != "" then [Turn(Tutor, Deltas(deltas), now)] else [])
  {
    HandleAllSnoc(s, deltas, times, done, now);
    DeltaRun(s, deltas, times);
    assert s.assistantText + Deltas(deltas) == Deltas(deltas);
  }

  lemma {:induction false} HandleAllSnoc(s: EventState, events: seq<ServerEvent>, times: seq<Time>, e: ServerEvent, now: Time)
    requires |times| == |events|
    ensures HandleAll(s, events + [e], times + [now]) == HandleEvent(HandleAll(s, events, times), e, now)
    decreases |events|
  {
    if |events| == 0 {
      assert events + [e] == [e] && times + [now] == [now];
    } else {
      assert (events + [e])[1..] == events[1..] + [e];
      assert (times + [now])[1..] == times[1..] + [now];
      HandleAllSnoc(HandleEvent(s, events[0], times[0]), events[1..], times[1..], e, now);
    }
  }

  // ---------------------------------------------------------------------------
  // Browser handles and their teardown

  type PeerId = nat
  type TrackId = nat
  type AudioId = nat

  /** `readyState` of the data channel. */
  datatype ChannelState = Connecting | Open | Closing | Closed

  /** The four refs: data channel, peer connection, microphone stream (by its
      tracks) and audio element. */
  datatype Handles = Handles(
    dc: Option<ChannelState>,
    pc: Option<PeerId>,
    stream: Option<seq<TrackId>>,
    audio: Option<AudioId>)

  const NoHandles := Handles(None, None, None, None)

  /** What teardown does to the browser, in order. */
  datatype Release = ChannelClosed | PeerClosed | TrackStopped(track: TrackId) | AudioDetached

  function StopAll(tracks: seq<TrackId>): (r: seq<Release>)
    ensures |r| == |tracks|
    ensures forall k :: 0 <= k < |tracks| ==> r[k] == TrackStopped(tracks[k])
  {
    seq(|tracks|, k requires 0 <= k < |tracks| => TrackStopped(tracks[k]))
  }

  /** What `disconnect` releases, given the refs it finds. */
  function Teardown(h: Handles): (r: seq<Release>)
    ensures |r| == (if h.dc.Some? then 1 else 0) + (if h.pc.Some? then 1 else 0)
                   + (if h.stream.Some? then |h.stream.value| else 0) + (if h.audio.Some? then 1 else 0)
    ensures h == NoHandles ==> r == []
  {
    ChannelPart(h) + PeerPart(h) + TrackPart(h) + AudioPart(h)
  }

  function ChannelPart(h: Handles): seq<Release> {
    if h.dc.Some? then [ChannelClosed] else []
  }

  function PeerPart(h: Handles): seq<Release> {
    if h.pc.Some? then [PeerClosed] else []
  }

  function TrackPart(h: Handles): seq<Release> {
    if h.stream.Some? then StopAll(h.stream.value) else []
  }

  function AudioPart(h: Handles): seq<Release> {
    if h.audio.Some? then [AudioDetached] else []
  }

  function Rank(r: Release): nat {
    match r
    case ChannelClosed => 0
    case PeerClosed => 1
    case TrackStopped(_) => 2
    case AudioDetached => 3
  }

  /** Teardown releases exactly the handles that are present, and every track of
      the stream. */
  lemma TeardownOnlyPresent(h: Handles)
    ensures ChannelClosed in Teardown(h) <==> h.dc.Some?
    ensures PeerClosed in Teardown(h) <==> h.pc.Some?
    ensures AudioDetached in Teardown(h) <==> h.audio.Some?
    ensures forall t :: TrackStopped(t) in Teardown(h) <==> h.stream.Some? && t in h.stream.value
  {
    var a := if h.dc.Some? then [ChannelClosed] else [];
    var b := if h.pc.Some? then [PeerClosed] else [];
    var c := if h.stream.Some? then StopAll(h.stream.value) else [];
    var d := if h.audio.Some? then [AudioDetached] else [];
    assert Teardown(h) == a + b + c + d;
    forall t ensures TrackStopped(t) in Teardown(h) <==> h.stream.Some? && t in h.stream.value {
      if h.stream.Some? && t in h.stream.value {
        var k :| 0 <= k < |h.stream.value| && h.stream.value[k] == t;
        assert c[k] == TrackStopped(t);
      }
    }
  }

  /** Teardown runs in the order: data channel, peer connection, tracks, audio. */
  lemma TeardownOrdered(h: Handles)
    ensures forall i, j :: 0 <= i < j < |Teardown(h)| ==> Rank(Teardown(h)[i]) <= Rank(Teardown(h)[j])
  {
    var a := if h.dc.Some? then [ChannelClosed] else [];
    var b := if h.pc.Some? then [PeerClosed] else [];
    var c := if h.stream.Some? then StopAll(h.stream.value) else [];
    var d := if h.audio.Some? then [AudioDetached] else [];
    var r := Teardown(h);
    assert r == a + b + c + d;
    forall i | 0 <= i < |r| ensures Rank(r[i]) == if i < |a| then 0 else if i < |a| + |b| then 1 else if i < |a| + |b| + |c| then 2 else 3 {
      if i < |a| { assert r[i] == a[i]; }
      else if i < |a| + |b| { assert r[i] == b[i - |a|]; }
      else if i < |a| + |b| + |c| { assert r[i] == c[i - |a| - |b|]; }
      else { assert r[i] == d[i - |a| - |b| - |c|]; }
    }
  }

  lemma AppendTeardown(r: seq<Release>, h: Handles)
    ensures r + Teardown(h) == r + ChannelPart(h) + PeerPart(h) + TrackPart(h) + AudioPart(h)
  {
  }

  /** Nothing is left to release once the refs are null. */
  lemma TeardownOfNothing()
    ensures Teardown(NoHandles) == []
  {
  }

  // ---------------------------------------------------------------------------
  // The connection handshake, with every browser step an abstract outcome

  /** The outcome of each awaited step of `connect`. */
  datatype ConnectEnv = ConnectEnv(
    tokenReply: Result<Option<string>, Thrown>,   // getEphemeralToken: client_secret.value, or what it threw
    microphone: Result<seq<TrackId>, Thrown>,     // getUserMedia: the stream's tracks, or what it threw
    offer: Option<Thrown>,                        // createOffer + setLocalDescription: what they threw, if anything
    signaling: Result<int, Thrown>,               // the SDP POST: the response status, or what fetch threw
    answer: Option<Thrown>)                       // reading the answer + setRemoteDescription

  /** The fresh objects `connect` creates. */
  datatype NewIds = NewIds(pc: PeerId, audio: AudioId)

  /** `sdpResponse.ok`. */
  predicate StatusOk(status: int) {
    200 <= status <= 299
  }

  /** The message the catch block shows for a thrown value. */
  function ThrownMessage(t: Thrown): string {
    match t
    case ErrorInstance(m) => m
    case OtherValue(_) => ConnectionFailed
  }

  /** Runs the steps of `connect` from refs `h` until the first one that throws:
      the refs at that point, and what was thrown (None when every step succeeded). */
  function ConnectSteps(env: ConnectEnv, h: Handles, ids: NewIds): (Handles, Option<Thrown>) {
    match env.tokenReply
    case Err(t) => (h, Some(t))
    case Ok(token) =>
      if token.None? || token.value == "" then (h, Some(ErrorInstance(NoTokenMessage)))
      else
        var h2 := h.(pc := Some(ids.pc), audio := Some(ids.audio));
        match env.microphone
        case Err(t) => (h2, Some(t))
        case Ok(tracks) =>
          var h4 := h2.(stream := Some(tracks));
          var h5 := h4.(dc := Some(Connecting));
          if env.offer.Some? then (h5, env.offer)
          else match env.signaling
            case Err(t) => (h5, Some(t))
            case Ok(status) =>
              if !StatusOk(status) then (h5, Some(ErrorInstance("SDP request failed: " + IntToString(status))))
              else (h5, env.answer)
  }

  /** Without a usable token nothing is acquired, so teardown releases only what
      the refs already held. */
  lemma NoTokenAcquiresNothing(env: ConnectEnv, h: Handles, ids: NewIds)
    requires env.tokenReply.Err? || env.tokenReply.value.None? || env.tokenReply.value.value == ""
    ensures ConnectSteps(env, h, ids).0 == h
    ensures env.tokenReply.Ok? ==> ConnectSteps(env, h, ids).1 == Some(ErrorInstance(NoTokenMessage))
  {
  }

  /** A refused microphone on fresh refs tears down the peer connection and the
      audio element and nothing else. */
  lemma MicrophoneRefused(env: ConnectEnv, ids: NewIds)
    requires env.tokenReply.Ok? && env.tokenReply.value.Some? && env.tokenReply.value.value != ""
    requires env.microphone.Err?
    ensures ConnectSteps(env, NoHandles, ids).1 == Some(env.microphone.error)
    ensures Teardown(ConnectSteps(env, NoHandles, ids).0) == [PeerClosed, AudioDetached]
  {
  }

  /** A non-ok SDP status on fresh refs fails with "SDP request failed: <status>"
      and tears down everything that was acquired. */
  lemma SignalingRejected(env: ConnectEnv, ids: NewIds, status: int)
    requires env.tokenReply.Ok? && env.tokenReply.value.Some? && env.tokenReply.value.value != ""
    requires env.microphone.Ok? && env.offer.None? && env.signaling == Ok(status) && !StatusOk(status)
    ensures ConnectSteps(env, NoHandles, ids).1 == Some(ErrorInstance("SDP request failed: " + IntToString(status)))
    ensures Teardown(ConnectSteps(env, NoHandles, ids).0)
         == [ChannelClosed, PeerClosed] + StopAll(env.microphone.value) + [AudioDetached]
  {
  }

  /** A client event handed to `sendEvent`; its JSON form is not modelled. */
  datatype ClientEvent = ClientEvent(kind: string, body: string)

  /** The hook's state and refs. */
  class RealtimeSession {
    var isConnected: bool
    var isLoading: bool
    var error: Option<string>
    var transcript: string
    var response: string
    var history: seq<Turn>
    var userTranscriptRef: string
    var assistantResponseRef: string
    var handles: Handles
    /** Everything teardown has released so far, oldest first. */
    var released: seq<Release>
    /** Everything sent over the data channel so far, oldest first. */
    var sent: seq<ClientEvent>

    function Events(): EventState
      reads this
    {
      EventState(transcript, response, userTranscriptRef, assistantResponseRef, history, error)
    }

    constructor ()
      ensures !isConnected && !isLoading && error == None
      ensures Events() == EventState("", "", "", "", [], None)
      ensures handles == NoHandles && released == [] && sent == []
    {
      isConnected, isLoading, error := false, false, None;
      transcript, response, history := "", "", [];
      userTranscriptRef, assistantResponseRef := "", "";
      handles, released, sent := NoHandles, [], [];
    }

    /** `handleServerEvent`. */
    method HandleServerEvent(e: ServerEvent, now: Time)
      modifies this`transcript, this`response, this`history, this`userTranscriptRef,
               this`assistantResponseRef, this`error
      ensures Events() == HandleEvent(old(Events()), e, now)
    {
      if e.kind == TranscriptionCompletedType {
        var userText := OrEmpty(e.transcript);
        userTranscriptRef := userText;
        transcript := userText;
        if userText != "" {
          history := history + [Turn(Student, userText, now)];
        }
      } else if e.kind == TranscriptDeltaType {
        assistantResponseRef := assistantResponseRef + OrEmpty(e.delta);
        response := assistantResponseRef;
      } else if e.kind == TranscriptDoneType || e.kind == ResponseDoneType {
        var assistantText := assistantResponseRef;
        if assistantText != "" {
          history := history + [Turn(Tutor, assistantText, now)];
        }
        assistantResponseRef := "";
      } else if e.kind == SpeechStartedType {
        transcript := "";
      } else if e.kind == ErrorType {
        error := Some(ErrorText(e.error));
      }
    }

    /** `dc.onopen`. */
    method ChannelOpened()
      modifies this`isConnected, this`handles
      ensures isConnected
      ensures handles == if old(handles).dc.Some? then old(handles).(dc := Some(Open)) else old(handles)
    {
      isConnected := true;
      if handles.dc.Some? {
        handles := handles.(dc := Some(Open));
      }
    }

    /** `dc.onclose`. */
    method ChannelClosedByPeer()
      modifies this`isConnected, this`handles
      ensures !isConnected
      ensures handles == if old(handles).dc.Some? then old(handles).(dc := Some(Closed)) else old(handles)
    {
      isConnected := false;
      if handles.dc.Some? {
        handles := handles.(dc := Some(Closed));
      }
    }

    /** `sendEvent`: transmits only while the data channel is open. */
    method SendEvent(e: ClientEvent)
      modifies this`sent
      ensures sent == if handles.dc == Some(Open) then old(sent) + [e] else old(sent)
    {
      if handles.dc == Some(Open) {
        sent := sent + [e];
      }
    }

    /** `disconnect`: releases what is present, in order, and nulls every ref. */
    method Disconnect()
      modifies this`handles, this`released, this`isConnected
      ensures released == old(released) + Teardown(old(handles))
      ensures handles == NoHandles && !isConnected
    {
      ghost var h, r0 := handles, released;
      CloseChannel();
      ClosePeer();
      assert released == r0 + ChannelPart(h) + PeerPart(h);
      StopStream();
      DetachAudio();
      assert released == r0 + ChannelPart(h) + PeerPart(h) + TrackPart(h) + AudioPart(h);
      AppendTeardown(r0, h);
      isConnected := false;
    }

    /** The `dcRef` step of `disconnect`. */
    method CloseChannel()
      modifies this`handles, this`released
      ensures released == old(released) + ChannelPart(old(handles))
      ensures handles == old(handles).(dc := None)
    {
      if handles.dc.Some? {
        released := released + [ChannelClosed];
        handles := handles.(dc := None);
      }
    }

    /** The `pcRef` step of `disconnect`. */
    method ClosePeer()
      modifies this`handles, this`released
      ensures released == old(released) + PeerPart(old(handles))
      ensures handles == old(handles).(pc := None)
    {
      if handles.pc.Some? {
        released := released + [PeerClosed];
        handles := handles.(pc := None);
      }
    }

    /** The `streamRef` step of `disconnect`. */
    method StopStream()
      modifies this`handles, this`released
      ensures released == old(released) + TrackPart(old(handles))
      ensures handles == old(handles).(stream := None)
    {
      if handles.stream.Some? {
        StopTracks(handles.stream.value);
        handles := handles.(stream := None);
      }
    }

    /** The `audioRef` step of `disconnect`. */
    method DetachAudio()
      modifies this`handles, this`released
      ensures released == old(released) + AudioPart(old(handles))
      ensures handles == old(handles).(audio := None)
    {
      if handles.audio.Some? {
        released := released + [AudioDetached];
        handles := handles.(audio := None);
      }
    }

    /** `stream.getTracks().forEach(track => track.stop())`. */
    method StopTracks(tracks: seq<TrackId>)
      modifies this`released
      ensures released == old(released) + StopAll(tracks)
    {
      for i := 0 to |tracks|
        invariant released == old(released) + StopAll(tracks[..i])
      {
        assert StopAll(tracks[..i + 1]) == StopAll(tracks[..i]) + [TrackStopped(tracks[i])];
        released := released + [TrackStopped(tracks[i])];
      }
      assert tracks[..|tracks|] == tracks;
    }

    /** Calling `disconnect` twice releases nothing the second time. */
    method DisconnectTwice()
      modifies this`handles, this`released, this`isConnected
      ensures released == old(released) + Teardown(old(handles))
      ensures handles == NoHandles && !isConnected
    {
      ghost var h0, r0 := handles, released;
      Disconnect();
      assert handles == NoHandles;
      assert released == r0 + Teardown(h0);
      ghost var mid := released;
      Disconnect();
      assert handles == NoHandles;
      assert released == mid + [];
    }

    /** `connect`, with the browser steps given by `env`: on the first step that
        throws, the error is shown and `disconnect` runs; otherwise the refs hold
        the new objects and the channel waits for its open event. */
    method Connect(env: ConnectEnv, ids: NewIds)
      modifies this`isLoading, this`error, this`transcript, this`response,
               this`handles, this`released, this`isConnected
      ensures !isLoading && transcript == "" && response == ""
      ensures var (h, failure) := ConnectSteps(env, old(handles), ids);
        && (failure.None? ==> error == None && handles == h && released == old(released)
                              && isConnected == old(isConnected))
        && (failure.Some? ==> error == Some(ThrownMessage(failure.value)) && handles == NoHandles
                              && released == old(released) + Teardown(h) && !isConnected)
    {
      isLoading := true;
      error := None;
      transcript := "";
      response := "";
      var failure: Option<Thrown> := None;
      // STEP 1: the ephemeral token
      match env.tokenReply {
        case Err(t) =>
          failure := Some(t);
        case Ok(token) =>
          if token.None? || token.value == "" {
            failure := Some(ErrorInstance(NoTokenMessage));
          } else {
            // STEPS 2-3: peer connection and audio element
            handles := handles.(pc := Some(ids.pc));
            handles := handles.(audio := Some(ids.audio));
            // STEP 4: microphone
            match env.microphone {
              case Err(t) =>
                failure := Some(t);
              case Ok(tracks) =>
                handles := handles.(stream := Some(tracks));
                // STEP 5: data channel
                handles := handles.(dc := Some(Connecting));
                // STEP 6: offer
                if env.offer.Some? {
                  failure := env.offer;
                } else {
                  // STEP 7: signaling
                  match env.signaling {
                    case Err(t) =>
                      failure := Some(t);
                    case Ok(status) =>
                      if !StatusOk(status) {
                        failure := Some(ErrorInstance("SDP request failed: " + IntToString(status)));
                      } else {
                        // STEP 8: remote description
                        failure := env.answer;
                      }
                  }
                }
            }
          }
      }
      if failure.Some? {
        error := Some(ThrownMessage(failure.value));
        Disconnect();
      }
      isLoading := false;
    }
  }
}
