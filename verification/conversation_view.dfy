/** The student's conversation interface
    (frontend/src/components/dashboard/student-dashboard/ConversationInterface.tsx):
    it folds each batch of raw relay messages into the message list, gates the
    push-to-talk button on the tutor's audio, and ends the session. */
module ConversationView {
  import opened Base
  import opened Strings

  /** A turn in a `session_resumed` message; `new Date(turn.timestamp)` is
      taken to be already parsed. */
  datatype Turn = Turn(speaker: string, transcript: Option<string>, timestamp: Time)

  /** The `turns` field: absent or falsy, an array, or some other truthy value
      (on which `.map` throws). */
  datatype TurnsField = NoTurns | TurnArray(turns: seq<Turn>) | NotAnArray

  /** A raw message after `JSON.parse`: text that is not JSON, or `null`, on
      which reading `.type` throws, is `Unparsable`. */
  datatype Incoming =
    | Unparsable
    | Parsed(kind: Option<string>, text: Option<string>, audio: Option<string>, turns: TurnsField)

  datatype Message = Message(speaker: string, text: Option<string>, timestamp: Time)

  /** Calls the component makes to its props and hooks, in order. */
  datatype Outcall =
    | PlayAudio(audio: Option<string>)
    | ClearMessages
    | StartRecording
    | StopRecording
    | EndSessionCalled
    | NavigateTo(path: string)
    | SendAudio(audio: Option<string>)

  datatype ViewState = ViewState(messages: seq<Message>, tutorSpeaking: bool, wasResumed: bool, log: seq<Outcall>)

  function Restore(turns: seq<Turn>): (ms: seq<Message>)
    ensures |ms| == |turns|
    ensures forall k :: 0 <= k < |turns| ==>
      ms[k] == Message(turns[k].speaker, turns[k].transcript, turns[k].timestamp)
  {
    seq(|turns|, k requires 0 <= k < |turns| => Message(turns[k].speaker, turns[k].transcript, turns[k].timestamp))
  }

  /** One message of a batch, processed at time `now`. */
  function Receive(s: ViewState, m: Incoming, now: Time): (r: ViewState)
    ensures s.log <= r.log && |r.log| <= |s.log| + 1
    ensures s.tutorSpeaking ==> r.tutorSpeaking
    ensures s.wasResumed ==> r.wasResumed
    ensures !IsResume(m) ==> s.messages <= r.messages && |r.messages| <= |s.messages| + 1
    ensures IsResume(m) ==> |r.messages| == |m.turns.turns| && r.wasResumed
  {
    match m
    case Unparsable => s
    case Parsed(kind, text, audio, turns) =>
      if kind == Some("tutor_message") then
        s.(messages := s.messages + [Message("tutor", text, now)], tutorSpeaking := true,
           log := s.log + [PlayAudio(audio)])
      else if kind == Some("transcript") then
        s.(messages := s.messages + [Message("student", text, now)])
      else if kind == Some("session_resumed") then
        match turns
        case NoTurns => s.(wasResumed := true)
        case TurnArray(ts) => s.(messages := Restore(ts), wasResumed := true)
        case NotAnArray => s
      else s
  }

  function ReceiveAll(s: ViewState, batch: seq<Incoming>, now: Time): (r: ViewState)
    ensures s.log <= r.log
    decreases |batch|
  {
    if |batch| == 0 then s else ReceiveAll(Receive(s, batch[0], now), batch[1..], now)
  }

  /** The message effect: a non-empty batch is processed in order and then
      cleared; an empty batch does nothing. */
  function OnBatch(s: ViewState, batch: seq<Incoming>, now: Time): (r: ViewState)
    ensures |batch| == 0 ==> r == s
    ensures |batch| > 0 ==> s.log < r.log && r.log[|r.log| - 1] == ClearMessages
  {
    if |batch| == 0 then s
    else
      var t := ReceiveAll(s, batch, now);
      t.(log := t.log + [ClearMessages])
  }

  predicate IsResume(m: Incoming) {
    m.Parsed? && m.kind == Some("session_resumed") && m.turns.TurnArray?
  }

  /** The messages a batch without a resume appends: one per `tutor_message`
      or `transcript`, in arrival order. */
  function Appended(batch: seq<Incoming>, now: Time): seq<Message>
    decreases |batch|
  {
    if |batch| == 0 then []
    else
      var m := batch[0];
      var head :=
        if m.Parsed? && m.kind == Some("tutor_message") then [Message("tutor", m.text, now)]
        else if m.Parsed? && m.kind == Some("transcript") then [Message("student", m.text, now)]
        else [];
      head + Appended(batch[1..], now)
  }

  // ---------------------------------------------------------------------------
  // Properties of one message

  lemma TutorMessageAppends(s: ViewState, text: Option<string>, audio: Option<string>, turns: TurnsField, now: Time)
    ensures var t := Receive(s, Parsed(Some("tutor_message"), text, audio, turns), now);
      t.messages == s.messages + [Message("tutor", text, now)] && t.tutorSpeaking
      && t.wasResumed == s.wasResumed && t.log == s.log + [PlayAudio(audio)]
  {
  }

  lemma TranscriptAppends(s: ViewState, text: Option<string>, audio: Option<string>, turns: TurnsField, now: Time)
    ensures Receive(s, Parsed(Some("transcript"), text, audio, turns), now)
      == s.(messages := s.messages + [Message("student", text, now)])
  {
  }

  /** A resume replaces the whole list by the turns, one message per turn in
      the same order, and raises the banner. */
  lemma ResumeReplaces(s: ViewState, text: Option<string>, audio: Option<string>, ts: seq<Turn>, now: Time)
    ensures var t := Receive(s, Parsed(Some("session_resumed"), text, audio, TurnArray(ts)), now);
      && |t.messages| == |ts|
      && (forall k :: 0 <= k < |ts| ==> t.messages[k].speaker == ts[k].speaker && t.messages[k].text == ts[k].transcript)
      && t.wasResumed && t.tutorSpeaking == s.tutorSpeaking && t.log == s.log
  {
  }

  /** Messages of any other type, and unparsable ones, change nothing. */
  lemma QuietMessages(s: ViewState, m: Incoming, now: Time)
    requires m.Unparsable? || (m.kind != Some("tutor_message") && m.kind != Some("transcript") && m.kind != Some("session_resumed"))
    ensures Receive(s, m, now) == s
  {
  }

  // ---------------------------------------------------------------------------
  // Properties of a batch

  lemma {:induction false} ReceiveAllAppend(s: ViewState, a: seq<Incoming>, b: seq<Incoming>, now: Time)
    ensures ReceiveAll(s, a + b, now) == ReceiveAll(ReceiveAll(s, a, now), b, now)
    decreases |a|
  {
    if |a| > 0 {
      assert (a + b)[0] == a[0] && (a + b)[1..] == a[1..] + b;
      assert ReceiveAll(s, a + b, now) == ReceiveAll(Receive(s, a[0], now), a[1..] + b, now);
      ReceiveAllAppend(Receive(s, a[0], now), a[1..], b, now);
    } else {
      assert a + b == b;
    }
  }

  /** An unparsable message is skipped and the rest of the batch still runs. */
  lemma UnparsableSkipped(s: ViewState, a: seq<Incoming>, b: seq<Incoming>, now: Time)
    ensures ReceiveAll(s, a + [Unparsable] + b, now) == ReceiveAll(s, a + b, now)
  {
    ReceiveAllAppend(s, a + [Unparsable], b, now);
    ReceiveAllAppend(s, a, [Unparsable], now);
    ReceiveAllAppend(s, a, b, now);
  }

  /** Without a resume, the old list stays a prefix and the batch's tutor and
      student messages follow it in arrival order. */
  lemma {:induction false} BatchWithoutResume(s: ViewState, batch: seq<Incoming>, now: Time)
    requires forall k :: 0 <= k < |batch| ==> !IsResume(batch[k])
    ensures ReceiveAll(s, batch, now).messages == s.messages + Appended(batch, now)
    decreases |batch|
  {
    if |batch| > 0 {
      var s1 := Receive(s, batch[0], now);
      assert !IsResume(batch[0]);
      BatchWithoutResume(s1, batch[1..], now);
      assert Appended(batch, now) == s1.messages[|s.messages|..] + Appended(batch[1..], now);
      assert s1.messages == s.messages + s1.messages[|s.messages|..];
    }
  }

  /** After the last resume in a batch, the list is that resume's turns
      followed by what the rest of the batch appends. */
  lemma LastResumeWins(s: ViewState, a: seq<Incoming>, r: Incoming, b: seq<Incoming>, now: Time)
    requires IsResume(r)
    requires forall k :: 0 <= k < |b| ==> !IsResume(b[k])
    ensures ReceiveAll(s, a + [r] + b, now).messages == Restore(r.turns.turns) + Appended(b, now)
  {
    ReceiveAllAppend(s, a + [r], b, now);
    ReceiveAllAppend(s, a, [r], now);
    var mid := ReceiveAll(s, a + [r], now);
    assert mid.messages == Restore(r.turns.turns);
    BatchWithoutResume(mid, b, now);
  }

  lemma EmptyBatchNothing(s: ViewState, now: Time)
    ensures OnBatch(s, [], now) == s
  {
  }

  /** Every processed non-empty batch ends with exactly one `clearMessages` call. */
  lemma BatchCleared(s: ViewState, batch: seq<Incoming>, now: Time)
    requires |batch| > 0
    ensures var t := OnBatch(s, batch, now);
      |t.log| > 0 && t.log[|t.log| - 1] == ClearMessages
  {
  }

  // ---------------------------------------------------------------------------
  // The recorded-audio payload

  /** `reader.result.split(",")[1]`: the text between the first and second
      comma of the data URL, or `undefined` when there is no comma. */
  function RecordedAudioField(dataUrl: string): Option<string> {
    var parts := Split(dataUrl, ',');
    if |parts| > 1 then Some(parts[1]) else None
  }

  /** For a `data:<type>;base64,<body>` URL the field is the base64 body. */
  lemma RecordedAudioBody(header: string, body: string)
    requires ',' !in header && ',' !in body
    ensures RecordedAudioField(header + "," + body) == Some(body)
    ensures RecordedAudioField(header) == None
  {
    SplitAfter(header, ',', body);
    SplitWithout(body, ',');
    SplitWithout(header, ',');
  }

  /** The push-to-talk gate. */
  predicate CanRecord(tutorSpeaking: bool, isPlaying: bool) {
    !tutorSpeaking && !isPlaying
  }

  /** The component instance. */
  class ConversationInterface {
    var messages: seq<Message>
    var isTutorSpeaking: bool
    var wasResumed: bool
    var log: seq<Outcall>

    function State(): ViewState
      reads this
    {
      ViewState(messages, isTutorSpeaking, wasResumed, log)
    }

    constructor ()
      ensures State() == ViewState([], false, false, [])
    {
      messages, isTutorSpeaking, wasResumed, log := [], false, false, [];
    }

    /** The message effect over the batch `wsMessages`. */
    method ProcessBatch(wsMessages: seq<Incoming>, now: Time)
      modifies this
      ensures State() == OnBatch(old(State()), wsMessages, now)
    {
      if |wsMessages| == 0 {
        return;
      }
      for i := 0 to |wsMessages|
        invariant State() == ReceiveAll(old(State()), wsMessages[..i], now)
      {
        ReceiveAllAppend(old(State()), wsMessages[..i], [wsMessages[i]], now);
        assert wsMessages[..i + 1] == wsMessages[..i] + [wsMessages[i]];
        ReceiveOne(wsMessages[i], now);
      }
      assert wsMessages[..|wsMessages|] == wsMessages;
      log := log + [ClearMessages];
    }

    /** One iteration of the `forEach` body. */
    method ReceiveOne(m: Incoming, now: Time)
      modifies this
      ensures State() == Receive(old(State()), m, now)
    {
      match m {
        case Unparsable =>
        case Parsed(kind, text, audio, turns) =>
          if kind == Some("tutor_message") {
            messages := messages + [Message("tutor", text, now)];
            isTutorSpeaking := true;
            log := log + [PlayAudio(audio)];
          } else if kind == Some("transcript") {
            messages := messages + [Message("student", text, now)];
          } else if kind == Some("session_resumed") {
            match turns {
              case NoTurns =>
                wasResumed := true;
              case TurnArray(ts) =>
                messages := Restore(ts);
                wasResumed := true;
              case NotAnArray =>
            }
          }
      }
    }

    /** The `finally` of `playAudio`. */
    method AudioFinished()
      modifies this`isTutorSpeaking
      ensures !isTutorSpeaking
    {
      isTutorSpeaking := false;
    }

    /** The banner timer. */
    method BannerExpired()
      modifies this`wasResumed
      ensures !wasResumed
    {
      wasResumed := false;
    }

    /** The recorded-audio effect, once the reader has the data URL. */
    method AudioRecorded(dataUrl: string)
      modifies this`log
      ensures log == old(log) + [SendAudio(RecordedAudioField(dataUrl))]
    {
      log := log + [SendAudio(RecordedAudioField(dataUrl))];
    }

    method MouseDown(isPlaying: bool)
      modifies this`log
      ensures CanRecord(isTutorSpeaking, isPlaying) ==> log == old(log) + [StartRecording]
      ensures !CanRecord(isTutorSpeaking, isPlaying) ==> log == old(log)
    {
      if !isTutorSpeaking && !isPlaying {
        log := log + [StartRecording];
      }
    }

    method MouseUp()
      modifies this`log
      ensures log == old(log) + [StopRecording]
    {
      log := log + [StopRecording];
    }

    /** `handleEndSession`: the parent's callback first, then the list is
        emptied and the dashboard opens. */
    method EndSession()
      modifies this`log, this`messages
      ensures log == old(log) + [EndSessionCalled, NavigateTo("/dashboard")]
      ensures messages == []
    {
      log := log + [EndSessionCalled];
      messages := [];
      log := log + [NavigateTo("/dashboard")];
    }
  }
}
