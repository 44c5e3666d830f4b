/** The backend conversation relay (backend/app/websockets/conversation.py):
    one WebSocket connection is a loop over received JSON messages that
    configures the tutor, relays transcribed audio to the model and ends the
    session. The model, speech synthesis and transcription clients are
    uninterpreted functions that either reply or raise. */
module Relay {
  import opened Base
  import opened ConversationEngine

  /** The `exam` field of a config: an object with an optional
      `conversation_prompt`, or a value of some other Python type (absent
      gives `NoneType`), on which `.get` raises. */
  datatype ExamField = ExamObject(conversationPrompt: Option<string>) | NotADict(pyType: string)

  /** A decoded client message; `kind` and `audio` are `None` when the key
      is absent. */
  datatype ClientMessage = ClientMessage(kind: Option<string>, targetLanguage: Option<string>, exam: ExamField, audio: Option<string>)

  /** What one `receive_json` yields: the client disconnected, a frame whose
      decoding (or whose `data["type"]` lookup on a non-object) raises with the
      given text, or a message. */
  datatype Received = ClientGone | Rejected(reason: string) | Message(msg: ClientMessage)

  /** The messages the server sends. */
  datatype ServerMessage =
    | TutorMessage(text: string, audio: Option<string>)
    | Transcript(text: string)
    | ErrorMessage(message: string)
    | SessionEnded(turns: nat)

  /** The external clients; each returns `Err(str(e))` when it raises.
      `speak` synthesises and base64-encodes; `hear` base64-decodes and
      transcribes for the given language name. */
  datatype Services = Services(
    chat: ChatRequest -> Result<string, string>,
    speak: string -> Result<string, string>,
    hear: (string, string) -> Result<string, string>)

  datatype RelayState = RelayState(
    history: seq<ChatMessage>,
    systemPrompt: Option<string>,
    targetLanguage: string,
    outbox: seq<ServerMessage>,
    finished: bool)

  const DefaultLanguage := "spanish"
  const TestingConnection := "Testing connection"
  const ConfigureFirst := "Please configure the conversation first"

  function Initial(): RelayState {
    RelayState([], None, DefaultLanguage, [], false)
  }

  /** Python truthiness of an optional string. */
  predicate Truthy(s: Option<string>) {
    s.Some? && s.value != ""
  }

  /** `str(KeyError(key))`. */
  function KeyErrorText(key: string): string {
    "'" + key + "'"
  }

  function NoGetText(pyType: string): string {
    "'" + pyType + "' object has no attribute 'get'"
  }

  /** The `except Exception` handler: one error message, and the handler ends. */
  function Raise(s: RelayState, reason: string): RelayState {
    s.(outbox := s.outbox + [ErrorMessage(reason)], finished := true)
  }

  /** The `config` branch, after "Testing connection" has been sent. */
  function Configure(s: RelayState, m: ClientMessage, svc: Services): (r: RelayState)
    ensures |r.outbox| == |s.outbox| + 1 && s.outbox <= r.outbox
    ensures r.targetLanguage == m.targetLanguage.GetOr(DefaultLanguage)
    ensures r.outbox[|s.outbox|].ErrorMessage? ==> r.finished && r.history == s.history
    ensures !r.outbox[|s.outbox|].ErrorMessage? ==>
      && m.exam.ExamObject? && r.systemPrompt == m.exam.conversationPrompt && r.finished == s.finished
      && r.outbox[|s.outbox|].TutorMessage?
      && r.history == s.history + [AssistantMessage(r.outbox[|s.outbox|].text)]
  {
    var s1 := s.(targetLanguage := m.targetLanguage.GetOr(DefaultLanguage));
    match m.exam
    case NotADict(t) => Raise(s1, NoGetText(t))
    case ExamObject(prompt) =>
      var s2 := s1.(systemPrompt := prompt);
      match svc.chat(OpeningRequest(prompt))
      case Err(e) => Raise(s2, e)
      case Ok(opening) =>
        match svc.speak(opening)
        case Err(e) => Raise(s2, e)
        case Ok(audio) =>
          s2.(outbox := s2.outbox + [TutorMessage(opening, Some(audio))],
              history := s2.history + [AssistantMessage(opening)])
  }

  /** The `audio` branch once a prompt is configured. */
  function Exchange(s: RelayState, m: ClientMessage, svc: Services): (r: RelayState)
    requires Truthy(s.systemPrompt)
    ensures s.outbox <= r.outbox && r.systemPrompt == s.systemPrompt && r.targetLanguage == s.targetLanguage
    ensures r.history == s.history ==> r.finished && |r.outbox| > |s.outbox| && r.outbox[|r.outbox| - 1].ErrorMessage?
    ensures r.history != s.history ==>
      && r.finished == s.finished && |r.outbox| == |s.outbox| + 2
      && r.outbox[|s.outbox|].Transcript? && r.outbox[|s.outbox| + 1].TutorMessage?
      && r.history == s.history + [UserMessage(r.outbox[|s.outbox|].text), AssistantMessage(r.outbox[|s.outbox| + 1].text)]
  {
    match m.audio
    case None => Raise(s, KeyErrorText("audio"))
    case Some(a) =>
      match svc.hear(a, s.targetLanguage)
      case Err(e) => Raise(s, e)
      case Ok(transcript) =>
        var s1 := s.(outbox := s.outbox + [Transcript(transcript)]);
        match svc.chat(ResponseRequest(s.systemPrompt, s.history, transcript))
        case Err(e) => Raise(s1, e)
        case Ok(response) =>
          match svc.speak(response)
          case Err(e) => Raise(s1, e)
          case Ok(audio) =>
            s1.(outbox := s1.outbox + [TutorMessage(response, Some(audio))],
                history := s1.history + [UserMessage(transcript), AssistantMessage(response)])
  }

  /** One iteration of the loop. */
  function Step(s: RelayState, r: Received, svc: Services): (t: RelayState)
    ensures s.outbox <= t.outbox && s.history <= t.history
    ensures s.finished ==> t == s
  {
    if s.finished then s
    else match r
      case ClientGone => s.(finished := true)
      case Rejected(reason) => Raise(s, reason)
      case Message(m) =>
        if m.kind.None? then Raise(s, KeyErrorText("type"))
        else if m.kind.value == "config" then
          Configure(s.(outbox := s.outbox + [TutorMessage(TestingConnection, None)]), m, svc)
        else if m.kind.value == "audio" then
          if !Truthy(s.systemPrompt) then s.(outbox := s.outbox + [ErrorMessage(ConfigureFirst)])
          else Exchange(s, m, svc)
        else if m.kind.value == "end_session" then
          s.(outbox := s.outbox + [SessionEnded(|s.history| / 2)], finished := true)
        else s
  }

  /** The connection after the messages `inbox` have arrived, in order. */
  function Run(s: RelayState, inbox: seq<Received>, svc: Services): (t: RelayState)
    ensures s.outbox <= t.outbox && s.history <= t.history
    ensures s.finished ==> t == s
    decreases |inbox|
  {
    if |inbox| == 0 then s else Run(Step(s, inbox[0], svc), inbox[1..], svc)
  }

  function Cfg(tl: Option<string>, exam: ExamField): ClientMessage {
    ClientMessage(Some("config"), tl, exam, None)
  }

  function Audio(a: Option<string>): ClientMessage {
    ClientMessage(Some("audio"), None, NotADict("NoneType"), a)
  }

  // ---------------------------------------------------------------------------
  // One message

  /** Audio before any prompt is configured gets an error; the loop goes on. */
  lemma AudioBeforeConfig(s: RelayState, m: ClientMessage, svc: Services)
    requires !s.finished && m.kind == Some("audio") && !Truthy(s.systemPrompt)
    ensures Step(s, Message(m), svc) == s.(outbox := s.outbox + [ErrorMessage(ConfigureFirst)])
  {
  }

  /** A config whose services reply sends "Testing connection" and then the
      opening, stores the prompt and appends one assistant entry. */
  lemma ConfigSendsTwo(s: RelayState, m: ClientMessage, svc: Services)
    requires !s.finished && m.kind == Some("config") && m.exam.ExamObject?
    requires svc.chat(OpeningRequest(m.exam.conversationPrompt)).Ok?
    requires svc.speak(svc.chat(OpeningRequest(m.exam.conversationPrompt)).value).Ok?
    ensures var opening := svc.chat(OpeningRequest(m.exam.conversationPrompt)).value;
      var t := Step(s, Message(m), svc);
      && t.outbox == s.outbox + [TutorMessage(TestingConnection, None),
                                 TutorMessage(opening, Some(svc.speak(opening).value))]
      && t.history == s.history + [AssistantMessage(opening)]
      && t.systemPrompt == m.exam.conversationPrompt
      && t.targetLanguage == m.targetLanguage.GetOr(DefaultLanguage)
      && !t.finished
  {
  }

  /** A config whose exam is not an object raises after "Testing connection"
      went out; the prompt and the history stay as they were. */
  lemma ConfigWithoutExam(s: RelayState, tl: Option<string>, pyType: string, svc: Services)
    requires !s.finished
    ensures var t := Step(s, Message(Cfg(tl, NotADict(pyType))), svc);
      && t.outbox == s.outbox + [TutorMessage(TestingConnection, None), ErrorMessage(NoGetText(pyType))]
      && t.history == s.history && t.systemPrompt == s.systemPrompt && t.finished
  {
    assert s.outbox + [TutorMessage(TestingConnection, None)] + [ErrorMessage(NoGetText(pyType))]
        == s.outbox + [TutorMessage(TestingConnection, None), ErrorMessage(NoGetText(pyType))];
  }

  /** Audio after config: the transcript goes out before the tutor's reply,
      the model sees the history plus the transcript, and the history gains
      the user entry and then the assistant entry. */
  lemma AudioAfterConfig(s: RelayState, a: string, svc: Services)
    requires !s.finished && Truthy(s.systemPrompt)
    requires svc.hear(a, s.targetLanguage).Ok?
    requires svc.chat(ResponseRequest(s.systemPrompt, s.history, svc.hear(a, s.targetLanguage).value)).Ok?
    requires svc.speak(svc.chat(ResponseRequest(s.systemPrompt, s.history, svc.hear(a, s.targetLanguage).value)).value).Ok?
    ensures var transcript := svc.hear(a, s.targetLanguage).value;
      var response := svc.chat(ResponseRequest(s.systemPrompt, s.history, transcript)).value;
      var t := Step(s, Message(Audio(Some(a))), svc);
      && t.outbox == s.outbox + [Transcript(transcript), TutorMessage(response, Some(svc.speak(response).value))]
      && t.history == s.history + [UserMessage(transcript), AssistantMessage(response)]
      && t.systemPrompt == s.systemPrompt && !t.finished
  {
  }

  /** `end_session` reports half the history length and ends the loop. */
  lemma EndSessionReports(s: RelayState, m: ClientMessage, svc: Services)
    requires !s.finished && m.kind == Some("end_session")
    ensures Step(s, Message(m), svc) == s.(outbox := s.outbox + [SessionEnded(|s.history| / 2)], finished := true)
  {
  }

  /** Other message types are ignored. */
  lemma OtherTypesIgnored(s: RelayState, m: ClientMessage, svc: Services)
    requires m.kind.Some? && m.kind.value != "config" && m.kind.value != "audio" && m.kind.value != "end_session"
    ensures Step(s, Message(m), svc) == s
  {
  }

  /** Every error message other than the configure-first reply ends the
      handler, and nothing more is ever sent. */
  lemma {:induction false} ErrorEndsHandler(s: RelayState, r: Received, svc: Services)
    requires !s.finished
    ensures var t := Step(s, r, svc);
      && s.outbox <= t.outbox
      && ((exists k :: |s.outbox| <= k < |t.outbox| && t.outbox[k].ErrorMessage? && t.outbox[k].message != ConfigureFirst)
          ==> t.finished)
  {
    var t := Step(s, r, svc);
    if r.Message? && r.msg.kind.Some? && r.msg.kind.value == "audio" && Truthy(s.systemPrompt) {
      ExchangeErrors(s, r.msg, svc);
    } else if r.Message? && r.msg.kind.Some? && r.msg.kind.value == "config" {
      ConfigureErrors(s.(outbox := s.outbox + [TutorMessage(TestingConnection, None)]), r.msg, svc);
    }
  }

  /** Sending only appends, and any error it appends ends the handler. */
  predicate ErrorsFinish(s: RelayState, t: RelayState) {
    && s.outbox <= t.outbox
    && ((exists k :: |s.outbox| <= k < |t.outbox| && t.outbox[k].ErrorMessage?) ==> t.finished)
  }

  lemma ConfigureErrors(s: RelayState, m: ClientMessage, svc: Services)
    ensures ErrorsFinish(s, Configure(s, m, svc))
  {
    var t := Configure(s, m, svc);
    if !t.finished {
      assert |t.outbox| == |s.outbox| + 1 && !t.outbox[|s.outbox|].ErrorMessage?;
    }
  }

  lemma ExchangeErrors(s: RelayState, m: ClientMessage, svc: Services)
    requires Truthy(s.systemPrompt)
    ensures ErrorsFinish(s, Exchange(s, m, svc))
  {
    var t := Exchange(s, m, svc);
    if !t.finished {
      assert |t.outbox| == |s.outbox| + 2;
      assert !t.outbox[|s.outbox|].ErrorMessage? && !t.outbox[|s.outbox| + 1].ErrorMessage?;
    }
  }

  // ---------------------------------------------------------------------------
  // The whole connection

  /** Once the handler has ended, later arrivals change nothing. */
  lemma {:induction false} FinishedIsFinal(s: RelayState, inbox: seq<Received>, svc: Services)
    requires s.finished
    ensures Run(s, inbox, svc) == s
    decreases |inbox|
  {
    if |inbox| > 0 {
      FinishedIsFinal(Step(s, inbox[0], svc), inbox[1..], svc);
    }
  }

  /** Every entry is a user or an assistant entry, and every user entry is
      directly followed by an assistant entry. */
  predicate Paired(h: seq<ChatMessage>) {
    && (forall k :: 0 <= k < |h| ==> h[k].role == "user" || h[k].role == "assistant")
    && (forall k :: 0 <= k < |h| && h[k].role == "user" ==> k + 1 < |h| && h[k + 1].role == "assistant")
  }

  lemma StepKeepsPaired(s: RelayState, r: Received, svc: Services)
    requires Paired(s.history)
    ensures Paired(Step(s, r, svc).history)
    ensures s.history <= Step(s, r, svc).history
  {
    var t := Step(s, r, svc);
    if t.history != s.history {
      if |t.history| == |s.history| + 1 {
        assert t.history == s.history + [t.history[|s.history|]];
      } else {
        assert t.history == s.history + [t.history[|s.history|], t.history[|s.history| + 1]];
      }
    }
  }

  /** Over any run, the history only grows at the end and stays paired. */
  lemma {:induction false} RunKeepsPaired(s: RelayState, inbox: seq<Received>, svc: Services)
    requires Paired(s.history)
    ensures Paired(Run(s, inbox, svc).history)
    ensures s.history <= Run(s, inbox, svc).history
    decreases |inbox|
  {
    if |inbox| > 0 {
      StepKeepsPaired(s, inbox[0], svc);
      RunKeepsPaired(Step(s, inbox[0], svc), inbox[1..], svc);
    }
  }

  /** The number of user entries: one per completed exchange. */
  function Users(h: seq<ChatMessage>): nat
    decreases |h|
  {
    if |h| == 0 then 0 else (if h[0].role == "user" then 1 else 0) + Users(h[1..])
  }

  /** The number of assistant entries: one per opening and one per exchange. */
  function Assistants(h: seq<ChatMessage>): nat
    decreases |h|
  {
    if |h| == 0 then 0 else (if h[0].role == "assistant" then 1 else 0) + Assistants(h[1..])
  }

  /** A paired history holds at least as many assistant entries as user
      entries, and nothing else. */
  lemma {:induction false} PairedCounts(h: seq<ChatMessage>)
    requires Paired(h)
    ensures |h| == Users(h) + Assistants(h)
    ensures Users(h) <= Assistants(h)
    decreases |h|
  {
    if |h| > 0 {
      if h[0].role == "user" {
        var t := h[2..];
        assert h[1..][1..] == t;
        forall k | 0 <= k < |t| && t[k].role == "user" ensures k + 1 < |t| && t[k + 1].role == "assistant" {
          assert t[k] == h[k + 2];
        }
        PairedCounts(t);
      } else {
        var t := h[1..];
        forall k | 0 <= k < |t| && t[k].role == "user" ensures k + 1 < |t| && t[k + 1].role == "assistant" {
          assert t[k] == h[k + 1];
        }
        PairedCounts(t);
      }
    }
  }

  /** Over any connection, the history holds only user and assistant entries,
      an assistant entry for each user entry, and the rest are openings; with
      a single opening, the `turns` that `end_session` reports is exactly the
      number of completed exchanges. */
  lemma TurnsCountExchanges(inbox: seq<Received>, svc: Services)
    ensures var h := Run(Initial(), inbox, svc).history;
      && |h| == Users(h) + Assistants(h) && Users(h) <= Assistants(h)
      && (Assistants(h) == Users(h) + 1 ==> |h| / 2 == Users(h))
  {
    RunKeepsPaired(Initial(), inbox, svc);
    PairedCounts(Run(Initial(), inbox, svc).history);
  }

  /** The connection handler: the `while True` loop over arrivals. */
  method HandleConnection(inbox: seq<Received>, svc: Services) returns (sent: seq<ServerMessage>, ended: bool)
    ensures sent == Run(Initial(), inbox, svc).outbox
    ensures ended == Run(Initial(), inbox, svc).finished
  {
    var history: seq<ChatMessage> := [];
    var systemPrompt: Option<string> := None;
    var targetLanguage := DefaultLanguage;
    sent, ended := [], false;
    var i := 0;
    while i < |inbox| && !ended
      invariant 0 <= i <= |inbox|
      invariant Run(Initial(), inbox, svc)
        == Run(RelayState(history, systemPrompt, targetLanguage, sent, ended), inbox[i..], svc)
    {
      var s := RelayState(history, systemPrompt, targetLanguage, sent, ended);
      assert Run(s, inbox[i..], svc) == Run(Step(s, inbox[i], svc), inbox[i + 1..], svc) by {
        assert inbox[i..][0] == inbox[i] && inbox[i..][1..] == inbox[i + 1..];
      }
      var t := StepOnce(s, inbox[i], svc);
      history, systemPrompt, targetLanguage, sent, ended := t.history, t.systemPrompt, t.targetLanguage, t.outbox, t.finished;
      i := i + 1;
    }
    if ended {
      FinishedIsFinal(RelayState(history, systemPrompt, targetLanguage, sent, ended), inbox[i..], svc);
    } else {
      assert inbox[i..] == [];
    }
  }

  /** One pass of the loop body as the handler runs it, statement by
      statement and branch by branch; `Step` is the specification that the
      lemmas above are stated over, and `HandleConnection` calls this. */
  method StepOnce(s: RelayState, r: Received, svc: Services) returns (t: RelayState)
    requires !s.finished
    ensures t == Step(s, r, svc)
  {
    match r {
      case ClientGone =>
        t := s.(finished := true);
      case Rejected(reason) =>
        t := Raise(s, reason);
      case Message(m) =>
        if m.kind.None? {
          t := Raise(s, KeyErrorText("type"));
        } else if m.kind.value == "config" {
          t := s.(outbox := s.outbox + [TutorMessage(TestingConnection, None)]);
          t := Configure(t, m, svc);
        } else if m.kind.value == "audio" {
          if !Truthy(s.systemPrompt) {
            t := s.(outbox := s.outbox + [ErrorMessage(ConfigureFirst)]);
          } else {
            t := Exchange(s, m, svc);
          }
        } else if m.kind.value == "end_session" {
          t := s.(outbox := s.outbox + [SessionEnded(|s.history| / 2)], finished := true);
        } else {
          t := s;
        }
    }
  }
}
