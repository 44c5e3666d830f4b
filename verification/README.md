# Gato-Lingo conversation core in Dafny

Gato-Lingo is a language-practice application. A student holds a spoken
conversation with an AI tutor, either over a relay WebSocket to the
backend or over a realtime voice channel to a speech provider. Teachers
create exams, assign them to their students and follow the results on a
dashboard. This project models the deterministic core of that system and
proves properties of the model:

- **Frontend state machines**
  - the realtime event handler and teardown of `useRealtimeAPI`;
  - the status machine and OPEN-guarded send of `useWebSocket`;
  - the config send/replay controller, navigation blocker, unload guard and
    render precedence of the conversation page;
  - the message-batch reducer and push-to-talk gate of the conversation
    interface.
- **Frontend helpers**
  - vocabulary parsing, region normalisation and tense toggling in the
    config panel;
  - the student search filter;
  - `getErrorMessage`.
- **Backend**
  - the relay loop of the conversation WebSocket;
  - the tutor's system prompt and the chat requests built around it;
  - the session status transitions;
  - exam creation, ownership, assignment and dashboard counts;
  - the vocabulary CSV preview;
  - the authentication dependencies;
  - user CRUD;
  - the language-code lookup of speech-to-text;
  - the sign-up and reset-password validators.

## Module layout

Each modelled source file has its own module, and its file name follows
the source file's name. Two small modules are shared:

- `Base` holds `Option`, `Result`, identifiers, opaque times and HTTP errors.
- `Strings` holds ASCII trimming and lower-casing, `split`/`join` with
  their round trips, substring search and decimal rendering.

Where the source changes state step by step, the model has a class with
the same fields, and its methods are proved against a pure function of the
old state. The classes are `RealtimeSession`, `WebSocketHookInstance`,
`ConversationInterfacePage`, `ConversationInterface`, `SessionTable`,
`ExamController`, `UserTable` and `SearchBox`. The relay loop and the
vocabulary loop are methods with loops. The lemmas about the pure
functions carry the properties.

External services are parameters:

- the LLM, TTS and STT clients;
- token decoding, password hashing and UUID parsing;
- each awaited WebRTC step of `connect`;
- the current time.

Database tables are maps, and fresh ids come from a counter.

## Where the model follows the code and not the design

- `useWebSocket` returns only `sendMessage`, `lastMessage` and
  `connectionStatus`. The page reads `messages` and `clearMessages` from it
  anyway. The batch reducer is modelled against the props the interface
  declares.
- The relay sends "Testing connection" before it reads the exam. A config
  without an exam therefore produces that message and then an error.
- The page's config payload has no top-level `targetLanguage`. The relay's
  target language therefore stays `"spanish"`.
- `create_exam` reads `vocabulary_list_manual` and iterates `tenses`. The
  declared `ExamCreate` has no such field, and its `tenses` is a string.
  The model follows the controller:
  - a body without the list fails (`Exams.CreateExam`);
  - the tense line spells the string out character by character
    (`Exams.TensesSpelledOut`).
- In `get_current_user`, a badly formed UUID raises `ValueError`, which is
  not an `HTTPException`. The optional variant therefore lets it through
  (`Auth.OptionalMatchesStrict`).
- The socket hook never reopens a socket. The page's "config is sent again
  after a reconnect" therefore needs the browser to deliver a new `open`,
  which only happens after a url change (`WebSocketHook.NoReconnect`,
  `ConversationPage.ResendAfterReconnect`).
- The controllers use columns that the table declarations in `models/` do
  not have:
  - `users.password_changed_at` and `users.teacher_id`;
  - the session's `status`, `exam_id` and `due_date`.

  The model follows the controllers.
- The session routes are declared as `"/${session_id}/start"` and
  `"/${session_id}/complete"`, with a literal `$`. Route matching is not
  modelled.
- Sessions get `started_at` when they are created by `assign_exam`, not
  when they are started.
- `create_user` passes `proficiency_level=None` through when the body
  leaves it null. On insert, SQLAlchemy leaves a `None` attribute out of the
  statement, so the column default "beginner" is stored (`Users.CreateCases`).

## Model

| member | source | states |
|---|---|---|
| RealtimeApi.ErrorText | frontend/src/hooks/useRealtimeAPI.ts:259 | the error text is never empty, and is the event's own message when it has a non-empty one |
| RealtimeApi.HandleEvent | frontend/src/hooks/useRealtimeAPI.ts:202-266 | one event keeps the old history as a prefix and appends at most one turn, which has non-empty text and the arrival time; only an error event changes `error`, and then to some message |
| RealtimeApi.TranscriptionCompleted | frontend/src/hooks/useRealtimeAPI.ts:206-218 | a completed transcription with text appends exactly one student turn with that text and time; without text it appends nothing; `transcript` is set either way |
| RealtimeApi.DeltaAccumulates | frontend/src/hooks/useRealtimeAPI.ts:221-224 | a delta appends its text (or '') to the accumulator, and `response` equals the new accumulator |
| RealtimeApi.DoneFlushes | frontend/src/hooks/useRealtimeAPI.ts:227-238 | both "done" events append one tutor turn exactly when the accumulator is non-empty, and always empty it |
| RealtimeApi.DoneTwiceAddsNothing | frontend/src/hooks/useRealtimeAPI.ts:227-238 | a second "done" straight after the first changes nothing |
| RealtimeApi.QuietEvents | frontend/src/hooks/useRealtimeAPI.ts:240-264 | `speech_started` only clears `transcript`; `speech_stopped`, `session.created` and unknown types change no state |
| RealtimeApi.ErrorEvent | frontend/src/hooks/useRealtimeAPI.ts:257-260 | an error event sets only `error`, to its message or "Unknown error" |
| RealtimeApi.AppendOnlyStep | frontend/src/hooks/useRealtimeAPI.ts:212-235 | one event leaves the history as it was or appends one turn at its end |
| RealtimeApi.AppendOnly | frontend/src/hooks/useRealtimeAPI.ts:212-235 | over any event stream the old history stays a prefix, and the history grows by at most one turn per event |
| RealtimeApi.DeltaRun | frontend/src/hooks/useRealtimeAPI.ts:221-224 | a run of deltas appends all their texts to the accumulator in arrival order |
| RealtimeApi.TutorResponse | frontend/src/hooks/useRealtimeAPI.ts:221-238 | deltas then one "done", from an empty accumulator, append one tutor turn holding the deltas' concatenation (when it is non-empty) and leave the accumulator empty |
| RealtimeApi.StopAll | frontend/src/hooks/useRealtimeAPI.ts:180 | every track is stopped once, in order |
| RealtimeApi.Teardown | frontend/src/hooks/useRealtimeAPI.ts:166-191 | one release per present handle and one per track of the stream; with no handles it releases nothing |
| RealtimeApi.TeardownOnlyPresent | frontend/src/hooks/useRealtimeAPI.ts:166-191 | teardown closes the channel, closes the peer, detaches the audio and stops a track exactly when that handle is present |
| RealtimeApi.TeardownOrdered | frontend/src/hooks/useRealtimeAPI.ts:169-187 | the releases come in the order: data channel, peer connection, tracks, audio |
| RealtimeApi.TeardownOfNothing | frontend/src/hooks/useRealtimeAPI.ts:166-191 | with every ref null, teardown releases nothing |
| RealtimeApi.NoTokenAcquiresNothing | frontend/src/hooks/useRealtimeAPI.ts:59-64 | a missing or failed token acquires no handle and throws "No token in response" when the reply came back |
| RealtimeApi.MicrophoneRefused | frontend/src/hooks/useRealtimeAPI.ts:91-92 | a refused microphone fails with its own error, and teardown then releases exactly the peer connection and the audio element |
| RealtimeApi.SignalingRejected | frontend/src/hooks/useRealtimeAPI.ts:144-146 | a non-ok SDP status fails with "SDP request failed: <status>" and tears down everything acquired |
| RealtimeApi.RealtimeSession.constructor | frontend/src/hooks/useRealtimeAPI.ts:26-41 | the hook starts disconnected, not loading, with empty texts, an empty history, no error and null refs |
| RealtimeApi.RealtimeSession.HandleServerEvent | frontend/src/hooks/useRealtimeAPI.ts:202-266 | the event state becomes `HandleEvent` of the old state |
| RealtimeApi.RealtimeSession.ChannelOpened | frontend/src/hooks/useRealtimeAPI.ts:106-109 | the channel's open sets `isConnected` and marks the channel open |
| RealtimeApi.RealtimeSession.ChannelClosedByPeer | frontend/src/hooks/useRealtimeAPI.ts:111-114 | the channel's close clears `isConnected` and marks the channel closed |
| RealtimeApi.RealtimeSession.SendEvent | frontend/src/hooks/useRealtimeAPI.ts:193-200 | an event is transmitted exactly when the channel is open, else nothing is sent |
| RealtimeApi.RealtimeSession.Disconnect | frontend/src/hooks/useRealtimeAPI.ts:166-191 | releases exactly the teardown of the old refs, then every ref is null and the hook is disconnected |
| RealtimeApi.RealtimeSession.CloseChannel | frontend/src/hooks/useRealtimeAPI.ts:169-172 | closes the data channel only when it is present, and nulls its ref |
| RealtimeApi.RealtimeSession.ClosePeer | frontend/src/hooks/useRealtimeAPI.ts:174-177 | closes the peer connection only when it is present, and nulls its ref |
| RealtimeApi.RealtimeSession.StopStream | frontend/src/hooks/useRealtimeAPI.ts:179-182 | stops every track of the stream only when it is present, and nulls its ref |
| RealtimeApi.RealtimeSession.DetachAudio | frontend/src/hooks/useRealtimeAPI.ts:184-187 | detaches the audio element only when it is present, and nulls its ref |
| RealtimeApi.RealtimeSession.StopTracks | frontend/src/hooks/useRealtimeAPI.ts:180 | the forEach over the tracks releases `StopAll` of them |
| RealtimeApi.RealtimeSession.DisconnectTwice | frontend/src/hooks/useRealtimeAPI.ts:166-191 | two disconnects release no more than one does |
| RealtimeApi.RealtimeSession.Connect | frontend/src/hooks/useRealtimeAPI.ts:48-164 | on the first failing step, `error` is the thrown message and disconnect releases what was acquired; otherwise the refs hold the new objects and nothing is released; loading ends and the texts are cleared either way |
| WebSocketHook.Mount | frontend/src/hooks/useWebSocket.ts:10-16 | the first render creates exactly one socket, with status 'connecting' and no message |
| WebSocketHook.OnEvent | frontend/src/hooks/useWebSocket.ts:18-32 | a socket event changes only that socket's ready state, and never the url or what was sent; a message only sets the last message; open sets status connected and the socket OPEN; close and error set status disconnected and the socket CLOSED, whichever socket it was |
| WebSocketHook.ChangeUrl | frontend/src/hooks/useWebSocket.ts:14-37 | the same url changes nothing; a new url closes the current socket (CLOSING unless already CLOSED), appends one connecting socket for the new url, and leaves status, last message, sent messages and older sockets as they were |
| WebSocketHook.SendMessage | frontend/src/hooks/useWebSocket.ts:39-43 | a message is added to what was sent exactly when the current socket is OPEN, and then as one message addressed to the current socket; sockets and status are unchanged |
| WebSocketHook.StatusTransitions | frontend/src/hooks/useWebSocket.ts:18-32 | open gives 'connected'; close and error give 'disconnected'; a message only replaces `lastMessage` |
| WebSocketHook.SendGuard | frontend/src/hooks/useWebSocket.ts:39-43 | a send goes to the current socket exactly when that socket is OPEN, and is dropped otherwise |
| WebSocketHook.SocketsOnlyForNewUrls | frontend/src/hooks/useWebSocket.ts:14-37 | new sockets appear only on url changes, one per change, and earlier sockets keep their urls |
| WebSocketHook.NoReconnect | frontend/src/hooks/useWebSocket.ts:14-37 | without a url change, a current socket that has closed is never replaced and the status never returns to 'connected' |
| WebSocketHook.NoReconnectStep | frontend/src/hooks/useWebSocket.ts:14-37 | one step of the same, for a single action |
| WebSocketHook.StaleCloseStillCounts | frontend/src/hooks/useWebSocket.ts:26-36 | after a url change, the old socket's close still sets 'disconnected', because its callbacks stay attached |
| WebSocketHook.WebSocketHookInstance.constructor | frontend/src/hooks/useWebSocket.ts:10-16 | the instance starts in `Mount(url)` |
| WebSocketHook.WebSocketHookInstance.OnOpen | frontend/src/hooks/useWebSocket.ts:18-20 | the state becomes the open transition of the old state |
| WebSocketHook.WebSocketHookInstance.OnMessage | frontend/src/hooks/useWebSocket.ts:22-24 | the state becomes the message transition of the old state |
| WebSocketHook.WebSocketHookInstance.OnClose | frontend/src/hooks/useWebSocket.ts:26-28 | the state becomes the close transition of the old state |
| WebSocketHook.WebSocketHookInstance.OnError | frontend/src/hooks/useWebSocket.ts:30-32 | the state becomes the error transition of the old state |
| WebSocketHook.WebSocketHookInstance.Rerender | frontend/src/hooks/useWebSocket.ts:14-37 | a render closes the current socket and opens a new one only when the url differs |
| WebSocketHook.WebSocketHookInstance.Send | frontend/src/hooks/useWebSocket.ts:39-43 | the state becomes the guarded send of the old state |
| ConversationPage.ConfigPayload | frontend/src/pages/ConversationInterfacePage.tsx:57 | the payload has `type` "config" and every field of the exam data, and no other key |
| ConversationPage.Commit | frontend/src/pages/ConversationInterfacePage.tsx:54-85 | one commit sends at most one message, the config payload of the loaded exam data; it leaves data and status alone, the unload guard ends up equal to the flag, and the flag is clear when disconnected |
| ConversationPage.OnStatus | frontend/src/pages/ConversationInterfacePage.tsx:54-85 | a status change sets the status; disconnected clears the flag and sends nothing; connecting sends nothing and keeps the flag; the unload guard follows the flag |
| ConversationPage.Render | frontend/src/pages/ConversationInterfacePage.tsx:105-110 | loading shows the spinner; an error view carries the non-empty error; the interface shows only when not loading, not connecting and with exam data |
| ConversationPage.ConfigSentWhenReady | frontend/src/pages/ConversationInterfacePage.tsx:55-60 | a commit sends `config` exactly when the data is loaded, the status is 'connected' and the flag is clear, and sending sets the flag |
| ConversationPage.CommitIdempotent | frontend/src/pages/ConversationInterfacePage.tsx:56-59 | re-running the effects sends nothing more and changes nothing |
| ConversationPage.UnloadGuardFollowsFlag | frontend/src/pages/ConversationInterfacePage.tsx:70-85 | after a commit the unload listener is registered exactly when the flag is set |
| ConversationPage.OneConfigPerConnection | frontend/src/pages/ConversationInterfacePage.tsx:55-60 | while the status stays 'connected', at most one `config` is ever sent |
| ConversationPage.ResendAfterReconnect | frontend/src/pages/ConversationInterfacePage.tsx:54-67 | connected, disconnected, connected sends exactly two `config` payloads |
| ConversationPage.ConnectedThenLoaded | frontend/src/pages/ConversationInterfacePage.tsx:38-60 | when the socket connects before the exam data arrives, the status change sends nothing and the load sends exactly one `config` and raises the flag and the unload guard |
| ConversationPage.LoadOrderIrrelevant | frontend/src/pages/ConversationInterfacePage.tsx:38-60 | loading then connecting reaches the same state as connecting then loading |
| ConversationPage.ConversationInterfacePage.RunEffects | frontend/src/pages/ConversationInterfacePage.tsx:54-85 | the flag, the listener and the outbox become `Commit` of the old state |
| ConversationPage.OnlyConfigPayloads | frontend/src/pages/ConversationInterfacePage.tsx:55-60 | the effects send nothing but `config` payloads of the loaded data |
| ConversationPage.BlockFollowsConnection | frontend/src/pages/ConversationInterfacePage.tsx:32-67 | once the socket reports connected with the exam data loaded, navigation is blocked exactly when the next path differs from the current one; after a disconnect no navigation is blocked |
| ConversationPage.RenderPrecedence | frontend/src/pages/ConversationInterfacePage.tsx:105-110 | the view is the first matching case of: loading, error, 'connecting', no exam, the interface |
| ConversationPage.ConversationInterfacePage.constructor | frontend/src/pages/ConversationInterfacePage.tsx:13-20 | the page starts loading, with no data, no error, the flag clear and nothing sent |
| ConversationPage.ConversationInterfacePage.ExamLoaded | frontend/src/pages/ConversationInterfacePage.tsx:38-85 | a loaded exam is stored and the commit that follows runs effects 2-4 on it (`OnLoaded`), so a socket that connected first now gets its `config`; a thrown value with a message becomes the error and nothing else changes; loading ends either way |
| ConversationPage.ConversationInterfacePage.StatusChanged | frontend/src/pages/ConversationInterfacePage.tsx:54-85 | the data, status, flag, listener and outbox become `OnStatus` of the old ones |
| ConversationPage.ConversationInterfacePage.BeforeUnload | frontend/src/pages/ConversationInterfacePage.tsx:73-78 | the browser asks for confirmation exactly while the listener is registered |
| ConversationPage.ConversationInterfacePage.Navigate | frontend/src/pages/ConversationInterfacePage.tsx:32-35 | a navigation is blocked exactly as `ShouldBlock` says, and proceeds otherwise |
| ConversationPage.ConversationInterfacePage.ResolveBlocked | frontend/src/pages/ConversationInterfacePage.tsx:88-101 | confirming sends `end_session` and then proceeds; cancelling resets the blocker and sends nothing |
| ConversationPage.ConversationInterfacePage.EndSession | frontend/src/pages/ConversationInterfacePage.tsx:118-120 | ending the session sends one `end_session` message |
| ConversationPage.ConversationInterfacePage.View | frontend/src/pages/ConversationInterfacePage.tsx:105-122 | the page shows `Render` of its state |
| ConversationView.Restore | frontend/src/components/dashboard/student-dashboard/ConversationInterface.tsx:92-98 | one message per turn, same length and order, with each turn's speaker and text |
| ConversationView.Receive | frontend/src/components/dashboard/student-dashboard/ConversationInterface.tsx:59-116 | one message adds at most one outcall; a non-resume message keeps the message list as a prefix and adds at most one message; a resume with an array of turns replaces the list by one message per turn and sets the resumed flag; the speaking and resumed flags are never cleared |
| ConversationView.OnBatch | frontend/src/components/dashboard/student-dashboard/ConversationInterface.tsx:54-120 | an empty batch changes nothing; a non-empty one extends the outcall log and ends it with the clear call |
| ConversationView.TutorMessageAppends | frontend/src/components/dashboard/student-dashboard/ConversationInterface.tsx:65-76 | a `tutor_message` appends one tutor message with its text and sets `isTutorSpeaking` |
| ConversationView.TranscriptAppends | frontend/src/components/dashboard/student-dashboard/ConversationInterface.tsx:78-88 | a `transcript` appends one student message with its text |
| ConversationView.ResumeReplaces | frontend/src/components/dashboard/student-dashboard/ConversationInterface.tsx:90-101 | a `session_resumed` with turns replaces the whole list by the restored turns and sets `wasResumed` |
| ConversationView.QuietMessages | frontend/src/components/dashboard/student-dashboard/ConversationInterface.tsx:105-115 | `error`, `session_ended`, unknown types and unparsable messages leave the list unchanged |
| ConversationView.ReceiveAllAppend | frontend/src/components/dashboard/student-dashboard/ConversationInterface.tsx:59-116 | a batch is processed message by message, in arrival order |
| ConversationView.UnparsableSkipped | frontend/src/components/dashboard/student-dashboard/ConversationInterface.tsx:59-116 | an unparsable message is skipped and the rest of the batch still runs |
| ConversationView.BatchWithoutResume | frontend/src/components/dashboard/student-dashboard/ConversationInterface.tsx:59-116 | without a resume, the old list stays a prefix and the tutor and student messages are appended in order |
| ConversationView.LastResumeWins | frontend/src/components/dashboard/student-dashboard/ConversationInterface.tsx:90-101 | after the last resume of a batch, the list is its turns followed by what comes after it |
| ConversationView.EmptyBatchNothing | frontend/src/components/dashboard/student-dashboard/ConversationInterface.tsx:55 | an empty batch changes nothing and calls nothing |
| ConversationView.BatchCleared | frontend/src/components/dashboard/student-dashboard/ConversationInterface.tsx:118-119 | every processed non-empty batch ends with exactly one `clearMessages` call |
| ConversationView.RecordedAudioBody | frontend/src/components/dashboard/student-dashboard/ConversationInterface.tsx:128 | for a `data:<type>;base64,<body>` URL the uploaded field is the body |
| ConversationView.ConversationInterface.constructor | frontend/src/components/dashboard/student-dashboard/ConversationInterface.tsx:39-41 | the interface starts with no messages, both flags clear and no calls made |
| ConversationView.ConversationInterface.ProcessBatch | frontend/src/components/dashboard/student-dashboard/ConversationInterface.tsx:54-120 | the state becomes `OnBatch` of the old state |
| ConversationView.ConversationInterface.ReceiveOne | frontend/src/components/dashboard/student-dashboard/ConversationInterface.tsx:59-116 | the state becomes `Receive` of the old state |
| ConversationView.ConversationInterface.AudioFinished | frontend/src/components/dashboard/student-dashboard/ConversationInterface.tsx:75 | the end of playback clears `isTutorSpeaking` and nothing else |
| ConversationView.ConversationInterface.BannerExpired | frontend/src/components/dashboard/student-dashboard/ConversationInterface.tsx:102 | the timer clears `wasResumed` and nothing else |
| ConversationView.ConversationInterface.AudioRecorded | frontend/src/components/dashboard/student-dashboard/ConversationInterface.tsx:123-137 | a recording sends one `audio` message whose field is the data URL's body |
| ConversationView.ConversationInterface.MouseDown | frontend/src/components/dashboard/student-dashboard/ConversationInterface.tsx:146-150 | recording starts exactly when the tutor is not speaking and no audio is playing |
| ConversationView.ConversationInterface.MouseUp | frontend/src/components/dashboard/student-dashboard/ConversationInterface.tsx:152-154 | releasing the button stops recording |
| ConversationView.ConversationInterface.EndSession | frontend/src/components/dashboard/student-dashboard/ConversationInterface.tsx:140-144 | the parent's callback is called first, then the list is emptied and the app navigates to "/dashboard" |
| Relay.AudioBeforeConfig | backend/app/websockets/conversation.py:65-71 | audio without a prompt gets "Please configure the conversation first", leaves the history alone and the loop goes on |
| Relay.Configure | backend/app/websockets/conversation.py:45-63 | a config message sets the target language and sends exactly one message; on an error reply the handler is finished and the history unchanged; otherwise the exam object and prompt are set and the history gains the opening as an assistant entry at its end |
| Relay.Exchange | backend/app/websockets/conversation.py:73-102 | an audio message keeps prompt and language; when the history is unchanged the handler is finished after an error message; otherwise it sends the transcript and then the tutor message, and the history gains those two texts as a user entry and an assistant entry |
| Relay.Step | backend/app/websockets/conversation.py:39-109 | one message never shrinks the outbox or the history, and a finished handler ignores every message |
| Relay.Run | backend/app/websockets/conversation.py:37-109 | over any inbox the outbox and history only grow, and a finished handler stays as it is |
| Relay.ConfigSendsTwo | backend/app/websockets/conversation.py:45-63 | a config sends "Testing connection" and then the opening with its audio; the history gains the opening at its end, and the prompt and language are the config's |
| Relay.ConfigWithoutExam | backend/app/websockets/conversation.py:44-51 | a config whose exam is not an object sends "Testing connection", then the `AttributeError` text, ends the handler, and keeps the prompt and history |
| Relay.AudioAfterConfig | backend/app/websockets/conversation.py:73-102 | audio after config sends the transcript before the reply, and appends one user and one assistant entry |
| Relay.EndSessionReports | backend/app/websockets/conversation.py:104-109 | `end_session` replies `session_ended` with half the history length and ends the loop |
| Relay.OtherTypesIgnored | backend/app/websockets/conversation.py:41-104 | other message types change nothing |
| Relay.ErrorEndsHandler | backend/app/websockets/conversation.py:113-118 | every error other than the configure-first reply ends the handler |
| Relay.ConfigureErrors | backend/app/websockets/conversation.py:45-63 | the config branch only appends messages, and an error it appends ends the handler |
| Relay.ExchangeErrors | backend/app/websockets/conversation.py:73-102 | the audio branch only appends messages, and an error it appends ends the handler |
| Relay.FinishedIsFinal | backend/app/websockets/conversation.py:104-118 | once the handler has ended, later arrivals change nothing |
| Relay.StepKeepsPaired | backend/app/websockets/conversation.py:63-102 | one step only extends the history at its end and keeps every entry a user or assistant entry, with each user entry directly followed by an assistant entry |
| Relay.RunKeepsPaired | backend/app/websockets/conversation.py:37-109 | over any run the history only grows at the end and stays paired |
| Relay.PairedCounts | backend/app/websockets/conversation.py:63-102 | a paired history holds only user and assistant entries, and at least as many assistant entries as user entries |
| Relay.TurnsCountExchanges | backend/app/websockets/conversation.py:104-108 | over every connection, the history is user plus assistant entries with an assistant entry per user entry, and with a single opening the reported `turns` equals the number of completed exchanges |
| Relay.HandleConnection | backend/app/websockets/conversation.py:30-118 | the loop sends exactly the messages of `Run` over the arrivals, and ends exactly when `Run` does |
| Relay.StepOnce | backend/app/websockets/conversation.py:39-109 | one pass of the loop body computes `Step` |
| ConversationEngine.VocabularyLines | backend/app/services/conversation_engine.py:17 | one "-item" line per item, in order |
| ConversationEngine.VocabularySectionLines | backend/app/services/conversation_engine.py:17 | the vocabulary section splits back on newlines into exactly those lines |
| ConversationEngine.VocabularySectionEmpty | backend/app/services/conversation_engine.py:17 | an empty vocabulary gives an empty section |
| ConversationEngine.TensesCases | backend/app/services/conversation_engine.py:18 | no tenses give "any appropriate tenses", and each further tense adds ", " and itself |
| ConversationEngine.RegionNoteCases | backend/app/services/conversation_engine.py:19 | the note is "" for a missing or empty variant, and otherwise "Use <variant> regional vocabulary and expressions." |
| ConversationEngine.PromptEmbeds | backend/app/services/conversation_engine.py:21-55 | `build_system_prompt`: for all inputs, the prompt holds the target language right after the fixed intro, the topic right after the role heading, the level right after the region note, and the target language again before the closing rules, so it contains all three verbatim |
| ConversationEngine.ResponseRequest | backend/app/services/conversation_engine.py:66-75 | the request carries the history unchanged, then exactly one user entry with the student's message |
| ConversationEngine.OpeningRequest | backend/app/services/conversation_engine.py:80-87 | the opening request carries exactly one fixed user entry |
| ConversationEngine.ResponseRequestInjective | backend/app/services/conversation_engine.py:66-68 | two response requests with the same prompt are equal exactly when their histories and messages are |
| Sessions.StartGuards | backend/app/controllers/conversation_session.py:20-31 | start gives 404, then 403, then 400, in that order, and otherwise moves `assigned` to `in_progress` |
| Sessions.StartOutcome | backend/app/controllers/conversation_session.py:20-31 | the 404 comes exactly for an unknown session; a start that succeeds passes the guards and changes only the status, from assigned to in progress |
| Sessions.CompleteOutcome | backend/app/controllers/conversation_session.py:45-57 | the corrected version, see ## Findings: the 404 comes exactly for an unknown session; a completion that succeeds changes only the status, to completed, and sets the end time to now |
| Sessions.CompleteOutcomeAsWritten | backend/app/controllers/conversation_session.py:45-57 | as written the completion always fails: with a 500 exactly where the corrected version succeeds, and otherwise with the corrected version's own error |
| Sessions.CompleteGuards | backend/app/controllers/conversation_session.py:45-57 | complete gives 404, then 403, then 400, and otherwise sets `completed` and `ended_at`: the corrected version, see ## Findings (as written, line 57 raises and the client gets 500) |
| Sessions.StepsMoveForward | backend/app/controllers/conversation_session.py:28-57 | each successful step moves a session exactly one status forward |
| Sessions.CompletedIsTerminal | backend/app/controllers/conversation_session.py:28-54 | nothing leaves `completed` |
| Sessions.HandleKeeps | backend/app/controllers/conversation_session.py:20-61 | one request adds or removes no row, never moves a status back and keeps `ended_at` set exactly on completed rows |
| Sessions.HandleAllKeeps | backend/app/controllers/conversation_session.py:20-61 | the same over any sequence of requests, and a row reaches `completed` only after a start and a complete succeeded on it |
| Sessions.CompleteAlwaysFailsAsWritten | backend/app/controllers/conversation_session.py:57 | as written, complete fails where the guards fail and otherwise gives 500 |
| Sessions.NeverCompletedAsWritten | backend/app/controllers/conversation_session.py:56-61 | as written, no sequence of requests ever changes a row to `completed` |
| Sessions.CompletionReachable | backend/app/controllers/conversation_session.py:28-57 | with the intended time stamp, start then complete reaches `completed` with `ended_at`; as written the row stays `in_progress` |
| Sessions.SessionTable.constructor | backend/app/models/conversation_session.py:9-28 | the table starts with the given rows |
| Sessions.SessionTable.Start | backend/app/controllers/conversation_session.py:20-37 | returns `StartOutcome` and commits it |
| Sessions.SessionTable.Complete | backend/app/controllers/conversation_session.py:45-65 | returns `CompleteOutcome` and commits it: the corrected version, see ## Findings |
| Exams.TenseItems | backend/app/controllers/exam.py:46 | iterating the tenses string yields its characters, one item each |
| Exams.CreateExam | backend/app/controllers/exam.py:26-49 | the exam is stamped with its creator and copies the body's fields; a body without the vocabulary list fails |
| Exams.CreatedPrompt | backend/app/controllers/exam.py:41-49 | the created exam's prompt is the system prompt built from its language, level, manual vocabulary, topic and tenses, with no region |
| Exams.TensesSpelledOut | backend/app/controllers/exam.py:41-47 | for every non-empty tenses string, the tense line has length 3n-2 and holds the k-th character at position 3k, each but the last followed by ", "; an empty or missing string gives "any appropriate tenses" |
| Exams.MyExams | backend/app/controllers/exam.py:66-67 | exactly the exams the user created |
| Exams.NewSessions | backend/app/controllers/exam.py:102-111 | one `assigned` session per student id, in order, with the exam id and due date |
| Exams.AssignCheckIff | backend/app/controllers/exam.py:89-99 | the count check passes exactly when the ids are distinct and every one is a student of this teacher |
| Exams.AssignOutcome | backend/app/controllers/exam.py:81-111 | the 404 comes exactly when the exam is missing or not created by the user; a success creates one assigned session per student id, in order, for that exam |
| Exams.AssignCases | backend/app/controllers/exam.py:81-111 | a missing or foreign exam gives 404, a failed count gives 400, both create nothing; otherwise the sessions are `NewSessions` |
| Exams.SessionsOf | backend/app/controllers/exam.py:137-140 | exactly the sessions of the exam |
| Exams.Dashboard | backend/app/controllers/exam.py:130-149 | one entry per exam the user created |
| Exams.EntryCounts | backend/app/controllers/exam.py:142-148 | pending, in progress and completed add up to `total_assigned`, the exam's session count |
| Exams.DashboardCounts | backend/app/controllers/exam.py:135-149 | every dashboard entry is of an exam the user created, and its counts add up |
| Exams.ExamController.constructor | backend/app/models/exam.py:12-44 | the controller starts with no exams, no sessions and the given teacher of each user |
| Exams.ExamController.Create | backend/app/controllers/exam.py:18-56 | on success stores `CreateExam` of the body under a fresh id, and on failure changes nothing |
| Exams.ExamController.MyExamList | backend/app/controllers/exam.py:59-69 | returns `MyExams` |
| Exams.ExamController.Assign | backend/app/controllers/exam.py:72-119 | the loop adds exactly `NewSessions` on success, under fresh ids, and changes nothing on 404 or 400 |
| Exams.ExamController.TeacherDashboard | backend/app/controllers/exam.py:122-151 | returns `Dashboard` |
| Vocabulary.OptionalField | backend/app/controllers/vocabulary.py:38-40 | an optional field is its stripped text, or `None` when that is empty or missing |
| Vocabulary.ItemOf | backend/app/controllers/vocabulary.py:35-37 | a valid row's word and translation are stripped |
| Vocabulary.ShortRowCrashes | backend/app/controllers/vocabulary.py:38-40 | as written, a row that stops after its word and translation makes the preview raise; corrected, it gives the stripped item with no optional fields |
| Vocabulary.AsWrittenAgrees | backend/app/controllers/vocabulary.py:31-41 | without short rows the source and the corrected preview agree |
| Vocabulary.ItemAgrees | backend/app/controllers/vocabulary.py:35-40 | for a valid row without short cells, the source builds the same item as the corrected preview |
| Vocabulary.AsWrittenStep | backend/app/controllers/vocabulary.py:31-41 | one more row without short cells keeps the source and the corrected preview in agreement |
| Vocabulary.OutcomeCounts | backend/app/controllers/vocabulary.py:31-45 | every row gives exactly one item or one error |
| Vocabulary.PreviewRows | backend/app/controllers/vocabulary.py:28-47 | the response's items plus errors number the rows, and `total` is the number of items (the corrected preview, see ## Findings) |
| Vocabulary.PreviewAsWritten | backend/app/controllers/vocabulary.py:28-47 | as written, the preview either fails with the `.strip()` error or has items plus errors numbering the rows and `total` the number of items |
| Vocabulary.PreviewPrefix | backend/app/controllers/vocabulary.py:31-41 | reading more rows only appends to both lists |
| Vocabulary.OneMoreRow | backend/app/controllers/vocabulary.py:31-41 | one more row appends its item or its "Row i+1" error, and nothing else |
| Vocabulary.RowOutcome | backend/app/controllers/vocabulary.py:31-41 | row k gives the next item when it has its required fields, and the error "Row k+1: missing required field" otherwise |
| Vocabulary.BlankWordKept | backend/app/controllers/vocabulary.py:32-36 | a word of only spaces passes the check and becomes the empty word |
| Vocabulary.PreviewUpload | backend/app/controllers/vocabulary.py:28-47 | the corrected version, see ## Findings: the loop computes `PreviewRows`, so a short row gives an item where the loop as written raises |
| Auth.TokenFromRequest | backend/app/dependencies/auth.py:15-38 | the Bearer credentials if present, else a non-empty `jwt` cookie, else nothing; never the empty string |
| Auth.CurrentUser | backend/app/dependencies/auth.py:41-87 | every refusal is a 401, the only crash is a malformed id, and an authenticated user is one of the stored users |
| Auth.CurrentUserOptional | backend/app/dependencies/auth.py:90-104 | no token gives no user; the only error is a malformed id; a user it returns is one of the stored users |
| Auth.RequireRoles | backend/app/dependencies/auth.py:107-125 | the result is the strict lookup's own result or a 403, and an authenticated user has one of the allowed roles |
| Auth.CurrentUserChain | backend/app/dependencies/auth.py:49-77 | each 401 (and the UUID crash) happens exactly when every earlier check passed and this one fails |
| Auth.AuthenticatedMeans | backend/app/dependencies/auth.py:64-87 | a returned user is the token subject's row, and its password did not change after `iat` |
| Auth.PasswordChangeBoundary | backend/app/dependencies/auth.py:80-85 | a change at the issue time or no change is accepted; one a unit later gives 401 |
| Auth.OptionalMatchesStrict | backend/app/dependencies/auth.py:98-104 | the optional variant gives `None` exactly for a missing token or an HTTP error, the same user on success, and passes other exceptions on |
| Auth.RolesCheck | backend/app/dependencies/auth.py:117-123 | a permitted user passes unchanged, any other user gives 403, and failures stay as they were |
| Users.GetOutcome | backend/app/controllers/user.py:22-28 | an unknown id gives 404 "User with id <id> not found"; otherwise the row |
| Users.CreateOutcome | backend/app/controllers/user.py:36-51 | creation fails exactly when the email is registered, and then with the duplicate-email error; a new row gets the next id, the email and the hash of the password |
| Users.UpdateOutcome | backend/app/controllers/user.py:62-79 | the corrected version, see ## Findings: the 404 comes exactly for an unknown id, the integrity error exactly when the update is refused; a row that changes gets the update time |
| Users.UpdateOutcomeAsWritten | backend/app/controllers/user.py:62-79 | same errors as the corrected version, and a successful update never changes the password hash or its change time |
| Users.DeleteOutcome | backend/app/controllers/user.py:86-95 | deletion fails exactly for an unknown id, with a 404; otherwise exactly that id is removed and every other row is kept |
| Users.CreateCases | backend/app/controllers/user.py:36-51 | a registered email gives 400 and no change; otherwise a new row with the hashed password, role "student", the sent fields, and a missing proficiency level stored as the column default "beginner" (models/user.py line 22) |
| Users.CreateKeepsValid | backend/app/controllers/user.py:36-56 | a create keeps emails unique and ids below the counter |
| Users.AssignColumn | backend/app/controllers/user.py:75-76 | setting a column sets that column and no other |
| Users.ApplyAllFields | backend/app/controllers/user.py:71-76 | after the loop, each sent column holds the last value sent for it, a sent password is hashed, and every other field is unchanged |
| Users.UpdateSetsExactly | backend/app/controllers/user.py:62-79 | an unknown id gives 404; a successful update sets exactly the sent fields, hashes a sent password and stamps `updated_at` whenever the row changed |
| Users.UpdateKeepsValid | backend/app/controllers/user.py:71-78 | a successful update keeps emails unique |
| Users.PasswordUpdateIgnored | backend/app/controllers/user.py:71-76 | as written, a request that only changes the password succeeds and changes nothing |
| Users.AsWrittenKeepsPassword | backend/app/controllers/user.py:75-76 | as written, no update changes the stored password or its time stamp |
| Users.AsWrittenAgrees | backend/app/controllers/user.py:75-76 | without a password field the source and the corrected update agree |
| Users.DeleteRemovesOnly | backend/app/controllers/user.py:86-95 | an unknown id gives 404; otherwise exactly that row is removed |
| Users.UserTable.constructor | backend/app/models/user.py:11-23 | the table starts empty, with the counter at 1 |
| Users.UserTable.GetUser | backend/app/controllers/user.py:20-30 | returns `GetOutcome` and changes nothing |
| Users.UserTable.CreateUser | backend/app/controllers/user.py:32-58 | returns `CreateOutcome`, stores it, and keeps the table valid |
| Users.UserTable.UpdateUser | backend/app/controllers/user.py:60-81 | the setattr loop computes `UpdateOutcome` and stores it: the corrected version that hashes a sent password, see ## Findings |
| Users.UserTable.DeleteUser | backend/app/controllers/user.py:83-97 | returns `DeleteOutcome` and stores it |
| ConfigPanel.Clean | frontend/src/components/ConfigPanel.tsx:40-41 | every entry is non-empty and already trimmed, and there are no more entries than pieces |
| ConfigPanel.ParseVocabulary | frontend/src/components/ConfigPanel.tsx:38-41 | at most one word per comma-separated piece, each non-empty and already trimmed |
| ConfigPanel.CleanAppend | frontend/src/components/ConfigPanel.tsx:38-41 | the pieces are cleaned one by one, keeping their order |
| ConfigPanel.CleanPiece | frontend/src/components/ConfigPanel.tsx:38-41 | a piece is dropped exactly when it is blank, and kept trimmed otherwise |
| ConfigPanel.CleanTrimmed | frontend/src/components/ConfigPanel.tsx:38-41 | pieces that trim to non-empty words clean to exactly those words |
| ConfigPanel.ParseJoined | frontend/src/components/ConfigPanel.tsx:38-41 | comma-joined pieces parse back to their trimmed words, whatever spacing surrounds them |
| ConfigPanel.ParseRoundTrip | frontend/src/components/ConfigPanel.tsx:38-41 | words without commas or surrounding blanks survive joining and parsing |
| ConfigPanel.BlankPiecesDropped | frontend/src/components/ConfigPanel.tsx:38-41 | text of only commas and blanks gives no words |
| ConfigPanel.RegionVariant | frontend/src/components/ConfigPanel.tsx:49 | an empty variant becomes `None`, and a non-empty one passes unchanged |
| ConfigPanel.HandleStart | frontend/src/components/ConfigPanel.tsx:43-50 | language, level, topic and tenses pass unchanged; the vocabulary is the parsed text; the region is normalised |
| ConfigPanel.Without | frontend/src/components/ConfigPanel.tsx:55 | removes every occurrence of the tense and keeps the rest |
| ConfigPanel.ToggleTense | frontend/src/components/ConfigPanel.tsx:53-57 | the tense is present afterwards exactly when it was absent before, and other tenses are unaffected |
| ConfigPanel.WithoutAppend | frontend/src/components/ConfigPanel.tsx:55 | filtering keeps the order of the other tenses |
| ConfigPanel.ToggleAbsentTwice | frontend/src/components/ConfigPanel.tsx:53-57 | an absent tense is appended at the end, and toggling it twice restores the list |
| ConfigPanel.TogglePresentTwice | frontend/src/components/ConfigPanel.tsx:53-57 | a present tense is removed, and toggling it twice moves it, once, to the end |
| StudentSearch.Filter | frontend/src/components/dashboard/teacher-dashboard/StudentSearch.tsx:36-48 | every result is a matching student of the list |
| StudentSearch.Search | frontend/src/components/dashboard/teacher-dashboard/StudentSearch.tsx:35-48 | the results are at most the students, each of them a loaded student that matches the trimmed, lower-cased query |
| StudentSearch.FilterAppend | frontend/src/components/dashboard/teacher-dashboard/StudentSearch.tsx:36 | the results keep the list's order |
| StudentSearch.FilterMembership | frontend/src/components/dashboard/teacher-dashboard/StudentSearch.tsx:37-47 | a student is a result exactly when the query is in their first name, last name, full name or email |
| StudentSearch.BlankQueryListsAll | frontend/src/components/dashboard/teacher-dashboard/StudentSearch.tsx:36-47 | a blank query lists every student |
| StudentSearch.CaseInsensitive | frontend/src/components/dashboard/teacher-dashboard/StudentSearch.tsx:35 | the search ignores the case of the query |
| StudentSearch.FindsByEmail | frontend/src/components/dashboard/teacher-dashboard/StudentSearch.tsx:40-46 | typing a student's email finds that student |
| StudentSearch.BareStudentNeedsBlankQuery | frontend/src/components/dashboard/teacher-dashboard/StudentSearch.tsx:37-47 | a student without name or email is found exactly by a blank query |
| StudentSearch.SearchBox.constructor | frontend/src/components/dashboard/teacher-dashboard/StudentSearch.tsx:8-11 | the box starts with no results and the menu closed, over the students the load effect stored |
| StudentSearch.SearchBox.OnChange | frontend/src/components/dashboard/teacher-dashboard/StudentSearch.tsx:33-51 | the results are the search of the query, and the menu is open exactly when there are results |
| ErrorMessage.GetErrorMessage | frontend/src/utils/helperFunctions.ts:7-16 | a non-empty detail, else "Request failed" for axios errors; the message of an `Error`; else "An unexpected error occurred" |
| ErrorMessage.AxiosCheckedFirst | frontend/src/utils/helperFunctions.ts:8-12 | an axios error never shows its own message |
| ErrorMessage.NeverEmpty | frontend/src/utils/helperFunctions.ts:7-16 | the text is empty exactly for an `Error` with an empty message |
| ErrorMessage.FixedTexts | frontend/src/utils/helperFunctions.ts:10-15 | each fixed text appears only for its own case, unless the server or the error itself says the same |
| SpeechToText.FirstTwo | backend/app/services/speech_to_text.py:28 | at most the first two characters, as a prefix |
| SpeechToText.LanguageCode | backend/app/services/speech_to_text.py:28 | the table's code for the lower-cased name, else its first two characters lower-cased |
| SpeechToText.TableOverridesFallback | backend/app/services/speech_to_text.py:9-28 | for every name, the code differs from the lower-cased first two letters exactly when the lower-cased name is "spanish", "german", "portuguese" or "chinese"; for all other names the table and the fallback agree |
| SpeechToText.CaseInsensitive | backend/app/services/speech_to_text.py:28 | the lookup ignores the case of the name |
| SpeechToText.CodeLength | backend/app/services/speech_to_text.py:28 | a code has at most two characters, and exactly two for names of two or more |
| AuthSchemas.WithDefault | backend/app/schemas/auth.py:12-14 | a left-out field takes its default, and a given one is kept |
| AuthSchemas.ValidateSignup | backend/app/schemas/auth.py:6-20 | a sign-up is rejected exactly when the passwords differ, with "Passwords do not match!"; an accepted one keeps email and password, and a missing proficiency level becomes "beginner" |
| AuthSchemas.ValidateReset | backend/app/schemas/auth.py:52-59 | a reset is rejected exactly when the passwords differ, with "Passwords do not match"; otherwise the request is returned as it is |
| AuthSchemas.SignupValidation | backend/app/schemas/auth.py:16-20 | a sign-up is rejected with "Passwords do not match!" exactly when the passwords differ, and otherwise returned with its fields |
| AuthSchemas.SignupDefaults | backend/app/schemas/auth.py:12-14 | left-out fields become "beginner" for the level and `None` for the languages |
| AuthSchemas.ResetValidation | backend/app/schemas/auth.py:55-59 | a reset is rejected with "Passwords do not match" exactly when the passwords differ, and otherwise returned unchanged |

## Left out

- Browser media and WebRTC in `connect`: `RTCPeerConnection`, `getUserMedia`, the offer and answer, the SDP fetch and the audio element. Each awaited step is an outcome in `ConnectEnv`. The model keeps the order of the steps and what each failure leaves to tear down.
- LLM, TTS and STT clients: they are arrow-typed parameters (`Relay.Services`) or left outside the model. The Whisper call in `transcribe` is left out; only its language-code lookup is modelled.
- Token decoding, password hashing and UUID parsing: these are parameters of the functions that use them.
- The database: tables are maps, commit and refresh are map updates, and autoincrement ids and `uuid4` are counters. SQL `NOT NULL` and unique violations on update become `Users.IntegrityError`.
- JSON: incoming messages are already-decoded datatypes. An unparsable frame is one case. A JSON `null` where a string is expected (for example `targetLanguage`) is treated as the key being absent. So `Relay.Exchange` answers a `null` `audio` field with the `KeyError` text `'audio'`, where the source raises the `TypeError` of `base64.b64decode(None)` and sends that text instead.
- `JSON.stringify` and the wire form of outgoing messages: these are datatypes.
- Timers: the 3-second reset of `wasResumed` is the `BannerExpired` event. The 500 ms debounce of the student search is left out; `OnChange` is the debounced call.
- Audio playback (`useAudioPlayer`) is modelled only as the calls the component makes and the `AudioFinished` event. `FileReader` is modelled as the `AudioRecorded` event, which carries the data URL.
- Strings: trimming and case folding are ASCII-only. JavaScript's `trim` and Python's `strip`/`lower` also handle Unicode whitespace and letters.
- Timestamps are opaque integers handed in as parameters.
- React scheduling: each render commits and runs its effects in declaration order, one event at a time. Batched renders are not modelled.
- The student search's loading effect (`getStudents` and its error state) and its focus handling are left out; the student list is the constructor argument.
- `get_all_users` and `get_all_conversation_sessions` are left out. They return the whole table.
- E-mail validation and normalisation by `EmailStr` is left out; emails are compared as given.
- `getErrorMessage` sees `detail` only as an optional string. The list that FastAPI sends for a 422 is left out.
- Pydantic's wording of validator errors, such as the "Value error, " prefix, is left out; the validators return the bare message.

## Findings

| source | as written | input that shows it | evidently intended | confidence | as-written member | corrected member |
|---|---|---|---|---|---|---|
| backend/app/controllers/vocabulary.py:38-40 | `row.get(key, '').strip()` on a row shorter than the header: the CSV reader fills the missing cells with `None`, so `.strip()` raises and the whole preview fails | header `word,translation,part_of_speech` and the row `gato,cat` | a missing optional cell becomes `None` in the item | not executed | Vocabulary.ShortRowCrashes | Vocabulary.OptionalField |
| backend/app/controllers/user.py:71-76 | `setattr(user, "password", value)` sets a plain attribute that is not a column, so the new password is never stored, even though the comment at line 73 says it is hashed | a `PATCH` whose body is only `{"password": "new"}` | the hash of the new password is stored, and `password_changed_at` is stamped as `create_user` does | not executed | Users.PasswordUpdateIgnored | Users.UpdateSetsExactly |
| backend/app/controllers/conversation_session.py:57 | `datetime.now(datetime.UTC)` with `datetime` imported as the class (line 3): the class has no `UTC` attribute, so every complete that passes the guards raises, the client gets 500, and the row is never committed | complete on one's own `in_progress` session | the session becomes `completed` with `ended_at` set to the current UTC time | not executed | Sessions.NeverCompletedAsWritten | Sessions.CompletionReachable |
