/** The conversation page (frontend/src/pages/ConversationInterfacePage.tsx):
    it loads the exam data, sends `config` once per connected period through the
    WebSocket hook, clears its `configSent` flag when the socket disconnects,
    guards in-app navigation and page unload while the flag is set, and picks
    what to render. */
module ConversationPage {
  import opened Base
  import WebSocketHook

  type Status = WebSocketHook.Status

  /** A JSON value. */
  datatype Json =
    | JStr(str: string)
    | JNum(num: int)
    | JBool(b: bool)
    | JNull
    | JArr(items: seq<Json>)
    | JObj(fields: map<string, Json>)

  /** An outgoing JSON object, before `JSON.stringify`. */
  type Payload = map<string, Json>

  /** `{ type: "config", ...examData }`: every field of the exam data, over a
      leading `type: "config"` that a field of the same name would replace. */
  function ConfigPayload(examData: map<string, Json>): (p: Payload)
    ensures p.Keys == examData.Keys + {"type"}
    ensures forall k :: k in examData ==> p[k] == examData[k]
    ensures "type" !in examData ==> p["type"] == JStr("config")
  {
    map["type" := JStr("config")] + examData
  }

  const EndSessionPayload: Payload := map["type" := JStr("end_session")]

  const LeaveWarning := "You have an exam in progress. Are you sure you want to leave?"

  /** The state the config effects read and write. */
  datatype ConfigState = ConfigState(
    examData: Option<map<string, Json>>,
    status: Status,
    configSent: bool,
    unloadGuarded: bool,
    sent: seq<Payload>)

  /** Effect 2: send `config` when the exam data is loaded, the socket is
      connected and it has not been sent yet. */
  function SendConfigEffect(c: ConfigState): ConfigState {
    if c.examData.Some? && c.status == WebSocketHook.Connected && !c.configSent then
      c.(sent := c.sent + [ConfigPayload(c.examData.value)], configSent := true)
    else c
  }

  /** Effect 3: clear the flag on disconnect so that `config` is sent again. */
  function ResetOnDisconnectEffect(c: ConfigState): ConfigState {
    if c.status == WebSocketHook.Disconnected then c.(configSent := false) else c
  }

  /** Effect 4: the beforeunload listener is registered while the flag is set,
      and the cleanup removes it once the flag changes. */
  function UnloadGuardEffect(c: ConfigState): ConfigState {
    c.(unloadGuarded := c.configSent)
  }

  /** A commit: the three effects in declaration order, each seeing the state
      the previous ones left, so the result is the one the follow-up render
      reaches too. */
  function Commit(c: ConfigState): (r: ConfigState)
    ensures r.examData == c.examData && r.status == c.status
    ensures c.sent <= r.sent && |r.sent| <= |c.sent| + 1
    ensures r.unloadGuarded == r.configSent
    ensures r.status == WebSocketHook.Disconnected ==> !r.configSent
    ensures |r.sent| > |c.sent| ==> c.examData.Some? && r.sent[|c.sent|] == ConfigPayload(c.examData.value)
  {
    UnloadGuardEffect(ResetOnDisconnectEffect(SendConfigEffect(c)))
  }

  /** The socket reports status `st` and the page commits. */
  function OnStatus(c: ConfigState, st: Status): (r: ConfigState)
    ensures r.status == st && r.examData == c.examData
    ensures c.sent <= r.sent && r.unloadGuarded == r.configSent
    ensures st == WebSocketHook.Disconnected ==> !r.configSent && r.sent == c.sent
    ensures st == WebSocketHook.Connecting ==> r.sent == c.sent && r.configSent == c.configSent
  {
    Commit(c.(status := st))
  }

  function OnStatuses(c: ConfigState, sts: seq<Status>): ConfigState
    decreases |sts|
  {
    if |sts| == 0 then c else OnStatuses(OnStatus(c, sts[0]), sts[1..])
  }

  // ---------------------------------------------------------------------------
  // Properties of the config effects

  /** `config` goes out exactly when the exam data is loaded, the status is
      connected and the flag is clear; sending sets the flag. */
  lemma ConfigSentWhenReady(c: ConfigState)
    ensures var d := Commit(c);
      var ready := c.examData.Some? && c.status == WebSocketHook.Connected && !c.configSent;
      && (ready ==> d.sent == c.sent + [ConfigPayload(c.examData.value)] && d.configSent)
      && (!ready ==> d.sent == c.sent)
  {
  }

  /** Re-running the effects sends nothing more. */
  lemma CommitIdempotent(c: ConfigState)
    ensures Commit(Commit(c)) == Commit(c)
  {
  }

  /** After every commit the unload listener is registered exactly when the
      flag is set. */
  lemma UnloadGuardFollowsFlag(c: ConfigState)
    ensures Commit(c).unloadGuarded == Commit(c).configSent
  {
  }

  predicate AllConnected(sts: seq<Status>) {
    forall k :: 0 <= k < |sts| ==> sts[k] == WebSocketHook.Connected
  }

  /** While the status stays 'connected', at most one `config` is ever sent,
      and one is sent as soon as the exam data is there. */
  lemma {:induction false} OneConfigPerConnection(c: ConfigState, sts: seq<Status>)
    requires AllConnected(sts) && |sts| >= 1
    ensures var d := OnStatuses(c, sts);
      && d.configSent == (c.configSent || c.examData.Some?)
      && d.sent == c.sent + (if !c.configSent && c.examData.Some? then [ConfigPayload(c.examData.value)] else [])
    decreases |sts|
  {
    var c1 := OnStatus(c, sts[0]);
    if |sts| > 1 {
      assert AllConnected(sts[1..]) by {
        forall k | 0 <= k < |sts[1..]| ensures sts[1..][k] == WebSocketHook.Connected {
          assert sts[1..][k] == sts[k + 1];
        }
      }
      OneConfigPerConnection(c1, sts[1..]);
    }
  }

  /** connected, disconnected, connected: the flag is cleared in between, so a
      second `config` goes out, and only one. */
  lemma ResendAfterReconnect(c: ConfigState)
    requires c.examData.Some? && !c.configSent
    ensures var d := OnStatuses(c, [WebSocketHook.Connected, WebSocketHook.Disconnected, WebSocketHook.Connected]);
      d.sent == c.sent + [ConfigPayload(c.examData.value), ConfigPayload(c.examData.value)]
      && d.configSent && d.unloadGuarded
  {
    var c1 := OnStatus(c, WebSocketHook.Connected);
    var c2 := OnStatus(c1, WebSocketHook.Disconnected);
    var c3 := OnStatus(c2, WebSocketHook.Connected);
    assert [WebSocketHook.Connected, WebSocketHook.Disconnected, WebSocketHook.Connected][1..]
        == [WebSocketHook.Disconnected, WebSocketHook.Connected];
    assert [WebSocketHook.Disconnected, WebSocketHook.Connected][1..] == [WebSocketHook.Connected];
    assert OnStatuses(c, [WebSocketHook.Connected, WebSocketHook.Disconnected, WebSocketHook.Connected]) == c3;
  }

  /** The only payloads the effects ever send are `config` payloads of the
      loaded exam data. */
  lemma {:induction false} OnlyConfigPayloads(c: ConfigState, sts: seq<Status>)
    requires c.examData.Some?
    ensures var d := OnStatuses(c, sts);
      && c.sent <= d.sent
      && forall k :: |c.sent| <= k < |d.sent| ==> d.sent[k] == ConfigPayload(c.examData.value)
    decreases |sts|
  {
    if |sts| > 0 {
      var c1 := OnStatus(c, sts[0]);
      OnlyConfigPayloads(c1, sts[1..]);
    }
  }

  /** The exam data loaded, the page commits. */
  function OnLoaded(c: ConfigState, data: map<string, Json>): ConfigState {
    Commit(c.(examData := Some(data)))
  }

  /** The socket connects before the exam data arrives: the status change
      sends nothing, and the load that follows sends exactly one `config` and
      raises both guards. */
  lemma ConnectedThenLoaded(c: ConfigState, data: map<string, Json>)
    requires c.examData.None? && !c.configSent
    ensures OnStatus(c, WebSocketHook.Connected).sent == c.sent
    ensures var d := OnLoaded(OnStatus(c, WebSocketHook.Connected), data);
      d.sent == c.sent + [ConfigPayload(data)] && d.configSent && d.unloadGuarded
  {
  }

  /** The order of the two events does not matter: loading first and then
      connecting reaches the same state. */
  lemma LoadOrderIrrelevant(c: ConfigState, data: map<string, Json>)
    requires c.examData.None? && !c.configSent
    ensures OnStatus(OnLoaded(c, data), WebSocketHook.Connected) == OnLoaded(OnStatus(c, WebSocketHook.Connected), data)
  {
  }

  // ---------------------------------------------------------------------------
  // Navigation, unload and rendering

  /** The `useBlocker` predicate. */
  function ShouldBlock(configSent: bool, currentPath: string, nextPath: string): bool {
    configSent && currentPath != nextPath
  }

  /** The blocker follows the connection: once the socket is connected with
      the exam data loaded, every navigation to another path is blocked; after
      a disconnect no navigation is. */
  lemma BlockFollowsConnection(c: ConfigState, currentPath: string, nextPath: string)
    ensures c.examData.Some? ==>
      (ShouldBlock(OnStatus(c, WebSocketHook.Connected).configSent, currentPath, nextPath) <==> currentPath != nextPath)
    ensures !ShouldBlock(OnStatus(c, WebSocketHook.Disconnected).configSent, currentPath, nextPath)
  {
  }

  /** The blocker's state. */
  datatype Blocker = Unblocked | Blocked(nextPath: string)

  /** What the page renders. */
  datatype View = LoadingView | ErrorView(message: string) | ConnectingView | NoExamView | InterfaceView

  /** The render: loading, then a (non-empty) error, then 'connecting', then
      missing exam data, then the interface. */
  function Render(isLoading: bool, error: Option<string>, status: Status, hasExam: bool): (v: View)
    ensures isLoading ==> v == LoadingView
    ensures v.ErrorView? ==> v.message != "" && error == Some(v.message)
    ensures v == InterfaceView ==> !isLoading && hasExam && status != WebSocketHook.Connecting
  {
    if isLoading then LoadingView
    else if error.Some? && error.value != "" then ErrorView(error.value)
    else if status == WebSocketHook.Connecting then ConnectingView
    else if !hasExam then NoExamView
    else InterfaceView
  }

  /** The first case that matches decides the view. */
  lemma RenderPrecedence(isLoading: bool, error: Option<string>, status: Status, hasExam: bool)
    ensures var v := Render(isLoading, error, status, hasExam);
      && (v == LoadingView <==> isLoading)
      && (v.ErrorView? <==> !isLoading && error.Some? && error.value != "")
      && (v == ConnectingView <==> !isLoading && (error.None? || error.value == "") && status == WebSocketHook.Connecting)
      && (v == NoExamView <==> !isLoading && (error.None? || error.value == "") && status != WebSocketHook.Connecting && !hasExam)
      && (v == InterfaceView <==> !isLoading && (error.None? || error.value == "") && status != WebSocketHook.Connecting && hasExam)
  {
  }

  /** The message the load effect shows for what `getExamData` threw, if any. */
  function LoadErrorMessage(t: Thrown): Option<string> {
    match t
    case ErrorInstance(m) => Some(m)
    case OtherValue(truthy) => if truthy then Some("Failed to load exam") else None
  }

  /** The page instance. */
  class ConversationInterfacePage {
    var examData: Option<map<string, Json>>
    var isLoading: bool
    var error: Option<string>
    var connectionStatus: Status
    var configSent: bool
    var unloadGuarded: bool
    /** Every payload handed to `sendMessage`, oldest first. */
    var sent: seq<Payload>
    var pathname: string
    var blocker: Blocker

    function Config(): ConfigState
      reads this
    {
      ConfigState(examData, connectionStatus, configSent, unloadGuarded, sent)
    }

    constructor (path: string)
      ensures examData == None && isLoading && error == None
      ensures connectionStatus == WebSocketHook.Connecting && !configSent && !unloadGuarded
      ensures sent == [] && pathname == path && blocker == Unblocked
    {
      examData, isLoading, error := None, true, None;
      connectionStatus, configSent, unloadGuarded := WebSocketHook.Connecting, false, false;
      sent, pathname, blocker := [], path, Unblocked;
    }

    /** Effect 1: the outcome of `getExamData`. New exam data is a change of
        a dependency of effect 2, so the commit that follows runs the effects;
        an error or the end of loading changes none of their dependencies. */
    method ExamLoaded(outcome: Result<map<string, Json>, Thrown>)
      modifies this`examData, this`error, this`isLoading, this`configSent, this`unloadGuarded, this`sent
      ensures !isLoading
      ensures outcome.Ok? ==> Config() == OnLoaded(old(Config()), outcome.value) && error == old(error)
      ensures outcome.Err? ==> Config() == old(Config())
      ensures outcome.Err? ==> error == (if LoadErrorMessage(outcome.error).Some? then LoadErrorMessage(outcome.error) else old(error))
    {
      match outcome {
        case Ok(data) =>
          examData := Some(data);
          RunEffects();
        case Err(t) =>
          var msg := LoadErrorMessage(t);
          if msg.Some? {
            error := msg;
          }
      }
      isLoading := false;
    }

    /** A render after the socket reports `st`, with the effects that follow. */
    method StatusChanged(st: Status)
      modifies this`connectionStatus, this`configSent, this`unloadGuarded, this`sent
      ensures Config() == OnStatus(old(Config()), st)
    {
      connectionStatus := st;
      RunEffects();
    }

    /** Effects 2, 3 and 4 of a commit, in declaration order. */
    method RunEffects()
      modifies this`configSent, this`unloadGuarded, this`sent
      ensures Config() == Commit(old(Config()))
    {
      // Effect 2
      if examData.Some? && connectionStatus == WebSocketHook.Connected && !configSent {
        sent := sent + [ConfigPayload(examData.value)];
        configSent := true;
      }
      // Effect 3
      if connectionStatus == WebSocketHook.Disconnected {
        configSent := false;
      }
      // Effect 4
      unloadGuarded := configSent;
    }

    /** `beforeunload`: the browser asks for confirmation only while the
        listener is registered. */
    method BeforeUnload() returns (prompt: Option<string>)
      ensures prompt == if unloadGuarded then Some(LeaveWarning) else None
    {
      prompt := if unloadGuarded then Some(LeaveWarning) else None;
    }

    /** An in-app navigation to `next`. */
    method Navigate(next: string)
      requires blocker == Unblocked
      modifies this`pathname, this`blocker
      ensures ShouldBlock(configSent, old(pathname), next) ==> blocker == Blocked(next) && pathname == old(pathname)
      ensures !ShouldBlock(configSent, old(pathname), next) ==> blocker == Unblocked && pathname == next
    {
      if ShouldBlock(configSent, pathname, next) {
        blocker := Blocked(next);
      } else {
        pathname := next;
      }
    }

    /** Effect 5, with the user's answer to the confirmation dialog: confirming
        sends `end_session` and proceeds; cancelling resets and sends nothing. */
    method ResolveBlocked(confirmLeave: bool)
      modifies this`pathname, this`blocker, this`sent
      ensures blocker == Unblocked
      ensures old(blocker).Blocked? && confirmLeave ==>
        sent == old(sent) + [EndSessionPayload] && pathname == old(blocker).nextPath
      ensures !(old(blocker).Blocked? && confirmLeave) ==> sent == old(sent) && pathname == old(pathname)
    {
      if blocker.Blocked? {
        if confirmLeave {
          sent := sent + [EndSessionPayload];
          pathname := blocker.nextPath;
        }
        blocker := Unblocked;
      }
    }

    /** The `onEndSession` callback handed to the interface. */
    method EndSession()
      modifies this`sent
      ensures sent == old(sent) + [EndSessionPayload]
    {
      sent := sent + [EndSessionPayload];
    }

    /** The component body: its early returns, in order. `Render` is the
        specification that the properties above are stated over; this method
        is the render the page runs on its fields. */
    method View() returns (v: View)
      ensures v == Render(isLoading, error, connectionStatus, examData.Some?)
    {
      if isLoading {
        v := LoadingView;
      } else if error.Some? && error.value != "" {
        v := ErrorView(error.value);
      } else if connectionStatus == WebSocketHook.Connecting {
        v := ConnectingView;
      } else if examData.None? {
        v := NoExamView;
      } else {
        v := InterfaceView;
      }
    }
  }
}
