/** The WebSocket hook (frontend/src/hooks/useWebSocket.ts): one socket per
    `url`, a `connectionStatus` of connecting / connected / disconnected driven
    by the socket callbacks, `lastMessage` replaced by every message, and a send
    that goes out only while the current socket is OPEN. There is no reconnect:
    a socket is created only on mount and when `url` changes. */
module WebSocketHook {
  import opened Base

  datatype Status = Connecting | Connected | Disconnected

  /** The browser's `WebSocket.readyState`. */
  datatype ReadyState = SocketConnecting | SocketOpen | SocketClosing | SocketClosed

  datatype Socket = Socket(url: string, readyState: ReadyState)

  /** A message handed to a socket's `send`, by the socket's index. */
  datatype Outgoing = Outgoing(socket: nat, data: string)

  /** The hook's state plus every socket it ever created (the last is `wsRef.current`)
      and everything actually sent. */
  datatype HookState = HookState(
    url: string,
    status: Status,
    lastMessage: Option<string>,
    sockets: seq<Socket>,
    sent: seq<Outgoing>)

  ghost predicate Valid(s: HookState) {
    && |s.sockets| >= 1 && s.sockets[|s.sockets| - 1].url == s.url
    && (forall k :: 0 <= k < |s.sockets| - 1 ==> s.sockets[k].readyState in {SocketClosing, SocketClosed})
    && (forall k :: 0 <= k < |s.sent| ==> s.sent[k].socket < |s.sockets|)
  }

  function Current(s: HookState): Socket
    requires |s.sockets| >= 1
  {
    s.sockets[|s.sockets| - 1]
  }

  /** What the browser reports about socket number `socket`. */
  datatype SocketEvent =
    | Opened(socket: nat)
    | MessageReceived(socket: nat, data: string)
    | Closed(socket: nat)
    | Errored(socket: nat)

  /** First render and the mount effect: one new socket, status 'connecting'. */
  function Mount(url: string): (s: HookState)
    ensures Valid(s) && s.status == Connecting && s.lastMessage == None
    ensures |s.sockets| == 1 && Current(s).readyState == SocketConnecting && s.sent == []
  {
    HookState(url, Connecting, None, [Socket(url, SocketConnecting)], [])
  }

  function SetReadyState(sockets: seq<Socket>, i: nat, rs: ReadyState): (r: seq<Socket>)
    requires i < |sockets|
    ensures |r| == |sockets|
    ensures forall k :: 0 <= k < |sockets| ==> r[k].url == sockets[k].url
  {
    sockets[i := sockets[i].(readyState := rs)]
  }

  /** The socket callbacks: `onopen`, `onmessage`, `onclose`, `onerror`. They are
      attached to each socket for its whole life, so an old socket's events still
      reach the hook. */
  function OnEvent(s: HookState, ev: SocketEvent): (r: HookState)
    requires ev.socket < |s.sockets|
    ensures |r.sockets| == |s.sockets| && r.url == s.url && r.sent == s.sent
    ensures forall k :: 0 <= k < |s.sockets| && k != ev.socket ==> r.sockets[k] == s.sockets[k]
    ensures ev.MessageReceived? ==> r == s.(lastMessage := Some(ev.data))
    ensures ev.Opened? ==> r.status == Connected && r.sockets[ev.socket].readyState == SocketOpen
    ensures (ev.Closed? || ev.Errored?) ==> r.status == Disconnected && r.sockets[ev.socket].readyState == SocketClosed
  {
    match ev
    case Opened(i) => s.(status := Connected, sockets := SetReadyState(s.sockets, i, SocketOpen))
    case MessageReceived(_, data) => s.(lastMessage := Some(data))
    case Closed(i) => s.(status := Disconnected, sockets := SetReadyState(s.sockets, i, SocketClosed))
    case Errored(i) => s.(status := Disconnected, sockets := SetReadyState(s.sockets, i, SocketClosed))
  }

  /** Closing a socket from this side (`ws.close()`). */
  function CloseState(rs: ReadyState): ReadyState {
    if rs == SocketClosed then SocketClosed else SocketClosing
  }

  /** A render with a new `url`: the effect's cleanup closes the current socket and
      the effect opens one for the new url. The status is left as it was. */
  function ChangeUrl(s: HookState, url: string): (r: HookState)
    requires |s.sockets| >= 1
    ensures r.url == url && r.status == s.status && r.sent == s.sent && r.lastMessage == s.lastMessage
    ensures url == s.url ==> r == s
    ensures url != s.url ==> |r.sockets| == |s.sockets| + 1 && Current(r) == Socket(url, SocketConnecting)
    ensures url != s.url ==> r.sockets[|s.sockets| - 1].readyState in {SocketClosing, SocketClosed}
    ensures forall k :: 0 <= k < |s.sockets| - 1 ==> r.sockets[k] == s.sockets[k]
  {
    if url == s.url then s
    else
      var last := |s.sockets| - 1;
      var closed := SetReadyState(s.sockets, last, CloseState(s.sockets[last].readyState));
      s.(url := url, sockets := closed + [Socket(url, SocketConnecting)])
  }

  /** `sendMessage`: the message goes to the current socket only when it is OPEN. */
  function SendMessage(s: HookState, data: string): (r: HookState)
    requires |s.sockets| >= 1
    ensures r.sockets == s.sockets && r.status == s.status && s.sent <= r.sent
    ensures |r.sent| > |s.sent| <==> Current(s).readyState == SocketOpen
    ensures |r.sent| > |s.sent| ==> r.sent == s.sent + [Outgoing(|s.sockets| - 1, data)]
  {
    if Current(s).readyState == SocketOpen then s.(sent := s.sent + [Outgoing(|s.sockets| - 1, data)])
    else s
  }

  /** Everything that can happen to the hook. */
  datatype Action = Browser(ev: SocketEvent) | NewUrl(url: string) | Send(data: string)

  /** Only events that the browser can deliver: each names an existing socket; an
      open comes from a connecting socket, and a message from an open one; a close
      or error from a socket not yet closed. */
  predicate Possible(s: HookState, a: Action) {
    match a
    case Browser(ev) =>
      ev.socket < |s.sockets| &&
      (match ev
       case Opened(i) => s.sockets[i].readyState == SocketConnecting
       case MessageReceived(i, _) => s.sockets[i].readyState == SocketOpen
       case Closed(i) => s.sockets[i].readyState != SocketClosed
       case Errored(i) => s.sockets[i].readyState != SocketClosed)
    case NewUrl(_) => true
    case Send(_) => true
  }

  function Apply(s: HookState, a: Action): HookState
    requires |s.sockets| >= 1 && Possible(s, a)
  {
    match a
    case Browser(ev) => OnEvent(s, ev)
    case NewUrl(url) => ChangeUrl(s, url)
    case Send(data) => SendMessage(s, data)
  }

  lemma ApplyKeepsSockets(s: HookState, a: Action)
    requires |s.sockets| >= 1 && Possible(s, a)
    ensures |Apply(s, a).sockets| >= |s.sockets|
  {
  }

  /** The actions of `acts` can be delivered one after the other from `s`. */
  predicate PossibleRun(s: HookState, acts: seq<Action>)
    requires |s.sockets| >= 1
    decreases |acts|
  {
    |acts| == 0 || (Possible(s, acts[0]) && (ApplyKeepsSockets(s, acts[0]); PossibleRun(Apply(s, acts[0]), acts[1..])))
  }

  function Run(s: HookState, acts: seq<Action>): HookState
    requires |s.sockets| >= 1 && PossibleRun(s, acts)
    decreases |acts|
  {
    if |acts| == 0 then s
    else
      ApplyKeepsSockets(s, acts[0]);
      Run(Apply(s, acts[0]), acts[1..])
  }

  /** The number of actions in `acts` that switch to a url other than the one
      current at that point, starting from `url`. */
  function UrlSwitches(url: string, acts: seq<Action>): nat
    decreases |acts|
  {
    if |acts| == 0 then 0
    else if acts[0].NewUrl? then
      (if acts[0].url != url then 1 else 0) + UrlSwitches(acts[0].url, acts[1..])
    else UrlSwitches(url, acts[1..])
  }

  // ---------------------------------------------------------------------------
  // Properties

  /** Open moves the status to 'connected'; close and error move it to
      'disconnected'; a message only replaces `lastMessage`. */
  lemma StatusTransitions(s: HookState, ev: SocketEvent)
    requires ev.socket < |s.sockets|
    ensures ev.Opened? ==> OnEvent(s, ev).status == Connected
    ensures ev.Closed? || ev.Errored? ==> OnEvent(s, ev).status == Disconnected
    ensures ev.MessageReceived? ==> OnEvent(s, ev) == s.(lastMessage := Some(ev.data))
  {
  }

  /** A send goes out, to the current socket, exactly when that socket is OPEN;
      otherwise it is dropped. */
  lemma SendGuard(s: HookState, data: string)
    requires |s.sockets| >= 1
    ensures Current(s).readyState == SocketOpen <==> |SendMessage(s, data).sent| == |s.sent| + 1
    ensures Current(s).readyState == SocketOpen ==>
      SendMessage(s, data).sent == s.sent + [Outgoing(|s.sockets| - 1, data)]
    ensures Current(s).readyState != SocketOpen ==> SendMessage(s, data) == s
  {
  }

  /** New sockets appear only when the url changes, one per change; the sockets
      already created keep their urls. */
  lemma {:induction false} SocketsOnlyForNewUrls(s: HookState, acts: seq<Action>)
    requires Valid(s) && PossibleRun(s, acts)
    ensures var t := Run(s, acts);
      && Valid(t)
      && |t.sockets| == |s.sockets| + UrlSwitches(s.url, acts)
      && forall k :: 0 <= k < |s.sockets| ==> t.sockets[k].url == s.sockets[k].url
    decreases |acts|
  {
    if |acts| > 0 {
      ApplyKeepsSockets(s, acts[0]);
      var s1 := Apply(s, acts[0]);
      assert Valid(s1);
      SocketsOnlyForNewUrls(s1, acts[1..]);
    }
  }

  /** Without a url change there is no reconnect: once the current socket has
      closed, the status is never 'connected' again and nothing more is sent. */
  lemma {:induction false} NoReconnect(s: HookState, acts: seq<Action>)
    requires Valid(s) && PossibleRun(s, acts)
    requires Current(s).readyState == SocketClosed && s.status == Disconnected
    requires forall k :: 0 <= k < |acts| ==> !acts[k].NewUrl?
    ensures var t := Run(s, acts);
      && |t.sockets| == |s.sockets| && Current(t).readyState == SocketClosed
      && t.status == Disconnected && t.sent == s.sent
    decreases |acts|
  {
    if |acts| > 0 {
      ApplyKeepsSockets(s, acts[0]);
      var s1 := Apply(s, acts[0]);
      assert Valid(s1);
      forall k | 0 <= k < |acts[1..]| ensures !acts[1..][k].NewUrl? {
        assert acts[1..][k] == acts[k + 1];
      }
      NoReconnectStep(s, acts[0]);
      NoReconnect(s1, acts[1..]);
    }
  }

  lemma NoReconnectStep(s: HookState, a: Action)
    requires Valid(s) && Possible(s, a) && !a.NewUrl?
    requires Current(s).readyState == SocketClosed && s.status == Disconnected
    ensures var t := Apply(s, a);
      |t.sockets| == |s.sockets| && Current(t).readyState == SocketClosed
      && t.status == Disconnected && t.sent == s.sent
  {
  }

  /** The callbacks are never detached: after the url changes and the new socket
      opens, the old socket's close event still sets the status to 'disconnected'
      while the current socket is open. */
  lemma StaleCloseStillCounts(url1: string, url2: string)
    requires url1 != url2
    ensures var s0 := Mount(url1);
      var s1 := ChangeUrl(s0, url2);
      var s2 := OnEvent(s1, Opened(1));
      var s3 := OnEvent(s2, Closed(0));
      && s2.status == Connected && s3.status == Disconnected
      && Current(s3).readyState == SocketOpen
  {
  }

  /** The hook as a component instance, holding the same state in its fields. */
  class WebSocketHookInstance {
    var url: string
    var connectionStatus: Status
    var lastMessage: Option<string>
    var sockets: seq<Socket>
    var sent: seq<Outgoing>

    function State(): HookState
      reads this
    {
      HookState(url, connectionStatus, lastMessage, sockets, sent)
    }

    constructor (u: string)
      ensures State() == Mount(u)
    {
      url := u;
      connectionStatus := Connecting;
      lastMessage := None;
      sockets := [Socket(u, SocketConnecting)];
      sent := [];
    }

    /** `ws.onopen`. */
    method OnOpen(i: nat)
      requires i < |sockets|
      modifies this`connectionStatus, this`sockets
      ensures State() == OnEvent(old(State()), Opened(i))
    {
      sockets := sockets[i := sockets[i].(readyState := SocketOpen)];
      connectionStatus := Connected;
    }

    /** `ws.onmessage`. */
    method OnMessage(i: nat, data: string)
      requires i < |sockets|
      modifies this`lastMessage
      ensures State() == OnEvent(old(State()), MessageReceived(i, data))
    {
      lastMessage := Some(data);
    }

    /** `ws.onclose`. */
    method OnClose(i: nat)
      requires i < |sockets|
      modifies this`connectionStatus, this`sockets
      ensures State() == OnEvent(old(State()), Closed(i))
    {
      sockets := sockets[i := sockets[i].(readyState := SocketClosed)];
      connectionStatus := Disconnected;
    }

    /** `ws.onerror`. */
    method OnError(i: nat)
      requires i < |sockets|
      modifies this`connectionStatus, this`sockets
      ensures State() == OnEvent(old(State()), Errored(i))
    {
      sockets := sockets[i := sockets[i].(readyState := SocketClosed)];
      connectionStatus := Disconnected;
    }

    /** A render with url `u`: the effect re-runs only when the url differs. */
    method Rerender(u: string)
      requires |sockets| >= 1
      modifies this`url, this`sockets
      ensures State() == ChangeUrl(old(State()), u)
    {
      if u != url {
        var last := |sockets| - 1;
        sockets := sockets[last := sockets[last].(readyState := CloseState(sockets[last].readyState))];
        sockets := sockets + [Socket(u, SocketConnecting)];
        url := u;
      }
    }

    /** `sendMessage`. */
    method Send(data: string)
      requires |sockets| >= 1
      modifies this`sent
      ensures State() == SendMessage(old(State()), data)
    {
      if sockets[|sockets| - 1].readyState == SocketOpen {
        sent := sent + [Outgoing(|sockets| - 1, data)];
      }
    }
  }
}
