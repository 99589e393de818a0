/** `WebsocketSender`: the one field `websocket` that `send_data` opens, drops
    and re-opens, and the event wrappers built on `send_data`. */
module Sender {
  import opened Json
  import opened Transport
  import opened SendPolicy
  import opened SendProperties

  class WebsocketSender {
    var websocket: Handle
    const net: Network

    constructor (net: Network)
      ensures websocket == Absent && this.net == net
    {
      websocket := Absent;
      this.net := net;
    }

    /** The state after a call whose effect the policy describes as `run`,
        given the peer's record before the call. */
    ghost predicate Reflects(run: Run, transmits0: seq<Dict>, attempts0: nat)
      reads this, net
    {
      websocket == run.handle && net.env == run.env &&
      net.transmits == transmits0 + run.transmits &&
      net.connectAttempts == attempts0 + run.connects
    }

    /** `Base.connect()`: the handle is live exactly when the attempt succeeds. */
    method Connect() returns (ok: bool)
      modifies this, net
      ensures ok == old(net.env).ConnectOk()
      ensures websocket == (if ok then Live else Absent)
      ensures net.env == old(net.env).AfterConnect()
      ensures net.transmits == old(net.transmits) && net.connectAttempts == old(net.connectAttempts) + 1
    {
      ok := net.Connect();
      websocket := if ok then Live else Absent;
    }

    /** `send_data(event_type, data, wait_response)`. */
    method SendData(eventType: string, data: Value, waitResponse: bool) returns (r: Value)
      modifies this, net
      decreases |net.env.connects|, 1
      ensures var run := SendPolicy.SendData(old(websocket), old(net.env), eventType, data, waitResponse);
        r == run.result && Reflects(run, old(net.transmits), old(net.connectAttempts))
    {
      ghost var spec := SendPolicy.SendData(websocket, net.env, eventType, data, waitResponse);
      var message := Envelope(eventType, data);
      if websocket == Absent {
        var ok := Connect();
        if !ok {
          assert spec == Run(Null, Absent, net.env, [], 1);
          return Null;
        }
      }
      ghost var c: nat := if old(websocket) == Absent then 1 else 0;
      var exit := TryBlock(message, waitResponse);
      // the handlers
      match exit
      case EarlyTrue =>
        assert spec == Run(Bool(true), Live, net.env, [message], c);
        r := Bool(true);
      case TimeoutError =>
        assert spec == Run(Null, Absent, net.env, [message], c);
        websocket := Absent;
        r := Null;
      case Raised(f) =>
        if Recoverable(f) {
          assert spec == After([message], c, Retry(net.env, eventType, data, 3));
          r := Reconnect(eventType, data);
        } else {
          assert spec == Run(Null, Live, net.env, [message], c);
          r := Null;
        }
      case GotResponse(response) =>
        assert spec == Run(Answer(response), Live, net.env, [message], c);
        r := Answer(response);
    }

    /** The handler of `send_data` for a dropped connection or an undecodable
        reply: drop the handle, then try `connect()` up to three times and
        re-send, waiting for a reply, after the first that succeeds. */
    method Reconnect(eventType: string, data: Value) returns (r: Value)
      modifies this, net
      decreases |net.env.connects|, 0
      ensures var run := Retry(old(net.env), eventType, data, 3);
        r == run.result && Reflects(run, old(net.transmits), old(net.connectAttempts))
    {
      ghost var env0 := net.env;
      websocket := Absent;
      for attempt := 0 to 3
        invariant websocket == Absent
        invariant net.env == env0.AfterConnects(attempt)
        invariant env0.ConnectsFail(attempt)
        invariant net.transmits == old(net.transmits)
        invariant net.connectAttempts == old(net.connectAttempts) + attempt
      {
        var ok := Connect();
        if ok {
          RetryResends(env0, eventType, data, 3, attempt);
          r := SendData(eventType, data, true);
          return;
        }
      }
      RetryGivesUp(env0, eventType, data, 3);
      r := Null;
    }

    /** The `try` block of `send_data` on a live handle: transmit the
        envelope, then, unless fire-and-forget, wait once for the reply. */
    method TryBlock(message: Dict, waitResponse: bool) returns (exit: TryExit)
      modifies net
      ensures (exit, net.env) == SendPolicy.TryBlock(old(net.env), waitResponse)
      ensures net.transmits == old(net.transmits) + [message]
      ensures net.connectAttempts == old(net.connectAttempts)
    {
      var sent := net.Send(message);
      if sent.SendFault? {
        exit := Raised(sent.fault);
      } else if !waitResponse {
        exit := EarlyTrue;
      } else {
        var received := net.Recv();
        match received
        case Reply(response) => exit := GotResponse(response);
        case Timeout => exit := TimeoutError;
        case RecvFault(f) => exit := Raised(f);
      }
    }

    /** `send_player_chat`: the pair `(player, message)` as a fire-and-forget
        `player_chat` event; the coroutine returns nothing. */
    method SendPlayerChat(player: string, message: string)
      modifies this, net
      ensures Reflects(SendPolicy.SendData(old(websocket), old(net.env), "player_chat",
                                           Array([Str(player), Str(message)]), false),
                       old(net.transmits), old(net.connectAttempts))
    {
      var _ := SendData("player_chat", Array([Str(player), Str(message)]), false);
    }

    /** `send_synchronous_message` as written: a `message` event that waits for
        a reply, but whose own result is always `None`. */
    method SendSynchronousMessage(message: string) returns (r: Value)
      modifies this, net
      ensures r == Null
      ensures Reflects(SendPolicy.SendData(old(websocket), old(net.env), "message", Str(message), true),
                       old(net.transmits), old(net.connectAttempts))
    {
      var _ := SendData("message", Str(message), true);
      r := Null;
    }

    /** `send_synchronous_message` as its caller uses it: the outcome of the
        `message` event is handed back. */
    method SendSynchronousMessageReported(message: string) returns (r: Value)
      modifies this, net
      ensures var run := SendPolicy.SendData(old(websocket), old(net.env), "message", Str(message), true);
        r == run.result && Reflects(run, old(net.transmits), old(net.connectAttempts))
    {
      r := SendData("message", Str(message), true);
    }

    /** `send_shutdown`: a `server_shutdown` event without payload;
        `logsSuccess` tells which of its two log lines is written. */
    method SendShutdown() returns (logsSuccess: bool)
      modifies this, net
      ensures var run := SendPolicy.SendData(old(websocket), old(net.env), "server_shutdown", Null, true);
        logsSuccess == Truthy(run.result) && Reflects(run, old(net.transmits), old(net.connectAttempts))
    {
      var r := SendData("server_shutdown", Null, true);
      logsSuccess := Truthy(r);
    }

    /** `send_player_left`: a `player_left` event carrying the player's name. */
    method SendPlayerLeft(player: string) returns (logsSuccess: bool)
      modifies this, net
      ensures var run := SendPolicy.SendData(old(websocket), old(net.env), "player_left", Str(player), true);
        logsSuccess == Truthy(run.result) && Reflects(run, old(net.transmits), old(net.connectAttempts))
    {
      var r := SendData("player_left", Str(player), true);
      logsSuccess := Truthy(r);
    }

    /** `send_player_joined`: a `player_joined` event carrying the player's name. */
    method SendPlayerJoined(player: string) returns (logsSuccess: bool)
      modifies this, net
      ensures var run := SendPolicy.SendData(old(websocket), old(net.env), "player_joined", Str(player), true);
        logsSuccess == Truthy(run.result) && Reflects(run, old(net.transmits), old(net.connectAttempts))
    {
      var r := SendData("player_joined", Str(player), true);
      logsSuccess := Truthy(r);
    }
  }

  /** `send_synchronous_message` as written loses the outcome of the exchange:
      against a peer that accepts the message with `{"success": true, "data":
      "ok"}` it still returns `None`, which its caller reads as a failure,
      while the reporting version returns `"ok"`. */
  method SynchronousMessageDropsReply() returns (asWritten: Value, reported: Value)
    ensures asWritten == Null && !Truthy(asWritten)
    ensures reported == Str("ok") && Truthy(reported)
  {
    var script := Env([true], [Transmitted], [Reply(map["success" := Bool(true), "data" := Str("ok")])]);
    FreshConnectionScenario();
    var peer := new Network(script);
    var sender := new WebsocketSender(peer);
    asWritten := sender.SendSynchronousMessage("hello");
    var peer' := new Network(script);
    var sender' := new WebsocketSender(peer');
    reported := sender'.SendSynchronousMessageReported("hello");
  }
}
