/** The decision logic of `WebsocketSender.send_data` as functions of the
    handle and the peer's script: what the call returns, which handle it leaves
    behind, what it transmits and how many times it connects. */
module SendPolicy {
  import opened Json
  import opened Transport

  /** The sender's `websocket` field: no socket, or a live one. */
  datatype Handle = Absent | Live

  /** What one call did: the value returned (`Null` for `None`), the handle
      left behind, the rest of the script, the envelopes transmitted and the
      connect attempts made, those of nested re-sends included. */
  datatype Run = Run(result: Value, handle: Handle, env: Env, transmits: seq<Dict>, connects: nat)

  /** How the `try` block of the call ended. */
  datatype TryExit =
    | EarlyTrue              // fire-and-forget: `return True` after the transmit
    | GotResponse(response: Dict)
    | TimeoutError
    | Raised(fault: Fault)

  /** The outbound envelope `{type, data?}`. */
  function Envelope(eventType: string, data: Value): (m: Dict)
    ensures "type" in m && m["type"] == Str(eventType)
    ensures "data" in m <==> data != Null
    ensures "data" in m ==> m["data"] == data
    ensures m.Keys <= {"type", "data"}
  {
    var m := map["type" := Str(eventType)];
    if data != Null then m["data" := data] else m
  }

  /** The value of a well-formed reply: its `data` (or `True`) when `success`
      is truthy, `None` otherwise. */
  function Answer(response: Dict): (r: Value)
    ensures Truthy(Get(response, "success", Null)) && "data" in response ==> r == response["data"]
    ensures Truthy(Get(response, "success", Null)) && "data" !in response ==> r == Bool(true)
    ensures !Truthy(Get(response, "success", Null)) ==> r == Null
  {
    if Truthy(Get(response, "success", Null)) then Get(response, "data", Bool(true)) else Null
  }

  /** The `try` block on a live handle: transmit, then (unless fire-and-forget)
      one bounded wait for the decoded reply. */
  function TryBlock(env: Env, waitResponse: bool): (t: (TryExit, Env))
    ensures t.1.connects == env.connects
    ensures t.0.EarlyTrue? <==> !waitResponse && env.NextSend() == Transmitted
    ensures !waitResponse ==> t.1.recvs == env.recvs
    ensures t.0.GotResponse? ==> waitResponse && env.AfterSend().NextRecv() == Reply(t.0.response)
    ensures t.0.TimeoutError? <==> waitResponse && env.NextSend() == Transmitted && env.AfterSend().NextRecv() == Timeout
    ensures t.0.Raised? <==> env.NextSend().SendFault? || (waitResponse && env.AfterSend().NextRecv().RecvFault?)
    ensures t.0.Raised? ==> t.0.fault == (if env.NextSend().SendFault? then env.NextSend().fault
                                          else env.AfterSend().NextRecv().fault)
    ensures t.1.sends == env.AfterSend().sends
    ensures t.1.recvs == (if waitResponse && env.NextSend() == Transmitted then env.AfterSend().AfterRecv().recvs
                          else env.recvs)
  {
    var env1 := env.AfterSend();
    match env.NextSend()
    case SendFault(f) => (Raised(f), env1)
    case Transmitted =>
      if !waitResponse then (EarlyTrue, env1)
      else
        var env2 := env1.AfterRecv();
        match env1.NextRecv()
        case Reply(response) => (GotResponse(response), env2)
        case Timeout => (TimeoutError, env2)
        case RecvFault(f) => (Raised(f), env2)
  }

  /** The script once the handle is live: a missing handle is opened first. */
  function Opened(h: Handle, env: Env): Env {
    if h == Absent then env.AfterConnect() else env
  }

  /** `run` preceded by the transmits `sent` and `n` connect attempts. */
  function After(sent: seq<Dict>, n: nat, run: Run): Run {
    run.(transmits := sent + run.transmits, connects := n + run.connects)
  }

  /** One call `send_data(eventType, data, waitResponse)` made with handle `h`
      against the script `env`. Every transmit carries the same envelope, a
      value other than `None` is only ever returned over a live handle after a
      transmit, and there are at most three connect attempts per transmit
      besides the one that opens a missing handle. */
  function SendData(h: Handle, env: Env, eventType: string, data: Value, waitResponse: bool): (run: Run)
    decreases |env.connects|, 1, 0
    ensures forall i :: 0 <= i < |run.transmits| ==> run.transmits[i] == Envelope(eventType, data)
    ensures run.result != Null ==> run.handle == Live && run.transmits != []
    ensures |run.transmits| <= run.connects + 1
    ensures run.connects <= 3 * |run.transmits| + (if h == Absent then 1 else 0)
  {
    if h == Absent && !env.ConnectOk() then
      Run(Null, Absent, env.AfterConnect(), [], 1)
    else
      var c := if h == Absent then 1 else 0;
      var m := Envelope(eventType, data);
      var t := TryBlock(Opened(h, env), waitResponse);
      var env2 := t.1;
      match t.0
      case EarlyTrue => Run(Bool(true), Live, env2, [m], c)
      case TimeoutError => Run(Null, Absent, env2, [m], c)
      case Raised(f) =>
        if Recoverable(f) then After([m], c, Retry(env2, eventType, data, 3))
        else Run(Null, Live, env2, [m], c)
      case GotResponse(response) => Run(Answer(response), Live, env2, [m], c)
  }

  /** The reconnect loop after a dropped connection, with `k` attempts left:
      the first successful `connect()` hands over to a re-send that waits for
      a reply; when every attempt fails the handle stays absent and the result
      is `None`. */
  function Retry(env: Env, eventType: string, data: Value, k: nat): (run: Run)
    decreases |env.connects|, 0, k
    ensures forall i :: 0 <= i < |run.transmits| ==> run.transmits[i] == Envelope(eventType, data)
    ensures run.result != Null ==> run.handle == Live && run.transmits != []
    ensures run.transmits == [] ==> run.handle == Absent
    ensures |run.transmits| <= run.connects
    ensures run.connects <= k + 3 * |run.transmits|
  {
    if k == 0 then Run(Null, Absent, env, [], 0)
    else if env.ConnectOk() then After([], 1, SendData(Live, env.AfterConnect(), eventType, data, true))
    else After([], 1, Retry(env.AfterConnect(), eventType, data, k - 1))
  }
}
