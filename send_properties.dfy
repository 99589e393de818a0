/** What `send_data` promises, stated over the policy functions: one lemma per
    outcome of the call, the shape of the reconnect loop, and two worked
    scenarios (a fresh connection, and an exchange recovered after the peer
    closed the socket). */
module SendProperties {
  import opened Json
  import opened Transport
  import opened SendPolicy

  /** When every one of the `k` connect attempts fails, the loop gives up:
      `None`, the handle absent, nothing transmitted, exactly `k` attempts. */
  lemma {:induction false} RetryGivesUp(env: Env, eventType: string, data: Value, k: nat)
    requires env.ConnectsFail(k)
    decreases k
    ensures Retry(env, eventType, data, k) == Run(Null, Absent, env.AfterConnects(k), [], k)
  {
    if k > 0 {
      var next := env.AfterConnect();
      assert !env.ConnectOk();
      assert next.ConnectsFail(k - 1) by {
        forall j | 0 <= j < k - 1 && j < |next.connects|
          ensures !next.connects[j]
        {
          assert next.connects[j] == env.connects[j + 1];
        }
      }
      RetryGivesUp(next, eventType, data, k - 1);
      assert next.AfterConnects(k - 1) == env.AfterConnects(k);
    }
  }

  /** When attempt `j` of the loop is the first to connect, the loop ends in a
      re-send of the same event and payload that waits for a reply, after
      `j + 1` attempts. */
  lemma {:induction false} RetryResends(env: Env, eventType: string, data: Value, k: nat, j: nat)
    requires j < k && j < |env.connects| && env.connects[j] && env.ConnectsFail(j)
    decreases j
    ensures Retry(env, eventType, data, k)
         == After([], j + 1, SendData(Live, env.AfterConnects(j + 1), eventType, data, true))
  {
    if j > 0 {
      var next := env.AfterConnect();
      assert !env.connects[0];
      assert next.connects[j - 1] == env.connects[j];
      assert next.ConnectsFail(j - 1) by {
        forall i | 0 <= i < j - 1 && i < |next.connects|
          ensures !next.connects[i]
        {
          assert next.connects[i] == env.connects[i + 1];
        }
      }
      RetryResends(next, eventType, data, k - 1, j - 1);
      assert next.AfterConnects(j) == env.AfterConnects(j + 1);
    }
  }

  /** The number of connect attempts spent opening a missing handle. */
  function Opening(h: Handle): nat {
    if h == Absent then 1 else 0
  }

  /** No handle and the one connect attempt fails: `None`, nothing transmitted,
      the handle still absent, no reconnect loop. */
  lemma UnreachableGivesUp(env: Env, eventType: string, data: Value, waitResponse: bool)
    requires !env.ConnectOk()
    ensures SendData(Absent, env, eventType, data, waitResponse)
         == Run(Null, Absent, env.AfterConnect(), [], 1)
  {
  }

  /** Fire-and-forget: a transmit that goes through returns `True` at once,
      leaves the handle live and receives nothing. */
  lemma FireAndForget(h: Handle, env: Env, eventType: string, data: Value)
    requires h == Live || env.ConnectOk()
    requires Opened(h, env).NextSend() == Transmitted
    ensures var run := SendData(h, env, eventType, data, false);
      run.result == Bool(true) && run.handle == Live &&
      run.transmits == [Envelope(eventType, data)] && run.connects == Opening(h) &&
      run.env.recvs == env.recvs
  {
  }

  /** A timeout ends the call: `None`, the handle dropped, exactly one
      transmit and no reconnect attempt. */
  lemma TimeoutIsTerminal(h: Handle, env: Env, eventType: string, data: Value)
    requires h == Live || env.ConnectOk()
    requires Opened(h, env).NextSend() == Transmitted
    requires Opened(h, env).AfterSend().NextRecv() == Timeout
    ensures var run := SendData(h, env, eventType, data, true);
      run.result == Null && run.handle == Absent &&
      run.transmits == [Envelope(eventType, data)] && run.connects == Opening(h) &&
      run.env.connects == Opened(h, env).connects
  {
  }

  /** A well-formed reply decides the result: with a truthy `success` its
      `data`, or `True` without one; otherwise `None`, reported and never
      retried. Either way the handle stays live. */
  lemma ReplyDecides(h: Handle, env: Env, eventType: string, data: Value, response: Dict)
    requires h == Live || env.ConnectOk()
    requires Opened(h, env).NextSend() == Transmitted
    requires Opened(h, env).AfterSend().NextRecv() == Reply(response)
    ensures var run := SendData(h, env, eventType, data, true);
      var success := Truthy(Get(response, "success", Null));
      run.handle == Live && run.transmits == [Envelope(eventType, data)] &&
      run.connects == Opening(h) &&
      (success && "data" in response ==> run.result == response["data"]) &&
      (success && "data" !in response ==> run.result == Bool(true)) &&
      (!success ==> run.result == Null)
  {
  }

  /** Any other exception: `None`, and the live handle is kept. */
  lemma UnexpectedFaultKeepsHandle(h: Handle, env: Env, eventType: string, data: Value, waitResponse: bool)
    requires h == Live || env.ConnectOk()
    requires TryBlock(Opened(h, env), waitResponse).0 == Raised(Unexpected)
    ensures var run := SendData(h, env, eventType, data, waitResponse);
      run.result == Null && run.handle == Live &&
      run.transmits == [Envelope(eventType, data)] && run.connects == Opening(h)
  {
  }

  /** A dropped connection or an undecodable reply, followed by three failed
      connect attempts: `None`, the handle absent, one transmit, and exactly
      three attempts after the one that opened the handle, if any. */
  lemma DroppedConnectionGivesUp(h: Handle, env: Env, eventType: string, data: Value, waitResponse: bool)
    requires h == Live || env.ConnectOk()
    requires TryBlock(Opened(h, env), waitResponse).0.Raised?
    requires Recoverable(TryBlock(Opened(h, env), waitResponse).0.fault)
    requires TryBlock(Opened(h, env), waitResponse).1.ConnectsFail(3)
    ensures SendData(h, env, eventType, data, waitResponse)
         == Run(Null, Absent, TryBlock(Opened(h, env), waitResponse).1.AfterConnects(3),
                [Envelope(eventType, data)], Opening(h) + 3)
  {
    RetryGivesUp(TryBlock(Opened(h, env), waitResponse).1, eventType, data, 3);
  }

  /** A dropped connection or an undecodable reply, where reconnect attempt
      `j` (of at most three) is the first to succeed: the call's outcome is
      that of a fresh `send_data(eventType, data)`, which waits for a reply
      whatever `waitResponse` was, behind the first transmit and `j + 1`
      attempts. */
  lemma DroppedConnectionResends(h: Handle, env: Env, eventType: string, data: Value, waitResponse: bool, j: nat)
    requires h == Live || env.ConnectOk()
    requires TryBlock(Opened(h, env), waitResponse).0.Raised?
    requires Recoverable(TryBlock(Opened(h, env), waitResponse).0.fault)
    requires j < 3 && j < |TryBlock(Opened(h, env), waitResponse).1.connects|
    requires TryBlock(Opened(h, env), waitResponse).1.connects[j]
    requires TryBlock(Opened(h, env), waitResponse).1.ConnectsFail(j)
    ensures SendData(h, env, eventType, data, waitResponse)
         == After([Envelope(eventType, data)], Opening(h) + j + 1,
                  SendData(Live, TryBlock(Opened(h, env), waitResponse).1.AfterConnects(j + 1),
                           eventType, data, true))
  {
    RetryResends(TryBlock(Opened(h, env), waitResponse).1, eventType, data, 3, j);
  }

  /** A peer that accepts `n` reconnects and drops every transmit. */
  function Dropping(n: nat): Env {
    Env(seq(n, _ => true) + [false, false, false], seq(n + 1, _ => SendFault(ConnectionClosed)), [])
  }

  /** The three-attempt bound holds per nesting level only: each re-send that
      is dropped again opens a fresh loop, so against `Dropping(n)` one call
      transmits `n + 1` times and makes `n + 3` connect attempts. */
  lemma {:induction false} RetriesAreUnbounded(n: nat, eventType: string, data: Value, waitResponse: bool)
    decreases n
    ensures var run := SendData(Live, Dropping(n), eventType, data, waitResponse);
      run.result == Null && run.handle == Absent &&
      |run.transmits| == n + 1 && run.connects == n + 3
  {
    var env := Dropping(n);
    var rest := env.AfterSend();
    assert env.NextSend() == SendFault(ConnectionClosed);
    assert rest.sends == seq(n, _ => SendFault(ConnectionClosed));
    if n == 0 {
      RetryGivesUp(rest, eventType, data, 3);
    } else {
      assert rest.ConnectOk();
      assert rest.AfterConnect() == Dropping(n - 1);
      RetriesAreUnbounded(n - 1, eventType, data, true);
    }
  }

  /** A fresh connection whose exchange is answered with `{"success": true,
      "data": "ok"}` returns `"ok"`. */
  lemma FreshConnectionScenario()
    ensures var run := SendData(Absent, Env([true], [Transmitted], [Reply(map["success" := Bool(true), "data" := Str("ok")])]),
                                "message", Str("hello"), true);
      run.result == Str("ok") && run.handle == Live && |run.transmits| == 1 && run.connects == 1
  {
  }

  /** The peer closes the socket before replying, the reconnect succeeds and
      the re-send is answered: the call succeeds after exactly two transmits. */
  lemma RecoveredExchangeScenario()
    ensures var run := SendData(Live, Env([true], [Transmitted, Transmitted],
                                          [RecvFault(ConnectionClosed), Reply(map["success" := Bool(true)])]),
                                "message", Str("hello"), true);
      run.result == Bool(true) && run.handle == Live && |run.transmits| == 2 && run.connects == 1
  {
  }
}
