# QQBot websocket sender, modelled in Dafny

The QQBot plugin relays game-server events (chat, players joining and
leaving, shutdown, messages typed with `!!qq`) to a chat bot over one
websocket. `WebsocketSender.send_data` is the heart of it. It holds one field,
`websocket`, which is either absent or a live socket, and it decides for every
outcome of connecting, transmitting and waiting for the reply what to return
and what to do with that field:

- no socket: connect once, give up on failure;
- fire-and-forget: return `True` after the transmit;
- timeout: drop the socket and return `None`;
- dropped connection or undecodable reply: drop the socket, try `connect()` up
  to three times, and after the first success re-send (waiting for a reply);
- any other exception: return `None` and keep the socket;
- a reply: its `data` (or `True`) when `success` is truthy, `None` otherwise.

The peer is an abstract, scripted environment: three queues of outcomes, for
`connect()`, for the transmit and for the receive-and-decode, consumed in
order. A queue that has run dry stands for a peer that can no longer be
reached: connecting fails, and transmitting or receiving raises a connection
error.

Files:

- `json.dfy` (module `Json`): decoded JSON values, Python truthiness, `dict.get`.
  `Null` is Python's `None`, so a reply whose `data` is `null` yields `None`, as
  it does in Python.
- `transport.dfy` (module `Transport`): the fault classes, the scripted
  environment `Env`, and the class `Network`. `Network` plays the script and
  records every envelope handed to it and every connect attempt.
- `send_policy.dfy` (module `SendPolicy`): `send_data` as functions of the
  handle and the script. `SendData` and `Retry` (the reconnect loop) are
  mutually recursive. They terminate because a re-send only follows a
  successful `connect()`, which shortens the connect queue. A `Run` records
  the result, the final handle, the rest of the script, the transmitted
  envelopes and the number of connect attempts.
- `send_properties.dfy` (module `SendProperties`): one lemma per outcome of the
  call, the shape of the reconnect loop, and two worked scenarios.
- `sender.dfy` (module `Sender`): the class `WebsocketSender`. Its field
  `websocket` is updated in place. `SendData` calls itself recursively, and its
  reconnect loop is a `for` loop with invariants. Every method is proved equal
  to the policy functions. The event wrappers are methods too.

`SendData` is split into three methods so that each proof stays small. The
`try` block (Sender.py:24-32) is `TryBlock`. The handler for dropped
connections (Sender.py:37-43) is `Reconnect`. The other handlers stay in
`SendData`. The behaviour is the same as one method.

Two natural readings of the retry and reply rules do not match the code; the
model follows the code:

- A reading of the retry as "at most three reconnect-and-resend attempts per
  call" is wrong. The code allows three attempts per nesting level. Each
  re-send that drops again starts a fresh loop of three, so one call can
  transmit any number of times (`RetriesAreUnbounded`). What does hold is at
  most three attempts per transmit (`SendPolicy.SendData`, `SendPolicy.Retry`).
- `success` is not required to be a boolean. The code tests its Python
  truthiness, and so does the model.

## Model

| member | source | states |
|---|---|---|
| `SendPolicy.Envelope` | QQBot/qq_bot/Webscoket/Sender.py:16-18 | the envelope always has key `type` set to the event type; it has key `data`, holding the payload, exactly when the payload is not `None`; it has no other keys |
| `Json.Truthy` | QQBot/qq_bot/Webscoket/Sender.py:48 | a value is truthy exactly when it is none of `None`, `False`, `0`, `""`, `[]`, `{}`, as Python's `if` tests it at lines 48, 61, 67 and 73 |
| `Json.Get` | QQBot/qq_bot/Webscoket/Sender.py:48-49 | `d.get(key, default)`: the stored value when the key is present, the default otherwise |
| `SendPolicy.Answer` | QQBot/qq_bot/Webscoket/Sender.py:47-50 | a truthy `success` gives the reply's `data`, or `True` when it is missing; otherwise `None` |
| `SendPolicy.TryBlock` | QQBot/qq_bot/Webscoket/Sender.py:24-32 | the `try` block attempts no connect; it returns early with `True` exactly when the transmit goes through and no reply is awaited, and then receives nothing; a response is only received when awaited; it times out exactly when the transmit goes through and the awaited receive times out; it raises exactly when the transmit raises or the awaited receive raises, and then with the fault of the transmit if it raised, else that of the receive; afterwards one send outcome is used up, and one receive outcome exactly when the transmit went through and a reply was awaited |
| `Transport.Recoverable` | QQBot/qq_bot/Webscoket/Sender.py:37-46 | every fault except "any other exception" (a closed connection, an undecodable reply, a connection error) is one the reconnect handler catches; only the remaining exceptions fall through to the catch-all |
| `SendPolicy.SendData` | QQBot/qq_bot/Webscoket/Sender.py:15-50 | every transmit of a call, nested re-sends included, carries the same envelope; a result other than `None` means the handle is live and something was transmitted; there are at most one more transmit than connect attempts; there are at most three connect attempts per transmit, plus the one that opens a missing handle |
| `SendPolicy.Retry` | QQBot/qq_bot/Webscoket/Sender.py:38-43 | the reconnect loop with `k` attempts left: the same envelope on every transmit; a non-`None` result only over a live handle; with no transmit the handle stays absent; at least one connect attempt per transmit; at most `k` attempts plus three per transmit |
| `SendProperties.RetryGivesUp` | QQBot/qq_bot/Webscoket/Sender.py:40-43 | when all `k` connect attempts fail, the loop returns `None` after exactly `k` attempts, with nothing transmitted and the handle absent |
| `SendProperties.RetryResends` | QQBot/qq_bot/Webscoket/Sender.py:40-42 | when attempt `j` is the first to connect, the loop's outcome is that of `send_data(event_type, data)` on the live handle with `wait_response` true, after `j + 1` attempts |
| `SendProperties.UnreachableGivesUp` | QQBot/qq_bot/Webscoket/Sender.py:19-22 | no handle and a failed connect: `None`, nothing transmitted, the handle still absent, exactly one connect attempt |
| `SendProperties.FireAndForget` | QQBot/qq_bot/Webscoket/Sender.py:25-28 | with `wait_response` false, a transmit that goes through returns `True`, leaves the handle live, transmits the envelope once and receives nothing |
| `SendProperties.TimeoutIsTerminal` | QQBot/qq_bot/Webscoket/Sender.py:31-36 | a timeout returns `None` and drops the handle, after exactly one transmit and with no reconnect attempt |
| `SendProperties.ReplyDecides` | QQBot/qq_bot/Webscoket/Sender.py:47-50 | a reply with truthy `success` returns its `data`, or `True` when it has none; any other reply returns `None` with no reconnect and no re-send; the handle stays live |
| `SendProperties.UnexpectedFaultKeepsHandle` | QQBot/qq_bot/Webscoket/Sender.py:44-46 | any other exception returns `None` and leaves the live handle in place, with one transmit and no reconnect |
| `SendProperties.DroppedConnectionGivesUp` | QQBot/qq_bot/Webscoket/Sender.py:37-43 | a dropped connection or an undecodable reply followed by three failed connects: `None`, the handle absent, one transmit, exactly three reconnect attempts |
| `SendProperties.DroppedConnectionResends` | QQBot/qq_bot/Webscoket/Sender.py:37-42 | a dropped connection or an undecodable reply where reconnect `j < 3` is the first to succeed: the call's outcome is that of a fresh `send_data(event_type, data)` that waits for a reply whatever `wait_response` was |
| `SendProperties.RetriesAreUnbounded` | QQBot/qq_bot/Webscoket/Sender.py:40-42 | against a peer that accepts `n` reconnects and drops every transmit, one call transmits `n + 1` times and makes `n + 3` connect attempts before it returns `None` |
| `SendProperties.FreshConnectionScenario` | QQBot/qq_bot/Webscoket/Sender.py:15-49 | with no handle, a successful connect and the reply `{"success": true, "data": "ok"}`, the call returns `"ok"` |
| `SendProperties.RecoveredExchangeScenario` | QQBot/qq_bot/Webscoket/Sender.py:24-49 | the peer closes before replying, the reconnect succeeds and the re-send is answered: the call succeeds after exactly two transmits |
| `Transport.Network.Connect` | QQBot/qq_bot/Webscoket/Sender.py:20 | a connect attempt takes the next scripted outcome and is counted |
| `Transport.Network.Send` | QQBot/qq_bot/Webscoket/Sender.py:25 | a transmit takes the next scripted outcome and records the envelope |
| `Transport.Network.Recv` | QQBot/qq_bot/Webscoket/Sender.py:31 | a receive takes the next scripted outcome and transmits nothing |
| `Sender.WebsocketSender.constructor` | QQBot/qq_bot/Webscoket/Sender.py:12-13 | a new sender has no socket |
| `Sender.WebsocketSender.Connect` | QQBot/qq_bot/Webscoket/Sender.py:19-20 | `connect()` makes the handle live exactly when it returns true |
| `Sender.WebsocketSender.SendData` | QQBot/qq_bot/Webscoket/Sender.py:15-50 | the result, the new handle, the transmitted envelopes and the connect attempts are those of `SendPolicy.SendData` on the handle and script before the call |
| `Sender.WebsocketSender.Reconnect` | QQBot/qq_bot/Webscoket/Sender.py:37-43 | the handle is dropped, and the result and new state are those of `SendPolicy.Retry` with three attempts |
| `Sender.WebsocketSender.TryBlock` | QQBot/qq_bot/Webscoket/Sender.py:24-32 | one transmit of the envelope, then a receive only when a reply is awaited; the exit is the one `SendPolicy.TryBlock` gives |
| `Sender.WebsocketSender.SendPlayerChat` | QQBot/qq_bot/Webscoket/Sender.py:53-54 | sends a `player_chat` event with the payload `(player, message)`, fire-and-forget, and changes nothing beyond that send |
| `Sender.WebsocketSender.SendSynchronousMessage` | QQBot/qq_bot/Webscoket/Sender.py:56-58 | sends a `message` event with the text, waiting for a reply, and returns `None` whatever the outcome |
| `Sender.WebsocketSender.SendSynchronousMessageReported` | QQBot/qq_bot/Webscoket/Sender.py:56-58 | the same `message` event, returning the outcome of the exchange |
| `Sender.WebsocketSender.SendShutdown` | QQBot/qq_bot/Webscoket/Sender.py:60-64 | sends `server_shutdown` without a payload; the success line is logged exactly when the result is truthy |
| `Sender.WebsocketSender.SendPlayerLeft` | QQBot/qq_bot/Webscoket/Sender.py:66-70 | sends `player_left` with the player's name; the success line is logged exactly when the result is truthy |
| `Sender.WebsocketSender.SendPlayerJoined` | QQBot/qq_bot/Webscoket/Sender.py:72-76 | sends `player_joined` with the player's name; the success line is logged exactly when the result is truthy |
| `Sender.SynchronousMessageDropsReply` | QQBot/qq_bot/Webscoket/Sender.py:56-58 | against a peer that accepts the message with data `"ok"`, the method as written returns a falsy `None`, while the reporting version returns `"ok"` |

## Left out

- The websocket library, the socket, and `Base.connect` and `close`
  (Sender.py:2,6). The base class is not part of this model. `connect()` is an
  oracle: it takes the next scripted outcome, and the handle is live exactly
  when that outcome is true. `connect()` is assumed never to raise.
- `encode` and `decode` (Sender.py:8) are not part of this model, so no
  round-trip law is claimed. Encoding and transmitting make up one outcome.
  Receiving and decoding make up another: a reply, a timeout or a fault.
  `Transport.Network.Send` records the envelope even when that outcome is a
  fault.
- A decoded reply is taken to be a JSON object. A reply of any other shape
  would make `response.get` at Sender.py:48 raise outside the `try` block. The
  exception would then reach the caller. That case is not modelled.
- asyncio timing (Sender.py:31). Python evaluates `self.websocket.recv()` and
  then `decode(...)` before `asyncio.wait_for` is called, so `recv()` has
  finished before the 10-second bound starts and the bound can never interrupt
  it. The bound only covers awaiting what `decode(...)` returns. The model's
  `Timeout` outcome stands for that awaitable taking longer than 10 seconds.
- The model assumes that `decode(...)` returns an awaitable. If `decode` is a
  plain function, `wait_for` receives a dict and raises `TypeError`; the
  handler at Sender.py:44-46 then ends every call that waits for a reply with
  `None` and keeps the handle. In the model that is the receive outcome
  `RecvFault(Unexpected)` (`UnexpectedFaultKeepsHandle`).
- Python's recursion limit. The script is finite, so the nesting of re-sends
  is bounded by the number of successful connects.
- Floating-point JSON numbers. `Value` has integers only.
- Logger calls. For `SendShutdown`, `SendPlayerLeft` and `SendPlayerJoined`,
  the out-parameter `logsSuccess` says which of the two log lines the
  coroutine writes. The coroutine itself returns `None`.
- `Core.py`, the host-framework glue: globals, command registration,
  event-listener wiring, process sampling and lifecycle hooks. The `!!qq`
  handler (Core.py:19-25) only consumes the result of
  `send_synchronous_message`. That is where the finding below becomes visible.
- `send_startup` and the Listener are not part of this model. Their source is
  not among the files modelled.
- Interleaving between coroutines. The model runs one call at a time. The
  `await`s at Sender.py:31 and :42 are points where other coroutines can run,
  among them another `send_data` call or the `close`/`connect` listeners
  registered in Core.py:34-35, and any of them can change `websocket`; that
  interleaving is not modelled.

## Findings

| source | as written | input that shows it | evidently intended | confidence | as-written member | corrected member |
|---|---|---|---|---|---|---|
| QQBot/qq_bot/Webscoket/Sender.py:56-58 | `send_synchronous_message` awaits `send_data` but does not return its result, so it always returns `None`; the `!!qq` handler (Core.py:24-25) then always replies that sending failed | no handle, `connect()` succeeds, the bot replies `{"success": true, "data": "ok"}`: `send_data` returns `"ok"`, `send_synchronous_message` returns `None` | return the outcome of `send_data` so that the caller can report success | high (not executed) | `Sender.WebsocketSender.SendSynchronousMessage`, shown by `Sender.SynchronousMessageDropsReply` | `Sender.WebsocketSender.SendSynchronousMessageReported` |
