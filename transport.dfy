/** The transport underneath the sender: the socket and `Base.connect()`,
    reduced to a scripted peer whose outcomes are consumed in order. */
module Transport {
  import opened Json

  /** What a transmit or a receive-and-decode can raise. */
  datatype Fault =
    | ConnectionClosed   // the peer closed the socket
    | DecodeError        // the reply was not well-formed JSON
    | ConnectionFailure  // any other connection error of the operating system
    | Unexpected         // any other exception

  /** The faults that the sender answers with a reconnect and a re-send. */
  predicate Recoverable(f: Fault)
    ensures Recoverable(f) <==> !f.Unexpected?
  {
    f.ConnectionClosed? || f.DecodeError? || f.ConnectionFailure?
  }

  datatype SendOutcome = Transmitted | SendFault(fault: Fault)

  /** One bounded wait for the peer's answer, already decoded. */
  datatype RecvOutcome = Reply(response: Dict) | Timeout | RecvFault(fault: Fault)

  /** The peer's script: the outcomes of the successive connect, send and
      receive calls. A queue that has run dry stands for a peer that cannot be
      reached any more: connecting fails and transmitting or receiving raises a
      connection error. */
  datatype Env = Env(connects: seq<bool>, sends: seq<SendOutcome>, recvs: seq<RecvOutcome>)
  {
    /** Whether the next `connect()` succeeds. */
    predicate ConnectOk() {
      connects != [] && connects[0]
    }

    function AfterConnect(): Env {
      if connects == [] then this else this.(connects := connects[1..])
    }

    /** The script after `n` successive `connect()` calls. */
    function AfterConnects(n: nat): Env {
      if n <= |connects| then this.(connects := connects[n..]) else this.(connects := [])
    }

    /** Whether the next `n` `connect()` calls all fail. */
    predicate ConnectsFail(n: nat) {
      forall j :: 0 <= j < n && j < |connects| ==> !connects[j]
    }

    function NextSend(): SendOutcome {
      if sends == [] then SendFault(ConnectionFailure) else sends[0]
    }

    function AfterSend(): Env {
      if sends == [] then this else this.(sends := sends[1..])
    }

    function NextRecv(): RecvOutcome {
      if recvs == [] then RecvFault(ConnectionFailure) else recvs[0]
    }

    function AfterRecv(): Env {
      if recvs == [] then this else this.(recvs := recvs[1..])
    }
  }

  /** The peer as an object: it plays its script and keeps a record of every
      envelope handed to it and of every connect attempt. */
  class Network {
    var env: Env
    var transmits: seq<Dict>
    var connectAttempts: nat

    constructor (script: Env)
      ensures env == script && transmits == [] && connectAttempts == 0
    {
      env := script;
      transmits := [];
      connectAttempts := 0;
    }

    method Connect() returns (ok: bool)
      modifies this
      ensures ok == old(env).ConnectOk()
      ensures env == old(env).AfterConnect()
      ensures transmits == old(transmits) && connectAttempts == old(connectAttempts) + 1
    {
      ok := env.ConnectOk();
      env := env.AfterConnect();
      connectAttempts := connectAttempts + 1;
    }

    method Send(message: Dict) returns (outcome: SendOutcome)
      modifies this
      ensures outcome == old(env).NextSend()
      ensures env == old(env).AfterSend()
      ensures transmits == old(transmits) + [message] && connectAttempts == old(connectAttempts)
    {
      outcome := env.NextSend();
      env := env.AfterSend();
      transmits := transmits + [message];
    }

    method Recv() returns (outcome: RecvOutcome)
      modifies this
      ensures outcome == old(env).NextRecv()
      ensures env == old(env).AfterRecv()
      ensures transmits == old(transmits) && connectAttempts == old(connectAttempts)
    {
      outcome := env.NextRecv();
      env := env.AfterRecv();
    }
  }
}
