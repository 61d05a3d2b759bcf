/**
 * The client library's TCP link to a payment server: it writes framed messages
 * to its socket when it can, and otherwise queues them and reconnects,
 * replaying the queue in order on the new socket before starting a read
 * thread. A failed connect makes it give up for good.
 *
 * Sockets, connects and writes are not modelled; their outcomes are inputs:
 * `connectOk` says whether a connect succeeds, `accepted` how many queued
 * messages a new socket takes before a write fails, `writeOk` whether a write
 * on a working socket succeeds. A socket on which a connect or a write has
 * failed is `Broken`: every later write on it fails too.
 */
module TcpLink {
  import opened Framing
  import Seqs

  datatype Socket = NoSocket | Connected | Broken

  /** The calls the link makes on its payment channel manager. */
  datatype ManagerCall =
    | MessageReceived(message: Message)
    | DisconnectFromWallet(generateServerClose: bool)
    | CloseChannel

  /** `sendProtobuf` either returns or fails its `checkState`. */
  datatype SendResult = Done | IllegalState

  /** One `messageReceived` call per message, in order. */
  function Received(ms: seq<Message>): (cs: seq<ManagerCall>)
    ensures |cs| == |ms|
  {
    if ms == [] then [] else Received(ms[..|ms| - 1]) + [MessageReceived(ms[|ms| - 1])]
  }

  lemma ReceivedSnoc(ms: seq<Message>, m: Message)
    ensures Received(ms + [m]) == Received(ms) + [MessageReceived(m)]
  {
    assert (ms + [m])[..|ms|] == ms;
  }

  function Min(a: nat, b: nat): nat {
    if a <= b then a else b
  }

  class AbstractTCPPaymentChannel {
    /** `channel != null`: a manager was given to `connect`. */
    var managerSet: bool
    var socket: Socket
    /** A read thread is alive (`readThread` has been started and has not finished). */
    var readerRunning: bool
    var protobufsToSend: seq<Message>
    var gaveupConnecting: bool
    /** `vClosing`: set by every socket close, never cleared. */
    var closing: bool
    /** Every message written whole to a socket, in the order written. */
    var written: seq<Message>
    var managerCalls: seq<ManagerCall>
    /** Every message `sendProtobuf` accepted, in the order accepted. */
    ghost var handed: seq<Message>

    /**
     * No message is lost or duplicated: what was written, followed by what is
     * still queued, is exactly what was handed over. A working socket has an
     * empty queue, and a read thread only runs while there is a socket.
     */
    ghost predicate Valid()
      reads this
    {
      && written + protobufsToSend == handed
      && (socket == Connected ==> protobufsToSend == [])
      && (readerRunning ==> socket != NoSocket)
      && (forall i :: 0 <= i < |handed| ==> Sendable(handed[i]))
    }

    constructor ()
      ensures Valid()
      ensures !managerSet && socket == NoSocket && !readerRunning && protobufsToSend == []
      ensures !gaveupConnecting && !closing && written == [] && managerCalls == [] && handed == []
    {
      managerSet, socket, readerRunning, protobufsToSend := false, NoSocket, false, [];
      gaveupConnecting, closing, written, managerCalls := false, false, [], [];
      handed := [];
    }

    /**
     * `closeSocket`: marks the link as closing, drops the socket and waits for
     * the read thread, which fails on the closed socket and tells the manager
     * to disconnect from the wallet without a server close.
     */
    method CloseSocket()
      requires Valid()
      modifies this`closing, this`socket, this`readerRunning, this`managerCalls
      ensures Valid()
      ensures closing && socket == NoSocket && !readerRunning
      ensures managerCalls == old(managerCalls) + (if old(readerRunning) then [DisconnectFromWallet(false)] else [])
    {
      closing := true;
      socket := NoSocket;
      if readerRunning {
        managerCalls := managerCalls + [DisconnectFromWallet(false)];
        readerRunning := false;
      }
    }

    /**
     * `openSocket`: does nothing once the link has given up. Otherwise closes
     * the old socket, connects a new one (`ok` is false when that fails), then
     * writes the queued messages in order, removing each only after its write
     * succeeded; at the first failed write it stops, leaving that message and
     * all later ones queued. Only a complete replay starts a read thread.
     */
    method OpenSocket(connectOk: bool, accepted: nat) returns (ok: bool)
      requires Valid()
      modifies this`closing, this`socket, this`readerRunning, this`managerCalls,
               this`protobufsToSend, this`written
      ensures Valid()
      ensures old(gaveupConnecting) ==>
        (ok && socket == old(socket) && readerRunning == old(readerRunning)
         && closing == old(closing) && managerCalls == old(managerCalls)
         && protobufsToSend == old(protobufsToSend) && written == old(written))
      ensures !old(gaveupConnecting) ==>
        (closing && managerCalls == old(managerCalls) + (if old(readerRunning) then [DisconnectFromWallet(false)] else []))
      ensures !old(gaveupConnecting) && !connectOk ==>
        (!ok && socket == Broken && !readerRunning
         && protobufsToSend == old(protobufsToSend) && written == old(written))
      ensures !old(gaveupConnecting) && connectOk ==>
        var k := Min(accepted, |old(protobufsToSend)|);
        && ok
        && written == old(written) + old(protobufsToSend)[..k]
        && protobufsToSend == old(protobufsToSend)[k..]
        && (readerRunning <==> k == |old(protobufsToSend)|)
        && socket == (if k == |old(protobufsToSend)| then Connected else Broken)
    {
      if gaveupConnecting {
        return true;
      }
      CloseSocket();
      if !connectOk {
        socket := Broken;
        return false;
      }
      socket := Connected;
      ok := true;
      ghost var queue := protobufsToSend;
      var sentOnThisSocket := 0;
      while protobufsToSend != []
        invariant 0 <= sentOnThisSocket <= |queue|
        invariant sentOnThisSocket <= accepted
        invariant written == old(written) + queue[..sentOnThisSocket]
        invariant protobufsToSend == queue[sentOnThisSocket..]
        invariant socket == Connected && !readerRunning && closing
        invariant managerCalls == old(managerCalls) + (if old(readerRunning) then [DisconnectFromWallet(false)] else [])
        decreases |protobufsToSend|
      {
        if sentOnThisSocket == accepted {
          socket := Broken;
          Seqs.Associative(old(written), queue[..sentOnThisSocket], queue[sentOnThisSocket..]);
          assert queue[..sentOnThisSocket] + queue[sentOnThisSocket..] == queue;
          return;
        }
        written := written + [protobufsToSend[0]];
        assert queue[..sentOnThisSocket + 1] == queue[..sentOnThisSocket] + [queue[sentOnThisSocket]];
        protobufsToSend := protobufsToSend[1..];
        sentOnThisSocket := sentOnThisSocket + 1;
      }
      assert queue[..sentOnThisSocket] == queue;
      readerRunning := true;
    }

    /** `connect`: remembers the manager and opens the socket; `ok` is false when the connect failed. */
    method Connect(connectOk: bool, accepted: nat) returns (ok: bool)
      requires Valid()
      modifies this
      ensures Valid()
      ensures managerSet && handed == old(handed) && gaveupConnecting == old(gaveupConnecting)
      ensures old(gaveupConnecting) ==>
        (ok && socket == old(socket) && readerRunning == old(readerRunning)
         && closing == old(closing) && managerCalls == old(managerCalls)
         && protobufsToSend == old(protobufsToSend) && written == old(written))
      ensures !old(gaveupConnecting) ==>
        (closing && managerCalls == old(managerCalls) + (if old(readerRunning) then [DisconnectFromWallet(false)] else []))
      ensures !old(gaveupConnecting) && !connectOk ==>
        (!ok && socket == Broken && !readerRunning
         && protobufsToSend == old(protobufsToSend) && written == old(written))
      ensures !old(gaveupConnecting) && connectOk ==>
        var k := Min(accepted, |old(protobufsToSend)|);
        && ok
        && written == old(written) + old(protobufsToSend)[..k]
        && protobufsToSend == old(protobufsToSend)[k..]
        && (readerRunning <==> k == |old(protobufsToSend)|)
        && socket == (if k == |old(protobufsToSend)| then Connected else Broken)
    {
      managerSet := true;
      ok := OpenSocket(connectOk, accepted);
    }

    /**
     * `sendProtobuf`: fails its state check for an oversized message or before
     * `connect`. Otherwise writes the message at once when the socket works
     * and the write succeeds; if not, appends it to the queue and reopens the
     * socket, and a failed connect makes the link give up and close the channel.
     */
    method SendProtobuf(m: Message, writeOk: bool, connectOk: bool, accepted: nat) returns (r: SendResult)
      requires Valid()
      modifies this
      ensures Valid()
      ensures r == IllegalState <==> !(Sendable(m) && old(managerSet))
      ensures r == IllegalState ==>
        (handed == old(handed) && written == old(written)
         && protobufsToSend == old(protobufsToSend) && socket == old(socket) && managerCalls == old(managerCalls)
         && gaveupConnecting == old(gaveupConnecting) && closing == old(closing)
         && readerRunning == old(readerRunning))
      ensures managerSet == old(managerSet)
      ensures r == Done ==> handed == old(handed) + [m]
      ensures r == Done && old(socket) == Connected && writeOk ==>
        (written == old(written) + [m] && protobufsToSend == old(protobufsToSend) == []
         && socket == Connected && managerCalls == old(managerCalls) && gaveupConnecting == old(gaveupConnecting)
         && readerRunning == old(readerRunning) && closing == old(closing))
      ensures r == Done && !(old(socket) == Connected && writeOk) && old(gaveupConnecting) ==>
        (protobufsToSend == old(protobufsToSend) + [m] && written == old(written) && gaveupConnecting
         && managerCalls == old(managerCalls)
         && socket == (if old(socket) == Connected then Broken else old(socket))
         && readerRunning == old(readerRunning) && closing == old(closing))
      ensures r == Done && !(old(socket) == Connected && writeOk) && !old(gaveupConnecting) && !connectOk ==>
        (protobufsToSend == old(protobufsToSend) + [m] && written == old(written) && gaveupConnecting
         && socket == Broken && !readerRunning && closing
         && managerCalls == old(managerCalls)
              + (if old(readerRunning) then [DisconnectFromWallet(false)] else []) + [CloseChannel])
      ensures r == Done && !(old(socket) == Connected && writeOk) && !old(gaveupConnecting) && connectOk ==>
        var queue := old(protobufsToSend) + [m];
        var k := Min(accepted, |queue|);
        && written == old(written) + queue[..k] && protobufsToSend == queue[k..] && !gaveupConnecting
        && closing
        && (readerRunning <==> k == |queue|)
        && socket == (if k == |queue| then Connected else Broken)
        && managerCalls == old(managerCalls) + (if old(readerRunning) then [DisconnectFromWallet(false)] else [])
      ensures old(gaveupConnecting) ==> gaveupConnecting
      ensures old(closing) ==> closing
    {
      if !(|m| <= MAX_MESSAGE_LENGTH && managerSet) {
        return IllegalState;
      }
      r := Done;
      handed := handed + [m];
      if socket == Connected {
        if writeOk {
          written := written + [m];
          return;
        }
        socket := Broken;
      }
      Seqs.Associative(written, protobufsToSend, [m]);
      protobufsToSend := protobufsToSend + [m];
      var ok := OpenSocket(connectOk, accepted);
      if !ok {
        gaveupConnecting := true;
        managerCalls := managerCalls + [CloseChannel];
      }
    }

    /** `channelClosedOrNotOpened`: the manager reports the channel closed; the socket is closed. */
    method ChannelClosedOrNotOpened()
      requires Valid()
      modifies this`closing, this`socket, this`readerRunning, this`managerCalls
      ensures Valid()
      ensures closing && socket == NoSocket && !readerRunning
      ensures managerCalls == old(managerCalls) + (if old(readerRunning) then [DisconnectFromWallet(false)] else [])
    {
      CloseSocket();
    }

    /** `channelInterrupted`: the connection to the wallet was lost; the socket is closed. */
    method ChannelInterrupted()
      requires Valid()
      modifies this`closing, this`socket, this`readerRunning, this`managerCalls
      ensures Valid()
      ensures closing && socket == NoSocket && !readerRunning
      ensures managerCalls == old(managerCalls) + (if old(readerRunning) then [DisconnectFromWallet(false)] else [])
    {
      CloseSocket();
    }

    /**
     * The read thread, run to its end over everything the server sends on the
     * socket (`input`, up to the end of the stream): every complete frame is
     * passed to the manager in arrival order, and the first bad length, short
     * payload or end of stream ends the thread with exactly one
     * `disconnectFromWallet(false)`.
     */
    method ReadLoop(input: seq<Byte>)
      requires Valid() && readerRunning
      modifies this`managerCalls, this`readerRunning
      ensures Valid() && !readerRunning
      ensures managerCalls == old(managerCalls) + Received(DecodeAll(input).messages) + [DisconnectFromWallet(false)]
    {
      var unread := input;
      ghost var delivered: seq<Message> := [];
      ReadLoopStart(input);
      while true
        invariant ReadProgress(input, unread, delivered)
        invariant managerCalls == old(managerCalls) + Received(delivered)
        invariant readerRunning
        decreases |unread|
      {
        var step := ReadFrame(unread);
        match step
        case Stopped(why) =>
          ReadLoopEnd(input, unread, delivered);
          managerCalls := managerCalls + [DisconnectFromWallet(false)];
          readerRunning := false;
          return;
        case Frame(m, rest) =>
          ReadLoopStep(input, unread, delivered);
          ReceivedSnoc(delivered, m);
          managerCalls := managerCalls + [MessageReceived(m)];
          delivered := delivered + [m];
          unread := rest;
      }
    }
  }
}
