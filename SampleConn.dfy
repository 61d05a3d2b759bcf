/**
 * The sample application's connection to a payment server: it writes framed
 * messages to a socket and runs a read loop that hands every framed message it
 * receives to the application, until the stream fails.
 */
module SampleConn {
  import opened Framing
  import Seqs

  datatype SendResult = Sent | IllegalArgument | IOError

  /** The callbacks the read loop makes. */
  datatype ConnEvent = MessageReceived(message: Message) | SocketException(why: Stop)

  /** One `onMessageReceived` callback per message, in order. */
  function Deliveries(ms: seq<Message>): (es: seq<ConnEvent>)
    ensures |es| == |ms|
  {
    if ms == [] then [] else Deliveries(ms[..|ms| - 1]) + [MessageReceived(ms[|ms| - 1])]
  }

  lemma DeliveriesSnoc(ms: seq<Message>, m: Message)
    ensures Deliveries(ms + [m]) == Deliveries(ms) + [MessageReceived(m)]
  {
    assert (ms + [m])[..|ms|] == ms;
  }

  class SampleProtobufConn {
    /** Bytes written to the socket's output stream so far. */
    var output: seq<Byte>
    var outputOpen: bool
    /** `vClosing`: set by Close, never cleared. */
    var closing: bool
    /** Callbacks made by the read loop. */
    var events: seq<ConnEvent>
    /** The messages written so far, in order. */
    ghost var sent: seq<Message>

    ghost predicate Valid()
      reads this
    {
      && (forall i :: 0 <= i < |sent| ==> Sendable(sent[i]))
      && output == EncodeAll(sent)
    }

    /** A connection whose socket has just connected. */
    constructor ()
      ensures Valid()
      ensures output == [] && sent == [] && outputOpen && !closing && events == []
    {
      output, outputOpen, closing, events := [], true, false, [];
      sent := [];
    }

    /**
     * `sendMessage`: a message over `Short.MAX_VALUE` bytes is refused before
     * anything is written; otherwise its frame is written, unless the stream
     * is closed or the write fails (`writeOk` is the network's answer).
     */
    method SendMessage(message: Message, writeOk: bool) returns (r: SendResult)
      requires Valid()
      modifies this`output, this`sent
      ensures Valid()
      ensures |message| > MAX_MESSAGE_LENGTH ==> r == IllegalArgument
      ensures |message| <= MAX_MESSAGE_LENGTH && outputOpen && writeOk ==> r == Sent
      ensures |message| <= MAX_MESSAGE_LENGTH && !(outputOpen && writeOk) ==> r == IOError
      ensures r == Sent ==> output == old(output) + Encode(message) && sent == old(sent) + [message]
      ensures r != Sent ==> output == old(output) && sent == old(sent)
      ensures DecodeAll(output) == Decoded(sent, EndOfStream)
    {
      if |message| > MAX_MESSAGE_LENGTH {
        r := IllegalArgument;
      } else if !(outputOpen && writeOk) {
        r := IOError;
      } else {
        EncodeAllSnoc(sent, message);
        output := output + Encode(message);
        sent := sent + [message];
        r := Sent;
      }
      RoundTrip(sent);
    }

    /** `close`: marks the connection as closing on purpose and closes the output. */
    method Close()
      modifies this`closing, this`outputOpen
      ensures closing && !outputOpen
    {
      closing := true;
      outputOpen := false;
    }

    /**
     * The read thread's loop over everything the peer sends (`input`, up to
     * the end of the stream): every complete frame is delivered in order; the
     * loop ends at the first bad length, short payload or end of stream, and
     * that failure is reported only when the connection is not closing.
     */
    method ReadLoop(input: seq<Byte>)
      modifies this`events
      ensures events == old(events) + Deliveries(DecodeAll(input).messages)
                        + (if closing then [] else [SocketException(DecodeAll(input).stop)])
    {
      var unread := input;
      ghost var delivered: seq<Message> := [];
      ReadLoopStart(input);
      while true
        invariant ReadProgress(input, unread, delivered)
        invariant events == old(events) + Deliveries(delivered)
        decreases |unread|
      {
        var step := ReadFrame(unread);
        match step
        case Stopped(why) =>
          ReadLoopEnd(input, unread, delivered);
          if !closing {
            events := events + [SocketException(why)];
          }
          return;
        case Frame(m, rest) =>
          ReadLoopStep(input, unread, delivered);
          DeliveriesSnoc(delivered, m);
          events := events + [MessageReceived(m)];
          delivered := delivered + [m];
          unread := rest;
      }
    }
  }
}
