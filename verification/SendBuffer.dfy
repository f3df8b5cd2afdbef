/** Batching the messages that go to the worker (consumer/handle_messages.go). */
module SendBuffer {
  import opened Prelude
  import opened Wire

  datatype Message = Message(header: seq<Byte>, payload: seq<Byte>, prioritize: bool, sendToDebugger: bool)

  /** The sizes of header and payload, each modulo 2^32, and then the two. */
  function Encode(m: Message): seq<Byte> {
    PutUint32(|m.header|) + (PutUint32(|m.payload|) + (m.header + m.payload))
  }

  function EncodeAll(ms: seq<Message>): seq<Byte> {
    if ms == [] then [] else EncodeAll(ms[..|ms| - 1]) + Encode(ms[|ms| - 1])
  }

  /** How a socket behaves: how many bytes it takes in each short write, and whether it then fails or takes the rest. */
  datatype Socket = Socket(shorts: seq<nat>, fails: bool)

  class Sender {
    var socketWriteBatchSize: nat
    var sendMsgBuffer: seq<Byte>
    var sendMsgCounter: nat
    var aggMessagesSentCounter: nat
    var conn: bool
    var debugConn: bool
    var stoppingConsumer: bool
    var isTerminateRunning: bool
    /** What has been written to the worker and to the debugger. */
    var written: seq<Byte>
    var debugged: seq<Byte>

    constructor (batchSize: nat)
      ensures socketWriteBatchSize == batchSize && sendMsgCounter == aggMessagesSentCounter == 0
      ensures written == sendMsgBuffer == [] && conn && !stoppingConsumer && !isTerminateRunning
    {
      socketWriteBatchSize, sendMsgCounter, aggMessagesSentCounter := batchSize, 0, 0;
      sendMsgBuffer, written, debugged := [], [], [];
      conn, debugConn, stoppingConsumer, isTerminateRunning := true, false, false, false;
    }

    function Stream(): seq<Byte>
      reads this
    {
      written + sendMsgBuffer
    }

    function Counted(): nat
      reads this
    {
      aggMessagesSentCounter + sendMsgCounter
    }

    predicate Flushes(m: Message)
      reads this
    {
      sendMsgCounter + 1 >= socketWriteBatchSize || m.prioritize || m.sendToDebugger
    }

    /** The message ends up in the stream to the worker: it is not yet written, or written to the worker. */
    predicate Keeps(m: Message)
      reads this
    {
      !Flushes(m) || (conn && !m.sendToDebugger)
    }

    predicate Stopped()
      reads this
    {
      isTerminateRunning || stoppingConsumer
    }

    /** Writes the buffer, again after every short write. */
    method WriteOut(socket: Socket) returns (ok: bool)
      modifies this`sendMsgBuffer, this`written
      ensures Stream() == old(Stream()) && old(written) <= written
      ensures ok ==> sendMsgBuffer == []
      ensures !ok ==> socket.fails
    {
      for i := 0 to |socket.shorts|
        invariant Stream() == old(Stream()) && old(written) <= written
      {
        var n := if socket.shorts[i] < |sendMsgBuffer| then socket.shorts[i] else |sendMsgBuffer|;
        assert sendMsgBuffer == sendMsgBuffer[..n] + sendMsgBuffer[n..];
        written, sendMsgBuffer := written + sendMsgBuffer[..n], sendMsgBuffer[n..];
        if sendMsgBuffer == [] {
          return true;
        }
      }
      if socket.fails {
        return false;
      }
      written, sendMsgBuffer := written + sendMsgBuffer, [];
      return true;
    }

    method ResetCounters()
      modifies this`sendMsgBuffer, this`sendMsgCounter, this`aggMessagesSentCounter
      ensures sendMsgBuffer == [] && sendMsgCounter == 0 && Counted() == old(Counted())
    {
      aggMessagesSentCounter := aggMessagesSentCounter + sendMsgCounter;
      sendMsgBuffer := [];
      sendMsgCounter := 0;
    }

    /** Adds a message to the buffer, and writes the buffer if it is time to. */
    method SendMessage(m: Message, socket: Socket) returns (failed: bool)
      modifies this`sendMsgBuffer, this`sendMsgCounter, this`aggMessagesSentCounter, this`stoppingConsumer, this`written, this`debugged
      ensures old(Stopped()) ==> failed && unchanged(this)
      ensures !old(Stopped()) ==> Counted() == old(Counted()) + 1
      ensures !old(Stopped()) && old(Keeps(m)) ==> Stream() == old(Stream()) + Encode(m)
      ensures !failed ==> (Stream() == old(Stream()) + Encode(m) <==> old(Keeps(m)))
      ensures !failed ==> !Stopped() && sendMsgCounter == (if old(Flushes(m)) then 0 else old(sendMsgCounter) + 1)
      ensures !failed && old(Flushes(m)) ==> sendMsgBuffer == []
      ensures !failed && !old(Keeps(m)) ==>
                written == old(written) && debugged == old(debugged) + (if debugConn then old(sendMsgBuffer) + Encode(m) else [])
      ensures failed && !old(Stopped()) ==>
                old(Flushes(m)) && (if old(Keeps(m)) then socket.fails && stoppingConsumer else debugConn && !stoppingConsumer)
    {
      if isTerminateRunning || stoppingConsumer {
        return true;
      }
      sendMsgBuffer := sendMsgBuffer + PutUint32(|m.header|);
      sendMsgBuffer := sendMsgBuffer + PutUint32(|m.payload|);
      sendMsgBuffer := sendMsgBuffer + m.header;
      sendMsgBuffer := sendMsgBuffer + m.payload;
      assert sendMsgBuffer == old(sendMsgBuffer) + Encode(m);
      sendMsgCounter := sendMsgCounter + 1;
      if sendMsgCounter >= socketWriteBatchSize || m.prioritize || m.sendToDebugger {
        if !m.sendToDebugger && conn {
          var ok := WriteOut(socket);
          if !ok {
            stoppingConsumer := true;
            return true;
          }
        } else if debugConn {
          if socket.shorts != [] || socket.fails {
            return true;
          }
          debugged, sendMsgBuffer := debugged + sendMsgBuffer, [];
        }
        ResetCounters();
      }
      return false;
    }

    /** The ticker of the send loop. Returns whether the loop ends. */
    method Tick(socket: Socket) returns (ends: bool)
      modifies this`sendMsgBuffer, this`sendMsgCounter, this`aggMessagesSentCounter, this`stoppingConsumer, this`written
      ensures !(old(sendMsgCounter) > 0 && conn) ==> !ends && unchanged(this)
      ensures ends ==> unchanged(this) && Stopped()
      ensures Counted() == old(Counted())
      ensures old(written) <= written && written <= old(Stream())
      ensures !socket.fails ==> Stream() == old(Stream()) && stoppingConsumer == old(stoppingConsumer)
      ensures old(sendMsgCounter) > 0 && conn && !ends ==> sendMsgCounter == 0 && sendMsgBuffer == []
    {
      if sendMsgCounter > 0 && conn {
        if isTerminateRunning || stoppingConsumer {
          return true;
        }
        var ok := WriteOut(socket);
        if !ok {
          stoppingConsumer := true;
        }
        ResetCounters();
      }
      return false;
    }

    /** Any sequence of sends and ticks with a connected worker, sockets that may write short but do not fail, and no debugger. */
    method Serve(events: seq<Event>) returns (sent: seq<Message>)
      requires conn && !Stopped() && written == sendMsgBuffer == [] && Counted() == 0
      requires forall e | e in events :: !e.socket.fails && (e.Send? ==> !e.message.sendToDebugger)
      modifies this`sendMsgBuffer, this`sendMsgCounter, this`aggMessagesSentCounter, this`stoppingConsumer, this`written, this`debugged
      ensures sent == Sent(events)
      ensures Stream() == EncodeAll(sent) && Counted() == |sent|
      ensures sendMsgCounter == 0 || sendMsgCounter < socketWriteBatchSize
      ensures sendMsgCounter == 0 ==> written == EncodeAll(sent)
    {
      sent := [];
      for i := 0 to |events|
        invariant !Stopped() && sent == Sent(events[..i])
        invariant Stream() == EncodeAll(sent) && Counted() == |sent|
        invariant sendMsgCounter == 0 || sendMsgCounter < socketWriteBatchSize
        invariant sendMsgCounter == 0 ==> sendMsgBuffer == []
      {
        assert events[i] in events && events[..i + 1][..i] == events[..i];
        match events[i]
        case Send(m, socket) =>
          var failed := SendMessage(m, socket);
          assert (sent + [m])[..|sent|] == sent;
          sent := sent + [m];
        case Tick(socket) =>
          var ends := Tick(socket);
      }
      assert events[..|events|] == events;
    }
  }

  datatype Event = Send(message: Message, socket: Socket) | Tick(socket: Socket)

  function Sent(events: seq<Event>): seq<Message> {
    if events == [] then []
    else
      var last := events[|events| - 1];
      Sent(events[..|events| - 1]) + (if last.Send? then [last.message] else [])
  }

  // ---- The stream determines the messages --------------------------------------

  ghost predicate Fits(m: Message) {
    |m.header| < TWO_TO_THE_32 && |m.payload| < TWO_TO_THE_32
  }

  lemma Number(n: nat, rest: seq<Byte>)
    requires n < TWO_TO_THE_32
    ensures var b := PutUint32(n) + rest; Uint32(b) == n && b[4..] == rest
  {
    Uint32OfPut(n, rest);
  }

  lemma SameTail(h: seq<Byte>, p: seq<Byte>, s: seq<Byte>, h': seq<Byte>, p': seq<Byte>, s': seq<Byte>)
    requires |h| == |h'| && |p| == |p'| && h + p + s == h' + p' + s'
    ensures h == h' && p == p' && s == s'
  {
    var b := h + p + s;
    assert h == b[..|h|] && p == b[|h|..|h| + |p|] && s == b[|h| + |p|..];
    assert h' == b[..|h|] && p' == b[|h|..|h| + |p|] && s' == b[|h| + |p|..];
  }

  lemma Numbers(m: Message, s: seq<Byte>)
    requires Fits(m)
    ensures var b := Encode(m) + s;
            |b| >= 8 && Uint32(b) == |m.header| && Uint32(b[4..]) == |m.payload| && b[4..][4..] == m.header + m.payload + s
  {
    var tail := m.header + m.payload + s;
    Number(|m.header|, PutUint32(|m.payload|) + tail);
    Number(|m.payload|, tail);
    assert Encode(m) + s == PutUint32(|m.header|) + (PutUint32(|m.payload|) + tail);
  }

  /** The message at the front of a stream is determined. */
  lemma SameFront(m: Message, s: seq<Byte>, m': Message, s': seq<Byte>)
    requires Fits(m) && Fits(m') && Encode(m) + s == Encode(m') + s'
    ensures m.header == m'.header && m.payload == m'.payload && s == s'
  {
    Numbers(m, s);
    Numbers(m', s');
    SameTail(m.header, m.payload, s, m'.header, m'.payload, s');
  }

  lemma {:induction false} EncodeAllFront(ms: seq<Message>)
    requires ms != []
    ensures EncodeAll(ms) == Encode(ms[0]) + EncodeAll(ms[1..])
    decreases |ms|
  {
    var before, last := ms[..|ms| - 1], ms[|ms| - 1];
    if before != [] {
      EncodeAllFront(before);
      assert ms[1..][..|ms| - 2] == before[1..];
      Assoc(Encode(ms[0]), EncodeAll(before[1..]), Encode(last));
    }
  }

  function Contents(ms: seq<Message>): seq<(seq<Byte>, seq<Byte>)> {
    if ms == [] then [] else [(ms[0].header, ms[0].payload)] + Contents(ms[1..])
  }

  /** Equal streams carry the same headers and payloads in the same order. */
  lemma {:induction false} StreamDeterminesMessages(a: seq<Message>, b: seq<Message>)
    requires EncodeAll(a) == EncodeAll(b)
    requires forall m | m in a || m in b :: Fits(m)
    ensures Contents(a) == Contents(b)
  {
    if a != [] { EncodeAllFront(a); }
    if b != [] { EncodeAllFront(b); }
    if a != [] && b != [] {
      assert a[0] in a && b[0] in b;
      SameFront(a[0], EncodeAll(a[1..]), b[0], EncodeAll(b[1..]));
      StreamDeterminesMessages(a[1..], b[1..]);
    }
  }
}
