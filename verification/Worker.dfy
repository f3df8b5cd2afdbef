/**
 The C++ worker's share of one vbucket (v8_consumer/src/client.cc and
 v8_consumer/src/v8worker.cc): a FIFO of messages, the list of filters that a
 stream end leaves behind, and the sequence numbers it reports.
 */
module Worker {
  import opened Vbucket

  /**
   `processed` is the sequence number of the message taken up last; `pending` is
   the next report (0: nothing to report); `reports` and `acks` are on their way
   to the consumer, over two sockets.
   */
  datatype Worker = Worker(
    queue: seq<Msg>, filters: seq<SeqNo>, processed: SeqNo, pending: SeqNo,
    reports: seq<SeqNo>, acks: seq<SeqNo>)

  const FreshWorker := Worker([], [], 0, 0, [], [])

  function Push(w: Worker, m: Msg): Worker {
    w.(queue := w.queue + [m])
  }

  /** IsFilteredEventLocked */
  predicate Skips(filters: seq<SeqNo>, m: Msg) {
    filters != [] && filters[0] > 0 && m.seqNo <= filters[0]
  }

  /** The filters left after a message has gone by. */
  function Erase(filters: seq<SeqNo>, m: Msg): seq<SeqNo> {
    if Skips(filters, m) && m.seqNo == filters[0] then filters[1..] else filters
  }

  /** The worker takes the message at the head of its queue. */
  function TakeUp(w: Worker): Worker
    requires w.queue != []
  {
    var m := w.queue[0];
    var w1 := w.(queue := w.queue[1..], filters := Erase(w.filters, m));
    if Skips(w.filters, m) then w1 else w1.(processed := m.seqNo, pending := m.seqNo)
  }

  /** The events that the handler has seen once the head has been taken up. */
  function TakenUp(w: Worker): set<SeqNo>
    requires w.queue != []
  {
    var m := w.queue[0];
    if m.isEvent && !Skips(w.filters, m) then {m.seqNo} else {}
  }

  /** A filter request: remember to skip up to `last`, and acknowledge what has been taken up. */
  function Filter(w: Worker, last: SeqNo): Worker {
    w.(filters := if w.processed < last then w.filters + [last] else w.filters,
       pending := 0,
       acks := w.acks + [w.processed])
  }

  /** The consumer announces where a new stream starts. */
  function SetProcessed(w: Worker, seqNo: SeqNo): Worker {
    w.(processed := seqNo)
  }

  /** GetBucketOpsMessages */
  function Report(w: Worker): Worker {
    if w.pending == 0 then w else w.(reports := w.reports + [w.pending], pending := 0)
  }
}
