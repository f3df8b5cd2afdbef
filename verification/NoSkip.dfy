/**
 No event is skipped: however often the vbucket changes hands, the checkpoint in
 the document never runs ahead of the events that workers have taken up, so
 the next owner starts early enough.
 */
module NoSkip {
  import opened Prelude
  import opened Vbucket
  import opened Worker
  import opened VbucketSystem
  import opened Ownership

  // ---- The worker's queue ----------------------------------------------

  /**
   The filters are used up before the end of the queue, and a message that slips
   past a filter is harmless.
   */
  ghost predicate Fits(g: Log, queue: seq<Msg>, filters: seq<SeqNo>) {
    filters == [] ||
    (queue != [] && filters[0] > 0 &&
     if queue[0].seqNo == filters[0] then Fits(g, queue[1..], filters[1..])
     else (queue[0].seqNo < filters[0] || Safe(g, queue[0].seqNo)) && Fits(g, queue[1..], filters))
  }

  /** The messages that come after the last filter. */
  ghost function Active(queue: seq<Msg>, filters: seq<SeqNo>): seq<Msg> {
    if filters == [] || queue == [] then queue
    else if queue[0].seqNo == filters[0] then Active(queue[1..], filters[1..])
    else Active(queue[1..], filters)
  }

  ghost function ActiveOf(w: Worker): seq<Msg> { Active(w.queue, w.filters) }

  ghost predicate IsEvent(g: Log, k: SeqNo) { k in g.history && g.history[k].Handler? }

  /** Up to each message, every event is handled or queued no later than the message. */
  ghost predicate Covered(g: Log, queue: seq<Msg>) {
    forall i, k: SeqNo | 0 <= i < |queue| && IsEvent(g, k) && k <= queue[i].seqNo ::
      k in g.handled || Msg(k, true) in queue[..i + 1]
  }

  ghost predicate AllSafe(g: Log, queue: seq<Msg>) {
    forall i | 0 <= i < |queue| :: Safe(g, queue[i].seqNo)
  }

  ghost predicate SafeList(g: Log, list: seq<SeqNo>) {
    forall i | 0 <= i < |list| :: Safe(g, list[i])
  }

  // ---- The stream ------------------------------------------------------

  /** The waiting items are the next events of the history, without a gap. */
  ghost predicate Contiguous(history: map<SeqNo, Kind>, pos: SeqNo, dcp: seq<DcpEvent>)
    decreases dcp
  {
    dcp == [] || !dcp[0].Item? ||
    (NextEvent(history, pos, dcp[0].seqNo) && dcp[0].kind == history[dcp[0].seqNo]
     && Contiguous(history, dcp[0].seqNo, dcp[1..]))
  }

  /** The position after the waiting items. */
  ghost function EndPos(pos: SeqNo, dcp: seq<DcpEvent>): SeqNo
    decreases dcp
  {
    if dcp == [] || !dcp[0].Item? then pos else EndPos(dcp[0].seqNo, dcp[1..])
  }

  ghost predicate Flows(g: Log, kv: Connection, dcp: seq<DcpEvent>) {
    && kv.read <= g.high
    && Contiguous(g.history, kv.read, dcp)
    && (kv.stream.Open? ==> kv.stream.cursor == EndPos(kv.read, dcp))
  }

  // ---- The invariant of one consumer -----------------------------------

  /** Every position that the consumer or its worker may ever checkpoint or start from. */
  ghost predicate Positions(g: Log, p: Peer) {
    && Safe(g, p.l.lastProcessed)
    && SafeList(g, p.l.requests)
    && (p.l.streamRequested.Some? ==> Safe(g, p.l.streamRequested.value))
    && Safe(g, p.w.processed) && Safe(g, p.w.pending) && SafeList(g, p.w.reports) && SafeList(g, p.w.acks)
  }

  /** The consumer reads an open stream. */
  ghost predicate Reading(c: Id, p: Peer) {
    Mine(c, p.l) && p.w.acks == []
  }

  ghost predicate Awaiting(p: Peer) {
    p.l.issuing.Some? || p.l.metadataUpdated
  }

  /** The tail of the queue belongs to the open stream. */
  ghost predicate Tail(w: Worker, lastSent: SeqNo) {
    lastSent != 0 ==>
      || (ActiveOf(w) != [] && ActiveOf(w)[|ActiveOf(w)| - 1].seqNo == lastSent)
      || (w.queue == [] && w.filters == [] && w.processed == lastSent)
  }

  ghost predicate ReadingInv(g: Log, p: Peer) {
    var active := ActiveOf(p.w);
    && Flows(g, p.kv, p.kv.dcp)
    && p.l.lastSent <= p.kv.read
    && (p.l.lastRead == p.kv.read || (p.l.lastSent == 0 && Safe(g, p.l.lastRead)))
    && (forall k: SeqNo | IsEvent(g, k) && k <= p.kv.read :: k in g.handled || Msg(k, true) in active)
    && (forall i | 0 <= i < |active| :: 
          Safe(g, active[i].seqNo) || active[i].seqNo < p.l.lastSent || (i == |active| - 1 && active[i].seqNo == p.l.lastSent))
    && Tail(p.w, p.l.lastSent)
  }

  ghost predicate AwaitingInv(g: Log, p: Peer) {
    && (p.l.metadataUpdated ==> Safe(g, p.l.lastRead))
    && (p.kv.dcp != [] && p.kv.dcp[0] == StreamReq(true) ==>
          Some(p.kv.read) == p.l.streamRequested && Flows(g, p.kv, p.kv.dcp[1..]))
  }

  ghost predicate SafePeer(c: Id, g: Log, p: Peer) {
    && Positions(g, p)
    && Fits(g, p.w.queue, p.w.filters)
    && Covered(g, ActiveOf(p.w))
    && (Reading(c, p) ==> ReadingInv(g, p))
    && (!Reading(c, p) ==> AllSafe(g, ActiveOf(p.w)))
    && (Awaiting(p) ==> AwaitingInv(g, p))
  }

  ghost predicate Bounded(g: Log) { forall k | k in g.history :: k <= g.high }

  // ---- More events handled ---------------------------------------------

  ghost predicate Grown(g: Log, g': Log) {
    && g.high <= g'.high && g.handled <= g'.handled
    && (forall k | k in g.history :: k in g'.history && g'.history[k] == g.history[k])
    && (forall k | k in g'.history && k !in g.history :: g.high < k)
  }

  lemma SafeGrows(g: Log, g': Log, pos: SeqNo)
    requires Grown(g, g') && Safe(g, pos)
    ensures Safe(g', pos)
  {}

  lemma {:induction false} FitsGrows(g: Log, g': Log, queue: seq<Msg>, filters: seq<SeqNo>)
    requires Grown(g, g') && Fits(g, queue, filters)
    ensures Fits(g', queue, filters)
  {
    if filters != [] {
      if queue[0].seqNo == filters[0] { FitsGrows(g, g', queue[1..], filters[1..]); }
      else { FitsGrows(g, g', queue[1..], filters); }
    }
  }

  lemma {:induction false} ContiguousGrows(g: Log, g': Log, pos: SeqNo, dcp: seq<DcpEvent>)
    requires Grown(g, g') && Bounded(g) && Contiguous(g.history, pos, dcp)
    ensures Contiguous(g'.history, pos, dcp)
    decreases dcp
  {
    if dcp != [] && dcp[0].Item? { ContiguousGrows(g, g', dcp[0].seqNo, dcp[1..]); }
  }

  lemma SafePeerGrows(c: Id, g: Log, g': Log, p: Peer)
    requires Grown(g, g') && Bounded(g) && SafePeer(c, g, p)
    ensures SafePeer(c, g', p)
  {
    FitsGrows(g, g', p.w.queue, p.w.filters);
    if Reading(c, p) { ContiguousGrows(g, g', p.kv.read, p.kv.dcp); }
    if p.kv.dcp != [] && Awaiting(p) && p.kv.dcp[0] == StreamReq(true) { ContiguousGrows(g, g', p.kv.read, p.kv.dcp[1..]); }
  }

  lemma SafeDown(g: Log, pos: SeqNo, lower: SeqNo)
    requires Safe(g, pos) && lower <= pos
    ensures Safe(g, lower)
  {}

  // ---- Facts about the queue -------------------------------------------

  lemma {:induction false} PushKeepsActive(g: Log, queue: seq<Msg>, filters: seq<SeqNo>, m: Msg)
    requires Fits(g, queue, filters)
    ensures Fits(g, queue + [m], filters)
    ensures Active(queue + [m], filters) == Active(queue, filters) + [m]
  {
    if filters != [] {
      assert (queue + [m])[1..] == queue[1..] + [m];
      if queue[0].seqNo == filters[0] { PushKeepsActive(g, queue[1..], filters[1..], m); }
      else { PushKeepsActive(g, queue[1..], filters, m); }
    }
  }

  /** One more filter acts on the active part of the queue. */
  lemma {:induction false} FilterActs(g: Log, queue: seq<Msg>, filters: seq<SeqNo>, last: SeqNo)
    requires Fits(g, queue, filters)
    ensures Fits(g, queue, filters + [last]) == Fits(g, Active(queue, filters), [last])
    ensures Active(queue, filters + [last]) == Active(Active(queue, filters), [last])
  {
    if filters == [] {
      assert filters + [last] == [last];
    } else {
      assert (filters + [last])[1..] == filters[1..] + [last];
      if queue[0].seqNo == filters[0] { FilterActs(g, queue[1..], filters[1..], last); }
      else { FilterActs(g, queue[1..], filters, last); }
    }
  }

  /** A filter for the last message empties the queue, or everything was safe anyway. */
  lemma {:induction false} FilterLast(g: Log, queue: seq<Msg>, last: SeqNo)
    requires queue != [] && last > 0 && queue[|queue| - 1].seqNo == last
    requires forall i | 0 <= i < |queue| :: Safe(g, queue[i].seqNo) || queue[i].seqNo < last || i == |queue| - 1
    ensures Fits(g, queue, [last])
    ensures AllSafe(g, Active(queue, [last]))
  {
    if queue[0].seqNo == last {
      assert [last][1..] == [];
      forall i | 0 <= i < |queue[1..]| ensures Safe(g, queue[1..][i].seqNo) {
        assert Safe(g, queue[0].seqNo);
      }
    } else {
      assert queue[1..][|queue[1..]| - 1] == queue[|queue| - 1];
      FilterLast(g, queue[1..], last);
    }
  }

  lemma PushKeepsCovered(g: Log, queue: seq<Msg>, m: Msg)
    requires Covered(g, queue)
    requires forall k: SeqNo | IsEvent(g, k) && k <= m.seqNo :: k in g.handled || Msg(k, true) in queue || m == Msg(k, true)
    ensures Covered(g, queue + [m])
  {
    var q := queue + [m];
    forall i, k: SeqNo | 0 <= i < |q| && IsEvent(g, k) && k <= q[i].seqNo
      ensures k in g.handled || Msg(k, true) in q[..i + 1]
    {
      if i < |queue| { assert q[..i + 1] == queue[..i + 1]; } else { assert q[..i + 1] == q; }
    }
  }

  lemma SafeIsCovered(g: Log, queue: seq<Msg>)
    requires AllSafe(g, queue)
    ensures Covered(g, queue)
  {}

  // ---- The worker takes a message ---------------------------------------

  lemma TakeUpActive(g: Log, w: Worker)
    requires Fits(g, w.queue, w.filters) && w.queue != []
    ensures Fits(g, TakeUp(w).queue, TakeUp(w).filters)
    ensures w.filters != [] ==> ActiveOf(TakeUp(w)) == ActiveOf(w)
    ensures w.filters == [] ==> ActiveOf(TakeUp(w)) == ActiveOf(w)[1..]
    ensures w.filters != [] && !Skips(w.filters, w.queue[0]) ==> Safe(g, w.queue[0].seqNo)
  {}

  function AfterHead(g: Log, queue: seq<Msg>): Log
    requires queue != []
  {
    g.(handled := g.handled + (if queue[0].isEvent then {queue[0].seqNo} else {}))
  }

  lemma HeadIsSafe(g: Log, queue: seq<Msg>)
    requires queue != [] && Covered(g, queue) && queue[0].seqNo <= g.high
    ensures Safe(AfterHead(g, queue), queue[0].seqNo)
  {
    forall k: SeqNo | IsEvent(g, k) && k <= queue[0].seqNo ensures k in AfterHead(g, queue).handled {
      if k !in g.handled { assert Msg(k, true) in queue[..1]; }
    }
  }

  lemma RestIsCovered(g: Log, queue: seq<Msg>)
    requires queue != [] && Covered(g, queue)
    ensures Covered(AfterHead(g, queue), queue[1..])
  {
    var q, g' := queue[1..], AfterHead(g, queue);
    forall i, k: SeqNo | 0 <= i < |q| && IsEvent(g', k) && k <= q[i].seqNo
      ensures k in g'.handled || Msg(k, true) in q[..i + 1]
    {
      assert IsEvent(g, k) && k <= queue[i + 1].seqNo;
      assert queue[..i + 2] == [queue[0]] + q[..i + 1];
    }
  }

  // ---- Each action keeps the consumer safe -------------------------------

  ghost predicate Ready(c: Id, x: Context, b: Blob, g: Log, p: Peer, a: Action) {
    && PeerInv(c, x, b, p) && SafePeer(c, g, p) && Safe(g, b.lastSeqNo) && Bounded(g) && Can(p, a) && Timely(p, a)
    && (a.Deliver? ==> NextEvent(g.history, p.kv.stream.cursor, a.next) && a.kind == g.history[a.next])
  }

  /** Bookkeeping that does not touch the counters of the stream. */
  lemma SameTraffic(c: Id, g: Log, p: Peer, l': Local)
    requires SafePeer(c, g, p)
    requires l'.lastSent == p.l.lastSent && l'.lastRead == p.l.lastRead && Mine(c, l') == Mine(c, p.l)
    requires l'.metadataUpdated == p.l.metadataUpdated && l'.issuing == p.l.issuing
    requires l'.streamRequested == p.l.streamRequested || (l'.streamRequested.None? && !Awaiting(p))
    requires Safe(g, l'.lastProcessed) && SafeList(g, l'.requests)
    ensures SafePeer(c, g, p.(l := l'))
  {}

  /** Queueing a request at a safe position. */
  lemma QueueIsSafe(c: Id, g: Log, p: Peer, b: Blob)
    requires Coherent(c, p) && SafePeer(c, g, p) && Safe(g, b.lastSeqNo)
    ensures SafePeer(c, g, p.(l := QueueRequest(c, p.l, b)))
  {}

  lemma TakeoverIsSafe(c: Id, x: Context, b: Blob, g: Log, p: Peer, a: Action)
    requires Ready(c, x, b, g, p, a) && a.TryTakeover?
    ensures SafePeer(c, g, NextPeer(c, x, b, p, a)) && Safe(g, NextDoc(c, x, b, p, a).lastSeqNo)
  {
    if a.rebalancing && Decide(c, x.shouldOwnNode, x.view, b).Start? { QueueIsSafe(c, g, p, b); }
    else { SameTraffic(c, g, p, NextPeer(c, x, b, p, a).l); }
  }

  /** A request for a vbucket that is not planned here: the document is freed if it names this consumer. */
  lemma ServeUnplannedIsSafe(c: Id, x: Context, b: Blob, g: Log, p: Peer, a: Action)
    requires Ready(c, x, b, g, p, a) && a.Serve? && !x.shouldOwn
    ensures SafePeer(c, g, NextPeer(c, x, b, p, a))
  {}

  lemma ServePlannedIsSafe(c: Id, x: Context, b: Blob, g: Log, p: Peer, a: Action)
    requires Ready(c, x, b, g, p, a) && a.Serve? && x.shouldOwn
    ensures SafePeer(c, g, NextPeer(c, x, b, p, a))
  {
    if a.call.Accepted? && Issues(c, x.shouldOwn, a.plannerRunning, p.l) { IssueIsSafe(c, x, b, g, p, a); }
    else { SameTraffic(c, g, p, NextPeer(c, x, b, p, a).l); }
  }

  lemma IssueIsSafe(c: Id, x: Context, b: Blob, g: Log, p: Peer, a: Action)
    requires Ready(c, x, b, g, p, a) && a.Serve? && a.call.Accepted? && Issues(c, x.shouldOwn, a.plannerRunning, p.l)
    ensures SafePeer(c, g, NextPeer(c, x, b, p, a))
  {}

  lemma ServeIsSafe(c: Id, x: Context, b: Blob, g: Log, p: Peer, a: Action)
    requires Ready(c, x, b, g, p, a) && a.Serve?
    ensures SafePeer(c, g, NextPeer(c, x, b, p, a)) && Safe(g, NextDoc(c, x, b, p, a).lastSeqNo)
  {
    if x.shouldOwn { ServePlannedIsSafe(c, x, b, g, p, a); } else { ServeUnplannedIsSafe(c, x, b, g, p, a); }
  }

  lemma FinishIsSafe(c: Id, x: Context, b: Blob, g: Log, p: Peer, a: Action)
    requires Ready(c, x, b, g, p, a) && a.Finish?
    ensures SafePeer(c, g, NextPeer(c, x, b, p, a)) && Safe(g, NextDoc(c, x, b, p, a).lastSeqNo)
  {}

  lemma FlogIsSafe(c: Id, x: Context, b: Blob, g: Log, p: Peer, a: Action)
    requires Ready(c, x, b, g, p, a) && a.TakeFlog?
    ensures SafePeer(c, g, NextPeer(c, x, b, p, a)) && Safe(g, NextDoc(c, x, b, p, a).lastSeqNo)
  {
    SameTraffic(c, g, p, NextPeer(c, x, b, p, a).l);
  }

  lemma ReportIsSafe(c: Id, x: Context, b: Blob, g: Log, p: Peer, a: Action)
    requires Ready(c, x, b, g, p, a) && a.TakeReport?
    ensures SafePeer(c, g, NextPeer(c, x, b, p, a)) && Safe(g, NextDoc(c, x, b, p, a).lastSeqNo)
  {
    SameTraffic(c, g, p, NextPeer(c, x, b, p, a).l);
    assert ActiveOf(NextPeer(c, x, b, p, a).w) == ActiveOf(p.w);
  }

  lemma ReportingIsSafe(c: Id, x: Context, b: Blob, g: Log, p: Peer, a: Action)
    requires Ready(c, x, b, g, p, a) && a.WorkerReports?
    ensures SafePeer(c, g, NextPeer(c, x, b, p, a)) && Safe(g, NextDoc(c, x, b, p, a).lastSeqNo)
  {
    assert ActiveOf(NextPeer(c, x, b, p, a).w) == ActiveOf(p.w);
  }

  lemma CleanupIsSafe(c: Id, x: Context, b: Blob, g: Log, p: Peer, a: Action)
    requires Ready(c, x, b, g, p, a) && (a.TickCleanup? || a.TickClose?)
    ensures SafePeer(c, g, NextPeer(c, x, b, p, a)) && Safe(g, NextDoc(c, x, b, p, a).lastSeqNo)
  {}

  lemma RestreamIsSafe(c: Id, x: Context, b: Blob, g: Log, p: Peer, a: Action)
    requires Ready(c, x, b, g, p, a) && a.TickRestream?
    ensures SafePeer(c, g, NextPeer(c, x, b, p, a)) && Safe(g, NextDoc(c, x, b, p, a).lastSeqNo)
  {
    var l1 := p.l.(restream := 0);
    SameTraffic(c, g, p, l1);
    QueueIsSafe(c, g, p.(l := l1), b);
  }

  lemma DocumentIsSafe(c: Id, x: Context, b: Blob, g: Log, p: Peer, a: Action)
    requires Ready(c, x, b, g, p, a) && (a.Checkpoint? || a.Correct?)
    ensures SafePeer(c, g, NextPeer(c, x, b, p, a)) && Safe(g, NextDoc(c, x, b, p, a).lastSeqNo)
  {}

  lemma {:induction false} AppendKeepsContiguous(history: map<SeqNo, Kind>, pos: SeqNo, dcp: seq<DcpEvent>, e: DcpEvent)
    requires Contiguous(history, pos, dcp) && forall i | 0 <= i < |dcp| :: dcp[i].Item?
    requires e.Item? ==> NextEvent(history, EndPos(pos, dcp), e.seqNo) && e.kind == history[e.seqNo]
    ensures Contiguous(history, pos, dcp + [e])
    ensures EndPos(pos, dcp + [e]) == if e.Item? then e.seqNo else EndPos(pos, dcp)
    decreases dcp
  {
    if dcp != [] {
      assert (dcp + [e])[1..] == dcp[1..] + [e];
      AppendKeepsContiguous(history, dcp[0].seqNo, dcp[1..], e);
    }
  }

  lemma AppendKeepsFlow(g: Log, kv: Connection, dcp: seq<DcpEvent>, e: DcpEvent, stream: Stream)
    requires Flows(g, kv, dcp) && kv.stream.Open? && forall i | 0 <= i < |dcp| :: dcp[i].Item?
    requires if e.Item? then NextEvent(g.history, kv.stream.cursor, e.seqNo) && e.kind == g.history[e.seqNo] && stream == Open(kv.stream.start, e.seqNo)
             else stream == Idle
    ensures Flows(g, kv.(stream := stream), dcp + [e])
  {
    AppendKeepsContiguous(g.history, kv.read, dcp, e);
  }

  lemma HangupReadingIsSafe(c: Id, x: Context, b: Blob, g: Log, p: Peer, a: Action)
    requires Ready(c, x, b, g, p, a) && (a.CloseFeeds? || a.Drop?) && !p.kv.stream.Idle? && Reading(c, p)
    ensures SafePeer(c, g, NextPeer(c, x, b, p, a))
  {
    AppendKeepsFlow(g, p.kv, p.kv.dcp, StreamEnd, Idle);
  }

  lemma HangupAwaitingIsSafe(c: Id, x: Context, b: Blob, g: Log, p: Peer, a: Action)
    requires Ready(c, x, b, g, p, a) && (a.CloseFeeds? || a.Drop?) && !p.kv.stream.Idle? && !Reading(c, p)
    ensures SafePeer(c, g, NextPeer(c, x, b, p, a))
  {
    var dcp := p.kv.dcp;
    if dcp != [] {
      assert (dcp + [StreamEnd])[1..] == dcp[1..] + [StreamEnd];
      AppendKeepsFlow(g, p.kv, dcp[1..], StreamEnd, Idle);
    }
  }

  lemma HangupIsSafe(c: Id, x: Context, b: Blob, g: Log, p: Peer, a: Action)
    requires Ready(c, x, b, g, p, a) && (a.CloseFeeds? || a.Drop?)
    ensures SafePeer(c, g, NextPeer(c, x, b, p, a)) && Safe(g, NextDoc(c, x, b, p, a).lastSeqNo)
  {
    if p.kv.stream.Idle? { SameTraffic(c, g, p, ResetMarks(p.l)); }
    else if Reading(c, p) { HangupReadingIsSafe(c, x, b, g, p, a); }
    else { HangupAwaitingIsSafe(c, x, b, g, p, a); }
  }

  lemma DeliverIsSafe(c: Id, x: Context, b: Blob, g: Log, p: Peer, a: Action)
    requires Ready(c, x, b, g, p, a) && a.Deliver?
    ensures SafePeer(c, g, NextPeer(c, x, b, p, a)) && Safe(g, NextDoc(c, x, b, p, a).lastSeqNo)
  {
    var dcp := p.kv.dcp;
    if Reading(c, p) { AppendKeepsFlow(g, p.kv, dcp, Item(a.next, a.kind), Open(p.kv.stream.start, a.next)); }
    else if dcp != [] {
      assert (dcp + [Item(a.next, a.kind)])[1..] == dcp[1..] + [Item(a.next, a.kind)];
      AppendKeepsFlow(g, p.kv, dcp[1..], Item(a.next, a.kind), Open(p.kv.stream.start, a.next));
    }
  }

  lemma AnswerIsSafe(c: Id, x: Context, b: Blob, g: Log, p: Peer, a: Action)
    requires Ready(c, x, b, g, p, a) && a.Answer?
    ensures SafePeer(c, g, NextPeer(c, x, b, p, a)) && Safe(g, NextDoc(c, x, b, p, a).lastSeqNo)
  {}

  lemma StreamReqIsSafe(c: Id, x: Context, b: Blob, g: Log, p: Peer, a: Action)
    requires Ready(c, x, b, g, p, a) && a.TakeDcp? && p.kv.dcp[0].StreamReq?
    ensures SafePeer(c, g, NextPeer(c, x, b, p, a)) && Safe(g, NextDoc(c, x, b, p, a).lastSeqNo)
  {}

  lemma AckIsSafe(c: Id, x: Context, b: Blob, g: Log, p: Peer, a: Action)
    requires Ready(c, x, b, g, p, a) && a.TakeAck?
    ensures SafePeer(c, g, NextPeer(c, x, b, p, a)) && Safe(g, NextDoc(c, x, b, p, a).lastSeqNo)
  {}

  /** A stream that has sent nothing leaves nothing unsafe behind. */
  lemma NothingSent(c: Id, g: Log, p: Peer)
    requires SafePeer(c, g, p) && Reading(c, p) && p.l.lastSent == 0
    ensures AllSafe(g, ActiveOf(p.w)) && Safe(g, p.l.lastRead)
  {
    var active := ActiveOf(p.w);
    SafeDown(g, p.w.processed, 0);
    assert forall k: SeqNo | IsEvent(g, k) && Msg(k, true) in active :: Safe(g, k);
  }

  /** The filter sent at a stream end leaves nothing unsafe behind. */
  lemma FilterLeavesSafe(c: Id, g: Log, p: Peer)
    requires SafePeer(c, g, p) && Reading(c, p) && p.l.lastSent != 0
    ensures Fits(g, p.w.queue, Filter(p.w, p.l.lastSent).filters)
    ensures AllSafe(g, ActiveOf(Filter(p.w, p.l.lastSent)))
  {
    var w, last := p.w, p.l.lastSent;
    if w.processed < last {
      FilterActs(g, w.queue, w.filters, last);
      FilterLast(g, ActiveOf(w), last);
    } else {
      SafeDown(g, w.processed, last);
    }
  }

  lemma StreamEndIsSafe(c: Id, x: Context, b: Blob, g: Log, p: Peer, a: Action)
    requires Ready(c, x, b, g, p, a) && a.TakeDcp? && p.kv.dcp[0].StreamEnd?
    ensures SafePeer(c, g, NextPeer(c, x, b, p, a)) && Safe(g, NextDoc(c, x, b, p, a).lastSeqNo)
  {
    var p' := NextPeer(c, x, b, p, a);
    if Reading(c, p) {
      if p.l.lastSent == 0 { NothingSent(c, g, p); } else { FilterLeavesSafe(c, g, p); }
    }
    SafeIsCovered(g, ActiveOf(p'.w));
  }

  /** Nothing lies between the position and the next event. */
  lemma NextIsNext(g: Log, pos: SeqNo, next: SeqNo, k: SeqNo)
    requires NextEvent(g.history, pos, next) && IsEvent(g, k) && k <= next
    ensures k <= pos || k == next
  {}

  lemma SentItem(c: Id, g: Log, p: Peer, seqNo: SeqNo, m: Msg)
    requires SafePeer(c, g, p) && Reading(c, p) && NextEvent(g.history, p.kv.read, seqNo)
    requires m.seqNo == seqNo && (IsEvent(g, seqNo) ==> m.isEvent)
    ensures Fits(g, Push(p.w, m).queue, p.w.filters)
    ensures ActiveOf(Push(p.w, m)) == ActiveOf(p.w) + [m]
    ensures Covered(g, ActiveOf(p.w) + [m])
  {
    PushKeepsActive(g, p.w.queue, p.w.filters, m);
    PushKeepsCovered(g, ActiveOf(p.w), m);
  }

  /** A 64-bit difference of two positions of a stream does not wrap around. */
  lemma NoWrap(a: SeqNo, b: SeqNo)
    requires b <= a
    ensures SubU64(a, b) == a - b
  {}

  /** What the reader knows when it takes up the next item. */
  lemma ItemIsNext(c: Id, x: Context, b: Blob, g: Log, p: Peer, a: Action)
    requires Ready(c, x, b, g, p, a) && a.TakeDcp? && p.kv.dcp[0].Item?
    ensures Reading(c, p) && !p.l.filtered && OpenShape(p.kv.dcp, p.kv.stream)
    ensures NextEvent(g.history, p.kv.read, p.kv.dcp[0].seqNo) && p.kv.dcp[0].kind == g.history[p.kv.dcp[0].seqNo]
  {}

  lemma ItemSentIsSafe(c: Id, g: Log, p: Peer, p': Peer, m: Msg)
    requires SafePeer(c, g, p) && Reading(c, p) && p.kv.dcp != [] && p.kv.dcp[0].Item? && p.kv.dcp[0].seqNo == m.seqNo && Bounded(g)
    requires NextEvent(g.history, p.kv.read, m.seqNo) && (IsEvent(g, m.seqNo) ==> m.isEvent)
    requires !Awaiting(p)
    requires p' == Peer(p.l.(lastRead := m.seqNo, lastSent := m.seqNo), p.kv.(dcp := p.kv.dcp[1..], read := m.seqNo), Push(p.w, m))
    ensures SafePeer(c, g, p')
  {
    SentItem(c, g, p, m.seqNo, m);
    forall k: SeqNo | IsEvent(g, k) && k <= m.seqNo ensures k in g.handled || Msg(k, true) in ActiveOf(p'.w) {
      NextIsNext(g, p.kv.read, m.seqNo, k);
    }
  }

  lemma ItemUnsentIsSafe(c: Id, g: Log, p: Peer, p': Peer, seqNo: SeqNo)
    requires SafePeer(c, g, p) && Reading(c, p) && p.kv.dcp != [] && p.kv.dcp[0].Item? && p.kv.dcp[0].seqNo == seqNo && Bounded(g)
    requires NextEvent(g.history, p.kv.read, seqNo) && !IsEvent(g, seqNo) && !Awaiting(p)
    requires p' == Peer(p.l.(lastRead := seqNo), p.kv.(dcp := p.kv.dcp[1..], read := seqNo), p.w)
    ensures SafePeer(c, g, p')
  {
    forall k: SeqNo | IsEvent(g, k) && k <= seqNo ensures k in g.handled || Msg(k, true) in ActiveOf(p'.w) {
      NextIsNext(g, p.kv.read, seqNo, k);
    }
  }

  lemma ItemIsSafe(c: Id, x: Context, b: Blob, g: Log, p: Peer, a: Action)
    requires Ready(c, x, b, g, p, a) && a.TakeDcp? && p.kv.dcp[0].Item?
    ensures SafePeer(c, g, NextPeer(c, x, b, p, a)) && Safe(g, NextDoc(c, x, b, p, a).lastSeqNo)
  {
    ItemIsNext(c, x, b, g, p, a);
    var seqNo, msg := p.kv.dcp[0].seqNo, Sends(false, p.l, p.kv.dcp[0].seqNo, p.kv.dcp[0].kind);
    if msg.Some? { ItemSentIsSafe(c, g, p, NextPeer(c, x, b, p, a), msg.value); }
    else { ItemUnsentIsSafe(c, g, p, NextPeer(c, x, b, p, a), seqNo); }
  }

  /** A message that a filter skips, or lets slip. */
  lemma FilteredTakeIsSafe(c: Id, g: Log, p: Peer)
    requires SafePeer(c, g, p) && p.w.queue != [] && p.w.filters != []
    ensures SafePeer(c, g, p.(w := TakeUp(p.w)))
  {
    TakeUpActive(g, p.w);
  }

  /** The reader's clauses survive when the head of an unfiltered queue is taken up. */
  lemma ReadingSurvives(g: Log, p: Peer)
    requires p.w.queue != [] && p.w.filters == [] && ReadingInv(g, p) && Bounded(g)
    ensures ReadingInv(AfterHead(g, p.w.queue), p.(w := TakeUp(p.w)))
  {
    var g', queue := AfterHead(g, p.w.queue), p.w.queue;
    assert ActiveOf(p.w) == queue && ActiveOf(TakeUp(p.w)) == queue[1..];
    forall k: SeqNo | IsEvent(g', k) && k <= p.kv.read ensures k in g'.handled || Msg(k, true) in queue[1..] {
      assert IsEvent(g, k);
      assert queue == [queue[0]] + queue[1..];
    }
    ContiguousGrows(g, g', p.kv.read, p.kv.dcp);
  }

  lemma UnfilteredTakeIsSafe(c: Id, g: Log, p: Peer)
    requires SafePeer(c, g, p) && p.w.queue != [] && p.w.filters == [] && Bounded(g)
    ensures SafePeer(c, AfterHead(g, p.w.queue), p.(w := TakeUp(p.w)))
  {
    var g', p' := AfterHead(g, p.w.queue), p.(w := TakeUp(p.w));
    assert ActiveOf(p.w) == p.w.queue && ActiveOf(p'.w) == p.w.queue[1..];
    SafePeerGrows(c, g, g', p);
    HeadIsSafe(g, p.w.queue);
    RestIsCovered(g, p.w.queue);
    if Reading(c, p) { ReadingSurvives(g, p); }
  }

  lemma WorkerTakesIsSafe(c: Id, x: Context, b: Blob, g: Log, p: Peer)
    requires Ready(c, x, b, g, p, WorkerTakes)
    ensures SafePeer(c, g.(handled := g.handled + Handles(p, WorkerTakes)), NextPeer(c, x, b, p, WorkerTakes))
  {
    var g' := g.(handled := g.handled + Handles(p, WorkerTakes));
    if p.w.filters == [] {
      UnfilteredTakeIsSafe(c, g, p);
    } else {
      FilteredTakeIsSafe(c, g, p);
      SafePeerGrows(c, g, g', p.(w := TakeUp(p.w)));
    }
  }

  lemma DcpIsSafe(c: Id, x: Context, b: Blob, g: Log, p: Peer, a: Action)
    requires Ready(c, x, b, g, p, a) && a.TakeDcp?
    ensures SafePeer(c, g, NextPeer(c, x, b, p, a)) && Safe(g, NextDoc(c, x, b, p, a).lastSeqNo)
  {
    match p.kv.dcp[0]
    case StreamReq(_) => StreamReqIsSafe(c, x, b, g, p, a);
    case StreamEnd => StreamEndIsSafe(c, x, b, g, p, a);
    case Item(_, _) => ItemIsSafe(c, x, b, g, p, a);
  }

  lemma ActionIsSafe(c: Id, x: Context, b: Blob, g: Log, p: Peer, a: Action)
    requires Ready(c, x, b, g, p, a) && !a.WorkerTakes?
    ensures SafePeer(c, g, NextPeer(c, x, b, p, a)) && Safe(g, NextDoc(c, x, b, p, a).lastSeqNo)
  {
    match a
    case TryTakeover(_) => TakeoverIsSafe(c, x, b, g, p, a);
    case Serve(_, _) => ServeIsSafe(c, x, b, g, p, a);
    case Finish => FinishIsSafe(c, x, b, g, p, a);
    case TakeDcp => DcpIsSafe(c, x, b, g, p, a);
    case TakeFlog(_) => FlogIsSafe(c, x, b, g, p, a);
    case TakeAck => AckIsSafe(c, x, b, g, p, a);
    case TakeReport => ReportIsSafe(c, x, b, g, p, a);
    case WorkerReports => ReportingIsSafe(c, x, b, g, p, a);
    case TickCleanup(_) => CleanupIsSafe(c, x, b, g, p, a);
    case TickClose => CleanupIsSafe(c, x, b, g, p, a);
    case TickRestream => RestreamIsSafe(c, x, b, g, p, a);
    case Checkpoint => DocumentIsSafe(c, x, b, g, p, a);
    case Correct => DocumentIsSafe(c, x, b, g, p, a);
    case CloseFeeds => HangupIsSafe(c, x, b, g, p, a);
    case Drop => HangupIsSafe(c, x, b, g, p, a);
    case Answer(_) => AnswerIsSafe(c, x, b, g, p, a);
    case Deliver(_, _) => DeliverIsSafe(c, x, b, g, p, a);
  }

  // ---- Every run ---------------------------------------------------------

  ghost predicate SafeSystem(s: System) {
    && Inv(s)
    && Bounded(s.log)
    && Safe(s.log, s.doc.lastSeqNo)
    && (forall c | c in s.live :: SafePeer(c, s.log, s.peers[c]))
  }

  lemma OthersStaySafe(s: System, g': Log, d: Id)
    requires SafeSystem(s) && Grown(s.log, g') && d in s.live
    ensures SafePeer(d, g', s.peers[d])
  {
    assert SafePeer(d, s.log, s.peers[d]);
    SafePeerGrows(d, s.log, g', s.peers[d]);
  }

  lemma ActorStaysSafe(s: System, c: Id, a: Action)
    requires SafeSystem(s) && Enabled(s, Act(c, a)) && Timely(s.peers[c], a)
    ensures SafePeer(c, Apply(s, Act(c, a)).log, Apply(s, Act(c, a)).peers[c])
    ensures Safe(Apply(s, Act(c, a)).log, Apply(s, Act(c, a)).doc.lastSeqNo)
    ensures Grown(s.log, Apply(s, Act(c, a)).log)
  {
    var x, p, s' := ContextOf(s, c), s.peers[c], Apply(s, Act(c, a));
    assert PeerInv(c, x, s.doc, p) && SafePeer(c, s.log, p);
    if a.WorkerTakes? {
      WorkerTakesIsSafe(c, x, s.doc, s.log, p);
      SafeGrows(s.log, s'.log, s.doc.lastSeqNo);
    } else {
      ActionIsSafe(c, x, s.doc, s.log, p, a);
      assert s'.log == s.log;
    }
  }

  lemma ActKeepsSafe(s: System, c: Id, a: Action)
    requires SafeSystem(s) && Enabled(s, Act(c, a)) && Timely(s.peers[c], a)
    ensures SafeSystem(Apply(s, Act(c, a)))
  {
    var s' := Apply(s, Act(c, a));
    ActKeeps(s, c, a);
    ActorStaysSafe(s, c, a);
    forall d | d in s'.live ensures SafePeer(d, s'.log, s'.peers[d]) {
      if d != c { OthersStaySafe(s, s'.log, d); }
    }
  }

  lemma ClusterKeepsSafe(s: System, t: Step)
    requires SafeSystem(s) && Enabled(s, t) && Orderly(s, t) && !t.Act?
    ensures SafeSystem(Apply(s, t))
  {
    var s' := Apply(s, t);
    StepKeeps(s, t);
    assert Grown(s.log, s'.log);
    forall c | c in s'.live ensures SafePeer(c, s'.log, s'.peers[c]) {
      if c in s.live { SafePeerGrows(c, s.log, s'.log, s.peers[c]); }
      else { SafeDown(s.log, s.doc.lastSeqNo, 0); }
    }
  }

  lemma StepKeepsSafe(s: System, t: Step)
    requires SafeSystem(s) && Enabled(s, t) && Orderly(s, t)
    ensures SafeSystem(Apply(s, t))
  {
    if t.Act? { ActKeepsSafe(s, t.c, t.a); } else { ClusterKeepsSafe(s, t); }
  }

  lemma InitIsSafe(s: System)
    requires Init(s)
    ensures SafeSystem(s)
  {
    InitHolds(s);
    SafeDown(s.log, s.doc.lastSeqNo, 0);
  }

  lemma {:induction false} RunIsSafe(states: seq<System>, steps: seq<Step>, n: nat)
    requires Run({}, states, steps) && n < |states|
    ensures SafeSystem(states[n])
  {
    if n == 0 {
      InitIsSafe(states[0]);
    } else {
      RunIsSafe(states, steps, n - 1);
      var s, t := states[n - 1], steps[n - 1];
      assert Follows({}, s, t, states[n]) && Orderly(s, t);
      StepKeepsSafe(s, t);
    }
  }

  // ---- Main results ------------------------------------------------------

  /**
   In every reachable state, every event for the handler up to the checkpoint of the
   document has been taken up by a worker, and so has every event up to the
   position at which a queued or requested stream starts.
   */
  lemma NoEventSkipped(states: seq<System>, steps: seq<Step>, n: nat, k: SeqNo)
    requires Run({}, states, steps) && n < |states|
    requires k in states[n].log.history && states[n].log.history[k].Handler?
    ensures k <= states[n].doc.lastSeqNo ==> k in states[n].log.handled
    ensures forall c | c in states[n].live :: c in states[n].peers &&
              (forall i | 0 <= i < |states[n].peers[c].l.requests| ::
                 k <= states[n].peers[c].l.requests[i] ==> k in states[n].log.handled) &&
              (states[n].peers[c].l.streamRequested.Some? && k <= states[n].peers[c].l.streamRequested.value ==>
                 k in states[n].log.handled)
  {
    RunIsSafe(states, steps, n);
    forall c | c in states[n].live ensures SafePeer(c, states[n].log, states[n].peers[c]) {}
  }

  /**
   The handshake: an answered request is taken up only after its counters have been
   reset, and an item only after the answer has been taken up.
   */
  lemma HandshakeHolds(states: seq<System>, steps: seq<Step>, n: nat, c: Id)
    requires Run({}, states, steps) && n < |states| && c in states[n].live
    ensures c in states[n].peers
    ensures var p := states[n].peers[c];
            p.kv.dcp != [] && Can(p, TakeDcp) ==>
              && p.l.issuing.None?
              && (p.kv.dcp[0].StreamReq? ==> p.l.lastSent == 0 && Safe(states[n].log, p.l.lastRead))
              && (p.kv.dcp[0].Item? ==> Owned(c, p.l) && !p.l.metadataUpdated)
  {
    RunIsSafe(states, steps, n);
    assert PeerInv(c, ContextOf(states[n], c), states[n].doc, states[n].peers[c]);
    assert SafePeer(c, states[n].log, states[n].peers[c]);
  }

  /** What was sent on an open stream does not exceed what was read. */
  lemma SentWithinRead(states: seq<System>, steps: seq<Step>, n: nat, c: Id)
    requires Run({}, states, steps) && n < |states| && c in states[n].live
    ensures c in states[n].peers
    ensures var p := states[n].peers[c]; Owned(c, p.l) && p.w.acks == [] ==> p.l.lastSent <= p.l.lastRead
  {
    RunIsSafe(states, steps, n);
    assert SafePeer(c, states[n].log, states[n].peers[c]);
  }

  /**
   When an item is read: the 64-bit difference that decides on a no-op does not wrap around, and after an event
   of another collection or a bookkeeping event the worker lags by less than 200.
   */
  lemma CountersHold(states: seq<System>, steps: seq<Step>, n: nat, c: Id)
    requires Run({}, states, steps) && n < |steps| && c in states[n].live && steps[n] == Act(c, TakeDcp)
    requires c in states[n].peers && states[n].peers[c].kv.dcp != [] && states[n].peers[c].kv.dcp[0].Item?
    ensures c in states[n + 1].peers
    ensures var l, l', e := states[n].peers[c].l, states[n + 1].peers[c].l, states[n].peers[c].kv.dcp[0];
            && l.lastSent < e.seqNo && SubU64(e.seqNo, l.lastSent) == e.seqNo - l.lastSent
            && l'.lastSent <= l'.lastRead == e.seqNo
            && (!e.kind.Handler? && !e.kind.Suppressed? ==> l'.lastRead - l'.lastSent < NOOP_THRESHOLD)
  {
    var s, p := states[n], states[n].peers[c];
    RunIsSafe(states, steps, n);
    assert PeerInv(c, ContextOf(s, c), s.doc, p) && SafePeer(c, s.log, p);
    assert Follows({}, s, steps[n], states[n + 1]);
    assert Reading(c, p) && NextEvent(s.log.history, p.kv.read, p.kv.dcp[0].seqNo);
    NoWrap(p.kv.dcp[0].seqNo, p.l.lastSent);
  }
}
