/**
 The whole protocol for one vbucket: the document, every consumer with its DCP
 connection and its worker, and the cluster-wide plan. One atomic step per
 call of a consumer routine; the request routine counts as two steps, because
 the server may answer between them.
 */
module VbucketSystem {
  import opened Prelude
  import opened Vbucket
  import opened Worker

  // ---- One consumer ----------------------------------------------------

  /** The stream as the data service and the connection see it. */
  datatype Stream = Idle | Requested(start: SeqNo) | Open(start: SeqNo, cursor: SeqNo)

  /**
   `dcp` holds the events that are waiting for the consumer; `read` is the position of the
   last event that was taken from it in the current stream.
   */
  datatype Connection = Connection(stream: Stream, dcp: seq<DcpEvent>, read: SeqNo)

  /** A consumer, its connection to the data service, and its worker. */
  datatype Peer = Peer(l: Local, kv: Connection, w: Worker)

  /** What the plan and the cluster tell a consumer. */
  datatype Context = Context(shouldOwn: bool, shouldOwnNode: bool, view: View)

  datatype Action =
    // the consumer
    | TryTakeover(rebalancing: bool)
    | Serve(plannerRunning: bool, call: Call)
    | Finish
    | TakeDcp
    | TakeFlog(fetched: bool)
    | TakeReport
    | TakeAck
    | TickCleanup(plannerRunning: bool)
    | TickClose
    | TickRestream
    | Checkpoint
    | Correct
    | CloseFeeds
    // its worker
    | WorkerTakes
    | WorkerReports
    // the data service
    | Answer(success: bool)
    | Deliver(next: SeqNo, kind: Kind)
    | Drop

  predicate Can(p: Peer, a: Action) {
    match a
    case Serve(_, _) => p.l.requests != []
    case Finish => p.l.issuing.Some?
    case TakeDcp => p.kv.dcp != [] && (p.kv.dcp[0].StreamReq? ==> p.l.metadataUpdated)
    case TakeFlog(_) => p.l.flog != []
    case TakeReport => p.w.reports != []
    case TakeAck => p.w.acks != []
    // the request routine and the closing of feeds exclude each other (streamReqRWMutex)
    case CloseFeeds => p.l.issuing.None?
    case WorkerTakes => p.w.queue != []
    case Answer(_) => p.kv.stream.Requested?
    case Deliver(_, _) => p.kv.stream.Open?
    case Drop => !p.kv.stream.Idle?
    case _ => true
  }

  /** The stream, if there is one, ends: the consumer will read STREAMEND. */
  function Hangup(kv: Connection): Connection {
    if kv.stream.Idle? then kv else kv.(stream := Idle, dcp := kv.dcp + [StreamEnd])
  }

  /** The consumer takes the first waiting DCP event. */
  function ReadDcp(c: Id, x: Context, p: Peer): Peer
    requires p.kv.dcp != []
  {
    var kv := p.kv.(dcp := p.kv.dcp[1..]);
    match p.kv.dcp[0]
    case StreamReq(success) =>
      if success then Peer(StreamOpened(c, x.shouldOwn, p.l), kv, SetProcessed(p.w, p.l.lastProcessed))
      else Peer(StreamRejected(p.l), kv, p.w)
    case StreamEnd =>
      var l := p.l.(metadataUpdated := false);
      if EndsAtOnce(l) then Peer(EndStream(c, x.shouldOwn, l, l.lastRead), kv, p.w)
      else Peer(l, kv, Filter(p.w, l.lastSent))
    case Item(seqNo, kind) =>
      var msg := Sends(false, p.l, seqNo, kind);
      Peer(HandleItem(false, p.l, seqNo, kind), kv.(read := seqNo), if msg.Some? then Push(p.w, msg.value) else p.w)
  }

  function ReadDcpDoc(c: Id, p: Peer, b: Blob): Blob
    requires p.kv.dcp != []
  {
    match p.kv.dcp[0]
    case StreamReq(success) => if success then WriteRunning(c, b) else WriteRequestFailed(b)
    case StreamEnd => if EndsAtOnce(p.l) then EndStreamDoc(b, p.l.lastRead) else b
    case Item(_, _) => b
  }

  /** The server's answer to a stream request. */
  function AnswerRequest(kv: Connection, success: bool): Connection
    requires kv.stream.Requested?
  {
    var dcp := kv.dcp + [StreamReq(success)];
    if success then Connection(Open(kv.stream.start, kv.stream.start), dcp, kv.stream.start)
    else kv.(stream := Idle, dcp := dcp)
  }

  function NextPeer(c: Id, x: Context, b: Blob, p: Peer, a: Action): Peer
    requires Can(p, a)
  {
    match a
    case TryTakeover(rebalancing) => p.(l := Takeover(c, x.shouldOwnNode, x.view, rebalancing, p.l, b))
    case Serve(plannerRunning, call) =>
      p.(l := ServeRequest(c, x.shouldOwn, plannerRunning, call, p.l, b),
         kv := if call.Accepted? && Issues(c, x.shouldOwn, plannerRunning, p.l)
               then p.kv.(stream := Requested(p.l.requests[0])) else p.kv)
    case Finish => p.(l := FinishRequest(c, p.l))
    case TakeDcp => ReadDcp(c, x, p)
    case TakeFlog(fetched) => p.(l := HandleFlog(c, fetched, p.l, b))
    case TakeReport => p.(l := HandleReport(p.l, p.w.reports[0]), w := p.w.(reports := p.w.reports[1..]))
    case TakeAck => p.(l := EndStream(c, x.shouldOwn, p.l, p.w.acks[0]), w := p.w.(acks := p.w.acks[1..]))
    case TickCleanup(plannerRunning) => p.(l := CleanupTick(c, x.shouldOwn, plannerRunning, p.l, b))
    case TickClose => p.(l := CloseTick(c, x.shouldOwn, p.l))
    case TickRestream => p.(l := RestreamTick(c, x.shouldOwn, p.l, b))
    case Checkpoint => p
    case Correct => p
    case CloseFeeds => p.(l := ResetMarks(p.l), kv := Hangup(p.kv))
    case WorkerTakes => p.(w := TakeUp(p.w))
    case WorkerReports => p.(w := Report(p.w))
    case Answer(success) => p.(kv := AnswerRequest(p.kv, success))
    case Deliver(next, kind) => p.(kv := p.kv.(stream := Open(p.kv.stream.start, next), dcp := p.kv.dcp + [Item(next, kind)]))
    case Drop => p.(kv := Hangup(p.kv))
  }

  function NextDoc(c: Id, x: Context, b: Blob, p: Peer, a: Action): Blob
    requires Can(p, a)
  {
    match a
    case Serve(_, _) => ServeRequestDoc(c, x.shouldOwn, b)
    case Finish => WriteRequested(c, b)
    case TakeDcp => ReadDcpDoc(c, p, b)
    case TakeAck => EndStreamDoc(b, p.w.acks[0])
    case TickCleanup(plannerRunning) => CleanupTickDoc(c, x.shouldOwn, plannerRunning, p.l, b)
    case TickClose => CloseTickDoc(c, x.shouldOwn, p.l, b)
    case Checkpoint => CheckpointDoc(c, x.shouldOwnNode, x.shouldOwn, p.l, b)
    case Correct => CorrectDoc(c, x.shouldOwn, p.l, b)
    case _ => b
  }

  function Handles(p: Peer, a: Action): set<SeqNo> {
    if a.WorkerTakes? && p.w.queue != [] then TakenUp(p.w) else {}
  }

  // ---- The cluster -----------------------------------------------------

  /**
   `history` holds the events of the vbucket, `high` bounds them; `handled` are
   the events that some worker has taken up.
   */
  datatype Log = Log(history: map<SeqNo, Kind>, high: SeqNo, handled: set<SeqNo>)

  /** `views` holds what each consumer believes about the cluster. */
  datatype System = System(
    doc: Blob, peers: map<Id, Peer>, live: set<Id>, plan: Id, views: map<Id, View>, log: Log)

  datatype Step =
    | Act(c: Id, a: Action)
    | Produce(next: SeqNo, kind: Kind)
    | Die(node: string)
    | Look(c: Id, view: View)
    | Replan(plan: Id)
    | Join(c: Id, view: View)

  /** Every live consumer has a state and a view. */
  predicate Populated(s: System) {
    s.live <= s.peers.Keys && s.live <= s.views.Keys
  }

  function ContextOf(s: System, c: Id): Context
    requires c in s.views
  {
    Context(s.plan == c, s.plan.host == c.host, s.views[c])
  }

  function FreshPeer(c: Id): Peer {
    Peer(FreshLocal(c), Connection(Idle, [], 0), FreshWorker)
  }

  predicate NextEvent(history: map<SeqNo, Kind>, pos: SeqNo, next: SeqNo) {
    next in history && pos < next && forall k | k in history :: pos < k ==> next <= k
  }

  predicate Enabled(s: System, t: Step)
    requires Populated(s)
  {
    match t
    case Act(c, a) =>
      && c in s.live && Can(s.peers[c], a)
      && (a.Deliver? ==> NextEvent(s.log.history, s.peers[c].kv.stream.cursor, a.next) && a.kind == s.log.history[a.next])
    case Produce(next, _) => s.log.high < next
    case Look(c, _) => c in s.live
    case Join(c, _) =>
      c !in s.peers && c.worker != "" && forall d | d in s.live :: d.node != c.node || d.worker != c.worker
    case _ => true
  }

  function Apply(s: System, t: Step): System
    requires Populated(s) && Enabled(s, t)
  {
    match t
    case Act(c, a) =>
      var x, p := ContextOf(s, c), s.peers[c];
      s.(doc := NextDoc(c, x, s.doc, p, a), peers := s.peers[c := NextPeer(c, x, s.doc, p, a)],
         log := s.log.(handled := s.log.handled + Handles(p, a)))
    case Produce(next, kind) => s.(log := Log(s.log.history[next := kind], next, s.log.handled))
    case Die(node) => s.(live := set c | c in s.live && c.node != node)
    case Look(c, view) => s.(views := s.views[c := view])
    case Replan(plan) => s.(plan := plan)
    case Join(c, view) => s.(peers := s.peers[c := FreshPeer(c)], live := s.live + {c}, views := s.views[c := view])
  }

  // ---- The rules of an orderly run ---------------------------------------

  /** A consumer that is known as alive. */
  predicate Sees(v: View, c: Id) {
    c.node in v.uuids && c.node in v.known && c.worker in v.workers
  }

  predicate Sighted(s: System)
    requires Populated(s)
  {
    forall c, d | c in s.live && d in s.live :: Sees(s.views[d], c)
  }

  predicate Narrows(v: View, v': View) {
    v'.hosts <= v.hosts && v'.uuids <= v.uuids && v'.known <= v.known && v'.workers <= v.workers
  }

  /** The consumer has a stream, or will ask for one without looking at the document again. */
  predicate Engaged(l: Local) {
    l.streamRequested.Some? || l.requests != [] || l.restream > 0
  }

  predicate Moves(s: System, t: Step) {
    t.Replan? && t.plan != s.plan
  }

  datatype Rule =
    | HolderSettled    // when the plan moves, a consumer with an entry of vbStreamRequested counts the stream as its own
    | HolderDrained    // and then has no request queued
    | HolderUnlisted   // and is not to clean up the document
    | HeirDrained      // when the plan moves, the consumer that gets the vbucket has no request queued
    | HeirUnlisted     // and is not to stream the vbucket again
    | AllSeen          // every consumer knows all that are alive
    | NoneReturns      // a consumer that is engaged by the plan sees nobody come back
    | Answered         // a connection is not lost between a request and its bookkeeping, unless the server has answered

  predicate Obeys(s: System, t: Step, rule: Rule)
    requires Populated(s) && Enabled(s, t)
  {
    match rule
    case HolderSettled =>
      Moves(s, t) ==> forall c | c in s.live && c != t.plan :: s.peers[c].l.streamRequested.Some? ==> Mine(c, s.peers[c].l)
    case HolderDrained =>
      Moves(s, t) ==> forall c | c in s.live && c != t.plan :: Mine(c, s.peers[c].l) ==> s.peers[c].l.requests == []
    case HolderUnlisted =>
      Moves(s, t) ==> forall c | c in s.live && c != t.plan :: Mine(c, s.peers[c].l) ==> !s.peers[c].l.toCleanup
    case HeirDrained => Moves(s, t) && t.plan in s.live ==> s.peers[t.plan].l.requests == []
    case HeirUnlisted => Moves(s, t) && t.plan in s.live ==> s.peers[t.plan].l.restream == 0
    case AllSeen => Sighted(Apply(s, t))
    case NoneReturns => t.Look? && t.c == s.plan && Engaged(s.peers[t.c].l) ==> Narrows(s.views[t.c], t.view)
    case Answered => t.Act? && t.a.Drop? && s.peers[t.c].kv.stream.Requested? ==> s.peers[t.c].l.issuing.None?
  }

  /** Every event for the handler up to this position has been taken up by some worker. */
  predicate Safe(g: Log, pos: SeqNo) {
    pos <= g.high && forall k | k in g.history && k <= pos && g.history[k].Handler? :: k in g.handled
  }

  /**
   After bootstrap: nobody streams, the document is free and its checkpoint is
   within the events already handled.
   */
  predicate Init(s: System) {
    && s.live == s.peers.Keys == s.views.Keys
    && (forall c | c in s.peers :: c.worker != "" && s.peers[c] == FreshPeer(c))
    && (forall c, d | c in s.peers && d in s.peers && c != d :: c.node != d.node || c.worker != d.worker)
    && Sighted(s)
    && (s.doc.status == STOPPED || s.doc.status == UNINITIALISED) && !s.doc.requested
    && (forall k | k in s.log.history :: k <= s.log.high)
    && Safe(s.log, s.doc.lastSeqNo)
  }

  /** The step is possible and obeys every rule that is not waived. */
  predicate Follows(waived: set<Rule>, s: System, t: Step, s': System) {
    Populated(s) && Enabled(s, t) && s' == Apply(s, t) && forall rule: Rule | rule !in waived :: Obeys(s, t, rule)
  }

  /** A finite run of the protocol. */
  predicate Run(waived: set<Rule>, states: seq<System>, steps: seq<Step>) {
    && |states| == |steps| + 1
    && Init(states[0])
    && forall i :: 0 <= i < |steps| ==> Follows(waived, states[i], steps[i], states[i + 1])
  }

  ghost predicate Reachable(waived: set<Rule>, s: System) {
    exists states: seq<System>, steps: seq<Step> :: Run(waived, states, steps) && states[|steps|] == s
  }

  /** The consumer has asked for a stream, or has one. */
  predicate Streaming(p: Peer) {
    p.l.issuing.Some? || !p.kv.stream.Idle?
  }
}
