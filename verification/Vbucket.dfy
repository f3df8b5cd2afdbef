/**
 What one consumer does to one vbucket: the shared metadata document, the
 consumer's own bookkeeping for the vbucket, and one function per step of the
 hand-off protocol (consumer/vbucket_takeover.go, consumer/process_events.go,
 consumer/bucket_ops.go, consumer/control_routine.go, consumer/protocol.go).
 The functions are total and cover branches that the runs of module
 VbucketSystem never reach. These branches are not there: a rollback, an answer
 without a failover log or KEY_EEXISTS to a stream request, a request made
 while the function is being terminated, and the clean-up of feeds whose data
 node has left.
 */
module Vbucket {
  import opened Prelude

  /** DCP sequence numbers are unsigned 64-bit integers. */
  type SeqNo = x: int | 0 <= x < 0x1_0000_0000_0000_0000

  const RUNNING: string := "running"
  const STOPPED: string := "stopped"
  const UNINITIALISED: string := ""

  /** A no-op message is sent when the worker lags this far behind. */
  const NOOP_THRESHOLD := 200

  /** A consumer: node UUID, host:port of the node, worker name. */
  datatype Id = Id(node: string, host: string, worker: string)

  /** The metadata document of a vbucket (the fields the protocol uses). */
  datatype Blob = Blob(
    assignedWorker: string, currentVbOwner: string, nodeUuid: string,
    status: string, requested: bool,
    nodeRequested: string, nodeUuidRequested: string, workerRequested: string,
    lastSeqNo: SeqNo)

  /** Entries of vbFlogChan. */
  datatype FlogEntry = StreamCreated | StreamFailed | StreamEnded

  /**
   A consumer's own state for one vbucket: its entry of vbProcessingStats, its
   membership in the enqueued, in-flight, requested and filtered collections,
   its share of the request and failover-log channels and of the three lists of
   the control routine. `issuing` is the request that is between the call of
   DcpRequestStream and the bookkeeping that follows it.
   */
  datatype Local = Local(
    nodeUuid: string, assignedWorker: string, status: string,
    requestedNode: string, requestedWorker: string,
    lastProcessed: SeqNo, lastRead: SeqNo, lastSent: SeqNo,
    metadataUpdated: bool,
    enqueued: bool, inflight: bool, streamRequested: Option<SeqNo>, filtered: bool,
    issuing: Option<SeqNo>,
    requests: seq<SeqNo>, flog: seq<FlogEntry>,
    restream: nat, toClose: nat, toCleanup: bool)

  /** What a consumer believes about the cluster. */
  datatype View = View(hosts: set<string>, uuids: set<string>, known: set<string>, workers: set<string>)

  function FreshLocal(c: Id): Local {
    Local(c.node, "", STOPPED, "", "", 0, 0, 0, false,
          false, false, None, false, None, [], [], 0, 0, false)
  }

  /** The stats say that the vbucket belongs to this consumer. */
  predicate Mine(c: Id, l: Local) {
    l.nodeUuid == c.node && l.assignedWorker == c.worker
  }

  /** checkIfVbAlreadyOwnedByCurrConsumer */
  predicate Owned(c: Id, l: Local) {
    Mine(c, l) && l.status == RUNNING
  }

  predicate Alive(v: View, host: string, uuid: string) {
    host in v.hosts || uuid in v.uuids
  }

  // ---- Document writes -------------------------------------------------

  /** addOwnershipHistorySRRCallback: a stream has been requested. */
  function WriteRequested(c: Id, b: Blob): Blob {
    b.(assignedWorker := "", currentVbOwner := "", nodeUuid := "", status := UNINITIALISED, requested := true,
       nodeRequested := c.host, nodeUuidRequested := c.node, workerRequested := c.worker)
  }

  /** addOwnershipHistorySRFCallback: the request failed. */
  function WriteRequestFailed(b: Blob): Blob {
    b.(assignedWorker := "", currentVbOwner := "", nodeUuid := "", status := UNINITIALISED, requested := false,
       nodeRequested := "", nodeUuidRequested := "", workerRequested := "")
  }

  /** addOwnershipHistorySRSCallback: the stream is open. The checkpoint is not written. */
  function WriteRunning(c: Id, b: Blob): Blob {
    b.(assignedWorker := c.worker, currentVbOwner := c.host, nodeUuid := c.node, status := RUNNING, requested := false,
       nodeRequested := "", nodeUuidRequested := "", workerRequested := "")
  }

  /** addOwnershipHistorySECallback: the stream has ended. */
  function WriteEnded(b: Blob): Blob {
    b.(requested := false, nodeRequested := "", nodeUuidRequested := "", workerRequested := "")
  }

  /** updateCheckpoint and updateCheckpointCallback: nobody owns the vbucket. */
  function WriteReleased(b: Blob, last: SeqNo): Blob {
    b.(assignedWorker := "", currentVbOwner := "", nodeUuid := "", status := STOPPED, requested := false,
       nodeRequested := "", nodeUuidRequested := "", workerRequested := "", lastSeqNo := last)
  }

  /** metadataCorrectionCallback */
  function WriteCorrected(c: Id, b: Blob): Blob {
    b.(assignedWorker := c.worker, currentVbOwner := c.host, nodeUuid := c.node, status := RUNNING, requested := false)
  }

  predicate DocNames(c: Id, b: Blob) {
    b.status == RUNNING && b.nodeUuid == c.node && b.assignedWorker == c.worker
  }

  // ---- Takeover --------------------------------------------------------

  datatype Verdict =
    | Start                  // go on to updateVbOwnerAndStartDCPStream
    | AlreadyRunning         // this consumer has the stream
    | OwnedByAnotherWorker | OwnedByAnotherNode | StreamRequested | UnexpectedStatus

  predicate Refused(v: Verdict) {
    !v.Start? && !v.AlreadyRunning?
  }

  /** The case split of doVbTakeover. */
  function Decide(c: Id, shouldOwnNode: bool, v: View, b: Blob): Verdict {
    if b.status == RUNNING then
      if b.nodeUuid != c.node && !Alive(v, b.currentVbOwner, b.nodeUuid) && shouldOwnNode then Start        // 1a
      else if b.nodeUuid != c.node && b.assignedWorker !in v.workers then Start                             // 1b
      else if b.nodeUuid != c.node && b.nodeUuid !in v.known then Start                                     // 1c
      else if b.nodeUuid == c.node && b.assignedWorker == c.worker then AlreadyRunning                      // 2a
      else if b.nodeUuid == c.node && b.assignedWorker !in v.workers then Start                             // 2b
      else if b.nodeUuid == c.node then OwnedByAnotherWorker                                                // 2c
      else OwnedByAnotherNode                                                                               // 3
    else if b.status == STOPPED || b.status == UNINITIALISED then
      if !b.requested then Start
      else if b.nodeUuidRequested == c.node && b.workerRequested == c.worker then Start
      else if b.nodeUuidRequested == "" && b.workerRequested == "" then Start
      else if b.nodeUuidRequested != c.node && !Alive(v, b.nodeRequested, b.nodeUuidRequested) then Start
      else StreamRequested
    else UnexpectedStatus
  }

  /** updateVbOwnerAndStartDCPStream: queue a request that starts at the checkpoint. */
  function QueueRequest(c: Id, l: Local, b: Blob): Local {
    if Owned(c, l) || l.enqueued then l
    else l.(enqueued := true, lastProcessed := b.lastSeqNo, lastRead := b.lastSeqNo,
            requests := l.requests + [b.lastSeqNo])
  }

  /** purgeVbStreamRequested */
  function Purge(l: Local): Local {
    l.(streamRequested := None)
  }

  /** vbTakeoverCallback around doVbTakeover. */
  function Takeover(c: Id, shouldOwnNode: bool, v: View, rebalancing: bool, l: Local, b: Blob): Local {
    if !rebalancing then l.(enqueued := false)
    else
      var verdict := Decide(c, shouldOwnNode, v, b);
      if verdict.Start? then QueueRequest(c, l, b)
      else if verdict.AlreadyRunning? then l
      else Purge(l)
  }

  // ---- Serving a queued request ----------------------------------------

  /** cleanupVbMetadata */
  function CleanupDoc(c: Id, b: Blob): Blob {
    if DocNames(c, b) then WriteReleased(b, b.lastSeqNo) else b
  }

  /** updateCheckpoint also writes the released state into the stats. */
  function ReleaseStats(l: Local, last: SeqNo): Local {
    l.(assignedWorker := "", status := STOPPED, nodeUuid := "", lastProcessed := last)
  }

  function CleanupLocal(c: Id, l: Local, b: Blob): Local {
    if DocNames(c, b) then ReleaseStats(l, b.lastSeqNo) else l
  }

  /** Whether processReqStreamMessages calls DcpRequestStream, if the feeds are not closed. */
  predicate Issues(c: Id, shouldOwn: bool, plannerRunning: bool, l: Local) {
    && shouldOwn && !Owned(c, l) && !plannerRunning && !l.inflight && l.streamRequested.None?
  }

  function PopRequest(l: Local): Local
    requires l.requests != []
  {
    l.(enqueued := false, requests := l.requests[1..])
  }

  /** How dcpRequestStreamHandle fares: DcpRequestStream succeeds or fails, or the feeds are closed and it is not called. */
  datatype Call = Accepted | Failed | FeedsClosed

  /** What becomes of a request once it has been received. */
  function Serving(c: Id, shouldOwn: bool, plannerRunning: bool, call: Call, start: SeqNo, l: Local, b: Blob): Local {
    if !shouldOwn then CleanupLocal(c, l, b)
    else if Owned(c, l) then l
    else if plannerRunning then l.(restream := l.restream + 1, toCleanup := true)
    else if l.inflight then l
    else if call.FeedsClosed? then l.(restream := l.restream + 1)
    else if l.streamRequested.Some? then l
    else if call.Accepted? then l.(streamRequested := Some(start), issuing := Some(start))
    else l.(restream := l.restream + 2)   // dcpRequestStreamHandle and its caller each add the vbucket
  }

  /** One message of processReqStreamMessages. */
  function ServeRequest(c: Id, shouldOwn: bool, plannerRunning: bool, call: Call, l: Local, b: Blob): Local
    requires l.requests != []
  {
    Serving(c, shouldOwn, plannerRunning, call, l.requests[0], PopRequest(l), b)
  }

  function ServeRequestDoc(c: Id, shouldOwn: bool, b: Blob): Blob {
    if !shouldOwn then CleanupDoc(c, b) else b
  }

  /** The rest of dcpRequestStreamHandle once DcpRequestStream has been called. */
  function FinishRequest(c: Id, l: Local): Local
    requires l.issuing.Some?
  {
    l.(lastRead := l.issuing.value, lastProcessed := l.issuing.value, lastSent := 0,
       inflight := true, metadataUpdated := true,
       requestedNode := c.node, requestedWorker := c.worker, issuing := None)
  }

  // ---- DCP events ------------------------------------------------------

  datatype Kind =
    | Handler       // a source-collection event that goes to the handler
    | Suppressed    // a source-collection event that the consumer drops by design
    | Foreign       // an event of another collection
    | SystemEvent | SeqnoAdvanced

  datatype DcpEvent = StreamReq(success: bool) | StreamEnd | Item(seqNo: SeqNo, kind: Kind)

  /** A message to the worker: an event for the handler, or a no-op. */
  datatype Msg = Msg(seqNo: SeqNo, isEvent: bool)

  /** STREAMREQ succeeded. */
  function StreamOpened(c: Id, shouldOwn: bool, l: Local): Local {
    var l1 := l.(metadataUpdated := false,
                 assignedWorker := c.worker, nodeUuid := c.node, status := RUNNING,
                 requestedNode := c.node, requestedWorker := c.worker,
                 flog := l.flog + [StreamCreated]);
    if shouldOwn then l1 else l1.(toClose := l.toClose + 1, filtered := true)
  }

  /** STREAMREQ failed, other than by a rollback. */
  function StreamRejected(l: Local): Local {
    l.(metadataUpdated := false, flog := l.flog + [StreamFailed])
  }

  /** handleStreamEnd */
  function EndStream(c: Id, shouldOwn: bool, l: Local, last: SeqNo): Local {
    var l1 := ReleaseStats(Purge(l), last).(inflight := false, filtered := false, requestedWorker := "");
    if shouldOwn then l1.(flog := l.flog + [StreamEnded], restream := l.restream + 1) else l1
  }

  /** The two document writes of handleStreamEnd. */
  function EndStreamDoc(b: Blob, last: SeqNo): Blob {
    WriteReleased(WriteEnded(b), last)
  }

  /** STREAMEND: either the stream is wound up at once, or the worker is asked to filter. */
  predicate EndsAtOnce(l: Local) {
    l.lastSent == 0
  }

  /** Subtraction of unsigned 64-bit integers. */
  function SubU64(a: SeqNo, b: SeqNo): SeqNo {
    (a - b) % 0x1_0000_0000_0000_0000
  }

  /** checkAndSendNoOp decides to send. */
  predicate NoOpDue(trapping: bool, l: Local, seqNo: SeqNo) {
    !trapping && SubU64(seqNo, l.lastSent) >= NOOP_THRESHOLD
  }

  /** The message that an event gives rise to. */
  function Sends(trapping: bool, l: Local, seqNo: SeqNo, kind: Kind): Option<Msg> {
    if kind.SystemEvent? || kind.SeqnoAdvanced? then
      if NoOpDue(trapping, l, seqNo) then Some(Msg(seqNo, false)) else None
    else if l.filtered then None
    else match kind
      case Foreign => if NoOpDue(trapping, l, seqNo) then Some(Msg(seqNo, false)) else None
      case Handler => Some(Msg(seqNo, true))
      case _ => None
  }

  /** filterMutations, checkAndSendNoOp, sendDcpEvent and the two bookkeeping events. */
  function HandleItem(trapping: bool, l: Local, seqNo: SeqNo, kind: Kind): Local {
    if l.filtered && !kind.SystemEvent? && !kind.SeqnoAdvanced? then l
    else
      var l1 := l.(lastRead := seqNo);
      if Sends(trapping, l, seqNo, kind).Some? then l1.(lastSent := seqNo) else l1
  }

  // ---- Failover log, worker responses, control routine ------------------

  /** One entry of handleFailoverLog; `fetched` says whether the failover log could be read. */
  function HandleFlog(c: Id, fetched: bool, l: Local, b: Blob): Local
    requires l.flog != []
  {
    var l1 := l.(inflight := false, flog := l.flog[1..]);
    if !l.flog[0].StreamFailed? then l1
    else if !fetched then Purge(l1).(restream := l1.restream + 1)
    else if l1.enqueued then Purge(l1)
    else Purge(l1).(enqueued := true, requests := l1.requests + [b.lastSeqNo])
  }

  /** routeResponse, bucketOpsResponse */
  function HandleReport(l: Local, seqNo: SeqNo): Local {
    if seqNo > l.lastProcessed then l.(lastProcessed := seqNo) else l
  }

  /** The control routine's pass over vbsRemainingToCleanup. */
  function CleanupTick(c: Id, shouldOwn: bool, plannerRunning: bool, l: Local, b: Blob): Local {
    if !l.toCleanup || plannerRunning then l
    else if !shouldOwn then CleanupLocal(c, l, b).(toCleanup := false)
    else if Owned(c, l) then l.(toCleanup := false)
    else l
  }

  function CleanupTickDoc(c: Id, shouldOwn: bool, plannerRunning: bool, l: Local, b: Blob): Blob {
    if l.toCleanup && !plannerRunning && !shouldOwn then CleanupDoc(c, b) else b
  }

  /** Whether the control routine closes the stream; it then checkpoints a zero-valued document. */
  predicate Closes(c: Id, shouldOwn: bool, l: Local) {
    l.toClose > 0 && Owned(c, l) && !shouldOwn
  }

  function CloseTick(c: Id, shouldOwn: bool, l: Local): Local {
    if Closes(c, shouldOwn, l) then ReleaseStats(l, 0) else l
  }

  function CloseTickDoc(c: Id, shouldOwn: bool, l: Local, b: Blob): Blob {
    if Closes(c, shouldOwn, l) then WriteReleased(b, 0) else b
  }

  /** The control routine's pass over vbsRemainingToRestream. The document's status is not consulted. */
  function RestreamTick(c: Id, shouldOwn: bool, l: Local, b: Blob): Local {
    var l1 := l.(restream := 0);
    if l.restream == 0 || Owned(c, l) || !shouldOwn then l1 else QueueRequest(c, l1, b)
  }

  /** doLastSeqNoCheckpoint for this vbucket. */
  function CheckpointDoc(c: Id, shouldOwnNode: bool, shouldOwn: bool, l: Local, b: Blob): Blob {
    if Mine(c, l) &&
       ((b.nodeUuid == c.node && b.status == RUNNING) ||
        (b.currentVbOwner == "" && shouldOwnNode && shouldOwn && b.status == STOPPED))
    then b.(lastSeqNo := l.lastProcessed)
    else b
  }

  /** checkAndUpdateMetadata for this vbucket. */
  function CorrectDoc(c: Id, shouldOwn: bool, l: Local, b: Blob): Blob {
    if Mine(c, l) && shouldOwn && !DocNames(c, b) then WriteCorrected(c, b) else b
  }

  /** CloseAllRunningDcpFeeds resets the request marks. */
  function ResetMarks(l: Local): Local {
    l.(requestedNode := "", requestedWorker := "")
  }
}
