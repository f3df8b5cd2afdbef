/**
 A consumer with all its vbuckets: the collections that its routines change in
 place, and its methods, each proved to do to the vbuckets what the functions
 of module Vbucket say, and nothing to the others.
 */
module Consumer {
  import opened Prelude
  import opened Vbucket
  import opened Worker
  import opened VbucketSystem
  import opened Ledger
  import opened Passes

  /** The metadata documents, which all consumers read and write. */
  class MetadataBucket {
    var docs: map<nat, Blob>

    constructor (docs: map<nat, Blob>)
      ensures this.docs == docs
    {
      this.docs := docs;
    }
  }

  /** Who is to own which vbucket, as all consumers have been told. */
  class Plan {
    var owner: map<nat, Id>

    constructor (owner: map<nat, Id>)
      ensures this.owner == owner
    {
      this.owner := owner;
    }
  }

  class Consumer {
    const id: Id
    const bucket: MetadataBucket
    const plan: Plan
    /** What the consumer believes about the cluster. */
    var view: View
    var vbProcessingStats: map<nat, Stats>
    var vbEnqueuedForStreamReq: set<nat>
    var inflightDcpStreams: set<nat>
    var vbStreamRequested: map<nat, SeqNo>
    var filterVbEvents: set<nat>
    var issuing: Option<StreamRequest>
    var reqStreamCh: seq<StreamRequest>
    var vbFlogChan: seq<Flog>
    var vbsRemainingToRestream: seq<nat>
    var vbsRemainingToClose: seq<nat>
    var vbsRemainingToCleanup: seq<nat>
    /** The streams of the vbuckets and their shares of the worker. */
    var links: map<nat, Link>

    function Record(): Books
      reads this
    {
      Books(vbProcessingStats, vbEnqueuedForStreamReq, inflightDcpStreams, vbStreamRequested, filterVbEvents, issuing,
            reqStreamCh, vbFlogChan, vbsRemainingToRestream, vbsRemainingToClose, vbsRemainingToCleanup, links)
    }

    ghost predicate Valid()
      reads this, bucket
    {
      Consistent(Record(), bucket.docs)
    }

    constructor (id: Id, bucket: MetadataBucket, plan: Plan, view: View)
      ensures this.id == id && this.bucket == bucket && this.plan == plan && this.view == view
      ensures Valid() && forall vb | vb in bucket.docs :: PeerOf(Record(), vb) == FreshPeer(id)
    {
      this.id, this.bucket, this.plan, this.view := id, bucket, plan, view;
      vbProcessingStats := map vb | vb in bucket.docs :: Stats(id.node, "", STOPPED, "", "", 0, 0, 0, false);
      vbEnqueuedForStreamReq, inflightDcpStreams, vbStreamRequested, filterVbEvents := {}, {}, map[], {};
      issuing, reqStreamCh, vbFlogChan := None, [], [];
      vbsRemainingToRestream, vbsRemainingToClose, vbsRemainingToCleanup := [], [], [];
      links := map vb | vb in bucket.docs :: Link(Connection(Idle, [], 0), FreshWorker);
    }

    /** The consumer learns about the cluster. */
    method Learn(view: View)
      modifies this`view
      ensures this.view == view
    {
      this.view := view;
    }

    /** checkIfCurrentConsumerShouldOwnVb */
    predicate ShouldOwn(vb: nat)
      reads this, plan
    {
      vb in plan.owner && plan.owner[vb] == id
    }

    /** checkIfCurrentNodeShouldOwnVb */
    predicate ShouldOwnNode(vb: nat)
      reads this, plan
    {
      vb in plan.owner && plan.owner[vb].host == id.host
    }

    predicate AlreadyOwned(vb: nat)
      requires vb in vbProcessingStats
      reads this
    {
      var s := vbProcessingStats[vb];
      s.nodeUuid == id.node && s.assignedWorker == id.worker && s.status == RUNNING
    }

    // ---- One collection each ---------------------------------------------------

    method UpdateStats(vb: nat, s: Stats)
      requires Valid() && vb in vbProcessingStats
      modifies this`vbProcessingStats
      ensures Valid() && Does(old(Record()), Record(), vb, WithStats(At(old(Record()), vb), s))
    {
      vbProcessingStats := vbProcessingStats[vb := s];
    }

    method AddToEnqueueMap(vb: nat)
      requires Valid() && vb in vbProcessingStats
      modifies this`vbEnqueuedForStreamReq
      ensures Valid() && Does(old(Record()), Record(), vb, At(old(Record()), vb).(enqueued := true))
    {
      vbEnqueuedForStreamReq := vbEnqueuedForStreamReq + {vb};
    }

    method DeleteFromEnqueueMap(vb: nat)
      requires Valid() && vb in vbProcessingStats
      modifies this`vbEnqueuedForStreamReq
      ensures Valid() && Does(old(Record()), Record(), vb, At(old(Record()), vb).(enqueued := false))
    {
      vbEnqueuedForStreamReq := vbEnqueuedForStreamReq - {vb};
    }

    method PurgeVbStreamRequested(vb: nat)
      requires Valid() && vb in vbProcessingStats
      modifies this`vbStreamRequested
      ensures Valid() && Does(old(Record()), Record(), vb, Purge(At(old(Record()), vb)))
    {
      vbStreamRequested := vbStreamRequested - {vb};
    }

    method SetInflight(vb: nat, on: bool)
      requires Valid() && vb in vbProcessingStats
      modifies this`inflightDcpStreams
      ensures Valid() && Does(old(Record()), Record(), vb, At(old(Record()), vb).(inflight := on))
    {
      inflightDcpStreams := if on then inflightDcpStreams + {vb} else inflightDcpStreams - {vb};
    }

    method SetFiltered(vb: nat, on: bool)
      requires Valid() && vb in vbProcessingStats
      modifies this`filterVbEvents
      ensures Valid() && Does(old(Record()), Record(), vb, At(old(Record()), vb).(filtered := on))
    {
      filterVbEvents := if on then filterVbEvents + {vb} else filterVbEvents - {vb};
    }

    method SendRequest(vb: nat, start: SeqNo)
      requires Valid() && vb in vbProcessingStats
      modifies this`reqStreamCh
      ensures Valid() && var l := At(old(Record()), vb); Does(old(Record()), Record(), vb, l.(requests := l.requests + [start]))
    {
      RequestSent(Record(), StreamRequest(vb, start));
      reqStreamCh := reqStreamCh + [StreamRequest(vb, start)];
    }

    method ReceiveRequest() returns (r: StreamRequest)
      requires Valid() && reqStreamCh != []
      modifies this`reqStreamCh
      ensures r == old(reqStreamCh)[0] && r.vb in vbProcessingStats
      ensures Valid() && var l := At(old(Record()), r.vb);
              l.requests != [] && l.requests[0] == r.start && Does(old(Record()), Record(), r.vb, l.(requests := l.requests[1..]))
    {
      r := reqStreamCh[0];
      RequestReceived(Record());
      reqStreamCh := reqStreamCh[1..];
    }

    method SendFlog(vb: nat, entry: FlogEntry)
      requires Valid() && vb in vbProcessingStats
      modifies this`vbFlogChan
      ensures Valid() && var l := At(old(Record()), vb); Does(old(Record()), Record(), vb, l.(flog := l.flog + [entry]))
    {
      FlogSent(Record(), Flog(vb, entry));
      vbFlogChan := vbFlogChan + [Flog(vb, entry)];
    }

    method ReceiveFlog() returns (f: Flog)
      requires Valid() && vbFlogChan != []
      modifies this`vbFlogChan
      ensures f == old(vbFlogChan)[0] && f.vb in vbProcessingStats
      ensures Valid() && var l := At(old(Record()), f.vb);
              l.flog != [] && l.flog[0] == f.entry && Does(old(Record()), Record(), f.vb, l.(flog := l.flog[1..]))
    {
      f := vbFlogChan[0];
      FlogReceived(Record());
      vbFlogChan := vbFlogChan[1..];
    }

    method AddToRestream(vb: nat)
      requires Valid() && vb in vbProcessingStats
      modifies this`vbsRemainingToRestream
      ensures Valid() && var l := At(old(Record()), vb); Does(old(Record()), Record(), vb, l.(restream := l.restream + 1))
    {
      vbsRemainingToRestream := vbsRemainingToRestream + [vb];
    }

    method AddToClose(vb: nat)
      requires Valid() && vb in vbProcessingStats
      modifies this`vbsRemainingToClose
      ensures Valid() && var l := At(old(Record()), vb); Does(old(Record()), Record(), vb, l.(toClose := l.toClose + 1))
    {
      vbsRemainingToClose := vbsRemainingToClose + [vb];
    }

    method AddToCleanup(vb: nat)
      requires Valid() && vb in vbProcessingStats
      modifies this`vbsRemainingToCleanup
      ensures Valid() && Does(old(Record()), Record(), vb, At(old(Record()), vb).(toCleanup := true))
    {
      if vb !in vbsRemainingToCleanup {
        vbsRemainingToCleanup := vbsRemainingToCleanup + [vb];
      }
    }

    method SetRequestedAndIssue(r: StreamRequest)
      requires Valid() && r.vb in vbProcessingStats && issuing.None?
      modifies this`vbStreamRequested, this`issuing
      ensures Valid() && Does(old(Record()), Record(), r.vb,
                              At(old(Record()), r.vb).(streamRequested := Some(r.start), issuing := Some(r.start)))
    {
      vbStreamRequested := vbStreamRequested[r.vb := r.start];
      issuing := Some(r);
    }

    // ---- The routines -------------------------------------------------------------

    /** updateVbOwnerAndStartDCPStream */
    method StartDCPStream(vb: nat, blob: Blob)
      requires Valid() && vb in vbProcessingStats
      modifies this`vbEnqueuedForStreamReq, this`vbProcessingStats, this`reqStreamCh
      ensures Valid() && Does(old(Record()), Record(), vb, QueueRequest(id, At(old(Record()), vb), blob))
    {
      ghost var b0 := Record();
      if AlreadyOwned(vb) || vb in vbEnqueuedForStreamReq {
        return;
      }
      AddToEnqueueMap(vb);
      ghost var b1 := Record();
      UpdateStats(vb, vbProcessingStats[vb].(lastProcessed := blob.lastSeqNo, lastRead := blob.lastSeqNo));
      Then(b0, b1, Record(), vb);
      b1 := Record();
      SendRequest(vb, blob.lastSeqNo);
      Then(b0, b1, Record(), vb);
    }

    /** vbTakeoverCallback around doVbTakeover */
    method VbTakeover(vb: nat, rebalancing: bool) returns (refused: bool)
      requires Valid() && vb in vbProcessingStats
      modifies this`vbEnqueuedForStreamReq, this`vbProcessingStats, this`reqStreamCh, this`vbStreamRequested
      ensures Valid()
      ensures Does(old(Record()), Record(), vb,
                   Takeover(id, ShouldOwnNode(vb), view, rebalancing, At(old(Record()), vb), bucket.docs[vb]))
      ensures refused == (rebalancing && Refused(Decide(id, ShouldOwnNode(vb), view, bucket.docs[vb])))
    {
      if !rebalancing {
        DeleteFromEnqueueMap(vb);
        return false;
      }
      var blob := bucket.docs[vb];
      match Decide(id, ShouldOwnNode(vb), view, blob)
      case Start =>
        StartDCPStream(vb, blob);
        return false;
      case AlreadyRunning =>
        return false;
      case _ =>
        PurgeVbStreamRequested(vb);
        return true;
    }

    /** cleanupVbMetadata: a document that names this consumer is released. */
    method CleanupVbMetadata(vb: nat)
      requires Valid() && vb in vbProcessingStats
      modifies this`vbProcessingStats, bucket
      ensures Valid() && Does(old(Record()), Record(), vb, CleanupLocal(id, At(old(Record()), vb), old(bucket.docs)[vb]))
      ensures bucket.docs == old(bucket.docs)[vb := CleanupDoc(id, old(bucket.docs)[vb])]
    {
      var blob := bucket.docs[vb];
      if blob.nodeUuid == id.node && blob.assignedWorker == id.worker && blob.status == RUNNING {
        UpdateCheckpoint(vb, blob.lastSeqNo);
      }
    }

    /** updateCheckpoint and updateCheckpointCallback */
    method UpdateCheckpoint(vb: nat, last: SeqNo)
      requires Valid() && vb in vbProcessingStats
      modifies this`vbProcessingStats, bucket
      ensures Valid() && Does(old(Record()), Record(), vb, ReleaseStats(At(old(Record()), vb), last))
      ensures bucket.docs == old(bucket.docs)[vb := WriteReleased(old(bucket.docs)[vb], last)]
    {
      bucket.docs := bucket.docs[vb := WriteReleased(bucket.docs[vb], last)];
      UpdateStats(vb, vbProcessingStats[vb].(assignedWorker := "", status := STOPPED, nodeUuid := "", lastProcessed := last));
    }

    /** The planner is running: the request is put off. */
    method PutOff(vb: nat)
      requires Valid() && vb in vbProcessingStats
      modifies this`vbsRemainingToRestream, this`vbsRemainingToCleanup
      ensures Valid() && var l := At(old(Record()), vb);
              Does(old(Record()), Record(), vb, l.(restream := l.restream + 1, toCleanup := true))
    {
      ghost var b0 := Record();
      AddToRestream(vb);
      ghost var b1 := Record();
      AddToCleanup(vb);
      Then(b0, b1, Record(), vb);
    }

    /** The call of DcpRequestStream failed: dcpRequestStreamHandle and its caller each put the vbucket on the list. */
    method TryLater(vb: nat)
      requires Valid() && vb in vbProcessingStats
      modifies this`vbsRemainingToRestream
      ensures Valid() && var l := At(old(Record()), vb); Does(old(Record()), Record(), vb, l.(restream := l.restream + 2))
    {
      ghost var b0 := Record();
      AddToRestream(vb);
      ghost var b1 := Record();
      AddToRestream(vb);
      Then(b0, b1, Record(), vb);
    }

    method TakeRequest() returns (r: StreamRequest)
      requires Valid() && reqStreamCh != []
      modifies this`reqStreamCh, this`vbEnqueuedForStreamReq
      ensures r == old(reqStreamCh)[0] && r.vb in vbProcessingStats
      ensures Valid() && var l := At(old(Record()), r.vb);
              l.requests != [] && l.requests[0] == r.start && Does(old(Record()), Record(), r.vb, PopRequest(l))
    {
      ghost var b0 := Record();
      r := ReceiveRequest();
      ghost var b1 := Record();
      DeleteFromEnqueueMap(r.vb);
      Then(b0, b1, Record(), r.vb);
    }

    /** A request for a vbucket that this consumer should own and does not own yet. */
    method RequestStream(r: StreamRequest, plannerRunning: bool, call: Call)
      requires Valid() && r.vb in vbProcessingStats && issuing.None? && ShouldOwn(r.vb) && !AlreadyOwned(r.vb)
      modifies this`vbsRemainingToRestream, this`vbsRemainingToCleanup, this`vbStreamRequested, this`issuing
      ensures Valid() && Does(old(Record()), Record(), r.vb,
                              Serving(id, true, plannerRunning, call, r.start, At(old(Record()), r.vb), bucket.docs[r.vb]))
    {
      if plannerRunning {
        PutOff(r.vb);
      } else if r.vb in inflightDcpStreams {
      } else if call.FeedsClosed? {
        AddToRestream(r.vb);
      } else if r.vb in vbStreamRequested {
      } else if call.Accepted? {
        SetRequestedAndIssue(r);
      } else {
        TryLater(r.vb);
      }
    }

    method ServeReceived(r: StreamRequest, plannerRunning: bool, call: Call)
      requires Valid() && r.vb in vbProcessingStats && issuing.None?
      modifies this`vbProcessingStats, this`vbsRemainingToRestream, this`vbsRemainingToCleanup, this`vbStreamRequested,
               this`issuing, bucket
      ensures Valid() && Does(old(Record()), Record(), r.vb,
                              Serving(id, ShouldOwn(r.vb), plannerRunning, call, r.start, At(old(Record()), r.vb), old(bucket.docs)[r.vb]))
      ensures bucket.docs == old(bucket.docs)[r.vb := ServeRequestDoc(id, ShouldOwn(r.vb), old(bucket.docs)[r.vb])]
    {
      if !ShouldOwn(r.vb) {
        CleanupVbMetadata(r.vb);
      } else if !AlreadyOwned(r.vb) {
        RequestStream(r, plannerRunning, call);
      }
    }

    /** One message of processReqStreamMessages, up to the call of DcpRequestStream. */
    method ProcessReqStreamMessage(plannerRunning: bool, call: Call) returns (r: StreamRequest)
      requires Valid() && reqStreamCh != [] && issuing.None?
      modifies this`reqStreamCh, this`vbEnqueuedForStreamReq, this`vbProcessingStats, this`vbsRemainingToRestream,
               this`vbsRemainingToCleanup, this`vbStreamRequested, this`issuing, bucket
      ensures r == old(reqStreamCh)[0] && r.vb in old(vbProcessingStats)
      ensures Valid() && var l := At(old(Record()), r.vb);
              && l.requests != []
              && Does(old(Record()), Record(), r.vb,
                      ServeRequest(id, ShouldOwn(r.vb), plannerRunning, call, l, old(bucket.docs)[r.vb]))
      ensures bucket.docs == old(bucket.docs)[r.vb := ServeRequestDoc(id, ShouldOwn(r.vb), old(bucket.docs)[r.vb])]
    {
      ghost var b0 := Record();
      r := TakeRequest();
      ghost var b1 := Record();
      ServeReceived(r, plannerRunning, call);
      Then(b0, b1, Record(), r.vb);
    }

    /** dcpRequestStreamHandle resets the counters before the document says that a stream was requested. */
    method ResetCounters(r: StreamRequest)
      requires Valid() && r.vb in vbProcessingStats
      modifies this`vbProcessingStats, this`inflightDcpStreams
      ensures Valid() && Does(old(Record()), Record(), r.vb,
                              At(old(Record()), r.vb).(lastRead := r.start, lastProcessed := r.start, lastSent := 0, inflight := true))
    {
      ghost var b0 := Record();
      UpdateStats(r.vb, vbProcessingStats[r.vb].(lastRead := r.start, lastProcessed := r.start, lastSent := 0));
      ghost var b1 := Record();
      SetInflight(r.vb, true);
      Then(b0, b1, Record(), r.vb);
    }

    /** The rest of dcpRequestStreamHandle, after the call of DcpRequestStream. */
    method FinishStreamRequest() returns (r: StreamRequest)
      requires Valid() && issuing.Some?
      modifies this`vbProcessingStats, this`inflightDcpStreams, this`issuing, bucket
      ensures r == old(issuing).value && r.vb in old(vbProcessingStats)
      ensures Valid() && Does(old(Record()), Record(), r.vb, FinishRequest(id, At(old(Record()), r.vb)))
      ensures bucket.docs == old(bucket.docs)[r.vb := WriteRequested(id, old(bucket.docs)[r.vb])]
    {
      ghost var b0 := Record();
      r := issuing.value;
      ResetCounters(r);
      bucket.docs := bucket.docs[r.vb := WriteRequested(id, bucket.docs[r.vb])];
      ghost var b1 := Record();
      UpdateStats(r.vb, vbProcessingStats[r.vb].(metadataUpdated := true, requestedNode := id.node, requestedWorker := id.worker));
      Then(b0, b1, Record(), r.vb);
      b1 := Record();
      EndIssuing();
      Then(b0, b1, Record(), r.vb);
    }

    method EndIssuing()
      requires Valid() && issuing.Some?
      modifies this`issuing
      ensures Valid() && Does(old(Record()), Record(), old(issuing).value.vb, old(At(Record(), issuing.value.vb)).(issuing := None))
    {
      issuing := None;
    }

    /** Document and statistics name this consumer. */
    method TakePossession(vb: nat)
      requires Valid() && vb in vbProcessingStats
      modifies this`vbProcessingStats, this`vbFlogChan, bucket
      ensures Valid() && Does(old(Record()), Record(), vb, StreamOpened(id, true, At(old(Record()), vb)))
      ensures bucket.docs == old(bucket.docs)[vb := WriteRunning(id, old(bucket.docs)[vb])]
    {
      ghost var b0 := Record();
      bucket.docs := bucket.docs[vb := WriteRunning(id, bucket.docs[vb])];
      UpdateStats(vb, vbProcessingStats[vb].(metadataUpdated := false, assignedWorker := id.worker, nodeUuid := id.node, status := RUNNING,
                                             requestedNode := id.node, requestedWorker := id.worker));
      ghost var b1 := Record();
      SendFlog(vb, StreamCreated);
      Then(b0, b1, Record(), vb);
    }

    /** STREAMREQ with the answer that the stream is open. */
    method HandleStreamOpened(vb: nat)
      requires Valid() && vb in vbProcessingStats
      modifies this`vbProcessingStats, this`vbFlogChan, this`vbsRemainingToClose, this`filterVbEvents, bucket
      ensures Valid() && Does(old(Record()), Record(), vb, StreamOpened(id, ShouldOwn(vb), At(old(Record()), vb)))
      ensures bucket.docs == old(bucket.docs)[vb := WriteRunning(id, old(bucket.docs)[vb])]
    {
      ghost var b0 := Record();
      TakePossession(vb);
      ghost var b1 := Record();
      CloseIfUnplanned(vb);
      Then(b0, b1, Record(), vb);
    }

    method CloseIfUnplanned(vb: nat)
      requires Valid() && vb in vbProcessingStats
      modifies this`vbsRemainingToClose, this`filterVbEvents
      ensures Valid() && var l := At(old(Record()), vb);
              Does(old(Record()), Record(), vb, if ShouldOwn(vb) then l else l.(toClose := l.toClose + 1, filtered := true))
    {
      if !ShouldOwn(vb) {
        CloseLater(vb);
      }
    }

    method CloseLater(vb: nat)
      requires Valid() && vb in vbProcessingStats
      modifies this`vbsRemainingToClose, this`filterVbEvents
      ensures Valid() && var l := At(old(Record()), vb); Does(old(Record()), Record(), vb, l.(toClose := l.toClose + 1, filtered := true))
    {
      ghost var b0 := Record();
      AddToClose(vb);
      ghost var b1 := Record();
      SetFiltered(vb, true);
      Then(b0, b1, Record(), vb);
    }

    /** STREAMREQ with an answer that is neither success nor rollback. */
    method HandleStreamRejected(vb: nat)
      requires Valid() && vb in vbProcessingStats
      modifies this`vbProcessingStats, this`vbFlogChan, bucket
      ensures Valid() && Does(old(Record()), Record(), vb, StreamRejected(At(old(Record()), vb)))
      ensures bucket.docs == old(bucket.docs)[vb := WriteRequestFailed(old(bucket.docs)[vb])]
    {
      ghost var b0 := Record();
      bucket.docs := bucket.docs[vb := WriteRequestFailed(bucket.docs[vb])];
      UpdateStats(vb, vbProcessingStats[vb].(metadataUpdated := false));
      ghost var b1 := Record();
      SendFlog(vb, StreamFailed);
      Then(b0, b1, Record(), vb);
    }

    method Unmark(vb: nat)
      requires Valid() && vb in vbProcessingStats
      modifies this`vbStreamRequested, this`inflightDcpStreams, this`filterVbEvents
      ensures Valid() && Does(old(Record()), Record(), vb, Purge(At(old(Record()), vb)).(inflight := false, filtered := false))
    {
      ghost var b0 := Record();
      PurgeVbStreamRequested(vb);
      ghost var b1 := Record();
      SetInflight(vb, false);
      Then(b0, b1, Record(), vb);
      b1 := Record();
      SetFiltered(vb, false);
      Then(b0, b1, Record(), vb);
    }

    method ReleaseVb(vb: nat, last: SeqNo)
      requires Valid() && vb in vbProcessingStats
      modifies this`vbProcessingStats, bucket
      ensures Valid() && Does(old(Record()), Record(), vb, ReleaseStats(At(old(Record()), vb), last).(requestedWorker := ""))
      ensures bucket.docs == old(bucket.docs)[vb := EndStreamDoc(old(bucket.docs)[vb], last)]
    {
      ghost var b0 := Record();
      bucket.docs := bucket.docs[vb := WriteEnded(bucket.docs[vb])];
      UpdateCheckpoint(vb, last);
      ghost var b1 := Record();
      UpdateStats(vb, vbProcessingStats[vb].(requestedWorker := ""));
      Then(b0, b1, Record(), vb);
    }

    method Reclaim(vb: nat)
      requires Valid() && vb in vbProcessingStats
      modifies this`vbFlogChan, this`vbsRemainingToRestream
      ensures Valid() && var l := At(old(Record()), vb);
              Does(old(Record()), Record(), vb, l.(flog := l.flog + [StreamEnded], restream := l.restream + 1))
    {
      ghost var b0 := Record();
      SendFlog(vb, StreamEnded);
      ghost var b1 := Record();
      AddToRestream(vb);
      Then(b0, b1, Record(), vb);
    }

    method GiveUp(vb: nat, last: SeqNo)
      requires Valid() && vb in vbProcessingStats
      modifies this`vbStreamRequested, this`inflightDcpStreams, this`filterVbEvents, this`vbProcessingStats, bucket
      ensures Valid() && Does(old(Record()), Record(), vb, EndStream(id, false, At(old(Record()), vb), last))
      ensures bucket.docs == old(bucket.docs)[vb := EndStreamDoc(old(bucket.docs)[vb], last)]
    {
      ghost var b0 := Record();
      Unmark(vb);
      ghost var b1 := Record();
      ReleaseVb(vb, last);
      Then(b0, b1, Record(), vb);
    }

    method HandleStreamEnd(vb: nat, last: SeqNo)
      requires Valid() && vb in vbProcessingStats
      modifies this`vbStreamRequested, this`inflightDcpStreams, this`filterVbEvents, this`vbProcessingStats, this`vbFlogChan,
               this`vbsRemainingToRestream, bucket
      ensures Valid() && Does(old(Record()), Record(), vb, EndStream(id, ShouldOwn(vb), At(old(Record()), vb), last))
      ensures bucket.docs == old(bucket.docs)[vb := EndStreamDoc(old(bucket.docs)[vb], last)]
    {
      ghost var b0 := Record();
      GiveUp(vb, last);
      ghost var b1 := Record();
      ReclaimIfPlanned(vb);
      Then(b0, b1, Record(), vb);
    }

    method ReclaimIfPlanned(vb: nat)
      requires Valid() && vb in vbProcessingStats
      modifies this`vbFlogChan, this`vbsRemainingToRestream
      ensures Valid() && var l := At(old(Record()), vb);
              Does(old(Record()), Record(), vb, if ShouldOwn(vb) then l.(flog := l.flog + [StreamEnded], restream := l.restream + 1) else l)
    {
      if ShouldOwn(vb) {
        Reclaim(vb);
      }
    }

    /** An event of the stream; returns what goes to the worker. */
    method HandleDcpEvent(vb: nat, trapping: bool, seqNo: SeqNo, kind: Kind) returns (msg: Option<Msg>)
      requires Valid() && vb in vbProcessingStats
      modifies this`vbProcessingStats
      ensures Valid() && Does(old(Record()), Record(), vb, HandleItem(trapping, At(old(Record()), vb), seqNo, kind))
      ensures msg == Sends(trapping, At(old(Record()), vb), seqNo, kind)
    {
      var bookkeeping := kind.SystemEvent? || kind.SeqnoAdvanced?;
      if !bookkeeping && vb in filterVbEvents {
        return None;
      }
      var s := vbProcessingStats[vb].(lastRead := seqNo);
      msg := None;
      if bookkeeping || kind.Foreign? {
        if !trapping && SubU64(seqNo, s.lastSent) >= NOOP_THRESHOLD {
          msg := Some(Msg(seqNo, false));
        }
      } else if kind.Handler? {
        msg := Some(Msg(seqNo, true));
      }
      assert msg == Sends(trapping, At(Record(), vb), seqNo, kind);
      UpdateStats(vb, if msg.Some? then s.(lastSent := seqNo) else s);
    }

    /** One entry of handleFailoverLog. */
    method HandleFailoverLog(fetched: bool) returns (f: Flog)
      requires Valid() && vbFlogChan != []
      modifies this`vbFlogChan, this`inflightDcpStreams, this`vbStreamRequested, this`vbsRemainingToRestream,
               this`vbEnqueuedForStreamReq, this`reqStreamCh
      ensures f == old(vbFlogChan)[0] && f.vb in vbProcessingStats
      ensures Valid() && var l := At(old(Record()), f.vb);
              l.flog != [] && Does(old(Record()), Record(), f.vb, HandleFlog(id, fetched, l, bucket.docs[f.vb]))
    {
      ghost var b0 := Record();
      f := TakeFlog();
      if f.entry.StreamFailed? {
        ghost var b1 := Record();
        RetryStream(f.vb, fetched);
        Then(b0, b1, Record(), f.vb);
      }
    }

    method TakeFlog() returns (f: Flog)
      requires Valid() && vbFlogChan != []
      modifies this`vbFlogChan, this`inflightDcpStreams
      ensures f == old(vbFlogChan)[0] && f.vb in vbProcessingStats
      ensures Valid() && var l := At(old(Record()), f.vb);
              l.flog != [] && l.flog[0] == f.entry && Does(old(Record()), Record(), f.vb, l.(inflight := false, flog := l.flog[1..]))
    {
      ghost var b0 := Record();
      f := ReceiveFlog();
      ghost var b1 := Record();
      SetInflight(f.vb, false);
      Then(b0, b1, Record(), f.vb);
    }

    method RetryStream(vb: nat, fetched: bool)
      requires Valid() && vb in vbProcessingStats
      modifies this`vbStreamRequested, this`vbsRemainingToRestream, this`vbEnqueuedForStreamReq, this`reqStreamCh
      ensures Valid() && var l := Purge(At(old(Record()), vb));
              Does(old(Record()), Record(), vb,
                   if !fetched then l.(restream := l.restream + 1)
                   else if l.enqueued then l
                   else l.(enqueued := true, requests := l.requests + [bucket.docs[vb].lastSeqNo]))
    {
      ghost var b0 := Record();
      PurgeVbStreamRequested(vb);
      ghost var b1 := Record();
      if !fetched {
        AddToRestream(vb);
        Then(b0, b1, Record(), vb);
      } else if vb !in vbEnqueuedForStreamReq {
        AddToEnqueueMap(vb);
        Then(b0, b1, Record(), vb);
        b1 := Record();
        SendRequest(vb, bucket.docs[vb].lastSeqNo);
        Then(b0, b1, Record(), vb);
      }
    }

    /** routeResponse for a position that the worker reports. */
    method RouteResponse(vb: nat, seqNo: SeqNo)
      requires Valid() && vb in vbProcessingStats
      modifies this`vbProcessingStats
      ensures Valid() && Does(old(Record()), Record(), vb, HandleReport(At(old(Record()), vb), seqNo))
    {
      if seqNo > vbProcessingStats[vb].lastProcessed {
        UpdateStats(vb, vbProcessingStats[vb].(lastProcessed := seqNo));
      }
    }

    // ---- Passes over vbuckets -----------------------------------------------------------

    function Now(vb: nat): Turn
      requires vb in vbProcessingStats && vb in links && vb in bucket.docs
      reads this, bucket
    {
      Turn(PeerOf(Record(), vb), bucket.docs[vb])
    }

    function Ctx(vb: nat): Context
      reads this, plan
    {
      ContextAt(id, plan.owner, view, vb)
    }

    ghost function All(): map<nat, Turn>
      requires Valid()
      reads this, bucket
    {
      Snapshot(Record(), bucket.docs)
    }

    method SetLink(vb: nat, kv: Connection, w: Worker)
      requires Valid() && vb in vbProcessingStats
      modifies this`links
      ensures Valid() && Turns(old(Record()), Record(), vb, Peer(At(old(Record()), vb), kv, w))
    {
      links := links[vb := Link(kv, w)];
    }

    method CleanupOne(vb: nat, busy: set<nat>) returns (corrected: bool)
      requires Valid() && vb in vbProcessingStats
      modifies this`vbProcessingStats, bucket
      ensures Valid() && Visits(id, Ctx(vb), CleanUp(busy), old(Record()), old(bucket.docs), Record(), bucket.docs, vb)
      ensures corrected == Settles(id, Ctx(vb), CleanUp(busy), vb, old(Now(vb)))
    {
      if vb in busy {
        return false;
      }
      if !ShouldOwn(vb) {
        CleanupVbMetadata(vb);
        return true;
      }
      return AlreadyOwned(vb);
    }

    /** The checkpoint of zero is what the code writes. */
    method CloseOne(vb: nat)
      requires Valid() && vb in vbProcessingStats
      modifies this`vbProcessingStats, bucket
      ensures Valid() && Visits(id, Ctx(vb), CloseStreams, old(Record()), old(bucket.docs), Record(), bucket.docs, vb)
    {
      if !AlreadyOwned(vb) || ShouldOwn(vb) {
        return;
      }
      UpdateCheckpoint(vb, 0);
    }

    method RestreamOne(vb: nat)
      requires Valid() && vb in vbProcessingStats
      modifies this`vbEnqueuedForStreamReq, this`vbProcessingStats, this`reqStreamCh
      ensures Valid() && Visits(id, Ctx(vb), StreamAgain, old(Record()), bucket.docs, Record(), bucket.docs, vb)
    {
      if AlreadyOwned(vb) || !ShouldOwn(vb) {
        return;
      }
      StartDCPStream(vb, bucket.docs[vb]);
    }

    method CheckpointOne(vb: nat, idle: set<nat>)
      requires Valid() && vb in vbProcessingStats
      modifies bucket
      ensures Valid() && Visits(id, Ctx(vb), SaveSeqNos(idle), Record(), old(bucket.docs), Record(), bucket.docs, vb)
    {
      var s, blob := vbProcessingStats[vb], bucket.docs[vb];
      if s.assignedWorker == id.worker && s.nodeUuid == id.node && vb !in idle {
        if (blob.nodeUuid == id.node && blob.status == RUNNING)
           || (blob.currentVbOwner == "" && ShouldOwnNode(vb) && ShouldOwn(vb) && blob.status == STOPPED) {
          bucket.docs := bucket.docs[vb := blob.(lastSeqNo := s.lastProcessed)];
        }
      }
    }

    method CorrectOne(vb: nat)
      requires Valid() && vb in vbProcessingStats
      modifies bucket
      ensures Valid() && Visits(id, Ctx(vb), Rectify, Record(), old(bucket.docs), Record(), bucket.docs, vb)
    {
      var s, blob := vbProcessingStats[vb], bucket.docs[vb];
      if s.assignedWorker == id.worker && s.nodeUuid == id.node && ShouldOwn(vb) {
        if blob.nodeUuid != id.node || blob.status != RUNNING || blob.assignedWorker != id.worker {
          bucket.docs := bucket.docs[vb := WriteCorrected(id, blob)];
        }
      }
    }

    method HangUpOne(vb: nat)
      requires Valid() && vb in vbProcessingStats
      modifies this`vbProcessingStats, this`links
      ensures Valid() && Visits(id, Ctx(vb), HangUp, old(Record()), bucket.docs, Record(), bucket.docs, vb)
    {
      ghost var b0 := Record();
      SetLink(vb, Hangup(links[vb].kv), links[vb].w);
      ghost var b1 := Record();
      UpdateStats(vb, vbProcessingStats[vb].(requestedNode := "", requestedWorker := ""));
      Then(b0, b1, Record(), vb);
    }

    method Visit(chore: Chore, vb: nat) returns (settles: bool)
      requires Valid() && vb in vbProcessingStats
      modifies this`vbProcessingStats, this`vbEnqueuedForStreamReq, this`reqStreamCh, this`links, bucket
      ensures Valid() && Visits(id, Ctx(vb), chore, old(Record()), old(bucket.docs), Record(), bucket.docs, vb)
      ensures settles == Settles(id, Ctx(vb), chore, vb, old(Now(vb)))
    {
      settles := false;
      match chore
      case CleanUp(busy) => settles := CleanupOne(vb, busy);
      case CloseStreams => CloseOne(vb);
      case StreamAgain => RestreamOne(vb);
      case SaveSeqNos(idle) => CheckpointOne(vb, idle);
      case Rectify => CorrectOne(vb);
      case HangUp => HangUpOne(vb);
    }

    method VisitOne(chore: Chore, vb: nat) returns (settles: bool)
      requires Valid() && vb in vbProcessingStats
      modifies this`vbProcessingStats, this`vbEnqueuedForStreamReq, this`reqStreamCh, this`links, bucket
      ensures Valid() && All() == old(All())[vb := Visited(id, Ctx(vb), chore, vb, old(Now(vb)))]
      ensures settles == Settles(id, Ctx(vb), chore, vb, old(Now(vb)))
    {
      ghost var b, docs, t := Record(), bucket.docs, Visited(id, Ctx(vb), chore, vb, Now(vb));
      settles := Visit(chore, vb);
      TurnSteps(b, docs, Record(), bucket.docs, vb, t);
    }

    method VisitNext(chore: Chore, vb: nat, ghost m0: map<nat, Turn>, ghost done: set<nat>, ghost want: map<nat, Turn>)
      returns (settles: bool)
      requires Valid() && vb in want && want == Wanted(id, plan.owner, view, chore, m0) && Pass(m0, All(), done, want)
      modifies this`vbProcessingStats, this`vbEnqueuedForStreamReq, this`reqStreamCh, this`links, bucket
      ensures Valid() && Pass(m0, All(), done + {vb}, want)
      ensures settles == (vb in Settled(id, plan.owner, view, chore, m0))
    {
      PassVisit(id, plan.owner, view, chore, m0, All(), done, vb);
      settles := VisitOne(chore, vb);
    }

    method VisitAll(chore: Chore, vbs: seq<nat>, ghost want: map<nat, Turn>, ghost fixed: set<nat>) returns (settled: seq<nat>)
      requires Valid() && Members(vbs) <= want.Keys
      requires want == Wanted(id, plan.owner, view, chore, All()) && fixed == Settled(id, plan.owner, view, chore, All())
      modifies this`vbProcessingStats, this`vbEnqueuedForStreamReq, this`reqStreamCh, this`links, bucket
      ensures Valid() && Pass(old(All()), All(), Members(vbs), want) && settled == Only(vbs, fixed)
    {
      ghost var m0 := All();
      PassStart(id, plan.owner, view, chore, m0);
      settled := [];
      for i := 0 to |vbs|
        invariant Valid() && Pass(m0, All(), Members(vbs[..i]), want)
        invariant settled == Only(vbs[..i], fixed)
      {
        MembersNext(vbs, fixed, i);
        var settles := VisitNext(chore, vbs[i], m0, Members(vbs[..i]), want);
        settled := settled + (if settles then [vbs[i]] else []);
      }
      assert vbs[..|vbs|] == vbs;
    }

    /** Visits the vbuckets of a list, in order. */
    method PassOverList(chore: Chore, list: seq<nat>) returns (vbs: seq<nat>, settled: seq<nat>)
      requires Valid() && Members(list) <= vbProcessingStats.Keys
      modifies this`vbProcessingStats, this`vbEnqueuedForStreamReq, this`reqStreamCh, this`links, bucket
      ensures Valid() && Pass(old(All()), All(), Members(vbs), Wanted(id, plan.owner, view, chore, old(All())))
      ensures multiset(vbs) == multiset(list) && Members(vbs) == Members(list)
      ensures settled == Only(vbs, Settled(id, plan.owner, view, chore, old(All())))
    {
      vbs := InOrder(list);
      settled := VisitAll(chore, vbs, Wanted(id, plan.owner, view, chore, All()), Settled(id, plan.owner, view, chore, All()));
    }

    /** The control routine's pass over vbsRemainingToCleanup. */
    method CleanupPass(busy: set<nat>)
      requires Valid()
      modifies this`vbProcessingStats, this`vbEnqueuedForStreamReq, this`reqStreamCh, this`links, this`vbsRemainingToCleanup, bucket
      ensures Valid() && Completed(id, plan.owner, view, CleanUp(busy), old(All()), All())
    {
      ghost var b0, docs0 := Record(), bucket.docs;
      ListIsKnown(b0, docs0);
      var vbs, corrected := PassOverList(CleanUp(busy), vbsRemainingToCleanup);
      var diff := VbsSliceDiff(corrected, vbsRemainingToCleanup);
      CleanupEnds(id, plan.owner, view, busy, b0, docs0, Record(), bucket.docs, vbs, diff);
      vbsRemainingToCleanup := diff;
    }

    /** A pass that rewrites no list. */
    method PassOver(chore: Chore, vbs: seq<nat>)
      requires Valid() && Members(vbs) <= vbProcessingStats.Keys && !chore.CleanUp? && !chore.StreamAgain?
      requires AllDue(chore, All(), Members(vbs)) && (chore.HangUp? ==> issuing.None?)
      modifies this`vbProcessingStats, this`vbEnqueuedForStreamReq, this`reqStreamCh, this`links, bucket
      ensures Valid() && Completed(id, plan.owner, view, chore, old(All()), All())
    {
      ghost var m0 := All();
      assert forall v | v in m0 :: CanChore(chore, m0[v].p);
      var settled := VisitAll(chore, vbs, Wanted(id, plan.owner, view, chore, m0), Settled(id, plan.owner, view, chore, m0));
      PlainEnds(id, plan.owner, view, chore, m0, All(), Members(vbs));
    }

    /** The control routine's pass over vbsRemainingToClose, which stays as it is. */
    method ClosePass()
      requires Valid()
      modifies this`vbProcessingStats, this`vbEnqueuedForStreamReq, this`reqStreamCh, this`links, bucket
      ensures Valid() && Completed(id, plan.owner, view, CloseStreams, old(All()), All())
    {
      TodoIsAllDue(CloseStreams, Record(), bucket.docs);
      ListIsKnown(Record(), bucket.docs);
      var vbs := InOrder(vbsRemainingToClose);
      PassOver(CloseStreams, vbs);
    }

    /** The control routine's pass over vbsRemainingToRestream. */
    method RestreamPass()
      requires Valid()
      modifies this`vbProcessingStats, this`vbEnqueuedForStreamReq, this`reqStreamCh, this`links, this`vbsRemainingToRestream, bucket
      ensures Valid() && Completed(id, plan.owner, view, StreamAgain, old(All()), All())
    {
      ghost var b0, docs0 := Record(), bucket.docs;
      ListIsKnown(b0, docs0);
      var vbsToRestream, settled := PassOverList(StreamAgain, vbsRemainingToRestream);
      RestreamEnds(id, plan.owner, view, b0, docs0, Record(), bucket.docs, vbsToRestream);
      vbsRemainingToRestream := CrossOut(vbsToRestream, vbsRemainingToRestream);
    }

    /** One tick of doLastSeqNoCheckpoint, which passes over vbuckets that are idle. */
    method DoLastSeqNoCheckpoint(idle: set<nat>)
      requires Valid()
      modifies this`vbProcessingStats, this`vbEnqueuedForStreamReq, this`reqStreamCh, this`links, bucket
      ensures Valid() && Completed(id, plan.owner, view, SaveSeqNos(idle), old(All()), All())
    {
      var vbs := AnyOrder(vbProcessingStats.Keys);
      PassOver(SaveSeqNos(idle), vbs);
    }

    method CheckAndUpdateMetadata()
      requires Valid()
      modifies this`vbProcessingStats, this`vbEnqueuedForStreamReq, this`reqStreamCh, this`links, bucket
      ensures Valid() && Completed(id, plan.owner, view, Rectify, old(All()), All())
    {
      var vbs := AnyOrder(vbProcessingStats.Keys);
      PassOver(Rectify, vbs);
    }

    method CloseAllRunningDcpFeeds()
      requires Valid() && issuing.None?
      modifies this`vbProcessingStats, this`vbEnqueuedForStreamReq, this`reqStreamCh, this`links, bucket
      ensures Valid() && Completed(id, plan.owner, view, HangUp, old(All()), All())
    {
      var vbs := AnyOrder(vbProcessingStats.Keys);
      PassOver(HangUp, vbs);
    }

    // ---- Actions for one vbucket -----------------------------------------------------------

    /** vbTakeoverCallback, by the takeover routines of vbsStateUpdate and their retries. */
    method DoTakeover(vb: nat, a: Action)
      requires Valid() && ReadyFor(Record(), vb, a) && a.TryTakeover?
      modifies this`vbEnqueuedForStreamReq, this`vbProcessingStats, this`reqStreamCh, this`vbStreamRequested
      ensures Valid() && Performed(id, Ctx(vb), old(Record()), bucket.docs, Record(), bucket.docs, vb, a)
    {
      var refused := VbTakeover(vb, a.rebalancing);
    }

    /** An action ends with a change of the stream or of the worker. */
    method Relink(vb: nat, kv: Connection, w: Worker, ghost b0: Books, ghost docs0: map<nat, Blob>, ghost a: Action)
      requires Valid() && vb in vbProcessingStats && Does(b0, Record(), vb, At(Record(), vb)) && vb in docs0
      requires Can(PeerOf(b0, vb), a) && NextPeer(id, Ctx(vb), docs0[vb], PeerOf(b0, vb), a) == Peer(At(Record(), vb), kv, w)
      requires bucket.docs == docs0[vb := NextDoc(id, Ctx(vb), docs0[vb], PeerOf(b0, vb), a)]
      modifies this`links
      ensures Valid() && Performed(id, Ctx(vb), b0, docs0, Record(), bucket.docs, vb, a)
    {
      ghost var b1 := Record();
      SetLink(vb, kv, w);
      Then(b0, b1, Record(), vb);
    }

    /** The request routine: the request goes out if the routine gets as far as that. */
    method DoServe(vb: nat, a: Action)
      requires Valid() && ReadyFor(Record(), vb, a) && a.Serve?
      modifies this`reqStreamCh, this`vbEnqueuedForStreamReq, this`vbProcessingStats, this`vbsRemainingToRestream,
               this`vbsRemainingToCleanup, this`vbStreamRequested, this`issuing, this`links, bucket
      ensures Valid() && Performed(id, Ctx(vb), old(Record()), old(bucket.docs), Record(), bucket.docs, vb, a)
    {
      ghost var b0, docs0 := Record(), bucket.docs;
      RequestReceived(b0);
      var kv := links[vb].kv;
      var r := ProcessReqStreamMessage(a.plannerRunning, a.call);
      ServeIssues(id, Ctx(vb), b0, docs0[vb], a.plannerRunning, a.call, Record());
      Relink(vb, if issuing.Some? then kv.(stream := Requested(r.start)) else kv, links[vb].w, b0, docs0, a);
    }

    method DoFinish(vb: nat, a: Action)
      requires Valid() && ReadyFor(Record(), vb, a) && a.Finish?
      modifies this`vbProcessingStats, this`inflightDcpStreams, this`issuing, bucket
      ensures Valid() && Performed(id, Ctx(vb), old(Record()), old(bucket.docs), Record(), bucket.docs, vb, a)
    {
      var r := FinishStreamRequest();
    }

    method DoFlog(vb: nat, a: Action)
      requires Valid() && ReadyFor(Record(), vb, a) && a.TakeFlog?
      modifies this`vbFlogChan, this`inflightDcpStreams, this`vbStreamRequested, this`vbsRemainingToRestream,
               this`vbEnqueuedForStreamReq, this`reqStreamCh
      ensures Valid() && Performed(id, Ctx(vb), old(Record()), bucket.docs, Record(), bucket.docs, vb, a)
    {
      var f := HandleFailoverLog(a.fetched);
    }

    /** STREAMREQ */
    method DoAnswer(vb: nat, a: Action)
      requires Valid() && ReadyFor(Record(), vb, a) && a.TakeDcp? && links[vb].kv.dcp[0].StreamReq?
      modifies this`vbProcessingStats, this`vbFlogChan, this`vbsRemainingToClose, this`filterVbEvents, this`links, bucket
      ensures Valid() && Performed(id, Ctx(vb), old(Record()), old(bucket.docs), Record(), bucket.docs, vb, a)
    {
      ghost var b0, docs0 := Record(), bucket.docs;
      var kv, w, start := links[vb].kv, links[vb].w, vbProcessingStats[vb].lastProcessed;
      if kv.dcp[0].success {
        HandleStreamOpened(vb);
        w := SetProcessed(w, start);
      } else {
        HandleStreamRejected(vb);
      }
      Relink(vb, kv.(dcp := kv.dcp[1..]), w, b0, docs0, a);
    }

    /** STREAMEND of a stream that has sent something: the worker is asked to filter. */
    method DoFilter(vb: nat, a: Action)
      requires Valid() && ReadyFor(Record(), vb, a) && a.TakeDcp? && links[vb].kv.dcp[0].StreamEnd?
      requires vbProcessingStats[vb].lastSent != 0
      modifies this`vbProcessingStats, this`links
      ensures Valid() && Performed(id, Ctx(vb), old(Record()), bucket.docs, Record(), bucket.docs, vb, a)
    {
      ghost var b0 := Record();
      var kv, w := links[vb].kv, links[vb].w;
      UpdateStats(vb, vbProcessingStats[vb].(metadataUpdated := false));
      Relink(vb, kv.(dcp := kv.dcp[1..]), Filter(w, vbProcessingStats[vb].lastSent), b0, bucket.docs, a);
    }

    /** The flag of the handshake is taken back and the stream is wound up. */
    method WindUp(vb: nat)
      requires Valid() && vb in vbProcessingStats
      modifies this`vbStreamRequested, this`inflightDcpStreams, this`filterVbEvents, this`vbProcessingStats, this`vbFlogChan,
               this`vbsRemainingToRestream, bucket
      ensures Valid() && var l := At(old(Record()), vb);
              && Does(old(Record()), Record(), vb, EndStream(id, ShouldOwn(vb), l.(metadataUpdated := false), l.lastRead))
              && bucket.docs == old(bucket.docs)[vb := EndStreamDoc(old(bucket.docs)[vb], l.lastRead)]
    {
      ghost var b0 := Record();
      UpdateStats(vb, vbProcessingStats[vb].(metadataUpdated := false));
      ghost var b1 := Record();
      HandleStreamEnd(vb, vbProcessingStats[vb].lastRead);
      Then(b0, b1, Record(), vb);
    }

    /** STREAMEND of a stream that has sent nothing. */
    method DoStreamEnd(vb: nat, a: Action)
      requires Valid() && ReadyFor(Record(), vb, a) && a.TakeDcp? && links[vb].kv.dcp[0].StreamEnd?
      requires vbProcessingStats[vb].lastSent == 0
      modifies this`vbStreamRequested, this`inflightDcpStreams, this`filterVbEvents, this`vbProcessingStats, this`vbFlogChan,
               this`vbsRemainingToRestream, this`links, bucket
      ensures Valid() && Performed(id, Ctx(vb), old(Record()), old(bucket.docs), Record(), bucket.docs, vb, a)
    {
      ghost var b0, docs0 := Record(), bucket.docs;
      WindUp(vb);
      Relink(vb, links[vb].kv.(dcp := links[vb].kv.dcp[1..]), links[vb].w, b0, docs0, a);
    }

    /** A mutation or another event of the stream. */
    method DoItem(vb: nat, a: Action)
      requires Valid() && ReadyFor(Record(), vb, a) && a.TakeDcp? && links[vb].kv.dcp[0].Item?
      modifies this`vbProcessingStats, this`links
      ensures Valid() && Performed(id, Ctx(vb), old(Record()), bucket.docs, Record(), bucket.docs, vb, a)
    {
      ghost var b0 := Record();
      var kv, w, e := links[vb].kv, links[vb].w, links[vb].kv.dcp[0];
      var msg := HandleDcpEvent(vb, false, e.seqNo, e.kind);
      Relink(vb, kv.(dcp := kv.dcp[1..], read := e.seqNo), if msg.Some? then Push(w, msg.value) else w, b0, bucket.docs, a);
    }

    /** The worker reports a position. */
    method DoReport(vb: nat, a: Action)
      requires Valid() && ReadyFor(Record(), vb, a) && a.TakeReport?
      modifies this`vbProcessingStats, this`links
      ensures Valid() && Performed(id, Ctx(vb), old(Record()), bucket.docs, Record(), bucket.docs, vb, a)
    {
      ghost var b0 := Record();
      var w := links[vb].w;
      RouteResponse(vb, w.reports[0]);
      Relink(vb, links[vb].kv, w.(reports := w.reports[1..]), b0, bucket.docs, a);
    }

    /** The worker acknowledges a filter. */
    method DoAck(vb: nat, a: Action)
      requires Valid() && ReadyFor(Record(), vb, a) && a.TakeAck?
      modifies this`vbStreamRequested, this`inflightDcpStreams, this`filterVbEvents, this`vbProcessingStats, this`vbFlogChan,
               this`vbsRemainingToRestream, this`links, bucket
      ensures Valid() && Performed(id, Ctx(vb), old(Record()), old(bucket.docs), Record(), bucket.docs, vb, a)
    {
      ghost var b0, docs0 := Record(), bucket.docs;
      var w := links[vb].w;
      HandleStreamEnd(vb, w.acks[0]);
      Relink(vb, links[vb].kv, w.(acks := w.acks[1..]), b0, docs0, a);
    }

    /** What the worker and the data service do. */
    method LetHappen(vb: nat, a: Action)
      requires Valid() && ReadyFor(Record(), vb, a)
      requires a.WorkerTakes? || a.WorkerReports? || a.Answer? || a.Deliver? || a.Drop?
      modifies this`links
      ensures Valid() && Performed(id, Ctx(vb), old(Record()), bucket.docs, Record(), bucket.docs, vb, a)
    {
      ReadyCan(Record(), vb, a);
      var p := NextPeer(id, Ctx(vb), bucket.docs[vb], PeerOf(Record(), vb), a);
      Relink(vb, p.kv, p.w, Record(), bucket.docs, a);
    }

    method DoDcp(vb: nat, a: Action)
      requires Valid() && ReadyFor(Record(), vb, a) && a.TakeDcp?
      modifies this`vbStreamRequested, this`inflightDcpStreams, this`filterVbEvents, this`vbProcessingStats, this`vbFlogChan,
               this`vbsRemainingToRestream, this`vbsRemainingToClose, this`links, bucket
      ensures Valid() && Performed(id, Ctx(vb), old(Record()), old(bucket.docs), Record(), bucket.docs, vb, a)
    {
      match links[vb].kv.dcp[0] {
        case StreamReq(_) =>
          DoAnswer(vb, a);
        case StreamEnd =>
          if vbProcessingStats[vb].lastSent == 0 {
            DoStreamEnd(vb, a);
          } else {
            DoFilter(vb, a);
          }
        case Item(_, _) =>
          DoItem(vb, a);
      }
    }

    /** Any action for one vbucket, of the consumer, its worker or the data service. */
    method Perform(vb: nat, a: Action)
      requires Valid() && ReadyFor(Record(), vb, a)
      modifies this`vbProcessingStats, this`vbEnqueuedForStreamReq, this`inflightDcpStreams, this`vbStreamRequested, this`filterVbEvents,
               this`issuing, this`reqStreamCh, this`vbFlogChan, this`vbsRemainingToRestream, this`vbsRemainingToClose,
               this`vbsRemainingToCleanup, this`links, bucket
      ensures Valid() && Performed(id, Ctx(vb), old(Record()), old(bucket.docs), Record(), bucket.docs, vb, a)
    {
      if a.TryTakeover? {
        DoTakeover(vb, a);
      } else if a.Serve? {
        DoServe(vb, a);
      } else if a.Finish? {
        DoFinish(vb, a);
      } else if a.TakeDcp? {
        DoDcp(vb, a);
      } else if a.TakeFlog? {
        DoFlog(vb, a);
      } else if a.TakeReport? {
        DoReport(vb, a);
      } else if a.TakeAck? {
        DoAck(vb, a);
      } else {
        LetHappen(vb, a);
      }
    }

    /** An action for one vbucket, seen from all. */
    method PerformOne(vb: nat, a: Action)
      requires Valid() && ReadyFor(Record(), vb, a)
      modifies this`vbProcessingStats, this`vbEnqueuedForStreamReq, this`inflightDcpStreams, this`vbStreamRequested, this`filterVbEvents,
               this`issuing, this`reqStreamCh, this`vbFlogChan, this`vbsRemainingToRestream, this`vbsRemainingToClose,
               this`vbsRemainingToCleanup, this`links, bucket
      ensures Valid() && bucket.docs.Keys == old(bucket.docs.Keys) && TurnedAt(id, Ctx(vb), old(All()), All(), vb, a)
    {
      ghost var b, docs, t := Record(), bucket.docs, Now(vb);
      ReadyCan(b, vb, a);
      Perform(vb, a);
      TurnSteps(b, docs, Record(), bucket.docs, vb, ActionTurn(id, Ctx(vb), t, Some(a)));
    }

    /** A pass over vbuckets. */
    method DoChore(chore: Chore)
      requires Valid() && (chore.HangUp? ==> issuing.None?)
      modifies this`vbProcessingStats, this`vbEnqueuedForStreamReq, this`reqStreamCh, this`links, this`vbsRemainingToRestream,
               this`vbsRemainingToCleanup, bucket
      ensures Valid() && Completed(id, plan.owner, view, chore, old(All()), All())
    {
      match chore
      case CleanUp(busy) => CleanupPass(busy);
      case CloseStreams => ClosePass();
      case StreamAgain => RestreamPass();
      case SaveSeqNos(idle) => DoLastSeqNoCheckpoint(idle);
      case Rectify => CheckAndUpdateMetadata();
      case HangUp => CloseAllRunningDcpFeeds();
    }
  }
}
