/**
 The books of a consumer as a value: every collection that its routines change,
 over all vbuckets, and what they say about one vbucket.
 */
module Ledger {
  import opened Prelude
  import opened Vbucket
  import opened Worker
  import opened VbucketSystem

  datatype Stats = Stats(
    nodeUuid: string, assignedWorker: string, status: string,
    requestedNode: string, requestedWorker: string,
    lastProcessed: SeqNo, lastRead: SeqNo, lastSent: SeqNo, metadataUpdated: bool)

  datatype StreamRequest = StreamRequest(vb: nat, start: SeqNo)

  datatype Flog = Flog(vb: nat, entry: FlogEntry)

  /** The stream of a vbucket and its share of the worker. */
  datatype Link = Link(kv: Connection, w: Worker)

  datatype Books = Books(
    stats: map<nat, Stats>, enqueued: set<nat>, inflight: set<nat>, requested: map<nat, SeqNo>, filtered: set<nat>,
    issuing: Option<StreamRequest>, requests: seq<StreamRequest>, flogs: seq<Flog>,
    restream: seq<nat>, close: seq<nat>, cleanup: seq<nat>, links: map<nat, Link>)

  // ---- The share of one vbucket in a channel ------------------------------------

  function Starts(ch: seq<StreamRequest>, vb: nat): seq<SeqNo> {
    if ch == [] then []
    else Starts(ch[..|ch| - 1], vb) + (if ch[|ch| - 1].vb == vb then [ch[|ch| - 1].start] else [])
  }

  lemma StartsSend(ch: seq<StreamRequest>, r: StreamRequest, vb: nat)
    ensures Starts(ch + [r], vb) == Starts(ch, vb) + (if r.vb == vb then [r.start] else [])
  {
    assert (ch + [r])[..|ch|] == ch;
  }

  lemma {:induction false} StartsReceive(ch: seq<StreamRequest>, vb: nat)
    requires ch != []
    ensures Starts(ch, vb) == (if ch[0].vb == vb then [ch[0].start] else []) + Starts(ch[1..], vb)
    decreases |ch|
  {
    if |ch| > 1 {
      StartsReceive(ch[..|ch| - 1], vb);
      assert ch[..|ch| - 1][1..] == ch[1..][..|ch| - 2];
    }
  }

  function Entries(ch: seq<Flog>, vb: nat): seq<FlogEntry> {
    if ch == [] then []
    else Entries(ch[..|ch| - 1], vb) + (if ch[|ch| - 1].vb == vb then [ch[|ch| - 1].entry] else [])
  }

  lemma EntriesSend(ch: seq<Flog>, f: Flog, vb: nat)
    ensures Entries(ch + [f], vb) == Entries(ch, vb) + (if f.vb == vb then [f.entry] else [])
  {
    assert (ch + [f])[..|ch|] == ch;
  }

  lemma {:induction false} EntriesReceive(ch: seq<Flog>, vb: nat)
    requires ch != []
    ensures Entries(ch, vb) == (if ch[0].vb == vb then [ch[0].entry] else []) + Entries(ch[1..], vb)
    decreases |ch|
  {
    if |ch| > 1 {
      EntriesReceive(ch[..|ch| - 1], vb);
      assert ch[..|ch| - 1][1..] == ch[1..][..|ch| - 2];
    }
  }

  // ---- What the books say about one vbucket -----------------------------------------

  function At(b: Books, vb: nat): Local
    requires vb in b.stats
  {
    var s := b.stats[vb];
    Local(s.nodeUuid, s.assignedWorker, s.status, s.requestedNode, s.requestedWorker,
          s.lastProcessed, s.lastRead, s.lastSent, s.metadataUpdated,
          vb in b.enqueued, vb in b.inflight,
          if vb in b.requested then Some(b.requested[vb]) else None,
          vb in b.filtered,
          if b.issuing.Some? && b.issuing.value.vb == vb then Some(b.issuing.value.start) else None,
          Starts(b.requests, vb), Entries(b.flogs, vb),
          multiset(b.restream)[vb], multiset(b.close)[vb], vb in b.cleanup)
  }

  /** The vbuckets of channels and lists have statistics, and those have a link. */
  ghost predicate Known(b: Books) {
    && (forall r | r in b.requests :: r.vb in b.stats)
    && (forall f | f in b.flogs :: f.vb in b.stats)
    && (b.issuing.Some? ==> b.issuing.value.vb in b.stats)
    && (forall vb | vb in b.restream + b.close + b.cleanup :: vb in b.stats)
    && b.links.Keys == b.stats.Keys
  }

  function PeerOf(b: Books, vb: nat): Peer
    requires vb in b.stats && vb in b.links
  {
    Peer(At(b, vb), b.links[vb].kv, b.links[vb].w)
  }

  function Peers(b: Books): map<nat, Peer> {
    map vb | vb in b.stats && vb in b.links :: PeerOf(b, vb)
  }

  // ---- Changes for one vbucket ----------------------------------------------------------

  ghost predicate SameSet(s: set<nat>, s': set<nat>, vb: nat) {
    s' - {vb} == s - {vb}
  }

  ghost predicate SameList(l: seq<nat>, l': seq<nat>, vb: nat) {
    l' == l || forall v | v != vb :: multiset(l')[v] == multiset(l)[v]
  }

  ghost predicate SameRequests(ch: seq<StreamRequest>, ch': seq<StreamRequest>, vb: nat) {
    ch' == ch || forall v | v != vb :: Starts(ch', v) == Starts(ch, v)
  }

  ghost predicate SameFlogs(ch: seq<Flog>, ch': seq<Flog>, vb: nat) {
    ch' == ch || forall v | v != vb :: Entries(ch', v) == Entries(ch, v)
  }

  ghost predicate SameIssuing(r: Option<StreamRequest>, r': Option<StreamRequest>, vb: nat) {
    r' == r || ((r.Some? ==> r.value.vb == vb) && (r'.Some? ==> r'.value.vb == vb))
  }

  /** Collection by collection, nothing has changed for any other vbucket. */
  ghost predicate Elsewhere(b: Books, b': Books, vb: nat) {
    && b'.stats.Keys == b.stats.Keys && b'.stats - {vb} == b.stats - {vb}
    && b'.links.Keys == b.links.Keys && b'.links - {vb} == b.links - {vb}
    && SameSet(b.enqueued, b'.enqueued, vb) && SameSet(b.inflight, b'.inflight, vb) && SameSet(b.filtered, b'.filtered, vb)
    && b'.requested - {vb} == b.requested - {vb}
    && SameIssuing(b.issuing, b'.issuing, vb)
    && SameRequests(b.requests, b'.requests, vb) && SameFlogs(b.flogs, b'.flogs, vb)
    && SameList(b.restream, b'.restream, vb) && SameList(b.close, b'.close, vb) && SameList(b.cleanup, b'.cleanup, vb)
  }

  lemma ElsewhereUnchanged(b: Books, b': Books, vb: nat, v: nat)
    requires Elsewhere(b, b', vb) && v != vb && v in b.stats && v in b.links
    ensures v in b'.stats && v in b'.links && PeerOf(b', v) == PeerOf(b, v)
  {
    assert v in b.stats - {vb} && v in b'.stats - {vb} && v in b.links - {vb} && v in b'.links - {vb};
    assert v in b'.enqueued <==> v in b'.enqueued - {vb};
    assert v in b'.inflight <==> v in b'.inflight - {vb};
    assert v in b'.filtered <==> v in b'.filtered - {vb};
    assert v in b'.requested <==> v in b'.requested - {vb};
    assert v in b'.cleanup <==> multiset(b'.cleanup)[v] > 0;
    assert v in b.cleanup <==> multiset(b.cleanup)[v] > 0;
  }

  /** The books have changed for one vbucket only, of which they now say this. */
  ghost predicate Turns(b: Books, b': Books, vb: nat, p: Peer) {
    Known(b') && Elsewhere(b, b', vb) && vb in b'.stats && PeerOf(b', vb) == p
  }

  /** The same for a change that leaves stream and worker alone. */
  ghost predicate Does(b: Books, b': Books, vb: nat, l: Local) {
    vb in b.stats && vb in b.links && Turns(b, b', vb, PeerOf(b, vb).(l := l))
  }

  lemma Then(b: Books, b1: Books, b2: Books, vb: nat)
    requires vb in b.links && vb in b1.stats && vb in b1.links && Turns(b, b1, vb, PeerOf(b1, vb))
    requires vb in b2.stats && vb in b2.links && Turns(b1, b2, vb, PeerOf(b2, vb))
    ensures Turns(b, b2, vb, PeerOf(b2, vb))
  {}

  function WithStats(l: Local, s: Stats): Local {
    l.(nodeUuid := s.nodeUuid, assignedWorker := s.assignedWorker, status := s.status,
       requestedNode := s.requestedNode, requestedWorker := s.requestedWorker,
       lastProcessed := s.lastProcessed, lastRead := s.lastRead, lastSent := s.lastSent, metadataUpdated := s.metadataUpdated)
  }

  // ---- Channels ----------------------------------------------------------------------------

  lemma RequestSent(b: Books, r: StreamRequest)
    requires Known(b) && r.vb in b.stats
    ensures Does(b, b.(requests := b.requests + [r]), r.vb, At(b, r.vb).(requests := At(b, r.vb).requests + [r.start]))
  {
    forall v ensures Starts(b.requests + [r], v) == Starts(b.requests, v) + (if r.vb == v then [r.start] else []) {
      StartsSend(b.requests, r, v);
    }
  }

  lemma RequestReceived(b: Books)
    requires Known(b) && b.requests != []
    ensures var vb, l := b.requests[0].vb, At(b, b.requests[0].vb);
            && l.requests != [] && l.requests[0] == b.requests[0].start
            && Does(b, b.(requests := b.requests[1..]), vb, l.(requests := l.requests[1..]))
  {
    var ch := b.requests;
    forall v ensures Starts(ch, v) == (if ch[0].vb == v then [ch[0].start] else []) + Starts(ch[1..], v) { StartsReceive(ch, v); }
  }

  lemma FlogSent(b: Books, f: Flog)
    requires Known(b) && f.vb in b.stats
    ensures Does(b, b.(flogs := b.flogs + [f]), f.vb, At(b, f.vb).(flog := At(b, f.vb).flog + [f.entry]))
  {
    forall v ensures Entries(b.flogs + [f], v) == Entries(b.flogs, v) + (if f.vb == v then [f.entry] else []) {
      EntriesSend(b.flogs, f, v);
    }
  }

  lemma FlogReceived(b: Books)
    requires Known(b) && b.flogs != []
    ensures var vb, l := b.flogs[0].vb, At(b, b.flogs[0].vb);
            && l.flog != [] && l.flog[0] == b.flogs[0].entry
            && Does(b, b.(flogs := b.flogs[1..]), vb, l.(flog := l.flog[1..]))
  {
    var ch := b.flogs;
    forall v ensures Entries(ch, v) == (if ch[0].vb == v then [ch[0].entry] else []) + Entries(ch[1..], v) { EntriesReceive(ch, v); }
  }

  // ---- Actions for one vbucket ------------------------------------------------------------

  /** The action can be taken; a channel gives its first entry, whichever vbucket that is for. */
  predicate ReadyFor(b: Books, vb: nat, a: Action) {
    vb in b.stats && vb in b.links &&
    var kv, w := b.links[vb].kv, b.links[vb].w;
    match a
    case TryTakeover(_) => true
    case Serve(_, _) => b.issuing.None? && b.requests != [] && b.requests[0].vb == vb
    case Finish => b.issuing.Some? && b.issuing.value.vb == vb
    case TakeDcp => kv.dcp != [] && (kv.dcp[0].StreamReq? ==> b.stats[vb].metadataUpdated)
    case TakeFlog(_) => b.flogs != [] && b.flogs[0].vb == vb
    case TakeReport => w.reports != []
    case TakeAck => w.acks != []
    case WorkerTakes => w.queue != []
    case WorkerReports => true
    case Answer(_) => kv.stream.Requested?
    case Deliver(_, _) => kv.stream.Open?
    case Drop => !kv.stream.Idle?
    case _ => false
  }

  lemma ReadyCan(b: Books, vb: nat, a: Action)
    requires Known(b) && ReadyFor(b, vb, a)
    ensures Can(PeerOf(b, vb), a)
  {
    if a.Serve? { RequestReceived(b); }
    if a.TakeFlog? { FlogReceived(b); }
  }

  /** A served request is under way if and only if it gets as far as the call, and that succeeds. */
  lemma ServeIssues(c: Id, x: Context, b: Books, docs: Blob, plannerRunning: bool, call: Call, b': Books)
    requires Known(b) && b.issuing.None? && b.requests != []
    requires var vb := b.requests[0].vb;
             At(b, vb).requests != [] && Does(b, b', vb, ServeRequest(c, x.shouldOwn, plannerRunning, call, At(b, vb), docs))
    ensures var vb := b.requests[0].vb;
            b'.issuing.Some? <==> call.Accepted? && Issues(c, x.shouldOwn, plannerRunning, At(b, vb))
  {
    assert At(b', b.requests[0].vb).issuing.Some? <==> b'.issuing.Some?;
  }

  /** The action of the vbucket has been taken, and nothing else. */
  ghost predicate Performed(c: Id, x: Context, b: Books, docs: map<nat, Blob>, b': Books, docs': map<nat, Blob>, vb: nat, a: Action) {
    && vb in b.stats && vb in b.links && vb in docs && Can(PeerOf(b, vb), a)
    && Turns(b, b', vb, NextPeer(c, x, docs[vb], PeerOf(b, vb), a))
    && docs' == docs[vb := NextDoc(c, x, docs[vb], PeerOf(b, vb), a)]
  }
}
