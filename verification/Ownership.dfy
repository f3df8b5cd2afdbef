/**
 Ownership safety: in every run, no two live consumers have a stream for the
 vbucket, requested or open, and no consumer ever asks for a second one.
 */
module Ownership {
  import opened Prelude
  import opened Vbucket
  import opened VbucketSystem

  // ---- The invariant of one consumer -----------------------------------

  /** What is waiting for a consumer whose stream is open, or has just ended. */
  predicate OpenShape(dcp: seq<DcpEvent>, stream: Stream) {
    || (stream.Open? && forall i | 0 <= i < |dcp| :: dcp[i].Item?)
    || (stream.Idle? && dcp != [] && dcp[|dcp| - 1].StreamEnd? && forall i | 0 <= i < |dcp| - 1 :: dcp[i].Item?)
  }

  /** What is waiting for a consumer that has not seen the answer to its request. */
  predicate AwaitShape(dcp: seq<DcpEvent>, stream: Stream, start: SeqNo) {
    if dcp == [] then stream == Requested(start)
    else match dcp[0]
      case StreamReq(success) => if success then OpenShape(dcp[1..], stream) else |dcp| == 1 && stream.Idle?
      case StreamEnd => |dcp| == 1 && stream.Idle?
      case Item(_, _) => false
  }

  function Failures(flog: seq<FlogEntry>): nat { multiset(flog)[StreamFailed] }

  /** The entry of vbStreamRequested tells how far the stream has got. */
  predicate Phase(c: Id, p: Peer) {
    match p.l.streamRequested
    case None =>
      p.kv.stream.Idle? && p.kv.dcp == [] && p.w.acks == [] && !Mine(c, p.l) && !p.l.metadataUpdated && Failures(p.l.flog) == 0
    case Some(start) =>
      if p.l.issuing.Some? then
        && !Mine(c, p.l) && !p.l.metadataUpdated && p.w.acks == [] && Failures(p.l.flog) == 0
        && AwaitShape(p.kv.dcp, p.kv.stream, start) && (p.kv.dcp != [] ==> p.kv.dcp[0].StreamReq?)
      else if p.l.metadataUpdated then
        && !Mine(c, p.l) && p.w.acks == [] && Failures(p.l.flog) == 0
        && AwaitShape(p.kv.dcp, p.kv.stream, start) && p.l.lastSent == 0
      else if Mine(c, p.l) then
        && Failures(p.l.flog) == 0
        && if p.w.acks == [] then OpenShape(p.kv.dcp, p.kv.stream)
           else |p.w.acks| == 1 && p.kv.dcp == [] && p.kv.stream.Idle?
      else
        p.kv.stream.Idle? && p.kv.dcp == [] && p.w.acks == [] && Failures(p.l.flog) == 1
  }

  predicate Coherent(c: Id, p: Peer) {
    && !p.l.filtered && p.l.toClose == 0
    && (Mine(c, p.l) ==> p.l.status == RUNNING)
    && (p.l.issuing.Some? ==> p.l.streamRequested == p.l.issuing)
    && Phase(c, p)
  }

  /** The document lets this consumer have the vbucket. */
  predicate Admits(c: Id, v: View, b: Blob) {
    !Refused(Decide(c, true, v, b))
  }

  /** What a consumer that the plan does not name may still have. */
  predicate Retired(c: Id, l: Local) {
    l.streamRequested.Some? ==> Mine(c, l) && l.requests == [] && !l.toCleanup
  }

  predicate PeerInv(c: Id, x: Context, b: Blob, p: Peer) {
    && c.worker != ""
    && (x.shouldOwn ==> x.shouldOwnNode)
    && Coherent(c, p)
    && (!x.shouldOwn ==> Retired(c, p.l))
    && (Mine(c, p.l) ==> DocNames(c, b))
    && (x.shouldOwn && Engaged(p.l) ==> Admits(c, x.view, b))
  }

  predicate SameOwner(b: Blob, b': Blob) {
    b'.(lastSeqNo := b.lastSeqNo) == b
  }

  /** The consumer gives up a document that names it. */
  predicate Frees(c: Id, b: Blob, b': Blob) {
    DocNames(c, b) && b' == WriteReleased(b, b.lastSeqNo)
  }

  /** What the rest of the system needs to know about a step of one consumer. */
  predicate Discreet(c: Id, x: Context, b: Blob, p: Peer, b': Blob, p': Peer) {
    && PeerInv(c, x, b', p')
    && (SameOwner(b, b') || p.l.streamRequested.Some? || Frees(c, b, b'))
    && (x.shouldOwn && Engaged(p'.l) ==> Admits(c, x.view, b))
    && (!x.shouldOwn && p'.l.streamRequested.Some? ==> p.l.streamRequested.Some?)
  }

  // ---- Each action of one consumer is discreet --------------------------

  lemma DropFirstFailure(flog: seq<FlogEntry>)
    requires flog != []
    ensures Failures(flog) == Failures(flog[1..]) + (if flog[0].StreamFailed? then 1 else 0)
  {
    assert flog == [flog[0]] + flog[1..];
  }

  lemma HangupKeepsShape(dcp: seq<DcpEvent>, stream: Stream, start: SeqNo)
    requires !stream.Idle?
    ensures OpenShape(dcp, stream) ==> OpenShape(dcp + [StreamEnd], Idle)
    ensures AwaitShape(dcp, stream, start) ==> AwaitShape(dcp + [StreamEnd], Idle, start)
  {
    if dcp != [] { assert (dcp + [StreamEnd])[1..] == dcp[1..] + [StreamEnd]; }
  }

  lemma DeliverKeepsShape(dcp: seq<DcpEvent>, stream: Stream, e: DcpEvent, stream': Stream, start: SeqNo)
    requires stream.Open? && stream'.Open? && e.Item?
    ensures OpenShape(dcp, stream) ==> OpenShape(dcp + [e], stream')
    ensures AwaitShape(dcp, stream, start) ==> AwaitShape(dcp + [e], stream', start)
  {
    if dcp != [] { assert (dcp + [e])[1..] == dcp[1..] + [e]; }
  }

  lemma TakeoverIsDiscreet(c: Id, x: Context, b: Blob, p: Peer, a: Action)
    requires PeerInv(c, x, b, p) && Can(p, a) && a.TryTakeover?
    ensures Discreet(c, x, b, p, NextDoc(c, x, b, p, a), NextPeer(c, x, b, p, a))
  {}

  lemma ServeIsDiscreet(c: Id, x: Context, b: Blob, p: Peer, a: Action)
    requires PeerInv(c, x, b, p) && Can(p, a) && a.Serve?
    ensures Discreet(c, x, b, p, NextDoc(c, x, b, p, a), NextPeer(c, x, b, p, a))
  {}

  lemma FinishIsDiscreet(c: Id, x: Context, b: Blob, p: Peer, a: Action)
    requires PeerInv(c, x, b, p) && Can(p, a) && a.Finish?
    ensures Discreet(c, x, b, p, NextDoc(c, x, b, p, a), NextPeer(c, x, b, p, a))
  {}

  lemma StreamReqIsDiscreet(c: Id, x: Context, b: Blob, p: Peer, a: Action)
    requires PeerInv(c, x, b, p) && Can(p, a) && a.TakeDcp? && p.kv.dcp[0].StreamReq?
    ensures Discreet(c, x, b, p, NextDoc(c, x, b, p, a), NextPeer(c, x, b, p, a))
  {}

  lemma StreamEndIsDiscreet(c: Id, x: Context, b: Blob, p: Peer, a: Action)
    requires PeerInv(c, x, b, p) && Can(p, a) && a.TakeDcp? && p.kv.dcp[0].StreamEnd?
    ensures Discreet(c, x, b, p, NextDoc(c, x, b, p, a), NextPeer(c, x, b, p, a))
  {}

  lemma ItemIsDiscreet(c: Id, x: Context, b: Blob, p: Peer, a: Action)
    requires PeerInv(c, x, b, p) && Can(p, a) && a.TakeDcp? && p.kv.dcp[0].Item?
    ensures Discreet(c, x, b, p, NextDoc(c, x, b, p, a), NextPeer(c, x, b, p, a))
  {
    var p' := NextPeer(c, x, b, p, a);
    assert OpenShape(p'.kv.dcp, p'.kv.stream);
  }

  lemma FlogIsDiscreet(c: Id, x: Context, b: Blob, p: Peer, a: Action)
    requires PeerInv(c, x, b, p) && Can(p, a) && a.TakeFlog?
    ensures Discreet(c, x, b, p, NextDoc(c, x, b, p, a), NextPeer(c, x, b, p, a))
  {
    DropFirstFailure(p.l.flog);
  }

  lemma WorkerIsDiscreet(c: Id, x: Context, b: Blob, p: Peer, a: Action)
    requires PeerInv(c, x, b, p) && Can(p, a) && (a.TakeReport? || a.WorkerTakes? || a.WorkerReports?)
    ensures Discreet(c, x, b, p, NextDoc(c, x, b, p, a), NextPeer(c, x, b, p, a))
  {}

  lemma AckIsDiscreet(c: Id, x: Context, b: Blob, p: Peer, a: Action)
    requires PeerInv(c, x, b, p) && Can(p, a) && a.TakeAck?
    ensures Discreet(c, x, b, p, NextDoc(c, x, b, p, a), NextPeer(c, x, b, p, a))
  {}

  lemma CleanupIsDiscreet(c: Id, x: Context, b: Blob, p: Peer, a: Action)
    requires PeerInv(c, x, b, p) && Can(p, a) && a.TickCleanup?
    ensures Discreet(c, x, b, p, NextDoc(c, x, b, p, a), NextPeer(c, x, b, p, a))
  {}

  lemma CloseIsDiscreet(c: Id, x: Context, b: Blob, p: Peer, a: Action)
    requires PeerInv(c, x, b, p) && Can(p, a) && a.TickClose?
    ensures Discreet(c, x, b, p, NextDoc(c, x, b, p, a), NextPeer(c, x, b, p, a))
  {}

  lemma RestreamIsDiscreet(c: Id, x: Context, b: Blob, p: Peer, a: Action)
    requires PeerInv(c, x, b, p) && Can(p, a) && a.TickRestream?
    ensures Discreet(c, x, b, p, NextDoc(c, x, b, p, a), NextPeer(c, x, b, p, a))
  {}

  lemma DocumentIsDiscreet(c: Id, x: Context, b: Blob, p: Peer, a: Action)
    requires PeerInv(c, x, b, p) && Can(p, a) && (a.Checkpoint? || a.Correct?)
    ensures Discreet(c, x, b, p, NextDoc(c, x, b, p, a), NextPeer(c, x, b, p, a))
  {}

  /** A connection is not lost between a request and its bookkeeping, unless the server has answered. */
  predicate Timely(p: Peer, a: Action) {
    a.Drop? && p.kv.stream.Requested? ==> p.l.issuing.None?
  }

  lemma ServiceIsDiscreet(c: Id, x: Context, b: Blob, p: Peer, a: Action)
    requires PeerInv(c, x, b, p) && Can(p, a) && Timely(p, a)
    requires a.CloseFeeds? || a.Answer? || a.Deliver? || a.Drop?
    ensures Discreet(c, x, b, p, NextDoc(c, x, b, p, a), NextPeer(c, x, b, p, a))
  {
    if p.l.streamRequested.Some? {
      if !p.kv.stream.Idle? { HangupKeepsShape(p.kv.dcp, p.kv.stream, p.l.streamRequested.value); }
      if a.Deliver? {
        DeliverKeepsShape(p.kv.dcp, p.kv.stream, Item(a.next, a.kind), Open(p.kv.stream.start, a.next), p.l.streamRequested.value);
      }
    }
  }

  lemma ActionIsDiscreet(c: Id, x: Context, b: Blob, p: Peer, a: Action)
    requires PeerInv(c, x, b, p) && Can(p, a) && Timely(p, a)
    ensures Discreet(c, x, b, p, NextDoc(c, x, b, p, a), NextPeer(c, x, b, p, a))
  {
    match a
    case TryTakeover(_) => TakeoverIsDiscreet(c, x, b, p, a);
    case Serve(_, _) => ServeIsDiscreet(c, x, b, p, a);
    case Finish => FinishIsDiscreet(c, x, b, p, a);
    case TakeDcp =>
      match p.kv.dcp[0] {
        case StreamReq(_) => StreamReqIsDiscreet(c, x, b, p, a);
        case StreamEnd => StreamEndIsDiscreet(c, x, b, p, a);
        case Item(_, _) => ItemIsDiscreet(c, x, b, p, a);
      }
    case TakeFlog(_) => FlogIsDiscreet(c, x, b, p, a);
    case TakeAck => AckIsDiscreet(c, x, b, p, a);
    case TakeReport => WorkerIsDiscreet(c, x, b, p, a);
    case WorkerTakes => WorkerIsDiscreet(c, x, b, p, a);
    case WorkerReports => WorkerIsDiscreet(c, x, b, p, a);
    case TickCleanup(_) => CleanupIsDiscreet(c, x, b, p, a);
    case TickClose => CloseIsDiscreet(c, x, b, p, a);
    case TickRestream => RestreamIsDiscreet(c, x, b, p, a);
    case Checkpoint => DocumentIsDiscreet(c, x, b, p, a);
    case Correct => DocumentIsDiscreet(c, x, b, p, a);
    case _ => ServiceIsDiscreet(c, x, b, p, a);
  }

  // ---- The invariant of the system -------------------------------------

  predicate DistinctNames(ids: set<Id>) {
    forall c, d | c in ids && d in ids && c != d :: c.node != d.node || c.worker != d.worker
  }

  /** While the consumer of the plan is engaged, nobody else has a stream. */
  predicate Exclusive(s: System)
    requires Populated(s)
  {
    s.plan in s.live && Engaged(s.peers[s.plan].l) ==>
      forall d | d in s.live && d != s.plan :: s.peers[d].l.streamRequested.None?
  }

  predicate Inv(s: System) {
    && Populated(s)
    && Sighted(s)
    && DistinctNames(s.live)
    && (forall c | c in s.live :: PeerInv(c, ContextOf(s, c), s.doc, s.peers[c]))
    && Exclusive(s)
  }

  /** A live owner of another name refuses the takeover. */
  lemma LiveOwnerRefuses(v: View, c: Id, d: Id, b: Blob)
    requires Sees(v, d) && (c.node != d.node || c.worker != d.worker) && DocNames(d, b)
    ensures !Admits(c, v, b)
  {}

  /** Two live consumers cannot both hold an entry of vbStreamRequested. */
  lemma HolderIsAlone(s: System, c: Id, d: Id)
    requires Inv(s) && c in s.live && d in s.live && c != d && s.peers[c].l.streamRequested.Some?
    ensures s.peers[d].l.streamRequested.None?
  {
    assert PeerInv(c, ContextOf(s, c), s.doc, s.peers[c]);
    assert PeerInv(d, ContextOf(s, d), s.doc, s.peers[d]);
  }

  /** A change of document that the others do not notice. */
  lemma OthersKeep(s: System, c: Id, d: Id, b': Blob)
    requires Inv(s) && c in s.live && d in s.live && c != d
    requires SameOwner(s.doc, b') || s.peers[c].l.streamRequested.Some? || Frees(c, s.doc, b')
    ensures PeerInv(d, ContextOf(s, d), b', s.peers[d])
  {
    assert PeerInv(d, ContextOf(s, d), s.doc, s.peers[d]);
    if s.peers[c].l.streamRequested.Some? { HolderIsAlone(s, c, d); }
  }

  lemma ActKeeps(s: System, c: Id, a: Action)
    requires Inv(s) && Enabled(s, Act(c, a)) && Timely(s.peers[c], a)
    ensures Inv(Apply(s, Act(c, a)))
  {
    var x, p, s' := ContextOf(s, c), s.peers[c], Apply(s, Act(c, a));
    assert PeerInv(c, x, s.doc, p);
    ActionIsDiscreet(c, x, s.doc, p, a);
    forall d | d in s'.live ensures PeerInv(d, ContextOf(s', d), s'.doc, s'.peers[d]) {
      if d != c { OthersKeep(s, c, d, s'.doc); }
    }
    if s.plan in s.live && Engaged(s'.peers[s.plan].l) {
      forall d | d in s.live && d != s.plan ensures s'.peers[d].l.streamRequested.None? {
        if s.peers[d].l.streamRequested.Some? {
          assert PeerInv(d, ContextOf(s, d), s.doc, s.peers[d]);
          LiveOwnerRefuses(s.views[s.plan], s.plan, d, s.doc);
        }
      }
    }
  }

  /** The plan moves in a state that the rules allow. */
  lemma ReplanKeeps(s: System, plan: Id)
    requires Inv(s) && Orderly(s, Replan(plan))
    ensures Inv(Apply(s, Replan(plan)))
  {
    var s' := Apply(s, Replan(plan));
    forall c | c in s.live ensures PeerInv(c, ContextOf(s', c), s'.doc, s'.peers[c]) {
      assert PeerInv(c, ContextOf(s, c), s.doc, s.peers[c]);
    }
    if plan in s.live && Engaged(s.peers[plan].l) && plan != s.plan {
      forall d | d in s.live && d != plan ensures s.peers[d].l.streamRequested.None? { HolderIsAlone(s, plan, d); }
    }
  }

  /** A consumer learns about the cluster. */
  lemma LookKeeps(s: System, c: Id, view: View)
    requires Inv(s) && c in s.live && Orderly(s, Look(c, view))
    ensures Inv(Apply(s, Look(c, view)))
  {
    var s' := Apply(s, Look(c, view));
    forall d | d in s.live ensures PeerInv(d, ContextOf(s', d), s'.doc, s'.peers[d]) {
      assert PeerInv(d, ContextOf(s, d), s.doc, s.peers[d]);
    }
  }

  lemma DieKeeps(s: System, node: string)
    requires Inv(s)
    ensures Inv(Apply(s, Die(node)))
  {
    forall c | c in s.live && c.node != node ensures PeerInv(c, ContextOf(s, c), s.doc, s.peers[c]) {}
  }

  lemma FreshInv(c: Id, x: Context, b: Blob)
    requires c.worker != "" && (x.shouldOwn ==> x.shouldOwnNode)
    ensures PeerInv(c, x, b, FreshPeer(c))
  {}

  lemma JoinedPeers(s: System, c: Id, view: View, d: Id)
    requires Inv(s) && Enabled(s, Join(c, view)) && (d in s.live || d == c)
    ensures var s' := Apply(s, Join(c, view)); PeerInv(d, ContextOf(s', d), s'.doc, s'.peers[d])
  {
    if d == c { FreshInv(c, ContextOf(Apply(s, Join(c, view)), c), s.doc); }
    else { assert PeerInv(d, ContextOf(s, d), s.doc, s.peers[d]); }
  }

  lemma JoinKeeps(s: System, c: Id, view: View)
    requires Inv(s) && Enabled(s, Join(c, view)) && Orderly(s, Join(c, view))
    ensures Inv(Apply(s, Join(c, view)))
  {
    var s' := Apply(s, Join(c, view));
    forall d | d in s'.live ensures PeerInv(d, ContextOf(s', d), s'.doc, s'.peers[d]) { JoinedPeers(s, c, view, d); }
    JoinedDistinct(s.live, c);
    JoinedExclusive(s, c, view);
  }

  lemma JoinedDistinct(ids: set<Id>, c: Id)
    requires DistinctNames(ids) && forall d | d in ids :: d.node != c.node || d.worker != c.worker
    ensures DistinctNames(ids + {c})
  {}

  lemma JoinedExclusive(s: System, c: Id, view: View)
    requires Inv(s) && Enabled(s, Join(c, view))
    ensures Exclusive(Apply(s, Join(c, view)))
  {
    assert FreshPeer(c).l.streamRequested.None? && !Engaged(FreshPeer(c).l);
  }

  /** The step obeys every rule. */
  predicate Orderly(s: System, t: Step)
    requires Populated(s) && Enabled(s, t)
  {
    && Obeys(s, t, HolderSettled) && Obeys(s, t, HolderDrained) && Obeys(s, t, HolderUnlisted)
    && Obeys(s, t, HeirDrained) && Obeys(s, t, HeirUnlisted)
    && Obeys(s, t, AllSeen) && Obeys(s, t, NoneReturns) && Obeys(s, t, Answered)
  }

  lemma StepKeeps(s: System, t: Step)
    requires Inv(s) && Enabled(s, t) && Orderly(s, t)
    ensures Inv(Apply(s, t))
  {
    match t
    case Act(c, a) => ActKeeps(s, c, a);
    case Replan(plan) => ReplanKeeps(s, plan);
    case Look(c, view) => LookKeeps(s, c, view);
    case Produce(_, _) =>
    case Die(node) => DieKeeps(s, node);
    case Join(c, view) => JoinKeeps(s, c, view);
  }

  lemma InitHolds(s: System)
    requires Init(s)
    ensures Inv(s)
  {
    forall c | c in s.live ensures PeerInv(c, ContextOf(s, c), s.doc, s.peers[c]) { FreshInv(c, ContextOf(s, c), s.doc); }
    InitIsExclusive(s);
  }

  lemma InitIsExclusive(s: System)
    requires Populated(s) && forall c | c in s.live :: s.peers[c] == FreshPeer(c)
    ensures Exclusive(s)
  {}

  lemma {:induction false} RunKeeps(states: seq<System>, steps: seq<Step>, n: nat)
    requires Run({}, states, steps) && n < |states|
    ensures Inv(states[n])
  {
    if n == 0 {
      InitHolds(states[0]);
    } else {
      RunKeeps(states, steps, n - 1);
      assert Follows({}, states[n - 1], steps[n - 1], states[n]);
      StepKeeps(states[n - 1], steps[n - 1]);
    }
  }

  // ---- Main results ----------------------------------------------------

  /** No reachable state has two live consumers with a requested or open stream. */
  lemma OwnershipSafety(states: seq<System>, steps: seq<Step>, n: nat, c: Id, d: Id)
    requires Run({}, states, steps) && n < |states|
    requires c in states[n].live && d in states[n].live && c != d
    ensures c in states[n].peers && d in states[n].peers
    ensures !(Streaming(states[n].peers[c]) && Streaming(states[n].peers[d]))
  {
    var s := states[n];
    RunKeeps(states, steps, n);
    assert PeerInv(c, ContextOf(s, c), s.doc, s.peers[c]);
    assert PeerInv(d, ContextOf(s, d), s.doc, s.peers[d]);
    if Streaming(s.peers[c]) && Streaming(s.peers[d]) {
      HolderIsAlone(s, c, d);
      assert false;
    }
  }

  lemma AnswerAsksNothing(c: Id, x: Context, b: Blob, p: Peer, a: Action)
    requires Can(p, a) && a.TakeDcp? && p.kv.dcp[0].StreamReq?
    ensures NextPeer(c, x, b, p, a).l.issuing == p.l.issuing
  {}

  lemma StreamEndAsksNothing(c: Id, x: Context, b: Blob, p: Peer, a: Action)
    requires Can(p, a) && a.TakeDcp? && p.kv.dcp[0].StreamEnd?
    ensures NextPeer(c, x, b, p, a).l.issuing == p.l.issuing
  {}

  lemma ItemAsksNothing(c: Id, x: Context, b: Blob, p: Peer, a: Action)
    requires Can(p, a) && a.TakeDcp? && p.kv.dcp[0].Item?
    ensures NextPeer(c, x, b, p, a).l.issuing == p.l.issuing
  {}

  lemma TakeoverAsksNothing(c: Id, x: Context, b: Blob, p: Peer, a: Action)
    requires Can(p, a) && a.TryTakeover?
    ensures NextPeer(c, x, b, p, a).l.issuing == p.l.issuing
  {}

  lemma FlogAsksNothing(c: Id, x: Context, b: Blob, p: Peer, a: Action)
    requires Can(p, a) && a.TakeFlog?
    ensures NextPeer(c, x, b, p, a).l.issuing == p.l.issuing
  {}

  lemma TickAsksNothing(c: Id, x: Context, b: Blob, p: Peer, a: Action)
    requires Can(p, a) && (a.TickCleanup? || a.TickClose? || a.TickRestream?)
    ensures NextPeer(c, x, b, p, a).l.issuing == p.l.issuing
  {}

  lemma OnlyServingAsks(c: Id, x: Context, b: Blob, p: Peer, a: Action)
    requires Can(p, a) && p.l.issuing.None? && !a.Serve?
    ensures NextPeer(c, x, b, p, a).l.issuing.None?
  {
    if a.TakeDcp? && p.kv.dcp[0].StreamReq? { AnswerAsksNothing(c, x, b, p, a); }
    else if a.TakeDcp? && p.kv.dcp[0].StreamEnd? { StreamEndAsksNothing(c, x, b, p, a); }
    else if a.TakeDcp? { ItemAsksNothing(c, x, b, p, a); }
    else if a.TryTakeover? { TakeoverAsksNothing(c, x, b, p, a); }
    else if a.TakeFlog? { FlogAsksNothing(c, x, b, p, a); }
    else if a.TickCleanup? || a.TickClose? || a.TickRestream? { TickAsksNothing(c, x, b, p, a); }
  }

  lemma ServingAsksWhenIdle(c: Id, x: Context, b: Blob, p: Peer, a: Action)
    requires PeerInv(c, x, b, p) && Can(p, a) && a.Serve? && p.l.issuing.None?
    ensures NextPeer(c, x, b, p, a).l.issuing.Some? ==> p.l.streamRequested.None? && p.kv.stream.Idle?
  {}

  /** Only the request routine asks for a stream, and only when there is none. */
  lemma AsksOnlyWhenIdle(c: Id, x: Context, b: Blob, p: Peer, a: Action)
    requires PeerInv(c, x, b, p) && Can(p, a)
    requires NextPeer(c, x, b, p, a).l.issuing.Some? && p.l.issuing.None?
    ensures a.Serve? && p.l.streamRequested.None? && p.kv.stream.Idle?
  {
    if !a.Serve? {
      OnlyServingAsks(c, x, b, p, a);
      assert false;
    }
    ServingAsksWhenIdle(c, x, b, p, a);
  }

  /**
   A stream is asked for only when there is none, neither at the data service nor
   in vbStreamRequested; and whatever is requested or open is recorded there.
   */
  lemma OneStreamPerConsumer(states: seq<System>, steps: seq<Step>, n: nat, c: Id)
    requires Run({}, states, steps) && n < |steps| && c in states[n].live
    ensures c in states[n].peers && c in states[n + 1].peers
    ensures Streaming(states[n].peers[c]) ==> states[n].peers[c].l.streamRequested.Some?
    ensures states[n + 1].peers[c].l.issuing.Some? && states[n].peers[c].l.issuing.None? ==>
              states[n].peers[c].l.streamRequested.None? && states[n].peers[c].kv.stream.Idle?
  {
    var s, t, s' := states[n], steps[n], states[n + 1];
    RunKeeps(states, steps, n);
    assert PeerInv(c, ContextOf(s, c), s.doc, s.peers[c]);
    assert Follows({}, s, t, s');
    if t.Act? && t.c == c && s'.peers[c].l.issuing.Some? && s.peers[c].l.issuing.None? {
      AsksOnlyWhenIdle(c, ContextOf(s, c), s.doc, s.peers[c], t.a);
    }
  }

  /** An open stream that the consumer has seen is named by the document. */
  lemma DocumentNamesTheHolder(states: seq<System>, steps: seq<Step>, n: nat, c: Id)
    requires Run({}, states, steps) && n < |states| && c in states[n].live
    ensures c in states[n].peers
    ensures Owned(c, states[n].peers[c].l) ==> DocNames(c, states[n].doc)
    ensures Streaming(states[n].peers[c]) && c != states[n].plan ==> DocNames(c, states[n].doc)
  {
    RunKeeps(states, steps, n);
    assert PeerInv(c, ContextOf(states[n], c), states[n].doc, states[n].peers[c]);
  }
}
