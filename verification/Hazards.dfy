/**
 Every rule of an orderly run is needed: without it there is a run, from the
 start, after which two consumers stream, or after which an answer is taken up
 before the counters of its request are reset.
 */
module Hazards {
  import opened Prelude
  import opened Vbucket
  import opened VbucketSystem
  import opened Ownership
  import opened NoSkip

  ghost predicate TwoStreams(s: System) {
    exists c, d | c in s.live && d in s.live && c != d && c in s.peers && d in s.peers ::
      Streaming(s.peers[c]) && Streaming(s.peers[d])
  }

  /** An answer can be taken up although the bookkeeping of its request is not done. */
  ghost predicate EarlyAnswer(s: System) {
    exists c | c in s.live && c in s.peers ::
      var p := s.peers[c]; p.kv.dcp != [] && p.kv.dcp[0].StreamReq? && Can(p, TakeDcp) && p.l.issuing.Some?
  }

  // ---- Going on with a run -----------------------------------------------

  lemma Extend(waived: set<Rule>, s: System, t: Step)
    requires Reachable(waived, s) && Populated(s) && Enabled(s, t) && Follows(waived, s, t, Apply(s, t))
    ensures Reachable(waived, Apply(s, t))
  {
    var states: seq<System>, steps: seq<Step> :| Run(waived, states, steps) && states[|steps|] == s;
    var longer := states + [Apply(s, t)];
    assert Run(waived, longer, steps + [t]);
    assert longer[|steps + [t]|] == Apply(s, t);
  }

  ghost predicate Scene(waived: set<Rule>, s: System) {
    Reachable(waived, s) && Populated(s) && (Sighted(s) || AllSeen in waived)
  }

  /** One action of one consumer. */
  lemma Acts(waived: set<Rule>, s: System, c: Id, a: Action) returns (s': System)
    requires Scene(waived, s) && c in s.live && Can(s.peers[c], a)
    requires !a.Deliver? && !a.WorkerTakes? && (Timely(s.peers[c], a) || Answered in waived)
    ensures Scene(waived, s')
    ensures var x, p := ContextOf(s, c), s.peers[c];
            s' == s.(doc := NextDoc(c, x, s.doc, p, a), peers := s.peers[c := NextPeer(c, x, s.doc, p, a)])
  {
    s' := Apply(s, Act(c, a));
    Extend(waived, s, Act(c, a));
  }

  // ---- Two consumers -------------------------------------------------------

  /** A reachable state in which two consumers, on different nodes, play a part. */
  ghost predicate Duo(waived: set<Rule>, s: System, c: Id, d: Id) {
    && Scene(waived, s) && c in s.live && d in s.live && c.node != d.node
    && (forall e | e in s.live :: e.worker != "" && (s.peers[e] == FreshPeer(e) || e == c || e == d))
  }

  /** The one consumer has moved on, and the other has not. */
  ghost predicate While(waived: set<Rule>, s: System, s': System, c: Id, d: Id) {
    && Duo(waived, s', c, d) && s'.live == s.live && s'.plan == s.plan && s'.views == s.views
    && d in s.peers && s'.peers[d] == s.peers[d]
  }

  lemma Does(waived: set<Rule>, s: System, c: Id, d: Id, a: Action) returns (s': System)
    requires Duo(waived, s, c, d) && Can(s.peers[c], a)
    requires !a.Deliver? && !a.WorkerTakes? && (Timely(s.peers[c], a) || Answered in waived)
    ensures While(waived, s, s', c, d)
    ensures s'.peers[c] == NextPeer(c, ContextOf(s, c), s.doc, s.peers[c], a)
    ensures s'.doc == NextDoc(c, ContextOf(s, c), s.doc, s.peers[c], a)
  {
    s' := Acts(waived, s, c, a);
  }

  /** What the rules ask of the two consumers when the plan moves from the one to the other. */
  ghost predicate MayHandOver(waived: set<Rule>, c: Id, l: Local, l': Local) {
    && (HolderSettled in waived || (l.streamRequested.Some? ==> Mine(c, l)))
    && (HolderDrained in waived || (Mine(c, l) ==> l.requests == []))
    && (HolderUnlisted in waived || (Mine(c, l) ==> !l.toCleanup))
    && (HeirDrained in waived || l'.requests == [])
    && (HeirUnlisted in waived || l'.restream == 0)
  }

  lemma HandsOver(waived: set<Rule>, s: System, c: Id, d: Id) returns (s': System)
    requires Duo(waived, s, c, d) && s.plan == c && MayHandOver(waived, c, s.peers[c].l, s.peers[d].l)
    ensures Duo(waived, s', d, c) && s' == s.(plan := d)
  {
    s' := Apply(s, Replan(d));
    forall rule: Rule | rule !in waived ensures Obeys(s, Replan(d), rule) {}
    Extend(waived, s, Replan(d));
  }

  lemma Begins(waived: set<Rule>, s: System)
    requires Init(s)
    ensures Scene(waived, s)
  {
    var steps: seq<Step> := [];
    assert Run(waived, [s], steps) && [s][|steps|] == s;
  }

  /** A fresh start with these consumers, one of which is to own the vbucket. */
  function Opening(ids: set<Id>, plan: Id): System {
    var view := View({}, set c | c in ids :: c.node, set c | c in ids :: c.node, set c | c in ids :: c.worker);
    System(Blob("", "", "", UNINITIALISED, false, "", "", "", 0), map c | c in ids :: FreshPeer(c), ids, plan,
           map c | c in ids :: view, Log(map[], 0, {}))
  }

  lemma OpeningIsInit(ids: set<Id>, plan: Id)
    requires DistinctNames(ids) && forall c | c in ids :: c.worker != ""
    ensures Init(Opening(ids, plan))
  {}

  lemma Opens(waived: set<Rule>, ids: set<Id>, plan: Id) returns (s: System)
    requires DistinctNames(ids) && forall c | c in ids :: c.worker != ""
    ensures Scene(waived, s) && s.live == ids && s.plan == plan && forall c | c in ids :: s.peers[c] == FreshPeer(c)
    ensures s.doc.status == UNINITIALISED && !s.doc.requested && s.doc.lastSeqNo == 0
  {
    s := Opening(ids, plan);
    OpeningIsInit(ids, plan);
    Begins(waived, s);
  }

  ghost predicate Pair(c: Id, d: Id) {
    c.node != d.node && c.worker != "" && d.worker != ""
  }

  lemma OpensTwo(waived: set<Rule>, c: Id, d: Id) returns (s: System)
    requires Pair(c, d)
    ensures Duo(waived, s, c, d) && s.plan == c && s.peers[c] == FreshPeer(c) && s.peers[d] == FreshPeer(d)
    ensures s.doc.status == UNINITIALISED && !s.doc.requested && s.doc.lastSeqNo == 0
  {
    s := Opens(waived, {c, d}, c);
  }

  // ---- Pieces of a run ---------------------------------------------------

  /** Nothing is going on at this consumer, except that lists of the control routine may hold the vbucket. */
  predicate Calm(c: Id, p: Peer) {
    && !Mine(c, p.l) && p.l.requests == [] && !p.l.enqueued && !p.l.inflight && p.l.streamRequested.None? && p.l.issuing.None?
    && p.kv.stream.Idle? && p.kv.dcp == [] && p.l.lastSent == 0
  }

  /** A request is queued and nothing else has happened. */
  predicate Queued(c: Id, p: Peer, start: SeqNo) {
    && !Mine(c, p.l) && p.l.requests == [start] && !p.l.inflight && p.l.streamRequested.None? && p.l.issuing.None?
    && p.kv.stream.Idle? && p.kv.dcp == [] && p.l.lastSent == 0
  }

  /** A stream has been requested and the bookkeeping is still to be done. */
  predicate Asked(c: Id, p: Peer, start: SeqNo) {
    && !Mine(c, p.l) && p.l.streamRequested == p.l.issuing == Some(start) && p.l.requests == [] && !p.l.enqueued
    && p.kv.stream == Requested(start) && p.kv.dcp == [] && p.l.lastSent == 0
  }

  /** The bookkeeping is done and the answer is awaited. */
  predicate Booked(p: Peer) {
    p.kv.stream.Requested? && p.kv.dcp == [] && p.l.metadataUpdated && p.l.streamRequested.Some? && p.l.issuing.None?
  }

  /** The stream is open, and the consumer and the document know it. */
  predicate Holds(c: Id, p: Peer, b: Blob) {
    Owned(c, p.l) && p.l.issuing.None? && p.l.streamRequested.Some? && p.kv.stream.Open? && p.kv.dcp == [] && DocNames(c, b)
  }

  predicate SameLists(l: Local, l': Local) {
    l'.toCleanup == l.toCleanup && l'.restream == l.restream
  }

  predicate SameMarks(l: Local, l': Local) {
    SameLists(l, l') && l'.metadataUpdated == l.metadataUpdated && l'.flog == l.flog
  }

  lemma Queues(waived: set<Rule>, s: System, c: Id, d: Id) returns (s': System)
    requires Duo(waived, s, c, d) && s.plan == c && Calm(c, s.peers[c]) && Decide(c, true, s.views[c], s.doc).Start?
    ensures While(waived, s, s', c, d) && s'.doc == s.doc
    ensures Queued(c, s'.peers[c], s.doc.lastSeqNo) && SameMarks(s.peers[c].l, s'.peers[c].l)
  {
    s' := Does(waived, s, c, d, TryTakeover(true));
    assert s'.peers[c].l.requests == [s.doc.lastSeqNo];
  }

  lemma Asks(waived: set<Rule>, s: System, c: Id, d: Id, start: SeqNo) returns (s': System)
    requires Duo(waived, s, c, d) && s.plan == c && Queued(c, s.peers[c], start)
    ensures While(waived, s, s', c, d) && s'.doc == s.doc
    ensures Asked(c, s'.peers[c], start) && SameMarks(s.peers[c].l, s'.peers[c].l)
  {
    s' := Does(waived, s, c, d, Serve(false, Accepted));
  }

  lemma Books(waived: set<Rule>, s: System, c: Id, d: Id, start: SeqNo) returns (s': System)
    requires Duo(waived, s, c, d) && Asked(c, s.peers[c], start)
    ensures While(waived, s, s', c, d) && s'.doc == WriteRequested(c, s.doc)
    ensures s'.peers[c] == s.peers[c].(l := FinishRequest(c, s.peers[c].l)) && Booked(s'.peers[c])
  {
    s' := Does(waived, s, c, d, Finish);
  }

  lemma Answers(waived: set<Rule>, s: System, c: Id, d: Id) returns (s': System)
    requires Duo(waived, s, c, d) && s.plan == c && Booked(s.peers[c])
    ensures While(waived, s, s', c, d) && Holds(c, s'.peers[c], s'.doc)
    ensures s'.peers[c].l.requests == s.peers[c].l.requests && SameLists(s.peers[c].l, s'.peers[c].l)
  {
    var s1 := Does(waived, s, c, d, Answer(true));
    assert s1.peers[c].kv.dcp == [StreamReq(true)];
    s' := Does(waived, s1, c, d, TakeDcp);
  }

  /** The call of DcpRequestStream fails. */
  lemma Fails(waived: set<Rule>, s: System, c: Id, d: Id, start: SeqNo) returns (s': System)
    requires Duo(waived, s, c, d) && s.plan == c && Queued(c, s.peers[c], start)
    ensures While(waived, s, s', c, d) && s'.doc == s.doc && Calm(c, s'.peers[c]) && s'.peers[c].l.restream > 0
  {
    s' := Does(waived, s, c, d, Serve(false, Failed));
  }

  /** The control routine queues a request, whatever the document says. */
  lemma Retries(waived: set<Rule>, s: System, c: Id, d: Id) returns (s': System)
    requires Duo(waived, s, c, d) && s.plan == c && Calm(c, s.peers[c]) && s.peers[c].l.restream > 0
    ensures While(waived, s, s', c, d) && s'.doc == s.doc && Queued(c, s'.peers[c], s.doc.lastSeqNo)
    ensures var l, l' := s.peers[c].l, s'.peers[c].l;
            l'.metadataUpdated == l.metadataUpdated && l'.toCleanup == l.toCleanup && l'.restream == 0
  {
    s' := Does(waived, s, c, d, TickRestream);
    assert s'.peers[c].l.requests == [s.doc.lastSeqNo];
  }

  /** The planner is running: the request is put off, and queued again by the control routine. */
  lemma PutsOff(waived: set<Rule>, s: System, c: Id, d: Id, start: SeqNo) returns (s': System)
    requires Duo(waived, s, c, d) && s.plan == c && Queued(c, s.peers[c], start)
    ensures While(waived, s, s', c, d) && s'.doc == s.doc
    ensures Queued(c, s'.peers[c], s.doc.lastSeqNo) && s'.peers[c].l.toCleanup && s'.peers[c].l.restream == 0
  {
    var s1 := Does(waived, s, c, d, Serve(true, Accepted));
    s' := Retries(waived, s1, c, d);
  }

  /** A takeover is tried again before the answer has come. */
  lemma QueuesAgain(waived: set<Rule>, s: System, c: Id, d: Id, start: SeqNo) returns (s': System)
    requires Duo(waived, s, c, d) && s.plan == c && Asked(c, s.peers[c], start)
    ensures While(waived, s, s', c, d) && Booked(s'.peers[c]) && s'.peers[c].l.requests != []
    ensures SameLists(s.peers[c].l, s'.peers[c].l)
  {
    var s1 := Books(waived, s, c, d, start);
    s' := Does(waived, s1, c, d, TryTakeover(true));
  }

  /** A holder that the plan has left serves a request: it frees the document. */
  lemma ServesLate(waived: set<Rule>, s: System, c: Id, d: Id) returns (s': System)
    requires Duo(waived, s, c, d) && s.plan == d && Holds(c, s.peers[c], s.doc) && s.peers[c].l.requests != []
    ensures While(waived, s, s', c, d) && Streaming(s'.peers[c]) && s'.doc.status == STOPPED && !s'.doc.requested
  {
    s' := Does(waived, s, c, d, Serve(false, Accepted));
  }

  /** A holder that the plan has left cleans up: it frees the document. */
  lemma CleansUpLate(waived: set<Rule>, s: System, c: Id, d: Id) returns (s': System)
    requires Duo(waived, s, c, d) && s.plan == d && Holds(c, s.peers[c], s.doc) && s.peers[c].l.toCleanup
    ensures While(waived, s, s', c, d) && Streaming(s'.peers[c]) && s'.doc.status == STOPPED && !s'.doc.requested
  {
    s' := Does(waived, s, c, d, TickCleanup(false));
  }

  /** From a queued request to an open stream. */
  lemma Streams(waived: set<Rule>, s: System, c: Id, d: Id, start: SeqNo) returns (s': System)
    requires Duo(waived, s, c, d) && s.plan == c && Queued(c, s.peers[c], start)
    ensures While(waived, s, s', c, d) && Holds(c, s'.peers[c], s'.doc)
    ensures s'.peers[c].l.requests == [] && SameLists(s.peers[c].l, s'.peers[c].l)
  {
    var s1 := Asks(waived, s, c, d, start);
    var s2 := Books(waived, s1, c, d, start);
    s' := Answers(waived, s2, c, d);
  }

  /** The consumer of the plan asks for a stream while the other has one. */
  lemma AsksToo(waived: set<Rule>, s: System, c: Id, d: Id, start: SeqNo) returns (s': System)
    requires Duo(waived, s, c, d) && s.plan == c && Queued(c, s.peers[c], start) && Streaming(s.peers[d])
    ensures Reachable(waived, s') && TwoStreams(s')
  {
    s' := Asks(waived, s, c, d, start);
    assert Streaming(s'.peers[c]) && Streaming(s'.peers[d]);
  }

  /** The consumer of the plan takes the vbucket over while the other has a stream. */
  lemma TakesOver(waived: set<Rule>, s: System, c: Id, d: Id) returns (s': System)
    requires Duo(waived, s, c, d) && s.plan == c && Calm(c, s.peers[c]) && Streaming(s.peers[d])
    requires Decide(c, true, s.views[c], s.doc).Start?
    ensures Reachable(waived, s') && TwoStreams(s')
  {
    var s1 := Queues(waived, s, c, d);
    s' := AsksToo(waived, s1, c, d, s.doc.lastSeqNo);
  }

  // ---- Each rule -----------------------------------------------------------

  /** The plan moves while a request is under way that the document does not show. */
  lemma WithoutHolderSettled(waived: set<Rule>, c: Id, d: Id) returns (s: System)
    requires HolderSettled in waived && Pair(c, d)
    ensures Reachable(waived, s) && TwoStreams(s)
  {
    s := OpensTwo(waived, c, d);
    s := Queues(waived, s, c, d);
    s := Asks(waived, s, c, d, 0);
    s := HandsOver(waived, s, c, d);
    s := TakesOver(waived, s, d, c);
  }

  /** The plan moves while a holder still has a request queued, for which it then frees the document. */
  lemma WithoutHolderDrained(waived: set<Rule>, c: Id, d: Id) returns (s: System)
    requires HolderDrained in waived && Pair(c, d)
    ensures Reachable(waived, s) && TwoStreams(s)
  {
    s := OpensTwo(waived, c, d);
    s := Queues(waived, s, c, d);
    s := Asks(waived, s, c, d, 0);
    s := QueuesAgain(waived, s, c, d, 0);
    s := Answers(waived, s, c, d);
    s := HandsOver(waived, s, c, d);
    s := ServesLate(waived, s, c, d);
    s := TakesOver(waived, s, d, c);
  }

  /** The plan moves while a holder is still to clean up the document. */
  lemma WithoutHolderUnlisted(waived: set<Rule>, c: Id, d: Id) returns (s: System)
    requires HolderUnlisted in waived && Pair(c, d)
    ensures Reachable(waived, s) && TwoStreams(s)
  {
    s := OpensTwo(waived, c, d);
    s := Queues(waived, s, c, d);
    s := PutsOff(waived, s, c, d, 0);
    s := Streams(waived, s, c, d, 0);
    s := HandsOver(waived, s, c, d);
    s := CleansUpLate(waived, s, c, d);
    s := TakesOver(waived, s, d, c);
  }

  /** The plan comes back to a consumer that still has a request queued. */
  lemma WithoutHeirDrained(waived: set<Rule>, c: Id, d: Id) returns (s: System)
    requires HeirDrained in waived && Pair(c, d)
    ensures Reachable(waived, s) && TwoStreams(s)
  {
    s := OpensTwo(waived, c, d);
    s := Queues(waived, s, c, d);
    s := HandsOver(waived, s, c, d);
    s := Queues(waived, s, d, c);
    s := Streams(waived, s, d, c, 0);
    s := HandsOver(waived, s, d, c);
    s := AsksToo(waived, s, c, d, 0);
  }

  /** The plan comes back to a consumer that is still to stream the vbucket again. */
  lemma WithoutHeirUnlisted(waived: set<Rule>, c: Id, d: Id) returns (s: System)
    requires HeirUnlisted in waived && Pair(c, d)
    ensures Reachable(waived, s) && TwoStreams(s)
  {
    s := OpensTwo(waived, c, d);
    s := Queues(waived, s, c, d);
    s := Fails(waived, s, c, d, 0);
    s := HandsOver(waived, s, c, d);
    s := Queues(waived, s, d, c);
    s := Streams(waived, s, d, c, 0);
    s := HandsOver(waived, s, d, c);
    var start := s.doc.lastSeqNo;
    s := Retries(waived, s, c, d);
    s := AsksToo(waived, s, c, d, start);
  }

  lemma LosesSight(waived: set<Rule>, s: System, c: Id, d: Id) returns (s': System)
    requires Duo(waived, s, c, d) && s.plan == c && AllSeen in waived
    ensures Duo(waived, s', c, d) && s' == s.(views := s.views[d := View({}, {}, {}, {})])
  {
    s' := Apply(s, Look(d, View({}, {}, {}, {})));
    forall rule: Rule | rule !in waived ensures Obeys(s, Look(d, View({}, {}, {}, {})), rule) {}
    Extend(waived, s, Look(d, View({}, {}, {}, {})));
  }

  /** The consumer that gets the vbucket takes the holder for dead. */
  lemma WithoutAllSeen(waived: set<Rule>, c: Id, d: Id) returns (s: System)
    requires AllSeen in waived && Pair(c, d)
    ensures Reachable(waived, s) && TwoStreams(s)
  {
    s := OpensTwo(waived, c, d);
    s := Queues(waived, s, c, d);
    s := Streams(waived, s, c, d, 0);
    s := LosesSight(waived, s, c, d);
    s := HandsOver(waived, s, c, d);
    s := TakesOver(waived, s, d, c);
  }

  /** The stream is lost, and STREAMEND taken up, before the books are done: nothing is left of the request but its flag. */
  predicate FlagIsUp(c: Id, p: Peer) {
    && Calm(c, p) && p.l.metadataUpdated && p.l.restream > 0
  }

  lemma LosesStream(waived: set<Rule>, s: System, c: Id, d: Id, start: SeqNo) returns (s': System)
    requires Duo(waived, s, c, d) && s.plan == c && Asked(c, s.peers[c], start) && Answered in waived && s.peers[c].l.flog == []
    ensures While(waived, s, s', c, d) && s'.peers[c].l.issuing.Some? && s'.peers[c].l.flog == [StreamEnded]
    ensures Calm(c, s'.peers[c].(l := s'.peers[c].l.(issuing := None))) && s'.peers[c].l.restream > 0
  {
    var s1 := Does(waived, s, c, d, Drop);
    assert s1.peers[c].kv.dcp == [StreamEnd];
    s' := Does(waived, s1, c, d, TakeDcp);
  }

  lemma LeavesFlagUp(waived: set<Rule>, s: System, c: Id, d: Id) returns (s': System)
    requires Duo(waived, s, c, d) && s.plan == c && s.peers[c].l.issuing.Some? && s.peers[c].l.flog == [StreamEnded]
    requires Calm(c, s.peers[c].(l := s.peers[c].l.(issuing := None))) && s.peers[c].l.restream > 0
    ensures While(waived, s, s', c, d) && FlagIsUp(c, s'.peers[c])
  {
    var s1 := Does(waived, s, c, d, Finish);
    s' := Does(waived, s1, c, d, TakeFlog(true));
  }

  lemma AnswersEarly(waived: set<Rule>, s: System, c: Id, d: Id, start: SeqNo) returns (s': System)
    requires Duo(waived, s, c, d) && Asked(c, s.peers[c], start) && s.peers[c].l.metadataUpdated
    ensures Reachable(waived, s') && EarlyAnswer(s')
  {
    s' := Does(waived, s, c, d, Answer(true));
    assert s'.peers[c].kv.dcp[0].StreamReq? && Can(s'.peers[c], TakeDcp);
  }

  /** The connection is lost between a request and its bookkeeping. */
  lemma WithoutAnswered(waived: set<Rule>, c: Id, d: Id) returns (s: System)
    requires Answered in waived && Pair(c, d)
    ensures Reachable(waived, s) && EarlyAnswer(s)
  {
    s := OpensTwo(waived, c, d);
    s := Queues(waived, s, c, d);
    s := Asks(waived, s, c, d, 0);
    s := LosesStream(waived, s, c, d, 0);
    s := LeavesFlagUp(waived, s, c, d);
    var start := s.doc.lastSeqNo;
    s := Retries(waived, s, c, d);
    s := Asks(waived, s, c, d, start);
    s := AnswersEarly(waived, s, c, d, start);
  }

  // ---- A consumer whose predecessor seems to come back --------------------

  /** The holder dies, and the others learn of it. */
  lemma Dies(waived: set<Rule>, s: System, e: Id, c: Id) returns (s': System)
    requires Duo(waived, s, c, e)
    ensures Scene(waived, s') && s'.live == (set d | d in s.live && d.node != e.node) && s' == s.(live := s'.live)
  {
    s' := Apply(s, Die(e.node));
    forall rule: Rule | rule !in waived ensures Obeys(s, Die(e.node), rule) {}
    Extend(waived, s, Die(e.node));
  }

  lemma Looks(waived: set<Rule>, s: System, c: Id, d: Id, who: Id, view: View) returns (s': System)
    requires Duo(waived, s, c, d) && (who == c || who == d) && (forall e | e in s.live :: Sees(view, e))
    requires NoneReturns in waived || who != s.plan || !Engaged(s.peers[who].l)
    ensures Duo(waived, s', c, d) && s' == s.(views := s.views[who := view])
  {
    s' := Apply(s, Look(who, view));
    forall rule: Rule | rule !in waived ensures Obeys(s, Look(who, view), rule) {}
    Extend(waived, s, Look(who, view));
  }

  lemma Purges(waived: set<Rule>, s: System, c: Id, d: Id, start: SeqNo) returns (s': System)
    requires Duo(waived, s, c, d) && s.plan == c && Asked(c, s.peers[c], start) && Refused(Decide(c, true, s.views[c], s.doc))
    ensures While(waived, s, s', c, d) && s'.doc == s.doc
    ensures s'.peers[c] == s.peers[c].(l := Purge(s.peers[c].l))
  {
    s' := Does(waived, s, c, d, TryTakeover(true));
  }

  /** One consumer on each of three nodes; the first holds the vbucket, the plan names the second, and the first dies. */
  lemma Orphaned(waived: set<Rule>, e: Id, c: Id, d: Id) returns (s: System)
    requires Pair(c, d) && Pair(c, e) && Pair(d, e)
    ensures Duo(waived, s, c, d) && s.live == {c, d} && s.plan == c && DocNames(e, s.doc) && e in s.peers
    ensures s.peers[c] == FreshPeer(c) && s.peers[d] == FreshPeer(d)
  {
    s := Bequeathed(waived, e, c, d);
    s := Dies(waived, s, e, c);
  }

  lemma Bequeathed(waived: set<Rule>, e: Id, c: Id, d: Id) returns (s: System)
    requires Pair(c, d) && Pair(c, e) && Pair(d, e)
    ensures Duo(waived, s, c, e) && s.live == {c, d, e} && s.plan == c && DocNames(e, s.doc)
    ensures s.peers[c] == FreshPeer(c) && s.peers[d] == FreshPeer(d)
  {
    s := Opens(waived, {c, d, e}, e);
    s := Queues(waived, s, e, c);
    s := Streams(waived, s, e, c, 0);
    s := HandsOver(waived, s, e, c);
  }

  /** A view in which the two are alive and the owner is gone. */
  predicate Bereft(v: View, c: Id, d: Id, e: Id) {
    Sees(v, c) && Sees(v, d) && v.hosts == {} && e.node !in v.uuids
  }

  /** The consumer of the plan asks for a stream in place of the dead owner, which the other takes for dead as well. */
  lemma Replaces(waived: set<Rule>, e: Id, c: Id, d: Id, v: View) returns (s: System, start: SeqNo)
    requires Pair(c, d) && Pair(c, e) && Pair(d, e) && Bereft(v, c, d, e)
    ensures Duo(waived, s, c, d) && s.live == {c, d} && s.plan == c && DocNames(e, s.doc) && s.views[d] == v
    ensures Asked(c, s.peers[c], start) && s.peers[c].l.restream == 0 && s.peers[d] == FreshPeer(d)
  {
    s := Orphaned(waived, e, c, d);
    start := s.doc.lastSeqNo;
    s := Looks(waived, s, c, d, d, v);
    s := Looks(waived, s, c, d, c, v);
    s := Queues(waived, s, c, d);
    s := Asks(waived, s, c, d, start);
  }

  /** The consumer of the plan takes over from a dead owner, sees it come back, and forgets its own request. */
  lemma Returns(waived: set<Rule>, e: Id, c: Id, d: Id, v: View, v': View) returns (s: System)
    requires NoneReturns in waived && Pair(c, d) && Pair(c, e) && Pair(d, e)
    requires Bereft(v, c, d, e) && Sees(v', c) && Sees(v', d) && Sees(v', e)
    ensures Reachable(waived, s) && TwoStreams(s)
  {
    var start;
    s, start := Replaces(waived, e, c, d, v);
    s := Looks(waived, s, c, d, c, v');
    s := Purges(waived, s, c, d, start);
    s := HandsOver(waived, s, c, d);
    s := TakesOver(waived, s, d, c);
  }

  lemma WithoutNoneReturns(waived: set<Rule>, e: Id, c: Id, d: Id) returns (s: System)
    requires NoneReturns in waived && Pair(c, d) && Pair(c, e) && Pair(d, e)
    ensures Reachable(waived, s) && TwoStreams(s)
  {
    var v := View({}, {c.node, d.node}, {c.node, d.node}, {c.worker, d.worker});
    var v' := View({}, {c.node, d.node, e.node}, {c.node, d.node, e.node}, {c.worker, d.worker, e.worker});
    s := Returns(waived, e, c, d, v, v');
  }

  // ---- Main result -----------------------------------------------------------

  /** Nothing is wrong in a reachable state of an orderly run. */
  lemma OrderlyRunsAreSound(s: System)
    requires Reachable({}, s)
    ensures !TwoStreams(s) && !EarlyAnswer(s)
  {
    var states: seq<System>, steps: seq<Step> :| Run({}, states, steps) && states[|steps|] == s;
    forall c, d | c in s.live && d in s.live && c != d && c in s.peers && d in s.peers
      ensures !(Streaming(s.peers[c]) && Streaming(s.peers[d]))
    {
      OwnershipSafety(states, steps, |steps|, c, d);
    }
    forall c | c in s.live && c in s.peers
      ensures var p := s.peers[c]; p.kv.dcp != [] && Can(p, TakeDcp) ==> p.l.issuing.None?
    {
      HandshakeHolds(states, steps, |steps|, c);
    }
  }

  lemma WaivedRuleBreaks(waived: set<Rule>, rule: Rule) returns (s: System)
    requires rule in waived
    ensures Reachable(waived, s) && (if rule.Answered? then EarlyAnswer(s) else TwoStreams(s))
  {
    var c, d, e := Id("1", "", "w"), Id("2", "", "w"), Id("3", "", "w");
    assert c.node[0] != d.node[0] && c.node[0] != e.node[0] && d.node[0] != e.node[0];
    match rule
    case HolderSettled => s := WithoutHolderSettled(waived, c, d);
    case HolderDrained => s := WithoutHolderDrained(waived, c, d);
    case HolderUnlisted => s := WithoutHolderUnlisted(waived, c, d);
    case HeirDrained => s := WithoutHeirDrained(waived, c, d);
    case HeirUnlisted => s := WithoutHeirUnlisted(waived, c, d);
    case AllSeen => s := WithoutAllSeen(waived, c, d);
    case NoneReturns => s := WithoutNoneReturns(waived, e, c, d);
    case Answered => s := WithoutAnswered(waived, c, d);
  }

  /**
   The runs that obey a set of rules are all sound if and only if it is the set of all rules: at most one consumer
   streams, and no answer is taken up before the counters of its request are reset.
   */
  lemma RulesAreExact(waived: set<Rule>)
    ensures (forall s | Reachable(waived, s) :: !TwoStreams(s) && !EarlyAnswer(s)) <==> waived == {}
  {
    if waived == {} {
      forall s | Reachable(waived, s) ensures !TwoStreams(s) && !EarlyAnswer(s) { OrderlyRunsAreSound(s); }
    } else {
      var rule :| rule in waived;
      var s := WaivedRuleBreaks(waived, rule);
    }
  }
}
