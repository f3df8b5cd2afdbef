/**
 All consumers with all their vbuckets over one metadata bucket and one plan: for
 every vbucket the calls of the consumers are steps of the protocol of module
 VbucketSystem, so that its results hold for all vbuckets at once.
 */
module Fleet {
  import opened Prelude
  import opened Vbucket
  import opened VbucketSystem
  import opened Ownership
  import opened NoSkip
  import opened Ledger
  import opened Passes
  import opened Consumer

  // ---- The whole as a value ---------------------------------------------------------------

  datatype State = State(
    docs: map<nat, Blob>, peers: map<Id, map<nat, Peer>>, live: set<Id>, owner: map<nat, Id>,
    views: map<Id, View>, logs: map<nat, Log>)

  predicate WellFormed(f: State) {
    && f.live <= f.peers.Keys == f.views.Keys
    && f.owner.Keys == f.logs.Keys == f.docs.Keys
    && forall c | c in f.peers :: f.peers[c].Keys == f.docs.Keys
  }

  predicate AllHave(peers: map<Id, map<nat, Peer>>, vb: nat) {
    forall c | c in peers :: vb in peers[c]
  }

  function Column(peers: map<Id, map<nat, Peer>>, vb: nat): map<Id, Peer>
    requires AllHave(peers, vb)
  {
    map c | c in peers :: peers[c][vb]
  }

  /** What the protocol of one vbucket sees. */
  function SystemOf(f: State, vb: nat): System
    requires WellFormed(f) && vb in f.docs
  {
    System(f.docs[vb], Column(f.peers, vb), f.live, f.owner[vb], f.views, f.logs[vb])
  }

  datatype Event =
    | OnVb(c: Id, vb: nat, a: Action)       // an action for one vbucket
    | OnAll(c: Id, chore: Chore)            // a pass over the vbuckets of a consumer
    | Mutated(vb: nat, next: SeqNo, kind: Kind)
    | Died(node: string)
    | Looked(c: Id, view: View)
    | Replanned(owner: map<nat, Id>)
    | Joined(c: Id, view: View)

  /** What a consumer does to a vbucket in an event of its own. */
  function ActionOf(e: Event, vb: nat): Option<Action> {
    match e
    case OnVb(_, v, a) => if v == vb then Some(a) else None
    case OnAll(_, chore) => ActionFor(chore, vb)
    case _ => None
  }

  function ByConsumer(c: Id, a: Option<Action>): Option<Step> {
    if a.Some? then Some(Act(c, a.value)) else None
  }

  /** The step that an event is for a vbucket, if it is one. */
  function StepFor(e: Event, vb: nat): Option<Step> {
    match e
    case OnVb(c, _, _) => ByConsumer(c, ActionOf(e, vb))
    case OnAll(c, _) => ByConsumer(c, ActionOf(e, vb))
    case Mutated(v, next, kind) => if v == vb then Some(Produce(next, kind)) else None
    case Died(node) => Some(Die(node))
    case Looked(c, view) => Some(Look(c, view))
    case Replanned(owner) => if vb in owner then Some(Replan(owner[vb])) else None
    case Joined(c, view) => Some(Join(c, view))
  }

  /** For every vbucket the event is a possible step that obeys the rules, or none at all. */
  predicate Allowed(f: State, e: Event)
    requires WellFormed(f)
  {
    forall vb | vb in f.docs ::
      var s, t := SystemOf(f, vb), StepFor(e, vb); t.Some? ==> Enabled(s, t.value) && Orderly(s, t.value)
  }

  /** Every vbucket has taken its step. */
  ghost predicate Steps(f: State, f': State, e: Event)
    requires WellFormed(f) && Allowed(f, e)
  {
    && WellFormed(f') && f'.docs.Keys == f.docs.Keys
    && forall vb | vb in f.docs ::
         var s, t := SystemOf(f, vb), StepFor(e, vb);
         SystemOf(f', vb) == if t.Some? then Apply(s, t.value) else s
  }

  // ---- Each kind of event ----------------------------------------------------------------------

  /** A consumer's share in the step of a vbucket: its own state, the document and the events handled. */
  ghost predicate Takes(s: System, c: Id, t: Option<Step>, p: Peer, doc: Blob, log: Log)
    requires Populated(s) && c in s.live && (t.Some? ==> t.value.Act? && t.value.c == c && Enabled(s, t.value))
  {
    if t.None? then p == s.peers[c] && doc == s.doc && log == s.log
    else
      var x, a := ContextOf(s, c), t.value.a;
      && p == NextPeer(c, x, s.doc, s.peers[c], a) && doc == NextDoc(c, x, s.doc, s.peers[c], a)
      && log == s.log.(handled := s.log.handled + Handles(s.peers[c], a))
  }

  predicate IsOf(e: Event, c: Id) {
    (e.OnVb? && e.c == c) || (e.OnAll? && e.c == c)
  }

  lemma TakesApply(s: System, c: Id, t: Option<Step>, p: Peer, doc: Blob, log: Log)
    requires Populated(s) && c in s.live && (t.Some? ==> t.value.Act? && t.value.c == c && Enabled(s, t.value))
    requires Takes(s, c, t, p, doc, log)
    ensures s.(doc := doc, peers := s.peers[c := p], log := log) == if t.Some? then Apply(s, t.value) else s
  {
    if t.None? { assert s.peers[c := p] == s.peers; }
  }

  lemma ColumnChanges(peers: map<Id, map<nat, Peer>>, c: Id, mine: map<nat, Peer>, vb: nat)
    requires AllHave(peers, vb) && vb in mine
    ensures AllHave(peers[c := mine], vb) && Column(peers[c := mine], vb) == Column(peers, vb)[c := mine[vb]]
  {}

  /** Only one consumer, documents and logs have changed. */
  ghost predicate OnlyAt(f: State, f': State, c: Id) {
    && WellFormed(f) && WellFormed(f') && f'.docs.Keys == f.docs.Keys && c in f.live
    && f'.live == f.live && f'.owner == f.owner && f'.views == f.views && c in f'.peers && f'.peers == f.peers[c := f'.peers[c]]
  }

  lemma ConsumerStep(f: State, f': State, e: Event, c: Id, vb: nat)
    requires OnlyAt(f, f', c) && vb in f.docs && IsOf(e, c) && Allowed(f, e)
    requires Takes(SystemOf(f, vb), c, StepFor(e, vb), f'.peers[c][vb], f'.docs[vb], f'.logs[vb])
    ensures var s, t := SystemOf(f, vb), StepFor(e, vb); SystemOf(f', vb) == if t.Some? then Apply(s, t.value) else s
  {
    ColumnChanges(f.peers, c, f'.peers[c], vb);
    TakesApply(SystemOf(f, vb), c, StepFor(e, vb), f'.peers[c][vb], f'.docs[vb], f'.logs[vb]);
  }

  /** What a consumer sees of the whole: its own states and the documents. */
  ghost predicate Shows(f: State, c: Id, m: map<nat, Turn>) {
    && WellFormed(f) && c in f.peers && m.Keys == f.docs.Keys
    && forall vb | vb in m :: m[vb] == Turn(f.peers[c][vb], f.docs[vb])
  }

  /** Every vbucket has taken its turn, as far as the consumer sees. */
  ghost predicate TurnsAll(f: State, e: Event, c: Id, m: map<nat, Turn>, m': map<nat, Turn>)
    requires WellFormed(f) && c in f.live && m.Keys == f.docs.Keys && IsOf(e, c)
  {
    && m'.Keys == m.Keys
    && forall vb | vb in m ::
         var a := ActionOf(e, vb);
         && (a.Some? ==> Can(m[vb].p, a.value))
         && m'[vb] == ActionTurn(c, ContextAt(c, f.owner, f.views[c], vb), m[vb], a)
  }

  function LogsAfter(f: State, e: Event): map<nat, Log>
    requires WellFormed(f)
  {
    if e.OnVb? && e.vb in f.docs && e.c in f.peers then
      f.logs[e.vb := f.logs[e.vb].(handled := f.logs[e.vb].handled + Handles(f.peers[e.c][e.vb], e.a))]
    else f.logs
  }

  lemma LogsKeys(f: State, e: Event)
    requires WellFormed(f)
    ensures LogsAfter(f, e).Keys == f.logs.Keys
  {}

  lemma TurnTakes(s: System, c: Id, a: Option<Action>, t0: Turn, t1: Turn, log: Log)
    requires Populated(s) && c in s.live && (a.Some? ==> Enabled(s, Act(c, a.value)))
    requires t0 == Turn(s.peers[c], s.doc) && t1 == ActionTurn(c, ContextOf(s, c), t0, a)
    requires log == s.log.(handled := s.log.handled + (if a.Some? then Handles(s.peers[c], a.value) else {}))
    ensures Takes(s, c, ByConsumer(c, a), t1.p, t1.doc, log)
  {}

  lemma TurnIsStep(f: State, f': State, e: Event, c: Id, vb: nat, t0: Turn, t1: Turn)
    requires OnlyAt(f, f', c) && vb in f.docs && IsOf(e, c) && Allowed(f, e) && f'.logs == LogsAfter(f, e)
    requires t0 == Turn(f.peers[c][vb], f.docs[vb]) && t1 == Turn(f'.peers[c][vb], f'.docs[vb])
    requires var a := ActionOf(e, vb);
             (a.Some? ==> Can(t0.p, a.value)) && t1 == ActionTurn(c, ContextAt(c, f.owner, f.views[c], vb), t0, a)
    ensures var s, t := SystemOf(f, vb), StepFor(e, vb); SystemOf(f', vb) == if t.Some? then Apply(s, t.value) else s
  {
    LogAfter(f, e, vb);
    TurnTakes(SystemOf(f, vb), c, ActionOf(e, vb), t0, t1, f'.logs[vb]);
    ConsumerStep(f, f', e, c, vb);
  }

  lemma LogAfter(f: State, e: Event, vb: nat)
    requires WellFormed(f) && vb in f.docs && (e.OnVb? || e.OnAll?) && e.c in f.peers
    ensures var a, log := ActionOf(e, vb), f.logs[vb];
            LogsAfter(f, e).Keys == f.logs.Keys && LogsAfter(f, e)[vb] ==
            log.(handled := log.handled + (if a.Some? then Handles(f.peers[e.c][vb], a.value) else {}))
  {}

  lemma TurnsAreSteps(f: State, f': State, e: Event, c: Id, m: map<nat, Turn>, m': map<nat, Turn>)
    requires OnlyAt(f, f', c) && IsOf(e, c) && Allowed(f, e) && f'.logs == LogsAfter(f, e)
    requires Shows(f, c, m) && Shows(f', c, m') && TurnsAll(f, e, c, m, m')
    ensures Steps(f, f', e)
  {
    forall vb | vb in f.docs
      ensures var s, t := SystemOf(f, vb), StepFor(e, vb); SystemOf(f', vb) == if t.Some? then Apply(s, t.value) else s
    {
      TurnIsStep(f, f', e, c, vb, m[vb], m'[vb]);
    }
  }

  function FreshPeers(c: Id, docs: map<nat, Blob>): map<nat, Peer> {
    map vb | vb in docs :: FreshPeer(c)
  }

  /** What an event of the cluster leads to. */
  function ClusterAfter(f: State, e: Event): State
    requires WellFormed(f) && !e.OnVb? && !e.OnAll? && (e.Mutated? ==> e.vb in f.docs)
  {
    match e
    case Mutated(vb, next, kind) => f.(logs := f.logs[vb := Log(f.logs[vb].history[next := kind], next, f.logs[vb].handled)])
    case Died(node) => f.(live := set c | c in f.live && c.node != node)
    case Looked(c, view) => f.(views := f.views[c := view])
    case Replanned(owner) => f.(owner := owner)
    case Joined(c, view) =>
      f.(peers := f.peers[c := FreshPeers(c, f.docs)], live := f.live + {c}, views := f.views[c := view])
    case _ => f
  }

  /** The event names vbuckets and consumers that there are. */
  predicate Refers(f: State, e: Event) {
    match e
    case OnVb(c, vb, _) => c in f.live && vb in f.docs
    case OnAll(c, _) => c in f.live
    case Mutated(vb, _, _) => vb in f.docs
    case Looked(c, _) => c in f.live
    case Replanned(owner) => owner.Keys == f.docs.Keys
    case Joined(c, _) => c !in f.peers
    case Died(_) => true
  }

  lemma ClusterWellFormed(f: State, e: Event)
    requires WellFormed(f) && Refers(f, e) && !e.OnVb? && !e.OnAll?
    ensures WellFormed(ClusterAfter(f, e)) && ClusterAfter(f, e).docs == f.docs
  {}

  lemma JoinStep(f: State, c: Id, view: View, vb: nat)
    requires WellFormed(f) && vb in f.docs && c !in f.peers
    requires Enabled(SystemOf(f, vb), Join(c, view)) && WellFormed(ClusterAfter(f, Joined(c, view)))
    ensures SystemOf(ClusterAfter(f, Joined(c, view)), vb) == Apply(SystemOf(f, vb), Join(c, view))
  {
    ColumnChanges(f.peers, c, FreshPeers(c, f.docs), vb);
  }

  lemma ClusterStep(f: State, e: Event, vb: nat)
    requires WellFormed(f) && Refers(f, e) && vb in f.docs && !e.OnVb? && !e.OnAll? && WellFormed(ClusterAfter(f, e))
    requires StepFor(e, vb).Some? ==> Enabled(SystemOf(f, vb), StepFor(e, vb).value)
    ensures var s, t := SystemOf(f, vb), StepFor(e, vb);
            SystemOf(ClusterAfter(f, e), vb) == if t.Some? then Apply(s, t.value) else s
  {
    if e.Joined? { JoinStep(f, e.c, e.view, vb); }
  }

  lemma ClusterSteps(f: State, e: Event)
    requires WellFormed(f) && Refers(f, e) && Allowed(f, e) && !e.OnVb? && !e.OnAll?
    ensures Steps(f, ClusterAfter(f, e), e)
  {
    ClusterWellFormed(f, e);
    forall vb | vb in f.docs
      ensures var s, t := SystemOf(f, vb), StepFor(e, vb);
              SystemOf(ClusterAfter(f, e), vb) == if t.Some? then Apply(s, t.value) else s
    {
      ClusterStep(f, e, vb);
    }
  }

  // ---- Every run ------------------------------------------------------------------------------

  ghost predicate AllSafeNow(f: State) {
    WellFormed(f) && forall vb | vb in f.docs :: SafeSystem(SystemOf(f, vb))
  }

  lemma StepsKeepSafe(f: State, f': State, e: Event)
    requires AllSafeNow(f) && Allowed(f, e) && Steps(f, f', e)
    ensures AllSafeNow(f')
  {
    forall vb | vb in f.docs ensures SafeSystem(SystemOf(f', vb)) {
      var s, t := SystemOf(f, vb), StepFor(e, vb);
      if t.Some? { StepKeepsSafe(s, t.value); }
    }
  }

  /** For no vbucket do two live consumers have a requested or open stream. */
  ghost predicate OneStreamEach(f: State)
    requires WellFormed(f)
  {
    forall vb, c, d | vb in f.docs && c in f.live && d in f.live && c != d ::
      !(Streaming(f.peers[c][vb]) && Streaming(f.peers[d][vb]))
  }

  /** For every vbucket, all events for the handler up to the checkpoint have been taken up. */
  ghost predicate NoneSkipped(f: State)
    requires WellFormed(f)
  {
    forall vb | vb in f.docs :: Safe(f.logs[vb], f.docs[vb].lastSeqNo)
  }

  /** Every live consumer that has a stream, or asks for one, has it in vbStreamRequested. */
  ghost predicate AllRecorded(f: State)
    requires WellFormed(f)
  {
    forall vb, c | vb in f.docs && c in f.live :: Streaming(f.peers[c][vb]) ==> f.peers[c][vb].l.streamRequested.Some?
  }

  lemma SafeIsSound(f: State)
    requires AllSafeNow(f)
    ensures OneStreamEach(f) && NoneSkipped(f) && AllRecorded(f)
  {
    forall vb, c | vb in f.docs && c in f.live ensures Streaming(f.peers[c][vb]) ==> f.peers[c][vb].l.streamRequested.Some? {
      StreamIsRecorded(SystemOf(f, vb), c);
    }
    forall vb, c, d | vb in f.docs && c in f.live && d in f.live && c != d
      ensures !(Streaming(f.peers[c][vb]) && Streaming(f.peers[d][vb]))
    {
      HolderExcludes(SystemOf(f, vb), c, d);
    }
  }

  lemma InitIsSafeNow(f: State)
    requires WellFormed(f) && forall vb | vb in f.docs :: Init(SystemOf(f, vb))
    ensures AllSafeNow(f)
  {
    forall vb | vb in f.docs ensures SafeSystem(SystemOf(f, vb)) { InitIsSafe(SystemOf(f, vb)); }
  }

  lemma StreamIsRecorded(s: System, c: Id)
    requires Inv(s) && c in s.live
    ensures Streaming(s.peers[c]) ==> s.peers[c].l.streamRequested.Some?
  {
    assert PeerInv(c, ContextOf(s, c), s.doc, s.peers[c]);
  }

  lemma HolderExcludes(s: System, c: Id, d: Id)
    requires Inv(s) && c in s.live && d in s.live && c != d
    ensures !(Streaming(s.peers[c]) && Streaming(s.peers[d]))
  {
    StreamIsRecorded(s, c);
    StreamIsRecorded(s, d);
    if s.peers[c].l.streamRequested.Some? { HolderIsAlone(s, c, d); }
  }

  // ---- From the books of the consumers -----------------------------------------------------------

  ghost predicate Untouched(c: Id, b: Books) {
    forall vb | vb in b.stats && vb in b.links :: PeerOf(b, vb) == FreshPeer(c)
  }

  /** The books of all consumers that there will ever be; those that have not joined yet have done nothing. */
  datatype Whole = Whole(
    docs: map<nat, Blob>, books: map<Id, Books>, joined: set<Id>, live: set<Id>, owner: map<nat, Id>,
    views: map<Id, View>, logs: map<nat, Log>)

  ghost predicate AllConsistent(books: map<Id, Books>, docs: map<nat, Blob>) {
    forall c | c in books :: Consistent(books[c], docs)
  }

  ghost predicate AllUntouched(books: map<Id, Books>, joined: set<Id>) {
    forall c | c in books && c !in joined :: Untouched(c, books[c])
  }

  ghost predicate Proper(w: Whole) {
    && w.live <= w.joined <= w.books.Keys == w.views.Keys && w.owner.Keys == w.logs.Keys == w.docs.Keys
    && AllConsistent(w.books, w.docs) && AllUntouched(w.books, w.joined)
  }

  function PeersOf(books: map<Id, Books>, joined: set<Id>): map<Id, map<nat, Peer>>
    requires joined <= books.Keys
  {
    map c | c in joined :: Peers(books[c])
  }

  function ViewsOf(views: map<Id, View>, joined: set<Id>): map<Id, View>
    requires joined <= views.Keys
  {
    map c | c in joined :: views[c]
  }

  function StateOf(w: Whole): State
    requires w.joined <= w.books.Keys == w.views.Keys
  {
    State(w.docs, PeersOf(w.books, w.joined), w.live, w.owner, ViewsOf(w.views, w.joined), w.logs)
  }

  lemma SnapshotShows(b: Books, docs: map<nat, Blob>)
    requires Consistent(b, docs)
    ensures Peers(b).Keys == docs.Keys == Snapshot(b, docs).Keys
    ensures forall vb | vb in docs :: Snapshot(b, docs)[vb] == Turn(Peers(b)[vb], docs[vb])
  {}

  lemma ProperIsWellFormed(w: Whole)
    requires Proper(w)
    ensures WellFormed(StateOf(w))
  {
    forall c | c in w.joined ensures Peers(w.books[c]).Keys == w.docs.Keys { SnapshotShows(w.books[c], w.docs); }
  }

  lemma ProperShows(w: Whole, c: Id)
    requires Proper(w) && c in w.joined
    ensures Shows(StateOf(w), c, Snapshot(w.books[c], w.docs))
  {
    ProperIsWellFormed(w);
    SnapshotShows(w.books[c], w.docs);
  }

  /** One consumer has acted: only its books, documents and logs have changed. */
  ghost predicate Acted(w: Whole, w': Whole, c: Id) {
    && c in w.live && w'.docs.Keys == w.docs.Keys && w'.logs.Keys == w.logs.Keys
    && c in w'.books && w'.books == w.books[c := w'.books[c]] && Consistent(w'.books[c], w'.docs)
    && w'.joined == w.joined && w'.live == w.live && w'.owner == w.owner && w'.views == w.views
  }

  lemma ConsistentUpdate(books: map<Id, Books>, docs: map<nat, Blob>, c: Id, b: Books, docs': map<nat, Blob>)
    requires AllConsistent(books, docs) && Consistent(b, docs') && docs'.Keys == docs.Keys
    ensures AllConsistent(books[c := b], docs')
  {}

  lemma UntouchedUpdate(books: map<Id, Books>, joined: set<Id>, c: Id, b: Books)
    requires AllUntouched(books, joined) && c in joined
    ensures AllUntouched(books[c := b], joined)
  {}

  lemma ActedIsProper(w: Whole, w': Whole, c: Id)
    requires Proper(w) && Acted(w, w', c)
    ensures Proper(w')
  {
    ConsistentUpdate(w.books, w.docs, c, w'.books[c], w'.docs);
    UntouchedUpdate(w.books, w.joined, c, w'.books[c]);
  }

  lemma PeersChange(books: map<Id, Books>, joined: set<Id>, c: Id, b: Books)
    requires joined <= books.Keys && c in joined
    ensures PeersOf(books[c := b], joined) == PeersOf(books, joined)[c := Peers(b)]
  {}

  lemma ActedOnlyAt(w: Whole, w': Whole, c: Id)
    requires Proper(w) && Proper(w') && Acted(w, w', c)
    ensures OnlyAt(StateOf(w), StateOf(w'), c)
  {
    ProperIsWellFormed(w);
    ProperIsWellFormed(w');
    PeersChange(w.books, w.joined, c, w'.books[c]);
  }

  lemma ActedShows(w: Whole, w': Whole, c: Id)
    requires Proper(w) && Acted(w, w', c)
    ensures Proper(w') && OnlyAt(StateOf(w), StateOf(w'), c)
    ensures Shows(StateOf(w), c, Snapshot(w.books[c], w.docs)) && Shows(StateOf(w'), c, Snapshot(w'.books[c], w'.docs))
  {
    ActedIsProper(w, w', c);
    ActedOnlyAt(w, w', c);
    ProperShows(w, c);
    ProperShows(w', c);
  }

  /** What an action for one vbucket amounts to. */
  lemma OneTurns(f: State, c: Id, vb: nat, a: Action, m: map<nat, Turn>, m': map<nat, Turn>)
    requires WellFormed(f) && c in f.live && m.Keys == f.docs.Keys && vb in m && Can(m[vb].p, a)
    requires m' == m[vb := ActionTurn(c, ContextAt(c, f.owner, f.views[c], vb), m[vb], Some(a))]
    ensures TurnsAll(f, OnVb(c, vb, a), c, m, m')
  {}

  /** What a pass amounts to. */
  lemma CompletedTurn(f: State, c: Id, chore: Chore, t: Turn, t': Turn, vb: nat)
    requires c in f.views && CanChore(chore, t.p)
    requires t' == ActionTurn(c, ContextAt(c, f.owner, f.views[c], vb), t, ActionFor(chore, vb))
    ensures var a := ActionOf(OnAll(c, chore), vb);
            (a.Some? ==> Can(t.p, a.value)) && t' == ActionTurn(c, ContextAt(c, f.owner, f.views[c], vb), t, a)
  {}

  lemma CompletedTurns(f: State, c: Id, chore: Chore, m: map<nat, Turn>, m': map<nat, Turn>)
    requires WellFormed(f) && c in f.live && m.Keys == f.docs.Keys
    requires Completed(c, f.owner, f.views[c], chore, m, m')
    ensures TurnsAll(f, OnAll(c, chore), c, m, m')
  {
    forall vb | vb in m
      ensures var a := ActionOf(OnAll(c, chore), vb);
              (a.Some? ==> Can(m[vb].p, a.value)) && m'[vb] == ActionTurn(c, ContextAt(c, f.owner, f.views[c], vb), m[vb], a)
    {
      CompletedTurn(f, c, chore, m[vb], m'[vb], vb);
    }
  }

  lemma OneVbSteps(f: State, f': State, c: Id, vb: nat, a: Action, m: map<nat, Turn>, m': map<nat, Turn>)
    requires OnlyAt(f, f', c) && Shows(f, c, m) && Shows(f', c, m') && Allowed(f, OnVb(c, vb, a)) && f'.logs == LogsAfter(f, OnVb(c, vb, a))
    requires TurnedAt(c, ContextAt(c, f.owner, f.views[c], vb), m, m', vb, a)
    ensures Steps(f, f', OnVb(c, vb, a))
  {
    OneTurns(f, c, vb, a, m, m');
    TurnsAreSteps(f, f', OnVb(c, vb, a), c, m, m');
  }

  lemma AllVbsSteps(f: State, f': State, c: Id, chore: Chore, m: map<nat, Turn>, m': map<nat, Turn>)
    requires OnlyAt(f, f', c) && Shows(f, c, m) && Shows(f', c, m') && Allowed(f, OnAll(c, chore)) && f'.logs == f.logs
    requires Completed(c, f.owner, f.views[c], chore, m, m')
    ensures Steps(f, f', OnAll(c, chore))
  {
    CompletedTurns(f, c, chore, m, m');
    TurnsAreSteps(f, f', OnAll(c, chore), c, m, m');
  }

  /** A consumer has taken an action for one vbucket. */
  ghost predicate ActedAt(w: Whole, w': Whole, c: Id, vb: nat, a: Action) {
    && Acted(w, w', c) && c in w.books && Consistent(w.books[c], w.docs) && c in w.views
    && TurnedAt(c, ContextAt(c, w.owner, w.views[c], vb), Snapshot(w.books[c], w.docs), Snapshot(w'.books[c], w'.docs), vb, a)
  }

  /** A consumer has passed over its vbuckets. */
  ghost predicate ActedOnAll(w: Whole, w': Whole, c: Id, chore: Chore) {
    && Acted(w, w', c) && w'.logs == w.logs && c in w.books && Consistent(w.books[c], w.docs) && c in w.views
    && Completed(c, w.owner, w.views[c], chore, Snapshot(w.books[c], w.docs), Snapshot(w'.books[c], w'.docs))
  }

  lemma ActedAndLogged(w: Whole, w': Whole, c: Id, vb: nat, a: Action, logs: map<nat, Log>)
    requires ActedAt(w, w', c, vb, a) && logs.Keys == w.logs.Keys
    ensures ActedAt(w, w'.(logs := logs), c, vb, a)
  {}

  lemma WholeAct(w: Whole, w': Whole, c: Id, vb: nat, a: Action)
    requires Proper(w) && WellFormed(StateOf(w)) && Allowed(StateOf(w), OnVb(c, vb, a)) && ActedAt(w, w', c, vb, a)
    requires w'.logs == LogsAfter(StateOf(w), OnVb(c, vb, a))
    ensures Proper(w') && Steps(StateOf(w), StateOf(w'), OnVb(c, vb, a))
  {
    ActedShows(w, w', c);
    OneVbSteps(StateOf(w), StateOf(w'), c, vb, a, Snapshot(w.books[c], w.docs), Snapshot(w'.books[c], w'.docs));
  }

  lemma WholePass(w: Whole, w': Whole, c: Id, chore: Chore)
    requires Proper(w) && WellFormed(StateOf(w)) && Allowed(StateOf(w), OnAll(c, chore)) && ActedOnAll(w, w', c, chore)
    ensures Proper(w') && Steps(StateOf(w), StateOf(w'), OnAll(c, chore))
  {
    ActedShows(w, w', c);
    AllVbsSteps(StateOf(w), StateOf(w'), c, chore, Snapshot(w.books[c], w.docs), Snapshot(w'.books[c], w'.docs));
  }

  /** What an event of the cluster does to the whole. */
  function WholeAfter(w: Whole, e: Event): Whole
    requires !e.OnVb? && !e.OnAll? && (e.Mutated? ==> e.vb in w.logs)
  {
    match e
    case Mutated(vb, next, kind) => w.(logs := w.logs[vb := Log(w.logs[vb].history[next := kind], next, w.logs[vb].handled)])
    case Died(node) => w.(live := set c | c in w.live && c.node != node)
    case Looked(c, view) => w.(views := w.views[c := view])
    case Replanned(owner) => w.(owner := owner)
    case Joined(c, view) => w.(joined := w.joined + {c}, live := w.live + {c}, views := w.views[c := view])
    case _ => w
  }

  lemma UntouchedMore(books: map<Id, Books>, joined: set<Id>, c: Id)
    requires AllUntouched(books, joined)
    ensures AllUntouched(books, joined + {c})
  {}

  lemma JoinIsProper(w: Whole, c: Id, view: View)
    requires Proper(w) && c in w.books
    ensures Proper(WholeAfter(w, Joined(c, view)))
  {
    UntouchedMore(w.books, w.joined, c);
    assert w.views[c := view].Keys == w.views.Keys;
  }

  lemma LookIsProper(w: Whole, c: Id, view: View)
    requires Proper(w) && c in w.views
    ensures Proper(WholeAfter(w, Looked(c, view)))
  {
    assert w.views[c := view].Keys == w.views.Keys;
  }

  lemma MutationIsProper(w: Whole, vb: nat, next: SeqNo, kind: Kind)
    requires Proper(w) && vb in w.logs
    ensures Proper(WholeAfter(w, Mutated(vb, next, kind)))
  {
    assert WholeAfter(w, Mutated(vb, next, kind)).logs.Keys == w.logs.Keys;
  }

  lemma WholeAfterIsProper(w: Whole, e: Event)
    requires Proper(w) && !e.OnVb? && !e.OnAll? && (e.Joined? ==> e.c in w.books)
    requires (e.Mutated? ==> e.vb in w.docs) && (e.Looked? ==> e.c in w.views) && (e.Replanned? ==> e.owner.Keys == w.docs.Keys)
    ensures Proper(WholeAfter(w, e))
  {
    match e
    case Joined(c, view) => JoinIsProper(w, c, view);
    case Looked(c, view) => LookIsProper(w, c, view);
    case Mutated(vb, next, kind) => MutationIsProper(w, vb, next, kind);
    case _ =>
  }

  lemma UntouchedPeers(c: Id, b: Books, docs: map<nat, Blob>)
    requires Untouched(c, b) && Consistent(b, docs)
    ensures Peers(b) == FreshPeers(c, docs)
  {}

  lemma JoinedPeers(books: map<Id, Books>, joined: set<Id>, c: Id)
    requires joined <= books.Keys && c in books && c !in joined
    ensures PeersOf(books, joined + {c}) == PeersOf(books, joined)[c := Peers(books[c])]
  {
    OnlyNewKey(PeersOf(books, joined), PeersOf(books, joined + {c}), c);
  }

  lemma JoinedViews(views: map<Id, View>, joined: set<Id>, c: Id, view: View)
    requires joined <= views.Keys && c !in joined
    ensures ViewsOf(views[c := view], joined + {c}) == ViewsOf(views, joined)[c := view]
  {
    OnlyNewKey(ViewsOf(views, joined), ViewsOf(views[c := view], joined + {c}), c);
  }

  lemma JoinedState(w: Whole, c: Id, view: View)
    requires Proper(w) && WellFormed(StateOf(w)) && c in w.books && c !in w.joined && Proper(WholeAfter(w, Joined(c, view)))
    ensures StateOf(WholeAfter(w, Joined(c, view))) == ClusterAfter(StateOf(w), Joined(c, view))
  {
    UntouchedPeers(c, w.books[c], w.docs);
    JoinedPeers(w.books, w.joined, c);
    JoinedViews(w.views, w.joined, c, view);
  }

  lemma LookedState(w: Whole, c: Id, view: View)
    requires Proper(w) && WellFormed(StateOf(w)) && c in w.joined && Proper(WholeAfter(w, Looked(c, view)))
    ensures StateOf(WholeAfter(w, Looked(c, view))) == ClusterAfter(StateOf(w), Looked(c, view))
  {
    LookedViews(w.views, w.joined, c, view);
  }

  lemma LookedViews(views: map<Id, View>, joined: set<Id>, c: Id, view: View)
    requires joined <= views.Keys && c in joined
    ensures ViewsOf(views[c := view], joined) == ViewsOf(views, joined)[c := view]
  {
    OnlyKey(ViewsOf(views, joined), ViewsOf(views[c := view], joined), c);
  }

  lemma WholeAfterState(w: Whole, e: Event)
    requires Proper(w) && !e.OnVb? && !e.OnAll? && WellFormed(StateOf(w)) && Refers(StateOf(w), e)
    requires e.Joined? ==> e.c in w.books
    ensures Proper(WholeAfter(w, e)) && StateOf(WholeAfter(w, e)) == ClusterAfter(StateOf(w), e)
  {
    WholeAfterIsProper(w, e);
    if e.Joined? { JoinedState(w, e.c, e.view); }
    if e.Looked? { LookedState(w, e.c, e.view); }
  }

  /** The events of the cluster for the whole. */
  lemma WholeSteps(w: Whole, e: Event)
    requires Proper(w) && !e.OnVb? && !e.OnAll? && WellFormed(StateOf(w)) && Refers(StateOf(w), e) && Allowed(StateOf(w), e)
    requires e.Joined? ==> e.c in w.books
    ensures Proper(WholeAfter(w, e)) && Steps(StateOf(w), StateOf(WholeAfter(w, e)), e)
  {
    WholeAfterState(w, e);
    ClusterSteps(StateOf(w), e);
  }

  /** After bootstrap: the documents are free, and their checkpoints are within the events already handled. */
  ghost predicate Bootstrapped(docs: map<nat, Blob>, logs: map<nat, Log>) {
    && logs.Keys == docs.Keys
    && forall vb | vb in docs ::
         && (docs[vb].status == STOPPED || docs[vb].status == UNINITIALISED) && !docs[vb].requested
         && Bounded(logs[vb]) && Safe(logs[vb], docs[vb].lastSeqNo)
  }

  /** The consumers have different names and know one another. */
  ghost predicate Acquainted(ids: set<Id>, view: View) {
    DistinctNames(ids) && forall c | c in ids :: c.worker != "" && VbucketSystem.Sees(view, c)
  }

  ghost predicate FreshWhole(w: Whole, view: View) {
    && Proper(w) && w.live == w.joined && AllUntouched(w.books, {}) && (forall c | c in w.views :: w.views[c] == view)
    && Bootstrapped(w.docs, w.logs) && Acquainted(w.joined, view)
  }

  lemma FreshPeersEverywhere(w: Whole, view: View, c: Id, vb: nat)
    requires FreshWhole(w, view) && c in w.joined && vb in w.docs
    ensures vb in Peers(w.books[c]) && Peers(w.books[c])[vb] == FreshPeer(c)
  {
    assert Untouched(c, w.books[c]);
    SnapshotShows(w.books[c], w.docs);
  }

  lemma InitFromParts(s: System, view: View)
    requires s.live == s.peers.Keys == s.views.Keys && Acquainted(s.live, view)
    requires forall c | c in s.live :: s.peers[c] == FreshPeer(c) && s.views[c] == view
    requires (s.doc.status == STOPPED || s.doc.status == UNINITIALISED) && !s.doc.requested
    requires Bounded(s.log) && Safe(s.log, s.doc.lastSeqNo)
    ensures Init(s)
  {}

  lemma PeerAt(books: map<Id, Books>, joined: set<Id>, peers: map<Id, map<nat, Peer>>, c: Id, vb: nat)
    requires joined <= books.Keys && peers == PeersOf(books, joined) && AllHave(peers, vb) && c in joined
    ensures vb in Peers(books[c]) && Column(peers, vb)[c] == Peers(books[c])[vb]
  {
    assert peers[c] == Peers(books[c]);
  }

  lemma SystemParts(w: Whole, vb: nat)
    requires w.joined <= w.books.Keys == w.views.Keys && WellFormed(StateOf(w)) && vb in w.docs
    ensures var s := SystemOf(StateOf(w), vb);
            && s.doc == w.docs[vb] && s.live == w.live && s.log == w.logs[vb] && s.peers.Keys == s.views.Keys == w.joined
            && forall c | c in w.joined :: vb in Peers(w.books[c]) && s.peers[c] == Peers(w.books[c])[vb] && s.views[c] == w.views[c]
  {
    var f := StateOf(w);
    assert AllHave(f.peers, vb);
    forall c | c in w.joined ensures vb in Peers(w.books[c]) && Column(f.peers, vb)[c] == Peers(w.books[c])[vb] {
      PeerAt(w.books, w.joined, f.peers, c, vb);
    }
  }

  lemma FreshIsInit(w: Whole, view: View, vb: nat)
    requires FreshWhole(w, view) && vb in w.docs && WellFormed(StateOf(w))
    ensures Init(SystemOf(StateOf(w), vb))
  {
    var s := SystemOf(StateOf(w), vb);
    SystemParts(w, vb);
    FreshColumn(w, view, vb, s);
    InitFromParts(s, view);
  }

  lemma FreshColumn(w: Whole, view: View, vb: nat, s: System)
    requires FreshWhole(w, view) && vb in w.docs && s.peers.Keys == w.joined
    requires forall c | c in w.joined :: vb in Peers(w.books[c]) && s.peers[c] == Peers(w.books[c])[vb]
    ensures forall c | c in w.joined :: s.peers[c] == FreshPeer(c)
  {
    forall c | c in w.joined ensures s.peers[c] == FreshPeer(c) { FreshPeersEverywhere(w, view, c, vb); }
  }

  // ---- The objects ------------------------------------------------------------------------------

  class Cluster {
    const bucket: MetadataBucket
    const plan: Plan
    const consumers: map<Id, Consumer>
    var joined: set<Id>
    var live: set<Id>
    /** The events of every vbucket, and those that have been handled. */
    var logs: map<nat, Log>

    ghost predicate Wired() {
      forall c | c in consumers :: consumers[c].id == c && consumers[c].bucket == bucket && consumers[c].plan == plan
    }

    function Ledgers(): map<Id, Books>
      reads consumers.Values
    {
      map c | c in consumers :: consumers[c].Record()
    }

    function Outlooks(): map<Id, View>
      reads consumers.Values
    {
      map c | c in consumers :: consumers[c].view
    }

    function All(): Whole
      reads this, bucket, plan, consumers.Values
    {
      Whole(bucket.docs, Ledgers(), joined, live, plan.owner, Outlooks(), logs)
    }

    ghost predicate Valid()
      reads this, bucket, plan, consumers.Values
    {
      Wired() && Proper(All())
    }

    function Value(): State
      requires joined <= consumers.Keys
      reads this, bucket, plan, consumers.Values
    {
      StateOf(All())
    }

    constructor (bucket: MetadataBucket, plan: Plan, consumers: map<Id, Consumer>, joined: set<Id>, logs: map<nat, Log>)
      requires forall c | c in consumers :: consumers[c].id == c && consumers[c].bucket == bucket && consumers[c].plan == plan
      ensures Wired() && this.bucket == bucket && this.plan == plan && this.consumers == consumers
      ensures this.joined == live == joined && this.logs == logs
    {
      this.bucket, this.plan, this.consumers, this.joined, live, this.logs := bucket, plan, consumers, joined, joined, logs;
    }

    /** Fresh consumers make a proper whole. */
    lemma Equipped()
      requires forall c | c in consumers :: Consistent(consumers[c].Record(), bucket.docs)
      requires forall c | c in consumers :: Untouched(c, consumers[c].Record())
      requires Wired() && live <= joined <= consumers.Keys && plan.owner.Keys == logs.Keys == bucket.docs.Keys
      ensures Valid()
    {
      forall c | c in consumers ensures Ledgers()[c] == consumers[c].Record() {}
      assert AllConsistent(Ledgers(), bucket.docs);
      assert AllUntouched(Ledgers(), joined);
    }

    twostate lemma OtherUnchanged(d: Id)
      requires d in consumers && unchanged(consumers[d])
      ensures consumers[d].Record() == old(consumers[d].Record()) && consumers[d].view == old(consumers[d].view)
    {}

    /** The other consumers have not changed. */
    twostate lemma OthersUnchanged(c: Id)
      requires c in consumers && forall d | d in consumers && d != c :: unchanged(consumers[d])
      ensures Ledgers() == old(Ledgers())[c := consumers[c].Record()]
      ensures Outlooks() == old(Outlooks())[c := consumers[c].view]
    {
      forall d | d in consumers && d != c ensures Ledgers()[d] == old(Ledgers())[d] && Outlooks()[d] == old(Outlooks())[d] {
        OtherUnchanged(d);
      }
      OnlyKey(old(Ledgers()), Ledgers(), c);
      OnlyKey(old(Outlooks()), Outlooks(), c);
    }

    /** What is known of the whole when one consumer has acted. */
    twostate lemma ActedHere(c: Id)
      requires c in old(live) && c in consumers && (forall d | d in consumers && d != c :: unchanged(consumers[d]))
      requires Consistent(consumers[c].Record(), bucket.docs) && consumers[c].view == old(consumers[c].view)
      requires bucket.docs.Keys == old(bucket.docs.Keys) && unchanged(this`joined, this`live, plan) && logs.Keys == old(logs.Keys)
      ensures Acted(old(All()), All(), c)
    {
      OthersUnchanged(c);
    }

    method ActOnVb(c: Id, vb: nat, a: Action)
      requires Wired() && c in live && c in consumers && consumers[c].Valid() && ReadyFor(consumers[c].Record(), vb, a)
      modifies bucket, consumers[c]
      ensures ActedAt(old(All()), All(), c, vb, a)
    {
      assert forall d | d in consumers && d != c :: consumers[d] != consumers[c];
      consumers[c].PerformOne(vb, a);
      ActedHere(c);
    }

    /** No consumer has changed. */
    twostate lemma AllUnchanged()
      requires forall d | d in consumers :: unchanged(consumers[d])
      ensures Ledgers() == old(Ledgers()) && Outlooks() == old(Outlooks())
    {
      forall d | d in consumers ensures Ledgers()[d] == old(Ledgers())[d] && Outlooks()[d] == old(Outlooks())[d] { OtherUnchanged(d); }
      SameMap(old(Ledgers()), Ledgers());
      SameMap(old(Outlooks()), Outlooks());
    }

    method SetLogs(after: map<nat, Log>)
      modifies this`logs
      ensures All() == old(All()).(logs := after)
    {
      logs := after;
      AllUnchanged();
    }

    method ActAndLog(c: Id, vb: nat, a: Action, after: map<nat, Log>)
      requires Wired() && c in live && c in consumers && consumers[c].Valid() && ReadyFor(consumers[c].Record(), vb, a)
      requires after.Keys == logs.Keys
      modifies this`logs, bucket, consumers[c]
      ensures ActedAt(old(All()), All(), c, vb, a) && logs == after
    {
      ghost var w := All();
      ActOnVb(c, vb, a);
      ActedAndLogged(w, All(), c, vb, a, after);
      SetLogs(after);
    }

    method ActOnAll(c: Id, chore: Chore)
      requires Wired() && c in live && c in consumers && consumers[c].Valid() && (chore.HangUp? ==> consumers[c].issuing.None?)
      modifies bucket, consumers[c]
      ensures ActedOnAll(old(All()), All(), c, chore)
    {
      SnapshotKeys(consumers[c].Record(), bucket.docs);
      assert forall d | d in consumers && d != c :: consumers[d] != consumers[c];
      consumers[c].DoChore(chore);
      SnapshotKeys(consumers[c].Record(), bucket.docs);
      ActedHere(c);
    }

    /** An action for one vbucket. */
    method OneVb(c: Id, vb: nat, a: Action)
      requires Valid() && WellFormed(Value()) && Refers(Value(), OnVb(c, vb, a)) && Allowed(Value(), OnVb(c, vb, a))
      requires ReadyFor(consumers[c].Record(), vb, a)
      modifies this`logs, bucket, consumers[c]
      ensures Valid() && Steps(old(Value()), Value(), OnVb(c, vb, a))
    {
      ghost var w := All();
      LogsKeys(Value(), OnVb(c, vb, a));
      ActAndLog(c, vb, a, LogsAfter(Value(), OnVb(c, vb, a)));
      WholeAct(w, All(), c, vb, a);
    }

    /** A pass over the vbuckets of a consumer. */
    method AllVbs(c: Id, chore: Chore)
      requires Valid() && WellFormed(Value()) && Refers(Value(), OnAll(c, chore)) && Allowed(Value(), OnAll(c, chore))
      requires chore.HangUp? ==> consumers[c].issuing.None?
      modifies bucket, consumers[c]
      ensures Valid() && Steps(old(Value()), Value(), OnAll(c, chore))
    {
      ghost var w := All();
      ActOnAll(c, chore);
      WholePass(w, All(), c, chore);
    }

    method SetLive(ids: set<Id>)
      modifies this`live
      ensures All() == old(All()).(live := ids)
    {
      live := ids;
      AllUnchanged();
    }

    method SetOwner(owner: map<nat, Id>)
      requires Wired()
      modifies plan
      ensures All() == old(All()).(owner := owner)
    {
      plan.owner := owner;
      AllUnchanged();
    }

    method SetView(c: Id, view: View)
      requires Wired() && c in consumers
      modifies consumers[c]
      ensures All() == old(All()).(views := old(Outlooks())[c := view])
    {
      assert forall d | d in consumers && d != c :: consumers[d] != consumers[c];
      consumers[c].Learn(view);
      OthersUnchanged(c);
    }

    method Admit(c: Id)
      modifies this`joined, this`live
      ensures All() == old(All()).(joined := old(joined) + {c}, live := old(live) + {c})
    {
      joined, live := joined + {c}, live + {c};
      AllUnchanged();
    }

    method Change(e: Event)
      requires Wired() && !e.OnVb? && !e.OnAll? && (e.Mutated? ==> e.vb in logs) && (e.Looked? || e.Joined? ==> e.c in consumers)
      modifies this, plan, consumers.Values
      ensures All() == WholeAfter(old(All()), e)
    {
      match e
      case Mutated(vb, next, kind) => SetLogs(logs[vb := Log(logs[vb].history[next := kind], next, logs[vb].handled)]);
      case Died(node) => SetLive(set c | c in live && c.node != node);
      case Looked(c, view) => SetView(c, view);
      case Replanned(owner) => SetOwner(owner);
      case Joined(c, view) =>
        SetView(c, view);
        Admit(c);
      case _ =>
    }

    /** The event can happen now. */
    predicate Permits(e: Event)
      requires joined <= consumers.Keys
      reads this, bucket, plan, consumers.Values
    {
      && WellFormed(Value()) && Refers(Value(), e) && Allowed(Value(), e)
      && (e.OnVb? ==> e.c in consumers && ReadyFor(consumers[e.c].Record(), e.vb, e.a))
      && (e.OnAll? ==> e.c in consumers && (e.chore.HangUp? ==> consumers[e.c].issuing.None?))
      && (e.Looked? || e.Joined? ==> e.c in consumers)
    }

    /** Whatever happens, every vbucket takes a step of the protocol or none. */
    method Handle(e: Event)
      requires Valid() && Permits(e)
      modifies this, bucket, plan, consumers.Values
      ensures Valid() && WellFormed(old(Value())) && Allowed(old(Value()), e) && Steps(old(Value()), Value(), e)
    {
      if e.OnVb? {
        OneVb(e.c, e.vb, e.a);
      } else if e.OnAll? {
        AllVbs(e.c, e.chore);
      } else {
        WholeSteps(All(), e);
        Change(e);
      }
    }

    /**
     Any sequence of calls of any number of consumers, from a start that is one for every vbucket: for every vbucket
     at once, no two live consumers stream, no event is skipped, and every stream is recorded.
     */
    method Serve(events: seq<Event>)
      requires Valid() && WellFormed(Value()) && forall vb | vb in bucket.docs :: Init(SystemOf(Value(), vb))
      modifies this, bucket, plan, consumers.Values
      ensures Valid() && WellFormed(Value()) && OneStreamEach(Value()) && NoneSkipped(Value()) && AllRecorded(Value())
    {
      InitIsSafeNow(Value());
      for i := 0 to |events|
        invariant Valid() && AllSafeNow(Value())
      {
        if Permits(events[i]) {
          ghost var f := Value();
          Handle(events[i]);
          StepsKeepSafe(f, Value(), events[i]);
        }
      }
      SafeIsSound(Value());
    }
  }

  /** A new consumer for every name. */
  method Recruit(ids: set<Id>, bucket: MetadataBucket, plan: Plan, view: View) returns (consumers: map<Id, Consumer>)
    ensures consumers.Keys == ids
    ensures forall c | c in ids :: consumers[c].id == c && consumers[c].bucket == bucket && consumers[c].plan == plan && consumers[c].view == view
    ensures forall c | c in ids :: Consistent(consumers[c].Record(), bucket.docs) && Untouched(c, consumers[c].Record())
  {
    consumers := map[];
    var todo := ids;
    while todo != {}
      invariant todo <= ids && consumers.Keys == ids - todo
      invariant forall c | c in consumers ::
                  consumers[c].id == c && consumers[c].bucket == bucket && consumers[c].plan == plan && consumers[c].view == view
      invariant forall c | c in consumers :: Consistent(consumers[c].Record(), bucket.docs) && Untouched(c, consumers[c].Record())
    {
      var c :| c in todo;
      var consumer := new Consumer(c, bucket, plan, view);
      consumers := consumers[c := consumer];
      todo := todo - {c};
    }
  }

  /** Any sequence of calls of any number of consumers after bootstrap. */
  method Operate(docs: map<nat, Blob>, owner: map<nat, Id>, ids: set<Id>, joined: set<Id>, view: View, logs: map<nat, Log>, events: seq<Event>)
    returns (cluster: Cluster)
    requires Bootstrapped(docs, logs) && owner.Keys == docs.Keys && joined <= ids && Acquainted(joined, view)
    ensures cluster.Valid() && WellFormed(cluster.Value())
    ensures OneStreamEach(cluster.Value()) && NoneSkipped(cluster.Value()) && AllRecorded(cluster.Value())
  {
    var bucket := new MetadataBucket(docs);
    var plan := new Plan(owner);
    var consumers := Recruit(ids, bucket, plan, view);
    cluster := new Cluster(bucket, plan, consumers, joined, logs);
    cluster.Equipped();
    ProperIsWellFormed(cluster.All());
    assert FreshWhole(cluster.All(), view);
    forall vb | vb in docs ensures Init(SystemOf(cluster.Value(), vb)) { FreshIsInit(cluster.All(), view, vb); }
    cluster.Serve(events);
  }
}
