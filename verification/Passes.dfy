/**
 The routines of a consumer that pass over many vbuckets, on values: what a visit
 does to one vbucket, how far a pass has got, and what it amounts to.
 */
module Passes {
  import opened Prelude
  import opened Vbucket
  import opened VbucketSystem
  import opened Ledger
  import opened Sorting

  datatype Chore =
    | CleanUp(busy: set<nat>)       // vbsRemainingToCleanup; for some vbuckets the planner is running
    | CloseStreams                  // vbsRemainingToClose
    | StreamAgain                   // vbsRemainingToRestream
    | SaveSeqNos(idle: set<nat>)    // doLastSeqNoCheckpoint
    | Rectify                       // checkAndUpdateMetadata
    | HangUp                        // CloseAllRunningDcpFeeds

  /** A vbucket as the consumer and the document see it. */
  datatype Turn = Turn(p: Peer, doc: Blob)

  ghost predicate Consistent(b: Books, docs: map<nat, Blob>) {
    Known(b) && docs.Keys == b.stats.Keys
  }

  /** All vbuckets as the consumer and the documents see them. */
  function Snapshot(b: Books, docs: map<nat, Blob>): map<nat, Turn>
    requires docs.Keys == b.stats.Keys == b.links.Keys
  {
    map vb | vb in docs :: Turn(PeerOf(b, vb), docs[vb])
  }

  /** What the plan and the cluster tell a consumer about a vbucket. */
  function ContextAt(c: Id, owner: map<nat, Id>, view: View, vb: nat): Context {
    Context(vb in owner && owner[vb] == c, vb in owner && owner[vb].host == c.host, view)
  }

  function Visited(c: Id, x: Context, chore: Chore, vb: nat, t: Turn): Turn {
    var l := t.p.l;
    match chore
    case CleanUp(busy) =>
      if vb in busy || x.shouldOwn then t else Turn(t.p.(l := CleanupLocal(c, l, t.doc)), CleanupDoc(c, t.doc))
    case CloseStreams =>
      if !Owned(c, l) || x.shouldOwn then t else Turn(t.p.(l := ReleaseStats(l, 0)), WriteReleased(t.doc, 0))
    case StreamAgain =>
      if Owned(c, l) || !x.shouldOwn then t else t.(p := t.p.(l := QueueRequest(c, l, t.doc)))
    case SaveSeqNos(idle) =>
      if vb in idle then t else t.(doc := CheckpointDoc(c, x.shouldOwnNode, x.shouldOwn, l, t.doc))
    case Rectify => t.(doc := CorrectDoc(c, x.shouldOwn, l, t.doc))
    case HangUp => t.(p := t.p.(l := ResetMarks(l), kv := Hangup(t.p.kv)))
  }

  /** The vbucket is done with, as far as the list of documents to clean up is concerned. */
  predicate Settles(c: Id, x: Context, chore: Chore, vb: nat, t: Turn) {
    chore.CleanUp? && vb !in chore.busy && (!x.shouldOwn || Owned(c, t.p.l))
  }

  /** A vbucket that is on a list twice is visited twice. */
  lemma VisitedTwice(c: Id, x: Context, chore: Chore, vb: nat, t: Turn)
    ensures var t' := Visited(c, x, chore, vb, t);
            Visited(c, x, chore, vb, t') == t' && Settles(c, x, chore, vb, t') == Settles(c, x, chore, vb, t)
  {}

  ghost function Wanted(c: Id, owner: map<nat, Id>, view: View, chore: Chore, m: map<nat, Turn>): map<nat, Turn> {
    map vb | vb in m :: Visited(c, ContextAt(c, owner, view, vb), chore, vb, m[vb])
  }

  ghost function Settled(c: Id, owner: map<nat, Id>, view: View, chore: Chore, m: map<nat, Turn>): set<nat> {
    set vb | vb in m && Settles(c, ContextAt(c, owner, view, vb), chore, vb, m[vb])
  }

  /** What a routine does when its loop comes to a vbucket. */
  ghost predicate Visits(c: Id, x: Context, chore: Chore, b: Books, docs: map<nat, Blob>, b': Books, docs': map<nat, Blob>, vb: nat) {
    vb in b.stats && vb in b.links && vb in docs &&
    var t := Visited(c, x, chore, vb, Turn(PeerOf(b, vb), docs[vb]));
    Turns(b, b', vb, t.p) && docs' == docs[vb := t.doc]
  }

  // ---- In the course of a pass ------------------------------------------------------

  /** One vbucket takes a turn, and no other. */
  lemma TurnSteps(b: Books, docs: map<nat, Blob>, b': Books, docs': map<nat, Blob>, vb: nat, t: Turn)
    requires Consistent(b, docs) && vb in docs && Turns(b, b', vb, t.p) && docs' == docs[vb := t.doc]
    ensures Consistent(b', docs') && Snapshot(b', docs') == Snapshot(b, docs)[vb := t]
  {
    forall v | v in docs && v != vb
      ensures v in b'.stats && v in b'.links && Snapshot(b', docs')[v] == Snapshot(b, docs)[v]
    {
      ElsewhereUnchanged(b, b', vb, v);
    }
    OnlyKey(Snapshot(b, docs), Snapshot(b', docs'), vb);
  }

  /** The vbuckets visited so far are as wanted and the others as before. */
  ghost predicate Pass(m0: map<nat, Turn>, m: map<nat, Turn>, done: set<nat>, want: map<nat, Turn>) {
    && m.Keys == m0.Keys == want.Keys
    && forall v | v in want :: m[v] == if v in done then want[v] else m0[v]
  }

  lemma PassStart(c: Id, owner: map<nat, Id>, view: View, chore: Chore, m: map<nat, Turn>)
    ensures Pass(m, m, Members([]), Wanted(c, owner, view, chore, m))
  {}

  lemma PassVisit(c: Id, owner: map<nat, Id>, view: View, chore: Chore, m0: map<nat, Turn>, m: map<nat, Turn>, done: set<nat>, vb: nat)
    requires vb in m && Pass(m0, m, done, Wanted(c, owner, view, chore, m0))
    ensures var x := ContextAt(c, owner, view, vb);
            && Pass(m0, m[vb := Visited(c, x, chore, vb, m[vb])], done + {vb}, Wanted(c, owner, view, chore, m0))
            && (Settles(c, x, chore, vb, m[vb]) <==> vb in Settled(c, owner, view, chore, m0))
  {
    VisitedTwice(c, ContextAt(c, owner, view, vb), chore, vb, m0[vb]);
  }

  /** The vbuckets of the list that are in the set. */
  function Only(vbs: seq<nat>, some: set<nat>): seq<nat> {
    if vbs == [] then [] else Only(vbs[..|vbs| - 1], some) + (if vbs[|vbs| - 1] in some then [vbs[|vbs| - 1]] else [])
  }

  lemma {:induction false} OnlyCounts(vbs: seq<nat>, some: set<nat>, v: nat)
    ensures multiset(Only(vbs, some))[v] == if v in some then multiset(vbs)[v] else 0
  {
    if vbs != [] {
      OnlyCounts(vbs[..|vbs| - 1], some, v);
      assert vbs == vbs[..|vbs| - 1] + [vbs[|vbs| - 1]];
    }
  }

  lemma MembersNext(vbs: seq<nat>, some: set<nat>, i: nat)
    requires i < |vbs|
    ensures Members(vbs[..i + 1]) == Members(vbs[..i]) + {vbs[i]} && vbs[i] in Members(vbs)
    ensures Only(vbs[..i + 1], some) == Only(vbs[..i], some) + (if vbs[i] in some then [vbs[i]] else [])
  {
    assert vbs[..i + 1][..i] == vbs[..i];
  }

  // ---- What a pass amounts to --------------------------------------------------------

  /** The action that a pass is for one vbucket; nothing for an idle one. */
  function ActionFor(chore: Chore, vb: nat): Option<Action> {
    match chore
    case CleanUp(busy) => Some(TickCleanup(vb in busy))
    case CloseStreams => Some(TickClose)
    case StreamAgain => Some(TickRestream)
    case SaveSeqNos(idle) => if vb in idle then None else Some(Checkpoint)
    case Rectify => Some(Correct)
    case HangUp => Some(CloseFeeds)
  }

  predicate CanChore(chore: Chore, p: Peer) {
    chore.HangUp? ==> p.l.issuing.None?
  }

  /** The turn that the action is. */
  function ActionTurn(c: Id, x: Context, t: Turn, a: Option<Action>): Turn
    requires a.Some? ==> Can(t.p, a.value)
  {
    if a.None? then t else Turn(NextPeer(c, x, t.doc, t.p, a.value), NextDoc(c, x, t.doc, t.p, a.value))
  }

  /** One vbucket has taken an action. */
  ghost predicate TurnedAt(c: Id, x: Context, m: map<nat, Turn>, m': map<nat, Turn>, vb: nat, a: Action) {
    vb in m && Can(m[vb].p, a) && m' == m[vb := ActionTurn(c, x, m[vb], Some(a))]
  }

  /** Every vbucket has taken the action that the chore is for it. */
  ghost predicate Completed(c: Id, owner: map<nat, Id>, view: View, chore: Chore, m0: map<nat, Turn>, m: map<nat, Turn>) {
    && m.Keys == m0.Keys
    && forall v | v in m0 ::
         && CanChore(chore, m0[v].p)
         && m[v] == ActionTurn(c, ContextAt(c, owner, view, v), m0[v], ActionFor(chore, v))
  }

  lemma SnapshotKeys(b: Books, docs: map<nat, Blob>)
    requires Consistent(b, docs)
    ensures Snapshot(b, docs).Keys == docs.Keys
  {}

  /** The vbuckets that a chore visits, given the lists. */
  function Todo(chore: Chore, b: Books): set<nat> {
    match chore
    case CleanUp(_) => Members(b.cleanup)
    case CloseStreams => Members(b.close)
    case StreamAgain => Members(b.restream)
    case _ => b.stats.Keys
  }

  /** The rewriting of the list that ends a chore. */
  function Crossed(chore: Chore, t: Turn, settles: bool): Turn {
    match chore
    case CleanUp(_) => t.(p := t.p.(l := t.p.l.(toCleanup := t.p.l.toCleanup && !settles)))
    case StreamAgain => t.(p := t.p.(l := t.p.l.(restream := 0)))
    case _ => t
  }

  /** The lists hold the vbucket. */
  predicate IsDue(chore: Chore, l: Local) {
    match chore
    case CleanUp(_) => l.toCleanup
    case CloseStreams => l.toClose > 0
    case StreamAgain => l.restream > 0
    case _ => true
  }

  lemma TodoIsDue(chore: Chore, b: Books, v: nat)
    requires v in b.stats
    ensures v in Todo(chore, b) <==> IsDue(chore, At(b, v))
  {
    assert v in b.restream <==> multiset(b.restream)[v] > 0;
    assert v in b.close <==> multiset(b.close)[v] > 0;
  }

  lemma CleanUpIsAction(c: Id, x: Context, busy: set<nat>, v: nat, t: Turn)
    ensures Crossed(CleanUp(busy), if t.p.l.toCleanup then Visited(c, x, CleanUp(busy), v, t) else t, Settles(c, x, CleanUp(busy), v, t))
            == ActionTurn(c, x, t, Some(TickCleanup(v in busy)))
  {}

  lemma CloseIsAction(c: Id, x: Context, v: nat, t: Turn)
    ensures (if t.p.l.toClose > 0 then Visited(c, x, CloseStreams, v, t) else t) == ActionTurn(c, x, t, Some(TickClose))
  {}

  lemma StreamAgainIsAction(c: Id, x: Context, v: nat, t: Turn)
    ensures Crossed(StreamAgain, if t.p.l.restream > 0 then Visited(c, x, StreamAgain, v, t) else t, false)
            == ActionTurn(c, x, t, Some(TickRestream))
  {}

  lemma VisitIsAction(c: Id, x: Context, chore: Chore, v: nat, t: Turn)
    requires CanChore(chore, t.p)
    ensures Crossed(chore, if IsDue(chore, t.p.l) then Visited(c, x, chore, v, t) else t, Settles(c, x, chore, v, t))
            == ActionTurn(c, x, t, ActionFor(chore, v))
  {
    match chore
    case CleanUp(busy) => CleanUpIsAction(c, x, busy, v, t);
    case CloseStreams => CloseIsAction(c, x, v, t);
    case StreamAgain => StreamAgainIsAction(c, x, v, t);
    case _ =>
  }

  ghost predicate AllCrossed(chore: Chore, m: map<nat, Turn>, m': map<nat, Turn>, settled: set<nat>) {
    m'.Keys == m.Keys && forall v | v in m :: m'[v] == Crossed(chore, m[v], v in settled)
  }

  ghost predicate AllDue(chore: Chore, m: map<nat, Turn>, todo: set<nat>) {
    forall v | v in m :: v in todo <==> IsDue(chore, m[v].p.l)
  }

  lemma NothingCrossed(chore: Chore, m: map<nat, Turn>, settled: set<nat>)
    requires !chore.CleanUp? && !chore.StreamAgain?
    ensures AllCrossed(chore, m, m, settled)
  {}

  /** A pass and the rewriting of its list amount to the action for every vbucket. */
  lemma PassCompletes(c: Id, owner: map<nat, Id>, view: View, chore: Chore, m0: map<nat, Turn>, m: map<nat, Turn>,
                      m': map<nat, Turn>, todo: set<nat>)
    requires forall v | v in m0 :: CanChore(chore, m0[v].p)
    requires AllDue(chore, m0, todo) && Pass(m0, m, todo, Wanted(c, owner, view, chore, m0))
    requires AllCrossed(chore, m, m', Settled(c, owner, view, chore, m0))
    ensures Completed(c, owner, view, chore, m0, m')
  {
    forall v | v in m0
      ensures m'[v] == ActionTurn(c, ContextAt(c, owner, view, v), m0[v], ActionFor(chore, v))
    {
      VisitIsAction(c, ContextAt(c, owner, view, v), chore, v, m0[v]);
    }
  }

  lemma TodoIsAllDue(chore: Chore, b: Books, docs: map<nat, Blob>)
    requires Consistent(b, docs)
    ensures AllDue(chore, Snapshot(b, docs), Todo(chore, b))
  {
    forall v | v in docs ensures v in Todo(chore, b) <==> IsDue(chore, At(b, v)) { TodoIsDue(chore, b, v); }
  }

  lemma LeftToCleanUp(cleanup: seq<nat>, vbs: seq<nat>, settled: set<nat>, diff: seq<nat>, v: nat)
    requires multiset(vbs) == multiset(cleanup)
    requires multiset(diff) == (multiset(Only(vbs, settled)) - multiset(cleanup)) + (multiset(cleanup) - multiset(Only(vbs, settled)))
    ensures v in diff <==> v in cleanup && v !in settled
  {
    OnlyCounts(vbs, settled, v);
    assert v in diff <==> multiset(diff)[v] > 0;
    assert v in cleanup <==> multiset(cleanup)[v] > 0;
  }

  lemma CleanupListRewritten(b: Books, docs: map<nat, Blob>, vbs: seq<nat>, busy: set<nat>, settled: set<nat>, diff: seq<nat>)
    requires Consistent(b, docs) && multiset(vbs) == multiset(b.cleanup)
    requires multiset(diff) == (multiset(Only(vbs, settled)) - multiset(b.cleanup)) + (multiset(b.cleanup) - multiset(Only(vbs, settled)))
    ensures Consistent(b.(cleanup := diff), docs)
    ensures AllCrossed(CleanUp(busy), Snapshot(b, docs), Snapshot(b.(cleanup := diff), docs), settled)
  {
    forall v: nat ensures v in diff <==> v in b.cleanup && v !in settled { LeftToCleanUp(b.cleanup, vbs, settled, diff, v); }
    CleanupListCrossed(b, docs, busy, settled, diff);
  }

  lemma CleanupListCrossed(b: Books, docs: map<nat, Blob>, busy: set<nat>, settled: set<nat>, diff: seq<nat>)
    requires Consistent(b, docs) && forall v: nat :: v in diff <==> v in b.cleanup && v !in settled
    ensures Consistent(b.(cleanup := diff), docs)
    ensures AllCrossed(CleanUp(busy), Snapshot(b, docs), Snapshot(b.(cleanup := diff), docs), settled)
  {}

  lemma RestreamListRewritten(b: Books, docs: map<nat, Blob>, settled: set<nat>)
    requires Consistent(b, docs)
    ensures Consistent(b.(restream := []), docs)
    ensures AllCrossed(StreamAgain, Snapshot(b, docs), Snapshot(b.(restream := []), docs), settled)
  {}

  lemma CleanupEnds(c: Id, owner: map<nat, Id>, view: View, busy: set<nat>, b0: Books, docs0: map<nat, Blob>,
                    b: Books, docs: map<nat, Blob>, vbs: seq<nat>, diff: seq<nat>)
    requires Consistent(b0, docs0) && Consistent(b, docs) && b.cleanup == b0.cleanup
    requires multiset(vbs) == multiset(b.cleanup) && Members(vbs) == Members(b.cleanup)
    requires Pass(Snapshot(b0, docs0), Snapshot(b, docs), Members(vbs), Wanted(c, owner, view, CleanUp(busy), Snapshot(b0, docs0)))
    requires var corrected := Only(vbs, Settled(c, owner, view, CleanUp(busy), Snapshot(b0, docs0)));
             multiset(diff) == (multiset(corrected) - multiset(b.cleanup)) + (multiset(b.cleanup) - multiset(corrected))
    ensures Consistent(b.(cleanup := diff), docs)
    ensures Completed(c, owner, view, CleanUp(busy), Snapshot(b0, docs0), Snapshot(b.(cleanup := diff), docs))
  {
    TodoIsAllDue(CleanUp(busy), b0, docs0);
    CleanupListRewritten(b, docs, vbs, busy, Settled(c, owner, view, CleanUp(busy), Snapshot(b0, docs0)), diff);
    PassCompletes(c, owner, view, CleanUp(busy), Snapshot(b0, docs0), Snapshot(b, docs), Snapshot(b.(cleanup := diff), docs), Members(vbs));
  }

  lemma RestreamEnds(c: Id, owner: map<nat, Id>, view: View, b0: Books, docs0: map<nat, Blob>, b: Books, docs: map<nat, Blob>, vbs: seq<nat>)
    requires Consistent(b0, docs0) && Consistent(b, docs) && Members(vbs) == Members(b0.restream)
    requires Pass(Snapshot(b0, docs0), Snapshot(b, docs), Members(vbs), Wanted(c, owner, view, StreamAgain, Snapshot(b0, docs0)))
    ensures Consistent(b.(restream := []), docs)
    ensures Completed(c, owner, view, StreamAgain, Snapshot(b0, docs0), Snapshot(b.(restream := []), docs))
  {
    TodoIsAllDue(StreamAgain, b0, docs0);
    RestreamListRewritten(b, docs, Settled(c, owner, view, StreamAgain, Snapshot(b0, docs0)));
    PassCompletes(c, owner, view, StreamAgain, Snapshot(b0, docs0), Snapshot(b, docs), Snapshot(b.(restream := []), docs), Members(vbs));
  }

  /** A pass that rewrites no list. */
  lemma PlainEnds(c: Id, owner: map<nat, Id>, view: View, chore: Chore, m0: map<nat, Turn>, m: map<nat, Turn>, todo: set<nat>)
    requires !chore.CleanUp? && !chore.StreamAgain? && AllDue(chore, m0, todo) && forall v | v in m0 :: CanChore(chore, m0[v].p)
    requires Pass(m0, m, todo, Wanted(c, owner, view, chore, m0))
    ensures Completed(c, owner, view, chore, m0, m)
  {
    NothingCrossed(chore, m, Settled(c, owner, view, chore, m0));
    PassCompletes(c, owner, view, chore, m0, m, m, todo);
  }

  lemma ListIsKnown(b: Books, docs: map<nat, Blob>)
    requires Consistent(b, docs)
    ensures Members(b.cleanup) <= docs.Keys && Members(b.close) <= docs.Keys && Members(b.restream) <= docs.Keys
  {
    assert forall vb | vb in b.cleanup :: vb in b.restream + b.close + b.cleanup;
    assert forall vb | vb in b.close :: vb in b.restream + b.close + b.cleanup;
    assert forall vb | vb in b.restream :: vb in b.restream + b.close + b.cleanup;
  }

  /** The copy of a list that a pass works on. */
  method InOrder(vbs: seq<nat>) returns (sorted: seq<nat>)
    ensures Sorted(NatLe, sorted) && multiset(sorted) == multiset(vbs) && Members(sorted) == Members(vbs)
  {
    sorted := Sort(NatLe, vbs);
    NatOrder();
    SortSorts(NatLe, vbs);
    assert forall v :: v in vbs <==> v in multiset(vbs);
    assert forall v :: v in sorted <==> v in multiset(sorted);
  }

  // ---- util.VbsSliceDiff -----------------------------------------------------------------

  /** What only one of the lists has, counting repetitions. */
  method VbsSliceDiff(x: seq<nat>, y: seq<nat>) returns (diff: seq<nat>)
    ensures multiset(diff) == (multiset(x) - multiset(y)) + (multiset(y) - multiset(x))
  {
    var left := OnlyIn(x, y);
    var right := OnlyIn(y, x);
    diff := left + right;
  }

  /** Taking from a list what is on it leaves nothing. */
  method CrossOut(x: seq<nat>, y: seq<nat>) returns (diff: seq<nat>)
    requires multiset(x) == multiset(y)
    ensures diff == []
  {
    diff := VbsSliceDiff(x, y);
    assert |multiset(diff)| == 0;
  }

  lemma OneMoreVb(x: multiset<nat>, y: multiset<nat>, v: nat)
    ensures x + multiset{v} - y == if (y - x)[v] > 0 then x - y else x - y + multiset{v}
    ensures y - (x + multiset{v}) == if (y - x)[v] > 0 then y - x - multiset{v} else y - x
  {}

  lemma PrefixGrows(x: seq<nat>, i: nat)
    requires i < |x|
    ensures multiset(x[..i + 1]) == multiset(x[..i]) + multiset{x[i]}
  {
    assert x[..i + 1] == x[..i] + [x[i]];
  }

  method OnlyIn(x: seq<nat>, y: seq<nat>) returns (diff: seq<nat>)
    ensures multiset(diff) == multiset(x) - multiset(y)
  {
    var m := multiset(y);
    diff := [];
    ghost var some: multiset<nat>, all := multiset{}, multiset(y);
    for i := 0 to |x|
      invariant some == multiset(x[..i]) && multiset(diff) == some - all && m == all - some
    {
      PrefixGrows(x, i);
      OneMoreVb(some, all, x[i]);
      some := some + multiset{x[i]};
      if m[x[i]] > 0 {
        m := m - multiset{x[i]};
      } else {
        diff := diff + [x[i]];
      }
    }
    assert x[..|x|] == x;
  }
}
