/**
 The dry run of isAcyclicInsertPossible on values: the indices while edges are
 being tried and taken out again, and the answer.
 */
module DryRun {
  import opened Prelude
  import opened Reachability
  import opened BucketIndices
  import opened AcyclicInsert

  ghost predicate Labelled(g: Graph, edgeList: map<BucketEdge, set<string>>) {
    forall e | e in g :: At(edgeList, e) != {}
  }

  /** One label per edge of the walk. */
  ghost predicate LabelsAlong(edgeList: map<BucketEdge, set<string>>, path: seq<Keyspace>, labels: seq<string>) {
    && path != [] && |labels| == |path| - 1
    && forall i | 0 <= i < |labels| :: labels[i] in At(edgeList, BucketEdge(path[i], path[i + 1]))
  }

  ghost predicate NewEdge(source: Keyspace, destinations: seq<Keyspace>, e: BucketEdge) {
    e.source == source && e.destination in destinations
  }

  /** How a set of labels looks while some tried edges that touch it are pending and others undone. */
  function Touched(labels: set<string>, lbl: string, undone: bool, pending: bool): set<string> {
    if undone then labels - {lbl} else if pending then labels + {lbl} else labels
  }

  ghost predicate TriedCounts(a0: Adjacency, a: Adjacency, source: Keyspace, pending: seq<Keyspace>) {
    forall e :: Count(a, e) == Count(a0, e) + (if NewEdge(source, pending, e) then 1 else 0)
  }

  ghost predicate TriedInto(m0: map<Keyspace, set<string>>, m: map<Keyspace, set<string>>, lbl: string,
                            undone: seq<Keyspace>, pending: seq<Keyspace>) {
    forall k :: At(m, k) == Touched(At(m0, k), lbl, k in undone, k in pending)
  }

  ghost predicate TriedOutOf(m0: map<Keyspace, set<string>>, m: map<Keyspace, set<string>>, lbl: string, source: Keyspace,
                             undone: seq<Keyspace>, pending: seq<Keyspace>) {
    forall k :: At(m, k) == Touched(At(m0, k), lbl, k == source && undone != [], k == source && pending != [])
  }

  ghost predicate TriedEdges(m0: map<BucketEdge, set<string>>, m: map<BucketEdge, set<string>>, lbl: string, source: Keyspace,
                             undone: seq<Keyspace>, pending: seq<Keyspace>) {
    forall e :: At(m, e) == Touched(At(m0, e), lbl, NewEdge(source, undone, e), NewEdge(source, pending, e))
  }

  /** The indices after some edges have been tried, of which some have been undone again. */
  ghost predicate Tried(x0: Indices, x: Indices, lbl: string, source: Keyspace, undone: seq<Keyspace>, pending: seq<Keyspace>) {
    && TriedCounts(x0.adjacency, x.adjacency, source, pending)
    && TriedInto(x0.inLabels, x.inLabels, lbl, undone, pending)
    && TriedOutOf(x0.outLabels, x.outLabels, lbl, source, undone, pending)
    && TriedEdges(x0.edgeList, x.edgeList, lbl, source, undone, pending)
  }

  /** A walk from the offending destination back to the source, with one label for each of its edges. */
  ghost predicate Witness(x0: Indices, lbl: string, source: Keyspace, inserted: seq<Keyspace>, path: seq<Keyspace>, labels: seq<string>) {
    && path != [] && WalkFromTo(GraphOf(x0.adjacency) + NewEdges(source, Members(inserted)), path, path[0], source)
    && |labels| == |path| - 1
    && forall i | 0 <= i < |labels| ::
         var e := BucketEdge(path[i], path[i + 1]);
         labels[i] in At(x0.edgeList, e) || (labels[i] == lbl && NewEdge(source, inserted, e))
  }

  /** The destinations that are inserted before the loop ends: all, or those before the first with a way back. */
  ghost function Tries(g: Graph, source: Keyspace, order: seq<Keyspace>): seq<Keyspace>
    decreases order
  {
    if order == [] || FindsPath(g, order[0], source) then []
    else [order[0]] + Tries(g + {BucketEdge(source, order[0])}, source, order[1..])
  }

  /** The answer, how far the insertion went, and who would be on the cycle. */
  ghost predicate Outcome(x0: Indices, lbl: string, source: Keyspace, order: seq<Keyspace>, possible: bool,
                          labels: seq<string>, inserted: seq<Keyspace>, path: seq<Keyspace>) {
    var g := GraphOf(x0.adjacency);
    && inserted == Tries(g, source, order) && possible == Check(g, source, order)
    && (possible ==> inserted == order && labels == [])
    && (!possible ==>
          && |inserted| < |order| && path != [] && path[0] == order[|inserted|]
          && (Labelled(g, x0.edgeList) ==> Witness(x0, lbl, source, inserted, path, labels)))
  }

  lemma TriedGraph(x0: Indices, x: Indices, lbl: string, source: Keyspace, inserted: seq<Keyspace>)
    requires Normal(x0) && Normal(x) && Tried(x0, x, lbl, source, [], inserted)
    ensures GraphOf(x.adjacency) == GraphOf(x0.adjacency) + NewEdges(source, Members(inserted))
  {
    CountsInGraph(x0.adjacency);
    CountsInGraph(x.adjacency);
    forall e ensures e in GraphOf(x.adjacency) <==> e in GraphOf(x0.adjacency) + NewEdges(source, Members(inserted)) {
      assert Count(x.adjacency, e) == Count(x0.adjacency, e) + (if NewEdge(source, inserted, e) then 1 else 0);
    }
  }

  lemma CountsInGraph(a: Adjacency)
    requires NormalAdjacency(a)
    ensures forall e :: if e in GraphOf(a) then Count(a, e) > 0 else Count(a, e) == 0
  {
    forall e ensures if e in GraphOf(a) then Count(a, e) > 0 else Count(a, e) == 0 {
      if e in GraphOf(a) { assert Positive(a[e.source]); }
    }
  }

  /** The loop gets this far, and no further if it then finds a way back. */
  lemma {:induction false} TriesUpTo(g: Graph, source: Keyspace, a: seq<Keyspace>, b: seq<Keyspace>)
    requires Check(g, source, a)
    requires b == [] || FindsPath(g + NewEdges(source, Members(a)), b[0], source)
    ensures Tries(g, source, a + b) == a && (Check(g, source, a + b) <==> b == [])
    decreases a
  {
    if a == [] {
      assert a + b == b && g + NewEdges(source, Members(a)) == g;
    } else {
      var g' := g + {BucketEdge(source, a[0])};
      assert (a + b)[1..] == a[1..] + b;
      MoreEdges(g, source, a);
      TriesUpTo(g', source, a[1..], b);
    }
  }

  lemma MoreEdges(g: Graph, source: Keyspace, a: seq<Keyspace>)
    requires a != []
    ensures g + {BucketEdge(source, a[0])} + NewEdges(source, Members(a[1..])) == g + NewEdges(source, Members(a))
  {
    assert Members(a) == {a[0]} + Members(a[1..]);
  }

  lemma {:induction false} CheckOneMore(g: Graph, source: Keyspace, a: seq<Keyspace>, d: Keyspace)
    requires Check(g, source, a) && !FindsPath(g + NewEdges(source, Members(a)), d, source)
    ensures Check(g, source, a + [d])
    decreases a
  {
    if a == [] {
      assert a + [d] == [d] && g + NewEdges(source, Members(a)) == g;
    } else {
      assert (a + [d])[1..] == a[1..] + [d];
      MoreEdges(g, source, a);
      CheckOneMore(g + {BucketEdge(source, a[0])}, source, a[1..], d);
    }
  }

  lemma WitnessFound(x0: Indices, x: Indices, lbl: string, source: Keyspace, inserted: seq<Keyspace>,
                     path: seq<Keyspace>, labels: seq<string>)
    requires Normal(x0) && Normal(x) && Tried(x0, x, lbl, source, [], inserted) && path != []
    requires WalkFromTo(GraphOf(x.adjacency), path, path[0], source)
    requires Labelled(GraphOf(x.adjacency), x.edgeList) ==> LabelsAlong(x.edgeList, path, labels)
    ensures Labelled(GraphOf(x0.adjacency), x0.edgeList) ==> Witness(x0, lbl, source, inserted, path, labels)
  {
    TriedGraph(x0, x, lbl, source, inserted);
    assert Labelled(GraphOf(x0.adjacency), x0.edgeList) ==> Labelled(GraphOf(x.adjacency), x.edgeList);
  }

  lemma TriedInsert(x0: Indices, x: Indices, x': Indices, lbl: string, source: Keyspace, inserted: seq<Keyspace>, dest: Keyspace)
    requires Tried(x0, x, lbl, source, [], inserted) && dest !in inserted && Inserted(x, x', lbl, BucketEdge(source, dest))
    ensures Tried(x0, x', lbl, source, [], inserted + [dest])
  {
    var more := inserted + [dest];
    assert TriedCounts(x0.adjacency, x'.adjacency, source, more);
    assert TriedInto(x0.inLabels, x'.inLabels, lbl, [], more);
    assert TriedOutOf(x0.outLabels, x'.outLabels, lbl, source, [], more);
    assert TriedEdges(x0.edgeList, x'.edgeList, lbl, source, [], more);
  }

  lemma TriedUndo(x0: Indices, x: Indices, x': Indices, lbl: string, source: Keyspace,
                  undone: seq<Keyspace>, dest: Keyspace, pending: seq<Keyspace>)
    requires Normal(x0) && dest !in pending && Tried(x0, x, lbl, source, undone, [dest] + pending)
    requires Removed(x, x', lbl, BucketEdge(source, dest))
    ensures Tried(x0, x', lbl, source, undone + [dest], pending)
  {
    var e := BucketEdge(source, dest);
    CountsInGraph(x0.adjacency);
    assert Count(x.adjacency, e) == Count(x0.adjacency, e) + 1;
    assert TriedCounts(x0.adjacency, x'.adjacency, source, pending);
    UndoInto(x0.inLabels, x.inLabels, x'.inLabels, lbl, undone, dest, pending);
    UndoOutOf(x0.outLabels, x.outLabels, x'.outLabels, lbl, source, undone, dest, pending);
    UndoEdges(x0.edgeList, x.edgeList, x'.edgeList, lbl, source, undone, dest, pending);
  }

  lemma UndoInto(m0: map<Keyspace, set<string>>, m: map<Keyspace, set<string>>, m': map<Keyspace, set<string>>, lbl: string,
                 undone: seq<Keyspace>, dest: Keyspace, pending: seq<Keyspace>)
    requires TriedInto(m0, m, lbl, undone, [dest] + pending)
    requires forall k :: At(m', k) == At(m, k) - (if k == dest then {lbl} else {})
    ensures TriedInto(m0, m', lbl, undone + [dest], pending)
  {}

  lemma UndoOutOf(m0: map<Keyspace, set<string>>, m: map<Keyspace, set<string>>, m': map<Keyspace, set<string>>, lbl: string,
                  source: Keyspace, undone: seq<Keyspace>, dest: Keyspace, pending: seq<Keyspace>)
    requires TriedOutOf(m0, m, lbl, source, undone, [dest] + pending)
    requires forall k :: At(m', k) == At(m, k) - (if k == source then {lbl} else {})
    ensures TriedOutOf(m0, m', lbl, source, undone + [dest], pending)
  {}

  lemma UndoEdges(m0: map<BucketEdge, set<string>>, m: map<BucketEdge, set<string>>, m': map<BucketEdge, set<string>>,
                  lbl: string, source: Keyspace, undone: seq<Keyspace>, dest: Keyspace, pending: seq<Keyspace>)
    requires TriedEdges(m0, m, lbl, source, undone, [dest] + pending)
    requires forall e :: At(m', e) == At(m, e) - (if e == BucketEdge(source, dest) then {lbl} else {})
    ensures TriedEdges(m0, m', lbl, source, undone + [dest], pending)
  {}

  // ---- One round of the loop ----------------------------------------------

  ghost predicate Halfway(x0: Indices, x: Indices, lbl: string, source: Keyspace, inserted: seq<Keyspace>) {
    Normal(x0) && Normal(x) && Tried(x0, x, lbl, source, [], inserted) && Check(GraphOf(x0.adjacency), source, inserted)
  }

  lemma NothingTried(x0: Indices, lbl: string, source: Keyspace)
    requires Normal(x0)
    ensures Halfway(x0, x0, lbl, source, [])
  {}

  lemma NotYet(order: seq<Keyspace>, i: nat)
    requires Distinct(order) && i < |order|
    ensures order[i] !in order[..i] && order[..i + 1] == order[..i] + [order[i]] && order == order[..i] + order[i..]
  {}

  /** A search that finds nothing lets the loop insert the edge and go on. */
  lemma GoesOn(x0: Indices, x: Indices, x': Indices, lbl: string, source: Keyspace, order: seq<Keyspace>, i: nat)
    requires i < |order| && Distinct(order) && Halfway(x0, x, lbl, source, order[..i])
    requires !FindsPath(GraphOf(x.adjacency), order[i], source)
    requires Normal(x') && Inserted(x, x', lbl, BucketEdge(source, order[i]))
    ensures Halfway(x0, x', lbl, source, order[..i + 1])
  {
    NotYet(order, i);
    TriedGraph(x0, x, lbl, source, order[..i]);
    CheckOneMore(GraphOf(x0.adjacency), source, order[..i], order[i]);
    TriedInsert(x0, x, x', lbl, source, order[..i], order[i]);
  }

  /** A search that finds a way back decides the answer. */
  lemma Stopped(x0: Indices, x: Indices, lbl: string, source: Keyspace, order: seq<Keyspace>, i: nat,
                path: seq<Keyspace>, labels: seq<string>)
    requires i < |order| && Distinct(order) && Halfway(x0, x, lbl, source, order[..i]) && path != [] && path[0] == order[i]
    requires FindsPath(GraphOf(x.adjacency), path[0], source) && WalkFromTo(GraphOf(x.adjacency), path, path[0], source)
    requires Labelled(GraphOf(x.adjacency), x.edgeList) ==> LabelsAlong(x.edgeList, path, labels)
    ensures Outcome(x0, lbl, source, order, false, labels, order[..i], path)
  {
    NotYet(order, i);
    TriedGraph(x0, x, lbl, source, order[..i]);
    TriesUpTo(GraphOf(x0.adjacency), source, order[..i], order[i..]);
    WitnessFound(x0, x, lbl, source, order[..i], path, labels);
  }

  lemma Completed(x0: Indices, x: Indices, lbl: string, source: Keyspace, order: seq<Keyspace>)
    requires Halfway(x0, x, lbl, source, order)
    ensures Outcome(x0, lbl, source, order, true, [], order, [])
  {
    TriesUpTo(GraphOf(x0.adjacency), source, order, []);
    assert order + [] == order;
  }

  // ---- What a dry run leaves behind ---------------------------------------

  lemma Stripped(have: set<string>, want: set<string>, stale: set<string>, lbl: string, undone: bool)
    requires UpTo(stale, have, want)
    ensures UpTo(stale + {lbl}, Touched(have, lbl, undone, false), want)
    ensures lbl !in want ==> Touched(have, lbl, undone, false) == have
  {}

  lemma Restored(x0: Indices, x: Indices, r: Registry, stale: set<string>, lbl: string, source: Keyspace, inserted: seq<Keyspace>)
    requires Agree(x0, r, stale) && Normal(x) && Tried(x0, x, lbl, source, inserted, [])
    ensures x.adjacency == x0.adjacency
    ensures Agree(x, r, stale + (if lbl in r then {lbl} else {}))
    ensures lbl !in r ==> x == x0
  {
    SameCounts(x0, x);
    if lbl in r {
      StillAgrees(x0, x, r, stale, lbl, source, inserted);
    } else {
      NothingToDelete(x0, x, r, stale, lbl, source, inserted);
      assert stale + {} == stale;
    }
  }

  lemma StillAgrees(x0: Indices, x: Indices, r: Registry, stale: set<string>, lbl: string, source: Keyspace, inserted: seq<Keyspace>)
    requires Agree(x0, r, stale) && Normal(x) && Tried(x0, x, lbl, source, inserted, []) && x.adjacency == x0.adjacency
    ensures Agree(x, r, stale + {lbl})
  {
    forall k ensures UpTo(stale + {lbl}, At(x.inLabels, k), LabelsInto(r, k)) {
      Stripped(At(x0.inLabels, k), LabelsInto(r, k), stale, lbl, k in inserted);
    }
    forall k ensures UpTo(stale + {lbl}, At(x.outLabels, k), LabelsOutOf(r, k)) {
      Stripped(At(x0.outLabels, k), LabelsOutOf(r, k), stale, lbl, k == source && inserted != []);
    }
    forall e ensures UpTo(stale + {lbl}, At(x.edgeList, e), LabelsOn(r, e)) {
      Stripped(At(x0.edgeList, e), LabelsOn(r, e), stale, lbl, NewEdge(source, inserted, e));
    }
  }

  lemma NothingToDelete(x0: Indices, x: Indices, r: Registry, stale: set<string>, lbl: string, source: Keyspace, inserted: seq<Keyspace>)
    requires Agree(x0, r, stale) && Normal(x) && Tried(x0, x, lbl, source, inserted, []) && x.adjacency == x0.adjacency
    requires lbl !in r
    ensures x == x0
  {
    forall k ensures At(x0.inLabels, k) == At(x.inLabels, k) {
      Stripped(At(x0.inLabels, k), LabelsInto(r, k), stale, lbl, k in inserted);
    }
    forall k ensures At(x0.outLabels, k) == At(x.outLabels, k) {
      Stripped(At(x0.outLabels, k), LabelsOutOf(r, k), stale, lbl, k == source && inserted != []);
    }
    forall e ensures At(x0.edgeList, e) == At(x.edgeList, e) {
      Stripped(At(x0.edgeList, e), LabelsOn(r, e), stale, lbl, NewEdge(source, inserted, e));
    }
    SameEntries(x0.inLabels, x.inLabels);
    SameEntries(x0.outLabels, x.outLabels);
    SameEntries(x0.edgeList, x.edgeList);
  }

  /** The label already has something to do with the edge, or with an end of it. */
  ghost predicate Touches(x0: Indices, lbl: string, source: Keyspace, d: Keyspace) {
    lbl in At(x0.outLabels, source) || lbl in At(x0.inLabels, d) || lbl in At(x0.edgeList, BucketEdge(source, d))
  }

  /** Undoing the insertions restores every index if and only if the label touched none of the edges before. */
  lemma UndoRestores(x0: Indices, x: Indices, lbl: string, source: Keyspace, inserted: seq<Keyspace>)
    requires Normal(x0) && Normal(x) && Tried(x0, x, lbl, source, inserted, [])
    ensures x == x0 <==> forall d | d in inserted :: !Touches(x0, lbl, source, d)
  {
    SameCounts(x0, x);
    if forall d | d in inserted :: !Touches(x0, lbl, source, d) {
      UntouchedIsRestored(x0, x, lbl, source, inserted);
    } else {
      var d :| d in inserted && Touches(x0, lbl, source, d);
      TouchedIsForgotten(x0, x, lbl, source, inserted, d);
    }
  }

  lemma UntouchedIsRestored(x0: Indices, x: Indices, lbl: string, source: Keyspace, inserted: seq<Keyspace>)
    requires Normal(x0) && Normal(x) && Tried(x0, x, lbl, source, inserted, []) && x.adjacency == x0.adjacency
    requires forall d | d in inserted :: !Touches(x0, lbl, source, d)
    ensures x == x0
  {
    assert inserted != [] ==> !Touches(x0, lbl, source, inserted[0]);
    SameEntries(x0.inLabels, x.inLabels);
    SameEntries(x0.outLabels, x.outLabels);
    SameEntries(x0.edgeList, x.edgeList);
  }

  lemma TouchedIsForgotten(x0: Indices, x: Indices, lbl: string, source: Keyspace, inserted: seq<Keyspace>, d: Keyspace)
    requires Tried(x0, x, lbl, source, inserted, []) && d in inserted && Touches(x0, lbl, source, d)
    ensures !Touches(x, lbl, source, d) && x != x0
  {
    assert NewEdge(source, inserted, BucketEdge(source, d));
  }

  /** Some destination is without a way back to the source, and the label touches its edge already. */
  ghost predicate Endangers(x0: Indices, lbl: string, source: Keyspace, destinations: set<Keyspace>) {
    exists d | d in destinations :: !FindsPath(GraphOf(x0.adjacency), d, source) && Touches(x0, lbl, source, d)
  }

  /** Only destinations without a way back are ever inserted. */
  lemma {:induction false} TriedHasNoWayBack(g: Graph, source: Keyspace, order: seq<Keyspace>, d: Keyspace)
    requires d in Tries(g, source, order)
    ensures d in order && !FindsPath(g, d, source)
    decreases order
  {
    if d != order[0] {
      var g' := g + {BucketEdge(source, order[0])};
      TriedHasNoWayBack(g', source, order[1..], d);
      if FindsPath(g, d, source) { ReachesMono(g, g', d, source); }
    }
  }

  /** An order that begins with a given destination. */
  lemma OrderFrom(destinations: set<Keyspace>, d: Keyspace) returns (order: seq<Keyspace>)
    requires d in destinations
    ensures OrderOf(order, destinations) && order != [] && order[0] == d
  {
    var rest := SomeOrder(destinations - {d});
    order := [d] + rest;
    assert multiset(destinations) == multiset{d} + multiset(destinations - {d});
  }

  /**
   The dry run restores every index, in whatever order the destinations are visited, if and only if the label
   touches no edge to a destination without a way back.
   */
  lemma DryRunRestores(x0: Indices, lbl: string, source: Keyspace, destinations: set<Keyspace>)
    ensures (forall order | OrderOf(order, destinations) ::
               forall d | d in Tries(GraphOf(x0.adjacency), source, order) :: !Touches(x0, lbl, source, d))
            <==> !Endangers(x0, lbl, source, destinations)
  {
    var g := GraphOf(x0.adjacency);
    if Endangers(x0, lbl, source, destinations) {
      var d :| d in destinations && !FindsPath(g, d, source) && Touches(x0, lbl, source, d);
      var order := OrderFrom(destinations, d);
      assert d in Tries(g, source, order);
    } else {
      forall order, d | OrderOf(order, destinations) && d in Tries(g, source, order) ensures !Touches(x0, lbl, source, d) {
        TriedHasNoWayBack(g, source, order, d);
        OrderMembers(order, destinations);
      }
    }
  }

  /** Checking a deployed function again, as it is, makes the indices forget it. */
  lemma RecheckForgets(x0: Indices, r: Registry, stale: set<string>, lbl: string)
    requires Agree(x0, r, stale) && Acyclic(GraphOf(x0.adjacency)) && lbl in r && lbl !in stale && r[lbl].destinations != {}
    ensures Endangers(x0, lbl, r[lbl].source, r[lbl].destinations)
  {
    var source, d :| source == r[lbl].source && d in r[lbl].destinations;
    GraphOfRegistry(x0, r, stale);
    assert BucketEdge(source, d) in EdgesOf(r);
    if FindsPath(GraphOf(x0.adjacency), d, source) { EdgeClosesCycle(GraphOf(x0.adjacency), source, d); }
    assert lbl in LabelsOutOf(r, source);
    assert UpTo(stale, At(x0.outLabels, source), LabelsOutOf(r, source));
    assert Touches(x0, lbl, source, d);
  }
}
