/**
 The decision of isAcyclicInsertPossible on the edges alone, for every order in
 which the destinations may be visited.
 */
module AcyclicInsert {
  import opened Prelude
  import opened Reachability

  ghost predicate Outgoing(g: Graph, u: Keyspace) {
    exists e :: e in g && e.source == u
  }

  /** What hasPath answers: a vertex without outgoing edges reaches nothing, not even itself. */
  ghost predicate FindsPath(g: Graph, u: Keyspace, v: Keyspace) {
    Outgoing(g, u) && Reaches(g, u, v)
  }

  function NewEdges(source: Keyspace, destinations: set<Keyspace>): Graph {
    set d | d in destinations :: BucketEdge(source, d)
  }

  /** The loop of isAcyclicInsertPossible, each edge being inserted before the next search. */
  ghost predicate Check(g: Graph, source: Keyspace, order: seq<Keyspace>)
    decreases order
  {
    order == [] ||
    (!FindsPath(g, order[0], source) && Check(g + {BucketEdge(source, order[0])}, source, order[1..]))
  }

  ghost predicate OrderOf(order: seq<Keyspace>, destinations: set<Keyspace>) {
    multiset(order) == multiset(destinations)
  }

  lemma OrderMembers(order: seq<Keyspace>, destinations: set<Keyspace>)
    requires OrderOf(order, destinations)
    ensures forall d :: d in order <==> d in destinations
  {
    assert forall d :: d in order <==> d in multiset(order);
  }

  lemma WayBackIsFound(g: Graph, d: Keyspace, source: Keyspace)
    requires d != source
    ensures FindsPath(g, d, source) <==> Reaches(g, d, source)
  {
    if Reaches(g, d, source) {
      var p :| WalkFromTo(g, p, d, source);
      assert BucketEdge(p[0], p[1]) in g;
    }
  }

  lemma SelfLoopIsCycle(g: Graph, u: Keyspace)
    requires BucketEdge(u, u) in g
    ensures !Acyclic(g)
  {
    assert Walk(g, [u, u]);
  }

  /** The check answers exactly whether all the new edges together keep the graph acyclic. */
  lemma {:induction false} CheckIsExact(g: Graph, source: Keyspace, order: seq<Keyspace>)
    requires Acyclic(g) && (source !in order || Outgoing(g, source))
    ensures Check(g, source, order) <==> Acyclic(g + NewEdges(source, Members(order)))
    decreases order
  {
    if order == [] {
      assert g + NewEdges(source, Members(order)) == g;
    } else {
      var d, rest := order[0], order[1..];
      var g' := g + {BucketEdge(source, d)};
      assert Members(order) == {d} + Members(rest);
      assert g + NewEdges(source, Members(order)) == g' + NewEdges(source, Members(rest));
      if d == source {
        ReachesSelf(g, d);
        SelfLoopIsCycle(g + NewEdges(source, Members(order)), d);
      } else {
        WayBackIsFound(g, d, source);
        AddEdgeAcyclic(g, source, d);
        if Reaches(g, d, source) {
          if Acyclic(g + NewEdges(source, Members(order))) { AcyclicMono(g', g + NewEdges(source, Members(order))); }
        } else {
          assert BucketEdge(source, d) in g' && Outgoing(g', source);
          CheckIsExact(g', source, rest);
        }
      }
    }
  }

  /** A destination with a way back is found, whatever was inserted before it. */
  lemma {:induction false} WayBackFails(g: Graph, source: Keyspace, order: seq<Keyspace>, d: Keyspace)
    requires d in order && d != source && Reaches(g, d, source)
    ensures !Check(g, source, order)
    decreases order
  {
    if order[0] == d {
      WayBackIsFound(g, d, source);
    } else {
      var g' := g + {BucketEdge(source, order[0])};
      ReachesMono(g, g', d, source);
      WayBackFails(g', source, order[1..], d);
    }
  }

  /** Without a way back nothing is found. */
  lemma {:induction false} NoWayBackPasses(g: Graph, source: Keyspace, order: seq<Keyspace>)
    requires forall d | d in order :: d != source && !Reaches(g, d, source)
    ensures Check(g, source, order)
    decreases order
  {
    if order != [] {
      var g' := g + {BucketEdge(source, order[0])};
      forall d | d in order[1..] ensures d != source && !Reaches(g', d, source) {
        assert d in order;
        NewEdgeIsNoWayBack(g, source, order[0], d);
      }
      NoWayBackPasses(g', source, order[1..]);
    }
  }

  lemma NewEdgeIsNoWayBack(g: Graph, source: Keyspace, x: Keyspace, d: Keyspace)
    requires !Reaches(g, d, source)
    ensures !Reaches(g + {BucketEdge(source, x)}, d, source)
  {
    var g' := g + {BucketEdge(source, x)};
    forall p | WalkFromTo(g', p, d, source) ensures false { SplitAtEdge(g, source, x, p); }
  }

  lemma {:induction false} SomeOrder(destinations: set<Keyspace>) returns (order: seq<Keyspace>)
    ensures OrderOf(order, destinations)
    decreases |destinations|
  {
    if destinations == {} {
      order := [];
    } else {
      var d :| d in destinations;
      var rest := SomeOrder(destinations - {d});
      order := [d] + rest;
      assert destinations == {d} + (destinations - {d});
      assert multiset(destinations) == multiset{d} + multiset(destinations - {d});
    }
  }

  /** When the answer is right for every order of the destinations. */
  ghost predicate Decidable(g: Graph, source: Keyspace, destinations: set<Keyspace>) {
    || source !in destinations
    || Outgoing(g, source)
    || exists d | d in destinations :: d != source && Reaches(g, d, source)
  }

  lemma DecidableIsExact(g: Graph, source: Keyspace, destinations: set<Keyspace>, order: seq<Keyspace>)
    requires Acyclic(g) && Decidable(g, source, destinations) && OrderOf(order, destinations)
    ensures Check(g, source, order) <==> Acyclic(g + NewEdges(source, destinations))
  {
    OrderMembers(order, destinations);
    assert Members(order) == destinations;
    if source !in destinations || Outgoing(g, source) {
      CheckIsExact(g, source, order);
    } else {
      var d :| d in destinations && d != source && Reaches(g, d, source);
      WayBackFails(g, source, order, d);
      SelfLoopIsCycle(g + NewEdges(source, destinations), source);
    }
  }

  /** An order for which the check overlooks a self-loop. */
  lemma OverlooksSelfLoop(g: Graph, source: Keyspace, destinations: set<Keyspace>) returns (order: seq<Keyspace>)
    requires !Decidable(g, source, destinations)
    ensures OrderOf(order, destinations)
    ensures Check(g, source, order) && !Acyclic(g + NewEdges(source, destinations))
  {
    var rest := SomeOrder(destinations - {source});
    OrderMembers(rest, destinations - {source});
    order := [source] + rest;
    assert multiset(destinations) == multiset{source} + multiset(destinations - {source});
    var g' := g + {BucketEdge(source, source)};
    forall d | d in rest ensures d != source && !Reaches(g', d, source) {
      NewEdgeIsNoWayBack(g, source, source, d);
    }
    NoWayBackPasses(g', source, rest);
    assert order[1..] == rest;
    SelfLoopIsCycle(g + NewEdges(source, destinations), source);
  }

  /**
   On an acyclic graph the check is exact for every order of the destinations if and only
   if the source is not a destination, or has an outgoing edge, or is reachable from another destination.
   */
  lemma CheckExactness(g: Graph, source: Keyspace, destinations: set<Keyspace>)
    requires Acyclic(g)
    ensures (forall order | OrderOf(order, destinations) ::
               Check(g, source, order) <==> Acyclic(g + NewEdges(source, destinations)))
            <==> Decidable(g, source, destinations)
  {
    if Decidable(g, source, destinations) {
      forall order | OrderOf(order, destinations)
        ensures Check(g, source, order) <==> Acyclic(g + NewEdges(source, destinations))
      {
        DecidableIsExact(g, source, destinations, order);
      }
    } else {
      var order := OverlooksSelfLoop(g, source, destinations);
    }
  }
}
