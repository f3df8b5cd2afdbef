/**
 The directed multigraph that guards against recursion between functions
 (service_manager/bucket_graph.go): which function, reading from one keyspace,
 writes to which others.
 */
module BucketGraph {
  import opened Prelude
  import opened Reachability
  import opened BucketIndices
  import opened AcyclicInsert
  import opened DryRun

  class BucketMultiDiGraph {
    var adjacency: Adjacency
    var inLabels: map<Keyspace, set<string>>
    var outLabels: map<Keyspace, set<string>>
    var edgeList: map<BucketEdge, set<string>>
    var labelState: Registry
    /** Registered labels whose entries a dry run has deleted from the label indices. */
    ghost var stale: set<string>

    function Ix(): Indices
      reads this
    {
      Indices(adjacency, inLabels, outLabels, edgeList)
    }

    ghost predicate Valid()
      reads this
    {
      stale <= labelState.Keys && Agree(Ix(), labelState, stale)
    }

    ghost function Edges(): Graph
      reads this
    {
      GraphOf(adjacency)
    }

    constructor ()
      ensures Valid() && labelState == map[] && stale == {} && Edges() == {} && Acyclic(Edges())
    {
      adjacency, inLabels, outLabels, edgeList, labelState, stale := map[], map[], map[], map[], map[], {};
      NoEdgesNoCycle({});
    }

    method InsertEdge(lbl: string, source: Keyspace, destination: Keyspace)
      requires Normal(Ix())
      modifies this`adjacency, this`inLabels, this`outLabels, this`edgeList
      ensures Normal(Ix())
      ensures Inserted(old(Ix()), Ix(), lbl, BucketEdge(source, destination))
    {
      var edge := BucketEdge(source, destination);
      AdjacencyPlus(adjacency, edge);
      AtWithLabel(inLabels, destination, lbl);
      AtWithLabel(outLabels, source, lbl);
      AtWithLabel(edgeList, edge, lbl);
      var vertices := if source in adjacency then adjacency[source] else map[];
      vertices := vertices[destination := (if destination in vertices then vertices[destination] else 0) + 1];
      adjacency := adjacency[source := vertices];
      inLabels := inLabels[destination := At(inLabels, destination) + {lbl}];
      outLabels := outLabels[source := At(outLabels, source) + {lbl}];
      edgeList := edgeList[edge := At(edgeList, edge) + {lbl}];
    }

    method RemoveCount(edge: BucketEdge)
      requires NormalAdjacency(adjacency) && edge.source in adjacency && edge.destination in adjacency[edge.source]
      modifies this`adjacency
      ensures NormalAdjacency(adjacency)
      ensures forall f :: Count(adjacency, f) == Count(old(adjacency), f) - (if f == edge then 1 else 0)
    {
      AdjacencyMinus(adjacency, edge);
      var vertices := adjacency[edge.source][edge.destination := adjacency[edge.source][edge.destination] - 1];
      if vertices[edge.destination] == 0 {
        vertices := vertices - {edge.destination};
      }
      adjacency := if vertices == map[] then adjacency - {edge.source} else adjacency[edge.source := vertices];
    }

    method RemoveLabels(lbl: string, edge: BucketEdge)
      requires NoEmptyEntry(inLabels) && NoEmptyEntry(outLabels) && NoEmptyEntry(edgeList)
      modifies this`inLabels, this`outLabels, this`edgeList
      ensures NoEmptyEntry(inLabels) && NoEmptyEntry(outLabels) && NoEmptyEntry(edgeList)
      ensures forall k :: At(inLabels, k) == At(old(inLabels), k) - (if k == edge.destination then {lbl} else {})
      ensures forall k :: At(outLabels, k) == At(old(outLabels), k) - (if k == edge.source then {lbl} else {})
      ensures forall f :: At(edgeList, f) == At(old(edgeList), f) - (if f == edge then {lbl} else {})
    {
      AtWithoutLabel(inLabels, edge.destination, lbl);
      AtWithoutLabel(outLabels, edge.source, lbl);
      AtWithoutLabel(edgeList, edge, lbl);
      inLabels := if At(inLabels, edge.destination) - {lbl} == {} then inLabels - {edge.destination}
                  else inLabels[edge.destination := inLabels[edge.destination] - {lbl}];
      outLabels := if At(outLabels, edge.source) - {lbl} == {} then outLabels - {edge.source}
                   else outLabels[edge.source := outLabels[edge.source] - {lbl}];
      edgeList := if At(edgeList, edge) - {lbl} == {} then edgeList - {edge}
                  else edgeList[edge := edgeList[edge] - {lbl}];
    }

    method RemoveEdge(lbl: string, source: Keyspace, destination: Keyspace)
      requires Normal(Ix())
      modifies this`adjacency, this`inLabels, this`outLabels, this`edgeList
      ensures Normal(Ix())
      ensures Removed(old(Ix()), Ix(), lbl, BucketEdge(source, destination))
    {
      var edge := BucketEdge(source, destination);
      if source in adjacency && destination in adjacency[source] {
        assert Positive(adjacency[source]);
        RemoveCount(edge);
        RemoveLabels(lbl, edge);
      }
    }

    /** Rebuilds the walk to the destination from the parent map and names one label for each of its edges. */
    method GetPathFromParentMap(source: Keyspace, destination: Keyspace, parents: map<Keyspace, Keyspace>,
                                ghost found: seq<Keyspace>)
      returns (labels: seq<string>, ghost path: seq<Keyspace>)
      requires Ancestry(Edges(), source, parents, found) && found[|found| - 1] == destination
      ensures WalkFromTo(Edges(), path, source, destination)
      ensures Labelled(Edges(), edgeList) ==> LabelsAlong(edgeList, path, labels)
    {
      var st, currNode := [], destination;
      path := [destination];
      ghost var at := |found| - 1;
      while currNode != source
        invariant 0 <= at < |found| && found[at] == currNode
        invariant WalkFromTo(Edges(), path, currNode, destination)
        invariant |path| == |st| + 1 && forall i | 0 <= i < |st| :: st[i] == path[|st| - i]
        decreases at
      {
        st := st + [currNode];
        currNode := parents[currNode];
        ghost var before :| 0 <= before < at && found[before] == currNode;
        path, at := [currNode] + path, before;
      }
      labels := [];
      var from := source;
      while st != []
        invariant |st| < |path| && from == path[|path| - 1 - |st|]
        invariant forall i | 0 <= i < |st| :: st[i] == path[|path| - 1 - i]
        invariant Labelled(Edges(), edgeList) ==> LabelsAlong(edgeList, path[..|path| - |st|], labels)
      {
        var edge := BucketEdge(from, st[|st| - 1]);
        assert edge in Edges();
        if edge in edgeList && edgeList[edge] != {} {
          var lbl :| lbl in edgeList[edge];
          labels := labels + [lbl];
        }
        from := edge.destination;
        st := st[..|st| - 1];
      }
      assert path[..|path|] == path;
    }

    /** Pushes the unvisited children of a vertex and makes it their parent. */
    method PushChildren(vertex: Keyspace, visited: set<Keyspace>, st0: seq<Keyspace>, parents0: map<Keyspace, Keyspace>,
                        ghost source: Keyspace, ghost found: seq<Keyspace>)
      returns (st: seq<Keyspace>, parents: map<Keyspace, Keyspace>)
      requires visited == Members(found) && vertex in found
      requires Ancestry(Edges(), source, parents0, found) && Adoptable(Edges(), parents0, found, st0)
      ensures Grows(Edges(), vertex, visited, st0, st)
      ensures forall e | e in Edges() && e.source == vertex :: e.destination in visited || e.destination in st
      ensures Ancestry(Edges(), source, parents, found) && Adoptable(Edges(), parents, found, st)
    {
      st, parents := st0, parents0;
      var children := if vertex in adjacency then adjacency[vertex] else map[];
      var todo := children.Keys;
      while todo != {}
        invariant todo <= children.Keys
        invariant Grows(Edges(), vertex, visited, st0, st)
        invariant forall w | w in children.Keys - todo :: w in visited || w in st
        invariant Ancestry(Edges(), source, parents, found) && Adoptable(Edges(), parents, found, st)
      {
        var child :| child in todo;
        todo := todo - {child};
        if child !in visited {
          Adopt(Edges(), source, parents, found, st, child, vertex);
          st := st + [child];
          parents := parents[child := vertex];
        }
      }
    }

    /** Depth-first search. A vertex may be taken from the stack more than once. */
    method HasPath(source: Keyspace, destination: Keyspace)
      returns (reachable: bool, labels: seq<string>, ghost path: seq<Keyspace>)
      requires Normal(Ix())
      ensures reachable <==> FindsPath(Edges(), source, destination)
      ensures reachable ==> WalkFromTo(Edges(), path, source, destination)
      ensures reachable && Labelled(Edges(), edgeList) ==> LabelsAlong(edgeList, path, labels)
      ensures !reachable ==> labels == []
    {
      reachable, labels, path := false, [], [];
      if source !in adjacency {
        return;
      }
      SourceHasChild(adjacency, source);
      var st, visited, parents := [source], {}, map[];
      ghost var found: seq<Keyspace> := [];
      ghost var all := Vertices(Edges()) + {source};
      while st != []
        invariant Searching(Edges(), source, st, visited, parents, found)
        invariant Members(st) + visited <= all && destination !in visited
        decreases |all - visited|, Visits(st, visited)
      {
        ghost var st0, visited0 := st, visited;
        var vertex := st[|st| - 1];
        st := st[..|st| - 1];
        if vertex == destination {
          Reached(Edges(), source, st0, visited, parents, found);
          labels, path := GetPathFromParentMap(source, destination, parents, found + [vertex]);
          return true, labels, path;
        }
        Visited(Edges(), source, st0, visited, parents, found);
        found := if vertex in visited then found else found + [vertex];
        visited := visited + {vertex};
        ghost var st1 := st;
        st, parents := PushChildren(vertex, visited, st, parents, source, found);
        Resume(Edges(), source, vertex, visited0, visited, st1, st, parents, found);
        Progress(all, visited0, vertex, st0, st);
      }
      NothingFound(Edges(), source, destination, visited);
    }

    method RemoveEdges(lbl: string)
      requires Valid()
      modifies this
      ensures Valid() && labelState == old(labelState) - {lbl} && stale == old(stale) - {lbl}
    {
      if lbl !in labelState {
        return;
      }
      ghost var others := labelState - {lbl};
      var dependency := labelState[lbl];
      var todo := dependency.destinations;
      assert labelState == others[lbl := Dependency(dependency.source, todo)];
      AgreeMono(Ix(), labelState, stale, stale + {lbl});
      while todo != {}
        invariant Agree(Ix(), others[lbl := Dependency(dependency.source, todo)], stale + {lbl})
        invariant labelState == old(labelState) && stale == old(stale)
      {
        var dest :| dest in todo;
        ghost var before := Ix();
        RemoveEdge(lbl, dependency.source, dest);
        RemoveAgrees(before, Ix(), others, stale + {lbl}, lbl, dependency.source, todo, dest);
        todo := todo - {dest};
      }
      NoDestinations(Ix(), others, stale, lbl, dependency.source);
      labelState := labelState - {lbl};
      stale := stale - {lbl};
    }

    method InsertEdges(lbl: string, source: Keyspace, destinations: set<Keyspace>)
      requires Valid()
      modifies this
      ensures Valid() && labelState == old(labelState)[lbl := Dependency(source, destinations)]
      ensures stale == old(stale) - {lbl}
    {
      RemoveEdges(lbl);
      ghost var others := labelState;
      var todo := destinations;
      NoDestinations(Ix(), others, stale, lbl, source);
      assert destinations - todo == {};
      while todo != {}
        invariant todo <= destinations
        invariant Agree(Ix(), others[lbl := Dependency(source, destinations - todo)], stale)
        invariant labelState == others && stale == old(stale) - {lbl}
      {
        var dest :| dest in todo;
        ghost var before, done := Ix(), destinations - todo;
        InsertEdge(lbl, source, dest);
        InsertAgrees(before, Ix(), others, stale, lbl, source, done, dest);
        todo := todo - {dest};
        assert destinations - todo == done + {dest};
      }
      assert destinations - todo == destinations;
      labelState := labelState[lbl := Dependency(source, destinations)];
      assert labelState == others[lbl := Dependency(source, destinations)];
    }

    /** One round of the loop: a way back ends it, otherwise the edge is inserted. */
    method TryInsert(lbl: string, source: Keyspace, order: seq<Keyspace>, i: nat, ghost x0: Indices)
      returns (reachable: bool, labels: seq<string>, ghost path: seq<Keyspace>)
      requires i < |order| && Distinct(order) && Halfway(x0, Ix(), lbl, source, order[..i])
      modifies this`adjacency, this`inLabels, this`outLabels, this`edgeList
      ensures Halfway(x0, Ix(), lbl, source, if reachable then order[..i] else order[..i + 1])
      ensures reachable ==> Outcome(x0, lbl, source, order, false, labels, order[..i], path)
    {
      ghost var x := Ix();
      reachable, labels, path := HasPath(order[i], source);
      if reachable {
        Stopped(x0, x, lbl, source, order, i, path, labels);
      } else {
        InsertEdge(lbl, source, order[i]);
        GoesOn(x0, x, Ix(), lbl, source, order, i);
      }
    }

    /** Inserts one destination after the other until a way back to the source is found. */
    method TryInserts(lbl: string, source: Keyspace, order: seq<Keyspace>)
      returns (possible: bool, labels: seq<string>, inserted: seq<Keyspace>, ghost path: seq<Keyspace>)
      requires Normal(Ix()) && Distinct(order)
      modifies this`adjacency, this`inLabels, this`outLabels, this`edgeList
      ensures Halfway(old(Ix()), Ix(), lbl, source, inserted) && Distinct(inserted)
      ensures Outcome(old(Ix()), lbl, source, order, possible, labels, inserted, path)
    {
      ghost var x0 := Ix();
      NothingTried(x0, lbl, source);
      inserted := [];
      for i := 0 to |order|
        invariant inserted == order[..i] && Halfway(x0, Ix(), lbl, source, inserted)
      {
        var reachable;
        reachable, labels, path := TryInsert(lbl, source, order, i, x0);
        if reachable {
          return false, labels, inserted, path;
        }
        inserted := inserted + [order[i]];
      }
      assert order[..|order|] == order;
      Completed(x0, Ix(), lbl, source, order);
      return true, [], inserted, [];
    }

    /** Takes the inserted edges out again. */
    method Undo(lbl: string, source: Keyspace, inserted: seq<Keyspace>, ghost x0: Indices)
      requires Normal(x0) && Normal(Ix()) && Distinct(inserted) && Tried(x0, Ix(), lbl, source, [], inserted)
      modifies this`adjacency, this`inLabels, this`outLabels, this`edgeList
      ensures Normal(Ix()) && Tried(x0, Ix(), lbl, source, inserted, [])
    {
      for i := 0 to |inserted|
        invariant Normal(Ix()) && Tried(x0, Ix(), lbl, source, inserted[..i], inserted[i..])
      {
        ghost var before := Ix();
        assert inserted[i..] == [inserted[i]] + inserted[i + 1..];
        RemoveEdge(lbl, source, inserted[i]);
        TriedUndo(x0, before, Ix(), lbl, source, inserted[..i], inserted[i], inserted[i + 1..]);
        assert inserted[..i + 1] == inserted[..i] + [inserted[i]];
      }
      assert inserted[..|inserted|] == inserted;
    }

    /** Inserts and takes out again. */
    method InsertAndUndo(lbl: string, source: Keyspace, order: seq<Keyspace>)
      returns (possible: bool, labels: seq<string>, ghost inserted: seq<Keyspace>, ghost path: seq<Keyspace>)
      requires Normal(Ix()) && Distinct(order)
      modifies this`adjacency, this`inLabels, this`outLabels, this`edgeList
      ensures Normal(Ix()) && Tried(old(Ix()), Ix(), lbl, source, inserted, [])
      ensures Outcome(old(Ix()), lbl, source, order, possible, labels, inserted, path)
    {
      var tried;
      possible, labels, tried, path := TryInserts(lbl, source, order);
      Undo(lbl, source, tried, old(Ix()));
      inserted := tried;
    }

    /** The dry run, with the destinations in the order in which the map happens to give them. */
    method CheckInOrder(lbl: string, source: Keyspace, order: seq<Keyspace>)
      returns (possible: bool, labels: seq<string>, ghost path: seq<Keyspace>)
      requires Valid() && Distinct(order)
      modifies this
      ensures Outcome(old(Ix()), lbl, source, order, possible, labels, Tries(old(Edges()), source, order), path)
      ensures labelState == old(labelState) && adjacency == old(adjacency)
      ensures Valid() && stale == old(stale) + (if lbl in labelState then {lbl} else {})
      ensures lbl !in labelState ==> Ix() == old(Ix())
      ensures Ix() == old(Ix()) <==> forall d | d in Tries(old(Edges()), source, order) :: !Touches(old(Ix()), lbl, source, d)
    {
      ghost var inserted;
      possible, labels, inserted, path := InsertAndUndo(lbl, source, order);
      Restored(old(Ix()), Ix(), labelState, stale, lbl, source, inserted);
      UndoRestores(old(Ix()), Ix(), lbl, source, inserted);
      stale := stale + (if lbl in labelState then {lbl} else {});
    }

    /** The dry run: whether the new edges keep the graph acyclic, and if not, who would be on the cycle. */
    method IsAcyclicInsertPossible(lbl: string, source: Keyspace, destinations: set<Keyspace>)
      returns (possible: bool, labels: seq<string>, ghost order: seq<Keyspace>, ghost path: seq<Keyspace>)
      requires Valid()
      modifies this
      ensures OrderOf(order, destinations)
      ensures Outcome(old(Ix()), lbl, source, order, possible, labels, Tries(old(Edges()), source, order), path)
      ensures labelState == old(labelState) && adjacency == old(adjacency)
      ensures Valid() && stale == old(stale) + (if lbl in labelState then {lbl} else {})
      ensures lbl !in labelState ==> Ix() == old(Ix())
      ensures !Endangers(old(Ix()), lbl, source, destinations) ==> Ix() == old(Ix())
    {
      var visited := AnyOrder(destinations);
      order := visited;
      DryRunRestores(Ix(), lbl, source, destinations);
      possible, labels, path := CheckInOrder(lbl, source, visited);
    }

    /** Checks a function that is to be deployed, and enters it if the check allows it. */
    method Deploy(lbl: string, source: Keyspace, destinations: set<Keyspace>) returns (possible: bool)
      requires Valid()
      modifies this
      ensures Valid()
      ensures labelState == if possible then old(labelState)[lbl := Dependency(source, destinations)] else old(labelState)
      ensures stale == if possible then old(stale) - {lbl} else old(stale) + (if lbl in old(labelState) then {lbl} else {})
      ensures Acyclic(old(Edges())) && Decidable(old(Edges()), source, destinations) ==>
                && Acyclic(Edges())
                && possible == Acyclic(old(Edges()) + NewEdges(source, destinations))
    {
      ghost var labels, order, path;
      GraphOfRegistry(Ix(), labelState, stale);
      possible, labels, order, path := IsAcyclicInsertPossible(lbl, source, destinations);
      if possible {
        InsertEdges(lbl, source, destinations);
      }
      GraphOfRegistry(Ix(), labelState, stale);
      if Acyclic(old(Edges())) && Decidable(old(Edges()), source, destinations) {
        DecidableIsExact(old(Edges()), source, destinations, order);
        if possible { DeployedEdges(old(labelState), lbl, source, destinations); }
      }
    }

    /** Any sequence of deployments and undeployments. */
    method Serve(requests: seq<Request>)
      requires Valid() && Acyclic(Edges())
      requires forall q | q in requests && q.Deploy? :: q.source !in q.destinations
      modifies this
      ensures Valid() && Acyclic(Edges())
      ensures labelState.Keys <= old(labelState.Keys) + set q | q in requests :: q.name
    {
      for i := 0 to |requests|
        invariant Valid() && Acyclic(Edges())
        invariant labelState.Keys <= old(labelState.Keys) + set q | q in requests :: q.name
      {
        var q := requests[i];
        match q
        case Deploy(name, source, destinations) =>
          var possible := Deploy(name, source, destinations);
        case Undeploy(name) =>
          ghost var g := Edges();
          GraphOfRegistry(Ix(), labelState, stale);
          RemoveEdges(name);
          GraphOfRegistry(Ix(), labelState, stale);
          AcyclicMono(Edges(), g);
      }
    }
  }

  lemma OneEdgeNoCycle(a: Keyspace, b: Keyspace)
    requires a != b
    ensures Acyclic({} + NewEdges(a, {b}))
  {
    NoEdgesNoCycle({});
    assert {} + NewEdges(a, {b}) == {} + {BucketEdge(a, b)};
    NothingFound({}, b, a, {b});
    AddEdgeAcyclic({}, a, b);
  }

  /** A function that is checked again after its deployment: the dry run is over, but the indices are not as before. */
  method DryRunForgetsLabel() returns (g: BucketMultiDiGraph, ghost before: Indices)
    ensures g.Valid() && "f" in g.labelState && g.adjacency == before.adjacency && g.Ix() != before
  {
    var a, b := Keyspace("a", "", ""), Keyspace("b", "", "");
    assert a.bucket[0] != b.bucket[0];
    g := new BucketMultiDiGraph();
    OneEdgeNoCycle(a, b);
    var possible := g.Deploy("f", a, {b});
    before := g.Ix();
    RecheckForgets(before, g.labelState, g.stale, "f");
    ghost var labels, path;
    possible, labels, path := g.CheckInOrder("f", a, [b]);
    assert Tries(GraphOf(before.adjacency), a, [b])[0] == b;
  }

  datatype Request =
    | Deploy(name: string, source: Keyspace, destinations: set<Keyspace>)
    | Undeploy(name: string)

  /** Deploying under a label that is in use replaces its edges, so the graph may also lose some. */
  lemma DeployedEdges(r: Registry, lbl: string, source: Keyspace, destinations: set<Keyspace>)
    requires Acyclic(EdgesOf(r) + NewEdges(source, destinations))
    ensures Acyclic(EdgesOf(r[lbl := Dependency(source, destinations)]))
  {
    AcyclicMono(EdgesOf(r[lbl := Dependency(source, destinations)]), EdgesOf(r) + NewEdges(source, destinations));
  }

  // ---- Ingredients of the search ------------------------------------------

  /** Every vertex found after the source has a parent that was found before it. */
  ghost predicate Ancestry(g: Graph, source: Keyspace, parents: map<Keyspace, Keyspace>, found: seq<Keyspace>) {
    && found != [] && found[0] == source
    && forall i | 1 <= i < |found| :: Adopted(g, parents, found[..i], found[i])
  }

  ghost predicate Adopted(g: Graph, parents: map<Keyspace, Keyspace>, found: seq<Keyspace>, w: Keyspace) {
    w in parents && parents[w] in found && BucketEdge(parents[w], w) in g
  }

  ghost function Vertices(g: Graph): set<Keyspace> {
    (set e | e in g :: e.source) + (set e | e in g :: e.destination)
  }

  /** How many entries of the stack have been visited already. */
  ghost function Visits(st: seq<Keyspace>, visited: set<Keyspace>): nat {
    if st == [] then 0
    else Visits(st[..|st| - 1], visited) + (if st[|st| - 1] in visited then 1 else 0)
  }

  ghost predicate Adoptable(g: Graph, parents: map<Keyspace, Keyspace>, found: seq<Keyspace>, st: seq<Keyspace>) {
    forall w | w in st && w !in found :: Adopted(g, parents, found, w)
  }

  ghost predicate Explored(g: Graph, visited: set<Keyspace>, st: seq<Keyspace>) {
    forall e | e in g && e.source in visited :: e.destination in visited || e.destination in st
  }

  ghost predicate Searching(g: Graph, source: Keyspace, st: seq<Keyspace>, visited: set<Keyspace>,
                            parents: map<Keyspace, Keyspace>, found: seq<Keyspace>) {
    && visited == Members(found)
    && (found == [] ==> st == [source])
    && (found != [] ==> Ancestry(g, source, parents, found) && Adoptable(g, parents, found, st))
    && Explored(g, visited, st)
  }

  /** The stack has grown by unvisited children. */
  ghost predicate Grows(g: Graph, vertex: Keyspace, visited: set<Keyspace>, st: seq<Keyspace>, st': seq<Keyspace>) {
    && |st| <= |st'| && st'[..|st|] == st
    && forall i | |st| <= i < |st'| :: st'[i] !in visited && BucketEdge(vertex, st'[i]) in g
  }

  lemma SourceHasChild(a: Adjacency, source: Keyspace)
    requires NormalAdjacency(a) && source in a
    ensures Outgoing(GraphOf(a), source)
  {
    assert a[source].Keys != {};
    var d :| d in a[source];
    assert BucketEdge(source, d) in GraphOf(a);
  }

  lemma AncestryGrows(g: Graph, source: Keyspace, parents: map<Keyspace, Keyspace>, found: seq<Keyspace>, w: Keyspace)
    requires Ancestry(g, source, parents, found) && Adopted(g, parents, found, w)
    ensures Ancestry(g, source, parents, found + [w])
  {
    var longer := found + [w];
    forall i | 1 <= i < |longer| ensures Adopted(g, parents, longer[..i], longer[i]) {
      assert longer[..i] == found[..i];
    }
  }

  lemma Adopt(g: Graph, source: Keyspace, parents: map<Keyspace, Keyspace>, found: seq<Keyspace>, st: seq<Keyspace>,
              child: Keyspace, vertex: Keyspace)
    requires Ancestry(g, source, parents, found) && Adoptable(g, parents, found, st)
    requires child !in found && vertex in found && BucketEdge(vertex, child) in g
    ensures Ancestry(g, source, parents[child := vertex], found)
    ensures Adoptable(g, parents[child := vertex], found, st + [child])
  {
    forall i | 1 <= i < |found| ensures Adopted(g, parents[child := vertex], found[..i], found[i]) {
      assert Adopted(g, parents, found[..i], found[i]);
    }
  }

  /** The vertex taken from the stack has an ancestry of its own. */
  lemma Reached(g: Graph, source: Keyspace, st: seq<Keyspace>, visited: set<Keyspace>,
                parents: map<Keyspace, Keyspace>, found: seq<Keyspace>)
    requires Searching(g, source, st, visited, parents, found) && st != [] && st[|st| - 1] !in visited
    ensures Ancestry(g, source, parents, found + [st[|st| - 1]])
  {
    if found != [] { AncestryGrows(g, source, parents, found, st[|st| - 1]); }
  }

  /** Marking the vertex as visited. */
  lemma Visited(g: Graph, source: Keyspace, st: seq<Keyspace>, visited: set<Keyspace>,
                parents: map<Keyspace, Keyspace>, found: seq<Keyspace>)
    requires Searching(g, source, st, visited, parents, found) && st != []
    ensures var vertex, rest := st[|st| - 1], st[..|st| - 1];
            var found' := if vertex in visited then found else found + [vertex];
            && Members(found') == visited + {vertex}
            && Ancestry(g, source, parents, found') && Adoptable(g, parents, found', rest)
            && forall e | e in g && e.source in visited :: e.destination in visited + {vertex} || e.destination in rest
  {
    var vertex := st[|st| - 1];
    if vertex !in visited { Reached(g, source, st, visited, parents, found); }
  }

  lemma Pushed(g: Graph, vertex: Keyspace, visited: set<Keyspace>, st: seq<Keyspace>, st': seq<Keyspace>)
    requires Grows(g, vertex, visited, st, st')
    ensures Visits(st', visited) == Visits(st, visited)
    ensures forall w | w in st :: w in st'
    ensures forall w | w in st' && w !in st :: w in Vertices(g)
    decreases |st'|
  {
    if |st'| == |st| {
      assert st' == st;
    } else {
      assert st'[..|st'| - 1][..|st|] == st;
      Pushed(g, vertex, visited, st, st'[..|st'| - 1]);
    }
  }

  /** The search goes on. */
  lemma Resume(g: Graph, source: Keyspace, vertex: Keyspace, visited0: set<Keyspace>, visited: set<Keyspace>, st: seq<Keyspace>,
               st': seq<Keyspace>, parents: map<Keyspace, Keyspace>, found: seq<Keyspace>)
    requires visited == Members(found) == visited0 + {vertex} && Grows(g, vertex, visited, st, st')
    requires forall e | e in g && e.source in visited0 :: e.destination in visited || e.destination in st
    requires forall e | e in g && e.source == vertex :: e.destination in visited || e.destination in st'
    requires Ancestry(g, source, parents, found) && Adoptable(g, parents, found, st')
    ensures Searching(g, source, st', visited, parents, found)
    ensures Members(st') <= Members(st) + Vertices(g) && Visits(st', visited) == Visits(st, visited)
  {
    Pushed(g, vertex, visited, st, st');
  }

  /** Either a new vertex has been visited or the stack holds one visited entry less. */
  lemma Progress(all: set<Keyspace>, visited: set<Keyspace>, vertex: Keyspace, st: seq<Keyspace>, st': seq<Keyspace>)
    requires st != [] && st[|st| - 1] == vertex && vertex in all
    requires Visits(st', visited + {vertex}) == Visits(st[..|st| - 1], visited + {vertex})
    ensures vertex !in visited ==> |all - (visited + {vertex})| < |all - visited|
    ensures vertex in visited ==> visited + {vertex} == visited && Visits(st', visited) < Visits(st, visited)
  {
    if vertex in visited {
      assert visited + {vertex} == visited;
    } else {
      assert all - visited == (all - (visited + {vertex})) + {vertex};
    }
  }

  lemma NothingFound(g: Graph, source: Keyspace, destination: Keyspace, visited: set<Keyspace>)
    requires source in visited && destination !in visited && Explored(g, visited, [])
    ensures !Reaches(g, source, destination)
  {
    forall p | WalkFromTo(g, p, source, destination) ensures false { ClosedUnderWalks(g, visited, p); }
  }
}
