/** Walks and cycles in a directed graph of keyspaces. */
module Reachability {

  datatype Keyspace = Keyspace(bucket: string, scope: string, collection: string)

  datatype BucketEdge = BucketEdge(source: Keyspace, destination: Keyspace)

  type Graph = set<BucketEdge>

  ghost predicate Walk(g: Graph, p: seq<Keyspace>) {
    p != [] && forall i | 0 <= i < |p| - 1 :: BucketEdge(p[i], p[i + 1]) in g
  }

  ghost predicate WalkFromTo(g: Graph, p: seq<Keyspace>, u: Keyspace, v: Keyspace) {
    Walk(g, p) && p[0] == u && p[|p| - 1] == v
  }

  ghost predicate Reaches(g: Graph, u: Keyspace, v: Keyspace) {
    exists p :: WalkFromTo(g, p, u, v)
  }

  /** No walk of at least one edge comes back to where it started. */
  ghost predicate Acyclic(g: Graph) {
    forall p | Walk(g, p) && |p| > 1 :: p[0] != p[|p| - 1]
  }

  lemma ReachesSelf(g: Graph, u: Keyspace)
    ensures Reaches(g, u, u)
  {
    assert WalkFromTo(g, [u], u, u);
  }

  lemma ReachesEdge(g: Graph, u: Keyspace, v: Keyspace)
    requires BucketEdge(u, v) in g
    ensures Reaches(g, u, v)
  {
    assert WalkFromTo(g, [u, v], u, v);
  }

  lemma ReachesTrans(g: Graph, u: Keyspace, v: Keyspace, w: Keyspace)
    requires Reaches(g, u, v) && Reaches(g, v, w)
    ensures Reaches(g, u, w)
  {
    var p :| WalkFromTo(g, p, u, v);
    var q :| WalkFromTo(g, q, v, w);
    var r := p + q[1..];
    forall i | 0 <= i < |r| - 1 ensures BucketEdge(r[i], r[i + 1]) in g {
      if i >= |p| - 1 { assert r[i] == q[i - |p| + 1] && r[i + 1] == q[i - |p| + 2]; }
    }
    assert WalkFromTo(g, r, u, w);
  }

  lemma ReachesMono(g: Graph, h: Graph, u: Keyspace, v: Keyspace)
    requires g <= h && Reaches(g, u, v)
    ensures Reaches(h, u, v)
  {
    var p :| WalkFromTo(g, p, u, v);
    assert WalkFromTo(h, p, u, v);
  }

  lemma AcyclicMono(g: Graph, h: Graph)
    requires g <= h && Acyclic(h)
    ensures Acyclic(g)
  {
    forall p | Walk(g, p) && |p| > 1 ensures p[0] != p[|p| - 1] {
      assert Walk(h, p);
    }
  }

  lemma NoEdgesNoCycle(g: Graph)
    requires g == {}
    ensures Acyclic(g)
  {
    assert forall p | Walk(g, p) && |p| > 1 :: BucketEdge(p[0], p[1]) in g;
  }

  /** A walk never leaves a set of vertices that is closed under edges. */
  lemma {:induction false} ClosedUnderWalks(g: Graph, inside: set<Keyspace>, p: seq<Keyspace>)
    requires Walk(g, p) && p[0] in inside
    requires forall e | e in g && e.source in inside :: e.destination in inside
    ensures p[|p| - 1] in inside
  {
    if |p| > 1 {
      assert BucketEdge(p[0], p[1]) in g;
      assert Walk(g, p[1..]);
      ClosedUnderWalks(g, inside, p[1..]);
    }
  }

  /** A walk with one edge more either avoids the edge or can be split at it. */
  lemma {:induction false} SplitAtEdge(g: Graph, s: Keyspace, d: Keyspace, p: seq<Keyspace>)
    requires Walk(g + {BucketEdge(s, d)}, p)
    ensures Reaches(g, p[0], p[|p| - 1]) || (Reaches(g, p[0], s) && Reaches(g, d, p[|p| - 1]))
  {
    if |p| == 1 {
      ReachesSelf(g, p[0]);
    } else {
      assert Walk(g + {BucketEdge(s, d)}, p[1..]);
      SplitAtEdge(g, s, d, p[1..]);
      assert BucketEdge(p[0], p[1]) in g + {BucketEdge(s, d)};
      if BucketEdge(p[0], p[1]) in g {
        ReachesEdge(g, p[0], p[1]);
        if Reaches(g, p[1], p[|p| - 1]) { ReachesTrans(g, p[0], p[1], p[|p| - 1]); }
        else { ReachesTrans(g, p[0], p[1], s); }
      } else {
        ReachesSelf(g, s);
      }
    }
  }

  /** An edge back from a reachable vertex closes a cycle. */
  lemma EdgeClosesCycle(g: Graph, s: Keyspace, d: Keyspace)
    requires BucketEdge(s, d) in g && Reaches(g, d, s)
    ensures !Acyclic(g)
  {
    var p :| WalkFromTo(g, p, d, s);
    var q := [s] + p;
    assert Walk(g, q) && |q| > 1 && q[0] == q[|q| - 1];
  }

  /** Adding an edge to an acyclic graph closes a cycle exactly if there was a way back. */
  lemma AddEdgeAcyclic(g: Graph, s: Keyspace, d: Keyspace)
    requires Acyclic(g)
    ensures Acyclic(g + {BucketEdge(s, d)}) <==> !Reaches(g, d, s)
  {
    var h := g + {BucketEdge(s, d)};
    if Reaches(g, d, s) {
      ReachesMono(g, h, d, s);
      EdgeClosesCycle(h, s, d);
    } else {
      forall p | Walk(h, p) && |p| > 1 ensures p[0] != p[|p| - 1] {
        if p[0] == p[|p| - 1] { CycleNeedsWayBack(g, s, d, p); }
      }
    }
  }

  lemma CycleNeedsWayBack(g: Graph, s: Keyspace, d: Keyspace, p: seq<Keyspace>)
    requires Acyclic(g) && Walk(g + {BucketEdge(s, d)}, p) && |p| > 1 && p[0] == p[|p| - 1]
    ensures Reaches(g, d, s)
  {
    var x, y := p[0], p[1];
    assert Walk(g + {BucketEdge(s, d)}, p[1..]);
    SplitAtEdge(g, s, d, p[1..]);
    assert BucketEdge(x, y) in g + {BucketEdge(s, d)};
    if BucketEdge(x, y) in g {
      if Reaches(g, y, x) { EdgeClosesCycle(g, x, y); }
      ReachesEdge(g, x, y);
      ReachesTrans(g, d, x, y);
      ReachesTrans(g, d, y, s);
    }
  }
}
