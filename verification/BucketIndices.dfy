/**
 The indices of the bucket graph as values, and what it means for them to agree
 with the registered functions (service_manager/bucket_graph.go).
 */
module BucketIndices {
  import opened Reachability

  type Adjacency = map<Keyspace, map<Keyspace, int>>

  datatype Dependency = Dependency(source: Keyspace, destinations: set<Keyspace>)

  type Registry = map<string, Dependency>

  /** The four indices that insertEdge and removeEdge maintain. */
  datatype Indices = Indices(
    adjacency: Adjacency,
    inLabels: map<Keyspace, set<string>>,
    outLabels: map<Keyspace, set<string>>,
    edgeList: map<BucketEdge, set<string>>)

  function Count(a: Adjacency, e: BucketEdge): int {
    if e.source in a && e.destination in a[e.source] then a[e.source][e.destination] else 0
  }

  function At<K>(m: map<K, set<string>>, k: K): set<string> {
    if k in m then m[k] else {}
  }

  predicate NoEmptyEntry<K>(m: map<K, set<string>>) {
    forall k | k in m :: m[k] != {}
  }

  predicate Positive(children: map<Keyspace, int>) {
    forall v | v in children :: children[v] > 0
  }

  predicate NormalAdjacency(a: Adjacency) {
    forall u | u in a :: a[u] != map[] && Positive(a[u])
  }

  /** No empty entries remain, and every count is positive. */
  predicate Normal(x: Indices) {
    && NormalAdjacency(x.adjacency)
    && NoEmptyEntry(x.inLabels) && NoEmptyEntry(x.outLabels) && NoEmptyEntry(x.edgeList)
  }

  /** The edges of the adjacency list, without their multiplicities. */
  function GraphOf(a: Adjacency): (g: Graph)
    ensures forall e :: e in g <==> e.source in a && e.destination in a[e.source]
  {
    set u, v | u in a && v in a[u] :: BucketEdge(u, v)
  }

  // ---- One edge more, one edge less --------------------------------------

  ghost predicate Inserted(x: Indices, x': Indices, lbl: string, e: BucketEdge) {
    && (forall f :: Count(x'.adjacency, f) == Count(x.adjacency, f) + (if f == e then 1 else 0))
    && (forall k :: At(x'.inLabels, k) == At(x.inLabels, k) + (if k == e.destination then {lbl} else {}))
    && (forall k :: At(x'.outLabels, k) == At(x.outLabels, k) + (if k == e.source then {lbl} else {}))
    && (forall f :: At(x'.edgeList, f) == At(x.edgeList, f) + (if f == e then {lbl} else {}))
  }

  ghost predicate Removed(x: Indices, x': Indices, lbl: string, e: BucketEdge) {
    if Count(x.adjacency, e) == 0 then x' == x
    else
      && (forall f :: Count(x'.adjacency, f) == Count(x.adjacency, f) - (if f == e then 1 else 0))
      && (forall k :: At(x'.inLabels, k) == At(x.inLabels, k) - (if k == e.destination then {lbl} else {}))
      && (forall k :: At(x'.outLabels, k) == At(x.outLabels, k) - (if k == e.source then {lbl} else {}))
      && (forall f :: At(x'.edgeList, f) == At(x.edgeList, f) - (if f == e then {lbl} else {}))
  }

  /** The children of one vertex are replaced; an empty entry is dropped. */
  function WithChildren(a: Adjacency, u: Keyspace, children: map<Keyspace, int>): Adjacency {
    if children == map[] then a - {u} else a[u := children]
  }

  lemma CountWithChildren(a: Adjacency, u: Keyspace, children: map<Keyspace, int>, f: BucketEdge)
    ensures Count(WithChildren(a, u, children), f) ==
            if f.source != u then Count(a, f)
            else if f.destination in children then children[f.destination] else 0
  {}

  function WithLabel<K>(m: map<K, set<string>>, k: K, lbl: string): map<K, set<string>> {
    m[k := At(m, k) + {lbl}]
  }

  /** Deleting a label, and the entry if it becomes empty. */
  function WithoutLabel<K>(m: map<K, set<string>>, k: K, lbl: string): map<K, set<string>> {
    if At(m, k) - {lbl} == {} then m - {k} else m[k := m[k] - {lbl}]
  }

  lemma AtWithLabel<K(!new)>(m: map<K, set<string>>, k: K, lbl: string)
    requires NoEmptyEntry(m)
    ensures NoEmptyEntry(WithLabel(m, k, lbl))
    ensures forall j: K :: At(WithLabel(m, k, lbl), j) == At(m, j) + (if j == k then {lbl} else {})
  {
    assert lbl in WithLabel(m, k, lbl)[k];
  }

  lemma AtWithoutLabel<K(!new)>(m: map<K, set<string>>, k: K, lbl: string)
    requires NoEmptyEntry(m)
    ensures NoEmptyEntry(WithoutLabel(m, k, lbl))
    ensures forall j: K :: At(WithoutLabel(m, k, lbl), j) == At(m, j) - (if j == k then {lbl} else {})
  {}

  /** The children of a vertex after one edge has been added. */
  function ChildrenPlus(a: Adjacency, e: BucketEdge): map<Keyspace, int> {
    (if e.source in a then a[e.source] else map[])[e.destination := Count(a, e) + 1]
  }

  lemma AdjacencyPlus(a: Adjacency, e: BucketEdge)
    requires NormalAdjacency(a)
    ensures var a' := a[e.source := ChildrenPlus(a, e)];
            NormalAdjacency(a') && forall f :: Count(a', f) == Count(a, f) + (if f == e then 1 else 0)
  {
    var a' := a[e.source := ChildrenPlus(a, e)];
    assert e.destination in ChildrenPlus(a, e);
    forall u | u in a' ensures a'[u] != map[] && Positive(a'[u]) {
      if u == e.source && u in a { assert Positive(a[u]); }
    }
  }

  /** The children of a vertex after one edge has been taken away. */
  function ChildrenMinus(a: Adjacency, e: BucketEdge): map<Keyspace, int>
    requires e.source in a && e.destination in a[e.source]
  {
    var vertices := a[e.source][e.destination := Count(a, e) - 1];
    if vertices[e.destination] == 0 then vertices - {e.destination} else vertices
  }

  lemma AdjacencyMinus(a: Adjacency, e: BucketEdge)
    requires NormalAdjacency(a) && e.source in a && e.destination in a[e.source]
    ensures var a' := WithChildren(a, e.source, ChildrenMinus(a, e));
            NormalAdjacency(a') && forall f :: Count(a', f) == Count(a, f) - (if f == e then 1 else 0)
  {
    var c := ChildrenMinus(a, e);
    assert Positive(a[e.source]);
    forall f ensures Count(WithChildren(a, e.source, c), f) == Count(a, f) - (if f == e then 1 else 0) {
      CountWithChildren(a, e.source, c, f);
    }
  }

  // ---- Agreement with the registry ---------------------------------------

  function LabelsOn(r: Registry, e: BucketEdge): set<string> {
    set l | l in r && r[l].source == e.source && e.destination in r[l].destinations
  }

  function LabelsInto(r: Registry, k: Keyspace): set<string> {
    set l | l in r && k in r[l].destinations
  }

  function LabelsOutOf(r: Registry, k: Keyspace): set<string> {
    set l | l in r && r[l].source == k && r[l].destinations != {}
  }

  /** The set holds no label that it should not, and all that are not stale. */
  predicate UpTo(stale: set<string>, have: set<string>, want: set<string>) {
    have <= want && want - stale <= have
  }

  ghost predicate CountsAgree(a: Adjacency, r: Registry) {
    forall e :: Count(a, e) == |LabelsOn(r, e)|
  }

  ghost predicate IntoAgree(m: map<Keyspace, set<string>>, r: Registry, stale: set<string>) {
    forall k :: UpTo(stale, At(m, k), LabelsInto(r, k))
  }

  ghost predicate OutOfAgree(m: map<Keyspace, set<string>>, r: Registry, stale: set<string>) {
    forall k :: UpTo(stale, At(m, k), LabelsOutOf(r, k))
  }

  ghost predicate EdgesAgree(m: map<BucketEdge, set<string>>, r: Registry, stale: set<string>) {
    forall e :: UpTo(stale, At(m, e), LabelsOn(r, e))
  }

  /**
   The adjacency count of every edge is the number of its labels, and the label
   indices are those derived from the registry, except that stale labels may
   be missing from them.
   */
  ghost predicate Agree(x: Indices, r: Registry, stale: set<string>) {
    && Normal(x)
    && CountsAgree(x.adjacency, r)
    && IntoAgree(x.inLabels, r, stale) && OutOfAgree(x.outLabels, r, stale) && EdgesAgree(x.edgeList, r, stale)
  }

  /** What the registry gains when a label gets one more destination. */
  lemma OneMoreDestination(r: Registry, lbl: string, source: Keyspace, done: set<Keyspace>, d: Keyspace)
    requires d !in done
    ensures var r0, r1 := r[lbl := Dependency(source, done)], r[lbl := Dependency(source, done + {d})];
            && (forall e :: LabelsOn(r1, e) == LabelsOn(r0, e) + (if e == BucketEdge(source, d) then {lbl} else {}))
            && lbl !in LabelsOn(r0, BucketEdge(source, d))
            && (forall k :: LabelsInto(r1, k) == LabelsInto(r0, k) + (if k == d then {lbl} else {}))
            && (forall k :: LabelsOutOf(r1, k) == LabelsOutOf(r0, k) + (if k == source then {lbl} else {}))
  {}

  lemma CountsInsert(a: Adjacency, a': Adjacency, r: Registry, r': Registry, lbl: string, e: BucketEdge)
    requires CountsAgree(a, r) && lbl !in LabelsOn(r, e)
    requires forall f :: Count(a', f) == Count(a, f) + (if f == e then 1 else 0)
    requires forall f :: LabelsOn(r', f) == LabelsOn(r, f) + (if f == e then {lbl} else {})
    ensures CountsAgree(a', r')
  {
    forall f ensures Count(a', f) == |LabelsOn(r', f)| {
      assert Count(a, f) == |LabelsOn(r, f)|;
    }
  }

  lemma UpToWith(stale: set<string>, have: set<string>, want: set<string>, lbl: string, touched: bool)
    requires UpTo(stale, have, want)
    ensures var more := if touched then {lbl} else {}; UpTo(stale, have + more, want + more)
  {}

  /** Registering one more destination of a label. */
  lemma InsertAgrees(x: Indices, x': Indices, r: Registry, stale: set<string>, lbl: string, source: Keyspace,
                     done: set<Keyspace>, d: Keyspace)
    requires Agree(x, r[lbl := Dependency(source, done)], stale) && d !in done
    requires Inserted(x, x', lbl, BucketEdge(source, d)) && Normal(x')
    ensures Agree(x', r[lbl := Dependency(source, done + {d})], stale)
  {
    var r0, r1, e := r[lbl := Dependency(source, done)], r[lbl := Dependency(source, done + {d})], BucketEdge(source, d);
    OneMoreDestination(r, lbl, source, done, d);
    CountsInsert(x.adjacency, x'.adjacency, r0, r1, lbl, e);
    forall k ensures UpTo(stale, At(x'.inLabels, k), LabelsInto(r1, k)) {
      UpToWith(stale, At(x.inLabels, k), LabelsInto(r0, k), lbl, k == d);
    }
    forall k ensures UpTo(stale, At(x'.outLabels, k), LabelsOutOf(r1, k)) {
      UpToWith(stale, At(x.outLabels, k), LabelsOutOf(r0, k), lbl, k == source);
    }
    forall f ensures UpTo(stale, At(x'.edgeList, f), LabelsOn(r1, f)) {
      UpToWith(stale, At(x.edgeList, f), LabelsOn(r0, f), lbl, f == e);
    }
  }

  lemma CountsRemove(a: Adjacency, a': Adjacency, r: Registry, r': Registry, lbl: string, e: BucketEdge)
    requires CountsAgree(a, r) && lbl !in LabelsOn(r', e)
    requires forall f :: Count(a', f) == Count(a, f) - (if f == e then 1 else 0)
    requires forall f :: LabelsOn(r, f) == LabelsOn(r', f) + (if f == e then {lbl} else {})
    ensures CountsAgree(a', r')
  {
    forall f ensures Count(a', f) == |LabelsOn(r', f)| {
      assert Count(a, f) == |LabelsOn(r, f)|;
    }
  }

  lemma UpToWithout(stale: set<string>, have: set<string>, want: set<string>, want': set<string>, lbl: string, touched: bool)
    requires UpTo(stale, have, want) && lbl in stale && want == want' + (if touched then {lbl} else {})
    ensures UpTo(stale, have - (if touched then {lbl} else {}), want')
  {}

  lemma LabelsRemove(x: Indices, x': Indices, r0: Registry, r1: Registry, stale: set<string>, lbl: string, e: BucketEdge)
    requires IntoAgree(x.inLabels, r0, stale) && OutOfAgree(x.outLabels, r0, stale) && EdgesAgree(x.edgeList, r0, stale)
    requires Removed(x, x', lbl, e) && lbl in stale && Count(x.adjacency, e) != 0
    requires forall f :: LabelsOn(r0, f) == LabelsOn(r1, f) + (if f == e then {lbl} else {})
    requires forall k :: LabelsInto(r0, k) == LabelsInto(r1, k) + (if k == e.destination then {lbl} else {})
    requires forall k :: LabelsOutOf(r0, k) == LabelsOutOf(r1, k) + (if k == e.source then {lbl} else {})
    ensures IntoAgree(x'.inLabels, r1, stale) && OutOfAgree(x'.outLabels, r1, stale) && EdgesAgree(x'.edgeList, r1, stale)
  {
    forall k ensures UpTo(stale, At(x'.inLabels, k), LabelsInto(r1, k)) {
      UpToWithout(stale, At(x.inLabels, k), LabelsInto(r0, k), LabelsInto(r1, k), lbl, k == e.destination);
    }
    forall k ensures UpTo(stale, At(x'.outLabels, k), LabelsOutOf(r1, k)) {
      UpToWithout(stale, At(x.outLabels, k), LabelsOutOf(r0, k), LabelsOutOf(r1, k), lbl, k == e.source);
    }
    forall f ensures UpTo(stale, At(x'.edgeList, f), LabelsOn(r1, f)) {
      UpToWithout(stale, At(x.edgeList, f), LabelsOn(r0, f), LabelsOn(r1, f), lbl, f == e);
    }
  }

  /** Unregistering one destination of a label that is being removed. */
  lemma RemoveAgrees(x: Indices, x': Indices, r: Registry, stale: set<string>, lbl: string, source: Keyspace,
                     rest: set<Keyspace>, d: Keyspace)
    requires Agree(x, r[lbl := Dependency(source, rest)], stale) && d in rest && lbl in stale
    requires Removed(x, x', lbl, BucketEdge(source, d)) && Normal(x')
    ensures Agree(x', r[lbl := Dependency(source, rest - {d})], stale)
  {
    var r0, r1, e := r[lbl := Dependency(source, rest)], r[lbl := Dependency(source, rest - {d})], BucketEdge(source, d);
    assert rest - {d} + {d} == rest;
    OneMoreDestination(r, lbl, source, rest - {d}, d);
    assert Count(x.adjacency, e) == |LabelsOn(r0, e)|;
    CountsRemove(x.adjacency, x'.adjacency, r0, r1, lbl, e);
    LabelsRemove(x, x', r0, r1, stale, lbl, e);
  }

  /** A label without destinations leaves no trace. */
  lemma NoDestinations(x: Indices, r: Registry, stale: set<string>, lbl: string, source: Keyspace)
    requires lbl !in r
    ensures Agree(x, r[lbl := Dependency(source, {})], stale + {lbl}) ==> Agree(x, r, stale - {lbl})
    ensures Agree(x, r, stale) ==> Agree(x, r[lbl := Dependency(source, {})], stale)
  {
    var r0 := r[lbl := Dependency(source, {})];
    assert forall e :: LabelsOn(r0, e) == LabelsOn(r, e);
    assert forall k :: LabelsInto(r0, k) == LabelsInto(r, k);
    assert forall k :: LabelsOutOf(r0, k) == LabelsOutOf(r, k);
  }

  lemma AgreeMono(x: Indices, r: Registry, stale: set<string>, more: set<string>)
    requires Agree(x, r, stale) && stale <= more
    ensures Agree(x, r, more)
  {}

  // ---- Equal contents, equal maps ----------------------------------------

  lemma SameEntries<K>(m: map<K, set<string>>, m': map<K, set<string>>)
    requires NoEmptyEntry(m) && NoEmptyEntry(m') && forall k: K :: At(m, k) == At(m', k)
    ensures m == m'
  {
    assert forall k: K | k in m :: At(m', k) == At(m, k) != {};
    assert forall k: K | k in m' :: At(m, k) == At(m', k) != {};
  }

  lemma SameCounts(x: Indices, x': Indices)
    requires Normal(x) && Normal(x') && forall e :: Count(x.adjacency, e) == Count(x'.adjacency, e)
    ensures x.adjacency == x'.adjacency
  {
    SubCounts(x, x');
    SubCounts(x', x);
    forall u | u in x.adjacency ensures x.adjacency[u] == x'.adjacency[u] {
      forall v | v in x.adjacency[u] ensures x.adjacency[u][v] == x'.adjacency[u][v] {
        assert Count(x.adjacency, BucketEdge(u, v)) == Count(x'.adjacency, BucketEdge(u, v));
      }
    }
  }

  lemma SubCounts(x: Indices, x': Indices)
    requires Normal(x) && Normal(x') && forall e :: Count(x.adjacency, e) == Count(x'.adjacency, e)
    ensures forall u | u in x.adjacency :: u in x'.adjacency && x.adjacency[u].Keys <= x'.adjacency[u].Keys
  {
    forall u | u in x.adjacency
      ensures u in x'.adjacency && x.adjacency[u].Keys <= x'.adjacency[u].Keys
    {
      forall v | v in x.adjacency[u] ensures u in x'.adjacency && v in x'.adjacency[u] {
        assert Count(x.adjacency, BucketEdge(u, v)) > 0;
        assert Count(x'.adjacency, BucketEdge(u, v)) > 0;
      }
      assert x.adjacency[u].Keys != {};
    }
  }

  /** The edges that the registered functions ask for. */
  function EdgesOf(r: Registry): Graph {
    set l, d | l in r && d in r[l].destinations :: BucketEdge(r[l].source, d)
  }

  /** The graph has the edges that the registered functions ask for, and no others. */
  lemma GraphOfRegistry(x: Indices, r: Registry, stale: set<string>)
    requires Agree(x, r, stale)
    ensures GraphOf(x.adjacency) == EdgesOf(r)
  {
    forall e ensures e in GraphOf(x.adjacency) <==> e in EdgesOf(r) {
      assert Count(x.adjacency, e) == |LabelsOn(r, e)|;
      if e in EdgesOf(r) {
        var l :| l in r && r[l].source == e.source && e.destination in r[l].destinations;
        assert l in LabelsOn(r, e);
      }
      if LabelsOn(r, e) != {} {
        var l :| l in LabelsOn(r, e);
        assert e == BucketEdge(r[l].source, e.destination);
      }
    }
  }

  lemma UpToNothing(have: set<string>, want: set<string>)
    requires UpTo({}, have, want)
    ensures have == want
  {}

  /** Without stale labels the label indices are those derived from the registry. */
  lemma ExactLabels(x: Indices, r: Registry)
    requires Agree(x, r, {})
    ensures forall k :: At(x.inLabels, k) == LabelsInto(r, k)
    ensures forall k :: At(x.outLabels, k) == LabelsOutOf(r, k)
    ensures forall e :: At(x.edgeList, e) == LabelsOn(r, e) && Count(x.adjacency, e) == |At(x.edgeList, e)|
  {
    forall k ensures At(x.inLabels, k) == LabelsInto(r, k) { UpToNothing(At(x.inLabels, k), LabelsInto(r, k)); }
    forall k ensures At(x.outLabels, k) == LabelsOutOf(r, k) { UpToNothing(At(x.outLabels, k), LabelsOutOf(r, k)); }
    forall e ensures At(x.edgeList, e) == LabelsOn(r, e) { UpToNothing(At(x.edgeList, e), LabelsOn(r, e)); }
  }

  /** Without stale labels the registry alone determines every index, whatever led to it. */
  lemma IndicesAreDetermined(x: Indices, y: Indices, r: Registry)
    requires Agree(x, r, {}) && Agree(y, r, {})
    ensures x == y
  {
    SameCounts(x, y);
    ExactLabels(x, r);
    ExactLabels(y, r);
    SameEntries(x.inLabels, y.inLabels);
    SameEntries(x.outLabels, y.outLabels);
    SameEntries(x.edgeList, y.edgeList);
  }
}
