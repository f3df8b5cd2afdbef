/** The planning methods of the producer (producer/vbucket_node_assignment.go). */
module Producer {
  import opened Sorting
  import opened Planner

  /** Every part gets the quotient, and the first ones one more each for the remainder. */
  method CountPerPart(total: nat, parts: nat) returns (counts: seq<nat>)
    requires parts > 0
    ensures |counts| == parts
    ensures forall i | 0 <= i < parts :: counts[i] == Share(total, parts, i)
  {
    var perPart, given := total / parts, 0;
    var count := new nat[parts];
    for i := 0 to parts
      invariant given == i * perPart
      invariant forall k | 0 <= k < i :: count[k] == perPart
    {
      count[i] := perPart;
      given := given + perPart;
      assert (i + 1) * perPart == i * perPart + perPart;
    }
    var remaining := total - given;
    assert remaining == total % parts;
    if remaining > 0 {
      for i := 0 to remaining
        invariant forall k | 0 <= k < parts :: count[k] == perPart + (if k < i then 1 else 0)
      {
        count[i] := count[i] + 1;
      }
    }
    return count[..];
  }

  class VbPlanner {
    const appName: string
    const numVbuckets: nat
    const workerCount: nat
    var eventingNodeUUIDs: seq<string>
    var vbEventingNodeAssignMap: Assign
    var plannerNodeMappings: seq<NodeMapping>
    var vbMapping: map<nat, Assignment>
    var workerVbucketMap: map<string, seq<nat>>

    ghost predicate Valid() {
      numVbuckets < 65536 && workerCount > 0
    }

    constructor (appName: string, numVbuckets: nat, workerCount: nat)
      requires numVbuckets < 65536 && workerCount > 0
      ensures Valid() && vbEventingNodeAssignMap == map[] && vbMapping == map[] && workerVbucketMap == map[]
    {
      this.appName, this.numVbuckets, this.workerCount := appName, numVbuckets, workerCount;
      eventingNodeUUIDs, vbEventingNodeAssignMap, plannerNodeMappings := [], map[], [];
      vbMapping, workerVbucketMap := map[], map[];
    }

    /** The node plan. An empty keep list is an error, after the previous plan has been dropped. */
    method VbEventingNodeAssign(keepNodes: seq<string>, addrOf: map<string, string>) returns (ok: bool)
      requires Valid()
      modifies this`eventingNodeUUIDs, this`vbEventingNodeAssignMap, this`plannerNodeMappings
      ensures ok == (keepNodes != [])
      ensures ok ==> eventingNodeUUIDs == keepNodes
      ensures ok ==> NodePlan(vbEventingNodeAssignMap, plannerNodeMappings, numVbuckets, Sort(StringLe, Addresses(keepNodes, addrOf)))
      ensures !ok ==> vbEventingNodeAssignMap == map[] && unchanged(`eventingNodeUUIDs) && unchanged(`plannerNodeMappings)
    {
      vbEventingNodeAssignMap := map[];
      if keepNodes == [] {
        return false;
      }
      eventingNodeUUIDs := keepNodes;
      var addrs := AddressList(keepNodes, addrOf);
      AssignRanges(addrs);
      return true;
    }

    /** The addresses of the nodes to keep, sorted. */
    static method AddressList(keepNodes: seq<string>, addrOf: map<string, string>) returns (addrs: seq<string>)
      ensures addrs == Sort(StringLe, Addresses(keepNodes, addrOf)) && |addrs| == |keepNodes|
    {
      addrs := [];
      for i := 0 to |keepNodes|
        invariant addrs == Addresses(keepNodes[..i], addrOf) && |addrs| == i
      {
        addrs := addrs + [Lookup(addrOf, keepNodes[i])];
        AddressesConcat(keepNodes[..i], [keepNodes[i]], addrOf);
        assert keepNodes[..i + 1] == keepNodes[..i] + [keepNodes[i]];
      }
      assert keepNodes[..|keepNodes|] == keepNodes;
      StringOrder();
      SortSorts(StringLe, addrs);
      assert |multiset(Sort(StringLe, addrs))| == |multiset(addrs)|;
      addrs := Sort(StringLe, addrs);
    }

    method AssignRanges(addrs: seq<string>)
      requires Valid() && addrs != [] && vbEventingNodeAssignMap == map[]
      modifies this`vbEventingNodeAssignMap, this`plannerNodeMappings
      ensures NodePlan(vbEventingNodeAssignMap, plannerNodeMappings, numVbuckets, addrs)
    {
      var n, parts := numVbuckets, |addrs|;
      var counts := CountPerPart(n, parts);
      plannerNodeMappings := [];
      SharesAddUp(n, parts);
      var startVb := 0;
      for i := 0 to parts
        invariant startVb == Start(n, parts, i) <= n
        invariant |plannerNodeMappings| == i
        invariant forall k | 0 <= k < i :: plannerNodeMappings[k] == Range(n, addrs, k)
        invariant Assigned(vbEventingNodeAssignMap, n, addrs, startVb)
      {
        Positions(n, parts, i);
        plannerNodeMappings := plannerNodeMappings + [NodeMapping(addrs[i], startVb, counts[i])];
        startVb := AssignRange(addrs, i, startVb, counts[i]);
      }
    }

    method AssignRange(addrs: seq<string>, i: nat, startVb0: nat, count: nat) returns (startVb: nat)
      requires Valid() && i < |addrs| && Start(numVbuckets, |addrs|, i + 1) <= numVbuckets
      requires startVb0 == Start(numVbuckets, |addrs|, i) && count == Share(numVbuckets, |addrs|, i)
      requires Assigned(vbEventingNodeAssignMap, numVbuckets, addrs, startVb0)
      modifies this`vbEventingNodeAssignMap
      ensures startVb == Start(numVbuckets, |addrs|, i + 1)
      ensures Assigned(vbEventingNodeAssignMap, numVbuckets, addrs, startVb)
    {
      startVb := startVb0;
      for j := 0 to count
        invariant startVb == startVb0 + j && Assigned(vbEventingNodeAssignMap, numVbuckets, addrs, startVb)
      {
        OnlyPart(numVbuckets, |addrs|, i, startVb);
        vbEventingNodeAssignMap := vbEventingNodeAssignMap[startVb := addrs[i]];
        startVb := (startVb + 1) % 65536;
      }
    }

    /** Collects the vbuckets of every node, in ascending order. */
    method GroupByNode() returns (groups: map<string, seq<nat>>)
      ensures forall node | node in groups :: ListOf(groups[node], VbsOf(vbEventingNodeAssignMap, node))
      ensures forall vb | vb in vbEventingNodeAssignMap :: vbEventingNodeAssignMap[vb] in groups
    {
      var assign := vbEventingNodeAssignMap;
      var todo := assign.Keys;
      groups := map[];
      while todo != {}
        invariant todo <= assign.Keys && Grouped(groups, assign, todo)
      {
        var vb :| vb in todo;
        var node := assign[vb];
        GroupOne(groups, assign, todo, vb);
        groups := groups[node := Listed(groups, node) + [vb]];
        todo := todo - {vb};
      }
      var nodes := groups.Keys;
      while nodes != {}
        invariant nodes <= groups.Keys && Grouped(groups, assign, {})
        invariant forall node | node in groups && node !in nodes :: ListOf(groups[node], VbsOf(assign, node))
      {
        var node :| node in nodes;
        SortGroup(groups, assign, node);
        groups := groups[node := Sort(NatLe, groups[node])];
        nodes := nodes - {node};
      }
    }

    /** Deals the vbuckets of one node to its workers. */
    method DealToWorkers(node: string, vbs: seq<nat>)
      requires Valid() && forall a, b | 0 <= a < b < |vbs| :: vbs[a] < vbs[b]
      modifies this`vbMapping
      ensures Dealt(vbMapping, appName, workerCount, node, vbs)
      ensures vbMapping.Keys == old(vbMapping.Keys) + set vb | vb in vbs
      ensures forall vb | vb in old(vbMapping) && vb !in vbs :: vbMapping[vb] == old(vbMapping[vb])
    {
      var counts := CountPerPart(|vbs|, workerCount);
      var startVbIndex := 0;
      SharesAddUp(|vbs|, workerCount);
      assert vbs[..0] == [];
      for i := 0 to workerCount
        invariant startVbIndex == Start(|vbs|, workerCount, i) <= |vbs|
        invariant DealtUpTo(vbMapping, old(vbMapping), appName, workerCount, node, vbs, startVbIndex)
      {
        StartMonotone(|vbs|, workerCount, i + 1, workerCount);
        for j := 0 to counts[i]
          invariant startVbIndex == Start(|vbs|, workerCount, i) + j
          invariant DealtUpTo(vbMapping, old(vbMapping), appName, workerCount, node, vbs, startVbIndex)
        {
          OnlyPart(|vbs|, workerCount, i, startVbIndex);
          DealOne(vbMapping, old(vbMapping), appName, workerCount, node, vbs, startVbIndex, i);
          vbMapping := vbMapping[vbs[startVbIndex] := Assignment(node, WorkerName(appName, i))];
          startVbIndex := startVbIndex + 1;
        }
      }
      assert vbs[..|vbs|] == vbs;
    }

    /** The cluster-wide plan. */
    method VbNodeWorkerMap()
      requires Valid()
      modifies this`vbMapping
      ensures GlobalPlan(vbMapping, vbEventingNodeAssignMap, appName, workerCount)
    {
      var assign := vbEventingNodeAssignMap;
      var groups := GroupByNode();
      vbMapping := map[];
      var nodes := groups.Keys;
      while nodes != {}
        invariant nodes <= groups.Keys
        invariant forall vb: nat :: vb in vbMapping <==> vb in assign && assign[vb] !in nodes
        invariant forall node | node in groups && node !in nodes :: Dealt(vbMapping, appName, workerCount, node, groups[node])
      {
        var node :| node in nodes;
        ghost var before := vbMapping;
        DealToWorkers(node, groups[node]);
        forall other | other in groups && other !in nodes
          ensures Dealt(vbMapping, appName, workerCount, other, groups[other])
        {
          StillDealt(before, vbMapping, appName, workerCount, assign, node, groups[node], other, groups[other]);
        }
        nodes := nodes - {node};
      }
      AllDealt(vbMapping, assign, appName, workerCount, groups);
    }

    /** The plan of this node. Returns the plan that it replaces. */
    method InitWorkerVbMap(eventingNodeAddr: string) returns (oldWorkerVbucketMap: map<string, seq<nat>>)
      requires Valid()
      modifies this`workerVbucketMap
      ensures oldWorkerVbucketMap == old(workerVbucketMap)
      ensures LocalPlan(workerVbucketMap, vbEventingNodeAssignMap, appName, workerCount, eventingNodeAddr)
    {
      oldWorkerVbucketMap := workerVbucketMap;
      var vbs := VbucketsToHandle(eventingNodeAddr);
      var counts := CountPerPart(|vbs|, workerCount);
      workerVbucketMap := map[];
      var startVbIndex := 0;
      SharesAddUp(|vbs|, workerCount);
      for i := 0 to workerCount
        invariant startVbIndex == Start(|vbs|, workerCount, i) <= |vbs|
        invariant OnlyWorkers(workerVbucketMap, appName, i)
        invariant forall k: nat | k < i :: ListsShare(workerVbucketMap, appName, workerCount, vbs, k)
      {
        Positions(|vbs|, workerCount, i);
        NotYetListed(workerVbucketMap, appName, i);
        ghost var before := workerVbucketMap;
        startVbIndex := ListVbs(WorkerName(appName, i), vbs, startVbIndex, counts[i]);
        NextWorker(before, workerVbucketMap, appName, workerCount, vbs, i);
      }
      forall vbs', k: nat | ListOf(vbs', VbsOf(vbEventingNodeAssignMap, eventingNodeAddr)) && k < workerCount
        ensures ListsShare(workerVbucketMap, appName, workerCount, vbs', k)
      {
        ListIsUnique(vbs, vbs', VbsOf(vbEventingNodeAssignMap, eventingNodeAddr));
      }
    }

    method ListVbs(workerName: string, vbs: seq<nat>, startVbIndex0: nat, count: nat) returns (startVbIndex: nat)
      requires startVbIndex0 + count <= |vbs| && workerName !in workerVbucketMap
      modifies this`workerVbucketMap
      ensures startVbIndex == startVbIndex0 + count
      ensures Extended(old(workerVbucketMap), workerVbucketMap, workerName, vbs[startVbIndex0..startVbIndex])
    {
      startVbIndex := startVbIndex0;
      for j := 0 to count
        invariant startVbIndex == startVbIndex0 + j
        invariant Extended(old(workerVbucketMap), workerVbucketMap, workerName, vbs[startVbIndex0..startVbIndex])
      {
        workerVbucketMap := workerVbucketMap[workerName := Listed(workerVbucketMap, workerName) + [vbs[startVbIndex]]];
        startVbIndex := startVbIndex + 1;
      }
    }

    method VbucketsToHandle(eventingNodeAddr: string) returns (vbs: seq<nat>)
      ensures ListOf(vbs, VbsOf(vbEventingNodeAssignMap, eventingNodeAddr))
    {
      var assign, todo := vbEventingNodeAssignMap, vbEventingNodeAssignMap.Keys;
      vbs := [];
      while todo != {}
        invariant todo <= assign.Keys && multiset(vbs) == multiset(VbsOf(assign, eventingNodeAddr) - todo)
      {
        var vb :| vb in todo;
        Collected(assign, todo, vb);
        if assign[vb] == eventingNodeAddr {
          vbs := vbs + [vb];
        }
        todo := todo - {vb};
      }
      NatOrder();
      SortSorts(NatLe, vbs);
      vbs := Sort(NatLe, vbs);
      assert VbsOf(assign, eventingNodeAddr) - todo == VbsOf(assign, eventingNodeAddr);
      SortedListOf(vbs, VbsOf(assign, eventingNodeAddr));
    }
  }

  // ---- Ingredients -----------------------------------------------------------

  ghost predicate Assigned(assign: Assign, n: nat, addrs: seq<string>, bound: nat) {
    && addrs != []
    && (forall vb: nat :: vb in assign <==> vb < bound)
    && (forall i: nat, vb: nat | Within(n, |addrs|, i, vb) && vb in assign :: assign[vb] == addrs[i])
  }

  lemma OnlyPart(total: nat, parts: nat, i: nat, x: nat)
    requires parts > 0 && Within(total, parts, i, x)
    ensures x < total && forall k: nat | Within(total, parts, k, x) :: k == i
  {
    Positions(total, parts, i);
    EvenShares(total, parts, x);
  }

  lemma Collected(assign: Assign, todo: set<nat>, vb: nat)
    requires todo <= assign.Keys && vb in todo
    ensures forall node ::
              multiset(VbsOf(assign, node) - (todo - {vb})) ==
              multiset(VbsOf(assign, node) - todo) + (if assign[vb] == node then multiset{vb} else multiset{})
  {
    forall node
      ensures multiset(VbsOf(assign, node) - (todo - {vb})) ==
              multiset(VbsOf(assign, node) - todo) + (if assign[vb] == node then multiset{vb} else multiset{})
    {
      var before, after := VbsOf(assign, node) - todo, VbsOf(assign, node) - (todo - {vb});
      assert after == before + (if assign[vb] == node then {vb} else {});
    }
  }

  /** The vbuckets that are no longer to do are listed under their nodes. */
  ghost predicate Grouped(groups: map<string, seq<nat>>, assign: Assign, todo: set<nat>) {
    && (forall node | node in groups :: multiset(groups[node]) == multiset(VbsOf(assign, node) - todo))
    && (forall vb | vb in assign && vb !in todo :: assign[vb] in groups)
  }

  lemma GroupOne(groups: map<string, seq<nat>>, assign: Assign, todo: set<nat>, vb: nat)
    requires todo <= assign.Keys && vb in todo && Grouped(groups, assign, todo)
    ensures Grouped(groups[assign[vb] := Listed(groups, assign[vb]) + [vb]], assign, todo - {vb})
  {
    Collected(assign, todo, vb);
    if assign[vb] !in groups { assert VbsOf(assign, assign[vb]) - todo == {}; }
  }

  lemma SortGroup(groups: map<string, seq<nat>>, assign: Assign, node: string)
    requires Grouped(groups, assign, {}) && node in groups
    ensures Grouped(groups[node := Sort(NatLe, groups[node])], assign, {})
    ensures ListOf(Sort(NatLe, groups[node]), VbsOf(assign, node))
  {
    NatOrder();
    SortSorts(NatLe, groups[node]);
    assert VbsOf(assign, node) - {} == VbsOf(assign, node);
    SortedListOf(Sort(NatLe, groups[node]), VbsOf(assign, node));
  }

  /** The first vbuckets of the list have been dealt, and nothing else has changed. */
  ghost predicate DealtUpTo(m: map<nat, Assignment>, m0: map<nat, Assignment>, app: string, workers: nat, node: string,
                            vbs: seq<nat>, bound: nat) {
    && workers > 0 && bound <= |vbs|
    && (forall vb: nat :: vb in m <==> vb in m0 || vb in vbs[..bound])
    && (forall i: nat, j: nat | j < bound && Within(|vbs|, workers, i, j) ::
          vbs[j] in m && m[vbs[j]] == Assignment(node, WorkerName(app, i)))
    && (forall vb | vb in m0 && vb !in vbs[..bound] :: m[vb] == m0[vb])
  }

  lemma DealOne(m: map<nat, Assignment>, m0: map<nat, Assignment>, app: string, workers: nat, node: string,
                vbs: seq<nat>, bound: nat, i: nat)
    requires DealtUpTo(m, m0, app, workers, node, vbs, bound) && bound < |vbs|
    requires forall a, b | 0 <= a < b < |vbs| :: vbs[a] < vbs[b]
    requires forall k: nat | Within(|vbs|, workers, k, bound) :: k == i
    ensures DealtUpTo(m[vbs[bound] := Assignment(node, WorkerName(app, i))], m0, app, workers, node, vbs, bound + 1)
  {
    assert vbs[..bound + 1] == vbs[..bound] + [vbs[bound]];
  }

  /** Dealing the vbuckets of one node leaves those of another alone. */
  lemma StillDealt(m: map<nat, Assignment>, m': map<nat, Assignment>, app: string, workers: nat, assign: Assign,
                   node: string, vbs: seq<nat>, other: string, others: seq<nat>)
    requires Dealt(m, app, workers, other, others) && node != other
    requires ListOf(vbs, VbsOf(assign, node)) && ListOf(others, VbsOf(assign, other))
    requires forall vb | vb in m && vb !in vbs :: vb in m' && m'[vb] == m[vb]
    ensures Dealt(m', app, workers, other, others)
  {
    forall i: nat, j: nat | j < |others| && Within(|others|, workers, i, j)
      ensures others[j] in m' && m'[others[j]] == Assignment(other, WorkerName(app, i))
    {
      assert others[j] in VbsOf(assign, other);
    }
  }

  lemma AllDealt(m: map<nat, Assignment>, assign: Assign, app: string, workers: nat, groups: map<string, seq<nat>>)
    requires workers > 0 && m.Keys == assign.Keys
    requires forall node | node in groups :: ListOf(groups[node], VbsOf(assign, node)) && Dealt(m, app, workers, node, groups[node])
    requires forall vb | vb in assign :: assign[vb] in groups
    ensures GlobalPlan(m, assign, app, workers)
  {
    forall node, vbs | ListOf(vbs, VbsOf(assign, node)) ensures Dealt(m, app, workers, node, vbs) {
      if node in groups { ListIsUnique(vbs, groups[node], VbsOf(assign, node)); }
      else { assert forall j | 0 <= j < |vbs| :: vbs[j] in VbsOf(assign, node); }
    }
  }

  /** The map lists the given vbuckets under the worker, and for the other workers what it listed before. */
  ghost predicate Extended(m: map<string, seq<nat>>, m': map<string, seq<nat>>, worker: string, vbs: seq<nat>) {
    && Listed(m', worker) == vbs && m.Keys <= m'.Keys <= m.Keys + {worker}
    && forall w | w != worker :: Listed(m', w) == Listed(m, w)
  }

  ghost predicate OnlyWorkers(m: map<string, seq<nat>>, app: string, bound: nat) {
    forall w | w in m :: exists k: nat :: k < bound && w == WorkerName(app, k)
  }

  lemma NextWorker(m: map<string, seq<nat>>, m': map<string, seq<nat>>, app: string, workers: nat, vbs: seq<nat>, i: nat)
    requires i < workers && OnlyWorkers(m, app, i)
    requires Start(|vbs|, workers, i) <= Start(|vbs|, workers, i + 1) <= |vbs|
    requires Extended(m, m', WorkerName(app, i), vbs[Start(|vbs|, workers, i)..Start(|vbs|, workers, i + 1)])
    requires forall k: nat | k < i :: ListsShare(m, app, workers, vbs, k)
    ensures OnlyWorkers(m', app, i + 1)
    ensures forall k: nat | k < i + 1 :: ListsShare(m', app, workers, vbs, k)
  {
    forall k: nat | k < i ensures ListsShare(m', app, workers, vbs, k) {
      assert ListsShare(m, app, workers, vbs, k);
      NamesDiffer(app, k, i);
    }
    forall w | w in m' ensures exists k: nat :: k < i + 1 && w == WorkerName(app, k) {
      if w in m { var k: nat :| k < i && w == WorkerName(app, k); }
    }
  }

  lemma NamesDiffer(app: string, k: nat, i: nat)
    requires k != i
    ensures WorkerName(app, k) != WorkerName(app, i)
  {
    if WorkerName(app, k) == WorkerName(app, i) { WorkerNamesDiffer(app, k, i); }
  }

  lemma NotYetListed(m: map<string, seq<nat>>, app: string, i: nat)
    requires OnlyWorkers(m, app, i)
    ensures WorkerName(app, i) !in m
  {
    forall k: nat | k < i ensures WorkerName(app, k) != WorkerName(app, i) { NamesDiffer(app, k, i); }
  }
}
