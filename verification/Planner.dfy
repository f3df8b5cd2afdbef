/**
 How vbuckets are assigned to eventing nodes and to the workers of a node
 (producer/vbucket_node_assignment.go).
 */
module Planner {
  import opened Sorting

  // ---- Even shares ---------------------------------------------------------

  /** How many of total items part i gets. */
  function Share(total: nat, parts: nat, i: nat): nat
    requires parts > 0
  {
    total / parts + (if i < total % parts then 1 else 0)
  }

  /** How many items the parts before i get. */
  function Start(total: nat, parts: nat, i: nat): nat
    requires parts > 0
  {
    if i == 0 then 0 else Start(total, parts, i - 1) + Share(total, parts, i - 1)
  }

  /** Item x falls to part i. */
  predicate Within(total: nat, parts: nat, i: nat, x: nat)
    requires parts > 0
  {
    i < parts && Start(total, parts, i) <= x < Start(total, parts, i + 1)
  }

  lemma {:induction false} StartFormula(total: nat, parts: nat, i: nat)
    requires parts > 0 && i <= parts
    ensures Start(total, parts, i) == i * (total / parts) + (if i < total % parts then i else total % parts)
  {
    if i > 0 {
      StartFormula(total, parts, i - 1);
      OneMore(i, total / parts);
    }
  }

  lemma OneMore(i: nat, q: nat)
    requires i > 0
    ensures i * q == (i - 1) * q + q
  {}

  lemma SharesAddUp(total: nat, parts: nat)
    requires parts > 0
    ensures Start(total, parts, parts) == total
  {
    StartFormula(total, parts, parts);
  }

  lemma {:induction false} StartMonotone(total: nat, parts: nat, i: nat, j: nat)
    requires parts > 0 && i <= j
    ensures Start(total, parts, i) <= Start(total, parts, j)
    decreases j
  {
    if i < j { StartMonotone(total, parts, i, j - 1); }
  }

  lemma {:induction false} SomePart(total: nat, parts: nat, x: nat, n: nat) returns (i: nat)
    requires parts > 0 && n <= parts && x < Start(total, parts, n)
    ensures i < n && Within(total, parts, i, x)
    decreases n
  {
    if x >= Start(total, parts, n - 1) { i := n - 1; } else { i := SomePart(total, parts, x, n - 1); }
  }

  /** Every item falls to exactly one part, the parts are contiguous and ascending, and no two differ by more than one. */
  lemma EvenShares(total: nat, parts: nat, x: nat)
    requires parts > 0 && x < total
    ensures exists i: nat :: Within(total, parts, i, x)
    ensures forall i: nat, j: nat | Within(total, parts, i, x) && Within(total, parts, j, x) :: i == j
    ensures forall i: nat, j: nat :: Share(total, parts, i) - Share(total, parts, j) <= 1
  {
    SharesAddUp(total, parts);
    var k := SomePart(total, parts, x, parts);
    forall i: nat, j: nat | Within(total, parts, i, x) && Within(total, parts, j, x) ensures i == j {
      if i < j { StartMonotone(total, parts, i + 1, j); }
      if j < i { StartMonotone(total, parts, j + 1, i); }
    }
  }

  // ---- Names of workers ----------------------------------------------------

  function Digit(d: nat): char
    requires d < 10
  {
    "0123456789"[d]
  }

  function Decimal(n: nat): string {
    (if n < 10 then "" else Decimal(n / 10)) + [Digit(n % 10)]
  }

  lemma {:induction false} DecimalIsInjective(m: nat, n: nat)
    requires Decimal(m) == Decimal(n)
    ensures m == n
  {
    assert Decimal(m)[|Decimal(m)| - 1] == Digit(m % 10) && Decimal(n)[|Decimal(n)| - 1] == Digit(n % 10);
    assert m % 10 == n % 10;
    assert |Decimal(m / 10)| > 0 && |Decimal(n / 10)| > 0;
    if m >= 10 && n >= 10 {
      assert Decimal(m / 10) == Decimal(m)[..|Decimal(m)| - 1] == Decimal(n / 10);
      DecimalIsInjective(m / 10, n / 10);
    }
  }

  function WorkerName(app: string, i: nat): string {
    "worker_" + app + "_" + Decimal(i)
  }

  lemma WorkerNamesDiffer(app: string, i: nat, j: nat)
    requires WorkerName(app, i) == WorkerName(app, j)
    ensures i == j
  {
    var prefix := "worker_" + app + "_";
    assert Decimal(i) == WorkerName(app, i)[|prefix|..] == Decimal(j);
    DecimalIsInjective(i, j);
  }

  // ---- What a plan is ------------------------------------------------------

  type Assign = map<nat, string>

  datatype NodeMapping = NodeMapping(hostname: string, startVb: nat, vbsCount: nat)

  datatype Assignment = Assignment(ownerNode: string, assignedWorker: string)

  function Lookup(m: map<string, string>, uuid: string): string {
    if uuid in m then m[uuid] else ""
  }

  function Addresses(keepNodes: seq<string>, addrOf: map<string, string>): seq<string> {
    if keepNodes == [] then [] else [Lookup(addrOf, keepNodes[0])] + Addresses(keepNodes[1..], addrOf)
  }

  lemma {:induction false} AddressesConcat(a: seq<string>, b: seq<string>, addrOf: map<string, string>)
    ensures Addresses(a + b, addrOf) == Addresses(a, addrOf) + Addresses(b, addrOf)
  {
    if a == [] {
      assert a + b == b;
    } else {
      assert (a + b)[1..] == a[1..] + b;
      AddressesConcat(a[1..], b, addrOf);
    }
  }

  function Range(n: nat, addrs: seq<string>, i: nat): NodeMapping
    requires i < |addrs|
  {
    NodeMapping(addrs[i], Start(n, |addrs|, i), Share(n, |addrs|, i))
  }

  /** Node i of the list gets the i-th contiguous range, and every vbucket below n is assigned. */
  ghost predicate NodePlan(assign: Assign, mappings: seq<NodeMapping>, n: nat, addrs: seq<string>) {
    && addrs != [] && |mappings| == |addrs|
    && (forall i | 0 <= i < |addrs| :: mappings[i] == Range(n, addrs, i))
    && (forall vb: nat :: vb in assign <==> vb < n)
    && (forall i: nat, vb: nat | Within(n, |addrs|, i, vb) && vb in assign :: assign[vb] == addrs[i])
  }

  function VbsOf(assign: Assign, node: string): set<nat> {
    set vb | vb in assign && assign[vb] == node
  }

  /** The vbuckets of a node, in ascending order, are dealt to its workers in even contiguous shares. */
  ghost predicate Dealt(vbMapping: map<nat, Assignment>, app: string, workers: nat, node: string, vbs: seq<nat>) {
    workers > 0 &&
    forall i: nat, j: nat | j < |vbs| && Within(|vbs|, workers, i, j) ::
      vbs[j] in vbMapping && vbMapping[vbs[j]] == Assignment(node, WorkerName(app, i))
  }

  /** The cluster-wide plan: every vbucket of every node has its worker. */
  ghost predicate GlobalPlan(vbMapping: map<nat, Assignment>, assign: Assign, app: string, workers: nat) {
    && vbMapping.Keys == assign.Keys
    && forall node, vbs | ListOf(vbs, VbsOf(assign, node)) :: Dealt(vbMapping, app, workers, node, vbs)
  }

  function Listed(m: map<string, seq<nat>>, worker: string): seq<nat> {
    if worker in m then m[worker] else []
  }

  /** The plan of one node: each worker is listed with its share. */
  ghost predicate LocalPlan(m: map<string, seq<nat>>, assign: Assign, app: string, workers: nat, node: string) {
    && workers > 0
    && (forall w | w in m :: exists i: nat :: i < workers && w == WorkerName(app, i))
    && forall vbs, i: nat | ListOf(vbs, VbsOf(assign, node)) && i < workers :: ListsShare(m, app, workers, vbs, i)
  }

  ghost predicate ListsShare(m: map<string, seq<nat>>, app: string, workers: nat, vbs: seq<nat>, i: nat)
    requires i < workers
  {
    && 0 <= Start(|vbs|, workers, i) <= Start(|vbs|, workers, i + 1) <= |vbs|
    && Listed(m, WorkerName(app, i)) == vbs[Start(|vbs|, workers, i)..Start(|vbs|, workers, i + 1)]
  }

  lemma Positions(total: nat, parts: nat, i: nat)
    requires parts > 0 && i < parts
    ensures 0 <= Start(total, parts, i) <= Start(total, parts, i + 1) <= total
  {
    StartMonotone(total, parts, i, i + 1);
    StartMonotone(total, parts, i + 1, parts);
    SharesAddUp(total, parts);
  }

  lemma SomeList(s: set<nat>) returns (l: seq<nat>)
    ensures ListOf(l, s)
  {
    NatOrder();
    var e := Elements(s);
    SortSorts(NatLe, e);
    l := Sort(NatLe, e);
    SortedListOf(l, s);
  }

  lemma {:induction false} Elements(s: set<nat>) returns (l: seq<nat>)
    ensures multiset(l) == multiset(s)
    decreases |s|
  {
    if s == {} {
      l := [];
    } else {
      var x :| x in s;
      var rest := Elements(s - {x});
      l := [x] + rest;
      assert s == {x} + (s - {x});
      assert multiset(s) == multiset{x} + multiset(s - {x});
    }
  }

  // ---- The plan does not depend on the order of the keep list --------------

  lemma {:induction false} AddressesOfInsert(x: string, s: seq<string>, addrOf: map<string, string>)
    ensures multiset(Addresses(Insert(StringLe, x, s), addrOf)) == multiset{Lookup(addrOf, x)} + multiset(Addresses(s, addrOf))
  {
    var r := Insert(StringLe, x, s);
    if s == [] || StringLe(x, s[0]) {
      assert r[1..] == s;
    } else {
      AddressesOfInsert(x, s[1..], addrOf);
      assert r[1..] == Insert(StringLe, x, s[1..]);
    }
  }

  lemma {:induction false} AddressesOfSort(s: seq<string>, addrOf: map<string, string>)
    ensures multiset(Addresses(Sort(StringLe, s), addrOf)) == multiset(Addresses(s, addrOf))
  {
    if s != [] {
      AddressesOfSort(s[1..], addrOf);
      AddressesOfInsert(s[0], Sort(StringLe, s[1..]), addrOf);
    }
  }

  lemma AddressesOfPermutation(a: seq<string>, b: seq<string>, addrOf: map<string, string>)
    requires multiset(a) == multiset(b)
    ensures multiset(Addresses(a, addrOf)) == multiset(Addresses(b, addrOf))
  {
    StringOrder();
    SortIgnoresOrder(StringLe, a, b);
    AddressesOfSort(a, addrOf);
    AddressesOfSort(b, addrOf);
  }

  /** All nodes compute the same plan, whatever order they received the keep list in. */
  lemma PlanIgnoresOrder(keep: seq<string>, keep': seq<string>, addrOf: map<string, string>, n: nat,
                         assign: Assign, mappings: seq<NodeMapping>, assign': Assign, mappings': seq<NodeMapping>)
    requires multiset(keep) == multiset(keep')
    requires NodePlan(assign, mappings, n, Sort(StringLe, Addresses(keep, addrOf)))
    requires NodePlan(assign', mappings', n, Sort(StringLe, Addresses(keep', addrOf)))
    ensures assign == assign' && mappings == mappings'
  {
    StringOrder();
    AddressesOfPermutation(keep, keep', addrOf);
    SortIgnoresOrder(StringLe, Addresses(keep, addrOf), Addresses(keep', addrOf));
    var addrs := Sort(StringLe, Addresses(keep, addrOf));
    forall vb | vb in assign ensures vb in assign' && assign[vb] == assign'[vb] {
      EvenShares(n, |addrs|, vb);
      var i: nat :| Within(n, |addrs|, i, vb);
    }
  }

  ghost predicate InRange(mapping: NodeMapping, vb: nat) {
    mapping.startVb <= vb < mapping.startVb + mapping.vbsCount
  }

  /** Every vbucket below n lies in the range of one node, and is assigned to that node. */
  lemma NodePlanCovers(assign: Assign, mappings: seq<NodeMapping>, n: nat, addrs: seq<string>, vb: nat) returns (k: nat)
    requires NodePlan(assign, mappings, n, addrs) && vb < n
    ensures k < |mappings| && InRange(mappings[k], vb) && assign[vb] == mappings[k].hostname
    ensures forall i | 0 <= i < |mappings| && InRange(mappings[i], vb) :: i == k
  {
    EvenShares(n, |addrs|, vb);
    k :| Within(n, |addrs|, k, vb);
    forall i | 0 <= i < |mappings| && InRange(mappings[i], vb) ensures i == k {
      assert Within(n, |addrs|, i, vb);
    }
  }

  /** The ranges are contiguous and ascending from 0 to n, and their sizes differ by at most one. */
  lemma NodePlanIsEven(assign: Assign, mappings: seq<NodeMapping>, n: nat, addrs: seq<string>)
    requires NodePlan(assign, mappings, n, addrs)
    ensures mappings[0].startVb == 0
    ensures forall i | 0 <= i < |mappings| - 1 :: mappings[i + 1].startVb == mappings[i].startVb + mappings[i].vbsCount
    ensures var last := mappings[|mappings| - 1]; last.startVb + last.vbsCount == n
    ensures forall i, j | 0 <= i < |mappings| && 0 <= j < |mappings| :: mappings[i].vbsCount - mappings[j].vbsCount <= 1
  {
    SharesAddUp(n, |addrs|);
  }

  // ---- The two worker plans agree ------------------------------------------

  /** Each vbucket of the plan has one node, the planned one, and one of its workers. */
  lemma WorkerOf(vbMapping: map<nat, Assignment>, assign: Assign, app: string, workers: nat, vb: nat) returns (k: nat)
    requires GlobalPlan(vbMapping, assign, app, workers) && vb in assign
    ensures k < workers && vbMapping[vb] == Assignment(assign[vb], WorkerName(app, k))
    ensures forall i: nat | i < workers && vbMapping[vb].assignedWorker == WorkerName(app, i) :: i == k
  {
    var vbs := SomeList(VbsOf(assign, assign[vb]));
    assert vb in VbsOf(assign, assign[vb]);
    var j :| 0 <= j < |vbs| && vbs[j] == vb;
    assert Dealt(vbMapping, app, workers, assign[vb], vbs);
    EvenShares(|vbs|, workers, j);
    k :| Within(|vbs|, workers, k, j);
    forall i: nat | i < workers && vbMapping[vb].assignedWorker == WorkerName(app, i) ensures i == k {
      WorkerNamesDiffer(app, i, k);
    }
  }

  /** For every node, a vbucket is mapped to worker i of that node exactly if worker i of that node lists it. */
  lemma PlansAgree(vbMapping: map<nat, Assignment>, m: map<string, seq<nat>>, assign: Assign, app: string, workers: nat,
                   node: string, vb: nat, i: nat)
    requires GlobalPlan(vbMapping, assign, app, workers) && LocalPlan(m, assign, app, workers, node) && i < workers
    ensures (vb in vbMapping && vbMapping[vb] == Assignment(node, WorkerName(app, i))) <==> vb in Listed(m, WorkerName(app, i))
  {
    var vbs := SomeList(VbsOf(assign, node));
    assert ListsShare(m, app, workers, vbs, i) && Dealt(vbMapping, app, workers, node, vbs);
    if vb in VbsOf(assign, node) {
      var j :| 0 <= j < |vbs| && vbs[j] == vb;
      EvenShares(|vbs|, workers, j);
      var k: nat :| Within(|vbs|, workers, k, j);
      InSlice(vbs, Start(|vbs|, workers, i), Start(|vbs|, workers, i + 1), j);
      assert vb in Listed(m, WorkerName(app, i)) <==> Within(|vbs|, workers, i, j);
      if WorkerName(app, i) == WorkerName(app, k) { WorkerNamesDiffer(app, i, k); }
    } else if vb in vbMapping {
      var k := WorkerOf(vbMapping, assign, app, workers, vb);
    }
  }

  lemma InSlice(l: seq<nat>, lo: nat, hi: nat, j: nat)
    requires lo <= hi <= |l| && j < |l| && forall a, b | 0 <= a < b < |l| :: l[a] < l[b]
    ensures l[j] in l[lo..hi] <==> lo <= j < hi
  {
    if lo <= j < hi { assert l[lo..hi][j - lo] == l[j]; }
  }
}
