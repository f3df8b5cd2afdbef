/**
 How much of a rebalance remains, from the streams of one consumer up to the
 number that the cluster manager is shown (consumer/http_handlers.go,
 producer/exported_functions.go, util/util.go, service_manager/rebalancer.go).
 Fractions are real numbers.
 */
module Progress {

  datatype Progress = Progress(closeStreamVbsLen: nat, streamReqVbsLen: nat, vbsOwnedPerPlan: nat, vbsRemainingToShuffle: nat)

  const NOTHING := Progress(0, 0, 0, 0)

  /** Whoever is to own vbuckets and does not yet report completion has work left. */
  predicate Sound(p: Progress) {
    p.vbsOwnedPerPlan > 0 ==> p.vbsRemainingToShuffle > 0
  }

  // ---- One consumer ------------------------------------------------------------

  /** Who has requested the stream of a vbucket, as far as the consumer knows. */
  datatype Requested = Requested(nodeUuid: string, worker: string)

  datatype Consumer = Consumer(
    nodeUuid: string, name: string, plan: set<nat>, shouldOwn: set<nat>, requested: map<nat, Requested>,
    owned: nat, ejected: bool, drained: bool, busy: bool, rebalanceOngoing: bool)

  function RemainingToCloseStream(c: Consumer): set<nat> {
    set vb | vb in c.requested && c.requested[vb].worker == c.name && vb !in c.shouldOwn
  }

  function RemainingToStreamReq(c: Consumer): set<nat> {
    set vb | vb in c.plan && vb in c.shouldOwn && !(vb in c.requested && c.requested[vb] == Requested(c.nodeUuid, c.name))
  }

  /** The streams that the consumer has requested are those that it should own. */
  ghost predicate AsPlanned(c: Consumer) {
    && (forall vb | vb in c.plan && vb in c.shouldOwn :: vb in c.requested && c.requested[vb] == Requested(c.nodeUuid, c.name))
    && (forall vb | vb in c.requested && c.requested[vb].worker == c.name :: vb in c.shouldOwn)
  }

  /** Nothing is left to do for the consumer. */
  ghost predicate ConsumerDone(c: Consumer) {
    AsPlanned(c) && (c.ejected ==> c.drained) && !c.busy
  }

  /**
   While an ejected node drains its queues, the work left is a random number. The mark of an ongoing rebalance goes
   when nothing is left.
   */
  method ConsumerProgress(c: Consumer, random: nat) returns (p: Progress, rebalanceOngoing: bool)
    requires 1 <= random <= 5
    ensures Sound(p)
    ensures p.vbsRemainingToShuffle == 0 <==> ConsumerDone(c)
    ensures AsPlanned(c) ==> p.vbsOwnedPerPlan == 0
    ensures rebalanceOngoing == (c.rebalanceOngoing && !ConsumerDone(c))
  {
    p, rebalanceOngoing := NOTHING, c.rebalanceOngoing;
    var toClose, toRequest := RemainingToCloseStream(c), RemainingToStreamReq(c);
    NothingToDo(c);
    if |toClose| > 0 || |toRequest| > 0 {
      p := Progress(|toClose|, |toRequest|, c.owned, |toClose| + |toRequest|);
    }
    if c.ejected && !c.drained {
      p := p.(vbsRemainingToShuffle := random, closeStreamVbsLen := random);
      return;
    }
    if c.busy && p.vbsRemainingToShuffle == 0 {
      p := p.(vbsRemainingToShuffle := p.vbsRemainingToShuffle + 1);
    }
    if p.vbsRemainingToShuffle == 0 {
      rebalanceOngoing := false;
    }
  }

  lemma NothingToDo(c: Consumer)
    ensures AsPlanned(c) <==> |RemainingToCloseStream(c)| == 0 && |RemainingToStreamReq(c)| == 0
  {
    var toClose, toRequest := RemainingToCloseStream(c), RemainingToStreamReq(c);
    assert |toClose| == 0 <==> toClose == {};
    assert |toRequest| == 0 <==> toRequest == {};
    assert forall vb | vb in c.requested && c.requested[vb].worker == c.name :: vb in c.shouldOwn || vb in toClose;
    assert forall vb | vb in c.plan && vb in c.shouldOwn ::
        vb in toRequest || (vb in c.requested && c.requested[vb] == Requested(c.nodeUuid, c.name));
  }

  // ---- Sums ----------------------------------------------------------------------

  function Add(p: Progress, q: Progress): Progress {
    Progress(p.closeStreamVbsLen + q.closeStreamVbsLen, p.streamReqVbsLen + q.streamReqVbsLen,
             p.vbsOwnedPerPlan + q.vbsOwnedPerPlan, p.vbsRemainingToShuffle + q.vbsRemainingToShuffle)
  }

  function Sum(ps: seq<Progress>): Progress {
    if ps == [] then NOTHING else Add(Sum(ps[..|ps| - 1]), ps[|ps| - 1])
  }

  /** Soundness survives summing, and a sum of nothing left means that nothing is left anywhere. */
  lemma {:induction false} SumIsSound(ps: seq<Progress>)
    requires forall p | p in ps :: Sound(p)
    ensures Sound(Sum(ps))
    ensures Sum(ps).vbsRemainingToShuffle == 0 <==> forall p | p in ps :: p.vbsRemainingToShuffle == 0
  {
    if ps != [] {
      var before, last := ps[..|ps| - 1], ps[|ps| - 1];
      assert last in ps && Sound(last);
      assert forall p :: p in ps <==> p in before || p == last;
      SumIsSound(before);
    }
  }

  /** What a function, a node or the cluster reports: the sum over its parts, and one more while it is starting up. */
  method Aggregate(parts: seq<Progress>, starting: bool) returns (p: Progress)
    requires forall q | q in parts :: Sound(q)
    ensures Sound(p)
    ensures p == Sum(parts).(vbsRemainingToShuffle := Sum(parts).vbsRemainingToShuffle + (if starting then 1 else 0))
    ensures p.vbsRemainingToShuffle == 0 <==> !starting && forall q | q in parts :: q.vbsRemainingToShuffle == 0
  {
    p := NOTHING;
    for i := 0 to |parts|
      invariant p == Sum(parts[..i])
    {
      assert parts[..i + 1][..i] == parts[..i];
      p := Add(p, parts[i]);
    }
    assert parts[..|parts|] == parts;
    SumIsSound(parts);
    if starting {
      p := p.(vbsRemainingToShuffle := p.vbsRemainingToShuffle + 1);
    }
  }

  // ---- Functions, nodes, the cluster -------------------------------------------------

  /** A function on a node: running, not yet running, or not known to be running. */
  datatype Function =
    | Active(consumers: seq<Consumer>, lazyUndeploy: bool, starting: bool)
    | Pending(nodeInCluster: bool)
    | Unknown

  type Node = seq<Function>

  ghost predicate FunctionDone(f: Function) {
    match f
    case Active(consumers, lazyUndeploy, starting) => lazyUndeploy || (!starting && forall c | c in consumers :: ConsumerDone(c))
    case Pending(nodeInCluster) => !nodeInCluster
    case Unknown => true
  }

  method FunctionProgress(f: Function, random: nat) returns (p: Progress)
    requires 1 <= random <= 5
    ensures Sound(p) && (p.vbsRemainingToShuffle == 0 <==> FunctionDone(f))
  {
    match f
    case Active(consumers, lazyUndeploy, starting) =>
      if lazyUndeploy {
        return NOTHING;
      }
      var parts: seq<Progress> := [];
      for i := 0 to |consumers|
        invariant |parts| == i
        invariant forall k | 0 <= k < i ::
                    Sound(parts[k]) && (parts[k].vbsRemainingToShuffle == 0 <==> ConsumerDone(consumers[k]))
      {
        var part, ongoing := ConsumerProgress(consumers[i], random);
        parts := parts + [part];
      }
      p := Aggregate(parts, starting);
      assert forall i | 0 <= i < |parts| :: parts[i] in parts && consumers[i] in consumers;
    case Pending(nodeInCluster) =>
      return if nodeInCluster then Progress(0, 0, 0, 1) else NOTHING;
    case Unknown =>
      return NOTHING;
  }

  method NodeProgress(node: Node, random: nat) returns (p: Progress)
    requires 1 <= random <= 5
    ensures Sound(p) && (p.vbsRemainingToShuffle == 0 <==> forall f | f in node :: FunctionDone(f))
  {
    var parts: seq<Progress> := [];
    for i := 0 to |node|
      invariant |parts| == i
      invariant forall k | 0 <= k < i :: Sound(parts[k]) && (parts[k].vbsRemainingToShuffle == 0 <==> FunctionDone(node[k]))
    {
      var part := FunctionProgress(node[i], random);
      parts := parts + [part];
    }
    p := Aggregate(parts, false);
    assert forall i | 0 <= i < |parts| :: parts[i] in parts && node[i] in node;
  }

  /** Nothing remains in the sum over the cluster exactly if every consumer of every function on every node is done. */
  method ClusterProgress(nodes: seq<Node>, random: nat) returns (p: Progress)
    requires 1 <= random <= 5
    ensures Sound(p) && (p.vbsRemainingToShuffle == 0 <==> forall node, f | node in nodes && f in node :: FunctionDone(f))
  {
    var parts: seq<Progress> := [];
    for i := 0 to |nodes|
      invariant |parts| == i
      invariant forall k | 0 <= k < i ::
                  Sound(parts[k]) && (parts[k].vbsRemainingToShuffle == 0 <==> forall f | f in nodes[k] :: FunctionDone(f))
    {
      var part := NodeProgress(nodes[i], random);
      parts := parts + [part];
    }
    p := Aggregate(parts, false);
    assert forall i | 0 <= i < |parts| :: parts[i] in parts && nodes[i] in nodes;
  }

  // ---- The rebalancer --------------------------------------------------------------

  const STALENESS := 400
  const EPSILON: real := 0.00001

  predicate Near(a: real, b: real) { -EPSILON <= a - b <= EPSILON }

  /** One tick: what the cluster answers, whether it answers, and whether the stored total can be read and written. */
  datatype Sample = Sample(p: Progress, errors: nat, readable: bool, writable: bool)

  datatype Report = Report(remaining: nat, total: nat, progress: real)

  datatype Outcome = Completed | NoAnswer | NotStored | Stale | Unfinished

  /** A report is a fraction of a total that is not zero, and is 1 exactly if nothing remains. */
  ghost predicate WellDefined(r: Report) {
    && 0.0 <= r.progress <= 1.0
    && (r.progress == 1.0 <==> r.remaining == 0)
    && (r.remaining > 0 ==> r.remaining <= r.total && r.progress == 1.0 - (r.remaining as real) / (r.total as real))
  }

  lemma Fraction(remaining: nat, total: nat)
    requires 0 < remaining <= total
    ensures WellDefined(Report(remaining, total, 1.0 - (remaining as real) / (total as real)))
  {
    var r, t := remaining as real, total as real;
    assert t * (r / t) == r;
    assert 0.0 < r / t <= 1.0;
  }

  /** The last n reports hardly differ from one another. */
  ghost predicate Flat(reports: seq<Report>, n: nat) {
    n <= |reports| && forall i | |reports| - n < i < |reports| :: Near(reports[i - 1].progress, reports[i].progress)
  }

  /** A tick that leads to a report of unfinished work. */
  predicate Shows(s: Sample) {
    s.errors == 0 && s.p.vbsRemainingToShuffle > 0 && s.readable
  }

  function Max(a: nat, b: nat): nat { if a < b then b else a }

  /** The report of what remains out of a total. */
  function ReportOf(remaining: nat, total: nat): Report
    requires total > 0
  {
    Report(remaining, total, 1.0 - (remaining as real) / (total as real))
  }

  /** The largest amount of work seen in the first k ticks, or stored before. */
  function Peak(initial: nat, samples: seq<Sample>, k: nat): nat
    requires k <= |samples|
  {
    if k == 0 then initial
    else
      var s, before := samples[k - 1], Peak(initial, samples, k - 1);
      if Shows(s) then Max(before, s.p.vbsRemainingToShuffle) else before
  }

  /** The reports that the first k ticks lead to: what remains, out of the most that was seen so far. */
  function Reports(initial: nat, samples: seq<Sample>, k: nat): seq<Report>
    requires k <= |samples|
  {
    if k == 0 then []
    else
      var s, before := samples[k - 1], Reports(initial, samples, k - 1);
      if Shows(s) then before + [ReportOf(s.p.vbsRemainingToShuffle, Peak(initial, samples, k))] else before
  }

  /** Reports are fractions below 1 of totals that are not zero and never shrink. */
  lemma {:induction false} ReportsAreWellDefined(initial: nat, samples: seq<Sample>, k: nat)
    requires k <= |samples|
    ensures initial <= Peak(initial, samples, k)
    ensures forall i | 0 <= i < |Reports(initial, samples, k)| ::
              var r := Reports(initial, samples, k)[i];
              WellDefined(r) && r.progress < 1.0 && initial <= r.total <= Peak(initial, samples, k)
    ensures forall i, j | 0 <= i < j < |Reports(initial, samples, k)| ::
              Reports(initial, samples, k)[i].total <= Reports(initial, samples, k)[j].total
  {
    if k > 0 {
      ReportsAreWellDefined(initial, samples, k - 1);
      var s := samples[k - 1];
      if Shows(s) { Fraction(s.p.vbsRemainingToShuffle, Peak(initial, samples, k)); }
    }
  }

  datatype Decision = Skip | Show(report: Report) | Stop(outcome: Outcome)

  /**
   One tick of the loop of gatherProgress. The cluster is asked through one address, so at most one error comes back;
   the branch for as many errors as there are nodes, more than one, is never taken.
   */
  method Tick(s: Sample, keepNodes: nat, stored: nat, progress: real, counter: nat)
    returns (decision: Decision, stored': nat, counter': nat)
    requires Sound(s.p) && s.errors <= 1 && counter < STALENESS
    ensures stored' == if Shows(s) then Max(stored, s.p.vbsRemainingToShuffle) else stored
    ensures decision == Stop(Completed) <==> s.errors == 0 && s.p.vbsRemainingToShuffle == 0
    ensures decision == Skip <==> s.errors > 0 || (s.p.vbsRemainingToShuffle > 0 && !s.readable)
    ensures decision == Stop(NotStored) <==> Shows(s) && s.p.vbsRemainingToShuffle > stored && !s.writable
    ensures Shows(s) && decision != Stop(NotStored) ==>
              && stored' > 0
              && var report := ReportOf(s.p.vbsRemainingToShuffle, stored');
              && counter' == (if Near(progress, report.progress) then counter + 1 else 0)
              && decision == if counter' == STALENESS then Stop(Stale) else Show(report)
    ensures !Shows(s) ==> counter' == counter
  {
    if s.errors == keepNodes && keepNodes > 1 {
      return Stop(NoAnswer), stored, counter;
    } else if s.errors > 0 {
      return Skip, stored, counter;
    }
    if s.p.vbsOwnedPerPlan == 0 && s.p.vbsRemainingToShuffle == 0 {
      return Stop(Completed), stored, counter;
    }
    if !s.readable {
      return Skip, stored, counter;
    }
    var remaining := s.p.vbsRemainingToShuffle;
    stored' := stored;
    if remaining > stored {
      stored' := remaining;
      if !s.writable {
        return Stop(NotStored), stored', counter;
      }
    }
    var now := 1.0 - (remaining as real) / (stored' as real);
    counter' := if Near(progress, now) then counter + 1 else 0;
    if counter' == STALENESS {
      return Stop(Stale), stored', counter';
    }
    return Show(Report(remaining, stored', now)), stored', counter';
  }

  /** Whatever ends the loop, 1 is reported last or not at all. */
  lemma OneIsLast(initial: nat, samples: seq<Sample>, k: nat, completed: bool, reports: seq<Report>)
    requires k <= |samples|
    requires completed ==> reports == Reports(initial, samples, k) + [Report(0, Peak(initial, samples, k), 1.0)]
    requires !completed ==> reports == Reports(initial, samples, k)
    ensures forall i | 0 <= i < |reports| ::
              WellDefined(reports[i]) && (reports[i].progress == 1.0 <==> completed && i == |reports| - 1)
  {
    ReportsAreWellDefined(initial, samples, k);
    forall i | 0 <= i < |Reports(initial, samples, k)| ensures WellDefined(reports[i]) && reports[i].progress < 1.0 {
      assert reports[i] == Reports(initial, samples, k)[i];
    }
  }

  /** The loop stops at the first tick that completes or fails, and reports exactly what the ticks before it lead to. */
  method GatherProgress(initial: nat, samples: seq<Sample>, keepNodes: nat)
    returns (reports: seq<Report>, outcome: Outcome, ghost ticks: nat)
    requires forall s | s in samples :: Sound(s.p) && s.errors <= 1
    ensures ticks <= |samples|
    ensures reports == Reports(initial, samples, ticks) +
                       (if outcome == Completed then [Report(0, Peak(initial, samples, ticks), 1.0)] else [])
    ensures outcome == Unfinished <==> ticks == |samples|
    ensures outcome == Completed <==> ticks < |samples| && samples[ticks].errors == 0 && samples[ticks].p.vbsRemainingToShuffle == 0
    ensures outcome in {Completed, NotStored, Stale, Unfinished}
    ensures outcome == Stale ==> Flat(reports, STALENESS - 1)
    ensures forall i | 0 <= i < |reports| :: WellDefined(reports[i])
    ensures forall i | 0 <= i < |reports| :: reports[i].progress == 1.0 <==> outcome == Completed && i == |reports| - 1
  {
    reports := [];
    var stored: nat, progress, counter: nat := initial, 0.0, 0;
    for i := 0 to |samples|
      invariant stored == Peak(initial, samples, i) && reports == Reports(initial, samples, i)
      invariant reports != [] ==> reports[|reports| - 1].progress == progress
      invariant counter < STALENESS && Flat(reports, counter)
    {
      assert samples[i] in samples;
      var decision;
      decision, stored, counter := Tick(samples[i], keepNodes, stored, progress, counter);
      match decision
      case Skip =>
      case Stop(end) =>
        if end == Completed {
          reports := reports + [Report(0, stored, 1.0)];
        }
        OneIsLast(initial, samples, i, end == Completed, reports);
        return reports, end, i;
      case Show(report) =>
        progress := report.progress;
        reports := reports + [report];
    }
    OneIsLast(initial, samples, |samples|, false, reports);
    return reports, Unfinished, |samples|;
  }
}
