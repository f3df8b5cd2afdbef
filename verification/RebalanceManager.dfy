/**
 The status that a node reports while a rebalance runs, the clients that wait for
 it to change, and the callbacks of the rebalancer (service_manager/manager.go,
 service_manager/service_manager.go). Every method is one critical section.
 */
module RebalanceManager {
  import opened Prelude

  datatype Status = Running | Failed

  datatype Task = Task(rev: nat, id: string, status: Status, progress: real, errorMessage: string)

  datatype ChangeKind = Failover | Rebalance | OtherKind

  datatype Change = Change(id: string, kind: ChangeKind, keepNodes: seq<string>, ejectNodes: seq<string>, currentTopologyRev: Option<nat>)

  datatype Context = Context(change: Change, rev: nat)

  datatype State = State(rebalanceID: string, rebalanceTask: Option<Task>, rev: nat, servers: seq<string>, isBalanced: bool)

  datatype Error = Ok | NotFound | Conflict | NotSupported | NotReady | Blocked

  /** What a rebalancer reports: how far it is, that it is done, or that it has failed. */
  datatype Callback = Progress(progress: real) | Success | Failure(error: string)

  function RunningTask(ctx: Context, progress: real): Task {
    Task(ctx.rev, ctx.change.id, Running, progress, "")
  }

  function FailedTask(ctx: Context, error: string): Task {
    Task(ctx.rev, "rebalance/" + ctx.change.id, Failed, 0.0, error)
  }

  datatype Request =
    | Prepare(change: Change, ready: bool)
    | Start(change: Change)
    | Cancel(id: string, rev: Option<nat>, pending: Option<Callback>)
    | Report(k: nat, callback: Callback)
    | Poll

  // ---- A manager that never blocks --------------------------------------------

  /** What a manager reports, and the one rebalancer that it listens to. */
  datatype Machine = Machine(rebalanceID: string, rev: nat, task: Option<Task>, current: Option<nat>, started: nat)

  /** The change was not prepared, or a rebalance is still running: the refusal that keeps a read lock. */
  predicate Refuses(m: Machine, request: Request) {
    request.Start? && (m.rebalanceID != request.change.id || m.current.Some?)
  }

  /** The revision that a request names, if it names one, is the current one. */
  predicate Fits(rev: Option<nat>, now: nat) {
    rev.Some? ==> rev.value == now
  }

  /** The rebalance that was prepared begins. */
  predicate Launches(m: Machine, request: Request) {
    && request.Start? && request.change.kind == Rebalance && !Refuses(m, request)
    && Fits(request.change.currentTopologyRev, m.rev)
  }

  /** A running rebalance comes to its end by itself. */
  predicate Ends(m: Machine, request: Request) {
    request.Report? && m.current == Some(request.k) && !request.callback.Progress?
  }

  /** What is reported as a task is cancelled. */
  predicate Cancels(m: Machine, request: Request) {
    && request.Cancel? && m.task.Some? && m.task.value.id == request.id
    && Fits(request.rev, m.task.value.rev)
  }

  /** A running rebalance is cancelled while its rebalancer is on the way into the callback for a failure. */
  predicate Collides(m: Machine, request: Request) {
    && Cancels(m, request) && m.task.value.status == Running
    && request.pending.Some? && request.pending.value.Failure?
  }

  /** The request needs the write lock of rebalancerMutex. */
  predicate Locks(m: Machine, request: Request) {
    || Launches(m, request)
    || Ends(m, request)
    || (Cancels(m, request) && m.task.value.status == Running)
  }

  /** What a manager that never blocks does. */
  function Next(m: Machine, request: Request): Machine {
    if request.Prepare? && !(request.change.kind == Rebalance && !request.ready) then
      m.(rebalanceID := request.change.id, rev := m.rev + 1)
    else if Launches(m, request) then
      m.(task := Some(Task(0, request.change.id, Running, 0.0, "")), rev := m.rev + 1,
         current := Some(m.started), started := m.started + 1)
    else if Cancels(m, request) then
      if m.task.value.status == Running then m.(task := None, rev := m.rev + 1, rebalanceID := "", current := None)
      else m.(task := None, rev := m.rev + 1)
    else if request.Report? && m.current == Some(request.k) && m.task.Some? then
      var task := m.task.value.(rev := m.task.value.rev + 1);
      match request.callback
      case Progress(progress) => m.(task := Some(Task(task.rev, task.id, Running, progress, "")), rev := m.rev + 1)
      case Success => m.(task := None, rev := m.rev + 1, rebalanceID := "", current := None)
      case Failure(error) =>
        m.(task := Some(Task(task.rev, "rebalance/" + task.id, Failed, 0.0, error)), rev := m.rev + 1,
           rebalanceID := "", current := None)
    else m
  }

  /** The state after the first n requests. */
  function After(m: Machine, requests: seq<Request>, n: nat): Machine
    requires n <= |requests|
  {
    if n == 0 then m else Next(After(m, requests, n - 1), requests[n - 1])
  }

  predicate RefusedAt(m: Machine, requests: seq<Request>, i: nat)
    requires i < |requests|
  {
    Refuses(After(m, requests, i), requests[i])
  }

  /** How many of the first n requests are starts that are refused. */
  function Refusals(m: Machine, requests: seq<Request>, n: nat): nat
    requires n <= |requests|
  {
    if n == 0 then 0 else Refusals(m, requests, n - 1) + (if RefusedAt(m, requests, n - 1) then 1 else 0)
  }

  /**
   The n-th request needs a lock after a start was refused, or when a read lock had been kept before, or it is a
   cancellation that meets a failure.
   */
  predicate Stalls(m: Machine, kept: nat, requests: seq<Request>, n: nat)
    requires n < |requests|
  {
    var now := After(m, requests, n);
    || (Locks(now, requests[n]) && (kept > 0 || exists i | 0 <= i < n :: RefusedAt(m, requests, i)))
    || Collides(now, requests[n])
  }

  lemma {:induction false} RefusalsCount(m: Machine, requests: seq<Request>, n: nat)
    requires n <= |requests|
    ensures Refusals(m, requests, n) > 0 <==> exists i | 0 <= i < n :: RefusedAt(m, requests, i)
  {
    if n > 0 { RefusalsCount(m, requests, n - 1); }
  }

  lemma StallsOrNot(m: Machine, kept: nat, requests: seq<Request>, n: nat)
    requires n < |requests|
    ensures var now := After(m, requests, n);
            Stalls(m, kept, requests, n) <==>
              (Locks(now, requests[n]) && kept + Refusals(m, requests, n) > 0) || Collides(now, requests[n])
  {
    RefusalsCount(m, requests, n);
  }

  class ServiceMgr {
    var state: State
    var rebalanceCtx: Option<Context>
    /** The rebalancer that the manager refers to, by number. */
    var rebalancer: Option<nat>
    var started: nat
    /** Rebalancers whose cancel channel is closed, and those whose last callback has run. */
    var cancelled: set<nat>
    var ended: set<nat>
    var waiters: set<nat>
    var added: nat
    /** The channel of every waiter, which holds one state at most. */
    var channel: map<nat, Option<State>>
    /** Read locks of rebalancerMutex that no one will release. */
    var leaked: nat
    /** A call blocks for ever while it holds the mutex of the manager. */
    var stuck: bool
    /** The revision that each waiter has. */
    ghost var have: map<nat, nat>

    function Abstract(): Machine
      reads this
    {
      Machine(state.rebalanceID, state.rev, state.rebalanceTask, rebalancer, started)
    }

    /** A running task belongs to the one rebalancer that is neither cancelled nor at its end, and to a live context. */
    ghost predicate Coherent()
      reads this
    {
      && (TaskRuns() <==> rebalancer.Some?)
      && (forall k | k in cancelled + ended :: k < started)
      && (forall k: nat :: Alive(k) <==> rebalancer == Some(k))
      && (rebalancer.Some? ==>
            && rebalanceCtx.Some? && rebalanceCtx.value.change.kind == Rebalance
            && var task := state.rebalanceTask.value;
               task.id == rebalanceCtx.value.change.id && task.rev + 1 == rebalanceCtx.value.rev)
    }

    predicate TaskRuns()
      reads this
    {
      state.rebalanceTask.Some? && state.rebalanceTask.value.status == Running
    }

    predicate Alive(k: nat)
      reads this
    {
      k < started && k !in cancelled && k !in ended
    }

    /** A registered waiter has the current revision and an empty channel; what a channel holds is newer. */
    ghost predicate Waiting()
      reads this
    {
      && channel.Keys == have.Keys && waiters <= channel.Keys
      && (forall w | w in waiters :: channel[w] == None && have[w] == state.rev)
      && (forall w | w in channel :: w < added && (channel[w].Some? ==> have[w] < channel[w].value.rev <= state.rev))
      && (forall w | w in channel && w !in waiters :: channel[w].Some?)
    }

    ghost predicate Valid()
      reads this
    {
      Waiting() && (!stuck ==> Coherent())
    }

    constructor ()
      ensures Valid() && !stuck && leaked == 0 && state.rev == 0 && rebalancer == None && waiters == {}
      ensures started == 0 && cancelled == ended == {}
    {
      state := State("", None, 0, [], false);
      rebalanceCtx, rebalancer, started, cancelled, ended := None, None, 0, {}, {};
      waiters, added, channel, have := {}, 0, map[], map[];
      leaked, stuck := 0, false;
    }

    /** Every update has the next revision and reaches every waiter, none of whose channels is full. */
    method UpdateStateLocked(s: State)
      requires Waiting()
      modifies this`state, this`waiters, this`channel
      ensures Waiting() && state == s.(rev := old(state.rev) + 1)
      ensures waiters == {} && channel.Keys == old(channel.Keys)
      ensures forall w | w in channel :: channel[w] == if w in old(waiters) then Some(state) else old(channel[w])
    {
      state := s.(rev := state.rev + 1);
      var todo := waiters;
      while todo != {}
        invariant todo <= waiters == old(waiters) && channel.Keys == old(channel.Keys)
        invariant state == s.(rev := old(state.rev) + 1)
        invariant forall w | w in channel :: channel[w] == if w in waiters - todo then Some(state) else old(channel[w])
      {
        var ch :| ch in todo;
        assert channel[ch] == None;
        channel := channel[ch := Some(state)];
        todo := todo - {ch};
      }
      waiters := {};
    }

    method UpdateRebalanceProgressLocked(progress: real)
      requires Waiting() && rebalanceCtx.Some?
      modifies this`state, this`waiters, this`channel, this`rebalanceCtx
      ensures Waiting() && waiters == {} && channel.Keys == old(channel.Keys)
      ensures var ctx := old(rebalanceCtx.value);
              && rebalanceCtx == Some(ctx.(rev := ctx.rev + 1))
              && state == old(state).(rebalanceTask := Some(RunningTask(ctx, progress)), rev := old(state.rev) + 1)
    {
      var ctx := rebalanceCtx.value;
      rebalanceCtx := Some(ctx.(rev := ctx.rev + 1));
      UpdateStateLocked(state.(rebalanceTask := Some(RunningTask(ctx, progress))));
    }

    /** The end of a rebalance. It blocks if a read lock of rebalancerMutex was never released. */
    method OnRebalanceDoneLocked(error: Option<string>, cancelRebalance: bool)
      requires Waiting() && (error.Some? ==> rebalanceCtx.Some?) && !stuck
      modifies this`state, this`waiters, this`channel, this`rebalanceCtx, this`rebalancer, this`stuck
      ensures Waiting() && stuck == (leaked > 0)
      ensures !stuck ==> rebalancer == None && rebalanceCtx == None && waiters == {} && channel.Keys == old(channel.Keys)
      ensures !stuck ==> state.rev == old(state.rev) + 1 && state.servers == old(state.servers) && state.rebalanceID == ""
      ensures !stuck ==> state.isBalanced == (error.None? && !cancelRebalance)
      ensures !stuck && error.None? ==> state.rebalanceTask == None
      ensures !stuck && error.Some? ==> state.rebalanceTask == Some(FailedTask(old(rebalanceCtx.value), error.value))
      ensures stuck ==> state == old(state).(isBalanced := state.isBalanced) && channel == old(channel) && waiters == old(waiters)
    {
      var newTask := None;
      if error.Some? {
        var ctx := rebalanceCtx.value;
        rebalanceCtx := Some(ctx.(rev := ctx.rev + 1));
        newTask := Some(FailedTask(ctx, error.value));
      }
      state := state.(isBalanced := error.None? && !cancelRebalance);
      if leaked > 0 {
        stuck := true;
        return;
      }
      rebalancer := None;
      rebalanceCtx := None;
      UpdateStateLocked(state.(rebalanceTask := newTask, rebalanceID := ""));
    }

    method PrepareTopologyChange(change: Change, ready: bool) returns (err: Error)
      requires Valid() && !stuck
      modifies this`state, this`waiters, this`channel
      ensures Valid()
      ensures err == if change.kind == Rebalance && !ready then NotReady else Ok
      ensures err != Ok ==> state == old(state).(isBalanced := false) && waiters == old(waiters) && channel == old(channel)
      ensures err == Ok ==> state == old(state).(rebalanceID := change.id, servers := change.keepNodes + change.ejectNodes,
                                                 rev := old(state.rev) + 1, isBalanced := true)
    {
      if change.kind == Rebalance && !ready {
        state := state.(isBalanced := false);
        return NotReady;
      }
      UpdateStateLocked(state.(rebalanceID := change.id, servers := change.keepNodes + change.ejectNodes));
      state := state.(isBalanced := true);
      return Ok;
    }

    /** The change was not prepared, or a rebalance is still running. */
    predicate Unprepared(change: Change)
      reads this
    {
      state.rebalanceID != change.id || rebalancer.Some?
    }

    /** The change was made for another topology. */
    predicate Outdated(change: Change)
      reads this
    {
      change.currentTopologyRev.Some? && change.currentTopologyRev.value != state.rev
    }

    /** Starts the rebalance that was prepared. The first conflict returns with rebalancerMutex still read-locked. */
    method StartTopologyChange(change: Change) returns (err: Error)
      requires Valid() && !stuck
      modifies this`state, this`rebalanceCtx, this`rebalancer, this`started, this`waiters, this`channel, this`leaked, this`stuck
      ensures Valid()
      ensures err in {Ok, Conflict, NotSupported, Blocked}
      ensures err == Conflict <==> old(Unprepared(change) || Outdated(change))
      ensures err == Conflict ==>
                unchanged(this`state, this`rebalanceCtx, this`rebalancer, this`started, this`waiters, this`channel, this`stuck)
      ensures leaked == old(leaked) + (if old(Unprepared(change)) then 1 else 0)
      ensures stuck <==> err == Blocked
      ensures stuck <==> err != Conflict && change.kind == Rebalance && leaked > 0
      ensures err == Ok && change.kind == Rebalance ==>
                && rebalancer == Some(old(started)) && started == old(started) + 1
                && state == old(state).(rebalanceTask := Some(Task(0, change.id, Running, 0.0, "")), rev := old(state.rev) + 1)
      ensures err == NotSupported <==> err != Conflict && change.kind == OtherKind
      ensures err != Conflict && !stuck ==> rebalanceCtx == Some(Context(change, if change.kind == Rebalance then 1 else 0))
      ensures change.kind != Rebalance ==> state == old(state) && rebalancer == old(rebalancer) && started == old(started)
      ensures state.rev >= old(state.rev)
    {
      if state.rebalanceID != change.id || rebalancer.Some? {
        leaked := leaked + 1;
        return Conflict;
      }
      if change.currentTopologyRev.Some? && change.currentTopologyRev.value != state.rev {
        return Conflict;
      }
      rebalanceCtx := Some(Context(change, 0));
      match change.kind
      case Failover =>
        return Ok;
      case Rebalance =>
        Launch();
        return if stuck then Blocked else Ok;
      case OtherKind =>
        return NotSupported;
    }

    /** Reports a running task and creates a rebalancer for it. */
    method Launch()
      requires Valid() && !stuck && rebalancer == None
      requires rebalanceCtx.Some? && rebalanceCtx.value.rev == 0 && rebalanceCtx.value.change.kind == Rebalance
      modifies this`state, this`rebalanceCtx, this`rebalancer, this`started, this`waiters, this`channel, this`stuck
      ensures Valid() && stuck == (leaked > 0)
      ensures state == old(state).(rebalanceTask := Some(RunningTask(old(rebalanceCtx.value), 0.0)), rev := old(state.rev) + 1)
      ensures !stuck ==> rebalancer == Some(old(started)) && started == old(started) + 1
      ensures rebalanceCtx == Some(Context(old(rebalanceCtx).value.change, 1))
    {
      assert forall k: nat :: !Alive(k);
      UpdateRebalanceProgressLocked(0.0);
      if leaked > 0 {
        stuck := true;
        return;
      }
      rebalancer := Some(started);
      started := started + 1;
    }

    /**
     Cancels a task. A running rebalancer is asked to stop and waited for: if it is on its way into the callback
     for a failure, which only ends with the rebalancer, neither goes on.
     */
    method CancelTask(id: string, rev: Option<nat>, pending: Option<Callback>) returns (err: Error)
      requires Valid() && !stuck
      modifies this`state, this`rebalanceCtx, this`rebalancer, this`cancelled, this`waiters, this`channel, this`stuck
      ensures Valid() && state.rev >= old(state.rev)
      ensures err in {Ok, NotFound, Conflict, Blocked}
      ensures err == NotFound <==> old(state.rebalanceTask.None? || state.rebalanceTask.value.id != id)
      ensures err == Conflict <==> old(state.rebalanceTask.Some? && state.rebalanceTask.value.id == id) &&
                                   !Fits(rev, old(state.rebalanceTask.value.rev))
      ensures err in {NotFound, Conflict} ==> unchanged(this)
      ensures stuck <==> err == Blocked
      ensures stuck <==> err !in {NotFound, Conflict} && old(TaskRuns()) && (leaked > 0 || (pending.Some? && pending.value.Failure?))
      ensures err == Ok ==> state.rebalanceTask == None && state.rev == old(state.rev) + 1 && rebalancer == None
      ensures err == Ok && old(TaskRuns()) ==>
                cancelled == old(cancelled) + {old(rebalancer.value)} && !state.isBalanced && state.rebalanceID == ""
      ensures err == Ok && !old(TaskRuns()) ==> cancelled == old(cancelled) && state.rebalanceID == old(state.rebalanceID)
    {
      if state.rebalanceTask.None? || state.rebalanceTask.value.id != id {
        return NotFound;
      }
      var task := state.rebalanceTask.value;
      if rev.Some? && rev.value != task.rev {
        return Conflict;
      }
      match task.status
      case Running =>
        cancelled := cancelled + {rebalancer.value};
        if pending.Some? && pending.value.Failure? {
          stuck := true;
          return Blocked;
        }
        OnRebalanceDoneLocked(None, true);
        return if stuck then Blocked else Ok;
      case Failed =>
        UpdateStateLocked(state.(rebalanceTask := None));
        return Ok;
    }

    /**
     The body of a callback of rebalancer k. The callbacks for progress and success look at the channel that cancels
     the rebalancer, the one for a failure at the channel that its end closes.
     */
    method RunRebalanceCallback(k: nat, callback: Callback)
      requires Valid() && !stuck
      requires k < started && k !in ended && (callback.Failure? ==> k !in cancelled)
      modifies this`state, this`waiters, this`channel, this`rebalanceCtx, this`rebalancer, this`stuck, this`ended
      ensures Valid() && state.rev >= old(state.rev)
      ensures k in cancelled ==> unchanged(this)
      ensures k !in cancelled ==> old(rebalancer) == Some(k)
      ensures stuck <==> k !in cancelled && !callback.Progress? && leaked > 0
      ensures k !in cancelled && !stuck ==> state.rev == old(state.rev) + 1
      ensures stuck ==> state.rebalanceTask == old(state.rebalanceTask)
      ensures k !in cancelled && callback.Progress? ==>
                && rebalancer == old(rebalancer) && ended == old(ended) && state.rebalanceID == old(state.rebalanceID)
                && state.rebalanceTask == Some(RunningTask(old(rebalanceCtx.value), callback.progress))
                && state.rebalanceTask.value.rev == old(state.rebalanceTask.value.rev) + 1
      ensures k !in cancelled && callback.Success? && !stuck ==>
                rebalancer == None && state.rebalanceTask == None && state.isBalanced && state.rebalanceID == ""
      ensures k !in cancelled && callback.Failure? && !stuck ==>
                && rebalancer == None && !state.isBalanced && state.rebalanceID == ""
                && state.rebalanceTask == Some(FailedTask(old(rebalanceCtx.value), callback.error))
                && state.rebalanceTask.value.rev == old(state.rebalanceTask.value.rev) + 1
    {
      if k in cancelled {
        return;
      }
      assert Alive(k);
      match callback
      case Progress(progress) =>
        UpdateRebalanceProgressLocked(progress);
      case Success =>
        OnRebalanceDoneLocked(None, false);
        ended := ended + {k};
      case Failure(error) =>
        OnRebalanceDoneLocked(Some(error), false);
        ended := ended + {k};
    }

    /** Waits for a state that is newer than the one the client has. */
    method Wait(rev: Option<nat>) returns (now: Option<State>, w: nat)
      requires Valid() && !stuck
      modifies this`waiters, this`added, this`channel, this`have
      ensures Valid()
      ensures now.Some? <==> rev != Some(state.rev)
      ensures now.Some? ==> now == Some(state) && unchanged(this)
      ensures now.None? ==> w in waiters && have[w] == rev.value && w !in old(channel)
      ensures now.None? ==> forall v | v in old(channel) :: v in channel && channel[v] == old(channel[v]) && have[v] == old(have[v])
    {
      if rev.None? || rev.value != state.rev {
        return Some(state), 0;
      }
      w := added;
      waiters, added := waiters + {w}, added + 1;
      channel, have := channel[w := None], have[w := state.rev];
      return None, w;
    }

    /** Receives the state that a waiter was sent, if it has been sent one. */
    method Receive(w: nat) returns (s: Option<State>)
      requires Valid() && w in channel
      modifies this`channel, this`have
      ensures Valid()
      ensures s.None? <==> w in waiters
      ensures s.None? ==> unchanged(this)
      ensures s.Some? ==> old(have)[w] < s.value.rev <= state.rev && channel == old(channel) - {w}
    {
      s := channel[w];
      if s.Some? {
        channel, have := channel - {w}, have - {w};
      }
    }

    /**
     Any call but those of the client. Unless it blocks, it does what a manager that never blocks does; it blocks if
     it needs a lock that was never released, or is a cancellation that meets a failure.
     */
    method Handle(request: Request)
      requires Valid() && !stuck
      modifies this`state, this`rebalanceCtx, this`rebalancer, this`started, this`cancelled, this`ended, this`waiters, this`channel,
               this`leaked, this`stuck
      ensures Valid() && state.rev >= old(state.rev)
      ensures leaked == old(leaked) + (if Refuses(old(Abstract()), request) then 1 else 0)
      ensures stuck <==> (Locks(old(Abstract()), request) && old(leaked) > 0) || Collides(old(Abstract()), request)
      ensures !stuck ==> Abstract() == Next(old(Abstract()), request)
    {
      match request
      case Prepare(change, ready) =>
        var err := PrepareTopologyChange(change, ready);
      case Start(change) =>
        var err := StartTopologyChange(change);
      case Cancel(id, rev, pending) =>
        var err := CancelTask(id, rev, pending);
      case Report(k, callback) =>
        HandleReport(k, callback);
      case Poll =>
    }

    /** A callback of a rebalancer, unless its channels say that nobody listens any more. */
    method HandleReport(k: nat, callback: Callback)
      requires Valid() && !stuck
      modifies this`state, this`waiters, this`channel, this`rebalanceCtx, this`rebalancer, this`stuck, this`ended
      ensures Valid() && state.rev >= old(state.rev)
      ensures stuck <==> Ends(old(Abstract()), Report(k, callback)) && leaked > 0
      ensures !stuck ==> Abstract() == Next(old(Abstract()), Report(k, callback))
    {
      if k < started && k !in ended && (callback.Failure? ==> k !in cancelled) {
        RunRebalanceCallback(k, callback);
      }
    }

    /** What the client has seen, and the revision that it waits with. */
    ghost predicate Client(seen: seq<nat>, waiting: Option<nat>)
      reads this
    {
      && (forall i, j | 0 <= i < j < |seen| :: seen[i] < seen[j])
      && (seen != [] ==> seen[|seen| - 1] <= state.rev)
      && (waiting.Some? ==> waiting.value in have && seen != [] && have[waiting.value] == seen[|seen| - 1])
    }

    /**
     Any run, with one client that always polls with the last revision it saw: the revisions that it sees increase
     strictly. The run gets stuck if and only if a request needs the lock after a start was refused for not being
     prepared, or a cancellation meets a failure; until then the manager does what one does that never blocks.
     */
    method Serve(requests: seq<Request>) returns (seen: seq<nat>)
      requires Valid() && !stuck
      modifies this
      ensures Valid() && state.rev >= old(state.rev)
      ensures forall i, j | 0 <= i < j < |seen| :: seen[i] < seen[j]
      ensures seen != [] ==> seen[|seen| - 1] <= state.rev
      ensures stuck <==> exists n | 0 <= n < |requests| :: Stalls(old(Abstract()), old(leaked), requests, n)
      ensures !stuck ==> Abstract() == After(old(Abstract()), requests, |requests|)
      ensures !stuck ==> leaked == old(leaked) + Refusals(old(Abstract()), requests, |requests|)
    {
      ghost var m := Abstract();
      seen := [];
      var waiting: Option<nat> := None;
      for i := 0 to |requests|
        invariant Valid() && !stuck && state.rev >= old(state.rev) && Client(seen, waiting)
        invariant Abstract() == After(m, requests, i) && leaked == old(leaked) + Refusals(m, requests, i)
        invariant forall n | 0 <= n < i :: !Stalls(m, old(leaked), requests, n)
      {
        StallsOrNot(m, old(leaked), requests, i);
        seen, waiting := Take(requests[i], seen, waiting);
        if stuck {
          return;
        }
      }
    }

    /** One request of the client or of anyone else. */
    method Take(request: Request, seen: seq<nat>, waiting: Option<nat>) returns (seen': seq<nat>, waiting': Option<nat>)
      requires Valid() && !stuck && Client(seen, waiting)
      modifies this
      ensures Valid() && Client(seen', waiting') && state.rev >= old(state.rev)
      ensures leaked == old(leaked) + (if Refuses(old(Abstract()), request) then 1 else 0)
      ensures stuck <==> (Locks(old(Abstract()), request) && old(leaked) > 0) || Collides(old(Abstract()), request)
      ensures !stuck ==> Abstract() == Next(old(Abstract()), request)
    {
      seen', waiting' := seen, waiting;
      if request.Poll? {
        seen', waiting' := PollOnce(seen, waiting);
      } else {
        Handle(request);
      }
    }

    method PollOnce(seen: seq<nat>, waiting: Option<nat>) returns (seen': seq<nat>, waiting': Option<nat>)
      requires Valid() && !stuck && Client(seen, waiting)
      modifies this`waiters, this`added, this`channel, this`have
      ensures Valid() && Client(seen', waiting') && seen <= seen'
      ensures Abstract() == old(Abstract()) && leaked == old(leaked)
    {
      var now: Option<State>;
      if waiting.Some? {
        now := Receive(waiting.value);
        waiting' := if now.None? then waiting else None;
      } else {
        var w;
        now, w := Wait(if seen == [] then None else Some(seen[|seen| - 1]));
        waiting' := if now.None? then Some(w) else None;
      }
      seen' := if now.None? then seen else seen + [now.value.rev];
    }
  }

  /** A second start during a rebalance is refused, and then the end of the rebalance is never reported. */
  method RefusedStartBlocksTheEnd() returns (m: ServiceMgr)
    ensures m.Valid() && m.stuck && m.TaskRuns()
  {
    var change := Change("r1", Rebalance, ["n1"], [], None);
    m := new ServiceMgr();
    var err := m.PrepareTopologyChange(change, true);
    err := m.StartTopologyChange(change);
    err := m.StartTopologyChange(change);
    assert err == Conflict;
    m.RunRebalanceCallback(0, Success);
  }
}
