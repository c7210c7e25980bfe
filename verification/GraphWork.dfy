/**
  * A graph at work: the workers of its nodes, and the router call each granted worker makes on the graph's one budget
  * row, interleaved step by step (backend/workflows/graph_executor.py with graph_budget.py and the router loop).
  */
module GraphWork {

  import opened Outcomes
  import opened Graphs
  import opened GraphTables
  import GraphRuns
  import opened GraphExecutors
  import Budgets
  import Router
  import SharedBudget

  type Move = GraphExecutors.Move

  /** `callers[k]` is the worker whose router call is call `k` on the budget. */
  datatype Work = Work(pool: Pool, system: SharedBudget.System, callers: seq<nat>)

  /** A worker or the store moves (a worker that starts a router call brings its configuration), a router call takes its
      next step, or the budget is bound again. */
  datatype Event =
    | Moves(move: Move, cfg: Router.Config)
    | Routes(call: nat, seen: Router.Observation)
    | Rebinds(limits: Budgets.Limits, deadlineSeconds: int, now: int)

  /** This move is worker `i` going from its claim to its router call. */
  predicate Starts(p: Pool, m: Move, p': Pool) {
    && m.Proceed? && m.worker < |p.workers| && m.worker < |p'.workers|
    && !p.workers[m.worker].called && p'.workers[m.worker].called
  }

  /** This move files what the worker's router call produced. */
  predicate Files(p: Pool, m: Move, p': Pool) {
    && m.Proceed? && m.worker < |p.workers| && m.worker < |p'.workers|
    && p.workers[m.worker].payload.None? && p'.workers[m.worker].payload.Some?
  }

  /** Call `k` belongs to worker `i` and ended the way the payload says. */
  predicate Answered(w: Work, k: nat, i: nat, payload: Payload) {
    && k < |w.callers| && k < |w.system.calls| && w.callers[k] == i
    && (var phase := w.system.calls[k].state.phase;
        phase.Done? && (payload.succeeded <==> phase.exit.Returned?))
  }

  ghost predicate WorkStep(g: WorkflowGraph, judge: Judge, w: Work, e: Event, w': Work)
    requires g.Closed()
  {
    && SharedBudget.SystemOk(w.system)
    && match e
       case Moves(m, cfg) =>
         && PoolStep(g, judge, w.pool, m, w'.pool)
         && (if Starts(w.pool, m, w'.pool)
             then
               && w'.system == SharedBudget.Next(w.system, SharedBudget.Begin(cfg))
               && w'.callers == w.callers + [m.worker]
             else w'.system == w.system && w'.callers == w.callers)
         && (Files(w.pool, m, w'.pool) ==>
               exists k :: Answered(w, k, m.worker, w'.pool.workers[m.worker].payload.value))
       case Routes(k, o) => w' == w.(system := SharedBudget.Next(w.system, SharedBudget.Act(k, o)))
       case Rebinds(limits, seconds, now) =>
         w' == w.(system := SharedBudget.Next(w.system, SharedBudget.Rebind(limits, seconds, now)))
  }

  // -------------------------------------------------------------- invariant

  /** Call `k` belongs to a worker that made it, and a worker that has filed filed what the call ended with. */
  ghost predicate CallOk(w: Work, k: nat)
    requires k < |w.callers| == |w.system.calls|
  {
    && w.callers[k] < |w.pool.workers| && w.pool.workers[w.callers[k]].called
    && var payload := w.pool.workers[w.callers[k]].payload;
       payload.Some? ==> Answered(w, k, w.callers[k], payload.value)
  }

  /** Claims and router calls read the same budget row: its deadline is the one the graph's tables hold. */
  ghost predicate WorkOk(g: WorkflowGraph, w: Work) {
    && w.pool.db.deadline == Some(w.system.budget.deadline)
    && PoolOk(g, w.pool) && SharedBudget.Balanced(w.system) && |w.callers| == |w.system.calls|
    && (forall k {:trigger CallOk(w, k)} | 0 <= k < |w.callers| :: CallOk(w, k))
    && (forall k, l | 0 <= k < l < |w.callers| :: w.callers[k] != w.callers[l])
    && (forall i | 0 <= i < |w.pool.workers| && w.pool.workers[i].called :: i in w.callers)
  }

  /** What a pool step leaves of a worker: it keeps its node, and what it has called or filed. */
  lemma {:induction false} WorkerKept(g: WorkflowGraph, judge: Judge, p: Pool, m: Move, p': Pool, i: nat)
    requires g.Closed() && PoolOk(g, p) && PoolStep(g, judge, p, m, p') && i < |p.workers|
    ensures
      && i < |p'.workers| && p'.workers[i].node == p.workers[i].node
      && (p.workers[i].called ==> p'.workers[i].called)
      && (p.workers[i].payload.Some? ==> p'.workers[i].payload == p.workers[i].payload)
      && (p'.workers[i].called && !p.workers[i].called ==> Starts(p, m, p') && m.worker == i)
      && (p'.workers[i].payload != p.workers[i].payload ==> Files(p, m, p') && m.worker == i)
  {
    assert WorkerOk(g, p.db, p.workers[i]);
    hide Inv, Step, GraphRuns.AcceptedDependencies, CanClaim, HoldsLease, CanValidate, CanReplay, FiledAs, Taken;
  }

  /** A step adds at most one worker, which has called nothing. */
  lemma {:induction false} NewcomerIdle(g: WorkflowGraph, judge: Judge, p: Pool, m: Move, p': Pool, i: nat)
    requires g.Closed() && PoolStep(g, judge, p, m, p') && |p.workers| <= i < |p'.workers|
    ensures !p'.workers[i].called
  {
    hide Step, Acts;
  }

  lemma {:induction false} MoveKeepsCall(
      g: WorkflowGraph, judge: Judge, w: Work, m: Move, cfg: Router.Config, w': Work, k: nat)
    requires g.Closed() && WorkOk(g, w) && WorkStep(g, judge, w, Moves(m, cfg), w')
    requires k < |w'.callers| == |w'.system.calls|
    ensures CallOk(w', k)
  {
    hide PoolStep, PoolOk;
    if k < |w.callers| {
      assert CallOk(w, k);
      var i := w.callers[k];
      WorkerKept(g, judge, w.pool, m, w'.pool, i);
      assert w'.system.calls[k] == w.system.calls[k] && w'.callers[k] == i;
      if w'.pool.workers[i].payload != w.pool.workers[i].payload {
        var l :| Answered(w, l, i, w'.pool.workers[i].payload.value);
        assert l == k;
      }
    } else {
      StarterHasNotFiled(g, judge, w.pool, m, w'.pool);
    }
  }

  /** A worker that starts its call has filed nothing. */
  lemma {:induction false} StarterHasNotFiled(g: WorkflowGraph, judge: Judge, p: Pool, m: Move, p': Pool)
    requires g.Closed() && PoolOk(g, p) && PoolStep(g, judge, p, m, p') && Starts(p, m, p')
    ensures p'.workers[m.worker].payload.None?
  {
    assert WorkerOk(g, p.db, p.workers[m.worker]);
    hide Inv, Step, GraphRuns.AcceptedDependencies, CanClaim, HoldsLease, CanValidate, CanReplay, FiledAs, Taken;
  }

  lemma {:induction false} PoolStepKeepsDeadline(g: WorkflowGraph, judge: Judge, p: Pool, m: Move, p': Pool)
    requires g.Closed() && p.db.deadline.Some? && PoolStep(g, judge, p, m, p')
    ensures p'.db.deadline == p.db.deadline
  {
    hide Moved, GraphRuns.AcceptedDependencies, CanClaim, HoldsLease, CanValidate, CanReplay, IsClosure;
  }

  lemma {:induction false} MoveKeepsWork(
      g: WorkflowGraph, judge: Judge, w: Work, m: Move, cfg: Router.Config, w': Work)
    requires g.Closed() && WorkOk(g, w) && WorkStep(g, judge, w, Moves(m, cfg), w')
    ensures WorkOk(g, w')
  {
    StepKeepsPool(g, judge, w.pool, m, w'.pool);
    PoolStepKeepsDeadline(g, judge, w.pool, m, w'.pool);
    SharedBudget.NextKeepsBalance(w.system, SharedBudget.Begin(cfg));
    hide PoolStep, PoolOk, SharedBudget.Balanced;
    forall k | 0 <= k < |w'.callers| ensures CallOk(w', k) { MoveKeepsCall(g, judge, w, m, cfg, w', k); }
    forall k | 0 <= k < |w.callers|
      ensures w.callers[k] < |w.pool.workers| && w.pool.workers[w.callers[k]].called
    {
      assert CallOk(w, k);
    }
    forall i | 0 <= i < |w'.pool.workers| && w'.pool.workers[i].called ensures i in w'.callers {
      if i < |w.pool.workers| {
        WorkerKept(g, judge, w.pool, m, w'.pool, i);
      } else {
        NewcomerIdle(g, judge, w.pool, m, w'.pool, i);
      }
    }
  }

  /** An ended call stays as it ended. */
  lemma {:induction false} EndedStays(w: SharedBudget.System, e: SharedBudget.Event, k: nat)
    requires SharedBudget.SystemOk(w) && k < |w.calls| && !e.Begin?
    ensures |SharedBudget.Next(w, e).calls| == |w.calls|
    ensures w.calls[k].state.phase.Done? ==> SharedBudget.Next(w, e).calls[k] == w.calls[k]
  {
    hide Router.StateOk, Budgets.Within;
  }

  lemma {:induction false} RoutingKeepsWork(g: WorkflowGraph, w: Work, e: SharedBudget.Event)
    requires WorkOk(g, w) && !e.Begin?
    ensures WorkOk(g, w.(system := SharedBudget.Next(w.system, e)))
  {
    SharedBudget.NextKeepsBalance(w.system, e);
    var w' := w.(system := SharedBudget.Next(w.system, e));
    if w.callers != [] { EndedStays(w.system, e, 0); }
    assert |w'.system.calls| == |w.system.calls|;
    hide PoolOk;
    forall k | 0 <= k < |w.callers| ensures CallOk(w', k) {
      assert CallOk(w, k);
      EndedStays(w.system, e, k);
      hide SharedBudget.Next, SharedBudget.Balanced;
    }
    hide SharedBudget.Next, SharedBudget.Balanced;
  }

  lemma {:induction false} StepKeepsWork(g: WorkflowGraph, judge: Judge, w: Work, e: Event, w': Work)
    requires g.Closed() && WorkOk(g, w) && WorkStep(g, judge, w, e, w')
    ensures WorkOk(g, w')
    ensures w'.system.budget.limits == w.system.budget.limits
  {
    match e
    case Moves(m, cfg) =>
      MoveKeepsWork(g, judge, w, m, cfg, w');
      hide WorkOk, PoolStep, Starts;
    case Routes(k, o) =>
      RoutingKeepsWork(g, w, SharedBudget.Act(k, o));
      SharedBudget.NextKeepsBalance(w.system, SharedBudget.Act(k, o));
      hide SharedBudget.Next;
    case Rebinds(limits, seconds, now) =>
      RoutingKeepsWork(g, w, SharedBudget.Rebind(limits, seconds, now));
      SharedBudget.NextKeepsBalance(w.system, SharedBudget.Rebind(limits, seconds, now));
      hide SharedBudget.Next;
  }

  // -------------------------------------------------------------- whole runs

  datatype Turn = Turn(event: Event, after: Work)

  ghost predicate IsHistory(g: WorkflowGraph, judge: Judge, w: Work, turns: seq<Turn>)
    requires g.Closed()
    decreases |turns|
  {
    turns != [] ==>
      && WorkStep(g, judge, w, turns[0].event, turns[0].after)
      && IsHistory(g, judge, turns[0].after, turns[1..])
  }

  function Latest(w: Work, turns: seq<Turn>): Work { if turns == [] then w else turns[|turns| - 1].after }

  lemma {:induction false} HistoryKeepsWork(g: WorkflowGraph, judge: Judge, w: Work, turns: seq<Turn>)
    requires g.Closed() && WorkOk(g, w) && IsHistory(g, judge, w, turns)
    ensures WorkOk(g, Latest(w, turns)) && Latest(w, turns).system.budget.limits == w.system.budget.limits
    decreases |turns|
  {
    hide WorkOk, WorkStep;
    if turns != [] {
      StepKeepsWork(g, judge, w, turns[0].event, turns[0].after);
      HistoryKeepsWork(g, judge, turns[0].after, turns[1..]);
      assert Latest(turns[0].after, turns[1..]) == Latest(w, turns);
    }
  }

  /** A graph whose budget has just been bound, before any worker. */
  function Bound(db: Tables, budget: Budgets.Budget): Work { Work(Pool(db, []), SharedBudget.System(budget, []), []) }

  lemma {:induction false} BoundIsOk(g: WorkflowGraph, db: Tables, budget: Budgets.Budget)
    requires Inv(g, db) && db.deadline == Some(budget.deadline)
    requires Budgets.LimitsOk(budget.limits) && budget.attempts == 0 && budget.tokens == 0
    ensures WorkOk(g, Bound(db, budget))
  {
    NobodyYet(g, db);
  }

  /** The node a call was made for. */
  function NodeOf(w: Work, k: nat): Id
    requires k < |w.callers| && w.callers[k] < |w.pool.workers|
  {
    w.pool.workers[w.callers[k]].node
  }

  lemma {:induction false} CallsHaveDistinctNodes(g: WorkflowGraph, w: Work, k: nat, l: nat)
    requires WorkOk(g, w) && k < l < |w.callers|
    ensures w.callers[k] < |w.pool.workers| && w.callers[l] < |w.pool.workers| && NodeOf(w, k) != NodeOf(w, l)
  {
    assert CallOk(w, k) && CallOk(w, l);
    var i, j := w.callers[k], w.callers[l];
    assert WorkerOk(g, w.pool.db, w.pool.workers[i]) && WorkerOk(g, w.pool.db, w.pool.workers[j]);
    hide Inv, SharedBudget.Balanced;
  }

  /** Pairwise different members of a set are no more than the set has. */
  lemma {:induction false} DistinctFit(nodes: seq<Id>, among: set<Id>)
    requires Distinct(nodes) && forall n <- nodes :: n in among
    ensures |nodes| <= |among|
    decreases |nodes|
  {
    if nodes != [] {
      assert forall n <- nodes[1..] :: n != nodes[0];
      DistinctFit(nodes[1..], among - {nodes[0]});
    }
  }

  lemma {:induction false} CallsFitNodes(g: WorkflowGraph, w: Work)
    requires WorkOk(g, w)
    ensures |w.callers| <= |g.Ids()|
  {
    forall k | 0 <= k < |w.callers| ensures w.callers[k] < |w.pool.workers| && NodeOf(w, k) in g.Ids() {
      assert CallOk(w, k);
      assert WorkerOk(g, w.pool.db, w.pool.workers[w.callers[k]]);
      assert StatesOf(w.pool.db.rows).Keys == g.Ids();
    }
    var nodes := seq(|w.callers|, k requires 0 <= k < |w.callers| => NodeOf(w, k));
    forall k, l | 0 <= k < l < |nodes| ensures nodes[k] != nodes[l] { CallsHaveDistinctNodes(g, w, k, l); }
    hide WorkOk;
    DistinctFit(nodes, g.Ids());
  }

  /**
    * Over every history of a graph, however its workers, router calls, canceller and recovery interleave: no node
    * accounts for two router calls, so there are at most as many as nodes; the attempts of all nodes together stay
    * within the budget's attempt limit and the tokens within its token limit; and a worker that filed a result filed
    * what its own router call ended with.
    */
  lemma {:induction false} GraphKeepsItsBudget(
      g: WorkflowGraph, judge: Judge, db: Tables, budget: Budgets.Budget, turns: seq<Turn>)
    requires Inv(g, db) && db.deadline == Some(budget.deadline)
    requires Budgets.LimitsOk(budget.limits) && budget.attempts == 0 && budget.tokens == 0
    requires IsHistory(g, judge, Bound(db, budget), turns)
    ensures
      var w := Latest(Bound(db, budget), turns);
      && |w.callers| == |w.system.calls| <= |g.Ids()|
      && (forall k | 0 <= k < |w.callers| :: w.callers[k] < |w.pool.workers|)
      && (forall k, l | 0 <= k < l < |w.callers| :: NodeOf(w, k) != NodeOf(w, l))
      && SharedBudget.Total(w.system.calls, SharedBudget.Made) == w.system.budget.attempts <= budget.limits.maxAttempts
      && (budget.limits.maxTokens.Some? ==>
            SharedBudget.Total(w.system.calls, SharedBudget.Spent) <= budget.limits.maxTokens.value)
      && (forall i | 0 <= i < |w.pool.workers| && w.pool.workers[i].payload.Some? ::
            exists k :: Answered(w, k, i, w.pool.workers[i].payload.value))
  {
    BoundIsOk(g, db, budget);
    HistoryKeepsWork(g, judge, Bound(db, budget), turns);
    var w := Latest(Bound(db, budget), turns);
    hide IsHistory, Inv;
    CallsFitNodes(g, w);
    forall k | 0 <= k < |w.callers| ensures w.callers[k] < |w.pool.workers| { assert CallOk(w, k); }
    forall k, l | 0 <= k < l < |w.callers| ensures NodeOf(w, k) != NodeOf(w, l) { CallsHaveDistinctNodes(g, w, k, l); }
    forall i | 0 <= i < |w.pool.workers| && w.pool.workers[i].payload.Some?
      ensures exists k :: Answered(w, k, i, w.pool.workers[i].payload.value)
    {
      assert WorkerOk(g, w.pool.db, w.pool.workers[i]);
      var k :| 0 <= k < |w.callers| && w.callers[k] == i;
      assert CallOk(w, k);
    }
  }
}
