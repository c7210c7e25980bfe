/** The dependency-graph scheduler of backend/workflows/graph.py. */
module Graphs {

  import opened Outcomes
  import opened Text

  datatype Id = Id(name: string)

  const MAX_GRAPH_NODES := 100

  datatype NodeState =
    | Blocked | Ready | Running | AwaitingValidation | Succeeded
    | Failed | Rejected | Cancelled | Uncertain | Skipped
  {
    predicate Unsuccessful() { Failed? || Rejected? || Cancelled? || Skipped? }

    predicate Terminal() { Succeeded? || Unsuccessful() }

    /** A node the scheduler has released: neither waiting nor skipped. */
    predicate Scheduled() { !Blocked? && !Skipped? }

    /** A node that can still move by itself. */
    predicate Active() { Ready? || Running? || AwaitingValidation? || Uncertain? }
  }

  /** A node as it is submitted. */
  datatype GraphNode = GraphNode(id: Id, dependsOn: seq<Id>)

  /** A graph: its nodes in canonical order, and the dependencies of each. */
  datatype WorkflowGraph = WorkflowGraph(nodes: seq<Id>, deps: map<Id, set<Id>>) {
    function Ids(): set<Id> { deps.Keys }

    function Deps(n: Id): set<Id> { if n in deps then deps[n] else {} }

    predicate Closed() {
      && (forall n <- nodes :: n in deps)
      && (forall n <- deps :: n in nodes)
      && (forall n <- deps, d <- deps[n] :: d in deps)
    }
  }

  /** A rank that every dependency strictly lowers. */
  ghost predicate IsRank(g: WorkflowGraph, r: map<Id, nat>) {
    && g.Ids() <= r.Keys
    && forall n <- g.Ids(), d <- g.Deps(n) :: d in r && r[d] < r[n]
  }

  ghost predicate Acyclic(g: WorkflowGraph) { exists r :: IsRank(g, r) }

  ghost predicate WellFormed(g: WorkflowGraph) { g.Closed() && Distinct(g.nodes) && Acyclic(g) }

  lemma {:induction false} Lowest(r: map<Id, nat>, s: set<Id>) returns (m: Id)
    requires s != {} && s <= r.Keys
    ensures m in s && forall x <- s :: r[m] <= r[x]
    decreases s
  {
    m :| m in s;
    if s != {m} {
      var k := Lowest(r, s - {m});
      if r[k] < r[m] { m := k; }
    }
  }

  /** A nonempty set in which everything waits on a member admits no rank. */
  lemma {:induction false} CycleHasNoRank(g: WorkflowGraph, stuck: set<Id>)
    requires stuck != {} && stuck <= g.Ids()
    requires forall n <- stuck :: exists d <- g.Deps(n) :: d in stuck
    ensures !Acyclic(g)
  {
    forall r | IsRank(g, r) ensures false {
      var m := Lowest(r, stuck);
    }
  }

  /** What the peeling loop knows: the removed nodes are ranked by the round that removed them. */
  ghost predicate Peeled(g: WorkflowGraph, remaining: set<Id>, rank: map<Id, nat>, round: nat) {
    && remaining <= g.Ids() && rank.Keys == g.Ids() - remaining
    && (forall n <- rank :: rank[n] < round)
    && forall n <- rank, d <- g.Deps(n) :: d in rank && rank[d] < rank[n]
  }

  /** The nodes of `remaining` that no longer wait on a member of it. */
  function Peelable(g: WorkflowGraph, remaining: set<Id>): (ready: set<Id>) {
    set n | n in remaining && g.Deps(n) * remaining == {}
  }

  lemma {:induction false} StuckIsCyclic(g: WorkflowGraph, remaining: set<Id>)
    requires remaining != {} && remaining <= g.Ids() && Peelable(g, remaining) == {}
    ensures !Acyclic(g)
  {
    forall n <- remaining ensures exists d <- g.Deps(n) :: d in remaining {
      assert n !in Peelable(g, remaining);
      var d :| d in g.Deps(n) * remaining;
    }
    CycleHasNoRank(g, remaining);
  }

  ghost function Ranked(rank: map<Id, nat>, ready: set<Id>, round: nat): map<Id, nat> {
    map n | n in rank.Keys + ready :: if n in rank then rank[n] else round
  }

  lemma {:induction false} PeelRound(g: WorkflowGraph, remaining: set<Id>, rank: map<Id, nat>, round: nat)
    requires g.Closed() && Peeled(g, remaining, rank, round)
    ensures Peeled(g, remaining - Peelable(g, remaining), Ranked(rank, Peelable(g, remaining), round), round + 1)
  {
    forall n <- Peelable(g, remaining), d <- g.Deps(n) ensures d in rank {
      assert d !in g.Deps(n) * remaining;
    }
  }

  /** `_require_acyclic`: peel the nodes whose dependencies are gone. */
  method RequireAcyclic(g: WorkflowGraph) returns (ok: bool)
    requires g.Closed()
    ensures ok <==> Acyclic(g)
  {
    var remaining := g.Ids();
    ghost var rank: map<Id, nat> := map[];
    ghost var round: nat := 0;
    while remaining != {}
      invariant Peeled(g, remaining, rank, round)
      decreases remaining
    {
      var ready := Peelable(g, remaining);
      if ready == {} {
        StuckIsCyclic(g, remaining);
        return false;
      }
      PeelRound(g, remaining, rank, round);
      rank, round := Ranked(rank, ready, round), round + 1;
      remaining := remaining - ready;
    }
    assert IsRank(g, rank);
    return true;
  }

  // ----------------------------------------------------------- construction

  predicate Distinct(ids: seq<Id>) { forall i, j | 0 <= i < j < |ids| :: ids[i] != ids[j] }

  function Members(ids: seq<Id>): set<Id> { set n | n in ids }

  predicate Sorted(ids: seq<Id>) { forall i, j | 0 <= i < j < |ids| :: !Before(ids[j].name, ids[i].name) }

  function NodeIds(nodes: seq<GraphNode>): seq<Id> { seq(|nodes|, i requires 0 <= i < |nodes| => nodes[i].id) }

  /** Every construction check of the source except acyclicity. */
  predicate Canonical(nodes: seq<GraphNode>) {
    && 1 <= |nodes| <= MAX_GRAPH_NODES
    && Distinct(NodeIds(nodes)) && Sorted(NodeIds(nodes))
    && forall n <- nodes ::
         && Identifier(n.id.name) && n.id !in n.dependsOn
         && Distinct(n.dependsOn) && Sorted(n.dependsOn)
         && forall d <- n.dependsOn :: Identifier(d.name) && d in NodeIds(nodes)
  }

  /** Each id comes strictly before the next. */
  predicate Ascending(ids: seq<Id>) { forall i | 0 <= i < |ids| - 1 :: Before(ids[i].name, ids[i + 1].name) }

  lemma {:induction false} AscendingFurther(ids: seq<Id>, i: nat, j: nat)
    requires Ascending(ids) && i < j < |ids|
    ensures Before(ids[i].name, ids[j].name)
  {
    if i < j - 1 {
      AscendingFurther(ids, i, j - 1);
      BeforeIsTransitive(ids[i].name, ids[j - 1].name, ids[j].name);
    }
  }

  /** Unique and sorted is strictly ascending. */
  lemma {:induction false} AscendingExactly(ids: seq<Id>)
    ensures Ascending(ids) <==> Distinct(ids) && Sorted(ids)
  {
    if Ascending(ids) {
      forall i, j | 0 <= i < j < |ids| ensures ids[i] != ids[j] && !Before(ids[j].name, ids[i].name) {
        AscendingFurther(ids, i, j);
        BeforeIsTotal(ids[i].name, ids[j].name);
      }
    }
    if Distinct(ids) && Sorted(ids) {
      forall i | 0 <= i < |ids| - 1 ensures Before(ids[i].name, ids[i + 1].name) {
        BeforeIsTotal(ids[i].name, ids[i + 1].name);
      }
    }
  }

  /** A submission passes the construction checks exactly when it has 1 to 100 nodes with strictly ascending,
      well-formed ids, each with strictly ascending dependencies on other nodes of the submission. */
  lemma {:induction false} CanonicalMeans(nodes: seq<GraphNode>)
    ensures Canonical(nodes) <==>
      && 1 <= |nodes| <= 100 && Ascending(NodeIds(nodes))
      && forall n <- nodes ::
           && Identifier(n.id.name) && Ascending(n.dependsOn)
           && forall d <- n.dependsOn :: Identifier(d.name) && d != n.id && exists m <- nodes :: m.id == d
  {
    AscendingExactly(NodeIds(nodes));
    forall n <- nodes ensures Ascending(n.dependsOn) <==> Distinct(n.dependsOn) && Sorted(n.dependsOn) {
      AscendingExactly(n.dependsOn);
    }
    hide Ascending, Distinct, Sorted, Identifier;
    forall d ensures d in NodeIds(nodes) <==> exists m <- nodes :: m.id == d {
      if exists m <- nodes :: m.id == d {
        var m :| m in nodes && m.id == d;
        var i :| 0 <= i < |nodes| && nodes[i] == m;
        assert NodeIds(nodes)[i] == d;
      }
    }
  }

  /** A rank for submitted nodes: every dependency ranks strictly lower. */
  ghost predicate Ranks(nodes: seq<GraphNode>, r: map<Id, nat>) {
    forall n <- nodes, d <- n.dependsOn :: n.id in r && d in r && r[d] < r[n.id]
  }

  /** Construction accepts exactly the canonical submissions whose dependencies admit a rank. */
  method Construct(nodes: seq<GraphNode>) returns (r: Result<WorkflowGraph>)
    ensures r.Ok? <==> Canonical(nodes) && exists rank :: Ranks(nodes, rank)
    ensures r.Ok? ==> WellFormed(r.value) && r.value.nodes == NodeIds(nodes)
    ensures r.Ok? ==> forall n <- nodes :: r.value.Deps(n.id) == Members(n.dependsOn)
  {
    if !Canonical(nodes) { return Err(InvalidInput); }
    var deps: map<Id, set<Id>> := map[];
    for k := 0 to |nodes|
      invariant deps.Keys == set i | 0 <= i < k :: nodes[i].id
      invariant forall i | 0 <= i < k :: deps[nodes[i].id] == Members(nodes[i].dependsOn)
    {
      forall i | 0 <= i < k ensures nodes[i].id != nodes[k].id {
        assert NodeIds(nodes)[i] != NodeIds(nodes)[k];
      }
      deps := deps[nodes[k].id := Members(nodes[k].dependsOn)];
    }
    var g := WorkflowGraph(NodeIds(nodes), deps);
    assert g.Closed() by {
      forall i | 0 <= i < |nodes| ensures deps[nodes[i].id] <= deps.Keys {
        assert nodes[i] in nodes;
        forall d <- nodes[i].dependsOn ensures d in deps {
          var j :| 0 <= j < |nodes| && NodeIds(nodes)[j] == d;
        }
      }
      forall n <- deps ensures n in g.nodes {
        var i :| 0 <= i < |nodes| && nodes[i].id == n;
        assert g.nodes[i] == n;
      }
    }
    RanksCoincide(nodes, g);
    var ok := RequireAcyclic(g);
    return if ok then Ok(g) else Err(InvalidInput);
  }

  lemma {:induction false} RanksCoincide(nodes: seq<GraphNode>, g: WorkflowGraph)
    requires g.Closed() && g.nodes == NodeIds(nodes)
    requires forall i | 0 <= i < |nodes| :: nodes[i].id in g.deps && g.deps[nodes[i].id] == Members(nodes[i].dependsOn)
    ensures Acyclic(g) <==> exists r :: Ranks(nodes, r)
  {
    forall r | IsRank(g, r) ensures Ranks(nodes, r) {
      forall n <- nodes, d <- n.dependsOn ensures n.id in r && d in r && r[d] < r[n.id] {
        assert d in g.Deps(n.id);
      }
    }
    forall r | Ranks(nodes, r) ensures Acyclic(g) {
      var total := map n | n in g.Ids() :: if n in r then r[n] + 1 else 0;
      forall n <- g.Ids(), d <- g.Deps(n) ensures d in total && total[d] < total[n] {
        assert n in g.nodes;
        var i :| 0 <= i < |nodes| && NodeIds(nodes)[i] == n;
        assert nodes[i] in nodes && d in nodes[i].dependsOn;
      }
      assert IsRank(g, total);
    }
  }

  // ---------------------------------------------------------------- states

  type States = map<Id, NodeState>

  /** What a waiting node becomes, given the states of its dependencies. */
  function Verdict(g: WorkflowGraph, st: States, n: Id): NodeState
    requires g.Deps(n) <= st.Keys
  {
    if exists d <- g.Deps(n) :: st[d].Unsuccessful() then Skipped
    else if forall d <- g.Deps(n) :: st[d].Succeeded? then Ready
    else Blocked
  }

  predicate NodeOk(g: WorkflowGraph, st: States, n: Id)
    requires n in st && g.Deps(n) <= st.Keys
  {
    && (st[n].Blocked? ==>
          && (exists d <- g.Deps(n) :: !st[d].Succeeded?)
          && (forall d <- g.Deps(n) :: !st[d].Unsuccessful()))
    && (st[n].Skipped? ==> exists d <- g.Deps(n) :: st[d].Unsuccessful())
    && (st[n].Scheduled() ==> forall d <- g.Deps(n) :: st[d].Succeeded?)
  }

  /** `GraphState.__post_init__`. */
  predicate Valid(g: WorkflowGraph, st: States)
    requires g.Closed()
  {
    st.Keys == g.Ids() && forall n {:trigger NodeOk(g, st, n)} | n in g.Ids() :: NodeOk(g, st, n)
  }

  function InitialState(g: WorkflowGraph): States {
    map n | n in g.Ids() :: if g.Deps(n) == {} then Ready else Blocked
  }

  lemma {:induction false} InitialIsValid(g: WorkflowGraph)
    requires g.Closed()
    ensures Valid(g, InitialState(g))
  {
    var st := InitialState(g);
    forall n <- g.Ids() ensures NodeOk(g, st, n) {
      if g.Deps(n) != {} {
        var d :| d in g.Deps(n);
        assert d in g.Ids() && !st[d].Succeeded?;
      }
    }
  }

  predicate Allowed(current: NodeState, target: NodeState) {
    match current
    case Ready => target.Running? || target.Cancelled?
    case Running => target.AwaitingValidation? || target.Failed? || target.Cancelled? || target.Uncertain?
    case AwaitingValidation => target.Succeeded? || target.Rejected? || target.Cancelled?
    case Uncertain => target.AwaitingValidation? || target.Failed? || target.Cancelled?
    case _ => false
  }

  /** Node `n` got its verdict if it was waiting, and kept its state otherwise. */
  ghost predicate SettledTo(g: WorkflowGraph, before: States, after: States, n: Id)
    requires g.Closed() && before.Keys == g.Ids() && after.Keys == g.Ids() && n in g.Ids()
  {
    after[n] == if before[n].Blocked? then Verdict(g, after, n) else before[n]
  }

  /** `after` settles every waiting node of `before` and touches nothing else. */
  ghost predicate IsClosure(g: WorkflowGraph, before: States, after: States)
    requires g.Closed()
  {
    && before.Keys == g.Ids() && after.Keys == g.Ids()
    && forall n {:trigger SettledTo(g, before, after, n)} | n in g.Ids() :: SettledTo(g, before, after, n)
  }

  ghost predicate Next(g: WorkflowGraph, st: States, n: Id, target: NodeState, st': States)
    requires g.Closed()
  {
    n in g.Ids() && n in st && Allowed(st[n], target) && IsClosure(g, st[n := target], st')
  }

  function Waiting(st: States): set<Id> { set n | n in st && st[n].Blocked? }

  /** Settling one waiting node leaves every other settled verdict alone. */
  lemma {:induction false} VerdictStable(g: WorkflowGraph, st: States, n: Id, x: NodeState, m: Id)
    requires n in st && st[n].Blocked? && g.Deps(m) <= st.Keys
    requires Verdict(g, st, m) != Blocked
    ensures Verdict(g, st[n := x], m) == Verdict(g, st, m)
  {
    var st' := st[n := x];
    if Verdict(g, st, m) == Skipped {
      var d :| d in g.Deps(m) && st[d].Unsuccessful();
      assert st'[d].Unsuccessful();
    } else {
      assert forall d <- g.Deps(m) :: st'[d] == st[d];
    }
  }

  /** Node `n` is as before, or has been settled and its verdict still stands. */
  ghost predicate Explained(g: WorkflowGraph, before: States, now: States, n: Id)
    requires g.Closed() && before.Keys == g.Ids() && now.Keys == g.Ids() && n in g.Ids()
  {
    now[n] == if before[n].Blocked? && !now[n].Blocked? then Verdict(g, now, n) else before[n]
  }

  ghost predicate Settling(g: WorkflowGraph, before: States, now: States)
    requires g.Closed()
  {
    && before.Keys == g.Ids() && now.Keys == g.Ids()
    && forall n {:trigger Explained(g, before, now, n)} | n in g.Ids() :: Explained(g, before, now, n)
  }

  lemma {:induction false} SettleOne(g: WorkflowGraph, before: States, now: States, n: Id)
    requires g.Closed() && Settling(g, before, now)
    requires n in g.Ids() && now[n].Blocked? && Verdict(g, now, n) != Blocked
    ensures Settling(g, before, now[n := Verdict(g, now, n)])
  {
    var x := Verdict(g, now, n);
    var now' := now[n := x];
    forall m <- g.Ids() ensures Explained(g, before, now', m) {
      assert Explained(g, before, now, m) && Explained(g, before, now, n);
      if before[m].Blocked? && !now'[m].Blocked? { VerdictStable(g, now, n, x, m); }
    }
  }

  lemma {:induction false} SettleShrinks(st: States, n: Id, x: NodeState)
    requires n in st && st[n].Blocked? && x != Blocked
    ensures |Waiting(st[n := x])| < |Waiting(st)|
  {
    assert Waiting(st[n := x]) == Waiting(st) - {n};
  }

  /** None of the first `k` nodes of the sweep would move. */
  ghost predicate Quiet(g: WorkflowGraph, st: States, k: nat)
    requires g.Closed() && st.Keys == g.Ids() && k <= |g.nodes|
  {
    forall j | 0 <= j < k && st[g.nodes[j]].Blocked? :: Verdict(g, st, g.nodes[j]) == Blocked
  }

  lemma {:induction false} QuietIsClosure(g: WorkflowGraph, before: States, now: States)
    requires g.Closed() && Settling(g, before, now) && Quiet(g, now, |g.nodes|)
    ensures IsClosure(g, before, now)
  {
    forall n <- g.Ids() | now[n].Blocked? ensures Verdict(g, now, n) == Blocked {
      var j :| 0 <= j < |g.nodes| && g.nodes[j] == n;
    }
    forall n <- g.Ids() ensures SettledTo(g, before, now, n) {
      assert Explained(g, before, now, n);
    }
  }

  /** `_refresh_waiting_nodes`: sweep until nothing changes. */
  method RefreshWaitingNodes(g: WorkflowGraph, before: States) returns (states: States)
    requires g.Closed() && before.Keys == g.Ids()
    ensures IsClosure(g, before, states)
  {
    states := before;
    var changed := true;
    while changed
      invariant Settling(g, before, states)
      invariant !changed ==> Quiet(g, states, |g.nodes|)
      decreases |Waiting(states)|, changed
    {
      changed := false;
      ghost var start := states;
      for i := 0 to |g.nodes|
        invariant Settling(g, before, states)
        invariant if changed then |Waiting(states)| < |Waiting(start)| else states == start && Quiet(g, states, i)
      {
        var n := g.nodes[i];
        if states[n].Blocked? {
          var verdict := Verdict(g, states, n);
          if verdict != Blocked {
            SettleOne(g, before, states, n);
            SettleShrinks(states, n, verdict);
            states := states[n := verdict];
            changed := true;
          }
        }
      }
    }
    QuietIsClosure(g, before, states);
  }

  /** One closure only: whatever order a sweep uses, it ends in the same states. */
  lemma {:induction false} ClosureUnique(g: WorkflowGraph, before: States, a: States, b: States)
    requires WellFormed(g) && IsClosure(g, before, a) && IsClosure(g, before, b)
    ensures a == b
  {
    var r :| IsRank(g, r);
    forall n <- g.Ids() ensures a[n] == b[n] { ClosureAgrees(g, r, before, a, b, n); }
  }

  lemma {:induction false} ClosureAgrees(g: WorkflowGraph, r: map<Id, nat>, before: States, a: States, b: States, n: Id)
    requires g.Closed() && IsRank(g, r) && IsClosure(g, before, a) && IsClosure(g, before, b)
    requires n in g.Ids()
    ensures a[n] == b[n]
    decreases r[n]
  {
    assert SettledTo(g, before, a, n) && SettledTo(g, before, b, n);
    forall d <- g.Deps(n) ensures a[d] == b[d] { ClosureAgrees(g, r, before, a, b, d); }
  }

  /** A valid state explains every waiting node, so it is its own closure. */
  lemma {:induction false} ValidIsClosed(g: WorkflowGraph, st: States)
    requires g.Closed() && Valid(g, st)
    ensures IsClosure(g, st, st)
  {
    forall n <- g.Ids() ensures SettledTo(g, st, st, n) { assert NodeOk(g, st, n); }
  }

  lemma {:induction false} NextNodeOk(g: WorkflowGraph, st: States, n: Id, target: NodeState, st': States, m: Id)
    requires g.Closed() && Valid(g, st) && Next(g, st, n, target, st') && m in g.Ids()
    ensures NodeOk(g, st', m)
  {
    assert NodeOk(g, st, m) && SettledTo(g, st[n := target], st', m);
    if m == n || st[m].Scheduled() {
      forall d <- g.Deps(m) ensures st'[d].Succeeded? {
        assert st[d].Succeeded? && SettledTo(g, st[n := target], st', d);
      }
    } else if st[m].Skipped? {
      var d :| d in g.Deps(m) && st[d].Unsuccessful();
      assert SettledTo(g, st[n := target], st', d);
    }
  }

  /** Every allowed transition of a valid state yields a valid state. */
  lemma {:induction false} NextIsValid(g: WorkflowGraph, st: States, n: Id, target: NodeState, st': States)
    requires g.Closed() && Valid(g, st) && Next(g, st, n, target, st')
    ensures Valid(g, st')
  {
    forall m <- g.Ids() ensures NodeOk(g, st', m) { NextNodeOk(g, st, n, target, st', m); }
  }

  /** A target that is not terminal settles nothing: the update alone is the closure. */
  lemma {:induction false} QuietTransition(g: WorkflowGraph, st: States, n: Id, target: NodeState)
    requires g.Closed() && Valid(g, st)
    requires n in g.Ids() && Allowed(st[n], target) && !target.Terminal()
    ensures IsClosure(g, st[n := target], st[n := target])
  {
    var st' := st[n := target];
    forall m <- g.Ids() ensures SettledTo(g, st', st', m) {
      if st'[m].Blocked? {
        assert NodeOk(g, st, m);
        var d :| d in g.Deps(m) && !st[d].Succeeded?;
        assert !st'[d].Succeeded?;
      }
    }
  }

  /** `GraphState.transition`: refused exactly for an unknown node or a forbidden target. */
  method Transition(g: WorkflowGraph, st: States, n: Id, target: NodeState) returns (r: Result<States>)
    requires WellFormed(g) && Valid(g, st)
    ensures r.Ok? <==> n in g.Ids() && Allowed(st[n], target)
    ensures r.Ok? ==> Next(g, st, n, target, r.value) && Valid(g, r.value)
  {
    if n !in st || !Allowed(st[n], target) { return Err(InvalidInput); }
    var states := st[n := target];
    if target.Terminal() {
      states := RefreshWaitingNodes(g, states);
    } else {
      QuietTransition(g, st, n, target);
    }
    NextIsValid(g, st, n, target, states);
    return Ok(states);
  }

  // ------------------------------------------------------------ ancestry

  /** `p` follows dependencies from its first node down to its last. */
  ghost predicate Path(g: WorkflowGraph, p: seq<Id>) {
    |p| >= 2 && forall i | 0 <= i < |p| - 1 :: p[i] in g.Deps(p[i + 1])
  }

  ghost predicate Ancestor(g: WorkflowGraph, a: Id, n: Id) {
    exists p :: Path(g, p) && p[0] == a && p[|p| - 1] == n
  }

  lemma {:induction false} DirectAncestor(g: WorkflowGraph, d: Id, n: Id)
    requires d in g.Deps(n)
    ensures Ancestor(g, d, n)
  {
    assert Path(g, [d, n]) && [d, n][0] == d && [d, n][|[d, n]| - 1] == n;
  }

  lemma {:induction false} ExtendAncestor(g: WorkflowGraph, a: Id, d: Id, n: Id)
    requires Ancestor(g, a, d) && d in g.Deps(n)
    ensures Ancestor(g, a, n)
  {
    var p :| Path(g, p) && p[0] == a && p[|p| - 1] == d;
    var q := p + [n];
    assert Path(g, q) && q[0] == a && q[|q| - 1] == n;
  }

  /** Everything upstream of a released node has succeeded. */
  lemma {:induction false} ScheduledAncestorsSucceeded(g: WorkflowGraph, st: States, a: Id, n: Id)
    requires g.Closed() && Valid(g, st)
    requires n in g.Ids() && st[n].Scheduled() && Ancestor(g, a, n)
    ensures a in g.Ids() && st[a].Succeeded?
  {
    var p :| Path(g, p) && p[0] == a && p[|p| - 1] == n;
    ScheduledPath(g, st, p);
  }

  lemma {:induction false} ScheduledPath(g: WorkflowGraph, st: States, p: seq<Id>)
    requires g.Closed() && Valid(g, st) && Path(g, p)
    requires p[|p| - 1] in g.Ids() && st[p[|p| - 1]].Scheduled()
    ensures p[0] in g.Ids() && st[p[0]].Succeeded?
    decreases |p|
  {
    var n, d := p[|p| - 1], p[|p| - 2];
    assert NodeOk(g, st, n) && d in g.Deps(n);
    if |p| > 2 { ScheduledPath(g, st, p[..|p| - 1]); }
  }

  /** Every skipped node has a failed, rejected or cancelled node upstream. */
  lemma {:induction false} SkippedHasCause(g: WorkflowGraph, r: map<Id, nat>, st: States, n: Id) returns (a: Id)
    requires g.Closed() && IsRank(g, r) && Valid(g, st)
    requires n in g.Ids() && st[n].Skipped?
    ensures a in g.Ids() && Ancestor(g, a, n) && (st[a].Failed? || st[a].Rejected? || st[a].Cancelled?)
    decreases r[n]
  {
    assert NodeOk(g, st, n);
    var d :| d in g.Deps(n) && st[d].Unsuccessful();
    DirectAncestor(g, d, n);
    a := d;
    if st[d].Skipped? {
      a := SkippedHasCause(g, r, st, d);
      ExtendAncestor(g, a, d, n);
    }
  }

  /** Behind every node that has not finished there is one that can move. */
  lemma {:induction false} UnfinishedHasActive(g: WorkflowGraph, r: map<Id, nat>, st: States, n: Id) returns (a: Id)
    requires g.Closed() && IsRank(g, r) && Valid(g, st)
    requires n in g.Ids() && !st[n].Terminal()
    ensures a in g.Ids() && st[a].Active()
    ensures if st[n].Blocked? then Ancestor(g, a, n) else a == n
    decreases r[n]
  {
    if !st[n].Blocked? { return n; }
    assert NodeOk(g, st, n);
    var d :| d in g.Deps(n) && !st[d].Succeeded?;
    DirectAncestor(g, d, n);
    a := UnfinishedHasActive(g, r, st, d);
    if a != d { ExtendAncestor(g, a, d, n); }
  }

  predicate AllTerminal(st: States) { forall n <- st :: st[n].Terminal() }

  /** No deadlock: a valid state that is not finished has a node that can move. */
  lemma {:induction false} NoDeadlock(g: WorkflowGraph, st: States)
    requires WellFormed(g) && Valid(g, st) && !AllTerminal(st)
    ensures exists a <- g.Ids() :: st[a].Active()
  {
    var r :| IsRank(g, r);
    var n :| n in st && !st[n].Terminal();
    var a := UnfinishedHasActive(g, r, st, n);
  }

  // --------------------------------------------- what a transition derives

  /** Success releases exactly the waiting nodes whose dependencies have now all succeeded. */
  lemma {:induction false} SuccessReleases(g: WorkflowGraph, st: States, n: Id, st': States)
    requires WellFormed(g) && Valid(g, st) && Next(g, st, n, Succeeded, st')
    ensures forall m <- g.Ids() | m != n ::
              st'[m] == if st[m].Blocked? && (forall d <- g.Deps(m) :: d == n || st[d].Succeeded?) then Ready else st[m]
  {
    var r :| IsRank(g, r);
    forall m <- g.Ids() | m != n
      ensures st'[m] == if st[m].Blocked? && (forall d <- g.Deps(m) :: d == n || st[d].Succeeded?) then Ready else st[m]
    {
      assert SettledTo(g, st[n := Succeeded], st', m);
      if st[m].Blocked? {
        SuccessNeverSkips(g, r, st, n, st', m);
        forall d <- g.Deps(m) ensures st'[d].Succeeded? <==> d == n || st[d].Succeeded? {
          assert SettledTo(g, st[n := Succeeded], st', d);
        }
      }
    }
  }

  lemma {:induction false} SuccessNeverSkips(g: WorkflowGraph, r: map<Id, nat>, st: States, n: Id, st': States, m: Id)
    requires g.Closed() && IsRank(g, r) && Valid(g, st) && Next(g, st, n, Succeeded, st')
    requires m in g.Ids() && m != n && st[m].Blocked?
    ensures !st'[m].Skipped?
    decreases r[m]
  {
    assert SettledTo(g, st[n := Succeeded], st', m);
    if st'[m].Skipped? {
      var d :| d in g.Deps(m) && st'[d].Unsuccessful();
      assert NodeOk(g, st, m) && SettledTo(g, st[n := Succeeded], st', d);
      SuccessNeverSkips(g, r, st, n, st', d);
    }
  }

  /** Any other terminal target skips exactly the waiting descendants. */
  lemma {:induction false} FailureSkips(g: WorkflowGraph, st: States, n: Id, target: NodeState, st': States)
    requires WellFormed(g) && Valid(g, st) && Next(g, st, n, target, st') && target.Unsuccessful()
    ensures forall m <- g.Ids() | m != n ::
              st'[m] == if st[m].Blocked? && Ancestor(g, n, m) then Skipped else st[m]
  {
    var r :| IsRank(g, r);
    forall m <- g.Ids() | m != n
      ensures st'[m] == if st[m].Blocked? && Ancestor(g, n, m) then Skipped else st[m]
    {
      assert SettledTo(g, st[n := target], st', m);
      if !st[m].Blocked? {
      } else if Ancestor(g, n, m) {
        var p :| Path(g, p) && p[0] == n && p[|p| - 1] == m;
        DescendantSkipped(g, st, n, target, st', p);
      } else {
        OnlyDescendantsMove(g, r, st, n, target, st', m);
      }
    }
  }

  lemma {:induction false} DescendantSkipped(
      g: WorkflowGraph, st: States, n: Id, target: NodeState, st': States, p: seq<Id>)
    requires g.Closed() && Valid(g, st) && Next(g, st, n, target, st') && target.Unsuccessful()
    requires Path(g, p) && p[0] == n && p[|p| - 1] in g.Ids() && st[p[|p| - 1]].Blocked?
    ensures st'[p[|p| - 1]].Skipped?
    decreases |p|
  {
    var m, d := p[|p| - 1], p[|p| - 2];
    assert d in g.Deps(m) && NodeOk(g, st, m);
    assert SettledTo(g, st[n := target], st', m) && SettledTo(g, st[n := target], st', n);
    if |p| > 2 {
      var q := p[..|p| - 1];
      assert Path(g, q);
      if st[d].Scheduled() { ScheduledPath(g, st, q); }
      DescendantSkipped(g, st, n, target, st', q);
    }
    assert st'[d].Unsuccessful();
  }

  lemma {:induction false} OnlyDescendantsMove(
      g: WorkflowGraph, r: map<Id, nat>, st: States, n: Id, target: NodeState, st': States, m: Id)
    requires g.Closed() && IsRank(g, r) && Valid(g, st) && Next(g, st, n, target, st') && target.Unsuccessful()
    requires m in g.Ids() && m != n && st[m].Blocked? && !Ancestor(g, n, m)
    ensures st'[m].Blocked?
    decreases r[m]
  {
    assert NodeOk(g, st, m) && SettledTo(g, st[n := target], st', m);
    forall d <- g.Deps(m) ensures d != n && st'[d] == st[d] {
      assert SettledTo(g, st[n := target], st', d);
      DirectAncestor(g, d, m);
      if Ancestor(g, n, d) { ExtendAncestor(g, n, d, m); }
      if st[d].Blocked? { OnlyDescendantsMove(g, r, st, n, target, st', d); }
    }
  }

  // ------------------------------------------------------- sinks and results

  function Sinks(g: WorkflowGraph): set<Id> {
    set n | n in g.Ids() && forall m <- g.Ids() :: n !in g.Deps(m)
  }

  /** The gate of `accepted_graph_results`. */
  predicate ResultGate(g: WorkflowGraph, st: States)
    requires st.Keys == g.Ids()
  {
    AllTerminal(st) && forall n <- Sinks(g) :: st[n].Succeeded?
  }

  /** The API reports "succeeded" when every node has succeeded. */
  predicate AggregateSucceeded(st: States) { AllTerminal(st) && forall n <- st :: st[n].Succeeded? }

  ghost function RankedAbove(g: WorkflowGraph, r: map<Id, nat>, n: Id): set<Id>
    requires IsRank(g, r) && n in g.Ids()
  {
    set x | x in g.Ids() && r[x] > r[n]
  }

  lemma {:induction false} SucceededSinksReach(g: WorkflowGraph, r: map<Id, nat>, st: States, n: Id)
    requires g.Closed() && IsRank(g, r) && Valid(g, st) && n in g.Ids()
    requires forall s <- Sinks(g) :: st[s].Succeeded?
    ensures st[n].Succeeded?
    decreases RankedAbove(g, r, n)
  {
    if n !in Sinks(g) {
      var m :| m in g.Ids() && n in g.Deps(m);
      assert m in RankedAbove(g, r, n) && m !in RankedAbove(g, r, m);
      SucceededSinksReach(g, r, st, m);
      assert NodeOk(g, st, m);
    }
  }

  /** Succeeded sinks mean a fully succeeded graph, so the gate and the aggregate agree. */
  lemma {:induction false} ResultGateAgrees(g: WorkflowGraph, st: States)
    requires WellFormed(g) && Valid(g, st)
    ensures ResultGate(g, st) <==> AggregateSucceeded(st)
    ensures (forall n <- Sinks(g) :: st[n].Succeeded?) ==> AggregateSucceeded(st)
  {
    var r :| IsRank(g, r);
    if forall n <- Sinks(g) :: st[n].Succeeded? {
      forall n <- g.Ids() ensures st[n].Succeeded? { SucceededSinksReach(g, r, st, n); }
    }
  }

  // ----------------------------------------------------------- whole runs

  /** How many explicit transitions a node can still take. */
  function StepsLeft(s: NodeState): nat {
    match s
    case Blocked => 4
    case Ready => 4
    case Running => 3
    case Uncertain => 2
    case AwaitingValidation => 1
    case _ => 0
  }

  function Work(ids: seq<Id>, st: States): nat
    requires forall n <- ids :: n in st
  {
    if ids == [] then 0 else StepsLeft(st[ids[0]]) + Work(ids[1..], st)
  }

  lemma {:induction false} WorkBound(ids: seq<Id>, st: States)
    requires forall n <- ids :: n in st
    ensures Work(ids, st) <= 4 * |ids|
  {
    if ids != [] { WorkBound(ids[1..], st); }
  }

  lemma {:induction false} WorkDrops(ids: seq<Id>, st: States, st': States, n: Id)
    requires forall m <- ids :: m in st && m in st' && StepsLeft(st'[m]) <= StepsLeft(st[m])
    requires n in st && n in st' && StepsLeft(st'[n]) < StepsLeft(st[n])
    ensures Work(ids, st') <= Work(ids, st)
    ensures n in ids ==> Work(ids, st') < Work(ids, st)
  {
    if ids != [] { WorkDrops(ids[1..], st, st', n); }
  }

  lemma {:induction false} NextSpendsWork(g: WorkflowGraph, st: States, n: Id, target: NodeState, st': States)
    requires g.Closed() && st.Keys == g.Ids() && Next(g, st, n, target, st')
    ensures Work(g.nodes, st') < Work(g.nodes, st)
  {
    assert SettledTo(g, st[n := target], st', n);
    forall m <- g.nodes ensures StepsLeft(st'[m]) <= StepsLeft(st[m]) { assert SettledTo(g, st[n := target], st', m); }
    WorkDrops(g.nodes, st, st', n);
  }

  /** One explicit transition: the node, its target, and the states it left behind. */
  datatype Move = Move(node: Id, target: NodeState, after: States)

  /** A run: each move continues from the states the previous one left. */
  ghost predicate RunsFrom(g: WorkflowGraph, st: States, moves: seq<Move>)
    requires g.Closed()
  {
    moves != [] ==>
      && Next(g, st, moves[0].node, moves[0].target, moves[0].after)
      && RunsFrom(g, moves[0].after, moves[1..])
  }

  lemma {:induction false} RunSpendsWork(g: WorkflowGraph, st: States, moves: seq<Move>)
    requires g.Closed() && Valid(g, st) && RunsFrom(g, st, moves)
    ensures |moves| <= Work(g.nodes, st)
    ensures forall i | 0 <= i < |moves| :: Valid(g, moves[i].after)
  {
    if moves != [] {
      NextIsValid(g, st, moves[0].node, moves[0].target, moves[0].after);
      NextSpendsWork(g, st, moves[0].node, moves[0].target, moves[0].after);
      RunSpendsWork(g, moves[0].after, moves[1..]);
      assert forall i | 1 <= i < |moves| :: moves[i] == moves[1..][i - 1];
    }
  }

  /** Every run of an N-node graph keeps every state valid and takes at most 4N explicit transitions. */
  lemma {:induction false} RunIsBounded(g: WorkflowGraph, st: States, moves: seq<Move>)
    requires g.Closed() && Valid(g, st) && RunsFrom(g, st, moves)
    ensures |moves| <= 4 * |g.nodes|
    ensures forall i | 0 <= i < |moves| :: Valid(g, moves[i].after)
  {
    RunSpendsWork(g, st, moves);
    WorkBound(g.nodes, st);
  }
}
