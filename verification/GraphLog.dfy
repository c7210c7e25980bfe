/** How a graph transition is persisted: the order of its writes, and the event log they leave. */
module GraphLog {

  import opened Graphs

  datatype Event = Event(node: Id, state: NodeState)

  /** The node states an event log describes, the last word on each node winning. */
  function Replay(log: seq<Event>): States {
    if log == [] then map[]
    else Replay(log[..|log| - 1])[log[|log| - 1].node := log[|log| - 1].state]
  }

  lemma {:induction false} ReplayAppend(log: seq<Event>, e: Event)
    ensures Replay(log + [e]) == Replay(log)[e.node := e.state]
  {
    assert (log + [e])[..|log|] == log;
  }

  function Changed(before: States, after: States): set<Id>
    requires before.Keys == after.Keys
  {
    set n | n in before && before[n] != after[n]
  }

  /** No node of `order` is written before one it depends on. */
  ghost predicate DependenciesFirst(g: WorkflowGraph, order: seq<Id>) {
    forall i, j | 0 <= i < j < |order| :: order[j] !in g.Deps(order[i])
  }

  /** `order` lists exactly the changed nodes, once each, the trigger first and dependencies before dependents. */
  ghost predicate WriteOrder(g: WorkflowGraph, before: States, after: States, trigger: Id, order: seq<Id>)
    requires before.Keys == after.Keys
  {
    && Distinct(order)
    && (forall n :: n in order <==> n in Changed(before, after))
    && 0 < |order| && order[0] == trigger
    && DependenciesFirst(g, order)
  }

  /** The pending nodes, in graph order, none of whose dependencies is pending. */
  function Eligible(g: WorkflowGraph, nodes: seq<Id>, pending: set<Id>): (e: seq<Id>)
    ensures forall n :: n in e <==> n in nodes && n in pending && g.Deps(n) * pending == {}
    ensures Distinct(nodes) ==> Distinct(e)
  {
    if nodes == [] then []
    else
      var rest := Eligible(g, nodes[1..], pending);
      if nodes[0] in pending && g.Deps(nodes[0]) * pending == {} then [nodes[0]] + rest else rest
  }

  /** Acyclicity keeps the ordering loop moving. */
  lemma {:induction false} EligibleNonempty(g: WorkflowGraph, pending: set<Id>)
    requires WellFormed(g) && pending != {} && pending <= g.Ids()
    ensures Eligible(g, g.nodes, pending) != []
  {
    var r :| IsRank(g, r);
    var m := Lowest(r, pending);
    assert forall d <- g.Deps(m) :: d !in pending;
    assert m in Eligible(g, g.nodes, pending);
  }

  /** The ordering loop halfway: what is ordered is done, and waits on nothing pending. */
  ghost predicate Ordering(g: WorkflowGraph, changed: set<Id>, trigger: Id, ordered: seq<Id>, pending: set<Id>) {
    && Distinct(ordered) && DependenciesFirst(g, ordered)
    && (forall n :: n in ordered <==> n in changed - pending)
    && pending <= changed <= g.Ids()
    && 0 < |ordered| && ordered[0] == trigger
    && forall n <- ordered, p <- pending :: p !in g.Deps(n)
  }

  lemma {:induction false} OrderingExtends(
      g: WorkflowGraph, changed: set<Id>, trigger: Id, ordered: seq<Id>, pending: set<Id>, e: seq<Id>)
    requires Ordering(g, changed, trigger, ordered, pending) && Distinct(e)
    requires forall n <- e :: n in pending && g.Deps(n) * pending == {}
    ensures Ordering(g, changed, trigger, ordered + e, pending - Members(e))
  {
    var ordered' := ordered + e;
    forall i, j | 0 <= i < j < |ordered'| ensures ordered'[j] !in g.Deps(ordered'[i]) && ordered'[i] != ordered'[j] {
      if |ordered| <= i {
        assert ordered'[i] in e && ordered'[j] in e;
        assert ordered'[j] !in g.Deps(ordered'[i]) * pending;
      } else if |ordered| <= j {
        assert ordered'[i] in ordered && ordered'[j] in e;
      }
    }
    forall n <- ordered', p <- pending | p !in e ensures p !in g.Deps(n) {
      if n in e { assert p !in g.Deps(n) * pending; }
    }
  }

  /** A transition changes nothing its trigger depends on. */
  lemma {:induction false} TriggerFirst(g: WorkflowGraph, before: States, n: Id, target: NodeState, after: States)
    requires g.Closed() && Valid(g, before) && Next(g, before, n, target, after)
    ensures n in Changed(before, after)
    ensures forall d <- g.Deps(n) :: d !in Changed(before, after)
  {
    assert NodeOk(g, before, n) && SettledTo(g, before[n := target], after, n);
    forall d <- g.Deps(n) ensures d !in Changed(before, after) { assert SettledTo(g, before[n := target], after, d); }
  }

  /** The `pending`/`ordered` worklist of `_transition_graph_node`; its defensive failure cannot happen. */
  method OrderChanges(g: WorkflowGraph, before: States, n: Id, target: NodeState, after: States)
    returns (ordered: seq<Id>)
    requires WellFormed(g) && Valid(g, before) && Next(g, before, n, target, after)
    ensures WriteOrder(g, before, after, n, ordered)
  {
    var pending := Changed(before, after);
    TriggerFirst(g, before, n, target, after);
    ordered := [n];
    pending := pending - {n};
    while pending != {}
      invariant Ordering(g, Changed(before, after), n, ordered, pending)
      decreases pending
    {
      var eligible := Eligible(g, g.nodes, pending);
      EligibleNonempty(g, pending);
      OrderingExtends(g, Changed(before, after), n, ordered, pending, eligible);
      assert eligible[0] in eligible;
      ordered := ordered + eligible;
      pending := pending - Members(eligible);
    }
  }

  /** The events of a transition, in write order. */
  function Events(order: seq<Id>, after: States): seq<Event>
    requires forall n <- order :: n in after
  {
    seq(|order|, i requires 0 <= i < |order| => Event(order[i], after[order[i]]))
  }

  /** `log` describes `st` overwritten by `after` on the nodes of `order`. */
  ghost predicate Overwrites(st: States, order: seq<Id>, after: States, st': States)
    requires forall n <- order :: n in after
  {
    && st'.Keys == st.Keys + Members(order)
    && forall n <- st' :: st'[n] == if n in order then after[n] else st[n]
  }

  /** Applying exactly the changed nodes, in any order, turns `before` into `after`. */
  lemma {:induction false} ReplayEvents(log: seq<Event>, order: seq<Id>, after: States)
    requires forall n <- order :: n in after
    ensures Overwrites(Replay(log), order, after, Replay(log + Events(order, after)))
    decreases |order|
  {
    if order == [] {
      assert log + Events(order, after) == log;
    } else {
      var k := |order| - 1;
      var shorter := log + Events(order[..k], after);
      ReplayEvents(log, order[..k], after);
      var e := Event(order[k], after[order[k]]);
      assert log + Events(order, after) == shorter + [e];
      ReplayAppend(shorter, e);
      OverwriteOne(Replay(log), order, after, Replay(shorter));
    }
  }

  lemma {:induction false} OverwriteOne(st: States, order: seq<Id>, after: States, st': States)
    requires order != [] && forall n <- order :: n in after
    requires Overwrites(st, order[..|order| - 1], after, st')
    ensures Overwrites(st, order, after, st'[order[|order| - 1] := after[order[|order| - 1]]])
  {
    assert forall n :: n in order <==> n in order[..|order| - 1] || n == order[|order| - 1];
  }

  /** A log that replays to the table still does after a transition is appended in write order. */
  lemma {:induction false} TransitionReplays(
      g: WorkflowGraph, before: States, after: States, n: Id, order: seq<Id>, log: seq<Event>)
    requires before.Keys == after.Keys && Replay(log) == before
    requires WriteOrder(g, before, after, n, order)
    ensures forall m <- order :: m in after
    ensures Replay(log + Events(order, after)) == after
  {
    forall m <- order ensures m in after { assert m in Changed(before, after); }
    ReplayEvents(log, order, after);
    forall m <- after | m !in order ensures before[m] == after[m] { assert m !in Changed(before, after); }
  }
}
