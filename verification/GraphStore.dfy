/** The graph half of backend/workflows/store.py: every public method is one transaction over the rows of a graph. */
module GraphStore {

  import opened Outcomes
  import opened Graphs
  import opened GraphLog
  import opened GraphTables
  import opened GraphRuns

  /** The tables `create_graph` writes: the initial states and one event per node. */
  ghost predicate Created(g: WorkflowGraph, db: Tables) {
    && WellFormed(g)
    && db.rows == (map n | n in g.Ids() :: Row(InitialState(g)[n], 0, None, None, None))
    && db.log == Events(g.nodes, InitialState(g))
    && db.artifacts == map[] && db.nextId == 0 && db.deadline.None?
  }

  lemma {:induction false} CreatedReplays(nodes: seq<Id>, initial: States)
    requires initial.Keys == Members(nodes)
    ensures Replay(Events(nodes, initial)) == initial
  {
    ReplayEvents([], nodes, initial);
    assert [] + Events(nodes, initial) == Events(nodes, initial);
  }

  lemma {:induction false} CreatedHasInv(g: WorkflowGraph, db: Tables)
    requires Created(g, db)
    ensures Inv(g, db)
  {
    InitialIsValid(g);
    assert StatesOf(db.rows) == InitialState(g);
    CreatedReplays(g.nodes, InitialState(g));
  }

  /** The inserts of `create_graph`: one row and one event per node. */
  method InitialTables(nodes: seq<Id>, initial: States) returns (rows: map<Id, Row>, log: seq<Event>)
    requires initial.Keys == Members(nodes)
    ensures rows == map n | n in initial :: Row(initial[n], 0, None, None, None)
    ensures log == Events(nodes, initial)
  {
    rows, log := map[], [];
    for i := 0 to |nodes|
      invariant forall n <- nodes[..i] :: n in rows
      invariant forall n <- rows :: n in initial && rows[n] == Row(initial[n], 0, None, None, None)
      invariant log == Events(nodes, initial)[..i]
    {
      rows := rows[nodes[i] := Row(initial[nodes[i]], 0, None, None, None)];
      log := log + [Event(nodes[i], initial[nodes[i]])];
    }
    assert nodes[..|nodes|] == nodes;
  }

  /** From creation on, whatever interleaving of calls commits, the log replays to the node table. */
  lemma {:induction false} LogReproducesTable(g: WorkflowGraph, judge: Judge, db: Tables, run: seq<Commit>)
    requires Created(g, db) && IsRun(g, judge, db, run)
    ensures Replay(Final(db, run).log) == StatesOf(Final(db, run).rows)
    ensures Inv(g, Final(db, run))
  {
    CreatedHasInv(g, db);
    RunKeepsInv(g, judge, db, run);
  }

  // ----------------------------------------------------- persisting one move

  /** `rows` with the states of the nodes in `done` taken from `after`. */
  function Written(rows: map<Id, Row>, after: States, done: set<Id>): map<Id, Row>
    requires rows.Keys == after.Keys
  {
    map n | n in rows :: if n in done then rows[n].(state := after[n]) else rows[n]
  }

  lemma {:induction false} WrittenAll(rows: map<Id, Row>, after: States, done: set<Id>)
    requires rows.Keys == after.Keys && done == Changed(StatesOf(rows), after)
    ensures StatesOf(Written(rows, after, done)) == after
  {
    forall n <- rows ensures Written(rows, after, done)[n].state == after[n] {
      assert n !in done ==> StatesOf(rows)[n] == after[n];
    }
  }

  /** The write loop: each guarded UPDATE finds its row in the state it expects, and is logged. */
  method WriteChanges(rows: map<Id, Row>, log: seq<Event>, updated: States, ordered: seq<Id>)
    returns (rows': map<Id, Row>, log': seq<Event>)
    requires rows.Keys == updated.Keys && Distinct(ordered)
    requires forall n <- ordered :: n in updated
    ensures rows' == Written(rows, updated, Members(ordered))
    ensures log' == log + Events(ordered, updated)
  {
    rows', log' := rows, log;
    for i := 0 to |ordered|
      invariant rows' == Written(rows, updated, Members(ordered[..i]))
      invariant log' == log + Events(ordered[..i], updated)
    {
      var m := ordered[i];
      assert m !in ordered[..i] && ordered[..i + 1] == ordered[..i] + [m];
      assert rows'[m].state == rows[m].state;
      rows' := rows'[m := rows'[m].(state := updated[m])];
      log' := log' + [Event(m, updated[m])];
    }
    assert ordered[..|ordered|] == ordered;
  }

  lemma {:induction false} WritesAreMove(
      g: WorkflowGraph, db: Tables, n: Id, target: NodeState, updated: States, ordered: seq<Id>, db': Tables)
    requires Consistent(g, db) && Next(g, StatesOf(db.rows), n, target, updated)
    requires WriteOrder(g, StatesOf(db.rows), updated, n, ordered) && forall m <- ordered :: m in updated
    requires db' == db.(rows := Written(db.rows, updated, Members(ordered)), log := db.log + Events(ordered, updated))
    ensures Moved(g, db, n, db.rows[n].(state := target), db')
  {
    hide Replay, Acyclic;
    assert Members(ordered) == Changed(StatesOf(db.rows), updated);
    WrittenAll(db.rows, updated, Members(ordered));
    assert SettledTo(g, StatesOf(db.rows)[n := target], updated, n);
    assert LoggedIn(g, StatesOf(db.rows), StatesOf(db'.rows), n, ordered, db.log, db'.log);
  }

  lemma {:induction false} ColumnUpdate(rows: map<Id, Row>, n: Id, row: Row)
    requires n in rows && row.state == rows[n].state
    ensures StatesOf(rows[n := row]) == StatesOf(rows)
  {}

  /** Moving a node and then rewriting its own other columns is one move to the final row. */
  lemma {:induction false} MoveThenUpdate(g: WorkflowGraph, db: Tables, start: Tables, n: Id, moved: Tables, row: Row)
    requires g.Closed() && n in db.rows && start.rows == db.rows && start.log == db.log
    requires Moved(g, start, n, db.rows[n].(state := row.state), moved)
    ensures Moved(g, db, n, row, moved.(rows := moved.rows[n := row]))
  {
    ColumnUpdate(moved.rows, n, row);
    var order :| LoggedIn(g, StatesOf(db.rows), StatesOf(moved.rows), n, order, db.log, moved.log);
  }

  // -------------------------------------------------- cancelling node by node

  /** Cancelling one more live node after settling equals settling after cancelling both. */
  lemma {:induction false} ClosureAbsorbs(g: WorkflowGraph, s1: States, s2: States, n: Id, s3: States)
    requires g.Closed() && n in g.Ids() && IsClosure(g, s1, s2) && Strikable(s1[n])
    requires IsClosure(g, s2[n := Cancelled], s3)
    ensures IsClosure(g, s1[n := Cancelled], s3)
  {
    var s2' := s2[n := Cancelled];
    assert SettledTo(g, s1, s2, n);
    forall m <- g.Ids() ensures SettledTo(g, s1[n := Cancelled], s3, m) {
      assert SettledTo(g, s1, s2, m) && SettledTo(g, s2', s3, m);
      if m != n && s1[m].Blocked? {
        if s2[m].Skipped? {
          var d :| d in g.Deps(m) && s2[d].Unsuccessful();
          assert SettledTo(g, s2', s3, d);
        } else if s2[m].Ready? {
          forall d <- g.Deps(m) ensures s3[d].Succeeded? { assert s2[d].Succeeded? && SettledTo(g, s2', s3, d); }
        }
      }
    }
  }

  lemma {:induction false} StruckGrows(st: States, among: set<Id>, n: Id)
    requires n in st && Strikable(st[n])
    ensures Struck(st, among + {n}) == Struck(st, among)[n := Cancelled]
  {}

  lemma {:induction false} StruckIgnores(st: States, among: set<Id>, n: Id)
    requires n in st ==> !Strikable(st[n])
    ensures Struck(st, among + {n}) == Struck(st, among)
  {}

  /** The cancel loop after visiting `among`. */
  ghost predicate Cancelling(g: WorkflowGraph, db: Tables, among: set<Id>, rows: map<Id, Row>)
    requires g.Closed()
  {
    && rows.Keys == db.rows.Keys == g.Ids()
    && IsClosure(g, Struck(StatesOf(db.rows), among), StatesOf(rows))
    && forall n <- db.rows :: rows[n] ==
         if n in among && Strikable(db.rows[n].state) then FencedRow(db.rows[n], Cancelled)
         else db.rows[n].(state := rows[n].state)
  }

  lemma {:induction false} CancelOneStates(
      g: WorkflowGraph, db: Tables, among: set<Id>, rows: map<Id, Row>, n: Id, st': States)
    requires g.Closed() && Cancelling(g, db, among, rows)
    requires n in g.Ids() && n !in among && Strikable(db.rows[n].state)
    requires Next(g, StatesOf(rows), n, Cancelled, st')
    ensures IsClosure(g, Struck(StatesOf(db.rows), among + {n}), st')
  {
    var st := StatesOf(db.rows);
    StruckGrows(st, among, n);
    assert Struck(st, among)[n] == st[n];
    ClosureAbsorbs(g, Struck(st, among), StatesOf(rows), n, st');
  }

  /** Cancelling one more live node extends the closure to it. */
  lemma {:induction false} CancelOne(g: WorkflowGraph, db: Tables, among: set<Id>, now: Tables, n: Id, db': Tables)
    requires g.Closed() && Cancelling(g, db, among, now.rows)
    requires n in g.Ids() && n !in among && Strikable(db.rows[n].state)
    requires Moved(g, now, n, FencedRow(now.rows[n], Cancelled), db')
    ensures Cancelling(g, db, among + {n}, db'.rows)
  {
    CancelOneStates(g, db, among, now.rows, n, StatesOf(db'.rows));
    hide Logged;
    forall m <- db.rows
      ensures db'.rows[m] ==
              if m in among + {n} && Strikable(db.rows[m].state) then FencedRow(db.rows[m], Cancelled)
              else db.rows[m].(state := db'.rows[m].state)
    {
      assert SettledTo(g, Struck(StatesOf(db.rows), among), StatesOf(now.rows), m);
      assert SettledTo(g, StatesOf(now.rows)[n := Cancelled], StatesOf(db'.rows), m);
    }
  }

  /** Until the loop reaches a live node, its state is the one the snapshot shows. */
  lemma {:induction false} CancelVisit(g: WorkflowGraph, db: Tables, among: set<Id>, rows: map<Id, Row>, n: Id)
    requires g.Closed() && Cancelling(g, db, among, rows) && n in g.Ids() && n !in among
    ensures n in rows && n in db.rows
    ensures Strikable(db.rows[n].state) ==> rows[n].state == db.rows[n].state
  {
    assert SettledTo(g, Struck(StatesOf(db.rows), among), StatesOf(rows), n);
  }

  lemma {:induction false} CancelSkip(g: WorkflowGraph, db: Tables, among: set<Id>, rows: map<Id, Row>, n: Id)
    requires g.Closed() && Cancelling(g, db, among, rows)
    requires n in g.Ids() && !Strikable(db.rows[n].state)
    ensures Cancelling(g, db, among + {n}, rows)
  {
    StruckIgnores(StatesOf(db.rows), among, n);
  }

  // ------------------------------------------------------ recovering leases

  /** The expired nodes in row order. */
  function ExpiredNodes(rows: map<Id, Row>, nodes: seq<Id>, now: int): (e: seq<Id>)
    requires forall n <- nodes :: n in rows
    ensures forall n :: n in e <==> n in nodes && Expired(rows[n], now)
    ensures Distinct(nodes) ==> Distinct(e)
  {
    if nodes == [] then []
    else
      var rest := ExpiredNodes(rows, nodes[1..], now);
      if Expired(rows[nodes[0]], now) then [nodes[0]] + rest else rest
  }

  /** How many nodes hold an expired lease. */
  function ExpiredCount(db: Tables, now: int): nat { |set n | n in db.rows && Expired(db.rows[n], now)| }

  lemma {:induction false} ExpiredCounted(ids: seq<Id>, among: set<Id>)
    requires Distinct(ids) && forall n :: n in ids <==> n in among
    ensures |ids| == |among|
  {
    if ids == [] {
      assert among == {};
    } else {
      assert ids[0] !in ids[1..];
      ExpiredCounted(ids[1..], among - {ids[0]});
    }
  }

  ghost predicate Recovering(db: Tables, done: set<Id>, rows: map<Id, Row>) {
    && rows.Keys == db.rows.Keys
    && forall n <- db.rows :: rows[n] == if n in done then FencedRow(db.rows[n], Uncertain) else db.rows[n]
  }

  /** A move to a state that is not terminal rewrites one row only. */
  lemma {:induction false} QuietMove(g: WorkflowGraph, db: Tables, n: Id, row: Row, db': Tables)
    requires Consistent(g, db) && Moved(g, db, n, row, db') && !row.state.Terminal()
    ensures db'.rows == db.rows[n := row]
  {
    var st := StatesOf(db.rows);
    QuietTransition(g, st, n, row.state);
    ClosureUnique(g, st[n := row.state], st[n := row.state], StatesOf(db'.rows));
    forall m <- db.rows | m != n ensures db'.rows[m] == db.rows[m] {
      assert StatesOf(db'.rows)[m] == db'.rows[m].state;
    }
  }

  lemma {:induction false} RecoverRow(db: Tables, done: set<Id>, rows: map<Id, Row>, n: Id)
    requires Recovering(db, done, rows) && n in db.rows
    ensures Recovering(db, done + {n}, rows[n := FencedRow(db.rows[n], Uncertain)])
  {}

  // --------------------------------------- each method's writes are one step

  lemma {:induction false} CompletionCommits(
      g: WorkflowGraph, db: Tables, start: Tables, moved: Tables, n: Id, owner: string, fence: nat, content: string,
      succeeded: bool, now: int, db': Tables)
    requires Inv(g, db) && HoldsLease(db, n, owner, fence, now)
    requires start == db.(
               nextId := db.nextId + 1,
               artifacts := db.artifacts[db.nextId := Artifact(n, content, Sha256(content), false, None)])
    requires Moved(g, start, n, db.rows[n].(state := if succeeded then AwaitingValidation else Failed), moved)
    requires moved.(rows := start.rows, log := start.log) == start
    requires db' == moved.(
               rows := moved.rows[n := moved.rows[n].(owner := None, lease := None, artifact := Some(db.nextId))])
    ensures Completed(g, db, n, owner, fence, content, succeeded, now, db') && Inv(g, db')
  {
    MoveThenUpdate(g, db, start, n, moved, db'.rows[n]);
    CompleteKeepsInv(g, db, n, owner, fence, content, succeeded, now, db');
  }

  lemma {:induction false} ValidationCommits(
      g: WorkflowGraph, judge: Judge, db: Tables, start: Tables, n: Id, policy: Policy, report: Report, db': Tables)
    requires Inv(g, db) && CanValidate(db, n) && report == ReportFor(judge, db, db.rows[n].artifact.value, policy)
    requires
      var a := db.rows[n].artifact.value;
      start == db.(
        artifacts := db.artifacts[a := db.artifacts[a].(accepted := report.accepted, validation := Some(report))])
    requires Moved(g, start, n, db.rows[n].(state := if report.accepted then Succeeded else Rejected), db')
    requires db'.(rows := start.rows, log := start.log) == start
    ensures Validated(g, judge, db, n, policy, db') && Inv(g, db')
  {
    hide Next, Logged, IsClosure, Replay, Acyclic, WriteOrder, RowOk, ArtifactOk;
    MoveThenUpdate(g, db, start, n, db', db'.rows[n]);
    assert db'.rows[n := db'.rows[n]] == db'.rows;
    ValidateKeepsInv(g, judge, db, n, policy, db');
  }

  lemma {:induction false} CancelStart(g: WorkflowGraph, db: Tables)
    requires Consistent(g, db)
    ensures Cancelling(g, db, {}, db.rows)
  {
    assert Struck(StatesOf(db.rows), {}) == StatesOf(db.rows);
    ValidIsClosed(g, StatesOf(db.rows));
  }

  lemma {:induction false} ConsistentCloses(g: WorkflowGraph, db: Tables)
    requires Consistent(g, db)
    ensures g.Closed()
  {}

  lemma {:induction false} MovedGrowsLog(g: WorkflowGraph, db: Tables, n: Id, row: Row, db': Tables)
    requires g.Closed() && Moved(g, db, n, row, db')
    ensures db.log <= db'.log
  {
    hide Next, WriteOrder;
    var order :| LoggedIn(g, StatesOf(db.rows), StatesOf(db'.rows), n, order, db.log, db'.log);
  }

  lemma {:induction false} FencingCommits(
      g: WorkflowGraph, db: Tables, n: Id, target: NodeState, moved: Tables, db': Tables)
    requires Consistent(g, db) && n in db.rows && Moved(g, db, n, db.rows[n].(state := target), moved)
    requires db' == moved.(rows := moved.rows[n := FencedRow(moved.rows[n], target)])
    ensures Moved(g, db, n, FencedRow(db.rows[n], target), db') && Consistent(g, db') && db.log <= db'.log
  {
    hide Consistent, Next, Logged;
    ConsistentCloses(g, db);
    MoveThenUpdate(g, db, db, n, moved, FencedRow(db.rows[n], target));
    MovedStaysConsistent(g, db, n, FencedRow(db.rows[n], target), db');
    MovedGrowsLog(g, db, n, FencedRow(db.rows[n], target), db');
  }

  /** One turn of the recovery loop. */
  lemma {:induction false} RecoverTurn(g: WorkflowGraph, db: Tables, done: set<Id>, now: Tables, n: Id, db': Tables)
    requires Consistent(g, now) && Recovering(db, done, now.rows) && n in db.rows && n !in done
    requires Moved(g, now, n, FencedRow(now.rows[n], Uncertain), db')
    ensures Recovering(db, done + {n}, db'.rows)
  {
    QuietMove(g, now, n, FencedRow(now.rows[n], Uncertain), db');
    hide Moved, IsClosure, Replay, Acyclic, Consistent;
    RecoverRow(db, done, now.rows, n);
  }

  lemma {:induction false} PrefixMembers(nodes: seq<Id>, i: nat)
    requires Distinct(nodes) && i < |nodes|
    ensures nodes[i] !in Members(nodes[..i])
    ensures Members(nodes[..i + 1]) == Members(nodes[..i]) + {nodes[i]}
  {}

  class Store {
    const graph: WorkflowGraph
    const judge: Judge
    var rows: map<Id, Row>
    var artifacts: map<nat, Artifact>
    var log: seq<Event>
    var nextId: nat
    var deadline: Option<int>

    ghost function Db(): Tables
      reads this
    {
      Tables(rows, artifacts, log, nextId, deadline)
    }

    ghost predicate Valid()
      reads this
    {
      Inv(graph, Db())
    }

    constructor (g: WorkflowGraph, judge: Judge)
      requires WellFormed(g)
      ensures graph == g && this.judge == judge && Created(g, Db()) && Valid()
    {
      graph, this.judge := g, judge;
      artifacts, nextId, deadline := map[], 0, None;
      var initialRows, initialLog := InitialTables(g.nodes, InitialState(g));
      rows, log := initialRows, initialLog;
      new;
      CreatedHasInv(g, Db());
    }

    method BindBudget(limit: int) returns (ok: bool)
      requires Valid()
      modifies this
      ensures Valid()
      ensures if ok then Step(graph, judge, old(Db()), Bind(limit), Db()) else Db() == old(Db())
      ensures ok <==> old(deadline).None?
    {
      ghost var before := Db();
      ok := deadline.None?;
      if ok {
        deadline := Some(limit);
        StepKeepsInv(graph, judge, before, Bind(limit), Db());
      }
    }

    /** `_transition_graph_node`: compute the closure, order its writes, apply them one by one. */
    method TransitionNode(n: Id, target: NodeState) returns (r: Result<States>)
      requires Consistent(graph, Db())
      modifies this`rows, this`log
      ensures r.Ok? <==> n in old(rows) && Allowed(old(rows)[n].state, target)
      ensures r.Err? ==> Db() == old(Db())
      ensures r.Ok? ==> Moved(graph, old(Db()), n, old(rows)[n].(state := target), Db()) && Consistent(graph, Db())
    {
      ghost var before := Db();
      var current := StatesOf(rows);
      var next := Transition(graph, current, n, target);
      if next.Err? { return Err(Conflict); }
      var updated := next.value;
      var ordered := OrderChanges(graph, current, n, target, updated);
      forall m <- ordered ensures m in updated { assert m in Changed(current, updated); }
      rows, log := WriteChanges(rows, log, updated, ordered);
      WritesAreMove(graph, before, n, target, updated, ordered, Db());
      MovedStaysConsistent(graph, before, n, before.rows[n].(state := target), Db());
      return Ok(updated);
    }

    method ClaimNode(n: Id, owner: string, seconds: int, now: int) returns (r: Result<nat>)
      requires Valid()
      modifies this
      ensures Valid()
      ensures r.Ok? <==> CanClaim(old(Db()), n, owner, seconds, now)
      ensures r.Ok? ==>
                && Step(graph, judge, old(Db()), Claim(n, owner, seconds, now), Db())
                && r.value == old(rows)[n].fence + 1
      ensures r.Err? ==> Db() == old(Db())
    {
      ghost var before := Db();
      if !Identifier(owner) || !(1 <= seconds <= 3600) { return Err(InvalidInput); }
      if deadline.None? || deadline.value <= now { return Err(Conflict); }
      if n !in rows || !rows[n].state.Ready? { return Err(Conflict); }
      var fence := rows[n].fence + 1;
      rows := rows[n := Row(Running, fence, Some(owner), Some(now + seconds * SECOND), rows[n].artifact)];
      log := log + [Event(n, Running)];
      StepKeepsInv(graph, judge, before, Claim(n, owner, seconds, now), Db());
      return Ok(fence);
    }

    method CompleteNode(n: Id, owner: string, fence: nat, content: string, succeeded: bool, now: int)
      returns (r: Result<nat>)
      requires Valid()
      modifies this
      ensures Valid()
      ensures r.Ok? <==> HoldsLease(old(Db()), n, owner, fence, now)
      ensures r.Ok? ==>
                && Step(graph, judge, old(Db()), Complete(n, owner, fence, content, succeeded, now), Db())
                && r.value == old(nextId)
      ensures r.Err? ==> Db() == old(Db())
    {
      hide Next, Logged, IsClosure, Replay, Acyclic, WriteOrder, RowOk, ArtifactOk;
      ghost var before := Db();
      if n !in rows || !rows[n].state.Running? || rows[n].owner != Some(owner) || rows[n].fence != fence
      { return Err(Conflict); }
      if rows[n].lease.None? || rows[n].lease.value <= now { return Err(Conflict); }
      var artifact := nextId;
      nextId := nextId + 1;
      artifacts := artifacts[artifact := Artifact(n, content, Sha256(content), false, None)];
      ghost var start := Db();
      var target := if succeeded then AwaitingValidation else Failed;
      var _ := TransitionNode(n, target);
      ghost var moved := Db();
      rows := rows[n := rows[n].(owner := None, lease := None, artifact := Some(artifact))];
      CompletionCommits(graph, before, start, moved, n, owner, fence, content, succeeded, now, Db());
      return Ok(artifact);
    }

    /** `validate_graph_node`: replay a stored report, or judge the artifact once. */
    method ValidateNode(n: Id, policy: Policy) returns (r: Result<Report>)
      requires Valid()
      modifies this
      ensures Valid()
      ensures r.Ok? <==> CanValidate(old(Db()), n) || CanReplay(old(Db()), n, policy)
      ensures if CanValidate(old(Db()), n) then Step(graph, judge, old(Db()), GraphTables.Validate(n, policy), Db())
              else Db() == old(Db())
      ensures r.Ok? ==> CanReplay(Db(), n, policy) && artifacts[rows[n].artifact.value].validation == Some(r.value)
    {
      hide Next, Logged, IsClosure, Replay, Acyclic, WriteOrder, ArtifactOk;
      ghost var before := Db();
      if n !in rows || rows[n].artifact.None? || rows[n].artifact.value !in artifacts { return Err(Conflict); }
      var a := rows[n].artifact.value;
      var stored := artifacts[a];
      if stored.validation.Some? {
        return if stored.validation.value.policy == policy then Ok(stored.validation.value) else Err(Conflict);
      }
      if !rows[n].state.AwaitingValidation? { return Err(Conflict); }
      var report := Report(policy, a, stored.digest, judge(stored.content, policy));
      artifacts := artifacts[a := stored.(accepted := report.accepted, validation := Some(report))];
      ghost var start := Db();
      var _ := TransitionNode(n, if report.accepted then Succeeded else Rejected);
      ValidationCommits(graph, judge, before, start, n, policy, report, Db());
      return Ok(report);
    }

    /** Move a node and take it out of its holder's hands: the fence rises, owner and lease go. */
    method FenceNode(n: Id, target: NodeState)
      requires Consistent(graph, Db()) && n in rows && Allowed(rows[n].state, target)
      modifies this`rows, this`log
      ensures Moved(graph, old(Db()), n, FencedRow(old(rows)[n], target), Db())
      ensures Consistent(graph, Db()) && old(log) <= log
    {
      hide Next, Logged, IsClosure, Replay, Acyclic, WriteOrder, RowOk, ArtifactOk;
      ghost var before := Db();
      var _ := TransitionNode(n, target);
      ghost var moved := Db();
      rows := rows[n := rows[n].(fence := rows[n].fence + 1, owner := None, lease := None)];
      FencingCommits(graph, before, n, target, moved, Db());
    }

    /** `cancel_graph`: node by node, yet the outcome is the single closure of cancelling all live nodes. */
    method CancelGraph()
      requires Valid()
      modifies this
      ensures Valid() && CancelledAll(graph, old(Db()), Db())
    {
      ghost var before := Db();
      CancelLive(StatesOf(rows));
      CancelKeepsInv(graph, before, Db());
    }

    method CancelLive(snapshot: States)
      requires Consistent(graph, Db()) && snapshot == StatesOf(rows)
      modifies this`rows, this`log
      ensures Consistent(graph, Db()) && old(log) <= log
      ensures Cancelling(graph, old(Db()), graph.Ids(), rows)
    {
      hide Moved, Cancelling, IsClosure, Replay, Acyclic;
      ghost var before := Db();
      CancelStart(graph, before);
      assert Members(graph.nodes[..0]) == {};
      for i := 0 to |graph.nodes|
        invariant Db().(rows := before.rows, log := before.log) == before
        invariant before.log <= log && Consistent(graph, Db())
        invariant Cancelling(graph, before, Members(graph.nodes[..i]), rows)
      {
        var n := graph.nodes[i];
        ghost var among := Members(graph.nodes[..i]);
        PrefixMembers(graph.nodes, i);
        ghost var now := Db();
        CancelVisit(graph, before, among, rows, n);
        if Strikable(snapshot[n]) && Strikable(rows[n].state) {
          FenceNode(n, Cancelled);
          CancelOne(graph, before, among, now, n, Db());
        } else {
          CancelSkip(graph, before, among, rows, n);
        }
      }
      assert graph.nodes[..|graph.nodes|] == graph.nodes;
      assert Members(graph.nodes) == graph.Ids();
    }

    /** `recover_graph_nodes_startup`: fence every expired node as uncertain, or refuse the whole scan. */
    method RecoverNodes(limit: int, now: int) returns (r: Result<seq<Id>>)
      requires Valid()
      modifies this
      ensures Valid()
      ensures r == Err(InvalidInput) <==> !(1 <= limit <= 100_000)
      ensures r == Err(LimitExceeded) <==> 1 <= limit <= 100_000 && limit < ExpiredCount(old(Db()), now)
      ensures r.Ok? <==> 1 <= limit <= 100_000 && ExpiredCount(old(Db()), now) <= limit
      ensures r.Ok? ==> RecoveredAll(old(Db()), now, Db()) && |r.value| == ExpiredCount(old(Db()), now)
      ensures r.Ok? ==>
                forall n :: n in r.value <==>
                  && n in old(rows) && old(rows)[n].state == Running
                  && old(rows)[n].lease.Some? && old(rows)[n].lease.value <= now
      ensures r.Err? ==> Db() == old(Db())
    {
      if !(1 <= limit <= 100_000) { return Err(InvalidInput); }
      ghost var before := Db();
      var expired := ExpiredNodes(rows, graph.nodes, now);
      ExpiredCounted(expired, set n | n in rows && Expired(rows[n], now));
      if |expired| > limit { return Err(LimitExceeded); }
      FenceExpired(expired);
      assert RecoveredAll(before, now, Db());
      RecoverKeepsInv(graph, before, now, Db());
      return Ok(expired);
    }

    method FenceExpired(expired: seq<Id>)
      requires Consistent(graph, Db()) && Distinct(expired)
      requires forall n <- expired :: n in rows && rows[n].state.Running?
      modifies this`rows, this`log
      ensures Consistent(graph, Db()) && old(log) <= log
      ensures Recovering(old(Db()), Members(expired), rows)
    {
      hide Moved, IsClosure, Replay, Acyclic;
      ghost var before := Db();
      for i := 0 to |expired|
        invariant Db().(rows := before.rows, log := before.log) == before
        invariant before.log <= log && Consistent(graph, Db())
        invariant Recovering(before, Members(expired[..i]), rows)
      {
        var n := expired[i];
        assert n in expired;
        PrefixMembers(expired, i);
        ghost var start := Db();
        FenceNode(n, Uncertain);
        RecoverTurn(graph, before, Members(expired[..i]), start, n, Db());
      }
      assert expired[..|expired|] == expired;
    }
  }
}
