/** The persisted rows of one workflow graph, and what each committed store call does to them. */
module GraphTables {

  import opened Outcomes
  import opened Graphs
  import opened GraphLog

  /** SHA-256 of canonical JSON, kept injective by remembering its preimage. */
  datatype Digest = Sha256(preimage: string)

  type Policy = string

  /** The deterministic validator: whether this content satisfies this policy. */
  type Judge = (string, Policy) -> bool

  datatype Report = Report(policy: Policy, artifact: nat, digest: Digest, accepted: bool)

  datatype Artifact = Artifact(node: Id, content: string, digest: Digest, accepted: bool, validation: Option<Report>)

  datatype Row = Row(state: NodeState, fence: nat, owner: Option<string>, lease: Option<int>, artifact: Option<nat>)

  datatype Tables = Tables(
    rows: map<Id, Row>, artifacts: map<nat, Artifact>, log: seq<Event>, nextId: nat, deadline: Option<int>)

  const SECOND := 1_000_000

  function StatesOf(rows: map<Id, Row>): States { map n | n in rows :: rows[n].state }

  // ------------------------------------------------------------- invariant

  /** The node's artifact exists, belongs to it, and carries this verdict. */
  ghost predicate Owns(db: Tables, n: Id, accepted: bool, validated: bool)
    requires n in db.rows
  {
    && db.rows[n].artifact.Some?
    && (var a := db.rows[n].artifact.value;
        && a in db.artifacts && db.artifacts[a].node == n
        && db.artifacts[a].accepted == accepted
        && db.artifacts[a].validation.Some? == validated
        && (validated ==> db.artifacts[a].validation.value.accepted == accepted))
  }

  ghost predicate Unleased(row: Row, fence: nat) { row.fence == fence && row.owner.None? && row.lease.None? }

  /** What the columns of a row must be in each state. */
  ghost predicate RowOk(db: Tables, n: Id)
    requires n in db.rows
  {
    var row := db.rows[n];
    match row.state
    case Running => row.fence == 1 && row.owner.Some? && row.lease.Some? && row.artifact.None?
    case AwaitingValidation => Unleased(row, 1) && Owns(db, n, false, false)
    case Succeeded => Unleased(row, 1) && Owns(db, n, true, true)
    case Rejected => Unleased(row, 1) && Owns(db, n, false, true)
    case Failed => Unleased(row, 1) && Owns(db, n, false, false)
    case Cancelled =>
      (Unleased(row, 1) && row.artifact.None?)
          || (Unleased(row, 2) && (row.artifact.None? || Owns(db, n, false, false)))
    case Uncertain => Unleased(row, 2) && row.artifact.None?
    case _ => Unleased(row, 0) && row.artifact.None?
  }

  ghost predicate ArtifactOk(db: Tables, a: nat)
    requires a in db.artifacts
  {
    && a < db.nextId
    && db.artifacts[a].digest == Sha256(db.artifacts[a].content)
    && db.artifacts[a].node in db.rows
    && db.rows[db.artifacts[a].node].artifact == Some(a)
  }

  ghost predicate Consistent(g: WorkflowGraph, db: Tables) {
    && WellFormed(g)
    && Valid(g, StatesOf(db.rows))
    && Replay(db.log) == StatesOf(db.rows)
  }

  ghost predicate Inv(g: WorkflowGraph, db: Tables) {
    && Consistent(g, db)
    && (forall n {:trigger RowOk(db, n)} | n in db.rows :: RowOk(db, n))
    && (forall a {:trigger ArtifactOk(db, a)} | a in db.artifacts :: ArtifactOk(db, a))
  }

  // ----------------------------------------------------------------- steps

  /** The transition of `n` to `row.state`, with its derived changes and its log entries, and `row` stored for `n`. */
  ghost predicate Moved(g: WorkflowGraph, db: Tables, n: Id, row: Row, db': Tables)
    requires g.Closed()
  {
    && n in db.rows && db'.rows.Keys == db.rows.Keys
    && Next(g, StatesOf(db.rows), n, row.state, StatesOf(db'.rows))
    && db'.rows[n] == row
    && (forall m <- db.rows | m != n :: db'.rows[m] == db.rows[m].(state := db'.rows[m].state))
    && Logged(g, db, n, db')
  }

  /** The log grew by the changed nodes, in a legal write order. */
  ghost predicate Logged(g: WorkflowGraph, db: Tables, n: Id, db': Tables)
    requires db'.rows.Keys == db.rows.Keys
  {
    exists order :: LoggedIn(g, StatesOf(db.rows), StatesOf(db'.rows), n, order, db.log, db'.log)
  }

  ghost predicate LoggedIn(
      g: WorkflowGraph, before: States, after: States, n: Id, order: seq<Id>, log: seq<Event>, log': seq<Event>)
    requires before.Keys == after.Keys
  {
    && WriteOrder(g, before, after, n, order)
    && (forall m <- order :: m in after)
    && log' == log + Events(order, after)
  }

  /** The call that `_require_graph_lease` lets through. */
  predicate HoldsLease(db: Tables, n: Id, owner: string, fence: nat, now: int) {
    && n in db.rows && db.rows[n].state.Running?
    && db.rows[n].owner == Some(owner) && db.rows[n].fence == fence
    && db.rows[n].lease.Some? && now < db.rows[n].lease.value
  }

  predicate CanClaim(db: Tables, n: Id, owner: string, seconds: int, now: int) {
    && Identifier(owner) && 1 <= seconds <= 3600
    && db.deadline.Some? && now < db.deadline.value
    && n in db.rows && db.rows[n].state.Ready?
  }

  function ClaimedRow(row: Row, owner: string, seconds: int, now: int): Row {
    Row(Running, row.fence + 1, Some(owner), Some(now + seconds * SECOND), row.artifact)
  }

  /** `claim_graph_node` writes the running row and its event directly. */
  ghost predicate Claimed(db: Tables, n: Id, owner: string, seconds: int, now: int, db': Tables) {
    && CanClaim(db, n, owner, seconds, now)
    && db' == db.(
         rows := db.rows[n := ClaimedRow(db.rows[n], owner, seconds, now)], log := db.log + [Event(n, Running)])
  }

  ghost predicate Completed(
      g: WorkflowGraph, db: Tables, n: Id, owner: string, fence: nat, content: string, succeeded: bool, now: int,
      db': Tables)
    requires g.Closed()
  {
    && HoldsLease(db, n, owner, fence, now)
    && Moved(g, db, n, Row(if succeeded then AwaitingValidation else Failed, fence, None, None, Some(db.nextId)), db')
    && db'.artifacts == db.artifacts[db.nextId := Artifact(n, content, Sha256(content), false, None)]
    && db'.nextId == db.nextId + 1 && db'.deadline == db.deadline
  }

  /** The artifact `validate_graph_node` joins to the node. */
  predicate HasArtifact(db: Tables, n: Id) {
    n in db.rows && db.rows[n].artifact.Some? && db.rows[n].artifact.value in db.artifacts
  }

  predicate CanValidate(db: Tables, n: Id) {
    && HasArtifact(db, n) && db.rows[n].state.AwaitingValidation?
    && db.artifacts[db.rows[n].artifact.value].validation.None?
  }

  /** A stored report answers a validation under its own policy. */
  predicate CanReplay(db: Tables, n: Id, policy: Policy) {
    && HasArtifact(db, n)
    && db.artifacts[db.rows[n].artifact.value].validation.Some?
    && db.artifacts[db.rows[n].artifact.value].validation.value.policy == policy
  }

  function ReportFor(judge: Judge, db: Tables, a: nat, policy: Policy): Report
    requires a in db.artifacts
  {
    Report(policy, a, db.artifacts[a].digest, judge(db.artifacts[a].content, policy))
  }

  ghost predicate Validated(g: WorkflowGraph, judge: Judge, db: Tables, n: Id, policy: Policy, db': Tables)
    requires g.Closed()
  {
    && CanValidate(db, n)
    && (var a := db.rows[n].artifact.value;
        var report := ReportFor(judge, db, a, policy);
        && Moved(g, db, n, db.rows[n].(state := if report.accepted then Succeeded else Rejected), db')
        && db'.artifacts == db.artifacts[a := db.artifacts[a].(accepted := report.accepted, validation := Some(report))]
        && db'.nextId == db.nextId && db'.deadline == db.deadline)
  }

  predicate Strikable(s: NodeState) { s.Ready? || s.Running? || s.AwaitingValidation? }

  function Struck(st: States, among: set<Id>): States {
    map n | n in st :: if n in among && Strikable(st[n]) then Cancelled else st[n]
  }

  /** A row taken from its holder: the fence rises, owner and lease go. */
  function FencedRow(row: Row, target: NodeState): Row { Row(target, row.fence + 1, None, None, row.artifact) }

  /** `cancel_graph`: one closure over every live node at once. */
  ghost predicate CancelledAll(g: WorkflowGraph, db: Tables, db': Tables)
    requires g.Closed()
  {
    && db'.rows.Keys == db.rows.Keys
    && IsClosure(g, Struck(StatesOf(db.rows), g.Ids()), StatesOf(db'.rows))
    && (forall n <- db.rows :: db'.rows[n] ==
          if Strikable(db.rows[n].state) then FencedRow(db.rows[n], Cancelled)
          else db.rows[n].(state := db'.rows[n].state))
    && db.log <= db'.log && Replay(db'.log) == StatesOf(db'.rows)
    && db'.(rows := db.rows, log := db.log) == db
  }

  predicate Expired(row: Row, now: int) { row.state.Running? && row.lease.Some? && row.lease.value <= now }

  /** `recover_graph_nodes_startup`: every expired lease becomes uncertain, nothing else moves. */
  ghost predicate RecoveredAll(db: Tables, now: int, db': Tables) {
    && db'.rows.Keys == db.rows.Keys
    && (forall n <- db.rows ::
       db'.rows[n] == if Expired(db.rows[n], now) then FencedRow(db.rows[n], Uncertain) else db.rows[n])
    && db.log <= db'.log && Replay(db'.log) == StatesOf(db'.rows)
    && db'.(rows := db.rows, log := db.log) == db
  }

  /** The calls the executor, the canceller and recovery make. */
  datatype Action =
    | Bind(limit: int)
    | Claim(node: Id, owner: string, seconds: int, now: int)
    | Complete(node: Id, owner: string, fence: nat, content: string, succeeded: bool, now: int)
    | Validate(node: Id, policy: Policy)
    | Cancel
    | Recover(now: int)

  /** One atomic store call that commits. A refused call changes nothing. */
  ghost predicate Step(g: WorkflowGraph, judge: Judge, db: Tables, a: Action, db': Tables)
    requires g.Closed()
  {
    match a
    case Bind(limit) => db.deadline.None? && db' == db.(deadline := Some(limit))
    case Claim(n, owner, seconds, now) => Claimed(db, n, owner, seconds, now, db')
    case Complete(n, owner, fence, content, succeeded, now) =>
      Completed(g, db, n, owner, fence, content, succeeded, now, db')
    case Validate(n, policy) => Validated(g, judge, db, n, policy, db')
    case Cancel => CancelledAll(g, db, db')
    case Recover(now) => RecoveredAll(db, now, db')
  }

  // ------------------------------------------------------ the invariant holds

  lemma {:induction false} MovedStaysConsistent(g: WorkflowGraph, db: Tables, n: Id, row: Row, db': Tables)
    requires Consistent(g, db) && Moved(g, db, n, row, db')
    ensures Consistent(g, db')
  {
    NextIsValid(g, StatesOf(db.rows), n, row.state, StatesOf(db'.rows));
    var order :| LoggedIn(g, StatesOf(db.rows), StatesOf(db'.rows), n, order, db.log, db'.log);
    TransitionReplays(g, StatesOf(db.rows), StatesOf(db'.rows), n, order, db.log);
  }

  /** A node that did not trigger the move keeps its row, unless it was waiting and is now released or skipped. */
  lemma {:induction false} BystanderRow(g: WorkflowGraph, db: Tables, n: Id, row: Row, db': Tables, m: Id)
    requires g.Closed() && Valid(g, StatesOf(db.rows)) && Moved(g, db, n, row, db') && m in db.rows && m != n
    ensures db'.rows[m] == db.rows[m] ||
            (db.rows[m].state.Blocked?
                && (db'.rows[m] == db.rows[m].(state := Ready) || db'.rows[m] == db.rows[m].(state := Skipped)))
  {
    assert SettledTo(g, StatesOf(db.rows)[n := row.state], StatesOf(db'.rows), m);
  }

  lemma {:induction false} BystanderOk(g: WorkflowGraph, db: Tables, n: Id, row: Row, db': Tables, m: Id)
    requires Inv(g, db) && Moved(g, db, n, row, db') && m in db.rows && m != n
    requires forall a <- db.artifacts | db.artifacts[a].node == m ::
              && a in db'.artifacts
              && db'.artifacts[a] == db.artifacts[a]
    ensures RowOk(db', m)
  {
    assert RowOk(db, m);
    BystanderRow(g, db, n, row, db', m);
  }

  /** A move keeps the invariant when its own row and the artifacts come out right. */
  lemma {:induction false} MoveKeepsInv(g: WorkflowGraph, db: Tables, n: Id, row: Row, db': Tables)
    requires Inv(g, db) && Moved(g, db, n, row, db') && RowOk(db', n)
    requires forall a <- db.artifacts | db.artifacts[a].node != n ::
              && a in db'.artifacts
              && db'.artifacts[a] == db.artifacts[a]
    requires forall a {:trigger ArtifactOk(db', a)} | a in db'.artifacts :: ArtifactOk(db', a)
    ensures Inv(g, db')
  {
    MovedStaysConsistent(g, db, n, row, db');
    forall m <- db'.rows | m != n ensures RowOk(db', m) { BystanderOk(g, db, n, row, db', m); }
  }

  lemma {:induction false} KeptArtifactOk(g: WorkflowGraph, db: Tables, n: Id, row: Row, db': Tables, a: nat)
    requires Inv(g, db) && Moved(g, db, n, row, db') && a in db.artifacts && db.nextId <= db'.nextId
    requires a in db'.artifacts && db'.artifacts[a].node == db.artifacts[a].node
    requires db'.artifacts[a].content == db.artifacts[a].content && db'.artifacts[a].digest == db.artifacts[a].digest
    requires db.rows[n].artifact.Some? ==> row.artifact == db.rows[n].artifact
    ensures ArtifactOk(db', a)
  {
    assert ArtifactOk(db, a);
  }

  /** The direct write of a claim is the scheduler's own transition to running. */
  lemma {:induction false} ClaimIsTransition(
      g: WorkflowGraph, db: Tables, n: Id, owner: string, seconds: int, now: int, db': Tables)
    requires Consistent(g, db) && Claimed(db, n, owner, seconds, now, db')
    ensures Moved(g, db, n, ClaimedRow(db.rows[n], owner, seconds, now), db')
  {
    var st, st' := StatesOf(db.rows), StatesOf(db'.rows);
    assert st' == st[n := Running];
    QuietTransition(g, st, n, Running);
    assert Changed(st, st') == {n};
    assert Events([n], st') == [Event(n, Running)];
    assert LoggedIn(g, st, st', n, [n], db.log, db'.log);
  }

  lemma {:induction false} ClaimKeepsInv(
      g: WorkflowGraph, db: Tables, n: Id, owner: string, seconds: int, now: int, db': Tables)
    requires Inv(g, db) && Claimed(db, n, owner, seconds, now, db')
    ensures Inv(g, db')
  {
    var row := db'.rows[n];
    ClaimIsTransition(g, db, n, owner, seconds, now, db');
    assert RowOk(db, n);
    forall a <- db'.artifacts ensures ArtifactOk(db', a) { KeptArtifactOk(g, db, n, row, db', a); }
    MoveKeepsInv(g, db, n, row, db');
  }

  lemma {:induction false} CompleteKeepsInv(
      g: WorkflowGraph, db: Tables, n: Id, owner: string, fence: nat, content: string, succeeded: bool, now: int,
      db': Tables)
    requires Inv(g, db) && Completed(g, db, n, owner, fence, content, succeeded, now, db')
    ensures Inv(g, db')
  {
    var row := db'.rows[n];
    assert RowOk(db, n);
    forall a <- db.artifacts ensures a < db.nextId { assert ArtifactOk(db, a); }
    forall a <- db'.artifacts ensures ArtifactOk(db', a) {
      if a != db.nextId { KeptArtifactOk(g, db, n, row, db', a); }
    }
    MoveKeepsInv(g, db, n, row, db');
  }

  lemma {:induction false} ValidateKeepsInv(
      g: WorkflowGraph, judge: Judge, db: Tables, n: Id, policy: Policy, db': Tables)
    requires Inv(g, db) && Validated(g, judge, db, n, policy, db')
    ensures Inv(g, db')
  {
    hide Next, Logged, Replay, Acyclic;
    var row := db'.rows[n];
    assert RowOk(db, n);
    forall a <- db'.artifacts ensures ArtifactOk(db', a) { KeptArtifactOk(g, db, n, row, db', a); }
    MoveKeepsInv(g, db, n, row, db');
  }

  lemma {:induction false} StruckNodeOk(g: WorkflowGraph, st: States, st': States, n: Id)
    requires g.Closed() && Valid(g, st) && n in g.Ids()
    requires IsClosure(g, Struck(st, g.Ids()), st')
    ensures NodeOk(g, st', n)
  {
    var struck := Struck(st, g.Ids());
    assert NodeOk(g, st, n) && SettledTo(g, struck, st', n);
    if st[n].Skipped? {
      var d :| d in g.Deps(n) && st[d].Unsuccessful();
      assert SettledTo(g, struck, st', d);
    } else if st[n].Scheduled() {
      forall d <- g.Deps(n) ensures st'[d].Succeeded? { assert st[d].Succeeded? && SettledTo(g, struck, st', d); }
    }
  }

  /** Rows may change their state and lease only: the artifacts stay explained. */
  lemma {:induction false} ArtifactsUntouched(db: Tables, db': Tables, a: nat)
    requires a in db.artifacts && ArtifactOk(db, a)
    requires db'.artifacts == db.artifacts && db'.nextId == db.nextId && db'.rows.Keys == db.rows.Keys
    requires forall n <- db.rows :: db'.rows[n].artifact == db.rows[n].artifact
    ensures ArtifactOk(db', a)
  {}

  lemma {:induction false} CancelledRowOk(g: WorkflowGraph, db: Tables, db': Tables, n: Id)
    requires g.Closed() && n in db.rows && RowOk(db, n) && CancelledAll(g, db, db')
    ensures RowOk(db', n)
  {
    assert SettledTo(g, Struck(StatesOf(db.rows), g.Ids()), StatesOf(db'.rows), n);
  }

  lemma {:induction false} CancelKeepsInv(g: WorkflowGraph, db: Tables, db': Tables)
    requires Inv(g, db) && CancelledAll(g, db, db')
    ensures Inv(g, db')
  {
    forall n <- g.Ids() ensures NodeOk(g, StatesOf(db'.rows), n) {
      StruckNodeOk(g, StatesOf(db.rows), StatesOf(db'.rows), n);
    }
    forall n <- db'.rows ensures RowOk(db', n) { assert RowOk(db, n); CancelledRowOk(g, db, db', n); }
    forall a <- db'.artifacts ensures ArtifactOk(db', a) { assert ArtifactOk(db, a); ArtifactsUntouched(db, db', a); }
  }

  lemma {:induction false} RecoveredNodeOk(g: WorkflowGraph, st: States, st': States, n: Id)
    requires g.Closed() && Valid(g, st) && n in g.Ids() && st'.Keys == st.Keys
    requires forall m <- st :: st'[m] == st[m] || (st[m].Running? && st'[m].Uncertain?)
    ensures NodeOk(g, st', n)
  {
    assert NodeOk(g, st, n);
    if st[n].Skipped? {
      var d :| d in g.Deps(n) && st[d].Unsuccessful();
      assert st'[d].Unsuccessful();
    } else if st[n].Blocked? {
      var d :| d in g.Deps(n) && !st[d].Succeeded?;
      assert !st'[d].Succeeded?;
    }
  }

  lemma {:induction false} RecoveredRowOk(db: Tables, now: int, db': Tables, n: Id)
    requires n in db.rows && RowOk(db, n) && RecoveredAll(db, now, db')
    ensures RowOk(db', n)
  {}

  lemma {:induction false} RecoverKeepsInv(g: WorkflowGraph, db: Tables, now: int, db': Tables)
    requires Inv(g, db) && RecoveredAll(db, now, db')
    ensures Inv(g, db')
  {
    forall n <- g.Ids() ensures NodeOk(g, StatesOf(db'.rows), n) {
      RecoveredNodeOk(g, StatesOf(db.rows), StatesOf(db'.rows), n);
    }
    forall n <- db'.rows ensures RowOk(db', n) { assert RowOk(db, n); RecoveredRowOk(db, now, db', n); }
    forall a <- db'.artifacts ensures ArtifactOk(db', a) { assert ArtifactOk(db, a); ArtifactsUntouched(db, db', a); }
  }

  /** Every committed call keeps the invariant. */
  lemma {:induction false} StepKeepsInv(g: WorkflowGraph, judge: Judge, db: Tables, a: Action, db': Tables)
    requires Inv(g, db) && Step(g, judge, db, a, db')
    ensures Inv(g, db')
  {
    match a
    case Bind(limit) =>
      forall n <- db'.rows ensures RowOk(db', n) { assert RowOk(db, n); }
      forall x <- db'.artifacts ensures ArtifactOk(db', x) { assert ArtifactOk(db, x); }
    case Claim(n, owner, seconds, now) => ClaimKeepsInv(g, db, n, owner, seconds, now, db');
    case Complete(n, owner, fence, content, succeeded, now) =>
      CompleteKeepsInv(g, db, n, owner, fence, content, succeeded, now, db');
    case Validate(n, policy) => ValidateKeepsInv(g, judge, db, n, policy, db');
    case Cancel => CancelKeepsInv(g, db, db');
    case Recover(now) => RecoverKeepsInv(g, db, now, db');
  }
}
