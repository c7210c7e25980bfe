/** What the calls on a workflow graph mean for its rows, with the columns written out. */
module GraphEffects {

  import opened Outcomes
  import opened Graphs
  import opened GraphTables
  import opened GraphRuns

  // ------------------------------------------------------------- transitions

  /** The moves a node may be told to make. */
  const Table: set<(NodeState, NodeState)> := {
    (Ready, Running), (Ready, Cancelled),
    (Running, AwaitingValidation), (Running, Failed), (Running, Cancelled), (Running, Uncertain),
    (AwaitingValidation, Succeeded), (AwaitingValidation, Rejected), (AwaitingValidation, Cancelled),
    (Uncertain, AwaitingValidation), (Uncertain, Failed), (Uncertain, Cancelled)}

  lemma {:induction false} AllowedIsTable(current: NodeState, target: NodeState)
    ensures Allowed(current, target) <==> (current, target) in Table
  {}

  // ------------------------------------------------------------------ leases

  predicate Live(db: Tables, n: Id, now: int) {
    n in db.rows && db.rows[n].state == Running && db.rows[n].lease.Some? && now < db.rows[n].lease.value
  }

  predicate Over(db: Tables, n: Id, now: int) {
    n in db.rows && db.rows[n].state == Running && db.rows[n].lease.Some? && db.rows[n].lease.value <= now
  }

  function Taken(row: Row, state: NodeState): Row {
    row.(state := state, fence := row.fence + 1, owner := None, lease := None)
  }

  /** A claim is granted exactly for a READY node of a graph whose budget is bound and has time left, to a well-formed
      owner for one second to one hour. */
  lemma {:induction false} ClaimCondition(db: Tables, n: Id, owner: string, seconds: int, now: int)
    ensures CanClaim(db, n, owner, seconds, now) <==>
      && n in db.rows && db.rows[n].state == Ready
      && db.deadline.Some? && now < db.deadline.value && Identifier(owner) && 1 <= seconds <= 3600
  {}

  /** It gives the node to that owner under the next fence until the lease is over. */
  lemma {:induction false} ClaimGrantsLease(
      db: Tables, n: Id, owner: string, seconds: int, now: int, db': Tables, name: string, fence: nat, later: int)
    requires Claimed(db, n, owner, seconds, now, db')
    ensures n in db.rows && n in db'.rows
    ensures db'.rows == db.rows[n := db.rows[n].(
              state := Running, fence := db.rows[n].fence + 1,
              owner := Some(owner), lease := Some(now + seconds * 1_000_000))]
    ensures HoldsLease(db', n, name, fence, later) <==>
              name == owner && fence == db.rows[n].fence + 1 && later < now + seconds * 1_000_000
  {}

  lemma {:induction false} HolderWhileLive(db: Tables, n: Id, owner: string, fence: nat, now: int)
    ensures HoldsLease(db, n, owner, fence, now) <==>
              Live(db, n, now) && db.rows[n].owner == Some(owner) && db.rows[n].fence == fence
  {}

  /** A completion, which only a live holder makes, files its content as the node's new artifact; the node awaits
      validation exactly when the result is a success. */
  lemma {:induction false} CompletionEffect(
      g: WorkflowGraph, db: Tables, n: Id, owner: string, fence: nat, content: string, succeeded: bool, now: int,
      db': Tables)
    requires g.Closed() && Completed(g, db, n, owner, fence, content, succeeded, now, db')
    ensures Live(db, n, now) && db.rows[n].owner == Some(owner) && db.rows[n].fence == fence
    ensures n in db'.rows && db'.rows[n] == db.rows[n].(
              state := if succeeded then AwaitingValidation else Failed, owner := None, lease := None,
              artifact := Some(db.nextId))
    ensures
      && db.nextId in db'.artifacts && db'.artifacts[db.nextId].content == content
      && db'.artifacts[db.nextId].node == n && !db'.artifacts[db.nextId].accepted
  {
    hide Next, Logged;
  }

  /** Recovery takes exactly the nodes whose lease is over; a live lease is spared. */
  lemma {:induction false} RecoveryEffect(db: Tables, now: int, db': Tables, n: Id)
    requires RecoveredAll(db, now, db') && n in db.rows
    ensures n in db'.rows && db'.rows[n] == if Over(db, n, now) then Taken(db.rows[n], Uncertain) else db.rows[n]
    ensures Live(db, n, now) ==> db'.rows[n] == db.rows[n]
  {}

  /** Cancellation takes exactly the READY, RUNNING and AWAITING_VALIDATION nodes; of the others only waiting ones
      change, and only to SKIPPED. */
  lemma {:induction false} CancellationEffect(g: WorkflowGraph, db: Tables, db': Tables, n: Id)
    requires Inv(g, db) && CancelledAll(g, db, db') && n in db.rows
    ensures
      var state := db.rows[n].state;
      && n in db'.rows
      && (if state == Ready || state == Running || state == AwaitingValidation
          then db'.rows[n] == Taken(db.rows[n], Cancelled)
          else
            || db'.rows[n] == db.rows[n]
            || (state == Blocked && db'.rows[n] == db.rows[n].(state := Skipped)))
  {
    var st, st' := StatesOf(db.rows), StatesOf(db'.rows);
    StrikeReleasesNone(g, st, st', n);
    assert SettledTo(g, Struck(st, g.Ids()), st', n);
  }

  /** A dependency whose result an executor may read. */
  predicate Accepted(db: Tables, d: Id) {
    && d in db.rows && db.rows[d].state == Succeeded && HasArtifact(db, d)
    && db.artifacts[db.rows[d].artifact.value].accepted
  }

  /** The dependency read succeeds exactly when every dependency has succeeded with an accepted artifact, and then finds
      each dependency's own. */
  lemma {:induction false} DependenciesMean(g: WorkflowGraph, db: Tables, n: Id)
    requires n in g.Ids()
    ensures AcceptedDependencies(g, db, n).Ok? <==> forall d <- g.Deps(n) :: Accepted(db, d)
    ensures AcceptedDependencies(g, db, n).Ok? ==>
      var read := AcceptedDependencies(g, db, n).value;
      && read.Keys == g.Deps(n)
      && forall d <- g.Deps(n) ::
           && Accepted(db, d) && read[d] == db.artifacts[db.rows[d].artifact.value]
           && (Inv(g, db) ==> read[d].node == d)
  {
    if Inv(g, db) {
      forall d <- g.Deps(n) | Accepted(db, d) ensures db.artifacts[db.rows[d].artifact.value].node == d {
        assert RowOk(db, d);
      }
    }
    hide Inv;
  }

  // -------------------------------------------------------------- validation

  /** A validation makes the node SUCCEEDED and its artifact accepted exactly when the judge accepts the artifact's
      content under the policy, and otherwise REJECTED and not accepted. */
  lemma {:induction false} VerdictIsTheJudges(
      g: WorkflowGraph, judge: Judge, db: Tables, n: Id, policy: Policy, db': Tables)
    requires g.Closed() && Validated(g, judge, db, n, policy, db')
    ensures HasArtifact(db, n) && HasArtifact(db', n) && db'.rows[n].artifact == db.rows[n].artifact
    ensures
      var before, after := db.artifacts[db.rows[n].artifact.value], db'.artifacts[db.rows[n].artifact.value];
      var verdict := judge(before.content, policy);
      && db'.rows[n].state == (if verdict then Succeeded else Rejected)
      && after.content == before.content && after.node == before.node && after.accepted == verdict
      && after.validation.Some? && after.validation.value.policy == policy && after.validation.value.accepted == verdict
  {
    hide Next, Logged;
  }

  /** A node is judged once, while it awaits validation; a stored report answers exactly the validations under its own
      policy. */
  lemma {:induction false} JudgedOnce(g: WorkflowGraph, db: Tables, n: Id, policy: Policy)
    requires Inv(g, db) && n in db.rows
    ensures CanValidate(db, n) <==> db.rows[n].state == AwaitingValidation
    ensures CanReplay(db, n, policy) <==>
      && (db.rows[n].state == Succeeded || db.rows[n].state == Rejected) && HasArtifact(db, n)
      && db.artifacts[db.rows[n].artifact.value].validation.Some?
      && db.artifacts[db.rows[n].artifact.value].validation.value.policy == policy
  {
    assert RowOk(db, n);
  }

  /** Every validated artifact carries the judge's verdict on its own content. */
  ghost predicate Honest(judge: Judge, db: Tables, a: nat) {
    a in db.artifacts && db.artifacts[a].validation.Some? ==>
      db.artifacts[a].accepted == judge(db.artifacts[a].content, db.artifacts[a].validation.value.policy)
  }

  lemma {:induction false} StepKeepsHonest(g: WorkflowGraph, judge: Judge, db: Tables, act: Action, db': Tables, a: nat)
    requires g.Closed() && Step(g, judge, db, act, db') && Honest(judge, db, a)
    ensures Honest(judge, db', a)
  {
    hide Moved, IsClosure;
  }

  /** From creation on, over every interleaving, a node has succeeded only on content its judge accepts. */
  lemma {:induction false} VerdictsAreHonest(g: WorkflowGraph, judge: Judge, db: Tables, run: seq<Commit>, n: Id)
    requires Inv(g, db) && db.artifacts == map[] && IsRun(g, judge, db, run) && n in Final(db, run).rows
    ensures
      var end := Final(db, run);
      end.rows[n].state == Succeeded || end.rows[n].state == Rejected ==>
        && HasArtifact(end, n)
        && var artifact := end.artifacts[end.rows[n].artifact.value];
           && artifact.validation.Some?
           && (end.rows[n].state == Succeeded <==> judge(artifact.content, artifact.validation.value.policy))
  {
    RunKeepsInv(g, judge, db, run);
    var end := Final(db, run);
    assert RowOk(end, n);
    if HasArtifact(end, n) { RunKeepsHonest(g, judge, db, run, end.rows[n].artifact.value); }
    hide Inv, IsRun;
  }

  lemma {:induction false} RunKeepsHonest(g: WorkflowGraph, judge: Judge, db: Tables, run: seq<Commit>, a: nat)
    requires g.Closed() && IsRun(g, judge, db, run) && Honest(judge, db, a)
    ensures Honest(judge, Final(db, run), a)
    decreases |run|
  {
    hide Step, Honest;
    if run != [] {
      StepKeepsHonest(g, judge, db, run[0].action, run[0].after, a);
      RunKeepsHonest(g, judge, run[0].after, run[1..], a);
      assert Final(run[0].after, run[1..]) == Final(db, run);
    }
  }
}
