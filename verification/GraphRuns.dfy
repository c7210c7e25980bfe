/** What holds of a workflow graph over every interleaving of store calls. */
module GraphRuns {

  import opened Outcomes
  import opened Graphs
  import opened GraphTables

  /** One committed call and the tables it left. */
  datatype Commit = Commit(action: Action, after: Tables)

  /** Any interleaving of executors, a canceller and recovery: the calls that committed, in order. */
  ghost predicate IsRun(g: WorkflowGraph, judge: Judge, db: Tables, run: seq<Commit>)
    requires g.Closed()
    decreases |run|
  {
    run != [] ==> Step(g, judge, db, run[0].action, run[0].after) && IsRun(g, judge, run[0].after, run[1..])
  }

  function Final(db: Tables, run: seq<Commit>): Tables { if run == [] then db else run[|run| - 1].after }

  /** Every interleaving keeps the invariant. */
  lemma {:induction false} RunKeepsInv(g: WorkflowGraph, judge: Judge, db: Tables, run: seq<Commit>)
    requires Inv(g, db) && IsRun(g, judge, db, run)
    ensures Inv(g, Final(db, run))
    decreases |run|
  {
    hide Inv, Step;
    if run != [] {
      StepKeepsInv(g, judge, db, run[0].action, run[0].after);
      RunKeepsInv(g, judge, run[0].after, run[1..]);
      assert Final(run[0].after, run[1..]) == Final(db, run);
    }
  }

  /** What no later call can take back. */
  ghost predicate Endures(db: Tables, db': Tables, n: Id)
    requires n in db.rows && n in db'.rows
  {
    && (db.rows[n].state.Scheduled() ==> db'.rows[n].state.Scheduled())
    && (db.rows[n].state.Scheduled() && !db.rows[n].state.Ready? ==> !db'.rows[n].state.Ready?)
    && (db.rows[n].state.Terminal() ==> db'.rows[n] == db.rows[n])
    && (db.rows[n].state.Succeeded? && HasArtifact(db, n) ==>
          && HasArtifact(db', n)
          && db'.artifacts[db.rows[n].artifact.value] == db.artifacts[db.rows[n].artifact.value])
  }

  lemma {:induction false} BystanderEndures(db: Tables, db': Tables, m: Id)
    requires m in db.rows && m in db'.rows && RowOk(db, m)
    requires db'.rows[m] == db.rows[m] ||
             (db.rows[m].state.Blocked?
                 && (db'.rows[m] == db.rows[m].(state := Ready) || db'.rows[m] == db.rows[m].(state := Skipped)))
    requires forall a <- db.artifacts | db.artifacts[a].node == m ::
              && a in db'.artifacts
              && db'.artifacts[a] == db.artifacts[a]
    ensures Endures(db, db', m)
  {}

  lemma {:induction false} MoveEndures(g: WorkflowGraph, db: Tables, n: Id, row: Row, db': Tables, m: Id)
    requires Inv(g, db) && Moved(g, db, n, row, db') && m in db.rows
    requires forall a <- db.artifacts | db.artifacts[a].node != n ::
              && a in db'.artifacts
              && db'.artifacts[a] == db.artifacts[a]
    ensures Endures(db, db', m)
  {
    hide Logged, IsClosure, Acyclic, ArtifactOk;
    if m != n {
      assert RowOk(db, m);
      BystanderRow(g, db, n, row, db', m);
      BystanderEndures(db, db', m);
    } else {
      assert Allowed(db.rows[n].state, row.state);
    }
  }

  lemma {:induction false} CompleteEndures(
      g: WorkflowGraph, db: Tables, m: Id, owner: string, fence: nat, content: string, succeeded: bool, now: int,
      db': Tables, n: Id)
    requires Inv(g, db) && Completed(g, db, m, owner, fence, content, succeeded, now, db') && n in db.rows
    ensures n in db'.rows && Endures(db, db', n)
  {
    forall x <- db.artifacts ensures x < db.nextId { assert ArtifactOk(db, x); }
    MoveEndures(g, db, m, db'.rows[m], db', n);
  }

  lemma {:induction false} ValidateEndures(
      g: WorkflowGraph, judge: Judge, db: Tables, m: Id, policy: Policy, db': Tables, n: Id)
    requires Inv(g, db) && Validated(g, judge, db, m, policy, db') && n in db.rows
    ensures n in db'.rows && Endures(db, db', n)
  {
    assert RowOk(db, m);
    MoveEndures(g, db, m, db'.rows[m], db', n);
  }

  lemma {:induction false} CancelEndures(g: WorkflowGraph, db: Tables, db': Tables, n: Id)
    requires g.Closed() && CancelledAll(g, db, db') && n in db.rows
    ensures Endures(db, db', n)
  {
    assert SettledTo(g, Struck(StatesOf(db.rows), g.Ids()), StatesOf(db'.rows), n);
  }

  lemma {:induction false} StepEndures(g: WorkflowGraph, judge: Judge, db: Tables, a: Action, db': Tables, n: Id)
    requires Inv(g, db) && Step(g, judge, db, a, db') && n in db.rows
    ensures n in db'.rows && Endures(db, db', n)
  {
    match a
    case Bind(_) =>
    case Claim(m, owner, seconds, now) =>
      ClaimIsTransition(g, db, m, owner, seconds, now, db');
      MoveEndures(g, db, m, db'.rows[m], db', n);
    case Complete(m, owner, fence, content, succeeded, now) =>
      CompleteEndures(g, db, m, owner, fence, content, succeeded, now, db', n);
    case Validate(m, policy) => ValidateEndures(g, judge, db, m, policy, db', n);
    case Cancel => CancelEndures(g, db, db', n);
    case Recover(_) =>
  }

  /** Over any run the invariant holds, and what a node has reached stays reached. */
  lemma {:induction false} RunEndures(g: WorkflowGraph, judge: Judge, db: Tables, run: seq<Commit>, n: Id)
    requires Inv(g, db) && IsRun(g, judge, db, run) && n in db.rows
    ensures Inv(g, Final(db, run)) && n in Final(db, run).rows && Endures(db, Final(db, run), n)
    decreases |run|
  {
    hide Inv, Step;
    if run != [] {
      var next := run[0].after;
      StepKeepsInv(g, judge, db, run[0].action, next);
      StepEndures(g, judge, db, run[0].action, next, n);
      RunEndures(g, judge, next, run[1..], n);
      assert Final(next, run[1..]) == Final(db, run);
    }
  }

  /** A node has succeeded exactly when it owns an accepted artifact, and it never owns two. */
  lemma {:induction false} SucceededOwnsAccepted(g: WorkflowGraph, db: Tables, n: Id)
    requires Inv(g, db) && n in db.rows
    ensures db.rows[n].state.Succeeded? <==> exists a <- db.artifacts ::
              && db.artifacts[a].node == n
              && db.artifacts[a].accepted
    ensures forall a <- db.artifacts, b <- db.artifacts | db.artifacts[a].node == n && db.artifacts[b].node == n ::
              a == b
  {
    assert RowOk(db, n);
    forall a <- db.artifacts | db.artifacts[a].node == n ensures db.rows[n].artifact == Some(a) {
      assert ArtifactOk(db, a);
    }
  }

  // ---------------------------------------------------- what an executor reads

  /** `accepted_dependency_artifacts`: refused unless every dependency succeeded with an accepted artifact. */
  function AcceptedDependencies(g: WorkflowGraph, db: Tables, n: Id): Result<map<Id, Artifact>> {
    if n !in g.Ids() || exists d <- g.Deps(n) :: d !in db.rows || !db.rows[d].state.Succeeded? then Err(Conflict)
    else if exists d <- g.Deps(n) :: !HasArtifact(db, d) || !db.artifacts[db.rows[d].artifact.value].accepted
    then Err(Conflict)
    else Ok(map d | d in g.Deps(n) :: db.artifacts[db.rows[d].artifact.value])
  }

  lemma {:induction false} ReleasedFindsDependencies(g: WorkflowGraph, db: Tables, n: Id)
    requires Inv(g, db) && n in db.rows && db.rows[n].state.Scheduled()
    ensures AcceptedDependencies(g, db, n).Ok?
    ensures forall d <- g.Deps(n) :: d in db.rows && db.rows[d].state.Succeeded? && HasArtifact(db, d)
  {
    assert NodeOk(g, StatesOf(db.rows), n);
    forall d <- g.Deps(n) ensures d in db.rows && db.rows[d].state.Succeeded? && RowOk(db, d) {
      assert StatesOf(db.rows)[d].Succeeded?;
    }
  }

  /** A released node reads the same accepted artifact of every dependency, now and after any run. */
  lemma {:induction false} ReleasedKeepsDependencies(
      g: WorkflowGraph, judge: Judge, db: Tables, n: Id, run: seq<Commit>)
    requires Inv(g, db) && n in db.rows && db.rows[n].state.Scheduled() && IsRun(g, judge, db, run)
    ensures AcceptedDependencies(g, db, n).Ok?
    ensures AcceptedDependencies(g, Final(db, run), n) == AcceptedDependencies(g, db, n)
  {
    ReleasedFindsDependencies(g, db, n);
    RunEndures(g, judge, db, run, n);
    ReleasedFindsDependencies(g, Final(db, run), n);
    var first, last := AcceptedDependencies(g, db, n).value, AcceptedDependencies(g, Final(db, run), n).value;
    forall d <- g.Deps(n) ensures first[d] == last[d] { RunEndures(g, judge, db, run, d); }
    assert first == last;
  }

  /** Whatever runs after a claim, the claimant finds an accepted artifact for each dependency. */
  lemma {:induction false} ClaimantFindsDependencies(
      g: WorkflowGraph, judge: Judge, db: Tables, n: Id, owner: string, seconds: int, now: int, claimed: Tables,
      run: seq<Commit>)
    requires Inv(g, db) && Claimed(db, n, owner, seconds, now, claimed) && IsRun(g, judge, claimed, run)
    ensures AcceptedDependencies(g, claimed, n).Ok? && AcceptedDependencies(g, claimed, n).value.Keys == g.Deps(n)
    ensures AcceptedDependencies(g, Final(claimed, run), n) == AcceptedDependencies(g, claimed, n)
  {
    ClaimKeepsInv(g, db, n, owner, seconds, now, claimed);
    ReleasedKeepsDependencies(g, judge, claimed, n, run);
  }

  /** A node is claimed at most once: after a claim no later one is granted, whatever runs in between. */
  lemma {:induction false} NodeClaimedOnce(
      g: WorkflowGraph, judge: Judge, db: Tables, n: Id, owner: string, seconds: int, now: int, claimed: Tables,
      run: seq<Commit>,
      other: string, otherSeconds: int, later: int)
    requires Inv(g, db) && Claimed(db, n, owner, seconds, now, claimed) && IsRun(g, judge, claimed, run)
    ensures !CanClaim(Final(claimed, run), n, other, otherSeconds, later)
  {
    ClaimKeepsInv(g, db, n, owner, seconds, now, claimed);
    RunEndures(g, judge, claimed, run, n);
  }

  /** When the result gate opens, every sink has its accepted artifact and report. */
  lemma {:induction false} ResultsHaveEvidence(g: WorkflowGraph, db: Tables)
    requires Inv(g, db) && ResultGate(g, StatesOf(db.rows))
    ensures forall n <- Sinks(g) :: exists a <- db.artifacts ::
              db.artifacts[a].node == n && db.artifacts[a].accepted && db.artifacts[a].validation.Some?
  {
    forall n <- Sinks(g)
      ensures exists a <- db.artifacts ::
                && db.artifacts[a].node == n && db.artifacts[a].accepted
                && db.artifacts[a].validation.Some?
    {
      assert StatesOf(db.rows)[n].Succeeded? && RowOk(db, n);
    }
  }

  // ------------------------------------------------------------ cancellation

  /** Cancelling releases no waiting node: it stays or is skipped. */
  lemma {:induction false} StrikeReleasesNone(g: WorkflowGraph, st: States, st': States, n: Id)
    requires g.Closed() && Valid(g, st) && n in g.Ids()
    requires IsClosure(g, Struck(st, g.Ids()), st')
    ensures !Strikable(st'[n]) && (st'[n].Uncertain? ==> st[n].Uncertain?)
  {
    assert SettledTo(g, Struck(st, g.Ids()), st', n);
    if st[n].Blocked? {
      assert NodeOk(g, st, n);
      var d :| d in g.Deps(n) && !st[d].Succeeded?;
      assert SettledTo(g, Struck(st, g.Ids()), st', d);
    }
  }

  /** Finished, uncertain, or waiting behind an uncertain ancestor. */
  ghost predicate Stopped(g: WorkflowGraph, st: States, n: Id)
    requires g.Ids() == st.Keys && n in st
  {
    st[n].Terminal() || st[n].Uncertain?
        || (st[n].Blocked? && exists a <- g.Ids() :: st[a].Uncertain? && Ancestor(g, a, n))
  }

  lemma {:induction false} StruckNodeStopped(g: WorkflowGraph, st: States, st': States, n: Id)
    requires WellFormed(g) && Valid(g, st) && Valid(g, st') && n in g.Ids()
    requires IsClosure(g, Struck(st, g.Ids()), st')
    ensures Stopped(g, st', n)
    ensures !st'[n].Terminal() ==> exists a <- g.Ids() :: st[a].Uncertain?
  {
    StrikeReleasesNone(g, st, st', n);
    if !st'[n].Terminal() {
      var r :| IsRank(g, r);
      var a := UnfinishedHasActive(g, r, st', n);
      StrikeReleasesNone(g, st, st', a);
    }
  }

  /** After `cancel_graph` every node is stopped, all are terminal if none was uncertain, and no lease survives. */
  lemma {:induction false} CancelOutcome(g: WorkflowGraph, db: Tables, db': Tables)
    requires Inv(g, db) && CancelledAll(g, db, db')
    ensures forall n <- g.Ids() :: Stopped(g, StatesOf(db'.rows), n)
    ensures (forall n <- db.rows :: !db.rows[n].state.Uncertain?) ==> AllTerminal(StatesOf(db'.rows))
    ensures forall n, owner, fence, now :: !HoldsLease(db', n, owner, fence, now)
  {
    CancelKeepsInv(g, db, db');
    var st, st' := StatesOf(db.rows), StatesOf(db'.rows);
    forall n <- g.Ids() ensures Stopped(g, st', n) && (!st'[n].Terminal() ==> exists a <- g.Ids() :: st[a].Uncertain?) {
      StruckNodeStopped(g, st, st', n);
    }
    forall n, owner, fence, now ensures !HoldsLease(db', n, owner, fence, now) {
      if n in db'.rows { StrikeReleasesNone(g, st, st', n); assert db'.rows[n].state == st'[n]; }
    }
  }

  /** Every lease holder at the moment of cancellation is refused by completion ever after. */
  lemma {:induction false} CancelledHolderRefused(
      g: WorkflowGraph, judge: Judge, db: Tables, db': Tables, run: seq<Commit>, n: Id, owner: string, fence: nat,
      now: int, later: int)
    requires Inv(g, db) && HoldsLease(db, n, owner, fence, now)
    requires CancelledAll(g, db, db') && IsRun(g, judge, db', run)
    ensures !HoldsLease(Final(db', run), n, owner, fence, later)
    ensures n in Final(db', run).rows && Final(db', run).rows[n].state.Cancelled?
  {
    CancelKeepsInv(g, db, db');
    RunEndures(g, judge, db', run, n);
  }

  /** Nothing is left that could run: no node is ready, running or awaiting validation. */
  ghost predicate Halted(db: Tables) { forall n <- db.rows :: !Strikable(db.rows[n].state) }

  /** A halted graph stays halted: no step starts from such a state except binding, cancelling and recovering
      nothing. */
  lemma {:induction false} StepKeepsHalted(g: WorkflowGraph, judge: Judge, db: Tables, a: Action, db': Tables)
    requires Inv(g, db) && Halted(db) && Step(g, judge, db, a, db')
    ensures Halted(db')
  {
    hide RowOk, ArtifactOk, Moved;
    if a.Cancel? {
      forall n <- db'.rows ensures !Strikable(db'.rows[n].state) {
        StrikeReleasesNone(g, StatesOf(db.rows), StatesOf(db'.rows), n);
        assert StatesOf(db'.rows)[n] == db'.rows[n].state;
      }
    }
  }

  lemma {:induction false} RunKeepsHalted(g: WorkflowGraph, judge: Judge, db: Tables, run: seq<Commit>)
    requires Inv(g, db) && Halted(db) && IsRun(g, judge, db, run)
    ensures Halted(Final(db, run))
    decreases |run|
  {
    hide Inv, Step, Halted;
    if run != [] {
      StepKeepsInv(g, judge, db, run[0].action, run[0].after);
      StepKeepsHalted(g, judge, db, run[0].action, run[0].after);
      RunKeepsHalted(g, judge, run[0].after, run[1..]);
      assert Final(run[0].after, run[1..]) == Final(db, run);
    }
  }

  /** After cancellation and any later run nothing can be claimed, no lease is held, and nothing can be validated. */
  lemma {:induction false} CancelledForGood(g: WorkflowGraph, judge: Judge, db: Tables, db': Tables, run: seq<Commit>)
    requires Inv(g, db) && CancelledAll(g, db, db') && IsRun(g, judge, db', run)
    ensures
      var end := Final(db', run);
      && (forall n, owner, fence, later :: !HoldsLease(end, n, owner, fence, later))
      && (forall n, owner, seconds, later :: !CanClaim(end, n, owner, seconds, later))
      && (forall n :: !CanValidate(end, n))
  {
    CancelKeepsInv(g, db, db');
    forall n <- db'.rows ensures !Strikable(db'.rows[n].state) {
      StrikeReleasesNone(g, StatesOf(db.rows), StatesOf(db'.rows), n);
      assert StatesOf(db'.rows)[n] == db'.rows[n].state;
    }
    RunKeepsHalted(g, judge, db', run);
  }
}
