/**
  * Workers running `GraphNodeExecutor.execute` (backend/workflows/graph_executor.py) over one graph, in any
  * interleaving with each other and with any other store calls. A dispatcher may launch several for one node.
  */
module GraphExecutors {

  import opened Outcomes
  import opened Graphs
  import opened GraphTables
  import opened GraphRuns

  datatype Progress = Launched | Claimed | Calling | Filed | Finished | Refused

  datatype Payload = Payload(content: string, succeeded: bool)

  /** `granted`, `inputs`, `called` and `payload` remember what the worker got to: its claim, the dependency artifacts
      it read, the router call, and what it filed as artifact `artifact`. */
  datatype Worker = Worker(
    node: Id, owner: string, progress: Progress, fence: nat, granted: bool, called: bool,
    inputs: Option<map<Id, Artifact>>, payload: Option<Payload>, artifact: nat)

  datatype Pool = Pool(db: Tables, workers: seq<Worker>)

  /** What a worker reads at its next step: its lease time, a clock, what the router produced, and its policy. */
  datatype Reading = Reading(seconds: int, now: int, payload: Payload, policy: Policy)

  datatype Move = Launch(node: Id, owner: string) | Proceed(worker: nat, reading: Reading) | Elsewhere(action: Action)

  function NewWorker(node: Id, owner: string): Worker {
    Worker(node, owner, Launched, 0, false, false, None, None, 0)
  }

  /** The next step of the executor's program and the tables it leaves. */
  ghost predicate Acts(g: WorkflowGraph, judge: Judge, db: Tables, x: Worker, r: Reading, db': Tables, x': Worker)
    requires g.Closed()
  {
    var n := x.node;
    match x.progress
    case Launched =>
      if CanClaim(db, n, x.owner, r.seconds, r.now) then
        && Step(g, judge, db, Claim(n, x.owner, r.seconds, r.now), db')
        && x' == x.(progress := Claimed, granted := true, fence := db.rows[n].fence + 1)
      else db' == db && x' == x.(progress := Refused)
    case Claimed =>
      var inputs := AcceptedDependencies(g, db, n);
      && db' == db
      && x' == if inputs.Ok? then x.(progress := Calling, called := true, inputs := Some(inputs.value))
               else x.(progress := Refused)
    case Calling =>
      if HoldsLease(db, n, x.owner, x.fence, r.now) then
        && Step(g, judge, db, Complete(n, x.owner, x.fence, r.payload.content, r.payload.succeeded, r.now), db')
        && x' == x.(progress := if r.payload.succeeded then Filed else Finished,
                    payload := Some(r.payload), artifact := db.nextId)
      else db' == db && x' == x.(progress := Refused)
    case Filed =>
      if CanValidate(db, n) then Step(g, judge, db, Validate(n, r.policy), db') && x' == x.(progress := Finished)
      else db' == db && x' == x.(progress := if CanReplay(db, n, r.policy) then Finished else Refused)
    case Finished => db' == db && x' == x
    case Refused => db' == db && x' == x
  }

  ghost predicate PoolStep(g: WorkflowGraph, judge: Judge, p: Pool, m: Move, p': Pool)
    requires g.Closed()
  {
    match m
    case Launch(node, owner) => p' == p.(workers := p.workers + [NewWorker(node, owner)])
    case Elsewhere(action) => Step(g, judge, p.db, action, p'.db) && p'.workers == p.workers
    case Proceed(i, r) =>
      && i < |p.workers| && |p'.workers| == |p.workers| && p'.workers == p.workers[i := p'.workers[i]]
      && Acts(g, judge, p.db, p.workers[i], r, p'.db, p'.workers[i])
  }

  // -------------------------------------------------------------- invariant

  /** The node has been claimed: it is past READY, which it never returns to. */
  ghost predicate Taken(db: Tables, n: Id) { n in db.rows && db.rows[n].state.Scheduled() && !db.rows[n].state.Ready? }

  /** The payload is the node's artifact, and the node's state is one that such a result leads to. */
  ghost predicate FiledAs(db: Tables, n: Id, a: nat, payload: Payload) {
    && n in db.rows && db.rows[n].artifact == Some(a) && a in db.artifacts
    && db.artifacts[a].node == n && db.artifacts[a].content == payload.content
    && var state := db.rows[n].state;
       if payload.succeeded then state.AwaitingValidation? || state.Succeeded? || state.Rejected? || state.Cancelled?
       else state.Failed?
  }

  ghost predicate WorkerOk(g: WorkflowGraph, db: Tables, x: Worker) {
    && (x.granted ==> Taken(db, x.node)) && (x.called ==> x.granted && x.inputs.Some?)
    && (x.inputs.Some? ==> x.granted && AcceptedDependencies(g, db, x.node) == Ok(x.inputs.value))
    && (x.payload.Some? ==> x.called && FiledAs(db, x.node, x.artifact, x.payload.value))
    && match x.progress
       case Launched => !x.granted
       case Claimed => x.granted && !x.called
       case Calling => x.called && x.payload.None?
       case Filed => x.payload.Some? && x.payload.value.succeeded
       case Finished => x.payload.Some?
       case Refused => true
  }

  ghost predicate PoolOk(g: WorkflowGraph, p: Pool) {
    && Inv(g, p.db)
    && (forall x {:trigger WorkerOk(g, p.db, x)} | x in p.workers :: WorkerOk(g, p.db, x))
    && forall i, j | 0 <= i < j < |p.workers| && p.workers[i].granted && p.workers[j].granted ::
         p.workers[i].node != p.workers[j].node
  }

  // -------------------------------------------------------- every step keeps it

  lemma {:induction false} MoveKeepsFiled(
      g: WorkflowGraph, db: Tables, m: Id, row: Row, db': Tables, n: Id, a: nat, p: Payload)
    requires Inv(g, db) && Moved(g, db, m, row, db') && FiledAs(db, n, a, p)
    requires row.artifact == db.rows[m].artifact || db.rows[m].artifact.None?
    requires a in db'.artifacts && db'.artifacts[a].node == n && db'.artifacts[a].content == db.artifacts[a].content
    ensures FiledAs(db', n, a, p)
  {
    hide Logged, IsClosure, Acyclic, ArtifactOk, RowOk;
    if m != n { BystanderRow(g, db, m, row, db', n); }
  }

  lemma {:induction false} StepKeepsFiled(
      g: WorkflowGraph, judge: Judge, db: Tables, act: Action, db': Tables, n: Id, a: nat, p: Payload)
    requires Inv(g, db) && Step(g, judge, db, act, db') && FiledAs(db, n, a, p)
    ensures FiledAs(db', n, a, p)
  {
    hide Moved, IsClosure, Acyclic;
    assert ArtifactOk(db, a);
    match act
    case Bind(_) =>
    case Claim(m, owner, seconds, now) =>
    case Complete(m, owner, fence, content, succeeded, now) =>
      assert RowOk(db, m);
      CompleteKeepsFiled(g, db, m, owner, fence, content, succeeded, now, db', n, a, p);
    case Validate(m, policy) => ValidateKeepsFiled(g, judge, db, m, policy, db', n, a, p);
    case Cancel => CancelKeepsFiled(g, db, db', n, a, p);
    case Recover(_) =>
  }

  lemma {:induction false} CompleteKeepsFiled(
      g: WorkflowGraph, db: Tables, m: Id, owner: string, fence: nat, content: string, succeeded: bool, now: int,
      db': Tables,
      n: Id, a: nat, p: Payload)
    requires Inv(g, db) && Completed(g, db, m, owner, fence, content, succeeded, now, db') && FiledAs(db, n, a, p)
    requires RowOk(db, m) && ArtifactOk(db, a)
    ensures FiledAs(db', n, a, p)
  {
    hide Logged, IsClosure, Acyclic, Next;
    MoveKeepsFiled(g, db, m, db'.rows[m], db', n, a, p);
  }

  lemma {:induction false} ValidateKeepsFiled(
      g: WorkflowGraph, judge: Judge, db: Tables, m: Id, policy: Policy, db': Tables, n: Id, a: nat, p: Payload)
    requires Inv(g, db) && Validated(g, judge, db, m, policy, db') && FiledAs(db, n, a, p)
    ensures FiledAs(db', n, a, p)
  {
    hide Logged, IsClosure, Acyclic, Next;
    MoveKeepsFiled(g, db, m, db'.rows[m], db', n, a, p);
  }

  lemma {:induction false} CancelKeepsFiled(g: WorkflowGraph, db: Tables, db': Tables, n: Id, a: nat, p: Payload)
    requires Inv(g, db) && CancelledAll(g, db, db') && FiledAs(db, n, a, p)
    ensures FiledAs(db', n, a, p)
  {
    CancelEndures(g, db, db', n);
  }

  lemma {:induction false} StepKeepsWorker(
      g: WorkflowGraph, judge: Judge, db: Tables, act: Action, db': Tables, x: Worker)
    requires Inv(g, db) && Step(g, judge, db, act, db') && WorkerOk(g, db, x)
    ensures WorkerOk(g, db', x)
  {
    hide Step, Inv, FiledAs, AcceptedDependencies;
    if x.granted {
      StepEndures(g, judge, db, act, db', x.node);
      StepKeepsInputs(g, judge, db, act, db', x.node);
    }
    if x.payload.Some? { StepKeepsFiled(g, judge, db, act, db', x.node, x.artifact, x.payload.value); }
  }

  lemma {:induction false} OneStepRun(g: WorkflowGraph, judge: Judge, db: Tables, act: Action, db': Tables)
    requires g.Closed() && Step(g, judge, db, act, db')
    ensures IsRun(g, judge, db, [Commit(act, db')]) && Final(db, [Commit(act, db')]) == db'
  {
    hide Step;
    var run := [Commit(act, db')];
    assert run[0] == Commit(act, db') && run[1..] == [];
    assert IsRun(g, judge, db', []);
  }

  lemma {:induction false} StepKeepsInputs(g: WorkflowGraph, judge: Judge, db: Tables, act: Action, db': Tables, n: Id)
    requires Inv(g, db) && Step(g, judge, db, act, db') && Taken(db, n)
    ensures AcceptedDependencies(g, db, n).Ok? && AcceptedDependencies(g, db', n) == AcceptedDependencies(g, db, n)
  {
    assert g.Closed();
    hide Step, Inv, AcceptedDependencies;
    OneStepRun(g, judge, db, act, db');
    ReleasedKeepsDependencies(g, judge, db, n, [Commit(act, db')]);
  }

  /** A worker's own step keeps the invariant of the tables and its own. */
  lemma {:induction false} ActsKeepsWorker(
      g: WorkflowGraph, judge: Judge, db: Tables, x: Worker, r: Reading, db': Tables, x': Worker)
    requires Inv(g, db) && WorkerOk(g, db, x) && Acts(g, judge, db, x, r, db', x')
    ensures Inv(g, db') && WorkerOk(g, db', x')
  {
    hide Inv, FiledAs, AcceptedDependencies, Step, CanClaim, HoldsLease, CanValidate, CanReplay, Taken;
    match x.progress
    case Launched =>
      if CanClaim(db, x.node, x.owner, r.seconds, r.now) { ClaimingKeepsWorker(g, judge, db, x, r, db', x'); }
    case Claimed => {}
    case Calling =>
      if HoldsLease(db, x.node, x.owner, x.fence, r.now) { FilingKeepsWorker(g, judge, db, x, r, db', x'); }
    case Filed =>
      if CanValidate(db, x.node) {
        StepKeepsInv(g, judge, db, Validate(x.node, r.policy), db');
        StepKeepsWorker(g, judge, db, Validate(x.node, r.policy), db', x);
      }
    case Finished => {}
    case Refused => {}
  }

  lemma {:induction false} ClaimingKeepsWorker(
      g: WorkflowGraph, judge: Judge, db: Tables, x: Worker, r: Reading, db': Tables, x': Worker)
    requires Inv(g, db) && WorkerOk(g, db, x) && Acts(g, judge, db, x, r, db', x')
    requires x.progress.Launched? && CanClaim(db, x.node, x.owner, r.seconds, r.now)
    ensures Inv(g, db') && WorkerOk(g, db', x')
  {
    StepKeepsInv(g, judge, db, Claim(x.node, x.owner, r.seconds, r.now), db');
    hide Inv, AcceptedDependencies, FiledAs;
  }

  function Filing(x: Worker, r: Reading): Action {
    Complete(x.node, x.owner, x.fence, r.payload.content, r.payload.succeeded, r.now)
  }

  lemma {:induction false} FilingMeans(
      g: WorkflowGraph, judge: Judge, db: Tables, x: Worker, r: Reading, db': Tables, x': Worker)
    requires g.Closed() && Acts(g, judge, db, x, r, db', x')
    requires x.progress.Calling? && HoldsLease(db, x.node, x.owner, x.fence, r.now)
    ensures Step(g, judge, db, Filing(x, r), db')
    ensures x' == x.(progress := if r.payload.succeeded then Progress.Filed else Finished,
                     payload := Some(r.payload), artifact := db.nextId)
  {
    hide Step, HoldsLease;
  }

  lemma {:induction false} FilingKeepsWorker(
      g: WorkflowGraph, judge: Judge, db: Tables, x: Worker, r: Reading, db': Tables, x': Worker)
    requires Inv(g, db) && WorkerOk(g, db, x) && Acts(g, judge, db, x, r, db', x')
    requires x.progress.Calling? && HoldsLease(db, x.node, x.owner, x.fence, r.now)
    ensures Inv(g, db') && WorkerOk(g, db', x')
  {
    hide Inv, FiledAs, AcceptedDependencies, Step, HoldsLease, Acts, Taken;
    InvCloses(g, db);
    FilingMeans(g, judge, db, x, r, db', x');
    FilingFiles(g, judge, db, x.node, x.owner, x.fence, r.payload, r.now, db');
    StepKeepsInv(g, judge, db, Filing(x, r), db');
    FiledIsTaken(db', x.node, db.nextId, r.payload);
    StepKeepsInputs(g, judge, db, Filing(x, r), db', x.node);
  }

  lemma {:induction false} InvCloses(g: WorkflowGraph, db: Tables)
    requires Inv(g, db)
    ensures g.Closed()
  {}

  lemma {:induction false} FiledIsTaken(db: Tables, n: Id, a: nat, p: Payload)
    requires FiledAs(db, n, a, p)
    ensures Taken(db, n)
  {}

  lemma {:induction false} FilingFiles(
      g: WorkflowGraph, judge: Judge, db: Tables, n: Id, owner: string, fence: nat, p: Payload, now: int, db': Tables)
    requires g.Closed() && Step(g, judge, db, Complete(n, owner, fence, p.content, p.succeeded, now), db')
    ensures FiledAs(db', n, db.nextId, p)
  {
    hide Next, Logged;
  }

  /** A claim that is granted finds its node READY, so nobody else was ever granted one. */
  lemma {:induction false} ClaimFindsNoOther(g: WorkflowGraph, p: Pool, i: nat, k: nat, seconds: int, now: int)
    requires PoolOk(g, p) && i < |p.workers| && k < |p.workers| && p.workers[k].granted
    requires CanClaim(p.db, p.workers[i].node, p.workers[i].owner, seconds, now)
    ensures p.workers[k].node != p.workers[i].node
  {
    hide Inv;
    assert WorkerOk(g, p.db, p.workers[k]);
  }

  /** A worker's step grants a claim only where nobody else has one. */
  lemma {:induction false} GrantsStayApart(
      g: WorkflowGraph, judge: Judge, p: Pool, i: nat, r: Reading, p': Pool, k: nat)
    requires PoolOk(g, p) && g.Closed() && PoolStep(g, judge, p, Proceed(i, r), p')
    requires k < |p.workers| && k != i && p'.workers[i].granted && p.workers[k].granted
    ensures p.workers[k].node != p.workers[i].node
  {
    hide Inv, Step, AcceptedDependencies, CanClaim, HoldsLease, CanValidate, CanReplay;
    if !p.workers[i].granted { ClaimFindsNoOther(g, p, i, k, r.seconds, r.now); }
  }

  lemma {:induction false} ActsKeepsNode(
      g: WorkflowGraph, judge: Judge, db: Tables, x: Worker, r: Reading, db': Tables, x': Worker)
    requires g.Closed() && Acts(g, judge, db, x, r, db', x')
    ensures x'.node == x.node
  {
    hide Step, AcceptedDependencies, CanClaim, HoldsLease, CanValidate, CanReplay;
  }

  lemma {:induction false} ProceedKeepsPool(g: WorkflowGraph, judge: Judge, p: Pool, i: nat, r: Reading, p': Pool)
    requires PoolOk(g, p) && g.Closed() && PoolStep(g, judge, p, Proceed(i, r), p')
    ensures PoolOk(g, p')
  {
    hide Inv, WorkerOk, Acts;
    var x := p.workers[i];
    assert WorkerOk(g, p.db, x);
    ActsKeepsWorker(g, judge, p.db, x, r, p'.db, p'.workers[i]);
    ActsKeepsNode(g, judge, p.db, x, r, p'.db, p'.workers[i]);
    forall k | 0 <= k < |p'.workers| ensures WorkerOk(g, p'.db, p'.workers[k]) {
      assert WorkerOk(g, p.db, p.workers[k]);
      if k != i { OthersKept(g, judge, p.db, x, r, p'.db, p'.workers[i], p.workers[k]); }
    }
    forall y <- p'.workers ensures WorkerOk(g, p'.db, y) {
      var k :| 0 <= k < |p'.workers| && p'.workers[k] == y;
    }
    forall k | 0 <= k < |p.workers| && k != i && p'.workers[i].granted && p.workers[k].granted
      ensures p.workers[k].node != p'.workers[i].node
    {
      GrantsStayApart(g, judge, p, i, r, p', k);
    }
  }

  lemma {:induction false} OthersKept(
      g: WorkflowGraph, judge: Judge, db: Tables, x: Worker, r: Reading, db': Tables, x': Worker, y: Worker)
    requires Inv(g, db) && Acts(g, judge, db, x, r, db', x') && WorkerOk(g, db, y)
    ensures WorkerOk(g, db', y)
  {
    assert g.Closed();
    hide WorkerOk, Inv, AcceptedDependencies;
    if db' != db {
      var act :| Step(g, judge, db, act, db');
      StepKeepsWorker(g, judge, db, act, db', y);
    }
  }

  lemma {:induction false} StepKeepsPool(g: WorkflowGraph, judge: Judge, p: Pool, m: Move, p': Pool)
    requires PoolOk(g, p) && g.Closed() && PoolStep(g, judge, p, m, p')
    ensures PoolOk(g, p')
  {
    match m
    case Launch(_, _) =>
      hide Inv;
      forall x <- p'.workers ensures WorkerOk(g, p'.db, x) { assert x in p.workers ==> WorkerOk(g, p.db, x); }
    case Elsewhere(action) =>
      StepKeepsInv(g, judge, p.db, action, p'.db);
      forall x <- p'.workers ensures WorkerOk(g, p'.db, x) {
        assert WorkerOk(g, p.db, x);
        StepKeepsWorker(g, judge, p.db, action, p'.db, x);
      }
    case Proceed(i, r) => ProceedKeepsPool(g, judge, p, i, r, p');
  }

  // -------------------------------------------------------------- whole runs

  datatype Turn = Turn(move: Move, after: Pool)

  ghost predicate IsPlay(g: WorkflowGraph, judge: Judge, p: Pool, play: seq<Turn>)
    requires g.Closed()
    decreases |play|
  {
    play != [] ==> PoolStep(g, judge, p, play[0].move, play[0].after) && IsPlay(g, judge, play[0].after, play[1..])
  }

  function Last(p: Pool, play: seq<Turn>): Pool { if play == [] then p else play[|play| - 1].after }

  lemma {:induction false} PlayKeepsPool(g: WorkflowGraph, judge: Judge, p: Pool, play: seq<Turn>)
    requires PoolOk(g, p) && g.Closed() && IsPlay(g, judge, p, play)
    ensures PoolOk(g, Last(p, play))
    decreases |play|
  {
    hide PoolOk, PoolStep;
    if play != [] {
      StepKeepsPool(g, judge, p, play[0].move, play[0].after);
      PlayKeepsPool(g, judge, play[0].after, play[1..]);
      assert Last(play[0].after, play[1..]) == Last(p, play);
    }
  }

  lemma {:induction false} NobodyYet(g: WorkflowGraph, db: Tables)
    requires Inv(g, db)
    ensures PoolOk(g, Pool(db, []))
  {}

  /** However many workers are launched for a node, the router is called for it at most once. */
  lemma {:induction false} RouterCalledOnce(g: WorkflowGraph, judge: Judge, db: Tables, play: seq<Turn>, i: nat, j: nat)
    requires Inv(g, db) && IsPlay(g, judge, Pool(db, []), play)
    requires i < j < |Last(Pool(db, []), play).workers|
    requires Last(Pool(db, []), play).workers[i].node == Last(Pool(db, []), play).workers[j].node
    ensures
      var workers := Last(Pool(db, []), play).workers;
      !(workers[i].granted && workers[j].granted) && !(workers[i].called && workers[j].called)
  {
    NobodyYet(g, db);
    PlayKeepsPool(g, judge, Pool(db, []), play);
    var p := Last(Pool(db, []), play);
    hide Inv, IsPlay;
    assert WorkerOk(g, p.db, p.workers[i]) && WorkerOk(g, p.db, p.workers[j]);
  }

  /**
    * A worker whose claim was granted always finds its dependencies, and what it read is still what they hold; what it
    * filed is the node's artifact for good, whatever is cancelled or recovered meanwhile.
    */
  lemma {:induction false} FiledPayloadIsTheArtifact(
      g: WorkflowGraph, judge: Judge, db: Tables, play: seq<Turn>, i: nat)
    requires Inv(g, db) && IsPlay(g, judge, Pool(db, []), play) && i < |Last(Pool(db, []), play).workers|
    ensures
      var p := Last(Pool(db, []), play);
      var x := p.workers[i];
      && (x.granted ==>
            && AcceptedDependencies(g, p.db, x.node).Ok?
            && AcceptedDependencies(g, p.db, x.node).value.Keys == g.Deps(x.node))
      && (x.called ==> x.inputs.Some? && AcceptedDependencies(g, p.db, x.node) == Ok(x.inputs.value))
      && (x.payload.Some? ==> FiledAs(p.db, x.node, x.artifact, x.payload.value))
      && (x.payload.Some? && p.db.rows[x.node].state.Succeeded? ==>
            && x.payload.value.succeeded
            && p.db.artifacts[x.artifact].accepted)
  {
    NobodyYet(g, db);
    PlayKeepsPool(g, judge, Pool(db, []), play);
    var p := Last(Pool(db, []), play);
    var x := p.workers[i];
    assert WorkerOk(g, p.db, x);
    hide IsPlay;
    if x.granted { ReleasedFindsDependencies(g, p.db, x.node); }
    if x.payload.Some? { assert RowOk(p.db, x.node); }
  }

  // ------------------------------------------------------ a worker left alone

  /** A worker that nobody disturbs gets through: if its claim is granted and it files before its lease ends, its four
      steps end with the payload filed and judged. */
  lemma {:induction false} UndisturbedWorkerFinishes(
      g: WorkflowGraph, judge: Judge, p: Pool, i: nat, claim: Reading, p1: Pool, read: Reading, p2: Pool,
      file: Reading, p3: Pool, verdict: Reading, p4: Pool)
    requires PoolOk(g, p) && g.Closed() && i < |p.workers| && p.workers[i].progress.Launched?
    requires CanClaim(p.db, p.workers[i].node, p.workers[i].owner, claim.seconds, claim.now)
    requires file.now < claim.now + claim.seconds * 1_000_000
    requires PoolStep(g, judge, p, Proceed(i, claim), p1) && PoolStep(g, judge, p1, Proceed(i, read), p2)
    requires PoolStep(g, judge, p2, Proceed(i, file), p3) && PoolStep(g, judge, p3, Proceed(i, verdict), p4)
    ensures
      var n, payload := p.workers[i].node, file.payload;
      && p4.workers[i].progress == Finished && p4.workers[i].payload == Some(payload)
      && n in p4.db.rows && HasArtifact(p4.db, n)
      && p4.db.artifacts[p4.db.rows[n].artifact.value].content == payload.content
      && p4.db.rows[n].state ==
           if !payload.succeeded then Failed
           else if judge(payload.content, verdict.policy) then Succeeded else Rejected
  {
    StepKeepsPool(g, judge, p, Proceed(i, claim), p1);
    StepKeepsPool(g, judge, p1, Proceed(i, read), p2);
    StepKeepsPool(g, judge, p2, Proceed(i, file), p3);
    var x, x1, x2, x3 := p.workers[i], p1.workers[i], p2.workers[i], p3.workers[i];
    assert WorkerOk(g, p1.db, x1);
    hide Inv, Acts, WorkerOk, HoldsLease, Holds;
    var until := claim.now + claim.seconds * 1_000_000;
    ClaimLeads(g, judge, p.db, x, claim, p1.db, x1, until);
    ReadLeads(g, judge, p1.db, x1, read, p2.db, x2, until);
    FileLeads(g, judge, p2.db, x2, file, p3.db, x3, until);
    VerdictLeads(g, judge, p3.db, x3, verdict, p4.db, p4.workers[i]);
  }

  /** The worker holds its node until `until`. */
  predicate Holds(db: Tables, x: Worker, until: int) {
    && x.node in db.rows && db.rows[x.node].state.Running? && db.rows[x.node].owner == Some(x.owner)
    && db.rows[x.node].fence == x.fence && db.rows[x.node].lease == Some(until)
  }

  lemma {:induction false} ClaimLeads(
      g: WorkflowGraph, judge: Judge, db: Tables, x: Worker, r: Reading, db': Tables, x': Worker, until: int)
    requires g.Closed() && x.progress.Launched? && CanClaim(db, x.node, x.owner, r.seconds, r.now)
    requires Acts(g, judge, db, x, r, db', x') && until == r.now + r.seconds * 1_000_000
    ensures x'.progress.Claimed? && x'.node == x.node && Holds(db', x', until)
  {}

  lemma {:induction false} ReadLeads(
      g: WorkflowGraph, judge: Judge, db: Tables, x: Worker, r: Reading, db': Tables, x': Worker, until: int)
    requires Inv(g, db) && x.progress.Claimed? && Holds(db, x, until) && Acts(g, judge, db, x, r, db', x')
    ensures x'.progress.Calling? && x'.node == x.node && Holds(db', x', until) && db' == db
  {
    ReleasedFindsDependencies(g, db, x.node);
    hide AcceptedDependencies, Inv;
  }

  lemma {:induction false} FileLeads(
      g: WorkflowGraph, judge: Judge, db: Tables, x: Worker, r: Reading, db': Tables, x': Worker, until: int)
    requires g.Closed() && x.progress.Calling? && Holds(db, x, until) && r.now < until
    requires Acts(g, judge, db, x, r, db', x')
    ensures x'.payload == Some(r.payload) && x'.node == x.node && FiledNow(db', x')
  {
    hide Next, Logged;
  }

  /** The worker's payload is filed and not judged yet, or it failed. */
  ghost predicate FiledNow(db: Tables, x: Worker) {
    && x.payload.Some? && HasArtifact(db, x.node)
    && db.artifacts[db.rows[x.node].artifact.value].content == x.payload.value.content
    && (if x.payload.value.succeeded
        then x.progress.Filed? && CanValidate(db, x.node)
        else x.progress.Finished? && db.rows[x.node].state.Failed?)
  }

  lemma {:induction false} VerdictLeads(
      g: WorkflowGraph, judge: Judge, db: Tables, x: Worker, r: Reading, db': Tables, x': Worker)
    requires g.Closed() && FiledNow(db, x) && Acts(g, judge, db, x, r, db', x')
    ensures
      && x'.progress == Finished && x'.payload == x.payload && HasArtifact(db', x.node)
      && db'.artifacts[db'.rows[x.node].artifact.value].content == x.payload.value.content
      && db'.rows[x.node].state ==
           if !x.payload.value.succeeded then Failed
           else if judge(x.payload.value.content, r.policy) then Succeeded else Rejected
  {
    hide Next, Logged;
  }
}
