/**
  * Workers running `WorkflowExecutor.execute` (backend/workflows/executor.py) against one store, in any interleaving
  * with each other and with any other calls on the store. A dispatcher may launch several for one workflow.
  */
module Executors {

  import opened Outcomes
  import opened WorkflowTables
  import opened WorkflowRuns

  datatype Progress = Launched | Claimed | Calling | Reported | Finished | Refused

  datatype Payload = Payload(content: Json, succeeded: bool)

  /** `granted`, `called` and `outcome` remember what the worker got to: its claim, the engine call, the recorded
      outcome. */
  datatype Worker = Worker(
    tenant: string, w: nat, owner: string, progress: Progress, fence: nat, granted: bool, called: bool,
    outcome: Option<Payload>)

  datatype Pool = Pool(db: Tables, workers: seq<Worker>)

  /** What a worker reads at its next step: its lease time, a clock, and what the engine produced. */
  datatype Reading = Reading(seconds: int, now: int, payload: Payload)

  datatype Move = Launch(tenant: string, w: nat, owner: string) | Proceed(worker: nat, reading: Reading)
    | Elsewhere(call: Call)

  /** The store call a worker makes next; a worker that ended makes none. */
  function NextCall(x: Worker, r: Reading): Option<Call>
    requires x.progress.Reported? ==> x.outcome.Some?
  {
    match x.progress
    case Launched => Some(Claiming(x.tenant, x.w, x.owner, r.seconds, r.now))
    case Claimed => Some(Dispatching(x.tenant, x.w, x.owner, x.fence, r.now))
    case Calling => Some(Recording(x.tenant, x.w, x.owner, x.fence, r.payload.content, r.payload.succeeded, r.now))
    case Reported =>
      Some(Completing(x.tenant, x.w, x.owner, x.fence, x.outcome.value.content, x.outcome.value.succeeded, r.now))
    case Finished => None
    case Refused => None
  }

  predicate Accepted(db: Tables, call: Call) {
    match call
    case Claiming(tenant, w, owner, seconds, now) => CanClaim(db, tenant, w, owner, seconds)
    case Dispatching(tenant, w, owner, fence, now) => CanDispatch(db, tenant, w, owner, fence, now)
    case Recording(tenant, w, owner, fence, result, succeeded, now) =>
      CanRecord(db, tenant, w, owner, fence, result, succeeded, now)
    case Completing(tenant, w, owner, fence, result, succeeded, now) =>
      CanComplete(db, tenant, w, owner, fence, result, succeeded, now)
    case _ => true
  }

  /** The worker after its call was accepted. */
  function Advanced(x: Worker, r: Reading, db': Tables): Worker {
    match x.progress
    case Launched =>
      x.(progress := Claimed, granted := true, fence := if x.w in db'.rows then db'.rows[x.w].fence else 0)
    case Claimed => x.(progress := Calling, called := true)
    case Calling => x.(progress := Reported, outcome := Some(r.payload))
    case Reported => x.(progress := Finished)
    case _ => x
  }

  function Step(judge: Judge, p: Pool, m: Move): Pool
    requires forall x <- p.workers :: x.progress.Reported? ==> x.outcome.Some?
  {
    match m
    case Launch(tenant, w, owner) =>
      p.(workers := p.workers + [Worker(tenant, w, owner, Launched, 0, false, false, None)])
    case Elsewhere(call) => p.(db := Apply(judge, p.db, call))
    case Proceed(i, r) =>
      if i >= |p.workers| || NextCall(p.workers[i], r).None? then p
      else
        var x, call := p.workers[i], NextCall(p.workers[i], r).value;
        var db' := Apply(judge, p.db, call);
        Pool(db', p.workers[i := if Accepted(p.db, call) then Advanced(x, r, db') else x.(progress := Refused)])
  }

  // -------------------------------------------------------------- invariant

  /** The row has left READY, which it never returns to. */
  predicate Taken(db: Tables, w: nat) { w in db.rows && !db.rows[w].state.Ready? }

  predicate Remembered(db: Tables, w: nat, o: Payload) {
    w in db.dispatches && db.dispatches[w].outcome == Some(OutcomeOf(o.content, o.succeeded))
  }

  ghost predicate WorkerOk(db: Tables, x: Worker) {
    && (x.granted ==> Taken(db, x.w)) && (x.called ==> x.granted)
    && (x.outcome.Some? ==> x.called && Remembered(db, x.w, x.outcome.value))
    && match x.progress
       case Launched => !x.granted
       case Claimed => x.granted
       case Calling => x.called
       case Reported => x.outcome.Some?
       case Finished => x.outcome.Some? && HasArtifact(db, x.w)
       case Refused => true
  }

  ghost predicate PoolOk(p: Pool) {
    && Inv(p.db)
    && (forall x {:trigger WorkerOk(p.db, x)} | x in p.workers :: WorkerOk(p.db, x))
    && forall i, j | 0 <= i < j < |p.workers| && p.workers[i].granted && p.workers[j].granted ::
         p.workers[i].w != p.workers[j].w
  }

  lemma {:induction false} ApplyKeepsOutcome(judge: Judge, db: Tables, call: Call, w: nat, o: Payload)
    requires Remembered(db, w, o)
    ensures Remembered(Apply(judge, db, call), w, o)
  {
    hide CanClaim, ReportFor, PolicyFor, EvidenceOk, OutcomeOf, HasArtifact;
  }

  lemma {:induction false} ApplyKeepsArtifact(judge: Judge, db: Tables, call: Call, w: nat)
    requires Inv(db) && HasArtifact(db, w)
    ensures HasArtifact(Apply(judge, db, call), w)
  {
    hide History, Expected, Ordered, JournalOk, ReportFor, PolicyFor, EvidenceOk, OutcomeOf;
    assert RowOk(db, w);
    assert ArtifactOk(db, db.rows[w].artifact.value);
  }

  lemma {:induction false} ApplyKeepsWorker(judge: Judge, db: Tables, call: Call, x: Worker)
    requires Inv(db) && WorkerOk(db, x)
    ensures WorkerOk(Apply(judge, db, call), x)
  {
    if x.granted { ApplyNeverReadies(judge, db, call, x.w); }
    if x.outcome.Some? { ApplyKeepsOutcome(judge, db, call, x.w, x.outcome.value); }
    if x.progress.Finished? { ApplyKeepsArtifact(judge, db, call, x.w); }
    hide Apply, Taken, Remembered, HasArtifact;
  }

  lemma {:induction false} AcceptedKeepsWorker(judge: Judge, db: Tables, x: Worker, r: Reading)
    requires Inv(db) && WorkerOk(db, x) && NextCall(x, r).Some? && Accepted(db, NextCall(x, r).value)
    ensures var db' := Apply(judge, db, NextCall(x, r).value); WorkerOk(db', Advanced(x, r, db'))
  {
    var call := NextCall(x, r).value;
    ApplyKeepsWorker(judge, db, call, x);
    hide CanClaim, HoldsLease, ReportFor, PolicyFor, EvidenceOk, Inv;
    match x.progress
    case Launched => assert CanClaim(db, x.tenant, x.w, x.owner, r.seconds); ClaimTakes(db, x, r);
    case Claimed => {}
    case Calling => assert Remembered(Apply(judge, db, call), x.w, r.payload);
    case Reported => CompletionHasArtifact(db, x, r);
    case Finished => {}
    case Refused => {}
  }

  lemma {:induction false} ClaimTakes(db: Tables, x: Worker, r: Reading)
    requires CanClaim(db, x.tenant, x.w, x.owner, r.seconds)
    ensures Taken(Claim(db, x.tenant, x.w, x.owner, r.seconds, r.now), x.w)
  {}

  lemma {:induction false} CompletionHasArtifact(db: Tables, x: Worker, r: Reading)
    requires x.outcome.Some?
    requires
      var o := x.outcome.value;
      CanComplete(db, x.tenant, x.w, x.owner, x.fence, o.content, o.succeeded, r.now)
    ensures
      var o := x.outcome.value;
      HasArtifact(Complete(db, x.tenant, x.w, x.owner, x.fence, o.content, o.succeeded, r.now), x.w)
  {}

  lemma {:induction false} StepKeepsPool(judge: Judge, p: Pool, m: Move)
    requires PoolOk(p)
    ensures (forall x <- p.workers :: x.progress.Reported? ==> x.outcome.Some?) && PoolOk(Step(judge, p, m))
  {
    hide Inv, Apply, Accepted, Taken, Remembered, HasArtifact;
    forall x <- p.workers ensures x.progress.Reported? ==> x.outcome.Some? { assert WorkerOk(p.db, x); }
    var p' := Step(judge, p, m);
    match m
    case Launch(_, _, _) =>
      forall x <- p'.workers ensures WorkerOk(p'.db, x) { assert x in p.workers ==> WorkerOk(p.db, x); }
    case Elsewhere(call) =>
      ApplyKeepsInv(judge, p.db, call);
      forall x <- p'.workers ensures WorkerOk(p'.db, x) {
        assert WorkerOk(p.db, x);
        ApplyKeepsWorker(judge, p.db, call, x);
      }
    case Proceed(i, r) =>
      if i < |p.workers| && NextCall(p.workers[i], r).Some? { ProceedKeepsPool(judge, p, i, r); }
  }

  lemma {:induction false} ProceedKeepsPool(judge: Judge, p: Pool, i: nat, r: Reading)
    requires PoolOk(p) && i < |p.workers| && WorkerOk(p.db, p.workers[i]) && NextCall(p.workers[i], r).Some?
    requires forall x <- p.workers :: x.progress.Reported? ==> x.outcome.Some?
    ensures PoolOk(Step(judge, p, Proceed(i, r)))
  {
    hide Inv, Apply, Taken, Remembered, HasArtifact, Accepted;
    var p' := Step(judge, p, Proceed(i, r));
    var x := p.workers[i];
    var call := NextCall(x, r).value;
    ApplyKeepsInv(judge, p.db, call);
    forall k | 0 <= k < |p.workers| ensures WorkerOk(p'.db, p.workers[k]) {
      assert WorkerOk(p.db, p.workers[k]);
      ApplyKeepsWorker(judge, p.db, call, p.workers[k]);
    }
    assert WorkerOk(p'.db, x);
    if Accepted(p.db, call) { AcceptedKeepsWorker(judge, p.db, x, r); }
    forall k | 0 <= k < |p.workers| ensures WorkerOk(p'.db, p'.workers[k]) {}
    forall y <- p'.workers ensures WorkerOk(p'.db, y) {}
    forall k | 0 <= k < |p.workers| && k != i && p'.workers[i].granted && p.workers[k].granted
      ensures p.workers[k].w != x.w
    {
      if !x.granted { ClaimFindsNoOther(p, i, k, r); }
    }
  }

  /** A claim that is granted finds its workflow READY, so nobody else was ever granted one. */
  lemma {:induction false} ClaimFindsNoOther(p: Pool, i: nat, k: nat, r: Reading)
    requires PoolOk(p) && i < |p.workers| && k < |p.workers| && p.workers[k].granted
    requires WorkerOk(p.db, p.workers[i]) && p.workers[i].progress.Launched?
    requires Accepted(p.db, NextCall(p.workers[i], r).value)
    ensures p.workers[k].w != p.workers[i].w
  {
    hide Inv;
    assert WorkerOk(p.db, p.workers[k]);
  }

  // -------------------------------------------------------------- whole runs

  ghost function Play(judge: Judge, moves: seq<Move>): (p: Pool)
    ensures PoolOk(p)
  {
    if moves == [] then EmptyIsOk(); Pool(Empty, [])
    else
      var before := Play(judge, moves[..|moves| - 1]);
      StepKeepsPool(judge, before, moves[|moves| - 1]);
      Step(judge, before, moves[|moves| - 1])
  }

  lemma {:induction false} EmptyIsOk()
    ensures PoolOk(Pool(Empty, []))
  {}

  /** However many workers are launched for a workflow, the engine is called for it at most once. */
  lemma {:induction false} EngineCalledOnce(judge: Judge, moves: seq<Move>, i: nat, j: nat)
    requires i < j < |Play(judge, moves).workers|
    requires Play(judge, moves).workers[i].w == Play(judge, moves).workers[j].w
    ensures
      var workers := Play(judge, moves).workers;
      !(workers[i].granted && workers[j].granted) && !(workers[i].called && workers[j].called)
  {
    var p := Play(judge, moves);
    assert WorkerOk(p.db, p.workers[i]) && WorkerOk(p.db, p.workers[j]);
  }

  /**
    * Once a worker has recorded what the engine produced, that and nothing else becomes the workflow's result,
    * whether the worker itself, recovery or anybody else commits it.
    */
  lemma {:induction false} ReportedPayloadIsTheResult(judge: Judge, moves: seq<Move>, i: nat)
    requires i < |Play(judge, moves).workers| && Play(judge, moves).workers[i].outcome.Some?
    ensures
      var p := Play(judge, moves);
      var x := p.workers[i];
      && x.w in p.db.rows
      && (x.progress.Finished? ==> HasArtifact(p.db, x.w))
      && (HasArtifact(p.db, x.w) ==>
            && p.db.rows[x.w].result == Some(x.outcome.value.content)
            && p.db.artifacts[p.db.rows[x.w].artifact.value].content == x.outcome.value.content
            && (p.db.rows[x.w].state.Failed? <==> !x.outcome.value.succeeded))
  {
    hide Play, History, Expected, Ordered, ArtifactOk;
    var p := Play(judge, moves);
    assert WorkerOk(p.db, p.workers[i]);
    assert RowOk(p.db, p.workers[i].w);
  }

  // ------------------------------------------------------ a worker left alone

  /** A worker that nobody disturbs gets through: if its claim is granted, the engine produces an object and each later
      call comes before the lease ends, four steps end with the payload committed. */
  lemma {:induction false} UndisturbedWorkerFinishes(
      judge: Judge, p: Pool, i: nat, claim: Reading, dispatch: Reading, record: Reading, complete: Reading, until: int)
    requires PoolOk(p) && i < |p.workers| && p.workers[i].progress.Launched? && record.payload.content.Object?
    requires CanClaim(p.db, p.workers[i].tenant, p.workers[i].w, p.workers[i].owner, claim.seconds)
    requires until == claim.now + claim.seconds * 1_000_000
    requires dispatch.now < until && record.now < until && complete.now < until
    ensures StepsFrom(p)
    ensures
      var p1 := Step(judge, p, Proceed(i, claim));
      && StepsFrom(p1)
      && var p2 := Step(judge, p1, Proceed(i, dispatch));
      && StepsFrom(p2)
      && var p3 := Step(judge, p2, Proceed(i, record));
      && StepsFrom(p3)
      && var p4 := Step(judge, p3, Proceed(i, complete));
      && i < |p4.workers| && p4.workers[i].progress == Finished && p4.workers[i].w in p4.db.rows
      && p4.db.rows[p4.workers[i].w].result == Some(record.payload.content)
      && p4.db.rows[p4.workers[i].w].state == if record.payload.succeeded then AwaitingValidation else Failed
  {
    hide Inv, Apply, WorkerOk;
    var x := p.workers[i];
    OutcomesKnown(p);
    var p1 := Step(judge, p, Proceed(i, claim));
    StepKeepsPool(judge, p, Proceed(i, claim));
    OutcomesKnown(p1);
    ClaimLeads(judge, p.db, x, claim, until);
    assert p1.db == Apply(judge, p.db, NextCall(x, claim).value) && p1.workers[i] == Advanced(x, claim, p1.db);
    var x1 := p1.workers[i];
    var p2 := Step(judge, p1, Proceed(i, dispatch));
    StepKeepsPool(judge, p1, Proceed(i, dispatch));
    OutcomesKnown(p2);
    DispatchLeads(judge, p1.db, x1, dispatch, until);
    assert p2.db == Apply(judge, p1.db, NextCall(x1, dispatch).value);
    var x2 := p2.workers[i];
    assert x2 == Advanced(x1, dispatch, p2.db);
    var p3 := Step(judge, p2, Proceed(i, record));
    StepKeepsPool(judge, p2, Proceed(i, record));
    OutcomesKnown(p3);
    RecordLeads(judge, p2.db, x2, record, until);
    var x3 := p3.workers[i];
    assert x3 == Advanced(x2, record, p3.db);
    CompleteLeads(judge, p3.db, x3, complete, until);
  }

  ghost predicate StepsFrom(p: Pool) { forall x <- p.workers :: x.progress.Reported? ==> x.outcome.Some? }

  lemma {:induction false} OutcomesKnown(p: Pool)
    requires PoolOk(p)
    ensures StepsFrom(p)
  {
    forall x <- p.workers ensures x.progress.Reported? ==> x.outcome.Some? { assert WorkerOk(p.db, x); }
  }

  /** The worker holds its workflow until `until`. */
  predicate Holds(db: Tables, x: Worker, until: int) {
    && x.w in db.rows && db.rows[x.w].tenant == x.tenant && db.rows[x.w].state.Running?
    && db.rows[x.w].owner == Some(x.owner) && db.rows[x.w].fence == x.fence && db.rows[x.w].lease == Some(until)
  }

  lemma {:induction false} ClaimLeads(judge: Judge, db: Tables, x: Worker, r: Reading, until: int)
    requires Inv(db) && x.progress.Launched? && CanClaim(db, x.tenant, x.w, x.owner, r.seconds)
    requires until == r.now + r.seconds * 1_000_000
    ensures
      var db' := Apply(judge, db, NextCall(x, r).value);
      Accepted(db, NextCall(x, r).value) && Holds(db', Advanced(x, r, db'), until) && x.w !in db'.dispatches
  {
    assert RowOk(db, x.w);
  }

  lemma {:induction false} DispatchLeads(judge: Judge, db: Tables, x: Worker, r: Reading, until: int)
    requires x.progress.Claimed? && Holds(db, x, until) && x.w !in db.dispatches && r.now < until
    ensures
      var db' := Apply(judge, db, NextCall(x, r).value);
      && Accepted(db, NextCall(x, r).value) && Holds(db', Advanced(x, r, db'), until)
      && x.w in db'.dispatches && db'.dispatches[x.w] == Dispatch(x.tenant, x.fence, None)
  {}

  lemma {:induction false} RecordLeads(judge: Judge, db: Tables, x: Worker, r: Reading, until: int)
    requires x.progress.Calling? && Holds(db, x, until) && r.now < until && r.payload.content.Object?
    requires x.w in db.dispatches && db.dispatches[x.w] == Dispatch(x.tenant, x.fence, None)
    ensures
      var db' := Apply(judge, db, NextCall(x, r).value);
      && Accepted(db, NextCall(x, r).value) && Holds(db', Advanced(x, r, db'), until)
      && x.w in db'.dispatches
      && db'.dispatches[x.w] ==
           Dispatch(x.tenant, x.fence, Some(OutcomeOf(r.payload.content, r.payload.succeeded)))
  {}

  lemma {:induction false} CompleteLeads(judge: Judge, db: Tables, x: Worker, r: Reading, until: int)
    requires x.progress.Reported? && x.outcome.Some? && x.outcome.value.content.Object?
    requires Holds(db, x, until) && r.now < until && x.w in db.dispatches
    requires db.dispatches[x.w] ==
      Dispatch(x.tenant, x.fence, Some(OutcomeOf(x.outcome.value.content, x.outcome.value.succeeded)))
    ensures
      var db' := Apply(judge, db, NextCall(x, r).value);
      && Accepted(db, NextCall(x, r).value) && x.w in db'.rows && db'.rows[x.w].result == Some(x.outcome.value.content)
      && db'.rows[x.w].state == if x.outcome.value.succeeded then AwaitingValidation else Failed
  {}
}
