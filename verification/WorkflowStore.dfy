/** The single-task half of backend/workflows/store.py: every public method is one transaction. */
module WorkflowStore {

  import opened Outcomes
  import opened WorkflowTables
  import opened WorkflowRuns
  import opened Recovery

  class Store {
    const judge: Judge
    var order: seq<nat>
    var rows: map<nat, Row>
    var dispatches: map<nat, Dispatch>
    var artifacts: map<nat, Artifact>
    var reports: map<nat, Report>
    var log: seq<Event>
    var nextId: nat

    function Db(): Tables
      reads this
    {
      Tables(order, rows, dispatches, artifacts, reports, log, nextId)
    }

    ghost predicate Valid()
      reads this
    {
      Inv(Db())
    }

    constructor (judge: Judge)
      ensures this.judge == judge && Db() == Empty && Valid()
    {
      this.judge := judge;
      order, rows, dispatches, artifacts, reports, log, nextId := [], map[], map[], map[], map[], [], 0;
    }

    method CreateWorkflow(tenant: string, key: string, request: Request) returns (r: Result<nat>)
      requires Valid()
      modifies this
      ensures Valid()
      ensures (r, Db()) == Create(old(Db()), tenant, key, request)
      ensures r.Ok? ==> r.value in rows && IdentityOf(rows[r.value]) == Identity(tenant, key, request)
      ensures r == Err(InvalidInput) <==> !Identifier(tenant) || !Identifier(key)
      ensures r == Err(Conflict) <==> Identifier(tenant) && Identifier(key) && KeyTaken(old(Db()), tenant, key, request)
    {
      CreateMeans(Db(), tenant, key, request);
      hide Inv, Existing;
      CreateKeepsInv(Db(), tenant, key, request);
      if !Identifier(tenant) || !Identifier(key) { return Err(InvalidInput); }
      var existing := Existing(order, rows, tenant, key);
      if existing.Some? {
        var w := existing.value;
        return if w in rows && rows[w].request == request then Ok(w) else Err(Conflict);
      }
      var w := nextId;
      nextId := nextId + 1;
      rows := rows[w := Row(tenant, key, request, Ready, 0, None, None, None, None)];
      order := order + [w];
      log := log + [Event(w, Entered(Ready), 0)];
      return Ok(w);
    }

    method ClaimWorkflow(tenant: string, w: nat, owner: string, seconds: int, now: int) returns (r: Result<nat>)
      requires Valid()
      modifies this
      ensures Valid() && Db() == Claim(old(Db()), tenant, w, owner, seconds, now)
      ensures r.Ok? <==> CanClaim(old(Db()), tenant, w, owner, seconds)
      ensures r.Ok? ==> r.value == rows[w].fence
    {
      ClaimKeepsInv(Db(), tenant, w, owner, seconds, now);
      if !Identifier(owner) || !(1 <= seconds <= 3600) { return Err(InvalidInput); }
      if w !in rows || rows[w].tenant != tenant || !rows[w].state.Ready? { return Err(Conflict); }
      var fence := rows[w].fence + 1;
      var lease := now + seconds * SECOND;
      rows := rows[w := rows[w].(state := Running, fence := fence, owner := Some(owner), lease := Some(lease))];
      log := log + [Event(w, Entered(Running), fence)];
      return Ok(fence);
    }

    method LeaseHeld(tenant: string, w: nat, owner: string, fence: nat, now: int) returns (held: bool)
      ensures held == HoldsLease(Db(), tenant, w, owner, fence, now)
    {
      held := w in rows && rows[w].tenant == tenant && rows[w].state.Running? && rows[w].owner == Some(owner)
        && rows[w].fence == fence && rows[w].lease.Some? && now < rows[w].lease.value;
    }

    method Dispatch(tenant: string, w: nat, owner: string, fence: nat, now: int) returns (ok: bool)
      requires Valid()
      modifies this
      ensures Valid() && Db() == BeginDispatch(old(Db()), tenant, w, owner, fence, now)
      ensures ok <==> CanDispatch(old(Db()), tenant, w, owner, fence, now)
    {
      DispatchKeepsInv(Db(), tenant, w, owner, fence, now);
      var held := LeaseHeld(tenant, w, owner, fence, now);
      if !held || w in dispatches { return false; }
      dispatches := dispatches[w := WorkflowTables.Dispatch.Dispatch(tenant, fence, None)];
      log := log + [Event(w, DispatchStarted, fence)];
      return true;
    }

    method Record(tenant: string, w: nat, owner: string, fence: nat, result: Json, succeeded: bool, now: int)
      returns (ok: bool)
      requires Valid()
      modifies this
      ensures Valid() && Db() == RecordOutcome(old(Db()), tenant, w, owner, fence, result, succeeded, now)
      ensures ok <==> CanRecord(old(Db()), tenant, w, owner, fence, result, succeeded, now)
    {
      RecordKeepsInv(Db(), tenant, w, owner, fence, result, succeeded, now);
      var held := LeaseHeld(tenant, w, owner, fence, now);
      if !result.Object? || !held || w !in dispatches { return false; }
      if dispatches[w].tenant != tenant || dispatches[w].fence != fence { return false; }
      var outcome := OutcomeOf(result, succeeded);
      if dispatches[w].outcome.Some? { return dispatches[w].outcome.value == outcome; }
      dispatches := dispatches[w := dispatches[w].(outcome := Some(outcome))];
      log := log + [Event(w, OutcomeRecorded, fence)];
      return true;
    }

    /** `_commit_result`. */
    method Commit(w: nat, content: Json, succeeded: bool)
      requires w in rows
      modifies this
      ensures Db() == CommitResult(old(Db()), w, content, succeeded)
    {
      var state := if succeeded then AwaitingValidation else Failed;
      artifacts := artifacts[nextId := Artifact(w, rows[w].tenant, content, Sha256(content))];
      rows := rows[w := rows[w].(
        state := state, result := Some(content), artifact := Some(nextId), owner := None, lease := None)];
      log := log + [Event(w, Entered(state), rows[w].fence)];
      nextId := nextId + 1;
    }

    method CompleteWorkflow(
        tenant: string, w: nat, owner: string, fence: nat, result: Json, succeeded: bool, now: int)
      returns (ok: bool)
      requires Valid()
      modifies this
      ensures Valid() && Db() == Complete(old(Db()), tenant, w, owner, fence, result, succeeded, now)
      ensures ok <==> CanComplete(old(Db()), tenant, w, owner, fence, result, succeeded, now)
    {
      CompleteKeepsInv(Db(), tenant, w, owner, fence, result, succeeded, now);
      var held := LeaseHeld(tenant, w, owner, fence, now);
      if !result.Object? || !held { return false; }
      if w in dispatches && dispatches[w].tenant == tenant &&
         (dispatches[w].fence != fence || dispatches[w].outcome != Some(OutcomeOf(result, succeeded))) { return false; }
      Commit(w, result, succeeded);
      return true;
    }

    /** `reconcile_uncertain`: the state it reports, or a conflict for evidence it cannot trust. */
    method ReconcileUncertain(tenant: string, w: nat) returns (r: Result<State>)
      requires Valid()
      modifies this
      ensures Valid()
      ensures Db() == if Has(old(Db()), tenant, w) then Reconcile(old(Db()), w) else old(Db())
      ensures r.Ok? <==> Has(old(Db()), tenant, w)
      ensures r.Ok? ==> r.value == rows[w].state
    {
      ghost var before := Db();
      if w !in rows || rows[w].tenant != tenant { return Err(Conflict); }
      ReconcileKeepsInv(before, w);
      if !rows[w].state.Uncertain? { return Ok(rows[w].state); }
      if w !in dispatches || dispatches[w].tenant != tenant || dispatches[w].outcome.None? { return Ok(Uncertain); }
      EvidenceNeverFails(before, w);
      var outcome := dispatches[w].outcome.value;
      Commit(w, outcome.encoded, outcome.flag == 1);
      return Ok(rows[w].state);
    }

    /** `validate`: replay the stored report, or judge the artifact once. */
    method ValidateWorkflow(tenant: string, w: nat, policy: Option<string>) returns (r: Result<Report>)
      requires Valid()
      modifies this
      ensures Valid() && Db() == Validate(judge, old(Db()), tenant, w, policy)
      ensures r.Ok? ==>
                && w in reports && r.value == reports[w] && w in rows
                && Some(r.value.policy) == PolicyFor(old(rows)[w], policy)
      ensures r.Ok? <==> CanValidate(old(Db()), tenant, w, policy) || CanReplay(old(Db()), tenant, w, policy)
      ensures CanReplay(old(Db()), tenant, w, policy) ==> r == Ok(old(reports)[w]) && Db() == old(Db())
    {
      ghost var before := Db();
      ReportMatches(before, w);
      ValidateKeepsInv(judge, before, tenant, w, policy);
      if w !in rows || rows[w].tenant != tenant { return Err(Conflict); }
      var snapshot := PolicyFor(rows[w], policy);
      if snapshot.None? { return Err(Conflict); }
      if rows[w].artifact.None? || rows[w].artifact.value !in artifacts { return Err(Conflict); }
      if artifacts[rows[w].artifact.value].workflow != w { return Err(Conflict); }
      var a := rows[w].artifact.value;
      if w in reports {
        var report := reports[w];
        return if report.policy == snapshot.value && report.artifact == a && report.digest == artifacts[a].digest
          then Ok(report) else Err(Conflict);
      }
      if !rows[w].state.AwaitingValidation? { return Err(Conflict); }
      var report := Report(snapshot.value, a, artifacts[a].digest, judge(artifacts[a].content, snapshot.value));
      var state := if report.accepted then Succeeded else Rejected;
      reports := reports[w := report];
      rows := rows[w := rows[w].(state := state)];
      log := log + [Event(w, Entered(state), rows[w].fence)];
      return Ok(report);
    }

    /** The fencing UPDATE shared by cancellation and recovery. */
    method FenceRow(w: nat, state: State)
      requires w in rows
      modifies this`rows, this`log
      ensures Db() == Fence(old(Db()), w, state)
    {
      var fence := rows[w].fence + 1;
      rows := rows[w := rows[w].(state := state, fence := fence, owner := None, lease := None)];
      log := log + [Event(w, Entered(state), fence)];
    }

    method CancelWorkflow(tenant: string, w: nat) returns (ok: bool)
      requires Valid()
      modifies this
      ensures Valid() && Db() == Cancel(old(Db()), tenant, w)
      ensures ok <==> Has(Db(), tenant, w) && rows[w].state.Cancelled?
    {
      CancelKeepsInv(Db(), tenant, w);
      if w !in rows || rows[w].tenant != tenant { return false; }
      if rows[w].state.Cancelled? { return true; }
      if !(rows[w].state.Ready? || rows[w].state.Running? || rows[w].state.AwaitingValidation?) { return false; }
      FenceRow(w, Cancelled);
      return true;
    }

    /** The fencing loop over rows a query returned. */
    method FenceAll(ids: seq<nat>, ghost now: int)
      requires Unique(ids) && forall w <- ids :: Expired(Db(), w, now)
      modifies this`rows, this`log
      ensures Db() == ExpireAll(old(Db()), ids, now)
    {
      ghost var before := Db();
      for i := 0 to |ids|
        invariant ExpireAll(before, ids, now) == ExpireAll(Db(), ids[i..], now)
        invariant forall k | i <= k < |ids| :: Expired(Db(), ids[k], now)
      {
        assert Expired(Db(), ids[i], now) && ids[i..][1..] == ids[i + 1..];
        FenceRow(ids[i], Uncertain);
      }
    }

    method RecoverExpiredRows(tenant: string, now: int) returns (count: nat)
      requires Valid()
      modifies this
      ensures Valid() && Db() == RecoverExpired(old(Db()), tenant, now)
      ensures count == |ExpiredOf(old(Db()), tenant, now)|
    {
      var found := ExpiredOf(Db(), tenant, now);
      SelectUnique(order, ExpiredFor(Db(), tenant, now));
      ExpireAllKeepsInv(Db(), found, now);
      FenceAll(found, now);
      return |found|;
    }

    /** The reconciliation loop of startup recovery. */
    method SettleRows(found: seq<nat>) returns (reconciled: seq<Reconciled>, unresolved: seq<Unresolved>)
      requires forall w <- found :: w in rows
      modifies this
      ensures Settlement(Db(), reconciled, unresolved) == SettleAll(Settlement(old(Db()), [], []), found)
    {
      reconciled, unresolved := [], [];
      ghost var start := Settlement(Db(), [], []);
      for i := 0 to |found|
        invariant SettleAll(start, found) == SettleAll(Settlement(Db(), reconciled, unresolved), found[i..])
        invariant forall w <- found :: w in rows
      {
        var w := found[i];
        assert w in found && found[i..][1..] == found[i + 1..];
        if w !in dispatches || dispatches[w].tenant != rows[w].tenant || dispatches[w].outcome.None? {
          unresolved := unresolved + [Unresolved(w, OutcomeUnknown)];
        } else {
          var outcome := dispatches[w].outcome.value;
          var trusted := dispatches[w].fence + 1 == rows[w].fence && outcome.digest == Sha256(outcome.encoded)
            && (outcome.flag == 0 || outcome.flag == 1) && outcome.encoded.Object?;
          if trusted {
            Commit(w, outcome.encoded, outcome.flag == 1);
            reconciled := reconciled + [Reconciled(w, rows[w].state)];
          } else {
            unresolved := unresolved + [Unresolved(w, InvalidOutcomeEvidence)];
          }
        }
      }
    }

    method RecoverStartup(limit: int, now: int) returns (r: Result<Summary>)
      requires Valid()
      modifies this
      ensures Valid()
      ensures (r, Db()) == Startup(old(Db()), limit, now)
    {
      ghost var before := Db();
      StartupKeepsInv(before, limit, now);
      if !(1 <= limit <= 100_000) { return Err(InvalidInput); }
      var found := Candidates(Db(), now);
      if |found| > limit { return Err(LimitExceeded); }
      var expired := Select(found, RunningIn(Db()));
      SelectUnique(order, CandidateIn(Db(), now));
      SelectUnique(found, RunningIn(Db()));
      forall w <- expired ensures Expired(Db(), w, now) { assert CandidateIn(Db(), now)(w) && RunningIn(Db())(w); }
      StartupExpires(before, now);
      FenceAll(expired, now);
      var reconciled, unresolved := SettleRows(found);
      return Ok(Summary(|found|, expired, reconciled, unresolved));
    }
  }
}
