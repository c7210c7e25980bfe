/** What the calls on a single-task workflow mean for its row, with the columns written out. */
module WorkflowEffects {

  import opened Outcomes
  import opened WorkflowTables
  import opened WorkflowRuns
  import opened Recovery
  import Timestamps

  // ------------------------------------------------------------------ leases

  /** A claim is granted exactly for a READY row of the tenant, a well-formed owner and one second to one hour. It gives
      the row to that owner under the next fence until the lease is over: nobody else, under no other fence and at no
      later instant, is let through. */
  lemma {:induction false} ClaimGrantsLease(
      db: Tables, tenant: string, w: nat, owner: string, seconds: int, now: int,
      caller: string, name: string, fence: nat, later: int)
    ensures
      CanClaim(db, tenant, w, owner, seconds) <==>
        && w in db.rows && db.rows[w].tenant == tenant && db.rows[w].state == Ready
        && Identifier(owner) && 1 <= seconds <= 3600
    ensures !CanClaim(db, tenant, w, owner, seconds) ==> Claim(db, tenant, w, owner, seconds, now) == db
    ensures CanClaim(db, tenant, w, owner, seconds) ==>
      var claimed := Claim(db, tenant, w, owner, seconds, now);
      && claimed.rows == db.rows[w := db.rows[w].(
           state := Running, fence := db.rows[w].fence + 1,
           owner := Some(owner), lease := Some(now + seconds * 1_000_000))]
      && (HoldsLease(claimed, caller, w, name, fence, later) <==>
            && caller == tenant && name == owner && fence == db.rows[w].fence + 1
            && later < now + seconds * 1_000_000)
  {}

  /** A row's lease is live: it runs, and its lease ends after `now`. */
  predicate Live(db: Tables, w: nat, now: int) {
    w in db.rows && db.rows[w].state == Running && db.rows[w].lease.Some? && now < db.rows[w].lease.value
  }

  /** A row's lease is over: it runs, and its lease has ended by `now`. */
  predicate Over(db: Tables, w: nat, now: int) {
    w in db.rows && db.rows[w].state == Running && db.rows[w].lease.Some? && db.rows[w].lease.value <= now
  }

  /** A row taken from its holder. */
  function Taken(row: Row, state: State): Row {
    row.(state := state, fence := row.fence + 1, owner := None, lease := None)
  }

  /** The holder of a row is let through exactly while the lease is live. */
  lemma {:induction false} HolderWhileLive(db: Tables, w: nat, tenant: string, owner: string, fence: nat, now: int)
    ensures HoldsLease(db, tenant, w, owner, fence, now) <==>
      && Live(db, w, now)
      && db.rows[w].tenant == tenant && db.rows[w].owner == Some(owner) && db.rows[w].fence == fence
  {}

  /** The instants of the lease column stand for the stored texts: a running row's lease is live exactly when the check
      on its text accepts it, and over exactly when recovery's comparison of texts selects it. */
  lemma {:induction false} LeaseTextDecides(db: Tables, w: nat, lease: Timestamps.DateTime, now: Timestamps.DateTime)
    requires Timestamps.Valid(lease) && Timestamps.Valid(now)
    requires w in db.rows && db.rows[w].state == Running && db.rows[w].lease == Some(Timestamps.Instant(lease))
    ensures Live(db, w, Timestamps.Instant(now)) <==> Timestamps.LeaseAccepted(Timestamps.Iso(lease), now)
    ensures Over(db, w, Timestamps.Instant(now)) <==> Timestamps.SelectedByRecovery(Timestamps.Iso(lease), now)
  {
    Timestamps.TextTestsAreTimeTests(lease, now);
    hide Timestamps.Instant, Timestamps.Iso, Timestamps.LeaseAccepted, Timestamps.SelectedByRecovery;
  }

  lemma {:induction false} SelectedMeans(db: Tables, tenant: string, now: int, w: nat)
    requires Ordered(db)
    ensures w in ExpiredOf(db, tenant, now) <==> Over(db, w, now) && db.rows[w].tenant == tenant
    ensures w in Candidates(db, now) <==> Over(db, w, now) || (w in db.rows && db.rows[w].state == Uncertain)
  {}

  /** Recovery for a tenant takes exactly the rows whose lease is over; every other row stays as it is. */
  lemma {:induction false} RecoverExpiredEffect(db: Tables, tenant: string, now: int, w: nat)
    requires Ordered(db) && w in db.rows
    ensures
      var after := RecoverExpired(db, tenant, now);
      && w in after.rows && after.dispatches == db.dispatches
      && after.rows[w] ==
           if Over(db, w, now) && db.rows[w].tenant == tenant then Taken(db.rows[w], Uncertain) else db.rows[w]
  {
    ExpireAllEffect(db, ExpiredOf(db, tenant, now), now);
    assert ExpiredAt(db, All(ExpiredOf(db, tenant, now)), now, RecoverExpired(db, tenant, now), w);
    SelectedMeans(db, tenant, now, w);
  }

  /** A row with a live lease survives recovery untouched and unreported, per tenant and at startup. */
  lemma {:induction false} LiveLeaseSpared(db: Tables, tenant: string, limit: int, now: int, w: nat)
    requires Inv(db) && Live(db, w, now)
    ensures
      var after := RecoverExpired(db, tenant, now);
      w !in ExpiredOf(db, tenant, now) && w in after.rows && after.rows[w] == db.rows[w]
    ensures
      var (r, after) := Startup(db, limit, now);
      && w in after.rows && after.rows[w] == db.rows[w]
      && (r.Ok? ==>
            && w !in r.value.expired
            && (forall x <- r.value.reconciled :: x.workflow != w)
            && (forall x <- r.value.unresolved :: x.workflow != w))
  {
    SelectedMeans(db, tenant, now, w);
    RecoverExpiredEffect(db, tenant, now, w);
    if 1 <= limit <= 100_000 && |Candidates(db, now)| <= limit {
      StartupFrame(db, limit, now, w);
      StartupReportIsTrue(db, limit, now);
    }
  }

  /** What startup does to a row: nothing, unless it is uncertain or its lease is over. */
  lemma {:induction false} StartupFrame(db: Tables, limit: int, now: int, w: nat)
    requires Inv(db) && 1 <= limit <= 100_000 && |Candidates(db, now)| <= limit
    requires w in db.rows && w !in Candidates(db, now)
    ensures w in Startup(db, limit, now).1.rows && Startup(db, limit, now).1.rows[w] == db.rows[w]
  {
    var fenced := FencedCandidates(db, now);
    StartupExpires(db, now);
    assert ExpiredAt(db, All(db.order), now, fenced, w);
    ExpireAllKeepsInv(db, Select(Candidates(db, now), RunningIn(db)), now);
    SettleReports(Settlement(fenced, [], []), Candidates(db, now));
    assert SameRow(fenced, SettleAll(Settlement(fenced, [], []), Candidates(db, now)).db, w);
  }

  /** A row whose lease is over is fenced by recovery, listed as expired, and its holder refused from then on. */
  lemma {:induction false} OverdueLeaseTaken(db: Tables, limit: int, now: int, w: nat)
    requires Inv(db) && Over(db, w, now)
    ensures
      var after := RecoverExpired(db, db.rows[w].tenant, now);
      w in ExpiredOf(db, db.rows[w].tenant, now) && w in after.rows && after.rows[w] == Taken(db.rows[w], Uncertain)
    ensures
      var (r, after) := Startup(db, limit, now);
      r.Ok? ==>
        && w in r.value.expired && w in after.rows && after.rows[w].state != Running
        && after.rows[w].fence == db.rows[w].fence + 1 && after.rows[w].owner == None
  {
    SelectedMeans(db, db.rows[w].tenant, now, w);
    RecoverExpiredEffect(db, db.rows[w].tenant, now, w);
    if 1 <= limit <= 100_000 && |Candidates(db, now)| <= limit {
      StartupTakes(db, now, w);
      StartupUnfolds(db, limit, now);
    }
  }

  lemma {:induction false} StartupTakes(db: Tables, now: int, w: nat)
    requires Ordered(db) && Over(db, w, now)
    ensures
      var after := ReconcileEach(FencedCandidates(db, now), Candidates(db, now));
      && w in after.rows && after.rows[w].state != Running
      && after.rows[w].fence == db.rows[w].fence + 1 && after.rows[w].owner == None
  {
    hide FencedCandidates, Candidates, ReconcileEach;
    var fenced := FencedCandidates(db, now);
    StartupExpires(db, now);
    assert ExpiredAt(db, All(db.order), now, fenced, w);
    assert fenced.rows[w] == Taken(db.rows[w], Uncertain);
    ReconcilingKeepsFence(fenced, Candidates(db, now), w);
  }

  lemma {:induction false} ReconcilingKeepsFence(db: Tables, ids: seq<nat>, w: nat)
    requires w in db.rows && db.rows[w].state != Running && db.rows[w].owner == None
    ensures
      var after := ReconcileEach(db, ids);
      && w in after.rows && after.rows[w].state != Running
      && after.rows[w].fence == db.rows[w].fence && after.rows[w].owner == None
    decreases |ids|
  {
    hide EvidenceOk;
    if ids != [] { ReconcilingKeepsFence(Reconcile(db, ids[0]), ids[1..], w); }
  }

  // --------------------------------------------------------------- execution

  /** The journal row the tenant sees for a workflow. */
  predicate Journaled(db: Tables, tenant: string, w: nat) { w in db.dispatches && db.dispatches[w].tenant == tenant }

  /** A dispatch is granted exactly to a live holder whose workflow has no journal row, and opens one under its
      fence. */
  lemma {:induction false} DispatchEffect(db: Tables, tenant: string, w: nat, owner: string, fence: nat, now: int)
    ensures CanDispatch(db, tenant, w, owner, fence, now) <==>
              HoldsLease(db, tenant, w, owner, fence, now) && w !in db.dispatches
    ensures
      var after := BeginDispatch(db, tenant, w, owner, fence, now);
      && after.(dispatches := db.dispatches, log := db.log) == db
      && after.dispatches ==
           if CanDispatch(db, tenant, w, owner, fence, now) then db.dispatches[w := Dispatch(tenant, fence, None)]
           else db.dispatches
  {}

  /** An outcome is recorded once: a live holder that dispatched under its fence may record a JSON object, and from then
      on only the very same object and verdict are accepted again. */
  lemma {:induction false} RecordEffect(
      db: Tables, tenant: string, w: nat, owner: string, fence: nat, result: Json, succeeded: bool, now: int)
    ensures CanRecord(db, tenant, w, owner, fence, result, succeeded, now) <==>
      && HoldsLease(db, tenant, w, owner, fence, now) && result.Object?
      && Journaled(db, tenant, w) && db.dispatches[w].fence == fence
      && (db.dispatches[w].outcome == None
          || db.dispatches[w].outcome == Some(Outcome(result, Sha256(result), if succeeded then 1 else 0)))
    ensures
      var after := RecordOutcome(db, tenant, w, owner, fence, result, succeeded, now);
      && after.(dispatches := db.dispatches, log := db.log) == db
      && after.dispatches ==
           if CanRecord(db, tenant, w, owner, fence, result, succeeded, now)
           then db.dispatches[w := db.dispatches[w].(
             outcome := Some(Outcome(result, Sha256(result), if succeeded then 1 else 0)))]
           else db.dispatches
  {
    if CanRecord(db, tenant, w, owner, fence, result, succeeded, now) && db.dispatches[w].outcome.Some? {
      assert db.dispatches[w := db.dispatches[w]] == db.dispatches;
    }
  }

  /** A row whose result is committed: it awaits validation exactly when the result is a success. */
  function Settled(row: Row, content: Json, succeeded: bool, artifact: nat): Row {
    row.(state := if succeeded then AwaitingValidation else Failed, owner := None, lease := None,
         result := Some(content), artifact := Some(artifact))
  }

  /** The result of workflow `w` is committed as a new artifact, and nothing else but the log changes. */
  predicate Commits(db: Tables, w: nat, content: Json, succeeded: bool, after: Tables) {
    && w in db.rows
    && after.(rows := db.rows, artifacts := db.artifacts, log := db.log, nextId := db.nextId) == db
    && after.rows == db.rows[w := Settled(db.rows[w], content, succeeded, db.nextId)]
    && after.artifacts == db.artifacts[db.nextId := Artifact(w, db.rows[w].tenant, content, Sha256(content))]
  }

  /** A completion is granted exactly to a live holder with a JSON object that is the recorded outcome, if the workflow
      was dispatched at all. */
  lemma {:induction false} CompleteEffect(
      db: Tables, tenant: string, w: nat, owner: string, fence: nat, result: Json, succeeded: bool, now: int)
    ensures CanComplete(db, tenant, w, owner, fence, result, succeeded, now) <==>
      && HoldsLease(db, tenant, w, owner, fence, now) && result.Object?
      && (Journaled(db, tenant, w) ==>
            && db.dispatches[w].fence == fence
            && db.dispatches[w].outcome == Some(Outcome(result, Sha256(result), if succeeded then 1 else 0)))
    ensures
      var after := Complete(db, tenant, w, owner, fence, result, succeeded, now);
      if CanComplete(db, tenant, w, owner, fence, result, succeeded, now)
      then Commits(db, w, result, succeeded, after) else after == db
  {}

  /** Evidence is trusted exactly when it was recorded for the tenant one fence ago, as an object under its own digest
      with a verdict of zero or one. */
  lemma {:induction false} EvidenceCondition(db: Tables, w: nat)
    ensures Reconcilable(db, w) <==>
      && w in db.rows && db.rows[w].state == Uncertain
      && Journaled(db, db.rows[w].tenant, w) && db.dispatches[w].fence == db.rows[w].fence - 1
      && match db.dispatches[w].outcome {
           case None => false
           case Some(o) => o.encoded.Object? && o.digest == Sha256(o.encoded) && o.flag in {0, 1}
         }
  {}

  /** Reconciliation commits the recorded outcome of an uncertain workflow with its recorded verdict; without one, or in
      another state, nothing changes. */
  lemma {:induction false} ReconcileEffect(db: Tables, w: nat, content: Json, succeeded: bool)
    requires Inv(db)
    ensures
      var recorded := w in db.dispatches
        && db.dispatches[w].outcome == Some(Outcome(content, Sha256(content), if succeeded then 1 else 0));
      w in db.rows && db.rows[w].state == Uncertain && recorded ==> Commits(db, w, content, succeeded, Reconcile(db, w))
    ensures
      w !in db.rows || db.rows[w].state != Uncertain || w !in db.dispatches || db.dispatches[w].outcome == None ==>
        Reconcile(db, w) == db
  {
    if w in db.rows {
      assert RowOk(db, w);
      if db.rows[w].state.Uncertain? && HasEvidence(db, w) { EvidenceNeverFails(db, w); }
    }
  }

  // ------------------------------------------------------------ cancellation

  /** Cancelling takes a READY, RUNNING or AWAITING_VALIDATION row of the tenant from whoever has it, and nothing
      else. */
  lemma {:induction false} CancelEffect(db: Tables, tenant: string, w: nat)
    ensures
      var live := w in db.rows && db.rows[w].tenant == tenant &&
        (db.rows[w].state == Ready || db.rows[w].state == Running || db.rows[w].state == AwaitingValidation);
      Cancel(db, tenant, w).rows == if live then db.rows[w := Taken(db.rows[w], Cancelled)] else db.rows
    ensures Cancel(db, tenant, w).(rows := db.rows, log := db.log) == db
  {}

  // -------------------------------------------------------------- validation

  /** The policy in force: the one bound to the workflow, and otherwise the one the call names; a call that names
      another than the bound one has none. */
  predicate InForce(row: Row, policy: Option<string>, used: string) {
    if row.request.binding.Some? then row.request.binding == Some(used) && (policy == None || policy == Some(used))
    else policy == Some(used)
  }

  /** A granted validation makes the workflow SUCCEEDED exactly when the judge accepts its stored content under the
      policy in force, and REJECTED otherwise; without a policy in force, or in any other state, nothing changes. */
  lemma {:induction false} VerdictIsTheJudges(judge: Judge, db: Tables, tenant: string, w: nat, policy: Option<string>)
    requires Inv(db) && w in db.rows && db.rows[w].tenant == tenant && db.rows[w].state == AwaitingValidation
    ensures HasArtifact(db, w)
    ensures
      var content := db.artifacts[db.rows[w].artifact.value].content;
      var after := Validate(judge, db, tenant, w, policy);
      && (forall used | InForce(db.rows[w], policy, used) ::
            && after.rows == db.rows[w := db.rows[w].(state := if judge(content, used) then Succeeded else Rejected)]
            && w in after.reports && after.reports[w].policy == used
            && after.reports[w].accepted == judge(content, used))
      && ((forall used :: !InForce(db.rows[w], policy, used)) ==> after == db)
  {
    assert RowOk(db, w);
    hide Inv, JournalOk, History, Expected;
    var row := db.rows[w];
    var named := if policy.Some? then policy.value else "";
    var used := if row.request.binding.Some? then row.request.binding.value else named;
    assert (exists u :: InForce(row, policy, u)) ==> InForce(row, policy, used);
    assert InForce(row, policy, used) ==> PolicyFor(row, policy) == Some(used);
    assert PolicyFor(row, policy).Some? ==> InForce(row, policy, PolicyFor(row, policy).value);
  }

  lemma {:induction false} OnlyAwaitingIsJudged(
      judge: Judge, db: Tables, tenant: string, w: nat, policy: Option<string>)
    requires w !in db.rows || db.rows[w].tenant != tenant || db.rows[w].state != AwaitingValidation
    ensures Validate(judge, db, tenant, w, policy) == db
  {}

  /** A stored report answers exactly the validations under its own policy. */
  lemma {:induction false} ReplayCondition(db: Tables, tenant: string, w: nat, policy: Option<string>)
    ensures CanReplay(db, tenant, w, policy) <==>
      && w in db.rows && db.rows[w].tenant == tenant && w in db.reports
      && InForce(db.rows[w], policy, db.reports[w].policy)
  {}

  /** Every stored report says what the judge says of the stored content under the report's policy, which is the bound
      policy where there is one. */
  ghost predicate Honest(judge: Judge, db: Tables, w: nat) {
    w in db.reports ==>
      && HasArtifact(db, w)
      && db.reports[w].accepted == judge(db.artifacts[db.rows[w].artifact.value].content, db.reports[w].policy)
      && (db.rows[w].request.binding.Some? ==> db.rows[w].request.binding == Some(db.reports[w].policy))
  }

  lemma {:induction false} ApplyKeepsHonest(judge: Judge, db: Tables, call: Call, w: nat)
    requires Inv(db) && Honest(judge, db, w)
    ensures Honest(judge, Apply(judge, db, call), w)
  {
    hide History, Expected, Ordered, Keyed, JournalOk, EvidenceOk, OutcomeOf;
    if w in db.rows { assert RowOk(db, w); }
    if HasArtifact(db, w) { assert ArtifactOk(db, db.rows[w].artifact.value); }
  }

  /** Over every interleaving from an empty store a workflow has succeeded only on content its judge accepts, and been
      rejected only on content its judge refuses. */
  lemma {:induction false} VerdictsAreHonest(judge: Judge, calls: seq<Call>, w: nat)
    ensures
      var db := Run(judge, Empty, calls);
      && Honest(judge, db, w)
      && (w in db.rows && (db.rows[w].state == Succeeded || db.rows[w].state == Rejected) ==>
            && w in db.reports && HasArtifact(db, w)
            && (db.rows[w].state == Succeeded <==>
                  judge(db.artifacts[db.rows[w].artifact.value].content, db.reports[w].policy)))
  {
    RunKeepsHonest(judge, Empty, calls, w);
    var db := Run(judge, Empty, calls);
    if w in db.rows { assert RowOk(db, w); }
    hide History, Expected, Run;
  }

  lemma {:induction false} RunKeepsHonest(judge: Judge, db: Tables, calls: seq<Call>, w: nat)
    requires Inv(db) && Honest(judge, db, w)
    ensures Inv(Run(judge, db, calls)) && Honest(judge, Run(judge, db, calls), w)
    decreases |calls|
  {
    hide Inv, Honest, Apply;
    if calls != [] {
      ApplyKeepsInv(judge, db, calls[0]);
      ApplyKeepsHonest(judge, db, calls[0], w);
      RunKeepsHonest(judge, Apply(judge, db, calls[0]), calls[1..], w);
    }
  }
}
