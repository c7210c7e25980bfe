/** The rows behind single-task workflows, and what each store call does to them. */
module WorkflowTables {

  import opened Outcomes

  datatype State = Ready | Running | AwaitingValidation | Succeeded | Failed | Rejected | Cancelled | Uncertain

  /** Canonical JSON text, and whether it denotes an object. */
  datatype Json = Object(text: string) | Other(text: string)

  /** SHA-256, kept injective by remembering its preimage. */
  datatype Digest = Sha256(preimage: Json)

  /** What an idempotency key stands for; its hash is injective, so the request itself is kept. */
  datatype Request = Request(packet: string, binding: Option<string>)

  datatype Row = Row(
    tenant: string, key: string, request: Request, state: State, fence: nat,
    owner: Option<string>, lease: Option<int>, result: Option<Json>, artifact: Option<nat>)

  datatype Outcome = Outcome(encoded: Json, digest: Digest, flag: int)

  datatype Dispatch = Dispatch(tenant: string, fence: nat, outcome: Option<Outcome>)

  datatype Artifact = Artifact(workflow: nat, tenant: string, content: Json, digest: Digest)

  datatype Report = Report(policy: string, artifact: nat, digest: Digest, accepted: bool)

  datatype Kind = Entered(state: State) | DispatchStarted | OutcomeRecorded

  datatype Event = Event(workflow: nat, kind: Kind, fence: nat)

  /** `order` is the row order; `nextId` feeds workflow and artifact ids alike. */
  datatype Tables = Tables(
    order: seq<nat>, rows: map<nat, Row>, dispatches: map<nat, Dispatch>, artifacts: map<nat, Artifact>,
    reports: map<nat, Report>, log: seq<Event>, nextId: nat)

  type Judge = (Json, string) -> bool

  const SECOND := 1_000_000

  const Empty := Tables([], map[], map[], map[], map[], [], 0)

  function Flag(b: bool): int { if b then 1 else 0 }

  predicate Has(db: Tables, tenant: string, w: nat) { w in db.rows && db.rows[w].tenant == tenant }

  function JournalOf(db: Tables, tenant: string, w: nat): Option<Dispatch> {
    if w in db.dispatches && db.dispatches[w].tenant == tenant then Some(db.dispatches[w]) else None
  }

  /** Write a row and log what happened. */
  function Write(db: Tables, w: nat, row: Row, kind: Kind, fence: nat): Tables {
    db.(rows := db.rows[w := row], log := db.log + [Event(w, kind, fence)])
  }

  // ------------------------------------------------------------------ create

  function Existing(order: seq<nat>, rows: map<nat, Row>, tenant: string, key: string): Option<nat> {
    if order == [] then None
    else if order[0] in rows && rows[order[0]].tenant == tenant && rows[order[0]].key == key then Some(order[0])
    else Existing(order[1..], rows, tenant, key)
  }

  function Create(db: Tables, tenant: string, key: string, request: Request): (Result<nat>, Tables) {
    if !Identifier(tenant) || !Identifier(key) then (Err(InvalidInput), db)
    else match Existing(db.order, db.rows, tenant, key)
      case Some(w) => (if w in db.rows && db.rows[w].request == request then Ok(w) else Err(Conflict), db)
      case None =>
        var w := db.nextId;
        var row := Row(tenant, key, request, Ready, 0, None, None, None, None);
        (Ok(w), Write(db, w, row, Entered(Ready), 0).(order := db.order + [w], nextId := w + 1))
  }

  // --------------------------------------------------------------- execution

  predicate CanClaim(db: Tables, tenant: string, w: nat, owner: string, seconds: int) {
    Identifier(owner) && 1 <= seconds <= 3600 && Has(db, tenant, w) && db.rows[w].state.Ready?
  }

  function Claim(db: Tables, tenant: string, w: nat, owner: string, seconds: int, now: int): Tables {
    if !CanClaim(db, tenant, w, owner, seconds) then db
    else
      var row := db.rows[w];
      var fence, lease := row.fence + 1, Some(now + seconds * SECOND);
      var claimed := row.(state := Running, fence := fence, owner := Some(owner), lease := lease);
      Write(db, w, claimed, Entered(Running), fence)
  }

  /** The call that `_require_lease` lets through. */
  predicate HoldsLease(db: Tables, tenant: string, w: nat, owner: string, fence: nat, now: int) {
    && Has(db, tenant, w) && db.rows[w].state.Running?
    && db.rows[w].owner == Some(owner) && db.rows[w].fence == fence
    && db.rows[w].lease.Some? && now < db.rows[w].lease.value
  }

  predicate CanDispatch(db: Tables, tenant: string, w: nat, owner: string, fence: nat, now: int) {
    HoldsLease(db, tenant, w, owner, fence, now) && w !in db.dispatches
  }

  function BeginDispatch(db: Tables, tenant: string, w: nat, owner: string, fence: nat, now: int): Tables {
    if !CanDispatch(db, tenant, w, owner, fence, now) then db
    else
      db.(dispatches := db.dispatches[w := Dispatch(tenant, fence, None)],
          log := db.log + [Event(w, DispatchStarted, fence)])
  }

  /** The outcome `record_outcome` writes, and later demands back unchanged. */
  function OutcomeOf(result: Json, succeeded: bool): Outcome { Outcome(result, Sha256(result), Flag(succeeded)) }

  predicate CanRecord(
      db: Tables, tenant: string, w: nat, owner: string, fence: nat, result: Json, succeeded: bool, now: int) {
    && result.Object? && HoldsLease(db, tenant, w, owner, fence, now)
    && JournalOf(db, tenant, w).Some? && db.dispatches[w].fence == fence
    && (db.dispatches[w].outcome.None? || db.dispatches[w].outcome == Some(OutcomeOf(result, succeeded)))
  }

  function RecordOutcome(
      db: Tables, tenant: string, w: nat, owner: string, fence: nat, result: Json, succeeded: bool, now: int): Tables {
    if !CanRecord(db, tenant, w, owner, fence, result, succeeded, now) || db.dispatches[w].outcome.Some? then db
    else
      db.(dispatches := db.dispatches[w := db.dispatches[w].(outcome := Some(OutcomeOf(result, succeeded)))],
          log := db.log + [Event(w, OutcomeRecorded, fence)])
  }

  /** `_commit_result`. */
  function CommitResult(db: Tables, w: nat, content: Json, succeeded: bool): Tables
    requires w in db.rows
  {
    var row := db.rows[w];
    var state := if succeeded then AwaitingValidation else Failed;
    var settled :=
      row.(state := state, result := Some(content), artifact := Some(db.nextId), owner := None, lease := None);
    Write(db, w, settled, Entered(state), row.fence)
    .(artifacts := db.artifacts[db.nextId := Artifact(w, row.tenant, content, Sha256(content))],
      nextId := db.nextId + 1)
  }

  predicate CanComplete(
      db: Tables, tenant: string, w: nat, owner: string, fence: nat, result: Json, succeeded: bool, now: int) {
    && result.Object? && HoldsLease(db, tenant, w, owner, fence, now)
    && (JournalOf(db, tenant, w).None? ||
        (db.dispatches[w].fence == fence && db.dispatches[w].outcome == Some(OutcomeOf(result, succeeded))))
  }

  function Complete(
      db: Tables, tenant: string, w: nat, owner: string, fence: nat, result: Json, succeeded: bool, now: int): Tables {
    if CanComplete(db, tenant, w, owner, fence, result, succeeded, now)
    then CommitResult(db, w, result, succeeded) else db
  }

  // -------------------------------------------------------------- validation

  /** The policy a validation uses: the bound one, which an explicit one must match. */
  function PolicyFor(row: Row, policy: Option<string>): Option<string> {
    if row.request.binding.Some? then
      if policy.Some? && policy != row.request.binding then None else row.request.binding
    else policy
  }

  /** The artifact row `get_artifact` finds for the workflow's result. */
  predicate HasArtifact(db: Tables, w: nat) {
    && w in db.rows && db.rows[w].artifact.Some? && db.rows[w].artifact.value in db.artifacts
    && db.artifacts[db.rows[w].artifact.value].workflow == w
  }

  predicate CanValidate(db: Tables, tenant: string, w: nat, policy: Option<string>) {
    && Has(db, tenant, w) && PolicyFor(db.rows[w], policy).Some? && HasArtifact(db, w)
    && w !in db.reports && db.rows[w].state.AwaitingValidation?
  }

  /** A stored report answers a validation under its own policy. */
  predicate CanReplay(db: Tables, tenant: string, w: nat, policy: Option<string>) {
    Has(db, tenant, w) && w in db.reports && PolicyFor(db.rows[w], policy) == Some(db.reports[w].policy)
  }

  function ReportFor(judge: Judge, db: Tables, w: nat, policy: string): Report
    requires HasArtifact(db, w)
  {
    var a := db.rows[w].artifact.value;
    Report(policy, a, db.artifacts[a].digest, judge(db.artifacts[a].content, policy))
  }

  function Validate(judge: Judge, db: Tables, tenant: string, w: nat, policy: Option<string>): Tables {
    if !CanValidate(db, tenant, w, policy) then db
    else
      var report := ReportFor(judge, db, w, PolicyFor(db.rows[w], policy).value);
      var state := if report.accepted then Succeeded else Rejected;
      Write(db, w, db.rows[w].(state := state), Entered(state), db.rows[w].fence).(reports := db.reports[w := report])
  }

  // ------------------------------------------- cancellation and recovery

  predicate CanCancel(db: Tables, tenant: string, w: nat) {
    Has(db, tenant, w) && (db.rows[w].state.Ready? || db.rows[w].state.Running? || db.rows[w].state.AwaitingValidation?)
  }

  /** Take a row from its holder and move it. */
  function Fence(db: Tables, w: nat, state: State): Tables
    requires w in db.rows
  {
    var row := db.rows[w];
    var fence := row.fence + 1;
    Write(db, w, row.(state := state, fence := fence, owner := None, lease := None), Entered(state), fence)
  }

  function Cancel(db: Tables, tenant: string, w: nat): Tables {
    if CanCancel(db, tenant, w) then Fence(db, w, Cancelled) else db
  }

  predicate Expired(db: Tables, w: nat, now: int) {
    w in db.rows && db.rows[w].state.Running? && db.rows[w].lease.Some? && db.rows[w].lease.value <= now
  }

  /** One row of `recover_expired`. */
  function Expire(db: Tables, w: nat, now: int): Tables {
    if Expired(db, w, now) then Fence(db, w, Uncertain) else db
  }

  predicate HasEvidence(db: Tables, w: nat) {
    w in db.rows && JournalOf(db, db.rows[w].tenant, w).Some? && db.dispatches[w].outcome.Some?
  }

  /** The checks recovery makes before it trusts a recorded outcome. */
  predicate EvidenceOk(db: Tables, w: nat)
    requires HasEvidence(db, w)
  {
    var outcome := db.dispatches[w].outcome.value;
    && db.dispatches[w].fence + 1 == db.rows[w].fence
    && outcome.digest == Sha256(outcome.encoded)
    && (outcome.flag == 0 || outcome.flag == 1)
    && outcome.encoded.Object?
  }

  predicate Reconcilable(db: Tables, w: nat) {
    w in db.rows && db.rows[w].state.Uncertain? && HasEvidence(db, w) && EvidenceOk(db, w)
  }

  /** `reconcile_uncertain`: commit a trusted outcome; anything else stays as it is. */
  function Reconcile(db: Tables, w: nat): Tables {
    if Reconcilable(db, w) then
      CommitResult(db, w, db.dispatches[w].outcome.value.encoded, db.dispatches[w].outcome.value.flag == 1)
    else db
  }
}
