/** What holds of single-task workflows over every interleaving of store calls. */
module WorkflowRuns {

  import opened Outcomes
  import opened WorkflowTables

  // ------------------------------------------------------------ event history

  datatype Mark = Mark(kind: Kind, fence: nat)

  /** The events of one workflow, in order. */
  function History(log: seq<Event>, w: nat): seq<Mark> {
    if log == [] then []
    else
      var earlier, e := History(log[..|log| - 1], w), log[|log| - 1];
      if e.workflow == w then earlier + [Mark(e.kind, e.fence)] else earlier
  }

  /** The history of a workflow that has been claimed and is still running. */
  function Started(j: Option<Dispatch>): seq<Mark> {
    [Mark(Entered(Ready), 0), Mark(Entered(Running), 1)]
    + (if j.None? then [] else [Mark(DispatchStarted, 1)])
    + (if j.None? || j.value.outcome.None? then [] else [Mark(OutcomeRecorded, 1)])
  }

  /** ... whose result was committed, by its holder (fence 1) or by recovery (fence 2). */
  function Committed(j: Option<Dispatch>, fence: nat, state: State): seq<Mark> {
    Started(j) + (if fence == 1 then [] else [Mark(Entered(Uncertain), 2)]) + [Mark(Entered(state), fence)]
  }

  /** The one history a row and its dispatch journal can have. */
  function Expected(row: Row, j: Option<Dispatch>): seq<Mark> {
    match row.state
    case Ready => [Mark(Entered(Ready), 0)]
    case Running => Started(j)
    case Uncertain => Started(j) + [Mark(Entered(Uncertain), 2)]
    case AwaitingValidation => Committed(j, row.fence, AwaitingValidation)
    case Failed => Committed(j, row.fence, Failed)
    case Succeeded => Committed(j, row.fence, AwaitingValidation) + [Mark(Entered(Succeeded), row.fence)]
    case Rejected => Committed(j, row.fence, AwaitingValidation) + [Mark(Entered(Rejected), row.fence)]
    case Cancelled =>
      if row.fence <= 1 then [Mark(Entered(Ready), 0), Mark(Entered(Cancelled), row.fence)]
      else if row.artifact.None? then Started(j) + [Mark(Entered(Cancelled), row.fence)]
      else Committed(j, row.fence - 1, AwaitingValidation) + [Mark(Entered(Cancelled), row.fence)]
  }

  // -------------------------------------------------------------- invariant

  function Journal(db: Tables, w: nat): Option<Dispatch> { if w in db.dispatches then Some(db.dispatches[w]) else None }

  ghost predicate JournalOk(row: Row, j: Option<Dispatch>) {
    j.Some? ==>
      && j.value.tenant == row.tenant && j.value.fence == 1
      && (j.value.outcome.Some? ==>
            var o := j.value.outcome.value;
            o.encoded.Object? && o.digest == Sha256(o.encoded) && (o.flag == 0 || o.flag == 1))
  }

  ghost predicate Unleased(row: Row, fence: nat) { row.fence == fence && row.owner.None? && row.lease.None? }

  /** The result is stored as one artifact, and a journal, if any, recorded exactly it. */
  ghost predicate ResultOk(db: Tables, w: nat, fence: nat, succeeded: bool)
    requires w in db.rows
  {
    && HasArtifact(db, w) && 1 <= fence <= 2
    && (var art, j := db.artifacts[db.rows[w].artifact.value], Journal(db, w);
        && art.content.Object? && art.tenant == db.rows[w].tenant && art.digest == Sha256(art.content)
        && db.rows[w].result == Some(art.content)
        && (j.Some? ==> j.value.outcome == Some(OutcomeOf(art.content, succeeded)))
        && (fence == 2 ==> j.Some?))
  }

  ghost predicate Judged(db: Tables, w: nat, accepted: bool)
    requires w in db.rows && HasArtifact(db, w)
  {
    && w in db.reports && db.reports[w].accepted == accepted
    && db.reports[w].artifact == db.rows[w].artifact.value
    && db.reports[w].digest == db.artifacts[db.rows[w].artifact.value].digest
  }

  ghost predicate Shape(db: Tables, w: nat)
    requires w in db.rows
  {
    var row := db.rows[w];
    match row.state
    case Ready => Unleased(row, 0) && row.artifact.None? && w !in db.dispatches && w !in db.reports
    case Running => row.fence == 1 && row.owner.Some? && row.lease.Some? && row.artifact.None? && w !in db.reports
    case Uncertain => Unleased(row, 2) && row.artifact.None? && w !in db.reports
    case AwaitingValidation => Unleased(row, row.fence) && ResultOk(db, w, row.fence, true) && w !in db.reports
    case Failed => Unleased(row, row.fence) && ResultOk(db, w, row.fence, false) && w !in db.reports
    case Succeeded => Unleased(row, row.fence) && ResultOk(db, w, row.fence, true) && Judged(db, w, true)
    case Rejected => Unleased(row, row.fence) && ResultOk(db, w, row.fence, true) && Judged(db, w, false)
    case Cancelled =>
      && Unleased(row, row.fence) && w !in db.reports
      && (row.artifact.None? ==> row.fence == 2 || (row.fence == 1 && w !in db.dispatches))
      && (row.artifact.Some? ==> row.fence >= 2 && ResultOk(db, w, row.fence - 1, true))
  }

  ghost predicate RowOk(db: Tables, w: nat)
    requires w in db.rows
  {
    && w < db.nextId
    && JournalOk(db.rows[w], Journal(db, w))
    && Shape(db, w)
    && History(db.log, w) == Expected(db.rows[w], Journal(db, w))
  }

  ghost predicate ArtifactOk(db: Tables, a: nat)
    requires a in db.artifacts
  {
    a < db.nextId && db.artifacts[a].workflow in db.rows && db.rows[db.artifacts[a].workflow].artifact == Some(a)
  }

  /** Every row has one place in the row order. */
  ghost predicate Ordered(db: Tables) {
    && (forall w <- db.order :: w in db.rows) && (forall w <- db.rows :: w in db.order)
    && forall i, j | 0 <= i < j < |db.order| :: db.order[i] != db.order[j]
  }

  /** What a row is created for; no later call changes it. */
  datatype Identity = Identity(tenant: string, key: string, request: Request)

  function IdentityOf(row: Row): Identity { Identity(row.tenant, row.key, row.request) }

  ghost predicate KeysDiffer(db: Tables, v: nat, w: nat)
    requires v in db.rows && w in db.rows
  {
    db.rows[v].tenant != db.rows[w].tenant || db.rows[v].key != db.rows[w].key
  }

  /** A tenant's idempotency key names at most one workflow. */
  ghost predicate Keyed(db: Tables) {
    forall v, w {:trigger KeysDiffer(db, v, w)} | v in db.rows && w in db.rows && v != w :: KeysDiffer(db, v, w)
  }

  ghost predicate Inv(db: Tables) {
    && (forall w {:trigger RowOk(db, w)} | w in db.rows :: RowOk(db, w))
    && (forall a {:trigger ArtifactOk(db, a)} | a in db.artifacts :: ArtifactOk(db, a))
    && Ordered(db) && Keyed(db)
    && (forall w <- db.dispatches :: w in db.rows) && (forall w <- db.reports :: w in db.rows)
    && (forall e <- db.log :: e.workflow in db.rows)
  }

  // ------------------------------------------------------- one row at a time

  /** Workflow `v` has the same row, journal and report in both. */
  ghost predicate SameAt(db: Tables, db': Tables, v: nat) {
    && (v in db'.rows <==> v in db.rows) && (v in db.rows ==> db'.rows[v] == db.rows[v])
    && Journal(db', v) == Journal(db, v)
    && (v in db'.reports <==> v in db.reports) && (v in db.reports ==> db'.reports[v] == db.reports[v])
  }

  /** `db'` differs from `db` only in what belongs to workflow `w`, and logs it. */
  ghost predicate Touches(db: Tables, w: nat, kind: Kind, fence: nat, db': Tables) {
    && w in db'.rows && (w in db.rows ==> IdentityOf(db'.rows[w]) == IdentityOf(db.rows[w]))
    && (forall v {:trigger SameAt(db, db', v)} | v != w :: SameAt(db, db', v))
    && (forall a <- db.artifacts :: a in db'.artifacts && db'.artifacts[a] == db.artifacts[a])
    && (if w in db.rows then db'.order == db.order else db'.order == db.order + [w])
    && db'.log == db.log + [Event(w, kind, fence)]
    && db.nextId <= db'.nextId
  }

  lemma {:induction false} BystanderOk(db: Tables, w: nat, kind: Kind, fence: nat, db': Tables, v: nat)
    requires Touches(db, w, kind, fence, db') && v != w && v in db.rows && RowOk(db, v)
    ensures v in db'.rows && RowOk(db', v)
  {
    assert SameAt(db, db', v);
  }

  lemma {:induction false} TouchKeepsOrder(db: Tables, w: nat, kind: Kind, fence: nat, db': Tables)
    requires Ordered(db) && Touches(db, w, kind, fence, db')
    ensures Ordered(db')
  {
    forall v <- db'.rows ensures v in db'.order { assert v == w || SameAt(db, db', v); }
    forall v <- db'.order ensures v in db'.rows { assert v == w || SameAt(db, db', v); }
  }

  lemma {:induction false} TouchKeepsKeys(db: Tables, w: nat, kind: Kind, fence: nat, db': Tables)
    requires Keyed(db) && Touches(db, w, kind, fence, db')
    requires w in db.rows || forall v {:trigger SameAt(db, db', v)} | v in db.rows && SameAt(db, db', v) ::
               db.rows[v].tenant != db'.rows[w].tenant || db.rows[v].key != db'.rows[w].key
    ensures Keyed(db')
  {
    forall x, y | x in db'.rows && y in db'.rows && x != y ensures KeysDiffer(db', x, y) {
      assert x == w || SameAt(db, db', x);
      assert y == w || SameAt(db, db', y);
      assert x in db.rows && y in db.rows ==> KeysDiffer(db, x, y);
    }
  }

  /** A call that touches one workflow keeps the invariant if that workflow comes out right. */
  lemma {:induction false} TouchKeepsInv(db: Tables, w: nat, kind: Kind, fence: nat, db': Tables)
    requires Inv(db) && Touches(db, w, kind, fence, db') && RowOk(db', w)
    requires forall a {:trigger ArtifactOk(db', a)} | a in db'.artifacts && a !in db.artifacts :: ArtifactOk(db', a)
    requires w in db.rows && db.rows[w].artifact.Some? ==> db'.rows[w].artifact == db.rows[w].artifact
    requires Keyed(db')
    ensures Inv(db')
  {
    hide Ordered, Keyed, Shape, Expected, History;
    forall v <- db'.rows | v != w ensures RowOk(db', v) {
      assert SameAt(db, db', v) && RowOk(db, v);
      BystanderOk(db, w, kind, fence, db', v);
    }
    forall a <- db'.artifacts ensures ArtifactOk(db', a) {
      if a in db.artifacts {
        assert ArtifactOk(db, a) && (db.artifacts[a].workflow != w ==> SameAt(db, db', db.artifacts[a].workflow));
      }
    }
    TouchKeepsOrder(db, w, kind, fence, db');
    forall v <- db'.dispatches ensures v in db'.rows { assert v == w || SameAt(db, db', v); }
    forall v <- db'.reports ensures v in db'.rows { assert v == w || SameAt(db, db', v); }
    forall v <- db.rows ensures v in db'.rows { assert v == w || SameAt(db, db', v); }
  }

  /** The common case: workflow `w` advances by one event. */
  lemma {:induction false} AdvanceKeepsInv(db: Tables, w: nat, kind: Kind, fence: nat, db': Tables)
    requires Inv(db) && w in db.rows && Touches(db, w, kind, fence, db')
    requires JournalOk(db'.rows[w], Journal(db', w)) && Shape(db', w)
    requires Expected(db'.rows[w], Journal(db', w)) == Expected(db.rows[w], Journal(db, w)) + [Mark(kind, fence)]
    requires forall a {:trigger ArtifactOk(db', a)} | a in db'.artifacts && a !in db.artifacts :: ArtifactOk(db', a)
    requires db.rows[w].artifact.Some? ==> db'.rows[w].artifact == db.rows[w].artifact
    ensures Inv(db')
  {
    assert RowOk(db, w);
    TouchKeepsKeys(db, w, kind, fence, db');
    hide Keyed;
    TouchKeepsInv(db, w, kind, fence, db');
  }

  // ----------------------------------------------------- every call keeps it

  lemma {:induction false} NoHistory(log: seq<Event>, w: nat)
    requires forall e <- log :: e.workflow != w
    ensures History(log, w) == []
  {
    if log != [] { NoHistory(log[..|log| - 1], w); }
  }

  /** A row inserted under the next id. */
  ghost predicate Inserted(db: Tables, row: Row, db': Tables) {
    && row.state.Ready? && Unleased(row, 0) && row.artifact.None?
    && db' == db.(nextId := db.nextId + 1, rows := db.rows[db.nextId := row], order := db.order + [db.nextId],
                  log := db.log + [Event(db.nextId, Entered(Ready), 0)])
  }

  lemma {:induction false} InsertedIsNew(db: Tables)
    requires Inv(db)
    ensures db.nextId !in db.rows && db.nextId !in db.dispatches && db.nextId !in db.reports
    ensures History(db.log, db.nextId) == []
  {
    hide Ordered, ArtifactOk, Shape, JournalOk;
    forall v <- db.rows ensures v != db.nextId { assert RowOk(db, v); }
    NoHistory(db.log, db.nextId);
  }

  lemma {:induction false} InsertKeepsInv(db: Tables, row: Row, db': Tables)
    requires Inv(db) && Inserted(db, row, db')
    requires forall v <- db.rows :: db.rows[v].tenant != row.tenant || db.rows[v].key != row.key
    ensures Inv(db')
  {
    InsertedIsNew(db);
    hide Inv, RowOk;
    assert Touches(db, db.nextId, Entered(Ready), 0, db');
    InsertKeepsKeys(db, row, db');
    TouchKeepsInv(db, db.nextId, Entered(Ready), 0, db');
  }

  lemma {:induction false} InsertKeepsKeys(db: Tables, row: Row, db': Tables)
    requires Keyed(db) && Inserted(db, row, db') && Touches(db, db.nextId, Entered(Ready), 0, db')
    requires forall v <- db.rows :: db.rows[v].tenant != row.tenant || db.rows[v].key != row.key
    ensures Keyed(db')
  {
    TouchKeepsKeys(db, db.nextId, Entered(Ready), 0, db');
  }

  /** The lookup of `create`: it misses only if no row has the key, and what it finds has it. */
  lemma {:induction false} ExistingFinds(order: seq<nat>, rows: map<nat, Row>, tenant: string, key: string)
    ensures
      match Existing(order, rows, tenant, key)
      case None => forall w <- order | w in rows :: rows[w].tenant != tenant || rows[w].key != key
      case Some(w) => w in order && w in rows && rows[w].tenant == tenant && rows[w].key == key
  {
    if order != [] { ExistingFinds(order[1..], rows, tenant, key); }
  }

  lemma {:induction false} CreateKeepsInv(db: Tables, tenant: string, key: string, request: Request)
    requires Inv(db)
    ensures Inv(Create(db, tenant, key, request).1)
  {
    ExistingFinds(db.order, db.rows, tenant, key);
    assert forall w <- db.rows :: w in db.order;
    hide Existing, Inv;
    var db' := Create(db, tenant, key, request).1;
    if db' != db { InsertKeepsInv(db, Row(tenant, key, request, Ready, 0, None, None, None, None), db'); }
  }

  lemma {:induction false} ClaimKeepsInv(db: Tables, tenant: string, w: nat, owner: string, seconds: int, now: int)
    requires Inv(db)
    ensures Inv(Claim(db, tenant, w, owner, seconds, now))
  {
    if CanClaim(db, tenant, w, owner, seconds) {
      assert RowOk(db, w);
      AdvanceKeepsInv(db, w, Entered(Running), 1, Claim(db, tenant, w, owner, seconds, now));
    }
  }

  lemma {:induction false} DispatchKeepsInv(db: Tables, tenant: string, w: nat, owner: string, fence: nat, now: int)
    requires Inv(db)
    ensures Inv(BeginDispatch(db, tenant, w, owner, fence, now))
  {
    if CanDispatch(db, tenant, w, owner, fence, now) {
      assert RowOk(db, w);
      AdvanceKeepsInv(db, w, DispatchStarted, 1, BeginDispatch(db, tenant, w, owner, fence, now));
    }
  }

  lemma {:induction false} RecordKeepsInv(
      db: Tables, tenant: string, w: nat, owner: string, fence: nat, result: Json, succeeded: bool, now: int)
    requires Inv(db)
    ensures Inv(RecordOutcome(db, tenant, w, owner, fence, result, succeeded, now))
  {
    if CanRecord(db, tenant, w, owner, fence, result, succeeded, now) && db.dispatches[w].outcome.None? {
      assert RowOk(db, w);
      AdvanceKeepsInv(db, w, OutcomeRecorded, 1, RecordOutcome(db, tenant, w, owner, fence, result, succeeded, now));
    }
  }

  lemma {:induction false} CommitKeepsInv(db: Tables, w: nat, content: Json, succeeded: bool)
    requires Inv(db) && w in db.rows && content.Object?
    requires db.rows[w].state.Running? || (db.rows[w].state.Uncertain? && w in db.dispatches)
    requires w in db.dispatches ==> db.dispatches[w].outcome == Some(OutcomeOf(content, succeeded))
    ensures Inv(CommitResult(db, w, content, succeeded))
  {
    var db' := CommitResult(db, w, content, succeeded);
    assert RowOk(db, w);
    forall a <- db.artifacts ensures a < db.nextId { assert ArtifactOk(db, a); }
    assert ArtifactOk(db', db.nextId);
    AdvanceKeepsInv(db, w, Entered(if succeeded then AwaitingValidation else Failed), db.rows[w].fence, db');
  }

  lemma {:induction false} CompleteKeepsInv(
      db: Tables, tenant: string, w: nat, owner: string, fence: nat, result: Json, succeeded: bool, now: int)
    requires Inv(db)
    ensures Inv(Complete(db, tenant, w, owner, fence, result, succeeded, now))
  {
    if CanComplete(db, tenant, w, owner, fence, result, succeeded, now) {
      assert RowOk(db, w);
      CommitKeepsInv(db, w, result, succeeded);
    }
  }

  lemma {:induction false} ValidateKeepsInv(judge: Judge, db: Tables, tenant: string, w: nat, policy: Option<string>)
    requires Inv(db)
    ensures Inv(Validate(judge, db, tenant, w, policy))
  {
    if CanValidate(db, tenant, w, policy) {
      var db' := Validate(judge, db, tenant, w, policy);
      assert RowOk(db, w);
      AdvanceKeepsInv(db, w, Entered(db'.rows[w].state), db.rows[w].fence, db');
    }
  }

  lemma {:induction false} CancelKeepsInv(db: Tables, tenant: string, w: nat)
    requires Inv(db)
    ensures Inv(Cancel(db, tenant, w))
  {
    if CanCancel(db, tenant, w) {
      assert RowOk(db, w);
      AdvanceKeepsInv(db, w, Entered(Cancelled), db.rows[w].fence + 1, Cancel(db, tenant, w));
    }
  }

  lemma {:induction false} ExpireKeepsInv(db: Tables, w: nat, now: int)
    requires Inv(db)
    ensures Inv(Expire(db, w, now))
  {
    if Expired(db, w, now) {
      assert RowOk(db, w);
      AdvanceKeepsInv(db, w, Entered(Uncertain), 2, Expire(db, w, now));
    }
  }

  /** In every reachable uncertain row a recorded outcome passes recovery's evidence check. */
  lemma {:induction false} EvidenceNeverFails(db: Tables, w: nat)
    requires Inv(db) && w in db.rows && db.rows[w].state.Uncertain? && HasEvidence(db, w)
    ensures EvidenceOk(db, w)
    ensures db.dispatches[w].fence + 1 == db.rows[w].fence
  {
    assert RowOk(db, w);
  }

  lemma {:induction false} ReconcileKeepsInv(db: Tables, w: nat)
    requires Inv(db)
    ensures Inv(Reconcile(db, w))
  {
    if Reconcilable(db, w) {
      assert RowOk(db, w);
      var o := db.dispatches[w].outcome.value;
      assert o == OutcomeOf(o.encoded, o.flag == 1);
      CommitKeepsInv(db, w, o.encoded, o.flag == 1);
    }
  }

  // --------------------------------------------------------------- whole runs

  /** One atomic call by a client, a worker, the canceller or recovery. */
  datatype Call =
    | Creating(tenant: string, key: string, request: Request)
    | Claiming(tenant: string, w: nat, owner: string, seconds: int, now: int)
    | Dispatching(tenant: string, w: nat, owner: string, fence: nat, now: int)
    | Recording(tenant: string, w: nat, owner: string, fence: nat, result: Json, succeeded: bool, now: int)
    | Completing(tenant: string, w: nat, owner: string, fence: nat, result: Json, succeeded: bool, now: int)
    | Validating(tenant: string, w: nat, policy: Option<string>)
    | Cancelling(tenant: string, w: nat)
    | Expiring(w: nat, now: int)
    | Reconciling(w: nat)

  function Apply(judge: Judge, db: Tables, call: Call): Tables {
    match call
    case Creating(tenant, key, request) => Create(db, tenant, key, request).1
    case Claiming(tenant, w, owner, seconds, now) => Claim(db, tenant, w, owner, seconds, now)
    case Dispatching(tenant, w, owner, fence, now) => BeginDispatch(db, tenant, w, owner, fence, now)
    case Recording(tenant, w, owner, fence, result, succeeded, now) =>
      RecordOutcome(db, tenant, w, owner, fence, result, succeeded, now)
    case Completing(tenant, w, owner, fence, result, succeeded, now) =>
      Complete(db, tenant, w, owner, fence, result, succeeded, now)
    case Validating(tenant, w, policy) => Validate(judge, db, tenant, w, policy)
    case Cancelling(tenant, w) => Cancel(db, tenant, w)
    case Expiring(w, now) => Expire(db, w, now)
    case Reconciling(w) => Reconcile(db, w)
  }

  /** Any interleaving, with arbitrary clock readings; a refused call changes nothing. */
  function Run(judge: Judge, db: Tables, calls: seq<Call>): Tables
    decreases |calls|
  {
    if calls == [] then db else Run(judge, Apply(judge, db, calls[0]), calls[1..])
  }

  lemma {:induction false} ApplyKeepsInv(judge: Judge, db: Tables, call: Call)
    requires Inv(db)
    ensures Inv(Apply(judge, db, call))
  {
    match call
    case Creating(tenant, key, request) => CreateKeepsInv(db, tenant, key, request);
    case Claiming(tenant, w, owner, seconds, now) => ClaimKeepsInv(db, tenant, w, owner, seconds, now);
    case Dispatching(tenant, w, owner, fence, now) => DispatchKeepsInv(db, tenant, w, owner, fence, now);
    case Recording(tenant, w, owner, fence, result, succeeded, now) =>
      RecordKeepsInv(db, tenant, w, owner, fence, result, succeeded, now);
    case Completing(tenant, w, owner, fence, result, succeeded, now) =>
      CompleteKeepsInv(db, tenant, w, owner, fence, result, succeeded, now);
    case Validating(tenant, w, policy) => ValidateKeepsInv(judge, db, tenant, w, policy);
    case Cancelling(tenant, w) => CancelKeepsInv(db, tenant, w);
    case Expiring(w, now) => ExpireKeepsInv(db, w, now);
    case Reconciling(w) => ReconcileKeepsInv(db, w);
  }

  lemma {:induction false} RunKeepsInv(judge: Judge, db: Tables, calls: seq<Call>)
    requires Inv(db)
    ensures Inv(Run(judge, db, calls))
    decreases |calls|
  {
    if calls != [] {
      ApplyKeepsInv(judge, db, calls[0]);
      RunKeepsInv(judge, Apply(judge, db, calls[0]), calls[1..]);
    }
  }

  /** The stage of a workflow's life an event belongs to. */
  function Stage(kind: Kind): nat {
    match kind
    case Entered(Ready) => 0
    case Entered(Running) => 1
    case DispatchStarted => 2
    case OutcomeRecorded => 3
    case Entered(Uncertain) => 4
    case Entered(AwaitingValidation) => 5
    case Entered(Failed) => 5
    case Entered(_) => 6
  }

  /** Stages strictly advance: one claim, one dispatch, one commit, one verdict, and never back to ready. */
  ghost predicate Advances(h: seq<Mark>) { forall i, j | 0 <= i < j < |h| :: Stage(h[i].kind) < Stage(h[j].kind) }

  lemma {:induction false} AppendAdvances(h: seq<Mark>, m: Mark)
    requires Advances(h) && (h != [] ==> Stage(h[|h| - 1].kind) < Stage(m.kind))
    ensures Advances(h + [m])
  {}

  lemma {:induction false} CommittedAdvances(j: Option<Dispatch>, fence: nat, state: State)
    requires state.AwaitingValidation? || state.Failed?
    ensures Advances(Started(j)) && Stage(Started(j)[|Started(j)| - 1].kind) <= 3
    ensures Advances(Committed(j, fence, state))
  {
    var h := Started(j);
    if fence != 1 {
      AppendAdvances(h, Mark(Entered(Uncertain), 2));
      AppendAdvances(h + [Mark(Entered(Uncertain), 2)], Mark(Entered(state), fence));
    } else {
      AppendAdvances(h, Mark(Entered(state), fence));
      assert h + [] == h;
    }
  }

  lemma {:induction false} ExpectedAdvances(row: Row, j: Option<Dispatch>)
    ensures Advances(Expected(row, j))
  {
    CommittedAdvances(j, row.fence, AwaitingValidation);
    CommittedAdvances(j, row.fence, Failed);
    match row.state
    case Uncertain => AppendAdvances(Started(j), Mark(Entered(Uncertain), 2));
    case Succeeded => AppendAdvances(Committed(j, row.fence, AwaitingValidation), Mark(Entered(Succeeded), row.fence));
    case Rejected => AppendAdvances(Committed(j, row.fence, AwaitingValidation), Mark(Entered(Rejected), row.fence));
    case Cancelled =>
      var m := Mark(Entered(Cancelled), row.fence);
      if row.fence > 1 {
        CommittedAdvances(j, row.fence - 1, AwaitingValidation);
        AppendAdvances(Started(j), m);
        AppendAdvances(Committed(j, row.fence - 1, AwaitingValidation), m);
      }
    case _ =>
  }

  /** In every interleaving from an empty store, each workflow's history is the one its row and journal determine, and
      its stages strictly advance; it owns at most one artifact,
          and has succeeded exactly when its stored report accepts it. */
  lemma {:induction false} ExactlyOnce(judge: Judge, calls: seq<Call>, w: nat)
    ensures
      var db := Run(judge, Empty, calls);
      w in db.rows ==>
        && History(db.log, w) == Expected(db.rows[w], Journal(db, w)) && Advances(History(db.log, w))
        && (forall a <- db.artifacts, b <- db.artifacts
            | db.artifacts[a].workflow == w && db.artifacts[b].workflow == w :: a == b)
        && (db.rows[w].state.Succeeded? <==> w in db.reports && db.reports[w].accepted)
  {
    RunKeepsInv(judge, Empty, calls);
    var db := Run(judge, Empty, calls);
    if w in db.rows {
      assert RowOk(db, w);
      ExpectedAdvances(db.rows[w], Journal(db, w));
      forall a <- db.artifacts | db.artifacts[a].workflow == w
        ensures db.rows[w].artifact == Some(a)
      {
        assert ArtifactOk(db, a);
      }
    }
  }

  lemma {:induction false} ApplyNeverReadies(judge: Judge, db: Tables, call: Call, w: nat)
    requires Inv(db) && w in db.rows && !db.rows[w].state.Ready?
    ensures w in Apply(judge, db, call).rows && !Apply(judge, db, call).rows[w].state.Ready?
  {
    hide Shape, History, Expected, Ordered, JournalOk, ArtifactOk, ReportFor, PolicyFor, EvidenceOk;
    assert RowOk(db, w);
  }

  /** However often a dispatcher lists a workflow, only one claim of it is ever granted. */
  lemma {:induction false} ClaimedOnceOnly(
      judge: Judge, db: Tables, calls: seq<Call>, tenant: string, w: nat, owner: string, seconds: int)
    requires Inv(db) && w in db.rows && !db.rows[w].state.Ready?
    ensures !CanClaim(Run(judge, db, calls), tenant, w, owner, seconds)
    decreases |calls|
  {
    if calls != [] {
      ApplyKeepsInv(judge, db, calls[0]);
      ApplyNeverReadies(judge, db, calls[0], w);
      ClaimedOnceOnly(judge, Apply(judge, db, calls[0]), calls[1..], tenant, w, owner, seconds);
    }
  }

  /** A stored report always names the stored artifact and its digest, so a replay can only conflict over the policy. */
  lemma {:induction false} ReportMatches(db: Tables, w: nat)
    requires Inv(db)
    ensures w in db.reports ==>
      && HasArtifact(db, w) && db.reports[w].artifact == db.rows[w].artifact.value
      && db.reports[w].digest == db.artifacts[db.rows[w].artifact.value].digest
  {
    hide Ordered, Keyed, ArtifactOk, History, Expected, JournalOk;
    if w in db.reports { assert RowOk(db, w); }
  }

  // ---------------------------------------------------------------- idempotency

  /** With distinct keys the lookup finds the one row that has the key. */
  lemma {:induction false} ExistingIs(db: Tables, tenant: string, key: string, w: nat)
    requires Inv(db) && w in db.rows && db.rows[w].tenant == tenant && db.rows[w].key == key
    ensures Existing(db.order, db.rows, tenant, key) == Some(w)
  {
    ExistingFinds(db.order, db.rows, tenant, key);
    var found := Existing(db.order, db.rows, tenant, key);
    assert w in db.order;
    assert found.Some? && found.value != w ==> KeysDiffer(db, found.value, w);
  }

  lemma {:induction false} ApplyKeepsIdentity(judge: Judge, db: Tables, call: Call, w: nat)
    requires Inv(db) && w in db.rows
    ensures w in Apply(judge, db, call).rows && IdentityOf(Apply(judge, db, call).rows[w]) == IdentityOf(db.rows[w])
  {
    hide Shape, History, Expected, Ordered, Keyed, JournalOk, ArtifactOk, ReportFor, PolicyFor, EvidenceOk;
    assert RowOk(db, w);
  }

  lemma {:induction false} RunKeepsIdentity(judge: Judge, db: Tables, calls: seq<Call>, w: nat)
    requires Inv(db) && w in db.rows
    ensures
      var end := Run(judge, db, calls);
      Inv(end) && w in end.rows && IdentityOf(end.rows[w]) == IdentityOf(db.rows[w])
    decreases |calls|
  {
    hide Inv, Apply;
    if calls != [] {
      ApplyKeepsInv(judge, db, calls[0]);
      ApplyKeepsIdentity(judge, db, calls[0], w);
      RunKeepsIdentity(judge, Apply(judge, db, calls[0]), calls[1..], w);
    }
  }

  /** The key already stands for another request. */
  ghost predicate KeyTaken(db: Tables, tenant: string, key: string, request: Request) {
    exists w <- db.rows :: db.rows[w].tenant == tenant && db.rows[w].key == key && db.rows[w].request != request
  }

  /** A creation succeeds exactly under two identifiers whose key is free or stands for the same request, and names the
      one row that then has the key. */
  lemma {:induction false} CreateMeans(db: Tables, tenant: string, key: string, request: Request)
    requires Inv(db)
    ensures
      var (r, db') := Create(db, tenant, key, request);
      && (r.Ok? ==> r.value in db'.rows && IdentityOf(db'.rows[r.value]) == Identity(tenant, key, request))
      && (r == Err(InvalidInput) <==> !Identifier(tenant) || !Identifier(key))
      && (r == Err(Conflict) <==> Identifier(tenant) && Identifier(key) && KeyTaken(db, tenant, key, request))
      && (forall w <- db.rows :: w in db'.rows && db'.rows[w] == db.rows[w])
      && (r.Err? || (exists w <- db.rows :: IdentityOf(db.rows[w]) == Identity(tenant, key, request)) ==> db' == db)
  {
    InsertedIsNew(db);
    ExistingFinds(db.order, db.rows, tenant, key);
    forall w <- db.rows ensures w in db.order {}
    forall w <- db.rows | db.rows[w].tenant == tenant && db.rows[w].key == key
      ensures Existing(db.order, db.rows, tenant, key) == Some(w)
    {
      ExistingIs(db, tenant, key, w);
    }
    hide Inv, Existing;
  }

  /** Once a creation has succeeded, then after any run of calls the same creation returns the same workflow, one with
      another request conflicts, and neither changes anything. */
  lemma {:induction false} CreateIsIdempotent(
      judge: Judge, db: Tables, tenant: string, key: string, request: Request, calls: seq<Call>, other: Request)
    requires Inv(db) && Create(db, tenant, key, request).0.Ok?
    ensures
      var (r, created) := Create(db, tenant, key, request);
      var later := Run(judge, created, calls);
      && Create(later, tenant, key, request) == (r, later)
      && (other != request ==> Create(later, tenant, key, other) == (Err(Conflict), later))
  {
    var (r, created) := Create(db, tenant, key, request);
    CreateMeans(db, tenant, key, request);
    CreateKeepsInv(db, tenant, key, request);
    RunKeepsIdentity(judge, created, calls, r.value);
    ExistingIs(Run(judge, created, calls), tenant, key, r.value);
    hide Inv, Existing, Run;
  }

  // ------------------------------------------------------------ crash recovery

  /** Once an outcome is recorded, the holder's completion and lease expiry plus reconciliation
      reach the same state with the same artifact content. */
  lemma {:induction false} RecoveryAgreesWithCompletion(
      db: Tables, tenant: string, w: nat, owner: string, fence: nat, now: int, later: int)
    requires Inv(db) && HoldsLease(db, tenant, w, owner, fence, now) && HasEvidence(db, w)
    requires db.rows[w].lease.value <= later
    ensures
      var o := db.dispatches[w].outcome.value;
      var completed := Complete(db, tenant, w, owner, fence, o.encoded, o.flag == 1, now);
      var recovered := Reconcile(Expire(db, w, later), w);
      && CanComplete(db, tenant, w, owner, fence, o.encoded, o.flag == 1, now)
      && Reconcilable(Expire(db, w, later), w)
      && completed.rows[w].state == recovered.rows[w].state == (if o.flag == 1 then AwaitingValidation else Failed)
      && completed.rows[w].artifact == recovered.rows[w].artifact
      && completed.artifacts == recovered.artifacts && HasArtifact(completed, w)
      && completed.artifacts[completed.rows[w].artifact.value].content == o.encoded
      && completed.rows[w].result == recovered.rows[w].result == Some(o.encoded)
  {
    assert RowOk(db, w);
    var o := db.dispatches[w].outcome.value;
    assert o == OutcomeOf(o.encoded, o.flag == 1);
  }

  /** ... and a completion that differs from the record is refused. */
  lemma {:induction false} CompletionMustMatchRecord(
      db: Tables, tenant: string, w: nat, owner: string, fence: nat, result: Json, succeeded: bool, now: int)
    requires Inv(db) && w in db.dispatches && CanComplete(db, tenant, w, owner, fence, result, succeeded, now)
    ensures db.dispatches[w].outcome == Some(OutcomeOf(result, succeeded))
  {
    assert RowOk(db, w);
  }
}
