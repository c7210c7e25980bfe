/** Startup recovery: one bounded transaction that does what the separate recovery calls would do. */
module Recovery {

  import opened Outcomes
  import opened WorkflowTables
  import opened WorkflowRuns

  /** The ids a query returns, in row order. */
  function Select(ids: seq<nat>, p: nat -> bool): (s: seq<nat>)
    ensures forall w :: w in s <==> w in ids && p(w)
    ensures |s| <= |ids|
  {
    if ids == [] then [] else (if p(ids[0]) then [ids[0]] else []) + Select(ids[1..], p)
  }

  ghost predicate Unique(ids: seq<nat>) { forall i, j | 0 <= i < j < |ids| :: ids[i] != ids[j] }

  lemma {:induction false} SelectUnique(ids: seq<nat>, p: nat -> bool)
    requires Unique(ids)
    ensures Unique(Select(ids, p))
  {
    if ids != [] {
      SelectUnique(ids[1..], p);
      assert ids[0] !in ids[1..];
    }
  }

  lemma {:induction false} SelectSame(ids: seq<nat>, p: nat -> bool, q: nat -> bool)
    requires forall w <- ids :: p(w) == q(w)
    ensures Select(ids, p) == Select(ids, q)
  {
    if ids != [] { SelectSame(ids[1..], p, q); }
  }

  lemma {:induction false} SelectNone(ids: seq<nat>, p: nat -> bool)
    requires forall w <- ids :: !p(w)
    ensures Select(ids, p) == []
  {
    if ids != [] { SelectNone(ids[1..], p); }
  }

  lemma {:induction false} SelectFewer(ids: seq<nat>, p: nat -> bool, q: nat -> bool)
    requires forall w <- ids :: p(w) ==> q(w)
    ensures |Select(ids, p)| <= |Select(ids, q)|
  {
    if ids != [] { SelectFewer(ids[1..], p, q); }
  }

  /** A query keeps the row order. */
  lemma {:induction false} SelectInOrder(ids: seq<nat>, p: nat -> bool, i: nat, j: nat) returns (k: nat, l: nat)
    requires i < j < |Select(ids, p)|
    ensures k < l < |ids| && ids[k] == Select(ids, p)[i] && ids[l] == Select(ids, p)[j]
  {
    var rest := Select(ids[1..], p);
    if !p(ids[0]) {
      k, l := SelectInOrder(ids[1..], p, i, j);
      k, l := k + 1, l + 1;
    } else if i > 0 {
      k, l := SelectInOrder(ids[1..], p, i - 1, j - 1);
      k, l := k + 1, l + 1;
    } else {
      assert rest[j - 1] in rest;
      k := 0;
      l :| 0 < l < |ids| && ids[l] == rest[j - 1];
    }
  }

  // -------------------------------------------------------- recover_expired

  function ExpireAll(db: Tables, ids: seq<nat>, now: int): Tables
    decreases |ids|
  {
    if ids == [] then db else ExpireAll(Expire(db, ids[0], now), ids[1..], now)
  }

  function ExpiredFor(db: Tables, tenant: string, now: int): nat -> bool {
    (w: nat) => Expired(db, w, now) && db.rows[w].tenant == tenant
  }

  function ExpiredOf(db: Tables, tenant: string, now: int): seq<nat> { Select(db.order, ExpiredFor(db, tenant, now)) }

  function RecoverExpired(db: Tables, tenant: string, now: int): Tables {
    ExpireAll(db, ExpiredOf(db, tenant, now), now)
  }

  /** `recover_expired` for each tenant in turn. */
  function RecoverTenants(db: Tables, tenants: seq<string>, now: int): Tables
    decreases |tenants|
  {
    if tenants == [] then db else RecoverTenants(RecoverExpired(db, tenants[0], now), tenants[1..], now)
  }

  /** `reconcile_uncertain` on each row in turn. */
  function ReconcileEach(db: Tables, ids: seq<nat>): Tables
    decreases |ids|
  {
    if ids == [] then db else ReconcileEach(Reconcile(db, ids[0]), ids[1..])
  }

  function UncertainIn(db: Tables): nat -> bool { (w: nat) => w in db.rows && db.rows[w].state.Uncertain? }

  function UncertainIds(db: Tables): seq<nat> { Select(db.order, UncertainIn(db)) }

  // -------------------------------------------------------- recover_startup

  function CandidateIn(db: Tables, now: int): nat -> bool {
    (w: nat) => w in db.rows && (db.rows[w].state.Uncertain? || Expired(db, w, now))
  }

  function Candidates(db: Tables, now: int): seq<nat> { Select(db.order, CandidateIn(db, now)) }

  function RunningIn(db: Tables): nat -> bool { (w: nat) => w in db.rows && db.rows[w].state.Running? }

  /** The first loop of startup: fence the candidates that were still running. */
  function FencedCandidates(db: Tables, now: int): Tables {
    ExpireAll(db, Select(Candidates(db, now), RunningIn(db)), now)
  }

  datatype Reason = OutcomeUnknown | InvalidOutcomeEvidence

  datatype Reconciled = Reconciled(workflow: nat, state: State)

  datatype Unresolved = Unresolved(workflow: nat, reason: Reason)

  datatype Settlement = Settlement(db: Tables, reconciled: seq<Reconciled>, unresolved: seq<Unresolved>)

  /** The reconciliation loop of startup: it trusts the same evidence, and reports what it cannot use. */
  function SettleOne(s: Settlement, w: nat): Settlement {
    if HasEvidence(s.db, w) && EvidenceOk(s.db, w) then
      var o := s.db.dispatches[w].outcome.value;
      s.(db := CommitResult(s.db, w, o.encoded, o.flag == 1),
         reconciled := s.reconciled + [Reconciled(w, if o.flag == 1 then AwaitingValidation else Failed)])
    else
      var reason := if HasEvidence(s.db, w) then InvalidOutcomeEvidence else OutcomeUnknown;
      s.(unresolved := s.unresolved + [Unresolved(w, reason)])
  }

  function SettleAll(s: Settlement, ids: seq<nat>): Settlement
    decreases |ids|
  {
    if ids == [] then s else SettleAll(SettleOne(s, ids[0]), ids[1..])
  }

  datatype Summary = Summary(scanned: nat, expired: seq<nat>, reconciled: seq<Reconciled>, unresolved: seq<Unresolved>)

  function Startup(db: Tables, limit: int, now: int): (Result<Summary>, Tables) {
    var found := Candidates(db, now);
    if !(1 <= limit <= 100_000) then (Err(InvalidInput), db)
    else if |found| > limit then (Err(LimitExceeded), db)
    else
      var expired := Select(found, RunningIn(db));
      var s := SettleAll(Settlement(ExpireAll(db, expired, now), [], []), found);
      (Ok(Summary(|found|, expired, s.reconciled, s.unresolved)), s.db)
  }

  // ---------------------------------------------- expiry, row by row or at once

  /** `e` is `db` with exactly the expired rows of `ids` fenced as uncertain. */
  ghost predicate ExpiredAt(db: Tables, ids: iset<nat>, now: int, e: Tables, w: nat) {
    && (w in e.rows <==> w in db.rows)
    && (w in db.rows ==>
          e.rows[w] == if w in ids && Expired(db, w, now) then Fence(db, w, Uncertain).rows[w] else db.rows[w])
    && History(e.log, w) == History(db.log, w) +
         if w in ids && Expired(db, w, now) then [Mark(Entered(Uncertain), db.rows[w].fence + 1)] else []
  }

  ghost predicate ExpiredBy(db: Tables, ids: iset<nat>, now: int, e: Tables) {
    && (forall w {:trigger ExpiredAt(db, ids, now, e, w)} :: ExpiredAt(db, ids, now, e, w))
    && e.(rows := db.rows, log := db.log) == db
  }

  /** Expiring twice is expiring the union: a fenced row no longer expires. */
  lemma {:induction false} ExpireCompose(db: Tables, a: iset<nat>, e: Tables, b: iset<nat>, f: Tables, now: int)
    requires ExpiredBy(db, a, now, e) && ExpiredBy(e, b, now, f)
    ensures ExpiredBy(db, a + b, now, f)
  {
    forall w ensures ExpiredAt(db, a + b, now, f, w) {
      assert ExpiredAt(db, a, now, e, w) && ExpiredAt(e, b, now, f, w);
    }
  }

  ghost function All(ids: seq<nat>): iset<nat> { iset w | w in ids }

  lemma {:induction false} ExpireAllEffect(db: Tables, ids: seq<nat>, now: int)
    ensures ExpiredBy(db, All(ids), now, ExpireAll(db, ids, now))
    decreases |ids|
  {
    if ids == [] {
      forall w ensures ExpiredAt(db, All(ids), now, db, w) {}
    } else {
      ExpireAllEffect(Expire(db, ids[0], now), ids[1..], now);
      ExpireCompose(db, iset{ids[0]}, Expire(db, ids[0], now), All(ids[1..]), ExpireAll(db, ids, now), now);
      assert iset{ids[0]} + All(ids[1..]) == All(ids);
    }
  }

  /** Only the expired members of the id set matter. */
  lemma {:induction false} SameExpired(db: Tables, a: iset<nat>, b: iset<nat>, now: int, e: Tables)
    requires ExpiredBy(db, a, now, e)
    requires forall w | Expired(db, w, now) :: w in a <==> w in b
    ensures ExpiredBy(db, b, now, e)
  {
    forall w ensures ExpiredAt(db, b, now, e, w) { assert ExpiredAt(db, a, now, e, w); }
  }

  ghost function OwnedBy(db: Tables, tenants: seq<string>): iset<nat> {
    iset w | w in db.rows && db.rows[w].tenant in tenants
  }

  lemma {:induction false} RecoverTenantsEffect(db: Tables, tenants: seq<string>, now: int)
    requires Ordered(db)
    ensures ExpiredBy(db, OwnedBy(db, tenants), now, RecoverTenants(db, tenants, now))
    decreases |tenants|
  {
    if tenants == [] {
      forall w ensures ExpiredAt(db, OwnedBy(db, tenants), now, db, w) {}
    } else {
      var t, ids := tenants[0], ExpiredOf(db, tenants[0], now);
      var e := RecoverExpired(db, t, now);
      ExpireAllEffect(db, ids, now);
      forall w ensures (w in e.rows <==> w in db.rows) && (w in db.rows ==> e.rows[w].tenant == db.rows[w].tenant) {
        assert ExpiredAt(db, All(ids), now, e, w);
      }
      RecoverTenantsEffect(e, tenants[1..], now);
      var f := RecoverTenants(db, tenants, now);
      ExpireCompose(db, All(ids), e, OwnedBy(e, tenants[1..]), f, now);
      forall w | Expired(db, w, now) ensures w in All(ids) + OwnedBy(e, tenants[1..]) <==> w in OwnedBy(db, tenants) {}
      SameExpired(db, All(ids) + OwnedBy(e, tenants[1..]), OwnedBy(db, tenants), now, f);
    }
  }

  // ----------------------------------------------- equal up to log interleaving

  /** Same tables, and the same event history for every workflow. */
  ghost predicate Equivalent(a: Tables, b: Tables) {
    && a.(log := b.log) == b
    && forall w :: History(a.log, w) == History(b.log, w)
  }

  lemma {:induction false} ExpiredEquivalent(db: Tables, ids: iset<nat>, now: int, a: Tables, b: Tables)
    requires ExpiredBy(db, ids, now, a) && ExpiredBy(db, ids, now, b)
    ensures Equivalent(a, b)
  {
    forall w
      ensures History(a.log, w) == History(b.log, w) && (w in a.rows <==> w in b.rows)
              && (w in a.rows ==> a.rows[w] == b.rows[w])
    {
      assert ExpiredAt(db, ids, now, a, w) && ExpiredAt(db, ids, now, b, w);
    }
    assert a.rows == b.rows;
  }

  lemma {:induction false} ReconcileEachEquivalent(a: Tables, b: Tables, ids: seq<nat>)
    requires Equivalent(a, b)
    ensures Equivalent(ReconcileEach(a, ids), ReconcileEach(b, ids))
    decreases |ids|
  {
    if ids != [] {
      ReconcileEachEquivalent(Reconcile(a, ids[0]), Reconcile(b, ids[0]), ids[1..]);
    }
  }

  // ------------------------------------------------------ the settlement loop

  /** On distinct uncertain rows the startup loop is exactly `reconcile_uncertain` on each, and files every row once. */
  lemma {:induction false} SettleIsReconcile(s: Settlement, ids: seq<nat>)
    requires Unique(ids) && forall w <- ids :: w in s.db.rows && s.db.rows[w].state.Uncertain?
    ensures SettleAll(s, ids).db == ReconcileEach(s.db, ids)
    ensures |SettleAll(s, ids).reconciled| + |SettleAll(s, ids).unresolved| == |s.reconciled| + |s.unresolved| + |ids|
    decreases |ids|
  {
    if ids != [] {
      assert forall w <- ids[1..] :: w != ids[0];
      SettleIsReconcile(SettleOne(s, ids[0]), ids[1..]);
    }
  }

  /** After each row was reconciled, none of them can be reconciled any more, and no other row moved. */
  lemma {:induction false} ReconcileEachExhausts(db: Tables, ids: seq<nat>, w: nat)
    ensures w in ReconcileEach(db, ids).rows <==> w in db.rows
    ensures w in ids ==> !Reconcilable(ReconcileEach(db, ids), w)
    ensures !Reconcilable(db, w) ==> !Reconcilable(ReconcileEach(db, ids), w)
    ensures w in db.rows && !Reconcilable(db, w) ==> ReconcileEach(db, ids).rows[w] == db.rows[w]
    ensures w in db.rows && ReconcileEach(db, ids).rows[w] != db.rows[w] ==>
              var st := ReconcileEach(db, ids).rows[w].state; st.AwaitingValidation? || st.Failed?
    ensures ReconcileEach(db, ids).order == db.order
    decreases |ids|
  {
    if ids != [] {
      ReconcileEachExhausts(Reconcile(db, ids[0]), ids[1..], w);
    }
  }

  // ------------------------------------------------------------------ theorems

  /** What both ways start from: every expired row fenced as uncertain. */
  lemma {:induction false} StartupExpires(db: Tables, now: int)
    requires Ordered(db)
    ensures ExpiredBy(db, All(db.order), now, FencedCandidates(db, now))
    ensures Unique(Candidates(db, now))
    ensures forall w <- Candidates(db, now) ::
              && w in FencedCandidates(db, now).rows
              && FencedCandidates(db, now).rows[w].state.Uncertain?
  {
    var found := Candidates(db, now);
    var ids := Select(found, RunningIn(db));
    ExpireAllEffect(db, ids, now);
    SameExpired(db, All(ids), All(db.order), now, FencedCandidates(db, now));
    SelectUnique(db.order, CandidateIn(db, now));
    forall w <- found
      ensures w in FencedCandidates(db, now).rows && FencedCandidates(db, now).rows[w].state.Uncertain?
    {
      assert ExpiredAt(db, All(db.order), now, FencedCandidates(db, now), w);
    }
  }

  /** When the scan fits, startup is reconciliation of every candidate after fencing. */
  lemma {:induction false} StartupUnfolds(db: Tables, limit: int, now: int)
    requires Ordered(db) && 1 <= limit <= 100_000 && |Candidates(db, now)| <= limit
    ensures
      var (r, after) := Startup(db, limit, now);
      && after == ReconcileEach(FencedCandidates(db, now), Candidates(db, now))
      && r.Ok? && r.value.scanned == |r.value.reconciled| + |r.value.unresolved|
  {
    StartupExpires(db, now);
    SettleIsReconcile(Settlement(FencedCandidates(db, now), [], []), Candidates(db, now));
  }

  /** Fencing tenant by tenant leaves the same tables and the same uncertain rows as fencing the candidates. */
  lemma {:induction false} SweepAgrees(db: Tables, tenants: seq<string>, now: int)
    requires Ordered(db) && forall w <- db.rows :: db.rows[w].tenant in tenants
    ensures Equivalent(FencedCandidates(db, now), RecoverTenants(db, tenants, now))
    ensures UncertainIds(RecoverTenants(db, tenants, now)) == Candidates(db, now)
  {
    var swept := RecoverTenants(db, tenants, now);
    StartupExpires(db, now);
    RecoverTenantsEffect(db, tenants, now);
    SameExpired(db, OwnedBy(db, tenants), All(db.order), now, swept);
    ExpiredEquivalent(db, All(db.order), now, FencedCandidates(db, now), swept);
    forall w <- db.order ensures UncertainIn(swept)(w) == CandidateIn(db, now)(w) {
      assert ExpiredAt(db, All(db.order), now, swept, w);
    }
    SelectSame(db.order, UncertainIn(swept), CandidateIn(db, now));
  }

  /** Startup recovery equals `recover_expired` for every tenant followed by `reconcile_uncertain` on every uncertain
      row: the same tables, the same history for each workflow, and every scanned row is reconciled or reported. */
  lemma {:induction false} StartupRefines(db: Tables, tenants: seq<string>, limit: int, now: int)
    requires Ordered(db) && forall w <- db.rows :: db.rows[w].tenant in tenants
    requires 1 <= limit <= 100_000 && |Candidates(db, now)| <= limit
    ensures
      var (r, after) := Startup(db, limit, now);
      var swept := RecoverTenants(db, tenants, now);
      && Equivalent(after, ReconcileEach(swept, UncertainIds(swept)))
      && r.Ok? && r.value.scanned == |r.value.reconciled| + |r.value.unresolved|
  {
    StartupUnfolds(db, limit, now);
    SweepAgrees(db, tenants, now);
    ReconcileEachEquivalent(FencedCandidates(db, now), RecoverTenants(db, tenants, now), Candidates(db, now));
  }

  /** After startup recovery nothing is expired, no uncertain row can be reconciled, and no new candidate appeared. */
  lemma {:induction false} StartupExhausts(db: Tables, now: int, w: nat)
    requires Ordered(db)
    ensures
      var after := ReconcileEach(FencedCandidates(db, now), Candidates(db, now));
      && after.order == db.order
      && !Expired(after, w, now) && !Reconcilable(after, w)
      && (CandidateIn(after, now)(w) ==> CandidateIn(db, now)(w))
  {
    StartupExpires(db, now);
    assert ExpiredAt(db, All(db.order), now, FencedCandidates(db, now), w);
    ReconcileEachExhausts(FencedCandidates(db, now), Candidates(db, now), w);
  }

  /** With nothing expired and nothing reconcilable, startup recovery is the identity. */
  lemma {:induction false} NothingToRecover(db: Tables, limit: int, now: int)
    requires 1 <= limit <= 100_000 && |Candidates(db, now)| <= limit
    requires forall w :: !Expired(db, w, now) && !Reconcilable(db, w)
    ensures
      var (r, after) := Startup(db, limit, now);
      after == db && r.Ok? && r.value.expired == [] && r.value.reconciled == []
  {
    var found := Candidates(db, now);
    forall w <- found ensures !RunningIn(db)(w) { assert CandidateIn(db, now)(w); }
    SelectNone(found, RunningIn(db));
    NothingToSettle(Settlement(db, [], []), found);
  }

  /** Repeating startup recovery at the same instant changes nothing. */
  lemma {:induction false} StartupIdempotent(db: Tables, limit: int, now: int)
    requires Ordered(db) && 1 <= limit <= 100_000 && |Candidates(db, now)| <= limit
    ensures
      var after := Startup(db, limit, now).1;
      var (r, again) := Startup(after, limit, now);
      again == after && r.Ok? && r.value.expired == [] && r.value.reconciled == []
  {
    hide Ordered, Expired, Reconcilable;
    StartupUnfolds(db, limit, now);
    var after := Startup(db, limit, now).1;
    assert after.order == db.order by { StartupExhausts(db, now, 0); }
    forall w: nat ensures !Expired(after, w, now) && !Reconcilable(after, w) { StartupExhausts(db, now, w); }
    forall w <- db.order ensures CandidateIn(after, now)(w) ==> CandidateIn(db, now)(w) { StartupExhausts(db, now, w); }
    SelectFewer(db.order, CandidateIn(after, now), CandidateIn(db, now));
    NothingToRecover(after, limit, now);
  }

  lemma {:induction false} NothingToSettle(s: Settlement, ids: seq<nat>)
    requires forall w <- ids :: w in s.db.rows && s.db.rows[w].state.Uncertain? && !Reconcilable(s.db, w)
    ensures SettleAll(s, ids).db == s.db && SettleAll(s, ids).reconciled == s.reconciled
    decreases |ids|
  {
    if ids != [] { NothingToSettle(SettleOne(s, ids[0]), ids[1..]); }
  }

  // ------------------------------------------------------- recovery keeps it

  lemma {:induction false} ExpireAllKeepsInv(db: Tables, ids: seq<nat>, now: int)
    requires Inv(db)
    ensures Inv(ExpireAll(db, ids, now))
    decreases |ids|
  {
    if ids != [] {
      ExpireKeepsInv(db, ids[0], now);
      ExpireAllKeepsInv(Expire(db, ids[0], now), ids[1..], now);
    }
  }

  lemma {:induction false} ReconcileEachKeepsInv(db: Tables, ids: seq<nat>)
    requires Inv(db)
    ensures Inv(ReconcileEach(db, ids))
    decreases |ids|
  {
    if ids != [] {
      ReconcileKeepsInv(db, ids[0]);
      ReconcileEachKeepsInv(Reconcile(db, ids[0]), ids[1..]);
    }
  }

  /** Startup recovery keeps the store invariant. */
  lemma {:induction false} StartupKeepsInv(db: Tables, limit: int, now: int)
    requires Inv(db)
    ensures Inv(Startup(db, limit, now).1)
  {
    if 1 <= limit <= 100_000 && |Candidates(db, now)| <= limit {
      StartupUnfolds(db, limit, now);
      ExpireAllKeepsInv(db, Select(Candidates(db, now), RunningIn(db)), now);
      ReconcileEachKeepsInv(FencedCandidates(db, now), Candidates(db, now));
    }
  }

  // ------------------------------------------------------------- the report

  /** The report tells the truth about a store: each listed workflow is in the state it is listed with. */
  ghost predicate Truthful(db: Tables, ids: seq<nat>, x: Reconciled) {
    x.workflow in ids && x.workflow in db.rows && db.rows[x.workflow].state == x.state
  }

  ghost predicate StillUnknown(db: Tables, ids: seq<nat>, x: Unresolved) {
    && x.workflow in ids && x.workflow in db.rows && db.rows[x.workflow].state.Uncertain?
    && x.reason.OutcomeUnknown? && !HasEvidence(db, x.workflow)
  }

  lemma {:induction false} SettleOneReports(s: Settlement, w: nat)
    requires Inv(s.db) && w in s.db.rows && s.db.rows[w].state.Uncertain?
    ensures Inv(SettleOne(s, w).db) && forall v | v != w :: SameRow(s.db, SettleOne(s, w).db, v)
    ensures forall x <- SettleOne(s, w).reconciled :: x in s.reconciled || Truthful(SettleOne(s, w).db, [w], x)
    ensures forall x <- SettleOne(s, w).unresolved :: x in s.unresolved || StillUnknown(SettleOne(s, w).db, [w], x)
  {
    ReconcileKeepsInv(s.db, w);
    if HasEvidence(s.db, w) { EvidenceNeverFails(s.db, w); }
    hide Inv, EvidenceOk;
  }

  ghost predicate SameRow(db: Tables, db': Tables, v: nat) {
    && (v in db'.rows <==> v in db.rows) && (v in db.rows ==> db'.rows[v] == db.rows[v])
    && db'.dispatches == db.dispatches
  }

  lemma {:induction false} SettleReports(s: Settlement, ids: seq<nat>)
    requires Inv(s.db) && Unique(ids) && forall w <- ids :: w in s.db.rows && s.db.rows[w].state.Uncertain?
    ensures forall v | v !in ids :: SameRow(s.db, SettleAll(s, ids).db, v)
    ensures forall x <- SettleAll(s, ids).reconciled :: x in s.reconciled || Truthful(SettleAll(s, ids).db, ids, x)
    ensures forall x <- SettleAll(s, ids).unresolved :: x in s.unresolved || StillUnknown(SettleAll(s, ids).db, ids, x)
    decreases |ids|
  {
    hide Inv, SettleOne, HasEvidence;
    if ids != [] {
      var w, rest := ids[0], ids[1..];
      SettleOneReports(s, w);
      forall v <- rest ensures v != w && SameRow(s.db, SettleOne(s, w).db, v) {}
      SettleReports(SettleOne(s, w), rest);
      forall v | v !in ids ensures SameRow(s.db, SettleAll(s, ids).db, v) {
        assert v !in rest && SameRow(s.db, SettleOne(s, w).db, v)
            && SameRow(SettleOne(s, w).db, SettleAll(s, ids).db, v);
      }
      assert SameRow(SettleOne(s, w).db, SettleAll(s, ids).db, w);
      SameEvidence(SettleOne(s, w).db, SettleAll(s, ids).db, w);
    }
  }

  lemma {:induction false} SameEvidence(db: Tables, db': Tables, w: nat)
    requires SameRow(db, db', w)
    ensures HasEvidence(db', w) == HasEvidence(db, w)
  {}

  /** A workflow is listed: with the state it was reconciled to, or among the unresolved. */
  ghost predicate Listed(s: Settlement, w: nat) {
    (exists x <- s.reconciled :: x.workflow == w) || exists x <- s.unresolved :: x.workflow == w
  }

  lemma {:induction false} SettleLists(s: Settlement, ids: seq<nat>)
    ensures |SettleAll(s, ids).reconciled| + |SettleAll(s, ids).unresolved|
         == |s.reconciled| + |s.unresolved| + |ids|
    ensures s.reconciled <= SettleAll(s, ids).reconciled && s.unresolved <= SettleAll(s, ids).unresolved
    ensures forall w <- ids :: Listed(SettleAll(s, ids), w)
    decreases |ids|
  {
    hide CommitResult, HasEvidence, EvidenceOk;
    if ids != [] {
      var one := SettleOne(s, ids[0]);
      SettleLists(one, ids[1..]);
      assert Listed(one, ids[0]) by {
        assert |one.reconciled| > |s.reconciled| ==> one.reconciled[|s.reconciled|].workflow == ids[0];
        assert |one.unresolved| > |s.unresolved| ==> one.unresolved[|s.unresolved|].workflow == ids[0];
      }
      assert Listed(SettleAll(s, ids), ids[0]);
    }
  }

  /** The report is complete: each scanned workflow is listed exactly once, as reconciled or as unresolved, and the
      expired ones are those that were running. */
  lemma {:induction false} StartupReportIsComplete(db: Tables, limit: int, now: int)
    requires 1 <= limit <= 100_000 && |Candidates(db, now)| <= limit
    ensures
      var r := Startup(db, limit, now).0;
      && r.Ok? && r.value.scanned == |Candidates(db, now)| == |r.value.reconciled| + |r.value.unresolved|
      && (forall w <- Candidates(db, now) ::
            || (exists x <- r.value.reconciled :: x.workflow == w)
            || (exists x <- r.value.unresolved :: x.workflow == w))
      && (forall w :: w in r.value.expired <==> w in Candidates(db, now) && db.rows[w].state == Running)
  {
    var found := Candidates(db, now);
    var start := Settlement(FencedCandidates(db, now), [], []);
    SettleLists(start, found);
    hide ExpireAll;
    forall w <- found
      ensures (exists x <- SettleAll(start, found).reconciled :: x.workflow == w)
        || exists x <- SettleAll(start, found).unresolved :: x.workflow == w
    {
      assert Listed(SettleAll(start, found), w);
    }
  }

  /** What startup recovery reports is true of the store it leaves: reconciled workflows are in the reported state, and
      every unresolved one is uncertain for want of an outcome, never because its evidence is invalid. */
  lemma {:induction false} StartupReportIsTrue(db: Tables, limit: int, now: int)
    requires Inv(db) && 1 <= limit <= 100_000 && |Candidates(db, now)| <= limit
    ensures
      var (r, after) := Startup(db, limit, now);
      && r.Ok?
      && (forall x <- r.value.reconciled :: Truthful(after, Candidates(db, now), x))
      && (forall x <- r.value.unresolved :: StillUnknown(after, Candidates(db, now), x))
  {
    StartupExpires(db, now);
    ExpireAllKeepsInv(db, Select(Candidates(db, now), RunningIn(db)), now);
    SettleReports(Settlement(FencedCandidates(db, now), [], []), Candidates(db, now));
    hide Inv, Truthful, StillUnknown, SettleAll;
  }

  // ----------------------------------------------------- recovery is a run

  function Expirings(ids: seq<nat>, now: int): seq<Call> {
    seq(|ids|, i requires 0 <= i < |ids| => Expiring(ids[i], now))
  }

  function Reconcilings(ids: seq<nat>): seq<Call> {
    seq(|ids|, i requires 0 <= i < |ids| => Reconciling(ids[i]))
  }

  lemma {:induction false} ExpireAllIsRun(judge: Judge, db: Tables, ids: seq<nat>, now: int)
    ensures Run(judge, db, Expirings(ids, now)) == ExpireAll(db, ids, now)
    decreases |ids|
  {
    hide Expire;
    if ids != [] {
      assert Expirings(ids, now)[1..] == Expirings(ids[1..], now);
      ExpireAllIsRun(judge, Expire(db, ids[0], now), ids[1..], now);
    }
  }

  lemma {:induction false} ReconcileEachIsRun(judge: Judge, db: Tables, ids: seq<nat>)
    ensures Run(judge, db, Reconcilings(ids)) == ReconcileEach(db, ids)
    decreases |ids|
  {
    hide Reconcile;
    if ids != [] {
      assert Reconcilings(ids)[1..] == Reconcilings(ids[1..]);
      ReconcileEachIsRun(judge, Reconcile(db, ids[0]), ids[1..]);
    }
  }

  lemma {:induction false} RunConcat(judge: Judge, db: Tables, a: seq<Call>, b: seq<Call>)
    ensures Run(judge, db, a + b) == Run(judge, Run(judge, db, a), b)
    decreases |a|
  {
    hide Apply;
    if a == [] {
      assert a + b == b;
    } else {
      assert (a + b)[0] == a[0] && (a + b)[1..] == a[1..] + b;
      RunConcat(judge, Apply(judge, db, a[0]), a[1..], b);
    }
  }

  /** The row-by-row calls that startup recovery amounts to; none when it is refused. */
  function StartupCalls(db: Tables, limit: int, now: int): seq<Call> {
    var found := Candidates(db, now);
    if !(1 <= limit <= 100_000) || |found| > limit then []
    else Expirings(Select(found, RunningIn(db)), now) + Reconcilings(found)
  }

  /** Startup recovery is a run of single calls, so whatever holds over every run holds across it; so is
      `recover_expired`. */
  lemma {:induction false} StartupIsRun(judge: Judge, db: Tables, limit: int, now: int)
    requires Ordered(db)
    ensures Run(judge, db, StartupCalls(db, limit, now)) == Startup(db, limit, now).1
    ensures forall tenant ::
      Run(judge, db, Expirings(ExpiredOf(db, tenant, now), now)) == RecoverExpired(db, tenant, now)
  {
    forall tenant
      ensures Run(judge, db, Expirings(ExpiredOf(db, tenant, now), now)) == RecoverExpired(db, tenant, now)
    {
      ExpireAllIsRun(judge, db, ExpiredOf(db, tenant, now), now);
    }
    var found := Candidates(db, now);
    if 1 <= limit <= 100_000 && |found| <= limit {
      var expired := Select(found, RunningIn(db));
      ExpireAllIsRun(judge, db, expired, now);
      ReconcileEachIsRun(judge, FencedCandidates(db, now), found);
      RunConcat(judge, db, Expirings(expired, now), Reconcilings(found));
      StartupUnfolds(db, limit, now);
      hide Run, ReconcileEach, ExpireAll, Startup;
    }
  }
}
