/** The bounded local dispatchers: backend/workflows/dispatcher.py. */
module Dispatchers {

  import opened Outcomes
  import opened Text
  import opened WorkflowTables
  import opened WorkflowRuns

  // ------------------------------------------------------------- ready work

  /** `list_ready`: the first READY rows, in row order. */
  function ListReady(db: Tables, order: seq<nat>, limit: nat): seq<nat> {
    if order == [] || limit == 0 then []
    else if order[0] in db.rows && db.rows[order[0]].state.Ready? then [order[0]] + ListReady(db, order[1..], limit - 1)
    else ListReady(db, order[1..], limit)
  }

  /** A bounded listing without repeats of rows that could be claimed at that instant; short only when nothing
      else is READY. */
  lemma {:induction false} ListReadyIsClaimable(db: Tables, order: seq<nat>, limit: nat)
    requires forall i, j | 0 <= i < j < |order| :: order[i] != order[j]
    ensures
      var ready := ListReady(db, order, limit);
      && |ready| <= limit
      && (forall w <- ready :: w in order && w in db.rows && db.rows[w].state.Ready?)
      && (forall i, j | 0 <= i < j < |ready| :: ready[i] != ready[j])
      && (|ready| < limit ==> forall w <- order | w in db.rows && db.rows[w].state.Ready? :: w in ready)
  {
    if order != [] && limit > 0 {
      var rest := order[1..];
      assert order == [order[0]] + rest;
      if order[0] in db.rows && db.rows[order[0]].state.Ready? {
        ListReadyIsClaimable(db, rest, limit - 1);
        assert order[0] !in rest;
      } else {
        ListReadyIsClaimable(db, rest, limit);
      }
    }
  }

  /** The listing keeps the row order and skips no READY row: of the READY rows it lists the first. */
  lemma {:induction false} ListReadyInOrder(db: Tables, order: seq<nat>, limit: nat, i: nat) returns (k: nat)
    requires i < |ListReady(db, order, limit)|
    ensures k < |order| && order[k] == ListReady(db, order, limit)[i]
    ensures
      var earlier := order[..k];
      forall w <- earlier | w in db.rows && db.rows[w].state == Ready :: w in ListReady(db, order, limit)[..i]
  {
    var ready := ListReady(db, order, limit);
    if order[0] in db.rows && db.rows[order[0]].state.Ready? {
      k := 0;
      if i > 0 {
        var l := ListReadyInOrder(db, order[1..], limit - 1, i - 1);
        k := l + 1;
        assert order[..k] == [order[0]] + order[1..][..l];
        assert ready[..i] == [order[0]] + ListReady(db, order[1..], limit - 1)[..i - 1];
      }
    } else {
      var l := ListReadyInOrder(db, order[1..], limit, i);
      k := l + 1;
      assert order[..k] == [order[0]] + order[1..][..l];
    }
  }

  lemma {:induction false} ListingFits(db: Tables, limit: nat)
    requires Ordered(db)
    ensures |ListReady(db, db.order, limit)| <= limit
  {
    ListReadyIsClaimable(db, db.order, limit);
  }

  // ----------------------------------------------------------------- owners

  /** A number as an f-string prints it. */
  function Decimal(n: nat): string { if n < 10 then [Digit(n)] else Decimal(n / 10) + [Digit(n % 10)] }

  lemma {:induction false} DecimalRoundTrip(n: nat)
    ensures Value(Decimal(n)) == n
  {
    var s := Decimal(n);
    if n >= 10 {
      DecimalRoundTrip(n / 10);
      assert s[..|s| - 1] == Decimal(n / 10);
    } else {
      assert s[..|s| - 1] == "";
    }
  }

  function Owner(prefix: string, sequence: nat): string { prefix + ":" + Decimal(sequence) }

  /** No two executions of one dispatcher claim under the same owner. */
  lemma {:induction false} OwnersDiffer(prefix: string, j: nat, k: nat)
    requires j != k
    ensures Owner(prefix, j) != Owner(prefix, k)
  {
    DecimalRoundTrip(j);
    DecimalRoundTrip(k);
    assert Owner(prefix, j)[|prefix| + 1..] == Decimal(j);
    assert Owner(prefix, k)[|prefix| + 1..] == Decimal(k);
  }

  /** An owner is the prefix, a colon and the number, and as good an identifier as its prefix, so no claim is refused
      for its owner. */
  lemma {:induction false} OwnerIsIdentifier(prefix: string, k: nat)
    requires Identifier(prefix)
    ensures
      var owner, n := Owner(prefix, k), |prefix|;
      Identifier(owner) && n + 1 < |owner| && owner[..n + 1] == prefix + ":" && Value(owner[n + 1..]) == k
  {
    var owner, digits := Owner(prefix, k), Decimal(k);
    DecimalRoundTrip(k);
    DecimalEnds(k);
    assert owner[|prefix| + 1..] == digits && owner[0] == prefix[0] && owner[|owner| - 1] == digits[|digits| - 1];
  }

  lemma {:induction false} DecimalEnds(n: nat)
    ensures Decimal(n) != [] && exists k :: 0 <= k < 10 && Decimal(n)[|Decimal(n)| - 1] == Digit(k)
  {}

  // ------------------------------------------------------------- dispatcher

  datatype Lifecycle = New | InService | Stopping | Stopped

  datatype Ending = Completed | ConflictEnding | FailureEnding

  datatype FailureCode = WorkflowConflict | UnexpectedExecutionFailure

  datatype Failure = Failure(workflow: nat, code: FailureCode)

  const RECENT: nat := 100

  function LastRecent(failures: seq<Failure>): seq<Failure> {
    if |failures| <= RECENT then failures else failures[|failures| - RECENT..]
  }

  /** The recent failures are the end of all failures: all of them up to a hundred, and else the last hundred. */
  lemma {:induction false} RecentIsEnd(failures: seq<Failure>)
    ensures |LastRecent(failures)| == (if |failures| < 100 then |failures| else 100)
    ensures exists k :: 0 <= k <= |failures| && failures[k..] == LastRecent(failures)
  {
    assert failures[0..] == failures;
    assert |failures| > 100 ==> failures[|failures| - 100..] == LastRecent(failures);
  }

  /** Which executions, numbered from one, are held and which have returned: all that were launched are one or the
      other. */
  ghost predicate Ledger(sequence: nat, active: set<nat>, ended: set<nat>) {
    && (forall k <- active :: 1 <= k <= sequence) && (forall k <- ended :: 1 <= k <= sequence)
    && sequence == |ended| + |active - ended|
  }

  lemma {:induction false} LedgerLaunches(sequence: nat, active: set<nat>, ended: set<nat>)
    requires Ledger(sequence, active, ended)
    ensures Ledger(sequence + 1, active + {sequence + 1}, ended) && sequence + 1 !in active && sequence + 1 !in ended
    ensures |active + {sequence + 1}| == |active| + 1 && (active !! ended ==> active + {sequence + 1} !! ended)
  {
    var k := sequence + 1;
    assert k !in active && k !in ended;
    assert (active + {k}) - ended == (active - ended) + {k};
  }

  lemma {:induction false} LedgerEnds(sequence: nat, active: set<nat>, ended: set<nat>, k: nat)
    requires Ledger(sequence, active, ended) && k in active - ended
    ensures Ledger(sequence, active, ended + {k}) && |ended + {k}| == |ended| + 1
    ensures active - (ended + {k}) == (active - ended) - {k}
  {
    assert active - (ended + {k}) == (active - ended) - {k};
  }

  lemma {:induction false} LedgerReaps(sequence: nat, active: set<nat>, ended: set<nat>)
    requires Ledger(sequence, active, ended)
    ensures Ledger(sequence, active - ended, ended) && |active - ended| <= |active|
    ensures (active - ended) - ended == active - ended
  {
    SubsetSize(active - ended, active);
    assert (active - ended) - ended == active - ended;
  }

  /** `held` is `before` and every number after `first` up to `last`. */
  ghost predicate Joined(before: set<nat>, first: nat, last: nat, held: set<nat>) {
    forall k :: k in held <==> k in before || first < k <= last
  }

  lemma {:induction false} JoinNone(before: set<nat>, first: nat)
    ensures Joined(before, first, first, before)
  {}

  lemma {:induction false} JoinNext(before: set<nat>, first: nat, last: nat, held: set<nat>)
    requires first <= last && Joined(before, first, last, held)
    ensures Joined(before, first, last + 1, held + {last + 1})
  {}

  /** Executions are known by their sequence number; `ended` are those whose coroutine has returned. */
  class LocalDispatcher {
    const ownerPrefix: string
    const concurrency: nat
    var state: Lifecycle
    var stopRequested: bool
    var sequence: nat
    var dispatched: nat
    var completed: nat
    var conflicts: nat
    var failures: nat
    var recent: seq<Failure>
    var active: set<nat>
    var ended: set<nat>
    ghost var allFailures: seq<Failure>

    ghost predicate Valid()
      reads this
    {
      && 1 <= concurrency <= 64 && |active| <= concurrency
      && Ledger(sequence, active, ended) && dispatched == sequence
      && |ended| == completed + conflicts + failures
      && recent == LastRecent(allFailures) && |allFailures| == conflicts + failures
      && (state.Stopping? ==> stopRequested)
    }

    /** The executions that have started and not ended. */
    ghost function InFlight(): set<nat>
      reads this
    {
      active - ended
    }

    /** Every dispatched execution is counted in exactly one place, and those in flight fit the slots. */
    lemma {:induction false} Accounting()
      requires Valid()
      ensures dispatched == completed + conflicts + failures + |InFlight()| && |InFlight()| <= concurrency
    {
      SubsetSize(active - ended, active);
    }

    constructor (ownerPrefix: string, concurrency: nat)
      requires Identifier(ownerPrefix) && 1 <= concurrency <= 64
      ensures Valid() && state == New && dispatched == 0 && active == {} && allFailures == []
      ensures this.ownerPrefix == ownerPrefix && this.concurrency == concurrency
    {
      this.ownerPrefix, this.concurrency, state, stopRequested := ownerPrefix, concurrency, New, false;
      sequence, dispatched, completed, conflicts, failures := 0, 0, 0, 0, 0;
      recent, active, ended, allFailures := [], {}, {}, [];
    }

    method StartService() returns (ok: bool)
      requires Valid()
      modifies this`state
      ensures Valid() && ok == (old(state) == New) && state == if ok then InService else old(state)
    {
      if state != New { return false; }
      state := InService;
      return true;
    }

    /** `stop` up to where it awaits the coordinator. */
    method RequestStop()
      requires Valid()
      modifies this`state, this`stopRequested
      ensures Valid()
      ensures state == if old(state) == New || old(state) == Stopped then Stopped else Stopping
      ensures stopRequested == (old(stopRequested) || state == Stopping)
    {
      if state == New { state := Stopped; return; }
      if state == Stopped { return; }
      state, stopRequested := Stopping, true;
    }

    method Reap()
      requires Valid()
      modifies this`active
      ensures Valid() && active == old(active) - ended
    {
      LedgerReaps(sequence, active, ended);
      hide Ledger;
      active := active - ended;
    }

    /** One turn of the coordinator's loop up to its wait: launch an execution for each listed workflow while
        slots last. */
    method Intake(db: Tables) returns (launched: seq<(nat, nat)>)
      requires Valid() && !stopRequested && Ordered(db)
      modifies this`active, this`sequence, this`dispatched
      ensures Valid() && Joined(old(InFlight()), old(sequence), sequence, InFlight())
      ensures
        var slots := concurrency - |old(InFlight())|;
        && slots >= 0 && |launched| == sequence - old(sequence) && |launched| == |ListReady(db, db.order, slots)|
        && forall i | 0 <= i < |launched| :: launched[i] == (ListReady(db, db.order, slots)[i], old(sequence) + i + 1)
    {
      hide Ledger, LastRecent, ListReady, Ordered, Joined;
      launched := [];
      Reap();
      var slots := concurrency - |active|;
      var ready := ListReady(db, db.order, slots);
      ListingFits(db, slots);
      JoinNone(active, sequence);
      for i := 0 to |ready|
        invariant Valid() && sequence == old(sequence) + i && |active| == concurrency - slots + i
        invariant active !! ended && Joined(old(InFlight()), old(sequence), sequence, active)
        invariant |launched| == i && forall j | 0 <= j < i :: launched[j] == (ready[j], old(sequence) + j + 1)
      {
        JoinNext(old(InFlight()), old(sequence), sequence, active);
        Launch();
        launched := launched + [(ready[i], sequence)];
      }
      assert InFlight() == active;
    }

    method Launch()
      requires Valid() && |active| < concurrency && active !! ended
      modifies this`active, this`sequence, this`dispatched
      ensures Valid() && sequence == old(sequence) + 1 && active == old(active) + {sequence}
      ensures |active| == |old(active)| + 1 && active !! ended
    {
      hide Ledger, LastRecent;
      LedgerLaunches(sequence, active, ended);
      var held := active + {sequence + 1};
      sequence, active, dispatched := sequence + 1, held, dispatched + 1;
    }

    /** `_execute`'s handlers: an execution ends and is counted once. */
    method EndExecution(k: nat, workflow: nat, how: Ending)
      requires Valid() && k in InFlight()
      modifies this`completed, this`conflicts, this`failures, this`recent, this`allFailures, this`ended
      ensures Valid() && InFlight() == old(InFlight()) - {k} && ended == old(ended) + {k}
      ensures completed == old(completed) + (if how.Completed? then 1 else 0)
      ensures conflicts == old(conflicts) + (if how.ConflictEnding? then 1 else 0)
      ensures failures == old(failures) + (if how.FailureEnding? then 1 else 0)
      ensures allFailures == old(allFailures) +
        match how {
          case Completed => []
          case ConflictEnding => [Failure(workflow, WorkflowConflict)]
          case FailureEnding => [Failure(workflow, UnexpectedExecutionFailure)]
        }
    {
      hide Ledger, LastRecent;
      LedgerEnds(sequence, active, ended, k);
      ended := ended + {k};
      match how {
        case Completed => completed := completed + 1;
        case ConflictEnding =>
          conflicts := conflicts + 1;
          RecordFailure(Failure(workflow, WorkflowConflict));
        case FailureEnding =>
          failures := failures + 1;
          RecordFailure(Failure(workflow, UnexpectedExecutionFailure));
      }
    }

    method RecordFailure(f: Failure)
      requires recent == LastRecent(allFailures)
      modifies this`recent, this`allFailures
      ensures allFailures == old(allFailures) + [f] && recent == LastRecent(allFailures)
    {
      recent, allFailures := recent + [f], allFailures + [f];
      if |recent| > RECENT { recent := recent[|recent| - RECENT..]; }
    }

    /** The coordinator's exit: it has waited for every active execution, so every dispatch is accounted for. */
    method Drain()
      requires Valid() && stopRequested && InFlight() == {}
      modifies this`active, this`state
      ensures Valid() && state == Stopped && active == {} && dispatched == completed + conflicts + failures
    {
      Accounting();
      Reap();
      state := Stopped;
    }
  }

  /** The checks a new dispatcher makes. */
  method OpenDispatcher(ownerPrefix: string, concurrency: int) returns (d: LocalDispatcher?)
    ensures d != null <==> Identifier(ownerPrefix) && 1 <= concurrency <= 64
    ensures d != null ==> fresh(d) && d.Valid() && d.state == New && d.dispatched == 0 && d.concurrency == concurrency
  {
    if !Identifier(ownerPrefix) || concurrency < 1 || 64 < concurrency { return null; }
    d := new LocalDispatcher(ownerPrefix, concurrency);
  }

  lemma {:induction false} SubsetSize<T>(a: set<T>, b: set<T>)
    requires a <= b
    ensures |a| <= |b|
  {
    assert b == a + (b - a);
  }
}
