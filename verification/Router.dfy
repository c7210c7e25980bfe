/** The retry and failover loop: `InferenceRouter.generate_task` of backend/inference/router.py. */
module Router {

  import opened Outcomes
  import opened Budgets
  import opened Runtime
  import opened Ranking
  import Capabilities

  datatype Retry = Never | SameDeployment | OtherDeployment

  datatype Failure =
    | EngineFailure(code: FailureCode, retry: Retry)
    | DeadlineExceeded | Cancelled | BudgetExceeded | NoAvailableEngine

  /** How the engine call of one attempt ended. */
  datatype Execution = Success(tokens: Option<nat>) | Failing(code: FailureCode, retry: Retry) | TimedOut
    | CancelledCall

  /** `position` is the place of the deployment in the ranked order. */
  datatype Attempt = Attempt(sequence: nat, position: nat, deployment: DeploymentId, failure: Option<Failure>)

  datatype Exit = Returned(provenance: DeploymentId, tokens: Option<nat>) | Raised(failure: Failure)

  datatype Phase = Looking | Executing | Recording(tokens: Option<nat>) | Done(exit: Exit)

  /** The loop's variables, and where in its body it stands. */
  datatype State = State(index: nat, attempts: seq<Attempt>, last: Option<Failure>, phase: Phase)

  /** What one call is fixed by: the ranked order, the policy, and whether runtime states are kept. */
  datatype Config = Config(
    order: seq<DeploymentId>, circuitOpen: set<DeploymentId>, maxAttempts: nat, backoff: seq<nat>, deadline: int,
    observed: bool)

  /** Everything one pass over the loop body may read from outside: clocks, routability, the engine. */
  datatype Observation = Observation(
    routable: bool, monotonic: int, wall: int, available: Option<bool>, reserveAt: int, execution: Execution,
    backoffAt: int)

  const Start := State(0, [], None, Looking)

  // --------------------------------------------------- the loop as small steps

  function Remaining(cfg: Config, b: Option<Budget>, o: Observation): int {
    var own := cfg.deadline - o.monotonic;
    if b.None? then own else var shared := RemainingTime(b.value, o.wall); if own < shared then own else shared
  }

  predicate Exhausted(cfg: Config, s: State) { s.index >= |cfg.order| || |s.attempts| >= cfg.maxAttempts }

  /** `_backoff` gives up when the delay would outlast the deadline. */
  predicate BackoffTooLong(cfg: Config, attempts: nat, o: Observation)
    requires attempts > 0
  {
    && cfg.backoff != []
    && cfg.backoff[if attempts < |cfg.backoff| then attempts - 1 else |cfg.backoff| - 1] >= cfg.deadline - o.backoffAt
  }

  function Leave(s: State, exit: Exit): State { s.(phase := Done(exit)) }

  predicate Skipped(cfg: Config, s: State, o: Observation)
    requires !Exhausted(cfg, s)
  {
    || cfg.order[s.index] in cfg.circuitOpen
    || (cfg.observed && !o.routable)
  }

  /** From the loop's head up to the reservation of an attempt. */
  function Look(cfg: Config, b: Option<Budget>, s: State, o: Observation): State {
    if Exhausted(cfg, s) then Leave(s, Raised(if s.last.Some? then s.last.value else NoAvailableEngine))
    else if Skipped(cfg, s, o) then s.(index := s.index + 1)
    else if !cfg.observed && (Remaining(cfg, b, o) <= 0 || o.available.None?) then Leave(s, Raised(DeadlineExceeded))
    else if !cfg.observed && !o.available.value then s.(index := s.index + 1)
    else if b.Some? && !CanReserve(b.value, o.reserveAt) then Leave(s, Raised(BudgetExceeded))
    else s.(phase := Executing)
  }

  function AttemptNow(cfg: Config, s: State, failure: Option<Failure>): Attempt
    requires s.index < |cfg.order|
  {
    Attempt(|s.attempts| + 1, s.index, cfg.order[s.index], failure)
  }

  /** From the engine call to the loop's head again, or out. */
  function Finish(cfg: Config, s: State, o: Observation): State
    requires s.index < |cfg.order|
  {
    match o.execution
    case Success(tokens) => s.(attempts := s.attempts + [AttemptNow(cfg, s, None)], phase := Recording(tokens))
    case TimedOut =>
      Leave(s.(attempts := s.attempts + [AttemptNow(cfg, s, Some(DeadlineExceeded))]), Raised(DeadlineExceeded))
    case CancelledCall => Leave(s.(attempts := s.attempts + [AttemptNow(cfg, s, Some(Cancelled))]), Raised(Cancelled))
    case Failing(code, retry) =>
      var f := EngineFailure(code, retry);
      var next := State(
        if retry.OtherDeployment? then s.index + 1 else s.index,
        s.attempts + [AttemptNow(cfg, s, Some(f))], Some(f), Looking);
      if retry.Never? then Leave(next, Raised(f))
      else if BackoffTooLong(cfg, |next.attempts|, o) then Leave(next, Raised(DeadlineExceeded))
      else next
  }

  function Settle(cfg: Config, b: Option<Budget>, s: State): State
    requires s.phase.Recording? && s.index < |cfg.order|
  {
    if b.Some? && s.phase.tokens.Some? && !CanRecord(b.value, s.phase.tokens.value)
    then Leave(s, Raised(BudgetExceeded))
    else Leave(s, Returned(cfg.order[s.index], s.phase.tokens))
  }

  /** One atomic step of a call, and what it does to the budget. */
  function Advance(cfg: Config, b: Option<Budget>, s: State, o: Observation): (State, Option<Budget>)
    requires s.phase.Executing? || s.phase.Recording? ==> s.index < |cfg.order|
  {
    match s.phase
    case Looking =>
      var next := Look(cfg, b, s, o);
      (next, if b.Some? && next.phase.Executing? then Some(Reserve(b.value, o.reserveAt)) else b)
    case Executing => (Finish(cfg, s, o), b)
    case Recording(tokens) =>
      (Settle(cfg, b, s), if b.Some? && tokens.Some? then Some(Record(b.value, tokens.value)) else b)
    case Done(_) => (s, b)
  }

  // --------------------------------------------------------- what a call keeps

  predicate AttemptOk(cfg: Config, a: Attempt, k: nat) {
    && a.sequence == k + 1
    && a.position < |cfg.order| && a.deployment == cfg.order[a.position] && a.deployment !in cfg.circuitOpen
  }

  predicate Retryable(a: Attempt) { a.failure.Some? && a.failure.value.EngineFailure? && !a.failure.value.retry.Never? }

  /** The first place in the order that may be tried after an attempt. */
  function NextPlace(a: Attempt): nat {
    if a.failure.Some? && a.failure.value.EngineFailure? && a.failure.value.retry.OtherDeployment?
    then a.position + 1 else a.position
  }

  /** Numbered from one, in ranked order, never back to a deployment that failed over, and retried only after
      retryable failures. */
  predicate TraceOk(cfg: Config, attempts: seq<Attempt>) {
    && |attempts| <= cfg.maxAttempts
    && (forall k | 0 <= k < |attempts| :: AttemptOk(cfg, attempts[k], k))
    && (forall j, k | 0 <= j < k < |attempts| ::
          && Retryable(attempts[j])
          && NextPlace(attempts[j]) <= attempts[k].position)
  }

  predicate LastFailed(attempts: seq<Attempt>, f: Failure) {
    attempts != [] && attempts[|attempts| - 1].failure == Some(f)
  }

  predicate LastSucceeded(attempts: seq<Attempt>) { attempts != [] && attempts[|attempts| - 1].failure.None? }

  /** What each kind of exit says about the attempts. */
  predicate ExitOk(cfg: Config, s: State, exit: Exit) {
    match exit
    case Returned(provenance, _) => LastSucceeded(s.attempts) && provenance == s.attempts[|s.attempts| - 1].deployment
    case Raised(EngineFailure(code, retry)) =>
      && LastFailed(s.attempts, exit.failure)
      && (retry.Never? || s.index == |cfg.order| || |s.attempts| == cfg.maxAttempts)
    case Raised(NoAvailableEngine) => s.attempts == [] && (s.index == |cfg.order| || cfg.maxAttempts == 0)
    case Raised(Cancelled) => LastFailed(s.attempts, Cancelled)
    case Raised(DeadlineExceeded) => !LastSucceeded(s.attempts)
    case Raised(BudgetExceeded) =>
      LastSucceeded(s.attempts) || forall k | 0 <= k < |s.attempts| :: Retryable(s.attempts[k])
  }

  predicate StateOk(cfg: Config, s: State) {
    && s.index <= |cfg.order|
    && TraceOk(cfg, s.attempts)
    && match s.phase
       case Looking => Continuing(s)
       case Executing => Continuing(s) && !Exhausted(cfg, s) && cfg.order[s.index] !in cfg.circuitOpen
       case Recording(_) =>
         LastSucceeded(s.attempts) && s.attempts[|s.attempts| - 1].position == s.index && s.index < |cfg.order|
       case Done(exit) => ExitOk(cfg, s, exit)
  }

  /** So far every attempt failed retryably, and the next place to try is not before any of them. */
  predicate Continuing(s: State) {
    && (forall k | 0 <= k < |s.attempts| :: Retryable(s.attempts[k]) && NextPlace(s.attempts[k]) <= s.index)
    && (if s.attempts == [] then s.last.None? else s.last.Some? && LastFailed(s.attempts, s.last.value))
  }

  lemma {:induction false} LookKeepsOk(cfg: Config, b: Option<Budget>, s: State, o: Observation)
    requires StateOk(cfg, s) && s.phase.Looking?
    ensures StateOk(cfg, Look(cfg, b, s, o))
  {
    hide Remaining, CanReserve;
  }

  lemma {:induction false} AttemptKeepsTrace(cfg: Config, s: State, failure: Option<Failure>)
    requires StateOk(cfg, s) && s.phase.Executing?
    ensures TraceOk(cfg, s.attempts + [AttemptNow(cfg, s, failure)])
  {}

  lemma {:induction false} FinishKeepsOk(cfg: Config, s: State, o: Observation)
    requires StateOk(cfg, s) && s.phase.Executing?
    ensures StateOk(cfg, Finish(cfg, s, o))
  {
    hide TraceOk;
    match o.execution
    case Success(_) => AttemptKeepsTrace(cfg, s, None);
    case TimedOut => AttemptKeepsTrace(cfg, s, Some(DeadlineExceeded));
    case CancelledCall => AttemptKeepsTrace(cfg, s, Some(Cancelled));
    case Failing(code, retry) => AttemptKeepsTrace(cfg, s, Some(EngineFailure(code, retry)));
  }

  lemma {:induction false} AdvanceKeepsOk(cfg: Config, b: Option<Budget>, s: State, o: Observation)
    requires StateOk(cfg, s)
    ensures StateOk(cfg, Advance(cfg, b, s, o).0)
  {
    match s.phase
    case Looking => LookKeepsOk(cfg, b, s, o);
    case Executing => FinishKeepsOk(cfg, s, o);
    case Recording(_) => {}
    case Done(_) => {}
  }

  /** The attempts a call has taken from the budget: the recorded ones and the one in flight. */
  function Reserved(s: State): nat { |s.attempts| + if s.phase.Executing? then 1 else 0 }

  /** The tokens a call has charged to the budget. */
  function Charged(s: State): nat {
    if s.phase.Done? && s.phase.exit.Returned? && s.phase.exit.tokens.Some? then s.phase.exit.tokens.value else 0
  }

  /** Each step takes from the budget exactly what the call's own record grows by. */
  lemma {:induction false} AdvanceBalances(cfg: Config, b: Budget, s: State, o: Observation)
    requires StateOk(cfg, s) && Within(b)
    ensures
      var (s', b') := Advance(cfg, Some(b), s, o);
      && b'.Some? && b'.value.limits == b.limits && b'.value.deadline == b.deadline && Within(b'.value)
      && b'.value.attempts - b.attempts == Reserved(s') - Reserved(s)
      && b'.value.tokens - b.tokens == Charged(s') - Charged(s)
  {}

  // ----------------------------------------------------- one pass over the loop

  /** The call and its budget. */
  type Point = (State, Option<Budget>)

  /** The loop body once: look, and if an attempt was reserved, execute it and settle its tokens. */
  ghost function Pass(cfg: Config, b: Option<Budget>, s: State, o: Observation): (r: Point)
    requires StateOk(cfg, s)
    ensures StateOk(cfg, r.0)
  {
    AdvanceKeepsOk(cfg, b, s, o);
    var (s1, b1) := Advance(cfg, b, s, o);
    if !s1.phase.Executing? then (s1, b1)
    else
      AdvanceKeepsOk(cfg, b1, s1, o);
      var (s2, b2) := Advance(cfg, b1, s1, o);
      if !s2.phase.Recording? then (s2, b2)
      else
        AdvanceKeepsOk(cfg, b2, s2, o);
        Advance(cfg, b2, s2, o)
  }

  /** The deployment at place `k` is skipped: its circuit is open, or it was seen unroutable or unavailable. */
  predicate PassedOver(cfg: Config, b: Option<Budget>, k: nat, o: Observation)
    requires k < |cfg.order|
  {
    || cfg.order[k] in cfg.circuitOpen
    || (if cfg.observed then !o.routable else Remaining(cfg, b, o) > 0 && o.available == Some(false))
  }

  /** No time is left to find out whether the deployment is available. */
  predicate TooLate(cfg: Config, b: Option<Budget>, k: nat, o: Observation)
    requires k < |cfg.order|
  {
    cfg.order[k] !in cfg.circuitOpen && !cfg.observed && (Remaining(cfg, b, o) <= 0 || o.available.None?)
  }

  predicate Usable(cfg: Config, b: Option<Budget>, k: nat, o: Observation)
    requires k < |cfg.order|
  {
    && cfg.order[k] !in cfg.circuitOpen
    && (if cfg.observed then o.routable else Remaining(cfg, b, o) > 0 && o.available == Some(true))
  }

  /** The deployment is usable and the budget, if there is one, grants an attempt. */
  predicate Granted(cfg: Config, b: Option<Budget>, k: nat, o: Observation)
    requires k < |cfg.order|
  {
    Usable(cfg, b, k, o) && (b.Some? ==> CanReserve(b.value, o.reserveAt))
  }

  /** The budget, after the attempt was reserved, can take the tokens. */
  predicate Affordable(b: Option<Budget>, o: Observation, tokens: Option<nat>) {
    b.Some? && tokens.Some? ==> CanRecord(Reserve(b.value, o.reserveAt), tokens.value)
  }

  /** What must be observed for a pass to leave the loop with this exit. */
  predicate Ends(cfg: Config, b: Option<Budget>, s: State, o: Observation, exit: Exit)
    requires !Exhausted(cfg, s)
  {
    var k := s.index;
    match exit
    case Returned(provenance, tokens) =>
      Granted(cfg, b, k, o) && o.execution == Success(tokens) && Affordable(b, o, tokens) && provenance == cfg.order[k]
    case Raised(BudgetExceeded) =>
      || (Usable(cfg, b, k, o) && b.Some? && !CanReserve(b.value, o.reserveAt))
      || (Granted(cfg, b, k, o) && o.execution.Success? && !Affordable(b, o, o.execution.tokens))
    case Raised(DeadlineExceeded) =>
      || TooLate(cfg, b, k, o)
      || (Granted(cfg, b, k, o) && o.execution.TimedOut?)
      || (Granted(cfg, b, k, o) && o.execution.Failing? && !o.execution.retry.Never?
          && BackoffTooLong(cfg, |s.attempts| + 1, o))
    case Raised(Cancelled) => Granted(cfg, b, k, o) && o.execution.CancelledCall?
    case Raised(EngineFailure(code, retry)) =>
      Granted(cfg, b, k, o) && o.execution == Failing(code, retry) && retry.Never?
    case Raised(NoAvailableEngine) => false
  }

  predicate Going(cfg: Config, s: State) { s.phase.Looking? && !Exhausted(cfg, s) }

  /** A pass leaves the loop with an exit exactly when that exit's observations were made. */
  lemma {:induction false} PassEnds(cfg: Config, b: Option<Budget>, s: State, o: Observation, exit: Exit)
    requires StateOk(cfg, s) && Going(cfg, s)
    ensures Pass(cfg, b, s, o).0.phase == Done(exit) <==> Ends(cfg, b, s, o, exit)
    ensures Pass(cfg, b, s, o).0.phase.Looking? || Pass(cfg, b, s, o).0.phase.Done?
  {
    hide StateOk, Remaining;
  }

  /** A pass that goes on skipped a place or recorded a retryable failure. */
  lemma {:induction false} PassGoesOn(cfg: Config, b: Option<Budget>, s: State, o: Observation)
    requires StateOk(cfg, s) && Going(cfg, s)
    ensures
      var (s', b') := Pass(cfg, b, s, o);
      && (PassedOver(cfg, b, s.index, o) ==> s' == s.(index := s.index + 1) && b' == b)
      && (s'.phase.Looking? && !PassedOver(cfg, b, s.index, o) ==> |s'.attempts| == |s.attempts| + 1)
  {
    hide StateOk, Remaining;
  }

  lemma {:induction false} PassBalances(cfg: Config, b: Budget, s: State, o: Observation)
    requires StateOk(cfg, s) && Within(b)
    ensures
      var (s', b') := Pass(cfg, Some(b), s, o);
      && b'.Some? && b'.value.limits == b.limits && b'.value.deadline == b.deadline && Within(b'.value)
      && b'.value.attempts - b.attempts == Reserved(s') - Reserved(s)
      && b'.value.tokens - b.tokens == Charged(s') - Charged(s)
  {
    AdvanceKeepsOk(cfg, Some(b), s, o);
    AdvanceBalances(cfg, b, s, o);
    var (s1, b1) := Advance(cfg, Some(b), s, o);
    if s1.phase.Executing? {
      AdvanceKeepsOk(cfg, b1, s1, o);
      AdvanceBalances(cfg, b1.value, s1, o);
      var (s2, b2) := Advance(cfg, b1, s1, o);
      if s2.phase.Recording? { AdvanceBalances(cfg, b2.value, s2, o); }
    }
    hide Advance, StateOk, Within, Reserved, Charged;
  }

  // ----------------------------------------------------------- one call alone

  /** What the outside world does in each pass over the loop body. */
  type Script = nat -> Observation

  /** The call and its budget after `n` passes of a script, with nobody else using the budget. */
  ghost function Played(cfg: Config, b: Option<Budget>, script: Script, n: nat): (r: Point)
    ensures StateOk(cfg, r.0)
  {
    if n == 0 then (Start, b)
    else
      var (s, b') := Played(cfg, b, script, n - 1);
      Pass(cfg, b', s, script(n - 1))
  }

  /** Over a whole call the budget moves by exactly the attempts made and the tokens returned. */
  lemma {:induction false} PlayedBalances(cfg: Config, b: Budget, script: Script, n: nat)
    requires Within(b)
    ensures
      var (s, b') := Played(cfg, Some(b), script, n);
      && b'.Some? && b'.value.limits == b.limits && b'.value.deadline == b.deadline && Within(b'.value)
      && b'.value.attempts == b.attempts + Reserved(s) && b'.value.tokens == b.tokens + Charged(s)
  {
    hide Pass, Within, StateOk;
    if n > 0 {
      PlayedBalances(cfg, b, script, n - 1);
      var (s, b') := Played(cfg, Some(b), script, n - 1);
      PassBalances(cfg, b'.value, s, script(n - 1));
    }
  }

  ghost predicate GoingAt(cfg: Config, b: Option<Budget>, script: Script, p: nat) {
    Going(cfg, Played(cfg, b, script, p).0)
  }

  /** At pass `p` the script shows what makes the loop leave with this exit. */
  ghost predicate EndsAt(cfg: Config, b: Option<Budget>, script: Script, p: nat, exit: Exit)
    requires GoingAt(cfg, b, script, p)
  {
    Ends(cfg, Played(cfg, b, script, p).1, Played(cfg, b, script, p).0, script(p), exit)
  }

  /** A call that ran for `n` passes stopped there, and with this exit: the loop ran out, or the last pass left it. */
  ghost predicate Stops(cfg: Config, b: Option<Budget>, script: Script, n: nat, exit: Exit) {
    var s := Played(cfg, b, script, n).0;
    && (forall p {:trigger GoingAt(cfg, b, script, p)} | 0 <= p < n :: GoingAt(cfg, b, script, p))
    && (|| s.phase == Done(exit)
        || (s.phase.Looking? && Exhausted(cfg, s)
            && exit == Raised(if s.last.Some? then s.last.value else NoAvailableEngine)))
  }

  /** The first pass at which the script shows a reason to leave is the last one, and its exit is the call's. */
  lemma {:induction false} FirstReasonDecides(
      cfg: Config, b: Option<Budget>, script: Script, n: nat, exit: Exit, p: nat, e: Exit)
    requires Stops(cfg, b, script, n, exit) && p < n && GoingAt(cfg, b, script, p) && EndsAt(cfg, b, script, p, e)
    ensures p == n - 1 && exit == e
  {
    hide Pass, Ends, StateOk;
    var (s, b') := Played(cfg, b, script, p);
    PassEnds(cfg, b', s, script(p), e);
    assert Played(cfg, b, script, p + 1).0.phase == Done(e);
    assert p + 1 < n ==> GoingAt(cfg, b, script, p + 1);
  }

  /** The script decides: a call stops after one number of passes only, and with one exit. */
  lemma {:induction false} ScriptDecides(
      cfg: Config, b: Option<Budget>, script: Script, m: nat, d: Exit, n: nat, e: Exit)
    requires Stops(cfg, b, script, m, d) && Stops(cfg, b, script, n, e)
    ensures m == n && d == e
  {
    hide Played;
    assert m < n ==> GoingAt(cfg, b, script, m);
    assert n < m ==> GoingAt(cfg, b, script, n);
  }

  /** Without a reason in any pass the call ran out of deployments or attempts. */
  lemma {:induction false} LastPassHasReason(cfg: Config, b: Option<Budget>, script: Script, n: nat, exit: Exit)
    requires Stops(cfg, b, script, n, exit)
    ensures
      || (n > 0 && GoingAt(cfg, b, script, n - 1) && EndsAt(cfg, b, script, n - 1, exit))
      || (&& Exhausted(cfg, Played(cfg, b, script, n).0) && Played(cfg, b, script, n).0.phase.Looking? && exit.Raised?
          && (exit.failure.NoAvailableEngine? || exit.failure.EngineFailure?))
  {
    var s := Played(cfg, b, script, n).0;
    if s.phase.Done? {
      assert GoingAt(cfg, b, script, n - 1);
      PassEnds(cfg, Played(cfg, b, script, n - 1).1, Played(cfg, b, script, n - 1).0, script(n - 1), exit);
    } else {
      assert s.last.Some? ==> LastFailed(s.attempts, s.last.value) && Retryable(s.attempts[|s.attempts| - 1]);
    }
  }

  /** After passing over the first `n` places nothing else has happened. */
  lemma {:induction false} PassedOverSoFar(cfg: Config, b: Option<Budget>, script: Script, n: nat)
    requires cfg.maxAttempts > 0 && n <= |cfg.order| && forall k | 0 <= k < n :: PassedOver(cfg, b, k, script(k))
    ensures Played(cfg, b, script, n) == (State(n, [], None, Looking), b)
  {
    hide Pass, PassedOver;
    if n > 0 {
      PassedOverSoFar(cfg, b, script, n - 1);
      PassGoesOn(cfg, b, State(n - 1, [], None, Looking), script(n - 1));
    }
  }

  /** Conversely, a call without an attempt that is still going has passed over every place before its index. */
  lemma {:induction false} NoAttemptMeansPassedOver(cfg: Config, b: Option<Budget>, script: Script, n: nat)
    requires Played(cfg, b, script, n).0.phase.Looking? && Played(cfg, b, script, n).0.attempts == []
    requires forall p {:trigger GoingAt(cfg, b, script, p)} | 0 <= p < n :: GoingAt(cfg, b, script, p)
    ensures n <= |cfg.order| && forall k | 0 <= k < n :: PassedOver(cfg, b, k, script(k))
    ensures Played(cfg, b, script, n) == (State(n, [], None, Looking), b)
  {
    hide Pass, PassedOver;
    if n > 0 {
      assert GoingAt(cfg, b, script, n - 1);
      var (s, b') := Played(cfg, b, script, n - 1);
      PassKeepsAttempts(cfg, b', s, script(n - 1));
      NoAttemptMeansPassedOver(cfg, b, script, n - 1);
      PassGoesOn(cfg, b, s, script(n - 1));
    }
  }

  lemma {:induction false} PassKeepsAttempts(cfg: Config, b: Option<Budget>, s: State, o: Observation)
    requires StateOk(cfg, s)
    ensures s.attempts <= Pass(cfg, b, s, o).0.attempts
  {
    hide StateOk, Remaining;
  }

  /** "No engine available" is reported exactly when the script shows every deployment passed over. */
  lemma {:induction false} NoEngineExactly(cfg: Config, b: Option<Budget>, script: Script, n: nat, exit: Exit)
    requires Stops(cfg, b, script, n, exit) && cfg.maxAttempts > 0
    ensures exit == Raised(NoAvailableEngine) <==> forall k | 0 <= k < |cfg.order| :: PassedOver(cfg, b, k, script(k))
  {
    hide Pass, PassedOver;
    var s := Played(cfg, b, script, n).0;
    if exit == Raised(NoAvailableEngine) {
      LastPassHasReason(cfg, b, script, n, exit);
      assert s.attempts == [] && s.phase.Looking?;
      NoAttemptMeansPassedOver(cfg, b, script, n);
    }
    if forall k | 0 <= k < |cfg.order| :: PassedOver(cfg, b, k, script(k)) {
      AllPassedOver(cfg, b, script, n, exit);
    }
  }

  lemma {:induction false} AllPassedOver(cfg: Config, b: Option<Budget>, script: Script, n: nat, exit: Exit)
    requires Stops(cfg, b, script, n, exit) && cfg.maxAttempts > 0
    requires forall k | 0 <= k < |cfg.order| :: PassedOver(cfg, b, k, script(k))
    ensures exit == Raised(NoAvailableEngine)
  {
    hide Pass, PassedOver;
    var m := if n < |cfg.order| then n else |cfg.order|;
    PassedOverSoFar(cfg, b, script, m);
    assert m < n ==> GoingAt(cfg, b, script, m);
  }

  // ------------------------------------------- what each pass tries and leaves

  /** The time a call has left is the smaller of its own and, if it has a budget, the budget's. */
  lemma {:induction false} RemainingIsSmaller(cfg: Config, b: Option<Budget>, o: Observation)
    ensures
      var own, left := cfg.deadline - o.monotonic, Remaining(cfg, b, o);
      && (b == None ==> left == own)
      && (b.Some? ==>
            var shared := if o.wall < b.value.deadline then b.value.deadline - o.wall else 0;
            left <= own && left <= shared && (left == own || left == shared))
  {}

  /** The n-th failure waits the n-th delay, and the last delay once they are used up; the call gives up when that would
      take at least the time it has left. Without delays it never gives up. */
  lemma {:induction false} BackoffSchedule(cfg: Config, n: nat, o: Observation)
    requires n > 0
    ensures
      var left := cfg.deadline - o.backoffAt;
      && (cfg.backoff == [] ==> !BackoffTooLong(cfg, n, o))
      && (n <= |cfg.backoff| ==> (BackoffTooLong(cfg, n, o) <==> left <= cfg.backoff[n - 1]))
      && (0 < |cfg.backoff| < n ==> (BackoffTooLong(cfg, n, o) <==> left <= cfg.backoff[|cfg.backoff| - 1]))
  {}

  /** What a pass records of the engine's answer. */
  function Seen(x: Execution): Option<Failure> {
    match x
    case Success(_) => None
    case Failing(code, retry) => Some(EngineFailure(code, retry))
    case TimedOut => Some(DeadlineExceeded)
    case CancelledCall => Some(Cancelled)
  }

  /** A pass records one attempt exactly when one was granted: the next number, the deployment at its place, and what
      the engine answered. It moves on by one place exactly when that place was passed over or failed with
      OTHER_DEPLOYMENT; in particular a SAME_DEPLOYMENT failure leaves it where it is. */
  lemma {:induction false} PassTries(cfg: Config, b: Option<Budget>, s: State, o: Observation)
    requires StateOk(cfg, s) && Going(cfg, s)
    ensures
      var (k, s') := (s.index, Pass(cfg, b, s, o).0);
      var granted := Granted(cfg, b, k, o);
      && s'.attempts ==
           s.attempts + (if granted then [Attempt(|s.attempts| + 1, k, cfg.order[k], Seen(o.execution))] else [])
      && s'.index ==
           if PassedOver(cfg, b, k, o) || (granted && o.execution.Failing? && o.execution.retry.OtherDeployment?)
           then k + 1 else k
  {
    hide StateOk, Remaining;
    assert s.attempts + [] == s.attempts;
  }

  /** Some pass found the loop at place `q` and passed it over. */
  ghost predicate PassedAt(cfg: Config, b: Option<Budget>, script: Script, p: nat, q: nat) {
    && q < |cfg.order| && GoingAt(cfg, b, script, p) && Played(cfg, b, script, p).0.index == q
    && PassedOver(cfg, Played(cfg, b, script, p).1, q, script(p))
  }

  ghost predicate WasPassed(cfg: Config, b: Option<Budget>, script: Script, n: nat, q: nat) {
    exists p {:trigger PassedAt(cfg, b, script, p, q)} | 0 <= p < n :: PassedAt(cfg, b, script, p, q)
  }

  predicate FailsOver(a: Attempt) {
    a.failure.Some? && a.failure.value.EngineFailure? && a.failure.value.retry.OtherDeployment?
  }

  predicate RetriesInPlace(a: Attempt) {
    a.failure.Some? && a.failure.value.EngineFailure? && a.failure.value.retry.SameDeployment?
  }

  /** A deployment is left behind only because it was passed over or because an attempt on it failed over. */
  ghost predicate LeftForReason(
      cfg: Config, b: Option<Budget>, script: Script, n: nat, attempts: seq<Attempt>, q: nat) {
    || WasPassed(cfg, b, script, n, q)
    || exists k :: 0 <= k < |attempts| && attempts[k].position == q && FailsOver(attempts[k])
  }

  ghost predicate Justified(cfg: Config, b: Option<Budget>, script: Script, n: nat) {
    var s := Played(cfg, b, script, n).0;
    && (forall q {:trigger LeftForReason(cfg, b, script, n, s.attempts, q)} | 0 <= q < s.index ::
          LeftForReason(cfg, b, script, n, s.attempts, q))
    && (forall k | 0 <= k < |s.attempts| :: s.attempts[k].position <= s.index)
  }

  lemma {:induction false} PassJustified(cfg: Config, b: Option<Budget>, script: Script, n: nat)
    requires Justified(cfg, b, script, n) && GoingAt(cfg, b, script, n)
    ensures Justified(cfg, b, script, n + 1)
  {
    hide Played, Pass, PassedOver, Granted;
    PlayedNext(cfg, b, script, n);
    var (s, b') := Played(cfg, b, script, n);
    var m := n + 1;
    var s' := Played(cfg, b, script, m).0;
    PassTries(cfg, b', s, script(n));
    forall q | 0 <= q < s'.index ensures LeftForReason(cfg, b, script, m, s'.attempts, q) {
      if q < s.index {
        assert LeftForReason(cfg, b, script, n, s.attempts, q);
        ReasonStays(cfg, b, script, n, s.attempts, s'.attempts, q);
      } else if PassedOver(cfg, b', q, script(n)) {
        assert PassedAt(cfg, b, script, n, q);
      } else {
        var k := |s.attempts|;
        assert s'.attempts[k].position == q && FailsOver(s'.attempts[k]);
      }
    }
  }

  lemma {:induction false} ReasonStays(
      cfg: Config, b: Option<Budget>, script: Script, n: nat, attempts: seq<Attempt>, more: seq<Attempt>, q: nat)
    requires LeftForReason(cfg, b, script, n, attempts, q) && attempts <= more
    ensures LeftForReason(cfg, b, script, n + 1, more, q)
  {
    hide PassedAt;
    if !WasPassed(cfg, b, script, n, q) {
      var k :| 0 <= k < |attempts| && attempts[k].position == q && FailsOver(attempts[k]);
      assert more[k] == attempts[k];
    }
  }

  /** Every deployment a call has left behind was left for a reason. */
  lemma {:induction false} PlayedJustified(cfg: Config, b: Option<Budget>, script: Script, n: nat)
    requires forall p {:trigger GoingAt(cfg, b, script, p)} | 0 <= p < n :: GoingAt(cfg, b, script, p)
    ensures Justified(cfg, b, script, n)
  {
    hide Pass;
    if n > 0 {
      PlayedJustified(cfg, b, script, n - 1);
      assert GoingAt(cfg, b, script, n - 1);
      PassJustified(cfg, b, script, n - 1);
    }
  }

  lemma {:induction false} NextIsNotBefore(cfg: Config, attempts: seq<Attempt>, k: nat)
    requires TraceOk(cfg, attempts) && k < |attempts| - 1
    ensures attempts[k].position <= attempts[k + 1].position
  {
    assert NextPlace(attempts[k]) <= attempts[k + 1].position;
  }

  /** A place retried after attempt `k` and then left was not left by failing over. */
  lemma {:induction false} NotFailedOver(cfg: Config, attempts: seq<Attempt>, k: nat, j: nat)
    requires TraceOk(cfg, attempts) && k < |attempts| - 1 && j < |attempts| && RetriesInPlace(attempts[k])
    requires attempts[j].position == attempts[k].position < attempts[k + 1].position
    ensures !FailsOver(attempts[j])
  {
    if j < k { assert NextPlace(attempts[j]) <= attempts[k].position; }
  }

  /** After a SAME_DEPLOYMENT failure the next attempt is on the same deployment, unless that was passed over since. */
  lemma {:induction false} RetriedInPlace(cfg: Config, b: Option<Budget>, script: Script, n: nat, k: nat)
    requires Justified(cfg, b, script, n)
    requires k < |Played(cfg, b, script, n).0.attempts| - 1 && RetriesInPlace(Played(cfg, b, script, n).0.attempts[k])
    ensures
      var attempts := Played(cfg, b, script, n).0.attempts;
      attempts[k + 1].position == attempts[k].position || WasPassed(cfg, b, script, n, attempts[k].position)
  {
    var s := Played(cfg, b, script, n).0;
    assert TraceOk(cfg, s.attempts);
    hide Played, WasPassed, StateOk;
    var q := s.attempts[k].position;
    NextIsNotBefore(cfg, s.attempts, k);
    hide TraceOk;
    if q < s.attempts[k + 1].position {
      assert LeftForReason(cfg, b, script, n, s.attempts, q);
      forall j | 0 <= j < |s.attempts| && s.attempts[j].position == q ensures !FailsOver(s.attempts[j]) {
        NotFailedOver(cfg, s.attempts, k, j);
      }
    }
  }

  // ------------------------------------------------------------------- the loop

  ghost function ValueOf(budget: WorkflowBudget?): Option<Budget>
    reads budget
  {
    if budget == null then None else Some(budget.Value())
  }

  lemma {:induction false} PlayedNext(cfg: Config, b: Option<Budget>, script: Script, n: nat)
    ensures
      var (s, b') := Played(cfg, b, script, n);
      Played(cfg, b, script, n + 1) == Pass(cfg, b', s, script(n))
  {}

  lemma {:induction false} PlayedNothing(cfg: Config, b: Option<Budget>, script: Script)
    ensures Played(cfg, b, script, 0) == (Start, b)
  {}

  /** The loop of `generate_task`: it does what the script makes it do, pass by pass, and stops when that stops. */
  method TryDeployments(cfg: Config, script: Script, budget: WorkflowBudget?)
    returns (exit: Exit, attempts: seq<Attempt>, passes: nat, index: nat)
    modifies budget
    ensures passes <= |cfg.order| + cfg.maxAttempts && Stops(cfg, old(ValueOf(budget)), script, passes, exit)
    ensures
      var (s, b) := Played(cfg, old(ValueOf(budget)), script, passes);
      b == ValueOf(budget) && s.attempts == attempts && s.index == index
  {
    hide Played, StateOk, TraceOk, Continuing, ExitOk, RemainingTime, BackoffTooLong;
    ghost var before := ValueOf(budget);
    var position, last := 0, None;
    attempts, passes := [], 0;
    PlayedNothing(cfg, before, script);
    while position < |cfg.order| && |attempts| < cfg.maxAttempts
      invariant Played(cfg, before, script, passes) == (State(position, attempts, last, Looking), ValueOf(budget))
      invariant forall p {:trigger GoingAt(cfg, before, script, p)} | 0 <= p < passes :: GoingAt(cfg, before, script, p)
      invariant passes <= position + |attempts| && position <= |cfg.order| && |attempts| <= cfg.maxAttempts
      decreases |cfg.order| - position + cfg.maxAttempts - |attempts|
    {
      assert GoingAt(cfg, before, script, passes);
      PlayedNext(cfg, before, script, passes);
      var o := script(passes);
      passes := passes + 1;
      var deployment := cfg.order[position];
      if deployment in cfg.circuitOpen {
        position := position + 1;
        continue;
      }
      if cfg.observed {
        if !o.routable {
          position := position + 1;
          continue;
        }
      } else {
        var remaining := cfg.deadline - o.monotonic;
        if budget != null {
          var shared := budget.RemainingSeconds(o.wall);
          if shared < remaining { remaining := shared; }
        }
        if remaining <= 0 || o.available.None? { return Raised(DeadlineExceeded), attempts, passes, position; }
        if !o.available.value {
          position := position + 1;
          continue;
        }
      }
      if budget != null {
        var granted := budget.ReserveAttempt(o.reserveAt);
        if !granted { return Raised(BudgetExceeded), attempts, passes, position; }
      }
      var sequence := |attempts| + 1;
      match o.execution {
        case TimedOut =>
          attempts := attempts + [Attempt(sequence, position, deployment, Some(DeadlineExceeded))];
          return Raised(DeadlineExceeded), attempts, passes, position;
        case CancelledCall =>
          attempts := attempts + [Attempt(sequence, position, deployment, Some(Cancelled))];
          return Raised(Cancelled), attempts, passes, position;
        case Failing(code, retry) =>
          var failure := EngineFailure(code, retry);
          last := Some(failure);
          attempts := attempts + [Attempt(sequence, position, deployment, last)];
          if retry.Never? { return Raised(failure), attempts, passes, position; }
          if retry.OtherDeployment? { position := position + 1; }
          var tooLong := Backoff(cfg, |attempts|, o);
          if tooLong { return Raised(DeadlineExceeded), attempts, passes, position; }
        case Success(tokens) =>
          attempts := attempts + [Attempt(sequence, position, deployment, None)];
          if budget != null {
            var recorded := Charge(budget, tokens);
            if !recorded { return Raised(BudgetExceeded), attempts, passes, position; }
          }
          return Returned(deployment, tokens), attempts, passes, position;
      }
    }
    return Raised(if last.Some? then last.value else NoAvailableEngine), attempts, passes, position;
  }

  /** An adapter's usage is never negative, so the budget either takes it or is exceeded. */
  method Charge(budget: WorkflowBudget, tokens: Option<nat>) returns (ok: bool)
    modifies budget`outputTokens
    ensures ok == (tokens.Some? ==> CanRecord(old(budget.Value()), tokens.value))
    ensures budget.Value() == if tokens.Some? then Record(old(budget.Value()), tokens.value) else old(budget.Value())
  {
    var r := budget.RecordOutputTokens(tokens);
    ok := r == Ok(true);
  }

  method Backoff(cfg: Config, attempts: nat, o: Observation) returns (tooLong: bool)
    requires attempts > 0
    ensures tooLong == BackoffTooLong(cfg, attempts, o)
  {
    if cfg.backoff == [] { return false; }
    var k := if attempts - 1 < |cfg.backoff| - 1 then attempts - 1 else |cfg.backoff| - 1;
    return cfg.backoff[k] >= cfg.deadline - o.backoffAt;
  }

  // ------------------------------------------------------------ the whole call

  function Ids(order: seq<Deployment>): seq<DeploymentId> { seq(|order|, i requires 0 <= i < |order| => order[i].id) }

  /** The policy's side of a call. */
  datatype Policy = Policy(maxAttempts: nat, backoff: seq<nat>, circuitOpen: set<DeploymentId>)

  datatype Outcome = Refused(error: RouteError)
    | Ended(order: seq<Deployment>, exit: Exit, attempts: seq<Attempt>, passes: nat, index: nat)

  /** Every deployment tried was on the ranked list at its attempt's position. */
  predicate TriedFrom(order: seq<Deployment>, attempts: seq<Attempt>) {
    forall a <- attempts :: a.position < |order| && order[a.position].id == a.deployment
  }

  /** No deployment of the preferred engine is tried after one of another engine. */
  predicate PreferredTriedFirst(order: seq<Deployment>, attempts: seq<Attempt>, preferred: Option<string>)
    requires TriedFrom(order, attempts)
  {
    forall j, k | 0 <= j < k < |attempts| ::
      Preferred(order[attempts[k].position], preferred) ==> Preferred(order[attempts[j].position], preferred)
  }

  lemma {:induction false} TraceFollowsRanking(
      cfg: Config, order: seq<Deployment>, attempts: seq<Attempt>, preferred: Option<string>)
    requires cfg.order == Ids(order) && TraceOk(cfg, attempts) && PreferredFirst(order, preferred)
    ensures TriedFrom(order, attempts) && PreferredTriedFirst(order, attempts, preferred)
  {
    hide Preferred;
    forall k | 0 <= k < |attempts|
      ensures attempts[k].position < |order| && order[attempts[k].position].id == attempts[k].deployment
    {
      assert AttemptOk(cfg, attempts[k], k);
    }
    forall j, k | 0 <= j < k < |attempts| ensures attempts[j].position <= attempts[k].position {
      assert NextPlace(attempts[j]) <= attempts[k].position;
    }
  }

  /** What the script shows is what the call does: its exit has the observations that call for it, the first pass that
      shows a reason to leave decides, and no engine is available exactly when every place was passed over. */
  ghost predicate Answers(cfg: Config, b: Option<Budget>, script: Script, passes: nat, exit: Exit) {
    && Stops(cfg, b, script, passes, exit)
    && (forall p, e {:trigger EndsAt(cfg, b, script, p, e)} | 0 <= p < passes && EndsAt(cfg, b, script, p, e) ::
          p == passes - 1 && exit == e)
    && (|| (passes > 0 && EndsAt(cfg, b, script, passes - 1, exit))
        || (Exhausted(cfg, Played(cfg, b, script, passes).0) && exit.Raised? &&
            (exit.failure.NoAvailableEngine? || exit.failure.EngineFailure?)))
    && (cfg.maxAttempts > 0 ==>
          (exit == Raised(NoAvailableEngine) <==> forall k | 0 <= k < |cfg.order| :: PassedOver(cfg, b, k, script(k))))
  }

  lemma {:induction false} StopsAnswers(cfg: Config, b: Option<Budget>, script: Script, passes: nat, exit: Exit)
    requires Stops(cfg, b, script, passes, exit)
    ensures Answers(cfg, b, script, passes, exit)
  {
    hide Played, Ends, PassedOver;
    LastPassHasReason(cfg, b, script, passes, exit);
    forall p, e | 0 <= p < passes && GoingAt(cfg, b, script, p) && EndsAt(cfg, b, script, p, e)
      ensures p == passes - 1 && exit == e
    {
      FirstReasonDecides(cfg, b, script, passes, exit, p, e);
    }
    if cfg.maxAttempts > 0 { NoEngineExactly(cfg, b, script, passes, exit); }
  }

  /** Deployments are left behind only for a reason, and retried in place after a SAME_DEPLOYMENT failure. */
  ghost predicate Followed(
      cfg: Config, b: Option<Budget>, script: Script, passes: nat, attempts: seq<Attempt>, index: nat) {
    && (forall q {:trigger LeftForReason(cfg, b, script, passes, attempts, q)} | 0 <= q < index ::
          LeftForReason(cfg, b, script, passes, attempts, q))
    && (forall k | 0 <= k < |attempts| - 1 && RetriesInPlace(attempts[k]) ::
          || attempts[k + 1].position == attempts[k].position
          || WasPassed(cfg, b, script, passes, attempts[k].position))
  }

  lemma {:induction false} StopsFollowed(cfg: Config, b: Option<Budget>, script: Script, passes: nat, exit: Exit)
    requires Stops(cfg, b, script, passes, exit)
    ensures
      var s := Played(cfg, b, script, passes).0;
      Followed(cfg, b, script, passes, s.attempts, s.index)
  {
    hide Played;
    PlayedJustified(cfg, b, script, passes);
    var s := Played(cfg, b, script, passes).0;
    forall k | 0 <= k < |s.attempts| - 1 && RetriesInPlace(s.attempts[k])
      ensures s.attempts[k + 1].position == s.attempts[k].position
        || WasPassed(cfg, b, script, passes, s.attempts[k].position)
    {
      RetriedInPlace(cfg, b, script, passes, k);
    }
  }

  function ConfigFor(order: seq<Deployment>, policy: Policy, deadline: int, observed: bool): Config {
    Config(Ids(order), policy.circuitOpen, policy.maxAttempts, policy.backoff, deadline, observed)
  }

  /**
    * `generate_task`: rank, then try deployments in ranked order. For every script it ends within `passes` turns, its
    * exit is the one the script calls for, its attempts are a legal trace over the ranked order, and an exclusive
    * budget moves by exactly that trace.
    */
  method GenerateTask(
    task: Capabilities.Task, registry: seq<Deployment>, preferred: Option<string>, states: RuntimeView,
    clocks: Clocks, policy: Policy, deadline: int, script: Script, budget: WorkflowBudget?) returns (r: Outcome)
    requires RegistryOk(registry) && StatesOk(states)
    requires budget != null ==> Within(budget.Value())
    modifies budget
    ensures r.Refused? ==> ValueOf(budget) == old(ValueOf(budget))
    ensures r == Refused(UnknownEnginePreference) <==> UnknownEngine(registry, preferred)
    ensures r == Refused(CapabilityMismatch) <==>
              !UnknownEngine(registry, preferred) && forall d <- registry :: !FitsTask(task, d, clocks)
    ensures r.Ended? ==>
              var cfg := ConfigFor(r.order, policy, deadline, states.Some?);
              && r.passes <= |r.order| + policy.maxAttempts
              && multiset(r.order) == multiset(Filter(registry, Fits(task, clocks)))
              && Answers(cfg, old(ValueOf(budget)), script, r.passes, r.exit)
              && Followed(cfg, old(ValueOf(budget)), script, r.passes, r.attempts, r.index)
              && r.index <= |r.order| && ExitOk(cfg, State(r.index, r.attempts, None, Done(r.exit)), r.exit)
              && TraceOk(cfg, r.attempts)
              && TriedFrom(r.order, r.attempts) && PreferredTriedFirst(r.order, r.attempts, preferred)
    ensures r.Ended? && budget != null ==>
              && budget.Value().attempts == old(budget.Value().attempts) + |r.attempts| <= budget.limits.maxAttempts
              && budget.Value().tokens == old(budget.Value().tokens)
                + (if r.exit.Returned? && r.exit.tokens.Some? then r.exit.tokens.value else 0)
              && Within(budget.Value())
  {
    hide Preferred, FitsTask, Shortlist, IsDecision, TraceOk, Fits, Filter, Played, Answers, Followed;
    var routes := OrderedDeployments(task, registry, preferred, states, clocks);
    if routes.Unrouted? { return Refused(routes.error); }
    var cfg := ConfigFor(routes.order, policy, deadline, states.Some?);
    ghost var before := ValueOf(budget);
    var exit, attempts, passes, index := TryDeployments(cfg, script, budget);
    StopsAnswers(cfg, before, script, passes, exit);
    StopsFollowed(cfg, before, script, passes, exit);
    StoppedIsOk(cfg, before, script, passes, exit);
    if budget != null {
      PlayedBalances(cfg, before.value, script, passes);
    }
    TraceFollowsRanking(cfg, routes.order, attempts, preferred);
    r := Ended(routes.order, exit, attempts, passes, index);
  }

  /** Where a call stops its attempts are a legal trace that agrees with the exit, and it has nothing in flight. */
  lemma {:induction false} StoppedIsOk(cfg: Config, b: Option<Budget>, script: Script, passes: nat, exit: Exit)
    requires Stops(cfg, b, script, passes, exit)
    ensures
      var s := Played(cfg, b, script, passes).0;
      && s.index <= |cfg.order| && TraceOk(cfg, s.attempts)
      && ExitOk(cfg, State(s.index, s.attempts, None, Done(exit)), exit)
      && Reserved(s) == |s.attempts|
      && Charged(s) == (if exit.Returned? && exit.tokens.Some? then exit.tokens.value else 0)
  {
    hide Played;
  }
}
