/** Runtime observations of deployments: backend/inference/runtime.py. */
module Runtime {

  import opened Outcomes

  datatype DeploymentId = DeploymentId(name: string)

  datatype Liveness = LivenessUnknown | Up | Down

  datatype Readiness = ReadinessUnknown | Ready | NotReady

  datatype Admission = AdmissionUnknown | Accepting | Rejecting

  datatype Capacity = CapacityUnknown | Available | Exhausted

  datatype FailureCode = CapacityExceeded | DeploymentUnavailable | OtherFailure

  /** What a recorded attempt says about its deployment; no failure means it succeeded. */
  datatype Report = Report(deployment: DeploymentId, latency: int, failure: Option<FailureCode>)

  datatype Summary = Summary(
    attempts: nat, failures: nat, rate: Option<real>, lastLatency: Option<int>, lastFailure: Option<FailureCode>)

  /** One probe of a deployment: when it was made, how long it took, and the error it ended in, if any. */
  datatype Probe = Probe(observedAt: int, latency: int, error: Option<string>)

  datatype RuntimeState = RuntimeState(
    liveness: Liveness, readiness: Readiness, admission: Admission, capacity: Capacity,
    expires: Option<int>, probe: Option<Probe>, summary: Summary)

  const Unobserved := RuntimeState(
    LivenessUnknown, ReadinessUnknown, AdmissionUnknown, CapacityUnknown, None, None, Summary(0, 0, None, None, None))

  const WINDOW: nat := 20

  predicate IsStale(state: RuntimeState, now: int) { state.expires.None? || state.expires.value <= now }

  predicate IsRoutable(state: RuntimeState, now: int) {
    && !IsStale(state, now)
    && state.liveness.Up? && state.readiness.Ready? && state.admission.Accepting? && !state.capacity.Exhausted?
  }

  function LastWindow(history: seq<bool>): seq<bool> {
    if |history| <= WINDOW then history else history[|history| - WINDOW..]
  }

  /** The window is the end of the history: all of it up to twenty outcomes, and else the last twenty. */
  lemma {:induction false} WindowIsEnd(history: seq<bool>)
    ensures |LastWindow(history)| == (if |history| < 20 then |history| else 20)
    ensures exists k :: 0 <= k <= |history| && history[k..] == LastWindow(history)
  {
    assert history[0..] == history;
    assert |history| > 20 ==> history[|history| - 20..] == LastWindow(history);
  }

  function Failures(history: seq<bool>): nat {
    if history == [] then 0 else Failures(history[..|history| - 1]) + if history[|history| - 1] then 1 else 0
  }

  /** The failure rate of a window, once there were attempts. */
  function Rate(history: seq<bool>): Option<real> {
    if history == [] then None else Some(Failures(history) as real / |history| as real)
  }

  /** The summary counts exactly this window. */
  predicate Summarises(summary: Summary, history: seq<bool>) {
    summary.attempts == |history| && summary.failures == Failures(history) && summary.rate == Rate(history)
  }

  lemma {:induction false} FailuresBound(history: seq<bool>)
    ensures Failures(history) <= |history|
  {
    if history != [] { FailuresBound(history[..|history| - 1]); }
  }

  /** A failure rate taken from a window is a proportion. */
  lemma {:induction false} RateInUnit(history: seq<bool>)
    requires history != []
    ensures 0.0 <= Rate(history).value <= 1.0
  {
    FailuresBound(history);
  }

  /** Truncating after every attempt keeps exactly the last twenty outcomes. */
  lemma {:induction false} WindowSlides(all: seq<bool>, failed: bool)
    ensures LastWindow(LastWindow(all) + [failed]) == LastWindow(all + [failed])
  {}

  function Observed(state: RuntimeState, failure: Option<FailureCode>): RuntimeState {
    match failure
    case None => state.(admission := Accepting, capacity := Available)
    case Some(CapacityExceeded) => state.(admission := Rejecting, capacity := Exhausted)
    case Some(DeploymentUnavailable) => state.(liveness := Down, readiness := NotReady, admission := Rejecting)
    case Some(OtherFailure) => state
  }

  /** A deployment is up when the probe ended without an error and the engine answered that it is available. */
  function Probed(answer: bool, probe: Probe, ttl: int, summary: Summary): RuntimeState {
    var expires := Some(probe.observedAt + ttl);
    if probe.error.None? && answer
    then RuntimeState(Up, Ready, Accepting, CapacityUnknown, expires, Some(probe), summary)
    else RuntimeState(Down, NotReady, Rejecting, CapacityUnknown, expires, Some(probe), summary)
  }

  /** The failures of a window are its true entries. */
  lemma {:induction false} FailuresAreCounted(history: seq<bool>)
    ensures Failures(history) == multiset(history)[true]
  {
    if history != [] {
      FailuresAreCounted(history[..|history| - 1]);
      assert history == history[..|history| - 1] + [history[|history| - 1]];
    }
  }

  /** A probed deployment is routable exactly when the probe ended well, the engine answered yes, and the observation
      has not run out. */
  lemma {:induction false} ProbeRoutes(answer: bool, probe: Probe, ttl: int, summary: Summary, now: int)
    ensures IsRoutable(Probed(answer, probe, ttl, summary), now) <==>
              probe.error == None && answer && now < probe.observedAt + ttl
    ensures IsStale(Probed(answer, probe, ttl, summary), now) <==> probe.observedAt + ttl <= now
    ensures IsStale(Unobserved, now) && !IsRoutable(Unobserved, now)
  {}

  /** An attempt that found no capacity or no deployment takes it out of routing until it is probed again or succeeds; a
      success puts it back as far as attempts can; any other failure leaves the observation alone. */
  lemma {:induction false} AttemptRoutes(state: RuntimeState, now: int)
    ensures !IsRoutable(Observed(state, Some(CapacityExceeded)), now)
    ensures !IsRoutable(Observed(state, Some(DeploymentUnavailable)), now)
    ensures Observed(state, Some(OtherFailure)) == state
    ensures Observed(state, None).capacity == Available
    ensures IsRoutable(Observed(state, None), now) <==>
              !IsStale(state, now) && state.liveness == Up && state.readiness == Ready
    ensures forall failure ::
      Observed(state, failure).expires == state.expires && Observed(state, failure).summary == state.summary
  {}

  /** A state is routable exactly when it is fresh, up, ready, accepting and not exhausted. */
  lemma {:induction false} RoutableMeans(state: RuntimeState, now: int)
    ensures IsRoutable(state, now) <==>
      && state.expires.Some? && now < state.expires.value
      && state.liveness == Up && state.readiness == Ready && state.admission == Accepting && state.capacity != Exhausted
  {}

  function At<K, V>(m: map<K, V>, k: K, otherwise: V): V { if k in m then m[k] else otherwise }

  /** Append an outcome and delete all but the last twenty. */
  method Slide(history: seq<bool>, failed: bool) returns (out: seq<bool>)
    ensures out == LastWindow(history + [failed])
  {
    out := history + [failed];
    if |out| > WINDOW { out := out[|out| - WINDOW..]; }
  }

  class RuntimeStateStore {
    var states: map<DeploymentId, RuntimeState>
    var histories: map<DeploymentId, seq<bool>>
    /** Every outcome ever recorded, oldest first: true for a failure. */
    ghost var outcomes: map<DeploymentId, seq<bool>>

    ghost predicate RowOk(d: DeploymentId)
      reads this
    {
      && At(histories, d, []) == LastWindow(At(outcomes, d, []))
      && Summarises(At(states, d, Unobserved).summary, LastWindow(At(outcomes, d, [])))
    }

    /** Each summary describes exactly the last twenty outcomes of its deployment. */
    ghost predicate Valid()
      reads this
    {
      forall d {:trigger RowOk(d)} :: RowOk(d)
    }

    constructor (ids: set<DeploymentId>)
      ensures Valid() && outcomes == map[]
      ensures forall d <- ids :: d in states && states[d] == Unobserved
    {
      states, histories, outcomes := map d | d in ids :: Unobserved, map d | d in ids :: [], map[];
    }

    function Get(d: DeploymentId): RuntimeState
      reads this
    {
      At(states, d, Unobserved)
    }

    /** `record_attempt`: slide the window, summarise it, and derive the new state. */
    method RecordAttempt(report: Report)
      requires Valid()
      modifies this
      ensures Valid()
      ensures
        var d := report.deployment;
        var all := At(old(outcomes), d, []) + [report.failure.Some?];
        && outcomes == old(outcomes)[d := all]
        && d in states && Summarises(states[d].summary, LastWindow(all))
        && states[d].summary.lastLatency == Some(report.latency) && states[d].summary.lastFailure == report.failure
        && states == old(states)[d := Observed(old(Get(d)), report.failure).(summary := states[d].summary)]
    {
      hide LastWindow, Observed, Rate;
      var d := report.deployment;
      assert RowOk(d);
      var history := Slide(At(histories, d, []), report.failure.Some?);
      ghost var all := At(outcomes, d, []) + [report.failure.Some?];
      WindowSlides(At(outcomes, d, []), report.failure.Some?);
      var summary := Summary(|history|, Failures(history), Rate(history), Some(report.latency), report.failure);
      assert Summarises(summary, LastWindow(all));
      hide Summarises;
      states := states[d := Observed(Get(d), report.failure).(summary := summary)];
      histories, outcomes := histories[d := history], outcomes[d := all];
      forall x ensures RowOk(x) {
        assert old(RowOk(x));
      }
    }

    /** The collector's probe: the observation is replaced, the attempt summary is kept. */
    method Observe(d: DeploymentId, answer: bool, probe: Probe, ttl: int)
      requires Valid()
      modifies this`states
      ensures Valid()
      ensures states == old(states)[d := Probed(answer, probe, ttl, old(Get(d)).summary)]
    {
      states := states[d := Probed(answer, probe, ttl, Get(d).summary)];
      forall x ensures RowOk(x) {
        assert old(RowOk(x));
      }
    }
  }
}
