/** The routing policy and the order it gives the router: backend/inference/policy.py and `_ordered_deployments`. */
module Ranking {

  import opened Outcomes
  import opened Capabilities
  import opened Runtime

  datatype Class = UnknownClass | High | Medium | Low

  datatype Profile = Profile(cost: Class, latency: Class, textSuitability: int, chatSuitability: int)

  /** What the profile constructor enforces. */
  predicate ProfileOk(p: Profile) { -10 <= p.textSuitability <= 10 && -10 <= p.chatSuitability <= 10 }

  datatype Deployment = Deployment(
      id: DeploymentId, engine: string, capabilities: DeploymentCapabilities, profile: Profile)

  datatype PolicyRuntime = PolicyRuntime(routable: bool, isFresh: bool, rate: Option<real>, capacityAvailable: bool)

  datatype Candidate = Candidate(deployment: Deployment, index: nat, runtime: Option<PolicyRuntime>)

  function LowerChar(c: char): char { if 'A' <= c <= 'Z' then c - 'A' + 'a' else c }

  function Lower(s: string): string { seq(|s|, i requires 0 <= i < |s| => LowerChar(s[i])) }

  predicate Preferred(d: Deployment, preferred: Option<string>) {
    preferred.Some? && Lower(d.engine) == Lower(preferred.value)
  }

  // ------------------------------------------------------------------ scores

  /** Python's `round`: halves go to the even neighbour. */
  function Round(x: real): int {
    var below := x.Floor;
    var part := x - below as real;
    if part < 0.5 || (part == 0.5 && below % 2 == 0) then below else below + 1
  }

  function ClassScore(c: Class): int { if c.Low? then 10 else if c.Medium? then 5 else 0 }

  function ContextScore(task: Task, caps: DeploymentCapabilities): int {
    if task.requirements.contextTokens.None? || caps.maxContext.None? then 0
    else if caps.maxContext.value.value >= task.requirements.contextTokens.value * 2 then 10 else 5
  }

  function RuntimeScore(r: PolicyRuntime): int {
    (if r.routable then 20 else 0) + (if r.isFresh then 5 else 0)
    + (if r.rate.Some? then Round(20.0 * (1.0 - r.rate.value)) else 0) + (if r.capacityAvailable then 10 else 0)
  }

  function Suitability(task: Task, p: Profile): int {
    if task.kind.TextTask? then p.textSuitability else p.chatSuitability
  }

  function Score(task: Task, c: Candidate, preferred: Option<string>): int {
    var p := c.deployment.profile;
    (if Preferred(c.deployment, preferred) then 100 else 0)
    + (if c.runtime.Some? then RuntimeScore(c.runtime.value) else 0)
    + ContextScore(task, c.deployment.capabilities) + ClassScore(p.cost) + ClassScore(p.latency) + Suitability(task, p)
  }

  datatype ComponentName = Preference | IsReady | Freshness | Reliability | Slack | ContextHeadroom | Cost | Latency
    | TaskSuitability

  datatype Component = Component(name: ComponentName, value: int)

  function Sum(components: seq<Component>): int {
    if components == [] then 0 else Sum(components[..|components| - 1]) + components[|components| - 1].value
  }

  method Add(components: seq<Component>, name: ComponentName, value: int) returns (out: seq<Component>)
    ensures |out| == |components| + 1 && Sum(out) == Sum(components) + value
    ensures components <= out && out[|components|] == Component(name, value)
  {
    out := components + [Component(name, value)];
    assert out[..|components|] == components;
  }

  /** The four entries that report the observed state, from place `at` on. */
  predicate RuntimeEntries(components: seq<Component>, at: nat, runtime: Option<PolicyRuntime>) {
    && at + 4 <= |components|
    && components[at] == Component(IsReady, if runtime.Some? && runtime.value.routable then 20 else 0)
    && components[at + 1] == Component(Freshness, if runtime.Some? && runtime.value.isFresh then 5 else 0)
    && components[at + 2].name == Reliability
    && components[at + 2].value
       == (if runtime.Some? && runtime.value.rate.Some? then Round(20.0 * (1.0 - runtime.value.rate.value)) else 0)
    && components[at + 3] == Component(Slack, if runtime.Some? && runtime.value.capacityAvailable then 10 else 0)
  }

  method AddRuntime(components: seq<Component>, runtime: Option<PolicyRuntime>) returns (out: seq<Component>)
    ensures |out| == |components| + 4 && components <= out
    ensures Sum(out) == Sum(components) + if runtime.Some? then RuntimeScore(runtime.value) else 0
    ensures RuntimeEntries(out, |components|, runtime)
  {
    hide Round, Sum;
    out := Add(components, IsReady, if runtime.Some? && runtime.value.routable then 20 else 0);
    out := Add(out, Freshness, if runtime.Some? && runtime.value.isFresh then 5 else 0);
    var failure := 0;
    if runtime.Some? && runtime.value.rate.Some? { failure := Round(20.0 * (1.0 - runtime.value.rate.value)); }
    out := Add(out, Reliability, failure);
    out := Add(out, Slack, if runtime.Some? && runtime.value.capacityAvailable then 10 else 0);
  }

  /** `_score`: nine components, appended one by one; the total is their sum. */
  method ScoreCandidate(task: Task, c: Candidate, preferred: Option<string>)
    returns (components: seq<Component>, total: int)
    ensures |components| == 9 && total == Sum(components) == Score(task, c, preferred)
    ensures components[0] == Component(Preference, if Preferred(c.deployment, preferred) then 100 else 0)
    ensures RuntimeEntries(components, 1, c.runtime)
    ensures components[5] == Component(ContextHeadroom, ContextScore(task, c.deployment.capabilities))
    ensures components[6] == Component(Cost, ClassScore(c.deployment.profile.cost))
    ensures components[7] == Component(Latency, ClassScore(c.deployment.profile.latency))
    ensures components[8] == Component(TaskSuitability, Suitability(task, c.deployment.profile))
  {
    hide Preferred, RuntimeScore, ContextScore, ClassScore, Suitability;
    var p := c.deployment.profile;
    components := [];
    assert Sum(components) == 0;
    hide Sum;
    components := Add(components, Preference, if Preferred(c.deployment, preferred) then 100 else 0);
    components := AddRuntime(components, c.runtime);
    components := Add(components, ContextHeadroom, ContextScore(task, c.deployment.capabilities));
    components := Add(components, Cost, ClassScore(p.cost));
    components := Add(components, Latency, ClassScore(p.latency));
    components := Add(components, TaskSuitability, Suitability(task, p));
    total := Sum(components);
  }

  // ----------------------------------------------------------------- bounds

  predicate RateOk(r: PolicyRuntime) { r.rate.Some? ==> 0.0 <= r.rate.value <= 1.0 }

  predicate CandidateOk(c: Candidate) {
    ProfileOk(c.deployment.profile) && (c.runtime.Some? ==> RateOk(c.runtime.value))
  }

  lemma {:induction false} RuntimeScoreBounds(r: PolicyRuntime)
    requires RateOk(r)
    ensures 0 <= RuntimeScore(r) <= 55
  {
    if r.rate.Some? {
      var x := 20.0 * (1.0 - r.rate.value);
      assert 0.0 <= x <= 20.0;
      assert 0 <= x.Floor <= 20 && (x.Floor == 20 ==> x == 20.0);
    }
  }

  lemma {:induction false} ScoreBounds(task: Task, c: Candidate, preferred: Option<string>)
    requires CandidateOk(c)
    ensures
      var rest := Score(task, c, preferred) - ContextScore(task, c.deployment.capabilities);
      if Preferred(c.deployment, preferred) then 90 <= rest <= 185 else -10 <= rest <= 85
  {
    if c.runtime.Some? { RuntimeScoreBounds(c.runtime.value); }
    hide RuntimeScore, Preferred;
  }

  /** An eligible preferred candidate never scores below an eligible other one; the two bounds meet at 95. */
  lemma {:induction false} PreferredScoresAtLeast(
      task: Task, a: Candidate, clockA: Clock, b: Candidate, clockB: Clock, preferred: Option<string>)
    requires CandidateOk(a) && CandidateOk(b)
    requires Eligible(task, a.deployment.capabilities, clockA) && Eligible(task, b.deployment.capabilities, clockB)
    requires Preferred(a.deployment, preferred) && !Preferred(b.deployment, preferred)
    ensures Score(task, a, preferred) >= Score(task, b, preferred)
  {
    ScoreBounds(task, a, preferred);
    ScoreBounds(task, b, preferred);
    assert Problem(task, a.deployment.capabilities, clockA, ContextRequired).None?;
    assert Problem(task, b.deployment.capabilities, clockB, ContextRequired).None?;
    hide Score, Preferred;
  }

  /** Two eligible candidates, one of the preferred engine and one not, with the same score. */
  ghost predicate Tie(task: Task, a: Candidate, b: Candidate, clock: Clock, preferred: Option<string>) {
    && CandidateOk(a) && CandidateOk(b)
    && Eligible(task, a.deployment.capabilities, clock) && Eligible(task, b.deployment.capabilities, clock)
    && Preferred(a.deployment, preferred) && !Preferred(b.deployment, preferred)
    && Score(task, a, preferred) == Score(task, b, preferred)
  }

  /** The margin is zero: such a tie exists, so the registration index has to decide. */
  lemma {:induction false} TieIsReached()
    ensures exists task, a, b, clock, preferred :: Tie(task, a, b, clock, preferred)
  {
    var task := Task(TextTask, Requirements(None, Some(100), false, false, None, None, None, false));
    var caps := DeploymentCapabilities(
      Some(Claim({TextTask}, None)), None, Some(Claim(100, None)), None, None, None, None, None, None);
    var wide := caps.(maxContext := Some(Claim(200, None)));
    var a := Candidate(Deployment(DeploymentId("a"), "a", caps, Profile(High, High, -10, 0)), 0, None);
    var runtime := PolicyRuntime(true, true, Some(0.0), true);
    var b := Candidate(Deployment(DeploymentId("b"), "b", wide, Profile(Low, Low, 10, 0)), 1, Some(runtime));
    var preferred := Some("a");
    assert Lower("b")[0] == 'b' && Lower("a")[0] == 'a';
    assert Preferred(a.deployment, preferred) && !Preferred(b.deployment, preferred);
    assert Round(20.0) == 20;
    assert RuntimeScore(runtime) == 55;
    assert Score(task, a, preferred) == 95 == Score(task, b, preferred);
    assert Tie(task, a, b, (q: Requirement) => 0, preferred);
  }

  // ---------------------------------------------------------------- ranking

  datatype Entry = Entry(candidate: Candidate, total: int)

  /** The sort key: higher total first, earlier registration first on a tie. */
  predicate Ahead(a: Entry, b: Entry) {
    a.total > b.total || (a.total == b.total && a.candidate.index <= b.candidate.index)
  }

  predicate Sorted(entries: seq<Entry>) { forall i, j | 0 <= i < j < |entries| :: Ahead(entries[i], entries[j]) }

  function Candidates(entries: seq<Entry>): seq<Candidate> {
    seq(|entries|, i requires 0 <= i < |entries| => entries[i].candidate)
  }

  function Deployments(entries: seq<Entry>): seq<Deployment> {
    seq(|entries|, i requires 0 <= i < |entries| => entries[i].candidate.deployment)
  }

  function Offered(candidates: seq<Candidate>): seq<Deployment> {
    seq(|candidates|, i requires 0 <= i < |candidates| => candidates[i].deployment)
  }

  predicate Scored(entries: seq<Entry>, task: Task, preferred: Option<string>) {
    forall i | 0 <= i < |entries| :: entries[i].total == Score(task, entries[i].candidate, preferred)
  }

  method InsertEntry(e: Entry, entries: seq<Entry>) returns (out: seq<Entry>, k: nat)
    requires Sorted(entries)
    ensures Sorted(out) && k <= |entries| && out == entries[..k] + [e] + entries[k..]
  {
    k := 0;
    while k < |entries| && Ahead(entries[k], e)
      invariant k <= |entries| && forall i | 0 <= i < k :: Ahead(entries[i], e)
    {
      k := k + 1;
    }
    out := entries[..k] + [e] + entries[k..];
  }

  lemma {:induction false} CandidatesOfInsert(entries: seq<Entry>, e: Entry, k: nat)
    requires k <= |entries|
    ensures multiset(Candidates(entries[..k] + [e] + entries[k..])) ==
            multiset(Candidates(entries)) + multiset{e.candidate}
  {
    var front, back := Candidates(entries[..k]), Candidates(entries[k..]);
    assert Candidates(entries[..k] + [e] + entries[k..]) == front + [e.candidate] + back;
    assert Candidates(entries) == front + back;
  }

  lemma {:induction false} DeploymentsOfInsert(entries: seq<Entry>, e: Entry, k: nat)
    requires k <= |entries|
    ensures multiset(Deployments(entries[..k] + [e] + entries[k..])) ==
            multiset(Deployments(entries)) + multiset{e.candidate.deployment}
  {
    var front, back := Deployments(entries[..k]), Deployments(entries[k..]);
    assert Deployments(entries[..k] + [e] + entries[k..]) == front + [e.candidate.deployment] + back;
    assert Deployments(entries) == front + back;
  }

  /** `rank_candidates`: score every candidate and sort by the key. */
  method RankCandidates(task: Task, candidates: seq<Candidate>, preferred: Option<string>) returns (ranked: seq<Entry>)
    ensures Sorted(ranked) && Scored(ranked, task, preferred)
    ensures |ranked| == |candidates| && multiset(Candidates(ranked)) == multiset(candidates)
    ensures multiset(Deployments(ranked)) == multiset(Offered(candidates))
  {
    hide Score;
    ranked := [];
    for i := 0 to |candidates|
      invariant Sorted(ranked) && Scored(ranked, task, preferred) && |ranked| == i
      invariant multiset(Candidates(ranked)) == multiset(candidates[..i])
      invariant multiset(Deployments(ranked)) == multiset(Offered(candidates[..i]))
    {
      var _, total := ScoreCandidate(task, candidates[i], preferred);
      var e := Entry(candidates[i], total);
      var next, k := InsertEntry(e, ranked);
      CandidatesOfInsert(ranked, e, k);
      DeploymentsOfInsert(ranked, e, k);
      assert candidates[..i + 1] == candidates[..i] + [candidates[i]];
      assert Offered(candidates[..i + 1]) == Offered(candidates[..i]) + [candidates[i].deployment];
      ranked := next;
    }
    assert candidates[..|candidates|] == candidates;
  }

  // ------------------------------------------------------ ordered deployments

  datatype RouteError = UnknownEnginePreference | CapabilityMismatch

  datatype Routes = Routed(order: seq<Deployment>, decision: seq<Entry>) | Unrouted(error: RouteError)

  /** The registry refuses a second deployment with the same id; profiles validate themselves. */
  predicate RegistryOk(registry: seq<Deployment>) {
    && (forall i, j | 0 <= i < j < |registry| :: registry[i].id != registry[j].id)
    && (forall i | 0 <= i < |registry| :: ProfileOk(registry[i].profile))
  }

  /** What the runtime store holds, if there is one. */
  type RuntimeView = Option<map<DeploymentId, RuntimeState>>

  /** The clock readings made for one deployment: for each claim, for routability and for freshness. */
  datatype Reading = Reading(claims: Clock, routable: int, staleness: int)

  type Clocks = DeploymentId -> Reading

  predicate FitsTask(task: Task, d: Deployment, clocks: Clocks) { Eligible(task, d.capabilities, clocks(d.id).claims) }

  function View(states: RuntimeView, d: DeploymentId, clocks: Clocks): Option<PolicyRuntime> {
    if states.None? then None
    else
      var s := At(states.value, d, Unobserved);
      Some(PolicyRuntime(
             IsRoutable(s, clocks(d).routable), !IsStale(s, clocks(d).staleness),
             s.summary.rate, s.capacity.Available?))
  }

  predicate StatesOk(states: RuntimeView) {
    states.Some? ==> forall d <- states.value :: states.value[d].summary.rate.Some? ==>
        0.0 <= states.value[d].summary.rate.value <= 1.0
  }

  /** The store's summaries always meet `StatesOk`. */
  lemma {:induction false} StoreStatesOk(store: RuntimeStateStore)
    requires store.Valid()
    ensures StatesOk(Some(store.states))
  {
    forall d <- store.states
      ensures store.states[d].summary.rate.Some? ==> 0.0 <= store.states[d].summary.rate.value <= 1.0
    {
      assert store.RowOk(d);
      if store.states[d].summary.rate.Some? { RateInUnit(LastWindow(At(store.outcomes, d, []))); }
    }
  }

  predicate Distinct(ds: seq<Deployment>) { forall i, j | 0 <= i < j < |ds| :: ds[i].id != ds[j].id }

  /** A list comprehension's condition over deployments. */
  function Filter(ds: seq<Deployment>, keep: Deployment -> bool): seq<Deployment> {
    if ds == [] then []
    else
      var last := ds[|ds| - 1];
      Filter(ds[..|ds| - 1], keep) + if keep(last) then [last] else []
  }

  lemma {:induction false} FilterCounts(ds: seq<Deployment>, keep: Deployment -> bool, d: Deployment)
    ensures multiset(Filter(ds, keep))[d] == if keep(d) then multiset(ds)[d] else 0
  {
    if ds != [] {
      FilterCounts(ds[..|ds| - 1], keep, d);
      assert ds == ds[..|ds| - 1] + [ds[|ds| - 1]];
    }
  }

  lemma {:induction false} FilterMember(ds: seq<Deployment>, keep: Deployment -> bool, d: Deployment)
    ensures d in Filter(ds, keep) <==> d in ds && keep(d)
  {
    FilterCounts(ds, keep, d);
    assert d in Filter(ds, keep) <==> d in multiset(Filter(ds, keep));
  }

  lemma {:induction false} FilterDistinct(ds: seq<Deployment>, keep: Deployment -> bool)
    requires Distinct(ds)
    ensures Distinct(Filter(ds, keep))
  {
    if ds != [] {
      var front := ds[..|ds| - 1];
      FilterDistinct(front, keep);
      forall i | 0 <= i < |Filter(front, keep)| ensures Filter(front, keep)[i].id != ds[|ds| - 1].id {
        FilterMember(front, keep, Filter(front, keep)[i]);
      }
    }
  }

  function IsPreferred(preferred: Option<string>): Deployment -> bool { (d: Deployment) => Preferred(d, preferred) }

  function IsOther(preferred: Option<string>): Deployment -> bool { (d: Deployment) => !Preferred(d, preferred) }

  function Fits(task: Task, clocks: Clocks): Deployment -> bool { (d: Deployment) => FitsTask(task, d, clocks) }

  /** Preferred deployments come first. */
  predicate PreferredFirst(ds: seq<Deployment>, preferred: Option<string>) {
    forall i, j | 0 <= i < j < |ds| :: Preferred(ds[j], preferred) ==> Preferred(ds[i], preferred)
  }

  /** The deployments of the preferred engine, then the others, each group in registration order. */
  function Arranged(registry: seq<Deployment>, preferred: Option<string>): seq<Deployment> {
    Filter(registry, IsPreferred(preferred)) + Filter(registry, IsOther(preferred))
  }

  lemma {:induction false} ArrangedIsPermutation(registry: seq<Deployment>, preferred: Option<string>)
    ensures multiset(Arranged(registry, preferred)) == multiset(registry)
  {
    hide Preferred;
    var yes, no := IsPreferred(preferred), IsOther(preferred);
    forall d ensures multiset(Arranged(registry, preferred))[d] == multiset(registry)[d] {
      FilterCounts(registry, yes, d);
      FilterCounts(registry, no, d);
    }
  }

  lemma {:induction false} GroupMembers(registry: seq<Deployment>, preferred: Option<string>)
    ensures forall d <- Filter(registry, IsPreferred(preferred)) :: d in registry && Preferred(d, preferred)
    ensures forall d <- Filter(registry, IsOther(preferred)) :: d in registry && !Preferred(d, preferred)
  {
    hide Preferred;
    forall d ensures d in Filter(registry, IsPreferred(preferred)) <==> d in registry && Preferred(d, preferred) {
      FilterMember(registry, IsPreferred(preferred), d);
    }
    forall d ensures d in Filter(registry, IsOther(preferred)) <==> d in registry && !Preferred(d, preferred) {
      FilterMember(registry, IsOther(preferred), d);
    }
  }

  lemma {:induction false} ArrangedIs(registry: seq<Deployment>, preferred: Option<string>)
    requires Distinct(registry)
    ensures PreferredFirst(Arranged(registry, preferred), preferred) && Distinct(Arranged(registry, preferred))
  {
    var chosen, rest := Filter(registry, IsPreferred(preferred)), Filter(registry, IsOther(preferred));
    GroupMembers(registry, preferred);
    FilterDistinct(registry, IsPreferred(preferred));
    FilterDistinct(registry, IsOther(preferred));
    hide Preferred, Filter;
    forall i, j | 0 <= i < |chosen| && 0 <= j < |rest| ensures chosen[i].id != rest[j].id {
      assert chosen[i] in registry && rest[j] in registry;
    }
  }

  lemma {:induction false} FilterKeepsPreferredFirst(
      ds: seq<Deployment>, keep: Deployment -> bool, preferred: Option<string>)
    requires PreferredFirst(ds, preferred)
    ensures PreferredFirst(Filter(ds, keep), preferred)
  {
    hide Preferred;
    if ds != [] {
      var front, last := ds[..|ds| - 1], ds[|ds| - 1];
      FilterKeepsPreferredFirst(front, keep, preferred);
      var kept := Filter(front, keep);
      forall i | 0 <= i < |kept| ensures Preferred(last, preferred) ==> Preferred(kept[i], preferred) {
        FilterMember(front, keep, kept[i]);
      }
    }
  }

  /** What the ranking is given: the eligible deployments in arranged order. */
  function Shortlist(
      task: Task, registry: seq<Deployment>, preferred: Option<string>, clocks: Clocks): seq<Deployment> {
    Filter(Arranged(registry, preferred), Fits(task, clocks))
  }

  lemma {:induction false} ShortlistIs(task: Task, registry: seq<Deployment>, preferred: Option<string>, clocks: Clocks)
    requires Distinct(registry)
    ensures
      var s := Shortlist(task, registry, preferred, clocks);
      multiset(s) == multiset(Filter(registry, Fits(task, clocks))) && PreferredFirst(s, preferred) && Distinct(s)
  {
    hide Preferred, FitsTask;
    var ds, fits := Arranged(registry, preferred), Fits(task, clocks);
    ArrangedIs(registry, preferred);
    ArrangedIsPermutation(registry, preferred);
    FilterKeepsPreferredFirst(ds, fits, preferred);
    FilterDistinct(ds, fits);
    forall d ensures multiset(Filter(ds, fits))[d] == multiset(Filter(registry, fits))[d] {
      FilterCounts(ds, fits, d);
      FilterCounts(registry, fits, d);
    }
  }

  /** A list comprehension keeps the order. */
  lemma {:induction false} FilterInOrder(ds: seq<Deployment>, keep: Deployment -> bool, i: nat, j: nat)
    returns (p: nat, q: nat)
    requires i < j < |Filter(ds, keep)|
    ensures p < q < |ds| && ds[p] == Filter(ds, keep)[i] && ds[q] == Filter(ds, keep)[j]
  {
    var n := |ds| - 1;
    var front := Filter(ds[..n], keep);
    if j < |front| {
      p, q := FilterInOrder(ds[..n], keep, i, j);
    } else {
      FilterMember(ds[..n], keep, front[i]);
      p :| 0 <= p < n && ds[..n][p] == front[i];
      q := n;
    }
  }

  /** Among deployments that are all preferred, or all not, the shortlist keeps the order of registration. */
  lemma {:induction false} ShortlistInOrder(
      task: Task, registry: seq<Deployment>, preferred: Option<string>, clocks: Clocks, i: nat, j: nat)
    returns (p: nat, q: nat)
    requires
      var s := Shortlist(task, registry, preferred, clocks);
      i < j < |s| && Preferred(s[i], preferred) == Preferred(s[j], preferred)
    ensures
      var s := Shortlist(task, registry, preferred, clocks);
      p < q < |registry| && registry[p] == s[i] && registry[q] == s[j]
  {
    hide Preferred, FitsTask;
    var yes, no := Filter(registry, IsPreferred(preferred)), Filter(registry, IsOther(preferred));
    GroupMembers(registry, preferred);
    var k, l := FilterInOrder(Arranged(registry, preferred), Fits(task, clocks), i, j);
    assert Arranged(registry, preferred) == yes + no;
    hide Filter;
    if l < |yes| {
      p, q := FilterInOrder(registry, IsPreferred(preferred), k, l);
    } else {
      assert no[l - |yes|] in no;
      p, q := FilterInOrder(registry, IsOther(preferred), k - |yes|, l - |yes|);
    }
  }

  /** Of two ranked deployments with equal totals that are both preferred, or both not, the one registered first comes
      first. */
  lemma {:induction false} TieGoesToRegistration(
      task: Task, registry: seq<Deployment>, preferred: Option<string>, states: RuntimeView, clocks: Clocks,
      decision: seq<Entry>, i: nat, j: nat)
    returns (p: nat, q: nat)
    requires RegistryOk(registry) && StatesOk(states)
    requires IsDecision(decision, task, Shortlist(task, registry, preferred, clocks), states, preferred, clocks)
    requires i < j < |decision| && decision[i].total == decision[j].total
    requires Preferred(decision[i].candidate.deployment, preferred) <==>
      Preferred(decision[j].candidate.deployment, preferred)
    ensures p < q < |registry| && registry[p] == decision[i].candidate.deployment
         && registry[q] == decision[j].candidate.deployment
  {
    hide Preferred, FitsTask, Score, Filter, Scored, CandidateOk;
    var s := Shortlist(task, registry, preferred, clocks);
    ShortlistMembers(task, registry, preferred, clocks);
    CandidateIsEnumerated(s, states, clocks, Candidates(decision), i);
    CandidateIsEnumerated(s, states, clocks, Candidates(decision), j);
    assert Ahead(decision[i], decision[j]);
    DistinctPlaces(s, states, clocks, Candidates(decision), i, j);
    p, q := ShortlistInOrder(
      task, registry, preferred, clocks, decision[i].candidate.index, decision[j].candidate.index);
  }

  /** The enumeration lists each place once, so two entries never share one. */
  lemma {:induction false} DistinctPlaces(
      ds: seq<Deployment>, states: RuntimeView, clocks: Clocks, cs: seq<Candidate>, i: nat, j: nat)
    requires i < j < |cs| && multiset(cs) == multiset(Enumerated(ds, states, clocks))
    ensures cs[i].index != cs[j].index
  {
    if cs[i].index == cs[j].index {
      var all := Enumerated(ds, states, clocks);
      assert cs[i] in multiset(all) && cs[j] in multiset(all);
      assert cs[i] in all && cs[j] in all;
      assert cs[i] == cs[j];
      assert cs == cs[..i] + [cs[i]] + cs[i + 1..j] + [cs[j]] + cs[j + 1..];
      assert multiset(cs)[cs[i]] >= 2;
      EnumeratedOnce(ds, states, clocks, cs[i]);
    }
  }

  lemma {:induction false} EnumeratedOnce(ds: seq<Deployment>, states: RuntimeView, clocks: Clocks, c: Candidate)
    ensures multiset(Enumerated(ds, states, clocks))[c] <= 1
  {
    var all := Enumerated(ds, states, clocks);
    if c.index < |ds| {
      assert all == all[..c.index] + [all[c.index]] + all[c.index + 1..];
      assert c !in all[..c.index] && c !in all[c.index + 1..];
    } else {
      assert c !in all;
    }
  }

  function CandidateAt(ds: seq<Deployment>, states: RuntimeView, clocks: Clocks, i: nat): Candidate
    requires i < |ds|
  {
    Candidate(ds[i], i, View(states, ds[i].id, clocks))
  }

  function Enumerated(ds: seq<Deployment>, states: RuntimeView, clocks: Clocks): seq<Candidate> {
    seq(|ds|, i requires 0 <= i < |ds| => CandidateAt(ds, states, clocks, i))
  }

  lemma {:induction false} RankedPreferredFirst(
    task: Task, ds: seq<Deployment>, states: RuntimeView, preferred: Option<string>, clocks: Clocks, ranked: seq<Entry>)
    requires StatesOk(states) && PreferredFirst(ds, preferred)
    requires forall i | 0 <= i < |ds| :: ProfileOk(ds[i].profile) && FitsTask(task, ds[i], clocks)
    requires Sorted(ranked) && Scored(ranked, task, preferred)
    requires multiset(Candidates(ranked)) == multiset(Enumerated(ds, states, clocks))
    ensures PreferredFirst(Deployments(ranked), preferred)
  {
    hide Preferred, FitsTask, Score;
    forall i, j | 0 <= i < j < |ranked| && Preferred(ranked[j].candidate.deployment, preferred)
      ensures Preferred(ranked[i].candidate.deployment, preferred)
    {
      var a, b := ranked[i].candidate, ranked[j].candidate;
      CandidateIsEnumerated(ds, states, clocks, Candidates(ranked), i);
      CandidateIsEnumerated(ds, states, clocks, Candidates(ranked), j);
      assert Ahead(ranked[i], ranked[j]);
      if !Preferred(a.deployment, preferred) { RankedScores(task, b, a, clocks, preferred); }
    }
  }

  lemma {:induction false} RankedScores(
      task: Task, a: Candidate, b: Candidate, clocks: Clocks, preferred: Option<string>)
    requires CandidateOk(a) && CandidateOk(b)
    requires FitsTask(task, a.deployment, clocks) && FitsTask(task, b.deployment, clocks)
    requires Preferred(a.deployment, preferred) && !Preferred(b.deployment, preferred)
    ensures Score(task, a, preferred) >= Score(task, b, preferred)
  {
    var clockA, clockB := clocks(a.deployment.id).claims, clocks(b.deployment.id).claims;
    PreferredScoresAtLeast(task, a, clockA, b, clockB, preferred);
  }

  lemma {:induction false} CandidateIsEnumerated(
    ds: seq<Deployment>, states: RuntimeView, clocks: Clocks, cs: seq<Candidate>, i: nat)
    requires i < |cs| && multiset(cs) == multiset(Enumerated(ds, states, clocks))
    requires StatesOk(states) && forall i | 0 <= i < |ds| :: ProfileOk(ds[i].profile)
    ensures cs[i].index < |ds| && cs[i] == CandidateAt(ds, states, clocks, cs[i].index) && CandidateOk(cs[i])
  {
    assert cs[i] in multiset(cs);
    assert cs[i] in Enumerated(ds, states, clocks);
  }

  predicate UnknownEngine(registry: seq<Deployment>, preferred: Option<string>) {
    preferred.Some? && forall d <- registry :: !Preferred(d, preferred)
  }

  /** One entry per shortlisted deployment, by score and then by place on the shortlist. */
  ghost predicate IsDecision(
    decision: seq<Entry>, task: Task, shortlist: seq<Deployment>, states: RuntimeView,
    preferred: Option<string>, clocks: Clocks)
  {
    && Sorted(decision) && Scored(decision, task, preferred)
    && multiset(Candidates(decision)) == multiset(Enumerated(shortlist, states, clocks))
  }

  method Select(ds: seq<Deployment>, preferred: Option<string>) returns (chosen: seq<Deployment>, rest: seq<Deployment>)
    ensures chosen == Filter(ds, IsPreferred(preferred)) && rest == Filter(ds, IsOther(preferred))
  {
    hide Preferred;
    chosen, rest := [], [];
    for i := 0 to |ds|
      invariant chosen == Filter(ds[..i], IsPreferred(preferred)) && rest == Filter(ds[..i], IsOther(preferred))
    {
      assert ds[..i + 1][..i] == ds[..i];
      if Preferred(ds[i], preferred) { chosen := chosen + [ds[i]]; } else { rest := rest + [ds[i]]; }
    }
    assert ds[..|ds|] == ds;
  }

  method KeepEligible(task: Task, ds: seq<Deployment>, clocks: Clocks) returns (eligible: seq<Deployment>)
    ensures eligible == Filter(ds, Fits(task, clocks))
  {
    hide Eligible;
    eligible := [];
    for i := 0 to |ds|
      invariant eligible == Filter(ds[..i], Fits(task, clocks))
    {
      assert ds[..i + 1][..i] == ds[..i];
      var rejections := EvaluateCapabilities(task, ds[i].capabilities, clocks(ds[i].id).claims);
      if rejections == [] { eligible := eligible + [ds[i]]; }
    }
    assert ds[..|ds|] == ds;
  }

  /** `ordered`: look each ranked id up among the eligible deployments. */
  method LookUp(ds: seq<Deployment>, ranked: seq<Entry>) returns (order: seq<Deployment>)
    requires Distinct(ds) && forall e <- ranked :: e.candidate.deployment in ds
    ensures order == Deployments(ranked)
  {
    var byId: map<DeploymentId, Deployment> := map[];
    for i := 0 to |ds|
      invariant forall k | 0 <= k < i :: ds[k].id in byId && byId[ds[k].id] == ds[k]
    {
      byId := byId[ds[i].id := ds[i]];
    }
    order := [];
    for i := 0 to |ranked|
      invariant order == Deployments(ranked[..i])
    {
      assert ranked[i].candidate.deployment in ds;
      order := order + [byId[ranked[i].candidate.deployment.id]];
    }
    assert ranked[..|ranked|] == ranked;
  }

  /**
    * `_ordered_deployments`: a permutation of exactly the eligible deployments in which every one of the
    * preferred engine precedes every other one; an unknown engine is reported before an empty shortlist.
    */
  method OrderedDeployments(
    task: Task, registry: seq<Deployment>, preferred: Option<string>, states: RuntimeView, clocks: Clocks)
    returns (r: Routes)
    requires RegistryOk(registry) && StatesOk(states)
    ensures r == Unrouted(UnknownEnginePreference) <==> UnknownEngine(registry, preferred)
    ensures r == Unrouted(CapabilityMismatch) <==>
      !UnknownEngine(registry, preferred) && forall d <- registry :: !FitsTask(task, d, clocks)
    ensures r.Routed? ==>
              && r.order != [] && multiset(r.order) == multiset(Filter(registry, Fits(task, clocks)))
              && PreferredFirst(r.order, preferred)
              && IsDecision(r.decision, task, Shortlist(task, registry, preferred, clocks), states, preferred, clocks)
              && r.order == Deployments(r.decision)
  {
    hide Preferred, FitsTask, Score;
    assert Distinct(registry);
    var ds := registry;
    EngineKnownMeans(registry, preferred);
    if preferred.Some? {
      var chosen, rest := Select(registry, preferred);
      if chosen == [] { return Unrouted(UnknownEnginePreference); }
      ds := chosen + rest;
    } else {
      NothingPreferred(registry);
    }
    assert ds == Arranged(registry, preferred);
    var eligible := KeepEligible(task, ds, clocks);
    ShortlistIs(task, registry, preferred, clocks);
    ShortlistMembers(task, registry, preferred, clocks);
    if eligible == [] { return Unrouted(CapabilityMismatch); }
    var ranked := RankEligible(task, eligible, preferred, states, clocks);
    var order := LookUp(eligible, ranked);
    return Routed(order, ranked);
  }

  method RankEligible(
    task: Task, eligible: seq<Deployment>, preferred: Option<string>, states: RuntimeView, clocks: Clocks)
    returns (ranked: seq<Entry>)
    requires StatesOk(states) && PreferredFirst(eligible, preferred)
    requires forall d <- eligible :: ProfileOk(d.profile) && FitsTask(task, d, clocks)
    ensures IsDecision(ranked, task, eligible, states, preferred, clocks)
    ensures multiset(Deployments(ranked)) == multiset(eligible) && PreferredFirst(Deployments(ranked), preferred)
    ensures forall e <- ranked :: e.candidate.deployment in eligible
  {
    hide Preferred, FitsTask, Score, View;
    var candidates := [];
    for i := 0 to |eligible|
      invariant candidates == Enumerated(eligible, states, clocks)[..i]
    {
      candidates := candidates + [CandidateAt(eligible, states, clocks, i)];
    }
    assert candidates == Enumerated(eligible, states, clocks);
    ranked := RankCandidates(task, candidates, preferred);
    RankedPreferredFirst(task, eligible, states, preferred, clocks, ranked);
    assert Offered(candidates) == eligible;
    forall i | 0 <= i < |ranked| ensures ranked[i].candidate.deployment in eligible {
      CandidateIsEnumerated(eligible, states, clocks, Candidates(ranked), i);
    }
  }

  lemma {:induction false} EngineKnownMeans(registry: seq<Deployment>, preferred: Option<string>)
    ensures Filter(registry, IsPreferred(preferred)) == [] <==> forall d <- registry :: !Preferred(d, preferred)
  {
    var chosen := Filter(registry, IsPreferred(preferred));
    forall d ensures d in chosen <==> d in registry && Preferred(d, preferred) {
      FilterMember(registry, IsPreferred(preferred), d);
    }
    assert chosen != [] ==> chosen[0] in chosen;
  }

  /** Without a preference the arrangement is the registry itself. */
  lemma {:induction false} NothingPreferred(registry: seq<Deployment>)
    ensures Arranged(registry, None) == registry
  {
    if registry != [] { NothingPreferred(registry[..|registry| - 1]); }
  }

  lemma {:induction false} ShortlistMembers(
      task: Task, registry: seq<Deployment>, preferred: Option<string>, clocks: Clocks)
    requires RegistryOk(registry)
    ensures
      var s := Shortlist(task, registry, preferred, clocks);
      && (forall d <- s :: d in registry && FitsTask(task, d, clocks) && ProfileOk(d.profile))
      && (s == [] <==> forall d <- registry :: !FitsTask(task, d, clocks))
  {
    hide Preferred, FitsTask;
    var s := Shortlist(task, registry, preferred, clocks);
    ShortlistIs(task, registry, preferred, clocks);
    forall d ensures d in s <==> d in registry && FitsTask(task, d, clocks) {
      FilterMember(registry, Fits(task, clocks), d);
      assert d in s <==> d in multiset(s);
    }
    assert s != [] ==> s[0] in s;
  }
}
