/** How the routing order depends on what it is given: the weight of each fact about a deployment. */
module RankingEffects {

  import opened Outcomes
  import opened Capabilities
  import opened Runtime
  import opened Ranking

  function WithProfile(c: Candidate, p: Profile): Candidate { c.(deployment := c.deployment.(profile := p)) }

  function WithCost(c: Candidate, cost: Class): Candidate { WithProfile(c, c.deployment.profile.(cost := cost)) }

  function WithLatency(c: Candidate, latency: Class): Candidate {
    WithProfile(c, c.deployment.profile.(latency := latency))
  }

  // ------------------------------------------------------ the weight of each fact

  /** Low cost is worth five points more than medium, and medium five more than high or unknown. */
  lemma {:induction false} CostCounts(task: Task, c: Candidate, preferred: Option<string>)
    ensures Score(task, WithCost(c, Low), preferred) == Score(task, WithCost(c, Medium), preferred) + 5
    ensures Score(task, WithCost(c, Medium), preferred) == Score(task, WithCost(c, High), preferred) + 5
    ensures Score(task, WithCost(c, UnknownClass), preferred) == Score(task, WithCost(c, High), preferred)
  {
    hide Lower, RuntimeScore;
  }

  lemma {:induction false} LatencyCounts(task: Task, c: Candidate, preferred: Option<string>)
    ensures Score(task, WithLatency(c, Low), preferred) == Score(task, WithLatency(c, Medium), preferred) + 5
    ensures Score(task, WithLatency(c, Medium), preferred) == Score(task, WithLatency(c, High), preferred) + 5
    ensures Score(task, WithLatency(c, UnknownClass), preferred) == Score(task, WithLatency(c, High), preferred)
  {
    hide Lower, RuntimeScore;
  }

  /** Suitability counts one for one, and only the one for the task's kind. */
  lemma {:induction false} SuitabilityCounts(task: Task, c: Candidate, text: int, chat: int, preferred: Option<string>)
    ensures
      var p := c.deployment.profile;
      var other := WithProfile(c, p.(textSuitability := text, chatSuitability := chat));
      Score(task, other, preferred) - Score(task, c, preferred) ==
        match task.kind { case TextTask => text - p.textSuitability case ChatTask => chat - p.chatSuitability }
  {
    hide Lower, RuntimeScore;
  }

  /** The preferred engine is worth a hundred points, whatever the case its name is written in. */
  lemma {:induction false} PreferenceCounts(task: Task, c: Candidate, name: string)
    ensures Score(task, c, Some(name)) - Score(task, c, None) == if SameName(c.deployment.engine, name) then 100 else 0
  {
    PreferredIgnoresCase(c.deployment, name);
    hide Lower, ContextScore, RuntimeScore, SameName;
  }

  /** The same letter, possibly in the other case. */
  predicate SameLetter(c: char, d: char) {
    || c == d
    || ('A' <= c <= 'Z' && d as int == c as int + 32)
    || ('A' <= d <= 'Z' && c as int == d as int + 32)
  }

  predicate SameName(a: string, b: string) { |a| == |b| && forall i | 0 <= i < |a| :: SameLetter(a[i], b[i]) }

  lemma {:induction false} PreferredIgnoresCase(d: Deployment, name: string)
    ensures Preferred(d, Some(name)) <==> SameName(d.engine, name)
    ensures !Preferred(d, None)
  {
    var a, b := d.engine, name;
    forall i | 0 <= i < |a| && i < |b| ensures LowerChar(a[i]) == LowerChar(b[i]) <==> SameLetter(a[i], b[i]) {}
    assert |Lower(a)| == |a| && |Lower(b)| == |b|;
    if Lower(a) == Lower(b) {
      forall i | 0 <= i < |a| ensures SameLetter(a[i], b[i]) { assert Lower(a)[i] == Lower(b)[i]; }
    }
  }

  /** A required context counts ten points with twice the room and five with less; otherwise nothing. */
  lemma {:induction false} ContextCounts(task: Task, c: Candidate, room: Option<Claim<int>>, preferred: Option<string>)
    ensures
      var caps := c.deployment.capabilities;
      var with := c.(deployment := c.deployment.(capabilities := caps.(maxContext := room)));
      var without := c.(deployment := c.deployment.(capabilities := caps.(maxContext := None)));
      Score(task, with, preferred) - Score(task, without, preferred) ==
        match (task.requirements.contextTokens, room) {
          case (Some(needed), Some(claim)) => if 2 * needed <= claim.value then 10 else 5
          case _ => 0
        }
  {
    hide Lower, RuntimeScore, ClassScore, Suitability;
  }

  /** An observed deployment counts twenty points when routable, five when fresh and ten when it has capacity, and its
      reliability; an unobserved one counts nothing. */
  lemma {:induction false} RuntimeCounts(task: Task, c: Candidate, r: PolicyRuntime, preferred: Option<string>)
    ensures
      var base := Score(task, c.(runtime := None), preferred);
      var bare := PolicyRuntime(false, false, None, false);
      && Score(task, c.(runtime := Some(bare)), preferred) == base
      && Score(task, c.(runtime := Some(bare.(routable := true))), preferred) == base + 20
      && Score(task, c.(runtime := Some(bare.(isFresh := true))), preferred) == base + 5
      && Score(task, c.(runtime := Some(bare.(capacityAvailable := true))), preferred) == base + 10
      && Score(task, c.(runtime := Some(r)), preferred) ==
           (if r.routable then 20 else 0) + (if r.isFresh then 5 else 0) + (if r.capacityAvailable then 10 else 0)
           + Score(task, c.(runtime := Some(bare.(rate := r.rate))), preferred)
  {
    hide Preferred, Round, ContextScore, ClassScore, Suitability;
  }

  /** Reliability is twenty times the share of successes, rounded to the nearest integer and to the even one of two. */
  lemma {:induction false} ReliabilityCounts(task: Task, c: Candidate, rate: real, preferred: Option<string>)
    ensures
      var bare := PolicyRuntime(false, false, None, false);
      var points := Score(task, c.(runtime := Some(bare.(rate := Some(rate)))), preferred)
        - Score(task, c.(runtime := Some(bare)), preferred);
      var exact := 20.0 * (1.0 - rate);
      && exact - 0.5 <= points as real <= exact + 0.5
      && (points as real == exact - 0.5 || points as real == exact + 0.5 ==> points % 2 == 0)
  {
    RoundIsNearest(20.0 * (1.0 - rate));
    hide Preferred, Round, ContextScore, ClassScore, Suitability;
  }

  /** A lower failure rate never costs points. */
  lemma {:induction false} LowerRateNeverCosts(
      task: Task, c: Candidate, r: PolicyRuntime, low: real, high: real, preferred: Option<string>)
    requires low <= high
    ensures Score(task, c.(runtime := Some(r.(rate := Some(low)))), preferred) >=
            Score(task, c.(runtime := Some(r.(rate := Some(high)))), preferred)
  {
    RoundMonotone(20.0 * (1.0 - high), 20.0 * (1.0 - low));
    hide Preferred, Round, ContextScore, ClassScore, Suitability;
  }

  lemma {:induction false} RoundMonotone(x: real, y: real)
    requires x <= y
    ensures Round(x) <= Round(y)
  {}

  lemma {:induction false} RoundIsNearest(x: real)
    ensures x - 0.5 <= Round(x) as real <= x + 0.5
    ensures Round(x) as real == x - 0.5 || Round(x) as real == x + 0.5 ==> Round(x) % 2 == 0
  {}

  /** A deployment without any of these facts scores nothing. */
  lemma {:induction false} NothingScoresNothing(task: Task, c: Candidate)
    requires c.runtime == None && c.deployment.profile == Profile(UnknownClass, UnknownClass, 0, 0)
    requires c.deployment.capabilities.maxContext == None
    ensures Score(task, c, None) == 0
  {}

  /** What the ranking is told of a deployment is what the runtime store holds for it: whether it is routable and fresh
      at the readings made, its failure rate, and whether it has capacity; without a store it is told nothing. */
  lemma {:induction false} ViewMeans(states: RuntimeView, d: DeploymentId, clocks: Clocks)
    ensures states == None ==> View(states, d, clocks) == None
    ensures states.Some? && d !in states.value ==>
              View(states, d, clocks) == Some(PolicyRuntime(false, false, None, false))
    ensures states.Some? && d in states.value ==>
      var s, told := states.value[d], View(states, d, clocks);
      && told.Some? && told.value.rate == s.summary.rate && (told.value.capacityAvailable <==> s.capacity == Available)
      && (told.value.isFresh <==> s.expires.Some? && clocks(d).staleness < s.expires.value)
      && (told.value.routable <==>
            && s.expires.Some? && clocks(d).routable < s.expires.value
            && s.liveness == Up && s.readiness == Ready && s.admission == Accepting && s.capacity != Exhausted)
  {}

  // ------------------------------------------------------------- the order itself

  predicate Cheaper(x: Class, y: Class) { (x == Low && y != Low) || (x == Medium && (y == High || y == UnknownClass)) }

  /** Two candidates alike in all that is scored. */
  predicate Alike(a: Candidate, b: Candidate) {
    && a.deployment.engine == b.deployment.engine && a.deployment.capabilities == b.deployment.capabilities
    && a.deployment.profile == b.deployment.profile && a.runtime == b.runtime
  }

  lemma {:induction false} AlikeScoreAlike(task: Task, a: Candidate, b: Candidate, preferred: Option<string>)
    requires Alike(a, b)
    ensures Score(task, a, preferred) == Score(task, b, preferred)
  {}

  /** Of two candidates alike apart from their cost, or apart from their latency, the cheaper or faster one comes
      first; of two alike altogether, the one registered earlier. */
  lemma {:induction false} BetterComesFirst(task: Task, decision: seq<Entry>, preferred: Option<string>, i: nat, j: nat)
    requires Sorted(decision) && Scored(decision, task, preferred) && i < |decision| && j < |decision|
    requires
      var a, b := decision[i].candidate, decision[j].candidate;
      var p, q := a.deployment.profile, b.deployment.profile;
      || (Cheaper(p.cost, q.cost) && Alike(a, WithCost(b, p.cost)))
      || (Cheaper(p.latency, q.latency) && Alike(a, WithLatency(b, p.latency)))
      || (Alike(a, b) && a.index < b.index)
    ensures i < j
  {
    var a, b := decision[i].candidate, decision[j].candidate;
    var p, q := a.deployment.profile, b.deployment.profile;
    assert j < i ==> Ahead(decision[j], decision[i]);
    CostCounts(task, b, preferred);
    LatencyCounts(task, b, preferred);
    assert WithCost(b, q.cost) == b && WithLatency(b, q.latency) == b;
    if Alike(a, WithCost(b, p.cost)) { AlikeScoreAlike(task, a, WithCost(b, p.cost), preferred); }
    if Alike(a, WithLatency(b, p.latency)) { AlikeScoreAlike(task, a, WithLatency(b, p.latency), preferred); }
    if Alike(a, b) { AlikeScoreAlike(task, a, b, preferred); }
    hide Score, Alike, WithCost, WithLatency;
  }
}
