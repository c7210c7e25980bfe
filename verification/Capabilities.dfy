/** Eligibility of a deployment for a task: backend/inference/capabilities.py. */
module Capabilities {

  import opened Outcomes

  datatype TaskKind = TextTask | ChatTask

  /** A claim about a deployment, valid until it expires. */
  datatype Claim<T> = Claim(value: T, expires: Option<int>)

  datatype DeploymentCapabilities = DeploymentCapabilities(
    taskKinds: Option<Claim<set<TaskKind>>>, servedModels: Option<Claim<set<string>>>, maxContext: Option<Claim<int>>,
    structuredOutput: Option<Claim<bool>>, streaming: Option<Claim<bool>>, accelerators: Option<Claim<set<string>>>,
    topologies: Option<Claim<set<string>>>, dataLocations: Option<Claim<set<string>>>,
    productionEligible: Option<Claim<bool>>)

  datatype Requirements = Requirements(
    model: Option<string>, contextTokens: Option<nat>, structuredOutput: bool, streaming: bool,
    accelerator: Option<string>,
    topology: Option<string>, dataLocation: Option<string>, productionOnly: bool)

  datatype Task = Task(kind: TaskKind, requirements: Requirements)

  datatype Reason = Unknown | Unsupported | Mismatch | Insufficient

  datatype Requirement =
    | KindRequired | ModelRequired | ContextRequired | StructuredOutputRequired | StreamingRequired
    | AcceleratorRequired | TopologyRequired
    | DataLocationRequired | ProductionRequired

  datatype Rejection = Rejection(requirement: Requirement, reason: Reason)

  /** The wall clock is read anew for each requirement. */
  type Clock = Requirement -> int

  predicate IsCurrent<T>(claim: Option<Claim<T>>, now: int) {
    claim.Some? && (claim.value.expires.None? || now < claim.value.expires.value)
  }

  function MemberProblem<T>(
      required: Option<T>, claim: Option<Claim<set<T>>>, mismatch: bool, now: int): Option<Reason> {
    if required.None? then None
    else if !IsCurrent(claim, now) then Some(Unknown)
    else if required.value in claim.value.value then None
    else Some(if mismatch then Mismatch else Unsupported)
  }

  function FlagProblem(required: bool, claim: Option<Claim<bool>>, now: int): Option<Reason> {
    if !required || (IsCurrent(claim, now) && claim.value.value) then None
    else if IsCurrent(claim, now) then Some(Unsupported)
    else Some(Unknown)
  }

  function ContextProblem(required: Option<nat>, claim: Option<Claim<int>>, now: int): Option<Reason> {
    if required.None? then None
    else if !IsCurrent(claim, now) then Some(Unknown)
    else if required.value <= claim.value.value then None
    else Some(Insufficient)
  }

  /** Why a deployment fails one requirement, if it does. */
  function Problem(task: Task, caps: DeploymentCapabilities, clock: Clock, q: Requirement): Option<Reason> {
    var r, now := task.requirements, clock(q);
    match q
    case KindRequired => MemberProblem(Some(task.kind), caps.taskKinds, false, now)
    case ModelRequired => MemberProblem(r.model, caps.servedModels, true, now)
    case ContextRequired => ContextProblem(r.contextTokens, caps.maxContext, now)
    case StructuredOutputRequired => FlagProblem(r.structuredOutput, caps.structuredOutput, now)
    case StreamingRequired => FlagProblem(r.streaming, caps.streaming, now)
    case AcceleratorRequired => MemberProblem(r.accelerator, caps.accelerators, false, now)
    case TopologyRequired => MemberProblem(r.topology, caps.topologies, false, now)
    case DataLocationRequired => MemberProblem(r.dataLocation, caps.dataLocations, false, now)
    case ProductionRequired => FlagProblem(r.productionOnly, caps.productionEligible, now)
  }

  /** A deployment is eligible when it fails no requirement. */
  predicate Eligible(task: Task, caps: DeploymentCapabilities, clock: Clock) {
    forall q: Requirement :: Problem(task, caps, clock, q).None?
  }

  /** A deployment is eligible exactly when each thing the task requires is promised by a claim that has not run out. */
  lemma {:induction false} EligibleMeans(task: Task, caps: DeploymentCapabilities, clock: Clock)
    ensures Eligible(task, caps, clock) <==>
      var r := task.requirements;
      && Promises(caps.taskKinds, task.kind, clock(KindRequired))
      && (r.model.Some? ==> Promises(caps.servedModels, r.model.value, clock(ModelRequired)))
      && (r.contextTokens.Some? ==>
            && Lasts(caps.maxContext, clock(ContextRequired))
            && r.contextTokens.value <= caps.maxContext.value.value)
      && (r.structuredOutput ==> Affirms(caps.structuredOutput, clock(StructuredOutputRequired)))
      && (r.streaming ==> Affirms(caps.streaming, clock(StreamingRequired)))
      && (r.accelerator.Some? ==> Promises(caps.accelerators, r.accelerator.value, clock(AcceleratorRequired)))
      && (r.topology.Some? ==> Promises(caps.topologies, r.topology.value, clock(TopologyRequired)))
      && (r.dataLocation.Some? ==> Promises(caps.dataLocations, r.dataLocation.value, clock(DataLocationRequired)))
      && (r.productionOnly ==> Affirms(caps.productionEligible, clock(ProductionRequired)))
  {
    if Eligible(task, caps, clock) {
      forall q ensures Problem(task, caps, clock, q).None? {}
      assert Problem(task, caps, clock, KindRequired).None? && Problem(task, caps, clock, ModelRequired).None?;
      assert Problem(task, caps, clock, ContextRequired).None?;
      assert Problem(task, caps, clock, StructuredOutputRequired).None?;
      assert Problem(task, caps, clock, StreamingRequired).None?;
      assert Problem(task, caps, clock, AcceleratorRequired).None?;
      assert Problem(task, caps, clock, TopologyRequired).None?;
      assert Problem(task, caps, clock, DataLocationRequired).None?;
      assert Problem(task, caps, clock, ProductionRequired).None?;
    }
  }

  /** A claim that never expires, or not yet. */
  predicate Lasts<T>(claim: Option<Claim<T>>, now: int) {
    claim != None && (claim.value.expires == None || now < claim.value.expires.value)
  }

  predicate Promises<T>(claim: Option<Claim<set<T>>>, x: T, now: int) { Lasts(claim, now) && x in claim.value.value }

  predicate Affirms(claim: Option<Claim<bool>>, now: int) { Lasts(claim, now) && claim.value.value }

  /** A requirement is unknown exactly when no lasting claim speaks to it; a model that is not served is a mismatch, too
      little context insufficient, and anything else unsupported. */
  lemma {:induction false} ReasonsMean(task: Task, caps: DeploymentCapabilities, clock: Clock)
    ensures
      var r := task.requirements;
      && (Problem(task, caps, clock, KindRequired) == Some(Unknown) <==> !Lasts(caps.taskKinds, clock(KindRequired)))
      && (Problem(task, caps, clock, ModelRequired) == Some(Unknown) <==>
            r.model.Some? && !Lasts(caps.servedModels, clock(ModelRequired)))
      && (Problem(task, caps, clock, ModelRequired) == Some(Mismatch) <==>
            r.model.Some? && Lasts(caps.servedModels, clock(ModelRequired))
            && r.model.value !in caps.servedModels.value.value)
      && (Problem(task, caps, clock, ContextRequired) == Some(Insufficient) <==>
            r.contextTokens.Some? && Lasts(caps.maxContext, clock(ContextRequired))
            && caps.maxContext.value.value < r.contextTokens.value)
      && (Problem(task, caps, clock, StreamingRequired) == Some(Unsupported) <==>
            r.streaming && Lasts(caps.streaming, clock(StreamingRequired)) && !caps.streaming.value.value)
      && (forall q :: Problem(task, caps, clock, q) == Some(Mismatch) ==> q == ModelRequired)
      && (forall q :: Problem(task, caps, clock, q) == Some(Insufficient) ==> q == ContextRequired)
  {}

  function With(rejections: seq<Rejection>, q: Requirement, problem: Option<Reason>): seq<Rejection> {
    if problem.None? then rejections else rejections + [Rejection(q, problem.value)]
  }

  const AllRequirements := [
    KindRequired, ModelRequired, ContextRequired, StructuredOutputRequired, StreamingRequired, AcceleratorRequired,
    TopologyRequired, DataLocationRequired, ProductionRequired]

  /** The rejections of the first `n` requirements, in the order they are examined. */
  ghost function Explained(task: Task, caps: DeploymentCapabilities, clock: Clock, n: nat): seq<Rejection>
    requires n <= |AllRequirements|
  {
    if n == 0 then []
    else
      var q := AllRequirements[n - 1];
      With(Explained(task, caps, clock, n - 1), q, Problem(task, caps, clock, q))
  }

  /** Examining one more requirement. */
  lemma {:induction false} Examined(
      task: Task, caps: DeploymentCapabilities, clock: Clock, n: nat, rejections: seq<Rejection>,
      problem: Option<Reason>)
    requires n < |AllRequirements| && rejections == With(Explained(task, caps, clock, n), AllRequirements[n], problem)
    requires problem == Problem(task, caps, clock, AllRequirements[n])
    ensures rejections == Explained(task, caps, clock, n + 1)
  {}

  lemma {:induction false} ExplainedMembers(task: Task, caps: DeploymentCapabilities, clock: Clock, n: nat)
    requires n <= |AllRequirements|
    ensures forall x <- Explained(task, caps, clock, n) :: Problem(task, caps, clock, x.requirement) == Some(x.reason)
    ensures forall i | 0 <= i < n ::
      var p := Problem(task, caps, clock, AllRequirements[i]);
      p.Some? ==> Rejection(AllRequirements[i], p.value) in Explained(task, caps, clock, n)
  {
    hide Problem;
    if n > 0 { ExplainedMembers(task, caps, clock, n - 1); }
  }

  /** A rejection is listed exactly for each failed requirement, so none is listed exactly when the deployment is
      eligible. */
  lemma {:induction false} ExplainedIs(task: Task, caps: DeploymentCapabilities, clock: Clock)
    ensures
      var all := Explained(task, caps, clock, |AllRequirements|);
      && (forall q, reason :: Rejection(q, reason) in all <==> Problem(task, caps, clock, q) == Some(reason))
      && (all == [] <==> Eligible(task, caps, clock))
  {
    var all := Explained(task, caps, clock, |AllRequirements|);
    ExplainedMembers(task, caps, clock, |AllRequirements|);
    hide Problem, Explained;
    forall q ensures Problem(task, caps, clock, q).Some? ==> Rejection(q, Problem(task, caps, clock, q).value) in all {
      EveryRequirement(q);
    }
    assert all != [] ==> all[0] in all;
  }

  lemma {:induction false} EveryRequirement(q: Requirement)
    ensures exists i :: 0 <= i < |AllRequirements| && AllRequirements[i] == q
  {
    var all := AllRequirements;
    assert all[0].KindRequired? && all[1].ModelRequired? && all[2].ContextRequired? && all[3].StructuredOutputRequired?;
    assert all[4].StreamingRequired? && all[5].AcceleratorRequired? && all[6].TopologyRequired?;
    assert all[7].DataLocationRequired? && all[8].ProductionRequired?;
  }

  method RequireMember<T(==)>(
      rejections: seq<Rejection>, q: Requirement, required: Option<T>, claim: Option<Claim<set<T>>>, mismatch: bool,
      now: int)
    returns (out: seq<Rejection>)
    ensures out == With(rejections, q, MemberProblem(required, claim, mismatch, now))
  {
    out := rejections;
    if required.None? { return; }
    if !IsCurrent(claim, now) {
      out := out + [Rejection(q, Unknown)];
    } else if required.value !in claim.value.value && mismatch {
      out := out + [Rejection(q, Mismatch)];
    } else if required.value !in claim.value.value {
      out := out + [Rejection(q, Unsupported)];
    }
  }

  method RequireBool(rejections: seq<Rejection>, q: Requirement, required: bool, claim: Option<Claim<bool>>, now: int)
    returns (out: seq<Rejection>)
    ensures out == With(rejections, q, FlagProblem(required, claim, now))
  {
    out := rejections;
    if !required { return; }
    if !IsCurrent(claim, now) {
      out := out + [Rejection(q, Unknown)];
    } else if !claim.value.value {
      out := out + [Rejection(q, Unsupported)];
    }
  }

  method RequireContext(rejections: seq<Rejection>, required: Option<nat>, claim: Option<Claim<int>>, now: int)
    returns (out: seq<Rejection>)
    ensures out == With(rejections, ContextRequired, ContextProblem(required, claim, now))
  {
    out := rejections;
    if required.None? { return; }
    if !IsCurrent(claim, now) {
      out := out + [Rejection(ContextRequired, Unknown)];
    } else if claim.value.value < required.value {
      out := out + [Rejection(ContextRequired, Insufficient)];
    }
  }

  method ExamineTask(task: Task, caps: DeploymentCapabilities, clock: Clock) returns (rejections: seq<Rejection>)
    ensures rejections == Explained(task, caps, clock, 3)
  {
    hide MemberProblem, ContextProblem, Explained, With;
    NothingExamined(task, caps, clock);
    var r := task.requirements;
    rejections := RequireMember([], KindRequired, Some(task.kind), caps.taskKinds, false, clock(KindRequired));
    Examined(task, caps, clock, 0, rejections, Problem(task, caps, clock, KindRequired));
    rejections := RequireMember(rejections, ModelRequired, r.model, caps.servedModels, true, clock(ModelRequired));
    Examined(task, caps, clock, 1, rejections, Problem(task, caps, clock, ModelRequired));
    rejections := RequireContext(rejections, r.contextTokens, caps.maxContext, clock(ContextRequired));
    Examined(task, caps, clock, 2, rejections, Problem(task, caps, clock, ContextRequired));
  }

  method ExamineFeatures(earlier: seq<Rejection>, task: Task, caps: DeploymentCapabilities, clock: Clock)
    returns (rejections: seq<Rejection>)
    requires earlier == Explained(task, caps, clock, 3)
    ensures rejections == Explained(task, caps, clock, 5)
  {
    hide FlagProblem, Explained, With;
    var r := task.requirements;
    rejections := RequireBool(
      earlier, StructuredOutputRequired, r.structuredOutput, caps.structuredOutput, clock(StructuredOutputRequired));
    Examined(task, caps, clock, 3, rejections, Problem(task, caps, clock, StructuredOutputRequired));
    rejections := RequireBool(rejections, StreamingRequired, r.streaming, caps.streaming, clock(StreamingRequired));
    Examined(task, caps, clock, 4, rejections, Problem(task, caps, clock, StreamingRequired));
  }

  method ExaminePlacement(earlier: seq<Rejection>, task: Task, caps: DeploymentCapabilities, clock: Clock)
    returns (rejections: seq<Rejection>)
    requires earlier == Explained(task, caps, clock, 5)
    ensures rejections == Explained(task, caps, clock, 8)
  {
    hide MemberProblem, Explained, With;
    var r := task.requirements;
    rejections := RequireMember(
      earlier, AcceleratorRequired, r.accelerator, caps.accelerators, false, clock(AcceleratorRequired));
    Examined(task, caps, clock, 5, rejections, Problem(task, caps, clock, AcceleratorRequired));
    rejections := RequireMember(
      rejections, TopologyRequired, r.topology, caps.topologies, false, clock(TopologyRequired));
    Examined(task, caps, clock, 6, rejections, Problem(task, caps, clock, TopologyRequired));
    rejections := RequireMember(
      rejections, DataLocationRequired, r.dataLocation, caps.dataLocations, false, clock(DataLocationRequired));
    Examined(task, caps, clock, 7, rejections, Problem(task, caps, clock, DataLocationRequired));
  }

  /** `evaluate_capabilities`: one rejection, with its reason, for each failed requirement, in the order of examination;
      none exactly when the deployment is eligible. */
  method EvaluateCapabilities(task: Task, caps: DeploymentCapabilities, clock: Clock)
    returns (rejections: seq<Rejection>)
    ensures rejections == Explained(task, caps, clock, |AllRequirements|)
    ensures rejections == [] <==> Eligible(task, caps, clock)
    ensures forall q, reason :: Rejection(q, reason) in rejections <==> Problem(task, caps, clock, q) == Some(reason)
  {
    hide FlagProblem, MemberProblem, Explained, Eligible, With;
    rejections := ExamineTask(task, caps, clock);
    rejections := ExamineFeatures(rejections, task, caps, clock);
    rejections := ExaminePlacement(rejections, task, caps, clock);
    rejections := RequireBool(
      rejections, ProductionRequired, task.requirements.productionOnly, caps.productionEligible,
      clock(ProductionRequired));
    Examined(task, caps, clock, 8, rejections, Problem(task, caps, clock, ProductionRequired));
    ExplainedIs(task, caps, clock);
  }

  lemma {:induction false} NothingExamined(task: Task, caps: DeploymentCapabilities, clock: Clock)
    ensures Explained(task, caps, clock, 0) == []
  {}
}
