/** Any number of router calls that share one durable graph budget, interleaved step by step. */
module SharedBudget {

  import opened Outcomes
  import opened Budgets
  import opened Router

  datatype Call = Call(cfg: Config, state: State)

  datatype System = System(budget: Budget, calls: seq<Call>)

  /** A new call starts, a call takes its next step, or the budget is bound again. */
  datatype Event = Begin(cfg: Config) | Act(call: nat, seen: Observation)
    | Rebind(limits: Limits, deadlineSeconds: int, now: int)

  predicate SystemOk(w: System) {
    Within(w.budget) && forall i | 0 <= i < |w.calls| :: StateOk(w.calls[i].cfg, w.calls[i].state)
  }

  /** The effect of an event; binding again leaves the row alone whether or not the limits agree. */
  function Next(w: System, e: Event): System
    requires SystemOk(w)
  {
    match e
    case Begin(cfg) => w.(calls := w.calls + [Call(cfg, Start)])
    case Rebind(_, _, _) => w
    case Act(i, o) =>
      if i >= |w.calls| then w
      else
        var (s, b) := Advance(w.calls[i].cfg, Some(w.budget), w.calls[i].state, o);
        System(if b.Some? then b.value else w.budget, w.calls[i := w.calls[i].(state := s)])
  }

  function Made(c: Call): nat { Reserved(c.state) }

  function Spent(c: Call): nat { Charged(c.state) }

  function Total(calls: seq<Call>, measure: Call -> nat): nat {
    if calls == [] then 0 else Total(calls[..|calls| - 1], measure) + measure(calls[|calls| - 1])
  }

  lemma {:induction false} TotalAfterUpdate(calls: seq<Call>, measure: Call -> nat, i: nat, c: Call)
    requires i < |calls|
    ensures Total(calls[i := c], measure) == Total(calls, measure) - measure(calls[i]) + measure(c)
  {
    var n := |calls| - 1;
    var updated := calls[i := c];
    if i < n {
      TotalAfterUpdate(calls[..n], measure, i, c);
      assert updated[..n] == calls[..n][i := c];
    } else {
      assert updated[..n] == calls[..n];
    }
  }

  /** The row's counters are exactly what the calls have taken. */
  ghost predicate Balanced(w: System) {
    && SystemOk(w)
    && w.budget.attempts == Total(w.calls, Made)
    && w.budget.tokens == Total(w.calls, Spent)
  }

  lemma {:induction false} ActKeepsBalance(w: System, i: nat, o: Observation)
    requires Balanced(w) && i < |w.calls|
    ensures
      var w' := Next(w, Act(i, o));
      && Balanced(w') && w'.budget.limits == w.budget.limits && w'.budget.deadline == w.budget.deadline
      && w.budget.attempts <= w'.budget.attempts && w.budget.tokens <= w'.budget.tokens
  {
    hide Advance, Within, Total, Reserved, Charged;
    var c := w.calls[i];
    var (s, b) := Advance(c.cfg, Some(w.budget), c.state, o);
    hide StateOk;
    AdvanceKeepsOk(c.cfg, Some(w.budget), c.state, o);
    AdvanceBalances(c.cfg, w.budget, c.state, o);
    AdvanceOnlyTakes(c.cfg, w.budget, c.state, o);
    TotalAfterUpdate(w.calls, Made, i, c.(state := s));
    TotalAfterUpdate(w.calls, Spent, i, c.(state := s));
  }

  /** No step gives anything back. */
  lemma {:induction false} AdvanceOnlyTakes(cfg: Config, b: Budget, s: State, o: Observation)
    requires StateOk(cfg, s)
    ensures
      var b' := Advance(cfg, Some(b), s, o).1;
      b'.Some? && b.attempts <= b'.value.attempts && b.tokens <= b'.value.tokens
  {}

  lemma {:induction false} NextKeepsBalance(w: System, e: Event)
    requires Balanced(w)
    ensures Balanced(Next(w, e))
    ensures Next(w, e).budget.limits == w.budget.limits && Next(w, e).budget.deadline == w.budget.deadline
    ensures w.budget.attempts <= Next(w, e).budget.attempts && w.budget.tokens <= Next(w, e).budget.tokens
  {
    match e
    case Begin(cfg) =>
    case Rebind(_, _, _) => {}
    case Act(i, o) =>
      if i < |w.calls| {
        ActKeepsBalance(w, i, o);
      }
  }

  ghost function After(w: System, run: seq<Event>): (r: System)
    requires Balanced(w)
    ensures Balanced(r) && r.budget.limits == w.budget.limits && r.budget.deadline == w.budget.deadline
    ensures w.budget.attempts <= r.budget.attempts && w.budget.tokens <= r.budget.tokens
  {
    if run == [] then w
    else
      var before := After(w, run[..|run| - 1]);
      NextKeepsBalance(before, run[|run| - 1]);
      Next(before, run[|run| - 1])
  }

  function Recorded(c: Call): nat { |c.state.attempts| }

  lemma {:induction false} RecordedWithinMade(calls: seq<Call>)
    ensures Total(calls, Recorded) <= Total(calls, Made)
  {
    if calls != [] { RecordedWithinMade(calls[..|calls| - 1]); }
  }

  /**
    * However the calls of a graph interleave, all attempts together stay within the attempt limit and all tokens of
    * returned results within the token limit; once no call is in flight the attempt counter equals the attempts
    * recorded.
    */
  lemma {:induction false} SharedBudgetHolds(budget: Budget, run: seq<Event>)
    requires LimitsOk(budget.limits) && budget.attempts == 0 && budget.tokens == 0
    ensures
      var start := System(budget, []);
      Balanced(start) &&
      var end := After(start, run);
      && Total(end.calls, Recorded) <= Total(end.calls, Made) == end.budget.attempts <= budget.limits.maxAttempts
      && (budget.limits.maxTokens.Some? ==> Total(end.calls, Spent) <= budget.limits.maxTokens.value)
      && ((forall i | 0 <= i < |end.calls| :: !end.calls[i].state.phase.Executing?) ==>
         Total(end.calls, Recorded) == end.budget.attempts)
      && (forall i | 0 <= i < |end.calls| :: TraceOk(end.calls[i].cfg, end.calls[i].state.attempts))
  {
    var end := After(System(budget, []), run);
    RecordedWithinMade(end.calls);
    if forall i | 0 <= i < |end.calls| :: !end.calls[i].state.phase.Executing? { IdleRecordsAll(end.calls); }
    hide After, TraceOk;
  }

  lemma {:induction false} IdleRecordsAll(calls: seq<Call>)
    requires forall i | 0 <= i < |calls| :: !calls[i].state.phase.Executing?
    ensures Total(calls, Recorded) == Total(calls, Made)
  {
    if calls != [] { IdleRecordsAll(calls[..|calls| - 1]); }
  }

  // ------------------------------------------------------------------ progress

  /** A bound on the steps a call still has to take. */
  function Effort(c: Call): int {
    3 * (|c.cfg.order| - c.state.index + c.cfg.maxAttempts - |c.state.attempts|) +
    match c.state.phase { case Looking => 2 case Executing => 1 case Recording(_) => 1 case Done(_) => 0 }
  }

  lemma {:induction false} AdvanceProgresses(c: Call, b: Budget, o: Observation)
    requires StateOk(c.cfg, c.state) && !c.state.phase.Done?
    ensures
      var s := Advance(c.cfg, Some(b), c.state, o).0;
      Effort(c.(state := s)) < Effort(c)
  {}

  /** How many of a run's events are steps of one call. */
  function StepsOf(run: seq<Event>, i: nat): nat {
    if run == [] then 0
    else
      var last := run[|run| - 1];
      StepsOf(run[..|run| - 1], i) + if last.Act? && last.call == i then 1 else 0
  }

  /** One event leaves a call in place, and shortens what it has to do when it is the call's own. */
  lemma {:induction false} NextProgresses(w: System, e: Event, i: nat)
    requires SystemOk(w) && i < |w.calls|
    ensures
      var w' := Next(w, e);
      && |w.calls| <= |w'.calls| && w'.calls[i].cfg == w.calls[i].cfg
      && (if e.Act? && e.call == i && !w.calls[i].state.phase.Done?
          then Effort(w'.calls[i]) < Effort(w.calls[i])
          else w'.calls[i] == w.calls[i])
  {
    if e.Act? && e.call == i && !w.calls[i].state.phase.Done? { AdvanceProgresses(w.calls[i], w.budget, e.seen); }
    hide Effort, Within, StateOk;
  }

  lemma {:induction false} CallProgresses(w: System, run: seq<Event>, i: nat)
    requires Balanced(w) && i < |w.calls|
    ensures
      var end := After(w, run);
      && |w.calls| <= |end.calls| && end.calls[i].cfg == w.calls[i].cfg
      && (!end.calls[i].state.phase.Done? ==> Effort(end.calls[i]) + StepsOf(run, i) <= Effort(w.calls[i]))
  {
    hide Effort, Next, SystemOk;
    if run != [] {
      CallProgresses(w, run[..|run| - 1], i);
      NextProgresses(After(w, run[..|run| - 1]), run[|run| - 1], i);
    }
  }

  /** Whatever the other calls do, a call ends after a bounded number of its own steps. */
  lemma {:induction false} EveryCallEnds(w: System, run: seq<Event>, i: nat)
    requires Balanced(w) && i < |w.calls| && w.calls[i].state == Start
    requires StepsOf(run, i) > 3 * (|w.calls[i].cfg.order| + w.calls[i].cfg.maxAttempts)
    ensures i < |After(w, run).calls| && After(w, run).calls[i].state.phase.Done?
  {
    CallProgresses(w, run, i);
    var c := After(w, run).calls[i];
    hide After;
    assert StateOk(c.cfg, c.state);
    assert c.state.phase.Done? || Effort(c) >= 1;
  }
}
