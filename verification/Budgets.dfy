/** Attempt and token budgets: backend/workflows/budget.py, graph_budget.py and the budget row of store.py. */
module Budgets {

  import opened Outcomes

  datatype Limits = Limits(maxAttempts: int, maxTokens: Option<int>)

  /** A budget's value; `deadline` is the instant at which its time runs out. */
  datatype Budget = Budget(deadline: int, limits: Limits, attempts: nat, tokens: nat)

  predicate LimitsOk(l: Limits) { l.maxAttempts >= 1 && (l.maxTokens.Some? ==> l.maxTokens.value >= 1) }

  /** Neither counter is past its limit. */
  predicate Within(b: Budget) {
    b.attempts <= b.limits.maxAttempts && (b.limits.maxTokens.Some? ==> b.tokens <= b.limits.maxTokens.value)
  }

  function RemainingTime(b: Budget, now: int): nat { if now < b.deadline then b.deadline - now else 0 }

  predicate CanReserve(b: Budget, now: int) { now < b.deadline && b.attempts < b.limits.maxAttempts }

  predicate CanRecord(b: Budget, count: nat) {
    b.limits.maxTokens.Some? ==> b.tokens + count <= b.limits.maxTokens.value
  }

  function Reserve(b: Budget, now: int): Budget { if CanReserve(b, now) then b.(attempts := b.attempts + 1) else b }

  function Record(b: Budget, count: nat): Budget { if CanRecord(b, count) then b.(tokens := b.tokens + count) else b }

  /** An attempt is granted exactly before the deadline and below the attempt limit, and counts one; tokens are recorded
      exactly when their sum stays within the token limit, if there is one; a refusal changes nothing. A limit is at
      least one. */
  lemma {:induction false} BudgetMeans(b: Budget, now: int, count: nat)
    ensures Reserve(b, now) ==
      if now < b.deadline && b.attempts < b.limits.maxAttempts then b.(attempts := b.attempts + 1) else b
    ensures CanReserve(b, now) <==> Reserve(b, now) != b
    ensures Record(b, count) ==
      if b.limits.maxTokens == None || b.tokens + count <= b.limits.maxTokens.value
      then b.(tokens := b.tokens + count) else b
    ensures CanRecord(b, count) <==> b.limits.maxTokens == None || b.tokens + count <= b.limits.maxTokens.value
    ensures LimitsOk(b.limits) <==>
      1 <= b.limits.maxAttempts && (b.limits.maxTokens == None || 1 <= b.limits.maxTokens.value)
  {}

  /** The budget of one workflow, held in memory. */
  class WorkflowBudget {
    const deadlineSeconds: int
    const limits: Limits
    const started: int
    var attempts: nat
    var outputTokens: nat

    constructor (deadlineSeconds: int, limits: Limits, now: int)
      requires deadlineSeconds > 0 && LimitsOk(limits)
      ensures Value() == Budget(now + deadlineSeconds, limits, 0, 0) && Within(Value())
    {
      this.deadlineSeconds, this.limits, started := deadlineSeconds, limits, now;
      attempts, outputTokens := 0, 0;
    }

    function Value(): Budget
      reads this
    {
      Budget(started + deadlineSeconds, limits, attempts, outputTokens)
    }

    method RemainingSeconds(now: int) returns (r: nat)
      ensures r == RemainingTime(Value(), now)
      ensures r == if now < started + deadlineSeconds then started + deadlineSeconds - now else 0
    {
      var left := deadlineSeconds - (now - started);
      r := if left < 0 then 0 else left;
    }

    method ReserveAttempt(now: int) returns (ok: bool)
      modifies this`attempts
      ensures ok == CanReserve(old(Value()), now) && Value() == Reserve(old(Value()), now)
      ensures ok <==> now < started + deadlineSeconds && old(attempts) < limits.maxAttempts
      ensures attempts == if ok then old(attempts) + 1 else old(attempts)
      ensures old(Within(Value())) ==> Within(Value())
    {
      var left := RemainingSeconds(now);
      if left <= 0 || attempts >= limits.maxAttempts { return false; }
      attempts := attempts + 1;
      return true;
    }

    method RecordOutputTokens(count: Option<int>) returns (r: Result<bool>)
      modifies this`outputTokens
      ensures r.Err? <==> count.Some? && count.value < 0
      ensures r.Err? ==> r == Err(InvalidInput) && Value() == old(Value())
      ensures r.Ok? ==> r.value == (count.Some? ==> CanRecord(old(Value()), count.value))
      ensures r == Ok(false) <==>
                && count.Some? && 0 <= count.value
                && limits.maxTokens.Some? && limits.maxTokens.value < old(outputTokens) + count.value
      ensures outputTokens == old(outputTokens) + if r == Ok(true) && count.Some? then count.value else 0
      ensures r.Ok? ==> Value() == if count.Some? then Record(old(Value()), count.value) else old(Value())
      ensures old(Within(Value())) ==> Within(Value())
    {
      if count.None? { return Ok(true); }
      if count.value < 0 { return Err(InvalidInput); }
      if limits.maxTokens.Some? && outputTokens + count.value > limits.maxTokens.value { return Ok(false); }
      outputTokens := outputTokens + count.value;
      return Ok(true);
    }
  }

  /** The checks a new budget makes: there is a budget exactly for a positive time and valid limits, and nothing
      is used. */
  method OpenBudget(deadlineSeconds: int, limits: Limits, now: int) returns (budget: WorkflowBudget?)
    ensures budget != null <==> deadlineSeconds > 0 && LimitsOk(limits)
    ensures budget != null ==>
              && fresh(budget) && budget.Value() == Budget(now + deadlineSeconds, limits, 0, 0)
              && Within(budget.Value())
  {
    if deadlineSeconds <= 0 || limits.maxAttempts < 1 { return null; }
    if limits.maxTokens.Some? && limits.maxTokens.value < 1 { return null; }
    budget := new WorkflowBudget(deadlineSeconds, limits, now);
  }

  /** The durable budget row of one graph. */
  class GraphBudget {
    var row: Option<Budget>

    ghost predicate Valid()
      reads this
    {
      row.Some? ==> Within(row.value) && LimitsOk(row.value.limits)
    }

    constructor ()
      ensures Valid() && row.None?
    {
      row := None;
    }

    /** `bind_graph_budget`: binding again with the same limits returns the row as it stands; it never resets a
        counter. */
    method BindGraphBudget(deadlineSeconds: int, limits: Limits, now: int) returns (r: Result<Budget>)
      requires Valid()
      modifies this
      ensures Valid()
      ensures r == Err(InvalidInput) <==> deadlineSeconds <= 0 || !LimitsOk(limits)
      ensures r == Err(Conflict) <==>
                && deadlineSeconds > 0 && LimitsOk(limits) && old(row).Some?
                && old(row).value.limits != limits
      ensures r.Err? || old(row).Some? ==> row == old(row)
      ensures r.Ok? ==>
                && row == Some(r.value)
                && (old(row).None? ==> r.value == Budget(now + deadlineSeconds, limits, 0, 0))
    {
      if deadlineSeconds <= 0 || limits.maxAttempts < 1 || (limits.maxTokens.Some? && limits.maxTokens.value < 1) {
        return Err(InvalidInput);
      }
      var deadline := now + deadlineSeconds;
      if row.Some? {
        if row.value.limits != limits { return Err(Conflict); }
        return Ok(row.value);
      }
      row := Some(Budget(deadline, limits, 0, 0));
      return Ok(row.value);
    }

    method ReserveGraphAttempt(now: int) returns (r: Result<bool>)
      requires Valid()
      modifies this
      ensures Valid()
      ensures if old(row).None? then r == Err(Conflict) && row == old(row)
              else r == Ok(CanReserve(old(row).value, now)) && row == Some(Reserve(old(row).value, now))
      ensures r == Ok(true) <==>
                && old(row).Some? && now < old(row).value.deadline
                && old(row).value.attempts < old(row).value.limits.maxAttempts
      ensures row == if r == Ok(true) then Some(old(row).value.(attempts := old(row).value.attempts + 1)) else old(row)
    {
      if row.None? { return Err(Conflict); }
      var b := row.value;
      if b.deadline <= now || b.attempts >= b.limits.maxAttempts { return Ok(false); }
      row := Some(b.(attempts := b.attempts + 1));
      return Ok(true);
    }

    method RecordGraphOutputTokens(count: Option<int>) returns (r: Result<bool>)
      requires Valid()
      modifies this
      ensures Valid()
      ensures count.None? ==> r == Ok(true) && row == old(row)
      ensures count.Some? && count.value < 0 ==> r == Err(InvalidInput) && row == old(row)
      ensures count.Some? && count.value >= 0 ==>
                if old(row).None? then r == Err(Conflict) && row == old(row)
                else r == Ok(CanRecord(old(row).value, count.value)) && row == Some(Record(old(row).value, count.value))
    {
      if count.None? { return Ok(true); }
      if count.value < 0 { return Err(InvalidInput); }
      if row.None? { return Err(Conflict); }
      var b := row.value;
      if b.limits.maxTokens.Some? && b.tokens + count.value > b.limits.maxTokens.value { return Ok(false); }
      row := Some(b.(tokens := b.tokens + count.value));
      return Ok(true);
    }
  }
}
