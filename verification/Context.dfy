/** Fitting source-linked messages to a token budget: backend/context/preparation.py. */
module Context {

  import opened Outcomes

  datatype Role = System | User | Assistant

  datatype Trust = Policy | FromUser | Source | ToolOutput | Summary | AssistantHistory

  datatype Segment = Segment(
    sourceId: string, revision: string, role: Role, content: string, trust: Trust, required: bool, priority: int)

  datatype Message = Message(role: Role, content: string)

  /** Which counter and template produced a count. */
  datatype Identity = Identity(counter: string, counterRevision: string, template: string, templateRevision: string)

  datatype TokenCount = TokenCount(tokens: nat, identity: Identity)

  type Counter = seq<Message> -> TokenCount

  datatype Profile = Profile(maxContext: nat, reservedOutput: nat, safetyMargin: nat, identity: Identity) {
    function Available(): int { maxContext - reservedOutput - safetyMargin }
  }

  datatype Reason = Duplicate(of: string) | OverBudget

  datatype Excluded = Excluded(sourceId: string, revision: string, reason: Reason)

  datatype Failure = NoSegments | RepeatedIds | NoRequired | CounterMismatch | Overflow(needed: nat, available: int)

  datatype Prepared = Prepared(included: seq<Segment>, tokens: nat, total: nat, excluded: seq<Excluded>)

  datatype Outcome = Fits(prepared: Prepared) | Refused(failure: Failure)

  predicate UniqueIds(segs: seq<Segment>) { forall i, j | 0 <= i < j < |segs| :: segs[i].sourceId != segs[j].sourceId }

  function Chat(segs: seq<Segment>): seq<Message> {
    seq(|segs|, i requires 0 <= i < |segs| => Message(segs[i].role, segs[i].content))
  }

  // ----------------------------------------------------------- deduplication

  /** Optional segments with equal keys are duplicates. */
  datatype Key = Key(role: Role, trust: Trust, content: string)

  function KeyOf(s: Segment): Key { Key(s.role, s.trust, s.content) }

  /** The winner of a duplicate class among the first `n` segments. */
  function Best(segs: seq<Segment>, key: Key, n: nat): (b: Option<nat>)
    requires n <= |segs|
    ensures b.Some? ==> b.value < n && !segs[b.value].required && KeyOf(segs[b.value]) == key
  {
    if n == 0 then None
    else
      var b, s := Best(segs, key, n - 1), segs[n - 1];
      if !s.required && KeyOf(s) == key && (b.None? || segs[b.value].priority < s.priority) then Some(n - 1) else b
  }

  /** The winner has the best priority of its class, and is the first to have it. */
  lemma {:induction false} BestIsBest(segs: seq<Segment>, key: Key, n: nat, i: nat)
    requires i < n <= |segs| && !segs[i].required && KeyOf(segs[i]) == key
    ensures Best(segs, key, n).Some?
    ensures
      var b := Best(segs, key, n).value;
      segs[i].priority < segs[b].priority || (segs[i].priority == segs[b].priority && b <= i)
  {
    if i < n - 1 { BestIsBest(segs, key, n - 1, i); }
    else if Best(segs, key, n - 1).Some? {}
  }

  predicate Survives(segs: seq<Segment>, i: nat)
    requires i < |segs|
  {
    segs[i].required || Best(segs, KeyOf(segs[i]), |segs|) == Some(i)
  }

  function Survivors(segs: seq<Segment>, n: nat): seq<Segment>
    requires n <= |segs|
  {
    if n == 0 then [] else Survivors(segs, n - 1) + if Survives(segs, n - 1) then [segs[n - 1]] else []
  }

  function Duplicates(segs: seq<Segment>, n: nat): seq<Excluded>
    requires n <= |segs|
  {
    if n == 0 then []
    else
      var s := segs[n - 1];
      if Survives(segs, n - 1) then Duplicates(segs, n - 1)
      else
        BestIsBest(segs, KeyOf(s), |segs|, n - 1);
        Duplicates(segs, n - 1)
        + [Excluded(s.sourceId, s.revision, Duplicate(segs[Best(segs, KeyOf(s), |segs|).value].sourceId))]
  }

  /** What deduplication keeps, and what it excludes. */
  function Deduplicated(segs: seq<Segment>): (seq<Segment>, seq<Excluded>) {
    (Survivors(segs, |segs|), Duplicates(segs, |segs|))
  }

  /** What the first loop has chosen after `n` segments. */
  ghost predicate ChosenOk(segs: seq<Segment>, n: nat, chosen: map<Key, Segment>)
    requires n <= |segs|
  {
    forall key {:trigger Best(segs, key, n)} ::
      && (key in chosen <==> Best(segs, key, n).Some?)
      && (key in chosen ==> chosen[key] == segs[Best(segs, key, n).value])
  }

  lemma {:induction false} SurvivorIsChosen(segs: seq<Segment>, chosen: map<Key, Segment>, i: nat)
    requires UniqueIds(segs) && i < |segs| && ChosenOk(segs, |segs|, chosen) && !segs[i].required
    ensures segs[i] in chosen.Values <==> Survives(segs, i)
    ensures KeyOf(segs[i]) in chosen && chosen[KeyOf(segs[i])] == segs[Best(segs, KeyOf(segs[i]), |segs|).value]
  {
    BestIsBest(segs, KeyOf(segs[i]), |segs|, i);
    forall key | key in chosen && chosen[key] == segs[i] ensures Survives(segs, i) {
      var b := Best(segs, key, |segs|).value;
      assert segs[b] == segs[i];
      assert b == i;
    }
    if Survives(segs, i) { assert chosen[KeyOf(segs[i])] == segs[i]; }
  }

  /** `_deduplicate_optional`. */
  method DeduplicateOptional(segs: seq<Segment>) returns (kept: seq<Segment>, excluded: seq<Excluded>)
    requires UniqueIds(segs)
    ensures (kept, excluded) == Deduplicated(segs)
  {
    var chosen: map<Key, Segment> := map[];
    for i := 0 to |segs|
      invariant ChosenOk(segs, i, chosen)
    {
      var s := segs[i];
      if !s.required {
        var key := KeyOf(s);
        assert Best(segs, key, i).Some? == (key in chosen);
        if key !in chosen || chosen[key].priority < s.priority {
          chosen := chosen[key := s];
        }
      }
      forall key ensures Best(segs, key, i + 1) == if !s.required && KeyOf(s) == key &&
        (Best(segs, key, i).None? || segs[Best(segs, key, i).value].priority < s.priority)
        then Some(i) else Best(segs, key, i) {}
    }
    var keptOptional := chosen.Values;
    kept, excluded := [], [];
    for i := 0 to |segs|
      invariant kept == Survivors(segs, i) && excluded == Duplicates(segs, i)
    {
      var s := segs[i];
      if s.required {
        kept := kept + [s];
      } else {
        SurvivorIsChosen(segs, chosen, i);
        if s in keptOptional {
          kept := kept + [s];
        } else {
          excluded := excluded + [Excluded(s.sourceId, s.revision, Duplicate(chosen[KeyOf(s)].sourceId))];
        }
      }
    }
  }

  // ----------------------------------------------------------------- dropping

  /** Insert before everything of at least its priority: later sources go first on a tie. */
  function InsertDrop(s: Segment, order: seq<Segment>): seq<Segment> {
    if order == [] || s.priority <= order[0].priority then [s] + order else [order[0]] + InsertDrop(s, order[1..])
  }

  /** The optional segments in the order they are dropped. */
  function DropOrder(kept: seq<Segment>): seq<Segment> {
    if kept == [] then []
    else
      var earlier, s := DropOrder(kept[..|kept| - 1]), kept[|kept| - 1];
      if s.required then earlier else InsertDrop(s, earlier)
  }

  predicate Named(s: Segment, dropped: seq<Segment>) { exists d <- dropped :: d.sourceId == s.sourceId }

  /** What is left after dropping some sources. */
  function Remaining(kept: seq<Segment>, dropped: seq<Segment>): seq<Segment> {
    if kept == [] then []
    else
      var s := kept[|kept| - 1];
      Remaining(kept[..|kept| - 1], dropped) + if Named(s, dropped) then [] else [s]
  }

  function OverBudgetOf(dropped: seq<Segment>): seq<Excluded> {
    seq(|dropped|, i requires 0 <= i < |dropped| => Excluded(dropped[i].sourceId, dropped[i].revision, OverBudget))
  }

  /** Drop from position `k` of the order on until the count fits. */
  function Fit(
      kept: seq<Segment>, order: seq<Segment>, k: nat, profile: Profile, counter: Counter,
      duplicates: seq<Excluded>): Outcome
    requires k <= |order|
    decreases |order| - k
  {
    var left := Remaining(kept, order[..k]);
    var counted := counter(Chat(left));
    if counted.identity != profile.identity then Refused(CounterMismatch)
    else if counted.tokens <= profile.Available() then
      Fits(Prepared(left, counted.tokens, counted.tokens + profile.reservedOutput + profile.safetyMargin,
                    duplicates + OverBudgetOf(order[..k])))
    else if k == |order| then Refused(Overflow(counted.tokens, profile.Available()))
    else Fit(kept, order, k + 1, profile, counter, duplicates)
  }

  /** `prepare_context` as one expression over its parts. */
  function Prepare(segs: seq<Segment>, profile: Profile, counter: Counter): Outcome {
    if segs == [] then Refused(NoSegments)
    else if !UniqueIds(segs) then Refused(RepeatedIds)
    else if forall s <- segs :: !s.required then Refused(NoRequired)
    else
      var kept := Survivors(segs, |segs|);
      Fit(kept, DropOrder(kept), 0, profile, counter, Duplicates(segs, |segs|))
  }

  lemma {:induction false} RemainingNone(kept: seq<Segment>)
    ensures Remaining(kept, []) == kept
  {
    if kept != [] { RemainingNone(kept[..|kept| - 1]); }
  }

  /** Filtering once more by one id is filtering by the longer list. */
  lemma {:induction false} RemainingStep(kept: seq<Segment>, dropped: seq<Segment>, d: Segment)
    ensures Remaining(Remaining(kept, dropped), [d]) == Remaining(kept, dropped + [d])
  {
    if kept != [] {
      var k := |kept| - 1;
      RemainingStep(kept[..k], dropped, d);
      var shorter := Remaining(kept[..k], dropped);
      assert Named(kept[k], dropped + [d]) <==> Named(kept[k], dropped) || Named(kept[k], [d]) by {
        if Named(kept[k], dropped) {
          var x :| x in dropped && x.sourceId == kept[k].sourceId;
          assert x in dropped + [d];
        }
        if Named(kept[k], [d]) { assert d in dropped + [d]; }
      }
      if !Named(kept[k], dropped) {
        assert (shorter + [kept[k]])[..|shorter|] == shorter;
      } else {
        assert shorter + [] == shorter;
      }
    }
  }

  /** `prepare_context`: the loops compute exactly `Prepare`. */
  method PrepareContext(segs: seq<Segment>, profile: Profile, counter: Counter) returns (r: Outcome)
    ensures r == Prepare(segs, profile, counter)
  {
    hide Remaining, DropOrder, Survivors, Duplicates, UniqueIds, Chat, OverBudgetOf;
    if segs == [] { return Refused(NoSegments); }
    if !UniqueIds(segs) { return Refused(RepeatedIds); }
    if forall s <- segs :: !s.required { return Refused(NoRequired); }
    var available := profile.Available();
    var kept, excluded := DeduplicateOptional(segs);
    ghost var all := kept;
    var order := DropOrder(kept);
    RemainingNone(kept);
    var counted := counter(Chat(kept));
    if counted.identity != profile.identity { return Refused(CounterMismatch); }
    var k := 0;
    while counted.tokens > available && k < |order|
      invariant k <= |order| && kept == Remaining(all, order[..k]) && counted == counter(Chat(kept))
      invariant counted.identity == profile.identity
      invariant Fit(all, order, 0, profile, counter, excluded) == Fit(all, order, k, profile, counter, excluded)
      decreases |order| - k
    {
      RemainingStep(all, order[..k], order[k]);
      assert order[..k + 1] == order[..k] + [order[k]];
      kept := Remaining(kept, [order[k]]);
      counted := counter(Chat(kept));
      k := k + 1;
      if counted.identity != profile.identity { return Refused(CounterMismatch); }
    }
    if counted.tokens > available { return Refused(Overflow(counted.tokens, available)); }
    return Fits(Prepared(kept, counted.tokens, counted.tokens + profile.reservedOutput + profile.safetyMargin,
                         excluded + OverBudgetOf(order[..k])));
  }
}
