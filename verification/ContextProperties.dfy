/** What a caller may rely on from prepared context, for any deterministic counter. */
module ContextProperties {

  import opened Context

  // --------------------------------------------------------------- sequences

  /** `a` can be read off `b` in order. */
  predicate Subsequence<T(==)>(a: seq<T>, b: seq<T>)
    decreases |b|
  {
    a == [] ||
    (b != [] && ((a[|a| - 1] == b[|b| - 1] && Subsequence(a[..|a| - 1], b[..|b| - 1])) || Subsequence(a, b[..|b| - 1])))
  }

  lemma {:induction false} SubsequenceTransitive<T>(a: seq<T>, b: seq<T>, c: seq<T>)
    requires Subsequence(a, b) && Subsequence(b, c)
    ensures Subsequence(a, c)
    decreases |c|
  {
    if a != [] {
      var b', c' := b[..|b| - 1], c[..|c| - 1];
      if b[|b| - 1] == c[|c| - 1] && Subsequence(b', c') {
        if Subsequence(a, b') {
          SubsequenceTransitive(a, b', c');
        } else {
          SubsequenceTransitive(a[..|a| - 1], b', c');
        }
      } else {
        SubsequenceTransitive(a, b, c');
      }
    }
  }

  lemma {:induction false} SubsequenceKeepsUnique(a: seq<Segment>, b: seq<Segment>)
    requires Subsequence(a, b) && UniqueIds(b)
    ensures UniqueIds(a) && forall s <- a :: s in b
    decreases |b|
  {
    if a != [] {
      var b' := b[..|b| - 1];
      if Subsequence(a, b') { SubsequenceKeepsUnique(a, b'); }
      else {
        var a' := a[..|a| - 1];
        SubsequenceKeepsUnique(a', b');
        forall i | 0 <= i < |a'| ensures a[i].sourceId != a[|a| - 1].sourceId && a[i] in b {
          assert a'[i] in b';
          var m :| 0 <= m < |b'| && b'[m] == a[i];
          assert b[m] == a[i];
        }
      }
    }
  }

  // --------------------------------------------------------------- survivors

  lemma {:induction false} SurvivorsOrdered(segs: seq<Segment>, n: nat)
    requires n <= |segs|
    ensures Subsequence(Survivors(segs, n), segs[..n])
  {
    hide Survives;
    if n > 0 {
      SurvivorsOrdered(segs, n - 1);
      var a := Survivors(segs, n - 1);
      assert segs[..n][..n - 1] == segs[..n - 1];
      if Survives(segs, n - 1) { assert (a + [segs[n - 1]])[..|a|] == a; } else { assert a + [] == a; }
    }
  }

  lemma {:induction false} SurvivorsMembers(segs: seq<Segment>, n: nat)
    requires n <= |segs|
    ensures forall i | 0 <= i < n && Survives(segs, i) :: segs[i] in Survivors(segs, n)
    ensures forall s <- Survivors(segs, n) :: exists i :: 0 <= i < n && segs[i] == s && Survives(segs, i)
  {
    hide Survives;
    if n > 0 { SurvivorsMembers(segs, n - 1); }
  }

  lemma {:induction false} SurvivorsCount(segs: seq<Segment>, n: nat)
    requires n <= |segs|
    ensures |Survivors(segs, n)| + |Duplicates(segs, n)| == n
  {
    if n > 0 { SurvivorsCount(segs, n - 1); }
  }

  /** Survivors keep the input order, are the surviving segments, and leave one exclusion for every other. */
  lemma {:induction false} SurvivorsInOrder(segs: seq<Segment>, n: nat)
    requires n <= |segs|
    ensures Subsequence(Survivors(segs, n), segs[..n])
    ensures |Survivors(segs, n)| + |Duplicates(segs, n)| == n
    ensures forall i | 0 <= i < n && Survives(segs, i) :: segs[i] in Survivors(segs, n)
    ensures forall s <- Survivors(segs, n) :: exists i :: 0 <= i < n && segs[i] == s && Survives(segs, i)
  {
    hide Survives, Survivors, Duplicates;
    SurvivorsOrdered(segs, n);
    SurvivorsMembers(segs, n);
    SurvivorsCount(segs, n);
  }

  lemma {:induction false} DuplicatesNamed(segs: seq<Segment>, n: nat, i: nat)
    requires i < n <= |segs| && !Survives(segs, i)
    ensures exists x <- Duplicates(segs, n) :: x.sourceId == segs[i].sourceId && x.reason.Duplicate?
  {
    if i < n - 1 {
      DuplicatesNamed(segs, n - 1, i);
      var x :| x in Duplicates(segs, n - 1) && x.sourceId == segs[i].sourceId && x.reason.Duplicate?;
      assert x in Duplicates(segs, n);
    } else {
      var d := Duplicates(segs, n);
      assert d[|d| - 1] in d;
    }
  }

  lemma {:induction false} DuplicatesOnly(segs: seq<Segment>, n: nat, x: Excluded)
    requires n <= |segs| && x in Duplicates(segs, n)
    ensures exists i :: 0 <= i < n && !Survives(segs, i) && segs[i].sourceId == x.sourceId
  {
    if Survives(segs, n - 1) || x in Duplicates(segs, n - 1) { DuplicatesOnly(segs, n - 1, x); }
  }

  /** At most one survivor per duplicate class. */
  ghost predicate ClassesSingle(segs: seq<Segment>) {
    forall i, j | 0 <= i < |segs| && 0 <= j < |segs| && !segs[i].required && !segs[j].required
        && KeyOf(segs[i]) == KeyOf(segs[j]) :: i == j
  }

  /** Duplicates of each other: optional, with the same role, trust and content. */
  predicate SameText(a: Segment, b: Segment) {
    !a.required && !b.required && a.role == b.role && a.trust == b.trust && a.content == b.content
  }

  /** An optional segment that no other one equals in role, trust and content survives, as does every required one. */
  lemma {:induction false} UniqueSurvives(segs: seq<Segment>, i: nat)
    requires i < |segs|
    requires segs[i].required || forall j | 0 <= j < |segs| && j != i :: !SameText(segs[i], segs[j])
    ensures Survives(segs, i) && segs[i] in Survivors(segs, |segs|)
  {
    if !segs[i].required { BestIsBest(segs, KeyOf(segs[i]), |segs|, i); }
    SurvivorsMembers(segs, |segs|);
  }

  /** Two survivors never agree in role, trust and content, unless one is required. */
  lemma {:induction false} SurvivorsDiffer(segs: seq<Segment>, x: nat, y: nat)
    requires UniqueIds(segs) && x < y < |Survivors(segs, |segs|)|
    ensures !SameText(Survivors(segs, |segs|)[x], Survivors(segs, |segs|)[y])
  {
    SurvivorsSingle(segs);
  }

  /** A segment is excluded as a duplicate only of a survivor with the same role, trust and content, of higher priority
      or of the same priority and earlier; the exclusion carries the segment's own id and revision. */
  lemma {:induction false} DuplicateNamesWinner(segs: seq<Segment>, n: nat, x: Excluded)
    requires n <= |segs| && x in Duplicates(segs, n)
    ensures x.reason.Duplicate?
    ensures exists i, w ::
      && 0 <= i < n && 0 <= w < |segs| && Survives(segs, w) && SameText(segs[i], segs[w]) && w != i
      && x.sourceId == segs[i].sourceId && x.revision == segs[i].revision && x.reason.of == segs[w].sourceId
      && (segs[i].priority < segs[w].priority || (segs[i].priority == segs[w].priority && w < i))
  {
    if Survives(segs, n - 1) || x in Duplicates(segs, n - 1) {
      DuplicateNamesWinner(segs, n - 1, x);
    } else {
      var key := KeyOf(segs[n - 1]);
      BestIsBest(segs, key, |segs|, n - 1);
      var w := Best(segs, key, |segs|).value;
      assert Survives(segs, w) && SameText(segs[n - 1], segs[w]);
    }
  }

  /** What is counted is one message per included segment, with its role and content, in order. */
  lemma {:induction false} ChatIsTheSegments(segs: seq<Segment>, i: nat)
    requires i < |segs|
    ensures |Chat(segs)| == |segs| && Chat(segs)[i] == Message(segs[i].role, segs[i].content)
  {}

  /** Every optional segment is represented by exactly one survivor of its class, of at least its priority. */
  lemma {:induction false} OneSurvivorPerClass(segs: seq<Segment>, i: nat)
    requires UniqueIds(segs) && i < |segs| && !segs[i].required
    ensures
      exists w <- Survivors(segs, |segs|) ::
        && !w.required && KeyOf(w) == KeyOf(segs[i]) && segs[i].priority <= w.priority
        && forall v <- Survivors(segs, |segs|) | !v.required && KeyOf(v) == KeyOf(segs[i]) :: v == w
  {
    SurvivorsInOrder(segs, |segs|);
    BestIsBest(segs, KeyOf(segs[i]), |segs|, i);
    var b := Best(segs, KeyOf(segs[i]), |segs|).value;
    assert Survives(segs, b);
  }

  lemma {:induction false} SurvivorsSingle(segs: seq<Segment>)
    requires UniqueIds(segs)
    ensures UniqueIds(Survivors(segs, |segs|)) && ClassesSingle(Survivors(segs, |segs|))
  {
    var kept := Survivors(segs, |segs|);
    SurvivorsInOrder(segs, |segs|);
    assert segs[..|segs|] == segs;
    SubsequenceKeepsUnique(kept, segs);
    forall x, y | 0 <= x < |kept| && 0 <= y < |kept| && !kept[x].required && !kept[y].required
        && KeyOf(kept[x]) == KeyOf(kept[y])
      ensures x == y
    {
      assert kept[x] in kept && kept[y] in kept;
      assert kept[x] == kept[y];
    }
  }

  /** Without duplicates everything survives. */
  lemma {:induction false} AllSurvive(segs: seq<Segment>, n: nat)
    requires n <= |segs| && ClassesSingle(segs)
    ensures Survivors(segs, n) == segs[..n] && Duplicates(segs, n) == []
  {
    if n > 0 {
      AllSurvive(segs, n - 1);
      if !segs[n - 1].required { BestIsBest(segs, KeyOf(segs[n - 1]), |segs|, n - 1); }
      assert segs[..n] == segs[..n - 1] + [segs[n - 1]];
    }
  }

  // --------------------------------------------------------------- drop order

  lemma {:induction false} InsertMembers(s: Segment, order: seq<Segment>)
    ensures forall x :: x in InsertDrop(s, order) <==> x == s || x in order
    ensures |InsertDrop(s, order)| == |order| + 1
  {
    if order != [] && s.priority > order[0].priority { InsertMembers(s, order[1..]); }
  }

  lemma {:induction false} DropOrderMembers(kept: seq<Segment>)
    ensures forall s :: s in DropOrder(kept) <==> s in kept && !s.required
  {
    if kept != [] {
      var k := |kept| - 1;
      DropOrderMembers(kept[..k]);
      InsertMembers(kept[k], DropOrder(kept[..k]));
      assert forall s :: s in kept <==> s in kept[..k] || s == kept[k];
    }
  }

  lemma {:induction false} InsertUnique(s: Segment, order: seq<Segment>)
    requires UniqueIds(order) && forall x <- order :: x.sourceId != s.sourceId
    ensures UniqueIds(InsertDrop(s, order))
  {
    if order != [] && s.priority > order[0].priority {
      InsertUnique(s, order[1..]);
      InsertMembers(s, order[1..]);
      var rest := InsertDrop(s, order[1..]);
      forall x <- rest ensures x.sourceId != order[0].sourceId {
        if x != s { var i :| 0 <= i < |order[1..]| && order[1..][i] == x; }
      }
    }
  }

  lemma {:induction false} DropOrderUnique(kept: seq<Segment>)
    requires UniqueIds(kept)
    ensures UniqueIds(DropOrder(kept))
  {
    if kept != [] {
      var k := |kept| - 1;
      DropOrderUnique(kept[..k]);
      DropOrderMembers(kept[..k]);
      forall x <- DropOrder(kept[..k]) ensures x.sourceId != kept[k].sourceId {
        var i :| 0 <= i < k && kept[..k][i] == x;
      }
      InsertUnique(kept[k], DropOrder(kept[..k]));
    }
  }

  /** Lower priority goes first; on a tie the later source does. */
  ghost predicate GoesFirst(kept: seq<Segment>, a: Segment, b: Segment) {
    a.priority < b.priority
        || (a.priority == b.priority && exists i, j :: 0 <= j < i < |kept| && kept[i] == a && kept[j] == b)
  }

  ghost predicate InDropOrder(kept: seq<Segment>, order: seq<Segment>) {
    forall x, y {:trigger GoesFirst(kept, order[x], order[y])} | 0 <= x < y < |order| ::
        GoesFirst(kept, order[x], order[y])
  }

  lemma {:induction false} InsertInOrder(kept: seq<Segment>, s: Segment, order: seq<Segment>)
    requires InDropOrder(kept, order) && forall x <- order :: s.priority <= x.priority ==> GoesFirst(kept, s, x)
    ensures InDropOrder(kept, InsertDrop(s, order))
  {
    var r := InsertDrop(s, order);
    if order == [] {
    } else if s.priority <= order[0].priority {
      forall x, y | 0 <= x < y < |r| ensures GoesFirst(kept, r[x], r[y]) {
        if x > 0 { assert GoesFirst(kept, order[x - 1], order[y - 1]); }
        else {
          assert r[y] == order[y - 1] && r[y] in order;
          if y > 1 { assert GoesFirst(kept, order[0], order[y - 1]); }
        }
      }
    } else {
      forall x, y | 0 <= x < y < |order[1..]| ensures GoesFirst(kept, order[1..][x], order[1..][y]) {
        assert GoesFirst(kept, order[x + 1], order[y + 1]);
      }
      InsertInOrder(kept, s, order[1..]);
      InsertMembers(s, order[1..]);
      var rest := InsertDrop(s, order[1..]);
      forall x, y | 0 <= x < y < |r| ensures GoesFirst(kept, r[x], r[y]) {
        if x > 0 { assert GoesFirst(kept, rest[x - 1], rest[y - 1]); }
        else if r[y] != s {
          assert r[y] == rest[y - 1] && r[y] in rest;
          var i :| 0 <= i < |order[1..]| && order[1..][i] == r[y];
          assert GoesFirst(kept, order[0], order[i + 1]);
        }
      }
    }
  }

  lemma {:induction false} OrderExtends(kept: seq<Segment>, s: Segment, order: seq<Segment>)
    requires InDropOrder(kept, order)
    ensures InDropOrder(kept + [s], order)
  {
    forall x, y | 0 <= x < y < |order| ensures GoesFirst(kept + [s], order[x], order[y]) {
      assert GoesFirst(kept, order[x], order[y]);
      if order[x].priority == order[y].priority {
        var i, j :| 0 <= j < i < |kept| && kept[i] == order[x] && kept[j] == order[y];
        assert (kept + [s])[i] == order[x] && (kept + [s])[j] == order[y];
      }
    }
  }

  /** The drop order is lowest priority first, later source first on a tie. */
  lemma {:induction false} DropOrderSorted(kept: seq<Segment>)
    ensures InDropOrder(kept, DropOrder(kept))
  {
    if kept != [] {
      var k := |kept| - 1;
      var s, order := kept[k], DropOrder(kept[..k]);
      DropOrderSorted(kept[..k]);
      DropOrderMembers(kept[..k]);
      OrderExtends(kept[..k], s, order);
      assert kept[..k] + [s] == kept;
      forall x <- order | s.priority <= x.priority ensures GoesFirst(kept, s, x) {
        var j :| 0 <= j < k && kept[..k][j] == x;
        assert kept[k] == s && kept[j] == x;
      }
      if !s.required { InsertInOrder(kept, s, order); }
    }
  }

  // --------------------------------------------------------------- remaining

  lemma {:induction false} RemainingInOrder(kept: seq<Segment>, dropped: seq<Segment>)
    ensures Subsequence(Remaining(kept, dropped), kept)
    ensures forall s :: s in Remaining(kept, dropped) <==> s in kept && !Named(s, dropped)
  {
    if kept != [] {
      var k := |kept| - 1;
      RemainingInOrder(kept[..k], dropped);
      var a := Remaining(kept[..k], dropped);
      assert forall s :: s in kept <==> s in kept[..k] || s == kept[k];
      if Named(kept[k], dropped) { assert a + [] == a; } else { assert (a + [kept[k]])[..|a|] == a; }
    }
  }

  lemma {:induction false} DropOne(kept: seq<Segment>, d: Segment)
    requires UniqueIds(kept) && d in kept
    ensures |Remaining(kept, [d])| == |kept| - 1
  {
    var k := |kept| - 1;
    if kept[k] == d {
      forall i | 0 <= i < k ensures !Named(kept[..k][i], [d]) {}
      NoneNamed(kept[..k], [d]);
    } else {
      assert d in kept[..k];
      DropOne(kept[..k], d);
      assert !Named(kept[k], [d]) by { var i :| 0 <= i < k && kept[..k][i] == d; }
    }
  }

  lemma {:induction false} NoneNamed(kept: seq<Segment>, dropped: seq<Segment>)
    requires forall s <- kept :: !Named(s, dropped)
    ensures Remaining(kept, dropped) == kept
  {
    if kept != [] { NoneNamed(kept[..|kept| - 1], dropped); }
  }

  /** Dropping `k` sources of the order removes exactly `k` segments. */
  lemma {:induction false} RemainingCount(kept: seq<Segment>, order: seq<Segment>, k: nat)
    requires UniqueIds(kept) && UniqueIds(order) && k <= |order| && forall s <- order :: s in kept
    ensures |Remaining(kept, order[..k])| == |kept| - k
  {
    if k == 0 {
      RemainingNone(kept);
      assert order[..0] == [];
    } else {
      var d, left := order[k - 1], Remaining(kept, order[..k - 1]);
      RemainingCount(kept, order, k - 1);
      RemainingStep(kept, order[..k - 1], d);
      assert order[..k] == order[..k - 1] + [d];
      RemainingInOrder(kept, order[..k - 1]);
      SubsequenceKeepsUnique(left, kept);
      assert d in left by {
        assert d in order;
        forall x <- order[..k - 1] ensures x.sourceId != d.sourceId { var i :| 0 <= i < k - 1 && order[i] == x; }
      }
      DropOne(left, d);
    }
  }

  // ----------------------------------------------------------------- fitting

  /** The count after dropping the first `k` sources of the order. */
  function CountAfter(segs: seq<Segment>, counter: Counter, k: nat): TokenCount
    requires k <= |DropOrder(Survivors(segs, |segs|))|
  {
    var kept := Survivors(segs, |segs|);
    counter(Chat(Remaining(kept, DropOrder(kept)[..k])))
  }

  ghost predicate TooMany(segs: seq<Segment>, profile: Profile, counter: Counter, k: nat)
    requires k <= |DropOrder(Survivors(segs, |segs|))|
  {
    && CountAfter(segs, counter, k).identity == profile.identity
    && CountAfter(segs, counter, k).tokens + profile.reservedOutput + profile.safetyMargin > profile.maxContext
  }

  predicate Accepted(segs: seq<Segment>) { segs != [] && UniqueIds(segs) && exists s <- segs :: s.required }

  lemma {:induction false} FitSearch(segs: seq<Segment>, profile: Profile, counter: Counter, from: nat) returns (k: nat)
    requires from <= |DropOrder(Survivors(segs, |segs|))|
    ensures
      var kept := Survivors(segs, |segs|);
      var order, dups := DropOrder(kept), Duplicates(segs, |segs|);
      && from <= k <= |order|
      && (forall j | from <= j < k :: TooMany(segs, profile, counter, j))
      && (var c := CountAfter(segs, counter, k);
          Fit(kept, order, from, profile, counter, dups) ==
            if c.identity != profile.identity then Refused(CounterMismatch)
            else if c.tokens <= profile.Available() then
              Fits(Prepared(Remaining(kept, order[..k]), c.tokens,
                            c.tokens + profile.reservedOutput + profile.safetyMargin, dups + OverBudgetOf(order[..k])))
            else Refused(Overflow(c.tokens, profile.Available())))
      && (TooMany(segs, profile, counter, k) ==> k == |order|)
    decreases |DropOrder(Survivors(segs, |segs|))| - from
  {
    k := from;
    if TooMany(segs, profile, counter, from) && from < |DropOrder(Survivors(segs, |segs|))| {
      k := FitSearch(segs, profile, counter, from + 1);
    }
  }

  /** Overflow is reported exactly when no prefix of the drop order fits. */
  lemma {:induction false} OverflowExactly(segs: seq<Segment>, profile: Profile, counter: Counter)
    requires Accepted(segs)
    ensures
      var r := Prepare(segs, profile, counter);
      (r.Refused? && r.failure.Overflow?) <==> forall k | 0 <= k <= |DropOrder(Survivors(segs, |segs|))| ::
          TooMany(segs, profile, counter, k)
  {
    hide Survivors, DropOrder, Fit, CountAfter;
    var k := FitSearch(segs, profile, counter, 0);
    var n := |DropOrder(Survivors(segs, |segs|))|;
    if TooMany(segs, profile, counter, k) {
      forall j | 0 <= j <= n ensures TooMany(segs, profile, counter, j) {}
    }
  }

  /** The refusals before any counting, in their order. */
  lemma {:induction false} RefusedAtOnce(segs: seq<Segment>, profile: Profile, counter: Counter)
    ensures
      var r := Prepare(segs, profile, counter);
      && (r == Refused(NoSegments) <==> |segs| == 0)
      && (r == Refused(RepeatedIds) <==>
            |segs| > 0 && exists i, j :: 0 <= i < j < |segs| && segs[i].sourceId == segs[j].sourceId)
      && (r == Refused(NoRequired) <==>
            && |segs| > 0 && (forall i, j | 0 <= i < j < |segs| :: segs[i].sourceId != segs[j].sourceId)
            && forall i | 0 <= i < |segs| :: !segs[i].required)
  {
    hide Survivors, DropOrder, Duplicates, CountAfter;
    if Accepted(segs) { var k := FitSearch(segs, profile, counter, 0); }
  }

  /** An overflow reports what the required segments alone need against what the profile leaves for input. */
  lemma {:induction false} OverflowReports(segs: seq<Segment>, profile: Profile, counter: Counter)
    requires Prepare(segs, profile, counter).Refused? && Prepare(segs, profile, counter).failure.Overflow?
    ensures
      var f := Prepare(segs, profile, counter).failure;
      && f.available == profile.maxContext - profile.reservedOutput - profile.safetyMargin < f.needed
      && f.needed == CountAfter(segs, counter, |DropOrder(Survivors(segs, |segs|))|).tokens
  {
    hide Survivors, DropOrder, Duplicates, CountAfter;
    var k := FitSearch(segs, profile, counter, 0);
  }

  /** A source dropped for room is listed with its own id and revision. */
  lemma {:induction false} OverBudgetNames(dropped: seq<Segment>, i: nat)
    requires i < |dropped|
    ensures |OverBudgetOf(dropped)| == |dropped|
    ensures OverBudgetOf(dropped)[i] == Excluded(dropped[i].sourceId, dropped[i].revision, OverBudget)
  {}

  /** The prepared context keeps what survives and drops the shortest prefix of the drop order that fits. */
  lemma {:induction false} PreparedDropsShortestPrefix(segs: seq<Segment>, profile: Profile, counter: Counter)
    returns (k: nat)
    requires Prepare(segs, profile, counter).Fits?
    ensures
      var p, kept := Prepare(segs, profile, counter).prepared, Survivors(segs, |segs|);
      var order := DropOrder(kept);
      && Accepted(segs) && k <= |order|
      && p.included == Remaining(kept, order[..k]) && p.excluded == Duplicates(segs, |segs|) + OverBudgetOf(order[..k])
      && p.tokens == counter(Chat(p.included)).tokens <= profile.Available()
      && counter(Chat(p.included)).identity == profile.identity
      && p.total == p.tokens + profile.reservedOutput + profile.safetyMargin <= profile.maxContext
      && forall j | 0 <= j < k :: TooMany(segs, profile, counter, j)
  {
    hide Survivors, DropOrder, Fit, Remaining, Duplicates;
    k := FitSearch(segs, profile, counter, 0);
  }

  // ---------------------------------------------------------------- theorems

  ghost predicate NamedIn(s: Segment, excluded: seq<Excluded>) { exists x <- excluded :: x.sourceId == s.sourceId }

  lemma {:induction false} OverBudgetNamed(s: Segment, dropped: seq<Segment>)
    ensures NamedIn(s, OverBudgetOf(dropped)) <==> Named(s, dropped)
  {
    var o := OverBudgetOf(dropped);
    if Named(s, dropped) {
      var i :| 0 <= i < |dropped| && dropped[i].sourceId == s.sourceId;
      assert o[i] in o;
    }
  }

  lemma {:induction false} DuplicateNamed(segs: seq<Segment>, i: nat)
    requires UniqueIds(segs) && i < |segs|
    ensures NamedIn(segs[i], Duplicates(segs, |segs|)) <==> !Survives(segs, i)
  {
    if !Survives(segs, i) { DuplicatesNamed(segs, |segs|, i); }
    forall x <- Duplicates(segs, |segs|) | x.sourceId == segs[i].sourceId ensures !Survives(segs, i) {
      DuplicatesOnly(segs, |segs|, x);
    }
  }

  /** A source is left after deduplication and dropping exactly when no exclusion names it. */
  lemma {:induction false} LeftIffNotExcluded(segs: seq<Segment>, dropped: seq<Segment>, i: nat)
    requires UniqueIds(segs) && i < |segs|
    ensures segs[i] in Remaining(Survivors(segs, |segs|), dropped) <==>
            !NamedIn(segs[i], Duplicates(segs, |segs|) + OverBudgetOf(dropped))
  {
    hide Remaining, Survivors, Duplicates;
    SurvivorsInOrder(segs, |segs|);
    RemainingInOrder(Survivors(segs, |segs|), dropped);
    DuplicateNamed(segs, i);
    OverBudgetNamed(segs[i], dropped);
  }

  lemma {:induction false} LeftInOrder(segs: seq<Segment>, k: nat)
    requires UniqueIds(segs) && k <= |DropOrder(Survivors(segs, |segs|))|
    ensures
      var kept := Survivors(segs, |segs|);
      var left := Remaining(kept, DropOrder(kept)[..k]);
      Subsequence(left, segs) && |left| + |Duplicates(segs, |segs|)| + k == |segs|
  {
    hide Remaining, Survivors, Duplicates, DropOrder;
    var kept := Survivors(segs, |segs|);
    SurvivorsInOrder(segs, |segs|);
    SurvivorsSingle(segs);
    RemainingInOrder(kept, DropOrder(kept)[..k]);
    assert segs[..|segs|] == segs;
    SubsequenceTransitive(Remaining(kept, DropOrder(kept)[..k]), kept, segs);
    DropOrderMembers(kept);
    DropOrderUnique(kept);
    RemainingCount(kept, DropOrder(kept), k);
  }

  /** Every source is included or excluded, never both, and the included keep their input order. */
  lemma {:induction false} PreparedPartitions(segs: seq<Segment>, profile: Profile, counter: Counter)
    requires Prepare(segs, profile, counter).Fits?
    ensures
      var p := Prepare(segs, profile, counter).prepared;
      && Subsequence(p.included, segs)
      && |p.included| + |p.excluded| == |segs|
      && (forall s <- segs :: s in p.included <==> !NamedIn(s, p.excluded))
  {
    hide Fit, Remaining, DropOrder, Survivors, Duplicates, NamedIn, Subsequence;
    var k := PreparedDropsShortestPrefix(segs, profile, counter);
    LeftInOrder(segs, k);
    forall i | 0 <= i < |segs| ensures
        var p := Prepare(segs, profile, counter).prepared; segs[i] in p.included <==> !NamedIn(segs[i], p.excluded) {
      LeftIffNotExcluded(segs, DropOrder(Survivors(segs, |segs|))[..k], i);
    }
  }

  /** Required sources are always included. */
  lemma {:induction false} PreparedKeepsRequired(segs: seq<Segment>, profile: Profile, counter: Counter, s: Segment)
    requires Prepare(segs, profile, counter).Fits? && s in segs && s.required
    ensures s in Prepare(segs, profile, counter).prepared.included
  {
    hide Fit, Remaining, DropOrder, Survivors, Duplicates;
    var k := PreparedDropsShortestPrefix(segs, profile, counter);
    var kept := Survivors(segs, |segs|);
    SurvivorsInOrder(segs, |segs|);
    var i :| 0 <= i < |segs| && segs[i] == s;
    assert Survives(segs, i);
    RemainingInOrder(kept, DropOrder(kept)[..k]);
    DropOrderMembers(kept);
    forall x <- DropOrder(kept)[..k] ensures x.sourceId != s.sourceId {
      assert x in DropOrder(kept);
      var j :| 0 <= j < |segs| && segs[j] == x;
    }
  }

  lemma {:induction false} SubsequenceStaysSingle(a: seq<Segment>, b: seq<Segment>)
    requires Subsequence(a, b) && UniqueIds(b) && ClassesSingle(b)
    ensures ClassesSingle(a)
  {
    SubsequenceKeepsUnique(a, b);
    forall i, j | 0 <= i < |a| && 0 <= j < |a| && !a[i].required && !a[j].required && KeyOf(a[i]) == KeyOf(a[j])
      ensures i == j
    {
      assert a[i] in b && a[j] in b;
      var x :| 0 <= x < |b| && b[x] == a[i];
      var y :| 0 <= y < |b| && b[y] == a[j];
    }
  }

  /** Preparing what was included again includes all of it, at the same count. */
  lemma {:induction false} PreparationIdempotent(segs: seq<Segment>, profile: Profile, counter: Counter)
    requires Prepare(segs, profile, counter).Fits?
    ensures
      var p := Prepare(segs, profile, counter).prepared;
      Prepare(p.included, profile, counter) == Fits(p.(excluded := []))
  {
    hide Remaining, DropOrder, Duplicates;
    var k := PreparedDropsShortestPrefix(segs, profile, counter);
    var p, kept := Prepare(segs, profile, counter).prepared, Survivors(segs, |segs|);
    SurvivorsSingle(segs);
    RemainingInOrder(kept, DropOrder(kept)[..k]);
    SubsequenceKeepsUnique(p.included, kept);
    SubsequenceStaysSingle(p.included, kept);
    AllSurvive(p.included, |p.included|);
    assert p.included[..|p.included|] == p.included;
    var s :| s in segs && s.required;
    PreparedKeepsRequired(segs, profile, counter, s);
    FitsAtOnce(p.included, DropOrder(p.included), profile, counter);
  }

  lemma {:induction false} FitsAtOnce(kept: seq<Segment>, order: seq<Segment>, profile: Profile, counter: Counter)
    requires counter(Chat(kept)).identity == profile.identity && counter(Chat(kept)).tokens <= profile.Available()
    ensures
      var tokens := counter(Chat(kept)).tokens;
      Fit(kept, order, 0, profile, counter, []) ==
      Fits(Prepared(kept, tokens, tokens + profile.reservedOutput + profile.safetyMargin, []))
  {
    RemainingNone(kept);
    assert order[..0] == [] && [] + OverBudgetOf([]) == [];
  }
}
