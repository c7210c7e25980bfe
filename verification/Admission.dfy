/** Per-tenant admission windows and permits: backend/control/admission.py and the permit of backend/control/api.py. */
module Admission {

  datatype QuotaPolicy = QuotaPolicy(requests: nat, concurrent: nat, tokens: nat)

  datatype Usage = Usage(windowStarted: real, requests: nat, tokens: nat, concurrent: nat)

  const WINDOW := 60.0

  // ------------------------------------------------------------- the controller

  /** The tenant's usage at `now`, in a fresh window when the old one is over. */
  function Current(usage: map<string, Usage>, tenant: string, now: real): Usage {
    var u := if tenant in usage then usage[tenant] else Usage(now, 0, 0, 0);
    if now - u.windowStarted >= WINDOW then Usage(now, 0, 0, u.concurrent) else u
  }

  predicate Admits(
      policies: map<string, QuotaPolicy>, usage: map<string, Usage>, tenant: string, tokens: int, now: real) {
    && tenant in policies && tokens >= 0
    && (var u, p := Current(usage, tenant, now), policies[tenant];
        u.requests < p.requests && u.tokens + tokens <= p.tokens && u.concurrent < p.concurrent)
  }

  function AfterAdmit(
      policies: map<string, QuotaPolicy>, usage: map<string, Usage>, tenant: string, tokens: int,
      now: real): map<string, Usage> {
    if tenant !in policies || tokens < 0 then usage
    else
      var u := Current(usage, tenant, now);
      usage[tenant := if Admits(policies, usage, tenant, tokens, now)
                      then Usage(u.windowStarted, u.requests + 1, u.tokens + tokens, u.concurrent + 1) else u]
  }

  function AfterRelease(usage: map<string, Usage>, tenant: string): map<string, Usage> {
    if tenant in usage && usage[tenant].concurrent > 0
    then usage[tenant := usage[tenant].(concurrent := usage[tenant].concurrent - 1)] else usage
  }

  class AdmissionController {
    const policies: map<string, QuotaPolicy>
    var usage: map<string, Usage>

    constructor (policies: map<string, QuotaPolicy>)
      ensures this.policies == policies && usage == map[]
    {
      this.policies := policies;
      usage := map[];
    }

    method Admit(tenant: string, tokens: int, now: real) returns (ok: bool)
      modifies this
      ensures ok == Admits(policies, old(usage), tenant, tokens, now)
      ensures usage == AfterAdmit(policies, old(usage), tenant, tokens, now)
    {
      if tenant !in policies || tokens < 0 { return false; }
      var policy := policies[tenant];
      var u := if tenant in usage then usage[tenant] else Usage(now, 0, 0, 0);
      if now - u.windowStarted >= WINDOW {
        u := u.(windowStarted := now, requests := 0, tokens := 0);
      }
      usage := usage[tenant := u];
      if u.requests >= policy.requests || u.tokens + tokens > policy.tokens || u.concurrent >= policy.concurrent {
        return false;
      }
      usage := usage[tenant := Usage(u.windowStarted, u.requests + 1, u.tokens + tokens, u.concurrent + 1)];
      return true;
    }

    method Release(tenant: string)
      modifies this
      ensures usage == AfterRelease(old(usage), tenant)
    {
      if tenant in usage && usage[tenant].concurrent > 0 {
        usage := usage[tenant := usage[tenant].(concurrent := usage[tenant].concurrent - 1)];
      }
    }
  }

  class AdmissionPermit {
    const controller: AdmissionController
    const tenant: string
    var released: bool

    constructor (controller: AdmissionController, tenant: string)
      ensures this.controller == controller && this.tenant == tenant && !released
    {
      this.controller, this.tenant, released := controller, tenant, false;
    }

    /** Only the first release reaches the controller. */
    method Release()
      modifies this, controller
      ensures released
      ensures controller.usage ==
              if old(released) then old(controller.usage) else AfterRelease(old(controller.usage), tenant)
    {
      if !released {
        controller.Release(tenant);
        released := true;
      }
    }
  }

  /** `APIControlPlane.admit`: a permit for an admitted request, or a refusal. */
  method AdmitRequest(controller: AdmissionController, tenant: string, tokens: int, now: real)
    returns (permit: AdmissionPermit?)
    modifies controller
    ensures permit != null <==> Admits(controller.policies, old(controller.usage), tenant, tokens, now)
    ensures controller.usage == AfterAdmit(controller.policies, old(controller.usage), tenant, tokens, now)
    ensures permit != null ==>
              && fresh(permit) && permit.controller == controller && permit.tenant == tenant
              && !permit.released
  {
    var ok := controller.Admit(tenant, tokens, now);
    if !ok { return null; }
    permit := new AdmissionPermit(controller, tenant);
  }

  // ------------------------------------------------------------------- runs

  datatype Permit = Permit(tenant: string, released: bool)

  /** One admitted request, and the window it was counted in. */
  datatype Grant = Grant(tenant: string, time: real, tokens: nat, window: real)

  datatype World = World(usage: map<string, Usage>, permits: seq<Permit>, grants: seq<Grant>, clock: real)

  datatype Op = Ask(tenant: string, tokens: int, now: real) | GiveBack(permit: nat)

  function Apply(policies: map<string, QuotaPolicy>, w: World, op: Op): World {
    match op
    case Ask(tenant, tokens, now) =>
      var usage := AfterAdmit(policies, w.usage, tenant, tokens, now);
      if Admits(policies, w.usage, tenant, tokens, now) then
        World(usage, w.permits + [Permit(tenant, false)],
              w.grants + [Grant(tenant, now, tokens, usage[tenant].windowStarted)], now)
      else World(usage, w.permits, w.grants, now)
    case GiveBack(p) =>
      if p < |w.permits| && !w.permits[p].released then
        w.(usage := AfterRelease(w.usage, w.permits[p].tenant),
           permits := w.permits[p := w.permits[p].(released := true)])
      else w
  }

  /** The clock never runs backwards. */
  predicate Timely(w: World, op: Op) { op.Ask? ==> w.clock <= op.now }

  predicate IsRun(policies: map<string, QuotaPolicy>, w: World, ops: seq<Op>)
    decreases |ops|
  {
    ops != [] ==> Timely(w, ops[0]) && IsRun(policies, Apply(policies, w, ops[0]), ops[1..])
  }

  function Run(policies: map<string, QuotaPolicy>, w: World, ops: seq<Op>): World
    decreases |ops|
  {
    if ops == [] then w else Run(policies, Apply(policies, w, ops[0]), ops[1..])
  }

  function Fresh(clock: real): World { World(map[], [], [], clock) }

  // --------------------------------------------------------------- counting

  function Live(permits: seq<Permit>, tenant: string): nat {
    if permits == [] then 0
    else Live(permits[..|permits| - 1], tenant) + if permits[|permits| - 1] == Permit(tenant, false) then 1 else 0
  }

  lemma {:induction false} LiveAppend(permits: seq<Permit>, p: Permit, tenant: string)
    ensures Live(permits + [p], tenant) == Live(permits, tenant) + if p == Permit(tenant, false) then 1 else 0
  {
    assert (permits + [p])[..|permits|] == permits;
  }

  lemma {:induction false} LiveRelease(permits: seq<Permit>, p: nat, tenant: string)
    requires p < |permits| && !permits[p].released
    ensures Live(permits[p := permits[p].(released := true)], tenant) ==
            Live(permits, tenant) - if permits[p].tenant == tenant then 1 else 0
    decreases |permits|
  {
    var k := |permits| - 1;
    var changed := permits[p := permits[p].(released := true)];
    if p == k {
      assert changed[..k] == permits[..k];
    } else {
      LiveRelease(permits[..k], p, tenant);
      assert changed[..k] == permits[..k][p := permits[p].(released := true)];
    }
  }

  /** The weight of the grants a test selects. */
  function Total(grants: seq<Grant>, test: Grant -> bool, weight: Grant -> nat): nat {
    if grants == [] then 0
    else
      var last := grants[|grants| - 1];
      Total(grants[..|grants| - 1], test, weight) + if test(last) then weight(last) else 0
  }

  lemma {:induction false} TotalNone(grants: seq<Grant>, test: Grant -> bool, weight: Grant -> nat)
    requires forall g <- grants :: !test(g)
    ensures Total(grants, test, weight) == 0
  {
    if grants != [] { TotalNone(grants[..|grants| - 1], test, weight); }
  }

  /** A selection covered by two others weighs at most as much as both. */
  lemma {:induction false} TotalCovered(
      grants: seq<Grant>, test: Grant -> bool, a: Grant -> bool, b: Grant -> bool, weight: Grant -> nat)
    requires forall g <- grants | test(g) :: a(g) || b(g)
    ensures Total(grants, test, weight) <= Total(grants, a, weight) + Total(grants, b, weight)
  {
    if grants != [] { TotalCovered(grants[..|grants| - 1], test, a, b, weight); }
  }

  function InWindow(tenant: string, window: real): Grant -> bool {
    (g: Grant) => g.tenant == tenant && g.window == window
  }

  function InSpan(tenant: string, start: real): Grant -> bool {
    (g: Grant) => g.tenant == tenant && start <= g.time <= start + WINDOW
  }

  function One(): Grant -> nat { (g: Grant) => 1 }

  function Tokens(): Grant -> nat { (g: Grant) => g.tokens }

  // -------------------------------------------------------------- invariant

  /** Every window's grants stay within the quotas, and the open window's counters are exact. */
  ghost predicate CountedOk(policies: map<string, QuotaPolicy>, w: World, tenant: string) {
    && (tenant in w.usage ==>
          && tenant in policies
          && w.usage[tenant].windowStarted <= w.clock
          && Total(w.grants, InWindow(tenant, w.usage[tenant].windowStarted), One()) == w.usage[tenant].requests
          && Total(w.grants, InWindow(tenant, w.usage[tenant].windowStarted), Tokens()) == w.usage[tenant].tokens
          && w.usage[tenant].concurrent == Live(w.permits, tenant) <= policies[tenant].concurrent)
    && (tenant !in w.usage ==> Live(w.permits, tenant) == 0)
  }

  ghost predicate WindowOk(policies: map<string, QuotaPolicy>, w: World, tenant: string, window: real) {
    tenant in policies ==>
      && Total(w.grants, InWindow(tenant, window), One()) <= policies[tenant].requests
      && Total(w.grants, InWindow(tenant, window), Tokens()) <= policies[tenant].tokens
  }

  /** A grant falls inside its window, which is the tenant's open one or ended before the open one began. */
  ghost predicate GrantOk(w: World, g: Grant) {
    && g.tenant in w.usage && g.window <= g.time < g.window + WINDOW
    && (g.window == w.usage[g.tenant].windowStarted || g.window + WINDOW <= w.usage[g.tenant].windowStarted)
  }

  /** A tenant's windows do not overlap, and open in the order of its grants. */
  ghost predicate Apart(g: Grant, later: Grant) {
    g.tenant == later.tenant ==> g.window == later.window || g.window + WINDOW <= later.window
  }

  ghost predicate Inv(policies: map<string, QuotaPolicy>, w: World) {
    && (forall t {:trigger CountedOk(policies, w, t)} :: CountedOk(policies, w, t))
    && (forall t, s {:trigger WindowOk(policies, w, t, s)} :: WindowOk(policies, w, t, s))
    && (forall i {:trigger GrantOk(w, w.grants[i])} | 0 <= i < |w.grants| :: GrantOk(w, w.grants[i]))
    && (forall i, j {:trigger Apart(w.grants[i], w.grants[j])} | 0 <= i < j < |w.grants| ::
       Apart(w.grants[i], w.grants[j]))
  }

  lemma {:induction false} FreshHasInv(policies: map<string, QuotaPolicy>, clock: real)
    ensures Inv(policies, Fresh(clock))
  {}

  /** Rolling the window over keeps the counters exact: nothing was granted yet in the new one. */
  lemma {:induction false} CurrentExact(policies: map<string, QuotaPolicy>, w: World, tenant: string, now: real)
    requires Inv(policies, w) && w.clock <= now
    ensures
      var u := Current(w.usage, tenant, now);
      && u.windowStarted <= now < u.windowStarted + WINDOW
      && Total(w.grants, InWindow(tenant, u.windowStarted), One()) == u.requests
      && Total(w.grants, InWindow(tenant, u.windowStarted), Tokens()) == u.tokens
      && u.concurrent == Live(w.permits, tenant)
      && (tenant in w.usage ==>
            u.windowStarted == w.usage[tenant].windowStarted
                || w.usage[tenant].windowStarted + WINDOW <= u.windowStarted)
  {
    assert CountedOk(policies, w, tenant);
    var u := Current(w.usage, tenant, now);
    if tenant !in w.usage || w.usage[tenant].windowStarted != u.windowStarted {
      forall g <- w.grants ensures !InWindow(tenant, u.windowStarted)(g) {
        var i :| 0 <= i < |w.grants| && w.grants[i] == g;
        assert GrantOk(w, w.grants[i]);
      }
      TotalNone(w.grants, InWindow(tenant, u.windowStarted), One());
      TotalNone(w.grants, InWindow(tenant, u.windowStarted), Tokens());
    }
  }

  lemma {:induction false} AskGrantOk(
      policies: map<string, QuotaPolicy>, w: World, tenant: string, tokens: int, now: real, i: nat)
    requires Inv(policies, w) && w.clock <= now
    requires i < |Apply(policies, w, Ask(tenant, tokens, now)).grants|
    ensures
      var w' := Apply(policies, w, Ask(tenant, tokens, now));
      GrantOk(w', w'.grants[i]) && (i < |w.grants| ==> w'.grants[i] == w.grants[i])
  {
    CurrentExact(policies, w, tenant, now);
    if i < |w.grants| { assert GrantOk(w, w.grants[i]); }
  }

  lemma {:induction false} AskCountedOk(
      policies: map<string, QuotaPolicy>, w: World, tenant: string, tokens: int, now: real, t: string)
    requires Inv(policies, w) && w.clock <= now
    ensures CountedOk(policies, Apply(policies, w, Ask(tenant, tokens, now)), t)
  {
    hide Total, Live, InWindow;
    assert CountedOk(policies, w, t);
    CurrentExact(policies, w, tenant, now);
    var w' := Apply(policies, w, Ask(tenant, tokens, now));
    if Admits(policies, w.usage, tenant, tokens, now) {
      var g := Grant(tenant, now, tokens, w'.usage[tenant].windowStarted);
      LiveAppend(w.permits, Permit(tenant, false), t);
      if t in w'.usage { AppendCounts(w.grants, g, t, w'.usage[t].windowStarted); }
    }
  }

  lemma {:induction false} AppendCounts(grants: seq<Grant>, g: Grant, tenant: string, window: real)
    ensures
      var counted := g.tenant == tenant && g.window == window;
      && Total(grants + [g], InWindow(tenant, window), One()) ==
         Total(grants, InWindow(tenant, window), One()) + (if counted then 1 else 0)
      && Total(grants + [g], InWindow(tenant, window), Tokens()) ==
         Total(grants, InWindow(tenant, window), Tokens()) + (if counted then g.tokens else 0)
  {
  }

  lemma {:induction false} AskWindowOk(
      policies: map<string, QuotaPolicy>, w: World, tenant: string, tokens: int, now: real, t: string, s: real)
    requires Inv(policies, w) && w.clock <= now
    ensures WindowOk(policies, Apply(policies, w, Ask(tenant, tokens, now)), t, s)
  {
    assert WindowOk(policies, w, t, s);
    CurrentExact(policies, w, tenant, now);
    var w' := Apply(policies, w, Ask(tenant, tokens, now));
    if Admits(policies, w.usage, tenant, tokens, now) {
      var g := Grant(tenant, now, tokens, w'.usage[tenant].windowStarted);
      AppendCounts(w.grants, g, t, s);
    }
  }

  lemma {:induction false} AskKeepsInv(
      policies: map<string, QuotaPolicy>, w: World, tenant: string, tokens: int, now: real)
    requires Inv(policies, w) && w.clock <= now
    ensures Inv(policies, Apply(policies, w, Ask(tenant, tokens, now)))
  {
    var w' := Apply(policies, w, Ask(tenant, tokens, now));
    forall t ensures CountedOk(policies, w', t) { AskCountedOk(policies, w, tenant, tokens, now, t); }
    forall t, s ensures WindowOk(policies, w', t, s) { AskWindowOk(policies, w, tenant, tokens, now, t, s); }
    forall i | 0 <= i < |w'.grants| ensures GrantOk(w', w'.grants[i]) {
      AskGrantOk(policies, w, tenant, tokens, now, i);
    }
    forall i, j | 0 <= i < j < |w'.grants| ensures Apart(w'.grants[i], w'.grants[j]) {
      AskGrantOk(policies, w, tenant, tokens, now, i);
      if j < |w.grants| {
        AskGrantOk(policies, w, tenant, tokens, now, j);
        assert Apart(w.grants[i], w.grants[j]);
      } else {
        assert GrantOk(w', w'.grants[i]);
      }
    }
  }

  lemma {:induction false} GiveBackKeepsInv(policies: map<string, QuotaPolicy>, w: World, p: nat)
    requires Inv(policies, w)
    ensures Inv(policies, Apply(policies, w, GiveBack(p)))
  {
    var w' := Apply(policies, w, GiveBack(p));
    if p < |w.permits| && !w.permits[p].released {
      forall t ensures CountedOk(policies, w', t) {
        assert CountedOk(policies, w, t);
        LiveRelease(w.permits, p, t);
      }
      forall t, s ensures WindowOk(policies, w', t, s) { assert WindowOk(policies, w, t, s); }
      forall i | 0 <= i < |w'.grants| ensures GrantOk(w', w'.grants[i]) { assert GrantOk(w, w.grants[i]); }
      forall i, j | 0 <= i < j < |w'.grants| ensures Apart(w'.grants[i], w'.grants[j]) {
        assert Apart(w.grants[i], w.grants[j]);
      }
    }
  }

  lemma {:induction false} RunKeepsInv(policies: map<string, QuotaPolicy>, w: World, ops: seq<Op>)
    requires Inv(policies, w) && IsRun(policies, w, ops)
    ensures Inv(policies, Run(policies, w, ops))
    decreases |ops|
  {
    if ops != [] {
      match ops[0] {
        case Ask(tenant, tokens, now) => AskKeepsInv(policies, w, tenant, tokens, now);
        case GiveBack(p) => GiveBackKeepsInv(policies, w, p);
      }
      RunKeepsInv(policies, Apply(policies, w, ops[0]), ops[1..]);
    }
  }

  // ------------------------------------------------------------- theorems

  /** Over any run the concurrent count is the number of live permits, and stays within the limit. */
  lemma {:induction false} ConcurrencyIsLivePermits(
      policies: map<string, QuotaPolicy>, clock: real, ops: seq<Op>, tenant: string)
    requires IsRun(policies, Fresh(clock), ops)
    ensures
      var w := Run(policies, Fresh(clock), ops);
      && (tenant in w.usage ==> w.usage[tenant].concurrent == Live(w.permits, tenant))
      && (tenant in policies ==> Live(w.permits, tenant) <= policies[tenant].concurrent)
      && (tenant !in policies ==> Live(w.permits, tenant) == 0)
  {
    FreshHasInv(policies, clock);
    RunKeepsInv(policies, Fresh(clock), ops);
    assert CountedOk(policies, Run(policies, Fresh(clock), ops), tenant);
  }

  /** The instant the tenant's current window opened: the last one, unless sixty seconds have passed since. */
  function Opened(w: World, tenant: string, now: real): real {
    if tenant in w.usage && now - w.usage[tenant].windowStarted < 60.0 then w.usage[tenant].windowStarted else now
  }

  /** After every run a request is admitted exactly when the tenant is known, the estimate not negative, a permit free,
      and the window's requests and tokens granted so far leave room for it. A known tenant's request opens a new window
      exactly when the last one is over, admitted or not. */
  lemma {:induction false} AdmittedExactly(
      policies: map<string, QuotaPolicy>, clock: real, ops: seq<Op>, tenant: string, tokens: int, now: real)
    requires IsRun(policies, Fresh(clock), ops) && Run(policies, Fresh(clock), ops).clock <= now
    ensures
      var w := Run(policies, Fresh(clock), ops);
      var counted := InWindow(tenant, Opened(w, tenant, now));
      && (Admits(policies, w.usage, tenant, tokens, now) <==>
            && tenant in policies && tokens >= 0
            && Live(w.permits, tenant) < policies[tenant].concurrent
            && Total(w.grants, counted, One()) < policies[tenant].requests
            && Total(w.grants, counted, Tokens()) + tokens <= policies[tenant].tokens)
      && (tenant in policies && tokens >= 0 ==>
            var after := Apply(policies, w, Ask(tenant, tokens, now));
            tenant in after.usage && after.usage[tenant].windowStarted == Opened(w, tenant, now))
  {
    FreshHasInv(policies, clock);
    RunKeepsInv(policies, Fresh(clock), ops);
    var w := Run(policies, Fresh(clock), ops);
    CurrentExact(policies, w, tenant, now);
    hide Run, IsRun, Total, Live;
  }

  /** The grants of one span fall into two windows: the first one's and the last one's. */
  lemma {:induction false} SpanTouchesTwoWindows(
      policies: map<string, QuotaPolicy>, w: World, tenant: string, start: real, first: nat, last: nat, k: nat)
    requires Inv(policies, w) && first <= k <= last < |w.grants|
    requires InSpan(tenant, start)(w.grants[first]) && InSpan(tenant, start)(w.grants[last])
    requires InSpan(tenant, start)(w.grants[k])
    ensures w.grants[k].window == w.grants[first].window || w.grants[k].window == w.grants[last].window
  {
    assert GrantOk(w, w.grants[first]) && GrantOk(w, w.grants[last]) && GrantOk(w, w.grants[k]);
    if first < k < last { assert Apart(w.grants[first], w.grants[k]) && Apart(w.grants[k], w.grants[last]); }
  }

  lemma {:induction false} SpanEnds(grants: seq<Grant>, test: Grant -> bool) returns (first: nat, last: nat)
    requires exists g <- grants :: test(g)
    ensures first <= last < |grants| && test(grants[first]) && test(grants[last])
    ensures forall k | 0 <= k < |grants| && test(grants[k]) :: first <= k <= last
  {
    var n := |grants| - 1;
    if exists g <- grants[..n] :: test(g) {
      first, last := SpanEnds(grants[..n], test);
      assert forall k | 0 <= k < n :: grants[..n][k] == grants[k];
      if test(grants[n]) { last := n; }
    } else {
      first, last := n, n;
      assert forall k | 0 <= k < n :: grants[k] in grants[..n];
    }
  }

  /** Any 60-second span admits at most twice the per-minute request and token quotas. */
  lemma {:induction false} SpanWithinTwiceQuota(
      policies: map<string, QuotaPolicy>, clock: real, ops: seq<Op>, tenant: string, start: real)
    requires IsRun(policies, Fresh(clock), ops) && tenant in policies
    ensures
      var grants := Run(policies, Fresh(clock), ops).grants;
      && Total(grants, InSpan(tenant, start), One()) <= 2 * policies[tenant].requests
      && Total(grants, InSpan(tenant, start), Tokens()) <= 2 * policies[tenant].tokens
  {
    FreshHasInv(policies, clock);
    RunKeepsInv(policies, Fresh(clock), ops);
    var w := Run(policies, Fresh(clock), ops);
    var test := InSpan(tenant, start);
    if exists g <- w.grants :: test(g) {
      var first, last := SpanEnds(w.grants, test);
      var a, b := w.grants[first].window, w.grants[last].window;
      forall g <- w.grants | test(g) ensures InWindow(tenant, a)(g) || InWindow(tenant, b)(g) {
        var k :| 0 <= k < |w.grants| && w.grants[k] == g;
        SpanTouchesTwoWindows(policies, w, tenant, start, first, last, k);
      }
      assert WindowOk(policies, w, tenant, a) && WindowOk(policies, w, tenant, b);
      TotalCovered(w.grants, test, InWindow(tenant, a), InWindow(tenant, b), One());
      TotalCovered(w.grants, test, InWindow(tenant, a), InWindow(tenant, b), Tokens());
    } else {
      TotalNone(w.grants, test, One());
      TotalNone(w.grants, test, Tokens());
    }
  }

  // ------------------------------------------- exactly when one quota is kept

  lemma {:induction false} TotalWithin(grants: seq<Grant>, test: Grant -> bool, a: Grant -> bool, weight: Grant -> nat)
    requires forall g <- grants | test(g) :: a(g)
    ensures Total(grants, test, weight) <= Total(grants, a, weight)
  {
    if grants != [] { TotalWithin(grants[..|grants| - 1], test, a, weight); }
  }

  /** The grants of a span that were all counted in windows opened by its start were counted in one window. */
  lemma {:induction false} EarlierWindowIsOne(
      policies: map<string, QuotaPolicy>, w: World, tenant: string, start: real, j: nat, k: nat)
    requires Inv(policies, w) && j <= k < |w.grants|
    requires InSpan(tenant, start)(w.grants[j]) && InSpan(tenant, start)(w.grants[k]) && w.grants[k].window <= start
    ensures w.grants[j].window == w.grants[k].window
  {
    assert GrantOk(w, w.grants[j]) && GrantOk(w, w.grants[k]);
    if j < k { assert Apart(w.grants[j], w.grants[k]); }
  }

  /** A 60-second span in which no window of the tenant opens stays within one request quota and one token quota: every
      span over either quota holds a grant counted in a window that opened after the span began. */
  lemma {:induction false} SpanWithinOneQuota(
      policies: map<string, QuotaPolicy>, clock: real, ops: seq<Op>, tenant: string, start: real)
    requires IsRun(policies, Fresh(clock), ops) && tenant in policies
    ensures
      var grants := Run(policies, Fresh(clock), ops).grants;
      || (exists g <- grants :: InSpan(tenant, start)(g) && start < g.window <= start + WINDOW)
      || (&& Total(grants, InSpan(tenant, start), One()) <= policies[tenant].requests
          && Total(grants, InSpan(tenant, start), Tokens()) <= policies[tenant].tokens)
  {
    FreshHasInv(policies, clock);
    RunKeepsInv(policies, Fresh(clock), ops);
    var w := Run(policies, Fresh(clock), ops);
    var test := InSpan(tenant, start);
    if exists k :: 0 <= k < |w.grants| && test(w.grants[k]) && start < w.grants[k].window {
      var k :| 0 <= k < |w.grants| && test(w.grants[k]) && start < w.grants[k].window;
      assert GrantOk(w, w.grants[k]) && w.grants[k] in w.grants;
    } else if exists g <- w.grants :: test(g) {
      var first, last := SpanEnds(w.grants, test);
      var window := w.grants[first].window;
      forall g <- w.grants | test(g) ensures InWindow(tenant, window)(g) {
        var k :| 0 <= k < |w.grants| && w.grants[k] == g;
        EarlierWindowIsOne(policies, w, tenant, start, first, k);
      }
      assert WindowOk(policies, w, tenant, window);
      TotalWithin(w.grants, test, InWindow(tenant, window), One());
      TotalWithin(w.grants, test, InWindow(tenant, window), Tokens());
    } else {
      TotalNone(w.grants, test, One());
      TotalNone(w.grants, test, Tokens());
    }
  }

  lemma {:induction false} RunConcat(policies: map<string, QuotaPolicy>, w: World, a: seq<Op>, b: seq<Op>)
    requires IsRun(policies, w, a)
    ensures Run(policies, w, a + b) == Run(policies, Run(policies, w, a), b)
    ensures IsRun(policies, w, a + b) <==> IsRun(policies, Run(policies, w, a), b)
    decreases |a|
  {
    if a == [] {
      assert a + b == b;
    } else {
      RunConcat(policies, Apply(policies, w, a[0]), a[1..], b);
      assert a + b == [a[0]] + (a[1..] + b);
    }
  }

  lemma {:induction false} TotalConcat(a: seq<Grant>, b: seq<Grant>, test: Grant -> bool, weight: Grant -> nat)
    ensures Total(a + b, test, weight) == Total(a, test, weight) + Total(b, test, weight)
  {
    if b == [] {
      assert a + b == a;
    } else {
      var front, last := b[..|b| - 1], b[|b| - 1];
      TotalConcat(a, front, test, weight);
      assert (a + b)[..|a + b| - 1] == a + front;
    }
  }

  /** `n` requests in a row at one instant, each giving its permit back; the first asks for all the tokens. */
  function Burst(tenant: string, n: nat, tokens: nat, now: real, permit: nat): seq<Op> {
    if n == 0 then [] else [Ask(tenant, tokens, now), GiveBack(permit)] + Burst(tenant, n - 1, 0, now, permit + 1)
  }

  function BurstGrants(tenant: string, n: nat, tokens: nat, now: real, window: real): seq<Grant> {
    if n == 0 then [] else [Grant(tenant, now, tokens, window)] + BurstGrants(tenant, n - 1, 0, now, window)
  }

  lemma {:induction false} BurstTotals(tenant: string, n: nat, tokens: nat, now: real, window: real, start: real)
    requires start <= now <= start + WINDOW
    ensures
      var grants := BurstGrants(tenant, n, tokens, now, window);
      && Total(grants, InSpan(tenant, start), One()) == n
      && Total(grants, InSpan(tenant, start), Tokens()) == (if n == 0 then 0 else tokens)
      && forall g <- grants :: g.window == window
  {
    if n > 0 {
      var g := Grant(tenant, now, tokens, window);
      BurstTotals(tenant, n - 1, 0, now, window, start);
      TotalConcat([g], BurstGrants(tenant, n - 1, 0, now, window), InSpan(tenant, start), One());
      TotalConcat([g], BurstGrants(tenant, n - 1, 0, now, window), InSpan(tenant, start), Tokens());
      assert [] + [g] == [g];
    }
  }

  /** The world before a burst: the tenant holds no permit and its current window has room. */
  ghost predicate Room(policy: QuotaPolicy, w: World, tenant: string, n: nat, tokens: nat, now: real) {
    var u := Current(w.usage, tenant, now);
    && w.clock <= now && u.windowStarted <= now && u.concurrent == 0 < policy.concurrent
    && u.requests + n <= policy.requests && u.tokens + tokens <= policy.tokens
  }

  lemma {:induction false} BurstRuns(policy: QuotaPolicy, w: World, tenant: string, n: nat, tokens: nat, now: real)
    requires Room(policy, w, tenant, n, tokens, now)
    ensures
      var policies, ops := map[tenant := policy], Burst(tenant, n, tokens, now, |w.permits|);
      var u, after := Current(w.usage, tenant, now), Run(policies, w, ops);
      && IsRun(policies, w, ops)
      && after.grants == w.grants + BurstGrants(tenant, n, tokens, now, u.windowStarted)
      && (n > 0 ==> after.usage == w.usage[tenant := Usage(u.windowStarted, u.requests + n, u.tokens + tokens, 0)])
      && |after.permits| == |w.permits| + n && after.clock <= now
    decreases n
  {
    var policies, u := map[tenant := policy], Current(w.usage, tenant, now);
    if n > 0 {
      var ask, back := Ask(tenant, tokens, now), GiveBack(|w.permits|);
      var asked := Apply(policies, w, ask);
      var after := Apply(policies, asked, back);
      var rest := Burst(tenant, n - 1, 0, now, |w.permits| + 1);
      hide Apply;
      assert Current(after.usage, tenant, now) == after.usage[tenant];
      BurstRuns(policy, after, tenant, n - 1, 0, now);
      assert [ask, back] + rest == [ask] + ([back] + rest);
      var g := Grant(tenant, now, tokens, u.windowStarted);
      assert w.grants + [g] + BurstGrants(tenant, n - 1, 0, now, u.windowStarted)
        == w.grants + BurstGrants(tenant, n, tokens, now, u.windowStarted);
    }
  }

  /** A refused request opens a window, a burst fills it, and a burst fills the next one. */
  function TwoBursts(policy: QuotaPolicy, tenant: string, start: real, opening: real): seq<Op> {
    [Ask(tenant, policy.tokens + 1, opening - WINDOW)]
    + Burst(tenant, policy.requests, policy.tokens, start, 0)
    + Burst(tenant, policy.requests, policy.tokens, opening, policy.requests)
  }

  /** Wherever inside a span a window opens, a run with no other opening in the span attains twice both quotas, for
      every policy: neither the condition of `SpanWithinOneQuota` nor the factor of `SpanWithinTwiceQuota` can be
      relaxed. */
  lemma {:induction false} TwiceQuotaIsReached(policy: QuotaPolicy, tenant: string, start: real, opening: real)
    requires policy.requests >= 1 && policy.tokens >= 1 && policy.concurrent >= 1 && start < opening <= start + WINDOW
    ensures
      var policies, ops := map[tenant := policy], TwoBursts(policy, tenant, start, opening);
      var grants := Run(policies, Fresh(opening - WINDOW), ops).grants;
      && IsRun(policies, Fresh(opening - WINDOW), ops)
      && (forall g <- grants :: g.window == opening - WINDOW || g.window == opening)
      && Total(grants, InSpan(tenant, start), One()) == 2 * policy.requests
      && Total(grants, InSpan(tenant, start), Tokens()) == 2 * policy.tokens
  {
    var policies := map[tenant := policy];
    var q, t := policy.requests, policy.tokens;
    var w0 := Fresh(opening - WINDOW);
    var refused := [Ask(tenant, t + 1, opening - WINDOW)];
    var first, second := Burst(tenant, q, t, start, 0), Burst(tenant, q, t, opening, q);
    var w1 := Run(policies, w0, refused);
    OpenerRuns(policy, tenant, opening);
    BurstRuns(policy, w1, tenant, q, t, start);
    var w2 := Run(policies, w1, first);
    BurstRuns(policy, w2, tenant, q, t, opening);
    hide Run, IsRun, Total;
    RunConcat(policies, w0, refused, first);
    RunConcat(policies, w0, refused + first, second);
    var a, b := BurstGrants(tenant, q, t, start, opening - WINDOW), BurstGrants(tenant, q, t, opening, opening);
    assert Run(policies, w2, second).grants == a + b;
    BurstTotals(tenant, q, t, start, opening - WINDOW, start);
    BurstTotals(tenant, q, t, opening, opening, start);
    TotalConcat(a, b, InSpan(tenant, start), One());
    TotalConcat(a, b, InSpan(tenant, start), Tokens());
  }

  lemma {:induction false} OpenerRuns(policy: QuotaPolicy, tenant: string, opening: real)
    ensures
      var policies, ops := map[tenant := policy], [Ask(tenant, policy.tokens + 1, opening - WINDOW)];
      && IsRun(policies, Fresh(opening - WINDOW), ops)
      && Run(policies, Fresh(opening - WINDOW), ops)
         == World(map[tenant := Usage(opening - WINDOW, 0, 0, 0)], [], [], opening - WINDOW)
  {
    var op := Ask(tenant, policy.tokens + 1, opening - WINDOW);
    assert [op] + [] == [op];
  }

  /** A run whose grants were counted in the window opened at `opening` and the one a minute before it. */
  ghost predicate TwoWindowRun(policies: map<string, QuotaPolicy>, clock: real, ops: seq<Op>, opening: real) {
    && IsRun(policies, Fresh(clock), ops)
    && forall g <- Run(policies, Fresh(clock), ops).grants :: g.window == opening - WINDOW || g.window == opening
  }

  ghost predicate KeepsQuota(policies: map<string, QuotaPolicy>, clock: real, ops: seq<Op>, tenant: string, start: real)
    requires tenant in policies
  {
    var grants := Run(policies, Fresh(clock), ops).grants;
    && Total(grants, InSpan(tenant, start), One()) <= policies[tenant].requests
    && Total(grants, InSpan(tenant, start), Tokens()) <= policies[tenant].tokens
  }

  /** Such runs keep one quota in a span exactly when the reset does not fire inside it. */
  lemma {:induction false} OneQuotaExactly(policy: QuotaPolicy, tenant: string, start: real, opening: real)
    requires policy.requests >= 1 && policy.tokens >= 1 && policy.concurrent >= 1
    ensures
      var policies := map[tenant := policy];
      (forall clock, ops | TwoWindowRun(policies, clock, ops, opening) ::
          KeepsQuota(policies, clock, ops, tenant, start))
      <==> !(start < opening <= start + WINDOW)
  {
    var policies := map[tenant := policy];
    if start < opening <= start + WINDOW {
      TwiceQuotaIsReached(policy, tenant, start, opening);
      var ops := TwoBursts(policy, tenant, start, opening);
      hide Run, IsRun, TwoBursts;
      assert TwoWindowRun(policies, opening - WINDOW, ops, opening);
      assert !KeepsQuota(policies, opening - WINDOW, ops, tenant, start);
    } else {
      forall clock, ops | TwoWindowRun(policies, clock, ops, opening)
        ensures KeepsQuota(policies, clock, ops, tenant, start)
      {
        OutsideKeepsQuota(policies, clock, ops, tenant, start, opening);
      }
    }
  }

  lemma {:induction false} OutsideKeepsQuota(
      policies: map<string, QuotaPolicy>, clock: real, ops: seq<Op>, tenant: string, start: real, opening: real)
    requires tenant in policies && TwoWindowRun(policies, clock, ops, opening) && !(start < opening <= start + WINDOW)
    ensures KeepsQuota(policies, clock, ops, tenant, start)
  {
    hide Run, IsRun, Total;
    var w := Run(policies, Fresh(clock), ops);
    SpanWithinOneQuota(policies, clock, ops, tenant, start);
    if start + WINDOW < opening {
      FreshHasInv(policies, clock);
      RunKeepsInv(policies, Fresh(clock), ops);
      var window := opening - WINDOW;
      forall k | 0 <= k < |w.grants| && InSpan(tenant, start)(w.grants[k])
        ensures InWindow(tenant, window)(w.grants[k])
      {
        assert GrantOk(w, w.grants[k]) && w.grants[k] in w.grants;
      }
      assert WindowOk(policies, w, tenant, window);
      TotalWithin(w.grants, InSpan(tenant, start), InWindow(tenant, window), One());
      TotalWithin(w.grants, InSpan(tenant, start), InWindow(tenant, window), Tokens());
    }
  }
}
