/** Where the bounds of the Redis limiter hold, exactly: the runs that reach them, and the slack up to
    which the expiry of the key does no harm. */
module RedisLimiterExact {
  import opened Basics
  import opened RedisLimiter

  // ---- Which entries an expiring key can take along ----

  function Multiple(k: nat, step: real): real { if k == 0 then 0.0 else Multiple(k - 1, step) + step }

  lemma {:induction false} MultipleIsProduct(k: nat, step: real)
    ensures Multiple(k, step) == k as real * step
  {
    if k > 0 { MultipleIsProduct(k - 1, step); }
  }

  lemma {:induction false} MultipleGrows(j: nat, k: nat, step: real)
    requires j <= k && step >= 0.0
    ensures Multiple(j, step) <= Multiple(k, step)
  {
    if j < k { MultipleGrows(j, k - 1, step); }
  }

  function IsAdded(): Phase -> bool { (p: Phase) => p.Added? }

  /** How far one worker can carry the scores on while the key's expiry stands: it must find an entry
      within a window of its reading, which takes a maximum of at least two. */
  function Step(c: Config): real { if c.maxRequests <= 1 then 0.0 else c.window }

  /** Every worker that has added without yet setting the expiry carries the scores on by one step. */
  function Reach(c: Config, s: State): real { Multiple(Count(IsAdded(), s.workers), Step(c)) }

  ghost predicate ChainInv(c: Config, s: State) {
    && Times(s)
    && (s.expiry.Some? ==>
          var from := s.expiry.value - Ttl(c);
          && (forall x :: x in s.entries ==> x <= from + Reach(c, s))
          && (forall w :: 0 <= w < |s.workers| && s.workers[w].Admitted? ==>
                s.workers[w].now <= from + Reach(c, s) + Step(c)))
  }

  lemma ReachFollows(c: Config, s: State, w: nat, p: Phase)
    requires w < |s.workers| && c.window >= 0.0
    ensures var t := s.(workers := s.workers[w := p]);
      && (p.Added? && !s.workers[w].Added? ==> Reach(c, t) == Reach(c, s) + Step(c))
      && (!p.Added? && !s.workers[w].Added? ==> Reach(c, t) == Reach(c, s))
      && Reach(c, t) >= 0.0
  {
    CountUpdate(IsAdded(), s.workers, w, p);
    MultipleGrows(0, Count(IsAdded(), s.workers[w := p]), Step(c));
  }

  lemma ChainStep(c: Config, s: State, e: Event)
    requires ChainInv(c, s) && c.window >= 0.0
    ensures ChainInv(c, Apply(c, s, e))
  {
    if Apply(c, s, e) != s {
      match e
      case Stamp(w) => IdleStepKeepsChain(c, s, e, w);
      case PruneAndCount(w) => PruneKeepsChain(c, s, w);
      case Add(w, isNew) => AddKeepsChain(c, s, w, isNew);
      case Expire(w) => IdleStepKeepsChain(c, s, e, w);
      case Tick(dt) =>
    }
  }

  lemma IdleStepKeepsChain(c: Config, s: State, e: Event, w: nat)
    requires ChainInv(c, s) && c.window >= 0.0 && IsIn(s, w)
    requires (e == Stamp(w) && s.workers[w].Idle?) || (e == Expire(w) && s.workers[w].Added?)
    ensures ChainInv(c, Apply(c, s, e))
  {
    ReachFollows(c, s, w, Apply(c, s, e).workers[w]);
    hide Multiple, Count;
  }

  lemma PruneKeepsChain(c: Config, s: State, w: nat)
    requires ChainInv(c, s) && c.window >= 0.0 && IsIn(s, w) && s.workers[w].Stamped?
    ensures ChainInv(c, Apply(c, s, PruneAndCount(w)))
  {
    var t := Apply(c, s, PruneAndCount(w));
    ReachFollows(c, s, w, t.workers[w]);
    AboveKeeps(s.entries, s.workers[w].now - c.window);
    if t.expiry.Some? {
      var first := t.entries[0];
      assert first in t.entries && first in s.entries && first > s.workers[w].now - c.window;
      assert t.workers[w].Admitted? ==> |t.entries| >= 1 && c.maxRequests >= 2 && Step(c) == c.window;
    }
  }

  lemma AddKeepsChain(c: Config, s: State, w: nat, isNew: bool)
    requires ChainInv(c, s) && c.window >= 0.0 && IsIn(s, w) && s.workers[w].Admitted?
    ensures ChainInv(c, Apply(c, s, Add(w, isNew)))
  {
    ReachFollows(c, s, w, Apply(c, s, Add(w, isNew)).workers[w]);
    hide Multiple, Count;
  }

  /** With few enough workers, or a maximum of one, no timing is needed to keep the live entries. */
  lemma {:induction false} ShortChainsKeepLive(c: Config, n: nat, clock: real, es: seq<Event>)
    requires c.window >= 0.0 && (c.maxRequests <= 1 || Multiple(n + 1, c.window) <= Ttl(c))
    ensures var s := Run(c, Init(n, clock), es);
      |s.workers| == n && ChainInv(c, s) && KeepsLive(c, Init(n, clock), es)
  {
    if es != [] {
      var p, e := es[..|es| - 1], es[|es| - 1];
      ShortChainsKeepLive(c, n, clock, p);
      var s := Run(c, Init(n, clock), p);
      ChainStep(c, s, e);
      CountAtMostLength(IsAdded(), s.workers);
      MultipleGrows(Count(IsAdded(), s.workers), n, Step(c));
      MultipleOfNothing(n);
    }
  }

  lemma {:induction false} MultipleOfNothing(n: nat)
    ensures Multiple(n, 0.0) == 0.0
  {
    if n > 0 { MultipleOfNothing(n - 1); }
  }

  lemma {:induction false} TimelyKeepsLive(c: Config, slack: real, n: nat, clock: real, es: seq<Event>)
    requires n > 0 && c.window >= 0.0 && 0.0 <= slack <= Spare(c) && Timely(c, slack, Init(n, clock), es)
    ensures KeepsLive(c, Init(n, clock), es)
  {
    if es != [] {
      var p, e := es[..|es| - 1], es[|es| - 1];
      TimelyKeepsLive(c, slack, n, clock, p);
      RunInv(c, slack, n, clock, p, 0.0);
      if e.Tick? && e.dt >= 0.0 { ExpireDropsOnlyDeadEntries(c, slack, Run(c, Init(n, clock), p), e.dt); }
    }
  }

  // ---- Building runs ----

  function Copies(t: real, k: nat): seq<real> { seq(k, _ => t) }

  lemma {:induction false} CopiesAbove(t: real, k: nat, cutoff: real)
    ensures Above(Copies(t, k), cutoff) == if t > cutoff then Copies(t, k) else []
  {
    if k > 0 {
      CopiesAbove(t, k - 1, cutoff);
      assert Copies(t, k)[..k - 1] == Copies(t, k - 1) && Copies(t, k) == Copies(t, k - 1) + [t];
    }
  }

  lemma {:induction false} CopiesIn(t: real, k: nat, a: real, window: real)
    requires a < t <= a + window
    ensures Count(InWindow(a, window), Copies(t, k)) == k
  {
    if k > 0 {
      CopiesIn(t, k - 1, a, window);
      assert Copies(t, k)[..k - 1] == Copies(t, k - 1) && Copies(t, k) == Copies(t, k - 1) + [t];
    }
  }

  lemma OneMoreCopy(t: real, k: nat)
    ensures Copies(t, k) + [t] == Copies(t, k + 1)
  {
  }

  /** A run so far: timely, and with its prunes in clock order where `ordered` says so. */
  ghost predicate Good(c: Config, slack: real, ordered: bool, s: State, es: seq<Event>) {
    Timely(c, slack, s, es) && (ordered ==> InClockOrder(c, s, es))
  }

  lemma Then(c: Config, slack: real, ordered: bool, s: State, es: seq<Event>, e: Event)
    requires Good(c, slack, ordered, s, es) && TimelyStep(slack, Run(c, s, es), e)
    requires ordered ==> InClockOrderStep(Run(c, s, es), e)
    ensures Run(c, s, es + [e]) == Apply(c, Run(c, s, es), e) && Good(c, slack, ordered, s, es + [e])
  {
    assert (es + [e])[..|es|] == es;
  }

  lemma Begins(c: Config, slack: real, ordered: bool, s: State)
    ensures Run(c, s, []) == s && Good(c, slack, ordered, s, [])
  {
  }

  /** All workers idle at time t with k grants of that time stored. */
  function AtRest(c: Config, n: nat, t: real, k: nat): State {
    State(t, Copies(t, k), if k == 0 then None else Some(t + Ttl(c)), seq(n, _ => Idle), Copies(t, k), t)
  }

  /** Worker 0 runs one whole round alone while the window has room. */
  lemma RoundAlone(c: Config, slack: real, n: nat, t: real, es: seq<Event>, k: nat) returns (more: seq<Event>)
    requires n > 0 && c.window > 0.0 && k < c.maxRequests
    requires Good(c, slack, true, Init(n, t), es) && Run(c, Init(n, t), es) == AtRest(c, n, t, k)
    ensures Good(c, slack, true, Init(n, t), more) && Run(c, Init(n, t), more) == AtRest(c, n, t, k + 1)
  {
    hide Run, Good, Above, Count;
    var s := Init(n, t);
    CopiesAbove(t, k, t - c.window);
    Then(c, slack, true, s, es, Stamp(0));
    more := es + [Stamp(0)];
    Then(c, slack, true, s, more, PruneAndCount(0));
    more := more + [PruneAndCount(0)];
    Then(c, slack, true, s, more, Add(0, true));
    more := more + [Add(0, true)];
    Then(c, slack, true, s, more, Expire(0));
    more := more + [Expire(0)];
    OneMoreCopy(t, k);
    assert seq(n, _ => Idle)[0 := Stamped(t)][0 := Admitted(t)][0 := Added(t)][0 := Idle] == seq(n, _ => Idle);
  }

  /** Every worker takes a reading and is admitted before any of them adds. */
  lemma AllAdmitted(c: Config, slack: real, n: nat, t: real, es: seq<Event>) returns (more: seq<Event>)
    requires n > 0 && c.window > 0.0 && c.maxRequests > 0 && Good(c, slack, true, Init(n, t), es)
    requires Run(c, Init(n, t), es) == AtRest(c, n, t, c.maxRequests - 1)
    ensures Good(c, slack, true, Init(n, t), more)
    ensures Run(c, Init(n, t), more) == AtRest(c, n, t, c.maxRequests - 1).(workers := seq(n, _ => Admitted(t)))
  {
    hide Run, Good, Above, Count;
    var s, base := Init(n, t), AtRest(c, n, t, c.maxRequests - 1);
    CopiesAbove(t, c.maxRequests - 1, t - c.window);
    more := es;
    var w := 0;
    while w < n
      invariant w <= n && Good(c, slack, true, s, more)
      invariant Run(c, s, more) == base.(workers := seq(n, i => if i < w then Admitted(t) else Idle))
    {
      Then(c, slack, true, s, more, Stamp(w));
      more := more + [Stamp(w)];
      Then(c, slack, true, s, more, PruneAndCount(w));
      more := more + [PruneAndCount(w)];
      w := w + 1;
      assert Run(c, s, more).workers == seq(n, i => if i < w then Admitted(t) else Idle);
    }
  }

  /** All of them add and set the expiry. */
  lemma AllAdded(c: Config, slack: real, n: nat, t: real, es: seq<Event>) returns (more: seq<Event>)
    requires n > 0 && c.window > 0.0 && c.maxRequests > 0 && Good(c, slack, true, Init(n, t), es)
    requires Run(c, Init(n, t), es) == AtRest(c, n, t, c.maxRequests - 1).(workers := seq(n, _ => Admitted(t)))
    ensures Good(c, slack, true, Init(n, t), more)
    ensures Run(c, Init(n, t), more) == AtRest(c, n, t, c.maxRequests - 1 + n)
  {
    hide Run, Good, Above, Count;
    var s, k := Init(n, t), c.maxRequests - 1;
    more := es;
    var w := 0;
    while w < n
      invariant w <= n && Good(c, slack, true, s, more)
      invariant Run(c, s, more)
                == AtRest(c, n, t, k + w).(workers := seq(n, i => if i >= w then Admitted(t) else Idle))
    {
      Then(c, slack, true, s, more, Add(w, true));
      more := more + [Add(w, true)];
      Then(c, slack, true, s, more, Expire(w));
      more := more + [Expire(w)];
      OneMoreCopy(t, k + w);
      w := w + 1;
      assert Run(c, s, more).workers == seq(n, i => if i >= w then Admitted(t) else Idle);
    }
    assert seq(n, i => if i >= n then Admitted(t) else Idle) == seq(n, _ => Idle);
  }

  /** max - 1 + n grants at one time, all by workers that were admitted together. */
  lemma Crowd(c: Config, slack: real, n: nat, t: real) returns (es: seq<Event>)
    requires n > 0 && c.window > 0.0 && c.maxRequests > 0
    ensures Good(c, slack, true, Init(n, t), es)
    ensures Run(c, Init(n, t), es) == AtRest(c, n, t, c.maxRequests - 1 + n)
  {
    hide Run, Good;
    es := [];
    Begins(c, slack, true, Init(n, t));
    assert Init(n, t) == AtRest(c, n, t, 0);
    var k := 0;
    while k < c.maxRequests - 1
      invariant k <= c.maxRequests - 1 && Good(c, slack, true, Init(n, t), es)
      invariant Run(c, Init(n, t), es) == AtRest(c, n, t, k)
    {
      es := RoundAlone(c, slack, n, t, es, k);
      k := k + 1;
    }
    es := AllAdmitted(c, slack, n, t, es);
    es := AllAdded(c, slack, n, t, es);
  }

  /** The workers from `from` on take a reading. */
  lemma AllStamp(c: Config, slack: real, s: State, es: seq<Event>, from: nat) returns (more: seq<Event>)
    requires Good(c, slack, true, s, es) && Run(c, s, es).workers == seq(|s.workers|, _ => Idle) && from <= |s.workers|
    ensures Good(c, slack, true, s, more)
    ensures var t := Run(c, s, es);
      Run(c, s, more) == t.(workers := seq(|s.workers|, i => if i < from then Idle else Stamped(t.clock)))
  {
    hide Run, Good;
    var t, n := Run(c, s, es), |s.workers|;
    more := es;
    var w := from;
    assert t.workers == seq(n, i => if from <= i < w then Stamped(t.clock) else Idle);
    while w < n
      invariant from <= w <= n && Good(c, slack, true, s, more)
      invariant Run(c, s, more) == t.(workers := seq(n, i => if from <= i < w then Stamped(t.clock) else Idle))
    {
      Then(c, slack, true, s, more, Stamp(w));
      more := more + [Stamp(w)];
      w := w + 1;
      assert Run(c, s, more).workers == seq(n, i => if from <= i < w then Stamped(t.clock) else Idle);
    }
    assert seq(n, i => if from <= i < w then Stamped(t.clock) else Idle) == seq(n, i => if i < from then Idle else Stamped(t.clock));
  }

  /** With nothing stored, the workers from `from` on are all admitted with their readings r, and add. */
  lemma AllPass(c: Config, slack: real, ordered: bool, s: State, es: seq<Event>, from: nat, r: real) returns (more: seq<Event>)
    requires Good(c, slack, ordered, s, es) && c.maxRequests > 0
    requires var t := Run(c, s, es);
      && t.entries == [] && from <= |t.workers| && (ordered ==> t.newest <= r)
      && forall i :: from <= i < |t.workers| ==> t.workers[i] == Stamped(r)
    ensures Good(c, slack, ordered, s, more)
    ensures Run(c, s, more).grants == Run(c, s, es).grants + Copies(r, |Run(c, s, es).workers| - from)
  {
    hide Run, Good, Count;
    more := AllPrune(c, slack, ordered, s, es, from, r);
    var grants, n := Run(c, s, es).grants, |Run(c, s, es).workers|;
    var w := from;
    assert grants + Copies(r, 0) == grants;
    while w < n
      invariant from <= w <= n == |Run(c, s, more).workers| && Good(c, slack, ordered, s, more)
      invariant forall i :: w <= i < n ==> Run(c, s, more).workers[i] == Admitted(r)
      invariant Run(c, s, more).grants == grants + Copies(r, w - from)
    {
      Then(c, slack, ordered, s, more, Add(w, true));
      more := more + [Add(w, true)];
      OneMoreCopy(r, w - from);
      w := w + 1;
    }
  }

  lemma AllPrune(c: Config, slack: real, ordered: bool, s: State, es: seq<Event>, from: nat, r: real) returns (more: seq<Event>)
    requires Good(c, slack, ordered, s, es) && c.maxRequests > 0
    requires var t := Run(c, s, es);
      && t.entries == [] && from <= |t.workers| && (ordered ==> t.newest <= r)
      && forall i :: from <= i < |t.workers| ==> t.workers[i] == Stamped(r)
    ensures Good(c, slack, ordered, s, more)
    ensures var t, u := Run(c, s, es), Run(c, s, more);
      && |u.workers| == |t.workers| && u.grants == t.grants
      && forall i :: from <= i < |t.workers| ==> u.workers[i] == Admitted(r)
  {
    hide Run, Good, Count;
    var t := Run(c, s, es);
    more := es;
    var w := from;
    while w < |t.workers|
      invariant from <= w <= |t.workers| == |Run(c, s, more).workers| && Good(c, slack, ordered, s, more)
      invariant Run(c, s, more).entries == [] && Run(c, s, more).grants == t.grants
      invariant ordered ==> Run(c, s, more).newest <= r
      invariant forall i :: from <= i < w ==> Run(c, s, more).workers[i] == Admitted(r)
      invariant forall i :: w <= i < |t.workers| ==> Run(c, s, more).workers[i] == Stamped(r)
    {
      Then(c, slack, ordered, s, more, PruneAndCount(w));
      more := more + [PruneAndCount(w)];
      w := w + 1;
    }
  }

  function Lesser(x: real, y: real): real { if x < y then x else y }

  lemma CrowdAndLate(c: Config, s: State, t: real, r: real, k: nat, m: nat, a: real)
    requires s.grants == Copies(t, k) + Copies(r, m) && a < t <= a + c.window && a < r <= a + c.window
    ensures Granted(c, s, a) == k + m
  {
    hide Count;
    CountAdd(InWindow(a, c.window), Copies(t, k), Copies(r, m));
    CopiesIn(t, k, a, c.window);
    CopiesIn(r, m, a, c.window);
  }

  // ---- The general bound is reached ----

  /** Workers 1 and up read the clock just before the crowd leaves the window; worker 0 reads it just
      after, and prunes first. However small the slack, that makes max + 2n - 2 in one window. */
  lemma {:induction false} BoundIsReached(c: Config, slack: real, n: nat, clock: real) returns (es: seq<Event>, a: real)
    requires c.window > 0.0 && c.maxRequests > 0 && n > 0 && slack > 0.0
    ensures Timely(c, slack, Init(n, clock), es)
    ensures Granted(c, Run(c, Init(n, clock), es), a) == c.maxRequests + 2 * n - 2
  {
    var d := Lesser(c.window, slack) / 2.0;
    var r, k := clock + c.window - d, c.maxRequests - 1 + n;
    var s := Init(n, clock);
    es := Crowd(c, slack, n, clock);
    es := Overtaking(c, slack, n, clock, es, d);
    a := clock - d;
    es := AllPass(c, slack, false, s, es, 1, r);
    CrowdAndLate(c, Run(c, s, es), clock, r, k, n - 1, a);
  }

  lemma Overtaking(c: Config, slack: real, n: nat, t: real, es: seq<Event>, d: real) returns (more: seq<Event>)
    requires c.window > 0.0 && c.maxRequests > 0 && n > 0 && 0.0 < d < slack && d < c.window
    requires Good(c, slack, true, Init(n, t), es) && Run(c, Init(n, t), es) == AtRest(c, n, t, c.maxRequests - 1 + n)
    ensures Good(c, slack, false, Init(n, t), more)
    ensures var u := Run(c, Init(n, t), more);
      && u.entries == [] && |u.workers| == n && u.grants == Copies(t, c.maxRequests - 1 + n)
      && forall i :: 1 <= i < n ==> u.workers[i] == Stamped(t + c.window - d)
  {
    hide Run, Good, Above, Count;
    var s := Init(n, t);
    Then(c, slack, true, s, es, Tick(c.window - d));
    more := es + [Tick(c.window - d)];
    more := AllStamp(c, slack, s, more, 1);
    Then(c, slack, true, s, more, Tick(d));
    more := more + [Tick(d)];
    Then(c, slack, true, s, more, Stamp(0));
    more := more + [Stamp(0)];
    CopiesAbove(t, c.maxRequests - 1 + n, t);
    assert Good(c, slack, false, s, more) by { WithoutOrder(c, slack, s, more); }
    Then(c, slack, false, s, more, PruneAndCount(0));
    more := more + [PruneAndCount(0)];
  }

  lemma WithoutOrder(c: Config, slack: real, s: State, es: seq<Event>)
    requires Good(c, slack, true, s, es)
    ensures Good(c, slack, false, s, es)
  {
  }

  // ---- A slack beyond the spare time ----

  /** All workers read the clock before the crowd leaves the window, and stall until the key expires:
      the crowd is forgotten, and every one of them is admitted again, in clock order. */
  lemma {:induction false} ExpiryOvertakes(c: Config, slack: real, n: nat, clock: real) returns (es: seq<Event>, a: real)
    requires c.window > 0.0 && c.maxRequests > 0 && n > 0 && slack > Spare(c)
    ensures Timely(c, slack, Init(n, clock), es) && InClockOrder(c, Init(n, clock), es)
    ensures Granted(c, Run(c, Init(n, clock), es), a) == c.maxRequests + 2 * n - 1
  {
    var d := Lesser(c.window, slack - Spare(c)) / 2.0;
    var r, k := clock + c.window - d, c.maxRequests - 1 + n;
    var s := Init(n, clock);
    es := Crowd(c, slack, n, clock);
    es := Stalling(c, slack, n, clock, es, d);
    a := clock - d;
    es := AllPass(c, slack, true, s, es, 0, r);
    CrowdAndLate(c, Run(c, s, es), clock, r, k, n, a);
  }

  lemma Stalling(c: Config, slack: real, n: nat, t: real, es: seq<Event>, d: real) returns (more: seq<Event>)
    requires c.window > 0.0 && c.maxRequests > 0 && n > 0 && 0.0 < d < c.window && Spare(c) + d < slack
    requires Good(c, slack, true, Init(n, t), es) && Run(c, Init(n, t), es) == AtRest(c, n, t, c.maxRequests - 1 + n)
    ensures Good(c, slack, true, Init(n, t), more)
    ensures var u := Run(c, Init(n, t), more);
      && u.entries == [] && |u.workers| == n && u.grants == Copies(t, c.maxRequests - 1 + n)
      && u.newest <= t + c.window - d
      && forall i :: 0 <= i < n ==> u.workers[i] == Stamped(t + c.window - d)
  {
    hide Run, Good, Above, Count;
    var s := Init(n, t);
    Then(c, slack, true, s, es, Tick(c.window - d));
    more := es + [Tick(c.window - d)];
    more := AllStamp(c, slack, s, more, 0);
    Then(c, slack, true, s, more, Tick(Spare(c) + d));
    more := more + [Tick(Spare(c) + d)];
  }

  /** The bound max + 2n - 2 holds for all timely runs exactly when workers are less slow than the
      time by which the key outlives a window. */
  lemma {:induction false} BoundHoldsIffSlackIsSpare(c: Config, slack: real, n: nat, clock: real)
    requires c.window > 0.0 && c.maxRequests > 0 && n > 0 && slack >= 0.0
    ensures (forall es, a :: Timely(c, slack, Init(n, clock), es) ==>
               Granted(c, Run(c, Init(n, clock), es), a) <= c.maxRequests + 2 * n - 2)
            <==> slack <= Spare(c)
  {
    hide Timely, Granted, Run;
    if slack <= Spare(c) {
      forall es, a | Timely(c, slack, Init(n, clock), es)
        ensures Granted(c, Run(c, Init(n, clock), es), a) <= c.maxRequests + 2 * n - 2
      {
        EveryWindowIsBounded(c, slack, n, clock, es, a);
      }
    } else {
      var worst, b := ExpiryOvertakes(c, slack, n, clock);
    }
  }

  /** The same for the bound max + n - 1 of runs whose prunes are in clock order. */
  lemma {:induction false} OrderedBoundHoldsIffSlackIsSpare(c: Config, slack: real, n: nat, clock: real)
    requires c.window > 0.0 && c.maxRequests > 0 && n > 0 && slack >= 0.0
    ensures (forall es, a :: Timely(c, slack, Init(n, clock), es) && InClockOrder(c, Init(n, clock), es) ==>
               Granted(c, Run(c, Init(n, clock), es), a) <= c.maxRequests + n - 1)
            <==> slack <= Spare(c)
  {
    hide Timely, InClockOrder, Granted, Run;
    if slack <= Spare(c) {
      forall es, a | Timely(c, slack, Init(n, clock), es) && InClockOrder(c, Init(n, clock), es)
        ensures Granted(c, Run(c, Init(n, clock), es), a) <= c.maxRequests + n - 1
      {
        OrderedWindowIsBounded(c, slack, n, clock, es, a);
      }
    } else {
      var worst, b := ExpiryOvertakes(c, slack, n, clock);
    }
  }

  /** Whatever order the prunes come in, max + n - 1 bounds every window exactly when there is one worker,
      no slower than the spare time. */
  lemma {:induction false} SmallerBoundHoldsIffAlone(c: Config, slack: real, n: nat, clock: real)
    requires c.window > 0.0 && c.maxRequests > 0 && n > 0 && slack > 0.0
    ensures (forall es, a :: Timely(c, slack, Init(n, clock), es) ==>
               Granted(c, Run(c, Init(n, clock), es), a) <= c.maxRequests + n - 1)
            <==> n == 1 && slack <= Spare(c)
  {
    hide Timely, Granted, Run;
    if slack > Spare(c) {
      var worst, b := ExpiryOvertakes(c, slack, n, clock);
    } else if n > 1 {
      var worst, b := BoundIsReached(c, slack, n, clock);
    } else {
      forall es, a | Timely(c, slack, Init(n, clock), es)
        ensures Granted(c, Run(c, Init(n, clock), es), a) <= c.maxRequests + n - 1
      {
        EveryWindowIsBounded(c, slack, n, clock, es, a);
      }
    }
  }

  // ---- Live entries ----

  /** k workers have added one after another, each `d` after the one before, and none has set the expiry. */
  ghost predicate Chained(c: Config, n: nat, t: real, d: real, s: State, k: nat) {
    && |s.workers| == n && k <= n
    && s.clock == t + Multiple(k, d) && s.newest <= s.clock && s.expiry == Some(t + Ttl(c))
    && (if k == 0 then s.entries == [s.clock] else s.entries == [s.clock - d, s.clock])
    && (forall i :: 0 <= i < k ==> s.workers[i].Added? && s.workers[i].now >= t + d)
    && (forall i :: k <= i < n ==> s.workers[i].Idle?)
  }

  lemma PairAbove(c: Config, s: State, d: real, k: nat)
    requires 0.0 < d < c.window <= 2.0 * d
    requires if k == 0 then s.entries == [s.clock] else s.entries == [s.clock - d, s.clock]
    ensures Above(s.entries, s.clock + d - c.window) == [s.clock]
  {
    var cutoff := s.clock + d - c.window;
    assert [s.clock][..0] == [] && Above([], cutoff) == [] && Above([s.clock], cutoff) == [s.clock];
    if k > 0 {
      assert [s.clock - d, s.clock][..1] == [s.clock - d] && [s.clock - d][..0] == [];
      assert Above([s.clock - d], cutoff) == [];
    }
  }

  /** One more worker adds, d after the last, and stalls before its EXPIRE. */
  lemma ChainOn(c: Config, slack: real, n: nat, t: real, d: real, es: seq<Event>, k: nat) returns (more: seq<Event>)
    requires c.maxRequests >= 2 && 0.0 < d < c.window <= 2.0 * d && Ttl(c) < d + slack && k < n
    requires Good(c, slack, true, Init(n, t), es) && Chained(c, n, t, d, Run(c, Init(n, t), es), k)
    requires Multiple(k, d) <= Ttl(c) - c.window
    ensures Good(c, slack, true, Init(n, t), more) && Chained(c, n, t, d, Run(c, Init(n, t), more), k + 1)
  {
    hide Run, Good, Above, Count, Ttl;
    var s := Init(n, t);
    MultipleGrows(0, k, d);
    PairAbove(c, Run(c, s, es), d, k);
    Then(c, slack, true, s, es, Tick(d));
    more := es + [Tick(d)];
    Then(c, slack, true, s, more, Stamp(k));
    more := more + [Stamp(k)];
    Then(c, slack, true, s, more, PruneAndCount(k));
    more := more + [PruneAndCount(k)];
    Then(c, slack, true, s, more, Add(k, true));
    more := more + [Add(k, true)];
  }

  /** With enough workers for the window, and a maximum that lets two entries be, stalled workers keep the
      key from its renewal until it expires with the last of their entries still live. */
  lemma {:induction false} StalledWorkersLoseEntries(c: Config, slack: real, n: nat, t: real) returns (es: seq<Event>)
    requires c.window > 0.0 && c.maxRequests >= 2 && n > 0 && slack > Spare(c) && Multiple(n + 1, c.window) > Ttl(c)
    ensures Timely(c, slack, Init(n, t), es) && InClockOrder(c, Init(n, t), es) && !KeepsLive(c, Init(n, t), es)
  {
    hide Run, Count, Chained;
    var s := Init(n, t);
    var d := ChainLink(c, slack, n);
    es := ChainStart(c, slack, n, t, d);
    var k := 0;
    while Multiple(k, d) <= Ttl(c) - c.window
      invariant k <= n && Good(c, slack, true, s, es) && Chained(c, n, t, d, Run(c, s, es), k)
      invariant Multiple(k, d) < Ttl(c)
      invariant k > 0 || Multiple(k, d) <= Ttl(c) - c.window
      decreases n - k
    {
      MoreLinks(n, k, d);
      es := ChainOn(c, slack, n, t, d, es, k);
      k := k + 1;
    }
    assert k > 0;
    es := ChainBreaks(c, slack, n, t, d, es, k);
  }

  lemma MoreLinks(n: nat, k: nat, d: real)
    requires d >= 0.0
    ensures n <= k ==> Multiple(n, d) <= Multiple(k, d)
  {
    if n <= k { MultipleGrows(n, k, d); }
  }

  lemma ChainStart(c: Config, slack: real, n: nat, t: real, d: real) returns (es: seq<Event>)
    requires c.window > 0.0 && c.maxRequests >= 2 && n > 0
    ensures Good(c, slack, true, Init(n, t), es) && Chained(c, n, t, d, Run(c, Init(n, t), es), 0)
  {
    Begins(c, slack, true, Init(n, t));
    assert Init(n, t) == AtRest(c, n, t, 0);
    es := RoundAlone(c, slack, n, t, [], 0);
    assert Copies(t, 1) == [t];
  }

  lemma ChainBreaks(c: Config, slack: real, n: nat, t: real, d: real, es: seq<Event>, k: nat) returns (more: seq<Event>)
    requires 0.0 < d < c.window && Ttl(c) < d + slack
    requires Good(c, slack, true, Init(n, t), es) && Chained(c, n, t, d, Run(c, Init(n, t), es), k) && k > 0
    requires Ttl(c) - c.window < Multiple(k, d) < Ttl(c)
    ensures Timely(c, slack, Init(n, t), more) && InClockOrder(c, Init(n, t), more) && !KeepsLive(c, Init(n, t), more)
  {
    hide Run, Good;
    var s := Init(n, t);
    var u, e := Run(c, s, es), Tick(Ttl(c) - Multiple(k, d));
    assert u.entries[1] in u.entries;
    assert DropsLive(c, u, e);
    Then(c, slack, true, s, es, e);
    more := es + [e];
    assert more[..|more| - 1] == es;
    GoodMeans(c, slack, s, more);
  }

  lemma GoodMeans(c: Config, slack: real, s: State, es: seq<Event>)
    requires Good(c, slack, true, s, es)
    ensures Timely(c, slack, s, es) && InClockOrder(c, s, es)
  {
  }

  /** A distance between the links that is short of a window but spans the time to the expiry. */
  lemma ChainLink(c: Config, slack: real, n: nat) returns (d: real)
    requires c.window > 0.0 && n > 0 && slack > Spare(c) && Multiple(n + 1, c.window) > Ttl(c)
    ensures 0.0 < d < c.window <= 2.0 * d && Ttl(c) < d + slack && Multiple(n, d) > Ttl(c) - c.window
  {
    var room := Multiple(n + 1, c.window) - Ttl(c);
    var part := SmallPart(n, room);
    var short := Lesser(Lesser(c.window, slack - Spare(c)) / 2.0, part);
    d := c.window - short;
    MultipleDiffers(n, c.window, short);
    MultipleOfLess(n, short, part);
  }

  lemma {:induction false} MultipleDiffers(n: nat, x: real, y: real)
    ensures Multiple(n, x - y) == Multiple(n, x) - Multiple(n, y)
  {
    if n > 0 { MultipleDiffers(n - 1, x, y); }
  }

  lemma {:induction false} MultipleOfLess(n: nat, x: real, y: real)
    requires x <= y
    ensures Multiple(n, x) <= Multiple(n, y)
  {
    if n > 0 { MultipleOfLess(n - 1, x, y); }
  }

  /** Some positive time of which n fit into the room. */
  lemma {:induction false} SmallPart(n: nat, room: real) returns (part: real)
    requires room > 0.0
    ensures part > 0.0 && Multiple(n, part) < room
  {
    if n == 0 {
      part := 1.0;
    } else {
      var rest := SmallPart(n - 1, room / 2.0);
      part := Lesser(rest, room / 2.0);
      MultipleOfLess(n - 1, part, rest);
    }
  }

  /** Exactly when no live entry is ever dropped: the slack is within the spare time, or the workers are
      too few to bridge the expiry with their windows, or the maximum is at most one. */
  lemma {:induction false} LiveEntriesAreKeptIff(c: Config, slack: real, n: nat, clock: real)
    requires c.window > 0.0 && n > 0 && slack >= 0.0
    ensures (forall es :: Timely(c, slack, Init(n, clock), es) ==> KeepsLive(c, Init(n, clock), es))
            <==> slack <= Spare(c) || (n + 1) as real * c.window <= Ttl(c) || c.maxRequests <= 1
  {
    hide Timely, KeepsLive, Run;
    MultipleIsProduct(n + 1, c.window);
    if slack <= Spare(c) {
      forall es | Timely(c, slack, Init(n, clock), es) ensures KeepsLive(c, Init(n, clock), es) {
        TimelyKeepsLive(c, slack, n, clock, es);
      }
    } else if Multiple(n + 1, c.window) <= Ttl(c) || c.maxRequests <= 1 {
      forall es ensures KeepsLive(c, Init(n, clock), es) { ShortChainsKeepLive(c, n, clock, es); }
    } else {
      var worst := StalledWorkersLoseEntries(c, slack, n, clock);
    }
  }
}
