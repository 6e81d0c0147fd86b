/** The Redis sliding-window limiter, one key, n workers on one shared clock. Reading the
    clock, the prune-and-count pipeline, ZADD and EXPIRE are four separate commands, so the
    workers interleave between them. */
module RedisLimiter {
  import opened Basics

  /** Where a worker is in its loop; `now` is the reading it took with time.time(). */
  datatype Phase = Idle | Stamped(now: real) | Admitted(now: real) | Added(now: real)

  datatype State = State(
    clock: real,
    entries: seq<real>,       // scores of the sorted set, in order of insertion
    expiry: Option<real>,     // when Redis drops the key
    workers: seq<Phase>,
    grants: seq<real>,        // scores of every request ever granted
    newest: real              // latest reading used by any prune so far
  )

  datatype Config = Config(maxRequests: nat, window: real)

  datatype Event =
    | Stamp(w: nat)                 // now = time.time()
    | PruneAndCount(w: nat)         // ZREMRANGEBYSCORE, ZCARD
    | Add(w: nat, isNew: bool)      // ZADD; not new when the member already existed
    | Expire(w: nat)                // EXPIRE, then return True
    | Tick(dt: real)                // time passes; an expired key is dropped

  /** What EXPIRE is set to, and how much longer than a window that is: always more than 59 seconds. */
  function Ttl(c: Config): real { (c.window.Floor + 60) as real }
  function Spare(c: Config): real { Ttl(c) - c.window }

  /** With a window of w seconds the key outlives a window by floor(w) + 60 - w, more than 59 and at most 60. */
  lemma SpareIsAMinute(c: Config)
    ensures Spare(c) == c.window.Floor as real + 60.0 - c.window && 59.0 < Spare(c) <= 60.0
  {
  }

  function Init(n: nat, clock: real): State {
    State(clock, [], None, seq(n, _ => Idle), [], clock)
  }

  predicate IsIn(s: State, w: nat) { w < |s.workers| }

  /** One command. A command that its worker cannot issue now changes nothing. */
  function Apply(c: Config, s: State, e: Event): State {
    match e
    case Stamp(w) =>
      if IsIn(s, w) && s.workers[w].Idle? then s.(workers := s.workers[w := Stamped(s.clock)]) else s
    case PruneAndCount(w) =>
      if IsIn(s, w) && s.workers[w].Stamped? then
        var now := s.workers[w].now;
        var left := Above(s.entries, now - c.window);
        s.(entries := left,
           expiry := if left == [] then None else s.expiry,
           workers := s.workers[w := if |left| < c.maxRequests then Admitted(now) else Idle],
           newest := if now > s.newest then now else s.newest)
      else s
    case Add(w, isNew) =>
      if IsIn(s, w) && s.workers[w].Admitted? then
        var now := s.workers[w].now;
        if isNew then
          s.(entries := s.entries + [now], workers := s.workers[w := Added(now)], grants := s.grants + [now])
        else
          s.(workers := s.workers[w := Idle])
      else s
    case Expire(w) =>
      if IsIn(s, w) && s.workers[w].Added? then
        s.(workers := s.workers[w := Idle],
           expiry := if s.entries == [] then None else Some(s.clock + Ttl(c)))
      else s
    case Tick(dt) =>
      if dt >= 0.0 then
        var t := s.clock + dt;
        if s.expiry.Some? && s.expiry.value <= t
        then s.(clock := t, entries := [], expiry := None)
        else s.(clock := t)
      else s
  }

  function Run(c: Config, s: State, es: seq<Event>): State {
    if es == [] then s else Apply(c, Run(c, s, es[..|es| - 1]), es[|es| - 1])
  }

  // ---- What is assumed of a run ----

  /** Every worker gets from its clock reading to its EXPIRE in less than
      `slack` of time. */
  ghost predicate TimelyStep(slack: real, s: State, e: Event) {
    e.Tick? ==> forall w :: 0 <= w < |s.workers| && !s.workers[w].Idle? ==> s.clock + e.dt < s.workers[w].now + slack
  }

  /** A prune never uses an older reading than a prune before it. */
  ghost predicate InClockOrderStep(s: State, e: Event) {
    e.PruneAndCount? && IsIn(s, e.w) && s.workers[e.w].Stamped? ==> s.newest <= s.workers[e.w].now
  }

  ghost predicate Timely(c: Config, slack: real, s: State, es: seq<Event>) {
    es == [] || (var p := es[..|es| - 1]; Timely(c, slack, s, p) && TimelyStep(slack, Run(c, s, p), es[|es| - 1]))
  }

  ghost predicate InClockOrder(c: Config, s: State, es: seq<Event>) {
    es == [] || (var p := es[..|es| - 1]; InClockOrder(c, s, p) && InClockOrderStep(Run(c, s, p), es[|es| - 1]))
  }

  // ---- The expiry of the key ----

  ghost predicate Times(s: State) {
    && s.newest <= s.clock
    && (forall x :: x in s.entries ==> x <= s.clock)
    && (forall w :: 0 <= w < |s.workers| && !s.workers[w].Idle? ==> s.workers[w].now <= s.clock)
    && (s.entries == [] ==> s.expiry.None?)
  }

  /** Some worker has added but not yet set the expiry, and the old one leaves it time to. */
  ghost predicate Renewal(slack: real, s: State, at: real) {
    exists v :: 0 <= v < |s.workers| && s.workers[v].Added? && s.workers[v].now + slack <= at
  }

  ghost predicate ExpiryInv(c: Config, slack: real, s: State) {
    && Times(s)
    && (s.expiry.Some? ==>
          var at := s.expiry.value;
          && ((forall x :: x in s.entries ==> x + c.window + slack <= at) || Renewal(slack, s, at))
          && (forall w :: 0 <= w < |s.workers| && s.workers[w].Admitted? ==>
                s.workers[w].now + slack <= at || Renewal(slack, s, at)))
  }

  lemma RenewalKept(slack: real, s: State, w: nat, p: Phase, at: real)
    requires w < |s.workers| && Renewal(slack, s, at)
    requires !s.workers[w].Added? || (p.Added? && p.now == s.workers[w].now)
    ensures Renewal(slack, s.(workers := s.workers[w := p]), at)
  {
    var v :| 0 <= v < |s.workers| && s.workers[v].Added? && s.workers[v].now + slack <= at;
    assert s.workers[w := p][v].Added? && s.workers[w := p][v].now == s.workers[v].now;
  }

  lemma ExpiryStep(c: Config, slack: real, s: State, e: Event)
    requires ExpiryInv(c, slack, s) && c.window >= 0.0 && slack <= Spare(c) && TimelyStep(slack, s, e)
    ensures ExpiryInv(c, slack, Apply(c, s, e))
  {
    if Apply(c, s, e) != s {
      match e
      case Stamp(w) => StampKeepsExpiry(c, slack, s, w);
      case PruneAndCount(w) => PruneKeepsExpiry(c, slack, s, w);
      case Add(w, isNew) => AddKeepsExpiry(c, slack, s, w, isNew);
      case Expire(w) => ExpireKeepsExpiry(c, slack, s, w);
      case Tick(dt) => TickKeepsExpiry(c, slack, s, dt);
    }
  }

  lemma StampKeepsExpiry(c: Config, slack: real, s: State, w: nat)
    requires ExpiryInv(c, slack, s) && IsIn(s, w) && s.workers[w].Idle?
    ensures ExpiryInv(c, slack, Apply(c, s, Stamp(w)))
  {
    if s.expiry.Some? && Renewal(slack, s, s.expiry.value) { RenewalKept(slack, s, w, Stamped(s.clock), s.expiry.value); }
  }

  lemma PruneKeepsExpiry(c: Config, slack: real, s: State, w: nat)
    requires ExpiryInv(c, slack, s) && c.window >= 0.0 && IsIn(s, w) && s.workers[w].Stamped?
    ensures ExpiryInv(c, slack, Apply(c, s, PruneAndCount(w)))
  {
    var t := Apply(c, s, PruneAndCount(w));
    AboveKeeps(s.entries, s.workers[w].now - c.window);
    if t.expiry.Some? {
      assert t.entries[0] in t.entries;
      if Renewal(slack, s, s.expiry.value) {
        RenewalKept(slack, s, w, t.workers[w], s.expiry.value);
        assert Renewal(slack, t, s.expiry.value);
      }
    }
  }

  lemma AddKeepsExpiry(c: Config, slack: real, s: State, w: nat, isNew: bool)
    requires ExpiryInv(c, slack, s) && IsIn(s, w) && s.workers[w].Admitted?
    ensures ExpiryInv(c, slack, Apply(c, s, Add(w, isNew)))
  {
    var t := Apply(c, s, Add(w, isNew));
    if s.expiry.Some? {
      if Renewal(slack, s, s.expiry.value) {
        RenewalKept(slack, s, w, t.workers[w], s.expiry.value);
        assert Renewal(slack, t, s.expiry.value);
      } else if isNew {
        assert t.workers[w].Added? && t.workers[w].now + slack <= s.expiry.value;
      }
    }
  }

  lemma ExpireKeepsExpiry(c: Config, slack: real, s: State, w: nat)
    requires ExpiryInv(c, slack, s) && c.window >= 0.0 && slack <= Spare(c) && IsIn(s, w) && s.workers[w].Added?
    ensures ExpiryInv(c, slack, Apply(c, s, Expire(w)))
  {
  }

  lemma TickKeepsExpiry(c: Config, slack: real, s: State, dt: real)
    requires ExpiryInv(c, slack, s) && dt >= 0.0 && TimelyStep(slack, s, Tick(dt))
    ensures ExpiryInv(c, slack, Apply(c, s, Tick(dt)))
  {
    var t := Apply(c, s, Tick(dt));
    if t.expiry.Some? && Renewal(slack, s, s.expiry.value) { assert Renewal(slack, t, s.expiry.value); }
  }

  /** The step drops the key while it holds an entry that is still inside the window ending then. */
  ghost predicate DropsLive(c: Config, s: State, e: Event) {
    && e.Tick? && e.dt >= 0.0 && s.expiry.Some? && s.expiry.value <= s.clock + e.dt
    && exists x :: x in s.entries && s.expiry.value < x + c.window
  }

  ghost predicate KeepsLive(c: Config, s: State, es: seq<Event>) {
    es == [] || (var p := es[..|es| - 1]; KeepsLive(c, s, p) && !DropsLive(c, Run(c, s, p), es[|es| - 1]))
  }

  /** When Redis drops the key, every entry has been outside all windows for as long as the slack. */
  lemma ExpireDropsOnlyDeadEntries(c: Config, slack: real, s: State, dt: real)
    requires ExpiryInv(c, slack, s) && dt >= 0.0 && TimelyStep(slack, s, Tick(dt))
    ensures forall x :: x in s.entries && x !in Apply(c, s, Tick(dt)).entries ==>
              s.expiry.Some? && x + c.window + slack <= s.expiry.value <= s.clock + dt
    ensures slack >= 0.0 ==> !DropsLive(c, s, Tick(dt))
  {
  }

  // ---- Counting one window (a, a + window] ----

  function InWindow(a: real, window: real): real -> bool {
    t => a < t <= a + window
  }

  function StampedIn(a: real, window: real): Phase -> bool {
    (p: Phase) => p.Stamped? && a < p.now <= a + window
  }

  function AdmittedIn(a: real, window: real): Phase -> bool {
    (p: Phase) => p.Admitted? && a < p.now <= a + window
  }

  function Granted(c: Config, s: State, a: real): nat { Count(InWindow(a, c.window), s.grants) }
  function Stored(c: Config, s: State, a: real): nat { Count(InWindow(a, c.window), s.entries) }
  function Owed(c: Config, s: State, a: real): nat { Count(AdmittedIn(a, c.window), s.workers) }
  function Due(c: Config, s: State, a: real): nat { Count(StampedIn(a, c.window), s.workers) }

  /** No prune has reached into the window yet: all its grants are still stored. */
  ghost predicate Intact(c: Config, s: State, a: real) {
    && s.newest <= a + c.window
    && Stored(c, s, a) == Granted(c, s, a)
    && Granted(c, s, a) + Owed(c, s, a) <= c.maxRequests + |s.workers| - 1
  }

  /** The window lies in the past: only workers already holding a reading can still add to it. */
  ghost predicate Closed(c: Config, s: State, a: real, bound: int) {
    s.clock > a + c.window && Granted(c, s, a) + Owed(c, s, a) + Due(c, s, a) <= bound
  }

  /** As Closed, but the workers that still hold a bare reading will prune out of order. */
  ghost predicate Sealed(c: Config, s: State, a: real) {
    s.newest > a + c.window && Granted(c, s, a) + Owed(c, s, a) <= c.maxRequests + |s.workers| - 1
  }

  ghost predicate WindowInv(c: Config, s: State, a: real) {
    Intact(c, s, a) || Closed(c, s, a, c.maxRequests + 2 * |s.workers| - 2)
  }

  ghost predicate OrderedInv(c: Config, s: State, a: real) {
    Intact(c, s, a) || Sealed(c, s, a) || Closed(c, s, a, c.maxRequests + |s.workers| - 1)
  }

  /** How a phase change moves the two tallies. */
  lemma PhaseCounts(c: Config, s: State, w: nat, p: Phase, a: real)
    requires w < |s.workers|
    ensures var t := s.(workers := s.workers[w := p]);
      && Owed(c, t, a) == Owed(c, s, a) - (if AdmittedIn(a, c.window)(s.workers[w]) then 1 else 0)
                          + (if AdmittedIn(a, c.window)(p) then 1 else 0)
      && Due(c, t, a) == Due(c, s, a) - (if StampedIn(a, c.window)(s.workers[w]) then 1 else 0)
                         + (if StampedIn(a, c.window)(p) then 1 else 0)
  {
    CountUpdate(AdmittedIn(a, c.window), s.workers, w, p);
    CountUpdate(StampedIn(a, c.window), s.workers, w, p);
  }

  /** The workers still able to add to a window; one whose reading lies elsewhere is not among them. */
  lemma TalliesFit(c: Config, s: State, a: real)
    ensures Owed(c, s, a) + Due(c, s, a) <= |s.workers|
    ensures forall w :: 0 <= w < |s.workers|
                        && !AdmittedIn(a, c.window)(s.workers[w]) && !StampedIn(a, c.window)(s.workers[w])
                        ==> Owed(c, s, a) + Due(c, s, a) < |s.workers|
  {
    CountDisjoint(AdmittedIn(a, c.window), StampedIn(a, c.window), s.workers);
  }

  lemma PruneStep(c: Config, slack: real, s: State, w: nat, a: real)
    requires ExpiryInv(c, slack, s) && IsIn(s, w) && s.workers[w].Stamped?
    requires WindowInv(c, s, a) || OrderedInv(c, s, a)
    ensures var t := Apply(c, s, PruneAndCount(w));
      && (Closed(c, s, a, c.maxRequests + 2 * |s.workers| - 2) ==> Closed(c, t, a, c.maxRequests + 2 * |s.workers| - 2))
      && (Closed(c, s, a, c.maxRequests + |s.workers| - 1) ==> Closed(c, t, a, c.maxRequests + |s.workers| - 1))
      && (Intact(c, s, a) ==> WindowInv(c, t, a))
      && (Intact(c, s, a) ==> Intact(c, t, a) || Sealed(c, t, a))
      && (Sealed(c, s, a) && s.newest <= s.workers[w].now ==> Sealed(c, t, a))
  {
    hide Count, Above;
    var t := Apply(c, s, PruneAndCount(w));
    var now := s.workers[w].now;
    PhaseCounts(c, s, w, t.workers[w], a);
    AboveKeeps(s.entries, now - c.window);
    if now <= a + c.window { CountAbove(InWindow(a, c.window), s.entries, now - c.window); }
    CountAtMostLength(InWindow(a, c.window), t.entries);
    TalliesFit(c, s, a);
    TalliesFit(c, t, a);
  }

  lemma OtherStep(c: Config, slack: real, s: State, e: Event, a: real)
    requires ExpiryInv(c, slack, s) && c.window >= 0.0 && 0.0 <= slack <= Spare(c) && |s.workers| > 0 && TimelyStep(slack, s, e) && !e.PruneAndCount?
    ensures Follows(c, s, Apply(c, s, e), a)
  {
    hide Follows;
    if Apply(c, s, e) == s {
      assert Follows(c, s, s, a) by { StandsStill(c, s, a); }
    } else {
      match e
      case Stamp(w) => StampStep(c, slack, s, w, a);
      case Add(w, isNew) => AddStep(c, s, w, isNew, a);
      case Expire(w) => ExpireStep(c, s, w, a);
      case Tick(dt) => TickStep(c, slack, s, dt, a);
    }
  }

  /** A step that prunes nothing leaves each window as closed, sealed or intact as it was, or closes it. */
  ghost predicate Follows(c: Config, s: State, t: State, a: real) {
    && (forall bound :: Closed(c, s, a, bound) ==> Closed(c, t, a, bound))
    && (Sealed(c, s, a) ==> Sealed(c, t, a))
    && (Intact(c, s, a) ==> Intact(c, t, a) || Closed(c, t, a, c.maxRequests + |s.workers| - 1))
  }

  lemma StandsStill(c: Config, s: State, a: real)
    ensures Follows(c, s, s, a)
  {
  }

  lemma StampStep(c: Config, slack: real, s: State, w: nat, a: real)
    requires ExpiryInv(c, slack, s) && IsIn(s, w) && s.workers[w].Idle?
    ensures Follows(c, s, Apply(c, s, Stamp(w)), a)
  {
    hide Count;
    PhaseCounts(c, s, w, Stamped(s.clock), a);
  }

  lemma AddStep(c: Config, s: State, w: nat, isNew: bool, a: real)
    requires IsIn(s, w) && s.workers[w].Admitted?
    ensures Follows(c, s, Apply(c, s, Add(w, isNew)), a)
  {
    hide Count;
    PhaseCounts(c, s, w, Apply(c, s, Add(w, isNew)).workers[w], a);
    CountSnoc(InWindow(a, c.window), s.grants, s.workers[w].now);
    CountSnoc(InWindow(a, c.window), s.entries, s.workers[w].now);
  }

  lemma ExpireStep(c: Config, s: State, w: nat, a: real)
    requires IsIn(s, w) && s.workers[w].Added?
    ensures Follows(c, s, Apply(c, s, Expire(w)), a)
  {
    hide Count;
    PhaseCounts(c, s, w, Idle, a);
  }

  lemma TickStep(c: Config, slack: real, s: State, dt: real, a: real)
    requires ExpiryInv(c, slack, s) && c.window >= 0.0 && 0.0 <= slack <= Spare(c) && |s.workers| > 0
    requires dt >= 0.0 && TimelyStep(slack, s, Tick(dt))
    ensures Follows(c, s, Apply(c, s, Tick(dt)), a)
  {
    var t := Apply(c, s, Tick(dt));
    if t.entries != s.entries {
      DropStep(c, slack, s, dt, a);
      CountNone(InWindow(a, c.window), []);
    }
    hide Count, ExpiryInv, TimelyStep;
  }

  /** Dropping the key either takes nothing from the window, or comes after all its writers are done. */
  lemma DropStep(c: Config, slack: real, s: State, dt: real, a: real)
    requires ExpiryInv(c, slack, s) && c.window >= 0.0 && 0.0 <= slack <= Spare(c) && dt >= 0.0 && TimelyStep(slack, s, Tick(dt))
    requires Apply(c, s, Tick(dt)).entries == []
    ensures Stored(c, s, a) == 0 || (s.clock + dt > a + c.window && Owed(c, s, a) == 0 && Due(c, s, a) == 0)
  {
    ExpireDropsOnlyDeadEntries(c, slack, s, dt);
    if x :| x in s.entries && InWindow(a, c.window)(x) {
      CountNone(AdmittedIn(a, c.window), s.workers);
      CountNone(StampedIn(a, c.window), s.workers);
    } else {
      CountNone(InWindow(a, c.window), s.entries);
    }
  }

  lemma InitInv(c: Config, slack: real, n: nat, clock: real, a: real)
    requires n > 0
    ensures ExpiryInv(c, slack, Init(n, clock)) && WindowInv(c, Init(n, clock), a) && OrderedInv(c, Init(n, clock), a)
  {
    var s := Init(n, clock);
    CountNone(AdmittedIn(a, c.window), s.workers);
    CountNone(StampedIn(a, c.window), s.workers);
    if clock > a + c.window { assert Sealed(c, s, a) && Closed(c, s, a, c.maxRequests + n - 1); }
  }

  lemma {:induction false} RunInv(c: Config, slack: real, n: nat, clock: real, es: seq<Event>, a: real)
    requires n > 0 && c.window >= 0.0 && 0.0 <= slack <= Spare(c) && Timely(c, slack, Init(n, clock), es)
    ensures var s := Run(c, Init(n, clock), es);
      && |s.workers| == n && ExpiryInv(c, slack, s) && WindowInv(c, s, a)
      && (InClockOrder(c, Init(n, clock), es) ==> OrderedInv(c, s, a))
  {
    if es == [] {
      InitInv(c, slack, n, clock, a);
    } else {
      var p, e := es[..|es| - 1], es[|es| - 1];
      RunInv(c, slack, n, clock, p, a);
      var s := Run(c, Init(n, clock), p);
      ExpiryStep(c, slack, s, e);
      if e.PruneAndCount? {
        if IsIn(s, e.w) && s.workers[e.w].Stamped? { PruneStep(c, slack, s, e.w, a); }
      } else {
        OtherStep(c, slack, s, e, a);
      }
    }
  }

  /** Over every interleaving of n workers, a window never holds more than max + 2n - 2 grants. */
  lemma EveryWindowIsBounded(c: Config, slack: real, n: nat, clock: real, es: seq<Event>, a: real)
    requires n > 0 && c.window >= 0.0 && 0.0 <= slack <= Spare(c) && Timely(c, slack, Init(n, clock), es)
    ensures Granted(c, Run(c, Init(n, clock), es), a) <= c.maxRequests + 2 * n - 2
  {
    RunInv(c, slack, n, clock, es, a);
  }

  /** If in addition the prunes happen in the order of their clock readings, the bound is max + n - 1. */
  lemma OrderedWindowIsBounded(c: Config, slack: real, n: nat, clock: real, es: seq<Event>, a: real)
    requires n > 0 && c.window >= 0.0 && 0.0 <= slack <= Spare(c) && Timely(c, slack, Init(n, clock), es) && InClockOrder(c, Init(n, clock), es)
    ensures Granted(c, Run(c, Init(n, clock), es), a) <= c.maxRequests + n - 1
  {
    RunInv(c, slack, n, clock, es, a);
  }

  // ---- The code of one worker ----

  datatype Outcome = Success | TimedOut | Sleeping

  /** What the rest of the world does at the four places where one round of the loop awaits. */
  datatype Pauses = Pauses(beforeCount: seq<Event>, beforeAdd: seq<Event>, beforeExpire: seq<Event>,
                           asleep: seq<Event>, isNew: bool)

  predicate ByOthers(es: seq<Event>, w: nat) {
    forall e :: e in es ==> e.Tick? || e.w != w
  }

  predicate PausesByOthers(p: Pauses, w: nat) {
    ByOthers(p.beforeCount, w) && ByOthers(p.beforeAdd, w) && ByOthers(p.beforeExpire, w) && ByOthers(p.asleep, w)
  }

  predicate IsAdmitted(s: State, w: nat) { IsIn(s, w) && s.workers[w].Admitted? }

  /** What happens from an admitted worker's ZADD on. */
  function Inserting(w: nat, p: Pauses): seq<Event> {
    if p.isNew then [Add(w, true)] + p.beforeExpire + [Expire(w)] else [Add(w, false)]
  }

  /** How many requests worker w was granted in a run. */
  function GrantsOf(c: Config, s: State, es: seq<Event>, w: nat): nat {
    if es == [] then 0
    else
      var p := es[..|es| - 1];
      var t := Run(c, s, p);
      GrantsOf(c, s, p, w)
      + (if es[|es| - 1] == Add(w, true) && IsIn(t, w) && t.workers[w].Admitted? then 1 else 0)
  }

  function Least(s: seq<real>): real
    requires s != []
  {
    if |s| == 1 then s[0]
    else var m := Least(s[..|s| - 1]); if s[|s| - 1] < m then s[|s| - 1] else m
  }

  lemma {:induction false} LeastIsLeast(s: seq<real>)
    requires s != []
    ensures Least(s) in s && forall x :: x in s ==> Least(s) <= x
  {
    if |s| > 1 {
      LeastIsLeast(s[..|s| - 1]);
      assert s == s[..|s| - 1] + [s[|s| - 1]];
    }
  }

  /** How long a refused worker sleeps: until the oldest stored request leaves the window of its
      reading, and never less than a tenth of a second. */
  ghost predicate IsWait(c: Config, entries: seq<real>, now: real, wait: real) {
    && wait >= 0.1
    && (entries == [] ==> wait == 0.1)
    && (entries != [] ==>
          exists oldest :: oldest in entries && (forall x :: x in entries ==> oldest <= x)
                           && (wait == oldest + c.window - now || (wait == 0.1 && oldest + c.window - now <= 0.1)))
  }

  class RedisRateLimiterBackend {
    const config: Config
    var clock: real
    var entries: seq<real>
    var expiry: Option<real>
    /** Where each worker's code is, every grant, and the latest reading used to prune. */
    var workers: seq<Phase>
    var grants: seq<real>
    var newest: real
    /** Everything that has happened. */
    ghost var trace: seq<Event>
    ghost const first: State

    function Model(): State
      reads this
    {
      State(clock, entries, expiry, workers, grants, newest)
    }

    /** The object is where its trace leads in the protocol. */
    ghost predicate Valid()
      reads this
    {
      Model() == Run(config, first, trace)
    }

    constructor (config: Config, n: nat, clock: real)
      ensures Valid() && this.config == config && trace == [] && first == Init(n, clock)
    {
      this.config := config;
      this.clock, entries, expiry := clock, [], None;
      workers, grants, newest := seq(n, _ => Idle), [], clock;
      trace, first := [], Init(n, clock);
    }

    ghost method Log(e: Event)
      requires Model() == Apply(config, Run(config, first, trace), e)
      modifies this`trace
      ensures Valid() && trace == old(trace) + [e]
    {
      assert (trace + [e])[..|trace|] == trace;
      trace := trace + [e];
    }

    method ReadClock(w: nat) returns (now: real)
      requires Valid() && w < |workers| && workers[w].Idle?
      modifies this
      ensures Valid() && trace == old(trace) + [Stamp(w)]
      ensures now == clock == old(clock) && workers == old(workers)[w := Stamped(now)]
    {
      now := clock;
      workers := workers[w := Stamped(now)];
      Log(Stamp(w));
    }

    method CountAfterPrune(w: nat, now: real) returns (count: nat)
      requires Valid() && w < |workers| && workers[w] == Stamped(now)
      modifies this
      ensures Valid() && trace == old(trace) + [PruneAndCount(w)]
      ensures count == |entries| && |workers| == |old(workers)| && clock == old(clock)
      ensures workers[w] == if count < config.maxRequests then Admitted(now) else Idle
    {
      hide Above, Run;
      entries := Above(entries, now - config.window);
      count := |entries|;
      if count == 0 { expiry := None; }
      workers := workers[w := if count < config.maxRequests then Admitted(now) else Idle];
      newest := if now > newest then now else newest;
      Log(PruneAndCount(w));
    }

    method Insert(w: nat, now: real, isNew: bool) returns (added: bool)
      requires Valid() && w < |workers| && workers[w] == Admitted(now)
      modifies this
      ensures Valid() && trace == old(trace) + [Add(w, isNew)] && added == isNew
      ensures workers == old(workers)[w := if isNew then Added(now) else Idle] && clock == old(clock)
    {
      added := isNew;
      if isNew {
        entries, grants := entries + [now], grants + [now];
        workers := workers[w := Added(now)];
      } else {
        workers := workers[w := Idle];
      }
      Log(Add(w, isNew));
    }

    method SetExpiry(w: nat)
      requires Valid() && w < |workers| && workers[w].Added?
      modifies this
      ensures Valid() && trace == old(trace) + [Expire(w)] && workers == old(workers)[w := Idle]
      ensures clock == old(clock)
    {
      if entries != [] { expiry := Some(clock + Ttl(config)); } else { expiry := None; }
      workers := workers[w := Idle];
      Log(Expire(w));
    }

    method Sleep(dt: real)
      requires Valid() && dt >= 0.0
      modifies this
      ensures Valid() && trace == old(trace) + [Tick(dt)] && workers == old(workers) && clock == old(clock) + dt
    {
      clock := clock + dt;
      if expiry.Some? && expiry.value <= clock { entries, expiry := [], None; }
      Log(Tick(dt));
    }

    /** Commands of the other workers, and time passing, while worker w awaits. */
    method OthersRun(es: seq<Event>, w: nat)
      requires Valid() && ByOthers(es, w) && w < |workers|
      modifies this
      ensures Valid() && trace == old(trace) + es && |workers| == |old(workers)| && workers[w] == old(workers)[w]
      ensures clock >= old(clock)
    {
      hide Run, Apply;
      for i := 0 to |es|
        invariant Valid() && trace == old(trace) + es[..i] && clock >= old(clock)
        invariant |workers| == |old(workers)| && workers[w] == old(workers)[w]
      {
        OthersKeepWorker(config, Model(), es[i], w);
        var t := Apply(config, Model(), es[i]);
        clock, entries, expiry, workers, grants, newest := t.clock, t.entries, t.expiry, t.workers, t.grants, t.newest;
        Log(es[i]);
        assert es[..i + 1] == es[..i] + [es[i]];
      }
    }

    /** One round of the loop up to the grant: stamp, prune and count, and for a worker that was admitted
        and whose member was new, add and set the expiry, in this order. */
    method Attempt(w: nat, p: Pauses) returns (granted: bool, now: real)
      requires Valid() && w < |workers| && workers[w].Idle? && PausesByOthers(p, w)
      modifies this
      ensures Valid() && |workers| == |old(workers)| && workers[w].Idle? && old(trace) <= trace
      ensures now == old(clock) <= clock
      ensures var counted := old(trace) + [Stamp(w)] + p.beforeCount + [PruneAndCount(w)];
        var admitted := IsAdmitted(Run(config, first, counted), w);
        && (granted <==> admitted && p.isNew)
        && trace == counted + p.beforeAdd + if admitted then Inserting(w, p) else []
      ensures GrantsOf(config, first, trace, w) == GrantsOf(config, first, old(trace), w) + if granted then 1 else 0
    {
      hide Run, GrantsOf;
      now := ReadClock(w);
      OthersRun(p.beforeCount, w);
      var count := CountAfterPrune(w, now);
      assert IsAdmitted(Run(config, first, trace), w) <==> count < config.maxRequests;
      NoGrantYet(config, first, old(trace), p.beforeCount, w, trace);
      label counted:
      OthersRun(p.beforeAdd, w);
      GrantsOfOthers(config, first, old@counted(trace), p.beforeAdd, w);
      if count >= config.maxRequests {
        return false, now;
      }
      granted := InsertAndExpire(w, now, p);
    }

    method InsertAndExpire(w: nat, now: real, p: Pauses) returns (granted: bool)
      requires Valid() && w < |workers| && workers[w] == Admitted(now) && PausesByOthers(p, w)
      modifies this
      ensures Valid() && |workers| == |old(workers)| && workers[w].Idle? && trace == old(trace) + Inserting(w, p) && old(clock) <= clock
      ensures granted == p.isNew
      ensures GrantsOf(config, first, trace, w) == GrantsOf(config, first, old(trace), w) + if granted then 1 else 0
    {
      hide Run, GrantsOf;
      granted := Insert(w, now, p.isNew);
      GrantsOfLast(config, first, old(trace), Add(w, p.isNew), w);
      if granted {
        label expiring:
        OthersRun(p.beforeExpire, w);
        GrantsOfOthers(config, first, old@expiring(trace), p.beforeExpire, w);
        label done:
        SetExpiry(w);
        GrantsOfLast(config, first, old@done(trace), Expire(w), w);
      }
    }

    /** Sleep until the oldest stored request leaves the window, at least a tenth of a second. */
    method Pause(w: nat, now: real, asleep: seq<Event>)
      requires Valid() && w < |workers| && workers[w].Idle? && ByOthers(asleep, w)
      modifies this
      ensures Valid() && |workers| == |old(workers)| && workers[w].Idle? && clock >= old(clock) + 0.1
      ensures exists wait :: IsWait(config, old(entries), now, wait) && trace == old(trace) + [Tick(wait)] + asleep
      ensures GrantsOf(config, first, trace, w) == GrantsOf(config, first, old(trace), w)
    {
      hide Run, GrantsOf, Least;
      var wait := if entries != [] then Least(entries) + config.window - now else 0.1;
      wait := if wait > 0.1 then wait else 0.1;
      assert IsWait(config, entries, now, wait) by { if entries != [] { LeastIsLeast(entries); } }
      Sleep(wait);
      GrantsOfLast(config, first, old(trace), Tick(wait), w);
      label awake:
      OthersRun(asleep, w);
      GrantsOfOthers(config, first, old@awake(trace), asleep, w);
    }

    /** The whole of acquire for worker w. `rounds` says what the world does at each await, so its
        length bounds how far the loop is followed; `Sleeping` means it has not ended yet. `refusals`
        are the lengths of the trace at which rounds ended refused, and `times` the clock then. */
    method Acquire(w: nat, timeout: Option<real>, rounds: seq<Pauses>)
      returns (outcome: Outcome, ghost refusals: seq<nat>, ghost times: seq<real>)
      requires Valid() && w < |workers| && workers[w].Idle?
      requires forall p :: p in rounds ==> PausesByOthers(p, w)
      modifies this
      ensures Valid() && |workers| == |old(workers)| && workers[w].Idle?
      ensures old(trace) <= trace
      ensures GrantsOf(config, first, trace, w)
              == GrantsOf(config, first, old(trace), w) + if outcome.Success? then 1 else 0
      // Every round but a successful last one was refused, and they are a tenth of a second apart.
      ensures |times| == |refusals| == RoundsOf(trace, w) - RoundsOf(old(trace), w) - if outcome.Success? then 1 else 0
      ensures RefusedAt(config, first, trace, w, RoundsOf(old(trace), w), refusals, times)
      ensures forall k :: 0 <= k < |times| - 1 ==> times[k] + 0.1 <= times[k + 1]
      // It times out at the first refusal that comes `timeout` after the call, and at no other.
      ensures outcome.TimedOut? <==> times != [] && IsLate(timeout, old(clock), times[|times| - 1])
      ensures forall k :: 0 <= k < |times| - 1 ==> !IsLate(timeout, old(clock), times[k])
      ensures outcome.Sleeping? <==> |times| == |rounds| && !outcome.TimedOut?
      ensures outcome.Sleeping? ==> clock >= old(clock) + |rounds| as real * 0.1
    {
      hide Run, GrantsOf, RoundsOf, RefusedAt, IsLate, Inserting;
      var start := clock;
      refusals, times := [], [];
      NoRefusals(config, first, trace, w);
      for k := 0 to |rounds|
        invariant Valid() && |workers| == |old(workers)| && workers[w].Idle?
        invariant old(trace) <= trace && clock >= start + k as real * 0.1
        invariant GrantsOf(config, first, trace, w) == GrantsOf(config, first, old(trace), w)
        invariant |times| == |refusals| == k && RoundsOf(trace, w) == RoundsOf(old(trace), w) + k
        invariant RefusedAt(config, first, trace, w, RoundsOf(old(trace), w), refusals, times)
        invariant forall i :: 0 <= i < |times| - 1 ==> times[i] + 0.1 <= times[i + 1]
        invariant k > 0 ==> times[k - 1] + 0.1 <= clock
        invariant forall i :: 0 <= i < |times| ==> !IsLate(timeout, start, times[i])
      {
        assert rounds[k] in rounds;
        ghost var before := trace;
        var granted, now := Attempt(w, rounds[k]);
        AttemptIsARound(before, rounds[k], w, IsAdmitted(Run(config, first, before + [Stamp(w)] + rounds[k].beforeCount + [PruneAndCount(w)]), w));
        EarlierRefusals(config, first, before, trace, w, RoundsOf(old(trace), w), refusals, times);
        if granted {
          return Success, refusals, times;
        }
        OneMoreRefusal(config, first, trace, w, RoundsOf(old(trace), w), refusals, times);
        refusals, times := refusals + [|trace|], times + [clock];
        assert IsLate(timeout, start, clock) <==> timeout.Some? && clock - start >= timeout.value by { LateMeans(timeout, start, clock); }
        if timeout.Some? && clock - start >= timeout.value {
          return TimedOut, refusals, times;
        }
        before := trace;
        Pause(w, now, rounds[k].asleep);
        PauseIsNoRound(before, trace, rounds[k].asleep, w);
        EarlierRefusals(config, first, before, trace, w, RoundsOf(old(trace), w), refusals, times);
      }
      return Sleeping, refusals, times;
    }
  }

  lemma LateMeans(timeout: Option<real>, start: real, t: real)
    ensures IsLate(timeout, start, t) <==> timeout.Some? && t - start >= timeout.value
  {
  }

  function StampOf(w: nat): Event -> bool { (e: Event) => e == Stamp(w) }

  /** How many rounds worker w has begun in a run. */
  function RoundsOf(es: seq<Event>, w: nat): nat { Count(StampOf(w), es) }

  /** Round k of a call had ended by refusals[k], when the clock read times[k]. */
  ghost predicate RefusedAt(c: Config, first: State, trace: seq<Event>, w: nat, earlier: nat, refusals: seq<nat>, times: seq<real>)
    requires |times| == |refusals|
  {
    forall k :: 0 <= k < |refusals| ==>
      && refusals[k] <= |trace| && RoundsOf(trace[..refusals[k]], w) == earlier + k + 1
      && times[k] == Run(c, first, trace[..refusals[k]]).clock
  }

  lemma EarlierRefusals(c: Config, first: State, before: seq<Event>, after: seq<Event>, w: nat, earlier: nat,
                        refusals: seq<nat>, times: seq<real>)
    requires before <= after && |times| == |refusals| && RefusedAt(c, first, before, w, earlier, refusals, times)
    ensures RefusedAt(c, first, after, w, earlier, refusals, times)
  {
    hide Run, RoundsOf;
    forall k | 0 <= k < |refusals| ensures after[..refusals[k]] == before[..refusals[k]] {}
  }

  lemma NoRefusals(c: Config, first: State, trace: seq<Event>, w: nat)
    ensures RefusedAt(c, first, trace, w, RoundsOf(trace, w), [], [])
  {
  }

  lemma OneMoreRefusal(c: Config, first: State, trace: seq<Event>, w: nat, earlier: nat, refusals: seq<nat>, times: seq<real>)
    requires |times| == |refusals| && RefusedAt(c, first, trace, w, earlier, refusals, times)
    requires RoundsOf(trace, w) == earlier + |refusals| + 1
    ensures RefusedAt(c, first, trace, w, earlier, refusals + [|trace|], times + [Run(c, first, trace).clock])
  {
    hide Run, RoundsOf;
    assert trace[..|trace|] == trace;
  }

  lemma NoRoundsOfOthers(es: seq<Event>, w: nat)
    requires ByOthers(es, w)
    ensures RoundsOf(es, w) == 0
  {
    CountNone(StampOf(w), es);
  }

  lemma RoundsAdd(a: seq<Event>, b: seq<Event>, w: nat)
    ensures RoundsOf(a + b, w) == RoundsOf(a, w) + RoundsOf(b, w)
  {
    CountAdd(StampOf(w), a, b);
  }

  lemma RoundsOfOne(e: Event, w: nat)
    ensures RoundsOf([e], w) == if e == Stamp(w) then 1 else 0
  {
    CountSnoc(StampOf(w), [], e);
    assert [] + [e] == [e];
  }

  lemma AttemptIsARound(before: seq<Event>, p: Pauses, w: nat, admitted: bool)
    requires PausesByOthers(p, w)
    ensures var after := before + [Stamp(w)] + p.beforeCount + [PruneAndCount(w)] + p.beforeAdd
                         + if admitted then Inserting(w, p) else [];
      RoundsOf(after, w) == RoundsOf(before, w) + 1
  {
    hide RoundsOf;
    var a := before + [Stamp(w)];
    var b := a + p.beforeCount;
    var c := b + [PruneAndCount(w)];
    RoundsAdd(before, [Stamp(w)], w);
    RoundsOfOne(Stamp(w), w);
    RoundsAdd(a, p.beforeCount, w);
    NoRoundsOfOthers(p.beforeCount, w);
    RoundsAdd(b, [PruneAndCount(w)], w);
    RoundsOfOne(PruneAndCount(w), w);
    RoundsAdd(c, p.beforeAdd, w);
    NoRoundsOfOthers(p.beforeAdd, w);
    InsertingIsNoRound(p, w);
    NoRoundsOfOthers([], w);
    RoundsAdd(c + p.beforeAdd, if admitted then Inserting(w, p) else [], w);
  }

  lemma InsertingIsNoRound(p: Pauses, w: nat)
    requires ByOthers(p.beforeExpire, w)
    ensures RoundsOf(Inserting(w, p), w) == 0
  {
    CountNone(StampOf(w), Inserting(w, p));
  }

  lemma PauseIsNoRound(before: seq<Event>, after: seq<Event>, asleep: seq<Event>, w: nat)
    requires ByOthers(asleep, w) && exists wait :: after == before + [Tick(wait)] + asleep
    ensures RoundsOf(after, w) == RoundsOf(before, w) && before <= after
  {
    var wait :| after == before + [Tick(wait)] + asleep;
    RoundsAdd(before, [Tick(wait)], w);
    RoundsOfOne(Tick(wait), w);
    RoundsAdd(before + [Tick(wait)], asleep, w);
    NoRoundsOfOthers(asleep, w);
  }

  lemma OthersKeepWorker(c: Config, s: State, e: Event, w: nat)
    requires (e.Tick? || e.w != w) && w < |s.workers|
    ensures var t := Apply(c, s, e);
      |t.workers| == |s.workers| && t.workers[w] == s.workers[w] && t.clock >= s.clock
  {
  }

  lemma GrantsOfLast(c: Config, s: State, before: seq<Event>, e: Event, w: nat)
    ensures var t := Run(c, s, before);
      GrantsOf(c, s, before + [e], w)
      == GrantsOf(c, s, before, w) + (if e == Add(w, true) && IsIn(t, w) && t.workers[w].Admitted? then 1 else 0)
  {
    assert (before + [e])[..|before|] == before;
  }

  lemma {:induction false} GrantsOfOthers(c: Config, s: State, before: seq<Event>, es: seq<Event>, w: nat)
    requires ByOthers(es, w)
    ensures GrantsOf(c, s, before + es, w) == GrantsOf(c, s, before, w)
  {
    if es == [] {
      assert before + es == before;
    } else {
      var n := |es| - 1;
      assert (before + es)[..|before + es| - 1] == before + es[..n];
      GrantsOfOthers(c, s, before, es[..n], w);
    }
  }

  lemma NoGrantYet(c: Config, s: State, before: seq<Event>, es: seq<Event>, w: nat, after: seq<Event>)
    requires ByOthers(es, w) && after == before + [Stamp(w)] + es + [PruneAndCount(w)]
    ensures GrantsOf(c, s, after, w) == GrantsOf(c, s, before, w)
  {
    assert (before + [Stamp(w)])[..|before|] == before;
    GrantsOfOthers(c, s, before + [Stamp(w)], es, w);
    assert after[..|after| - 1] == before + [Stamp(w)] + es;
  }
}
