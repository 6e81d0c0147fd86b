/** The in-memory sliding-window limiter. One asyncio lock per key covers the prune, the
    check and the append, so one turn of the loop in acquire is one step. An object here is
    one key of the backend: its deque, its lock, and the limit every caller of it passes. */
module InMemoryLimiter {
  import opened Basics

  /** What RateLimiter fixes for a key: every caller of the key passes these two. */
  datatype Limit = Limit(maxRequests: int, window: real)

  /** How one turn of the loop in acquire ends. `NoOldest` is the IndexError raised when
      nothing may ever be granted and there is no oldest request to wait for. */
  datatype Turn = Granted | TimedOut | Wait(delay: real) | NoOldest

  /** What happens while a caller sleeps: turns taken by others at given times, then a late wake-up. */
  datatype Sleep = Sleep(others: seq<real>, lateness: real)

  ghost predicate Sorted(g: seq<real>) {
    forall i, j :: 0 <= i <= j < |g| ==> g[i] <= g[j]
  }

  /** A grant and the grant `maxRequests` later are a whole window apart. */
  ghost predicate Spaced(g: seq<real>, l: Limit) {
    && (l.maxRequests <= 0 ==> g == [])
    && forall i, j :: 0 <= i < j < |g| && j == i + l.maxRequests ==> g[i] + l.window <= g[j]
  }

  /** What the deque `q` is, given every grant `g` ever made and the latest clock reading. */
  ghost predicate DequeInv(l: Limit, q: seq<real>, g: seq<real>, clock: real) {
    && Sorted(g) && Spaced(g, l)
    && (forall i :: 0 <= i < |g| ==> g[i] <= clock)
    && |q| <= |g| && q == g[|g| - |q|..]
    && (forall i :: 0 <= i < |g| - |q| ==> g[i] <= clock - l.window)
    && (q == [] || |q| <= l.maxRequests)
  }

  function InWindow(a: real, window: real): real -> bool {
    t => a < t <= a + window
  }

  /** In a sorted sequence the members of a window are one contiguous stretch [lo, hi). */
  lemma {:induction false} WindowIsContiguous(g: seq<real>, a: real, window: real) returns (lo: nat, hi: nat)
    requires Sorted(g)
    ensures lo <= hi <= |g| && Count(InWindow(a, window), g) == hi - lo
    ensures forall i :: 0 <= i < |g| ==> (lo <= i < hi <==> InWindow(a, window)(g[i]))
  {
    if g == [] {
      lo, hi := 0, 0;
    } else {
      var n := |g| - 1;
      lo, hi := WindowIsContiguous(g[..n], a, window);
      assert forall i :: 0 <= i < n ==> g[..n][i] == g[i];
      if InWindow(a, window)(g[n]) {
        assert forall i :: lo < i < n ==> g[lo] <= g[i] <= g[n];
        if lo == hi { lo := n; }
        hi := n + 1;
      }
    }
  }

  /** The rate limit itself: no window of the configured length holds more grants than allowed. */
  lemma SpacingBoundsEveryWindow(l: Limit, g: seq<real>, a: real)
    requires Sorted(g) && Spaced(g, l)
    ensures Count(InWindow(a, l.window), g) <= if l.maxRequests > 0 then l.maxRequests else 0
  {
    var lo, hi := WindowIsContiguous(g, a, l.window);
    var j := lo + l.maxRequests;
    assert lo < j < |g| ==> g[lo] + l.window <= g[j];
  }

  /** After pruning, the deque holds exactly the grants of the window that ends now. */
  lemma DequeIsTheWindow(l: Limit, q: seq<real>, g: seq<real>, now: real)
    requires DequeInv(l, q, g, now)
    requires q == [] || q[0] > now - l.window
    ensures Count(InWindow(now - l.window, l.window), g) == |q|
  {
    var f := |g| - |q|;
    assert q != [] ==> q[0] == g[f];
    CountSuffix(InWindow(now - l.window, l.window), g, f);
  }

  lemma {:induction false} CountSuffix(p: real -> bool, g: seq<real>, f: nat)
    requires f <= |g|
    requires forall i :: 0 <= i < |g| ==> (p(g[i]) <==> f <= i)
    ensures Count(p, g) == |g| - f
  {
    if f < |g| {
      CountSuffix(p, g[..|g| - 1], f);
    } else {
      CountNone(p, g);
    }
  }

  /** Dropping an expired head keeps the invariant. */
  lemma PopKeepsInvariant(l: Limit, q: seq<real>, g: seq<real>, now: real)
    requires DequeInv(l, q, g, now) && q != [] && q[0] <= now - l.window
    ensures DequeInv(l, q[1..], g, now)
  {
    assert q[0] == g[|g| - |q|];
  }

  lemma ClockKeepsInvariant(l: Limit, q: seq<real>, g: seq<real>, clock: real, now: real)
    requires DequeInv(l, q, g, clock) && clock <= now
    ensures DequeInv(l, q, g, now)
  {
  }

  /** Granting while fewer than the maximum remain keeps the invariant. */
  lemma AppendKeepsInvariant(l: Limit, q: seq<real>, g: seq<real>, now: real)
    requires DequeInv(l, q, g, now) && |q| < l.maxRequests
    ensures DequeInv(l, q + [now], g + [now], now)
  {
    assert (g + [now])[|g| - |q|..] == q + [now];
  }

  class InMemoryRateLimiterBackend {
    const limit: Limit
    var requests: seq<real>
    var clock: real
    /** Every grant ever made. */
    ghost var grants: seq<real>

    ghost predicate Valid()
      reads this
    {
      DequeInv(limit, requests, grants, clock)
    }

    /** No window of the configured length holds more grants than allowed. */
    ghost predicate WithinLimit()
      reads this
    {
      forall a :: Count(InWindow(a, limit.window), grants) <= if limit.maxRequests > 0 then limit.maxRequests else 0
    }

    lemma ValidIsWithinLimit()
      requires Valid()
      ensures WithinLimit()
    {
      forall a ensures Count(InWindow(a, limit.window), grants) <= if limit.maxRequests > 0 then limit.maxRequests else 0 {
        SpacingBoundsEveryWindow(limit, grants, a);
      }
    }

    constructor (limit: Limit, clock: real)
      ensures Valid() && this.limit == limit && this.clock == clock && grants == []
    {
      this.limit := limit;
      this.clock := clock;
      requests := [];
      grants := [];
    }

    /** Drops the requests that have left the window. */
    method Prune(now: real)
      requires Valid() && clock <= now
      modifies this`requests, this`clock
      ensures Valid() && clock == now && Count(InWindow(now - limit.window, limit.window), grants) == |requests|
      ensures requests == [] || requests[0] > now - limit.window
    {
      hide DequeInv, Count, InWindow;
      ClockKeepsInvariant(limit, requests, grants, clock, now);
      while requests != [] && requests[0] <= now - limit.window
        invariant DequeInv(limit, requests, grants, now)
        decreases |requests|
      {
        PopKeepsInvariant(limit, requests, grants, now);
        requests := requests[1..];
      }
      clock := now;
      DequeIsTheWindow(limit, requests, grants, now);
    }

    /** One turn of the loop in acquire, taken with the lock held at time `now`: a grant is made
        exactly when the window that ends now holds fewer than the maximum. */
    method TakeTurn(now: real, start: real, timeout: Option<real>) returns (turn: Turn)
      requires Valid() && clock <= now
      modifies this
      ensures Valid() && WithinLimit() && clock == now
      ensures grants == if turn.Granted? then old(grants) + [now] else old(grants)
      ensures turn.Granted? <==> Count(InWindow(now - limit.window, limit.window), old(grants)) < limit.maxRequests
      ensures turn.TimedOut? <==> !turn.Granted? && IsLate(timeout, start, now)
      ensures turn.NoOldest? ==> limit.maxRequests <= 0
      ensures turn.Wait? ==> requests != [] && |requests| >= limit.maxRequests
                             && now + turn.delay == requests[0] + limit.window && turn.delay > 0.0
    {
      hide DequeInv, Count, InWindow, WithinLimit;
      Prune(now);
      if |requests| < limit.maxRequests {
        AppendKeepsInvariant(limit, requests, grants, now);
        requests := requests + [now];
        grants := grants + [now];
        ValidIsWithinLimit();
        return Granted;
      }
      ValidIsWithinLimit();
      if timeout.Some? && now - start >= timeout.value {
        return TimedOut;
      }
      if requests == [] {
        return NoOldest;
      }
      return Wait(requests[0] + limit.window - now);
    }

    /** What other callers do while this one sleeps; readings that run backwards cannot happen. */
    method OthersRun(turns: seq<real>)
      requires Valid()
      modifies this
      ensures Valid() && old(clock) <= clock && old(grants) <= grants
      ensures turns == [] ==> clock == old(clock) && grants == old(grants) && requests == old(requests)
    {
      for i := 0 to |turns|
        invariant Valid() && old(clock) <= clock && old(grants) <= grants
        invariant i == 0 ==> clock == old(clock) && grants == old(grants) && requests == old(requests)
      {
        if clock <= turns[i] {
          var _ := TakeTurn(turns[i], turns[i], None);
        }
      }
    }

    /** The sleep and the next turn: without delays it comes when the oldest request leaves the window,
        and if nobody took a turn meanwhile it grants. */
    method Retry(delay: real, s: Sleep, start: real, timeout: Option<real>) returns (turn: Turn)
      requires Valid() && delay > 0.0 && requests != [] && |requests| >= limit.maxRequests
      requires clock + delay == requests[0] + limit.window
      modifies this
      ensures Valid() && clock >= old(clock) + delay && old(grants) <= grants
      ensures turn.Granted? ==> |grants| > |old(grants)| && grants[|grants| - 1] == clock
      ensures turn.TimedOut? <==> !turn.Granted? && IsLate(timeout, start, clock)
      ensures turn.NoOldest? ==> limit.maxRequests <= 0
      ensures turn.Wait? ==> requests != [] && |requests| >= limit.maxRequests && turn.delay > 0.0
                             && clock + turn.delay == requests[0] + limit.window
      ensures s.others == [] && limit.maxRequests >= 1 ==>
                && turn.Granted?
                && (s.lateness <= 0.0 ==>
                      |grants| > limit.maxRequests && clock == grants[|grants| - 1 - limit.maxRequests] + limit.window)
    {
      hide DequeInv, WithinLimit, Count, InWindow, IsLate;
      var wake := clock + delay + (if s.lateness > 0.0 then s.lateness else 0.0);
      OldestIsAMaximumBack(limit, requests, grants, clock);
      if s.others == [] { OldestHasLeft(limit, requests, grants, clock, wake); }
      OthersRun(s.others);
      turn := TakeTurn(if wake > clock then wake else clock, start, timeout);
    }

    /** The whole of acquire. `waiting` says what happens until the caller first gets the lock, `sleeps`
        what the environment does during each sleep, so its length bounds how far the run is followed;
        `Wait` means the caller is asleep again. `entered` is the time of the first turn, and `refused`
        are the times of the turns that granted nothing. */
    method Acquire(timeout: Option<real>, waiting: Sleep, sleeps: seq<Sleep>)
      returns (outcome: Turn, entered: real, ghost refused: seq<real>)
      requires Valid()
      modifies this
      ensures Valid() && WithinLimit() && old(grants) <= grants && old(clock) <= entered <= clock
      ensures outcome.Granted? ==> |grants| > |old(grants)| && grants[|grants| - 1] == clock
      ensures outcome.NoOldest? ==> limit.maxRequests <= 0
      // It times out at the first refusal that comes `timeout` after the call, and at no other.
      ensures refused != [] ==> refused[0] == entered
      ensures outcome.TimedOut? <==> refused != [] && IsLate(timeout, old(clock), refused[|refused| - 1])
      ensures forall k :: 0 <= k < |refused| - 1 ==> !IsLate(timeout, old(clock), refused[k])
      ensures outcome.Wait? ==> |refused| == |sleeps| + 1
      ensures refused == [] ==> outcome.Granted?
      // A waiter that nobody overtakes is granted the first time it wakes, even past its timeout, and
      // without delays that is when the oldest request leaves the window.
      ensures limit.maxRequests >= 1 && |sleeps| >= 1 && sleeps[0].others == []
              && !IsLate(timeout, old(clock), entered) ==>
                outcome.Granted? && |refused| <= 1
                && (refused != [] && sleeps[0].lateness <= 0.0 ==>
                      |grants| > limit.maxRequests && clock == grants[|grants| - 1 - limit.maxRequests] + limit.window)
    {
      hide DequeInv, WithinLimit, Count, InWindow, IsLate;
      var start := clock;
      OthersRun(waiting.others);
      entered := clock + if waiting.lateness > 0.0 then waiting.lateness else 0.0;
      outcome := TakeTurn(entered, start, timeout);
      refused := if outcome.Granted? then [] else [entered];
      var k := 0;
      while outcome.Wait? && k < |sleeps|
        invariant Valid() && k <= |sleeps| && start <= entered <= clock && old(grants) <= grants
        invariant outcome.Granted? ==> |grants| > |old(grants)| && grants[|grants| - 1] == clock
        invariant outcome.NoOldest? ==> limit.maxRequests <= 0
        invariant outcome.Wait? ==> requests != [] && |requests| >= limit.maxRequests
                                    && clock + outcome.delay == requests[0] + limit.window && outcome.delay > 0.0
        invariant refused != [] ==> refused[0] == entered
        invariant |refused| == k + if outcome.Granted? then 0 else 1
        invariant outcome.TimedOut? <==> refused != [] && IsLate(timeout, start, refused[|refused| - 1])
        invariant forall i :: 0 <= i < |refused| - 1 ==> !IsLate(timeout, start, refused[i])
        invariant k >= 1 && limit.maxRequests >= 1 && sleeps[0].others == [] ==>
                    outcome.Granted? && k == 1
                    && (sleeps[0].lateness <= 0.0 ==>
                          |grants| > limit.maxRequests && clock == grants[|grants| - 1 - limit.maxRequests] + limit.window)
        decreases |sleeps| - k
      {
        outcome := Retry(outcome.delay, sleeps[k], start, timeout);
        refused := if outcome.Granted? then refused else refused + [clock];
        k := k + 1;
      }
      ValidIsWithinLimit();
    }
  }

  /** Sleeping until the oldest request expires leaves room for one more. */
  lemma OldestHasLeft(l: Limit, q: seq<real>, g: seq<real>, before: real, now: real)
    requires DequeInv(l, q, g, before) && q != []
    requires q[0] + l.window <= now && before <= now
    ensures Count(InWindow(now - l.window, l.window), g) < l.maxRequests
  {
    var f := |g| - |q|;
    assert q[0] == g[f];
    var lo, hi := WindowIsContiguous(g, now - l.window, l.window);
    assert forall i :: 0 <= i <= f ==> !InWindow(now - l.window, l.window)(g[i]);
    assert lo < hi ==> InWindow(now - l.window, l.window)(g[lo]);
  }

  /** A full deque begins with the grant that is a maximum back. */
  lemma OldestIsAMaximumBack(l: Limit, q: seq<real>, g: seq<real>, clock: real)
    requires DequeInv(l, q, g, clock) && q != [] && |q| >= l.maxRequests
    ensures l.maxRequests >= 1 ==> |g| >= l.maxRequests && q[0] == g[|g| - l.maxRequests]
  {
  }
}
