/** The worktree lease lock, one worktree, any number of WorktreeLock objects. Every Redis
    command or Lua script is one atomic step, so the objects interleave between them. */
module WorktreeLock {
  import opened Basics

  /** The JSON value of the lock key and the time at which Redis drops it, if any. */
  datatype Lock = Lock(jobId: string, sessionId: Option<string>, status: string, expires: Option<int>)
  datatype Prompt = Prompt(jobId: string, prompt: string, expires: int)

  /** A WorktreeLock object: its `_lock_acquired` flag and, for the statements below, the end of
      the lease that its last successful SET obtained. */
  datatype Holder = Holder(acquired: bool, leaseEnd: int)

  datatype State = State(clock: int, lock: Option<Lock>, pending: Option<Prompt>, holders: seq<Holder>)

  datatype Field = SessionId | Status

  datatype Event =
    | TryLock(w: nat, ttl: int)                 // SET NX EX
    | Release(w: nat)                           // compare-and-delete script
    | Update(w: nat, field: Field, value: string)   // read-modify-SETEX script
    | SetPending(w: nat, prompt: string)        // SETEX
    | TakePending(w: nat)                       // GET-and-DEL script
    | Crash(w: nat)                             // the process dies; its keys stay
    | Tick(dt: nat)

  const PENDING_TTL := 300

  function Init(n: nat, clock: int): State {
    State(clock, None, None, seq(n, _ => Holder(false, clock)))
  }

  /** One command by the object w, whose job is jobs[w]. One that cannot be issued changes nothing. */
  function Apply(jobs: seq<string>, s: State, e: Event): State
    requires |jobs| == |s.holders|
  {
    match e
    case Tick(dt) =>
      var t := s.clock + dt;
      s.(clock := t,
         lock := if s.lock.Some? && s.lock.value.expires.Some? && s.lock.value.expires.value <= t then None else s.lock,
         pending := if s.pending.Some? && s.pending.value.expires <= t then None else s.pending)
    case TryLock(w, ttl) =>
      if w < |jobs| && ttl > 0 && s.lock.None? then
        s.(lock := Some(Lock(jobs[w], None, "running", Some(s.clock + ttl))),
           holders := s.holders[w := Holder(true, s.clock + ttl)])
      else s
    case Release(w) =>
      if w < |jobs| && s.holders[w].acquired then
        s.(lock := if s.lock.Some? && s.lock.value.jobId == jobs[w] then None else s.lock,
           holders := s.holders[w := s.holders[w].(acquired := false)])
      else s
    case Update(w, field, value) =>
      if w < |jobs| && s.lock.Some?
         && s.lock.value.expires.Some? && s.lock.value.expires.value - s.clock > 0
      then
        var ttl := s.lock.value.expires.value - s.clock;
        var l := match field
                 case SessionId => s.lock.value.(sessionId := Some(value))
                 case Status => s.lock.value.(status := value);
        s.(lock := Some(l.(expires := Some(s.clock + ttl))))
      else s
    case SetPending(w, prompt) =>
      if w < |jobs| then s.(pending := Some(Prompt(jobs[w], prompt, s.clock + PENDING_TTL))) else s
    case TakePending(w) =>
      if w < |jobs| then s.(pending := None) else s
    case Crash(w) =>
      if w < |jobs| then s.(holders := s.holders[w := s.holders[w].(acquired := false)]) else s
  }

  function Run(jobs: seq<string>, s: State, es: seq<Event>): (t: State)
    requires |jobs| == |s.holders|
    ensures |t.holders| == |jobs|
  {
    if es == [] then s else Apply(jobs, Run(jobs, s, es[..|es| - 1]), es[|es| - 1])
  }

  // ---- Lease safety ----

  /** w believes it holds the lock and its lease has not run out. */
  predicate HoldsLease(s: State, w: nat) {
    w < |s.holders| && s.holders[w].acquired && s.clock < s.holders[w].leaseEnd
  }

  ghost predicate MutualExclusion(s: State) {
    forall v: nat, w: nat :: HoldsLease(s, v) && HoldsLease(s, w) ==> v == w
  }

  ghost predicate Distinct(jobs: seq<string>) {
    forall v, w :: 0 <= v < |jobs| && 0 <= w < |jobs| && jobs[v] == jobs[w] ==> v == w
  }

  /** The lock key is the lease of whoever holds one, and it always expires. */
  ghost predicate LeaseInv(jobs: seq<string>, s: State) {
    && |jobs| == |s.holders|
    && (s.lock.Some? ==> s.lock.value.expires.Some? && s.clock < s.lock.value.expires.value)
    && (forall w: nat :: HoldsLease(s, w) ==>
          s.lock.Some? && s.lock.value.jobId == jobs[w] && s.lock.value.expires == Some(s.holders[w].leaseEnd))
  }

  lemma StepKeepsLease(jobs: seq<string>, s: State, e: Event)
    requires LeaseInv(jobs, s) && Distinct(jobs)
    ensures LeaseInv(jobs, Apply(jobs, s, e))
  {
    var t := Apply(jobs, s, e);
    forall w: nat | HoldsLease(t, w)
      ensures t.lock.Some? && t.lock.value.jobId == jobs[w] && t.lock.value.expires == Some(t.holders[w].leaseEnd)
    {
      if !(e.TryLock? && t != s && e.w == w) { assert HoldsLease(s, w); }
    }
  }

  lemma {:induction false} EveryRunKeepsLease(jobs: seq<string>, clock: int, es: seq<Event>)
    requires Distinct(jobs)
    ensures LeaseInv(jobs, Run(jobs, Init(|jobs|, clock), es))
  {
    if es != [] {
      EveryRunKeepsLease(jobs, clock, es[..|es| - 1]);
      StepKeepsLease(jobs, Run(jobs, Init(|jobs|, clock), es[..|es| - 1]), es[|es| - 1]);
    }
  }

  /** Whatever the job ids: the stored job id changes only through a fresh SET NX, no command but
      that one moves the expiry, and only the owner's id deletes the key before it expires. */
  lemma LockChangesOnlyByAcquire(jobs: seq<string>, s: State, e: Event)
    requires |jobs| == |s.holders|
    ensures var t := Apply(jobs, s, e);
      && (s.lock.Some? && t.lock.Some? ==>
            t.lock.value.jobId == s.lock.value.jobId && t.lock.value.expires == s.lock.value.expires)
      && (s.lock.None? && t.lock.Some? ==>
            e.TryLock? && t.lock == Some(Lock(jobs[e.w], None, "running", Some(s.clock + e.ttl))) && HoldsLease(t, e.w))
      && (s.lock.Some? && t.lock.None? ==>
            || (e.Release? && s.lock.value.jobId == jobs[e.w])
            || (e.Tick? && s.lock.value.expires.Some? && s.lock.value.expires.value <= t.clock))
  {
  }

  /** A release by a holder whose own lease has lapsed frees someone else's lock exactly when the
      two jobs have the same id. */
  lemma StaleReleaseFreesIffSameJob(jobs: seq<string>, s: State, v: nat, w: nat)
    requires LeaseInv(jobs, s) && HoldsLease(s, v)
    requires w < |jobs| && s.holders[w].acquired && !HoldsLease(s, w)
    ensures Apply(jobs, s, Release(w)).lock.None? <==> jobs[v] == jobs[w]
    ensures HoldsLease(Apply(jobs, s, Release(w)), v)
  {
  }

  /** Two objects with the same job id: the first lets its lease lapse, the second acquires, the
      first releases, and acquires again. */
  function SharedIdRun(v: nat, w: nat): seq<Event> {
    [TryLock(v, 600), Tick(600), TryLock(w, 600), Release(v), TryLock(v, 600)]
  }

  lemma Then(jobs: seq<string>, s: State, es: seq<Event>, e: Event)
    requires |jobs| == |s.holders|
    ensures Run(jobs, s, es + [e]) == Apply(jobs, Run(jobs, s, es), e)
  {
    assert (es + [e])[..|es|] == es;
  }

  /** The first lease has lapsed, and the second object holds the lock. */
  lemma SharedIdLapse(jobs: seq<string>, v: nat, w: nat) returns (es: seq<Event>)
    requires v < |jobs| && w < |jobs| && v != w
    ensures es == [TryLock(v, 600), Tick(600), TryLock(w, 600)]
    ensures var t := Run(jobs, Init(|jobs|, 0), es);
      && t.clock == 600 && t.lock == Some(Lock(jobs[w], None, "running", Some(1200)))
      && t.holders[v].acquired && t.holders[w] == Holder(true, 1200)
  {
    var s := Init(|jobs|, 0);
    assert Run(jobs, s, []) == s;
    hide Run;
    Then(jobs, s, [], TryLock(v, 600));
    es := [] + [TryLock(v, 600)];
    Then(jobs, s, es, Tick(600));
    es := es + [Tick(600)];
    Then(jobs, s, es, TryLock(w, 600));
    es := es + [TryLock(w, 600)];
  }

  lemma BothHold(jobs: seq<string>, t: State, v: nat, w: nat)
    requires v < |jobs| == |t.holders| && w < |jobs| && v != w && jobs[v] == jobs[w]
    requires t.clock == 600 && t.lock == Some(Lock(jobs[w], None, "running", Some(1200)))
    requires t.holders[v].acquired && t.holders[w] == Holder(true, 1200)
    ensures var u := Apply(jobs, Apply(jobs, t, Release(v)), TryLock(v, 600)); HoldsLease(u, v) && HoldsLease(u, w)
  {
  }

  lemma SharedIdEnds(jobs: seq<string>, v: nat, w: nat)
    requires v < |jobs| && w < |jobs| && v != w && jobs[v] == jobs[w]
    ensures var u := Run(jobs, Init(|jobs|, 0), SharedIdRun(v, w)); HoldsLease(u, v) && HoldsLease(u, w)
  {
    hide HoldsLease;
    var s := Init(|jobs|, 0);
    var es := SharedIdLapse(jobs, v, w);
    BothHold(jobs, Run(jobs, s, es), v, w);
    var one := [TryLock(v, 600), Tick(600), TryLock(w, 600), Release(v)];
    assert es + [Release(v)] == one && one + [TryLock(v, 600)] == SharedIdRun(v, w);
    hide Run, Apply, Init;
    Then(jobs, s, es, Release(v));
    Then(jobs, s, one, TryLock(v, 600));
  }

  lemma SharedIdBreaksExclusion(jobs: seq<string>, v: nat, w: nat)
    requires v < |jobs| && w < |jobs| && v != w && jobs[v] == jobs[w]
    ensures !MutualExclusion(Run(jobs, Init(|jobs|, 0), SharedIdRun(v, w)))
  {
    hide Run, HoldsLease;
    SharedIdEnds(jobs, v, w);
  }

  /** At most one object ever holds an unexpired lease, in every interleaving with crashes and
      lapses, exactly when no two of them run the same job. */
  lemma {:induction false} ExclusionIffDistinctJobs(jobs: seq<string>)
    ensures Distinct(jobs) <==> forall es :: MutualExclusion(Run(jobs, Init(|jobs|, 0), es))
  {
    if Distinct(jobs) {
      forall es ensures MutualExclusion(Run(jobs, Init(|jobs|, 0), es)) {
        EveryRunKeepsLease(jobs, 0, es);
      }
    } else {
      var v, w :| 0 <= v < |jobs| && 0 <= w < |jobs| && jobs[v] == jobs[w] && v != w;
      SharedIdBreaksExclusion(jobs, v, w);
    }
  }

  // ---- Pending prompts ----

  /** A pending prompt is that of one of the jobs, and no older than five minutes. */
  ghost predicate PendingInv(jobs: seq<string>, s: State) {
    s.pending.Some? ==> s.pending.value.jobId in jobs && s.clock < s.pending.value.expires <= s.clock + 300
  }

  lemma {:induction false} EveryRunKeepsPending(jobs: seq<string>, clock: int, es: seq<Event>)
    ensures PendingInv(jobs, Run(jobs, Init(|jobs|, clock), es))
  {
    if es != [] { EveryRunKeepsPending(jobs, clock, es[..|es| - 1]); }
  }

  /** A prompt stored by one object is taken by whoever asks first within five minutes, and by nobody after. */
  lemma {:induction false} PromptIsTakenOnce(jobs: seq<string>, s: State, v: nat, w: nat, prompt: string, dt: nat)
    requires |jobs| == |s.holders| && v < |jobs| && w < |jobs|
    ensures var stored := Apply(jobs, s, SetPending(v, prompt));
      var waited := Apply(jobs, stored, Tick(dt));
      && waited.pending == (if dt < 300 then Some(Prompt(jobs[v], prompt, s.clock + 300)) else None)
      && Apply(jobs, waited, TakePending(w)).pending == None
  {
  }

  // ---- The code ----

  predicate ByOthers(es: seq<Event>, w: nat) {
    forall e :: e in es ==> e.Tick? || e.w != w
  }

  /** What the others do at each await of acquire: before the first poll, in each second of
      polling, before the second try, and before the pending prompt is stored. */
  datatype Pauses = Pauses(early: seq<Event>, polls: seq<seq<Event>>, late: seq<Event>, later: seq<Event>)

  predicate PausesByOthers(p: Pauses, w: nat) {
    && ByOthers(p.early, w) && ByOthers(p.late, w) && ByOthers(p.later, w)
    && forall i :: 0 <= i < |p.polls| ==> ByOthers(p.polls[i], w)
  }

  /** The commands that object w issued, in order. */
  function Own(es: seq<Event>, w: nat): seq<Event> {
    if es == [] then []
    else Own(es[..|es| - 1], w) + if !es[|es| - 1].Tick? && es[|es| - 1].w == w then [es[|es| - 1]] else []
  }

  lemma OwnLast(es: seq<Event>, e: Event, w: nat)
    ensures Own(es + [e], w) == Own(es, w) + if !e.Tick? && e.w == w then [e] else []
  {
    assert (es + [e])[..|es|] == es;
  }

  lemma {:induction false} OwnOthers(before: seq<Event>, es: seq<Event>, w: nat)
    requires ByOthers(es, w)
    ensures Own(before + es, w) == Own(before, w)
  {
    if es == [] {
      assert before + es == before;
    } else {
      var n := |es| - 1;
      OwnOthers(before, es[..n], w);
      OwnLast(before + es[..n], es[n], w);
      assert before + es == before + es[..n] + [es[n]];
    }
  }

  /** Everything that happens during some seconds of polling. */
  function Flat(polls: seq<seq<Event>>): seq<Event> {
    if polls == [] then [] else Flat(polls[..|polls| - 1]) + polls[|polls| - 1]
  }

  /** The Redis server together with every WorktreeLock object on one worktree. */
  class Worktree {
    const jobs: seq<string>
    var clock: int
    var lock: Option<Lock>
    var pending: Option<Prompt>
    var holders: seq<Holder>
    ghost var trace: seq<Event>
    ghost const start: int

    function Model(): State
      reads this
    {
      State(clock, lock, pending, holders)
    }

    /** The object is where its trace leads in the protocol. */
    ghost predicate Valid()
      reads this
    {
      |holders| == |jobs| && Model() == Run(jobs, Init(|jobs|, start), trace)
    }

    constructor (jobs: seq<string>, clock: int)
      ensures Valid() && this.jobs == jobs && trace == [] && start == clock
    {
      this.jobs, this.clock, lock, pending := jobs, clock, None, None;
      holders := seq(|jobs|, _ => Holder(false, clock));
      trace, start := [], clock;
    }

    ghost method Log(e: Event)
      requires |holders| == |jobs| && Model() == Apply(jobs, Run(jobs, Init(|jobs|, start), trace), e)
      modifies this`trace
      ensures Valid() && trace == old(trace) + [e]
    {
      hide Apply;
      assert (trace + [e])[..|trace|] == trace;
      trace := trace + [e];
    }

    /** SET NX EX, and the two fields the object sets when it succeeds. */
    method SetIfAbsent(w: nat, ttl: int) returns (acquired: bool)
      requires Valid() && w < |jobs| && ttl > 0
      modifies this
      ensures Valid() && trace == old(trace) + [TryLock(w, ttl)]
      ensures acquired <==> old(lock).None?
      ensures acquired ==> HoldsLease(Model(), w) && lock == Some(Lock(jobs[w], None, "running", Some(clock + ttl)))
      ensures !acquired ==> lock == old(lock) && holders == old(holders)
      ensures clock == old(clock) && Own(trace, w) == Own(old(trace), w) + [TryLock(w, ttl)]
    {
      OwnLast(trace, TryLock(w, ttl), w);
      acquired := lock.None?;
      if acquired {
        lock := Some(Lock(jobs[w], None, "running", Some(clock + ttl)));
        holders := holders[w := Holder(true, clock + ttl)];
      }
      Log(TryLock(w, ttl));
    }

    method OthersRun(es: seq<Event>, w: nat)
      requires Valid() && ByOthers(es, w) && w < |jobs|
      modifies this
      ensures Valid() && trace == old(trace) + es && holders[w] == old(holders)[w]
      ensures Own(trace, w) == Own(old(trace), w)
    {
      hide Run;
      OwnOthers(trace, es, w);
      for i := 0 to |es|
        invariant Valid() && trace == old(trace) + es[..i] && holders[w] == old(holders)[w]
      {
        var t := Apply(jobs, Model(), es[i]);
        clock, lock, pending, holders := t.clock, t.lock, t.pending, t.holders;
        Log(es[i]);
        assert es[..i + 1] == es[..i] + [es[i]];
      }
    }

    /** Polls once a second; `polls` says what the others do in each of those seconds. */
    method WaitForRelease(w: nat, timeout: nat, polls: seq<seq<Event>>) returns (released: bool)
      requires Valid() && w < |jobs| && |polls| == timeout
      requires forall i :: 0 <= i < |polls| ==> ByOthers(polls[i], w)
      modifies this
      ensures Valid() && old(trace) <= trace && holders[w] == old(holders)[w]
      ensures Own(trace, w) == Own(old(trace), w)
      ensures released ==> lock.None?
      ensures !released ==> trace == old(trace) + Flat(polls) && (timeout > 0 ==> old(lock).Some?)
    {
      hide Run, Own, Apply;
      var elapsed := 0;
      while elapsed < timeout
        invariant elapsed <= timeout && Valid() && holders[w] == old(holders)[w]
        invariant trace == old(trace) + Flat(polls[..elapsed]) && Own(trace, w) == Own(old(trace), w)
        invariant if elapsed == 0 then lock == old(lock) else old(lock).Some?
      {
        if lock.None? {
          return true;
        }
        OthersRun(polls[elapsed], w);
        assert polls[..elapsed + 1][..elapsed] == polls[..elapsed];
        elapsed := elapsed + 1;
      }
      assert polls[..timeout] == polls;
      return false;
    }

    /** The whole of acquire: it succeeds only by a SET NX of its own, and the caller then holds the
        lease; if it waited in vain, an empty pending prompt of this job is left behind. */
    method Acquire(w: nat, timeout: nat, ttl: int, p: Pauses) returns (acquired: bool)
      requires Valid() && w < |jobs| && ttl > 0 && |p.polls| == timeout && PausesByOthers(p, w)
      modifies this
      ensures Valid() && old(trace) <= trace
      ensures acquired ==> HoldsLease(Model(), w) && trace[|trace| - 1] == TryLock(w, ttl)
      ensures old(lock).None? ==> acquired
      ensures Own(trace, w) == Own(old(trace), w)
              + if old(lock).None? || timeout == 0 then [TryLock(w, ttl)]
                else [TryLock(w, ttl), TryLock(w, ttl)] + if acquired then [] else [SetPending(w, "")]
      ensures acquired ==> lock == Some(Lock(jobs[w], None, "running", Some(clock + ttl)))
      ensures !acquired ==> holders[w] == old(holders)[w]
      ensures !acquired && timeout > 0 ==> pending == Some(Prompt(jobs[w], "", clock + PENDING_TTL))
    {
      hide Own, Run, Flat, Apply;
      acquired := SetIfAbsent(w, ttl);
      if acquired || timeout == 0 {
        return;
      }
      OthersRun(p.early, w);
      var _ := WaitForRelease(w, timeout, p.polls);
      OthersRun(p.late, w);
      acquired := SetIfAbsent(w, ttl);
      if !acquired {
        OthersRun(p.later, w);
        SetPendingPrompt(w, "");
      }
    }

    /** The script deletes the key only if it still carries this object's job id. */
    method ReleaseLock(w: nat)
      requires Valid() && w < |jobs|
      modifies this
      ensures Valid() && trace == old(trace) + [Release(w)]
      ensures !holders[w].acquired && clock == old(clock)
      ensures lock == if old(holders)[w].acquired && old(lock).Some? && old(lock).value.jobId == jobs[w]
                      then None else old(lock)
    {
      if holders[w].acquired {
        if lock.Some? && lock.value.jobId == jobs[w] { lock := None; }
        holders := holders[w := holders[w].(acquired := false)];
      }
      Log(Release(w));
    }

    /** The owner is not checked; the job id and the expiry are kept. */
    method UpdateLockField(w: nat, field: Field, value: string) returns (updated: bool)
      requires Valid() && w < |jobs|
      modifies this
      ensures Valid() && trace == old(trace) + [Update(w, field, value)] && holders == old(holders)
      ensures updated <==> old(lock).Some? && old(lock).value.expires.Some? && old(lock).value.expires.value > clock
      ensures updated ==> lock == Some(match field
                                       case SessionId => old(lock).value.(sessionId := Some(value))
                                       case Status => old(lock).value.(status := value))
      ensures !updated ==> lock == old(lock)
    {
      updated := lock.Some? && lock.value.expires.Some? && lock.value.expires.value - clock > 0;
      if updated {
        var ttl := lock.value.expires.value - clock;
        var l := match field
                 case SessionId => lock.value.(sessionId := Some(value))
                 case Status => lock.value.(status := value);
        lock := Some(l.(expires := Some(clock + ttl)));
      }
      Log(Update(w, field, value));
    }

    /** set_session_id: only an object that acquired the lock issues the update. */
    method SetSessionId(w: nat, sessionId: string)
      requires Valid() && w < |jobs|
      modifies this
      ensures Valid() && holders == old(holders)
      ensures trace == old(trace) + if holders[w].acquired then [Update(w, SessionId, sessionId)] else []
    {
      if holders[w].acquired {
        var _ := UpdateLockField(w, SessionId, sessionId);
      }
    }

    /** set_interrupted, under the same guard. */
    method SetInterrupted(w: nat)
      requires Valid() && w < |jobs|
      modifies this
      ensures Valid() && holders == old(holders)
      ensures trace == old(trace) + if holders[w].acquired then [Update(w, Status, "interrupted")] else []
    {
      if holders[w].acquired {
        var _ := UpdateLockField(w, Status, "interrupted");
      }
    }

    method SetPendingPrompt(w: nat, prompt: string)
      requires Valid() && w < |jobs|
      modifies this
      ensures Valid() && trace == old(trace) + [SetPending(w, prompt)]
      ensures pending == Some(Prompt(jobs[w], prompt, clock + PENDING_TTL)) && lock == old(lock)
      ensures holders == old(holders) && clock == old(clock)
      ensures Own(trace, w) == Own(old(trace), w) + [SetPending(w, prompt)]
    {
      OwnLast(trace, SetPending(w, prompt), w);
      pending := Some(Prompt(jobs[w], prompt, clock + PENDING_TTL));
      Log(SetPending(w, prompt));
    }

    /** Read and cleared in one script, so a prompt is handed out at most once. */
    method GetPendingPrompt(w: nat) returns (prompt: Option<Prompt>)
      requires Valid() && w < |jobs|
      modifies this
      ensures Valid() && trace == old(trace) + [TakePending(w)]
      ensures prompt == old(pending) && pending.None? && lock == old(lock) && holders == old(holders)
    {
      prompt := pending;
      pending := None;
      Log(TakePending(w));
    }
  }
}
