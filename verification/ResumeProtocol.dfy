/** Resuming one streaming session: concurrent handle_resume callers under a nonce lock, the
    workers and webhooks that move the session, and the orphan-recovery sweep. Each Redis
    command or script of handle_resume is one atomic step. */
module ResumeProtocol {
  import opened Basics

  type JobId = nat

  const RESUME_LOCK_TTL := 30
  const JOB_TTL := 3600
  const STALE_AFTER := 300

  datatype Status = Running | Completed | Errored
  datatype Session = Session(status: Status, runCount: int, lastRun: int, hasWorktree: bool, hasSessionId: bool)
  datatype JobStatus = Pending | Processing | Finished

  /** A status key and the time at which Redis drops it. */
  datatype Job = Job(status: JobStatus, expires: int)
  datatype ResumeLock = ResumeLock(nonce: nat, expires: int)

  /** The next command of a handle_resume call. */
  datatype Pc =
    | Idle
    | Locked                  // holds the lock, has not read the session
    | Resumable               // has read a completed or errored status
    | Marked                  // set_running done
    | Bumped                  // run count incremented
    | Stored(job: JobId)      // job data written
    | Announced(job: JobId)   // job status "pending" written
    | Recorded(job: JobId)    // set_job_id done
    | Releasing               // in the finally block

  /** `serial` and `markedAt` are the number of the resume and the time when it set the session running. */
  datatype Caller = Caller(pc: Pc, nonce: nat, leaseEnd: int, serial: nat, markedAt: int)

  datatype State = State(
    clock: int,
    resumeLock: Option<ResumeLock>,
    session: Option<Session>,
    jobKey: Option<JobId>,
    jobs: map<JobId, Job>,
    queue: seq<JobId>,
    worktreeLocked: bool,
    lists: set<nat>,            // the sweepers that have this session in their lists of stale ones
    callers: seq<Caller>,
    log: Log
  )

  /** History, and the sources of fresh nonces and job ids. */
  datatype Log = Log(
    nextNonce: nat,
    nextJob: JobId,
    left: nat,                  // times the session left "running"
    marks: nat,                 // resumes that set the session running
    markedAtLeft: nat,          // `left` when the last of them did
    markedAt: int,              // and the time
    replaced: bool,             // a new session was created under the token since then
    bumps: nat,                 // run count increments by resumes
    bumpsBefore: nat,           // those before the current session was created
    unbumped: nat,              // resumes that failed between marking and incrementing
    created: nat,               // jobs pushed by resumes
    abandoned: nat,             // resumes that failed between marking and pushing
    recorded: map<JobId, nat>,  // job ids recorded by resumes, with the number of the resume
    requeues: nat               // sessions the sweep declared dead
  )

  /** The commands of one handle_resume call, in order; then the two ways it can end early. */
  datatype Command =
    | Acquire | Read | Mark | Bump | Store | Announce | Record | Push | Release
    | Fail                          // an exception: straight to the finally block
    | Crash                         // the process dies: no release

  /** What everyone else does to the session and its jobs. */
  datatype Outside =
    | Leave(isError: bool)          // a worker's set_completed
    | Rerun                         // a worker's set_running on auto-continue
    | Claim(worktree: bool)         // a worker records its worktree or session id
    | Vanish                        // the session hash expires or is deleted
    | Begin(job: JobId)             // the request processor starts a run of its own
    | Pull | Finish(job: JobId)     // a sandbox worker
    | SetWorktreeLock(held: bool)
    | SweepList(v: nat) | SweepDecide(v: nat)   // sweeper v
    | Tick(dt: nat)

  datatype Event = Call(w: nat, c: Command) | World(x: Outside)

  function Init(n: nat, clock: int): State {
    State(clock, None, None, None, map[], [], false, {}, seq(n, _ => Caller(Idle, 0, clock, 0, clock)),
          Log(1, 0, 0, 0, 0, clock, true, 0, 0, 0, 0, 0, map[], 0))
  }

  predicate At(s: State, w: nat, pc: Pc) { w < |s.callers| && s.callers[w].pc == pc }

  function Goto(s: State, w: nat, pc: Pc): State
    requires w < |s.callers|
  {
    s.(callers := s.callers[w := s.callers[w].(pc := pc)])
  }

  predicate IsLive(s: State, j: JobId) {
    j in s.jobs && s.clock < s.jobs[j].expires && !s.jobs[j].status.Finished?
  }

  /** What list_stale_running_sessions tests. */
  predicate LooksStale(s: State) {
    && s.session.Some? && s.session.value.status.Running?
    && !s.session.value.hasWorktree && !s.session.value.hasSessionId
    && s.session.value.lastRun < s.clock - STALE_AFTER
  }

  /** What _recover_session tests. */
  predicate LooksAlive(s: State) {
    (s.jobKey.Some? && IsLive(s, s.jobKey.value)) || s.worktreeLocked
  }

  /** set_completed; a hash that is gone stays unreadable. */
  function SetCompleted(s: State, isError: bool): State {
    if s.session.None? then s
    else
      s.(session := Some(s.session.value.(status := if isError then Errored else Completed)),
         log := s.log.(left := s.log.left + if s.session.value.status.Running? then 1 else 0))
  }

  function SetRunning(s: State): State {
    if s.session.None? then s
    else s.(session := Some(s.session.value.(status := Running, hasSessionId := false, lastRun := s.clock)))
  }

  // ---- The commands of one handle_resume call ----

  function DoAcquire(s: State, w: nat): State {
    if At(s, w, Idle) && s.resumeLock.None? then
      var nonce, end := s.log.nextNonce, s.clock + RESUME_LOCK_TTL;
      s.(resumeLock := Some(ResumeLock(nonce, end)),
         callers := s.callers[w := Caller(Locked, nonce, end, 0, s.clock)],
         log := s.log.(nextNonce := nonce + 1))
    else s
  }

  function DoRead(s: State, w: nat): State {
    if At(s, w, Locked) then
      Goto(s, w, if s.session.Some? && !s.session.value.status.Running? then Resumable else Releasing)
    else s
  }

  function DoMark(s: State, w: nat): State {
    if At(s, w, Resumable) then
      var t := SetRunning(s);
      t.(callers := s.callers[w := s.callers[w].(pc := Marked, serial := s.log.marks + 1, markedAt := s.clock)],
         log := s.log.(marks := s.log.marks + 1, markedAtLeft := s.log.left, markedAt := s.clock, replaced := false))
    else s
  }

  function DoBump(s: State, w: nat): State {
    if At(s, w, Marked) then
      Goto(s, w, Bumped).(session := if s.session.None? then None
                                     else Some(s.session.value.(runCount := s.session.value.runCount + 1)),
                          log := s.log.(bumps := s.log.bumps + 1))
    else s
  }

  function DoStore(s: State, w: nat): State {
    if At(s, w, Bumped) then
      Goto(s, w, Stored(s.log.nextJob)).(log := s.log.(nextJob := s.log.nextJob + 1))
    else s
  }

  function DoAnnounce(s: State, w: nat): State {
    if w < |s.callers| && s.callers[w].pc.Stored? then
      var j := s.callers[w].pc.job;
      Goto(s, w, Announced(j)).(jobs := s.jobs[j := Job(Pending, s.clock + JOB_TTL)])
    else s
  }

  function DoRecord(s: State, w: nat): State {
    if w < |s.callers| && s.callers[w].pc.Announced? then
      var j := s.callers[w].pc.job;
      Goto(s, w, Recorded(j)).(jobKey := Some(j),
                               log := s.log.(recorded := s.log.recorded[j := s.callers[w].serial]))
    else s
  }

  function DoPush(s: State, w: nat): State {
    if w < |s.callers| && s.callers[w].pc.Recorded? then
      Goto(s, w, Releasing).(queue := s.queue + [s.callers[w].pc.job], log := s.log.(created := s.log.created + 1))
    else s
  }

  /** The release script: delete the key only while it still carries this call's nonce. */
  function DoRelease(s: State, w: nat): State {
    if At(s, w, Releasing) then
      Goto(s, w, Idle).(resumeLock := if s.resumeLock.Some? && s.resumeLock.value.nonce == s.callers[w].nonce
                                      then None else s.resumeLock)
    else s
  }

  predicate AwaitsBump(c: Caller) { c.pc.Marked? }
  predicate InFlight(c: Caller) { c.pc.Marked? || c.pc.Bumped? || c.pc.Stored? || c.pc.Announced? || c.pc.Recorded? }

  /** A call ends early, going to its finally block or nowhere. */
  function DoQuit(s: State, w: nat, pc: Pc): State {
    if w < |s.callers| && !s.callers[w].pc.Idle? && !s.callers[w].pc.Releasing? then
      Goto(s, w, pc).(log := s.log.(
        unbumped := s.log.unbumped + if AwaitsBump(s.callers[w]) then 1 else 0,
        abandoned := s.log.abandoned + if InFlight(s.callers[w]) then 1 else 0))
    else s
  }

  // ---- Everyone else ----

  function DoBegin(s: State, j: JobId): State {
    if j < s.log.nextJob then s
    else
      s.(session := Some(Session(Running, 1, s.clock, false, false)),
         jobKey := Some(j), jobs := s.jobs[j := Job(Pending, s.clock + JOB_TTL)], queue := s.queue + [j],
         log := s.log.(nextJob := j + 1, replaced := true, bumpsBefore := s.log.bumps))
  }

  function DoVanish(s: State): State {
    if s.session.None? then s
    else s.(session := None, log := s.log.(left := s.log.left + if s.session.value.status.Running? then 1 else 0))
  }

  function DoPull(s: State): State {
    if s.queue == [] then s
    else if s.queue[0] in s.jobs && s.clock < s.jobs[s.queue[0]].expires then
      s.(queue := s.queue[1..], jobs := s.jobs[s.queue[0] := Job(Processing, s.clock + JOB_TTL)])
    else s.(queue := s.queue[1..])
  }

  function DoSweepList(s: State, v: nat): State {
    s.(lists := if LooksStale(s) then s.lists + {v} else s.lists - {v})
  }

  function DoSweepDecide(s: State, v: nat): State {
    if v !in s.lists then s
    else if LooksAlive(s) then s.(lists := s.lists - {v})
    else
      var t := SetCompleted(s, true);
      t.(lists := s.lists - {v}, log := t.log.(requeues := s.log.requeues + 1))
  }

  function DoCall(s: State, w: nat, c: Command): State {
    match c
    case Acquire => DoAcquire(s, w)
    case Read => DoRead(s, w)
    case Mark => DoMark(s, w)
    case Bump => DoBump(s, w)
    case Store => DoStore(s, w)
    case Announce => DoAnnounce(s, w)
    case Record => DoRecord(s, w)
    case Push => DoPush(s, w)
    case Release => DoRelease(s, w)
    case Fail => DoQuit(s, w, Releasing)
    case Crash => if At(s, w, Releasing) then Goto(s, w, Idle) else DoQuit(s, w, Idle)
  }

  function DoOutside(s: State, x: Outside): State {
    match x
    case Leave(isError) => SetCompleted(s, isError)
    case Rerun => SetRunning(s)
    case Claim(worktree) =>
      if s.session.None? then s
      else if worktree then s.(session := Some(s.session.value.(hasWorktree := true)))
      else s.(session := Some(s.session.value.(hasSessionId := true)))
    case Vanish => DoVanish(s)
    case Begin(j) => DoBegin(s, j)
    case Pull => DoPull(s)
    case Finish(j) => if j in s.jobs then s.(jobs := s.jobs[j := Job(Finished, s.clock + JOB_TTL)]) else s
    case SetWorktreeLock(held) => s.(worktreeLocked := held)
    case SweepList(v) => DoSweepList(s, v)
    case SweepDecide(v) => DoSweepDecide(s, v)
    case Tick(dt) =>
      s.(clock := s.clock + dt,
         resumeLock := if s.resumeLock.Some? && s.resumeLock.value.expires <= s.clock + dt then None else s.resumeLock)
  }

  /** One step; a command that its call cannot issue now changes nothing. */
  function Apply(s: State, e: Event): State {
    match e
    case Call(w, c) => DoCall(s, w, c)
    case World(x) => DoOutside(s, x)
  }

  function Run(s: State, es: seq<Event>): State {
    if es == [] then s else Apply(Run(s, es[..|es| - 1]), es[|es| - 1])
  }

  // ---- What is assumed of a run ----

  predicate HoldsLease(s: State, w: nat) {
    w < |s.callers| && !s.callers[w].pc.Idle? && s.clock < s.callers[w].leaseEnd
  }

  /** A call that sets the session running still holds its lease then. */
  ghost predicate MarkInLease(s: State, e: Event) {
    Marks(s, e) ==> HoldsLease(s, e.w)
  }

  /** A call sets the session running less than d seconds after it acquired the lock. */
  ghost predicate MarkWithin(d: int, s: State, e: Event) {
    Marks(s, e) ==> s.clock < s.callers[e.w].leaseEnd - RESUME_LOCK_TTL + d
  }

  ghost predicate MarksWithin(d: int, s: State, es: seq<Event>) {
    es == [] || (MarksWithin(d, s, es[..|es| - 1]) && MarkWithin(d, Run(s, es[..|es| - 1]), es[|es| - 1]))
  }

  /** A call that records its job id still holds its lease then. */
  ghost predicate RecordInLease(s: State, e: Event) {
    Records(s, e) ==> HoldsLease(s, e.w)
  }

  /** No call records its job id after a later resume has set the session running. */
  ghost predicate RecordInOrder(s: State, e: Event) {
    Records(s, e) ==> s.callers[e.w].serial == s.log.marks
  }

  /** A call records its job id within the stale limit of setting the session running. */
  ghost predicate RecordInTime(s: State, e: Event) {
    Records(s, e) ==> s.clock < s.callers[e.w].markedAt + STALE_AFTER
  }

  predicate Records(s: State, e: Event) {
    e.Call? && e.c.Record? && e.w < |s.callers| && s.callers[e.w].pc.Announced?
  }

  predicate Marks(s: State, e: Event) { e.Call? && e.c.Mark? && At(s, e.w, Resumable) }

  predicate Begins(s: State, e: Event) { e.World? && e.x.Begin? && s.log.nextJob <= e.x.job }

  ghost predicate RecordsInOrder(s: State, es: seq<Event>) {
    es == [] || (RecordsInOrder(s, es[..|es| - 1]) && RecordInOrder(Run(s, es[..|es| - 1]), es[|es| - 1]))
  }

  ghost predicate RecordsInTime(s: State, es: seq<Event>) {
    es == [] || (RecordsInTime(s, es[..|es| - 1]) && RecordInTime(Run(s, es[..|es| - 1]), es[|es| - 1]))
  }

  ghost predicate MarksInLease(s: State, es: seq<Event>) {
    es == [] || (MarksInLease(s, es[..|es| - 1]) && MarkInLease(Run(s, es[..|es| - 1]), es[|es| - 1]))
  }

  ghost predicate RecordsInLease(s: State, es: seq<Event>) {
    es == [] || (RecordsInLease(s, es[..|es| - 1]) && RecordInLease(Run(s, es[..|es| - 1]), es[|es| - 1]))
  }

  // ---- The lock ----

  ghost predicate LockInv(s: State) {
    && (s.resumeLock.Some? ==> s.clock < s.resumeLock.value.expires && s.resumeLock.value.nonce < s.log.nextNonce)
    && (forall w :: 0 <= w < |s.callers| && !s.callers[w].pc.Idle? ==>
          s.callers[w].nonce < s.log.nextNonce
          && (s.clock < s.callers[w].leaseEnd ==>
                s.resumeLock == Some(ResumeLock(s.callers[w].nonce, s.callers[w].leaseEnd))))
    && (forall v, w :: 0 <= v < w < |s.callers| && !s.callers[v].pc.Idle? && !s.callers[w].pc.Idle? ==>
          s.callers[v].nonce != s.callers[w].nonce)
  }

  /** At most one call holds an unexpired resume lease. */
  lemma OneLease(s: State, v: nat, w: nat)
    requires LockInv(s) && HoldsLease(s, v) && HoldsLease(s, w)
    ensures v == w
  {
  }

  /** One call moves on, and every lease stays as it was. */
  ghost predicate TouchesOne(s: State, t: State, w: nat) {
    && t.clock == s.clock && t.resumeLock == s.resumeLock && t.log.nextNonce == s.log.nextNonce
    && (if w < |s.callers| then w < |t.callers| && t.callers == s.callers[w := t.callers[w]] else t == s)
    && (w < |s.callers| ==> t.callers[w].nonce == s.callers[w].nonce && t.callers[w].leaseEnd == s.callers[w].leaseEnd
                            && (s.callers[w].pc.Idle? ==> t == s))
  }

  /** A command other than the lock's own two moves one call on, and leaves every lease as it was. */
  lemma CallTouchesOneCaller(s: State, w: nat, c: Command)
    requires !c.Acquire? && !c.Release?
    ensures TouchesOne(s, DoCall(s, w, c), w)
  {
    hide TouchesOne, DoCall;
    if c.Read? || c.Mark? || c.Bump? { EarlyTouchesOne(s, w, c); } else { LateTouchesOne(s, w, c); }
  }

  lemma EarlyTouchesOne(s: State, w: nat, c: Command)
    requires c.Read? || c.Mark? || c.Bump?
    ensures TouchesOne(s, DoCall(s, w, c), w)
  {
  }

  lemma LateTouchesOne(s: State, w: nat, c: Command)
    requires c.Store? || c.Announce? || c.Record? || c.Push? || c.Fail? || c.Crash?
    ensures TouchesOne(s, DoCall(s, w, c), w)
  {
  }

  /** Nothing outside handle_resume touches a call or, but for time, its lock. */
  lemma WorldTouchesNoCaller(s: State, x: Outside)
    ensures var t := DoOutside(s, x);
      && t.callers == s.callers && t.log.nextNonce == s.log.nextNonce && s.clock <= t.clock
      && (!x.Tick? ==> t.clock == s.clock && t.resumeLock == s.resumeLock)
      && t.log.marks == s.log.marks && t.log.markedAtLeft == s.log.markedAtLeft && s.log.left <= t.log.left
  {
  }

  lemma LockAfterOneCaller(s: State, t: State, w: nat)
    requires LockInv(s) && w < |s.callers| == |t.callers|
    requires t.clock == s.clock && t.resumeLock == s.resumeLock && t.log.nextNonce == s.log.nextNonce
    requires t.callers == s.callers[w := t.callers[w]] && !s.callers[w].pc.Idle?
    requires t.callers[w].nonce == s.callers[w].nonce && t.callers[w].leaseEnd == s.callers[w].leaseEnd
    ensures LockInv(t)
  {
  }

  lemma AcquireKeepsLock(s: State, w: nat)
    requires LockInv(s)
    ensures LockInv(DoAcquire(s, w))
  {
  }

  /** The nonce keeps a release from freeing the lock of another call. */
  lemma ReleaseKeepsLock(s: State, w: nat)
    requires LockInv(s)
    ensures LockInv(DoRelease(s, w))
    ensures forall v: nat :: v != w && HoldsLease(s, v) ==>
              DoRelease(s, w).resumeLock == s.resumeLock && HoldsLease(DoRelease(s, w), v)
  {
  }

  lemma StepKeepsLock(s: State, e: Event)
    requires LockInv(s)
    ensures LockInv(Apply(s, e))
  {
    hide DoCall, DoOutside;
    if e.World? {
      WorldTouchesNoCaller(s, e.x);
      if e.x.Tick? { TickKeepsLock(s, e.x.dt); }
    } else if e.c.Acquire? {
      assert DoCall(s, e.w, e.c) == DoAcquire(s, e.w) by { CallNames(s, e.w); }
      AcquireKeepsLock(s, e.w);
    } else if e.c.Release? {
      assert DoCall(s, e.w, e.c) == DoRelease(s, e.w) by { CallNames(s, e.w); }
      ReleaseKeepsLock(s, e.w);
    } else {
      CallTouchesOneCaller(s, e.w, e.c);
      if e.w < |s.callers| && !s.callers[e.w].pc.Idle? { LockAfterOneCaller(s, Apply(s, e), e.w); }
    }
  }

  lemma CallNames(s: State, w: nat)
    ensures DoCall(s, w, Acquire) == DoAcquire(s, w) && DoCall(s, w, Release) == DoRelease(s, w)
    ensures DoCall(s, w, Read) == DoRead(s, w) && DoCall(s, w, Mark) == DoMark(s, w)
    ensures DoCall(s, w, Record) == DoRecord(s, w)
  {
  }

  lemma TickKeepsLock(s: State, dt: nat)
    requires LockInv(s)
    ensures LockInv(DoOutside(s, Tick(dt)))
  {
  }

  // ---- One resume for each time the session left "running" ----

  /** Some resume may still come of the last time the session left "running". */
  ghost predicate Open(s: State) {
    || (s.session.Some? && !s.session.value.status.Running?)
    || exists w :: 0 <= w < |s.callers| && s.callers[w].pc.Resumable?
                   && (s.clock < s.callers[w].leaseEnd || |s.callers| <= 1)
  }

  ghost predicate EpochInv(s: State) {
    && s.log.marks <= s.log.markedAtLeft <= s.log.left
    && (Open(s) ==> s.log.markedAtLeft < s.log.left)
  }

  /** The session did not stop running, and no call newly reads a resumable status. */
  ghost predicate SameEpoch(s: State, t: State) {
    && t.log.marks == s.log.marks && t.log.markedAtLeft == s.log.markedAtLeft && s.log.left <= t.log.left
    && |t.callers| == |s.callers| && s.clock <= t.clock
    && (t.session.Some? && !t.session.value.status.Running? ==>
          s.session.Some? && (s.session.value.status.Running? ==> s.log.left < t.log.left))
    && forall w :: 0 <= w < |s.callers| && t.callers[w].pc.Resumable? ==>
         s.callers[w].pc.Resumable? && s.callers[w].leaseEnd == t.callers[w].leaseEnd
  }

  lemma SameEpochKeepsEpoch(s: State, t: State)
    requires EpochInv(s) && SameEpoch(s, t)
    ensures EpochInv(t)
  {
  }

  lemma ReadKeepsEpoch(s: State, w: nat)
    requires EpochInv(s)
    ensures EpochInv(DoRead(s, w))
  {
  }

  lemma MarkKeepsEpoch(s: State, w: nat)
    requires LockInv(s) && EpochInv(s) && (MarkInLease(s, Call(w, Mark)) || |s.callers| <= 1)
    ensures EpochInv(DoMark(s, w))
  {
    if At(s, w, Resumable) {
      assert s.callers[w].pc.Resumable? && (s.clock < s.callers[w].leaseEnd || |s.callers| <= 1);
      var t := DoMark(s, w);
      forall v | 0 <= v < |t.callers| && t.callers[v].pc.Resumable?
        ensures t.clock >= t.callers[v].leaseEnd && |t.callers| > 1
      {
        if HoldsLease(s, v) && HoldsLease(s, w) { OneLease(s, v, w); }
      }
    }
  }

  lemma StepKeepsEpoch(s: State, e: Event)
    requires LockInv(s) && EpochInv(s) && (MarkInLease(s, e) || |s.callers| <= 1)
    ensures EpochInv(Apply(s, e))
  {
    hide LockInv, EpochInv;
    if e.World? {
      WorldTouchesNoCaller(s, e.x);
      SameEpochKeepsEpoch(s, Apply(s, e));
    } else {
      hide DoCall;
      CallNames(s, e.w);
      if e.c.Read? { ReadKeepsEpoch(s, e.w); }
      else if e.c.Mark? { MarkKeepsEpoch(s, e.w); }
      else {
        CallKeepsEpoch(s, e.w, e.c);
        SameEpochKeepsEpoch(s, Apply(s, e));
      }
    }
  }

  lemma CallKeepsEpoch(s: State, w: nat, c: Command)
    requires !c.Read? && !c.Mark?
    ensures SameEpoch(s, DoCall(s, w, c))
  {
    hide SameEpoch, DoCall;
    if c.Acquire? || c.Bump? || c.Store? || c.Announce? { EarlyEpoch(s, w, c); } else { LateEpoch(s, w, c); }
  }

  lemma EarlyEpoch(s: State, w: nat, c: Command)
    requires c.Acquire? || c.Bump? || c.Store? || c.Announce?
    ensures SameEpoch(s, DoCall(s, w, c))
  {
  }

  lemma LateEpoch(s: State, w: nat, c: Command)
    requires c.Record? || c.Push? || c.Release? || c.Fail? || c.Crash?
    ensures SameEpoch(s, DoCall(s, w, c))
  {
  }

  // ---- Every resume is counted once ----

  ghost predicate CountInv(s: State) {
    && s.log.bumps + Count(AwaitsBump, s.callers) + s.log.unbumped == s.log.marks
    && s.log.created + Count(InFlight, s.callers) + s.log.abandoned == s.log.marks
    && s.log.bumpsBefore <= s.log.bumps
    && (s.session.Some? ==> s.session.value.runCount == 1 + s.log.bumps - s.log.bumpsBefore)
  }

  lemma WorldKeepsCounts(s: State, x: Outside)
    requires CountInv(s)
    ensures CountInv(DoOutside(s, x))
  {
    hide Count;
    WorldTouchesNoCaller(s, x);
    if x.Begin? { BeginKeepsCounts(s, x.job); }
  }

  lemma BeginKeepsCounts(s: State, j: JobId)
    requires CountInv(s)
    ensures CountInv(DoBegin(s, j))
  {
    hide Count;
  }

  /** What one command does to the tallies is what it does to its own call. */
  ghost predicate TalliesFollow(s: State, t: State, w: nat)
    requires w < |s.callers| && w < |t.callers|
  {
    var a, b := s.callers[w], t.callers[w];
    && t.callers == s.callers[w := b]
    && t.log.bumps + t.log.unbumped + (if AwaitsBump(b) then 1 else 0) - t.log.marks
       == s.log.bumps + s.log.unbumped + (if AwaitsBump(a) then 1 else 0) - s.log.marks
    && t.log.created + t.log.abandoned + (if InFlight(b) then 1 else 0) - t.log.marks
       == s.log.created + s.log.abandoned + (if InFlight(a) then 1 else 0) - s.log.marks
    && t.log.bumpsBefore == s.log.bumpsBefore && s.log.bumps <= t.log.bumps
    && t.session.Some? == s.session.Some?
    && (s.session.Some? ==> t.session.value.runCount - t.log.bumps == s.session.value.runCount - s.log.bumps)
  }

  lemma CallTallies(s: State, w: nat, c: Command)
    ensures w < |s.callers| && |DoCall(s, w, c).callers| == |s.callers| ==> TalliesFollow(s, DoCall(s, w, c), w)
    ensures |DoCall(s, w, c).callers| == |s.callers|
    ensures w >= |s.callers| ==> DoCall(s, w, c) == s
  {
    hide TalliesFollow, DoCall;
    if c.Acquire? || c.Read? || c.Mark? || c.Bump? { EarlyTallies(s, w, c); } else { LateTallies(s, w, c); }
  }

  lemma EarlyTallies(s: State, w: nat, c: Command)
    requires c.Acquire? || c.Read? || c.Mark? || c.Bump?
    ensures w < |s.callers| && |DoCall(s, w, c).callers| == |s.callers| ==> TalliesFollow(s, DoCall(s, w, c), w)
    ensures |DoCall(s, w, c).callers| == |s.callers|
    ensures w >= |s.callers| ==> DoCall(s, w, c) == s
  {
  }

  lemma LateTallies(s: State, w: nat, c: Command)
    requires !c.Acquire? && !c.Read? && !c.Mark? && !c.Bump?
    ensures w < |s.callers| && |DoCall(s, w, c).callers| == |s.callers| ==> TalliesFollow(s, DoCall(s, w, c), w)
    ensures |DoCall(s, w, c).callers| == |s.callers|
    ensures w >= |s.callers| ==> DoCall(s, w, c) == s
  {
    hide TalliesFollow, DoCall;
    if c.Store? || c.Announce? || c.Record? { JobTallies(s, w, c); } else { LastTallies(s, w, c); }
  }

  lemma JobTallies(s: State, w: nat, c: Command)
    requires c.Store? || c.Announce? || c.Record?
    ensures w < |s.callers| && |DoCall(s, w, c).callers| == |s.callers| ==> TalliesFollow(s, DoCall(s, w, c), w)
    ensures |DoCall(s, w, c).callers| == |s.callers|
    ensures w >= |s.callers| ==> DoCall(s, w, c) == s
  {
  }

  lemma LastTallies(s: State, w: nat, c: Command)
    requires c.Push? || c.Release? || c.Fail? || c.Crash?
    ensures w < |s.callers| && |DoCall(s, w, c).callers| == |s.callers| ==> TalliesFollow(s, DoCall(s, w, c), w)
    ensures |DoCall(s, w, c).callers| == |s.callers|
    ensures w >= |s.callers| ==> DoCall(s, w, c) == s
  {
  }

  lemma CallKeepsCounts(s: State, w: nat, c: Command)
    requires CountInv(s)
    ensures CountInv(DoCall(s, w, c))
  {
    hide DoCall;
    var t := DoCall(s, w, c);
    CallTallies(s, w, c);
    if w < |s.callers| {
      CountUpdate(AwaitsBump, s.callers, w, t.callers[w]);
      CountUpdate(InFlight, s.callers, w, t.callers[w]);
    }
  }

  // ---- What the recorded job id says ----

  predicate Unrecorded(c: Caller) { c.pc.Marked? || c.pc.Bumped? || c.pc.Stored? || c.pc.Announced? }

  predicate Named(c: Caller) { c.pc.Stored? || c.pc.Announced? }

  /** Resumes are numbered in the order they mark the session; each number is recorded at most once. */
  ghost predicate SerialInv(s: State) {
    && (forall w :: 0 <= w < |s.callers| && InFlight(s.callers[w]) ==> s.callers[w].serial <= s.log.marks)
    && (forall v, w :: 0 <= v < w < |s.callers| && InFlight(s.callers[v]) && InFlight(s.callers[w]) ==>
          s.callers[v].serial != s.callers[w].serial)
    && (forall j :: j in s.log.recorded ==> s.log.recorded[j] <= s.log.marks)
    && (forall i, j :: i in s.log.recorded && j in s.log.recorded && s.log.recorded[i] == s.log.recorded[j] ==> i == j)
    && (forall w, j :: 0 <= w < |s.callers| && Unrecorded(s.callers[w]) && j in s.log.recorded ==>
          s.log.recorded[j] != s.callers[w].serial)
  }

  /** Job ids are handed out once: no two calls and no record share one. */
  ghost predicate IdInv(s: State) {
    && (forall j :: j in s.log.recorded ==> j < s.log.nextJob)
    && (forall w :: 0 <= w < |s.callers| && Named(s.callers[w]) ==>
          s.callers[w].pc.job < s.log.nextJob && s.callers[w].pc.job !in s.log.recorded)
    && (forall v, w :: 0 <= v < w < |s.callers| && Named(s.callers[v]) && Named(s.callers[w]) ==>
          s.callers[v].pc.job != s.callers[w].pc.job)
  }

  /** A call within its lease is the latest resume. */
  ghost predicate LatestInLease(s: State) {
    forall w :: 0 <= w < |s.callers| && Unrecorded(s.callers[w]) && s.clock < s.callers[w].leaseEnd ==>
      s.callers[w].serial == s.log.marks
  }

  /** An exception takes a call to its finally block, a dead process nowhere: its lock stays until it lapses.
      Neither touches the session, the jobs or the lock. */
  lemma {:induction false} FailuresTouchNothing(s: State, w: nat, c: Command)
    requires c.Fail? || c.Crash?
    requires w < |s.callers| && !s.callers[w].pc.Idle? && !s.callers[w].pc.Releasing?
    ensures var t := DoCall(s, w, c);
      && t.callers == s.callers[w := s.callers[w].(pc := if c.Fail? then Releasing else Idle)]
      && t.session == s.session && t.resumeLock == s.resumeLock && t.jobKey == s.jobKey
      && t.jobs == s.jobs && t.queue == s.queue && t.lists == s.lists && t.clock == s.clock
      && t.log.abandoned == s.log.abandoned + if InFlight(s.callers[w]) then 1 else 0
  {
  }

  lemma WorldKeepsSerials(s: State, x: Outside)
    requires SerialInv(s)
    ensures SerialInv(DoOutside(s, x))
  {
    WorldTouchesNoCaller(s, x);
    WorldNamesNothing(s, x);
    hide DoOutside;
  }

  lemma WorldNamesNothing(s: State, x: Outside)
    ensures DoOutside(s, x).log.recorded == s.log.recorded && s.log.nextJob <= DoOutside(s, x).log.nextJob
  {
  }

  lemma WorldKeepsIds(s: State, x: Outside)
    requires IdInv(s)
    ensures IdInv(DoOutside(s, x)) && (LatestInLease(s) ==> LatestInLease(DoOutside(s, x)))
  {
    WorldTouchesNoCaller(s, x);
    WorldNamesNothing(s, x);
    hide DoOutside;
  }

  lemma MarkKeepsSerials(s: State, w: nat)
    requires SerialInv(s)
    ensures SerialInv(DoMark(s, w))
  {
  }

  lemma MarkKeepsLatest(s: State, w: nat)
    requires LockInv(s) && MarkInLease(s, Call(w, Mark))
    ensures LatestInLease(s) ==> LatestInLease(DoMark(s, w))
  {
    if At(s, w, Resumable) {
      assert HoldsLease(s, w);
      forall v: nat | v != w && v < |s.callers| && Unrecorded(s.callers[v])
        ensures s.callers[v].leaseEnd <= s.clock
      {
        if HoldsLease(s, v) { OneLease(s, v, w); }
      }
    }
  }

  lemma RecordKeepsSerials(s: State, w: nat)
    requires SerialInv(s) && IdInv(s)
    ensures SerialInv(DoRecord(s, w)) && IdInv(DoRecord(s, w))
  {
    hide SerialInv, IdInv;
    RecordKeepsNumbers(s, w);
    RecordKeepsIds(s, w);
  }

  lemma RecordKeepsNumbers(s: State, w: nat)
    requires SerialInv(s)
    ensures SerialInv(DoRecord(s, w))
  {
  }

  lemma RecordKeepsIds(s: State, w: nat)
    requires IdInv(s)
    ensures IdInv(DoRecord(s, w))
  {
  }

  /** Any other command moves one call on without a new number or a new record. */
  lemma CallKeepsSerials(s: State, w: nat, c: Command)
    requires SerialInv(s) && !c.Mark? && !c.Record?
    ensures SerialInv(DoCall(s, w, c)) && (LatestInLease(s) ==> LatestInLease(DoCall(s, w, c)))
  {
    var t := DoCall(s, w, c);
    hide DoCall;
    CallShape(s, w, c);
  }

  /** One call moves on, with the number and the lease it had and no new record. */
  ghost predicate MovesOn(s: State, t: State, w: nat) {
    && t.log.recorded == s.log.recorded && t.log.marks == s.log.marks && t.clock == s.clock
    && (t == s || (w < |s.callers| == |t.callers| && t.callers == s.callers[w := t.callers[w]]
                   && (InFlight(t.callers[w]) ==> InFlight(s.callers[w]) && t.callers[w].serial == s.callers[w].serial
                                                  && t.callers[w].leaseEnd == s.callers[w].leaseEnd)
                   && (Unrecorded(t.callers[w]) ==> Unrecorded(s.callers[w]))))
  }

  lemma CallShape(s: State, w: nat, c: Command)
    requires !c.Mark? && !c.Record?
    ensures MovesOn(s, DoCall(s, w, c), w)
  {
    hide MovesOn, DoCall;
    if c.Acquire? || c.Read? || c.Bump? { EarlyShape(s, w, c); } else { LateShape(s, w, c); }
  }

  lemma EarlyShape(s: State, w: nat, c: Command)
    requires c.Acquire? || c.Read? || c.Bump?
    ensures MovesOn(s, DoCall(s, w, c), w)
  {
  }

  lemma LateShape(s: State, w: nat, c: Command)
    requires c.Store? || c.Announce? || c.Push? || c.Release? || c.Fail? || c.Crash?
    ensures MovesOn(s, DoCall(s, w, c), w)
  {
  }

  /** A command other than recording leaves the records, and gives out at most one id, a fresh one. */
  ghost predicate Names(s: State, t: State, w: nat) {
    && t.log.recorded == s.log.recorded && s.log.nextJob <= t.log.nextJob
    && (t == s || (w < |s.callers| == |t.callers| && t.callers == s.callers[w := t.callers[w]]
                   && (Named(t.callers[w]) ==>
                         || (Named(s.callers[w]) && t.callers[w].pc.job == s.callers[w].pc.job)
                         || (s.log.nextJob == t.callers[w].pc.job < t.log.nextJob))))
  }

  lemma CallNamesOne(s: State, w: nat, c: Command)
    requires !c.Record?
    ensures Names(s, DoCall(s, w, c), w)
  {
    hide Names, DoCall;
    if c.Acquire? || c.Read? || c.Bump? || c.Mark? { EarlyNames(s, w, c); } else { LateNames(s, w, c); }
  }

  lemma EarlyNames(s: State, w: nat, c: Command)
    requires c.Acquire? || c.Read? || c.Bump? || c.Mark?
    ensures Names(s, DoCall(s, w, c), w)
  {
  }

  lemma LateNames(s: State, w: nat, c: Command)
    requires c.Store? || c.Announce? || c.Push? || c.Release? || c.Fail? || c.Crash?
    ensures Names(s, DoCall(s, w, c), w)
  {
  }

  lemma CallKeepsIds(s: State, w: nat, c: Command)
    requires IdInv(s) && !c.Record?
    ensures IdInv(DoCall(s, w, c))
  {
    hide DoCall;
    CallNamesOne(s, w, c);
  }

  // ---- All runs ----

  lemma {:induction false} EveryRunKeepsLock(n: nat, clock: int, es: seq<Event>)
    ensures LockInv(Run(Init(n, clock), es)) && CountInv(Run(Init(n, clock), es))
  {
    if es == [] {
      CountNone(AwaitsBump, Init(n, clock).callers);
      CountNone(InFlight, Init(n, clock).callers);
    } else {
      EveryRunKeepsLock(n, clock, es[..|es| - 1]);
      var s, e := Run(Init(n, clock), es[..|es| - 1]), es[|es| - 1];
      StepKeepsLock(s, e);
      if e.Call? { CallKeepsCounts(s, e.w, e.c); } else { WorldKeepsCounts(s, e.x); }
    }
  }

  lemma {:induction false} MarksInLeaseKeepEpoch(n: nat, clock: int, es: seq<Event>)
    requires MarksInLease(Init(n, clock), es) || n <= 1
    ensures EpochInv(Run(Init(n, clock), es)) && |Run(Init(n, clock), es).callers| == n
  {
    if es != [] {
      MarksInLeaseKeepEpoch(n, clock, es[..|es| - 1]);
      EveryRunKeepsLock(n, clock, es[..|es| - 1]);
      StepKeepsEpoch(Run(Init(n, clock), es[..|es| - 1]), es[|es| - 1]);
      StepKeepsCallers(Run(Init(n, clock), es[..|es| - 1]), es[|es| - 1]);
    }
  }

  lemma StepKeepsCallers(s: State, e: Event)
    ensures |Apply(s, e).callers| == |s.callers|
  {
    hide DoCall, DoOutside;
    if e.World? { WorldTouchesNoCaller(s, e.x); } else { CallTallies(s, e.w, e.c); }
  }

  lemma {:induction false} EveryRunKeepsSerials(n: nat, clock: int, es: seq<Event>)
    ensures SerialInv(Run(Init(n, clock), es)) && IdInv(Run(Init(n, clock), es))
  {
    if es != [] {
      EveryRunKeepsSerials(n, clock, es[..|es| - 1]);
      StepKeepsSerials(Run(Init(n, clock), es[..|es| - 1]), es[|es| - 1]);
    }
  }

  lemma StepKeepsSerials(s: State, e: Event)
    requires SerialInv(s) && IdInv(s)
    ensures SerialInv(Apply(s, e)) && IdInv(Apply(s, e))
  {
    hide SerialInv, IdInv, DoCall, DoOutside;
    if e.World? {
      WorldKeepsSerials(s, e.x);
      WorldKeepsIds(s, e.x);
    } else {
      CallNames(s, e.w);
      if e.c.Record? {
        RecordKeepsSerials(s, e.w);
      } else {
        CallKeepsIds(s, e.w, e.c);
        if e.c.Mark? { MarkKeepsSerials(s, e.w); } else { CallKeepsSerials(s, e.w, e.c); }
      }
    }
  }

  /** Calls that mark and record within their leases record in the order they mark. */
  lemma {:induction false} LeasesKeepRecordOrder(n: nat, clock: int, es: seq<Event>)
    requires MarksInLease(Init(n, clock), es) && RecordsInLease(Init(n, clock), es)
    ensures RecordsInOrder(Init(n, clock), es) && LatestInLease(Run(Init(n, clock), es))
  {
    if es != [] {
      LeasesKeepRecordOrder(n, clock, es[..|es| - 1]);
      EveryRunKeepsLock(n, clock, es[..|es| - 1]);
      EveryRunKeepsSerials(n, clock, es[..|es| - 1]);
      StepKeepsLatest(Run(Init(n, clock), es[..|es| - 1]), es[|es| - 1]);
    }
  }

  lemma StepKeepsLatest(s: State, e: Event)
    requires LockInv(s) && SerialInv(s) && IdInv(s) && LatestInLease(s) && MarkInLease(s, e)
    ensures LatestInLease(Apply(s, e))
  {
    hide LockInv, SerialInv, IdInv, DoCall, DoOutside;
    if e.World? { WorldKeepsIds(s, e.x); }
    else {
      CallNames(s, e.w);
      if e.c.Mark? { MarkKeepsLatest(s, e.w); }
      else if e.c.Record? { }
      else { CallKeepsSerials(s, e.w, e.c); }
    }
  }

  /** In every interleaving of calls, workers, crashes and lapses: if no call is overtaken by its own
      lease between reading the status and setting it, or there is just one caller, resumes create at most one job for each time
      the session left "running", and the run count grows by exactly one for each of them. */
  lemma {:induction false} OneResumePerLeave(n: nat, clock: int, es: seq<Event>)
    requires MarksInLease(Init(n, clock), es) || n <= 1
    ensures var s := Run(Init(n, clock), es);
      && s.log.created <= s.log.marks <= s.log.left
      && s.log.created + Count(InFlight, s.callers) + s.log.abandoned == s.log.marks
      && s.log.bumps + Count(AwaitsBump, s.callers) + s.log.unbumped == s.log.marks
      && (s.session.Some? ==> s.session.value.runCount == 1 + s.log.bumps - s.log.bumpsBefore)
  {
    EveryRunKeepsLock(n, clock, es);
    MarksInLeaseKeepEpoch(n, clock, es);
  }

  // ---- The sweep ----

  /** Sweeper v lists and decides with nothing in between. */
  function Sweep(s: State, v: nat): State {
    DoSweepDecide(DoSweepList(s, v), v)
  }

  /** A job under the key that counts as alive: pending or processing, with a status key that has not expired. */
  predicate KeySpeaks(s: State) {
    s.jobKey.Some? && s.jobKey.value in s.jobs
    && s.clock < s.jobs[s.jobKey.value].expires
    && (s.jobs[s.jobKey.value].status == Pending || s.jobs[s.jobKey.value].status == Processing)
  }

  /** A sweep requeues exactly the session that is running, unclaimed, older than the limit, without a
      worktree lock and without a live job under its key; it marks that one as errored, and changes no
      other session and no job. */
  lemma {:induction false} SweepRequeuesIff(s: State, v: nat)
    ensures var t := Sweep(s, v);
      var orphan := && s.session.Some? && s.session.value.status == Running
                    && !s.session.value.hasWorktree && !s.session.value.hasSessionId
                    && s.session.value.lastRun + STALE_AFTER < s.clock
                    && !s.worktreeLocked && !KeySpeaks(s);
      && t.log.requeues == s.log.requeues + (if orphan then 1 else 0)
      && t.session == (if orphan then Some(s.session.value.(status := Errored)) else s.session)
      && t.jobs == s.jobs && t.queue == s.queue && t.jobKey == s.jobKey && t.callers == s.callers && v !in t.lists
  {
  }

  /** A decision on a list made earlier does not look at the session again, but for a lock and a live job. */
  lemma {:induction false} DecisionRequeuesIff(s: State, v: nat)
    ensures var t := DoSweepDecide(s, v);
      var dead := v in s.lists && !s.worktreeLocked && !KeySpeaks(s);
      && t.log.requeues == s.log.requeues + (if dead then 1 else 0)
      && t.session == (if dead && s.session.Some? then Some(s.session.value.(status := Errored)) else s.session)
      && t.jobs == s.jobs && t.queue == s.queue && t.jobKey == s.jobKey && t.callers == s.callers && v !in t.lists
  {
  }

  /** Since job j was recorded, the job key was written again: by another resume's record, or for a
      session begun anew. */
  ghost predicate KeyTaken(s0: State, es: seq<Event>, j: JobId) {
    es != [] && KeyTakenAfter(KeyTaken(s0, es[..|es| - 1], j), Run(s0, es[..|es| - 1]), es[|es| - 1], j)
  }

  ghost predicate KeyTakenAfter(taken: bool, s: State, e: Event, j: JobId) {
    if Records(s, e) then s.callers[e.w].pc.job != j else Begins(s, e) || taken
  }

  /** The sweepers whose lists are from before the latest resume set the session running. */
  ghost function OldLists(s0: State, es: seq<Event>): set<nat> {
    if es == [] then {} else OldListsAfter(OldLists(s0, es[..|es| - 1]), Run(s0, es[..|es| - 1]), es[|es| - 1])
  }

  ghost function OldListsAfter(before: set<nat>, s: State, e: Event): set<nat> {
    if Marks(s, e) then s.lists
    else if e.World? && (e.x.SweepList? || e.x.SweepDecide?) then before - {e.x.v}
    else before
  }

  /** The job key names the recorded job j, exactly unless the key was taken since. */
  ghost predicate KeyInv(s: State, j: JobId, taken: bool) {
    j in s.log.recorded ==> (s.jobKey == Some(j) <==> !taken)
  }

  /** last_run is no older than the latest resume, and a list that is not older is past its stale limit. */
  ghost predicate FreshInv(s: State, before: set<nat>) {
    && s.log.markedAt <= s.clock && (s.session.Some? ==> s.log.markedAt <= s.session.value.lastRun)
    && before <= s.lists && (forall v :: v in s.lists && v !in before ==> s.log.markedAt + STALE_AFTER < s.clock)
  }

  lemma WorldKeepsKey(s: State, x: Outside, j: JobId, taken: bool)
    requires IdInv(s) && KeyInv(s, j, taken)
    ensures KeyInv(DoOutside(s, x), j, KeyTakenAfter(taken, s, World(x), j))
  {
  }

  lemma RecordKeepsKey(s: State, w: nat, j: JobId, taken: bool)
    requires KeyInv(s, j, taken)
    ensures KeyInv(DoRecord(s, w), j, KeyTakenAfter(taken, s, Call(w, Record), j))
  {
  }

  lemma CallLeavesKey(s: State, w: nat, c: Command)
    requires !c.Record?
    ensures DoCall(s, w, c).jobKey == s.jobKey && DoCall(s, w, c).log.recorded == s.log.recorded
  {
  }

  lemma StepKeepsKey(s: State, e: Event, j: JobId, taken: bool)
    requires IdInv(s) && KeyInv(s, j, taken)
    ensures KeyInv(Apply(s, e), j, KeyTakenAfter(taken, s, e, j))
  {
    hide IdInv, DoCall, DoOutside;
    if e.World? { WorldKeepsKey(s, e.x, j, taken); }
    else {
      CallNames(s, e.w);
      if e.c.Record? { RecordKeepsKey(s, e.w, j, taken); } else { CallLeavesKey(s, e.w, e.c); }
    }
  }

  lemma WorldKeepsFresh(s: State, x: Outside, before: set<nat>)
    requires FreshInv(s, before)
    ensures FreshInv(DoOutside(s, x), OldListsAfter(before, s, World(x)))
  {
  }

  lemma CallKeepsFresh(s: State, w: nat, c: Command, before: set<nat>)
    requires FreshInv(s, before)
    ensures FreshInv(DoCall(s, w, c), OldListsAfter(before, s, Call(w, c)))
  {
  }

  /** In every run, whatever lapses, the key names a recorded job exactly unless it was taken since. */
  lemma {:induction false} EveryRunKeepsKey(n: nat, clock: int, es: seq<Event>, j: JobId)
    ensures var s0 := Init(n, clock); KeyInv(Run(s0, es), j, KeyTaken(s0, es, j))
  {
    if es != [] {
      EveryRunKeepsKey(n, clock, es[..|es| - 1], j);
      EveryRunKeepsSerials(n, clock, es[..|es| - 1]);
      var s0 := Init(n, clock);
      StepKeepsKey(Run(s0, es[..|es| - 1]), es[|es| - 1], j, KeyTaken(s0, es[..|es| - 1], j));
    }
  }

  /** In every run the age of last_run and the age of every sweeper's list are what the history says. */
  lemma {:induction false} EveryRunKeepsLists(n: nat, clock: int, es: seq<Event>)
    ensures var s0 := Init(n, clock); FreshInv(Run(s0, es), OldLists(s0, es))
  {
    if es != [] {
      EveryRunKeepsLists(n, clock, es[..|es| - 1]);
      var s0 := Init(n, clock);
      var s, e, before := Run(s0, es[..|es| - 1]), es[|es| - 1], OldLists(s0, es[..|es| - 1]);
      if e.Call? { CallKeepsFresh(s, e.w, e.c, before); } else { WorldKeepsFresh(s, e.x, before); }
    }
  }

  /** Within the stale limit of the latest resume, in every run and with any number of overlapping
      sweeps: one that lists afresh requeues nothing, and a decision on a list requeues exactly when that
      list is older than the resume and neither a live job under the key nor a worktree lock speaks for
      the session. */
  lemma {:induction false} FreshResumeIsRequeuedIff(n: nat, clock: int, es: seq<Event>, v: nat)
    ensures var s0 := Init(n, clock);
      var s := Run(s0, es);
      s.clock <= s.log.markedAt + STALE_AFTER ==>
        && Sweep(s, v).log.requeues == s.log.requeues
        && (DoSweepDecide(s, v).log.requeues > s.log.requeues <==> v in OldLists(s0, es) && !LooksAlive(s))
  {
    EveryRunKeepsLists(n, clock, es);
  }

  /** In every run, a decision requeues the session over any recorded job that is pending or processing with
      a live status exactly when the session is listed and unlocked and the key was taken since that
      record, for a job that is not live itself. */
  lemma {:induction false} LiveResumeIsRequeuedIff(n: nat, clock: int, es: seq<Event>, j: JobId, v: nat)
    requires var s := Run(Init(n, clock), es); j in s.log.recorded && IsLive(s, j)
    ensures var s0 := Init(n, clock);
      var s := Run(s0, es);
      var exposed := !s.worktreeLocked && KeyTaken(s0, es, j) && !(s.jobKey.Some? && IsLive(s, s.jobKey.value));
      && (DoSweepDecide(s, v).log.requeues > s.log.requeues <==> v in s.lists && exposed)
      && (Sweep(s, v).log.requeues > s.log.requeues <==> LooksStale(s) && exposed)
  {
    EveryRunKeepsKey(n, clock, es, j);
    var s := Run(Init(n, clock), es);
    hide Run, KeyTaken;
    DecisionsByKey(s, j, v);
  }

  lemma DecisionsByKey(s: State, j: JobId, v: nat)
    requires IsLive(s, j)
    ensures var exposed := !s.worktreeLocked && s.jobKey != Some(j) && !(s.jobKey.Some? && IsLive(s, s.jobKey.value));
      && (DoSweepDecide(s, v).log.requeues > s.log.requeues <==> v in s.lists && exposed)
      && (Sweep(s, v).log.requeues > s.log.requeues <==> LooksStale(s) && exposed)
  {
  }

  /** When records keep the order of the marks, only a session begun anew takes the key from the job of
      the latest resume. */
  lemma {:induction false} OrderedRecordsKeepKey(n: nat, clock: int, es: seq<Event>, j: JobId)
    requires RecordsInOrder(Init(n, clock), es)
    ensures OnlyReplaced(Run(Init(n, clock), es), j, KeyTaken(Init(n, clock), es, j))
  {
    if es != [] {
      var s0 := Init(n, clock);
      OrderedRecordsKeepKey(n, clock, es[..|es| - 1], j);
      EveryRunKeepsSerials(n, clock, es[..|es| - 1]);
      StepKeepsReplaced(Run(s0, es[..|es| - 1]), es[|es| - 1], j, KeyTaken(s0, es[..|es| - 1], j));
    }
  }

  ghost predicate OnlyReplaced(s: State, j: JobId, taken: bool) {
    j in s.log.recorded && s.log.recorded[j] == s.log.marks && taken ==> s.log.replaced
  }

  lemma StepKeepsReplaced(s: State, e: Event, j: JobId, taken: bool)
    requires SerialInv(s) && OnlyReplaced(s, j, taken) && RecordInOrder(s, e)
    ensures OnlyReplaced(Apply(s, e), j, KeyTakenAfter(taken, s, e, j))
  {
    hide DoCall, DoOutside;
    if e.World? { WorldKeepsReplaced(s, e.x); }
    else {
      CallNames(s, e.w);
      if !e.c.Mark? && !e.c.Record? {
        CallShape(s, e.w, e.c);
        CallLeavesReplaced(s, e.w, e.c);
      }
    }
  }

  lemma WorldKeepsReplaced(s: State, x: Outside)
    ensures var t := DoOutside(s, x);
      && t.log.recorded == s.log.recorded && t.log.marks == s.log.marks
      && (s.log.replaced || Begins(s, World(x)) ==> t.log.replaced)
  {
  }

  lemma CallLeavesReplaced(s: State, w: nat, c: Command)
    requires !c.Mark?
    ensures DoCall(s, w, c).log.replaced == s.log.replaced
  {
  }

  /** While the session is the one the latest resume marked, and no call records its job after a later
      resume has marked, the sweep leaves it alone: within the stale limit of set_running because
      last_run is fresh, and as long as the resume's job is pending or processing with a live status
      because its id was recorded before it was pushed. The second half needs no fresh list. */
  lemma {:induction false} SweepSparesLatestResume(n: nat, clock: int, es: seq<Event>, j: JobId, v: nat)
    requires RecordsInOrder(Init(n, clock), es)
    ensures var s := Run(Init(n, clock), es);
      && (s.clock <= s.log.markedAt + STALE_AFTER ==> Sweep(s, v).log.requeues == s.log.requeues)
      && (!s.log.replaced && j in s.log.recorded && s.log.recorded[j] == s.log.marks && IsLive(s, j) ==>
            Sweep(s, v).log.requeues == s.log.requeues && DoSweepDecide(s, v).log.requeues == s.log.requeues)
  {
    FreshResumeIsRequeuedIff(n, clock, es, v);
    OrderedRecordsKeepKey(n, clock, es, j);
    var s := Run(Init(n, clock), es);
    if j in s.log.recorded && IsLive(s, j) {
      LiveResumeIsRequeuedIff(n, clock, es, j, v);
      RequeuesGrow(s, v);
    }
  }

  lemma RequeuesGrow(s: State, v: nat)
    ensures DoSweepDecide(s, v).log.requeues >= s.log.requeues && Sweep(s, v).log.requeues >= s.log.requeues
  {
  }

  // ---- Runs in which the sweep or a second resume goes wrong ----

  ghost predicate InLease(s: State, es: seq<Event>) { MarksInLease(s, es) && RecordsInLease(s, es) }

  /** Every mark is inside its lease, and every record within the stale limit of its mark. */
  ghost predicate InTime(s: State, es: seq<Event>) { MarksInLease(s, es) && RecordsInTime(s, es) }

  lemma Then(s: State, es: seq<Event>, e: Event)
    ensures Run(s, es + [e]) == Apply(Run(s, es), e)
    ensures InLease(s, es) && MarkInLease(Run(s, es), e) && RecordInLease(Run(s, es), e) ==> InLease(s, es + [e])
    ensures InTime(s, es) && MarkInLease(Run(s, es), e) && RecordInTime(Run(s, es), e) ==> InTime(s, es + [e])
    ensures forall d: int :: MarksWithin(d, s, es) && MarkWithin(d, Run(s, es), e) ==> MarksWithin(d, s, es + [e])
  {
    assert (es + [e])[..|es|] == es;
  }

  lemma NothingYet(s: State)
    ensures Run(s, []) == s && InLease(s, []) && InTime(s, [])
    ensures forall d: int :: MarksWithin(d, s, [])
  {
  }

  /** From set_running to the push, alone. */
  lemma FinishResume(s0: State, es: seq<Event>, w: nat) returns (more: seq<Event>)
    requires At(Run(s0, es), w, Marked)
    ensures var s, t := Run(s0, es), Run(s0, more);
      && t.log.created == s.log.created + 1 && t.log.left == s.log.left && t.log.requeues == s.log.requeues
      && t.clock == s.clock && |t.callers| == |s.callers|
      && (forall v :: 0 <= v < |s.callers| && v != w ==> t.callers[v] == s.callers[v])
      && (InLease(s0, es) && HoldsLease(s, w) ==> InLease(s0, more))
      && (forall d: int :: MarksWithin(d, s0, es) ==> MarksWithin(d, s0, more))
  {
    hide Run, InLease, InTime, MarksWithin;
    Then(s0, es, Call(w, Bump));
    more := es + [Call(w, Bump)];
    Then(s0, more, Call(w, Store));
    more := more + [Call(w, Store)];
    Then(s0, more, Call(w, Announce));
    more := more + [Call(w, Announce)];
    more := FinishJob(s0, more, w);
  }

  lemma FinishJob(s0: State, es: seq<Event>, w: nat) returns (more: seq<Event>)
    requires w < |Run(s0, es).callers| && Run(s0, es).callers[w].pc.Announced?
    ensures var s, t := Run(s0, es), Run(s0, more);
      && t.log.created == s.log.created + 1 && t.log.left == s.log.left && t.log.requeues == s.log.requeues
      && t.clock == s.clock && |t.callers| == |s.callers|
      && (forall v :: 0 <= v < |s.callers| && v != w ==> t.callers[v] == s.callers[v])
      && (InLease(s0, es) && HoldsLease(s, w) ==> InLease(s0, more))
      && (forall d: int :: MarksWithin(d, s0, es) ==> MarksWithin(d, s0, more))
  {
    hide Run, InLease, InTime, MarksWithin;
    Then(s0, es, Call(w, Record));
    more := es + [Call(w, Record)];
    Then(s0, more, Call(w, Push));
    more := more + [Call(w, Push)];
  }

  /** The first call has read a completed status, and its lease has lapsed. */
  lemma ReadThenLapse(n: nat, clock: int) returns (es: seq<Event>)
    requires n >= 2
    ensures var s := Run(Init(n, clock), es);
      && |s.callers| == n && At(s, 0, Resumable) && s.callers[0].leaseEnd == s.clock && At(s, 1, Idle)
      && s.resumeLock.None? && s.session.Some? && s.session.value.status.Completed?
      && s.log.left == 1 && s.log.created == 0
    ensures forall d: int :: MarksWithin(d, Init(n, clock), es)
  {
    hide Run, InLease, InTime, MarksWithin;
    var s0 := Init(n, clock);
    es := BegunAndLeft(n, clock);
    Then(s0, es, Call(0, Acquire));
    es := es + [Call(0, Acquire)];
    Then(s0, es, Call(0, Read));
    es := es + [Call(0, Read)];
    Then(s0, es, World(Tick(RESUME_LOCK_TTL)));
    es := es + [World(Tick(RESUME_LOCK_TTL))];
  }

  /** It then sets the session running after a second call has resumed it: two jobs for one time the
      session left "running", with no call longer than the lease and a second between lock and mark. */
  lemma LapsedLeaseResumesTwice(n: nat, clock: int, d: int) returns (es: seq<Event>)
    requires n >= 2 && d > RESUME_LOCK_TTL
    ensures MarksWithin(d, Init(n, clock), es)
    ensures var s := Run(Init(n, clock), es); s.log.created == 2 && s.log.left == 1
  {
    hide Run, InLease, InTime, MarksWithin, Init;
    var s0 := Init(n, clock);
    es := ReadThenLapse(n, clock);
    es := SecondResumes(s0, es, d);
    Then(s0, es, Call(0, Mark));
    es := es + [Call(0, Mark)];
    es := FinishResume(s0, es, 0);
  }

  lemma SecondResumes(s0: State, es: seq<Event>, d: int) returns (more: seq<Event>)
    requires d > 0 && MarksWithin(d, s0, es)
    requires var s := Run(s0, es);
      && |s.callers| >= 2 && At(s, 1, Idle) && s.resumeLock.None?
      && s.session.Some? && s.session.value.status.Completed?
    ensures MarksWithin(d, s0, more)
    ensures var s, t := Run(s0, es), Run(s0, more);
      && |t.callers| == |s.callers| && t.callers[0] == s.callers[0] && t.clock == s.clock
      && t.log.created == s.log.created + 1 && t.log.left == s.log.left
  {
    hide Run, InLease, InTime, MarksWithin;
    Then(s0, es, Call(1, Acquire));
    more := es + [Call(1, Acquire)];
    Then(s0, more, Call(1, Read));
    more := more + [Call(1, Read)];
    Then(s0, more, Call(1, Mark));
    more := more + [Call(1, Mark)];
    more := FinishResume(s0, more, 1);
  }

  /** Marks less than a lease after the lock are inside the lease. */
  lemma {:induction false} ShortSpansAreInLease(d: int, s0: State, es: seq<Event>)
    requires d <= RESUME_LOCK_TTL && MarksWithin(d, s0, es)
    ensures MarksInLease(s0, es)
  {
    if es != [] { ShortSpansAreInLease(d, s0, es[..|es| - 1]); }
  }

  /** Resumes never create more jobs than the times the session left "running", in any run whose calls
      take less than d seconds from the lock to set_running, exactly when d is at most the lease or there
      is no second caller. */
  lemma {:induction false} OneResumePerLeaveIff(n: nat, clock: int, d: int)
    ensures (forall es :: MarksWithin(d, Init(n, clock), es) ==>
               Run(Init(n, clock), es).log.created <= Run(Init(n, clock), es).log.left)
            <==> d <= RESUME_LOCK_TTL || n <= 1
  {
    hide Run, MarksWithin, MarksInLease, Init;
    if d <= RESUME_LOCK_TTL || n <= 1 {
      forall es | MarksWithin(d, Init(n, clock), es)
        ensures Run(Init(n, clock), es).log.created <= Run(Init(n, clock), es).log.left
      {
        if d <= RESUME_LOCK_TTL { ShortSpansAreInLease(d, Init(n, clock), es); }
        OneResumePerLeave(n, clock, es);
      }
    } else {
      var twice := LapsedLeaseResumesTwice(n, clock, d);
    }
  }

  /** A finished run whose session still says "running" is listed by the sweep, and then completes. */
  lemma ListedThenLeaves() returns (es: seq<Event>)
    ensures var s := Run(Init(1, 0), es);
      && InLease(Init(1, 0), es) && |s.callers| == 1 && At(s, 0, Idle) && s.resumeLock.None? && 0 in s.lists
      && s.session.Some? && s.session.value.status.Completed? && !LooksAlive(s) && s.log.requeues == 0 && s.log.created == 0
  {
    hide Run, InLease, InTime, MarksWithin;
    var s0 := Init(1, 0);
    NothingYet(s0);
    Then(s0, [], World(Begin(0)));
    es := [World(Begin(0))];
    assert [] + es == es;
    Then(s0, es, World(Finish(0)));
    es := es + [World(Finish(0))];
    Then(s0, es, World(Tick(STALE_AFTER + 1)));
    es := es + [World(Tick(STALE_AFTER + 1))];
    Then(s0, es, World(SweepList(0)));
    es := es + [World(SweepList(0))];
    Then(s0, es, World(Leave(false)));
    es := es + [World(Leave(false))];
  }

  /** A sweep that listed the session before it was resumed decides on the old list: it requeues
      between set_running and set_job_id, and the resume's own job follows. */
  lemma {:induction false} OldListRequeuesDuringResume() returns (es: seq<Event>)
    ensures InLease(Init(1, 0), es)
    ensures var s := Run(Init(1, 0), es); s.log.requeues == 1 && s.log.created == 1
  {
    hide Run, InLease, InTime, MarksWithin, Init, LooksAlive;
    var s0 := Init(1, 0);
    es := ListedThenMarked();
    Then(s0, es, World(SweepDecide(0)));
    es := es + [World(SweepDecide(0))];
    es := FinishResume(s0, es, 0);
  }

  lemma ListedThenMarked() returns (es: seq<Event>)
    ensures var s := Run(Init(1, 0), es);
      && InLease(Init(1, 0), es) && At(s, 0, Marked) && HoldsLease(s, 0) && 0 in s.lists && s.session.Some?
      && !LooksAlive(s) && s.log.requeues == 0 && s.log.created == 0
  {
    hide Run, InLease, InTime, MarksWithin, Init;
    var s0 := Init(1, 0);
    es := ListedThenLeaves();
    Then(s0, es, Call(0, Acquire));
    es := es + [Call(0, Acquire)];
    Then(s0, es, Call(0, Read));
    es := es + [Call(0, Read)];
    Then(s0, es, Call(0, Mark));
    es := es + [Call(0, Mark)];
  }

  lemma BegunAndLeft(n: nat, clock: int) returns (es: seq<Event>)
    ensures InTime(Init(n, clock), es) && InLease(Init(n, clock), es)
    ensures forall d: int :: MarksWithin(d, Init(n, clock), es)
    ensures Run(Init(n, clock), es)
            == Init(n, clock).(session := Some(Session(Completed, 1, clock, false, false)), jobKey := Some(0),
                               jobs := map[0 := Job(Pending, clock + JOB_TTL)], queue := [0],
                               log := Init(n, clock).log.(nextJob := 1, left := 1))
  {
    hide Run, InLease, InTime, MarksWithin;
    var s0 := Init(n, clock);
    NothingYet(s0);
    Then(s0, [], World(Begin(0)));
    es := [World(Begin(0))];
    assert [] + es == es;
    Then(s0, es, World(Leave(false)));
    es := es + [World(Leave(false))];
  }

  /** Call w acquires, reads and sets the session running. */
  lemma Resumes(s0: State, es: seq<Event>, w: nat) returns (more: seq<Event>)
    requires var s := Run(s0, es);
      InTime(s0, es) && At(s, w, Idle) && s.resumeLock.None? && s.session.Some? && s.session.value.status.Completed?
    ensures InTime(s0, more) && (InLease(s0, es) ==> InLease(s0, more))
    ensures var s := Run(s0, es);
      var end := s.clock + RESUME_LOCK_TTL;
      Run(s0, more) == SetRunning(s).(
        callers := s.callers[w := Caller(Marked, s.log.nextNonce, end, s.log.marks + 1, s.clock)],
        resumeLock := Some(ResumeLock(s.log.nextNonce, end)),
        log := s.log.(nextNonce := s.log.nextNonce + 1, marks := s.log.marks + 1, markedAtLeft := s.log.left,
                      markedAt := s.clock, replaced := false))
  {
    hide Run, InLease, InTime, MarksWithin;
    var s := Run(s0, es);
    Then(s0, es, Call(w, Acquire));
    more := es + [Call(w, Acquire)];
    Then(s0, more, Call(w, Read));
    more := more + [Call(w, Read)];
    Then(s0, more, Call(w, Mark));
    more := more + [Call(w, Mark)];
    assert s.callers[w := Caller(Locked, s.log.nextNonce, s.clock + RESUME_LOCK_TTL, 0, s.clock)]
                    [w := Caller(Resumable, s.log.nextNonce, s.clock + RESUME_LOCK_TTL, 0, s.clock)]
           == s.callers[w := Caller(Resumable, s.log.nextNonce, s.clock + RESUME_LOCK_TTL, 0, s.clock)];
  }

  /** And goes on up to the status key of its job. */
  lemma Announces(s0: State, es: seq<Event>, w: nat) returns (more: seq<Event>)
    requires InTime(s0, es) && At(Run(s0, es), w, Marked) && Run(s0, es).session.Some?
    ensures InTime(s0, more) && (InLease(s0, es) ==> InLease(s0, more))
    ensures var s := Run(s0, es);
      Run(s0, more) == s.(callers := s.callers[w := s.callers[w].(pc := Announced(s.log.nextJob))],
                          log := s.log.(bumps := s.log.bumps + 1, nextJob := s.log.nextJob + 1),
                          session := Some(s.session.value.(runCount := s.session.value.runCount + 1)),
                          jobs := s.jobs[s.log.nextJob := Job(Pending, s.clock + JOB_TTL)])
  {
    hide Run, InLease, InTime, MarksWithin;
    Then(s0, es, Call(w, Bump));
    more := es + [Call(w, Bump)];
    Then(s0, more, Call(w, Store));
    more := more + [Call(w, Store)];
    Then(s0, more, Call(w, Announce));
    more := more + [Call(w, Announce)];
  }

  /** And records and pushes it. */
  lemma Pushes(s0: State, es: seq<Event>, w: nat) returns (more: seq<Event>)
    requires var s := Run(s0, es);
      InTime(s0, es) && w < |s.callers| && s.callers[w].pc.Announced? && s.clock < s.callers[w].markedAt + STALE_AFTER
    ensures InTime(s0, more) && (InLease(s0, es) && HoldsLease(Run(s0, es), w) ==> InLease(s0, more))
    ensures var s := Run(s0, es);
      var j := s.callers[w].pc.job;
      Run(s0, more) == s.(callers := s.callers[w := s.callers[w].(pc := Releasing)], jobKey := Some(j),
                          queue := s.queue + [j],
                          log := s.log.(recorded := s.log.recorded[j := s.callers[w].serial], created := s.log.created + 1))
  {
    hide Run, InLease, InTime, MarksWithin;
    Then(s0, es, Call(w, Record));
    more := es + [Call(w, Record)];
    Then(s0, more, Call(w, Push));
    more := more + [Call(w, Push)];
  }

  lemma StallsBeforeRecord() returns (es: seq<Event>)
    ensures var s := Run(Init(2, 0), es);
      && InTime(Init(2, 0), es) && s.clock == 30 && s.log.marks == 1 && s.log.nextJob == 2 && s.log.recorded == map[]
      && |s.callers| == 2 && At(s, 1, Idle) && s.resumeLock.None? && 1 in s.jobs
      && s.callers[0].pc == Announced(1) && s.callers[0].serial == 1 && s.callers[0].markedAt == 0
      && s.session == Some(Session(Completed, 2, 0, false, false)) && !s.worktreeLocked
  {
    hide Run, InLease, InTime, MarksWithin;
    var s0 := Init(2, 0);
    es := BegunAndLeft(2, 0);
    es := Resumes(s0, es, 0);
    es := Announces(s0, es, 0);
    Then(s0, es, World(Tick(RESUME_LOCK_TTL)));
    es := es + [World(Tick(RESUME_LOCK_TTL))];
    Then(s0, es, World(Leave(false)));
    es := es + [World(Leave(false))];
  }

  /** The first resume stalls before it records its job id, its lease lapses, the session leaves
      "running", a second resume runs to its push, and then the first one records. */
  lemma RecordsLate() returns (es: seq<Event>)
    ensures var s := Run(Init(2, 0), es);
      && InTime(Init(2, 0), es) && s.clock == 30 && s.log.marks == 2 && !s.log.replaced
      && s.log.recorded == map[2 := 2, 1 := 1] && s.jobKey == Some(1)
      && 1 in s.jobs && 2 in s.jobs && s.jobs[2] == Job(Pending, 30 + JOB_TTL)
      && s.session == Some(Session(Running, 3, 30, false, false)) && !s.worktreeLocked
  {
    hide Run, InLease, InTime, MarksWithin, Init;
    var s0 := Init(2, 0);
    es := StallsBeforeRecord();
    es := Resumes(s0, es, 1);
    es := Announces(s0, es, 1);
    es := Pushes(s0, es, 1);
    es := Pushes(s0, es, 0);
  }

  /** Recording within the stale limit of set_running is not enough: here every mark is inside its
      lease and every record within 30 seconds, and yet a sweep that lists afresh requeues the session
      while the latest resume's job is pending with a live status. */
  lemma {:induction false} LateRecordRequeuesLiveResume() returns (es: seq<Event>)
    ensures InTime(Init(2, 0), es)
    ensures var s := Run(Init(2, 0), es);
      && !s.log.replaced && 2 in s.log.recorded && s.log.recorded[2] == s.log.marks && IsLive(s, 2)
      && Sweep(s, 0).log.requeues == s.log.requeues + 1
  {
    hide Run, InLease, InTime, MarksWithin, Init;
    var s0 := Init(2, 0);
    es := RecordsLate();
    Then(s0, es, World(Finish(1)));
    es := es + [World(Finish(1))];
    Then(s0, es, World(Tick(STALE_AFTER + 1)));
    es := es + [World(Tick(STALE_AFTER + 1))];
  }

  lemma FirstResume() returns (es: seq<Event>)
    ensures var s := Run(Init(1, 0), es);
      && InTime(Init(1, 0), es) && InLease(Init(1, 0), es) && s.clock == 0 && At(s, 0, Idle) && |s.callers| == 1
      && s.resumeLock.None? && s.log.marks == 1 && s.log.nextJob == 2 && s.log.recorded == map[1 := 1]
      && 1 in s.jobs && s.jobs[1] == Job(Pending, JOB_TTL)
      && s.session == Some(Session(Completed, 2, 0, false, false)) && !s.worktreeLocked
  {
    hide Run, InLease, InTime, MarksWithin;
    var s0 := Init(1, 0);
    es := BegunAndLeft(1, 0);
    es := Resumes(s0, es, 0);
    es := Announces(s0, es, 0);
    es := Pushes(s0, es, 0);
    Then(s0, es, Call(0, Release));
    es := es + [Call(0, Release)];
    Then(s0, es, World(Leave(false)));
    es := es + [World(Leave(false))];
  }

  /** Two resumes one after the other, each inside its lease: the key names the second one's job. */
  lemma TwoResumes() returns (es: seq<Event>)
    ensures var s := Run(Init(1, 0), es);
      && InTime(Init(1, 0), es) && InLease(Init(1, 0), es) && s.clock == 0 && s.jobKey == Some(2)
      && s.log.recorded == map[1 := 1, 2 := 2]
      && 1 in s.jobs && 2 in s.jobs && s.jobs[1] == Job(Pending, JOB_TTL)
      && s.session == Some(Session(Running, 3, 0, false, false)) && !s.worktreeLocked
  {
    hide Run, InLease, InTime, MarksWithin, Init;
    var s0 := Init(1, 0);
    es := FirstResume();
    es := Resumes(s0, es, 0);
    es := Announces(s0, es, 0);
    es := Pushes(s0, es, 0);
  }

  /** The key speaks for one job only: here all is inside the leases and in order, and the sweep requeues
      the session over an earlier resume's pending job because the later one's is finished. */
  lemma {:induction false} EarlierJobIsRequeuedOver() returns (es: seq<Event>)
    ensures InLease(Init(1, 0), es) && RecordsInOrder(Init(1, 0), es)
    ensures var s := Run(Init(1, 0), es);
      && 1 in s.log.recorded && IsLive(s, 1) && Sweep(s, 0).log.requeues == s.log.requeues + 1
  {
    hide Run, InLease, InTime, MarksWithin, Init, RecordsInOrder;
    var s0 := Init(1, 0);
    es := TwoResumes();
    Then(s0, es, World(Finish(2)));
    es := es + [World(Finish(2))];
    Then(s0, es, World(Tick(STALE_AFTER + 1)));
    es := es + [World(Tick(STALE_AFTER + 1))];
    LeasesAreInOrder(1, 0, es);
  }

  lemma LeasesAreInOrder(n: nat, clock: int, es: seq<Event>)
    requires InLease(Init(n, clock), es)
    ensures RecordsInOrder(Init(n, clock), es)
  {
    LeasesKeepRecordOrder(n, clock, es);
  }

  /** A session whose job expires before any worker pulls it is requeued by the next sweep. */
  lemma {:induction false} OrphanIsRequeued(n: nat, clock: int) returns (es: seq<Event>)
    ensures es == [World(Begin(0)), World(Tick(JOB_TTL))]
    ensures var s := Run(Init(n, clock), es);
      && s.queue == [0] && s.session == Some(Session(Running, 1, clock, false, false))
      && Sweep(s, 0).log.requeues == 1 && Sweep(s, 0).session == Some(Session(Errored, 1, clock, false, false))
  {
    hide Run, InLease, InTime, MarksWithin;
    var s0 := Init(n, clock);
    NothingYet(s0);
    Then(s0, [], World(Begin(0)));
    es := [World(Begin(0))];
    assert [] + es == es;
    Then(s0, es, World(Tick(JOB_TTL)));
    es := es + [World(Tick(JOB_TTL))];
  }

  /** A finished run leaves nothing for the sweep, however old it is. */
  lemma {:induction false} CompletedIsLeftAlone(n: nat, clock: int, dt: nat) returns (es: seq<Event>)
    ensures es == [World(Begin(0)), World(Finish(0)), World(Leave(false)), World(Tick(dt))]
    ensures var s := Run(Init(n, clock), es);
      s.session == Some(Session(Completed, 1, clock, false, false)) && Sweep(s, 0).session == s.session
      && Sweep(s, 0).log.requeues == 0
  {
    hide Run, InLease, InTime, MarksWithin;
    var s0 := Init(n, clock);
    NothingYet(s0);
    Then(s0, [], World(Begin(0)));
    es := [World(Begin(0))];
    assert [] + es == es;
    Then(s0, es, World(Finish(0)));
    es := es + [World(Finish(0))];
    Then(s0, es, World(Leave(false)));
    es := es + [World(Leave(false))];
    Then(s0, es, World(Tick(dt)));
    es := es + [World(Tick(dt))];
  }

  // ---- What one whole call does ----

  function Calls(w: nat, cs: seq<Command>): seq<Event> {
    if cs == [] then [] else Calls(w, cs[..|cs| - 1]) + [Call(w, cs[|cs| - 1])]
  }

  lemma CallsSnoc(s: State, w: nat, cs: seq<Command>, c: Command)
    ensures Run(s, Calls(w, cs + [c])) == DoCall(Run(s, Calls(w, cs)), w, c)
  {
    assert (cs + [c])[..|cs|] == cs;
    assert (Calls(w, cs) + [Call(w, c)])[..|Calls(w, cs)|] == Calls(w, cs);
  }

  /** A call that nobody disturbs, on a session that is not running and not being resumed, leaves it running
      with one more run, a fresh last_run and no SDK session, a pending job at the end of the queue that
      the job key names, and no lock. */
  lemma {:induction false} LoneResume(s: State, w: nat)
    requires At(s, w, Idle) && s.resumeLock.None? && s.session.Some? && !s.session.value.status.Running?
    ensures var t := Run(s, Calls(w, [Acquire] + UNDER_LOCK + [Release]));
      var j := s.log.nextJob;
      && t.session == Some(Session(Running, s.session.value.runCount + 1, s.clock, s.session.value.hasWorktree, false))
      && t.jobs == s.jobs[j := Job(Pending, s.clock + JOB_TTL)] && t.queue == s.queue + [j] && t.jobKey == Some(j)
      && t.resumeLock.None? && At(t, w, Idle) && t.clock == s.clock
      && t.log.created == s.log.created + 1 && t.log.recorded == s.log.recorded[j := s.log.marks + 1]
  {
    hide Run, Calls;
    var nonce := LoneMark(s, w);
    var marked, announced := [Acquire, Read, Mark], [Acquire, Read, Mark, Bump, Store, Announce];
    LoneAnnounce(s, w, marked);
    assert marked + [Bump] + [Store] + [Announce] == announced;
    assert announced + [Record] + [Push] + [Release] == [Acquire] + UNDER_LOCK + [Release];
    hide DoCall;
    LonePush(s, w, announced, s.log.nextJob, nonce);
  }

  lemma LoneAnnounce(s: State, w: nat, cs: seq<Command>)
    requires At(Run(s, Calls(w, cs)), w, Marked) && Run(s, Calls(w, cs)).session.Some?
    ensures var t := Run(s, Calls(w, cs));
      Run(s, Calls(w, cs + [Bump] + [Store] + [Announce]))
      == t.(callers := t.callers[w := t.callers[w].(pc := Announced(t.log.nextJob))],
            log := t.log.(bumps := t.log.bumps + 1, nextJob := t.log.nextJob + 1),
            session := Some(t.session.value.(runCount := t.session.value.runCount + 1)),
            jobs := t.jobs[t.log.nextJob := Job(Pending, t.clock + JOB_TTL)])
  {
    hide Run, Calls;
    CallsSnoc(s, w, cs, Bump);
    CallsSnoc(s, w, cs + [Bump], Store);
    CallsSnoc(s, w, cs + [Bump] + [Store], Announce);
  }

  lemma LoneMark(s: State, w: nat) returns (nonce: nat)
    requires At(s, w, Idle) && s.resumeLock.None? && s.session.Some? && !s.session.value.status.Running?
    ensures nonce == s.log.nextNonce
    ensures Run(s, Calls(w, [Acquire, Read, Mark]))
            == SetRunning(s).(
              callers := s.callers[w := Caller(Marked, nonce, s.clock + RESUME_LOCK_TTL, s.log.marks + 1, s.clock)],
              resumeLock := Some(ResumeLock(nonce, s.clock + RESUME_LOCK_TTL)),
              log := s.log.(nextNonce := nonce + 1, marks := s.log.marks + 1, markedAtLeft := s.log.left,
                            markedAt := s.clock, replaced := false))
  {
    nonce := s.log.nextNonce;
    hide Run, Calls;
    LoneRead(s, w);
    CallsSnoc(s, w, [Acquire, Read], Mark);
    assert [Acquire, Read] + [Mark] == [Acquire, Read, Mark];
  }

  /** The state in which a lone call has taken the lock and read the session. */
  function AfterRead(s: State, w: nat): State
    requires w < |s.callers|
  {
    var end := s.clock + RESUME_LOCK_TTL;
    s.(callers := s.callers[w := Caller(Resumable, s.log.nextNonce, end, 0, s.clock)],
       resumeLock := Some(ResumeLock(s.log.nextNonce, end)),
       log := s.log.(nextNonce := s.log.nextNonce + 1))
  }

  lemma LoneRead(s: State, w: nat)
    requires At(s, w, Idle) && s.resumeLock.None? && s.session.Some? && !s.session.value.status.Running?
    ensures Run(s, Calls(w, [Acquire, Read])) == AfterRead(s, w)
  {
    assert Run(s, Calls(w, [])) == s;
    hide Run, Calls, DoCall;
    CallsSnoc(s, w, [], Acquire);
    CallsSnoc(s, w, [Acquire], Read);
    assert [] + [Acquire] == [Acquire] && [Acquire] + [Read] == [Acquire, Read];
    ReadAfterAcquire(s, w);
  }

  lemma ReadAfterAcquire(s: State, w: nat)
    requires At(s, w, Idle) && s.resumeLock.None? && s.session.Some? && !s.session.value.status.Running?
    ensures DoCall(DoCall(s, w, Acquire), w, Read) == AfterRead(s, w)
  {
    hide DoMark, DoBump, DoStore, DoAnnounce, DoRecord, DoPush, DoRelease, DoQuit;
    var t := DoAcquire(s, w);
    assert t.callers == s.callers[w := Caller(Locked, s.log.nextNonce, s.clock + RESUME_LOCK_TTL, 0, s.clock)];
    assert DoRead(t, w).callers == AfterRead(s, w).callers;
  }

  lemma LonePush(s: State, w: nat, cs: seq<Command>, j: JobId, nonce: nat)
    requires var t := Run(s, Calls(w, cs));
      w < |t.callers| && t.callers[w].pc == Announced(j) && t.callers[w].nonce == nonce
      && t.resumeLock.Some? && t.resumeLock.value.nonce == nonce
    ensures var t, u := Run(s, Calls(w, cs)), Run(s, Calls(w, cs + [Record] + [Push] + [Release]));
      && u.session == t.session && u.jobs == t.jobs && u.queue == t.queue + [j] && u.jobKey == Some(j)
      && u.resumeLock.None? && At(u, w, Idle) && u.clock == t.clock
      && u.log == t.log.(created := t.log.created + 1, recorded := t.log.recorded[j := t.callers[w].serial])
  {
    hide Run, Calls;
    CallsSnoc(s, w, cs, Record);
    CallsSnoc(s, w, cs + [Record], Push);
    CallsSnoc(s, w, cs + [Record] + [Push], Release);
  }

  /** A call that finds the lock taken, or the session gone or running, changes neither session nor jobs, and
      leaves the lock as it was. */
  lemma {:induction false} RefusedResume(s: State, w: nat)
    requires At(s, w, Idle) && (s.resumeLock.None? ==> s.session.None? || s.session.value.status.Running?)
    ensures var t := Run(s, Calls(w, if s.resumeLock.None? then [Acquire, Read, Release] else [Acquire]));
      && t.session == s.session && t.jobs == s.jobs && t.queue == s.queue && t.jobKey == s.jobKey
      && t.resumeLock == s.resumeLock && At(t, w, Idle) && t.log.created == s.log.created && t.log.marks == s.log.marks
  {
    hide Run, Calls, DoCall;
    FirstCall(s, w);
    if s.resumeLock.None? { RefusedByRead(s, w); } else { CallNames(s, w); }
  }

  lemma FirstCall(s: State, w: nat)
    ensures Run(s, Calls(w, [Acquire])) == DoCall(s, w, Acquire)
  {
    assert Run(s, Calls(w, [])) == s;
    hide Run, Calls, DoCall;
    CallsSnoc(s, w, [], Acquire);
    assert [] + [Acquire] == [Acquire];
  }

  lemma RefusedByRead(s: State, w: nat)
    requires At(s, w, Idle) && s.resumeLock.None? && (s.session.None? || s.session.value.status.Running?)
    ensures var t := Run(s, Calls(w, [Acquire, Read, Release]));
      && t.session == s.session && t.jobs == s.jobs && t.queue == s.queue && t.jobKey == s.jobKey
      && t.resumeLock.None? && At(t, w, Idle) && t.log == s.log.(nextNonce := s.log.nextNonce + 1)
  {
    FirstCall(s, w);
    hide Run, Calls;
    CallsSnoc(s, w, [Acquire], Read);
    CallsSnoc(s, w, [Acquire] + [Read], Release);
    assert [Acquire] + [Read] + [Release] == [Acquire, Read, Release];
  }

  // ---- The code of one call ----

  predicate ByOthers(es: seq<Event>, w: nat) {
    forall e :: e in es ==> e.World? || e.w != w
  }

  /** The commands that call w issued, in order. */
  function Own(es: seq<Event>, w: nat): seq<Command> {
    if es == [] then []
    else Own(es[..|es| - 1], w) + (if es[|es| - 1].Call? && es[|es| - 1].w == w then [es[|es| - 1].c] else [])
  }

  lemma OwnLast(es: seq<Event>, e: Event, w: nat)
    ensures Own(es + [e], w) == Own(es, w) + (if e.Call? && e.w == w then [e.c] else [])
  {
    assert (es + [e])[..|es|] == es;
  }

  lemma {:induction false} OwnOthers(before: seq<Event>, es: seq<Event>, w: nat)
    requires ByOthers(es, w)
    ensures Own(before + es, w) == Own(before, w)
  {
    if es == [] {
      assert before + es == before;
    } else {
      OwnOthers(before, es[..|es| - 1], w);
      assert (before + es)[..|before + es| - 1] == before + es[..|es| - 1];
    }
  }

  /** What everyone else does at each await of one call. */
  datatype Pauses = Pauses(locked: seq<Event>, decided: seq<Event>, marked: seq<Event>, bumped: seq<Event>,
                           stored: seq<Event>, announced: seq<Event>, recorded: seq<Event>, pushed: seq<Event>)

  predicate PausesByOthers(p: Pauses, w: nat) {
    && ByOthers(p.locked, w) && ByOthers(p.decided, w) && ByOthers(p.marked, w) && ByOthers(p.bumped, w)
    && ByOthers(p.stored, w) && ByOthers(p.announced, w) && ByOthers(p.recorded, w) && ByOthers(p.pushed, w)
  }

  /** The store as seen by one handle_resume call. Each command acts on the current state; between
      commands anything may happen. */
  class SessionService {
    var clock: int
    var resumeLock: Option<ResumeLock>
    var session: Option<Session>
    var jobKey: Option<JobId>
    var jobs: map<JobId, Job>
    var queue: seq<JobId>
    var callers: seq<Caller>
    /** What the sweep knows, and the history. */
    var worktreeLocked: bool
    var lists: set<nat>
    var log: Log
    ghost var trace: seq<Event>
    ghost const first: State

    function Model(): State
      reads this
    {
      State(clock, resumeLock, session, jobKey, jobs, queue, worktreeLocked, lists, callers, log)
    }

    ghost predicate Valid()
      reads this
    {
      Model() == Run(first, trace)
    }

    constructor (n: nat, clock: int)
      ensures Valid() && first == Init(n, clock) && trace == []
    {
      var s := Init(n, clock);
      this.clock, resumeLock, session, jobKey, jobs, queue := clock, None, None, None, map[], [];
      callers, worktreeLocked, lists, log := s.callers, false, {}, s.log;
      first, trace := s, [];
    }

    ghost method Log(e: Event)
      requires Model() == Apply(Run(first, trace), e)
      modifies this`trace
      ensures Valid() && trace == old(trace) + [e]
    {
      assert (trace + [e])[..|trace|] == trace;
      trace := trace + [e];
    }

    /** Any step by someone else, as a whole. */
    method Step(e: Event)
      requires Valid()
      modifies this
      ensures Valid() && trace == old(trace) + [e] && Model() == Apply(old(Model()), e)
    {
      hide Apply, Run;
      var t := Apply(Model(), e);
      clock, resumeLock, session, jobKey, jobs, queue := t.clock, t.resumeLock, t.session, t.jobKey, t.jobs, t.queue;
      callers, worktreeLocked, lists, log := t.callers, t.worktreeLocked, t.lists, t.log;
      Log(e);
    }

    /** What everyone else does while call w awaits. */
    method OthersRun(es: seq<Event>, w: nat)
      requires Valid() && ByOthers(es, w) && w < |callers|
      modifies this
      ensures Valid() && trace == old(trace) + es && Own(trace, w) == Own(old(trace), w)
      ensures |callers| == |old(callers)| && callers[w] == old(callers)[w]
    {
      hide Run, Own, Apply;
      for i := 0 to |es|
        invariant Valid() && trace == old(trace) + es[..i]
        invariant |callers| == |old(callers)| && callers[w] == old(callers)[w]
      {
        OthersKeepCaller(Model(), es[i], w);
        Step(es[i]);
        assert es[..i + 1] == es[..i] + [es[i]];
      }
      assert es[..|es|] == es;
      OwnOthers(old(trace), es, w);
    }

    /** SET NX EX with a fresh nonce. */
    method AcquireResumeLock(w: nat) returns (acquired: bool)
      requires Valid() && At(Model(), w, Idle)
      modifies this
      ensures Valid() && trace == old(trace) + [Call(w, Acquire)] && Own(trace, w) == Own(old(trace), w) + [Acquire]
      ensures |callers| == |old(callers)|
      ensures acquired <==> old(resumeLock).None?
      ensures callers[w].pc == if acquired then Locked else Idle
    {
      hide Run, Own;
      acquired := resumeLock.None?;
      if acquired {
        var nonce, end := log.nextNonce, clock + RESUME_LOCK_TTL;
        resumeLock := Some(ResumeLock(nonce, end));
        callers := callers[w := Caller(Locked, nonce, end, 0, clock)];
        log := log.(nextNonce := nonce + 1);
      }
      Log(Call(w, Acquire));
      OwnLast(old(trace), Call(w, Acquire), w);
    }

    /** get_streaming_session and the status test. */
    method ReadSession(w: nat) returns (resumable: bool)
      requires Valid() && At(Model(), w, Locked)
      modifies this
      ensures Valid() && trace == old(trace) + [Call(w, Read)] && Own(trace, w) == Own(old(trace), w) + [Read]
      ensures |callers| == |old(callers)|
      ensures callers[w].pc == if resumable then Resumable else Releasing
      ensures resumable <==> old(session).Some? && !old(session).value.status.Running?
    {
      hide Run, Own;
      resumable := session.Some? && !session.value.status.Running?;
      callers := callers[w := callers[w].(pc := if resumable then Resumable else Releasing)];
      Log(Call(w, Read));
      OwnLast(old(trace), Call(w, Read), w);
    }

    /** set_running. */
    method SetSessionRunning(w: nat)
      requires Valid() && At(Model(), w, Resumable)
      modifies this
      ensures Valid() && trace == old(trace) + [Call(w, Mark)] && Own(trace, w) == Own(old(trace), w) + [Mark]
      ensures |callers| == |old(callers)| && callers[w].pc == Marked
    {
      hide Run, Own;
      if session.Some? {
        session := Some(session.value.(status := Running, hasSessionId := false, lastRun := clock));
      }
      callers := callers[w := callers[w].(pc := Marked, serial := log.marks + 1, markedAt := clock)];
      log := log.(marks := log.marks + 1, markedAtLeft := log.left, markedAt := clock, replaced := false);
      Log(Call(w, Mark));
      OwnLast(old(trace), Call(w, Mark), w);
    }

    /** HINCRBY. */
    method IncrementRunCount(w: nat)
      requires Valid() && At(Model(), w, Marked)
      modifies this
      ensures Valid() && trace == old(trace) + [Call(w, Bump)] && Own(trace, w) == Own(old(trace), w) + [Bump]
      ensures |callers| == |old(callers)| && callers[w].pc == Bumped
    {
      hide Run, Own;
      if session.Some? { session := Some(session.value.(runCount := session.value.runCount + 1)); }
      callers := callers[w := callers[w].(pc := Bumped)];
      log := log.(bumps := log.bumps + 1);
      Log(Call(w, Bump));
      OwnLast(old(trace), Call(w, Bump), w);
    }

    /** A fresh id, and the job data under it. */
    method StoreJobData(w: nat) returns (j: JobId)
      requires Valid() && At(Model(), w, Bumped)
      modifies this
      ensures Valid() && trace == old(trace) + [Call(w, Store)] && Own(trace, w) == Own(old(trace), w) + [Store]
      ensures |callers| == |old(callers)| && callers[w].pc == Stored(j)
    {
      hide Run, Own;
      j := log.nextJob;
      callers := callers[w := callers[w].(pc := Stored(j))];
      log := log.(nextJob := j + 1);
      Log(Call(w, Store));
      OwnLast(old(trace), Call(w, Store), w);
    }

    /** The status key, pending. */
    method StoreJobStatus(w: nat, j: JobId)
      requires Valid() && At(Model(), w, Stored(j))
      modifies this
      ensures Valid() && trace == old(trace) + [Call(w, Announce)] && Own(trace, w) == Own(old(trace), w) + [Announce]
      ensures |callers| == |old(callers)| && callers[w].pc == Announced(j)
    {
      hide Run, Own;
      jobs := jobs[j := Job(Pending, clock + JOB_TTL)];
      callers := callers[w := callers[w].(pc := Announced(j))];
      Log(Call(w, Announce));
      OwnLast(old(trace), Call(w, Announce), w);
    }

    /** Recorded against the session before any worker can see the job. */
    method SetJobId(w: nat, j: JobId)
      requires Valid() && At(Model(), w, Announced(j))
      modifies this
      ensures Valid() && trace == old(trace) + [Call(w, Record)] && Own(trace, w) == Own(old(trace), w) + [Record]
      ensures |callers| == |old(callers)| && callers[w].pc == Recorded(j)
      ensures jobKey == Some(j)
    {
      hide Run, Own;
      jobKey := Some(j);
      log := log.(recorded := log.recorded[j := callers[w].serial]);
      callers := callers[w := callers[w].(pc := Recorded(j))];
      Log(Call(w, Record));
      OwnLast(old(trace), Call(w, Record), w);
    }

    /** RPUSH. */
    method PushJob(w: nat, j: JobId)
      requires Valid() && At(Model(), w, Recorded(j))
      modifies this
      ensures Valid() && trace == old(trace) + [Call(w, Push)] && Own(trace, w) == Own(old(trace), w) + [Push]
      ensures |callers| == |old(callers)| && callers[w].pc == Releasing
      ensures queue == old(queue) + [j]
    {
      hide Run, Own;
      queue := queue + [j];
      log := log.(created := log.created + 1);
      callers := callers[w := callers[w].(pc := Releasing)];
      Log(Call(w, Push));
      OwnLast(old(trace), Call(w, Push), w);
    }

    /** Compare-and-delete on the nonce. */
    method ReleaseResumeLock(w: nat)
      requires Valid() && At(Model(), w, Releasing)
      modifies this
      ensures Valid() && trace == old(trace) + [Call(w, Release)] && Own(trace, w) == Own(old(trace), w) + [Release]
      ensures |callers| == |old(callers)| && callers[w].pc == Idle
    {
      hide Run, Own;
      if resumeLock.Some? && resumeLock.value.nonce == callers[w].nonce { resumeLock := None; }
      callers := callers[w := callers[w].(pc := Idle)];
      Log(Call(w, Release));
      OwnLast(old(trace), Call(w, Release), w);
    }

    /** An exception inside the try block: on to the finally block. */
    method Raise(w: nat)
      requires Valid() && w < |callers| && !callers[w].pc.Idle? && !callers[w].pc.Releasing?
      modifies this
      ensures Valid() && trace == old(trace) + [Call(w, Fail)] && Own(trace, w) == Own(old(trace), w) + [Fail]
      ensures |callers| == |old(callers)| && callers[w].pc == Releasing
    {
      hide Run, Own;
      log := log.(unbumped := log.unbumped + if AwaitsBump(callers[w]) then 1 else 0,
                  abandoned := log.abandoned + if InFlight(callers[w]) then 1 else 0);
      callers := callers[w := callers[w].(pc := Releasing)];
      Log(Call(w, Fail));
      OwnLast(old(trace), Call(w, Fail), w);
    }

    /** The whole of handle_resume, of which `survives` commands under the lock succeed before one raises.
        A job is created only if this call got the lock and read a completed or errored status; the id
        is recorded before it is pushed; the lock is released on every path. */
    method HandleResume(w: nat, p: Pauses, survives: nat) returns (job: Option<JobId>)
      requires Valid() && At(Model(), w, Idle) && PausesByOthers(p, w)
      modifies this
      ensures Valid() && |callers| == |old(callers)| && callers[w].pc == Idle && old(trace) <= trace
      ensures job.Some? ==> survives >= |UNDER_LOCK| && Own(trace, w) == Own(old(trace), w) + [Acquire] + UNDER_LOCK + [Release]
      ensures job.None? ==> || Own(trace, w) == Own(old(trace), w) + [Acquire]
                            || Own(trace, w) == Own(old(trace), w) + [Acquire, Read, Release]
                            || (survives < |UNDER_LOCK|
                                && Own(trace, w) == Own(old(trace), w) + [Acquire] + UNDER_LOCK[..survives] + [Fail, Release])
    {
      hide Run, Own, Apply, ByOthers, UpTo;
      var acquired := AcquireResumeLock(w);
      if !acquired {
        return None;
      }
      OthersRun(p.locked, w);
      UnderLock(old(Own(trace, w)), survives);
      if survives == 0 {
        Raise(w);
        job := None;
      } else {
        var resumable := ReadSession(w);
        OthersRun(p.decided, w);
        if resumable {
          job := CreateResume(w, p, survives - 1);
        } else {
          job := None;
        }
      }
      ReleaseResumeLock(w);
    }

    /** From set_running to the push. */
    method CreateResume(w: nat, p: Pauses, survives: nat) returns (j: Option<JobId>)
      requires Valid() && At(Model(), w, Resumable) && PausesByOthers(p, w)
      modifies this
      ensures Valid() && |callers| == |old(callers)| && callers[w].pc == Releasing && old(trace) <= trace
      ensures j.Some? <==> survives >= 6
      ensures Own(trace, w) == Own(old(trace), w) + UpTo([Mark, Bump, Store, Announce, Record, Push], survives)
    {
      hide Run, Own, Apply, ByOthers, UpTo;
      OneMore(old(Own(trace, w)), Mark, [Bump, Store, Announce, Record, Push], survives);
      assert [Mark] + [Bump, Store, Announce, Record, Push] == [Mark, Bump, Store, Announce, Record, Push];
      if survives == 0 {
        Raise(w);
        return None;
      }
      SetSessionRunning(w);
      OthersRun(p.marked, w);
      j := CountResume(w, p, survives - 1);
    }

    /** The run count, then the job. */
    method CountResume(w: nat, p: Pauses, survives: nat) returns (j: Option<JobId>)
      requires Valid() && At(Model(), w, Marked) && PausesByOthers(p, w)
      modifies this
      ensures Valid() && |callers| == |old(callers)| && callers[w].pc == Releasing && old(trace) <= trace
      ensures j.Some? <==> survives >= 5
      ensures Own(trace, w) == Own(old(trace), w) + UpTo([Bump, Store, Announce, Record, Push], survives)
    {
      hide Run, Own, Apply, ByOthers, UpTo;
      OneMore(old(Own(trace, w)), Bump, [Store, Announce, Record, Push], survives);
      assert [Bump] + [Store, Announce, Record, Push] == [Bump, Store, Announce, Record, Push];
      if survives == 0 {
        Raise(w);
        return None;
      }
      IncrementRunCount(w);
      OthersRun(p.bumped, w);
      j := CreateJob(w, p, survives - 1);
    }

    /** _create_job, and what may happen before the lock is released. */
    method CreateJob(w: nat, p: Pauses, survives: nat) returns (job: Option<JobId>)
      requires Valid() && At(Model(), w, Bumped) && PausesByOthers(p, w)
      modifies this
      ensures Valid() && |callers| == |old(callers)| && callers[w].pc == Releasing && old(trace) <= trace
      ensures job.Some? <==> survives >= 4
      ensures Own(trace, w) == Own(old(trace), w) + UpTo([Store, Announce, Record, Push], survives)
    {
      hide Run, Own, Apply, ByOthers, UpTo;
      OneMore(old(Own(trace, w)), Store, [Announce, Record, Push], survives);
      assert [Store] + [Announce, Record, Push] == [Store, Announce, Record, Push];
      if survives == 0 {
        Raise(w);
        return None;
      }
      var j := StoreJobData(w);
      OthersRun(p.stored, w);
      job := AnnounceJob(w, j, p, survives - 1);
    }

    /** The status key, then the record and the push. */
    method AnnounceJob(w: nat, j: JobId, p: Pauses, survives: nat) returns (job: Option<JobId>)
      requires Valid() && At(Model(), w, Stored(j)) && PausesByOthers(p, w)
      modifies this
      ensures Valid() && |callers| == |old(callers)| && callers[w].pc == Releasing && old(trace) <= trace
      ensures job.Some? <==> survives >= 3
      ensures Own(trace, w) == Own(old(trace), w) + UpTo([Announce, Record, Push], survives)
    {
      hide Run, Own, Apply, ByOthers, UpTo;
      OneMore(old(Own(trace, w)), Announce, [Record, Push], survives);
      assert [Announce] + [Record, Push] == [Announce, Record, Push];
      if survives == 0 {
        Raise(w);
        return None;
      }
      StoreJobStatus(w, j);
      OthersRun(p.announced, w);
      job := PublishJob(w, j, p, survives - 1);
    }

    /** Recorded against the session, then pushed. */
    method PublishJob(w: nat, j: JobId, p: Pauses, survives: nat) returns (job: Option<JobId>)
      requires Valid() && At(Model(), w, Announced(j)) && PausesByOthers(p, w)
      modifies this
      ensures Valid() && |callers| == |old(callers)| && callers[w].pc == Releasing && old(trace) <= trace
      ensures job.Some? <==> survives >= 2
      ensures Own(trace, w) == Own(old(trace), w) + UpTo([Record, Push], survives)
    {
      hide Run, Own, Apply, ByOthers, UpTo;
      OneMore(old(Own(trace, w)), Record, [Push], survives);
      assert [Record] + [Push] == [Record, Push];
      if survives == 0 {
        Raise(w);
        return None;
      }
      SetJobId(w, j);
      OthersRun(p.recorded, w);
      OneMore(Own(trace, w), Push, [], survives - 1);
      assert [Push] + [] == [Push];
      if survives == 1 {
        Raise(w);
        return None;
      }
      PushJob(w, j);
      OthersRun(p.pushed, w);
      job := Some(j);
    }
  }

  lemma UpToUnfolds(c: Command, rest: seq<Command>, k: nat)
    ensures UpTo([c] + rest, k) == if k == 0 then [Fail] else [c] + UpTo(rest, k - 1)
  {
    if 0 < k <= |rest| { assert ([c] + rest)[..k] == [c] + rest[..k - 1]; }
  }

  /** One command that succeeds, and those after it. */
  lemma OneMore(own: seq<Command>, c: Command, rest: seq<Command>, k: nat)
    ensures k == 0 ==> own + UpTo([c] + rest, k) == own + [Fail]
    ensures k > 0 ==> own + UpTo([c] + rest, k) == own + [c] + UpTo(rest, k - 1)
    ensures k > 0 && rest == [] ==> own + UpTo([c] + rest, k) == own + [c]
  {
    UpToUnfolds(c, rest, k);
    if k > 0 && rest == [] { assert UpTo(rest, k - 1) == []; }
    hide UpTo;
    if k > 0 { assert own + ([c] + UpTo(rest, k - 1)) == own + [c] + UpTo(rest, k - 1); }
  }

  /** After the read, the rest of the commands under the lock. */
  lemma UnderLock(own: seq<Command>, survives: nat)
    ensures UNDER_LOCK[..0] == [] && own + [Acquire] + [Fail] + [Release] == own + [Acquire] + UNDER_LOCK[..0] + [Fail, Release]
    ensures own + [Acquire] + [Read] + [Release] == own + [Acquire, Read, Release]
    ensures survives > 0 ==>
              own + [Acquire] + [Read] + UpTo([Mark, Bump, Store, Announce, Record, Push], survives - 1) + [Release]
              == if survives < |UNDER_LOCK| then own + [Acquire] + UNDER_LOCK[..survives] + [Fail, Release]
                 else own + [Acquire] + UNDER_LOCK + [Release]
  {
    if survives > 0 {
      var rest := UpTo([Mark, Bump, Store, Announce, Record, Push], survives - 1);
      ReadAndRest(survives);
      hide UpTo, UNDER_LOCK;
      assert own + [Acquire] + [Read] + rest + [Release] == own + [Acquire] + ([Read] + rest) + [Release];
    }
  }

  lemma ReadAndRest(survives: nat)
    requires survives > 0
    ensures [Read] + UpTo([Mark, Bump, Store, Announce, Record, Push], survives - 1)
            == if survives < |UNDER_LOCK| then UNDER_LOCK[..survives] + [Fail] else UNDER_LOCK
  {
    UpToUnfolds(Read, [Mark, Bump, Store, Announce, Record, Push], survives);
    assert [Read] + [Mark, Bump, Store, Announce, Record, Push] == UNDER_LOCK;
  }

  const UNDER_LOCK: seq<Command> := [Read, Mark, Bump, Store, Announce, Record, Push]

  /** The commands that are issued when the first k of them succeed. */
  function UpTo(cs: seq<Command>, k: nat): seq<Command> { if k < |cs| then cs[..k] + [Fail] else cs }

  lemma OthersKeepCaller(s: State, e: Event, w: nat)
    requires (e.World? || e.w != w) && w < |s.callers|
    ensures |Apply(s, e).callers| == |s.callers| && Apply(s, e).callers[w] == s.callers[w]
  {
    hide DoCall, DoOutside;
    if e.World? {
      WorldTouchesNoCaller(s, e.x);
    } else if e.c.Acquire? || e.c.Release? {
      CallNames(s, e.w);
    } else {
      CallTouchesOneCaller(s, e.w, e.c);
    }
  }
}
