/** The Redis job queue. Each method of JobQueue is one atomic step, but a worker may also die in the
    middle of a pull; a crash after the pull is simply a pull that no completion follows. Keys carry the time at which Redis drops them. */
module JobQueue {
  import opened Basics

  type JobId = nat

  datatype JobData = JobData(payload: string, githubToken: Option<string>)
  datatype Timed<T> = Timed(value: T, expires: int)

  datatype State = State(
    clock: int,
    pending: seq<JobId>,
    processing: set<JobId>,
    data: map<JobId, Timed<JobData>>,
    status: map<JobId, Timed<string>>,
    backup: map<JobId, Timed<JobData>>,
    result: map<JobId, Timed<string>>,
    deadLetter: seq<JobId>,
    log: Log
  )

  /** History, kept for the statements below. */
  datatype Log = Log(
    created: map<JobId, JobData>,
    completed: set<JobId>,
    outcome: map<JobId, string>,  // of completions that no later status has replaced
    dropped: set<JobId>,          // removed from processing for want of a backup
    broken: set<JobId>,           // popped by a worker that died before it wrote the backup
    pushed: seq<JobId>,           // every id ever pushed on, and popped off, the pending list
    popped: seq<JobId>,
    lastReclaim: int
  )

  datatype Event =
    | Create(id: JobId, job: JobData)
    | Pull
    | PullDies(commands: nat)     // after BLPOP, then after SADD, then after the status
    | Complete(id: JobId, result: string, outcome: string)
    | Reclaim(order: seq<JobId>)
    | Tick(dt: nat)

  function Init(clock: int): State {
    State(clock, [], {}, map[], map[], map[], map[], [], Log(map[], {}, map[], {}, {}, [], [], clock))
  }

  predicate Live<T>(m: map<JobId, Timed<T>>, id: JobId, clock: int) {
    id in m && clock < m[id].expires
  }

  ghost predicate Distinct(ids: seq<JobId>) {
    forall i, j :: 0 <= i < j < |ids| ==> ids[i] != ids[j]
  }

  /** SMEMBERS returns the members once each, in any order. */
  ghost predicate Enumerates(order: seq<JobId>, ids: set<JobId>) {
    Distinct(order) && forall id :: id in order <==> id in ids
  }

  function DoCreate(ttl: nat, s: State, id: JobId, job: JobData): State {
    s.(data := s.data[id := Timed(job, s.clock + ttl)],
       status := s.status[id := Timed("pending", s.clock + ttl)],
       pending := s.pending + [id],
       log := s.log.(created := s.log.created[id := job], pushed := s.log.pushed + [id], outcome := s.log.outcome - {id}))
  }

  function Pop(s: State): State
    requires s.pending != []
  {
    s.(pending := s.pending[1..], log := s.log.(popped := s.log.popped + [s.pending[0]]))
  }

  function Start(ttl: nat, s: State, id: JobId): State
    requires id in s.data
  {
    s.(processing := s.processing + {id},
       status := s.status[id := Timed("processing", s.clock + ttl)],
       backup := s.backup[id := Timed(s.data[id].value, s.clock + 2 * ttl)],
       log := s.log.(outcome := s.log.outcome - {id}))
  }

  function DoPull(ttl: nat, s: State): State {
    if s.pending == [] then s
    else if Live(s.data, s.pending[0], s.clock) then Start(ttl, Pop(s), s.pending[0])
    else Pop(s).(deadLetter := s.deadLetter + [s.pending[0]])
  }

  /** The worker dies after the pop, after the pop and SADD, or after the status as well. */
  function DoPullDies(ttl: nat, s: State, commands: nat): State {
    if s.pending == [] then s
    else
      var id, t := s.pending[0], Pop(s);
      var u := t.(log := t.log.(broken := t.log.broken + {id}));
      if commands == 0 || !Live(s.data, id, s.clock) then u
      else if commands == 1 then u.(processing := u.processing + {id})
      else u.(processing := u.processing + {id}, status := u.status[id := Timed("processing", s.clock + ttl)],
              log := u.log.(outcome := u.log.outcome - {id}))
  }

  function DoComplete(ttl: nat, s: State, id: JobId, result: string, outcome: string): State {
    s.(result := s.result[id := Timed(result, s.clock + ttl)],
       status := s.status[id := Timed(outcome, s.clock + ttl)],
       processing := s.processing - {id},
       backup := s.backup - {id},
       log := s.log.(completed := s.log.completed + {id}, outcome := s.log.outcome[id := outcome]))
  }

  function Requeue(ttl: nat, s: State, id: JobId): State
    requires id in s.backup
  {
    s.(data := s.data[id := Timed(s.backup[id].value.(githubToken := None), s.clock + ttl)],
       status := s.status[id := Timed("pending", s.clock + ttl)],
       pending := s.pending + [id],
       processing := s.processing - {id},
       backup := s.backup - {id},
       log := s.log.(pushed := s.log.pushed + [id], outcome := s.log.outcome - {id}))
  }

  /** One id of the reclaim scan. */
  function ReclaimOne(ttl: nat, s: State, id: JobId): State {
    if Live(s.data, id, s.clock) then s
    else if Live(s.backup, id, s.clock) then Requeue(ttl, s, id)
    else
      s.(processing := s.processing - {id}, log := s.log.(dropped := s.log.dropped + {id}))
  }

  function ReclaimAll(ttl: nat, s: State, order: seq<JobId>): State {
    if order == [] then s else ReclaimOne(ttl, ReclaimAll(ttl, s, order[..|order| - 1]), order[|order| - 1])
  }

  function Scanned(s: State): State { s.(log := s.log.(lastReclaim := s.clock)) }

  /** One step; a step that cannot happen (an id that is not fresh, a wrong enumeration) changes nothing. */
  ghost function Apply(ttl: nat, s: State, e: Event): State {
    match e
    case Create(id, job) => if id in s.log.created then s else DoCreate(ttl, s, id, job)
    case Pull => DoPull(ttl, s)
    case PullDies(commands) => DoPullDies(ttl, s, commands)
    case Complete(id, result, outcome) => DoComplete(ttl, s, id, result, outcome)
    case Reclaim(order) =>
      if Enumerates(order, s.processing) then Scanned(ReclaimAll(ttl, s, order)) else s
    case Tick(dt) => s.(clock := s.clock + dt)
  }

  ghost function Run(ttl: nat, s: State, es: seq<Event>): State {
    if es == [] then s else Apply(ttl, Run(ttl, s, es[..|es| - 1]), es[|es| - 1])
  }

  // ---- What holds in every run ----

  ghost predicate Accounted(s: State, id: JobId) {
    id in s.pending || id in s.processing || id in s.deadLetter || id in s.log.completed || id in s.log.dropped
    || id in s.log.broken
  }

  ghost predicate QueueInv(s: State) {
    && Distinct(s.pending)
    && (forall id :: id in s.pending ==> id in s.log.created && id !in s.processing)
    && (forall id :: id in s.processing ==> id in s.log.created)
    && s.log.pushed == s.log.popped + s.pending
    && (forall id :: id in s.log.created ==> Accounted(s, id))
  }

  function Equal(id: JobId): JobId -> bool { (x: JobId) => x == id }

  /** How often an id was put on the pending list: once by create_job, and once more by each reclaim. */
  function Pushes(s: State, id: JobId): nat { Count(Equal(id), s.log.pushed) }

  /** What is kept of a job: all of it as submitted, until a reclaim takes the token away. */
  function Kept(s: State, id: JobId): JobData
    requires id in s.log.created
  {
    if Pushes(s, id) == 1 then s.log.created[id] else s.log.created[id].(githubToken := None)
  }

  ghost predicate PayloadOk(s: State, id: JobId) {
    && (id in s.log.created <==> Pushes(s, id) >= 1)
    && (id in s.data ==> id in s.log.created && s.data[id].value == Kept(s, id))
    && (id in s.backup ==> id in s.log.created && s.backup[id].value == Kept(s, id) && id !in s.pending)
  }

  /** Data and backups are the job as it was submitted, without its token once it has been reclaimed. */
  ghost predicate PayloadInv(s: State) { forall id: JobId :: PayloadOk(s, id) }

  lemma DistinctTail(ids: seq<JobId>)
    requires Distinct(ids) && ids != []
    ensures Distinct(ids[1..]) && ids[0] !in ids[1..]
    ensures forall id :: id in ids <==> id == ids[0] || id in ids[1..]
  {
    assert ids == [ids[0]] + ids[1..];
  }

  lemma DistinctSnoc(ids: seq<JobId>, id: JobId)
    requires Distinct(ids) && id !in ids
    ensures Distinct(ids + [id])
    ensures forall x :: x in ids + [id] <==> x == id || x in ids
  {
  }

  /** The same ids are accounted for after a step that moves one of them. */
  lemma StillAccounted(s: State, t: State, id: JobId)
    requires forall x :: x in s.log.created ==> Accounted(s, x)
    requires t.log.created == s.log.created && Accounted(t, id)
    requires forall x :: x != id ==> (Accounted(s, x) ==> Accounted(t, x))
    ensures forall x :: x in t.log.created ==> Accounted(t, x)
  {
  }

  lemma PullKeepsQueue(ttl: nat, s: State)
    requires QueueInv(s)
    ensures QueueInv(DoPull(ttl, s))
  {
    hide Distinct;
    if s.pending != [] {
      DistinctTail(s.pending);
      assert s.log.popped + s.pending == (s.log.popped + [s.pending[0]]) + s.pending[1..];
      StillAccounted(s, DoPull(ttl, s), s.pending[0]);
    }
  }

  lemma PullDiesKeepsQueue(ttl: nat, s: State, commands: nat)
    requires QueueInv(s)
    ensures QueueInv(DoPullDies(ttl, s, commands))
  {
    hide Distinct;
    if s.pending != [] {
      DistinctTail(s.pending);
      assert s.log.popped + s.pending == (s.log.popped + [s.pending[0]]) + s.pending[1..];
      StillAccounted(s, DoPullDies(ttl, s, commands), s.pending[0]);
    }
  }

  lemma ReclaimOneKeepsQueue(ttl: nat, s: State, id: JobId)
    requires QueueInv(s) && PayloadInv(s) && id in s.processing
    ensures var t := ReclaimOne(ttl, s, id);
      QueueInv(t) && PayloadInv(t) && t.log.created == s.log.created && t.clock == s.clock && t.log.lastReclaim == s.log.lastReclaim
      && s.processing - {id} <= t.processing <= s.processing
  {
    hide PayloadInv, Distinct, Accounted;
    ReclaimOneKeepsLists(ttl, s, id);
    ReclaimOneKeepsPayload(ttl, s, id);
    hide QueueInv;
  }

  lemma ReclaimOneKeepsLists(ttl: nat, s: State, id: JobId)
    requires QueueInv(s) && id in s.processing
    ensures QueueInv(ReclaimOne(ttl, s, id))
  {
    hide Distinct, Accounted;
    assert id in s.log.created && id !in s.pending;
    DistinctSnoc(s.pending, id);
    ReclaimOneAccounts(ttl, s, id);
  }

  lemma ReclaimOneKeepsPayload(ttl: nat, s: State, id: JobId)
    requires PayloadInv(s) && id in s.processing && id in s.log.created
    ensures PayloadInv(ReclaimOne(ttl, s, id))
  {
    hide PayloadOk, ReclaimOne;
    forall x: JobId ensures PayloadOk(ReclaimOne(ttl, s, id), x) {
      if x == id { ReclaimedPayload(ttl, s, id); } else { OtherPayload(ttl, s, id, x); }
    }
  }

  lemma ReclaimedPayload(ttl: nat, s: State, id: JobId)
    requires PayloadOk(s, id) && id in s.log.created
    ensures PayloadOk(ReclaimOne(ttl, s, id), id)
  {
    PushCounts(s.log.pushed, id, id);
    hide Count;
  }

  lemma OtherPayload(ttl: nat, s: State, id: JobId, x: JobId)
    requires PayloadOk(s, x) && x != id
    ensures PayloadOk(ReclaimOne(ttl, s, id), x)
  {
    PushCounts(s.log.pushed, id, x);
    PushCounts(s.pending, id, x);
    hide Count;
  }

  /** One more push counts for its own id only. */
  lemma PushCounts(ids: seq<JobId>, id: JobId, x: JobId)
    ensures Count(Equal(x), ids + [id]) == Count(Equal(x), ids) + if x == id then 1 else 0
    ensures x in ids + [id] <==> x == id || x in ids
  {
    CountSnoc(Equal(x), ids, id);
  }

  lemma ReclaimOneAccounts(ttl: nat, s: State, id: JobId)
    requires id in s.processing && forall x :: x in s.log.created ==> Accounted(s, x)
    ensures forall x :: x in s.log.created ==> Accounted(ReclaimOne(ttl, s, id), x)
  {
    StillAccounted(s, ReclaimOne(ttl, s, id), id);
  }

  lemma {:induction false} ReclaimAllKeepsQueue(ttl: nat, s: State, order: seq<JobId>)
    requires QueueInv(s) && PayloadInv(s) && Distinct(order) && forall id :: id in order ==> id in s.processing
    ensures var t := ReclaimAll(ttl, s, order);
      QueueInv(t) && PayloadInv(t) && t.log.created == s.log.created && t.clock == s.clock
      && forall id :: id in s.processing && id !in order ==> id in t.processing
  {
    if order != [] {
      var n := |order| - 1;
      assert order == order[..n] + [order[n]];
      assert order[n] !in order[..n];
      ReclaimAllKeepsQueue(ttl, s, order[..n]);
      ReclaimOneKeepsQueue(ttl, ReclaimAll(ttl, s, order[..n]), order[n]);
    }
  }

  lemma CreateKeepsQueue(ttl: nat, s: State, id: JobId, job: JobData)
    requires QueueInv(s) && id !in s.log.created
    ensures QueueInv(DoCreate(ttl, s, id, job))
  {
    hide Distinct;
    var t := DoCreate(ttl, s, id, job);
    DistinctSnoc(s.pending, id);
    forall x | x in t.log.created ensures Accounted(t, x) { assert x != id ==> Accounted(s, x); }
  }

  lemma CreateKeepsPayload(ttl: nat, s: State, id: JobId, job: JobData)
    requires PayloadInv(s) && id !in s.log.created
    ensures PayloadInv(DoCreate(ttl, s, id, job))
  {
    forall x: JobId ensures PayloadOk(DoCreate(ttl, s, id, job), x) {
      assert PayloadOk(s, x) && PayloadOk(s, id);
      PushCounts(s.log.pushed, id, x);
      PushCounts(s.pending, id, x);
      hide Count;
    }
  }

  lemma CompleteKeepsQueue(ttl: nat, s: State, id: JobId, result: string, outcome: string)
    requires QueueInv(s) && PayloadInv(s)
    ensures var t := DoComplete(ttl, s, id, result, outcome); QueueInv(t) && PayloadInv(t)
  {
    hide Distinct, Count;
    var t := DoComplete(ttl, s, id, result, outcome);
    StillAccounted(s, t, id);
    forall x: JobId ensures PayloadOk(t, x) { assert PayloadOk(s, x); }
  }

  lemma PullKeepsPayload(ttl: nat, s: State)
    requires QueueInv(s) && PayloadInv(s)
    ensures PayloadInv(DoPull(ttl, s))
  {
    if s.pending != [] {
      var id := s.pending[0];
      DistinctTail(s.pending);
      hide Count;
      forall x: JobId ensures PayloadOk(DoPull(ttl, s), x) { assert PayloadOk(s, x) && PayloadOk(s, id); }
    }
  }

  /** What a pull hands out was waiting longest, and is the job as it was submitted: with its token the
      first time, and without it once it has been reclaimed. */
  lemma PullDelivers(ttl: nat, s: State)
    requires QueueInv(s) && PayloadInv(s) && s.pending != [] && Live(s.data, s.pending[0], s.clock)
    ensures var id := s.pending[0];
      && id in s.log.created
      && s.data[id].value == if Pushes(s, id) == 1 then s.log.created[id] else s.log.created[id].(githubToken := None)
  {
    assert s.pending[0] in s.pending;
    assert PayloadOk(s, s.pending[0]);
  }

  lemma {:induction false} StepKeepsQueue(ttl: nat, s: State, e: Event)
    requires QueueInv(s) && PayloadInv(s)
    ensures QueueInv(Apply(ttl, s, e)) && PayloadInv(Apply(ttl, s, e))
  {
    hide Distinct, QueueInv, PayloadInv;
    match e
    case Create(id, job) =>
      if id !in s.log.created {
        CreateKeepsQueue(ttl, s, id, job);
        CreateKeepsPayload(ttl, s, id, job);
      }
    case Pull =>
      PullKeepsQueue(ttl, s);
      PullKeepsPayload(ttl, s);
    case PullDies(commands) =>
      PullDiesKeepsQueue(ttl, s, commands);
      SameJobsKeepPayload(s, DoPullDies(ttl, s, commands));
    case Complete(id, result, outcome) => CompleteKeepsQueue(ttl, s, id, result, outcome);
    case Reclaim(order) =>
      if Enumerates(order, s.processing) {
        ReclaimAllKeepsQueue(ttl, s, order);
        SameListsKeepQueue(ReclaimAll(ttl, s, order), Apply(ttl, s, e));
        SameJobsKeepPayload(ReclaimAll(ttl, s, order), Apply(ttl, s, e));
      }
    case Tick(dt) =>
      SameListsKeepQueue(s, Apply(ttl, s, e));
      SameJobsKeepPayload(s, Apply(ttl, s, e));
  }

  lemma SameListsKeepQueue(s: State, t: State)
    requires QueueInv(s)
    requires t == s.(clock := t.clock, log := s.log.(lastReclaim := t.log.lastReclaim))
    ensures QueueInv(t)
  {
    forall x | x in t.log.created ensures Accounted(t, x) { assert Accounted(s, x); }
  }

  lemma SameJobsKeepPayload(s: State, t: State)
    requires PayloadInv(s) && t.data == s.data && t.backup == s.backup && t.log.created == s.log.created
    requires t.log.pushed == s.log.pushed
    requires s.pending == t.pending || (s.pending != [] && t.pending == s.pending[1..])
    ensures PayloadInv(t)
  {
    hide Count;
    forall x: JobId ensures PayloadOk(t, x) { assert PayloadOk(s, x); }
  }

  /** In every run: pops are the pushes in order, no id waits twice, none waits while it is being
      processed, every id ever created is somewhere, and what is stored is the job as created. */
  lemma {:induction false} EveryRunKeepsQueue(ttl: nat, clock: int, es: seq<Event>)
    ensures QueueInv(Run(ttl, Init(clock), es)) && PayloadInv(Run(ttl, Init(clock), es))
  {
    if es != [] {
      EveryRunKeepsQueue(ttl, clock, es[..|es| - 1]);
      StepKeepsQueue(ttl, Run(ttl, Init(clock), es[..|es| - 1]), es[|es| - 1]);
    }
  }

  // ---- No job is lost, if the scan runs often enough ----

  /** Consecutive reclaim scans are never more than `gap` apart. */
  ghost predicate Cadence(gap: nat, ttl: nat, s: State, es: seq<Event>) {
    es == [] || (Cadence(gap, ttl, s, es[..|es| - 1]) && Run(ttl, s, es).clock <= Run(ttl, s, es).log.lastReclaim + gap)
  }

  /** A job being processed has a backup that outlives its data by a TTL, and the next scan. */
  ghost predicate BackupOk(ttl: nat, s: State, id: JobId) {
    && (id in s.log.created ==> id in s.data)
    && (id in s.data ==> s.data[id].expires <= s.clock + ttl)
    && (id in s.processing && id !in s.log.broken ==>
          && id in s.data && id in s.backup
          && s.data[id].expires + ttl <= s.backup[id].expires
          && s.log.lastReclaim + ttl < s.backup[id].expires)
  }

  ghost predicate BackupInv(ttl: nat, s: State) {
    && s.log.lastReclaim <= s.clock && s.log.dropped <= s.log.broken
    && forall id: JobId :: BackupOk(ttl, s, id)
  }

  /** The same halfway through a scan, which has looked at some ids: those are gone or have their data. */
  ghost predicate ScanOk(ttl: nat, s: State, looked: bool, id: JobId) {
    && (id in s.log.created ==> id in s.data)
    && (id in s.data ==> s.data[id].expires <= s.clock + ttl)
    && (id in s.processing && id !in s.log.broken ==>
          && id in s.data && Live(s.backup, id, s.clock)
          && s.data[id].expires + ttl <= s.backup[id].expires
          && (looked ==> Live(s.data, id, s.clock)))
  }

  lemma ReclaimOneLosesNothing(ttl: nat, s: State, id: JobId, looked: bool, x: JobId)
    requires id in s.processing && ScanOk(ttl, s, looked, x)
    ensures ScanOk(ttl, ReclaimOne(ttl, s, id), looked || x == id, x)
  {
  }

  lemma ReclaimOneDrops(ttl: nat, s: State, id: JobId)
    requires id in s.processing && s.log.dropped <= s.log.broken && ScanOk(ttl, s, false, id)
    ensures var t := ReclaimOne(ttl, s, id);
      && t.log.dropped <= t.log.broken && t.log.broken == s.log.broken && t.clock == s.clock
      && s.processing - {id} <= t.processing <= s.processing && t.log.lastReclaim == s.log.lastReclaim
  {
  }

  lemma {:induction false} ScanLosesNothing(ttl: nat, s: State, order: seq<JobId>)
    requires BackupInv(ttl, s) && s.clock <= s.log.lastReclaim + ttl
    requires Distinct(order) && forall id :: id in order ==> id in s.processing
    ensures var t := ReclaimAll(ttl, s, order);
      && t.log.dropped <= t.log.broken && t.log.broken == s.log.broken && t.clock == s.clock
      && t.log.lastReclaim == s.log.lastReclaim && t.processing <= s.processing
      && (forall id :: id in s.processing && id !in order ==> id in t.processing)
      && (forall id: JobId :: ScanOk(ttl, t, id in order, id))
  {
    hide ReclaimOne, ScanOk, BackupOk;
    if order == [] {
      forall x: JobId ensures ScanOk(ttl, s, false, x) { BackupsStand(ttl, s, x); }
    } else {
      var n := |order| - 1;
      var u := ReclaimAll(ttl, s, order[..n]);
      assert order == order[..n] + [order[n]];
      ScanLosesNothing(ttl, s, order[..n]);
      assert order[n] !in order[..n];
      assert ScanOk(ttl, u, order[n] in order[..n], order[n]);
      ReclaimOneDrops(ttl, u, order[n]);
      forall x: JobId ensures ScanOk(ttl, ReclaimAll(ttl, s, order), x in order, x) {
        assert ScanOk(ttl, u, x in order[..n], x);
        ReclaimOneLosesNothing(ttl, u, order[n], x in order[..n], x);
      }
    }
  }

  /** Before the scan: it comes soon enough to find every backup live. */
  lemma BackupsStand(ttl: nat, s: State, x: JobId)
    requires BackupInv(ttl, s) && s.clock <= s.log.lastReclaim + ttl
    ensures ScanOk(ttl, s, false, x)
  {
    assert BackupOk(ttl, s, x);
  }

  /** After the scan: what is still being processed has live data, so its backup outlives another TTL. */
  lemma ScanRenews(ttl: nat, s: State, x: JobId)
    requires ScanOk(ttl, s, x in s.processing, x)
    ensures BackupOk(ttl, Scanned(s), x)
  {
  }

  lemma StepLosesNothing(ttl: nat, s: State, e: Event)
    requires ttl > 0 && QueueInv(s) && BackupInv(ttl, s) && s.clock <= s.log.lastReclaim + ttl
    ensures BackupInv(ttl, Apply(ttl, s, e))
  {
    QueueFacts(s);
    if e.Reclaim? && Enumerates(e.order, s.processing) {
      ScanKeepsBackups(ttl, s, e.order);
    } else {
      hide Enumerates, BackupOk;
      forall x: JobId ensures BackupOk(ttl, Apply(ttl, s, e), x) { SimpleStepLosesNothing(ttl, s, e, x); }
      SimpleStepDropsNothing(ttl, s, e);
    }
  }

  lemma SimpleStepDropsNothing(ttl: nat, s: State, e: Event)
    requires s.log.lastReclaim <= s.clock && s.log.dropped <= s.log.broken
    requires e.Reclaim? ==> !Enumerates(e.order, s.processing)
    ensures var t := Apply(ttl, s, e); t.log.lastReclaim <= t.clock && t.log.dropped <= t.log.broken
  {
    hide Enumerates, DoPull, DoPullDies;
    PullDropsNothing(ttl, s, if e.PullDies? then e.commands else 0);
  }

  lemma PullDropsNothing(ttl: nat, s: State, commands: nat)
    requires s.log.dropped <= s.log.broken
    ensures var t, u := DoPull(ttl, s), DoPullDies(ttl, s, commands);
      && t.log.lastReclaim == u.log.lastReclaim == s.log.lastReclaim && t.clock == u.clock == s.clock
      && t.log.dropped <= t.log.broken && u.log.dropped <= u.log.broken
  {
  }

  lemma ScanKeepsBackups(ttl: nat, s: State, order: seq<JobId>)
    requires BackupInv(ttl, s) && s.clock <= s.log.lastReclaim + ttl && Enumerates(order, s.processing)
    ensures BackupInv(ttl, Scanned(ReclaimAll(ttl, s, order)))
  {
    hide BackupOk, ScanOk, ReclaimAll, Distinct;
    var t := ReclaimAll(ttl, s, order);
    ScanLosesNothing(ttl, s, order);
    forall x: JobId ensures BackupOk(ttl, Scanned(t), x) {
      assert ScanOk(ttl, t, x in order, x);
      LookedOrGone(ttl, t, x in order, x);
      ScanRenews(ttl, t, x);
    }
  }

  lemma LookedOrGone(ttl: nat, s: State, looked: bool, x: JobId)
    requires ScanOk(ttl, s, looked, x) && (x in s.processing ==> looked)
    ensures ScanOk(ttl, s, x in s.processing, x)
  {
  }

  lemma SimpleStepLosesNothing(ttl: nat, s: State, e: Event, x: JobId)
    requires ttl > 0 && BackupInv(ttl, s) && s.clock <= s.log.lastReclaim + ttl
    requires e.Reclaim? ==> !Enumerates(e.order, s.processing)
    requires forall id :: id in s.processing ==> id in s.log.created
    ensures BackupOk(ttl, Apply(ttl, s, e), x)
  {
    hide Enumerates, DoCreate, DoPull, DoPullDies, DoComplete, BackupOk;
    assert BackupOk(ttl, s, x);
    match e
    case Create(id, job) =>
      if id !in s.log.created { CreateLosesNothing(ttl, s, id, job, x); }
    case Pull => PullLosesNothing(ttl, s, x);
    case PullDies(commands) => PullDiesLosesNothing(ttl, s, commands, x);
    case Complete(id, result, outcome) => CompleteLosesNothing(ttl, s, id, result, outcome, x);
    case Reclaim(order) =>
    case Tick(dt) => assert BackupOk(ttl, s.(clock := s.clock + dt), x) by { TimeLosesNothing(ttl, s, dt, x); }
  }

  lemma CreateLosesNothing(ttl: nat, s: State, id: JobId, job: JobData, x: JobId)
    requires BackupOk(ttl, s, x) && id !in s.processing
    ensures BackupOk(ttl, DoCreate(ttl, s, id, job), x)
  {
  }

  lemma PullLosesNothing(ttl: nat, s: State, x: JobId)
    requires ttl > 0 && BackupOk(ttl, s, x) && s.log.lastReclaim <= s.clock <= s.log.lastReclaim + ttl
    ensures BackupOk(ttl, DoPull(ttl, s), x)
  {
  }

  lemma PullDiesLosesNothing(ttl: nat, s: State, commands: nat, x: JobId)
    requires BackupOk(ttl, s, x)
    ensures BackupOk(ttl, DoPullDies(ttl, s, commands), x)
  {
  }

  lemma CompleteLosesNothing(ttl: nat, s: State, id: JobId, result: string, outcome: string, x: JobId)
    requires BackupOk(ttl, s, x)
    ensures BackupOk(ttl, DoComplete(ttl, s, id, result, outcome), x)
  {
  }

  lemma TimeLosesNothing(ttl: nat, s: State, dt: nat, x: JobId)
    requires BackupOk(ttl, s, x)
    ensures BackupOk(ttl, s.(clock := s.clock + dt), x)
  {
  }

  lemma {:induction false} CadenceKeepsBackups(ttl: nat, clock: int, es: seq<Event>)
    requires ttl > 0 && Cadence(ttl, ttl, Init(clock), es)
    ensures var s := Run(ttl, Init(clock), es); BackupInv(ttl, s) && s.clock <= s.log.lastReclaim + ttl
  {
    if es != [] {
      CadenceKeepsBackups(ttl, clock, es[..|es| - 1]);
      EveryRunKeepsQueue(ttl, clock, es[..|es| - 1]);
      StepLosesNothing(ttl, Run(ttl, Init(clock), es[..|es| - 1]), es[|es| - 1]);
    }
  }

  /** Over any number of crashes: a scan at least once per TTL loses no job but those whose worker died
      inside the pull, and whatever is being processed can still be run or reclaimed. */
  lemma NoJobIsLost(ttl: nat, clock: int, es: seq<Event>, id: JobId)
    requires ttl > 0 && Cadence(ttl, ttl, Init(clock), es)
    requires id in Run(ttl, Init(clock), es).log.created && id !in Run(ttl, Init(clock), es).log.broken
    ensures var s := Run(ttl, Init(clock), es);
      && (id in s.pending || id in s.processing || id in s.deadLetter || id in s.log.completed)
      && (id in s.processing ==> Live(s.backup, id, s.clock) && s.backup[id].value == Kept(s, id))
  {
    CadenceKeepsBackups(ttl, clock, es);
    EveryRunKeepsQueue(ttl, clock, es);
    assert PayloadOk(Run(ttl, Init(clock), es), id);
    assert Accounted(Run(ttl, Init(clock), es), id) && BackupOk(ttl, Run(ttl, Init(clock), es), id);
  }

  /** A job whose worker died inside the pull never waits again, whatever happens after. */
  lemma {:induction false} DeathInPullLoses(ttl: nat, clock: int, es: seq<Event>, commands: nat, more: seq<Event>)
    requires Run(ttl, Init(clock), es).pending != []
    ensures var id := Run(ttl, Init(clock), es).pending[0];
      Gone(Run(ttl, Init(clock), es + [PullDies(commands)] + more), id)
  {
    var s0, start := Init(clock), es + [PullDies(commands)];
    var id := Run(ttl, s0, es).pending[0];
    if more == [] {
      assert start + more == start;
      RunSnoc(ttl, s0, es, PullDies(commands));
      EveryRunKeepsQueue(ttl, clock, es);
      hide Run;
      DyingIsGone(ttl, Run(ttl, s0, es), commands);
    } else {
      var n := |more| - 1;
      DeathInPullLoses(ttl, clock, es, commands, more[..n]);
      assert (start + more)[..|start + more| - 1] == start + more[..n];
      StepKeepsGone(ttl, Run(ttl, s0, start + more[..n]), more[n], id);
    }
  }

  lemma DyingIsGone(ttl: nat, s: State, commands: nat)
    requires QueueInv(s) && PayloadInv(s) && s.pending != []
    ensures Gone(DoPullDies(ttl, s, commands), s.pending[0])
  {
    QueueFacts(s);
    assert s.pending[0] in s.pending && PayloadOk(s, s.pending[0]);
  }

  /** Created, but neither waiting nor restorable. */
  ghost predicate Gone(s: State, id: JobId) { id in s.log.created && id !in s.pending && id !in s.backup }

  lemma StepKeepsGone(ttl: nat, s: State, e: Event, id: JobId)
    requires Gone(s, id)
    ensures Gone(Apply(ttl, s, e), id)
  {
    if e.Reclaim? { ScanKeepsGone(ttl, s, e.order, id); }
  }

  lemma {:induction false} ScanKeepsGone(ttl: nat, s: State, order: seq<JobId>, id: JobId)
    requires Gone(s, id)
    ensures Gone(ReclaimAll(ttl, s, order), id)
  {
    if order != [] { ScanKeepsGone(ttl, s, order[..|order| - 1], id); }
  }

  // ---- What a status says ----

  /** What the keys say of an id: only a completion after a requeue hides where it is. */
  ghost predicate StatusOk(ttl: nat, s: State, id: JobId) {
    && (id in s.data ==> s.data[id].expires <= s.clock + ttl)
    && (id in s.log.outcome ==> id in s.status && s.status[id].value == s.log.outcome[id])
    && (id in s.pending && id !in s.log.outcome ==>
          id in s.data && id in s.status && s.status[id] == Timed("pending", s.data[id].expires))
    && (id in s.processing && id !in s.log.broken ==>
          && id !in s.log.outcome && id in s.status && s.status[id].value == "processing"
          && id in s.data && s.data[id].expires <= s.status[id].expires)
    && (id in s.deadLetter ==> id in s.log.created && id !in s.pending && id !in s.processing)
    && (id in s.deadLetter && id !in s.log.outcome ==> !Live(s.status, id, s.clock))
  }

  ghost predicate StatusInv(ttl: nat, s: State) { forall id: JobId :: StatusOk(ttl, s, id) }

  lemma ReclaimOneKeepsStatus(ttl: nat, s: State, id: JobId, x: JobId)
    requires id in s.processing && StatusOk(ttl, s, id) && StatusOk(ttl, s, x)
    ensures StatusOk(ttl, ReclaimOne(ttl, s, id), x)
  {
    assert x in s.pending + [id] <==> x == id || x in s.pending;
  }

  lemma {:induction false} ReclaimAllKeepsStatus(ttl: nat, s: State, order: seq<JobId>)
    requires QueueInv(s) && PayloadInv(s) && Distinct(order) && forall id :: id in order ==> id in s.processing
    requires StatusInv(ttl, s)
    ensures StatusInv(ttl, ReclaimAll(ttl, s, order))
  {
    hide StatusOk, QueueInv, PayloadInv, ReclaimOne;
    if order != [] {
      var n := |order| - 1;
      assert order == order[..n] + [order[n]];
      assert order[n] !in order[..n];
      ReclaimAllKeepsStatus(ttl, s, order[..n]);
      ReclaimAllKeepsQueue(ttl, s, order[..n]);
      forall x: JobId ensures StatusOk(ttl, ReclaimAll(ttl, s, order), x) {
        ReclaimOneKeepsStatus(ttl, ReclaimAll(ttl, s, order[..n]), order[n], x);
      }
    }
  }

  lemma CreateKeepsStatus(ttl: nat, s: State, id: JobId, job: JobData, x: JobId)
    requires StatusOk(ttl, s, x) && id !in s.log.created && id !in s.processing && id !in s.deadLetter
    ensures StatusOk(ttl, DoCreate(ttl, s, id, job), x)
  {
    assert x in s.pending + [id] <==> x == id || x in s.pending;
  }

  lemma PullKeepsStatus(ttl: nat, s: State, x: JobId)
    requires s.pending != [] && s.pending[0] !in s.pending[1..] && s.pending[0] in s.log.created
    requires s.pending[0] !in s.processing
    requires StatusOk(ttl, s, x)
    ensures StatusOk(ttl, DoPull(ttl, s), x)
  {
    hide StatusOk;
    FirstOrRest(s.pending, x);
    if x != s.pending[0] { OthersKeepStatus(ttl, s, DoPull(ttl, s), x); } else { PulledStatus(ttl, s); }
  }

  lemma FirstOrRest(ids: seq<JobId>, x: JobId)
    requires ids != []
    ensures x in ids <==> x == ids[0] || x in ids[1..]
    ensures ids[0] in ids
  {
    assert ids == [ids[0]] + ids[1..];
  }

  /** A step that leaves an id's keys and place alone. */
  lemma OthersKeepStatus(ttl: nat, s: State, t: State, x: JobId)
    requires StatusOk(ttl, s, x) && t.data == s.data && t.clock == s.clock && t.log.created == s.log.created
    requires (x in t.pending <==> x in s.pending) && (x in t.processing <==> x in s.processing)
    requires (x in t.deadLetter <==> x in s.deadLetter) && (x in t.log.broken <==> x in s.log.broken)
    requires x in t.log.outcome <==> x in s.log.outcome
    requires x in s.log.outcome ==> t.log.outcome[x] == s.log.outcome[x]
    requires x in t.status <==> x in s.status
    requires x in s.status ==> t.status[x] == s.status[x]
    ensures StatusOk(ttl, t, x)
  {
  }

  lemma PulledStatus(ttl: nat, s: State)
    requires s.pending != [] && s.pending[0] !in s.pending[1..] && s.pending[0] in s.log.created
    requires s.pending[0] !in s.processing && s.pending[0] in s.pending
    requires StatusOk(ttl, s, s.pending[0])
    ensures StatusOk(ttl, DoPull(ttl, s), s.pending[0])
  {
  }

  lemma PullDiesKeepsStatus(ttl: nat, s: State, commands: nat, x: JobId)
    requires s.pending != [] && s.pending[0] !in s.pending[1..] && StatusOk(ttl, s, x)
    ensures StatusOk(ttl, DoPullDies(ttl, s, commands), x)
  {
    hide StatusOk;
    FirstOrRest(s.pending, x);
    if x != s.pending[0] { OthersKeepStatus(ttl, s, DoPullDies(ttl, s, commands), x); } else { DiedStatus(ttl, s, commands); }
  }

  lemma DiedStatus(ttl: nat, s: State, commands: nat)
    requires s.pending != [] && s.pending[0] !in s.pending[1..] && s.pending[0] in s.pending
    requires StatusOk(ttl, s, s.pending[0])
    ensures StatusOk(ttl, DoPullDies(ttl, s, commands), s.pending[0])
  {
  }

  lemma CompleteKeepsStatus(ttl: nat, s: State, id: JobId, result: string, outcome: string, x: JobId)
    requires StatusOk(ttl, s, x)
    ensures StatusOk(ttl, DoComplete(ttl, s, id, result, outcome), x)
  {
  }

  lemma TickKeepsStatus(ttl: nat, s: State, dt: nat, x: JobId)
    requires StatusOk(ttl, s, x)
    ensures StatusOk(ttl, s.(clock := s.clock + dt), x)
  {
  }

  /** What the steps need to know of a well-formed queue. */
  lemma QueueFacts(s: State)
    requires QueueInv(s)
    ensures forall id :: id in s.processing ==> id in s.log.created
    ensures s.pending != [] ==>
              var id := s.pending[0]; id !in s.pending[1..] && id in s.log.created && id !in s.processing
  {
    if s.pending != [] {
      DistinctTail(s.pending);
      assert s.pending[0] in s.pending;
    }
  }

  lemma StepKeepsStatus(ttl: nat, s: State, e: Event)
    requires StatusInv(ttl, s) && QueueInv(s) && PayloadInv(s)
    ensures StatusInv(ttl, Apply(ttl, s, e))
  {
    QueueFacts(s);
    if e.Reclaim? && Enumerates(e.order, s.processing) {
      ReclaimAllKeepsStatus(ttl, s, e.order);
      forall x: JobId ensures StatusOk(ttl, Apply(ttl, s, e), x) {
        assert StatusOk(ttl, ReclaimAll(ttl, s, e.order), x);
        ScannedKeepsStatus(ttl, ReclaimAll(ttl, s, e.order), x);
      }
    } else {
      forall x: JobId ensures StatusOk(ttl, Apply(ttl, s, e), x) { SimpleStepKeepsStatus(ttl, s, e, x); }
    }
  }

  lemma ScannedKeepsStatus(ttl: nat, s: State, x: JobId)
    requires StatusOk(ttl, s, x)
    ensures StatusOk(ttl, Scanned(s), x)
  {
  }

  lemma SimpleStepKeepsStatus(ttl: nat, s: State, e: Event, x: JobId)
    requires StatusInv(ttl, s) && (e.Reclaim? ==> !Enumerates(e.order, s.processing))
    requires forall id :: id in s.processing ==> id in s.log.created
    requires s.pending != [] ==>
               var id := s.pending[0]; id !in s.pending[1..] && id in s.log.created && id !in s.processing
    ensures StatusOk(ttl, Apply(ttl, s, e), x)
  {
    assert StatusOk(ttl, s, x);
    hide Enumerates, DoCreate, DoPull, DoPullDies, DoComplete;
    match e
    case Create(id, job) =>
      if id !in s.log.created {
        assert StatusOk(ttl, s, id);
        CreateKeepsStatus(ttl, s, id, job, x);
      }
    case Pull =>
      if s.pending != [] { PullKeepsStatus(ttl, s, x); } else { NothingToPull(ttl, s, 0); }
    case PullDies(commands) =>
      if s.pending != [] { PullDiesKeepsStatus(ttl, s, commands, x); } else { NothingToPull(ttl, s, commands); }
    case Complete(id, result, outcome) => CompleteKeepsStatus(ttl, s, id, result, outcome, x);
    case Tick(dt) => TickKeepsStatus(ttl, s, dt, x);
    case Reclaim(order) =>
  }

  lemma NothingToPull(ttl: nat, s: State, commands: nat)
    requires s.pending == []
    ensures DoPull(ttl, s) == s && DoPullDies(ttl, s, commands) == s
  {
  }

  lemma {:induction false} EveryRunKeepsStatus(ttl: nat, clock: int, es: seq<Event>)
    ensures StatusInv(ttl, Run(ttl, Init(clock), es))
  {
    if es != [] {
      EveryRunKeepsStatus(ttl, clock, es[..|es| - 1]);
      EveryRunKeepsQueue(ttl, clock, es[..|es| - 1]);
      StepKeepsStatus(ttl, Run(ttl, Init(clock), es[..|es| - 1]), es[|es| - 1]);
    }
  }

  /** get_job_status. */
  function StatusOf(s: State, id: JobId): Option<string> {
    if Live(s.status, id, s.clock) then Some(s.status[id].value) else None
  }

  /** What get_job_status tells in every run, of an id whose status no completion has replaced (see the
      history `outcome`): a waiting job is "pending" exactly while it can still be handed out, a job
      being processed is "processing" at least as long as it cannot be reclaimed, and a dead letter has
      no status. After a completion it is the outcome, wherever the id is by then. */
  lemma StatusTellsPlace(ttl: nat, clock: int, es: seq<Event>, id: JobId)
    ensures var s := Run(ttl, Init(clock), es);
      var r := StatusOf(s, id);
      && (id in s.pending && id !in s.log.outcome ==> r == if Live(s.data, id, s.clock) then Some("pending") else None)
      && (id in s.processing && id !in s.log.broken ==>
            (r == None || r == Some("processing")) && (Live(s.data, id, s.clock) ==> r == Some("processing")))
      && (id in s.deadLetter && id !in s.log.outcome ==> r == None)
      && (id in s.log.outcome && r.Some? ==> r.value == s.log.outcome[id])
  {
    EveryRunKeepsStatus(ttl, clock, es);
    assert StatusOk(ttl, Run(ttl, Init(clock), es), id);
  }

  /** A worker that outlives its job's data completes it after the scan has requeued it: the job waits,
      and its status says that it succeeded. */
  function LateCompletion(ttl: nat, job: JobData): seq<Event> {
    [Create(0, job), Pull, Tick(ttl), Reclaim([0]), Complete(0, "", "success")]
  }

  lemma LateCompletionHidesWaitingJob(ttl: nat, job: JobData)
    requires ttl > 0
    ensures var s := Run(ttl, Init(0), LateCompletion(ttl, job));
      0 in s.pending && Live(s.data, 0, s.clock) && StatusOf(s, 0) == Some("success")
  {
    hide Run, Cadence, ReclaimAll;
    var s0 := Init(0);
    assert Run(ttl, s0, []) == s0 by { RunEmpty(0, ttl, s0); }
    RunSnoc(ttl, s0, [], Create(0, job));
    var es := [Create(0, job)];
    assert [] + [Create(0, job)] == es;
    RunSnoc(ttl, s0, es, Pull);
    es := es + [Pull];
    assert Run(ttl, s0, es).processing == {0};
    RunSnoc(ttl, s0, es, Tick(ttl));
    es := es + [Tick(ttl)];
    RunSnoc(ttl, s0, es, Reclaim([0]));
    ReclaimSingle(ttl, Run(ttl, s0, es), 0);
    es := es + [Reclaim([0])];
    RunSnoc(ttl, s0, es, Complete(0, "", "success"));
    es := es + [Complete(0, "", "success")];
    assert es == LateCompletion(ttl, job);
  }

  // ---- The largest gap ----

  /** Pulled at once, looked at just before its data expires, then not for a TTL and a second. */
  function LosingRun(ttl: nat, job: JobData): seq<Event>
    requires ttl > 0
  {
    [Create(0, job), Pull, Tick(ttl - 1), Reclaim([0]), Tick(ttl + 1), Reclaim([0])]
  }

  lemma RunSnoc(ttl: nat, s: State, es: seq<Event>, e: Event)
    ensures Run(ttl, s, es + [e]) == Apply(ttl, Run(ttl, s, es), e)
    ensures forall gap: nat :: Cadence(gap, ttl, s, es + [e]) <==>
              Cadence(gap, ttl, s, es) && Run(ttl, s, es + [e]).clock <= Run(ttl, s, es + [e]).log.lastReclaim + gap
  {
    assert (es + [e])[..|es|] == es;
  }

  lemma ReclaimSingle(ttl: nat, s: State, id: JobId)
    requires s.processing == {id}
    ensures Apply(ttl, s, Reclaim([id])) == Scanned(ReclaimOne(ttl, s, id))
  {
    assert [id][..0] == [];
    assert Enumerates([id], s.processing);
    assert ReclaimAll(ttl, s, [id]) == ReclaimOne(ttl, ReclaimAll(ttl, s, [id][..0]), id);
  }

  lemma LosingRunLoses(ttl: nat, gap: nat, job: JobData)
    requires 0 < ttl < gap
    ensures Cadence(gap, ttl, Init(0), LosingRun(ttl, job))
    ensures var s := Run(ttl, Init(0), LosingRun(ttl, job)); 0 in s.log.dropped && s.log.broken == {}
  {
    hide Run, Cadence, ReclaimAll;
    var s0 := Init(0);
    assert Run(ttl, s0, []) == s0 && Cadence(gap, ttl, s0, []) by { RunEmpty(gap, ttl, s0); }
    RunSnoc(ttl, s0, [], Create(0, job));
    var es := [Create(0, job)];
    assert [] + [Create(0, job)] == es;
    RunSnoc(ttl, s0, es, Pull);
    es := es + [Pull];
    assert Run(ttl, s0, es).processing == {0};
    RunSnoc(ttl, s0, es, Tick(ttl - 1));
    es := es + [Tick(ttl - 1)];
    RunSnoc(ttl, s0, es, Reclaim([0]));
    ReclaimSingle(ttl, Run(ttl, s0, es), 0);
    es := es + [Reclaim([0])];
    RunSnoc(ttl, s0, es, Tick(ttl + 1));
    es := es + [Tick(ttl + 1)];
    RunSnoc(ttl, s0, es, Reclaim([0]));
    ReclaimSingle(ttl, Run(ttl, s0, es), 0);
    es := es + [Reclaim([0])];
    assert es == LosingRun(ttl, job);
  }

  lemma RunEmpty(gap: nat, ttl: nat, s: State)
    ensures Run(ttl, s, []) == s && Cadence(gap, ttl, s, [])
  {
  }

  /** One TTL is exactly the largest gap between scans that drops no job but those whose worker died
      inside the pull. */
  lemma CadenceIsExact(ttl: nat, gap: nat)
    requires ttl > 0
    ensures (forall es :: Cadence(gap, ttl, Init(0), es) ==> Run(ttl, Init(0), es).log.dropped <= Run(ttl, Init(0), es).log.broken)
            <==> gap <= ttl
  {
    if gap <= ttl {
      forall es | Cadence(gap, ttl, Init(0), es)
        ensures Run(ttl, Init(0), es).log.dropped <= Run(ttl, Init(0), es).log.broken
      {
        CadenceWeakens(gap, ttl, Init(0), es);
        CadenceKeepsBackups(ttl, 0, es);
      }
    } else {
      LosingRunLoses(ttl, gap, JobData("", None));
    }
  }

  lemma {:induction false} CadenceWeakens(gap: nat, ttl: nat, s: State, es: seq<Event>)
    requires gap <= ttl && Cadence(gap, ttl, s, es)
    ensures Cadence(ttl, ttl, s, es)
  {
    if es != [] { CadenceWeakens(gap, ttl, s, es[..|es| - 1]); }
  }

  // ---- The code ----

  class JobQueue {
    const jobTtl: nat
    var clock: int
    var pending: seq<JobId>
    var processing: set<JobId>
    var data: map<JobId, Timed<JobData>>
    var status: map<JobId, Timed<string>>
    var backup: map<JobId, Timed<JobData>>
    var result: map<JobId, Timed<string>>
    var deadLetter: seq<JobId>
    ghost var log: Log

    ghost function Model(): State
      reads this
    {
      State(clock, pending, processing, data, status, backup, result, deadLetter, log)
    }

    constructor (jobTtl: nat, clock: int)
      ensures this.jobTtl == jobTtl && Model() == Init(clock)
    {
      this.jobTtl := jobTtl;
      this.clock := clock;
      pending, processing, data, status, backup, result, deadLetter := [], {}, map[], map[], map[], map[], [];
      log := Log(map[], {}, map[], {}, {}, [], [], clock);
    }

    method CreateJob(id: JobId, job: JobData)
      requires id !in log.created
      modifies this
      ensures Model() == DoCreate(jobTtl, old(Model()), id, job)
      ensures data == old(data)[id := Timed(job, clock + jobTtl)] && pending == old(pending) + [id]
      ensures status == old(status)[id := Timed("pending", clock + jobTtl)] && log.created[id] == job
    {
      data := data[id := Timed(job, clock + jobTtl)];
      status := status[id := Timed("pending", clock + jobTtl)];
      pending := pending + [id];
      log := log.(created := log.created[id := job], pushed := log.pushed + [id], outcome := log.outcome - {id});
    }

    /** BLPOP on the pending list. */
    method PopPending() returns (id: JobId)
      requires pending != []
      modifies this
      ensures id == old(pending)[0] && Model() == Pop(old(Model()))
    {
      id := pending[0];
      pending := pending[1..];
      log := log.(popped := log.popped + [id]);
    }

    /** Marks a popped job as being processed and stores its backup. */
    method StartProcessing(id: JobId)
      requires id in data
      modifies this
      ensures Model() == Start(jobTtl, old(Model()), id)
    {
      processing := processing + {id};
      status := status[id := Timed("processing", clock + jobTtl)];
      backup := backup[id := Timed(data[id].value, clock + 2 * jobTtl)];
      log := log.(outcome := log.outcome - {id});
    }

    /** The job handed out is the oldest waiting one, as it was submitted: with its token at the first pull,
        without it after a reclaim. It is marked as being processed and its backup outlives its data; a job
        whose data has expired goes to the dead letters instead. */
    method GetNextJob() returns (job: Option<(JobId, JobData)>)
      requires QueueInv(Model()) && PayloadInv(Model())
      modifies this
      ensures Model() == DoPull(jobTtl, old(Model())) && QueueInv(Model()) && PayloadInv(Model())
      ensures job.Some? <==> old(pending) != [] && Live(old(data), old(pending)[0], old(clock))
      ensures job.Some? ==> job.value.0 == old(pending)[0] && job.value.0 in processing
                            && job.value.0 in log.created
                            && job.value.1 == (if Pushes(Model(), job.value.0) == 1 then log.created[job.value.0]
                                               else log.created[job.value.0].(githubToken := None))
                            && status == old(status)[job.value.0 := Timed("processing", clock + jobTtl)]
                            && backup == old(backup)[job.value.0 := Timed(job.value.1, clock + 2 * jobTtl)]
      ensures old(pending) != [] ==> pending == old(pending)[1..]
      ensures job.None? && old(pending) != [] ==> deadLetter == old(deadLetter) + [old(pending)[0]]
    {
      StepKeepsQueue(jobTtl, Model(), Pull);
      if pending != [] && Live(data, pending[0], clock) { PullDelivers(jobTtl, Model()); }
      hide QueueInv, PayloadInv, Count;
      if pending == [] {
        return None;
      }
      var id := PopPending();
      if !Live(data, id, clock) {
        deadLetter := deadLetter + [id];
        return None;
      }
      StartProcessing(id);
      return Some((id, data[id].value));
    }

    method CompleteJob(id: JobId, result: string, outcome: string)
      modifies this
      ensures Model() == DoComplete(jobTtl, old(Model()), id, result, outcome)
      ensures this.result == old(this.result)[id := Timed(result, clock + jobTtl)]
      ensures status == old(status)[id := Timed(outcome, clock + jobTtl)]
      ensures processing == old(processing) - {id} && backup == old(backup) - {id} && data == old(data) && pending == old(pending)
    {
      this.result := this.result[id := Timed(result, clock + jobTtl)];
      status := status[id := Timed(outcome, clock + jobTtl)];
      processing := processing - {id};
      backup := backup - {id};
      log := log.(completed := log.completed + {id}, outcome := log.outcome[id := outcome]);
    }

    function GetJobStatus(id: JobId): (r: Option<string>)
      reads this
      ensures r == StatusOf(Model(), id)
    {
      if Live(status, id, clock) then Some(status[id].value) else None
    }

    /** Restores a job from its backup, without its token, and puts it back on the list. */
    method RequeueFromBackup(id: JobId)
      requires id in backup
      modifies this
      ensures Model() == Requeue(jobTtl, old(Model()), id)
    {
      data := data[id := Timed(backup[id].value.(githubToken := None), clock + jobTtl)];
      status := status[id := Timed("pending", clock + jobTtl)];
      pending := pending + [id];
      processing := processing - {id};
      backup := backup - {id};
      log := log.(pushed := log.pushed + [id], outcome := log.outcome - {id});
    }

    /** What the scan does with one member of the processing set. */
    method ReclaimJob(id: JobId) returns (requeued: bool)
      modifies this
      ensures Model() == ReclaimOne(jobTtl, old(Model()), id)
      ensures |pending| == |old(pending)| + (if requeued then 1 else 0)
      ensures requeued <==> !Live(old(data), id, clock) && Live(old(backup), id, clock)
      ensures requeued ==> && pending == old(pending) + [id] && processing == old(processing) - {id} && id !in backup
                           && data[id] == Timed(old(backup)[id].value.(githubToken := None), clock + jobTtl)
                           && status[id] == Timed("pending", clock + jobTtl)
      ensures !requeued ==> && data == old(data) && status == old(status) && pending == old(pending)
                            && processing == (if Live(old(data), id, clock) then old(processing) else old(processing) - {id})
      ensures clock == old(clock)
    {
      requeued := false;
      if !Live(data, id, clock) {
        if Live(backup, id, clock) {
          RequeueFromBackup(id);
          requeued := true;
        } else {
          processing := processing - {id};
          log := log.(dropped := log.dropped + {id});
        }
      }
    }

    /** Scans the processing set in whatever order Redis returns it. */
    method ReclaimStaleJobs() returns (reclaimed: nat, ghost order: seq<JobId>)
      modifies this
      ensures Enumerates(order, old(processing))
      ensures Model() == Scanned(ReclaimAll(jobTtl, old(Model()), order)) && clock == old(clock)
      ensures reclaimed == |pending| - |old(pending)|
    {
      hide Distinct, ReclaimOne, ReclaimAll;
      ghost var start := Model();
      var todo := processing;
      reclaimed, order := 0, [];
      NothingScanned(jobTtl, start);
      while todo != {}
        invariant Distinct(order) && forall id :: id in order <==> id in start.processing && id !in todo
        invariant todo <= start.processing
        invariant Model() == ReclaimAll(jobTtl, start, order) && clock == start.clock
        invariant reclaimed == |pending| - |start.pending|
        decreases |todo|
      {
        var id :| id in todo;
        todo := todo - {id};
        DistinctSnoc(order, id);
        OneMoreScanned(jobTtl, start, order, id);
        order := order + [id];
        var requeued := ReclaimJob(id);
        reclaimed := reclaimed + if requeued then 1 else 0;
      }
      log := log.(lastReclaim := clock);
    }
  }

  lemma NothingScanned(ttl: nat, s: State)
    ensures ReclaimAll(ttl, s, []) == s && Distinct([])
  {
  }

  lemma OneMoreScanned(ttl: nat, s: State, order: seq<JobId>, id: JobId)
    ensures ReclaimAll(ttl, s, order + [id]) == ReclaimOne(ttl, ReclaimAll(ttl, s, order), id)
  {
    assert (order + [id])[..|order|] == order;
  }
}
