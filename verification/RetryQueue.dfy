/** The retry loop of the memory worker: a Redis list of messages, workers that pop and process
    them, and a dead-letter list. `id` is the identity of a submitted message, which the program
    does not store; no branch of the code reads it. */
module RetryQueue {
  import opened Basics

  datatype Message = Message(id: nat, attempts: Option<nat>, lastError: Option<string>)

  /** A queue entry is the JSON of a message, or something json.loads refuses. */
  datatype Raw = Json(message: Message) | Garbage(text: string)

  datatype DeadEntry = DeadEntry(reason: string, lastError: string, attempts: nat, original: Message)

  /** How processing ends. Lost: the worker is killed, or Redis fails while the error is handled. */
  datatype Verdict = Succeeds | Fails(transient: bool, error: string) | Lost

  datatype Try = Try(id: nat, verdict: Verdict)

  datatype State = State(
    queue: seq<Raw>,
    hands: seq<Message>,        // popped and being processed, one per busy worker
    dead: seq<DeadEntry>,
    // history, kept for the statements below
    born: map<nat, nat>,        // submitted ids, and the attempts they came with
    done: seq<nat>,
    lost: seq<nat>,
    log: seq<Try>               // every processing that ended
  )

  datatype Event =
    | Submit(message: Message)
    | Litter(text: string)
    | Take
    | Finish(i: nat, verdict: Verdict)

  const EMPTY := State([], [], [], map[], [], [], [])

  function Attempts(m: Message): nat { if m.attempts.Some? then m.attempts.value else 0 }

  /** How often a message that came with `attempts` may be processed at most. */
  function Allowance(max: nat, attempts: nat): nat { if attempts + 1 < max then max - attempts else 1 }

  // ---- One step ----

  /** enqueue_for_retry. */
  function Retry(s: State, m: Message, error: string, max: nat): State {
    var m' := m.(attempts := Some(Attempts(m) + 1), lastError := Some(error));
    if Attempts(m) + 1 >= max
    then s.(dead := s.dead + [DeadEntry("max_retries_exceeded", error, Attempts(m) + 1, m')])
    else s.(queue := s.queue + [Json(m')])
  }

  /** The end of processing one message that is no longer in hand. */
  function Settle(max: nat, s: State, m: Message, verdict: Verdict): State {
    var s := s.(log := s.log + [Try(m.id, verdict)]);
    match verdict
    case Succeeds => s.(done := s.done + [m.id])
    case Lost => s.(lost := s.lost + [m.id])
    case Fails(transient, error) => Retry(s, m, error, if transient then max else 0)
  }

  function Without<T>(s: seq<T>, i: nat): seq<T>
    requires i < |s|
  {
    s[..i] + s[i + 1..]
  }

  function Apply(max: nat, s: State, e: Event): State {
    match e
    case Submit(m) =>
      if m.id in s.born then s
      else s.(queue := s.queue + [Json(m)], born := s.born[m.id := Attempts(m)])
    case Litter(text) => s.(queue := s.queue + [Garbage(text)])
    case Take =>
      if s.queue == [] then s
      else if s.queue[0].Garbage? then s.(queue := s.queue[1..])
      else s.(queue := s.queue[1..], hands := s.hands + [s.queue[0].message])
    case Finish(i, verdict) =>
      if i >= |s.hands| then s
      else Settle(max, s.(hands := Without(s.hands, i)), s.hands[i], verdict)
  }

  function Run(max: nat, s: State, es: seq<Event>): State {
    if es == [] then s else Apply(max, Run(max, s, es[..|es| - 1]), es[|es| - 1])
  }

  // ---- Where a message is ----

  function InQueue(k: nat): Raw -> bool { (r: Raw) => r.Json? && r.message.id == k }
  function InHand(k: nat): Message -> bool { (m: Message) => m.id == k }
  function InDead(k: nat): DeadEntry -> bool { (d: DeadEntry) => d.original.id == k }
  function Equal(k: nat): nat -> bool { (j: nat) => j == k }
  function TryOf(k: nat): Try -> bool { (t: Try) => t.id == k }

  /** Copies of message k on their way, and copies that have come to rest. */
  function Underway(s: State, k: nat): nat { Count(InQueue(k), s.queue) + Count(InHand(k), s.hands) }
  function Settled(s: State, k: nat): nat {
    Count(InDead(k), s.dead) + Count(Equal(k), s.done) + Count(Equal(k), s.lost)
  }

  /** How often message k has been processed. */
  function Tries(s: State, k: nat): nat { Count(TryOf(k), s.log) }

  /** Every submitted message is in one place exactly once, and nothing else is anywhere. */
  ghost predicate Conserved(s: State) {
    forall k: nat :: Underway(s, k) + Settled(s, k) == if k in s.born then 1 else 0
  }

  /** A message on its way remembers how often it was processed, and has an attempt left. */
  ghost predicate Remembers(max: nat, s: State, m: Message) {
    m.id in s.born && Attempts(m) == s.born[m.id] + Tries(s, m.id) && (Tries(s, m.id) > 0 ==> Attempts(m) < max)
  }

  ghost predicate AllRemember(max: nat, s: State) {
    && (forall i :: 0 <= i < |s.queue| && s.queue[i].Json? ==> Remembers(max, s, s.queue[i].message))
    && (forall i :: 0 <= i < |s.hands| ==> Remembers(max, s, s.hands[i]))
  }

  /** A dead letter is there for a permanent error or a spent allowance, with its last error. */
  ghost predicate Deserved(max: nat, s: State, d: DeadEntry) {
    && d.original.id in s.born && d.attempts == s.born[d.original.id] + Tries(s, d.original.id)
    && d.original.lastError == Some(d.lastError) && Tries(s, d.original.id) > 0
    && (d.attempts >= max || Try(d.original.id, Fails(false, d.lastError)) in s.log)
  }

  ghost predicate AllDeserved(max: nat, s: State) {
    forall i :: 0 <= i < |s.dead| ==> Deserved(max, s, s.dead[i])
  }

  ghost predicate Bounded(max: nat, s: State) {
    forall k: nat :: Tries(s, k) <= if k in s.born then Allowance(max, s.born[k]) else 0
  }

  ghost predicate Inv(max: nat, s: State) {
    Conserved(s) && AllRemember(max, s) && AllDeserved(max, s) && Bounded(max, s)
  }

  lemma CountWithout<T>(p: T -> bool, s: seq<T>, i: nat)
    requires i < |s|
    ensures Count(p, s) == Count(p, Without(s, i)) + if p(s[i]) then 1 else 0
  {
    hide Count;
    assert s == s[..i] + [s[i]] + s[i + 1..];
    CountAdd(p, s[..i] + [s[i]], s[i + 1..]);
    CountSnoc(p, s[..i], s[i]);
    CountAdd(p, s[..i], s[i + 1..]);
  }

  // ---- Steps keep the invariant ----

  /** Nothing that is remembered of messages, or deserved by dead letters, depends on their places. */
  lemma SameHistory(max: nat, s: State, s': State)
    requires s'.born == s.born && s'.log == s.log && s'.dead == s.dead
    ensures forall k: nat :: Tries(s', k) == Tries(s, k)
    ensures forall m :: Remembers(max, s, m) ==> Remembers(max, s', m)
    ensures AllDeserved(max, s) ==> AllDeserved(max, s')
  {
    assert forall k: nat :: Tries(s', k) == Tries(s, k);
    hide Tries;
    assert forall d :: Deserved(max, s, d) ==> Deserved(max, s', d);
  }

  /** Messages that only change places keep what holds of them. */
  lemma Moved(max: nat, s: State, s': State)
    requires Inv(max, s) && s' == s.(queue := s'.queue, hands := s'.hands)
    requires forall k: nat :: Underway(s', k) == Underway(s, k)
    requires forall i :: 0 <= i < |s'.queue| && s'.queue[i].Json? ==> s'.queue[i] in s.queue
    requires forall i :: 0 <= i < |s'.hands| ==> s'.hands[i] in s.hands || Json(s'.hands[i]) in s.queue
    ensures Inv(max, s')
  {
    SameHistory(max, s, s');
    assert Conserved(s') by { SettledStays(s, s'); }
    hide Underway, Settled, Tries, Remembers, Deserved, AllDeserved, Conserved;
    forall i | 0 <= i < |s'.queue| && s'.queue[i].Json? ensures Remembers(max, s', s'.queue[i].message) {
      assert s'.queue[i] in s.queue;
    }
    forall i | 0 <= i < |s'.hands| ensures Remembers(max, s', s'.hands[i]) {
      assert s'.hands[i] in s.hands || Json(s'.hands[i]) in s.queue;
    }
  }

  lemma SettledStays(s: State, s': State)
    requires s'.dead == s.dead && s'.done == s.done && s'.lost == s.lost
    ensures forall k: nat :: Settled(s', k) == Settled(s, k)
  {
  }

  lemma LitterStep(max: nat, s: State, text: string)
    requires Inv(max, s)
    ensures Inv(max, Apply(max, s, Litter(text)))
  {
    hide Inv, Count;
    var s' := Apply(max, s, Litter(text));
    forall k: nat ensures Underway(s', k) == Underway(s, k) { CountSnoc(InQueue(k), s.queue, Garbage(text)); }
    Moved(max, s, s');
  }

  lemma TakeCounts(max: nat, s: State, k: nat)
    requires s.queue != []
    ensures Underway(Apply(max, s, Take), k) == Underway(s, k)
  {
    hide Count;
    CountWithout(InQueue(k), s.queue, 0);
    assert Without(s.queue, 0) == s.queue[1..];
    if s.queue[0].Json? { CountSnoc(InHand(k), s.hands, s.queue[0].message); }
  }

  lemma TakeStep(max: nat, s: State)
    requires Inv(max, s)
    ensures Inv(max, Apply(max, s, Take))
  {
    hide Inv, Underway;
    if s.queue != [] {
      var s' := Apply(max, s, Take);
      forall k: nat ensures Underway(s', k) == Underway(s, k) { TakeCounts(max, s, k); }
      assert s.queue == [s.queue[0]] + s.queue[1..];
      Moved(max, s, s');
    }
  }

  lemma SubmitCounts(max: nat, s: State, m: Message, k: nat)
    requires m.id !in s.born
    ensures var s' := Apply(max, s, Submit(m));
      && Underway(s', k) == Underway(s, k) + (if k == m.id then 1 else 0)
      && Settled(s', k) == Settled(s, k) && Tries(s', k) == Tries(s, k)
  {
    hide Count;
    CountSnoc(InQueue(k), s.queue, Json(m));
  }

  lemma SubmitStep(max: nat, s: State, m: Message)
    requires Inv(max, s)
    ensures Inv(max, Apply(max, s, Submit(m)))
  {
    if m.id !in s.born {
      var s' := Apply(max, s, Submit(m));
      hide Underway, Settled, Tries, Apply;
      forall k: nat
        ensures Underway(s', k) == Underway(s, k) + (if k == m.id then 1 else 0)
        ensures Settled(s', k) == Settled(s, k) && Tries(s', k) == Tries(s, k)
      {
        SubmitCounts(max, s, m, k);
      }
      SubmitRemembered(max, s, m);
    }
  }

  lemma SubmitRemembered(max: nat, s: State, m: Message)
    requires Inv(max, s) && m.id !in s.born
    ensures AllRemember(max, Apply(max, s, Submit(m))) && AllDeserved(max, Apply(max, s, Submit(m)))
  {
    var s' := Apply(max, s, Submit(m));
    forall k: nat ensures Tries(s', k) == Tries(s, k) { SubmitCounts(max, s, m, k); }
    hide Underway, Settled, Tries, Conserved;
    assert Tries(s, m.id) == 0;
    forall i | 0 <= i < |s'.queue| && s'.queue[i].Json? ensures Remembers(max, s', s'.queue[i].message) {
      assert i < |s.queue| ==> Remembers(max, s, s.queue[i].message);
    }
    forall i | 0 <= i < |s'.hands| ensures Remembers(max, s', s'.hands[i]) {
      assert Remembers(max, s, s.hands[i]);
    }
    forall i | 0 <= i < |s'.dead| ensures Deserved(max, s', s'.dead[i]) {
      assert Deserved(max, s, s.dead[i]);
    }
  }

  /** What Settle does to the counts, whatever it does with the message. */
  lemma SettleCounts(max: nat, s: State, m: Message, verdict: Verdict, k: nat)
    ensures var s' := Settle(max, s, m, verdict);
      && Underway(s', k) + Settled(s', k) == Underway(s, k) + Settled(s, k) + (if k == m.id then 1 else 0)
      && Tries(s', k) == Tries(s, k) + (if k == m.id then 1 else 0)
  {
    hide Count, Retry;
    var t := s.(log := s.log + [Try(m.id, verdict)]);
    CountSnoc(TryOf(k), s.log, Try(m.id, verdict));
    match verdict
    case Succeeds => CountSnoc(Equal(k), s.done, m.id);
    case Lost => CountSnoc(Equal(k), s.lost, m.id);
    case Fails(transient, error) => RetryCounts(t, m, error, if transient then max else 0, k);
  }

  lemma RetryCounts(s: State, m: Message, error: string, max: nat, k: nat)
    ensures var s' := Retry(s, m, error, max);
      && Underway(s', k) + Settled(s', k) == Underway(s, k) + Settled(s, k) + (if k == m.id then 1 else 0)
      && Tries(s', k) == Tries(s, k)
  {
    hide Count;
    var m' := m.(attempts := Some(Attempts(m) + 1), lastError := Some(error));
    CountSnoc(InQueue(k), s.queue, Json(m'));
    CountSnoc(InDead(k), s.dead, DeadEntry("max_retries_exceeded", error, Attempts(m) + 1, m'));
  }

  /** Message k occurs nowhere in a state whose counts say so. */
  lemma Absent(s: State, k: nat)
    requires Underway(s, k) + Settled(s, k) == 0
    ensures forall i :: 0 <= i < |s.queue| && s.queue[i].Json? ==> s.queue[i].message.id != k
    ensures forall i :: 0 <= i < |s.hands| ==> s.hands[i].id != k
    ensures forall i :: 0 <= i < |s.dead| ==> s.dead[i].original.id != k
  {
    forall i | 0 <= i < |s.queue| ensures s.queue[i].Json? ==> s.queue[i].message.id != k {
      if InQueue(k)(s.queue[i]) { CountPositive(InQueue(k), s.queue, i); }
    }
    forall i | 0 <= i < |s.hands| ensures s.hands[i].id != k {
      if InHand(k)(s.hands[i]) { CountPositive(InHand(k), s.hands, i); }
    }
    forall i | 0 <= i < |s.dead| ensures s.dead[i].original.id != k {
      if InDead(k)(s.dead[i]) { CountPositive(InDead(k), s.dead, i); }
    }
  }

  lemma FinishCounts(max: nat, s: State, i: nat, verdict: Verdict, k: nat)
    requires i < |s.hands|
    ensures var m, s1 := s.hands[i], s.(hands := Without(s.hands, i));
      var s' := Settle(max, s1, m, verdict);
      && Underway(s1, k) == Underway(s, k) - (if k == m.id then 1 else 0) && Settled(s1, k) == Settled(s, k)
      && Underway(s', k) + Settled(s', k) == Underway(s, k) + Settled(s, k)
      && Tries(s', k) == Tries(s, k) + (if k == m.id then 1 else 0)
  {
    hide Count, Settle;
    CountWithout(InHand(k), s.hands, i);
    SettleCounts(max, s.(hands := Without(s.hands, i)), s.hands[i], verdict, k);
  }

  lemma FinishTallies(max: nat, s: State, i: nat, verdict: Verdict)
    requires i < |s.hands|
    ensures var m := s.hands[i];
      var s' := Settle(max, s.(hands := Without(s.hands, i)), m, verdict);
      && (forall k: nat :: Underway(s', k) + Settled(s', k) == Underway(s, k) + Settled(s, k))
      && (forall k: nat :: Tries(s', k) == Tries(s, k) + (if k == m.id then 1 else 0))
  {
    hide Underway, Settled, Tries, Settle, Without;
    var m, s1 := s.hands[i], s.(hands := Without(s.hands, i));
    var s' := Settle(max, s1, m, verdict);
    forall k: nat
      ensures Underway(s', k) + Settled(s', k) == Underway(s, k) + Settled(s, k)
      ensures Tries(s', k) == Tries(s, k) + (if k == m.id then 1 else 0)
    {
      FinishCounts(max, s, i, verdict, k);
    }
  }

  /** The message that is finished is nowhere else, before and after. */
  lemma FinishTotals(max: nat, s: State, i: nat, verdict: Verdict)
    requires Inv(max, s) && i < |s.hands|
    ensures var s1 := s.(hands := Without(s.hands, i));
      var s' := Settle(max, s1, s.hands[i], verdict);
      && Conserved(s') && Bounded(max, s') && s'.born == s.born
      && Underway(s1, s.hands[i].id) + Settled(s1, s.hands[i].id) == 0
      && forall k: nat :: Tries(s', k) == Tries(s, k) + (if k == s.hands[i].id then 1 else 0)
  {
    AtHand(max, s, i);
    hide Underway, Settled, Tries, Settle, AllRemember, AllDeserved, Allowance, Without;
    SettleKeepsBirths(max, s.(hands := Without(s.hands, i)), s.hands[i], verdict);
    FinishTallies(max, s, i, verdict);
    FinishCounts(max, s, i, verdict, s.hands[i].id);
  }

  lemma OthersInHand(s: State, i: nat)
    requires i < |s.hands|
    ensures forall j :: 0 <= j < |Without(s.hands, i)| ==> Without(s.hands, i)[j] in s.hands
  {
  }

  lemma FinishRemembered(max: nat, s: State, i: nat, verdict: Verdict)
    requires Inv(max, s) && i < |s.hands|
    ensures var s' := Settle(max, s.(hands := Without(s.hands, i)), s.hands[i], verdict);
      AllRemember(max, s') && AllDeserved(max, s')
  {
    hide Underway, Settled, Tries, Settle, Deserved, Without, Remembers, Allowance;
    var m, s1 := s.hands[i], s.(hands := Without(s.hands, i));
    FinishTotals(max, s, i, verdict);
    OthersInHand(s, i);
    assert AllRemember(max, s) && AllDeserved(max, s) && Remembers(max, s, m);
    hide *;
    Absent(s1, m.id);
    OthersRemember(max, s, s1, Settle(max, s1, m, verdict), m, verdict);
    OthersDeserve(max, s, s1, Settle(max, s1, m, verdict), m, verdict);
  }

  lemma FinishStep(max: nat, s: State, i: nat, verdict: Verdict)
    requires Inv(max, s)
    ensures Inv(max, Apply(max, s, Finish(i, verdict)))
  {
    hide Conserved, AllRemember, AllDeserved, Bounded, Underway, Settled, Tries, Settle;
    if i < |s.hands| {
      FinishTotals(max, s, i, verdict);
      FinishRemembered(max, s, i, verdict);
    }
  }

  lemma AtHand(max: nat, s: State, i: nat)
    requires Inv(max, s) && i < |s.hands|
    ensures Underway(s, s.hands[i].id) + Settled(s, s.hands[i].id) == 1
    ensures s.hands[i].id in s.born && Tries(s, s.hands[i].id) < Allowance(max, s.born[s.hands[i].id])
  {
    assert Remembers(max, s, s.hands[i]);
  }

  lemma SettleKeepsBirths(max: nat, s: State, m: Message, verdict: Verdict)
    ensures Settle(max, s, m, verdict).born == s.born
  {
  }

  lemma OthersRemember(max: nat, s: State, s1: State, s': State, m: Message, verdict: Verdict)
    requires AllRemember(max, s) && Remembers(max, s, m) && s'.born == s.born
    requires s1.queue == s.queue && s1.born == s.born && (forall j :: 0 <= j < |s1.hands| ==> s1.hands[j] in s.hands)
    requires forall k: nat :: Tries(s', k) == Tries(s, k) + (if k == m.id then 1 else 0)
    requires forall j :: 0 <= j < |s.queue| && s.queue[j].Json? ==> s.queue[j].message.id != m.id
    requires forall j :: 0 <= j < |s1.hands| ==> s1.hands[j].id != m.id
    requires s' == Settle(max, s1, m, verdict)
    ensures AllRemember(max, s')
  {
    hide Tries;
    forall j | 0 <= j < |s'.queue| && s'.queue[j].Json? ensures Remembers(max, s', s'.queue[j].message) {
      if j < |s.queue| { assert Remembers(max, s, s.queue[j].message); }
    }
    forall j | 0 <= j < |s'.hands| ensures Remembers(max, s', s'.hands[j]) {
      assert s1.hands[j] in s.hands;
    }
  }

  lemma OthersDeserve(max: nat, s: State, s1: State, s': State, m: Message, verdict: Verdict)
    requires AllDeserved(max, s) && Remembers(max, s, m)
    requires s1.dead == s.dead && s1.born == s.born && s1.log == s.log
    requires forall k: nat :: Tries(s', k) == Tries(s, k) + (if k == m.id then 1 else 0)
    requires forall j :: 0 <= j < |s.dead| ==> s.dead[j].original.id != m.id
    requires s' == Settle(max, s1, m, verdict)
    ensures AllDeserved(max, s')
  {
    hide Tries;
    assert s'.log == s.log + [Try(m.id, verdict)];
    forall j | 0 <= j < |s'.dead| ensures Deserved(max, s', s'.dead[j]) {
      if j < |s.dead| { assert Deserved(max, s, s.dead[j]); }
    }
  }

  /** No message is lost but by a worker's death, none is duplicated, none is processed more often than its
      allowance, and a dead letter has deserved it: over every run, with any number of workers. */
  lemma {:induction false} EveryRunConserves(max: nat, es: seq<Event>)
    ensures Inv(max, Run(max, EMPTY, es))
  {
    if es != [] {
      EveryRunConserves(max, es[..|es| - 1]);
      var s := Run(max, EMPTY, es[..|es| - 1]);
      match es[|es| - 1]
      case Submit(m) => SubmitStep(max, s, m);
      case Litter(text) => LitterStep(max, s, text);
      case Take => TakeStep(max, s);
      case Finish(i, verdict) => FinishStep(max, s, i, verdict);
    }
  }

  /** Without a permanent error a message is given up only after its whole allowance, neither earlier nor later. */
  lemma DeadLetterIsDue(max: nat, es: seq<Event>, i: nat)
    requires i < |Run(max, EMPTY, es).dead|
    ensures var s := Run(max, EMPTY, es);
      var d := s.dead[i];
      && d.original.id in s.born
      && (Tries(s, d.original.id) == Allowance(max, s.born[d.original.id])
          || Try(d.original.id, Fails(false, d.lastError)) in s.log)
  {
    EveryRunConserves(max, es);
    assert Deserved(max, Run(max, EMPTY, es), Run(max, EMPTY, es).dead[i]);
  }

  ghost predicate IsDead(s: State, k: nat, error: string) {
    exists d :: d in s.dead && d.original.id == k && d.lastError == error && d.original.lastError == Some(error)
  }

  /** Where each verdict takes a message: a success is done, a lost one lost, a permanent error dead. */
  ghost predicate Verdicts(s: State) {
    && (forall k: nat :: k in s.done <==> Try(k, Succeeds) in s.log)
    && (forall k: nat :: k in s.lost <==> Try(k, Lost) in s.log)
    && (forall k: nat, e: string :: Try(k, Fails(false, e)) in s.log ==> IsDead(s, k, e))
  }

  lemma SettleKeepsVerdicts(max: nat, s: State, m: Message, verdict: Verdict)
    requires Verdicts(s)
    ensures Verdicts(Settle(max, s, m, verdict))
  {
    var t := Settle(max, s, m, verdict);
    assert t.log == s.log + [Try(m.id, verdict)];
    forall k: nat, e: string | Try(k, Fails(false, e)) in t.log ensures IsDead(t, k, e) {
      if Try(k, Fails(false, e)) in s.log {
        var d :| d in s.dead && d.original.id == k && d.lastError == e && d.original.lastError == Some(e);
        assert d in t.dead;
      } else {
        assert t.dead[|s.dead|] in t.dead;
      }
    }
  }

  lemma {:induction false} EveryRunKeepsVerdicts(max: nat, es: seq<Event>)
    ensures Verdicts(Run(max, EMPTY, es))
  {
    if es != [] {
      EveryRunKeepsVerdicts(max, es[..|es| - 1]);
      var s, e := Run(max, EMPTY, es[..|es| - 1]), es[|es| - 1];
      if e.Finish? {
        if e.i < |s.hands| {
          SameVerdicts(s, s.(hands := Without(s.hands, e.i)));
          SettleKeepsVerdicts(max, s.(hands := Without(s.hands, e.i)), s.hands[e.i], e.verdict);
        }
      } else {
        SameVerdicts(s, Apply(max, s, e));
      }
    }
  }

  lemma SameVerdicts(s: State, t: State)
    requires Verdicts(s) && t.done == s.done && t.lost == s.lost && t.log == s.log && t.dead == s.dead
    ensures Verdicts(t)
  {
    forall k: nat, e: string | Try(k, Fails(false, e)) in t.log ensures IsDead(t, k, e) { assert IsDead(s, k, e); }
  }

  /** A message that once succeeded, was lost or failed permanently is settled for good, the last as a dead
      letter with that error, and is not on its way again, in every run. */
  lemma VerdictsAreFinal(max: nat, es: seq<Event>, k: nat, verdict: Verdict)
    requires Try(k, verdict) in Run(max, EMPTY, es).log && (verdict.Fails? ==> !verdict.transient)
    ensures var s := Run(max, EMPTY, es);
      && Underway(s, k) == 0 && Settled(s, k) == 1
      && (verdict.Succeeds? ==> k in s.done) && (verdict.Lost? ==> k in s.lost)
      && (verdict.Fails? ==> IsDead(s, k, verdict.error))
  {
    EveryRunKeepsVerdicts(max, es);
    EveryRunConserves(max, es);
    var s := Run(max, EMPTY, es);
    hide Run;
    if verdict.Succeeds? {
      var i :| 0 <= i < |s.done| && s.done[i] == k;
      CountPositive(Equal(k), s.done, i);
    } else if verdict.Lost? {
      var i :| 0 <= i < |s.lost| && s.lost[i] == k;
      CountPositive(Equal(k), s.lost, i);
    } else {
      var d :| d in s.dead && d.original.id == k && d.lastError == verdict.error && d.original.lastError == Some(verdict.error);
      var i :| 0 <= i < |s.dead| && s.dead[i] == d;
      CountPositive(InDead(k), s.dead, i);
    }
  }

  // ---- The worker ----

  const DEFAULT_MAX_JOB_RETRIES: nat := 3

  /** Iterations the loop can still need: one for each garbage entry and each try that is left. */
  function Work(max: nat, queue: seq<Raw>): nat {
    if queue == [] then 0
    else
      Work(max, queue[1..])
      + if queue[0].Json? then Allowance(max, Attempts(queue[0].message)) else 1
  }

  lemma {:induction false} WorkAdd(max: nat, queue: seq<Raw>, r: Raw)
    ensures Work(max, queue + [r]) == Work(max, queue) + Work(max, [r])
  {
    if queue == [] {
      assert [] + [r] == [r];
    } else {
      WorkAdd(max, queue[1..], r);
      assert (queue + [r])[1..] == queue[1..] + [r];
    }
  }

  class MemoryWorker {
    var queue: seq<Raw>
    var dead: seq<DeadEntry>
    ghost var hands: seq<Message>
    ghost var born: map<nat, nat>
    ghost var done: seq<nat>
    ghost var lost: seq<nat>
    ghost var log: seq<Try>
    ghost var history: seq<Event>

    ghost function Model(): State
      reads this
    {
      State(queue, hands, dead, born, done, lost, log)
    }

    ghost predicate Valid()
      reads this
    {
      Model() == Run(DEFAULT_MAX_JOB_RETRIES, EMPTY, history)
    }

    constructor ()
      ensures Valid() && Model() == EMPTY
    {
      queue, dead, hands, born, done, lost, log, history := [], [], [], map[], [], [], [], [];
    }

    /** enqueue_for_retry; Redis accepts the push. */
    method EnqueueForRetry(m: Message, error: string, max: nat)
      modifies this
      ensures Model() == Retry(old(Model()), m, error, max) && history == old(history)
      ensures var next := Message(m.id, Some((if m.attempts.Some? then m.attempts.value else 0) + 1), Some(error));
        if next.attempts.value >= max
        then dead == old(dead) + [DeadEntry("max_retries_exceeded", error, next.attempts.value, next)] && queue == old(queue)
        else queue == old(queue) + [Json(next)] && dead == old(dead)
    {
      var attempts := Attempts(m) + 1;
      var message := m.(attempts := Some(attempts), lastError := Some(error));
      if attempts >= max {
        dead := dead + [DeadEntry("max_retries_exceeded", error, attempts, message)];
      } else {
        queue := queue + [Json(message)];
      }
    }

    /** process_memory_job, of which only the outcome matters. */
    method ProcessMemoryJob(m: Message) returns (verdict: Verdict)
    {
      verdict := *;
    }

    /** One turn of the worker's loop on a queue with something in it. */
    method HandleNext() returns (verdict: Option<Verdict>)
      requires Valid() && hands == [] && queue != []
      modifies this
      ensures Valid() && hands == [] && born == old(born)
      ensures verdict.Some? <==> old(queue)[0].Json?
      ensures history == old(history) + [Take] + if verdict.Some? then [Finish(0, verdict.value)] else []
      ensures Work(DEFAULT_MAX_JOB_RETRIES, queue) < Work(DEFAULT_MAX_JOB_RETRIES, old(queue))
    {
      hide Run, Inv;
      verdict := None;
      var raw := queue[0];
      Append(EMPTY, history, Take);
      queue, history := queue[1..], history + [Take];
      if raw.Json? {
        var m := raw.message;
        hands := [m];
        assert Valid();
        var v := ProcessMemoryJob(m);
        verdict := Some(v);
        Append(EMPTY, history, Finish(0, v));
        assert Without([m], 0) == [];
        hands, log, history := [], log + [Try(m.id, v)], history + [Finish(0, v)];
        match v {
          case Succeeds => done := done + [m.id];
          case Lost => lost := lost + [m.id];
          case Fails(transient, error) =>
            WorkAdd(DEFAULT_MAX_JOB_RETRIES, queue, Json(m.(attempts := Some(Attempts(m) + 1), lastError := Some(error))));
            if transient {
              EnqueueForRetry(m, error, DEFAULT_MAX_JOB_RETRIES);
            } else {
              EnqueueForRetry(m, error, 0);
            }
        }
      }
    }

    /** The loop, until blpop finds nothing: it ends, and every message has come to rest exactly once. */
    method Drain()
      requires Valid() && hands == []
      modifies this
      ensures Valid() && hands == [] && queue == [] && born == old(born)
      ensures forall k: nat :: k in born ==> Settled(Model(), k) == 1
      ensures forall k: nat :: k in born ==> Tries(Model(), k) <= Allowance(DEFAULT_MAX_JOB_RETRIES, born[k])
    {
      while queue != []
        invariant Valid() && hands == [] && born == old(born)
        decreases Work(DEFAULT_MAX_JOB_RETRIES, queue)
      {
        var _ := HandleNext();
      }
      EveryRunConserves(DEFAULT_MAX_JOB_RETRIES, history);
    }
  }

  lemma Append(s: State, es: seq<Event>, e: Event)
    ensures Run(DEFAULT_MAX_JOB_RETRIES, s, es + [e])
            == Apply(DEFAULT_MAX_JOB_RETRIES, Run(DEFAULT_MAX_JOB_RETRIES, s, es), e)
  {
    assert (es + [e])[..|es|] == es;
  }
}
