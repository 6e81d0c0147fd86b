/** The consumer of one SDK session's messages. A result frame ends a turn, not necessarily the
    run: delegated tasks may still be running, or may have just settled and be about to wake the
    parent again, in which case the result is held for a grace period. */
module StreamSession {
  import opened Basics

  datatype Info = Info(numTurns: int, durationMs: int, isError: bool, sessionId: Option<string>)

  /** The parts of a system message that _track_task_lifecycle looks at. An absent, empty or
      non-string field is None. */
  datatype System = System(subtype: string, taskId: Option<string>, taskType: Option<string>, patchStatus: Option<string>)

  datatype Message = Assistant(texts: seq<string>) | Result(info: Info) | Lifecycle(data: System) | Other

  /** What the queue, or the timeout on it, delivers next. */
  datatype Event = Received(m: Message) | GraceElapsed | EndOfStream | PumpFailed

  datatype Outcome = Final(info: Info) | NoResult | Raised | Waiting

  const DEFERRING_TASK_TYPES := {"local_agent", "local_workflow"}
  const TERMINAL_TASK_STATUSES := {"completed", "failed", "stopped", "killed"}

  predicate Starts(m: Message, t: string) {
    && m.Lifecycle? && m.data.taskId == Some(t) && m.data.subtype == "task_started"
    && m.data.taskType.Some? && m.data.taskType.value in DEFERRING_TASK_TYPES
  }

  predicate Settles(m: Message, t: string) {
    && m.Lifecycle? && m.data.taskId == Some(t)
    && (m.data.subtype == "task_notification"
        || (m.data.subtype == "task_updated" && m.data.patchStatus.Some?
            && m.data.patchStatus.value in TERMINAL_TASK_STATUSES))
  }

  /** The system messages that end a task: a notification, or an update to a terminal status. */
  predicate IsEnd(data: System) {
    || data.subtype == "task_notification"
    || (data.subtype == "task_updated"
        && (data.patchStatus == Some("completed") || data.patchStatus == Some("failed")
            || data.patchStatus == Some("stopped") || data.patchStatus == Some("killed")))
  }

  // ---- What the bookkeeping means ----

  /** Task t was started and has not reached an end since. */
  ghost predicate IsInFlight(ms: seq<Message>, t: string) {
    exists i :: 0 <= i < |ms| && Starts(ms[i], t) && forall k :: i < k < |ms| ==> !Settles(ms[k], t)
  }

  /** Task t reached an end, and neither output nor a result frame came after. */
  ghost predicate IsFreshlySettled(ms: seq<Message>, t: string) {
    exists i :: 0 <= i < |ms| && Settles(ms[i], t) && forall k :: i < k < |ms| ==> !ms[k].Assistant? && !ms[k].Result?
  }

  function InFlight(ms: seq<Message>): set<string> {
    if ms == [] then {} else Track(InFlight(ms[..|ms| - 1]), ms[|ms| - 1])
  }

  function Track(inflight: set<string>, m: Message): set<string> {
    if !m.Lifecycle? || m.data.taskId.None? then inflight
    else if Starts(m, m.data.taskId.value) then inflight + {m.data.taskId.value}
    else if Settles(m, m.data.taskId.value) then inflight - {m.data.taskId.value}
    else inflight
  }

  function Settled(ms: seq<Message>): set<string> {
    if ms == [] then {} else TrackSettled(Settled(ms[..|ms| - 1]), ms[|ms| - 1])
  }

  function TrackSettled(settled: set<string>, m: Message): set<string> {
    if m.Assistant? || m.Result? then {}
    else if m.Lifecycle? && m.data.taskId.Some? && Settles(m, m.data.taskId.value) then settled + {m.data.taskId.value}
    else settled
  }

  lemma {:induction false} InFlightMeans(ms: seq<Message>, t: string)
    ensures t in InFlight(ms) <==> IsInFlight(ms, t)
  {
    if ms != [] {
      var n := |ms| - 1;
      InFlightMeans(ms[..n], t);
      if IsInFlight(ms[..n], t) && !Settles(ms[n], t) {
        var i :| 0 <= i < n && Starts(ms[..n][i], t) && forall k :: i < k < n ==> !Settles(ms[..n][k], t);
        assert Starts(ms[i], t) && forall k :: i < k < |ms| ==> !Settles(ms[k], t);
      }
      if i :| 0 <= i < n && Starts(ms[i], t) && forall k :: i < k < |ms| ==> !Settles(ms[k], t) {
        assert Starts(ms[..n][i], t);
      }
    }
  }

  lemma SettlesNames()
    ensures forall m: Message, t: string :: Settles(m, t) ==> m.Lifecycle? && m.data.taskId == Some(t)
  {
  }

  lemma {:induction false} SettledMeans(ms: seq<Message>, t: string)
    ensures t in Settled(ms) <==> IsFreshlySettled(ms, t)
  {
    hide Settles, IsFreshlySettled;
    SettlesNames();
    if ms != [] {
      var n := |ms| - 1;
      SettledMeans(ms[..n], t);
      SettledSnoc(ms[..n], ms[n], t);
      assert ms[..n] + [ms[n]] == ms;
    } else {
      NothingSettled(t);
    }
  }

  lemma NothingSettled(t: string)
    ensures !IsFreshlySettled([], t)
  {
  }

  lemma SettledSnoc(ms: seq<Message>, m: Message, t: string)
    ensures IsFreshlySettled(ms + [m], t)
            <==> Settles(m, t) || (IsFreshlySettled(ms, t) && !m.Assistant? && !m.Result?)
  {
    hide Settles;
    var more, n := ms + [m], |ms|;
    assert more[n] == m && forall k :: 0 <= k < n ==> more[k] == ms[k];
    if IsFreshlySettled(ms, t) && !m.Assistant? && !m.Result? {
      var i :| 0 <= i < n && Settles(ms[i], t) && forall k :: i < k < n ==> !ms[k].Assistant? && !ms[k].Result?;
      assert Settles(more[i], t);
    }
    if i :| 0 <= i < n && Settles(more[i], t) && forall k :: i < k <= n ==> !more[k].Assistant? && !more[k].Result? {
      assert Settles(ms[i], t) && forall k :: i < k < n ==> more[k] == ms[k];
    }
  }

  // ---- Which result frame may end the run ----

  ghost predicate HasOutput(ms: seq<Message>) { exists i :: 0 <= i < |ms| && ms[i].Assistant? }

  /** Frame k came while no delegated task was running, and is not an empty frame before any output. */
  ghost predicate Accepted(ms: seq<Message>, k: nat) {
    && k < |ms| && ms[k].Result?
    && (forall t :: !IsInFlight(ms[..k], t))
    && (ms[k].info.numTurns == 0 && !ms[k].info.isError ==> HasOutput(ms[..k]))
  }

  /** An accepted frame that a continuation turn may still follow. */
  ghost predicate Provisional(ms: seq<Message>, k: nat) {
    Accepted(ms, k) && !ms[k].info.isError && exists t :: IsFreshlySettled(ms[..k], t)
  }

  /** The run went on after frame k: something other than a system message or a frame followed it. */
  ghost predicate WentOn(ms: seq<Message>, k: nat) {
    exists i :: k < i < |ms| && !ms[i].Lifecycle? && !ms[i].Result?
  }

  /** The last accepted frame, if the run did not go on after it. */
  ghost predicate Stands(ms: seq<Message>, k: nat) {
    Accepted(ms, k) && !WentOn(ms, k) && forall j :: k < j < |ms| ==> !Accepted(ms, j)
  }

  function Outputs(ms: seq<Message>): nat {
    if ms == [] then 0 else Outputs(ms[..|ms| - 1]) + if ms[|ms| - 1].Assistant? then 1 else 0
  }

  lemma {:induction false} OutputsMeans(ms: seq<Message>)
    ensures Outputs(ms) > 0 <==> HasOutput(ms)
  {
    if ms != [] {
      var n := |ms| - 1;
      OutputsMeans(ms[..n]);
      if i :| 0 <= i < n && ms[..n][i].Assistant? { assert ms[i].Assistant?; }
      if i :| 0 <= i < |ms| && ms[i].Assistant? { assert i == n || ms[..n][i].Assistant?; }
    }
  }

  function Texts(ms: seq<Message>): seq<string> {
    if ms == [] then [] else Texts(ms[..|ms| - 1]) + if ms[|ms| - 1].Assistant? then ms[|ms| - 1].texts else []
  }

  /** The messages among the first n events. */
  function Messages(es: seq<Event>): seq<Message> {
    if es == [] then [] else Messages(es[..|es| - 1]) + if es[|es| - 1].Received? then [es[|es| - 1].m] else []
  }

  /** The texts are those of the assistant messages, and no others. */
  lemma {:induction false} TextsMeans(ms: seq<Message>, text: string)
    ensures text in Texts(ms) <==> exists i :: 0 <= i < |ms| && ms[i].Assistant? && text in ms[i].texts
  {
    if ms != [] {
      var n := |ms| - 1;
      TextsMeans(ms[..n], text);
      if i :| 0 <= i < n && ms[..n][i].Assistant? && text in ms[..n][i].texts { assert ms[i].Assistant? && text in ms[i].texts; }
      if i :| 0 <= i < |ms| && ms[i].Assistant? && text in ms[i].texts {
        assert i < n ==> ms[..n][i].Assistant? && text in ms[..n][i].texts;
      }
    }
  }

  function IsReceived(): Event -> bool { (e: Event) => e.Received? }

  /** The messages are those received, in order. */
  lemma {:induction false} MessagesMeans(es: seq<Event>)
    ensures var got := Indices(IsReceived(), es);
      && |Messages(es)| == |got|
      && forall j :: 0 <= j < |got| ==> got[j] < |es| && es[got[j]] == Received(Messages(es)[j])
  {
    if es != [] {
      MessagesMeans(es[..|es| - 1]);
      IndicesSnoc(IsReceived(), es);
      IndicesInside(IsReceived(), es);
    }
  }

  // ---- When a run ends, and with what ----

  /** What ends the run after the messages ms: the end or the failure of the stream, the grace time over a
      held frame, or an accepted frame that nothing can follow. */
  ghost predicate Stops(ms: seq<Message>, e: Event) {
    match e
    case EndOfStream => true
    case PumpFailed => true
    case GraceElapsed => exists k: nat :: Stands(ms, k) && Provisional(ms, k)
    case Received(m) => Accepted(ms + [m], |ms|) && !Provisional(ms + [m], |ms|)
  }

  /** The outcome of a run that e ends: an accepted frame after which it did not go on, if there is one. */
  ghost predicate Ending(ms: seq<Message>, e: Event, outcome: Outcome) {
    match e
    case PumpFailed => outcome == Raised
    case EndOfStream =>
      && (outcome.Final? <==> exists k: nat :: Accepted(ms, k) && !WentOn(ms, k))
      && (forall k: nat :: Stands(ms, k) ==> outcome == Final(ms[k].info))
      && (!outcome.Final? ==> outcome == NoResult)
    case GraceElapsed => forall k: nat :: Stands(ms, k) ==> outcome == Final(ms[k].info)
    case Received(m) => m.Result? && outcome == Final(m.info)
  }

  lemma StandsOnce(ms: seq<Message>, j: nat, k: nat)
    requires Stands(ms, j) && Stands(ms, k)
    ensures j == k
  {
  }

  /** A held result decides how the end of the stream or of the grace time is met. */
  lemma HeldEnds(ms: seq<Message>, held: Option<Info>)
    requires HeldInv(ms, held)
    ensures Stops(ms, GraceElapsed) <==> held.Some?
    ensures Ending(ms, EndOfStream, if held.Some? then Final(held.value) else NoResult)
    ensures held.Some? ==> Ending(ms, GraceElapsed, Final(held.value))
  {
    if held.Some? {
      var k: nat :| Stands(ms, k) && Provisional(ms, k) && ms[k].info == held.value;
      assert Accepted(ms, k) && !WentOn(ms, k);
      hide Accepted, Provisional, WentOn;
      forall j: nat | Stands(ms, j) ensures ms[j].info == held.value { StandsOnce(ms, j, k); }
    }
  }

  // ---- How one more message moves a held result ----

  /** Every accepted frame was withdrawn by a later turn, unless its info is the held one. */
  ghost predicate HeldInv(ms: seq<Message>, held: Option<Info>) {
    && (held.None? ==> forall k: nat :: Accepted(ms, k) ==> WentOn(ms, k))
    && (held.Some? ==> exists k: nat :: Stands(ms, k) && Provisional(ms, k) && ms[k].info == held.value)
  }

  lemma EarlierFrames(ms: seq<Message>, m: Message)
    ensures forall k: nat :: k < |ms| ==> (Accepted(ms + [m], k) <==> Accepted(ms, k))
                                          && (Provisional(ms + [m], k) <==> Provisional(ms, k))
                                          && (ms + [m])[k] == ms[k]
    ensures forall k: nat :: k < |ms| ==>
              (WentOn(ms + [m], k) <==> WentOn(ms, k) || (!m.Lifecycle? && !m.Result?))
    ensures (ms + [m])[..|ms|] == ms
  {
    assert forall k :: 0 <= k < |ms| ==> (ms + [m])[..k] == ms[..k];
    forall k: nat | k < |ms|
      ensures WentOn(ms + [m], k) <==> WentOn(ms, k) || (!m.Lifecycle? && !m.Result?)
    {
      if i :| k < i < |ms| && !ms[i].Lifecycle? && !ms[i].Result? { assert (ms + [m])[i] == ms[i]; }
      if !m.Lifecycle? && !m.Result? { assert (ms + [m])[|ms|] == m; }
    }
  }

  lemma HeldAfterOutput(ms: seq<Message>, held: Option<Info>, m: Message)
    requires HeldInv(ms, held) && !m.Lifecycle? && !m.Result?
    ensures HeldInv(ms + [m], None)
  {
    EarlierFrames(ms, m);
  }

  lemma HeldAfterIgnored(ms: seq<Message>, held: Option<Info>, m: Message)
    requires HeldInv(ms, held) && (m.Lifecycle? || m.Result?) && !Accepted(ms + [m], |ms|)
    ensures HeldInv(ms + [m], held)
  {
    EarlierFrames(ms, m);
    hide IsFreshlySettled, IsInFlight, HasOutput, WentOn;
    if held.Some? {
      var k: nat :| Stands(ms, k) && Provisional(ms, k) && ms[k].info == held.value;
      assert Stands(ms + [m], k) && Provisional(ms + [m], k);
    }
  }

  lemma AcceptedStands(ms: seq<Message>, m: Message)
    requires Accepted(ms + [m], |ms|)
    ensures Stands(ms + [m], |ms|)
    ensures Provisional(ms + [m], |ms|) ==> HeldInv(ms + [m], Some(m.info))
  {
    assert (ms + [m])[|ms|] == m;
  }

  /** What the code tests at a result frame decides whether the frame is accepted and provisional. */
  lemma {:induction false} FrameTest(ms: seq<Message>, info: Info)
    ensures Accepted(ms + [Result(info)], |ms|) <==>
              InFlight(ms) == {} && !(info.numTurns == 0 && !info.isError && Outputs(ms) == 0)
    ensures Provisional(ms + [Result(info)], |ms|) <==>
              Accepted(ms + [Result(info)], |ms|) && Settled(ms) != {} && !info.isError
  {
    assert (ms + [Result(info)])[..|ms|] == ms;
    OutputsMeans(ms);
    if t :| IsInFlight(ms, t) { InFlightMeans(ms, t); }
    if t :| t in InFlight(ms) { InFlightMeans(ms, t); }
    if t :| IsFreshlySettled(ms, t) { SettledMeans(ms, t); }
    if t :| t in Settled(ms) { SettledMeans(ms, t); }
  }

  // ---- The code ----

  class StreamConsumer {
    const collectText: bool
    var inflightTasks: set<string>
    var settledSinceOutput: set<string>
    var assistantMessagesSeen: nat
    var pendingResult: Option<Info>
    var responseParts: seq<string>
    var allMessages: seq<Message>

    ghost predicate Books()
      reads this
    {
      && inflightTasks == InFlight(allMessages)
      && settledSinceOutput == Settled(allMessages)
      && assistantMessagesSeen == Outputs(allMessages)
      && responseParts == (if collectText then Texts(allMessages) else [])
    }

    ghost predicate Valid()
      reads this
    {
      Books() && HeldInv(allMessages, pendingResult)
    }

    constructor (collectText: bool)
      ensures Valid() && allMessages == [] && this.collectText == collectText
    {
      this.collectText := collectText;
      inflightTasks, settledSinceOutput, assistantMessagesSeen, pendingResult := {}, {}, 0, None;
      responseParts, allMessages := [], [];
    }

    /** _track_task_lifecycle. */
    method TrackTaskLifecycle(data: System)
      modifies this`inflightTasks, this`settledSinceOutput
      ensures inflightTasks == Track(old(inflightTasks), Lifecycle(data))
      ensures forall t :: t in inflightTasks <==>
                || (data.taskId == Some(t) && data.subtype == "task_started"
                    && (data.taskType == Some("local_agent") || data.taskType == Some("local_workflow")))
                || (t in old(inflightTasks) && !(data.taskId == Some(t) && IsEnd(data)))
      ensures forall t :: t in settledSinceOutput <==> t in old(settledSinceOutput) || (data.taskId == Some(t) && IsEnd(data))
      ensures settledSinceOutput == TrackSettled(old(settledSinceOutput), Lifecycle(data))
    {
      if data.taskId.None? {
        return;
      }
      var t := data.taskId.value;
      if data.subtype == "task_started" {
        if data.taskType.Some? && data.taskType.value in DEFERRING_TASK_TYPES {
          inflightTasks := inflightTasks + {t};
        }
        return;
      }
      if data.subtype == "task_updated" {
        if data.patchStatus.None? || data.patchStatus.value !in TERMINAL_TASK_STATUSES {
          return;
        }
      } else if data.subtype != "task_notification" {
        return;
      }
      inflightTasks := inflightTasks - {t};
      settledSinceOutput := settledSinceOutput + {t};
    }

    /** An assistant message is output: nothing that settled before it is fresh any more. */
    method TakeOutput(texts: seq<string>)
      requires Books()
      modifies this
      ensures Books() && allMessages == old(allMessages) + [Assistant(texts)] && pendingResult == old(pendingResult)
    {
      hide Settles, Starts;
      BooksAfter(allMessages, Assistant(texts));
      allMessages := allMessages + [Assistant(texts)];
      assistantMessagesSeen := assistantMessagesSeen + 1;
      settledSinceOutput := {};
      if collectText { responseParts := responseParts + texts; }
    }

    /** A result frame: ignored, held, or the end of the run. */
    method TakeFrame(info: Info) returns (final: Option<Info>)
      requires Valid()
      modifies this
      ensures Books() && allMessages == old(allMessages) + [Result(info)]
      ensures final.Some? <==> Accepted(allMessages, |allMessages| - 1) && !Provisional(allMessages, |allMessages| - 1)
      ensures final.None? ==> Valid()
      ensures final.Some? ==> final.value == info && Stands(allMessages, |allMessages| - 1)
                              && !Provisional(allMessages, |allMessages| - 1)
    {
      hide Accepted, Provisional, WentOn, Stands, HeldInv, InFlight, Settled, Outputs, Texts;
      ghost var ms, held := allMessages, pendingResult;
      BooksAfter(ms, Result(info));
      FrameTest(ms, info);
      final := None;
      allMessages := allMessages + [Result(info)];
      var settled := settledSinceOutput;
      settledSinceOutput := {};
      if inflightTasks != {} || (info.numTurns == 0 && !info.isError && assistantMessagesSeen == 0) {
        HeldAfterIgnored(ms, held, Result(info));
      } else {
        AcceptedStands(ms, Result(info));
        if settled != {} && !info.isError {
          pendingResult := Some(info);
        } else {
          final := Some(info);
        }
      }
    }

    /** A system message. */
    method TakeSystem(data: System)
      requires Valid()
      modifies this
      ensures Valid() && allMessages == old(allMessages) + [Lifecycle(data)]
    {
      hide Accepted, HeldInv, InFlight, Settled, Outputs, Texts, Track, TrackSettled;
      BooksAfter(allMessages, Lifecycle(data));
      NotAFrame(allMessages, Lifecycle(data));
      HeldAfterIgnored(allMessages, pendingResult, Lifecycle(data));
      allMessages := allMessages + [Lifecycle(data)];
      TrackTaskLifecycle(data);
    }

    /** What the loop does with one message; Some when the message ends the run. */
    method Consume(m: Message) returns (final: Option<Info>)
      requires Valid()
      modifies this
      ensures Books() && allMessages == old(allMessages) + [m]
      ensures final.None? ==> Valid()
      ensures final.Some? <==> Accepted(allMessages, |allMessages| - 1) && !Provisional(allMessages, |allMessages| - 1)
      ensures final.Some? ==> Stands(allMessages, |allMessages| - 1) && !Provisional(allMessages, |allMessages| - 1)
                              && m == Result(final.value)
    {
      hide Provisional, WentOn, Stands, HeldInv, InFlight, Settled, Outputs, Texts, Accepted;
      if !m.Lifecycle? && !m.Result? {
        HeldAfterOutput(allMessages, pendingResult, m);
        pendingResult := None;
      }
      if !m.Result? { NotAFrame(allMessages, m); }
      final := None;
      match m
      case Assistant(texts) => TakeOutput(texts);
      case Result(info) => final := TakeFrame(info);
      case Lifecycle(data) => TakeSystem(data);
      case Other =>
        BooksAfter(allMessages, m);
        allMessages := allMessages + [m];
    }

    /** The whole loop, over whatever the queue and its timeout deliver: it goes on past every event that does
        not end the run, stops at the first that does, and the outcome is the one that event calls for. */
    method Stream(events: seq<Event>) returns (outcome: Outcome, consumed: nat)
      requires Valid() && allMessages == [] && pendingResult.None?
      modifies this
      ensures consumed <= |events| && Books() && allMessages == Messages(events[..consumed])
      ensures outcome.Final? ==> exists k: nat :: Stands(allMessages, k) && allMessages[k].info == outcome.info
      ensures outcome.Waiting? ==> consumed == |events|
      ensures forall i :: 0 <= i < consumed - (if outcome.Waiting? then 0 else 1) ==>
                !Stops(Messages(events[..i]), events[i])
      ensures !outcome.Waiting? ==>
                consumed > 0 && Stops(Messages(events[..consumed - 1]), events[consumed - 1])
                && Ending(Messages(events[..consumed - 1]), events[consumed - 1], outcome)
    {
      hide Accepted, Provisional, WentOn, Stands, InFlight, Settled, Outputs, Texts, HeldInv, Ending, Stops, Messages;
      consumed := 0;
      NoMessages();
      while consumed < |events|
        invariant consumed <= |events| && Valid() && allMessages == Messages(events[..consumed])
        invariant forall i :: 0 <= i < consumed ==> !Stops(Messages(events[..i]), events[i])
      {
        var e := events[consumed];
        MessagesSnoc(events, consumed);
        HeldEnds(allMessages, pendingResult);
        HeldStands(allMessages, pendingResult);
        EventsOf(allMessages, e);
        consumed := consumed + 1;
        match e
        case GraceElapsed =>
          if pendingResult.Some? {
            return Final(pendingResult.value), consumed;
          }
        case EndOfStream =>
          return (if pendingResult.Some? then Final(pendingResult.value) else NoResult), consumed;
        case PumpFailed =>
          return Raised, consumed;
        case Received(m) =>
          var final := Consume(m);
          if final.Some? {
            return Final(final.value), consumed;
          }
      }
      outcome := Waiting;
    }
  }

  lemma NoMessages()
    ensures Messages([]) == []
  {
  }

  lemma MessagesSnoc(es: seq<Event>, n: nat)
    requires n < |es|
    ensures Messages(es[..n + 1]) == Messages(es[..n]) + if es[n].Received? then [es[n].m] else []
  {
    assert es[..n + 1][..n] == es[..n];
  }

  lemma HeldStands(ms: seq<Message>, held: Option<Info>)
    requires HeldInv(ms, held)
    ensures held.Some? ==> exists k: nat :: Stands(ms, k) && ms[k].info == held.value
  {
  }

  /** What the other events do. */
  lemma EventsOf(ms: seq<Message>, e: Event)
    ensures e.EndOfStream? || e.PumpFailed? ==> Stops(ms, e)
    ensures e.PumpFailed? ==> Ending(ms, e, Raised)
    ensures e.Received? ==>
              (Stops(ms, e) <==> Accepted(ms + [e.m], |ms|) && !Provisional(ms + [e.m], |ms|))
    ensures e.Received? && e.m.Result? ==> Ending(ms, e, Final(e.m.info))
  {
  }

  /** How one more message moves the bookkeeping. */
  lemma BooksAfter(ms: seq<Message>, m: Message)
    ensures InFlight(ms + [m]) == Track(InFlight(ms), m) && Settled(ms + [m]) == TrackSettled(Settled(ms), m)
    ensures Outputs(ms + [m]) == Outputs(ms) + (if m.Assistant? then 1 else 0)
    ensures Texts(ms + [m]) == Texts(ms) + (if m.Assistant? then m.texts else [])
    ensures !m.Lifecycle? ==> Track(InFlight(ms), m) == InFlight(ms)
    ensures m.Assistant? || m.Result? ==> TrackSettled(Settled(ms), m) == {}
    ensures m.Other? ==> TrackSettled(Settled(ms), m) == Settled(ms)
  {
    assert (ms + [m])[..|ms|] == ms;
  }

  lemma NotAFrame(ms: seq<Message>, m: Message)
    requires !m.Result?
    ensures !Accepted(ms + [m], |ms|)
  {
  }
}
