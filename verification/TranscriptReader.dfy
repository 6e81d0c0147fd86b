/** The resumable transcript reader: each hook run reads what was appended since the last one and
    keeps the unfinished last line. Text is taken after decoding, so an offset counts characters
    and a chunk never ends inside one. */
module TranscriptReader {
  import opened Basics
  import opened Text

  datatype SessionState = SessionState(offset: nat, buffer: string, turnCount: nat)

  /** json.loads on a stripped line: None when it raises. */
  type Parser<Row> = string -> Option<Row>

  /** What one line of a transcript yields: blank and unparsable lines yield nothing. */
  function ParseLine<Row>(parse: Parser<Row>, line: string): seq<Row> {
    if Strip(line) == "" then []
    else
      match parse(Strip(line))
      case Some(row) => [row]
      case None => []
  }

  function ParseAll<Row>(parse: Parser<Row>, lines: seq<string>): seq<Row> {
    if lines == [] then [] else ParseAll(parse, lines[..|lines| - 1]) + ParseLine(parse, lines[|lines| - 1])
  }

  lemma {:induction false} ParseAllAdd<Row>(parse: Parser<Row>, a: seq<string>, b: seq<string>)
    ensures ParseAll(parse, a + b) == ParseAll(parse, a) + ParseAll(parse, b)
  {
    hide ParseLine;
    if b == [] {
      assert a + b == a;
    } else {
      ParseAllAdd(parse, a, b[..|b| - 1]);
      assert (a + b)[..|a + b| - 1] == a + b[..|b| - 1];
    }
  }

  /** A line that yields a row: not blank, and the parser takes it. */
  function Accepts<Row>(parse: Parser<Row>): string -> bool {
    (line: string) => Strip(line) != "" && parse(Strip(line)).Some?
  }

  /** The rows are the parses of the lines that yield one, one for each and in their order. */
  ghost predicate RowsOf<Row>(parse: Parser<Row>, lines: seq<string>, rows: seq<Row>) {
    var kept := Indices(Accepts(parse), lines);
    && |rows| == |kept|
    && forall j :: 0 <= j < |kept| ==> kept[j] < |lines| && Some(rows[j]) == parse(Strip(lines[kept[j]]))
  }

  lemma {:induction false} RowsAreAcceptedLines<Row>(parse: Parser<Row>, lines: seq<string>)
    ensures RowsOf(parse, lines, ParseAll(parse, lines))
  {
    if lines != [] {
      hide Strip;
      RowsAreAcceptedLines(parse, lines[..|lines| - 1]);
      IndicesSnoc(Accepts(parse), lines);
      IndicesInside(Accepts(parse), lines);
    }
  }

  /** read_new_jsonl on a file that may not exist yet. */
  function Read<Row>(parse: Parser<Row>, file: Option<string>, ss: SessionState): (seq<Row>, SessionState) {
    if file.None? || |file.value| <= ss.offset then ([], ss)
    else
      var combined := ss.buffer + file.value[ss.offset..];
      (ParseAll(parse, Complete(combined)), ss.(buffer := Partial(combined), offset := |file.value|))
  }

  lemma NothingParsed<Row>(parse: Parser<Row>)
    ensures ParseAll(parse, []) == []
  {
  }

  lemma ParseAllSnoc<Row>(parse: Parser<Row>, lines: seq<string>, i: nat)
    requires i < |lines|
    ensures ParseAll(parse, lines[..i + 1]) == ParseAll(parse, lines[..i]) + ParseLine(parse, lines[i])
  {
    assert lines[..i + 1][..i] == lines[..i];
  }

  // ---- The saved state ----

  function Load(saved: map<string, SessionState>, key: string): SessionState {
    if key in saved then saved[key] else SessionState(0, "", 0)
  }

  function Save(saved: map<string, SessionState>, key: string, ss: SessionState): map<string, SessionState> {
    saved[key := ss]
  }

  // ---- Runs: the transcript grows, the hook runs ----

  datatype Event = Append(text: string) | HookRun | OtherHookRun(key: string, ss: SessionState)

  datatype State<Row> = State(file: Option<string>, saved: map<string, SessionState>, rows: seq<Row>)

  function Apply<Row>(parse: Parser<Row>, key: string, s: State<Row>, e: Event): State<Row> {
    match e
    case Append(text) => s.(file := Some((if s.file.Some? then s.file.value else "") + text))
    case HookRun =>
      var (rows, ss) := Read(parse, s.file, Load(s.saved, key));
      s.(saved := Save(s.saved, key, ss), rows := s.rows + rows)
    case OtherHookRun(other, ss) => if other == key then s else s.(saved := Save(s.saved, other, ss))
  }

  function Run<Row>(parse: Parser<Row>, key: string, es: seq<Event>): State<Row> {
    if es == [] then State(None, map[], [])
    else Apply(parse, key, Run(parse, key, es[..|es| - 1]), es[|es| - 1])
  }

  /** What has been read is the parse of the complete lines before the offset, and the buffer is the rest. */
  ghost predicate ReaderInv<Row>(parse: Parser<Row>, key: string, s: State<Row>) {
    var ss := Load(s.saved, key);
    var file := if s.file.Some? then s.file.value else "";
    && ss.offset <= |file|
    && s.rows == ParseAll(parse, Complete(file[..ss.offset]))
    && ss.buffer == Partial(file[..ss.offset])
  }

  /** Reading on from a saved state gives what reading everything at once would. */
  lemma ReadResumes<Row>(parse: Parser<Row>, file: string, ss: SessionState)
    requires ss.offset <= |file| && ss.buffer == Partial(file[..ss.offset])
    ensures var (rows, t) := Read(parse, Some(file), ss);
      && t.offset == |file| && t.buffer == Partial(file) && t.turnCount == ss.turnCount
      && ParseAll(parse, Complete(file[..ss.offset])) + rows == ParseAll(parse, Complete(file))
  {
    var a, b := file[..ss.offset], file[ss.offset..];
    assert file == a + b;
    if |file| <= ss.offset {
      assert a == file;
    } else {
      SplitResumes(a, b);
      ParseAllAdd(parse, Complete(a), Complete(Partial(a) + b));
    }
  }

  /** In every run the rows so far are the parses of the complete lines before the offset that yield one. */
  lemma EveryRunReadsRows<Row>(parse: Parser<Row>, key: string, es: seq<Event>)
    ensures var s := Run(parse, key, es);
      var ss, file := Load(s.saved, key), if s.file.Some? then s.file.value else "";
      ss.offset <= |file| && RowsOf(parse, Complete(file[..ss.offset]), s.rows)
  {
    EveryRunKeepsReader(parse, key, es);
    var s := Run(parse, key, es);
    var ss, file := Load(s.saved, key), if s.file.Some? then s.file.value else "";
    RowsAreAcceptedLines(parse, Complete(file[..ss.offset]));
  }

  lemma {:induction false} EveryRunKeepsReader<Row>(parse: Parser<Row>, key: string, es: seq<Event>)
    ensures ReaderInv(parse, key, Run(parse, key, es))
  {
    if es == [] {
      SplitNothing('\n');
    } else {
      hide ParseAll, Split;
      EveryRunKeepsReader(parse, key, es[..|es| - 1]);
      StepKeepsReader(parse, key, Run(parse, key, es[..|es| - 1]), es[|es| - 1]);
    }
  }

  lemma StepKeepsReader<Row>(parse: Parser<Row>, key: string, s: State<Row>, e: Event)
    requires ReaderInv(parse, key, s)
    ensures ReaderInv(parse, key, Apply(parse, key, s, e))
  {
    hide ParseAll, Complete, Partial;
    var ss := Load(s.saved, key);
    match e
    case Append(text) =>
      var file := if s.file.Some? then s.file.value else "";
      assert (file + text)[..ss.offset] == file[..ss.offset];
    case HookRun =>
      if s.file.Some? {
        ReadResumes(parse, s.file.value, ss);
        assert s.file.value[..|s.file.value|] == s.file.value;
      }
    case OtherHookRun(other, t) =>
  }

  /** However the transcript was cut into appends and hook runs: after a hook run, the rows returned
      so far are those of one reading of the whole file. */
  lemma IncrementalEqualsOneShot<Row>(parse: Parser<Row>, key: string, es: seq<Event>)
    ensures var s := Run(parse, key, es + [HookRun]);
      s.file.Some? ==> s.rows == ParseAll(parse, Complete(s.file.value))
                       && s.rows == Read(parse, s.file, SessionState(0, "", 0)).0
  {
    EveryRunKeepsReader(parse, key, es);
    EveryRunKeepsReader(parse, key, es + [HookRun]);
    var s := Run(parse, key, es);
    assert (es + [HookRun])[..|es|] == es;
    if s.file.Some? {
      ReadResumes(parse, s.file.value, Load(s.saved, key));
      assert s.file.value[..|s.file.value|] == s.file.value;
      assert "" + s.file.value[0..] == s.file.value;
    }
  }

  // ---- The code ----

  class Reader<Row> {
    const parse: Parser<Row>
    var offset: nat
    var buffer: string
    var turnCount: nat

    function Session(): SessionState
      reads this
    {
      SessionState(offset, buffer, turnCount)
    }

    /** load_session_state. */
    constructor (parse: Parser<Row>, saved: map<string, SessionState>, key: string)
      ensures this.parse == parse && Session() == Load(saved, key)
      ensures Session() == if key in saved then saved[key] else SessionState(0, "", 0)
    {
      this.parse := parse;
      var ss := if key in saved then saved[key] else SessionState(0, "", 0);
      offset, buffer, turnCount := ss.offset, ss.buffer, ss.turnCount;
    }

    /** read_new_jsonl. */
    method ReadNewJsonl(file: Option<string>) returns (msgs: seq<Row>)
      modifies this
      ensures (msgs, Session()) == Read(parse, file, old(Session()))
      ensures turnCount == old(turnCount)
      ensures if file.None? || |file.value| <= old(offset) then msgs == [] && Session() == old(Session())
              else var text := old(buffer) + file.value[old(offset)..];
                   RowsOf(parse, Complete(text), msgs) && buffer == Partial(text) && offset == |file.value|
    {
      hide ParseAll, RowsOf, Split;
      msgs := [];
      NothingParsed(parse);
      if file.None? || |file.value| <= offset {
        return;
      }
      var chunk := file.value[offset..];
      var lines := Lines(buffer + chunk);
      buffer := lines[|lines| - 1];
      offset := |file.value|;
      for i := 0 to |lines| - 1
        invariant msgs == ParseAll(parse, lines[..i])
        invariant Session() == old(Session()).(buffer := Partial(old(buffer) + chunk), offset := |file.value|)
      {
        ParseAllSnoc(parse, lines, i);
        var line := Strip(lines[i]);
        if line == "" {
          continue;
        }
        match parse(line)
        case Some(row) => msgs := msgs + [row];
        case None =>
      }
      RowsAreAcceptedLines(parse, Complete(old(buffer) + chunk));
      assert lines[..|lines| - 1] == Complete(old(buffer) + chunk);
      assert msgs == ParseAll(parse, Complete(old(buffer) + chunk));
    }

    /** write_session_state. */
    method WriteSessionState(saved: map<string, SessionState>, key: string) returns (r: map<string, SessionState>)
      ensures Load(r, key) == Session()
      ensures forall other :: other != key ==> Load(r, other) == Load(saved, other)
    {
      r := saved[key := Session()];
    }
  }
}
