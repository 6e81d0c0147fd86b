/** The session token: four strings as a JSON array, in base64url without padding. A Python string is
    a sequence of code points, surrogates included; the JSON text and the token have none. */
module SessionToken {
  import opened Basics

  type Code = c: int | 0 <= c < 0x110000
  type Byte = b: int | 0 <= b < 256
  type Value = seq<Code>

  /** What json.loads returns. The keys are all that is asked of an object. */
  datatype Json = JString(value: Value) | JArray(items: seq<Json>) | JObject(keys: set<Value>) | JScalar

  /** The library code on inputs that no token of the encoder leads to: UTF-8 beyond ASCII, and JSON
      values that are neither strings nor arrays. */
  datatype Library = Library(utf8: seq<Byte> -> Option<string>, scan: string -> Option<(Json, string)>)

  datatype Key = Key(repo: Value, threadType: Value, threadId: Value, workflow: Value)

  /** HTTP 400, or an exception that decode_session_token does not catch. */
  datatype Decoded = Parts(key: Key) | BadRequest | ServerError

  // ---- JSON strings (section 7 of RFC 8259) ----

  predicate High(c: int) { 0xD800 <= c < 0xDC00 }
  predicate Low(c: int) { 0xDC00 <= c < 0xE000 }

  function JoinPair(h: int, l: int): (c: Code)
    requires High(h) && Low(l)
    ensures c >= 0x10000
  {
    0x10000 + (h - 0xD800) * 0x400 + (l - 0xDC00)
  }

  function HexDigit(d: nat): char
    requires d < 16
  {
    if d < 10 then '0' + d as char else 'a' + (d - 10) as char
  }

  function HexValue(c: char): (r: Option<nat>)
    ensures r.Some? ==> r.value < 16
  {
    if '0' <= c <= '9' then Some((c - '0') as nat)
    else if 'a' <= c <= 'f' then Some((c - 'a') as nat + 10)
    else if 'A' <= c <= 'F' then Some((c - 'A') as nat + 10)
    else None
  }

  function Hex4(n: nat): string
    requires n < 0x10000
  {
    [HexDigit(n / 0x1000), HexDigit(n / 0x100 % 16), HexDigit(n / 16 % 16), HexDigit(n % 16)]
  }

  function ReadHex4(s: string): (r: Option<nat>)
    ensures r.Some? ==> |s| >= 4 && r.value < 0x10000
  {
    if |s| < 4 then None
    else
      var a, b, c, d := HexValue(s[0]), HexValue(s[1]), HexValue(s[2]), HexValue(s[3]);
      if a.None? || b.None? || c.None? || d.None? then None
      else Some(((a.value * 16 + b.value) * 16 + c.value) * 16 + d.value)
  }

  /** A code point inside a string, as json.dumps writes it with ensure_ascii. */
  function EscapeCode(c: Code): string {
    if c == '"' as int then "\\\""
    else if c == '\\' as int then "\\\\"
    else if c == 10 then "\\n"
    else if c == 13 then "\\r"
    else if c == 9 then "\\t"
    else if c == 12 then "\\f"
    else if c == 8 then "\\b"
    else if ' ' as int <= c <= '~' as int then [c as char]
    else if c < 0x10000 then "\\u" + Hex4(c)
    else "\\u" + Hex4(0xD800 + (c - 0x10000) / 0x400) + "\\u" + Hex4(0xDC00 + (c - 0x10000) % 0x400)
  }

  function Escape(v: Value): string { if v == [] then "" else EscapeCode(v[0]) + Escape(v[1..]) }

  function Quote(v: Value): string { "\"" + Escape(v) + "\"" }

  /** \uXXXX after its "\u", joined with a following escape if the two are a surrogate pair. */
  function ReadUnicode(s: string): (r: Option<(Code, string)>)
    ensures r.Some? ==> |r.value.1| < |s|
  {
    match ReadHex4(s)
    case None => None
    case Some(h) =>
      if High(h) && |s| >= 6 && s[4] == '\\' && s[5] == 'u' then
        match ReadHex4(s[6..])
        case None => None
        case Some(l) => if Low(l) then Some((JoinPair(h, l), s[10..])) else Some((h, s[4..]))
      else Some((h, s[4..]))
  }

  /** One character of a string. */
  function ReadChar(s: string): (r: Option<(Code, string)>)
    requires s != ""
    ensures r.Some? ==> |r.value.1| < |s|
  {
    if s[0] != '\\' then if s[0] < ' ' then None else Some((s[0] as int, s[1..]))
    else if |s| < 2 then None
    else
      match s[1]
      case '"' => Some(('"' as int, s[2..]))
      case '\\' => Some(('\\' as int, s[2..]))
      case '/' => Some(('/' as int, s[2..]))
      case 'b' => Some((8, s[2..]))
      case 'f' => Some((12, s[2..]))
      case 'n' => Some((10, s[2..]))
      case 'r' => Some((13, s[2..]))
      case 't' => Some((9, s[2..]))
      case 'u' => ReadUnicode(s[2..])
      case _ => None
  }

  /** A string after its opening quote. */
  function ReadString(s: string): (r: Option<(Value, string)>)
    ensures r.Some? ==> |r.value.1| < |s|
    decreases |s|
  {
    if s == "" then None
    else if s[0] == '"' then Some(([], s[1..]))
    else
      match ReadChar(s)
      case None => None
      case Some((c, rest)) =>
        match ReadString(rest)
        case None => None
        case Some((v, after)) => Some(([c] + v, after))
  }

  /** A string with every surrogate pair in it joined, from the left. */
  function Merge(v: Value): Value {
    if v == [] then []
    else if |v| >= 2 && High(v[0]) && Low(v[1]) then [JoinPair(v[0], v[1])] + Merge(v[2..])
    else [v[0]] + Merge(v[1..])
  }

  predicate HasPair(v: Value) { exists i :: 0 <= i && i + 1 < |v| && High(v[i]) && Low(v[i + 1]) }

  lemma ReadsHex4(n: nat, rest: string)
    requires n < 0x10000
    ensures |Hex4(n)| == 4 && ReadHex4(Hex4(n) + rest) == Some(n) && (Hex4(n) + rest)[4..] == rest
  {
    var a, b, c, d := n / 0x1000, n / 0x100 % 16, n / 16 % 16, n % 16;
    ReadsDigit(a);
    ReadsDigit(b);
    ReadsDigit(c);
    ReadsDigit(d);
    HexSum(n);
    hide HexDigit, HexValue;
    var s := Hex4(n) + rest;
    assert s[0] == HexDigit(a) && s[1] == HexDigit(b) && s[2] == HexDigit(c) && s[3] == HexDigit(d);
  }

  lemma HexSum(n: nat)
    ensures n == n / 0x1000 * 0x1000 + n / 0x100 % 16 * 0x100 + n / 16 % 16 * 16 + n % 16
  {
    assert n / 16 / 16 == n / 0x100 && n / 0x100 / 16 == n / 0x1000;
    assert n / 0x100 == n / 0x1000 * 16 + n / 0x100 % 16;
    assert n / 16 == n / 0x100 * 16 + n / 16 % 16;
  }

  lemma ReadsDigit(d: nat)
    requires d < 16
    ensures HexValue(HexDigit(d)) == Some(d)
  {
  }

  /** A code point that is escaped as one \uXXXX. */
  predicate Escaped(c: Code) {
    c < 0x10000 && c !in {8, 9, 10, 12, 13, '"' as int, '\\' as int} && !(' ' as int <= c <= '~' as int)
  }

  lemma EscapesOf(c: Code)
    ensures Escaped(c) ==> c < 0x10000 && EscapeCode(c) == "\\u" + Hex4(c)
    ensures High(c) || Low(c) ==> Escaped(c)
    ensures !Escaped(c) && c < 0x10000 ==> |EscapeCode(c)| == 1 || (|EscapeCode(c)| == 2 && EscapeCode(c)[1] != 'u')
    ensures !Escaped(c) && c < 0x10000 && |EscapeCode(c)| == 1 ==> EscapeCode(c)[0] != '\\'
  {
  }

  lemma ReadsShort(c: Code, rest: string)
    requires c < 0x10000 && !Escaped(c)
    ensures ReadChar(EscapeCode(c) + rest) == Some((c, rest)) && (EscapeCode(c) + rest)[0] != '"'
  {
    hide Hex4, ReadHex4, ReadUnicode;
    var s := EscapeCode(c) + rest;
    assert s[|EscapeCode(c)|..] == rest;
  }

  lemma ReadsEscaped(c: Code, rest: string)
    requires Escaped(c) && !High(c)
    ensures ReadChar(EscapeCode(c) + rest) == Some((c, rest)) && (EscapeCode(c) + rest)[0] == '\\'
  {
    EscapesOf(c);
    hide Hex4, ReadHex4, EscapeCode, Escaped;
    var s := Hex4(c) + rest;
    assert EscapeCode(c) + rest == "\\u" + s;
    ReadsHex4(c, rest);
    assert ("\\u" + s)[2..] == s;
  }

  /** The reader takes one character off an escaped string, or a surrogate pair at once. */
  lemma ReadsChar(v: Value, tail: string)
    requires v != [] && tail != "" && tail[0] == '"'
    ensures Escape(v) + tail != "" && (Escape(v) + tail)[0] != '"'
    ensures ReadChar(Escape(v) + tail)
            == if |v| >= 2 && High(v[0]) && Low(v[1]) then Some((JoinPair(v[0], v[1]), Escape(v[2..]) + tail))
               else Some((v[0], Escape(v[1..]) + tail))
  {
    hide Hex4, ReadHex4, ReadChar, EscapeCode, JoinPair;
    assert Escape(v) + tail == EscapeCode(v[0]) + (Escape(v[1..]) + tail);
    if High(v[0]) { ReadsHigh(v, tail); } else { ReadsCode(v[0], Escape(v[1..]) + tail); }
  }

  lemma ReadsCode(c: Code, rest: string)
    requires !High(c)
    ensures ReadChar(EscapeCode(c) + rest) == Some((c, rest)) && (EscapeCode(c) + rest)[0] != '"'
  {
    hide ReadChar, EscapeCode, Escaped;
    if c >= 0x10000 {
      ReadsAstral(c, rest);
    } else if Escaped(c) {
      ReadsEscaped(c, rest);
    } else {
      ReadsShort(c, rest);
    }
  }

  lemma Halves(c: Code) returns (h: Code, l: Code)
    requires c >= 0x10000
    ensures High(h) && Low(l) && JoinPair(h, l) == c && EscapeCode(c) == "\\u" + Hex4(h) + "\\u" + Hex4(l)
  {
    hide Hex4;
    h, l := 0xD800 + (c - 0x10000) / 0x400, 0xDC00 + (c - 0x10000) % 0x400;
  }

  lemma ReadsAstral(c: Code, rest: string)
    requires c >= 0x10000
    ensures ReadChar(EscapeCode(c) + rest) == Some((c, rest)) && (EscapeCode(c) + rest)[0] == '\\'
  {
    hide Hex4, ReadHex4;
    var h, l := Halves(c);
    var second := "\\u" + (Hex4(l) + rest);
    assert EscapeCode(c) + rest == "\\u" + (Hex4(h) + second);
    hide EscapeCode, JoinPair;
    ReadsHex4(h, second);
    ReadsHex4(l, rest);
    var s := Hex4(h) + second;
    assert ("\\u" + s)[2..] == s && s[4] == '\\' && s[5] == 'u' && s[6..] == Hex4(l) + rest && s[10..] == rest;
  }

  lemma ReadsHigh(v: Value, tail: string)
    requires v != [] && High(v[0]) && tail != "" && tail[0] == '"'
    ensures (EscapeCode(v[0]) + (Escape(v[1..]) + tail))[0] == '\\'
    ensures ReadChar(EscapeCode(v[0]) + (Escape(v[1..]) + tail))
            == if |v| >= 2 && Low(v[1]) then Some((JoinPair(v[0], v[1]), Escape(v[2..]) + tail))
               else Some((v[0], Escape(v[1..]) + tail))
  {
    hide EscapeCode, ReadChar, ReadHex4, Hex4;
    if |v| >= 2 {
      assert Escape(v[1..]) + tail == EscapeCode(v[1]) + (Escape(v[2..]) + tail) by { assert v[1..][1..] == v[2..]; }
      NextEscape(v[1], Escape(v[2..]) + tail);
    } else {
      assert Escape(v[1..]) + tail == tail;
    }
    hide *;
    UnicodeThen(v[0], Escape(v[1..]) + tail);
    HighThen(v[0], Escape(v[1..]) + tail);
  }

  lemma HighThen(h: Code, rest: string)
    requires High(h)
    ensures (EscapeCode(h) + rest)[0] == '\\' && ReadChar(EscapeCode(h) + rest) == ReadUnicode(Hex4(h) + rest)
  {
    EscapesOf(h);
    hide Hex4, EscapeCode, ReadChar, ReadUnicode, Escaped;
    assert EscapeCode(h) + rest == "\\u" + (Hex4(h) + rest);
    ReadsBackslashU(Hex4(h) + rest);
  }

  lemma ReadsBackslashU(s: string)
    ensures ReadChar("\\u" + s) == ReadUnicode(s)
  {
    assert ("\\u" + s)[2..] == s;
  }

  /** A high surrogate's escape, by what follows it. */
  lemma UnicodeThen(h: Code, rest: string)
    requires High(h)
    requires |rest| >= 2 && rest[0] == '\\' && rest[1] == 'u' ==> ReadHex4(rest[2..]).Some?
    ensures ReadUnicode(Hex4(h) + rest)
            == if |rest| >= 2 && rest[0] == '\\' && rest[1] == 'u' && Low(ReadHex4(rest[2..]).value)
               then Some((JoinPair(h, ReadHex4(rest[2..]).value), rest[6..]))
               else Some((h, rest))
  {
    ReadsHex4(h, rest);
    hide Hex4, ReadHex4;
    var s := Hex4(h) + rest;
    if |rest| >= 2 {
      assert s[4] == rest[0] && s[5] == rest[1] && s[6..] == rest[2..];
      if |rest| >= 6 { assert s[10..] == rest[6..]; }
    }
  }

  /** What a character looks like to a high surrogate before it. */
  lemma NextEscape(c: Code, rest: string)
    ensures var s := EscapeCode(c) + rest;
      && s != "" && (Low(c) ==> |s| >= 6 && s[0] == '\\' && s[1] == 'u' && ReadHex4(s[2..]) == Some(c) && s[6..] == rest)
      && (!Low(c) && |s| >= 2 && s[0] == '\\' && s[1] == 'u' ==> ReadHex4(s[2..]).Some? && !Low(ReadHex4(s[2..]).value))
  {
    hide Hex4, ReadHex4, EscapeCode, Escaped, JoinPair;
    var s := EscapeCode(c) + rest;
    EscapesOf(c);
    if c >= 0x10000 {
      var h, l := Halves(c);
      ReadsHex4(h, "\\u" + Hex4(l) + rest);
      assert s[2..] == Hex4(h) + ("\\u" + Hex4(l) + rest);
    } else if Escaped(c) {
      ReadsHex4(c, rest);
      assert s[2..] == Hex4(c) + rest;
    } else {
      assert s[0] == EscapeCode(c)[0] && (|EscapeCode(c)| == 2 ==> s[1] == EscapeCode(c)[1]);
    }
  }

  /** Reading an escaped string gives it back with its surrogate pairs joined. */
  lemma {:induction false} ReadsString(v: Value, tail: string)
    requires tail != "" && tail[0] == '"'
    ensures ReadString(Escape(v) + tail) == Some((Merge(v), tail[1..]))
    decreases |v|
  {
    hide ReadChar, EscapeCode;
    if v == [] {
      assert Escape(v) + tail == tail;
    } else {
      ReadsChar(v, tail);
      if |v| >= 2 && High(v[0]) && Low(v[1]) { ReadsString(v[2..], tail); } else { ReadsString(v[1..], tail); }
    }
  }

  lemma {:induction false} MergeKeepsIffNoPair(v: Value)
    ensures |Merge(v)| <= |v|
    ensures Merge(v) == v <==> !HasPair(v)
    ensures HasPair(v) ==> |Merge(v)| < |v|
    decreases |v|
  {
    if v != [] {
      if |v| >= 2 && High(v[0]) && Low(v[1]) {
        MergeKeepsIffNoPair(v[2..]);
      } else {
        MergeKeepsIffNoPair(v[1..]);
        assert v == [v[0]] + v[1..];
        if i :| 0 <= i && i + 1 < |v| && High(v[i]) && Low(v[i + 1]) {
          assert High(v[1..][i - 1]) && Low(v[1..][i]);
        }
        if HasPair(v[1..]) {
          var i :| 0 <= i && i + 1 < |v[1..]| && High(v[1..][i]) && Low(v[1..][i + 1]);
          assert High(v[i + 1]) && Low(v[i + 2]);
        }
      }
    }
  }

  /** Joining a pair changes nothing in what is written. */
  lemma {:induction false} MergeWritesTheSame(v: Value)
    ensures Escape(Merge(v)) == Escape(v)
    decreases |v|
  {
    hide EscapeCode, JoinPair, High, Low;
    if v != [] {
      if |v| >= 2 && High(v[0]) && Low(v[1]) {
        MergeWritesTheSame(v[2..]);
        PairWritesTwo(v[0], v[1]);
        assert v[1..][1..] == v[2..];
        assert ([JoinPair(v[0], v[1])] + Merge(v[2..]))[1..] == Merge(v[2..]);
        assert Escape(v) == EscapeCode(v[0]) + (EscapeCode(v[1]) + Escape(v[2..]));
      } else {
        MergeWritesTheSame(v[1..]);
        assert ([v[0]] + Merge(v[1..]))[1..] == Merge(v[1..]);
      }
    }
  }

  lemma PairWritesTwo(h: Code, l: Code)
    requires High(h) && Low(l)
    ensures EscapeCode(JoinPair(h, l)) == EscapeCode(h) + EscapeCode(l)
  {
    hide Hex4, EscapeCode;
    var x, y := Halves(JoinPair(h, l));
    JoinIsInjective(x, y, h, l);
    EscapesOf(h);
    EscapesOf(l);
    assert "\\u" + Hex4(h) + "\\u" + Hex4(l) == EscapeCode(h) + EscapeCode(l);
  }

  lemma JoinIsInjective(x: int, y: int, h: int, l: int)
    requires High(x) && Low(y) && High(h) && Low(l) && JoinPair(x, y) == JoinPair(h, l)
    ensures x == h && y == l
  {
  }

  // ---- JSON arrays ----

  function SkipSpace(s: string): (r: string)
    ensures |r| <= |s|
  {
    if s != "" && s[0] in {' ', '\t', '\n', '\r'} then SkipSpace(s[1..]) else s
  }

  function ReadValue(lib: Library, s: string): (r: Option<(Json, string)>)
    ensures r.Some? ==> |r.value.1| < |s|
    decreases |s|, 0
  {
    if s == "" then None
    else if s[0] == '"' then
      match ReadString(s[1..])
      case None => None
      case Some((v, rest)) => Some((JString(v), rest))
    else if s[0] == '[' then
      var r := SkipSpace(s[1..]);
      if r != "" && r[0] == ']' then Some((JArray([]), r[1..]))
      else
        match ReadItems(lib, r)
        case None => None
        case Some((items, rest)) => Some((JArray(items), rest))
    else
      match lib.scan(s)
      case None => None
      case Some((v, rest)) => if |rest| < |s| then Some((v, rest)) else None
  }

  function ReadItems(lib: Library, s: string): (r: Option<(seq<Json>, string)>)
    ensures r.Some? ==> |r.value.1| < |s|
    decreases |s|, 1
  {
    match ReadValue(lib, s)
    case None => None
    case Some((v, rest)) =>
      var r := SkipSpace(rest);
      if r == "" then None
      else if r[0] == ']' then Some(([v], r[1..]))
      else if r[0] != ',' then None
      else
        match ReadItems(lib, SkipSpace(r[1..]))
        case None => None
        case Some((items, after)) => Some(([v] + items, after))
  }

  function Loads(lib: Library, s: string): Option<Json> {
    if s != "" && s[0] == '\U{feff}' then None
    else
      match ReadValue(lib, SkipSpace(s))
      case None => None
      case Some((v, rest)) => if SkipSpace(rest) == "" then Some(v) else None
  }

  function DumpsItems(parts: seq<Value>): string
    requires parts != []
  {
    if |parts| == 1 then Quote(parts[0]) else Quote(parts[0]) + ", " + DumpsItems(parts[1..])
  }

  /** json.dumps of a list of strings. */
  function Dumps(parts: seq<Value>): string { if parts == [] then "[]" else "[" + DumpsItems(parts) + "]" }

  function Merged(parts: seq<Value>): seq<Json> {
    if parts == [] then [] else [JString(Merge(parts[0]))] + Merged(parts[1..])
  }

  lemma ReadsQuoted(lib: Library, v: Value, rest: string)
    ensures ReadValue(lib, Quote(v) + rest) == Some((JString(Merge(v)), rest))
  {
    assert Quote(v) + rest == ['"'] + (Escape(v) + ("\"" + rest));
    ReadsString(v, "\"" + rest);
  }

  lemma SkipsOne(rest: string)
    requires rest != "" && rest[0] == '"'
    ensures SkipSpace(", " + rest) == ", " + rest && SkipSpace((", " + rest)[1..]) == rest
  {
    assert (", " + rest)[1..] == " " + rest && (" " + rest)[1..] == rest;
    assert SkipSpace(rest) == rest;
  }

  lemma {:induction false} ReadsItems(lib: Library, parts: seq<Value>, tail: string)
    requires parts != []
    ensures ReadItems(lib, DumpsItems(parts) + ("]" + tail)) == Some((Merged(parts), tail))
    ensures DumpsItems(parts) != "" && DumpsItems(parts)[0] == '"'
  {
    hide ReadValue, Merge, Escape;
    if |parts| == 1 {
      ReadsQuoted(lib, parts[0], "]" + tail);
      MergedOne(parts[0], []);
      assert parts == [parts[0]] + [] && Merged([]) == [];
      assert Merged(parts) == [JString(Merge(parts[0]))];
      assert SkipSpace("]" + tail) == "]" + tail && ("]" + tail)[1..] == tail;
      assert DumpsItems(parts) == Quote(parts[0]);
      assert ReadItems(lib, Quote(parts[0]) + ("]" + tail)) == Some(([JString(Merge(parts[0]))], tail));
    } else {
      var rest := DumpsItems(parts[1..]) + ("]" + tail);
      ReadsItems(lib, parts[1..], tail);
      ReadsQuoted(lib, parts[0], ", " + rest);
      assert DumpsItems(parts) + ("]" + tail) == Quote(parts[0]) + (", " + rest);
      SkipsOne(rest);
    }
  }

  /** Reading a dumped list takes it off the front of a text. */
  lemma ReadsDumps(lib: Library, parts: seq<Value>, tail: string)
    ensures ReadValue(lib, Dumps(parts) + tail) == Some((JArray(Merged(parts)), tail))
    ensures Dumps(parts) != "" && Dumps(parts)[0] == '['
  {
    hide ReadItems, DumpsItems, Merged;
    NothingMerged();
    if parts == [] {
      assert Dumps(parts) + tail == "[" + ("]" + tail);
      assert ("[" + ("]" + tail))[1..] == "]" + tail && ("]" + tail)[1..] == tail;
    } else {
      ReadsItems(lib, parts, tail);
      var inner := DumpsItems(parts) + ("]" + tail);
      assert Dumps(parts) + tail == "[" + inner && ("[" + inner)[1..] == inner;
      assert SkipSpace(inner) == inner;
    }
  }

  /** Items that no comma separates are refused. */
  lemma ItemsNeedCommas(lib: Library, v: Value, c: char, rest: string)
    requires c != ',' && c != ']' && c != ' ' && c != '\t' && c != '\n' && c != '\r'
    ensures ReadItems(lib, Quote(v) + ([c] + rest)) == None
  {
    hide ReadValue, Merge, Quote;
    ReadsQuoted(lib, v, [c] + rest);
  }

  lemma NothingMerged()
    ensures Merged([]) == []
  {
  }

  /** Loading a dumped list of strings gives the list, with surrogate pairs joined. */
  lemma LoadsDumps(lib: Library, parts: seq<Value>)
    ensures Loads(lib, Dumps(parts)) == Some(JArray(Merged(parts)))
  {
    hide ReadValue, Merged, Dumps;
    ReadsDumps(lib, parts, "");
    assert Dumps(parts) + "" == Dumps(parts);
  }

  predicate AllSpace(s: string) { forall i :: 0 <= i < |s| ==> s[i] == ' ' || s[i] == '\t' || s[i] == '\n' || s[i] == '\r' }

  lemma {:induction false} SkipsAllSpace(space: string, s: string)
    requires AllSpace(space) && (s == "" || !AllSpace([s[0]]))
    ensures SkipSpace(space + s) == s
  {
    if space == "" {
      assert space + s == s;
      assert s != "" ==> [s[0]][0] == s[0];
    } else {
      assert (space + s)[1..] == space[1..] + s;
      SkipsAllSpace(space[1..], s);
    }
  }

  /** Whitespace around the list is skipped; anything else after it, or a byte order mark before, is refused. */
  lemma LoadsAround(lib: Library, parts: seq<Value>, before: string, after: string, rest: string)
    requires AllSpace(before) && AllSpace(after) && (rest != "" ==> !AllSpace([rest[0]]))
    ensures Loads(lib, before + (Dumps(parts) + (after + rest)))
            == if rest == "" then Some(JArray(Merged(parts))) else None
    ensures Loads(lib, ['\U{feff}'] + before) == None
  {
    hide ReadValue, Merged, Dumps;
    ReadsDumps(lib, parts, after + rest);
    var text := Dumps(parts) + (after + rest);
    assert text[0] == '[' && [text[0]][0] == '[';
    SkipsAllSpace(before, text);
    SkipsAllSpace(after, rest);
  }

  /** In a string: a control character is refused, any other plain character stands for itself, a slash may
      be escaped, and the digits of an escape may be of either case. */
  lemma StringsRead(c: char, rest: string)
    ensures c < ' ' ==> ReadString([c] + rest) == None
    ensures c >= ' ' && c != '"' && c != '\\' ==> ReadChar([c] + rest) == Some((c as int, rest))
    ensures ReadChar("\\/" + rest) == Some(('/' as int, rest))
    ensures HexValue('a') == HexValue('A') == Some(10) && HexValue('f') == HexValue('F') == Some(15)
  {
    assert ([c] + rest)[1..] == rest && ("\\/" + rest)[2..] == rest;
  }


  // ---- base64url (sections 4 and 5 of RFC 4648) ----

  predicate UrlSafe(c: char) { 'A' <= c <= 'Z' || 'a' <= c <= 'z' || '0' <= c <= '9' || c == '-' || c == '_' }

  function Symbol(n: nat): char
    requires n < 64
  {
    if n < 26 then 'A' + n as char
    else if n < 52 then 'a' + (n - 26) as char
    else if n < 62 then '0' + (n - 52) as char
    else if n == 62 then '-' else '_'
  }

  /** The decoder turns - and _ into + and / first, so it takes either alphabet. */
  function SymbolValue(c: char): (r: Option<nat>)
    ensures r.Some? ==> r.value < 64
  {
    if 'A' <= c <= 'Z' then Some((c - 'A') as nat)
    else if 'a' <= c <= 'z' then Some((c - 'a') as nat + 26)
    else if '0' <= c <= '9' then Some((c - '0') as nat + 52)
    else if c == '-' || c == '+' then Some(62)
    else if c == '_' || c == '/' then Some(63)
    else None
  }

  function Base64(b: seq<Byte>): string {
    if b == [] then ""
    else if |b| == 1 then [Symbol(b[0] / 4), Symbol(b[0] % 4 * 16)] + "=="
    else if |b| == 2 then [Symbol(b[0] / 4), Symbol(b[0] % 4 * 16 + b[1] / 16), Symbol(b[1] % 16 * 4)] + "="
    else
      [Symbol(b[0] / 4), Symbol(b[0] % 4 * 16 + b[1] / 16), Symbol(b[1] % 16 * 4 + b[2] / 64), Symbol(b[2] % 64)]
      + Base64(b[3..])
  }

  /** rstrip("="). */
  function StripPadding(s: string): string {
    if s != "" && s[|s| - 1] == '=' then StripPadding(s[..|s| - 1]) else s
  }

  /** The padding that the length calls for. */
  function Pad(token: string): string {
    var padding := 4 - |token| % 4;
    if padding != 4 then token + seq(padding, i => '=') else token
  }

  function Prepend(b: Byte, r: Option<seq<Byte>>): Option<seq<Byte>> {
    if r.Some? then Some([b] + r.value) else None
  }

  /** binascii's decoder without strict mode: quad symbols of a group are read, `left` holds the bits of
      the last of them that no byte has used, and pads counts the = signs in a row. */
  function Scan(s: string, quad: nat, left: nat, pads: nat): Option<seq<Byte>>
    requires quad < 4 && (quad == 1 ==> left < 64) && (quad == 2 ==> left < 16) && (quad == 3 ==> left < 4)
    decreases |s|
  {
    if s == "" then if quad == 0 then Some([]) else None
    else if s[0] == '=' then
      if quad >= 2 && quad + pads + 1 >= 4 then Some([])
      else Scan(s[1..], quad, left, if quad >= 2 then pads + 1 else pads)
    else
      match SymbolValue(s[0])
      case None => Scan(s[1..], quad, left, pads)
      case Some(v) =>
        match quad
        case 0 => Scan(s[1..], 1, v, 0)
        case 1 => Prepend(left * 4 + v / 16, Scan(s[1..], 2, v % 16, 0))
        case 2 => Prepend(left * 16 + v / 4, Scan(s[1..], 3, v % 4, 0))
        case _ => Prepend(left * 64 + v, Scan(s[1..], 0, 0, 0))
  }

  lemma SymbolsRead()
    ensures forall n: nat :: n < 64 ==>
              SymbolValue(Symbol(n)) == Some(n) && Symbol(n) != '=' && UrlSafe(Symbol(n))
  {
  }

  lemma ScanSymbol(n: nat, rest: string, quad: nat, left: nat, pads: nat)
    requires n < 64
    requires quad < 4 && (quad == 1 ==> left < 64) && (quad == 2 ==> left < 16) && (quad == 3 ==> left < 4)
    ensures Scan([Symbol(n)] + rest, quad, left, pads)
            == match quad
               case 0 => Scan(rest, 1, n, 0)
               case 1 => Prepend(left * 4 + n / 16, Scan(rest, 2, n % 16, 0))
               case 2 => Prepend(left * 16 + n / 4, Scan(rest, 3, n % 4, 0))
               case _ => Prepend(left * 64 + n, Scan(rest, 0, 0, 0))
  {
    SymbolsRead();
    assert ([Symbol(n)] + rest)[1..] == rest;
  }

  /** Decoding an encoding gives the bytes back. */
  lemma {:induction false} ScanReadsBase64(b: seq<Byte>, pads: nat)
    ensures Scan(Base64(b), 0, 0, pads) == Some(b)
  {
    hide Symbol, Base64, Scan;
    if b == [] {
      NoBytes();
      EndOfGroups(pads);
    } else if |b| == 1 {
      ScanOneByte(b[0], pads);
      assert b == [b[0]];
    } else if |b| == 2 {
      ScanTwoBytes(b[0], b[1], pads);
      assert b == [b[0], b[1]];
    } else {
      ScanGroup(b, pads);
      ScanReadsBase64(b[3..], 0);
      assert b == [b[0]] + ([b[1]] + ([b[2]] + b[3..]));
    }
  }

  lemma EndOfGroups(pads: nat)
    ensures Scan("", 0, 0, pads) == Some([])
  {
  }

  lemma ScanPadding(left: nat)
    requires left < 16
    ensures Scan("==", 2, left, 0) == Some([])
    ensures left < 4 ==> Scan("=", 3, left, 0) == Some([])
  {
    assert "=="[1..] == "=";
  }

  lemma ScanOneByte(x: Byte, pads: nat)
    ensures Scan(Base64([x]), 0, 0, pads) == Some([x])
  {
    hide Symbol, Scan;
    var c0, c1 := x / 4, x % 4 * 16;
    assert Base64([x]) == [Symbol(c0)] + ([Symbol(c1)] + "==");
    hide Base64;
    ScanSymbol(c0, [Symbol(c1)] + "==", 0, 0, pads);
    ScanSymbol(c1, "==", 1, c0, 0);
    ScanPadding(c1 % 16);
    assert c0 * 4 + c1 / 16 == x && [x] + [] == [x];
  }

  lemma ScanTwoBytes(x: Byte, y: Byte, pads: nat)
    ensures Scan(Base64([x, y]), 0, 0, pads) == Some([x, y])
  {
    hide Symbol, Scan;
    var c0, c1, c2 := x / 4, x % 4 * 16 + y / 16, y % 16 * 4;
    assert Base64([x, y]) == [Symbol(c0)] + ([Symbol(c1)] + ([Symbol(c2)] + "="));
    hide Base64;
    GroupBytes(x, y, 0);
    ScanSymbol(c0, [Symbol(c1)] + ([Symbol(c2)] + "="), 0, 0, pads);
    ScanSymbol(c1, [Symbol(c2)] + "=", 1, c0, 0);
    ScanSymbol(c2, "=", 2, c1 % 16, 0);
    ScanPadding(c2 % 4);
    assert [x] + ([y] + []) == [x, y];
  }

  /** The bytes of a group, put together again from its symbols. */
  lemma GroupBytes(x: Byte, y: Byte, z: Byte)
    ensures var c1, c2, c3 := x % 4 * 16 + y / 16, y % 16 * 4 + z / 64, z % 64;
      && x / 4 < 64 && c1 < 64 && c2 < 64
      && x / 4 * 4 + c1 / 16 == x && c1 % 16 * 16 + c2 / 4 == y && c2 % 4 * 64 + c3 == z
  {
  }

  lemma ScanFour(c0: nat, c1: nat, c2: nat, c3: nat, rest: string, pads: nat)
    requires c0 < 64 && c1 < 64 && c2 < 64 && c3 < 64
    ensures Scan([Symbol(c0)] + ([Symbol(c1)] + ([Symbol(c2)] + ([Symbol(c3)] + rest))), 0, 0, pads)
            == Prepend(c0 * 4 + c1 / 16, Prepend(c1 % 16 * 16 + c2 / 4, Prepend(c2 % 4 * 64 + c3, Scan(rest, 0, 0, 0))))
  {
    hide Symbol, Scan;
    var r3 := [Symbol(c3)] + rest;
    var r2 := [Symbol(c2)] + r3;
    var r1 := [Symbol(c1)] + r2;
    ScanSymbol(c0, r1, 0, 0, pads);
    ScanSymbol(c1, r2, 1, c0, 0);
    ScanSymbol(c2, r3, 2, c1 % 16, 0);
    ScanSymbol(c3, rest, 3, c2 % 4, 0);
  }

  lemma ScanGroup(b: seq<Byte>, pads: nat)
    requires |b| > 2
    ensures Scan(Base64(b), 0, 0, pads)
            == Prepend(b[0], Prepend(b[1], Prepend(b[2], Scan(Base64(b[3..]), 0, 0, 0))))
  {
    hide Symbol, Scan, Prepend;
    var c0, c1, c2, c3 := b[0] / 4, b[0] % 4 * 16 + b[1] / 16, b[1] % 16 * 4 + b[2] / 64, b[2] % 64;
    GroupBytes(b[0], b[1], b[2]);
    ScanFour(c0, c1, c2, c3, Base64(b[3..]), pads);
    assert Base64(b) == [Symbol(c0)] + ([Symbol(c1)] + ([Symbol(c2)] + ([Symbol(c3)] + Base64(b[3..]))));
  }

  /** Without its padding an encoding is URL-safe, and its length tells the padding again. */
  lemma {:induction false} PaddingIsRestored(b: seq<Byte>)
    ensures Pad(StripPadding(Base64(b))) == Base64(b)
    ensures forall c :: c in StripPadding(Base64(b)) ==> UrlSafe(c)
  {
    hide Base64, StripPadding, UrlSafe;
    var s := Base64(b);
    var n := Unpadded(b);
    assert s == s[..n] + s[n..];
    StripsTo(s, n);
    assert s[n..] == seq(|s| - n, i => '=');
  }

  /** The first four symbols of a long encoding. */
  lemma Group(b: seq<Byte>) returns (group: string)
    requires |b| > 2
    ensures |group| == 4 && Base64(b) == group + Base64(b[3..]) && forall i :: 0 <= i < 4 ==> UrlSafe(group[i])
  {
    SymbolsRead();
    hide Symbol, UrlSafe;
    group := [Symbol(b[0] / 4), Symbol(b[0] % 4 * 16 + b[1] / 16), Symbol(b[1] % 16 * 4 + b[2] / 64), Symbol(b[2] % 64)];
  }

  lemma NoBytes()
    ensures Base64([]) == ""
  {
  }

  lemma ShortEncoding(b: seq<Byte>)
    requires 0 < |b| <= 2
    ensures |Base64(b)| == 4 && forall i :: 0 <= i <= |b| ==> UrlSafe(Base64(b)[i])
    ensures forall i :: |b| + 1 <= i < 4 ==> Base64(b)[i] == '='
  {
    SymbolsRead();
    hide Symbol, UrlSafe;
  }

  /** Where the padding of an encoding starts. */
  lemma {:induction false} Unpadded(b: seq<Byte>) returns (n: nat)
    ensures var s := Base64(b);
      && n <= |s| && |s| % 4 == 0 && |s| - n <= 2
      && (forall i :: 0 <= i < n ==> UrlSafe(s[i])) && (forall i :: n <= i < |s| ==> s[i] == '=')
  {
    hide UrlSafe, Symbol, Base64;
    if b == [] {
      NoBytes();
      n := 0;
    } else if |b| <= 2 {
      ShortEncoding(b);
      n := |b| + 1;
    } else {
      var m := Unpadded(b[3..]);
      n := 4 + m;
      var t := Base64(b[3..]);
      var group := Group(b);
      assert forall i :: 4 <= i < 4 + |t| ==> (group + t)[i] == t[i - 4];
    }
  }

  lemma {:induction false} StripsTo(s: string, n: nat)
    requires n <= |s| && forall i :: 0 <= i < n ==> UrlSafe(s[i])
    requires forall i :: n <= i < |s| ==> s[i] == '='
    ensures StripPadding(s) == s[..n]
  {
    if n < |s| {
      StripsTo(s[..|s| - 1], n);
      assert s[..|s| - 1][..n] == s[..n];
    } else {
      assert s[..n] == s;
    }
  }

  // ---- The token ----

  predicate Ascii(s: string) { forall i :: 0 <= i < |s| ==> s[i] as int < 128 }

  /** payload.encode(), of a text that json.dumps keeps within ASCII. */
  function Bytes(s: string): seq<Byte>
    requires Ascii(s)
  {
    seq(|s|, i requires 0 <= i < |s| => s[i] as int)
  }

  /** bytes.decode(). */
  function Text(lib: Library, b: seq<Byte>): Option<string> {
    if forall i :: 0 <= i < |b| ==> b[i] < 128
    then Some(seq(|b|, i requires 0 <= i < |b| && b[i] < 128 => b[i] as char))
    else lib.utf8(b)
  }

  lemma TextOfBytes(lib: Library, s: string)
    requires Ascii(s)
    ensures Text(lib, Bytes(s)) == Some(s)
  {
    assert Text(lib, Bytes(s)).value == s;
  }

  lemma EscapeCodeIsAscii(c: Code)
    ensures Ascii(EscapeCode(c))
  {
    EscapesOf(c);
    if c >= 0x10000 {
      hide Hex4;
      var h, l := Halves(c);
      HexIsAscii(h);
      HexIsAscii(l);
    } else if Escaped(c) {
      hide Hex4;
      HexIsAscii(c);
    }
  }

  lemma HexIsAscii(n: nat)
    requires n < 0x10000
    ensures Ascii(Hex4(n))
  {
  }

  lemma {:induction false} EscapeIsAscii(v: Value)
    ensures Ascii(Escape(v))
  {
    hide EscapeCode;
    if v != [] {
      EscapeIsAscii(v[1..]);
      EscapeCodeIsAscii(v[0]);
    }
  }

  lemma AsciiAdd(a: string, b: string)
    ensures Ascii(a + b) <==> Ascii(a) && Ascii(b)
  {
    assert forall i :: 0 <= i < |a| ==> (a + b)[i] == a[i];
    assert forall i :: 0 <= i < |b| ==> (a + b)[|a| + i] == b[i];
  }

  lemma {:induction false} DumpsIsAscii(parts: seq<Value>)
    ensures parts != [] ==> Ascii(DumpsItems(parts))
    ensures Ascii(Dumps(parts))
  {
    hide Escape;
    if parts != [] {
      EscapeIsAscii(parts[0]);
      AsciiAdd("\"", Escape(parts[0]));
      AsciiAdd("\"" + Escape(parts[0]), "\"");
      DumpsIsAscii(parts[1..]);
      hide Quote;
      if |parts| > 1 {
        AsciiAdd(Quote(parts[0]), ", ");
        AsciiAdd(Quote(parts[0]) + ", ", DumpsItems(parts[1..]));
      }
      AsciiAdd("[", DumpsItems(parts));
      AsciiAdd("[" + DumpsItems(parts), "]");
    }
  }

  function PartsOf(k: Key): seq<Value> { [k.repo, k.threadType, k.threadId, k.workflow] }

  function TokenOf(payload: string): string
    requires Ascii(payload)
  {
    StripPadding(Base64(Bytes(payload)))
  }

  function EncodeSessionToken(k: Key): string {
    DumpsIsAscii(PartsOf(k));
    TokenOf(Dumps(PartsOf(k)))
  }

  /** What becomes of the loaded value: len, the check for strings, and the four subscripts. */
  function FourStrings(v: Json): Decoded {
    match v
    case JScalar => ServerError
    case JObject(keys) => if |keys| != 4 then BadRequest else ServerError
    case JString(s) => if |s| != 4 then BadRequest else Parts(Key([s[0]], [s[1]], [s[2]], [s[3]]))
    case JArray(items) =>
      if |items| != 4 || exists i :: 0 <= i < |items| && !items[i].JString? then BadRequest
      else if items[0].JString? && items[1].JString? && items[2].JString? && items[3].JString?
      then Parts(Key(items[0].value, items[1].value, items[2].value, items[3].value))
      else BadRequest
  }

  function DecodeSessionToken(lib: Library, token: string): Decoded {
    match Scan(Pad(token), 0, 0, 0)
    case None => BadRequest
    case Some(bytes) =>
      match Text(lib, bytes)
      case None => BadRequest
      case Some(payload) =>
        match Loads(lib, payload)
        case None => BadRequest
        case Some(v) => FourStrings(v)
  }

  /** The key with every surrogate pair joined: the same text in every encoding of Unicode. */
  function Joined(k: Key): Key { Key(Merge(k.repo), Merge(k.threadType), Merge(k.threadId), Merge(k.workflow)) }

  predicate NoPairs(k: Key) {
    !HasPair(k.repo) && !HasPair(k.threadType) && !HasPair(k.threadId) && !HasPair(k.workflow)
  }

  lemma DecodesPayload(lib: Library, payload: string)
    requires Ascii(payload)
    ensures DecodeSessionToken(lib, TokenOf(payload))
            == match Loads(lib, payload) case None => BadRequest case Some(v) => FourStrings(v)
    ensures forall c :: c in TokenOf(payload) ==> UrlSafe(c)
  {
    hide Scan, Base64, StripPadding, Pad, Bytes, Text, Loads, FourStrings;
    PaddingIsRestored(Bytes(payload));
    ScanReadsBase64(Bytes(payload), 0);
    TextOfBytes(lib, payload);
  }

  lemma MergedOne(v: Value, rest: seq<Value>)
    ensures Merged([v] + rest) == [JString(Merge(v))] + Merged(rest)
  {
    assert ([v] + rest)[1..] == rest;
  }

  lemma MergedFour(k: Key)
    ensures Merged(PartsOf(k)) == [JString(Merge(k.repo)), JString(Merge(k.threadType)), JString(Merge(k.threadId)),
                                   JString(Merge(k.workflow))]
  {
    hide Merge;
    assert Merged([]) == [];
    assert PartsOf(k) == [k.repo] + [k.threadType, k.threadId, k.workflow];
    MergedOne(k.workflow, []);
    MergedOne(k.threadId, [k.workflow]);
    MergedOne(k.threadType, [k.threadId, k.workflow]);
    MergedOne(k.repo, [k.threadType, k.threadId, k.workflow]);
  }

  /** Decoding a token gives its key, for every key and whatever the library does elsewhere: exactly when
      no part has a high surrogate right before a low one, which Python keeps apart and JSON does not. */
  lemma {:induction false} TokenRoundTrip(lib: Library, k: Key)
    ensures DecodeSessionToken(lib, EncodeSessionToken(k)) == Parts(Joined(k))
    ensures DecodeSessionToken(lib, EncodeSessionToken(k)) == Parts(k) <==> NoPairs(k)
    ensures forall c :: c in EncodeSessionToken(k) ==> UrlSafe(c)
  {
    hide Loads, Merge, HasPair, Dumps, TokenOf;
    DumpsIsAscii(PartsOf(k));
    DecodesPayload(lib, Dumps(PartsOf(k)));
    LoadsDumps(lib, PartsOf(k));
    MergedFour(k);
    MergeKeepsIffNoPair(k.repo);
    MergeKeepsIffNoPair(k.threadType);
    MergeKeepsIffNoPair(k.threadId);
    MergeKeepsIffNoPair(k.workflow);
  }

  /** Two keys share a token exactly when they differ only in surrogate pairs joined or kept apart. */
  lemma TokensCollideIffJoinedAlike(a: Key, b: Key)
    ensures EncodeSessionToken(a) == EncodeSessionToken(b) <==> Joined(a) == Joined(b)
  {
    var lib := Library((x: seq<Byte>) => None, (x: string) => None);
    TokenRoundTrip(lib, a);
    TokenRoundTrip(lib, b);
    JoinedWritesTheSame(a);
    JoinedWritesTheSame(b);
  }

  lemma JoinedWritesTheSame(k: Key)
    ensures EncodeSessionToken(Joined(k)) == EncodeSessionToken(k)
  {
    hide Escape, Merge;
    MergeWritesTheSame(k.repo);
    MergeWritesTheSame(k.threadType);
    MergeWritesTheSame(k.threadId);
    MergeWritesTheSame(k.workflow);
    DumpsFour(k);
    DumpsFour(Joined(k));
  }

  lemma DumpsFour(k: Key)
    ensures Dumps(PartsOf(k))
            == "[" + (Quote(k.repo) + ", " + (Quote(k.threadType) + ", " + (Quote(k.threadId) + ", " + Quote(k.workflow)))) + "]"
  {
    hide Quote;
    var p := PartsOf(k);
    assert p[1..] == [k.threadType, k.threadId, k.workflow];
    assert p[1..][1..] == [k.threadId, k.workflow];
    assert p[1..][1..][1..] == [k.workflow];
    assert DumpsItems([k.workflow]) == Quote(k.workflow);
    assert DumpsItems([k.threadId, k.workflow]) == Quote(k.threadId) + ", " + Quote(k.workflow);
    assert DumpsItems(p[1..]) == Quote(k.threadType) + ", " + (Quote(k.threadId) + ", " + Quote(k.workflow));
  }

  /** The decoder also takes a JSON string of four characters for a key. */
  lemma FourCharactersDecode(lib: Library, v: Value)
    requires |v| == 4 && !HasPair(v)
    ensures Ascii(Quote(v))
    ensures DecodeSessionToken(lib, TokenOf(Quote(v))) == Parts(Key([v[0]], [v[1]], [v[2]], [v[3]]))
  {
    EscapeIsAscii(v);
    DecodesPayload(lib, Quote(v));
    ReadsQuoted(lib, v, "");
    MergeKeepsIffNoPair(v);
    assert Quote(v) + "" == Quote(v);
  }

  /** Of the values that can be loaded, exactly an array of four strings and a string of four characters
      give a key; a scalar, and an object of four keys, raise what is not turned into a status 400. */
  lemma {:induction false} KeysComeFromFour(v: Json, k: Key)
    ensures FourStrings(v) == Parts(k)
            <==> || v == JArray([JString(k.repo), JString(k.threadType), JString(k.threadId), JString(k.workflow)])
                 || (v.JString? && |v.value| == 4 && k == Key([v.value[0]], [v.value[1]], [v.value[2]], [v.value[3]]))
    ensures FourStrings(v) == ServerError <==> v.JScalar? || (v.JObject? && |v.keys| == 4)
  {
  }

  /** A token in the plain base64 alphabet. */
  function Plain(token: string): string {
    if token == "" then ""
    else [PlainSymbol(token[0])] + Plain(token[1..])
  }

  function PlainSymbol(c: char): char { if c == '-' then '+' else if c == '_' then '/' else c }

  lemma PlainSymbolReadsAlike(c: char)
    ensures SymbolValue(PlainSymbol(c)) == SymbolValue(c) && (PlainSymbol(c) == '=' <==> c == '=')
  {
  }

  lemma {:induction false} ScanPlain(s: string, tail: string, quad: nat, left: nat, pads: nat)
    requires quad < 4 && (quad == 1 ==> left < 64) && (quad == 2 ==> left < 16) && (quad == 3 ==> left < 4)
    ensures Scan(Plain(s) + tail, quad, left, pads) == Scan(s + tail, quad, left, pads) && |Plain(s)| == |s|
    decreases |s|
  {
    if s != "" {
      PlainSymbolReadsAlike(s[0]);
      hide SymbolValue, PlainSymbol;
      assert (s + tail)[1..] == s[1..] + tail && (Plain(s) + tail)[1..] == Plain(s[1..]) + tail;
      ScanPlain(s[1..], tail, quad, left, pads);
      ScanPlain(s[1..], tail, quad, left, if quad >= 2 then pads + 1 else pads);
      if SymbolValue(s[0]).Some? {
        var v := SymbolValue(s[0]).value;
        ScanPlain(s[1..], tail, (quad + 1) % 4,
                  if quad == 0 then v else if quad == 1 then v % 16 else if quad == 2 then v % 4 else 0, 0);
      }
    }
  }

  /** The decoder takes the plain alphabet for the URL-safe one. */
  lemma PlainAlphabetDecodes(lib: Library, token: string)
    ensures DecodeSessionToken(lib, Plain(token)) == DecodeSessionToken(lib, token)
  {
    var padding := 4 - |token| % 4;
    var tail := if padding != 4 then seq(padding, i => '=') else "";
    ScanPlain(token, tail, 0, 0, 0);
    assert token + "" == token && Plain(token) + "" == Plain(token);
    assert Pad(token) == token + tail && Pad(Plain(token)) == Plain(token) + tail;
    hide Scan, Plain;
  }

  /** A character outside both alphabets is passed over. */
  lemma {:induction false} ScanPassesOver(a: string, c: char, b: string, quad: nat, left: nat, pads: nat)
    requires SymbolValue(c) == None && c != '='
    requires quad < 4 && (quad == 1 ==> left < 64) && (quad == 2 ==> left < 16) && (quad == 3 ==> left < 4)
    ensures Scan(a + [c] + b, quad, left, pads) == Scan(a + b, quad, left, pads)
    decreases |a|
  {
    hide SymbolValue;
    if a == "" {
      assert a + [c] + b == [c] + b && a + b == b && ([c] + b)[1..] == b;
    } else {
      assert (a + [c] + b)[1..] == a[1..] + [c] + b && (a + b)[1..] == a[1..] + b;
      ScanPassesOver(a[1..], c, b, quad, left, pads);
      ScanPassesOver(a[1..], c, b, quad, left, if quad >= 2 then pads + 1 else pads);
      if SymbolValue(a[0]).Some? {
        var v := SymbolValue(a[0]).value;
        ScanPassesOver(a[1..], c, b, (quad + 1) % 4,
                       if quad == 0 then v else if quad == 1 then v % 16 else if quad == 2 then v % 4 else 0, 0);
      }
    }
  }

  /** A token of any number of strings decodes to a key exactly when there are four. */
  lemma TokensOfLists(lib: Library, parts: seq<Value>)
    ensures Ascii(Dumps(parts))
    ensures DecodeSessionToken(lib, TokenOf(Dumps(parts)))
            == if |parts| == 4 then Parts(Key(Merge(parts[0]), Merge(parts[1]), Merge(parts[2]), Merge(parts[3])))
               else BadRequest
  {
    DumpsIsAscii(parts);
    DecodesPayload(lib, Dumps(parts));
    LoadsDumps(lib, parts);
    MergedEach(parts);
    hide Loads, Merge, Merged, DecodeSessionToken, TokenOf, Dumps;
  }

  lemma {:induction false} MergedEach(parts: seq<Value>)
    ensures |Merged(parts)| == |parts|
    ensures forall i :: 0 <= i < |parts| ==> Merged(parts)[i] == JString(Merge(parts[i]))
  {
    if parts != [] { MergedEach(parts[1..]); }
  }

  /** A token one symbol longer than a multiple of four is malformed. */
  lemma OddTokenIsRefused(lib: Library, token: string)
    requires |token| % 4 == 1 && forall i :: 0 <= i < |token| ==> UrlSafe(token[i])
    ensures DecodeSessionToken(lib, token) == BadRequest
  {
    assert Pad(token) == token + "===" by { assert seq(3, i => '=') == "==="; }
    ScanRunsOut(token, 0, 0, 0);
  }

  lemma {:induction false} ScanRunsOut(s: string, quad: nat, left: nat, pads: nat)
    requires quad < 4 && (quad == 1 ==> left < 64) && (quad == 2 ==> left < 16) && (quad == 3 ==> left < 4)
    requires (quad + |s|) % 4 == 1 && forall i :: 0 <= i < |s| ==> UrlSafe(s[i])
    ensures Scan(s + "===", quad, left, pads) == None
    decreases |s|
  {
    if s == "" {
      assert s + "===" == "===" && "==="[1..] == "==" && "=="[1..] == "=" && "="[1..] == "";
      assert Scan("=", 1, left, pads) == None;
      assert Scan("==", 1, left, pads) == None;
    } else {
      assert (s + "===")[1..] == s[1..] + "===" && SymbolValue(s[0]).Some?;
      var v := SymbolValue(s[0]).value;
      ScanRunsOut(s[1..], (quad + 1) % 4,
                  if quad == 0 then v else if quad == 1 then v % 16 else if quad == 2 then v % 4 else 0, 0);
    }
  }

  // ---- Examples ----

  /** The test vectors of section 10 of RFC 4648, and the two symbols that make base64 URL-safe. */
  lemma Base64Vectors()
    ensures Base64([]) == "" && Base64([102]) == "Zg==" && Base64([102, 111]) == "Zm8="
    ensures Base64([102, 111, 111]) == "Zm9v" && Base64([102, 111, 111, 98]) == "Zm9vYg=="
    ensures Base64([102, 111, 111, 98, 97]) == "Zm9vYmE=" && Base64([102, 111, 111, 98, 97, 114]) == "Zm9vYmFy"
    ensures Base64([251, 255, 191]) == "-_-_"
  {
    ShortVectors();
    LongVectors();
    hide Base64;
  }

  lemma ShortVectors()
    ensures Base64([]) == "" && Base64([102]) == "Zg==" && Base64([102, 111]) == "Zm8="
    ensures Base64([102, 111, 111]) == "Zm9v" && Base64([251, 255, 191]) == "-_-_"
  {
    assert [102, 111, 111][3..] == [] && [251, 255, 191][3..] == [];
  }

  lemma LongVectors()
    ensures Base64([102, 111, 111, 98]) == "Zm9vYg==" && Base64([102, 111, 111, 98, 97]) == "Zm9vYmE="
    ensures Base64([102, 111, 111, 98, 97, 114]) == "Zm9vYmFy"
  {
    assert [102, 111, 111, 98][3..] == [98] && [102, 111, 111, 98, 97][3..] == [98, 97];
    assert [102, 111, 111, 98, 97, 114][3..] == [98, 97, 114] && [98, 97, 114][3..] == [];
  }

  /** How json.dumps writes what it escapes. */
  lemma ShortEscapes()
    ensures EscapeCode('"' as int) == "\\\"" && EscapeCode('\\' as int) == "\\\\" && EscapeCode('a' as int) == "a"
    ensures EscapeCode('b' as int) == "b" && EscapeCode('/' as int) == "/"
    ensures EscapeCode(10) == "\\n" && EscapeCode(13) == "\\r" && EscapeCode(9) == "\\t"
    ensures EscapeCode(12) == "\\f" && EscapeCode(8) == "\\b"
  {
    hide Hex4;
  }

  lemma HexEscapes()
    ensures EscapeCode(0) == "\\u" + "0000" && EscapeCode(0x7f) == "\\u" + "007f" && EscapeCode(0xe9) == "\\u" + "00e9"
    ensures EscapeCode(0x1f600) == "\\u" + "d83d" + "\\u" + "de00"
  {
    HexExamples();
    hide Hex4;
  }

  lemma HexExamples()
    ensures Hex4(0) == "0000" && Hex4(0x7f) == "007f" && Hex4(0xe9) == "00e9"
    ensures Hex4(0xd83d) == "d83d" && Hex4(0xde00) == "de00"
  {
  }

  lemma DumpsExample()
    ensures Dumps([['a' as int], ['b' as int, '"' as int]]) == "[\"a\", \"b\\\"\"]"
  {
    var a, b := ['a' as int], ['b' as int, '"' as int];
    ShortEscapes();
    hide EscapeCode;
    EscapeFirst('a' as int, []);
    EscapeFirst('b' as int, ['"' as int]);
    EscapeFirst('"' as int, []);
    assert a == ['a' as int] + [] && b == ['b' as int] + ['"' as int] && ['"' as int] == ['"' as int] + [];
    assert Quote(a) == "\"a\"" && Quote(b) == "\"b\\\"\"";
    hide Quote;
    assert [a, b][1..] == [b];
    assert DumpsItems([b]) == Quote(b);
    assert DumpsItems([a, b]) == Quote(a) + ", " + Quote(b);
  }

  lemma EscapeFirst(c: Code, rest: Value)
    ensures Escape([c] + rest) == EscapeCode(c) + Escape(rest) && Escape([]) == ""
  {
    assert ([c] + rest)[1..] == rest;
  }
}
