/** The parts of Python's str that the models use: whitespace, strip, split on newlines, join. */
module Text {

  predicate IsSpace(c: char) {
    c == ' ' || '\t' <= c <= '\r' || '\U{1c}' <= c <= '\U{1f}' || c == '\U{85}' || c == '\U{a0}'
    || c == '\U{1680}' || '\U{2000}' <= c <= '\U{200a}' || c == '\U{2028}' || c == '\U{2029}'
    || c == '\U{202f}' || c == '\U{205f}' || c == '\U{3000}'
  }

  function Strip(s: string): string
    decreases |s|
  {
    if s != [] && IsSpace(s[0]) then Strip(s[1..])
    else if s != [] && IsSpace(s[|s| - 1]) then Strip(s[..|s| - 1])
    else s
  }

  /** strip() takes off whitespace at both ends, and all of it. */
  lemma {:induction false} StripMeans(s: string) returns (i: nat, j: nat)
    ensures i <= j <= |s| && Strip(s) == s[i..j]
    ensures forall k :: 0 <= k < i || j <= k < |s| ==> IsSpace(s[k])
    ensures i < j ==> !IsSpace(s[i]) && !IsSpace(s[j - 1])
    decreases |s|
  {
    if s != [] && IsSpace(s[0]) {
      i, j := StripMeans(s[1..]);
      assert forall k :: 0 <= k < |s| - 1 ==> s[1..][k] == s[k + 1];
      i, j := i + 1, j + 1;
    } else if s != [] && IsSpace(s[|s| - 1]) {
      i, j := StripMeans(s[..|s| - 1]);
      assert forall k :: 0 <= k < |s| - 1 ==> s[..|s| - 1][k] == s[k];
    } else {
      i, j := 0, |s|;
    }
  }

  function Join(sep: string, parts: seq<string>): string {
    if parts == [] then ""
    else if |parts| == 1 then parts[0]
    else Join(sep, parts[..|parts| - 1]) + sep + parts[|parts| - 1]
  }

  /** One more character at the end of a text that is split at `sep`. */
  function Grow(sep: char, parts: seq<string>, c: char): (r: seq<string>)
    requires parts != []
    ensures r != []
  {
    if c == sep then parts + [""] else parts[..|parts| - 1] + [parts[|parts| - 1] + [c]]
  }

  /** split(sep). */
  function Split(sep: char, s: string): (parts: seq<string>)
    ensures parts != []
  {
    if s == [] then [""] else Grow(sep, Split(sep, s[..|s| - 1]), s[|s| - 1])
  }

  function Lines(s: string): seq<string> { Split('\n', s) }

  lemma SplitNothing(sep: char)
    ensures Split(sep, []) == [""]
  {
  }

  lemma SplitSnoc(sep: char, s: string, c: char)
    ensures Split(sep, s + [c]) == Grow(sep, Split(sep, s), c)
  {
    assert (s + [c])[..|s|] == s;
  }

  lemma GrowAdd(sep: char, a: seq<string>, b: seq<string>, c: char)
    requires b != []
    ensures Grow(sep, a + b, c) == a + Grow(sep, b, c)
  {
  }

  lemma GrowBySeparator(sep: char, parts: seq<string>)
    requires parts != []
    ensures Grow(sep, parts, sep) == parts + [""]
  {
  }

  lemma GrowLast(sep: char, parts: seq<string>, c: char)
    requires parts != [] && c != sep
    ensures Grow(sep, parts, c) == parts[..|parts| - 1] + [parts[|parts| - 1] + [c]]
  {
  }

  /** No part of a split text holds the separator. */
  lemma {:induction false} SplitParts(sep: char, s: string)
    ensures forall part :: part in Split(sep, s) ==> sep !in part
  {
    if s != [] { SplitParts(sep, s[..|s| - 1]); }
  }

  lemma JoinSnoc(sep: string, parts: seq<string>, last: string)
    requires parts != []
    ensures Join(sep, parts + [last]) == Join(sep, parts) + sep + last
  {
    assert (parts + [last])[..|parts|] == parts;
  }

  lemma {:induction false} JoinLast(sep: string, parts: seq<string>, tail: string)
    requires parts != []
    ensures Join(sep, parts[..|parts| - 1] + [parts[|parts| - 1] + tail]) == Join(sep, parts) + tail
  {
    var n := |parts| - 1;
    var front, last := parts[..n], parts[n];
    assert parts == front + [last];
    if n > 0 {
      hide Join;
      JoinSnoc(sep, front, last);
      JoinSnoc(sep, front, last + tail);
    }
  }

  /** Joining the lines again gives the text back. */
  lemma {:induction false} JoinOfLines(s: string)
    ensures Join("\n", Lines(s)) == s
  {
    if s != [] {
      hide Split, Grow, Join;
      var front, c := s[..|s| - 1], s[|s| - 1];
      assert s == front + [c];
      JoinOfLines(front);
      SplitSnoc('\n', front, c);
      if c == '\n' {
        GrowBySeparator('\n', Lines(front));
        JoinSnoc("\n", Lines(front), "");
      } else {
        GrowLast('\n', Lines(front), c);
        JoinLast("\n", Lines(front), [c]);
      }
    }
  }

  /** The lines that a newline ends, and the text after the last newline. */
  function Complete(s: string): seq<string> { Lines(s)[..|Lines(s)| - 1] }
  function Partial(s: string): string { Lines(s)[|Lines(s)| - 1] }

  /** Splitting can be resumed from the partial last line. */
  lemma {:induction false} LinesResume(a: string, b: string)
    ensures Lines(a + b) == Complete(a) + Lines(Partial(a) + b)
  {
    if b == [] {
      assert a + b == a && Partial(a) + b == Partial(a);
      PartialIsOneLine(a);
    } else {
      hide Split, Grow;
      var front, c := b[..|b| - 1], b[|b| - 1];
      LinesResume(a, front);
      assert a + b == a + front + [c] && Partial(a) + b == Partial(a) + front + [c];
      SplitSnoc('\n', a + front, c);
      SplitSnoc('\n', Partial(a) + front, c);
      GrowAdd('\n', Complete(a), Lines(Partial(a) + front), c);
    }
  }

  lemma SplitResumes(a: string, b: string)
    ensures Complete(a + b) == Complete(a) + Complete(Partial(a) + b)
    ensures Partial(a + b) == Partial(Partial(a) + b)
  {
    LinesResume(a, b);
    hide Split;
    var rest := Lines(Partial(a) + b);
    assert (Complete(a) + rest)[..|Complete(a) + rest| - 1] == Complete(a) + rest[..|rest| - 1];
  }

  lemma {:induction false} PartialIsOneLine(a: string)
    ensures Lines(Partial(a)) == [Partial(a)]
  {
    if a == [] {
      SplitNothing('\n');
    } else {
      hide Split, Grow;
      var front, c := a[..|a| - 1], a[|a| - 1];
      assert a == front + [c];
      PartialIsOneLine(front);
      SplitSnoc('\n', front, c);
      if c == '\n' {
        GrowBySeparator('\n', Lines(front));
        SplitNothing('\n');
      } else {
        GrowLast('\n', Lines(front), c);
        SplitSnoc('\n', Partial(front), c);
        GrowLast('\n', [Partial(front)], c);
      }
    }
  }

  /** str(n). */
  function Decimal(n: nat): string {
    var digit := ['0' + (n % 10) as char];
    if n < 10 then digit else Decimal(n / 10) + digit
  }

  /** The value of a string of digits. */
  function Digits(s: string): int {
    if s == "" then 0 else 10 * Digits(s[..|s| - 1]) + (s[|s| - 1] as int - '0' as int)
  }

  lemma {:induction false} DecimalReads(n: nat)
    ensures Digits(Decimal(n)) == n && forall c :: c in Decimal(n) ==> '0' <= c <= '9'
  {
    var digit := ['0' + (n % 10) as char];
    assert digit[..0] == "" && Digits(digit) == n % 10;
    if n >= 10 {
      DecimalReads(n / 10);
      assert Decimal(n)[..|Decimal(n)| - 1] == Decimal(n / 10);
    }
  }

  lemma {:induction false} DecimalIsInjective(m: nat, n: nat)
    requires Decimal(m) == Decimal(n)
    ensures m == n
  {
    var a, b := Decimal(m), Decimal(n);
    assert a[|a| - 1] == '0' + (m % 10) as char && b[|b| - 1] == '0' + (n % 10) as char;
    DecimalLength(m);
    DecimalLength(n);
    if m >= 10 && n >= 10 {
      assert a[..|a| - 1] == Decimal(m / 10) && b[..|b| - 1] == Decimal(n / 10);
      DecimalIsInjective(m / 10, n / 10);
    }
  }

  lemma DecimalLength(n: nat)
    ensures |Decimal(n)| >= 1 && (|Decimal(n)| == 1 <==> n < 10)
  {
    if n >= 10 { DecimalLength(n / 10); }
  }
}
