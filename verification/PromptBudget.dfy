/** The token budget of the assembled system prompt. Tokens are estimated from the number of
    whitespace-separated words, 1.3 to a word, rounded down, and at least one. */
module PromptBudget {
  import opened Basics
  import opened Text

  const SYSTEM_PROMPT_BUDGET := 12_000
  const TRUNCATED := "... (truncated)"
  const OLDER_TRUNCATED := "... (older comments truncated)"

  // ---- Words ----

  /** How many words split() finds: the positions where one starts. */
  function Words(s: string): nat {
    if s == [] then 0
    else
      var n := |s| - 1;
      Words(s[..n]) + if !IsSpace(s[n]) && (n == 0 || IsSpace(s[n - 1])) then 1 else 0
  }

  function Estimate(s: string): nat {
    var tokens := 13 * Words(s) / 10;
    if tokens < 1 then 1 else tokens
  }

  /** The estimate is 1.3 tokens a word, rounded down, and never less than one. */
  lemma EstimateMeans(s: string)
    ensures Words(s) >= 1 ==> 10 * Estimate(s) <= 13 * Words(s) < 10 * (Estimate(s) + 1)
    ensures Words(s) == 0 ==> Estimate(s) == 1
  {
    hide Words;
  }

  lemma WordsSnoc(s: string, c: char)
    ensures Words(s + [c]) == Words(s) + if !IsSpace(c) && (s == [] || IsSpace(s[|s| - 1])) then 1 else 0
  {
    hide IsSpace;
    var u := s + [c];
    assert u[..|s|] == s && u[|s|] == c && (s != [] ==> u[|s| - 1] == s[|s| - 1]);
  }

  lemma NoWords()
    ensures Words([]) == 0
  {
  }

  lemma {:induction false} WordsAdd(s: string, c: char, t: string)
    requires IsSpace(c)
    ensures Words(s + [c] + t) == Words(s) + Words(t)
  {
    hide IsSpace, Words;
    if t == [] {
      NoWords();
      WordsSnoc(s, c);
      assert s + [c] + t == s + [c];
    } else {
      var n := |t| - 1;
      var u := s + [c] + t[..n];
      WordsAdd(s, c, t[..n]);
      assert s + [c] + t == u + [t[n]] && t == t[..n] + [t[n]];
      assert u[|u| - 1] == if n > 0 then t[n - 1] else c;
      WordsSnoc(u, t[n]);
      WordsSnoc(t[..n], t[n]);
    }
  }

  lemma {:induction false} OneWord(s: string)
    requires s != [] && forall i :: 0 <= i < |s| ==> !IsSpace(s[i])
    ensures Words(s) == 1
  {
    if |s| > 1 { OneWord(s[..|s| - 1]); }
  }

  function TotalWords(parts: seq<string>): nat {
    if parts == [] then 0 else TotalWords(parts[..|parts| - 1]) + Words(parts[|parts| - 1])
  }

  lemma WordsAcrossLines(a: string, b: string)
    ensures Words(a + "\n\n" + b) == Words(a) + Words(b)
  {
    assert Words("") == 0;
    hide Words;
    var c := a + ['\n'];
    assert c + "" == c;
    WordsAdd(a, '\n', "");
    WordsAdd(c, '\n', b);
    assert "\n\n" == ['\n'] + ['\n'];
    assert a + (['\n'] + ['\n']) == c + ['\n'];
  }

  lemma WordsAcrossBreak(a: string, sep: string, b: string)
    requires sep == "\n" || sep == "\n\n"
    ensures Words(a + sep + b) == Words(a) + Words(b)
  {
    hide Words;
    if sep == "\n" { WordsAdd(a, '\n', b); } else { WordsAcrossLines(a, b); }
  }

  lemma {:induction false} WordsOfJoin(sep: string, parts: seq<string>)
    requires sep == "\n" || sep == "\n\n"
    ensures Words(Join(sep, parts)) == TotalWords(parts)
  {
    if |parts| == 1 {
      assert parts[..0] == [];
    } else if |parts| > 1 {
      hide Words;
      WordsOfJoin(sep, parts[..|parts| - 1]);
      WordsAcrossBreak(Join(sep, parts[..|parts| - 1]), sep, parts[|parts| - 1]);
    }
  }

  lemma {:induction false} TotalWordsAdd(a: seq<string>, b: seq<string>)
    ensures TotalWords(a + b) == TotalWords(a) + TotalWords(b)
  {
    if b == [] {
      assert a + b == a;
    } else {
      TotalWordsAdd(a, b[..|b| - 1]);
      assert (a + b)[..|a + b| - 1] == a + b[..|b| - 1];
    }
  }

  // ---- _truncate_text ----

  /** The text that keeps the first, or last, k lines. */
  function Kept(lines: seq<string>, k: nat, fromTop: bool): string
    requires k <= |lines|
  {
    Join("\n", if fromTop then lines[|lines| - k..] else lines[..k])
  }

  predicate Fits(lines: seq<string>, k: nat, fromTop: bool, maxTokens: int)
    requires k <= |lines|
  {
    Estimate(Kept(lines, k, fromTop)) <= maxTokens
  }

  /** k lines fit, and no larger number of lines does. */
  ghost predicate Longest(lines: seq<string>, k: nat, fromTop: bool, maxTokens: int) {
    && k <= |lines| && (k > 0 ==> Fits(lines, k, fromTop, maxTokens))
    && forall j :: k < j <= |lines| ==> !Fits(lines, j, fromTop, maxTokens)
  }

  lemma KeepingMoreCostsMore(lines: seq<string>, j: nat, k: nat, fromTop: bool)
    requires j <= k <= |lines|
    ensures Estimate(Kept(lines, j, fromTop)) <= Estimate(Kept(lines, k, fromTop))
  {
    hide Words, Join, TotalWords;
    var a, b := if fromTop then lines[|lines| - j..] else lines[..j], if fromTop then lines[|lines| - k..] else lines[..k];
    WordsOfJoin("\n", a);
    WordsOfJoin("\n", b);
    if fromTop {
      TotalWordsAdd(lines[|lines| - k..|lines| - j], a);
      assert b == lines[|lines| - k..|lines| - j] + a;
    } else {
      TotalWordsAdd(a, lines[j..k]);
      assert b == a + lines[j..k];
    }
  }

  lemma FirstMisfitIsLongest(lines: seq<string>, k: nat, fromTop: bool, maxTokens: int)
    requires k < |lines| && (k > 0 ==> Fits(lines, k, fromTop, maxTokens)) && !Fits(lines, k + 1, fromTop, maxTokens)
    ensures Longest(lines, k, fromTop, maxTokens)
  {
    forall j | k < j <= |lines| ensures !Fits(lines, j, fromTop, maxTokens) {
      KeepingMoreCostsMore(lines, k + 1, j, fromTop);
    }
  }

  function Marked(kept: string, fromTop: bool): string {
    if fromTop then OLDER_TRUNCATED + "\n" + kept else kept + "\n" + TRUNCATED
  }

  /** The number of lines kept: the first count at which one more does not fit. */
  function KeptLines(lines: seq<string>, k: nat, fromTop: bool, maxTokens: int): (r: nat)
    requires k <= |lines|
    ensures k <= r <= |lines|
    decreases |lines| - k
  {
    if k == |lines| || !Fits(lines, k + 1, fromTop, maxTokens) then k
    else KeptLines(lines, k + 1, fromTop, maxTokens)
  }

  function Truncated(text: string, maxTokens: int, fromTop: bool): Option<string> {
    if Estimate(text) <= maxTokens then Some(text)
    else
      var lines := Lines(text);
      var k := KeptLines(lines, 0, fromTop, maxTokens);
      if k == 0 then None else Some(Marked(Kept(lines, k, fromTop), fromTop))
  }

  lemma {:induction false} KeptLinesIsLongest(lines: seq<string>, k: nat, fromTop: bool, maxTokens: int)
    requires k <= |lines| && (k > 0 ==> Fits(lines, k, fromTop, maxTokens))
    ensures Longest(lines, KeptLines(lines, k, fromTop, maxTokens), fromTop, maxTokens)
    decreases |lines| - k
  {
    if k < |lines| {
      if Fits(lines, k + 1, fromTop, maxTokens) { KeptLinesIsLongest(lines, k + 1, fromTop, maxTokens); }
      else { FirstMisfitIsLongest(lines, k, fromTop, maxTokens); }
    }
  }

  /** A text that does not fit loses as few lines as possible, and at least one; it is dropped
      exactly when not even one line fits. */
  lemma {:induction false} TruncationIsLongest(text: string, maxTokens: int, fromTop: bool) returns (k: nat)
    requires Estimate(text) > maxTokens
    ensures k < |Lines(text)| && Longest(Lines(text), k, fromTop, maxTokens)
    ensures Truncated(text, maxTokens, fromTop)
            == if k == 0 then None else Some(Marked(Kept(Lines(text), k, fromTop), fromTop))
  {
    k := KeptLines(Lines(text), 0, fromTop, maxTokens);
    KeptLinesIsLongest(Lines(text), 0, fromTop, maxTokens);
    JoinOfLines(text);
    var lines := Lines(text);
    assert lines[|lines| - |lines|..] == lines && lines[..|lines|] == lines;
  }

  /** What is left of a cut text: its first lines and a marker below, or its last lines and a marker above. */
  lemma CutTextIsMarked(text: string, maxTokens: int, fromTop: bool) returns (k: nat)
    requires Estimate(text) > maxTokens && Truncated(text, maxTokens, fromTop).Some?
    ensures 0 < k < |Lines(text)|
    ensures Truncated(text, maxTokens, fromTop).value
            == if fromTop then "... (older comments truncated)" + "\n" + Join("\n", Lines(text)[|Lines(text)| - k..])
               else Join("\n", Lines(text)[..k]) + "\n" + "... (truncated)"
  {
    hide Truncated, Lines, Join, Estimate, Longest;
    k := TruncationIsLongest(text, maxTokens, fromTop);
  }

  lemma TwoWords(a: string, b: string)
    requires a != "" && b != "" && forall i :: 0 <= i < |a| ==> !IsSpace(a[i])
    requires forall i :: 0 <= i < |b| ==> !IsSpace(b[i])
    ensures Words(a + [' '] + b) == 2
  {
    OneWord(a);
    OneWord(b);
    WordsAdd(a, ' ', b);
  }

  lemma TruncatedCounts()
    ensures Words(TRUNCATED) == 2
  {
    hide Words;
    TwoWords("...", "(truncated)");
    assert TRUNCATED == "..." + [' '] + "(truncated)";
  }

  lemma OlderTruncatedCounts()
    ensures Words(OLDER_TRUNCATED) == 4
  {
    hide Words;
    OlderCounts();
    CommentsTruncatedCounts();
    WordsAdd("... (older", ' ', "comments truncated)");
    hide IsSpace;
    assert OLDER_TRUNCATED == "... (older" + [' '] + "comments truncated)";
  }

  lemma OlderCounts()
    ensures Words("... (older") == 2
  {
    hide Words;
    TwoWords("...", "(older");
    assert "... (older" == "..." + [' '] + "(older";
  }

  lemma CommentsTruncatedCounts()
    ensures Words("comments truncated)") == 2
  {
    hide Words;
    TwoWords("comments", "truncated)");
    assert "comments truncated)" == "comments" + [' '] + "truncated)";
  }

  lemma MarkerWords(kept: string, fromTop: bool)
    ensures Words(Marked(kept, fromTop)) == Words(kept) + if fromTop then 4 else 2
  {
    hide Words;
    TruncatedCounts();
    OlderTruncatedCounts();
    WordsAcrossBreak(kept, "\n", TRUNCATED);
    WordsAcrossBreak(OLDER_TRUNCATED, "\n", kept);
  }

  /** One turn of the loop over the lines. */
  lemma KeptStep(lines: seq<string>, k: nat, fromTop: bool, maxTokens: int)
    requires k <= |lines|
    ensures Kept(lines, k, fromTop) == Join("\n", if fromTop then lines[|lines| - k..] else lines[..k])
    ensures KeptLines(lines, |lines|, fromTop, maxTokens) == |lines|
    ensures k < |lines| ==>
              var more := if fromTop then lines[|lines| - (k + 1)..] else lines[..k + 1];
              KeptLines(lines, k, fromTop, maxTokens)
              == if Estimate(Join("\n", more)) > maxTokens then k else KeptLines(lines, k + 1, fromTop, maxTokens)
  {
    hide Estimate, Join;
  }

  /** _truncate_text, as the loop that grows the kept lines one at a time. */
  method TruncateText(text: string, maxTokens: int, fromTop: bool) returns (r: Option<string>)
    ensures r == Truncated(text, maxTokens, fromTop)
  {
    hide Estimate, Lines, Join, KeptLines, Kept, Fits, Marked;
    if Estimate(text) <= maxTokens {
      return Some(text);
    }
    var lines := Lines(text);
    var result: seq<string> := [];
    var k := 0;
    while k < |lines|
      invariant k <= |lines| && result == if fromTop then lines[|lines| - k..] else lines[..k]
      invariant KeptLines(lines, 0, fromTop, maxTokens) == KeptLines(lines, k, fromTop, maxTokens)
      decreases |lines| - k
    {
      var candidate := if fromTop then [lines[|lines| - 1 - k]] + result else result + [lines[k]];
      assert candidate == if fromTop then lines[|lines| - (k + 1)..] else lines[..k + 1];
      KeptStep(lines, k, fromTop, maxTokens);
      if Estimate(Join("\n", candidate)) > maxTokens {
        break;
      }
      result := candidate;
      k := k + 1;
    }
    KeptStep(lines, k, fromTop, maxTokens);
    if result == [] {
      return None;
    }
    return Some(Marked(Join("\n", result), fromTop));
  }

  // ---- Assembly ----

  datatype Tier = Structural | ThreadHistory | Prompt | Signature
  datatype Component = Component(tier: Tier, text: string)
  datatype Part = Part(tier: Tier, text: string, whole: bool)

  function Texts(parts: seq<Part>): seq<string> {
    if parts == [] then [] else [parts[0].text] + Texts(parts[1..])
  }

  function Cost(cs: seq<Component>): nat {
    if cs == [] then 0 else Estimate(cs[0].text) + Cost(cs[1..])
  }

  /** The simple form of the assembly: highest priority first; each component whole if it fits in
      what is left, else cut to what is left, else left out, and a prompt left out takes the
      signature with it. */
  function Greedy(cs: seq<Component>, budget: int): seq<Part>
    decreases |cs|
  {
    if cs == [] then []
    else
      var c := cs[0];
      if Estimate(c.text) <= budget then
        [Part(c.tier, c.text, true)] + Greedy(cs[1..], budget - Estimate(c.text))
      else
        match Truncated(c.text, budget, c.tier.ThreadHistory?)
        case Some(t) => [Part(c.tier, t, false)]
        case None => Greedy(if c.tier.Prompt? then WithoutSignature(cs[1..]) else cs[1..], budget)
  }

  function WithoutSignature(cs: seq<Component>): (r: seq<Component>)
    ensures |r| <= |cs|
  {
    if cs != [] && cs[0].tier.Signature? then cs[1..] else cs
  }

  /** Each tier at most once, in order of priority. */
  predicate ByPriority(cs: seq<Component>) {
    forall i, j :: 0 <= i < j < |cs| ==> Rank(cs[i].tier) < Rank(cs[j].tier)
  }

  function Rank(l: Tier): nat {
    match l
    case Prompt => 0
    case Signature => 1
    case ThreadHistory => 2
    case Structural => 3
  }

  /** Only the last part can be cut: at most one is, and nothing of lower priority follows it. */
  lemma {:induction false} OnlyTheLastIsCut(cs: seq<Component>, budget: int)
    ensures forall i :: 0 <= i < |Greedy(cs, budget)| - 1 ==> Greedy(cs, budget)[i].whole
    decreases |cs|
  {
    if cs != [] {
      var c := cs[0];
      if Estimate(c.text) <= budget { OnlyTheLastIsCut(cs[1..], budget - Estimate(c.text)); }
      else if Truncated(c.text, budget, c.tier.ThreadHistory?).None? {
        OnlyTheLastIsCut(if c.tier.Prompt? then WithoutSignature(cs[1..]) else cs[1..], budget);
      }
    }
  }

  /** Components that fit together at the head of the list all stay whole. */
  lemma {:induction false} HeadThatFitsStaysWhole(cs: seq<Component>, n: nat, budget: int)
    requires n <= |cs| && Cost(cs[..n]) <= budget
    ensures n <= |Greedy(cs, budget)|
    ensures forall i :: 0 <= i < n ==> Greedy(cs, budget)[i] == Part(cs[i].tier, cs[i].text, true)
  {
    if n > 0 {
      assert cs[..n][1..] == cs[1..][..n - 1];
      HeadThatFitsStaysWhole(cs[1..], n - 1, budget - Estimate(cs[0].text));
    }
  }

  lemma {:induction false} PartsComeFromComponents(cs: seq<Component>, budget: int, t: Tier)
    requires forall i :: 0 <= i < |cs| ==> cs[i].tier != t
    ensures forall p :: p in Greedy(cs, budget) ==> p.tier != t
    decreases |cs|
  {
    hide Truncated;
    if cs != [] {
      var c := cs[0];
      if Estimate(c.text) <= budget { PartsComeFromComponents(cs[1..], budget - Estimate(c.text), t); }
      else if Truncated(c.text, budget, c.tier.ThreadHistory?).None? {
        PartsComeFromComponents(if c.tier.Prompt? then WithoutSignature(cs[1..]) else cs[1..], budget, t);
      }
    }
  }

  /** Over budget, the signature survives whole exactly when it fits together with the prompt. */
  lemma SignatureIsWholeIffItFits(prompt: Component, signature: Component, lower: seq<Component>, budget: int)
    requires prompt.tier.Prompt? && signature.tier.Signature?
    requires forall i :: 0 <= i < |lower| ==> !lower[i].tier.Signature?
    ensures Part(Signature, signature.text, true) in Greedy([prompt, signature] + lower, budget)
            <==> Estimate(prompt.text) + Estimate(signature.text) <= budget
  {
    hide Truncated, Words;
    var cs, after := [prompt, signature] + lower, [signature] + lower;
    var left := budget - Estimate(prompt.text);
    assert cs[1..] == after && after[1..] == lower && WithoutSignature(after) == lower;
    PartsComeFromComponents(lower, budget, Signature);
    PartsComeFromComponents(lower, left, Signature);
    if 0 <= left {
      assert Greedy(cs, budget) == [Part(Prompt, prompt.text, true)] + Greedy(after, left);
      if Estimate(signature.text) <= left {
        assert Greedy(after, left)[0] == Part(Signature, signature.text, true);
      }
    }
  }

  /** Over budget, nothing of the prompt is kept exactly when not even its first line fits; then the
      signature goes too, and what is left of the budget is all for the lower tiers. */
  lemma {:induction false} PromptIsDroppedIff(prompt: Component, rest: seq<Component>, budget: int)
    requires prompt.tier.Prompt? && Estimate(prompt.text) > budget
    requires forall i :: 0 <= i < |rest| ==> !rest[i].tier.Prompt?
    ensures (forall p :: p in Greedy([prompt] + rest, budget) ==> !p.tier.Prompt?)
            <==> !Fits(Lines(prompt.text), 1, false, budget)
    ensures !Fits(Lines(prompt.text), 1, false, budget) ==>
              Greedy([prompt] + rest, budget) == Greedy(WithoutSignature(rest), budget)
  {
    var k := TruncationIsLongest(prompt.text, budget, false);
    hide Truncated, Fits, Lines, Estimate;
    GreedyFirst(prompt, rest, budget);
    PartsComeFromComponents(WithoutSignature(rest), budget, Prompt);
    if k == 0 {
      assert !Fits(Lines(prompt.text), 1, false, budget);
    } else {
      KeepingFewerFits(Lines(prompt.text), k, budget);
      assert Greedy([prompt] + rest, budget)[0].tier.Prompt?;
    }
  }

  lemma KeepingFewerFits(lines: seq<string>, k: nat, maxTokens: int)
    requires 0 < k <= |lines| && Fits(lines, k, false, maxTokens)
    ensures Fits(lines, 1, false, maxTokens)
  {
    KeepingMoreCostsMore(lines, 1, k, false);
  }

  /** n words on one line. */
  function LongLine(n: nat): string { if n == 0 then "" else LongLine(n - 1) + " w" }

  lemma {:induction false} LongLineCounts(n: nat)
    ensures Words(LongLine(n)) == n && Lines(LongLine(n)) == [LongLine(n)]
  {
    if n == 0 {
      SplitNothing('\n');
    } else {
      hide Words, Split, Grow;
      var front := LongLine(n - 1);
      LongLineCounts(n - 1);
      assert LongLine(n) == front + [' '] + ['w'];
      WordsAdd(front, ' ', "w");
      OneWord("w");
      SplitSnoc('\n', front, ' ');
      SplitSnoc('\n', front + [' '], 'w');
      GrowLast('\n', [front], ' ');
      GrowLast('\n', [front + [' ']], 'w');
    }
  }

  /** Such an input: a prompt of one long line is dropped with its signature, and the file tree stays. */
  lemma LongLineLosesToTree(signature: Component)
    requires signature.tier.Signature?
    ensures var prompt, tree := Component(Prompt, LongLine(SYSTEM_PROMPT_BUDGET)), Component(Structural, "w");
      Greedy([prompt, signature, tree], SYSTEM_PROMPT_BUDGET) == [Part(Structural, "w", true)]
  {
    var prompt, tree := Component(Prompt, LongLine(SYSTEM_PROMPT_BUDGET)), Component(Structural, "w");
    LongLineIsTooLong();
    hide LongLine, Words, Lines, Fits;
    PromptIsDroppedIff(prompt, [signature, tree], SYSTEM_PROMPT_BUDGET);
    assert [prompt] + [signature, tree] == [prompt, signature, tree] && [signature, tree][1..] == [tree];
    hide Greedy, Estimate;
    GreedyFirst(tree, [], SYSTEM_PROMPT_BUDGET);
    GreedyOfNothing();
    assert [tree] + [] == [tree];
  }

  lemma LongLineIsTooLong()
    ensures var line := LongLine(SYSTEM_PROMPT_BUDGET);
      && Estimate(line) > SYSTEM_PROMPT_BUDGET && !Fits(Lines(line), 1, false, SYSTEM_PROMPT_BUDGET)
    ensures Estimate("w") == 1
  {
    LongLineCounts(SYSTEM_PROMPT_BUDGET);
    OneWord("w");
    var line := LongLine(SYSTEM_PROMPT_BUDGET);
    assert [line][..1] == [line] && Join("\n", [line]) == line;
    hide LongLine, Words, Lines;
  }

  /** What rounding and one marker can add, in tenths of a token. */
  function Slack(from: nat): nat {
    if from == 0 then 79 else if from == 1 then 70 else if from == 2 then 61 else if from == 3 then 35 else 0
  }

  lemma {:induction false} TotalWordsOfTexts(parts: seq<Part>)
    requires parts != []
    ensures TotalWords(Texts(parts)) == Words(parts[0].text) + TotalWords(Texts(parts[1..]))
  {
    TotalWordsAdd([parts[0].text], Texts(parts[1..]));
    assert [parts[0].text][..0] == [];
  }

  /** The words of the parts cost at most the budget and the slack of the ranks still to come. */
  lemma {:induction false} GreedyCost(cs: seq<Component>, budget: int, from: nat)
    requires ByPriority(cs) && budget >= 0 && from <= 4
    requires forall i :: 0 <= i < |cs| ==> from <= Rank(cs[i].tier)
    ensures 13 * TotalWords(Texts(Greedy(cs, budget))) <= 10 * budget + Slack(from)
    decreases |cs|
  {
    hide Words, Truncated, Lines, Marked;
    if cs != [] {
      var c, parts := cs[0], Greedy(cs, budget);
      var rank := Rank(c.tier);
      var top := c.tier.ThreadHistory?;
      if Estimate(c.text) <= budget {
        GreedyCost(cs[1..], budget - Estimate(c.text), rank + 1);
        assert parts[1..] == Greedy(cs[1..], budget - Estimate(c.text));
        TotalWordsOfTexts(parts);
      } else {
        var k := TruncationIsLongest(c.text, budget, top);
        if k > 0 {
          MarkerWords(Kept(Lines(c.text), k, top), top);
          TotalWordsOfTexts(parts);
          assert Estimate(Kept(Lines(c.text), k, top)) <= budget;
        } else {
          GreedyCost(if c.tier.Prompt? then WithoutSignature(cs[1..]) else cs[1..], budget, from);
        }
      }
    }
  }

  lemma {:induction false} WholeCost(cs: seq<Component>)
    ensures 13 * TotalWords(Texts(Whole(cs))) <= 10 * Cost(cs) + 9 * |cs|
  {
    if cs != [] {
      WholeCost(cs[1..]);
      assert Whole(cs)[1..] == Whole(cs[1..]);
      TotalWordsOfTexts(Whole(cs));
    }
  }

  function Whole(cs: seq<Component>): seq<Part> {
    if cs == [] then [] else [Part(cs[0].tier, cs[0].text, true)] + Whole(cs[1..])
  }

  function SignatureInstruction(link: string): string {
    BEFORE_LINK + link + AFTER_LINK
  }

  const BEFORE_LINK :=
    "When posting any GitHub comment (via add_issue_comment or pull_request_review_write), you MUST "
    + "append this signature at the very end of your comment:\n\n---\n[Link to remote control this session]("

  const AFTER_LINK :=
    ")\n\nDo not include this signature in PR descriptions, commit messages, or any other output — "
    + "only GitHub comments."

  /** Nothing is added once the budget is spent. */
  lemma {:induction false} SpentBudgetAddsNothing(cs: seq<Component>, budget: int)
    requires budget <= 0
    ensures Greedy(cs, budget) == []
    decreases |cs|
  {
    if cs != [] {
      var k := TruncationIsLongest(cs[0].text, budget, cs[0].tier.ThreadHistory?);
      SpentBudgetAddsNothing(if cs[0].tier.Prompt? then WithoutSignature(cs[1..]) else cs[1..], budget);
    }
  }

  predicate IsCore(t: Tier) { t.Prompt? || t.Signature? }

  /** The components that a loop over the list picks out, in list order. */
  function Pick(cs: seq<Component>, tiers: set<Tier>): seq<Component> {
    if cs == [] then [] else (if cs[0].tier in tiers then [cs[0]] else []) + Pick(cs[1..], tiers)
  }

  const CORE := {Prompt, Signature}

  /** At most one prompt, then at most one signature. */
  predicate CoreShape(cs: seq<Component>) {
    && |cs| <= 2 && (forall i :: 0 <= i < |cs| ==> IsCore(cs[i].tier))
    && (|cs| == 2 ==> cs[0].tier.Prompt? && cs[1].tier.Signature?)
  }

  lemma GreedyFirst(c: Component, rest: seq<Component>, budget: int)
    ensures Greedy([c] + rest, budget)
            == if Estimate(c.text) <= budget then [Part(c.tier, c.text, true)] + Greedy(rest, budget - Estimate(c.text))
               else match Truncated(c.text, budget, c.tier.ThreadHistory?)
                    case Some(t) => [Part(c.tier, t, false)]
                    case None => Greedy(if c.tier.Prompt? then WithoutSignature(rest) else rest, budget)
  {
    assert ([c] + rest)[1..] == rest;
  }

  /** What the greedy choice does at a core component: a misfit ends the core. */
  lemma CoreStep(c: Component, todo: seq<Component>, lower: seq<Component>, left: int)
    requires CoreShape([c] + todo) && forall i :: 0 <= i < |lower| ==> !IsCore(lower[i].tier)
    ensures CoreShape(todo)
    ensures Greedy([c] + todo + lower, left)
            == if Estimate(c.text) <= left then [Part(c.tier, c.text, true)] + Greedy(todo + lower, left - Estimate(c.text))
               else match Truncated(c.text, left, false)
                    case Some(t) => [Part(c.tier, t, false)]
                    case None => Greedy(lower, left)
  {
    CoreTail(c, todo);
    AfterMisfit(c, todo, lower);
    hide Greedy, Truncated, Estimate, CoreShape, IsCore, WithoutSignature;
    assert [c] + (todo + lower) == [c] + todo + lower;
    GreedyFirst(c, todo + lower, left);
    GreedyPrompt(c);
  }

  lemma GreedyPrompt(c: Component)
    requires IsCore(c.tier)
    ensures !c.tier.ThreadHistory?
  {
  }

  lemma CoreTail(c: Component, todo: seq<Component>)
    requires CoreShape([c] + todo)
    ensures IsCore(c.tier) && CoreShape(todo)
    ensures todo == [] || (c.tier.Prompt? && |todo| == 1 && todo[0].tier.Signature?)
  {
    var cs := [c] + todo;
    assert cs[0] == c && (todo != [] ==> cs[1] == todo[0]);
    assert forall i :: 0 <= i < |todo| ==> todo[i] == cs[i + 1];
  }

  /** A prompt that is left out takes the signature with it. */
  lemma AfterMisfit(c: Component, todo: seq<Component>, lower: seq<Component>)
    requires todo == [] || (c.tier.Prompt? && |todo| == 1 && todo[0].tier.Signature?)
    requires forall i :: 0 <= i < |lower| ==> !IsCore(lower[i].tier)
    ensures (if c.tier.Prompt? then WithoutSignature(todo + lower) else todo + lower) == lower
  {
    if todo == [] {
      assert todo + lower == lower;
    } else {
      assert (todo + lower)[1..] == lower;
    }
  }

  /** The first loop: prompt and signature, whole or cut or dropped; a misfit ends it. */
  method AddCore(cs: seq<Component>, ghost lower: seq<Component>) returns (parts: seq<Part>, left: int)
    requires CoreShape(Pick(cs, CORE)) && forall i :: 0 <= i < |lower| ==> !IsCore(lower[i].tier)
    ensures left >= 0 && parts + Greedy(lower, left) == Greedy(Pick(cs, CORE) + lower, SYSTEM_PROMPT_BUDGET)
  {
    hide Truncated, Estimate, Greedy, Pick;
    NothingPicked(CORE);
    parts, left := [], SYSTEM_PROMPT_BUDGET;
    ghost var todo := Pick(cs, CORE);
    for i := 0 to |cs|
      invariant left >= 0 && todo == Pick(cs[i..], CORE) && CoreShape(todo)
      invariant parts + Greedy(todo + lower, left) == Greedy(Pick(cs, CORE) + lower, SYSTEM_PROMPT_BUDGET)
    {
      var c := cs[i];
      PickFirst(cs[i..], CORE);
      assert cs[i..][1..] == cs[i + 1..];
      if IsCore(c.tier) {
        assert todo == [c] + Pick(cs[i + 1..], CORE);
        todo := todo[1..];
        CoreStep(c, todo, lower, left);
        if Estimate(c.text) <= left {
          parts, left := parts + [Part(c.tier, c.text, true)], left - Estimate(c.text);
        } else {
          var t := TruncateText(c.text, left, false);
          if t.Some? {
            parts, left := parts + [Part(c.tier, t.value, false)], 0;
            SpentBudgetAddsNothing(lower, 0);
          }
          return;
        }
      }
    }
    assert todo + lower == lower;
  }

  /** The second and third loops: the one component of a tier, from what is left. */
  method AddTier(cs: seq<Component>, tier: Tier, budget: int, ghost lower: seq<Component>)
    returns (parts: seq<Part>, left: int)
    requires !IsCore(tier) && |Pick(cs, {tier})| <= 1 && budget >= 0
    ensures left >= 0 && parts + Greedy(lower, left) == Greedy(Pick(cs, {tier}) + lower, budget)
  {
    hide Truncated, Estimate, Greedy, Pick;
    NothingPicked({tier});
    parts, left := [], budget;
    if budget == 0 {
      SpentBudgetAddsNothing(lower, 0);
      SpentBudgetAddsNothing(Pick(cs, {tier}) + lower, 0);
      return;
    }
    for i := 0 to |cs|
      invariant parts == [] && left == budget && Pick(cs, {tier}) == Pick(cs[i..], {tier})
    {
      var c := cs[i];
      PickFirst(cs[i..], {tier});
      assert cs[i..][1..] == cs[i + 1..];
      if c.tier == tier {
        assert Pick(cs, {tier}) == [c];
        GreedyFirst(c, lower, left);
        if Estimate(c.text) <= left {
          parts, left := [Part(c.tier, c.text, true)], left - Estimate(c.text);
        } else {
          var t := TruncateText(c.text, left, tier.ThreadHistory?);
          if t.Some? {
            parts, left := [Part(c.tier, t.value, false)], 0;
            SpentBudgetAddsNothing(lower, 0);
          }
        }
        return;
      }
    }
    assert [] + lower == lower;
  }

  /** The three loops, when the components do not all fit. */
  method Fill(components: seq<Component>) returns (final: seq<Part>)
    requires CoreShape(Pick(components, CORE))
    requires |Pick(components, {ThreadHistory})| <= 1 && |Pick(components, {Structural})| <= 1
    ensures final == Greedy(Pick(components, CORE) + (Pick(components, {ThreadHistory}) + Pick(components, {Structural})),
                            SYSTEM_PROMPT_BUDGET)
  {
    GreedyOfNothing();
    hide Greedy, CoreShape;
    ghost var history, structural := Pick(components, {ThreadHistory}), Pick(components, {Structural});
    PickTier(components, ThreadHistory);
    PickTier(components, Structural);
    var core, left := AddCore(components, history + structural);
    var more, left' := AddTier(components, ThreadHistory, left, structural);
    var last, left'' := AddTier(components, Structural, left', []);
    assert structural + [] == structural && last + [] == last;
    final := core + more + last;
    assert final == core + (more + last);
  }

  lemma GreedyOfNothing()
    ensures forall budget :: Greedy([], budget) == []
  {
  }

  lemma {:induction false} PickTier(cs: seq<Component>, t: Tier)
    ensures forall i :: 0 <= i < |Pick(cs, {t})| ==> Pick(cs, {t})[i].tier == t
  {
    if cs != [] { PickTier(cs[1..], t); }
  }

  lemma {:induction false} PickAdd(a: seq<Component>, b: seq<Component>, tiers: set<Tier>)
    ensures Pick(a + b, tiers) == Pick(a, tiers) + Pick(b, tiers) && Cost(a + b) == Cost(a) + Cost(b)
  {
    hide Estimate, Pick, Cost;
    if a == [] {
      NothingPicked(tiers);
      assert a + b == b;
    } else {
      PickAdd(a[1..], b, tiers);
      PickFirst(a, tiers);
      PickFirst(a + b, tiers);
      assert (a + b)[1..] == a[1..] + b;
    }
  }

  lemma NothingPicked(tiers: set<Tier>)
    ensures Pick([], tiers) == [] && Cost([]) == 0
  {
  }

  lemma PickFirst(cs: seq<Component>, tiers: set<Tier>)
    requires cs != []
    ensures Pick(cs, tiers) == (if cs[0].tier in tiers then [cs[0]] else []) + Pick(cs[1..], tiers)
    ensures Cost(cs) == Estimate(cs[0].text) + Cost(cs[1..])
  {
  }

  predicate AtMostOne(cs: seq<Component>, t: Tier) {
    cs == [] || (|cs| == 1 && cs[0].tier == t)
  }

  lemma PickAtMostOne(cs: seq<Component>, t: Tier, tiers: set<Tier>)
    requires AtMostOne(cs, t)
    ensures Pick(cs, tiers) == if t in tiers then cs else []
  {
  }

  lemma PicksOfListed(structural: seq<Component>, history: seq<Component>, prompt: seq<Component>, signature: seq<Component>,
                      tiers: set<Tier>)
    requires AtMostOne(structural, Structural) && AtMostOne(history, ThreadHistory)
    requires AtMostOne(prompt, Prompt) && AtMostOne(signature, Signature)
    ensures Pick(structural + history + prompt + signature, tiers)
            == (if Structural in tiers then structural else []) + (if ThreadHistory in tiers then history else [])
               + (if Prompt in tiers then prompt else []) + (if Signature in tiers then signature else [])
    ensures Cost(structural + history + prompt + signature) == Cost(prompt + signature + (history + structural))
  {
    hide Pick, Cost, AtMostOne;
    PickAdd(structural + history + prompt, signature, tiers);
    PickAdd(structural + history, prompt, tiers);
    PickAdd(structural, history, tiers);
    PickAdd(prompt + signature, history + structural, tiers);
    PickAdd(prompt, signature, tiers);
    PickAdd(history, structural, tiers);
    PickAtMostOne(structural, Structural, tiers);
    PickAtMostOne(history, ThreadHistory, tiers);
    PickAtMostOne(prompt, Prompt, tiers);
    PickAtMostOne(signature, Signature, tiers);
  }

  lemma InOrder(structural: seq<Component>, history: seq<Component>, prompt: seq<Component>, signature: seq<Component>)
    requires AtMostOne(structural, Structural) && AtMostOne(history, ThreadHistory)
    requires AtMostOne(prompt, Prompt) && AtMostOne(signature, Signature)
    ensures ByPriority(prompt + signature + (history + structural)) && CoreShape(prompt + signature)
    ensures |structural| <= 1 && |history| <= 1 && |structural + history + prompt + signature| <= 4
  {
    RanksOfPairs();
    hide AtMostOne, ByPriority, CoreShape, Rank;
    PairInOrder(prompt, signature, Prompt, Signature);
    PairInOrder(history, structural, ThreadHistory, Structural);
    CoreInOrder(prompt, signature);
    RanksInOrder();
    TwoByPriority(prompt + signature, history + structural);
  }

  lemma RanksOfPairs()
    ensures Rank(Prompt) < Rank(Signature) && Rank(ThreadHistory) < Rank(Structural)
  {
  }

  lemma RanksInOrder()
    ensures forall a: Tier, b: Tier :: (a.Prompt? || a.Signature?) && (b.ThreadHistory? || b.Structural?) ==> Rank(a) < Rank(b)
  {
  }

  lemma CoreInOrder(prompt: seq<Component>, signature: seq<Component>)
    requires AtMostOne(prompt, Prompt) && AtMostOne(signature, Signature)
    ensures CoreShape(prompt + signature)
  {
  }

  lemma PairInOrder(a: seq<Component>, b: seq<Component>, ta: Tier, tb: Tier)
    requires AtMostOne(a, ta) && AtMostOne(b, tb) && Rank(ta) < Rank(tb)
    ensures ByPriority(a + b) && |a| <= 1 && |b| <= 1 && |a + b| == |a| + |b|
    ensures forall i :: 0 <= i < |a + b| ==> (a + b)[i].tier == ta || (a + b)[i].tier == tb
  {
  }

  lemma TwoByPriority(a: seq<Component>, b: seq<Component>)
    requires ByPriority(a) && ByPriority(b)
    requires forall i, j :: 0 <= i < |a| && 0 <= j < |b| ==> Rank(a[i].tier) < Rank(b[j].tier)
    ensures ByPriority(a + b)
  {
  }

  class SDKOptionsBuilder {
    var structuralContext: Option<string>
    var threadHistory: Option<string>
    var systemPrompt: Option<string>
    var sessionSignature: Option<string>

    constructor ()
      ensures structuralContext.None? && threadHistory.None? && systemPrompt.None? && sessionSignature.None?
    {
      structuralContext, threadHistory, systemPrompt, sessionSignature := None, None, None, None;
    }

    /** A component is present when it is not blank. */
    static function Present(tier: Tier, c: Option<string>): (cs: seq<Component>)
      ensures AtMostOne(cs, tier)
    {
      if c.Some? && Strip(c.value) != "" then [Component(tier, Strip(c.value))] else []
    }

    static function Signed(link: Option<string>): seq<Component> {
      if link.Some? && link.value != "" then [Component(Signature, SignatureInstruction(link.value))] else []
    }

    static lemma SignedIsAtMostOne(link: Option<string>)
      ensures AtMostOne(Signed(link), Signature)
    {
      hide SignatureInstruction;
    }

    /** A present component is the given text without the whitespace around it, and a text of nothing but
        whitespace is not present. */
    static lemma PresentMeans(tier: Tier, c: Option<string>)
      ensures Present(tier, c) == [] <==> c.None? || forall i :: 0 <= i < |c.value| ==> IsSpace(c.value[i])
      ensures Present(tier, c) != [] ==>
                exists i, j :: 0 <= i < j <= |c.value| && Present(tier, c) == [Component(tier, c.value[i..j])]
                  && !IsSpace(c.value[i]) && !IsSpace(c.value[j - 1])
                  && forall k :: 0 <= k < i || j <= k < |c.value| ==> IsSpace(c.value[k])
    {
      if c.Some? {
        var i, j := StripMeans(c.value);
        hide Strip, IsSpace;
        if i < j { assert c.value[i..j] != "" && !IsSpace(c.value[i]); }
      }
    }

    /** The signature component carries the link, if there is one. */
    static lemma SignedMeans(link: Option<string>)
      ensures match link
              case None => Signed(link) == []
              case Some(url) =>
                if url == "" then Signed(link) == []
                else |Signed(link)| == 1 && Signed(link)[0].tier.Signature? && Carries(Signed(link)[0].text, url)
    {
      hide Carries, SignatureInstruction;
      if link.Some? { LinkIsCarried(link.value); }
    }

    /** The components in order of priority. */
    function Prioritized(): seq<Component>
      reads this
    {
      Present(Prompt, systemPrompt) + Signed(sessionSignature)
      + (Present(ThreadHistory, threadHistory) + Present(Structural, structuralContext))
    }

    /** The components as the method lists them: lowest priority first, but the signature last. */
    function Listed(): seq<Component>
      reads this
    {
      Present(Structural, structuralContext) + Present(ThreadHistory, threadHistory)
      + Present(Prompt, systemPrompt) + Signed(sessionSignature)
    }

    /** With everything present the listed order is structure, history, prompt, signature; the order of
        priority is prompt, signature, history, structure. What is absent is just left out. */
    lemma ListedMeans()
      ensures forall i, j :: 0 <= i < j < |Listed()| ==> Place(Listed()[i].tier) < Place(Listed()[j].tier)
      ensures forall c :: c in Listed() <==>
                || c in Present(Structural, structuralContext) || c in Present(ThreadHistory, threadHistory)
                || c in Present(Prompt, systemPrompt) || c in Signed(sessionSignature)
      ensures forall c :: c in Prioritized() <==> c in Listed()
      ensures ByPriority(Prioritized())
    {
      ListedPicks();
      SignedIsAtMostOne(sessionSignature);
      hide Present, Signed, Pick, Cost, ByPriority, CoreShape;
      var structural, history := Present(Structural, structuralContext), Present(ThreadHistory, threadHistory);
      var prompt, signature := Present(Prompt, systemPrompt), Signed(sessionSignature);
      PlacesInOrder(structural, history, 0, 1);
      PlacesInOrder(structural + history, prompt, 1, 2);
      PlacesInOrder(structural + history + prompt, signature, 2, 3);
    }

    lemma ListedPicks()
      ensures CoreShape(Pick(Listed(), CORE))
      ensures |Pick(Listed(), {ThreadHistory})| <= 1 && |Pick(Listed(), {Structural})| <= 1
      ensures Prioritized() == Pick(Listed(), CORE) + (Pick(Listed(), {ThreadHistory}) + Pick(Listed(), {Structural}))
      ensures Cost(Listed()) == Cost(Prioritized()) && |Listed()| <= 4 && ByPriority(Prioritized())
    {
      hide Present, Signed, Pick, Cost, Estimate, CoreShape, ByPriority, AtMostOne;
      var structural, history := Present(Structural, structuralContext), Present(ThreadHistory, threadHistory);
      var prompt, signature := Present(Prompt, systemPrompt), Signed(sessionSignature);
      SignedIsAtMostOne(sessionSignature);
      InOrder(structural, history, prompt, signature);
      PicksOfListed(structural, history, prompt, signature, CORE);
      PicksOfListed(structural, history, prompt, signature, {ThreadHistory});
      PicksOfListed(structural, history, prompt, signature, {Structural});
      assert Pick(Listed(), CORE) == prompt + signature;
    }

    /** Six tokens over the budget are reached, so no smaller constant bounds the result: a short prompt,
        and a history whose last line takes all that is left. */
    lemma SixOverIsReached()
      requires systemPrompt == Some("w w w") && threadHistory == Some("w\n" + LongLine(9229))
      requires structuralContext.None? && sessionSignature.None?
      ensures Cost(Prioritized()) > SYSTEM_PROMPT_BUDGET
      ensures Estimate(Join("\n\n", Texts(Greedy(Prioritized(), SYSTEM_PROMPT_BUDGET)))) == SYSTEM_PROMPT_BUDGET + 6
    {
      hide Greedy, LongLine, Estimate, Cost, Words, Join, Texts, Strip;
      var prompt, history := Component(Prompt, "w w w"), Component(ThreadHistory, "w\n" + LongLine(9229));
      assert Strip(prompt.text) == prompt.text by { StripKeeps(prompt.text); }
      assert Strip(history.text) == history.text by { HistoryIsStripped(9229); }
      assert Prioritized() == [prompt, history];
      WorstCaseCost(prompt, history);
      WorstCaseParts(prompt, history);
      WorstCaseWords();
    }

    /** Whatever the inputs, the assembled prompt stays within six tokens of the budget. It is all
        the components when they fit together, and otherwise what the greedy form keeps. */
    method AssembleSystemPrompt() returns (r: Option<string>, ghost parts: seq<Part>)
      ensures parts == if Cost(Prioritized()) <= SYSTEM_PROMPT_BUDGET then Whole(Listed())
                       else Greedy(Prioritized(), SYSTEM_PROMPT_BUDGET)
      ensures r == if parts == [] then None else Some(Join("\n\n", Texts(parts)))
      ensures r.Some? ==> Estimate(r.value) <= SYSTEM_PROMPT_BUDGET + 6
    {
      ListedPicks();
      hide Words, Greedy, CoreShape, Pick, Listed, Prioritized, Join, TotalWords, Texts;
      var components := Listed();
      if components == [] {
        return None, [];
      }
      var final;
      if Cost(components) <= SYSTEM_PROMPT_BUDGET {
        final := Whole(components);
        WholeCost(components);
      } else {
        final := Fill(components);
        ByPriorityRanks(Prioritized());
        GreedyCost(Prioritized(), SYSTEM_PROMPT_BUDGET, 0);
      }
      WordsOfJoin("\n\n", Texts(final));
      parts := final;
      r := if final == [] then None else Some(Join("\n\n", Texts(final)));
    }
  }

  /** Where a tier comes in the assembled prompt when everything fits. */
  function Place(t: Tier): nat {
    match t
    case Structural => 0
    case ThreadHistory => 1
    case Prompt => 2
    case Signature => 3
  }

  lemma PlacesInOrder(a: seq<Component>, b: seq<Component>, last: nat, next: nat)
    requires forall i, j :: 0 <= i < j < |a| ==> Place(a[i].tier) < Place(a[j].tier)
    requires forall i :: 0 <= i < |a| ==> Place(a[i].tier) <= last
    requires |b| <= 1 && (forall i :: 0 <= i < |b| ==> Place(b[i].tier) == next) && last < next
    ensures forall i, j :: 0 <= i < j < |a + b| ==> Place((a + b)[i].tier) < Place((a + b)[j].tier)
    ensures forall i :: 0 <= i < |a + b| ==> Place((a + b)[i].tier) <= next
  {
  }

  ghost predicate Carries(text: string, part: string) {
    exists i: nat {:trigger text[i..]} :: i <= |text| && part <= text[i..]
  }

  lemma LinkIsCarried(link: string)
    ensures Carries(SignatureInstruction(link), link)
  {
    hide BEFORE_LINK, AFTER_LINK;
    assert (BEFORE_LINK + link + AFTER_LINK)[|BEFORE_LINK|..] == link + AFTER_LINK;
  }

  lemma ByPriorityRanks(cs: seq<Component>)
    ensures forall i :: 0 <= i < |cs| ==> 0 <= Rank(cs[i].tier)
  {
  }

  // ---- The input that goes six tokens over ----

  lemma StripKeeps(s: string)
    requires s != "" && !IsSpace(s[0]) && !IsSpace(s[|s| - 1])
    ensures Strip(s) == s
  {
  }

  lemma LongLineEnds(n: nat)
    requires n > 0
    ensures LongLine(n) != "" && LongLine(n)[|LongLine(n)| - 1] == 'w'
  {
  }

  lemma HistoryIsStripped(n: nat)
    requires n > 0
    ensures Strip("w\n" + LongLine(n)) == "w\n" + LongLine(n)
  {
    LongLineEnds(n);
    hide LongLine;
    StripKeeps("w\n" + LongLine(n));
  }

  lemma ThreeWords()
    ensures Words("w w w") == 3
  {
    hide Words;
    OneWord("w");
    WordsAdd("w", ' ', "w");
    WordsAdd("w w", ' ', "w");
    assert "w w w" == "w w" + [' '] + "w" && "w w" == "w" + [' '] + "w";
  }

  lemma HistoryWords(n: nat)
    ensures Words("w\n" + LongLine(n)) == n + 1 && Lines("w\n" + LongLine(n)) == ["w", LongLine(n)]
  {
    hide Words, LongLine, Split;
    LongLineCounts(n);
    OneWord("w");
    WordsAdd("w", '\n', LongLine(n));
    assert "w" + ['\n'] + LongLine(n) == "w\n" + LongLine(n);
    LineThen(LongLine(n));
  }

  lemma {:induction false} LineThen(rest: string)
    requires Lines(rest) == [rest]
    ensures Lines("w\n" + rest) == ["w", rest]
  {
    hide Grow;
    SplitNothing('\n');
    SplitSnoc('\n', "", 'w');
    GrowLast('\n', [""], 'w');
    SplitSnoc('\n', "w", '\n');
    GrowBySeparator('\n', ["w"]);
    assert "" + ['w'] == "w" && "w" + ['\n'] == "w\n" && [""][..0] + ["w"] == ["w"];
    hide Split;
    assert Lines("w\n") == ["w"] + [""] && ["w", ""][..1] == ["w"];
    assert Partial("w\n") + rest == rest;
    LinesResume("w\n", rest);
    assert Complete("w\n") == ["w"] && Partial("w\n") + rest == rest;
  }

  lemma WorstCaseCost(prompt: Component, history: Component)
    requires prompt.text == "w w w" && history.text == "w\n" + LongLine(9229)
    ensures Estimate(prompt.text) == 3 && Estimate(history.text) == 11_999
    ensures Cost([prompt, history]) == 12_002
  {
    hide Words, LongLine;
    ThreeWords();
    HistoryWords(9229);
    hide Estimate;
    assert [prompt, history][1..] == [history] && [history][1..] == [] && Cost([]) == 0;
    assert Cost([history]) == Estimate(history.text);
  }

  function WorstCaseHistory(): string { OLDER_TRUNCATED + "\n" + LongLine(9229) }

  lemma WorstCaseTruncation()
    ensures Truncated("w\n" + LongLine(9229), 11_997, true) == Some(WorstCaseHistory())
  {
    hide Words, LongLine, Lines;
    HistoryWords(9229);
    LongLineCounts(9229);
    var lines := ["w", LongLine(9229)];
    assert lines[1..] == [LongLine(9229)] && lines[0..] == lines;
    assert Join("\n", [LongLine(9229)]) == LongLine(9229);
    JoinOfLines("w\n" + LongLine(9229));
    assert Kept(lines, 1, true) == LongLine(9229) && Kept(lines, 2, true) == "w\n" + LongLine(9229);
    hide Kept, Join;
    assert KeptLines(lines, 1, true, 11_997) == 1;
  }

  lemma WorstCaseParts(prompt: Component, history: Component)
    requires prompt == Component(Prompt, "w w w") && history == Component(ThreadHistory, "w\n" + LongLine(9229))
    ensures Texts(Greedy([prompt, history], SYSTEM_PROMPT_BUDGET)) == ["w w w", WorstCaseHistory()]
  {
    hide Greedy, LongLine, Estimate, Truncated, WorstCaseHistory;
    WorstCaseCost(prompt, history);
    GreedyFirst(prompt, [history], SYSTEM_PROMPT_BUDGET);
    assert [prompt] + [history] == [prompt, history];
    WorstCaseTruncation();
    GreedyFirst(history, [], SYSTEM_PROMPT_BUDGET - 3);
    assert [history] + [] == [history];
    TextsOfTwo(Part(Prompt, "w w w", true), Part(ThreadHistory, WorstCaseHistory(), false));
  }

  lemma TextsOfTwo(a: Part, b: Part)
    ensures Texts([a] + [b]) == [a.text, b.text]
  {
    TextsAfter([], a);
    TextsAfter([a], b);
    assert [] + [a] == [a];
  }

  lemma {:induction false} TextsAfter(parts: seq<Part>, last: Part)
    ensures Texts(parts + [last]) == Texts(parts) + [last.text]
  {
    if parts == [] {
      assert parts + [last] == [last] && [last][1..] == [] && Texts([]) == [];
    } else {
      TextsAfter(parts[1..], last);
      assert (parts + [last])[1..] == parts[1..] + [last];
    }
  }

  lemma WorstCaseWords()
    ensures Estimate(Join("\n\n", ["w w w", WorstCaseHistory()])) == SYSTEM_PROMPT_BUDGET + 6
  {
    hide Words, LongLine;
    ThreeWords();
    LongLineCounts(9229);
    OlderTruncatedCounts();
    WordsAdd(OLDER_TRUNCATED, '\n', LongLine(9229));
    assert OLDER_TRUNCATED + ['\n'] + LongLine(9229) == WorstCaseHistory();
    hide WorstCaseHistory;
    var parts := ["w w w", WorstCaseHistory()];
    WordsOfJoin("\n\n", parts);
    assert parts[..1] == ["w w w"] && parts[..1][..0] == [];
    assert TotalWords(parts[..1]) == 3 && TotalWords(parts) == 9236;
  }
}
