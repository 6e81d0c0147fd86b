/** The bounded, depth-limited directory listing. A directory's entries are taken as iterdir
    returns them after sorting; which of them are excluded or ignored is a parameter. */
module FileTree {
  import opened Basics
  import opened Text

  datatype Entry = File(name: string) | Dir(name: string, children: seq<Entry>, readable: bool)

  /** What to leave out (relative path, is it a directory), and how deep and how much to list. */
  datatype Options = Options(hidden: (string, bool) -> bool, maxDepth: nat, maxEntries: nat)

  /** A line of the listing. `at` is the directory it belongs to, as positions from the root. */
  datatype Line =
    | Listed(at: seq<nat>, text: string)
    | Marker(at: seq<nat>, text: string, more: nat)

  /** Where a level of the walk is: its directory, the indentation, the depth and the path so far. */
  datatype Level = Level(at: seq<nat>, prefix: string, depth: nat, rel: string)

  const TEE := "├── "
  const LAST := "└── "

  function Visible(o: Options, entries: seq<Entry>, rel: string): seq<Entry> {
    if entries == [] then []
    else
      var e := entries[|entries| - 1];
      Visible(o, entries[..|entries| - 1], rel) + if o.hidden(rel + e.name, e.Dir?) then [] else [e]
  }

  /** What is neither excluded nor ignored in a directory. */
  function Shown(o: Options, rel: string): Entry -> bool { (e: Entry) => !o.hidden(rel + e.name, e.Dir?) }

  /** The visible entries are those, in their order. */
  lemma {:induction false} VisibleMeans(o: Options, entries: seq<Entry>, rel: string)
    ensures var kept := Indices(Shown(o, rel), entries);
      && |Visible(o, entries, rel)| == |kept|
      && forall j :: 0 <= j < |kept| ==> kept[j] < |entries| && Visible(o, entries, rel)[j] == entries[kept[j]]
  {
    if entries != [] {
      VisibleMeans(o, entries[..|entries| - 1], rel);
      IndicesSnoc(Shown(o, rel), entries);
      IndicesInside(Shown(o, rel), entries);
    }
  }

  function EntryLine(visible: seq<Entry>, i: nat, l: Level): Line
    requires i < |visible|
  {
    var connector := if i == |visible| - 1 then LAST else TEE;
    Listed(l.at, l.prefix + connector + visible[i].name + if visible[i].Dir? then "/" else "")
  }

  function MarkerLine(more: nat, l: Level): Line {
    Marker(l.at, l.prefix + "... (truncated, " + Decimal(more) + " more entries)", more)
  }

  /** The level below entry i. */
  function Below(visible: seq<Entry>, i: nat, l: Level): Level
    requires i < |visible|
  {
    Level(l.at + [i], l.prefix + (if i == |visible| - 1 then "    " else "│   "), l.depth + 1, l.rel + visible[i].name + "/")
  }

  /** What is listed below entry i when nothing but the depth limits it. */
  function Inside(o: Options, visible: seq<Entry>, i: nat, l: Level): seq<Entry>
    requires i < |visible|
  {
    var e := visible[i];
    if e.Dir? && l.depth < o.maxDepth && e.readable then Visible(o, e.children, l.rel + e.name + "/") else []
  }

  /** The whole filtered, depth-limited tree in preorder, from entry i of a level on. */
  function Preorder(o: Options, visible: seq<Entry>, i: nat, l: Level): seq<Line>
    requires i <= |visible|
    decreases o.maxDepth - l.depth, |visible| - i
  {
    if i == |visible| then []
    else
      [EntryLine(visible, i, l)]
      + (if l.depth < o.maxDepth then Preorder(o, Inside(o, visible, i, l), 0, Below(visible, i, l)) else [])
      + Preorder(o, visible, i + 1, l)
  }

  /** The same walk with a budget, from entry i of a level on. */
  function Walk(o: Options, visible: seq<Entry>, i: nat, l: Level, budget: nat): seq<Line>
    requires i <= |visible|
    decreases o.maxDepth - l.depth, |visible| - i
  {
    if i == |visible| then []
    else if budget == 0 then [MarkerLine(|visible| - i, l)]
    else
      var below := WalkBelow(o, visible, i, l, budget - 1);
      [EntryLine(visible, i, l)] + below + Walk(o, visible, i + 1, l, Left(budget - 1, below))
  }

  /** The recursive call on entry i: nothing for a file, below the depth limit, or with the budget spent. */
  function WalkBelow(o: Options, visible: seq<Entry>, i: nat, l: Level, budget: nat): seq<Line>
    requires i < |visible|
    decreases o.maxDepth - l.depth, |visible| - i, 0
  {
    if l.depth < o.maxDepth && budget > 0 then Walk(o, Inside(o, visible, i, l), 0, Below(visible, i, l), budget) else []
  }

  /** The lines that are entries, without the markers. */
  function Entries(lines: seq<Line>): seq<Line> {
    if lines == [] then []
    else Entries(lines[..|lines| - 1]) + if lines[|lines| - 1].Listed? then [lines[|lines| - 1]] else []
  }

  function Left(budget: nat, lines: seq<Line>): nat {
    if |Entries(lines)| < budget then budget - |Entries(lines)| else 0
  }

  function Take<T>(s: seq<T>, n: nat): seq<T> { if n < |s| then s[..n] else s }

  lemma {:induction false} EntriesAdd(a: seq<Line>, b: seq<Line>)
    ensures Entries(a + b) == Entries(a) + Entries(b)
  {
    if b == [] {
      assert a + b == a;
    } else {
      EntriesAdd(a, b[..|b| - 1]);
      assert (a + b)[..|a + b| - 1] == a + b[..|b| - 1];
    }
  }

  lemma EntriesOfOne(line: Line)
    ensures Entries([line]) == if line.Listed? then [line] else []
  {
    assert [line][..0] == [];
  }

  /** The bounded walk lists exactly the first entries of the preorder, as many as the budget allows. */
  lemma {:induction false} WalkListsPrefix(o: Options, visible: seq<Entry>, i: nat, l: Level, budget: nat)
    requires i <= |visible|
    ensures Entries(Walk(o, visible, i, l, budget)) == Take(Preorder(o, visible, i, l), budget)
    decreases o.maxDepth - l.depth, |visible| - i
  {
    hide Entries, Take, EntryLine, MarkerLine;
    if i == |visible| {
      NothingListed(budget);
    } else {
      NothingListed(budget);
      if budget == 0 {
        EntriesOfOne(MarkerLine(|visible| - i, l));
      } else {
        var head, below := EntryLine(visible, i, l), WalkBelow(o, visible, i, l, budget - 1);
        var full := if l.depth < o.maxDepth then Preorder(o, Inside(o, visible, i, l), 0, Below(visible, i, l)) else [];
        if l.depth < o.maxDepth && budget > 1 {
          WalkListsPrefix(o, Inside(o, visible, i, l), 0, Below(visible, i, l), budget - 1);
        }
        NothingListed(budget - 1);
        if l.depth < o.maxDepth && budget == 1 {
          assert below == [] && Take(full, 0) == [];
        }
        assert Entries(below) == Take(full, budget - 1);
        var left := Left(budget - 1, below);
        WalkListsPrefix(o, visible, i + 1, l, left);
        var rest := Preorder(o, visible, i + 1, l);
        EntriesOfOne(head);
        EntriesAdd([head] + below, Walk(o, visible, i + 1, l, left));
        EntriesAdd([head], below);
        TakeThrough(head, full, rest, budget, left);
      }
    }
  }

  lemma NothingListed(budget: nat)
    ensures Entries([]) == [] && Take<Line>([], budget) == []
    ensures forall s: seq<Line> :: Take(s, 0) == []
    ensures forall more: nat, l: Level :: MarkerLine(more, l).Marker?
    ensures forall v: seq<Entry>, i: nat, l: Level :: i < |v| ==> EntryLine(v, i, l).Listed?
  {
  }

  lemma TakeThrough<T>(head: T, full: seq<T>, rest: seq<T>, budget: nat, left: nat)
    requires budget > 0
    requires left == if |Take(full, budget - 1)| < budget - 1 then budget - 1 - |Take(full, budget - 1)| else 0
    ensures [head] + Take(full, budget - 1) + Take(rest, left) == Take([head] + full + rest, budget)
  {
  }

  // ---- Markers ----

  function BelongsTo(at: seq<nat>): Line -> bool { (line: Line) => line.Listed? && line.at == at }

  /** How many entries of a listing belong to a directory. */
  function InDir(lines: seq<Line>, at: seq<nat>): nat { Count(BelongsTo(at), lines) }

  /** A line of a level from entry i on, or of something below those entries. */
  predicate FromEntry(line: Line, at: seq<nat>, i: nat) {
    line.at == at || (|line.at| > |at| && line.at[..|at|] == at && line.at[|at|] >= i)
  }

  lemma {:induction false} InDirAdd(a: seq<Line>, b: seq<Line>, at: seq<nat>)
    ensures InDir(a + b, at) == InDir(a, at) + InDir(b, at)
  {
    if b == [] {
      assert a + b == a;
    } else {
      InDirAdd(a, b[..|b| - 1], at);
      assert (a + b)[..|a + b| - 1] == a + b[..|b| - 1];
    }
  }

  lemma InDirOfOne(line: Line, at: seq<nat>)
    ensures InDir([line], at) == if line.Listed? && line.at == at then 1 else 0
  {
    CountSnoc(BelongsTo(at), [], line);
    assert [] + [line] == [line];
  }

  lemma {:induction false} PreorderStaysUnder(o: Options, visible: seq<Entry>, i: nat, l: Level)
    requires i <= |visible|
    ensures forall line :: line in Preorder(o, visible, i, l) ==> FromEntry(line, l.at, i)
    decreases o.maxDepth - l.depth, |visible| - i
  {
    if i < |visible| {
      PreorderStaysUnder(o, visible, i + 1, l);
      if l.depth < o.maxDepth {
        PreorderStaysUnder(o, Inside(o, visible, i, l), 0, Below(visible, i, l));
        LowerLevel(l.at, i);
      }
    }
  }

  lemma {:induction false} WalkStaysUnder(o: Options, visible: seq<Entry>, i: nat, l: Level, budget: nat)
    requires i <= |visible|
    ensures forall line :: line in Walk(o, visible, i, l, budget) ==> FromEntry(line, l.at, i)
    decreases o.maxDepth - l.depth, |visible| - i
  {
    if i < |visible| && budget > 0 {
      WalkStaysUnder(o, visible, i + 1, l, Left(budget - 1, WalkBelow(o, visible, i, l, budget - 1)));
      if l.depth < o.maxDepth && budget > 1 {
        WalkStaysUnder(o, Inside(o, visible, i, l), 0, Below(visible, i, l), budget - 1);
        LowerLevel(l.at, i);
      }
    }
  }

  lemma LowerLevel(at: seq<nat>, i: nat)
    ensures forall line: Line :: FromEntry(line, at + [i], 0) ==>
              FromEntry(line, at, i) && line.at != at && |line.at| > |at| && line.at[|at|] == i
  {
    forall line: Line | FromEntry(line, at + [i], 0)
      ensures FromEntry(line, at, i) && line.at != at && |line.at| > |at| && line.at[|at|] == i
    {
      assert line.at[..|at| + 1] == at + [i];
      assert line.at[..|at|] == line.at[..|at| + 1][..|at|] && line.at[|at|] == line.at[..|at| + 1][|at|];
    }
  }

  /** A level has as many entries as are left in it, and none of them lies below it. */
  lemma {:induction false} LevelCounts(o: Options, visible: seq<Entry>, i: nat, l: Level)
    requires i <= |visible|
    ensures InDir(Preorder(o, visible, i, l), l.at) == |visible| - i
    decreases |visible| - i
  {
    hide EntryLine, Visible, FromEntry;
    LinesOf(visible, i, l);
    if i == |visible| {
      NoneBelong([], l.at);
    } else {
      var full := Full(o, visible, i, l);
      LevelCounts(o, visible, i + 1, l);
      Unfold(o, visible, i, l, 1);
      BelowIsElsewhere(o, visible, i, l);
      hide Preorder, Full, InDir;
      NoneBelong(full, l.at);
      SplitCounts(EntryLine(visible, i, l), full, Preorder(o, visible, i + 1, l), l.at);
    }
  }

  lemma BelowIsElsewhere(o: Options, visible: seq<Entry>, i: nat, l: Level)
    requires i < |visible|
    ensures forall line :: line in Full(o, visible, i, l) ==> line.at != l.at
  {
    hide Preorder, Inside, FromEntry;
    if l.depth < o.maxDepth {
      PreorderStaysUnder(o, Inside(o, visible, i, l), 0, Below(visible, i, l));
      LowerLevel(l.at, i);
    }
  }

  lemma NoneBelong(lines: seq<Line>, at: seq<nat>)
    requires forall line :: line in lines ==> line.at != at
    ensures InDir(lines, at) == 0
  {
    CountNone(BelongsTo(at), lines);
  }

  /** A marker tells how many entries of its directory the listing leaves out. */
  ghost predicate Exact(m: Line, listing: seq<Line>, full: seq<Line>) {
    m.Marker? ==> m.more > 0 && InDir(listing, m.at) + m.more == InDir(full, m.at)
  }

  /** What the counts need to know of a level's own lines. */
  lemma LinesOf(visible: seq<Entry>, i: nat, l: Level)
    requires i <= |visible|
    ensures i < |visible| ==> var line := EntryLine(visible, i, l); line.Listed? && line.at == l.at
    ensures forall more: nat :: var line := MarkerLine(more, l); line.Marker? && line.at == l.at && line.more == more
    ensures forall line: Line, j: nat :: FromEntry(line, l.at, j) && line.at != l.at ==>
              |line.at| > |l.at| && line.at[|l.at|] >= j
  {
  }

  /** Everything below an entry, without the depth test. */
  function Full(o: Options, visible: seq<Entry>, i: nat, l: Level): seq<Line>
    requires i < |visible|
  {
    if l.depth < o.maxDepth then Preorder(o, Inside(o, visible, i, l), 0, Below(visible, i, l)) else []
  }

  /** A line of what is below entry i belongs to no directory of a later entry, nor to the level itself. */
  lemma Apart(o: Options, visible: seq<Entry>, i: nat, l: Level, budget: nat, left: nat)
    requires i < |visible|
    ensures forall line, other ::
              (line in WalkBelow(o, visible, i, l, budget) || line in Full(o, visible, i, l))
              && (other in Walk(o, visible, i + 1, l, left) || other in Preorder(o, visible, i + 1, l))
              ==> line.at != other.at
  {
    WalkStaysUnder(o, visible, i + 1, l, left);
    PreorderStaysUnder(o, visible, i + 1, l);
    hide Walk, Preorder, FromEntry;
    if l.depth < o.maxDepth {
      PreorderStaysUnder(o, Inside(o, visible, i, l), 0, Below(visible, i, l));
      if budget > 0 { WalkStaysUnder(o, Inside(o, visible, i, l), 0, Below(visible, i, l), budget); }
    }
    LowerLevel(l.at, i);
    LaterEntries(l.at, i);
  }

  lemma LaterEntries(at: seq<nat>, i: nat)
    ensures forall line: Line :: FromEntry(line, at, i + 1) ==>
              line.at == at || (|line.at| > |at| && line.at[|at|] > i)
  {
  }

  /** The head, what is below it, and what follows: how a walk and the preorder unfold. */
  lemma Unfold(o: Options, visible: seq<Entry>, i: nat, l: Level, budget: nat)
    requires i < |visible| && budget > 0
    ensures var below := WalkBelow(o, visible, i, l, budget - 1);
      Walk(o, visible, i, l, budget)
      == [EntryLine(visible, i, l)] + below + Walk(o, visible, i + 1, l, Left(budget - 1, below))
    ensures Preorder(o, visible, i, l)
            == [EntryLine(visible, i, l)] + Full(o, visible, i, l) + Preorder(o, visible, i + 1, l)
  {
  }

  /** Each marker counts exactly the unlisted entries of its directory. */
  lemma {:induction false} MarkersAreExact(o: Options, visible: seq<Entry>, i: nat, l: Level, budget: nat, m: Line)
    requires i <= |visible| && m in Walk(o, visible, i, l, budget)
    ensures Exact(m, Walk(o, visible, i, l, budget), Preorder(o, visible, i, l))
    decreases o.maxDepth - l.depth, |visible| - i
  {
    hide Entries, EntryLine, MarkerLine, Visible, InDir, FromEntry, Left, Preorder, Inside;
    LinesOf(visible, i, l);
    if m.Marker? && budget == 0 {
      LevelCounts(o, visible, i, l);
      InDirOfOne(m, l.at);
    } else if m.Marker? {
      var below := WalkBelow(o, visible, i, l, budget - 1);
      var left := Left(budget - 1, below);
      Unfold(o, visible, i, l, budget);
      Apart(o, visible, i, l, budget - 1, left);
      if m in below {
        MarkersAreExact(o, Inside(o, visible, i, l), 0, Below(visible, i, l), budget - 1, m);
      } else {
        MarkersAreExact(o, visible, i + 1, l, left, m);
      }
      hide Walk, WalkBelow, Full;
      SplitExact(EntryLine(visible, i, l), below, Walk(o, visible, i + 1, l, left),
                 Full(o, visible, i, l), Preorder(o, visible, i + 1, l), m);
    }
  }

  /** A marker that is exact in its part is exact in the whole, when the parts share no directory. */
  lemma SplitExact(head: Line, below: seq<Line>, rest: seq<Line>, full: seq<Line>, after: seq<Line>, m: Line)
    requires m.Marker? && (m in below || m in rest) && head.Listed?
    requires forall line, other :: (line in below || line in full) && (other in rest || other in after) ==> line.at != other.at
    requires if m in below then Exact(m, below, full) else Exact(m, rest, after)
    ensures Exact(m, [head] + below + rest, [head] + full + after)
  {
    hide InDir;
    SplitCounts(head, below, rest, m.at);
    SplitCounts(head, full, after, m.at);
    if m in below {
      NoneBelong(rest, m.at);
      NoneBelong(after, m.at);
    } else {
      NoneBelong(below, m.at);
      NoneBelong(full, m.at);
    }
  }

  lemma SplitCounts(head: Line, middle: seq<Line>, rest: seq<Line>, at: seq<nat>)
    ensures InDir([head] + middle + rest, at)
            == (if head.Listed? && head.at == at then 1 else 0) + InDir(middle, at) + InDir(rest, at)
  {
    InDirAdd([head] + middle, rest, at);
    InDirAdd([head], middle, at);
    InDirOfOne(head, at);
  }

  // ---- Every directory down to the depth limit ----

  /** The visible entries of the directory that `path` leads to: none where a step is not a readable
      directory or goes below the depth limit. */
  function Inner(o: Options, visible: seq<Entry>, l: Level, path: seq<nat>): seq<Entry>
    decreases |path|
  {
    if path == [] then visible
    else
      var i := path[0];
      if i < |visible| && l.depth < o.maxDepth && visible[i].Dir? && visible[i].readable
      then Inner(o, Visible(o, visible[i].children, l.rel + visible[i].name + "/"), Below(visible, i, l), path[1..])
      else []
  }

  /** The preorder has every visible entry of every directory down to the depth limit, once each, and no
      others. */
  lemma {:induction false} EveryDirectoryIsListed(o: Options, visible: seq<Entry>, i: nat, l: Level, path: seq<nat>)
    requires i <= |visible|
    ensures InDir(Preorder(o, visible, i, l), l.at + path)
            == if path == [] then |visible| - i else if path[0] < i then 0 else |Inner(o, visible, l, path)|
    decreases o.maxDepth - l.depth, |visible| - i
  {
    hide Visible, EntryLine, FromEntry;
    if path == [] {
      assert l.at + path == l.at;
      LevelCounts(o, visible, i, l);
    } else if i == |visible| {
      NoneBelong([], l.at + path);
    } else {
      EveryDirectoryIsListed(o, visible, i + 1, l, path);
      Unfold(o, visible, i, l, 1);
      BelowCounts(o, visible, i, l, path);
      LinesOf(visible, i, l);
      hide Preorder, Full, InDir;
      SplitCounts(EntryLine(visible, i, l), Full(o, visible, i, l), Preorder(o, visible, i + 1, l), l.at + path);
    }
  }

  lemma BelowCounts(o: Options, visible: seq<Entry>, i: nat, l: Level, path: seq<nat>)
    requires i < |visible| && path != []
    ensures InDir(Full(o, visible, i, l), l.at + path) == if path[0] == i then |Inner(o, visible, l, path)| else 0
    decreases o.maxDepth - l.depth, 0
  {
    hide Visible, InDir, Preorder;
    if l.depth >= o.maxDepth {
      NoneBelong([], l.at + path);
    } else if path[0] == i {
      hide Inner;
      EveryDirectoryIsListed(o, Inside(o, visible, i, l), 0, Below(visible, i, l), path[1..]);
      assert l.at + [i] + path[1..] == l.at + path;
      InnerStep(o, visible, i, l, path);
    } else {
      hide Inside, Inner;
      ElsewhereThan(o, visible, i, l, path);
    }
  }

  lemma InnerStep(o: Options, visible: seq<Entry>, i: nat, l: Level, path: seq<nat>)
    requires i < |visible| && l.depth < o.maxDepth && path != [] && path[0] == i
    ensures Inner(o, visible, l, path) == Inner(o, Inside(o, visible, i, l), Below(visible, i, l), path[1..])
  {
    hide Visible;
    InnerOfNothing(o, Below(visible, i, l), path[1..]);
  }

  /** What is below entry i belongs to no directory on a path through another entry. */
  lemma ElsewhereThan(o: Options, visible: seq<Entry>, i: nat, l: Level, path: seq<nat>)
    requires i < |visible| && l.depth < o.maxDepth && path != [] && path[0] != i
    ensures InDir(Full(o, visible, i, l), l.at + path) == 0
  {
    hide Preorder, Inside, FromEntry, InDir;
    PreorderStaysUnder(o, Inside(o, visible, i, l), 0, Below(visible, i, l));
    LowerLevel(l.at, i);
    assert (l.at + path)[|l.at|] == path[0];
    NoneBelong(Full(o, visible, i, l), l.at + path);
  }

  lemma InnerOfNothing(o: Options, l: Level, path: seq<nat>)
    ensures Inner(o, [], l, path) == []
  {
  }

  // ---- An example, drawn ----

  const EXAMPLE := Options((path: string, isDir: bool) => path == "x", 2, 3)

  /** A hidden entry, a directory with two files, and one entry more than the limit. */
  lemma ExampleListing()
    ensures var a := Dir("a", [File("b"), File("c")], true);
      Texts(Walk(EXAMPLE, Visible(EXAMPLE, [a, File("x"), File("d")], ""), 0, Level([], "", 1, ""), 3))
      == ["├── a/", "│   ├── b", "│   └── c", "... (truncated, 1 more entries)"]
  {
    var a := Dir("a", [File("b"), File("c")], true);
    ExampleVisible(a);
    hide Visible, Walk, Texts;
    var level := Level([], "", 1, "");
    ExampleInner(Below([a, File("d")], 0, level));
    ExampleTop([a, File("d")], level);
  }

  lemma VisibleSnoc(o: Options, entries: seq<Entry>, e: Entry, rel: string)
    ensures Visible(o, entries + [e], rel) == Visible(o, entries, rel) + if o.hidden(rel + e.name, e.Dir?) then [] else [e]
  {
    assert (entries + [e])[..|entries|] == entries;
  }

  lemma ExampleVisible(a: Entry)
    requires a == Dir("a", [File("b"), File("c")], true)
    ensures Visible(EXAMPLE, [a, File("x"), File("d")], "") == [a, File("d")]
    ensures Visible(EXAMPLE, [File("b"), File("c")], "a/") == [File("b"), File("c")]
  {
    assert Visible(EXAMPLE, [], "") == [] && Visible(EXAMPLE, [], "a/") == [];
    assert "" + "a" == "a" && "" + "x" == "x" && "" + "d" == "d" && "a"[0] != 'x' && "d"[0] != 'x';
    assert |"a/" + "b"| == 3 && |"a/" + "c"| == 3;
    hide Visible;
    VisibleSnoc(EXAMPLE, [], a, "");
    VisibleSnoc(EXAMPLE, [a], File("x"), "");
    VisibleSnoc(EXAMPLE, [a, File("x")], File("d"), "");
    assert [] + [a] == [a] && [a] + [File("x")] == [a, File("x")] && [a, File("x")] + [File("d")] == [a, File("x"), File("d")];
    VisibleSnoc(EXAMPLE, [], File("b"), "a/");
    VisibleSnoc(EXAMPLE, [File("b")], File("c"), "a/");
    assert [] + [File("b")] == [File("b")] && [File("b")] + [File("c")] == [File("b"), File("c")];
  }

  lemma ExampleInner(l: Level)
    requires l.depth == 2 && l.prefix == "│   "
    ensures var inner := [File("b"), File("c")];
      var lines := Walk(EXAMPLE, inner, 0, l, 2);
      && |Entries(lines)| == 2 && |lines| == 2
      && lines[0].text == "│   ├── b" && lines[1].text == "│   └── c"
  {
    var inner := [File("b"), File("c")];
    var b, c := EntryLine(inner, 0, l), EntryLine(inner, 1, l);
    assert b.text == "│   ├── b" && c.text == "│   └── c" by { hide Walk, Entries, Visible; }
    NothingListed(1);
    EntriesOfOne(b);
    EntriesOfOne(c);
    hide EntryLine, Entries, Visible, MarkerLine;
    InnerUnfolds(inner, l);
    EntriesAdd([b], [c]);
  }

  lemma InnerUnfolds(inner: seq<Entry>, l: Level)
    requires l.depth == 2 && |inner| == 2
    requires Entries([]) == []
    ensures Walk(EXAMPLE, inner, 0, l, 2) == [EntryLine(inner, 0, l)] + [EntryLine(inner, 1, l)]
  {
    hide EntryLine, Entries, Visible, MarkerLine, Inside;
    var b, c := EntryLine(inner, 0, l), EntryLine(inner, 1, l);
    assert Walk(EXAMPLE, inner, 2, l, 0) == [];
    assert Walk(EXAMPLE, inner, 1, l, 1) == [c] + [] + [];
    assert Walk(EXAMPLE, inner, 0, l, 2) == [b] + [] + [c];
    assert [b] + [] + [c] == [b] + [c];
  }

  lemma ExampleTop(top: seq<Entry>, l: Level)
    requires top == [Dir("a", [File("b"), File("c")], true), File("d")] && l == Level([], "", 1, "")
    requires Visible(EXAMPLE, [File("b"), File("c")], "a/") == [File("b"), File("c")]
    requires var lines := Walk(EXAMPLE, [File("b"), File("c")], 0, Below(top, 0, l), 2);
      |Entries(lines)| == 2 && |lines| == 2 && lines[0].text == "│   ├── b" && lines[1].text == "│   └── c"
    ensures Texts(Walk(EXAMPLE, top, 0, l, 3)) == ["├── a/", "│   ├── b", "│   └── c", "... (truncated, 1 more entries)"]
  {
    var inner := Walk(EXAMPLE, [File("b"), File("c")], 0, Below(top, 0, l), 2);
    ExampleTexts(top, l);
    hide Entries, Visible, MarkerLine, EntryLine, Decimal;
    assert WalkBelow(EXAMPLE, top, 0, l, 2) == inner;
    assert Walk(EXAMPLE, top, 1, l, 0) == [MarkerLine(1, l)];
    hide Walk;
    var lines := [EntryLine(top, 0, l)] + inner + [MarkerLine(1, l)];
    ExampleUnfolds(top, l, inner);
    assert lines == [EntryLine(top, 0, l), inner[0], inner[1], MarkerLine(1, l)];
    TextsAre(lines);
  }

  lemma ExampleTexts(top: seq<Entry>, l: Level)
    requires top == [Dir("a", [File("b"), File("c")], true), File("d")] && l == Level([], "", 1, "")
    requires Visible(EXAMPLE, [File("b"), File("c")], "a/") == [File("b"), File("c")]
    ensures Inside(EXAMPLE, top, 0, l) == [File("b"), File("c")]
    ensures EntryLine(top, 0, l).text == "├── a/" && MarkerLine(1, l).text == "... (truncated, 1 more entries)"
  {
    hide Visible;
    assert "" + "a" + "/" == "a/";
    assert Decimal(1) == "1";
  }

  lemma ExampleUnfolds(top: seq<Entry>, l: Level, inner: seq<Line>)
    requires |top| == 2 && inner == WalkBelow(EXAMPLE, top, 0, l, 2) && |Entries(inner)| == 2
    requires Walk(EXAMPLE, top, 1, l, 0) == [MarkerLine(1, l)]
    ensures Walk(EXAMPLE, top, 0, l, 3) == [EntryLine(top, 0, l)] + inner + [MarkerLine(1, l)]
  {
    hide Entries, WalkBelow, EntryLine, MarkerLine;
  }

  lemma {:induction false} TextsAre(lines: seq<Line>)
    ensures |Texts(lines)| == |lines| && forall i :: 0 <= i < |lines| ==> Texts(lines)[i] == lines[i].text
  {
    if lines != [] { TextsAre(lines[..|lines| - 1]); }
  }

  // ---- The code ----

  function Texts(lines: seq<Line>): seq<string> {
    if lines == [] then [] else Texts(lines[..|lines| - 1]) + [lines[|lines| - 1].text]
  }

  class TreeLister {
    const o: Options
    var lines: seq<Line>
    var entryCount: nat

    constructor (o: Options)
      ensures this.o == o && lines == [] && entryCount == 0
    {
      this.o := o;
      lines, entryCount := [], 0;
    }

    /** The inner _walk on one directory. */
    method WalkDir(directory: Entry, l: Level)
      requires directory.Dir? && entryCount <= o.maxEntries
      modifies this
      ensures lines == old(lines) + DirWalk(o, directory, l, o.maxEntries - old(entryCount))
      ensures entryCount == old(entryCount) + |Entries(DirWalk(o, directory, l, o.maxEntries - old(entryCount)))|
      ensures entryCount <= o.maxEntries
      decreases o.maxDepth + 1 - l.depth, 1
    {
      hide Entries, EntryLine, MarkerLine, Take, Visible, Walk, WalkBelow;
      NothingListed(0);
      if l.depth > o.maxDepth || entryCount >= o.maxEntries || !directory.readable {
        return;
      }
      var visible := Visible(o, directory.children, l.rel);
      ghost var budget := o.maxEntries - entryCount;
      ghost var done: seq<Line> := [];
      for i := 0 to |visible|
        invariant lines == old(lines) + done && entryCount == old(entryCount) + |Entries(done)| <= o.maxEntries
        invariant done + Walk(o, visible, i, l, o.maxEntries - entryCount) == Walk(o, visible, 0, l, budget)
      {
        WalkStep(o, visible, i, l, o.maxEntries - entryCount, done);
        if entryCount >= o.maxEntries {
          lines := lines + [MarkerLine(|visible| - i, l)];
          return;
        }
        ghost var head, below := EntryLine(visible, i, l), WalkBelow(o, visible, i, l, o.maxEntries - entryCount - 1);
        ListEntry(visible, i, l);
        done := done + ([head] + below);
      }
      WalkStep(o, visible, |visible|, l, o.maxEntries - entryCount, done);
    }

    /** One entry of a directory, and what is below it. */
    method ListEntry(visible: seq<Entry>, i: nat, l: Level)
      requires i < |visible| && entryCount < o.maxEntries && l.depth <= o.maxDepth
      modifies this
      ensures var below := WalkBelow(o, visible, i, l, o.maxEntries - old(entryCount) - 1);
        && lines == old(lines) + ([EntryLine(visible, i, l)] + below)
        && entryCount == old(entryCount) + 1 + |Entries(below)| <= o.maxEntries
        && |Entries([EntryLine(visible, i, l)] + below)| == 1 + |Entries(below)|
      decreases o.maxDepth + 1 - l.depth, 0
    {
      hide Entries, EntryLine, MarkerLine, Take, Visible, Walk;
      NothingListed(0);
      ghost var head, below := EntryLine(visible, i, l), WalkBelow(o, visible, i, l, o.maxEntries - entryCount - 1);
      EntriesOfOne(head);
      EntriesAdd([head], below);
      BelowIsDirWalk(o, visible, i, l, o.maxEntries - entryCount - 1);
      lines := lines + [EntryLine(visible, i, l)];
      entryCount := entryCount + 1;
      if visible[i].Dir? {
        WalkDir(visible[i], Below(visible, i, l));
      }
    }

    /** generate_file_tree: the entries listed are the first of the preorder, each marker counts what its
        directory leaves out, and the text is the lines under the root's name, and the summary. */
    method GenerateFileTree(root: Entry, summary: string) returns (text: string)
      requires lines == [] && entryCount == 0
      modifies this
      ensures text == if root.Dir? then Join("\n", [root.name + "/"] + Texts(lines)) + "\n\n(" + summary + ")" else ""
      ensures var level := Level([], "", 1, "");
        var full := if root.Dir? && root.readable && o.maxDepth >= 1
                    then Preorder(o, Visible(o, root.children, ""), 0, level) else [];
        && Entries(lines) == Take(full, o.maxEntries)
        && forall m :: m in lines ==> Exact(m, lines, full)
    {
      hide Entries, Take, Visible, InDir;
      NothingListed(o.maxEntries);
      if !root.Dir? {
        return "";
      }
      var level := Level([], "", 1, "");
      WalkDir(root, level);
      if root.readable && o.maxDepth >= 1 && o.maxEntries > 0 {
        var visible := Visible(o, root.children, "");
        WalkListsPrefix(o, visible, 0, level, o.maxEntries);
        assert lines == Walk(o, visible, 0, level, o.maxEntries);
        forall m | m in lines ensures Exact(m, lines, Preorder(o, visible, 0, level)) {
          MarkersAreExact(o, visible, 0, level, o.maxEntries, m);
        }
      }
      return Join("\n", [root.name + "/"] + Texts(lines)) + "\n\n(" + summary + ")";
    }
  }

  /** _walk on a directory, as a function of the budget it is entered with. */
  function DirWalk(o: Options, directory: Entry, l: Level, budget: nat): seq<Line>
    requires directory.Dir?
  {
    if l.depth > o.maxDepth || budget == 0 || !directory.readable then []
    else Walk(o, Visible(o, directory.children, l.rel), 0, l, budget)
  }

  /** One turn of the loop over a level, after `done` has been listed. */
  lemma WalkStep(o: Options, visible: seq<Entry>, i: nat, l: Level, budget: nat, done: seq<Line>)
    requires i <= |visible|
    ensures i == |visible| ==> done + Walk(o, visible, i, l, budget) == done
    ensures i < |visible| && budget == 0 ==>
              && Walk(o, visible, i, l, budget) == [MarkerLine(|visible| - i, l)]
              && |Entries(done + [MarkerLine(|visible| - i, l)])| == |Entries(done)|
    ensures i < |visible| && budget > 0 ==>
              var below := WalkBelow(o, visible, i, l, budget - 1);
              && |Entries(done + ([EntryLine(visible, i, l)] + below))| == |Entries(done)| + 1 + |Entries(below)|
              && done + Walk(o, visible, i, l, budget)
                 == done + ([EntryLine(visible, i, l)] + below) + Walk(o, visible, i + 1, l, Left(budget - 1, below))
  {
    hide Entries, EntryLine, MarkerLine;
    NothingListed(budget);
    if i < |visible| && budget == 0 {
      EntriesOfOne(MarkerLine(|visible| - i, l));
      EntriesAdd(done, [MarkerLine(|visible| - i, l)]);
    } else if i < |visible| {
      var head, below := EntryLine(visible, i, l), WalkBelow(o, visible, i, l, budget - 1);
      EntriesOfOne(head);
      EntriesAdd([head], below);
      EntriesAdd(done, [head] + below);
    }
  }

  lemma BelowIsDirWalk(o: Options, visible: seq<Entry>, i: nat, l: Level, budget: nat)
    requires i < |visible|
    ensures WalkBelow(o, visible, i, l, budget)
            == if visible[i].Dir? then DirWalk(o, visible[i], Below(visible, i, l), budget) else []
    ensures |Entries(WalkBelow(o, visible, i, l, budget))| <= budget
  {
    if l.depth < o.maxDepth && budget > 0 {
      WalkListsPrefix(o, Inside(o, visible, i, l), 0, Below(visible, i, l), budget);
    }
  }
}
