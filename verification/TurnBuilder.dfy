/** Grouping transcript rows into turns: a user row, the assistant messages after it with
    duplicates of a message id merged, and the tool results that came with them. */
module TurnBuilder {
  import opened Basics
  import opened Text

  /** A transcript row as get_role, is_tool_result and get_message_id classify it; contents stay opaque. */
  datatype Row =
    | User(msg: string)
    | Assistant(id: Option<string>, msg: string)
    | ToolResults(results: seq<ToolResult>)
    | Unknown

  datatype ToolResult = ToolResult(toolUseId: Option<string>, content: string)
  datatype Turn = Turn(userMsg: string, assistantMsgs: seq<string>, toolResultsById: map<string, string>)

  // ---- Synthetic ids ----

  function Synthetic(k: nat): string { "noid:" + Decimal(k) }

  lemma SyntheticIsInjective(m: nat, n: nat)
    requires Synthetic(m) == Synthetic(n)
    ensures m == n
  {
    assert Synthetic(m)[5..] == Decimal(m) && Synthetic(n)[5..] == Decimal(n);
    DecimalIsInjective(m, n);
  }

  // ---- Assistant messages ----

  /** The dedupe tables after some rows: ids in order of first appearance, and the latest row of each. */
  datatype Tables = Tables(order: seq<string>, latest: map<string, string>)

  function Enter(t: Tables, id: Option<string>, msg: string): Tables {
    var mid := if id.Some? then id.value else Synthetic(|t.order|);
    Tables(if mid in t.latest then t.order else t.order + [mid], t.latest[mid := msg])
  }

  function Fold(rows: seq<Row>): Tables {
    if rows == [] then Tables([], map[])
    else
      var t := Fold(rows[..|rows| - 1]);
      if rows[|rows| - 1].Assistant? then Enter(t, rows[|rows| - 1].id, rows[|rows| - 1].msg) else t
  }

  function Messages(t: Tables, order: seq<string>): seq<string> {
    if order == [] then []
    else Messages(t, order[..|order| - 1])
         + (if order[|order| - 1] in t.latest then [t.latest[order[|order| - 1]]] else [])
  }

  /** Row i starts an entry: an assistant row without id, or the first one with its id. */
  predicate Leads(rows: seq<Row>, i: nat) {
    && i < |rows| && rows[i].Assistant?
    && (rows[i].id.Some? ==> forall k :: 0 <= k < i ==> !(rows[k].Assistant? && rows[k].id == rows[i].id))
  }

  function Leaders(rows: seq<Row>, n: nat): seq<nat>
    requires n <= |rows|
  {
    if n == 0 then [] else Leaders(rows, n - 1) + if Leads(rows, n - 1) then [n - 1] else []
  }

  /** The row whose message stands for the entry that row i starts: the last one with its id. */
  predicate Stands(rows: seq<Row>, i: nat, last: nat) {
    && i <= last < |rows| && rows[i].Assistant? && rows[last].Assistant? && rows[last].id == rows[i].id
    && (rows[i].id.None? ==> last == i)
    && (rows[i].id.Some? ==> forall k :: last < k < |rows| ==> !(rows[k].Assistant? && rows[k].id == rows[i].id))
  }

  ghost predicate Shows(rows: seq<Row>, i: nat, msg: string) {
    exists last: nat :: Stands(rows, i, last) && msg == rows[last].msg
  }

  /** Entry k of the rows is one without an id, so noid:k is its key. */
  predicate Unnamed(rows: seq<Row>, k: nat) {
    k < |Leaders(rows, |rows|)|
    && var i := Leaders(rows, |rows|)[k]; i < |rows| && rows[i].Assistant? && rows[i].id.None?
  }

  predicate HasId(rows: seq<Row>, id: string) {
    exists i :: 0 <= i < |rows| && rows[i].Assistant? && rows[i].id == Some(id)
  }

  /** No row's id is the key of an entry without an id. */
  ghost predicate NoClash(rows: seq<Row>) {
    forall k: nat :: Unnamed(rows, k) ==> !HasId(rows, Synthetic(k))
  }

  /** Entry j of the tables belongs to the row that leads it. */
  ghost predicate EntryInv(rows: seq<Row>, t: Tables, j: nat, i: nat) {
    && j < |t.order| && Leads(rows, i)
    && t.order[j] == (if rows[i].id.Some? then rows[i].id.value else Synthetic(j))
    && t.order[j] in t.latest
    && Shows(rows, i, t.latest[t.order[j]])
  }

  ghost predicate TablesInv(rows: seq<Row>, t: Tables, leaders: seq<nat>) {
    && |t.order| == |leaders|
    && (forall j :: 0 <= j < |leaders| ==> EntryInv(rows, t, j, leaders[j]))
    && (forall key :: key in t.latest ==> key in t.order)
    && (forall i, j :: 0 <= i < j < |leaders| ==> leaders[i] < leaders[j])
  }

  lemma LeadsKept(rows: seq<Row>, row: Row, i: nat)
    requires i < |rows|
    ensures Leads(rows + [row], i) <==> Leads(rows, i)
  {
    assert forall k :: 0 <= k <= i ==> (rows + [row])[k] == rows[k];
  }

  lemma {:induction false} LeadersOfPrefix(rows: seq<Row>, row: Row, n: nat)
    requires n <= |rows|
    ensures Leaders(rows + [row], n) == Leaders(rows, n)
  {
    if n > 0 {
      LeadersOfPrefix(rows, row, n - 1);
      LeadsKept(rows, row, n - 1);
    }
  }

  lemma {:induction false} LeadersAreAll(rows: seq<Row>, n: nat, i: nat)
    requires n <= |rows|
    ensures i in Leaders(rows, n) <==> i < n && Leads(rows, i)
  {
    if n > 0 { LeadersAreAll(rows, n - 1, i); }
  }

  /** Every assistant row with an id has an entry led by the first row with that id. */
  lemma {:induction false} FirstWithId(rows: seq<Row>, i: nat) returns (f: nat)
    requires i < |rows| && rows[i].Assistant? && rows[i].id.Some?
    ensures f <= i && Leads(rows, f) && rows[f].id == rows[i].id
  {
    if k :| 0 <= k < i && rows[k].Assistant? && rows[k].id == rows[i].id {
      f := FirstWithId(rows, k);
    } else {
      f := i;
    }
  }

  predicate SameId(a: Row, b: Row) { a.Assistant? && b.Assistant? && a.id.Some? && a.id == b.id }

  /** An entry that the tables keep, for a row that the next row does not repeat. */
  lemma EntryKept(rows: seq<Row>, t: Tables, u: Tables, j: nat, i: nat, row: Row)
    requires EntryInv(rows, t, j, i) && j < |u.order| && u.order[j] == t.order[j]
    requires t.order[j] in u.latest && u.latest[t.order[j]] == t.latest[t.order[j]] && !SameId(row, rows[i])
    ensures EntryInv(rows + [row], u, j, i)
  {
    var more := rows + [row];
    LeadsKept(rows, row, i);
    var last: nat :| Stands(rows, i, last) && t.latest[t.order[j]] == rows[last].msg;
    EntryFacts(rows, t, j, i);
    assert forall k :: 0 <= k < |rows| ==> more[k] == rows[k];
    assert Stands(more, i, last);
  }

  function MidOf(t: Tables, row: Row): string
    requires row.Assistant?
  {
    if row.id.Some? then row.id.value else Synthetic(|t.order|)
  }

  /** One more row keeps the entries there are, and adds itself if it leads. */
  lemma LeadersSnoc(rows: seq<Row>, row: Row)
    ensures var more, leaders := rows + [row], Leaders(rows, |rows|);
      Leaders(more, |more|) == leaders + if Leads(more, |rows|) then [|rows|] else []
  {
    LeadersOfPrefix(rows, row, |rows|);
  }

  lemma {:induction false} LeadersInside(rows: seq<Row>, n: nat)
    requires n <= |rows|
    ensures forall k :: 0 <= k < |Leaders(rows, n)| ==> Leaders(rows, n)[k] < n && Leads(rows, Leaders(rows, n)[k])
  {
    if n > 0 { LeadersInside(rows, n - 1); }
  }

  lemma UnnamedSnoc(rows: seq<Row>, row: Row, k: nat)
    ensures Unnamed(rows + [row], k)
            <==> Unnamed(rows, k)
                 || (k == |Leaders(rows, |rows|)| && row.Assistant? && row.id.None?)
  {
    LeadersSnoc(rows, row);
    LeadersInside(rows, |rows|);
    hide Leaders;
    assert (rows + [row])[|rows|] == row && forall i :: 0 <= i < |rows| ==> (rows + [row])[i] == rows[i];
  }

  lemma HasIdSnoc(rows: seq<Row>, row: Row, id: string)
    ensures HasId(rows + [row], id) <==> HasId(rows, id) || (row.Assistant? && row.id == Some(id))
  {
    var more := rows + [row];
    assert more[|rows|] == row;
    assert forall i :: 0 <= i < |rows| ==> more[i] == rows[i];
    if HasId(rows, id) {
      var i :| 0 <= i < |rows| && rows[i].Assistant? && rows[i].id == Some(id);
      assert more[i].Assistant? && more[i].id == Some(id);
    }
    if HasId(more, id) {
      var i :| 0 <= i < |more| && more[i].Assistant? && more[i].id == Some(id);
      assert i < |rows| ==> rows[i].Assistant? && rows[i].id == Some(id);
    }
  }

  lemma NoClashOfPrefix(rows: seq<Row>, row: Row)
    requires NoClash(rows + [row])
    ensures NoClash(rows)
  {
    hide Unnamed, HasId;
    forall k: nat | Unnamed(rows, k) ensures !HasId(rows, Synthetic(k)) {
      UnnamedSnoc(rows, row, k);
      HasIdSnoc(rows, row, Synthetic(k));
    }
  }

  /** A row that leads has a key of its own. */
  lemma KeyIsFree(rows: seq<Row>, t: Tables, j: nat, i: nat, row: Row)
    requires EntryInv(rows, t, j, i) && row.Assistant? && |t.order| == |Leaders(rows, |rows|)|
    requires j < |Leaders(rows, |rows|)| && Leaders(rows, |rows|)[j] == i
    requires NoClash(rows + [row]) && Leads(rows + [row], |rows|)
    ensures t.order[j] != MidOf(t, row) && !SameId(row, rows[i])
  {
    var more := rows + [row];
    assert more[|rows|] == row && more[i] == rows[i];
    assert rows[i].id.Some? ==> HasId(rows, rows[i].id.value);
    UnnamedSnoc(rows, row, j);
    UnnamedSnoc(rows, row, |t.order|);
    HasIdSnoc(rows, row, Synthetic(j));
    HasIdSnoc(rows, row, Synthetic(|t.order|));
    if row.id.None? && rows[i].id.None? && Synthetic(j) == Synthetic(|t.order|) {
      SyntheticIsInjective(j, |t.order|);
    }
  }

  lemma AllKeysFree(rows: seq<Row>, t: Tables, leaders: seq<nat>, row: Row)
    requires TablesInv(rows, t, leaders) && row.Assistant? && leaders == Leaders(rows, |rows|)
    requires NoClash(rows + [row]) && Leads(rows + [row], |rows|)
    ensures forall j :: 0 <= j < |leaders| ==> leaders[j] < |rows| && !SameId(row, rows[leaders[j]])
    ensures MidOf(t, row) !in t.latest
  {
    hide Leads, Leaders, EntryInv, NoClash, Synthetic, MidOf, SameId;
    forall j | 0 <= j < |leaders|
      ensures t.order[j] != MidOf(t, row) && leaders[j] < |rows| && !SameId(row, rows[leaders[j]])
    {
      EntryFacts(rows, t, j, leaders[j]);
      KeyIsFree(rows, t, j, leaders[j], row);
    }
  }

  lemma OldEntriesKept(rows: seq<Row>, t: Tables, leaders: seq<nat>, row: Row)
    requires TablesInv(rows, t, leaders) && row.Assistant? && MidOf(t, row) !in t.latest
    requires forall j :: 0 <= j < |leaders| ==> leaders[j] < |rows| && !SameId(row, rows[leaders[j]])
    ensures forall j :: 0 <= j < |leaders| ==> EntryInv(rows + [row], Enter(t, row.id, row.msg), j, leaders[j])
  {
    hide Leads, Leaders, EntryInv, Synthetic, MidOf, Enter, SameId;
    EnterAppends(t, row);
    forall j | 0 <= j < |leaders|
      ensures EntryInv(rows + [row], Enter(t, row.id, row.msg), j, leaders[j])
    {
      EntryFacts(rows, t, j, leaders[j]);
      EntryKept(rows, t, Enter(t, row.id, row.msg), j, leaders[j], row);
    }
  }

  lemma OneMoreEntry(rows: seq<Row>, t: Tables, leaders: seq<nat>, row: Row)
    requires row.Assistant? && TablesInv(rows, t, leaders)
    requires Enter(t, row.id, row.msg) == Tables(t.order + [MidOf(t, row)], t.latest[MidOf(t, row) := row.msg])
    requires forall j :: 0 <= j < |leaders| ==> EntryInv(rows + [row], Enter(t, row.id, row.msg), j, leaders[j])
    requires EntryInv(rows + [row], Enter(t, row.id, row.msg), |t.order|, |rows|)
    requires forall j :: 0 <= j < |leaders| ==> leaders[j] < |rows|
    ensures TablesInv(rows + [row], Enter(t, row.id, row.msg), leaders + [|rows|])
  {
    hide EntryInv, MidOf, Enter;
  }

  /** A new entry: the row leads, and its key is not taken. */
  lemma EnterNew(rows: seq<Row>, t: Tables, leaders: seq<nat>, row: Row)
    requires TablesInv(rows, t, leaders) && row.Assistant? && leaders == Leaders(rows, |rows|)
    requires NoClash(rows + [row]) && Leads(rows + [row], |rows|)
    ensures TablesInv(rows + [row], Enter(t, row.id, row.msg), leaders + [|rows|])
  {
    hide Leads, Leaders, EntryInv, NoClash, Synthetic, MidOf, Enter, SameId;
    AllKeysFree(rows, t, leaders, row);
    OldEntriesKept(rows, t, leaders, row);
    EnterAppends(t, row);
    NewEntry(rows, t, row);
    hide *;
    OneMoreEntry(rows, t, leaders, row);
  }

  lemma EnterAppends(t: Tables, row: Row)
    requires row.Assistant? && MidOf(t, row) !in t.latest
    ensures Enter(t, row.id, row.msg) == Tables(t.order + [MidOf(t, row)], t.latest[MidOf(t, row) := row.msg])
  {
  }

  lemma EntryFacts(rows: seq<Row>, t: Tables, j: nat, i: nat)
    requires EntryInv(rows, t, j, i)
    ensures i < |rows| && rows[i].Assistant? && Leads(rows, i) && j < |t.order| && t.order[j] in t.latest
    ensures rows[i].id.Some? ==> t.order[j] == rows[i].id.value
  {
  }

  lemma NewEntry(rows: seq<Row>, t: Tables, row: Row)
    requires row.Assistant? && MidOf(t, row) !in t.latest && Leads(rows + [row], |rows|)
    ensures EntryInv(rows + [row], Enter(t, row.id, row.msg), |t.order|, |rows|)
  {
    var more := rows + [row];
    assert more[|rows|] == row;
    assert Stands(more, |rows|, |rows|);
  }

  /** The entry that a row which does not lead belongs to. */
  lemma EntryOf(rows: seq<Row>, t: Tables, leaders: seq<nat>, row: Row) returns (e: nat)
    requires TablesInv(rows, t, leaders) && row.Assistant? && leaders == Leaders(rows, |rows|)
    requires !Leads(rows + [row], |rows|)
    ensures e < |leaders| && leaders[e] < |rows| && SameId(row, rows[leaders[e]])
  {
    hide EntryInv;
    assert (rows + [row])[|rows|] == row;
    var k: nat :| k < |rows| && (rows + [row])[k].Assistant? && (rows + [row])[k].id == row.id;
    var f := FirstWithId(rows, k);
    LeadersAreAll(rows, |rows|, f);
    e :| e < |leaders| && leaders[e] == f;
  }

  lemma OtherEntry(rows: seq<Row>, t: Tables, e: nat, f: nat, j: nat, i: nat, row: Row)
    requires EntryInv(rows, t, e, f) && EntryInv(rows, t, j, i) && i != f
    requires j < |Leaders(rows, |rows|)| && Leaders(rows, |rows|)[j] == i
    requires SameId(row, rows[f]) && NoClash(rows)
    ensures EntryInv(rows + [row], Enter(t, row.id, row.msg), j, i)
  {
    hide EntryInv, Synthetic, Leads, Leaders, NoClash;
    EntryFacts(rows, t, e, f);
    EntryFacts(rows, t, j, i);
    OtherLeader(rows, i, f, row);
    KeyDiffers(rows, t, j, i, f, row);
    EntryKept(rows, t, Enter(t, row.id, row.msg), j, i, row);
  }

  /** Another row of a known id: its entry now shows this row. */
  lemma EnterAgain(rows: seq<Row>, t: Tables, leaders: seq<nat>, row: Row)
    requires TablesInv(rows, t, leaders) && row.Assistant? && leaders == Leaders(rows, |rows|)
    requires !Leads(rows + [row], |rows|) && NoClash(rows)
    ensures TablesInv(rows + [row], Enter(t, row.id, row.msg), leaders)
  {
    hide EntryInv, Leads, NoClash, Leaders;
    var u := Enter(t, row.id, row.msg);
    var e := EntryOf(rows, t, leaders, row);
    forall j | 0 <= j < |leaders|
      ensures EntryInv(rows + [row], u, j, leaders[j])
    {
      if j == e {
        EntryReplaced(rows, t, j, leaders[j], row);
      } else {
        OtherEntry(rows, t, e, leaders[e], j, leaders[j], row);
      }
    }
    EntryFacts(rows, t, e, leaders[e]);
  }

  lemma EntryReplaced(rows: seq<Row>, t: Tables, j: nat, i: nat, row: Row)
    requires EntryInv(rows, t, j, i) && row.Assistant? && row.id.Some? && row.id == rows[i].id
    ensures EntryInv(rows + [row], Enter(t, row.id, row.msg), j, i)
  {
    LeadsKept(rows, row, i);
    var more := rows + [row];
    assert more[|rows|] == row && more[i] == rows[i];
    assert Stands(more, i, |rows|);
  }

  /** Two different rows cannot both lead for one id. */
  lemma OtherLeader(rows: seq<Row>, i: nat, f: nat, row: Row)
    requires Leads(rows, i) && Leads(rows, f) && i != f && SameId(row, rows[f])
    ensures !SameId(row, rows[i])
  {
  }

  lemma KeyDiffers(rows: seq<Row>, t: Tables, j: nat, i: nat, f: nat, row: Row)
    requires EntryInv(rows, t, j, i) && f < |rows| && SameId(row, rows[f]) && !SameId(row, rows[i])
    requires j < |Leaders(rows, |rows|)| && Leaders(rows, |rows|)[j] == i
    requires NoClash(rows)
    ensures t.order[j] != row.id.value
  {
    hide Leaders;
    assert HasId(rows, row.id.value);
    assert rows[i].id.None? ==> Unnamed(rows, j);
  }

  lemma {:induction false} FoldMeetsTables(rows: seq<Row>)
    requires NoClash(rows)
    ensures TablesInv(rows, Fold(rows), Leaders(rows, |rows|))
  {
    if rows != [] {
      var n := |rows| - 1;
      var before, row := rows[..n], rows[n];
      assert rows == before + [row];
      NoClashOfPrefix(before, row);
      FoldMeetsTables(before);
      LeadersOfPrefix(before, row, n);
      var leaders, t := Leaders(before, n), Fold(before);
      if !row.Assistant? {
        OtherRow(before, t, leaders, row);
      } else if Leads(rows, n) {
        EnterNew(before, t, leaders, row);
      } else {
        EnterAgain(before, t, leaders, row);
      }
    }
  }

  lemma OtherRow(rows: seq<Row>, t: Tables, leaders: seq<nat>, row: Row)
    requires TablesInv(rows, t, leaders) && !row.Assistant?
    ensures TablesInv(rows + [row], t, leaders)
  {
    hide EntryInv;
    forall j | 0 <= j < |leaders|
      ensures EntryInv(rows + [row], t, j, leaders[j])
    {
      EntryFacts(rows, t, j, leaders[j]);
      EntryKept(rows, t, t, j, leaders[j], row);
    }
  }

  lemma {:induction false} MessagesInOrder(t: Tables, order: seq<string>)
    requires forall j :: 0 <= j < |order| ==> order[j] in t.latest
    ensures |Messages(t, order)| == |order|
    ensures forall j :: 0 <= j < |order| ==> Messages(t, order)[j] == t.latest[order[j]]
  {
    if order != [] { MessagesInOrder(t, order[..|order| - 1]); }
  }

  /** Every id of a row is a key, and so is every member of the order. */
  lemma {:induction false} FoldKeepsKeys(rows: seq<Row>)
    ensures forall key :: key in Fold(rows).order ==> key in Fold(rows).latest
    ensures forall id :: HasId(rows, id) ==> id in Fold(rows).latest
  {
    if rows != [] {
      var n := |rows| - 1;
      FoldKeepsKeys(rows[..n]);
      assert rows == rows[..n] + [rows[n]];
      forall id ensures HasId(rows, id) ==> id in Fold(rows).latest { HasIdSnoc(rows[..n], rows[n], id); }
    }
  }

  /** A row adds an entry to the tables only if it leads. */
  lemma EntriesGrow(rows: seq<Row>, row: Row)
    ensures |Fold(rows + [row]).order| - |Fold(rows).order|
            <= |Leaders(rows + [row], |rows| + 1)| - |Leaders(rows, |rows|)|
    ensures row.Assistant? && MidOf(Fold(rows), row) in Fold(rows).latest ==> |Fold(rows + [row]).order| == |Fold(rows).order|
  {
    var more := rows + [row];
    assert more[..|rows|] == rows && more[|rows|] == row;
    LeadersSnoc(rows, row);
    FoldKeepsKeys(rows);
    hide Leaders, Fold;
    assert Fold(more) == if row.Assistant? then Enter(Fold(rows), row.id, row.msg) else Fold(rows) by { FoldSnoc(rows, row); }
    if row.Assistant? && !Leads(more, |rows|) {
      var k :| 0 <= k < |rows| && more[k].Assistant? && more[k].id == row.id;
      assert rows[k].Assistant? && row.id.Some? && HasId(rows, row.id.value);
    }
  }

  lemma FoldSnoc(rows: seq<Row>, row: Row)
    ensures Fold(rows + [row]) == if row.Assistant? then Enter(Fold(rows), row.id, row.msg) else Fold(rows)
  {
    assert (rows + [row])[..|rows|] == rows;
  }

  /** A clash costs an entry. */
  lemma {:induction false} ClashMergesEntries(rows: seq<Row>)
    ensures |Fold(rows).order| <= |Leaders(rows, |rows|)|
    ensures !NoClash(rows) ==> |Fold(rows).order| < |Leaders(rows, |rows|)|
  {
    if rows != [] {
      var n := |rows| - 1;
      var before, row := rows[..n], rows[n];
      assert rows == before + [row];
      ClashMergesEntries(before);
      EntriesGrow(before, row);
      if NoClash(before) && !NoClash(rows) {
        FirstClash(before, row);
      }
    }
  }

  /** The row that brings the first clash leads, and finds its key taken. */
  lemma FirstClash(rows: seq<Row>, row: Row)
    requires NoClash(rows) && !NoClash(rows + [row])
    ensures |Fold(rows + [row]).order| < |Leaders(rows + [row], |rows| + 1)|
  {
    hide Fold, Leaders, Unnamed, HasId, Leads, TablesInv;
    var k: nat :| Unnamed(rows + [row], k) && HasId(rows + [row], Synthetic(k));
    UnnamedSnoc(rows, row, k);
    HasIdSnoc(rows, row, Synthetic(k));
    FoldMeetsTables(rows);
    TablesHoldUnnamed(rows, k);
    FoldKeepsKeys(rows);
    EntriesGrow(rows, row);
    LeadersSnoc(rows, row);
    NewIdLeads(rows, row);
  }

  lemma TablesHoldUnnamed(rows: seq<Row>, k: nat)
    requires TablesInv(rows, Fold(rows), Leaders(rows, |rows|))
    ensures |Fold(rows).order| == |Leaders(rows, |rows|)|
    ensures Unnamed(rows, k) ==> Synthetic(k) in Fold(rows).latest
  {
    hide Fold, Leaders, Synthetic;
    assert Unnamed(rows, k) ==> EntryInv(rows, Fold(rows), k, Leaders(rows, |rows|)[k]);
  }

  lemma NewIdLeads(rows: seq<Row>, row: Row)
    requires row.Assistant?
    ensures row.id.None? || !HasId(rows, row.id.value) ==> Leads(rows + [row], |rows|)
  {
    var more := rows + [row];
    assert more[|rows|] == row && forall k :: 0 <= k < |rows| ==> more[k] == rows[k];
  }

  /** The assistant messages of a segment are, in order of first appearance, the last row of each
      message id and every row without an id by itself: exactly when no id clashes with such a row. */
  lemma AssistantsAreLatestInOrder(rows: seq<Row>)
    ensures var leaders, out := Leaders(rows, |rows|), Messages(Fold(rows), Fold(rows).order);
      && (|out| == |leaders| <==> NoClash(rows))
      && (NoClash(rows) ==> forall j :: 0 <= j < |leaders| ==> Shows(rows, leaders[j], out[j]))
  {
    hide Fold, Leaders, Messages, Shows, Leads, NoClash;
    var t, leaders := Fold(rows), Leaders(rows, |rows|);
    FoldKeepsKeys(rows);
    MessagesInOrder(t, t.order);
    ClashMergesEntries(rows);
    if NoClash(rows) { FoldMeetsTables(rows); }
  }

  /** A clash: an id that looks synthetic swallows the rows without one. */
  lemma SyntheticLookingIdMergesRows()
    ensures var rows := [Assistant(Some("noid:1"), "a"), Assistant(None, "b"), Assistant(None, "c")];
      Messages(Fold(rows), Fold(rows).order) == ["c"] && Leaders(rows, 3) == [0, 1, 2]
  {
    var rows := [Assistant(Some("noid:1"), "a"), Assistant(None, "b"), Assistant(None, "c")];
    assert Synthetic(1) == "noid:1" by { assert Decimal(1) == "1"; }
    hide Synthetic;
    assert rows[..2][..1] == rows[..1] && rows[..1][..0] == [] && rows[..3] == rows;
    assert Fold(rows[..1]) == Tables(["noid:1"], map["noid:1" := "a"]);
    assert Fold(rows[..2]) == Tables(["noid:1"], map["noid:1" := "b"]);
    assert Fold(rows) == Tables(["noid:1"], map["noid:1" := "c"]);
    assert ["noid:1"][..0] == [];
    assert Leaders(rows, 1) == [0] && Leaders(rows, 2) == [0, 1];
  }

  // ---- Tool results ----

  function Store(m: map<string, string>, rs: seq<ToolResult>): map<string, string> {
    if rs == [] then m
    else
      var before := Store(m, rs[..|rs| - 1]);
      var r := rs[|rs| - 1];
      if r.toolUseId.Some? && r.toolUseId.value != "" then before[r.toolUseId.value := r.content] else before
  }

  function Results(rows: seq<Row>): map<string, string> {
    if rows == [] then map[]
    else
      var before := Results(rows[..|rows| - 1]);
      if rows[|rows| - 1].ToolResults? then Store(before, rows[|rows| - 1].results) else before
  }

  /** Every tool result of the rows, in order. */
  function AllResults(rows: seq<Row>): seq<ToolResult> {
    if rows == [] then []
    else AllResults(rows[..|rows| - 1]) + if rows[|rows| - 1].ToolResults? then rows[|rows| - 1].results else []
  }

  lemma {:induction false} StoreAdds(m: map<string, string>, a: seq<ToolResult>, b: seq<ToolResult>)
    ensures Store(m, a + b) == Store(Store(m, a), b)
  {
    if b == [] {
      assert a + b == a;
    } else {
      StoreAdds(m, a, b[..|b| - 1]);
      assert (a + b)[..|a + b| - 1] == a + b[..|b| - 1];
    }
  }

  lemma {:induction false} ResultsAreAllStored(rows: seq<Row>)
    ensures Results(rows) == Store(map[], AllResults(rows))
  {
    if rows != [] {
      ResultsAreAllStored(rows[..|rows| - 1]);
      if rows[|rows| - 1].ToolResults? {
        StoreAdds(map[], AllResults(rows[..|rows| - 1]), rows[|rows| - 1].results);
      } else {
        assert AllResults(rows) == AllResults(rows[..|rows| - 1]);
      }
    }
  }

  ghost predicate IsLast(rs: seq<ToolResult>, i: nat, id: string) {
    && i < |rs| && rs[i].toolUseId == Some(id)
    && forall k :: i < k < |rs| ==> rs[k].toolUseId != Some(id)
  }

  /** For each non-empty id, the last result with that id wins. */
  lemma {:induction false} LastResultWins(rs: seq<ToolResult>, id: string)
    ensures id in Store(map[], rs) <==> id != "" && exists i: nat :: IsLast(rs, i, id)
    ensures forall i: nat :: id != "" && IsLast(rs, i, id) ==> Store(map[], rs)[id] == rs[i].content
  {
    if rs != [] {
      var n := |rs| - 1;
      LastResultWins(rs[..n], id);
      if rs[n].toolUseId == Some(id) {
        assert IsLast(rs, n, id);
      } else {
        assert forall i: nat :: IsLast(rs, i, id) ==> IsLast(rs[..n], i, id);
        assert forall i: nat :: IsLast(rs[..n], i, id) ==> IsLast(rs, i, id);
      }
    }
  }

  /** The tool results of a segment: for each non-empty id, the last one with that id. */
  lemma ResultsAreLastPerId(rows: seq<Row>, id: string)
    ensures id in Results(rows) <==> id != "" && exists i: nat :: IsLast(AllResults(rows), i, id)
    ensures forall i: nat :: id != "" && IsLast(AllResults(rows), i, id) ==> Results(rows)[id] == AllResults(rows)[i].content
  {
    ResultsAreAllStored(rows);
    LastResultWins(AllResults(rows), id);
  }

  // ---- Turns ----

  /** The number of rows before the last user row, or None. */
  function LastUser(rows: seq<Row>): (u: Option<nat>)
    ensures u.Some? ==> u.value < |rows| && rows[u.value].User? && forall k :: u.value < k < |rows| ==> !rows[k].User?
    ensures u.None? ==> forall k :: 0 <= k < |rows| ==> !rows[k].User?
  {
    if rows == [] then None
    else if rows[|rows| - 1].User? then Some(|rows| - 1)
    else LastUser(rows[..|rows| - 1])
  }

  predicate HasAssistant(rows: seq<Row>) { exists i :: 0 <= i < |rows| && rows[i].Assistant? }

  /** The turn that a user row opens, given the rows up to the next user row: none without an assistant row. */
  function TurnOf(user: string, rows: seq<Row>): seq<Turn> {
    if HasAssistant(rows) then [Turn(user, Messages(Fold(rows), Fold(rows).order), Results(rows))] else []
  }

  /** One turn for each user row that an assistant row follows before the next user row, in order. */
  function Turns(rows: seq<Row>): seq<Turn>
    decreases |rows|
  {
    var u := LastUser(rows);
    if u.None? then [] else Turns(rows[..u.value]) + TurnOf(rows[u.value].msg, rows[u.value + 1..])
  }

  /** A user row that some assistant row follows before any other user row. */
  predicate Opens(rows: seq<Row>, u: nat) {
    u < |rows| && rows[u].User?
    && exists i :: u < i < |rows| && rows[i].Assistant? && forall k :: u < k < i ==> !rows[k].User?
  }

  function Openers(rows: seq<Row>, n: nat): seq<nat>
    requires n <= |rows|
  {
    if n == 0 then [] else Openers(rows, n - 1) + if Opens(rows, n - 1) then [n - 1] else []
  }

  lemma {:induction false} NoOpenersAfter(rows: seq<Row>, m: nat, n: nat)
    requires m <= n <= |rows| && forall k :: m <= k < |rows| ==> !rows[k].User?
    ensures Openers(rows, n) == Openers(rows, m)
  {
    if m < n { NoOpenersAfter(rows, m, n - 1); }
  }

  lemma OpensBefore(rows: seq<Row>, u: nat, v: nat)
    requires v < u < |rows| && rows[u].User?
    ensures Opens(rows, v) <==> Opens(rows[..u], v)
  {
    var before := rows[..u];
    assert forall k :: 0 <= k < u ==> before[k] == rows[k];
    if Opens(rows, v) {
      var i :| v < i < |rows| && rows[i].Assistant? && forall k :: v < k < i ==> !rows[k].User?;
      assert i < u && before[i].Assistant?;
    }
    if Opens(before, v) {
      var i :| v < i < u && before[i].Assistant? && forall k :: v < k < i ==> !before[k].User?;
      assert rows[i].Assistant?;
    }
  }

  lemma {:induction false} OpenersBefore(rows: seq<Row>, u: nat, n: nat)
    requires n <= u < |rows| && rows[u].User?
    ensures Openers(rows, n) == Openers(rows[..u], n)
  {
    hide Opens;
    if n > 0 {
      OpenersBefore(rows, u, n - 1);
      OpensBefore(rows, u, n - 1);
    }
  }

  /** The rows from `from` up to the next user row. */
  function Until(rows: seq<Row>, from: nat): seq<Row>
    decreases |rows| - from
  {
    if from >= |rows| || rows[from].User? then [] else [rows[from]] + Until(rows, from + 1)
  }

  /** The turn of the user row u: its assistant messages and tool results are those of the rows up to the
      next user row. */
  function TurnAt(rows: seq<Row>, u: nat): Turn
    requires u < |rows| && rows[u].User?
  {
    var after := Until(rows, u + 1);
    Turn(rows[u].msg, Messages(Fold(after), Fold(after).order), Results(after))
  }

  lemma {:induction false} UntilBefore(rows: seq<Row>, u: nat, from: nat)
    requires from <= u < |rows| && rows[u].User?
    ensures Until(rows, from) == Until(rows[..u], from)
    decreases u - from
  {
    if from < u { UntilBefore(rows, u, from + 1); }
  }

  lemma {:induction false} UntilEnd(rows: seq<Row>, from: nat)
    requires from <= |rows| && forall k :: from <= k < |rows| ==> !rows[k].User?
    ensures Until(rows, from) == rows[from..]
    decreases |rows| - from
  {
    if from < |rows| { UntilEnd(rows, from + 1); }
  }

  /** The turns are exactly those of the user rows that open one, in order. */
  lemma {:induction false} OneTurnPerOpener(rows: seq<Row>)
    ensures |Turns(rows)| == |Openers(rows, |rows|)|
    ensures forall j :: 0 <= j < |Turns(rows)| ==>
              Openers(rows, |rows|)[j] < |rows| && rows[Openers(rows, |rows|)[j]].User?
              && Turns(rows)[j] == TurnAt(rows, Openers(rows, |rows|)[j])
    decreases |rows|
  {
    hide Opens, TurnAt, HasAssistant, Openers, TurnOf;
    if LastUser(rows).None? {
      NoOpenersAfter(rows, 0, |rows|);
      NoOpeners(rows);
    } else {
      var u := LastUser(rows).value;
      OneTurnPerOpener(rows[..u]);
      TurnsAdd(rows, u);
      forall v | 0 <= v < u && rows[v].User? ensures TurnAt(rows, v) == TurnAt(rows[..u], v) {
        TurnBefore(rows, u, v);
      }
    }
  }

  lemma NoOpeners(rows: seq<Row>)
    ensures Openers(rows, 0) == []
  {
  }

  lemma TurnBefore(rows: seq<Row>, u: nat, v: nat)
    requires v < u < |rows| && rows[u].User? && rows[v].User?
    ensures TurnAt(rows, v) == TurnAt(rows[..u], v)
  {
    UntilBefore(rows, u, v + 1);
  }

  lemma OpenersAdd(rows: seq<Row>, u: nat)
    requires u < |rows| && rows[u].User? && forall k :: u < k < |rows| ==> !rows[k].User?
    ensures Openers(rows, |rows|) == Openers(rows[..u], u) + if Opens(rows, u) then [u] else []
  {
    hide Opens;
    OpenersBefore(rows, u, u);
    NoOpenersAfter(rows, u + 1, |rows|);
  }

  lemma TurnAtEnd(rows: seq<Row>, u: nat)
    requires u < |rows| && rows[u].User? && forall k :: u < k < |rows| ==> !rows[k].User?
    ensures TurnOf(rows[u].msg, rows[u + 1..]) == if Opens(rows, u) then [TurnAt(rows, u)] else []
  {
    LastOpens(rows, u);
    UntilEnd(rows, u + 1);
    hide Opens, HasAssistant, Fold, Results, Messages, Until;
  }

  /** The last user row adds its turn, if it opens one. */
  lemma TurnsAdd(rows: seq<Row>, u: nat)
    requires LastUser(rows) == Some(u)
    ensures Openers(rows, |rows|) == Openers(rows[..u], u) + if Opens(rows, u) then [u] else []
    ensures Turns(rows) == Turns(rows[..u]) + if Opens(rows, u) then [TurnAt(rows, u)] else []
  {
    hide Opens, TurnOf, TurnAt, Openers;
    OpenersAdd(rows, u);
    TurnAtEnd(rows, u);
  }

  lemma LastOpens(rows: seq<Row>, u: nat)
    requires u < |rows| && rows[u].User? && forall k :: u < k < |rows| ==> !rows[k].User?
    ensures Opens(rows, u) <==> HasAssistant(rows[u + 1..])
  {
    var after := rows[u + 1..];
    if i :| 0 <= i < |after| && after[i].Assistant? { assert rows[u + 1 + i].Assistant?; }
    if i :| u < i < |rows| && rows[i].Assistant? { assert after[i - u - 1].Assistant?; }
  }

  lemma {:induction false} FoldIsEmptyIff(rows: seq<Row>)
    ensures Fold(rows).latest == map[] <==> !HasAssistant(rows)
  {
    if rows != [] {
      var n := |rows| - 1;
      FoldIsEmptyIff(rows[..n]);
      if rows[n].Assistant? {
        var t := Fold(rows[..n]);
        var mid := if rows[n].id.Some? then rows[n].id.value else Synthetic(|t.order|);
        assert mid in Fold(rows).latest;
      } else {
        if i :| 0 <= i < |rows| && rows[i].Assistant? { assert rows[..n][i].Assistant?; }
        if i :| 0 <= i < n && rows[..n][i].Assistant? { assert rows[i].Assistant?; }
      }
    }
  }

  /** flush_turn: what finalizing the current turn appends. */
  function Flush(user: Option<string>, t: Tables, tools: map<string, string>): seq<Turn> {
    if user.None? || t.latest == map[] then []
    else [Turn(user.value, Messages(t, t.order), tools)]
  }

  /** The rows after the last user row among the first i. */
  function Segment(rows: seq<Row>): seq<Row> {
    var u := LastUser(rows);
    if u.None? then rows else rows[u.value + 1..]
  }

  function CurrentUser(rows: seq<Row>): Option<string> {
    var u := LastUser(rows);
    if u.None? then None else Some(rows[u.value].msg)
  }

  /** Turns already closed by a later user row. */
  function Closed(rows: seq<Row>): seq<Turn> {
    var u := LastUser(rows);
    if u.None? then [] else Turns(rows[..u.value])
  }

  lemma FlushCloses(rows: seq<Row>)
    ensures Closed(rows) + Flush(CurrentUser(rows), Fold(Segment(rows)), Results(Segment(rows))) == Turns(rows)
  {
    FoldIsEmptyIff(Segment(rows));
  }

  /** A row that is not a user row extends the current segment. */
  lemma SegmentGrows(rows: seq<Row>, row: Row)
    ensures var more := rows + [row];
      if row.User? then Segment(more) == [] && CurrentUser(more) == Some(row.msg) && Closed(more) == Turns(rows)
      else Segment(more) == Segment(rows) + [row] && CurrentUser(more) == CurrentUser(rows) && Closed(more) == Closed(rows)
  {
    var more := rows + [row];
    assert more[..|more| - 1] == rows;
    var u := LastUser(rows);
    if u.Some? { assert more[..u.value] == rows[..u.value]; }
  }

  method BuildTurns(messages: seq<Row>) returns (turns: seq<Turn>)
    ensures turns == Turns(messages)
  {
    hide Fold, Results, Turns, Flush, Segment, CurrentUser, Closed, Messages;
    turns := [];
    var currentUser: Option<string> := None;
    var order: seq<string>, latest: map<string, string> := [], map[];
    var tools: map<string, string> := map[];
    ghost var seen: seq<Row> := [];
    NothingYet();
    for i := 0 to |messages|
      invariant seen == messages[..i]
      invariant turns == Closed(seen) && currentUser == CurrentUser(seen)
      invariant tools == Results(Segment(seen))
      invariant currentUser.Some? ==> Tables(order, latest) == Fold(Segment(seen))
      invariant currentUser.None? ==> order == [] && latest == map[]
    {
      var msg := messages[i];
      SegmentGrows(seen, msg);
      SegmentLast(Segment(seen), msg);
      if msg.ToolResults? {
        for k := 0 to |msg.results|
          invariant tools == Store(Results(Segment(seen)), msg.results[..k])
        {
          assert msg.results[..k + 1][..k] == msg.results[..k];
          var tr := msg.results[k];
          if tr.toolUseId.Some? && tr.toolUseId.value != "" {
            tools := tools[tr.toolUseId.value := tr.content];
          }
        }
        assert msg.results[..|msg.results|] == msg.results;
      } else if msg.User? {
        FlushCloses(seen);
        NoUserNoTurn(seen);
        turns := turns + Flush(currentUser, Tables(order, latest), tools);
        currentUser := Some(msg.msg);
        order, latest, tools := [], map[], map[];
        EmptySegment();
      } else if msg.Assistant? && currentUser.Some? {
        var mid := if msg.id.Some? then msg.id.value else Synthetic(|order|);
        if mid !in latest { order := order + [mid]; }
        latest := latest[mid := msg.msg];
      }
      seen := seen + [msg];
      assert seen == messages[..i + 1];
    }
    FlushCloses(seen);
    NoUserNoTurn(seen);
    turns := turns + Flush(currentUser, Tables(order, latest), tools);
    assert seen == messages;
  }

  lemma NothingYet()
    ensures Closed([]) == [] && CurrentUser([]) == None && Segment([]) == [] && Results([]) == map[]
  {
  }

  lemma EmptySegment()
    ensures Fold([]) == Tables([], map[]) && Results([]) == map[]
  {
  }

  lemma SegmentLast(rows: seq<Row>, row: Row)
    ensures Fold(rows + [row]) == if row.Assistant? then Enter(Fold(rows), row.id, row.msg) else Fold(rows)
    ensures Results(rows + [row]) == if row.ToolResults? then Store(Results(rows), row.results) else Results(rows)
  {
    assert (rows + [row])[..|rows|] == rows;
  }

  lemma NoUserNoTurn(rows: seq<Row>)
    ensures CurrentUser(rows).None? ==> forall t, tools :: Flush(CurrentUser(rows), t, tools) == []
  {
  }
}
