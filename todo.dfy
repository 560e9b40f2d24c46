/** TodoStore of src/buddy_bot/todo.py as an in-memory table. Rows are kept
    in id order; SQLite's datetime('now') is the parameter `now`, and
    date('now', <m> || ' days') is the parameter `shift` applied to <m>. */
module Todo {
  import opened Wrappers
  import opened Text

  datatype TodoRow = TodoRow(
    id: nat, chatId: string, title: string, dueDate: Option<string>,
    priority: Option<string>, status: string, createdAt: string, completedAt: Option<string>)

  /** TodoItem: a row without its chat. */
  datatype TodoItem = TodoItem(
    id: nat, title: string, dueDate: Option<string>, priority: Option<string>,
    status: string, createdAt: string, completedAt: Option<string>)

  function ItemOf(r: TodoRow): TodoItem {
    TodoItem(r.id, r.title, r.dueDate, r.priority, r.status, r.createdAt, r.completedAt)
  }

  function Items(rows: seq<TodoRow>): seq<TodoItem> {
    seq(|rows|, i requires 0 <= i < |rows| => ItemOf(rows[i]))
  }

  /** ids strictly increase along the table and never pass the
      AUTOINCREMENT counter. */
  ghost predicate IdsIncreasing(rows: seq<TodoRow>, lastId: nat) {
    (forall i, j :: 0 <= i < j < |rows| ==> rows[i].id < rows[j].id) &&
    (forall i :: 0 <= i < |rows| ==> rows[i].id <= lastId)
  }

  // ---------------------------------------------------------------------------
  // ORDER BY CASE priority ... END, due_date ASC NULLS LAST, id ASC

  /** The CASE expression; a priority outside the three is NULL, which
      sorts first in ascending order. */
  function Rank(priority: Option<string>): nat {
    if priority == Some("high") then 1
    else if priority == Some("medium") then 2
    else if priority == Some("low") then 3
    else 0
  }

  /** a strictly before b in due_date ASC NULLS LAST (text compared byte-wise). */
  predicate DueBefore(a: Option<string>, b: Option<string>) {
    a.Some? && (b.None? || (LexLe(a.value, b.value) && a.value != b.value))
  }

  /** a strictly before b in the listing order. */
  predicate Before(a: TodoRow, b: TodoRow) {
    Rank(a.priority) < Rank(b.priority) ||
    (Rank(a.priority) == Rank(b.priority) &&
      (DueBefore(a.dueDate, b.dueDate) || (a.dueDate == b.dueDate && a.id < b.id)))
  }

  lemma DueBeforeAsymmetric(a: Option<string>, b: Option<string>)
    requires DueBefore(a, b)
    ensures !DueBefore(b, a) && a != b
  {
    if b.Some? && LexLe(b.value, a.value) {
      LexLeAntisymmetric(a.value, b.value);
    }
  }

  lemma BeforeAsymmetric(a: TodoRow, b: TodoRow)
    requires Before(a, b)
    ensures !Before(b, a)
  {
    if DueBefore(a.dueDate, b.dueDate) {
      DueBeforeAsymmetric(a.dueDate, b.dueDate);
    }
    if DueBefore(b.dueDate, a.dueDate) {
      DueBeforeAsymmetric(b.dueDate, a.dueDate);
    }
  }

  /** Rows with different ids are always ordered one way or the other. */
  lemma BeforeTotal(a: TodoRow, b: TodoRow)
    requires a.id != b.id
    ensures Before(a, b) || Before(b, a)
  {
    if a.dueDate.Some? && b.dueDate.Some? {
      LexLeTotal(a.dueDate.value, b.dueDate.value);
    }
  }

  lemma BeforeTransitive(a: TodoRow, b: TodoRow, c: TodoRow)
    requires Before(a, b) && Before(b, c)
    ensures Before(a, c)
  {
    if a.dueDate.Some? && b.dueDate.Some? && c.dueDate.Some? {
      var x, y, z := a.dueDate.value, b.dueDate.value, c.dueDate.value;
      if LexLe(x, y) && LexLe(y, z) {
        LexLeTransitive(x, y, z);
        if x == z {
          LexLeAntisymmetric(x, y);
        }
      }
    }
  }

  /** No row is placed after a row that should follow it. */
  predicate Sorted(s: seq<TodoRow>) {
    forall i :: 0 < i < |s| ==> !Before(s[i], s[i - 1])
  }

  function Insert(x: TodoRow, s: seq<TodoRow>): (r: seq<TodoRow>)
    requires Sorted(s)
    ensures Sorted(r)
    ensures multiset(r) == multiset(s) + multiset{x}
    ensures r[0] == x || (s != [] && r[0] == s[0])
  {
    if s == [] then [x]
    else if Before(s[0], x) then
      var rest := Insert(x, s[1..]);
      BeforeAsymmetric(s[0], x);
      assert s == [s[0]] + s[1..];
      SortedCons(s[0], rest);
      [s[0]] + rest
    else
      SortedCons(x, s);
      [x] + s
  }

  lemma SortedCons(a: TodoRow, t: seq<TodoRow>)
    requires Sorted(t) && (t != [] ==> !Before(t[0], a))
    ensures Sorted([a] + t)
  {
    var r := [a] + t;
    forall i | 0 < i < |r| ensures !Before(r[i], r[i - 1]) {
      if i > 1 {
        assert r[i] == t[i - 1] && r[i - 1] == t[i - 2];
      }
    }
  }

  /** The listing's ORDER BY as insertion sort: a sorted permutation. */
  function Sort(s: seq<TodoRow>): (r: seq<TodoRow>)
    ensures Sorted(r)
    ensures multiset(r) == multiset(s)
  {
    if s == [] then []
    else
      assert s == [s[0]] + s[1..];
      Insert(s[0], Sort(s[1..]))
  }

  lemma {:induction false} SortedPrefixOrdered(s: seq<TodoRow>, i: int, j: int)
    requires Sorted(s) && 0 <= i < j < |s|
    requires forall a, b :: 0 <= a < b < |s| ==> s[a].id != s[b].id
    ensures Before(s[i], s[j])
    decreases j - i
  {
    BeforeTotal(s[j - 1], s[j]);
    if i < j - 1 {
      SortedPrefixOrdered(s, i, j - 1);
      BeforeTransitive(s[i], s[j - 1], s[j]);
    }
  }

  /** With distinct ids a sorted table is strictly ordered by priority rank,
      then due date with nulls last, then id. */
  lemma SortedIsStrict(s: seq<TodoRow>)
    requires Sorted(s)
    requires forall a, b :: 0 <= a < b < |s| ==> s[a].id != s[b].id
    ensures forall i, j :: 0 <= i < j < |s| ==> Before(s[i], s[j])
  {
    forall i, j | 0 <= i < j < |s| ensures Before(s[i], s[j]) {
      SortedPrefixOrdered(s, i, j);
    }
  }

  // ---------------------------------------------------------------------------
  // The WHERE clause

  /** One condition of the WHERE clause with its bound parameter. */
  datatype Clause = ChatIs(chat: string) | StatusIs(status: string) | DueWithin(days: string)

  predicate Holds(r: TodoRow, c: Clause, shift: string -> string) {
    match c
    case ChatIs(chat) => r.chatId == chat
    case StatusIs(status) => r.status == status
    case DueWithin(days) => r.dueDate.Some? && LexLe(r.dueDate.value, shift(days))
  }

  predicate AllHold(r: TodoRow, clauses: seq<Clause>, shift: string -> string) {
    forall k :: 0 <= k < |clauses| ==> Holds(r, clauses[k], shift)
  }

  /** `if status:` -- Python truthiness of an optional string. */
  predicate StatusGiven(s: Option<string>) {
    s.Some? && s.value != ""
  }

  /** The conditions _list_sync binds, in order. */
  function Query(chat: string, status: Option<string>, daysAhead: Option<int>): seq<Clause> {
    [ChatIs(chat)]
      + (if StatusGiven(status) then [StatusIs(status.value)] else [])
      + (if daysAhead.Some? then [DueWithin(IntToString(daysAhead.value))] else [])
  }

  /** What a listing keeps: the chat's rows, with the status when one is
      given, due on or before the shifted date when days_ahead is given. */
  predicate Wanted(r: TodoRow, chat: string, status: Option<string>, daysAhead: Option<int>, shift: string -> string) {
    r.chatId == chat &&
    (StatusGiven(status) ==> r.status == status.value) &&
    (daysAhead.Some? ==> r.dueDate.Some? && LexLe(r.dueDate.value, shift(IntToString(daysAhead.value))))
  }

  lemma QueryMeansWanted(r: TodoRow, chat: string, status: Option<string>, daysAhead: Option<int>, shift: string -> string)
    ensures AllHold(r, Query(chat, status, daysAhead), shift) <==> Wanted(r, chat, status, daysAhead, shift)
  {
    var q := Query(chat, status, daysAhead);
    assert q[0] == ChatIs(chat);
    if StatusGiven(status) {
      assert q[1] == StatusIs(status.value);
    }
    if daysAhead.Some? {
      assert q[|q| - 1] == DueWithin(IntToString(daysAhead.value));
    }
  }

  /** The rows the WHERE clause keeps, in table order. */
  function Select(rows: seq<TodoRow>, clauses: seq<Clause>, shift: string -> string): (sel: seq<TodoRow>)
    ensures forall x :: x in sel <==> x in rows && AllHold(x, clauses, shift)
    ensures forall x :: multiset(sel)[x] <= multiset(rows)[x]
  {
    if rows == [] then []
    else
      var last := rows[|rows| - 1];
      assert rows == rows[..|rows| - 1] + [last];
      Select(rows[..|rows| - 1], clauses, shift) + (if AllHold(last, clauses, shift) then [last] else [])
  }

  /** The full result of _list_sync, as rows. */
  function Listing(rows: seq<TodoRow>, chat: string, status: Option<string>, daysAhead: Option<int>, shift: string -> string): seq<TodoRow> {
    Sort(Select(rows, Query(chat, status, daysAhead), shift))
  }

  /** A listing holds exactly the wanted rows, each as often as in the
      table, sorted; with distinct ids it is strictly ordered. */
  lemma ListingSpec(rows: seq<TodoRow>, chat: string, status: Option<string>, daysAhead: Option<int>, shift: string -> string)
    ensures forall x :: x in Listing(rows, chat, status, daysAhead, shift) <==> x in rows && Wanted(x, chat, status, daysAhead, shift)
    ensures forall x :: multiset(Listing(rows, chat, status, daysAhead, shift))[x] <= multiset(rows)[x]
    ensures Sorted(Listing(rows, chat, status, daysAhead, shift))
  {
    var sel := Select(rows, Query(chat, status, daysAhead), shift);
    var out := Sort(sel);
    forall x ensures x in out <==> x in rows && Wanted(x, chat, status, daysAhead, shift) {
      QueryMeansWanted(x, chat, status, daysAhead, shift);
      assert x in out <==> x in multiset(out);
      assert x in sel <==> x in multiset(sel);
    }
  }

  /** The items of a listing are those of the wanted rows. */
  lemma ListedItems(rows: seq<TodoRow>, chat: string, status: Option<string>, daysAhead: Option<int>, shift: string -> string, it: TodoItem)
    ensures it in Items(Listing(rows, chat, status, daysAhead, shift)) <==>
      exists x :: x in rows && Wanted(x, chat, status, daysAhead, shift) && ItemOf(x) == it
  {
    var l := Listing(rows, chat, status, daysAhead, shift);
    ListingSpec(rows, chat, status, daysAhead, shift);
    if it in Items(l) {
      var k :| 0 <= k < |l| && Items(l)[k] == it;
      assert l[k] in l;
    }
    if exists x :: x in rows && Wanted(x, chat, status, daysAhead, shift) && ItemOf(x) == it {
      var x :| x in rows && Wanted(x, chat, status, daysAhead, shift) && ItemOf(x) == it;
      var k :| 0 <= k < |l| && l[k] == x;
      assert Items(l)[k] == it;
    }
  }

  /** A row of another chat never shows up in, or changes, a listing. */
  lemma {:induction false} SelectIgnoresOtherChats(rows: seq<TodoRow>, other: seq<TodoRow>, chat: string, status: Option<string>, daysAhead: Option<int>, shift: string -> string)
    requires |rows| == |other|
    requires forall i :: 0 <= i < |rows| ==> rows[i] == other[i] || (rows[i].chatId != chat && other[i].chatId != chat)
    ensures Select(rows, Query(chat, status, daysAhead), shift) == Select(other, Query(chat, status, daysAhead), shift)
  {
    var q := Query(chat, status, daysAhead);
    assert q[0] == ChatIs(chat);
    if rows != [] {
      var n := |rows| - 1;
      SelectIgnoresOtherChats(rows[..n], other[..n], chat, status, daysAhead, shift);
    }
  }

  // ---------------------------------------------------------------------------
  // UPDATE and DELETE

  function Mark(r: TodoRow, chat: string, id: int, now: string): TodoRow {
    if r.id == id && r.chatId == chat then r.(status := "done", completedAt := Some(now)) else r
  }

  /** UPDATE todos SET status = 'done', completed_at = now WHERE id AND chat_id. */
  function MarkDone(rows: seq<TodoRow>, chat: string, id: int, now: string): seq<TodoRow> {
    seq(|rows|, i requires 0 <= i < |rows| => Mark(rows[i], chat, id, now))
  }

  /** SELECT ... WHERE id AND chat_id, fetchone. */
  function FindRow(rows: seq<TodoRow>, chat: string, id: int): (r: Option<TodoRow>)
    ensures r.Some? ==> r.value in rows && r.value.id == id && r.value.chatId == chat
    ensures r.None? ==> forall x :: x in rows ==> !(x.id == id && x.chatId == chat)
  {
    if rows == [] then None
    else if rows[0].id == id && rows[0].chatId == chat then Some(rows[0])
    else FindRow(rows[1..], chat, id)
  }

  /** The item complete() returns: the chat's row with that id, if any. */
  function FindItem(rows: seq<TodoRow>, chat: string, id: int): Option<TodoItem> {
    var row := FindRow(rows, chat, id);
    if row.Some? then Some(ItemOf(row.value)) else None
  }

  /** After the update the lookup finds the same row, now done. */
  lemma {:induction false} FindAfterMark(rows: seq<TodoRow>, chat: string, id: int, now: string)
    ensures FindRow(MarkDone(rows, chat, id, now), chat, id) ==
      if FindRow(rows, chat, id).Some? then Some(FindRow(rows, chat, id).value.(status := "done", completedAt := Some(now))) else None
  {
    if rows != [] {
      assert MarkDone(rows, chat, id, now)[1..] == MarkDone(rows[1..], chat, id, now);
      FindAfterMark(rows[1..], chat, id, now);
    }
  }

  /** DELETE FROM todos WHERE id AND chat_id. */
  function Without(rows: seq<TodoRow>, chat: string, id: int): (r: seq<TodoRow>)
    ensures forall x :: x in r <==> x in rows && !(x.id == id && x.chatId == chat)
    ensures |r| <= |rows|
    ensures |r| == |rows| <==> forall x :: x in rows ==> !(x.id == id && x.chatId == chat)
  {
    if rows == [] then []
    else
      var k := |rows| - 1;
      var last := rows[k];
      assert rows == rows[..k] + [last];
      var front := Without(rows[..k], chat, id);
      if last.id == id && last.chatId == chat then front else front + [last]
  }

  /** Deleting keeps the ids increasing and under the counter. */
  lemma {:induction false} WithoutKeepsIds(rows: seq<TodoRow>, chat: string, id: int, n: nat)
    requires IdsIncreasing(rows, n)
    ensures IdsIncreasing(Without(rows, chat, id), n)
  {
    if rows != [] {
      var k := |rows| - 1;
      var last := rows[k];
      var prefix := rows[..k];
      assert rows == prefix + [last];
      assert IdsIncreasing(prefix, n);
      WithoutKeepsIds(prefix, chat, id, n);
      var front := Without(prefix, chat, id);
      if !(last.id == id && last.chatId == chat) {
        forall x | x in front ensures x.id < last.id {
          var m :| 0 <= m < k && prefix[m] == x;
          assert rows[m] == x;
        }
        IdsIncreasingSnoc(front, last, n);
      }
    }
  }

  lemma IdsIncreasingSnoc(rows: seq<TodoRow>, last: TodoRow, n: nat)
    requires IdsIncreasing(rows, n) && last.id <= n
    requires forall x :: x in rows ==> x.id < last.id
    ensures IdsIncreasing(rows + [last], n)
  {
    var r := rows + [last];
    forall i, j | 0 <= i < j < |r| ensures r[i].id < r[j].id {
      if j == |rows| {
        assert r[i] in rows;
      }
    }
  }

  class TodoStore {
    var rows: seq<TodoRow>
    /** sqlite_sequence for the table: the largest id ever issued. */
    var lastId: nat

    ghost predicate Valid()
      reads this
    {
      IdsIncreasing(rows, lastId)
    }

    /** Opening the database file: CREATE TABLE IF NOT EXISTS keeps the rows
        and the AUTOINCREMENT counter already on disk (none for a new file). */
    constructor (existing: seq<TodoRow>, existingLastId: nat)
      requires IdsIncreasing(existing, existingLastId)
      ensures Valid() && rows == existing && lastId == existingLastId
    {
      rows, lastId := existing, existingLastId;
    }

    /** add: a pending row with an id above every id ever issued, returned
        as stored. */
    method Add(chat: string, title: string, dueDate: Option<string>, priority: Option<string>, now: string) returns (item: TodoItem)
      requires Valid()
      modifies this
      ensures Valid()
      ensures lastId == old(lastId) + 1
      ensures rows == old(rows) + [TodoRow(lastId, chat, title, dueDate, priority, "pending", now, None)]
      ensures item == TodoItem(lastId, title, dueDate, priority, "pending", now, None)
      ensures forall x :: x in old(rows) ==> x.id < item.id
    {
      lastId := lastId + 1;
      var row := TodoRow(lastId, chat, title, dueDate, priority, "pending", now, None);
      rows := rows + [row];
      item := ItemOf(row);
    }

    /** list: the WHERE clause is built one condition at a time, then the
        kept rows are ordered. */
    method List(chat: string, status: Option<string>, daysAhead: Option<int>, shift: string -> string) returns (items: seq<TodoItem>)
      ensures items == Items(Listing(rows, chat, status, daysAhead, shift))
    {
      var clauses := [ChatIs(chat)];
      if StatusGiven(status) {
        clauses := clauses + [StatusIs(status.value)];
      }
      if daysAhead.Some? {
        clauses := clauses + [DueWithin(IntToString(daysAhead.value))];
      }
      assert clauses == Query(chat, status, daysAhead);
      var kept := Select(rows, clauses, shift);
      items := Items(Sort(kept));
    }

    /** complete: marks the chat's row done and returns it, or None. */
    method Complete(chat: string, id: int, now: string) returns (r: Option<TodoItem>)
      requires Valid()
      modifies this
      ensures Valid()
      ensures rows == MarkDone(old(rows), chat, id, now) && lastId == old(lastId)
      ensures r.Some? <==> exists x :: x in old(rows) && x.id == id && x.chatId == chat
      ensures r.Some? ==> r.value.id == id && r.value.status == "done" && r.value.completedAt == Some(now)
      ensures r == FindItem(rows, chat, id)
    {
      var before := rows;
      rows := MarkDone(rows, chat, id, now);
      FindAfterMark(before, chat, id, now);
      var row := FindRow(rows, chat, id);
      r := if row.Some? then Some(ItemOf(row.value)) else None;
    }

    /** delete: removes the chat's row; true iff a row was removed. */
    method Delete(chat: string, id: int) returns (deleted: bool)
      requires Valid()
      modifies this
      ensures Valid()
      ensures rows == Without(old(rows), chat, id) && lastId == old(lastId)
      ensures deleted <==> exists x :: x in old(rows) && x.id == id && x.chatId == chat
    {
      var before := |rows|;
      WithoutKeepsIds(rows, chat, id, lastId);
      rows := Without(rows, chat, id);
      deleted := before - |rows| > 0;
    }
  }

  /** Completing twice finds the item both times; the second call stamps
      the later time. Another chat cannot complete it. */
  method CompleteTwice(s: TodoStore, chat: string, other: string, now1: string, now2: string) returns (stranger: Option<TodoItem>, first: Option<TodoItem>, second: Option<TodoItem>)
    requires s.Valid() && chat != other
    modifies s
    ensures stranger == None && first.Some? && second.Some?
    ensures first.value.id == second.value.id && second.value.completedAt == Some(now2)
  {
    var item := s.Add(chat, "t", None, Some("medium"), now1);
    var row := s.rows[|s.rows| - 1];
    assert row in s.rows && row.id == item.id && row.chatId == chat;
    stranger := s.Complete(other, item.id, now1);
    assert s.rows[|s.rows| - 1] == row;
    first := s.Complete(chat, item.id, now1);
    assert s.rows[|s.rows| - 1] == row.(status := "done", completedAt := Some(now1));
    second := s.Complete(chat, item.id, now2);
  }
}
