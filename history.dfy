/** The conversation store of src/buddy_bot/history.py, with its two SQLite
    tables held in memory: `turns` lists the rows of the turns table in id
    order, `lastId` is the AUTOINCREMENT counter, and `fallback` is the
    fallback_context table keyed by its primary key chat_id.
    `datetime('now')` is passed in as `now`. */
module History {
  import opened Wrappers

  datatype TurnRow = TurnRow(
    id: nat,
    chatId: string,
    userText: string,
    botResponse: string,
    durationMs: Option<int>,
    createdAt: string)

  /** What get_recent_turns hands out for one row. */
  datatype Turn = Turn(userText: string, botResponse: string, createdAt: string)

  /** s[:n] for a Python slice bound, which may be negative. */
  function PrefixSlice(s: string, n: int): (r: string)
    ensures |r| <= |s| && r == s[..|r|]
    ensures n >= 0 ==> |r| == (if n < |s| then n else |s|)
    ensures n < 0 ==> |r| == (if |s| + n > 0 then |s| + n else 0)
  {
    if n >= 0 then (if n < |s| then s[..n] else s)
    else if |s| + n > 0 then s[..|s| + n] else []
  }

  /** The rows of one chat, in id order. */
  function ChatRows(rows: seq<TurnRow>, chat: string): (r: seq<TurnRow>)
    ensures |r| <= |rows|
    ensures forall i :: 0 <= i < |r| ==> r[i].chatId == chat && r[i] in rows
  {
    if rows == [] then []
    else
      var last := rows[|rows| - 1];
      ChatRows(rows[..|rows| - 1], chat) + (if last.chatId == chat then [last] else [])
  }

  function Shown(row: TurnRow, maxChars: int): Turn {
    Turn(PrefixSlice(row.userText, maxChars), PrefixSlice(row.botResponse, maxChars), row.createdAt)
  }

  /** get_recent_turns: the chat's `limit` newest rows (all of them for a
      negative LIMIT), oldest first, each text cut to `maxChars`. */
  function RecentTurns(rows: seq<TurnRow>, chat: string, limit: int, maxChars: int): (r: seq<Turn>)
    ensures var mine := ChatRows(rows, chat);
      && |r| == (if 0 <= limit < |mine| then limit else |mine|)
      && forall i :: 0 <= i < |r| ==> r[i] == Shown(mine[|mine| - |r| + i], maxChars)
    ensures maxChars >= 0 ==> forall i :: 0 <= i < |r| ==>
      |r[i].userText| <= maxChars && |r[i].botResponse| <= maxChars
  {
    var mine := ChatRows(rows, chat);
    var n := if 0 <= limit < |mine| then limit else |mine|;
    var shown := ShowAll(mine[|mine| - n..], maxChars);
    assert forall i :: 0 <= i < n ==> shown[i] == Shown(mine[|mine| - n + i], maxChars);
    shown
  }

  function ShowAll(rows: seq<TurnRow>, maxChars: int): (r: seq<Turn>)
    ensures |r| == |rows| && forall i :: 0 <= i < |r| ==> r[i] == Shown(rows[i], maxChars)
  {
    if rows == [] then [] else [Shown(rows[0], maxChars)] + ShowAll(rows[1..], maxChars)
  }

  /** A turn saved for another chat changes nothing a chat sees. */
  lemma RecentTurnsIsolated(rows: seq<TurnRow>, row: TurnRow, chat: string, limit: int, maxChars: int)
    requires row.chatId != chat
    ensures RecentTurns(rows + [row], chat, limit, maxChars) == RecentTurns(rows, chat, limit, maxChars)
  {
    assert (rows + [row])[..|rows|] == rows;
  }

  /** A turn just saved for a chat is the newest turn it sees, unless the
      limit is 0. */
  lemma SavedTurnIsNewest(rows: seq<TurnRow>, row: TurnRow, limit: int, maxChars: int)
    requires limit != 0
    ensures var r := RecentTurns(rows + [row], row.chatId, limit, maxChars);
      |r| > 0 && r[|r| - 1] == Shown(row, maxChars)
  {
    assert (rows + [row])[..|rows|] == rows;
  }

  /** ids strictly increase along the table and never pass the counter. */
  ghost predicate IdsIncreasing(rows: seq<TurnRow>, lastId: nat) {
    (forall i, j :: 0 <= i < j < |rows| ==> rows[i].id < rows[j].id) &&
    (forall i :: 0 <= i < |rows| ==> rows[i].id <= lastId)
  }

  class HistoryStore {
    var turns: seq<TurnRow>
    var lastId: nat
    var fallback: map<string, string>
    const maxChars: int

    ghost predicate Valid()
      reads this
    {
      IdsIncreasing(turns, lastId)
    }

    /** Opens the database: CREATE TABLE IF NOT EXISTS keeps whatever
        turns and fallbacks the file already holds, an empty file giving
        empty tables. */
    constructor (existingTurns: seq<TurnRow>, existingLastId: nat, existingFallback: map<string, string>, maxChars: int)
      requires IdsIncreasing(existingTurns, existingLastId)
      ensures Valid() && this.maxChars == maxChars
      ensures turns == existingTurns && lastId == existingLastId && fallback == existingFallback
    {
      turns, lastId, fallback := existingTurns, existingLastId, existingFallback;
      this.maxChars := maxChars;
    }

    /** save_turn: one new row with a fresh id; the fallback table is untouched. */
    method SaveTurn(chat: string, userText: string, botResponse: string, durationMs: Option<int>, now: string)
      requires Valid()
      modifies this
      ensures Valid()
      ensures lastId == old(lastId) + 1
      ensures turns == old(turns) + [TurnRow(lastId, chat, userText, botResponse, durationMs, now)]
      ensures fallback == old(fallback)
    {
      lastId := lastId + 1;
      turns := turns + [TurnRow(lastId, chat, userText, botResponse, durationMs, now)];
    }

    /** get_recent_turns: a read, the tables are untouched. */
    method GetRecentTurns(chat: string, limit: int) returns (r: seq<Turn>)
      ensures r == RecentTurns(turns, chat, limit, maxChars)
    {
      r := RecentTurns(turns, chat, limit, maxChars);
    }

    /** save_fallback: an upsert, the latest text wins. */
    method SaveFallback(chat: string, text: string)
      modifies this
      ensures fallback == old(fallback)[chat := text]
      ensures turns == old(turns) && lastId == old(lastId)
    {
      fallback := fallback[chat := text];
    }

    /** get_fallback: hands out the chat's fallback once and deletes it. */
    method GetFallback(chat: string) returns (r: Option<string>)
      modifies this
      ensures r == if chat in old(fallback) then Some(old(fallback)[chat]) else None
      ensures fallback == old(fallback) - {chat}
      ensures turns == old(turns) && lastId == old(lastId)
    {
      if chat !in fallback {
        return None;
      }
      r := Some(fallback[chat]);
      fallback := fallback - {chat};
    }

    /** clear_fallback: no fallback is left for the chat, the others stay. */
    method ClearFallback(chat: string)
      modifies this
      ensures fallback == old(fallback) - {chat}
      ensures turns == old(turns) && lastId == old(lastId)
    {
      fallback := fallback - {chat};
    }
  }

  /** Taking a chat's fallback and then clearing or saving it again is the
      same as clearing or saving it directly. */
  lemma FallbackAfterTake(m: map<string, string>, chat: string, text: string)
    ensures (m - {chat}) - {chat} == m - {chat}
    ensures (m - {chat})[chat := text] == m[chat := text]
  {
  }

  /** Consume-once: right after a fallback is handed out, asking again gives
      None, and the other chats keep theirs. */
  method TakeTwice(h: HistoryStore, chat: string) returns (first: Option<string>, second: Option<string>)
    modifies h
    ensures first == if chat in old(h.fallback) then Some(old(h.fallback)[chat]) else None
    ensures second == None
    ensures forall c :: c in old(h.fallback) && c != chat ==> c in h.fallback && h.fallback[c] == old(h.fallback)[c]
  {
    first := h.GetFallback(chat);
    second := h.GetFallback(chat);
  }
}
