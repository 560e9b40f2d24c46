/** Prompt assembly of src/buddy_bot/prompt.py: the system prompt is a
    template with one placeholder, the user prompt a "\n\n"-join of up to four
    sections. json.dumps is a parameter (`dumps`). */
module Prompt {
  import opened Wrappers
  import opened Text
  import opened Json
  import opened Bot
  import opened History

  /** SYSTEM_TEMPLATE up to its placeholder, which ends it. */
  const SystemHead :=
    "You are a persistent personal assistant communicating with your user via Telegram.\n" +
    "You maintain conversation continuity using the Graphiti knowledge graph.\n" +
    "\n" +
    "At the start of each interaction, retrieve recent episodes and relevant facts.\n" +
    "After responding, save an episode summarizing this interaction.\n" +
    "If no episodes or facts are found, this is your first conversation \U{2014} introduce\n" +
    "yourself naturally and learn about your user.\n" +
    "\n" +
    "RESPONSE RULES:\n" +
    "- Your response is sent directly as a Telegram message.\n" +
    "- Output ONLY the message text. No internal reasoning or meta-commentary.\n" +
    "- Keep responses concise and conversational.\n" +
    "- Use Telegram-compatible formatting (bold, italic, code) sparingly.\n" +
    "- You MUST produce a text response for every interaction.\n" +
    "\n" +
    "The current date and time is: "

  /** SYSTEM_TEMPLATE as str.format reads it: literal text, then the one
      replacement field. */
  const SystemTemplate := [Literal(SystemHead), Field("current_datetime")]

  const RetrievalInstructions :=
    "Before responding, follow these steps IN ORDER:\n" +
    "\n" +
    "Step 1 \U{2014} Retrieve context:\n" +
    "1. Call get_episodes(group_ids=[\"main\"], max_episodes=5) for recent conversation context\n" +
    "2. Call search_memory_facts(query=\"pending items, open tasks\", group_ids=[\"main\"])\n" +
    "3. You may call search_memory_facts or search_nodes with other queries based on the message\n" +
    "\n" +
    "Step 2 \U{2014} Respond to the user's message using the retrieved context\n" +
    "\n" +
    "Step 3 \U{2014} Save memory:\n" +
    "Call add_memory with a free-form text summary of: what the user said, what you\n" +
    "responded, what actions you took, and any pending items.\n" +
    "Use group_id=\"main\", source=\"text\", and a descriptive name."

  const HistoryHeader := "Recent conversation:"
  const MessagesHeader := "New message(s) from the user:\n"
  const FallbackHeader := "Previous interaction context (retry after failure):\n"

  /** A format string after parsing: literal text and named replacement
      fields. */
  datatype Piece = Literal(text: string) | Field(name: string)

  /** template.format(name=value): every field named `name` becomes `value`;
      a field with any other name raises KeyError (None). */
  function Format(template: seq<Piece>, name: string, value: string): (r: Option<string>)
    ensures r.Some? <==> forall i :: 0 <= i < |template| && template[i].Field? ==> template[i].name == name
    ensures (forall i :: 0 <= i < |template| ==> template[i].Literal?) ==> r == Some(Literals(template))
  {
    if template == [] then Some("")
    else
      var rest := Format(template[1..], name, value);
      match template[0]
      case Literal(text) => if rest.Some? then Some(text + rest.value) else None
      case Field(n) => if n == name && rest.Some? then Some(value + rest.value) else None
  }

  /** The literal text of a template, fields left out. */
  function Literals(template: seq<Piece>): string {
    if template == [] then ""
    else (if template[0].Literal? then template[0].text else "") + Literals(template[1..])
  }

  /** build_system_prompt. */
  function SystemPrompt(currentDatetime: string): string {
    var r := Format(SystemTemplate, "current_datetime", currentDatetime);
    if r.Some? then r.value else ""
  }

  /** The template's only placeholder is replaced by the date, and the rest
      of the template is kept word for word. */
  lemma SystemPromptFillsPlaceholder(currentDatetime: string)
    ensures Format(SystemTemplate, "current_datetime", currentDatetime).Some?
    ensures SystemPrompt(currentDatetime) == SystemHead + currentDatetime
  {
    assert SystemTemplate[1..][1..] == [];
  }

  /** The lines of the history section after its header: a "User:" line and
      an "Assistant:" line per turn, in order. */
  function TurnLines(turns: seq<Turn>): (lines: seq<string>)
    ensures |lines| == 2 * |turns|
    ensures forall i :: 0 <= i < |turns| ==>
      lines[2 * i] == "User: " + turns[i].userText && lines[2 * i + 1] == "Assistant: " + turns[i].botResponse
  {
    if turns == [] then []
    else ["User: " + turns[0].userText, "Assistant: " + turns[0].botResponse] + TurnLines(turns[1..])
  }

  /** e.get(key, "") of the event dict extract_event builds. */
  function EventItem(e: Event): Json {
    Obj([("text", Str(TextOf(e))),
         ("from", Str(if e.sender.Some? then e.sender.value else "")),
         ("timestamp", Str(if e.timestamp.Some? then e.timestamp.value else ""))])
  }

  function EventItems(events: seq<Event>): (items: seq<Json>)
    ensures |items| == |events| && forall i :: 0 <= i < |events| ==> items[i] == EventItem(events[i])
  {
    if events == [] then [] else [EventItem(events[0])] + EventItems(events[1..])
  }

  /** The sections of build_user_prompt, in their fixed order. */
  function Sections(turns: seq<Turn>, events: seq<Event>, fallback: Option<string>, dumps: Json -> string): (r: seq<string>)
    ensures var h := if turns != [] then 1 else 0;
      var f := if fallback.Some? && fallback.value != "" then 1 else 0;
      && |r| == h + 2 + f
      && (turns != [] ==> r[0] == Join("\n", [HistoryHeader] + TurnLines(turns)))
      && r[h] == RetrievalInstructions
      && r[h + 1] == MessagesHeader + dumps(Arr(EventItems(events)))
      && (f == 1 ==> r[h + 2] == FallbackHeader + fallback.value)
  {
    (if turns != [] then [Join("\n", [HistoryHeader] + TurnLines(turns))] else []) +
    [RetrievalInstructions, MessagesHeader + dumps(Arr(EventItems(events)))] +
    (if fallback.Some? && fallback.value != "" then [FallbackHeader + fallback.value] else [])
  }

  /** build_user_prompt. */
  function UserPrompt(turns: seq<Turn>, events: seq<Event>, fallback: Option<string>, dumps: Json -> string): string {
    Join("\n\n", Sections(turns, events, fallback, dumps))
  }

  /** The history section opens with its header and the first user line. */
  lemma {:induction false} HistorySectionOpening(turns: seq<Turn>)
    requires turns != []
    ensures StartsWith(Join("\n", [HistoryHeader] + TurnLines(turns)), HistoryHeader + "\nUser: " + turns[0].userText)
  {
    var lines := [HistoryHeader] + TurnLines(turns);
    var first := "User: " + turns[0].userText;
    assert lines[1..] == TurnLines(turns);
    JoinStartsWithFirst("\n", lines[1..]);
    var j := Join("\n", lines[1..]);
    assert Join("\n", lines) == (HistoryHeader + "\n") + j;
    PrefixExtends(HistoryHeader + "\n", j, first);
    assert HistoryHeader + "\nUser: " + turns[0].userText == (HistoryHeader + "\n") + first;
  }

  lemma PrefixExtends(a: string, b: string, p: string)
    requires StartsWith(b, p)
    ensures StartsWith(a + b, a + p)
  {
    assert (a + b)[..|a + p|] == a + b[..|p|];
  }

  lemma StartsWithTrans(s: string, t: string, u: string)
    requires StartsWith(s, t) && StartsWith(t, u)
    ensures StartsWith(s, u)
  {
    assert s[..|u|] == s[..|t|][..|u|];
  }

  /** The prompt opens with the history when there is some, and with the
      retrieval instructions otherwise. */
  lemma UserPromptOpening(turns: seq<Turn>, events: seq<Event>, fallback: Option<string>, dumps: Json -> string)
    ensures turns != [] ==> StartsWith(UserPrompt(turns, events, fallback, dumps), HistoryHeader + "\nUser: " + turns[0].userText)
    ensures turns == [] ==> StartsWith(UserPrompt(turns, events, fallback, dumps), RetrievalInstructions)
  {
    var sections := Sections(turns, events, fallback, dumps);
    JoinStartsWithFirst("\n\n", sections);
    if turns != [] {
      HistorySectionOpening(turns);
      StartsWithTrans(UserPrompt(turns, events, fallback, dumps), sections[0], HistoryHeader + "\nUser: " + turns[0].userText);
    }
  }

  /** The prompt closes with the fallback when there is a non-empty one, and
      with the new messages otherwise. */
  lemma UserPromptClosing(turns: seq<Turn>, events: seq<Event>, fallback: Option<string>, dumps: Json -> string)
    ensures fallback.Some? && fallback.value != "" ==>
      exists front :: UserPrompt(turns, events, fallback, dumps) == front + "\n\n" + (FallbackHeader + fallback.value)
    ensures fallback.None? || fallback.value == "" ==>
      exists front :: UserPrompt(turns, events, fallback, dumps) == front + "\n\n" + (MessagesHeader + dumps(Arr(EventItems(events))))
  {
    var sections := Sections(turns, events, fallback, dumps);
    var n := |sections|;
    var last := sections[n - 1];
    assert sections == sections[..n - 1] + [last];
    JoinAppend("\n\n", sections[..n - 1], last);
    var front := Join("\n\n", sections[..n - 1]);
    assert UserPrompt(turns, events, fallback, dumps) == front + "\n\n" + last;
  }
}
