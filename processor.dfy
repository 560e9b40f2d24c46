/** The Anthropic-API driver of src/buddy_bot/processor.py. The API client
    is an input: `create(round)(attempt)` is what messages.create yields on
    the given attempt of the given tool round, a response or one of the error
    kinds the retry schedule tells apart. Sleeps are recorded, not taken. */
module Processor {
  import opened Wrappers
  import opened Text
  import opened Json
  import opened Bot
  import opened History
  import opened Locks
  import opened Prompt
  import opened Executor

  const RetryDelays: seq<nat> := [1, 2, 4]
  const OverloadedDelay: nat := 30
  const ServerErrorDelay: nat := 2
  const MaxToolRounds: nat := 20
  const MaxRoundsReached := "(max tool rounds reached)"

  /** A content block of a response: text, a tool call, or any other kind. */
  datatype Block = TextBlock(text: string) | ToolUseBlock(id: string, name: string, input: Json) | OtherBlock

  datatype Response = Response(content: seq<Block>, stopReason: string)

  /** What one messages.create call yields: RateLimitError, InternalServerError,
      an APIStatusError with status 529, or any other exception. */
  datatype CreateOutcome = Created(response: Response) | RateLimited | ServerError | Overloaded | OtherError

  function AsResult(o: CreateOutcome): (r: Result<Response, CreateOutcome>)
    ensures r.Ok? <==> o.Created?
  {
    if o.Created? then Ok(o.response) else Err(o)
  }

  /** The except branches of _api_call that sleep and try again. */
  predicate Retried(attempt: nat, o: CreateOutcome) {
    match o
    case RateLimited => attempt < |RetryDelays| - 1
    case ServerError => attempt == 0
    case Overloaded => true
    case _ => false
  }

  function SleepFor(attempt: nat, o: CreateOutcome): nat
    requires attempt < |RetryDelays| && Retried(attempt, o)
  {
    match o
    case RateLimited => RetryDelays[attempt]
    case ServerError => ServerErrorDelay
    case _ => OverloadedDelay
  }

  /** What one _api_call does: its result, how many create calls it makes
      and the sleeps between them. */
  datatype ApiTrace = ApiTrace(result: Result<Response, CreateOutcome>, calls: nat, sleeps: seq<nat>)

  /** The schedule from a given attempt on; attempt 3 is the final call
      outside the loop. */
  function ScheduleFrom(create: nat -> CreateOutcome, attempt: nat): ApiTrace
    requires attempt <= |RetryDelays|
    decreases |RetryDelays| - attempt
  {
    if attempt == |RetryDelays| then ApiTrace(AsResult(create(attempt)), 1, [])
    else if Retried(attempt, create(attempt)) then
      var rest := ScheduleFrom(create, attempt + 1);
      ApiTrace(rest.result, rest.calls + 1, [SleepFor(attempt, create(attempt))] + rest.sleeps)
    else ApiTrace(AsResult(create(attempt)), 1, [])
  }

  function Schedule(create: nat -> CreateOutcome): ApiTrace {
    ScheduleFrom(create, 0)
  }

  /** _api_call. */
  method ApiCall(create: nat -> CreateOutcome) returns (r: Result<Response, CreateOutcome>, calls: nat, sleeps: seq<nat>)
    ensures ApiTrace(r, calls, sleeps) == Schedule(create)
  {
    calls, sleeps := 0, [];
    var attempt := 0;
    while attempt < |RetryDelays|
      invariant attempt <= |RetryDelays| && calls == attempt
      invariant var rest := ScheduleFrom(create, attempt);
        Schedule(create) == ApiTrace(rest.result, rest.calls + calls, sleeps + rest.sleeps)
    {
      var o := create(attempt);
      calls := calls + 1;
      if !Retried(attempt, o) {
        return AsResult(o), calls, sleeps;
      }
      var rest := ScheduleFrom(create, attempt + 1);
      assert sleeps + ([SleepFor(attempt, o)] + rest.sleeps) == (sleeps + [SleepFor(attempt, o)]) + rest.sleeps;
      sleeps := sleeps + [SleepFor(attempt, o)];
      attempt := attempt + 1;
    }
    calls := calls + 1;
    r := AsResult(create(attempt));
  }

  /** How the schedule unfolds: every call but the last was retried after its
      own sleep, the last one's outcome is the result, and it stops at the
      first outcome that is not retried or after the fourth call. */
  lemma {:induction false} ScheduleShape(create: nat -> CreateOutcome, attempt: nat)
    requires attempt <= |RetryDelays|
    ensures var t := ScheduleFrom(create, attempt);
      && 1 <= t.calls <= |RetryDelays| + 1 - attempt
      && |t.sleeps| == t.calls - 1
      && (forall j :: attempt <= j < attempt + t.calls - 1 ==> Retried(j, create(j)))
      && (forall i :: 0 <= i < |t.sleeps| ==> t.sleeps[i] == SleepFor(attempt + i, create(attempt + i)))
      && (attempt + t.calls - 1 < |RetryDelays| ==> !Retried(attempt + t.calls - 1, create(attempt + t.calls - 1)))
      && t.result == AsResult(create(attempt + t.calls - 1))
    decreases |RetryDelays| - attempt
  {
    if attempt < |RetryDelays| && Retried(attempt, create(attempt)) {
      ScheduleShape(create, attempt + 1);
      var rest := ScheduleFrom(create, attempt + 1);
      var t := ScheduleFrom(create, attempt);
      assert forall i :: 1 <= i < |t.sleeps| ==> t.sleeps[i] == rest.sleeps[i - 1];
    }
  }

  /** At most four create calls; only 1s, 2s and 30s sleeps, never the 4s
      entry of RETRY_DELAYS. */
  lemma ScheduleBounds(create: nat -> CreateOutcome)
    ensures 1 <= Schedule(create).calls <= 4
    ensures |Schedule(create).sleeps| == Schedule(create).calls - 1
    ensures forall i :: 0 <= i < |Schedule(create).sleeps| ==> Schedule(create).sleeps[i] in {1, 2, 30}
  {
    ScheduleShape(create, 0);
    var t := Schedule(create);
    forall i | 0 <= i < |t.sleeps|
      ensures t.sleeps[i] in {1, 2, 30}
    {
      assert t.sleeps[i] == SleepFor(i, create(i));
      assert i < 2 ==> RetryDelays[i] in {1, 2};
    }
  }

  /** A rate limit is retried after 1s and 2s and raised on the third
      attempt. */
  lemma RateLimitedThrice(create: nat -> CreateOutcome)
    requires create(0) == RateLimited && create(1) == RateLimited && create(2) == RateLimited
    ensures Schedule(create) == ApiTrace(Err(RateLimited), 3, [1, 2])
  {
    assert ScheduleFrom(create, 2) == ApiTrace(Err(RateLimited), 1, []);
  }

  /** A server error is retried once, after 2s, and only on attempt 0. */
  lemma ServerErrorTwice(create: nat -> CreateOutcome)
    requires create(0) == ServerError && create(1) == ServerError
    ensures Schedule(create) == ApiTrace(Err(ServerError), 2, [2])
  {
    assert ScheduleFrom(create, 1) == ApiTrace(Err(ServerError), 1, []);
  }

  /** Overload on every attempt: three 30s sleeps, then the unguarded fourth
      call decides. */
  lemma AlwaysOverloaded(create: nat -> CreateOutcome)
    requires create(0) == Overloaded && create(1) == Overloaded && create(2) == Overloaded
    ensures Schedule(create) == ApiTrace(AsResult(create(3)), 4, [30, 30, 30])
  {
    assert ScheduleFrom(create, 3) == ApiTrace(AsResult(create(3)), 1, []);
    assert ScheduleFrom(create, 2) == ApiTrace(AsResult(create(3)), 2, [30]);
  }

  /** Any other error is raised at once, without a sleep. */
  lemma OtherErrorRaisedAtOnce(create: nat -> CreateOutcome)
    requires create(0) == OtherError
    ensures Schedule(create) == ApiTrace(Err(OtherError), 1, [])
  {
  }

  /** The texts of the text blocks, in order. */
  function TextParts(content: seq<Block>): (texts: seq<string>)
    ensures |texts| <= |content|
    ensures texts == [] <==> forall i :: 0 <= i < |content| ==> !content[i].TextBlock?
  {
    if content == [] then []
    else (if content[0].TextBlock? then [content[0].text] else []) + TextParts(content[1..])
  }

  /** The tool_use blocks, in order. */
  function ToolUses(content: seq<Block>): (uses: seq<Block>)
    ensures |uses| <= |content|
    ensures forall i :: 0 <= i < |uses| ==> uses[i].ToolUseBlock? && uses[i] in content
    ensures uses == [] <==> forall i :: 0 <= i < |content| ==> !content[i].ToolUseBlock?
  {
    if content == [] then []
    else (if content[0].ToolUseBlock? then [content[0]] else []) + ToolUses(content[1..])
  }

  /** The loop over response.content that sorts blocks into text parts and
      tool uses. */
  method SortBlocks(content: seq<Block>) returns (texts: seq<string>, uses: seq<Block>)
    ensures texts == TextParts(content) && uses == ToolUses(content)
  {
    texts, uses := [], [];
    var i := 0;
    while i < |content|
      invariant 0 <= i <= |content|
      invariant texts == TextParts(content[..i]) && uses == ToolUses(content[..i])
    {
      BlocksSnoc(content, i);
      match content[i] {
        case TextBlock(t) => texts := texts + [t];
        case ToolUseBlock(_, _, _) => uses := uses + [content[i]];
        case OtherBlock =>
      }
      i := i + 1;
    }
    assert content[..i] == content;
  }

  /** One more block extends the text parts or the tool uses by that block. */
  lemma BlocksSnoc(content: seq<Block>, i: nat)
    requires i < |content|
    ensures TextParts(content[..i + 1]) ==
      TextParts(content[..i]) + (if content[i].TextBlock? then [content[i].text] else [])
    ensures ToolUses(content[..i + 1]) ==
      ToolUses(content[..i]) + (if content[i].ToolUseBlock? then [content[i]] else [])
  {
    assert content[..i + 1] == content[..i] + [content[i]];
    TextPartsAppend(content[..i], [content[i]]);
    ToolUsesAppend(content[..i], [content[i]]);
  }

  lemma {:induction false} TextPartsAppend(a: seq<Block>, b: seq<Block>)
    ensures TextParts(a + b) == TextParts(a) + TextParts(b)
  {
    if a == [] {
      assert a + b == b;
    } else {
      assert (a + b)[0] == a[0] && (a + b)[1..] == a[1..] + b;
      TextPartsAppend(a[1..], b);
    }
  }

  lemma {:induction false} ToolUsesAppend(a: seq<Block>, b: seq<Block>)
    ensures ToolUses(a + b) == ToolUses(a) + ToolUses(b)
  {
    if a == [] {
      assert a + b == b;
    } else {
      assert (a + b)[0] == a[0] && (a + b)[1..] == a[1..] + b;
      ToolUsesAppend(a[1..], b);
    }
  }

  datatype ToolResult = ToolResult(toolUseId: string, content: string)

  /** The conversation sent to the API. */
  datatype Message = UserPrompt(text: string) | AssistantTurn(content: seq<Block>) | ToolResults(results: seq<ToolResult>)

  /** One tool_result per tool use, in order, each carrying its tool use's
      id and what dispatch returned for it (`dispatched(i)` for the i-th). */
  function ResultsFor(uses: seq<Block>, dispatched: nat -> string): (results: seq<ToolResult>)
    requires forall i :: 0 <= i < |uses| ==> uses[i].ToolUseBlock?
    ensures |results| == |uses|
    ensures forall i :: 0 <= i < |uses| ==> results[i] == ToolResult(uses[i].id, dispatched(i))
  {
    if uses == [] then []
    else ResultsFor(uses[..|uses| - 1], dispatched) + [ToolResult(uses[|uses| - 1].id, dispatched(|uses| - 1))]
  }

  /** What _call_with_tools ends with: the reply or the API error it raises,
      the final message list and how many rounds ran. */
  datatype ToolLoop = ToolLoop(reply: Result<string, CreateOutcome>, messages: seq<Message>, rounds: nat)

  /** A round finishes the loop when it asks for no tool or says end_turn. */
  predicate Finishes(response: Response) {
    ToolUses(response.content) == [] || response.stopReason == "end_turn"
  }

  function JoinOr(texts: seq<string>, otherwise: string): string {
    if texts == [] then otherwise else Join("\n", texts)
  }

  /** How one round ends: the loop stops with a reply or an error, or goes
      on with the assistant content, its tool results and its text parts. */
  datatype RoundOutcome =
    | Stop(reply: Result<string, CreateOutcome>)
    | Continue(content: seq<Block>, results: seq<ToolResult>, texts: seq<string>)

  /** One round, given what _api_call returned. */
  function Round(api: Result<Response, CreateOutcome>, dispatched: nat -> string): (r: RoundOutcome)
    ensures r.Continue? ==> (|r.results| == |ToolUses(r.content)| > 0 &&
      forall i :: 0 <= i < |r.results| ==> r.results[i] == ToolResult(ToolUses(r.content)[i].id, dispatched(i)))
  {
    if api.Err? then Stop(Err(api.error))
    else if Finishes(api.value) then Stop(Ok(JoinOr(TextParts(api.value.content), NoResponse)))
    else
      var content := api.value.content;
      Continue(content, ResultsFor(ToolUses(content), dispatched), TextParts(content))
  }

  /** Every round of the loop, as the API and the registry answer it. */
  function RoundsOf(create: nat -> nat -> CreateOutcome, dispatched: nat -> nat -> string): nat -> RoundOutcome {
    (round: nat) => Round(Schedule(create(round)).result, dispatched(round))
  }

  /** The tool loop from round `round` on, `lastTexts` being the previous
      round's text parts, given how each round ends. */
  function LoopFrom(rounds: nat -> RoundOutcome, messages: seq<Message>, round: nat, lastTexts: seq<string>): ToolLoop
    requires round <= MaxToolRounds
    decreases MaxToolRounds - round
  {
    if round == MaxToolRounds then ToolLoop(Ok(JoinOr(lastTexts, MaxRoundsReached)), messages, round)
    else match rounds(round)
      case Stop(reply) => ToolLoop(reply, messages, round + 1)
      case Continue(content, results, texts) =>
        LoopFrom(rounds, messages + [AssistantTurn(content), ToolResults(results)], round + 1, texts)
  }

  /** The body of the round loop: call the API, sort the blocks, and either
      return or dispatch every tool use. */
  method OneRound(create: nat -> CreateOutcome, dispatched: nat -> string) returns (o: RoundOutcome)
    ensures o == Round(Schedule(create).result, dispatched)
  {
    var response, calls, sleeps := ApiCall(create);
    if response.Err? {
      return Stop(Err(response.error));
    }
    var texts, uses := SortBlocks(response.value.content);
    if uses == [] || response.value.stopReason == "end_turn" {
      return Stop(Ok(JoinOr(texts, NoResponse)));
    }
    var results := [];
    for i := 0 to |uses|
      invariant results == ResultsFor(uses[..i], dispatched)
    {
      assert uses[..i + 1][..i] == uses[..i];
      results := results + [ToolResult(uses[i].id, dispatched(i))];
    }
    assert uses[..|uses|] == uses;
    o := Continue(response.value.content, results, texts);
  }

  /** _call_with_tools. `dispatched(round)(i)` is what the tool registry
      returned for the i-th tool use of that round. */
  method CallWithTools(create: nat -> nat -> CreateOutcome, dispatched: nat -> nat -> string, prompt: seq<Message>)
    returns (reply: Result<string, CreateOutcome>, messages: seq<Message>, rounds: nat)
    ensures ToolLoop(reply, messages, rounds) == LoopFrom(RoundsOf(create, dispatched), prompt, 0, [])
  {
    messages := prompt;
    var texts: seq<string> := [];
    for round := 0 to MaxToolRounds
      invariant LoopFrom(RoundsOf(create, dispatched), prompt, 0, []) == LoopFrom(RoundsOf(create, dispatched), messages, round, texts)
    {
      var o := OneRound(create(round), dispatched(round));
      assert o == RoundsOf(create, dispatched)(round);
      if o.Stop? {
        return o.reply, messages, round + 1;
      }
      messages := messages + [AssistantTurn(o.content), ToolResults(o.results)];
      texts := o.texts;
    }
    reply, rounds := Ok(JoinOr(texts, MaxRoundsReached)), MaxToolRounds;
  }

  /** A tool-result message answers an assistant turn: one result per tool
      use, in order, with the tool use's id. */
  predicate Answers(content: seq<Block>, results: seq<ToolResult>) {
    |results| == |ToolUses(content)| &&
    forall i :: 0 <= i < |results| ==> results[i].toolUseId == ToolUses(content)[i].id
  }

  /** What the loop appends after the prompt: pairs of an assistant turn and
      the tool results answering it. */
  predicate Paired(added: seq<Message>)
    decreases |added|
  {
    added == [] ||
    (|added| >= 2 && Paired(added[..|added| - 2]) &&
     added[|added| - 2].AssistantTurn? && added[|added| - 1].ToolResults? &&
     Answers(added[|added| - 2].content, added[|added| - 1].results))
  }

  /** Every round that goes on carries tool results answering its content. */
  ghost predicate AnsweredRounds(rounds: nat -> RoundOutcome) {
    forall r: nat :: rounds(r).Continue? ==> Answers(rounds(r).content, rounds(r).results)
  }

  lemma RoundsOfAnswered(create: nat -> nat -> CreateOutcome, dispatched: nat -> nat -> string)
    ensures AnsweredRounds(RoundsOf(create, dispatched))
  {
    forall r: nat | RoundsOf(create, dispatched)(r).Continue?
      ensures Answers(RoundsOf(create, dispatched)(r).content, RoundsOf(create, dispatched)(r).results)
    {
      var o := RoundsOf(create, dispatched)(r);
      assert o == Round(Schedule(create(r)).result, dispatched(r));
    }
  }

  /** Every round that went on added one answered pair after the prompt. */
  lemma {:induction false} LoopMessages(rounds: nat -> RoundOutcome, prompt: seq<Message>, added: seq<Message>,
                                        round: nat, lastTexts: seq<string>)
    requires round <= MaxToolRounds && Paired(added) && AnsweredRounds(rounds)
    ensures var t := LoopFrom(rounds, prompt + added, round, lastTexts);
      |prompt| <= |t.messages| && t.messages[..|prompt|] == prompt && Paired(t.messages[|prompt|..])
    decreases MaxToolRounds - round
  {
    var t := LoopFrom(rounds, prompt + added, round, lastTexts);
    if round < MaxToolRounds && rounds(round).Continue? {
      var o := rounds(round);
      var next := added + [AssistantTurn(o.content), ToolResults(o.results)];
      assert next[..|next| - 2] == added;
      assert (prompt + added) + [AssistantTurn(o.content), ToolResults(o.results)] == prompt + next;
      LoopMessages(rounds, prompt, next, round + 1, o.texts);
    } else {
      assert t.messages == prompt + added;
      assert t.messages[|prompt|..] == added;
    }
  }

  /** The loop runs between one round and 20; it stops early only on a round
      that stops it, with that round's reply. */
  lemma {:induction false} LoopRounds(rounds: nat -> RoundOutcome, messages: seq<Message>, round: nat, lastTexts: seq<string>)
    requires round <= MaxToolRounds
    ensures var t := LoopFrom(rounds, messages, round, lastTexts);
      && (if round < MaxToolRounds then round < t.rounds else t.rounds == round)
      && t.rounds <= MaxToolRounds
      && (t.rounds < MaxToolRounds ==> rounds(t.rounds - 1) == Stop(t.reply))
      && (t.reply.Err? ==> rounds(t.rounds - 1) == Stop(t.reply))
    decreases MaxToolRounds - round
  {
    if round < MaxToolRounds && rounds(round).Continue? {
      var o := rounds(round);
      LoopRounds(rounds, messages + [AssistantTurn(o.content), ToolResults(o.results)], round + 1, o.texts);
    }
  }

  /** A round stops the loop with an error exactly when its API call raised. */
  lemma StopWithError(create: nat -> nat -> CreateOutcome, dispatched: nat -> nat -> string, round: nat, e: CreateOutcome)
    ensures RoundsOf(create, dispatched)(round) == Stop(Err(e)) <==> Schedule(create(round)).result == Err(e)
  {
  }

  /** The whole call from the prompt: at most 20 rounds, the prompt kept in
      front of answered pairs, and an error only when an API call raised. */
  lemma CallWithToolsShape(create: nat -> nat -> CreateOutcome, dispatched: nat -> nat -> string, prompt: seq<Message>)
    ensures var t := LoopFrom(RoundsOf(create, dispatched), prompt, 0, []);
      && 1 <= t.rounds <= MaxToolRounds
      && |prompt| <= |t.messages| && t.messages[..|prompt|] == prompt && Paired(t.messages[|prompt|..])
      && (t.reply.Err? ==> Schedule(create(t.rounds - 1)).result == Err(t.reply.error))
  {
    var rounds := RoundsOf(create, dispatched);
    LoopRounds(rounds, prompt, 0, []);
    RoundsOfAnswered(create, dispatched);
    assert prompt + [] == prompt;
    LoopMessages(rounds, prompt, [], 0, []);
    var t := LoopFrom(rounds, prompt, 0, []);
    if t.reply.Err? {
      StopWithError(create, dispatched, t.rounds - 1, t.reply.error);
    }
  }

  /** A first response that finishes the loop is the whole exchange: its text
      parts joined by newlines, or "(no response)". */
  lemma FirstRoundFinishes(create: nat -> nat -> CreateOutcome, dispatched: nat -> nat -> string, prompt: seq<Message>)
    requires create(0)(0).Created? && Finishes(create(0)(0).response)
    ensures LoopFrom(RoundsOf(create, dispatched), prompt, 0, []) ==
      ToolLoop(Ok(JoinOr(TextParts(create(0)(0).response.content), NoResponse)), prompt, 1)
  {
    assert Schedule(create(0)).result == Ok(create(0)(0).response);
    assert RoundsOf(create, dispatched)(0) == Stop(Ok(JoinOr(TextParts(create(0)(0).response.content), NoResponse)));
  }

  /** When every round asks for tools, the loop stops after 20 rounds with
      the last round's text, or "(max tool rounds reached)", and does not
      raise. */
  lemma {:induction false} ToolsEveryRound(rounds: nat -> RoundOutcome, messages: seq<Message>, round: nat, lastTexts: seq<string>)
    requires round <= MaxToolRounds
    requires forall r :: round <= r < MaxToolRounds ==> rounds(r).Continue?
    ensures var t := LoopFrom(rounds, messages, round, lastTexts);
      var finalTexts := if round < MaxToolRounds then rounds(MaxToolRounds - 1).texts else lastTexts;
      t.rounds == MaxToolRounds && t.reply == Ok(JoinOr(finalTexts, MaxRoundsReached))
    decreases MaxToolRounds - round
  {
    if round < MaxToolRounds {
      var o := rounds(round);
      ToolsEveryRound(rounds, messages + [AssistantTurn(o.content), ToolResults(o.results)], round + 1, o.texts);
    }
  }

  /** The string _process_impl logs and re-raises for an API error. */
  function ErrorName(o: CreateOutcome): string {
    match o
    case RateLimited => "RateLimitError"
    case ServerError => "InternalServerError"
    case Overloaded => "APIStatusError: 529"
    case _ => "APIError"
  }

  /** The user prompt stays the first message of the conversation the
      tool loop sends. */
  lemma PromptLeads(create: nat -> nat -> CreateOutcome, dispatched: nat -> nat -> string, prompt: Message)
    ensures var t := LoopFrom(RoundsOf(create, dispatched), [prompt], 0, []);
      |t.messages| >= 1 && t.messages[0] == prompt
  {
    CallWithToolsShape(create, dispatched, [prompt]);
    var t := LoopFrom(RoundsOf(create, dispatched), [prompt], 0, []);
    assert t.messages[..1] == [prompt];
    assert t.messages[0] == t.messages[..1][0];
  }

  /** The reply _process_impl gets for a prompt built from these turns,
      events and fallback, or the name of the error it raises. */
  function Answer(turns: seq<Turn>, events: seq<Event>, fallback: Option<string>, dumps: Json -> string,
                  create: nat -> nat -> CreateOutcome, dispatched: nat -> nat -> string): Result<string, string>
  {
    var t := LoopFrom(RoundsOf(create, dispatched), [UserPrompt(Prompt.UserPrompt(turns, events, fallback, dumps))], 0, []);
    if t.reply.Ok? then Ok(t.reply.value) else Err(ErrorName(t.reply.error))
  }

  /** Steps 3 and 4 of _process_impl: build the prompts, run the tool loop. */
  method Generate(turns: seq<Turn>, events: seq<Event>, fallback: Option<string>, currentDatetime: string,
                  dumps: Json -> string, create: nat -> nat -> CreateOutcome, dispatched: nat -> nat -> string)
    returns (outcome: Result<string, string>, system: string, sent: seq<Message>)
    ensures outcome == Answer(turns, events, fallback, dumps, create, dispatched)
    ensures system == SystemPrompt(currentDatetime)
    ensures |sent| >= 1 && sent[0] == UserPrompt(Prompt.UserPrompt(turns, events, fallback, dumps))
    ensures sent == LoopFrom(RoundsOf(create, dispatched), [sent[0]], 0, []).messages
  {
    system := SystemPrompt(currentDatetime);
    var userContent := Prompt.UserPrompt(turns, events, fallback, dumps);
    var reply, rounds;
    reply, sent, rounds := CallWithTools(create, dispatched, [UserPrompt(userContent)]);
    PromptLeads(create, dispatched, UserPrompt(userContent));
    outcome := if reply.Ok? then Ok(reply.value) else Err(ErrorName(reply.error));
  }

  /** Answer, for the turns get_recent_turns reads from these rows. */
  function AnswerFor(rows: seq<TurnRow>, chat: string, limit: int, maxChars: int, events: seq<Event>, fallback: Option<string>,
                     dumps: Json -> string, create: nat -> nat -> CreateOutcome, dispatched: nat -> nat -> string): Result<string, string>
  {
    Answer(RecentTurns(rows, chat, limit, maxChars), events, fallback, dumps, create, dispatched)
  }

  class MessageProcessor {
    const history: HistoryStore
    const locks: LockTable
    const historyTurns: int

    constructor (history: HistoryStore, historyTurns: int)
      ensures this.history == history && this.historyTurns == historyTurns
      ensures fresh(locks) && locks.Valid() && locks.locks == map[]
    {
      this.history := history;
      this.historyTurns := historyTurns;
      locks := new LockTable();
    }

    /** process: takes the chat's lock, then runs _process_impl. */
    method Process(chat: string, events: seq<Event>, currentDatetime: string, dumps: Json -> string,
                   create: nat -> nat -> CreateOutcome, dispatched: nat -> nat -> string,
                   fallbackSaved: bool, elapsedMs: int, now: string)
      returns (effects: seq<Effect>, raised: bool, system: string, sent: seq<Message>)
      requires locks.Valid() && history.Valid()
      modifies locks, history
      ensures locks.Valid() && chat in locks.locks && history.Valid()
      ensures chat in old(locks.locks) ==> locks.locks == old(locks.locks)
      ensures chat !in old(locks.locks) ==> locks.locks.Keys == old(locks.locks.Keys) + {chat}
      ensures system == SystemPrompt(currentDatetime)
      ensures var fallback := if chat in old(history.fallback) then Some(old(history.fallback)[chat]) else None;
        |sent| >= 1
        && sent[0] == UserPrompt(Prompt.UserPrompt(RecentTurns(old(history.turns), chat, historyTurns, history.maxChars),
                                                   events, fallback, dumps))
      ensures var fallback := if chat in old(history.fallback) then Some(old(history.fallback)[chat]) else None;
        var reply := AnswerFor(old(history.turns), chat, historyTurns, history.maxChars, events, fallback,
                               dumps, create, dispatched);
        && (raised <==> reply.Err?)
        && (!raised ==>
              && effects == [TurnSaved(UserText(events), reply.value), FallbackCleared, Sent(reply.value)]
              && history.turns == old(history.turns) + [TurnRow(history.lastId, chat, UserText(events), reply.value, Some(elapsedMs), now)]
              && history.fallback == old(history.fallback) - {chat})
        && (raised ==>
              && effects == (if fallbackSaved then [FallbackSaved(FailureNote(events))] else [])
              && history.turns == old(history.turns)
              && history.fallback == if fallbackSaved then old(history.fallback)[chat := FailureNote(events)]
                                     else old(history.fallback) - {chat})
    {
      var lock := locks.GetLock(chat);
      effects, raised, system, sent := ProcessImpl(chat, events, currentDatetime, dumps, create, dispatched, fallbackSaved, elapsedMs, now);
    }

    /** _process_impl: the recent turns and the consumed fallback make the
        user prompt; the tool loop answers it; then the turn is saved, the
        fallback cleared and the reply sent, or on an API error the failure
        note is saved as the fallback and the error raised again. */
    method ProcessImpl(chat: string, events: seq<Event>, currentDatetime: string, dumps: Json -> string,
                       create: nat -> nat -> CreateOutcome, dispatched: nat -> nat -> string,
                       fallbackSaved: bool, elapsedMs: int, now: string)
      returns (effects: seq<Effect>, raised: bool, system: string, sent: seq<Message>)
      requires history.Valid()
      modifies history
      ensures history.Valid()
      ensures system == SystemPrompt(currentDatetime)
      ensures var fallback := if chat in old(history.fallback) then Some(old(history.fallback)[chat]) else None;
        |sent| >= 1
        && sent[0] == UserPrompt(Prompt.UserPrompt(RecentTurns(old(history.turns), chat, historyTurns, history.maxChars),
                                                   events, fallback, dumps))
      ensures var fallback := if chat in old(history.fallback) then Some(old(history.fallback)[chat]) else None;
        var reply := AnswerFor(old(history.turns), chat, historyTurns, history.maxChars, events, fallback,
                               dumps, create, dispatched);
        && (raised <==> reply.Err?)
        && (!raised ==>
              && effects == [TurnSaved(UserText(events), reply.value), FallbackCleared, Sent(reply.value)]
              && history.turns == old(history.turns) + [TurnRow(history.lastId, chat, UserText(events), reply.value, Some(elapsedMs), now)]
              && history.fallback == old(history.fallback) - {chat})
        && (raised ==>
              && effects == (if fallbackSaved then [FallbackSaved(FailureNote(events))] else [])
              && history.turns == old(history.turns)
              && history.fallback == if fallbackSaved then old(history.fallback)[chat := FailureNote(events)]
                                     else old(history.fallback) - {chat})
    {
      var turns := history.GetRecentTurns(chat, historyTurns);
      var fallback := history.GetFallback(chat);
      var outcome;
      outcome, system, sent := Generate(turns, events, fallback, currentDatetime, dumps, create, dispatched);
      assert outcome == AnswerFor(old(history.turns), chat, historyTurns, history.maxChars, events, fallback, dumps, create, dispatched);
      FallbackAfterTake(old(history.fallback), chat, FailureNote(events));
      effects, raised := Conclude(history, chat, events, outcome, fallbackSaved, elapsedMs, now);
    }
  }
}
