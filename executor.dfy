/** The Claude CLI driver of src/buddy_bot/executor.py, the one the bot wires
    in. The subprocess is an input: `RunOutcome` says whether reading its
    output timed out, which lines it printed (each with the outcome of
    json.loads on the stripped line) and its exit code; `ResumeOutcome` does
    the same for the resume call. */
module Executor {
  import opened Wrappers
  import opened Text
  import opened Json
  import opened Bot
  import opened History
  import opened Locks
  import opened PyRepr

  const ResumeNudge := "Continue. If you already answered, repeat your final response."
  const NoResponse := "(no response)"
  const FailurePrefix := "Processing failed for messages: "

  /** What json.loads made of a stripped line. */
  datatype Parsed = NotJson | Parsed(value: Json)

  datatype Line = Line(text: string, parsed: Parsed)

  /** The two variables the stream loop keeps: result_text (a JSON null stands
      for Python None) and session_id (None when unset). */
  datatype StreamState = StreamState(result: Json, session: Option<Json>)

  const Start := StreamState(Str(""), None)

  /** What one decoded message object does to the state. */
  function Absorb(st: StreamState, msg: seq<(string, Json)>): (r: StreamState)
    ensures Lookup(msg, "type") == Some(Str("system")) ==> r == st.(session := GetOpt(msg, "session_id"))
    ensures Lookup(msg, "type") == Some(Str("result")) ==>
      r.result == GetOr(msg, "result", Str("")) &&
      r.session == (if TruthyOpt(st.session) then st.session else GetOpt(msg, "session_id"))
    ensures Lookup(msg, "type") != Some(Str("system")) && Lookup(msg, "type") != Some(Str("result")) ==> r == st
  {
    var kind := Lookup(msg, "type");
    if kind == Some(Str("system")) then st.(session := GetOpt(msg, "session_id"))
    else if kind == Some(Str("result")) then
      StreamState(GetOr(msg, "result", Str("")), if TruthyOpt(st.session) then st.session else GetOpt(msg, "session_id"))
    else st
  }

  /** A content block the progress scan can read: a dict, whose name (when
      it is a tool_use block) is a string that format_tool_progress accepts. */
  predicate BlockReadable(block: Json) {
    block.Obj? &&
    (Lookup(block.fields, "type") == Some(Str("tool_use")) ==> GetOr(block.fields, "name", Str("")).Str?)
  }

  /** Iterating `content` and calling `.get` on each element succeeds: a list
      of readable blocks, or a string or dict with nothing to iterate. */
  predicate ContentReadable(content: Json) {
    match content
    case Arr(items) => forall i :: 0 <= i < |items| ==> BlockReadable(items[i])
    case Str(s) => s == ""
    case Obj(fields) => fields == []
    case _ => false
  }

  /** The progress scan of an "assistant" message does not raise. It only
      logs, so it never changes the state. */
  predicate AssistantReadable(msg: seq<(string, Json)>) {
    var message := GetOr(msg, "message", Obj([]));
    message.Obj? && ContentReadable(GetOr(message.fields, "content", Arr([])))
  }

  /** One decoded message: an "assistant" message the scan cannot read
      raises; every other object is absorbed. */
  function StepMessage(st: StreamState, msg: seq<(string, Json)>): Result<StreamState, string> {
    if Lookup(msg, "type") == Some(Str("assistant")) && !AssistantReadable(msg) then Err("AttributeError: no attribute 'get'")
    else Ok(Absorb(st, msg))
  }

  /** One line of the stream: blank and non-JSON lines are skipped; a JSON
      value that is not an object makes `msg.get` raise. */
  function StepLine(st: StreamState, line: Line): Result<StreamState, string> {
    if Strip(line.text) == "" then Ok(st)
    else match line.parsed
      case NotJson => Ok(st)
      case Parsed(v) => if v.Obj? then StepMessage(st, v.fields) else Err("AttributeError: no attribute 'get'")
  }

  /** The left fold of _read_stream over the lines read so far. */
  function FoldStream(lines: seq<Line>): Result<StreamState, string> {
    if lines == [] then Ok(Start)
    else
      var before := FoldStream(lines[..|lines| - 1]);
      if before.Err? then before else StepLine(before.value, lines[|lines| - 1])
  }

  /** The stripped non-blank lines, which _read_stream collects in raw_lines. */
  function NonBlank(lines: seq<Line>): seq<string> {
    if lines == [] then []
    else
      var s := Strip(lines[|lines| - 1].text);
      NonBlank(lines[..|lines| - 1]) + (if s == "" then [] else [s])
  }

  /** _read_stream. */
  method ReadStream(lines: seq<Line>) returns (r: Result<StreamState, string>, rawLines: seq<string>)
    ensures r == FoldStream(lines)
    ensures r.Ok? ==> rawLines == NonBlank(lines)
  {
    var st := Start;
    rawLines := [];
    var i := 0;
    while i < |lines|
      invariant 0 <= i <= |lines|
      invariant FoldStream(lines[..i]) == Ok(st)
      invariant rawLines == NonBlank(lines[..i])
    {
      FoldSnoc(lines, i);
      var line := Strip(lines[i].text);
      if line == "" {
        i := i + 1;
        continue;
      }
      rawLines := rawLines + [line];
      if lines[i].parsed.Parsed? {
        var v := lines[i].parsed.value;
        if !v.Obj? || (Lookup(v.fields, "type") == Some(Str("assistant")) && !AssistantReadable(v.fields)) {
          FoldErrorSticks(lines[..i + 1], lines);
          return Err("AttributeError: no attribute 'get'"), rawLines;
        }
        st := Absorb(st, v.fields);
      }
      i := i + 1;
    }
    assert lines[..i] == lines;
    r := Ok(st);
  }

  /** One more line: the fold takes one more step and raw_lines grows by the
      stripped line unless it is blank. */
  lemma FoldSnoc(lines: seq<Line>, i: nat)
    requires i < |lines|
    ensures var before := FoldStream(lines[..i]);
      FoldStream(lines[..i + 1]) == if before.Err? then before else StepLine(before.value, lines[i])
    ensures var s := Strip(lines[i].text);
      NonBlank(lines[..i + 1]) == NonBlank(lines[..i]) + (if s == "" then [] else [s])
  {
    assert lines[..i + 1][..i] == lines[..i];
  }

  /** Once the fold has failed, later lines cannot repair it. */
  lemma {:induction false} FoldErrorSticks(pre: seq<Line>, lines: seq<Line>)
    requires FoldStream(pre).Err? && |pre| <= |lines| && lines[..|pre|] == pre
    ensures FoldStream(lines) == FoldStream(pre)
    decreases |lines|
  {
    if |lines| > |pre| {
      var init := lines[..|lines| - 1];
      assert init[..|pre|] == pre;
      FoldErrorSticks(pre, init);
    } else {
      assert lines == pre;
    }
  }

  /** Blank lines and lines that are not JSON leave the state as it was. */
  lemma SkippedLines(lines: seq<Line>, line: Line)
    requires Strip(line.text) == "" || line.parsed == NotJson
    ensures FoldStream(lines + [line]) == FoldStream(lines)
  {
    assert (lines + [line])[..|lines|] == lines;
  }

  /** A skipped line, or a message object whose type is neither "system"
      nor "result" and which, when it is an "assistant" message, can be read. */
  predicate Inert(line: Line) {
    Strip(line.text) == "" || line.parsed == NotJson ||
    (line.parsed.value.Obj? &&
     Lookup(line.parsed.value.fields, "type") != Some(Str("system")) &&
     Lookup(line.parsed.value.fields, "type") != Some(Str("result")) &&
     (Lookup(line.parsed.value.fields, "type") == Some(Str("assistant")) ==> AssistantReadable(line.parsed.value.fields)))
  }

  /** An unreadable "assistant" message ends the read with an error. */
  lemma UnreadableAssistantRaises(pre: seq<Line>, line: Line)
    requires FoldStream(pre).Ok?
    requires Strip(line.text) != "" && line.parsed.Parsed? && line.parsed.value.Obj?
    requires Lookup(line.parsed.value.fields, "type") == Some(Str("assistant"))
    requires !AssistantReadable(line.parsed.value.fields)
    ensures FoldStream(pre + [line]).Err?
  {
    assert (pre + [line])[..|pre|] == pre;
  }

  /** Without system or result messages the fold returns ("", None). */
  lemma {:induction false} InertLinesGiveStart(lines: seq<Line>)
    requires forall i :: 0 <= i < |lines| ==> Inert(lines[i])
    ensures FoldStream(lines) == Ok(Start)
  {
    if lines != [] {
      InertLinesGiveStart(lines[..|lines| - 1]);
    }
  }

  /** Inert lines after a point never change the pair. */
  lemma {:induction false} InertSuffix(pre: seq<Line>, post: seq<Line>)
    requires FoldStream(pre).Ok?
    requires forall i :: 0 <= i < |post| ==> Inert(post[i])
    ensures FoldStream(pre + post) == FoldStream(pre)
    decreases |post|
  {
    if post != [] {
      var init := post[..|post| - 1];
      assert (pre + post)[..|pre + post| - 1] == pre + init;
      InertSuffix(pre, init);
    } else {
      assert pre + post == pre;
    }
  }

  /** The last result message wins: after it, only lines that set no result
      follow, so its "result" field (default "") is the result text. */
  lemma LastResultWins(pre: seq<Line>, resultLine: Line, post: seq<Line>)
    requires FoldStream(pre).Ok?
    requires Strip(resultLine.text) != "" && resultLine.parsed.Parsed? && resultLine.parsed.value.Obj?
    requires Lookup(resultLine.parsed.value.fields, "type") == Some(Str("result"))
    requires forall i :: 0 <= i < |post| ==> Inert(post[i])
    ensures FoldStream(pre + [resultLine] + post).Ok?
    ensures FoldStream(pre + [resultLine] + post).value.result ==
      GetOr(resultLine.parsed.value.fields, "result", Str(""))
  {
    var mid := pre + [resultLine];
    assert mid[..|mid| - 1] == pre;
    var st := FoldStream(pre).value;
    assert FoldStream(mid) == StepLine(st, resultLine);
    assert FoldStream(mid) == Ok(Absorb(st, resultLine.parsed.value.fields));
    InertSuffix(mid, post);
  }

  /** A system message sets the session id outright, even to None. */
  lemma SystemOverwritesSession(pre: seq<Line>, line: Line)
    requires FoldStream(pre).Ok?
    requires Strip(line.text) != "" && line.parsed.Parsed? && line.parsed.value.Obj?
    requires Lookup(line.parsed.value.fields, "type") == Some(Str("system"))
    ensures FoldStream(pre + [line]) ==
      Ok(FoldStream(pre).value.(session := GetOpt(line.parsed.value.fields, "session_id")))
  {
    var next := pre + [line];
    assert next[..|next| - 1] == pre;
    assert FoldStream(next) == StepLine(FoldStream(pre).value, line);
  }

  /** How the resume call ended: timed out, or exited with a code and stdout
      (with the outcome of json.loads on the stripped stdout). */
  datatype ResumeOutcome = ResumeTimedOut | ResumeExited(returnCode: int, stdout: string, parsed: Parsed)

  /** _resume_session's (result, session_id). */
  function ResumeResult(outcome: ResumeOutcome, session: Json): (r: Result<(Json, Option<Json>), string>)
    ensures outcome.ResumeTimedOut? || outcome.returnCode != 0 ==> r == Ok((Str(""), None))
    ensures outcome.ResumeExited? && outcome.returnCode == 0 && outcome.parsed.NotJson? ==>
      r == Ok((Str(Strip(outcome.stdout)), Some(session)))
    ensures outcome.ResumeExited? && outcome.returnCode == 0 && outcome.parsed.Parsed? && outcome.parsed.value.Obj? ==>
      r == Ok((GetOr(outcome.parsed.value.fields, "result", Str("")), GetOpt(outcome.parsed.value.fields, "session_id")))
    ensures r.Err? <==> outcome.ResumeExited? && outcome.returnCode == 0 && outcome.parsed.Parsed? && !outcome.parsed.value.Obj?
  {
    match outcome
    case ResumeTimedOut => Ok((Str(""), None))
    case ResumeExited(code, stdout, parsed) =>
      if code != 0 then Ok((Str(""), None))
      else match parsed
        case NotJson => Ok((Str(Strip(stdout)), Some(session)))
        case Parsed(v) =>
          if v.Obj? then Ok((GetOr(v.fields, "result", Str("")), GetOpt(v.fields, "session_id")))
          else Err("AttributeError: no attribute 'get'")
  }

  /** Step 5 of _process_impl: on a blank result with a session id, resume
      once; a text still blank becomes "(no response)". A result that is not
      a string makes `.strip()` raise, and a session id that is not a string
      cannot be put on the resume command line. */
  function Reply(st: StreamState, resume: ResumeOutcome): (r: Result<string, string>)
    ensures r.Ok? ==> Strip(r.value) != ""
    ensures st.result.Str? && Strip(st.result.s) != "" ==> r == Ok(st.result.s)
    ensures st.result.Str? && Strip(st.result.s) == "" && !TruthyOpt(st.session) ==> r == Ok(NoResponse)
    ensures st.result.Str? && Strip(st.result.s) == "" && TruthyOpt(st.session) && st.session.value.Str? ==>
      var resumed := ResumeResult(resume, st.session.value);
      resumed.Ok? && resumed.value.0.Str? ==>
        r == Ok(if Strip(resumed.value.0.s) == "" then NoResponse else resumed.value.0.s)
    ensures r.Err? <==>
      !st.result.Str? ||
      (Strip(st.result.s) == "" && TruthyOpt(st.session) &&
       (!st.session.value.Str? || ResumeResult(resume, st.session.value).Err? ||
        !ResumeResult(resume, st.session.value).value.0.Str?))
  {
    NoResponseNotBlank();
    if !st.result.Str? then Err("AttributeError: no attribute 'strip'")
    else if Strip(st.result.s) != "" then Ok(st.result.s)
    else if !TruthyOpt(st.session) then Ok(NoResponse)
    else if !st.session.value.Str? then Err("TypeError: session id is not a string")
    else
      var resumed := ResumeResult(resume, st.session.value);
      if resumed.Err? then Err(resumed.error)
      else if !resumed.value.0.Str? then Err("AttributeError: no attribute 'strip'")
      else if Strip(resumed.value.0.s) == "" then Ok(NoResponse)
      else Ok(resumed.value.0.s)
  }

  lemma NoResponseNotBlank()
    ensures Strip(NoResponse) != ""
  {
    assert !IsBlank(NoResponse) by { assert !IsSpace(NoResponse[0]); }
    StripEmptyIffBlank(NoResponse);
  }

  /** How the main CLI run ended. */
  datatype RunOutcome = RunTimedOut | RunExited(lines: seq<Line>, returnCode: int)

  /** The whole generation: _run_claude, then the reply rules. */
  function Outcome(run: RunOutcome, resume: ResumeOutcome): Result<string, string> {
    match run
    case RunTimedOut => Err("RuntimeError: Claude CLI timed out")
    case RunExited(lines, code) =>
      var st := FoldStream(lines);
      if st.Err? then Err(st.error)
      else if code != 0 then Err("RuntimeError: Claude CLI exited with non-zero code")
      else Reply(st.value, resume)
  }

  function Texts(events: seq<Event>): (r: seq<string>)
    ensures |r| == |events| && forall i :: 0 <= i < |r| ==> r[i] == TextOf(events[i])
  {
    if events == [] then [] else [TextOf(events[0])] + Texts(events[1..])
  }

  /** The saved user text: the message texts, one per line. */
  function UserText(events: seq<Event>): string {
    Join("\n", Texts(events))
  }

  /** The fallback written when processing fails. */
  function FailureNote(events: seq<Event>): string {
    FailurePrefix + ListRepr(Texts(events))
  }

  /** What _process_impl writes and sends, in order. */
  datatype Effect = TurnSaved(userText: string, reply: string) | FallbackCleared | Sent(text: string) | FallbackSaved(text: string)

  /** _build_command. */
  function BuildCommand(prompt: string, model: string, mcpConfigPath: string): (cmd: seq<string>)
    ensures cmd == ["claude", "-p", prompt, "--output-format", "stream-json", "--verbose",
                    "--model", model, "--mcp-config", mcpConfigPath, "--allowedTools", "mcp__*"]
  {
    ["claude", "-p", prompt, "--output-format", "stream-json", "--verbose",
     "--model", model, "--mcp-config", mcpConfigPath] + ["--allowedTools", "mcp__*"]
  }

  /** The command of _resume_session. */
  function ResumeCommand(session: string, model: string): (cmd: seq<string>)
    ensures cmd == ["claude", "-p", ResumeNudge, "--output-format", "json", "--resume", session, "--model", model]
  {
    ["claude", "-p", ResumeNudge, "--output-format", "json", "--resume", session, "--model", model]
  }

  class ClaudeExecutor {
    const history: HistoryStore
    const locks: LockTable
    const historyTurns: int

    constructor (history: HistoryStore, historyTurns: int)
      ensures this.history == history && this.historyTurns == historyTurns
      ensures fresh(locks) && locks.Valid() && locks.locks == map[]
    {
      this.history := history;
      this.historyTurns := historyTurns;
      locks := new LockTable();
    }

    /** process: takes the chat's lock, then runs _process_impl. */
    method Process(chat: string, events: seq<Event>, run: RunOutcome, resume: ResumeOutcome,
                   fallbackSaved: bool, elapsedMs: int, now: string)
      returns (effects: seq<Effect>, raised: bool)
      requires locks.Valid() && history.Valid()
      modifies locks, history
      ensures locks.Valid() && chat in locks.locks && history.Valid()
      ensures chat in old(locks.locks) ==> locks.locks == old(locks.locks)
      ensures chat !in old(locks.locks) ==> locks.locks.Keys == old(locks.locks.Keys) + {chat}
      ensures raised <==> Outcome(run, resume).Err?
      ensures !raised ==> var reply := Outcome(run, resume).value;
        && effects == [TurnSaved(UserText(events), reply), FallbackCleared, Sent(reply)]
        && history.turns == old(history.turns) + [TurnRow(history.lastId, chat, UserText(events), reply, Some(elapsedMs), now)]
        && history.fallback == old(history.fallback) - {chat}
      ensures raised ==>
        && effects == (if fallbackSaved then [FallbackSaved(FailureNote(events))] else [])
        && history.turns == old(history.turns)
        && history.fallback == if fallbackSaved then old(history.fallback)[chat := FailureNote(events)]
                               else old(history.fallback) - {chat}
    {
      var lock := locks.GetLock(chat);
      effects, raised := ProcessImpl(chat, events, run, resume, fallbackSaved, elapsedMs, now);
    }

    /** _process_impl. The chat's fallback is read first, which deletes it;
        on success the turn is saved, the fallback cleared and the reply
        sent, in that order; on failure a note naming the messages is saved
        as the new fallback (unless saving it fails, which is swallowed) and
        the error is raised again. `fallbackSaved` says whether that save
        succeeds; `elapsedMs` and `now` stand for the clock. */
    method ProcessImpl(chat: string, events: seq<Event>, run: RunOutcome, resume: ResumeOutcome,
                       fallbackSaved: bool, elapsedMs: int, now: string)
      returns (effects: seq<Effect>, raised: bool)
      requires history.Valid()
      modifies history
      ensures history.Valid()
      ensures raised <==> Outcome(run, resume).Err?
      ensures !raised ==> var reply := Outcome(run, resume).value;
        && effects == [TurnSaved(UserText(events), reply), FallbackCleared, Sent(reply)]
        && history.turns == old(history.turns) + [TurnRow(history.lastId, chat, UserText(events), reply, Some(elapsedMs), now)]
        && history.fallback == old(history.fallback) - {chat}
      ensures raised ==>
        && effects == (if fallbackSaved then [FallbackSaved(FailureNote(events))] else [])
        && history.turns == old(history.turns)
        && history.fallback == if fallbackSaved then old(history.fallback)[chat := FailureNote(events)]
                               else old(history.fallback) - {chat}
    {
      // the recent turns and this fallback feed the prompt, which is not modelled
      var fallbackText := history.GetFallback(chat);
      var result := RunClaude(run);
      var reply: Result<string, string> := if result.Err? then Err(result.error) else Reply(result.value, resume);
      OutcomeOfRun(run, resume, result);
      FallbackAfterTake(old(history.fallback), chat, FailureNote(events));
      effects, raised := Conclude(history, chat, events, reply, fallbackSaved, elapsedMs, now);
    }
  }

  /** Steps 6 and 7 of _process_impl and its except branch, given the reply
      or the error that interrupted it. */
  method Conclude(history: HistoryStore, chat: string, events: seq<Event>, reply: Result<string, string>,
                  fallbackSaved: bool, elapsedMs: int, now: string)
    returns (effects: seq<Effect>, raised: bool)
    requires history.Valid()
    modifies history
    ensures history.Valid()
    ensures raised <==> reply.Err?
    ensures reply.Ok? ==>
      && effects == [TurnSaved(UserText(events), reply.value), FallbackCleared, Sent(reply.value)]
      && history.turns == old(history.turns) + [TurnRow(history.lastId, chat, UserText(events), reply.value, Some(elapsedMs), now)]
      && history.fallback == old(history.fallback) - {chat}
    ensures reply.Err? ==>
      && effects == (if fallbackSaved then [FallbackSaved(FailureNote(events))] else [])
      && history.turns == old(history.turns)
      && history.fallback == if fallbackSaved then old(history.fallback)[chat := FailureNote(events)] else old(history.fallback)
  {
    if reply.Ok? {
      history.SaveTurn(chat, UserText(events), reply.value, Some(elapsedMs), now);
      history.ClearFallback(chat);
      effects := [TurnSaved(UserText(events), reply.value), FallbackCleared, Sent(reply.value)];
      raised := false;
    } else {
      effects := [];
      if fallbackSaved {
        history.SaveFallback(chat, FailureNote(events));
        effects := [FallbackSaved(FailureNote(events))];
      }
      raised := true;
    }
  }

  /** The generation outcome is the reply made from what _run_claude returns. */
  lemma OutcomeOfRun(run: RunOutcome, resume: ResumeOutcome, result: Result<StreamState, string>)
    requires run.RunTimedOut? ==> result == Err("RuntimeError: Claude CLI timed out")
    requires run.RunExited? ==> result == if FoldStream(run.lines).Err? || run.returnCode == 0 then FoldStream(run.lines)
                                           else Err("RuntimeError: Claude CLI exited with non-zero code")
    ensures Outcome(run, resume) == if result.Err? then Err(result.error) else Reply(result.value, resume)
  {
  }

  /** _run_claude: the stream is read, then the exit code checked. */
  method RunClaude(run: RunOutcome) returns (r: Result<StreamState, string>)
    ensures run.RunTimedOut? ==> r == Err("RuntimeError: Claude CLI timed out")
    ensures run.RunExited? ==> r == if FoldStream(run.lines).Err? || run.returnCode == 0 then FoldStream(run.lines)
                                     else Err("RuntimeError: Claude CLI exited with non-zero code")
  {
    match run
    case RunTimedOut =>
      return Err("RuntimeError: Claude CLI timed out");
    case RunExited(lines, code) =>
      var raw;
      r, raw := ReadStream(lines);
      if r.Ok? && code != 0 {
        r := Err("RuntimeError: Claude CLI exited with non-zero code");
      }
  }
}
