/** The settings model: its defaults and the validators that run when it is
    built from environment strings. */
module Config {
  import opened Wrappers
  import opened Text

  datatype TelegramMode = Polling | Webhook

  /** What telegram_allowed_chat_ids arrives as: the raw environment string or
      an already typed list. */
  datatype ChatIdsInput = IdsText(text: string) | IdList(ids: seq<int>)

  /** The settings that are modelled (temperature, a float, is not). */
  datatype Settings = Settings(
    anthropicApiKey: string,
    telegramToken: string,
    telegramAllowedChatIds: seq<int>,
    openaiApiKey: string,
    voyageApiKey: string,
    model: string,
    maxTokens: int,
    historyTurns: int,
    historyMaxChars: int,
    historyDb: string,
    debounceDelay: int,
    userTimezone: string,
    graphitiUrl: string,
    tavilyApiKey: string,
    perplexityApiKey: string,
    googleCredentialsPath: string,
    telegramMode: TelegramMode,
    webhookUrl: string,
    webhookPort: int,
    logLevel: string,
    fallbackMaxChars: int)

  /** The five required values plus every optional field at its default. */
  function WithDefaults(anthropicApiKey: string, telegramToken: string, chatIds: seq<int>,
                        openaiApiKey: string, voyageApiKey: string): Settings {
    Settings(anthropicApiKey, telegramToken, chatIds, openaiApiKey, voyageApiKey,
      "claude-sonnet-4-5-20250929", 4096, 20, 500, "/data/history.db", 5, "UTC",
      "http://graphiti-mcp:8000", "", "", "/app/credentials/google_credentials.json",
      Polling, "", 8443, "INFO", 4000)
  }

  // ---------------------------------------------------------------------------
  // parse_chat_ids

  /** The message of the ValueError int() raises for a piece it cannot read. */
  function InvalidLiteral(piece: string): string {
    "invalid literal for int() with base 10: '" + piece + "'"
  }

  /** How one piece of the comma split reads: blank after stripping, an
      integer, or a literal int() rejects. */
  datatype PieceRead = Blank | Id(n: int) | Bad(literal: string)

  function ReadPiece(piece: string): PieceRead {
    var p := Strip(piece);
    if p == "" then Blank
    else
      var n := ParseInt(p);
      if n.Some? then Id(n.value) else Bad(p)
  }

  /** A piece is kept unless it strips to nothing, and a kept piece must be
      an integer literal. */
  predicate Readable(piece: string) {
    !ReadPiece(piece).Bad?
  }

  /** [int(x.strip()) for x in pieces if x.strip()]: the first unreadable
      piece raises. */
  function ParseIds(pieces: seq<string>): (r: Result<seq<int>, string>)
    ensures r.Ok? ==> |r.value| <= |pieces|
  {
    if pieces == [] then Ok([])
    else
      var rest := ParseIds(pieces[1..]);
      match ReadPiece(pieces[0])
      case Blank => rest
      case Bad(p) => Err(InvalidLiteral(p))
      case Id(n) => if rest.Err? then rest else Ok([n] + rest.value)
  }

  /** Every piece is readable. */
  predicate AllReadable(pieces: seq<string>) {
    pieces == [] || (Readable(pieces[0]) && AllReadable(pieces[1..]))
  }

  /** The list comprehension raises exactly when some piece is unreadable. */
  lemma {:induction false} ParseIdsOkIff(pieces: seq<string>)
    ensures ParseIds(pieces).Ok? <==> AllReadable(pieces)
  {
    if pieces != [] {
      ParseIdsOkIff(pieces[1..]);
    }
  }

  /** parse_chat_ids: a string is split on ",", anything else passes through. */
  function ParseChatIds(v: ChatIdsInput): (r: Result<seq<int>, string>)
    ensures v.IdList? ==> r == Ok(v.ids)
    ensures v.IdsText? ==> (r.Ok? <==> AllReadable(SplitOn(v.text, ',')))
  {
    if v.IdList? then Ok(v.ids)
    else
      ParseIdsOkIff(SplitOn(v.text, ','));
      ParseIds(SplitOn(v.text, ','))
  }

  /** Splitting on a separator the first part lacks cuts right after it. */
  lemma {:induction false} SplitOnPrefix(a: string, rest: string, sep: char)
    requires forall i :: 0 <= i < |a| ==> a[i] != sep
    ensures SplitOn(a + [sep] + rest, sep) == [a] + SplitOn(rest, sep)
  {
    var s := a + [sep] + rest;
    if a == [] {
      assert s[1..] == rest;
    } else {
      assert s[1..] == a[1..] + [sep] + rest;
      SplitOnPrefix(a[1..], rest, sep);
      assert [a[0]] + a[1..] == a;
    }
  }

  lemma {:induction false} SplitOnWhole(a: string, sep: char)
    requires forall i :: 0 <= i < |a| ==> a[i] != sep
    ensures SplitOn(a, sep) == [a]
  {
    if a != [] {
      SplitOnWhole(a[1..], sep);
      assert [a[0]] + a[1..] == a;
    }
  }

  /** str.split undoes str.join when no part holds the separator. */
  lemma {:induction false} SplitOnJoin(parts: seq<string>, sep: char)
    requires parts != []
    requires forall k, i :: 0 <= k < |parts| && 0 <= i < |parts[k]| ==> parts[k][i] != sep
    ensures SplitOn(Join([sep], parts), sep) == parts
  {
    if |parts| == 1 {
      SplitOnWhole(parts[0], sep);
    } else {
      SplitOnJoin(parts[1..], sep);
      assert forall i :: 0 <= i < |parts[0]| ==> parts[0][i] != sep;
      SplitOnPrefix(parts[0], Join([sep], parts[1..]), sep);
    }
  }

  /** The decimal form of an int has no surrounding whitespace. */
  lemma StripDecimal(n: int)
    ensures Strip(IntToString(n)) == IntToString(n)
  {
    var s := IntToString(n);
    assert !IsSpace(s[|s| - 1]);
    assert RStrip(s) == s;
    assert !IsSpace(s[0]);
  }

  function Decimals(ids: seq<int>): (r: seq<string>)
    ensures |r| == |ids| && forall k :: 0 <= k < |ids| ==> r[k] == IntToString(ids[k])
  {
    seq(|ids|, k requires 0 <= k < |ids| => IntToString(ids[k]))
  }

  /** A readable non-blank piece puts its value in front of the rest. */
  lemma ParseIdsCons(p: string, rest: seq<string>, n: int)
    requires ReadPiece(p) == Id(n) && ParseIds(rest).Ok?
    ensures ParseIds([p] + rest) == Ok([n] + ParseIds(rest).value)
  {
    assert ([p] + rest)[0] == p && ([p] + rest)[1..] == rest;
  }

  /** The decimal form of an id is a readable, non-blank piece. */
  lemma ReadableDecimal(n: int)
    ensures ReadPiece(IntToString(n)) == Id(n)
  {
    StripDecimal(n);
    ParseIntOfIntToString(n);
  }

  /** Pieces that each read as the matching id parse to the ids. */
  lemma {:induction false} ParseIdsOfReadable(pieces: seq<string>, ids: seq<int>)
    requires |pieces| == |ids|
    requires forall k {:trigger ReadPiece(pieces[k])} :: 0 <= k < |pieces| ==> ReadPiece(pieces[k]) == Id(ids[k])
    ensures ParseIds(pieces) == Ok(ids)
  {
    if pieces != [] {
      assert pieces == [pieces[0]] + pieces[1..];
      ParseIdsOfReadable(pieces[1..], ids[1..]);
      ParseIdsCons(pieces[0], pieces[1..], ids[0]);
      assert [ids[0]] + ids[1..] == ids;
    }
  }

  lemma ParseIdsOfDecimals(ids: seq<int>)
    ensures ParseIds(Decimals(ids)) == Ok(ids)
  {
    forall k | 0 <= k < |ids|
      ensures ReadPiece(Decimals(ids)[k]) == Id(ids[k])
    {
      ReadableDecimal(ids[k]);
    }
    ParseIdsOfReadable(Decimals(ids), ids);
  }

  /** The comma-separated decimal forms of a non-empty list of ids parse back
      to that list. */
  lemma ChatIdsRoundTrip(ids: seq<int>)
    requires ids != []
    ensures ParseChatIds(IdsText(Join(",", Decimals(ids)))) == Ok(ids)
  {
    SplitOnJoin(Decimals(ids), ',');
    ParseIdsOfDecimals(ids);
  }

  /** Blank pieces are dropped: a trailing comma or a blank piece adds nothing. */
  lemma {:induction false} BlankPieceDropped(pieces: seq<string>, blank: string)
    requires IsBlank(blank)
    ensures ParseIds([blank] + pieces) == ParseIds(pieces)
  {
    StripEmptyIffBlank(blank);
    assert ([blank] + pieces)[1..] == pieces;
  }

  // ---------------------------------------------------------------------------
  // validate_log_level

  /** The int-valued upper-case attributes of the logging module. */
  const LogLevels: map<string, int> := map[
    "CRITICAL" := 50, "FATAL" := 50, "ERROR" := 40, "WARNING" := 30,
    "WARN" := 30, "INFO" := 20, "DEBUG" := 10, "NOTSET" := 0]

  /** validate_log_level: the upper-cased name if logging defines it as an int. */
  function ValidateLogLevel(v: string): (r: Result<string, string>)
    ensures r.Ok? <==> Upper(v) in LogLevels
    ensures r.Ok? ==> r.value == Upper(v)
    ensures r.Err? ==> r.error == "Invalid log level: " + v
  {
    if Upper(v) in LogLevels then Ok(Upper(v)) else Err("Invalid log level: " + v)
  }

  /** A stored level validates to itself. */
  lemma LogLevelIdempotent(v: string)
    requires ValidateLogLevel(v).Ok?
    ensures ValidateLogLevel(ValidateLogLevel(v).value) == ValidateLogLevel(v)
  {
    UpperIdempotent(v);
  }

  lemma UpperOfLower(s: string)
    ensures Upper(Lower(s)) == Upper(s)
  {
    assert forall i :: 0 <= i < |s| ==> UpperChar(LowerChar(s[i])) == UpperChar(s[i]);
  }

  /** The level is read without regard to case: "debug" and "DEBUG" agree. */
  lemma LogLevelIgnoresCase(v: string)
    ensures ValidateLogLevel(Lower(v)).Ok? == ValidateLogLevel(v).Ok?
    ensures ValidateLogLevel(Lower(v)).Ok? ==> ValidateLogLevel(Lower(v)).value == ValidateLogLevel(v).value
  {
    UpperOfLower(v);
  }

  // ---------------------------------------------------------------------------
  // telegram_mode and validate_webhook_config

  /** The Literal["polling", "webhook"] check. */
  function ParseTelegramMode(s: string): (r: Result<TelegramMode, string>)
    ensures r.Ok? <==> s == "polling" || s == "webhook"
    ensures r == Ok(Polling) <==> s == "polling"
  {
    if s == "polling" then Ok(Polling)
    else if s == "webhook" then Ok(Webhook)
    else Err("Input should be 'polling' or 'webhook'")
  }

  /** validate_webhook_config: webhook mode needs a webhook url. */
  function ValidateWebhookConfig(s: Settings): (r: Result<Settings, string>)
    ensures r.Err? <==> s.telegramMode == Webhook && s.webhookUrl == ""
    ensures r.Ok? ==> r.value == s
  {
    if s.telegramMode == Webhook && s.webhookUrl == "" then
      Err("WEBHOOK_URL must be set when TELEGRAM_MODE is 'webhook'")
    else Ok(s)
  }

  /** Settings(**env) for the validated fields: field validators in field
      order, then the model validator; every other field keeps its default. */
  function Build(anthropicApiKey: string, telegramToken: string, chatIds: ChatIdsInput,
                 openaiApiKey: string, voyageApiKey: string,
                 telegramMode: string, webhookUrl: string, logLevel: string): (r: Result<Settings, string>)
  {
    var ids := ParseChatIds(chatIds);
    var mode := ParseTelegramMode(telegramMode);
    var level := ValidateLogLevel(logLevel);
    if ids.Err? then Err(ids.error)
    else if mode.Err? then Err(mode.error)
    else if level.Err? then Err(level.error)
    else
      var base := WithDefaults(anthropicApiKey, telegramToken, ids.value, openaiApiKey, voyageApiKey);
      ValidateWebhookConfig(base.(telegramMode := mode.value, webhookUrl := webhookUrl, logLevel := level.value))
  }

  /** Building succeeds exactly when every validator accepts, and then the
      stored values are the validated ones. */
  lemma BuildAcceptsExactly(anthropicApiKey: string, telegramToken: string, chatIds: ChatIdsInput,
                            openaiApiKey: string, voyageApiKey: string,
                            telegramMode: string, webhookUrl: string, logLevel: string)
    ensures var r := Build(anthropicApiKey, telegramToken, chatIds, openaiApiKey, voyageApiKey,
                           telegramMode, webhookUrl, logLevel);
      (r.Ok? <==> ParseChatIds(chatIds).Ok? && (telegramMode == "polling" || telegramMode == "webhook") &&
                  Upper(logLevel) in LogLevels && !(telegramMode == "webhook" && webhookUrl == "")) &&
      (r.Ok? ==> r.value.telegramAllowedChatIds == ParseChatIds(chatIds).value &&
                 r.value.logLevel == Upper(logLevel) && r.value.webhookUrl == webhookUrl &&
                 r.value.debounceDelay == 5 && r.value.historyTurns == 20 &&
                 r.value.historyMaxChars == 500 && r.value.fallbackMaxChars == 4000)
  {
  }

  /** The defaults themselves pass every validator: polling needs no url and
      INFO is a level. */
  lemma DefaultsValid(anthropicApiKey: string, telegramToken: string, ids: seq<int>,
                      openaiApiKey: string, voyageApiKey: string)
    ensures Build(anthropicApiKey, telegramToken, IdList(ids), openaiApiKey, voyageApiKey, "polling", "", "INFO")
            == Ok(WithDefaults(anthropicApiKey, telegramToken, ids, openaiApiKey, voyageApiKey))
  {
    assert Upper("INFO") == "INFO";
  }
}
