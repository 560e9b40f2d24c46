/** The deterministic part of src/buddy_bot/bot.py: the chat allow-list check,
    turning a Telegram update into the event record the rest of the pipeline
    passes around, and splitting a long reply into Telegram-sized chunks. */
module Bot {
  import opened Wrappers
  import opened Text

  /** The event dict built by extract_event. The keys the pipeline reads with
      a default (`text`, `from`, `timestamp`) are optional here; `extra` holds
      any further keys (voice events add `source` and `voice_duration`). */
  datatype Event = Event(
    text: Option<string>,
    sender: Option<string>,
    chatId: string,
    messageId: int,
    timestamp: Option<string>,
    extra: seq<(string, string)>)

  /** `e.get("text", "")`. */
  function TextOf(e: Event): string {
    if e.text.Some? then e.text.value else ""
  }

  /** The parts of a Telegram update that extract_event reads. `isoDate` is the
      message date already rendered in UTC ISO format. */
  datatype User = User(firstName: string)
  datatype TelegramMessage = TelegramMessage(
    text: Option<string>,
    caption: Option<string>,
    fromUser: Option<User>,
    chatId: int,
    messageId: int,
    isoDate: string)
  datatype Update = Update(message: Option<TelegramMessage>)

  function IsAuthorized(chatId: int, allowed: seq<int>): (r: bool)
    ensures r <==> exists i :: 0 <= i < |allowed| && allowed[i] == chatId
  {
    chatId in allowed
  }

  /** Python truthiness of an optional string. */
  predicate Truthy(s: Option<string>) {
    s.Some? && s.value != ""
  }

  function ExtractEvent(update: Update): (r: Option<Event>)
    ensures r.None? <==>
      update.message.None? || (!Truthy(update.message.value.text) && !Truthy(update.message.value.caption))
    ensures r.Some? ==> var m := update.message.value;
      && r.value.text == Some(if Truthy(m.text) then m.text.value else m.caption.value)
      && r.value.sender == Some(if m.fromUser.Some? then m.fromUser.value.firstName else "unknown")
      && r.value.chatId == IntToString(m.chatId)
      && r.value.messageId == m.messageId
      && r.value.timestamp == Some(m.isoDate)
      && r.value.extra == []
  {
    match update.message
    case None => None
    case Some(m) =>
      var text := if Truthy(m.text) then m.text.value else if Truthy(m.caption) then m.caption.value else "";
      if text == "" then None
      else
        Some(Event(
          Some(text),
          Some(if m.fromUser.Some? then m.fromUser.value.firstName else "unknown"),
          IntToString(m.chatId),
          m.messageId,
          Some(m.isoDate),
          []))
  }

  // ---------------------------------------------------------------------------
  // split_message

  /** The cut index split_message picks for a text longer than the limit: the
      last "\n\n" wholly inside the window, else the last "\n", else the last
      " ", else a hard cut at the limit. */
  function CutIndex(text: string, maxLength: int): (i: int)
    requires |text| > maxLength >= 1
    ensures 0 <= i <= maxLength
    ensures (exists j :: OccursAt(text, "\n\n", j) && j + 2 <= maxLength) ==>
      OccursAt(text, "\n\n", i) && i + 2 <= maxLength &&
      forall j :: i < j && j + 2 <= maxLength ==> !OccursAt(text, "\n\n", j)
    ensures (forall j :: 0 <= j && j + 2 <= maxLength ==> !OccursAt(text, "\n\n", j)) &&
            (exists j :: 0 <= j < maxLength && text[j] == '\n') ==>
      i < maxLength && text[i] == '\n' && forall j :: i < j < maxLength ==> text[j] != '\n'
    ensures (forall j :: 0 <= j && j + 2 <= maxLength ==> !OccursAt(text, "\n\n", j)) &&
            (forall j :: 0 <= j < maxLength ==> text[j] != '\n') &&
            (exists j :: 0 <= j < maxLength && text[j] == ' ') ==>
      i < maxLength && text[i] == ' ' && forall j :: i < j < maxLength ==> text[j] != ' '
    ensures (forall j :: 0 <= j < maxLength ==> text[j] != '\n' && text[j] != ' ') ==> i == maxLength
  {
    var para := RFind(text, "\n\n", maxLength);
    if para != -1 then
      assert text[para] == text[para..para + 2][0];
      para
    else
      PairStartsWithNewline(text);
      SingleCharOccurs(text, "\n", maxLength);
      var line := RFind(text, "\n", maxLength);
      if line != -1 then line
      else
        SingleCharOccurs(text, " ", maxLength);
        var space := RFind(text, " ", maxLength);
        if space != -1 then space else maxLength
  }

  /** A one-character pattern occurs exactly where that character stands. */
  lemma SingleCharOccurs(text: string, pat: string, maxLength: int)
    requires |pat| == 1 && maxLength <= |text|
    ensures forall j :: 0 <= j < maxLength ==> (OccursAt(text, pat, j) <==> text[j] == pat[0])
  {
    forall j | 0 <= j < maxLength
      ensures OccursAt(text, pat, j) <==> text[j] == pat[0]
    {
      assert text[j..j + 1] == [text[j]];
    }
  }

  /** An occurrence of "\n\n" starts with a line feed. */
  lemma PairStartsWithNewline(text: string)
    ensures forall j :: OccursAt(text, "\n\n", j) ==> text[j] == '\n'
  {
    forall j | OccursAt(text, "\n\n", j)
      ensures text[j] == '\n'
    {
      assert text[j] == text[j..j + 2][0];
    }
  }

  /** One round of the split loop as written: the chunk text[:split_idx] and
      the remainder text[split_idx:].lstrip("\n"). */
  function SplitStep(text: string, maxLength: int): (string, string)
    requires |text| > maxLength >= 1
  {
    var i := CutIndex(text, maxLength);
    (text[..i], LStripNewlines(text[i..]))
  }

  /** A round shortens the text unless the only break in the window is a space
      at index 0, in which case the text comes back unchanged. */
  lemma SplitStepProgressIff(text: string, maxLength: int)
    requires |text| > maxLength >= 1
    ensures |SplitStep(text, maxLength).1| < |text| <==> !(CutIndex(text, maxLength) == 0 && text[0] == ' ')
    ensures CutIndex(text, maxLength) == 0 && text[0] == ' ' ==> SplitStep(text, maxLength) == ("", text)
  {
    var i := CutIndex(text, maxLength);
    if i == 0 && text[0] != ' ' {
      assert text[0] == '\n' by {
        if exists j :: OccursAt(text, "\n\n", j) && j + 2 <= maxLength {
          assert text[0..2] == "\n\n";
          assert text[0] == text[0..2][0];
        }
      }
    }
  }

  /** The loop of split_message reaches its end from `text`: every round it
      runs shortens the text. */
  ghost predicate SplitTerminates(text: string, maxLength: int)
    requires maxLength >= 1
    decreases |text|
  {
    |text| <= maxLength ||
    (var rest := SplitStep(text, maxLength).1; |rest| < |text| && SplitTerminates(rest, maxLength))
  }

  /** The counterexample: a space at index 0 and no other break in the window
      (" " + "a" * 5000 with the default limit 4096 is one) makes a round that
      appends "" and leaves the text as it was, so the loop never ends. */
  lemma SplitStepStuck(text: string, maxLength: int)
    requires |text| > maxLength >= 1
    requires text[0] == ' ' && forall j :: 1 <= j < maxLength ==> text[j] != ' ' && text[j] != '\n'
    ensures SplitStep(text, maxLength) == ("", text)
    ensures !SplitTerminates(text, maxLength)
  {
    assert forall j :: 0 <= j < maxLength ==> text[j] != '\n';
    assert forall j :: 0 <= j && j + 2 <= maxLength ==> !OccursAt(text, "\n\n", j) by {
      forall j | 0 <= j && j + 2 <= maxLength ensures !OccursAt(text, "\n\n", j) {
        assert text[j..j + 2][0] == text[j];
      }
    }
    assert exists j :: 0 <= j < maxLength && text[j] == ' ';
    SplitStepProgressIff(text, maxLength);
  }

  lemma DefaultLimitCounterexample()
    ensures var text := " " + seq(5000, _ => 'a');
      SplitStep(text, 4096) == ("", text) && !SplitTerminates(text, 4096)
  {
    var text := " " + seq(5000, _ => 'a');
    SplitStepStuck(text, 4096);
  }

  /** A text without spaces always gets through: cuts at line breaks or hard
      cuts always make progress. */
  lemma {:induction false} NoSpaceTerminates(text: string, maxLength: int)
    requires maxLength >= 1
    requires forall j :: 0 <= j < |text| ==> text[j] != ' '
    ensures SplitTerminates(text, maxLength)
    decreases |text|
  {
    if |text| > maxLength {
      SplitStepProgressIff(text, maxLength);
      var rest := SplitStep(text, maxLength).1;
      RestIsSuffix(text, maxLength);
      assert forall j :: 0 <= j < |rest| ==> rest[j] == text[|text| - |rest| + j];
      NoSpaceTerminates(rest, maxLength);
    }
  }

  /** What a round leaves is a suffix of the text. */
  lemma RestIsSuffix(text: string, maxLength: int)
    requires |text| > maxLength >= 1
    ensures var rest := SplitStep(text, maxLength).1;
      |rest| <= |text| && rest == text[|text| - |rest|..]
  {
    var i := CutIndex(text, maxLength);
    var tail := text[i..];
    var rest := LStripNewlines(tail);
    assert rest == tail[|tail| - |rest|..];
    assert tail[|tail| - |rest|..] == text[|text| - |rest|..];
  }

  /** The text with every line feed removed. */
  function DropNewlines(s: string): string {
    if s == [] then [] else (if s[0] == '\n' then [] else [s[0]]) + DropNewlines(s[1..])
  }

  lemma {:induction false} DropNewlinesAppend(a: string, b: string)
    ensures DropNewlines(a + b) == DropNewlines(a) + DropNewlines(b)
  {
    if a != [] {
      assert (a + b)[0] == a[0];
      assert (a + b)[1..] == a[1..] + b;
      DropNewlinesAppend(a[1..], b);
    } else {
      assert a + b == b;
    }
  }

  lemma {:induction false} DropNewlinesLStrip(s: string)
    ensures DropNewlines(LStripNewlines(s)) == DropNewlines(s)
  {
    if s != [] && s[0] == '\n' {
      DropNewlinesLStrip(s[1..]);
    }
  }

  function Concat(chunks: seq<string>): string {
    if chunks == [] then [] else Concat(chunks[..|chunks| - 1]) + chunks[|chunks| - 1]
  }

  lemma {:induction false} ConcatSnoc(chunks: seq<string>, c: string)
    ensures Concat(chunks + [c]) == Concat(chunks) + c
  {
    assert (chunks + [c])[..|chunks|] == chunks;
  }

  /** One round keeps every character but the leading line feeds of the
      remainder: appending the chunk and keeping the stripped remainder leaves
      the line-feed-free text unchanged. */
  lemma {:induction false} ChunkStep(chunks: seq<string>, rest: string, i: nat, text: string)
    requires i <= |rest|
    requires DropNewlines(Concat(chunks)) + DropNewlines(rest) == DropNewlines(text)
    ensures DropNewlines(Concat(chunks + [rest[..i]])) + DropNewlines(LStripNewlines(rest[i..])) == DropNewlines(text)
  {
    DropNewlinesLStrip(rest[i..]);
    DropNewlinesSplit(rest, i);
    DropNewlinesSnoc(chunks, rest[..i]);
    Regroup(DropNewlines(Concat(chunks)), DropNewlines(rest[..i]), DropNewlines(rest[i..]),
      DropNewlines(rest), DropNewlines(text));
  }

  lemma {:induction false} SingleChunk(text: string)
    ensures Concat([text]) == text
  {
    ConcatSnoc([], text);
    assert [] + [text] == [text];
  }

  lemma {:induction false} LastChunk(chunks: seq<string>, rest: string, text: string)
    requires DropNewlines(Concat(chunks)) + DropNewlines(rest) == DropNewlines(text)
    ensures DropNewlines(Concat(chunks + [rest])) == DropNewlines(text)
    ensures DropNewlines(Concat(chunks + [rest])) + DropNewlines([]) == DropNewlines(text)
  {
    DropNewlinesSnoc(chunks, rest);
  }

  lemma Regroup(done: string, a: string, b: string, rest: string, text: string)
    requires done + rest == text && a + b == rest
    ensures (done + a) + b == text
  {
  }

  lemma {:induction false} DropNewlinesSplit(s: string, i: nat)
    requires i <= |s|
    ensures DropNewlines(s[..i]) + DropNewlines(s[i..]) == DropNewlines(s)
  {
    assert s[..i] + s[i..] == s;
    DropNewlinesAppend(s[..i], s[i..]);
  }

  lemma {:induction false} DropNewlinesSnoc(chunks: seq<string>, c: string)
    ensures DropNewlines(Concat(chunks + [c])) == DropNewlines(Concat(chunks)) + DropNewlines(c)
  {
    ConcatSnoc(chunks, c);
    DropNewlinesAppend(Concat(chunks), c);
  }

  /** The chunks split_message returns, round by round: a text that fits is
      one chunk; otherwise the chunk is text[:CutIndex] and the rounds go on
      from the remainder, unless nothing remains. */
  ghost function Chunks(text: string, maxLength: int): seq<string>
    requires maxLength >= 1 && SplitTerminates(text, maxLength)
    decreases |text|
  {
    if |text| <= maxLength then [text]
    else
      var rest := SplitStep(text, maxLength).1;
      [text[..CutIndex(text, maxLength)]] + (if rest == [] then [] else Chunks(rest, maxLength))
  }

  /** The chunks the loop still has to make from the remaining text. */
  ghost function Pending(rest: string, maxLength: int): seq<string>
    requires maxLength >= 1 && SplitTerminates(rest, maxLength)
  {
    if rest == [] then [] else Chunks(rest, maxLength)
  }

  /** One round of the loop moves the first chunk of the remainder over to
      the chunks already made. */
  lemma ChunksRound(chunks: seq<string>, rest: string, maxLength: int, all: seq<string>)
    requires |rest| > maxLength >= 1 && SplitTerminates(rest, maxLength)
    requires chunks + Pending(rest, maxLength) == all
    ensures var next := LStripNewlines(rest[CutIndex(rest, maxLength)..]);
      |next| < |rest| && SplitTerminates(next, maxLength) &&
      (chunks + [rest[..CutIndex(rest, maxLength)]]) + Pending(next, maxLength) == all
  {
    var i := CutIndex(rest, maxLength);
    var next := LStripNewlines(rest[i..]);
    assert next == SplitStep(rest, maxLength).1;
    assert |next| < |rest| && SplitTerminates(next, maxLength);
    assert Pending(rest, maxLength) == [rest[..i]] + Pending(next, maxLength);
  }

  /** One round of the loop as written keeps every loop invariant and, under
      SplitTerminates, shortens the remaining text. */
  lemma SplitRound(chunks: seq<string>, rest: string, maxLength: int, all: seq<string>, text: string)
    requires |rest| > maxLength >= 1 && SplitTerminates(rest, maxLength)
    requires chunks + Pending(rest, maxLength) == all
    requires AllFit(chunks, maxLength)
    requires DropNewlines(Concat(chunks)) + DropNewlines(rest) == DropNewlines(text)
    ensures var i := CutIndex(rest, maxLength);
      var next := LStripNewlines(rest[i..]);
      var more := chunks + [rest[..i]];
      && |next| < |rest| && SplitTerminates(next, maxLength)
      && more + Pending(next, maxLength) == all
      && AllFit(more, maxLength)
      && DropNewlines(Concat(more)) + DropNewlines(next) == DropNewlines(text)
  {
    var i := CutIndex(rest, maxLength);
    ChunkStep(chunks, rest, i, text);
    AppendChunk(chunks, rest[..i], maxLength);
    ChunksRound(chunks, rest, maxLength, all);
  }

  /** The last round takes what remains as one chunk. */
  lemma ChunksLast(chunks: seq<string>, rest: string, maxLength: int, all: seq<string>, text: string)
    requires 0 < |rest| <= maxLength
    requires chunks + Pending(rest, maxLength) == all
    requires AllFit(chunks, maxLength)
    requires DropNewlines(Concat(chunks)) + DropNewlines(rest) == DropNewlines(text)
    ensures chunks + [rest] == all && AllFit(chunks + [rest], maxLength)
    ensures DropNewlines(Concat(chunks + [rest])) == DropNewlines(text)
  {
    LastChunk(chunks, rest, text);
    AppendChunk(chunks, rest, maxLength);
  }

  /** split_message as written. It only stops when every round shortens the
      text, which the precondition demands; see SplitStepStuck. */
  method SplitMessage(text: string, maxLength: int) returns (chunks: seq<string>)
    requires maxLength >= 1 && SplitTerminates(text, maxLength)
    ensures chunks == Chunks(text, maxLength)
    ensures |text| <= maxLength ==> chunks == [text]
    ensures AllFit(chunks, maxLength)
    ensures DropNewlines(Concat(chunks)) == DropNewlines(text)
  {
    if |text| <= maxLength {
      SingleChunk(text);
      return [text];
    }
    ghost var all := Chunks(text, maxLength);
    chunks := [];
    var rest := text;
    while rest != []
      invariant SplitTerminates(rest, maxLength)
      invariant chunks + Pending(rest, maxLength) == all
      invariant AllFit(chunks, maxLength)
      invariant DropNewlines(Concat(chunks)) + DropNewlines(rest) == DropNewlines(text)
      decreases |rest|
    {
      if |rest| <= maxLength {
        ChunksLast(chunks, rest, maxLength, all, text);
        chunks := chunks + [rest];
        rest := [];
        break;
      }
      var i := CutIndex(rest, maxLength);
      var next := LStripNewlines(rest[i..]);
      SplitRound(chunks, rest, maxLength, all, text);
      chunks := chunks + [rest[..i]];
      rest := next;
    }
  }

  /** The evidently intended cut: a break found at index 0 cannot shorten the
      text, so it is treated like no break and the text is cut hard. */
  function FixedCutIndex(text: string, maxLength: int): (i: int)
    requires |text| > maxLength >= 1
    ensures 1 <= i <= maxLength
    ensures i == CutIndex(text, maxLength) || (CutIndex(text, maxLength) == 0 && i == maxLength)
  {
    var i := CutIndex(text, maxLength);
    if i == 0 then maxLength else i
  }

  /** Every chunk fits in a Telegram message of `maxLength` characters. */
  predicate AllFit(chunks: seq<string>, maxLength: int) {
    forall k :: 0 <= k < |chunks| ==> |chunks[k]| <= maxLength
  }

  predicate NoneEmpty(chunks: seq<string>) {
    forall k :: 0 <= k < |chunks| ==> chunks[k] != []
  }

  lemma AppendChunk(chunks: seq<string>, c: string, maxLength: int)
    ensures AllFit(chunks, maxLength) && |c| <= maxLength ==> AllFit(chunks + [c], maxLength)
    ensures NoneEmpty(chunks) && c != [] ==> NoneEmpty(chunks + [c])
  {
    forall k | 0 <= k < |chunks| ensures (chunks + [c])[k] == chunks[k] { }
  }

  /** Chunks, with the corrected cut. Every round shortens the text, so it
      is defined for every text. */
  function FixedChunks(text: string, maxLength: int): seq<string>
    requires maxLength >= 1
    decreases |text|
  {
    if |text| <= maxLength then [text]
    else
      var i := FixedCutIndex(text, maxLength);
      var rest := LStripNewlines(text[i..]);
      [text[..i]] + (if rest == [] then [] else FixedChunks(rest, maxLength))
  }

  function FixedPending(rest: string, maxLength: int): seq<string>
    requires maxLength >= 1
  {
    if rest == [] then [] else FixedChunks(rest, maxLength)
  }

  lemma FixedChunksRound(chunks: seq<string>, rest: string, maxLength: int, all: seq<string>)
    requires |rest| > maxLength >= 1
    requires chunks + FixedPending(rest, maxLength) == all
    ensures var next := LStripNewlines(rest[FixedCutIndex(rest, maxLength)..]);
      (chunks + [rest[..FixedCutIndex(rest, maxLength)]]) + FixedPending(next, maxLength) == all
  {
    var i := FixedCutIndex(rest, maxLength);
    var next := LStripNewlines(rest[i..]);
    assert FixedPending(rest, maxLength) == [rest[..i]] + FixedPending(next, maxLength);
  }

  /** One round of the corrected loop keeps every loop invariant and
      shortens the remaining text. */
  lemma FixedRound(chunks: seq<string>, rest: string, maxLength: int, all: seq<string>, text: string)
    requires |rest| > maxLength >= 1
    requires chunks + FixedPending(rest, maxLength) == all
    requires AllFit(chunks, maxLength) && NoneEmpty(chunks)
    requires DropNewlines(Concat(chunks)) + DropNewlines(rest) == DropNewlines(text)
    ensures var i := FixedCutIndex(rest, maxLength);
      var next := LStripNewlines(rest[i..]);
      var more := chunks + [rest[..i]];
      && |next| < |rest|
      && more + FixedPending(next, maxLength) == all
      && AllFit(more, maxLength) && NoneEmpty(more)
      && DropNewlines(Concat(more)) + DropNewlines(next) == DropNewlines(text)
  {
    var i := FixedCutIndex(rest, maxLength);
    ChunkStep(chunks, rest, i, text);
    AppendChunk(chunks, rest[..i], maxLength);
    FixedChunksRound(chunks, rest, maxLength, all);
  }

  lemma FixedChunksLast(chunks: seq<string>, rest: string, maxLength: int, all: seq<string>, text: string)
    requires 0 < |rest| <= maxLength
    requires chunks + FixedPending(rest, maxLength) == all
    requires AllFit(chunks, maxLength) && NoneEmpty(chunks)
    requires DropNewlines(Concat(chunks)) + DropNewlines(rest) == DropNewlines(text)
    ensures chunks + [rest] == all && AllFit(chunks + [rest], maxLength) && NoneEmpty(chunks + [rest])
    ensures DropNewlines(Concat(chunks + [rest])) == DropNewlines(text)
  {
    LastChunk(chunks, rest, text);
    AppendChunk(chunks, rest, maxLength);
  }

  /** split_message with the corrected cut: stops for every text, and no chunk
      of a non-empty text is empty. */
  method SplitMessageFixed(text: string, maxLength: int) returns (chunks: seq<string>)
    requires maxLength >= 1
    ensures chunks == FixedChunks(text, maxLength)
    ensures |text| <= maxLength ==> chunks == [text]
    ensures AllFit(chunks, maxLength)
    ensures text != [] ==> NoneEmpty(chunks)
    ensures DropNewlines(Concat(chunks)) == DropNewlines(text)
  {
    if |text| <= maxLength {
      SingleChunk(text);
      return [text];
    }
    ghost var all := FixedChunks(text, maxLength);
    chunks := [];
    var rest := text;
    while rest != []
      invariant chunks + FixedPending(rest, maxLength) == all
      invariant AllFit(chunks, maxLength) && NoneEmpty(chunks)
      invariant DropNewlines(Concat(chunks)) + DropNewlines(rest) == DropNewlines(text)
      decreases |rest|
    {
      if |rest| <= maxLength {
        FixedChunksLast(chunks, rest, maxLength, all, text);
        chunks := chunks + [rest];
        rest := [];
        break;
      }
      var i := FixedCutIndex(rest, maxLength);
      var next := LStripNewlines(rest[i..]);
      FixedRound(chunks, rest, maxLength, all, text);
      chunks := chunks + [rest[..i]];
      rest := next;
    }
  }
}
