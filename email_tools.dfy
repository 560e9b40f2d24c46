/** The Gmail helpers that do not touch the network: header lookup, choice
    of the body part and its decoding, and the names the email tools are
    registered under. */
module Email {
  import opened Wrappers
  import opened Text
  import opened Json
  import opened Registry
  import Base64
  import Utf8

  // ---------------------------------------------------------------------------
  // Headers

  /** One entry of payload.headers; a missing key is None. */
  datatype Header = Header(name: Option<string>, value: Option<string>)

  /** h.get("name", "") and h.get("value", ""). */
  function NameOf(h: Header): string { if h.name.Some? then h.name.value else "" }
  function ValueOf(h: Header): string { if h.value.Some? then h.value.value else "" }

  predicate Matches(h: Header, name: string) {
    Lower(NameOf(h)) == Lower(name)
  }

  /** The index of the first header whose name matches, ignoring case. */
  function FirstMatch(headers: seq<Header>, name: string): (r: Option<nat>)
    ensures r.None? <==> forall i :: 0 <= i < |headers| ==> !Matches(headers[i], name)
    ensures r.Some? ==> r.value < |headers| && Matches(headers[r.value], name) &&
                        forall i :: 0 <= i < r.value ==> !Matches(headers[i], name)
  {
    if headers == [] then None
    else if Matches(headers[0], name) then Some(0)
    else
      var rest := FirstMatch(headers[1..], name);
      if rest.None? then None else Some(rest.value + 1)
  }

  /** _get_header: the value of the first matching header, or "". */
  function GetHeader(headers: seq<Header>, name: string): string {
    var i := FirstMatch(headers, name);
    if i.Some? then ValueOf(headers[i.value]) else ""
  }

  /** The result is the first match's value (with "" for a missing value),
      and "" when no header matches. */
  lemma GetHeaderIsFirstMatch(headers: seq<Header>, name: string, k: nat)
    requires k < |headers| && Matches(headers[k], name)
    requires forall i :: 0 <= i < k ==> !Matches(headers[i], name)
    ensures GetHeader(headers, name) == ValueOf(headers[k])
  {
    var i := FirstMatch(headers, name);
    assert i.Some?;
    assert i.value == k;
  }

  lemma GetHeaderAbsent(headers: seq<Header>, name: string)
    requires forall i :: 0 <= i < |headers| ==> !Matches(headers[i], name)
    ensures GetHeader(headers, name) == ""
  {
    assert FirstMatch(headers, name).None?;
  }

  lemma LowerOfUpper(s: string)
    ensures Lower(Upper(s)) == Lower(s)
  {
    assert forall i :: 0 <= i < |s| ==> LowerChar(UpperChar(s[i])) == LowerChar(s[i]);
  }

  /** Asking for "SUBJECT" finds what asking for "Subject" finds. */
  lemma GetHeaderIgnoresCase(headers: seq<Header>, name: string)
    ensures GetHeader(headers, Upper(name)) == GetHeader(headers, name)
    ensures GetHeader(headers, Lower(name)) == GetHeader(headers, name)
  {
    LowerOfUpper(name);
    LowerIdempotent(name);
    assert forall h :: Matches(h, Upper(name)) == Matches(h, name);
    assert forall h :: Matches(h, Lower(name)) == Matches(h, name);
    assert FirstMatch(headers, Upper(name)) == FirstMatch(headers, name) by {
      FirstMatchSameMatches(headers, Upper(name), name);
    }
    assert FirstMatch(headers, Lower(name)) == FirstMatch(headers, name) by {
      FirstMatchSameMatches(headers, Lower(name), name);
    }
  }

  lemma LowerIdempotent(s: string)
    ensures Lower(Lower(s)) == Lower(s)
  {
    assert forall i :: 0 <= i < |s| ==> LowerChar(LowerChar(s[i])) == LowerChar(s[i]);
  }

  lemma {:induction false} FirstMatchSameMatches(headers: seq<Header>, a: string, b: string)
    requires Lower(a) == Lower(b)
    ensures FirstMatch(headers, a) == FirstMatch(headers, b)
  {
    if headers != [] {
      assert Matches(headers[0], a) == Matches(headers[0], b);
      FirstMatchSameMatches(headers[1..], a, b);
    }
  }

  // ---------------------------------------------------------------------------
  // Body

  /** A MIME part with its mimeType and body.data, each possibly missing. */
  datatype Part = Part(mimeType: Option<string>, data: Option<string>)
  datatype Payload = Payload(mimeType: Option<string>, data: Option<string>, parts: seq<Part>)

  const NoBody := "(no body)"

  /** body.data is present and truthy (a non-empty string). */
  predicate HasData(data: Option<string>) {
    data.Some? && data.value != ""
  }

  predicate IsPlain(mimeType: Option<string>) {
    mimeType == Some("text/plain")
  }

  predicate Eligible(p: Part, plainOnly: bool) {
    HasData(p.data) && (plainOnly ==> IsPlain(p.mimeType))
  }

  /** The index of the first part with data (and, if plainOnly, of type text/plain). */
  function FirstPart(parts: seq<Part>, plainOnly: bool): (r: Option<nat>)
    ensures r.None? <==> forall i :: 0 <= i < |parts| ==> !Eligible(parts[i], plainOnly)
    ensures r.Some? ==> r.value < |parts| && Eligible(parts[r.value], plainOnly) &&
                        forall i :: 0 <= i < r.value ==> !Eligible(parts[i], plainOnly)
  {
    if parts == [] then None
    else if Eligible(parts[0], plainOnly) then Some(0)
    else
      var rest := FirstPart(parts[1..], plainOnly);
      if rest.None? then None else Some(rest.value + 1)
  }

  /** The body.data _decode_body decodes, or None for "(no body)". */
  function ChosenData(p: Payload): (r: Option<string>)
    ensures r.Some? ==> r.value != ""
  {
    if IsPlain(p.mimeType) && HasData(p.data) then p.data
    else
      var i := FirstPart(p.parts, true);
      if i.Some? then p.parts[i.value].data
      else
        var j := FirstPart(p.parts, false);
        if j.Some? then p.parts[j.value].data else None
  }

  /** The chosen data is always some body.data that is present and non-empty:
      the top level's when it is text/plain, otherwise a part's. A part
      without data is never chosen. */
  lemma ChosenHasData(p: Payload)
    ensures ChosenData(p).Some? ==>
      (IsPlain(p.mimeType) && ChosenData(p) == p.data) ||
      exists i :: 0 <= i < |p.parts| && HasData(p.parts[i].data) && ChosenData(p) == p.parts[i].data
    ensures ChosenData(p).None? <==>
      !(IsPlain(p.mimeType) && HasData(p.data)) && forall i :: 0 <= i < |p.parts| ==> !HasData(p.parts[i].data)
  {
    if !(IsPlain(p.mimeType) && HasData(p.data)) && FirstPart(p.parts, true).None? {
      var j := FirstPart(p.parts, false);
      if j.None? {
        assert forall i :: 0 <= i < |p.parts| ==> !Eligible(p.parts[i], false);
      }
    }
  }

  /** A text/plain part with data wins over any earlier part of another type. */
  lemma PlainPartPreferred(p: Payload, k: nat)
    requires !(IsPlain(p.mimeType) && HasData(p.data))
    requires k < |p.parts| && HasData(p.parts[k].data) && IsPlain(p.parts[k].mimeType)
    requires forall i :: 0 <= i < k ==> !(HasData(p.parts[i].data) && IsPlain(p.parts[i].mimeType))
    ensures ChosenData(p) == p.parts[k].data
  {
    var i := FirstPart(p.parts, true);
    assert Eligible(p.parts[k], true);
    assert i.Some?;
    assert i.value == k;
  }

  /** With no text/plain data anywhere, the first part with data is used. */
  lemma FirstDataPartFallback(p: Payload, k: nat)
    requires !(IsPlain(p.mimeType) && HasData(p.data))
    requires forall i :: 0 <= i < |p.parts| ==> !(HasData(p.parts[i].data) && IsPlain(p.parts[i].mimeType))
    requires k < |p.parts| && HasData(p.parts[k].data)
    requires forall i :: 0 <= i < k ==> !HasData(p.parts[i].data)
    ensures ChosenData(p) == p.parts[k].data
  {
    assert FirstPart(p.parts, true).None?;
    var j := FirstPart(p.parts, false);
    assert Eligible(p.parts[k], false);
    assert j.value == k;
  }

  /** _decode_body: urlsafe_b64decode of the chosen data, then UTF-8 with
      replacement; "(no body)" when nothing is chosen. A base64 error
      propagates as the exception would. */
  function DecodeBody(p: Payload): (r: Result<string, string>)
    ensures ChosenData(p).None? ==> r == Ok(NoBody)
    ensures r.Err? <==> ChosenData(p).Some? && Base64.Decode(ChosenData(p).value).Err?
    ensures ChosenData(p).Some? && r.Ok? ==> r.value == Utf8.Decode(Base64.Decode(ChosenData(p).value).value)
  {
    var d := ChosenData(p);
    if d.None? then Ok(NoBody)
    else
      var bytes := Base64.Decode(d.value);
      if bytes.Err? then Err(bytes.error) else Ok(Utf8.Decode(bytes.value))
  }

  /** A plain-text message whose body.data is the URL-safe base64 of the
      UTF-8 of some text decodes to that text, whatever its parts hold. */
  lemma PlainBodyRoundTrip(text: string, parts: seq<Part>)
    requires text != ""
    ensures DecodeBody(Payload(Some("text/plain"), Some(Base64.Encode(Utf8.Encode(text))), parts)) == Ok(text)
  {
    var bytes := Utf8.Encode(text);
    assert bytes != [] by {
      assert bytes == Utf8.EncodeChar(text[0]) + Utf8.Encode(text[1..]);
    }
    Base64.RoundTrip(bytes);
    Utf8.RoundTrip(text);
  }

/** Whichever part is chosen, data that is the URL-safe base64 of the
      UTF-8 of some text decodes to that text. */
  lemma ChosenBodyRoundTrip(p: Payload, text: string)
    requires ChosenData(p) == Some(Base64.Encode(Utf8.Encode(text)))
    ensures DecodeBody(p) == Ok(text)
  {
    Base64.RoundTrip(Utf8.Encode(text));
    Utf8.RoundTrip(text);
  }

    // ---------------------------------------------------------------------------
  // Registration

  const EmailToolNames: set<string> := {"email_list_messages", "email_read_message", "email_send_message"}

  function StringProperty(description: string): Json {
    Obj([("type", Str("string")), ("description", Str(description))])
  }

  const ListMessagesSchema: Json := Obj([
    ("type", Str("object")),
    ("properties", Obj([
      ("query", Obj([("type", Str("string")),
                     ("description", Str("Gmail search query (e.g., 'is:unread', 'from:boss@company.com')")),
                     ("default", Str("is:unread"))])),
      ("max_results", Obj([("type", Str("integer")), ("default", Num(10))]))]))])

  const ReadMessageSchema: Json := Obj([
    ("type", Str("object")),
    ("properties", Obj([("message_id", StringProperty("Gmail message ID"))])),
    ("required", Arr([Str("message_id")]))])

  const SendMessageSchema: Json := Obj([
    ("type", Str("object")),
    ("properties", Obj([
      ("to", StringProperty("Recipient email address")),
      ("subject", Obj([("type", Str("string"))])),
      ("body", StringProperty("Email body (plain text)")),
      ("reply_to_message_id", StringProperty("Message ID to reply to (optional)"))])),
    ("required", Arr([Str("to"), Str("subject"), Str("body")]))])

  const ListMessagesEntry := ToolEntry("email_list_messages",
    "List recent emails from the user's inbox.", ListMessagesSchema, "email_list_messages")
  const ReadMessageEntry := ToolEntry("email_read_message",
    "Read the full content of a specific email.", ReadMessageSchema, "email_read_message")
  const SendMessageEntry := ToolEntry("email_send_message",
    "Send an email on behalf of the user. Always confirm with the user before sending.",
    SendMessageSchema, "email_send_message")

  /** The order in which the tools are registered. */
  const EmailToolOrder: seq<string> := [ListMessagesEntry.name, ReadMessageEntry.name, SendMessageEntry.name]

  /** The table after registration, given the table before. */
  function WithEmailTools(before: map<string, ToolEntry>): map<string, ToolEntry> {
    before[ListMessagesEntry.name := ListMessagesEntry][ReadMessageEntry.name := ReadMessageEntry]
      [SendMessageEntry.name := SendMessageEntry]
  }

  /** register_email_tools: the three Gmail tools are registered in this order. */
  method RegisterEmailTools(registry: ToolRegistry)
    requires registry.Valid()
    modifies registry
    ensures registry.Valid()
    ensures registry.tools == WithEmailTools(old(registry.tools))
    ensures registry.order == OrderAfter(old(registry.order), EmailToolOrder)
  {
    ghost var o0 := registry.order;
    registry.Register(ListMessagesEntry.name, ListMessagesEntry.description,
      ListMessagesEntry.inputSchema, ListMessagesEntry.handler);
    ghost var o1 := registry.order;
    registry.Register(ReadMessageEntry.name, ReadMessageEntry.description,
      ReadMessageEntry.inputSchema, ReadMessageEntry.handler);
    ghost var o2 := registry.order;
    registry.Register(SendMessageEntry.name, SendMessageEntry.description,
      SendMessageEntry.inputSchema, SendMessageEntry.handler);
    ghost var o3 := registry.order;
    OrderAfterThree(o0, o1, o2, o3, ListMessagesEntry.name, ReadMessageEntry.name, SendMessageEntry.name);
  }

  /** Registration adds exactly the three email names, each bound to the
      handler of its own name, and leaves every other entry as it was. */
  lemma RegisteredEmailNames(before: map<string, ToolEntry>)
    ensures WithEmailTools(before).Keys == before.Keys + EmailToolNames
    ensures WithEmailTools(before)["email_list_messages"].handler == "email_list_messages"
    ensures WithEmailTools(before)["email_read_message"].handler == "email_read_message"
    ensures WithEmailTools(before)["email_send_message"].handler == "email_send_message"
    ensures forall k :: k in before && k !in EmailToolNames ==> WithEmailTools(before)[k] == before[k]
  {
    assert |"email_list_messages"| == 19 && |"email_read_message"| == 18 && |"email_send_message"| == 18;
    assert "email_read_message"[6] == 'r' && "email_send_message"[6] == 's';
  }
}
