/**
 * The Twitter marketing agent's four capabilities, reduced to the logic that
 * decides which text they return. Each integration call is a parameter
 * `call` from the request it is given to how it settles; the double
 * `JSON.parse` of a response message is the parameter `decode`.
 */
module TwitterAgent {
  import opened Wrappers
  import opened Js
  import opened Text

  /** The invocation's `action`; only its workspace id is read. */
  datatype Action = Action(workspaceId: int)

  /** What a capability passes to `callIntegration`: `verb` is the HTTP method, `text` the posted tweet's `data.text`. */
  datatype IntegrationRequest = IntegrationRequest(
    workspaceId: int, integrationId: string, endpoint: string, verb: string, text: Option<string>)

  /** The parts of a tweet-posting response that are read: `output.message` and `output.data.text`. */
  datatype TweetResponse = TweetResponse(message: Option<string>, text: string)

  /**
   * The properties read from a decoded error envelope. A decoded string,
   * number or boolean has none of them, which is the record of three
   * `Undefined` values.
   */
  datatype ErrorRecord = ErrorRecord(status: Value, detail: Value, message: Value)

  /** An object with string-valued properties in insertion order: the argument given to `JSON.stringify`. */
  datatype JsonRecord = JsonRecord(fields: seq<(string, string)>)

  datatype Format = Markdown | PlainText

  const INTEGRATION_ID := "twitter-v2"

  /** The TypeError message of `action!.workspace.id` when the invocation carries no action. */
  const MISSING_ACTION_ERROR := "Cannot read properties of undefined (reading 'workspace')"

  const ACCOUNT_ERROR :=
    "Error: Unable to access Twitter account. Please check your Twitter integration permissions."
  const PERMISSIONS_GRANTED :=
    "Twitter integration is properly configured with necessary permissions."
  const PERMISSIONS_MISSING :=
    "Twitter integration is missing required permissions. Please check your OpenServ Twitter integration settings."
  const FORBIDDEN_PREFIX := "Twitter API Error: "
  const FORBIDDEN_SUFFIX := ". This is likely due to Twitter's API restrictions. The tweet was not posted."
  const FORBIDDEN_THROWN := FORBIDDEN_PREFIX + "You are not permitted to perform this action" + FORBIDDEN_SUFFIX
  const SEND_FAILED_PREFIX :=
    "Error: " + "Unable to send tweet. Please check your Twitter integration permissions. Details: "
  const DEFAULT_TITLE := "Summary Document"

  /** Calls the Twitter integration for the invocation's workspace, or throws when there is no action. */
  function CallForWorkspace<T>(action: Option<Action>, endpoint: string, verb: string, text: Option<string>,
                               call: IntegrationRequest -> Outcome<T>): Outcome<T>
  {
    match action
    case None => Threw(Some(MISSING_ACTION_ERROR))
    case Some(a) => call(IntegrationRequest(a.workspaceId, INTEGRATION_ID, endpoint, verb, text))
  }

  /**
   * How the `GET /2/users/me` call of `getTwitterAccount` and
   * `checkTwitterPermissions` settles, with the `output.data.username` read
   * applied: `None` when the response carries no username.
   */
  function AccountOutcome(action: Option<Action>, call: IntegrationRequest -> Outcome<Option<string>>): Outcome<Option<string>> {
    CallForWorkspace(action, "/2/users/me", "GET", None, call)
  }

  /**
   * `getTwitterAccount`: the account's username (`undefined` when the
   * response has none), or a fixed explanation when the lookup fails.
   */
  function GetTwitterAccount(action: Option<Action>, call: IntegrationRequest -> Outcome<Option<string>>): (r: Value)
    ensures action.None? ==> r == Str(ACCOUNT_ERROR)
    ensures action.Some? && call(IntegrationRequest(action.value.workspaceId, INTEGRATION_ID, "/2/users/me", "GET", None)).Returned?
      ==> r == OptionalValue(call(IntegrationRequest(action.value.workspaceId, INTEGRATION_ID, "/2/users/me", "GET", None)).value)
    ensures AccountOutcome(action, call).Threw? ==> r == Str(ACCOUNT_ERROR)
    ensures AccountOutcome(action, call) == Returned(None) ==> r == Undefined
  {
    match AccountOutcome(action, call)
    case Returned(username) => OptionalValue(username)
    case Threw(_) => Str(ACCOUNT_ERROR)
  }

  /** The value of the first property named `key`, if any. */
  function Field(fields: seq<(string, string)>, key: string): Option<string> {
    if |fields| == 0 then None
    else if fields[0].0 == key then Some(fields[0].1)
    else Field(fields[1..], key)
  }

  /**
   * `checkTwitterPermissions`: the record it serialises. It reports success
   * with the username exactly when the account lookup returns, and otherwise
   * an error carrying the thrown message or "Unknown error". A username that
   * is `undefined` is left out, as `JSON.stringify` leaves it out.
   */
  function CheckTwitterPermissions(action: Option<Action>, call: IntegrationRequest -> Outcome<Option<string>>): (r: JsonRecord)
    ensures 2 <= |r.fields| <= 3 && r.fields[0].0 == "status" && r.fields[1].0 == "message"
    ensures |r.fields| == 2 <==> AccountOutcome(action, call) == Returned(None)
    ensures AccountOutcome(action, call).Returned? ==>
      && Field(r.fields, "status") == Some("success")
      && Field(r.fields, "message") == Some(PERMISSIONS_GRANTED)
      && Field(r.fields, "username") == AccountOutcome(action, call).value
      && Field(r.fields, "error") == None
    ensures AccountOutcome(action, call).Threw? ==>
      && Field(r.fields, "status") == Some("error")
      && Field(r.fields, "message") == Some(PERMISSIONS_MISSING)
      && Field(r.fields, "error") == Some(OrDefault(AccountOutcome(action, call).message, "Unknown error"))
      && Field(r.fields, "username") == None
  {
    match AccountOutcome(action, call)
    case Returned(None) =>
      var fields := [("status", "success"), ("message", PERMISSIONS_GRANTED)];
      FieldOfTwo(fields, "username");
      FieldOfTwo(fields, "error");
      JsonRecord(fields)
    case Returned(Some(username)) =>
      var fields := [("status", "success"), ("message", PERMISSIONS_GRANTED), ("username", username)];
      FieldOfThree(fields, "username");
      FieldOfThree(fields, "error");
      JsonRecord(fields)
    case Threw(message) =>
      var fields := [("status", "error"), ("message", PERMISSIONS_MISSING), ("error", OrDefault(message, "Unknown error"))];
      FieldOfThree(fields, "username");
      FieldOfThree(fields, "error");
      JsonRecord(fields)
  }

  lemma FieldOfTwo(fields: seq<(string, string)>, key: string)
    requires |fields| == 2
    ensures Field(fields, key) ==
      if fields[0].0 == key then Some(fields[0].1)
      else if fields[1].0 == key then Some(fields[1].1)
      else None
  {
    var rest := fields[1..];
    assert Field(fields, key) == if fields[0].0 == key then Some(fields[0].1) else Field(rest, key);
    assert Field(rest, key) == if rest[0].0 == key then Some(rest[0].1) else Field(rest[1..], key);
    assert rest[1..] == [];
  }

  lemma FieldOfThree(fields: seq<(string, string)>, key: string)
    requires |fields| == 3
    ensures Field(fields, key) ==
      if fields[0].0 == key then Some(fields[0].1)
      else if fields[1].0 == key then Some(fields[1].1)
      else if fields[2].0 == key then Some(fields[2].1)
      else None
  {
    var rest := fields[1..];
    assert Field(fields, key) == if fields[0].0 == key then Some(fields[0].1) else Field(rest, key);
    assert Field(rest, key) == if rest[0].0 == key then Some(rest[0].1) else Field(rest[1..], key);
    assert Field(rest[1..], key) == if rest[1].0 == key then Some(rest[1].1) else Field(rest[1..][1..], key);
    assert rest[1..][1..] == [];
  }

  /** The tweet text actually posted: the caller's text followed by the bracketed timestamp. */
  function UniqueTweetText(tweetText: string, timestamp: string): (r: string)
    ensures StartsWith(r, tweetText)
    ensures r[|tweetText|..] == " [" + timestamp + "]"
  {
    tweetText + " [" + timestamp + "]"
  }

  /** The error envelope in a response's message, when both `JSON.parse` levels succeed on a present message. */
  function DecodedError(response: TweetResponse, decode: string -> Option<ErrorRecord>): Option<ErrorRecord> {
    match response.message
    case None => None
    case Some(m) => decode(m)
  }

  /** `error.message && error.message.includes(sub)`. */
  predicate MessageIncludes(message: Option<string>, sub: string) {
    message.Some? && message.value != "" && Includes(message.value, sub)
  }

  /**
   * The error normaliser of `sendMarketingTweet`: every way the posting call
   * can settle is turned into the string the capability returns.
   */
  function RenderTweetOutcome(outcome: Outcome<TweetResponse>, decode: string -> Option<ErrorRecord>): (r: string)
    ensures outcome.Threw? && MessageIncludes(outcome.message, "403") ==> r == FORBIDDEN_THROWN
    ensures outcome.Threw? && !MessageIncludes(outcome.message, "403") ==>
      r == SEND_FAILED_PREFIX + OrDefault(outcome.message, "Unknown error")
    ensures outcome.Returned? && DecodedError(outcome.value, decode).None? ==> r == outcome.value.text
    ensures outcome.Returned? && DecodedError(outcome.value, decode).Some? ==>
      var e := DecodedError(outcome.value, decode).value;
      r == if e.status == Num(403)
           then FORBIDDEN_PREFIX + Render(Or(e.detail, e.message)) + FORBIDDEN_SUFFIX
           else "Error " + Render(e.status) + ": " + Render(e.message)
  {
    match outcome
    case Threw(message) =>
      if MessageIncludes(message, "403") then FORBIDDEN_THROWN
      else SEND_FAILED_PREFIX + OrDefault(message, "Unknown error")
    case Returned(response) =>
      match DecodedError(response, decode)
      case None => response.text
      case Some(e) =>
        if e.status == Num(403) then FORBIDDEN_PREFIX + Render(Or(e.detail, e.message)) + FORBIDDEN_SUFFIX
        else "Error " + Render(e.status) + ": " + Render(e.message)
  }

  /** `sendMarketingTweet`: posts the time-stamped text and normalises whatever comes back. */
  function SendMarketingTweet(tweetText: string, timestamp: string, action: Option<Action>,
                              call: IntegrationRequest -> Outcome<TweetResponse>,
                              decode: string -> Option<ErrorRecord>): (r: string)
    ensures action.None? ==> r == RenderTweetOutcome(Threw(Some(MISSING_ACTION_ERROR)), decode)
    ensures action.Some? ==>
      r == RenderTweetOutcome(
        call(IntegrationRequest(action.value.workspaceId, INTEGRATION_ID, "/2/tweets", "POST",
                                Some(UniqueTweetText(tweetText, timestamp)))),
        decode)
  {
    RenderTweetOutcome(
      CallForWorkspace(action, "/2/tweets", "POST", Some(UniqueTweetText(tweetText, timestamp)), call),
      decode)
  }

  /** The shape shared by both Forbidden explanations. */
  predicate IsForbiddenNotice(r: string) {
    StartsWith(r, FORBIDDEN_PREFIX) && EndsWith(r, FORBIDDEN_SUFFIX)
  }

  /** A string starting with "Error" is never mistaken for a Forbidden explanation. */
  lemma GenericErrorIsNotForbidden(r: string)
    requires StartsWith(r, "Error")
    ensures !IsForbiddenNotice(r)
  {
    assert r[0] == 'E' && FORBIDDEN_PREFIX[0] == 'T';
  }

  /**
   * For a thrown error the caller can tell Forbidden from other failures: the
   * result is a Forbidden explanation exactly when the message mentions 403.
   */
  lemma ThrownForbiddenIff(message: Option<string>, decode: string -> Option<ErrorRecord>)
    ensures IsForbiddenNotice(RenderTweetOutcome(Threw(message), decode))
      <==> message.Some? && Includes(message.value, "403")
  {
    var r := RenderTweetOutcome(Threw(message), decode);
    if MessageIncludes(message, "403") {
      assert r == FORBIDDEN_PREFIX + "You are not permitted to perform this action" + FORBIDDEN_SUFFIX;
      assert r[..|FORBIDDEN_PREFIX|] == FORBIDDEN_PREFIX;
      assert r[|r| - |FORBIDDEN_SUFFIX|..] == FORBIDDEN_SUFFIX;
    } else {
      assert message.Some? && message.value == "" ==> !OccursAt(message.value, "403", 0);
      var details := OrDefault(message, "Unknown error");
      assert r == SEND_FAILED_PREFIX + details;
      assert r == "Error: " + ("Unable to send tweet. Please check your Twitter integration permissions. Details: " + details);
      assert r[..5] == "Error";
      GenericErrorIsNotForbidden(r);
    }
  }

  /**
   * For a decoded error envelope the result is a Forbidden explanation
   * exactly when the envelope's status is the number 403.
   */
  lemma DecodedForbiddenIff(response: TweetResponse, decode: string -> Option<ErrorRecord>)
    requires DecodedError(response, decode).Some?
    ensures IsForbiddenNotice(RenderTweetOutcome(Returned(response), decode))
      <==> DecodedError(response, decode).value.status == Num(403)
  {
    var e := DecodedError(response, decode).value;
    var r := RenderTweetOutcome(Returned(response), decode);
    if e.status == Num(403) {
      var d := Render(Or(e.detail, e.message));
      assert r == FORBIDDEN_PREFIX + d + FORBIDDEN_SUFFIX;
      assert r[..|FORBIDDEN_PREFIX|] == FORBIDDEN_PREFIX;
      assert r[|r| - |FORBIDDEN_SUFFIX|..] == FORBIDDEN_SUFFIX;
    } else {
      var tail := Render(e.status) + ": " + Render(e.message);
      assert r == "Error " + tail;
      assert r[..5] == "Error";
      GenericErrorIsNotForbidden(r);
    }
  }

  /** A network error "Request failed with status code 403" yields the fixed Forbidden explanation. */
  lemma ThrownStatusCode403Example(decode: string -> Option<ErrorRecord>)
    ensures RenderTweetOutcome(Threw(Some("Request failed with status code 403")), decode) == FORBIDDEN_THROWN
  {
    assert OccursAt("Request failed with status code 403", "403", 32);
  }

  /**
   * A message that decodes to `{status: 403, detail: 'nope'}` yields the
   * Forbidden explanation quoting the detail. The status itself is not
   * part of the returned text.
   */
  lemma Decoded403Example(text: string, m: string, decode: string -> Option<ErrorRecord>)
    requires decode(m) == Some(ErrorRecord(Num(403), Str("nope"), Undefined))
    ensures RenderTweetOutcome(Returned(TweetResponse(Some(m), text)), decode)
      == FORBIDDEN_PREFIX + "nope" + FORBIDDEN_SUFFIX
    ensures Includes(RenderTweetOutcome(Returned(TweetResponse(Some(m), text)), decode), "nope")
  {
    var e := ErrorRecord(Num(403), Str("nope"), Undefined);
    assert Render(Or(e.detail, e.message)) == "nope";
    var r := RenderTweetOutcome(Returned(TweetResponse(Some(m), text)), decode);
    assert r == FORBIDDEN_PREFIX + "nope" + FORBIDDEN_SUFFIX;
    assert r[19..23] == "nope";
    assert OccursAt(r, "nope", 19);
  }

  /** The format after the schema's default: `markdown` when none is given. */
  function EffectiveFormat(format: Option<Format>): Format {
    format.GetOr(Markdown)
  }

  /** `title || 'Summary Document'`: never empty. */
  function DocumentTitle(title: Option<string>): (t: string)
    ensures t != ""
    ensures title.Some? && title.value != "" ==> t == title.value
    ensures title.None? || title.value == "" ==> t == DEFAULT_TITLE
  {
    OrDefault(title, DEFAULT_TITLE)
  }

  /** `createSummaryDocument`: the title line (a level-one heading in markdown), a blank line, then the content. */
  function CreateSummaryDocument(title: Option<string>, content: string, format: Option<Format>): (r: string)
    ensures EffectiveFormat(format) == Markdown ==> r == "# " + DocumentTitle(title) + "\n\n" + content
    ensures EffectiveFormat(format) == PlainText ==> r == DocumentTitle(title) + "\n\n" + content
  {
    if EffectiveFormat(format) == Markdown then "# " + DocumentTitle(title) + "\n\n" + content
    else DocumentTitle(title) + "\n\n" + content
  }

  /**
   * The document ends with the content after a blank line; it starts with
   * "# " in markdown, and in plain text only when the title itself does.
   */
  lemma SummaryDocumentShape(title: Option<string>, content: string, format: Option<Format>)
    ensures EndsWith(CreateSummaryDocument(title, content, format), "\n\n" + content)
    ensures EffectiveFormat(format) == Markdown ==> StartsWith(CreateSummaryDocument(title, content, format), "# ")
    ensures EffectiveFormat(format) == PlainText ==>
      (StartsWith(CreateSummaryDocument(title, content, format), "# ") <==> StartsWith(DocumentTitle(title), "# "))
  {
    var t := DocumentTitle(title);
    if EffectiveFormat(format) == PlainText {
      var r := CreateSummaryDocument(title, content, format);
      assert r == t + ("\n\n" + content);
      if |t| == 1 {
        assert r[1] == '\n';
      } else {
        assert r[..2] == t[..2];
      }
    }
  }
}
