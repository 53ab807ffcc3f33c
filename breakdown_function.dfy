/**
 * The edge function that asks the language model for a project breakdown
 * (supabase/functions/generate-breakdown/index.ts). Every failure is thrown and
 * turned into a 500 by one outer catch; the model's answer is passed through
 * unchanged once its `features` is an array.
 */
module BreakdownFunction {
  import opened Wrappers
  import opened ProjectTypes
  import opened Json
  import opened Http
  import opened ProjectJson

  const MissingKeyMessage: string := "OpenAI API key is not configured"
  const InvalidDescriptionMessage: string := "Invalid project description"
  const GenerationFailedMessage: string := "Failed to generate project breakdown"
  const InvalidFormatMessage: string := "Invalid response format from AI"

  /**
   * What the model call produced: the call threw, or it answered with the `ok` flag
   * and the body `await response.json()` yields (`None` when that read throws).
   */
  datatype ModelReply = CallFailed | Replied(ok: bool, body: Option<Json>)

  /** How the body of the outer `try` ends: with a breakdown, or with a thrown message. */
  datatype Outcome = Accepted(breakdown: Json) | Failed(message: string)

  /** `!description || typeof description !== 'string'` is false. */
  predicate ValidDescription(description: Option<Json>) {
    description.Some? && description.value.JString? && description.value.s != ""
  }

  /** The breakdown the inner check accepts: its `features` is an array. */
  predicate HasFeatureArray(breakdown: Json) {
    breakdown.JObject? && "features" in breakdown.fields && breakdown.fields["features"].JArray?
  }

  /** `data.choices[0].message.content`, which throws when a link of the chain is null or undefined. */
  function ContentOf(data: Json): Eval<Option<Json>> {
    match GetProp(Some(data), "choices")
    case Threw => Threw
    case Ok(choices) =>
      match GetIndex(choices, 0)
      case Threw => Threw
      case Ok(first) =>
        match GetProp(first, "message")
        case Threw => Threw
        case Ok(message) => GetProp(message, "content")
  }

  /**
   * The inner `try`: parse the content and check `features`; any failure there,
   * including a thrown read, becomes the invalid-format message. `parse` is
   * `JSON.parse` applied to the content (after its conversion to a string), `None`
   * when it throws.
   */
  function CheckBreakdown(data: Json, parse: Option<Json> -> Option<Json>): (outcome: Outcome)
    ensures outcome.Accepted? <==>
      ContentOf(data).Ok? && parse(ContentOf(data).value).Some? && HasFeatureArray(parse(ContentOf(data).value).value)
    ensures outcome.Accepted? ==> outcome.breakdown == parse(ContentOf(data).value).value
    ensures outcome.Failed? ==> outcome.message == InvalidFormatMessage
  {
    match ContentOf(data)
    case Threw => Failed(InvalidFormatMessage)
    case Ok(content) =>
      match parse(content)
      case None => Failed(InvalidFormatMessage)
      case Some(breakdown) =>
        match GetProp(Some(breakdown), "features")
        case Threw => Failed(InvalidFormatMessage)
        case Ok(features) =>
          if !Truthy(features) || !features.value.JArray? then Failed(InvalidFormatMessage)
          else Accepted(breakdown)
  }

  /** The body of the outer `try`; `runtimeMessage` is the message of any exception the runtime raises. */
  function Run(req: Request, apiKey: Option<string>, reply: ModelReply,
               parse: Option<Json> -> Option<Json>, runtimeMessage: string): Outcome
  {
    match GetProp(req.body, "description")
    case Threw => Failed(runtimeMessage)
    case Ok(description) =>
      if !KeyConfigured(apiKey) then Failed(MissingKeyMessage)
      else if !ValidDescription(description) then Failed(InvalidDescriptionMessage)
      else
        match reply
        case CallFailed => Failed(runtimeMessage)
        case Replied(ok, body) =>
          if body.None? then Failed(runtimeMessage)
          else if !ok then Failed(GenerationFailedMessage)
          else CheckBreakdown(body.value, parse)
  }

  /** `error.message || 'Failed to generate project breakdown'`. */
  function ErrorText(message: string): (text: string)
    ensures text != ""
    ensures message != "" ==> text == message
  {
    if message != "" then message else GenerationFailedMessage
  }

  /** The whole handler: the preflight answer, the breakdown with status 200, or a 500. */
  function Handle(req: Request, apiKey: Option<string>, reply: ModelReply,
                  parse: Option<Json> -> Option<Json>, runtimeMessage: string): (response: Response)
    ensures response.status in {200, 500}
    ensures response.status == 500 ==> (response.body.Some? && response.body.value.JObject?
      && "error" in response.body.value.fields && response.body.value.fields["error"].JString?
      && response.body.value.fields["error"].s != "")
    ensures response.status == 200 && req.httpMethod != "OPTIONS" ==>
      response.body.Some? && HasFeatureArray(response.body.value)
  {
    if req.httpMethod == "OPTIONS" then PreflightResponse
    else
      match Run(req, apiKey, reply, parse, runtimeMessage)
      case Accepted(breakdown) => Response(200, Some(breakdown))
      case Failed(message) => ErrorResponse(500, ErrorText(message))
  }

  // ---------------------------------------------------------------------------
  // Properties of the handler

  /** The reply shape of a completion: `choices[0].message.content` reads back the content. */
  lemma ContentOfCompletion(extra: map<string, Json>, content: Json)
    ensures var message := JObject(map["role" := JString("assistant"), "content" := content]);
      ContentOf(JObject(extra["choices" := JArray([JObject(map["message" := message])])])) == Ok(Some(content))
  {
  }

  /** The key is checked before the description: without it the description is never looked at. */
  lemma MissingKeyAnswer(req: Request, apiKey: Option<string>, reply: ModelReply,
                         parse: Option<Json> -> Option<Json>, runtimeMessage: string)
    requires req.httpMethod != "OPTIONS" && BodyReadable(req)
    requires !KeyConfigured(apiKey)
    ensures Handle(req, apiKey, reply, parse, runtimeMessage) == ErrorResponse(500, MissingKeyMessage)
  {
  }

  /** With the key set, a missing, empty or non-string description is a 500 before any model call. */
  lemma InvalidDescriptionAnswer(req: Request, apiKey: Option<string>, reply: ModelReply,
                                 parse: Option<Json> -> Option<Json>, runtimeMessage: string)
    requires req.httpMethod != "OPTIONS" && BodyReadable(req) && KeyConfigured(apiKey)
    requires !ValidDescription(BodyField(req, "description"))
    ensures Handle(req, apiKey, reply, parse, runtimeMessage) == ErrorResponse(500, InvalidDescriptionMessage)
  {
  }

  /**
   * Once it passes the check, the description's text does not influence the answer:
   * the answer depends only on what the model returned.
   */
  lemma DescriptionOnlyGates(req1: Request, req2: Request, apiKey: Option<string>, reply: ModelReply,
                             parse: Option<Json> -> Option<Json>, runtimeMessage: string)
    requires req1.httpMethod == req2.httpMethod
    requires BodyReadable(req1) && BodyReadable(req2)
    requires ValidDescription(BodyField(req1, "description")) && ValidDescription(BodyField(req2, "description"))
    ensures Handle(req1, apiKey, reply, parse, runtimeMessage) == Handle(req2, apiKey, reply, parse, runtimeMessage)
  {
  }

  /** A model call that answers with a non-ok status gives the generic failure message. */
  lemma RejectedCallAnswer(req: Request, apiKey: Option<string>, errorBody: Json,
                           parse: Option<Json> -> Option<Json>, runtimeMessage: string)
    requires req.httpMethod != "OPTIONS" && BodyReadable(req) && KeyConfigured(apiKey)
    requires ValidDescription(BodyField(req, "description"))
    ensures Handle(req, apiKey, Replied(false, Some(errorBody)), parse, runtimeMessage)
         == ErrorResponse(500, GenerationFailedMessage)
  {
  }

  /**
   * Status 200 for a non-preflight request is given exactly when every check passes
   * and the parsed content has a `features` array; the body is then that parsed
   * content, unchanged.
   */
  lemma AcceptedExactly(req: Request, apiKey: Option<string>, reply: ModelReply,
                        parse: Option<Json> -> Option<Json>, runtimeMessage: string)
    requires req.httpMethod != "OPTIONS"
    ensures Handle(req, apiKey, reply, parse, runtimeMessage).status == 200 <==>
      BodyReadable(req) && KeyConfigured(apiKey) && ValidDescription(BodyField(req, "description"))
      && reply.Replied? && reply.ok && reply.body.Some?
      && ContentOf(reply.body.value).Ok? && parse(ContentOf(reply.body.value).value).Some?
      && HasFeatureArray(parse(ContentOf(reply.body.value).value).value)
    ensures Handle(req, apiKey, reply, parse, runtimeMessage).status == 200 ==>
      Handle(req, apiKey, reply, parse, runtimeMessage).body == parse(ContentOf(reply.body.value).value)
  {
  }

  /**
   * A reply whose content cannot be read, or does not parse to an object with a
   * `features` array, gives the format error.
   */
  lemma MalformedContentAnswer(req: Request, apiKey: Option<string>, data: Json,
                               parse: Option<Json> -> Option<Json>, runtimeMessage: string)
    requires req.httpMethod != "OPTIONS" && BodyReadable(req) && KeyConfigured(apiKey)
    requires ValidDescription(BodyField(req, "description"))
    requires ContentOf(data).Threw? || parse(ContentOf(data).value).None?
             || !HasFeatureArray(parse(ContentOf(data).value).value)
    ensures Handle(req, apiKey, Replied(true, Some(data)), parse, runtimeMessage)
         == ErrorResponse(500, InvalidFormatMessage)
  {
  }

  /** An exception without a message is answered with the generic failure message. */
  lemma EmptyMessageFallback(req: Request, apiKey: Option<string>, parse: Option<Json> -> Option<Json>)
    requires req.httpMethod != "OPTIONS" && BodyReadable(req) && KeyConfigured(apiKey)
    requires ValidDescription(BodyField(req, "description"))
    ensures Handle(req, apiKey, CallFailed, parse, "") == ErrorResponse(500, GenerationFailedMessage)
  {
  }

  /** A breakdown of the app's own shape, returned by the model, is passed on unchanged. */
  lemma BreakdownPassedThrough(req: Request, apiKey: Option<string>, data: Json, content: Json, breakdown: Breakdown,
                               parse: Option<Json> -> Option<Json>, runtimeMessage: string)
    requires req.httpMethod != "OPTIONS" && BodyReadable(req) && KeyConfigured(apiKey)
    requires ValidDescription(BodyField(req, "description"))
    requires ContentOf(data) == Ok(Some(content))
    requires parse(Some(content)) == Some(EncodeBreakdown(breakdown))
    ensures Handle(req, apiKey, Replied(true, Some(data)), parse, runtimeMessage)
         == Response(200, Some(EncodeBreakdown(breakdown)))
  {
  }

  /**
   * `technicalComponents` is not checked: an answer holding only an empty `features`
   * array is accepted, although the app's `Breakdown` type requires the components.
   */
  lemma ComponentsNotChecked(req: Request, apiKey: Option<string>, data: Json, content: Json,
                             parse: Option<Json> -> Option<Json>, runtimeMessage: string)
    requires req.httpMethod != "OPTIONS" && BodyReadable(req) && KeyConfigured(apiKey)
    requires ValidDescription(BodyField(req, "description"))
    requires ContentOf(data) == Ok(Some(content))
    requires parse(Some(content)) == Some(JObject(map["features" := JArray([])]))
    ensures var response := Handle(req, apiKey, Replied(true, Some(data)), parse, runtimeMessage);
      response.status == 200 && "technicalComponents" !in response.body.value.fields
  {
  }
}
