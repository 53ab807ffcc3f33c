/**
 * The edge function that asks the language model for a build prompt
 * (supabase/functions/generate-lovable-prompt/index.ts). The handler is modelled
 * as a function of the request, the configured API key and what the model call
 * returned; the call itself, logging and the CORS headers are outside the model.
 */
module LovablePromptFunction {
  import opened Wrappers
  import opened ProjectTypes
  import opened Json
  import opened Http
  import opened ProjectJson

  const MissingParametersMessage: string := "Project description and breakdown are required"
  const MissingKeyMessage: string := "OpenAI API key not configured. Please set the OPENAI_API_KEY secret."
  const InvalidReplyMessage: string := "Failed to get valid response from OpenAI"
  const CaughtPrefix: string := "Error generating prompt: "

  /** The feature keys forwarded to the model. */
  const ForwardedKeys: set<string> := {"name", "description", "userStories"}

  /**
   * The `breakdown.features.map` callback: `{name, description, userStories}` read
   * from the feature. A null feature throws; keys that are absent stay absent.
   */
  function ProjectFeature(feature: Json): (r: Eval<Json>)
    ensures r.Threw? <==> feature == JNull
    ensures r.Ok? ==> r.value.JObject? && r.value.fields.Keys <= ForwardedKeys
    ensures r.Ok? ==> forall k :: k in r.value.fields ==>
      feature.JObject? && k in feature.fields && r.value.fields[k] == feature.fields[k]
    ensures r.Ok? && feature.JObject? ==> forall k :: k in ForwardedKeys && k in feature.fields ==> k in r.value.fields
  {
    match feature
    case JNull => Threw
    case JObject(fields) => Ok(JObject(map k | k in fields && k in ForwardedKeys :: fields[k]))
    case _ => Ok(JObject(map[]))
  }

  /** `features.map(...)`: throws when some feature is null, otherwise projects each in order. */
  function ProjectFeatures(features: seq<Json>): (r: Eval<seq<Json>>)
    ensures r.Threw? <==> JNull in features
    ensures r.Ok? ==> |r.value| == |features|
    ensures r.Ok? ==> forall i :: 0 <= i < |features| ==> ProjectFeature(features[i]) == Ok(r.value[i])
  {
    if features == [] then Ok([])
    else
      match ProjectFeature(features[0])
      case Threw => Threw
      case Ok(first) =>
        match ProjectFeatures(features[1..])
        case Threw => Threw
        case Ok(rest) => Ok([first] + rest)
  }

  /** The breakdown has a `features` array with no null entry, so the projection succeeds. */
  predicate ProjectableBreakdown(breakdown: Json) {
    breakdown.JObject? && "features" in breakdown.fields && breakdown.fields["features"].JArray?
    && JNull !in breakdown.fields["features"].items
  }

  /** `breakdown.technicalComponents || []`. */
  function ComponentsOrEmpty(breakdown: Json): Json {
    var components := if breakdown.JObject? && "technicalComponents" in breakdown.fields
                      then Some(breakdown.fields["technicalComponents"]) else None;
    if Truthy(components) then components.value else JArray([])
  }

  /** `breakdownData`: the projected features and the technical components, defaulting to `[]`. */
  function BreakdownData(breakdown: Json): (r: Eval<Json>)
    ensures r.Ok? <==> ProjectableBreakdown(breakdown)
    ensures r.Ok? ==> r.value.JObject? && r.value.fields.Keys == {"features", "technicalComponents"}
    ensures r.Ok? ==> r.value.fields["technicalComponents"] == ComponentsOrEmpty(breakdown)
    ensures r.Ok? ==> (r.value.fields["features"].JArray?
      && |r.value.fields["features"].items| == |breakdown.fields["features"].items|)
    ensures r.Ok? ==> forall i :: 0 <= i < |breakdown.fields["features"].items| ==>
      ProjectFeature(breakdown.fields["features"].items[i]) == Ok(r.value.fields["features"].items[i])
  {
    match GetProp(Some(breakdown), "features")
    case Threw => Threw
    case Ok(features) =>
      if features.None? || !features.value.JArray? then Threw
      else
        match ProjectFeatures(features.value.items)
        case Threw => Threw
        case Ok(projected) =>
          var components := GetProp(Some(breakdown), "technicalComponents").value;
          Ok(JObject(map["features" := JArray(projected),
                         "technicalComponents" := if Truthy(components) then components.value else JArray([])]))
  }

  /** Where the handler stands once the request is read and checked. */
  datatype Stage =
    | Answered(response: Response)   // returned before the model is called
    | Thrown                         // an exception reached the outer catch
    | CallModel(breakdownData: Json) // the model is called with this breakdown data

  /** `!projectDescription || !breakdown`. */
  predicate ParametersMissing(req: Request) {
    !Truthy(BodyField(req, "projectDescription")) || !Truthy(BodyField(req, "breakdown"))
  }

  /** The handler up to the model call. */
  function Prepare(req: Request, apiKey: Option<string>): (stage: Stage)
    ensures stage.Answered? ==> stage.response.status in {200, 400, 500}
    ensures stage.CallModel? ==> KeyConfigured(apiKey) && BodyReadable(req) && !ParametersMissing(req)
  {
    if req.httpMethod == "OPTIONS" then Answered(PreflightResponse)
    else
      match GetProp(req.body, "projectDescription")
      case Threw => Thrown
      case Ok(projectDescription) =>
        var breakdown := GetProp(req.body, "breakdown").value;
        if !Truthy(projectDescription) || !Truthy(breakdown) then
          Answered(ErrorResponse(400, MissingParametersMessage))
        else if !KeyConfigured(apiKey) then
          Answered(ErrorResponse(500, MissingKeyMessage))
        else
          match BreakdownData(breakdown.value)
          case Threw => Thrown
          case Ok(data) => CallModel(data)
  }

  /** `{ prompt: content }`; an undefined content is dropped by `JSON.stringify`. */
  function PromptBody(content: Option<Json>): Json {
    JObject(if content.Some? then map["prompt" := content.value] else map[])
  }

  /**
   * A reply object whose `choices` is absent, falsy or an array: the shapes for which
   * the check below is characterised exactly (other shapes are read the JavaScript
   * way by `ReadReply` too).
   */
  predicate ArrayShapedReply(data: Json) {
    data.JObject?
    && ("choices" !in data.fields || !Truthy(Some(data.fields["choices"])) || data.fields["choices"].JArray?)
  }

  /** `choices[0].message` is there: a non-empty `choices` array whose first entry has a truthy `message`. */
  predicate HasFirstMessage(data: Json) {
    data.JObject? && "choices" in data.fields && data.fields["choices"].JArray?
    && |data.fields["choices"].items| > 0
    && data.fields["choices"].items[0].JObject?
    && "message" in data.fields["choices"].items[0].fields
    && Truthy(Some(data.fields["choices"].items[0].fields["message"]))
  }

  /** `choices[0].message.content`, `None` when undefined. */
  function FirstMessageContent(data: Json): Option<Json>
    requires HasFirstMessage(data)
  {
    var message := data.fields["choices"].items[0].fields["message"];
    if message.JObject? && "content" in message.fields then Some(message.fields["content"]) else None
  }

  /**
   * The reply check: without `choices[0].message` the answer is a 500; with it, the
   * message content is returned as the prompt with status 200. Reading `choices` of
   * a null reply throws.
   */
  function ReadReply(data: Json): (r: Eval<Response>)
    ensures r.Threw? <==> data == JNull
    ensures r.Ok? ==> (r.value == ErrorResponse(500, InvalidReplyMessage)
                    || (r.value.status == 200 && r.value.body.Some? && r.value.body.value.JObject?
                        && r.value.body.value.fields.Keys <= {"prompt"}))
    ensures HasFirstMessage(data) ==> r == Ok(Response(200, Some(PromptBody(FirstMessageContent(data)))))
    ensures ArrayShapedReply(data) && !HasFirstMessage(data) ==> r == Ok(ErrorResponse(500, InvalidReplyMessage))
  {
    match GetProp(Some(data), "choices")
    case Threw => Threw
    case Ok(choices) =>
      if !Truthy(choices) then Ok(ErrorResponse(500, InvalidReplyMessage))
      else
        var first := GetIndex(choices, 0).value;
        if !Truthy(first) then Ok(ErrorResponse(500, InvalidReplyMessage))
        else
          var message := GetProp(first, "message").value;
          if !Truthy(message) then Ok(ErrorResponse(500, InvalidReplyMessage))
          else Ok(Response(200, Some(PromptBody(GetProp(message, "content").value))))
  }

  /** The 500 answer of the outer catch for an exception with message `message`. */
  function CaughtResponse(message: string): Response {
    ErrorResponse(500, CaughtPrefix + message)
  }

  /**
   * The whole handler. `reply` is what `await response.json()` yields for the model
   * call (`None` when the call or the read throws); `runtimeMessage` is the message of
   * whatever exception the runtime raises on the way.
   */
  function Handle(req: Request, apiKey: Option<string>, reply: Option<Json>, runtimeMessage: string): (response: Response)
    ensures response.status in {200, 400, 500}
    ensures response.status != 200 ==> (response.body.Some? && response.body.value.JObject?
      && "error" in response.body.value.fields)
  {
    match Prepare(req, apiKey)
    case Answered(response) => response
    case Thrown => CaughtResponse(runtimeMessage)
    case CallModel(_) =>
      match reply
      case None => CaughtResponse(runtimeMessage)
      case Some(data) =>
        match ReadReply(data)
        case Threw => CaughtResponse(runtimeMessage)
        case Ok(response) => response
  }

  // ---------------------------------------------------------------------------
  // Properties of the handler

  /**
   * The 400 answer is given exactly when a readable body lacks a truthy
   * `projectDescription` or `breakdown`, and whatever the key and the model say.
   */
  lemma MissingParametersAnswer(req: Request, apiKey: Option<string>, reply: Option<Json>, runtimeMessage: string)
    requires req.httpMethod != "OPTIONS"
    ensures Handle(req, apiKey, reply, runtimeMessage).status == 400 <==> BodyReadable(req) && ParametersMissing(req)
    ensures BodyReadable(req) && ParametersMissing(req) ==>
      Handle(req, apiKey, reply, runtimeMessage) == ErrorResponse(400, MissingParametersMessage)
  {
  }

  /** The key is checked only after the parameters: its absence is then a 500 with its own message. */
  lemma MissingKeyAnswer(req: Request, apiKey: Option<string>, reply: Option<Json>, runtimeMessage: string)
    requires req.httpMethod != "OPTIONS" && BodyReadable(req) && !ParametersMissing(req)
    requires !KeyConfigured(apiKey)
    ensures Handle(req, apiKey, reply, runtimeMessage) == ErrorResponse(500, MissingKeyMessage)
  {
  }

  /** The model is called exactly when the checks pass and the breakdown can be projected. */
  lemma ModelCalledWhen(req: Request, apiKey: Option<string>)
    ensures Prepare(req, apiKey).CallModel? <==>
      req.httpMethod != "OPTIONS" && BodyReadable(req) && !ParametersMissing(req)
      && KeyConfigured(apiKey) && ProjectableBreakdown(BodyField(req, "breakdown").value)
  {
  }

  /**
   * Any reply with `choices[0].message` (whatever other keys it carries, such as
   * `id` or `usage`) gives status 200 and `{ prompt: choices[0].message.content }`.
   */
  lemma ReplyWithMessage(req: Request, apiKey: Option<string>, data: Json, runtimeMessage: string)
    requires Prepare(req, apiKey).CallModel?
    requires HasFirstMessage(data)
    ensures Handle(req, apiKey, Some(data), runtimeMessage) == Response(200, Some(PromptBody(FirstMessageContent(data))))
  {
  }

  /**
   * For a reply whose `choices` is absent, falsy or an array, status 200 comes exactly
   * when `choices[0].message` is there; otherwise the answer is the invalid-reply 500.
   * This covers a missing `choices`, `choices: []`, a falsy `choices[0]` and a missing
   * or falsy `message`.
   */
  lemma ReplyStatusExactly(req: Request, apiKey: Option<string>, data: Json, runtimeMessage: string)
    requires Prepare(req, apiKey).CallModel?
    requires ArrayShapedReply(data)
    ensures Handle(req, apiKey, Some(data), runtimeMessage).status == 200 <==> HasFirstMessage(data)
    ensures !HasFirstMessage(data) ==>
      Handle(req, apiKey, Some(data), runtimeMessage) == ErrorResponse(500, InvalidReplyMessage)
  {
  }

  /** The full completion shape: the message content becomes the prompt. */
  lemma WellFormedReply(req: Request, apiKey: Option<string>, extra: map<string, Json>, content: Json, runtimeMessage: string)
    requires Prepare(req, apiKey).CallModel?
    ensures var message := JObject(map["role" := JString("assistant"), "content" := content]);
      var choice := JObject(map["index" := JNumber(0), "message" := message, "finish_reason" := JString("stop")]);
      var reply := JObject(extra["choices" := JArray([choice])]);
      Handle(req, apiKey, Some(reply), runtimeMessage) == Response(200, Some(JObject(map["prompt" := content])))
  {
    var message := JObject(map["role" := JString("assistant"), "content" := content]);
    var choice := JObject(map["index" := JNumber(0), "message" := message, "finish_reason" := JString("stop")]);
    var reply := JObject(extra["choices" := JArray([choice])]);
    assert HasFirstMessage(reply);
    ReplyWithMessage(req, apiKey, reply, runtimeMessage);
  }

  /** An empty `choices` array gives the invalid-reply 500. */
  lemma EmptyChoicesAnswer(req: Request, apiKey: Option<string>, fields: map<string, Json>, runtimeMessage: string)
    requires Prepare(req, apiKey).CallModel?
    ensures Handle(req, apiKey, Some(JObject(fields["choices" := JArray([])])), runtimeMessage)
         == ErrorResponse(500, InvalidReplyMessage)
  {
  }

  /** A feature as the app sends it is forwarded as its name, description and stories. */
  lemma ProjectFeatureDropsEstimation(feature: UserStory)
    ensures ProjectFeature(EncodeFeature(feature)) == Ok(EncodeFeature(feature.(estimation := None)))
  {
    var core := FeatureCore(feature);
    var projected := ProjectFeature(EncodeFeature(feature)).value;
    assert core.Keys == ForwardedKeys;
    assert projected.fields.Keys == ForwardedKeys;
    assert projected.fields == core;
  }

  /**
   * The breakdown as the app sends it reaches the model as the same breakdown
   * without estimations; its technical components are forwarded unchanged.
   */
  lemma BreakdownDataOfBreakdown(breakdown: Breakdown)
    ensures BreakdownData(EncodeBreakdown(breakdown)) == Ok(EncodeBreakdown(WithoutEstimations(breakdown)))
  {
    var features := EncodeFeatures(breakdown.features);
    var stripped := WithoutEstimations(breakdown);
    forall i | 0 <= i < |features|
      ensures ProjectFeature(features[i]) == Ok(EncodeFeatures(stripped.features)[i])
    {
      ProjectFeatureDropsEstimation(breakdown.features[i]);
    }
    assert JNull !in features;
    var projected := ProjectFeatures(features).value;
    assert projected == EncodeFeatures(stripped.features);
    var components := JArray(EncodeStrings(breakdown.technicalComponents));
    assert Truthy(Some(components));
  }

  /** Without truthy `technicalComponents` the model receives an empty list instead. */
  lemma ComponentsDefaultToEmpty(breakdown: Json)
    requires ProjectableBreakdown(breakdown)
    requires "technicalComponents" !in breakdown.fields || !Truthy(Some(breakdown.fields["technicalComponents"]))
    ensures BreakdownData(breakdown).value.fields["technicalComponents"] == JArray([])
  {
  }
}
