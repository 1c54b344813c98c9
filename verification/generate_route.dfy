/**
 * `POST /api/generate`: checks the prompt, fills in the image parameters that
 * the body leaves out, forwards one chat-completions request to the provider,
 * and digs the image URL out of the reply with three probes tried in order.
 */
module GenerateRoute {
  import opened Wrappers
  import opened JsText
  import opened ProviderApi
  import ImageUrlPattern

  /**
   * A numeric body field after destructuring: missing (`undefined`, where the
   * destructuring default applies), `null` (kept, since defaults only replace
   * `undefined`), or a number.
   */
  datatype NumberField = Undefined | Null | Number(value: real)

  /** The decoded request body; `prompt` and `systemPrompt` are whatever JSON values it holds. */
  datatype RequestBody = RequestBody(
    prompt: JsValue,
    systemPrompt: JsValue,
    width: NumberField,
    height: NumberField,
    guidanceScale: NumberField,
    numInferenceSteps: NumberField)

  /** The `image_generation` block of the outbound request, also echoed as `parameters`. */
  datatype ImageGeneration = ImageGeneration(
    width: NumberField,
    height: NumberField,
    guidanceScale: NumberField,
    numInferenceSteps: NumberField)

  datatype UpstreamPayload = UpstreamPayload(
    model: string,
    messages: seq<ChatMessage>,
    maxTokens: nat,
    temperature: real,
    stream: bool,
    imageGeneration: ImageGeneration)

  /** What accompanies an error reply: nothing, the provider's text, the provider's decoded reply, or an exception's message. */
  datatype ErrorDetails = NoDetails | Text(text: string) | Echo(data: CompletionData) | ExceptionMessage

  /** The route's JSON reply: the success record (status 200), or an error with its status. */
  datatype RouteResponse =
    | Generated(imageUrl: JsValue, prompt: JsValue, systemPrompt: JsValue, parameters: ImageGeneration, timestamp: string)
    | ErrorReply(status: nat, error: string, details: ErrorDetails)

  const InternalError: RouteResponse := ErrorReply(500, "Internal server error", ExceptionMessage)

  /** The destructuring default `= d`: it replaces a missing field and nothing else. */
  function OrDefault(f: NumberField, d: real): (r: NumberField)
    ensures !r.Undefined?
    ensures !f.Undefined? ==> r == f
  {
    if f.Undefined? then Number(d) else f
  }

  /** The parameters after destructuring with the defaults 1024, 1024, 7.5 and 50. */
  function Parameters(body: RequestBody): (p: ImageGeneration)
    ensures !p.width.Undefined? && !p.height.Undefined?
    ensures !p.guidanceScale.Undefined? && !p.numInferenceSteps.Undefined?
  {
    ImageGeneration(
      OrDefault(body.width, 1024.0),
      OrDefault(body.height, 1024.0),
      OrDefault(body.guidanceScale, 7.5),
      OrDefault(body.numInferenceSteps, 50.0))
  }

  /** Defaults fill only the fields the body leaves out; every supplied value, 0 and `null` included, is kept. */
  lemma ParametersKeepSuppliedValues(body: RequestBody)
    ensures body.width.Undefined? ==> Parameters(body).width == Number(1024.0)
    ensures body.height.Undefined? ==> Parameters(body).height == Number(1024.0)
    ensures body.guidanceScale.Undefined? ==> Parameters(body).guidanceScale == Number(7.5)
    ensures body.numInferenceSteps.Undefined? ==> Parameters(body).numInferenceSteps == Number(50.0)
    ensures !body.width.Undefined? ==> Parameters(body).width == body.width
    ensures !body.height.Undefined? ==> Parameters(body).height == body.height
    ensures !body.guidanceScale.Undefined? ==> Parameters(body).guidanceScale == body.guidanceScale
    ensures !body.numInferenceSteps.Undefined? ==> Parameters(body).numInferenceSteps == body.numInferenceSteps
  {
  }

  /** The request sent to the provider for a body whose prompt is `prompt`. */
  function Payload(prompt: JsValue, body: RequestBody): (r: UpstreamPayload)
    ensures r.model == Model && !r.stream
    ensures r.maxTokens == 1000 && r.temperature == 0.7
    ensures r.messages == [ChatMessage("system", SystemMessage(body.systemPrompt)), ChatMessage("user", prompt)]
    ensures r.imageGeneration == Parameters(body)
  {
    UpstreamPayload(
      Model,
      [ChatMessage("system", SystemMessage(body.systemPrompt)), ChatMessage("user", prompt)],
      1000, 0.7, false,
      Parameters(body))
  }

  /** The outcome of looking for the image URL: found, found nothing, or threw a `TypeError`. */
  datatype Probe = Found(url: JsValue) | NotFound | Threw

  /**
   * The first probe: the regular expression over `choices[0].message.content`,
   * when there is a first choice with a message. A content that is missing
   * or not a string has no `.match`, so the call throws.
   */
  function ContentProbe(data: CompletionData): (r: Probe)
    ensures r.Found? ==> r.url.Str? && ImageUrlPattern.IsImageUrl(r.url.s)
    ensures r.Found? ==>
      && |data.choices| > 0 && data.choices[0].message.Some? && data.choices[0].message.value.content.Str?
      && exists a :: ImageUrlPattern.OccursAt(data.choices[0].message.value.content.s, a, r.url.s)
    ensures r.Threw? <==> |data.choices| > 0 && data.choices[0].message.Some? && !data.choices[0].message.value.content.Str?
  {
    if |data.choices| > 0 && data.choices[0].message.Some? then
      var content := data.choices[0].message.value.content;
      if !content.Str? then Threw
      else
        match ImageUrlPattern.FirstImageUrl(content.s)
        case Some(u) => Found(Str(u))
        case None => NotFound
    else NotFound
  }

  /** The second probe: a truthy top-level `image_url`, of whatever type, is taken as it is. */
  function TopLevelProbe(data: CompletionData): (r: Probe)
    ensures !r.Threw?
    ensures r.Found? <==> data.imageUrl.IsTruthy()
    ensures r.Found? ==> r.url == data.imageUrl
  {
    if data.imageUrl.IsTruthy() then Found(data.imageUrl) else NotFound
  }

  /** The third probe: a truthy `choices[0].image_url`, of whatever type, is taken as it is. */
  function ChoiceProbe(data: CompletionData): (r: Probe)
    ensures !r.Threw?
    ensures r.Found? <==> |data.choices| > 0 && data.choices[0].imageUrl.IsTruthy()
    ensures r.Found? ==> r.url == data.choices[0].imageUrl
  {
    if |data.choices| > 0 && data.choices[0].imageUrl.IsTruthy() then Found(data.choices[0].imageUrl) else NotFound
  }

  /** The outcome of the first probe that does not come back empty-handed. */
  function FirstDecisive(probes: seq<Probe>): (r: Probe)
    ensures r == NotFound <==> forall i | 0 <= i < |probes| :: probes[i] == NotFound
    ensures forall i | 0 <= i < |probes| && probes[i] != NotFound ::
      (forall j | 0 <= j < i :: probes[j] == NotFound) ==> r == probes[i]
  {
    if probes == [] then NotFound
    else if probes[0] != NotFound then probes[0]
    else
      assert forall i | 1 <= i < |probes| :: probes[i] == probes[1..][i - 1];
      FirstDecisive(probes[1..])
  }

  /** The image URL the route settles on: content match, then top-level `image_url`, then `choices[0].image_url`. */
  function ProbeImageUrl(data: CompletionData): (r: Probe)
    ensures r.Found? ==> r.url.IsTruthy()
  {
    FirstDecisive([ContentProbe(data), TopLevelProbe(data), ChoiceProbe(data)])
  }

  /** The probe order: a later probe decides only when every earlier one found nothing. */
  lemma ProbeOrder(data: CompletionData)
    ensures ContentProbe(data) != NotFound ==> ProbeImageUrl(data) == ContentProbe(data)
    ensures ContentProbe(data) == NotFound && TopLevelProbe(data).Found? ==> ProbeImageUrl(data) == TopLevelProbe(data)
    ensures ContentProbe(data) == NotFound && TopLevelProbe(data) == NotFound ==> ProbeImageUrl(data) == ChoiceProbe(data)
  {
    var probes := [ContentProbe(data), TopLevelProbe(data), ChoiceProbe(data)];
    assert probes[0] == ContentProbe(data) && probes[1] == TopLevelProbe(data) && probes[2] == ChoiceProbe(data);
  }

  /**
   * The probing of lines 58-76, step by step on the local `imageUrl`: each
   * later check runs only while nothing truthy has been found.
   */
  method ExtractImageUrl(data: CompletionData) returns (r: Probe)
    ensures r == ProbeImageUrl(data)
  {
    ProbeOrder(data);
    var imageUrl: JsValue := Missing;
    if |data.choices| > 0 && data.choices[0].message.Some? {
      var content := data.choices[0].message.value.content;
      if !content.Str? {
        return Threw;
      }
      var urlMatch := ImageUrlPattern.FirstImageUrl(content.s);
      if urlMatch.Some? {
        imageUrl := Str(urlMatch.value);
      }
    }
    if !imageUrl.IsTruthy() && data.imageUrl.IsTruthy() {
      imageUrl := data.imageUrl;
    }
    if !imageUrl.IsTruthy() && |data.choices| > 0 && data.choices[0].imageUrl.IsTruthy() {
      imageUrl := data.choices[0].imageUrl;
    }
    if !imageUrl.IsTruthy() {
      return NotFound;
    }
    return Found(imageUrl);
  }

  /**
   * The handler. `request` is the decoded body (`None` when it is not JSON),
   * `upstream` what the provider call settles to, and `now` the ISO time of the
   * reply. `sent` is the request forwarded to the provider, if one was.
   */
  method Post(request: Option<RequestBody>, upstream: FetchOutcome, now: string)
    returns (response: RouteResponse, sent: Option<UpstreamPayload>)
    ensures request.None? ==> response == InternalError
    ensures request.Some? && !request.value.prompt.IsTruthy() ==> response == ErrorReply(400, "Prompt is required", NoDetails)
    ensures sent.Some? <==> request.Some? && request.value.prompt.IsTruthy()
    ensures sent.Some? ==> sent.value == Payload(request.value.prompt, request.value)
    ensures sent.Some? && upstream.NetworkFailure? ==> response == InternalError
    ensures sent.Some? && upstream.Delivered? && !upstream.reply.ok ==>
      response == ErrorReply(upstream.reply.status, "Failed to generate image", Text(upstream.reply.bodyText))
    ensures sent.Some? && upstream.Delivered? && upstream.reply.ok && upstream.reply.body.None? ==> response == InternalError
    ensures sent.Some? && upstream.Delivered? && upstream.reply.ok && upstream.reply.body.Some? ==>
      match ProbeImageUrl(upstream.reply.body.value)
      case Threw => response == InternalError
      case NotFound => response == ErrorReply(500, "No image URL found in response", Echo(upstream.reply.body.value))
      case Found(u) => response == Generated(u, request.value.prompt, request.value.systemPrompt, Parameters(request.value), now)
    ensures response.Generated? ==>
      && sent.Some? && upstream.Delivered? && upstream.reply.ok
      && response.imageUrl.IsTruthy()
      && response.prompt == request.value.prompt
      && response.parameters == sent.value.imageGeneration
  {
    sent := None;
    if request.None? {
      return InternalError, sent;
    }
    var body := request.value;
    if !body.prompt.IsTruthy() {
      return ErrorReply(400, "Prompt is required", NoDetails), sent;
    }
    var prompt := body.prompt;
    var parameters := Parameters(body);
    sent := Some(Payload(prompt, body));
    if upstream.NetworkFailure? {
      return InternalError, sent;
    }
    var reply := upstream.reply;
    if !reply.ok {
      return ErrorReply(reply.status, "Failed to generate image", Text(reply.bodyText)), sent;
    }
    if reply.body.None? {
      return InternalError, sent;
    }
    var probe := ExtractImageUrl(reply.body.value);
    match probe
    case Threw =>
      response := InternalError;
    case NotFound =>
      response := ErrorReply(500, "No image URL found in response", Echo(reply.body.value));
    case Found(u) =>
      response := Generated(u, prompt, body.systemPrompt, parameters, now);
  }

  /** A message whose first choice carries one URL of the pattern, set off by white space and preceded by no other, yields exactly that URL. */
  lemma EmbeddedUrlExtracted(data: CompletionData, pre: string, u: string, post: string)
    requires |data.choices| > 0 && data.choices[0].message == Some(Message(Str(pre + (u + post))))
    requires ImageUrlPattern.IsImageUrl(u)
    requires pre == [] || IsWhitespace(pre[|pre| - 1])
    requires post == [] || IsWhitespace(post[0])
    requires forall a, b | 0 <= a <= b <= |pre| :: !ImageUrlPattern.IsImageUrl(pre[a..b])
    ensures ProbeImageUrl(data) == Found(Str(u))
  {
    ImageUrlPattern.FirstImageUrlIsolated(pre, u, post);
  }
}
