/**
 * The browser-side `ApiClient`: it builds a chat-completions request with `||`
 * defaults, turns the provider's reply into a generation record, and keeps a
 * history of those records in `localStorage`, newest first and capped at 50.
 */
module ApiClient {
  import opened Wrappers
  import opened JsText
  import opened JsArray
  import opened ProviderApi
  import opened BrowserStorage

  /** The request; a numeric field that is not given is `None`. */
  datatype GenerationRequest = GenerationRequest(
    prompt: string,
    systemPrompt: Option<string>,
    width: Option<real>,
    height: Option<real>,
    guidanceScale: Option<real>,
    numInferenceSteps: Option<real>,
    seed: Option<real>)

  /** The `parameters` block, sent upstream and returned with the record; `seed` is left out when `None`. */
  datatype Parameters = Parameters(width: real, height: real, guidanceScale: real, numInferenceSteps: real, seed: Option<real>)

  datatype Payload = Payload(model: string, messages: seq<ChatMessage>, parameters: Parameters)

  /** The record `generateImage` resolves to; `id` and `imageUrl` are whatever values the reply held. */
  datatype GenerationResponse = GenerationResponse(id: JsValue, prompt: string, imageUrl: JsValue, createdAt: string, parameters: Parameters)

  /** Why `generateImage` or a history operation rejects. */
  datatype ClientError =
    | FetchRejected                  // `fetch` itself rejected
    | HttpFailure(message: string)   // the `Error` thrown for a non-ok status
    | ReplyNotJson                   // `response.json()` rejected on an ok reply
    | StoredHistoryUnreadable        // `JSON.parse` rejected the stored history

  const HistoryKey: string := "image-generation-history"
  const HistoryCap: nat := 50
  const FailurePrefix: string := "Image generation failed: "

  /** A number is truthy unless it is zero (NaN is not modelled). */
  predicate IsTruthyNumber(o: Option<real>) {
    o.Some? && o.value != 0.0
  }

  /** `x || d` on an optional number. */
  function OrNumber(o: Option<real>, d: real): real {
    if IsTruthyNumber(o) then o.value else d
  }

  /**
   * The parameters with `||` defaults 1024, 1024, 7.5 and 50, so a zero is
   * replaced as if it were missing; the seed is kept only when it is truthy.
   */
  function RequestParameters(req: GenerationRequest): (p: Parameters)
    ensures p.width != 0.0 && p.height != 0.0 && p.guidanceScale != 0.0 && p.numInferenceSteps != 0.0
    ensures p.width == (if IsTruthyNumber(req.width) then req.width.value else 1024.0)
    ensures p.height == (if IsTruthyNumber(req.height) then req.height.value else 1024.0)
    ensures p.guidanceScale == (if IsTruthyNumber(req.guidanceScale) then req.guidanceScale.value else 7.5)
    ensures p.numInferenceSteps == (if IsTruthyNumber(req.numInferenceSteps) then req.numInferenceSteps.value else 50.0)
    ensures p.seed.Some? <==> IsTruthyNumber(req.seed)
    ensures p.seed.Some? ==> p.seed == req.seed && p.seed.value != 0.0
  {
    Parameters(
      OrNumber(req.width, 1024.0),
      OrNumber(req.height, 1024.0),
      OrNumber(req.guidanceScale, 7.5),
      OrNumber(req.numInferenceSteps, 50.0),
      if IsTruthyNumber(req.seed) then req.seed else None)
  }

  /** The request body: the fixed model, a system and a user message, and the parameters. */
  function BuildPayload(req: GenerationRequest): (p: Payload)
    ensures p.model == Model
    ensures |p.messages| == 2
    ensures p.messages[0].role == "system" && p.messages[1].role == "user"
    ensures IsTruthyField(req.systemPrompt) ==> p.messages[0].content == Str(req.systemPrompt.value)
    ensures !IsTruthyField(req.systemPrompt) ==> p.messages[0].content == Str(DefaultSystemPrompt)
    ensures p.messages[1].content == Str(req.prompt)
    ensures p.parameters == RequestParameters(req)
    ensures p.parameters.seed.Some? <==> IsTruthyNumber(req.seed)
  {
    Payload(Model, [ChatMessage("system", SystemMessage(FromOption(req.systemPrompt))), ChatMessage("user", Str(req.prompt))], RequestParameters(req))
  }

  /** `data.choices?.[0]?.message?.content`. */
  function FirstChoiceContent(data: CompletionData): JsValue {
    if data.choices == [] then Missing
    else match data.choices[0].message
      case None => Missing
      case Some(m) => m.content
  }

  /**
   * `content || data.image_url || ''`: the first truthy of the first choice's
   * message text and the top-level `image_url`, else the empty string. Unlike
   * the server route, no pattern is applied to the message text.
   */
  function ResponseImageUrl(data: CompletionData): (u: JsValue)
    ensures FirstChoiceContent(data).IsTruthy() ==> u == FirstChoiceContent(data)
    ensures !FirstChoiceContent(data).IsTruthy() && data.imageUrl.IsTruthy() ==> u == data.imageUrl
    ensures !u.IsTruthy() <==> !FirstChoiceContent(data).IsTruthy() && !data.imageUrl.IsTruthy()
    ensures !u.IsTruthy() ==> u == Str("")
  {
    Or(FirstChoiceContent(data), Or(data.imageUrl, Str("")))
  }

  /** The text of the `Error` thrown for a non-ok reply: `Image generation failed: <status> <statusText>. <message>`. */
  function FailureMessage(status: nat, statusText: string, errorMessage: JsValue): (m: string)
    ensures |m| > |FailurePrefix| && m[..|FailurePrefix|] == FailurePrefix
    ensures errorMessage.IsTruthy() ==>
      var text := Interpolated(errorMessage);
      |m| >= |text| + 2 && m[|m| - |text| - 2..] == ". " + text
    ensures !errorMessage.IsTruthy() ==> m[|m| - 2..] == ". "
  {
    FailurePrefix + NatToString(status) + " " + statusText + ". " + Interpolated(Or(errorMessage, Str("")))
  }

  /** The status can be read back from the failure message: `parseInt` right after the prefix gives it. */
  lemma FailureMessageCarriesStatus(status: nat, statusText: string, errorMessage: JsValue)
    ensures ParseInt(FailureMessage(status, statusText, errorMessage)[|FailurePrefix|..]) == Int(status)
  {
    var rest := " " + statusText + ". " + Interpolated(Or(errorMessage, Str("")));
    var m := FailureMessage(status, statusText, errorMessage);
    assert m == FailurePrefix + (NatToString(status) + rest);
    assert m[|FailurePrefix|..] == NatToString(status) + rest;
    ParseIntOfNatToString(status, rest);
  }

  /**
   * `generateImage`: `outcome` is what the request settled to, `nowMillis` is
   * `Date.now()` and `createdAt` is `new Date().toISOString()`. A non-ok status
   * rejects with the status in the message; an ok reply yields the record.
   */
  function GenerateImage(req: GenerationRequest, outcome: FetchOutcome, nowMillis: nat, createdAt: string): (r: Result<GenerationResponse, ClientError>)
    ensures outcome.NetworkFailure? ==> r == Failure(FetchRejected)
    ensures outcome.Delivered? && !outcome.reply.ok ==>
      var errorMessage := if outcome.reply.body.Some? then outcome.reply.body.value.errorMessage else Missing;
      r == Failure(HttpFailure(FailureMessage(outcome.reply.status, outcome.reply.statusText, errorMessage)))
    ensures outcome.Delivered? && outcome.reply.ok && outcome.reply.body.None? ==> r == Failure(ReplyNotJson)
    ensures r.Success? <==> outcome.Delivered? && outcome.reply.ok && outcome.reply.body.Some?
    ensures r.Success? ==>
      var data := outcome.reply.body.value;
      && r.value.prompt == req.prompt
      && r.value.imageUrl == ResponseImageUrl(data)
      && r.value.createdAt == createdAt
      && r.value.parameters == BuildPayload(req).parameters
      && r.value.id.IsTruthy()
      && (data.id.IsTruthy() ==> r.value.id == data.id)
      && (!data.id.IsTruthy() ==> r.value.id == Str(NatToString(nowMillis)))
  {
    match outcome
    case NetworkFailure => Failure(FetchRejected)
    case Delivered(reply) =>
      if !reply.ok then
        // a body that is not JSON reads as `{}`, whose `message` is missing
        var errorMessage := if reply.body.Some? then reply.body.value.errorMessage else Missing;
        Failure(HttpFailure(FailureMessage(reply.status, reply.statusText, errorMessage)))
      else if reply.body.None? then Failure(ReplyNotJson)
      else
        var data := reply.body.value;
        Success(GenerationResponse(
          Or(data.id, Str(NatToString(nowMillis))),
          req.prompt,
          ResponseImageUrl(data),
          createdAt,
          RequestParameters(req)))
  }

  /** `getHistory`: a missing key reads as `[]`; stored text that is not JSON makes it reject. */
  function GetHistory(storage: LocalStorage<GenerationResponse>): (r: Result<seq<GenerationResponse>, ClientError>)
    reads storage
    ensures HistoryKey !in storage.slots ==> r == Success([])
    ensures r.Failure? <==> HistoryKey in storage.slots && storage.slots[HistoryKey].Malformed?
    ensures r.Success? && HistoryKey in storage.slots ==> storage.slots[HistoryKey] == Entries(r.value)
  {
    if HistoryKey !in storage.slots then Success([])
    else match storage.slots[HistoryKey]
      case Entries(items) => Success(items)
      case Malformed => Failure(StoredHistoryUnreadable)
  }

  /**
   * `saveToHistory`: the new record goes first and the history is cut to its
   * first 50, so the oldest records are the ones dropped.
   */
  method SaveToHistory(storage: LocalStorage<GenerationResponse>, generation: GenerationResponse) returns (r: Result<(), ClientError>)
    modifies storage
    ensures old(GetHistory(storage)).Failure? ==> r == Failure(StoredHistoryUnreadable) && storage.slots == old(storage.slots)
    ensures old(GetHistory(storage)).Success? ==>
      var h := old(GetHistory(storage)).value;
      && r == Success(())
      && storage.slots == old(storage.slots)[HistoryKey := Entries(PrependCapped(generation, h, HistoryCap))]
      && GetHistory(storage) == Success(PrependCapped(generation, h, HistoryCap))
  {
    var history := GetHistory(storage);
    if history.Failure? {
      return Failure(history.error);
    }
    storage.SetItem(HistoryKey, PrependCapped(generation, history.value, HistoryCap));
    r := Success(());
  }

  /** The records `deleteFromHistory(id)` drops: `item.id !== id` keeps every id that is not this very string. */
  function HasId(id: string): GenerationResponse -> bool {
    (g: GenerationResponse) => g.id == Str(id)
  }

  /** `deleteFromHistory`: every record with the id is dropped, the others keep their order. */
  method DeleteFromHistory(storage: LocalStorage<GenerationResponse>, id: string) returns (r: Result<(), ClientError>)
    modifies storage
    ensures old(GetHistory(storage)).Failure? ==> r == Failure(StoredHistoryUnreadable) && storage.slots == old(storage.slots)
    ensures old(GetHistory(storage)).Success? ==>
      var h := old(GetHistory(storage)).value;
      && r == Success(())
      && storage.slots == old(storage.slots)[HistoryKey := Entries(Without(h, HasId(id)))]
      && ((forall k | 0 <= k < |h| :: h[k].id != Str(id)) ==> GetHistory(storage) == Success(h))
  {
    var history := GetHistory(storage);
    if history.Failure? {
      return Failure(history.error);
    }
    storage.SetItem(HistoryKey, Without(history.value, HasId(id)));
    r := Success(());
  }

  /** `clearHistory`: the key is removed, so the history reads as empty again. */
  method ClearHistory(storage: LocalStorage<GenerationResponse>)
    modifies storage
    ensures storage.slots == old(storage.slots) - {HistoryKey}
    ensures GetHistory(storage) == Success([])
  {
    storage.RemoveItem(HistoryKey);
  }
}
