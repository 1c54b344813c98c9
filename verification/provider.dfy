/**
 * The chat-completions provider as both callers see it: the fixed model name
 * and default system prompt they send, and the reply they get back. Only the
 * fields the callers read are modelled, each as the JSON value it holds.
 */
module ProviderApi {
  import opened Wrappers
  import opened JsText

  const Model: string := "replicate/black-forest-labs/flux-1.1-pro"

  const DefaultSystemPrompt: string :=
    "Generate a high-quality, detailed image based on the user prompt. Focus on artistic composition, proper lighting, and visual appeal."

  /** A chat message; its `content` is whatever value the caller put there. */
  datatype ChatMessage = ChatMessage(role: string, content: JsValue)

  /** `choices[i].message`, with its `content`. */
  datatype Message = Message(content: JsValue)

  /** `choices[i]`: its `message` (`None` when falsy) and its `image_url`. */
  datatype Choice = Choice(message: Option<Message>, imageUrl: JsValue)

  /**
   * The decoded JSON body of a reply: `id`, an error `message`, `choices`
   * (a missing array reads like an empty one) and a top-level `image_url`.
   */
  datatype CompletionData = CompletionData(
    id: JsValue,
    errorMessage: JsValue,
    choices: seq<Choice>,
    imageUrl: JsValue)

  /**
   * A reply that arrived: `ok`, `status`, `statusText`, the body as text, and
   * the body decoded as JSON (`None` when it is not JSON).
   */
  datatype Reply = Reply(ok: bool, status: nat, statusText: string, bodyText: string, body: Option<CompletionData>)

  /** What `fetch` settles to: a rejected promise, or a reply. */
  datatype FetchOutcome = NetworkFailure | Delivered(reply: Reply)

  /**
   * `systemPrompt || DEFAULT`, the system message both callers send: the given
   * value itself when it is truthy (whatever its type), the default otherwise.
   */
  function SystemMessage(systemPrompt: JsValue): (r: JsValue)
    ensures systemPrompt.IsTruthy() ==> r == systemPrompt
    ensures !systemPrompt.IsTruthy() ==> r == Str(DefaultSystemPrompt)
    ensures r.IsTruthy()
  {
    Or(systemPrompt, Str(DefaultSystemPrompt))
  }
}
