/** What the two explain controllers share: the outcome of the call to the
    chat-completion provider, the request they send it, and the JSON body
    they answer with. */
module Http {
  import opened JsValues

  /** `response.ok`: the status lies in the 2xx range. */
  predicate IsOk(status: int) {
    200 <= status <= 299
  }

  /** The parsed JSON of a provider reply. Only `choices[0].message.content`
      is inspected; it is absent when any step of that path is missing. */
  datatype Completion = Completion(content: Field)

  /** What awaiting the provider gives a handler: a response (its status,
      its body read as text, its body parsed as JSON), or a thrown error
      (from `fetch`, `response.text()` or `response.json()`) with its
      `message`. */
  datatype Upstream =
    | Response(status: int, text: string, data: Completion)
    | Threw(message: Field)

  /** The one POST a controller sends to the provider: where, with which
      headers, and the request body's members. */
  datatype ProviderCall = ProviderCall(
    url: string,
    authorization: string,
    referer: string,
    title: string,
    model: string,
    systemPrompt: string,
    userPrompt: string,
    maxTokens: Option<nat>,
    temperature: Option<real>)

  /** The JSON body of a controller's answer; members it leaves out are None. */
  datatype Body = Body(
    success: bool,
    message: Field,
    reply: Field,
    explanation: Field,
    raw: Option<Completion>)

  /** `res.status(status).json(body)`. */
  datatype Answer = Answer(status: int, body: Body)

  /** What a controller does with one request: its answer, and the provider
      call it made on the way, if any. */
  datatype Outcome = Outcome(answer: Answer, call: Option<ProviderCall>)

  const CompletionsUrl := "https://openrouter.ai/api/v1/chat/completions"
  const ModelName := "mistralai/mistral-7b-instruct"
  const Referer := "http://localhost:5000"
  const MissingKeyMessage := "OPENROUTER_API_KEY not found in .env"
  const NoExplanationMessage := "No explanation generated"

  /** `{ success: false, message }`. */
  function FailureBody(message: Field): Body {
    Body(false, message, None, None, None)
  }

  /** `{ success: false, message: "No explanation generated", raw: data }`. */
  function NoContentBody(data: Completion): Body {
    Body(false, Some(NoExplanationMessage), None, None, Some(data))
  }
}
