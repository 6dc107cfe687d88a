/**
 * The chat-completion client: per-model pricing, the temperature guard, the
 * request that is sent, and the shaping of the provider's decoded response.
 * The HTTP round trip itself (building the request object, `Doer.Do`, JSON
 * encoding and decoding) is abstracted as a function from the request to its
 * outcome.
 */
module OpenAI {
  import opened Wrappers

  const ChatCompletionURL: string := "https://api.openai.com/v1/chat/completions"

  /** The HTTP status code the client accepts (`http.StatusOK`). */
  const StatusOK: int := 200

  // ---------------------------------------------------------------------------
  // Models and pricing
  // ---------------------------------------------------------------------------

  /** A model identifier; in Go a string type, so any name is a model. */
  datatype AiModel = AiModel(name: string)

  const GPT3_5Turbo: AiModel := AiModel("gpt-3.5-turbo")

  /** Dollars per 1000 tokens for gpt-3.5-turbo. */
  const GPT3_5TurboPricePer1K: real := 0.002

  /** The price in dollars of a request that used `totalTokens` tokens. */
  function Cost(model: AiModel, totalTokens: int): (dollars: real)
    ensures totalTokens <= 0 ==> dollars == 0.0
    ensures model != GPT3_5Turbo ==> dollars == 0.0
    ensures dollars >= 0.0
    ensures model == GPT3_5Turbo && totalTokens > 0 ==>
              dollars * 1000.0 == totalTokens as real * GPT3_5TurboPricePer1K
  {
    if totalTokens <= 0 then
      0.0
    else if model == GPT3_5Turbo then
      totalTokens as real * GPT3_5TurboPricePer1K / 1000.0
    else
      0.0
  }

  /** The cost the client reports: whatever pricing rule the model carries. */
  function CalculateCost(totalTokens: int, model: AiModel): (dollars: real)
    ensures dollars == Cost(model, totalTokens)
  {
    Cost(model, totalTokens)
  }

  /** For positive token counts the price of gpt-3.5-turbo is additive. */
  lemma CostAdditive(a: int, b: int)
    requires a > 0 && b > 0
    ensures Cost(GPT3_5Turbo, a + b) == Cost(GPT3_5Turbo, a) + Cost(GPT3_5Turbo, b)
  {
  }

  /** Scaling a positive token count by `k` scales the price by `k`. */
  lemma CostScales(k: int, n: int)
    requires k > 0 && n > 0
    ensures Cost(GPT3_5Turbo, k * n) == k as real * Cost(GPT3_5Turbo, n)
  {
  }

  /** The reference prices the repository's own tests expect. */
  lemma CostReferenceValues()
    ensures Cost(GPT3_5Turbo, 1000) == 0.002
    ensures Cost(GPT3_5Turbo, 100) == 0.0002
    ensures Cost(GPT3_5Turbo, 1000000) == 2.0
    ensures Cost(GPT3_5Turbo, 2000) == 2.0 * Cost(GPT3_5Turbo, 1000)
    ensures Cost(GPT3_5Turbo, 0) == 0.0 && Cost(GPT3_5Turbo, -1) == 0.0
  {
  }

  // ---------------------------------------------------------------------------
  // Messages and the request
  // ---------------------------------------------------------------------------

  datatype Role = SystemRole | UserRole | AssistantRole

  datatype Message = Message(role: Role, content: string)

  /** The body that is serialised: `chatCompletionRequest`. */
  datatype RequestBody = RequestBody(model: string, messages: seq<Message>, temperature: real)

  datatype Header = Header(name: string, value: string)

  /** The request handed to the Doer (`verb` is the HTTP method); its body before JSON encoding. */
  datatype HttpRequest = HttpRequest(verb: string, url: string, headers: seq<Header>, body: RequestBody)

  /** Only `Model` and `Messages` are set; `Temperature` keeps its zero value. */
  function NewRequestBody(messages: seq<Message>, model: AiModel): (body: RequestBody)
    ensures body.model == model.name
    ensures body.messages == messages
    ensures body.temperature == 0.0
  {
    RequestBody(model.name, messages, 0.0)
  }

  function AuthorizationHeader(apiKey: string): Header
  {
    Header("Authorization", "Bearer " + apiKey)
  }

  function NewRequest(apiKey: string, messages: seq<Message>, model: AiModel): (req: HttpRequest)
    ensures req.verb == "POST" && req.url == ChatCompletionURL
    ensures req.headers == [Header("Content-Type", "application/json"), AuthorizationHeader(apiKey)]
    ensures req.body == NewRequestBody(messages, model)
  {
    HttpRequest("POST", ChatCompletionURL,
                [Header("Content-Type", "application/json"), AuthorizationHeader(apiKey)],
                NewRequestBody(messages, model))
  }

  // ---------------------------------------------------------------------------
  // The provider's response
  // ---------------------------------------------------------------------------

  datatype RawUsage = RawUsage(promptTokens: int, completionTokens: int, totalTokens: int)

  datatype RawMessage = RawMessage(role: string, content: string)

  datatype RawChoice = RawChoice(message: RawMessage, finishReason: string, index: int)

  /** The decoded JSON body, `rawChatCompletionResponse`. */
  datatype RawChatCompletionResponse = RawChatCompletionResponse(
    id: string, object: string, created: int, model: string,
    usage: RawUsage, choices: seq<RawChoice>)

  /** What the client hands back: `chatCompletionResponse`; `created` stays Unix seconds. */
  datatype ChatCompletionResponse = ChatCompletionResponse(
    created: int, model: AiModel, cost: real, messages: seq<string>)

  /** The text of one choice. */
  function Content(choice: RawChoice): (text: string)
    ensures text == choice.message.content
  {
    choice.message.content
  }

  /** The answer list: each choice's content, in provider order. */
  function Answers(choices: seq<RawChoice>): (answers: seq<string>)
    ensures |answers| == |choices|
    ensures forall i :: 0 <= i < |choices| ==> answers[i] == Content(choices[i])
  {
    if |choices| == 0 then [] else Answers(choices[..|choices| - 1]) + [Content(choices[|choices| - 1])]
  }

  /** The successful result built from a decoded response for the requested model. */
  function ToResponse(raw: RawChatCompletionResponse, model: AiModel): (r: ChatCompletionResponse)
    ensures r.created == raw.created
    ensures r.model == model
    ensures r.cost == CalculateCost(raw.usage.totalTokens, model)
    ensures |r.messages| == |raw.choices|
    ensures forall i :: 0 <= i < |raw.choices| ==> r.messages[i] == raw.choices[i].message.content
  {
    ChatCompletionResponse(raw.created, model, CalculateCost(raw.usage.totalTokens, model), Answers(raw.choices))
  }

  /**
   * Only the creation time, the total token count and the choices' contents
   * reach the result: the provider's own `model` field, the id, the prompt and
   * completion counts, roles, finish reasons and indices do not.
   */
  lemma ToResponseDependsOnlyOnContents(a: RawChatCompletionResponse, b: RawChatCompletionResponse, model: AiModel)
    requires a.created == b.created && a.usage.totalTokens == b.usage.totalTokens
    requires |a.choices| == |b.choices|
    requires forall i :: 0 <= i < |a.choices| ==> a.choices[i].message.content == b.choices[i].message.content
    ensures ToResponse(a, model) == ToResponse(b, model)
  {
  }

  // ---------------------------------------------------------------------------
  // The round trip
  // ---------------------------------------------------------------------------

  /** What decoding the body of a 200 response gives. */
  datatype DecodeOutcome =
    | Malformed(reason: string, deadlineExceeded: bool)
    | Decoded(raw: RawChatCompletionResponse)

  /** What `Doer.Do` gives: a transport error, or a response with status and body. */
  datatype HttpOutcome =
    | TransportFailure(reason: string, deadlineExceeded: bool)
    | Response(statusCode: int, status: string, body: DecodeOutcome)

  /** The errors `ChatCompletionRequest` returns. */
  datatype ClientError =
    | InvalidTemperature(temperature: real)
    | RequestFailed(reason: string, deadlineExceeded: bool)
    | BadStatus(status: string)
    | DecodeFailed(reason: string, deadlineExceeded: bool)

  /** `errors.Is(err, context.DeadlineExceeded)` on a client error. */
  predicate WrapsDeadlineExceeded(e: ClientError)
  {
    (e.RequestFailed? || e.DecodeFailed?) && e.deadlineExceeded
  }

  type Doer = HttpRequest -> HttpOutcome

  /** The client: the HTTP Doer and the API key it was constructed with. */
  datatype Client = Client(httpClient: Doer, apiKey: string)

  /** The temperature bounds, both inclusive. */
  predicate ValidTemperature(temperature: real)
  {
    !(temperature < 0.0 || temperature > 1.0)
  }

  /** What the client makes of the Doer's outcome, checked in the source's order. */
  function HandleOutcome(outcome: HttpOutcome, model: AiModel): (r: Result<ChatCompletionResponse, ClientError>)
    ensures outcome.TransportFailure? ==>
              r == Failure(RequestFailed(outcome.reason, outcome.deadlineExceeded))
    ensures outcome.Response? && outcome.statusCode != StatusOK ==> r == Failure(BadStatus(outcome.status))
    ensures outcome.Response? && outcome.statusCode == StatusOK && outcome.body.Malformed? ==>
              r == Failure(DecodeFailed(outcome.body.reason, outcome.body.deadlineExceeded))
    ensures r.Success? <==> outcome.Response? && outcome.statusCode == StatusOK && outcome.body.Decoded?
    ensures r.Success? ==> r.value == ToResponse(outcome.body.raw, model)
  {
    match outcome
    case TransportFailure(reason, deadline) => Failure(RequestFailed(reason, deadline))
    case Response(code, status, body) =>
      if code != StatusOK then Failure(BadStatus(status))
      else match body
        case Malformed(reason, deadline) => Failure(DecodeFailed(reason, deadline))
        case Decoded(raw) => Success(ToResponse(raw, model))
  }

  /**
   * `Client.ChatCompletionRequest`. `sent` is the request handed to the Doer,
   * or None when the Doer was never called.
   */
  method ChatCompletionRequest(client: Client, messages: seq<Message>, model: AiModel, temperature: real)
    returns (res: Result<ChatCompletionResponse, ClientError>, ghost sent: Option<HttpRequest>)
    ensures !ValidTemperature(temperature) ==> sent == None && res == Failure(InvalidTemperature(temperature))
    ensures ValidTemperature(temperature) ==> sent == Some(NewRequest(client.apiKey, messages, model))
    ensures ValidTemperature(temperature) ==>
              res == HandleOutcome(client.httpClient(NewRequest(client.apiKey, messages, model)), model)
  {
    if temperature < 0.0 || temperature > 1.0 {
      return Failure(InvalidTemperature(temperature)), None;
    }
    var req := NewRequest(client.apiKey, messages, model);
    sent := Some(req);
    var outcome := client.httpClient(req);
    match outcome
    case TransportFailure(reason, deadline) =>
      return Failure(RequestFailed(reason, deadline)), sent;
    case Response(code, status, body) =>
      if code != StatusOK {
        return Failure(BadStatus(status)), sent;
      }
      match body
      case Malformed(reason, deadline) =>
        return Failure(DecodeFailed(reason, deadline)), sent;
      case Decoded(raw) =>
        var cost := CalculateCost(raw.usage.totalTokens, model);
        var answers: seq<string> := [];
        var i := 0;
        while i < |raw.choices|
          invariant 0 <= i <= |raw.choices|
          invariant answers == Answers(raw.choices[..i])
        {
          assert raw.choices[..i + 1][..i] == raw.choices[..i];
          answers := answers + [Content(raw.choices[i])];
          i := i + 1;
        }
        assert raw.choices[..i] == raw.choices;
        return Success(ChatCompletionResponse(raw.created, model, cost, answers)), sent;
  }
}
