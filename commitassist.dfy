/**
 * The commit assistant: a fixed four-message few-shot conversation around the
 * caller's diff, one request with a fixed model and temperature, and the
 * classification of the client's result.
 */
module CommitAssist {
  import opened Wrappers
  import opened Text
  import opened OpenAI

  const SystemPrompt: string :=
    "You are helpful assistant that suggest commit messages. The commit messages should explain the changes made in the files, "
    + "including any breaking changes, which should be denoted with a '!' (e.g., 'feat!'). The structure of the commit message "
    + "can be flexible, varying based on the size and complexity of the changes. You should only respond with the commit subject "
    + "and the commit body separated by newlines. The commit subject should be in imperative mood."

  /** The exemplar diff of the few-shot pair. */
  const ExampleDiff: string :=
    "diff --git a/README.md b/README.md\n"
    + "new file mode 100644\n"
    + "index 0000000..ca34b6a\n"
    + "--- /dev/null\n"
    + "+++ b/README.md\n"
    + "@@ -0,0 +1,21 @@\n"
    + "+# Commit Message\n"
    + "+\n"
    + "+Create a commit message suggestion from the git diff using the openAI API.\n"
    + "+\n"
    + "+Note that this means that filename and lines changed is sent to openAI. If that\n"
    + "+bothers you - don't use this tool."

  /** The exemplar answer of the few-shot pair. */
  const ExampleAnswer: string :=
    "feat: Add README.md to explain the tool usage\n\nThis commit introduces a new README.md file. The purpose of this file "
    + "is to provide detailed instructions and important notes about the new tool that generates commit message suggestions "
    + "using the OpenAI API. It highlights the tool's functionality and data it sends to OpenAI, including filenames and lines changed."

  /** The three messages that precede the caller's diff. */
  const FewShotPrefix: seq<Message> :=
    [Message(SystemRole, SystemPrompt), Message(UserRole, ExampleDiff), Message(AssistantRole, ExampleAnswer)]

  const Model: AiModel := GPT3_5Turbo
  const Temperature: real := 0.2

  /** The substring that marks an answer the model was not confident about. */
  const UnsureMarker: string := "unsure"

  const UnexpectedCountPrefix: string := "unexpected number of messages returned, got "

  /** The conversation `GetCommitMessage` sends for `gitDiff`. */
  function Conversation(gitDiff: string): (msgs: seq<Message>)
    ensures |msgs| == 4
    ensures msgs[0].role == SystemRole && msgs[1].role == UserRole
    ensures msgs[2].role == AssistantRole && msgs[3].role == UserRole
    ensures msgs[..3] == FewShotPrefix
    ensures msgs[3].content == gitDiff
  {
    FewShotPrefix + [Message(UserRole, gitDiff)]
  }

  /** Only the last message depends on the diff, and it determines the diff. */
  lemma ConversationDependsOnlyOnDiff(a: string, b: string)
    ensures Conversation(a)[..3] == Conversation(b)[..3]
    ensures Conversation(a) == Conversation(b) <==> a == b
  {
  }

  /** `GetTypeResponse`: the accepted message and its cost in cents. */
  datatype GetTypeResponse = GetTypeResponse(message: string, cost: real)

  /** The errors the assistant returns; the two typed ones are not wrapped. */
  datatype AssistError =
    | UnexpectedStateError(msg: string)
    | UnsureError(msg: string)
    | RequestError(cause: ClientError)   // "could not do ChatCompletionRequest: %w"

  /** `errors.Is(err, context.DeadlineExceeded)`: only a wrapped client error can match. */
  predicate WrapsDeadline(e: AssistError)
  {
    e.RequestError? && WrapsDeadlineExceeded(e.cause)
  }

  /** The text of the unexpected-state error for `count` answers. */
  function UnexpectedCountMessage(count: nat): (msg: string)
  {
    UnexpectedCountPrefix + DecimalString(count)
  }

  /** The unexpected-state text carries the count: it can be read back from it. */
  lemma UnexpectedCountRecoverable(count: nat)
    ensures HasPrefix(UnexpectedCountMessage(count), UnexpectedCountPrefix)
    ensures var digits := UnexpectedCountMessage(count)[|UnexpectedCountPrefix|..];
            AllDigits(digits) && ParseDecimal(digits) == count
  {
    var msg := UnexpectedCountMessage(count);
    assert msg[..|UnexpectedCountPrefix|] == UnexpectedCountPrefix;
    assert msg[|UnexpectedCountPrefix|..] == DecimalString(count);
    DecimalRoundTrip(count);
  }

  /** `doChatCompletionRequest` after the client call: the classification of its result. */
  function Classify(result: Result<ChatCompletionResponse, ClientError>): (r: Result<GetTypeResponse, AssistError>)
    ensures result.Failure? ==> r == Failure(RequestError(result.error))
    ensures result.Success? && |result.value.messages| != 1 ==>
              r == Failure(UnexpectedStateError(UnexpectedCountMessage(|result.value.messages|)))
    ensures result.Success? && |result.value.messages| == 1 && Contains(result.value.messages[0], UnsureMarker) ==>
              r == Failure(UnsureError(result.value.messages[0]))
    ensures r.Success? <==>
              result.Success? && |result.value.messages| == 1 && !Contains(result.value.messages[0], UnsureMarker)
    ensures r.Success? ==> r.value == GetTypeResponse(result.value.messages[0], result.value.cost * 100.0)
  {
    match result
    case Failure(e) => Failure(RequestError(e))
    case Success(content) =>
      if |content.messages| != 1 then
        Failure(UnexpectedStateError(UnexpectedCountMessage(|content.messages|)))
      else
        var message := content.messages[0];
        if Contains(message, UnsureMarker) then Failure(UnsureError(message))
        else Success(GetTypeResponse(message, content.cost * 100.0))
  }

  /** An accepted message has no "unsure" anywhere; an unsure error always has one. */
  lemma ClassifyMarkerSeparation(result: Result<ChatCompletionResponse, ClientError>)
    ensures Classify(result).Success? ==> forall i :: !OccursAt(Classify(result).value.message, UnsureMarker, i)
    ensures Classify(result).Failure? && Classify(result).error.UnsureError? ==>
              exists i :: OccursAt(Classify(result).error.msg, UnsureMarker, i)
  {
    var r := Classify(result);
    if r.Success? {
      ContainsIffOccurs(r.value.message, UnsureMarker);
    } else if r.error.UnsureError? {
      ContainsIffOccurs(r.error.msg, UnsureMarker);
    }
  }

  /** The count check comes first: any answer count other than one is unexpected, whatever the answers say. */
  lemma CountCheckPrecedesMarker(response: ChatCompletionResponse)
    requires |response.messages| != 1
    requires forall i :: 0 <= i < |response.messages| ==> Contains(response.messages[i], UnsureMarker)
    ensures Classify(Success(response)).Failure?
    ensures Classify(Success(response)).error == UnexpectedStateError(UnexpectedCountMessage(|response.messages|))
  {
  }

  /** The few-shot temperature passes the client's guard. */
  lemma TemperatureIsValid()
    ensures ValidTemperature(Temperature)
  {
  }

  /** `doChatCompletionRequest`: one request with the fixed model and temperature, then Classify. */
  method DoChatCompletionRequest(client: Client, messages: seq<Message>)
    returns (r: Result<GetTypeResponse, AssistError>, ghost sent: Option<HttpRequest>)
    ensures sent == Some(NewRequest(client.apiKey, messages, Model))
    ensures r == Classify(HandleOutcome(client.httpClient(NewRequest(client.apiKey, messages, Model)), Model))
    ensures r.Failure? && r.error.RequestError? ==> !r.error.cause.InvalidTemperature?
  {
    var content;
    content, sent := ChatCompletionRequest(client, messages, Model, Temperature);
    r := Classify(content);
  }

  /** `GetCommitMessage`: the conversation for `gitDiff`, sent once and classified. */
  method GetCommitMessage(client: Client, gitDiff: string)
    returns (r: Result<GetTypeResponse, AssistError>, ghost sent: Option<HttpRequest>)
    ensures sent == Some(NewRequest(client.apiKey, Conversation(gitDiff), GPT3_5Turbo))
    ensures r == Classify(HandleOutcome(client.httpClient(NewRequest(client.apiKey, Conversation(gitDiff), GPT3_5Turbo)), GPT3_5Turbo))
    ensures r.Failure? && r.error.RequestError? ==> !r.error.cause.InvalidTemperature?
  {
    r, sent := DoChatCompletionRequest(client, Conversation(gitDiff));
  }
}
