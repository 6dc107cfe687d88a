# commit-msg, modelled in Dafny

`commit-msg` suggests a commit message by sending a git diff to a chat-completion
API and returning the single answer. This project models its deterministic core:

- `openai.dfy` (module `OpenAI`): the chat-completion client. Per-model pricing
  (`Cost`), the temperature guard, the request that is sent (`NewRequest`,
  `NewRequestBody`), and the shaping of the decoded provider response into the
  client's result (`Answers`, `ToResponse`, `HandleOutcome`). `ChatCompletionRequest`
  is a method whose loop builds the answer list. The HTTP client (`Doer`) is a
  function from the request to an abstract outcome: a transport failure, or a
  response with a status code and a body that either decoded or did not. A ghost
  out-parameter `sent` records the request handed to the Doer, and is `None` when
  the temperature guard returned before any call.
- `commitassist.dfy` (module `CommitAssist`): the fixed four-message few-shot
  conversation (`Conversation`), the request with the fixed model and temperature
  0.2, and `Classify`. `Classify` checks, in this order, a client error, then an
  answer count other than one, then an answer containing `"unsure"`. Otherwise it
  accepts the answer and converts the cost from dollars to cents. The two typed
  errors `UnexpectedStateError` and `UnsureError` are constructors of `AssistError`.
  Their `Error()` text is the `msg` field. A client error is `RequestError(cause)`,
  which corresponds to the `%w` wrapping.
- `cli.dfy` (module `Cli`): the comment-stripping loop of `readFile` (`ReadFile`)
  over the lines the scanner yields, and `handleError` (`HandleError`) as a
  function from the error to its exit code.
- `text.dfy` (module `Text`): `strings.HasPrefix`, `strings.Contains` and the
  `%d` decimal text. `wrappers.dfy` (module `Wrappers`): `Option` and `Result`.

Money and temperature are `real`. Token counts and the `created` timestamp are
unbounded `int`s.

Two facts about the code shape the model:

- `chatCompletionRequest.Temperature` is never set (internal/openai/client.go:116-119). The serialised temperature is therefore always 0 (`NewRequestBody`), whatever value passed the guard.
- `GetCommitMessage` takes only the diff and uses one fixed system prompt (internal/commitassist/assist.go:44-49).

## Model

| member | source | states |
|---|---|---|
| `OpenAI.Cost` | internal/openai/client.go:55-67 | A count of zero or fewer tokens costs exactly 0. Any model other than gpt-3.5-turbo costs 0. Cost is never negative. For gpt-3.5-turbo and n > 0, 1000 × cost = n × 0.002. |
| `OpenAI.CostAdditive` | internal/openai/client.go:61-63 | For positive counts, gpt-3.5-turbo's cost is additive: Cost(a+b) = Cost(a) + Cost(b). |
| `OpenAI.CostScales` | internal/openai/client.go:61-63 | Cost is linear: Cost(k·n) = k·Cost(n) for positive k and n. |
| `OpenAI.CostReferenceValues` | internal/openai/client_test.go:23-61 | Exact costs: 1000 → 0.002, 100 → 0.0002, 1000000 → 2. Also 2000 costs twice 1000. Both 0 and −1 cost 0. |
| `OpenAI.CalculateCost` | internal/openai/client.go:213-215 | The reported cost is exactly the model's own pricing rule. |
| `OpenAI.NewRequestBody` | internal/openai/client.go:116-119 | The body carries the model's name and the input messages unchanged and in order. Its temperature is 0 whatever temperature was asked for. |
| `OpenAI.NewRequest` | internal/openai/client.go:126-132 | The request is a POST to the fixed chat-completions URL. It has a JSON content type, a `Bearer` authorization header built from the client's API key, and the body above. |
| `OpenAI.Content` | internal/openai/client.go:209-211 | A choice's text is its message's content. |
| `OpenAI.Answers` | internal/openai/client.go:153-157 | The answer list has one entry per choice, and entry i is choice i's content, in provider order. |
| `OpenAI.ToResponse` | internal/openai/client.go:152-164 | A success carries the provider's timestamp and the requested model, not the JSON `model` field. Its cost is the model's price for `usage.total_tokens`. Its answers are the choices' contents, index by index. |
| `OpenAI.ToResponseDependsOnlyOnContents` | internal/openai/client.go:159-164 | Two decoded responses agreeing on timestamp, total tokens and choice contents give the same result. Id, object, provider model, prompt and completion counts, roles, finish reasons and indices do not matter. |
| `OpenAI.HandleOutcome` | internal/openai/client.go:134-164 | A transport failure is a request error, keeping its deadline flag. Any status other than 200 is an error carrying the status text, and no response value. A 200 response whose body does not decode is a decode error. The result is a success exactly when the status is 200 and the body decoded. |
| `OpenAI.ChatCompletionRequest` | internal/openai/client.go:111-165 | A temperature below 0 or above 1 fails before a request is built and before the Doer is called (`sent` is None). The bounds 0 and 1 pass. Otherwise exactly `NewRequest(apiKey, messages, model)` is sent, and the result is `HandleOutcome` of the Doer's outcome. |
| `CommitAssist.Conversation` | internal/commitassist/assist.go:44-76 | Exactly four messages are sent, with roles system, user, assistant, user. The first three are the fixed few-shot prefix. The last message's content is the diff verbatim. |
| `CommitAssist.ConversationDependsOnlyOnDiff` | internal/commitassist/assist.go:45-75 | The first three messages are the same for every diff. Two conversations are equal exactly when their diffs are. |
| `CommitAssist.UnexpectedCountRecoverable` | internal/commitassist/assist.go:85 | The unexpected-state text is the fixed prefix followed by decimal digits. Those digits read back as the answer count. |
| `CommitAssist.Classify` | internal/commitassist/assist.go:78-98 | A client error becomes a wrapped request error, neither typed kind. An answer count other than one gives `UnexpectedStateError` with the count's text. One answer containing "unsure" gives `UnsureError` carrying that answer verbatim. Success holds exactly otherwise: the single answer unchanged, and cost = dollars × 100. |
| `CommitAssist.ClassifyMarkerSeparation` | internal/commitassist/assist.go:88-97 | An accepted message has "unsure" at no index. An `UnsureError` message has it at some index. |
| `CommitAssist.CountCheckPrecedesMarker` | internal/commitassist/assist.go:84-92 | With zero or several answers the result is `UnexpectedStateError`, even when every answer contains "unsure". |
| `CommitAssist.TemperatureIsValid` | internal/commitassist/assist.go:79 | The assistant's temperature 0.2 lies in [0, 1]. |
| `CommitAssist.DoChatCompletionRequest` | internal/commitassist/assist.go:78-98 | The messages are always sent with gpt-3.5-turbo. The result is `Classify` of the client's handling of the Doer's outcome. It is never a temperature error. |
| `CommitAssist.GetCommitMessage` | internal/commitassist/assist.go:44-76 | The request sent is always the one built from `Conversation(gitDiff)` with gpt-3.5-turbo. The result is its classification. It is never a temperature error. |
| `Cli.Kept` | cmd/cli/main.go:147-153 | A line is kept exactly when it occurs in the input and does not begin with `#`. A kept line appears as many times as it does in the input. A comment line never appears. There are no more kept lines than input lines. |
| `Cli.KeptAppend` | cmd/cli/main.go:147-153 | Filtering keeps the input order: filtering `a + b` gives the filtered `a` followed by the filtered `b`. |
| `Cli.ReadFile` | cmd/cli/main.go:145-155 | The output is the in-order concatenation, with no separator, of the lines not beginning with `#`. Its length is the sum of those lines' lengths. |
| `Cli.CommentLineDropped` | cmd/cli/main.go:149-151 | A line beginning with `#` contributes nothing, wherever it stands. |
| `Cli.OtherLineKeptVerbatim` | cmd/cli/main.go:149-152 | A line that is empty or has any other first character appears verbatim between its neighbours' output, even if it holds `#` further in. |
| `Cli.OnlyCommentsYieldEmpty` | cmd/cli/main.go:145-155 | An empty input, or one made only of comment lines, yields "". |
| `Cli.HandleError` | cmd/cli/main.go:114-132 | `UnsureError` exits with 3 and `UnexpectedStateError` with 2, whatever their text. Any other error exits with 4 exactly when it wraps a deadline-exceeded error, and with 5 otherwise. |
| `Cli.ExitCodeDeterminedByKind` | cmd/cli/main.go:115-131 | Two errors get the same exit code exactly when they are of the same kind. The four kinds get four distinct codes. |
| `Cli.TimeoutReachesExitCode` | cmd/cli/main.go:122-128 | A transport failure that wrapped a deadline passes through the assistant. It ends with the timeout code, not the generic one. |

## Left out

- The HTTP round trip itself is an input: `http.NewRequestWithContext`, `Doer.Do`, `json.Marshal`, the JSON decoder and `resp.Body.Close`. Building the request and marshalling the body cannot fail for these inputs, because the method and URL are fixed and the temperature field is always 0. Those two error returns are therefore not modelled.
- Strings are sequences of Unicode characters, while Go strings are bytes. Input that is not valid UTF-8, such as a Latin-1 file, cannot be represented. On valid UTF-8 nothing is lost: the `#` prefix test and the `"unsure"` search use ASCII markers, so byte-wise and character-wise matching agree.
- The wire format of the JSON body and the `%f`/`%q` texts of the client's error messages are not modelled. The client's errors keep only their kind and payload.
- Contexts, deadlines and cancellation are abstracted. "Wraps `context.DeadlineExceeded`" is a boolean on transport and decode failures.
- ChatCompletionRequest: `float32` temperature and `float64` cost are `real`. IEEE rounding is not modelled. Neither is a NaN temperature, which would pass Go's guard because both comparisons are false.
- Cost: the `float64` conversion of the token count is exact here. Go is exact only up to 2^53 tokens.
- ToResponse: `time.Unix(created, 0)` is not modelled. The result keeps the Unix seconds, as an unbounded integer rather than `int64`.
- ReadFile: opening and closing the file, and `bufio.Scanner` line splitting, are not modelled. That covers stripping `\n`/`\r\n` and the unchecked scanner error that stops at an over-long line. The input is the sequence of lines already split.
- HandleError: the printed messages and `os.Exit` are not modelled. The function returns the exit code.
- The CLI wiring (`main`, `cliAction`, flags, environment parsing, printing the message and the `%.2f` cost) is not modelled. Neither is `internal/build/build.go`, which only wraps the Go runtime's build information and time formatting.
