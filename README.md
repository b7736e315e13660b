# go-openrouter: request validation, request shaping and client construction

This project models the client-side decision logic of a Go client for the OpenRouter
text-completion API:

- `CompletionsRequest.validate`: an ordered chain of guards over a record of optional
  parameters. The first guard that fires decides the outcome.
- The part of `Client.Completions` that runs before anything goes over the network.
  It validates the request, forms the URL `baseURL + "/api/v1/chat/completions"` and
  sets the request headers.
- `New`: builds a client from an API key and options, filling in defaults.

Modules, one per source concern:

| file | module | models |
|---|---|---|
| `wrappers.dfy` | `Wrappers` | `Option` (a nil-able Go pointer), `Result` (a `(T, error)` return), `Outcome` (an `error` return) |
| `errors.dfy` | `Errors` | the sentinel errors of `error.go` and their texts |
| `http_header.dfy` | `HttpHeader` | the part of Go's `http.Header` that the headers rely on: `Set`, `Values`, `Get` and header-name canonicalisation |
| `client.dfy` | `ClientConfig` | `ClientOptions`, `Client`, the defaulting done by `New`, and `New` itself |
| `api_completions.dfy` | `ApiCompletions` | `CompletionsRequest`, `validate`, the ordered check table, and the pre-dispatch part of `Completions` |

Modelling choices:

- A Go pointer field becomes `Option<T>`.
- The `float32` sampling parameters become `real`.
- Go `int` becomes `int`, because it is only ever compared with 0 and 1.
- An `*http.Client` becomes an opaque `HttpClient` token. `DefaultClient` stands for
  `http.DefaultClient`.
- `validate` is written as the literal if-chain of the source (`ApiCompletions.Validate`).
  It is proved equal to an independent description: `Checks`, a table of nine
  (condition, error) pairs in source order, run by `FirstFailure`. What the nine guards
  accept is also written out on its own, as ranges, in `PassesEveryGuard`.
- Go's `Header.Set` stores a name in canonical form: the first letter and each letter
  after a hyphen are upper case, all other letters lower case.
  - `Authorization`, `Content-Type` and `X-Title` are already in that form.
  - `HTTP-Referer` is stored as `Http-Referer`.
  - `Values` and `Get` canonicalise the name they are given, as Go's `Header.Values`
    and `Header.Get` do. `Has` is this model's own predicate, not a Go method: it says
    that some entry is stored under the canonical form of the name.
  - So "`HTTP-Referer` is present" means what it means for a Go caller.

The code enforces less than its own comments and texts describe. The model follows the
code:

- **The cross-field rule.** It fires only when a response format AND a seed are both set,
  the model is set, and the model does not start with `"openai"`
  (api_completions.go:80). The error text says "response format or seed"
  (error.go:8), and the field comments say each of the two is for OpenAI models only
  (api_completions.go:41, 46). `FormatOrSeedAloneIsNotRestricted` proves the literal
  behaviour: a request that sets only one of the two never gets this error, whatever its
  model. The model keeps this conjunction, because callers see it.
- **Top-k and OpenAI models.** The field comment says top-k is not available for OpenAI
  models (api_completions.go:59). No guard checks this: `TopKAllowedForOpenAIModels` proves that a
  non-negative top-k never gets `TopKOutOfRange` with an OpenAI model.
- **Max-token upper bound.** The comment and the error text say max-token lies between 1
  and the context length (api_completions.go:56, error.go:9). Only the lower bound is
  checked. The context length is not known to the client.
- **The timeout.** `New` defaults the timeout to 30 seconds but never stores it in the
  `Client` (client.go:33-35, 45-51). A "default timeout" therefore has no effect
  (`NewIgnoresTimeout`).

Catalogue data that no modelled operation consults: the error texts (`Errors.Message`,
error.go:6-15) and the two named response-format values `ResponseFormatJson` and
`ResponseFormatText` (api_completions.go:18-21). `validate` only checks whether a
response format is set, not which one.

## Model

| member | source | states |
|---|---|---|
| `ApiCompletions.Validate` | api_completions.go:75-113 | an empty prompt always yields `PromptIsRequired`, whatever else is set; validation passes exactly when none of the nine guards fires |
| `ApiCompletions.ValidateFollowsCheckOrder` | api_completions.go:75-113 | `validate` returns the error of the first check, in source order, that fires, and passes when none does |
| `ApiCompletions.FirstFailureAt` | api_completions.go:75-113 | in an ordered run of checks, the first one that fires is the one whose error is reported |
| `ApiCompletions.FirstFailurePass` | api_completions.go:112 | an ordered run of checks passes exactly when none of them fires |
| `ApiCompletions.FirstFailureFail` | api_completions.go:75-113 | a reported error always belongs to a check that fired after every earlier check passed |
| `ApiCompletions.ValidateAtCheck` | api_completions.go:75-113 | once every earlier check passes, a check's own error is reported exactly when that check fires |
| `ApiCompletions.EarlierCheckWins` | api_completions.go:75-113 | while an earlier check fires, no later error is reported (e.g. an empty prompt hides an out-of-range temperature) |
| `ApiCompletions.OpenAIOnlyErrorConditions` | api_completions.go:80-82 | `ParameterOnlyForOpenAIModels` is returned exactly when the prompt is non-empty, response format, seed and model are all set, and the model lacks the `openai` prefix; so an absent model, or only one of the two parameters, never triggers it |
| `ApiCompletions.FormatOrSeedAloneIsNotRestricted` | api_completions.go:80-82 | a request that sets only one of response format and seed never gets `ParameterOnlyForOpenAIModels`, whatever its model, because the rule uses AND |
| `ApiCompletions.MaxTokenLowerBound` | api_completions.go:84-86 | once the earlier checks pass, a set max-token below 1 is refused and every value of at least 1 passes |
| `ApiCompletions.TemperatureRange` | api_completions.go:88-90 | once the earlier checks pass, temperature accepts exactly [0, 2], bounds included |
| `ApiCompletions.TopPRange` | api_completions.go:92-94 | once the earlier checks pass, top-p accepts exactly [0, 1], bounds included |
| `ApiCompletions.TopKLowerBound` | api_completions.go:96-98 | once the earlier checks pass, top-k is refused only when negative, so 0 is accepted |
| `ApiCompletions.TopKAllowedForOpenAIModels` | api_completions.go:96-98 | with a model of the `openai` family, a non-negative top-k is never refused, though api_completions.go:59 calls top-k unavailable there |
| `ApiCompletions.FrequencyPenaltyRange` | api_completions.go:100-102 | once the earlier checks pass, frequency penalty accepts exactly [-2, 2] |
| `ApiCompletions.PresencePenaltyRange` | api_completions.go:104-106 | once the earlier checks pass, presence penalty accepts exactly [-2, 2] |
| `ApiCompletions.RepetitionPenaltyRange` | api_completions.go:108-110 | once the earlier checks pass, repetition penalty accepts exactly [0, 2] |
| `ApiCompletions.PromptOnlyIsValid` | api_completions_test.go:26-39 | a non-empty prompt with every optional field absent validates |
| `ApiCompletions.Completions` | api_completions.go:134-159 | a validation failure is returned unchanged and no request is built; otherwise the result is a POST to `baseURL + "/api/v1/chat/completions"` with exactly `RequestHeader(c)`, carrying the request as its body |
| `ApiCompletions.CanonicalRequestHeaderNames` | api_completions.go:150-159 | the four header names are stored as `Content-Type`, `Authorization`, `Http-Referer` and `X-Title` |
| `ApiCompletions.RequestHeaderRequired` | api_completions.go:150-151 | `Content-Type: application/json` and `Authorization: Bearer <apiKey>` are always present, each with exactly that one value |
| `ApiCompletions.RequestHeaderReferer` | api_completions.go:153-155 | `HTTP-Referer` is present exactly when the app URL is non-empty, and then holds it |
| `ApiCompletions.RequestHeaderTitle` | api_completions.go:157-159 | `X-Title` is present exactly when the app name is non-empty, and then holds it |
| `ApiCompletions.RequestHeaderNames` | api_completions.go:150-159 | no header names are stored beyond the two fixed ones and the configured attribution ones |
| `HttpHeader.CanonicalKeyIdempotent` | api_completions.go:150-159 | canonicalising a header name a second time changes nothing, so looking up a stored name finds it |
| `HttpHeader.SetThenGet` | api_completions.go:150-159 | after `Set`, the name reads back as exactly the one value set |
| `HttpHeader.SetKeepsOthers` | api_completions.go:150-159 | `Set` leaves every header with a different canonical name unchanged |
| `ClientConfig.WithDefaults` | client.go:33-43 | timeout, HTTP client and base URL are filled with 30, `http.DefaultClient` and `https://openrouter.ai` when unset; every option given is kept, and the attribution fields are copied unchanged |
| `ClientConfig.WithDefaultsIdempotent` | client.go:33-43 | filling in defaults twice gives the same options as filling them in once |
| `ClientConfig.New` | client.go:28-52 | an empty key gives `ApiKeyIsRequired` and no client; otherwise the client keeps the key unchanged, has the defaulted base URL and HTTP client, and has the attribution fields verbatim |
| `ClientConfig.NewIgnoresTimeout` | client.go:33-51 | the timeout option has no effect on the client built |
| `ClientConfig.NewWithNoOptions` | client_test.go:18-27 | with empty options, only the base URL, the key and the HTTP client are set, each at its default |

## Left out

- HTTP dispatch and response handling (api_completions.go:161-180) are left out. This
  covers `httpClient.Do`, the non-200 status error, reading the body, decoding the
  response, the `CompletionsResponse`/`NonChatChoice` types and the `context` argument.
  All of them are network I/O.
- JSON marshalling of the request (api_completions.go:139-142) is left out. The body is
  the request value itself, with its wire encoding treated as opaque. The marshal error
  path is absent: the one input that makes it fail, a NaN or infinite `float32`, cannot
  occur because the parameters are reals.
- `ApiCompletions.Completions` does not model how `http.NewRequestWithContext` treats its
  arguments (api_completions.go:145-148). It assumes that step succeeds, so an
  unparseable base URL does not produce an error here.
- `float32` semantics are left out: rounding to single precision, and NaN. In Go, NaN
  fails every comparison, so a NaN parameter passes `validate`. The model has no NaN.
- The status-code constants and `ErrorResponse` in api.go are left out. No code in the
  core consults them.
- `Errors.Message` only lists the error texts. That the ten texts are distinct is not
  proved; the errors are compared by identity, not by text.
- Test plumbing (internal/test/equal.go, suite_test.go) is left out. The `*http.Client`
  value is an opaque token.
