/**
 * The completions request, its client-side validation and the part of
 * `Client.Completions` that runs before the request is dispatched
 * (api_completions.go).
 */
module ApiCompletions {
  import opened Wrappers
  import opened Errors
  import opened HttpHeader
  import opened ClientConfig

  /** The values of Go's `ResponseFormat` string type that the package names. */
  const ResponseFormatJson: string := "json_object"
  const ResponseFormatText: string := "text"

  /** `struct{ Type ResponseFormat }`: any string may be set as the type. */
  datatype ResponseFormat = ResponseFormat(typ: string)

  /**
   * `CompletionsRequest`. Every pointer field is an `Option`; the
   * `float32` sampling parameters are reals and Go's `int` is `int`.
   */
  datatype CompletionsRequest = CompletionsRequest(
    prompt: string,
    model: Option<string>,
    responseFormat: Option<ResponseFormat>,
    seed: Option<int>,
    stop: Option<seq<string>>,
    maxToken: Option<int>,
    temperature: Option<real>,
    topP: Option<real>,
    topK: Option<int>,
    frequencyPenalty: Option<real>,
    presencePenalty: Option<real>,
    repetitionPenalty: Option<real>,
    transforms: Option<seq<string>>,
    fallbackModels: Option<seq<string>>)

  /** A request that sets the prompt and nothing else. */
  function PromptOnly(prompt: string): CompletionsRequest
  {
    CompletionsRequest(prompt, None, None, None, None, None, None, None, None, None, None, None, None, None)
  }

  const OpenAIPrefix: string := "openai"

  /** Go's `strings.HasPrefix`. */
  predicate HasPrefix(s: string, prefix: string)
  {
    |prefix| <= |s| && s[..|prefix|] == prefix
  }

  // ---------------------------------------------------------------------
  // Validation
  // ---------------------------------------------------------------------

  /** `validate`: the guards in source order; the first one that fires decides. */
  function Validate(r: CompletionsRequest): (v: Outcome<Error>)
    ensures r.prompt == "" ==> v == Fail(PromptIsRequired)
    ensures v.Pass? <==> PassesEveryGuard(r)
  {
    if r.prompt == "" then
      Fail(PromptIsRequired)
    else if (r.responseFormat.Some? && r.seed.Some?) && r.model.Some? && !HasPrefix(r.model.value, OpenAIPrefix) then
      Fail(ParameterOnlyForOpenAIModels)
    else if r.maxToken.Some? && r.maxToken.value < 1 then
      Fail(MaxTokenOutOfRange)
    else if r.temperature.Some? && (r.temperature.value < 0.0 || r.temperature.value > 2.0) then
      Fail(TemperatureOutOfRange)
    else if r.topP.Some? && (r.topP.value < 0.0 || r.topP.value > 1.0) then
      Fail(TopPOutOfRange)
    else if r.topK.Some? && r.topK.value < 0 then
      Fail(TopKOutOfRange)
    else if r.frequencyPenalty.Some? && (r.frequencyPenalty.value < -2.0 || r.frequencyPenalty.value > 2.0) then
      Fail(FrequencyPenaltyOutOfRange)
    else if r.presencePenalty.Some? && (r.presencePenalty.value < -2.0 || r.presencePenalty.value > 2.0) then
      Fail(PresencePenaltyOutOfRange)
    else if r.repetitionPenalty.Some? && (r.repetitionPenalty.value < 0.0 || r.repetitionPenalty.value > 2.0) then
      Fail(RepetitionPenaltyOutOfRange)
    else
      Pass
  }

  /** An optional real that is absent or lies in the closed interval [lo, hi]. */
  predicate Within(x: Option<real>, lo: real, hi: real)
  {
    x.None? || lo <= x.value <= hi
  }

  /** An optional integer that is absent or at least lo. */
  predicate AtLeast(x: Option<int>, lo: int)
  {
    x.None? || lo <= x.value
  }

  /**
   * The cross-field rule as the source writes it: a response format and a
   * seed, both set, together with a model outside the "openai" family.
   */
  predicate OpenAIOnlyMisuse(r: CompletionsRequest)
  {
    r.responseFormat.Some? && r.seed.Some? && r.model.Some? && !HasPrefix(r.model.value, OpenAIPrefix)
  }

  /**
   * What the nine guards require, each stated as the range it accepts.
   * The field comments document more (top-k is unavailable for OpenAI
   * models, max-token is bounded by the context length), which no guard
   * enforces and this predicate therefore does not include.
   */
  predicate PassesEveryGuard(r: CompletionsRequest)
  {
    && r.prompt != ""
    && !OpenAIOnlyMisuse(r)
    && AtLeast(r.maxToken, 1)
    && Within(r.temperature, 0.0, 2.0)
    && Within(r.topP, 0.0, 1.0)
    && AtLeast(r.topK, 0)
    && Within(r.frequencyPenalty, -2.0, 2.0)
    && Within(r.presencePenalty, -2.0, 2.0)
    && Within(r.repetitionPenalty, 0.0, 2.0)
  }

  // ---------------------------------------------------------------------
  // The order of the checks, as a table
  // ---------------------------------------------------------------------

  /** One guard: whether it fires, and the error it reports when it does. */
  datatype Check = Check(violated: bool, error: Error)

  /** The nine guards of `validate`, in the order they run. */
  function Checks(r: CompletionsRequest): (cs: seq<Check>)
    ensures |cs| == 9
  {
    [ Check(r.prompt == "", PromptIsRequired),
      Check(OpenAIOnlyMisuse(r), ParameterOnlyForOpenAIModels),
      Check(!AtLeast(r.maxToken, 1), MaxTokenOutOfRange),
      Check(!Within(r.temperature, 0.0, 2.0), TemperatureOutOfRange),
      Check(!Within(r.topP, 0.0, 1.0), TopPOutOfRange),
      Check(!AtLeast(r.topK, 0), TopKOutOfRange),
      Check(!Within(r.frequencyPenalty, -2.0, 2.0), FrequencyPenaltyOutOfRange),
      Check(!Within(r.presencePenalty, -2.0, 2.0), PresencePenaltyOutOfRange),
      Check(!Within(r.repetitionPenalty, 0.0, 2.0), RepetitionPenaltyOutOfRange) ]
  }

  /** Run a list of checks in order and report the first that fires. */
  function FirstFailure(cs: seq<Check>): Outcome<Error>
  {
    if cs == [] then Pass
    else if cs[0].violated then Fail(cs[0].error)
    else FirstFailure(cs[1..])
  }

  /** None of the first k checks fires. */
  predicate PassesBefore(cs: seq<Check>, k: int)
  {
    forall j | 0 <= j < k && j < |cs| :: !cs[j].violated
  }

  /** If check k is the first to fire, its error is the one reported. */
  lemma {:induction false} FirstFailureAt(cs: seq<Check>, k: int)
    requires 0 <= k < |cs| && PassesBefore(cs, k) && cs[k].violated
    ensures FirstFailure(cs) == Fail(cs[k].error)
  {
    if k > 0 {
      assert !cs[0].violated;
      assert PassesBefore(cs[1..], k - 1) by {
        forall j | 0 <= j < k - 1 ensures !cs[1..][j].violated {
          assert cs[1..][j] == cs[j + 1];
        }
      }
      FirstFailureAt(cs[1..], k - 1);
    }
  }

  /** The checks pass exactly when none of them fires. */
  lemma {:induction false} FirstFailurePass(cs: seq<Check>)
    ensures FirstFailure(cs) == Pass <==> PassesBefore(cs, |cs|)
  {
    if cs != [] {
      FirstFailurePass(cs[1..]);
      if !cs[0].violated {
        assert PassesBefore(cs[1..], |cs| - 1) <==> PassesBefore(cs, |cs|) by {
          forall j | 0 <= j < |cs| - 1 ensures cs[1..][j] == cs[j + 1] { }
        }
      }
    }
  }

  /** A reported error is that of a check which fires after all earlier ones passed. */
  lemma {:induction false} FirstFailureFail(cs: seq<Check>)
    requires FirstFailure(cs).Fail?
    ensures exists k :: 0 <= k < |cs| && PassesBefore(cs, k) && cs[k].violated && cs[k].error == FirstFailure(cs).error
  {
    if !cs[0].violated {
      FirstFailureFail(cs[1..]);
      var k :| 0 <= k < |cs[1..]| && PassesBefore(cs[1..], k) && cs[1..][k].violated && cs[1..][k].error == FirstFailure(cs[1..]).error;
      assert PassesBefore(cs, k + 1) by {
        forall j | 0 <= j < k + 1 ensures !cs[j].violated {
          if j > 0 { assert cs[j] == cs[1..][j - 1]; }
        }
      }
    } else {
      assert PassesBefore(cs, 0);
    }
  }

  /** `validate` is exactly "the first failing check of the table wins". */
  lemma ValidateFollowsCheckOrder(r: CompletionsRequest)
    ensures Validate(r) == FirstFailure(Checks(r))
  {
    var cs := Checks(r);
    if FirstFailure(cs).Fail? {
      FirstFailureFail(cs);
      var k :| 0 <= k < |cs| && PassesBefore(cs, k) && cs[k].violated && cs[k].error == FirstFailure(cs).error;
      // Name each check before k so that PassesBefore is applied to it.
      assert (k <= 0 || !cs[0].violated) && (k <= 1 || !cs[1].violated) && (k <= 2 || !cs[2].violated) && (k <= 3 || !cs[3].violated)
        && (k <= 4 || !cs[4].violated) && (k <= 5 || !cs[5].violated) && (k <= 6 || !cs[6].violated)
        && (k <= 7 || !cs[7].violated);
    } else {
      FirstFailurePass(cs);
      assert !cs[0].violated && !cs[1].violated && !cs[2].violated && !cs[3].violated && !cs[4].violated && !cs[5].violated && !cs[6].violated && !cs[7].violated && !cs[8].violated;
    }
  }

  /** A check that passes after every earlier one passed reports its own error exactly when it fires. */
  lemma ValidateAtCheck(r: CompletionsRequest, k: int)
    requires 0 <= k < 9 && PassesBefore(Checks(r), k)
    ensures Validate(r) == Fail(Checks(r)[k].error) <==> Checks(r)[k].violated
  {
    var cs := Checks(r);
    ValidateFollowsCheckOrder(r);
    if cs[k].violated {
      FirstFailureAt(cs, k);
    } else if FirstFailure(cs).Fail? {
      FirstFailureFail(cs);
      var j :| 0 <= j < |cs| && PassesBefore(cs, j) && cs[j].violated && cs[j].error == FirstFailure(cs).error;
      assert k < j;
    }
  }

  /** The cross-field error is reported exactly when all four of its conditions hold (and a prompt is given). */
  lemma OpenAIOnlyErrorConditions(r: CompletionsRequest)
    ensures Validate(r) == Fail(ParameterOnlyForOpenAIModels) <==>
      && r.prompt != ""
      && r.responseFormat.Some?
      && r.seed.Some?
      && r.model.Some?
      && !HasPrefix(r.model.value, OpenAIPrefix)
  {
  }

  /**
   * As written, a request setting only one of response format and seed
   * never gets the cross-field error, whatever its model.
   */
  lemma FormatOrSeedAloneIsNotRestricted(r: CompletionsRequest)
    requires r.responseFormat.None? || r.seed.None?
    ensures Validate(r) != Fail(ParameterOnlyForOpenAIModels)
  {
  }

  /** A set max-token value below 1 is refused; any value of at least 1 passes this check. */
  lemma MaxTokenLowerBound(r: CompletionsRequest)
    requires PassesBefore(Checks(r), 2)
    ensures Validate(r) == Fail(MaxTokenOutOfRange) <==> r.maxToken.Some? && r.maxToken.value < 1
  {
    ValidateAtCheck(r, 2);
  }

  /** The temperature check accepts exactly the closed interval [0, 2]. */
  lemma TemperatureRange(r: CompletionsRequest)
    requires PassesBefore(Checks(r), 3)
    ensures Validate(r) != Fail(TemperatureOutOfRange) <==> (r.temperature.Some? ==> 0.0 <= r.temperature.value <= 2.0)
  {
    ValidateAtCheck(r, 3);
  }

  /** The top-p check accepts exactly the closed interval [0, 1]. */
  lemma TopPRange(r: CompletionsRequest)
    requires PassesBefore(Checks(r), 4)
    ensures Validate(r) != Fail(TopPOutOfRange) <==> (r.topP.Some? ==> 0.0 <= r.topP.value <= 1.0)
  {
    ValidateAtCheck(r, 4);
  }

  /** Top-k is refused only when negative; 0 is accepted. */
  lemma TopKLowerBound(r: CompletionsRequest)
    requires PassesBefore(Checks(r), 5)
    ensures Validate(r) != Fail(TopKOutOfRange) <==> (r.topK.Some? ==> 0 <= r.topK.value)
  {
    ValidateAtCheck(r, 5);
  }

  /** Top-k is not refused for an OpenAI model, although its field comment says it is unavailable there. */
  lemma TopKAllowedForOpenAIModels(r: CompletionsRequest)
    requires r.model.Some? && HasPrefix(r.model.value, OpenAIPrefix)
    requires r.topK.Some? && 0 <= r.topK.value
    ensures Validate(r) != Fail(TopKOutOfRange)
  {
  }

  /** The frequency-penalty check accepts exactly the closed interval [-2, 2]. */
  lemma FrequencyPenaltyRange(r: CompletionsRequest)
    requires PassesBefore(Checks(r), 6)
    ensures Validate(r) != Fail(FrequencyPenaltyOutOfRange) <==> (r.frequencyPenalty.Some? ==> -2.0 <= r.frequencyPenalty.value <= 2.0)
  {
    ValidateAtCheck(r, 6);
  }

  /** The presence-penalty check accepts exactly the closed interval [-2, 2]. */
  lemma PresencePenaltyRange(r: CompletionsRequest)
    requires PassesBefore(Checks(r), 7)
    ensures Validate(r) != Fail(PresencePenaltyOutOfRange) <==> (r.presencePenalty.Some? ==> -2.0 <= r.presencePenalty.value <= 2.0)
  {
    ValidateAtCheck(r, 7);
  }

  /** The repetition-penalty check accepts exactly the closed interval [0, 2]. */
  lemma RepetitionPenaltyRange(r: CompletionsRequest)
    requires PassesBefore(Checks(r), 8)
    ensures Validate(r) != Fail(RepetitionPenaltyOutOfRange) <==> (r.repetitionPenalty.Some? ==> 0.0 <= r.repetitionPenalty.value <= 2.0)
  {
    ValidateAtCheck(r, 8);
  }

  /** A later error is never reported while an earlier check fires: an empty prompt hides a bad temperature. */
  lemma EarlierCheckWins(r: CompletionsRequest, i: int, k: int)
    requires 0 <= i < k < 9 && Checks(r)[i].violated
    ensures Validate(r) != Fail(Checks(r)[k].error)
  {
  }

  /** A non-empty prompt with every optional field absent is valid. */
  lemma PromptOnlyIsValid(prompt: string)
    requires prompt != ""
    ensures Validate(PromptOnly(prompt)) == Pass
  {
  }

  // ---------------------------------------------------------------------
  // Building the request
  // ---------------------------------------------------------------------

  const CompletionsPath: string := "/api/v1/chat/completions"

  /**
   * What `Completions` hands to `http.NewRequestWithContext` and then
   * fills in: the method, the URL, the headers, and the request whose
   * JSON encoding becomes the body.
   */
  datatype HttpRequest = HttpRequest(httpMethod: string, url: string, header: Header, body: CompletionsRequest)

  /** The header names `Completions` sets, in the form `Header.Set` stores them. */
  lemma CanonicalRequestHeaderNames()
    ensures CanonicalKey("Content-Type") == "Content-Type"
    ensures CanonicalKey("Authorization") == "Authorization"
    ensures CanonicalKey("HTTP-Referer") == "Http-Referer"
    ensures CanonicalKey("X-Title") == "X-Title"
  {
    CanonicalContentType();
    CanonicalAuthorization();
    CanonicalReferer();
    CanonicalTitle();
  }

  lemma CanonicalContentType()
    ensures CanonicalKey("Content-Type") == "Content-Type"
  {
    CanonicalKeyOf("Content-Type", "Content-Type");
  }

  lemma CanonicalAuthorization()
    ensures CanonicalKey("Authorization") == "Authorization"
  {
    CanonicalKeyOf("Authorization", "Authorization");
  }

  /** Go stores this name with only its first letter capitalised. */
  lemma CanonicalReferer()
    ensures CanonicalKey("HTTP-Referer") == "Http-Referer"
  {
    CanonicalKeyOf("HTTP-Referer", "Http-Referer");
  }

  lemma CanonicalTitle()
    ensures CanonicalKey("X-Title") == "X-Title"
  {
    CanonicalKeyOf("X-Title", "X-Title");
  }

  /**
   * The header set of a completions request: content type and bearer
   * authorisation always, the attribution headers when configured.
   */
  function RequestHeader(c: Client): Header
  {
    map["Content-Type" := ["application/json"], "Authorization" := ["Bearer " + c.apiKey]]
    + (if c.appURL != "" then map["Http-Referer" := [c.appURL]] else map[])
    + (if c.appName != "" then map["X-Title" := [c.appName]] else map[])
  }

  /** Content type and bearer authorisation are always present, each with its one value. */
  lemma RequestHeaderRequired(c: Client)
    ensures Values(RequestHeader(c), "Content-Type") == ["application/json"]
    ensures Values(RequestHeader(c), "Authorization") == ["Bearer " + c.apiKey]
  {
    CanonicalRequestHeaderNames();
  }

  /** `HTTP-Referer` is present exactly when an app URL is configured, and then holds it. */
  lemma RequestHeaderReferer(c: Client)
    ensures Has(RequestHeader(c), "HTTP-Referer") <==> c.appURL != ""
    ensures c.appURL != "" ==> Values(RequestHeader(c), "HTTP-Referer") == [c.appURL]
  {
    CanonicalRequestHeaderNames();
  }

  /** `X-Title` is present exactly when an app name is configured, and then holds it. */
  lemma RequestHeaderTitle(c: Client)
    ensures Has(RequestHeader(c), "X-Title") <==> c.appName != ""
    ensures c.appName != "" ==> Values(RequestHeader(c), "X-Title") == [c.appName]
  {
    CanonicalRequestHeaderNames();
  }

  /** The stored header names are exactly the two fixed ones plus the configured attribution ones. */
  lemma RequestHeaderNames(c: Client)
    ensures RequestHeader(c).Keys ==
      {"Content-Type", "Authorization"}
      + (if c.appURL != "" then {"Http-Referer"} else {})
      + (if c.appName != "" then {"X-Title"} else {})
  {
  }

  /**
   * `Completions` up to dispatch: validate, then build the URL and set the
   * headers one by one on the request.
   */
  method Completions(c: Client, req: CompletionsRequest) returns (r: Result<HttpRequest, Error>)
    ensures r.Failure? <==> Validate(req).Fail?
    ensures r.Failure? ==> r.error == Validate(req).error
    ensures r.Success? ==> r.value == HttpRequest("POST", c.baseURL + CompletionsPath, RequestHeader(c), req)
  {
    var err := Validate(req);
    if err.Fail? {
      return Failure(err.error);
    }
    var reqURL := c.baseURL + CompletionsPath;
    var header: Header := map[];
    header := Set(header, "Content-Type", "application/json");
    header := Set(header, "Authorization", "Bearer " + c.apiKey);
    if c.appURL != "" {
      header := Set(header, "HTTP-Referer", c.appURL);
    }
    if c.appName != "" {
      header := Set(header, "X-Title", c.appName);
    }
    CanonicalRequestHeaderNames();
    r := Success(HttpRequest("POST", reqURL, header, req));
  }
}
