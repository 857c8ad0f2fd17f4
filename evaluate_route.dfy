/**
 * The `POST /api/evaluate` handler: it rejects a missing or empty input,
 * embeds the input in the evaluation prompt, asks the model, and hands back
 * the brace span of the model's text without parsing it.
 *
 * The model call (SDK construction, `generateContent`, `response.text()`) is
 * one abstract outcome: the completed text, or a failure of any of those
 * awaited steps, all of which land in the same `catch`.
 */
module EvaluateRoute {
  import opened Wrappers
  import opened BraceSpan

  const EMPTY_INPUT_MESSAGE: string := "テキストが入力されていません。"
  const MALFORMED_OUTPUT_MESSAGE: string := "AIからの返答形式が不正です。"
  const PROVIDER_FAILURE_MESSAGE: string := "AIとの通信中にエラーが発生しました。"

  /** The prompt text before the user's input: the role, the council, the axes, then the opening `---` fence. */
  const PROMPT_PREFIX: string := "\n# MPA評価システムによる評価リクエスト\n## 評価対象の文章\n---\n"
  /** The prompt text after the user's input: the closing `---` fence, then the output-format rules. */
  const PROMPT_SUFFIX: string := "\n---\n## 出力形式（JSON）\n"

  /** What the model call produced. */
  datatype ModelOutcome = Completed(text: string) | ProviderFailed

  /** A response body: `JSON.stringify({ error })`, or a string passed through as is. */
  datatype Body = ErrorJson(message: string) | Raw(text: string)

  /** An HTTP response; `jsonContentType` is the explicit `Content-Type: application/json` header. */
  datatype Response = Response(status: nat, body: Body, jsonContentType: bool)

  /** The four terminal outcomes of one request. */
  datatype Verdict = EmptyInput | ProviderError | MalformedOutput | Success(json: string)

  /** What the model was asked and what the client got back. */
  datatype Exchange = Exchange(prompt: Option<string>, response: Response)

  /** `inputText` is truthy: present and not the empty string (blank text is truthy). */
  predicate Present(inputText: Option<string>)
  {
    inputText.Some? && inputText.value != ""
  }

  /** The prompt: the fixed prefix, the input verbatim with nothing removed or escaped, the fixed suffix. */
  function Compose(inputText: string): (prompt: string)
    ensures |prompt| == |PROMPT_PREFIX| + |inputText| + |PROMPT_SUFFIX|
    ensures prompt[..|PROMPT_PREFIX|] == PROMPT_PREFIX
    ensures prompt[|PROMPT_PREFIX|..|PROMPT_PREFIX| + |inputText|] == inputText
    ensures prompt[|PROMPT_PREFIX| + |inputText|..] == PROMPT_SUFFIX
  {
    PROMPT_PREFIX + inputText + PROMPT_SUFFIX
  }

  /** Different inputs give different prompts: nothing in the input is lost. */
  lemma ComposeInjective(a: string, b: string)
    requires Compose(a) == Compose(b)
    ensures a == b
  {
    assert |a| == |b|;
    assert a == Compose(a)[|PROMPT_PREFIX|..|PROMPT_PREFIX| + |a|];
  }

  /** Which of the four outcomes a request with this input and this model outcome ends in. */
  function Classify(inputText: Option<string>, outcome: ModelOutcome): (v: Verdict)
    ensures v == EmptyInput <==> !Present(inputText)
    ensures v == ProviderError <==> Present(inputText) && outcome.ProviderFailed?
    ensures v == MalformedOutput <==>
      Present(inputText) && outcome.Completed? && !ContainsBracePair(outcome.text)
    ensures v.Success? <==> Present(inputText) && outcome.Completed? && ContainsBracePair(outcome.text)
    ensures v.Success? ==> Some(v.json) == ExtractBraceSpan(outcome.text)
  {
    if !Present(inputText) then EmptyInput
    else match outcome
      case ProviderFailed => ProviderError
      case Completed(text) =>
        match ExtractBraceSpan(text)
        case None => MalformedOutput
        case Some(span) => Success(span)
  }

  /** The HTTP response for each outcome; `new Response(body)` defaults to status 200. */
  function Render(v: Verdict): (r: Response)
    ensures r.status == 200 <==> v.Success?
    ensures r.status == 400 <==> v == EmptyInput
    ensures r.status == 500 <==> v == ProviderError || v == MalformedOutput
    ensures r.jsonContentType <==> v.Success?
    ensures v.Success? ==> r.body == Raw(v.json)
  {
    match v
    case EmptyInput => Response(400, ErrorJson(EMPTY_INPUT_MESSAGE), false)
    case ProviderError => Response(500, ErrorJson(PROVIDER_FAILURE_MESSAGE), false)
    case MalformedOutput => Response(500, ErrorJson(MALFORMED_OUTPUT_MESSAGE), false)
    case Success(json) => Response(200, Raw(json), true)
  }

  /** The client can tell every outcome from the response: the two 500s carry different messages. */
  lemma RenderDistinguishesVerdicts(v1: Verdict, v2: Verdict)
    requires Render(v1) == Render(v2)
    ensures v1 == v2
  {
    assert EMPTY_INPUT_MESSAGE != PROVIDER_FAILURE_MESSAGE;
    assert PROVIDER_FAILURE_MESSAGE != MALFORMED_OUTPUT_MESSAGE;
    assert EMPTY_INPUT_MESSAGE != MALFORMED_OUTPUT_MESSAGE;
  }

  /** The response for an input and the outcome of the model call made for it. */
  function Respond(inputText: Option<string>, outcome: ModelOutcome): (r: Response)
    ensures r.status in {200, 400, 500}
    ensures r.status == 400 <==> !Present(inputText)
    ensures r.status == 400 ==> r.body == ErrorJson(EMPTY_INPUT_MESSAGE)
    ensures r.body == ErrorJson(PROVIDER_FAILURE_MESSAGE) <==> Present(inputText) && outcome.ProviderFailed?
    ensures r.body == ErrorJson(MALFORMED_OUTPUT_MESSAGE) <==>
      Present(inputText) && outcome.Completed? && !ContainsBracePair(outcome.text)
    ensures r.status == 200 <==> Present(inputText) && outcome.Completed? && ContainsBracePair(outcome.text)
    ensures r.status == 200 <==> r.jsonContentType
    ensures r.status == 200 ==> outcome.Completed? && r.body.Raw? && ExtractBraceSpan(outcome.text) == Some(r.body.text)
  {
    Render(Classify(inputText, outcome))
  }

  /**
   * The whole handler with the model as a function of the prompt: the model
   * is asked at most once, with the composed prompt, and never for a missing
   * or empty input.
   */
  function Post(inputText: Option<string>, model: string -> ModelOutcome): (x: Exchange)
    ensures x.prompt.None? <==> !Present(inputText)
    ensures x.prompt.Some? ==> x.prompt.value == Compose(inputText.value)
    ensures x.response == Respond(inputText, if x.prompt.Some? then model(x.prompt.value) else ProviderFailed)
  {
    if !Present(inputText) then Exchange(None, Respond(inputText, ProviderFailed))
    else
      var prompt := Compose(inputText.value);
      Exchange(Some(prompt), Respond(inputText, model(prompt)))
  }

  /** A rejected input gets the same 400 whatever the model would have said. */
  lemma RejectedInputIgnoresModel(inputText: Option<string>, m1: string -> ModelOutcome, m2: string -> ModelOutcome)
    requires !Present(inputText)
    ensures Post(inputText, m1) == Post(inputText, m2)
    ensures Post(inputText, m1).response.status == 400
  {
  }

  /** A blank but non-empty input is not rejected: it is sent to the model. */
  lemma BlankInputIsSent(model: string -> ModelOutcome)
    ensures Post(Some(" "), model).prompt == Some(Compose(" "))
  {
  }
}
