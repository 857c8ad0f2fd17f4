# MPA evaluation system: request mediation, modelled in Dafny

The application sends free-form text to a language model and shows a
multi-axis evaluation of it. This project models three small pieces that
stand between the user, the model and the page:

- the `POST /api/evaluate` handler (`EvaluateRoute`, with the brace-span
  extractor in `BraceSpan`): reject a missing or empty input with 400, embed
  the input verbatim between a fixed prompt prefix and suffix, and turn the
  model's text into 200 (the span from the first `{` to the last `}`,
  returned without parsing), 500 "malformed" (no such span) or 500
  "provider failure";
- the client page (`HomePage`): the star counts drawn from a score, the
  blank-input check with `trim`, the second brace-span extraction and
  `JSON.parse` of the reply, the persona-icon lookup, the closing-remark
  fallback, and the four state cells `inputText`, `isLoading`, `result`,
  `error` as the class `HomePage.Home`;
- the HTTP Basic gate (`BasicGate`): a decision on the `authorization`
  header alone, following section 2 of RFC 7617 with the departures the
  code makes (a case-sensitive scheme check, a pass-through for any other
  scheme, a password cut at a second colon, an exception on a bare `Basic`).

The code embeds the input with no sanitising and returns the model's span
without checking it is JSON or has the result's shape; the model follows
the code in both. The server rejects only an absent or empty input: a
blank input is sent to the model, and only the client refuses it.

Foreign calls are parameters: the model call is a `ModelOutcome` (or a
function from prompt to outcome), Base64 decoding is `decode: string ->
string`, `fetch` is a `FetchOutcome` (or a function of the posted text), and
each `JSON.parse` is a function returning a value or a `SyntaxError`.

## Model

| member | source | states |
|---|---|---|
| `BraceSpan.ExtractBraceSpan` | app/api/evaluate/route.ts:88 | a span exists exactly when some `{` is followed later by a `}`; a span starts with `{`, ends with `}` and has at least two characters |
| `BraceSpan.ExtractIsLeftmostLongestMatch` | app/api/evaluate/route.ts:88 | the result is what `/\{[\s\S]*\}/` matches: no result iff no match exists; otherwise the leftmost match, and the longest at that position |
| `BraceSpan.SpanSplitsText` | app/api/evaluate/route.ts:88-96 | the span begins at the first `{`, occurs there verbatim, and the text before it has no `{` and the text after it has no `}` |
| `BraceSpan.BracedTextIsItsOwnSpan` | app/api/evaluate/route.ts:88 | a text that starts with `{` and ends with `}` is returned unchanged |
| `BraceSpan.ExtractIdempotent` | app/page.tsx:83 | extracting again from a span gives the same span |
| `EvaluateRoute.Present` | app/api/evaluate/route.ts:16 | the input is truthy: present and not `""`; a blank string counts as present |
| `EvaluateRoute.Compose` | app/api/evaluate/route.ts:26-79 | the prompt is the fixed prefix, then the input verbatim, then the fixed suffix |
| `EvaluateRoute.ComposeInjective` | app/api/evaluate/route.ts:26-79 | equal prompts come from equal inputs: nothing of the input is dropped |
| `EvaluateRoute.Classify` | app/api/evaluate/route.ts:16-106 | empty input iff the input is absent or `""`; provider error iff input present and the call failed; malformed iff the text has no `{`…`}` pair; success otherwise, carrying the extracted span |
| `EvaluateRoute.Render` | app/api/evaluate/route.ts:16-106 | 200 with the JSON content type only for success and with the span as body; 400 only for empty input; 500 for the two failures |
| `EvaluateRoute.RenderDistinguishesVerdicts` | app/api/evaluate/route.ts:90-106 | different outcomes give different responses; the two 500s carry different messages |
| `EvaluateRoute.Respond` | app/api/evaluate/route.ts:10-107 | status is 200, 400 or 500; 400 with "テキストが入力されていません。" iff the input is falsy; the provider message iff the call failed; the malformed message iff no brace pair; 200 iff JSON content type, with the body equal to the extracted span |
| `EvaluateRoute.Post` | app/api/evaluate/route.ts:10-107 | the model is asked exactly when the input is present, once, with the composed prompt, and the response follows from its outcome |
| `EvaluateRoute.RejectedInputIgnoresModel` | app/api/evaluate/route.ts:16-18 | a rejected input gets a 400 that does not depend on the model |
| `EvaluateRoute.BlankInputIsSent` | app/api/evaluate/route.ts:16-18 | a whitespace-only input is not rejected by the server and reaches the model |
| `BasicGate.Split` | middleware.ts:18 | `split` yields at least one field, exactly one iff the separator is absent, and no field holds the separator |
| `BasicGate.JoinSplit` | middleware.ts:18 | joining the fields of a split gives the original string back |
| `BasicGate.SplitAtFirst` | middleware.ts:18 | the first field runs to the first separator, and the rest is the split of what follows |
| `BasicGate.CredentialsMatch` | middleware.ts:23-25 | the first two `:`-fields of the decoded text are `YOKO` and `TOMOSAN`; characterised by `CredentialsMatchIff` |
| `BasicGate.CredentialsMatchIff` | middleware.ts:23-25 | the credentials match iff the decoded text is `YOKO:TOMOSAN` or starts with `YOKO:TOMOSAN:` |
| `BasicGate.Decide` | middleware.ts:5-30 | a challenge iff the header is absent or empty; a refusal only with a second token whose decoded credentials do not match |
| `BasicGate.Respond` | middleware.ts:11-29 | a missing header gets 401 `Auth Required` with `WWW-Authenticate: Basic realm="protected"`; bad credentials get 401 `Unauthorized` with no challenge; the request continues iff the decision is Pass; a throw is an uncaught error |
| `BasicGate.ThrowsExactlyOnBareBasic` | middleware.ts:18-22 | the gate throws exactly for the header `Basic` with no space |
| `BasicGate.OtherSchemePasses` | middleware.ts:18-19 | any first token other than exactly `Basic` (`basic`, `Bearer`) passes without a credential check |
| `BasicGate.BasicTokens` | middleware.ts:18 | a `Basic <encoded> ...` header splits into `Basic`, then the credentials token |
| `BasicGate.BasicPassesIffCredentialsMatch` | middleware.ts:22-29 | with the `Basic` scheme the request passes iff the decoded credentials match, and is refused with 401 otherwise |
| `BasicGate.ExtraTokensIgnored` | middleware.ts:18 | tokens after the second space do not change the decision |
| `BasicGate.PasswordTruncatedAtSecondColon` | middleware.ts:23-25 | `YOKO:TOMOSAN:x` is accepted although RFC 7617 reads its password as `TOMOSAN:x` |
| `BasicGate.WrittenGateBypassedWithoutCredentials` | middleware.ts:18-19 | with a decoder that never yields the credentials, a `Bearer x` header still passes the gate as written |
| `BasicGate.DecideIntended` | middleware.ts:5-30 | the corrected gate never throws, challenges every non-Basic scheme, and passes exactly on a Basic header (any case) whose credentials match |
| `BasicGate.IntendedGateNeedsCredentials` | middleware.ts:18-29 | the corrected gate lets nothing through when no credentials can be decoded |
| `HomePage.JsRemainder20` | app/page.tsx:58 | JavaScript's `% 20`: below 20 in magnitude, with the sign of the dividend, and differing from it by a multiple of 20 |
| `HomePage.CountStars` | app/page.tsx:57-59 | `full` is the floor of score/20; `half` is 0 or 1, and 1 iff the score is non-negative with remainder at least 10; the three counts sum to 5 |
| `HomePage.CountsInRange` | app/page.tsx:57-65 | on scores 0..100 the full count is in 0..5 and the empty count is not negative; 100 gives 5/0/0 |
| `HomePage.CountsOutOfRange` | app/page.tsx:57-65 | a negative score gives a negative full count; a score of 110 or more gives a negative empty count |
| `HomePage.FullStarsMonotone` | app/page.tsx:57 | the full count never decreases as the score grows |
| `HomePage.RenderStars` | app/page.tsx:61-67 | the row renders iff 0 <= score < 110, has five stars, and star k is full iff score >= 20k+20, half iff 20k+10 <= score < 20k+20 |
| `HomePage.TrimStart` | app/page.tsx:77 | the front half of `.trim()`; characterised by `TrimStartDropsLeadingWhitespace` |
| `HomePage.TrimEnd` | app/page.tsx:77 | the back half of `.trim()`; characterised by `TrimEndDropsTrailingWhitespace` |
| `HomePage.Trim` | app/page.tsx:77 | `.trim()`: empty iff the text is all white space, by `TrimEmptyIff` |
| `HomePage.TrimStartDropsLeadingWhitespace` | app/page.tsx:77 | trimming the front removes a run of white space and nothing else |
| `HomePage.TrimEndDropsTrailingWhitespace` | app/page.tsx:77 | trimming the back removes a run of white space and nothing else |
| `HomePage.TrimEmptyIff` | app/page.tsx:77 | `trim` gives `""` iff every character is white space |
| `HomePage.BlankTextRejectedOnlyByClient` | app/page.tsx:77 | `" "` trims to empty on the client, yet the server does not answer it with 400 |
| `HomePage.FindMember` | app/page.tsx:189 | the position of the first member with the name, or the length when there is none |
| `HomePage.IconFor` | app/page.tsx:189 | no icon iff no member has the name; otherwise the icon of the first member with that name |
| `HomePage.CouncilIconsResolve` | app/page.tsx:189 | every persona of the council of eleven is found by its name and shown with its own icon |
| `HomePage.ClosingRemark` | app/page.tsx:191 | never empty; the model's remark when it is a non-empty string, the fixed default otherwise |
| `HomePage.ClientOutcome` | app/page.tsx:80-88 | loaded iff the reply is ok, has a brace span and the span parses, with the parsed value; an ok reply without a span fails as malformed; a non-ok reply fails with the server's `error` when it is a non-empty string and with the fallback otherwise; a rejected fetch, an unreadable error body or a span that does not parse fails with the thrown message |
| `HomePage.ClientParsesServerSpan` | app/page.tsx:83-85 | a 200 from the route is parsed exactly as the server cut it |
| `HomePage.Home.constructor` | app/page.tsx:71-74 | the page starts with empty text, not loading, no result and no error |
| `HomePage.Home.SetInputText` | app/page.tsx:120 | only the text changes |
| `HomePage.Home.StartAnalysis` | app/page.tsx:77-78 | a blank text only sets the error and posts nothing; otherwise the text is posted, loading starts, error and result are cleared |
| `HomePage.Home.FinishAnalysis` | app/page.tsx:79-89 | loading ends whatever happened; a loaded reply sets the result, a failure sets the error and leaves the result |
| `HomePage.Home.HandleAnalysis` | app/page.tsx:76-90 | a blank text posts nothing and only sets the error; any other text is posted once, and the page ends idle with either the result and no error or no result and the error |
| `HomePage.Home.HandleReset` | app/page.tsx:92-97 | result, text and error are cleared; loading is left as it was |

## Findings

| source | as written | input that shows it | evidently intended | confidence | as-written member | corrected member |
|---|---|---|---|---|---|---|
| middleware.ts:18-19 | a first token other than exactly `Basic` returns `NextResponse.next()` with no credential check, and a bare `Basic` header throws | `authorization: Bearer x` (or `basic x`) passes without any valid credentials | challenge every scheme other than Basic (compared without regard to case, as section 2.1 of RFC 7235 asks) and refuse a Basic header without credentials with 401 | not executed; high | `BasicGate.WrittenGateBypassedWithoutCredentials` | `BasicGate.IntendedGateNeedsCredentials` |

`BasicGate.Decide` models the gate as written; `BasicGate.DecideIntended`
is the corrected decision.

## Left out

- The model call itself (SDK construction, the model name, `generateContent`, `response.text()`): one abstract `ModelOutcome`.
- A failure of `request.json()` (app/api/evaluate/route.ts:13): it is outside the `try` and handled by the framework.
- An `inputText` that is not a string (a number, an object): the input is modelled as an optional string.
- The wording of the prompt: `PROMPT_PREFIX` and `PROMPT_SUFFIX` keep only the headings and the `---` fences around the input; every property proved holds for any fixed prefix and suffix.
- `JSON.stringify` of the error bodies: a body is `ErrorJson(message)`.
- Logging and the reading of the API key from the environment.
- Header normalisation: `BasicGate.Decide` takes the header value as `req.headers.get` returns it, already stripped of leading and trailing white space by the HTTP layer.
- Base64 and UTF-8 decoding in the gate: the parameter `decode`. The framework's reply to the uncaught exception is the outcome `UncaughtError`, not a status.
- The `matcher` configuration of the gate.
- `JSON.parse` and `fetch`: function parameters and `FetchOutcome`. `HomePage.ClientOutcome` folds every way reading the error body can throw (invalid JSON, a `null` body) into one `SyntaxError` with a message. The `'不明なエラーが発生しました。'` fallback for a thrown non-`Error` value is not modelled: every throw on the modelled paths is an `Error`.
- `HomePage.ClientOutcome`: an `error` field that is present but not a string is not modelled (the field is an optional string).
- `HomePage.ClientOutcome`: the value `JSON.parse` returns is assumed to have the declared `AnalysisResult` shape; the client validates nothing (the type annotation at app/page.tsx:85 is unchecked), so a parsed `{}` would be stored and the page would then fail while rendering it; that failure is not modelled.
- `HomePage.ClosingRemark`: `homeSenninComment` is assumed to be absent or a string; any other truthy JSON value would be shown as is, which is not modelled.
- Fractional scores: `CountStars` and `RenderStars` take integer scores. The prompt asks for scores out of 10 with one decimal, while the stars and the page read scores out of 100.
- The JSX markup, CSS, `scrollIntoView` and `window.scrollTo`, and the axis descriptions.
- The interleaving of `handleAnalysis` with other events while the request is in flight: it is modelled as `StartAnalysis`, then the awaited reply, then `FinishAnalysis`.
