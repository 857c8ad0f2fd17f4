/**
 * The client page: the star rating drawn for each axis score, the
 * persona-icon lookup, the closing-remark fallback, and the four state cells
 * that `handleAnalysis` and `handleReset` update.
 *
 * `fetch` and `JSON.parse` are not visible here: the server's reply is a
 * `FetchOutcome`, and each `JSON.parse` is a function parameter that either
 * yields a value or raises a `SyntaxError` with some message.
 */
module HomePage {
  import opened Wrappers
  import opened BraceSpan
  import EvaluateRoute

  const BLANK_INPUT_MESSAGE: string := "テキストを入力してください。"
  const SERVER_ERROR_FALLBACK: string := "分析中にサーバーエラーが発生しました。"
  const MALFORMED_REPLY_MESSAGE: string := "AIからの返答形式が不正です。"
  const DEFAULT_CLOSING_REMARK: string := "おぬしの言葉、しかと見届けたぞ。その挑戦、まことに見事じゃ！"

  // ---------------------------------------------------------------------------
  // Star rating

  /** JavaScript's `a % 20`: the remainder takes the sign of `a`. */
  function JsRemainder20(a: int): (r: int)
    ensures -20 < r < 20
    ensures a >= 0 ==> r >= 0
    ensures a <= 0 ==> r <= 0
    ensures (a - r) % 20 == 0
  {
    if a >= 0 then a % 20 else -((-a) % 20)
  }

  /** How many full, half and empty stars `StarRating` draws. */
  datatype StarCounts = StarCounts(full: int, half: int, empty: int)

  /** The counts of `StarRating` for an integer score out of 100. */
  function CountStars(score: int): (c: StarCounts)
    ensures c.full * 20 <= score < c.full * 20 + 20
    ensures c.half == 0 || c.half == 1
    ensures c.half == 1 <==> score >= 0 && score % 20 >= 10
    ensures c.full + c.half + c.empty == 5
  {
    var full := score / 20;
    var half := if JsRemainder20(score) >= 10 then 1 else 0;
    StarCounts(full, half, 5 - full - half)
  }

  /** On the intended range 0..100 every count is a valid array length; a score of 100 is five full stars. */
  lemma CountsInRange(score: int)
    requires 0 <= score <= 100
    ensures 0 <= CountStars(score).full <= 5 && CountStars(score).empty >= 0
    ensures score == 100 ==> CountStars(score) == StarCounts(5, 0, 0)
  {
  }

  /**
   * A negative score gives a negative full count and a score of 110 or more a
   * negative empty count; `Array(n)` with such an `n` throws.
   */
  lemma CountsOutOfRange(score: int)
    ensures score < 0 ==> CountStars(score).full < 0
    ensures score >= 110 ==> CountStars(score).empty < 0
  {
  }

  /** A higher score never has fewer full stars. */
  lemma FullStarsMonotone(a: int, b: int)
    requires a <= b
    ensures CountStars(a).full <= CountStars(b).full
  {
  }

  datatype Glyph = Full | Half | Empty

  /**
   * The row of stars `StarRating` renders, or `None` when `[...Array(n)]`
   * throws a `RangeError` on a negative count.
   */
  function RenderStars(score: int): (r: Option<seq<Glyph>>)
    ensures r.Some? <==> 0 <= score < 110
    ensures r.Some? ==> |r.value| == 5
    ensures r.Some? ==> forall k :: 0 <= k < 5 ==>
      (r.value[k] == Full <==> 20 * k + 20 <= score) &&
      (r.value[k] == Half <==> 20 * k + 10 <= score < 20 * k + 20)
  {
    var c := CountStars(score);
    if c.full < 0 || c.empty < 0 then None
    else Some(seq(c.full, _ => Full) + seq(c.half, _ => Half) + seq(c.empty, _ => Empty))
  }

  // ---------------------------------------------------------------------------
  // Blank input

  /** The characters `String.prototype.trim` removes: white space and line terminators. */
  predicate IsJsWhitespace(c: char)
  {
    c == ' ' || c == '\t' || c == '\n' || c == '\r' || c == '\U{B}' || c == '\U{C}'
    || c == '\U{A0}' || c == '\U{1680}' || ('\U{2000}' <= c <= '\U{200A}')
    || c == '\U{2028}' || c == '\U{2029}' || c == '\U{202F}' || c == '\U{205F}'
    || c == '\U{3000}' || c == '\U{FEFF}'
  }

  /** `s` without its leading white space. */
  function TrimStart(s: string): string
  {
    if |s| > 0 && IsJsWhitespace(s[0]) then TrimStart(s[1..]) else s
  }

  /** `s` without its trailing white space. */
  function TrimEnd(s: string): string
  {
    if |s| > 0 && IsJsWhitespace(s[|s| - 1]) then TrimEnd(s[..|s| - 1]) else s
  }

  /** `s.trim()`. */
  function Trim(s: string): string
  {
    TrimEnd(TrimStart(s))
  }

  /** `TrimStart` removes a run of white space from the front, and only that. */
  lemma {:induction false} TrimStartDropsLeadingWhitespace(s: string)
    ensures var r := TrimStart(s);
      |r| <= |s| && r == s[|s| - |r|..]
      && (forall k :: 0 <= k < |s| - |r| ==> IsJsWhitespace(s[k]))
      && (r == [] || !IsJsWhitespace(r[0]))
  {
    if |s| > 0 && IsJsWhitespace(s[0]) {
      TrimStartDropsLeadingWhitespace(s[1..]);
    }
  }

  /** `TrimEnd` removes a run of white space from the back, and only that. */
  lemma {:induction false} TrimEndDropsTrailingWhitespace(s: string)
    ensures var r := TrimEnd(s);
      |r| <= |s| && r == s[..|r|]
      && (forall k :: |r| <= k < |s| ==> IsJsWhitespace(s[k]))
      && (r == [] || !IsJsWhitespace(r[|r| - 1]))
  {
    if |s| > 0 && IsJsWhitespace(s[|s| - 1]) {
      TrimEndDropsTrailingWhitespace(s[..|s| - 1]);
    }
  }

  /** `!s.trim()` holds exactly for the strings made only of white space (the empty one included). */
  lemma TrimEmptyIff(s: string)
    ensures Trim(s) == "" <==> forall k :: 0 <= k < |s| ==> IsJsWhitespace(s[k])
  {
    TrimStartDropsLeadingWhitespace(s);
    TrimEndDropsTrailingWhitespace(TrimStart(s));
  }

  /** The client refuses a blank text that the server would have sent to the model. */
  lemma BlankTextRejectedOnlyByClient()
    ensures Trim(" ") == ""
    ensures EvaluateRoute.Respond(Some(" "), EvaluateRoute.ProviderFailed).status != 400
  {
    TrimEmptyIff(" ");
  }

  // ---------------------------------------------------------------------------
  // The result and how it is shown

  datatype AxisComment = AxisComment(evaluationComment: string, improvementComment: string)
  /** One value per evaluation axis: MVI, CSI, RES, ARC. */
  datatype Axes<T> = Axes(mvi: T, csi: T, res: T, arc: T)
  datatype CouncilComment = CouncilComment(name: string, comment: string)
  datatype AnalysisResult = AnalysisResult(
    overallScore: int,
    summary: string,
    axes: Axes<int>,
    axesComments: Option<Axes<AxisComment>>,
    councilComments: seq<CouncilComment>,
    homeSenninComment: Option<string>)

  /** A persona of the council of eleven. */
  datatype Member = Member(icon: string, name: string, title: string)

  const COUNCIL: seq<Member> := [
    Member("👑", "オリジン君", "本質の探求者"),
    Member("💡", "インサイト君", "直感の先駆者"),
    Member("⚪️", "ストラテジスト君", "論理の設計者"),
    Member("💎", "サポーター君", "チームの支援者"),
    Member("⚫️", "リスクチェッカー君", "厳格な監査役"),
    Member("🟢", "バランサー君", "最適化の調停者"),
    Member("🟠", "パフォーマー君", "情熱の伝道師"),
    Member("🟡", "アナリスト君", "データの分析官"),
    Member("🌙", "インタープリター君", "意図の翻訳家"),
    Member("🪨", "リアリスト君", "現実の実行官"),
    Member("🌀", "クエスチョナー君", "常識への挑戦者")
  ]

  /** Position of the first member called `name`, or `|members|` when there is none. */
  function FindMember(members: seq<Member>, name: string): (k: nat)
    ensures k <= |members|
    ensures k < |members| ==> members[k].name == name
    ensures forall j :: 0 <= j < k ==> members[j].name != name
  {
    if |members| == 0 then 0
    else if members[0].name == name then 0
    else 1 + FindMember(members[1..], name)
  }

  /** `members.find(m => m.name === name)?.icon`. */
  function IconFor(members: seq<Member>, name: string): (r: Option<string>)
    ensures r.None? <==> forall k :: 0 <= k < |members| ==> members[k].name != name
    ensures r.Some? ==>
      exists k :: (0 <= k < |members| && members[k].name == name && r.value == members[k].icon
        && forall j :: 0 <= j < k ==> members[j].name != name)
  {
    var k := FindMember(members, name);
    if k < |members| then Some(members[k].icon) else None
  }

  /** Every persona of the council is found by its own name and shown with its own icon. */
  lemma CouncilIconsResolve(k: nat)
    requires k < |COUNCIL|
    ensures IconFor(COUNCIL, COUNCIL[k].name) == Some(COUNCIL[k].icon)
  {
    assert forall i, j :: 0 <= i < j < |COUNCIL| ==> COUNCIL[i].name != COUNCIL[j].name;
  }

  /** `homeSenninComment || default`: the closing remark shown is never empty. */
  function ClosingRemark(comment: Option<string>): (r: string)
    ensures r != ""
    ensures comment.Some? && comment.value != "" ==> r == comment.value
    ensures r != DEFAULT_CLOSING_REMARK ==> comment == Some(r)
  {
    if comment.Some? && comment.value != "" then comment.value else DEFAULT_CLOSING_REMARK
  }

  // ---------------------------------------------------------------------------
  // One analysis request seen from the client

  /** What a `JSON.parse` call did: a value, or a `SyntaxError` with its message. */
  datatype Parsed<T> = Parsed(value: T) | SyntaxError(message: string)

  /** What `fetch('/api/evaluate')` gave: a rejected promise, or a reply with `response.ok` and its body text. */
  datatype FetchOutcome = NetworkError(message: string) | HttpReply(ok: bool, body: string)

  /** How the `try` block ends: with the parsed result, or with the message of what it threw. */
  datatype AnalysisOutcome = Loaded(data: AnalysisResult) | Failed(message: string)

  /**
   * Lines 80-88 of the handler: a non-ok reply fails with the server's
   * `error` field (or a fallback), an ok reply without a brace span fails
   * as malformed, and otherwise the span is parsed.
   * `readError` is `(await response.json()).error`; `parse` is `JSON.parse`.
   */
  function ClientOutcome(reply: FetchOutcome, readError: string -> Parsed<Option<string>>,
                         parse: string -> Parsed<AnalysisResult>): (o: AnalysisOutcome)
    ensures o.Loaded? <==>
      (reply.HttpReply? && reply.ok && ContainsBracePair(reply.body)
        && parse(ExtractBraceSpan(reply.body).value).Parsed?)
    ensures o.Loaded? ==> o.data == parse(ExtractBraceSpan(reply.body).value).value
    ensures reply.HttpReply? && reply.ok && !ContainsBracePair(reply.body) ==> o == Failed(MALFORMED_REPLY_MESSAGE)
    ensures reply.HttpReply? && !reply.ok && readError(reply.body).Parsed? ==>
      o.Failed? && o.message != "" &&
      (o.message == SERVER_ERROR_FALLBACK || readError(reply.body).value == Some(o.message))
    ensures (reply.HttpReply? && !reply.ok && readError(reply.body).Parsed?
             && readError(reply.body).value.Some? && readError(reply.body).value.value != "") ==>
      o == Failed(readError(reply.body).value.value)
    ensures (reply.HttpReply? && !reply.ok && readError(reply.body).Parsed?
             && (readError(reply.body).value.None? || readError(reply.body).value.value == "")) ==>
      o == Failed(SERVER_ERROR_FALLBACK)
    ensures reply.NetworkError? ==> o == Failed(reply.message)
    ensures reply.HttpReply? && !reply.ok && readError(reply.body).SyntaxError? ==>
      o == Failed(readError(reply.body).message)
    ensures (reply.HttpReply? && reply.ok && ContainsBracePair(reply.body)
             && parse(ExtractBraceSpan(reply.body).value).SyntaxError?) ==>
      o == Failed(parse(ExtractBraceSpan(reply.body).value).message)
  {
    match reply
    case NetworkError(message) => Failed(message)
    case HttpReply(ok, body) =>
      if !ok then
        match readError(body)
        case SyntaxError(message) => Failed(message)
        case Parsed(field) =>
          Failed(if field.Some? && field.value != "" then field.value else SERVER_ERROR_FALLBACK)
      else
        match ExtractBraceSpan(body)
        case None => Failed(MALFORMED_REPLY_MESSAGE)
        case Some(span) =>
          match parse(span)
          case SyntaxError(message) => Failed(message)
          case Parsed(data) => Loaded(data)
  }

  /**
   * The client's second extraction changes nothing: a 200 from the evaluate
   * route is parsed exactly as the server cut it.
   */
  lemma ClientParsesServerSpan(inputText: Option<string>, text: string, json: string,
                               readError: string -> Parsed<Option<string>>, parse: string -> Parsed<AnalysisResult>)
    requires EvaluateRoute.Respond(inputText, EvaluateRoute.Completed(text)) ==
      EvaluateRoute.Response(200, EvaluateRoute.Raw(json), true)
    ensures ClientOutcome(HttpReply(true, json), readError, parse) ==
      (match parse(json) case Parsed(d) => Loaded(d) case SyntaxError(m) => Failed(m))
  {
    ExtractIdempotent(text);
  }

  // ---------------------------------------------------------------------------
  // The page's state

  /** The four `useState` cells of the page. */
  class Home {
    var inputText: string
    var isLoading: bool
    var result: Option<AnalysisResult>
    var error: string
    /** The texts posted to the evaluate route so far, oldest first. */
    ghost var requests: seq<string>

    constructor ()
      ensures inputText == "" && !isLoading && result == None && error == "" && requests == []
    {
      inputText, isLoading, result, error := "", false, None, "";
      requests := [];
    }

    /** The text area's `onChange`. */
    method SetInputText(text: string)
      modifies this
      ensures inputText == text
      ensures isLoading == old(isLoading) && result == old(result) && error == old(error)
      ensures requests == old(requests)
    {
      inputText := text;
    }

    /**
     * Lines 77-78: a blank text only sets the error; otherwise the loading
     * state begins and the text is posted.
     */
    method StartAnalysis() returns (posted: Option<string>)
      modifies this
      ensures posted.None? <==> Trim(old(inputText)) == ""
      ensures inputText == old(inputText)
      ensures posted.None? ==>
        error == BLANK_INPUT_MESSAGE && isLoading == old(isLoading) && result == old(result)
        && requests == old(requests)
      ensures posted.Some? ==>
        posted.value == inputText && isLoading && error == "" && result == None
        && requests == old(requests) + [inputText]
    {
      if Trim(inputText) == "" {
        error := BLANK_INPUT_MESSAGE;
        posted := None;
      } else {
        isLoading, error, result := true, "", None;
        requests := requests + [inputText];
        posted := Some(inputText);
      }
    }

    /** Lines 79-89: the reply is taken in, and loading ends whatever happened. */
    method FinishAnalysis(reply: FetchOutcome, readError: string -> Parsed<Option<string>>,
                          parse: string -> Parsed<AnalysisResult>)
      modifies this
      ensures !isLoading && inputText == old(inputText) && requests == old(requests)
      ensures ClientOutcome(reply, readError, parse).Loaded? ==>
        result == Some(ClientOutcome(reply, readError, parse).data) && error == old(error)
      ensures ClientOutcome(reply, readError, parse).Failed? ==>
        result == old(result) && error == ClientOutcome(reply, readError, parse).message
    {
      match ClientOutcome(reply, readError, parse) {
        case Loaded(data) => result := Some(data);
        case Failed(message) => error := message;
      }
      isLoading := false;
    }

    /**
     * `handleAnalysis` run to completion, with the server as a function of
     * the posted text: a blank text posts nothing and only sets the error;
     * any other text is posted once, and the page ends idle with either the
     * result and no error or the error and no result.
     */
    method HandleAnalysis(server: string -> FetchOutcome, readError: string -> Parsed<Option<string>>,
                          parse: string -> Parsed<AnalysisResult>)
      modifies this
      ensures inputText == old(inputText)
      ensures Trim(old(inputText)) == "" ==>
        error == BLANK_INPUT_MESSAGE && isLoading == old(isLoading) && result == old(result)
        && requests == old(requests)
      ensures Trim(old(inputText)) != "" ==> !isLoading && requests == old(requests) + [inputText]
      ensures Trim(old(inputText)) != "" && ClientOutcome(server(inputText), readError, parse).Loaded? ==>
        result == Some(ClientOutcome(server(inputText), readError, parse).data) && error == ""
      ensures Trim(old(inputText)) != "" && ClientOutcome(server(inputText), readError, parse).Failed? ==>
        result == None && error == ClientOutcome(server(inputText), readError, parse).message
    {
      var posted := StartAnalysis();
      if posted.Some? {
        FinishAnalysis(server(posted.value), readError, parse);
      }
    }

    /** `handleReset`: clears the result, the text and the error; loading is left as it was. */
    method HandleReset()
      modifies this
      ensures result == None && inputText == "" && error == ""
      ensures isLoading == old(isLoading) && requests == old(requests)
    {
      result := None;
      inputText := "";
      error := "";
    }
  }
}
