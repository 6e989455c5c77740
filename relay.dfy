/** The `analyze-chart` edge function: the request guards, the mapping of the
    AI gateway's status to a response, the extraction of a JSON candidate from
    the model's free-text answer and the fallback when that candidate does not
    parse. The network, the environment and `JSON.parse` are inputs. */
module Relay {
  import opened Common
  import opened JsonValue

  // ---------------------------------------------------------------------------
  // Inputs and outputs

  /** A value thrown inside the handler. Only an `Error` carries a message. */
  datatype Thrown = ErrorValue(message: string) | NonError

  /** The message the outer `catch` puts into its 500 response. */
  function CaughtMessage(t: Thrown): string {
    match t
    case ErrorValue(m) => m
    case NonError => "Unknown error occurred"
  }

  /** What `const { image } = await req.json()` yields. */
  datatype Payload =
    | Unreadable(failure: Thrown)     // the body is not JSON, or is `null`
    | Payload(image: Option<string>)  // the `image` field, absent as None

  datatype Request = Request(verb: string, payload: Payload)

  /** What `(await response.json()).choices[0].message.content` yields. */
  datatype Completion =
    | Malformed(failure: Thrown)  // the body is not JSON or lacks choices[0].message
    | NonText                     // `content` is there but is not a string
    | Content(text: string)

  /** The outcome of the one `fetch` to the AI gateway. */
  datatype Upstream =
    | Unreachable(failure: Thrown)
    | Reply(status: int, completion: Completion)

  /** The CORS headers alone, or the CORS headers with `Content-Type: application/json`. */
  datatype Headers = Cors | CorsJson

  datatype Body = NoBody | JsonBody(value: Json)

  datatype Response = Response(status: int, body: Body, headers: Headers)

  const NoImageMessage := "No image provided"
  const NotConfiguredMessage := "AI service not configured"
  const RateLimitMessage := "Rate limit exceeded. Please try again in a moment."
  const QuotaMessage := "AI service quota exceeded. Please add credits to your workspace."
  const FailedMessage := "Failed to analyze chart"

  function ErrorResponse(status: int, message: string): Response {
    Response(status, JsonBody(ErrorObject(message)), CorsJson)
  }

  /** The result returned when the model's answer does not parse. */
  function Fallback(): Json {
    JObject(map[
      "bias" := JString("ranging"),
      "confidence" := JNumber(0),
      "reasons" := JArray([JString("Unable to parse AI analysis"),
                           JString("Please try uploading a clearer chart image")]),
      "best_move" := JString("Please retry with a different chart image")])
  }

  /** `Response.ok`. */
  predicate IsOk(status: int) {
    200 <= status <= 299
  }

  // ---------------------------------------------------------------------------
  // Index searches

  /** The first index at or after `from` where `pat` occurs. */
  function FindFrom(s: string, pat: string, from: nat): (r: Option<nat>)
    decreases |s| - from
    ensures r.Some? ==> from <= r.value && StartsAt(s, pat, r.value)
    ensures forall j :: from <= j && (r.None? || j < r.value) ==> !StartsAt(s, pat, j)
  {
    if from + |pat| > |s| then None
    else if s[from..from + |pat|] == pat then Some(from)
    else FindFrom(s, pat, from + 1)
  }

  /** The lazy group of the fenced regex may stop at `k`: what follows is
      "\n```" (the optional newline, then the fence) or "```". */
  predicate ClosesAt(s: string, k: nat) {
    StartsAt(s, "\n```", k) || StartsAt(s, "```", k)
  }

  /** The first index at or after `from` where the fenced block may close. */
  function FindClose(s: string, from: nat): (r: Option<nat>)
    decreases |s| - from
    ensures r.Some? ==> from <= r.value && ClosesAt(s, r.value)
    ensures forall j :: from <= j && (r.None? || j < r.value) ==> !ClosesAt(s, j)
  {
    if from + 3 > |s| then None
    else if ClosesAt(s, from) then Some(from)
    else FindClose(s, from + 1)
  }

  /** The first index at or after `from` holding `c`. */
  function IndexOfChar(s: string, c: char, from: nat): (r: Option<nat>)
    decreases |s| - from
    ensures r.Some? ==> from <= r.value < |s| && s[r.value] == c
    ensures forall j :: from <= j < |s| && (r.None? || j < r.value) ==> s[j] != c
  {
    if from >= |s| then None
    else if s[from] == c then Some(from)
    else IndexOfChar(s, c, from + 1)
  }

  /** The last index holding `c`. */
  function LastIndexOfChar(s: string, c: char): (r: Option<nat>)
    ensures r.Some? ==> r.value < |s| && s[r.value] == c
    ensures forall j :: 0 <= j < |s| && (r.None? || r.value < j) ==> s[j] != c
  {
    if s == [] then None
    else if s[|s| - 1] == c then Some(|s| - 1)
    else LastIndexOfChar(s[..|s| - 1], c)
  }

  // ---------------------------------------------------------------------------
  // The regular expression /```json\n?([\s\S]*?)\n?```/ (ECMA-262 section 22.2)

  const OpenFence := "```json"

  /** The positions of one match: "```json" at `open`, the capture
      s[capStart..capEnd], and the closing "```" at `close`. */
  datatype FenceSplit = FenceSplit(open: nat, capStart: nat, capEnd: nat, close: nat)

  /** `d` is one way the fenced regex can match `s`: the opening fence, an
      optional newline, the capture, an optional newline, the closing fence. */
  predicate FencedParse(s: string, d: FenceSplit) {
    && StartsAt(s, OpenFence, d.open)
    && (d.capStart == d.open + 7
        || (d.capStart == d.open + 8 && d.open + 7 < |s| && s[d.open + 7] == '\n'))
    && d.capStart <= d.capEnd
    && (d.close == d.capEnd
        || (d.close == d.capEnd + 1 && d.capEnd < |s| && s[d.capEnd] == '\n'))
    && StartsAt(s, "```", d.close)
  }

  /** The backtracking order of the regex engine: the leftmost start first,
      then the greedy `\n?` taking its newline, then the lazy group as short as
      possible, then the greedy `\n?` taking its newline. */
  predicate FencePreferred(d: FenceSplit, e: FenceSplit) {
    || d.open < e.open
    || (d.open == e.open && d.capStart > e.capStart)
    || (d.open == e.open && d.capStart == e.capStart && d.capEnd < e.capEnd)
    || (d.open == e.open && d.capStart == e.capStart && d.capEnd == e.capEnd && d.close >= e.close)
  }

  /** `d` is the match `String.prototype.match` returns. */
  ghost predicate FenceChosen(s: string, d: FenceSplit) {
    FencedParse(s, d) && forall e :: FencedParse(s, e) ==> FencePreferred(d, e)
  }

  /** The fenced match found by index searches. */
  function FencedMatch(s: string): (m: Option<FenceSplit>)
    ensures m.Some? ==> FencedParse(s, m.value)
  {
    match FindFrom(s, OpenFence, 0)
    case None => None
    case Some(p) =>
      var q := if p + 7 < |s| && s[p + 7] == '\n' then p + 8 else p + 7;
      match FindClose(s, q)
      case None => None
      case Some(k) =>
        if StartsAt(s, "\n```", k) then
          NewlineFence(s, k);
          Some(FenceSplit(p, q, k, k + 1))
        else Some(FenceSplit(p, q, k, k))
  }

  lemma NewlineFence(s: string, k: nat)
    requires StartsAt(s, "\n```", k)
    ensures k < |s| && s[k] == '\n' && StartsAt(s, "```", k + 1)
  {
    assert s[k..k + 4][0] == s[k];
    assert s[k + 1..k + 4] == s[k..k + 4][1..];
  }

  lemma NewlineThenFence(s: string, k: nat)
    requires k < |s| && s[k] == '\n' && StartsAt(s, "```", k + 1)
    ensures StartsAt(s, "\n```", k)
  {
    assert s[k..k + 4] == [s[k]] + s[k + 1..k + 4];
  }

  /** The index searches find exactly the match the regex engine returns,
      and find none exactly when the regex matches nowhere. */
  lemma FencedMatchIsChosen(s: string)
    ensures FencedMatch(s).Some? ==> FenceChosen(s, FencedMatch(s).value)
    ensures FencedMatch(s).None? ==> forall d :: !FencedParse(s, d)
  {
    var first := FindFrom(s, OpenFence, 0);
    if first.Some? {
      var p := first.value;
      var q := if p + 7 < |s| && s[p + 7] == '\n' then p + 8 else p + 7;
      var k := FindClose(s, q);
      forall d | FencedParse(s, d)
        ensures k.Some?
        ensures k.Some? ==> FencePreferred(FencedMatch(s).value, d)
      {
        assert p <= d.open;
        // The closing fence of `d` is one place the search from q may stop.
        assert ClosesAt(s, d.close);
        assert q <= d.close;
        if d.close == d.capEnd + 1 {
          NewlineThenFence(s, d.capEnd);
        }
        assert ClosesAt(s, d.capEnd);
        if k.Some? && d.open == p {
          var m := FencedMatch(s).value;
          if m.capStart == d.capStart {
            assert k.value <= d.capEnd;
          }
        }
      }
    }
  }

  /** The regex engine returns at most one match. */
  lemma FenceChosenUnique(s: string, d: FenceSplit, e: FenceSplit)
    requires FenceChosen(s, d) && FenceChosen(s, e)
    ensures d == e
  {
    assert FencePreferred(d, e) && FencePreferred(e, d);
  }

  /** The fenced capture, stated on plain indices: it starts right after the
      first "```json" and at most one newline, and ends at the first index
      from there on where "\n```" or "```" follows. */
  lemma FencedCaptureBounds(s: string)
    requires FencedMatch(s).Some?
    ensures var d := FencedMatch(s).value;
      && StartsAt(s, OpenFence, d.open)
      && (forall j :: 0 <= j < d.open ==> !StartsAt(s, OpenFence, j))
      && d.capStart == (if d.open + 7 < |s| && s[d.open + 7] == '\n' then d.open + 8 else d.open + 7)
      && ClosesAt(s, d.capEnd)
      && (forall j :: d.capStart <= j < d.capEnd ==> !ClosesAt(s, j))
  {
  }

  // ---------------------------------------------------------------------------
  // The regular expression /\{[\s\S]*\}/

  /** The match s[first..last + 1]. */
  datatype BraceSplit = BraceSplit(first: nat, last: nat)

  /** `b` is one way the brace regex can match `s`. */
  predicate BraceParse(s: string, b: BraceSplit) {
    b.first < b.last < |s| && s[b.first] == '{' && s[b.last] == '}'
  }

  /** Leftmost start first, then the greedy `[\s\S]*` as long as possible. */
  predicate BracePreferred(b: BraceSplit, c: BraceSplit) {
    b.first < c.first || (b.first == c.first && b.last >= c.last)
  }

  ghost predicate BraceChosen(s: string, b: BraceSplit) {
    BraceParse(s, b) && forall c :: BraceParse(s, c) ==> BracePreferred(b, c)
  }

  /** The brace match found by index searches. */
  function BraceMatch(s: string): (m: Option<BraceSplit>)
    ensures m.Some? ==> BraceParse(s, m.value)
  {
    match IndexOfChar(s, '{', 0)
    case None => None
    case Some(a) =>
      match LastIndexOfChar(s, '}')
      case None => None
      case Some(b) => if a < b then Some(BraceSplit(a, b)) else None
  }

  /** The index searches find exactly the match the regex engine returns. */
  lemma BraceMatchIsChosen(s: string)
    ensures BraceMatch(s).Some? ==> BraceChosen(s, BraceMatch(s).value)
    ensures BraceMatch(s).None? ==> forall b :: !BraceParse(s, b)
  {
    var a := IndexOfChar(s, '{', 0);
    var z := LastIndexOfChar(s, '}');
    forall b | BraceParse(s, b)
      ensures a.Some? && z.Some? && a.value < z.value
    {
      assert a.Some? && a.value <= b.first;
      assert z.Some? && b.last <= z.value;
    }
  }

  /** The brace candidate spans from the first '{' through the last '}', and
      there is none when no '}' follows the first '{'. */
  lemma BraceSpan(s: string)
    ensures BraceMatch(s).Some? ==>
      var b := BraceMatch(s).value;
      && (forall j :: 0 <= j < b.first ==> s[j] != '{')
      && (forall j :: b.last < j < |s| ==> s[j] != '}')
    ensures BraceMatch(s).None? <==>
      forall i, j :: 0 <= i < j < |s| && s[i] == '{' ==> s[j] != '}'
  {
    BraceMatchIsChosen(s);
    if BraceMatch(s).None? {
      forall i, j | 0 <= i < j < |s| && s[i] == '{'
        ensures s[j] != '}'
      {
        assert !BraceParse(s, BraceSplit(i, j));
      }
    }
  }

  // ---------------------------------------------------------------------------
  // The JSON candidate

  /** `match[1] || match[0]` for a fenced match: the capture, or the whole
      match when the capture is the empty (falsy) string. */
  function FencedText(s: string, d: FenceSplit): string
    requires FencedParse(s, d)
  {
    if d.capStart < d.capEnd then s[d.capStart..d.capEnd] else s[d.open..d.close + 3]
  }

  /** The string handed to `JSON.parse`: the fenced match takes precedence,
      the brace match is consulted only when there is none, and with no match
      at all the whole answer is parsed. */
  function Extract(s: string): (r: string)
    ensures forall d :: FenceChosen(s, d) ==> r == FencedText(s, d)
    ensures (forall d :: !FencedParse(s, d)) ==>
      forall b :: BraceChosen(s, b) ==> r == s[b.first..b.last + 1]
    ensures (forall d :: !FencedParse(s, d)) && (forall b :: !BraceParse(s, b)) ==> r == s
  {
    FencedMatchIsChosen(s);
    BraceMatchIsChosen(s);
    ExtractChoice(s);
    match FencedMatch(s)
    case Some(d) => FencedText(s, d)
    case None =>
      match BraceMatch(s)
      case Some(b) => s[b.first..b.last + 1]
      case None => s
  }

  lemma ExtractChoice(s: string)
    ensures forall d :: FenceChosen(s, d) ==> FencedMatch(s) == Some(d)
    ensures forall b :: BraceChosen(s, b) ==> BraceMatch(s) == Some(b)
  {
    FencedMatchIsChosen(s);
    BraceMatchIsChosen(s);
    forall d | FenceChosen(s, d) ensures FencedMatch(s) == Some(d) {
      FenceChosenUnique(s, d, FencedMatch(s).value);
    }
    forall b | BraceChosen(s, b) ensures BraceMatch(s) == Some(b) {
      assert BracePreferred(b, BraceMatch(s).value) && BracePreferred(BraceMatch(s).value, b);
    }
  }

  /** The candidate of an answer is always a piece of the answer. */
  lemma ExtractIsSlice(s: string)
    ensures exists i, j :: 0 <= i <= j <= |s| && Extract(s) == s[i..j]
  {
    match FencedMatch(s)
    case Some(d) =>
      if d.capStart < d.capEnd {
        assert Extract(s) == s[d.capStart..d.capEnd];
      } else {
        assert Extract(s) == s[d.open..d.close + 3];
      }
    case None =>
      match BraceMatch(s)
      case Some(b) => assert Extract(s) == s[b.first..b.last + 1];
      case None => assert Extract(s) == s[0..|s|];
  }

  // ---------------------------------------------------------------------------
  // The handler

  /** The status mapping for a non-ok gateway reply: 429 and 402 are passed
      on, every other status becomes 500; the body is always an error object
      with the JSON headers. */
  function UpstreamError(status: int): (r: Response)
    ensures r.status == (if status == 429 || status == 402 then status else 500)
    ensures r.headers == CorsJson
    ensures r.body == JsonBody(ErrorObject(
      if status == 429 then RateLimitMessage else if status == 402 then QuotaMessage else FailedMessage))
  {
    if status == 429 then ErrorResponse(429, RateLimitMessage)
    else if status == 402 then ErrorResponse(402, QuotaMessage)
    else ErrorResponse(500, FailedMessage)
  }

  /** The inner `try`: parse the candidate, or fall back. The answer is a
      200 with the JSON headers either way, so a parse failure is never an
      error; the body is the parsed value unchanged, or the fallback. */
  function Normalize(text: string, parse: string -> Option<Json>): (r: Response)
    ensures r.status == 200 && r.headers == CorsJson
    ensures parse(Extract(text)).Some? ==> r.body == JsonBody(parse(Extract(text)).value)
    ensures parse(Extract(text)).None? ==> r.body == JsonBody(Fallback())
  {
    match parse(Extract(text))
    case None => Response(200, JsonBody(Fallback()), CorsJson)
    case Some(v) => Response(200, JsonBody(v), CorsJson)
  }

  /** The `serve` handler. `apiKey` is `LOVABLE_API_KEY`, `upstream` what the
      gateway answers, `parse` stands for `JSON.parse` (None: it throws). */
  function Handle(req: Request, apiKey: Option<string>, upstream: Upstream,
                  parse: string -> Option<Json>): (r: Response)
    ensures r.status in {200, 400, 402, 429, 500}
    ensures r.status != 200 ==> r.headers == CorsJson && exists m :: r.body == JsonBody(ErrorObject(m))
    ensures r.body == NoBody <==> req.verb == "OPTIONS"
  {
    if req.verb == "OPTIONS" then Response(200, NoBody, Cors)
    else
      match req.payload
      case Unreadable(t) => ErrorResponse(500, CaughtMessage(t))
      case Payload(image) =>
        if !Truthy(image) then ErrorResponse(400, NoImageMessage)
        else if !Truthy(apiKey) then ErrorResponse(500, NotConfiguredMessage)
        else
          match upstream
          case Unreachable(t) => ErrorResponse(500, CaughtMessage(t))
          case Reply(status, completion) =>
            if !IsOk(status) then UpstreamError(status)
            else
              match completion
              case Malformed(t) => ErrorResponse(500, CaughtMessage(t))
              case NonText => Response(200, JsonBody(Fallback()), CorsJson)
              case Content(text) => Normalize(text, parse)
  }

  /** The request passes both guards and the gateway is reached. */
  predicate ReachesGateway(req: Request, apiKey: Option<string>) {
    req.verb != "OPTIONS" && req.payload.Payload? && Truthy(req.payload.image) && Truthy(apiKey)
  }

  /** A preflight request is answered with a body-less 200 carrying only the
      CORS headers, whatever else the request, environment or gateway holds. */
  lemma OptionsPreflight(req: Request, apiKey: Option<string>, upstream: Upstream,
                         parse: string -> Option<Json>)
    requires req.verb == "OPTIONS"
    ensures Handle(req, apiKey, upstream, parse) == Response(200, NoBody, Cors)
  {
  }

  /** The image guard and then the key guard are decided before the gateway:
      their responses do not depend on the gateway or on the parser. */
  lemma GuardsPrecedeGateway(req: Request, apiKey: Option<string>,
                             up1: Upstream, up2: Upstream,
                             parse1: string -> Option<Json>, parse2: string -> Option<Json>)
    requires req.verb != "OPTIONS" && req.payload.Payload?
    ensures !Truthy(req.payload.image) ==>
      Handle(req, apiKey, up1, parse1) == ErrorResponse(400, NoImageMessage)
    ensures Truthy(req.payload.image) && !Truthy(apiKey) ==>
      Handle(req, apiKey, up1, parse1) == ErrorResponse(500, NotConfiguredMessage)
    ensures !ReachesGateway(req, apiKey) ==>
      Handle(req, apiKey, up1, parse1) == Handle(req, apiKey, up2, parse2)
  {
  }

  /** A non-ok gateway status is mapped 429 to 429, 402 to 402 and every other
      status to 500, with three pairwise-distinct messages. */
  lemma StatusMapping(req: Request, apiKey: Option<string>, status: int, c: Completion,
                      parse: string -> Option<Json>)
    requires ReachesGateway(req, apiKey) && !IsOk(status)
    ensures var r := Handle(req, apiKey, Reply(status, c), parse);
      r.status == (if status == 429 || status == 402 then status else 500)
    ensures var r := Handle(req, apiKey, Reply(status, c), parse);
      r.body == JsonBody(ErrorObject(
        if status == 429 then RateLimitMessage
        else if status == 402 then QuotaMessage
        else FailedMessage))
    ensures RateLimitMessage != QuotaMessage && QuotaMessage != FailedMessage
      && RateLimitMessage != FailedMessage
  {
    assert |RateLimitMessage| == 50 && |QuotaMessage| == 64 && |FailedMessage| == 23;
  }

  /** An answer that does not parse is never an error: the relay answers 200
      with the fixed fallback result. A candidate that parses is returned
      unchanged. */
  lemma ParseOutcome(req: Request, apiKey: Option<string>, status: int, text: string,
                     parse: string -> Option<Json>)
    requires ReachesGateway(req, apiKey) && IsOk(status)
    ensures var r := Handle(req, apiKey, Reply(status, Content(text)), parse);
      r.status == 200 && r.headers == CorsJson
      && r.body == JsonBody(match parse(Extract(text))
                            case None => Fallback()
                            case Some(v) => v)
  {
  }

  /** A 200 answer is either the preflight answer or the answer to a request
      that passed both guards and got an ok reply whose body had a message. */
  lemma SuccessExactly(req: Request, apiKey: Option<string>, upstream: Upstream,
                       parse: string -> Option<Json>)
    ensures Handle(req, apiKey, upstream, parse).status == 200 <==>
      req.verb == "OPTIONS"
      || (ReachesGateway(req, apiKey) && upstream.Reply? && IsOk(upstream.status)
          && !upstream.completion.Malformed?)
  {
  }
}
