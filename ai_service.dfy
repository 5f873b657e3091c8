/**
 * The generation service: one low-level chat call with a single retry on
 * transient failures, and the two public operations built on it, each of
 * which falls back to hand-written content whenever the model cannot be used.
 *
 * The chat-completion endpoint is a parameter: `upstream(request, attempt)` is
 * what the endpoint does on the given attempt (0 or 1) for the given request.
 * The random pick among fallback wishes is a nondeterministic choice, the
 * clock is the `nowMillis` parameter, and JSON decoding together with the
 * schema's field and type checks is the `decode` parameter.
 */
module AiService {
  import opened Wrappers
  import opened Text
  import opened Schemas
  import WishPrompt
  import FortunePrompt

  // ---------------------------------------------------------------------------
  // the chat call
  // ---------------------------------------------------------------------------

  /** One chat-completion request: the two prompts and the token budget. */
  datatype ChatRequest = ChatRequest(systemPrompt: string, userPrompt: string, maxTokens: nat)

  /** The outcome of one call to the endpoint. */
  datatype Reply =
    | Content(text: string)  // the first choice carries a message text
    | NoContent              // the first choice's message text is missing
    | Timeout                // the client timed out
    | RateLimited            // the endpoint refused for rate limiting
    | Failure                // any other error raised by the client

  /** Why the chat call failed; every error reaches the caller as an exception. */
  datatype ChatError =
    | EmptyResponse  // the model produced no message text
    | ApiTimeout     // a timeout, on the last attempt
    | RateLimit      // a rate-limit refusal, on the last attempt
    | ApiFailure     // any other client error, never retried
    | Exhausted      // the loop ran out of attempts without returning

  /** The endpoint's behaviour, attempt by attempt. */
  type Upstream = (ChatRequest, nat) -> Reply

  /** At most this many calls are made for one request. */
  const MaxAttempts: nat := 2

  /** Seconds slept between the first and the second attempt. */
  const RetryDelaySeconds: nat := 2

  /** Only timeouts and rate limits are worth a second attempt. */
  predicate IsTransient(reply: Reply)
  {
    reply.Timeout? || reply.RateLimited?
  }

  /** What the chat call makes of a reply once it stops retrying: the message
      text without surrounding whitespace, or the error it raises. */
  function AttemptResult(reply: Reply): Result<string, ChatError>
  {
    match reply
    case Content(text) => Ok(Strip(text))
    case NoContent => Err(EmptyResponse)
    case Timeout => Err(ApiTimeout)
    case RateLimited => Err(RateLimit)
    case Failure => Err(ApiFailure)
  }

  /** How many calls the chat call makes: a second one exactly when the first
      failed transiently. */
  function ChatCalls(request: ChatRequest, upstream: Upstream): nat
  {
    if IsTransient(upstream(request, 0)) then MaxAttempts else 1
  }

  /** What the chat call returns or raises: the result of its last attempt. */
  function ChatOutcome(request: ChatRequest, upstream: Upstream): Result<string, ChatError>
  {
    AttemptResult(upstream(request, ChatCalls(request, upstream) - 1))
  }

  /** The retry policy: at most two calls, a second one exactly when the first
      timed out or was rate limited; the outcome is the stripped text of the
      last reply, or that reply's error, so a transient failure on the second
      call is raised; a missing text or any other error fails at once. */
  lemma ChatPolicy(request: ChatRequest, upstream: Upstream)
    ensures 1 <= ChatCalls(request, upstream) <= MaxAttempts
    ensures ChatCalls(request, upstream) == MaxAttempts <==> IsTransient(upstream(request, 0))
    ensures var last := upstream(request, ChatCalls(request, upstream) - 1);
      && (ChatOutcome(request, upstream).Ok? <==> last.Content?)
      && (last.Content? ==> ChatOutcome(request, upstream).value == Strip(last.text))
      && (last.Timeout? ==> ChatOutcome(request, upstream) == Err(ApiTimeout))
      && (last.RateLimited? ==> ChatOutcome(request, upstream) == Err(RateLimit))
    ensures upstream(request, 0).NoContent? ==> ChatCalls(request, upstream) == 1 && ChatOutcome(request, upstream) == Err(EmptyResponse)
    ensures upstream(request, 0).Failure? ==> ChatCalls(request, upstream) == 1 && ChatOutcome(request, upstream) == Err(ApiFailure)
    ensures ChatOutcome(request, upstream) != Err(Exhausted)
  {
  }

  /**
   * Sends one request, retrying once after a pause when the first attempt
   * times out or is rate limited. `calls` counts the calls made and `slept`
   * the seconds spent waiting.
   */
  method Chat(request: ChatRequest, upstream: Upstream) returns (r: Result<string, ChatError>, calls: nat, slept: nat)
    ensures calls == ChatCalls(request, upstream) && r == ChatOutcome(request, upstream)
    ensures slept == (calls - 1) * RetryDelaySeconds
  {
    calls, slept := 0, 0;
    var attempt := 0;
    while attempt < MaxAttempts
      invariant attempt <= 1
      invariant calls == attempt && slept == attempt * RetryDelaySeconds
      invariant attempt == 1 ==> IsTransient(upstream(request, 0))
    {
      var reply := upstream(request, attempt);
      calls := calls + 1;
      if !IsTransient(reply) {
        r := AttemptResult(reply);
        return;
      }
      if attempt == 0 {
        slept := slept + RetryDelaySeconds;
      } else {
        r := AttemptResult(reply);
        return;
      }
      attempt := attempt + 1;
    }
    assert false;
    r := Err(Exhausted);
  }

  // ---------------------------------------------------------------------------
  // fallback content
  // ---------------------------------------------------------------------------

  /** The hand-written wishes for each denomination. */
  function FallbackWishes(lixiType: LixiType): seq<string>
  {
    match lixiType
    case K50 => ["Chúc năm mới nhẹ nhàng, tiền vào đều đều 🍀", "Năm mới bình an, túi luôn rủng rỉnh 💚"]
    case K100 => ["Chúc bạn an khang, tài lộc khởi sắc 💰", "Năm mới vạn sự như ý, tiền tài dồi dào 🎋"]
    case K200 => ["Công việc hanh thông, lộc đến bất ngờ ✨", "Tài lộc phơi phới, vạn sự hanh thông 🌟"]
    case K500 => ["Phát tài phát lộc, tiền rủng rỉnh cả năm 🧧", "Đại phát, đại lộc – năm nay là năm của bạn! 🎊"]
    case Special => ["WOW! Siêu may mắn – năm nay chắc chắn bứt phá 🎆", "JACKPOT! Vận may đỉnh cao, cả năm rực rỡ 🌈✨"]
  }

  /** Every denomination has two fallback wishes, neither of them empty.
      Proved one denomination at a time, so that each proof sees only its
      own two texts. */
  lemma FallbackWishesWellFormed(lixiType: LixiType)
    ensures |FallbackWishes(lixiType)| == 2
    ensures forall w :: w in FallbackWishes(lixiType) ==> w != []
  {
    match lixiType {
      case K50 => K50WishesWellFormed();
      case K100 => K100WishesWellFormed();
      case K200 => K200WishesWellFormed();
      case K500 => K500WishesWellFormed();
      case Special => SpecialWishesWellFormed();
    }
  }

  /** The 50k wishes: two, neither empty. */
  lemma K50WishesWellFormed()
    ensures |FallbackWishes(K50)| == 2
    ensures forall w :: w in FallbackWishes(K50) ==> w != []
  {
  }

  /** The 100k wishes: two, neither empty. */
  lemma K100WishesWellFormed()
    ensures |FallbackWishes(K100)| == 2
    ensures forall w :: w in FallbackWishes(K100) ==> w != []
  {
  }

  /** The 200k wishes: two, neither empty. */
  lemma K200WishesWellFormed()
    ensures |FallbackWishes(K200)| == 2
    ensures forall w :: w in FallbackWishes(K200) ==> w != []
  {
  }

  /** The 500k wishes: two, neither empty. */
  lemma K500WishesWellFormed()
    ensures |FallbackWishes(K500)| == 2
    ensures forall w :: w in FallbackWishes(K500) ==> w != []
  {
  }

  /** The special wishes: two, neither empty. */
  lemma SpecialWishesWellFormed()
    ensures |FallbackWishes(Special)| == 2
    ensures forall w :: w in FallbackWishes(Special) ==> w != []
  {
  }

  /** The one reading served whenever the model's reply cannot be used, whatever the mode. */
  const FallbackFortune: FortuneData := FortuneData(
    "Vạn Sự Như Ý",
    4,
    "Năm mới nhiều thuận lợi, mọi việc hanh thông.",
    "Vận thế đang lên, các kế hoạch sẽ được triển khai suôn sẻ. Quý nhân sẽ xuất hiện đúng lúc để hỗ trợ bạn.",
    "Kiên trì với mục tiêu đã đặt ra, đừng dao động.",
    "Màu đỏ, số 8, hướng Đông",
    "🎊")

  /** The fallback reading is a valid reading: rating 4, every text present. */
  lemma FallbackFortuneValid()
    ensures FallbackFortune.rating == 4 && RatingInRange(FallbackFortune)
    ensures FallbackFortune.title != [] && FallbackFortune.summary != [] && FallbackFortune.detail != []
    ensures FallbackFortune.advice != [] && FallbackFortune.luckyElement != [] && FallbackFortune.emoji != []
  {
  }

  // ---------------------------------------------------------------------------
  // wishes
  // ---------------------------------------------------------------------------

  /** The token budget for a wish. */
  const WishMaxTokens: nat := 120

  /** The request sent for a wish. */
  function WishRequest(lixiType: LixiType, userName: Option<string>): ChatRequest
  {
    ChatRequest(WishPrompt.WishSystemPrompt, WishPrompt.UserPrompt(lixiType, userName), WishMaxTokens)
  }

  /** Removes every leading and trailing double quote, then every leading and
      trailing single quote, from the model's text. */
  function CleanWish(text: string): (r: string)
    ensures r == [] || (r[0] != '\'' && r[|r| - 1] != '\'')
    ensures forall ch :: ch in r ==> ch in text
  {
    StripSetChars(text, {'"'});
    StripSetChars(StripChar(text, '"'), {'\''});
    StripSetSpec(StripChar(text, '"'), {'\''});
    StripChar(StripChar(text, '"'), '\'')
  }

  /** The two quote characters the wish cleaner removes. */
  const Quotes: set<char> := {'"', '\''}

  /** A wish wrapped in double quotes comes back unwrapped. */
  lemma CleanWishUnquotesDouble(w: string)
    requires w == [] || (w[0] !in Quotes && w[|w| - 1] !in Quotes)
    ensures CleanWish("\"" + w + "\"") == w
  {
    StripSetWrap("\"", w, "\"", {'"'});
    StripSetNoop(w, {'\''});
  }

  /** A wish wrapped in single quotes comes back unwrapped. */
  lemma CleanWishUnquotesSingle(w: string)
    requires w == [] || (w[0] !in Quotes && w[|w| - 1] !in Quotes)
    ensures CleanWish("'" + w + "'") == w
  {
    var quoted := "'" + w + "'";
    assert quoted[0] == '\'' && quoted[|quoted| - 1] == '\'';
    StripSetNoop(quoted, {'"'});
    StripSetWrap("'", w, "'", {'\''});
  }

  /** Double quotes inside single quotes survive: the double quotes are
      stripped first, while they are not yet at the ends. */
  lemma CleanWishKeepsInnerDoubleQuotes(w: string)
    requires w == [] || (w[0] !in Quotes && w[|w| - 1] !in Quotes)
    ensures CleanWish("'" + ("\"" + w + "\"") + "'") == "\"" + w + "\""
  {
    var inner := "\"" + w + "\"";
    var outer := "'" + inner + "'";
    assert outer[0] == '\'' && outer[|outer| - 1] == '\'';
    StripSetNoop(outer, {'"'});
    assert inner[0] == '"' && inner[|inner| - 1] == '"';
    StripSetWrap("'", inner, "'", {'\''});
  }

  /** The chat request the wish path sends for a tier and a name. */
  method BuildWishRequest(lixiType: LixiType, userName: Option<string>) returns (request: ChatRequest)
    ensures request == WishRequest(lixiType, userName)
  {
    var userPrompt := WishPrompt.BuildWishPrompt(lixiType, userName);
    request := ChatRequest(WishPrompt.WishSystemPrompt, userPrompt, WishMaxTokens);
  }

  /** `random.choice` over the denomination's fallback wishes: any one of them. */
  method PickFallbackWish(lixiType: LixiType) returns (wish: string)
    ensures wish in FallbackWishes(lixiType)
  {
    var fallback := FallbackWishes(lixiType);
    FallbackWishesWellFormed(lixiType);
    assert fallback[0] in fallback;
    wish :| wish in fallback;
  }

  /** Turns the chat call's outcome into the wish text, as the wish path does
      after the call: the cleaned reply, or one of the tier's fallback wishes. */
  method ReadWish(outcome: Result<string, ChatError>, lixiType: LixiType) returns (wishText: string)
    ensures match outcome
      case Ok(text) => wishText == CleanWish(text)
      case Err(_) => wishText in FallbackWishes(lixiType)
  {
    match outcome {
      case Ok(text) =>
        wishText := CleanWish(text);
      case Err(_) =>
        wishText := PickFallbackWish(lixiType);
    }
  }

  /**
   * Generates a wish for a denomination: the model's text with quotes removed,
   * or, when the chat call fails in any way, one of the denomination's
   * fallback wishes. `calls` counts the calls made to the endpoint.
   */
  method GenerateWish(lixiType: LixiType, userName: Option<string>, upstream: Upstream)
    returns (response: WishResponse, calls: nat)
    ensures response.lixiType == lixiType
    ensures calls == ChatCalls(WishRequest(lixiType, userName), upstream)
    ensures match ChatOutcome(WishRequest(lixiType, userName), upstream)
      case Ok(text) => response.wishText == CleanWish(text)
      case Err(_) => response.wishText in FallbackWishes(lixiType)
  {
    var request := BuildWishRequest(lixiType, userName);
    var outcome, n, _ := Chat(request, upstream);
    calls := n;
    var wishText := ReadWish(outcome, lixiType);
    response := WishResponse(wishText, lixiType);
  }

  // ---------------------------------------------------------------------------
  // fortunes
  // ---------------------------------------------------------------------------

  /** The token budget for a fortune. */
  const FortuneMaxTokens: nat := 500

  /** A markdown code fence. */
  const Fence: string := "```"

  /** The request sent for a fortune. */
  function FortuneRequest(mode: FortuneMode, userName: Option<string>): ChatRequest
  {
    ChatRequest(FortunePrompt.FortuneSystemPrompt, FortunePrompt.UserPrompt(mode, userName), FortuneMaxTokens)
  }

  /** Decodes cleaned model text into a reading with every field present and
      of the right type, or fails. */
  type Decoder = string -> Option<FortuneData>

  /** The model's text with a leading fence line, a trailing fence and the
      surrounding whitespace removed. */
  function CleanFences(raw: string): (cleaned: string)
    ensures cleaned == [] || (cleaned[0] !in Whitespace && cleaned[|cleaned| - 1] !in Whitespace)
  {
    var afterOpen := if StartsWith(raw, Fence) then AfterFirst(raw, '\n') else raw;
    var beforeClose := if EndsWith(afterOpen, Fence) then RSplitHead(afterOpen, Fence) else afterOpen;
    StripSetSpec(beforeClose, Whitespace);
    Strip(beforeClose)
  }

  /** Text that neither starts nor ends with a fence is only stripped. */
  lemma CleanFencesBare(raw: string)
    requires !StartsWith(raw, Fence) && !EndsWith(raw, Fence)
    ensures CleanFences(raw) == Strip(raw)
  {
  }

  /** A fenced block, whatever its language tag, cleans to its stripped body. */
  lemma CleanFencesFenced(lang: string, body: string)
    requires '\n' !in lang
    ensures CleanFences(Fence + lang + "\n" + body + "\n" + Fence) == Strip(body)
  {
    var raw := Fence + lang + "\n" + body + "\n" + Fence;
    var opening := Fence + lang;
    var rest := body + "\n" + Fence;
    assert raw == opening + ['\n'] + rest;
    assert '\n' !in opening;
    assert StartsWith(raw, Fence) by {
      assert raw[..|Fence|] == Fence;
    }
    AfterFirstAt(opening, rest, '\n');
    assert EndsWith(rest, Fence);
    RSplitHeadSuffix(rest, Fence);
    assert rest[..|rest| - |Fence|] == body + ['\n'];
    assert '\n' in Whitespace;
    StripSetSnoc(body, Whitespace, '\n');
  }

  /** Fencing a bare reply changes nothing about what gets decoded. */
  lemma FencedMatchesBare(lang: string, body: string)
    requires '\n' !in lang
    requires !StartsWith(body, Fence) && !EndsWith(body, Fence)
    ensures CleanFences(Fence + lang + "\n" + body + "\n" + Fence) == CleanFences(body)
  {
    CleanFencesFenced(lang, body);
    CleanFencesBare(body);
  }

  /** A fenced reply on one line keeps its opening fence: only a newline ends
      the opening fence line. */
  lemma CleanFencesSameLine(body: string)
    requires '\n' !in body
    ensures CleanFences(Fence + body + Fence) == Strip(Fence + body)
  {
    var raw := Fence + body + Fence;
    assert '\n' !in raw;
    assert StartsWith(raw, Fence) by {
      assert raw[..|Fence|] == Fence;
    }
    assert EndsWith(raw, Fence);
    RSplitHeadSuffix(raw, Fence);
    assert raw[..|raw| - |Fence|] == Fence + body;
  }

  /** Cleans the model's text step by step, as the fortune path does before
      decoding. */
  method StripFences(raw: string) returns (cleaned: string)
    ensures cleaned == CleanFences(raw)
  {
    cleaned := raw;
    if StartsWith(cleaned, Fence) {
      cleaned := AfterFirst(cleaned, '\n');
    }
    if EndsWith(cleaned, Fence) {
      cleaned := RSplitHead(cleaned, Fence);
    }
    cleaned := Strip(cleaned);
  }

  /** The reading the fortune path settles on for a chat outcome: the decoded,
      cleaned model text when it decodes with a rating from 1 to 5, otherwise
      the fallback reading. */
  function FortuneFor(outcome: Result<string, ChatError>, decode: Decoder): FortuneData
  {
    if outcome.Ok? && decode(CleanFences(outcome.value)).Some? && RatingInRange(decode(CleanFences(outcome.value)).value)
    then decode(CleanFences(outcome.value)).value
    else FallbackFortune
  }

  /** Turns the chat call's outcome into a reading, as the fortune path does
      after the call: clean, decode, validate, or fall back. The range test
      stands for the rating validation assumed of `FortuneData`. */
  method ReadFortune(outcome: Result<string, ChatError>, decode: Decoder) returns (fortune: FortuneData)
    ensures fortune == FortuneFor(outcome, decode)
    ensures RatingInRange(fortune)
  {
    FallbackFortuneValid();
    fortune := FallbackFortune;
    if outcome.Ok? {
      var cleaned := StripFences(outcome.value);
      var parsed := decode(cleaned);
      if parsed.Some? && RatingInRange(parsed.value) {
        fortune := parsed.value;
      }
    }
  }

  /** The chat request the fortune path sends for a mode and a name. */
  method BuildFortuneRequest(mode: FortuneMode, userName: Option<string>) returns (request: ChatRequest)
    ensures request == FortuneRequest(mode, userName)
  {
    var userPrompt := FortunePrompt.BuildFortunePrompt(mode, userName);
    request := ChatRequest(FortunePrompt.FortuneSystemPrompt, userPrompt, FortuneMaxTokens);
  }

  /**
   * Generates a reading for a mode: the model's reply decoded and validated,
   * or the fallback reading when the chat call fails, the cleaned text does
   * not decode or the rating is out of range. `nowMillis` is the clock.
   */
  method GenerateFortune(mode: FortuneMode, userName: Option<string>, upstream: Upstream, decode: Decoder, nowMillis: int)
    returns (response: FortuneResponse, calls: nat)
    ensures response.mode == mode && response.drawnAt == nowMillis
    ensures calls == ChatCalls(FortuneRequest(mode, userName), upstream)
    ensures response.fortune == FortuneFor(ChatOutcome(FortuneRequest(mode, userName), upstream), decode)
    ensures RatingInRange(response.fortune)
  {
    var request := BuildFortuneRequest(mode, userName);
    var outcome, n, _ := Chat(request, upstream);
    calls := n;
    var fortune := ReadFortune(outcome, decode);
    response := FortuneResponse(fortune, mode, nowMillis);
  }
}
