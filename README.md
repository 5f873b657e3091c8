# lucky-ai-core, modelled in Dafny

lucky-ai-core is the backend of a Lunar New Year (Tết) game. A player opens a
lì xì envelope of some denomination and gets a one-sentence wish, or draws a
fortune reading for a life domain. Both texts come from an Azure OpenAI chat
model. Whenever the model cannot be used, hand-written fallback content is
served instead. This project models the generation core:

- **`AiService`** (`app/services/ai_service.py`) covers three things:
  - the low-level chat call `_chat`, written as the method `Chat`. It is a loop
    that makes at most two calls and retries only after a timeout or a rate
    limit;
  - `generate_wish`, with its quote stripping and its random fallback pick;
  - `generate_fortune`, with its markdown-fence cleaning, its validation and
    its fallback reading.

  The fallback tables are copied verbatim.
- **`WishPrompt`** and **`FortunePrompt`** (`app/prompts/*.py`) hold the two
  system prompts and the guidance tables, copied verbatim. The user-message
  builders are methods that grow a list of parts and join it with newlines.
  Each is proved equal to a specification function, and lemmas state what the
  message looks like when read back line by line.
- **`Config`** (`app/config.py`) models `Settings.cors_origins`, which splits
  `allowed_origins` on commas, strips each piece and drops the empty ones.
- **`Text`** supplies the Python `str` operations the code relies on:
  - `strip()` over exactly the characters for which `str.isspace()` holds,
    and `strip(chars)`;
  - `split`, `join`, `startswith` and `endswith`;
  - `split("\n", 1)[-1]` and `rsplit(sep, 1)[0]`.

  Strip has a characterisation, `IsStripOf`, that is proved to have a unique
  solution. Split and join are proved to be inverse round trips.
- **`Schemas`** and **`Wrappers`** hold the enumerations, records and result
  types the core uses.

The chat endpoint is a parameter, `upstream(request, attempt)`. It says what
the endpoint answers on attempt 0 or 1, so every property about retries holds
whatever the endpoint does. The methods return `calls`, the number of calls
made, and `Chat` also returns `slept`, the seconds spent waiting.

Two behaviours of the wish cleaning are easy to misread from the comment
"Strip any accidental quotes" at `app/services/ai_service.py:140`; the model
follows the code at line 141:

- It does not remove one layer of quotes. It strips every leading and
  trailing `"`, then every leading and trailing `'`:
  - `CleanWishUnquotesDouble` and `CleanWishUnquotesSingle` show the
    one-layer case;
  - `CleanWishKeepsInnerDoubleQuotes` shows that double quotes inside single
    quotes survive.
- A wish that is empty after cleaning is returned as is, with no fallback.
  `CleanWishUnquotesDouble` with an empty `w` shows that a reply of `""`
  becomes an empty wish.

## Model

| member | source | states |
|---|---|---|
| Schemas.HasName | app/prompts/wish_prompt.py:56 | the truthiness test `if user_name:` (also at app/prompts/fortune_prompt.py:72): a name is present and not empty |
| Schemas.RatingInRange | app/services/ai_service.py:181 | the rating range 1–5 that `FortuneData.model_validate` is assumed to enforce |
| AiService.IsTransient | app/services/ai_service.py:106 | a timeout or a rate limit, and nothing else, is a transient failure that may be retried |
| AiService.AttemptResult | app/services/ai_service.py:101-115 | one reply becomes its text stripped of surrounding whitespace, or the error it raises: missing text, timeout, rate limit or another failure |
| AiService.ChatCalls | app/services/ai_service.py:90-118 | the number of calls the loop makes: two after a transient first failure, one otherwise; characterised by ChatPolicy |
| AiService.ChatOutcome | app/services/ai_service.py:90-118 | the result of the chat call is what the last attempt's reply yields; characterised by ChatPolicy |
| AiService.ChatPolicy | app/services/ai_service.py:90-118 | one or two calls are made, two exactly when the first reply was a timeout or a rate limit; the call succeeds exactly when the last reply carried text, and then yields that text stripped of surrounding whitespace; a second timeout or rate limit is re-raised as such; a missing text or any other error on the first call fails at once with no retry; the "exhausted retries" exit is never reached |
| AiService.Chat | app/services/ai_service.py:75-118 | the retry loop makes exactly the calls and returns exactly the outcome that ChatPolicy describes, and waits 2 seconds before a second call and not otherwise |
| AiService.FallbackWishes | app/services/ai_service.py:31-52 | total over the five denominations; the two wishes of each are the source's texts verbatim, in order; their shape is stated by FallbackWishesWellFormed |
| AiService.FallbackWishesWellFormed | app/services/ai_service.py:31-52 | every denomination has two fallback wishes, none of them empty |
| AiService.K50WishesWellFormed | app/services/ai_service.py:32-35 | the 50k denomination has two non-empty fallback wishes |
| AiService.K100WishesWellFormed | app/services/ai_service.py:36-39 | the 100k denomination has two non-empty fallback wishes |
| AiService.K200WishesWellFormed | app/services/ai_service.py:40-43 | the 200k denomination has two non-empty fallback wishes |
| AiService.K500WishesWellFormed | app/services/ai_service.py:44-47 | the 500k denomination has two non-empty fallback wishes |
| AiService.SpecialWishesWellFormed | app/services/ai_service.py:48-51 | the special denomination has two non-empty fallback wishes |
| AiService.FallbackFortune | app/services/ai_service.py:54-63 | the fallback reading, every field verbatim, the two-piece detail joined as Python joins adjacent literals; its validity is stated by FallbackFortuneValid |
| AiService.FallbackFortuneValid | app/services/ai_service.py:54-63 | the fallback reading has rating 4, which is within the assumed validation range 1–5, and every text field is non-empty |
| AiService.CleanWish | app/services/ai_service.py:141 | the cleaned wish neither starts nor ends with a single quote and holds only characters of the model's text |
| AiService.CleanWishUnquotesDouble | app/services/ai_service.py:141 | a wish wrapped in double quotes comes back without them; an empty quoted wish comes back empty |
| AiService.CleanWishUnquotesSingle | app/services/ai_service.py:141 | a wish wrapped in single quotes comes back without them |
| AiService.CleanWishKeepsInnerDoubleQuotes | app/services/ai_service.py:141 | double quotes inside single quotes are kept, because double quotes are stripped first |
| AiService.WishRequest | app/services/ai_service.py:134-139 | the wish path's chat request: WISH_SYSTEM_PROMPT, the denomination's user message and a budget of 120 tokens |
| AiService.BuildWishRequest | app/services/ai_service.py:133-139 | the request carries the wish system prompt, the denomination's user message and a budget of 120 tokens |
| AiService.PickFallbackWish | app/services/ai_service.py:146-147 | the random pick is one of the denomination's fallback wishes |
| AiService.ReadWish | app/services/ai_service.py:141-147 | a successful chat call yields the cleaned text; a failed one yields one of the denomination's fallback wishes |
| AiService.GenerateWish | app/services/ai_service.py:123-149 | the response echoes the denomination; when the chat call succeeds, the wish is the cleaned model text; when it fails in any way, the wish is one of that denomination's fallback wishes; the endpoint is called as often as the chat call dictates |
| AiService.CleanFences | app/services/ai_service.py:172-178 | the cleaned text has no surrounding whitespace |
| AiService.StripFences | app/services/ai_service.py:172-178 | the step-by-step cleaning (drop the opening fence line, cut before the last fence, strip) computes CleanFences |
| AiService.CleanFencesBare | app/services/ai_service.py:173-178 | text that neither starts nor ends with a fence is only stripped |
| AiService.CleanFencesFenced | app/services/ai_service.py:173-178 | a fenced block with any one-line language tag cleans to its stripped body |
| AiService.FencedMatchesBare | app/services/ai_service.py:173-178 | a bare JSON reply and the same reply wrapped in a fence clean to the same text, so they decode alike |
| AiService.CleanFencesSameLine | app/services/ai_service.py:173-178 | a fenced reply on a single line keeps its opening fence, since only a newline ends the fence line |
| AiService.FortuneFor | app/services/ai_service.py:172-186 | the reading the fortune path settles on: the decoded cleaned text when the call succeeded, decoding succeeded and the rating is 1–5, the fallback reading otherwise |
| AiService.ReadFortune | app/services/ai_service.py:171-186 | the reading is the decoded, cleaned text when the chat call succeeded, the text decodes and its rating is 1–5, and the fallback reading otherwise; either way the rating is within 1–5 |
| AiService.FortuneRequest | app/services/ai_service.py:165-170 | the fortune path's chat request: FORTUNE_SYSTEM_PROMPT, the mode's user message and a budget of 500 tokens |
| AiService.BuildFortuneRequest | app/services/ai_service.py:164-170 | the request carries the fortune system prompt, the mode's user message and a budget of 500 tokens |
| AiService.GenerateFortune | app/services/ai_service.py:152-192 | the response echoes the mode and carries the clock reading; the reading is the decoded, cleaned model text when that decodes and its rating is 1–5, otherwise the fallback reading; the rating is always within 1–5; the endpoint is called as often as the chat call dictates |
| WishPrompt.TierGuidance | app/prompts/wish_prompt.py:16-37 | total over the five denominations; each guidance text verbatim |
| WishPrompt.WishSystemPrompt | app/prompts/wish_prompt.py:39-49 | the system prompt verbatim, ending in a newline |
| WishPrompt.Message | app/prompts/wish_prompt.py:52-60 | a message is its head line, the recipient line when a non-empty name is given, and the closing line, joined by newlines; read back by MessageStructure and MessageEnds |
| WishPrompt.UserPrompt | app/prompts/wish_prompt.py:52-60 | the user message's head line is `Mệnh giá: ` followed by the denomination's guidance |
| WishPrompt.BuildWishPrompt | app/prompts/wish_prompt.py:52-60 | the user message is the message around the line `Mệnh giá: ` followed by the denomination's guidance |
| WishPrompt.BuildMessage | app/prompts/wish_prompt.py:54-60 | growing the parts list and joining it with newlines yields the head line, the recipient line when a non-empty name is given, and the closing line |
| WishPrompt.TailLines | app/prompts/wish_prompt.py:56-59 | the lines after the head: `Người nhận tên: ` and the name when the name is truthy, then the closing instruction |
| WishPrompt.TailLinesSingle | app/prompts/wish_prompt.py:56-59 | the recipient and closing lines span no line break when the name spans none |
| WishPrompt.MessageStructure | app/prompts/wish_prompt.py:52-60 | read back line by line, the message is the lines of the denomination line, then the name line verbatim exactly when the name is non-empty, then the closing line |
| WishPrompt.MessageEnds | app/prompts/wish_prompt.py:54-60 | whatever the name, the message starts with the denomination line and a line break and ends with the closing line |
| FortunePrompt.ModeGuidance | app/prompts/fortune_prompt.py:16-41 | total over the six modes; each guidance text verbatim |
| FortunePrompt.FortuneSystemPrompt | app/prompts/fortune_prompt.py:43-62 | the system prompt verbatim, ending in a newline |
| FortunePrompt.Message | app/prompts/fortune_prompt.py:65-76 | a message is its head line, the drawer line when a non-empty name is given, and the closing line, joined by newlines; read back by MessageStructure and MessageEnds |
| FortunePrompt.UserPrompt | app/prompts/fortune_prompt.py:65-76 | the user message's head line is the mode's guidance itself |
| FortunePrompt.BuildFortunePrompt | app/prompts/fortune_prompt.py:65-76 | the user message is the message around the mode's guidance |
| FortunePrompt.BuildMessage | app/prompts/fortune_prompt.py:70-76 | growing the parts list and joining it with newlines yields the head line, the drawer line when a non-empty name is given, and the closing line |
| FortunePrompt.TailLines | app/prompts/fortune_prompt.py:72-75 | the lines after the head: `Người bốc quẻ tên: ` and the name when the name is truthy, then the closing instruction |
| FortunePrompt.TailLinesSingle | app/prompts/fortune_prompt.py:72-75 | the drawer and closing lines span no line break when the name spans none |
| FortunePrompt.MessageStructure | app/prompts/fortune_prompt.py:65-76 | read back line by line, the message is the lines of the mode guidance, then the name line verbatim exactly when the name is non-empty, then the closing line |
| FortunePrompt.MessageEnds | app/prompts/fortune_prompt.py:70-76 | whatever the name, the message starts with the guidance and a line break and ends with the closing line |
| Config.DefaultAllowedOrigins | app/config.py:31 | the default `allowed_origins`, verbatim; parsed by DefaultCorsOrigins |
| Config.Settings.CorsOrigins | app/config.py:35-38 | every origin is non-empty, has no surrounding whitespace and holds no comma; there are at most as many origins as comma-separated segments |
| Config.StripEach | app/config.py:38 | `[o.strip() for o in pieces]`: one result per piece, and each result meets the description of `str.strip()` (IsStripOf over the whitespace set) for its piece |
| Config.NonEmpty | app/config.py:38 | the kept pieces are non-empty pieces of the input, and there are no more of them than pieces |
| Config.StripEachTrimmed | app/config.py:38 | a non-empty stripped piece is trimmed and holds no character its piece lacked |
| Config.CorsOriginsStripped | app/config.py:38 | stripping an origin again changes nothing |
| Config.StripEachAppend | app/config.py:38 | stripping works run by run |
| Config.NonEmptyAppend | app/config.py:38 | dropping empty pieces works run by run |
| Config.CorsOriginsAppend | app/config.py:38 | origins keep their written order: the origins of `a,b` are those of `a` followed by those of `b` |
| Config.CorsOriginsSegment | app/config.py:38 | a comma-free segment yields its stripped text, or nothing when that is empty |
| Config.CorsOriginsSingle | app/config.py:38 | a single comma-free origin with no surrounding whitespace parses to itself |
| Config.CorsOriginsPair | app/config.py:38 | two such origins joined by one comma parse to the two of them, in order |
| Config.DefaultOriginsSingle | app/config.py:31 | each of the two default origins is comma-free and has no surrounding whitespace |
| Config.DefaultIsTwoOrigins | app/config.py:31 | the default is the two local origins joined by one comma |
| Config.DefaultCorsOrigins | app/config.py:31-38 | the default setting yields `http://localhost:5173` then `http://localhost:3000` |
| Text.LStrip | app/services/ai_service.py:141 | `lstrip(chars)`: drops leading characters of the set; characterised by LStripSpec |
| Text.RStrip | app/services/ai_service.py:141 | `rstrip(chars)`: drops trailing characters of the set; characterised by RStripSpec |
| Text.StripSet | app/services/ai_service.py:141 | `strip(chars)`: the front, then the back, stripped; characterised by StripSetSpec and StripUnique |
| Text.Strip | app/services/ai_service.py:104 | `strip()` strips exactly the characters for which `str.isspace()` holds |
| Text.StripChar | app/services/ai_service.py:141 | `strip(c)` for a one-character argument strips that character only |
| Text.LStripSpec | app/services/ai_service.py:141 | stripping the front keeps a suffix, removes only characters of the set, and the result does not start with one |
| Text.RStripSpec | app/services/ai_service.py:141 | stripping the back keeps a prefix, removes only characters of the set, and the result does not end with one |
| Text.StripSetSpec | app/services/ai_service.py:141 | `strip(chars)` keeps the slice left once every leading and trailing character of the set is gone, and it neither starts nor ends with one of them |
| Text.StripSetChars | app/services/ai_service.py:141 | a stripped string holds only characters of the original |
| Text.StripUnique | app/services/ai_service.py:141 | only one string satisfies that description, so it fixes strip completely |
| Text.StripSetSnoc | app/services/ai_service.py:178 | appending a stripped character does not change the result |
| Text.StripSetWrap | app/services/ai_service.py:141 | stripped characters put around a string that does not start or end with one are removed again, and nothing more |
| Text.StripSetIdempotent | app/config.py:38 | stripping twice is stripping once |
| Text.StripSetNoop | app/config.py:38 | a string that neither starts nor ends with a stripped character is its own strip |
| Text.Split | app/config.py:38 | `split` always returns at least one piece |
| Text.Join | app/prompts/wish_prompt.py:60 | `sep.join(parts)`: the parts with the separator between neighbours, none before the first or after the last; inverse of Split by JoinSplit and SplitJoin |
| Text.SplitPiecesFree | app/config.py:38 | no piece of a split contains the separator |
| Text.SplitCount | app/config.py:38 | a split returns one more piece than there are separators |
| Text.JoinSplit | app/config.py:38 | joining the pieces of a split with the separator restores the string |
| Text.SplitAppend | app/config.py:38 | splitting `a + sep + b` gives the pieces of `a` followed by the pieces of `b` |
| Text.SplitFree | app/config.py:38 | a string without the separator splits into itself alone |
| Text.SplitJoin | app/prompts/wish_prompt.py:60 | parts that hold no separator are recovered by splitting their join |
| Text.SplitJoinAfter | app/prompts/wish_prompt.py:60 | a joined message whose later parts hold no separator reads back as the first part's pieces followed by those parts |
| Text.JoinEndsWithLast | app/prompts/wish_prompt.py:60 | a join of two or more parts ends with the separator and the last part |
| Text.JoinStartsWithFirst | app/prompts/wish_prompt.py:60 | a join of two or more parts starts with the first part and the separator |
| Text.StartsWith | app/services/ai_service.py:174 | `startswith(p)`: `p` is a prefix |
| Text.EndsWith | app/services/ai_service.py:176 | `endswith(p)`: `p` is a suffix |
| Text.AfterFirst | app/services/ai_service.py:175 | `split(sep, 1)[-1]`: the text after the first separator, or the whole text when there is none; characterised by AfterFirstAt |
| Text.RSplitHead | app/services/ai_service.py:177 | `rsplit(p, 1)[0]`: the text before the last occurrence of `p`, or the whole text when there is none; characterised by RSplitHeadSuffix |
| Text.FirstIndex | app/services/ai_service.py:175 | the index found is that of the first separator, or the length when there is none |
| Text.AfterFirstAt | app/services/ai_service.py:175 | `split("\n", 1)[-1]` of `a + "\n" + b`, where `a` has no newline, is `b` |
| Text.RFind | app/services/ai_service.py:177 | `rfind` returns an occurrence with none after it, or -1 |
| Text.RSplitHeadSuffix | app/services/ai_service.py:177 | `rsplit(p, 1)[0]` of a string ending in `p` drops exactly that suffix |

## Left out

- The Azure OpenAI client, its construction from settings and the request fields it sends: model name and message roles (`app/services/ai_service.py:67-74`, 92-100). The endpoint is the `upstream` parameter; one `upstream` answer stands for one `client.chat.completions.create` call, and since the client sets no `max_retries`, the SDK's own retries on timeouts and rate limits happen inside that call, so "at most two calls" counts SDK calls, not HTTP requests. What the model sees is the `ChatRequest` value (system prompt, user prompt, token budget).
- Temperatures (0.85, 0.9) are floating point. They only affect sampling, so they are not modelled.
- `time.sleep(2.0)` is not performed. `Chat` counts the seconds it would sleep in `slept`.
- The clock is not modelled. `drawn_at` is the `nowMillis` parameter.
- `random.choice` is a nondeterministic pick (`:|`). Its uniform distribution is not modelled.
- `json.loads` and `FortuneData.model_validate` are not modelled. Their field presence and type checks are the `decode` parameter. `app/models/schemas.py` is not part of this model. Any constraint it puts on `WishResponse` (such as a non-empty wish) is therefore not modelled.
- ReadFortune / GenerateFortune: the model assumes that `FortuneData.model_validate` rejects a rating outside 1–5, and writes that rejection out as the explicit `Schemas.RatingInRange` test after `decode`. No line of the modelled code checks the range itself, since the `FortuneData` declaration in `app/models/schemas.py` is not part of this model. Their `ensures RatingInRange(...)` holds because of that test, so it rests on this assumption.
- An exception raised while building a prompt is not modelled. The guidance lookups are total functions on the enumerations, so the source's `KeyError` cannot arise.
- Logging is not modelled.
- Settings loading from the environment, `get_settings`'s cache and every other setting are not modelled; only `allowed_origins` and `cors_origins` are.
- `app/routes.py`, `app/main.py` and `start.py` are not part of this model: HTTP routing, rate limiting and application start-up.
- WishPrompt.MessageStructure: the guidance texts are single lines, but this is not proved, because proving newline-freedom of the long literals is beyond the solver's budget. The read-back therefore keeps the first line as `Split(head, '\n')`.
- FortunePrompt.MessageStructure: the same holds for the mode guidance, kept as `Split(head, '\n')`.
- The system prompts are constants, so they carry no contract beyond their verbatim text.
