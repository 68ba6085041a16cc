# A verified model of the Burmese Telegram agent bot

`main.py` is a Telegram bot. It answers every message in one of two ways:

- **Photo:** it asks a hosted language model ("the brain") to describe the photo.
- **Text:** it first asks the model, in JSON mode, to classify the request. Then it hands the request to one of five agents:
  - price check;
  - Telegram link finder;
  - news;
  - image generation;
  - chat.

The price, link and news agents call a web search first. The price and news agents then ask the model to summarise what the search found.

Both providers are reached through key pools parsed from environment variables. A call shuffles its pool in place. It then tries each key once and stops at the first success.

This project models that logic in Dafny and proves what the code promises:

- **Key pools** (`KeyPools`): key parsing, and the in-place Fisher-Yates shuffle as a `KeyPool` class.
- **Rotation** (`Rotation`): the try-each-key-once loop, stated as a function of the shuffled order.
- **Model calls** (`Brain`): `ask_gemini` as an imperative loop whose prompt grows by one JSON instruction per attempt. It also removes Markdown fences from the reply.
- **Search** (`Tools`): `tool_google_search`, with its request parameters, its item filter and the digest and link list it builds. The image URL is also here.
- **Dispatch** (`Routing`): how a JSON decision selects a branch.
- **Link safety** (`LinkSafety`): the adult/safe title filter and the button keyboard.
- **The handler** (`Agent`): `agent_core`, which returns the list of replies the bot sends.

Python behaviour is written out explicitly:

- **Strings:** `str.strip`, `str.split`, `str.replace`, `in` and slicing (`Strings`).
- **Decoded JSON:** truthiness, `dict.get` (where the last duplicate key wins) and `str()` (`JsonValues`).

External services are function-valued parameters:

- the model call (`generate`);
- `json.loads` (`parse`);
- the search request together with its decoding (`fetch`);
- the random source of `random.shuffle` (`randbelow`).

For `generate`, `parse` and `fetch`, `None` stands for an exception. For `fetch` it also stands for a response body without `items`, which the loop skips with `continue` (line 91).

Behaviour worth noting:

- **The pool is shuffled in place.** `ask_gemini` and `tool_google_search` shuffle the global list, and the next call starts from the new order.
- **A brain failure ends the reply.** A missing or falsy decision gets "Brain Error" and nothing more.
- **The link finder searches once.** An empty result gets the not-found reply.
- **A failed model call is passed on.** When every key fails in the price, news or chat agent, `reply_text` receives `None` (lines 201-202, 241-242, 255-256; see "Left out"). The vision agent sends its error text instead (line 133), and a failed brain call gives "Brain Error" (lines 165-168).
- **No state outlives a message except the key order.** `main.py` keeps no conversation history.

## Model

| member | source | states |
|---|---|---|
| Strings.StripLeft | main.py:28-29 | `lstrip`: what it drops is all whitespace, and the rest does not start with whitespace |
| Strings.StripRight | main.py:28-29 | `rstrip`: what it drops is all whitespace, and the rest does not end with whitespace |
| Strings.IsSpace | main.py:28-29 | the characters `strip()` removes: Python's whitespace |
| Strings.Strip | main.py:28-29 | `strip()` gives a trimmed substring of its input |
| Strings.StripInside | main.py:28-29 | the stripped string is trimmed and sits in the input exactly where the leading whitespace ends |
| Strings.StripLeftSkips | main.py:28-29 | whitespace put in front does not change `lstrip` |
| Strings.StripRightSkips | main.py:28-29 | whitespace put behind does not change `rstrip` |
| Strings.StripPadded | main.py:60 | stripping a trimmed body padded with whitespace gives back the body |
| Strings.StripIdempotent | main.py:60 | stripping twice is stripping once |
| Strings.ContainsTransitive | main.py:103-104 | a substring of a substring is a substring |
| Strings.SubstringAvoids | main.py:60 | a pattern absent from a string is absent from each of its substrings |
| Strings.Contains | main.py:103-104 | Python's `sub in s`: `sub` occurs at some position of `s` |
| Strings.ReplaceAllSkips | main.py:60 | `replace` leaves untouched a prefix that holds no first character of the pattern |
| Strings.ReplaceAll | main.py:60 | `str.replace`: each occurrence of the pattern, found left to right without overlap, becomes the replacement |
| Strings.Split | main.py:18-19 | `split(",")` always yields at least one piece |
| Strings.JoinSplit | main.py:18-19 | joining the pieces of `split` with the separator gives the input back |
| Strings.SplitPiecesSeparatorFree | main.py:18-19 | no piece of a split holds the separator |
| Strings.SplitAround | main.py:18-19 | splitting `a + "," + b` splits `a` and `b` separately and concatenates the pieces |
| Strings.Lower | main.py:218 | `lower()` keeps the length and lowers each character |
| Strings.Take | main.py:229 | `s[:n]` is the prefix of length `min(n, len(s))` |
| Lists.Filter | main.py:96-107 | a filter keeps at most its input, and only elements that pass |
| Lists.FilterSnoc | main.py:216-226 | one more loop pass appends the new element exactly when it passes |
| Lists.FilterComplete | main.py:216-226 | no element that passes is dropped |
| Lists.FilterAll | main.py:101-104 | a filter everything passes returns its input unchanged |
| Lists.PositionsEmbed | main.py:216-226 | the kept elements sit at strictly increasing positions of the input |
| Lists.FilterSubsequence | main.py:216-226 | what a filter keeps is an order-preserving subsequence of its input |
| JsonValues.Get | main.py:171-173 | `dict.get` finds nothing exactly when no member has that name |
| JsonValues.GetFindsLastBinding | main.py:171-173 | what `dict.get` finds is the value of the last member with that name |
| JsonValues.Truthy | main.py:167 | Python truthiness of a decoded value: `None`, `False`, `0` and empty strings, lists and dicts are false |
| JsonValues.Decimal | main.py:184 | `str()` of an integer: its decimal digits, with a minus sign when negative |
| JsonValues.Items | main.py:184 | the elements of a list, each shown by `repr()` and separated by `", "` |
| JsonValues.LastFrom | main.py:184 | the index of the last member, at or before `n`, bound to a key that member `k` binds; no later member binds it |
| JsonValues.Members | main.py:184 | a dict shows each key once, at its first position, with the value of its last binding |
| JsonValues.Repr | main.py:184 | `repr()` of a decoded value: `None`, `True`/`False`, the decimal integer, quoted strings, bracketed lists and braced dicts |
| JsonValues.ReprKeepsLastBinding | main.py:184 | a dict decoded from an object that binds one key twice shows that key once, with its last value |
| JsonValues.LastFromIsGet | main.py:184 | the last member bound to a name holds the value `dict.get` finds for it |
| JsonValues.NamesAfter | main.py:184 | a name is not listed again after the member that first binds it |
| JsonValues.NamesDistinct | main.py:184 | a dict lists no name twice |
| JsonValues.NamesComplete | main.py:184 | every member's name is listed |
| JsonValues.MembersShowDict | main.py:184 | `str()` of a dict shows each listed name once, in order of first appearance, with the value `dict.get` finds |
| JsonValues.Str | main.py:184 | `str()` of a JSON string is the string itself, and of `null` is `"None"` |
| KeyPools.KeepStripped | main.py:28-29 | every key the comprehension keeps is non-empty and has no surrounding whitespace |
| KeyPools.KeepOne | main.py:28-29 | one element of the comprehension: the stripped piece, or nothing when it is blank |
| KeyPools.StripKeepsOut | main.py:28-29 | stripping brings in no new character |
| KeyPools.KeepStrippedSeparatorFree | main.py:28-29 | pieces without commas give keys without commas |
| KeyPools.ParsePool | main.py:18-29 | every parsed key is non-empty and has no surrounding whitespace |
| KeyPools.ParsePoolAllUsable | main.py:18-19 | every parsed key is non-empty, trimmed and comma-free |
| KeyPools.KeepStrippedConcat | main.py:28-29 | the comprehension over two runs of pieces is the two results one after the other |
| KeyPools.SplitWithoutSeparator | main.py:18-19 | a string without a comma splits into itself alone |
| KeyPools.ParsePoolConcat | main.py:18-19 | the pool of `a + "," + b` is the pool of `a` followed by the pool of `b`, so input order is kept |
| KeyPools.ParsePoolSingle | main.py:28-29 | a value without commas gives its stripped value, or nothing if that is blank |
| KeyPools.ParsePoolBlank | main.py:18-19 | an unset, empty or all-blank variable gives an empty pool |
| KeyPools.ParsePoolUsable | main.py:28-29 | a single usable key parses to itself |
| KeyPools.ParsePoolRoundTrip | main.py:18-19 | usable keys joined by commas parse back to the same keys in the same order |
| KeyPools.ParsePoolCons | main.py:18-19 | one more usable key in front of a list that round-trips still round-trips |
| KeyPools.KeyPool.constructor | main.py:28-29 | a pool holds exactly the parsed keys, all usable |
| KeyPools.KeyPool.Shuffle | main.py:44 | `random.shuffle` leaves a permutation of the keys, all still usable |
| Rotation.RunFrom | main.py:46-67 | from key `i` on, a call fails only after trying every key, and succeeds only after trying at least one |
| Rotation.RunFromStep | main.py:64-66 | a successful attempt ends the call; a failed one moves to the next key |
| Rotation.RunFromFails | main.py:67 | from key `i` on, the call fails exactly when every remaining attempt fails |
| Rotation.RunFromFirst | main.py:46-63 | from key `i` on, a success is the last attempt tried and all earlier ones failed |
| Rotation.Rotate | main.py:46-67 | one pass tries at most every key once, and a success comes after at least one try |
| Rotation.RotateFails | main.py:46-67 | the loop falls through to line 67 exactly when every key's attempt fails, and then every key was tried once |
| Rotation.RotateFirstSuccess | main.py:46-63 | a successful call returns its last attempt's result, and every earlier attempt failed |
| Rotation.RotateDecidedBy | main.py:46-63 | the first key whose attempt succeeds decides the call |
| Brain.NoFenceAvoids | main.py:60 | a string with no three backticks in a row does not contain "```" |
| Brain.FenceRemovalLeavesNone | main.py:60 | `replace("```", "")` leaves no three backticks in a row |
| Brain.FenceFreeHead | main.py:60 | the same when the first character is kept, and backticks at the front of the result come from the input |
| Brain.StripFences | main.py:60 | the text handed to `json.loads` holds no "```" and has no surrounding whitespace |
| Brain.StripFencesUnwraps | main.py:58-61 | a reply wrapped in a json code fence gives back exactly its payload |
| Brain.PromptAfter | main.py:52-53 | the prompt only grows, and stays unchanged outside JSON mode |
| Brain.RetryPromptGrows | main.py:52-53 | each JSON-mode retry carries exactly one more copy of the instruction |
| Prompts.PriceStatus | main.py:181 | the price status line embeds the timestamp |
| Prompts.LinkStatus | main.py:206 | the link status line says "18+" in adult mode and "Safe" otherwise |
| Prompts.VisionPrompt | main.py:132 | the vision request embeds the caption as its context |
| Prompts.BrainPrompt | main.py:142-163 | the classification request embeds the timestamp and the user's text, quoted, and asks for the three-member JSON format |
| Prompts.AnalystPrompt | main.py:191-200 | the analyst request embeds the raw search digest and the timestamp |
| Prompts.NewsPrompt | main.py:240 | the news request is the summary instruction followed by the raw digest |
| Prompts.ChatPrompt | main.py:254 | the chat request embeds the user's text |
| Prompts.PriceQuery | main.py:184 | the price search adds market, Myanmar, the timestamp and black market to the query |
| Prompts.LinkQuery | main.py:208-211 | a t.me site search for the quoted query, with adult or safe terms by the flag |
| Prompts.NewsQuery | main.py:237 | the news search is the query followed by " latest" |
| Brain.GeminiAttempt | main.py:47-66 | no reply: failure; text mode: the reply text; JSON mode: the decoded fence-free reply, and failure exactly when it does not decode |
| Brain.GeminiStep | main.py:46-66 | attempt `i` uses the prompt after `i + 1` passes and decides whether the call ends or moves on |
| Brain.Sends | main.py:46-56 | the `k`-th request pairs the `k`-th key with the prompt after `k + 1` passes |
| Brain.GeminiAttempts | main.py:46-56 | pass `i` of the loop sends the prompt as it stands after `i + 1` appends, with the same image and mode |
| Brain.Ask | main.py:39-67 | what `ask_gemini` returns when the keys are tried in a given order |
| Brain.JsonCallEndsAtFirstDecode | main.py:58-61 | in JSON mode the call ends at the first reply that decodes, whatever value it decodes to |
| Brain.TryKeys | main.py:46-67 | the loop returns the rotation's result, sends one request per key tried, and grows the prompt by one instruction per pass |
| Brain.AskGemini | main.py:39-67 | empty pool: `None` with no request; otherwise the pool is shuffled (a permutation) and the answer is `Ask` over the new order, with one request per key tried |
| Tools.SearchParams | main.py:80-86 | `q`, `key`, `cx` and `safe='off'` are always present; `dateRestrict='d1'` only for fresh searches |
| Tools.Fresh | main.py:85 | a search is restricted to the last day exactly for the types "PRICE" and "NEWS" |
| Tools.FreshnessOnlyForPriceAndNews | main.py:84-86 | `dateRestrict` is present exactly for "PRICE" and "NEWS" |
| Tools.WithDefaults | main.py:97-99 | a missing title becomes "No Title"; a missing link or snippet becomes "" |
| Tools.Defaulted | main.py:96-99 | every item is read with its defaults, in order |
| Tools.Admitted | main.py:101-104 | a Telegram search admits an item only if its link holds "t.me" and it is not a short "Telegram: Contact" page; other searches admit every item |
| Tools.Kept | main.py:101-104 | every kept item passes the Telegram filter of its search type |
| Tools.KeptExactly | main.py:101-107 | the kept items are an ordered subsequence, include every item that passes, and are all items for non-Telegram searches |
| Tools.LinksOf | main.py:107 | one link per kept item, with its title and link, in order |
| Tools.Block | main.py:106 | the `SOURCE`, `DETAILS` and `LINK` lines of one item, then a blank line |
| Tools.Digest | main.py:93-107 | the blocks of the kept items, in order |
| Tools.DigestSnoc | main.py:106 | one more kept item appends exactly its block to the digest |
| Tools.LinksOfSnoc | main.py:107 | one more kept item appends exactly its link |
| Tools.DigestConcat | main.py:93-107 | the digest of two runs of items is the two digests one after the other |
| Tools.DigestEmpty | main.py:93-109 | the digest is empty exactly when no item was kept |
| Tools.Collect | main.py:93-109 | the loop builds the digest and the link list of exactly the kept items |
| Tools.SearchAttempt | main.py:79-110 | an attempt succeeds exactly when the request and its decoding succeed |
| Tools.SearchAttempts | main.py:78-110 | every pass of the loop makes the same request but for its key |
| Tools.TelegramLinksOnly | main.py:102-103 | a successful Telegram search returns only t.me links |
| Tools.Search | main.py:71-111 | empty pool or no engine id: `(None, [])`; otherwise the first successful attempt's digest and links in the pool's order, or `(None, [])` when all fail |
| Tools.SearchTelegramLinksOnly | main.py:102-103 | whatever a Telegram search returns holds only t.me links |
| Tools.ToolGoogleSearch | main.py:71-111 | empty pool or no engine id: `(None, [])` with no request; otherwise the pool is shuffled (a permutation) and the result is `Search` over the new order |
| Tools.TrySearchKeys | main.py:77-111 | the loop returns the rotation's result, one request per key tried with that key's parameters, and only t.me links for Telegram searches |
| Tools.ImageUrl | main.py:113-114 | the URL is the generator's base followed by the prompt, unencoded |
| Tools.ImageUrlRoundTrip | main.py:113-114 | the prompt can be read back from the URL, and only the prompt's own URL reads back to it |
| Replies.Label | main.py:229 | a label is the link emoji, a space and the first at most 30 characters of the title |
| Replies.Buttons | main.py:229 | one row of one button per link, labelled by its title and opening its URL |
| LinkSafety.FilterLinks | main.py:216-226 | the loop computes the safety filter of the found links |
| LinkSafety.SafeLinksExactly | main.py:216-226 | the kept links are an ordered subsequence and are exactly the found links that pass the title test |
| LinkSafety.SubsequenceMembers | main.py:216-226 | what a subsequence holds, the sequence holds |
| LinkSafety.MentionsAny | main.py:221-225 | `any(k in title.lower() for k in words)` |
| LinkSafety.Safe | main.py:218-226 | adult mode: the lower-cased title names an adult keyword; safe mode: it names neither "sex" nor "porn" |
| LinkSafety.SafeLinks | main.py:216-226 | the found links that pass the title test, in order |
| LinkSafety.LinkReply | main.py:228-232 | a keyboard for the first six safe links, or the not-found text when there are none |
| LinkSafety.LinkReplySafe | main.py:228-232 | keyboard iff some link passes; otherwise the not-found reply; at most six one-button rows, each opening a link that passes, labelled by its title |
| Routing.AsDecision | main.py:165 | a missing answer gives no decision; a decoded one is the decision |
| Routing.TextOf | main.py:201-202 | the text of an answer, present only for a text reply |
| Routing.Route | main.py:167-256 | brain error exactly for a missing or falsy decision; a crash exactly for a truthy non-object |
| Routing.Dispatch | main.py:180-256 | the intent chain never yields a brain error or a crash |
| Routing.RouteFollowsFormat | main.py:157-256 | a decision in the requested format reaches the named agent with its query and flag; any other intent reaches chat |
| Routing.DecisionReadsBack | main.py:171-173 | `get` on a decision in the requested format finds each member as written |
| Routing.RouteAdultDefaultsToSafe | main.py:173 | a link request without `is_adult` is a safe-mode request |
| Routing.RouteChatOtherwise | main.py:180-256 | an object goes to chat exactly when its intent names none of the four agents |
| Config.Bot.constructor | main.py:18-29 | the bot holds two distinct valid pools and the engine id |
| Agent.CaptionOf | main.py:126 | the caption when it is non-empty, otherwise "Analyze this image"; never empty |
| Agent.VisionReplies | main.py:124-133 | typing, then the model's description of the largest photo size, or the error text when there is none or it is empty |
| Agent.PriceReplies | main.py:180-202 | status line, then "no data" when the price search's digest is missing or empty, otherwise the model's Markdown reading of that digest |
| Agent.LinkReplies | main.py:205-232 | status line, then the link reply for the safe subset of what the t.me search found |
| Agent.NewsReplies | main.py:235-244 | status line, then the model's Markdown summary of the news digest, or "no news" when it is missing or empty |
| Agent.ImageReplies | main.py:247-250 | the drawing notice, then a photo whose URL carries the query |
| Agent.ChatReplies | main.py:253-256 | one Markdown reply: the model's answer to the chat prompt |
| Agent.BranchReplies | main.py:167-256 | each branch sends its agent's replies; brain error sends the error text, a crash sends nothing |
| Agent.LinkRepliesSafe | main.py:205-232 | keyboard iff some found link is safe; otherwise the not-found text; at most six buttons, each opening a safe t.me link the search found |
| Agent.HandleVision | main.py:124-134 | the replies are `VisionReplies` over the shuffled key order; one request per key tried, each with the caption's prompt; the pool stays a permutation |
| Agent.HandlePrice | main.py:180-202 | the digest is `Search` of the price query over the shuffled order and the replies are `PriceReplies`; one search request per key tried, and one model request per key tried once there is a digest; no model request when the digest is missing or empty |
| Agent.HandleLinks | main.py:205-232 | the links found are `Search` of the link query over the shuffled order and the replies are `LinkReplies`; one request per key tried, each with the link query |
| Agent.HandleNews | main.py:235-244 | the digest is `Search` of the news query over the shuffled order and the replies are `NewsReplies`; one search request per key tried, and one model request per key tried once there is a digest; no model request when the digest is missing or empty |
| Agent.HandleChat | main.py:253-256 | the replies are `ChatReplies` over the shuffled order; one request per key tried, each sending the chat prompt |
| Agent.Respond | main.py:167-256 | the replies are `BranchReplies` over the orders the pools end in; only the price, link and news branches search; brain error, crash, link and image branches call no model |
| Agent.Consulted | main.py:140-165 | the decision is `Ask` of the brain prompt in JSON mode over a key order, and one request went to each key tried, with one more JSON instruction each time |
| Agent.Think | main.py:140-165 | the brain was consulted over the shuffled order, which is a permutation of the pool |
| Agent.AgentCore | main.py:118-256 | photo: `VisionReplies`, no search; empty text: no reply and no provider call; otherwise the brain is consulted over a permutation of the pool, and the replies are typing then the `BranchReplies` of the branch its decision routes to |

## Left out

- Telegram transport is not modelled: the async handler, fetching the photo file, PIL decoding, `reply_*` and chat actions. Replies are values (`Reply`), and the photo is an opaque image value.
- The provider call (`genai.configure`, `GenerativeModel`, `generate_content`) is a parameter, `generate`. `MODEL_NAME` is not modelled.
- `json.loads` is a parameter, `parse`. JSON numbers are integers only.
- `JsonValues.Repr`: strings are shown between single quotes without escaping, and Python's switch to double quotes for strings holding `'` is not modelled.
- `Brain.GeminiAttempt`: a reply that decodes to JSON `null` makes Python return `None` at once; the model returns the decoded `null`. Both end the call after that attempt and both give "Brain Error" in `agent_core`.
- `Brain.TryKeys`: `genai.configure` and `GenerativeModel` (lines 48-49) are taken never to raise. If one raised, that pass would skip the instruction appended at line 53, and later prompts would carry one copy fewer.
- The search request (`requests.get`) and `response.json()` are one parameter, `fetch`. A response without `items` counts as a failure, and item fields that are not strings are not modelled.
- `generate` and `fetch` are functions of their arguments: a key listed twice in a variable gets the same outcome on both tries within one call, where a passing error in Python could fail the first try and not the second. No proved property depends on this.
- `random.shuffle` draws from a parameter, `randbelow`. The same function is used by every call, so the draws do not advance from one call to the next.
- `get_current_time` is not modelled (clock and `strftime`). The timestamp is a parameter.
- `print` logging is not modelled. It has no effect on the replies.
- `keep_alive`, reading `BOT_TOKEN` and the polling start-up (lines 260-269) are not modelled.
- `os.environ.get` is not modelled: each pool is built from the variable's value as a string, and an unset variable is the empty string.
- `Strings.Lower`: lower-cases ASCII letters only. The Burmese keywords have no case, but titles with non-ASCII capitals are compared as written.
- `Agent.HandlePrice`, `Agent.HandleNews`, `Agent.HandleChat`: when every key fails, `reply_text(None, ...)` is called. It is modelled as `SayMarkdown(None)`. What Telegram does with it is not modelled.
- `Routing.Route`: a truthy decision that is not an object makes `decision.get` raise. This is the `Crash` branch, which sends nothing more. The exception's effect on the bot is not modelled.
- `Agent.AgentCore`: the provider and search requests of the agents after the brain are stated per handler, not in `AgentCore`'s contract.
