/**
 * `agent_core` (main.py lines 118-256), the handler of every incoming
 * message: a photo is described by the model; a text is first classified by
 * the model (the "brain", asked for a JSON decision) and then handed to one
 * of five agents. Every reply the bot sends is returned as a `Reply`.
 */
module Agent {
  import opened Wrappers
  import opened Strings
  import opened JsonValues
  import opened KeyPools
  import opened Rotation
  import opened Brain
  import opened Tools
  import opened Prompts
  import opened Routing
  import opened Replies
  import opened LinkSafety
  import opened Config

  // ---------------------------------------------------------------- the bot

  /** An incoming message: its text, the sizes of its photo (smallest first) and its caption. */
  datatype Message<I> = Message(text: Option<string>, photo: seq<I>, caption: Option<string>)

  /** Line 126: the caption, or a default when there is none or it is empty. */
  function CaptionOf<I>(msg: Message<I>): (caption: string)
    ensures caption != ""
    ensures msg.caption.Some? && msg.caption.value != "" ==> caption == msg.caption.value
    ensures msg.caption.None? || msg.caption.value == "" ==> caption == DefaultCaption
  {
    if msg.caption.Some? && msg.caption.value != "" then msg.caption.value else DefaultCaption
  }

  // ---------------------------------------------------------------- what each agent sends

  /**
   * Lines 125-133 when the model keys are tried in the order `geminiKeys`: the
   * largest photo size goes to the model with the caption, and its description
   * comes back, or the error text when there is none or it is empty.
   */
  function VisionReplies<I>(msg: Message<I>, geminiKeys: seq<string>,
                            generate: (string, string, Option<I>) -> Option<string>,
                            parse: string -> Option<Json>): seq<Reply>
    requires msg.photo != []
  {
    var analysis := TextOf(Ask(geminiKeys, VisionPrompt(CaptionOf(msg)), Some(msg.photo[|msg.photo| - 1]), false, generate, parse));
    [Typing, Say(if analysis.Some? && analysis.value != "" then analysis.value else VisionError)]
  }

  /**
   * Lines 181-202: the status line, then "no data" when the price search finds
   * nothing, or else the analyst's reading of the digest as Markdown.
   */
  function PriceReplies<I>(query: string, timestamp: string, searchKeys: seq<string>, cx: string,
                           geminiKeys: seq<string>,
                           generate: (string, string, Option<I>) -> Option<string>,
                           parse: string -> Option<Json>,
                           fetch: map<string, string> -> Option<seq<RawItem>>): seq<Reply>
  {
    var digest := Search(searchKeys, cx, PriceQuery(query, timestamp), "PRICE", fetch).0;
    if digest.None? || digest.value == "" then [Say(PriceStatus(timestamp)), Say(NoPriceData)]
    else [Say(PriceStatus(timestamp)),
          SayMarkdown(TextOf(Ask(geminiKeys, AnalystPrompt(digest.value, timestamp), None, false, generate, parse)))]
  }

  /** Lines 206-232: the status line, then the reply for the safe subset of the links found. */
  function LinkReplies(query: string, adult: bool, searchKeys: seq<string>, cx: string,
                       fetch: map<string, string> -> Option<seq<RawItem>>): seq<Reply>
  {
    var found := Search(searchKeys, cx, LinkQuery(query, adult), "LINK_TELEGRAM", fetch).1;
    [Say(LinkStatus(adult)), LinkReply(SafeLinks(found, adult))]
  }

  /** Lines 236-244: the status line, then the summary of the news digest, or "no news". */
  function NewsReplies<I>(query: string, searchKeys: seq<string>, cx: string, geminiKeys: seq<string>,
                          generate: (string, string, Option<I>) -> Option<string>,
                          parse: string -> Option<Json>,
                          fetch: map<string, string> -> Option<seq<RawItem>>): seq<Reply>
  {
    var digest := Search(searchKeys, cx, NewsQuery(query), "NEWS", fetch).0;
    if digest.Some? && digest.value != "" then
      [Say(ReadingNews), SayMarkdown(TextOf(Ask(geminiKeys, NewsPrompt(digest.value), None, false, generate, parse)))]
    else [Say(ReadingNews), Say(NoNews)]
  }

  /** Lines 248-250: the drawing notice and the generated picture. */
  function ImageReplies(query: string): (replies: seq<Reply>)
    ensures |replies| == 2 && replies[0] == Say(Drawing)
    ensures replies[1].Photo? && PromptOf(replies[1].url) == Some(query)
  {
    ImageUrlRoundTrip(query, ImageUrl(query));
    [Say(Drawing), Photo(ImageUrl(query))]
  }

  /** Lines 254-256: the model's answer to the user's text, as Markdown. */
  function ChatReplies<I>(userText: string, geminiKeys: seq<string>,
                          generate: (string, string, Option<I>) -> Option<string>,
                          parse: string -> Option<Json>): seq<Reply>
  {
    [SayMarkdown(TextOf(Ask(geminiKeys, ChatPrompt(userText), None, false, generate, parse)))]
  }

  /**
   * What the branch of lines 167-256 sends after the typing action, the pools
   * being tried in the orders `geminiKeys` and `searchKeys`.
   */
  function BranchReplies<I>(branch: Branch, userText: string, timestamp: string,
                            geminiKeys: seq<string>, searchKeys: seq<string>, cx: string,
                            generate: (string, string, Option<I>) -> Option<string>,
                            parse: string -> Option<Json>,
                            fetch: map<string, string> -> Option<seq<RawItem>>): seq<Reply>
  {
    match branch
    case BrainError => [Say(BrainErrorText)]
    case Crash => []
    case PriceCheck(q) => PriceReplies(q, timestamp, searchKeys, cx, geminiKeys, generate, parse, fetch)
    case LinkFinder(q, adult) => LinkReplies(q, adult, searchKeys, cx, fetch)
    case NewsUpdate(q) => NewsReplies(q, searchKeys, cx, geminiKeys, generate, parse, fetch)
    case ImageGen(q) => ImageReplies(q)
    case Chat => ChatReplies(userText, geminiKeys, generate, parse)
  }

  /**
   * The link finder shows a keyboard exactly when a found link passes the
   * safety filter; each of its at most six buttons opens a t.me link the search
   * returned that passes the filter.
   */
  lemma LinkRepliesSafe(query: string, adult: bool, searchKeys: seq<string>, cx: string,
                        fetch: map<string, string> -> Option<seq<RawItem>>)
    ensures var found := Search(searchKeys, cx, LinkQuery(query, adult), "LINK_TELEGRAM", fetch).1;
            var more := LinkReplies(query, adult, searchKeys, cx, fetch);
            && |more| == 2 && more[0] == Say(LinkStatus(adult))
            && (more[1].Keyboard? <==> exists l :: l in found && Safe(l, adult))
            && (!more[1].Keyboard? ==> more[1] == Say(NoLinks))
            && (more[1].Keyboard? ==> 1 <= |more[1].rows| <= 6 && forall i :: 0 <= i < |more[1].rows| ==>
                  |more[1].rows[i]| == 1 &&
                  exists l :: l in found && Safe(l, adult) && Contains(l.url, "t.me")
                              && more[1].rows[i][0] == Button(Label(l.title), l.url))
  {
    var found := Search(searchKeys, cx, LinkQuery(query, adult), "LINK_TELEGRAM", fetch).1;
    SearchTelegramLinksOnly(searchKeys, cx, LinkQuery(query, adult), fetch);
    LinkReplySafe(found, adult);
  }

  // ---------------------------------------------------------------- the agents

  /** Lines 124-134: a photo is described in Burmese; the largest size is the one sent. */
  method HandleVision<I>(bot: Bot, msg: Message<I>, randbelow: nat -> nat,
                         generate: (string, string, Option<I>) -> Option<string>,
                         parse: string -> Option<Json>)
    returns (replies: seq<Reply>, ghost sent: seq<(string, string)>)
    requires msg.photo != []
    requires bot.Valid() && RandBelow(randbelow)
    modifies bot.gemini
    ensures bot.Valid()
    ensures multiset(bot.gemini.keys) == multiset(old(bot.gemini.keys))
    ensures replies == VisionReplies(msg, bot.gemini.keys, generate, parse)
    ensures |sent| <= |bot.gemini.keys|
    ensures |sent| == Rotate(bot.gemini.keys, GeminiAttempts(VisionPrompt(CaptionOf(msg)), Some(msg.photo[|msg.photo| - 1]),
                                                             false, generate, parse)).tried
    ensures forall i :: 0 <= i < |sent| ==> sent[i] == (bot.gemini.keys[i], VisionPrompt(CaptionOf(msg)))
    ensures |replies| == 2 && replies[0] == Typing && replies[1].Say?
    ensures replies[1].text != VisionError ==> |sent| > 0 && replies[1].text != ""
  {
    var image := msg.photo[|msg.photo| - 1];
    var analysis;
    analysis, sent := AskGemini(bot.gemini, VisionPrompt(CaptionOf(msg)), Some(image), false, randbelow, generate, parse);
    var text := TextOf(analysis);
    if analysis.Some? {
      RotateFirstSuccess(bot.gemini.keys, GeminiAttempts(VisionPrompt(CaptionOf(msg)), Some(image), false, generate, parse));
    }
    replies := [Typing, Say(if text.Some? && text.value != "" then text.value else VisionError)];
  }

  /** Lines 180-202. */
  method HandlePrice<I>(bot: Bot, query: string, timestamp: string, randbelow: nat -> nat,
                        generate: (string, string, Option<I>) -> Option<string>,
                        parse: string -> Option<Json>,
                        fetch: map<string, string> -> Option<seq<RawItem>>)
    returns (replies: seq<Reply>, ghost digest: Option<string>, ghost requests: seq<map<string, string>>,
             ghost sent: seq<(string, string)>)
    requires bot.Valid() && RandBelow(randbelow)
    modifies bot.gemini, bot.search
    ensures bot.Valid()
    ensures multiset(bot.gemini.keys) == multiset(old(bot.gemini.keys))
    ensures multiset(bot.search.keys) == multiset(old(bot.search.keys))
    ensures digest == Search(bot.search.keys, bot.cx, PriceQuery(query, timestamp), "PRICE", fetch).0
    ensures replies == PriceReplies(query, timestamp, bot.search.keys, bot.cx, bot.gemini.keys, generate, parse, fetch)
    ensures |requests| <= |bot.search.keys|
    ensures |requests| == if bot.cx == "" then 0 else Rotate(bot.search.keys, SearchAttempts(bot.cx, PriceQuery(query, timestamp), "PRICE", fetch)).tried
    ensures forall i :: 0 <= i < |requests| ==>
              requests[i] == SearchParams(PriceQuery(query, timestamp), bot.search.keys[i], bot.cx, "PRICE")
    ensures digest.None? || digest == Some("") ==> sent == [] && unchanged(bot.gemini)
    ensures sent != [] ==> digest.Some? && forall i :: 0 <= i < |sent| ==> sent[i].1 == AnalystPrompt(digest.value, timestamp)
    ensures digest.Some? && digest.value != "" ==>
              |sent| == Rotate(bot.gemini.keys, GeminiAttempts(AnalystPrompt(digest.value, timestamp), None, false, generate, parse)).tried
  {
    var status := Say(PriceStatus(timestamp));
    var rawData, _, made := ToolGoogleSearch(bot.search, bot.cx, PriceQuery(query, timestamp), "PRICE", randbelow, fetch);
    digest, requests, sent := rawData, made, [];
    if rawData.None? || rawData.value == "" {
      replies := [status, Say(NoPriceData)];
    } else {
      var answer;
      answer, sent := AskGemini(bot.gemini, AnalystPrompt(rawData.value, timestamp), None, false, randbelow, generate, parse);
      replies := [status, SayMarkdown(TextOf(answer))];
    }
  }

  /** Lines 205-232. */
  method HandleLinks(bot: Bot, query: string, adult: bool, randbelow: nat -> nat,
                     fetch: map<string, string> -> Option<seq<RawItem>>)
    returns (replies: seq<Reply>, ghost found: seq<Link>, ghost requests: seq<map<string, string>>)
    requires bot.Valid() && RandBelow(randbelow)
    modifies bot.search
    ensures bot.Valid()
    ensures multiset(bot.search.keys) == multiset(old(bot.search.keys))
    ensures found == Search(bot.search.keys, bot.cx, LinkQuery(query, adult), "LINK_TELEGRAM", fetch).1
    ensures replies == LinkReplies(query, adult, bot.search.keys, bot.cx, fetch)
    ensures |requests| <= |bot.search.keys|
    ensures |requests| == if bot.cx == "" then 0 else Rotate(bot.search.keys, SearchAttempts(bot.cx, LinkQuery(query, adult), "LINK_TELEGRAM", fetch)).tried
    ensures forall i :: 0 <= i < |requests| ==>
              requests[i] == SearchParams(LinkQuery(query, adult), bot.search.keys[i], bot.cx, "LINK_TELEGRAM")
  {
    var status := Say(LinkStatus(adult));
    var _, links, made := ToolGoogleSearch(bot.search, bot.cx, LinkQuery(query, adult), "LINK_TELEGRAM", randbelow, fetch);
    found, requests := links, made;
    var valid := FilterLinks(links, adult);
    if valid != [] {
      var buttons := Buttons(Take(valid, 6));
      replies := [status, Keyboard(LinksFound, buttons)];
    } else {
      replies := [status, Say(NoLinks)];
    }
  }

  /** Lines 235-244. */
  method HandleNews<I>(bot: Bot, query: string, randbelow: nat -> nat,
                       generate: (string, string, Option<I>) -> Option<string>,
                       parse: string -> Option<Json>,
                       fetch: map<string, string> -> Option<seq<RawItem>>)
    returns (replies: seq<Reply>, ghost digest: Option<string>, ghost requests: seq<map<string, string>>,
             ghost sent: seq<(string, string)>)
    requires bot.Valid() && RandBelow(randbelow)
    modifies bot.gemini, bot.search
    ensures bot.Valid()
    ensures multiset(bot.gemini.keys) == multiset(old(bot.gemini.keys))
    ensures multiset(bot.search.keys) == multiset(old(bot.search.keys))
    ensures digest == Search(bot.search.keys, bot.cx, NewsQuery(query), "NEWS", fetch).0
    ensures replies == NewsReplies(query, bot.search.keys, bot.cx, bot.gemini.keys, generate, parse, fetch)
    ensures |requests| <= |bot.search.keys|
    ensures |requests| == if bot.cx == "" then 0 else Rotate(bot.search.keys, SearchAttempts(bot.cx, NewsQuery(query), "NEWS", fetch)).tried
    ensures forall i :: 0 <= i < |requests| ==>
              requests[i] == SearchParams(NewsQuery(query), bot.search.keys[i], bot.cx, "NEWS")
    ensures digest.None? || digest == Some("") ==> sent == [] && unchanged(bot.gemini)
    ensures sent != [] ==> digest.Some? && forall i :: 0 <= i < |sent| ==> sent[i].1 == NewsPrompt(digest.value)
    ensures digest.Some? && digest.value != "" ==>
              |sent| == Rotate(bot.gemini.keys, GeminiAttempts(NewsPrompt(digest.value), None, false, generate, parse)).tried
  {
    var status := Say(ReadingNews);
    var rawData, _, made := ToolGoogleSearch(bot.search, bot.cx, NewsQuery(query), "NEWS", randbelow, fetch);
    digest, requests, sent := rawData, made, [];
    if rawData.Some? && rawData.value != "" {
      var answer;
      answer, sent := AskGemini(bot.gemini, NewsPrompt(rawData.value), None, false, randbelow, generate, parse);
      replies := [status, SayMarkdown(TextOf(answer))];
    } else {
      replies := [status, Say(NoNews)];
    }
  }

  /** Lines 253-256. */
  method HandleChat<I>(bot: Bot, userText: string, randbelow: nat -> nat,
                       generate: (string, string, Option<I>) -> Option<string>,
                       parse: string -> Option<Json>)
    returns (replies: seq<Reply>, ghost sent: seq<(string, string)>)
    requires bot.Valid() && RandBelow(randbelow)
    modifies bot.gemini
    ensures bot.Valid()
    ensures multiset(bot.gemini.keys) == multiset(old(bot.gemini.keys))
    ensures replies == ChatReplies(userText, bot.gemini.keys, generate, parse)
    ensures |sent| <= |bot.gemini.keys|
    ensures |sent| == Rotate(bot.gemini.keys, GeminiAttempts(ChatPrompt(userText), None, false, generate, parse)).tried
    ensures forall i :: 0 <= i < |sent| ==> sent[i] == (bot.gemini.keys[i], ChatPrompt(userText))
    ensures replies[0].markdown.Some? ==> |sent| > 0
  {
    var answer;
    answer, sent := AskGemini(bot.gemini, ChatPrompt(userText), None, false, randbelow, generate, parse);
    replies := [SayMarkdown(TextOf(answer))];
  }

  /** Lines 167-256 once the decision is known: the agent the branch names answers. */
  method Respond<I>(bot: Bot, branch: Branch, userText: string, timestamp: string, randbelow: nat -> nat,
                    generate: (string, string, Option<I>) -> Option<string>,
                    parse: string -> Option<Json>,
                    fetch: map<string, string> -> Option<seq<RawItem>>)
    returns (more: seq<Reply>)
    requires bot.Valid() && RandBelow(randbelow)
    modifies bot.gemini, bot.search
    ensures bot.Valid()
    ensures multiset(bot.gemini.keys) == multiset(old(bot.gemini.keys))
    ensures multiset(bot.search.keys) == multiset(old(bot.search.keys))
    ensures more == BranchReplies(branch, userText, timestamp, bot.gemini.keys, bot.search.keys, bot.cx, generate, parse, fetch)
    ensures !(branch.PriceCheck? || branch.LinkFinder? || branch.NewsUpdate?) ==> unchanged(bot.search)
    ensures !(branch.PriceCheck? || branch.NewsUpdate? || branch.Chat?) ==> unchanged(bot.gemini)
  {
    match branch {
      case BrainError =>
        more := [Say(BrainErrorText)];
      case Crash =>
        more := [];
      case PriceCheck(q) =>
        var r, _, _, _ := HandlePrice(bot, q, timestamp, randbelow, generate, parse, fetch);
        more := r;
      case LinkFinder(q, adult) =>
        var r, _, _ := HandleLinks(bot, q, adult, randbelow, fetch);
        more := r;
      case NewsUpdate(q) =>
        var r, _, _, _ := HandleNews(bot, q, randbelow, generate, parse, fetch);
        more := r;
      case ImageGen(q) =>
        more := ImageReplies(q);
      case Chat =>
        var r, _ := HandleChat(bot, userText, randbelow, generate, parse);
        more := r;
    }
  }

  /**
   * The brain was consulted about `userText` with the model keys in the order
   * `brainKeys`: the decision is what `ask_gemini` returned, and the requests
   * sent went to those keys in turn, each with one more JSON instruction.
   */
  ghost predicate Consulted<I>(brainKeys: seq<string>, userText: string, timestamp: string,
                               generate: (string, string, Option<I>) -> Option<string>,
                               parse: string -> Option<Json>,
                               decision: Option<Json>, brainSent: seq<(string, string)>)
  {
    && decision == AsDecision(Ask(brainKeys, BrainPrompt(timestamp, userText), None, true, generate, parse))
    && |brainSent| <= |brainKeys|
    && |brainSent| == Rotate(brainKeys, GeminiAttempts(BrainPrompt(timestamp, userText), None, true, generate, parse)).tried
    && (forall i :: 0 <= i < |brainSent| ==>
          brainSent[i] == (brainKeys[i], PromptAfter(BrainPrompt(timestamp, userText), true, i + 1)))
    && (decision.Some? ==> |brainSent| > 0)
  }

  /**
   * Lines 140-165: the brain, asked in JSON mode to classify the user's text.
   * The decision is what `ask_gemini` returns; each attempt sends the
   * classification request with one more copy of the JSON instruction.
   */
  method Think<I>(bot: Bot, userText: string, timestamp: string, randbelow: nat -> nat,
                  generate: (string, string, Option<I>) -> Option<string>,
                  parse: string -> Option<Json>)
    returns (decision: Option<Json>, ghost sent: seq<(string, string)>)
    requires bot.Valid() && RandBelow(randbelow)
    modifies bot.gemini
    ensures bot.Valid()
    ensures multiset(bot.gemini.keys) == multiset(old(bot.gemini.keys))
    ensures Consulted(bot.gemini.keys, userText, timestamp, generate, parse, decision, sent)
  {
    var answer;
    answer, sent := AskGemini(bot.gemini, BrainPrompt(timestamp, userText), None, true, randbelow, generate, parse);
    decision := AsDecision(answer);
  }

  /**
   * `agent_core(update, context)`. Besides the replies it yields, as ghost
   * values, the branch taken (`None` for a photo or an empty message), the
   * decision the brain returned, the order the model keys had when the brain
   * was asked and the requests the brain was sent.
   */
  method AgentCore<I>(bot: Bot, msg: Message<I>, timestamp: string, randbelow: nat -> nat,
                      generate: (string, string, Option<I>) -> Option<string>,
                      parse: string -> Option<Json>,
                      fetch: map<string, string> -> Option<seq<RawItem>>)
    returns (replies: seq<Reply>, ghost route: Option<Branch>, ghost decision: Option<Json>,
             ghost brainKeys: seq<string>, ghost brainSent: seq<(string, string)>)
    requires bot.Valid() && RandBelow(randbelow)
    modifies bot.gemini, bot.search
    ensures bot.Valid()
    ensures multiset(bot.gemini.keys) == multiset(old(bot.gemini.keys))
    ensures multiset(bot.search.keys) == multiset(old(bot.search.keys))
    ensures msg.photo != [] ==>
              && route == None && replies == VisionReplies(msg, bot.gemini.keys, generate, parse)
              && unchanged(bot.search)
    ensures msg.photo == [] && (msg.text == None || msg.text == Some("")) ==>
              route == None && replies == [] && unchanged(bot.gemini) && unchanged(bot.search)
    ensures msg.photo == [] && msg.text.Some? && msg.text.value != "" ==>
              && multiset(brainKeys) == multiset(old(bot.gemini.keys))
              && Consulted(brainKeys, msg.text.value, timestamp, generate, parse, decision, brainSent)
              && route == Some(Route(decision))
              && replies == [Typing] + BranchReplies(route.value, msg.text.value, timestamp, bot.gemini.keys,
                                                     bot.search.keys, bot.cx, generate, parse, fetch)
    ensures route.Some? && !(route.value.PriceCheck? || route.value.LinkFinder? || route.value.NewsUpdate?) ==>
              unchanged(bot.search)
    ensures route.Some? && !(route.value.PriceCheck? || route.value.NewsUpdate? || route.value.Chat?) ==>
              bot.gemini.keys == brainKeys
  {
    route, decision, brainKeys, brainSent := None, None, [], [];
    if msg.photo != [] {
      var seen, _ := HandleVision(bot, msg, randbelow, generate, parse);
      return seen, None, None, [], [];
    }
    if msg.text.None? || msg.text.value == "" {
      return [], None, None, [], [];
    }
    var userText := msg.text.value;
    var verdict;
    verdict, brainSent := Think(bot, userText, timestamp, randbelow, generate, parse);
    decision, brainKeys := verdict, bot.gemini.keys;
    assert unchanged(bot.search);
    var branch := Route(verdict);
    route := Some(branch);
    var more := Respond(bot, branch, userText, timestamp, randbelow, generate, parse, fetch);
    replies := [Typing] + more;
  }
}
