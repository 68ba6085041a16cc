/**
 * How `agent_core` reads the brain's JSON decision (main.py lines 165-256):
 * which agent a decision reaches and with which query and adult flag.
 */
module Routing {
  import opened Wrappers
  import opened JsonValues
  import opened Brain

  /** Which branch of lines 167-256 a decision leads to, with the values it carries. */
  datatype Branch =
    | BrainError
    | Crash
    | PriceCheck(query: string)
    | LinkFinder(query: string, adult: bool)
    | NewsUpdate(query: string)
    | ImageGen(query: string)
    | Chat

  /** The decision `ask_gemini(..., json_mode=True)` hands back. */
  function AsDecision(answer: Option<Answer>): (d: Option<Json>)
    ensures answer.None? <==> d.None?
    ensures answer.Some? && answer.value.Parsed? ==> d == Some(answer.value.value)
  {
    match answer
    case None => None
    case Some(Parsed(v)) => Some(v)
    case Some(Text(t)) => Some(JString(t))
  }

  /** The reply text `ask_gemini(...)` hands back without JSON mode. */
  function TextOf(answer: Option<Answer>): (t: Option<string>)
    ensures t.Some? <==> answer.Some? && answer.value.Text?
  {
    match answer
    case Some(Text(t)) => Some(t)
    case _ => None
  }

  /**
   * Lines 167-256 read as a function of the decision: a missing or falsy
   * decision is a brain error; one that is truthy but not an object makes
   * `decision.get` raise (line 171); an object is dispatched on its
   * `intent`, with its `search_query` rendered by `str()` and `is_adult`
   * defaulting to false.
   */
  function Route(decision: Option<Json>): (b: Branch)
    ensures b == BrainError <==> decision.None? || !Truthy(decision.value)
    ensures b == Crash <==> decision.Some? && Truthy(decision.value) && !decision.value.JObject?
  {
    if decision.None? || !Truthy(decision.value) then BrainError
    else if !decision.value.JObject? then Crash
    else
      var fields := decision.value.fields;
      Dispatch(Get(fields, "intent"), Str(Get(fields, "search_query").GetOr(JNull)),
               Truthy(Get(fields, "is_adult").GetOr(JBool(false))))
  }

  /** The `if`/`elif` chain on the decision's `intent` (lines 173-256); anything else is chat. */
  function Dispatch(intent: Option<Json>, query: string, adult: bool): (b: Branch)
    ensures b != BrainError && b != Crash
  {
    if intent == Some(JString("PRICE_CHECK")) then PriceCheck(query)
    else if intent == Some(JString("LINK_FINDER")) then LinkFinder(query, adult)
    else if intent == Some(JString("NEWS_UPDATE")) then NewsUpdate(query)
    else if intent == Some(JString("IMAGE_GEN")) then ImageGen(query)
    else Chat
  }

  /** A decision in the format the brain prompt asks for. */
  function Decision(intent: string, query: string, adult: bool): Json
  {
    JObject([("intent", JString(intent)), ("search_query", JString(query)), ("is_adult", JBool(adult))])
  }

  /**
   * A decision written in the requested format reaches the agent it names,
   * with the query verbatim and the adult flag as given; `"CHAT"` and any
   * other intent reach the chat agent.
   */
  lemma RouteFollowsFormat(intent: string, query: string, adult: bool)
    ensures var b := Route(Some(Decision(intent, query, adult)));
            && (intent == "PRICE_CHECK" ==> b == PriceCheck(query))
            && (intent == "LINK_FINDER" ==> b == LinkFinder(query, adult))
            && (intent == "NEWS_UPDATE" ==> b == NewsUpdate(query))
            && (intent == "IMAGE_GEN" ==> b == ImageGen(query))
            && (intent !in ["PRICE_CHECK", "LINK_FINDER", "NEWS_UPDATE", "IMAGE_GEN"] ==> b == Chat)
  {
    DecisionReadsBack(intent, query, adult);
  }

  /** `decision.get` on a decision in the requested format finds each of the three members as written. */
  lemma DecisionReadsBack(intent: string, query: string, adult: bool)
    ensures var fields := Decision(intent, query, adult).fields;
            && Get(fields, "intent") == Some(JString(intent))
            && Get(fields, "search_query") == Some(JString(query))
            && Get(fields, "is_adult") == Some(JBool(adult))
  {
    var fields := Decision(intent, query, adult).fields;
    var two, one := fields[..2], fields[..1];
    assert two[..1] == one && one[..0] == [];
    assert Get(fields, "search_query") == Get(two, "search_query");
    assert Get(fields, "intent") == Get(two, "intent") == Get(one, "intent");
  }

  /** A link request whose decision leaves out `is_adult` is a safe-mode request. */
  lemma RouteAdultDefaultsToSafe(fields: seq<(string, Json)>)
    requires fields != []
    requires Get(fields, "intent") == Some(JString("LINK_FINDER"))
    requires Get(fields, "is_adult") == None
    ensures Route(Some(JObject(fields))).LinkFinder?
    ensures !Route(Some(JObject(fields))).adult
  {
  }

  /** A truthy object goes to the chat agent exactly when its intent names none of the four agents. */
  lemma RouteChatOtherwise(fields: seq<(string, Json)>)
    requires fields != []
    ensures Route(Some(JObject(fields))) == Chat
            <==> Get(fields, "intent") !in {Some(JString("PRICE_CHECK")), Some(JString("LINK_FINDER")),
                                            Some(JString("NEWS_UPDATE")), Some(JString("IMAGE_GEN"))}
  {
  }
}
