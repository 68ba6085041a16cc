/**
 * The fixed texts of `agent_core` (main.py lines 118-256): the replies the
 * bot sends verbatim, the status lines, the prompts it sends the model and
 * the search queries it builds.
 */
module Prompts {
  import opened Strings

  const VisionError := "❌ Error analyzing image."
  const DefaultCaption := "Analyze this image"
  const BrainErrorText := "⚠️ Brain Error: I couldn't think."
  const NoPriceData := "❌ ဒီနေ့အတွက် Data အသစ်မတွေ့ပါ။"
  const LinksFound := "တွေ့ရှိသော Links များ:"
  const NoLinks := "❌ Link အစစ်အမှန် မတွေ့ရှိပါ။"
  const ReadingNews := "📰 သတင်းဖတ်နေသည်..."
  const NoNews := "❌ သတင်းထူး မတွေ့ပါ။"
  const Drawing := "🎨 ပုံဖန်တီးနေသည်..."

  /** Line 181. */
  function PriceStatus(timestamp: string): string
  {
    "📉 ဈေးနှုန်းစိစစ်နေသည် (Date: " + timestamp + ")..."
  }

  /** Line 206. */
  function LinkStatus(adult: bool): string
  {
    "🔍 Link ရှာနေသည် (" + (if adult then "18+" else "Safe") + ")..."
  }

  // ---------------------------------------------------------------- prompts and queries

  /** Line 132. */
  function VisionPrompt(caption: string): string
  {
    "User sent image. Context: " + caption + ". Analyze and reply in Burmese."
  }

  /** Lines 142-163: the classification request, with the user's text quoted in it. */
  function BrainPrompt(timestamp: string, userText: string): string
  {
    BrainHead + timestamp + BrainInput + userText + BrainTask
  }

  const BrainHead := Join(BrainHeadLines, "\n")
  const BrainHeadLines: seq<string> := [
      "",
      "    You are the \"Master Control\" of a Telegram Bot.",
      "    Current Time (Myanmar): "
    ]
  const BrainInput := "\n    User Input: \""
  const BrainTask := Join(BrainTaskLines, "\n")
  const BrainTaskLines: seq<string> := [
      "\"",
      "",
      "    TASK: Analyze user intent and output a JSON decision.",
      "",
      "    INTENT CATEGORIES:",
      "    1. \"PRICE_CHECK\" -> If user asks for Gold, USD, Currency, Fuel prices.",
      "    2. \"LINK_FINDER\" -> If user asks for Movie, Series, Channel, 18+, MMSUB links.",
      "       - set \"is_adult\": true if keywords (sex, porn, leak, viral, 18+) are present.",
      "    3. \"NEWS_UPDATE\" -> If user asks for News/Events.",
      "    4. \"IMAGE_GEN\" -> If user asks to Draw/Create image.",
      "    5. \"CHAT\" -> General conversation.",
      "",
      "    JSON FORMAT:",
      "    {",
      "        \"intent\": \"PRICE_CHECK\" | \"LINK_FINDER\" | \"NEWS_UPDATE\" | \"IMAGE_GEN\" | \"CHAT\",",
      "        \"search_query\": \"Optimized Google search query based on user input\",",
      "        \"is_adult\": true/false",
      "    }",
      "    "
    ]

  /** Lines 191-200. */
  function AnalystPrompt(rawData: string, timestamp: string): string
  {
    AnalystHead + rawData + AnalystTime + timestamp + AnalystTask
  }

  const AnalystHead := Join(AnalystHeadLines, "\n")
  const AnalystHeadLines: seq<string> := [
      "",
      "            You are a Market Analyst.",
      "            Raw Data: "
    ]
  const AnalystTime := "\n            Current Time: "
  const AnalystTask := Join(AnalystTaskLines, "\n")
  const AnalystTaskLines: seq<string> := [
      "",
      "",
      "            Task: Extract ONLY valid prices for TODAY/YESTERDAY.",
      "            - Ignore \"Official Rate\". Find \"External/Black Market Rate\".",
      "            - Ignore data older than 24 hours.",
      "            - Reply in Burmese format.",
      "            "
    ]

  /** Line 240. */
  function NewsPrompt(rawData: string): string
  {
    NewsHead + rawData
  }

  const NewsHead := Join(NewsHeadLines, "\n")
  const NewsHeadLines: seq<string> := [
      "Summarize these latest Myanmar news events into a short Burmese report. Ignore old news.",
      "Data: "
    ]

  /** Line 254. */
  function ChatPrompt(userText: string): string
  {
    "User said: " + userText + "\nReply as a smart AI assistant in Burmese."
  }

  /** Line 184. */
  function PriceQuery(query: string, timestamp: string): string
  {
    query + " market price Myanmar " + timestamp + " black market"
  }

  /** Lines 208-211: a search restricted to t.me, with terms chosen by the adult flag. */
  function LinkQuery(query: string, adult: bool): string
  {
    if adult then "site:t.me \"" + query + "\" (leak OR viral OR sex OR porn)"
    else "site:t.me \"" + query + "\" (channel OR mmsub OR 1080p)"
  }

  /** Line 237. */
  function NewsQuery(query: string): string
  {
    query + " latest"
  }
}
