/** What the bot sends back to the chat, and the link buttons of line 229. */
module Replies {
  import opened Wrappers
  import opened Strings
  import opened Tools

  /** `InlineKeyboardButton(label, url=...)`. */
  datatype Button = Button(caption: string, url: string)

  /** Line 229: `f"🔗 {title[:30]}"`, the link emoji, a space and at most 30 code points of the title. */
  function Label(title: string): (text: string)
    ensures |text| == 2 + (if |title| <= 30 then |title| else 30)
    ensures text[..2] == "🔗 " && text[2..] == title[..|text| - 2]
  {
    "🔗 " + Take(title, 30)
  }

  /** Line 229: one row with one button per link. */
  function Buttons(links: seq<Link>): (rows: seq<seq<Button>>)
    ensures |rows| == |links|
    ensures forall i :: 0 <= i < |links| ==> rows[i] == [Button(Label(links[i].title), links[i].url)]
  {
    seq(|links|, i requires 0 <= i < |links| => [Button(Label(links[i].title), links[i].url)])
  }

  /** What the bot sends: a chat action, a text, a Markdown text, a keyboard or a photo. */
  datatype Reply =
    | Typing
    | Say(text: string)
    | SayMarkdown(markdown: Option<string>)
    | Keyboard(caption: string, rows: seq<seq<Button>>)
    | Photo(url: string)
}
