/**
 * The operator notification channel (`send_telegram_notification`): which
 * emoji a status gets, how the message text is laid out, and when a request
 * to the Telegram Bot API is made at all. The HTTP call itself is not
 * modelled; `Outgoing` is the request that would be posted.
 */
module Notifier {
  import opened Options

  /** One call of `send_telegram_notification(message, status)`. */
  datatype Notification = Notification(status: string, message: string)

  /** The two environment values the channel reads (`None` when unset). */
  datatype Config = Config(botToken: Option<string>, chatId: Option<string>)

  /** The JSON body and address of a `sendMessage` call. */
  datatype Request = Request(url: string, chatId: string, text: string, parseMode: string)

  const InfoEmoji: string := "\U{2139}\U{FE0F}"
  const SuccessEmoji: string := "\U{2705}"
  const WarningEmoji: string := "\U{26A0}\U{FE0F}"
  const ErrorEmoji: string := "\U{274C}"

  const EmojiMap: map<string, string> :=
    map["info" := InfoEmoji, "success" := SuccessEmoji, "warning" := WarningEmoji, "error" := ErrorEmoji]

  const Footer: string := "\n\n_Prefecture Slot Checker_"

  /** `emoji_map.get(status, "ℹ️")`: the four known statuses, info for anything else. */
  function Emoji(status: string): (e: string)
    ensures status == "success" ==> e == SuccessEmoji
    ensures status == "warning" ==> e == WarningEmoji
    ensures status == "error" ==> e == ErrorEmoji
    ensures status != "success" && status != "warning" && status != "error" ==> e == InfoEmoji
  {
    if status in EmojiMap then EmojiMap[status] else InfoEmoji
  }

  /** Upper-casing of one character, for ASCII letters. */
  function UpperChar(c: char): char {
    if 'a' <= c <= 'z' then (c as int - 'a' as int + 'A' as int) as char else c
  }

  /**
   * `status.upper()`: no lower-case letter is left, each letter becomes its
   * capital, and every other character is kept.
   */
  function Upper(s: string): (u: string)
    ensures |u| == |s|
    ensures forall k :: 0 <= k < |u| ==> !('a' <= u[k] <= 'z')
    ensures forall k :: 0 <= k < |s| && 'a' <= s[k] <= 'z' ==> 'A' <= u[k] <= 'Z' && u[k] as int - 'A' as int == s[k] as int - 'a' as int
    ensures forall k :: 0 <= k < |s| && !('a' <= s[k] <= 'z') ==> u[k] == s[k]
  {
    seq(|s|, k requires 0 <= k < |s| => UpperChar(s[k]))
  }

  /** The headings of the two statuses `run` sends. */
  lemma UpperOfStatuses()
    ensures Upper("warning") == "WARNING" && Upper("error") == "ERROR"
  {
  }

  /** Everything of the formatted text that comes before the message. */
  function Header(status: string): string {
    Emoji(status) + " *Prefecture Bot - " + Upper(status) + "*\n\n"
  }

  /** The Markdown text sent for `message` under `status`. */
  function Format(status: string, message: string): (text: string)
    ensures |text| == |Header(status)| + |message| + |Footer|
    ensures text[..|Emoji(status)|] == Emoji(status)
    ensures text[|text| - |Footer|..] == Footer
  {
    var text := Header(status) + message + Footer;
    assert text[..|Header(status)|][..|Emoji(status)|] == Emoji(status);
    text
  }

  /** Recovers the message from a formatted text, if the text has the layout of `status`. */
  function MessageOf(status: string, text: string): Option<string> {
    var h, f := Header(status), Footer;
    if |h| + |f| <= |text| && text[..|h|] == h && text[|text| - |f|..] == f
    then Some(text[|h|..|text| - |f|])
    else None
  }

  /** The message can be read back out of every formatted text: formatting loses nothing. */
  lemma FormatRoundTrip(status: string, message: string)
    ensures MessageOf(status, Format(status, message)) == Some(message)
  {
    var h, text := Header(status), Format(status, message);
    assert text == h + message + Footer;
    assert text[..|h|] == h;
    assert text[|h|..|text| - |Footer|] == message;
  }

  /** Python truthiness of an environment value: set and not empty. */
  predicate Present(v: Option<string>) {
    v.Some? && v.value != ""
  }

  /**
   * The request `send_telegram_notification` posts for `n`: none when the bot
   * token or the chat id is missing or empty, otherwise a Markdown
   * `sendMessage` to the configured chat whose text is `Format`.
   */
  function Outgoing(cfg: Config, n: Notification): (r: Option<Request>)
    ensures r.None? <==> !Present(cfg.botToken) || !Present(cfg.chatId)
    ensures r.Some? ==> && r.value.url == "https://api.telegram.org/bot" + cfg.botToken.value + "/sendMessage"
                        && r.value.chatId == cfg.chatId.value
                        && r.value.parseMode == "Markdown"
                        && r.value.text == Format(n.status, n.message)
                        && MessageOf(n.status, r.value.text) == Some(n.message)
                        && r.value.text[..|Emoji(n.status)|] == Emoji(n.status)
  {
    if !Present(cfg.botToken) then None
    else if !Present(cfg.chatId) then None
    else
      FormatRoundTrip(n.status, n.message);
      Some(Request("https://api.telegram.org/bot" + cfg.botToken.value + "/sendMessage",
                   cfg.chatId.value, Format(n.status, n.message), "Markdown"))
  }

}
