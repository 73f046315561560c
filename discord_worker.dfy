/** `DiscordWorker`: the handler of a new message in the user's channel. It
    ignores bots, gathers a short fallback history from the channel, quotes
    the message a reply refers to, asks the assistant and answers with its
    reply cut to what Discord accepts. */
module Discord {
  import opened Text
  import opened Wrappers
  import opened Chat
  import opened AssistantLlm
  import opened StringUtils

  datatype Author = Author(id: int, isBot: bool)

  /** A message of the channel; `referenced` is the message it replies to. */
  datatype Message = Message(id: int, author: Author, content: String, referenced: Option<Message>)

  /** The channel as `GetMessagesBeforeAsync` sees it: the messages before a
      given id, in the order the API delivers them. */
  type Channel = int -> seq<Message>

  /** The `limit` of the history request. */
  const HistoryLimit: nat := 4

  /** The length Discord accepts, with room left for the suffix. */
  const ReplyLimit: nat := 1900

  // ---- Quoting the referenced message ----

  /** `Replace("\n", "\n> ")`: every line break is followed by a quote mark. */
  function Quote(s: String): (r: String)
    ensures |r| >= |s|
    ensures forall i :: 0 <= i < |r| && r[i] == '\n' ==> i + 2 < |r| && r[i + 1] == '>' && r[i + 2] == ' '
  {
    if s == [] then []
    else if s[0] == '\n' then "\n> " + Quote(s[1..])
    else [s[0]] + Quote(s[1..])
  }

  /** Drops the quote mark after every line break, reading from the left. */
  function Unquote(r: String): String {
    if r == [] then []
    else if |r| >= 3 && r[..3] == "\n> " then "\n" + Unquote(r[3..])
    else [r[0]] + Unquote(r[1..])
  }

  /** The quoting loses nothing: the referenced text is recovered exactly,
      even when it already holds quote marks. */
  lemma {:induction false} UnquoteQuote(s: String)
    ensures Unquote(Quote(s)) == s
  {
    if s != [] {
      UnquoteQuote(s[1..]);
      var q := Quote(s);
      if s[0] == '\n' {
        assert q == "\n> " + Quote(s[1..]);
        assert q[..3] == "\n> " && q[3..] == Quote(s[1..]);
        assert s == "\n" + s[1..];
      } else {
        assert q == [s[0]] + Quote(s[1..]);
        assert q[1..] == Quote(s[1..]);
        assert s == [s[0]] + s[1..];
      }
    }
  }

  /** The label of the quote: "Assistant" for a bot, "User" otherwise. */
  function QuotedUser(author: Author): (r: String)
    ensures r == "Assistant" <==> author.isBot
  {
    if author.isBot then "Assistant" else "User"
  }

  /** The label line and the quote mark of the first quoted line. */
  function QuoteHead(author: Author): (r: String)
    ensures StartsWith(r, "Quote from Assistant:") <==> author.isBot
  {
    var r := "Quote from " + QuotedUser(author) + ":" + NewLine + "> ";
    assert !author.isBot ==> r[11] == 'U';
    r
  }

  /** The blank line and the new message after the quote. */
  function ReplyTail(content: String): String {
    NewLine + NewLine + content + NewLine
  }

  /** `BuildMessageContentWithReply`: the label line, the referenced text with
      every line quoted, a blank line, then the new message, each line ended
      by `AppendLine`. */
  function BuildMessageContentWithReply(m: Message): String
    requires m.referenced.Some?
  {
    var quoted := m.referenced.value;
    QuoteHead(quoted.author) + Quote(quoted.content) + ReplyTail(m.content)
  }

  /** The content sent for a reply opens with the label of the quoted author,
      ends with the new message after a blank line, and between the two holds
      the referenced text, quoted line by line and recoverable as it was. */
  lemma ReplyContentFramed(m: Message)
    requires m.referenced.Some?
    ensures var r, head, tail := BuildMessageContentWithReply(m), QuoteHead(m.referenced.value.author),
                                 ReplyTail(m.content);
            && |head| + |tail| <= |r|
            && StartsWith(r, head) && EndsWith(r, tail)
            && Unquote(r[|head|..|r| - |tail|]) == m.referenced.value.content
  {
    var quoted := m.referenced.value;
    var head, body, tail := QuoteHead(quoted.author), Quote(quoted.content), ReplyTail(m.content);
    var r := BuildMessageContentWithReply(m);
    assert r[..|head|] == head;
    assert r[|r| - |tail|..] == tail;
    assert r[|head|..|r| - |tail|] == body;
    UnquoteQuote(quoted.content);
  }

  // ---- The handler, as functions of the message and the channel ----

  /** The message whose predecessors make the fallback history: the
      referenced one for a reply, the message itself otherwise. */
  function HistoryAnchor(m: Message): int {
    if m.referenced.Some? then m.referenced.value.id else m.id
  }

  /** `GetMessagesBeforeAsync(id, limit)`: the first `limit` messages before `id`. */
  function MessagesBefore(channel: Channel, id: int, limit: nat): (r: seq<Message>)
    ensures |r| <= limit && |r| <= |channel(id)| && r == channel(id)[..|r|]
    ensures |r| == limit || r == channel(id)
  {
    var all := channel(id);
    if |all| <= limit then all else all[..limit]
  }

  function Contents(ms: seq<Message>): (r: seq<String>)
    ensures |r| == |ms| && forall i :: 0 <= i < |ms| ==> r[i] == ms[i].content
  {
    seq(|ms|, i requires 0 <= i < |ms| => ms[i].content)
  }

  /** The fallback history: the contents of up to four messages before the
      anchor, then the referenced content for a reply. */
  function FallbackHistory(m: Message, channel: Channel): (r: seq<String>)
    ensures var before := MessagesBefore(channel, HistoryAnchor(m), HistoryLimit);
            && |before| <= |r| && r[..|before|] == Contents(before)
            && (m.referenced.None? ==> |r| == |before|)
            && (m.referenced.Some? ==> |r| == |before| + 1 && r[|r| - 1] == m.referenced.value.content)
  {
    var before := Contents(MessagesBefore(channel, HistoryAnchor(m), HistoryLimit));
    if m.referenced.Some? then before + [m.referenced.value.content] else before
  }

  /** The text handed to the assistant. */
  function Prompt(m: Message): (r: String)
    ensures m.referenced.None? ==> r == m.content
    ensures m.referenced.Some? ==> EndsWith(r, ReplyTail(m.content))
  {
    if m.referenced.Some? then
      ReplyContentFramed(m);
      BuildMessageContentWithReply(m)
    else m.content
  }

  /** The answer in the channel: the trimmed reply with a line break, cut to
      1900 characters with a suffix giving the length it had. */
  function ReplyText(response: String): (r: String)
    ensures var full := Trim(response) + NewLine;
            var suffix := "... (message was " + IntToString(|full|) + " characters)";
            && (|full| <= ReplyLimit ==> r == full)
            && (|full| > ReplyLimit ==> r == full[..ReplyLimit] + suffix)
  {
    var full := Trim(response) + NewLine;
    Truncate(full, ReplyLimit, "... (message was " + IntToString(|full|) + " characters)")
  }

  /** The answer never exceeds Discord's 2000-character limit: a .NET string
      is shorter than 2^31 characters, so its length prints in at most ten
      digits. */
  lemma ReplyFits(response: String)
    requires |response| < 0x8000_0000
    ensures |ReplyText(response)| <= 2000
  {
    var full := Trim(response) + NewLine;
    if |full| > ReplyLimit {
      DigitsBelow(|full|, 10);
    }
  }

  function Pow10(k: nat): (r: nat)
    ensures r >= 1
  {
    if k == 0 then 1 else 10 * Pow10(k - 1)
  }

  /** A number below 10^k prints with at most k digits. */
  lemma {:induction false} DigitsBelow(n: nat, k: nat)
    requires 1 <= k && n < Pow10(k)
    ensures |IntToString(n)| <= k
  {
    if n >= 10 {
      assert Pow10(1) == 10;
      DigitsBelow(n / 10, k - 1);
      assert IntToString(n) == IntToString(n / 10) + [DigitChar(n % 10)];
    }
  }

  /** The assistant's turn on a message: the history is seeded with the
      fallback texts when it is empty, then the prompt is sent. */
  function Asked(history: seq<ChatMessage>, limit: nat, baseTools: seq<ChatTool>, toolsOf: ToolGroup -> seq<ChatTool>,
                 m: Message, channel: Channel, complete: Completer, run: Runner): TurnResult
  {
    RunTurn(StartTurn(Seeded(history, Some(FallbackHistory(m, channel))), UserMessage(Prompt(m)), limit, baseTools, toolsOf),
            limit, complete, run)
  }

  /** An answer sent to a message. */
  datatype Reply = Reply(to: int, text: String)

  class DiscordWorker {
    /** The client `GetLlmClient` returns once the worker has started. */
    const llm: OpenAiLlmClient?
    /** Every answer posted, oldest first. */
    var replies: seq<Reply>

    constructor (llm: OpenAiLlmClient?)
      ensures this.llm == llm && replies == []
    {
      this.llm := llm;
      replies := [];
    }

    /** `HandleMessageCreatedAsync`: a bot's message is ignored; otherwise the
        assistant is asked, seeded with the fallback history, and its answer
        is posted as a reply. */
    method HandleMessageCreated(m: Message, channel: Channel, complete: Completer, run: Runner)
      requires llm != null
      modifies this, llm.history
      ensures m.author.isBot ==> replies == old(replies) && llm.history.messages == old(llm.history.messages)
      ensures !m.author.isBot ==>
                var turn := Asked(old(llm.history.messages), llm.history.limit, llm.baseTools, llm.toolsOf,
                                  m, channel, complete, run);
                && llm.history.messages == turn.history
                && replies == old(replies) + [Reply(m.id, ReplyText(turn.response.message))]
    {
      if !m.author.isBot {
        Answer(m, channel, complete, run);
      }
    }

    /** Asks the assistant and posts its answer as a reply to the message. */
    method Answer(m: Message, channel: Channel, complete: Completer, run: Runner)
      requires llm != null
      modifies this, llm.history
      ensures var turn := Asked(old(llm.history.messages), llm.history.limit, llm.baseTools, llm.toolsOf,
                                m, channel, complete, run);
              && llm.history.messages == turn.history
              && replies == old(replies) + [Reply(m.id, ReplyText(turn.response.message))]
    {
      ghost var turn := Asked(llm.history.messages, llm.history.limit, llm.baseTools, llm.toolsOf, m, channel, complete, run);
      var response := Ask(m, channel, complete, run);
      assert response == turn.response && llm.history.messages == turn.history;
      replies := replies + [Reply(m.id, ReplyText(response.message))];
    }

    /** The fallback history is gathered and the assistant asked about the
        message, quoted with the message it replies to. */
    method Ask(m: Message, channel: Channel, complete: Completer, run: Runner) returns (response: LlmResponse)
      requires llm != null
      modifies llm.history
      ensures TurnResult(response, llm.history.messages)
              == Asked(old(llm.history.messages), llm.history.limit, llm.baseTools, llm.toolsOf, m, channel, complete, run)
    {
      var before := MessagesBefore(channel, HistoryAnchor(m), HistoryLimit);
      var fallback := Contents(before);
      var content := m.content;
      if m.referenced.Some? {
        fallback := fallback + [m.referenced.value.content];
        content := BuildMessageContentWithReply(m);
      }
      response := llm.SendAsync(content, Some(fallback), complete, run);
    }
  }
}
