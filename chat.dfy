/** Chat messages, tools and tool responses exchanged with the language model,
    and the bounded conversation history both clients keep (`_history` with
    `AddToHistory` and the fallback seeding of `SendAsync`). */
module Chat {
  import opened Text
  import opened Wrappers

  /** A piece of a completion's content: its text and its refusal text. */
  datatype ContentPart = ContentPart(text: String, refusal: String)

  /** A function call the model asks for. */
  datatype ToolCall = ToolCall(id: String, functionName: String, arguments: String)

  /** The roles of OpenAI chat messages. Only `UserMessage` counts towards the
      history limit. */
  datatype ChatMessage =
    | UserMessage(text: String)
    | SystemMessage(text: String)
    | AssistantMessage(content: seq<ContentPart>, calls: seq<ToolCall>)
    | ToolMessage(callId: String, text: String)

  /** A tool offered to the model; only its function name matters here. */
  datatype ChatTool = ChatTool(functionName: String, schema: String)

  /** `ToolResponse`: the text for the model, the text for the user, and the
      tools a documentation request adds (`null` when none). */
  datatype ToolResponse = ToolResponse(assistantResponse: String, userResponse: String, tools: Option<seq<ChatTool>>)

  /** A tool response whose two texts are the same (the one-argument constructor). */
  function Response(text: String): ToolResponse {
    ToolResponse(text, text, None)
  }

  /** `LlmResponse`: the reply text and the number of tool calls executed. */
  datatype LlmResponse = LlmResponse(message: String, functionCallCount: int)

  /** The number of user-role messages. */
  function UserCount(s: seq<ChatMessage>): (n: nat)
    ensures n <= |s|
  {
    if |s| == 0 then 0 else (if s[0].UserMessage? then 1 else 0) + UserCount(s[1..])
  }

  lemma {:induction false} UserCountAppend(s: seq<ChatMessage>, m: ChatMessage)
    ensures UserCount(s + [m]) == UserCount(s) + (if m.UserMessage? then 1 else 0)
  {
    if |s| > 0 {
      assert (s + [m])[1..] == s[1..] + [m];
      UserCountAppend(s[1..], m);
    }
  }

  /** What the dequeue loop of `AddToHistory` leaves: the messages from the
      front are dropped, whatever their role, until at most `limit` user
      messages remain. */
  function KeepWithin(s: seq<ChatMessage>, limit: nat): (r: seq<ChatMessage>)
    ensures UserCount(r) <= limit
    ensures |r| <= |s|
    decreases |s|
  {
    if UserCount(s) <= limit then s else KeepWithin(s[1..], limit)
  }

  /** What is kept is a suffix: eviction only ever drops the oldest messages. */
  lemma {:induction false} KeepWithinSuffix(s: seq<ChatMessage>, limit: nat)
    ensures KeepWithin(s, limit) == s[|s| - |KeepWithin(s, limit)|..]
    decreases |s|
  {
    if UserCount(s) > limit {
      KeepWithinSuffix(s[1..], limit);
      assert s[1..][|s[1..]| - |KeepWithin(s, limit)|..] == s[|s| - |KeepWithin(s, limit)|..];
    }
  }

  /** The history kept is the LONGEST suffix within the limit: every longer
      suffix has too many user messages. */
  lemma {:induction false} KeepWithinLongest(s: seq<ChatMessage>, limit: nat)
    ensures forall k :: 0 <= k < |s| - |KeepWithin(s, limit)| ==> UserCount(s[k..]) > limit
    decreases |s|
  {
    if UserCount(s) > limit {
      KeepWithinLongest(s[1..], limit);
      forall k | 0 <= k < |s| - |KeepWithin(s, limit)| ensures UserCount(s[k..]) > limit {
        if k > 0 {
          assert s[k..] == s[1..][k - 1..];
        }
      }
    }
  }

  /** Appending a non-user message to a history within the limit evicts nothing. */
  lemma {:induction false} NonUserAppendKeepsAll(s: seq<ChatMessage>, m: ChatMessage, limit: nat)
    requires UserCount(s) <= limit && !m.UserMessage?
    ensures KeepWithin(s + [m], limit) == s + [m]
  {
    UserCountAppend(s, m);
  }

  /** The texts as user messages, last text first. */
  function ReversedUsers(texts: seq<String>): (r: seq<ChatMessage>)
    ensures |r| == |texts|
    ensures forall j :: 0 <= j < |r| ==> r[j] == UserMessage(texts[|texts| - 1 - j])
  {
    if |texts| == 0 then []
    else [UserMessage(texts[|texts| - 1])] + ReversedUsers(texts[..|texts| - 1])
  }

  /** The history after seeding: an empty history takes the fallback texts
      when there are any; otherwise nothing changes. */
  function Seeded(messages: seq<ChatMessage>, fallback: Option<seq<String>>): (r: seq<ChatMessage>)
    ensures messages != [] || fallback.None? ==> r == messages
    ensures messages == [] && fallback.Some? ==>
              |r| == |fallback.value|
              && forall j :: 0 <= j < |r| ==> r[j] == UserMessage(fallback.value[|fallback.value| - 1 - j])
  {
    if messages == [] && fallback.Some? then ReversedUsers(fallback.value) else messages
  }

  /** The conversation history of a client, with the configured
      `HistorySizeLimit`. */
  class ChatHistory {
    var messages: seq<ChatMessage>
    const limit: nat

    constructor (limit: nat)
      ensures messages == [] && this.limit == limit
    {
      messages := [];
      this.limit := limit;
    }

    /** `AddToHistory`: enqueue, then dequeue from the front while there are
        more user messages than the limit. */
    method Add(m: ChatMessage)
      modifies this
      ensures messages == KeepWithin(old(messages) + [m], limit)
      ensures UserCount(messages) <= limit
    {
      messages := messages + [m];
      while UserCount(messages) > limit
        invariant KeepWithin(messages, limit) == KeepWithin(old(messages) + [m], limit)
        decreases |messages|
      {
        messages := messages[1..];
      }
    }

    /** The fallback seeding of `SendAsync`: only into an empty history, the
        fallback texts in reverse order, each as a user message (the implicit
        string conversion), without the eviction loop. */
    method Seed(fallback: Option<seq<String>>)
      modifies this
      ensures messages == Seeded(old(messages), fallback)
    {
      if messages == [] && fallback.Some? {
        var f := fallback.value;
        var k := |f|;
        while k > 0
          invariant 0 <= k <= |f|
          invariant messages + ReversedUsers(f[..k]) == ReversedUsers(f)
        {
          assert f[..k][..k - 1] == f[..k - 1];
          messages := messages + [UserMessage(f[k - 1])];
          k := k - 1;
        }
        assert f[..0] == [];
      }
    }
  }
}
