/** `DiscordMessagingService`: messages to the user's channel. The channel is
    a list of the texts sent; a message the assistant should remember also
    goes into the conversation history of the running LLM client. */
module Messaging {
  import opened Text
  import opened Entities
  import opened Chat

  /** The text that reaches the channel: a ping mentions the user in front. */
  function Outgoing(message: String, priority: MessagePriority, userIdentifier: String): (r: String)
    ensures priority == Normal ==> r == message
    ensures priority == Ping ==> StartsWith(r, "<@" + userIdentifier + "> ") && EndsWith(r, message)
    ensures priority == Ping ==> |r| == |userIdentifier| + 4 + |message|
  {
    if priority == Ping then "<@" + userIdentifier + "> " + message else message
  }

  class Messenger {
    /** Every text sent to the default channel, oldest first. */
    var sent: seq<String>
    /** The history of the client `DiscordWorker.GetLlmClient` returns, or
        null while no client is running. */
    const llm: ChatHistory?

    constructor (llm: ChatHistory?)
      ensures sent == [] && this.llm == llm
    {
      sent := [];
      this.llm := llm;
    }

    /** The four-argument `SendMessageAsync`: sends the text, then hands it to
        `AddAssistantMessageToHistory` of the client, if there is one and the
        message is to be kept in the context. */
    method SendMessage(message: String, priority: MessagePriority, userIdentifier: String, includeInLlmContext: bool)
      modifies this, if includeInLlmContext then {llm} else {}
      ensures sent == old(sent) + [Outgoing(message, priority, userIdentifier)]
      ensures llm != null && includeInLlmContext ==>
                llm.messages == KeepWithin(old(llm.messages) + [UserMessage(Outgoing(message, priority, userIdentifier))], llm.limit)
      ensures llm != null && !includeInLlmContext ==> llm.messages == old(llm.messages)
    {
      var text := Outgoing(message, priority, userIdentifier);
      sent := sent + [text];
      if includeInLlmContext && llm != null {
        llm.Add(UserMessage(text));
      }
    }

    /** The two-argument `SendMessageAsync`: normal priority, no user. */
    method Send(message: String, includeInLlmContext: bool)
      modifies this, if includeInLlmContext then {llm} else {}
      ensures sent == old(sent) + [message]
      ensures llm != null && includeInLlmContext ==>
                llm.messages == KeepWithin(old(llm.messages) + [UserMessage(message)], llm.limit)
      ensures llm != null && !includeInLlmContext ==> llm.messages == old(llm.messages)
    {
      SendMessage(message, Normal, "", includeInLlmContext);
    }
  }
}
