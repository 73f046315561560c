/** `LanguageTutorLlmClient`: a single completion per message, with no tools,
    the same bounded history and the same fallback seeding as the assistant. */
module Tutor {
  import opened Text
  import opened Wrappers
  import opened Chat
  import opened AssistantLlm

  /** The model, given the history the tutor prompt is prepended to. */
  type TutorCompleter = seq<ChatMessage> -> Completion

  /** The private `SendAsync` of the tutor: the message is added, then one
      completion is requested. A provider failure answers "System error: "
      with the failure's text and records it as a system message; otherwise
      the reply is the completion's text, even when it is empty, and the
      completion is recorded. No tool call is ever reported. */
  function TutorTurn(history: seq<ChatMessage>, message: ChatMessage, limit: nat, complete: TutorCompleter): (r: TurnResult)
    ensures r.response.functionCallCount == 0 && UserCount(r.history) <= limit
    ensures var c := complete(KeepWithin(history + [message], limit));
            && |r.history| > 0
            && (c.ProviderError? ==>
                  r.response.message == "System error: " + c.message
                  && r.history[|r.history| - 1] == SystemMessage(r.response.message))
            && (c.Completed? ==>
                  (r.response.message == [] <==> |c.content| == 0)
                  && r.history[|r.history| - 1] == AssistantMessage(c.content, c.calls))
  {
    var h := KeepWithin(history + [message], limit);
    var c := complete(h);
    if c.ProviderError? then
      var text := "System error: " + c.message;
      LastSurvives(h + [SystemMessage(text)], limit);
      TurnResult(LlmResponse(text, 0), KeepWithin(h + [SystemMessage(text)], limit))
    else
      LastSurvives(h + [AssistantMessage(c.content, c.calls)], limit);
      CombinedEmptyIffNoContent(c.content);
      TurnResult(LlmResponse(Combined(c.content), 0), KeepWithin(h + [AssistantMessage(c.content, c.calls)], limit))
  }

  class LanguageTutorLlmClient {
    const history: ChatHistory

    constructor (limit: nat)
      ensures fresh(history) && history.messages == [] && history.limit == limit
    {
      history := new ChatHistory(limit);
    }

    /** The public `SendAsync`: seeds an empty history from the fallback
        messages, then asks about the user's message. */
    method SendAsync(message: String, fallback: Option<seq<String>>, complete: TutorCompleter) returns (r: LlmResponse)
      modifies history
      ensures TurnResult(r, history.messages)
              == TutorTurn(Seeded(old(history.messages), fallback), UserMessage(message), history.limit, complete)
    {
      history.Seed(fallback);
      r := Send(UserMessage(message), complete);
    }

    /** `SendSelfPromptAsync`: the prompt itself, as a system message. */
    method SendSelfPromptAsync(prompt: String, complete: TutorCompleter) returns (r: LlmResponse)
      modifies history
      ensures TurnResult(r, history.messages) == TutorTurn(old(history.messages), SystemMessage(prompt), history.limit, complete)
    {
      r := Send(SystemMessage(prompt), complete);
    }

    /** `AddAssistantMessageToHistory`: added as a USER message, as in the
        assistant client. */
    method AddAssistantMessageToHistory(message: String)
      modifies history
      ensures history.messages == KeepWithin(old(history.messages) + [UserMessage(message)], history.limit)
    {
      history.Add(UserMessage(message));
    }

    method Send(message: ChatMessage, complete: TutorCompleter) returns (r: LlmResponse)
      modifies history
      ensures TurnResult(r, history.messages) == TutorTurn(old(history.messages), message, history.limit, complete)
    {
      history.Add(message);
      var c := complete(history.messages);
      if c.ProviderError? {
        history.Add(SystemMessage("System error: " + c.message));
        return LlmResponse("System error: " + c.message, 0);
      }
      history.Add(AssistantMessage(c.content, c.calls));
      r := LlmResponse(Combined(c.content), 0);
    }
  }
}
