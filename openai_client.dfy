/** `OpenAiLlmClient`: one turn of the assistant. It offers the first-layer
    tools plus the second-layer groups the message's keywords predict, then
    asks the model for completions and runs the tool calls it asks for, for at
    most ten rounds and three provider failures in all. The model is the
    `complete` oracle and the tool dispatcher the `run` oracle. */
module AssistantLlm {
  import opened Text
  import opened Wrappers
  import opened Chat

  // ---- Keyword prediction of second-layer tool groups ----

  datatype ToolGroup = Reminders | Weather | ShoppingList | HomeAutomation

  /** The group's name (`nameof`). */
  function GroupName(g: ToolGroup): String {
    match g
    case Reminders => "Reminders"
    case Weather => "Weather"
    case ShoppingList => "ShoppingList"
    case HomeAutomation => "HomeAutomation"
  }

  /** The alternatives of each group's regular expression, spelled out
      (`remind(er)?` is "remind" or "reminder", `köpa?` is "köp" or "köpa"). */
  function Keywords(g: ToolGroup): seq<String> {
    match g
    case Reminders => ["remind", "reminder", "ping"]
    case Weather => ["weather", "rain", "snow"]
    case ShoppingList => ["shopping", "inköpslista", "buy", "köp", "köpa"]
    case HomeAutomation => ["lamp", "lamps", "light", "lights", "brightness"]
  }

  /** A character of `\w` among those the model distinguishes: ASCII letters,
      digits, the underscore and the Latin-1 letters, including the feminine
      and masculine ordinals and the micro sign. */
  predicate IsWordChar(c: char) {
    ('a' <= c <= 'z') || ('A' <= c <= 'Z') || ('0' <= c <= '9') || c == '_'
    || c == '\U{00AA}' || c == '\U{00B5}' || c == '\U{00BA}'
    || ('\U{00C0}' <= c <= '\U{00FF}' && c != '\U{00D7}' && c != '\U{00F7}')
  }

  /** Case folding of ASCII and Latin-1 capitals. */
  function LowerChar(c: char): char {
    if 'A' <= c <= 'Z' || ('\U{00C0}' <= c <= '\U{00DE}' && c != '\U{00D7}') then (c as int + 32) as char else c
  }

  function Lower(s: String): (r: String)
    ensures |r| == |s|
  {
    seq(|s|, k requires 0 <= k < |s| => LowerChar(s[k]))
  }

  /** `word` (in lower case) occurs at `i` case-insensitively, between word
      boundaries (`\b...\b`). */
  predicate WordAt(text: String, word: String, i: int) {
    && 0 <= i && i + |word| <= |text|
    && Lower(text[i..i + |word|]) == word
    && (i == 0 || !IsWordChar(text[i - 1]))
    && (i + |word| == |text| || !IsWordChar(text[i + |word|]))
  }

  ghost predicate HasWord(text: String, word: String) {
    exists i :: WordAt(text, word, i)
  }

  /** Scans `text` from `start` for a whole-word occurrence of `word`. */
  function FindWord(text: String, word: String, start: nat): (found: bool)
    ensures found <==> exists i :: start <= i && WordAt(text, word, i)
    decreases |text| - start
  {
    if start + |word| > |text| then false
    else WordAt(text, word, start) || FindWord(text, word, start + 1)
  }

  /** Some keyword of the list occurs as a whole word. */
  function MatchesAny(text: String, words: seq<String>): (found: bool)
    ensures found <==> exists w :: w in words && HasWord(text, w)
  {
    if |words| == 0 then false
    else
      assert FindWord(text, words[0], 0) <==> HasWord(text, words[0]);
      FindWord(text, words[0], 0) || MatchesAny(text, words[1..])
  }

  ghost predicate Mentions(text: String, g: ToolGroup) {
    exists w :: w in Keywords(g) && HasWord(text, w)
  }

  ghost predicate Ranked(gs: seq<ToolGroup>) {
    forall i, j :: 0 <= i < j < |gs| ==> GroupRank(gs[i]) < GroupRank(gs[j])
  }

  function GroupRank(g: ToolGroup): int {
    match g
    case Reminders => 0
    case Weather => 1
    case ShoppingList => 2
    case HomeAutomation => 3
  }

  /** The groups of `gs` whose keywords occur, in the order of `gs`. */
  function Select(text: String, gs: seq<ToolGroup>): (r: seq<ToolGroup>)
    ensures forall g :: g in r <==> g in gs && Mentions(text, g)
    ensures Ranked(gs) ==> Ranked(r)
  {
    if |gs| == 0 then []
    else
      var rest := Select(text, gs[1..]);
      var hit := MatchesAny(text, Keywords(gs[0]));
      assert hit <==> Mentions(text, gs[0]);
      if hit then
        assert Ranked(gs) ==> forall g :: g in rest ==> GroupRank(gs[0]) < GroupRank(g);
        [gs[0]] + rest
      else rest
  }

  /** `GetPredictedTools`: the groups whose expression matches the message,
      in the order Reminders, Weather, ShoppingList, HomeAutomation. */
  function PredictGroups(text: String): (r: seq<ToolGroup>)
    ensures forall g :: g in r <==> Mentions(text, g)
    ensures Ranked(r)
  {
    Select(text, [Reminders, Weather, ShoppingList, HomeAutomation])
  }

  /** The system note naming the predicted groups. */
  function GroupsNote(groups: seq<ToolGroup>): String {
    "Added second layer groups: " + Join(", ", seq(|groups|, k requires 0 <= k < |groups| => GroupName(groups[k])))
    + ". The assistant does NOT need to request documentation for these."
  }

  // ---- Offered tools ----

  predicate HasName(tools: seq<ChatTool>, name: String) {
    exists t :: t in tools && t.functionName == name
  }

  predicate NamesDistinct(tools: seq<ChatTool>) {
    forall i, j :: 0 <= i < j < |tools| ==> tools[i].functionName != tools[j].functionName
  }

  /** The offered list after each of `extra` was added unless a tool of the
      same function name is already offered. */
  function Merged(tools: seq<ChatTool>, extra: seq<ChatTool>): (r: seq<ChatTool>)
    ensures |tools| <= |r| && r[..|tools|] == tools
    ensures forall t :: t in r ==> t in tools || t in extra
    ensures forall t :: t in extra ==> HasName(r, t.functionName)
    ensures NamesDistinct(tools) ==> NamesDistinct(r)
    decreases |extra|
  {
    if |extra| == 0 then tools
    else if HasName(tools, extra[0].functionName) then
      var r := Merged(tools, extra[1..]);
      PrefixKeepsName(tools, r, extra[0].functionName);
      r
    else
      var r := Merged(tools + [extra[0]], extra[1..]);
      assert r[|tools|] == (tools + [extra[0]])[|tools|];
      r
  }

  lemma PrefixKeepsName(tools: seq<ChatTool>, r: seq<ChatTool>, name: String)
    requires |tools| <= |r| && r[..|tools|] == tools && HasName(tools, name)
    ensures HasName(r, name)
  {
    var t :| t in tools && t.functionName == name;
    var k :| 0 <= k < |tools| && tools[k] == t;
    assert r[k] == t;
  }

  /** The loops that add tools to `options.Tools`: each tool is appended only
      when no offered tool has its function name. */
  method MergeTools(tools: seq<ChatTool>, extra: seq<ChatTool>) returns (r: seq<ChatTool>)
    ensures r == Merged(tools, extra)
  {
    r := tools;
    var k := 0;
    while k < |extra|
      invariant 0 <= k <= |extra|
      invariant Merged(r, extra[k..]) == Merged(tools, extra)
    {
      assert extra[k..][1..] == extra[k + 1..];
      if !(exists t :: t in r && t.functionName == extra[k].functionName) {
        r := r + [extra[k]];
      }
      k := k + 1;
    }
  }

  /** The tools of the predicted groups, group after group (`SelectMany`). */
  function GroupTools(groups: seq<ToolGroup>, toolsOf: ToolGroup -> seq<ChatTool>): seq<ChatTool> {
    if |groups| == 0 then [] else toolsOf(groups[0]) + GroupTools(groups[1..], toolsOf)
  }

  /** The tools the responses of one round add, response after response. */
  function ResponseTools(responses: seq<ToolResponse>): seq<ChatTool> {
    if |responses| == 0 then []
    else responses[0].tools.GetOr([]) + ResponseTools(responses[1..])
  }

  // ---- Completions ----

  /** What one completion request yields: the provider throws, or the model
      answers with content, a finish reason and tool calls. */
  datatype Completion =
    | ProviderError(message: String)
    | Completed(content: seq<ContentPart>, finishedForToolCalls: bool, calls: seq<ToolCall>)

  /** The reply text: each content part's text and refusal on two lines,
      the parts joined by new lines. */
  function Combined(content: seq<ContentPart>): String {
    Join(NewLine, seq(|content|, k requires 0 <= k < |content| => content[k].text + NewLine + content[k].refusal))
  }

  /** The reply text is empty exactly when the completion has no content. */
  lemma {:induction false} CombinedEmptyIffNoContent(content: seq<ContentPart>)
    ensures Combined(content) == [] <==> |content| == 0
  {
    if |content| > 0 {
      var parts := seq(|content|, k requires 0 <= k < |content| => content[k].text + NewLine + content[k].refusal);
      assert |parts[0]| > 0;
      if |parts| > 1 {
        assert Join(NewLine, parts) == parts[0] + NewLine + Join(NewLine, parts[1..]);
      }
    }
  }

  function NoResponse(round: nat): String {
    "*No response received*. Executed " + IntToString(round) + " tool calls."
  }

  // ---- The turn, as a reference definition ----

  /** The model: the `n`-th completion request of the turn, given the history
      and the offered tools. */
  type Completer = (nat, seq<ChatMessage>, seq<ChatTool>) -> Completion

  /** What a tool call does as seen from the client: its response, and the
      texts it hands to this client's `AddAssistantMessageToHistory` while it
      runs. A `MessageUser` call kept in the context does that through
      `DiscordMessagingService`, which reaches the client `DiscordWorker`
      runs, so in a Discord turn the text lands in the very history the turn
      is using. */
  datatype ToolRun = ToolRun(response: ToolResponse, remembered: seq<String>)

  /** The tool dispatcher: the `n`-th tool call of the turn. */
  type Runner = (nat, ToolCall) -> ToolRun

  /** The loop variables of the private `SendAsync`: the history, the offered
      tools, `i`, `errorCount` and the tool responses collected. */
  datatype TurnState = TurnState(history: seq<ChatMessage>, tools: seq<ChatTool>, round: nat, errors: nat,
                                 responses: seq<ToolResponse>)

  datatype TurnResult = TurnResult(response: LlmResponse, history: seq<ChatMessage>)

  /** The outcome of one pass of the loop body: the turn ends, or the loop
      goes on from a new state. */
  datatype Step = Finished(result: TurnResult) | Next(state: TurnState)

  /** `AddToHistory` never evicts the message it has just added, unless it is
      a user message and the limit is zero. */
  lemma {:induction false} LastSurvives(s: seq<ChatMessage>, limit: nat)
    requires |s| > 0
    ensures !s[|s| - 1].UserMessage? || limit > 0 ==>
              |KeepWithin(s, limit)| > 0 && KeepWithin(s, limit)[|KeepWithin(s, limit)| - 1] == s[|s| - 1]
    decreases |s|
  {
    if UserCount(s) > limit && (!s[|s| - 1].UserMessage? || limit > 0) {
      assert s[1..][|s[1..]| - 1] == s[|s| - 1];
      LastSurvives(s[1..], limit);
    }
  }

  /** The texts handed to `AddAssistantMessageToHistory`, each added in turn
      as a user message through `AddToHistory`. */
  function Remember(history: seq<ChatMessage>, texts: seq<String>, limit: nat): (r: seq<ChatMessage>)
    ensures texts == [] ==> r == history
    ensures UserCount(history) <= limit ==> UserCount(r) <= limit
    decreases |texts|
  {
    if |texts| == 0 then history
    else KeepWithin(Remember(history, texts[..|texts| - 1], limit) + [UserMessage(texts[|texts| - 1])], limit)
  }

  /** A call's remembered texts go in before its tool message. */
  function AfterCall(history: seq<ChatMessage>, call: ToolCall, ran: ToolRun, limit: nat): seq<ChatMessage> {
    KeepWithin(Remember(history, ran.remembered, limit) + [ToolMessage(call.id, ran.response.assistantResponse)], limit)
  }

  /** `HandleToolCalls`: runs the calls in order. What each call remembers
      enters the history while it runs, then its result is appended as a
      tool message. `start` numbers the calls of the turn. */
  function HandleCalls(history: seq<ChatMessage>, calls: seq<ToolCall>, start: nat,
                       run: Runner, limit: nat): (r: (seq<ChatMessage>, seq<ToolResponse>))
    ensures |r.1| == |calls|
    ensures UserCount(history) <= limit ==> UserCount(r.0) <= limit
    decreases |calls|
  {
    if |calls| == 0 then (history, [])
    else
      var before := HandleCalls(history, calls[..|calls| - 1], start, run, limit);
      var ran := run(start + |calls| - 1, calls[|calls| - 1]);
      (AfterCall(before.0, calls[|calls| - 1], ran, limit), before.1 + [ran.response])
  }

  lemma HandleCallsSnoc(history: seq<ChatMessage>, calls: seq<ToolCall>, k: nat, start: nat, run: Runner, limit: nat)
    requires k < |calls|
    ensures var before := HandleCalls(history, calls[..k], start, run, limit);
            var ran := run(start + k, calls[k]);
            HandleCalls(history, calls[..k + 1], start, run, limit)
            == (KeepWithin(Remember(before.0, ran.remembered, limit) + [ToolMessage(calls[k].id, ran.response.assistantResponse)], limit),
                before.1 + [ran.response])
  {
    var prefix := calls[..k + 1];
    assert |prefix| == k + 1 && prefix[..k] == calls[..k] && prefix[k] == calls[k];
  }

  /** Within a non-zero limit, a call's tool message closes the history, and
      the last text it remembered is kept right before it: the model sees
      the message sent to the user between the call and its result. */
  lemma {:induction false} RememberedBeforeResult(history: seq<ChatMessage>, call: ToolCall, ran: ToolRun, limit: nat)
    requires limit > 0 && UserCount(history) <= limit && |ran.remembered| > 0
    ensures var h := AfterCall(history, call, ran, limit);
            && |h| >= 2
            && h[|h| - 1] == ToolMessage(call.id, ran.response.assistantResponse)
            && h[|h| - 2] == UserMessage(ran.remembered[|ran.remembered| - 1])
  {
    var texts := ran.remembered;
    var last := UserMessage(texts[|texts| - 1]);
    var before := Remember(history, texts[..|texts| - 1], limit);
    var kept := KeepWithin(before + [last], limit);
    LastSurvives(before + [last], limit);
    assert Remember(history, texts, limit) == kept;
    var tool := ToolMessage(call.id, ran.response.assistantResponse);
    NonUserAppendKeepsAll(kept, tool, limit);
  }

  /** The completion request the state is at: requests are numbered by the
      rounds and errors so far. */
  function Attempt(s: TurnState, complete: Completer): Completion {
    complete(s.round + s.errors, s.history, s.tools)
  }

  /** One pass of the loop body of the private `SendAsync`. A provider
      failure adds a "System error" system message and counts an error
      without advancing `i`; a completion that does not ask for tools, or one
      that comes when `i` has reached 10, ends the turn with its text;
      otherwise the calls run, their tools are merged into the offer and `i`
      advances. */
  function TurnStep(s: TurnState, limit: nat, complete: Completer, run: Runner): (r: Step)
    requires s.round <= 10 && s.errors < 3
    ensures r.Next? ==> r.state.round <= 10 && r.state.errors <= 3
    ensures r.Next? ==> r.state.errors == s.errors + 1 || (r.state.errors == s.errors && r.state.round == s.round + 1)
  {
    var c := Attempt(s, complete);
    if c.ProviderError? then
      var added := s.history + [SystemMessage("System error: " + c.message)];
      Next(s.(history := KeepWithin(added, limit), errors := s.errors + 1))
    else
      var h := KeepWithin(s.history + [AssistantMessage(c.content, c.calls)], limit);
      if !c.finishedForToolCalls || s.round >= 10 then
        var text := Combined(c.content);
        Finished(TurnResult(LlmResponse(if text == [] then NoResponse(s.round) else text, |s.responses|), h))
      else
        var handled := HandleCalls(h, c.calls, |s.responses|, run, limit);
        Next(TurnState(handled.0, Merged(s.tools, ResponseTools(handled.1)), s.round + 1, s.errors,
                       s.responses + handled.1))
  }

  /** What one pass does: a failure counts an error, keeps `i` and the
      responses and leaves its "System error" message last in the history;
      a completion asking for tools advances `i` and collects one response
      per call; the turn ends exactly on a completion that asks for no tools
      or comes at round 10, reporting the responses collected so far; and the
      history stays within the limit throughout. */
  lemma TurnStepFacts(s: TurnState, limit: nat, complete: Completer, run: Runner)
    requires s.round <= 10 && s.errors < 3
    ensures var r, c := TurnStep(s, limit, complete, run), Attempt(s, complete);
            && (r.Finished? <==> c.Completed? && (!c.finishedForToolCalls || s.round == 10))
            && (r.Finished? ==> r.result.response.functionCallCount == |s.responses| && UserCount(r.result.history) <= limit)
            && (r.Next? ==> UserCount(r.state.history) <= limit)
            && (r.Next? ==> |s.responses| <= |r.state.responses| && r.state.responses[..|s.responses|] == s.responses)
            && (c.ProviderError? ==>
                  r.Next? && r.state.errors == s.errors + 1 && r.state.round == s.round && r.state.responses == s.responses
                  && |r.state.history| > 0 && r.state.history[|r.state.history| - 1] == SystemMessage("System error: " + c.message))
            && (r.Next? && c.Completed? ==>
                  r.state.errors == s.errors && r.state.round == s.round + 1 && |r.state.responses| == |s.responses| + |c.calls|)
  {
    var c := Attempt(s, complete);
    if c.ProviderError? {
      LastSurvives(s.history + [SystemMessage("System error: " + c.message)], limit);
    }
  }

  /** The do-while loop of the private `SendAsync`, from a given state; three
      errors in all end it with the "*No response received*" text. */
  function RunTurn(s: TurnState, limit: nat, complete: Completer, run: Runner): TurnResult
    requires s.round <= 10 && s.errors <= 3
    decreases 3 - s.errors, 10 - s.round
  {
    if s.errors >= 3 then TurnResult(LlmResponse(NoResponse(s.round), |s.responses|), s.history)
    else
      match TurnStep(s, limit, complete, run)
      case Finished(result) => result
      case Next(t) => RunTurn(t, limit, complete, run)
  }

  /** One pass of the loop: a pass that finishes gives the turn's result,
      otherwise the turn goes on from the state it leaves. */
  lemma RunTurnUnfold(s: TurnState, limit: nat, complete: Completer, run: Runner)
    requires s.round <= 10 && s.errors < 3
    ensures TurnStep(s, limit, complete, run).Finished? ==>
              RunTurn(s, limit, complete, run) == TurnStep(s, limit, complete, run).result
    ensures TurnStep(s, limit, complete, run).Next? ==>
              RunTurn(s, limit, complete, run) == RunTurn(TurnStep(s, limit, complete, run).state, limit, complete, run)
  {
  }

  /** The history stays within the limit after every turn that asked for at
      least one completion. */
  lemma {:induction false} TurnHistoryBounded(s: TurnState, limit: nat, complete: Completer, run: Runner)
    requires s.round <= 10 && s.errors <= 3
    requires s.errors < 3 || UserCount(s.history) <= limit
    ensures UserCount(RunTurn(s, limit, complete, run).history) <= limit
    decreases 3 - s.errors, 10 - s.round
  {
    if s.errors < 3 {
      var r := TurnStep(s, limit, complete, run);
      TurnStepFacts(s, limit, complete, run);
      if r.Next? {
        TurnHistoryBounded(r.state, limit, complete, run);
      }
    }
  }

  /** No completion asks for more than `most` tool calls. */
  ghost predicate CallsAtMost(complete: Completer, most: nat) {
    forall k, h, t :: complete(k, h, t).Completed? ==> |complete(k, h, t).calls| <= most
  }

  /** At most ten rounds of tool calls run: when no completion asks for more
      than `most` calls, a turn from round `s.round` executes at most
      `(10 - s.round) * most` more of them, and reports every call it ran. */
  lemma {:induction false} TurnCallsBounded(s: TurnState, limit: nat, complete: Completer, run: Runner, most: nat)
    requires s.round <= 10 && s.errors <= 3
    requires CallsAtMost(complete, most)
    ensures |s.responses| <= RunTurn(s, limit, complete, run).response.functionCallCount
                          <= |s.responses| + (10 - s.round) * most
  {
    TurnCallsWithin(s, limit, complete, run, most);
    BudgetIsProduct(10 - s.round, most);
  }

  /** `most` calls for each of `left` rounds, counted round by round. */
  function Budget(left: nat, most: nat): nat {
    if left == 0 then 0 else Budget(left - 1, most) + most
  }

  lemma {:induction false} BudgetIsProduct(left: nat, most: nat)
    ensures Budget(left, most) == left * most
  {
    if left > 0 {
      BudgetIsProduct(left - 1, most);
      assert (left - 1) * most + most == left * most;
    }
  }

  /** The bound of `TurnCallsBounded`, with the budget counted round by round. */
  lemma {:induction false} TurnCallsWithin(s: TurnState, limit: nat, complete: Completer, run: Runner, most: nat)
    requires s.round <= 10 && s.errors <= 3
    requires CallsAtMost(complete, most)
    ensures |s.responses| <= RunTurn(s, limit, complete, run).response.functionCallCount
                          <= |s.responses| + Budget(10 - s.round, most)
    decreases 3 - s.errors, 10 - s.round
  {
    if s.errors < 3 {
      StepSpends(s, limit, complete, run, most);
      var r := TurnStep(s, limit, complete, run);
      if r.Next? {
        TurnCallsWithin(r.state, limit, complete, run, most);
      }
    }
  }

  /** One pass and the rest of the turn: a pass that ends the turn reports
      the responses collected so far; one that goes on either keeps the round
      and the responses, or advances the round with at most `most` more
      responses, and the turn's result is that of the rest. */
  lemma StepSpends(s: TurnState, limit: nat, complete: Completer, run: Runner, most: nat)
    requires s.round <= 10 && s.errors < 3
    requires CallsAtMost(complete, most)
    ensures var r := TurnStep(s, limit, complete, run);
            && (r.Finished? ==> RunTurn(s, limit, complete, run) == r.result
                                && r.result.response.functionCallCount == |s.responses|)
            && (r.Next? ==> RunTurn(s, limit, complete, run) == RunTurn(r.state, limit, complete, run)
                            && ((r.state.round == s.round && r.state.responses == s.responses)
                                || (r.state.round == s.round + 1 && |r.state.responses| <= |s.responses| + most)))
  {
    TurnStepFacts(s, limit, complete, run);
    RunTurnUnfold(s, limit, complete, run);
    var c := Attempt(s, complete);
    if c.Completed? {
      assert |c.calls| <= most;
    }
  }

  /** `errorCount` is never reset: when the provider always fails, the turn
      ends after three failures in all with the "*No response received*"
      text, having executed no further call, and the history ends with the
      last "System error" message. */
  lemma {:induction false} TurnGivesUpAfterThreeErrors(s: TurnState, limit: nat, complete: Completer, run: Runner)
    requires s.round <= 10 && s.errors <= 3
    requires forall k, h, t :: complete(k, h, t).ProviderError?
    ensures RunTurn(s, limit, complete, run).response == LlmResponse(NoResponse(s.round), |s.responses|)
    ensures s.errors < 3 ==>
              var h := RunTurn(s, limit, complete, run).history;
              |h| > 0 && h[|h| - 1].SystemMessage? && StartsWith(h[|h| - 1].text, "System error: ")
    decreases 3 - s.errors
  {
    if s.errors < 3 {
      var r := TurnStep(s, limit, complete, run);
      TurnStepFacts(s, limit, complete, run);
      TurnGivesUpAfterThreeErrors(r.state, limit, complete, run);
      assert Attempt(s, complete).ProviderError?;
      var last := r.state.history[|r.state.history| - 1];
      assert StartsWith(last.text, "System error: ");
    }
  }

  // ---- Setting up the turn ----

  /** The text prediction looks at: the message's content texts joined by ", ". */
  function MessageText(m: ChatMessage): String {
    match m
    case UserMessage(text) => text
    case SystemMessage(text) => text
    case ToolMessage(_, text) => text
    case AssistantMessage(content, _) => Join(", ", seq(|content|, k requires 0 <= k < |content| => content[k].text))
  }

  /** The tools of the predicted groups are members of `GroupTools`. */
  lemma {:induction false} GroupToolsHas(groups: seq<ToolGroup>, toolsOf: ToolGroup -> seq<ChatTool>, g: ToolGroup, t: ChatTool)
    requires g in groups && t in toolsOf(g)
    ensures t in GroupTools(groups, toolsOf)
  {
    if groups[0] != g {
      GroupToolsHas(groups[1..], toolsOf, g, t);
    }
  }

  /** The tools offered in the first request: the first-layer tools as they
      are, then the tools of every predicted group, by function name. */
  function OfferedTools(baseTools: seq<ChatTool>, toolsOf: ToolGroup -> seq<ChatTool>, text: String): (r: seq<ChatTool>)
    ensures |baseTools| <= |r| && r[..|baseTools|] == baseTools
    ensures forall g, t :: g in PredictGroups(text) && t in toolsOf(g) ==> HasName(r, t.functionName)
    ensures forall t :: t in r ==> t in baseTools || exists g :: g in PredictGroups(text) && t in toolsOf(g)
  {
    var groups := PredictGroups(text);
    forall g, t | g in groups && t in toolsOf(g) ensures t in GroupTools(groups, toolsOf) {
      GroupToolsHas(groups, toolsOf, g, t);
    }
    GroupToolsFrom(groups, toolsOf);
    Merged(baseTools, GroupTools(groups, toolsOf))
  }

  lemma {:induction false} GroupToolsFrom(groups: seq<ToolGroup>, toolsOf: ToolGroup -> seq<ChatTool>)
    ensures forall t :: t in GroupTools(groups, toolsOf) ==> exists g :: g in groups && t in toolsOf(g)
  {
    if |groups| > 0 {
      GroupToolsFrom(groups[1..], toolsOf);
    }
  }

  /** The history when the loop starts: the note on the predicted groups
      (only when there are any), then the message, each added through
      `AddToHistory`. */
  function Opening(history: seq<ChatMessage>, message: ChatMessage, limit: nat): (r: seq<ChatMessage>)
    ensures UserCount(r) <= limit
    ensures !message.UserMessage? || limit > 0 ==> |r| > 0 && r[|r| - 1] == message
  {
    var groups := PredictGroups(MessageText(message));
    var noted := if |groups| > 0 then KeepWithin(history + [SystemMessage(GroupsNote(groups))], limit) else history;
    LastSurvives(noted + [message], limit);
    KeepWithin(noted + [message], limit)
  }

  function StartTurn(history: seq<ChatMessage>, message: ChatMessage, limit: nat,
                     baseTools: seq<ChatTool>, toolsOf: ToolGroup -> seq<ChatTool>): TurnState {
    TurnState(Opening(history, message, limit), OfferedTools(baseTools, toolsOf, MessageText(message)), 0, 0, [])
  }

  /** Merging two lists of tools one after the other is merging their
      concatenation. */
  lemma {:induction false} MergedAppend(tools: seq<ChatTool>, a: seq<ChatTool>, b: seq<ChatTool>)
    ensures Merged(Merged(tools, a), b) == Merged(tools, a + b)
    decreases |a|
  {
    if |a| > 0 {
      assert (a + b)[0] == a[0] && (a + b)[1..] == a[1..] + b;
      if HasName(tools, a[0].functionName) {
        MergedAppend(tools, a[1..], b);
      } else {
        MergedAppend(tools + [a[0]], a[1..], b);
      }
    } else {
      assert a + b == b;
    }
  }

  /** The instructions a self-prompt's notes are wrapped in. */
  const SelfPromptPreamble: String :=
    "Another assistant wrote notes for themself but needs you to execute them instead.\n"
    + "This conversation is invisible to the user, so if the task requires communicating\n"
    + "with the user, you need to use the MessageUser function to talk to them.\n"
    + "Regardless, you will need to use at least one function/tool since the user isn't\n"
    + "here.\n\n"

  /** The system message a self-prompt is sent as. */
  function SelfPromptText(prompt: String): String {
    SelfPromptPreamble + "Notes: '" + prompt + "'"
  }

  /** The client: its history queue, the first-layer tools and the tools of
      each second-layer group (`OpenAiUtils.GetTools` and
      `GetSchemasInToolGroup`). */
  class OpenAiLlmClient {
    const history: ChatHistory
    const baseTools: seq<ChatTool>
    const toolsOf: ToolGroup -> seq<ChatTool>

    constructor (limit: nat, baseTools: seq<ChatTool>, toolsOf: ToolGroup -> seq<ChatTool>)
      ensures fresh(history) && history.messages == [] && history.limit == limit
      ensures this.baseTools == baseTools && this.toolsOf == toolsOf
    {
      history := new ChatHistory(limit);
      this.baseTools := baseTools;
      this.toolsOf := toolsOf;
    }

    /** The public `SendAsync`: seeds an empty history from the fallback
        messages, then runs a turn for the user's message. */
    method SendAsync(message: String, fallback: Option<seq<String>>, complete: Completer, run: Runner)
      returns (r: LlmResponse)
      modifies history
      ensures TurnResult(r, history.messages)
              == RunTurn(StartTurn(Seeded(old(history.messages), fallback), UserMessage(message), history.limit,
                                   baseTools, toolsOf), history.limit, complete, run)
    {
      history.Seed(fallback);
      r := Send(UserMessage(message), complete, run);
    }

    /** `SendSelfPromptAsync`: runs a turn for the self-prompt as a system message. */
    method SendSelfPromptAsync(prompt: String, complete: Completer, run: Runner) returns (r: LlmResponse)
      modifies history
      ensures TurnResult(r, history.messages)
              == RunTurn(StartTurn(old(history.messages), SystemMessage(SelfPromptText(prompt)), history.limit,
                                   baseTools, toolsOf), history.limit, complete, run)
    {
      r := Send(SystemMessage(SelfPromptText(prompt)), complete, run);
    }

    /** `AddAssistantMessageToHistory`: through the implicit string
        conversion the text is added as a USER message. */
    method AddAssistantMessageToHistory(message: String)
      modifies history
      ensures history.messages == KeepWithin(old(history.messages) + [UserMessage(message)], history.limit)
    {
      history.Add(UserMessage(message));
    }

    /** `HandleToolCalls`: runs each call, which may add messages of its own
        through `AddAssistantMessageToHistory`, then adds its result to the
        history. */
    method HandleToolCalls(calls: seq<ToolCall>, run: Runner, start: nat) returns (responses: seq<ToolResponse>)
      modifies history
      ensures (history.messages, responses) == HandleCalls(old(history.messages), calls, start, run, history.limit)
    {
      responses := [];
      var k := 0;
      while k < |calls|
        invariant 0 <= k <= |calls|
        invariant (history.messages, responses) == HandleCalls(old(history.messages), calls[..k], start, run, history.limit)
      {
        HandleCallsSnoc(old(history.messages), calls, k, start, run, history.limit);
        var ran := run(start + k, calls[k]);
        RememberAll(ran.remembered);
        history.Add(ToolMessage(calls[k].id, ran.response.assistantResponse));
        responses := responses + [ran.response];
        k := k + 1;
      }
      assert calls[..k] == calls;
    }

    /** The texts a running tool call hands to `AddAssistantMessageToHistory`,
        in the order it sends them. */
    method RememberAll(texts: seq<String>)
      modifies history
      ensures history.messages == Remember(old(history.messages), texts, history.limit)
    {
      var k := 0;
      while k < |texts|
        invariant 0 <= k <= |texts|
        invariant history.messages == Remember(old(history.messages), texts[..k], history.limit)
      {
        assert texts[..k + 1][..k] == texts[..k];
        AddAssistantMessageToHistory(texts[k]);
        k := k + 1;
      }
      assert texts[..k] == texts;
    }

    /** The tools each response brings are offered too, response after response. */
    method OfferResponseTools(tools: seq<ChatTool>, responses: seq<ToolResponse>) returns (r: seq<ChatTool>)
      ensures r == Merged(tools, ResponseTools(responses))
    {
      r := tools;
      var k := 0;
      while k < |responses|
        invariant 0 <= k <= |responses|
        invariant Merged(r, ResponseTools(responses[k..])) == Merged(tools, ResponseTools(responses))
      {
        assert responses[k..][1..] == responses[k + 1..];
        MergedAppend(r, responses[k].tools.GetOr([]), ResponseTools(responses[k + 1..]));
        if responses[k].tools.Some? {
          r := MergeTools(r, responses[k].tools.value);
        }
        k := k + 1;
      }
    }

    /** The set-up of the private `SendAsync`: offers the first-layer tools
        and the predicted groups' tools, then adds the note and the message. */
    method Open(message: ChatMessage) returns (tools: seq<ChatTool>)
      modifies history
      ensures history.messages == Opening(old(history.messages), message, history.limit)
      ensures tools == OfferedTools(baseTools, toolsOf, MessageText(message))
    {
      var groups := PredictGroups(MessageText(message));
      tools := MergeTools(baseTools, GroupTools(groups, toolsOf));
      if |groups| > 0 {
        history.Add(SystemMessage(GroupsNote(groups)));
      }
      history.Add(message);
    }

    /** One pass of the do-while loop's body: the completion request, then
        the system error, the final answer or the tool calls. */
    method Pass(tools: seq<ChatTool>, i: nat, errorCount: nat, responses: seq<ToolResponse>,
                complete: Completer, run: Runner) returns (outcome: Step)
      requires i <= 10 && errorCount < 3
      modifies history
      ensures outcome == TurnStep(TurnState(old(history.messages), tools, i, errorCount, responses), history.limit, complete, run)
      ensures history.messages == (if outcome.Next? then outcome.state.history else outcome.result.history)
    {
      ghost var s := TurnState(history.messages, tools, i, errorCount, responses);
      var c := complete(i + errorCount, history.messages, tools);
      assert c == Attempt(s, complete);
      if c.ProviderError? {
        history.Add(SystemMessage("System error: " + c.message));
        return Next(TurnState(history.messages, tools, i, errorCount + 1, responses));
      }
      history.Add(AssistantMessage(c.content, c.calls));
      if !c.finishedForToolCalls || i >= 10 {
        var combined := Combined(c.content);
        if combined == [] {
          combined := NoResponse(i);
        }
        return Finished(TurnResult(LlmResponse(combined, |responses|), history.messages));
      }
      outcome := RunRound(c.calls, tools, i, errorCount, responses, run);
    }

    /** The end of a pass that asked for tools: the calls run, their tools
        join the offer and `i` advances. */
    method RunRound(calls: seq<ToolCall>, tools: seq<ChatTool>, i: nat, errorCount: nat, responses: seq<ToolResponse>,
                    run: Runner) returns (outcome: Step)
      modifies history
      ensures var handled := HandleCalls(old(history.messages), calls, |responses|, run, history.limit);
              outcome == Next(TurnState(handled.0, Merged(tools, ResponseTools(handled.1)), i + 1, errorCount,
                                        responses + handled.1))
      ensures history.messages == outcome.state.history
    {
      var toolResponses := HandleToolCalls(calls, run, |responses|);
      var offered := OfferResponseTools(tools, toolResponses);
      outcome := Next(TurnState(history.messages, offered, i + 1, errorCount, responses + toolResponses));
    }

    /** The private `SendAsync`: sets up the tools and the history, then runs
        the do-while loop until a pass ends the turn or three errors have
        occurred; proved to compute `RunTurn`. */
    method Send(message: ChatMessage, complete: Completer, run: Runner) returns (r: LlmResponse)
      modifies history
      ensures TurnResult(r, history.messages)
              == RunTurn(StartTurn(old(history.messages), message, history.limit, baseTools, toolsOf),
                         history.limit, complete, run)
    {
      ghost var goal := RunTurn(StartTurn(history.messages, message, history.limit, baseTools, toolsOf),
                                history.limit, complete, run);
      var tools := Open(message);
      var i: nat := 0;
      var errorCount: nat := 0;
      var responses: seq<ToolResponse> := [];
      while errorCount < 3
        invariant i <= 10 && errorCount <= 3
        invariant RunTurn(TurnState(history.messages, tools, i, errorCount, responses), history.limit, complete, run) == goal
        decreases 3 - errorCount, 10 - i
      {
        ghost var s := TurnState(history.messages, tools, i, errorCount, responses);
        var outcome := Pass(tools, i, errorCount, responses, complete, run);
        RunTurnUnfold(s, history.limit, complete, run);
        if outcome.Finished? {
          return outcome.result.response;
        }
        tools, i, errorCount, responses := outcome.state.tools, outcome.state.round, outcome.state.errors, outcome.state.responses;
      }
      r := LlmResponse(NoResponse(i), |responses|);
    }
  }
}
