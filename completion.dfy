// The non-streamed answer to a chat request, in the two services: the one that reports tool
// calls back to the client and the one that runs registered tools itself.

/** What both services build a non-streamed answer from. */
module Completion {
  import opened Wrappers
  import opened Text
  import opened Models
  import opened ToolPrompt
  import opened Chunks

  /**
   * The finish reason of a text answer: "length" once the number of fragments generated reaches
   * the requested maximum, otherwise "stop"; without a maximum the comparison is false.
   */
  function FinishFor(maxTokens: Option<int>, count: nat): string {
    if maxTokens.Some? && count >= maxTokens.value then "length" else "stop"
  }

  /** The token counts reported with an answer. */
  function UsageOf(prompt: nat, count: nat): Usage {
    Usage(prompt, count, prompt + count)
  }

  /** An assistant answer carrying `text`, after `count` fragments were generated in all. */
  function TextAnswer(model: string, maxTokens: Option<int>, prompt: nat, count: nat, text: string): ChatResponse {
    Response(model, FinishFor(maxTokens, count), Reply(Some("assistant"), Some(text), None), UsageOf(prompt, count))
  }

  /** An assistant answer handing tool calls to the client, with an optional notice. */
  function CallsAnswer(model: string, calls: seq<ToolMessage>, notice: Option<string>, prompt: nat, count: nat): ChatResponse {
    Response(model, "tool_calls", Reply(Some("assistant"), notice, Some(calls)), UsageOf(prompt, count))
  }

  /** Whether a response is one choice whose token counts add up and whose message is the assistant's. */
  predicate WellFormed(r: ChatResponse) {
    r.Response? && r.usage.totalTokens == r.usage.promptTokens + r.usage.completionTokens
    && r.usage.promptTokens >= 0 && r.usage.completionTokens >= 0
    && r.message.role == Some("assistant")
  }

  /**
   * A text answer is well formed, carries the text and no tool calls, counts every fragment, and
   * finishes with "length" exactly when the count reached a requested maximum (always, for a
   * maximum of zero or less), with "stop" otherwise.
   */
  lemma TextAnswerFacts(model: string, maxTokens: Option<int>, prompt: nat, count: nat, text: string)
    ensures WellFormed(TextAnswer(model, maxTokens, prompt, count, text))
    ensures TextAnswer(model, maxTokens, prompt, count, text).message.content == Some(text)
    ensures TextAnswer(model, maxTokens, prompt, count, text).message.toolCalls.None?
    ensures TextAnswer(model, maxTokens, prompt, count, text).usage.completionTokens == count
    ensures TextAnswer(model, maxTokens, prompt, count, text).finish == "length" <==> maxTokens.Some? && count >= maxTokens.value
    ensures TextAnswer(model, maxTokens, prompt, count, text).finish != "length" ==> TextAnswer(model, maxTokens, prompt, count, text).finish == "stop"
    ensures maxTokens.Some? && maxTokens.value <= 0 ==> TextAnswer(model, maxTokens, prompt, count, text).finish == "length"
  {
  }

  /** The calls found in the whole, untrimmed reply, each with a fresh id; none with the protocol off. */
  function FoundIn(gen: ToolPromptGenerator, regex: RegexEngine, tpl: int, enabled: bool, outs: seq<string>, ids: CallIds): seq<ToolMessage>
    requires enabled ==> gen.ValidIndex(tpl)
  {
    if enabled then CallMessages(CallsIn(gen, regex, Concat(outs), tpl), ids, 0) else []
  }

  /** Reads the whole reply: its text and the number of fragments. */
  method Drain(outs: seq<string>) returns (text: string, count: nat)
    ensures text == Concat(outs) && count == |outs|
  {
    text, count := "", 0;
    for i := 0 to |outs|
      invariant text == Concat(outs[..i]) && count == i
    {
      assert outs[..i + 1][..i] == outs[..i];
      text := text + outs[i];
      count := count + 1;
    }
    assert outs[..|outs|] == outs;
  }
}

/** The service that hands every tool call it finds back to the client. */
module ReportingCompletion {
  import opened Wrappers
  import opened Text
  import opened Models
  import opened ToolPrompt
  import opened ToolPromptBuilder
  import opened RequestShaping
  import opened Chunks
  import opened Completion

  /**
   * The answer to the reply `outs`, given the calls found in it: the calls when there are any,
   * otherwise the text.
   */
  function Reported(model: string, maxTokens: Option<int>, prompt: nat, outs: seq<string>, calls: seq<ToolMessage>): ChatResponse {
    if |calls| > 0 then CallsAnswer(model, calls, None, prompt, |outs|)
    else TextAnswer(model, maxTokens, prompt, |outs|, Concat(outs))
  }

  /** The answer to a request: empty without messages, the exception when the prompt cannot be built. */
  function Answer(settings: ServiceSettings, gen: ToolPromptGenerator, enc: JsonEncoder, regex: RegexEngine,
                  engine: Engine, ids: CallIds, request: ChatRequest): Result<ChatResponse>
  {
    if request.messages == [] then Ok(EmptyResponse)
    else
      var history := ChatHistory(settings, gen, enc, request);
      if history.Err? then Err(history.error)
      else
        var h := history.value;
        var outs := engine.infer(h.chatHistory, ParamsFor(request, settings, h.toolStopWords));
        ChatHistoryToolMode(settings, gen, enc, request);
        Ok(Reported(request.model, request.maxTokens, engine.promptTokens(h.chatHistory), outs,
                    FoundIn(gen, regex, settings.toolPromptIndex, h.isToolPromptEnabled, outs, ids)))
  }

  /** Generates the reply, then answers with the tool calls found in it or with its text. */
  method CreateChatCompletion(settings: ServiceSettings, gen: ToolPromptGenerator, enc: JsonEncoder, regex: RegexEngine,
                              engine: Engine, ids: CallIds, request: ChatRequest)
    returns (r: Result<ChatResponse>)
    ensures r == Answer(settings, gen, enc, regex, engine, ids, request)
  {
    if request.messages == [] {
      return Ok(EmptyResponse);
    }
    var history := ChatHistory(settings, gen, enc, request);
    if history.Err? {
      return Err(history.error);
    }
    var h := history.value;
    ChatHistoryToolMode(settings, gen, enc, request);
    var p := GetInferenceParams(request, settings, h.toolStopWords);
    var outs := engine.infer(h.chatHistory, p);
    var text, count := Drain(outs);
    var promptTokens := engine.promptTokens(h.chatHistory);
    var tpl := settings.toolPromptIndex;
    if h.isToolPromptEnabled {
      var found := GenerateToolCalls(gen, regex, text, tpl);
      if |found.value| > 0 {
        return Ok(CallsAnswer(request.model, CallMessages(found.value, ids, 0), None, promptTokens, count));
      }
    }
    r := Ok(TextAnswer(request.model, request.maxTokens, promptTokens, count, text));
  }

  /**
   * Every answer is well formed and counts every fragment. It finishes with "tool_calls" exactly
   * when calls were found, and then carries them and no text; otherwise it carries the whole
   * reply.
   */
  lemma ReportedFacts(model: string, maxTokens: Option<int>, prompt: nat, outs: seq<string>, calls: seq<ToolMessage>)
    ensures WellFormed(Reported(model, maxTokens, prompt, outs, calls))
    ensures Reported(model, maxTokens, prompt, outs, calls).usage.completionTokens == |outs|
    ensures Reported(model, maxTokens, prompt, outs, calls).finish == "tool_calls" <==> |calls| > 0
    ensures |calls| > 0 ==> Reported(model, maxTokens, prompt, outs, calls).message.toolCalls == Some(calls)
                            && Reported(model, maxTokens, prompt, outs, calls).message.content.None?
    ensures |calls| == 0 ==> Reported(model, maxTokens, prompt, outs, calls).message.content == Some(Concat(outs))
                             && Reported(model, maxTokens, prompt, outs, calls).message.toolCalls.None?
  {
    if |calls| == 0 {
      TextAnswerFacts(model, maxTokens, prompt, |outs|, Concat(outs));
    }
  }
}

/** The service that runs the tool calls it finds when every tool is registered. */
module RunningCompletion {
  import opened Wrappers
  import opened Text
  import opened Models
  import opened ToolPrompt
  import opened ToolPromptBuilder
  import opened ToolRegistry
  import opened RequestShaping
  import opened Chunks
  import opened Completion
  import opened BreakingStream

  /**
   * The answer once the first reply is read (`text` from `count` fragments) and what follows it
   * is known: its text when there were no calls; the redirect, with the notice, when a tool is
   * not registered; the second reply's text, counted together with the first reply's fragments,
   * when the calls were run; the exception when the second prompt cannot be built.
   */
  function Concluded(model: string, maxTokens: Option<int>, prompt: nat, text: string, count: nat, after: AfterBreak): Result<ChatResponse> {
    match after
    case NoCalls => Ok(TextAnswer(model, maxTokens, prompt, count, text))
    case Redirect(calls, notice) => Ok(CallsAnswer(model, calls, Some(notice), prompt, count))
    case Executed(Err(e)) => Err(e)
    case Executed(Ok(more)) => Ok(TextAnswer(model, maxTokens, prompt, count + |more|, Concat(more)))
  }

  /** The answer to the prompt `prompt`, given the order the tool responses came back in. */
  function AnswerFor(tools: map<string, ToolDefinition>, prompter: Prompter, gen: ToolPromptGenerator, regex: RegexEngine,
                     engine: Engine, p: InferenceParams, ids: CallIds, notice: string, request: ChatRequest, tpl: int, enabled: bool,
                     prompt: string, order: seq<ToolResponse>): Result<ChatResponse>
    requires enabled ==> gen.ValidIndex(tpl)
  {
    var outs := engine.infer(prompt, p);
    Concluded(request.model, request.maxTokens, engine.promptTokens(prompt), Concat(outs), |outs|,
              After(tools, prompter, engine, p, ids, notice, request, FoundIn(gen, regex, tpl, enabled, outs, ids), order))
  }

  /** The answer to a request whose prompt could be built, given the order the tool responses came back in. */
  function AnswerOf(tools: map<string, ToolDefinition>, settings: ServiceSettings, gen: ToolPromptGenerator, enc: JsonEncoder,
                    regex: RegexEngine, engine: Engine, ids: CallIds, request: ChatRequest, order: seq<ToolResponse>): Result<ChatResponse>
    requires ChatHistory(settings, gen, enc, request).Ok?
  {
    var h := ChatHistory(settings, gen, enc, request).value;
    ToolModeIndex(settings, gen, enc, request);
    AnswerFor(tools, PromptsFor(settings, gen, enc), gen, regex, engine, ParamsFor(request, settings, h.toolStopWords), ids, RedirectText, request,
              settings.toolPromptIndex, h.isToolPromptEnabled, h.chatHistory, order)
  }

  /** The tool calls run while answering a request whose prompt could be built. */
  function PendingOf(tools: map<string, ToolDefinition>, settings: ServiceSettings, gen: ToolPromptGenerator, enc: JsonEncoder,
                     regex: RegexEngine, engine: Engine, ids: CallIds, request: ChatRequest): seq<ToolMessage>
    requires ChatHistory(settings, gen, enc, request).Ok?
  {
    var h := ChatHistory(settings, gen, enc, request).value;
    ToolModeIndex(settings, gen, enc, request);
    Executing(tools, FoundIn(gen, regex, settings.toolPromptIndex, h.isToolPromptEnabled, FirstReply(settings, gen, enc, engine, request), ids))
  }

  /**
   * Answers a chat request: empty without messages; the exception when the prompt cannot be
   * built; otherwise the answer for the first reply, with the tool responses in some order of the
   * calls run.
   */
  method CreateChatCompletion(service: ToolService, settings: ServiceSettings, gen: ToolPromptGenerator, enc: JsonEncoder,
                              regex: RegexEngine, engine: Engine, parse: ArgumentParser, ids: CallIds, request: ChatRequest)
    returns (r: Result<ChatResponse>)
    ensures request.messages == [] ==> r == Ok(EmptyResponse)
    ensures request.messages != [] && ChatHistory(settings, gen, enc, request).Err? ==>
              r == Err(ChatHistory(settings, gen, enc, request).error)
    ensures request.messages != [] && ChatHistory(settings, gen, enc, request).Ok? ==>
              exists order: seq<ToolResponse> ::
                && multiset(order) == multiset(Responses(service.tools, parse, PendingOf(service.tools, settings, gen, enc, regex, engine, ids, request)))
                && r == AnswerOf(service.tools, settings, gen, enc, regex, engine, ids, request, order)
  {
    if request.messages == [] {
      return Ok(EmptyResponse);
    }
    var history := ChatHistory(settings, gen, enc, request);
    if history.Err? {
      return Err(history.error);
    }
    var h := history.value;
    ToolModeIndex(settings, gen, enc, request);
    var p := GetInferenceParams(request, settings, h.toolStopWords);
    ghost var order;
    r, order := Complete(service, PromptsFor(settings, gen, enc), gen, regex, engine, parse, p, ids, RedirectText, request,
                         settings.toolPromptIndex, h.isToolPromptEnabled, h.chatHistory);
    assert p == ParamsFor(request, settings, h.toolStopWords);
    assert r == AnswerOf(service.tools, settings, gen, enc, regex, engine, ids, request, order);
  }

  /**
   * Generates the first reply to `prompt`, reads it whole, runs the calls found in it or
   * prepares the redirect, and builds the answer; `order` is the order the tool responses came
   * back in.
   */
  method Complete(service: ToolService, prompter: Prompter, gen: ToolPromptGenerator, regex: RegexEngine, engine: Engine,
                  parse: ArgumentParser, p: InferenceParams, ids: CallIds, notice: string, request: ChatRequest, tpl: int,
                  enabled: bool, prompt: string)
    returns (r: Result<ChatResponse>, ghost order: seq<ToolResponse>)
    requires enabled ==> gen.ValidIndex(tpl)
    ensures multiset(order) == multiset(Responses(service.tools, parse, Executing(service.tools, FoundIn(gen, regex, tpl, enabled, engine.infer(prompt, p), ids))))
    ensures r == AnswerFor(service.tools, prompter, gen, regex, engine, p, ids, notice, request, tpl, enabled, prompt, order)
  {
    var outs := engine.infer(prompt, p);
    var text, count := Drain(outs);
    var promptTokens := engine.promptTokens(prompt);
    var calls: seq<ToolMessage> := [];
    if enabled {
      var found := GenerateToolCalls(gen, regex, text, tpl);
      calls := CallMessages(found.value, ids, 0);
    }
    var after;
    after, order := Follow(service, prompter, engine, parse, p, ids, notice, request, calls);
    r := Finish(request.model, request.maxTokens, promptTokens, text, count, after);
  }

  /** Builds the answer from the first reply's text and fragment count and what followed. */
  method Finish(model: string, maxTokens: Option<int>, prompt: nat, text: string, count: nat, after: AfterBreak)
    returns (r: Result<ChatResponse>)
    ensures r == Concluded(model, maxTokens, prompt, text, count, after)
  {
    match after {
      case NoCalls =>
        r := Ok(TextAnswer(model, maxTokens, prompt, count, text));
      case Redirect(calls, notice) =>
        r := Ok(CallsAnswer(model, calls, Some(notice), prompt, count));
      case Executed(Err(e)) =>
        r := Err(e);
      case Executed(Ok(more)) =>
        var text', count' := Drain(more);
        r := Ok(TextAnswer(model, maxTokens, prompt, count + count', text'));
    }
  }

  /**
   * Every answer that is not an exception is well formed. It finishes with "tool_calls" exactly
   * after a redirect, and then carries the notice and the calls; otherwise it carries the first
   * reply's text when no calls were found, and only the second reply's text, counted together
   * with the first reply's fragments, when the calls were run.
   */
  lemma ConcludedFacts(model: string, maxTokens: Option<int>, prompt: nat, text: string, count: nat, after: AfterBreak)
    ensures Concluded(model, maxTokens, prompt, text, count, after).Err? <==> after.Executed? && after.second.Err?
    ensures Concluded(model, maxTokens, prompt, text, count, after).Ok? ==> WellFormed(Concluded(model, maxTokens, prompt, text, count, after).value)
    ensures Concluded(model, maxTokens, prompt, text, count, after).Ok? ==>
              (Concluded(model, maxTokens, prompt, text, count, after).value.finish == "tool_calls" <==> after.Redirect?)
    ensures after.Redirect? ==>
              Concluded(model, maxTokens, prompt, text, count, after).value.message == Reply(Some("assistant"), Some(after.notice), Some(after.calls))
              && Concluded(model, maxTokens, prompt, text, count, after).value.usage.completionTokens == count
    ensures after.NoCalls? ==>
              Concluded(model, maxTokens, prompt, text, count, after).value.message.content == Some(text)
              && Concluded(model, maxTokens, prompt, text, count, after).value.usage.completionTokens == count
    ensures after.Executed? && after.second.Ok? ==>
              Concluded(model, maxTokens, prompt, text, count, after).value.message.content == Some(Concat(after.second.value))
              && Concluded(model, maxTokens, prompt, text, count, after).value.usage.completionTokens == count + |after.second.value|
  {
    match after
    case NoCalls =>
      TextAnswerFacts(model, maxTokens, prompt, count, text);
    case Redirect(_, _) =>
    case Executed(Err(_)) =>
    case Executed(Ok(more)) =>
      TextAnswerFacts(model, maxTokens, prompt, count + |more|, Concat(more));
  }
}
