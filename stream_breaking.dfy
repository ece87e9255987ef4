/**
 * The streamed chat endpoint of the Lisa.AI server. Every fragment is sent as soon as it comes;
 * with the tool protocol on, from the third fragment on the text so far is checked for a tool
 * call, and the first fragment that completes one is not sent and stops the generator. The calls
 * found are then run against the registry and a second reply is streamed, or, when a tool is not
 * registered, handed to the client with instructions.
 */
module BreakingStream {
  import opened Wrappers
  import opened Text
  import opened Models
  import opened ToolPrompt
  import opened ToolPromptBuilder
  import opened ToolRegistry
  import opened RequestShaping
  import opened Chunks

  /** What follows the fragment that completed a tool call. */
  datatype AfterBreak =
    | NoCalls                              // nothing matched the call pattern
    | Redirect(calls: seq<ToolMessage>, notice: string)  // a tool is not registered: the calls go to the client, with instructions
    | Executed(second: Result<seq<string>>)  // the calls ran: the second reply, or the exception building its prompt

  /** How the service builds the prompt for a request. */
  type Prompter = ChatRequest -> Result<ChatHistoryResult>

  /** The service's own prompt builder under its settings. */
  function PromptsFor(settings: ServiceSettings, gen: ToolPromptGenerator, enc: JsonEncoder): Prompter {
    r => ChatHistory(settings, gen, enc, r)
  }

  /** The chunk that hands unregistered calls to the client, with the instructions. */
  function RedirectChunk(calls: seq<ToolMessage>, notice: string): Frame {
    Chunk(0, Some(Reply(Some("assistant"), Some(notice), Some(calls))), Some("tool_calls"))
  }

  /**
   * The end of the stream once `sent` has gone out with `index` the last index used: nothing
   * more, the redirect, or the second reply, and then "stop" at the next index; an exception
   * while building the second prompt ends the stream where it is.
   */
  function Finished(sent: seq<Frame>, index: int, after: AfterBreak): Stream {
    match after
    case NoCalls => Stream(sent + [EndChunk(index + 1, "stop"), Done], None)
    case Redirect(calls, notice) => Stream(sent + [RedirectChunk(calls, notice), EndChunk(index + 1, "stop"), Done], None)
    case Executed(Err(e)) => Stream(sent, Some(e))
    case Executed(Ok(more)) => Stream(sent + ContentRun(more, index + 1) + [EndChunk(index + 1 + |more|, "stop"), Done], None)
  }

  /**
   * The stream, given where the generator was stopped (`cut`: the number of fragments read,
   * the last of them not sent) and what followed. Content chunks are numbered from 1 on, across
   * both replies.
   */
  function Breaking(outs: seq<string>, cut: Option<nat>, after: AfterBreak): Stream
    requires cut.Some? ==> 1 <= cut.value <= |outs|
  {
    if cut.None? then Finished(SentUpTo(outs, |outs|), |outs|, NoCalls)
    else Finished(SentUpTo(outs, cut.value - 1), cut.value - 1, after)
  }

  /** What has gone out once the first `n` fragments are sent: the role chunk and one content chunk each. */
  function SentUpTo(outs: seq<string>, n: nat): seq<Frame>
    requires n <= |outs|
  {
    [RoleChunk()] + ContentRun(outs[..n], 1)
  }

  lemma SentUpToSnoc(outs: seq<string>, i: nat)
    requires i < |outs|
    ensures SentUpTo(outs, i + 1) == SentUpTo(outs, i) + [ContentChunk(i + 1, outs[i])]
  {
    assert outs[..i + 1] == outs[..i] + [outs[i]];
    ContentRunSnoc(outs[..i], outs[i], 1);
  }

  lemma FirstSetAt(flags: seq<bool>, from: nat, k: nat)
    requires from <= k < |flags| && flags[k]
    requires forall j | from <= j < k :: !flags[j]
    ensures FirstSet(flags, from) == Some(k)
  {
  }

  /** The protocol's tool-call test on the fragments read so far. */
  function ActiveTest(gen: ToolPromptGenerator, tpl: int): seq<string> -> bool {
    t => gen.ValidIndex(tpl) && gen.IsToolActive(t, tpl)
  }

  /** For each `j` up to the number of fragments, whether the first `j` fragments pass the test. */
  function Flags(active: seq<string> -> bool, outs: seq<string>): (f: seq<bool>)
    ensures |f| == |outs| + 1
    ensures forall j | 0 <= j <= |outs| :: f[j] == active(outs[..j])
  {
    seq(|outs| + 1, j requires 0 <= j <= |outs| => active(outs[..j]))
  }

  /** The least position from `from` on whose flag is set. */
  function FirstSet(flags: seq<bool>, from: nat): (r: Option<nat>)
    ensures r.Some? ==> from <= r.value < |flags| && flags[r.value]
    ensures r.Some? ==> forall j | from <= j < r.value :: !flags[j]
    ensures r.None? ==> forall j | from <= j < |flags| :: !flags[j]
    decreases |flags| - from
  {
    if from >= |flags| then None
    else if flags[from] then Some(from)
    else FirstSet(flags, from + 1)
  }

  /**
   * Where the generator is stopped, with the protocol on: at the least `k` of at least three
   * whose first `k` fragments pass the test.
   */
  function Cut(active: seq<string> -> bool, enabled: bool, outs: seq<string>): (r: Option<nat>)
    ensures r.Some? ==> enabled && 3 <= r.value <= |outs|
  {
    if enabled then FirstSet(Flags(active, outs), 3) else None
  }

  /**
   * The generator is stopped at the first prefix of at least three fragments that passes the
   * test, and runs to the end when none does or the protocol is off.
   */
  lemma CutIsFirst(active: seq<string> -> bool, enabled: bool, outs: seq<string>)
    ensures var r := Cut(active, enabled, outs);
      && (r.Some? ==> enabled && active(outs[..r.value]))
      && (r.Some? ==> forall j | 3 <= j < r.value :: !active(outs[..j]))
      && (r.None? && enabled ==> forall j | 3 <= j <= |outs| :: !active(outs[..j]))
  {
    if enabled {
      var flags := Flags(active, outs);
      var r := FirstSet(flags, 3);
      if r.Some? {
        assert flags[r.value];
        forall j | 3 <= j < r.value ensures !active(outs[..j]) {
          assert !flags[j];
        }
      } else {
        forall j | 3 <= j <= |outs| ensures !active(outs[..j]) {
          assert !flags[j];
        }
      }
    }
  }

  /** The request with one report message per tool response appended, in the order of the responses. */
  function WithResults(request: ChatRequest, order: seq<ToolResponse>): (r: ChatRequest)
    ensures |r.messages| == |request.messages| + |order|
    ensures r.messages[..|request.messages|] == request.messages
    ensures r.messages[|request.messages|..] == ResultMessages(order)
    ensures r == request.(messages := r.messages)
  {
    request.(messages := request.messages + ResultMessages(order))
  }

  /**
   * What follows a tool call whose calls are `calls`: nothing when there are none; the redirect
   * (the same calls under a second set of fresh ids, with the instructions `notice`, which the
   * service fixes to `RedirectText`) when one names an unregistered tool; otherwise the reply to the request extended with the responses, in the order `order` they
   * came back.
   */
  function After(tools: map<string, ToolDefinition>, prompter: Prompter, engine: Engine, p: InferenceParams, ids: CallIds, notice: string,
                 request: ChatRequest, calls: seq<ToolMessage>, order: seq<ToolResponse>): AfterBreak
  {
    if |calls| == 0 then NoCalls
    else if !AllRegistered(tools, calls) then Redirect(CallMessages(Functions(calls), ids, |calls|), notice)
    else
      var h := prompter(WithResults(request, order));
      if h.Err? then Executed(Err(h.error)) else Executed(Ok(engine.infer(h.value.chatHistory, p)))
  }

  /** The name and arguments of each call. */
  function Functions(calls: seq<ToolMessage>): (fs: seq<ToolMessageFunction>)
    ensures |fs| == |calls| && forall i | 0 <= i < |calls| :: fs[i] == calls[i].fn
  {
    seq(|calls|, i requires 0 <= i < |calls| => calls[i].fn)
  }

  /** The calls that are run against the registry: those found, when all of them are registered. */
  function Executing(tools: map<string, ToolDefinition>, calls: seq<ToolMessage>): seq<ToolMessage> {
    if |calls| > 0 && AllRegistered(tools, calls) then calls else []
  }

  /** The calls found in the trimmed text of the first `k` fragments, each with a fresh id. */
  function CallsAt(gen: ToolPromptGenerator, regex: RegexEngine, tpl: int, outs: seq<string>, k: nat, ids: CallIds): seq<ToolMessage>
    requires gen.ValidIndex(tpl) && k <= |outs|
  {
    CallMessages(CallsIn(gen, regex, Trim(Concat(outs[..k])), tpl), ids, 0)
  }

  /** The stream for the first reply `outs`, given the tool responses in the order they came back. */
  function StreamFor(tools: map<string, ToolDefinition>, prompter: Prompter, gen: ToolPromptGenerator, regex: RegexEngine,
                     engine: Engine, p: InferenceParams, ids: CallIds, notice: string, request: ChatRequest, tpl: int,
                     enabled: bool, outs: seq<string>, order: seq<ToolResponse>): Stream
    requires enabled ==> gen.ValidIndex(tpl)
  {
    var cut := Cut(ActiveTest(gen, tpl), enabled, outs);
    if cut.None? then Breaking(outs, None, NoCalls)
    else Breaking(outs, cut, After(tools, prompter, engine, p, ids, notice, request, CallsAt(gen, regex, tpl, outs, cut.value, ids), order))
  }

  /** The calls of the first reply `outs` that are run against the registry. */
  function PendingFor(tools: map<string, ToolDefinition>, gen: ToolPromptGenerator, regex: RegexEngine, tpl: int,
                      ids: CallIds, enabled: bool, outs: seq<string>): seq<ToolMessage>
    requires enabled ==> gen.ValidIndex(tpl)
  {
    var cut := Cut(ActiveTest(gen, tpl), enabled, outs);
    if cut.None? then [] else Executing(tools, CallsAt(gen, regex, tpl, outs, cut.value, ids))
  }

  /**
   * The loop over the first reply: what has been sent, the last index used, the fragments read
   * and whether it stopped at a tool call.
   */
  method Watch(active: seq<string> -> bool, enabled: bool, outs: seq<string>)
    returns (frames: seq<Frame>, index: int, tokens: seq<string>, toolActive: bool)
    ensures toolActive <==> Cut(active, enabled, outs).Some?
    ensures toolActive ==> tokens == outs[..Cut(active, enabled, outs).value] && index == |tokens| - 1
                           && frames == SentUpTo(outs, index)
    ensures !toolActive ==> index == |outs| && frames == SentUpTo(outs, |outs|)
  {
    frames := [RoleChunk()];
    index := 0;
    tokens := [];
    toolActive := false;
    ghost var flags := Flags(active, outs);
    for i := 0 to |outs|
      invariant tokens == outs[..i] && index == i && frames == SentUpTo(outs, i)
      invariant !toolActive
      invariant enabled ==> forall j | 3 <= j <= i :: !flags[j]
    {
      var output := outs[i];
      assert outs[..i + 1] == outs[..i] + [output];
      tokens := tokens + [output];
      if enabled && |tokens| >= 3 {
        toolActive := active(tokens);
        assert toolActive == flags[i + 1];
        if toolActive {
          FirstSetAt(flags, 3, i + 1);
          return;
        }
      }
      SentUpToSnoc(outs, i);
      index := index + 1;
      frames := frames + [ContentChunk(index, output)];
    }
    if enabled {
      assert FirstSet(flags, 3).None?;
    }
  }

  /** Appends one report message per tool response to the request's messages. */
  method AppendResults(request: ChatRequest, responses: seq<ToolResponse>) returns (r: ChatRequest)
    ensures r == WithResults(request, responses)
  {
    r := request;
    for j := 0 to |responses|
      invariant r == request.(messages := request.messages + ResultMessages(responses[..j]))
    {
      assert ResultMessages(responses[..j + 1]) == ResultMessages(responses[..j]) + [ResultMessage(responses[j])];
      r := r.(messages := r.messages + [ResultMessage(responses[j])]);
    }
    assert responses[..|responses|] == responses;
  }

  /**
   * After a tool call: runs the calls when every tool is registered and generates the second
   * reply, or prepares the redirect; `order` is the order the responses came back in.
   */
  method Follow(service: ToolService, prompter: Prompter, engine: Engine, parse: ArgumentParser, p: InferenceParams,
                ids: CallIds, notice: string, request: ChatRequest, calls: seq<ToolMessage>)
    returns (after: AfterBreak, ghost order: seq<ToolResponse>)
    ensures multiset(order) == multiset(Responses(service.tools, parse, Executing(service.tools, calls)))
    ensures after == After(service.tools, prompter, engine, p, ids, notice, request, calls, order)
  {
    order := [];
    if |calls| == 0 {
      return NoCalls, order;
    }
    var hasTools := AllRegistered(service.tools, calls);
    if !hasTools {
      return Redirect(CallMessages(Functions(calls), ids, |calls|), notice), order;
    }
    var responses := service.ExecuteToolCalls(calls, parse);
    order := responses;
    var request' := AppendResults(request, responses);
    var h := prompter(request');
    if h.Err? {
      return Executed(Err(h.error)), order;
    }
    after := Executed(Ok(engine.infer(h.value.chatHistory, p)));
  }

  /** Sends what follows the tool call, then "stop" and `[DONE]`. */
  method Emit(frames: seq<Frame>, index: int, after: AfterBreak) returns (s: Stream)
    ensures s == Finished(frames, index, after)
  {
    var frames', index' := frames, index;
    match after {
      case NoCalls =>
      case Redirect(calls, notice) =>
        frames' := frames' + [RedirectChunk(calls, notice)];
      case Executed(Err(e)) =>
        return Stream(frames, Some(e));
      case Executed(Ok(more)) =>
        frames', index' := Replay(frames', index', more);
    }
    index' := index' + 1;
    s := Stream(frames' + [EndChunk(index', "stop"), Done], None);
  }

  /** With the protocol on, its index is valid. */
  lemma ToolModeIndex(settings: ServiceSettings, gen: ToolPromptGenerator, enc: JsonEncoder, request: ChatRequest)
    requires ChatHistory(settings, gen, enc, request).Ok?
    ensures ChatHistory(settings, gen, enc, request).value.isToolPromptEnabled ==> gen.ValidIndex(settings.toolPromptIndex)
  {
    ChatHistoryToolMode(settings, gen, enc, request);
  }

  /** The first reply to a request whose prompt could be built. */
  function FirstReply(settings: ServiceSettings, gen: ToolPromptGenerator, enc: JsonEncoder, engine: Engine, request: ChatRequest): seq<string>
    requires ChatHistory(settings, gen, enc, request).Ok?
  {
    var h := ChatHistory(settings, gen, enc, request).value;
    engine.infer(h.chatHistory, ParamsFor(request, settings, h.toolStopWords))
  }

  /** The stream answering a request whose prompt could be built, given the order the tool responses came back in. */
  function StreamOf(tools: map<string, ToolDefinition>, settings: ServiceSettings, gen: ToolPromptGenerator, enc: JsonEncoder,
                    regex: RegexEngine, engine: Engine, ids: CallIds, request: ChatRequest, order: seq<ToolResponse>): Stream
    requires ChatHistory(settings, gen, enc, request).Ok?
  {
    var h := ChatHistory(settings, gen, enc, request).value;
    ToolModeIndex(settings, gen, enc, request);
    StreamFor(tools, PromptsFor(settings, gen, enc), gen, regex, engine, ParamsFor(request, settings, h.toolStopWords), ids, RedirectText, request,
              settings.toolPromptIndex, h.isToolPromptEnabled, FirstReply(settings, gen, enc, engine, request), order)
  }

  /** The tool calls run while answering a request whose prompt could be built. */
  function Pending(tools: map<string, ToolDefinition>, settings: ServiceSettings, gen: ToolPromptGenerator, enc: JsonEncoder,
                   regex: RegexEngine, engine: Engine, ids: CallIds, request: ChatRequest): seq<ToolMessage>
    requires ChatHistory(settings, gen, enc, request).Ok?
  {
    var h := ChatHistory(settings, gen, enc, request).value;
    ToolModeIndex(settings, gen, enc, request);
    PendingFor(tools, gen, regex, settings.toolPromptIndex, ids, h.isToolPromptEnabled, FirstReply(settings, gen, enc, engine, request))
  }

  /**
   * Streams the answer to a chat request: nothing for a request without messages; the
   * exception when the prompt cannot be built; otherwise the stream for the first reply, with
   * the tool responses in some order of the calls run.
   */
  method CreateChatCompletionStream(service: ToolService, settings: ServiceSettings, gen: ToolPromptGenerator, enc: JsonEncoder,
                                    regex: RegexEngine, engine: Engine, parse: ArgumentParser, ids: CallIds, request: ChatRequest)
    returns (s: Stream)
    ensures request.messages == [] ==> s == Stream([], None)
    ensures request.messages != [] && ChatHistory(settings, gen, enc, request).Err? ==>
              s == Stream([], Some(ChatHistory(settings, gen, enc, request).error))
    ensures request.messages != [] && ChatHistory(settings, gen, enc, request).Ok? ==>
              exists order: seq<ToolResponse> ::
                && multiset(order) == multiset(Responses(service.tools, parse, Pending(service.tools, settings, gen, enc, regex, engine, ids, request)))
                && s == StreamOf(service.tools, settings, gen, enc, regex, engine, ids, request, order)
  {
    if request.messages == [] {
      return Stream([], None);
    }
    var history := ChatHistory(settings, gen, enc, request);
    if history.Err? {
      return Stream([], Some(history.error));
    }
    var h := history.value;
    ToolModeIndex(settings, gen, enc, request);
    var p := GetInferenceParams(request, settings, h.toolStopWords);
    var outs := engine.infer(h.chatHistory, p);
    ghost var order;
    s, order := Converse(service, PromptsFor(settings, gen, enc), gen, regex, engine, parse, p, ids, RedirectText, request,
                         settings.toolPromptIndex, h.isToolPromptEnabled, outs);
    assert p == ParamsFor(request, settings, h.toolStopWords);
    assert outs == FirstReply(settings, gen, enc, engine, request);
    assert s == StreamOf(service.tools, settings, gen, enc, regex, engine, ids, request, order);
  }

  /**
   * Streams the first reply `outs` and, when it stops at a tool call, what follows; `order` is
   * the order the tool responses came back in.
   */
  method Converse(service: ToolService, prompter: Prompter, gen: ToolPromptGenerator, regex: RegexEngine, engine: Engine,
                  parse: ArgumentParser, p: InferenceParams, ids: CallIds, notice: string, request: ChatRequest, tpl: int,
                  enabled: bool, outs: seq<string>)
    returns (s: Stream, ghost order: seq<ToolResponse>)
    requires enabled ==> gen.ValidIndex(tpl)
    ensures multiset(order) == multiset(Responses(service.tools, parse, PendingFor(service.tools, gen, regex, tpl, ids, enabled, outs)))
    ensures s == StreamFor(service.tools, prompter, gen, regex, engine, p, ids, notice, request, tpl, enabled, outs, order)
  {
    var frames, index, tokens, toolActive := Watch(ActiveTest(gen, tpl), enabled, outs);
    order := [];
    if toolActive {
      var k := |tokens|;
      s, order := BreakAt(service, prompter, gen, regex, engine, parse, p, ids, notice, request, tpl, outs,
                          k, frames, index, tokens);
      StreamForCut(service.tools, prompter, gen, regex, engine, p, ids, notice, request, tpl, enabled, outs, order, k);
    } else {
      s := Emit(frames, index, NoCalls);
      StreamForWhole(service.tools, prompter, gen, regex, engine, p, ids, notice, request, tpl, enabled, outs, order);
    }
  }

  lemma StreamForCut(tools: map<string, ToolDefinition>, prompter: Prompter, gen: ToolPromptGenerator, regex: RegexEngine,
                     engine: Engine, p: InferenceParams, ids: CallIds, notice: string, request: ChatRequest, tpl: int,
                     enabled: bool, outs: seq<string>, order: seq<ToolResponse>, k: nat)
    requires enabled ==> gen.ValidIndex(tpl)
    requires Cut(ActiveTest(gen, tpl), enabled, outs) == Some(k)
    ensures gen.ValidIndex(tpl) && 1 <= k <= |outs|
    ensures StreamFor(tools, prompter, gen, regex, engine, p, ids, notice, request, tpl, enabled, outs, order)
         == Breaking(outs, Some(k), After(tools, prompter, engine, p, ids, notice, request, CallsAt(gen, regex, tpl, outs, k, ids), order))
    ensures PendingFor(tools, gen, regex, tpl, ids, enabled, outs) == Executing(tools, CallsAt(gen, regex, tpl, outs, k, ids))
  {
  }

  lemma StreamForWhole(tools: map<string, ToolDefinition>, prompter: Prompter, gen: ToolPromptGenerator, regex: RegexEngine,
                       engine: Engine, p: InferenceParams, ids: CallIds, notice: string, request: ChatRequest, tpl: int,
                       enabled: bool, outs: seq<string>, order: seq<ToolResponse>)
    requires enabled ==> gen.ValidIndex(tpl)
    requires Cut(ActiveTest(gen, tpl), enabled, outs).None?
    ensures StreamFor(tools, prompter, gen, regex, engine, p, ids, notice, request, tpl, enabled, outs, order)
         == Finished(SentUpTo(outs, |outs|), |outs|, NoCalls)
    ensures PendingFor(tools, gen, regex, tpl, ids, enabled, outs) == []
  {
  }

  /**
   * The generator stopped after `k` fragments, the last of them not sent: finds the calls in
   * the text read, follows them, and sends what follows.
   */
  method BreakAt(service: ToolService, prompter: Prompter, gen: ToolPromptGenerator, regex: RegexEngine, engine: Engine,
                 parse: ArgumentParser, p: InferenceParams, ids: CallIds, notice: string, request: ChatRequest, tpl: int,
                 outs: seq<string>, k: nat, frames: seq<Frame>, index: int, tokens: seq<string>)
    returns (s: Stream, ghost order: seq<ToolResponse>)
    requires gen.ValidIndex(tpl) && 1 <= k <= |outs|
    requires tokens == outs[..k] && index == k - 1 && frames == SentUpTo(outs, k - 1)
    ensures multiset(order) == multiset(Responses(service.tools, parse, Executing(service.tools, CallsAt(gen, regex, tpl, outs, k, ids))))
    ensures s == Breaking(outs, Some(k), After(service.tools, prompter, engine, p, ids, notice, request, CallsAt(gen, regex, tpl, outs, k, ids), order))
  {
    var found := GenerateToolCalls(gen, regex, Trim(Concat(tokens)), tpl);
    var calls := CallMessages(found.value, ids, 0);
    var after;
    after, order := Follow(service, prompter, engine, parse, p, ids, notice, request, calls);
    s := Emit(frames, index, after);
  }

  // ---------------------------------------------------------------------------------------------
  // Properties

  /** How many fragments of the first reply are sent. */
  function Shown(outs: seq<string>, cut: Option<nat>): nat
    requires cut.Some? ==> 1 <= cut.value <= |outs|
  {
    if cut.None? then |outs| else cut.value - 1
  }

  /** The text sent after the first reply's fragments once the generator was stopped. */
  function ExtraOf(after: AfterBreak): string {
    match after
    case NoCalls => ""
    case Redirect(_, notice) => notice
    case Executed(Err(_)) => ""
    case Executed(Ok(more)) => Concat(more)
  }

  /** The text sent after the first reply's fragments: the redirect notice or the second reply. */
  function Extra(cut: Option<nat>, after: AfterBreak): string {
    if cut.None? then "" else ExtraOf(after)
  }

  /** How many content chunks are numbered: the fragments of the first reply sent and those of the second. */
  function Numbered(outs: seq<string>, cut: Option<nat>, after: AfterBreak): nat
    requires cut.Some? ==> 1 <= cut.value <= |outs|
  {
    Shown(outs, cut) + (if cut.Some? && after.Executed? && after.second.Ok? then |after.second.value| else 0)
  }

  lemma ContentOfOne(f: Frame)
    ensures ContentOf([f]) == if f.Chunk? && f.delta.Some? && f.delta.value.content.Some? then f.delta.value.content.value else ""
  {
    assert [f][..0] == [];
  }

  /** Closing a stream adds no text. */
  lemma ClosedText(fs: seq<Frame>, index: int)
    ensures ContentOf(fs + [EndChunk(index, "stop"), Done]) == ContentOf(fs)
  {
    ContentOfContentFree([EndChunk(index, "stop"), Done]);
    ContentOfAppend(fs, [EndChunk(index, "stop"), Done]);
  }

  /** The first `n` fragments, numbered from 1 after the role chunk, carry their concatenation. */
  lemma SentText(outs: seq<string>, n: nat)
    requires n <= |outs|
    ensures ContentOf(SentUpTo(outs, n)) == Concat(outs[..n])
  {
    ContentOfContentFree([RoleChunk()]);
    ContentOfAppend([RoleChunk()], ContentRun(outs[..n], 1));
    ContentOfRun(outs[..n], 1);
  }

  /** What follows the first reply adds the redirect notice or the second reply to the text. */
  lemma FinishedText(sent: seq<Frame>, index: int, after: AfterBreak)
    ensures ContentOf(Finished(sent, index, after).frames) == ContentOf(sent) + ExtraOf(after)
  {
    match after
    case NoCalls =>
      ClosedText(sent, index + 1);
    case Redirect(calls, notice) =>
      RedirectedText(sent, index, calls, notice);
    case Executed(Err(e)) =>
    case Executed(Ok(more)) =>
      ReplayedText(sent, index, more);
  }

  lemma RedirectedText(sent: seq<Frame>, index: int, calls: seq<ToolMessage>, notice: string)
    ensures ContentOf(sent + [RedirectChunk(calls, notice), EndChunk(index + 1, "stop"), Done]) == ContentOf(sent) + notice
  {
    var r := RedirectChunk(calls, notice);
    assert sent + [r, EndChunk(index + 1, "stop"), Done] == (sent + [r]) + [EndChunk(index + 1, "stop"), Done];
    ClosedText(sent + [r], index + 1);
    ContentOfAppend(sent, [r]);
    ContentOfOne(r);
  }

  lemma ReplayedText(sent: seq<Frame>, index: int, more: seq<string>)
    ensures ContentOf(sent + ContentRun(more, index + 1) + [EndChunk(index + 1 + |more|, "stop"), Done]) == ContentOf(sent) + Concat(more)
  {
    ClosedText(sent + ContentRun(more, index + 1), index + 1 + |more|);
    ContentOfAppend(sent, ContentRun(more, index + 1));
    ContentOfRun(more, index + 1);
  }

  /**
   * The text a client reads is the first reply up to, and without, the fragment at which the
   * tool call was recognised (all of it when none was), followed by the redirect notice or the
   * second reply.
   */
  lemma BreakingText(outs: seq<string>, cut: Option<nat>, after: AfterBreak)
    requires cut.Some? ==> 1 <= cut.value <= |outs|
    ensures ContentOf(Breaking(outs, cut, after).frames) == Concat(outs[..Shown(outs, cut)]) + Extra(cut, after)
  {
    var n := Shown(outs, cut);
    SentText(outs, n);
    if cut.None? {
      assert outs[..n] == outs;
      FinishedText(SentUpTo(outs, n), n, NoCalls);
    } else {
      FinishedText(SentUpTo(outs, n), n, after);
    }
  }

  /**
   * The stream opens with the role chunk. It fails exactly when the second prompt cannot be
   * built, and then stops where it is; otherwise it closes with "stop", numbered one past the
   * content chunks of both replies, and `[DONE]`, even after a redirect.
   */
  lemma BreakingFraming(outs: seq<string>, cut: Option<nat>, after: AfterBreak)
    requires cut.Some? ==> 1 <= cut.value <= |outs|
    ensures |Breaking(outs, cut, after).frames| >= 1 && Breaking(outs, cut, after).frames[0] == RoleChunk()
    ensures Breaking(outs, cut, after).failure.Some? <==> cut.Some? && after.Executed? && after.second.Err?
    ensures Breaking(outs, cut, after).failure.Some? ==>
              Breaking(outs, cut, after).frames == SentUpTo(outs, Shown(outs, cut))
    ensures Breaking(outs, cut, after).failure.None? ==>
              |Breaking(outs, cut, after).frames| >= 3
              && Breaking(outs, cut, after).frames[|Breaking(outs, cut, after).frames| - 1] == Done
              && Breaking(outs, cut, after).frames[|Breaking(outs, cut, after).frames| - 2] == EndChunk(Numbered(outs, cut, after) + 1, "stop")
  {
    var n := Shown(outs, cut);
    var sent := SentUpTo(outs, n);
    assert sent[0] == RoleChunk();
    FinishedFraming(sent, n, if cut.None? then NoCalls else after);
  }

  /** What follows the first reply keeps what was sent in front and, unless it failed, ends with "stop" and `[DONE]`. */
  lemma FinishedFraming(sent: seq<Frame>, index: int, after: AfterBreak)
    ensures Finished(sent, index, after).failure.Some? <==> after.Executed? && after.second.Err?
    ensures |Finished(sent, index, after).frames| >= |sent| && Finished(sent, index, after).frames[..|sent|] == sent
    ensures Finished(sent, index, after).failure.Some? ==> Finished(sent, index, after).frames == sent
    ensures Finished(sent, index, after).failure.None? ==>
              |Finished(sent, index, after).frames| >= |sent| + 2
              && Finished(sent, index, after).frames[|Finished(sent, index, after).frames| - 1] == Done
              && Finished(sent, index, after).frames[|Finished(sent, index, after).frames| - 2]
                 == EndChunk(index + 1 + (if after.Executed? && after.second.Ok? then |after.second.value| else 0), "stop")
  {
    match after
    case NoCalls =>
    case Redirect(calls, notice) =>
    case Executed(Err(e)) =>
    case Executed(Ok(more)) =>
      var f := Finished(sent, index, after).frames;
      assert f == (sent + ContentRun(more, index + 1)) + [EndChunk(index + 1 + |more|, "stop"), Done];
  }

  /** With the tool protocol off, the stream carries the whole reply and closes with "stop". */
  lemma ProtocolOffSendsAll(tools: map<string, ToolDefinition>, prompter: Prompter, gen: ToolPromptGenerator, regex: RegexEngine,
                            engine: Engine, p: InferenceParams, ids: CallIds, notice: string, request: ChatRequest, tpl: int,
                            outs: seq<string>, order: seq<ToolResponse>)
    ensures StreamFor(tools, prompter, gen, regex, engine, p, ids, notice, request, tpl, false, outs, order).failure.None?
    ensures ContentOf(StreamFor(tools, prompter, gen, regex, engine, p, ids, notice, request, tpl, false, outs, order).frames) == Concat(outs)
    ensures PendingFor(tools, gen, regex, tpl, ids, false, outs) == []
  {
    BreakingText(outs, None, NoCalls);
    assert outs[..|outs|] == outs;
  }

  /**
   * With no registered tools, nothing is run: a tool call with calls in it is answered with the
   * redirect, which repeats the calls' names and arguments under ids not used for the calls found.
   */
  lemma EmptyRegistryRedirects(prompter: Prompter, engine: Engine, p: InferenceParams, ids: CallIds, notice: string, request: ChatRequest,
                               calls: seq<ToolMessage>, order: seq<ToolResponse>)
    requires |calls| > 0
    ensures Executing(map[], calls) == []
    ensures After(map[], prompter, engine, p, ids, notice, request, calls, order).Redirect?
    ensures After(map[], prompter, engine, p, ids, notice, request, calls, order).notice == notice
    ensures Functions(After(map[], prompter, engine, p, ids, notice, request, calls, order).calls) == Functions(calls)
    ensures forall i | 0 <= i < |calls| ::
              After(map[], prompter, engine, p, ids, notice, request, calls, order).calls[i].id == "call_" + ids(|calls| + i)
  {
    var none: map<string, ToolDefinition> := map[];
    assert calls[0].fn.name !in none;
  }
}
