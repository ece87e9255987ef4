/**
 * What the chat endpoints send back: the chunks of a streamed reply (each sent as one
 * `data: <json>` event), the non-streamed response, and the pieces both servers build them from.
 * The JSON text of a chunk, its id and its creation time are not modelled: a chunk is its index,
 * its delta and its finish reason.
 */
module Chunks {
  import opened Wrappers
  import opened Text
  import opened Models
  import opened ToolPrompt
  import opened ToolRegistry
  import opened RequestShaping

  /** A reply message or a chunk's delta: role, content and tool calls, each possibly null. */
  datatype Reply = Reply(role: Option<string>, content: Option<string>, toolCalls: Option<seq<ToolMessage>>)

  /** One event of a stream: a chunk with a single choice, or the closing `[DONE]`. */
  datatype Frame = Chunk(index: int, delta: Option<Reply>, finish: Option<string>) | Done

  /** What a stream produced: the events sent, and the exception that ended it early, if any. */
  datatype Stream = Stream(frames: seq<Frame>, failure: Option<Exception>)

  /** The token counts of a non-streamed response. */
  datatype Usage = Usage(promptTokens: int, completionTokens: int, totalTokens: int)

  /** A non-streamed response: empty when the request has no messages, otherwise one choice. */
  datatype ChatResponse =
    | EmptyResponse
    | Response(model: string, finish: string, message: Reply, usage: Usage)

  /**
   * The generator: the fragments it produces for a prompt and parameters, and the number of
   * prompt tokens it reports afterwards.
   */
  datatype Engine = Engine(infer: (string, InferenceParams) -> seq<string>, promptTokens: string -> nat)

  /** The text of the i-th fresh GUID the server generates while answering one request. */
  type CallIds = nat -> string

  /** The chunk that opens every stream: index 0, role "assistant". */
  function RoleChunk(): Frame {
    Chunk(0, Some(Reply(Some("assistant"), None, None)), None)
  }

  /** A content chunk carrying one fragment. */
  function ContentChunk(index: int, s: string): Frame {
    Chunk(index, Some(Reply(None, Some(s), None)), None)
  }

  /** A chunk with no delta that only gives the finish reason. */
  function EndChunk(index: int, reason: string): Frame {
    Chunk(index, None, Some(reason))
  }

  /** One content chunk per fragment, numbered from `start` upwards. */
  function ContentRun(ss: seq<string>, start: int): (r: seq<Frame>)
    ensures |r| == |ss|
    ensures forall i | 0 <= i < |ss| :: r[i] == ContentChunk(start + i, ss[i])
  {
    if ss == [] then []
    else ContentRun(ss[..|ss| - 1], start) + [ContentChunk(start + |ss| - 1, ss[|ss| - 1])]
  }

  /** The text a client reassembles from a stream: the contents of the deltas, in order. */
  function ContentOf(fs: seq<Frame>): string {
    if fs == [] then []
    else
      var f := fs[|fs| - 1];
      ContentOf(fs[..|fs| - 1]) + (if f.Chunk? && f.delta.Some? && f.delta.value.content.Some? then f.delta.value.content.value else [])
  }

  /** The tool calls the protocol's pattern finds in a text, in match order. */
  function CallsIn(gen: ToolPromptGenerator, regex: RegexEngine, text: string, tpl: int): seq<ToolMessageFunction>
    requires gen.ValidIndex(tpl)
  {
    ExtractCalls(regex.matches(gen.configs[tpl].fnTest, text))
  }

  /** The calls sent to the client or the registry, each under a fresh `call_<guid>` id. */
  function CallMessages(fns: seq<ToolMessageFunction>, ids: CallIds, offset: nat): (r: seq<ToolMessage>)
    ensures |r| == |fns|
    ensures forall i | 0 <= i < |fns| :: r[i] == ToolMessage("call_" + ids(offset + i), "function", fns[i])
  {
    seq(|fns|, i requires 0 <= i < |fns| => ToolMessage("call_" + ids(offset + i), "function", fns[i]))
  }

  /** Whether every call names a registered tool. */
  predicate AllRegistered(tools: map<string, ToolDefinition>, calls: seq<ToolMessage>) {
    forall i | 0 <= i < |calls| :: calls[i].fn.name in tools
  }

  /** The assistant message that reports one tool response back into the conversation. */
  function ResultMessage(r: ToolResponse): Message {
    PlainMessage(Assistant, Some("Tool Result for " + r.id + ": " + Render(if r.result.Some? then r.result else r.error)))
  }

  /** The report messages for a batch of responses, in the order given. */
  function ResultMessages(rs: seq<ToolResponse>): (ms: seq<Message>)
    ensures |ms| == |rs|
    ensures forall i | 0 <= i < |rs| :: ms[i] == ResultMessage(rs[i])
  {
    seq(|rs|, i requires 0 <= i < |rs| => ResultMessage(rs[i]))
  }

  /** The answer sent when detected tool calls name tools the server has not registered. */
  const RedirectText: string :=
    "\n                        One or more tools required to complete this request are not registered. Please execute the tool calls listed below and append the results to the original request in the following format:"
    + "\n"
    + "\n                        1. Process each `tool_call` and execute the corresponding tool."
    + "\n                        2. For each tool result, append a message to the `messages` array in the format:"
    + "\n"
    + "\n                           {"
    + "\n                               \"role\": \"assistant\","
    + "\n                               \"content\": \"Tool Result for <tool_id>: <tool_result>\""
    + "\n                           }"
    + "\n"
    + "\n                        3. Resubmit the updated request with the `messages` array containing the tool results for final processing."

  /** Sends fragments as content chunks, numbered on from `index`. */
  method Replay(frames: seq<Frame>, index: int, tokens: seq<string>) returns (frames': seq<Frame>, index': int)
    ensures frames' == frames + ContentRun(tokens, index + 1)
    ensures index' == index + |tokens|
  {
    frames', index' := frames, index;
    for j := 0 to |tokens|
      invariant index' == index + j && frames' == frames + ContentRun(tokens[..j], index + 1)
    {
      index' := index' + 1;
      assert tokens[..j + 1] == tokens[..j] + [tokens[j]];
      frames' := frames' + [ContentChunk(index', tokens[j])];
    }
    assert tokens[..|tokens|] == tokens;
  }

  /** The parameters `GetInferenceParams` computes for a request and the tool protocol's stop words. */
  function ParamsFor(request: ChatRequest, settings: ServiceSettings, toolStopWords: Option<seq<string>>): InferenceParams {
    InferenceParams(MaxTokensParam(request.maxTokens), StopWords(Gathered(request.stop, settings.antiPrompts, toolStopWords)))
  }

  // ---------------------------------------------------------------------------------------------
  // Properties

  /** Numbering a run in two parts gives the run of the whole. */
  lemma {:induction false} ContentRunAppend(a: seq<string>, b: seq<string>, start: int)
    ensures ContentRun(a + b, start) == ContentRun(a, start) + ContentRun(b, start + |a|)
    decreases |b|
  {
    if b == [] {
      assert a + b == a;
    } else {
      var b' := b[..|b| - 1];
      assert (a + b)[..|a + b| - 1] == a + b';
      ContentRunAppend(a, b', start);
    }
  }

  /** Adding one fragment adds one chunk, numbered next. */
  lemma ContentRunSnoc(ss: seq<string>, x: string, start: int)
    ensures ContentRun(ss + [x], start) == ContentRun(ss, start) + [ContentChunk(start + |ss|, x)]
  {
    assert (ss + [x])[..|ss|] == ss;
  }

  /** The text of a concatenation of streams is the concatenation of their texts. */
  lemma {:induction false} ContentOfAppend(a: seq<Frame>, b: seq<Frame>)
    ensures ContentOf(a + b) == ContentOf(a) + ContentOf(b)
    decreases |b|
  {
    if b == [] {
      assert a + b == a;
    } else {
      var b' := b[..|b| - 1];
      assert (a + b)[..|a + b| - 1] == a + b';
      ContentOfAppend(a, b');
    }
  }

  /** A run of content chunks carries exactly the fragments, in order. */
  lemma {:induction false} ContentOfRun(ss: seq<string>, start: int)
    ensures ContentOf(ContentRun(ss, start)) == Concat(ss)
    decreases |ss|
  {
    if ss != [] {
      var r := ContentRun(ss, start);
      assert r[..|r| - 1] == ContentRun(ss[..|ss| - 1], start);
      ContentOfRun(ss[..|ss| - 1], start);
    }
  }

  /** Chunks without content add nothing to the text. */
  lemma {:induction false} ContentOfContentFree(fs: seq<Frame>)
    requires forall i | 0 <= i < |fs| :: !(fs[i].Chunk? && fs[i].delta.Some? && fs[i].delta.value.content.Some?)
    ensures ContentOf(fs) == ""
    decreases |fs|
  {
    if fs != [] {
      ContentOfContentFree(fs[..|fs| - 1]);
    }
  }
}
