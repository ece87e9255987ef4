/**
 * The streamed chat endpoint of the Blazor CPU server. With the tool protocol on, the first three
 * fragments are held back; at the fourth the held text decides whether the model is calling a
 * tool. If it is not, the held fragments are sent and streaming goes on as usual; if it is, every
 * fragment is held to the end and the whole reply is parsed for tool calls.
 */
module BufferedStream {
  import opened Wrappers
  import opened Text
  import opened Models
  import opened ToolPrompt
  import opened ToolPromptBuilder
  import opened RequestShaping
  import opened Chunks

  /** The chunk that hands the detected calls to the client. */
  function CallsChunk(index: int, calls: seq<ToolMessage>): Frame {
    Chunk(index, Some(Reply(None, None, Some(calls))), Some("tool_calls"))
  }

  /** Every fragment as content, numbered from 1, then "stop". */
  function Tail(outs: seq<string>): seq<Frame> {
    ContentRun(outs, 1) + [EndChunk(|outs| + 1, "stop"), Done]
  }

  /** The stream that sends every fragment. */
  function Plain(outs: seq<string>): seq<Frame> {
    [RoleChunk()] + Tail(outs)
  }

  /** The stream that hands calls to the client: the calls at index 1, then "tool_calls" at index 0. */
  function CallsStream(calls: seq<ToolMessage>): seq<Frame> {
    [RoleChunk(), CallsChunk(1, calls), EndChunk(0, "tool_calls"), Done]
  }

  /** What follows a recognised tool call: the calls found, or, when none is, every held fragment. */
  function ToolTail(calls: seq<ToolMessage>, outs: seq<string>): seq<Frame> {
    if |calls| > 0 then CallsStream(calls)[1..] else Tail(outs)
  }

  /**
   * The events of the stream, by case, given whether the first three fragments were recognised
   * as a tool call (`active`) and the calls then found in the whole reply: tool protocol off, or
   * no tool call recognised, gives every fragment; a reply of at most three fragments with the
   * protocol on gives none of them; a recognised tool call gives the calls found, or every
   * fragment when none is found.
   */
  function Decoded(enabled: bool, active: bool, calls: seq<ToolMessage>, outs: seq<string>): seq<Frame> {
    if !enabled || (|outs| > 3 && !active) then Plain(outs)
    else if |outs| <= 3 then [RoleChunk(), EndChunk(1, "stop"), Done]
    else [RoleChunk()] + ToolTail(calls, outs)
  }

  /** Whether the first three fragments are recognised as a tool call. */
  predicate Recognised(gen: ToolPromptGenerator, tpl: int, enabled: bool, outs: seq<string>)
    requires enabled ==> gen.ValidIndex(tpl)
  {
    enabled && |outs| > 3 && gen.IsToolActive(outs[..3], tpl)
  }

  /** The calls handed over after a recognised tool call: those found in the trimmed reply. */
  function Detected(gen: ToolPromptGenerator, regex: RegexEngine, tpl: int, enabled: bool, outs: seq<string>, ids: CallIds): seq<ToolMessage>
    requires enabled ==> gen.ValidIndex(tpl)
  {
    if Recognised(gen, tpl, enabled, outs) then CallMessages(CallsIn(gen, regex, Trim(Concat(outs)), tpl), ids, 0) else []
  }

  /** The events of the stream for the fragments `outs` the generator produced. */
  function BufferedFrames(gen: ToolPromptGenerator, regex: RegexEngine, tpl: int, enabled: bool, outs: seq<string>, ids: CallIds): seq<Frame>
    requires enabled ==> gen.ValidIndex(tpl)
  {
    Decoded(enabled, Recognised(gen, tpl, enabled, outs), Detected(gen, regex, tpl, enabled, outs, ids), outs)
  }

  /**
   * The loop over the fragments: what has been sent, the last index used, the fragments held back
   * and whether a tool call was recognised.
   */
  method Intercept(gen: ToolPromptGenerator, tpl: int, enabled: bool, outs: seq<string>)
    returns (frames: seq<Frame>, index: int, tokens: seq<string>, toolActive: bool)
    requires enabled ==> gen.ValidIndex(tpl)
    ensures toolActive <==> enabled && |outs| > 3 && gen.IsToolActive(outs[..3], tpl)
    ensures toolActive ==> tokens == outs && index == 0 && frames == [RoleChunk()]
    ensures !toolActive && enabled && |outs| <= 3 ==> index == 0 && frames == [RoleChunk()]
    ensures !toolActive && !(enabled && |outs| <= 3) ==> index == |outs| && frames == [RoleChunk()] + ContentRun(outs, 1)
  {
    frames := [RoleChunk()];
    index := 0;
    tokens := [];
    toolActive := false;
    var toolMode := enabled;
    ghost var active3 := enabled && |outs| > 3 && gen.IsToolActive(outs[..3], tpl);
    for i := 0 to |outs|
      invariant !enabled ==> !toolMode && !toolActive
      invariant enabled && i <= 3 ==> toolMode && !toolActive && tokens == outs[..i]
      invariant enabled && i > 3 ==> toolMode == toolActive == active3
      invariant toolActive ==> tokens == outs[..i]
      invariant toolMode ==> index == 0 && frames == [RoleChunk()]
      invariant !toolMode ==> index == i && frames == [RoleChunk()] + ContentRun(outs[..i], 1)
    {
      var output := outs[i];
      assert outs[..i + 1] == outs[..i] + [output];
      if toolMode {
        if toolActive || |tokens| < 3 {
          tokens := tokens + [output];
          continue;
        }
        assert i == 3 && tokens == outs[..3];
        toolActive := gen.IsToolActive(tokens, tpl);
        if toolActive {
          tokens := tokens + [output];
          continue;
        }
        toolMode := false;
        frames, index := Replay(frames, index, tokens);
      }
      ContentRunSnoc(outs[..i], output, 1);
      index := index + 1;
      frames := frames + [ContentChunk(index, output)];
    }
    assert outs[..|outs|] == outs;
  }

  /** After a recognised tool call: sends the calls found, or, when none is, the held fragments. */
  method ConcludeToolCall(calls: seq<ToolMessage>, tokens: seq<string>) returns (tail: seq<Frame>)
    ensures tail == ToolTail(calls, tokens)
  {
    var index := 0;
    if |calls| > 0 {
      index := index + 1;
      tail := [CallsChunk(index, calls)];
      tail := tail + [EndChunk(0, "tool_calls"), Done];
    } else {
      tail, index := Replay([], index, tokens);
      index := index + 1;
      tail := tail + [EndChunk(index, "stop"), Done];
    }
  }

  /** The decoder: the loop, then the tool calls or the held fragments, then the closing events. */
  method StreamFrames(gen: ToolPromptGenerator, regex: RegexEngine, tpl: int, enabled: bool, outs: seq<string>, ids: CallIds)
    returns (frames: seq<Frame>)
    requires enabled ==> gen.ValidIndex(tpl)
    ensures frames == BufferedFrames(gen, regex, tpl, enabled, outs, ids)
  {
    var index, tokens, toolActive;
    frames, index, tokens, toolActive := Intercept(gen, tpl, enabled, outs);
    if toolActive {
      var found := GenerateToolCalls(gen, regex, Trim(Concat(tokens)), tpl);
      var tail := ConcludeToolCall(CallMessages(found.value, ids, 0), tokens);
      frames := frames + tail;
      return;
    }
    ghost var sent := frames;
    index := index + 1;
    frames := frames + [EndChunk(index, "stop"), Done];
    if !(enabled && |outs| <= 3) {
      assert sent == [RoleChunk()] + ContentRun(outs, 1) && index == |outs| + 1;
      assert frames == [RoleChunk()] + (ContentRun(outs, 1) + [EndChunk(|outs| + 1, "stop"), Done]);
    }
  }

  /**
   * `CreateChatCompletionStreamAsync`: nothing for a request without messages; otherwise the
   * prompt and parameters are built (an exception there ends the stream before any event) and
   * the generator's fragments go through the decoder loop.
   */
  method CreateChatCompletionStream(settings: ServiceSettings, gen: ToolPromptGenerator, enc: JsonEncoder, regex: RegexEngine,
                                    engine: Engine, ids: CallIds, request: ChatRequest)
    returns (s: Stream)
    ensures request.messages == [] ==> s == Stream([], None)
    ensures request.messages != [] && ChatHistory(settings, gen, enc, request).Err? ==>
              s == Stream([], Some(ChatHistory(settings, gen, enc, request).error))
    ensures request.messages != [] && ChatHistory(settings, gen, enc, request).Ok? ==>
              var h := ChatHistory(settings, gen, enc, request).value;
              var p := ParamsFor(request, settings, h.toolStopWords);
              (h.isToolPromptEnabled ==> gen.ValidIndex(settings.toolPromptIndex))
              && s == Stream(BufferedFrames(gen, regex, settings.toolPromptIndex, h.isToolPromptEnabled, engine.infer(h.chatHistory, p), ids), None)
  {
    if request.messages == [] {
      return Stream([], None);
    }
    var history := ChatHistory(settings, gen, enc, request);
    if history.Err? {
      return Stream([], Some(history.error));
    }
    var h := history.value;
    ChatHistoryToolMode(settings, gen, enc, request);
    var p := GetInferenceParams(request, settings, h.toolStopWords);
    var frames := StreamFrames(gen, regex, settings.toolPromptIndex, h.isToolPromptEnabled, engine.infer(h.chatHistory, p), ids);
    s := Stream(frames, None);
  }

  // ---------------------------------------------------------------------------------------------
  // Properties

  /**
   * A stream as a client reads it: the role chunk first, then chunks with a delta numbered by
   * their position, then one chunk with only a finish reason, then `[DONE]`.
   */
  predicate Framed(fs: seq<Frame>) {
    && |fs| >= 3
    && fs[0] == RoleChunk()
    && fs[|fs| - 1] == Done
    && fs[|fs| - 2].Chunk? && fs[|fs| - 2].delta.None? && fs[|fs| - 2].finish.Some?
    && forall i | 1 <= i < |fs| - 2 :: fs[i].Chunk? && fs[i].delta.Some? && fs[i].finish.None? == (fs[i].delta.value.toolCalls.None?) && fs[i].index == i
  }

  /** The finish reason a framed stream ends with. */
  function Reason(fs: seq<Frame>): string
    requires Framed(fs)
  {
    fs[|fs| - 2].finish.value
  }

  /** The stream that sends every fragment carries exactly the reply and ends with "stop". */
  lemma PlainFacts(outs: seq<string>)
    ensures Framed(Plain(outs)) && Reason(Plain(outs)) == "stop"
    ensures ContentOf(Plain(outs)) == Concat(outs)
  {
    var run := ContentRun(outs, 1);
    var f := Plain(outs);
    assert f == [RoleChunk()] + run + [EndChunk(|outs| + 1, "stop"), Done];
    forall i | 1 <= i < |f| - 2
      ensures f[i].Chunk? && f[i].delta.Some? && f[i].finish.None? == (f[i].delta.value.toolCalls.None?) && f[i].index == i
    {
      assert f[i] == run[i - 1];
    }
    ContentOfAppend([RoleChunk()], Tail(outs));
    ContentOfAppend(run, [EndChunk(|outs| + 1, "stop"), Done]);
    ContentOfContentFree([RoleChunk()]);
    ContentOfContentFree([EndChunk(|outs| + 1, "stop"), Done]);
    ContentOfRun(outs, 1);
  }

  /** Handing calls over sends no text and ends with "tool_calls". */
  lemma CallsStreamFacts(calls: seq<ToolMessage>)
    ensures Framed(CallsStream(calls)) && Reason(CallsStream(calls)) == "tool_calls"
    ensures CallsStream(calls)[1].delta.value.toolCalls == Some(calls)
    ensures ContentOf(CallsStream(calls)) == ""
  {
    ContentOfContentFree(CallsStream(calls));
  }

  /** The stream of a held-back short reply sends no text and ends with "stop". */
  lemma HeldStreamFacts()
    ensures Framed([RoleChunk(), EndChunk(1, "stop"), Done]) && Reason([RoleChunk(), EndChunk(1, "stop"), Done]) == "stop"
    ensures ContentOf([RoleChunk(), EndChunk(1, "stop"), Done]) == ""
  {
    ContentOfContentFree([RoleChunk(), EndChunk(1, "stop"), Done]);
  }

  /**
   * Every stream is framed. It ends with "tool_calls" exactly when, with the protocol on, a tool
   * call was recognised in a reply of more than three fragments and calls were found; then the
   * calls are in the chunk after the role chunk and no text is sent. Otherwise it ends with
   * "stop", and unless the protocol is on and the reply is at most three fragments long, the
   * client receives the whole reply.
   */
  lemma DecodedFacts(enabled: bool, active: bool, calls: seq<ToolMessage>, outs: seq<string>)
    ensures Framed(Decoded(enabled, active, calls, outs))
    ensures Reason(Decoded(enabled, active, calls, outs)) == "tool_calls" <==> enabled && |outs| > 3 && active && |calls| > 0
    ensures Reason(Decoded(enabled, active, calls, outs)) != "tool_calls" ==> Reason(Decoded(enabled, active, calls, outs)) == "stop"
    ensures Reason(Decoded(enabled, active, calls, outs)) == "tool_calls" ==>
              Decoded(enabled, active, calls, outs)[1].delta.value.toolCalls == Some(calls)
              && ContentOf(Decoded(enabled, active, calls, outs)) == ""
    ensures Reason(Decoded(enabled, active, calls, outs)) == "stop" && !(enabled && |outs| <= 3) ==>
              ContentOf(Decoded(enabled, active, calls, outs)) == Concat(outs)
  {
    if enabled && |outs| > 3 && active && |calls| > 0 {
      assert Decoded(enabled, active, calls, outs) == CallsStream(calls);
      CallsStreamFacts(calls);
    } else if enabled && |outs| <= 3 {
      HeldStreamFacts();
    } else {
      assert Decoded(enabled, active, calls, outs) == Plain(outs);
      PlainFacts(outs);
    }
  }

  /**
   * With the tool protocol on, a reply of at most three fragments is never sent: the fragments
   * stay held back and the stream closes with "stop" at index 1.
   */
  lemma ShortReplyDropped(active: bool, calls: seq<ToolMessage>, outs: seq<string>)
    requires 1 <= |outs| <= 3 && Concat(outs) != ""
    ensures Decoded(true, active, calls, outs) == [RoleChunk(), EndChunk(1, "stop"), Done]
    ensures ContentOf(Decoded(true, active, calls, outs)) != Concat(outs)
  {
    HeldStreamFacts();
  }

  /**
   * The decoder with the held fragments sent when the reply ends before the fourth fragment:
   * only the short replies with the protocol on are treated differently.
   */
  function Flushed(enabled: bool, active: bool, calls: seq<ToolMessage>, outs: seq<string>): (r: seq<Frame>)
    ensures !(enabled && |outs| <= 3) ==> r == Decoded(enabled, active, calls, outs)
  {
    if enabled && |outs| <= 3 then Plain(outs) else Decoded(enabled, active, calls, outs)
  }

  /** With the held fragments flushed, no reply is lost: the text reaches the client unless tool calls do. */
  lemma FlushedKeepsText(enabled: bool, active: bool, calls: seq<ToolMessage>, outs: seq<string>)
    ensures Framed(Flushed(enabled, active, calls, outs))
    ensures Reason(Flushed(enabled, active, calls, outs)) == "tool_calls" || ContentOf(Flushed(enabled, active, calls, outs)) == Concat(outs)
  {
    PlainFacts(outs);
    DecodedFacts(enabled, active, calls, outs);
  }
}
