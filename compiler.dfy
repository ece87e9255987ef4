/**
 * The history compiler (`HistoryToText`): turns the chat history into the single prompt text of
 * a template family, interleaving tool invocations and their results in the protocol's
 * textual form. The transform keeps its pending tool calls in an instance field; the rest of
 * its state lives for one call.
 */
module Compiler {
  import opened Wrappers
  import opened Text
  import opened Models
  import opened ToolPrompt
  import opened Templates

  /** The pending tool calls: call id and rendered result, in insertion order. */
  type Pending = seq<(string, string)>

  /** The call ids of the pending calls, in order. */
  function Ids(p: Pending): seq<string> {
    seq(|p|, i requires 0 <= i < |p| => p[i].0)
  }

  /** A dictionary holds each key once. */
  predicate DistinctIds(p: Pending) {
    forall i, j | 0 <= i < j < |p| :: p[i].0 != p[j].0
  }

  /** The indexer assignment `functionCalls[id] = v`: the entry keeps its place. */
  function SetResult(p: Pending, id: string, v: string): (q: Pending)
    ensures Ids(q) == Ids(p)
    ensures forall i | 0 <= i < |p| :: q[i].1 == if p[i].0 == id then v else p[i].1
  {
    seq(|p|, i requires 0 <= i < |p| => if p[i].0 == id then (id, v) else p[i])
  }

  /** The pending results, each followed by a line break, in insertion order. */
  function ValueLines(p: Pending): string {
    if p == [] then "" else ValueLines(p[..|p| - 1]) + p[|p| - 1].1 + "\n"
  }

  /** The exception `Dictionary.Add` throws for a key it already holds. */
  function DuplicateKey(id: string): Exception {
    ArgumentException("An item with the same key has already been added. Key: " + id)
  }

  /**
   * The state of one compilation: the text so far, the pending calls, whether a tool window
   * is open, whether a system turn was taken, and the system text carried into the next user
   * turn when the template has no system token.
   */
  datatype CState = CState(out: string, pending: Pending, toolWait: bool, systemAdded: bool, systemMessage: string)

  /** The state before the first message: the transform's pending calls as they are. */
  function Init(carried: Pending): CState {
    CState("", carried, false, false, "")
  }

  /** The fixed parameters of one compilation. */
  datatype Setting = Setting(ts: TemplateSet, gen: ToolPromptGenerator, tpl: int, toolPrompt: string)

  /**
   * Opening a tool window: one line per call, each call id added to the pending calls with an
   * empty result. A call that does not format, or an id already pending, throws.
   */
  function OpenCalls(gen: ToolPromptGenerator, tpl: int, out: string, pending: Pending, calls: seq<ToolMessage>): Result<(string, Pending)> {
    if calls == [] then Ok((out, pending))
    else
      var prev := OpenCalls(gen, tpl, out, pending, calls[..|calls| - 1]);
      var c := calls[|calls| - 1];
      if prev.Err? then prev
      else
        var line := gen.GenerateToolCall(c, tpl);
        if line.Err? then Err(line.error)
        else if c.id in Ids(prev.value.1) then Err(DuplicateKey(c.id))
        else Ok((prev.value.0 + line.value + "\n", prev.value.1 + [(c.id, "")]))
  }

  /** A user turn: closes an open tool window (dropping its calls), then the user's text. */
  function StepUser(s: Setting, st: CState, m: Message): CState {
    var st1 := if st.toolWait then st.(out := st.out + s.ts.endToken + "\n", pending := [], toolWait := false) else st;
    st1.(out := st1.out + s.ts.userToken + "\n" + st1.systemMessage + Render(m.content) + s.ts.endToken + "\n",
         systemMessage := "")
  }

  /**
   * A system turn: taken only once and never inside a tool window; without a system token its
   * text (and the tool prompt) is carried into the next user turn.
   */
  function StepSystem(s: Setting, st: CState, m: Message): CState {
    if st.systemAdded || st.toolWait then st
    else if IsBlank(s.ts.systemToken) then
      st.(systemAdded := true, systemMessage := Render(m.content) + " " + s.toolPrompt)
    else
      st.(systemAdded := true,
          out := st.out + s.ts.systemToken + "\n" + Render(m.content) + s.toolPrompt + s.ts.endToken + "\n")
  }

  /**
   * An assistant turn: inside a tool window, the pending results and the assistant's answer
   * after the exit marker; with tool calls, a new window; otherwise a plain assistant turn.
   */
  function StepAssistant(s: Setting, st: CState, m: Message): Result<CState> {
    if st.toolWait then
      var ret := s.gen.GenerateToolCallReturn(m.content, s.tpl);
      if ret.Err? then Err(ret.error)
      else Ok(st.(out := st.out + ValueLines(st.pending) + ret.value + s.ts.endToken + "\n", pending := [], toolWait := false))
    else if |m.toolCalls| > 0 then
      var window := OpenCalls(s.gen, s.tpl, st.out + s.ts.assistantToken + "\n", st.pending, m.toolCalls);
      var split := s.gen.GetToolResultSplit(s.tpl);
      if window.Err? then Err(window.error)
      else if split.Err? then Err(split.error)
      else Ok(st.(out := window.value.0 + split.value, pending := window.value.1, toolWait := true))
    else
      Ok(st.(out := st.out + s.ts.assistantToken + "\n" + Render(m.content) + s.ts.endToken + "\n"))
  }

  /** A tool turn: records the result of a pending call of the open window, and is ignored otherwise. */
  function StepTool(s: Setting, st: CState, m: Message): Result<CState> {
    if m.toolCallId.None? || !st.toolWait || m.toolCallId.value !in Ids(st.pending) then Ok(st)
    else
      var res := s.gen.GenerateToolCallResult(m.content, s.tpl);
      if res.Err? then Err(res.error)
      else Ok(st.(pending := SetResult(st.pending, m.toolCallId.value, res.value)))
  }

  /** The effect of one message; a message with another role is ignored. */
  function Step(s: Setting, st: CState, m: Message): Result<CState> {
    match m.role
    case User => Ok(StepUser(s, st, m))
    case System => Ok(StepSystem(s, st, m))
    case Assistant => StepAssistant(s, st, m)
    case Tool => StepTool(s, st, m)
    case Other(_) => Ok(st)
  }

  /** The messages applied in order; the first exception stops the compilation. */
  function Steps(s: Setting, st: CState, ms: seq<Message>): Result<CState> {
    if ms == [] then Ok(st)
    else
      var prev := Steps(s, st, ms[..|ms| - 1]);
      if prev.Err? then prev else Step(s, prev.value, ms[|ms| - 1])
  }

  /**
   * The closing of the prompt: after a trailing tool message with results pending, the results
   * and the exit marker; inside an open tool window, the end token and the assistant token;
   * otherwise the assistant token, which opens the turn the model is to write.
   */
  function Finish(s: Setting, st: CState, history: seq<Message>): Result<CState> {
    if |history| > 0 && history[|history| - 1].role == Tool && |st.pending| > 0 then
      var config := s.gen.GetToolPromptConfig(s.tpl);
      if config.Err? then Err(config.error)
      else Ok(st.(out := st.out + ValueLines(st.pending) + config.value.fnExit + "\n", pending := []))
    else if st.toolWait then Ok(st.(out := st.out + s.ts.endToken + s.ts.assistantToken + "\n"))
    else Ok(st.(out := st.out + s.ts.assistantToken + "\n"))
  }

  /** A whole compilation, from the transform's pending calls to the final state. */
  function Compile(s: Setting, carried: Pending, history: seq<Message>): Result<CState> {
    var st := Steps(s, Init(carried), history);
    if st.Err? then st else Finish(s, st.value, history)
  }

  /** The text of a compilation, or its exception. */
  function CompiledText(s: Setting, carried: Pending, history: seq<Message>): Result<string> {
    var c := Compile(s, carried, history);
    if c.Err? then Err(c.error) else Ok(c.value.out)
  }

  /** Once a prefix of the messages throws, the whole list throws the same exception. */
  lemma {:induction false} StepsErrPropagates(s: Setting, st: CState, ms: seq<Message>, k: nat)
    requires k <= |ms| && Steps(s, st, ms[..k]).Err?
    ensures Steps(s, st, ms) == Steps(s, st, ms[..k])
    decreases |ms| - k
  {
    if k < |ms| {
      assert ms[..k + 1][..k] == ms[..k];
      StepsErrPropagates(s, st, ms, k + 1);
    } else {
      assert ms[..k] == ms;
    }
  }

  /** Once a prefix of the calls throws, opening all of them throws the same exception. */
  lemma {:induction false} OpenCallsErrPropagates(gen: ToolPromptGenerator, tpl: int, out: string, pending: Pending, calls: seq<ToolMessage>, k: nat)
    requires k <= |calls| && OpenCalls(gen, tpl, out, pending, calls[..k]).Err?
    ensures OpenCalls(gen, tpl, out, pending, calls) == OpenCalls(gen, tpl, out, pending, calls[..k])
    decreases |calls| - k
  {
    if k < |calls| {
      assert calls[..k + 1][..k] == calls[..k];
      OpenCallsErrPropagates(gen, tpl, out, pending, calls, k + 1);
    } else {
      assert calls[..k] == calls;
    }
  }

  /** The transform: its four tokens and the pending tool calls it keeps between messages. */
  class HistoryTransform {
    const tokens: TemplateSet
    var functionCalls: Pending

    constructor(tokens: TemplateSet)
      ensures this.tokens == tokens && functionCalls == []
    {
      this.tokens := tokens;
      functionCalls := [];
    }

    /**
     * `HistoryToText`: compiles the history with the generator's protocol `tpl` and the tool
     * prompt; the pending calls left at the end stay in `functionCalls`.
     */
    method HistoryToText(history: seq<Message>, gen: ToolPromptGenerator, tpl: int, toolPrompt: string)
      returns (r: Result<string>)
      modifies this
      ensures r == CompiledText(Setting(tokens, gen, tpl, toolPrompt), old(functionCalls), history)
      ensures r.Ok? ==> functionCalls == Compile(Setting(tokens, gen, tpl, toolPrompt), old(functionCalls), history).value.pending
    {
      ghost var s := Setting(tokens, gen, tpl, toolPrompt);
      ghost var carried := functionCalls;
      var systemMessage := "";
      var sb := "";
      var toolWait := false;
      var systemAdded := false;
      var i := 0;
      while i < |history|
        invariant 0 <= i <= |history|
        invariant Steps(s, Init(carried), history[..i]) == Ok(CState(sb, functionCalls, toolWait, systemAdded, systemMessage))
      {
        var message := history[i];
        ghost var before := CState(sb, functionCalls, toolWait, systemAdded, systemMessage);
        assert history[..i + 1][..i] == history[..i];
        match message.role {
          case User =>
            if toolWait {
              functionCalls := [];
              toolWait := false;
              sb := sb + tokens.endToken + "\n";
            }
            sb := sb + tokens.userToken + "\n" + systemMessage + Render(message.content) + tokens.endToken + "\n";
            systemMessage := "";
          case System =>
            if !(systemAdded || toolWait) {
              systemAdded := true;
              if IsBlank(tokens.systemToken) {
                systemMessage := Render(message.content) + " " + toolPrompt;
              } else {
                sb := sb + tokens.systemToken + "\n" + Render(message.content) + toolPrompt + tokens.endToken + "\n";
              }
            }
          case Assistant =>
            if toolWait {
              sb := sb + ValueLines(functionCalls);
              functionCalls := [];
              var toolCallReturn := gen.GenerateToolCallReturn(message.content, tpl);
              if toolCallReturn.Err? {
                StepsErrPropagates(s, Init(carried), history, i + 1);
                return Err(toolCallReturn.error);
              }
              sb := sb + toolCallReturn.value + tokens.endToken + "\n";
              toolWait := false;
            } else if |message.toolCalls| > 0 {
              var window := OpenToolCalls(gen, tpl, sb + tokens.assistantToken + "\n", message.toolCalls);
              if window.Err? {
                StepsErrPropagates(s, Init(carried), history, i + 1);
                return Err(window.error);
              }
              sb := window.value;
              var split := gen.GetToolResultSplit(tpl);
              if split.Err? {
                StepsErrPropagates(s, Init(carried), history, i + 1);
                return Err(split.error);
              }
              sb := sb + split.value;
              toolWait := true;
            } else {
              sb := sb + tokens.assistantToken + "\n" + Render(message.content) + tokens.endToken + "\n";
            }
          case Tool =>
            if !(message.toolCallId.None? || !toolWait || message.toolCallId.value !in Ids(functionCalls)) {
              var toolCallResult := gen.GenerateToolCallResult(message.content, tpl);
              if toolCallResult.Err? {
                StepsErrPropagates(s, Init(carried), history, i + 1);
                return Err(toolCallResult.error);
              }
              functionCalls := SetResult(functionCalls, message.toolCallId.value, toolCallResult.value);
            }
          case Other(_) =>
        }
        i := i + 1;
      }
      assert history[..i] == history;
      if |history| > 0 && history[|history| - 1].role == Tool && |functionCalls| > 0 {
        sb := sb + ValueLines(functionCalls);
        functionCalls := [];
        var config := gen.GetToolPromptConfig(tpl);
        if config.Err? {
          return Err(config.error);
        }
        sb := sb + config.value.fnExit + "\n";
      } else if toolWait {
        sb := sb + tokens.endToken + tokens.assistantToken + "\n";
      } else {
        sb := sb + tokens.assistantToken + "\n";
      }
      r := Ok(sb);
    }

    /**
     * The tool-call loop of the assistant branch: appends each call's line to `sb` and adds its
     * id to `functionCalls`.
     */
    method OpenToolCalls(gen: ToolPromptGenerator, tpl: int, sb0: string, calls: seq<ToolMessage>) returns (r: Result<string>)
      modifies this
      ensures var o := OpenCalls(gen, tpl, sb0, old(functionCalls), calls);
        (o.Err? ==> r == Err(o.error)) && (o.Ok? ==> r == Ok(o.value.0) && functionCalls == o.value.1)
    {
      ghost var pending0 := functionCalls;
      var sb := sb0;
      var j := 0;
      while j < |calls|
        invariant 0 <= j <= |calls|
        invariant OpenCalls(gen, tpl, sb0, pending0, calls[..j]) == Ok((sb, functionCalls))
      {
        var toolCall := calls[j];
        assert calls[..j + 1][..j] == calls[..j];
        var toolCallPrompt := gen.GenerateToolCall(toolCall, tpl);
        if toolCallPrompt.Err? {
          OpenCallsErrPropagates(gen, tpl, sb0, pending0, calls, j + 1);
          return Err(toolCallPrompt.error);
        }
        sb := sb + toolCallPrompt.value + "\n";
        if toolCall.id in Ids(functionCalls) {
          OpenCallsErrPropagates(gen, tpl, sb0, pending0, calls, j + 1);
          return Err(DuplicateKey(toolCall.id));
        }
        functionCalls := functionCalls + [(toolCall.id, "")];
        j := j + 1;
      }
      assert calls[..j] == calls;
      r := Ok(sb);
    }
  }
}
