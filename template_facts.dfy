/**
 * The prompt text each template family produces: for a system turn followed by a user turn,
 * for a plain assistant turn, for a system turn without a system token, and at the end of a
 * prompt whose tool window is still open.
 */
module TemplateFacts {
  import opened Wrappers
  import opened Text
  import opened Models
  import opened ToolPrompt
  import opened Templates
  import opened Compiler
  import opened CompilerFacts

  /** The two-message history: a system message, then a user message. */
  function SystemUser(c: string, u: string): seq<Message> {
    [PlainMessage(System, Some(c)), PlainMessage(User, Some(u))]
  }

  /** The compilation of a two-message history, step by step, from a fresh transform. */
  lemma TwoSteps(s: Setting, c: string, u: string)
    ensures Compile(s, [], SystemUser(c, u)) ==
      Finish(s, StepUser(s, StepSystem(s, Init([]), PlainMessage(System, Some(c))), PlainMessage(User, Some(u))), SystemUser(c, u))
  {
    var ms := SystemUser(c, u);
    var m0, m1 := PlainMessage(System, Some(c)), PlainMessage(User, Some(u));
    var st1 := StepSystem(s, Init([]), m0);
    assert Steps(s, Init([]), [m0]) == Ok(st1) by { assert [m0][..0] == []; }
    assert Steps(s, Init([]), ms) == Ok(StepUser(s, st1, m1)) by { assert ms[..1] == [m0]; }
  }

  /**
   * With a system token, the system turn (holding the tool prompt) and the user turn are
   * written in order, and the prompt ends by opening the assistant's turn.
   */
  lemma SystemThenUser(s: Setting, c: string, u: string)
    requires !IsBlank(s.ts.systemToken)
    ensures CompiledText(s, [], SystemUser(c, u))
         == Ok(s.ts.systemToken + "\n" + c + s.toolPrompt + s.ts.endToken + "\n"
             + s.ts.userToken + "\n" + u + s.ts.endToken + "\n"
             + s.ts.assistantToken + "\n")
  {
    TwoSteps(s, c, u);
    var m0, m1 := PlainMessage(System, Some(c)), PlainMessage(User, Some(u));
    var sys := s.ts.systemToken + "\n" + c + s.toolPrompt + s.ts.endToken + "\n";
    var st1 := StepSystem(s, Init([]), m0);
    assert st1.out == "" + sys && st1.systemMessage == "" && !st1.toolWait;
    var st2 := StepUser(s, st1, m1);
    assert st2.out == st1.out + s.ts.userToken + "\n" + "" + u + s.ts.endToken + "\n";
    assert s.ts.userToken + "\n" + "" == s.ts.userToken + "\n";
    assert st2.out == sys + s.ts.userToken + "\n" + u + s.ts.endToken + "\n";
    assert Finish(s, st2, SystemUser(c, u)) == Ok(st2.(out := st2.out + s.ts.assistantToken + "\n"));
  }

  /**
   * Without a system token, the system text, a space and the tool prompt open the next user
   * turn instead of a turn of their own.
   */
  lemma SystemMergedIntoUser(s: Setting, c: string, u: string)
    requires IsBlank(s.ts.systemToken)
    ensures CompiledText(s, [], SystemUser(c, u))
         == Ok(s.ts.userToken + "\n" + c + " " + s.toolPrompt + u + s.ts.endToken + "\n"
             + s.ts.assistantToken + "\n")
  {
    TwoSteps(s, c, u);
    var m0, m1 := PlainMessage(System, Some(c)), PlainMessage(User, Some(u));
    var st1 := StepSystem(s, Init([]), m0);
    assert st1.out == "" && st1.systemMessage == c + " " + s.toolPrompt && !st1.toolWait;
    var st2 := StepUser(s, st1, m1);
    assert st2.out == "" + s.ts.userToken + "\n" + (c + " " + s.toolPrompt) + u + s.ts.endToken + "\n";
    assert st2.out == s.ts.userToken + "\n" + c + " " + s.toolPrompt + u + s.ts.endToken + "\n";
    assert Finish(s, st2, SystemUser(c, u)) == Ok(st2.(out := st2.out + s.ts.assistantToken + "\n"));
  }

  /** ChatML: `<|im_start|>` turns closed by `<|im_end|>`. */
  lemma ChatMLPrompt(gen: ToolPromptGenerator, tpl: int, toolPrompt: string, c: string, u: string)
    ensures CompiledText(Setting(ChatML, gen, tpl, toolPrompt), [], SystemUser(c, u))
         == Ok("<|im_start|>system" + "\n" + c + toolPrompt + "<|im_end|>" + "\n"
             + "<|im_start|>user" + "\n" + u + "<|im_end|>" + "\n"
             + "<|im_start|>assistant" + "\n")
  {
    assert !IsWhiteSpace(ChatML.systemToken[0]);
    SystemThenUser(Setting(ChatML, gen, tpl, toolPrompt), c, u);
  }

  /**
   * Gemma has no system token: the system text and tool prompt go into the first user turn,
   * and the prompt ends by opening the `model` turn.
   */
  lemma GemmaPrompt(gen: ToolPromptGenerator, tpl: int, toolPrompt: string, c: string, u: string)
    ensures CompiledText(Setting(Gemma, gen, tpl, toolPrompt), [], SystemUser(c, u))
         == Ok("<start_of_turn>user" + "\n" + c + " " + toolPrompt + u + "<end_of_turn>" + "\n"
             + "<start_of_turn>model" + "\n")
  {
    SystemMergedIntoUser(Setting(Gemma, gen, tpl, toolPrompt), c, u);
  }

  /**
   * LLama 3: every header token ends in a line break, so with the line break after it each
   * turn's text follows a blank line; turns are closed by `<|eot_id|>`. Both servers use the
   * same tokens.
   */
  lemma LLamaPrompt(gen: ToolPromptGenerator, tpl: int, toolPrompt: string, c: string, u: string)
    ensures CompiledText(Setting(LLamaCpu, gen, tpl, toolPrompt), [], SystemUser(c, u))
         == Ok("<|start_header_id|>system<|end_header_id|>\n" + "\n" + c + toolPrompt + "<|eot_id|>" + "\n"
             + "<|start_header_id|>user<|end_header_id|>\n" + "\n" + u + "<|eot_id|>" + "\n"
             + "<|start_header_id|>assistant<|end_header_id|>\n" + "\n")
    ensures LLamaAI == LLamaCpu
  {
    assert !IsWhiteSpace(LLamaCpu.systemToken[0]);
    SystemThenUser(Setting(LLamaCpu, gen, tpl, toolPrompt), c, u);
  }

  /** Zephyr: `<|system|>`, `<|user|>` and `<|assistant|>` turns closed by `<|end|>`. */
  lemma ZephyrPrompt(gen: ToolPromptGenerator, tpl: int, toolPrompt: string, c: string, u: string)
    ensures CompiledText(Setting(Zephyr, gen, tpl, toolPrompt), [], SystemUser(c, u))
         == Ok("<|system|>" + "\n" + c + toolPrompt + "<|end|>" + "\n"
             + "<|user|>" + "\n" + u + "<|end|>" + "\n"
             + "<|assistant|>" + "\n")
  {
    assert !IsWhiteSpace(Zephyr.systemToken[0]);
    SystemThenUser(Setting(Zephyr, gen, tpl, toolPrompt), c, u);
  }

  /**
   * Outside a tool window, an assistant message without calls is written as its own turn:
   * the assistant token, a line break, the content and the end token.
   */
  lemma PlainAssistantTurn(s: Setting, st: CState, content: Option<string>)
    requires !st.toolWait
    ensures Step(s, st, PlainMessage(Assistant, content))
         == Ok(st.(out := st.out + s.ts.assistantToken + "\n" + Render(content) + s.ts.endToken + "\n"))
  {
  }

  /** Gemma writes an assistant turn as a `model` turn closed by `<end_of_turn>`. */
  lemma GemmaAssistantTurn(gen: ToolPromptGenerator, tpl: int, toolPrompt: string, st: CState, content: Option<string>)
    requires !st.toolWait
    ensures Step(Setting(Gemma, gen, tpl, toolPrompt), st, PlainMessage(Assistant, content))
         == Ok(st.(out := st.out + "<start_of_turn>model" + "\n" + Render(content) + "<end_of_turn>" + "\n"))
  {
    PlainAssistantTurn(Setting(Gemma, gen, tpl, toolPrompt), st, content);
  }

  /** Zephyr writes an assistant turn as an `<|assistant|>` turn closed by `<|end|>`. */
  lemma ZephyrAssistantTurn(gen: ToolPromptGenerator, tpl: int, toolPrompt: string, st: CState, content: Option<string>)
    requires !st.toolWait
    ensures Step(Setting(Zephyr, gen, tpl, toolPrompt), st, PlainMessage(Assistant, content))
         == Ok(st.(out := st.out + "<|assistant|>" + "\n" + Render(content) + "<|end|>" + "\n"))
  {
    PlainAssistantTurn(Setting(Zephyr, gen, tpl, toolPrompt), st, content);
  }

  /**
   * Without a system token, a system message never writes text: it leaves the prompt, the
   * pending calls and the tool window as they are, and at most carries its text and the tool
   * prompt into the next user turn.
   */
  lemma SystemStepSilent(s: Setting, st: CState, m: Message)
    requires IsBlank(s.ts.systemToken) && m.role == System
    ensures Step(s, st, m).Ok?
    ensures var st' := Step(s, st, m).value;
      && st'.out == st.out && st'.pending == st.pending && st'.toolWait == st.toolWait
      && (st'.systemMessage == st.systemMessage || st'.systemMessage == Render(m.content) + " " + s.toolPrompt)
  {
  }

  /** Without a system token, any number of system messages together write no text. */
  lemma {:induction false} SystemStepsSilent(s: Setting, st: CState, ms: seq<Message>)
    requires IsBlank(s.ts.systemToken)
    requires forall i | 0 <= i < |ms| :: ms[i].role == System
    ensures Steps(s, st, ms).Ok? && Steps(s, st, ms).value.out == st.out
    decreases |ms|
  {
    if ms != [] {
      var init := ms[..|ms| - 1];
      assert forall i | 0 <= i < |init| :: init[i].role == System by {
        forall i | 0 <= i < |init| ensures init[i].role == System { assert init[i] == ms[i]; }
      }
      SystemStepsSilent(s, st, init);
      SystemStepSilent(s, Steps(s, st, init).value, ms[|ms| - 1]);
    }
  }

  /** Gemma has no system token, so no Gemma prompt has a system turn of its own. */
  lemma GemmaSystemSilent(gen: ToolPromptGenerator, tpl: int, toolPrompt: string, st: CState, m: Message)
    requires m.role == System
    ensures Step(Setting(Gemma, gen, tpl, toolPrompt), st, m).Ok?
    ensures Step(Setting(Gemma, gen, tpl, toolPrompt), st, m).value.out == st.out
  {
    SystemStepSilent(Setting(Gemma, gen, tpl, toolPrompt), st, m);
  }

  /**
   * LLama 3: a prompt whose tool window is still open at the end (no tool message last)
   * closes with `<|eot_id|>` and then opens the assistant header, followed by a blank line.
   */
  lemma LLamaOpenWindowEnding(gen: ToolPromptGenerator, tpl: int, toolPrompt: string, st: CState, history: seq<Message>)
    requires st.toolWait && !ToolEnding(st, history)
    ensures Finish(Setting(LLamaCpu, gen, tpl, toolPrompt), st, history).Ok?
    ensures Finish(Setting(LLamaCpu, gen, tpl, toolPrompt), st, history).value.out
         == st.out + "<|eot_id|>" + "<|start_header_id|>assistant<|end_header_id|>\n" + "\n"
  {
    FinishEnding(Setting(LLamaCpu, gen, tpl, toolPrompt), st, history);
    assert LLamaCpu.endToken == "<|eot_id|>" && LLamaCpu.assistantToken == "<|start_header_id|>assistant<|end_header_id|>\n";
  }
}
