/** What the history compiler guarantees about the prompt text and its tool windows. */
module CompilerFacts {
  import opened Wrappers
  import opened Text
  import opened Models
  import opened ToolPrompt
  import opened Templates
  import opened Compiler

  /** Ordinal `string.EndsWith`. */
  predicate EndsWith(s: string, suffix: string) {
    |suffix| <= |s| && s[|s| - |suffix|..] == suffix
  }

  /** The pending entries a list of calls adds: each call id with an empty result. */
  function CallEntries(calls: seq<ToolMessage>): Pending {
    seq(|calls|, i requires 0 <= i < |calls| => (calls[i].id, ""))
  }

  /**
   * A coherent compiler state: a tool window is open exactly when calls are pending, and no
   * call id is pending twice.
   */
  predicate Coherent(st: CState) {
    (st.toolWait <==> st.pending != []) && DistinctIds(st.pending)
  }

  lemma NotInIds(p: Pending, id: string)
    requires id !in Ids(p)
    ensures forall i | 0 <= i < |p| :: p[i].0 != id
  {
    forall i | 0 <= i < |p| ensures p[i].0 != id {
      assert Ids(p)[i] == p[i].0;
    }
  }

  /**
   * Opening a window appends one entry per call after the pending ones, keeps the text written
   * so far, and keeps the ids distinct.
   */
  lemma {:induction false} OpenCallsShape(gen: ToolPromptGenerator, tpl: int, out: string, pending: Pending, calls: seq<ToolMessage>)
    requires OpenCalls(gen, tpl, out, pending, calls).Ok?
    ensures OpenCalls(gen, tpl, out, pending, calls).value.1 == pending + CallEntries(calls)
    ensures StartsWith(OpenCalls(gen, tpl, out, pending, calls).value.0, out)
    ensures DistinctIds(pending) ==> DistinctIds(OpenCalls(gen, tpl, out, pending, calls).value.1)
    decreases |calls|
  {
    if calls == [] {
      assert pending + CallEntries(calls) == pending;
    } else {
      var init := calls[..|calls| - 1];
      var c := calls[|calls| - 1];
      var prev := OpenCalls(gen, tpl, out, pending, init);
      OpenCallsShape(gen, tpl, out, pending, init);
      var r := OpenCalls(gen, tpl, out, pending, calls).value;
      assert CallEntries(calls) == CallEntries(init) + [(c.id, "")];
      assert r.1 == prev.value.1 + [(c.id, "")];
      assert r.0 == prev.value.0 + gen.GenerateToolCall(c, tpl).value + "\n";
      assert r.0[..|prev.value.0|] == prev.value.0;
      StartsWithTrans(r.0, prev.value.0, out);
      NotInIds(prev.value.1, c.id);
    }
  }

  /** A call whose id is pending once the calls before it are opened makes the compilation throw. */
  lemma OpenCallsRejectsAt(gen: ToolPromptGenerator, tpl: int, out: string, pending: Pending, calls: seq<ToolMessage>, j: nat)
    requires j < |calls|
    requires OpenCalls(gen, tpl, out, pending, calls[..j]).Ok? ==>
             calls[j].id in Ids(OpenCalls(gen, tpl, out, pending, calls[..j]).value.1)
    ensures OpenCalls(gen, tpl, out, pending, calls).Err?
  {
    var pre := calls[..j + 1];
    assert pre[..|pre| - 1] == calls[..j];
    OpenCallsErrPropagates(gen, tpl, out, pending, calls, j + 1);
  }

  /** Two calls with the same id in one assistant message make the compilation throw. */
  lemma OpenCallsRejectsRepeatedId(gen: ToolPromptGenerator, tpl: int, out: string, pending: Pending, calls: seq<ToolMessage>, i: nat, j: nat)
    requires i < j < |calls| && calls[i].id == calls[j].id
    ensures OpenCalls(gen, tpl, out, pending, calls).Err?
  {
    var prev := OpenCalls(gen, tpl, out, pending, calls[..j]);
    if prev.Ok? {
      OpenCallsShape(gen, tpl, out, pending, calls[..j]);
      var entries := pending + CallEntries(calls[..j]);
      assert entries[|pending| + i] == (calls[i].id, "");
      assert Ids(entries)[|pending| + i] == calls[j].id;
    }
    OpenCallsRejectsAt(gen, tpl, out, pending, calls, j);
  }

  /** A call whose id is already pending makes the compilation throw. */
  lemma OpenCallsRejectsPendingId(gen: ToolPromptGenerator, tpl: int, out: string, pending: Pending, calls: seq<ToolMessage>, j: nat)
    requires j < |calls| && calls[j].id in Ids(pending)
    ensures OpenCalls(gen, tpl, out, pending, calls).Err?
  {
    var prev := OpenCalls(gen, tpl, out, pending, calls[..j]);
    if prev.Ok? {
      OpenCallsShape(gen, tpl, out, pending, calls[..j]);
      var k :| 0 <= k < |pending| && Ids(pending)[k] == calls[j].id;
      assert Ids(prev.value.1)[k] == calls[j].id;
    }
    OpenCallsRejectsAt(gen, tpl, out, pending, calls, j);
  }

  /** An assistant message that repeats a call id throws (`Dictionary.Add` on a present key). */
  lemma RepeatedCallIdThrows(s: Setting, st: CState, m: Message, i: nat, j: nat)
    requires m.role == Assistant && !st.toolWait
    requires i < j < |m.toolCalls| && m.toolCalls[i].id == m.toolCalls[j].id
    ensures Step(s, st, m).Err?
  {
    OpenCallsRejectsRepeatedId(s.gen, s.tpl, st.out + s.ts.assistantToken + "\n", st.pending, m.toolCalls, i, j);
  }

  /** One message keeps the state coherent. */
  lemma StepKeepsCoherent(s: Setting, st: CState, m: Message)
    requires Coherent(st) && Step(s, st, m).Ok?
    ensures Coherent(Step(s, st, m).value)
  {
    match m.role
    case Assistant =>
      if !st.toolWait && |m.toolCalls| > 0 {
        OpenCallsShape(s.gen, s.tpl, st.out + s.ts.assistantToken + "\n", st.pending, m.toolCalls);
      }
    case Tool =>
      var r := Step(s, st, m).value;
      assert |Ids(r.pending)| == |Ids(st.pending)|;
      forall i, j | 0 <= i < j < |r.pending| ensures r.pending[i].0 != r.pending[j].0 {
        assert Ids(r.pending)[i] == Ids(st.pending)[i] && Ids(r.pending)[j] == Ids(st.pending)[j];
      }
    case _ =>
  }

  /** Every prefix of a compilation that starts coherent stays coherent. */
  lemma {:induction false} StepsKeepCoherent(s: Setting, st: CState, ms: seq<Message>)
    requires Coherent(st) && Steps(s, st, ms).Ok?
    ensures Coherent(Steps(s, st, ms).value)
    decreases |ms|
  {
    if ms != [] {
      StepsKeepCoherent(s, st, ms[..|ms| - 1]);
      StepKeepsCoherent(s, Steps(s, st, ms[..|ms| - 1]).value, ms[|ms| - 1]);
    }
  }

  /** From a fresh transform, a tool window is open exactly when calls are pending. */
  lemma FreshCompilationCoherent(s: Setting, ms: seq<Message>)
    requires Steps(s, Init([]), ms).Ok?
    ensures Steps(s, Init([]), ms).value.toolWait <==> Steps(s, Init([]), ms).value.pending != []
    ensures DistinctIds(Steps(s, Init([]), ms).value.pending)
  {
    StepsKeepCoherent(s, Init([]), ms);
  }

  lemma AppendExtends(a: string, b: string)
    ensures StartsWith(a + b, a)
  {
    assert (a + b)[..|a|] == a;
  }

  lemma StepUserExtends(s: Setting, st: CState, m: Message)
    ensures StartsWith(StepUser(s, st, m).out, st.out)
  {
    var st1 := if st.toolWait then st.(out := st.out + s.ts.endToken + "\n", pending := [], toolWait := false) else st;
    AppendExtends(st.out, s.ts.endToken + "\n");
    assert StartsWith(st1.out, st.out);
    var line := s.ts.userToken + "\n" + st1.systemMessage + Render(m.content) + s.ts.endToken + "\n";
    assert StepUser(s, st, m).out == st1.out + line;
    AppendExtends(st1.out, line);
    StartsWithTrans(StepUser(s, st, m).out, st1.out, st.out);
  }

  lemma StepAssistantExtends(s: Setting, st: CState, m: Message)
    requires StepAssistant(s, st, m).Ok?
    ensures StartsWith(StepAssistant(s, st, m).value.out, st.out)
  {
    var r := StepAssistant(s, st, m).value;
    if st.toolWait {
      var ret := s.gen.GenerateToolCallReturn(m.content, s.tpl).value;
      assert r.out == st.out + (ValueLines(st.pending) + ret + s.ts.endToken + "\n");
      AppendExtends(st.out, ValueLines(st.pending) + ret + s.ts.endToken + "\n");
    } else if |m.toolCalls| > 0 {
      var o := st.out + s.ts.assistantToken + "\n";
      OpenCallsShape(s.gen, s.tpl, o, st.pending, m.toolCalls);
      var w := OpenCalls(s.gen, s.tpl, o, st.pending, m.toolCalls).value.0;
      AppendExtends(w, s.gen.GetToolResultSplit(s.tpl).value);
      AppendExtends(st.out, s.ts.assistantToken + "\n");
      StartsWithTrans(w, o, st.out);
      StartsWithTrans(r.out, w, st.out);
    } else {
      assert r.out == st.out + (s.ts.assistantToken + "\n" + Render(m.content) + s.ts.endToken + "\n");
      AppendExtends(st.out, s.ts.assistantToken + "\n" + Render(m.content) + s.ts.endToken + "\n");
    }
  }

  /** A message only appends to the prompt text. */
  lemma StepExtends(s: Setting, st: CState, m: Message)
    requires Step(s, st, m).Ok?
    ensures StartsWith(Step(s, st, m).value.out, st.out)
  {
    match m.role
    case User => StepUserExtends(s, st, m);
    case System =>
      if !(st.systemAdded || st.toolWait) && !IsBlank(s.ts.systemToken) {
        AppendExtends(st.out, s.ts.systemToken + "\n" + Render(m.content) + s.toolPrompt + s.ts.endToken + "\n");
        assert StepSystem(s, st, m).out == st.out + (s.ts.systemToken + "\n" + Render(m.content) + s.toolPrompt + s.ts.endToken + "\n");
      } else {
        AppendExtends(st.out, []);
        assert st.out + [] == st.out;
      }
    case Assistant => StepAssistantExtends(s, st, m);
    case Tool =>
      AppendExtends(st.out, []);
      assert st.out + [] == st.out;
    case Other(_) =>
      AppendExtends(st.out, []);
      assert st.out + [] == st.out;
  }

  /** The prompt text is append-only: what a prefix of the history wrote stays in place. */
  lemma {:induction false} StepsExtend(s: Setting, st: CState, ms: seq<Message>)
    requires Steps(s, st, ms).Ok?
    ensures StartsWith(Steps(s, st, ms).value.out, st.out)
    decreases |ms|
  {
    if ms != [] {
      var mid := Steps(s, st, ms[..|ms| - 1]).value;
      StepsExtend(s, st, ms[..|ms| - 1]);
      StepExtends(s, mid, ms[|ms| - 1]);
      StartsWithTrans(Steps(s, st, ms).value.out, mid.out, st.out);
    }
  }

  /** Once a system turn is taken, later system messages change nothing. */
  lemma {:induction false} SystemTakenPersists(s: Setting, st: CState, ms: seq<Message>)
    requires st.systemAdded && Steps(s, st, ms).Ok?
    ensures Steps(s, st, ms).value.systemAdded
    decreases |ms|
  {
    if ms != [] {
      SystemTakenPersists(s, st, ms[..|ms| - 1]);
    }
  }

  /**
   * At most one system turn: after a system message has been taken at position i, a system
   * message at any later position j leaves the state as it was.
   */
  lemma LaterSystemIgnored(s: Setting, st: CState, ms: seq<Message>, i: nat, j: nat)
    requires i < j < |ms| && ms[i].role == System && ms[j].role == System
    requires Steps(s, st, ms[..j + 1]).Ok?
    requires Steps(s, st, ms[..i]).Ok? && !Steps(s, st, ms[..i]).value.toolWait
    ensures Steps(s, st, ms[..j + 1]) == Steps(s, st, ms[..j])
  {
    var taken := Steps(s, st, ms[..i + 1]);
    assert ms[..i + 1][..i] == ms[..i];
    assert Steps(s, st, ms[..j + 1]) == Step(s, Steps(s, st, ms[..j]).value, ms[j]) by {
      assert ms[..j + 1][..j] == ms[..j];
    }
    StepsPrefixOk(s, st, ms[..j + 1], i + 1);
    assert ms[..j + 1][..i + 1] == ms[..i + 1];
    assert taken.Ok? && taken.value.systemAdded;
    assert ms[..j][..i + 1] == ms[..i + 1];
    StepsSplit(s, st, ms[..j], i + 1);
    SystemTakenPersists(s, taken.value, ms[..j][i + 1..]);
  }

  /** A successful compilation succeeds on every prefix. */
  lemma {:induction false} StepsPrefixOk(s: Setting, st: CState, ms: seq<Message>, k: nat)
    requires k <= |ms| && Steps(s, st, ms).Ok?
    ensures Steps(s, st, ms[..k]).Ok?
    decreases |ms| - k
  {
    if k < |ms| {
      StepsPrefixOk(s, st, ms, k + 1);
      assert ms[..k + 1][..k] == ms[..k];
    } else {
      assert ms[..k] == ms;
    }
  }

  /** Compiling a list is compiling a prefix, then the rest from the state it reached. */
  lemma {:induction false} StepsSplit(s: Setting, st: CState, ms: seq<Message>, k: nat)
    requires k <= |ms| && Steps(s, st, ms[..k]).Ok?
    ensures Steps(s, st, ms) == Steps(s, Steps(s, st, ms[..k]).value, ms[k..])
    decreases |ms|
  {
    if |ms| == k {
      assert ms[..k] == ms;
      assert ms[k..] == [];
    } else {
      var init := ms[..|ms| - 1];
      assert init[..k] == ms[..k];
      StepsSplit(s, st, init, k);
      assert ms[k..][..|ms[k..]| - 1] == init[k..];
      assert ms[k..][|ms[k..]| - 1] == ms[|ms| - 1];
    }
  }

  /** The closing case that flushes results: the last message is a tool message and calls are pending. */
  predicate ToolEnding(st: CState, history: seq<Message>) {
    |history| > 0 && history[|history| - 1].role == Tool && st.pending != []
  }

  /**
   * The prompt always ends by opening the model's turn. After a trailing tool message with
   * results pending, the results in insertion order and the protocol's exit marker, with the
   * pending calls cleared; inside a tool window left open, the end token and the assistant
   * token; otherwise the assistant token alone.
   */
  lemma CompileEnding(s: Setting, carried: Pending, history: seq<Message>)
    requires Compile(s, carried, history).Ok?
    ensures var st := Steps(s, Init(carried), history).value;
      var c := Compile(s, carried, history).value;
      && StartsWith(c.out, st.out) && EndsWith(c.out, "\n")
      && (ToolEnding(st, history) ==>
            && s.gen.ValidIndex(s.tpl)
            && c.out == st.out + ValueLines(st.pending) + s.gen.configs[s.tpl].fnExit + "\n"
            && c.pending == [])
      && (!ToolEnding(st, history) && st.toolWait ==>
            c.out == st.out + s.ts.endToken + s.ts.assistantToken + "\n" && c.pending == st.pending)
      && (!ToolEnding(st, history) && !st.toolWait ==>
            c.out == st.out + s.ts.assistantToken + "\n" && c.pending == st.pending)
  {
    FinishEnding(s, Steps(s, Init(carried), history).value, history);
  }

  /** The closing step keeps the text so far and ends it in one of the three ways `CompileEnding` states. */
  lemma FinishEnding(s: Setting, st: CState, history: seq<Message>)
    requires Finish(s, st, history).Ok?
    ensures var f := Finish(s, st, history).value;
      && StartsWith(f.out, st.out) && EndsWith(f.out, "\n")
      && (ToolEnding(st, history) ==>
            && s.gen.ValidIndex(s.tpl)
            && f.out == st.out + ValueLines(st.pending) + s.gen.configs[s.tpl].fnExit + "\n"
            && f.pending == [])
      && (!ToolEnding(st, history) && st.toolWait ==>
            f.out == st.out + s.ts.endToken + s.ts.assistantToken + "\n" && f.pending == st.pending)
      && (!ToolEnding(st, history) && !st.toolWait ==>
            f.out == st.out + s.ts.assistantToken + "\n" && f.pending == st.pending)
  {
    var out := Finish(s, st, history).value.out;
    if ToolEnding(st, history) {
      var tail := s.gen.configs[s.tpl].fnExit + "\n";
      assert out == (st.out + ValueLines(st.pending)) + tail;
      assert out[..|st.out|] == st.out;
    } else if st.toolWait {
      assert out == st.out + s.ts.endToken + (s.ts.assistantToken + "\n");
      assert out[..|st.out|] == st.out;
    } else {
      assert out[..|st.out|] == st.out;
    }
  }

  /**
   * A full tool exchange: an assistant message with one call, the tool's answer, then the
   * assistant's reply renders as the assistant token, the call line, the result split, the
   * formatted result, and the exit marker followed by the reply.
   */
  lemma ToolRoundTrip(s: Setting, st: CState, call: ToolMessage, result: Option<string>, answer: Option<string>)
    requires s.gen.ValidIndex(s.tpl) && !st.toolWait && st.pending == []
    requires s.gen.GenerateToolCall(call, s.tpl).Ok? && s.gen.GenerateToolCallResult(result, s.tpl).Ok?
    ensures var c := s.gen.configs[s.tpl];
      var ms := [Message(Assistant, None, [call], None), Message(Tool, result, [], Some(call.id)), Message(Assistant, answer, [], None)];
      Steps(s, st, ms) == Ok(st.(out := st.out + s.ts.assistantToken + "\n"
        + s.gen.GenerateToolCall(call, s.tpl).value + "\n" + c.fnResultSplit
        + s.gen.GenerateToolCallResult(result, s.tpl).value + "\n"
        + c.fnExit + ": " + Render(answer) + s.ts.endToken + "\n"))
  {
    var c := s.gen.configs[s.tpl];
    var m1, m2, m3 := Message(Assistant, None, [call], None), Message(Tool, result, [], Some(call.id)), Message(Assistant, answer, [], None);
    var ms := [m1, m2, m3];
    var line := s.gen.GenerateToolCall(call, s.tpl).value;
    var res := s.gen.GenerateToolCallResult(result, s.tpl).value;
    var st1 := st.(out := st.out + s.ts.assistantToken + "\n" + line + "\n" + c.fnResultSplit, pending := [(call.id, "")], toolWait := true);
    OpensCall(s, st, call);
    var st2 := st1.(pending := [(call.id, res)]);
    RecordsResult(s, st1, call.id, result);
    var st3 := st2.(out := st2.out + (res + "\n") + (c.fnExit + ": " + Render(answer)) + s.ts.endToken + "\n", pending := [], toolWait := false);
    ClosesExchange(s, st2, call.id, res, answer);
    StepsThree(s, st, m1, m2, m3, st1, st2, st3);
    RoundTripText(st.out, s.ts.assistantToken, line, c.fnResultSplit, res, c.fnExit, Render(answer), s.ts.endToken);
  }

  lemma RoundTripText(o: string, a: string, line: string, split: string, res: string, exit: string, ans: string, end: string)
    ensures o + a + "\n" + line + "\n" + split + (res + "\n") + (exit + ": " + ans) + end + "\n"
         == o + a + "\n" + line + "\n" + split + res + "\n" + exit + ": " + ans + end + "\n"
  {
  }

  /** Three messages that each step successfully run in sequence. */
  lemma StepsThree(s: Setting, st: CState, m1: Message, m2: Message, m3: Message, st1: CState, st2: CState, st3: CState)
    requires Step(s, st, m1) == Ok(st1) && Step(s, st1, m2) == Ok(st2) && Step(s, st2, m3) == Ok(st3)
    ensures Steps(s, st, [m1, m2, m3]) == Ok(st3)
  {
    assert Steps(s, st, [m1]) == Ok(st1) by { assert [m1][..0] == []; }
    assert Steps(s, st, [m1, m2]) == Ok(st2) by { assert [m1, m2][..1] == [m1]; }
    assert [m1, m2, m3][..2] == [m1, m2];
  }

  /** An assistant message with one call opens the call: the call line, the result split, one pending entry. */
  lemma OpensCall(s: Setting, st: CState, call: ToolMessage)
    requires s.gen.ValidIndex(s.tpl) && !st.toolWait && st.pending == []
    requires s.gen.GenerateToolCall(call, s.tpl).Ok?
    ensures Step(s, st, Message(Assistant, None, [call], None))
         == Ok(st.(out := st.out + s.ts.assistantToken + "\n" + s.gen.GenerateToolCall(call, s.tpl).value + "\n" + s.gen.configs[s.tpl].fnResultSplit,
                   pending := [(call.id, "")], toolWait := true))
  {
    var o := st.out + s.ts.assistantToken + "\n";
    var line := s.gen.GenerateToolCall(call, s.tpl).value;
    assert [call][..0] == [];
    assert Ids([]) == [];
    assert OpenCalls(s.gen, s.tpl, o, [], []) == Ok((o, []));
    assert [] + [(call.id, "")] == [(call.id, "")];
    assert OpenCalls(s.gen, s.tpl, o, [], [call]) == Ok((o + line + "\n", [(call.id, "")]));
  }

  /** The tool's answer to the one pending call records its formatted result. */
  lemma RecordsResult(s: Setting, st1: CState, id: string, result: Option<string>)
    requires s.gen.ValidIndex(s.tpl) && st1.toolWait && st1.pending == [(id, "")]
    requires s.gen.GenerateToolCallResult(result, s.tpl).Ok?
    ensures Step(s, st1, Message(Tool, result, [], Some(id))) == Ok(st1.(pending := [(id, s.gen.GenerateToolCallResult(result, s.tpl).value)]))
  {
    var res := s.gen.GenerateToolCallResult(result, s.tpl).value;
    assert Ids(st1.pending) == [id];
    assert SetResult(st1.pending, id, res) == [(id, res)] by {
      assert SetResult(st1.pending, id, res)[0] == (id, res);
    }
  }

  /** The assistant's reply after the results writes them, the exit marker and the reply, and closes the exchange. */
  lemma ClosesExchange(s: Setting, st2: CState, id: string, res: string, answer: Option<string>)
    requires s.gen.ValidIndex(s.tpl) && st2.toolWait && st2.pending == [(id, res)]
    ensures Step(s, st2, Message(Assistant, answer, [], None))
         == Ok(st2.(out := st2.out + (res + "\n") + (s.gen.configs[s.tpl].fnExit + ": " + Render(answer)) + s.ts.endToken + "\n",
                    pending := [], toolWait := false))
  {
    assert ValueLines([(id, res)]) == res + "\n" by {
      assert [(id, res)][..0] == [];
    }
  }
}
