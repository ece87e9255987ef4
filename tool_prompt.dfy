/**
 * The tool protocol: a configuration per protocol index, the prefix classifier, the call/result
 * formatters and the extraction of invocations from generated text.
 */
module ToolPrompt {
  import opened Wrappers
  import opened Text
  import opened Models

  /** One tool protocol: placeholders, templates, stop words and per-language texts. */
  datatype ToolPromptConfig = ToolPromptConfig(
    promptConfigDesc: string,
    fnName: string,
    fnArgs: string,
    fnResult: string,
    fnCallTemplate: string,
    fnResultSplit: string,
    fnResultTemplate: string,
    fnTest: string,
    fnExit: string,
    fnStopWords: seq<string>,
    fnCallTemplateInfo: map<string, string>,
    fnCallTemplateFmt: map<string, string>,
    fnCallTemplateFmtPara: map<string, string>,
    toolDescTemplate: map<string, string>)

  /** One match of the extraction pattern: capture group 1, and group 2 when it took part. */
  datatype RegexMatch = RegexMatch(group1: string, group2: Option<string>)

  /** The regular-expression engine: the matches of a pattern over a text, in text order. */
  datatype RegexEngine = RegexEngine(matches: (string, string) -> seq<RegexMatch>)

  /** Argument texts that mean "no arguments". */
  const NullWords: set<string> := {"null", "{}", "[]"}

  /** The argument text of one match after normalisation of the null-like spellings. */
  function NormalizeArguments(group2: Option<string>): (a: Option<string>)
    ensures a.None? <==> group2.None? || IsBlank(group2.value) || group2.value in NullWords
    ensures a.Some? ==> a == group2
  {
    var arguments := if group2.Some? then group2.value else "";
    if IsBlank(arguments) || arguments in NullWords || arguments == "{}" then None else Some(arguments)
  }

  /** The invocations extracted from a list of matches: one per match, in match order. */
  function ExtractCalls(ms: seq<RegexMatch>): seq<ToolMessageFunction> {
    if ms == [] then []
    else ExtractCalls(ms[..|ms| - 1]) + [ToolMessageFunction(ms[|ms| - 1].group1, NormalizeArguments(ms[|ms| - 1].group2))]
  }

  lemma {:induction false} ExtractCallsPerMatch(ms: seq<RegexMatch>)
    ensures |ExtractCalls(ms)| == |ms|
    ensures forall i | 0 <= i < |ms| ::
      ExtractCalls(ms)[i].name == ms[i].group1 && ExtractCalls(ms)[i].arguments == NormalizeArguments(ms[i].group2)
  {
    if ms != [] {
      ExtractCallsPerMatch(ms[..|ms| - 1]);
    }
  }

  /** The generator over its list of protocol configurations, addressed by index. */
  datatype ToolPromptGenerator = ToolPromptGenerator(configs: seq<ToolPromptConfig>) {

    predicate ValidIndex(tpl: int) {
      0 <= tpl < |configs|
    }

    /** `GetToolPromptConfig`: the configuration at `tpl`; an index out of range throws. */
    function GetToolPromptConfig(tpl: int): (r: Result<ToolPromptConfig>)
      ensures r.Ok? <==> ValidIndex(tpl)
      ensures r.Ok? ==> r.value == configs[tpl]
    {
      if ValidIndex(tpl) then Ok(configs[tpl]) else Err(ArgumentOutOfRange)
    }

    /** `GetToolStopWords`. */
    function GetToolStopWords(tpl: int): (r: Result<seq<string>>)
      ensures r.Ok? <==> ValidIndex(tpl)
      ensures r.Ok? ==> r.value == configs[tpl].fnStopWords
    {
      if ValidIndex(tpl) then Ok(configs[tpl].fnStopWords) else Err(ArgumentOutOfRange)
    }

    /** `GetToolResultSplit`. */
    function GetToolResultSplit(tpl: int): (r: Result<string>)
      ensures r.Ok? <==> ValidIndex(tpl)
      ensures r.Ok? ==> r.value == configs[tpl].fnResultSplit
    {
      if ValidIndex(tpl) then Ok(configs[tpl].fnResultSplit) else Err(ArgumentOutOfRange)
    }

    /**
     * `IsToolActive`: the trimmed concatenation of the fragments starts with the protocol's
     * name placeholder.
     */
    predicate IsToolActive(tokens: seq<string>, tpl: int)
      requires ValidIndex(tpl)
    {
      StartsWith(Trim(Concat(tokens)), configs[tpl].fnName)
    }

    /** `GenerateToolCall(ToolMessage)`: the call template filled with name and arguments. */
    function GenerateToolCall(tool: ToolMessage, tpl: int): Result<string> {
      if !ValidIndex(tpl) then Err(ArgumentOutOfRange)
      else Format(configs[tpl].fnCallTemplate, [tool.fn.name, Render(tool.fn.arguments)])
    }

    /** `GenerateToolCallResult`: the result template filled with the result text. */
    function GenerateToolCallResult(res: Option<string>, tpl: int): Result<string> {
      if !ValidIndex(tpl) then Err(ArgumentOutOfRange)
      else Format(configs[tpl].fnResultTemplate, [Render(res)])
    }

    /** `GenerateToolCallReturn`: the exit marker, a colon and a space, then the text. */
    function GenerateToolCallReturn(res: Option<string>, tpl: int): (r: Result<string>)
      ensures r.Ok? <==> ValidIndex(tpl)
      ensures r.Ok? ==> StartsWith(r.value, configs[tpl].fnExit + ": ")
      ensures r.Ok? ==> r.value[|configs[tpl].fnExit| + 2..] == Render(res)
    {
      if ValidIndex(tpl) then Ok(configs[tpl].fnExit + ": " + Render(res)) else Err(ArgumentOutOfRange)
    }
  }

  /**
   * `GenerateToolCall(string)`: runs the protocol's extraction pattern over the text and turns
   * each match into an invocation, normalising null-like arguments.
   */
  method GenerateToolCalls(gen: ToolPromptGenerator, regex: RegexEngine, input: string, tpl: int)
    returns (r: Result<seq<ToolMessageFunction>>)
    ensures r.Ok? <==> gen.ValidIndex(tpl)
    ensures r.Ok? ==> r.value == ExtractCalls(regex.matches(gen.configs[tpl].fnTest, input))
  {
    if !gen.ValidIndex(tpl) {
      return Err(ArgumentOutOfRange);
    }
    var matches := regex.matches(gen.configs[tpl].fnTest, input);
    var results: seq<ToolMessageFunction> := [];
    var i := 0;
    while i < |matches|
      invariant 0 <= i <= |matches|
      invariant results == ExtractCalls(matches[..i])
    {
      var m := matches[i];
      var functionName := m.group1;
      var arguments: Option<string> := if m.group2.Some? then m.group2 else Some("");
      if IsBlank(arguments.value) || arguments.value in NullWords || arguments.value == "{}" {
        arguments := None;
      }
      assert matches[..i + 1][..i] == matches[..i];
      results := results + [ToolMessageFunction(functionName, arguments)];
      i := i + 1;
    }
    assert matches[..i] == matches;
    return Ok(results);
  }

  /** The classifier's answer, once true, stays true as more fragments arrive. */
  lemma IsToolActiveStable(gen: ToolPromptGenerator, tokens: seq<string>, more: seq<string>, tpl: int)
    requires gen.ValidIndex(tpl)
    requires gen.IsToolActive(tokens, tpl)
    ensures gen.IsToolActive(tokens + more, tpl)
  {
    ConcatAppend(tokens, more);
    TrimmedPrefixStable(Concat(tokens), Concat(more), gen.configs[tpl].fnName);
  }

  /**
   * With a call template of the shape `pre{0}mid{1}post` (literals without braces), a call
   * renders as its name and argument text in those two slots.
   */
  lemma CallTemplateSlots(gen: ToolPromptGenerator, tool: ToolMessage, tpl: int, pre: string, mid: string, post: string)
    requires gen.ValidIndex(tpl)
    requires gen.configs[tpl].fnCallTemplate == pre + "{0}" + mid + "{1}" + post
    requires BraceFree(pre) && BraceFree(mid) && BraceFree(post)
    ensures gen.GenerateToolCall(tool, tpl)
         == Ok(pre + tool.fn.name + mid + Render(tool.fn.arguments) + post)
  {
    var a0, a1 := tool.fn.name, Render(tool.fn.arguments);
    var args := [a0, a1];
    var t1 := mid + ("{" + NatToString(1) + "}" + post);
    TwoSlotShape(pre, mid, post);
    FormatBraceFree(post, args);
    FormatSlotThen(mid, 1, post, args);
    FormatSlotThen(pre, 0, t1, args);
    assert pre + (a0 + (mid + (a1 + post))) == pre + a0 + mid + a1 + post;
  }

  lemma TwoSlotShape(pre: string, mid: string, post: string)
    ensures pre + "{0}" + mid + "{1}" + post == pre + ("{" + NatToString(0) + "}" + (mid + ("{" + NatToString(1) + "}" + post)))
  {
    assert NatToString(0) == "0" && NatToString(1) == "1";
  }

  /** With a result template `pre{0}post`, a result renders in that slot. */
  lemma ResultTemplateSlot(gen: ToolPromptGenerator, res: Option<string>, tpl: int, pre: string, post: string)
    requires gen.ValidIndex(tpl)
    requires gen.configs[tpl].fnResultTemplate == pre + "{0}" + post
    requires BraceFree(pre) && BraceFree(post)
    ensures gen.GenerateToolCallResult(res, tpl) == Ok(pre + Render(res) + post)
  {
    var a0 := Render(res);
    var args := [a0];
    assert NatToString(0) == "0";
    var t1 := "{" + NatToString(0) + "}" + post;
    assert pre + "{0}" + post == pre + t1;
    FormatBraceFree(post, args);
    FormatItemThen(0, post, args);
    assert Format(t1, args) == Ok(a0 + post);
    FormatLiteralThen(pre, t1, args);
    assert pre + (a0 + post) == pre + a0 + post;
  }
}
