/**
 * The tool prompt: the text appended to the system turn that lists the request's tools, tells
 * the model when to use them and how to write a call (`GenerateToolPrompt` and its helpers).
 */
module ToolPromptBuilder {
  import opened Wrappers
  import opened Text
  import opened Models
  import opened ToolPrompt

  /**
   * JSON serialisation, which the model leaves abstract: of the object
   * `{"type": "function", "function": f}` and of a property map.
   */
  datatype JsonEncoder = JsonEncoder(
    toolObject: FunctionInfo -> string,
    properties: map<string, ParameterInfo> -> string)

  const DefaultDescription := "No description provided."
  const ToolDescsPlaceholder := "{tool_descs}"
  const ImportantNote :=
    "\n\n**Important**: Only use the tools explicitly provided in this list. Do not suggest or create tools that are not defined here."
  const ChoiceHeading := "\n\nWhen determining which tool to use:"
  const FallbackInstruction :=
    "If the query does not match any available tool, respond as a helpful assistant in a conversational manner without suggesting tools or requiring a tool call."
  const MissingConfigMessage := "Tools call but ToolPromptConfig is not set in appsettings.json"

  /** `GenerateToolsDescription`: the tool's name in bold, "for", then its description. */
  function ToolSummary(f: FunctionInfo): string {
    "**" + f.name + "** for " + f.description.GetOr(DefaultDescription)
  }

  /** The tool names of a request, comma separated. */
  function ToolNames(tools: seq<ToolInfo>): string {
    Join(", ", seq(|tools|, i requires 0 <= i < |tools| => tools[i].fn.name))
  }

  /** The property map with `required` set on each listed name that is a property. */
  function MarkedRequired(props: map<string, ParameterInfo>, required: Option<seq<string>>): map<string, ParameterInfo> {
    map k | k in props :: if required.Some? && k in required.value then props[k].(required := Some(true)) else props[k]
  }

  /**
   * The marking loop of `GetFunctionDescription`: walks the required names and flags each one
   * the property map holds.
   */
  method MarkRequired(props: map<string, ParameterInfo>, required: Option<seq<string>>)
    returns (marked: map<string, ParameterInfo>)
    ensures marked == MarkedRequired(props, required)
  {
    marked := props;
    if required.Some? && |required.value| > 0 {
      var names := required.value;
      var i := 0;
      while i < |names|
        invariant 0 <= i <= |names|
        invariant marked.Keys == props.Keys
        invariant forall k | k in marked ::
          marked[k] == if k in names[..i] then props[k].(required := Some(true)) else props[k]
      {
        var key := names[i];
        if key in marked {
          marked := marked[key := marked[key].(required := Some(true))];
        }
        assert names[..i + 1] == names[..i] + [key];
        i := i + 1;
      }
      assert names[..i] == names;
    }
  }

  /** Marking touches no key set, flags exactly the listed properties, and is idempotent. */
  lemma MarkedRequiredFacts(props: map<string, ParameterInfo>, required: Option<seq<string>>)
    ensures MarkedRequired(props, required).Keys == props.Keys
    ensures forall k | k in props ::
      var p := MarkedRequired(props, required)[k];
      && p.kind == props[k].kind && p.description == props[k].description && p.enumValues == props[k].enumValues
      && (required.Some? && k in required.value ==> p.required == Some(true))
      && (!(required.Some? && k in required.value) ==> p.required == props[k].required)
    ensures MarkedRequired(MarkedRequired(props, required), required) == MarkedRequired(props, required)
  {
    var m := MarkedRequired(props, required);
    var mm := MarkedRequired(m, required);
    assert mm.Keys == m.Keys;
    forall k | k in mm ensures mm[k] == m[k] {
    }
  }

  /**
   * `GetFunctionDescription`: with a blank template, the JSON of the tool object; otherwise the
   * template filled with name, name, description and the JSON of the (marked) properties, or
   * the empty string when there are none, and trimmed.
   */
  function FunctionDescription(f: FunctionInfo, template: string, enc: JsonEncoder): Result<string> {
    if IsBlank(template) then Ok(enc.toolObject(f))
    else
      var desc := f.description.GetOr("");
      var schema :=
        if f.parameters.None? || f.parameters.value.properties.None? || |f.parameters.value.properties.value| == 0 then ""
        else enc.properties(MarkedRequired(f.parameters.value.properties.value, f.parameters.value.required));
      var r := Format(template, [f.name, f.name, desc, schema]);
      if r.Ok? then Ok(Trim(r.value)) else r
  }

  method GetFunctionDescription(f: FunctionInfo, template: string, enc: JsonEncoder) returns (r: Result<string>)
    ensures r == FunctionDescription(f, template, enc)
    ensures r.Ok? && !IsBlank(template) ==> r.value == Trim(r.value)
  {
    if IsBlank(template) {
      return Ok(enc.toolObject(f));
    }
    var desc := f.description.GetOr("");
    if f.parameters.None? || f.parameters.value.properties.None? || |f.parameters.value.properties.value| == 0 {
      var s := Format(template, [f.name, f.name, desc, ""]);
      r := if s.Ok? then Ok(Trim(s.value)) else s;
      TrimIdempotent(if s.Ok? then s.value else "");
      return;
    }
    var props := MarkRequired(f.parameters.value.properties.value, f.parameters.value.required);
    var s := Format(template, [f.name, f.name, desc, enc.properties(props)]);
    r := if s.Ok? then Ok(Trim(s.value)) else s;
    TrimIdempotent(if s.Ok? then s.value else "");
  }

  /** The values of a list of outcomes, or the first failure among them. */
  function Collect<T>(rs: seq<Result<T>>): Result<seq<T>> {
    if rs == [] then Ok([])
    else
      var prev := Collect(rs[..|rs| - 1]);
      if prev.Err? then Err(prev.error)
      else if rs[|rs| - 1].Err? then Err(rs[|rs| - 1].error)
      else Ok(prev.value + [rs[|rs| - 1].value])
  }

  /** Collecting succeeds exactly when every outcome does, and then keeps their values in order. */
  lemma {:induction false} CollectPerItem<T>(rs: seq<Result<T>>)
    ensures Collect(rs).Ok? <==> forall i | 0 <= i < |rs| :: rs[i].Ok?
    ensures Collect(rs).Ok? ==>
      |Collect(rs).value| == |rs| && forall i | 0 <= i < |rs| :: Collect(rs).value[i] == rs[i].value
  {
    if rs != [] {
      var init := rs[..|rs| - 1];
      CollectPerItem(init);
      assert forall i | 0 <= i < |init| :: init[i] == rs[i];
    }
  }

  /** The first failure decides: once a prefix fails, every longer prefix fails the same way. */
  lemma {:induction false} CollectFirstFailure<T>(rs: seq<Result<T>>, n: nat, m: nat)
    requires 0 < n <= m <= |rs|
    requires Collect(rs[..n - 1]).Ok? && rs[n - 1].Err?
    ensures Collect(rs[..m]) == Err(rs[n - 1].error)
    decreases m
  {
    var ts := rs[..m];
    assert ts[..|ts| - 1] == rs[..m - 1];
    if m > n {
      CollectFirstFailure(rs, n, m - 1);
    }
  }

  /** The descriptions of all tools with one template; the first failing tool's error otherwise. */
  function Descriptions(tools: seq<ToolInfo>, template: string, enc: JsonEncoder): Result<seq<string>> {
    Collect(seq(|tools|, i requires 0 <= i < |tools| => FunctionDescription(tools[i].fn, template, enc)))
  }

  /** One line of the usage list: `\n<n>. Use <summary>.` */
  function UseLine(n: nat, summary: string): string {
    "\n" + NatToString(n) + ". Use " + summary + "."
  }

  /** The usage list, one line per summary, numbered from 1. */
  function NumberedUses(summaries: seq<string>): string {
    if summaries == [] then ""
    else NumberedUses(summaries[..|summaries| - 1]) + UseLine(|summaries|, summaries[|summaries| - 1])
  }

  /** The tool description block that replaces `{tool_descs}` in the system template. */
  function ToolDescText(infos: seq<string>, summaries: seq<string>): string {
    Join("\n\n", infos) + ImportantNote + ChoiceHeading + NumberedUses(summaries)
      + "\n" + NatToString(|summaries| + 1) + ". " + FallbackInstruction
  }

  /** No tool prompt is produced: no tools, or the tool choice "none". */
  predicate NoToolPrompt(req: ChatRequest) {
    req.tools.None? || |req.tools.value| == 0 || req.toolChoice == Some("none")
  }

  /** Whether the request asks for parallel calls. */
  predicate Parallel(req: ChatRequest) {
    req.toolChoice == Some("parallel")
  }

  /** The whole tool prompt, or the exception the generator throws, in the order it throws them. */
  function ToolPromptText(gen: ToolPromptGenerator, req: ChatRequest, tpl: int, lang: string, enc: JsonEncoder): Result<string> {
    if NoToolPrompt(req) then Ok("")
    else if |gen.configs| == 0 then Err(OperationCanceled(MissingConfigMessage))
    else if tpl >= |gen.configs| then Err(IndexOutOfRange(tpl))
    else if tpl < 0 then Err(ArgumentOutOfRange)
    else ConfiguredPrompt(gen.configs[tpl], req.tools.value, Parallel(req), lang, enc)
  }

  /** The summaries of the tools, in request order. */
  function Summaries(tools: seq<ToolInfo>): seq<string> {
    seq(|tools|, i requires 0 <= i < |tools| => ToolSummary(tools[i].fn))
  }

  /** The prompt for a non-empty tool list under one configuration. */
  function ConfiguredPrompt(config: ToolPromptConfig, tools: seq<ToolInfo>, parallel: bool, lang: string, enc: JsonEncoder): Result<string> {
    if lang !in config.toolDescTemplate then Err(KeyNotFound(lang))
    else
      var infos := Descriptions(tools, config.toolDescTemplate[lang], enc);
      if infos.Err? then Err(infos.error)
      else if lang !in config.fnCallTemplateInfo then Err(KeyNotFound(lang))
      else
        var toolSystem := Replace(config.fnCallTemplateInfo[lang], ToolDescsPlaceholder, ToolDescText(infos.value, Summaries(tools)));
        var templates := if parallel then config.fnCallTemplateFmtPara else config.fnCallTemplateFmt;
        if lang !in templates then Err(KeyNotFound(lang))
        else
          var p := Format(templates[lang], [config.fnName, config.fnArgs, config.fnResult, config.fnExit, ToolNames(tools)]);
          if p.Err? then Err(p.error) else Ok("\n\n" + toolSystem + "\n\n" + p.value)
  }

  /**
   * `GenerateToolPrompt`: the empty string when no prompt is wanted; otherwise the configuration
   * checks, then the system text and the call-format text each preceded by a blank line.
   */
  method GenerateToolPrompt(gen: ToolPromptGenerator, req: ChatRequest, tpl: int, lang: string, enc: JsonEncoder)
    returns (r: Result<string>)
    ensures r == ToolPromptText(gen, req, tpl, lang, enc)
    ensures r == Ok("") <==> NoToolPrompt(req)
    ensures r.Ok? && !NoToolPrompt(req) ==> gen.ValidIndex(tpl) && StartsWith(r.value, "\n\n")
    ensures !NoToolPrompt(req) && |gen.configs| == 0 ==> r == Err(OperationCanceled(MissingConfigMessage))
    ensures !NoToolPrompt(req) && 0 < |gen.configs| <= tpl ==> r == Err(IndexOutOfRange(tpl))
    ensures !NoToolPrompt(req) && |gen.configs| > 0 && tpl < 0 ==> r == Err(ArgumentOutOfRange)
  {
    if NoToolPrompt(req) {
      return Ok("");
    }
    if |gen.configs| == 0 {
      return Err(OperationCanceled(MissingConfigMessage));
    }
    if tpl >= |gen.configs| {
      return Err(IndexOutOfRange(tpl));
    }
    if tpl < 0 {
      return Err(ArgumentOutOfRange);
    }
    r := PromptFor(gen.configs[tpl], req.tools.value, Parallel(req), lang, enc);
  }

  /** The part of `GenerateToolPrompt` after the configuration checks. */
  method PromptFor(config: ToolPromptConfig, tools: seq<ToolInfo>, parallel: bool, lang: string, enc: JsonEncoder)
    returns (r: Result<string>)
    ensures r == ConfiguredPrompt(config, tools, parallel, lang, enc)
    ensures r.Ok? ==> StartsWith(r.value, "\n\n") && r != Ok("")
  {
    var summaries := Summaries(tools);
    var toolNames := ToolNames(tools);
    if lang !in config.toolDescTemplate {
      return Err(KeyNotFound(lang));
    }
    var infos := DescribeAll(tools, config.toolDescTemplate[lang], enc);
    if infos.Err? {
      return Err(infos.error);
    }
    var toolDesc := BuildToolDesc(infos.value, summaries);
    if lang !in config.fnCallTemplateInfo {
      return Err(KeyNotFound(lang));
    }
    var toolSystem := Replace(config.fnCallTemplateInfo[lang], ToolDescsPlaceholder, toolDesc);
    var templates := if parallel then config.fnCallTemplateFmtPara else config.fnCallTemplateFmt;
    if lang !in templates {
      return Err(KeyNotFound(lang));
    }
    var toolPrompt := Format(templates[lang], [config.fnName, config.fnArgs, config.fnResult, config.fnExit, toolNames]);
    if toolPrompt.Err? {
      return Err(toolPrompt.error);
    }
    r := Ok("\n\n" + toolSystem + "\n\n" + toolPrompt.value);
  }

  /** The description loop: one description per tool, stopping at the first failure. */
  method DescribeAll(tools: seq<ToolInfo>, template: string, enc: JsonEncoder) returns (r: Result<seq<string>>)
    ensures r == Descriptions(tools, template, enc)
    ensures r.Ok? ==> |r.value| == |tools|
  {
    ghost var outcomes := seq(|tools|, k requires 0 <= k < |tools| => FunctionDescription(tools[k].fn, template, enc));
    var infos: seq<string> := [];
    var i := 0;
    while i < |tools|
      invariant 0 <= i <= |tools|
      invariant Collect(outcomes[..i]) == Ok(infos)
      invariant |infos| == i
    {
      var d := GetFunctionDescription(tools[i].fn, template, enc);
      assert outcomes[..i + 1][..i] == outcomes[..i];
      if d.Err? {
        CollectFirstFailure(outcomes, i + 1, |outcomes|);
        assert outcomes[..|outcomes|] == outcomes;
        return Err(d.error);
      }
      infos := infos + [d.value];
      i := i + 1;
    }
    assert outcomes[..i] == outcomes;
    r := Ok(infos);
  }

  /** The description block with one usage line per tool and the fallback line. */
  method BuildToolDesc(infos: seq<string>, summaries: seq<string>) returns (toolDesc: string)
    ensures toolDesc == ToolDescText(infos, summaries)
  {
    toolDesc := Join("\n\n", infos) + ImportantNote + ChoiceHeading;
    var count;
    toolDesc, count := AppendUses(toolDesc, summaries);
    toolDesc := toolDesc + "\n" + NatToString(count) + ". " + FallbackInstruction;
  }

  /** The numbering loop: appends one usage line per summary, numbered from 1, and gives the next number. */
  method AppendUses(prefix: string, summaries: seq<string>) returns (toolDesc: string, count: nat)
    ensures toolDesc == prefix + NumberedUses(summaries) && count == |summaries| + 1
  {
    toolDesc := prefix;
    count := 1;
    while count <= |summaries|
      invariant 1 <= count <= |summaries| + 1
      invariant toolDesc == prefix + NumberedUses(summaries[..count - 1])
    {
      var line := UseLine(count, summaries[count - 1]);
      NumberedUsesSnoc(summaries, count);
      toolDesc := toolDesc + line;
      count := count + 1;
    }
    assert summaries[..count - 1] == summaries;
  }

  /** The usage list of the first `k` summaries extends that of the first `k - 1` by line `k`. */
  lemma NumberedUsesSnoc(summaries: seq<string>, k: nat)
    requires 1 <= k <= |summaries|
    ensures NumberedUses(summaries[..k]) == NumberedUses(summaries[..k - 1]) + UseLine(k, summaries[k - 1])
  {
    assert summaries[..k][..k - 1] == summaries[..k - 1];
  }

  /** Trimming a trimmed text changes nothing. */
  lemma TrimIdempotent(s: string)
    ensures Trim(Trim(s)) == Trim(s)
  {
    var t := Trim(s);
    if t != [] {
      assert TrimStart(t) == t;
      assert TrimEnd(t) == t;
    } else {
      assert IsBlank(t);
    }
  }

  /** The usage list built so far is a prefix of the whole list. */
  lemma {:induction false} NumberedUsesPrefix(summaries: seq<string>, k: nat)
    requires k <= |summaries|
    ensures StartsWith(NumberedUses(summaries), NumberedUses(summaries[..k]))
    decreases |summaries|
  {
    if k < |summaries| {
      var init := summaries[..|summaries| - 1];
      assert init[..k] == summaries[..k];
      NumberedUsesPrefix(init, k);
      var whole := NumberedUses(summaries);
      assert whole == NumberedUses(init) + UseLine(|summaries|, summaries[|summaries| - 1]);
      assert whole[..|NumberedUses(init)|] == NumberedUses(init);
      assert StartsWith(NumberedUses(init), NumberedUses(summaries[..k]));
    } else {
      assert summaries[..k] == summaries;
    }
  }

  /**
   * Usage line i (from 0) of the list reads `\n<i+1>. Use <summary i>.`, and it starts where
   * the first i lines end.
   */
  lemma UsageLine(summaries: seq<string>, i: nat)
    requires i < |summaries|
    ensures var start := |NumberedUses(summaries[..i])|;
      var line := UseLine(i + 1, summaries[i]);
      start + |line| <= |NumberedUses(summaries)| &&
      NumberedUses(summaries)[start..start + |line|] == line
  {
    var pre := summaries[..i + 1];
    assert pre[..|pre| - 1] == summaries[..i];
    assert NumberedUses(pre) == NumberedUses(summaries[..i]) + UseLine(i + 1, summaries[i]);
    NumberedUsesPrefix(summaries, i + 1);
  }

  /**
   * With tool choice `parallel`, the prompt ends with a blank line and the configuration's
   * parallel call-format template for the language, filled with the four protocol markers and
   * the comma-separated tool names.
   */
  lemma ParallelPromptTail(gen: ToolPromptGenerator, req: ChatRequest, tpl: int, lang: string, enc: JsonEncoder)
    requires ToolPromptText(gen, req, tpl, lang, enc).Ok? && !NoToolPrompt(req)
    requires Parallel(req)
    ensures gen.ValidIndex(tpl)
    ensures var c := gen.configs[tpl];
      var v := ToolPromptText(gen, req, tpl, lang, enc).value;
      var p := Format(c.fnCallTemplateFmtPara[lang], [c.fnName, c.fnArgs, c.fnResult, c.fnExit, ToolNames(req.tools.value)]);
      lang in c.fnCallTemplateFmtPara && p.Ok? && |p.value| + 2 <= |v| && v[|v| - |p.value| - 2..] == "\n\n" + p.value
  {
    ConfiguredTail(gen.configs[tpl], req.tools.value, true, lang, enc);
  }

  /**
   * With any other tool choice that still asks for a prompt, the prompt ends with a blank line
   * and the configuration's sequential call-format template, filled the same way.
   */
  lemma SequentialPromptTail(gen: ToolPromptGenerator, req: ChatRequest, tpl: int, lang: string, enc: JsonEncoder)
    requires ToolPromptText(gen, req, tpl, lang, enc).Ok? && !NoToolPrompt(req)
    requires !Parallel(req)
    ensures gen.ValidIndex(tpl)
    ensures var c := gen.configs[tpl];
      var v := ToolPromptText(gen, req, tpl, lang, enc).value;
      var p := Format(c.fnCallTemplateFmt[lang], [c.fnName, c.fnArgs, c.fnResult, c.fnExit, ToolNames(req.tools.value)]);
      lang in c.fnCallTemplateFmt && p.Ok? && |p.value| + 2 <= |v| && v[|v| - |p.value| - 2..] == "\n\n" + p.value
  {
    ConfiguredTail(gen.configs[tpl], req.tools.value, false, lang, enc);
  }

  /** A configured prompt ends with a blank line and the formatted call-format template. */
  lemma ConfiguredTail(config: ToolPromptConfig, tools: seq<ToolInfo>, parallel: bool, lang: string, enc: JsonEncoder)
    requires ConfiguredPrompt(config, tools, parallel, lang, enc).Ok?
    ensures var templates := if parallel then config.fnCallTemplateFmtPara else config.fnCallTemplateFmt;
      var v := ConfiguredPrompt(config, tools, parallel, lang, enc).value;
      var p := Format(templates[lang], [config.fnName, config.fnArgs, config.fnResult, config.fnExit, ToolNames(tools)]);
      lang in templates && p.Ok? && |p.value| + 2 <= |v| && v[|v| - |p.value| - 2..] == "\n\n" + p.value
  {
    var templates := if parallel then config.fnCallTemplateFmtPara else config.fnCallTemplateFmt;
    var v := ConfiguredPrompt(config, tools, parallel, lang, enc).value;
    var p := Format(templates[lang], [config.fnName, config.fnArgs, config.fnResult, config.fnExit, ToolNames(tools)]).value;
    var head := "\n\n" + Replace(config.fnCallTemplateInfo[lang], ToolDescsPlaceholder, ToolDescText(Descriptions(tools, config.toolDescTemplate[lang], enc).value, Summaries(tools)));
    assert v == head + ("\n\n" + p);
    assert v[|v| - |p| - 2..] == "\n\n" + p;
  }

  /** A template with five placeholders in order, separated by brace-free literals. */
  lemma FiveSlots(s1: string, s2: string, s3: string, s4: string, s5: string, args: seq<string>)
    requires BraceFree(s1) && BraceFree(s2) && BraceFree(s3) && BraceFree(s4) && BraceFree(s5)
    requires |args| == 5
    ensures Format("{0}" + s1 + "{1}" + s2 + "{2}" + s3 + "{3}" + s4 + "{4}" + s5, args)
         == Ok(args[0] + s1 + args[1] + s2 + args[2] + s3 + args[3] + s4 + args[4] + s5)
  {
    var a0, a1, a2, a3, a4 := args[0], args[1], args[2], args[3], args[4];
    var t7 := s4 + ("{" + NatToString(4) + "}" + s5);
    var t5 := s3 + ("{" + NatToString(3) + "}" + t7);
    var t3 := s2 + ("{" + NatToString(2) + "}" + t5);
    var t1 := s1 + ("{" + NatToString(1) + "}" + t3);
    FormatBraceFree(s5, args);
    FormatSlotThen(s4, 4, s5, args);
    FormatSlotThen(s3, 3, t7, args);
    FormatSlotThen(s2, 2, t5, args);
    FormatSlotThen(s1, 1, t3, args);
    FormatItemThen(0, t1, args);
    FiveSlotShape(s1, s2, s3, s4, s5);
    Reassociate(a0, s1, a1, s2, a2, s3, a3, s4, a4, s5);
  }

  /** The five-placeholder template, nested to the right around its placeholders. */
  lemma FiveSlotShape(s1: string, s2: string, s3: string, s4: string, s5: string)
    ensures "{0}" + s1 + "{1}" + s2 + "{2}" + s3 + "{3}" + s4 + "{4}" + s5
         == "{" + NatToString(0) + "}" + (s1 + ("{" + NatToString(1) + "}" + (s2 + ("{" + NatToString(2) + "}"
            + (s3 + ("{" + NatToString(3) + "}" + (s4 + ("{" + NatToString(4) + "}" + s5))))))))
  {
    var p0, p1, p2, p3, p4 := "{0}", "{1}", "{2}", "{3}", "{4}";
    assert "{" + NatToString(0) + "}" == p0 && "{" + NatToString(1) + "}" == p1;
    assert "{" + NatToString(2) + "}" == p2 && "{" + NatToString(3) + "}" == p3;
    assert "{" + NatToString(4) + "}" == p4;
    Reassociate(p0, s1, p1, s2, p2, s3, p3, s4, p4, s5);
  }

  /** Ten texts concatenated right to left equal the same texts concatenated left to right. */
  lemma Reassociate(x0: string, x1: string, x2: string, x3: string, x4: string,
                    x5: string, x6: string, x7: string, x8: string, x9: string)
    ensures x0 + (x1 + (x2 + (x3 + (x4 + (x5 + (x6 + (x7 + (x8 + x9))))))))
         == x0 + x1 + x2 + x3 + x4 + x5 + x6 + x7 + x8 + x9
  {
  }
}
