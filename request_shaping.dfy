/**
 * Shaping a chat request for the generator: the prompt text (tool prompt, system prompt and the
 * history transform) and the inference parameters (token limit and stop list). Both servers do
 * this the same way.
 */
module RequestShaping {
  import opened Wrappers
  import opened Text
  import opened Models
  import opened ToolPrompt
  import opened ToolPromptBuilder
  import opened Templates
  import opened Compiler
  import opened CompilerFacts

  /** How the configured history transform resolves. */
  datatype TransformChoice =
    | BaseTransform                          // no transform configured: the ChatML base
    | Configured(resolved: Option<TemplateSet>)  // a type name, and the transform it names if any

  /** The server settings the chat path reads. */
  datatype ServiceSettings = ServiceSettings(
    toolPromptIndex: int,
    toolPromptLang: string,
    systemPrompt: Option<string>,
    antiPrompts: Option<seq<string>>,
    transform: TransformChoice)

  /** The prompt text, whether the tool protocol is on, and its stop words when it is. */
  datatype ChatHistoryResult = ChatHistoryResult(chatHistory: string, isToolPromptEnabled: bool, toolStopWords: Option<seq<string>>)

  /** The inference parameters the chat path sets: the token limit and the stop list. */
  datatype InferenceParams = InferenceParams(maxTokens: int, antiPrompts: seq<string>)

  /** The exception `First()` throws on an empty sequence. */
  const NoElements := InvalidOperation("Sequence contains no elements")

  // ---------------------------------------------------------------------------------------------
  // The stop list

  /** The position of the first occurrence of `s` in `ss`. */
  function FirstIndex(ss: seq<string>, s: string): (k: nat)
    requires s in ss
    ensures k < |ss| && ss[k] == s
    ensures forall j | 0 <= j < k :: ss[j] != s
  {
    if ss[0] == s then 0 else 1 + FirstIndex(ss[1..], s)
  }

  /** Every string of `r` occurs in `g`, and `r` lists them in the order they first occur in `g`. */
  predicate OrderedIn(g: seq<string>, r: seq<string>) {
    && (forall i | 0 <= i < |r| :: r[i] in g)
    && (forall i, j | 0 <= i < j < |r| :: FirstIndex(g, r[i]) < FirstIndex(g, r[j]))
  }

  /**
   * Strings ordered by their first occurrence in the tail of `ss`, none of them its head, are
   * ordered by their first occurrence in `ss`, and with the head put in front they still are.
   */
  lemma OrderedCons(ss: seq<string>, rest: seq<string>)
    requires ss != [] && OrderedIn(ss[1..], rest)
    requires forall i | 0 <= i < |rest| :: rest[i] != ss[0]
    ensures OrderedIn(ss, rest)
    ensures OrderedIn(ss, [ss[0]] + rest)
  {
    forall i | 0 <= i < |rest| ensures rest[i] in ss && FirstIndex(ss, rest[i]) == 1 + FirstIndex(ss[1..], rest[i]) {
      FirstIndexTail(ss, rest[i]);
    }
    OrderedFront(ss, ss[0], rest);
  }

  /** A string of the tail other than the head first occurs one place later in the whole list. */
  lemma FirstIndexTail(ss: seq<string>, x: string)
    requires ss != [] && x in ss[1..] && x != ss[0]
    ensures x in ss && FirstIndex(ss, x) == 1 + FirstIndex(ss[1..], x)
  {
    assert x in ss[1..];
  }

  /**
   * `Distinct()`: the first occurrence of each string, in order, skipping those in `seen`. The
   * result holds exactly the strings of `ss` not in `seen`, each once, in the order in which
   * they first occur in `ss`.
   */
  function DistinctFrom(ss: seq<string>, seen: set<string>): (r: seq<string>)
    ensures forall s :: s in r <==> s in ss && s !in seen
    ensures forall i, j | 0 <= i < j < |r| :: r[i] != r[j]
    ensures OrderedIn(ss, r)
    decreases |ss|
  {
    if ss == [] then []
    else if ss[0] in seen then
      var rest := DistinctFrom(ss[1..], seen);
      OrderedCons(ss, rest);
      rest
    else
      var rest := DistinctFrom(ss[1..], seen + {ss[0]});
      assert forall s :: s in ss <==> s == ss[0] || s in ss[1..];
      OrderedCons(ss, rest);
      [ss[0]] + rest
  }

  /** `Where(x => !string.IsNullOrWhiteSpace(x))`. */
  function NonBlank(ss: seq<string>): (r: seq<string>)
    ensures forall s :: s in r <==> s in ss && !IsBlank(s)
    ensures |r| <= |ss|
  {
    if ss == [] then []
    else (if IsBlank(ss[0]) then [] else [ss[0]]) + NonBlank(ss[1..])
  }

  /** `Take(n)`. */
  function Take(ss: seq<string>, n: nat): seq<string> {
    if |ss| <= n then ss else ss[..n]
  }

  /** The stop list from the gathered stop strings: distinct, not blank, at most four. */
  function StopWords(gathered: seq<string>): seq<string> {
    Take(NonBlank(DistinctFrom(gathered, {})), 4)
  }

  /** The stop strings gathered in order: the request's, the model's anti-prompts, the tool protocol's. */
  function Gathered(requestStop: Option<seq<string>>, antiPrompts: Option<seq<string>>, toolStopWords: Option<seq<string>>): seq<string> {
    requestStop.GetOr([]) + antiPrompts.GetOr([]) + toolStopWords.GetOr([])
  }

  /** `MaxTokens`: the request's `max_tokens` when positive, otherwise -1 (no limit). */
  function MaxTokensParam(maxTokens: Option<int>): (r: int)
    ensures r == -1 || r > 0
    ensures r > 0 <==> maxTokens.Some? && maxTokens.value > 0
    ensures r > 0 ==> r == maxTokens.value
  {
    if maxTokens.Some? && maxTokens.value > 0 then maxTokens.value else -1
  }

  /** `GetInferenceParams`: the token limit and the stop list of a request. */
  method GetInferenceParams(request: ChatRequest, settings: ServiceSettings, toolStopWords: Option<seq<string>>)
    returns (p: InferenceParams)
    ensures p.maxTokens == MaxTokensParam(request.maxTokens)
    ensures p.antiPrompts == StopWords(Gathered(request.stop, settings.antiPrompts, toolStopWords))
  {
    var stop: seq<string> := [];
    if request.stop.Some? {
      stop := stop + request.stop.value;
    }
    if settings.antiPrompts.Some? && |settings.antiPrompts.value| > 0 {
      stop := stop + settings.antiPrompts.value;
    }
    if toolStopWords.Some? && |toolStopWords.value| > 0 {
      stop := stop + toolStopWords.value;
    }
    assert stop == Gathered(request.stop, settings.antiPrompts, toolStopWords);
    if |stop| > 0 {
      stop := StopWords(stop);
    } else {
      assert StopWords(stop) == [];
    }
    p := InferenceParams(MaxTokensParam(request.maxTokens), stop);
  }

  /**
   * The stop list holds at most four strings, none blank, none twice, each one gathered, in
   * the order in which they first occur. A non-blank gathered string is left out only when four
   * strings that first occur before it are already kept; so with at most four distinct
   * non-blank strings, all of them are kept.
   */
  lemma StopWordsFacts(gathered: seq<string>)
    ensures |StopWords(gathered)| <= 4
    ensures forall i | 0 <= i < |StopWords(gathered)| ::
              !IsBlank(StopWords(gathered)[i]) && StopWords(gathered)[i] in gathered
    ensures forall i, j | 0 <= i < j < |StopWords(gathered)| :: StopWords(gathered)[i] != StopWords(gathered)[j]
    ensures OrderedIn(gathered, StopWords(gathered))
    ensures forall s | s in gathered && !IsBlank(s) && s !in StopWords(gathered) ::
              && |StopWords(gathered)| == 4
              && forall i | 0 <= i < 4 :: FirstIndex(gathered, StopWords(gathered)[i]) < FirstIndex(gathered, s)
    ensures |NonBlank(DistinctFrom(gathered, {}))| <= 4 ==>
              forall s | s in gathered && !IsBlank(s) :: s in StopWords(gathered)
  {
    var d := NonBlank(DistinctFrom(gathered, {}));
    StopWordsKept(gathered);
    NonBlankKeepsDistinct(DistinctFrom(gathered, {}));
    NonBlankKeepsOrder(gathered, DistinctFrom(gathered, {}));
    TakeKeeps(gathered, d, 4);
    forall s | s in gathered && !IsBlank(s) && s !in StopWords(gathered)
      ensures |StopWords(gathered)| == 4
      ensures forall i | 0 <= i < 4 :: FirstIndex(gathered, StopWords(gathered)[i]) < FirstIndex(gathered, s)
    {
      LeftOut(gathered, d, s);
    }
  }

  /** Every stop word is a non-blank gathered string, and the list is the candidates cut at four. */
  lemma StopWordsKept(gathered: seq<string>)
    ensures var d := NonBlank(DistinctFrom(gathered, {}));
      var r := StopWords(gathered);
      |r| <= 4 && r == d[..|r|] && (|d| <= 4 ==> r == d)
    ensures forall i | 0 <= i < |StopWords(gathered)| ::
              !IsBlank(StopWords(gathered)[i]) && StopWords(gathered)[i] in gathered
  {
    var d := NonBlank(DistinctFrom(gathered, {}));
    var r := StopWords(gathered);
    assert r == d[..|r|];
    forall i | 0 <= i < |r| ensures !IsBlank(r[i]) && r[i] in gathered {
      assert r[i] == d[i];
      assert d[i] in d;
    }
  }

  /** The first n strings of a duplicate-free list ordered in `g` are duplicate-free and ordered. */
  lemma TakeKeeps(g: seq<string>, d: seq<string>, n: nat)
    requires OrderedIn(g, d)
    requires forall i, j | 0 <= i < j < |d| :: d[i] != d[j]
    ensures OrderedIn(g, Take(d, n))
    ensures forall i, j | 0 <= i < j < |Take(d, n)| :: Take(d, n)[i] != Take(d, n)[j]
  {
  }

  /**
   * A string the candidates hold but the stop list does not comes after four kept strings, each
   * of which first occurs before it.
   */
  lemma LeftOut(gathered: seq<string>, d: seq<string>, s: string)
    requires d == NonBlank(DistinctFrom(gathered, {}))
    requires OrderedIn(gathered, d)
    requires s in gathered && !IsBlank(s) && s !in StopWords(gathered)
    ensures |StopWords(gathered)| == 4
    ensures forall i | 0 <= i < 4 :: FirstIndex(gathered, StopWords(gathered)[i]) < FirstIndex(gathered, s)
  {
    var r := StopWords(gathered);
    assert s in d;
    var p :| 0 <= p < |d| && d[p] == s;
    assert |r| == 4;
    forall i | 0 <= i < 4 ensures FirstIndex(gathered, r[i]) < FirstIndex(gathered, s) {
      assert r[i] == d[i];
    }
  }

  /** Filtering keeps the strings distinct. */
  lemma {:induction false} NonBlankKeepsDistinct(ss: seq<string>)
    requires forall i, j | 0 <= i < j < |ss| :: ss[i] != ss[j]
    ensures forall i, j | 0 <= i < j < |NonBlank(ss)| :: NonBlank(ss)[i] != NonBlank(ss)[j]
  {
    if ss != [] {
      var rest := ss[1..];
      assert forall i, j | 0 <= i < j < |rest| :: rest[i] != rest[j] by {
        forall i, j | 0 <= i < j < |rest| ensures rest[i] != rest[j] {
          assert rest[i] == ss[i + 1] && rest[j] == ss[j + 1];
        }
      }
      NonBlankKeepsDistinct(rest);
      assert ss[0] !in rest by {
        forall j | 0 <= j < |rest| ensures rest[j] != ss[0] {
          assert rest[j] == ss[j + 1];
        }
      }
      assert ss[0] !in NonBlank(rest);
    }
  }

  /** The filter keeps order: filtering two lists one after the other filters their concatenation. */
  lemma {:induction false} NonBlankAppend(a: seq<string>, b: seq<string>)
    ensures NonBlank(a + b) == NonBlank(a) + NonBlank(b)
    decreases |a|
  {
    if a != [] {
      var head := if IsBlank(a[0]) then [] else [a[0]];
      assert (a + b)[0] == a[0] && (a + b)[1..] == a[1..] + b;
      NonBlankAppend(a[1..], b);
      calc {
        NonBlank(a + b);
        head + NonBlank(a[1..] + b);
        head + (NonBlank(a[1..]) + NonBlank(b));
        (head + NonBlank(a[1..])) + NonBlank(b);
        NonBlank(a) + NonBlank(b);
      }
    } else {
      assert a + b == b;
    }
  }

  /** A list without blank strings passes the filter unchanged. */
  lemma {:induction false} NonBlankKeepsAll(ss: seq<string>)
    requires forall i | 0 <= i < |ss| :: !IsBlank(ss[i])
    ensures NonBlank(ss) == ss
    decreases |ss|
  {
    if ss != [] {
      NonBlankKeepsAll(ss[1..]);
    }
  }

  /** The tail of an ordered list is ordered. */
  lemma OrderedTail(g: seq<string>, ss: seq<string>)
    requires ss != [] && OrderedIn(g, ss)
    ensures OrderedIn(g, ss[1..])
  {
    var rest := ss[1..];
    forall i, j | 0 <= i < j < |rest| ensures FirstIndex(g, rest[i]) < FirstIndex(g, rest[j]) {
      assert rest[i] == ss[i + 1] && rest[j] == ss[j + 1];
    }
  }

  /** A string that first occurs before every string of an ordered list can go in front of it. */
  lemma OrderedFront(g: seq<string>, x: string, r: seq<string>)
    requires x in g && OrderedIn(g, r)
    requires forall j | 0 <= j < |r| :: FirstIndex(g, x) < FirstIndex(g, r[j])
    ensures OrderedIn(g, [x] + r)
  {
    var xr := [x] + r;
    forall i, j | 0 <= i < j < |xr| ensures FirstIndex(g, xr[i]) < FirstIndex(g, xr[j]) {
      assert xr[j] == r[j - 1];
      if i > 0 {
        assert xr[i] == r[i - 1];
      }
    }
  }

  /** The head of an ordered list first occurs before every string of its tail. */
  lemma HeadFirst(g: seq<string>, ss: seq<string>, x: string)
    requires ss != [] && OrderedIn(g, ss) && x in ss[1..]
    ensures FirstIndex(g, ss[0]) < FirstIndex(g, x)
  {
    var k :| 0 <= k < |ss[1..]| && ss[1..][k] == x;
    assert ss[k + 1] == x;
  }

  /** Filtering strings ordered by their first occurrence in `g` keeps them so ordered. */
  lemma {:induction false} NonBlankKeepsOrder(g: seq<string>, ss: seq<string>)
    requires OrderedIn(g, ss)
    ensures OrderedIn(g, NonBlank(ss))
    decreases |ss|
  {
    if ss != [] {
      var rest := ss[1..];
      OrderedTail(g, ss);
      NonBlankKeepsOrder(g, rest);
      var nr := NonBlank(rest);
      if !IsBlank(ss[0]) {
        forall j | 0 <= j < |nr| ensures FirstIndex(g, ss[0]) < FirstIndex(g, nr[j]) {
          HeadFirst(g, ss, nr[j]);
        }
        OrderedFront(g, ss[0], nr);
      }
    }
  }

  /** Listing distinct strings, none in `seen`, ahead of the rest keeps them in front. */
  lemma {:induction false} DistinctFromPrefix(p: seq<string>, rest: seq<string>, seen: set<string>)
    requires forall i, j | 0 <= i < j < |p| :: p[i] != p[j]
    requires forall i | 0 <= i < |p| :: p[i] !in seen
    ensures DistinctFrom(p + rest, seen) == p + DistinctFrom(rest, seen + set x | x in p)
    decreases |p|
  {
    if p == [] {
      assert p + rest == rest;
      assert (set x | x in p) == {};
      assert seen + (set x | x in p) == seen;
      var d := DistinctFrom(rest, seen);
      assert p + d == d;
    } else {
      var tail := p[1..];
      var seen' := seen + {p[0]};
      DistinctFromCons(p + rest, seen);
      assert (p + rest)[0] == p[0] && (p + rest)[1..] == tail + rest;
      TailFacts(p, seen);
      DistinctFromPrefix(tail, rest, seen');
      ConsSet(p, seen);
      var d := DistinctFrom(rest, seen + set x | x in p);
      assert DistinctFrom(rest, seen' + set x | x in tail) == d;
      ConsAppend(p, d);
    }
  }

  /** Putting the head of `p` before its tail and `d` gives `p + d`. */
  lemma ConsAppend(p: seq<string>, d: seq<string>)
    requires p != []
    ensures [p[0]] + (p[1..] + d) == p + d
  {
  }

  /** A string not yet seen heads the distinct strings of a list it heads. */
  lemma DistinctFromCons(ss: seq<string>, seen: set<string>)
    requires ss != [] && ss[0] !in seen
    ensures DistinctFrom(ss, seen) == [ss[0]] + DistinctFrom(ss[1..], seen + {ss[0]})
  {
  }

  /** The tail of a list of distinct strings, none in `seen`, has distinct strings none in `seen` or its head. */
  lemma TailFacts(p: seq<string>, seen: set<string>)
    requires p != []
    requires forall i, j | 0 <= i < j < |p| :: p[i] != p[j]
    requires forall i | 0 <= i < |p| :: p[i] !in seen
    ensures forall i, j | 0 <= i < j < |p[1..]| :: p[1..][i] != p[1..][j]
    ensures forall i | 0 <= i < |p[1..]| :: p[1..][i] !in seen + {p[0]}
  {
    var tail := p[1..];
    forall i | 0 <= i < |tail| ensures tail[i] == p[i + 1] {
    }
  }

  /** The strings of a non-empty list are its head and the strings of its tail. */
  lemma ConsSet(p: seq<string>, seen: set<string>)
    requires p != []
    ensures seen + {p[0]} + (set x | x in p[1..]) == seen + (set x | x in p)
  {
    forall y | y in p ensures y == p[0] || y in p[1..] {
      var k :| 0 <= k < |p| && p[k] == y;
      if k > 0 {
        assert p[1..][k - 1] == y;
      }
    }
  }

  /**
   * A request that asks for four distinct, non-blank stop strings fills the stop list by itself:
   * the model's anti-prompts and the tool protocol's stop words are all left out.
   */
  lemma RequestStopsCrowdOut(requestStop: seq<string>, antiPrompts: Option<seq<string>>, toolStopWords: Option<seq<string>>)
    requires |requestStop| == 4
    requires forall i, j | 0 <= i < j < 4 :: requestStop[i] != requestStop[j]
    requires forall i | 0 <= i < 4 :: !IsBlank(requestStop[i])
    ensures StopWords(Gathered(Some(requestStop), antiPrompts, toolStopWords)) == requestStop
  {
    var others := antiPrompts.GetOr([]) + toolStopWords.GetOr([]);
    var g := Gathered(Some(requestStop), antiPrompts, toolStopWords);
    assert g == requestStop + others;
    DistinctFromPrefix(requestStop, others, {});
    var tail := DistinctFrom(others, {} + set x | x in requestStop);
    NonBlankAppend(requestStop, tail);
    NonBlankKeepsAll(requestStop);
    assert NonBlank(DistinctFrom(g, {})) == requestStop + NonBlank(tail);
    assert (requestStop + NonBlank(tail))[..4] == requestStop;
  }

  // ---------------------------------------------------------------------------------------------
  // The prompt

  /**
   * The messages given to the transform: a system message carrying the configured system prompt
   * goes first when the tool protocol is on or a system prompt is configured, unless the first
   * message is already a system message. Looking at the first message of an empty list throws.
   */
  function PromptMessages(messages: seq<Message>, systemPrompt: Option<string>, toolEnabled: bool): Result<seq<Message>> {
    if !(toolEnabled || !IsNullOrWhiteSpace(systemPrompt)) then Ok(messages)
    else if messages == [] then Err(NoElements)
    else if messages[0].role != System then Ok([PlainMessage(System, systemPrompt)] + messages)
    else Ok(messages)
  }

  /** The prompt text from a configured transform; a name that resolves to nothing yields "". */
  function TransformText(choice: TransformChoice, gen: ToolPromptGenerator, tpl: int, toolPrompt: string, messages: seq<Message>): Result<string> {
    match choice
    case BaseTransform => CompiledText(Setting(ChatML, gen, tpl, toolPrompt), [], messages)
    case Configured(None) => Ok("")
    case Configured(Some(ts)) => CompiledText(Setting(ts, gen, tpl, toolPrompt), [], messages)
  }

  /**
   * `GetChatHistory`: the tool prompt, whether it is on, the messages with the system prompt
   * prepended as needed, and the prompt text from a fresh transform.
   */
  function ChatHistory(settings: ServiceSettings, gen: ToolPromptGenerator, enc: JsonEncoder, request: ChatRequest): Result<ChatHistoryResult> {
    var tpl := settings.toolPromptIndex;
    var toolPrompt := ToolPromptText(gen, request, tpl, settings.toolPromptLang, enc);
    if toolPrompt.Err? then Err(toolPrompt.error)
    else
      var toolEnabled := !IsBlank(toolPrompt.value);
      var stopWords := if toolEnabled then gen.GetToolStopWords(tpl) else Ok([]);
      if stopWords.Err? then Err(stopWords.error)
      else
        var messages := PromptMessages(request.messages, settings.systemPrompt, toolEnabled);
        if messages.Err? then Err(messages.error)
        else
          var history := TransformText(settings.transform, gen, tpl, toolPrompt.value, messages.value);
          if history.Err? then Err(history.error)
          else Ok(ChatHistoryResult(history.value, toolEnabled, if toolEnabled then Some(stopWords.value) else None))
  }

  /**
   * The tool protocol is on exactly when the tool prompt is not blank; then the protocol index
   * is valid and the stop words are the protocol's, otherwise there are none.
   */
  lemma ChatHistoryToolMode(settings: ServiceSettings, gen: ToolPromptGenerator, enc: JsonEncoder, request: ChatRequest)
    requires ChatHistory(settings, gen, enc, request).Ok?
    ensures var h := ChatHistory(settings, gen, enc, request).value;
      var toolPrompt := ToolPromptText(gen, request, settings.toolPromptIndex, settings.toolPromptLang, enc);
      && toolPrompt.Ok?
      && (h.isToolPromptEnabled <==> !IsBlank(toolPrompt.value))
      && (h.isToolPromptEnabled ==>
            && !NoToolPrompt(request) && gen.ValidIndex(settings.toolPromptIndex)
            && h.toolStopWords == Some(gen.configs[settings.toolPromptIndex].fnStopWords))
      && (!h.isToolPromptEnabled ==> h.toolStopWords.None?)
  {
    var tpl := settings.toolPromptIndex;
    var toolPrompt := ToolPromptText(gen, request, tpl, settings.toolPromptLang, enc);
    if !IsBlank(toolPrompt.value) {
      assert toolPrompt.value != "";
    }
  }

  /**
   * The system message is prepended exactly when the tool protocol is on or a system prompt is
   * configured, and the first message is not a system message.
   */
  lemma PrependRule(messages: seq<Message>, systemPrompt: Option<string>, toolEnabled: bool)
    requires messages != []
    ensures PromptMessages(messages, systemPrompt, toolEnabled).Ok?
    ensures PromptMessages(messages, systemPrompt, toolEnabled).value == [PlainMessage(System, systemPrompt)] + messages
        <==> (toolEnabled || !IsNullOrWhiteSpace(systemPrompt)) && messages[0].role != System
    ensures PromptMessages(messages, systemPrompt, toolEnabled).value != [PlainMessage(System, systemPrompt)] + messages
        ==> PromptMessages(messages, systemPrompt, toolEnabled).value == messages
  {
    assert |[PlainMessage(System, systemPrompt)] + messages| != |messages|;
  }

  /** A configured transform name that does not resolve yields an empty prompt. */
  lemma UnresolvedTransformIsEmpty(settings: ServiceSettings, gen: ToolPromptGenerator, enc: JsonEncoder, request: ChatRequest)
    requires settings.transform == Configured(None)
    requires ChatHistory(settings, gen, enc, request).Ok?
    ensures ChatHistory(settings, gen, enc, request).value.chatHistory == ""
  {
  }

  /** Closing the prompt only appends to the text. */
  lemma FinishExtends(s: Setting, st: CState, history: seq<Message>)
    requires Finish(s, st, history).Ok?
    ensures StartsWith(Finish(s, st, history).value.out, st.out)
  {
    var f := Finish(s, st, history).value;
    if |history| > 0 && history[|history| - 1].role == Tool && |st.pending| > 0 {
      AppendExtends(st.out, ValueLines(st.pending) + s.gen.configs[s.tpl].fnExit + "\n");
      assert f.out == st.out + (ValueLines(st.pending) + s.gen.configs[s.tpl].fnExit + "\n");
    } else if st.toolWait {
      AppendExtends(st.out, s.ts.endToken + s.ts.assistantToken + "\n");
      assert f.out == st.out + (s.ts.endToken + s.ts.assistantToken + "\n");
    } else {
      AppendExtends(st.out, s.ts.assistantToken + "\n");
      assert f.out == st.out + (s.ts.assistantToken + "\n");
    }
  }

  /**
   * With a system token, a compilation whose first message is a system message opens with that
   * message's section, which carries the tool prompt.
   */
  lemma SystemSectionLeads(s: Setting, ms: seq<Message>)
    requires ms != [] && ms[0].role == System && !IsBlank(s.ts.systemToken)
    requires CompiledText(s, [], ms).Ok?
    ensures StartsWith(CompiledText(s, [], ms).value,
                       s.ts.systemToken + "\n" + Render(ms[0].content) + s.toolPrompt + s.ts.endToken + "\n")
  {
    var st1 := StepSystem(s, Init([]), ms[0]);
    assert ms[..1] == [ms[0]] && [ms[0]][..0] == [];
    assert Steps(s, Init([]), ms[..1]) == Ok(st1);
    assert st1.out == "" + (s.ts.systemToken + "\n" + Render(ms[0].content) + s.toolPrompt + s.ts.endToken + "\n");
    StepsSplit(s, Init([]), ms, 1);
    StepsExtend(s, st1, ms[1..]);
    var st := Steps(s, Init([]), ms).value;
    FinishExtends(s, st, ms);
    StartsWithTrans(Finish(s, st, ms).value.out, st.out, st1.out);
  }

  /**
   * With the tool protocol on, no system message first and a transform with a system token, the
   * prompt opens with a system section holding the configured system prompt and the tool prompt.
   */
  lemma ToolPromptOpensPrompt(settings: ServiceSettings, gen: ToolPromptGenerator, enc: JsonEncoder, request: ChatRequest, ts: TemplateSet)
    requires settings.transform == Configured(Some(ts)) || (settings.transform == BaseTransform && ts == ChatML)
    requires !IsBlank(ts.systemToken)
    requires request.messages != [] && request.messages[0].role != System
    requires ChatHistory(settings, gen, enc, request).Ok? && ChatHistory(settings, gen, enc, request).value.isToolPromptEnabled
    ensures var toolPrompt := ToolPromptText(gen, request, settings.toolPromptIndex, settings.toolPromptLang, enc).value;
      StartsWith(ChatHistory(settings, gen, enc, request).value.chatHistory,
                 ts.systemToken + "\n" + Render(settings.systemPrompt) + toolPrompt + ts.endToken + "\n")
  {
    var toolPrompt := ToolPromptText(gen, request, settings.toolPromptIndex, settings.toolPromptLang, enc).value;
    var ms := [PlainMessage(System, settings.systemPrompt)] + request.messages;
    assert PromptMessages(request.messages, settings.systemPrompt, true) == Ok(ms);
    SystemSectionLeads(Setting(ts, gen, settings.toolPromptIndex, toolPrompt), ms);
  }
}
