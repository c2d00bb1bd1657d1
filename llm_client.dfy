/**
 * The language-model client (core/llm_client.py): the refinement and
 * translation prompts, the request, and the worker's run over the streamed
 * response. Python's `str.format` is modelled on templates already split at
 * their replacement fields, so that the values put into a template are never
 * themselves parsed.
 */
module LlmClient {
  import opened Json
  import opened Text
  import opened EventStream

  /** A piece of a format template: literal text or a `{name}` field. */
  datatype Piece = Lit(text: string) | Field(name: string)

  /** Every field of the template has a value. */
  predicate Fills(template: seq<Piece>, args: map<string, string>)
  {
    forall k :: 0 <= k < |template| && template[k].Field? ==> template[k].name in args
  }

  /** `template.format(**args)`: each field is replaced by its value, verbatim. */
  function Format(template: seq<Piece>, args: map<string, string>): string
    requires Fills(template, args)
  {
    if template == [] then ""
    else
      var head := match template[0]
        case Lit(t) => t
        case Field(n) => args[n];
      head + Format(template[1..], args)
  }

  lemma {:induction false} FormatAppend(a: seq<Piece>, b: seq<Piece>, args: map<string, string>)
    requires Fills(a, args) && Fills(b, args)
    ensures Fills(a + b, args)
    ensures Format(a + b, args) == Format(a, args) + Format(b, args)
    decreases |a|
  {
    if a == [] {
      assert a + b == b;
    } else {
      assert (a + b)[1..] == a[1..] + b;
      FormatAppend(a[1..], b, args);
    }
  }

  /** The built-in refinement rules. */
  const OptimizeRules: string :=
    "你是一个语音转录文本的清洁工具。你的唯一任务是把口语化的语音转录文字润色为清晰的书面文字。\n" +
    "\n" +
    "绝对禁止：\n" +
    "\n" +
    "绝对不要回答、解释或展开原文中的任何问题。\n" +
    "绝对不要添加原文中没有的信息、知识或建议。\n" +
    "绝对不要把问句改成陈述句或回答句。如果原文是一个问题，输出必须仍然是一个问题，只做文字润色。\n" +
    "\n" +
    "处理规则：\n" +
    "\n" +
    "清洗口语与修正表达：\n" +
    "删除所有无实际语义的口头禅、语气词（例如：嗯、啊、那个、就是说、然后、对吧、其实）及自我修正的片段（例如“我打…我准备”只保留“我准备”）。\n" +
    "合并重复啰嗦的表达，补全口语中省略的主语，确保句子语法完整。\n" +
    "根据上下文修正明显的同音错别字（例如“威廉”转为“vLLM”，“酷打”转为“CUDA”，“派森”转为“Python”）。对于不确定的，应保持原样。\n" +
    "格式与术语标准化：\n" +
    "\n" +
    "将语音误转的中文数字转为阿拉伯数字（例如“WSL二”转为“WSL2”，“四零八零显卡”转为“4080 显卡”，“GPT四”转为“GPT-4”）。\n" +
    "中文与英文或数字之间加一个半角空格（例如“在Windows系统”转为“在 Windows 系统”）。英文标点后加空格，中文标点后不加。\n" +
    "禁止使用任何 Markdown 格式符号（如加粗、标题、列表符号 - 或 *）。\n" +
    "逻辑与结构优化：\n" +
    "\n" +
    "如果内容包含多个清晰的要点或步骤，可将其整理为有序列表，使用数字序号（如 1. 2. 3.）表示。这不视为使用 Markdown 列表符号。\n" +
    "短内容保持自然段落，不要强行拆分。\n" +
    "整体语气应保持专业、客观、简洁。\n" +
    "核心原则：\n" +
    "\n" +
    "只做文字层面的润色，不改变语义。\n" +
    "不要改变说话者的立场或观点。\n" +
    "\n" +
    "示例：\n" +
    "\n" +
    "输入： “嗯那个就是GitHub上怎么删除自己的那个仓库啊”\n" +
    "正确输出： “GitHub 上如何删除自己的仓库？”\n" +
    "错误输出（绝对禁止）： “在 GitHub 上删除仓库的步骤如下：1. 登录……” （此输出违反了‘绝对不要回答、解释或展开原文中的任何问题’以及‘绝对不要把问句改成陈述句或回答句’的核心禁令。）\n"

  const PlainHead := "\n\n原文："
  const HistoryHead := "\n\n以下是用户过去的对话记录，仅供参考。它们可以帮助你理解用户常用的专有名词、人名、术语和表达习惯，但不要直接复制历史内容到输出中：\n"
  const HistoryMid := "\n\n当前需要优化的语音转录原文：\n"
  const Closing := "\n\n请直接输出优化后的文字，不需要任何解释、标记或前缀。"

  /** The module-level `OPTIMIZE_PROMPT`. */
  const OptimizePrompt: seq<Piece> := [Lit(OptimizeRules + PlainHead), Field("text"), Lit(Closing)]

  /** The module-level `OPTIMIZE_PROMPT_WITH_HISTORY`. */
  const OptimizePromptWithHistory: seq<Piece> :=
    [Lit(OptimizeRules + HistoryHead), Field("history"), Lit(HistoryMid), Field("text"), Lit(Closing)]

  /** The module-level `TRANSLATE_PROMPT`. */
  const TranslatePrompt: seq<Piece> := [Lit(TranslateHead), Field("target_language"), Lit(TranslateMid), Field("text")]

  /** The templates `build_optimize_prompt` formats and appends to the rules. */
  const PlainTemplate: seq<Piece> := [Lit(PlainHead), Field("text"), Lit(Closing)]
  const HistoryTemplate: seq<Piece> := [Lit(HistoryHead), Field("history"), Lit(HistoryMid), Field("text"), Lit(Closing)]

  /** The rules in force: the stripped override, or the built-in rules when the
      override is absent, empty or only whitespace. */
  function EffectiveRules(rulesOverride: Option<string>): (rules: string)
    ensures rulesOverride.Some? && Strip(rulesOverride.value) != "" ==> rules == Strip(rulesOverride.value)
    ensures rulesOverride.None? || Strip(rulesOverride.value) == "" ==> rules == OptimizeRules
  {
    var given := Strip(if rulesOverride.Some? then rulesOverride.value else "");
    if given != "" then given else OptimizeRules
  }

  lemma FormatThree(a: string, f: string, b: string, args: map<string, string>)
    requires f in args
    ensures Fills([Lit(a), Field(f), Lit(b)], args)
    ensures Format([Lit(a), Field(f), Lit(b)], args) == a + args[f] + b
  {
    var t := [Lit(a), Field(f), Lit(b)];
    assert Format(t[2..], args) == b by { assert t[2..][1..] == []; }
    assert Format(t[1..], args) == args[f] + b by { assert t[1..][1..] == t[2..]; }
  }

  lemma FormatFour(a: string, f: string, b: string, g: string, args: map<string, string>)
    requires f in args && g in args
    ensures Fills([Lit(a), Field(f), Lit(b), Field(g)], args)
    ensures Format([Lit(a), Field(f), Lit(b), Field(g)], args) == a + args[f] + b + args[g]
  {
    var t := [Lit(a), Field(f), Lit(b), Field(g)];
    assert Format(t[3..], args) == args[g] by { assert t[3..][1..] == []; }
    assert Format(t[2..], args) == b + args[g] by { assert t[2..][1..] == t[3..]; }
    assert Format(t[1..], args) == args[f] + b + args[g] by { assert t[1..][1..] == t[2..]; }
  }

  lemma FormatFive(a: string, f: string, b: string, g: string, c: string, args: map<string, string>)
    requires f in args && g in args
    ensures Fills([Lit(a), Field(f), Lit(b), Field(g), Lit(c)], args)
    ensures Format([Lit(a), Field(f), Lit(b), Field(g), Lit(c)], args) == a + args[f] + b + args[g] + c
  {
    var t := [Lit(a), Field(f), Lit(b), Field(g), Lit(c)];
    assert Format(t[4..], args) == c by { assert t[4..][1..] == []; }
    assert Format(t[3..], args) == args[g] + c by { assert t[3..][1..] == t[4..]; }
    assert Format(t[2..], args) == b + args[g] + c by { assert t[2..][1..] == t[3..]; }
    assert Format(t[1..], args) == args[f] + b + args[g] + c by { assert t[1..][1..] == t[2..]; }
  }

  /** `build_optimize_prompt(text, history, rules_override)`: the rules in
      force, then the history template when the history is non-empty, the
      plain one otherwise. */
  function BuildOptimizePrompt(text: string, history: Option<string>, rulesOverride: Option<string>): (prompt: string)
    ensures StartsWith(prompt, EffectiveRules(rulesOverride))
    ensures EndsWith(prompt, text + Closing)
  {
    PromptAfterRules(EffectiveRules(rulesOverride), text, history)
  }

  /** The prompt once the rules are chosen. */
  function PromptAfterRules(rules: string, text: string, history: Option<string>): (prompt: string)
    ensures StartsWith(prompt, rules)
    ensures EndsWith(prompt, text + Closing)
  {
    if history.Some? && history.value != "" then
      var args := map["history" := history.value, "text" := text];
      FormatFive(HistoryHead, "history", HistoryMid, "text", Closing, args);
      var body := Format(HistoryTemplate, args);
      AppendAssoc(HistoryHead + history.value + HistoryMid, text, Closing);
      ConcatEndsWith(HistoryHead + history.value + HistoryMid, text + Closing);
      EndsWithExtended(rules, body, text + Closing);
      ConcatStartsWith(rules, body);
      rules + body
    else
      var args := map["text" := text];
      FormatThree(PlainHead, "text", Closing, args);
      var body := Format(PlainTemplate, args);
      AppendAssoc(PlainHead, text, Closing);
      ConcatEndsWith(PlainHead, text + Closing);
      EndsWithExtended(rules, body, text + Closing);
      ConcatStartsWith(rules, body);
      rules + body
  }

  /** Formatting the rules glued to a template's first literal is the same
      as appending the formatted template to the rules. */
  lemma {:induction false} PromptAfterRulesAsTemplate(rules: string, text: string, history: Option<string>)
    ensures history.None? || history.value == "" ==>
              PromptAfterRules(rules, text, history)
              == Format([Lit(rules + PlainHead), Field("text"), Lit(Closing)], map["text" := text])
    ensures history.Some? && history.value != "" ==>
              PromptAfterRules(rules, text, history)
              == Format([Lit(rules + HistoryHead), Field("history"), Lit(HistoryMid), Field("text"), Lit(Closing)],
                        map["history" := history.value, "text" := text])
  {
    if history.Some? && history.value != "" {
      var args := map["history" := history.value, "text" := text];
      FormatFive(HistoryHead, "history", HistoryMid, "text", Closing, args);
      FormatFive(rules + HistoryHead, "history", HistoryMid, "text", Closing, args);
      var h := history.value;
      calc {
        rules + (HistoryHead + h + HistoryMid + text + Closing);
        { AppendAssoc(rules, HistoryHead + h + HistoryMid + text, Closing); }
        rules + (HistoryHead + h + HistoryMid + text) + Closing;
        { AppendAssoc(rules, HistoryHead + h + HistoryMid, text); }
        rules + (HistoryHead + h + HistoryMid) + text + Closing;
        { AppendAssoc(rules, HistoryHead + h, HistoryMid); }
        rules + (HistoryHead + h) + HistoryMid + text + Closing;
        { AppendAssoc(rules, HistoryHead, h); }
        rules + HistoryHead + h + HistoryMid + text + Closing;
      }
    } else {
      var args := map["text" := text];
      FormatThree(PlainHead, "text", Closing, args);
      FormatThree(rules + PlainHead, "text", Closing, args);
      calc {
        rules + (PlainHead + text + Closing);
        { AppendAssoc(rules, PlainHead + text, Closing); }
        rules + (PlainHead + text) + Closing;
        { AppendAssoc(rules, PlainHead, text); }
        rules + PlainHead + text + Closing;
      }
    }
  }

  /** With the built-in rules and no history, the prompt is the module-level
      `OPTIMIZE_PROMPT`, formatted. */
  lemma DefaultRulesUsePlainTemplate(text: string, history: Option<string>)
    requires history.None? || history.value == ""
    ensures BuildOptimizePrompt(text, history, None) == Format(OptimizePrompt, map["text" := text])
  {
    PromptAfterRulesAsTemplate(OptimizeRules, text, history);
  }

  /** With the built-in rules and a non-empty history, the prompt is the
      module-level `OPTIMIZE_PROMPT_WITH_HISTORY`, formatted. */
  lemma DefaultRulesUseHistoryTemplate(text: string, history: string)
    requires history != ""
    ensures BuildOptimizePrompt(text, Some(history), None)
            == Format(OptimizePromptWithHistory, map["history" := history, "text" := text])
  {
    PromptAfterRulesAsTemplate(OptimizeRules, text, Some(history));
  }

  /** An empty history gives the same prompt as no history. */
  lemma EmptyHistoryIsNoHistory(text: string, rulesOverride: Option<string>)
    ensures BuildOptimizePrompt(text, Some(""), rulesOverride) == BuildOptimizePrompt(text, None, rulesOverride)
  {
  }

  /** A non-blank override opens the prompt exactly as written once stripped,
      braces included, and the built-in rules are not used. */
  lemma OverrideOpensPrompt(text: string, history: Option<string>, rulesOverride: string)
    requires Strip(rulesOverride) != ""
    ensures StartsWith(BuildOptimizePrompt(text, history, Some(rulesOverride)), Strip(rulesOverride))
  {
  }

  const TranslateHead := "请将以下文本翻译成"
  const TranslateMid := "，直接输出翻译结果，不需要任何解释：\n\n"

  /** `TRANSLATE_PROMPT.format(target_language=..., text=...)`: the target
      language after the opening words, the text verbatim at the end. */
  function BuildTranslatePrompt(text: string, targetLanguage: string): (prompt: string)
    ensures StartsWith(prompt, TranslateHead + targetLanguage)
    ensures EndsWith(prompt, TranslateMid + text)
  {
    var args := map["target_language" := targetLanguage, "text" := text];
    FormatFour(TranslateHead, "target_language", TranslateMid, "text", args);
    var prompt := Format(TranslatePrompt, args);
    AppendAssoc(TranslateHead + targetLanguage, TranslateMid, text);
    ConcatStartsWith(TranslateHead + targetLanguage, TranslateMid + text);
    ConcatEndsWith(TranslateHead + targetLanguage, TranslateMid + text);
    prompt
  }

  /** The request body: the model, streaming on and one user message holding
      the prompt; no temperature. */
  function ChatPayload(model: string, prompt: string): Json
  {
    Obj(map[
      "model" := Str(model),
      "stream" := Bool(true),
      "messages" := Arr([Obj(map["role" := Str("user"), "content" := Str(prompt)])])])
  }

  /** The prompt of a payload with exactly one user message. */
  function PromptOf(payload: Json): Option<string>
  {
    if !payload.Obj? || "messages" !in payload.fields then None
    else
      var msgs := payload.fields["messages"];
      if !msgs.Arr? || |msgs.items| != 1 || !msgs.items[0].Obj? then None
      else
        var msg := msgs.items[0].fields;
        if msg.Keys != {"role", "content"} || msg["role"] != Str("user") || !msg["content"].Str? then None
        else Some(msg["content"].s)
  }

  lemma PayloadCarriesPrompt(model: string, prompt: string)
    ensures var p := ChatPayload(model, prompt);
            p.fields.Keys == {"model", "stream", "messages"} && "temperature" !in p.fields
            && p.fields["model"] == Str(model) && p.fields["stream"] == Bool(true)
            && PromptOf(p) == Some(prompt)
  {
    var msg := map["role" := Str("user"), "content" := Str(prompt)];
    assert msg.Keys == {"role", "content"};
  }

  /** `LLMWorker.__init__` and the first lines of `run`. */
  function BuildRequest(baseUrl: string, model: string, apiKey: string, prompt: string): (r: Request)
    ensures r.url == ChatUrl(baseUrl)
    ensures PromptOf(r.payload) == Some(prompt)
    ensures "Authorization" in r.headers && r.headers["Authorization"] == "Bearer " + apiKey
  {
    PayloadCarriesPrompt(model, prompt);
    Request(ChatUrl(baseUrl), Headers(apiKey), ChatPayload(model, prompt))
  }

  /** What `LLMWorker.run` signals: the streamed chunks, then the accumulated
      text as it is (no cleaning) or an error. */
  function Outcome(response: Response, decode: string -> Option<Json>): WorkerResult
  {
    match response
    case TransportError => Errored([])
    case Body(lines) =>
      var o := Fold(lines, decode);
      if o.status.Completed? then Finished(o.emitted, o.text) else Errored(o.emitted)
  }

  method RunWorker(response: Response, decode: string -> Option<Json>) returns (result: WorkerResult)
    ensures result == Outcome(response, decode)
  {
    if response.TransportError? {
      return Errored([]);
    }
    var emitted, fullText, status := Run(response.lines, decode);
    if status.Completed? {
      result := Finished(emitted, fullText);
    } else {
      result := Errored(emitted);
    }
  }

  /** The finished text is exactly the concatenation of the emitted chunks. */
  lemma FinishedIsChunks(response: Response, decode: string -> Option<Json>)
    requires Outcome(response, decode).Finished?
    ensures Outcome(response, decode).text == Concat(Outcome(response, decode).chunks)
    ensures forall k :: 0 <= k < |Outcome(response, decode).chunks| ==> Outcome(response, decode).chunks[k] != ""
  {
    FoldTextIsConcat(response.lines, decode);
  }
}
