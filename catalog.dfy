/** The registry literal the process starts with, and how a JavaScript
    object literal turns its key/value pairs into a table. */
module Catalog {
  import opened Descriptors
  import opened Summary

  /** One entry of the literal. A `base_url` or `api_key_env` that the
      literal does not write is "" here and is not stored. */
  function Model(
    id: string, name: string, provider: string,
    apiType: string, baseUrl: string, apiKeyEnv: string, modelName: string,
    maxContext: nat, strengths: seq<string>, costPer1kTokens: real, priority: nat,
    isChinese: bool): Descriptor
  {
    var attributes := map[
      "api_type" := Text(apiType),
      "model_name" := Text(modelName),
      "max_context" := Number(maxContext as real),
      "strengths" := Texts(strengths),
      "cost_per_1k_tokens" := Number(costPer1kTokens),
      "priority" := Number(priority as real)];
    var withUrl := if baseUrl == "" then attributes else attributes["base_url" := Text(baseUrl)];
    var withKey := if apiKeyEnv == "" then withUrl else withUrl["api_key_env" := Text(apiKeyEnv)];
    Descriptor(id, name, provider, isChinese, true, withKey)
  }

  /** The key/value pairs of `modelsRegistry`, in the order written: the
      Chinese primary models, the international fallbacks, the local ones. */
  function Entries(): seq<(string, Descriptor)>
  {
    ChinesePrimary() + InternationalFallback() + LocalModels()
  }

  function ChinesePrimary(): seq<(string, Descriptor)>
  {
    [
    ("deepseek-v3.2", DeepseekV32),
    ("deepseek-r1", DeepseekR1),
    ("qwen3-max", Qwen3Max),
    ("qwen3-coder", Qwen3Coder),
    ("kimi-k2.5", KimiK25),
    ("kimi-k2", KimiK2),
    ("glm-5", Glm5),
    ("glm-5-plus", Glm5Plus),
    ("yi-coder", YiCoder),
    ("yi-large", YiLarge),
    ("yi-lightning", YiLightning),
    ("pangu-sigma", PanguSigma),
    ("pangu-coder", PanguCoder),
    ("doubao-2", Doubao2),
    ("doubao-lite", DoubaoLite),
    ("minimax-m2.5", MinimaxM25),
    ("minimax-abab7", MinimaxAbab7),
    ("baichuan-4", Baichuan4),
    ("step-2", Step2),
    ("hunyuan-large", HunyuanLarge),
    ("ernie-4.5", Ernie45),
    ("sensenova-5", Sensenova5)
    ]
  }

  function InternationalFallback(): seq<(string, Descriptor)>
  {
    [
    ("gpt-5.2", Gpt52),
    ("gpt-5.2-pro", Gpt52Pro),
    ("claude-opus-4.6", ClaudeOpus46),
    ("claude-sonnet-4.5", ClaudeSonnet45),
    ("gemini-3-flash", Gemini3Flash),
    ("grok-3", Grok3),
    ("codestral-2", Codestral2),
    ("llama-4", Llama4),
    ("deepseek-groq", DeepseekGroq),
    ("openrouter-auto", OpenrouterAuto)
    ]
  }

  function LocalModels(): seq<(string, Descriptor)>
  {
    [
    ("ollama-deepseek", OllamaDeepseek),
    ("ollama-qwen", OllamaQwen)
    ]
  }

  /** The object an object literal with these pairs denotes: each pair files
      its value under its key, and a later pair with the same key overwrites
      an earlier one. */
  function Index(ps: seq<(string, Descriptor)>): Models
  {
    if ps == [] then map[]
    else
      var last := ps[|ps| - 1];
      Index(ps[..|ps| - 1])[last.0 := last.1]
  }

  // The entries of the literal, one constant each.

  // Chinese primary models
  const DeepseekV32: Descriptor := Model("deepseek-v3.2", "DeepSeek V3.2", "DeepSeek",
    "openai_compatible", "https://api.deepseek.com/v1", "DEEPSEEK_API_KEY", "deepseek-v3.2",
    256000, ["coding", "algorithms", "backend", "debugging"], 0.0003, 10, true)

  const DeepseekR1: Descriptor := Model("deepseek-r1", "DeepSeek R1", "DeepSeek",
    "openai_compatible", "https://api.deepseek.com/v1", "DEEPSEEK_API_KEY", "deepseek-reasoner",
    128000, ["deep_reasoning", "mathematics", "research"], 0.0005, 10, true)

  const Qwen3Max: Descriptor := Model("qwen3-max", "Qwen3-Max", "Alibaba",
    "openai_compatible", "https://dashscope.aliyuncs.com/compatible-mode/v1", "DASHSCOPE_API_KEY", "qwen3-max",
    256000, ["enterprise", "code_generation", "fullstack"], 0.0005, 10, true)

  const Qwen3Coder: Descriptor := Model("qwen3-coder", "Qwen3-Coder", "Alibaba",
    "openai_compatible", "https://dashscope.aliyuncs.com/compatible-mode/v1", "DASHSCOPE_API_KEY", "qwen3-coder",
    256000, ["coding", "frontend", "backend", "devops"], 0.0004, 10, true)

  const KimiK25: Descriptor := Model("kimi-k2.5", "Kimi K2.5", "Moonshot AI",
    "openai_compatible", "https://api.moonshot.cn/v1", "MOONSHOT_API_KEY", "kimi-k2.5",
    2000000, ["ultra_long_context", "code_handling", "large_codebase"], 0.008, 10, true)

  const KimiK2: Descriptor := Model("kimi-k2", "Kimi K2", "Moonshot AI",
    "openai_compatible", "https://api.moonshot.cn/v1", "MOONSHOT_API_KEY", "kimi-k2",
    1000000, ["long_context", "code_review", "documentation"], 0.005, 9, true)

  const Glm5: Descriptor := Model("glm-5", "GLM-5", "Zhipu AI",
    "zhipuai", "", "GLM_API_KEY", "glm-5",
    256000, ["open_source", "general", "coding", "reasoning"], 0.002, 9, true)

  const Glm5Plus: Descriptor := Model("glm-5-plus", "GLM-5 Plus", "Zhipu AI",
    "zhipuai", "", "GLM_API_KEY", "glm-5-plus",
    512000, ["enterprise", "database", "multimodal"], 0.005, 9, true)

  const YiCoder: Descriptor := Model("yi-coder", "Yi-Coder", "01.AI",
    "openai_compatible", "https://api.lingyiwanwu.com/v1", "YI_API_KEY", "yi-coder",
    128000, ["coding", "code_completion", "debugging"], 0.0003, 10, true)

  const YiLarge: Descriptor := Model("yi-large", "Yi-Large", "01.AI",
    "openai_compatible", "https://api.lingyiwanwu.com/v1", "YI_API_KEY", "yi-large",
    256000, ["complex_reasoning", "research", "mathematics"], 0.003, 9, true)

  const YiLightning: Descriptor := Model("yi-lightning", "Yi-Lightning", "01.AI",
    "openai_compatible", "https://api.lingyiwanwu.com/v1", "YI_API_KEY", "yi-lightning",
    128000, ["fast", "simple_tasks"], 0.0001, 8, true)

  const PanguSigma: Descriptor := Model("pangu-sigma", "PanGu-Σ", "Huawei",
    "openai_compatible", "https://api.pangu.huawei.com/v1", "PANGU_API_KEY", "pangu-sigma",
    256000, ["research", "coding", "mathematics", "scientific"], 0.008, 9, true)

  const PanguCoder: Descriptor := Model("pangu-coder", "PanGu-Coder", "Huawei",
    "openai_compatible", "https://api.pangu.huawei.com/v1", "PANGU_API_KEY", "pangu-coder",
    128000, ["coding", "enterprise", "security"], 0.005, 8, true)

  const Doubao2: Descriptor := Model("doubao-2", "Doubao 2.0", "ByteDance",
    "openai_compatible", "https://ark.cn-beijing.volces.com/api/v3", "BYTEDANCE_API_KEY", "doubao-2-pro-256k",
    256000, ["general_agent", "language", "content", "creative"], 0.003, 9, true)

  const DoubaoLite: Descriptor := Model("doubao-lite", "Doubao Lite", "ByteDance",
    "openai_compatible", "https://ark.cn-beijing.volces.com/api/v3", "BYTEDANCE_API_KEY", "doubao-lite-128k",
    128000, ["fast", "simple_tasks"], 0.001, 8, true)

  const MinimaxM25: Descriptor := Model("minimax-m2.5", "MiniMax m2.5", "MiniMax",
    "minimax", "https://api.minimax.chat/v1", "MINIMAX_API_KEY", "m2.5-chat",
    256000, ["multimodal", "voice", "video", "creative"], 0.005, 9, true)

  const MinimaxAbab7: Descriptor := Model("minimax-abab7", "MiniMax abab7", "MiniMax",
    "minimax", "https://api.minimax.chat/v1", "MINIMAX_API_KEY", "abab7-chat",
    256000, ["general", "conversation"], 0.006, 8, true)

  const Baichuan4: Descriptor := Model("baichuan-4", "Baichuan 4", "Baichuan AI",
    "openai_compatible", "https://api.baichuan-ai.com/v1", "BAICHUAN_API_KEY", "Baichuan4",
    128000, ["security", "enterprise", "compliance"], 0.005, 8, true)

  const Step2: Descriptor := Model("step-2", "Step 2", "StepFun",
    "openai_compatible", "https://api.stepfun.com/v1", "STEPFUN_API_KEY", "step-2-16k",
    128000, ["reasoning", "mathematics", "step_by_step"], 0.008, 8, true)

  const HunyuanLarge: Descriptor := Model("hunyuan-large", "Hunyuan Large", "Tencent",
    "openai_compatible", "https://api.hunyuan.cloud.tencent.com/v1", "TENCENT_API_KEY", "hunyuan-large",
    128000, ["gaming", "social", "general"], 0.004, 8, true)

  const Ernie45: Descriptor := Model("ernie-4.5", "Ernie 4.5", "Baidu",
    "openai_compatible", "https://aip.baidubce.com/rpc/2.0/ai_custom/v1/wenxinworkshop", "BAIDU_API_KEY", "ernie-4.5-8k",
    128000, ["enterprise", "chinese_nlp", "knowledge_graph"], 0.008, 8, true)

  const Sensenova5: Descriptor := Model("sensenova-5", "SenseNova 5", "SenseTime",
    "openai_compatible", "https://api.sensenova.cn/v1", "SENSETIME_API_KEY", "sensenova-5",
    128000, ["computer_vision", "multimodal"], 0.006, 7, true)

  // International fallback models
  const Gpt52: Descriptor := Model("gpt-5.2", "GPT-5.2", "OpenAI",
    "openai", "https://api.openai.com/v1", "OPENAI_API_KEY", "gpt-5.2",
    200000, ["vision", "multimodal_complex", "frontend_generation"], 0.00175, 7, false)

  const Gpt52Pro: Descriptor := Model("gpt-5.2-pro", "GPT-5.2 Pro", "OpenAI",
    "openai", "https://api.openai.com/v1", "OPENAI_API_KEY", "gpt-5.2-pro",
    200000, ["deep_reasoning_complex", "mathematics_advanced"], 0.021, 6, false)

  const ClaudeOpus46: Descriptor := Model("claude-opus-4.6", "Claude Opus 4.6", "Anthropic",
    "anthropic", "", "ANTHROPIC_API_KEY", "claude-opus-4-6-20260201",
    1000000, ["code_review_complex", "security_audit", "long_context_review"], 0.005, 7, false)

  const ClaudeSonnet45: Descriptor := Model("claude-sonnet-4.5", "Claude Sonnet 4.5", "Anthropic",
    "anthropic", "", "ANTHROPIC_API_KEY", "claude-sonnet-4-5-20260115",
    500000, ["refactoring", "documentation"], 0.003, 6, false)

  const Gemini3Flash: Descriptor := Model("gemini-3-flash", "Gemini 3 Flash", "Google",
    "gemini", "", "GOOGLE_API_KEY", "gemini-3-flash",
    2000000, ["ultra_long_context", "fast_free"], 0.0, 7, false)

  const Grok3: Descriptor := Model("grok-3", "Grok 3", "xAI",
    "openai_compatible", "https://api.x.ai/v1", "XAI_API_KEY", "grok-3",
    256000, ["real_time_info", "truth_seeking"], 0.002, 6, false)

  const Codestral2: Descriptor := Model("codestral-2", "Codestral 2", "Mistral AI",
    "openai_compatible", "https://api.mistral.ai/v1", "MISTRAL_API_KEY", "codestral-2-latest",
    128000, ["fast_coding", "code_completion"], 0.0005, 6, false)

  const Llama4: Descriptor := Model("llama-4", "Llama 4", "Meta",
    "openai_compatible", "https://api.llama-api.com/v1", "LLAMA_API_KEY", "llama-4",
    512000, ["open_source", "general"], 0.001, 5, false)

  const DeepseekGroq: Descriptor := Model("deepseek-groq", "DeepSeek (Groq)", "Groq",
    "openai_compatible", "https://api.groq.com/openai/v1", "GROQ_API_KEY", "deepseek-r1",
    128000, ["ultra_fast", "free_tier"], 0.0, 7, true)

  const OpenrouterAuto: Descriptor := Model("openrouter-auto", "OpenRouter Auto", "OpenRouter",
    "openai_compatible", "https://openrouter.ai/api/v1", "OPENROUTER_API_KEY", "deepseek/deepseek-r1",
    128000, ["model_fallback", "cost_optimized"], 0.0003, 6, false)

  // Local models
  const OllamaDeepseek: Descriptor := Model("ollama-deepseek", "DeepSeek (Local)", "Ollama",
    "ollama", "http://localhost:11434", "", "deepseek-r1",
    128000, ["local", "free", "private", "offline"], 0.0, 5, true)

  const OllamaQwen: Descriptor := Model("ollama-qwen", "Qwen (Local)", "Ollama",
    "ollama", "http://localhost:11434", "", "qwen2.5-coder",
    128000, ["local", "free", "coding"], 0.0, 5, true)

  /** The registry at process start. */
  function InitialModels(): Models
  {
    Index(Entries())
  }

  ghost predicate DistinctKeys(ps: seq<(string, Descriptor)>)
  {
    forall i, j :: 0 <= i < j < |ps| ==> ps[i].0 != ps[j].0
  }

  /** Every key of the object comes from some pair, and its value is that
      pair's value. */
  lemma {:induction false} IndexEntry(ps: seq<(string, Descriptor)>, k: string)
    requires k in Index(ps)
    ensures exists i :: 0 <= i < |ps| && ps[i].0 == k && Index(ps)[k] == ps[i].1
  {
    var n := |ps| - 1;
    if ps[n].0 != k {
      IndexEntry(ps[..n], k);
      var i :| 0 <= i < n && ps[..n][i].0 == k && Index(ps[..n])[k] == ps[..n][i].1;
      assert ps[i].0 == k && Index(ps)[k] == ps[i].1;
    }
  }

  /** With no key written twice, every pair's value is found under its key. */
  lemma {:induction false} IndexAt(ps: seq<(string, Descriptor)>, i: nat)
    requires DistinctKeys(ps)
    requires i < |ps|
    ensures ps[i].0 in Index(ps) && Index(ps)[ps[i].0] == ps[i].1
  {
    var n := |ps| - 1;
    if i < n {
      assert DistinctKeys(ps[..n]);
      IndexAt(ps[..n], i);
      assert ps[..n][i] == ps[i];
    }
  }

  /** With no key written twice, the object has one key per pair. */
  lemma {:induction false} IndexSize(ps: seq<(string, Descriptor)>)
    requires DistinctKeys(ps)
    ensures |Index(ps)| == |ps|
  {
    if ps != [] {
      var n := |ps| - 1;
      assert DistinctKeys(ps[..n]);
      IndexSize(ps[..n]);
      LastKeyIsNew(ps);
      SizeAfterUpdate(Index(ps[..n]), ps[n].0, ps[n].1);
    }
  }

  lemma LastKeyIsNew(ps: seq<(string, Descriptor)>)
    requires DistinctKeys(ps)
    requires ps != []
    ensures ps[|ps| - 1].0 !in Index(ps[..|ps| - 1])
  {
    var n := |ps| - 1;
    if ps[n].0 in Index(ps[..n]) {
      IndexEntry(ps[..n], ps[n].0);
      assert false;
    }
  }

  /** The number of pairs whose value is Chinese. */
  function CountChinese(ps: seq<(string, Descriptor)>): nat
  {
    if ps == [] then 0
    else CountChinese(ps[..|ps| - 1]) + (if ps[|ps| - 1].1.isChinese then 1 else 0)
  }

  /** With no key written twice, the object has as many Chinese entries as
      there are Chinese pairs. */
  lemma {:induction false} IndexChinese(ps: seq<(string, Descriptor)>)
    requires DistinctKeys(ps)
    ensures |ChineseIds(Index(ps))| == CountChinese(ps)
  {
    if ps != [] {
      var n := |ps| - 1;
      assert DistinctKeys(ps[..n]);
      IndexChinese(ps[..n]);
      LastKeyIsNew(ps);
      ChineseCountAfterUpdate(Index(ps[..n]), ps[n].0, ps[n].1);
    }
  }

  /** A run of pairs that are all Chinese, or all not, adds its length, or
      nothing, to the count. */
  lemma {:induction false} CountChineseRun(ps: seq<(string, Descriptor)>, lo: nat, hi: nat, flag: bool)
    requires lo <= hi <= |ps|
    requires forall i :: lo <= i < hi ==> ps[i].1.isChinese == flag
    ensures CountChinese(ps[..hi]) == CountChinese(ps[..lo]) + (if flag then hi - lo else 0)
  {
    if lo < hi {
      CountChineseRun(ps, lo, hi - 1, flag);
      assert ps[..hi][..hi - 1] == ps[..hi - 1];
    }
  }

  /** No key of `a` is a key of `b`. */
  ghost predicate DisjointKeys(a: seq<(string, Descriptor)>, b: seq<(string, Descriptor)>)
  {
    forall i, j :: 0 <= i < |a| && 0 <= j < |b| ==> a[i].0 != b[j].0
  }

  ghost predicate AllKeyed(ps: seq<(string, Descriptor)>)
  {
    forall i :: 0 <= i < |ps| ==> Keyed(ps[i].0, ps[i].1)
  }

  /** Two runs of pairs with distinct keys, and no key in both, make a run
      with distinct keys. */
  lemma DistinctConcat(a: seq<(string, Descriptor)>, b: seq<(string, Descriptor)>)
    requires DistinctKeys(a) && DistinctKeys(b) && DisjointKeys(a, b)
    ensures DistinctKeys(a + b)
  {
    var ab := a + b;
    forall i, j | 0 <= i < j < |ab|
      ensures ab[i].0 != ab[j].0
    {
      if j < |a| {
        assert ab[i] == a[i] && ab[j] == a[j];
      } else if i < |a| {
        assert ab[i] == a[i] && ab[j] == b[j - |a|];
      } else {
        assert ab[i] == b[i - |a|] && ab[j] == b[j - |a|];
      }
    }
  }

  lemma DisjointConcat(a: seq<(string, Descriptor)>, b: seq<(string, Descriptor)>, c: seq<(string, Descriptor)>)
    requires DisjointKeys(a, c) && DisjointKeys(b, c)
    ensures DisjointKeys(a + b, c)
  {
    var ab := a + b;
    forall i, j | 0 <= i < |ab| && 0 <= j < |c|
      ensures ab[i].0 != c[j].0
    {
      if i < |a| {
        assert ab[i] == a[i];
      } else {
        assert ab[i] == b[i - |a|];
      }
    }
  }

  lemma KeyedConcat(a: seq<(string, Descriptor)>, b: seq<(string, Descriptor)>)
    requires AllKeyed(a) && AllKeyed(b)
    ensures AllKeyed(a + b)
  {
    var ab := a + b;
    forall i | 0 <= i < |ab|
      ensures Keyed(ab[i].0, ab[i].1)
    {
      if i < |a| {
        assert ab[i] == a[i];
      } else {
        assert ab[i] == b[i - |a|];
      }
    }
  }

  /** The Chinese count of two runs is the sum of their counts. */
  lemma {:induction false} CountChineseConcat(a: seq<(string, Descriptor)>, b: seq<(string, Descriptor)>)
    ensures CountChinese(a + b) == CountChinese(a) + CountChinese(b)
  {
    if b == [] {
      assert a + b == a;
    } else {
      var n := |b| - 1;
      assert (a + b)[..|a + b| - 1] == a + b[..n];
      assert (a + b)[|a + b| - 1] == b[n];
      CountChineseConcat(a, b[..n]);
    }
  }

  /** A run whose pairs all have the same flag counts its length or nothing. */
  lemma {:induction false} CountUniform(ps: seq<(string, Descriptor)>, flag: bool)
    requires forall i :: 0 <= i < |ps| ==> ps[i].1.isChinese == flag
    ensures CountChinese(ps) == if flag then |ps| else 0
  {
    CountChineseRun(ps, 0, |ps|, flag);
    assert ps[..|ps|] == ps;
    assert ps[..0] == [];
  }

  // Facts about each section, each checked on that section's literal alone.

  lemma ChinesePrimaryShape()
    ensures |ChinesePrimary()| == 22
    ensures AllKeyed(ChinesePrimary())
    ensures forall i :: 0 <= i < 22 ==> ChinesePrimary()[i].1.isChinese
  {
  }

  /** The 22 Chinese keys are distinct: checked within each half of the
      section and across the halves. */
  lemma ChinesePrimaryDistinct()
    ensures DistinctKeys(ChinesePrimary())
  {
    ChinesePrimaryShape();
    ChineseFirstHalfDistinct();
    ChineseSecondHalfDistinct();
    ChineseHalvesDisjoint();
  }

  lemma ChineseFirstHalfDistinct()
    ensures forall i, j :: 0 <= i < j < 11 ==> ChinesePrimary()[i].0 != ChinesePrimary()[j].0
  {
  }

  lemma ChineseSecondHalfDistinct()
    ensures |ChinesePrimary()| == 22
    ensures forall i, j :: 11 <= i < j < 22 ==> ChinesePrimary()[i].0 != ChinesePrimary()[j].0
  {
  }

  lemma ChineseHalvesDisjoint()
    ensures |ChinesePrimary()| == 22
    ensures forall i, j :: 0 <= i < 11 <= j < 22 ==> ChinesePrimary()[i].0 != ChinesePrimary()[j].0
  {
  }

  lemma InternationalFallbackShape()
    ensures |InternationalFallback()| == 10
    ensures AllKeyed(InternationalFallback())
    ensures forall i :: 0 <= i < 8 ==> !InternationalFallback()[i].1.isChinese
    ensures InternationalFallback()[8].1.isChinese && !InternationalFallback()[9].1.isChinese
  {
  }

  lemma InternationalFallbackDistinct()
    ensures DistinctKeys(InternationalFallback())
  {
  }

  lemma LocalModelsShape()
    ensures |LocalModels()| == 2
    ensures AllKeyed(LocalModels())
    ensures DistinctKeys(LocalModels())
    ensures LocalModels()[0].1.isChinese && LocalModels()[1].1.isChinese
  {
  }

  /** No key appears in two sections. */
  lemma SectionsDisjoint()
    ensures DisjointKeys(ChinesePrimary(), InternationalFallback())
    ensures DisjointKeys(ChinesePrimary(), LocalModels())
    ensures DisjointKeys(InternationalFallback(), LocalModels())
  {
    ChineseInternationalDisjoint();
    ChineseLocalDisjoint();
    InternationalLocalDisjoint();
  }

  lemma ChineseInternationalDisjoint()
    ensures DisjointKeys(ChinesePrimary(), InternationalFallback())
  {
  }

  lemma ChineseLocalDisjoint()
    ensures DisjointKeys(ChinesePrimary(), LocalModels())
  {
  }

  lemma InternationalLocalDisjoint()
    ensures DisjointKeys(InternationalFallback(), LocalModels())
  {
  }

  /** No key is written twice in the literal, and every pair is keyed by its
      entry's id. */
  lemma EntriesDistinctAndKeyed()
    ensures |Entries()| == 34
    ensures DistinctKeys(Entries())
    ensures AllKeyed(Entries())
  {
    var c, f, l := ChinesePrimary(), InternationalFallback(), LocalModels();
    ChinesePrimaryShape();
    ChinesePrimaryDistinct();
    InternationalFallbackShape();
    InternationalFallbackDistinct();
    LocalModelsShape();
    SectionsDisjoint();
    DistinctConcat(c, f);
    DisjointConcat(c, f, l);
    DistinctConcat(c + f, l);
    KeyedConcat(c, f);
    KeyedConcat(c + f, l);
  }

  /** 25 pairs of the literal are Chinese: the 22 Chinese primary models,
      the Groq-hosted DeepSeek among the international fallbacks, and the two
      local Ollama models. */
  lemma EntriesChinese()
    ensures CountChinese(Entries()) == 25
  {
    var c, f, l := ChinesePrimary(), InternationalFallback(), LocalModels();
    ChinesePrimaryShape();
    InternationalFallbackShape();
    LocalModelsShape();
    CountUniform(c, true);
    CountChineseRun(f, 0, 8, false);
    CountChineseRun(f, 8, 9, true);
    CountChineseRun(f, 9, 10, false);
    assert f[..10] == f && f[..0] == [];
    CountUniform(l, true);
    CountChineseConcat(c, f);
    CountChineseConcat(c + f, l);
  }

  /** A name that no pair of the literal uses is not a key of the registry
      at process start. */
  lemma AbsentFromInitial(k: string)
    requires forall i :: 0 <= i < |Entries()| ==> Entries()[i].0 != k
    ensures k !in InitialModels()
  {
    if k in InitialModels() {
      IndexEntry(Entries(), k);
      assert false;
    }
  }

  /** The registry invariant holds at process start. */
  lemma InitialWellFormed()
    ensures WellFormed(InitialModels())
  {
    var ps := Entries();
    EntriesDistinctAndKeyed();
    forall k | k in Index(ps)
      ensures Keyed(k, Index(ps)[k])
    {
      IndexEntry(ps, k);
    }
  }

  /** The literal holds 34 models, 25 of them Chinese. */
  lemma InitialCounts()
    ensures |InitialModels()| == 34
    ensures |ChineseIds(InitialModels())| == 25
  {
    EntriesDistinctAndKeyed();
    EntriesChinese();
    IndexSize(Entries());
    IndexChinese(Entries());
  }

  /** Any registry of 34 models, 25 of them Chinese, is summarised as 9
      international models and 25 / 34 = 73.5...% rounded to 74. */
  lemma SummaryOf34With25(m: Models)
    requires |m| == 34
    requires |ChineseIds(m)| == 25
    ensures Summarize(m) == Stats(34, 25, 9, Some(74), m)
  {
    assert (200 * 25 + 34) / (2 * 34) == 74;
  }

  /** GET on the registry as it starts. */
  lemma InitialSummary()
    ensures Summarize(InitialModels()) == Stats(34, 25, 9, Some(74), InitialModels())
  {
    InitialCounts();
    SummaryOf34With25(InitialModels());
  }
}
