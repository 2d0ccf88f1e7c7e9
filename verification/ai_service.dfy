/**
  The AI service: the queue processor's job dispatch and provider defaults,
  the provider factory, and the two providers' text, analysis and embedding
  operations. The language models, the embedding endpoint and `JSON.parse`
  are uninterpreted functions passed in as `Backend` values.
*/
module AiService {
  import opened Wrappers
  import opened Contracts
  import opened Text

  const GenerateTextJob := "generate_text"
  const AnalyzeTextJob := "analyze_text"
  const GenerateEmbeddingJob := "generate_embedding"
  const DefaultProviderName := "xai"
  /** The model name every embedding result reports. */
  const EmbeddingModel := "text-embedding-3-small"
  const XaiTextModel := "grok-4-1-fast-reasoning"
  const XaiAnalysisModel := "grok-beta"
  const OpenAiTextModel := "gpt-4o-mini"
  const XaiErrorSummary := "Error analyzing text"
  const XaiNoEmbedding := "Embedding generation not implemented for xAI provider"
  /** How many characters of the input the OpenAI fallback summary keeps. */
  const FallbackSummaryLength := 100

  /** `GenerationOptions` */
  datatype GenerationOptions = GenerationOptions(maxTokens: Option<int>, temperature: Option<real>, model: Option<string>)

  /** The providers the service knows. */
  datatype Provider = XAiProvider | OpenAiProvider

  /**
    One provider's remote endpoints: `generate` answers a prompt with a model
    name and options, `structured` is the schema-constrained analysis call,
    `embed` the embedding call; each gives the text or the error it fails
    with. `parse` is `JSON.parse` on an analysis reply, `None` for a syntax error.
  */
  datatype Backend = Backend(
    generate: (string, Prompt, GenerationOptions) -> Result<string, string>,
    structured: (string, string) -> Result<AiAnalysis, string>,
    embed: (string, string) -> Result<seq<real>, string>,
    parse: string -> Option<AiAnalysis>)

  /**
    The processor's collaborators. `AiProviderFactory` has no
    `getEmbeddingProvider`, so the provider it would give is an input.
  */
  datatype AiEnv = AiEnv(xai: Backend, openai: Backend, embeddingProvider: Result<Provider, string>)

  /** The data of an AI job: the union of the three payloads. */
  datatype AiJobData = AiJobData(prompt: string, text: string, provider: Option<string>, options: GenerationOptions)

  /** What a job returns; `NoOutput` is the `undefined` of an unknown job. */
  datatype AiOutput =
    | TextOutput(text: string)
    | AnalysisOutput(analysis: AiAnalysis)
    | EmbeddingOutput(result: EmbeddingResult)
    | NoOutput

  // Provider factory

  /** `toLowerCase` on the ASCII letters. */
  function AsciiLower(s: string): (r: string)
    ensures |r| == |s|
    ensures forall i | 0 <= i < |s| :: r[i] == if 'A' <= s[i] <= 'Z' then (s[i] as int + 32) as char else s[i]
  {
    if |s| == 0 then ""
    else [if 'A' <= s[0] <= 'Z' then (s[0] as int + 32) as char else s[0]] + AsciiLower(s[1..])
  }

  /**
    Whether `name.toLowerCase()` is `xai`. Only `X`, `A` and `I` lower-case to
    those letters, so comparing the ASCII lower-case form is exact.
  */
  predicate NamesXai(name: string) {
    AsciiLower(name) == DefaultProviderName
  }

  function UnsupportedProvider(name: string): string {
    "Unsupported AI provider: " + name
  }

  /** `getProvider`: the one injected xAI provider for `xai` in any letter case, a refusal otherwise. */
  function GetProvider(name: string): (r: Result<Provider, string>)
    ensures r.Ok? <==> NamesXai(name)
    ensures r.Ok? ==> r.value == XAiProvider
    ensures r.Err? ==> r.error == UnsupportedProvider(name)
  {
    if NamesXai(name) then Ok(XAiProvider) else Err(UnsupportedProvider(name))
  }

  /** Every spelling of `xai` up to letter case selects the xAI provider. */
  lemma XaiCaseInsensitive()
    ensures GetProvider("xai") == GetProvider("XAI") == GetProvider("xAI") == GetProvider("XaI") == Ok(XAiProvider)
  {
    assert AsciiLower("XAI") == "xai";
    assert AsciiLower("xAI") == "xai";
    assert AsciiLower("XaI") == "xai";
  }

  /** OpenAI and Gemini are not registered: asking for them is refused, whatever the case. */
  lemma OtherProvidersRefused(name: string)
    requires AsciiLower(name) in {"openai", "gemini"}
    ensures GetProvider(name) == Err(UnsupportedProvider(name))
  {
  }

  // xAI provider

  /**
    The prompt a provider sends, kept in structured form so that the fixed
    instructions stay out of the proofs; `RenderPrompt` gives its text.
  */
  datatype Prompt = FreePrompt(prompt: string) | XaiAnalysisPrompt(text: string)

  /** The text of a prompt: the xAI analysis prompt is fixed instructions followed by the text. */
  function RenderPrompt(p: Prompt): string {
    match p
    case FreePrompt(prompt) => prompt
    case XaiAnalysisPrompt(text) =>
      "Analyze the following text. Provide a summary, detect the sentiment, and extract key keywords. "
      + "Return the result in JSON format with keys: \"summary\", \"sentiment\", \"keywords\".\n    \n    Text:\n    "
      + text
  }

  /** The reply with every "```json" removed, then every "```" removed, then trimmed. */
  function CleanJson(reply: string): (r: string)
    ensures |r| <= |reply|
  {
    Trim(RemoveAll(RemoveAll(reply, "```json"), "```"))
  }

  /** A reply that holds no backtick is only trimmed. */
  lemma PlainReplyTrimmed(reply: string)
    requires '`' !in reply
    ensures CleanJson(reply) == Trim(reply)
  {
    RemoveAllKeepsPrefix(reply, "", "```json");
    RemoveAllKeepsPrefix(reply, "", "```");
    assert reply + "" == reply;
  }

  /** A reply wrapped in a json code fence is unwrapped to its trimmed body. */
  lemma FencedReplyUnwrapped(body: string)
    requires '`' !in body
    ensures CleanJson("```json" + body + "```") == Trim(body)
  {
    var fenced := "```json" + body + "```";
    assert fenced[7..] == body + "```";
    assert RemoveAll(fenced, "```json") == RemoveAll(body + "```", "```json");
    RemoveAllKeepsPrefix(body, "```", "```json");
    assert !("```json" <= "```");
    assert RemoveAll("```", "```json") == "```";
    RemoveAllKeepsPrefix(body, "```", "```");
    assert RemoveAll("```", "```") == "";
    assert body + "" == body;
  }

  /** The analysis the xAI provider returns when anything goes wrong. */
  const XaiFallback := AiAnalysis(XaiErrorSummary, Unknown, [], None, None, None, None)

  /** `XAiProvider.generateText`: errors are rethrown; the model defaults when none (or an empty one) is given. */
  function XaiGenerateText(b: Backend, prompt: Prompt, options: GenerationOptions): (r: Result<string, string>)
    ensures options.model.None? || options.model == Some("") ==> r == b.generate(XaiTextModel, prompt, options)
    ensures options.model.Some? && options.model.value != "" ==> r == b.generate(options.model.value, prompt, options)
  {
    var model := if options.model.Some? && options.model.value != "" then options.model.value else XaiTextModel;
    b.generate(model, prompt, options)
  }

  /** The options the xAI analysis call uses. */
  const XaiAnalysisOptions := GenerationOptions(None, Some(0.3), Some(XaiAnalysisModel))

  /** `XAiProvider.analyzeText`: never fails; a failed call or an unparsable reply gives the fallback. */
  function XaiAnalyzeText(b: Backend, text: string): (r: AiAnalysis)
    ensures b.generate(XaiAnalysisModel, XaiAnalysisPrompt(text), XaiAnalysisOptions).Err? ==> r == XaiFallback
    ensures var reply := b.generate(XaiAnalysisModel, XaiAnalysisPrompt(text), XaiAnalysisOptions);
      reply.Ok? ==> r == b.parse(CleanJson(reply.value)).GetOr(XaiFallback)
  {
    match XaiGenerateText(b, XaiAnalysisPrompt(text), XaiAnalysisOptions)
    case Err(_) => XaiFallback
    case Ok(reply) =>
      match b.parse(CleanJson(reply))
      case None => XaiFallback
      case Some(a) => a
  }

  /** A fenced JSON reply is analysed as its body. */
  lemma XaiReadsFencedReply(b: Backend, text: string, body: string)
    requires '`' !in body
    requires b.generate(XaiAnalysisModel, XaiAnalysisPrompt(text), XaiAnalysisOptions) == Ok("```json" + body + "```")
    ensures XaiAnalyzeText(b, text) == b.parse(Trim(body)).GetOr(XaiFallback)
  {
    FencedReplyUnwrapped(body);
  }

  /** `XAiProvider.generateEmbedding` fails on every input. */
  function XaiGenerateEmbedding(text: string): (r: Result<seq<real>, string>)
    ensures r == Err(XaiNoEmbedding)
  {
    Err(XaiNoEmbedding)
  }

  // OpenAI provider

  /** `OpenAiProvider.generateText`: errors are rethrown; the model defaults when none (or an empty one) is given. */
  function OpenAiGenerateText(b: Backend, prompt: Prompt, options: GenerationOptions): (r: Result<string, string>)
    ensures options.model.None? || options.model == Some("") ==> r == b.generate(OpenAiTextModel, prompt, options)
    ensures options.model.Some? && options.model.value != "" ==> r == b.generate(options.model.value, prompt, options)
  {
    var model := if options.model.Some? && options.model.value != "" then options.model.value else OpenAiTextModel;
    b.generate(model, prompt, options)
  }

  /** The OpenAI fallback: the first 100 characters of the text and an ellipsis. */
  function OpenAiFallback(text: string): (a: AiAnalysis)
    ensures a.summary == Take(text, FallbackSummaryLength) + "..."
    ensures |a.summary| <= FallbackSummaryLength + 3 && a.summary[..|a.summary| - 3] <= text
    ensures a.sentiment == Unknown && a.keywords == []
  {
    AiAnalysis(Take(text, FallbackSummaryLength) + "...", Unknown, [], None, None, None, None)
  }

  /** `OpenAiProvider.analyzeText`: never fails; a failed structured call gives the truncated-text fallback. */
  function OpenAiAnalyzeText(b: Backend, text: string): (r: AiAnalysis)
    ensures b.structured(OpenAiTextModel, text).Ok? ==> r == b.structured(OpenAiTextModel, text).value
    ensures b.structured(OpenAiTextModel, text).Err? ==> r == OpenAiFallback(text)
  {
    match b.structured(OpenAiTextModel, text)
    case Ok(a) => a
    case Err(_) => OpenAiFallback(text)
  }

  /** `OpenAiProvider.generateEmbedding`: the embedding of the text under the fixed model; errors are rethrown. */
  function OpenAiGenerateEmbedding(b: Backend, text: string): (r: Result<seq<real>, string>)
    ensures r == b.embed(EmbeddingModel, text)
  {
    b.embed(EmbeddingModel, text)
  }

  // Dispatch over providers

  function GenerateText(p: Provider, env: AiEnv, prompt: Prompt, options: GenerationOptions): Result<string, string> {
    match p
    case XAiProvider => XaiGenerateText(env.xai, prompt, options)
    case OpenAiProvider => OpenAiGenerateText(env.openai, prompt, options)
  }

  function AnalyzeText(p: Provider, env: AiEnv, text: string): AiAnalysis {
    match p
    case XAiProvider => XaiAnalyzeText(env.xai, text)
    case OpenAiProvider => OpenAiAnalyzeText(env.openai, text)
  }

  function GenerateEmbedding(p: Provider, env: AiEnv, text: string): Result<seq<real>, string> {
    match p
    case XAiProvider => XaiGenerateEmbedding(text)
    case OpenAiProvider => OpenAiGenerateEmbedding(env.openai, text)
  }

  // Processor

  /** `data.provider || 'xai'` */
  function ProviderName(provider: Option<string>): (name: string)
    ensures name != ""
    ensures provider.Some? && provider.value != "" ==> name == provider.value
    ensures provider.None? || provider == Some("") ==> name == DefaultProviderName
  {
    if provider.Some? && provider.value != "" then provider.value else DefaultProviderName
  }

  /** The provider an embedding job uses: the named one when a name is given, else the default embedding provider. */
  function EmbeddingProviderFor(provider: Option<string>, env: AiEnv): (r: Result<Provider, string>)
    ensures provider.Some? && provider.value != "" ==> r == GetProvider(provider.value)
    ensures provider.None? || provider == Some("") ==> r == env.embeddingProvider
  {
    if provider.Some? && provider.value != "" then GetProvider(provider.value) else env.embeddingProvider
  }

  /** `handleGenerateEmbedding`: the embedding with its model name and dimension count. */
  function HandleGenerateEmbedding(data: AiJobData, env: AiEnv): (r: Result<EmbeddingResult, string>)
    ensures r.Ok? ==> r.value.model == EmbeddingModel && r.value.dimensions == |r.value.embedding|
    ensures r.Ok? <==> (EmbeddingProviderFor(data.provider, env).Ok?
      && GenerateEmbedding(EmbeddingProviderFor(data.provider, env).value, env, data.text).Ok?)
    ensures r.Ok? ==> r.value.embedding == GenerateEmbedding(EmbeddingProviderFor(data.provider, env).value, env, data.text).value
  {
    match EmbeddingProviderFor(data.provider, env)
    case Err(e) => Err(e)
    case Ok(p) =>
      match GenerateEmbedding(p, env, data.text)
      case Err(e) => Err(e)
      case Ok(embedding) => Ok(EmbeddingResult(embedding, EmbeddingModel, |embedding|))
  }

  /** `AiProcessor.process`: the output of a job, or the error it is rethrown with. */
  function Process(jobName: string, data: AiJobData, env: AiEnv): (r: Result<AiOutput, string>)
    ensures jobName == GenerateTextJob && !NamesXai(ProviderName(data.provider)) ==>
      r == Err(UnsupportedProvider(ProviderName(data.provider)))
    ensures jobName == GenerateTextJob && NamesXai(ProviderName(data.provider)) ==>
      var answer := XaiGenerateText(env.xai, FreePrompt(data.prompt), data.options);
      (r.Ok? <==> answer.Ok?) && (r.Ok? ==> r.value == TextOutput(answer.value)) && (r.Err? ==> r.error == answer.error)
    ensures jobName == AnalyzeTextJob ==>
      (r.Ok? <==> NamesXai(ProviderName(data.provider)))
    ensures jobName == AnalyzeTextJob && r.Ok? ==> r.value == AnalysisOutput(XaiAnalyzeText(env.xai, data.text))
    ensures jobName == GenerateEmbeddingJob ==>
      (r.Ok? <==> HandleGenerateEmbedding(data, env).Ok?)
    ensures jobName == GenerateEmbeddingJob && r.Ok? ==> r.value == EmbeddingOutput(HandleGenerateEmbedding(data, env).value)
    ensures jobName !in {GenerateTextJob, AnalyzeTextJob, GenerateEmbeddingJob} ==> r == Ok(NoOutput)
  {
    if jobName == GenerateTextJob then
      match GetProvider(ProviderName(data.provider))
      case Err(e) => Err(e)
      case Ok(p) =>
        match GenerateText(p, env, FreePrompt(data.prompt), data.options)
        case Err(e) => Err(e)
        case Ok(t) => Ok(TextOutput(t))
    else if jobName == AnalyzeTextJob then
      match GetProvider(ProviderName(data.provider))
      case Err(e) => Err(e)
      case Ok(p) => Ok(AnalysisOutput(AnalyzeText(p, env, data.text)))
    else if jobName == GenerateEmbeddingJob then
      match HandleGenerateEmbedding(data, env)
      case Err(e) => Err(e)
      case Ok(res) => Ok(EmbeddingOutput(res))
    else Ok(NoOutput)
  }

  /** Text generation without a provider name goes to xAI with the job's prompt and options. */
  lemma TextJobDefaultsToXai(data: AiJobData, env: AiEnv)
    requires data.provider.None? || data.provider == Some("")
    ensures Process(GenerateTextJob, data, env) == match XaiGenerateText(env.xai, FreePrompt(data.prompt), data.options)
      case Err(e) => Err(e)
      case Ok(t) => Ok(TextOutput(t))
  {
  }

  /** Analysis through the processor never fails for xAI, and fails only for an unsupported provider name. */
  lemma AnalysisJobFailsOnlyOnProvider(data: AiJobData, env: AiEnv)
    ensures Process(AnalyzeTextJob, data, env).Err? <==> data.provider.Some? && data.provider.value != "" && !NamesXai(data.provider.value)
    ensures Process(AnalyzeTextJob, data, env).Err? ==> Process(AnalyzeTextJob, data, env).error == UnsupportedProvider(data.provider.value)
  {
  }

  /**
    An embedding job that names its provider always fails: the factory only
    knows xAI, and xAI has no embeddings.
  */
  lemma NamedEmbeddingProviderFails(data: AiJobData, env: AiEnv)
    requires data.provider.Some? && data.provider.value != ""
    ensures Process(GenerateEmbeddingJob, data, env).Err?
    ensures NamesXai(data.provider.value) ==> Process(GenerateEmbeddingJob, data, env) == Err(XaiNoEmbedding)
  {
  }

  /** With the OpenAI provider as the default, an embedding job returns the endpoint's vector under the fixed model name. */
  lemma DefaultEmbeddingFromOpenAi(data: AiJobData, env: AiEnv, vector: seq<real>)
    requires data.provider.None? || data.provider == Some("")
    requires env.embeddingProvider == Ok(OpenAiProvider)
    requires env.openai.embed(EmbeddingModel, data.text) == Ok(vector)
    ensures Process(GenerateEmbeddingJob, data, env) == Ok(EmbeddingOutput(EmbeddingResult(vector, EmbeddingModel, |vector|)))
  {
  }

  /** An unknown job calls nothing and returns nothing. */
  lemma UnknownJobIgnored(jobName: string, data: AiJobData, env: AiEnv, env': AiEnv)
    requires jobName !in {GenerateTextJob, AnalyzeTextJob, GenerateEmbeddingJob}
    ensures Process(jobName, data, env) == Process(jobName, data, env') == Ok(NoOutput)
  {
  }
}
