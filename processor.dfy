/** The processor of `src/snap_ai/core/processor.py`: backend selection at
    construction, the three extraction adapters with their error folding,
    the display name of the active model, and `process_document`. The HTTP
    calls, the transformer pipeline, the LangChain client and the trained
    classifier are parameters: what they return is given, not computed. */
module Processor {
  import opened Wrappers
  import opened Dicts
  import opened Json
  import opened Strs
  import opened Models
  import opened Scoring
  import opened ResponseParser
  import opened Prompts
  import opened PostProcess

  // ------------------------------------------------------ configuration

  /** The settings the processor reads from its configuration. */
  datatype Config = Config(
    openaiApiKey: Option<string>,
    modelName: string,
    ollamaModel: string,
    ollamaUrl: string,
    hfModel: string,
    confidenceThreshold: real)

  /** The settings when no environment variable overrides them. */
  const DefaultConfig: Config :=
    Config(None, "gpt-4", "llama2", "http://localhost:11434", "microsoft/DialoGPT-small", DefaultThreshold)

  // ------------------------------------------------------------ probes

  /** How `GET {ollama_url}/api/tags` ended: a status code, or an exception
      (a refused connection, the 5-second timeout). */
  datatype TagsReply = TagsStatus(code: int) | TagsRaised(message: string)

  /** What the three probes find when they run. */
  datatype Environment = Environment(
    ollamaTags: TagsReply,
    hfPipelineLoads: bool,     // `transformers.pipeline(...)` returns without raising
    langchainAvailable: bool,  // the LangChain import at module load succeeded
    openaiClientBuilds: bool)  // `OpenAI(...)` returns without raising

  /** `_init_ollama`: the tags call answered 200; any exception is a failure. */
  predicate OllamaReachable(env: Environment) {
    env.ollamaTags == TagsStatus(200)
  }

  /** `OPENAI_API_KEY` is set and not empty. */
  predicate HasApiKey(config: Config) {
    config.openaiApiKey.Some? && config.openaiApiKey.value != ""
  }

  /** `_init_openai`: LangChain is importable, a key is configured, and the
      client builds. */
  predicate OpenAIUsable(config: Config, env: Environment) {
    env.langchainAvailable && HasApiKey(config) && env.openaiClientBuilds
  }

  /** The backend the constructor locks in: the first usable one in the
      order ollama, huggingface, openai; None when none is usable. */
  function SelectedBackend(config: Config, env: Environment): (b: Option<ExtractionMethod>)
    ensures b == Some(Ollama) <==> OllamaReachable(env)
    ensures b == Some(OpenAI) ==> OpenAIUsable(config, env)
    ensures b.None? <==> !OllamaReachable(env) && !env.hfPipelineLoads && !OpenAIUsable(config, env)
  {
    if OllamaReachable(env) then Some(Ollama)
    else if env.hfPipelineLoads then Some(HuggingFace)
    else if OpenAIUsable(config, env) then Some(OpenAI)
    else None
  }

  /** The priority order: a reachable ollama server always wins, the
      transformer pipeline is used only when ollama is not reachable, the
      cloud client only when neither of the others is usable, and
      construction fails exactly when all three probes fail. */
  lemma ProbeOrder(config: Config, env: Environment)
    ensures OllamaReachable(env) ==> SelectedBackend(config, env) == Some(Ollama)
    ensures SelectedBackend(config, env) == Some(HuggingFace) ==> !OllamaReachable(env) && env.hfPipelineLoads
    ensures SelectedBackend(config, env) == Some(OpenAI) ==>
      !OllamaReachable(env) && !env.hfPipelineLoads && env.langchainAvailable && HasApiKey(config)
    ensures SelectedBackend(config, env).None? <==>
      !OllamaReachable(env) && !env.hfPipelineLoads && !OpenAIUsable(config, env)
  {
  }

  /** Without an API key (or with an empty one) the cloud backend is never
      chosen, whatever else the environment offers. */
  lemma NoKeyNoOpenAI(config: Config, env: Environment)
    requires config.openaiApiKey == None || config.openaiApiKey == Some("")
    ensures SelectedBackend(config, env) != Some(OpenAI)
  {
  }

  const NoBackendMessage := "\U{274C} No AI extraction method available!"

  // ------------------------------------------------------- the processor

  class Processor {
    const config: Config
    const catalog: Catalog
    var extractionMethod: string
    /** `ollama_url` and `ollama_model`; empty until `_init_ollama` runs. */
    var ollamaUrl: string
    var ollamaModel: string
    /** Whether `hf_generator` and `llm` have been set. */
    var hasHfGenerator: bool
    var hasLlm: bool

    /** The state `__init__` reaches before probing: prompts loaded and the
        method still "none". */
    constructor Init(config: Config, prompts: LoadOutcome)
      ensures this.config == config && catalog == LoadPrompts(prompts)
      ensures extractionMethod == "none" && !hasHfGenerator && !hasLlm
    {
      this.config := config;
      catalog := LoadPrompts(prompts);
      extractionMethod := "none";
      ollamaUrl, ollamaModel := "", "";
      hasHfGenerator, hasLlm := false, false;
    }

    /** `_init_ollama`: the URL and model are recorded before the request,
        so they are set whether or not the server answers. */
    method InitOllama(env: Environment) returns (ok: bool)
      modifies this`ollamaUrl, this`ollamaModel
      ensures ok <==> OllamaReachable(env)
      ensures ollamaUrl == config.ollamaUrl && ollamaModel == config.ollamaModel
    {
      ollamaUrl := config.ollamaUrl;
      ollamaModel := config.ollamaModel;
      ok := env.ollamaTags.TagsStatus? && env.ollamaTags.code == 200;
    }

    /** `_init_huggingface`: `hf_generator` is set only when the pipeline loads. */
    method InitHuggingFace(env: Environment) returns (ok: bool)
      modifies this`hasHfGenerator
      ensures ok <==> env.hfPipelineLoads
      ensures hasHfGenerator == (old(hasHfGenerator) || env.hfPipelineLoads)
    {
      ok := false;
      if env.hfPipelineLoads {
        hasHfGenerator := true;
        ok := true;
      }
    }

    /** `_init_openai`: `llm` is set only when LangChain, a key and the
        client are all there. */
    method InitOpenAI(env: Environment) returns (ok: bool)
      modifies this`hasLlm
      ensures ok <==> OpenAIUsable(config, env)
      ensures hasLlm == (old(hasLlm) || OpenAIUsable(config, env))
    {
      ok := false;
      if env.langchainAvailable && config.openaiApiKey.Some? && config.openaiApiKey.value != "" {
        if env.openaiClientBuilds {
          hasLlm := true;
          ok := true;
        }
      }
    }

    /** The probe chain of `__init__`: each probe runs only when every
        earlier one failed, and the first success fixes the method. */
    method SelectBackend(env: Environment) returns (ok: bool)
      requires extractionMethod == "none" && !hasHfGenerator && !hasLlm
      modifies this`extractionMethod, this`ollamaUrl, this`ollamaModel, this`hasHfGenerator, this`hasLlm
      ensures ok <==> SelectedBackend(config, env).Some?
      ensures extractionMethod == if ok then SelectedBackend(config, env).value.Value() else "none"
      ensures ollamaUrl == config.ollamaUrl && ollamaModel == config.ollamaModel
      ensures hasHfGenerator <==> !OllamaReachable(env) && env.hfPipelineLoads
      ensures hasLlm <==> !OllamaReachable(env) && !env.hfPipelineLoads && OpenAIUsable(config, env)
    {
      ok := InitOllama(env);
      if ok {
        extractionMethod := "ollama";
        return;
      }
      ok := InitHuggingFace(env);
      if ok {
        extractionMethod := "huggingface";
        return;
      }
      ok := InitOpenAI(env);
      if ok {
        extractionMethod := "openai";
      }
    }

    /** `process_document`: classify, extract with the locked-in backend,
        post-process the item fields, score, grade, and assemble the record.
        The only way it fails is a template that `str.format` rejects with
        something other than a KeyError, or one whose field is beyond the
        model of `str.format`. */
    method ProcessDocument(text: string, classify: string -> (string, real), b: Backends, elapsed: string,
                           loads: string -> Option<Value>, show: Value -> string)
      returns (r: Result<RawResult, FormatError>)
      requires JsonLoads(loads)
      ensures var e := ExtractWith(extractionMethod, catalog, ollamaModel, text, classify(text).0, b, loads);
        && (r.Failure? <==> e.Failure?)
        && (r.Success? ==>
              var data := PostProcessed(e.value, ItemFields, loads, Renderer(show));
              && r.value.documentType == classify(text).0
              && r.value.mlConfidence == classify(text).1
              && r.value.extractedData == data
              && r.value.overallConfidence == OverallConfidence(classify(text).1, data)
              && r.value.extractionMethod == extractionMethod
              && r.value.modelDisplayName == Some(DisplayName(extractionMethod, ollamaModel, config))
              && r.value.processingTime == elapsed
              && r.value.rawText == text)
      ensures r.Success? ==> Graded(r.value, config.confidenceThreshold)
    {
      var docType, ml := classify(text).0, classify(text).1;
      var extracted := ExtractWith(extractionMethod, catalog, ollamaModel, text, docType, b, loads);
      if extracted.Failure? {
        return Failure(extracted.error);
      }
      var data := PostProcessExtractedData(extracted.value, loads, show);
      var overall := OverallConfidence(ml, data);
      var level := Level(overall, config.confidenceThreshold);
      var needsReview := level == Low;
      r := Success(RawResult(docType, ml, overall, level.Value(), needsReview, data, elapsed,
                             extractionMethod, Some(DisplayName(extractionMethod, ollamaModel, config)), text));
    }
  }

  /** `Processor()`: build, probe, and raise when no backend is usable. A
      processor that is returned never has the method "none". */
  method NewProcessor(config: Config, prompts: LoadOutcome, env: Environment) returns (r: Result<Processor, string>)
    ensures r.Success? <==> SelectedBackend(config, env).Some?
    ensures r.Success? ==> fresh(r.value) && r.value.config == config && r.value.catalog == LoadPrompts(prompts)
    ensures r.Success? ==> r.value.extractionMethod == SelectedBackend(config, env).value.Value()
    ensures r.Success? ==> r.value.extractionMethod in ExtractionMethodValues && r.value.extractionMethod != "none"
    ensures r.Failure? ==> r.error == NoBackendMessage
  {
    var p := new Processor.Init(config, prompts);
    var ok := p.SelectBackend(env);
    if ok {
      ExtractionMethodValuesExact(SelectedBackend(config, env).value);
      r := Success(p);
    } else {
      r := Failure(NoBackendMessage);
    }
  }

  // ---------------------------------------------------------- adapters

  /** How `POST {ollama_url}/api/generate` ended: a status with the body's
      "response" member (None when the body has none), or an exception. */
  datatype OllamaReply = OllamaStatus(code: int, response: Option<string>) | OllamaRaised(message: string)

  /** How a text-generation call ended: the generated text, or an exception. */
  datatype TextReply = Generated(text: string) | GenerationRaised(message: string)

  /** The three generation calls, each a function of what it is sent. */
  datatype Backends = Backends(
    ollama: (string, string) -> OllamaReply,  // (model, prompt)
    huggingface: string -> TextReply,         // prompt
    openai: (string, string) -> TextReply)    // (template, text): the LangChain chain

  /** `{"error": message, "raw_response": ""}`, what an adapter returns when
      its call raises. */
  function RaisedMap(message: string): (d: Dict<Value>)
    ensures Keys(d) == ["error", "raw_response"]
    ensures Get(d, "error") == Some(Str(message)) && Get(d, "raw_response") == Some(Str(""))
  {
    [Entry("error", Str(message)), Entry("raw_response", Str(""))]
  }

  /** The ollama adapter once the prompt is built: a 200 answer is parsed;
      another status and an exception are folded into an "error" map. */
  function OllamaOutcome(reply: OllamaReply, loads: string -> Option<Value>): (d: Dict<Value>)
    requires JsonLoads(loads)
    ensures reply.OllamaStatus? && reply.code == 200 ==> d == ParseJsonResponse(reply.response.GetOr(""), loads)
    ensures reply.OllamaStatus? && reply.code != 200 ==>
      Keys(d) == ["error"] && Get(d, "error") == Some(Str("Ollama API error: " + IntToString(reply.code)))
    ensures reply.OllamaRaised? ==> d == RaisedMap(reply.message)
  {
    match reply
    case OllamaStatus(code, response) =>
      if code == 200 then ParseJsonResponse(response.GetOr(""), loads)
      else Singleton("error", Str("Ollama API error: " + IntToString(code)))
    case OllamaRaised(message) => RaisedMap(message)
  }

  /** The huggingface and openai adapters once the call has been made. */
  function TextOutcome(reply: TextReply, loads: string -> Option<Value>): (d: Dict<Value>)
    requires JsonLoads(loads)
    ensures reply.Generated? ==> d == ParseJsonResponse(reply.text, loads)
    ensures reply.GenerationRaised? ==> d == RaisedMap(reply.message)
  {
    match reply
    case Generated(t) => ParseJsonResponse(t, loads)
    case GenerationRaised(message) => RaisedMap(message)
  }

  /** A call that fails never raises out of an adapter: its map carries an
      "error" key, so completeness is the 0.5 default and the overall score
      is `0.4·ml + 0.3`, never HIGH. */
  lemma FailedCallScoresDefault(reply: OllamaReply, loads: string -> Option<Value>, ml: real)
    requires JsonLoads(loads)
    requires reply.OllamaRaised? || reply.code != 200
    requires 0.0 <= ml <= 1.0
    ensures Has(OllamaOutcome(reply, loads), "error")
    ensures OverallConfidence(ml, OllamaOutcome(reply, loads)) == 0.4 * ml + 0.3
    ensures Level(OverallConfidence(ml, OllamaOutcome(reply, loads)), DefaultThreshold) != High
  {
    var d := OllamaOutcome(reply, loads);
    assert Keys(d)[0] == "error";
    ErrorMapConfidence(ml, d);
  }

  /** The dispatch of `process_document` step 2 on the locked-in method. The
      ollama and huggingface adapters format the catalog prompt before their
      `try`, so a template `str.format` rejects other than by KeyError
      escapes; the openai adapter hands the unformatted template to the chain. */
  function ExtractWith(backend: string, catalog: Catalog, ollamaModel: string, text: string, docType: string,
                       b: Backends, loads: string -> Option<Value>): (r: Result<Dict<Value>, FormatError>)
    requires JsonLoads(loads)
    ensures backend == "ollama" ==>
      r == if FormatPrompt(catalog, docType, "ollama", text).Failure? then Failure(FormatPrompt(catalog, docType, "ollama", text).error)
           else Success(OllamaOutcome(b.ollama(ollamaModel, FormatPrompt(catalog, docType, "ollama", text).value), loads))
    ensures backend == "huggingface" ==>
      r == if FormatPrompt(catalog, docType, "huggingface", text).Failure? then Failure(FormatPrompt(catalog, docType, "huggingface", text).error)
           else Success(TextOutcome(b.huggingface(FormatPrompt(catalog, docType, "huggingface", text).value), loads))
    ensures backend == "openai" ==> r == Success(TextOutcome(b.openai(GetPrompt(catalog, docType, "openai"), text), loads))
    ensures backend !in ExtractionMethodValues ==> r == Success(Singleton("error", Str("No extraction method available")))
  {
    if backend == "ollama" then
      match FormatPrompt(catalog, docType, "ollama", text)
      case Failure(e) => Failure(e)
      case Success(prompt) => Success(OllamaOutcome(b.ollama(ollamaModel, prompt), loads))
    else if backend == "huggingface" then
      match FormatPrompt(catalog, docType, "huggingface", text)
      case Failure(e) => Failure(e)
      case Success(prompt) => Success(TextOutcome(b.huggingface(prompt), loads))
    else if backend == "openai" then
      Success(TextOutcome(b.openai(GetPrompt(catalog, docType, "openai"), text), loads))
    else
      Success(Singleton("error", Str("No extraction method available")))
  }

  /** With the built-in catalog the adapters never fail: each of its
      templates formats, and so does the synthesized one for a document type
      without braces. */
  lemma DefaultCatalogNeverFails(backend: string, text: string, docType: string, b: Backends,
                                 ollamaModel: string, loads: string -> Option<Value>)
    requires JsonLoads(loads)
    requires '{' !in docType && '}' !in docType
    ensures ExtractWith(backend, DefaultCatalog, ollamaModel, text, docType, b, loads).Success?
  {
    if docType == "invoice" {
      DefaultInvoiceOllamaPrompt(text);
      DefaultInvoiceHuggingFacePrompt(text);
    } else {
      DefaultOtherOllamaPrompt(docType, text);
      DefaultHuggingFacePrompt(docType, text);
    }
  }

  // ------------------------------------------------------- display names

  const OllamaAliases: Dict<string> :=
    [Entry("llama2", "Llama 2"), Entry("mistral", "Mistral"), Entry("codellama", "Code Llama"), Entry("llama3", "Llama 3")]

  const HuggingFaceAliases: Dict<string> :=
    [Entry("DialoGPT-small", "DialoGPT Small"), Entry("DialoGPT-medium", "DialoGPT Medium"),
     Entry("distilbert-base-uncased", "DistilBERT")]

  const OpenAIAliases: Dict<string> :=
    [Entry("gpt-4", "GPT-4"), Entry("gpt-3.5-turbo", "GPT-3.5 Turbo"), Entry("gpt-4-turbo", "GPT-4 Turbo")]

  /** `_get_model_display_name`: the alias of the active backend's model,
      else a fallback derived from the model identifier. */
  function DisplayName(backend: string, ollamaModel: string, config: Config): (name: string)
    ensures backend == "ollama" ==>
      name == if Has(OllamaAliases, ollamaModel) then Get(OllamaAliases, ollamaModel).value else Title(ollamaModel)
    ensures backend == "huggingface" ==>
      var id := LastSegment(config.hfModel, '/');
      name == if Has(HuggingFaceAliases, id) then Get(HuggingFaceAliases, id).value else id
    ensures backend == "openai" ==>
      name == if Has(OpenAIAliases, config.modelName) then Get(OpenAIAliases, config.modelName).value else config.modelName
    ensures backend !in ExtractionMethodValues ==> name == "Unknown Model"
  {
    if backend == "ollama" then GetOr(OllamaAliases, ollamaModel, Title(ollamaModel))
    else if backend == "huggingface" then
      var id := LastSegment(config.hfModel, '/');
      GetOr(HuggingFaceAliases, id, id)
    else if backend == "openai" then GetOr(OpenAIAliases, config.modelName, config.modelName)
    else "Unknown Model"
  }

  /** The huggingface fallback is the part of the identifier after its last
      '/', so it never holds a '/'. */
  lemma HuggingFaceNameHasNoSlash(config: Config, ollamaModel: string)
    requires !Has(HuggingFaceAliases, LastSegment(config.hfModel, '/'))
    ensures '/' !in DisplayName("huggingface", ollamaModel, config)
  {
  }

  /** The last '/'-segment of the default huggingface model. */
  lemma DefaultHfModelSegment()
    ensures LastSegment(DefaultConfig.hfModel, '/') == "DialoGPT-small"
  {
    assert DefaultConfig.hfModel == "microsoft" + ['/'] + "DialoGPT-small";
    LastSegmentAfter("microsoft", '/', "DialoGPT-small");
  }

  /** The default models show their aliases. */
  lemma DefaultOllamaName()
    ensures DisplayName("ollama", DefaultConfig.ollamaModel, DefaultConfig) == "Llama 2"
  {
    assert Get(OllamaAliases, "llama2") == Some("Llama 2");
  }

  lemma DefaultOpenAIName(ollamaModel: string)
    ensures DisplayName("openai", ollamaModel, DefaultConfig) == "GPT-4"
  {
    assert Get(OpenAIAliases, "gpt-4") == Some("GPT-4");
  }

  lemma DefaultHuggingFaceName(ollamaModel: string)
    ensures DisplayName("huggingface", ollamaModel, DefaultConfig) == "DialoGPT Small"
  {
    DefaultHfModelSegment();
    assert Get(HuggingFaceAliases, "DialoGPT-small") == Some("DialoGPT Small");
  }

  // ------------------------------------------------------------ result

  /** The dictionary `process_document` returns; `modelDisplayName` is None
      for the variant that does not report one. */
  datatype RawResult = RawResult(
    documentType: string,
    mlConfidence: real,
    overallConfidence: real,
    confidenceLevel: string,
    needsHumanReview: bool,
    extractedData: Dict<Value>,
    processingTime: string,
    extractionMethod: string,
    modelDisplayName: Option<string>,
    rawText: string)

  /** The invariants of every result: the overall score lies in [0, 1], its
      level is the one the threshold rule gives, and review is needed
      exactly for the LOW level. */
  predicate Graded(r: RawResult, threshold: real) {
    && 0.0 <= r.overallConfidence <= 1.0
    && r.confidenceLevel == Level(r.overallConfidence, threshold).Value()
    && (r.needsHumanReview <==> r.confidenceLevel == "low")
  }

  /** A graded result's level is one of the three level values, and it asks
      for review exactly when its score is below both the threshold and 0.8. */
  lemma GradedMeansReviewBelowThreshold(r: RawResult, threshold: real)
    requires Graded(r, threshold)
    ensures r.confidenceLevel in ConfidenceLevelValues
    ensures r.needsHumanReview <==> r.overallConfidence < threshold && r.overallConfidence < HighCutoff
  {
    var l := Level(r.overallConfidence, threshold);
    assert l == Low <==> r.confidenceLevel == "low";
  }
}
