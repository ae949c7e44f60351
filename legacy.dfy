/** The older processor of `src/snap_ai/processor.py`: the same probe chain,
    parser and scoring, but prompts written inline, a huggingface prompt cut
    to the first 300 characters, a classifier trained on three labels, no
    item post-processing and no display name in the result. */
module Legacy {
  import opened Wrappers
  import opened Dicts
  import opened Json
  import opened Strs
  import opened Models
  import opened Scoring
  import opened Processor

  // ------------------------------------------------------- classifier

  /** The labels the classifier is trained on. */
  const LegacyLabels: set<string> := {"invoice", "contract", "form"}

  /** The labels of the newer processor's classifier, which adds receipts. */
  const CoreLabels: set<string> := {"invoice", "contract", "form", "receipt"}

  /** What a trained classifier guarantees: a trained label, and the largest
      class probability, which lies in [0, 1]. */
  ghost predicate TrainedOn(classify: string -> (string, real), labels: set<string>) {
    forall t :: classify(t).0 in labels && 0.0 <= classify(t).1 <= 1.0
  }

  /** Both label sets are document types, and neither contains "unknown":
      out-of-distribution text is forced into a trained label. */
  lemma LabelsAreDocumentTypes()
    ensures LegacyLabels <= CoreLabels <= DocumentTypeValues
    ensures "unknown" !in CoreLabels && "receipt" !in LegacyLabels
  {
  }

  /** Text classified by the trained model always has a prompt of its own
      type, never the form fallback, and its type is never a receipt. */
  lemma TrainedTypeHasOwnPrompt(classify: string -> (string, real), text: string)
    requires TrainedOn(classify, LegacyLabels)
    ensures PromptKey(classify(text).0) == classify(text).0
    ensures classify(text).0 in DocumentTypeValues && classify(text).0 != "receipt"
    ensures 0.0 <= classify(text).1 <= 1.0
  {
    LabelsAreDocumentTypes();
  }

  // ---------------------------------------------------------- prompts

  /** `prompts.get(doc_type, prompts["form"])`: the key of the inline prompt. */
  function PromptKey(docType: string): (k: string)
    ensures k in LegacyLabels
    ensures docType in LegacyLabels ==> k == docType
  {
    if docType in LegacyLabels then docType else "form"
  }

  /** The inline ollama prompt around the text, by key. */
  function OllamaHead(key: string): string {
    if key == "invoice" then ("Extract invoice information from this text and return ONLY valid JSON:\n" + "\n" + "            Text: ")
    else if key == "contract" then ("Extract contract information from this text and return ONLY valid JSON:\n" + "\n" + "            Text: ")
    else ("Extract form information from this text and return ONLY valid JSON:\n" + "\n" + "            Text: ")
  }

  function OllamaTail(key: string): string {
    if key == "invoice" then
      ("\n"
         + "\n"
         + "            Extract these exact fields:\n"
         + "            - vendor_name: company name\n"
         + "            - invoice_number: invoice number  \n"
         + "            - total_amount: total amount (number only)\n"
         + "            - invoice_date: date\n"
         + "            - customer_info: customer details\n"
         + "\n"
         + "            Return JSON format:")
    else if key == "contract" then
      ("\n"
         + "\n"
         + "            Extract these exact fields:\n"
         + "            - parties: list of contract parties\n"
         + "            - contract_type: type of contract\n"
         + "            - effective_date: start date\n"
         + "            - key_terms: important terms\n"
         + "\n"
         + "            Return JSON format:")
    else
      ("\n"
         + "\n"
         + "            Extract these exact fields:\n"
         + "            - form_type: type of form\n"
         + "            - applicant_name: person's name\n"
         + "            - contact_info: contact details\n"
         + "            - form_fields: other form data\n"
         + "\n"
         + "            Return JSON format:")
  }

  /** A text between a head and a tail, each part where it belongs. */
  function Surround(head: string, text: string, tail: string): (p: string)
    ensures |p| == |head| + |text| + |tail|
    ensures p[..|head|] == head && p[|head|..|head| + |text|] == text && p[|head| + |text|..] == tail
  {
    head + text + tail
  }

  /** The ollama prompt: the whole text between the head and tail of the
      document type's prompt, or of the form prompt for any other type. */
  function OllamaPrompt(docType: string, text: string): (p: string)
    ensures var key := PromptKey(docType);
      && |p| == |OllamaHead(key)| + |text| + |OllamaTail(key)|
      && p[..|OllamaHead(key)|] == OllamaHead(key)
      && p[|OllamaHead(key)|..|OllamaHead(key)| + |text|] == text
      && p[|OllamaHead(key)| + |text|..] == OllamaTail(key)
  {
    var key := PromptKey(docType);
    Surround(OllamaHead(key), text, OllamaTail(key))
  }

  /** The LangChain template of the openai adapter, around its `{text}`. */
  function OpenAIHead(key: string): string {
    if key == "invoice" then
      "\n            Extract invoice information from this text and return JSON:\n            - vendor_name: company name\n            - invoice_number: invoice number  \n            - total_amount: total amount (number only)\n            - invoice_date: date\n            - customer_info: customer details\n            \n            Text: "
    else if key == "contract" then
      "\n            Extract contract information from this text and return JSON:\n            - parties: list of contract parties\n            - contract_type: type of contract\n            - effective_date: start date\n            - key_terms: important terms\n            \n            Text: "
    else
      "\n            Extract form information from this text and return JSON:\n            - form_type: type of form\n            - applicant_name: person's name\n            - contact_info: contact details\n            - form_fields: other form data\n            \n            Text: "
  }

  const OpenAITail := "\n            \n            Return only valid JSON:\n            "

  function OpenAITemplate(docType: string): string {
    OpenAIHead(PromptKey(docType)) + "{text}" + OpenAITail
  }

  /** A document type outside the three trained ones gets the form prompts. */
  lemma OtherTypesUseForm(docType: string, text: string)
    requires docType !in LegacyLabels
    ensures OllamaPrompt(docType, text) == OllamaPrompt("form", text)
    ensures OpenAITemplate(docType) == OpenAITemplate("form")
  {
    assert PromptKey(docType) == "form";
    assert PromptKey("form") == "form";
  }

  /** The huggingface prompt, which embeds `text[:300]`. */
  function HuggingFacePrompt(docType: string, text: string): (p: string)
    ensures p == "Extract " + docType + " information from: " + Prefix(text, 300) + "...\nJSON:"
    ensures |p| <= |docType| + 336
  {
    "Extract " + docType + " information from: " + Prefix(text, 300) + "...\nJSON:"
  }

  /** Only the first 300 characters of the text reach the huggingface model:
      texts that agree on them give the same prompt, and a text of at most
      300 characters is embedded whole. */
  lemma HuggingFaceSeesPrefixOnly(docType: string, t1: string, t2: string)
    requires Prefix(t1, 300) == Prefix(t2, 300)
    ensures HuggingFacePrompt(docType, t1) == HuggingFacePrompt(docType, t2)
    ensures |t1| <= 300 ==> HuggingFacePrompt(docType, t1) == "Extract " + docType + " information from: " + t1 + "...\nJSON:"
  {
  }

  /** The whole text reaches the ollama model: different texts give
      different prompts, unlike the huggingface prompt. */
  lemma OllamaSeesWholeText(docType: string, t1: string, t2: string)
    requires OllamaPrompt(docType, t1) == OllamaPrompt(docType, t2)
    ensures t1 == t2
  {
    var h := |OllamaHead(PromptKey(docType))|;
    assert |t1| == |t2|;
    assert t1 == OllamaPrompt(docType, t1)[h..h + |t1|];
  }

  // ------------------------------------------------------- extraction

  /** The adapter dispatch; no prompt here can fail to build. */
  function ExtractWithLegacy(backend: string, ollamaModel: string, text: string, docType: string,
                             b: Backends, loads: string -> Option<Value>): (d: Dict<Value>)
    requires JsonLoads(loads)
    ensures backend == "ollama" ==> d == OllamaOutcome(b.ollama(ollamaModel, OllamaPrompt(docType, text)), loads)
    ensures backend == "huggingface" ==> d == TextOutcome(b.huggingface(HuggingFacePrompt(docType, text)), loads)
    ensures backend == "openai" ==> d == TextOutcome(b.openai(OpenAITemplate(docType), text), loads)
    ensures backend !in ExtractionMethodValues ==> d == Singleton("error", Str("No extraction method available"))
  {
    if backend == "ollama" then OllamaOutcome(b.ollama(ollamaModel, OllamaPrompt(docType, text)), loads)
    else if backend == "huggingface" then TextOutcome(b.huggingface(HuggingFacePrompt(docType, text)), loads)
    else if backend == "openai" then TextOutcome(b.openai(OpenAITemplate(docType), text), loads)
    else Singleton("error", Str("No extraction method available"))
  }

  // -------------------------------------------------------- processor

  class LegacyProcessor {
    const config: Config
    var extractionMethod: string
    var ollamaUrl: string
    var ollamaModel: string
    var hasHfGenerator: bool
    var hasLlm: bool

    /** The state `__init__` reaches before probing. */
    constructor Init(config: Config)
      ensures this.config == config
      ensures extractionMethod == "none" && !hasHfGenerator && !hasLlm
    {
      this.config := config;
      extractionMethod := "none";
      ollamaUrl, ollamaModel := "", "";
      hasHfGenerator, hasLlm := false, false;
    }

    /** The probe chain of `__init__`, in the same order as the newer
        processor's. */
    method SelectBackend(env: Environment) returns (ok: bool)
      requires extractionMethod == "none" && !hasHfGenerator && !hasLlm
      modifies this`extractionMethod, this`ollamaUrl, this`ollamaModel, this`hasHfGenerator, this`hasLlm
      ensures ok <==> SelectedBackend(config, env).Some?
      ensures extractionMethod == if ok then SelectedBackend(config, env).value.Value() else "none"
      ensures ollamaUrl == config.ollamaUrl && ollamaModel == config.ollamaModel
      ensures hasHfGenerator <==> !OllamaReachable(env) && env.hfPipelineLoads
      ensures hasLlm <==> !OllamaReachable(env) && !env.hfPipelineLoads && OpenAIUsable(config, env)
    {
      ollamaUrl, ollamaModel := config.ollamaUrl, config.ollamaModel;
      if env.ollamaTags.TagsStatus? && env.ollamaTags.code == 200 {
        extractionMethod := "ollama";
        return true;
      }
      if env.hfPipelineLoads {
        hasHfGenerator := true;
        extractionMethod := "huggingface";
        return true;
      }
      ok := false;
      if env.langchainAvailable && config.openaiApiKey.Some? && config.openaiApiKey.value != "" && env.openaiClientBuilds {
        hasLlm := true;
        extractionMethod := "openai";
        ok := true;
      }
    }

    /** `process_document`: classify, extract, score, grade; the extracted
        data is scored as the adapter returned it. */
    method ProcessDocument(text: string, classify: string -> (string, real), b: Backends, elapsed: string,
                           loads: string -> Option<Value>)
      returns (r: RawResult)
      requires JsonLoads(loads)
      ensures var data := ExtractWithLegacy(extractionMethod, ollamaModel, text, classify(text).0, b, loads);
        && r.documentType == classify(text).0
        && r.mlConfidence == classify(text).1
        && r.extractedData == data
        && r.overallConfidence == OverallConfidence(classify(text).1, data)
        && r.extractionMethod == extractionMethod
        && r.modelDisplayName.None?
        && r.processingTime == elapsed
        && r.rawText == text
      ensures Graded(r, config.confidenceThreshold)
    {
      var (docType, ml) := classify(text);
      var data := ExtractWithLegacy(extractionMethod, ollamaModel, text, docType, b, loads);
      var overall := OverallConfidence(ml, data);
      var level := Level(overall, config.confidenceThreshold);
      r := RawResult(docType, ml, overall, level.Value(), level == Low, data, elapsed, extractionMethod, None, text);
    }
  }

  /** `Processor()` of the older variant: raises when no backend is usable. */
  method NewLegacyProcessor(config: Config, env: Environment) returns (r: Result<LegacyProcessor, string>)
    ensures r.Success? <==> SelectedBackend(config, env).Some?
    ensures r.Success? ==> fresh(r.value) && r.value.config == config
    ensures r.Success? ==> r.value.extractionMethod in ExtractionMethodValues
    ensures r.Failure? ==> r.error == NoBackendMessage
  {
    var p := new LegacyProcessor.Init(config);
    var ok := p.SelectBackend(env);
    if ok {
      ExtractionMethodValuesExact(SelectedBackend(config, env).value);
      r := Success(p);
    } else {
      r := Failure(NoBackendMessage);
    }
  }
}
