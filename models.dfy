/** The closed enumerations and the records of the document and workflow
    model files, with the field bounds and defaults that pydantic enforces
    when a record is constructed. Enumeration-typed fields of the records are
    kept as the strings the code passes in (a `str` enum member equals its
    value), so that construction with a string outside the enumeration can be
    stated: it is rejected. */
module Models {
  import opened Wrappers
  import opened Dicts
  import opened Json

  // ---------------------------------------------------------------- enums

  datatype DocumentType = Invoice | Contract | Form | Receipt | Unknown {
    function Value(): string {
      match this
      case Invoice => "invoice"
      case Contract => "contract"
      case Form => "form"
      case Receipt => "receipt"
      case Unknown => "unknown"
    }
  }

  const DocumentTypeValues: set<string> := {"invoice", "contract", "form", "receipt", "unknown"}

  /** `DocumentType(s)`: the member whose value is `s`; anything else raises. */
  function DocumentTypeOf(s: string): (r: Option<DocumentType>)
    ensures r.Some? <==> s in DocumentTypeValues
    ensures r.Some? ==> r.value.Value() == s
  {
    if s == "invoice" then Some(Invoice)
    else if s == "contract" then Some(Contract)
    else if s == "form" then Some(Form)
    else if s == "receipt" then Some(Receipt)
    else if s == "unknown" then Some(Unknown)
    else None
  }

  datatype ConfidenceLevel = High | Medium | Low {
    function Value(): string {
      match this
      case High => "high"
      case Medium => "medium"
      case Low => "low"
    }
  }

  const ConfidenceLevelValues: set<string> := {"high", "medium", "low"}

  function ConfidenceLevelOf(s: string): (r: Option<ConfidenceLevel>)
    ensures r.Some? <==> s in ConfidenceLevelValues
    ensures r.Some? ==> r.value.Value() == s
  {
    if s == "high" then Some(High)
    else if s == "medium" then Some(Medium)
    else if s == "low" then Some(Low)
    else None
  }

  datatype ExtractionMethod = Ollama | HuggingFace | OpenAI {
    function Value(): string {
      match this
      case Ollama => "ollama"
      case HuggingFace => "huggingface"
      case OpenAI => "openai"
    }
  }

  const ExtractionMethodValues: set<string> := {"ollama", "huggingface", "openai"}

  function ExtractionMethodOf(s: string): (r: Option<ExtractionMethod>)
    ensures r.Some? <==> s in ExtractionMethodValues
    ensures r.Some? ==> r.value.Value() == s
  {
    if s == "ollama" then Some(Ollama)
    else if s == "huggingface" then Some(HuggingFace)
    else if s == "openai" then Some(OpenAI)
    else None
  }

  /** Every member's value parses back to that member, and "none" is not a
      member's value. */
  lemma ExtractionMethodValuesExact(m: ExtractionMethod)
    ensures ExtractionMethodOf(m.Value()) == Some(m)
    ensures ExtractionMethodOf("none") == None
  {
  }

  datatype WorkflowType = QuickScan | DocumentWorkflow {
    function Value(): string {
      match this
      case QuickScan => "quick_scan"
      case DocumentWorkflow => "document_workflow"
    }
  }

  function WorkflowTypeOf(s: string): (r: Option<WorkflowType>)
    ensures r.Some? <==> s in {"quick_scan", "document_workflow"}
    ensures r.Some? ==> r.value.Value() == s
  {
    if s == "quick_scan" then Some(QuickScan)
    else if s == "document_workflow" then Some(DocumentWorkflow)
    else None
  }

  datatype ExportFormat = JsonFormat | CsvFormat | XmlFormat {
    function Value(): string {
      match this
      case JsonFormat => "json"
      case CsvFormat => "csv"
      case XmlFormat => "xml"
    }
  }

  function ExportFormatOf(s: string): (r: Option<ExportFormat>)
    ensures r.Some? <==> s in {"json", "csv", "xml"}
    ensures r.Some? ==> r.value.Value() == s
  {
    if s == "json" then Some(JsonFormat)
    else if s == "csv" then Some(CsvFormat)
    else if s == "xml" then Some(XmlFormat)
    else None
  }

  datatype WorkflowStatus = Pending | Processing | Completed | Failed {
    function Value(): string {
      match this
      case Pending => "pending"
      case Processing => "processing"
      case Completed => "completed"
      case Failed => "failed"
    }
  }

  function WorkflowStatusOf(s: string): (r: Option<WorkflowStatus>)
    ensures r.Some? <==> s in {"pending", "processing", "completed", "failed"}
    ensures r.Some? ==> r.value.Value() == s
  {
    if s == "pending" then Some(Pending)
    else if s == "processing" then Some(Processing)
    else if s == "completed" then Some(Completed)
    else if s == "failed" then Some(Failed)
    else None
  }

  // -------------------------------------------------------------- records

  datatype FileInfo = FileInfo(filename: string, sizeBytes: int, fileType: string, isCameraCapture: bool)

  /** `FileInfo(filename=…, size_bytes=…, file_type=…)`: the camera flag
      defaults to false. */
  function NewFileInfo(filename: string, sizeBytes: int, fileType: string): (r: FileInfo)
    ensures !r.isCameraCapture
    ensures r.filename == filename && r.sizeBytes == sizeBytes && r.fileType == fileType
  {
    FileInfo(filename, sizeBytes, fileType, false)
  }

  /** The field values a `ProcessingResult` is constructed from. */
  datatype ProcessingResult = ProcessingResult(
    documentType: string,
    mlConfidence: real,
    overallConfidence: real,
    confidenceLevel: string,
    extractionMethod: string,
    modelDisplayName: string,
    processingTime: string,
    needsHumanReview: bool,
    extractedData: Dict<Value>,
    uploadedFile: Option<string>,
    fileSize: Option<int>,
    fileType: Option<string>,
    rawText: Option<string>)

  /** The constraints pydantic checks when a `ProcessingResult` is built:
      the three enumerations and both confidences in [0, 1]. */
  predicate AdmitsProcessingResult(r: ProcessingResult) {
    && r.documentType in DocumentTypeValues
    && 0.0 <= r.mlConfidence <= 1.0
    && 0.0 <= r.overallConfidence <= 1.0
    && r.confidenceLevel in ConfidenceLevelValues
    && r.extractionMethod in ExtractionMethodValues
  }

  const ValidationErrorText := "validation error for ProcessingResult"

  /** `ProcessingResult(**fields)`: the record, or the ValidationError. */
  function BuildProcessingResult(r: ProcessingResult): (res: Result<ProcessingResult, string>)
    ensures res.Success? <==> AdmitsProcessingResult(r)
    ensures res.Success? ==> res.value == r
    ensures res.Success? ==> 0.0 <= res.value.mlConfidence <= 1.0 && 0.0 <= res.value.overallConfidence <= 1.0
  {
    if AdmitsProcessingResult(r) then Success(r) else Failure(ValidationErrorText)
  }

  /** The extraction-method values the services write into result records:
      the enumeration plus the "none" sentinel of a document that failed
      before extraction. */
  const RecordMethodValues: set<string> := ExtractionMethodValues + {"none"}

  /** The acceptance rule the services rely on, in which "none" is a
      member of the method enumeration. */
  predicate AdmitsRecordWithSentinel(r: ProcessingResult) {
    && r.documentType in DocumentTypeValues
    && 0.0 <= r.mlConfidence <= 1.0
    && 0.0 <= r.overallConfidence <= 1.0
    && r.confidenceLevel in ConfidenceLevelValues
    && r.extractionMethod in RecordMethodValues
  }

  /** `ProcessingResult(**fields)` with "none" admitted as a method. Every
      record the declared enumeration admits is admitted here too. */
  function BuildRecordWithSentinel(r: ProcessingResult): (res: Result<ProcessingResult, string>)
    ensures res.Success? <==> AdmitsRecordWithSentinel(r)
    ensures res.Success? ==> res.value == r
    ensures BuildProcessingResult(r).Success? ==> res == BuildProcessingResult(r)
    ensures res.Success? && r.extractionMethod != "none" ==> BuildProcessingResult(r) == res
  {
    if AdmitsRecordWithSentinel(r) then Success(r) else Failure(ValidationErrorText)
  }

  datatype BatchProcessingResult = BatchProcessingResult(
    batchId: string,
    totalDocuments: int,
    successful: int,
    failed: int,
    results: seq<ProcessingResult>,
    processedAt: real)

  datatype ProcessingMetadata = ProcessingMetadata(
    documentId: string,
    processedAt: string,
    processorVersion: string,
    extractionMethod: string,
    processingTime: string)

  /** `ProcessingMetadata(...)`: `processor_version` defaults to "1.0.0";
      `processing_time` has no default, so leaving it out (None here) is a
      ValidationError, as is a method outside the enumeration. */
  function BuildProcessingMetadata(
    documentId: string, processedAt: string, processorVersion: Option<string>,
    extractionMethod: string, processingTime: Option<string>): (r: Result<ProcessingMetadata, string>)
    ensures r.Success? <==> processingTime.Some? && extractionMethod in ExtractionMethodValues
    ensures r.Success? ==> r.value.processorVersion == processorVersion.GetOr("1.0.0")
    ensures r.Success? ==> r.value.processingTime == processingTime.value
  {
    if processingTime.None? then Failure("validation error for ProcessingMetadata: processing_time field required")
    else if extractionMethod !in ExtractionMethodValues then Failure("validation error for ProcessingMetadata: extraction_method")
    else Success(ProcessingMetadata(documentId, processedAt, processorVersion.GetOr("1.0.0"), extractionMethod, processingTime.value))
  }

  datatype PipelineData = PipelineData(
    documentId: string,
    documentType: string,
    confidenceScore: real,
    needsHumanReview: bool,
    extractionMethod: string,
    processingTime: string,
    extractedFields: Dict<Value>,
    metadata: ProcessingMetadata)

  datatype ProcessingRequest = ProcessingRequest(webhookUrl: Option<string>, outputFormat: string, confidenceThreshold: Option<real>)

  /** `ProcessingRequest(...)`: the output format defaults to "json" and must
      match `^(json|csv|xml)$`; the threshold, when given, lies in [0, 1]. */
  function BuildProcessingRequest(webhookUrl: Option<string>, outputFormat: Option<string>, confidenceThreshold: Option<real>)
    : (r: Result<ProcessingRequest, string>)
    ensures r.Success? <==>
      outputFormat.GetOr("json") in {"json", "csv", "xml"} &&
      (confidenceThreshold.Some? ==> 0.0 <= confidenceThreshold.value <= 1.0)
    ensures r.Success? ==> r.value.outputFormat == outputFormat.GetOr("json") && r.value.confidenceThreshold == confidenceThreshold
  {
    var fmt := outputFormat.GetOr("json");
    if fmt !in {"json", "csv", "xml"} then Failure("validation error for ProcessingRequest: output_format")
    else if confidenceThreshold.Some? && !(0.0 <= confidenceThreshold.value <= 1.0) then
      Failure("validation error for ProcessingRequest: confidence_threshold")
    else Success(ProcessingRequest(webhookUrl, fmt, confidenceThreshold))
  }

  datatype BatchProcessingRequest = BatchProcessingRequest(webhookUrl: Option<string>, outputFormat: string, maxFiles: int)

  /** `BatchProcessingRequest(...)`: at most 50 files, 10 when not given;
      there is no lower bound. */
  function BuildBatchProcessingRequest(webhookUrl: Option<string>, outputFormat: Option<string>, maxFiles: Option<int>)
    : (r: Result<BatchProcessingRequest, string>)
    ensures r.Success? <==> maxFiles.GetOr(10) <= 50
    ensures r.Success? ==> r.value.maxFiles == maxFiles.GetOr(10) && r.value.outputFormat == outputFormat.GetOr("json")
  {
    var n := maxFiles.GetOr(10);
    if n <= 50 then Success(BatchProcessingRequest(webhookUrl, outputFormat.GetOr("json"), n))
    else Failure("validation error for BatchProcessingRequest: max_files")
  }

  datatype WebhookConfig = WebhookConfig(url: string, headers: Option<Dict<string>>, timeout: int, retryAttempts: int)

  /** `WebhookConfig(...)`: timeout in [1, 300] seconds, 30 when not given;
      retry attempts in [0, 10], 3 when not given. */
  function BuildWebhookConfig(url: string, headers: Option<Dict<string>>, timeout: Option<int>, retryAttempts: Option<int>)
    : (r: Result<WebhookConfig, string>)
    ensures r.Success? <==> 1 <= timeout.GetOr(30) <= 300 && 0 <= retryAttempts.GetOr(3) <= 10
    ensures r.Success? ==> r.value.timeout == timeout.GetOr(30) && r.value.retryAttempts == retryAttempts.GetOr(3)
  {
    var t := timeout.GetOr(30);
    var n := retryAttempts.GetOr(3);
    if !(1 <= t <= 300) then Failure("validation error for WebhookConfig: timeout")
    else if !(0 <= n <= 10) then Failure("validation error for WebhookConfig: retry_attempts")
    else Success(WebhookConfig(url, headers, t, n))
  }

  datatype WorkflowConfiguration = WorkflowConfiguration(
    name: string,
    workflowType: WorkflowType,
    defaultWebhook: Option<WebhookConfig>,
    processingOptions: Option<Dict<Value>>,
    storageSettings: Option<Dict<Value>>,
    enabled: bool)

  /** `WorkflowConfiguration(...)`: enabled unless said otherwise. */
  function NewWorkflowConfiguration(name: string, workflowType: WorkflowType, enabled: Option<bool>): (r: WorkflowConfiguration)
    ensures r.enabled <==> enabled != Some(false)
    ensures r.defaultWebhook.None? && r.processingOptions.None? && r.storageSettings.None?
  {
    WorkflowConfiguration(name, workflowType, None, None, None, enabled.GetOr(true))
  }
}
