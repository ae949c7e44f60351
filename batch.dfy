/** The document services: turning a processor result into a validated
    `ProcessingResult`, scanning one upload, the batch loops of both service
    variants, the paging flag of the document listing, and the pipeline
    hand-off record. */
module Batch {
  import opened Wrappers
  import opened Dicts
  import opened Json
  import opened Models
  import opened Uploads
  import opened Processor

  // -------------------------------------------------------- conversion

  /** The dictionary a processor hands to the services, one entry per key
      it may carry; None is a missing key. */
  datatype RawRecord = RawRecord(
    documentType: Option<string>,
    mlConfidence: Option<real>,
    overallConfidence: Option<real>,
    confidenceLevel: Option<string>,
    extractionMethod: Option<string>,
    modelDisplayName: Option<string>,
    processingTime: Option<string>,
    needsHumanReview: Option<bool>,
    extractedData: Option<Dict<Value>>,
    rawText: Option<string>)

  /** The dictionary `process_document` returns: every key present, except
      the display name of the processor variant that reports none. */
  function FromRaw(r: RawResult): (raw: RawRecord)
    ensures raw.modelDisplayName == r.modelDisplayName
    ensures raw.documentType == Some(r.documentType) && raw.extractedData == Some(r.extractedData)
    ensures raw.mlConfidence == Some(r.mlConfidence) && raw.overallConfidence == Some(r.overallConfidence)
    ensures raw.confidenceLevel == Some(r.confidenceLevel) && raw.extractionMethod == Some(r.extractionMethod)
    ensures raw.processingTime == Some(r.processingTime) && raw.needsHumanReview == Some(r.needsHumanReview)
    ensures raw.rawText == Some(r.rawText)
  {
    RawRecord(Some(r.documentType), Some(r.mlConfidence), Some(r.overallConfidence), Some(r.confidenceLevel),
              Some(r.extractionMethod), r.modelDisplayName, Some(r.processingTime), Some(r.needsHumanReview),
              Some(r.extractedData), Some(r.rawText))
  }

  /** The fields `_convert_to_processing_result` passes on: each key's value
      or its default, and the upload's name, size and type. */
  function Defaulted(raw: RawRecord, info: FileInfo): (r: ProcessingResult)
    ensures r.documentType == raw.documentType.GetOr("unknown")
    ensures r.mlConfidence == raw.mlConfidence.GetOr(0.0) && r.overallConfidence == raw.overallConfidence.GetOr(0.0)
    ensures r.confidenceLevel == raw.confidenceLevel.GetOr("low") && r.extractionMethod == raw.extractionMethod.GetOr("none")
    ensures r.modelDisplayName == raw.modelDisplayName.GetOr("Unknown") && r.processingTime == raw.processingTime.GetOr("0s")
    ensures r.needsHumanReview == raw.needsHumanReview.GetOr(true) && r.extractedData == raw.extractedData.GetOr([])
    ensures r.uploadedFile == Some(info.filename) && r.fileSize == Some(info.sizeBytes) && r.fileType == Some(info.fileType)
    ensures r.rawText == raw.rawText
  {
    ProcessingResult(
      raw.documentType.GetOr("unknown"), raw.mlConfidence.GetOr(0.0), raw.overallConfidence.GetOr(0.0),
      raw.confidenceLevel.GetOr("low"), raw.extractionMethod.GetOr("none"), raw.modelDisplayName.GetOr("Unknown"),
      raw.processingTime.GetOr("0s"), raw.needsHumanReview.GetOr(true), raw.extractedData.GetOr([]),
      Some(info.filename), Some(info.sizeBytes), Some(info.fileType), raw.rawText)
  }

  /** The `ValueError` of `DocumentType(value)` for a value outside the enumeration. */
  function InvalidDocumentType(s: string): string {
    "'" + s + "' is not a valid DocumentType"
  }

  /** `_convert_to_processing_result`: `DocumentType(...)` is evaluated first
      and raises on a label outside the enumeration; then the defaulted
      record is validated, so a missing method, defaulted to "none", raises. */
  function Convert(raw: RawRecord, info: FileInfo): (r: Result<ProcessingResult, string>)
    ensures r.Success? <==> AdmitsProcessingResult(Defaulted(raw, info))
    ensures r.Success? ==> r.value == Defaulted(raw, info)
    ensures raw.documentType.GetOr("unknown") !in DocumentTypeValues ==>
      r == Failure(InvalidDocumentType(raw.documentType.GetOr("unknown")))
    ensures raw.documentType.GetOr("unknown") in DocumentTypeValues && raw.extractionMethod.None? ==>
      r == Failure(ValidationErrorText)
  {
    var docType := raw.documentType.GetOr("unknown");
    if DocumentTypeOf(docType).None? then Failure(InvalidDocumentType(docType))
    else BuildProcessingResult(Defaulted(raw, info))
  }

  /** As written, a record with every key missing does not convert: its
      method defaults to "none", which the enumeration lacks. With "none"
      admitted it would be the defaults: an unknown document with zero
      confidence, asking for review. */
  lemma EmptyRecordRejected(info: FileInfo)
    ensures Convert(RawRecord(None, None, None, None, None, None, None, None, None, None), info) == Failure(ValidationErrorText)
    ensures var d := Defaulted(RawRecord(None, None, None, None, None, None, None, None, None, None), info);
      && BuildRecordWithSentinel(d) == Success(d)
      && d.documentType == "unknown" && d.mlConfidence == 0.0 && d.overallConfidence == 0.0
      && d.confidenceLevel == "low" && d.extractionMethod == "none"
      && d.modelDisplayName == "Unknown" && d.processingTime == "0s"
      && d.needsHumanReview && d.extractedData == []
  {
  }

  /** A processed document converts to a valid record carrying the
      processor's values unchanged: its label is a document type, the
      classifier's confidence lies in [0, 1], its score is graded and its
      method is the one the constructor locked in. */
  lemma ProcessedDocumentConverts(res: RawResult, info: FileInfo, threshold: real)
    requires Graded(res, threshold)
    requires res.documentType in DocumentTypeValues && 0.0 <= res.mlConfidence <= 1.0
    requires res.extractionMethod in ExtractionMethodValues
    ensures var r := Convert(FromRaw(res), info);
      && r.Success?
      && BuildProcessingResult(r.value) == r
      && r.value.documentType == res.documentType && r.value.extractionMethod == res.extractionMethod
      && r.value.overallConfidence == res.overallConfidence
      && r.value.confidenceLevel == res.confidenceLevel
      && (r.value.needsHumanReview <==> res.confidenceLevel == "low")
      && r.value.extractedData == res.extractedData
      && r.value.modelDisplayName == res.modelDisplayName.GetOr("Unknown")
  {
    GradedMeansReviewBelowThreshold(res, threshold);
  }

  // ---------------------------------------------------------- one scan

  /** The stages of one scan the model does not open: text extraction and
      the processor (each the value, or the message of what it raised), and
      the one-decimal megabyte formatting of the size error. */
  datatype Stages = Stages(
    extract: (seq<bv8>, string) -> Result<string, string>,
    process: string -> Result<RawRecord, string>,
    formatMb: int -> string)

  /** `quick_scan`, and `process_single_document`: analyse the upload,
      extract its text, process it and convert the result; the first stage
      that raises decides the message. */
  function QuickScan(st: Stages, content: seq<bv8>, filename: string): (r: Result<ProcessingResult, string>)
    ensures AnalyzeFile(content, filename).Failure? ==> r == Failure(Message(AnalyzeFile(content, filename).error, st.formatMb))
    ensures AnalyzeFile(content, filename).Success? ==>
      var info := AnalyzeFile(content, filename).value;
      var extracted := st.extract(content, info.fileType);
      && (extracted.Failure? ==> r == Failure(extracted.error))
      && (extracted.Success? && st.process(extracted.value).Failure? ==> r == Failure(st.process(extracted.value).error))
      && (extracted.Success? && st.process(extracted.value).Success? ==> r == Convert(st.process(extracted.value).value, info))
    ensures r.Success? ==> && AdmitsProcessingResult(r.value)
                           && r.value.uploadedFile == Some(filename)
                           && r.value.fileSize == Some(|content|)
                           && r.value.fileType == Some(FileExtension(filename))
  {
    match AnalyzeFile(content, filename)
    case Failure(e) => Failure(Message(e, st.formatMb))
    case Success(info) =>
      match st.extract(content, info.fileType)
      case Failure(m) => Failure(m)
      case Success(text) =>
        match st.process(text)
        case Failure(m) => Failure(m)
        case Success(raw) => Convert(raw, info)
  }

  /** A scan whose text the processor grades gives that result's record:
      its label, method, score, level, review flag and data are kept, next
      to the upload's own description. */
  lemma QuickScanKeepsProcessorResult(st: Stages, content: seq<bv8>, filename: string, res: RawResult, threshold: real)
    requires AnalyzeFile(content, filename).Success?
    requires st.extract(content, AnalyzeFile(content, filename).value.fileType).Success?
    requires st.process(st.extract(content, AnalyzeFile(content, filename).value.fileType).value) == Success(FromRaw(res))
    requires Graded(res, threshold)
    requires res.documentType in DocumentTypeValues && 0.0 <= res.mlConfidence <= 1.0
    requires res.extractionMethod in ExtractionMethodValues
    ensures var r := QuickScan(st, content, filename);
      && r.Success?
      && r.value.documentType == res.documentType && r.value.extractionMethod == res.extractionMethod
      && r.value.overallConfidence == res.overallConfidence && r.value.confidenceLevel == res.confidenceLevel
      && (r.value.needsHumanReview <==> res.confidenceLevel == "low")
      && r.value.extractedData == res.extractedData
      && r.value.uploadedFile == Some(filename) && r.value.fileSize == Some(|content|)
  {
    ProcessedDocumentConverts(res, AnalyzeFile(content, filename).value, threshold);
  }

  // ------------------------------------------------------ error record

  /** The record a batch substitutes for an input that raised. */
  function ErrorRecord(filename: string, message: string): (r: ProcessingResult)
    ensures r.extractedData == Singleton("error", Str(message)) && r.uploadedFile == Some(filename)
    ensures r.mlConfidence == 0.0 && r.overallConfidence == 0.0 && r.needsHumanReview
    ensures r.extractionMethod == "none" && r.modelDisplayName == "Error"
  {
    ProcessingResult("unknown", 0.0, 0.0, "low", "none", "Error", "0s", true,
                     Singleton("error", Str(message)), Some(filename), None, None, None)
  }

  /** As written, building the error record raises: "none" is not a member
      of the method enumeration. */
  lemma ErrorRecordRejected(filename: string, message: string)
    ensures BuildProcessingResult(ErrorRecord(filename, message)) == Failure(ValidationErrorText)
  {
    assert ErrorRecord(filename, message).extractionMethod !in ExtractionMethodValues;
  }

  /** With the sentinel admitted, the error record is accepted unchanged. */
  lemma ErrorRecordAdmitted(filename: string, message: string)
    ensures BuildRecordWithSentinel(ErrorRecord(filename, message)) == Success(ErrorRecord(filename, message))
  {
  }

  // ---------------------------------------------------------- counting

  predicate HasError(r: ProcessingResult) {
    Has(r.extractedData, "error")
  }

  /** `len([r for r in results if "error" in r.extracted_data])`. */
  function CountFailed(rs: seq<ProcessingResult>): (n: nat)
    ensures n <= |rs|
  {
    if |rs| == 0 then 0 else CountFailed(rs[..|rs| - 1]) + (if HasError(rs[|rs| - 1]) then 1 else 0)
  }

  /** `len([r for r in results if "error" not in r.extracted_data])`. */
  function CountSuccessful(rs: seq<ProcessingResult>): (n: nat)
    ensures n <= |rs|
  {
    if |rs| == 0 then 0 else CountSuccessful(rs[..|rs| - 1]) + (if HasError(rs[|rs| - 1]) then 0 else 1)
  }

  /** Every result is counted exactly once. */
  lemma {:induction false} CountsPartition(rs: seq<ProcessingResult>)
    ensures CountSuccessful(rs) + CountFailed(rs) == |rs|
  {
    if |rs| > 0 {
      CountsPartition(rs[..|rs| - 1]);
    }
  }

  /** No result is failed exactly when none carries an "error" key. */
  lemma {:induction false} NoFailedIffNoError(rs: seq<ProcessingResult>)
    ensures CountFailed(rs) == 0 <==> forall i :: 0 <= i < |rs| ==> !HasError(rs[i])
  {
    if |rs| > 0 {
      NoFailedIffNoError(rs[..|rs| - 1]);
      assert forall i :: 0 <= i < |rs| - 1 ==> rs[..|rs| - 1][i] == rs[i];
    }
  }

  /** A result with an "error" key is counted as failed. */
  lemma {:induction false} ErrorCounted(rs: seq<ProcessingResult>, i: int)
    requires 0 <= i < |rs| && HasError(rs[i])
    ensures CountFailed(rs) > 0
  {
    if i < |rs| - 1 {
      assert rs[..|rs| - 1][i] == rs[i];
      ErrorCounted(rs[..|rs| - 1], i);
    }
  }

  // ------------------------------------------------------------ batches

  /** The per-input scan the batch loop calls, with the message of what it
      raised. */
  type Scan = (seq<bv8>, string) -> Result<ProcessingResult, string>

  /** The batch entry of one input: its record, or the error record. */
  function ScanResult(scan: Scan, file: (seq<bv8>, string)): (r: ProcessingResult)
    ensures scan(file.0, file.1).Failure? ==> r == ErrorRecord(file.1, scan(file.0, file.1).error) && HasError(r)
    ensures scan(file.0, file.1).Success? ==> r == scan(file.0, file.1).value
  {
    match scan(file.0, file.1)
    case Success(v) => v
    case Failure(m) => ErrorRecord(file.1, m)
  }

  function ScanAll(scan: Scan, files: seq<(seq<bv8>, string)>): (rs: seq<ProcessingResult>)
    ensures |rs| == |files|
    ensures forall i :: 0 <= i < |files| ==> rs[i] == ScanResult(scan, files[i])
  {
    if |files| == 0 then [] else ScanAll(scan, files[..|files| - 1]) + [ScanResult(scan, files[|files| - 1])]
  }

  /** The batch loop of `batch_quick_scan`, and of `process_batch_documents`
      without its `batch_index` assignment: one entry per input, in input
      order, so an entry's index in `results` is its input's position. The
      error record is built with "none" admitted. */
  method RunBatch(files: seq<(seq<bv8>, string)>, scan: Scan, batchId: string, processedAt: real)
    returns (b: BatchProcessingResult)
    ensures b.results == ScanAll(scan, files)
    ensures b.totalDocuments == |files| == |b.results|
    ensures b.failed == CountFailed(b.results) && b.successful == CountSuccessful(b.results)
    ensures b.successful + b.failed == b.totalDocuments
    ensures b.batchId == batchId && b.processedAt == processedAt
  {
    var results: seq<ProcessingResult> := [];
    var i := 0;
    while i < |files|
      invariant 0 <= i <= |files|
      invariant results == ScanAll(scan, files[..i])
    {
      var (content, filename) := files[i];
      var outcome := scan(content, filename);
      var entry: ProcessingResult;
      match outcome {
        case Success(v) =>
          entry := v;
        case Failure(m) =>
          ErrorRecordAdmitted(filename, m);
          var built := BuildRecordWithSentinel(ErrorRecord(filename, m));
          entry := built.value;
      }
      assert files[..i + 1][..i] == files[..i];
      results := results + [entry];
      i := i + 1;
    }
    assert files[..i] == files;
    CountsPartition(results);
    b := BatchProcessingResult(batchId, |files|, CountSuccessful(results), CountFailed(results), results, processedAt);
  }

  /** An entry with an "error" key is counted as failed: every input that
      raised (its error record has one), and also a processed input whose
      extracted data carries one, as a failed backend call leaves it. */
  lemma FailedInputsCounted(scan: Scan, files: seq<(seq<bv8>, string)>, i: int)
    requires 0 <= i < |files|
    requires HasError(ScanResult(scan, files[i]))
    ensures CountFailed(ScanAll(scan, files)) > 0
  {
    var rs := ScanAll(scan, files);
    assert rs[i] == ScanResult(scan, files[i]);
    ErrorCounted(rs, i);
    assert CountFailed(rs) > 0;
  }

  /** An entry prepended to the entries after it; the first exception wins. */
  function Cons(head: Result<ProcessingResult, string>, rest: Result<seq<ProcessingResult>, string>)
    : (r: Result<seq<ProcessingResult>, string>)
    ensures r.Success? <==> head.Success? && rest.Success?
    ensures r.Success? ==> r.value == [head.value] + rest.value
    ensures head.Failure? ==> r == Failure(head.error)
  {
    match head
    case Failure(e) => Failure(e)
    case Success(v) =>
      match rest
      case Failure(e) => Failure(e)
      case Success(vs) => Success([v] + vs)
  }

  /** One iteration of `batch_quick_scan` as written: a raised input's error
      record is validated against the declared enumeration. */
  function QuickScanEntryAsWritten(outcome: Result<ProcessingResult, string>, filename: string): Result<ProcessingResult, string> {
    match outcome
    case Success(v) => Success(v)
    case Failure(m) => BuildProcessingResult(ErrorRecord(filename, m))
  }

  /** `batch_quick_scan` as written: the first input that raises makes the
      error record's own validation raise inside the handler, and that
      escapes the batch. */
  function BatchQuickScanAsWritten(scan: Scan, files: seq<(seq<bv8>, string)>): (r: Result<seq<ProcessingResult>, string>)
    ensures r.Success? ==> |r.value| == |files|
    ensures |files| > 0 && scan(files[0].0, files[0].1).Failure? ==> r.Failure?
    decreases |files|
  {
    if |files| == 0 then Success([])
    else Cons(QuickScanEntryAsWritten(scan(files[0].0, files[0].1), files[0].1), BatchQuickScanAsWritten(scan, files[1..]))
  }

  /** The batch as written succeeds exactly when no input raises, and then
      agrees with the corrected loop. */
  lemma {:induction false} BatchQuickScanRaisesOnAnyFailure(scan: Scan, files: seq<(seq<bv8>, string)>)
    ensures BatchQuickScanAsWritten(scan, files).Success? <==> forall i :: 0 <= i < |files| ==> scan(files[i].0, files[i].1).Success?
    ensures BatchQuickScanAsWritten(scan, files).Success? ==> BatchQuickScanAsWritten(scan, files).value == ScanAll(scan, files)
    decreases |files|
  {
    if |files| > 0 {
      var rest := files[1..];
      BatchQuickScanRaisesOnAnyFailure(scan, rest);
      var outcome := scan(files[0].0, files[0].1);
      var entry := QuickScanEntryAsWritten(outcome, files[0].1);
      assert entry.Success? <==> outcome.Success? by {
        if outcome.Failure? {
          ErrorRecordRejected(files[0].1, outcome.error);
        }
      }
      assert (forall i :: 0 <= i < |files| ==> scan(files[i].0, files[i].1).Success?) <==>
        outcome.Success? && forall i :: 0 <= i < |rest| ==> scan(rest[i].0, rest[i].1).Success? by {
        assert forall i :: 1 <= i < |files| ==> rest[i - 1] == files[i];
      }
      ScanAllCons(scan, files);
    }
  }

  lemma ScanAllCons(scan: Scan, files: seq<(seq<bv8>, string)>)
    requires |files| > 0
    ensures ScanAll(scan, files) == [ScanResult(scan, files[0])] + ScanAll(scan, files[1..])
  {
    var rest := files[1..];
    var tail := ScanAll(scan, rest);
    var a, b := ScanAll(scan, files), [ScanResult(scan, files[0])] + tail;
    assert |a| == |b|;
    forall i | 0 <= i < |a|
      ensures a[i] == b[i]
    {
      if i > 0 {
        assert b[i] == tail[i - 1];
        assert tail[i - 1] == ScanResult(scan, rest[i - 1]);
        assert rest[i - 1] == files[i];
      }
    }
  }

  /** The fields pydantic declares on `ProcessingResult`. */
  const ProcessingResultFields: set<string> := {
    "document_type", "ml_confidence", "overall_confidence", "confidence_level", "extraction_method",
    "model_display_name", "processing_time", "needs_human_review", "extracted_data",
    "uploaded_file", "file_size", "file_type", "raw_text"}

  /** `record.<field> = value` on a pydantic model: an undeclared field raises. */
  function SetField(r: ProcessingResult, field: string): (res: Result<ProcessingResult, string>)
    ensures res.Success? <==> field in ProcessingResultFields
  {
    if field in ProcessingResultFields then Success(r)
    else Failure("\"ProcessingResult\" object has no field \"" + field + "\"")
  }

  /** One iteration of `process_batch_documents` as written:
      `result.batch_index = i` on the processed record, and on failure the
      error record followed by the same assignment. */
  function ProcessEntryAsWritten(outcome: Result<ProcessingResult, string>, filename: string): Result<ProcessingResult, string> {
    var attempt := match outcome
      case Success(v) => SetField(v, "batch_index")
      case Failure(m) => Failure(m);
    match attempt
    case Success(v) => Success(v)
    case Failure(m) =>
      match BuildProcessingResult(ErrorRecord(filename, m))
      case Success(e) => SetField(e, "batch_index")
      case Failure(m2) => Failure(m2)
  }

  /** `process_batch_documents` as written. */
  function ProcessBatchAsWritten(scan: Scan, files: seq<(seq<bv8>, string)>): (r: Result<seq<ProcessingResult>, string>)
    ensures r.Success? ==> |r.value| == |files|
    decreases |files|
  {
    if |files| == 0 then Success([])
    else Cons(ProcessEntryAsWritten(scan(files[0].0, files[0].1), files[0].1), ProcessBatchAsWritten(scan, files[1..]))
  }

  /** As written, every iteration raises: the assignment raises for a
      processed input, and the error record's validation raises in the
      handler. */
  lemma ProcessEntryAlwaysRaises(outcome: Result<ProcessingResult, string>, filename: string)
    ensures ProcessEntryAsWritten(outcome, filename) == Failure(ValidationErrorText)
  {
    var m := if outcome.Success? then SetField(outcome.value, "batch_index").error else outcome.error;
    assert "batch_index" !in ProcessingResultFields;
    ErrorRecordRejected(filename, m);
  }

  /** As written, every batch with at least one input raises, whatever the
      inputs; only the empty batch completes. */
  lemma NonEmptyBatchRaises(scan: Scan, files: seq<(seq<bv8>, string)>)
    ensures |files| > 0 ==> ProcessBatchAsWritten(scan, files) == Failure(ValidationErrorText)
    ensures |files| == 0 ==> ProcessBatchAsWritten(scan, files) == Success([])
  {
    if |files| > 0 {
      ProcessEntryAlwaysRaises(scan(files[0].0, files[0].1), files[0].1);
    }
  }

  // ----------------------------------------------- stored-document batch

  /** What `document_workflow` returns for one stored upload. */
  datatype StoredDocument = StoredDocument(documentId: string, result: ProcessingResult, storageLocation: string, accessUrl: string)

  /** One entry of `batch_document_workflow`'s result list: the stored
      document with its index, or the error entry, whose `document_id` is
      None. */
  datatype WorkflowEntry =
    | Stored(batchIndex: nat, document: StoredDocument)
    | Errored(batchIndex: nat, filename: string, error: string)

  datatype WorkflowBatch = WorkflowBatch(
    batchId: string, totalDocuments: nat, successful: nat, failed: nat, results: seq<WorkflowEntry>, processedAt: real)

  /** The entry of the input at position `i`; only an error entry has a
      top-level "error" key. */
  function WorkflowEntryAt(store: (seq<bv8>, string) -> Result<StoredDocument, string>,
                           files: seq<(seq<bv8>, string)>, i: nat): (e: WorkflowEntry)
    requires i < |files|
    ensures e.batchIndex == i
    ensures e.Errored? <==> store(files[i].0, files[i].1).Failure?
  {
    match store(files[i].0, files[i].1)
    case Success(doc) => Stored(i, doc)
    case Failure(m) => Errored(i, files[i].1, m)
  }

  function CountErrored(es: seq<WorkflowEntry>): (n: nat)
    ensures n <= |es|
  {
    if |es| == 0 then 0 else CountErrored(es[..|es| - 1]) + (if es[|es| - 1].Errored? then 1 else 0)
  }

  /** `batch_document_workflow`: one entry per input, in order, each
      carrying its position; failures counted by the "error" key. */
  method BatchDocumentWorkflow(files: seq<(seq<bv8>, string)>, store: (seq<bv8>, string) -> Result<StoredDocument, string>,
                               batchId: string, processedAt: real)
    returns (b: WorkflowBatch)
    ensures |b.results| == |files| == b.totalDocuments
    ensures forall i :: 0 <= i < |files| ==> b.results[i] == WorkflowEntryAt(store, files, i) && b.results[i].batchIndex == i
    ensures b.failed == CountErrored(b.results) && b.successful + b.failed == b.totalDocuments
    ensures b.batchId == batchId && b.processedAt == processedAt
  {
    var results: seq<WorkflowEntry> := [];
    var i := 0;
    while i < |files|
      invariant 0 <= i <= |files| && |results| == i
      invariant forall j :: 0 <= j < i ==> results[j] == WorkflowEntryAt(store, files, j)
    {
      var entry := match store(files[i].0, files[i].1)
        case Success(doc) => Stored(i, doc)
        case Failure(m) => Errored(i, files[i].1, m);
      results := results + [entry];
      i := i + 1;
    }
    var failed := CountErrored(results);
    b := WorkflowBatch(batchId, |files|, |files| - failed, failed, results, processedAt);
  }

  /** The failed count is the number of inputs whose workflow raised. */
  lemma {:induction false} ErroredCountsFailures(store: (seq<bv8>, string) -> Result<StoredDocument, string>,
                                                 files: seq<(seq<bv8>, string)>, es: seq<WorkflowEntry>)
    requires |es| == |files|
    requires forall i :: 0 <= i < |files| ==> es[i] == WorkflowEntryAt(store, files, i)
    ensures CountErrored(es) == |set i | 0 <= i < |files| && store(files[i].0, files[i].1).Failure?|
    decreases |files|
  {
    var failing := set i | 0 <= i < |files| && store(files[i].0, files[i].1).Failure?;
    if |files| > 0 {
      var n := |files| - 1;
      ErroredCountsFailures(store, files[..n], es[..n]) by {
        forall i | 0 <= i < n
          ensures es[..n][i] == WorkflowEntryAt(store, files[..n], i)
        {
          assert files[..n][i] == files[i];
        }
      }
      var before := set i | 0 <= i < n && store(files[..n][i].0, files[..n][i].1).Failure?;
      assert before == set i | 0 <= i < n && store(files[i].0, files[i].1).Failure?;
      if store(files[n].0, files[n].1).Failure? {
        assert failing == before + {n};
      } else {
        assert failing == before;
      }
    } else {
      assert failing == {};
    }
  }

  // ------------------------------------------------------------- paging

  datatype DocumentPage = DocumentPage(documents: seq<Dict<Value>>, total: int, limit: int, skip: int, hasMore: bool)

  /** `list_stored_documents`: the page the storage returned, with
      `has_more` set when documents remain past it. */
  function ListStoredDocuments(documents: seq<Dict<Value>>, total: int, limit: int, skip: int): (p: DocumentPage)
    ensures p.documents == documents && p.total == total && p.limit == limit && p.skip == skip
    ensures p.hasMore <==> skip + limit < total
  {
    DocumentPage(documents, total, limit, skip, skip + limit < total)
  }

  // ---------------------------------------------------- pipeline record

  /** `format_for_pipeline` as written: the metadata is built without its
      required `processing_time`. */
  function FormatForPipelineAsWritten(result: ProcessingResult, documentId: string, metadataId: string, processedAt: string)
    : (r: Result<PipelineData, string>)
    ensures r.Success? ==> && r.value.documentId == documentId
                           && r.value.confidenceScore == result.overallConfidence
                           && r.value.extractedFields == result.extractedData
  {
    match BuildProcessingMetadata(metadataId, processedAt, Some("1.0.0"), result.extractionMethod, None)
    case Failure(e) => Failure(e)
    case Success(metadata) =>
      Success(PipelineData(documentId, result.documentType, result.overallConfidence, result.needsHumanReview,
                           result.extractionMethod, result.processingTime, result.extractedData, metadata))
  }

  /** As written, formatting any result for the pipeline raises. */
  lemma PipelineFormattingAlwaysRaises(result: ProcessingResult, documentId: string, metadataId: string, processedAt: string)
    ensures FormatForPipelineAsWritten(result, documentId, metadataId, processedAt).Failure?
  {
  }

  /** `format_for_pipeline` with the result's processing time passed on to
      the metadata: it copies the result's fields, the overall confidence
      as `confidence_score` and the extracted data unchanged; it raises only
      when the result's method or type is outside the enumerations. */
  function FormatForPipeline(result: ProcessingResult, documentId: string, metadataId: string, processedAt: string)
    : (r: Result<PipelineData, string>)
    ensures r.Success? <==> result.extractionMethod in ExtractionMethodValues && result.documentType in DocumentTypeValues
    ensures r.Success? ==> && r.value.documentId == documentId
                           && r.value.documentType == result.documentType
                           && r.value.confidenceScore == result.overallConfidence
                           && r.value.needsHumanReview == result.needsHumanReview
                           && r.value.extractionMethod == result.extractionMethod
                           && r.value.processingTime == result.processingTime
                           && r.value.extractedFields == result.extractedData
    ensures r.Success? ==>
      r.value.metadata == ProcessingMetadata(metadataId, processedAt, "1.0.0", result.extractionMethod, result.processingTime)
  {
    var metadata :- BuildProcessingMetadata(metadataId, processedAt, Some("1.0.0"), result.extractionMethod, Some(result.processingTime));
    if result.documentType !in DocumentTypeValues then Failure("validation error for PipelineData: document_type")
    else Success(PipelineData(documentId, result.documentType, result.overallConfidence, result.needsHumanReview,
                              result.extractionMethod, result.processingTime, result.extractedData, metadata))
  }

  /** Every record the declared enumerations admit reaches the pipeline. */
  lemma AdmittedResultsReachPipeline(result: ProcessingResult, documentId: string, metadataId: string, processedAt: string)
    requires AdmitsProcessingResult(result)
    ensures FormatForPipeline(result, documentId, metadataId, processedAt).Success?
  {
  }
}
