/** Workflow orchestration: the in-memory status map of `WorkflowService`,
    the webhook hand-off, the export dispatch of the service and of the
    older route module, and the recursive dictionary-to-XML serialiser both
    of them use. */
module Workflow {
  import opened Wrappers
  import opened Dicts
  import opened Json
  import opened Strs
  import opened Models
  import opened Batch
  import opened Textract

  // ---------------------------------------------------------------- XML

  /** The declaration line every export starts with. */
  const XmlDeclaration := "<?xml version=\"1.0\" encoding=\"UTF-8\"?>\n"

  /** `<key>text</key>`, with the text interpolated as it is. */
  function Leaf(key: string, text: string): string {
    "<" + key + ">" + text + "</" + key + ">"
  }

  /** One element per list item, each with the list's key. */
  function XmlItems(key: string, items: seq<Value>, show: Value -> string): string {
    if |items| == 0 then "" else XmlItems(key, items[..|items| - 1], show) + Leaf(key, show(items[|items| - 1]))
  }

  /** `dict_to_xml_recursive(d, tag)`: the tag around the entries. */
  function XmlElement(d: Dict<Value>, tag: string, show: Value -> string): string
    decreases d, 2
  {
    "<" + tag + ">" + XmlEntries(d, show) + "</" + tag + ">"
  }

  /** The entries of a dictionary, in insertion order. */
  function XmlEntries(d: Dict<Value>, show: Value -> string): string
    decreases d, 1
  {
    if |d| == 0 then "" else XmlEntries(d[..|d| - 1], show) + XmlEntry(d, |d| - 1, show)
  }

  /** The entry at position `i`: a nested element for a dictionary, one leaf
      per item for a list, a leaf holding `str(value)` otherwise. */
  function XmlEntry(d: Dict<Value>, i: nat, show: Value -> string): string
    requires i < |d|
    decreases d, 0
  {
    var key := d[i].key;
    match d[i].value
    case Obj(m) => XmlElement(m, key, show)
    case Arr(items) => XmlItems(key, items, show)
    case _ => Leaf(key, show(d[i].value))
  }

  /** `_dict_to_xml(data, root_tag)`. */
  function DictToXml(d: Dict<Value>, rootTag: string, show: Value -> string): (x: string)
    ensures XmlDeclaration <= x
    ensures x == XmlDeclaration + "<" + rootTag + ">" + XmlEntries(d, show) + "</" + rootTag + ">"
  {
    XmlDeclaration + XmlElement(d, rootTag, show)
  }

  /** An entry's rendering depends on the entry alone, not on its position. */
  lemma XmlEntryLocal(d: Dict<Value>, e: Dict<Value>, i: nat, j: nat, show: Value -> string)
    requires i < |d| && j < |e| && d[i] == e[j]
    ensures XmlEntry(d, i, show) == XmlEntry(e, j, show)
  {
  }

  /** Entries are written in insertion order: the XML of two dictionaries
      laid end to end is the XML of the first followed by that of the second. */
  lemma {:induction false} XmlEntriesAppend(d1: Dict<Value>, d2: Dict<Value>, show: Value -> string)
    ensures XmlEntries(d1 + d2, show) == XmlEntries(d1, show) + XmlEntries(d2, show)
    decreases |d2|
  {
    if |d2| > 0 {
      var n := |d2| - 1;
      assert (d1 + d2)[..|d1 + d2| - 1] == d1 + d2[..n];
      XmlEntriesAppend(d1, d2[..n], show);
      XmlEntryLocal(d1 + d2, d2, |d1 + d2| - 1, n, show);
    } else {
      assert d1 + d2 == d1;
    }
  }

  /** A scalar is written inside its key's element exactly as `str` renders
      it: nothing is escaped, so a string holding `<` or `&` is copied
      verbatim. */
  lemma ScalarsNotEscaped(rootTag: string, key: string, s: string, show: Value -> string)
    requires PyStr(show)
    ensures DictToXml([Entry(key, Str(s))], rootTag, show) ==
      XmlDeclaration + "<" + rootTag + ">" + "<" + key + ">" + s + "</" + key + ">" + "</" + rootTag + ">"
  {
    var d := [Entry(key, Str(s))];
    assert d[..0] == [];
    assert XmlEntries(d, show) == Leaf(key, s);
  }

  /** A list becomes one element per item, all named by the list's key. */
  lemma ListItemsRepeatKey(key: string, a: Value, b: Value, show: Value -> string)
    ensures XmlEntries([Entry(key, Arr([a, b]))], show) == Leaf(key, show(a)) + Leaf(key, show(b))
  {
    var d := [Entry(key, Arr([a, b]))];
    assert d[..0] == [];
    assert [a, b][..1] == [a] && [a][..0] == [];
    assert XmlItems(key, [a], show) == Leaf(key, show(a));
    assert XmlItems(key, [a, b], show) == Leaf(key, show(a)) + Leaf(key, show(b));
    assert XmlEntry(d, 0, show) == XmlItems(key, [a, b], show);
  }

  /** A nested dictionary becomes an element named by its key. */
  lemma NestedDictNamedByKey(key: string, m: Dict<Value>, show: Value -> string)
    ensures XmlEntries([Entry(key, Obj(m))], show) == "<" + key + ">" + XmlEntries(m, show) + "</" + key + ">"
  {
    var d := [Entry(key, Obj(m))];
    assert d[..0] == [];
    assert XmlEntry(d, 0, show) == XmlElement(m, key, show);
  }

  /** `dict_to_xml_recursive`, building the string with `+=` over the
      entries and over each list's items, and recursing into dictionaries. */
  method DictToXmlRecursive(d: Dict<Value>, tag: string, show: Value -> string) returns (xml: string)
    ensures xml == XmlElement(d, tag, show)
    decreases d, 2
  {
    xml := "<" + tag + ">";
    var i := 0;
    while i < |d|
      invariant 0 <= i <= |d|
      invariant xml == "<" + tag + ">" + XmlEntries(d[..i], show)
    {
      var key := d[i].key;
      var value := d[i].value;
      var part: string;
      if value.Obj? {
        part := DictToXmlRecursive(value.fields, key, show);
      } else if value.Arr? {
        part := ItemsToXml(key, value.items, show);
      } else {
        part := Leaf(key, show(value));
      }
      assert part == XmlEntry(d, i, show);
      assert XmlEntries(d[..i + 1], show) == XmlEntries(d[..i], show) + part by {
        assert d[..i + 1][..i] == d[..i];
        XmlEntryLocal(d[..i + 1], d, i, i, show);
      }
      Associate("<" + tag + ">", XmlEntries(d[..i], show), part);
      xml := xml + part;
      i := i + 1;
    }
    assert d[..i] == d;
    xml := xml + "</" + tag + ">";
  }

  /** The inner loop over a list's items: one leaf each, in list order. */
  method ItemsToXml(key: string, items: seq<Value>, show: Value -> string) returns (part: string)
    ensures part == XmlItems(key, items, show)
  {
    part := "";
    var j := 0;
    while j < |items|
      invariant 0 <= j <= |items|
      invariant part == XmlItems(key, items[..j], show)
    {
      assert items[..j + 1][..j] == items[..j];
      part := part + Leaf(key, show(items[j]));
      j := j + 1;
    }
    assert items[..j] == items;
  }

  /** `_dict_to_xml`: the declaration line, then the root element. */
  method DictToXmlMethod(d: Dict<Value>, rootTag: string, show: Value -> string) returns (x: string)
    ensures x == DictToXml(d, rootTag, show)
  {
    var body := DictToXmlRecursive(d, rootTag, show);
    x := XmlDeclaration + body;
  }

  // ------------------------------------------------------------ webhook

  /** What posting to the webhook came back with. */
  datatype WebhookReply = WebhookStatus(code: int) | WebhookRaised(message: string)

  /** `_forward_to_webhook` of the service: delivered exactly on status 200;
      an exception is a failed delivery. */
  predicate Delivered(reply: WebhookReply) {
    reply == WebhookStatus(200)
  }

  /** `if webhook_url:`: a URL that is given and not empty. */
  predicate HasWebhook(webhookUrl: Option<string>) {
    webhookUrl.Some? && webhookUrl.value != ""
  }

  // ------------------------------------------------------ status report

  /** The dictionary `get_workflow_status` returns. */
  datatype StatusReport = StatusReport(workflowId: string, status: string, lastUpdated: string)

  const LastUpdatedPlaceholder := "2025-01-01T00:00:00Z"

  /** The response of `process_and_forward`, by workflow type. */
  datatype WorkflowResponse =
    | ScanResponse(workflowId: string, workflowType: string, processingResult: ProcessingResult, forwarded: bool)
    | StoredResponse(workflowId: string, workflowType: string, document: StoredDocument, forwarded: bool)

  /** The response before forwarding, or what the workflow raised. */
  function Respond(workflowId: string, workflowType: WorkflowType,
                   scanned: Result<ProcessingResult, string>, stored: Result<StoredDocument, string>)
    : (r: Result<WorkflowResponse, string>)
    ensures workflowType == QuickScan ==> (r.Success? <==> scanned.Success?)
    ensures workflowType == DocumentWorkflow ==> (r.Success? <==> stored.Success?)
    ensures r.Success? ==> r.value.workflowId == workflowId && r.value.workflowType == workflowType.Value() && !r.value.forwarded
  {
    match workflowType
    case QuickScan =>
      (match scanned
       case Success(res) => Success(ScanResponse(workflowId, workflowType.Value(), res, false))
       case Failure(e) => Failure(e))
    case DocumentWorkflow =>
      (match stored
       case Success(doc) => Success(StoredResponse(workflowId, workflowType.Value(), doc, false))
       case Failure(e) => Failure(e))
  }

  class WorkflowService {
    /** `active_workflows`: the status of every workflow started so far. */
    var activeWorkflows: map<string, WorkflowStatus>
    /** Every status assignment, in order. */
    ghost var updates: seq<(string, WorkflowStatus)>

    constructor()
      ensures activeWorkflows == map[] && updates == []
    {
      activeWorkflows := map[];
      updates := [];
    }

    /** `get_workflow_status`: None for an id never started; otherwise its
        status value. Every status member is truthy, so a known id always
        reports. */
    function GetWorkflowStatus(workflowId: string): (r: Option<StatusReport>)
      reads this
      ensures r.None? <==> workflowId !in activeWorkflows
      ensures r.Some? ==> r.value == StatusReport(workflowId, activeWorkflows[workflowId].Value(), LastUpdatedPlaceholder)
    {
      if workflowId in activeWorkflows then
        Some(StatusReport(workflowId, activeWorkflows[workflowId].Value(), LastUpdatedPlaceholder))
      else None
    }

    method SetStatus(workflowId: string, status: WorkflowStatus)
      modifies this`activeWorkflows, this`updates
      ensures activeWorkflows == old(activeWorkflows)[workflowId := status]
      ensures updates == old(updates) + [(workflowId, status)]
    {
      activeWorkflows := activeWorkflows[workflowId := status];
      updates := updates + [(workflowId, status)];
    }

    /** `process_and_forward`: the workflow is marked PROCESSING, run, then
        marked COMPLETED, or FAILED when it raised (and the exception is
        raised again). `forwarded` is the delivery outcome when a webhook
        is given, and false otherwise. No other workflow's entry changes. */
    method ProcessAndForward(workflowId: string, workflowType: WorkflowType, webhookUrl: Option<string>,
                             scanned: Result<ProcessingResult, string>, stored: Result<StoredDocument, string>,
                             webhook: WebhookReply)
      returns (r: Result<WorkflowResponse, string>)
      modifies this`activeWorkflows, this`updates
      ensures r.Success? <==> Respond(workflowId, workflowType, scanned, stored).Success?
      ensures r.Failure? ==> r == Respond(workflowId, workflowType, scanned, stored)
      ensures r.Success? ==> r.value == Respond(workflowId, workflowType, scanned, stored).value.(
        forwarded := HasWebhook(webhookUrl) && Delivered(webhook))
      ensures activeWorkflows == old(activeWorkflows)[workflowId := if r.Success? then Completed else Failed]
      ensures updates == old(updates) + [(workflowId, Processing), (workflowId, if r.Success? then Completed else Failed)]
      ensures GetWorkflowStatus(workflowId).Some?
      ensures GetWorkflowStatus(workflowId).value.status == if r.Success? then "completed" else "failed"
    {
      SetStatus(workflowId, Processing);
      var response := Respond(workflowId, workflowType, scanned, stored);
      if response.Failure? {
        SetStatus(workflowId, Failed);
        return response;
      }
      var data := response.value;
      if HasWebhook(webhookUrl) {
        data := data.(forwarded := Delivered(webhook));
      }
      SetStatus(workflowId, Completed);
      r := Success(data);
    }
  }

  // ------------------------------------------------------------- export

  /** The renderers the model does not open: `csv.DictWriter` output, the
      service's `json.dumps(..., indent=2)`, Starlette's `JSONResponse`
      body (compact separators, non-ASCII characters kept as they are, so
      `£` is not escaped) and `str`. */
  datatype Renderers = Renderers(csv: Dict<Value> -> string, json: Dict<Value> -> string,
                                 jsonResponse: Dict<Value> -> string, show: Value -> string)

  /** What an export returns: the content, its media type and file name. */
  datatype Export = Export(content: string, mediaType: string, filename: string)

  /** `export_result` of the service: a missing or empty result is an
      error; otherwise CSV, XML under a `document` root, or JSON for any
      other format, named `extract_<id>.<ext>`. */
  function ExportResult(resultId: string, format: ExportFormat, resultData: Option<Dict<Value>>, r: Renderers)
    : (x: Result<Export, string>)
    ensures x.Failure? <==> resultData.None? || resultData.value == []
    ensures x.Failure? ==> x.error == "Result " + resultId + " not found"
    ensures x.Success? && format == CsvFormat ==> x.value == Export(r.csv(resultData.value), "text/csv", "extract_" + resultId + ".csv")
    ensures x.Success? && format == XmlFormat ==>
      x.value == Export(DictToXml(resultData.value, "document", r.show), "application/xml", "extract_" + resultId + ".xml")
    ensures x.Success? && format == JsonFormat ==>
      x.value == Export(r.json(resultData.value), "application/json", "extract_" + resultId + ".json")
  {
    if resultData.None? || resultData.value == [] then Failure("Result " + resultId + " not found")
    else
      var data := resultData.value;
      match format
      case CsvFormat => Success(Export(r.csv(data), "text/csv", "extract_" + resultId + ".csv"))
      case XmlFormat => Success(Export(DictToXml(data, "document", r.show), "application/xml", "extract_" + resultId + ".xml"))
      case JsonFormat => Success(Export(r.json(data), "application/json", "extract_" + resultId + ".json"))
  }

  /** The placeholder record `_get_result_data` and the export route return
      for every id. */
  function SampleData(resultId: string): (d: Dict<Value>)
    ensures |d| == 5 && d[0] == Entry("document_id", Str(resultId))
  {
    [Entry("document_id", Str(resultId)), Entry("vendor_name", Str("Boots UK")),
     Entry("total_amount", Str("\U{A3}2.50")), Entry("invoice_date", Str("16/07/2025")),
     Entry("document_type", Str("receipt"))]
  }

  /** The five leaves of the placeholder record, in its order. */
  function SampleLeaves(resultId: string): string {
    Leaf("document_id", resultId) + Leaf("vendor_name", "Boots UK")
      + Leaf("total_amount", "\U{A3}2.50") + Leaf("invoice_date", "16/07/2025")
      + Leaf("document_type", "receipt")
  }

  /** With the placeholder lookup no export fails. */
  lemma PlaceholderExports(resultId: string, format: ExportFormat, r: Renderers)
    ensures ExportResult(resultId, format, Some(SampleData(resultId)), r).Success?
  {
    var data := SampleData(resultId);
    assert data[0] == Entry("document_id", Str(resultId));
  }

  /** The XML export of the placeholder lists its five fields as leaves
      under `document`. */
  lemma PlaceholderXml(resultId: string, r: Renderers)
    requires PyStr(r.show)
    ensures ExportResult(resultId, XmlFormat, Some(SampleData(resultId)), r).value.content ==
      XmlDeclaration + "<document>" + SampleLeaves(resultId) + "</document>"
  {
    XmlExportUnderDocument(resultId, SampleData(resultId), r);
    SampleEntries(resultId, r.show);
  }

  /** An XML export is the declaration and the entries under `document`. */
  lemma XmlExportUnderDocument(resultId: string, d: Dict<Value>, r: Renderers)
    requires d != []
    ensures ExportResult(resultId, XmlFormat, Some(d), r).value.content ==
      XmlDeclaration + "<document>" + XmlEntries(d, r.show) + "</document>"
  {
    var root := "document";
    Regroup(XmlDeclaration, "<", root, ">", XmlEntries(d, r.show), "</");
    assert "<" + root + ">" == "<document>" && "</" + root + ">" == "</document>";
  }

  lemma Regroup(pre: string, lt: string, tag: string, gt: string, body: string, lts: string)
    ensures pre + lt + tag + gt + body + lts + tag + gt == pre + (lt + tag + gt) + body + (lts + tag + gt)
  {
  }

  /** A dictionary of one string is one leaf. */
  lemma SingleLeaf(key: string, s: string, show: Value -> string)
    requires PyStr(show)
    ensures XmlEntries([Entry(key, Str(s))], show) == Leaf(key, s)
  {
    var d := [Entry(key, Str(s))];
    assert d[..0] == [];
    assert XmlEntry(d, 0, show) == Leaf(key, s);
  }

  lemma SampleEntries(resultId: string, show: Value -> string)
    requires PyStr(show)
    ensures XmlEntries(SampleData(resultId), show) == SampleLeaves(resultId)
  {
    var e0, e1, e2, e3, e4 := [Entry("document_id", Str(resultId))], [Entry("vendor_name", Str("Boots UK"))],
      [Entry("total_amount", Str("\U{A3}2.50"))], [Entry("invoice_date", Str("16/07/2025"))],
      [Entry("document_type", Str("receipt"))];
    assert SampleData(resultId) == e0 + e1 + e2 + e3 + e4;
    SingleLeaf("document_id", resultId, show);
    SingleLeaf("vendor_name", "Boots UK", show);
    SingleLeaf("total_amount", "\U{A3}2.50", show);
    SingleLeaf("invoice_date", "16/07/2025", show);
    SingleLeaf("document_type", "receipt", show);
    XmlEntriesAppend(e0, e1, show);
    XmlEntriesAppend(e0 + e1, e2, show);
    XmlEntriesAppend(e0 + e1 + e2, e3, show);
    XmlEntriesAppend(e0 + e1 + e2 + e3, e4, show);
  }

  // -------------------------------------------------- route module variant

  /** The response of the route's `export_result`; the JSON branch carries
      no attachment name. */
  datatype RouteExport = RouteExport(content: string, mediaType: string, attachment: Option<string>)

  /** `export_result` of the route module: the format string selects CSV or
      XML, and any other value gives the JSON response, rendered by
      `JSONResponse` rather than by the service's indented `json.dumps`. */
  function RouteExportResult(resultId: string, format: string, r: Renderers): (x: RouteExport)
    ensures format == "csv" ==> x == RouteExport(r.csv(SampleData(resultId)), "text/csv", Some("extract_" + resultId + ".csv"))
    ensures format == "xml" ==>
      x == RouteExport(DictToXml(SampleData(resultId), "document", r.show), "application/xml", Some("extract_" + resultId + ".xml"))
    ensures format != "csv" && format != "xml" ==> x == RouteExport(r.jsonResponse(SampleData(resultId)), "application/json", None)
  {
    var data := SampleData(resultId);
    if format == "csv" then RouteExport(r.csv(data), "text/csv", Some("extract_" + resultId + ".csv"))
    else if format == "xml" then RouteExport(DictToXml(data, "document", r.show), "application/xml", Some("extract_" + resultId + ".xml"))
    else RouteExport(r.jsonResponse(data), "application/json", None)
  }

  /** The route's `process_and_forward` response. */
  datatype RouteResponse = RouteResponse(processingResult: ProcessingResult, pipelineData: PipelineData, forwarded: bool)

  /** The route's `process_and_forward` as written: it formats the result
      for the pipeline with the metadata missing its processing time. */
  function RouteProcessAndForwardAsWritten(processed: Result<ProcessingResult, string>, webhookUrl: Option<string>,
                                           documentId: string, metadataId: string, processedAt: string)
    : (r: Result<RouteResponse, HttpError>)
    ensures r.Failure? ==> r.error.status == 500
    ensures r.Success? ==> processed.Success? && r.value.processingResult == processed.value
                           && (r.value.forwarded <==> HasWebhook(webhookUrl))
  {
    match processed
    case Failure(e) => Failure(HttpError(500, e))
    case Success(res) =>
      match FormatForPipelineAsWritten(res, documentId, metadataId, processedAt)
      case Failure(e) => Failure(HttpError(500, e))
      case Success(p) => Success(RouteResponse(res, p, HasWebhook(webhookUrl)))
  }

  /** As written, the route answers 500 for every upload. */
  lemma RouteAlwaysFails(processed: Result<ProcessingResult, string>, webhookUrl: Option<string>,
                         documentId: string, metadataId: string, processedAt: string)
    ensures RouteProcessAndForwardAsWritten(processed, webhookUrl, documentId, metadataId, processedAt).Failure?
    ensures RouteProcessAndForwardAsWritten(processed, webhookUrl, documentId, metadataId, processedAt).error.status == 500
  {
    if processed.Success? {
      PipelineFormattingAlwaysRaises(processed.value, documentId, metadataId, processedAt);
    }
  }

  /** The route's `process_and_forward` with the pipeline record built from
      the result's processing time. The webhook's outcome is ignored, so
      `forwarded` holds whenever a webhook URL is given. */
  function RouteProcessAndForward(processed: Result<ProcessingResult, string>, webhookUrl: Option<string>,
                                  documentId: string, metadataId: string, processedAt: string)
    : (r: Result<RouteResponse, HttpError>)
    ensures r.Failure? ==> r.error.status == 500
    ensures processed.Success? && AdmitsProcessingResult(processed.value) ==> r.Success?
    ensures r.Success? ==> && processed.Success?
                           && r.value.processingResult == processed.value
                           && r.value.pipelineData.confidenceScore == processed.value.overallConfidence
                           && r.value.pipelineData.extractedFields == processed.value.extractedData
                           && (r.value.forwarded <==> HasWebhook(webhookUrl))
  {
    match processed
    case Failure(e) => Failure(HttpError(500, e))
    case Success(res) =>
      match FormatForPipeline(res, documentId, metadataId, processedAt)
      case Failure(e) => Failure(HttpError(500, e))
      case Success(p) => Success(RouteResponse(res, p, HasWebhook(webhookUrl)))
  }
}
