# Document intake pipeline: a Dafny model of its decision layer

This project models the deterministic core of a document-intake service, together with its older variant under `src/snap_ai/`. An uploaded file goes through these steps:

- it is validated (extension, camera-capture default, 10 MiB limit) and described;
- its text is extracted by extension (plain text, PDF pages, OCR of images);
- it is classified, and fields are extracted by whichever language-model backend the processor selected at start-up (ollama, then huggingface, then openai);
- the model's reply is parsed by brace slicing, item lists are post-processed into bullet lines, and the result is scored and graded for human review;
- the result is converted into a validated `ProcessingResult`, batched with success and failure counts, tracked in an in-memory workflow status map, and exported as CSV, XML or JSON.

The model is written in Dafny.

- Pure lookups and rules are functions with contracts.
- Code that changes state step by step is imperative:
  - the processor's probe chain and the prompt loader's catalog are classes whose methods assign fields;
  - the workflow status map is a class field that is reassigned;
  - the item post-processing, the batch loops, the PDF page loop and the XML serialiser are methods with loops.

  Each is proved against a specification function.
- Pydantic validation is modelled by `Build*` functions that return a `Result`. A record outside a declared enum or bound is a failure, not a precondition.
- External libraries and services become inputs with the properties the code relies on:
  - the classifier, the backends, `json.loads`, pypdf and OCR;
  - `str()` of a JSON value, the CSV writer and the webhook.

Modules:

- `Wrappers`, `Strs`, `Dicts`, `Json`: option/result types; Python string operations; insertion-ordered dictionaries; JSON values.
- `Models`: the enums and pydantic records, with their acceptance predicates.
- `Scoring`, `ResponseParser`, `Prompts`, `PostProcess`, `Processor`: the processor of `src/snap_ai/core/processor.py` and the prompt catalog.
- `Legacy`: the older processor of `src/snap_ai/processor.py`.
- `Uploads`, `Batch`: validation, conversion, batch aggregation, paging and the pipeline hand-off.
- `Workflow`: the workflow service and the older workflow routes.
- `Textract`: text extraction.

`src/snap_ai/prompt_loader.py` is a line-for-line copy of `backend/src/core/prompt_loader.py` and is modelled once.

## Model

| member | source | states |
|---|---|---|
| Models.DocumentTypeOf | backend/src/models/document_model.py:11-16 | a string is a document type exactly when it is one of invoice, contract, form, receipt, unknown, and the member's value is that string |
| Models.ConfidenceLevelOf | backend/src/models/document_model.py:18-21 | the confidence levels are exactly high, medium, low |
| Models.ExtractionMethodOf | backend/src/models/document_model.py:23-26 | the extraction methods are exactly ollama, huggingface, openai |
| Models.ExtractionMethodValuesExact | src/snap_ai/models/document.py:22-25 | every method's value converts back to it, and "none" is not a method |
| Models.WorkflowTypeOf | backend/src/models/workflow_model.py:11-13 | the workflow types are exactly quick_scan and document_workflow |
| Models.ExportFormatOf | backend/src/models/workflow_model.py:15-18 | the export formats are exactly json, csv, xml |
| Models.WorkflowStatusOf | backend/src/models/workflow_model.py:20-24 | the workflow statuses are exactly pending, processing, completed, failed |
| Models.NewFileInfo | backend/src/models/document_model.py:29-34 | a file info built without the flag is not a camera capture and keeps the other fields |
| Models.BuildProcessingResult | backend/src/models/document_model.py:44-69 | a result validates exactly when its type, level and method are enum values and both confidences lie in [0, 1]; a valid result is kept unchanged |
| Models.BuildRecordWithSentinel | src/snap_ai/models/document.py:55-80 | the same check with "none" also admitted as a method; it agrees with the strict check on every result the strict check admits |
| Models.BuildProcessingMetadata | src/snap_ai/models/document.py:47-53 | metadata validates exactly when the processing time is given and the method is an enum value; the processor version defaults to "1.0.0" |
| Models.BuildProcessingRequest | src/snap_ai/models/document.py:27-31 | a request validates exactly when the output format (default json) is json, csv or xml and any threshold lies in [0, 1] |
| Models.BuildBatchProcessingRequest | src/snap_ai/models/document.py:82-86 | a batch request validates exactly when max_files (default 10) is at most 50 |
| Models.BuildWebhookConfig | backend/src/models/workflow_model.py:27-32 | a webhook configuration validates exactly when the timeout (default 30) is in [1, 300] and the retry count (default 3) is in [0, 10] |
| Models.NewWorkflowConfiguration | backend/src/models/workflow_model.py:34-41 | a configuration is enabled unless it is explicitly disabled; its optional parts default to absent |
| Scoring.CountTruthy | src/snap_ai/core/processor.py:325 | the truthy-value count is at most the key count; it equals the key count exactly when every value is truthy, and is zero exactly when none is |
| Scoring.Completeness | src/snap_ai/core/processor.py:322-329 | completeness is 0.5 for an empty map or one with an "error" key, otherwise the share of truthy values among all values; it always lies in [0, 1] |
| Scoring.Ratio | src/snap_ai/core/processor.py:327-329 | the share times the number of values is the truthy count; it lies in [0, 1], is 1 exactly when every value counts and 0 exactly when none does |
| Scoring.CompletenessExtremes | src/snap_ai/core/processor.py:322-329 | for a non-empty map without "error", completeness is 1 exactly when every value is truthy and 0 exactly when none is |
| Scoring.Clamp01 | src/snap_ai/core/processor.py:334 | the clamp lies in [0, 1], is the identity there, and maps values below to 0 and above to 1 |
| Scoring.OverallConfidence | src/snap_ai/core/processor.py:331-334 | the overall confidence lies in [0, 1] and is 0.4·ml + 0.6·completeness for a classifier confidence in [0, 1] |
| Scoring.Level | src/snap_ai/core/processor.py:336-343 | high exactly at 0.8 and above, medium exactly at or above the threshold and below 0.8, low otherwise |
| Scoring.NeedsReview | src/snap_ai/core/processor.py:203 | review is needed exactly when the score is below both the threshold and 0.8 |
| Scoring.LevelMonotone | src/snap_ai/core/processor.py:336-343 | a higher score never gets a lower level |
| Scoring.ReviewMonotoneInThreshold | src/snap_ai/core/processor.py:340 | raising the threshold never removes the need for review |
| Scoring.DefaultThresholdReview | src/snap_ai/core/processor.py:340 | at the default threshold 0.6, review is needed exactly below 0.6 |
| Scoring.EmptyMapConfidence | src/snap_ai/core/processor.py:323-334 | an empty extraction scores 0.4·ml + 0.3 |
| Scoring.ErrorMapConfidence | src/snap_ai/core/processor.py:323-334 | an extraction with an "error" key scores 0.4·ml + 0.3, is never high, and needs review at the default threshold exactly when ml < 0.75 |
| Scoring.CompleteMapHighIff | src/snap_ai/core/processor.py:317-343 | with every field filled, the level is high exactly when ml ≥ 0.5 |
| Scoring.EmptyValuesAlwaysReviewed | src/snap_ai/core/processor.py:317-343 | with every field empty, the score is 0.4·ml and always needs review at the default threshold |
| ResponseParser.RawResponse | src/snap_ai/core/processor.py:312 | the fallback map has the single key raw_response holding the whole reply |
| ResponseParser.BraceSlice | src/snap_ai/core/processor.py:305-309 | a slice exists exactly when both braces occur with the first `{` before the last `}`; it starts with `{`, ends with `}`, no `{` precedes it and no `}` follows it |
| ResponseParser.BraceSliceSplits | src/snap_ai/core/processor.py:305-309 | nothing of the reply is lost: it is the text before the first `{`, the slice, and the text after the last `}` |
| ResponseParser.ParseJsonResponse | src/snap_ai/core/processor.py:301-315 | when the slice parses, the result is the parsed object; when there is no slice or it does not parse, the result is exactly the raw_response map |
| ResponseParser.ParseResultOrigin | src/snap_ai/core/processor.py:301-315 | every parse result is either the raw_response map or an object that some `{`-initial substring of the reply parses to |
| ResponseParser.ParseEmbeddedObject | src/snap_ai/core/processor.py:305-310 | an object embedded between brace-free text is recovered exactly |
| ResponseParser.ParseReversedBraces | src/snap_ai/core/processor.py:308-312 | the reply `} no object {`, whose only `}` precedes its only `{`, falls back to the raw_response map |
| Prompts.Escape | backend/src/core/prompt_loader.py:74 | the literal escaping `Render` uses, the inverse of `str.format`'s `{{`/`}}` handling: doubling braces leaves brace-free text unchanged |
| Prompts.FormatEscape | backend/src/core/prompt_loader.py:74 | `str.format` turns doubled braces back into the literal text |
| Prompts.DigitZero | backend/src/core/prompt_loader.py:74 | a code point is a decimal digit when it lies in one of the runs of ten of the Unicode 15.0 table, and the run found holds it; an ASCII digit's run starts at `0` |
| Prompts.DecimalValue | backend/src/core/prompt_loader.py:74 | the decimal value `str.format` gives a character is 0 to 9 or -1 (not a digit), and an ASCII digit has its own value |
| Prompts.GetIntegerFrom | backend/src/core/prompt_loader.py:74 | CPython's `get_integer`: its only failure is the "Too many decimal digits in format string" ValueError, and an index it reads never exceeds `PY_SSIZE_T_MAX` |
| Prompts.GetIntegerOverflow | backend/src/core/prompt_loader.py:74 | a run of decimal digits worth more than `PY_SSIZE_T_MAX` raises that ValueError whatever follows the run, as the overflow is tested digit by digit |
| Prompts.IndexFailure | backend/src/core/prompt_loader.py:74 | an empty first name part is an IndexError (there are no positional arguments), and the only failures decided before lookup are that IndexError and the overflow ValueError |
| Prompts.FormatField | backend/src/core/prompt_loader.py:74 | a `{name}` field whose name has no brace, `:`, `!`, `.` or `[` raises what `get_integer` decides for an empty, numeric or overflowing name, a KeyError when it is unknown, and otherwise gives its value |
| Prompts.UnicodeDigitIndex | backend/src/core/prompt_loader.py:74 | `{٣}` (an Arabic-Indic digit) is a positional field and raises IndexError, so `format_prompt` does not fall back |
| Prompts.OverflowingDigitsRaise | backend/src/core/prompt_loader.py:74 | a field name starting with twenty nines, such as `99999999999999999999a`, raises the overflow ValueError before its letters are read, so `format_prompt` does not fall back |
| Prompts.FormatSpecField | backend/src/core/prompt_loader.py:74 | in `{name:spec}` the name ends at the `:`: `{text:>5}` looks up `text`, an unknown name is a KeyError for that name alone, and an empty spec changes nothing |
| Prompts.FormatConversionField | backend/src/core/prompt_loader.py:74 | in `{name!c}` the name ends at the `!`, and `!s` of a string is the string itself |
| Prompts.FieldNameBraceRaises | backend/src/core/prompt_loader.py:74 | a `{` inside a field name, as in `"{a{b}"`, raises ValueError |
| Prompts.MalformedTemplateEscapes | backend/src/core/prompt_loader.py:73-78 | the ValueError of a malformed template is not caught by the KeyError fallback and escapes `format_prompt` |
| Prompts.FormatRender | backend/src/core/prompt_loader.py:74 | formatting a template rendered from literal and plain-named field segments is segment-wise substitution |
| Prompts.LoadPrompts | backend/src/core/prompt_loader.py:17-27 | a parsed file is used as it is; a missing file or a YAML error gives the built-in catalog |
| Prompts.GetPrompt | backend/src/core/prompt_loader.py:46-61 | lookup tries the exact (type, method) entry, then the default for the method, then the synthesized template |
| Prompts.Preview | backend/src/core/prompt_loader.py:68-71 | the preview is the prefix of length min(300, len) and is the whole text up to 300 characters |
| Prompts.FormatPrompt | backend/src/core/prompt_loader.py:63-78 | the template is formatted with `text` and `text_preview`; only a KeyError falls back to replacing "{text}" and then "{text_preview}" (with text[:300]); other format errors propagate |
| Prompts.DefaultLookups | backend/src/core/prompt_loader.py:29-44 | the built-in catalog gives the invoice prompts for invoices and the default prompts for every other type |
| Prompts.FormatNoBraces | backend/src/core/prompt_loader.py:74 | a brace-free template formats to itself |
| Prompts.FormatPromptOneField | backend/src/core/prompt_loader.py:63-74 | a template with one text or text_preview field is that field's value between the fixed parts |
| Prompts.DefaultInvoiceOllamaPrompt | backend/src/core/prompt_loader.py:34 | the built-in invoice ollama prompt embeds the whole text |
| Prompts.DefaultHuggingFacePrompt | backend/src/core/prompt_loader.py:42 | the built-in default huggingface prompt embeds only the 300-character preview |
| Prompts.DefaultInvoiceHuggingFacePrompt | backend/src/core/prompt_loader.py:36 | the built-in invoice huggingface prompt embeds only the preview |
| Prompts.DefaultOtherOllamaPrompt | backend/src/core/prompt_loader.py:40 | any other type's ollama prompt is the default one around the whole text |
| Prompts.SynthesizedPromptFormats | backend/src/core/prompt_loader.py:60-61 | with no catalog entry, the synthesized prompt names the type and embeds the text |
| Prompts.UnknownFieldFallsBack | backend/src/core/prompt_loader.py:75-78 | a template with an unknown field is filled by literal replacement |
| Prompts.PromptLoader.constructor | backend/src/core/prompt_loader.py:13-15 | the loader starts with the loaded catalog |
| Prompts.PromptLoader.ReloadPrompts | backend/src/core/prompt_loader.py:80-83 | reloading replaces the catalog with a fresh load |
| Prompts.PromptLoader.AvailableDocumentTypes | backend/src/core/prompt_loader.py:85-87 | the listed types are exactly the catalog's document types |
| Prompts.PromptLoader.AvailableMethods | backend/src/core/prompt_loader.py:89-100 | the methods are exactly those offered by some document type or by the default |
| Prompts.DefaultCatalogShape | backend/src/core/prompt_loader.py:29-44 | the built-in catalog offers exactly ollama, openai and huggingface, and has one document type, invoice |
| PostProcess.LineEnd | src/snap_ai/core/processor.py:396 | the end of the current line is the next newline or the end of the text |
| PostProcess.CloseAt | src/snap_ai/core/processor.py:396 | the closing bracket found is the last `]` on the line of the opening `[` |
| PostProcess.SearchFromSpec | src/snap_ai/core/processor.py:396 | the search from a position finds the leftmost `[` that has a `]` later on its line, and the greedy last such `]` |
| PostProcess.BracketMatchSpec | src/snap_ai/core/processor.py:396 | `re.search(r'\[.*\]')`: the match is the leftmost `[` that has a later `]` on the same line, extended to the last such `]`; no match means no such pair |
| PostProcess.LinesAt | src/snap_ai/core/processor.py:403-420 | one rendered line per item, in order |
| PostProcess.RenderItems | src/snap_ai/core/processor.py:402-420 | the appending loop produces exactly the rendered lines |
| PostProcess.NonEmptyStripped | src/snap_ai/core/processor.py:431 | the comma fallback keeps only non-empty items, no more items than parts |
| PostProcess.NonEmptyStrippedMembers | src/snap_ai/core/processor.py:431 | an item is kept exactly when it is some part, stripped, and not empty |
| PostProcess.NonEmptyStrippedAppend | src/snap_ai/core/processor.py:431 | the items keep the order of the parts: the items of `a + b` are those of `a` followed by those of `b` |
| PostProcess.CommaItems | src/snap_ai/core/processor.py:430-431 | the comma-split items are all non-empty |
| PostProcess.CommaItemsMembers | src/snap_ai/core/processor.py:430-431 | an item is kept exactly when it is a non-empty stripped comma piece of the value with brackets stripped and quotes removed, and those pieces joined with commas give that value back |
| PostProcess.DecideValue | src/snap_ai/core/processor.py:390-433 | the decision for one value follows the specification: render a decoded non-empty list, or fall back to at most five comma items on a decoding error, or keep |
| PostProcess.PostProcessField | src/snap_ai/core/processor.py:386-433 | the in-place update of one field equals the specified rewrite |
| PostProcess.PostProcessItems | src/snap_ai/core/processor.py:383-435 | the loop over the four item fields equals the specified post-processing |
| PostProcess.Renderer | src/snap_ai/core/processor.py:404-420 | a dict item renders by description, quantity, price and total; any other item renders by `str` |
| PostProcess.PostProcessExtractedData | src/snap_ai/core/processor.py:379-435 | `_post_process_extracted_data` equals the specified post-processing with the item renderer |
| PostProcess.PerformFrame | src/snap_ai/core/processor.py:423-433 | a rewrite touches only the field and its `_raw` companion; only a rendered list adds a key |
| PostProcess.ProcessedFieldFrame | src/snap_ai/core/processor.py:386-433 | processing one field leaves every other key unchanged and adds at most `<field>_raw` |
| PostProcess.NonStringFieldUntouched | src/snap_ai/core/processor.py:390 | a missing or non-string field is left as it is |
| PostProcess.DecodedListRendered | src/snap_ai/core/processor.py:397-424 | a decoded non-empty list becomes bullet lines and the original text is kept under `<field>_raw` |
| PostProcess.UndecodableFallback | src/snap_ai/core/processor.py:426-433 | on a decoding error, a bracketed value of at most five comma items becomes bullets without a `_raw` key; anything else is left alone |
| PostProcess.NoListNoChange | src/snap_ai/core/processor.py:397-401 | no match, or a decoded value that is not a non-empty list, leaves the map unchanged |
| PostProcess.PostProcessedFrame | src/snap_ai/core/processor.py:383-386 | keys other than the four item fields and their `_raw` companions are never changed |
| PostProcess.QuantityShown | src/snap_ai/core/processor.py:411-412 | the quantity is shown exactly when it is truthy and not 1 |
| PostProcess.QuantityOneHidden | src/snap_ai/core/processor.py:406-412 | a quantity of 1, or none at all, is not shown |
| PostProcess.PriceAndTotalShown | src/snap_ai/core/processor.py:413-416 | a price and a total are appended as " @ price" and " = total" |
| PostProcess.UnnamedItem | src/snap_ai/core/processor.py:405 | an item without description or name is called "Item" |
| Processor.SelectedBackend | src/snap_ai/core/processor.py:46-65 | the constructor's probe chain: ollama exactly when its server answers, openai only when LangChain, a non-empty key and the client are all there, and no backend exactly when every probe fails |
| Processor.ProbeOrder | src/snap_ai/core/processor.py:46-65 | ollama wins when reachable, huggingface only if ollama is not, openai only if both are not, and no backend exactly when all three fail |
| Processor.NoKeyNoOpenAI | src/snap_ai/core/processor.py:103-107 | without a non-empty API key openai is never selected |
| Processor.Processor.Init | src/snap_ai/core/processor.py:35-47 | the processor starts with its configuration, the loaded prompt catalog and extraction method "none" |
| Processor.Processor.InitOllama | src/snap_ai/core/processor.py:69-81 | the ollama probe records the URL and model and succeeds exactly on a 200 reply to the tags call |
| Processor.Processor.InitHuggingFace | src/snap_ai/core/processor.py:83-98 | the huggingface probe succeeds exactly when the pipeline loads, and then sets the generator |
| Processor.Processor.InitOpenAI | src/snap_ai/core/processor.py:100-116 | the openai probe succeeds exactly when LangChain is present, the key is non-empty and the client builds |
| Processor.Processor.SelectBackend | src/snap_ai/core/processor.py:47-65 | the probe chain sets the method to the first backend that answers, or leaves "none"; later probes run only when earlier ones fail |
| Processor.Processor.ProcessDocument | src/snap_ai/core/processor.py:164-224 | processing fails exactly when the adapter does, that is when formatting the prompt raises; otherwise the result holds the classification, the post-processed extraction and its overall confidence, the graded level with review exactly for low, the method, the display name, the elapsed time and the text |
| Processor.NewProcessor | src/snap_ai/core/processor.py:35-67 | construction succeeds exactly when some backend answers, and then the method is never "none"; otherwise it raises the no-backend error |
| Processor.RaisedMap | src/snap_ai/core/processor.py:261 | an adapter exception becomes `{error: message, raw_response: ""}` |
| Processor.OllamaOutcome | src/snap_ai/core/processor.py:242-261 | a 200 reply is parsed; another status gives `{error: "Ollama API error: <code>"}`; an exception gives the raised map |
| Processor.TextOutcome | src/snap_ai/core/processor.py:269-278 | generated text is parsed; an exception gives the raised map |
| Processor.FailedCallScoresDefault | src/snap_ai/core/processor.py:254-261 | a failed ollama call yields an "error" key, scores 0.4·ml + 0.3 and is never high |
| Processor.ExtractWith | src/snap_ai/core/processor.py:184-191 | dispatch by method to the adapter with its formatted prompt; a format error escapes; an unknown method gives the "No extraction method available" map |
| Processor.DefaultCatalogNeverFails | src/snap_ai/core/processor.py:236-299 | with the built-in catalog, extraction never raises |
| Processor.DisplayName | src/snap_ai/core/processor.py:345-377 | the alias table's name when the model is listed; otherwise the title-cased ollama model, the last '/' segment of the huggingface model, or the raw openai name; "Unknown Model" otherwise |
| Processor.HuggingFaceNameHasNoSlash | src/snap_ai/core/processor.py:359-365 | an unaliased huggingface display name contains no '/' |
| Processor.DefaultOllamaName | src/snap_ai/core/processor.py:349-355 | the default ollama model shows as "Llama 2" |
| Processor.DefaultOpenAIName | src/snap_ai/core/processor.py:369-374 | the default openai model shows as "GPT-4" |
| Processor.DefaultHuggingFaceName | src/snap_ai/core/processor.py:359-365 | the default huggingface model shows as "DialoGPT Small" |
| Processor.GradedMeansReviewBelowThreshold | src/snap_ai/core/processor.py:199-203 | a graded result's level is an enum value and it needs review exactly when below both the threshold and 0.8 |
| Legacy.LabelsAreDocumentTypes | src/snap_ai/processor.py:141-151 | the trained labels are document types, exclude "unknown", and the older set lacks receipts |
| Legacy.TrainedTypeHasOwnPrompt | src/snap_ai/processor.py:128-162 | a type from the trained classifier has its own inline prompt and a confidence in [0, 1] |
| Legacy.PromptKey | src/snap_ai/processor.py:271 | the prompt key is the type for invoice, contract and form, and "form" otherwise |
| Legacy.OllamaPrompt | src/snap_ai/processor.py:234-271 | the prompt starts with the selected prompt's head, holds the whole text right after it, and ends with the selected tail |
| Legacy.OllamaSeesWholeText | src/snap_ai/processor.py:234-271 | different texts give different ollama prompts: the whole text reaches the model |
| Legacy.OtherTypesUseForm | src/snap_ai/processor.py:352 | any other type gets the form prompt in both the ollama and openai adapters |
| Legacy.HuggingFacePrompt | src/snap_ai/processor.py:297 | the huggingface prompt embeds text[:300] and is bounded in length |
| Legacy.HuggingFaceSeesPrefixOnly | src/snap_ai/processor.py:297 | texts that agree on their first 300 characters give the same prompt |
| Legacy.ExtractWithLegacy | src/snap_ai/processor.py:186-193 | dispatch by method to the adapter with its inline prompt; an unknown method gives the error map |
| Legacy.LegacyProcessor.Init | src/snap_ai/processor.py:47-53 | the older processor starts with method "none" and no generators |
| Legacy.LegacyProcessor.SelectBackend | src/snap_ai/processor.py:54-72 | the same probe order and outcome as the newer processor |
| Legacy.LegacyProcessor.ProcessDocument | src/snap_ai/processor.py:166-219 | the result holds the classification, the unprocessed extraction and its score, the graded level with review iff low, and no display name |
| Legacy.NewLegacyProcessor | src/snap_ai/processor.py:47-74 | construction succeeds exactly when some backend answers, otherwise it raises the no-backend error |
| Uploads.LastNamed | backend/src/services/document_service.py:34 | the path name is the last part that is neither empty nor "." |
| Uploads.PathName | backend/src/services/document_service.py:34 | a path's name contains no '/' and is never "." |
| Uploads.Suffix | backend/src/services/document_service.py:34 | a suffix starts with its name's last '.', has no further dot, and is a proper tail of the name |
| Uploads.DirectoriesIgnored | backend/src/services/document_service.py:34 | directories in the path do not change the suffix |
| Uploads.SuffixOfStemAndExt | backend/src/services/document_service.py:34 | `stem.ext` has suffix `.ext` |
| Uploads.NoSuffix | backend/src/services/document_service.py:34 | a dotless name and a dot-file have no suffix |
| Uploads.FileExtension | backend/src/services/document_service.py:34-38 | the extension is the lower-cased suffix, or ".jpg" for a camera capture without one |
| Uploads.StemAndExtExtension | src/snap_ai/services/file_service.py:22 | "X.PDF" is checked as ".pdf" |
| Uploads.CameraCaptureIsJpeg | src/snap_ai/services/file_service.py:25-26 | a dotless camera capture is treated as a JPEG |
| Uploads.Message | backend/src/services/document_service.py:32-44 | the three validation messages, with the allowed types listed in order |
| Uploads.AllowedTypesListed | backend/src/services/document_service.py:24 | joining the accepted extensions with ", " gives ".txt, .pdf, .png, .jpg, .jpeg" |
| Uploads.ValidateFile | backend/src/services/document_service.py:27-44 | the first failing check in the order name, type, size is reported, and the upload passes exactly when none fails |
| Uploads.SizeLimitInclusive | src/snap_ai/services/file_service.py:31-32 | exactly 10 MiB passes and one byte more is rejected |
| Uploads.AnalyzeFile | backend/src/services/document_service.py:46-65 | analysis fails exactly when validation does; otherwise it records the content length, the normalized extension, and the camera flag set by the name prefix alone |
| Uploads.AcceptedStemAndExt | src/snap_ai/services/file_service.py:34-52 | an accepted `stem.ext` is described with its lower-cased extension |
| Uploads.CameraCaptureWithExtension | backend/src/services/document_service.py:53-58 | a camera capture with its own suffix keeps that suffix and is still flagged |
| Batch.FromRaw | src/snap_ai/core/processor.py:210-221 | every key of the processor's result dictionary holds the result's own value, and the display name is present only when the result has one |
| Batch.Defaulted | backend/src/services/document_service.py:314-328 | missing keys default to unknown, 0.0, 0.0, low, none, Unknown, 0s, review and {}; the file fields are copied from the file info |
| Batch.Convert | backend/src/services/document_service.py:307-328 | an invalid document type raises first; otherwise the defaulted record is validated, so a missing method, defaulted to "none", raises |
| Batch.EmptyRecordRejected | src/snap_ai/services/document_service.py:121-142 | as written, a result dictionary with no keys raises, because its method defaults to "none"; with "none" admitted it would be the all-defaults record |
| Batch.ProcessedDocumentConverts | src/snap_ai/services/document_service.py:29-58 | a graded processor result converts to a record the strict check accepts, keeping its score, level, review flag and data |
| Batch.QuickScan | backend/src/services/document_service.py:97-125 | a quick scan fails with the validation message when analysis fails, and with the extraction's or the processor's message when those raise; otherwise it is the conversion of the processor's result, an admitted record describing the upload |
| Batch.QuickScanKeepsProcessorResult | backend/src/services/document_service.py:97-125 | when the processor grades the text, the scan succeeds and keeps the result's label, method, score, level, review flag and data |
| Batch.ErrorRecord | backend/src/services/document_service.py:206-217 | the error record holds `{error: message}`, zero confidences, review, method "none" and the display name "Error" |
| Batch.ErrorRecordRejected | backend/src/services/document_service.py:211 | as written, the error record fails validation |
| Batch.ErrorRecordAdmitted | backend/src/services/document_service.py:206-217 | with the sentinel admitted, the error record validates unchanged |
| Batch.CountFailed | backend/src/services/document_service.py:226 | the failure count is at most the number of results |
| Batch.CountSuccessful | backend/src/services/document_service.py:225 | the success count is at most the number of results |
| Batch.CountsPartition | backend/src/services/document_service.py:222-229 | successful + failed = total |
| Batch.NoFailedIffNoError | src/snap_ai/services/document_service.py:93-100 | nothing fails exactly when no result has an "error" key, including normally processed ones |
| Batch.ErrorCounted | backend/src/services/document_service.py:226 | any result with an "error" key is counted as failed |
| Batch.ScanResult | backend/src/services/document_service.py:198-220 | a raising input becomes the error record for its filename, otherwise its scan result |
| Batch.ScanAll | backend/src/services/document_service.py:197-220 | one result per input, in input order |
| Batch.RunBatch | backend/src/services/document_service.py:188-229 | the batch loop gives one result per input in order, totals equal to the input count, and success and failure counts that partition it |
| Batch.FailedInputsCounted | backend/src/services/document_service.py:205-226 | an input whose scan yields an "error" key makes the failure count positive |
| Batch.Cons | backend/src/services/document_service.py:197-203 | a list of outcomes succeeds exactly when the head and rest do, and the first failure propagates |
| Batch.BatchQuickScanAsWritten | backend/src/services/document_service.py:188-229 | `batch_quick_scan` as written: a completed batch has one record per file, and a first file that raises makes the whole batch raise (BatchQuickScanRaisesOnAnyFailure: it completes exactly when no file raises, and then equals the corrected ScanAll) |
| Batch.BatchQuickScanRaisesOnAnyFailure | backend/src/services/document_service.py:205-220 | as written, the batch succeeds exactly when every scan does, since building the error record raises |
| Batch.SetField | src/snap_ai/services/document_service.py:73 | assigning an attribute to a result succeeds exactly for a declared field |
| Batch.ProcessEntryAlwaysRaises | src/snap_ai/services/document_service.py:70-91 | as written, every entry of the batch loop raises |
| Batch.ProcessBatchAsWritten | src/snap_ai/services/document_service.py:60-100 | `process_batch_documents` as written: a completed batch has one record per file (NonEmptyBatchRaises: only the empty batch completes) |
| Batch.NonEmptyBatchRaises | src/snap_ai/services/document_service.py:60-100 | as written, every non-empty batch raises, and only the empty batch succeeds |
| Batch.WorkflowEntryAt | backend/src/services/document_service.py:240-253 | each entry carries its position as batch index and is an error entry exactly when storing that input raised |
| Batch.CountErrored | backend/src/services/document_service.py:256 | the error-entry count is at most the number of entries |
| Batch.BatchDocumentWorkflow | backend/src/services/document_service.py:231-265 | one entry per input with batch_index = position; failed counts the error entries and the counts partition the total |
| Batch.ErroredCountsFailures | backend/src/services/document_service.py:255-256 | the failure count is the number of inputs whose storing raised |
| Batch.ListStoredDocuments | backend/src/services/document_service.py:267-283 | the page echoes its arguments, and has_more holds exactly when skip + limit < total |
| Batch.FormatForPipelineAsWritten | src/snap_ai/services/document_service.py:102-119 | `format_for_pipeline` as written: a record it built would carry the document id, the overall confidence as the score and the extracted data (PipelineFormattingAlwaysRaises: it never builds one) |
| Batch.PipelineFormattingAlwaysRaises | src/snap_ai/services/document_service.py:113-118 | as written, pipeline formatting always fails validation |
| Batch.FormatForPipeline | src/snap_ai/services/document_service.py:102-119 | the pipeline record copies the type, overall confidence as confidence_score, review flag, method, time and data unchanged; it validates exactly when the method and type are enum values |
| Batch.AdmittedResultsReachPipeline | src/snap_ai/services/document_service.py:102-119 | every validated result can be formatted for the pipeline |
| Workflow.DictToXml | backend/src/services/workflow_service.py:193-209 | the output is the declaration line followed by the entries wrapped in the root tag |
| Workflow.XmlEntriesAppend | backend/src/services/workflow_service.py:199-207 | entries are written in insertion order |
| Workflow.ScalarsNotEscaped | backend/src/services/workflow_service.py:205 | a string value is written verbatim inside its key's element, without escaping |
| Workflow.ListItemsRepeatKey | backend/src/services/workflow_service.py:202-203 | each list item becomes its own element named by the key |
| Workflow.NestedDictNamedByKey | backend/src/services/workflow_service.py:200-201 | a nested dictionary becomes an element named by its key |
| Workflow.DictToXmlRecursive | src/snap_ai/routes/workflow.py:125-135 | the `+=` loop with recursion builds exactly the specified element |
| Workflow.DictToXmlMethod | src/snap_ai/routes/workflow.py:137-139 | the serialiser produces exactly the specified document |
| Workflow.Respond | backend/src/services/workflow_service.py:39-66 | the response succeeds exactly when the chosen workflow does, names the workflow, and is not yet forwarded |
| Workflow.WorkflowService.constructor | backend/src/services/workflow_service.py:22 | the service starts with no workflows |
| Workflow.WorkflowService.GetWorkflowStatus | backend/src/services/workflow_service.py:113-124 | an unknown id gives none; a known id gives its status value and the fixed timestamp |
| Workflow.WorkflowService.SetStatus | backend/src/services/workflow_service.py:37 | one entry of the status map is set and the others are kept |
| Workflow.WorkflowService.ProcessAndForward | backend/src/services/workflow_service.py:24-81 | the id goes to processing, then completed or failed; no other id changes; forwarded holds exactly when a webhook URL is given and it answered 200 |
| Workflow.ExportResult | backend/src/services/workflow_service.py:83-111 | missing or empty data is "Result <id> not found"; csv, xml (root "document") and json get their media types and `extract_<id>` file names |
| Workflow.SampleData | backend/src/services/workflow_service.py:150-160 | the placeholder record has five fields, starting with the id |
| Workflow.PlaceholderExports | backend/src/services/workflow_service.py:93-94 | with the placeholder lookup, no export fails |
| Workflow.PlaceholderXml | backend/src/services/workflow_service.py:101-104 | the placeholder's XML export is its five fields as leaves under `document` |
| Workflow.RouteExportResult | src/snap_ai/routes/workflow.py:54-88 | "csv" and "xml" get their media types and attachment names; any other value gives the `JSONResponse` rendering of the sample (compact, non-ASCII kept), not the service's indented `json.dumps`, without an attachment |
| Workflow.RouteProcessAndForwardAsWritten | src/snap_ai/routes/workflow.py:18-51 | the route as written: every failure is a 500, and a response would carry the processing result and forward exactly when a webhook URL is given (RouteAlwaysFails: every upload ends in a 500) |
| Workflow.RouteAlwaysFails | src/snap_ai/routes/workflow.py:37-52 | as written, the route answers 500 for every upload |
| Workflow.RouteProcessAndForward | src/snap_ai/routes/workflow.py:17-52 | with the processing time supplied, an admitted result reaches the pipeline, and forwarded holds exactly when a webhook URL is given, whatever the webhook did |
| Textract.PagesText | backend/src/core/textract_core.py:21-24 | a non-empty page list gives text ending in a newline |
| Textract.PagesTextAppend | backend/src/core/textract_core.py:22-23 | pages are concatenated in order |
| Textract.PagesTextLength | src/snap_ai/utils.py:17-18 | exactly one newline is added per page |
| Textract.ReadPages | src/snap_ai/utils.py:16-19 | the `text +=` loop yields each page's text plus a newline, in page order |
| Textract.OcrMode | backend/src/core/textract_core.py:43-44 | CMYK and palette images reach OCR as RGB; other modes are unchanged |
| Textract.ImageErrorText | backend/src/core/textract_core.py:54-60 | a message naming a corrupt JPEG or a premature end gives the fixed corruption text, any other gives "Unable to process this image: <msg>" |
| Textract.ImageText | backend/src/core/textract_core.py:38-60 | an open or OCR failure gives the mapped error text |
| Textract.ImageTextNeverBlank | backend/src/core/textract_core.py:47-50 | non-blank OCR text is returned as it is, blank text becomes "No text found in image", and the image text is never blank |
| Textract.ExtractText | backend/src/core/textract_core.py:10-63 | text files as read; PDFs as page concatenation or a 500 "PDF processing error"; images fail only when the libraries are missing; other extensions give 400 "Unsupported file type" |
| Textract.OnlyTextDecodingEscapes | backend/src/core/textract_core.py:13-14 | only a text file's decoding error escapes as other than an HTTP error |
| Textract.ExtractTextLegacy | src/snap_ai/utils.py:6-35 | text as read; PDFs concatenated, with read errors escaping; raw OCR output; 400 for other extensions |
| Textract.VariantsAgree | src/snap_ai/utils.py:9-19 | both variants agree on text files, readable PDFs and unsupported extensions |
| Textract.BlankOcrDiffers | src/snap_ai/utils.py:28-30 | on blank OCR output the older variant returns the blank text and the backend its notice |

## Left out

- The TF-IDF classifier is a parameter `classify`. `Legacy.TrainedOn` states what a trained pipeline guarantees: a trained label and a confidence in [0, 1]. It is an assumption about sklearn, not proved.
- The network is an input:
  - the ollama tags and generate calls, the huggingface pipeline and LangChain are given as replies or exceptions;
  - the aiohttp webhook is given as its status or an exception.
- The route's `_forward_to_webhook` creates its client session outside its `try`. An exception raised there, which is not swallowed, is not modelled.
- `json.loads`, `yaml.safe_load`, pypdf, PIL and pytesseract are inputs. `str()` of a JSON value is the parameter `show`, constrained only for strings, None and booleans. `csv.DictWriter` output, the service's `json.dumps(indent=2)` and Starlette's `JSONResponse` body are separate parameters of `Workflow.Renderers`.
- Uploads.Message: the size in MB with one decimal is the parameter `formatMb`, because floating-point formatting is not modelled.
- Strs.Lower and Strs.Title map ASCII letters only, and Strs.Strip removes whitespace below U+0100 only (Python's `isspace` restricted to Latin-1). Unicode case mapping and the other Unicode spaces are not modelled.
- Scores are Dafny reals, not IEEE doubles. Rounding in 0.4·ml + 0.6·c is not modelled.
- Wall-clock timing and its "%.2fs" formatting are inputs (`elapsed`, `processedAt`). The same holds for uuid generation, `time.strftime`, and all `print` and `logger` output.
- Temporary files and their cleanup are left out, as is the async plumbing of `quick_scan` and `document_workflow`. The text is extracted from the stage functions in `Batch.Stages`.
- Storage is an input. Storing a document is the `store` function of `Batch.BatchDocumentWorkflow`. `get_stored_document` and `delete_stored_document` only call the storage stub and are not modelled.
- `get_supported_document_types` (src/snap_ai/core/processor.py:437-442) is not modelled, because it only reads the prompt catalog. `get_model_display_name` (444-473) duplicates `_get_model_display_name` and is modelled once, as `Processor.DisplayName`.
- Workflow.WorkflowService.ProcessAndForward: the workflow's own outcome is an input, not a call into the document service.
- Workflow.ExportResult: CSV and JSON contents are the renderers' output; only the XML content is computed.
- Prompts.FormatPrompt: `str.format` is modelled up to the lookup of a field's first name part, including how the field is delimited, the ValueErrors of a malformed field and `get_integer`'s reading of an index (decimal digits as in Unicode 15.0, and the overflow test of a 64-bit build). What it then does with a bound field is not modelled when the field has attribute or index access (`{text.upper}`, `{text[0]}`), a conversion other than `!s` (`{text!r}`), or a non-empty format spec (`{text:>5}`). Python may render such a field or raise; a KeyError from a field nested in the spec would even be caught by the fallback. The model ends with `Unmodelled(field)`, which `format_prompt` passes on like any error other than a KeyError.
- Prompts.LoadPrompts: the catalog is a map of maps of strings. Three cases cannot be represented:
  - an empty prompts file, for which `yaml.safe_load` returns None and `get_prompt` then raises AttributeError;
  - a template that is not a string, which raises at `.format` with something other than a KeyError;
  - a read error other than FileNotFoundError, such as PermissionError, which propagates out of the loader.
- Processor.ExtractWith: building the LangChain `PromptTemplate` and `LLMChain` (src/snap_ai/core/processor.py:287-288) is assumed not to raise. Both are built outside the adapter's `try`, so an exception there would escape `process_document`.
- `ExtractedData` (src/snap_ai/models/document.py:40-45) is declared but never built by the code, so it is not modelled.
- Textract.ExtractText: which exception pypdf raises for a damaged PDF is not modelled. Its message is an input.

## Findings

| source | as written | input that shows it | evidently intended | confidence | as-written member | corrected member |
|---|---|---|---|---|---|---|
| backend/src/services/document_service.py:206-217 | the batch error record sets extraction_method "none". `ExtractionMethod` has no such member, so building the record raises inside the `except` handler and the whole batch raises | a batch in which one upload fails validation, for example an empty filename | the failing upload is recorded as an error result and counted as failed | high; not executed | Batch.ErrorRecordRejected | Batch.RunBatch |
| src/snap_ai/services/document_service.py:70-91 | `result.batch_index = i` assigns a field `ProcessingResult` does not declare. Pydantic raises, and the error record then raises the same way | any non-empty batch | one result per input, with failures counted by the "error" key | high; not executed | Batch.NonEmptyBatchRaises | Batch.RunBatch |
| src/snap_ai/services/document_service.py:113-118 | `ProcessingMetadata` is built without its required `processing_time`, so every call raises and the workflow route answers 500 | any processed result | the metadata carries the result's processing time | high; not executed | Batch.PipelineFormattingAlwaysRaises | Batch.FormatForPipeline |

`_convert_to_processing_result` defaults a missing extraction method to "none" (backend/src/services/document_service.py:319), which is the same value the first finding is about. `Batch.Convert` models this as written: such a record raises (`Batch.EmptyRecordRejected`). The processor always supplies the key, so the default is never used in practice. The route-level consequence of the third finding is `Workflow.RouteAlwaysFails`; its corrected counterpart is `Workflow.RouteProcessAndForward`.
