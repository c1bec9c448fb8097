/** The polling worker of worker.py: its configuration, the per-type stamp
    settings, the per-document pipeline `process_document` and the poll
    cycle `poll_once`. */
module Worker {
  import opened Outcomes
  import opened Text
  import opened Errors
  import opened Stamp
  import opened Client
  import opened Resolvers
  import opened Tags

  const DefaultPollInterval := 60
  const DefaultTexts: map<string, string> := map["paid" := "PAID", "received" := "RECEIVED"]
  const DefaultDateFields: map<string, string> := map["paid" := "Paid Date", "received" := "Received Date"]
  const DefaultReceivedDateFallback := "created"
  const StampedLabel := "stamped"

  // ---------------------------------------------------------------------
  // Configuration
  // ---------------------------------------------------------------------

  /** `WorkerConfig`: per-type colours, texts and date fields, each with a
      fallback. */
  datatype WorkerConfig = WorkerConfig(
    paperlessUrl: string,
    paperlessToken: string,
    pollInterval: int,
    defaultColor: string,
    colors: map<string, string>,
    texts: map<string, string>,
    dateFields: map<string, string>,
    receivedDateFallback: string)

  /** `WorkerConfig(url, token)` with every other field at its default. */
  function NewWorkerConfig(paperlessUrl: string, paperlessToken: string): WorkerConfig
  {
    WorkerConfig(paperlessUrl, paperlessToken, DefaultPollInterval, DefaultColor, map[], map[], map[],
                 DefaultReceivedDateFallback)
  }

  /** `get_stamp_text(stamp_type)` */
  function StampText(config: WorkerConfig, stampType: string): string
  {
    if stampType in config.texts then config.texts[stampType] else Upper(stampType)
  }

  /** `get_stamp_color(stamp_type)` */
  function StampColor(config: WorkerConfig, stampType: string): string
  {
    if stampType in config.colors then config.colors[stampType] else config.defaultColor
  }

  /** `get_date_field_name(stamp_type)` */
  function DateFieldName(config: WorkerConfig, stampType: string): Option<string>
  {
    if stampType in config.dateFields then Some(config.dateFields[stampType]) else None
  }

  /** A configured text, colour or date field wins; otherwise the text is
      the type upper-cased, the colour the default colour and there is no
      date field. A fresh configuration configures nothing, so its stamps
      read as their type in capitals, in `#003399`. */
  lemma ConfigFallbacks(config: WorkerConfig, stampType: string)
    ensures stampType in config.texts ==> StampText(config, stampType) == config.texts[stampType]
    ensures stampType !in config.texts ==>
      && |StampText(config, stampType)| == |stampType|
      && forall i :: 0 <= i < |stampType| ==> StampText(config, stampType)[i] == UpperChar(stampType[i])
    ensures StampColor(config, stampType) == if stampType in config.colors then config.colors[stampType]
                                             else config.defaultColor
    ensures DateFieldName(config, stampType).Some? <==> stampType in config.dateFields
    ensures var initial := NewWorkerConfig(config.paperlessUrl, config.paperlessToken);
      && StampText(initial, stampType) == Upper(stampType)
      && StampColor(initial, stampType) == DefaultColor
      && DateFieldName(initial, stampType) == None
      && initial.pollInterval == 60 && initial.receivedDateFallback == "created"
  {
  }

  // ---------------------------------------------------------------------
  // Stamp dates and stamp configurations
  // ---------------------------------------------------------------------

  /** `_resolve_stamp_date(stamp_type, document, config, field_resolver)`,
      with the field resolver's name index. */
  function ResolveStampDate(stampType: string, doc: Document, config: WorkerConfig,
                            fieldIndex: map<string, int>): (r: Option<string>)
    ensures r.Some? ==> r.value != ""
  {
    var fieldName := DateFieldName(config, stampType);
    var fromField :=
      if fieldName.Some? && fieldName.value != "" then FieldValue(fieldIndex, doc, fieldName.value) else None;
    if fromField.Some? then fromField
    else if stampType == "received" && config.receivedDateFallback == "created"
            && doc.created.Some? && doc.created.value != "" then
      Some(Take(doc.created.value, 10))
    else None
  }

  /** The order of the date sources: a non-empty configured custom-field
      value always wins; failing that, only a `received` stamp with the
      `created` fallback and a non-empty creation time gets the first ten
      characters of that time; otherwise there is no date. */
  lemma ResolveStampDateOrder(stampType: string, doc: Document, config: WorkerConfig, fieldIndex: map<string, int>)
    ensures var fieldName := DateFieldName(config, stampType);
      var fromField :=
        if fieldName.Some? && fieldName.value != "" then FieldValue(fieldIndex, doc, fieldName.value) else None;
      var r := ResolveStampDate(stampType, doc, config, fieldIndex);
      && (fromField.Some? ==> r == fromField && Strip(r.value) == r.value)
      && (fromField.None? && stampType == "received" && config.receivedDateFallback == "created"
          && doc.created.Some? && doc.created.value != "" ==>
            && r.Some?
            && |r.value| == (if |doc.created.value| < 10 then |doc.created.value| else 10)
            && StartsWith(doc.created.value, r.value))
      && (fromField.None? && (stampType != "received" || config.receivedDateFallback != "created") ==> r == None)
      && (fromField.None? && (doc.created.None? || doc.created == Some("")) ==> r == None)
  {
  }

  /** The stamp configurations for a document's types: one per type, in
      order, with the document's id. */
  function StampConfigsFor(doc: Document, types: seq<string>, config: WorkerConfig,
                           fieldIndex: map<string, int>): seq<StampConfig>
  {
    seq(|types|, k requires 0 <= k < |types| =>
      NewStampConfig(StampText(config, types[k]), doc.id, ResolveStampDate(types[k], doc, config, fieldIndex),
                     StampColor(config, types[k])))
  }

  /** What `_build_stamp_configs` promises: one configuration per type, in
      the same order, each with the document's id, the resolved date and
      colour, and the text (configured or the type itself) upper-cased. */
  lemma StampConfigsMeaning(doc: Document, types: seq<string>, config: WorkerConfig, fieldIndex: map<string, int>)
    ensures var stamps := StampConfigsFor(doc, types, config, fieldIndex);
      && |stamps| == |types|
      && forall k :: 0 <= k < |types| ==>
           && stamps[k].docId == doc.id
           && stamps[k].text == Upper(StampText(config, types[k]))
           && (types[k] !in config.texts ==> stamps[k].text == Upper(types[k]))
           && stamps[k].color == StampColor(config, types[k])
           && stamps[k].date == ResolveStampDate(types[k], doc, config, fieldIndex)
  {
    forall k | 0 <= k < |types| && types[k] !in config.texts
      ensures Upper(StampText(config, types[k])) == Upper(types[k])
    {
      UpperIdempotent(types[k]);
    }
  }

  /** `_build_stamp_configs(document, stamp_types, config, field_resolver)` */
  method BuildStampConfigs(doc: Document, types: seq<string>, config: WorkerConfig,
                           fieldResolver: CustomFieldResolver) returns (stamps: seq<StampConfig>)
    ensures stamps == StampConfigsFor(doc, types, config, fieldResolver.nameToId)
  {
    stamps := [];
    for i := 0 to |types|
      invariant stamps == StampConfigsFor(doc, types[..i], config, fieldResolver.nameToId)
    {
      var text := StampText(config, types[i]);
      var color := StampColor(config, types[i]);
      var date := ResolveStampDate(types[i], doc, config, fieldResolver.nameToId);
      stamps := stamps + [NewStampConfig(text, doc.id, date, color)];
    }
    assert types[..|types|] == types;
  }

  // ---------------------------------------------------------------------
  // Results
  // ---------------------------------------------------------------------

  /** `StampResult`: the outcome of one stamp type on one document. */
  datatype StampResult = StampResult(
    documentId: int,
    documentTitle: string,
    stampType: string,
    stampText: string,
    stampDate: Option<string>,
    success: bool,
    errorMessage: Option<string>,
    processingMs: Option<int>)

  /** The results of a stamped document. */
  function SuccessResults(doc: Document, types: seq<string>, config: WorkerConfig,
                          fieldIndex: map<string, int>, elapsedMs: int): seq<StampResult>
  {
    seq(|types|, k requires 0 <= k < |types| =>
      StampResult(doc.id, DocumentTitle(doc), types[k], StampText(config, types[k]),
                  ResolveStampDate(types[k], doc, config, fieldIndex), true, None, Some(elapsedMs)))
  }

  /** The results of a document whose stamping failed with `message`. */
  function FailureResults(doc: Document, types: seq<string>, config: WorkerConfig, message: string,
                          elapsedMs: int): seq<StampResult>
  {
    seq(|types|, k requires 0 <= k < |types| =>
      StampResult(doc.id, DocumentTitle(doc), types[k], StampText(config, types[k]), None, false,
                  Some(message), Some(elapsedMs)))
  }

  /** Results come one per type, in type order, for the document; all
      succeed with no error message or all fail with the message and no
      date. */
  predicate WellFormedResults(results: seq<StampResult>, doc: Document, types: seq<string>, config: WorkerConfig)
  {
    && |results| == |types|
    && (forall k :: 0 <= k < |results| ==>
          && results[k].documentId == doc.id
          && results[k].documentTitle == DocumentTitle(doc)
          && results[k].stampType == types[k]
          && results[k].stampText == StampText(config, types[k]))
    && ((forall k :: 0 <= k < |results| ==> results[k].success && results[k].errorMessage.None?) ||
        (forall k :: 0 <= k < |results| ==>
           !results[k].success && results[k].stampDate.None? && results[k].errorMessage.Some?))
  }

  lemma ResultsWellFormed(doc: Document, types: seq<string>, config: WorkerConfig, fieldIndex: map<string, int>,
                          message: string, elapsedMs: int)
    ensures WellFormedResults(SuccessResults(doc, types, config, fieldIndex, elapsedMs), doc, types, config)
    ensures WellFormedResults(FailureResults(doc, types, config, message, elapsedMs), doc, types, config)
    ensures forall k :: 0 <= k < |types| ==>
      FailureResults(doc, types, config, message, elapsedMs)[k].errorMessage == Some(message)
  {
  }

  // ---------------------------------------------------------------------
  // process_document
  // ---------------------------------------------------------------------

  /** Steps 2 to 5 of the pipeline: page size, configurations, overlay,
      merge. */
  function StampedPdf(doc: Document, types: seq<string>, config: WorkerConfig, fieldIndex: map<string, int>,
                      pdf: PdfLibrary, lib: Builtins, original: Bytes): Result<Bytes, Error>
  {
    match pdf.pageOneSize(original)
    case Err(e) => Err(e)
    case Ok(size) =>
      match OverlayFor(size.0, size.1, StampConfigsFor(doc, types, config, fieldIndex), lib)
      case Err(e) => Err(e)
      case Ok(overlay) => pdf.merge(original, pdf.render(overlay))
  }

  /** Steps 2 to 5 of `process_document`, on the downloaded PDF. */
  method StampPdf(doc: Document, types: seq<string>, config: WorkerConfig, fieldResolver: CustomFieldResolver,
                  pdf: PdfLibrary, lib: Builtins, original: Bytes) returns (r: Result<Bytes, Error>)
    ensures r == StampedPdf(doc, types, config, fieldResolver.nameToId, pdf, lib, original)
  {
    var size := pdf.pageOneSize(original);
    if size.Err? {
      return Err(size.error);
    }
    var stamps := BuildStampConfigs(doc, types, config, fieldResolver);
    var overlay := GenerateStampOverlay(size.value.0, size.value.1, stamps, lib);
    if overlay.Err? {
      return Err(overlay.error);
    }
    r := pdf.merge(original, pdf.render(overlay.value));
  }

  /** Steps 1 to 6 of `process_document`: download, stamp and upload the
      new version; its answer and the calls made. */
  ghost function Upload(doc: Document, types: seq<string>, config: WorkerConfig, fieldIndex: map<string, int>,
                        pdf: PdfLibrary, lib: Builtins, client: PaperlessClient): (Result<(), Error>, seq<Request>)
  {
    var download := client.downloadReply(doc.id);
    if download.Err? then (Err(download.error), [Download(doc.id)])
    else
      match StampedPdf(doc, types, config, fieldIndex, pdf, lib, download.value)
      case Err(e) => (Err(e), [Download(doc.id)])
      case Ok(stamped) =>
        (client.uploadReply(doc.id, stamped, StampedLabel),
         [Download(doc.id), UploadVersion(doc.id, stamped, StampedLabel)])
  }

  method UploadStamped(doc: Document, types: seq<string>, config: WorkerConfig, client: PaperlessClient,
                       fieldResolver: CustomFieldResolver, pdf: PdfLibrary, lib: Builtins)
    returns (r: Result<(), Error>)
    modifies client
    ensures var (outcome, calls) := Upload(doc, types, config, fieldResolver.nameToId, pdf, lib, client);
      r == outcome && client.requests == old(client.requests) + calls
  {
    var download := client.DownloadDocument(doc.id);
    if download.Err? {
      return Err(download.error);
    }
    var stamped := StampPdf(doc, types, config, fieldResolver, pdf, lib, download.value);
    if stamped.Err? {
      return Err(stamped.error);
    }
    r := client.UploadVersion(doc.id, stamped.value, StampedLabel);
  }

  /** The `try` block of `process_document`: its answer, the calls made and
      the tag caches left behind. */
  ghost function Pipeline(doc: Document, types: seq<string>, config: WorkerConfig, fieldIndex: map<string, int>,
                          pdf: PdfLibrary, lib: Builtins, client: PaperlessClient, base: TagCache)
    : (Result<(), Error>, seq<Request>, TagCache)
  {
    var (upload, calls) := Upload(doc, types, config, fieldIndex, pdf, lib, client);
    if upload.Err? then (upload, calls, base)
    else
      var (swap, swapCalls, after) := SwapOutcome(doc, types, base, client);
      (swap, calls + swapCalls, after)
  }

  /** Steps 1 to 7 of `process_document`. */
  method RunPipeline(doc: Document, types: seq<string>, config: WorkerConfig, client: PaperlessClient,
                     tagResolver: TagResolver, fieldResolver: CustomFieldResolver, pdf: PdfLibrary, lib: Builtins)
    returns (r: Result<(), Error>)
    requires tagResolver.client == client
    modifies client, tagResolver
    ensures tagResolver.tags == old(tagResolver.tags)
    ensures var (outcome, calls, after) :=
      Pipeline(doc, types, config, fieldResolver.nameToId, pdf, lib, client, old(tagResolver.Cache()));
      r == outcome && client.requests == old(client.requests) + calls && tagResolver.Cache() == after
  {
    ghost var upload := Upload(doc, types, config, fieldResolver.nameToId, pdf, lib, client);
    ghost var swap := SwapOutcome(doc, types, tagResolver.Cache(), client);
    r := UploadStamped(doc, types, config, client, fieldResolver, pdf, lib);
    if r.Ok? {
      assert Pipeline(doc, types, config, fieldResolver.nameToId, pdf, lib, client, old(tagResolver.Cache()))
          == (swap.0, upload.1 + swap.1, swap.2);
      ghost var mid := client.requests;
      assert mid == old(client.requests) + upload.1;
      r := SwapTags(doc, types, tagResolver, client);
      assert client.requests == mid + swap.1;
      ConcatAssociative(old(client.requests), upload.1, swap.1);
    }
  }

  /** `process_document(...)`: its answer (the results, or the exception
      that escapes), the calls made and the tag caches left behind. */
  ghost function ProcessOutcome(doc: Document, config: WorkerConfig, client: PaperlessClient, base: TagCache,
                                fieldIndex: map<string, int>, pdf: PdfLibrary, lib: Builtins, elapsedMs: int)
    : (Result<seq<StampResult>, Error>, seq<Request>, TagCache)
  {
    var types := StampTypes(doc.tags, base.idToName);
    if types == [] then (Ok([]), [], base)
    else
      var (p, calls, after) := Pipeline(doc, types, config, fieldIndex, pdf, lib, client, base);
      if p.Ok? then (Ok(SuccessResults(doc, types, config, fieldIndex, elapsedMs)), calls, after)
      else if !IsDocumentScoped(p.error) then (Err(p.error), calls, after)
      else
        var (h, errorCalls, errorAfter) := ErrorOutcome(doc, types, Message(p.error), after, client);
        if h.Err? then (Err(h.error), calls + errorCalls, errorAfter)
        else (Ok(FailureResults(doc, types, config, Message(p.error), elapsedMs)), calls + errorCalls, errorAfter)
  }

  /** `process_document(document, config, client, tag_resolver,
      field_resolver)`; the PDF library, the stamp built-ins and the elapsed
      time are parameters. */
  method ProcessDocument(doc: Document, config: WorkerConfig, client: PaperlessClient, tagResolver: TagResolver,
                         fieldResolver: CustomFieldResolver, pdf: PdfLibrary, lib: Builtins, elapsedMs: int)
    returns (r: Result<seq<StampResult>, Error>)
    requires tagResolver.client == client
    modifies client, tagResolver
    ensures tagResolver.tags == old(tagResolver.tags)
    ensures var (outcome, calls, after) := ProcessOutcome(doc, config, client, old(tagResolver.Cache()),
                                                          fieldResolver.nameToId, pdf, lib, elapsedMs);
      r == outcome && client.requests == old(client.requests) + calls && tagResolver.Cache() == after
  {
    var types := ExtractStampTypes(doc, tagResolver);
    if types == [] {
      return Ok([]);
    }
    var p := RunPipeline(doc, types, config, client, tagResolver, fieldResolver, pdf, lib);
    if p.Ok? {
      return Ok(SuccessResults(doc, types, config, fieldResolver.nameToId, elapsedMs));
    }
    if !IsDocumentScoped(p.error) {
      return Err(p.error);
    }
    var message := Message(p.error);
    ghost var pipeline := Pipeline(doc, types, config, fieldResolver.nameToId, pdf, lib, client,
                                   old(tagResolver.Cache()));
    ghost var handled := ErrorOutcome(doc, types, message, tagResolver.Cache(), client);
    var h := HandleError(doc, types, message, tagResolver, client);
    ConcatAssociative(old(client.requests), pipeline.1, handled.1);
    if h.Err? {
      return Err(h.error);
    }
    r := Ok(FailureResults(doc, types, config, message, elapsedMs));
  }

  /** What `process_document` promises: a document without stamp tags gets
      no results and no calls; otherwise the results are one per type, all
      successes or all failures; failures carry `str(exc)` of a
      document-scoped error and no date; an exception escapes only when it
      is outside the handled classes or raised by the error handling. */
  lemma ProcessOutcomeMeaning(doc: Document, config: WorkerConfig, client: PaperlessClient, base: TagCache,
                              fieldIndex: map<string, int>, pdf: PdfLibrary, lib: Builtins, elapsedMs: int)
    ensures var (r, calls, after) := ProcessOutcome(doc, config, client, base, fieldIndex, pdf, lib, elapsedMs);
      var types := StampTypes(doc.tags, base.idToName);
      var p := Pipeline(doc, types, config, fieldIndex, pdf, lib, client, base).0;
      && (types == [] ==> r == Ok([]) && calls == [] && after == base)
      && (types != [] && r.Ok? ==> WellFormedResults(r.value, doc, types, config))
      && (types != [] && r.Ok? && p.Err? ==>
            && IsDocumentScoped(p.error)
            && forall k :: 0 <= k < |r.value| ==> r.value[k].errorMessage == Some(Message(p.error)))
      && (types != [] && r.Ok? && p.Ok? ==> forall k :: 0 <= k < |r.value| ==> r.value[k].success)
      && (types != [] && p.Err? && !IsDocumentScoped(p.error) ==> r == Err(p.error))
      && (types != [] && p.Err? && IsDocumentScoped(p.error) && r.Err? ==>
            var h := ErrorOutcome(doc, types, Message(p.error),
                                  Pipeline(doc, types, config, fieldIndex, pdf, lib, client, base).2, client).0;
            h.Err? && r == Err(h.error))
  {
    var types := StampTypes(doc.tags, base.idToName);
    ResultsWellFormed(doc, types, config, fieldIndex, "", elapsedMs);
    var p := Pipeline(doc, types, config, fieldIndex, pdf, lib, client, base).0;
    if p.Err? {
      ResultsWellFormed(doc, types, config, fieldIndex, Message(p.error), elapsedMs);
    }
  }

  /** A document is reported stamped only after the stamped PDF was
      uploaded. */
  lemma NoSuccessWithoutUpload(doc: Document, config: WorkerConfig, client: PaperlessClient, base: TagCache,
                               fieldIndex: map<string, int>, pdf: PdfLibrary, lib: Builtins, elapsedMs: int)
    ensures var (r, calls, _) := ProcessOutcome(doc, config, client, base, fieldIndex, pdf, lib, elapsedMs);
      r.Ok? && |r.value| > 0 && r.value[0].success ==>
        exists pdfBytes :: UploadVersion(doc.id, pdfBytes, StampedLabel) in calls &&
                           client.uploadReply(doc.id, pdfBytes, StampedLabel).Ok?
  {
    var types := StampTypes(doc.tags, base.idToName);
    ResultsWellFormed(doc, types, config, fieldIndex, "", elapsedMs);
    var download := client.downloadReply(doc.id);
    if types != [] && download.Ok? {
      var s := StampedPdf(doc, types, config, fieldIndex, pdf, lib, download.value);
      if s.Ok? {
        var calls := [Download(doc.id), UploadVersion(doc.id, s.value, StampedLabel)];
        assert UploadVersion(doc.id, s.value, StampedLabel) in calls;
        var p := Pipeline(doc, types, config, fieldIndex, pdf, lib, client, base).0;
        if p.Err? {
          ResultsWellFormed(doc, types, config, fieldIndex, Message(p.error), elapsedMs);
        }
      }
    }
  }

  /** With the released client, whose upload always raises
      NotImplementedError, no document is ever reported stamped. */
  lemma NoSuccessWithUnavailableUpload(doc: Document, config: WorkerConfig, client: PaperlessClient,
                                       base: TagCache, fieldIndex: map<string, int>, pdf: PdfLibrary,
                                       lib: Builtins, elapsedMs: int)
    requires client.UploadIsUnavailable()
    ensures var (r, _, _) := ProcessOutcome(doc, config, client, base, fieldIndex, pdf, lib, elapsedMs);
      r.Ok? ==> forall k :: 0 <= k < |r.value| ==> !r.value[k].success
  {
    var types := StampTypes(doc.tags, base.idToName);
    ResultsWellFormed(doc, types, config, fieldIndex, "", elapsedMs);
    var p := Pipeline(doc, types, config, fieldIndex, pdf, lib, client, base).0;
    if p.Err? {
      ResultsWellFormed(doc, types, config, fieldIndex, Message(p.error), elapsedMs);
    }
  }

  /** An API error raised by the download is document-scoped, and the
      failure results carry a message that starts with `API error ` and its
      status code. */
  lemma DownloadApiErrorMessage(doc: Document, config: WorkerConfig, client: PaperlessClient, base: TagCache,
                                fieldIndex: map<string, int>, pdf: PdfLibrary, lib: Builtins, elapsedMs: int)
    requires client.downloadReply(doc.id).Err? && client.downloadReply(doc.id).error.ApiError?
    ensures var (r, _, _) := ProcessOutcome(doc, config, client, base, fieldIndex, pdf, lib, elapsedMs);
      var status := client.downloadReply(doc.id).error.statusCode;
      r.Ok? ==> forall k :: 0 <= k < |r.value| ==>
        r.value[k].errorMessage.Some? &&
        StartsWith(r.value[k].errorMessage.value, ApiErrorPrefix + IntToString(status))
  {
    var e := client.downloadReply(doc.id).error;
    DocumentScopedClasses(e);
    Hierarchy();
    ApiErrorMessageRoundTrip(e.statusCode, e.detail);
  }

  // ---------------------------------------------------------------------
  // poll_once
  // ---------------------------------------------------------------------

  /** The documents of one poll, processed in discovery order: the results
      of each document that did not raise, concatenated, with the calls
      and caches they leave. `elapsed` gives each document's timing. */
  ghost function ProcessAll(docs: seq<Document>, config: WorkerConfig, client: PaperlessClient, cache: TagCache,
                            fieldIndex: map<string, int>, pdf: PdfLibrary, lib: Builtins, elapsed: int -> int)
    : (seq<StampResult>, seq<Request>, TagCache)
    decreases |docs|
  {
    if docs == [] then ([], [], cache)
    else
      var (r, calls, after) := ProcessOutcome(docs[0], config, client, cache, fieldIndex, pdf, lib, elapsed(docs[0].id));
      var (rest, restCalls, last) := ProcessAll(docs[1..], config, client, after, fieldIndex, pdf, lib, elapsed);
      ((if r.Ok? then r.value else []) + rest, calls + restCalls, last)
  }

  /** The results of one document all carry that document's id, and a
      document without tags yields nothing, calls nothing and leaves the
      caches alone. */
  lemma ProcessOutcomeOwnResults(doc: Document, config: WorkerConfig, client: PaperlessClient, base: TagCache,
                                 fieldIndex: map<string, int>, pdf: PdfLibrary, lib: Builtins, elapsedMs: int)
    ensures var r := ProcessOutcome(doc, config, client, base, fieldIndex, pdf, lib, elapsedMs).0;
      r.Ok? ==> forall result :: result in r.value ==> result.documentId == doc.id
    ensures doc.tags == [] ==> ProcessOutcome(doc, config, client, base, fieldIndex, pdf, lib, elapsedMs) == (Ok([]), [], base)
  {
    ProcessOutcomeMeaning(doc, config, client, base, fieldIndex, pdf, lib, elapsedMs);
    assert doc.tags == [] ==> StampTypes(doc.tags, base.idToName) == [];
  }

  /** The ids of some documents. */
  function DocumentIds(docs: seq<Document>): (ids: set<int>)
    ensures forall k :: 0 <= k < |docs| ==> docs[k].id in ids
  {
    if docs == [] then {} else {docs[0].id} + DocumentIds(docs[1..])
  }

  /** Every result of a poll belongs to one of its documents. */
  lemma {:induction false} ProcessAllOwnResults(docs: seq<Document>, config: WorkerConfig, client: PaperlessClient,
                                                cache: TagCache, fieldIndex: map<string, int>, pdf: PdfLibrary,
                                                lib: Builtins, elapsed: int -> int)
    ensures forall result :: result in ProcessAll(docs, config, client, cache, fieldIndex, pdf, lib, elapsed).0 ==>
      result.documentId in DocumentIds(docs)
    decreases |docs|
  {
    if docs != [] {
      var outcome := ProcessOutcome(docs[0], config, client, cache, fieldIndex, pdf, lib, elapsed(docs[0].id));
      ProcessOutcomeOwnResults(docs[0], config, client, cache, fieldIndex, pdf, lib, elapsed(docs[0].id));
      ProcessAllOwnResults(docs[1..], config, client, outcome.2, fieldIndex, pdf, lib, elapsed);
      var rest := ProcessAll(docs[1..], config, client, outcome.2, fieldIndex, pdf, lib, elapsed).0;
      var mine: seq<StampResult> := if outcome.0.Ok? then outcome.0.value else [];
      assert ProcessAll(docs, config, client, cache, fieldIndex, pdf, lib, elapsed).0 == mine + rest;
      assert DocumentIds(docs) == {docs[0].id} + DocumentIds(docs[1..]);
      assert forall result :: result in mine ==> result.documentId == docs[0].id;
    }
  }

  /** A poll over documents none of which carries a tag yields nothing and
      calls nothing. */
  lemma {:induction false} ProcessAllIdle(docs: seq<Document>, config: WorkerConfig, client: PaperlessClient,
                                          cache: TagCache, fieldIndex: map<string, int>, pdf: PdfLibrary,
                                          lib: Builtins, elapsed: int -> int)
    requires forall k :: 0 <= k < |docs| ==> docs[k].tags == []
    ensures ProcessAll(docs, config, client, cache, fieldIndex, pdf, lib, elapsed) == ([], [], cache)
    decreases |docs|
  {
    if docs != [] {
      assert docs[0].tags == [];
      ProcessOutcomeOwnResults(docs[0], config, client, cache, fieldIndex, pdf, lib, elapsed(docs[0].id));
      assert forall k :: 0 <= k < |docs[1..]| ==> docs[1..][k].tags == docs[k + 1].tags;
      ProcessAllIdle(docs[1..], config, client, cache, fieldIndex, pdf, lib, elapsed);
      assert ProcessOutcome(docs[0], config, client, cache, fieldIndex, pdf, lib, elapsed(docs[0].id)) == (Ok([]), [], cache);
      assert ProcessAll(docs[1..], config, client, cache, fieldIndex, pdf, lib, elapsed) == ([], [], cache);
      assert ProcessAll(docs, config, client, cache, fieldIndex, pdf, lib, elapsed).0 == [];
      assert ProcessAll(docs, config, client, cache, fieldIndex, pdf, lib, elapsed).1 == [];
      assert ProcessAll(docs, config, client, cache, fieldIndex, pdf, lib, elapsed).2 == cache;
    }
  }

  /** One document further into a poll. */
  lemma ProcessAllStep(docs: seq<Document>, i: nat, config: WorkerConfig, client: PaperlessClient, cache: TagCache,
                       fieldIndex: map<string, int>, pdf: PdfLibrary, lib: Builtins, elapsed: int -> int)
    requires i < |docs|
    ensures var outcome := ProcessOutcome(docs[i], config, client, cache, fieldIndex, pdf, lib, elapsed(docs[i].id));
      var rest := ProcessAll(docs[i + 1..], config, client, outcome.2, fieldIndex, pdf, lib, elapsed);
      ProcessAll(docs[i..], config, client, cache, fieldIndex, pdf, lib, elapsed)
        == ((if outcome.0.Ok? then outcome.0.value else []) + rest.0, outcome.1 + rest.1, rest.2)
  {
    assert docs[i..][0] == docs[i];
    assert docs[i..][1..] == docs[i + 1..];
  }

  /** The answer of `poll_once`, its calls and the tag caches it leaves,
      given the state after both refreshes. */
  ghost function PollOutcome(config: WorkerConfig, client: PaperlessClient, cache: TagCache,
                             fieldIndex: map<string, int>, pdf: PdfLibrary, lib: Builtins, elapsed: int -> int)
    : (Result<seq<StampResult>, Error>, seq<Request>, TagCache)
  {
    var found := client.documentsReply;
    if found.Err? then (Err(found.error), [Request.GetStampableDocuments], cache)
    else
      var (results, calls, after) := ProcessAll(found.value, config, client, cache, fieldIndex, pdf, lib, elapsed);
      (Ok(results), [Request.GetStampableDocuments] + calls, after)
  }

  /** The loop of `poll_once` over the discovered documents: each one's
      results are kept unless it raised. */
  method ProcessDocuments(documents: seq<Document>, config: WorkerConfig, client: PaperlessClient,
                          tagResolver: TagResolver, fieldResolver: CustomFieldResolver, pdf: PdfLibrary,
                          lib: Builtins, elapsed: int -> int)
    returns (all: seq<StampResult>)
    requires tagResolver.client == client
    modifies client, tagResolver
    ensures tagResolver.tags == old(tagResolver.tags)
    ensures var whole := ProcessAll(documents, config, client, old(tagResolver.Cache()), fieldResolver.nameToId,
                                    pdf, lib, elapsed);
      all == whole.0 && client.requests == old(client.requests) + whole.1 && tagResolver.Cache() == whole.2
  {
    ghost var start := client.requests;
    ghost var whole := ProcessAll(documents, config, client, tagResolver.Cache(), fieldResolver.nameToId,
                                  pdf, lib, elapsed);
    ghost var made: seq<Request> := [];
    all := [];
    var i := 0;
    assert documents[0..] == documents;
    while i < |documents|
      invariant i <= |documents|
      invariant tagResolver.client == client
      invariant tagResolver.tags == old(tagResolver.tags)
      invariant client.requests == start + made
      invariant var rest := ProcessAll(documents[i..], config, client, tagResolver.Cache(),
                                       fieldResolver.nameToId, pdf, lib, elapsed);
        whole.0 == all + rest.0 && whole.1 == made + rest.1 && whole.2 == rest.2
    {
      ghost var outcome := ProcessOutcome(documents[i], config, client, tagResolver.Cache(),
                                          fieldResolver.nameToId, pdf, lib, elapsed(documents[i].id));
      ghost var rest := ProcessAll(documents[i + 1..], config, client, outcome.2,
                                   fieldResolver.nameToId, pdf, lib, elapsed);
      ProcessAllStep(documents, i, config, client, tagResolver.Cache(), fieldResolver.nameToId, pdf, lib, elapsed);
      var results := ProcessDocument(documents[i], config, client, tagResolver, fieldResolver, pdf, lib,
                                     elapsed(documents[i].id));
      assert results == outcome.0;
      assert tagResolver.Cache() == outcome.2;
      assert rest == ProcessAll(documents[i + 1..], config, client, tagResolver.Cache(),
                                fieldResolver.nameToId, pdf, lib, elapsed);
      ghost var mine: seq<StampResult> := if results.Ok? then results.value else [];
      ConcatAssociative(all, mine, rest.0);
      ConcatAssociative(start, made, outcome.1);
      ConcatAssociative(made, outcome.1, rest.1);
      assert whole.0 == all + mine + rest.0;
      if results.Ok? {
        all := all + results.value;
      } else {
        assert all + mine == all;
      }
      made := made + outcome.1;
      i := i + 1;
    }
    assert documents[|documents|..] == [];
    assert all + [] == all && made + [] == made;
  }

  /** `poll_once(config, client, tag_resolver, field_resolver)`: refresh both
      resolvers, discover the stampable documents, and process each one;
      an exception of one document drops that document's results only. */
  method PollOnce(config: WorkerConfig, client: PaperlessClient, tagResolver: TagResolver,
                  fieldResolver: CustomFieldResolver, pdf: PdfLibrary, lib: Builtins, elapsed: int -> int)
    returns (r: Result<seq<StampResult>, Error>)
    requires tagResolver.client == client && fieldResolver.client == client
    modifies client, tagResolver, fieldResolver
    ensures client.tagsReply.Err? ==>
      && r == Err(client.tagsReply.error) && client.requests == old(client.requests) + [Request.GetTags]
      && tagResolver.tags == old(tagResolver.tags) && tagResolver.Cache() == old(tagResolver.Cache())
      && fieldResolver.fields == old(fieldResolver.fields) && fieldResolver.nameToId == old(fieldResolver.nameToId)
    ensures client.tagsReply.Ok? && client.fieldsReply.Err? ==>
      && r == Err(client.fieldsReply.error)
      && client.requests == old(client.requests) + [Request.GetTags, Request.GetCustomFields]
      && fieldResolver.fields == old(fieldResolver.fields) && fieldResolver.nameToId == old(fieldResolver.nameToId)
    ensures client.tagsReply.Ok? ==>
      var tags := client.tagsReply.value;
      && tagResolver.tags == tags
      && (client.fieldsReply.Err? ==> tagResolver.Cache() == TagCache(NameIndex(tags), IdIndex(tags)))
    ensures client.tagsReply.Ok? && client.fieldsReply.Ok? ==>
      fieldResolver.fields == client.fieldsReply.value && fieldResolver.nameToId == FieldIndex(fieldResolver.fields)
    ensures client.tagsReply.Ok? && client.fieldsReply.Ok? ==>
      var tags := client.tagsReply.value;
      var (outcome, calls, after) := PollOutcome(config, client, TagCache(NameIndex(tags), IdIndex(tags)),
                                                 FieldIndex(client.fieldsReply.value), pdf, lib, elapsed);
      && r == outcome
      && client.requests == old(client.requests) + [Request.GetTags, Request.GetCustomFields] + calls
      && tagResolver.Cache() == after
  {
    var refreshed := tagResolver.Refresh();
    if refreshed.Err? {
      return Err(refreshed.error);
    }
    refreshed := fieldResolver.Refresh();
    if refreshed.Err? {
      return Err(refreshed.error);
    }
    var found := client.GetStampableDocuments();
    if found.Err? {
      return Err(found.error);
    }
    ghost var refreshes := old(client.requests) + [Request.GetTags, Request.GetCustomFields];
    assert client.requests == refreshes + [Request.GetStampableDocuments];
    ghost var whole := ProcessAll(found.value, config, client, tagResolver.Cache(), fieldResolver.nameToId,
                                  pdf, lib, elapsed);
    var all := ProcessDocuments(found.value, config, client, tagResolver, fieldResolver, pdf, lib, elapsed);
    ConcatAssociative(refreshes, [Request.GetStampableDocuments], whole.1);
    r := Ok(all);
  }
}
