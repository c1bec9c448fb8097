# paperless-stamp in Dafny

paperless-stamp is a worker for Paperless-ngx that puts a rubber-stamp
mark ("PAID", "RECEIVED", ...) on page 1 of a document's PDF. It works off
the document's tags.

Each poll cycle does the following:
- It asks the server for every document tagged `stamp:<type>`.
- For each type it works out the stamp's text, colour and date. The date
  comes from a configured custom field, or for `received` from the
  document's creation date.
- It lays the stamps out in a stack in the top-right corner of the page.
- It downloads the PDF, draws an overlay, merges it, and uploads the
  result as a new version.
- On success it replaces the trigger tags with `stamped:<type>` tags. On
  failure it replaces them with `stamp:error` and attaches a note.

This project models that core: the worker (`worker.py`), the stamp
geometry (`stamp.py`) and the exception hierarchy (`exceptions.py`). It
proves the properties the code and its design promise about them.

Modules (one file each):

- `Outcomes`: `Option` and `Result`.
- `Text`: the parts of Python's `str` the core uses:
  - ASCII upper/lower case;
  - `strip()` and prefix slicing;
  - `str(int)`, with a parser that undoes it.
- `Errors`: the exception hierarchy as a datatype of classes, and the
  `PaperlessAPIError` message.
- `Stamp`: `StampConfig`, colour parsing, tilt, font fitting, box layout,
  the stacking placements and the overlay's validation and per-stamp
  colour check.
- `Client`: the Paperless-ngx client and the PDF library as the worker
  sees them.
  - The client is a class whose answers are fixed per call and argument,
    and which logs every call it is asked to make.
  - The PDF library is a value holding the page-size, render and merge
    operations.
- `Resolvers`: `TagResolver` and `CustomFieldResolver` as classes with
  their dictionaries as `map` fields. `ensure_tag` is specified by a
  function on the two caches.
- `Tags`: extracting stamp types, and the two tag transitions
  `_swap_tags` and `_handle_error`. The transitions discard only the id
  cached under exactly `stamp:<type>`, as the code does. The removal of
  triggers in any case is a separate, corrected definition with its own
  lemmas (see "## Findings").
- `Worker`: `WorkerConfig`, the stamp-date resolution,
  `_build_stamp_configs`, `process_document` and `poll_once`.

Each state-changing method is proved equal to a ghost function of the
state before it. The function gives the answer, the calls made, in
order, and the caches left behind. The lemmas then state what the source
promises about those functions.

## Model

| member | source | states |
|---|---|---|
| Errors.ApiErrorMessageRoundTrip | src/paperless_stamp/exceptions.py:11-18 | The message of `PaperlessAPIError(status, detail)` parses back to exactly `(status, detail)`, with and without a detail, and starts with `API error ` followed by the status code |
| Errors.ApiErrorMessageInjective | src/paperless_stamp/exceptions.py:11-18 | Two API errors with the same message have the same status code and detail, so the message keeps both as given |
| Errors.Hierarchy | src/paperless_stamp/exceptions.py:4-38 | Generation and merge errors are StampError. StampError, API, connection and auth errors are PaperlessStampError. RuntimeError, NotImplementedError and a bare Exception are not |
| Errors.DocumentScopedClasses | src/paperless_stamp/worker.py:403 | The `except` of `process_document` catches an error iff its class is neither a bare Exception nor RuntimeError, iff it is a PaperlessStampError or a NotImplementedError |
| Text.Upper | src/paperless_stamp/stamp.py:41-42 | Upper-casing keeps the length and maps each character through ASCII upper case |
| Text.UpperIdempotent | src/paperless_stamp/stamp.py:41-42 | An upper-cased text has no lower-case letter, and upper-casing it again changes nothing |
| Text.Lower | src/paperless_stamp/worker.py:210 | Lower-casing keeps the length and maps each character through ASCII lower case |
| Text.LowerPrefix | src/paperless_stamp/worker.py:210 | Lower-casing commutes with taking a prefix, so the prefix test of `tag_name.lower()` reads only the first six characters |
| Text.Take | src/paperless_stamp/worker.py:241 | `s[:n]` has length `min(n, len(s))` and is a prefix of `s` |
| Text.Strip | src/paperless_stamp/worker.py:194-195 | `strip()` yields an infix of the input that neither starts nor ends with whitespace, with only whitespace before and after it in the input, and is empty iff the input is blank |
| Text.StripIdempotent | src/paperless_stamp/worker.py:194-195 | Stripping a stripped value changes nothing |
| Text.IntToStringRoundTrip | src/paperless_stamp/exceptions.py:15 | `str(status)` followed by any text that does not start with a digit parses back to the same integer and that text |
| Stamp.StampConfigNormalised | src/paperless_stamp/stamp.py:32-42 | A StampConfig's text has the length of the given text and no lower-case letter, and rebuilding a config from a config changes nothing |
| Stamp.DefaultStampColor | src/paperless_stamp/stamp.py:37 | The default colour is `#003399` and parses to (0, 0.2, 0.6) |
| Stamp.StripHashes | src/paperless_stamp/stamp.py:108 | `lstrip("#")` removes exactly the leading `#` characters and leaves a suffix that does not start with `#` |
| Stamp.HexToRgb | src/paperless_stamp/stamp.py:106-115 | The colour parses iff exactly six hex digits remain after the leading `#`s. Otherwise the error is StampGenerationError `Invalid hex color: <input>`. Every channel lies in [0, 1] |
| Stamp.HexToRgbOfFormatted | src/paperless_stamp/stamp.py:106-115 | `#rrggbb` written from three bytes parses back to those bytes divided by 255 |
| Stamp.HexToRgbRejectsLength | src/paperless_stamp/stamp.py:106-110 | Any colour with other than six characters after the leading `#`s, three or seven say, is rejected with the invalid-colour error naming the input |
| Stamp.HexToRgbRejectsShort | tests/test_stamp.py:37-39 | `#FFF` is rejected with the invalid-colour error |
| Stamp.RejectsNonHexDigit | src/paperless_stamp/stamp.py:111-114 | Any colour with a non-hex character among the digits after its leading `#`s is rejected with the invalid-colour error |
| Stamp.TiltMagnitude | src/paperless_stamp/stamp.py:126 | `1 + m/0xFFFFFFFF·2` lies in [1, 3] for every 32-bit `m` |
| Stamp.TiltRange | src/paperless_stamp/stamp.py:118-130 | Every tilt has magnitude in [1, 3] degrees. It is negative iff the first eight hex digits of the digest are odd |
| Stamp.TiltDependsOnDigestOnly | src/paperless_stamp/stamp.py:118-130 | The tilt depends only on the SHA-256 digest of the document id: libraries agreeing on that digest give the same tilt |
| Stamp.FitFontSize | src/paperless_stamp/stamp.py:133-145 | The font size is never below 8 points |
| Stamp.FitFontSizeFills | src/paperless_stamp/stamp.py:133-145 | With no room or no text the size is 8. Otherwise a size above 8 makes the text exactly as wide as the room left after padding, and a size of 8 is at least that wide |
| Stamp.FitFontSizeIsLargest | src/paperless_stamp/stamp.py:133-145 | Every size of at least 8 points at which the text fits is at most the size chosen |
| Stamp.StampLayout | src/paperless_stamp/stamp.py:148-170 | Width is the stamp width. Padding is 0.25 and the date font 0.35 of the font size, which is at least 8. The height is at least 1.5 font sizes |
| Stamp.DatedStampIsTaller | src/paperless_stamp/stamp.py:155-162 | Without a date the height is font + 2·padding. A date adds the date font size plus 2 mm, so a dated stamp is strictly taller, and nothing else in the layout changes |
| Stamp.LayoutDependsOnLength | src/paperless_stamp/stamp.py:148-170 | Two stamps with texts of the same length and the same date presence get the same layout |
| Stamp.ProjectedHalfHeight | src/paperless_stamp/stamp.py:173-184 | The projected half-height of a rotated stamp is never negative |
| Stamp.CalculateStampPlacements | src/paperless_stamp/stamp.py:187-223 | The loop that moves the next top edge down computes the placements of the stacking recurrence |
| Stamp.StackShape | src/paperless_stamp/stamp.py:196-218 | One placement per stamp, in input order, each with its stamp, its layout, its document's tilt and the common centre x |
| Stamp.StackGap | src/paperless_stamp/stamp.py:203-221 | Each next stamp's top edge is the previous stamp's bottom edge minus 0.3 of its height |
| Stamp.StackTop | src/paperless_stamp/stamp.py:196-207 | The first stamp's top edge is the starting top edge |
| Stamp.StackNoOverlap | src/paperless_stamp/stamp.py:203-221 | Any later stamp lies wholly below any earlier one: its top edge is below the earlier bottom edge |
| Stamp.PlacementsOnPage | src/paperless_stamp/stamp.py:194-221 | One placement per stamp, in order, centred at x = 0.9·page width − stamp width/2. The first top edge is at 0.9·page height, and no two stamps overlap |
| Stamp.MarkAllErrorClass | src/paperless_stamp/stamp.py:93-102 | Every failure of the drawing loop is a StampGenerationError |
| Stamp.MarkAllSucceeds | src/paperless_stamp/stamp.py:93-102 | Drawing every placement succeeds iff every stamp colour parses; otherwise the error is a StampGenerationError |
| Stamp.MarkAllMarks | src/paperless_stamp/stamp.py:93-102 | When drawing succeeds there is one mark per placement, in order, in its parsed colour |
| Stamp.MarkAllFirstError | src/paperless_stamp/stamp.py:93-102 | The error raised is that of the first stamp whose colour does not parse |
| Stamp.DrawStamps | src/paperless_stamp/stamp.py:93-102 | The drawing loop computes exactly the marks, or the first colour error |
| Stamp.GenerateStampOverlay | src/paperless_stamp/stamp.py:56-103 | The overlay is exactly the one specified: stamp list checked first, then dimensions, then placements and marks |
| Stamp.OverlayOutcome | src/paperless_stamp/stamp.py:74-79 | An empty stamp list is rejected first, then a non-positive width or height. The overlay is made iff both checks pass and every colour parses. Every error is a StampGenerationError, and a made overlay has one mark per stamp, in order |
| Client.PaperlessClient.GetTags | src/paperless_stamp/client.py:111-113 | Logs one tags call and answers the server's tag list or its error |
| Client.PaperlessClient.GetCustomFields | src/paperless_stamp/client.py:115-117 | Logs one custom-fields call and answers the field list or its error |
| Client.PaperlessClient.GetStampableDocuments | src/paperless_stamp/client.py:90-95 | Logs one discovery call and answers the documents or the error |
| Client.PaperlessClient.DownloadDocument | src/paperless_stamp/client.py:101-109 | Logs one download of that document and answers its bytes or the error |
| Client.PaperlessClient.CreateTag | src/paperless_stamp/worker.py:157-160 | Logs one tag creation with that name and answers the new id or the error |
| Client.PaperlessClient.UpdateDocumentTags | src/paperless_stamp/client.py:119-126 | Logs one update with exactly the tag list sent |
| Client.PaperlessClient.AddNote | src/paperless_stamp/client.py:128-135 | Logs one note with exactly the text sent |
| Client.PaperlessClient.UploadVersion | src/paperless_stamp/client.py:137-151 | Logs the upload. With the released client every upload raises NotImplementedError with its fixed message |
| Resolvers.LastWinsLookup | src/paperless_stamp/worker.py:141-142 | A dict comprehension has exactly the keys of the items, and each key maps to the value of its last item |
| Resolvers.RefreshConsistent | src/paperless_stamp/worker.py:138-142 | With distinct tag ids, every cached name's id leads back to that name |
| Resolvers.EnsureFrame | src/paperless_stamp/worker.py:150-164 | A cached name answers its id and nothing changes. A failed create changes nothing. A successful create adds the pair to both dictionaries, and no other entry changes |
| Resolvers.EnsureIdempotent | src/paperless_stamp/worker.py:150-164 | A second ensure of the same name answers the same id from the cache and changes nothing |
| Resolvers.EnsureKeepsConsistent | src/paperless_stamp/worker.py:150-164 | Creating a tag whose id is new keeps the caches consistent |
| Resolvers.TagResolver.Refresh | src/paperless_stamp/worker.py:138-142 | One tags call. On error nothing changes and the error propagates. Otherwise both dictionaries are rebuilt from the new list |
| Resolvers.TagResolver.EnsureTag | src/paperless_stamp/worker.py:150-164 | Answer and caches are those of the ensure specification. A create call is made iff the name was not cached |
| Resolvers.FirstValue | src/paperless_stamp/worker.py:190-196 | A value found is non-empty and already stripped |
| Resolvers.FirstValueFound | src/paperless_stamp/worker.py:190-196 | A value is found iff some entry of the field has a non-null, non-blank value |
| Resolvers.FirstValueIsFirstUsable | src/paperless_stamp/worker.py:190-196 | The value found is the stripped value of the first such entry |
| Resolvers.FieldValueAbsent | src/paperless_stamp/worker.py:180-196 | An unknown field name, a field with no entry, or only null or blank values give None |
| Resolvers.CustomFieldResolver.Refresh | src/paperless_stamp/worker.py:175-178 | One custom-fields call. On error nothing changes. Otherwise the field list and the name index are rebuilt |
| Resolvers.CustomFieldResolver.GetFieldValue | src/paperless_stamp/worker.py:180-196 | Answers the field's value as specified |
| Tags.TriggerType | src/paperless_stamp/worker.py:209-213 | A tag asks for the suffix after the six-character prefix, and that suffix is neither empty nor `error` |
| Tags.TriggerTypeByPrefix | src/paperless_stamp/worker.py:209-213 | A tag asks for a type iff its first six characters lower-case to `stamp:` and the rest is neither empty nor `error` |
| Tags.TriggerTypeOfTriggerName | src/paperless_stamp/worker.py:209-213 | `stamp:<t>` asks for `t` for every type other than the empty one and `error` |
| Tags.TriggerTypeIgnoresPrefixCase | src/paperless_stamp/worker.py:210 | Any spelling of the prefix that lower-cases to `stamp:` asks for the same type, kept verbatim |
| Tags.DoneTagsAreNotTriggers | src/paperless_stamp/worker.py:20-21 | `stamped:<t>` asks for no stamp, whatever `t` is |
| Tags.ErrorTagIsNotTrigger | src/paperless_stamp/worker.py:22 | `stamp:error` asks for no stamp |
| Tags.TriggerNameIsNotDoneName | src/paperless_stamp/worker.py:20-21 | No trigger name is a done name or starts with `stamped:` |
| Tags.StampTypesAppend | src/paperless_stamp/worker.py:207-214 | The types of two tag lists are those of the first followed by those of the second, so the order is tag order |
| Tags.StampTypesMembership | src/paperless_stamp/worker.py:207-214 | A type is extracted iff some tag id of the document is cached under a name that asks for it. Unknown ids are skipped |
| Tags.ExtractStampTypes | src/paperless_stamp/worker.py:199-214 | The loop appends exactly the stamp types of the document's tags, in order |
| Tags.SortedSeq | src/paperless_stamp/worker.py:287 | `sorted(ids)` is strictly increasing and holds exactly the ids of the set |
| Tags.SortedUnique | src/paperless_stamp/worker.py:287 | Only one strictly increasing list has a given set of elements |
| Tags.SortedIds | src/paperless_stamp/worker.py:287 | Taking the least remaining id repeatedly yields `sorted(ids)` |
| Tags.DiscardAddResult | src/paperless_stamp/worker.py:276-285 | For any per-type trigger function, the discard-then-add keeps every id that is no type's trigger and adds only done ids. When no done id is also a trigger id it equals `(tags − triggers) ∪ dones` |
| Tags.EnsureOnExtension | src/paperless_stamp/worker.py:283-284 | Ensuring a done tag after earlier creations answers what it would have answered on the starting caches |
| Tags.TriggersOnExtension | src/paperless_stamp/worker.py:280-282 | The trigger lookups are not disturbed by done tags created on the way |
| Tags.RetagOne | src/paperless_stamp/worker.py:276-285 | One turn: discard the id cached under exactly `stamp:<type>` if there is one, then ensure the done tag and add its id, or stop with the error |
| Tags.Retag | src/paperless_stamp/worker.py:276-285 | The loop over the types computes the run specified: tag set after the exact-name discards and done-tag adds, first failure, creations and caches |
| Tags.SwapRunMeaning | src/paperless_stamp/worker.py:276-285 | Read against the starting caches: the loop fails at the first type whose done tag cannot be ensured. Otherwise it yields the exact-name discard-and-add set, and it only creates done tags |
| Tags.SwapTags | src/paperless_stamp/worker.py:267-287 | Answer, calls and caches are those of the transition specification, whose discards use the exact-name lookup |
| Tags.SwapOutcomeMeaning | src/paperless_stamp/worker.py:267-287 | The caches only gain done tags. On an ensure failure the first error is raised after creations only. Otherwise the calls are done-tag creations then exactly one update with the sorted exact-name discard-and-add set |
| Tags.SwapTagSetResult | src/paperless_stamp/worker.py:274-287 | Every tag not cached under some `stamp:<type>` stays and only done ids are added. With no done id among those trigger ids the set is `(tags − exact triggers) ∪ {stamped ids}` |
| Tags.SwapTagSetHasDoneTags | src/paperless_stamp/worker.py:283-285 | Every type's done id is in the set sent, when no done id is also a trigger id |
| Tags.ExactTriggerRemoved | src/paperless_stamp/worker.py:280-282 | The id cached under exactly `stamp:<t>` is not sent back for any swapped type `t`, unless it is also a done id |
| Tags.DocumentTriggersAreRemoved | src/paperless_stamp/worker.py:280-282 | Corrected lookup: every tag of the document that asks for a stamp, in whatever case, is among the ids removed |
| Tags.NoTriggerSurvivesSwap | src/paperless_stamp/worker.py:280-282 | Corrected lookup: after a successful transition no trigger tag of the document remains, unless it is also a done id |
| Tags.CorrectedSwapRemovesMore | src/paperless_stamp/worker.py:280-282 | The corrected set is a subset of the set `_swap_tags` sends: the correction only removes more |
| Tags.NoTriggerSurvivesError | src/paperless_stamp/worker.py:302-305 | Corrected lookup: after the error transition no trigger tag of the document remains |
| Tags.CorrectedErrorRemovesMore | src/paperless_stamp/worker.py:302-305 | The corrected error set is a subset of what `_handle_error` keeps |
| Tags.UpperCaseTriggerType | src/paperless_stamp/worker.py:210 | `STAMP:paid` asks for the type `paid` |
| Tags.AsWrittenKeepsUpperCaseTrigger | src/paperless_stamp/worker.py:280-282 | For a document tagged `STAMP:paid` (7) with `stamped:paid` (8), `_swap_tags` sends {7, 8}, keeping the trigger; the corrected set is {8} |
| Tags.AsWrittenErrorKeepsUpperCaseTrigger | src/paperless_stamp/worker.py:302-305 | For the same document, `_handle_error` keeps tag 7; the corrected set drops it |
| Tags.HandleError | src/paperless_stamp/worker.py:290-319 | Answer, calls and caches are those of the error-transition specification, whose discards use the exact-name lookup |
| Tags.ErrorOutcomeMeaning | src/paperless_stamp/worker.py:290-319 | It fails only if `stamp:error` cannot be ensured or a call raises outside the hierarchy. Otherwise it sends the sorted set of the error tag plus every tag not cached under some `stamp:<type>`. The note is added exactly when the update succeeded or raised an error of the hierarchy, which is swallowed |
| Tags.ErrorTagSetResult | src/paperless_stamp/worker.py:298-308 | The set sent holds the error tag and every tag not cached under some `stamp:<type>`, and nothing else; each id cached under exactly `stamp:<t>` is gone unless it is the error tag |
| Tags.ErrorNoteCarriesMessage | src/paperless_stamp/worker.py:316 | The note is `[paperless-stamp] Stamping failed: ` followed by the message |
| Worker.ConfigFallbacks | src/paperless_stamp/worker.py:102-112 | Configured text, colour and date field win. Otherwise the text is the type upper-cased, the colour the default colour, and there is no date field. A new config has poll interval 60, colour `#003399` and fallback `created` |
| Worker.ResolveStampDate | src/paperless_stamp/worker.py:217-243 | A date found is never empty |
| Worker.ResolveStampDateOrder | src/paperless_stamp/worker.py:217-243 | A non-empty custom-field value wins. Otherwise only a `received` stamp with the `created` fallback and a non-empty creation time gets its first ten characters. Otherwise no date |
| Worker.StampConfigsMeaning | src/paperless_stamp/worker.py:246-264 | One config per type, in order, with the document's id, the resolved date and colour. The text is the configured text upper-cased, or the type upper-cased |
| Worker.BuildStampConfigs | src/paperless_stamp/worker.py:246-264 | The loop appends exactly those configs |
| Worker.ResultsWellFormed | src/paperless_stamp/worker.py:374-427 | Results are one per type, in order, with id, title, type and text. They all succeed with no error message, or all fail with the message and no date |
| Worker.StampPdf | src/paperless_stamp/worker.py:353-370 | Page size, configs, overlay and merge answer the stamped PDF or the first error |
| Worker.UploadStamped | src/paperless_stamp/worker.py:350-374 | Download, stamp and upload make the calls and give the answer specified, stopping at the first error |
| Worker.RunPipeline | src/paperless_stamp/worker.py:350-377 | The try block makes the calls and leaves the caches specified. Tag swapping runs only after a successful upload |
| Worker.ProcessDocument | src/paperless_stamp/worker.py:322-427 | Answer, calls and caches are those of the `process_document` specification |
| Worker.ProcessOutcomeMeaning | src/paperless_stamp/worker.py:322-427 | No types: no results, no calls. Otherwise results are well formed, one per type. Failures carry `str(exc)` of a document-scoped error. Other errors escape, as do errors raised by the error handling |
| Worker.NoSuccessWithoutUpload | src/paperless_stamp/worker.py:373-400 | A success is reported only after an upload call that succeeded |
| Worker.NoSuccessWithUnavailableUpload | src/paperless_stamp/worker.py:373-400 | With the released client, whose upload always fails, no document is ever reported stamped |
| Worker.DownloadApiErrorMessage | src/paperless_stamp/worker.py:351-427 | An API error on download yields failure results whose message starts with `API error ` and the status code |
| Worker.ProcessOutcomeOwnResults | src/paperless_stamp/worker.py:337-339 | A document's results carry its id. A document without tags yields nothing, calls nothing, and leaves the caches alone |
| Worker.ProcessAllOwnResults | src/paperless_stamp/worker.py:446-458 | Every result of a poll belongs to one of the discovered documents |
| Worker.ProcessAllIdle | src/paperless_stamp/worker.py:446-458 | A poll over documents without tags yields nothing and makes no calls |
| Worker.ProcessDocuments | src/paperless_stamp/worker.py:446-458 | The loop concatenates, in discovery order, the results of every document that did not raise. A document that raised drops only its own results. The tag list fetched by the refresh is kept |
| Worker.PollOnce | src/paperless_stamp/worker.py:430-460 | Refreshes tags then fields, each error propagating at once. Then it discovers the documents (whose error propagates) and processes them as specified. The new state of both resolvers is given on every path: unchanged after a failed tag refresh; the rebuilt tag cache and the old field index after a failed field refresh; otherwise the fetched tag and field lists and the field index built from them |

## Left out

- The HTTP side of `client.py` is not part of this model: httpx, pagination and the mapping of status codes and transport failures to errors. The client's answers are fixed per call and argument and may be any error of the hierarchy. The server does not change between calls.
- `merger.py` is not part of this model. Reading page 1's size and merging are operations of a `PdfLibrary` value that answer a result or a StampMergeError (or any error).
- Drawing in `stamp.py` (`_draw_fuzzy_border`, `_draw_fuzzy_text`, the canvas, Gaussian jitter and the seeded random generator) is left out: floating-point graphics and randomness. A stamp is drawn as a `Mark` holding its placement and parsed colour. Rendering the overlay to bytes is an operation of the `PdfLibrary` value.
- SHA-256, cosine, sine and the float formatting of page dimensions are parameters (`Builtins`). Reals are exact, not IEEE doubles.
- Stamp.HexToRgb: enforces the strict rule of six ASCII hex digits after the leading `#`s. Python's `int(x, 16)` on a two-character chunk also accepts a sign (`"-1"`), surrounding whitespace (`" f"`) and Unicode decimal digits. So the source accepts colours this model rejects. A signed chunk gives a negative channel there (`"#-1-1-1"` yields -1/255 per channel), so the unit-range guarantee of this model does not hold for the source on such input.
- Text.Upper and Text.Lower map only ASCII letters; Python's full Unicode case mapping is not modelled.
- `WorkerConfig.from_env`, `run_worker`, `__main__` and logging are left out (environment reading, an endless loop with sleeps, output only).
- `time.monotonic` is a parameter: `elapsedMs` for one document, `elapsed` (by document id) for a poll.
- Resolvers.FirstValue: a custom field's value is held as the text `str(value)` would give, so non-string values are not modelled.
- Client.DocumentTitle: a `title` key that is present but null is treated as missing. Python would give None there.
- Worker.ProcessDocument, Worker.PollOnce, Tags.SwapTags and Tags.HandleError require each resolver to hold the client they are passed, as `run_worker` sets up.
- Resolvers.EnsureKeepsConsistent: assumes that the id the server gives a new tag is not already cached.
- A tag-creation reply without an `id` key (a KeyError in `ensure_tag`) is not modelled apart from the error replies.
- BaseException other than Exception, which `poll_once` would not catch, is not modelled.
- Worker.ResolveStampDate: reads the field resolver's name index directly rather than through the resolver object.

## Findings

| source | as written | input that shows it | evidently intended | confidence | as-written member | corrected member |
|---|---|---|---|---|---|---|
| src/paperless_stamp/worker.py:280-282 | `_swap_tags` removes only the id cached under the exact name `stamp:<type>`, but `_extract_stamp_types` (line 210) and discovery accept the prefix in any case | a document tagged `STAMP:paid` (id 7) with `stamped:paid` = 8: types are `["paid"]` and the tags sent are {7, 8}, so the document is found and stamped again on every poll | every tag of the document that asks for a type is removed: {8} | not executed | Tags.AsWrittenKeepsUpperCaseTrigger | Tags.NoTriggerSurvivesSwap |
| src/paperless_stamp/worker.py:302-305 | `_handle_error` removes triggers by the same exact-name lookup | the same document when stamping fails: tag 7 is sent back beside `stamp:error`, so it fails again and gets another note on every poll | the trigger is removed before `stamp:error` is added | not executed | Tags.AsWrittenErrorKeepsUpperCaseTrigger | Tags.NoTriggerSurvivesError |
