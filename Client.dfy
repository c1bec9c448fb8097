/** The Paperless-ngx REST client and the PDF library, as the worker sees
    them: every call either answers or raises one of the errors of the
    hierarchy. The server is a fixed set of answers (one per kind of call
    and argument), and the client keeps the log of the calls it was asked
    to make, so that a caller's contract can say which calls it made. */
module Client {
  import opened Outcomes
  import opened Errors
  import opened Stamp

  type Byte = x: int | 0 <= x < 256

  type Bytes = seq<Byte>

  /** A tag as `/api/tags/` lists it. */
  datatype Tag = Tag(id: int, name: string)

  /** A custom field definition as `/api/custom_fields/` lists it. */
  datatype FieldDef = FieldDef(id: int, name: string)

  /** One entry of a document's `custom_fields`: the `field` and `value`
      keys, either of which may be missing or null. A value is kept as the
      text `str(value)` gives. */
  datatype FieldEntry = FieldEntry(field: Option<int>, value: Option<string>)

  /** A document as the documents endpoint returns it; a missing `tags`
      or `custom_fields` key is the empty list. */
  datatype Document = Document(
    id: int,
    title: Option<string>,
    tags: seq<int>,
    customFields: seq<FieldEntry>,
    created: Option<string>)

  /** `document.get("title", f"Document {doc_id}")` */
  function DocumentTitle(doc: Document): string
  {
    if doc.title.Some? then doc.title.value else "Document " + Text.IntToString(doc.id)
  }

  /** The calls the worker makes. */
  datatype Request =
    | GetTags
    | GetCustomFields
    | GetStampableDocuments
    | Download(docId: int)
    | CreateTag(name: string)
    | UpdateTags(docId: int, tagIds: seq<int>)
    | AddNote(docId: int, note: string)
    | UploadVersion(docId: int, pdf: Bytes, versionLabel: string)

  const UploadUnavailableMessage :=
    "upload_version requires Paperless-ngx file versioning (PR #12061, not yet merged). "
    + "See: https://github.com/paperless-ngx/paperless-ngx/pull/12061"

  /** The answer of the released client to every upload. */
  function UploadUnavailable(): Error
  {
    Raised(NotImplemented, UploadUnavailableMessage)
  }

  class PaperlessClient {
    const tagsReply: Result<seq<Tag>, Error>
    const fieldsReply: Result<seq<FieldDef>, Error>
    const documentsReply: Result<seq<Document>, Error>
    const downloadReply: int -> Result<Bytes, Error>
    const createTagReply: string -> Result<int, Error>
    const updateTagsReply: (int, seq<int>) -> Result<(), Error>
    const addNoteReply: (int, string) -> Result<(), Error>
    const uploadReply: (int, Bytes, string) -> Result<(), Error>
    /** Every call made so far, oldest first. */
    var requests: seq<Request>

    constructor (
      tagsReply: Result<seq<Tag>, Error>,
      fieldsReply: Result<seq<FieldDef>, Error>,
      documentsReply: Result<seq<Document>, Error>,
      downloadReply: int -> Result<Bytes, Error>,
      createTagReply: string -> Result<int, Error>,
      updateTagsReply: (int, seq<int>) -> Result<(), Error>,
      addNoteReply: (int, string) -> Result<(), Error>,
      uploadReply: (int, Bytes, string) -> Result<(), Error>)
      ensures this.tagsReply == tagsReply && this.fieldsReply == fieldsReply
      ensures this.documentsReply == documentsReply && this.downloadReply == downloadReply
      ensures this.createTagReply == createTagReply && this.updateTagsReply == updateTagsReply
      ensures this.addNoteReply == addNoteReply && this.uploadReply == uploadReply
      ensures requests == []
    {
      this.tagsReply := tagsReply;
      this.fieldsReply := fieldsReply;
      this.documentsReply := documentsReply;
      this.downloadReply := downloadReply;
      this.createTagReply := createTagReply;
      this.updateTagsReply := updateTagsReply;
      this.addNoteReply := addNoteReply;
      this.uploadReply := uploadReply;
      requests := [];
    }

    /** The released `upload_version`, which always raises
        NotImplementedError because the server endpoint does not exist. */
    ghost predicate UploadIsUnavailable()
    {
      forall docId, pdf, versionLabel :: uploadReply(docId, pdf, versionLabel) == Err(UploadUnavailable())
    }

    /** `get_tags()`: every tag, all pages concatenated. */
    method GetTags() returns (r: Result<seq<Tag>, Error>)
      modifies this
      ensures requests == old(requests) + [Request.GetTags] && r == tagsReply
    {
      requests := requests + [Request.GetTags];
      r := tagsReply;
    }

    /** `get_custom_fields()` */
    method GetCustomFields() returns (r: Result<seq<FieldDef>, Error>)
      modifies this
      ensures requests == old(requests) + [Request.GetCustomFields] && r == fieldsReply
    {
      requests := requests + [Request.GetCustomFields];
      r := fieldsReply;
    }

    /** `get_stampable_documents()`: the documents with a tag whose name
        starts with `stamp:` in any case. */
    method GetStampableDocuments() returns (r: Result<seq<Document>, Error>)
      modifies this
      ensures requests == old(requests) + [Request.GetStampableDocuments] && r == documentsReply
    {
      requests := requests + [Request.GetStampableDocuments];
      r := documentsReply;
    }

    /** `download_document(doc_id)` */
    method DownloadDocument(docId: int) returns (r: Result<Bytes, Error>)
      modifies this
      ensures requests == old(requests) + [Download(docId)] && r == downloadReply(docId)
    {
      requests := requests + [Download(docId)];
      r := downloadReply(docId);
    }

    /** `POST /api/tags/` with the name; answers the new tag's id. */
    method CreateTag(name: string) returns (r: Result<int, Error>)
      modifies this
      ensures requests == old(requests) + [Request.CreateTag(name)] && r == createTagReply(name)
    {
      requests := requests + [Request.CreateTag(name)];
      r := createTagReply(name);
    }

    /** `update_document_tags(doc_id, tag_ids)` */
    method UpdateDocumentTags(docId: int, tagIds: seq<int>) returns (r: Result<(), Error>)
      modifies this
      ensures requests == old(requests) + [UpdateTags(docId, tagIds)] && r == updateTagsReply(docId, tagIds)
    {
      requests := requests + [UpdateTags(docId, tagIds)];
      r := updateTagsReply(docId, tagIds);
    }

    /** `add_note(doc_id, note)` */
    method AddNote(docId: int, note: string) returns (r: Result<(), Error>)
      modifies this
      ensures requests == old(requests) + [Request.AddNote(docId, note)] && r == addNoteReply(docId, note)
    {
      requests := requests + [Request.AddNote(docId, note)];
      r := addNoteReply(docId, note);
    }

    /** `upload_version(doc_id, pdf_bytes, label)` */
    method UploadVersion(docId: int, pdf: Bytes, versionLabel: string) returns (r: Result<(), Error>)
      modifies this
      ensures requests == old(requests) + [Request.UploadVersion(docId, pdf, versionLabel)]
      ensures r == uploadReply(docId, pdf, versionLabel)
      ensures UploadIsUnavailable() ==> r == Err(UploadUnavailable())
    {
      requests := requests + [Request.UploadVersion(docId, pdf, versionLabel)];
      r := uploadReply(docId, pdf, versionLabel);
    }
  }

  /** The PDF side: reading page 1's size, rendering an overlay page to PDF
      bytes, and merging an overlay onto page 1. */
  datatype PdfLibrary = PdfLibrary(
    pageOneSize: Bytes -> Result<(real, real), Error>,
    render: Overlay -> Bytes,
    merge: (Bytes, Bytes) -> Result<Bytes, Error>)
}
