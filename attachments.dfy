/**
 * Turning one selected file into an attachment: the dispatch on media type and file name, and
 * removing an attachment by id. Reading the file (as a data URL, as text, or through the
 * Word-document text extractor) is done by the environment; its outcome is an input here.
 */
module Attachments {

  import opened Types
  import opened Text
  import opened Seqs

  const DocxMimeType: string := "application/vnd.openxmlformats-officedocument.wordprocessingml.document"
  const PdfMimeType: string := "application/pdf"
  const PlainTextMimeType: string := "text/plain"

  /** The name and declared media type of a file the user picked. */
  datatype SelectedFile = SelectedFile(name: string, mimeType: string)

  /** How a file is read: as a base64 data URL, or as text (directly, or by extracting a Word document). */
  datatype Route = ReadAsDataUrl(kind: AttachmentType) | ReadAsText(extractDocx: bool) | Unsupported

  /** What reading produced: the data URL, the text, or a failure of the reader or the extractor. */
  datatype FileRead = ReadOk(value: string) | ReadFailed

  datatype SelectError = UnsupportedFileType | ProcessingFailed

  predicate IsImageType(mimeType: string)
  {
    StartsWith(mimeType, "image/")
  }

  /** Images and PDFs are read as data URLs; Word documents and plain text are read as text; nothing else is accepted. */
  function RouteFor(f: SelectedFile): (r: Route)
    ensures r.ReadAsDataUrl? <==> IsImageType(f.mimeType) || f.mimeType == PdfMimeType
    ensures r.ReadAsDataUrl? ==> (r.kind == Image <==> IsImageType(f.mimeType))
    ensures r.ReadAsText? <==>
      !r.ReadAsDataUrl? && (EndsWith(f.name, ".docx") || f.mimeType == DocxMimeType || f.mimeType == PlainTextMimeType)
    ensures r.ReadAsText? ==> (r.extractDocx <==> f.mimeType != PlainTextMimeType)
  {
    if IsImageType(f.mimeType) || f.mimeType == PdfMimeType then
      ReadAsDataUrl(if IsImageType(f.mimeType) then Image else File)
    else if EndsWith(f.name, ".docx") || f.mimeType == DocxMimeType || f.mimeType == PlainTextMimeType then
      ReadAsText(f.mimeType != PlainTextMimeType)
    else
      Unsupported
  }

  /** The base64 payload of a data URL, the piece after its first comma. */
  function DataUrlPayload(dataUrl: string): Option<string>
  {
    SecondPiece(dataUrl, ',')
  }

  /**
   * The attachment for one selected file with the given id, or why there is none. The media type
   * is checked before anything is read, so an unsupported file never reaches the reader.
   */
  function MakeAttachment(f: SelectedFile, id: string, read: FileRead): (r: Result<Attachment, SelectError>)
    ensures r == Failure(UnsupportedFileType) <==> RouteFor(f) == Unsupported
    ensures read.ReadFailed? ==> r.Failure?
    ensures r.Success? ==> r.value.id == id && r.value.name == Some(f.name)
    ensures r.Success? ==> (IsSet(r.value.isText) <==> RouteFor(f).ReadAsText?) && r.value.isText.Some?
  {
    match RouteFor(f)
    case Unsupported => Failure(UnsupportedFileType)
    case ReadAsDataUrl(kind) =>
      (match read
       case ReadFailed => Failure(ProcessingFailed)
       case ReadOk(url) =>
         match DataUrlPayload(url)
         case None => Failure(ProcessingFailed)
         case Some(base64) => Success(Attachment(id, kind, f.mimeType, base64, Some(f.name), Some(false))))
    case ReadAsText(_) =>
      match read
      case ReadFailed => Failure(ProcessingFailed)
      case ReadOk(text) =>
        var mime := if f.mimeType != "" then f.mimeType else DocxMimeType;
        Success(Attachment(id, File, mime, text, Some(f.name), Some(true)))
  }

  /** An image becomes an `image` attachment holding the base64 payload, with its media type unchanged. */
  lemma ImageAttachment(f: SelectedFile, id: string, url: string)
    requires IsImageType(f.mimeType)
    requires DataUrlPayload(url).Some?
    ensures MakeAttachment(f, id, ReadOk(url)) ==
      Success(Attachment(id, Image, f.mimeType, DataUrlPayload(url).value, Some(f.name), Some(false)))
  {
  }

  /** A PDF becomes a binary `file` attachment; its name plays no part. */
  lemma PdfAttachment(f: SelectedFile, id: string, url: string)
    requires f.mimeType == PdfMimeType
    requires DataUrlPayload(url).Some?
    ensures MakeAttachment(f, id, ReadOk(url)) ==
      Success(Attachment(id, File, PdfMimeType, DataUrlPayload(url).value, Some(f.name), Some(false)))
  {
    assert PdfMimeType[..6][0] != "image/"[0];
  }

  /**
   * A Word document or a plain-text file becomes a text `file` attachment holding the text; an
   * empty media type is replaced by the Word-document type, any other is kept.
   */
  lemma TextAttachment(f: SelectedFile, id: string, text: string)
    requires !IsImageType(f.mimeType) && f.mimeType != PdfMimeType
    requires EndsWith(f.name, ".docx") || f.mimeType == DocxMimeType || f.mimeType == PlainTextMimeType
    ensures MakeAttachment(f, id, ReadOk(text)) ==
      Success(Attachment(id, File, if f.mimeType == "" then DocxMimeType else f.mimeType, text, Some(f.name), Some(true)))
  {
  }

  /** The media type wins over the name: an image called `x.docx` is still an image. */
  lemma MediaTypeBeforeName()
    ensures RouteFor(SelectedFile("x.docx", "image/png")) == ReadAsDataUrl(Image)
    ensures RouteFor(SelectedFile("notes.docx", "text/plain")) == ReadAsText(false)
    ensures RouteFor(SelectedFile("notes.docx", "")) == ReadAsText(true)
    ensures RouteFor(SelectedFile("notes.md", "text/markdown")) == Unsupported
  {
    assert "text/plain"[..6][0] != "image/"[0];
    assert EndsWith("notes.docx", ".docx");
    assert !EndsWith("notes.md", ".docx");
    assert "text/markdown"[..6][0] != "image/"[0];
  }

  /** A plain-text file `notes.txt` holding `hello` becomes a text attachment holding `hello`. */
  lemma NotesTxtExample(id: string)
    ensures MakeAttachment(SelectedFile("notes.txt", "text/plain"), id, ReadOk("hello")) ==
      Success(Attachment(id, File, "text/plain", "hello", Some("notes.txt"), Some(true)))
  {
    assert "text/plain"[..6][0] != "image/"[0];
  }

  /** `attachments.filter(a => a.id !== id)`. */
  function RemoveAttachment(atts: seq<Attachment>, id: string): seq<Attachment>
  {
    Filter(atts, (a: Attachment) => a.id != id)
  }

  /** Removal drops exactly the entries with that id and keeps the others in their order. */
  lemma RemoveAttachmentSpec(atts: seq<Attachment>, id: string, a: Attachment)
    ensures a in RemoveAttachment(atts, id) <==> a in atts && a.id != id
    ensures forall x :: x in RemoveAttachment(atts, id) ==> x.id != id
  {
    FilterMembers(atts, (x: Attachment) => x.id != id);
    if a in atts && a.id != id {
      var i :| 0 <= i < |atts| && atts[i] == a;
      assert atts[i] in RemoveAttachment(atts, id);
    }
  }

  /** Removal distributes over concatenation, so the survivors keep their relative order. */
  lemma RemoveAttachmentAppend(a: seq<Attachment>, b: seq<Attachment>, id: string)
    ensures RemoveAttachment(a + b, id) == RemoveAttachment(a, id) + RemoveAttachment(b, id)
  {
    FilterAppend(a, b, (x: Attachment) => x.id != id);
  }

  /** Removing an id no attachment has changes nothing. */
  lemma RemoveAbsentAttachment(atts: seq<Attachment>, id: string)
    requires forall i :: 0 <= i < |atts| ==> atts[i].id != id
    ensures RemoveAttachment(atts, id) == atts
  {
    FilterKeepsAll(atts, (x: Attachment) => x.id != id);
  }
}
