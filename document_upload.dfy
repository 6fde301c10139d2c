/** The per-document upload control (src/components/onboarding/document-upload.tsx):
    the type and size gate, the upload with its `uploading` flag, and the
    status colour and icon. */
module DocumentUpload {
  import opened Wrappers
  import opened Api

  /** The parts of a browser `File` the control reads. */
  datatype UploadedFile = UploadedFile(name: string, mimeType: string, size: nat)

  const AllowedTypes: seq<string> := [
    "application/pdf",
    "application/msword",
    "application/vnd.openxmlformats-officedocument.wordprocessingml.document",
    "application/vnd.ms-excel",
    "application/vnd.openxmlformats-officedocument.spreadsheetml.sheet"]

  /** 10 MiB, `10 * 1024 * 1024` bytes. */
  const MaxSize: nat := 10 * 1024 * 1024

  const TypeAlert := "Please upload only PDF, DOC, DOCX, XLS, or XLSX files"
  const SizeAlert := "File size must be less than 10MB"
  const UploadAlert := "Upload failed. Please try again."

  /** The alert `handleFile` gives before uploading, if any. */
  function Rejection(file: UploadedFile): Option<string> {
    if file.mimeType !in AllowedTypes then Some(TypeAlert)
    else if file.size > MaxSize then Some(SizeAlert)
    else None
  }

  /** A file is accepted exactly when its type is allowed and it is at most
      10 MiB; the type is judged first, so a wrong type is reported as such
      whatever the size. */
  lemma RejectionRule(file: UploadedFile)
    ensures Rejection(file).None? <==> file.mimeType in AllowedTypes && file.size <= 10485760
    ensures file.mimeType !in AllowedTypes ==> Rejection(file) == Some(TypeAlert)
    ensures file.mimeType in AllowedTypes && file.size > 10485760 ==> Rejection(file) == Some(SizeAlert)
  {
  }

  /** The boundary: exactly 10 MiB passes, one byte more does not. */
  lemma SizeBoundary(name: string)
    ensures Rejection(UploadedFile(name, "application/pdf", 10485760)).None?
    ensures Rejection(UploadedFile(name, "application/pdf", 10485761)) == Some(SizeAlert)
  {
  }

  /** A field of the multipart body. */
  datatype FieldContent = Text(text: string) | Blob(file: UploadedFile)
  datatype FormField = FormField(key: string, content: FieldContent)

  /** `formData.append` of name, company and file. A missing company name is
      appended as the text "undefined", as `FormData` converts it. */
  function UploadForm(documentId: string, companyLegalName: Option<string>, file: UploadedFile): seq<FormField> {
    [FormField("name", Text(documentId)),
     FormField("company", Text(companyLegalName.GetOr("undefined"))),
     FormField("file", Blob(file))]
  }

  /** What one `handleFile` does: the body it sends (if any), the alert it
      shows (if any) and the file it passes to `onUpload` (if any). */
  datatype FileOutcome = FileOutcome(sent: Option<seq<FormField>>, alert: Option<string>, uploaded: Option<UploadedFile>)

  function Handled(documentId: string, companyLegalName: Option<string>, file: UploadedFile, reply: Exchange): FileOutcome {
    if Rejection(file).Some? then FileOutcome(None, Rejection(file), None)
    else
      var form := Some(UploadForm(documentId, companyLegalName, file));
      match UploadDocument(reply)
      case Success(_) => FileOutcome(form, None, Some(file))
      case Failure(_) => FileOutcome(form, Some(UploadAlert), None)
  }

  /** `onUpload(file)` runs exactly for an accepted file whose upload
      succeeds; a rejected file sends nothing; an accepted one sends name,
      company and file; the user sees an alert exactly when `onUpload` does
      not run. */
  lemma UploadRule(documentId: string, companyLegalName: Option<string>, file: UploadedFile, reply: Exchange)
    ensures var o := Handled(documentId, companyLegalName, file, reply);
      (o.uploaded.Some? <==> Rejection(file).None? && UploadDocument(reply).Success?) &&
      (o.uploaded.Some? ==> o.uploaded.value == file) &&
      (o.sent.None? <==> Rejection(file).Some?) &&
      (o.sent.Some? ==> |o.sent.value| == 3 &&
                        o.sent.value[0] == FormField("name", Text(documentId)) &&
                        o.sent.value[1] == FormField("company", Text(companyLegalName.GetOr("undefined"))) &&
                        o.sent.value[2] == FormField("file", Blob(file))) &&
      (o.alert.Some? <==> o.uploaded.None?)
  {
  }

  /** Without a company name the multipart field `company` carries the text
      "undefined"; with one, that name. */
  lemma MissingCompanyIsUndefined(documentId: string, name: string, file: UploadedFile)
    ensures UploadForm(documentId, None, file)[1] == FormField("company", Text("undefined"))
    ensures UploadForm(documentId, Some(name), file)[1] == FormField("company", Text(name))
  {
  }

  /** A server answer the upload cannot read counts as a failure, and so
      does no answer at all. */
  lemma BadRepliesAlert(documentId: string, companyLegalName: Option<string>, file: UploadedFile, ok: bool, status: nat)
    requires Rejection(file).None?
    ensures Handled(documentId, companyLegalName, file, Responded(ok, status, None)).alert == Some(UploadAlert)
    ensures Handled(documentId, companyLegalName, file, NoResponse).alert == Some(UploadAlert)
  {
  }

  /** `getStatusColor()`. */
  function StatusColor(status: string): string {
    match status
    case "pending" => "text-yellow-600"
    case "in_review" => "text-blue-600"
    case "complete" => "text-green-600"
    case "action_required" => "text-red-600"
    case _ => "text-gray-600"
  }

  datatype StatusIcon = CheckIcon | UploadIcon | FileIcon

  /** `getStatusIcon()`. */
  function IconFor(status: string): StatusIcon {
    match status
    case "complete" => CheckIcon
    case "pending" => UploadIcon
    case _ => FileIcon
  }

  /** The icon: a check only for "complete", the upload arrow only for
      "pending", a plain file for everything else. */
  lemma IconRule(status: string)
    ensures IconFor(status) == CheckIcon <==> status == "complete"
    ensures IconFor(status) == UploadIcon <==> status == "pending"
  {
  }

  /** The control: its props and its `uploading` flag, with the sequence of
      values `setUploading` was given. */
  class DocumentUpload {
    const documentId: string
    const companyLegalName: Option<string>
    var uploading: bool
    var uploadingWrites: seq<bool>

    constructor (documentId: string, companyLegalName: Option<string>)
      ensures this.documentId == documentId && this.companyLegalName == companyLegalName
      ensures !uploading && uploadingWrites == []
    {
      this.documentId := documentId;
      this.companyLegalName := companyLegalName;
      uploading := false;
      uploadingWrites := [];
    }

    /** `handleFile(file)`; `reply` is what the upload request got back. */
    method HandleFile(file: UploadedFile, reply: Exchange) returns (sent: Option<seq<FormField>>, alert: Option<string>, uploaded: Option<UploadedFile>)
      modifies this
      ensures FileOutcome(sent, alert, uploaded) == Handled(documentId, companyLegalName, file, reply)
      ensures Rejection(file).Some? ==> uploading == old(uploading) && uploadingWrites == old(uploadingWrites)
      ensures Rejection(file).None? ==> !uploading && uploadingWrites == old(uploadingWrites) + [true, false]
    {
      sent, alert, uploaded := None, None, None;
      if file.mimeType !in AllowedTypes {
        alert := Some(TypeAlert);
        return;
      }
      if file.size > 10 * 1024 * 1024 {
        alert := Some(SizeAlert);
        return;
      }
      uploading, uploadingWrites := true, uploadingWrites + [true];
      var form := [FormField("name", Text(documentId)),
                   FormField("company", Text(companyLegalName.GetOr("undefined"))),
                   FormField("file", Blob(file))];
      sent := Some(form);
      var response := UploadDocument(reply);
      if response.Success? {
        uploaded := Some(file);
      } else {
        alert := Some(UploadAlert);
      }
      uploading, uploadingWrites := false, uploadingWrites + [false];
    }
  }
}
