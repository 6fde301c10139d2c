/** The document upload page (src/app/onboarding/documents/page.tsx): the
    table of documents, the map of uploaded entries, the progress counter
    and the required-documents check. */
module DocumentsPage {
  import opened Wrappers
  import DocumentUpload
  import DocumentStatus

  /** One row of `requiredDocuments`. */
  datatype RequiredDocument = RequiredDocument(id: string, name: string, description: string, required: bool)

  const RequiredDocuments: seq<RequiredDocument> := [
    RequiredDocument("certificate_of_incorporation", "Certificate of Incorporation",
                     "Official certificate of company incorporation", true),
    RequiredDocument("tin_certificate", "TIN Certificate",
                     "Tax identification number certificate", true),
    RequiredDocument("memorandum_articles", "Memorandum & Articles of Association",
                     "Company's memorandum and articles of association", true),
    RequiredDocument("director_passports", "Director/UBO Passports",
                     "Valid passports or IDs of all directors and UBOs", true),
    RequiredDocument("operating_license", "Operating License",
                     "Business operating license (if applicable)", false),
    RequiredDocument("company_resolution", "Company Resolution Letter",
                     "Board resolution authorizing the business relationship", true)]

  /** The ids of the rows marked required, in table order. */
  function RequiredIds(table: seq<RequiredDocument>): (r: seq<string>)
    ensures forall x :: x in r <==> exists i :: 0 <= i < |table| && table[i].required && table[i].id == x
  {
    if |table| == 0 then []
    else
      var rest := RequiredIds(table[1..]);
      assert forall i :: 1 <= i < |table| ==> table[i] == table[1..][i - 1];
      assert forall j :: 0 <= j < |table[1..]| ==> table[1..][j] == table[j + 1];
      (if table[0].required then [table[0].id] else []) + rest
  }

  /** `requiredDocuments.filter(doc => doc.required).length`. */
  function RequiredCount(table: seq<RequiredDocument>): nat {
    if |table| == 0 then 0 else (if table[0].required then 1 else 0) + RequiredCount(table[1..])
  }

  /** Six documents, five of them required; the operating licence is the
      optional one. */
  lemma TableShape()
    ensures |RequiredDocuments| == 6
    ensures RequiredCount(RequiredDocuments) == 5
    ensures RequiredIds(RequiredDocuments) ==
      ["certificate_of_incorporation", "tin_certificate", "memorandum_articles", "director_passports", "company_resolution"]
    ensures forall i :: 0 <= i < |RequiredDocuments| && !RequiredDocuments[i].required ==>
      RequiredDocuments[i].id == "operating_license"
  {
    var t := RequiredDocuments;
    assert t[1..][1..][1..][1..][1..][1..] == [];
  }

  /** An uploaded entry: `{file, status, uploadedAt: new Date(), comments: []}`,
      the time taken as a parameter. */
  datatype DocumentEntry = DocumentEntry(file: DocumentUpload.UploadedFile, status: string, uploadedAt: int, comments: seq<string>)

  type Documents = map<string, DocumentEntry>

  /** `documents[docId]?.status || "not_uploaded"`. */
  function StatusOf(documents: Documents, docId: string): (s: string)
    ensures docId !in documents ==> s == "not_uploaded"
    ensures docId in documents && documents[docId].status != "" ==> s == documents[docId].status
  {
    if docId in documents && documents[docId].status != "" then documents[docId].status else "not_uploaded"
  }

  /** `requiredDocuments.filter(doc => doc.required).every(doc => documents[doc.id])`;
      an entry is an object and so truthy. */
  predicate AllRequiredUploaded(documents: Documents) {
    forall i :: 0 <= i < |RequiredDocuments| && RequiredDocuments[i].required ==> RequiredDocuments[i].id in documents
  }

  /** The check holds exactly when every required id has an entry; the
      optional licence plays no part. */
  lemma AllRequiredRule(documents: Documents)
    ensures AllRequiredUploaded(documents) <==> forall x :: x in RequiredIds(RequiredDocuments) ==> x in documents
    ensures AllRequiredUploaded(documents) <==> AllRequiredUploaded(documents - {"operating_license"})
  {
    TableShape();
    if AllRequiredUploaded(documents) {
      forall i | 0 <= i < |RequiredDocuments| && RequiredDocuments[i].required
        ensures RequiredDocuments[i].id in documents - {"operating_license"}
      {
      }
    }
  }

  /** The entry `handleDocumentUpload` stores. */
  function Uploaded(documents: Documents, docId: string, file: DocumentUpload.UploadedFile, status: string, now: int): (r: Documents)
    ensures r.Keys == documents.Keys + {docId}
    ensures r[docId] == DocumentEntry(file, status, now, [])
    ensures forall k :: k in documents && k != docId ==> r[k] == documents[k]
  {
    documents[docId := DocumentEntry(file, status, now, [])]
  }

  /** The counter's numerator: the keys before this upload, plus one. */
  function NextCount(documents: Documents): nat {
    |documents.Keys| + 1
  }

  /** An upload marks its document with the given status and no other
      document's status moves; uploads never undo the required check. */
  lemma UploadStatus(documents: Documents, docId: string, file: DocumentUpload.UploadedFile, status: string, now: int, other: string)
    ensures StatusOf(Uploaded(documents, docId, file, status, now), docId) == if status == "" then "not_uploaded" else status
    ensures other != docId ==> StatusOf(Uploaded(documents, docId, file, status, now), other) == StatusOf(documents, other)
    ensures AllRequiredUploaded(documents) ==> AllRequiredUploaded(Uploaded(documents, docId, file, status, now))
  {
  }

  /** The numerator is taken from the keys held before the upload, plus one:
      after a re-upload the key count stays, but the numerator is still one
      more than the documents held. */
  lemma ReuploadOvercounts(documents: Documents, docId: string, file: DocumentUpload.UploadedFile, now: int)
    requires docId in documents
    ensures |Uploaded(documents, docId, file, "pending", now).Keys| == |documents.Keys|
    ensures NextCount(Uploaded(documents, docId, file, "pending", now)) == NextCount(documents)
    ensures NextCount(documents) == |documents.Keys| + 1
  {
    assert documents.Keys + {docId} == documents.Keys;
  }

  /** Uploading a new document keeps the numerator equal to the number of
      documents held. */
  lemma NewUploadCounts(documents: Documents, docId: string, file: DocumentUpload.UploadedFile, now: int)
    requires docId !in documents
    ensures |Uploaded(documents, docId, file, "pending", now).Keys| == NextCount(documents)
  {
    assert docId !in documents.Keys;
  }

  /** The ids of the table's rows, in order. */
  function RowIds(table: seq<RequiredDocument>): (r: seq<string>)
    ensures |r| == |table| && forall i :: 0 <= i < |table| ==> r[i] == table[i].id
  {
    seq(|table|, i requires 0 <= i < |table| => table[i].id)
  }

  /** A list without repeats has as many members as entries. */
  lemma {:induction false} DistinctCardinality(xs: seq<string>)
    requires forall i, j :: 0 <= i < j < |xs| ==> xs[i] != xs[j]
    ensures |set x | x in xs| == |xs|
  {
    if xs != [] {
      var ys := xs[..|xs| - 1];
      var z := xs[|xs| - 1];
      DistinctCardinality(ys);
      assert (set x | x in xs) == (set x | x in ys) + {z};
      assert z !in (set x | x in ys);
    }
  }

  /** The six rows have six different ids. */
  lemma RowIdsDistinct()
    ensures forall i, j :: 0 <= i < j < |RequiredDocuments| ==> RowIds(RequiredDocuments)[i] != RowIds(RequiredDocuments)[j]
  {
    var ids := RowIds(RequiredDocuments);
    forall i, j | 0 <= i < j < |ids| ensures ids[i] != ids[j] {
      assert |ids[i]| != |ids[j]| || ids[i][0] != ids[j][0];
    }
  }

  /** Adding a key not yet held adds one to the count. */
  lemma OneMoreKey(keys: set<string>, k: string, all: set<string>)
    requires k !in keys && keys + {k} == all
    ensures |keys| + 1 == |all|
  {
  }

  /** The optional licence counts like any other document: once all six rows
      are uploaded the last upload sets the numerator to 6 over the 5 required
      documents, more than 100 per cent. */
  lemma AllRowsExceedRequired(documents: Documents, docId: string)
    requires docId !in documents
    requires documents.Keys + {docId} == set x | x in RowIds(RequiredDocuments)
    ensures NextCount(documents) == |RequiredDocuments| == 6
    ensures RequiredCount(RequiredDocuments) == 5
  {
    TableShape();
    RowIdsDistinct();
    DistinctCardinality(RowIds(RequiredDocuments));
    OneMoreKey(documents.Keys, docId, set x | x in RowIds(RequiredDocuments));
  }

  /** Everything this page stores is "pending", so each document's control
      is yellow with the upload arrow or gray with a plain file, and its
      badge reads "Pending" or "Not Uploaded". */
  lemma PageShowsPendingOrNotUploaded(documents: Documents, docId: string)
    requires forall k :: k in documents ==> documents[k].status == "pending"
    ensures var s := StatusOf(documents, docId);
      (s == "pending" && DocumentUpload.StatusColor(s) == "text-yellow-600" &&
       DocumentUpload.IconFor(s) == DocumentUpload.UploadIcon && DocumentStatus.ConfigFor(s).caption == "Pending") ||
      (s == "not_uploaded" && DocumentUpload.StatusColor(s) == "text-gray-600" &&
       DocumentUpload.IconFor(s) == DocumentUpload.FileIcon && DocumentStatus.ConfigFor(s).caption == "Not Uploaded")
  {
  }

  /** The control's colour and the badge agree: red exactly for the
      destructive badge, gray exactly for the outline one. */
  lemma ColourMatchesBadge(status: string)
    ensures DocumentUpload.StatusColor(status) == "text-red-600" <==> DocumentStatus.ConfigFor(status).variant == DocumentStatus.Destructive
    ensures DocumentUpload.StatusColor(status) == "text-gray-600" <==> DocumentStatus.ConfigFor(status).variant == DocumentStatus.Outline
  {
  }

  /** The page: its documents map and the progress numerator it last set. */
  class DocumentsPage {
    var documents: Documents
    var uploadedCount: nat

    constructor ()
      ensures documents == map[] && uploadedCount == 0
    {
      documents := map[];
      uploadedCount := 0;
    }

    /** Whether every required document has an entry. */
    predicate RequiredComplete()
      reads this
    {
      AllRequiredUploaded(documents)
    }

    /** `handleDocumentUpload(documentId, file, status)` at time `now`. */
    method HandleDocumentUpload(docId: string, file: DocumentUpload.UploadedFile, status: string, now: int)
      modifies this
      ensures documents == Uploaded(old(documents), docId, file, status, now)
      ensures uploadedCount == NextCount(old(documents))
    {
      uploadedCount := |documents.Keys| + 1;
      documents := documents[docId := DocumentEntry(file, status, now, [])];
    }
  }
}
