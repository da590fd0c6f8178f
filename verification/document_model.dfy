/** The uploaded-document schema (backend/src/models/Documents.ts): a file a
    user uploaded, optionally attached to an application, and what the schema
    accepts when one is created. Dates are milliseconds since the epoch. */
module DocumentModel {
  import opened Common
  import opened Json

  datatype DocumentType = Transcript | Essay | Recommendation | Resume | OtherDocument {
    function Name(): string {
      match this
      case Transcript => "transcript"
      case Essay => "essay"
      case Recommendation => "recommendation"
      case Resume => "resume"
      case OtherDocument => "other"
    }
  }
  const TypeNames: set<string> := {"transcript", "essay", "recommendation", "resume", "other"}

  /** The document type a stored string names, if it is in the domain. */
  function ParseType(s: string): (r: Option<DocumentType>)
    ensures r.Some? <==> s in TypeNames
    ensures r.Some? ==> r.value.Name() == s
  {
    if s == "transcript" then Some(Transcript)
    else if s == "essay" then Some(Essay)
    else if s == "recommendation" then Some(Recommendation)
    else if s == "resume" then Some(Resume)
    else if s == "other" then Some(OtherDocument)
    else None
  }

  /** Every type is stored under a name of the domain and read back as itself. */
  lemma TypeRoundTrip(t: DocumentType)
    ensures t.Name() in TypeNames
    ensures ParseType(t.Name()) == Some(t)
  {
  }

  datatype UploadedDocument = UploadedDocument(
    userId: string,
    applicationId: Option<string>,
    docType: DocumentType,
    url: string,
    filename: string,
    uploadedAt: int)

  /** The schema's constraints on a stored document: `url` and `filename` are
      required (non-empty). The type is in its domain by construction. */
  predicate Valid(d: UploadedDocument) {
    d.url != "" && d.filename != ""
  }

  /** The fields a caller supplies; a missing field is `None`. */
  datatype DocumentInput = DocumentInput(
    userId: Option<string>,
    applicationId: Option<string>,
    docType: Option<string>,
    url: Option<string>,
    filename: Option<string>,
    uploadedAt: Option<int>)

  /** The paths whose validators reject the input: the four required paths,
      and a type outside the domain. */
  function Violations(i: DocumentInput): (paths: set<string>)
    ensures "userId" in paths <==> i.userId.None?
    ensures "type" in paths <==> !Given(i.docType) || i.docType.value !in TypeNames
    ensures "url" in paths <==> !Given(i.url)
    ensures "filename" in paths <==> !Given(i.filename)
    ensures paths <= {"userId", "type", "url", "filename"}
  {
    (if i.userId.None? then {"userId"} else {})
    + (if !Given(i.docType) || ParseType(i.docType.value).None? then {"type"} else {})
    + (if !Given(i.url) then {"url"} else {})
    + (if !Given(i.filename) then {"filename"} else {})
  }

  /** Creating a document record at time `now`: rejected with the failing
      paths, or stored with `uploadedAt` defaulting to `now`. */
  function Create(i: DocumentInput, now: int): (r: Result<UploadedDocument, set<string>>)
    ensures r.Failure? <==> Violations(i) != {}
    ensures r.Failure? ==> r.error == Violations(i)
    ensures r.Success? ==>
      && Valid(r.value)
      && r.value.userId == i.userId.value
      && r.value.applicationId == i.applicationId
      && r.value.docType.Name() == i.docType.value
      && r.value.url == i.url.value
      && r.value.filename == i.filename.value
      && r.value.uploadedAt == i.uploadedAt.OrElse(now)
  {
    var errors := Violations(i);
    if errors != {} then Failure(errors)
    else Success(UploadedDocument(i.userId.value, i.applicationId, ParseType(i.docType.value).value,
                                  i.url.value, i.filename.value, i.uploadedAt.OrElse(now)))
  }

  /** A record need not belong to an application: the same upload is accepted
      with and without one. */
  lemma ApplicationIdOptional(i: DocumentInput, now: int, appId: string)
    ensures Create(i.(applicationId := None), now).Success? <==>
            Create(i.(applicationId := Some(appId)), now).Success?
  {
  }
}
