/** The application schema (backend/src/models/Application.ts): a user's
    application to a university programme, and what the schema accepts when
    one is created. Dates are milliseconds since the epoch. */
module ApplicationModel {
  import opened Common
  import opened Json

  datatype ApplicationStatus = Draft | Submitted | UnderReview | Accepted | Rejected {
    function Name(): string {
      match this
      case Draft => "draft"
      case Submitted => "submitted"
      case UnderReview => "under_review"
      case Accepted => "accepted"
      case Rejected => "rejected"
    }
  }
  const StatusNames: set<string> := {"draft", "submitted", "under_review", "accepted", "rejected"}

  /** The status a stored string names, if it is in the domain. */
  function ParseStatus(s: string): (r: Option<ApplicationStatus>)
    ensures r.Some? <==> s in StatusNames
    ensures r.Some? ==> r.value.Name() == s
  {
    if s == "draft" then Some(Draft)
    else if s == "submitted" then Some(Submitted)
    else if s == "under_review" then Some(UnderReview)
    else if s == "accepted" then Some(Accepted)
    else if s == "rejected" then Some(Rejected)
    else None
  }

  /** Every status is stored under a name of the domain and read back as itself. */
  lemma StatusRoundTrip(st: ApplicationStatus)
    ensures st.Name() in StatusNames
    ensures ParseStatus(st.Name()) == Some(st)
  {
  }

  datatype Application = Application(
    userId: string,
    universityId: string,
    program: string,
    status: ApplicationStatus,
    progress: int,
    submittedAt: Option<int>)

  /** The schema's constraints on a stored application: the required strings
      are non-empty and progress is a percentage. `submittedAt` is free. */
  predicate Valid(a: Application) {
    a.universityId != "" && a.program != "" && 0 <= a.progress <= 100
  }

  /** The fields a caller supplies when creating an application; a missing
      field is `None`. */
  datatype ApplicationInput = ApplicationInput(
    userId: Option<string>,
    universityId: Option<string>,
    program: Option<string>,
    status: Option<string>,
    progress: Option<int>,
    submittedAt: Option<int>)

  /** The paths whose validators reject the input. */
  function Violations(i: ApplicationInput): (paths: set<string>)
    ensures "userId" in paths <==> i.userId.None?
    ensures "universityId" in paths <==> !Given(i.universityId)
    ensures "program" in paths <==> !Given(i.program)
    ensures "status" in paths <==> i.status.Some? && i.status.value !in StatusNames
    ensures "progress" in paths <==> i.progress.Some? && !(0 <= i.progress.value <= 100)
    ensures paths <= {"userId", "universityId", "program", "status", "progress"}
  {
    (if i.userId.None? then {"userId"} else {})
    + (if !Given(i.universityId) then {"universityId"} else {})
    + (if !Given(i.program) then {"program"} else {})
    + (if i.status.Some? && ParseStatus(i.status.value).None? then {"status"} else {})
    + (if i.progress.Some? && !(0 <= i.progress.value <= 100) then {"progress"} else {})
  }

  /** Creating an application: rejected with the set of failing paths, or
      stored with status `draft` and progress 0 where none is given. */
  function Create(i: ApplicationInput): (r: Result<Application, set<string>>)
    ensures r.Failure? <==> Violations(i) != {}
    ensures r.Failure? ==> r.error == Violations(i)
    ensures r.Success? ==>
      && Valid(r.value)
      && r.value.userId == i.userId.value
      && r.value.universityId == i.universityId.value
      && r.value.program == i.program.value
      && r.value.status.Name() == i.status.OrElse("draft")
      && r.value.progress == i.progress.OrElse(0)
      && r.value.submittedAt == i.submittedAt
  {
    var errors := Violations(i);
    if errors != {} then Failure(errors)
    else
      var status := if i.status.Some? then ParseStatus(i.status.value).value else Draft;
      Success(Application(i.userId.value, i.universityId.value, i.program.value, status,
                          i.progress.OrElse(0), i.submittedAt))
  }

  /** The schema does not tie `submittedAt` to the status: a submitted
      application need not carry a submission date, and a draft may. */
  lemma SubmittedAtIndependentOfStatus(userId: string, universityId: string, program: string, t: int)
    requires universityId != "" && program != ""
    ensures Valid(Application(userId, universityId, program, Submitted, 0, None))
    ensures Valid(Application(userId, universityId, program, Draft, 0, Some(t)))
  {
  }

  /** The minimal creation request — only the required fields — yields a
      draft at zero progress. */
  lemma MinimalApplication(userId: string, universityId: string, program: string)
    requires universityId != "" && program != ""
    ensures Create(ApplicationInput(Some(userId), Some(universityId), Some(program), None, None, None))
      == Success(Application(userId, universityId, program, Draft, 0, None))
  {
  }
}
