/**
 * The two worker report pages (src/app/workers/parcelworker/page.js and
 * src/app/workers/customer-care/page.js): choosing the department options
 * from the signed-in user kept in browser storage, editing the answers, the
 * submit guard, and the reset after a successful submit. The two pages
 * differ only in how a storage entry that is not valid JSON is handled.
 */
module WorkerForms {
  import opened Wrappers
  import opened ReportModel
  import opened ReportRoutes
  import opened SignIn

  /** `ALL_DEPARTMENTS`, the options offered when the user record names none. */
  const AllDepartments: seq<string> := [
    "Parcel", "Media", "IELTS Masterclass", "Express CV", "Job Application", "IELTS Booking",
    "Travel/Tour", "OSCE", "Customer Service", "Marketing", "NCLEX", "IT Department"]

  lemma AllDepartmentsDistinct()
    ensures |AllDepartments| == 12
    ensures forall i, j :: 0 <= i < j < |AllDepartments| ==> AllDepartments[i] != AllDepartments[j]
  {
  }

  /**
   * The form names are not the sign-in route's department keys ("Parcel" is
   * not "Parcel Dept"): a user whose only department is one of these names
   * lands on the general worker page.
   */
  lemma FormNamesHaveNoLandingPage(i: nat)
    requires i < |AllDepartments|
    ensures AllDepartments[i] !in DepartmentRoutes
    ensures RedirectFor(Some([AllDepartments[i]])) == DefaultLanding
  {
  }

  /** `JSON.parse(localStorage.getItem("user"))`: no entry (or `null`), text that is not JSON, or an object. */
  datatype StoredUser =
    | NoUser
    | Unparsable
    /** `departments` is present only when it is an array */
    | Parsed(name: string, fullName: string, departments: Option<seq<string>>)

  /** The answers of an empty form: q1..q5 and text1..text4, all "". */
  function BlankResponses(): (m: map<string, string>)
    ensures forall k :: k in m <==> k in AnswerKeys || k in TextKeys
    ensures forall k :: k in m ==> m[k] == ""
  {
    map k | k in AnswerKeys + TextKeys :: ""
  }

  datatype WorkerForm = WorkerForm(
    reportDate: string, responses: map<string, string>, department: string,
    options: seq<string>, submitter: string)

  function InitialForm(): (f: WorkerForm)
    ensures f.department == "" && f.options == AllDepartments && f.submitter == ""
    ensures f.reportDate == "" && f.responses == BlankResponses()
  {
    WorkerForm("", BlankResponses(), "", AllDepartments, "")
  }

  /** Options and preselection from a parsed user: its departments when it has some, else the global list. */
  function ChooseOptions(f: WorkerForm, name: string, fullName: string, departments: Option<seq<string>>): (r: WorkerForm)
    ensures departments.Some? && |departments.value| > 0 ==>
      r.options == departments.value && r.department == departments.value[0]
    ensures !(departments.Some? && |departments.value| > 0) ==>
      r.options == AllDepartments && r.department == f.department
    ensures r.submitter == (if name != "" then name else fullName)
    ensures r.reportDate == f.reportDate && r.responses == f.responses
  {
    var f' := if departments.Some? && |departments.value| > 0
              then f.(options := departments.value, department := departments.value[0])
              else f.(options := AllDepartments);
    f'.(submitter := if name != "" then name else if fullName != "" then fullName else "")
  }

  /** The parcel page's mount effect: a parse failure also clears the submitter name. */
  function ParcelMount(f: WorkerForm, stored: StoredUser): (r: WorkerForm)
    ensures stored == NoUser ==> r == f
    ensures stored == Unparsable ==> r == f.(options := AllDepartments, submitter := "")
    ensures stored.Parsed? ==> r == ChooseOptions(f, stored.name, stored.fullName, stored.departments)
  {
    match stored
    case NoUser => f
    case Unparsable => f.(options := AllDepartments, submitter := "")
    case Parsed(name, fullName, departments) => ChooseOptions(f, name, fullName, departments)
  }

  /** The customer-care page's mount effect: a parse failure leaves the submitter name alone. */
  function CustomerCareMount(f: WorkerForm, stored: StoredUser): (r: WorkerForm)
    ensures stored == NoUser ==> r == f
    ensures stored == Unparsable ==> r == f.(options := AllDepartments)
    ensures stored.Parsed? ==> r == ChooseOptions(f, stored.name, stored.fullName, stored.departments)
  {
    match stored
    case NoUser => f
    case Unparsable => f.(options := AllDepartments)
    case Parsed(name, fullName, departments) => ChooseOptions(f, name, fullName, departments)
  }

  /** On a freshly rendered form the two pages make the same choice for every stored user. */
  lemma MountsAgreeOnFreshForm(stored: StoredUser)
    ensures ParcelMount(InitialForm(), stored) == CustomerCareMount(InitialForm(), stored)
  {
  }

  /** Without usable departments the options are the twelve form names and nothing is preselected. */
  lemma FallbackOffersEveryDepartment(stored: StoredUser)
    requires !(stored.Parsed? && stored.departments.Some? && |stored.departments.value| > 0)
    ensures ParcelMount(InitialForm(), stored).options == AllDepartments
    ensures ParcelMount(InitialForm(), stored).department == ""
  {
  }

  /** `handleResponseChange(id, value)`: only the named answer changes. */
  function UpdateResponse(f: WorkerForm, id: string, value: string): (r: WorkerForm)
    ensures r.responses.Keys == f.responses.Keys + {id} && r.responses[id] == value
    ensures forall k :: k in f.responses && k != id ==> r.responses[k] == f.responses[k]
    ensures r.(responses := f.responses) == f
  {
    f.(responses := f.responses[id := value])
  }

  datatype FormSubmit =
    | FormRefused(message: string)
    | PostReport(reportDate: string, responses: map<string, string>, department: string)

  /** `handleSubmit`: no request without a department. */
  function SubmitForm(f: WorkerForm): (s: FormSubmit)
    ensures f.department == "" <==> s == FormRefused("Please select a department.")
    ensures f.department != "" ==> s == PostReport(f.reportDate, f.responses, f.department)
  {
    if f.department == "" then FormRefused("Please select a department.")
    else PostReport(f.reportDate, f.responses, f.department)
  }

  /**
   * Handling the route's answer: on success the date and every answer are
   * cleared and the department kept; on failure the form is kept and the
   * route's message (or a stand-in) is shown.
   */
  function AfterSubmit(f: WorkerForm, response: SubmitResponse): (r: (WorkerForm, string))
    ensures response.Submitted? ==>
      && r.0 == f.(reportDate := "", responses := BlankResponses())
      && r.1 == "Report submitted to " + f.department + " leader successfully!"
    ensures response.SubmitRejected? ==>
      r.0 == f && r.1 == (if response.message != "" then response.message else "Failed to submit report.")
  {
    match response
    case Submitted(_, _) =>
      (f.(reportDate := "", responses := BlankResponses()), "Report submitted to " + f.department + " leader successfully!")
    case SubmitRejected(_, message) =>
      (f, if message != "" then message else "Failed to submit report.")
  }

  /**
   * A form the page posts, with every question answered Yes or No and a date
   * that parses, makes a report document that passes validation.
   */
  lemma AnsweredFormMakesValidReport(f: WorkerForm, parseDate: string -> Option<int>, id: nat, user: nat, now: int)
    requires SubmitForm(f).PostReport?
    requires forall q :: q in AnswerKeys ==> q in f.responses && IsAnswer(f.responses[q])
    requires parseDate(f.reportDate).Some?
    ensures ValidReport(NewReport(id, Some(user), f.department, parseDate(f.reportDate), f.responses, now))
  {
  }

  /** A form just reset has no answers, so posting it again without answering is refused by validation. */
  lemma ResetFormFailsValidation(f: WorkerForm, response: SubmitResponse, parseDate: string -> Option<int>,
                                 id: nat, user: nat, now: int)
    requires response.Submitted?
    ensures var g := AfterSubmit(f, response).0;
      !ValidReport(NewReport(id, Some(user), g.department, parseDate(g.reportDate), g.responses, now))
  {
    var g := AfterSubmit(f, response).0;
    assert "q1" in AnswerKeys;
    assert g.responses["q1"] == "";
  }
}
