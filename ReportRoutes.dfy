/**
 * The report routes: POST /api/workerReport (submit with a chosen
 * department), POST /api/workerReports (submit with the department taken
 * from the caller's record) and GET /api/workerReport (a leader's listing).
 * The user collection is read-only here; the report collection is a
 * sequence in insertion order.
 */
module ReportRoutes {
  import opened Wrappers
  import opened UserModel
  import opened Session
  import opened Auth
  import opened ReportModel

  // ------------------------------------------------------- the caller

  /** `User.findById(id)`; ids are unique, so at most one document matches. */
  function FindById(users: map<string, User>, id: nat): (r: Option<User>)
    requires UniqueIds(users)
    ensures r.Some? <==> exists k :: k in users && users[k].id == id
    ensures r.Some? ==> r.value.id == id && r.value in users.Values
  {
    if exists k :: k in users && users[k].id == id then
      var k :| k in users && users[k].id == id;
      Some(users[k])
    else
      None
  }

  /** How the three report routes identify their caller. */
  datatype Caller =
    | NoToken
    /** `jwt.verify` threw: the routes answer 500 */
    | BadToken
    | UnknownUser
    | Known(user: User)

  /**
   * The `token` cookie, `jwt.verify`, then `User.findById(decoded.id)`. An
   * absent or empty cookie is no token; a token that fails verification is
   * not treated as a missing one.
   */
  function Authenticate(users: map<string, User>, token: Option<string>, verify: string -> Option<Claims>): (c: Caller)
    requires UniqueIds(users)
    ensures c == NoToken <==> token.None? || token.value == ""
    ensures c == BadToken <==> token.Some? && token.value != "" && verify(token.value).None?
    ensures c == UnknownUser <==>
      token.Some? && token.value != "" && verify(token.value).Some?
      && !(exists k :: k in users && users[k].id == verify(token.value).value.id)
    ensures c.Known? ==>
      token.Some? && verify(token.value).Some? && c.user.id == verify(token.value).value.id && c.user in users.Values
  {
    if token.None? || token.value == "" then NoToken
    else match verify(token.value)
      case None => BadToken
      case Some(decoded) =>
        match FindById(users, decoded.id)
        case None => UnknownUser
        case Some(u) => Known(u)
  }

  // ------------------------------------------------------ the collection

  /** Report ids are below the next id and pairwise distinct; every stored report passed validation. */
  predicate ReportsInvariant(reports: seq<Report>, nextId: nat) {
    && (forall i :: 0 <= i < |reports| ==> reports[i].id < nextId && ValidReport(reports[i]))
    && (forall i, j :: 0 <= i < j < |reports| ==> reports[i].id != reports[j].id)
  }

  lemma AppendKeepsInvariant(reports: seq<Report>, nextId: nat, doc: Report)
    requires ReportsInvariant(reports, nextId)
    requires doc.id == nextId && ValidReport(doc)
    ensures ReportsInvariant(reports + [doc], nextId + 1)
  {
  }

  /** The JSON body of a submit: a missing `responses` object is the empty object. */
  datatype SubmitBody = SubmitBody(reportDate: Option<int>, responses: map<string, string>, department: string)

  datatype SubmitResponse =
    | SubmitRejected(status: nat, message: string)
    | Submitted(message: string, report: Report)

  // --------------------------------------- department auto-selection

  /**
   * `user.departments.length === 1 ? user.departments[0] : "Multiple Choice"`;
   * `None` when the record has no department list (reading its length throws).
   */
  function AutoDepartment(departments: Option<seq<string>>): (d: Option<string>)
    ensures d.None? <==> departments.None?
    ensures d.Some? ==> (|departments.value| == 1 && d.value == departments.value[0]) || d.value == "Multiple Choice"
    ensures d.Some? && d.value == "Multiple Choice" && |departments.value| == 1 ==> departments.value[0] == "Multiple Choice"
  {
    match departments
    case None => None
    case Some(ds) => if |ds| == 1 then Some(ds[0]) else Some("Multiple Choice")
  }

  /** With named departments, the chosen department is never empty. */
  lemma AutoDepartmentNonEmpty(departments: seq<string>)
    requires forall i :: 0 <= i < |departments| ==> departments[i] != ""
    ensures AutoDepartment(Some(departments)).Some? && AutoDepartment(Some(departments)).value != ""
  {
  }

  /**
   * The document POST /api/workerReports creates, as written: the submitter
   * goes in a field named `userId`, which the schema does not declare, so the
   * strict schema drops it and `user` stays unset.
   */
  function AutoReportAsWritten(u: User, department: string, body: SubmitBody, id: nat, now: int): (r: Report)
    ensures r.user == None && r.department == department
  {
    NewReport(id, None, department, body.reportDate, body.responses, now)
  }

  /** As written, every create from POST /api/workerReports fails validation. */
  lemma AutoReportAsWrittenNeverValid(u: User, department: string, body: SubmitBody, id: nat, now: int)
    ensures !ValidReport(AutoReportAsWritten(u, department, body, id, now))
  {
  }

  /** The document POST /api/workerReports evidently intends: the submitter in `user`. */
  function AutoReport(u: User, department: string, body: SubmitBody, id: nat, now: int): (r: Report)
    ensures r.user == Some(u.id) && r.department == department && r.reportDate == body.reportDate
    ensures ValidReport(r) <==> department != "" && body.reportDate.Some? && AnswersValid(body.responses)
  {
    NewReport(id, Some(u.id), department, body.reportDate, body.responses, now)
  }

  /** With the submitter in `user`, a caller with named departments and a complete form is accepted. */
  lemma AutoReportValidWhenComplete(u: User, body: SubmitBody, id: nat, now: int)
    requires u.departments.Some? && forall i :: 0 <= i < |u.departments.value| ==> u.departments.value[i] != ""
    requires body.reportDate.Some? && AnswersValid(body.responses)
    ensures ValidReport(AutoReport(u, AutoDepartment(u.departments).value, body, id, now))
  {
    AutoDepartmentNonEmpty(u.departments.value);
  }

  // ------------------------------------------------------ the listing

  /** `find({ department: dept })`; an undefined `dept` drops the condition. */
  predicate Matches(r: Report, dept: Option<string>) {
    dept.None? || r.department == dept.value
  }

  /** The reports the query selects, in collection order. */
  function Select(reports: seq<Report>, dept: Option<string>): (t: seq<Report>)
    ensures forall r :: multiset(t)[r] == if Matches(r, dept) then multiset(reports)[r] else 0
    ensures forall i :: 0 <= i < |t| ==> Matches(t[i], dept)
  {
    if reports == [] then []
    else
      var rest := Select(reports[1..], dept);
      assert reports == [reports[0]] + reports[1..];
      if Matches(reports[0], dept) then [reports[0]] + rest else rest
  }

  /** `sort({ createdAt: -1 })`: newest first. */
  predicate NewestFirst(s: seq<Report>) {
    forall i, j :: 0 <= i < j < |s| ==> s[i].createdAt >= s[j].createdAt
  }

  /** A report no older than any in a newest-first list may go in front of it. */
  lemma ConsNewestFirst(r: Report, s: seq<Report>)
    requires NewestFirst(s)
    requires forall j :: 0 <= j < |s| ==> r.createdAt >= s[j].createdAt
    ensures NewestFirst([r] + s)
  {
    forall i, j | 0 <= i < j < |[r] + s| ensures ([r] + s)[i].createdAt >= ([r] + s)[j].createdAt {
      if i > 0 {
        assert ([r] + s)[i] == s[i - 1];
      }
      assert ([r] + s)[j] == s[j - 1];
    }
  }

  function InsertNewestFirst(r: Report, s: seq<Report>): (t: seq<Report>)
    requires NewestFirst(s)
    ensures forall j :: 0 <= j < |t| ==> t[j] == r || t[j] in s
    ensures NewestFirst(t) && multiset(t) == multiset(s) + multiset{r}
  {
    if s == [] || r.createdAt >= s[0].createdAt then
      ConsNewestFirst(r, s);
      [r] + s
    else
      var rest := InsertNewestFirst(r, s[1..]);
      assert s == [s[0]] + s[1..];
      assert forall j :: 0 <= j < |rest| ==> s[0].createdAt >= rest[j].createdAt;
      ConsNewestFirst(s[0], rest);
      [s[0]] + rest
  }

  function SortNewestFirst(s: seq<Report>): (t: seq<Report>)
    ensures NewestFirst(t) && multiset(t) == multiset(s)
  {
    if s == [] then []
    else
      assert s == [s[0]] + s[1..];
      InsertNewestFirst(s[0], SortNewestFirst(s[1..]))
  }

  datatype ListResponse =
    | ListRejected(status: nat, message: string)
    /** `{ reports, department: dept }`; `department` is absent for an empty department list */
    | Listed(reports: seq<Report>, department: Option<string>)

  /** `leader.departments[0]`: `None` when the list is empty. */
  function FirstDepartment(departments: seq<string>): (d: Option<string>)
    ensures d.Some? <==> |departments| > 0
    ensures d.Some? ==> d.value == departments[0]
  {
    if |departments| > 0 then Some(departments[0]) else None
  }

  /**
   * GET /api/workerReport. A leader whose record has a department list sees
   * exactly the reports of its first department (every report when the list
   * is empty), each as often as it is stored, newest first.
   */
  function LeaderReports(users: map<string, User>, reports: seq<Report>, token: Option<string>,
                         verify: string -> Option<Claims>): (r: ListResponse)
    requires UniqueIds(users)
    ensures Authenticate(users, token, verify) == NoToken ==> r == ListRejected(401, "Unauthorized")
    ensures Authenticate(users, token, verify) == BadToken ==> r == ListRejected(500, "Failed to fetch reports")
    ensures Authenticate(users, token, verify) == UnknownUser ==> r == ListRejected(404, "User not found")
    ensures Authenticate(users, token, verify).Known? ==>
      var leader := Authenticate(users, token, verify).user;
      && (leader.role != "leader" ==> r == ListRejected(403, "Only leaders can view reports"))
      && (leader.role == "leader" && leader.departments.None? ==> r == ListRejected(500, "Failed to fetch reports"))
      && (leader.role == "leader" && leader.departments.Some? ==>
            && r.Listed?
            && r.department == FirstDepartment(leader.departments.value)
            && NewestFirst(r.reports)
            && forall x :: multiset(r.reports)[x] == if Matches(x, r.department) then multiset(reports)[x] else 0)
  {
    match Authenticate(users, token, verify)
    case NoToken => ListRejected(401, "Unauthorized")
    case BadToken => ListRejected(500, "Failed to fetch reports")
    case UnknownUser => ListRejected(404, "User not found")
    case Known(leader) =>
      if leader.role != "leader" then ListRejected(403, "Only leaders can view reports")
      else match leader.departments
        case None => ListRejected(500, "Failed to fetch reports")
        case Some(ds) =>
          var dept := FirstDepartment(ds);
          Listed(SortNewestFirst(Select(reports, dept)), dept)
  }

  /** A report of another department leaves the query's selection unchanged. */
  lemma {:induction false} SelectIgnoresOtherDepartment(reports: seq<Report>, dept: string, doc: Report)
    requires doc.department != dept
    ensures Select(reports + [doc], Some(dept)) == Select(reports, Some(dept))
  {
    if reports != [] {
      assert (reports + [doc])[1..] == reports[1..] + [doc];
      SelectIgnoresOtherDepartment(reports[1..], dept, doc);
    }
  }

  /** Storing a report of another department does not change what a leader is shown. */
  lemma ListingIgnoresOtherDepartments(users: map<string, User>, reports: seq<Report>, token: Option<string>,
                                       verify: string -> Option<Claims>, doc: Report)
    requires UniqueIds(users)
    requires Authenticate(users, token, verify).Known?
    requires Authenticate(users, token, verify).user.departments.Some?
    requires |Authenticate(users, token, verify).user.departments.value| > 0
    requires doc.department != Authenticate(users, token, verify).user.departments.value[0]
    ensures LeaderReports(users, reports + [doc], token, verify) == LeaderReports(users, reports, token, verify)
  {
    SelectIgnoresOtherDepartment(reports, Authenticate(users, token, verify).user.departments.value[0], doc);
  }

  /** A stored report is listed for every leader whose first department is its department. */
  lemma ReportListedForItsLeader(users: map<string, User>, reports: seq<Report>, token: Option<string>,
                                 verify: string -> Option<Claims>, doc: Report)
    requires UniqueIds(users)
    requires Authenticate(users, token, verify).Known?
    requires Authenticate(users, token, verify).user.role == "leader"
    requires Authenticate(users, token, verify).user.departments.Some?
    requires |Authenticate(users, token, verify).user.departments.value| > 0
    requires doc.department == Authenticate(users, token, verify).user.departments.value[0]
    requires doc in reports
    ensures LeaderReports(users, reports, token, verify).Listed?
    ensures doc in LeaderReports(users, reports, token, verify).reports
  {
    var r := LeaderReports(users, reports, token, verify);
    assert multiset(r.reports)[doc] == multiset(reports)[doc];
  }

  // ------------------------------------------------------ the store

  class ReportStore {
    var reports: seq<Report>
    /** The id the next created report receives. */
    var nextId: nat

    ghost predicate Valid()
      reads this
    {
      ReportsInvariant(reports, nextId)
    }

    constructor ()
      ensures Valid() && reports == []
    {
      reports := [];
      nextId := 0;
    }

    /** POST /api/workerReport */
    method Submit(users: map<string, User>, token: Option<string>, verify: string -> Option<Claims>,
                  body: SubmitBody, now: int) returns (r: SubmitResponse)
      requires Valid() && UniqueIds(users)
      modifies this
      ensures Valid()
      ensures Authenticate(users, token, verify) == NoToken ==>
        r == SubmitRejected(401, "Unauthorized") && unchanged(this)
      ensures Authenticate(users, token, verify) == BadToken ==>
        r == SubmitRejected(500, "Failed to submit report") && unchanged(this)
      ensures Authenticate(users, token, verify) == UnknownUser ==>
        r == SubmitRejected(404, "User not found") && unchanged(this)
      ensures Authenticate(users, token, verify).Known? && body.department == "" ==>
        r == SubmitRejected(400, "Department is required") && unchanged(this)
      ensures Authenticate(users, token, verify).Known? && body.department != "" ==>
        var u := Authenticate(users, token, verify).user;
        var doc := NewReport(old(nextId), Some(u.id), body.department, body.reportDate, body.responses, now);
        && (!ValidReport(doc) ==> r == SubmitRejected(500, "Failed to submit report") && unchanged(this))
        && (ValidReport(doc) ==>
              && reports == old(reports) + [doc] && nextId == old(nextId) + 1
              && r == Submitted("Report submitted successfully", doc))
    {
      var caller := Authenticate(users, token, verify);
      if caller == NoToken {
        return SubmitRejected(401, "Unauthorized");
      }
      if caller == BadToken {
        return SubmitRejected(500, "Failed to submit report");
      }
      if caller == UnknownUser {
        return SubmitRejected(404, "User not found");
      }
      if body.department == "" {
        return SubmitRejected(400, "Department is required");
      }
      // the department is taken from the body as is, whatever the caller's memberships
      var doc := NewReport(nextId, Some(caller.user.id), body.department, body.reportDate, body.responses, now);
      if !ValidReport(doc) {
        return SubmitRejected(500, "Failed to submit report");
      }
      AppendKeepsInvariant(reports, nextId, doc);
      reports := reports + [doc];
      nextId := nextId + 1;
      r := Submitted("Report submitted successfully", doc);
    }

    /** POST /api/workerReports, with the submitter stored in `user` (see AutoReport). */
    method SubmitAuto(users: map<string, User>, token: Option<string>, verify: string -> Option<Claims>,
                      body: SubmitBody, now: int) returns (r: SubmitResponse)
      requires Valid() && UniqueIds(users)
      modifies this
      ensures Valid()
      ensures Authenticate(users, token, verify) == NoToken ==>
        r == SubmitRejected(401, "Unauthorized") && unchanged(this)
      ensures Authenticate(users, token, verify) == BadToken ==>
        r == SubmitRejected(500, "\U{274C} Failed to submit report") && unchanged(this)
      ensures Authenticate(users, token, verify) == UnknownUser ==>
        r == SubmitRejected(404, "User not found") && unchanged(this)
      ensures Authenticate(users, token, verify).Known? ==>
        var u := Authenticate(users, token, verify).user;
        match AutoDepartment(u.departments)
        case None => r == SubmitRejected(500, "\U{274C} Failed to submit report") && unchanged(this)
        case Some(department) =>
          var doc := AutoReport(u, department, body, old(nextId), now);
          && (!ValidReport(doc) ==> r == SubmitRejected(500, "\U{274C} Failed to submit report") && unchanged(this))
          && (ValidReport(doc) ==>
                && reports == old(reports) + [doc] && nextId == old(nextId) + 1
                && r == Submitted("\U{2705} Report Submitted Successfully", doc))
    {
      var caller := Authenticate(users, token, verify);
      if caller == NoToken {
        return SubmitRejected(401, "Unauthorized");
      }
      if caller == BadToken {
        return SubmitRejected(500, "\U{274C} Failed to submit report");
      }
      if caller == UnknownUser {
        return SubmitRejected(404, "User not found");
      }
      var department := AutoDepartment(caller.user.departments);
      if department.None? {
        return SubmitRejected(500, "\U{274C} Failed to submit report");
      }
      var doc := AutoReport(caller.user, department.value, body, nextId, now);
      if !ValidReport(doc) {
        return SubmitRejected(500, "\U{274C} Failed to submit report");
      }
      AppendKeepsInvariant(reports, nextId, doc);
      reports := reports + [doc];
      nextId := nextId + 1;
      r := Submitted("\U{2705} Report Submitted Successfully", doc);
    }
  }
}
