/**
 * POST /api/leader-report (src/app/api/leader-report/route.js): a leader's
 * weekly answers are checked for the required fields and mailed as one
 * message. Transport, sender and recipient are not part of this model; the
 * outcome of the send is the parameter `mailOk`.
 */
module LeaderReport {
  import opened Wrappers
  import opened Text

  /** The JSON body; an absent field is the empty string (both are falsy). */
  datatype LeaderReportBody = LeaderReportBody(
    name: string, department: string, q1: string, q2: string, q3: string, q4: string, summary: string)

  /** The mail the route sends: subject, labelled lines in body order, then the summary paragraph. */
  datatype Mail = Mail(subject: string, lines: seq<(string, string)>, summary: string)

  datatype LeaderReportResponse =
    | LeaderReportRejected(status: nat, error: string)
    /** 200 `{ message: "Email sent!" }` */
    | EmailSent(mail: Mail)
    /** 500: the send was attempted and failed */
    | SendFailed(mail: Mail)

  const SubjectPrefix := "New Leader Report \U{2013} "
  const NoSummary := "No additional summary provided."

  /** `!name || !department || !q1 || !q2 || !q3 || !q4`; the summary is optional. */
  predicate MissingLeaderField(b: LeaderReportBody) {
    b.name == "" || b.department == "" || b.q1 == "" || b.q2 == "" || b.q3 == "" || b.q4 == ""
  }

  /** The subject line: the fixed prefix, then the department. */
  function Subject(department: string): (s: string)
    ensures StartsWith(s, SubjectPrefix)
  {
    SubjectPrefix + department
  }

  /** The department can be read back from the subject. */
  lemma SubjectNamesDepartment(department: string)
    ensures Subject(department)[|SubjectPrefix|..] == department
  {
  }

  /** The message for a complete body: the six fields in form order, then the summary or its stand-in. */
  function ReportMail(b: LeaderReportBody): (m: Mail)
    ensures m.subject == Subject(b.department)
    ensures |m.lines| == 6
    ensures forall i :: 0 <= i < 6 ==> m.lines[i].0 == ["Name", "Department", "Q1", "Q2", "Q3", "Q4"][i]
    ensures forall i :: 0 <= i < 6 ==> m.lines[i].1 == [b.name, b.department, b.q1, b.q2, b.q3, b.q4][i]
    ensures m.summary != "" && (b.summary != "" ==> m.summary == b.summary)
  {
    Mail(Subject(b.department),
         [("Name", b.name), ("Department", b.department),
          ("Q1", b.q1), ("Q2", b.q2), ("Q3", b.q3), ("Q4", b.q4)],
         if b.summary != "" then b.summary else NoSummary)
  }

  /** The route: 400 without sending when a required field is missing, otherwise one send. */
  function SubmitLeaderReport(b: LeaderReportBody, mailOk: bool): (r: LeaderReportResponse)
    ensures MissingLeaderField(b) <==> r == LeaderReportRejected(400, "All fields are required")
    ensures !MissingLeaderField(b) ==> r == (if mailOk then EmailSent(ReportMail(b)) else SendFailed(ReportMail(b)))
  {
    if MissingLeaderField(b) then LeaderReportRejected(400, "All fields are required")
    else if mailOk then EmailSent(ReportMail(b))
    else SendFailed(ReportMail(b))
  }

  /** A sent report shows every answer non-empty, so no line of the mail is blank. */
  lemma SentMailHasNoBlankLine(b: LeaderReportBody, mailOk: bool)
    requires SubmitLeaderReport(b, mailOk).EmailSent?
    ensures forall i :: 0 <= i < |SubmitLeaderReport(b, mailOk).mail.lines| ==>
      SubmitLeaderReport(b, mailOk).mail.lines[i].1 != ""
  {
    var m := ReportMail(b);
    assert forall i :: 0 <= i < 6 ==> m.lines[i].1 == [b.name, b.department, b.q1, b.q2, b.q3, b.q4][i];
  }

  /** Leaving the summary out only changes the summary paragraph. */
  lemma SummaryIsOptional(b: LeaderReportBody, mailOk: bool)
    requires !MissingLeaderField(b)
    ensures !MissingLeaderField(b.(summary := ""))
    ensures ReportMail(b.(summary := "")) == ReportMail(b).(summary := NoSummary)
  {
  }
}
