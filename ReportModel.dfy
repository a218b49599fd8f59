/**
 * The worker report document (src/models/WorkerReport.js): its fields, the
 * defaults the schema fills in and the validation a create runs.
 */
module ReportModel {
  import opened Wrappers
  import opened UserModel

  /** The required Yes/No answers under `responses`. */
  const AnswerKeys: seq<string> := ["q1", "q2", "q3", "q4", "q5"]

  /** The free-text answers under `responses`, each defaulting to "". */
  const TextKeys: seq<string> := ["text1", "text2", "text3", "text4"]

  /** `enum: ["Yes", "No"]` */
  predicate IsAnswer(v: string) { v == "Yes" || v == "No" }

  /** A path the schema declares under `responses`. */
  predicate Declared(key: string) { key in AnswerKeys || key in TextKeys }

  /**
   * The `responses` sub-document built from a submitted object: undeclared
   * keys are dropped (strict schema) and every missing text answer takes its
   * default "".
   */
  function CastResponses(submitted: map<string, string>): (r: map<string, string>)
    ensures forall k :: k in r <==> (k in submitted && Declared(k)) || k in TextKeys
    ensures forall k :: k in r ==> r[k] == (if k in submitted then submitted[k] else "")
  {
    map k | k in submitted.Keys + (set t | t in TextKeys) && Declared(k) ::
      if k in submitted then submitted[k] else ""
  }

  /** Every required answer is present and is "Yes" or "No". */
  predicate AnswersValid(responses: map<string, string>) {
    forall q :: q in AnswerKeys ==> q in responses && IsAnswer(responses[q])
  }

  datatype Report = Report(
    id: nat,
    /** the submitting user; absent when the create gave no `user` */
    user: Option<UserId>,
    department: string,
    /** the report date in milliseconds; absent when missing, empty or not a date */
    reportDate: Option<int>,
    responses: map<string, string>,
    /** the leader's rating; `null` until rated */
    rating: Option<real>,
    leaderComment: string,
    /** the `timestamps` creation time */
    createdAt: int)

  /**
   * What `WorkerReport.create` accepts: `user`, `department` and `reportDate`
   * present (a required string must be non-empty), the five answers Yes or
   * No, and a rating that is unset or within 1..5.
   */
  predicate ValidReport(r: Report) {
    && r.user.Some?
    && r.department != ""
    && r.reportDate.Some?
    && AnswersValid(r.responses)
    && (r.rating.None? || 1.0 <= r.rating.value <= 5.0)
  }

  /**
   * The document `WorkerReport.create({ user, department, reportDate, responses })`
   * builds: rating `null`, an empty leader comment, text defaults, created `now`.
   * It validates exactly when the caller supplied a user, a department, a date
   * and five Yes/No answers.
   */
  function NewReport(id: nat, user: Option<UserId>, department: string, reportDate: Option<int>,
                     submitted: map<string, string>, now: int): (r: Report)
    ensures r.id == id && r.user == user && r.department == department && r.reportDate == reportDate
    ensures r.rating == None && r.leaderComment == "" && r.createdAt == now
    ensures forall t :: t in TextKeys ==> t in r.responses && (t !in submitted ==> r.responses[t] == "")
    ensures ValidReport(r) <==> user.Some? && department != "" && reportDate.Some? && AnswersValid(submitted)
  {
    var r := Report(id, user, department, reportDate, CastResponses(submitted), None, "", now);
    assert AnswersValid(r.responses) <==> AnswersValid(submitted) by {
      assert forall q :: q in AnswerKeys ==> Declared(q);
    }
    r
  }
}
