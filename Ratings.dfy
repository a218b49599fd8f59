/**
 * How leaders see a worker report: the rating label and stars of the
 * customer-service dashboard (src/app/leaders/customerserviceLeader/page.js)
 * and of the sample dashboard (src/app/components/leadersform/leaderDashboard.js),
 * and the submitter and summary fallbacks of a report card.
 */
module Ratings {
  import opened Wrappers
  import opened ReportModel

  /** `getRatingLabel`: a `switch` on the exact values 1..5; anything else has no label. */
  function RatingLabel(rating: Option<real>): (caption: string)
    ensures caption != "" <==> rating.Some? && rating.value in {1.0, 2.0, 3.0, 4.0, 5.0}
    ensures rating == Some(1.0) ==> caption == "Poor"
    ensures rating == Some(2.0) ==> caption == "Fair"
    ensures rating == Some(3.0) ==> caption == "Average"
    ensures rating == Some(4.0) ==> caption == "Good"
    ensures rating == Some(5.0) ==> caption == "Excellent"
  {
    if rating == Some(1.0) then "Poor"
    else if rating == Some(2.0) then "Fair"
    else if rating == Some(3.0) then "Average"
    else if rating == Some(4.0) then "Good"
    else if rating == Some(5.0) then "Excellent"
    else ""
  }

  /** Distinct ratings get distinct labels. */
  lemma LabelsDistinguishRatings(a: Option<real>, b: Option<real>)
    requires RatingLabel(a) != "" && RatingLabel(a) == RatingLabel(b)
    ensures a == b
  {
  }

  /** `report.rating ? getRatingLabel(report.rating) : "Not rated"` (`null` and 0 are falsy). */
  function RatingText(rating: Option<real>): (shown: string)
    ensures rating.None? || rating.value == 0.0 ==> shown == "Not rated"
    ensures rating.Some? && rating.value != 0.0 ==> shown == RatingLabel(rating)
  {
    if rating.None? || rating.value == 0.0 then "Not rated" else RatingLabel(rating)
  }

  /** A whole-number rating a report can hold reads as one of the five labels or "Not rated", never blank. */
  lemma StoredRatingTextNeverBlank(r: Report, k: int)
    requires ValidReport(r)
    requires r.rating.Some? ==> r.rating.value == k as real
    ensures RatingText(r.rating) != ""
  {
  }

  /** Customer-service dashboard: star `s` (1..5) is filled when `rating >= s`; `null` fills none. */
  predicate FilledAtLeast(rating: Option<real>, s: int) {
    rating.Some? && rating.value >= s as real
  }

  /** Sample dashboard: star index `i` (0..4) is filled when `i < rating`. */
  predicate FilledBelow(rating: Option<real>, i: int) {
    rating.Some? && (i as real) < rating.value
  }

  /** The five stars of the customer-service dashboard, left to right. */
  function Stars(rating: Option<real>): (stars: seq<bool>)
    ensures |stars| == 5
    ensures forall i :: 0 <= i < 5 ==> stars[i] == FilledAtLeast(rating, i + 1)
  {
    seq(5, i requires 0 <= i < 5 => FilledAtLeast(rating, i + 1))
  }

  function CountFilled(stars: seq<bool>): (n: nat)
    ensures n <= |stars|
  {
    if stars == [] then 0 else (if stars[0] then 1 else 0) + CountFilled(stars[1..])
  }

  /** The filled stars are a prefix: once a star is empty, every later one is too. */
  lemma FilledStarsArePrefix(rating: Option<real>, i: int, j: int)
    requires 0 <= i < j < 5 && Stars(rating)[j]
    ensures Stars(rating)[i]
  {
  }

  /** A rating of k (1..5) fills exactly k stars; no rating fills none. */
  lemma FilledCountIsRating(rating: Option<real>, k: nat)
    requires (rating.None? && k == 0) || (1 <= k <= 5 && rating == Some(k as real))
    ensures CountFilled(Stars(rating)) == k
  {
    var stars := Stars(rating);
    assert stars == [k >= 1, k >= 2, k >= 3, k >= 4, k >= 5] by {
      forall i | 0 <= i < 5 ensures stars[i] == (k >= i + 1) {
        assert stars[i] == FilledAtLeast(rating, i + 1);
      }
    }
    CountFilledOfFive(k >= 1, k >= 2, k >= 3, k >= 4, k >= 5);
  }

  lemma CountFilledOfFive(a: bool, b: bool, c: bool, d: bool, e: bool)
    ensures CountFilled([a, b, c, d, e]) ==
      (if a then 1 else 0) + (if b then 1 else 0) + (if c then 1 else 0) + (if d then 1 else 0) + (if e then 1 else 0)
  {
    assert [e][1..] == [];
    assert CountFilled([e]) == (if e then 1 else 0);
    assert [d, e][1..] == [e];
    assert CountFilled([d, e]) == (if d then 1 else 0) + CountFilled([e]);
    assert [c, d, e][1..] == [d, e];
    assert CountFilled([c, d, e]) == (if c then 1 else 0) + CountFilled([d, e]);
    assert [b, c, d, e][1..] == [c, d, e];
    assert CountFilled([b, c, d, e]) == (if b then 1 else 0) + CountFilled([c, d, e]);
    assert [a, b, c, d, e][1..] == [b, c, d, e];
  }

  /** The two dashboards fill the same stars for every whole-number rating. */
  lemma FillRulesAgreeOnWholeRatings(rating: Option<real>, k: int, i: int)
    requires rating.Some? ==> rating.value == k as real
    requires 0 <= i < 5
    ensures FilledBelow(rating, i) <==> FilledAtLeast(rating, i + 1)
  {
  }

  /** A fractional rating, which the schema's range 1..5 admits, is drawn differently by the two dashboards. */
  lemma FillRulesDifferOnFractions()
    ensures FilledBelow(Some(2.5), 2) && !FilledAtLeast(Some(2.5), 3)
  {
  }

  /** The populated `user` of a report (`name email`); an absent field is "". */
  datatype Submitter = Submitter(name: string, fullName: string, email: string)

  /** `report.user?.name || report.user?.fullName || report.user?.email || "Worker"` */
  function SubmitterLabel(user: Option<Submitter>): (caption: string)
    ensures caption != ""
    ensures user.Some? && user.value.name != "" ==> caption == user.value.name
    ensures user.Some? && user.value.name == "" && user.value.fullName != "" ==> caption == user.value.fullName
    ensures user.Some? && user.value.name == "" && user.value.fullName == "" && user.value.email != "" ==>
      caption == user.value.email
    ensures user.None? || (user.value.name == "" && user.value.fullName == "" && user.value.email == "") ==>
      caption == "Worker"
  {
    match user
    case None => "Worker"
    case Some(u) =>
      if u.name != "" then u.name
      else if u.fullName != "" then u.fullName
      else if u.email != "" then u.email
      else "Worker"
  }

  /** `report.responses?.text1 || report.responses?.text2 || "No summary provided."` */
  function SummaryText(responses: map<string, string>): (summary: string)
    ensures summary != ""
    ensures "text1" in responses && responses["text1"] != "" ==> summary == responses["text1"]
    ensures ("text1" !in responses || responses["text1"] == "") && "text2" in responses && responses["text2"] != "" ==>
      summary == responses["text2"]
  {
    if "text1" in responses && responses["text1"] != "" then responses["text1"]
    else if "text2" in responses && responses["text2"] != "" then responses["text2"]
    else "No summary provided."
  }

  /** A report submitted with neither of the first two written answers shows the stand-in summary. */
  lemma BlankAnswersShowStandIn(id: nat, user: Option<nat>, department: string, date: Option<int>,
                                submitted: map<string, string>, now: int)
    requires "text1" !in submitted && "text2" !in submitted
    ensures SummaryText(NewReport(id, user, department, date, submitted, now).responses) == "No summary provided."
  {
    assert "text1" in TextKeys && "text2" in TextKeys;
  }

  /** A card of the sample dashboard. */
  datatype SampleReport = SampleReport(id: nat, name: string, department: string, summary: string, rating: real)

  const SampleReports: seq<SampleReport> := [
    SampleReport(1, "John Doe", "Parcel Dept", "Completed all assigned deliveries with no issues.", 5.0),
    SampleReport(2, "Jane Smith", "Maintenance", "Delayed one task due to equipment issues.", 3.0),
    SampleReport(3, "Peter Obi", "Diesel Team", "Excellent team coordination and reporting.", 4.0)]

  /** Every sample card is rated 1..5 and so carries a caption. */
  lemma SampleRatingsLabelled()
    ensures forall i :: 0 <= i < |SampleReports| ==>
      1.0 <= SampleReports[i].rating <= 5.0 && RatingLabel(Some(SampleReports[i].rating)) != ""
  {
  }
}
