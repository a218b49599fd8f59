/**
 * POST /api/signin (src/app/api/signin/route.js): a read-only guard chain over
 * the user collection and the landing-page lookup.
 */
module SignIn {
  import opened Wrappers
  import opened Text
  import opened UserModel
  import opened Session
  import opened Auth

  /** `departmentRoutes`: one landing page per department name. */
  const DepartmentRoutes: map<string, string> := map[
    "Parcel Dept" := "/workers/parcelworker",
    "Media Dept" := "/workers/mediaworker",
    "IELTS Masterclass Dept" := "/workers/ielts-masterclass",
    "Express CV Dept" := "/workers/express-cv",
    "Job Application Dept" := "/workers/job-application",
    "IELTS Booking Dept" := "/workers/ielts-booking",
    "Travel/Tour Dept" := "/workers/travel-tour",
    "OSCE Dept" := "/workers/osce",
    "Customer Service Dept" := "/workers/customer-care",
    "NCLEX Dept" := "/workers/nclex",
    "Marketing Dept" := "/workers/marketing",
    "IT Dept" := "/workers/itdepartment"]

  /** The landing page for users with several departments or none. */
  const DefaultLanding := "/workers"

  const InvalidCredentials := "Invalid email or password"

  /** A user with exactly one department that names a landing page. */
  predicate SingleRoutedDepartment(departments: Option<seq<string>>) {
    departments.Some? && |departments.value| == 1 && departments.value[0] in DepartmentRoutes
  }

  /**
   * `redirectTo`: the department's page when `departments || []` has exactly
   * one entry and that entry is a key of `departmentRoutes`, otherwise "/workers".
   */
  function RedirectFor(departments: Option<seq<string>>): (r: string)
    ensures SingleRoutedDepartment(departments) ==> r == DepartmentRoutes[departments.value[0]]
    ensures !SingleRoutedDepartment(departments) ==> r == DefaultLanding
    ensures r == DefaultLanding || r in DepartmentRoutes.Values
  {
    var ds := departments.GetOr([]);
    if |ds| == 1 && ds[0] in DepartmentRoutes then DepartmentRoutes[ds[0]] else DefaultLanding
  }

  /** Every redirect target is an area under "/workers" that the access gate treats as worker-only. */
  lemma RedirectTargetsAreWorkerPaths(departments: Option<seq<string>>)
    ensures StartsWith(RedirectFor(departments), "/workers")
  {
    var r := RedirectFor(departments);
    if r != DefaultLanding {
      assert r in DepartmentRoutes.Values;
      assert forall v :: v in DepartmentRoutes.Values ==> StartsWith(v, "/workers");
    }
  }

  /** `{ id, name, email, role }` of the success body. */
  datatype SignInProfile = SignInProfile(id: UserId, name: string, email: string, role: string)

  datatype SignInResponse =
    | SignInRejected(status: nat, message: string)
    | SignedIn(redirectTo: string, user: SignInProfile, cookie: Cookie)

  /**
   * The route's checks, in order: both fields present (400), a user with that
   * email (401), a verified account (403, before the password is looked at),
   * the password (401 with the same message as an unknown email). Success
   * issues a seven-day token `{ id, email, role }` in a cookie without `maxAge`.
   */
  function SignIn(users: map<string, User>, email: string, password: string,
                  matches: (string, string) -> bool, production: bool): (r: SignInResponse)
    ensures email == "" || password == "" ==> r == SignInRejected(400, "Email and password are required")
    ensures email != "" && password != "" && NormalizeEmail(email) !in users ==>
      r == SignInRejected(401, InvalidCredentials)
    ensures email != "" && password != "" && NormalizeEmail(email) in users ==>
      var u := users[NormalizeEmail(email)];
      && (!u.isVerified ==> r == SignInRejected(403, "Please verify your email before logging in"))
      && (u.isVerified && !matches(password, u.password) ==> r == SignInRejected(401, InvalidCredentials))
      && (u.isVerified && matches(password, u.password) ==>
            && r.SignedIn?
            && r.redirectTo == RedirectFor(u.departments)
            && r.user == SignInProfile(u.id, u.name, u.email, u.role)
            && r.cookie.token == Token(Claims(u.id, Some(u.email), u.role), SevenDaysSeconds)
            && r.cookie.maxAge == None && r.cookie.httpOnly && r.cookie.secure == production)
  {
    if email == "" || password == "" then
      SignInRejected(400, "Email and password are required")
    else
      var key := NormalizeEmail(email);
      if key !in users then SignInRejected(401, InvalidCredentials)
      else
        var u := users[key];
        if !u.isVerified then SignInRejected(403, "Please verify your email before logging in")
        else if !ComparePassword(u, password, matches) then SignInRejected(401, InvalidCredentials)
        else
          var token := Token(Claims(u.id, Some(u.email), u.role), SevenDaysSeconds);
          SignedIn(RedirectFor(u.departments), SignInProfile(u.id, u.name, u.email, u.role),
                   SessionCookie(token, production, None))
  }

  /**
   * No account enumeration: an unknown email and a wrong password for a
   * verified account give the same response.
   */
  lemma UnknownEmailIndistinguishableFromWrongPassword(
    users: map<string, User>, unknown: string, known: string, password: string,
    matches: (string, string) -> bool, production: bool)
    requires unknown != "" && known != "" && password != ""
    requires NormalizeEmail(unknown) !in users && NormalizeEmail(known) in users
    requires users[NormalizeEmail(known)].isVerified
    requires !matches(password, users[NormalizeEmail(known)].password)
    ensures SignIn(users, unknown, password, matches, production) == SignIn(users, known, password, matches, production)
  {
  }

  /**
   * An unverified account is refused with 403 whatever password is given, so
   * the right and the wrong password cannot be told apart before verification.
   */
  lemma UnverifiedRefusedRegardlessOfPassword(
    users: map<string, User>, email: string, p1: string, p2: string,
    matches: (string, string) -> bool, production: bool)
    requires email != "" && p1 != "" && p2 != ""
    requires NormalizeEmail(email) in users && !users[NormalizeEmail(email)].isVerified
    ensures SignIn(users, email, p1, matches, production) == SignIn(users, email, p2, matches, production)
    ensures SignIn(users, email, p1, matches, production).SignInRejected?
    ensures SignIn(users, email, p1, matches, production).status == 403
  {
  }

  /**
   * End to end: a signup whose document passes validation, followed by
   * verify-otp with the mailed code no later than its expiry, leaves an
   * account that signs in with the signup password (given that bcrypt accepts
   * a password against its own hash) and lands on "/workers", because signup
   * stores no departments.
   */
  lemma {:induction false} SignupThenVerifyThenSignIn(
    users: map<string, User>, nextId: nat, req: SignupRequest, now: int, n: nat, later: int,
    hash: string -> string, matches: (string, string) -> bool, production: bool)
    requires n < Otp.CodeSpan && SoundHashing(hash, matches)
    requires !MissingSignupField(req) && NormalizeEmail(req.email) !in users
    requires ValidDocument(SignupDocument(req, nextId, now, n))
    requires later <= now + 600000
    ensures
      var doc := SignupDocument(req, nextId, now, n);
      var saved := PreSave(doc, true, hash);
      var afterSignup := users[doc.email := saved];
      && CheckOtp(afterSignup[NormalizeEmail(req.email)], Otp.GenerateOtp(n), later) == CodeAccepted
      && var afterVerify := afterSignup[NormalizeEmail(req.email) := MarkVerified(saved)];
         var r := SignIn(afterVerify, req.email, req.password, matches, production);
         r.SignedIn? && r.redirectTo == "/workers" && r.user.id == nextId && r.user.role == req.role
  {
    var doc := SignupDocument(req, nextId, now, n);
    var saved := PreSave(doc, true, hash);
    assert matches(req.password, saved.password);
    var afterVerify := users[doc.email := saved][doc.email := MarkVerified(saved)];
    assert afterVerify[NormalizeEmail(req.email)] == MarkVerified(saved);
    assert !SingleRoutedDepartment(MarkVerified(saved).departments);
  }
}
