/**
 * The account routes that write the user collection: signup
 * (src/app/api/signup/route.js), OTP verification
 * (src/app/api/verify-otp/route.js) and OTP resend
 * (src/app/api/resend-otp/route.js).
 *
 * The collection is the `users` field of a `UserStore`, keyed by the stored
 * (lower-cased, trimmed) email. `findOne({ email })` applies the same setters
 * to the query value, so every lookup is by `NormalizeEmail(email)`. A fetched
 * document that the route changes and saves is replaced in the map.
 * The clock (`now`, ms), the random draw `n` behind `generateOTP` and the
 * outcome of the mail send (`mailOk`) are inputs.
 */
module Auth {
  import opened Wrappers
  import opened Text
  import opened Otp
  import opened UserModel
  import opened Session

  // ------------------------------------------------------------ invariants

  /**
   * The OTP fields of a stored user: code and expiry are set together, a
   * verified account holds none, and a held code is six digits.
   */
  predicate OtpStateOk(u: User) {
    && (u.otp.Some? <==> u.otpExpires.Some?)
    && (u.isVerified ==> u.otp.None?)
    && (u.otp.Some? ==> IsOtpCode(u.otp.value))
  }

  /** Generated ids are unique across the collection. */
  predicate UniqueIds(users: map<string, User>) {
    forall a, b :: a in users && b in users && users[a].id == users[b].id ==> a == b
  }

  predicate StoreInvariant(users: map<string, User>, nextId: nat) {
    && UniqueIds(users)
    && forall k :: k in users ==> users[k].email == k && users[k].id < nextId && OtpStateOk(users[k])
  }

  /** Inserting a document under its own email with the next id keeps the invariant. */
  lemma InsertKeepsInvariant(users: map<string, User>, nextId: nat, u: User)
    requires StoreInvariant(users, nextId)
    requires u.email !in users && u.id == nextId && OtpStateOk(u)
    ensures StoreInvariant(users[u.email := u], nextId + 1)
  {
  }

  /** Deleting the key just inserted restores the collection: the rollback of a failed signup. */
  lemma RemoveInserted(users: map<string, User>, key: string, u: User)
    requires key !in users
    ensures users[key := u] - {key} == users
  {
    var back := users[key := u] - {key};
    assert back.Keys == users.Keys;
    assert forall k :: k in back ==> back[k] == users[k];
  }

  /** Replacing a stored document by one with the same email and id that keeps the OTP invariant. */
  lemma ReplaceKeepsInvariant(users: map<string, User>, nextId: nat, key: string, u: User)
    requires StoreInvariant(users, nextId) && key in users
    requires u.email == key && u.id == users[key].id && OtpStateOk(u)
    ensures StoreInvariant(users[key := u], nextId)
  {
  }

  // ---------------------------------------------------------- verify-otp

  datatype OtpCheck = WrongCode | CodeExpired | CodeAccepted

  /**
   * The two checks of verify-otp, in the route's order: the stored code must
   * equal the supplied one (a cleared code equals nothing), then the code must
   * not be past its expiry. A code expiring exactly at `now` is accepted and a
   * code without expiry never expires.
   */
  function CheckOtp(u: User, code: string, now: int): (r: OtpCheck)
    ensures r == WrongCode <==> u.otp != Some(code)
    ensures r == CodeExpired <==> u.otp == Some(code) && u.otpExpires.Some? && u.otpExpires.value < now
    ensures r == CodeAccepted <==> u.otp == Some(code) && (u.otpExpires.None? || now <= u.otpExpires.value)
  {
    if u.otp != Some(code) then WrongCode
    else if u.otpExpires.Some? && u.otpExpires.value < now then CodeExpired
    else CodeAccepted
  }

  /** The success branch of verify-otp: verified, code and expiry cleared, nothing else changed. */
  function MarkVerified(u: User): (r: User)
    ensures r.isVerified && r.otp == None && r.otpExpires == None
    ensures r.(isVerified := u.isVerified, otp := u.otp, otpExpires := u.otpExpires) == u
  {
    u.(isVerified := true, otp := None, otpExpires := None)
  }

  /** Once verified, every further verification attempt fails as a wrong code. */
  lemma VerifiedRejectsEveryCode(u: User, code: string, now: int)
    ensures CheckOtp(MarkVerified(u), code, now) == WrongCode
  {
  }

  /** A user holding a code issued at `issued` is accepted with that code exactly up to the expiry instant. */
  lemma IssuedCodeAcceptedUntilExpiry(u: User, code: string, issued: int, now: int)
    requires u.otp == Some(code) && u.otpExpires == Some(issued + OtpLifetimeMs)
    ensures CheckOtp(u, code, now) == CodeAccepted <==> now <= issued + 600000
    ensures CheckOtp(u, code, now) == CodeExpired <==> now > issued + 600000
  {
  }

  lemma MarkVerifiedKeepsInvariant(u: User)
    ensures OtpStateOk(MarkVerified(u))
  {
  }

  /** `{ id, name, role, departments }` of the verify-otp success body. */
  datatype VerifiedProfile = VerifiedProfile(id: UserId, name: string, role: string, departments: Option<seq<string>>)

  datatype VerifyResponse =
    | VerifyRejected(status: nat, message: string)
    | OtpVerified(user: VerifiedProfile)

  // ---------------------------------------------------------- resend-otp

  /** `60 * 1000`: minimum spacing of two sends. */
  const ResendCooldownMs := 60 * 1000

  /** The rate limit: a previous send less than a minute before `now`. */
  predicate CooldownActive(lastSent: Option<int>, now: int) {
    lastSent.Some? && now - lastSent.value < ResendCooldownMs
  }

  /** The resend success branch: new code, expiry ten minutes on, send time recorded. */
  function Reissue(u: User, code: string, now: int): (r: User)
    ensures r.otp == Some(code) && r.otpExpires == Some(now + OtpLifetimeMs) && r.lastOtpSentAt == Some(now)
    ensures r.isVerified == u.isVerified
    ensures r.(otp := u.otp, otpExpires := u.otpExpires, lastOtpSentAt := u.lastOtpSentAt) == u
  {
    u.(otp := Some(code), otpExpires := Some(now + OtpLifetimeMs), lastOtpSentAt := Some(now))
  }

  /**
   * After a resend at `sent`, a further resend at `later` is refused exactly
   * when it comes less than 60000 ms later: the window restarts at every send.
   */
  lemma ReissueRestartsCooldown(u: User, code: string, sent: int, later: int)
    ensures CooldownActive(Reissue(u, code, sent).lastOtpSentAt, later) <==> later < sent + 60000
  {
  }

  /**
   * The resend success branch as written: `lastOtpSentAt` is not a path of
   * the strict user schema, so its assignment is not saved and the stored
   * record keeps its previous send time.
   */
  function ReissueAsWritten(u: User, code: string, now: int): (r: User)
    ensures r.otp == Some(code) && r.otpExpires == Some(now + OtpLifetimeMs)
    ensures r.lastOtpSentAt == u.lastOtpSentAt
  {
    u.(otp := Some(code), otpExpires := Some(now + OtpLifetimeMs))
  }

  /**
   * As written, a user without a recorded send time is never rate-limited:
   * a second resend is accepted at once, even in the same millisecond.
   */
  lemma AsWrittenResendNeverLimited(u: User, code: string, sent: int, later: int)
    requires u.lastOtpSentAt == None
    ensures !CooldownActive(ReissueAsWritten(u, code, sent).lastOtpSentAt, later)
    ensures CooldownActive(Reissue(u, code, sent).lastOtpSentAt, sent)
  {
  }

  /** A user who was never sent a code through resend is never rate-limited. */
  lemma NoPreviousSendNeverLimited(u: User, now: int)
    requires u.lastOtpSentAt == None
    ensures !CooldownActive(u.lastOtpSentAt, now)
  {
  }

  datatype ResendResponse =
    | ResendRejected(status: nat, message: string)
    | AlreadyVerified
    | Resent
    | ResendMailFailed

  // ---------------------------------------------------------------- signup

  /** The signup body; `departments` is accepted in the body but never read. */
  datatype SignupRequest = SignupRequest(
    name: string, email: string, password: string, role: string, departments: Option<seq<string>>)

  /** `!name || !email || !password || !role` */
  predicate MissingSignupField(req: SignupRequest) {
    req.name == "" || req.email == "" || req.password == "" || req.role == ""
  }

  /** The document signup builds: the request's fields, a fresh code and its ten-minute expiry. */
  function SignupDocument(req: SignupRequest, id: UserId, now: int, n: nat): (u: User)
    requires n < CodeSpan
    ensures u.otp == Some(GenerateOtp(n)) && IsOtpCode(u.otp.value)
    ensures u.otpExpires == Some(now + 600000) && !u.isVerified
    ensures u.departments == None && u.lastOtpSentAt == None
    ensures u.email == NormalizeEmail(req.email) && u.password == req.password && u.role == req.role
    ensures OtpStateOk(u)
  {
    NewUserDocument(id, req.name, req.email, req.password, req.role, GenerateOtp(n), now + OtpLifetimeMs)
  }

  /** `{ id, name, email, role }` of the signup success body. */
  datatype CreatedProfile = CreatedProfile(id: UserId, name: string, email: string, role: string)

  datatype SignupResponse =
    | SignupRejected(status: nat, message: string)
    | SignupCreated(user: CreatedProfile, cookie: Cookie)

  /** The cookie signup sets on success: a seven-day token carrying `{ id, role }`. */
  function SignupCookie(u: User, production: bool): (c: Cookie)
    ensures c.token == Token(Claims(u.id, None, u.role), SevenDaysSeconds)
    ensures c.maxAge == Some(604800) && c.name == "token"
  {
    SessionCookie(Token(Claims(u.id, None, u.role), SevenDaysSeconds), production, Some(SevenDaysSeconds))
  }

  // ------------------------------------------------------------- the store

  class UserStore {
    var users: map<string, User>
    /** The id the next created document receives (ids are never reused). */
    var nextId: nat

    ghost predicate Valid()
      reads this
    {
      StoreInvariant(users, nextId)
    }

    constructor ()
      ensures Valid() && users == map[]
    {
      users := map[];
      nextId := 0;
    }

    /** POST /api/signup */
    method Signup(req: SignupRequest, now: int, n: nat, mailOk: bool, hash: string -> string, production: bool)
      returns (r: SignupResponse)
      requires Valid() && n < CodeSpan
      modifies this
      ensures Valid()
      ensures MissingSignupField(req) ==>
        r == SignupRejected(400, "All fields are required") && users == old(users)
      ensures !MissingSignupField(req) && NormalizeEmail(req.email) in old(users) ==>
        r == SignupRejected(400, "Email already exists") && users == old(users)
      ensures !MissingSignupField(req) && NormalizeEmail(req.email) !in old(users) ==>
        var doc := SignupDocument(req, old(nextId), now, n);
        && (!ValidDocument(doc) ==> r == SignupRejected(500, "\U{274C} Signup failed") && users == old(users))
        && (ValidDocument(doc) && !mailOk ==>
              r == SignupRejected(500, "Failed to send OTP email. Please try again.") && users == old(users))
        && (ValidDocument(doc) && mailOk ==>
              && users == old(users)[doc.email := PreSave(doc, true, hash)]
              && r == SignupCreated(CreatedProfile(doc.id, doc.name, doc.email, doc.role), SignupCookie(doc, production)))
    {
      if MissingSignupField(req) {
        return SignupRejected(400, "All fields are required");
      }
      var key := NormalizeEmail(req.email);
      if key in users {
        return SignupRejected(400, "Email already exists");
      }
      var doc := SignupDocument(req, nextId, now, n);
      // save(): validation first, then the pre-save hook hashes the new password
      if !ValidDocument(doc) {
        return SignupRejected(500, "\U{274C} Signup failed");
      }
      var before := users;
      var saved := PreSave(doc, true, hash);
      assert saved.email == key && saved.id == nextId && OtpStateOk(saved);
      InsertKeepsInvariant(users, nextId, saved);
      users := users[key := saved];
      nextId := nextId + 1;
      if !mailOk {
        // compensating delete of the document just inserted
        RemoveInserted(before, key, saved);
        users := users - {key};
        return SignupRejected(500, "Failed to send OTP email. Please try again.");
      }
      r := SignupCreated(CreatedProfile(doc.id, doc.name, doc.email, doc.role), SignupCookie(doc, production));
    }

    /** POST /api/verify-otp */
    method VerifyOtp(email: string, code: string, now: int) returns (r: VerifyResponse)
      requires Valid()
      modifies this
      ensures Valid() && nextId == old(nextId)
      ensures email == "" || code == "" ==>
        r == VerifyRejected(400, "Email and OTP are required") && users == old(users)
      ensures email != "" && code != "" && NormalizeEmail(email) !in old(users) ==>
        r == VerifyRejected(404, "User not found") && users == old(users)
      ensures email != "" && code != "" && NormalizeEmail(email) in old(users) ==>
        var u := old(users)[NormalizeEmail(email)];
        match CheckOtp(u, code, now)
        case WrongCode => r == VerifyRejected(400, "Invalid OTP") && users == old(users)
        case CodeExpired => r == VerifyRejected(400, "OTP has expired") && users == old(users)
        case CodeAccepted =>
          && users == old(users)[NormalizeEmail(email) := MarkVerified(u)]
          && r == OtpVerified(VerifiedProfile(u.id, u.name, u.role, u.departments))
    {
      if email == "" || code == "" {
        return VerifyRejected(400, "Email and OTP are required");
      }
      var key := NormalizeEmail(email);
      if key !in users {
        return VerifyRejected(404, "User not found");
      }
      var u := users[key];
      var check := CheckOtp(u, code, now);
      if check == WrongCode {
        return VerifyRejected(400, "Invalid OTP");
      }
      if check == CodeExpired {
        return VerifyRejected(400, "OTP has expired");
      }
      // saved with validation off; the password is not modified, so the hook leaves it alone
      var verified := MarkVerified(u);
      ReplaceKeepsInvariant(users, nextId, key, verified);
      users := users[key := verified];
      r := OtpVerified(VerifiedProfile(verified.id, verified.name, verified.role, verified.departments));
    }

    /**
     * POST /api/resend-otp, with the send time recorded as the cooldown check
     * expects (`Reissue`; the route as written is `ReissueAsWritten`).
     */
    method ResendOtp(email: string, now: int, n: nat, mailOk: bool) returns (r: ResendResponse)
      requires Valid() && n < CodeSpan
      modifies this
      ensures Valid() && nextId == old(nextId)
      ensures email == "" ==> r == ResendRejected(400, "Email is required") && users == old(users)
      ensures email != "" && NormalizeEmail(email) !in old(users) ==>
        r == ResendRejected(404, "User not found") && users == old(users)
      ensures email != "" && NormalizeEmail(email) in old(users) ==>
        var u := old(users)[NormalizeEmail(email)];
        && (u.isVerified ==> r == AlreadyVerified && users == old(users))
        && (!u.isVerified && CooldownActive(u.lastOtpSentAt, now) ==>
              r == ResendRejected(429, "Please wait 1 minute before requesting another OTP.") && users == old(users))
        && (!u.isVerified && !CooldownActive(u.lastOtpSentAt, now) ==>
              // the new code is saved before the mail is sent and kept when sending fails
              && users == old(users)[NormalizeEmail(email) := Reissue(u, GenerateOtp(n), now)]
              && r == (if mailOk then Resent else ResendMailFailed))
    {
      if email == "" {
        return ResendRejected(400, "Email is required");
      }
      var key := NormalizeEmail(email);
      if key !in users {
        return ResendRejected(404, "User not found");
      }
      var u := users[key];
      if u.isVerified {
        return AlreadyVerified;
      }
      if CooldownActive(u.lastOtpSentAt, now) {
        return ResendRejected(429, "Please wait 1 minute before requesting another OTP.");
      }
      var code := GenerateOtp(n);
      ReplaceKeepsInvariant(users, nextId, key, Reissue(u, code, now));
      users := users[key := Reissue(u, code, now)];
      r := if mailOk then Resent else ResendMailFailed;
    }
  }
}
