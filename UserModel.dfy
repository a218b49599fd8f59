/**
 * The user document (src/models/User.js): its fields, the schema's setters,
 * defaults and validators, the pre-save password hook and `comparePassword`.
 *
 * bcrypt is not modelled: `hash` stands for salting and hashing a plain
 * password and `matches(plain, stored)` for `bcrypt.compare`.
 * `departments` and `lastOtpSentAt` are read and written by the routes but are
 * not declared in the schema; here they are optional fields like the others.
 * Timestamps are integer milliseconds.
 */
module UserModel {
  import opened Wrappers
  import opened Text

  type UserId = nat

  datatype User = User(
    id: UserId,
    name: string,
    email: string,
    role: string,
    password: string,
    otp: Option<string>,
    otpExpires: Option<int>,
    isVerified: bool,
    resetPasswordToken: Option<string>,
    resetPasswordExpires: Option<int>,
    departments: Option<seq<string>>,
    lastOtpSentAt: Option<int>)

  // ------------------------------------------------------------------ setters

  /**
   * The `lowercase` and `trim` setters of the email path, in that order
   * (`NormalizeEmailTrimsLowered` pins the result down).
   */
  function NormalizeEmail(email: string): (r: string)
    ensures r == "" <==> forall k :: 0 <= k < |email| ==> IsSpace(LowerChar(email[k]))
    ensures forall k :: 0 <= k < |r| ==> !('A' <= r[k] <= 'Z')
    ensures r != "" ==> !IsSpace(r[0]) && !IsSpace(r[|r| - 1])
    ensures |r| <= |email|
  {
    TrimmedLowerHasNoUpper(email);
    Trim(Lower(email))
  }

  /** Trimming keeps a slice of the lower-cased input, so no upper-case letter. */
  lemma TrimmedLowerHasNoUpper(email: string)
    ensures forall k :: 0 <= k < |Trim(Lower(email))| ==> !('A' <= Trim(Lower(email))[k] <= 'Z')
  {
    var lowered := Lower(email);
    assert forall k :: 0 <= k < |lowered| ==> !('A' <= lowered[k] <= 'Z');
    SliceHasNoUpper(lowered, Trim(lowered));
  }

  lemma SliceHasNoUpper(s: string, r: string)
    requires forall k :: 0 <= k < |s| ==> !('A' <= s[k] <= 'Z')
    requires exists i, j :: 0 <= i <= j <= |s| && r == s[i..j]
    ensures forall k :: 0 <= k < |r| ==> !('A' <= r[k] <= 'Z')
  {
    var i, j :| 0 <= i <= j <= |s| && r == s[i..j];
    forall k | 0 <= k < |r| ensures !('A' <= r[k] <= 'Z') {
      assert r[k] == s[i + k];
    }
  }


  /**
   * The stored email is the lower-cased input with the whitespace around it
   * cut off: any slice of `Lower(email)` with only whitespace before and after
   * it and none at its ends is the stored email.
   */
  lemma NormalizeEmailTrimsLowered(email: string, i: int, j: int)
    requires 0 <= i <= j <= |email|
    requires forall k :: 0 <= k < i ==> IsSpace(Lower(email)[k])
    requires forall k :: j <= k < |email| ==> IsSpace(Lower(email)[k])
    requires i < j ==> !IsSpace(Lower(email)[i]) && !IsSpace(Lower(email)[j - 1])
    ensures NormalizeEmail(email) == Lower(email)[i..j]
  {
    TrimmedSliceUnique(Lower(email), i, j);
  }

  /** Normalising twice changes nothing, so a stored email finds itself. */
  lemma NormalizeEmailIdempotent(email: string)
    ensures NormalizeEmail(NormalizeEmail(email)) == NormalizeEmail(email)
  {
    var t := NormalizeEmail(email);
    assert Lower(t) == t;
    TrimIdempotent(Lower(email));
  }

  // --------------------------------------------------------------- validators

  predicate ValidRole(role: string) {
    role == "worker" || role == "leader"
  }

  /** JavaScript's LineTerminator characters, which `.` in a regular expression does not match. */
  predicate IsLineTerminator(c: char) {
    c == '\n' || c == '\r' || c == '\U{2028}' || c == '\U{2029}'
  }

  /** The text before the first line terminator. */
  function FirstLine(s: string): (r: string)
    ensures StartsWith(s, r)
    ensures forall k :: 0 <= k < |r| ==> !IsLineTerminator(r[k])
    ensures |r| < |s| ==> IsLineTerminator(s[|r|])
  {
    if s == [] || IsLineTerminator(s[0]) then [] else [s[0]] + FirstLine(s[1..])
  }

  predicate HasLower(s: string) { exists k :: 0 <= k < |s| && 'a' <= s[k] <= 'z' }
  predicate HasUpper(s: string) { exists k :: 0 <= k < |s| && 'A' <= s[k] <= 'Z' }
  predicate HasDigit(s: string) { exists k :: 0 <= k < |s| && IsDigit(s[k]) }
  predicate HasSpecial(s: string) { exists k :: 0 <= k < |s| && s[k] in "@$!%*?&" }

  /**
   * The password validator `/^(?=.*[a-z])(?=.*[A-Z])(?=.*\d)(?=.*[@$!%*?&])/`:
   * every lookahead starts at position 0 and `.` stops at a line terminator,
   * so each required character must occur in the first line.
   */
  predicate PasswordPattern(p: string) {
    var line := FirstLine(p);
    HasLower(line) && HasUpper(line) && HasDigit(line) && HasSpecial(line)
  }

  /** `minlength: 8`, `maxlength: 12` and the pattern validator. */
  predicate PasswordPolicy(p: string) {
    8 <= |p| <= 12 && PasswordPattern(p)
  }

  /**
   * Validation run by `save()`: the required paths must be non-empty strings
   * (after the setters), the role must be in the enum, the password must pass
   * its validators.
   */
  predicate ValidDocument(u: User) {
    u.name != "" && u.email != "" && ValidRole(u.role) && u.password != "" && PasswordPolicy(u.password)
  }

  lemma {:induction false} FirstLineOfSingleLine(s: string)
    requires forall k :: 0 <= k < |s| ==> !IsLineTerminator(s[k])
    ensures FirstLine(s) == s
  {
    if s != [] {
      FirstLineOfSingleLine(s[1..]);
    }
  }

  /**
   * A password the validators accept contains a lower-case letter, an
   * upper-case letter, a digit and a special character.
   */
  lemma PasswordPolicyNeedsEveryClass(p: string)
    requires PasswordPolicy(p)
    ensures HasLower(p) && HasUpper(p) && HasDigit(p) && HasSpecial(p)
  {
    var line := FirstLine(p);
    assert p[..|line|] == line;
    var a :| 0 <= a < |line| && 'a' <= line[a] <= 'z';
    assert p[a] == line[a];
    var b :| 0 <= b < |line| && 'A' <= line[b] <= 'Z';
    assert p[b] == line[b];
    var c :| 0 <= c < |line| && IsDigit(line[c]);
    assert p[c] == line[c];
    var d :| 0 <= d < |line| && line[d] in "@$!%*?&";
    assert p[d] == line[d];
  }

  /**
   * For a password without line breaks the validators say exactly what their
   * message says: 8 to 12 characters with all four character classes.
   */
  lemma PasswordPolicyOnSingleLine(p: string)
    requires forall k :: 0 <= k < |p| ==> !IsLineTerminator(p[k])
    ensures PasswordPolicy(p) <==> 8 <= |p| <= 12 && HasLower(p) && HasUpper(p) && HasDigit(p) && HasSpecial(p)
  {
    FirstLineOfSingleLine(p);
  }

  /** The password of the end-to-end signup scenario satisfies the policy. */
  lemma ScenarioPasswordAccepted()
    ensures PasswordPolicy("Abc12345!")
  {
    var p := "Abc12345!";
    forall k | 0 <= k < |p| ensures !IsLineTerminator(p[k]) {
      assert p[k] in "Abc12345!";
    }
    FirstLineOfSingleLine(p);
    assert HasLower(p) by { assert 'a' <= p[1] <= 'z'; }
    assert HasUpper(p) by { assert 'A' <= p[0] <= 'Z'; }
    assert HasDigit(p) by { assert IsDigit(p[3]); }
    assert HasSpecial(p) by { assert p[8] in "@$!%*?&"; }
  }

  /**
   * All four character classes are present, but the uppercase letter, the
   * digits and the special character come after a line break, where the
   * lookaheads cannot reach: the validator rejects the password.
   */
  lemma ClassesAfterLineBreakRejected()
    ensures !PasswordPolicy("ab\nC1234!")
  {
    var p := "ab\nC1234!";
    assert FirstLine(p) == "ab" by {
      assert IsLineTerminator(p[2]);
      assert FirstLine(p[2..]) == [];
    }
    assert !HasUpper("ab");
  }

  // ----------------------------------------------------------- construction

  /**
   * `new User({ name, email, password, role, otp, otpExpires, isVerified: false })`:
   * the setters trim the name and lower-case and trim the email; every field the
   * caller leaves out takes its schema default (`null`, `false`), and the two
   * undeclared fields are absent.
   */
  function NewUserDocument(id: UserId, name: string, email: string, password: string, role: string,
                           otp: string, otpExpires: int): (u: User)
    ensures u.id == id && u.role == role && u.password == password
    ensures u.name == Trim(name) && u.email == NormalizeEmail(email)
    ensures u.otp == Some(otp) && u.otpExpires == Some(otpExpires) && !u.isVerified
    ensures u.resetPasswordToken == None && u.resetPasswordExpires == None
    ensures u.departments == None && u.lastOtpSentAt == None
  {
    User(id, Trim(name), NormalizeEmail(email), role, password, Some(otp), Some(otpExpires), false,
         None, None, None, None)
  }

  /** The schema defaults of a document created with none of the optional fields. */
  function DefaultDocument(id: UserId, name: string, email: string, password: string, role: string): (u: User)
    ensures u.otp == None && u.otpExpires == None && !u.isVerified
    ensures u.resetPasswordToken == None && u.resetPasswordExpires == None
  {
    User(id, Trim(name), NormalizeEmail(email), role, password, None, None, false, None, None, None, None)
  }

  /** The document signup creates is the schema defaults with a code and its expiry set. */
  lemma NewUserDocumentIsDefaultWithOtp(id: UserId, name: string, email: string, password: string, role: string,
                                        otp: string, otpExpires: int)
    ensures NewUserDocument(id, name, email, password, role, otp, otpExpires)
         == DefaultDocument(id, name, email, password, role).(otp := Some(otp), otpExpires := Some(otpExpires))
  {
  }

  // ------------------------------------------------------------ save hooks

  /**
   * The pre-save hook: the password is replaced by its hash when (and only
   * when) the password path was modified; no other field is touched.
   */
  function PreSave(u: User, passwordModified: bool, hash: string -> string): (r: User)
    ensures passwordModified ==> r.password == hash(u.password)
    ensures !passwordModified ==> r == u
    ensures r.(password := u.password) == u
  {
    if passwordModified then u.(password := hash(u.password)) else u
  }

  /** `user.comparePassword(entered)`: bcrypt's comparison against the stored hash. */
  function ComparePassword(u: User, entered: string, matches: (string, string) -> bool): (ok: bool)
    ensures ok <==> matches(entered, u.password)
  {
    matches(entered, u.password)
  }

  /** A hash/compare pair in which every password matches its own hash (bcrypt's promise). */
  ghost predicate SoundHashing(hash: string -> string, matches: (string, string) -> bool) {
    forall p :: matches(p, hash(p))
  }

  /** After the hook has hashed a new password, `comparePassword` accepts that same password. */
  lemma HashedPasswordCompares(u: User, hash: string -> string, matches: (string, string) -> bool)
    requires SoundHashing(hash, matches)
    ensures ComparePassword(PreSave(u, true, hash), u.password, matches)
  {
  }
}
