/**
 * The signup form's submit handler (src/app/page.js): two client-side guards,
 * the request body, and what is kept in browser storage for the OTP page.
 */
module SignupPage {
  import opened Wrappers
  import opened Auth

  /** Browser `localStorage`: string keys to string values. */
  type Storage = map<string, string>

  const EmailKey := "emailForOTP"
  const RoleKey := "roleAfterOTP"

  datatype SignupForm = SignupForm(name: string, email: string, role: string, password: string, confirmPassword: string)

  datatype SignupAttempt =
    | Alerted(message: string)
    | Posted(body: SignupRequest)

  /**
   * `handleSubmit`: a missing role is reported first, then a password that
   * differs from its confirmation; otherwise the body carries name, email,
   * password and role, and neither the confirmation nor any departments.
   */
  function SubmitSignup(form: SignupForm): (a: SignupAttempt)
    ensures form.role == "" ==> a == Alerted("Please select a role before submitting.")
    ensures form.role != "" && form.password != form.confirmPassword ==> a == Alerted("Passwords do not match!")
    ensures a.Posted? <==> form.role != "" && form.password == form.confirmPassword
    ensures a.Posted? ==> a.body == SignupRequest(form.name, form.email, form.password, form.role, None)
  {
    if form.role == "" then Alerted("Please select a role before submitting.")
    else if form.password != form.confirmPassword then Alerted("Passwords do not match!")
    else Posted(SignupRequest(form.name, form.email, form.password, form.role, None))
  }

  /**
   * A body the page sends is refused by the route for a missing field only
   * when the name, email or password was left empty: the role is always there.
   */
  lemma PostedBodyHasRole(form: SignupForm)
    requires SubmitSignup(form).Posted?
    ensures MissingSignupField(SubmitSignup(form).body) <==>
      form.name == "" || form.email == "" || form.password == ""
  {
  }

  /**
   * Handling the route's answer: on 201 the email and role are stored for the
   * OTP page; otherwise the route's message is shown (or "Signup failed" when
   * it has none) and storage is untouched.
   */
  function AfterSignup(form: SignupForm, response: SignupResponse, storage: Storage): (r: (string, Storage))
    ensures response.SignupCreated? ==>
      && r.0 == "Signup successful! Please verify your email with OTP."
      && r.1.Keys == storage.Keys + {EmailKey, RoleKey}
      && r.1[EmailKey] == form.email && r.1[RoleKey] == form.role
      && forall k :: k in storage && k != EmailKey && k != RoleKey ==> r.1[k] == storage[k]
    ensures response.SignupRejected? ==>
      r.1 == storage && r.0 == (if response.message != "" then response.message else "Signup failed")
  {
    match response
    case SignupCreated(_, _) =>
      ("Signup successful! Please verify your email with OTP.", storage[EmailKey := form.email][RoleKey := form.role])
    case SignupRejected(_, message) =>
      (if message != "" then message else "Signup failed", storage)
  }
}
