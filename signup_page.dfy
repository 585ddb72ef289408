/**
 * The sign-up page of client/src/pages/auth/signup.tsx: its validation
 * schema and the page it opens after a successful sign-up. Zod's email
 * format check is the predicate `isEmail`.
 */
module SignupPage {
  import opened Wrappers
  import opened Routes

  datatype SignupForm = SignupForm(name: Option<string>, email: Option<string>, password: Option<string>, role: Option<string>)

  datatype Field = Name | Email | Password | Role

  /** The roles a visitor can pick; admin is not among them. */
  const SelectableRoles: seq<string> := ["donor", "ngo"]

  /**
   * `signupSchema`: the fields that fail. The name needs
   * 2 characters, the email must be well-formed, the password needs 6
   * characters, the role must be donor or ngo.
   */
  function Issues(f: SignupForm, isEmail: string -> bool): (r: set<Field>)
    ensures Name in r <==> f.name.None? || |f.name.value| < 2
    ensures Email in r <==> f.email.None? || !isEmail(f.email.value)
    ensures Password in r <==> f.password.None? || |f.password.value| < 6
    ensures Role in r <==> f.role.None? || f.role.value !in SelectableRoles
  {
    (if f.name.Some? && |f.name.value| >= 2 then {} else {Name})
    + (if f.email.Some? && isEmail(f.email.value) then {} else {Email})
    + (if f.password.Some? && |f.password.value| >= 6 then {} else {Password})
    + (if f.role.Some? && f.role.value in SelectableRoles then {} else {Role})
  }

  /** The page opened after sign-up, chosen by the role of the returned user. */
  function RedirectAfterSignup(role: Option<string>): (r: string)
    ensures r in ["/donor/dashboard", "/ngo/dashboard", "/"]
    ensures r == "/" <==> role.None? || role.value !in SelectableRoles
    ensures r == "/donor/dashboard" <==> role == Some("donor")
  {
    if role == Some("donor") then "/donor/dashboard"
    else if role == Some("ngo") then "/ngo/dashboard"
    else "/"
  }

  /**
   * A form that passes validation yields a body the server accepts, never
   * asks for the admin role, and leads to a dashboard rather than the home
   * page, since the server stores the role it was sent.
   */
  lemma ValidFormSignsUpToDashboard(f: SignupForm, isEmail: string -> bool)
    requires Issues(f, isEmail) == {}
    ensures ParseUser(SignupBody(f.name, f.email, f.password, f.role)).Some?
    ensures f.role.value != "admin"
    ensures RedirectAfterSignup(Some(ParseUser(SignupBody(f.name, f.email, f.password, f.role)).value.role)) != "/"
  {
    assert Name !in Issues(f, isEmail) && Email !in Issues(f, isEmail);
    assert Password !in Issues(f, isEmail) && Role !in Issues(f, isEmail);
  }
}
