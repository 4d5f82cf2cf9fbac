/** The sign-up page: its form state, the client-side check that runs before
    anything is sent, the request body it sends, and what the page shows once
    the server has answered. */
module RegisterForm {
  import opened Wrappers
  import opened Models
  import Text
  import AuthRoutes

  datatype Form = Form(
    name: string,
    username: string,
    email: string,
    password: string,
    confirmPassword: string,
    defaultPincode: string)

  const EmptyForm := Form("", "", "", "", "", "")

  /** The page state: the form, the error banner and the success banner
      (the empty string shows nothing). */
  datatype Page = Page(form: Form, error: string, success: string)

  /** `validateForm`: the first failing check's message, or `None` when the
      form may be sent. */
  function Validate(f: Form): (error: Option<string>)
    ensures error.None? <==>
      && Text.Trim(f.name) != ""
      && Text.Trim(f.username) != ""
      && '@' in f.email
      && |f.password| >= 4
      && f.password == f.confirmPassword
    ensures Text.Trim(f.name) == "" ==> error == Some("Name is required")
    ensures Text.Trim(f.name) != "" && Text.Trim(f.username) == "" ==> error == Some("Username is required")
    ensures Text.Trim(f.name) != "" && Text.Trim(f.username) != "" && '@' !in f.email ==>
      error == Some("Valid email is required")
    ensures Text.Trim(f.name) != "" && Text.Trim(f.username) != "" && '@' in f.email && |f.password| < 4 ==>
      error == Some("Password must be at least 4 characters")
    ensures (Text.Trim(f.name) != "" && Text.Trim(f.username) != "" && '@' in f.email && |f.password| >= 4
             && f.password != f.confirmPassword) ==> error == Some("Passwords do not match")
  {
    if Text.Trim(f.name) == "" then Some("Name is required")
    else if Text.Trim(f.username) == "" then Some("Username is required")
    else if '@' !in f.email then Some("Valid email is required")
    else if |f.password| < 4 then Some("Password must be at least 4 characters")
    else if f.password != f.confirmPassword then Some("Passwords do not match")
    else None
  }

  /** The body `handleSubmit` sends: every field but the confirmation. */
  function Payload(f: Form): (req: AuthRoutes.RegisterRequest)
    ensures req.name == f.name && req.username == f.username && req.email == f.email
    ensures req.password == f.password && req.defaultPincode == f.defaultPincode
  {
    AuthRoutes.RegisterRequest(f.name, f.username, f.password, f.email, f.defaultPincode)
  }

  /** A form that passes the client-side check carries every field the
      account schema requires, so the server can only refuse it as a
      conflict. */
  lemma ValidFormHasRequiredFields(f: Form)
    requires Validate(f).None?
    ensures !AuthRoutes.MissingRequired(Payload(f))
  {
  }

  /** `handleSubmit`, given the reply the server would send. An invalid form
      shows its error and sends nothing; a refused request shows the server's
      message (or a fallback) and keeps the form; an accepted one shows the
      server's message and clears the form. */
  function HandleSubmit(page: Page, reply: Response<Id>): (next: Page)
    ensures Validate(page.form).Some? ==> next == page.(error := Validate(page.form).value)
    ensures Validate(page.form).None? && reply.Fail? ==>
      && next.form == page.form && next.success == page.success && next.error != ""
      && next.error == (if reply.message != "" then reply.message else "Registration failed")
    ensures Validate(page.form).None? && reply.Ok? ==>
      next.form == EmptyForm && next.success == reply.message && next.error == page.error
  {
    match Validate(page.form)
    case Some(message) => page.(error := message)
    case None =>
      if reply.Fail? then page.(error := if reply.message != "" then reply.message else "Registration failed")
      else page.(form := EmptyForm, success := reply.message)
  }
}
