/** The two form pages that gate a session-manager call: registration and password reset. */
module Forms {
  import opened Js
  import opened Types
  import opened Api
  import opened Auth
  import Routes

  const PasswordsDiffer := "Passwords do not match!"
  const InvalidResetLink := "Invalid password reset link."

  /** The outcome of a submit gate: the call is blocked, or made with this payload. */
  datatype Gate<T> = Blocked | Submit(payload: T)

  /** The seven inputs of the registration form. */
  const RegisterFields: set<string> :=
    {"firstName", "lastName", "email", "password", "confirmPassword", "companyName", "phoneNumber"}

  /** `formData[key]`, absent as `undefined`. */
  function Field(form: map<string, string>, key: string): Option<string> {
    if key in form then Some(form[key]) else None
  }

  /** The registration form before any input: the seven fields, all empty. */
  function InitialRegisterForm(): (form: map<string, string>)
    ensures form.Keys == RegisterFields
    ensures forall k :: k in form ==> form[k] == ""
  {
    map k | k in RegisterFields :: ""
  }

  /** The registration submit gate: a password that differs from its confirmation blocks the
      call; otherwise `register` gets the whole form unchanged. */
  function RegisterGate(form: map<string, string>): (g: Gate<RegisterData>)
    ensures g.Blocked? <==> Field(form, "password") != Field(form, "confirmPassword")
    ensures g.Submit? ==> g.payload == form
  {
    if Field(form, "password") != Field(form, "confirmPassword") then Blocked else Submit(form)
  }

  /** The registration page. */
  class RegisterPage {
    var formData: map<string, string>
    var alerted: Option<string>

    constructor ()
      ensures formData == InitialRegisterForm() && alerted == None
    {
      formData := InitialRegisterForm();
      alerted := None;
    }

    /** `handleChange`: the input named `name` takes `value`; every other field keeps its value. */
    method HandleChange(name: string, value: string)
      modifies this
      ensures formData == old(formData)[name := value]
      ensures forall k :: k != name ==> Field(formData, k) == Field(old(formData), k)
      ensures alerted == old(alerted)
    {
      formData := formData[name := value];
    }

    /** `handleSubmit`: on a mismatch it alerts and the session manager is not called; on a
        match it calls `register` with the form, and a rejection is caught here. */
    method HandleSubmit(auth: Session, o: Outcome<Envelope<User>>)
      requires auth.Valid()
      modifies this, auth
      ensures auth.Valid()
      ensures formData == old(formData)
      ensures RegisterGate(formData).Blocked? ==> alerted == Some(PasswordsDiffer) && unchanged(auth)
      ensures RegisterGate(formData).Submit? ==>
                && alerted == old(alerted)
                && auth.requests == old(auth.requests) + [Request(Post, RegisterUrl, map[], RegisterBody(formData))]
                && auth.token == old(auth.token) && auth.user == old(auth.user)
                && auth.error == (if o.Ok? then None else Some(ErrorMessage(o.failure, JoinNonEmptyArray, RegistrationFailed)))
                && auth.alerted == (if o.Ok? then Some(RegistrationSucceeded) else old(auth.alerted))
                && auth.navigatedTo == (if o.Ok? then Some(Routes.LoginRoute) else old(auth.navigatedTo))
                && auth.stored == old(auth.stored) && !auth.loading
    {
      match RegisterGate(formData) {
        case Blocked =>
          alerted := Some(PasswordsDiffer);
        case Submit(data) =>
          var _ := auth.Register(data, o);
      }
    }
  }

  /** What the reset page does with its link's query parameters. */
  datatype LinkCheck = Accept(token: string, email: string) | Reject

  /** Both `token` and `email` must be present and non-empty. */
  function CheckLink(tokenQuery: Option<string>, emailQuery: Option<string>): (d: LinkCheck)
    ensures d.Accept? <==> Truthy(tokenQuery) && Truthy(emailQuery)
    ensures d.Accept? ==> d.token == tokenQuery.value && d.email == emailQuery.value
  {
    if Truthy(tokenQuery) && Truthy(emailQuery) then Accept(tokenQuery.value, emailQuery.value) else Reject
  }

  /** The reset submit gate: a new password that differs from its confirmation blocks the call;
      otherwise the payload is built from the page's current state. */
  function ResetGate(email: string, token: string, password: string, confirmPassword: string): (g: Gate<ResetPasswordData>)
    ensures g.Blocked? <==> password != confirmPassword
    ensures g.Submit? ==> g.payload == ResetPasswordData(email, token, password, confirmPassword)
    ensures g.Submit? ==> g.payload.newPassword == g.payload.confirmPassword
  {
    if password != confirmPassword then Blocked
    else Submit(ResetPasswordData(email := email, token := token, newPassword := password, confirmPassword := confirmPassword))
  }

  /** The password-reset page. */
  class ResetPasswordPage {
    var password: string
    var confirmPassword: string
    var token: string
    var email: string
    var navigatedTo: Option<string>
    var alerted: Option<string>

    constructor ()
      ensures password == "" && confirmPassword == "" && token == "" && email == ""
      ensures navigatedTo == None && alerted == None
    {
      password, confirmPassword := "", "";
      token, email := "", "";
      navigatedTo, alerted := None, None;
    }

    method SetPassword(value: string)
      modifies this
      ensures password == value
      ensures confirmPassword == old(confirmPassword) && token == old(token) && email == old(email)
      ensures navigatedTo == old(navigatedTo) && alerted == old(alerted)
    {
      password := value;
    }

    method SetConfirmPassword(value: string)
      modifies this
      ensures confirmPassword == value
      ensures password == old(password) && token == old(token) && email == old(email)
      ensures navigatedTo == old(navigatedTo) && alerted == old(alerted)
    {
      confirmPassword := value;
    }

    /** The query-parameter effect: an accepted link is copied into state; a rejected one
        alerts and navigates to the login page with the state left as it was. */
    method ReadLink(tokenQuery: Option<string>, emailQuery: Option<string>)
      modifies this
      ensures password == old(password) && confirmPassword == old(confirmPassword)
      ensures CheckLink(tokenQuery, emailQuery).Accept? ==>
                && token == tokenQuery.value && email == emailQuery.value
                && navigatedTo == old(navigatedTo) && alerted == old(alerted)
      ensures CheckLink(tokenQuery, emailQuery).Reject? ==>
                && token == old(token) && email == old(email)
                && navigatedTo == Some(Routes.LoginRoute) && alerted == Some(InvalidResetLink)
    {
      match CheckLink(tokenQuery, emailQuery) {
        case Accept(t, e) =>
          token := t;
          email := e;
        case Reject =>
          alerted := Some(InvalidResetLink);
          navigatedTo := Some(Routes.LoginRoute);
      }
    }

    /** `handleSubmit`: on a mismatch it alerts and the session manager is not called; otherwise
        it calls `resetPassword` with the payload, and a rejection is caught here. */
    method HandleSubmit(auth: Session, o: Outcome<Envelope<bool>>)
      requires auth.Valid()
      modifies this, auth
      ensures auth.Valid()
      ensures password == old(password) && confirmPassword == old(confirmPassword)
      ensures token == old(token) && email == old(email) && navigatedTo == old(navigatedTo)
      ensures password != confirmPassword ==> alerted == Some(PasswordsDiffer) && unchanged(auth)
      ensures password == confirmPassword ==>
                && alerted == old(alerted)
                && auth.requests == old(auth.requests) +
                     [ResetPasswordRequest(ResetPasswordData(email, token, password, confirmPassword), old(auth.stored))]
                && auth.token == old(auth.token) && auth.user == old(auth.user)
                && auth.error == (if o.Ok? then None else Some(ErrorMessage(o.failure, JoinAnyArray, ResetFailed)))
                && auth.alerted == (if o.Ok? then Some(ResetSucceeded) else old(auth.alerted))
                && auth.navigatedTo == (if o.Ok? then Some(Routes.LoginRoute) else old(auth.navigatedTo))
                && auth.stored == old(auth.stored) && !auth.loading
    {
      match ResetGate(email, token, password, confirmPassword) {
        case Blocked =>
          alerted := Some(PasswordsDiffer);
        case Submit(data) =>
          var _ := auth.ResetPassword(data, o);
      }
    }
  }
}
