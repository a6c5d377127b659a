/** The session manager: the token, the signed-in user, the in-flight flag and the last
    error, with the operations that change them and the persisted `'token'` entry. */
module Auth {
  import opened Js
  import opened Types
  import opened Api
  import Routes

  const UnexpectedError := "An unexpected error occurred."
  const LoginFailed := "Login failed."
  const RequestFailed := "Request failed."
  const ResetFailed := "Password reset failed."
  const RegistrationFailed := "Registration failed."

  const ForgotPasswordSent := "If an account with that email exists, a password reset link has been sent."
  const ResetSucceeded := "Your password has been reset successfully! Please log in."
  const RegistrationSucceeded := "Registration successful! Please log in."

  /** The login, register and "who am I" calls spell out the full address and go to it
      directly, not through `apiClient`. */
  const LoginUrl := ApiUrl + LoginPath
  const RegisterUrl := ApiUrl + RegisterPath
  const MeUrl := ApiUrl + MePath

  /** How a handler treats the `errors` of a received error response. */
  datatype ErrorsRule =
    | IgnoreErrors        // login, forgot password: only `message` is read
    | JoinAnyArray        // reset password: any array, even an empty one
    | JoinNonEmptyArray   // register: an array with at least one entry

  predicate JoinsErrors(rule: ErrorsRule, errors: Option<seq<string>>) {
    match rule
    case IgnoreErrors => false
    case JoinAnyArray => errors.Some?
    case JoinNonEmptyArray => errors.Some? && |errors.value| > 0
  }

  /** The error string a handler stores for a failure: the joined `errors` when its rule takes
      them, else `message || fallback`; without a response, the fixed unexpected-error text. */
  function ErrorMessage(f: Failure, rule: ErrorsRule, fallback: string): (r: string)
    ensures f.NoResponse? ==> r == UnexpectedError
    ensures f.ErrorResponse? && !JoinsErrors(rule, f.errors) ==>
              (f.message != "" && r == f.message) || (f.message == "" && r == fallback)
    ensures f.ErrorResponse? && JoinsErrors(rule, f.errors) && f.errors.value != [] ==>
              |r| == TotalLength(f.errors.value) + |f.errors.value| - 1
    ensures r == "" && fallback != "" ==> f.ErrorResponse? && JoinsErrors(rule, f.errors)
  {
    match f
    case NoResponse => UnexpectedError
    case ErrorResponse(message, errors) =>
      if JoinsErrors(rule, errors) then
        if errors.value != [] then JoinSpaceLength(errors.value); Join(errors.value, " ")
        else Join(errors.value, " ")
      else Or(message, fallback)
  }

  /** Login and forgot password: the message when it is non-empty, else the operation's
      fallback; no response gives the unexpected-error text. The result is never empty. */
  lemma MessageOnlyErrorText(f: Failure, fallback: string)
    requires fallback != ""
    ensures f.NoResponse? ==> ErrorMessage(f, IgnoreErrors, fallback) == UnexpectedError
    ensures f.ErrorResponse? && f.message != "" ==> ErrorMessage(f, IgnoreErrors, fallback) == f.message
    ensures f.ErrorResponse? && f.message == "" ==> ErrorMessage(f, IgnoreErrors, fallback) == fallback
    ensures ErrorMessage(f, IgnoreErrors, fallback) != ""
  {
  }

  /** Register: a non-empty `errors` array wins, joined by single spaces; an empty or missing
      one falls back to `message || 'Registration failed.'`. */
  lemma RegisterErrorText(f: Failure)
    ensures f.ErrorResponse? && f.errors.Some? && |f.errors.value| > 0 ==>
              ErrorMessage(f, JoinNonEmptyArray, RegistrationFailed) == Join(f.errors.value, " ")
    ensures f.ErrorResponse? && (f.errors == None || f.errors == Some([])) ==>
              ErrorMessage(f, JoinNonEmptyArray, RegistrationFailed) == Or(f.message, RegistrationFailed)
    ensures f.NoResponse? ==> ErrorMessage(f, JoinNonEmptyArray, RegistrationFailed) == UnexpectedError
  {
  }

  /** The register error text is empty, so the form shows nothing, exactly when the server
      sent the single-entry array `[""]`. */
  lemma RegisterErrorEmptyIff(f: Failure)
    ensures ErrorMessage(f, JoinNonEmptyArray, RegistrationFailed) == "" <==>
              f.ErrorResponse? && f.errors == Some([""])
  {
    if f.ErrorResponse? && f.errors.Some? {
      JoinSpaceEmptyIff(f.errors.value);
    }
  }

  /** Reset password joins `errors` whenever it is an array: an empty array gives "". */
  lemma ResetErrorEmptyIff(f: Failure)
    ensures ErrorMessage(f, JoinAnyArray, ResetFailed) == "" <==>
              f.ErrorResponse? && (f.errors == Some([]) || f.errors == Some([""]))
    ensures f.ErrorResponse? && f.errors == None ==>
              ErrorMessage(f, JoinAnyArray, ResetFailed) == Or(f.message, ResetFailed)
  {
    if f.ErrorResponse? && f.errors.Some? {
      JoinSpaceEmptyIff(f.errors.value);
    }
  }

  /** The unexpected-error text is what a missing response gives under every rule and fallback. */
  lemma NoResponseIsUnexpected(rule: ErrorsRule, fallback: string)
    ensures ErrorMessage(NoResponse, rule, fallback) == UnexpectedError
  {
  }

  /** The user the "who am I" lookup builds: `id` is the response's `userId`; phone number
      and roles are left unset. */
  function UserFromMe(me: Me): (u: User)
    ensures u.id == me.userId && u.firstName == me.firstName && u.lastName == me.lastName
    ensures u.email == me.email && u.talentId == me.talentId && u.talentName == me.talentName
    ensures u.phoneNumber == None && u.roles == None
  {
    User(me.userId, me.firstName, me.lastName, me.email, None, None, me.talentId, me.talentName)
  }

  /** The session state of the provider, one instance per application. */
  class Session {
    var token: Option<string>
    var user: Option<User>
    var loading: bool
    var error: Option<string>
    /** The browser's persisted `'token'` entry. */
    var stored: Option<string>
    /** The last `navigate(...)` target and the last `alert(...)` text. */
    var navigatedTo: Option<string>
    var alerted: Option<string>
    /** Every request the session manager has sent, oldest first. */
    var requests: seq<Request>

    /** Between operations: the state token is the persisted one, a user is only held with a
        token, and nothing is in flight. */
    ghost predicate Valid()
      reads this
    {
      token == stored && (user.Some? ==> token.Some?) && !loading
    }

    /** Start-up: the token is read from storage and no user is known yet. */
    constructor (persisted: Option<string>)
      ensures Valid()
      ensures token == persisted && stored == persisted && user == None
      ensures !loading && error == None && navigatedTo == None && alerted == None && requests == []
    {
      token := persisted;
      stored := persisted;
      loading := false;
      error := None;
      user := None;
      navigatedTo := None;
      alerted := None;
      requests := [];
    }

    /** `login`: on success the new token goes to storage and state and the user to state;
        on failure nothing but `error` changes and the failure is rethrown. */
    method Login(data: LoginData, o: Outcome<Envelope<AuthResponse>>) returns (c: Completion)
      requires Valid()
      modifies this
      ensures Valid()
      ensures requests == old(requests) + [Request(Post, LoginUrl, map[], LoginBody(data))]
      ensures c == (if o.Ok? then Resolved else Rejected(o.failure))
      ensures o.Ok? ==> && token == Some(o.payload.data.token) && stored == token
                        && user == Some(o.payload.data.user) && error == None
                        && navigatedTo == Some(Routes.DashboardRoute)
      ensures o.Fail? ==> && token == old(token) && stored == old(stored) && user == old(user)
                          && navigatedTo == old(navigatedTo)
                          && error == Some(ErrorMessage(o.failure, IgnoreErrors, LoginFailed))
      ensures alerted == old(alerted)
    {
      loading := true;
      error := None;
      requests := requests + [Request(Post, LoginUrl, map[], LoginBody(data))];
      match o {
        case Ok(response) =>
          var newToken := response.data.token;
          stored := Some(newToken);
          user := Some(response.data.user);
          token := Some(newToken);
          navigatedTo := Some(Routes.DashboardRoute);
          c := Resolved;
        case Fail(f) =>
          error := Some(ErrorMessage(f, IgnoreErrors, LoginFailed));
          c := Rejected(f);
      }
      loading := false;
    }

    /** `forgotPassword`: sent through `apiClient`; success alerts and goes to the login page. */
    method ForgotPassword(email: string, o: Outcome<Envelope<bool>>) returns (c: Completion)
      requires Valid()
      modifies this
      ensures Valid()
      ensures requests == old(requests) + [ForgotPasswordRequest(email, old(stored))]
      ensures token == old(token) && stored == old(stored) && user == old(user)
      ensures c == (if o.Ok? then Resolved else Rejected(o.failure))
      ensures o.Ok? ==> && error == None && alerted == Some(ForgotPasswordSent)
                        && navigatedTo == Some(Routes.LoginRoute)
      ensures o.Fail? ==> && error == Some(ErrorMessage(o.failure, IgnoreErrors, RequestFailed))
                          && alerted == old(alerted) && navigatedTo == old(navigatedTo)
    {
      loading := true;
      error := None;
      requests := requests + [ForgotPasswordRequest(email, stored)];
      match o {
        case Ok(_) =>
          alerted := Some(ForgotPasswordSent);
          navigatedTo := Some(Routes.LoginRoute);
          c := Resolved;
        case Fail(f) =>
          error := Some(ErrorMessage(f, IgnoreErrors, RequestFailed));
          c := Rejected(f);
      }
      loading := false;
    }

    /** `resetPassword`: sent through `apiClient`; success alerts and goes to the login page. */
    method ResetPassword(data: ResetPasswordData, o: Outcome<Envelope<bool>>) returns (c: Completion)
      requires Valid()
      modifies this
      ensures Valid()
      ensures requests == old(requests) + [ResetPasswordRequest(data, old(stored))]
      ensures token == old(token) && stored == old(stored) && user == old(user)
      ensures c == (if o.Ok? then Resolved else Rejected(o.failure))
      ensures o.Ok? ==> && error == None && alerted == Some(ResetSucceeded)
                        && navigatedTo == Some(Routes.LoginRoute)
      ensures o.Fail? ==> && error == Some(ErrorMessage(o.failure, JoinAnyArray, ResetFailed))
                          && alerted == old(alerted) && navigatedTo == old(navigatedTo)
    {
      loading := true;
      error := None;
      requests := requests + [ResetPasswordRequest(data, stored)];
      match o {
        case Ok(_) =>
          alerted := Some(ResetSucceeded);
          navigatedTo := Some(Routes.LoginRoute);
          c := Resolved;
        case Fail(f) =>
          error := Some(ErrorMessage(f, JoinAnyArray, ResetFailed));
          c := Rejected(f);
      }
      loading := false;
    }

    /** `register`: success alerts and goes to the login page without signing in. */
    method Register(data: RegisterData, o: Outcome<Envelope<User>>) returns (c: Completion)
      requires Valid()
      modifies this
      ensures Valid()
      ensures requests == old(requests) + [Request(Post, RegisterUrl, map[], RegisterBody(data))]
      ensures token == old(token) && stored == old(stored) && user == old(user)
      ensures c == (if o.Ok? then Resolved else Rejected(o.failure))
      ensures o.Ok? ==> && error == None && alerted == Some(RegistrationSucceeded)
                        && navigatedTo == Some(Routes.LoginRoute)
      ensures o.Fail? ==> && error == Some(ErrorMessage(o.failure, JoinNonEmptyArray, RegistrationFailed))
                          && alerted == old(alerted) && navigatedTo == old(navigatedTo)
    {
      loading := true;
      error := None;
      requests := requests + [Request(Post, RegisterUrl, map[], RegisterBody(data))];
      match o {
        case Ok(_) =>
          alerted := Some(RegistrationSucceeded);
          navigatedTo := Some(Routes.LoginRoute);
          c := Resolved;
        case Fail(f) =>
          error := Some(ErrorMessage(f, JoinNonEmptyArray, RegistrationFailed));
          c := Rejected(f);
      }
      loading := false;
    }

    /** `logout`: the stored entry is removed, user and token are cleared. */
    method Logout()
      requires Valid()
      modifies this
      ensures Valid()
      ensures stored == None && token == None && user == None
      ensures navigatedTo == Some(Routes.LoginRoute)
      ensures loading == old(loading) && error == old(error) && alerted == old(alerted)
      ensures requests == old(requests)
    {
      stored := None;
      user := None;
      token := None;
      navigatedTo := Some(Routes.LoginRoute);
    }

    /** The effect that runs when `token` changes: with a truthy token it asks `/Auth/me`
        with that token and stores the user, or logs out when the lookup fails; with a falsy
        token it does nothing. */
    method FetchUser(o: Outcome<Me>)
      requires Valid()
      modifies this
      ensures Valid()
      ensures !Truthy(old(token)) ==> unchanged(this)
      ensures Truthy(old(token)) ==>
                requests == old(requests) + [Request(Get, MeUrl, map[Authorization := Bearer(old(token).value)], NoBody)]
      ensures Truthy(old(token)) && o.Ok? ==>
                && user == Some(UserFromMe(o.payload)) && token == old(token) && stored == old(stored)
                && navigatedTo == old(navigatedTo)
      ensures Truthy(old(token)) && o.Fail? ==>
                && token == None && stored == None && user == None && navigatedTo == Some(Routes.LoginRoute)
      ensures error == old(error) && loading == old(loading) && alerted == old(alerted)
    {
      if Truthy(token) {
        requests := requests + [Request(Get, MeUrl, map[Authorization := Bearer(token.value)], NoBody)];
        match o {
          case Ok(me) =>
            user := Some(UserFromMe(me));
          case Fail(_) =>
            Logout();
        }
      }
    }
  }

  /** Logging out twice leaves the session exactly as one logout does. */
  method LogoutIsIdempotent(s: Session)
    requires s.Valid()
    modifies s
    ensures s.Valid()
    ensures s.stored == None && s.token == None && s.user == None
    ensures s.navigatedTo == Some(Routes.LoginRoute)
    ensures s.loading == old(s.loading) && s.error == old(s.error) && s.alerted == old(s.alerted)
    ensures s.requests == old(s.requests)
  {
    s.Logout();
    s.Logout();
  }

  /** After a logout, none of the requests the session manager can send next carries an
      `Authorization` header, and the "who am I" lookup is not made at all. */
  method NoAuthorizationAfterLogout(s: Session, email: string, forgot: Outcome<Envelope<bool>>,
                                    reset: ResetPasswordData, resetOutcome: Outcome<Envelope<bool>>,
                                    me: Outcome<Me>)
    returns (before: nat)
    requires s.Valid()
    modifies s
    ensures s.Valid() && s.token == None && s.stored == None
    ensures before == |old(s.requests)| && |s.requests| == before + 2
    ensures forall i :: before <= i < |s.requests| ==> Authorization !in s.requests[i].headers
  {
    s.Logout();
    before := |s.requests|;
    var _ := s.ForgotPassword(email, forgot);
    var _ := s.ResetPassword(reset, resetOutcome);
    s.FetchUser(me);
  }

  /** A failed sign-in with `{success: false, message: "Invalid credentials"}` stores that
      message and leaves an anonymous session anonymous. */
  method InvalidCredentialsScenario(s: Session, errors: Option<seq<string>>)
    requires s.Valid() && s.token == None
    modifies s
    ensures s.Valid() && s.token == None && s.stored == None
    ensures s.error == Some("Invalid credentials")
  {
    var c := s.Login(LoginData("user@x.com", Some("wrong")), Fail(ErrorResponse("Invalid credentials", errors)));
    assert c.Rejected?;
  }

  /** A stale token rejected by `/Auth/me` ends anonymous with storage cleared. */
  method StaleTokenScenario(s: Session, failure: Failure)
    requires s.Valid() && Truthy(s.token)
    modifies s
    ensures s.Valid() && s.token == None && s.stored == None && s.user == None
    ensures s.navigatedTo == Some(Routes.LoginRoute)
  {
    s.FetchUser(Fail(failure));
  }
}
