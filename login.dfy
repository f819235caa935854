/**
 * The login page: its form state, the checks before the request (required
 * fields, then the email expression), the session update on success and the
 * error shown on failure. The request's outcome is a parameter.
 */
module Login {
  import opened Wrappers
  import opened Strings
  import Email
  import AuthContext

  const RequiredError: string := "Please fill out all required fields."
  const InvalidEmailError: string := "Please enter a valid email address."
  const DefaultLoginError: string := "Failed to log in. Please check your credentials."

  /** How far a submission gets before the request: the first failing check, or `Send`. */
  datatype Precheck = MissingFields | InvalidEmail | Send

  /**
   * The two checks of `handleSubmit`, in order: both fields present, then
   * the email expression, which is only consulted once both are present.
   */
  function LoginPrecheck(email: string, password: string): (p: Precheck)
    ensures p == MissingFields <==> email == "" || password == ""
    ensures p == InvalidEmail <==> email != "" && password != "" && !Email.EmailShape(email)
    ensures p == Send <==> password != "" && Email.EmailShape(email)
  {
    Email.ValidEmailIffShape(email);
    if email == "" || password == "" then MissingFields
    else if !Email.IsValidEmail(email) then InvalidEmail
    else Send
  }

  /** The message a submission stopped before the request shows. */
  function PrecheckError(p: Precheck): (e: string)
    requires p != Send
    ensures e != ""
  {
    if p == MissingFields then RequiredError else InvalidEmailError
  }

  /** The login endpoint's answer: the session to install, or an error with the server's `message` if any. */
  datatype LoginReply =
    | LoggedIn(token: string, user: string, refreshToken: Option<string>)
    | LoginFailed(message: Option<string>)

  /** `err.response?.data?.message || 'Failed to log in. ...'` */
  function LoginError(message: Option<string>): (e: string)
    ensures e != ""
    ensures Truthy(message) ==> e == message.value
    ensures !Truthy(message) ==> e == DefaultLoginError
  {
    if Truthy(message) then message.value else DefaultLoginError
  }

  /** The page's React state. */
  class LoginForm {
    var email: string
    var password: string
    var error: string
    var isSubmitting: bool

    constructor ()
      ensures email == "" && password == "" && error == "" && !isSubmitting
    {
      email := "";
      password := "";
      error := "";
      isSubmitting := false;
    }

    /**
     * `handleSubmit`, with `reply` the request's outcome and `session` the
     * provider whose `login` a success calls. It answers whether the request
     * was sent; every exit leaves `isSubmitting` false.
     */
    method HandleSubmit(reply: LoginReply, session: AuthContext.AuthProvider) returns (sent: bool)
      modifies this, session
      ensures !isSubmitting
      ensures var p := LoginPrecheck(old(email), old(password));
        && (sent <==> p == Send)
        && (!sent ==> error == PrecheckError(p))
      ensures !sent || reply.LoginFailed? ==>
        email == old(email) && password == old(password) && session.State() == old(session.State())
      ensures sent && reply.LoginFailed? ==> error == LoginError(reply.message)
      ensures sent && reply.LoggedIn? ==>
        && session.State() == AuthContext.LoggedIn(old(session.State()), reply.token, reply.user, reply.refreshToken)
        && email == "" && password == "" && error == ""
    {
      error := "";
      isSubmitting := true;
      if email == "" || password == "" {
        error := RequiredError;
        isSubmitting := false;
        return false;
      }
      Email.ValidEmailIffShape(email);
      if !Email.IsValidEmail(email) {
        error := InvalidEmailError;
        isSubmitting := false;
        return false;
      }
      sent := true;
      match reply {
        case LoggedIn(token, user, refreshToken) =>
          session.Login(token, user, refreshToken);
          email := "";
          password := "";
        case LoginFailed(message) =>
          error := LoginError(message);
      }
      isSubmitting := false;
    }

    /** `handleInputChange`: only the field named `name` takes `value`; any other name changes nothing. */
    method HandleInputChange(name: string, value: string)
      modifies this
      ensures email == (if name == "email" then value else old(email))
      ensures password == (if name == "password" then value else old(password))
      ensures error == old(error) && isSubmitting == old(isSubmitting)
    {
      if name == "email" {
        email := value;
      }
      if name == "password" {
        password := value;
      }
    }
  }
}
