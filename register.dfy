/**
 * The registration page: its form state, the checks before the request
 * (required fields, then the email expression) and what success and failure
 * leave behind. The request's outcome is a parameter.
 */
module Register {
  import Email

  const RequiredError: string := "Please fill out all required fields."
  const InvalidEmailError: string := "Please enter a valid email address."
  const RegisterError: string := "Failed to register. Please try again."

  /** How far a submission gets before the request: the first failing check, or `Send`. */
  datatype Precheck = MissingFields | InvalidEmail | Send

  /**
   * The two checks of `handleSubmit`, in order: all three fields present,
   * then the email expression, which is only consulted once they are.
   */
  function RegisterPrecheck(username: string, email: string, password: string): (p: Precheck)
    ensures p == MissingFields <==> username == "" || email == "" || password == ""
    ensures p == InvalidEmail <==> username != "" && email != "" && password != "" && !Email.EmailShape(email)
    ensures p == Send <==> username != "" && password != "" && Email.EmailShape(email)
  {
    Email.ValidEmailIffShape(email);
    if username == "" || email == "" || password == "" then MissingFields
    else if !Email.IsValidEmail(email) then InvalidEmail
    else Send
  }

  /** The page's React state. */
  class RegisterForm {
    var username: string
    var email: string
    var password: string
    var error: string
    var isSubmitting: bool

    constructor ()
      ensures username == "" && email == "" && password == "" && error == "" && !isSubmitting
    {
      username := "";
      email := "";
      password := "";
      error := "";
      isSubmitting := false;
    }

    /**
     * `handleSubmit`, with `registered` the request's outcome. It answers
     * whether the request was sent; every exit leaves `isSubmitting` false.
     */
    method HandleSubmit(registered: bool) returns (sent: bool)
      modifies this
      ensures !isSubmitting
      ensures var p := RegisterPrecheck(old(username), old(email), old(password));
        && (sent <==> p == Send)
        && (p == MissingFields ==> error == RequiredError)
        && (p == InvalidEmail ==> error == InvalidEmailError)
      ensures sent && registered ==> username == "" && email == "" && password == "" && error == ""
      ensures sent && !registered ==> error == RegisterError
      ensures !sent || !registered ==> username == old(username) && email == old(email) && password == old(password)
    {
      error := "";
      isSubmitting := true;
      if username == "" || email == "" || password == "" {
        error := RequiredError;
        isSubmitting := false;
        return false;
      }
      Email.ValidEmailIffShape(email);
      if !Email.IsValidEmail(email) {
        error := InvalidEmailError;
        isSubmitting := false;
        return false;
      }
      sent := true;
      if registered {
        error := "";
        username := "";
        email := "";
        password := "";
      } else {
        error := RegisterError;
      }
      isSubmitting := false;
    }

    /** `handleInputChange`: only the field named `name` takes `value`; any other name changes nothing. */
    method HandleInputChange(name: string, value: string)
      modifies this
      ensures username == (if name == "username" then value else old(username))
      ensures email == (if name == "email" then value else old(email))
      ensures password == (if name == "password" then value else old(password))
      ensures error == old(error) && isSubmitting == old(isSubmitting)
    {
      if name == "username" {
        username := value;
      }
      if name == "email" {
        email := value;
      }
      if name == "password" {
        password := value;
      }
    }
  }
}
