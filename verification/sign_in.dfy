/**
 * The login form of screens/Auth/SignIn.js: `handleLogin` resets both error
 * fields, checks the email and the password independently, and posts the
 * credentials only when every check passed; on success the token from the
 * response goes to the auth store. Whether the email matched its pattern is
 * reported by the input field and is a parameter here.
 */
module SignIn {
  import opened Wrappers

  const EmailRequired := "Email is required"
  const InvalidEmail := "Invalid email format"
  const PasswordRequired := "Password is required"

  datatype Credentials = Credentials(email: string, password: string, client: string)

  /**
   * What the login request produced: a rejection (caught and logged), or a
   * response whose `data.data.token` is `token`; `token` is None when
   * `response.data.data` is missing, and reading through it throws (caught).
   */
  datatype LoginReply = LoginRejected | LoginResponse(token: Option<string>)

  class SignInScreen {
    var emailError: string
    var passwordError: string
    /** The token held by the auth store. */
    var token: Option<string>
    /** The login requests posted, in order. */
    var sent: seq<Credentials>

    constructor ()
      ensures emailError == "" && passwordError == "" && token == None && sent == []
    {
      emailError, passwordError := "", "";
      token, sent := None, [];
    }

    /** `handleLogin` (screens/Auth/SignIn.js:95-133). */
    method HandleLogin(email: string, password: string, validEmail: bool, reply: LoginReply)
      modifies this
      // the email check: required first, then its format
      ensures email == "" ==> emailError == EmailRequired
      ensures email != "" && !validEmail ==> emailError == InvalidEmail
      ensures email != "" && validEmail ==> emailError == ""
      // the password check does not depend on the email check
      ensures passwordError == (if password == "" then PasswordRequired else "")
      // a request goes out iff both fields are clear of errors
      ensures sent == if emailError == "" && passwordError == ""
                      then old(sent) + [Credentials(email, password, "mobileApp")]
                      else old(sent)
      // the stored token is exactly the response's data.data.token
      ensures token == if |sent| > |old(sent)| && reply.LoginResponse? && reply.token.Some?
                       then reply.token else old(token)
    {
      var isValid := true;
      emailError := "";
      passwordError := "";
      if email == "" {
        emailError := EmailRequired;
        isValid := false;
      } else if !validEmail {
        emailError := InvalidEmail;
        isValid := false;
      }
      if password == "" {
        passwordError := PasswordRequired;
        isValid := false;
      }
      if !isValid {
        return;
      }
      sent := sent + [Credentials(email, password, "mobileApp")];
      if reply.LoginResponse? && reply.token.Some? {
        token := reply.token;
      }
    }
  }
}
