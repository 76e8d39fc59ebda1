/**
 * The registration form of screens/Auth/SignUp.js: the two password hint
 * flags, the confirm field's change handler, and the early-return sequence of
 * `handleSignup` with the alert it shows. Fields start out undefined
 * (None); pattern validation of the password field is reported by the input
 * and is a parameter here.
 */
module SignUp {
  import opened Wrappers

  const MinLength := 8

  /** A character outside the Basic Multilingual Plane takes two UTF-16 code units. */
  predicate Astral(c: char) {
    c > '\U{FFFF}'
  }

  /** JavaScript's `s.length`: the number of UTF-16 code units of `s`. */
  function JsLength(s: string): (n: nat)
    ensures |s| <= n <= 2 * |s|
  {
    if s == [] then 0 else (if Astral(s[0]) then 2 else 1) + JsLength(s[1..])
  }

  /** `s.length` agrees with the character count exactly when no character is astral. */
  lemma {:induction false} JsLengthCountsCharacters(s: string)
    ensures JsLength(s) == |s| <==> forall i :: 0 <= i < |s| ==> !Astral(s[i])
  {
    if s != [] {
      JsLengthCountsCharacters(s[1..]);
      assert forall i :: 1 <= i < |s| ==> s[i] == s[1..][i - 1];
    }
  }

  /** `Boolean(s && s.length >= 8 && !flag)`; a long string is never empty. */
  predicate LongAndFlagged(s: Option<string>, flag: bool) {
    s.Some? && JsLength(s.value) >= MinLength && !flag
  }

  /** `isValidPassword` (screens/Auth/SignUp.js:51): drives the "should have 8 characters" hint. */
  function IsValidPassword(password: Option<string>, validPassword: bool): (b: bool)
    ensures b ==> Truthy(password) && JsLength(password.value) >= MinLength
    ensures b <==> password.Some? && JsLength(password.value) >= MinLength && !validPassword
  {
    LongAndFlagged(password, validPassword)
  }

  /** `isConfirmPasswordValid` (screens/Auth/SignUp.js:52). */
  function IsConfirmPasswordValid(confirmPassword: Option<string>, validConfirmPassword: bool): (b: bool)
    ensures b ==> Truthy(confirmPassword) && JsLength(confirmPassword.value) >= MinLength
    ensures b <==> confirmPassword.Some? && JsLength(confirmPassword.value) >= MinLength && !validConfirmPassword
  {
    LongAndFlagged(confirmPassword, validConfirmPassword)
  }

  /**
   * The "should be at least 8 characters" hint under the confirm field can
   * never show: its guard already demands a length of 8.
   */
  lemma LengthHintUnsatisfiable(confirmPassword: Option<string>, validConfirmPassword: bool)
    ensures !(IsConfirmPasswordValid(confirmPassword, validConfirmPassword) && JsLength(confirmPassword.value) < MinLength)
  {
  }

  /**
   * When the password input reports the same thing as its pattern, the
   * password hint never shows either. The pattern `^.{8,}$` means "at least 8
   * code units" only for a value without line terminators (`.` does not match
   * `\n`, `\r`, U+2028 or U+2029); the requires states the report directly.
   */
  lemma PasswordHintNeedsDisagreement(password: Option<string>, validPassword: bool)
    requires password.Some? ==> validPassword == (JsLength(password.value) >= MinLength)
    ensures !IsValidPassword(password, validPassword)
  {
  }

  datatype Registration = Registration(
    firstName: string, lastName: string, email: Option<string>, password: Option<string>, username: string,
    lang: string, phone: string, country: string, client: string)

  /** What the registration request produced. */
  datatype RegisterReply =
      /** a response; `message` is `response.data.message` */
    | Responded(status: int, message: Option<string>)
      /** a thrown error carrying a response; `message` is `error.response.data.message` */
    | FailedWithResponse(message: Option<string>)
      /** a thrown error whose response has no `data`: reading its `message` throws inside the catch */
    | FailedWithoutData
      /** a thrown error without a response */
    | FailedWithoutResponse

  /** An alert: title, message, and the screen its OK button navigates to, if any. */
  datatype Alert = Alert(title: string, message: Option<string>, navigateTo: Option<string>)

  const MismatchAlert := Alert("Error", Some("Passwords do not match"), None)
  const SuccessAlert := Alert("Success", Some("Registration successful"), Some("SignIn"))
  const NetworkAlert := Alert("Network Error", Some("An error occurred during registration"), None)

  class SignUpForm {
    var firstName: string
    var lastName: string
    var username: string
    var email: Option<string>
    var password: Option<string>
    var confirmPassword: Option<string>
    var validPassword: bool
    var validConfirmPassword: bool

    /** `validConfirmPassword` always says whether the confirmation has 8 UTF-16 code units. */
    ghost predicate Valid()
      reads this
    {
      validConfirmPassword == (confirmPassword.Some? && JsLength(confirmPassword.value) >= MinLength)
    }

    constructor ()
      ensures Valid()
      ensures firstName == "" && lastName == "" && username == ""
      ensures email == None && password == None && confirmPassword == None
      ensures !validPassword && !validConfirmPassword
    {
      firstName, lastName, username := "", "", "";
      email, password, confirmPassword := None, None, None;
      validPassword, validConfirmPassword := false, false;
    }

    method OnPasswordChange(value: string)
      requires Valid()
      modifies this
      ensures Valid()
      ensures password == Some(value)
      ensures confirmPassword == old(confirmPassword) && validConfirmPassword == old(validConfirmPassword)
      ensures validPassword == old(validPassword)
    {
      password := Some(value);
    }

    method OnPasswordValidation(isValid: bool)
      requires Valid()
      modifies this
      ensures Valid()
      ensures validPassword == isValid
      ensures password == old(password) && confirmPassword == old(confirmPassword)
      ensures validConfirmPassword == old(validConfirmPassword)
    {
      validPassword := isValid;
    }

    /** The confirm field's `onChangeText` (screens/Auth/SignUp.js:285-288). */
    method OnConfirmChange(value: string)
      requires Valid()
      modifies this
      ensures Valid()
      ensures confirmPassword == Some(value) && validConfirmPassword == (JsLength(value) >= MinLength)
      ensures password == old(password) && validPassword == old(validPassword)
    {
      confirmPassword := Some(value);
      validConfirmPassword := JsLength(value) >= MinLength;
    }

    /** The "Passwords do not match" hint under the confirm field. */
    function MismatchHintShown(): (shown: bool)
      reads this
      ensures shown ==> confirmPassword.Some? && confirmPassword != password && !validConfirmPassword
    {
      IsConfirmPasswordValid(confirmPassword, validConfirmPassword) && confirmPassword != password
    }

    /** The "at least 8 characters" hint under the confirm field. */
    function LengthHintShown(): (shown: bool)
      reads this
      ensures !shown
    {
      IsConfirmPasswordValid(confirmPassword, validConfirmPassword) && JsLength(confirmPassword.value) < MinLength
    }

    /** Neither confirm-field hint can ever render: `isConfirmPasswordValid` stays false. */
    lemma ConfirmHintsNeverShown()
      requires Valid()
      ensures !IsConfirmPasswordValid(confirmPassword, validConfirmPassword)
      ensures !MismatchHintShown() && !LengthHintShown()
    {
    }

    /**
     * `handleSignup`: no request unless password and confirmation are equal
     * (two undefined fields are equal); the alert follows the reply. `alert`
     * is None when no alert appears because the catch block itself throws.
     */
    method HandleSignup(reply: RegisterReply) returns (request: Option<Registration>, alert: Option<Alert>)
      ensures request.Some? <==> password == confirmPassword
      ensures password != confirmPassword ==> alert == Some(MismatchAlert)
      ensures request.Some? ==> request.value == Registration(firstName, lastName, email, password, username,
                                                             "en", "09210900799", "PH", "mobileApp")
      // status 200 is success, with navigation to SignIn on OK
      ensures request.Some? && reply.Responded? && reply.status == 200 ==> alert == Some(SuccessAlert)
      // any other status shows the server's message
      ensures request.Some? && reply.Responded? && reply.status != 200 ==> alert == Some(Alert("Error", reply.message, None))
      // a thrown error with a response shows its message, or a fallback when that is falsy
      ensures request.Some? && reply.FailedWithResponse? ==>
                alert == Some(Alert("Error", Some(if Truthy(reply.message) then reply.message.value
                                                  else "An error occurred"), None))
      ensures request.Some? && reply.FailedWithoutResponse? ==> alert == Some(NetworkAlert)
      // a response without data makes the catch block throw: no alert at all
      ensures alert.None? <==> request.Some? && reply.FailedWithoutData?
      ensures alert.Some? && alert.value.navigateTo.Some? <==> request.Some? && reply.Responded? && reply.status == 200
    {
      if password != confirmPassword {
        return None, Some(MismatchAlert);
      }
      request := Some(Registration(firstName, lastName, email, password, username,
                                   "en", "09210900799", "PH", "mobileApp"));
      match reply
      case Responded(status, message) =>
        alert := Some(if status == 200 then SuccessAlert else Alert("Error", message, None));
      case FailedWithResponse(message) =>
        alert := Some(Alert("Error", Some(if Truthy(message) then message.value else "An error occurred"), None));
      case FailedWithoutData =>
        alert := None;
      case FailedWithoutResponse =>
        alert := Some(NetworkAlert);
    }
  }
}
