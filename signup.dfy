/** The signup form (Signup.js): its ordered checks, the body it posts, and how
    it reads the server's answer. */
module Signup {
  import opened Common
  import opened Text

  datatype SignupForm = SignupForm(
    firstName: string,
    lastName: string,
    username: string,
    email: string,
    password: string,
    confirmPassword: string,
    contactNumber: string)

  /** The body of `POST /auth/signup`: the user's fields and the "user" role. */
  datatype SignupPayload = SignupPayload(
    firstName: string,
    lastName: string,
    username: string,
    email: string,
    password: string,
    contactNumber: string,
    role: seq<string>)

  const EmptyForm := SignupForm("", "", "", "", "", "", "")

  const FieldsRequiredMessage := "All fields are required."
  const PasswordMismatchMessage := "Passwords do not match."
  const ContactNumberMessage := "Contact number must be a 10-digit number."
  const CreatedMessage := "User created successfully"
  const SignupSucceededMessage := "Signup successful! Please login."
  const InvalidResponseMessage := "Signup failed: Invalid response from server."
  const UnexpectedErrorMessage := "An unexpected error occurred during signup."

  predicate AnyFieldEmpty(f: SignupForm) {
    || f.firstName == "" || f.lastName == "" || f.username == "" || f.email == ""
    || f.password == "" || f.confirmPassword == "" || f.contactNumber == ""
  }

  /** The checks `handleSignup` runs before posting, in their order. */
  function ValidateSignup(f: SignupForm): (r: Option<string>)
    ensures r == Some(FieldsRequiredMessage) <==> AnyFieldEmpty(f)
    ensures r == Some(PasswordMismatchMessage) <==> !AnyFieldEmpty(f) && f.password != f.confirmPassword
    ensures r == Some(ContactNumberMessage) <==>
              !AnyFieldEmpty(f) && f.password == f.confirmPassword && !DigitsOfLength(f.contactNumber, 10)
    ensures r.None? <==>
              !AnyFieldEmpty(f) && f.password == f.confirmPassword && DigitsOfLength(f.contactNumber, 10)
  {
    if AnyFieldEmpty(f) then Some(FieldsRequiredMessage)
    else if f.password != f.confirmPassword then Some(PasswordMismatchMessage)
    else if !DigitsOfLength(f.contactNumber, 10) then Some(ContactNumberMessage)
    else None
  }

  /** The posted body: six fields copied, `role: ["user"]`, no `confirmPassword`. */
  function PayloadOf(f: SignupForm): (p: SignupPayload)
    ensures p.role == ["user"]
    ensures && p.firstName == f.firstName && p.lastName == f.lastName && p.username == f.username
            && p.email == f.email && p.password == f.password && p.contactNumber == f.contactNumber
  {
    SignupPayload(f.firstName, f.lastName, f.username, f.email, f.password, f.contactNumber, ["user"])
  }

  /** A body that passed the checks carries a confirmed password and a
      ten-digit contact number. */
  lemma ValidPayload(f: SignupForm)
    requires ValidateSignup(f).None?
    ensures var p := PayloadOf(f);
            p.password == f.confirmPassword && DigitsOfLength(p.contactNumber, 10) &&
            p.firstName != "" && p.lastName != "" && p.username != "" && p.email != "" && p.password != ""
  {
  }

  /** The signup screen's state; the form fields are set by their inputs. */
  class SignupScreen {
    var form: SignupForm
    var error: string
    var success: string

    constructor ()
      ensures form == EmptyForm && error == "" && success == ""
    {
      form := EmptyForm;
      error := "";
      success := "";
    }

    /** `handleSignup` up to the post: both messages are cleared, then the
        first failing check is shown, or the body is sent. */
    method BeginSignup() returns (request: Option<SignupPayload>)
      modifies this`error, this`success
      ensures success == ""
      ensures ValidateSignup(form).Some? ==> request == None && error == ValidateSignup(form).value
      ensures ValidateSignup(form).None? ==> request == Some(PayloadOf(form)) && error == ""
    {
      error := "";
      success := "";
      var problem := ValidateSignup(form);
      if problem.Some? {
        error := problem.value;
        request := None;
      } else {
        request := Some(PayloadOf(form));
      }
    }

    /** The end of `handleSignup`: only the exact creation message succeeds and
        navigates to the login page. */
    method CompleteSignup(result: Outcome<Reply>) returns (navigateToLogin: bool)
      modifies this`error, this`success
      ensures navigateToLogin <==> result == Delivered(Reply(Some(CreatedMessage)))
      ensures navigateToLogin ==> success == SignupSucceededMessage && error == old(error)
      ensures !navigateToLogin ==>
                && success == old(success)
                && error == Classify(result, CreatedMessage, InvalidResponseMessage, UnexpectedErrorMessage).message
    {
      var v := Classify(result, CreatedMessage, InvalidResponseMessage, UnexpectedErrorMessage);
      navigateToLogin := v.Accepted?;
      if v.Accepted? {
        success := SignupSucceededMessage;
      } else {
        error := v.message;
      }
    }
  }
}
