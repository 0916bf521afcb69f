/**
 * The admin sign-up form: the password is checked locally (long enough, typed twice alike) before
 * the account service is asked; a successful answer switches the screen to its success state,
 * from which a confirmation email can be requested again.
 */
module AdminSignup {
  import opened Wrappers

  const TooShort: string := "Password must be at least 6 characters long"
  const Mismatch: string := "Passwords do not match"

  /**
   * `validatePassword`'s message: too short first, then a mismatch, otherwise none. A password
   * is accepted exactly when it has at least six characters and the confirmation repeats it.
   */
  function PasswordError(password: string, confirm: string): (e: string)
    ensures e == "" <==> |password| >= 6 && password == confirm
    ensures |password| < 6 ==> e == TooShort
    ensures |password| >= 6 && password != confirm ==> e == Mismatch
  {
    if |password| < 6 then TooShort
    else if password != confirm then Mismatch
    else ""
  }

  /** Correcting the confirmation to repeat a long enough password clears the message. */
  lemma RetypingClearsMismatch(password: string, confirm: string)
    requires PasswordError(password, confirm) == Mismatch
    ensures PasswordError(password, password) == ""
  {
  }

  /** The account service's answer: `success`, and for a new account whether it awaits email confirmation. */
  datatype ServiceResult = ServiceResult(success: bool, needsEmailConfirmation: bool, message: string)

  /** The form's state cells. */
  class SignupForm {
    var email: string
    var password: string
    var confirmPassword: string
    var passwordError: string
    var signupSuccess: bool
    var signupData: Option<ServiceResult>
    var resendMessage: string

    constructor ()
      ensures email == "" && password == "" && confirmPassword == "" && passwordError == ""
      ensures !signupSuccess && signupData.None? && resendMessage == ""
    {
      email, password, confirmPassword, passwordError := "", "", "", "";
      signupSuccess, signupData, resendMessage := false, None, "";
    }

    /** The three inputs. */
    method Type(newEmail: string, newPassword: string, newConfirm: string)
      modifies this
      ensures email == newEmail && password == newPassword && confirmPassword == newConfirm
      ensures passwordError == old(passwordError) && signupSuccess == old(signupSuccess)
      ensures signupData == old(signupData) && resendMessage == old(resendMessage)
    {
      email, password, confirmPassword := newEmail, newPassword, newConfirm;
    }

    /** `validatePassword`: shows the message and answers whether the password is accepted. */
    method ValidatePassword() returns (ok: bool)
      modifies this
      ensures passwordError == PasswordError(password, confirmPassword)
      ensures ok <==> |password| >= 6 && password == confirmPassword
      ensures email == old(email) && password == old(password) && confirmPassword == old(confirmPassword)
      ensures signupSuccess == old(signupSuccess) && signupData == old(signupData)
      ensures resendMessage == old(resendMessage)
    {
      if |password| < 6 {
        passwordError := TooShort;
        return false;
      }
      if password != confirmPassword {
        passwordError := Mismatch;
        return false;
      }
      passwordError := "";
      return true;
    }

    /**
     * The browser's own form validation, which runs before `onSubmit`: all three inputs are
     * `required`, and the email input has `type="email"`. `isEmail` stands for the browser's
     * email syntax check.
     */
    predicate BrowserAccepts(isEmail: string -> bool)
      reads this
    {
      email != "" && isEmail(email) && password != "" && confirmPassword != ""
    }

    /**
     * `handleSubmit`: a form the browser refuses is never submitted and nothing changes. Otherwise
     * a refused password never reaches the service; an accepted one is sent with the email, and
     * only a successful answer switches to the success screen, keeping the answer. `signup`
     * stands for the account service; `sent` is what it was asked, if anything.
     */
    method HandleSubmit(isEmail: string -> bool, signup: (string, string) -> ServiceResult)
      returns (sent: Option<(string, string)>)
      modifies this
      ensures !old(BrowserAccepts(isEmail)) ==>
                sent.None? && passwordError == old(passwordError)
      ensures old(BrowserAccepts(isEmail)) ==> passwordError == PasswordError(password, confirmPassword)
      ensures old(BrowserAccepts(isEmail)) && passwordError != "" ==> sent.None?
      ensures old(BrowserAccepts(isEmail)) && passwordError == "" ==> sent == Some((email, password))
      ensures sent.Some? ==> email != "" && isEmail(email)
      ensures sent.Some? && signup(email, password).success ==>
                signupSuccess && signupData == Some(signup(email, password))
      ensures (sent.None? || !signup(email, password).success) ==>
                signupSuccess == old(signupSuccess) && signupData == old(signupData)
      ensures email == old(email) && password == old(password) && confirmPassword == old(confirmPassword)
      ensures resendMessage == old(resendMessage)
    {
      if !BrowserAccepts(isEmail) {
        return None;
      }
      var ok := ValidatePassword();
      if !ok {
        return None;
      }
      sent := Some((email, password));
      var result := signup(email, password);
      if result.success {
        signupSuccess := true;
        signupData := Some(result);
      }
    }

    /** The resend button is offered on the success screen when the account awaits confirmation. */
    predicate OffersResend()
      reads this
    {
      signupSuccess && signupData.Some? && signupData.value.needsEmailConfirmation
    }

    /**
     * `handleResendConfirmation`: a successful answer's message is shown; a failure changes
     * nothing here. `resend` stands for the account service.
     */
    method HandleResendConfirmation(resend: string -> ServiceResult)
      modifies this
      ensures resend(email).success ==> resendMessage == resend(email).message
      ensures !resend(email).success ==> resendMessage == old(resendMessage)
      ensures email == old(email) && password == old(password) && confirmPassword == old(confirmPassword)
      ensures passwordError == old(passwordError) && signupSuccess == old(signupSuccess)
      ensures signupData == old(signupData)
    {
      var result := resend(email);
      if result.success {
        resendMessage := result.message;
      }
    }

    /** The five-second timer started by a successful resend, when it fires. */
    method ClearResendMessage()
      modifies this
      ensures resendMessage == ""
      ensures email == old(email) && password == old(password) && confirmPassword == old(confirmPassword)
      ensures passwordError == old(passwordError) && signupSuccess == old(signupSuccess)
      ensures signupData == old(signupData)
    {
      resendMessage := "";
    }
  }
}
