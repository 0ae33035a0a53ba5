/**
 * The password-reset screen: a phone step that sends a one-time code, a code
 * step that checks it, and a reset step that submits the new password with
 * the stored code. The step only ever moves forward.
 */
module ForgotPasswordPage {
  import opened Wrappers
  import AuthContext

  const SendError: string := "Erreur lors de l'envoi du code. Veuillez réessayer."
  const OtpIncorrect: string := "Code OTP incorrect"
  const VerificationError: string := "Erreur de vérification. Veuillez réessayer."
  const PasswordMismatch: string := "Les mots de passe ne correspondent pas"
  const ResetFailed: string := "Erreur lors de la réinitialisation du mot de passe"
  const ResetError: string := "Erreur de réinitialisation. Veuillez réessayer."

  datatype Step = Phone | Otp | Reset

  /** Position of a step in phone, otp, reset. */
  function Rank(step: Step): (r: nat)
    ensures r < 3
  {
    match step
    case Phone => 0
    case Otp => 1
    case Reset => 2
  }

  /** What `handlePasswordReset` hands to `resetPassword`. */
  datatype ResetRequest = ResetRequest(telephone: string, newPassword: string, otp: string)

  /** The inputs of the phone and reset steps. */
  datatype Field = Telephone | NewPassword | ConfirmPassword

  class ForgotPasswordPage {
    var step: Step
    var telephone: string
    var newPassword: string
    var confirmPassword: string
    var otp: string
    var loading: bool
    var error: string

    constructor ()
      ensures step == Phone && telephone == "" && newPassword == "" && confirmPassword == ""
      ensures otp == "" && !loading && error == ""
    {
      step := Phone;
      telephone, newPassword, confirmPassword, otp := "", "", "", "";
      loading, error := false, "";
    }

    /** An input's `onChange`: only that field changes. */
    method Edit(field: Field, value: string)
      modifies this
      ensures telephone == (if field == Telephone then value else old(telephone))
      ensures newPassword == (if field == NewPassword then value else old(newPassword))
      ensures confirmPassword == (if field == ConfirmPassword then value else old(confirmPassword))
      ensures step == old(step) && otp == old(otp) && loading == old(loading) && error == old(error)
    {
      match field {
        case Telephone => telephone := value;
        case NewPassword => newPassword := value;
        case ConfirmPassword => confirmPassword := value;
      }
    }

    /** `handleSendOTP` up to `await sendOTP(telephone)`; its form is shown only in the phone step. */
    method BeginSendOtp()
      requires step == Phone
      modifies this
      ensures loading && error == ""
      ensures step == old(step) && telephone == old(telephone) && otp == old(otp)
      ensures newPassword == old(newPassword) && confirmPassword == old(confirmPassword)
    {
      loading := true;
      error := "";
    }

    /** After the send settled: the code step on success, an error on a throw. */
    method AfterSendOtp(sent: Settled<bool>)
      requires step == Phone
      modifies this
      ensures step == (if sent.Fulfilled? then Otp else old(step))
      ensures Rank(old(step)) <= Rank(step)
      ensures error == (if sent.Fulfilled? then old(error) else SendError)
      ensures !loading
      ensures telephone == old(telephone) && otp == old(otp)
      ensures newPassword == old(newPassword) && confirmPassword == old(confirmPassword)
    {
      match sent {
        case Fulfilled(_) => step := Otp;
        case Rejected => error := SendError;
      }
      loading := false;
    }

    /**
     * The whole send with the mock `sendOTP`. Its form is shown only in the
     * phone step, from which this is a move forward.
     */
    method HandleSendOtp()
      requires step == Phone
      modifies this
      ensures step == Otp && error == "" && !loading
      ensures Rank(old(step)) < Rank(step)
      ensures telephone == old(telephone) && otp == old(otp)
      ensures newPassword == old(newPassword) && confirmPassword == old(confirmPassword)
    {
      BeginSendOtp();
      var sent := AuthContext.SendOtp(telephone);
      AfterSendOtp(Fulfilled(sent));
    }

    /**
     * `handleOTPVerification` up to `await verifyOTP(code)`: the entered code
     * is stored first. The code widget is mounted only in the otp step.
     */
    method BeginOtpVerification(code: string)
      requires step == Otp
      modifies this
      ensures otp == code && loading
      ensures step == old(step) && error == old(error) && telephone == old(telephone)
      ensures newPassword == old(newPassword) && confirmPassword == old(confirmPassword)
    {
      otp := code;
      loading := true;
    }

    /** After `verifyOTP` settled: the reset step iff the code is valid, otherwise an error. */
    method AfterOtpVerification(valid: Settled<bool>)
      requires step == Otp
      modifies this
      ensures step == (if valid == Fulfilled(true) then Reset else old(step))
      ensures error == match valid
                       case Fulfilled(true) => old(error)
                       case Fulfilled(false) => OtpIncorrect
                       case Rejected => VerificationError
      ensures !loading && Rank(old(step)) <= Rank(step)
      ensures otp == old(otp) && telephone == old(telephone)
      ensures newPassword == old(newPassword) && confirmPassword == old(confirmPassword)
    {
      match valid {
        case Fulfilled(ok) =>
          if ok {
            step := Reset;
          } else {
            error := OtpIncorrect;
          }
        case Rejected =>
          error := VerificationError;
      }
      loading := false;
    }

    /** The whole code verification with the mock `verifyOTP`. */
    method HandleOtpVerification(code: string)
      requires step == Otp
      modifies this
      ensures otp == code
      ensures step == (if AuthContext.VerifyOtp(code) then Reset else old(step))
      ensures error == (if AuthContext.VerifyOtp(code) then old(error) else OtpIncorrect)
      ensures !loading && Rank(old(step)) <= Rank(step)
      ensures telephone == old(telephone)
      ensures newPassword == old(newPassword) && confirmPassword == old(confirmPassword)
    {
      BeginOtpVerification(code);
      var valid := AuthContext.VerifyOtp(code);
      AfterOtpVerification(Fulfilled(valid));
    }

    /**
     * `handlePasswordReset` up to `await resetPassword(...)`: the error is
     * cleared; mismatched passwords stop here, otherwise the stored number,
     * the new password and the stored code are sent. Its form is shown only
     * in the reset step.
     */
    method BeginPasswordReset() returns (request: Option<ResetRequest>)
      requires step == Reset
      modifies this
      ensures request == (if newPassword == confirmPassword
                          then Some(ResetRequest(telephone, newPassword, otp)) else None)
      ensures request == None ==> error == PasswordMismatch && loading == old(loading)
      ensures request.Some? ==> error == "" && loading
      ensures step == old(step) && telephone == old(telephone) && otp == old(otp)
      ensures newPassword == old(newPassword) && confirmPassword == old(confirmPassword)
    {
      error := "";
      if newPassword != confirmPassword {
        error := PasswordMismatch;
        return None;
      }
      loading := true;
      return Some(ResetRequest(telephone, newPassword, otp));
    }

    /** After `resetPassword` settled: the login screen on success, otherwise an error. */
    method AfterPasswordReset(done: Settled<bool>) returns (nav: Option<string>)
      requires step == Reset
      modifies this
      ensures nav == (if done == Fulfilled(true) then Some("login") else None)
      ensures error == match done
                       case Fulfilled(true) => old(error)
                       case Fulfilled(false) => ResetFailed
                       case Rejected => ResetError
      ensures !loading && step == old(step) && otp == old(otp) && telephone == old(telephone)
      ensures newPassword == old(newPassword) && confirmPassword == old(confirmPassword)
    {
      nav := None;
      match done {
        case Fulfilled(ok) =>
          if ok {
            nav := Some("login");
          } else {
            error := ResetFailed;
          }
        case Rejected =>
          error := ResetError;
      }
      loading := false;
    }

    /** The whole reset with the mock `resetPassword`. */
    method HandlePasswordReset() returns (nav: Option<string>)
      requires step == Reset
      modifies this
      ensures nav == Some("login") <==> old(newPassword) == old(confirmPassword) && AuthContext.VerifyOtp(old(otp))
      ensures old(newPassword) != old(confirmPassword) ==> error == PasswordMismatch && loading == old(loading)
      ensures old(newPassword) == old(confirmPassword) && !AuthContext.VerifyOtp(old(otp)) ==> error == ResetFailed && !loading
      ensures nav.Some? ==> error == "" && !loading
      ensures step == old(step) && otp == old(otp) && telephone == old(telephone)
      ensures newPassword == old(newPassword) && confirmPassword == old(confirmPassword)
    {
      var request := BeginPasswordReset();
      nav := None;
      if request.Some? {
        var ok := AuthContext.ResetPassword(request.value.telephone, request.value.newPassword, request.value.otp);
        nav := AfterPasswordReset(Fulfilled(ok));
      }
    }
  }
}
