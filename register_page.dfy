/**
 * The registration screen: a form step whose submit validates in a fixed
 * order and sends a one-time code, then a code step whose verification
 * creates the account through the session store.
 */
module RegisterPage {
  import opened Wrappers
  import AuthContext

  const PasswordMismatch: string := "Les mots de passe ne correspondent pas"
  const ConditionsRequired: string := "Vous devez accepter les conditions d'utilisation"
  const SendError: string := "Erreur lors de l'envoi du code. Veuillez réessayer."
  const OtpIncorrect: string := "Code OTP incorrect"
  const CreationError: string := "Erreur lors de la création du compte"
  const VerificationError: string := "Erreur de vérification. Veuillez réessayer."

  datatype Step = Form | Otp

  /** The text inputs of the form. */
  datatype TextField = Nom | Prenom | Telephone | Password | ConfirmPassword

  function Text(data: AuthContext.RegisterData, field: TextField): string {
    match field
    case Nom => data.nom
    case Prenom => data.prenom
    case Telephone => data.telephone
    case Password => data.password
    case ConfirmPassword => data.confirmPassword
  }

  /** `updateFormData` on a text input: that field takes the value, every other field and the checkbox are kept. */
  function WithText(data: AuthContext.RegisterData, field: TextField, value: string): (r: AuthContext.RegisterData)
    ensures Text(r, field) == value
    ensures forall f :: f != field ==> Text(r, f) == Text(data, f)
    ensures r.acceptConditions == data.acceptConditions
  {
    match field
    case Nom => data.(nom := value)
    case Prenom => data.(prenom := value)
    case Telephone => data.(telephone := value)
    case Password => data.(password := value)
    case ConfirmPassword => data.(confirmPassword := value)
  }

  /** The submit checks, in the order the handler runs them: the first failing one names the error. */
  function ValidationError(data: AuthContext.RegisterData): (e: Option<string>)
    ensures e == None <==> data.password == data.confirmPassword && data.acceptConditions
    ensures data.password != data.confirmPassword ==> e == Some(PasswordMismatch)
    ensures data.password == data.confirmPassword && !data.acceptConditions ==> e == Some(ConditionsRequired)
  {
    if data.password != data.confirmPassword then Some(PasswordMismatch)
    else if !data.acceptConditions then Some(ConditionsRequired)
    else None
  }

  class RegisterPage {
    var form: AuthContext.RegisterData
    var step: Step
    var loading: bool
    var error: string

    constructor ()
      ensures form == AuthContext.RegisterData("", "", "", "", "", false)
      ensures step == Form && !loading && error == ""
    {
      form := AuthContext.RegisterData("", "", "", "", "", false);
      step, loading, error := Form, false, "";
    }

    /** `updateFormData` for a text input: only that field changes. */
    method UpdateText(field: TextField, value: string)
      modifies this
      ensures form == WithText(old(form), field, value)
      ensures step == old(step) && loading == old(loading) && error == old(error)
    {
      form := WithText(form, field, value);
    }

    /** `updateFormData('acceptConditions', checked)`. */
    method SetAcceptConditions(checked: bool)
      modifies this
      ensures form == old(form).(acceptConditions := checked)
      ensures step == old(step) && loading == old(loading) && error == old(error)
    {
      form := form.(acceptConditions := checked);
    }

    /** "Retour au formulaire": back to the form step. */
    method BackToForm()
      modifies this
      ensures step == Form
      ensures form == old(form) && loading == old(loading) && error == old(error)
    {
      step := Form;
    }

    /**
     * `handleSubmit` up to `await sendOTP(...)`: the error is cleared, then the
     * password check, then the conditions check; only valid input starts sending.
     */
    method BeginSubmit() returns (sending: bool)
      modifies this
      ensures sending <==> ValidationError(form) == None
      ensures !sending ==> error == ValidationError(form).value && loading == old(loading)
      ensures sending ==> error == "" && loading
      ensures step == old(step) && form == old(form)
    {
      error := "";
      if form.password != form.confirmPassword {
        error := PasswordMismatch;
        return false;
      }
      if !form.acceptConditions {
        error := ConditionsRequired;
        return false;
      }
      loading := true;
      return true;
    }

    /** `handleSubmit` after the send settled: the code step on success, the send error on a throw. */
    method AfterSend(sent: Settled<bool>)
      modifies this
      ensures step == (if sent.Fulfilled? then Otp else old(step))
      ensures error == (if sent.Fulfilled? then old(error) else SendError)
      ensures !loading && form == old(form)
    {
      match sent {
        case Fulfilled(_) =>
          step := Otp;
        case Rejected =>
          error := SendError;
      }
      loading := false;
    }

    /** The whole submit with the mock `sendOTP`. */
    method HandleSubmit()
      modifies this
      ensures step == (if ValidationError(old(form)) == None then Otp else old(step))
      ensures ValidationError(old(form)) == None ==> error == ""
      ensures ValidationError(old(form)) != None ==> error == ValidationError(old(form)).value
      ensures ValidationError(old(form)) == None ==> !loading
      ensures ValidationError(old(form)) != None ==> loading == old(loading)
      ensures form == old(form)
    {
      var sending := BeginSubmit();
      if sending {
        var sent := AuthContext.SendOtp(form.telephone);
        AfterSend(Fulfilled(sent));
      }
    }

    /** `handleOTPVerification` up to `await verifyOTP(...)`. */
    method BeginOtpVerification()
      modifies this
      ensures loading
      ensures step == old(step) && form == old(form) && error == old(error)
    {
      loading := true;
    }

    /** After `verifyOTP` settled: a valid code goes on to `register`; otherwise an error and loading ends. */
    method AfterVerify(valid: Settled<bool>) returns (registering: bool)
      modifies this
      ensures registering <==> valid == Fulfilled(true)
      ensures registering ==> loading == old(loading) && error == old(error)
      ensures valid == Fulfilled(false) ==> error == OtpIncorrect && !loading
      ensures valid == Rejected ==> error == VerificationError && !loading
      ensures step == old(step) && form == old(form)
    {
      registering := false;
      match valid {
        case Fulfilled(ok) =>
          if ok {
            registering := true;
            return;
          }
          error := OtpIncorrect;
        case Rejected =>
          error := VerificationError;
      }
      loading := false;
    }

    /** After `register` settled: the dashboard on success, otherwise an error; loading ends. */
    method AfterRegister(created: Settled<bool>) returns (nav: Option<string>)
      modifies this
      ensures nav == (if created == Fulfilled(true) then Some("dashboard") else None)
      ensures error == match created
                       case Fulfilled(true) => old(error)
                       case Fulfilled(false) => CreationError
                       case Rejected => VerificationError
      ensures !loading && step == old(step) && form == old(form)
    {
      nav := None;
      match created {
        case Fulfilled(ok) =>
          if ok {
            nav := Some("dashboard");
          } else {
            error := CreationError;
          }
        case Rejected =>
          error := VerificationError;
      }
      loading := false;
    }

    /**
     * The whole code verification against the mock session store; `id` is the
     * timestamp string `register` would take from the clock.
     */
    method HandleOtpVerification(auth: AuthContext.AuthProvider, otp: string, id: string) returns (nav: Option<string>)
      modifies this, auth
      ensures nav == Some("dashboard") <==> AuthContext.VerifyOtp(otp) && form.acceptConditions
      ensures !AuthContext.VerifyOtp(otp) ==> error == OtpIncorrect
      ensures !AuthContext.VerifyOtp(otp) ==> auth.user == old(auth.user) && auth.storage == old(auth.storage)
      ensures AuthContext.VerifyOtp(otp) && !form.acceptConditions ==> error == CreationError
      ensures !form.acceptConditions ==> auth.user == old(auth.user) && auth.storage == old(auth.storage)
      ensures nav.Some? ==> error == old(error)
      ensures nav.Some? ==> auth.user == Some(AuthContext.NewUser(form, id))
      ensures nav.Some? ==> auth.storage == old(auth.storage)[AuthContext.StorageKey := AuthContext.NewUser(form, id)]
      ensures !loading && step == old(step) && form == old(form)
    {
      BeginOtpVerification();
      var valid := AuthContext.VerifyOtp(otp);
      var registering := AfterVerify(Fulfilled(valid));
      nav := None;
      if registering {
        var created := auth.Register(form, id);
        nav := AfterRegister(Fulfilled(created));
      }
    }
  }
}
