/**
 * The login screen: two inputs, and a submit handler that shows a loading
 * state, asks the session store to log in, then navigates or shows an error.
 */
module LoginPage {
  import opened Wrappers
  import AuthContext

  const IncorrectCredentials: string := "Numéro de téléphone ou mot de passe incorrect"
  const ConnectionError: string := "Erreur de connexion. Veuillez réessayer."

  class LoginPage {
    var telephone: string
    var password: string
    var loading: bool
    var error: string

    constructor ()
      ensures telephone == "" && password == "" && !loading && error == ""
    {
      telephone, password, loading, error := "", "", false, "";
    }

    /** The phone input's `onChange`. */
    method SetTelephone(value: string)
      modifies this
      ensures telephone == value
      ensures password == old(password) && loading == old(loading) && error == old(error)
    {
      telephone := value;
    }

    /** The password input's `onChange`. */
    method SetPassword(value: string)
      modifies this
      ensures password == value
      ensures telephone == old(telephone) && loading == old(loading) && error == old(error)
    {
      password := value;
    }

    /** `handleSubmit` up to `await login(...)`: loading is shown and the error cleared before the call. */
    method BeginSubmit()
      modifies this
      ensures loading && error == ""
      ensures telephone == old(telephone) && password == old(password)
    {
      loading := true;
      error := "";
    }

    /** `handleSubmit` after the call settled: navigate on success, otherwise one of two errors; loading ends on every path. */
    method AfterLogin(result: Settled<bool>) returns (nav: Option<string>)
      modifies this
      ensures !loading
      ensures nav == (if result == Fulfilled(true) then Some("dashboard") else None)
      ensures error == match result
                       case Fulfilled(true) => old(error)
                       case Fulfilled(false) => IncorrectCredentials
                       case Rejected => ConnectionError
      ensures telephone == old(telephone) && password == old(password)
    {
      nav := None;
      match result {
        case Fulfilled(success) =>
          if success {
            nav := Some("dashboard");
          } else {
            error := IncorrectCredentials;
          }
        case Rejected =>
          error := ConnectionError;
      }
      loading := false;
    }

    /** The whole submit against the mock session store. */
    method HandleSubmit(auth: AuthContext.AuthProvider) returns (nav: Option<string>)
      modifies this, auth
      ensures nav == Some("dashboard") <==> old(telephone) != "" && old(password) != ""
      ensures nav == None ==> error == IncorrectCredentials
      ensures nav.Some? ==> nav == Some("dashboard") && error == ""
      ensures nav.Some? ==> auth.user == Some(AuthContext.MockUser(old(telephone)))
      ensures nav.Some? ==>
                auth.storage == old(auth.storage)[AuthContext.StorageKey := AuthContext.MockUser(old(telephone))]
      ensures nav == None ==> auth.user == old(auth.user) && auth.storage == old(auth.storage)
      ensures !loading && telephone == old(telephone) && password == old(password)
    {
      BeginSubmit();
      var success := auth.Login(telephone, password);
      nav := AfterLogin(Fulfilled(success));
    }
  }
}
