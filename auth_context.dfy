/**
 * The mock session store (`AuthProvider`): at most one current user, a copy of
 * it persisted in the browser's key-value storage under one key, and fixed
 * predicates standing in for credential and one-time-code checks.
 */
module AuthContext {
  import opened Wrappers

  /** The identity record held by the store. */
  datatype User = User(id: string, nom: string, prenom: string, telephone: string, email: Option<string>)

  /** What the registration screen hands to `register`. */
  datatype RegisterData = RegisterData(
    nom: string, prenom: string, telephone: string,
    password: string, confirmPassword: string, acceptConditions: bool)

  /** The one storage key the session is persisted under. */
  const StorageKey: string := "fractalis_user"

  /** The only one-time code the mock accepts. */
  const DemoOtp: string := "123456"

  /** The fixed identity a successful login creates. */
  function MockUser(telephone: string): (u: User)
    ensures u.id == "1" && u.nom == "KOUADIO" && u.prenom == "Jean"
    ensures u.telephone == telephone && u.email == None
  {
    User("1", "KOUADIO", "Jean", telephone, None)
  }

  /** The identity `register` creates; the id is the timestamp string the caller supplies. */
  function NewUser(data: RegisterData, id: string): (u: User)
    ensures u.id == id && u.nom == data.nom && u.prenom == data.prenom
    ensures u.telephone == data.telephone && u.email == None
  {
    User(id, data.nom, data.prenom, data.telephone, None)
  }

  /** The user the startup effect restores from storage: present iff the key is. */
  function Restored(storage: map<string, User>): (u: Option<User>)
    ensures u.Some? <==> StorageKey in storage
    ensures u.Some? ==> u.value == storage[StorageKey]
  {
    if StorageKey in storage then Some(storage[StorageKey]) else None
  }

  /** `verifyOTP`: accepts exactly the demonstration code, a six-digit string. */
  function VerifyOtp(otp: string): (ok: bool)
    ensures ok <==> otp == DemoOtp
    ensures ok ==> |otp| == 6 && forall i :: 0 <= i < |otp| ==> '0' <= otp[i] <= '9'
  {
    otp == DemoOtp
  }

  /** `sendOTP`: delivers nothing and always reports success. */
  function SendOtp(telephone: string): (ok: bool)
    ensures ok
  {
    true
  }

  /** `resetPassword`: succeeds iff the code is the demonstration code, whatever the number and password. */
  function ResetPassword(telephone: string, newPassword: string, otp: string): (ok: bool)
    ensures ok <==> VerifyOtp(otp)
  {
    otp == DemoOtp
  }

  /** A restart right after a successful login restores the very user the login set. */
  lemma RestartAfterLogin(storage: map<string, User>, telephone: string)
    ensures Restored(storage[StorageKey := MockUser(telephone)]) == Some(MockUser(telephone))
  {
  }

  /** A restart after logout restores nobody. */
  lemma RestartAfterLogout(storage: map<string, User>)
    ensures Restored(storage - {StorageKey}) == None
  {
  }

  class AuthProvider {
    /** The current user (`null` is `None`). */
    var user: Option<User>
    /** The browser's key-value storage, keyed by string. */
    var storage: map<string, User>

    /** The in-memory user agrees with the persisted copy. */
    ghost predicate Synced()
      reads this
    {
      user == Restored(storage)
    }

    /** Startup: the store reads whatever the storage holds under its key. */
    constructor (saved: map<string, User>)
      ensures storage == saved && user == Restored(saved)
      ensures Synced()
    {
      storage := saved;
      user := Restored(saved);
    }

    /** `login`: any non-empty number and password succeed and log in the fixed mock identity. */
    method Login(telephone: string, password: string) returns (ok: bool)
      modifies this
      ensures ok <==> telephone != "" && password != ""
      ensures ok ==> user == Some(MockUser(telephone))
      ensures ok ==> storage == old(storage)[StorageKey := MockUser(telephone)]
      ensures !ok ==> user == old(user) && storage == old(storage)
      ensures ok || old(Synced()) ==> Synced()
    {
      if telephone != "" && password != "" {
        var mockUser := MockUser(telephone);
        user := Some(mockUser);
        storage := storage[StorageKey := mockUser];
        return true;
      }
      return false;
    }

    /** `register`: succeeds iff the conditions were accepted, and logs in a user built from the data. */
    method Register(data: RegisterData, id: string) returns (ok: bool)
      modifies this
      ensures ok <==> data.acceptConditions
      ensures ok ==> user == Some(NewUser(data, id))
      ensures ok ==> storage == old(storage)[StorageKey := NewUser(data, id)]
      ensures !ok ==> user == old(user) && storage == old(storage)
      ensures ok || old(Synced()) ==> Synced()
    {
      if data.acceptConditions {
        var newUser := NewUser(data, id);
        user := Some(newUser);
        storage := storage[StorageKey := newUser];
        return true;
      }
      return false;
    }

    /** `logout`: forgets the user and removes the persisted copy; other keys are kept. */
    method Logout()
      modifies this
      ensures user == None
      ensures storage == old(storage) - {StorageKey}
      ensures Synced()
    {
      user := None;
      storage := storage - {StorageKey};
    }
  }
}
