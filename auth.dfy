/**
 * Sign-in and sign-up. The authentication service is not part of this model: its
 * answer to an attempt arrives as a parameter (`None` when it accepts), and each
 * handler reports the credentials it sent, the alert it shows and whether it moved
 * on to the main tabs.
 */
module Auth {
  import opened Options
  import opened Text
  import opened Records
  import opened Backend

  /** What a failed call throws: a service error with its code, or anything else. */
  datatype AuthError = ServiceError(code: string) | OtherError

  datatype Alert = Alert(title: string, message: string)

  /** What a handler did: the credentials it passed to the service, its alert, and the navigation. */
  datatype Outcome = Outcome(sent: Option<(string, string)>, alert: Option<Alert>, toTabs: bool)

  const WrongCredentials := "Email atau password salah."
  const InvalidEmail := "Format email tidak valid."
  const NoConnection := "Tidak dapat terhubung ke server. Periksa koneksi internet Anda."
  const TryAgain := "Terjadi kesalahan. Coba lagi sebentar."
  const Unexpected := "Terjadi kesalahan tak terduga. Coba lagi."

  /** The codes that all mean "wrong email or password" on sign-in. */
  predicate IsCredentialCode(code: string) {
    code == "auth/user-not-found" || code == "auth/invalid-credential" ||
    code == "auth/invalid-login-credentials" || code == "auth/wrong-password"
  }

  /** `getLoginErrorMessage`. */
  function LoginErrorMessage(e: AuthError): (m: string)
    ensures e.OtherError? ==> m == Unexpected
    ensures e.ServiceError? && IsCredentialCode(e.code) ==> m == WrongCredentials
    ensures e.ServiceError? ==> m != Unexpected
    ensures e.ServiceError? && m == TryAgain <==>
      e.ServiceError? && !IsCredentialCode(e.code) &&
      e.code !in {"auth/invalid-email", "auth/user-disabled", "auth/network-request-failed"}
  {
    match e
    case OtherError => Unexpected
    case ServiceError(code) =>
      if code == "auth/invalid-email" then InvalidEmail
      else if code == "auth/user-disabled" then "Akun ini telah dinonaktifkan."
      else if IsCredentialCode(code) then WrongCredentials
      else if code == "auth/network-request-failed" then NoConnection
      else TryAgain
  }

  /** The three codes with a message of their own get three different messages, none shared with the credential codes. */
  lemma LoginMessagesDistinct(c: string)
    requires IsCredentialCode(c)
    ensures var ms := [LoginErrorMessage(ServiceError("auth/invalid-email")),
                       LoginErrorMessage(ServiceError("auth/user-disabled")),
                       LoginErrorMessage(ServiceError("auth/network-request-failed")),
                       LoginErrorMessage(ServiceError(c))];
      forall i, j :: 0 <= i < j < 4 ==> ms[i] != ms[j]
  {
  }

  /** `getSignupErrorMessage`. */
  function SignupErrorMessage(e: AuthError): (m: string)
    ensures e.OtherError? ==> m == Unexpected
    ensures e.ServiceError? ==> m != Unexpected
    ensures e.ServiceError? && m == TryAgain <==>
      e.ServiceError? &&
      e.code !in {"auth/email-already-in-use", "auth/invalid-email", "auth/weak-password", "auth/network-request-failed"}
  {
    match e
    case OtherError => Unexpected
    case ServiceError(code) =>
      if code == "auth/email-already-in-use" then "Email sudah terdaftar. Coba masuk atau gunakan email lain."
      else if code == "auth/invalid-email" then InvalidEmail
      else if code == "auth/weak-password" then "Password minimal 6 karakter."
      else if code == "auth/network-request-failed" then NoConnection
      else TryAgain
  }

  /** The four codes with a sign-up message of their own get four different messages, none of them a fallback. */
  lemma SignupMessagesDistinct()
    ensures var ms := [SignupErrorMessage(ServiceError("auth/email-already-in-use")),
                       SignupErrorMessage(ServiceError("auth/invalid-email")),
                       SignupErrorMessage(ServiceError("auth/weak-password")),
                       SignupErrorMessage(ServiceError("auth/network-request-failed"))];
      (forall i, j :: 0 <= i < j < 4 ==> ms[i] != ms[j]) &&
      (forall i :: 0 <= i < 4 ==> ms[i] != TryAgain && ms[i] != Unexpected)
  {
  }

  /** Both screens word an invalid email and a lost connection alike, and share the fallbacks. */
  lemma SharedMessages(e: AuthError)
    requires e.OtherError? || e.code in {"auth/invalid-email", "auth/network-request-failed", "auth/operation-not-allowed"}
    ensures LoginErrorMessage(e) == SignupErrorMessage(e)
  {
  }

  /** `!email || !password`: the sign-in form demands both; a blank of spaces passes. */
  predicate LoginFilled(email: string, password: string) {
    email != "" && password != ""
  }

  /** `handleLogin`'s effect on the service and the screen, given the service's answer. */
  function LoginOutcome(email: string, password: string, answer: Option<AuthError>): (r: Outcome)
    ensures !LoginFilled(email, password) ==> r.sent.None? && !r.toTabs
    ensures LoginFilled(email, password) ==> r.sent == Some((Trim(email), password))
    ensures r.toTabs <==> LoginFilled(email, password) && answer.None?
    ensures r.toTabs <==> r.alert.None?
  {
    if !LoginFilled(email, password) then
      Outcome(None, Some(Alert("Login gagal", "Email dan password wajib diisi!")), false)
    else if answer.None? then
      Outcome(Some((Trim(email), password)), None, true)
    else
      Outcome(Some((Trim(email), password)), Some(Alert("Login gagal", LoginErrorMessage(answer.value))), false)
  }

  /** A rejected sign-in shows the service's reason, and the credentials sent were the trimmed email and the raw password. */
  lemma LoginRejected(email: string, password: string, e: AuthError)
    requires LoginFilled(email, password)
    ensures LoginOutcome(email, password, Some(e)).alert == Some(Alert("Login gagal", LoginErrorMessage(e)))
    ensures LoginOutcome(email, password, Some(e)).sent == Some((Trim(email), password))
    ensures !LoginOutcome(email, password, Some(e)).toTabs
  {
  }

  class LoginScreen {
    var email: string
    var password: string
    var loading: bool

    constructor ()
      ensures email == "" && password == "" && !loading
    {
      email := "";
      password := "";
      loading := false;
    }

    /** `handleLogin`: guard, one sign-in attempt, then loading off whatever happened. */
    method HandleLogin(answer: Option<AuthError>) returns (r: Outcome)
      modifies this
      ensures r == LoginOutcome(email, password, answer)
      ensures loading == (if LoginFilled(email, password) then false else old(loading))
      ensures email == old(email) && password == old(password)
    {
      if email == "" || password == "" {
        return Outcome(None, Some(Alert("Login gagal", "Email dan password wajib diisi!")), false);
      }
      loading := true;
      var sent := (Trim(email), password);
      if answer.None? {
        r := Outcome(Some(sent), None, true);
      } else {
        r := Outcome(Some(sent), Some(Alert("Login gagal", LoginErrorMessage(answer.value))), false);
      }
      loading := false;
    }
  }

  /** `!name || !email || !password`: the phone number is optional. */
  predicate SignupFilled(name: string, email: string, password: string) {
    name != "" && email != "" && password != ""
  }

  /** The profile record written under the new account's uid. */
  function ProfileRecord(uid: string, name: string, email: string, phone: string, now: int): UserDoc {
    UserDoc(uid, name, email, phone, now)
  }

  /** The writes of a successful sign-up: the display name of the account, then its profile. */
  function SignupWrites(db: Db, uid: string, name: string, email: string, phone: string, now: int): Db {
    PutUser(PutDisplayName(db, uid, name), uid, ProfileRecord(uid, name, email, phone, now))
  }

  /**
   * After a sign-up the profile under the uid holds the uid, the name, the phone and the
   * email as typed (the account itself was created with the trimmed one); the display name
   * is the entered name, and no other document changes.
   */
  lemma SignupWritesEffect(db: Db, uid: string, name: string, email: string, phone: string, now: int)
    ensures var db1 := SignupWrites(db, uid, name, email, phone, now);
      uid in db1.users && db1.users[uid].uid == uid && db1.users[uid].name == name &&
      db1.users[uid].email == email && db1.users[uid].phone == phone && db1.users[uid].createdAt == now &&
      db1.displayNames == db.displayNames[uid := name] &&
      (forall u :: u in db.users && u != uid ==> u in db1.users && db1.users[u] == db.users[u]) &&
      db1.customers == db.customers && db1.orders == db.orders && db1.laundry == db.laundry &&
      db1.inventory == db.inventory && db1.expenses == db.expenses
  {
  }

  class SignupScreen {
    var name: string
    var email: string
    var phone: string
    var password: string
    var loading: bool

    constructor ()
      ensures name == "" && email == "" && phone == "" && password == "" && !loading
    {
      name, email, phone, password := "", "", "", "";
      loading := false;
    }

    /**
     * `handleSignup`: guard; create the account with the trimmed email (the service
     * answers `created`: the new uid, or an error); then the display name and the
     * profile record; loading off at the end.
     */
    method HandleSignup(store: Store, created: Result<string, AuthError>, now: int) returns (r: Outcome)
      modifies this, store
      ensures loading == (if SignupFilled(name, email, password) then false else old(loading))
      ensures name == old(name) && email == old(email) && phone == old(phone) && password == old(password)
      ensures !SignupFilled(name, email, password) ==>
        r == Outcome(None, Some(Alert("Pendaftaran gagal", "Semua field wajib diisi!")), false) &&
        store.Snapshot() == old(store.Snapshot())
      ensures SignupFilled(name, email, password) ==> r.sent == Some((Trim(email), password))
      ensures SignupFilled(name, email, password) && created.Err? ==>
        r.alert == Some(Alert("Pendaftaran gagal", SignupErrorMessage(created.error))) && !r.toTabs &&
        store.Snapshot() == old(store.Snapshot())
      ensures SignupFilled(name, email, password) && created.Ok? ==>
        r.alert == Some(Alert("Berhasil", "Pendaftaran berhasil!")) && r.toTabs &&
        store.Snapshot() == SignupWrites(old(store.Snapshot()), created.value, name, email, phone, now)
    {
      if name == "" || email == "" || password == "" {
        return Outcome(None, Some(Alert("Pendaftaran gagal", "Semua field wajib diisi!")), false);
      }
      loading := true;
      var sent := (Trim(email), password);
      if created.Err? {
        r := Outcome(Some(sent), Some(Alert("Pendaftaran gagal", SignupErrorMessage(created.error))), false);
      } else {
        var uid := created.value;
        store.SetDisplayName(uid, name);
        store.SetUser(uid, ProfileRecord(uid, name, email, phone, now));
        r := Outcome(Some(sent), Some(Alert("Berhasil", "Pendaftaran berhasil!")), true);
      }
      loading := false;
    }
  }
}
