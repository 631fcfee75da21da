/** The mock session hook the screens use: it restores the signed-in user from
    local storage when it mounts, and `login`, `register` and `logout` set the
    user and keep the stored copy in step. It calls no backend. */
module AuthHook {
  import opened Outcomes
  import opened Types
  import opened Text
  import opened Browser

  const InvalidCredentials := "Invalid credentials"
  const InvalidData := "Invalid data"

  /** The user the mock `login(email, password)` signs in: id `"1"`, the email,
      and the part of the email before its first `'@'` as the name; both fields
      must be non-empty. */
  function LoginResult(email: string, password: string): (r: Reply<User>)
    ensures r.Success? <==> email != "" && password != ""
    ensures r.Failure? ==> r.error == InvalidCredentials
    ensures r.Success? ==> r.value.id == "1" && r.value.email == email && r.value.homeLocation.None?
    ensures r.Success? ==> r.value.name <= email && '@' !in r.value.name
    ensures r.Success? && '@' in email ==> |r.value.name| < |email| && email[|r.value.name|] == '@'
    ensures r.Success? && '@' !in email ==> r.value.name == email
  {
    if email != "" && password != "" then
      var name := BeforeFirst(email, '@');
      assert |name| == |email| ==> name == email;
      Success(User("1", email, name, None))
    else Failure(InvalidCredentials)
  }

  /** Every mock login signs in the same account id, whatever the email. */
  lemma LoginIdsCollide(e1: string, p1: string, e2: string, p2: string)
    requires LoginResult(e1, p1).Success? && LoginResult(e2, p2).Success?
    ensures LoginResult(e1, p1).value.id == LoginResult(e2, p2).value.id
    ensures e1 != e2 ==> LoginResult(e1, p1).value != LoginResult(e2, p2).value
  {
  }

  /** The user the mock `register(email, password, name)` signs in: the clock
      in milliseconds as its id; all three fields must be non-empty. */
  function RegisterResult(email: string, password: string, name: string, now: nat): (r: Reply<User>)
    ensures r.Success? <==> email != "" && password != "" && name != ""
    ensures r.Failure? ==> r.error == InvalidData
    ensures r.Success? ==> r.value == User(NatToString(now), email, name, None) && IsDigits(r.value.id)
  {
    if email != "" && password != "" && name != "" then Success(User(NatToString(now), email, name, None))
    else Failure(InvalidData)
  }

  /** Registrations at different milliseconds get different ids, and two in the
      same millisecond get the same one. */
  lemma {:induction false} RegisterIds(e1: string, p1: string, n1: string, t: nat,
                                       e2: string, p2: string, n2: string, u: nat)
    requires RegisterResult(e1, p1, n1, t).Success? && RegisterResult(e2, p2, n2, u).Success?
    ensures RegisterResult(e1, p1, n1, t).value.id == RegisterResult(e2, p2, n2, u).value.id <==> t == u
  {
    if NatToString(t) == NatToString(u) {
      ParseNatToString(t);
      ParseNatToString(u);
    }
  }

  /** What the mount effect does with the stored entry: the stored user when it
      parses; `None` and a removed entry when it holds other non-empty text; the
      user as it was and the entry untouched when it is missing or empty. */
  function Restored(saved: Option<Stored<User>>, user: Option<User>): (r: (Option<User>, Option<Stored<User>>))
    ensures saved.Some? && saved.value.Json? ==> r == (Some(saved.value.value), saved)
    ensures saved.Some? && saved.value.Raw? && saved.value.text != "" ==> r == (None, None)
    ensures saved.None? || saved.value == Raw("") ==> r == (user, saved)
  {
    if saved.Some? && Truthy(saved.value) then
      match saved.value
      case Json(u) => (Some(u), saved)
      case Raw(_) => (None, None)
    else (user, saved)
  }

  /** Restoring after a login or a registration gives back the signed-in user,
      and restoring twice is restoring once. */
  lemma RestoreRoundTrip(u: User, user: Option<User>, saved: Option<Stored<User>>)
    ensures Restored(Some(Json(u)), user) == (Some(u), Some(Json(u)))
    ensures var (user1, saved1) := Restored(saved, user); Restored(saved1, user1) == (user1, saved1)
  {
  }

  class Hook {
    const window: Window
    var user: Option<User>
    var loading: bool

    /** The hook starts with no user, loading. */
    constructor (window: Window)
      ensures this.window == window && user == None && loading
    {
      this.window := window;
      user := None;
      loading := true;
    }

    /** The mount effect: restore the stored user, then stop loading. */
    method Restore()
      modifies this, window
      ensures (user, window.savedUser) == Restored(old(window.savedUser), old(user)) && !loading
      ensures window.appSettings == old(window.appSettings) && window.customWords == old(window.customWords)
      ensures window.theme == old(window.theme) && window.rootClasses == old(window.rootClasses)
    {
      var saved := window.savedUser;
      if saved.Some? && Truthy(saved.value) {
        match saved.value
        case Json(u) =>
          user := Some(u);
        case Raw(_) =>
          window.savedUser := None;
          user := None;
      }
      loading := false;
    }

    /** `login(email, password)`: on success the user is signed in and stored;
        on failure nothing changes. */
    method Login(email: string, password: string) returns (r: Reply<()>)
      modifies this, window
      ensures r.Success? <==> LoginResult(email, password).Success?
      ensures r.Failure? ==> r.error == InvalidCredentials
      ensures r.Success? ==> user == Some(LoginResult(email, password).value)
                             && window.savedUser == Some(Json(LoginResult(email, password).value))
      ensures r.Failure? ==> user == old(user) && window.savedUser == old(window.savedUser)
      ensures loading == old(loading)
      ensures window.appSettings == old(window.appSettings) && window.customWords == old(window.customWords)
      ensures window.theme == old(window.theme) && window.rootClasses == old(window.rootClasses)
    {
      match LoginResult(email, password)
      case Success(u) =>
        user := Some(u);
        window.savedUser := Some(Json(u));
        r := Success(());
      case Failure(e) =>
        r := Failure(e);
    }

    /** `register(email, password, name)` at clock `now`: on success the new
        user is signed in and stored; on failure nothing changes. */
    method Register(email: string, password: string, name: string, now: nat) returns (r: Reply<()>)
      modifies this, window
      ensures r.Success? <==> RegisterResult(email, password, name, now).Success?
      ensures r.Failure? ==> r.error == InvalidData
      ensures r.Success? ==> user == Some(RegisterResult(email, password, name, now).value)
                             && window.savedUser == Some(Json(RegisterResult(email, password, name, now).value))
      ensures r.Failure? ==> user == old(user) && window.savedUser == old(window.savedUser)
      ensures loading == old(loading)
      ensures window.appSettings == old(window.appSettings) && window.customWords == old(window.customWords)
      ensures window.theme == old(window.theme) && window.rootClasses == old(window.rootClasses)
    {
      match RegisterResult(email, password, name, now)
      case Success(u) =>
        user := Some(u);
        window.savedUser := Some(Json(u));
        r := Success(());
      case Failure(e) =>
        r := Failure(e);
    }

    /** `logout()`: no user, no stored entry; a later restore finds nobody. */
    method Logout()
      modifies this, window
      ensures user == None && window.savedUser == None && loading == old(loading)
      ensures Restored(window.savedUser, user) == (None, None)
      ensures window.appSettings == old(window.appSettings) && window.customWords == old(window.customWords)
      ensures window.theme == old(window.theme) && window.rootClasses == old(window.rootClasses)
    {
      user := None;
      window.savedUser := None;
    }
  }
}
