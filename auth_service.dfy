/** The service layer over the hosted authentication backend: the error-code
    table, how a signed-in account and its profile document become a `User`, and
    register/login/logout, each of which reports failure as a value. Backend
    calls are inputs (`Attempt`s). */
module AuthService {
  import opened Outcomes
  import opened Types
  import opened Text

  const UserNotFoundMessage := "このメールアドレスは登録されていません。"
  const WrongPasswordMessage := "パスワードが間違っています。"
  const EmailInUseMessage := "このメールアドレスは既に使用されています。"
  const WeakPasswordMessage := "パスワードは6文字以上で入力してください。"
  const InvalidEmailMessage := "メールアドレスの形式が正しくありません。"
  const TooManyRequestsMessage := "試行回数が多すぎます。しばらく時間をおいてから再度お試しください。"
  const NetworkFailedMessage := "ネットワークエラーが発生しました。接続を確認してください。"
  const DefaultMessage := "認証エラーが発生しました。しばらく時間をおいてから再度お試しください。"

  /** The error codes the table knows, in the order of the table. */
  const KnownCodes: seq<string> := [
    "auth/user-not-found", "auth/wrong-password", "auth/email-already-in-use", "auth/weak-password",
    "auth/invalid-email", "auth/too-many-requests", "auth/network-request-failed"]

  /** `getAuthErrorMessage`: the message shown for an error code. */
  function AuthErrorMessage(code: string): (msg: string)
    ensures msg != ""
  {
    if code == "auth/user-not-found" then UserNotFoundMessage
    else if code == "auth/wrong-password" then WrongPasswordMessage
    else if code == "auth/email-already-in-use" then EmailInUseMessage
    else if code == "auth/weak-password" then WeakPasswordMessage
    else if code == "auth/invalid-email" then InvalidEmailMessage
    else if code == "auth/too-many-requests" then TooManyRequestsMessage
    else if code == "auth/network-request-failed" then NetworkFailedMessage
    else DefaultMessage
  }

  /** Each known code has a message of its own, none of them the default one,
      and every other code gets the default message. */
  lemma AuthErrorMessageTable(code: string)
    ensures forall i, j :: 0 <= i < j < |KnownCodes| ==> AuthErrorMessage(KnownCodes[i]) != AuthErrorMessage(KnownCodes[j])
    ensures forall i :: 0 <= i < |KnownCodes| ==> AuthErrorMessage(KnownCodes[i]) != DefaultMessage
    ensures code !in KnownCodes ==> AuthErrorMessage(code) == DefaultMessage
  {
  }

  /** The signed-in account as the backend reports it. */
  datatype FirebaseUser = FirebaseUser(uid: string, email: Option<string>, displayName: Option<string>)

  /** The user's profile document; a missing or empty `name` is `""`. */
  datatype UserData = UserData(name: string, homeLocation: Option<HomeLocation>)

  /** `firebaseUser.email?.split('@')[0]`, `""` without an email. */
  function EmailPrefix(fu: FirebaseUser): string
  {
    if fu.email.Some? then BeforeFirst(fu.email.value, '@') else ""
  }

  /** `userData?.name || firebaseUser.displayName || <email prefix> || ''`. */
  function DisplayName(userData: Option<UserData>, fu: FirebaseUser): (name: string)
    ensures userData.Some? && userData.value.name != "" ==> name == userData.value.name
    ensures (userData.None? || userData.value.name == "") && fu.displayName.Some? && fu.displayName.value != ""
            ==> name == fu.displayName.value
    ensures (userData.None? || userData.value.name == "") && (fu.displayName.None? || fu.displayName.value == "")
            ==> name == EmailPrefix(fu)
  {
    var a, b, c := if userData.Some? then userData.value.name else "", fu.displayName.GetOr(""), EmailPrefix(fu);
    assert [c][1..] == [] && FirstNonEmpty([c]) == c;
    assert [b, c][1..] == [c] && FirstNonEmpty([b, c]) == if b != "" then b else c;
    assert [a, b, c][1..] == [b, c];
    FirstNonEmpty([a, b, c])
  }

  /** `mapFirebaseUserToUser(firebaseUser)` once the profile document has been
      read (`None` when it does not exist). */
  function MapUser(fu: FirebaseUser, userData: Option<UserData>): (u: User)
    ensures u.id == fu.uid
    ensures u.email == if fu.email.Some? then fu.email.value else ""
    ensures u.name == DisplayName(userData, fu)
    ensures u.homeLocation == if userData.Some? then userData.value.homeLocation else None
  {
    User(fu.uid, fu.email.GetOr(""), DisplayName(userData, fu),
         if userData.Some? then userData.value.homeLocation else None)
  }

  /** The email prefix is where the email starts and stops just before its first
      `'@'`; an email without `'@'` is its own prefix. */
  lemma EmailPrefixOfEmail(fu: FirebaseUser)
    requires fu.email.Some?
    ensures EmailPrefix(fu) <= fu.email.value && '@' !in EmailPrefix(fu)
    ensures |EmailPrefix(fu)| < |fu.email.value| ==> fu.email.value[|EmailPrefix(fu)|] == '@'
    ensures '@' !in fu.email.value ==> EmailPrefix(fu) == fu.email.value
  {
  }

  /** `mapFirebaseUserToUser` including the read of the profile document, which
      may throw. */
  function MapFirebaseUser(fu: FirebaseUser, read: Attempt<Option<UserData>>): (r: Attempt<User>)
    ensures r.Returned? <==> read.Returned?
    ensures r.Returned? ==> r.value == MapUser(fu, read.value)
    ensures r.Threw? ==> r.code == read.code
  {
    match read
    case Threw(code) => Threw(code)
    case Returned(data) => Returned(MapUser(fu, data))
  }

  /** The first failing step's error, as the `catch` of the service reports it. */
  function Caught<T>(code: string): Reply<T>
  {
    Failure(AuthErrorMessage(code))
  }

  /** `registerUser(email, password, name)`: create the account, set its
      display name, write the profile document, then read it back through
      `mapFirebaseUserToUser`. The first step that throws decides the error. */
  function RegisterUser(email: string, password: string, name: string,
                        create: Attempt<FirebaseUser>, profile: Attempt<()>,
                        save: Attempt<()>, read: Attempt<Option<UserData>>): (r: Reply<User>)
    ensures r.Success? <==> create.Returned? && profile.Returned? && save.Returned? && read.Returned?
    ensures r.Success? ==> r.value == MapUser(create.value.(displayName := Some(name)), read.value)
    ensures create.Threw? ==> r == Failure(AuthErrorMessage(create.code))
    ensures create.Returned? && profile.Threw? ==> r == Failure(AuthErrorMessage(profile.code))
    ensures create.Returned? && profile.Returned? && save.Threw? ==> r == Failure(AuthErrorMessage(save.code))
    ensures create.Returned? && profile.Returned? && save.Returned? && read.Threw? ==>
      r == Failure(AuthErrorMessage(read.code))
  {
    match create
    case Threw(code) => Caught(code)
    case Returned(fu) =>
      match profile
      case Threw(code) => Caught(code)
      case Returned(_) =>
        var named := fu.(displayName := Some(name));
        match save
        case Threw(code) => Caught(code)
        case Returned(_) =>
          match MapFirebaseUser(named, read)
          case Threw(code) => Caught(code)
          case Returned(u) => Success(u)
  }

  /** The name given at registration is the user's name unless the profile
      document read back carries another non-empty name. */
  lemma RegisteredName(email: string, password: string, name: string, fu: FirebaseUser,
                       data: Option<UserData>)
    requires name != ""
    requires data.None? || data.value.name == "" || data.value.name == name
    ensures RegisterUser(email, password, name, Returned(fu), Returned(()), Returned(()), Returned(data))
            == Success(MapUser(fu.(displayName := Some(name)), data))
    ensures MapUser(fu.(displayName := Some(name)), data).name == name
  {
  }

  /** The profile document is written and read through the same error table: a
      document-store error code such as `permission-denied` is reported with the
      default authentication message. */
  lemma StorageErrorsGetDefaultMessage(email: string, password: string, name: string, fu: FirebaseUser)
    ensures RegisterUser(email, password, name, Returned(fu), Returned(()), Threw("permission-denied"), Returned(None))
            == Failure(DefaultMessage)
  {
    AuthErrorMessageTable("permission-denied");
  }

  /** `loginUser(email, password)`. */
  function LoginUser(email: string, password: string, signIn: Attempt<FirebaseUser>,
                     read: Attempt<Option<UserData>>): (r: Reply<User>)
    ensures r.Success? <==> signIn.Returned? && read.Returned?
    ensures r.Success? ==> r.value == MapUser(signIn.value, read.value) && r.value.id == signIn.value.uid
    ensures signIn.Threw? ==> r == Failure(AuthErrorMessage(signIn.code))
    ensures signIn.Returned? && read.Threw? ==> r == Failure(AuthErrorMessage(read.code))
  {
    match signIn
    case Threw(code) => Caught(code)
    case Returned(fu) =>
      match MapFirebaseUser(fu, read)
      case Threw(code) => Caught(code)
      case Returned(u) => Success(u)
  }

  /** `logoutUser()`. */
  function LogoutUser(signOut: Attempt<()>): (r: Reply<()>)
    ensures r.Success? <==> signOut.Returned?
    ensures r.Failure? ==> r.error == AuthErrorMessage(signOut.code)
  {
    match signOut
    case Threw(code) => Caught(code)
    case Returned(_) => Success(())
  }

  /** The value `subscribeToAuthState` hands its callback for one change of the
      signed-in account: `null` when there is none or when mapping it throws. */
  function AuthStateValue(fu: Option<FirebaseUser>, read: Attempt<Option<UserData>>): (r: Option<User>)
    ensures r.Some? <==> fu.Some? && read.Returned?
    ensures r.Some? ==> r.value == MapUser(fu.value, read.value)
  {
    if fu.None? then None
    else match MapFirebaseUser(fu.value, read)
      case Threw(_) => None
      case Returned(u) => Some(u)
  }
}
