/**
 * The client's local account and session store: AsyncStorage as a map from
 * keys to stored values, plus the provider's `user` and `loading` state.
 * Each operation is a function from the old state to its answer and the new
 * state; AuthProvider runs the same steps one write at a time.
 */
module Auth {
  import opened Common
  import Js

  /**
   * The object written with JSON.stringify: `{id, email, nome, token}`, and
   * for an account record also `password`.
   */
  datatype UserRecord = UserRecord(id: int, email: string, nome: string, token: string, password: Option<string>)

  /** A stored string: plain text, or the JSON text of a user object. */
  datatype Stored = Text(text: string) | Json(record: UserRecord)

  type Storage = map<string, Stored>

  /** `{success: true}` or `{success: false, message}`. */
  datatype AuthResult = Succeeded | Failed(message: string)

  /** Everything the provider owns: the store, `user` and `loading`. */
  datatype Session = Session(storage: Storage, user: Option<UserRecord>, loading: bool)

  const TokenKey := "userToken"
  const UserKey := "user"
  const LastEmailKey := "lastEmail"

  const FillAllFields := "Preencha todos os campos"
  const EmailTaken := "Email já cadastrado"
  const CredentialsRequired := "Email e senha obrigatórios"
  const WrongCredentials := "Email ou senha incorretos"
  const SignInError := "Erro ao fazer login"

  /** The key of the account record of an email. */
  function AccountKey(email: string): string {
    "user_" + email
  }

  /** `token_${Date.now()}`, with the clock reading passed in. */
  function Token(now: Js.JsInt): string {
    "token_" + Js.NumberToString(now)
  }

  /** getItem answered with a truthy string: the key is present and its text is not empty. */
  predicate Present(st: Storage, key: string) {
    key in st && (st[key].Text? ==> st[key].text != "")
  }

  /** Distinct clock readings give distinct tokens. */
  lemma TokenDeterminesTime(a: Js.JsInt, b: Js.JsInt)
    ensures Token(a)[..6] == "token_"
    ensures Token(a) == Token(b) ==> a == b
  {
    if Token(a) == Token(b) {
      assert Js.NumberToString(a) == Token(a)[6..] == Token(b)[6..] == Js.NumberToString(b);
      Js.ParseIntOfNumberToString(a);
      Js.ParseIntOfNumberToString(b);
    }
  }

  /** The text of an integer, as JSON.stringify writes it. */
  function IntegerText(n: int): string {
    if n < 0 then "-" + Js.Decimal(-n) else Js.Decimal(n)
  }

  /** A JSON string literal (escaping is not modelled). */
  function Quoted(t: string): string {
    "\"" + t + "\""
  }

  /** JSON.stringify of a user object, fields in the order they are written. */
  function JsonText(r: UserRecord): (j: string)
    ensures |j| >= 2 && j[0] == '{' && j[|j| - 1] == '}'
  {
    var password := match r.password
      case None => ""
      case Some(p) => ",\"password\":" + Quoted(p);
    "{" + "\"id\":" + IntegerText(r.id) + ",\"email\":" + Quoted(r.email) + ",\"nome\":" + Quoted(r.nome)
      + ",\"token\":" + Quoted(r.token) + password + "}"
  }

  /** AsyncStorage.getItem: null for a missing key, otherwise the stored string. */
  function GetItem(st: Storage, key: string): Js.JsValue {
    if key !in st then Js.Null
    else match st[key]
      case Text(t) => Js.Str(t)
      case Json(record) => Js.Str(JsonText(record))
  }

  /** `if (await getItem(key))` holds exactly when the key is Present. */
  lemma PresentIsTruthyItem(st: Storage, key: string)
    ensures Present(st, key) <==> Js.Truthy(GetItem(st, key))
  {
    if key in st && st[key].Json? {
      assert JsonText(st[key].record)[0] == '{';
    }
  }

  /** The account keys are distinct from the session keys and from each other. */
  lemma AccountKeysAreSeparate(email: string, other: string)
    ensures AccountKey(email) != TokenKey
    ensures AccountKey(email) != UserKey
    ensures AccountKey(email) != LastEmailKey
    ensures AccountKey(email) == AccountKey(other) ==> email == other
  {
    assert AccountKey(email)[4] == '_';
    assert TokenKey[4] == 'T';
    assert |UserKey| == 4;
    assert LastEmailKey[0] == 'l';
    if AccountKey(email) == AccountKey(other) {
      assert email == AccountKey(email)[5..] == AccountKey(other)[5..] == other;
    }
  }

  /** `bootstrapAsync`: restore `user` when a token and a user object are stored. */
  function Bootstrapped(s: Session): (r: Session)
    ensures !r.loading
    ensures r.storage == s.storage
    ensures r.user != s.user ==> Present(s.storage, TokenKey) && Present(s.storage, UserKey)
    ensures Present(s.storage, TokenKey) && UserKey in s.storage && s.storage[UserKey].Json? ==>
      r.user == Some(s.storage[UserKey].record)
  {
    var user :=
      if Present(s.storage, TokenKey) && Present(s.storage, UserKey) then
        match s.storage[UserKey]
        case Json(record) => Some(record)
        case Text(_) => s.user  // JSON.parse throws; the catch leaves `user` alone
      else s.user;
    Session(s.storage, user, false)
  }

  /** `signUp(email, password, nome)`, with `Date.now()` passed as `now`. */
  function SignUpOutcome(s: Session, email: string, password: string, nome: string, now: Js.JsInt): (r: (AuthResult, Session))
    ensures r.0.Failed? ==> r.1 == s
    ensures r.0 == Failed(FillAllFields) <==> email == "" || password == "" || nome == ""
    ensures r.0 == Failed(EmailTaken)
            <==> email != "" && password != "" && nome != "" && Present(s.storage, AccountKey(email))
    ensures r.0.Succeeded?
            <==> email != "" && password != "" && nome != "" && !Present(s.storage, AccountKey(email))
    ensures r.0.Succeeded? ==>
      var u := UserRecord(1, email, nome, Token(now), None);
      && r.1.user == Some(u)
      && r.1.loading == s.loading
      && r.1.storage.Keys == s.storage.Keys + {TokenKey, UserKey, LastEmailKey, AccountKey(email)}
      && r.1.storage[TokenKey] == Text(Token(now))
      && r.1.storage[UserKey] == Json(u)
      && r.1.storage[LastEmailKey] == Text(email)
      && r.1.storage[AccountKey(email)] == Json(u.(password := Some(password)))
      && forall k :: k in s.storage && k !in {TokenKey, UserKey, LastEmailKey, AccountKey(email)} ==>
           r.1.storage[k] == s.storage[k]
  {
    AccountKeysAreSeparate(email, email);
    if email == "" || password == "" || nome == "" then
      (Failed(FillAllFields), s)
    else if Present(s.storage, AccountKey(email)) then
      (Failed(EmailTaken), s)
    else
      var token := Token(now);
      var userData := UserRecord(1, email, nome, token, None);
      var st := s.storage[TokenKey := Text(token)]
                         [UserKey := Json(userData)]
                         [LastEmailKey := Text(email)]
                         [AccountKey(email) := Json(userData.(password := Some(password)))];
      (Succeeded, Session(st, Some(userData), s.loading))
  }

  /** `signIn(email, password)`, with `Date.now()` passed as `now`. */
  function SignInOutcome(s: Session, email: string, password: string, now: Js.JsInt): (r: (AuthResult, Session))
    ensures r.0.Failed? ==> r.1 == s
    ensures r.0 == Failed(CredentialsRequired) <==> email == "" || password == ""
    ensures r.0.Succeeded? <==>
      && email != "" && password != ""
      && AccountKey(email) in s.storage
      && s.storage[AccountKey(email)].Json?
      && s.storage[AccountKey(email)].record.password == Some(password)
    ensures r.0.Succeeded? ==>
      var a := s.storage[AccountKey(email)].record;
      var u := UserRecord(a.id, a.email, a.nome, Token(now), None);
      && r.1.user == Some(u)
      && r.1.loading == s.loading
      && r.1.storage.Keys == s.storage.Keys + {TokenKey, UserKey, LastEmailKey}
      && r.1.storage[TokenKey] == Text(Token(now))
      && r.1.storage[UserKey] == Json(u)
      && r.1.storage[LastEmailKey] == Text(email)
      && forall k :: k in s.storage && k !in {TokenKey, UserKey, LastEmailKey} ==>
           r.1.storage[k] == s.storage[k]
  {
    if email == "" || password == "" then
      (Failed(CredentialsRequired), s)
    else if !Present(s.storage, AccountKey(email)) then
      (Failed(WrongCredentials), s)
    else
      match s.storage[AccountKey(email)]
      case Text(_) =>
        (Failed(SignInError), s)  // JSON.parse throws; the catch answers with a generic error
      case Json(usuario) =>
        if usuario.password != Some(password) then
          (Failed(WrongCredentials), s)
        else
          var token := Token(now);
          var userData := UserRecord(usuario.id, usuario.email, usuario.nome, token, None);
          var st := s.storage[TokenKey := Text(token)]
                             [UserKey := Json(userData)]
                             [LastEmailKey := Text(email)];
          (Succeeded, Session(st, Some(userData), s.loading))
  }

  /** `signOut`: drop the session keys and `user`; accounts and `lastEmail` stay. */
  function SignedOut(s: Session): (r: Session)
    ensures r.user == None && r.loading == s.loading
    ensures r.storage.Keys == s.storage.Keys - {TokenKey, UserKey}
    ensures forall k :: k in r.storage ==> r.storage[k] == s.storage[k]
  {
    Session(s.storage - {TokenKey} - {UserKey}, None, s.loading)
  }

  // ---------------------------------------------------------------------------
  // The provider

  class AuthProvider {
    var storage: Storage
    var user: Option<UserRecord>
    var loading: bool

    function State(): Session
      reads this
    {
      Session(storage, user, loading)
    }

    /** The provider mounts over what AsyncStorage already holds, loading, with no user. */
    constructor (persisted: Storage)
      ensures State() == Session(persisted, None, true)
    {
      storage := persisted;
      user := None;
      loading := true;
    }

    method BootstrapAsync()
      modifies this
      ensures State() == Bootstrapped(old(State()))
    {
      var userToken := if TokenKey in storage then Some(storage[TokenKey]) else None;
      if userToken.Some? && Present(storage, TokenKey) {
        var userData := if UserKey in storage then Some(storage[UserKey]) else None;
        if userData.Some? && Present(storage, UserKey) {
          match userData.value
          case Json(record) =>
            user := Some(record);
          case Text(_) =>
        }
      }
      loading := false;
    }

    method SignUp(email: string, password: string, nome: string, now: Js.JsInt) returns (result: AuthResult)
      modifies this
      ensures (result, State()) == SignUpOutcome(old(State()), email, password, nome, now)
    {
      if email == "" || password == "" || nome == "" {
        return Failed(FillAllFields);
      }
      if Present(storage, AccountKey(email)) {
        return Failed(EmailTaken);
      }
      var token := Token(now);
      var userData := UserRecord(1, email, nome, token, None);
      storage := storage[TokenKey := Text(token)];
      storage := storage[UserKey := Json(userData)];
      storage := storage[LastEmailKey := Text(email)];
      storage := storage[AccountKey(email) := Json(userData.(password := Some(password)))];
      user := Some(userData);
      return Succeeded;
    }

    method SignIn(email: string, password: string, now: Js.JsInt) returns (result: AuthResult)
      modifies this
      ensures (result, State()) == SignInOutcome(old(State()), email, password, now)
    {
      if email == "" || password == "" {
        return Failed(CredentialsRequired);
      }
      if !Present(storage, AccountKey(email)) {
        return Failed(WrongCredentials);
      }
      if storage[AccountKey(email)].Text? {
        return Failed(SignInError);
      }
      var usuario := storage[AccountKey(email)].record;
      if usuario.password != Some(password) {
        return Failed(WrongCredentials);
      }
      var token := Token(now);
      var userData := UserRecord(usuario.id, usuario.email, usuario.nome, token, None);
      storage := storage[TokenKey := Text(token)];
      storage := storage[UserKey := Json(userData)];
      storage := storage[LastEmailKey := Text(email)];
      user := Some(userData);
      return Succeeded;
    }

    method SignOut()
      modifies this
      ensures State() == SignedOut(old(State()))
    {
      storage := storage - {TokenKey};
      storage := storage - {UserKey};
      user := None;
    }
  }

  // ---------------------------------------------------------------------------
  // Properties

  /**
   * What this code stores keeps a shape: the record under `user_<email>` is an
   * account of that email with a password, and the record under `user` has
   * no password.
   */
  ghost predicate WellFormed(st: Storage) {
    && (forall e :: AccountKey(e) in st ==>
          st[AccountKey(e)].Json? && st[AccountKey(e)].record.email == e
          && st[AccountKey(e)].record.password.Some?)
    && (UserKey in st ==> st[UserKey].Json? && st[UserKey].record.password == None)
  }

  /** The session's `user` never carries a password. */
  ghost predicate Consistent(s: Session) {
    WellFormed(s.storage) && (s.user.Some? ==> s.user.value.password == None)
  }

  lemma SignUpPreservesConsistent(s: Session, email: string, password: string, nome: string, now: Js.JsInt)
    requires Consistent(s)
    ensures Consistent(SignUpOutcome(s, email, password, nome, now).1)
  {
    var r := SignUpOutcome(s, email, password, nome, now);
    if r.0.Succeeded? {
      forall e | AccountKey(e) in r.1.storage
        ensures r.1.storage[AccountKey(e)].Json? && r.1.storage[AccountKey(e)].record.email == e
        ensures r.1.storage[AccountKey(e)].record.password.Some?
      {
        AccountKeysAreSeparate(e, email);
      }
    }
  }

  lemma SignInPreservesConsistent(s: Session, email: string, password: string, now: Js.JsInt)
    requires Consistent(s)
    ensures Consistent(SignInOutcome(s, email, password, now).1)
  {
    var r := SignInOutcome(s, email, password, now);
    if r.0.Succeeded? {
      forall e | AccountKey(e) in r.1.storage
        ensures r.1.storage[AccountKey(e)].Json? && r.1.storage[AccountKey(e)].record.email == e
        ensures r.1.storage[AccountKey(e)].record.password.Some?
      {
        AccountKeysAreSeparate(e, email);
      }
    }
  }

  lemma SignOutPreservesConsistent(s: Session)
    requires Consistent(s)
    ensures Consistent(SignedOut(s))
  {
    var r := SignedOut(s);
    forall e | AccountKey(e) in r.storage
      ensures r.storage[AccountKey(e)].Json? && r.storage[AccountKey(e)].record.email == e
      ensures r.storage[AccountKey(e)].record.password.Some?
    {
      assert AccountKey(e) in s.storage;
    }
  }

  lemma BootstrapPreservesConsistent(s: Session)
    requires Consistent(s)
    ensures Consistent(Bootstrapped(s))
  {
  }

  /** On a consistent store, a successful signIn sets `user` to the email typed in. */
  lemma SignInUserHasTypedEmail(s: Session, email: string, password: string, now: Js.JsInt)
    requires Consistent(s)
    requires SignInOutcome(s, email, password, now).0.Succeeded?
    ensures SignInOutcome(s, email, password, now).1.user.value.email == email
  {
  }

  /** An unknown email and a wrong password get the same answer, and change nothing. */
  lemma SignInHidesWhichCredentialFailed(s: Session, email: string, password: string, now: Js.JsInt)
    requires Consistent(s)
    requires email != "" && password != ""
    requires AccountKey(email) !in s.storage
             || s.storage[AccountKey(email)].record.password != Some(password)
    ensures SignInOutcome(s, email, password, now) == (Failed(WrongCredentials), s)
  {
  }

  /** After a successful signUp, signIn with the same email and password succeeds as the same user. */
  lemma SignUpThenSignIn(s: Session, email: string, password: string, nome: string, t1: Js.JsInt, t2: Js.JsInt)
    requires SignUpOutcome(s, email, password, nome, t1).0.Succeeded?
    ensures var s1 := SignUpOutcome(s, email, password, nome, t1).1;
            var r := SignInOutcome(s1, email, password, t2);
            && r.0.Succeeded?
            && r.1.user == Some(UserRecord(1, email, nome, Token(t2), None))
  {
  }

  /** signOut keeps the account, so the same credentials still sign in afterwards. */
  lemma SignOutKeepsAccount(s: Session, email: string, password: string, now: Js.JsInt)
    ensures SignInOutcome(SignedOut(s), email, password, now).0 == SignInOutcome(s, email, password, now).0
    ensures SignInOutcome(s, email, password, now).0.Succeeded? ==>
              SignInOutcome(SignedOut(s), email, password, now).1.user == SignInOutcome(s, email, password, now).1.user
  {
    AccountKeysAreSeparate(email, email);
  }

  /** signUp, then signOut, then signIn with the same credentials: signed in again as that user. */
  lemma SignUpSignOutSignIn(s: Session, email: string, password: string, nome: string, t1: Js.JsInt, t2: Js.JsInt)
    requires SignUpOutcome(s, email, password, nome, t1).0.Succeeded?
    ensures var s2 := SignedOut(SignUpOutcome(s, email, password, nome, t1).1);
            var r := SignInOutcome(s2, email, password, t2);
            && r.0.Succeeded?
            && r.1.user == Some(UserRecord(1, email, nome, Token(t2), None))
  {
    var s1 := SignUpOutcome(s, email, password, nome, t1).1;
    SignUpThenSignIn(s, email, password, nome, t1, t2);
    SignOutKeepsAccount(s1, email, password, t2);
  }

  /** A session started by signUp is restored by the bootstrap of the next launch. */
  lemma SignUpSurvivesRestart(s: Session, email: string, password: string, nome: string, now: Js.JsInt)
    requires SignUpOutcome(s, email, password, nome, now).0.Succeeded?
    ensures var s1 := SignUpOutcome(s, email, password, nome, now).1;
            var relaunched := Session(s1.storage, None, true);
            Bootstrapped(relaunched) == Session(s1.storage, s1.user, false)
  {
    AccountKeysAreSeparate(email, email);
  }

  /** After signOut, the next launch restores no user. */
  lemma SignOutSurvivesRestart(s: Session)
    ensures Bootstrapped(Session(SignedOut(s).storage, None, true)).user == None
  {
  }
}
