/**
 * The account store and session manager (`UrDesireAuth`).  Accounts live in
 * the durable tier under `urdesire_user_<pseudonyme>`; the current-user
 * entry `urdesire_current_user`, a bare string in either tier, is written to
 * the durable tier when the user asks to be remembered and to the session
 * tier otherwise.
 *
 * The functions below give each operation's effect on the two tiers and on
 * `currentUser`; the class `UrDesireAuth` performs the same operations step
 * by step on the storage objects and is proved to agree with them.
 */
module Auth {
  import opened Records
  import opened Storage
  import opened Text

  /** The two tiers and the controller's cached `currentUser`. */
  datatype AuthState = AuthState(local: Store, session: Store, current: Option<User>)

  datatype LoginError = EmptyField | ShortPseudonyme | UnknownPseudonyme | WrongPassword

  datatype RegisterError =
    | MissingField
    | ConditionsNotAccepted
    | PasswordTooShort
    | PasswordMismatch
    | PseudonymeTooShort
    | PseudonymeTaken

  /** `saveUser`: the account is stored under its own key and no other key changes. */
  function WithUser(m: Store, u: User): (m': Store)
    ensures UserKey(u.pseudonyme) in m' && m'[UserKey(u.pseudonyme)] == UserDoc(u)
    ensures forall k :: k != UserKey(u.pseudonyme) ==> (k in m' <==> k in m) && (k in m ==> m'[k] == m[k])
  {
    m[UserKey(u.pseudonyme) := UserDoc(u)]
  }

  /**
   * The current-user entry `checkCurrentUser` follows: the durable tier's when it is a
   * non-empty string, else the session tier's ("" when neither is set).
   */
  function CurrentEntry(s: AuthState): string {
    var durable := RawAt(s.local, CurrentUserKey);
    if durable != "" then durable else RawAt(s.session, CurrentUserKey)
  }

  /**
   * `loginUser(user, remember)`: the user becomes current, the current-user entry goes
   * to exactly one tier, and the account is saved again with `lastLogin`
   * set to `now` (the object `currentUser` refers to is the same one, so it
   * carries the new `lastLogin` too).
   */
  function AfterLoginUser(s: AuthState, u: User, remember: bool, now: int): AuthState {
    var u' := u.(lastLogin := now);
    var local := if remember then s.local[CurrentUserKey := Raw(u.pseudonyme)] else s.local;
    var session := if remember then s.session else s.session[CurrentUserKey := Raw(u.pseudonyme)];
    AuthState(WithUser(local, u'), session, Some(u'))
  }

  /** `logoutUser`: the current-user entry is removed from both tiers and nobody is current. */
  function AfterLogout(s: AuthState): AuthState {
    AuthState(s.local - {CurrentUserKey}, s.session - {CurrentUserKey}, None)
  }

  /**
   * `checkCurrentUser`: when a current-user entry is set, `currentUser` becomes the
   * account it names (null when there is none); with no current-user entry nothing
   * changes.  Storage is only read.
   */
  function AfterCheckCurrentUser(s: AuthState): (s': AuthState)
    ensures s'.local == s.local && s'.session == s.session
    ensures CurrentEntry(s) == "" ==> s' == s
    ensures CurrentEntry(s) != "" ==> s'.current == UserAt(s.local, CurrentEntry(s))
  {
    var p := CurrentEntry(s);
    if p != "" then s.(current := UserAt(s.local, p)) else s
  }

  /** `isLoggedIn()`. */
  predicate IsLoggedIn(s: AuthState) {
    s.current != None
  }

  /**
   * The checks `handleLogin` makes before it looks anything up, in order:
   * both fields filled, then a pseudonyme (already trimmed) of at least
   * three characters.
   */
  function LoginCheck(p: string, password: string): (r: Option<LoginError>)
    ensures r == Some(EmptyField) <==> p == "" || password == ""
    ensures r == Some(ShortPseudonyme) <==> p != "" && password != "" && JsLength(p) < 3
    ensures r == None <==> p != "" && password != "" && JsLength(p) >= 3
  {
    if p == "" || password == "" then Some(EmptyField)
    else if JsLength(p) < 3 then Some(ShortPseudonyme)
    else None
  }

  /**
   * The body of `handleLogin`'s timer: look the account up, compare the
   * password exactly, and log in on a match.
   */
  function LoginLookup(s: AuthState, p: string, password: string, remember: bool, now: int): (AuthState, Outcome<LoginError>) {
    var k := UserKey(p);
    if k !in s.local then (s, Refused(UnknownPseudonyme))
    else if !(s.local[k].UserDoc? && s.local[k].user.password == password) then (s, Refused(WrongPassword))
    else (AfterLoginUser(s, s.local[k].user, remember, now), Done)
  }

  /** `handleLogin`, with the timer's body run as the next step. */
  function AfterLogin(s: AuthState, pseudonymeField: string, password: string, remember: bool, now: int): (r: (AuthState, Outcome<LoginError>)) {
    var p := Trim(pseudonymeField);
    match LoginCheck(p, password)
    case Some(e) => (s, Refused(e))
    case None => LoginLookup(s, p, password, remember, now)
  }

  predicate AnyBlank(p: string, password: string, confirm: string, question: string, reponse: string) {
    p == "" || password == "" || confirm == "" || question == "" || reponse == ""
  }

  /**
   * The six checks of `handleRegister`, in the order the page makes them;
   * the first that fails is the one reported.  `taken` says whether an
   * account is stored under the pseudonyme.
   */
  function RegisterCheck(p: string, password: string, confirm: string, question: string, reponse: string,
                         conditions: bool, taken: bool): (r: Option<RegisterError>)
    ensures r == Some(MissingField) <==> AnyBlank(p, password, confirm, question, reponse)
    ensures r == Some(ConditionsNotAccepted) <==> !AnyBlank(p, password, confirm, question, reponse) && !conditions
    ensures r == Some(PasswordTooShort) <==>
      !AnyBlank(p, password, confirm, question, reponse) && conditions && JsLength(password) < 6
    ensures r == Some(PasswordMismatch) <==>
      !AnyBlank(p, password, confirm, question, reponse) && conditions && JsLength(password) >= 6 && password != confirm
    ensures r == Some(PseudonymeTooShort) <==>
      !AnyBlank(p, password, confirm, question, reponse) && conditions && JsLength(password) >= 6 && password == confirm
      && JsLength(p) < 3
    ensures r == Some(PseudonymeTaken) <==>
      !AnyBlank(p, password, confirm, question, reponse) && conditions && JsLength(password) >= 6 && password == confirm
      && JsLength(p) >= 3 && taken
    ensures r == None <==>
      !AnyBlank(p, password, confirm, question, reponse) && conditions && JsLength(password) >= 6 && password == confirm
      && JsLength(p) >= 3 && !taken
  {
    if AnyBlank(p, password, confirm, question, reponse) then Some(MissingField)
    else if !conditions then Some(ConditionsNotAccepted)
    else if JsLength(password) < 6 then Some(PasswordTooShort)
    else if password != confirm then Some(PasswordMismatch)
    else if JsLength(p) < 3 then Some(PseudonymeTooShort)
    else if taken then Some(PseudonymeTaken)
    else None
  }

  /** The account `handleRegister`'s timer creates. */
  function NewUser(p: string, password: string, question: string, reponse: string, now: int): User {
    User(p, password, question, reponse, now, now)
  }

  /** The body of `handleRegister`'s timer: save the account, then log in with remember = true. */
  function CreateAccount(s: AuthState, p: string, password: string, question: string, reponse: string, now: int): AuthState {
    var u := NewUser(p, password, question, reponse, now);
    AfterLoginUser(s.(local := WithUser(s.local, u)), u, true, now)
  }

  /** `handleRegister`, with the timer's body run as the next step. */
  function AfterRegister(s: AuthState, pseudonymeField: string, password: string, confirm: string, question: string,
                         reponseField: string, conditions: bool, now: int): (AuthState, Outcome<RegisterError>) {
    var p := Trim(pseudonymeField);
    var reponse := Trim(reponseField);
    match RegisterCheck(p, password, confirm, question, reponse, conditions, UserKey(p) in s.local)
    case Some(e) => (s, Refused(e))
    case None => (CreateAccount(s, p, password, question, reponse, now), Done)
  }

  // --- Properties of the account store ---

  /** `saveUser` then `getUserByPseudonyme`: the saved account comes back, and every other account is as it was. */
  lemma SaveThenGet(m: Store, u: User, q: string)
    ensures UserAt(WithUser(m, u), q) == if q == u.pseudonyme then Some(u) else UserAt(m, q)
  {
    UserKeyInjective(q, u.pseudonyme);
  }

  /** The current-user entry lands in exactly the tier the remember flag picks; the other tier is untouched. */
  lemma LoginUserTiers(s: AuthState, u: User, remember: bool, now: int)
    ensures var s' := AfterLoginUser(s, u, remember, now);
      && (remember ==> RawAt(s'.local, CurrentUserKey) == u.pseudonyme && s'.session == s.session)
      && (!remember ==> RawAt(s'.session, CurrentUserKey) == u.pseudonyme
                        && RawAt(s'.local, CurrentUserKey) == RawAt(s.local, CurrentUserKey))
      && s'.current == Some(u.(lastLogin := now))
      && UserAt(s'.local, u.pseudonyme) == Some(u.(lastLogin := now))
  {
    UserKeyShape(u.pseudonyme);
    assert UserKey(u.pseudonyme) != CurrentUserKey by {
      assert UserKey(u.pseudonyme)[9] == 'u' && CurrentUserKey[9] == 'c';
    }
  }

  /** `loginUser` re-saves the account with only `lastLogin` changed, and touches no other account. */
  lemma LoginUserResavesOnlyLastLogin(s: AuthState, u: User, remember: bool, now: int, q: string)
    requires q != u.pseudonyme
    ensures UserAt(AfterLoginUser(s, u, remember, now).local, q) == UserAt(s.local, q)
  {
    var local := if remember then s.local[CurrentUserKey := Raw(u.pseudonyme)] else s.local;
    SaveThenGet(local, u.(lastLogin := now), q);
    UserKeyShape(q);
    assert UserKey(q) != CurrentUserKey by {
      assert UserKey(q)[9] == 'u' && CurrentUserKey[9] == 'c';
    }
  }

  /** After `logoutUser` neither tier holds a current-user entry, nobody is logged in, and a restart restores nobody. */
  lemma LogoutClears(s: AuthState)
    ensures CurrentUserKey !in AfterLogout(s).local && CurrentUserKey !in AfterLogout(s).session
    ensures !IsLoggedIn(AfterLogout(s))
    ensures !IsLoggedIn(AfterCheckCurrentUser(AfterLogout(s)))
  {
  }

  /** On start-up the durable current-user entry wins whatever the session tier holds. */
  lemma RestorePrefersDurable(s: AuthState, sessionTier: Store)
    requires RawAt(s.local, CurrentUserKey) != ""
    ensures AfterCheckCurrentUser(s).current == AfterCheckCurrentUser(s.(session := sessionTier)).current
    ensures AfterCheckCurrentUser(s).current == UserAt(s.local, RawAt(s.local, CurrentUserKey))
  {
  }

  /**
   * A login survives a page reload (a fresh controller with `currentUser`
   * null): the restored user is the one who logged in, provided no other
   * durable current-user entry outranks a session-only login.
   */
  lemma LoginThenRestore(s: AuthState, u: User, remember: bool, now: int)
    requires u.pseudonyme != ""
    requires remember || RawAt(s.local, CurrentUserKey) == ""
    ensures AfterCheckCurrentUser(AfterLoginUser(s, u, remember, now).(current := None)).current
            == Some(u.(lastLogin := now))
  {
    LoginUserTiers(s, u, remember, now);
  }

  /**
   * The tiers are not kept exclusive across logins: a session-only login
   * leaves an older durable current-user entry in place, and on reload that older
   * current-user entry is the one restored.
   */
  lemma StaleDurableEntryWins(s: AuthState, u: User, now: int)
    requires RawAt(s.local, CurrentUserKey) != "" && RawAt(s.local, CurrentUserKey) != u.pseudonyme
    ensures var s' := AfterCheckCurrentUser(AfterLoginUser(s, u, false, now).(current := None));
      s'.current == UserAt(s.local, RawAt(s.local, CurrentUserKey))
  {
    var v := RawAt(s.local, CurrentUserKey);
    LoginUserTiers(s, u, false, now);
    SaveThenGet(s.local, u.(lastLogin := now), v);
  }

  /** Any refused login leaves both tiers and `currentUser` as they were. */
  lemma RefusedLoginChangesNothing(s: AuthState, field: string, password: string, remember: bool, now: int)
    requires AfterLogin(s, field, password, remember, now).1.Refused?
    ensures AfterLogin(s, field, password, remember, now).0 == s
  {
  }

  /** The validation errors of `handleLogin` do not depend on what is stored. */
  lemma LoginValidationPrecedesLookup(s: AuthState, t: AuthState, field: string, password: string, remember: bool, now: int)
    requires LoginCheck(Trim(field), password).Some?
    ensures AfterLogin(s, field, password, remember, now).1 == AfterLogin(t, field, password, remember, now).1
  {
  }

  /**
   * A login succeeds exactly when the checks pass, an account is stored
   * under the trimmed pseudonyme and its password is the one typed.
   */
  lemma LoginSucceedsIff(s: AuthState, field: string, password: string, remember: bool, now: int)
    requires WellTyped(s.local)
    ensures var p := Trim(field);
      AfterLogin(s, field, password, remember, now).1 == Done <==>
        LoginCheck(p, password) == None && UserAt(s.local, p).Some? && UserAt(s.local, p).value.password == password
  {
    UserAtMeansPresent(s.local, Trim(field));
  }

  /** A login is refused as an unknown pseudonyme exactly when the checks pass and no account is stored under it. */
  lemma LoginUnknownIff(s: AuthState, field: string, password: string, remember: bool, now: int)
    requires WellTyped(s.local)
    ensures var p := Trim(field);
      AfterLogin(s, field, password, remember, now).1 == Refused(UnknownPseudonyme) <==>
        LoginCheck(p, password) == None && UserAt(s.local, p).None?
  {
    UserAtMeansPresent(s.local, Trim(field));
  }

  /**
   * A login is refused for a wrong password exactly when the checks pass,
   * an account is stored under the pseudonyme and its password differs
   * from the one typed.
   */
  lemma LoginWrongPasswordIff(s: AuthState, field: string, password: string, remember: bool, now: int)
    requires WellTyped(s.local)
    ensures var p := Trim(field);
      AfterLogin(s, field, password, remember, now).1 == Refused(WrongPassword) <==>
        LoginCheck(p, password) == None && UserAt(s.local, p).Some? && UserAt(s.local, p).value.password != password
  {
    UserAtMeansPresent(s.local, Trim(field));
  }

  /** Any refused registration leaves both tiers and `currentUser` as they were. */
  lemma RefusedRegistrationChangesNothing(s: AuthState, field: string, password: string, confirm: string,
                                          question: string, reponseField: string, conditions: bool, now: int)
    requires AfterRegister(s, field, password, confirm, question, reponseField, conditions, now).1.Refused?
    ensures AfterRegister(s, field, password, confirm, question, reponseField, conditions, now).0 == s
  {
  }

  /**
   * A successful registration stores an account made of the inputs, points
   * the durable tier at it, leaves the session tier alone and makes it current.
   */
  lemma RegistrationStoresInputs(s: AuthState, field: string, password: string, confirm: string,
                                 question: string, reponseField: string, conditions: bool, now: int)
    requires AfterRegister(s, field, password, confirm, question, reponseField, conditions, now).1 == Done
    ensures var s' := AfterRegister(s, field, password, confirm, question, reponseField, conditions, now).0;
      var u := User(Trim(field), password, question, Trim(reponseField), now, now);
      && UserAt(s'.local, Trim(field)) == Some(u)
      && RawAt(s'.local, CurrentUserKey) == Trim(field)
      && s'.session == s.session
      && s'.current == Some(u)
  {
    var p := Trim(field);
    var u := NewUser(p, password, question, Trim(reponseField), now);
    LoginUserTiers(s.(local := WithUser(s.local, u)), u, true, now);
  }

  /** Registering and then logging in with the same pseudonyme and password succeeds for that pseudonyme. */
  lemma RegisterThenLogin(s: AuthState, field: string, password: string, confirm: string, question: string,
                          reponseField: string, conditions: bool, now: int, remember: bool, later: int)
    requires AfterRegister(s, field, password, confirm, question, reponseField, conditions, now).1 == Done
    ensures var s' := AfterRegister(s, field, password, confirm, question, reponseField, conditions, now).0;
      var r := AfterLogin(s', field, password, remember, later);
      r.1 == Done && r.0.current.Some? && r.0.current.value.pseudonyme == Trim(field)
  {
    var p := Trim(field);
    var s' := AfterRegister(s, field, password, confirm, question, reponseField, conditions, now).0;
    RegistrationStoresInputs(s, field, password, confirm, question, reponseField, conditions, now);
    UserKeyShape(p);
    assert UserKey(p) in s'.local && s'.local[UserKey(p)].UserDoc?;
  }

  /** A second registration under a taken pseudonyme is refused as taken and changes nothing. */
  lemma RegisterTwiceRefused(s: AuthState, field: string, password: string, confirm: string, question: string,
                             reponseField: string, conditions: bool, now: int, later: int)
    requires AfterRegister(s, field, password, confirm, question, reponseField, conditions, now).1 == Done
    ensures var s' := AfterRegister(s, field, password, confirm, question, reponseField, conditions, now).0;
      AfterRegister(s', field, password, confirm, question, reponseField, conditions, later) == (s', Refused(PseudonymeTaken))
  {
    RegistrationStoresInputs(s, field, password, confirm, question, reponseField, conditions, now);
  }

  /** The controller: its cached current user and the two storage tiers it writes. */
  class UrDesireAuth {
    var currentUser: Option<User>
    const local: WebStorage
    const session: WebStorage

    ghost predicate Valid()
      reads this, local, session
    {
      local != session && local.Valid() && session.Valid()
    }

    function State(): AuthState
      reads this, local, session
    {
      AuthState(local.items, session.items, currentUser)
    }

    /** `new UrDesireAuth()`: starts with nobody current, then restores the session from storage. */
    constructor (local: WebStorage, session: WebStorage)
      requires local != session && local.Valid() && session.Valid()
      ensures Valid() && this.local == local && this.session == session
      ensures State() == AfterCheckCurrentUser(AuthState(local.items, session.items, None))
    {
      this.local := local;
      this.session := session;
      currentUser := None;
      new;
      CheckCurrentUser();
    }

    /** `getUserByPseudonyme`: the stored account, which carries the pseudonyme asked for, or null. */
    function GetUserByPseudonyme(p: string): (r: Option<User>)
      requires Valid()
      reads this, local, session
      ensures r.Some? <==> UserKey(p) in local.items
      ensures r.Some? ==> r.value.pseudonyme == p && local.items[UserKey(p)] == UserDoc(r.value)
    {
      UserAtMeansPresent(local.items, p);
      UserAt(local.items, p)
    }

    /** `isLoggedIn()`. */
    function IsLoggedIn(): (r: bool)
      reads this
      ensures r <==> currentUser.Some?
    {
      currentUser != None
    }

    /** `getCurrentUser()`. */
    function GetCurrentUser(): Option<User>
      reads this
    {
      currentUser
    }

    /** `saveUser`. */
    method SaveUser(u: User)
      requires Valid()
      modifies local
      ensures Valid() && State() == old(State()).(local := WithUser(old(local.items), u))
    {
      UserFits(u);
      local.SetItem(UserKey(u.pseudonyme), UserDoc(u));
    }

    /** `loginUser(user, remember)`. */
    method LoginUser(u: User, remember: bool, now: int)
      requires Valid()
      modifies this, local, session
      ensures Valid() && State() == AfterLoginUser(old(State()), u, remember, now)
    {
      currentUser := Some(u.(lastLogin := now));
      CurrentEntryFits(u.pseudonyme);
      if remember {
        local.SetItem(CurrentUserKey, Raw(u.pseudonyme));
      } else {
        session.SetItem(CurrentUserKey, Raw(u.pseudonyme));
      }
      SaveUser(u.(lastLogin := now));
    }

    /** `logoutUser`. */
    method LogoutUser()
      requires Valid()
      modifies this, local, session
      ensures Valid() && State() == AfterLogout(old(State()))
    {
      local.RemoveItem(CurrentUserKey);
      session.RemoveItem(CurrentUserKey);
      currentUser := None;
    }

    /** `checkCurrentUser`. */
    method CheckCurrentUser()
      requires Valid()
      modifies this
      ensures Valid() && State() == AfterCheckCurrentUser(old(State()))
    {
      var p := RawAt(local.items, CurrentUserKey);
      if p == "" {
        p := RawAt(session.items, CurrentUserKey);
      }
      if p != "" {
        currentUser := GetUserByPseudonyme(p);
      }
    }

    /** `handleLogin`: the form checks, then the timer's body. */
    method HandleLogin(pseudonymeField: string, password: string, rememberMe: bool, now: int)
      returns (outcome: Outcome<LoginError>)
      requires Valid()
      modifies this, local, session
      ensures Valid() && (State(), outcome) == AfterLogin(old(State()), pseudonymeField, password, rememberMe, now)
    {
      var p := Trim(pseudonymeField);
      if p == "" || password == "" {
        return Refused(EmptyField);
      }
      if JsLength(p) < 3 {
        return Refused(ShortPseudonyme);
      }
      outcome := CompleteLogin(p, password, rememberMe, now);
    }

    /** The timer callback of `handleLogin`. */
    method CompleteLogin(p: string, password: string, rememberMe: bool, now: int) returns (outcome: Outcome<LoginError>)
      requires Valid()
      modifies this, local, session
      ensures Valid() && (State(), outcome) == LoginLookup(old(State()), p, password, rememberMe, now)
    {
      var user := GetUserByPseudonyme(p);
      if user == None {
        return Refused(UnknownPseudonyme);
      }
      if user.value.password != password {
        return Refused(WrongPassword);
      }
      LoginUser(user.value, rememberMe, now);
      outcome := Done;
    }

    /** `handleRegister`: the six checks, then the timer's body. */
    method HandleRegister(pseudonymeField: string, password: string, confirmPassword: string, question: string,
                          reponseField: string, conditions: bool, now: int)
      returns (outcome: Outcome<RegisterError>)
      requires Valid()
      modifies this, local, session
      ensures Valid()
      ensures (State(), outcome) ==
        AfterRegister(old(State()), pseudonymeField, password, confirmPassword, question, reponseField, conditions, now)
    {
      var p := Trim(pseudonymeField);
      var reponse := Trim(reponseField);
      ghost var check := RegisterCheck(p, password, confirmPassword, question, reponse, conditions, UserKey(p) in local.items);
      if p == "" || password == "" || confirmPassword == "" || question == "" || reponse == "" {
        assert check == Some(MissingField);
        return Refused(MissingField);
      }
      if !conditions {
        assert check == Some(ConditionsNotAccepted);
        return Refused(ConditionsNotAccepted);
      }
      if JsLength(password) < 6 {
        assert check == Some(PasswordTooShort);
        return Refused(PasswordTooShort);
      }
      if password != confirmPassword {
        assert check == Some(PasswordMismatch);
        return Refused(PasswordMismatch);
      }
      if JsLength(p) < 3 {
        assert check == Some(PseudonymeTooShort);
        return Refused(PseudonymeTooShort);
      }
      var existing := GetUserByPseudonyme(p);
      if existing != None {
        assert check == Some(PseudonymeTaken);
        return Refused(PseudonymeTaken);
      }
      assert check == None;
      CompleteRegistration(p, password, question, reponse, now);
      outcome := Done;
    }

    /** The timer callback of `handleRegister`. */
    method CompleteRegistration(p: string, password: string, question: string, reponse: string, now: int)
      requires Valid()
      modifies this, local, session
      ensures Valid() && State() == CreateAccount(old(State()), p, password, question, reponse, now)
    {
      var userData := NewUser(p, password, question, reponse, now);
      SaveUser(userData);
      LoginUser(userData, true, now);
    }
  }
}
