/**
 * The authentication handlers (app/routes/auth.py) and the password
 * helpers of the user model (app/models/user.py): registration with its
 * form validation and unique e-mail, and login by normalised e-mail and
 * password.
 */
module AuthRoutes {
  import opened Wrappers
  import opened Records
  import opened Text
  import opened Store

  // ----------------------------------------------------------- passwords

  /** Method tag that opens the stored hash (`generate_password_hash(..., method='pbkdf2:sha256')`). */
  const HashMethod: string := "pbkdf2:sha256"

  /**
   * Stand-in for the salted PBKDF2 hash: a one-to-one encoding of the
   * password, which is all the handlers rely on.
   */
  function HashPassword(password: string): (h: PasswordHash)
    ensures |h.digest| >= |HashMethod| && h.digest[..|HashMethod|] == HashMethod
  {
    PasswordHash(HashMethod + password)
  }

  /** `check_password_hash(stored, password)`: only a hash made with the method can accept a password. */
  function CheckPassword(stored: PasswordHash, password: string): (r: bool)
    ensures r ==> |stored.digest| >= |HashMethod| && stored.digest[..|HashMethod|] == HashMethod
  {
    stored == HashPassword(password)
  }

  /** A stored hash accepts exactly the password it was made from. */
  lemma CheckPasswordAcceptsOnlyOriginal(password: string, attempt: string)
    ensures CheckPassword(HashPassword(password), attempt) <==> attempt == password
  {
    if CheckPassword(HashPassword(password), attempt) {
      assert (HashMethod + attempt)[|HashMethod|..] == attempt;
      assert (HashMethod + password)[|HashMethod|..] == password;
    }
  }

  // ------------------------------------------------------------ register

  /** The validation messages of `register`, in the order they are checked. */
  datatype RegistrationError =
    | NameTooShort
    | EmailMissing
    | PasswordTooShort
    | PasswordMismatch

  function ErrorRank(e: RegistrationError): nat {
    match e
    case NameTooShort => 0
    case EmailMissing => 1
    case PasswordTooShort => 2
    case PasswordMismatch => 3
  }

  /** The message `e` when its check failed, nothing otherwise. */
  function Flag(failed: bool, e: RegistrationError): seq<RegistrationError> {
    if failed then [e] else []
  }

  /**
   * The messages `register` reports for the stripped name, the normalised
   * e-mail and the two password fields: each message exactly when its
   * check fails, in check order, and so every failing check is reported.
   */
  function RegistrationErrors(name: string, email: string, password: string, confirm: string): (r: seq<RegistrationError>)
    ensures NameTooShort in r <==> |name| < 2
    ensures EmailMissing in r <==> email == []
    ensures PasswordTooShort in r <==> |password| < 6
    ensures PasswordMismatch in r <==> password != confirm
    ensures forall i, j :: 0 <= i < j < |r| ==> ErrorRank(r[i]) < ErrorRank(r[j])
    ensures r == [] <==> |name| >= 2 && email != [] && |password| >= 6 && password == confirm
  {
    Flag(|name| < 2, NameTooShort) + Flag(email == [], EmailMissing)
      + Flag(|password| < 6, PasswordTooShort) + Flag(password != confirm, PasswordMismatch)
  }

  /** The `errors` list of `register`, built by successive appends. */
  method CollectRegistrationErrors(name: string, email: string, password: string, confirm: string)
    returns (errors: seq<RegistrationError>)
    ensures errors == RegistrationErrors(name, email, password, confirm)
  {
    errors := [];
    if |name| < 2 {
      errors := errors + [NameTooShort];
    }
    assert errors == Flag(|name| < 2, NameTooShort);
    if email == [] {
      errors := errors + [EmailMissing];
    }
    if |password| < 6 {
      errors := errors + [PasswordTooShort];
    }
    if password != confirm {
      errors := errors + [PasswordMismatch];
    }
  }

  /** What `register` answers with. */
  datatype RegisterOutcome =
    | AlreadySignedIn
    | Invalid(errors: seq<RegistrationError>)
    | EmailTaken
    | Registered(id: nat)

  /** `User.query.filter_by(email=email).first()`: the index of the user with this e-mail. */
  function FindUserByEmail(users: seq<User>, email: string): (r: Option<nat>)
    ensures r.None? <==> forall k :: 0 <= k < |users| ==> users[k].email != email
    ensures r.Some? ==> r.value < |users| && users[r.value].email == email
    ensures r.Some? ==> forall k :: 0 <= k < r.value ==> users[k].email != email
  {
    if users == [] then None
    else if users[0].email == email then Some(0)
    else
      match FindUserByEmail(users[1..], email)
      case None =>
        assert forall k :: 1 <= k < |users| ==> users[k] == users[1..][k - 1];
        None
      case Some(k) => Some(k + 1)
  }

  /** The row `register` stores: stripped name, normalised e-mail, hashed password, next key. */
  function NewUser(users: seq<User>, rawName: string, rawEmail: string, password: string): User {
    User(NextId(users, UserIdOf), Strip(rawName), NormalizeEmail(rawEmail), HashPassword(password))
  }

  /**
   * `register`: a signed-in visitor is sent away; a form that fails any
   * check is refused with all its messages; an e-mail already in use is
   * refused; otherwise the user is stored. Only the last case writes.
   */
  method Register(db: Database, signedIn: bool, rawName: string, rawEmail: string, password: string, confirm: string)
    returns (outcome: RegisterOutcome)
    requires db.Valid()
    modifies db`users
    ensures db.Valid()
    ensures signedIn <==> outcome == AlreadySignedIn
    ensures var errors := RegistrationErrors(Strip(rawName), NormalizeEmail(rawEmail), password, confirm);
      !signedIn && errors != [] ==> outcome == Invalid(errors)
    ensures outcome.Invalid? ==> !signedIn && outcome.errors != []
    ensures !outcome.Registered? ==> db.users == old(db.users)
    ensures outcome.EmailTaken? <==>
      !signedIn && !outcome.Invalid? && FindUserByEmail(old(db.users), NormalizeEmail(rawEmail)).Some?
    ensures outcome.Registered? <==>
      && !signedIn
      && |Strip(rawName)| >= 2 && NormalizeEmail(rawEmail) != [] && |password| >= 6 && password == confirm
      && FindUserByEmail(old(db.users), NormalizeEmail(rawEmail)).None?
    ensures outcome.Registered? ==>
      && db.users == old(db.users) + [NewUser(old(db.users), rawName, rawEmail, password)]
      && outcome.id == NextId(old(db.users), UserIdOf)
  {
    if signedIn {
      return AlreadySignedIn;
    }
    var name := Strip(rawName);
    var email := NormalizeEmail(rawEmail);
    var errors := CollectRegistrationErrors(name, email, password, confirm);
    if errors != [] {
      return Invalid(errors);
    }
    if FindUserByEmail(db.users, email).Some? {
      return EmailTaken;
    }
    var user := NewUser(db.users, rawName, rawEmail, password);
    InsertKeepsIdsUnique(db.users, user, UserIdOf);
    db.users := db.users + [user];
    outcome := Registered(user.id);
  }

  // --------------------------------------------------------------- login

  /** What `login` answers with; the session it opens is not modelled. */
  datatype LoginOutcome =
    | AlreadySignedInToLogin
    | LoginFailed
    | LoggedIn(id: nat)

  /**
   * `login`: a visitor is redirected exactly when already signed in; the
   * user with the normalised e-mail is signed in exactly when the password
   * checks against the stored hash; anything else is refused.
   */
  function Login(users: seq<User>, signedIn: bool, rawEmail: string, password: string): (r: LoginOutcome)
    ensures signedIn <==> r == AlreadySignedInToLogin
    ensures !signedIn && EmailsUnique(users) ==>
      forall k :: 0 <= k < |users| && users[k].email == NormalizeEmail(rawEmail) ==>
        && (r == LoggedIn(users[k].id) <==> CheckPassword(users[k].passwordHash, password))
        && (!CheckPassword(users[k].passwordHash, password) ==> r == LoginFailed)
    ensures r.LoggedIn? ==>
      exists k :: 0 <= k < |users| && users[k].id == r.id && users[k].email == NormalizeEmail(rawEmail) && CheckPassword(users[k].passwordHash, password)
    ensures !signedIn && (forall k :: 0 <= k < |users| ==> users[k].email != NormalizeEmail(rawEmail)) ==> r == LoginFailed
  {
    if signedIn then AlreadySignedInToLogin
    else
      match FindUserByEmail(users, NormalizeEmail(rawEmail))
      case None => LoginFailed
      case Some(k) => if CheckPassword(users[k].passwordHash, password) then LoggedIn(users[k].id) else LoginFailed
  }

  /**
   * After a registration, logging in with the same e-mail however it is
   * cased or padded, and the same password, signs in as the new user; any
   * other password is refused.
   */
  lemma LoginAfterRegister(users: seq<User>, rawName: string, rawEmail: string, password: string,
                           loginEmail: string, attempt: string)
    requires FindUserByEmail(users, NormalizeEmail(rawEmail)).None?
    requires NormalizeEmail(loginEmail) == NormalizeEmail(rawEmail)
    ensures var after := users + [NewUser(users, rawName, rawEmail, password)];
      Login(after, false, loginEmail, attempt) ==
        if attempt == password then LoggedIn(NextId(users, UserIdOf)) else LoginFailed
  {
    var u := NewUser(users, rawName, rawEmail, password);
    var after := users + [u];
    FindAppendedUser(users, u, NormalizeEmail(rawEmail));
    assert after[|users|] == u;
    assert u.passwordHash == HashPassword(password) && u.id == NextId(users, UserIdOf);
    CheckPasswordAcceptsOnlyOriginal(password, attempt);
    assert Login(after, false, loginEmail, attempt) ==
      if CheckPassword(HashPassword(password), attempt) then LoggedIn(u.id) else LoginFailed;
  }

  /** A user appended under an e-mail nobody has is the one the lookup finds. */
  lemma FindAppendedUser(users: seq<User>, u: User, email: string)
    requires FindUserByEmail(users, email).None? && u.email == email
    ensures FindUserByEmail(users + [u], email) == Some(|users|)
  {
    var after := users + [u];
    assert after[|users|] == u;
    assert forall k :: 0 <= k < |users| ==> after[k] == users[k];
  }
}
