/** The account routes (backend/routes/auth.js): signup, login and logout.
    The identity provider is a table of credentials keyed by the ids it
    issues; the `users` table holds the profile rows. What the provider
    answers to a signup, whether the profile insert or the compensating
    delete fails, and the sessions it issues are parameters. */
module AuthRoutes {
  import opened Wrappers
  import opened Text
  import opened Schema

  /** A credential as the identity provider stores it, with the signup
      metadata it was given. */
  datatype Account = Account(email: string, password: string, name: string, phone: string, role: string)

  /** An issued session; the client stores its access token. */
  datatype Session = Session(accessToken: string)

  /** The provider calls a request makes, in order. */
  datatype ProviderCall = SignUpCall(email: string) | SignInCall(email: string) | DeleteUserCall(id: UserId)

  /** What the provider answers to `signUp`: a new user (with the email it
      recorded and a session, or no session while the email awaits
      confirmation), or an error message. */
  datatype SignUpOutcome =
    | Created(id: UserId, email: string, session: Option<Session>)
    | SignUpError(message: string)

  /** What `signOut` does: succeed, return an error, or throw. */
  datatype SignOutOutcome = SignedOut | SignOutError(message: string) | SignOutThrew(message: string)

  /** The user object of a signup or login reply. */
  datatype UserView = UserView(id: UserId, email: string, name: string, phone: string, role: string)

  datatype AuthData = AuthData(user: UserView, session: Option<Session>)

  /** A JSON reply: `success: true` with a message and optional data, or
      `success: false` with the JSON `message` held in `error`. */
  datatype Reply =
    | Success(status: int, message: string, data: Option<AuthData>)
    | Failure(status: int, error: string)

  /** The body of a signup request; `None` for an absent field. */
  datatype SignupBody = SignupBody(
    name: Option<string>, phone: Option<string>, email: Option<string>,
    password: Option<string>, role: Option<string>)

  /** A body field is truthy: present and not the empty string. */
  predicate Present(x: Option<string>) {
    x.Some? && x.value != ""
  }

  predicate AllPresent(b: SignupBody) {
    Present(b.name) && Present(b.phone) && Present(b.email) && Present(b.password) && Present(b.role)
  }

  predicate KnownRole(role: string) {
    role == "buyer" || role == "seller"
  }

  const AlreadyRegistered := "This email is already registered. Please login instead."
  const PasswordTooShort := "Password must be at least 6 characters long."
  const ProfileFailed := "Failed to create user profile. Please try again."
  const UnknownUser := "User does not exist. Please sign up first."
  const WrongPassword := "Incorrect password. Please try again."
  const ProfileMissing := "User profile not found. Please contact support."

  /** The message a failed provider signup is answered with: a message
      mentioning `already registered` wins, then one mentioning `Password`,
      and any other is passed on as it is. */
  function SignupErrorMessage(providerMessage: string): (m: string)
    ensures Contains(providerMessage, "already registered") ==> m == AlreadyRegistered
    ensures !Contains(providerMessage, "already registered") && Contains(providerMessage, "Password") ==> m == PasswordTooShort
    ensures !Contains(providerMessage, "already registered") && !Contains(providerMessage, "Password") ==> m == providerMessage
    ensures m in {AlreadyRegistered, PasswordTooShort, providerMessage}
  {
    if Contains(providerMessage, "already registered") then AlreadyRegistered
    else if Contains(providerMessage, "Password") then PasswordTooShort
    else providerMessage
  }

  /** Some profile row carries this email. */
  predicate EmailTaken(profiles: map<UserId, UserRow>, email: string) {
    exists id :: id in profiles && profiles[id].email == email
  }

  /** The provider's answer to a sign-in: the id of a credential with this
      email and password, if there is one. */
  ghost predicate Matches(accounts: map<UserId, Account>, id: UserId, email: string, password: string) {
    id in accounts && accounts[id].email == email && accounts[id].password == password
  }

  /** The 401 message for a failed sign-in whose provider message is
      `providerMessage`: for invalid credentials, whether the email has a
      profile tells a missing user from a wrong password; any other message
      is passed on, or `Invalid credentials` when it is empty. */
  function LoginErrorMessage(providerMessage: string, profileExists: bool): (m: string)
    ensures m != ""
    ensures Contains(providerMessage, "Invalid login credentials") ==> (m == UnknownUser <==> !profileExists)
    ensures Contains(providerMessage, "Invalid login credentials") ==> (m == WrongPassword <==> profileExists)
    ensures !Contains(providerMessage, "Invalid login credentials") && providerMessage != "" ==> m == providerMessage
    ensures providerMessage == "" ==> m == "Invalid credentials"
  {
    if Contains(providerMessage, "Invalid login credentials") then
      if profileExists then WrongPassword else UnknownUser
    else if providerMessage != "" then providerMessage
    else "Invalid credentials"
  }

  /** A message contains its own text. */
  lemma MentionsItself(e: string, text: string)
    requires e == text
    ensures Contains(e, text)
  {
    assert StartsWith(e, text);
  }

  /** `POST /logout`: the provider's error message with 400, 500 when the
      call throws, otherwise success. */
  function Logout(outcome: SignOutOutcome): (r: Reply)
    ensures r.Success? <==> outcome == SignedOut
    ensures r.Success? ==> r == Success(200, "Logout successful", None)
    ensures outcome.SignOutError? ==> r == Failure(400, outcome.message)
    ensures outcome.SignOutThrew? ==> r == Failure(500, "Server error")
  {
    match outcome
    case SignedOut => Success(200, "Logout successful", None)
    case SignOutError(m) => Failure(400, m)
    case SignOutThrew(_) => Failure(500, "Server error")
  }

  /** The identity provider's credentials and the `users` table, with the
      provider calls made so far. */
  class AuthService {
    var accounts: map<UserId, Account>
    var profiles: map<UserId, UserRow>
    var providerLog: seq<ProviderCall>

    constructor ()
      ensures accounts == map[] && profiles == map[] && providerLog == []
    {
      accounts := map[];
      profiles := map[];
      providerLog := [];
    }

    /** Credentials without a profile row. */
    function Orphans(): (ids: set<UserId>)
      reads this
      ensures forall id :: id in ids <==> id in accounts && id !in profiles
    {
      accounts.Keys - profiles.Keys
    }

    /** `POST /signup`. `outcome` is the provider's answer, `insertFault`
        a failure of the profile insert other than a duplicate id or email,
        and `cleanupOk` whether the compensating `deleteUser` succeeds. */
    method Signup(b: SignupBody, outcome: SignUpOutcome, insertFault: bool, cleanupOk: bool) returns (r: Reply)
      modifies this
      ensures !AllPresent(b) ==>
        r == Failure(400, "All fields are required") && unchanged(this)
      ensures AllPresent(b) && !KnownRole(b.role.value) ==>
        r == Failure(400, "Invalid role. Must be buyer or seller") && unchanged(this)
      ensures AllPresent(b) && KnownRole(b.role.value) ==>
        |providerLog| > |old(providerLog)|
        && providerLog[..|old(providerLog)|] == old(providerLog)
        && providerLog[|old(providerLog)|] == SignUpCall(b.email.value)
      ensures AllPresent(b) && KnownRole(b.role.value) && outcome.SignUpError? ==>
        r == Failure(400, SignupErrorMessage(outcome.message))
        && accounts == old(accounts) && profiles == old(profiles)
        && providerLog == old(providerLog) + [SignUpCall(b.email.value)]
      ensures r.Success? <==>
        AllPresent(b) && KnownRole(b.role.value) && outcome.Created?
        && !(outcome.id in old(profiles) || EmailTaken(old(profiles), b.email.value) || insertFault)
      ensures r.Success? ==>
        && accounts == old(accounts)[outcome.id := Account(b.email.value, b.password.value, b.name.value, b.phone.value, b.role.value)]
        && profiles == old(profiles)[outcome.id := UserRow(outcome.id, b.name.value, b.phone.value, b.email.value, b.role.value)]
        && providerLog == old(providerLog) + [SignUpCall(b.email.value)]
        && r == Success(201, "User created successfully", Some(AuthData(
             UserView(outcome.id, outcome.email, b.name.value, b.phone.value, b.role.value), outcome.session)))
      ensures AllPresent(b) && KnownRole(b.role.value) && outcome.Created? && !r.Success? ==>
        && r == Failure(500, ProfileFailed)
        && profiles == old(profiles)
        && providerLog == old(providerLog) + [SignUpCall(b.email.value), DeleteUserCall(outcome.id)]
        && accounts == (if cleanupOk then old(accounts) - {outcome.id}
                        else old(accounts)[outcome.id := Account(b.email.value, b.password.value, b.name.value, b.phone.value, b.role.value)])
      ensures cleanupOk ==> Orphans() <= old(Orphans())
    {
      if !AllPresent(b) {
        return Failure(400, "All fields are required");
      }
      var name, phone, email, password, role := b.name.value, b.phone.value, b.email.value, b.password.value, b.role.value;
      if !KnownRole(role) {
        return Failure(400, "Invalid role. Must be buyer or seller");
      }
      providerLog := providerLog + [SignUpCall(email)];
      if outcome.SignUpError? {
        return Failure(400, SignupErrorMessage(outcome.message));
      }
      var id := outcome.id;
      accounts := accounts[id := Account(email, password, name, phone, role)];
      if id in profiles || EmailTaken(profiles, email) || insertFault {
        providerLog := providerLog + [DeleteUserCall(id)];
        if cleanupOk {
          accounts := accounts - {id};
        }
        return Failure(500, ProfileFailed);
      }
      profiles := profiles[id := UserRow(id, name, phone, email, role)];
      r := Success(201, "User created successfully", Some(AuthData(UserView(id, outcome.email, name, phone, role), outcome.session)));
    }

    /** `POST /login`. `fault` is an error the provider reports instead of
        checking the credentials, and `session` the session it issues on
        success. The provider signs in a credential whose email and password
        both match (any one of them, should several match); otherwise it
        answers `Invalid login credentials`. */
    method Login(email: Option<string>, password: Option<string>, fault: Option<string>, session: Option<Session>)
      returns (r: Reply)
      modifies this
      ensures accounts == old(accounts) && profiles == old(profiles)
      ensures !(Present(email) && Present(password)) ==>
        r == Failure(400, "Email and password are required") && providerLog == old(providerLog)
      ensures Present(email) && Present(password) ==> providerLog == old(providerLog) + [SignInCall(email.value)]
      ensures Present(email) && Present(password) && fault.Some? ==>
        r == Failure(401, LoginErrorMessage(fault.value, EmailTaken(profiles, email.value)))
      ensures (Present(email) && Present(password) && fault.None?
               && !(exists id :: Matches(accounts, id, email.value, password.value))) ==>
        r == Failure(401, if EmailTaken(profiles, email.value) then WrongPassword else UnknownUser)
      ensures (Present(email) && Present(password) && fault.None?
               && (exists id :: Matches(accounts, id, email.value, password.value))
               && (forall id :: Matches(accounts, id, email.value, password.value) ==> id in profiles)) ==>
        r.Success?
      ensures (Present(email) && Present(password) && fault.None?
               && (exists id :: Matches(accounts, id, email.value, password.value))
               && (forall id :: Matches(accounts, id, email.value, password.value) ==> id !in profiles)) ==>
        r == Failure(500, ProfileMissing)
      ensures r.Success? ==>
        && Present(email) && Present(password) && fault.None?
        && (exists id :: Matches(accounts, id, email.value, password.value) && id in profiles
              && r == Success(200, "Login successful", Some(AuthData(
                   UserView(id, email.value, profiles[id].name, profiles[id].phone, profiles[id].role), session))))
    {
      if !(Present(email) && Present(password)) {
        return Failure(400, "Email and password are required");
      }
      providerLog := providerLog + [SignInCall(email.value)];
      if fault.Some? {
        return Failure(401, LoginErrorMessage(fault.value, EmailTaken(profiles, email.value)));
      }
      if !(exists id :: id in accounts && accounts[id].email == email.value && accounts[id].password == password.value) {
        var e := "Invalid login credentials";
        MentionsItself(e, "Invalid login credentials");
        return Failure(401, LoginErrorMessage(e, EmailTaken(profiles, email.value)));
      }
      var id :| id in accounts && accounts[id].email == email.value && accounts[id].password == password.value;
      assert Matches(accounts, id, email.value, password.value);
      if id !in profiles {
        return Failure(500, ProfileMissing);
      }
      var p := profiles[id];
      r := Success(200, "Login successful", Some(AuthData(UserView(id, email.value, p.name, p.phone, p.role), session)));
    }

    /** A signup followed by a login with the same email and password: when
        the signup succeeds, the login succeeds for the account it created,
        with the role chosen at signup. This needs the provider to hold no
        credential with that email beforehand, as it does when it refuses a
        second signup for an email; a credential left behind by a failed
        signup whose cleanup failed could otherwise be the one signed in. */
    method SignupThenLogin(b: SignupBody, outcome: SignUpOutcome, insertFault: bool, cleanupOk: bool, session: Option<Session>)
      returns (signup: Reply, login: Option<Reply>)
      requires b.email.Some?
      requires forall id :: id in accounts ==> accounts[id].email != b.email.value
      modifies this
      ensures signup.Success? <==> login.Some?
      ensures login.Some? ==>
        && AllPresent(b) && signup.data.Some? && login.value.Success? && login.value.data.Some?
        && login.value.data.value.user.id == signup.data.value.user.id
        && login.value.data.value.user.email == b.email.value
        && login.value.data.value.user.role == b.role.value
        && login.value.data.value.session == session
    {
      ghost var before := accounts;
      signup := Signup(b, outcome, insertFault, cleanupOk);
      if !signup.Success? {
        return signup, None;
      }
      var id0 := outcome.id;
      var email, password := b.email.value, b.password.value;
      assert accounts == before[id0 := Account(email, password, b.name.value, b.phone.value, b.role.value)];
      assert profiles[id0].role == b.role.value;
      forall id | Matches(accounts, id, email, password)
        ensures id == id0
      {
        assert id in before[id0 := accounts[id0]];
      }
      assert Matches(accounts, id0, email, password);
      var r := Login(b.email, b.password, None, session);
      login := Some(r);
    }
  }
}
