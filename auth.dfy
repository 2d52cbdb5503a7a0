/**
 * The authentication context: the signed-in user record and session, the
 * partial update the game uses for its optimistic stats change, the sign-in
 * decision (two hard-coded demo accounts, otherwise username to e-mail lookup
 * and password sign-in), the sign-up checks with the new profile's defaults,
 * and sign-out.
 */
module Auth {
  import opened Wrappers
  import opened Schema

  /** `Partial<User>`: each field is either supplied or left as it is. */
  datatype UserPatch = UserPatch(
    id: Option<string>,
    username: Option<string>,
    email: Option<Option<string>>,
    role: Option<UserRole>,
    knowledgePoints: Option<int>,
    doseMsv: Option<real>,
    createdAt: Option<string>,
    lastLogin: Option<Option<string>>)

  /** The patch that supplies nothing. */
  const EmptyPatch := UserPatch(None, None, None, None, None, None, None, None)

  /** The patch the level page sends after a submission: the two counters only. */
  function StatsPatch(knowledgePoints: int, doseMsv: real): UserPatch {
    EmptyPatch.(knowledgePoints := Some(knowledgePoints), doseMsv := Some(doseMsv))
  }

  /** `{ ...prev, ...patch }`: supplied fields overwrite, the others keep their value. */
  function Merge(u: User, p: UserPatch): (r: User)
    ensures r.id == p.id.GetOr(u.id) && r.username == p.username.GetOr(u.username)
    ensures r.email == p.email.GetOr(u.email) && r.role == p.role.GetOr(u.role)
    ensures r.knowledgePoints == p.knowledgePoints.GetOr(u.knowledgePoints)
    ensures r.doseMsv == p.doseMsv.GetOr(u.doseMsv)
    ensures r.createdAt == p.createdAt.GetOr(u.createdAt) && r.lastLogin == p.lastLogin.GetOr(u.lastLogin)
  {
    User(p.id.GetOr(u.id), p.username.GetOr(u.username), p.email.GetOr(u.email), p.role.GetOr(u.role),
         p.knowledgePoints.GetOr(u.knowledgePoints), p.doseMsv.GetOr(u.doseMsv),
         p.createdAt.GetOr(u.createdAt), p.lastLogin.GetOr(u.lastLogin))
  }

  /** Spreading `q` after `p`: `q`'s supplied fields win. */
  function Then(p: UserPatch, q: UserPatch): UserPatch {
    UserPatch(if q.id.Some? then q.id else p.id,
              if q.username.Some? then q.username else p.username,
              if q.email.Some? then q.email else p.email,
              if q.role.Some? then q.role else p.role,
              if q.knowledgePoints.Some? then q.knowledgePoints else p.knowledgePoints,
              if q.doseMsv.Some? then q.doseMsv else p.doseMsv,
              if q.createdAt.Some? then q.createdAt else p.createdAt,
              if q.lastLogin.Some? then q.lastLogin else p.lastLogin)
  }

  /** Applying a patch twice is applying it once; the empty patch changes nothing. */
  lemma MergeIdempotent(u: User, p: UserPatch)
    ensures Merge(Merge(u, p), p) == Merge(u, p)
    ensures Merge(u, EmptyPatch) == u
  {
  }

  /** Two successive updates act as one update with the later fields winning. */
  lemma MergeThen(u: User, p: UserPatch, q: UserPatch)
    ensures Merge(Merge(u, p), q) == Merge(u, Then(p, q))
  {
  }

  /** A stats patch changes the two counters and nothing else. */
  lemma StatsPatchTouchesOnlyCounters(u: User, kp: int, dose: real)
    ensures Merge(u, StatsPatch(kp, dose)) == u.(knowledgePoints := kp, doseMsv := dose)
  {
  }

  /** The state update `prev ? { ...prev, ...patch } : null`: no user stays no user. */
  function UpdatedUser(prev: Option<User>, p: UserPatch): (r: Option<User>)
    ensures r.None? <==> prev.None?
    ensures prev.Some? ==> r == Some(Merge(prev.value, p))
  {
    match prev
    case None => None
    case Some(u) => Some(Merge(u, p))
  }

  /** The session the context holds: the user id and e-mail of the signed-in account. */
  datatype Session = Session(userId: string, email: string, accessToken: string)

  const DemoPassword: string := "admin123"

  /** The client-side demo accounts; `now` is the sign-in time. */
  function DemoAccount(username: string, password: string, now: string): (r: Option<User>)
    ensures r.Some? <==> password == DemoPassword && (username == "admin" || username == "student1")
    ensures r.Some? ==> r.value.username == username && (r.value.role == Admin <==> username == "admin")
    ensures r.Some? ==> r.value.createdAt == now && r.value.lastLogin == Some(now)
  {
    if username == "admin" && password == DemoPassword then
      Some(User("demo-admin-id", "admin", Some("admin@example.com"), Admin, 0, 0.0, now, Some(now)))
    else if username == "student1" && password == DemoPassword then
      Some(User("demo-student-id", "student1", Some("student1@example.com"), Student, 15, 0.5, now, Some(now)))
    else None
  }

  /** The demo session that goes with a demo user. */
  function DemoSession(u: User): Session {
    Session(u.id, u.email.GetOr(""), "demo-token")
  }

  /** The result of looking up a username's e-mail in the `users` table. */
  datatype EmailLookup =
    | LookupThrew                      // the call raised an exception
    | LookupError                      // the query returned an error
    | Rows(emails: seq<Option<string>>) // the `email` column of the matching rows

  /** The result of `signInWithPassword`. */
  datatype PasswordSignIn = PasswordThrew | PasswordRejected(message: string) | PasswordAccepted

  /** The e-mail a lookup yields: that of the first matching row, if it is a non-empty string. */
  function LookedUpEmail(lookup: EmailLookup): (r: Option<string>)
    ensures r.Some? <==> lookup.Rows? && |lookup.emails| > 0 && lookup.emails[0].Some? && lookup.emails[0].value != ""
    ensures r.Some? ==> r.value == lookup.emails[0].value
  {
    match lookup
    case Rows(emails) =>
      if |emails| > 0 && emails[0].Some? && emails[0].value != "" then emails[0] else None
    case _ => None
  }

  const InvalidCredentials: string := "Invalid username or password"
  const UnexpectedError: string := "An unexpected error occurred"

  /**
   * The error `signIn` returns (None for success). `password` is only sent
   * to the password sign-in; `pw` stands for its result.
   */
  function SignInError(username: string, password: string, lookup: EmailLookup, pw: PasswordSignIn): Option<string> {
    if DemoAccount(username, password, "").Some? then None
    else if lookup.LookupThrew? then Some(UnexpectedError)
    else if LookedUpEmail(lookup).None? then Some(InvalidCredentials)
    else match pw
      case PasswordThrew => Some(UnexpectedError)
      case PasswordRejected(message) => Some(message)
      case PasswordAccepted => None
  }

  /** Both demo accounts sign in without any lookup: admin with no points and no dose, student1 with 15 points and 0.5 mSv. */
  lemma DemoAccountsSignIn(now: string, lookup: EmailLookup, pw: PasswordSignIn)
    ensures SignInError("admin", DemoPassword, lookup, pw).None?
    ensures SignInError("student1", DemoPassword, lookup, pw).None?
    ensures DemoAccount("admin", DemoPassword, now) ==
      Some(User("demo-admin-id", "admin", Some("admin@example.com"), Admin, 0, 0.0, now, Some(now)))
    ensures DemoAccount("student1", DemoPassword, now) ==
      Some(User("demo-student-id", "student1", Some("student1@example.com"), Student, 15, 0.5, now, Some(now)))
  {
  }

  /**
   * Without an e-mail for the username the answer is "Invalid username or
   * password" whatever the password sign-in would have said: it is never
   * attempted.
   */
  lemma UnknownUsernameRejected(username: string, password: string, lookup: EmailLookup, pw1: PasswordSignIn, pw2: PasswordSignIn)
    requires DemoAccount(username, password, "").None?
    requires !lookup.LookupThrew?
    requires LookedUpEmail(lookup).None?
    ensures SignInError(username, password, lookup, pw1) == SignInError(username, password, lookup, pw2) == Some(InvalidCredentials)
  {
  }

  /** With an e-mail found, the outcome is the password sign-in's. */
  lemma KnownUsernameDelegates(username: string, password: string, lookup: EmailLookup, pw: PasswordSignIn)
    requires DemoAccount(username, password, "").None?
    requires LookedUpEmail(lookup).Some?
    ensures SignInError(username, password, lookup, pw).None? <==> pw.PasswordAccepted?
    ensures pw.PasswordRejected? ==> SignInError(username, password, lookup, pw) == Some(pw.message)
  {
  }

  /** The result of the auth `signUp` call. */
  datatype AccountSignUp =
    | SignUpThrew
    | AccountRejected(message: string)
    | AccountCreated(userId: Option<string>) // the new auth user's id, when the reply carries one

  /** The `users` row a sign-up writes. */
  datatype NewUserRow = NewUserRow(id: string, username: string, email: string, role: UserRole,
                                   knowledgePoints: int, doseMsv: real)

  /** What `signUp` returns and which profile row it inserts. */
  datatype SignUpOutcome = SignUpOutcome(error: Option<string>, inserted: Option<NewUserRow>)

  /**
   * The sign-up decision. `sameUsername` is the number of `users` rows with
   * that username: the single-row query yields a record only for exactly one.
   * `profileInsertOk` is whether the profile insert succeeded.
   */
  function SignUp(username: string, email: string, sameUsername: nat, account: AccountSignUp, profileInsertOk: bool): (r: SignUpOutcome)
    ensures r.inserted.Some? ==>
              account.AccountCreated? && account.userId.Some? &&
              r.inserted.value == NewUserRow(account.userId.value, username, email, Student, 0, 0.0)
    ensures r.error.None? <==> (sameUsername != 1 && account.AccountCreated? && (account.userId.None? || profileInsertOk))
  {
    if sameUsername == 1 then SignUpOutcome(Some("Username already exists"), None)
    else match account
      case SignUpThrew => SignUpOutcome(Some(UnexpectedError), None)
      case AccountRejected(message) => SignUpOutcome(Some(message), None)
      case AccountCreated(None) => SignUpOutcome(None, None)
      case AccountCreated(Some(id)) =>
        var row := NewUserRow(id, username, email, Student, 0, 0.0);
        SignUpOutcome(if profileInsertOk then None else Some("Failed to create user profile"), Some(row))
  }

  /** A taken username is reported before anything is created, whatever the auth service would have done. */
  lemma TakenUsernameCreatesNothing(username: string, email: string, account: AccountSignUp, ok: bool)
    ensures SignUp(username, email, 1, account, ok) == SignUpOutcome(Some("Username already exists"), None)
  {
  }

  /** Every profile that sign-up writes is a student's, with 0 points and 0.0 mSv, for the auth user just created. */
  lemma NewProfileDefaults(username: string, email: string, sameUsername: nat, account: AccountSignUp, ok: bool)
    requires SignUp(username, email, sameUsername, account, ok).inserted.Some?
    ensures var row := SignUp(username, email, sameUsername, account, ok).inserted.value;
      row.role == Student && row.knowledgePoints == 0 && row.doseMsv == 0.0 &&
      account == AccountCreated(Some(row.id)) && sameUsername != 1
  {
  }

  /** The context's state: the user record, the session and the initial-load flag. */
  class AuthContext {
    var user: Option<User>
    var session: Option<Session>
    var loading: bool

    /** The provider starts with no user, no session, loading. */
    constructor ()
      ensures user.None? && session.None? && loading
    {
      user := None;
      session := None;
      loading := true;
    }

    /** `updateUser`: merges a patch into the current user, if any. */
    method UpdateUser(patch: UserPatch)
      modifies this
      ensures user == UpdatedUser(old(user), patch)
      ensures session == old(session) && loading == old(loading)
    {
      user := UpdatedUser(user, patch);
    }

    /**
     * `signIn`. A demo account sets the user and the demo session directly;
     * any other account leaves both to the auth state listener, which is not
     * part of this model.
     */
    method SignIn(username: string, password: string, now: string, lookup: EmailLookup, pw: PasswordSignIn)
      returns (error: Option<string>)
      modifies this
      ensures error == SignInError(username, password, lookup, pw)
      ensures DemoAccount(username, password, now).Some? ==>
        user == DemoAccount(username, password, now) && session == Some(DemoSession(user.value))
      ensures DemoAccount(username, password, now).None? ==> user == old(user) && session == old(session)
      ensures loading == old(loading)
    {
      var demo := DemoAccount(username, password, now);
      if demo.Some? {
        user := demo;
        session := Some(DemoSession(demo.value));
        return None;
      }
      if lookup.LookupThrew? {
        return Some(UnexpectedError);
      }
      var email := LookedUpEmail(lookup);
      if email.None? {
        return Some(InvalidCredentials);
      }
      match pw
      case PasswordThrew => error := Some(UnexpectedError);
      case PasswordRejected(message) => error := Some(message);
      case PasswordAccepted => error := None;
    }

    /** `signOut`: clears user and session. */
    method SignOut()
      modifies this
      ensures user.None? && session.None?
      ensures loading == old(loading)
    {
      user := None;
      session := None;
    }
  }
}
