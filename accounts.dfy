/**
 * User accounts as routes/index.js handles them: the registration gate and
 * the password-reset token lifecycle on a user's `resetPasswordToken` and
 * `resetPasswordExpires` fields. The random token and the clock are inputs;
 * sending mail and hashing the password (passport-local-mongoose) are not
 * modelled, the latter standing as a plain `password` field.
 */
module Accounts {
  import opened Wrappers
  import opened Entities
  import opened Validation

  const DefaultAvatarUrl := "https://res.cloudinary.com/learntocodeyelpsyk/image/upload/v1542878181/default_profile_image.jpg"

  /** How long an issued reset token stays valid, in milliseconds. */
  const ResetWindow := 3600000

  /** The pair of reset fields of a user (None: the field is unset). */
  datatype ResetTicket = ResetTicket(token: Option<string>, expires: Option<int>)

  /** What a reset request stores: the token, valid for one hour from now. */
  function Issued(token: string, now: int): ResetTicket
  {
    ResetTicket(Some(token), Some(now + ResetWindow))
  }

  /** What a completed reset leaves behind. */
  const Cleared := ResetTicket(None, None)

  /** The query `{resetPasswordToken: token, resetPasswordExpires: {$gt: now}}` on one user. */
  predicate Admits(t: ResetTicket, token: string, now: int)
  {
    t.token == Some(token) && t.expires.Some? && t.expires.value > now
  }

  /** An issued token is accepted exactly until (strictly before) one hour has passed, and no other token is. */
  lemma IssuedAdmitsIff(token: string, issuedAt: int, candidate: string, now: int)
    ensures Admits(Issued(token, issuedAt), candidate, now) <==> candidate == token && now < issuedAt + ResetWindow
  {
  }

  /** Once cleared, no token is accepted at any time. */
  lemma ClearedAdmitsNothing(candidate: string, now: int)
    ensures !Admits(Cleared, candidate, now)
  {
  }

  /** The fields a registration gives a new user. */
  datatype NewUser = NewUser(username: string, firstname: string, lastname: string, email: string, avatarUrl: string)

  datatype RegisterOutcome =
    | RenderErrors(errors: seq<Failure>)  // the form is rendered again with the failed checks
    | RegisterFailed                      // the account library refused the registration
    | Registered(user: NewUser)

  /**
   * POST /register: the validation gate, then the new user's fields.
   * `libraryAccepts` is the verdict of `User.register` (for instance on a taken username).
   */
  function Register(form: RegisterForm, formats: Formats, libraryAccepts: bool): (r: RegisterOutcome)
    ensures r.RenderErrors? <==> RegisterErrors(form, formats) != []
    ensures r.RenderErrors? ==> r.errors == RegisterErrors(form, formats)
    ensures r.Registered? <==> RegisterErrors(form, formats) == [] && libraryAccepts
    ensures r.Registered? ==> r.user == NewUser(form.username, form.firstname, form.lastname, form.email, DefaultAvatarUrl)
  {
    var errors := RegisterErrors(form, formats);
    if errors != [] then RenderErrors(errors)
    else if !libraryAccepts then RegisterFailed
    else Registered(NewUser(form.username, form.firstname, form.lastname, form.email, DefaultAvatarUrl))
  }

  /** A registration whose username has four characters never creates a user. */
  lemma ShortUsernameNotRegistered(form: RegisterForm, formats: Formats, libraryAccepts: bool)
    requires |form.username| < 5
    ensures Register(form, formats, libraryAccepts).RenderErrors?
    ensures UsernameTooShort in Register(form, formats, libraryAccepts).errors
  {
  }

  class User {
    const id: UserId
    var username: string
    var firstname: string
    var lastname: string
    var email: string
    var avatarUrl: string
    /** The hosted avatar's id; the empty string stands for unset (both are falsy). */
    var avatarId: string
    /** Stands for the credential `setPassword` installs. */
    var password: string
    var resetPasswordToken: Option<string>
    var resetPasswordExpires: Option<int>

    constructor (id: UserId, fields: NewUser, password: string)
      ensures this.id == id && username == fields.username && firstname == fields.firstname
      ensures lastname == fields.lastname && email == fields.email && avatarUrl == fields.avatarUrl
      ensures avatarId == "" && this.password == password && Ticket() == Cleared
    {
      this.id := id;
      username, firstname, lastname, email := fields.username, fields.firstname, fields.lastname, fields.email;
      avatarUrl, avatarId := fields.avatarUrl, "";
      this.password := password;
      resetPasswordToken, resetPasswordExpires := None, None;
    }

    function Ticket(): ResetTicket
      reads this
    {
      ResetTicket(resetPasswordToken, resetPasswordExpires)
    }

    /** The stored reset fields admit `token` at time `now`. */
    predicate IsValid(token: string, now: int): (valid: bool)
      reads this
      ensures valid <==> && resetPasswordToken == Some(token)
                         && resetPasswordExpires.Some? && resetPasswordExpires.value > now
    {
      Admits(Ticket(), token, now)
    }

    /** POST /forgot on a found user: store the token, expiring one hour from now, over any earlier one. */
    method RequestReset(token: string, now: int)
      modifies this
      ensures Ticket() == Issued(token, now)
      ensures SameProfile(this) && password == old(password)
    {
      resetPasswordToken := Some(token);
      resetPasswordExpires := Some(now + ResetWindow);
    }

    /**
     * POST /reset/:token on the user the token selected: with matching
     * passwords `setPassword` installs the new password and both reset fields
     * are cleared. `setPassword` refuses an empty password (a missing field
     * reads as the empty string), and then, as when the passwords differ,
     * nothing changes.
     */
    method Reset(newPassword: string, confirm: string) returns (ok: bool)
      modifies this
      ensures ok <==> newPassword == confirm && newPassword != ""
      ensures ok ==> password == newPassword && Ticket() == Cleared
      ensures !ok ==> unchanged(this)
      ensures SameProfile(this)
    {
      ok := newPassword == confirm && newPassword != "";
      if ok {
        password := newPassword;
        resetPasswordToken := None;
        resetPasswordExpires := None;
      }
    }
  }

  /** The user's name, email and avatar fields are as they were. */
  twostate predicate SameProfile(u: User)
    reads u
  {
    && u.username == old(u.username) && u.email == old(u.email)
    && u.firstname == old(u.firstname) && u.lastname == old(u.lastname)
    && u.avatarUrl == old(u.avatarUrl) && u.avatarId == old(u.avatarId)
  }

  /** The three user queries the handlers issue. */
  datatype UserQuery =
    | ById(id: UserId)                   // `User.findById(id)`
    | ByEmail(email: string)             // `User.findOne({email})`
    | ByToken(token: string, now: int)   // `User.findOne({resetPasswordToken: token, resetPasswordExpires: {$gt: now}})`

  /** The user satisfies the query. */
  predicate Matches(u: User, q: UserQuery)
    reads u
  {
    match q
    case ById(id) => u.id == id
    case ByEmail(email) => u.email == email
    case ByToken(token, now) => u.IsValid(token, now)
  }

  /** The first user, in collection order, that satisfies the query; None when no user does. */
  function FindOne(users: seq<User>, q: UserQuery): (r: Option<User>)
    reads set u | u in users
    ensures r.Some? ==> exists i | 0 <= i < |users| :: users[i] == r.value && Matches(users[i], q)
                                   && forall j | 0 <= j < i :: !Matches(users[j], q)
    ensures r.None? <==> forall u | u in users :: !Matches(u, q)
  {
    if users == [] then None
    else if Matches(users[0], q) then
      assert users[0] == users[0] && Matches(users[0], q);
      Some(users[0])
    else
      var r := FindOne(users[1..], q);
      if r.Some? then
        var i :| 0 <= i < |users[1..]| && users[1..][i] == r.value && Matches(users[1..][i], q)
                 && forall j | 0 <= j < i :: !Matches(users[1..][j], q);
        assert users[i + 1] == r.value && Matches(users[i + 1], q);
        assert forall j | 0 <= j < i + 1 :: !Matches(users[j], q) by {
          forall j | 0 <= j < i + 1 ensures !Matches(users[j], q) {
            if j > 0 { assert users[j] == users[1..][j - 1]; }
          }
        }
        r
      else
        r
  }

  datatype ForgotOutcome = NoAccount | TokenIssued(user: User)

  /**
   * POST /forgot: an unknown email changes nothing; otherwise the first user
   * with that email gets the fresh token, and no other user changes.
   */
  method Forgot(users: seq<User>, email: string, token: string, now: int) returns (outcome: ForgotOutcome)
    modifies set u | u in users
    ensures outcome.NoAccount? <==> old(FindOne(users, ByEmail(email))).None?
    ensures outcome.TokenIssued? ==> outcome.user == old(FindOne(users, ByEmail(email))).value
    ensures outcome.TokenIssued? ==> outcome.user.Ticket() == Issued(token, now)
    ensures outcome.TokenIssued? ==> SameProfile(outcome.user) && outcome.user.password == old(outcome.user.password)
    ensures forall u | u in users && (outcome.NoAccount? || u != outcome.user) :: unchanged(u)
  {
    var found := FindOne(users, ByEmail(email));
    if found.None? {
      return NoAccount;
    }
    var user := found.value;
    user.RequestReset(token, now);
    outcome := TokenIssued(user);
  }

  datatype ResetOutcome =
    | InvalidToken           // "Password reset token is invalid or has expired.", redirect to /forgot
    | PasswordsDiffer        // "Passwords do not match.", redirect back
    | PasswordRejected       // `setPassword` refused an empty password: "Something went wrong", back to the reset form
    | PasswordChanged(user: User)

  /**
   * POST /reset/:token: the token must select a user whose expiry lies after
   * now; then the passwords must agree and be non-empty. A successful reset
   * clears the token, so the same token is never accepted again; a failed
   * one leaves every user, and so the token, as it was.
   */
  method ResetPassword(users: seq<User>, token: string, newPassword: string, confirm: string, now: int)
    returns (outcome: ResetOutcome)
    modifies set u | u in users
    ensures outcome.InvalidToken? <==> old(FindOne(users, ByToken(token, now))).None?
    ensures outcome.PasswordsDiffer? <==> old(FindOne(users, ByToken(token, now))).Some? && newPassword != confirm
    ensures outcome.PasswordRejected? <==>
              old(FindOne(users, ByToken(token, now))).Some? && newPassword == confirm && newPassword == ""
    ensures outcome.PasswordChanged? ==> newPassword == confirm && newPassword != ""
    ensures outcome.PasswordChanged? ==> outcome.user == old(FindOne(users, ByToken(token, now))).value
    ensures outcome.PasswordChanged? ==> outcome.user.password == newPassword && outcome.user.Ticket() == Cleared
    ensures outcome.PasswordChanged? ==> SameProfile(outcome.user)
    ensures outcome.PasswordChanged? ==> forall later :: !outcome.user.IsValid(token, later)
    ensures forall u | u in users && !outcome.PasswordChanged? :: unchanged(u)
    ensures forall u | u in users && outcome.PasswordChanged? && u != outcome.user :: unchanged(u)
  {
    var found := FindOne(users, ByToken(token, now));
    if found.None? {
      return InvalidToken;
    }
    var user := found.value;
    var ok := user.Reset(newPassword, confirm);
    if ok {
      outcome := PasswordChanged(user);
    } else if newPassword != confirm {
      outcome := PasswordsDiffer;
    } else {
      outcome := PasswordRejected;
    }
  }
}
