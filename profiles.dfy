/**
 * routes/profiles.js: the profile page (a user's campgrounds, paged) and the
 * profile update with its avatar replacement rule. The user lookup and the
 * image host's answer are inputs.
 */
module Profiles {
  import opened Wrappers
  import opened Entities
  import opened Image
  import opened Validation
  import opened Paging
  import opened Accounts
  import opened Middleware

  /** The campgrounds whose author id is `uid`, in the given order. */
  function AuthoredBy(all: seq<Campground>, uid: UserId): seq<Campground>
  {
    Filter(all, (c: Campground) => c.author.id == uid)
  }

  datatype ProfilePage = ProfilePage(profile: UserId, campgrounds: seq<Campground>, totalPages: int, currentPage: int)

  /**
   * GET /users/:id/profile over all campgrounds sorted newest first; `owner`
   * is the id of the user found (None: no such user). None: "Something went
   * wrong", redirect back.
   */
  function Show(owner: Option<UserId>, all: seq<Campground>, perPage: Option<int>, page: Option<int>): (r: Option<ProfilePage>)
    ensures r.Some? <==> owner.Some? && Offset(PerPage(perPage), PageNumber(page)) >= 0
    ensures r.Some? ==> r.value.profile == owner.value && r.value.currentPage == PageNumber(page)
    ensures r.Some? ==> |r.value.campgrounds| <= Abs(PerPage(perPage))
    ensures r.Some? && PerPage(perPage) > 0 ==>
              (r.value.totalPages - 1) * PerPage(perPage) < |AuthoredBy(all, owner.value)|
              <= r.value.totalPages * PerPage(perPage)
    ensures r.Some? ==> r.value.totalPages == CeilDiv(|AuthoredBy(all, owner.value)|, PerPage(perPage))
    ensures r.Some? ==> var offset := Offset(PerPage(perPage), PageNumber(page));
              var mine := AuthoredBy(all, owner.value);
              && |r.value.campgrounds| == Min(Abs(PerPage(perPage)), if offset < |mine| then |mine| - offset else 0)
              && forall j | 0 <= j < |r.value.campgrounds| ::
                   offset + j < |mine| && r.value.campgrounds[j] == mine[offset + j]
  {
    if owner.None? then None
    else
      var count := PerPage(perPage);
      var p := PageNumber(page);
      var mine := AuthoredBy(all, owner.value);
      match Window(mine, Offset(count, p), count)
      case None => None
      case Some(shown) => Some(ProfilePage(owner.value, shown, CeilDiv(|mine|, count), p))
  }

  /** Every campground on a profile page was created by the profile's user. */
  lemma ShowOnlyAuthored(owner: Option<UserId>, all: seq<Campground>, perPage: Option<int>, page: Option<int>)
    requires Show(owner, all, perPage, page).Some?
    ensures forall j | 0 <= j < |Show(owner, all, perPage, page).value.campgrounds| ::
              Show(owner, all, perPage, page).value.campgrounds[j].author.id == owner.value
              && Show(owner, all, perPage, page).value.campgrounds[j] in all
  {
    FilterMembers(all, (c: Campground) => c.author.id == owner.value);
  }

  /** With a positive page size, each of the user's campgrounds is on some page within the page count. */
  lemma EveryAuthoredListed(uid: UserId, all: seq<Campground>, perPage: Option<int>, i: nat)
    requires PerPage(perPage) > 0 && i < |AuthoredBy(all, uid)|
    ensures var count := PerPage(perPage);
            var page := i / count + 1;
            var r := Show(Some(uid), all, perPage, Some(page));
            && r.Some? && page <= r.value.totalPages
            && i % count < |r.value.campgrounds|
            && r.value.campgrounds[i % count] == AuthoredBy(all, uid)[i]
  {
    ItemOnItsPage(AuthoredBy(all, uid), PerPage(perPage), i);
  }

  /**
   * `req.body.profile`, which the handler hands whole to `findByIdAndUpdate`:
   * one optional value per writable user path (None: the body does not carry
   * it). The edit form sends the email and the names, but a client may send
   * any path of the user schema. `password` stands for the `hash` and `salt`
   * paths the account library adds. A missing email reads as the empty
   * string, which fails the email check.
   */
  datatype ProfileBody = ProfileBody(
    email: string, firstname: Option<string>, lastname: Option<string>,
    username: Option<string>, avatarUrl: Option<string>, avatarId: Option<string>,
    password: Option<string>, resetPasswordToken: Option<string>, resetPasswordExpires: Option<int>)

  /** An uploaded avatar: the client's file name and what the image host returned. */
  datatype Upload = Upload(originalName: string, hosted: Hosted)

  datatype UpdateOutcome =
    | UploadRejected(message: string)   // the upload filter refused the file
    | InvalidForm(errors: seq<Failure>) // the edit form is shown again with the errors
    | UpdateFailed                      // a file came for an id with no user: "Something went wrong"
    | Updated(destroyAvatar: Option<string>, profile: ProfileBody) // old avatar to destroy, body to write
    | DuplicateKey(destroyAvatar: Option<string>) // a unique index refused the write: "Something went wrong"

  /**
   * PUT /users/:id/profile. `storedAvatarId` is the found user's avatar id
   * ("" when unset), None when no user has the id. No session or ownership
   * check takes part.
   */
  function Update(body: ProfileBody, formats: Formats, file: Option<Upload>, storedAvatarId: Option<string>): (r: UpdateOutcome)
    ensures r.UploadRejected? <==> file.Some? && ImageFilter(file.value.originalName).Reject?
    ensures r.UploadRejected? ==> r.message == OnlyImagesMessage
    ensures r.InvalidForm? <==> !r.UploadRejected? && ProfileErrors(body.email, formats) != []
    ensures r.UpdateFailed? <==> !r.UploadRejected? && !r.InvalidForm? && file.Some? && storedAvatarId.None?
    ensures !r.DuplicateKey?
    ensures r.Updated? ==> formats.isEmail(body.email)
    ensures r.Updated? && file.None? ==> r.profile == body && r.destroyAvatar.None?
    ensures r.Updated? && file.Some? ==>
              r.profile == body.(avatarUrl := Some(file.value.hosted.secureUrl), avatarId := Some(file.value.hosted.publicId))
    ensures r.Updated? && r.destroyAvatar.Some? ==>
              file.Some? && storedAvatarId == r.destroyAvatar && r.destroyAvatar.value != ""
    ensures r.Updated? && file.Some? && storedAvatarId.Some? && storedAvatarId.value != "" ==>
              r.destroyAvatar == storedAvatarId
  {
    if file.Some? && ImageFilter(file.value.originalName).Reject? then
      UploadRejected(ImageFilter(file.value.originalName).message)
    else if ProfileErrors(body.email, formats) != [] then
      InvalidForm(ProfileErrors(body.email, formats))
    else if file.None? then
      Updated(None, body)
    else if storedAvatarId.None? then
      UpdateFailed
    else
      var hosted := file.value.hosted;
      Updated(if storedAvatarId.value != "" then storedAvatarId else None,
              body.(avatarUrl := Some(hosted.secureUrl), avatarId := Some(hosted.publicId)))
  }

  /** Without an upload the avatar fields written are the body's own, and nothing is destroyed. */
  lemma AvatarChangesOnlyWithUpload(body: ProfileBody, formats: Formats, stored: Option<string>)
    requires Update(body, formats, None, stored).Updated?
    ensures Update(body, formats, None, stored).profile.avatarUrl == body.avatarUrl
    ensures Update(body, formats, None, stored).profile.avatarId == body.avatarId
    ensures Update(body, formats, None, stored).destroyAvatar.None?
  {
  }

  /** The avatar id of the user with `id`, None when there is none. */
  function StoredAvatarId(users: seq<User>, id: UserId): Option<string>
    reads set u | u in users
  {
    match FindOne(users, ById(id))
    case Some(u) => Some(u.avatarId)
    case None => None
  }

  /**
   * The unique indexes on `username` and `email` (models/user.js): another
   * user already holds the body's email, or the username it carries.
   */
  predicate Clashes(users: seq<User>, target: User, b: ProfileBody)
    reads set u | u in users
  {
    exists u | u in users && u != target :: u.email == b.email || (b.username.Some? && u.username == b.username.value)
  }

  /**
   * The handler against the stored users: `Update` on the found user's avatar
   * id, except that when the write it decides would give the found user an
   * email or a username another user holds, the database refuses it; the
   * old avatar has been destroyed by then.
   */
  function StoreUpdate(users: seq<User>, id: UserId, body: ProfileBody, formats: Formats, file: Option<Upload>): (r: UpdateOutcome)
    reads set u | u in users
    ensures var d := Update(body, formats, file, StoredAvatarId(users, id));
            var found := FindOne(users, ById(id));
            && (r.DuplicateKey? <==> d.Updated? && found.Some? && Clashes(users, found.value, d.profile))
            && (r.DuplicateKey? ==> r.destroyAvatar == d.destroyAvatar)
            && (!r.DuplicateKey? ==> r == d)
  {
    var d := Update(body, formats, file, StoredAvatarId(users, id));
    var found := FindOne(users, ById(id));
    if d.Updated? && found.Some? && Clashes(users, found.value, d.profile) then DuplicateKey(d.destroyAvatar) else d
  }

  /** A value the body gives, or the one kept. */
  function Pick<T>(given: Option<T>, kept: T): T
  {
    if given.Some? then given.value else kept
  }

  /** The user now holds every path the body carries and keeps every other one (`$set` of the body). */
  twostate predicate Wrote(u: User, b: ProfileBody)
    reads u
  {
    && u.email == b.email
    && u.firstname == Pick(b.firstname, old(u.firstname))
    && u.lastname == Pick(b.lastname, old(u.lastname))
    && u.username == Pick(b.username, old(u.username))
    && u.avatarUrl == Pick(b.avatarUrl, old(u.avatarUrl))
    && u.avatarId == Pick(b.avatarId, old(u.avatarId))
    && u.password == Pick(b.password, old(u.password))
    && u.resetPasswordToken == (if b.resetPasswordToken.Some? then b.resetPasswordToken else old(u.resetPasswordToken))
    && u.resetPasswordExpires == (if b.resetPasswordExpires.Some? then b.resetPasswordExpires else old(u.resetPasswordExpires))
  }

  /** `findByIdAndUpdate(id, body)` on the found user. */
  method WriteProfile(u: User, b: ProfileBody)
    modifies u
    ensures Wrote(u, b)
  {
    u.email := b.email;
    u.firstname := Pick(b.firstname, u.firstname);
    u.lastname := Pick(b.lastname, u.lastname);
    u.username := Pick(b.username, u.username);
    u.avatarUrl := Pick(b.avatarUrl, u.avatarUrl);
    u.avatarId := Pick(b.avatarId, u.avatarId);
    u.password := Pick(b.password, u.password);
    if b.resetPasswordToken.Some? {
      u.resetPasswordToken := b.resetPasswordToken;
    }
    if b.resetPasswordExpires.Some? {
      u.resetPasswordExpires := b.resetPasswordExpires;
    }
  }

  /**
   * PUT /users/:id/profile against the users, as written: the outcome is
   * `StoreUpdate`; when it is Updated the found user (if any) gets every path
   * of the body, and no other user changes. The unique indexes hold after
   * a write: no other user has the written email, or the written username.
   */
  method UpdateProfile(users: seq<User>, id: UserId, body: ProfileBody, formats: Formats, file: Option<Upload>)
    returns (r: UpdateOutcome)
    modifies set u | u in users
    ensures r == old(StoreUpdate(users, id, body, formats, file))
    ensures r.Updated? && old(FindOne(users, ById(id))).Some? ==> Wrote(old(FindOne(users, ById(id))).value, r.profile)
    ensures r.Updated? && old(FindOne(users, ById(id))).Some? ==>
              var w := old(FindOne(users, ById(id))).value;
              forall u | u in users && u != w :: u.email != w.email && (body.username.Some? ==> u.username != w.username)
    ensures forall u | u in users && !(r.Updated? && old(FindOne(users, ById(id))) == Some(u)) :: unchanged(u)
  {
    var found := FindOne(users, ById(id));
    r := StoreUpdate(users, id, body, formats, file);
    if r.Updated? && found.Some? {
      WriteProfile(found.value, r.profile);
    }
  }

  /**
   * The unguarded update lets anyone take over an account: a visitor with no
   * session writes a reset token of their choosing, valid one millisecond past
   * now, into the victim's profile, then redeems it at POST /reset/:token and
   * sets the victim's password. The only conditions are that the victim is
   * the user the id selects, that the victim's email passes the email check
   * and is the victim's alone (it is sent back unchanged), that nobody else
   * holds the same token, and that the new password is not empty.
   */
  method ProfileTakeover(users: seq<User>, victim: User, formats: Formats, token: string, newPassword: string, now: int)
    returns (outcome: ResetOutcome)
    requires victim in users && FindOne(users, ById(victim.id)) == Some(victim)
    requires formats.isEmail(victim.email) && forall u | u in users && u != victim :: u.email != victim.email
    requires newPassword != ""
    requires forall u | u in users && u != victim :: !u.IsValid(token, now)
    modifies set u | u in users
    ensures outcome == PasswordChanged(victim) && victim.password == newPassword
  {
    var body := ProfileBody(victim.email, None, None, None, None, None, None, Some(token), Some(now + 1));
    var r := UpdateProfile(users, victim.id, body, formats, None);
    assert victim.IsValid(token, now);
    forall u | u in users && u != victim
      ensures !u.IsValid(token, now)
    {
    }
    outcome := ResetPassword(users, token, newPassword, newPassword, now);
  }

  /** The paths the edit form sends. The avatar paths come only from an upload. */
  function FormFields(b: ProfileBody): (f: ProfileBody)
    ensures f.email == b.email && f.firstname == b.firstname && f.lastname == b.lastname
    ensures f.username.None? && f.password.None? && f.avatarUrl.None? && f.avatarId.None?
    ensures f.resetPasswordToken.None? && f.resetPasswordExpires.None?
  {
    b.(username := None, avatarUrl := None, avatarId := None, password := None,
       resetPasswordToken := None, resetPasswordExpires := None)
  }

  /**
   * The update as evidently intended: guarded like the edit form by the
   * profile ownership check, and writing only the form's fields and an
   * uploaded avatar. Only the session user's own profile can change, and no
   * update touches a username, a password or the reset fields.
   */
  method GuardedUpdateProfile(users: seq<User>, session: Option<SessionUser>, id: UserId, body: ProfileBody,
                              formats: Formats, file: Option<Upload>)
    returns (v: Middleware.Verdict, r: Option<UpdateOutcome>)
    modifies set u | u in users
    ensures v == Authorize(session, old(UserLookup(users, id)), ProfileOwner)
    ensures v != Allowed ==> r.None? && forall u | u in users :: unchanged(u)
    ensures v == Allowed ==> r == Some(old(StoreUpdate(users, id, FormFields(body), formats, file)))
    ensures forall u | u in users && (session.None? || u.id != session.value.id) :: unchanged(u)
    ensures forall u | u in users ::
              && u.username == old(u.username) && u.password == old(u.password)
              && u.Ticket() == old(u.Ticket())
    ensures forall u | u in users && (file.None? || !(r.Some? && r.value.Updated?)) ::
              u.avatarUrl == old(u.avatarUrl) && u.avatarId == old(u.avatarId)
  {
    v := Authorize(session, UserLookup(users, id), ProfileOwner);
    if v != Allowed {
      return v, None;
    }
    var o := UpdateProfile(users, id, FormFields(body), formats, file);
    r := Some(o);
  }

  /** `User.findById` as the profile guard sees it. */
  function UserLookup(users: seq<User>, id: UserId): (l: Lookup<User>)
    reads set u | u in users
    ensures l.Found? <==> FindOne(users, ById(id)).Some?
    ensures l.Found? ==> l.entity == FindOne(users, ById(id)).value
    ensures !l.LookupError?
  {
    match FindOne(users, ById(id))
    case Some(u) => Found(u)
    case None => NotFound
  }
}
