/**
 * The authentication gate and the four ownership guards of middleware/index.js.
 * Every guard makes the same decision (the `Authorize` function below, one
 * function for all entity types); the guards differ only in which request
 * field receives the loaded entity and in where, if anywhere, they redirect.
 * The store lookup is an input: an error, nothing found, or the entity.
 */
module Middleware {
  import opened Wrappers
  import opened Entities
  import opened ReviewModel
  import opened Accounts

  datatype Lookup<T> = LookupError | NotFound | Found(entity: T)

  /** The four outcomes a guard distinguishes. */
  datatype Verdict = Unauthenticated | SomethingWentWrong | Forbidden | Allowed

  const LoginMessage := "You need to be logged in to do that!"
  const WrongMessage := "Something went wrong"
  const PermissionMessage := "You don't have permission to do that!"

  /**
   * The ownership decision: first authentication, then the lookup (an error and
   * a missing entity are alike), then equality of the owner's id with the
   * session user's id.
   */
  function Authorize<T>(user: Option<SessionUser>, lookup: Lookup<T>, owner: T -> UserId): (v: Verdict)
    ensures v == Unauthenticated <==> user.None?
    ensures v == SomethingWentWrong <==> user.Some? && !lookup.Found?
    ensures v == Forbidden <==> user.Some? && lookup.Found? && owner(lookup.entity) != user.value.id
    ensures v == Allowed <==> user.Some? && lookup.Found? && owner(lookup.entity) == user.value.id
  {
    if user.None? then Unauthenticated
    else match lookup
      case Found(e) => if owner(e) == user.value.id then Allowed else Forbidden
      case _ => SomethingWentWrong
  }

  function CommentOwner(c: Comment): UserId { c.author.id }
  function CampgroundOwner(c: Campground): UserId { c.author.id }
  function ReviewOwner(r: Review): UserId { r.author.id }
  /** A profile is owned by the user it describes. */
  function ProfileOwner(u: User): UserId { u.id }

  /**
   * Without a session the verdict does not depend on the lookup: the guard
   * decides before consulting the store.
   */
  lemma UnauthenticatedIgnoresLookup<T>(l1: Lookup<T>, l2: Lookup<T>, owner: T -> UserId)
    ensures Authorize(None, l1, owner) == Authorize(None, l2, owner) == Unauthenticated
  {
  }

  /** Only the id of the author reference counts: its username snapshot never changes a verdict. */
  lemma UsernameSnapshotIrrelevant(user: Option<SessionUser>, c: Comment, name: string)
    ensures Authorize(user, Found(c), CommentOwner)
         == Authorize(user, Found(Comment(c.text, Author(c.author.id, name))), CommentOwner)
  {
  }

  /** For a found entity exactly one user is allowed: its owner. */
  lemma OwnerAloneAllowed<T>(u: SessionUser, e: T, owner: T -> UserId)
    ensures Authorize(Some(u), Found(e), owner) == Allowed <==> u.id == owner(e)
    ensures Authorize(Some(u), Found(e), owner) != Allowed ==> Authorize(Some(u), Found(e), owner) == Forbidden
  {
  }

  datatype Flash = Flash(kind: string, message: string)

  /** The flash a guard leaves for a verdict. */
  function FlashFor(v: Verdict): seq<Flash>
  {
    match v
    case Unauthenticated => [Flash("error", LoginMessage)]
    case SomethingWentWrong => [Flash("error", WrongMessage)]
    case Forbidden => [Flash("error", PermissionMessage)]
    case Allowed => []
  }

  /** The request and its response, with the fields the guards read and set. */
  class Request {
    /** `req.user`; `req.isAuthenticated()` holds exactly when it is present. */
    const user: Option<SessionUser>
    var comment: Option<Comment>
    var campground: Option<Campground>
    var review: Option<Review>
    var userDetails: Option<User>
    var flashes: seq<Flash>
    /** Where the response redirects to, if it has. */
    var redirect: Option<string>
    /** Whether the next handler has been called. */
    var passed: bool

    constructor (user: Option<SessionUser>)
      ensures this.user == user && comment.None? && campground.None? && review.None? && userDetails.None?
      ensures flashes == [] && redirect.None? && !passed
    {
      this.user := user;
      comment, campground, review, userDetails := None, None, None, None;
      flashes, redirect, passed := [], None, false;
    }

    /** Records a verdict's flash and redirect, and calls the next handler when it allows. */
    method Conclude(v: Verdict, target: Option<string>)
      modifies this
      ensures flashes == old(flashes) + FlashFor(v)
      ensures redirect == if v == Allowed then old(redirect) else target
      ensures passed == (old(passed) || v == Allowed)
      ensures comment == old(comment) && campground == old(campground)
      ensures review == old(review) && userDetails == old(userDetails)
    {
      flashes := flashes + FlashFor(v);
      if v == Allowed {
        passed := true;
      } else {
        redirect := target;
      }
    }

    /** isLoggedIn: pass when authenticated, otherwise flash and redirect to the login page. */
    method IsLoggedIn()
      modifies this
      ensures passed == (old(passed) || user.Some?)
      ensures user.Some? ==> flashes == old(flashes) && redirect == old(redirect)
      ensures user.None? ==> flashes == old(flashes) + [Flash("error", LoginMessage)] && redirect == Some("/login")
      ensures comment == old(comment) && campground == old(campground)
      ensures review == old(review) && userDetails == old(userDetails)
    {
      if user.Some? {
        passed := true;
      } else {
        flashes := flashes + [Flash("error", LoginMessage)];
        redirect := Some("/login");
      }
    }

    /** checkCommentOwnership: every failure redirects back. */
    method CheckCommentOwnership(lookup: Lookup<Comment>)
      modifies this
      ensures var v := Authorize(user, lookup, CommentOwner);
        && passed == (old(passed) || v == Allowed)
        && comment == (if v == Allowed then Some(lookup.entity) else old(comment))
        && flashes == old(flashes) + FlashFor(v)
        && redirect == (if v == Allowed then old(redirect) else Some("back"))
      ensures campground == old(campground) && review == old(review) && userDetails == old(userDetails)
    {
      var v := Authorize(user, lookup, CommentOwner);
      if v == Allowed {
        comment := Some(lookup.entity);
      }
      Conclude(v, Some("back"));
    }

    /** checkCampgroundOwnership: every failure redirects back. */
    method CheckCampgroundOwnership(lookup: Lookup<Campground>)
      modifies this
      ensures var v := Authorize(user, lookup, CampgroundOwner);
        && passed == (old(passed) || v == Allowed)
        && campground == (if v == Allowed then Some(lookup.entity) else old(campground))
        && flashes == old(flashes) + FlashFor(v)
        && redirect == (if v == Allowed then old(redirect) else Some("back"))
      ensures comment == old(comment) && review == old(review) && userDetails == old(userDetails)
    {
      var v := Authorize(user, lookup, CampgroundOwner);
      if v == Allowed {
        campground := Some(lookup.entity);
      }
      Conclude(v, Some("back"));
    }

    /**
     * checkReviewOwnership: a failed or empty lookup only flashes, leaving the
     * response unsent; the other failures redirect back.
     */
    method CheckReviewOwnership(lookup: Lookup<Review>)
      modifies this
      ensures var v := Authorize(user, lookup, ReviewOwner);
        && passed == (old(passed) || v == Allowed)
        && review == (if v == Allowed then Some(lookup.entity) else old(review))
        && flashes == old(flashes) + FlashFor(v)
        && redirect == (if v == Allowed || v == SomethingWentWrong then old(redirect) else Some("back"))
      ensures comment == old(comment) && campground == old(campground) && userDetails == old(userDetails)
    {
      var v := Authorize(user, lookup, ReviewOwner);
      if v == Allowed {
        review := Some(lookup.entity);
      }
      Conclude(v, if v == SomethingWentWrong then redirect else Some("back"));
    }

    /**
     * checkProfileOwnership: the profile's own id must be the session user's;
     * a failed or empty lookup only flashes, the other failures redirect to
     * the campground list.
     */
    method CheckProfileOwnership(lookup: Lookup<User>)
      modifies this
      ensures var v := Authorize(user, lookup, ProfileOwner);
        && passed == (old(passed) || v == Allowed)
        && userDetails == (if v == Allowed then Some(lookup.entity) else old(userDetails))
        && flashes == old(flashes) + FlashFor(v)
        && redirect == (if v == Allowed || v == SomethingWentWrong then old(redirect) else Some("/campgrounds"))
      ensures comment == old(comment) && campground == old(campground) && review == old(review)
    {
      var v := Authorize(user, lookup, ProfileOwner);
      if v == Allowed {
        userDetails := Some(lookup.entity);
      }
      Conclude(v, if v == SomethingWentWrong then redirect else Some("/campgrounds"));
    }
  }
}
