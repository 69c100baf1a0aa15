/**
 * The routes the application registers, router by router, each with the
 * middleware that runs before its handler, in order. app.js mounts the
 * routers at "/", "/users", "/campgrounds", "/campgrounds/:id/comments" and
 * "/campgrounds/:id/reviews"; paths below are relative to the mount.
 */
module Routes {
  datatype Verb = Get | Post | Put | Delete

  datatype Owned = CampgroundEntity | CommentEntity | ReviewEntity | ProfileEntity

  datatype Stage =
    | LoggedIn               // middleware.isLoggedIn
    | Owns(entity: Owned)    // one of the ownership guards
    | UploadImage            // upload.single(...) with the image filter
    | Validate               // one of the express-validator check lists
    | PassportLogin          // passport.authenticate("local")

  datatype Route = Route(verb: Verb, path: string, stages: seq<Stage>)

  datatype Mount = Mount(prefix: string, routes: seq<Route>)

  /** routes/index.js */
  const AuthRoutes: seq<Route> := [
    Route(Get, "/", []),
    Route(Get, "/register", []),
    Route(Post, "/register", [Validate]),
    Route(Get, "/login", []),
    Route(Post, "/login", [PassportLogin]),
    Route(Get, "/logout", []),
    Route(Get, "/forgot", []),
    Route(Post, "/forgot", []),
    Route(Get, "/reset/:token", []),
    Route(Post, "/reset/:token", [])
  ]

  /** routes/profiles.js */
  const ProfileRoutes: seq<Route> := [
    Route(Get, "/:id/profile", []),
    Route(Get, "/:id/profile/edit", [Owns(ProfileEntity)]),
    Route(Put, "/:id/profile", [UploadImage, Validate])
  ]

  /** routes/campgrounds.js */
  const CampgroundRoutes: seq<Route> := [
    Route(Get, "/", []),
    Route(Get, "/new", [LoggedIn]),
    Route(Post, "/", [LoggedIn, UploadImage, Validate]),
    Route(Get, "/:id", []),
    Route(Get, "/:id/edit", [Owns(CampgroundEntity)]),
    Route(Put, "/:id", [Owns(CampgroundEntity), UploadImage]),
    Route(Delete, "/:id", [Owns(CampgroundEntity)])
  ]

  /** routes/comments.js */
  const CommentRoutes: seq<Route> := [
    Route(Post, "/", [LoggedIn, Validate]),
    Route(Put, "/:comment_id", [Owns(CommentEntity), Validate]),
    Route(Delete, "/:comment_id", [Owns(CommentEntity)])
  ]

  /** routes/reviews.js: the update and delete routes are commented out there. */
  const ReviewRoutes: seq<Route> := [
    Route(Get, "/new", [LoggedIn]),
    Route(Get, "/", []),
    Route(Post, "/", [LoggedIn]),
    Route(Get, "/:review_id/edit", [])
  ]

  const Mounts: seq<Mount> := [
    Mount("", AuthRoutes),
    Mount("/users", ProfileRoutes),
    Mount("/campgrounds", CampgroundRoutes),
    Mount("/campgrounds/:id/comments", CommentRoutes),
    Mount("/campgrounds/:id/reviews", ReviewRoutes)
  ]

  /** A stage that consults the session: it refuses a request without a logged-in user. */
  predicate NeedsSession(s: Stage)
  {
    s.LoggedIn? || s.Owns?
  }

  /** No route a router registers uses `stage`. */
  predicate Unused(routes: seq<Route>, stage: Stage)
  {
    forall k | 0 <= k < |routes| :: stage !in routes[k].stages
  }

  /**
   * The reviews router registers no PUT and no DELETE; its only POST is the
   * login-gated create. So no review route changes a stored review once it
   * is created; the cached rating is written by the review create and,
   * unchecked, by the campground UPDATE, which sets whatever form fields it
   * receives.
   */
  lemma NoReviewUpdateOrDelete()
    ensures forall k | 0 <= k < |ReviewRoutes| :: ReviewRoutes[k].verb in {Get, Post}
    ensures forall k | 0 <= k < |ReviewRoutes| && ReviewRoutes[k].verb == Post ::
              ReviewRoutes[k] == Route(Post, "/", [LoggedIn])
  {
  }

  /** The profile edit form is guarded by ownership; the update it submits to consults no session. */
  lemma ProfileUpdateUnguarded()
    ensures Route(Get, "/:id/profile/edit", [Owns(ProfileEntity)]) in ProfileRoutes
    ensures forall k | 0 <= k < |ProfileRoutes| && ProfileRoutes[k].verb == Put ::
              forall s | s in ProfileRoutes[k].stages :: !NeedsSession(s)
  {
    assert ProfileRoutes[1] == Route(Get, "/:id/profile/edit", [Owns(ProfileEntity)]);
  }

  /** The review ownership guard exists but no mounted router uses it. */
  lemma ReviewGuardUnused()
    ensures forall m | m in Mounts :: Unused(m.routes, Owns(ReviewEntity))
  {
  }

  /** Every route that changes a campground or a comment first requires a session. */
  lemma CampgroundWritesNeedSession()
    ensures forall k | 0 <= k < |CampgroundRoutes| && CampgroundRoutes[k].verb != Get ::
              |CampgroundRoutes[k].stages| > 0 && NeedsSession(CampgroundRoutes[k].stages[0])
    ensures forall k | 0 <= k < |CommentRoutes| ::
              |CommentRoutes[k].stages| > 0 && NeedsSession(CommentRoutes[k].stages[0])
  {
  }
}
