# YelpCamp core in Dafny

YelpCamp is an Express/Mongoose web application. Users register, list
campgrounds with an uploaded image and a geocoded address, comment on them,
and rate them with reviews. This project models the application's decision
logic and state changes and proves properties about them:

- **Search escaping** (`Escape`). `escapeRegex` backslash-escapes the characters
  `- [ ] { } ( ) * + ? . , \ ^ $ | #` and JavaScript whitespace. It is modelled
  as a recursive function with an inverse, `Unescape`. Both
  helpers/escapeRegexHelper.js and routes/campgrounds.js define it with the same
  character class, and both are this one function.
- **Upload filter and stored name** (`Image`). The filter accepts a name that ends
  in `.jpg`, `.jpeg`, `.png` or `.gif`, ignoring case; any other name is
  rejected with "Only image files are allowed!". The stored file name is the
  decimal timestamp followed by the original name. routes/campgrounds.js repeats
  the same filter inline, and `ImageFilter` models both copies.
- **Reviews** (`ReviewModel`, `Ratings`).
  - The schema's rating validators run in order: required, at least 1, at most
    5, integer.
  - `calculateAverage` is a loop method proved against the mean of the ratings.
- **Guards** (`Middleware`). Every ownership guard makes the same decision,
  `Authorize`: not logged in, lookup failed, forbidden, or allowed. A `Request`
  object records what each guard sets on the request and the response: the
  entity, flashes, the redirect, and whether `next` ran.
- **Validation** (`Validation`).
  - The express-validator check lists are modelled as error lists.
  - `isEmail` and `isCurrency` are parameters (`Formats`).
- **Accounts** (`Accounts`).
  - Registration goes through a validation gate.
  - A `User` class carries the password-reset token lifecycle: issue, validity
    and clear.
  - The forgot and reset handlers run over a sequence of users.
- **Paging** (`Paging`).
  - `Number(per_page) || 12`, `page || 1` and `offset = count*page - count`.
  - A MongoDB skip/limit window over a sequence already sorted newest first: a
    negative skip is an error, and a negative limit means its absolute value.
  - `Math.ceil(total/count)`.
- **Routes**, each modelled as pure decisions plus, where the handler changes
  stored data, a method on an object that holds it:
  - `CampgroundsRoute`: the index (search and paging) and the create gate.
  - `ReviewsRoute`: the review listing.
  - `Profiles`: the profile page and the profile update.
  - `Store`: a class holding the campground, comment and review collections as
    maps, with the review create, campground create and cascading campground
    delete. Its invariant `Valid` holds under these three handlers and states:
    - every review a campground lists exists and refers back to that campground;
    - every review that refers to a campground is listed by it, and that campground exists;
    - every stored rating is an integer in [1,5];
    - every cached rating is the mean of the reviews the campground lists.
    The campground UPDATE handler, which is not modelled, can break it (see below).
  - `Routes`: the registered route table with each route's middleware.

External effects are inputs or are left out:
- **Inputs:** the clock (`now`), the random reset token, the geocoder's first
  match, the image host's `secure_url`/`public_id`, fresh document ids, and the
  user lookup.
- **Left out:** e-mail, logging, and the image host's destroy calls. For the
  avatar, the model returns which id the update would destroy.

Some behaviour of the code is modelled as written:
- Registration accepts a five-character username, although its message says
  "longer than 5".
- Campground creation validates the nested `campground[...]` fields but stores
  the top-level `name`, `price` and `description` fields.
- A review posted to a campground id that does not exist is still stored, with
  no campground reference, before the handler fails.
- The index page count ignores the search.
- The profile update route has no login or ownership guard, and it writes
  every path of the submitted profile body, so it can overwrite another
  user's reset token (see Findings).

## Model

| member | source | states |
|---|---|---|
| Escape.EscapeRegex | helpers/escapeRegexHelper.js:2-4 | the escaped string is longer than the input by exactly the number of special characters (routes/campgrounds.js:196-198 is the same function) |
| Escape.EscapeAt | helpers/escapeRegexHelper.js:3 | each input character lands, in order, after the backslashes inserted before it: a special character as a backslash followed by itself, any other character unchanged |
| Escape.EscapeAppend | helpers/escapeRegexHelper.js:3 | escaping works character by character: the escape of a concatenation is the concatenation of the escapes |
| Escape.UnescapeEscape | helpers/escapeRegexHelper.js:3 | removing each inserted backslash recovers the input: unescape after escape is the identity |
| Escape.EscapeUnescape | helpers/escapeRegexHelper.js:3 | a pattern that unescapes to a string is exactly that string's escape, so escaping is a bijection onto well-formed patterns |
| Escape.EscapeUnchangedIff | helpers/escapeRegexHelper.js:3 | the output equals the input (for example, the empty string) if and only if the input has no special character |
| Escape.EscapeBackslash | helpers/escapeRegexHelper.js:3 | a backslash becomes two backslashes |
| Escape.EscapeTwiceIff | helpers/escapeRegexHelper.js:3 | escaping twice gives the same as escaping once only for inputs without special characters, so escaping is not idempotent |
| Image.ImageFilter | helpers/imageHelper.js:9-14 | a rejection always carries the message "Only image files are allowed!" |
| Image.ImageFilterAcceptsIff | helpers/imageHelper.js:10 | a file is accepted if and only if its name ends, ignoring case, in one of the four extensions |
| Image.ImageFilterSuffix | helpers/imageHelper.js:10 | only the end of the name matters: anything put before a name of five or more characters leaves the verdict unchanged |
| Image.AcceptedLastChar | helpers/imageHelper.js:10 | an accepted name ends in g or f, ignoring case |
| Image.ImageFilterExamples | helpers/imageHelper.js:10-13 | "a.png.exe" is rejected with the message and "a.exe.png" is accepted |
| Image.Decimal | helpers/imageHelper.js:5 | the timestamp's text is a non-empty run of decimal digits |
| Image.DecimalRoundTrip | helpers/imageHelper.js:5 | reading the timestamp's digits back gives the timestamp |
| Image.StoredFilename | helpers/imageHelper.js:4-6 | the stored name is a digit run that reads back as the timestamp, immediately followed by the unchanged original name |
| Image.StoredFilenameKeepsVerdict | helpers/imageHelper.js:4-14 | the filter gives the same verdict on the stored name as on the original name |
| ReviewModel.CheckRating | models/review.js:4-13 | a rating passes if and only if it is present, between 1 and 5 and an integer; a missing rating fails "required"; a non-integer failure is reported only for values within [1,5] |
| ReviewModel.CreateReview | models/review.js:3-27 | a review is created exactly when its rating passes; it keeps the text and has the given (id, username) author and at most one campground reference |
| ReviewModel.RatingExamples | models/review.js:6-12 | ratings 0 and 6 fail min and max, 3.5 fails the integer check, 5 passes and a missing rating fails required |
| Ratings.CalculateAverage | routes/reviews.js:94-106 | the loop's result is 0 for no reviews and otherwise the sum of the ratings divided by their count |
| Ratings.SumBounds | routes/reviews.js:101-103 | with every rating in [1,5], the total lies between the count and five times the count |
| Ratings.MeanInRange | routes/reviews.js:94-106 | with every rating an integer in [1,5], a non-empty average lies in [1,5] |
| Ratings.MeanExamples | routes/reviews.js:97-105 | the average of nothing is 0 and the average of 4, 5, 3 is 4 |
| Validation.RegisterErrors | middleware/validation.js:4-8 | a username shorter than 5, a password shorter than 8 and an invalid email each give their own error, and the list is empty exactly when all three checks pass |
| Validation.ProfileErrors | middleware/validation.js:10-12 | the profile form fails exactly when the new email is not an email, with that one error |
| Validation.CampgroundErrors | middleware/validation.js:14-19 | name and location lengths in [1,255], description length in [1,500] and a currency price, each with its own error; no errors exactly when all four hold |
| Validation.CommentErrors | middleware/validation.js:21-23 | a comment fails exactly when its text is empty |
| Validation.UsernameBoundary | middleware/validation.js:5 | a five-character username passes and a four-character one fails only that check |
| Accounts.Register | routes/index.js:21-48 | any failed check renders the errors and creates no user; a user is created exactly when the checks pass and the account library accepts, with the form's fields and the default avatar URL |
| Accounts.ShortUsernameNotRegistered | routes/index.js:24-26 | a registration with a username under five characters is rendered with the username error and creates no user |
| Accounts.IssuedAdmitsIff | routes/index.js:90-91 | an issued token is accepted by the reset lookups exactly when it is the same token and less than 3600000 ms have passed |
| Accounts.ClearedAdmitsNothing | routes/index.js:154-155 | after the fields are cleared no token is accepted at any time |
| Accounts.User.constructor | routes/index.js:28-34 | a new user has the registered fields, the given avatar URL, no avatar id and no reset token |
| Accounts.User.RequestReset | routes/index.js:90-91 | the token is stored with expiry now + 3600000, overwriting any earlier token, and no other field changes |
| Accounts.User.Reset | routes/index.js:152-155 | with matching, non-empty passwords the password is set and both reset fields are cleared; when they differ, or `setPassword` refuses the empty password, nothing changes |
| Accounts.FindOne | routes/index.js:84 | `findById`, `findOne({email})` and the reset-token `findOne` (routes/index.js:145, routes/profiles.js:57): the result is the first user, in collection order, that satisfies the query, and there is none exactly when no user does |
| Accounts.User.IsValid | routes/index.js:145 | a token is valid at a time exactly when it is the stored token and the stored expiry is after that time |
| Accounts.Forgot | routes/index.js:79-92 | an unknown email changes no user; otherwise that user gets the new token and expiry, keeps its username, email, names, avatar and password, and no other user changes |
| Accounts.ResetPassword | routes/index.js:143-188 | an invalid or expired token changes nothing; different passwords, and an empty one that `setPassword` refuses, are each reported exactly when they occur and change nothing, so the token stays usable; otherwise the selected user gets the new password, keeps its username, email, names and avatar, and the token can never be used again |
| Middleware.Authorize | middleware/index.js:16-37 | decision table: not logged in, lookup error or missing entity, owner id differs, owner id equals the session user id, each exactly characterising its verdict |
| Middleware.UnauthenticatedIgnoresLookup | middleware/index.js:33-36 | without a session the verdict is the same whatever the lookup would give |
| Middleware.UsernameSnapshotIrrelevant | middleware/index.js:24 | ownership compares ids only: the author's stored username never changes the verdict |
| Middleware.OwnerAloneAllowed | middleware/index.js:49-55 | for a found entity the session user is allowed exactly when it is the owner, and forbidden otherwise |
| Middleware.Request.IsLoggedIn | middleware/index.js:8-14 | next runs exactly when authenticated; otherwise the login flash is added and the response redirects to /login |
| Middleware.Request.CheckCommentOwnership | middleware/index.js:16-37 | on Allowed the comment is attached and next runs; every other verdict adds its flash and redirects back |
| Middleware.Request.CheckCampgroundOwnership | middleware/index.js:40-62 | on Allowed the campground is attached and next runs; every other verdict adds its flash and redirects back |
| Middleware.Request.CheckReviewOwnership | middleware/index.js:64-83 | on Allowed the review is attached and next runs; a failed lookup only flashes; the other failures redirect back |
| Middleware.Request.CheckProfileOwnership | middleware/index.js:85-104 | on Allowed the user is attached and next runs; a failed lookup only flashes; the other failures redirect to /campgrounds |
| Paging.PerPage | routes/campgrounds.js:47 | the page size is never 0: a missing or zero per_page gives 12, any other value is kept |
| Paging.PageNumber | routes/campgrounds.js:48 | a missing page is page 1 |
| Paging.Offset | routes/campgrounds.js:49 | the offset is (page - 1) times the page size, non-negative for page 1 onwards |
| Paging.Window | routes/campgrounds.js:56 | a negative skip fails; otherwise the window holds exactly min(abs(limit), items left after the skip) items, each the item at offset + its position |
| Paging.CeilDiv | routes/campgrounds.js:58 | for a positive page size the page count is the least number of pages that holds all items, and it is the rounded-up quotient for a negative one too |
| Paging.ItemOnItsPage | routes/campgrounds.js:49-58 | with a positive page size, item i is shown at position i mod count of page i / count + 1, and that page is within the page count |
| Paging.PagePastEndEmpty | routes/campgrounds.js:56-58 | a page after the page count is empty |
| Paging.FirstPageStartsAtZero | routes/campgrounds.js:47-49 | page 1 starts at offset 0 |
| CampgroundsRoute.NamePattern | routes/campgrounds.js:52-55 | a filter is applied exactly when a non-empty search term is given, and its pattern denotes the term literally |
| CampgroundsRoute.Index | routes/campgrounds.js:45-69 | the listing fails exactly when the skip is negative; otherwise it holds at most abs(page size) selected campgrounds, taken in order from the offset, and the page count is the rounded-up quotient of all campgrounds by the page size |
| CampgroundsRoute.IndexListsOnlyMatches | routes/campgrounds.js:52-56 | with a search, every listed campground's name contains the term, ignoring case |
| CampgroundsRoute.SearchSelectsEveryMatch | routes/campgrounds.js:52-56 | every campground whose name contains the term is among those the search pages through |
| CampgroundsRoute.TotalPagesIgnoresSearch | routes/campgrounds.js:57-58 | the reported page count is the same with or without a search and is computed over all campgrounds |
| CampgroundsRoute.IndexFirstPage | routes/campgrounds.js:47-60 | without query parameters the index shows the first twelve selected campgrounds |
| CampgroundsRoute.PlanCampground | routes/campgrounds.js:77-122 | a campground is created exactly when there is a session, an accepted image, no validation error and a geocoder match; each failure (no session, rejected file, validation errors, no match, no file) is reported exactly when the earlier gates pass and it fails; a created campground has the session user as author, the form's fields, the geocoded address, latitude and longitude, the hosted image, and no comments or reviews |
| Store.Find | routes/campgrounds.js:179 | the lookup finds exactly the stored ids, with their stored documents, and never errors |
| Store.ListedOnce | routes/reviews.js:44-47 | in a valid store a review is listed by at most one campground |
| Store.StoreLinked | routes/reviews.js:44-47 | setting the new review's campground and appending it to that campground's list keeps every listed review linked back and every linked review listed |
| Store.StoreCached | routes/reviews.js:47-48 | caching the mean over the extended list keeps every stored rating valid and every cached rating the mean of its campground's reviews |
| Store.Store.AddReview | routes/reviews.js:37-57 | the review is stored with the session user as author and the campground link, appended to the campground's list, and the cached rating becomes the mean over all its reviews including the new one; invalid ratings and missing sessions change nothing; the store invariant is kept |
| Store.Store.AddCampground | routes/campgrounds.js:102-119 | the planned campground is stored under its new id and nothing else changes; on any failure nothing changes |
| Store.Store.DestroyCampground | routes/campgrounds.js:176-194 | after the ownership guard allows it, the comments and reviews the campground lists are removed and then the campground, so no remaining review refers to it; other campgrounds keep their reviews and ratings; the store invariant is kept |
| Store.CachedRatingInRange | routes/reviews.js:47-48 | a campground with reviews has a cached rating in [1,5] |
| ReviewsRoute.Show | routes/reviews.js:13-34 | a page below 1 fails; otherwise the listing is exactly the next min(5, remaining) reviews of this campground from the page's offset, in order, and the page count is the least number of 5-review pages holding them all |
| ReviewsRoute.ShowOnlyThisCampground | routes/reviews.js:19-26 | every listed review belongs to the requested campground |
| ReviewsRoute.EveryReviewListed | routes/reviews.js:15-29 | the i-th review of the campground is at position i mod 5 of page i / 5 + 1, within the page count |
| Profiles.Show | routes/profiles.js:12-42 | a missing user or a negative skip fails; otherwise the listing is exactly the next min(abs(page size), remaining) of the user's campgrounds from the offset, in order, and the page count is the rounded-up quotient of the user's campgrounds by the page size, the least covering count when it is positive |
| Profiles.ShowOnlyAuthored | routes/profiles.js:20-24 | every listed campground was created by the profile's user |
| Profiles.EveryAuthoredListed | routes/profiles.js:13-30 | each of the user's campgrounds is on the page its index gives, within the page count |
| Profiles.Update | routes/profiles.js:50-76 | rejected uploads and invalid emails stop the update; the avatar fields are replaced only when a file is uploaded; the old avatar is destroyed only when a file is uploaded and the user has an avatar id |
| Profiles.AvatarChangesOnlyWithUpload | routes/profiles.js:59-66 | without a file the avatar fields are the form's own and nothing is destroyed |
| Profiles.WriteProfile | routes/profiles.js:68 | the email is written and every other path the body carries (names, username, avatar, password, reset token and expiry) replaces the stored one; paths the body leaves out are kept |
| Profiles.StoreUpdate | routes/profiles.js:57-72 | a write the update decides is refused, with the old avatar already destroyed, exactly when another user holds the body's email or the username it carries (models/user.js:5-9); otherwise the outcome is the update decision |
| Profiles.UpdateProfile | routes/profiles.js:50-76 | the outcome is `StoreUpdate`; when it goes ahead the found user gets every path of the body, and afterwards no other user has its email, nor its username when the body set one; no other user changes |
| Profiles.ProfileTakeover | routes/profiles.js:50-68 | a visitor without a session who writes a reset token into a victim's profile and then redeems it at POST /reset/:token (routes/index.js:143-155) with a non-empty password sets the victim's password |
| Profiles.FormFields | routes/profiles.js:68 | the edit form's paths are the email and the names; the username, password, avatar and reset paths are dropped |
| Profiles.UserLookup | middleware/index.js:85-104 | the profile guard's lookup finds exactly the user with the id and never errors |
| Profiles.GuardedUpdateProfile | routes/profiles.js:45-76 | the update decided by the profile ownership guard: anything but Allowed changes nothing; only the session user can change; no user's username, password or reset fields change; avatars change only with an upload |
| Routes.NoReviewUpdateOrDelete | routes/reviews.js:64-92 | the reviews router registers no update or delete route, only the login-gated create |
| Routes.ProfileUpdateUnguarded | routes/profiles.js:45-50 | the profile edit form is ownership-guarded while the update route runs no session check |
| Routes.ReviewGuardUnused | app.js:73-77 | no mounted router uses the review ownership guard |
| Routes.CampgroundWritesNeedSession | routes/campgrounds.js:77-176 | every campground and comment route that writes starts with a login or ownership guard |

## Left out

- Sending e-mail and the `crypto.randomBytes` token generation: the token and the time are inputs.
- Passport login and `User.register`: the library's verdict on a registration is an input. `setPassword` is modelled only as refusing an empty password; the password is a plain field, not a hash and salt.
- Image host and geocoder calls: their answers are inputs. Destroying an old image is reported, not performed.
- The campground SHOW and EDIT handlers (routes/campgrounds.js:124-142): they only load a document.
- The campground UPDATE handler (routes/campgrounds.js:144-173): it writes whatever fields the submitted `campground` form carries, plus the geocoded location and the hosted image. A form may carry `rating`, `reviews`, `comments` or `author`, so UPDATE does not keep `Store.Valid` and is not one of the store's methods.
- routes/comments.js: its create handler finds the campground, creates the comment with the session user as author, appends it to the campground and saves both; update and delete are single store calls. The comment store effects are not modelled; the handlers' guards are `Middleware`, their validation `Validation.CommentErrors`, and their routes are in `Routes`.
- models/campground.js and models/comment.js are not part of this model.
  - A new campground's cached rating is taken as 0, the mean of no reviews.
  - Comment ids may dangle after a comment is deleted, so `Store.Valid` puts no condition on them.
- Paging.PerPage: query values are whole numbers or absent. A non-numeric `per_page` behaves as absent. Fractional and non-numeric `page` values are not modelled.
- CampgroundsRoute.IndexListsOnlyMatches: case is folded for ASCII letters only. The search regex is run by MongoDB's `$regex` engine with the `i` option, whose Unicode case folding of non-ASCII letters is not modelled.
- models/user.js: the schema's unused `passport`, `avatar` and `createdAt` paths are not modelled; the `hash` and `salt` paths the account library adds are the `password` field.
- Ratings.CalculateAverage: the mean is exact real division; floating-point rounding is not modelled.
- Unawaited saves (`newReview.save()`, `foundCampground.save()`) are modelled as completed before the response. Concurrent requests are not modelled.
- The page-1 render versus JSON branch, flash storage and redirects outside the guards are presentation. Only the outcome is kept.
- seeds.js, app.js configuration and auth.js are not part of this model, except the router mounts in `Routes`.

## Findings

| source | as written | input that shows it | evidently intended | confidence | as-written member | corrected member |
|---|---|---|---|---|---|---|
| routes/profiles.js:50-68 | PUT /users/:id/profile runs with no login or ownership guard and passes the whole `req.body.profile` to `findByIdAndUpdate` | with no session, PUT /users/<victim id>/profile with `profile[email]` = the victim's email, `profile[resetPasswordToken]` = t and `profile[resetPasswordExpires]` = a time in the future, then POST /reset/t with equal, non-empty `password` and `confirm` | the ownership guard the edit form has (routes/profiles.js:45), and only the form's email and name fields plus an uploaded avatar written | not executed | Profiles.ProfileTakeover | Profiles.GuardedUpdateProfile |
