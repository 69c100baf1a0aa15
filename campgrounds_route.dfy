/**
 * The decision logic of routes/campgrounds.js: the INDEX listing (paging and
 * name search) and the CREATE gate that turns a submitted form into a new
 * campground. The geocoder's answer and the image host's answer are inputs.
 */
module CampgroundsRoute {
  import opened Wrappers
  import opened Entities
  import opened Text
  import opened Escape
  import opened Image
  import opened Validation
  import opened Paging

  /** A truthy `req.query.search` becomes the pattern `escapeRegex(search)`; otherwise there is no filter. */
  function NamePattern(search: Option<string>): (p: Option<string>)
    ensures p.Some? <==> search.Some? && search.value != ""
    ensures p.Some? ==> Unescape(p.value) == Some(search.value)
  {
    if search.Some? && search.value != "" then
      UnescapeEscape(search.value);
      Some(EscapeRegex(search.value))
    else None
  }

  /**
   * The case-insensitive name regex, for the literal patterns the index builds:
   * it matches a name that holds the literal somewhere. Patterns that are not
   * literals never arise here (see NamePattern) and match nothing.
   */
  predicate PatternMatches(name: string, pattern: string)
  {
    match Unescape(pattern)
    case Some(literal) => ContainsIgnoringCase(name, literal)
    case None => false
  }

  /** The campgrounds the index query selects before paging. */
  function Matching(all: seq<Campground>, search: Option<string>): seq<Campground>
  {
    match NamePattern(search)
    case None => all
    case Some(p) => Filter(all, (c: Campground) => PatternMatches(c.name, p))
  }

  datatype IndexPage = IndexPage(campgrounds: seq<Campground>, totalPages: int)

  /**
   * GET /campgrounds over all campgrounds sorted newest first. The page count
   * is computed over all campgrounds, whatever the search. None: the query
   * failed (a negative skip), answered with 404.
   */
  function Index(all: seq<Campground>, perPage: Option<int>, page: Option<int>, search: Option<string>): (r: Option<IndexPage>)
    ensures r.None? <==> Offset(PerPage(perPage), PageNumber(page)) < 0
    ensures r.Some? ==> r.value.totalPages == CeilDiv(|all|, PerPage(perPage))
    ensures r.Some? ==> |r.value.campgrounds| <= Abs(PerPage(perPage))
    ensures r.Some? ==> var offset := Offset(PerPage(perPage), PageNumber(page));
              |r.value.campgrounds| == Min(Abs(PerPage(perPage)),
                                           if offset < |Matching(all, search)| then |Matching(all, search)| - offset else 0)
    ensures r.Some? ==> forall j | 0 <= j < |r.value.campgrounds| ::
              && Offset(PerPage(perPage), PageNumber(page)) + j < |Matching(all, search)|
              && r.value.campgrounds[j] == Matching(all, search)[Offset(PerPage(perPage), PageNumber(page)) + j]
  {
    var count := PerPage(perPage);
    var offset := Offset(count, PageNumber(page));
    match Window(Matching(all, search), offset, count)
    case None => None
    case Some(shown) => Some(IndexPage(shown, CeilDiv(|all|, count)))
  }

  /** With a search term, every listed campground's name contains the term, ignoring case. */
  lemma IndexListsOnlyMatches(all: seq<Campground>, perPage: Option<int>, page: Option<int>, term: string)
    requires term != "" && Index(all, perPage, page, Some(term)).Some?
    ensures forall c | c in Index(all, perPage, page, Some(term)).value.campgrounds :: ContainsIgnoringCase(c.name, term)
  {
    var p := EscapeRegex(term);
    UnescapeEscape(term);
    var keep := (c: Campground) => PatternMatches(c.name, p);
    var m := Matching(all, Some(term));
    assert m == Filter(all, keep);
    FilterMembers(all, keep);
    var shown := Index(all, perPage, page, Some(term)).value.campgrounds;
    var offset := Offset(PerPage(perPage), PageNumber(page));
    forall c | c in shown
      ensures ContainsIgnoringCase(c.name, term)
    {
      var j :| 0 <= j < |shown| && shown[j] == c;
      assert keep(m[offset + j]);
    }
  }

  /** Conversely, every campground whose name contains the term is among those paged through. */
  lemma SearchSelectsEveryMatch(all: seq<Campground>, term: string, i: nat)
    requires term != "" && i < |all| && ContainsIgnoringCase(all[i].name, term)
    ensures all[i] in Matching(all, Some(term))
  {
    var p := EscapeRegex(term);
    UnescapeEscape(term);
    FilterMembers(all, (c: Campground) => PatternMatches(c.name, p));
  }

  /** The reported page count is the same with or without a search. */
  lemma TotalPagesIgnoresSearch(all: seq<Campground>, perPage: Option<int>, page: Option<int>, s1: Option<string>, s2: Option<string>)
    requires Index(all, perPage, page, s1).Some? && Index(all, perPage, page, s2).Some?
    ensures Index(all, perPage, page, s1).value.totalPages == Index(all, perPage, page, s2).value.totalPages
            == CeilDiv(|all|, PerPage(perPage))
  {
  }

  /** A missing page is page 1 and starts at the first campground. */
  lemma IndexFirstPage(all: seq<Campground>, search: Option<string>)
    ensures Index(all, None, None, search).Some?
    ensures Index(all, None, None, search).value.campgrounds
            == Matching(all, search)[..Min(|Matching(all, search)|, DefaultPerPage)]
  {
    FirstPageStartsAtZero(None);
    var m := Matching(all, search);
    var shown := Index(all, None, None, search).value.campgrounds;
    assert |shown| == Min(|m|, DefaultPerPage);
    assert forall j | 0 <= j < |shown| :: shown[j] == m[j];
  }

  /** The submitted form: the top-level fields the handler stores, and the `campground[...]` fields validated. */
  datatype CreateForm = CreateForm(
    name: string, price: string, description: string, location: string,
    checked: CampgroundFields)

  /** The upload filter lets the request through: no file, or an accepted one. */
  predicate UploadPasses(file: Option<string>)
  {
    file.None? || ImageFilter(file.value) == Accept
  }

  datatype CreateError =
    | LoginRequired                  // isLoggedIn redirected to the login page
    | UploadRejected(message: string) // the upload filter refused the file
    | Invalid(errors: seq<Failure>)   // validation failed: redirect back
    | InvalidAddress                  // the geocoder found nothing
    | MissingImage                    // no file: the handler dereferences `req.file` and fails

  /**
   * POST /campgrounds up to `Campground.create`: the login gate, the upload
   * filter, the validation gate, the geocoder, then the new campground with
   * the current user as author and the hosted image. The cached rating starts
   * at 0, the mean of no reviews.
   */
  function PlanCampground(user: Option<SessionUser>, form: CreateForm, formats: Formats,
                          file: Option<string>, geocode: Option<Geocode>, hosted: Hosted): (r: Result<Campground, CreateError>)
    ensures r == Err(LoginRequired) <==> user.None?
    ensures r.Err? && r.error.UploadRejected? <==> user.Some? && file.Some? && ImageFilter(file.value).Reject?
    ensures r.Err? && r.error.UploadRejected? ==> r.error.message == OnlyImagesMessage
    ensures r.Err? && r.error.Invalid? <==> user.Some? && UploadPasses(file) && CampgroundErrors(form.checked, formats) != []
    ensures r.Err? && r.error.Invalid? ==> r.error.errors == CampgroundErrors(form.checked, formats)
    ensures r == Err(InvalidAddress) <==>
              user.Some? && UploadPasses(file) && CampgroundErrors(form.checked, formats) == [] && geocode.None?
    ensures r == Err(MissingImage) <==>
              user.Some? && file.None? && CampgroundErrors(form.checked, formats) == [] && geocode.Some?
    ensures r.Ok? <==>
              user.Some? && file.Some? && ImageFilter(file.value) == Accept
              && CampgroundErrors(form.checked, formats) == [] && geocode.Some?
    ensures r.Ok? ==> r.value.author == Author(user.value.id, user.value.username)
    ensures r.Ok? ==> && r.value.name == form.name && r.value.price == form.price
                      && r.value.description == form.description
                      && r.value.location == geocode.value.formattedAddress
                      && r.value.lat == geocode.value.latitude && r.value.lng == geocode.value.longitude
                      && r.value.image == hosted.secureUrl && r.value.imageId == hosted.publicId
                      && r.value.comments == [] && r.value.reviews == [] && r.value.rating == 0.0
  {
    if user.None? then Err(LoginRequired)
    else if file.Some? && ImageFilter(file.value).Reject? then Err(UploadRejected(ImageFilter(file.value).message))
    else if CampgroundErrors(form.checked, formats) != [] then Err(Invalid(CampgroundErrors(form.checked, formats)))
    else if geocode.None? then Err(InvalidAddress)
    else if file.None? then Err(MissingImage)
    else
      var g := geocode.value;
      Ok(Campground(form.name, form.price, form.description, g.formattedAddress, g.latitude, g.longitude,
                    hosted.secureUrl, hosted.publicId, AuthorOf(user.value), [], [], 0.0))
  }
}
