/**
 * The stored documents the core reads and writes. Identifiers are MongoDB
 * ObjectIds, modelled as naturals; only their equality matters.
 */
module Entities {

  type UserId = nat
  type CampgroundId = nat
  type CommentId = nat
  type ReviewId = nat

  /**
   * The author reference embedded in campgrounds, comments and reviews: the
   * user's id and a snapshot of the username taken when the record was made.
   */
  datatype Author = Author(id: UserId, username: string)

  /** The authenticated user attached to a request (`req.user`). */
  datatype SessionUser = SessionUser(id: UserId, username: string)

  /** The author reference a new record takes from the current user. */
  function AuthorOf(u: SessionUser): (a: Author)
  {
    Author(u.id, u.username)
  }

  datatype Comment = Comment(text: string, author: Author)

  /**
   * A campground: the form fields, the geocoded location, the hosted image,
   * the author, the ordered comment and review references, and the cached
   * mean rating.
   */
  datatype Campground = Campground(
    name: string,
    price: string,
    description: string,
    location: string,
    lat: real,
    lng: real,
    image: string,
    imageId: string,
    author: Author,
    comments: seq<CommentId>,
    reviews: seq<ReviewId>,
    rating: real)

  /** What the image host returns for an upload (`secure_url`, `public_id`). */
  datatype Hosted = Hosted(secureUrl: string, publicId: string)

  /** The first geocoder match for an address. */
  datatype Geocode = Geocode(latitude: real, longitude: real, formattedAddress: string)
}
