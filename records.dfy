/**
 * The three tables of the review site (app.py:23-42), as plain records.
 * Ids are integers handed out by the database; every other column holds
 * exactly what the handlers stored in it.
 */
module Records {
  /** A row of the user table; `password` holds the stored hash, never the password itself. */
  datatype User = User(id: int, username: string, password: string)

  /** A row of the business table; `ownerId` is the id of the user who created it. */
  datatype Business = Business(id: int, name: string, ownerId: int)

  /** A row of the review table: four ratings, a location tag, a comment and the two keys. */
  datatype Review = Review(
    id: int,
    ratingPlace: int,
    ratingPrice: int,
    ratingInstall: int,
    ratingService: int,
    location: string,
    text: string,
    userId: int,
    businessId: int)

  /**
   * The six fields a review submission carries, ratings already parsed to
   * integers. No range is enforced on the ratings and any string is accepted
   * as a location, as in the handler.
   */
  datatype ReviewForm = ReviewForm(
    ratingPlace: int,
    ratingPrice: int,
    ratingInstall: int,
    ratingService: int,
    location: string,
    text: string)
}
