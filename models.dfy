/**
  Record shapes of the two tables the recommender reads (models.py): the song
  information table and the attempts table. Only the columns that the
  recommendation engine reads are kept.
*/
module Models {

  /** Rating value that means "the student did not rate this attempt" (models.py:26). */
  const NotRated: int := 6

  /**
    A row of the song information table. `id` is the song identifier column,
    which is indexed but is not the table's primary key, so two rows may carry
    the same `id`.
  */
  datatype Song = Song(
    id: int,
    name: string,
    composer: string,
    totalNotes: int,
    noteDensity: real,
    largeLeaps: int,
    leftHandNotes: int,
    rightHandNotes: int,
    tuplets: int)

  /** A row of the attempts table: which user played which song, the rating given and the fraction completed. */
  datatype Attempt = Attempt(songId: int, userId: int, rating: int, completion: real)

  /** An attempt that carries a rating, i.e. whose rating is below the "not rated" sentinel. */
  predicate IsRated(a: Attempt)
  {
    a.rating < NotRated
  }
}
