/**
 * The row of five star buttons a movie card and a recommendation card both show: the stars up to
 * the user's rating are filled, and pressing the k-th star rates the movie k.
 */
module StarRating {
  import RatingStore

  /** One star button: the rating it gives when pressed and whether it is drawn filled. */
  datatype StarButton = StarButton(value: int, filled: bool)

  /** `userRatings[movie.id] || 0`: the user's rating of the movie, 0 when it is not rated. */
  function UserRatingOf(ratings: map<int, int>, id: int): (r: int)
    ensures id in ratings ==> r == ratings[id]
    ensures id !in ratings ==> r == 0
  {
    if id in ratings then ratings[id] else 0
  }

  /** `[1, 2, 3, 4, 5].map(...)`: star `i + 1` is filled when `userRating >= i + 1`. */
  function Stars(userRating: int): (r: seq<StarButton>)
    ensures |r| == 5
    ensures forall i :: 0 <= i < |r| ==> r[i].value == i + 1
  {
    seq(5, i requires 0 <= i < 5 => StarButton(i + 1, userRating >= i + 1))
  }

  /** Number of filled stars in a row. */
  function FilledCount(row: seq<StarButton>): (n: nat)
    ensures n <= |row|
  {
    if row == [] then 0 else (if row[0].filled then 1 else 0) + FilledCount(row[1..])
  }

  /** The rating clamped to the row: below 1 nothing is filled, above 5 everything is. */
  function Clamp(userRating: int): (n: nat)
  {
    if userRating < 0 then 0 else if userRating > 5 then 5 else userRating
  }

  /**
   * The filled stars are a prefix of the row (a filled star has only filled stars before it), and
   * their number is the rating clamped to 0..5.
   */
  lemma {:induction false} FilledStars(userRating: int)
    ensures var row := Stars(userRating);
            && (forall i, j :: 0 <= i < j < 5 && row[j].filled ==> row[i].filled)
            && (forall i :: 0 <= i < 5 ==> (row[i].filled <==> i < Clamp(userRating)))
            && FilledCount(row) == Clamp(userRating)
  {
    var row := Stars(userRating);
    var c := Clamp(userRating);
    assert row[4..][1..] == [];
    assert row[3..][1..] == row[4..];
    assert row[2..][1..] == row[3..];
    assert row[1..][1..] == row[2..];
    assert FilledCount(row[4..]) == if 4 < c then 1 else 0;
    assert FilledCount(row[3..]) == if 3 < c then c - 3 else 0;
    assert FilledCount(row[2..]) == if 2 < c then c - 2 else 0;
    assert FilledCount(row[1..]) == if 1 < c then c - 1 else 0;
  }

  /** `onRate(movieId, rating)`: what pressing a star of a card sends. */
  function Press(movieId: int, star: StarButton): (rating: (int, int))
  {
    (movieId, star.value)
  }

  /**
   * Pressing the k-th star of a card and storing the rating leaves that card showing exactly k
   * filled stars, whatever the movie was rated before.
   */
  lemma {:induction false} PressThenShow(ratings: map<int, int>, id: int, k: nat)
    requires 1 <= k <= 5
    ensures var (movie, stars) := Press(id, Stars(UserRatingOf(ratings, id))[k - 1]);
            var after := RatingStore.Rated(ratings, movie, stars);
            && UserRatingOf(after, id) == k
            && FilledCount(Stars(UserRatingOf(after, id))) == k
  {
    FilledStars(k);
  }

  /** The heart badge: shown when the movie has a positive rating. */
  predicate ShowsHeart(userRating: int)
  {
    userRating > 0
  }
}
