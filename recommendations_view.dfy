/**
 * The "Recommended for You" panel: a show/hide button and, when shown, either one card per
 * recommendation or a prompt to rate more movies. Each card carries the poster with its
 * responsive candidates (its element falls back once to the placeholder poster, as
 * `Details.OneShotImage` does), the heart badge, a link to the details page and the star row.
 */
module RecommendationsView {
  import opened Wrappers
  import opened Strings
  import opened Movies
  import Seqs
  import App
  import MovieStore
  import Recommendation
  import StarRating
  import Details

  const ResizeSmall: string := "?w=240&h=360&fit=crop&auto=format&q=80 240w, "
  const ResizeLarge: string := "?w=480&h=720&fit=crop&auto=format&q=80 480w"

  /**
   * The card poster's `srcSet`: for a picsum poster, its 240x360 and 480x720 variants; for any
   * other poster, its URL without the query with two sizing queries; none without a poster.
   */
  function RecSrcSet(image: string): (r: Option<string>)
    ensures r.Some? <==> image != ""
  {
    if image == "" then None
    else if Contains(image, "picsum.photos") then
      Some(ReplaceFirst(image, "/400/600", "/240/360") + " 240w, " +
           ReplaceFirst(image, "/400/600", "/480/720") + " 480w")
    else
      var base := BeforeFirst(image, '?');
      Some(base + ResizeSmall + base + ResizeLarge)
  }

  /** A picsum poster as the migration writes it offers exactly its 240x360 and 480x720 variants. */
  lemma RecSrcSetOfMigratedPoster(id: int)
    ensures var seeded := App.PicsumSeed + IntToString(id);
            RecSrcSet(App.PicsumUrl(id)) == Some(seeded + "/240/360 240w, " + seeded + "/480/720 480w")
  {
    var seeded := App.PicsumSeed + IntToString(id);
    App.PicsumUrlOnPicsum(id);
    App.PicsumResized(id, "/240/360");
    App.PicsumResized(id, "/480/720");
    var small, large := seeded + "/240/360", seeded + "/480/720";
    assert RecSrcSet(App.PicsumUrl(id)) == Some(small + " 240w, " + large + " 480w");
    var head := seeded + "/240/360 240w, ";
    assert small + " 240w, " == head;
    assert large + " 480w" == seeded + "/480/720 480w";
    assert head + large + " 480w" == head + (large + " 480w");
    assert head + seeded + "/480/720 480w" == head + (seeded + "/480/720 480w");
  }

  /** What one card shows of a recommended movie. */
  datatype Card = Card(
    movie: Movie,
    userRating: int,
    heart: bool,
    stars: seq<StarRating.StarButton>,
    poster: string,
    srcset: Option<string>,
    route: MovieStore.Num)

  /** `RecommendationCard` for a recommendation under the user's ratings. */
  function CardOf(rec: Recommendation.Scored, ratings: map<int, int>): (c: Card)
    ensures c.movie == rec.movie && c.userRating == StarRating.UserRatingOf(ratings, rec.movie.id)
    ensures c.heart <==> c.userRating > 0
    ensures c.stars == StarRating.Stars(c.userRating)
    ensures c.poster == Details.PosterSrc(rec.movie.image) && c.srcset == RecSrcSet(rec.movie.image)
    ensures c.route == MovieStore.Val(rec.movie.id as real)
  {
    var r := StarRating.UserRatingOf(ratings, rec.movie.id);
    Card(rec.movie, r, StarRating.ShowsHeart(r), StarRating.Stars(r), Details.PosterSrc(rec.movie.image),
         RecSrcSet(rec.movie.image), MovieStore.Val(rec.movie.id as real))
  }

  const RateMoreMessage: string := "Rate more movies to see recommendations here!"

  /** The panel body: hidden, the rate-more prompt, or the cards. */
  datatype Panel = Collapsed | RateMore(message: string) | Cards(cards: seq<Card>)

  /** The panel for the visibility flag, the recommendations and the ratings. */
  function Render(show: bool, recs: seq<Recommendation.Scored>, ratings: map<int, int>): (p: Panel)
    ensures p.Collapsed? <==> !show
    ensures p.RateMore? <==> show && recs == []
    ensures p.RateMore? ==> p.message == RateMoreMessage
    ensures p.Cards? ==> |p.cards| == |recs| && forall i :: 0 <= i < |recs| ==> p.cards[i] == CardOf(recs[i], ratings)
  {
    if !show then Collapsed
    else if |recs| > 0 then Cards(seq(|recs|, i requires 0 <= i < |recs| => CardOf(recs[i], ratings)))
    else RateMore(RateMoreMessage)
  }

  /** The show/hide button's label. */
  function ToggleLabel(show: bool): (caption: string)
    ensures show ==> caption == "Hide"
    ensures !show ==> caption == "Show"
  {
    if show then "Hide" else "Show"
  }

  /**
   * Freshly computed recommendations are all unrated, so their cards show no heart and no filled
   * star, and each card's details link finds its movie in the catalog.
   */
  lemma FreshCardsAreUnrated(ratings: map<int, int>, movies: seq<Movie>, noise: nat -> real)
    requires ratings != map[]
    ensures var p := Render(true, Recommendation.Recommend(ratings, movies, noise), ratings);
            p.Cards? ==>
              forall i :: 0 <= i < |p.cards| ==>
                && !p.cards[i].heart
                && StarRating.FilledCount(p.cards[i].stars) == 0
                && Details.FindByRoute(movies, p.cards[i].route) == Find(movies, p.cards[i].movie.id)
                && Details.FindByRoute(movies, p.cards[i].route).Some?
  {
    var recs := Recommendation.Recommend(ratings, movies, noise);
    var p := Render(true, recs, ratings);
    Recommendation.RecommendationsAreUnrated(ratings, movies, noise);
    if p.Cards? {
      forall i | 0 <= i < |p.cards|
        ensures && !p.cards[i].heart
                && StarRating.FilledCount(p.cards[i].stars) == 0
                && Details.FindByRoute(movies, p.cards[i].route) == Find(movies, p.cards[i].movie.id)
                && Details.FindByRoute(movies, p.cards[i].route).Some?
      {
        var m := recs[i].movie;
        StarRating.FilledStars(0);
        assert p.cards[i].route == MovieStore.Val(m.id as real);
        assert (m.id as real).Floor == m.id;
        var k :| 0 <= k < |movies| && movies[k] == m;
        assert movies[k].id as real == m.id as real;
      }
    }
  }

  /**
   * With some rating, the open panel prompts for more ratings exactly when every catalog movie
   * has been rated; otherwise it shows cards.
   */
  lemma RateMoreExactlyWhenAllRated(ratings: map<int, int>, movies: seq<Movie>, noise: nat -> real)
    requires ratings != map[]
    ensures Render(true, Recommendation.Recommend(ratings, movies, noise), ratings).RateMore? <==>
              forall m :: m in movies ==> m.id in ratings
  {
    Recommendation.RecommendationCount(ratings, movies, noise);
    var u := Recommendation.Unrated(ratings, movies);
    if exists m :: m in movies && m.id !in ratings {
      var m :| m in movies && m.id !in ratings;
      Seqs.FilterMembership(movies, (x: Movie) => x.id !in ratings, m);
    }
  }
}
