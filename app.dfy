/**
 * The home screen's state: its own copy of the catalog (loaded from `movies:data`), the one-off
 * migration of Unsplash poster URLs to picsum.photos, the genre and title filter, the add path
 * of the header form, and the effect that recomputes the recommendations whenever the ratings
 * or the catalog change.
 */
module App {
  import opened Wrappers
  import opened Strings
  import opened Movies
  import Seqs
  import Utils
  import RatingStore
  import Recommendation

  const PicsumSeed: string := "https://picsum.photos/seed/"

  /** `https://picsum.photos/seed/${id}/400/600`. */
  function PicsumUrl(id: int): (r: string)
    ensures StartsWith(r, PicsumSeed)
  {
    PicsumSeed + IntToString(id) + "/400/600"
  }

  /** A picsum poster URL is on picsum.photos. */
  lemma PicsumUrlOnPicsum(id: int)
    ensures Contains(PicsumUrl(id), "picsum.photos")
  {
    var url := PicsumUrl(id);
    assert url[8..21] == PicsumSeed[8..21];
    ContainsWitness(url, "picsum.photos", 8);
  }

  /** A migrated poster is still recognised as an image URL, through its picsum.photos host. */
  lemma MigratedPosterIsImageUrl(id: int)
    ensures Utils.IsImageUrl(Some(PicsumUrl(id)))
  {
    PicsumUrlOnPicsum(id);
    assert Utils.ImageHosts[0] == "picsum.photos";
  }

  /**
   * The size segment `/400/600` occurs in a picsum poster URL only at its end, so replacing its
   * first occurrence resizes the poster and changes nothing else.
   */
  lemma {:induction false} PicsumResized(id: int, size: string)
    ensures ReplaceFirst(PicsumUrl(id), "/400/600", size) == PicsumSeed + IntToString(id) + size
  {
    var digits := IntToString(id);
    var p := PicsumSeed + digits;
    var url := PicsumUrl(id);
    var pat := "/400/600";
    assert url == p + pat;
    assert OccursAt(url, pat, |p|) by {
      assert url[|p|..|p| + |pat|] == pat;
    }
    var r := IndexOf(url, pat);
    assert r.Some?;
    if r.value != |p| {
      assert r.value < |p|;
      SizeSegmentOnlyAtEnd(digits, r.value);
      assert false;
    }
    assert url[|p| + |pat|..] == [];
  }

  /** No occurrence of `/400/600` starts before the one that ends the URL. */
  lemma {:induction false} SizeSegmentOnlyAtEnd(digits: string, i: nat)
    requires forall k :: 0 <= k < |digits| ==> IsDigit(digits[k]) || digits[k] == '-'
    requires i < |PicsumSeed| + |digits|
    ensures !OccursAt(PicsumSeed + digits + "/400/600", "/400/600", i)
  {
    var url := PicsumSeed + digits + "/400/600";
    var pat := "/400/600";
    var w := url[i..i + |pat|];
    if i >= 27 {
      assert w[0] == digits[i - 27];
    } else if i + 5 < 27 {
      assert w[5] == PicsumSeed[i + 5];
    } else if i < 26 {
      assert w[0] == PicsumSeed[i];
    } else if |digits| >= 4 {
      assert w[4] == digits[3];
    } else if |digits| == 3 {
      assert w[5] == pat[1];
    } else {
      assert w[4] == pat[3 - |digits|];
    }
  }

  /** The poster is served from unsplash.com (`image.includes('unsplash.com')`). */
  predicate OnUnsplash(m: Movie)
  {
    Contains(m.image, "unsplash.com")
  }

  /** A picsum URL never mentions unsplash.com: it has no letter `n`. */
  lemma PicsumIsNotUnsplash(id: int)
    ensures !Contains(PicsumUrl(id), "unsplash.com")
  {
    var url := PicsumUrl(id);
    var digits := IntToString(id);
    assert url == PicsumSeed + digits + "/400/600";
    forall i | 0 <= i < |url| ensures url[i] != 'n' {
      if 27 <= i < 27 + |digits| {
        assert url[i] == digits[i - 27];
      }
    }
    MissingCharNotContained(url, "unsplash.com", 1);
  }

  /** One movie through the migration: an Unsplash poster becomes the picsum poster seeded by its id. */
  function Migrated(m: Movie): (r: Movie)
    ensures OnUnsplash(m) ==> r == m.(image := PicsumUrl(m.id))
    ensures !OnUnsplash(m) ==> r == m
    ensures !OnUnsplash(r)
  {
    if OnUnsplash(m) then
      PicsumIsNotUnsplash(m.id);
      m.(image := PicsumUrl(m.id))
    else m
  }

  /**
   * The migration effect: the catalog is left as it is unless some poster is on Unsplash, in
   * which case every Unsplash poster is replaced and every other movie kept.
   */
  function Migrate(movies: seq<Movie>): (r: seq<Movie>)
    ensures |r| == |movies|
    ensures forall i :: 0 <= i < |r| ==> r[i] == Migrated(movies[i])
    ensures forall i :: 0 <= i < |r| ==> !OnUnsplash(r[i])
    ensures (forall i :: 0 <= i < |movies| ==> !OnUnsplash(movies[i])) ==> r == movies
  {
    var needsMigration := exists i :: 0 <= i < |movies| && OnUnsplash(movies[i]);
    if !needsMigration then movies
    else seq(|movies|, i requires 0 <= i < |movies| => Migrated(movies[i]))
  }

  /** Migrating a migrated catalog changes nothing. */
  lemma MigrateIdempotent(movies: seq<Movie>)
    ensures Migrate(Migrate(movies)) == Migrate(movies)
  {
  }

  /** The migration keeps every movie's id, title, genre, year, rating and description. */
  lemma MigrateKeepsAllButImage(movies: seq<Movie>)
    ensures forall i :: 0 <= i < |movies| ==> Migrate(movies)[i].(image := movies[i].image) == movies[i]
  {
  }

  /** A movie is shown when it is in the selected genre (or `All` is selected) and its title contains the query, ignoring case. */
  predicate Matches(m: Movie, genre: string, query: string)
  {
    (genre == "All" || m.genre == genre) && Contains(Lower(m.title), Lower(query))
  }

  /** `filteredMovies`. */
  function FilterMovies(movies: seq<Movie>, genre: string, query: string): (r: seq<Movie>)
    ensures forall i :: 0 <= i < |r| ==> Matches(r[i], genre, query)
  {
    Seqs.Filter(movies, (m: Movie) => Matches(m, genre, query))
  }

  /** A movie is listed exactly when it is in the catalog and matches; the listing keeps catalog order. */
  lemma FilteredMovies(movies: seq<Movie>, genre: string, query: string, m: Movie)
    ensures m in FilterMovies(movies, genre, query) <==> m in movies && Matches(m, genre, query)
    ensures Seqs.IsSubsequence(FilterMovies(movies, genre, query), movies)
  {
    Seqs.FilterMembership(movies, (m: Movie) => Matches(m, genre, query), m);
    Seqs.FilterIsSubsequence(movies, (m: Movie) => Matches(m, genre, query));
  }

  /** The initial selection, genre `All` and an empty query, lists the whole catalog. */
  lemma InitialFilterListsAll(movies: seq<Movie>)
    ensures FilterMovies(movies, "All", "") == movies
  {
    forall m ensures Matches(m, "All", "") {
      assert OccursAt(Lower(m.title), Lower(""), 0);
    }
  }

  /**
   * The body of the recommendation effect: the new recommendations and the new visibility of
   * the panel for the given ratings and catalog.
   */
  method RecommendationEffect(ratings: map<int, int>, movies: seq<Movie>, noise: nat -> real)
    returns (recs: seq<Recommendation.Scored>, show: bool)
    ensures ratings != map[] ==> recs == Recommendation.Recommend(ratings, movies, noise) && show
    ensures ratings == map[] ==> recs == [] && !show
  {
    if |ratings.Keys| > 0 {
      recs := Recommendation.GenerateRecommendations(ratings, movies, noise);
      show := true;
    } else {
      recs := [];
      show := false;
    }
  }

  /** The home screen's state cells. */
  class Home {
    var movies: seq<Movie>
    var recommendations: seq<Recommendation.Scored>
    var selectedGenre: string
    var searchQuery: string
    var showRecommendations: bool
    /** The ratings hook the screen reads and rates through. */
    const store: RatingStore.Ratings

    /** The initial state: the stored catalog (or `seed`), no recommendations yet, the list shown, no filter. */
    constructor (raw: Option<string>, parse: string -> Option<seq<Movie>>, seed: seq<Movie>, ratings: RatingStore.Ratings)
      ensures movies == Utils.LoadFromStorage(raw, parse, seed) && store == ratings
      ensures recommendations == [] && showRecommendations
      ensures selectedGenre == "All" && searchQuery == ""
    {
      movies := Utils.LoadFromStorage(raw, parse, seed);
      recommendations := [];
      selectedGenre := "All";
      searchQuery := "";
      showRecommendations := true;
      store := ratings;
    }

    /**
     * The mount effect that rewrites Unsplash posters. The recommendation effect depends on the
     * catalog, so it runs again on the migrated one; `noise` is its sequence of `Math.random()`
     * draws.
     */
    method MigrateImages(noise: nat -> real)
      modifies this
      ensures movies == Migrate(old(movies))
      ensures forall i :: 0 <= i < |movies| ==> !OnUnsplash(movies[i])
      ensures store.ratings != map[] ==>
                recommendations == Recommendation.Recommend(store.ratings, movies, noise) && showRecommendations
      ensures store.ratings == map[] ==> recommendations == [] && !showRecommendations
      ensures showRecommendations == HasRatings()
      ensures unchanged(this`selectedGenre, this`searchQuery)
    {
      movies := Migrate(movies);
      RefreshRecommendations(noise);
    }

    /**
     * `hasRatings`: the ratings map has some key, that is, some movie has been rated. It decides
     * whether the recommendations panel or the getting-started block is rendered, and it is
     * exactly the condition under which the recommendation effect shows the panel.
     */
    predicate HasRatings()
      reads this, store
      ensures HasRatings() <==> store.ratings != map[]
    {
      |store.ratings.Keys| > 0
    }

    /** The genre choices: `All`, then each genre of the catalog once. */
    function Genres(): (r: seq<string>)
      reads this
      ensures |r| >= 1 && r[0] == "All"
    {
      GenreList(movies)
    }

    /** The movies the grid lists under the current selection. */
    function Filtered(): (r: seq<Movie>)
      reads this
      ensures forall i :: 0 <= i < |r| ==> r[i] in movies && Matches(r[i], selectedGenre, searchQuery)
    {
      var r := FilterMovies(movies, selectedGenre, searchQuery);
      forall i | 0 <= i < |r| ensures r[i] in movies {
        FilteredMovies(movies, selectedGenre, searchQuery, r[i]);
      }
      r
    }

    method SelectGenre(genre: string)
      modifies this
      ensures selectedGenre == genre
      ensures unchanged(this`movies, this`recommendations, this`searchQuery, this`showRecommendations)
    {
      selectedGenre := genre;
    }

    method Search(query: string)
      modifies this
      ensures searchQuery == query
      ensures unchanged(this`movies, this`recommendations, this`selectedGenre, this`showRecommendations)
    {
      searchQuery := query;
    }

    /**
     * The recommendation effect: with some rating, the recommendations are recomputed and the
     * panel opened; with none, they are emptied and the panel closed. `noise` is the sequence of
     * `Math.random()` draws of this computation.
     */
    method RefreshRecommendations(noise: nat -> real)
      modifies this
      ensures store.ratings != map[] ==> recommendations == Recommendation.Recommend(store.ratings, movies, noise) && showRecommendations
      ensures store.ratings == map[] ==> recommendations == [] && !showRecommendations
      ensures showRecommendations == HasRatings()
      ensures unchanged(this`movies, this`selectedGenre, this`searchQuery)
    {
      var ratings, catalog := store.ratings, movies;
      var recs, show := RecommendationEffect(ratings, catalog, noise);
      recommendations, showRecommendations := recs, show;
    }

    /** `setShowRecommendations(!showRecommendations)`, the panel's show/hide button. */
    method ToggleRecommendations()
      modifies this
      ensures showRecommendations == !old(showRecommendations)
      ensures unchanged(this`movies, this`recommendations, this`selectedGenre, this`searchQuery)
    {
      showRecommendations := !showRecommendations;
    }

    /**
     * `handleAddMovie(movie)`: the movie is appended under the next id, with no validation, and
     * the recommendations are recomputed because the catalog changed.
     */
    method HandleAddMovie(m: Movie, noise: nat -> real)
      modifies this
      ensures movies == old(movies) + [m.(id := NextId(old(movies)))]
      ensures forall i :: 0 <= i < |old(movies)| ==> old(movies)[i].id < movies[|movies| - 1].id
      ensures store.ratings != map[] ==>
                recommendations == Recommendation.Recommend(store.ratings, movies, noise) && showRecommendations
      ensures store.ratings == map[] ==> recommendations == [] && !showRecommendations
      ensures showRecommendations == HasRatings()
      ensures unchanged(this`selectedGenre, this`searchQuery)
    {
      var nextId := NextId(movies);
      movies := movies + [m.(id := nextId)];
      RefreshRecommendations(noise);
    }

    /**
     * A star click on a card: the rating is stored, then the recommendations are recomputed and
     * shown; the movie just rated is not among them.
     */
    method RateMovie(id: int, stars: int, noise: nat -> real)
      modifies this, store
      ensures store.ratings == RatingStore.Rated(old(store.ratings), id, stars)
      ensures recommendations == Recommendation.Recommend(store.ratings, movies, noise) && showRecommendations
      ensures forall i :: 0 <= i < |recommendations| ==> recommendations[i].movie.id != id
      ensures HasRatings()
      ensures unchanged(this`movies, this`selectedGenre, this`searchQuery)
    {
      store.RateMovie(id, stars);
      assert id in store.ratings;
      RefreshRecommendations(noise);
      Recommendation.RecommendationsAreUnrated(store.ratings, movies, noise);
    }
  }
}
