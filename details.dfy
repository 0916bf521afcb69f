/**
 * The details page of one movie: the route parameter is looked up in the catalog; a miss shows
 * the not-found message, a hit shows the movie, its poster and up to six similar movies.
 */
module Details {
  import opened Wrappers
  import opened Movies
  import Seqs
  import opened Strings
  import Utils
  import App
  import MovieStore

  /** `movie.image || PLACEHOLDER_IMAGE`: an empty image URL falls back to the placeholder poster. */
  function PosterSrc(image: string): (r: string)
    ensures image != "" ==> r == image
    ensures image == "" ==> r == Utils.PlaceholderImage
  {
    if image == "" then Utils.PlaceholderImage else image
  }

  const ResizeSmall: string := "?w=400&h=600&fit=crop&auto=format&q=80 400w, "
  const ResizeLarge: string := "?w=800&h=1200&fit=crop&auto=format&q=80 800w"

  /**
   * The poster's `srcSet`: for a picsum poster, the poster itself and its 800x1200 variant; for
   * any other poster, its URL without the query with two sizing queries; none without a poster.
   */
  function DetailSrcSet(image: string): (r: Option<string>)
    ensures r.Some? <==> image != ""
  {
    if image == "" then None
    else if Contains(image, "picsum.photos") then
      Some(image + " 400w, " + ReplaceFirst(image, "/400/600", "/800/1200") + " 800w")
    else
      var base := BeforeFirst(image, '?');
      Some(base + ResizeSmall + base + ResizeLarge)
  }

  /** A picsum poster as the migration writes it offers itself at 400w and its 800x1200 variant. */
  lemma DetailSrcSetOfMigratedPoster(id: int)
    ensures var seeded := App.PicsumSeed + IntToString(id);
            DetailSrcSet(App.PicsumUrl(id)) == Some(App.PicsumUrl(id) + " 400w, " + seeded + "/800/1200 800w")
  {
    var seeded := App.PicsumSeed + IntToString(id);
    var url := App.PicsumUrl(id);
    App.PicsumUrlOnPicsum(id);
    App.PicsumResized(id, "/800/1200");
    var large := seeded + "/800/1200";
    assert DetailSrcSet(url) == Some(url + " 400w, " + large + " 800w");
    var head := url + " 400w, ";
    assert large + " 800w" == seeded + "/800/1200 800w";
    assert head + large + " 800w" == head + (large + " 800w");
    assert head + seeded + "/800/1200 800w" == head + (seeded + "/800/1200 800w");
  }

  /** The image a similar movie's thumbnail falls back to. */
  const NoImageThumb: string := "https://via.placeholder.com/400x600?text=No+Image"

  /**
   * An image element with a one-shot fallback (`el.dataset.fallback`): the first load failure
   * points it at the fallback image and drops its `srcset`; later failures, the fallback's own
   * included, change nothing. The details poster, its similar-movie thumbnails and the
   * recommendation cards' posters all work this way.
   */
  class OneShotImage {
    /** The element's `src` attribute. */
    var shown: string
    /** Whether the element carries a `srcset` attribute. */
    var hasSrcSet: bool
    /** `el.dataset.fallback`: the fallback has already been tried. */
    var fallback: bool

    constructor (src: string, withSrcSet: bool)
      ensures shown == src && hasSrcSet == withSrcSet && !fallback
    {
      shown := src;
      hasSrcSet := withSrcSet;
      fallback := false;
    }

    /** The `onError` handler, `placeholder` being the image this element falls back to. */
    method HandleError(placeholder: string)
      modifies this
      ensures fallback
      ensures !old(fallback) ==> shown == placeholder && !hasSrcSet
      ensures old(fallback) ==> shown == old(shown) && hasSrcSet == old(hasSrcSet)
    {
      if !fallback {
        fallback := true;
        shown := placeholder;
        hasSrcSet := false;
      }
    }
  }

  /**
   * `findById(id)`: the first movie whose id equals `Number(id)` of the route text. A route that
   * is not a number (NaN) or not a whole number matches no movie.
   */
  function FindByRoute(movies: seq<Movie>, route: MovieStore.Num): (r: Option<Movie>)
    ensures r.None? <==> route.NaN? || forall i :: 0 <= i < |movies| ==> movies[i].id as real != route.x
    ensures r.Some? ==> route.Val? && r.value in movies && r.value.id as real == route.x
  {
    match route
    case NaN => None
    case Val(x) =>
      if x.Floor as real != x then
        assert forall i :: 0 <= i < |movies| ==> movies[i].id as real != x;
        None
      else
        var r := Find(movies, x.Floor);
        assert r.None? <==> forall i :: 0 <= i < |movies| ==> movies[i].id as real != x by {
          forall i | 0 <= i < |movies| ensures movies[i].id as real == x <==> movies[i].id == x.Floor {
          }
        }
        r
  }

  /** The filter test of `similar`: another movie of the same genre. */
  function SimilarTo(movie: Movie): Movie -> bool
  {
    (m: Movie) => m.genre == movie.genre && m.id != movie.id
  }

  /** `similar`: the other movies of the same genre, in catalog order, at most six. */
  function Similar(movies: seq<Movie>, movie: Movie): (r: seq<Movie>)
  {
    Seqs.Take(Seqs.Filter(movies, SimilarTo(movie)), 6)
  }

  /**
   * The similar list holds at most six catalog movies, each of the same genre and with another
   * id, in catalog order; when it holds fewer than six, every such movie of the catalog is in it.
   * It is exactly the first six matches (all of them when there are fewer): six whenever six or
   * more match, and a match left out comes after every one kept.
   */
  lemma SimilarMovies(movies: seq<Movie>, movie: Movie)
    ensures var r := Similar(movies, movie);
      && |r| <= 6
      && (forall i :: 0 <= i < |r| ==> r[i] in movies && r[i].genre == movie.genre && r[i].id != movie.id)
      && Seqs.IsSubsequence(r, movies)
      && (|r| < 6 ==> forall m :: m in movies && m.genre == movie.genre && m.id != movie.id ==> m in r)
    ensures var r, all := Similar(movies, movie), Seqs.Filter(movies, SimilarTo(movie));
      && |r| == (if |all| <= 6 then |all| else 6)
      && r == all[..|r|]
  {
    var p := SimilarTo(movie);
    var all := Seqs.Filter(movies, p);
    var r := Similar(movies, movie);
    forall i | 0 <= i < |r| ensures r[i] in movies {
      assert r[i] == all[i];
      Seqs.FilterMembership(movies, p, r[i]);
    }
    Seqs.FilterIsSubsequence(movies, p);
    PrefixOfSubsequence(all, movies, |r|);
    if |r| < 6 {
      assert r == all;
      forall m | m in movies && p(m) ensures m in r {
        Seqs.FilterMembership(movies, p, m);
      }
    }
  }

  /** A prefix of a subsequence is a subsequence. */
  lemma {:induction false} PrefixOfSubsequence<T>(r: seq<T>, s: seq<T>, n: nat)
    requires n <= |r| && Seqs.IsSubsequence(r, s)
    ensures Seqs.IsSubsequence(r[..n], s)
    decreases |s|
  {
    if n > 0 && s != [] {
      if r[0] == s[0] {
        assert r[..n][1..] == r[1..][..n - 1];
        PrefixOfSubsequence(r[1..], s[1..], n - 1);
      } else {
        PrefixOfSubsequence(r, s[1..], n);
      }
    }
  }

  /** What the page shows. */
  datatype View =
    | NotFound
    | Page(movie: Movie, poster: string, srcset: Option<string>, similar: seq<Movie>)

  /** The page for the route parameter `route` over the catalog `movies`. */
  function Render(movies: seq<Movie>, route: MovieStore.Num): (v: View)
    ensures v.NotFound? <==> FindByRoute(movies, route).None?
    ensures v.Page? ==>
              v.movie == FindByRoute(movies, route).value &&
              v.poster == PosterSrc(v.movie.image) &&
              v.srcset == DetailSrcSet(v.movie.image) &&
              v.similar == Similar(movies, v.movie)
  {
    match FindByRoute(movies, route)
    case None => NotFound
    case Some(movie) => Page(movie, PosterSrc(movie.image), DetailSrcSet(movie.image), Similar(movies, movie))
  }

  /** The page of a movie never lists the movie itself among the similar ones. */
  lemma PageExcludesItself(movies: seq<Movie>, route: MovieStore.Num)
    requires Render(movies, route).Page?
    ensures var v := Render(movies, route); v.movie !in v.similar
  {
    var v := Render(movies, route);
    SimilarMovies(movies, v.movie);
  }
}
