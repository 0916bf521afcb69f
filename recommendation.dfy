/**
 * `generateRecommendations(userRatings, allMovies)`: the movies the user has not rated, each
 * scored by its own rating, the user's average rating of its genre and a small random jitter,
 * best first, at most six of them.
 *
 * The genre aggregation walks the rated ids in `Object.keys` order, which for integer keys is
 * ascending, and restarts a genre's running total whenever that total is falsy (`!ratingSum[g]`),
 * that is, when the genre is new or its running sum is 0. With ratings of 1 to 5 stars, as the
 * screens give, a running sum is never 0 and each average is the plain mean.
 */
module Recommendation {
  import opened Wrappers
  import opened Movies
  import Seqs

  /** `{ ...movie, score }`: a catalog movie with its score attached. */
  datatype Scored = Scored(movie: Movie, score: real)

  /** The sort key of the ranking. */
  function ScoreOf(s: Scored): real
  {
    s.score
  }

  /** The running per-genre totals `ratingSum` and `ratingCount`. */
  datatype Totals = Totals(sum: map<string, int>, count: map<string, int>)

  /** Every id of `ids` is a key of the ratings map. */
  predicate AllRated(ids: seq<int>, ratings: map<int, int>)
  {
    forall i :: 0 <= i < |ids| ==> ids[i] in ratings
  }

  /** A non-empty set of integers has a least element. */
  lemma {:induction false} HasLeast(s: set<int>)
    requires s != {}
    ensures exists m :: m in s && forall x :: x in s ==> m <= x
  {
    if forall y :: y !in s {
      assert false;
    }
    var x :| x in s;
    if s != {x} {
      HasLeast(s - {x});
      var m :| m in s - {x} && forall y :: y in s - {x} ==> m <= y;
      var least := if x < m then x else m;
      forall y | y in s ensures least <= y {
        if y != x {
          assert y in s - {x};
        }
      }
    }
  }

  function MinOf(s: set<int>): (m: int)
    requires s != {}
    ensures m in s && forall x :: x in s ==> m <= x
  {
    HasLeast(s);
    var m :| m in s && forall x :: x in s ==> m <= x;
    m
  }

  /** `Object.keys(userRatings).map(id => parseInt(id))`: every key once, in ascending order. */
  function KeysAscending(s: set<int>): (r: seq<int>)
    ensures |r| == |s|
    ensures forall i :: 0 <= i < |r| ==> r[i] in s
    ensures forall k :: k in s ==> k in r
    ensures forall i, j :: 0 <= i < j < |r| ==> r[i] < r[j]
  {
    if s == {} then []
    else
      var m := MinOf(s);
      var rest := KeysAscending(s - {m});
      LeastFirst(s, m, rest);
      [m] + rest
  }

  /** Putting the least key in front of the ordered others orders them all. */
  lemma LeastFirst(s: set<int>, m: int, rest: seq<int>)
    requires m in s && forall x :: x in s ==> m <= x
    requires |rest| == |s - {m}|
    requires forall i :: 0 <= i < |rest| ==> rest[i] in s - {m}
    requires forall k :: k in s - {m} ==> k in rest
    requires forall i, j :: 0 <= i < j < |rest| ==> rest[i] < rest[j]
    ensures var r := [m] + rest;
            |r| == |s| && (forall i :: 0 <= i < |r| ==> r[i] in s) && (forall k :: k in s ==> k in r) &&
            forall i, j :: 0 <= i < j < |r| ==> r[i] < r[j]
  {
    var r := [m] + rest;
    forall k | k in s ensures k in r {
      if k != m {
        assert k in s - {m};
      }
    }
    forall i, j | 0 <= i < j < |r| ensures r[i] < r[j] {
      assert r[j] == rest[j - 1] && r[j] in s - {m};
      if i > 0 {
        assert r[i] == rest[i - 1];
      }
    }
  }

  /**
   * One rated movie of genre `genre` given `stars`: a genre whose running sum is absent or 0 is
   * (re)started at sum 0 and count 0 before the rating is added.
   */
  function Add(t: Totals, genre: string, stars: int): (r: Totals)
    requires t.sum.Keys == t.count.Keys
  {
    var restart := genre !in t.sum || t.sum[genre] == 0;
    var sum0 := if restart then 0 else t.sum[genre];
    var count0 := if restart then 0 else t.count[genre];
    Totals(t.sum[genre := sum0 + stars], t.count[genre := count0 + 1])
  }

  /** One iteration of the aggregation loop: ids whose movie is not in the catalog are skipped. */
  function Visit(t: Totals, id: int, ratings: map<int, int>, movies: seq<Movie>): (r: Totals)
    requires id in ratings && t.sum.Keys == t.count.Keys
  {
    match Find(movies, id)
    case None => t
    case Some(m) => Add(t, m.genre, ratings[id])
  }

  /** The totals after the aggregation loop has visited `ids` in order (a left fold of `Visit`). */
  function Tally(ids: seq<int>, ratings: map<int, int>, movies: seq<Movie>): (t: Totals)
    requires AllRated(ids, ratings)
    ensures t.sum.Keys == t.count.Keys
    ensures forall g :: g in t.count ==> t.count[g] >= 1
  {
    if ids == [] then Totals(map[], map[])
    else Visit(Tally(ids[..|ids| - 1], ratings, movies), ids[|ids| - 1], ratings, movies)
  }

  /** What visiting `id` contributes to genre `g`: its rating, when its movie is a catalog movie of genre `g`. */
  function Own(g: string, id: int, ratings: map<int, int>, movies: seq<Movie>): (r: seq<int>)
    requires id in ratings
    ensures r == [] || r == [ratings[id]]
  {
    match Find(movies, id)
    case Some(m) => if m.genre == g then [ratings[id]] else []
    case None => []
  }

  /**
   * Reference definition: the ratings, in visiting order, of the ids in `ids` whose movie is in
   * the catalog with genre `g`.
   */
  function RatingsOf(g: string, ids: seq<int>, ratings: map<int, int>, movies: seq<Movie>): seq<int>
    requires AllRated(ids, ratings)
  {
    if ids == [] then []
    else RatingsOf(g, ids[..|ids| - 1], ratings, movies) + Own(g, ids[|ids| - 1], ratings, movies)
  }

  /** What one visit does to the totals of genre `g`. */
  lemma VisitOnGenre(t: Totals, id: int, ratings: map<int, int>, movies: seq<Movie>, g: string)
    requires id in ratings && t.sum.Keys == t.count.Keys
    ensures var r, own := Visit(t, id, ratings, movies), Own(g, id, ratings, movies);
            r.sum.Keys == r.count.Keys &&
            (own == [] ==> (g in r.sum <==> g in t.sum) &&
                           (g in t.sum ==> r.sum[g] == t.sum[g] && r.count[g] == t.count[g])) &&
            (own != [] && (g !in t.sum || t.sum[g] == 0) ==>
               g in r.sum && r.sum[g] == ratings[id] && r.count[g] == 1) &&
            (own != [] && g in t.sum && t.sum[g] != 0 ==>
               g in r.sum && r.sum[g] == t.sum[g] + ratings[id] && r.count[g] == t.count[g] + 1)
  {
  }

  function Sum(xs: seq<int>): int
  {
    if xs == [] then 0 else Sum(xs[..|xs| - 1]) + xs[|xs| - 1]
  }

  lemma {:induction false} SumOfPositives(xs: seq<int>)
    requires forall x :: x in xs ==> x > 0
    ensures xs != [] ==> Sum(xs) > 0
  {
    if xs != [] {
      assert xs[|xs| - 1] in xs;
      var prefix := xs[..|xs| - 1];
      assert forall x :: x in prefix ==> x in xs;
      SumOfPositives(prefix);
    }
  }

  /** Visiting one more id appends at most its own rating to `g`'s ratings. */
  lemma RatingsOfStep(g: string, ids: seq<int>, ratings: map<int, int>, movies: seq<Movie>)
    requires AllRated(ids, ratings) && ids != []
    ensures var prefix, id := ids[..|ids| - 1], ids[|ids| - 1];
            RatingsOf(g, ids, ratings, movies) == RatingsOf(g, prefix, ratings, movies) + Own(g, id, ratings, movies) &&
            Tally(ids, ratings, movies) == Visit(Tally(prefix, ratings, movies), id, ratings, movies)
  {
  }

  /** A genre has totals exactly when some visited id is a catalog movie of that genre. */
  lemma {:induction false} TallyKeys(g: string, ids: seq<int>, ratings: map<int, int>, movies: seq<Movie>)
    requires AllRated(ids, ratings)
    ensures g in Tally(ids, ratings, movies).sum <==> RatingsOf(g, ids, ratings, movies) != []
  {
    if ids != [] {
      var prefix, id := ids[..|ids| - 1], ids[|ids| - 1];
      TallyKeys(g, prefix, ratings, movies);
      RatingsOfStep(g, ids, ratings, movies);
      VisitOnGenre(Tally(prefix, ratings, movies), id, ratings, movies, g);
    }
  }

  /**
   * With positive ratings of genre `g` no restart happens after the first, so the totals are the
   * sum and the number of that genre's ratings.
   */
  lemma {:induction false} TallyOfPositiveRatings(g: string, ids: seq<int>, ratings: map<int, int>, movies: seq<Movie>)
    requires AllRated(ids, ratings)
    requires forall x :: x in RatingsOf(g, ids, ratings, movies) ==> x > 0
    ensures var t := Tally(ids, ratings, movies);
            g in t.sum ==> t.sum[g] == Sum(RatingsOf(g, ids, ratings, movies)) &&
                           t.count[g] == |RatingsOf(g, ids, ratings, movies)|
  {
    if ids != [] {
      var prefix, id := ids[..|ids| - 1], ids[|ids| - 1];
      var rs, ps, own := RatingsOf(g, ids, ratings, movies), RatingsOf(g, prefix, ratings, movies), Own(g, id, ratings, movies);
      RatingsOfStep(g, ids, ratings, movies);
      assert rs == ps + own;
      assert forall x :: x in ps ==> x in rs;
      TallyOfPositiveRatings(g, prefix, ratings, movies);
      TallyKeys(g, prefix, ratings, movies);
      SumOfPositives(ps);
      VisitOnGenre(Tally(prefix, ratings, movies), id, ratings, movies, g);
      if own == [] {
        assert rs == ps;
      } else {
        assert rs[..|rs| - 1] == ps && rs[|rs| - 1] == ratings[id];
        assert ratings[id] in rs;
      }
    }
  }

  lemma SumAppend(xs: seq<int>, x: int)
    ensures Sum(xs + [x]) == Sum(xs) + x
  {
    assert (xs + [x])[..|xs|] == xs;
  }

  /** Whatever restarts happen, the totals of `g` are those of a non-empty final run of its ratings. */
  lemma {:induction false} TallyIsFinalRun(g: string, ids: seq<int>, ratings: map<int, int>, movies: seq<Movie>)
    requires AllRated(ids, ratings)
    ensures var t, rs := Tally(ids, ratings, movies), RatingsOf(g, ids, ratings, movies);
            g in t.sum ==> exists k :: 0 <= k < |rs| && t.sum[g] == Sum(rs[k..]) && t.count[g] == |rs| - k
  {
    if ids != [] {
      var prefix, id := ids[..|ids| - 1], ids[|ids| - 1];
      var rs, ps, own := RatingsOf(g, ids, ratings, movies), RatingsOf(g, prefix, ratings, movies), Own(g, id, ratings, movies);
      var t, r := Tally(prefix, ratings, movies), Tally(ids, ratings, movies);
      RatingsOfStep(g, ids, ratings, movies);
      TallyIsFinalRun(g, prefix, ratings, movies);
      TallyKeys(g, prefix, ratings, movies);
      VisitOnGenre(t, id, ratings, movies, g);
      if own == [] {
        assert rs == ps;
      } else if g !in t.sum || t.sum[g] == 0 {
        assert rs[|ps|..] == [ratings[id]];
        assert Sum([ratings[id]]) == Sum([]) + ratings[id] by { SumAppend([], ratings[id]); }
      } else {
        var k :| 0 <= k < |ps| && t.sum[g] == Sum(ps[k..]) && t.count[g] == |ps| - k;
        assert rs[k..] == ps[k..] + [ratings[id]];
        SumAppend(ps[k..], ratings[id]);
      }
    }
  }

  /** A sum of values between `lo` and `hi` lies between `|xs| * lo` and `|xs| * hi`. */
  lemma {:induction false} SumBetween(xs: seq<int>, lo: int, hi: int)
    requires forall x :: x in xs ==> lo <= x <= hi
    ensures |xs| * lo <= Sum(xs) <= |xs| * hi
  {
    if xs != [] {
      var prefix := xs[..|xs| - 1];
      assert forall x :: x in prefix ==> x in xs;
      assert xs[|xs| - 1] in xs;
      SumBetween(prefix, lo, hi);
      assert |xs| * lo == |prefix| * lo + lo;
      assert |xs| * hi == |prefix| * hi + hi;
    }
  }

  /** The totals of `g` stay between `count * lo` and `count * hi` when its ratings do. */
  lemma TallyWithinBounds(g: string, ids: seq<int>, ratings: map<int, int>, movies: seq<Movie>, lo: int, hi: int)
    requires AllRated(ids, ratings)
    requires forall x :: x in RatingsOf(g, ids, ratings, movies) ==> lo <= x <= hi
    ensures var t := Tally(ids, ratings, movies);
            g in t.sum ==> t.count[g] * lo <= t.sum[g] <= t.count[g] * hi
  {
    var t, rs := Tally(ids, ratings, movies), RatingsOf(g, ids, ratings, movies);
    TallyIsFinalRun(g, ids, ratings, movies);
    if g in t.sum {
      var k :| 0 <= k < |rs| && t.sum[g] == Sum(rs[k..]) && t.count[g] == |rs| - k;
      assert forall x :: x in rs[k..] ==> x in rs;
      SumBetween(rs[k..], lo, hi);
    }
  }

  /** `avgGenreRatings`: each genre's running sum over its running count. */
  function Averages(t: Totals): (avg: map<string, real>)
    requires t.sum.Keys == t.count.Keys
    requires forall g :: g in t.count ==> t.count[g] >= 1
    ensures avg.Keys == t.sum.Keys
  {
    map g | g in t.sum :: t.sum[g] as real / t.count[g] as real
  }

  /** The genre averages of the user's ratings, visiting the rated ids in ascending order. */
  function GenreAverages(ratings: map<int, int>, movies: seq<Movie>): map<string, real>
  {
    Averages(Tally(KeysAscending(ratings.Keys), ratings, movies))
  }

  /** The ratings of genre `g` that the averages are built from. */
  function GenreRatings(g: string, ratings: map<int, int>, movies: seq<Movie>): seq<int>
  {
    RatingsOf(g, KeysAscending(ratings.Keys), ratings, movies)
  }

  lemma DivisionBetween(s: int, c: int, lo: int, hi: int)
    requires c >= 1 && c * lo <= s <= c * hi
    ensures lo as real <= s as real / c as real <= hi as real
  {
    var q := s as real / c as real;
    assert q * c as real == s as real;
    assert (q - lo as real) * c as real == s as real - (c * lo) as real;
    assert (hi as real - q) * c as real == (c * hi) as real - s as real;
  }

  /**
   * A genre has an average exactly when the user rated a catalog movie of that genre; rated ids
   * missing from the catalog contribute to no genre.
   */
  lemma GenreAverageKeys(g: string, ratings: map<int, int>, movies: seq<Movie>)
    ensures g in GenreAverages(ratings, movies) <==> GenreRatings(g, ratings, movies) != []
  {
    TallyKeys(g, KeysAscending(ratings.Keys), ratings, movies);
  }

  /** With positive ratings (the screens give 1 to 5 stars), a genre's average is the mean of its ratings. */
  lemma GenreAverageIsMean(g: string, ratings: map<int, int>, movies: seq<Movie>)
    requires forall x :: x in GenreRatings(g, ratings, movies) ==> x > 0
    ensures var avg, rs := GenreAverages(ratings, movies), GenreRatings(g, ratings, movies);
            g in avg ==> |rs| > 0 && avg[g] == Sum(rs) as real / |rs| as real
  {
    var ids := KeysAscending(ratings.Keys);
    TallyOfPositiveRatings(g, ids, ratings, movies);
  }

  /** A genre's average lies between the least and the greatest rating given to that genre. */
  lemma GenreAverageBetween(g: string, ratings: map<int, int>, movies: seq<Movie>, lo: int, hi: int)
    requires forall x :: x in GenreRatings(g, ratings, movies) ==> lo <= x <= hi
    ensures var avg := GenreAverages(ratings, movies);
            g in avg ==> lo as real <= avg[g] <= hi as real
  {
    var ids := KeysAscending(ratings.Keys);
    var t := Tally(ids, ratings, movies);
    assert GenreRatings(g, ratings, movies) == RatingsOf(g, ids, ratings, movies);
    TallyWithinBounds(g, ids, ratings, movies, lo, hi);
    if g in t.sum {
      DivisionBetween(t.sum[g], t.count[g], lo, hi);
    }
  }

  /**
   * A rating of 0 leaves the running sum at 0, so the next rating of that genre restarts it: with
   * two Drama movies rated 0 and 4, the Drama average is 4, not the mean 2.
   */
  lemma ZeroRatingRestartsGenre()
    ensures GenreAverages(ExampleRatings(), ExampleMovies()) == map["Drama" := 4.0]
    ensures GenreRatings("Drama", ExampleRatings(), ExampleMovies()) == [0, 4]
  {
    var movies, ratings := ExampleMovies(), ExampleRatings();
    assert ratings.Keys == {1, 2};
    TwoKeysAscending(1, 2);
    assert KeysAscending(ratings.Keys) == [1, 2];
    ExampleTally();
    ExampleAverages();
    ExampleRatingsOf();
  }

  /** Two Drama movies, ids 1 and 2. */
  function ExampleMovies(): seq<Movie>
  {
    [Movie(1, "A", "Drama", 2000.0, 5.0, "", ""), Movie(2, "B", "Drama", 2000.0, 5.0, "", "")]
  }

  /** Movie 1 rated 0, movie 2 rated 4. */
  function ExampleRatings(): map<int, int>
  {
    map[1 := 0, 2 := 4]
  }

  lemma ExampleFinds()
    ensures Find(ExampleMovies(), 1) == Some(ExampleMovies()[0])
    ensures Find(ExampleMovies(), 2) == Some(ExampleMovies()[1])
  {
    var movies := ExampleMovies();
    assert movies[1..] == [movies[1]];
  }

  lemma ExampleTally()
    ensures Tally([1, 2], ExampleRatings(), ExampleMovies()) == Totals(map["Drama" := 4], map["Drama" := 1])
  {
    var movies, ratings := ExampleMovies(), ExampleRatings();
    ExampleFinds();
    assert [1, 2][..1] == [1] && [1][..0] == [];
    var t1 := Tally([1], ratings, movies);
    assert t1 == Visit(Totals(map[], map[]), 1, ratings, movies);
    assert t1 == Totals(map["Drama" := 0], map["Drama" := 1]);
    assert Tally([1, 2], ratings, movies) == Visit(t1, 2, ratings, movies);
  }

  lemma ExampleAverages()
    ensures Averages(Totals(map["Drama" := 4], map["Drama" := 1])) == map["Drama" := 4.0]
  {
    var avg := Averages(Totals(map["Drama" := 4], map["Drama" := 1]));
    assert avg.Keys == {"Drama"};
  }

  lemma ExampleRatingsOf()
    ensures RatingsOf("Drama", [1, 2], ExampleRatings(), ExampleMovies()) == [0, 4]
  {
    var movies, ratings := ExampleMovies(), ExampleRatings();
    ExampleFinds();
    assert Own("Drama", 1, ratings, movies) == [0];
    assert Own("Drama", 2, ratings, movies) == [4];
    assert [1, 2][..1] == [1] && [1][..0] == [];
    RatingsOfStep("Drama", [1, 2], ratings, movies);
    RatingsOfStep("Drama", [1], ratings, movies);
  }

  lemma TwoKeysAscending(a: int, b: int)
    requires a < b
    ensures KeysAscending({a, b}) == [a, b]
  {
    var r := KeysAscending({a, b});
    assert a in r && b in r;
  }

  /**
   * The score of one unrated movie: its own rating over 10, plus half its genre average over 5
   * when that average exists and is non-zero, plus the jitter (`Math.random() * 0.1`).
   */
  function Score(m: Movie, avg: map<string, real>, jitter: real): real
  {
    var score := m.rating / 10.0;
    var boost := if m.genre in avg && avg[m.genre] != 0.0 then avg[m.genre] / 5.0 * 0.5 else 0.0;
    score + boost + jitter
  }

  /**
   * Without a genre average the score is the movie's rating over 10 plus the jitter; with a
   * genre average in 0..5 the boost adds at most 0.5, and at least 0.1 for an average of 1 or more.
   */
  lemma ScoreBounds(m: Movie, avg: map<string, real>, jitter: real)
    requires forall g :: g in avg ==> 0.0 <= avg[g] <= 5.0
    ensures m.genre !in avg ==> Score(m, avg, jitter) == m.rating / 10.0 + jitter
    ensures m.rating / 10.0 + jitter <= Score(m, avg, jitter) <= m.rating / 10.0 + jitter + 0.5
    ensures m.genre in avg && avg[m.genre] >= 1.0 ==> Score(m, avg, jitter) >= m.rating / 10.0 + jitter + 0.1
  {
  }

  /** `unratedMovies`: the catalog movies whose id is not a key of the ratings map, in catalog order. */
  function Unrated(ratings: map<int, int>, movies: seq<Movie>): (r: seq<Movie>)
    ensures forall i :: 0 <= i < |r| ==> r[i].id !in ratings
  {
    Seqs.Filter(movies, (m: Movie) => m.id !in ratings)
  }

  /** `unratedMovies.map(...)`: the i-th unrated movie scored with the i-th jitter draw. */
  function ScoreAll(ms: seq<Movie>, avg: map<string, real>, noise: nat -> real): (r: seq<Scored>)
    ensures |r| == |ms|
    ensures forall i :: 0 <= i < |r| ==> r[i].movie == ms[i]
  {
    seq(|ms|, i requires 0 <= i < |ms| => Scored(ms[i], Score(ms[i], avg, noise(i))))
  }

  /** Every unrated movie with its score. */
  function Candidates(ratings: map<int, int>, movies: seq<Movie>, noise: nat -> real): seq<Scored>
  {
    ScoreAll(Unrated(ratings, movies), GenreAverages(ratings, movies), noise)
  }

  /** The recommendations: nothing without ratings, else the six best candidates, best first. */
  function Recommend(ratings: map<int, int>, movies: seq<Movie>, noise: nat -> real): seq<Scored>
  {
    if ratings == map[] then []
    else Seqs.Take(Seqs.SortDesc(Candidates(ratings, movies, noise), ScoreOf), 6)
  }

  /** No ratings, no recommendations; otherwise min(6, number of unrated movies) of them. */
  lemma RecommendationCount(ratings: map<int, int>, movies: seq<Movie>, noise: nat -> real)
    ensures var r, n := Recommend(ratings, movies, noise), |Unrated(ratings, movies)|;
            (ratings == map[] ==> r == []) &&
            (ratings != map[] ==> |r| == if n <= 6 then n else 6) &&
            |r| <= 6 && |r| <= n
  {
  }

  /**
   * Each recommendation is an unrated catalog movie, unchanged, carrying the score computed for
   * it with its own jitter draw.
   */
  lemma RecommendationsAreUnrated(ratings: map<int, int>, movies: seq<Movie>, noise: nat -> real)
    ensures var r, u := Recommend(ratings, movies, noise), Unrated(ratings, movies);
            forall i :: 0 <= i < |r| ==>
              r[i].movie in movies && r[i].movie.id !in ratings &&
              exists j :: 0 <= j < |u| && r[i].movie == u[j] &&
                          r[i].score == Score(u[j], GenreAverages(ratings, movies), noise(j))
  {
    var r, u := Recommend(ratings, movies, noise), Unrated(ratings, movies);
    if ratings != map[] {
      var c := Candidates(ratings, movies, noise);
      Seqs.TopOfSortedFromS(c, ScoreOf, 6);
      forall i | 0 <= i < |r|
        ensures r[i].movie in movies && r[i].movie.id !in ratings
        ensures exists j :: 0 <= j < |u| && r[i].movie == u[j] &&
                            r[i].score == Score(u[j], GenreAverages(ratings, movies), noise(j))
      {
        var j :| 0 <= j < |c| && c[j] == r[i];
        assert u[j] in u;
        Seqs.FilterMembership(movies, (m: Movie) => m.id !in ratings, u[j]);
      }
    }
  }

  /**
   * The recommendations are ordered by non-increasing score, are drawn from the candidates, and
   * every candidate left out scores no higher than any recommendation: they are the best
   * min(6, n), best first.
   */
  lemma RecommendationsAreBest(ratings: map<int, int>, movies: seq<Movie>, noise: nat -> real)
    ensures var r, c := Recommend(ratings, movies, noise), Candidates(ratings, movies, noise);
            Seqs.SortedDesc(r, ScoreOf) &&
            (ratings != map[] ==>
               multiset(r) <= multiset(c) &&
               forall x :: x in multiset(c) - multiset(r) ==>
                 forall i :: 0 <= i < |r| ==> x.score <= r[i].score)
  {
    if ratings != map[] {
      Seqs.TopOfSortedFromS(Candidates(ratings, movies, noise), ScoreOf, 6);
      Seqs.TopOfSortedIsBest(Candidates(ratings, movies, noise), ScoreOf, 6);
    }
  }

  /**
   * The aggregation loop (`ratedMovieIds.forEach`): fills `ratingSum` and `ratingCount` in place,
   * restarting a genre whose running sum is falsy.
   */
  method TallyGenres(ids: seq<int>, ratings: map<int, int>, movies: seq<Movie>)
    returns (sum: map<string, int>, count: map<string, int>)
    requires AllRated(ids, ratings)
    ensures Totals(sum, count) == Tally(ids, ratings, movies)
  {
    sum, count := map[], map[];
    for i := 0 to |ids|
      invariant Totals(sum, count) == Tally(ids[..i], ratings, movies)
    {
      assert ids[..i + 1][..i] == ids[..i];
      var id := ids[i];
      var movie := Find(movies, id);
      var stars := ratings[id];
      if movie.Some? {
        var genre := movie.value.genre;
        if genre !in sum || sum[genre] == 0 {
          sum := sum[genre := 0];
          count := count[genre := 0];
        }
        sum := sum[genre := sum[genre] + stars];
        count := count[genre := count[genre] + 1];
      }
    }
    assert ids[..|ids|] == ids;
  }

  /** `Object.keys(ratingSum).forEach(...)`: each genre's average, in whatever order the genres come. */
  method AverageGenres(sum: map<string, int>, count: map<string, int>) returns (avg: map<string, real>)
    requires sum.Keys == count.Keys && forall g :: g in count ==> count[g] >= 1
    ensures avg == Averages(Totals(sum, count))
  {
    avg := map[];
    var pending := sum.Keys;
    while pending != {}
      invariant pending <= sum.Keys
      invariant avg.Keys == sum.Keys - pending
      invariant forall g :: g in avg ==> avg[g] == sum[g] as real / count[g] as real
      decreases pending
    {
      var genre :| genre in pending;
      avg := avg[genre := sum[genre] as real / count[genre] as real];
      pending := pending - {genre};
    }
  }

  /** `unratedMovies.map(...)`: scores the unrated movies in order, drawing the i-th jitter for the i-th. */
  method ScoreMovies(unrated: seq<Movie>, avg: map<string, real>, noise: nat -> real) returns (scored: seq<Scored>)
    ensures scored == ScoreAll(unrated, avg, noise)
  {
    scored := [];
    for i := 0 to |unrated|
      invariant |scored| == i
      invariant forall j :: 0 <= j < i ==> scored[j] == Scored(unrated[j], Score(unrated[j], avg, noise(j)))
    {
      var m := unrated[i];
      var score := m.rating / 10.0;
      if m.genre in avg && avg[m.genre] != 0.0 {
        var genreBoost := avg[m.genre] / 5.0;
        score := score + genreBoost * 0.5;
      }
      score := score + noise(i);
      scored := scored + [Scored(m, score)];
    }
  }

  /**
   * `generateRecommendations`: excludes the rated movies, aggregates and averages the ratings by
   * genre, scores the unrated movies, sorts them by descending score and keeps the first six.
   */
  method GenerateRecommendations(ratings: map<int, int>, movies: seq<Movie>, noise: nat -> real)
    returns (recs: seq<Scored>)
    ensures recs == Recommend(ratings, movies, noise)
  {
    var ids := KeysAscending(ratings.Keys);
    var unrated := Unrated(ratings, movies);
    if |ids| == 0 {
      return [];
    }
    var sum, count := TallyGenres(ids, ratings, movies);
    var avg := AverageGenres(sum, count);
    var scored := ScoreMovies(unrated, avg, noise);
    recs := Seqs.Take(Seqs.SortDesc(scored, ScoreOf), 6);
  }
}
