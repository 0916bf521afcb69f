/**
 * The user's ratings: a map from movie id to the number of stars given. It is loaded once from
 * storage when the holder is created and upserted, one entry at a time, by `rateMovie`.
 */
module RatingStore {
  import opened Wrappers
  import Utils

  /** `{ ...prev, [movieId]: rating }`: the map with `id` now rated `stars`. */
  function Rated(ratings: map<int, int>, id: int, stars: int): (r: map<int, int>)
    ensures id in r && r[id] == stars
    ensures forall k :: k in ratings && k != id ==> k in r && r[k] == ratings[k]
    ensures r.Keys == ratings.Keys + {id}
  {
    ratings[id := stars]
  }

  /** Rating an already rated movie replaces the old value; the earlier rating leaves no trace. */
  lemma {:induction false} RerateOverwrites(ratings: map<int, int>, id: int, first: int, second: int)
    ensures Rated(Rated(ratings, id, first), id, second) == Rated(ratings, id, second)
  {
    var once, twice := Rated(ratings, id, second), Rated(Rated(ratings, id, first), id, second);
    assert once.Keys == twice.Keys;
    forall k | k in once ensures once[k] == twice[k] {
      if k != id {
        assert k in ratings;
      }
    }
  }

  /** Rating twice with the same value is rating once. */
  lemma RateIdempotent(ratings: map<int, int>, id: int, stars: int)
    ensures Rated(Rated(ratings, id, stars), id, stars) == Rated(ratings, id, stars)
  {
    RerateOverwrites(ratings, id, stars, stars);
  }

  /** Ratings of two different movies do not interfere: either order gives the same map. */
  lemma {:induction false} RatingsOfDifferentMoviesCommute(ratings: map<int, int>, a: int, x: int, b: int, y: int)
    requires a != b
    ensures Rated(Rated(ratings, a, x), b, y) == Rated(Rated(ratings, b, y), a, x)
  {
    var ab, ba := Rated(Rated(ratings, a, x), b, y), Rated(Rated(ratings, b, y), a, x);
    assert ab.Keys == ba.Keys;
    forall k | k in ab ensures ab[k] == ba[k] {
      if k != a && k != b {
        assert k in ratings;
      }
    }
  }

  /** The ratings state cell of the hook. */
  class Ratings {
    var ratings: map<int, int>

    /**
     * The load effect: the stored JSON when there is some and it parses, otherwise the empty map
     * the state starts with. `parse` stands for `JSON.parse` (`None` when it throws).
     */
    constructor (raw: Option<string>, parse: string -> Option<map<int, int>>)
      ensures ratings == Utils.LoadFromStorage(raw, parse, map[])
      ensures raw.None? || raw.value == "" || parse(raw.value).None? ==> ratings == map[]
    {
      ratings := Utils.LoadFromStorage(raw, parse, map[]);
    }

    /** `rateMovie(movieId, rating)`: records the rating; no entry is ever removed. */
    method RateMovie(id: int, stars: int)
      modifies this
      ensures ratings == Rated(old(ratings), id, stars)
      ensures old(ratings).Keys <= ratings.Keys <= old(ratings).Keys + {id}
    {
      ratings := ratings[id := stars];
    }
  }
}
