/**
 * The movie record shared by the catalog, the recommendation engine and the screens, with the
 * lookups both catalog holders use (`find` by id, the `max id + 1` allocator, the genre list).
 */
module Movies {
  import opened Wrappers

  /** A catalog entry. `year` and `rating` are JavaScript numbers; `rating` is the intrinsic 0-10 score. */
  datatype Movie = Movie(
    id: int,
    title: string,
    genre: string,
    year: real,
    rating: real,
    image: string,
    description: string)

  /** `movies.find(m => m.id === id)`: the first movie with that id. */
  function Find(movies: seq<Movie>, id: int): (r: Option<Movie>)
    ensures r.None? <==> forall i :: 0 <= i < |movies| ==> movies[i].id != id
    ensures r.Some? ==> r.value.id == id
    ensures r.Some? ==>
              exists i :: 0 <= i < |movies| && movies[i] == r.value &&
                          forall j :: 0 <= j < i ==> movies[j].id != id
  {
    if movies == [] then None
    else if movies[0].id == id then Some(movies[0])
    else
      var r := Find(movies[1..], id);
      assert forall j :: 1 <= j < |movies| ==> movies[j] == movies[1..][j - 1];
      r
  }

  /** `Math.max(...movies.map(m => m.id))` of a non-empty catalog. */
  function MaxId(movies: seq<Movie>): (r: int)
    requires movies != []
    ensures exists i :: 0 <= i < |movies| && movies[i].id == r
    ensures forall i :: 0 <= i < |movies| ==> movies[i].id <= r
  {
    if |movies| == 1 then movies[0].id
    else
      var m := MaxId(movies[1..]);
      assert forall i :: 1 <= i < |movies| ==> movies[i] == movies[1..][i - 1];
      if movies[0].id >= m then movies[0].id else m
  }

  /** The id an appended movie receives: one past the largest id, or 1 for an empty catalog. */
  function NextId(movies: seq<Movie>): (r: int)
    ensures movies == [] ==> r == 1
    ensures movies != [] ==> r == MaxId(movies) + 1
    ensures forall i :: 0 <= i < |movies| ==> movies[i].id < r
  {
    if movies == [] then 1 else MaxId(movies) + 1
  }

  /** Index of the first occurrence of `x` in `s`. */
  function FirstIndex(s: seq<string>, x: string): (i: nat)
    requires x in s
    ensures i < |s| && s[i] == x
    ensures forall j :: 0 <= j < i ==> s[j] != x
  {
    if s[0] == x then 0
    else
      assert forall j :: 1 <= j < |s| ==> s[j] == s[1..][j - 1];
      1 + FirstIndex(s[1..], x)
  }

  lemma FirstIndexOfPrefix(s: seq<string>, n: nat, x: string)
    requires n <= |s| && x in s[..n]
    ensures FirstIndex(s, x) == FirstIndex(s[..n], x)
  {
    var i := FirstIndex(s[..n], x);
    assert s[i] == x;
    var k := FirstIndex(s, x);
    assert k <= i;
    assert forall j :: 0 <= j < k ==> s[..n][j] != x;
  }

  /** `[...new Set(s)]`: each distinct value once, in order of first occurrence. */
  function Distinct(s: seq<string>): (r: seq<string>)
    ensures forall x :: x in r <==> x in s
    ensures forall i, j :: 0 <= i < j < |r| ==> r[i] != r[j]
    ensures forall i, j :: 0 <= i < j < |r| ==> FirstIndex(s, r[i]) < FirstIndex(s, r[j])
    decreases |s|
  {
    if s == [] then []
    else
      var init := s[..|s| - 1];
      var x := s[|s| - 1];
      assert s == init + [x];
      var d := Distinct(init);
      forall y | y in init ensures FirstIndex(s, y) == FirstIndex(init, y) {
        FirstIndexOfPrefix(s, |s| - 1, y);
      }
      if x in d then d
      else
        assert FirstIndex(s, x) == |s| - 1;
        d + [x]
  }

  /** `['All', ...new Set(movies.map(m => m.genre))]`, the genre filter's choices. */
  function GenreList(movies: seq<Movie>): (r: seq<string>)
  {
    ["All"] + Distinct(seq(|movies|, i requires 0 <= i < |movies| => movies[i].genre))
  }

  lemma GenreListShape(movies: seq<Movie>)
    ensures var r := GenreList(movies);
      && r[0] == "All"
      && (forall g :: g in r[1..] <==> exists i :: 0 <= i < |movies| && movies[i].genre == g)
      && (forall i, j :: 1 <= i < j < |r| ==> r[i] != r[j])
  {
    var gs := seq(|movies|, i requires 0 <= i < |movies| => movies[i].genre);
    assert GenreList(movies)[1..] == Distinct(gs);
    forall g | (exists i :: 0 <= i < |movies| && movies[i].genre == g) ensures g in gs {
      var i :| 0 <= i < |movies| && movies[i].genre == g;
      assert gs[i] == g;
    }
  }
}
