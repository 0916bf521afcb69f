/**
 * The catalog store: field-by-field validation of a candidate record, and the catalog holder
 * with add (next id allocated), edit (merge, re-validate, keep the id), delete and lookup by id.
 * Every successful change replaces the whole `movies` sequence, as the store's state setter does.
 */
module MovieStore {
  import opened Wrappers
  import opened Strings
  import opened Movies
  import Seqs
  import Utils

  /** A JavaScript number as `Number(...)` produces it: not-a-number, or a value. */
  datatype Num = NaN | Val(x: real)

  /**
   * A candidate record as callers hand it to `validate`, `addMovie` or `editMovie`: any field may
   * be absent (`None`); year and rating are the numbers `Number(...)` makes of what was entered.
   */
  datatype Draft = Draft(
    title: Option<string>,
    genre: Option<string>,
    year: Option<Num>,
    rating: Option<Num>,
    image: Option<string>,
    description: Option<string>)

  /** The keys of the error map. */
  datatype Field = Title | Genre | Year | Rating | Image | Description

  const AllFields: set<Field> := {Title, Genre, Year, Rating, Image, Description}

  /**
   * What the store asks of its surroundings: the current calendar year (`new Date().getFullYear()`)
   * and whether `new URL(s)` accepts `s`.
   */
  datatype Env = Env(currentYear: int, isUrl: string -> bool)

  /** The `{ ok, errors }` answer of `addMovie` and `editMovie`. */
  datatype Outcome = Saved | Rejected(errors: map<Field, string>)

  /** `Number(x)` of a field: an absent field (`undefined`) becomes NaN. */
  function AsNumber(n: Option<Num>): Num
  {
    if n.None? then NaN else n.value
  }

  predicate Present(s: Option<string>)
  {
    s.Some? && !IsBlank(s.value)
  }

  /** The check `validate` applies to one field; `false` means the field is reported. */
  predicate FieldOk(d: Draft, f: Field, env: Env)
  {
    match f
    case Title => Present(d.title)
    case Genre => Present(d.genre)
    case Year =>
      (match AsNumber(d.year)
       case NaN => false
       case Val(y) => y != 0.0 && 1900.0 <= y && y <= env.currentYear as real)
    case Rating =>
      (match AsNumber(d.rating)
       case NaN => false
       case Val(r) => 0.0 <= r <= 10.0)
    case Image => d.image.Some? && env.isUrl(d.image.value)
    case Description => Present(d.description)
  }

  predicate Valid(d: Draft, env: Env)
  {
    forall f :: FieldOk(d, f, env)
  }

  function YearMessage(currentYear: int): string
  {
    "Year must be 1900\U{2013}" + IntToString(currentYear)
  }

  const TitleRequired := "Title is required"
  const GenreRequired := "Genre is required"
  const RatingRange := "Rating must be 0\U{2013}10"
  const ImageInvalid := "Image URL is invalid"
  const DescriptionRequired := "Description is required"

  /** The human-readable message stored under each key. */
  function Message(f: Field, env: Env): string
  {
    match f
    case Title => TitleRequired
    case Genre => GenreRequired
    case Year => YearMessage(env.currentYear)
    case Rating => RatingRange
    case Image => ImageInvalid
    case Description => DescriptionRequired
  }

  /** Every failing field with its message, all at once: what `validate` must return. */
  function ErrorMap(d: Draft, env: Env): (errors: map<Field, string>)
    ensures forall f :: f in errors <==> !FieldOk(d, f, env)
    ensures forall f :: f in errors ==> errors[f] == Message(f, env)
  {
    map f | f in AllFields && !FieldOk(d, f, env) :: Message(f, env)
  }

  lemma {:induction false} NoErrorsIffValid(d: Draft, env: Env)
    ensures ErrorMap(d, env) == map[] <==> Valid(d, env)
  {
    if ErrorMap(d, env) == map[] {
      forall f ensures FieldOk(d, f, env) {
        assert f !in ErrorMap(d, env);
      }
    } else {
      var f :| f in ErrorMap(d, env);
      assert !FieldOk(d, f, env);
    }
  }

  /** The position of each check in `validate`. */
  function Rank(f: Field): nat
  {
    match f
    case Title => 0
    case Genre => 1
    case Year => 2
    case Rating => 3
    case Image => 4
    case Description => 5
  }

  /** The field `validate` checks at step `i`. */
  function FieldAt(i: nat): (f: Field)
    requires i < 6
    ensures Rank(f) == i
  {
    if i == 0 then Title else if i == 1 then Genre else if i == 2 then Year
    else if i == 3 then Rating else if i == 4 then Image else Description
  }

  /** The error map after the first `n` checks of `validate`. */
  function Checked(d: Draft, env: Env, n: nat): map<Field, string>
    requires n <= 6
  {
    if n == 0 then map[]
    else
      var g := FieldAt(n - 1);
      var e := Checked(d, env, n - 1);
      if FieldOk(d, g, env) then e else e[g := Message(g, env)]
  }

  /** After `n` checks, exactly the failing fields among the first `n` are reported, each with its message. */
  lemma {:induction false} CheckedSoFar(d: Draft, env: Env, n: nat)
    requires n <= 6
    ensures forall f :: f in Checked(d, env, n) <==> Rank(f) < n && !FieldOk(d, f, env)
    ensures forall f :: f in Checked(d, env, n) ==> Checked(d, env, n)[f] == Message(f, env)
  {
    if n > 0 {
      CheckedSoFar(d, env, n - 1);
    }
  }

  /** After all six checks, the report is exactly the error map. */
  lemma CheckedAll(d: Draft, env: Env, n: nat)
    requires n == 6
    ensures forall f :: f in Checked(d, env, n) <==> !FieldOk(d, f, env)
    ensures forall f :: f in Checked(d, env, n) ==> Checked(d, env, n)[f] == Message(f, env)
  {
    CheckedSoFar(d, env, n);
    forall f ensures Rank(f) < 6 {
    }
  }

  /** The two properties of `ErrorMap` pin it down. */
  lemma ErrorMapDetermined(e: map<Field, string>, d: Draft, env: Env)
    requires forall f :: f in e <==> !FieldOk(d, f, env)
    requires forall f :: f in e ==> e[f] == Message(f, env)
    ensures e == ErrorMap(d, env)
  {
    assert e.Keys == ErrorMap(d, env).Keys;
  }

  /** A candidate with exactly two bad fields gets an error map with exactly those two keys. */
  lemma {:induction false} TwoBadFieldsTwoErrors(d: Draft, env: Env, f1: Field, f2: Field)
    requires f1 != f2 && !FieldOk(d, f1, env) && !FieldOk(d, f2, env)
    requires forall f :: f != f1 && f != f2 ==> FieldOk(d, f, env)
    ensures ErrorMap(d, env).Keys == {f1, f2}
  {
    var e := ErrorMap(d, env);
    forall f ensures f in e.Keys <==> f in {f1, f2} {
      if f != f1 && f != f2 {
        assert FieldOk(d, f, env);
      }
    }
  }

  /** Year 1900 and the current year are accepted; the years just outside are not. */
  lemma YearBounds(d: Draft, env: Env)
    requires env.currentYear >= 1900
    ensures FieldOk(d.(year := Some(Val(1900.0))), Year, env)
    ensures FieldOk(d.(year := Some(Val(env.currentYear as real))), Year, env)
    ensures !FieldOk(d.(year := Some(Val(1899.0))), Year, env)
    ensures !FieldOk(d.(year := Some(Val(env.currentYear as real + 1.0))), Year, env)
    ensures !FieldOk(d.(year := Some(Val(0.0))), Year, env) && !FieldOk(d.(year := None), Year, env)
  {
  }

  /**
   * `validate(movie)`: starts from an empty map and adds one entry per failing check, in the
   * order title, genre, year, rating, image, description.
   */
  method Validate(d: Draft, env: Env) returns (errors: map<Field, string>)
    ensures forall f :: f in errors <==> !FieldOk(d, f, env)
    ensures forall f :: f in errors ==> errors[f] == Message(f, env)
    ensures errors == ErrorMap(d, env)
  {
    errors := map[];
    ghost var n := 0;
    if d.title.None? || IsBlank(d.title.value) {
      errors := errors[Title := TitleRequired];
    }
    n := n + 1;
    assert errors == Checked(d, env, n);
    if d.genre.None? || IsBlank(d.genre.value) {
      errors := errors[Genre := GenreRequired];
    }
    n := n + 1;
    assert errors == Checked(d, env, n);
    var year := AsNumber(d.year);
    if year.NaN? || year.x == 0.0 || year.x < 1900.0 || year.x > env.currentYear as real {
      errors := errors[Year := YearMessage(env.currentYear)];
    }
    n := n + 1;
    assert errors == Checked(d, env, n);
    var rating := AsNumber(d.rating);
    if rating.NaN? || rating.x < 0.0 || rating.x > 10.0 {
      errors := errors[Rating := RatingRange];
    }
    n := n + 1;
    assert errors == Checked(d, env, n);
    if d.image.None? || !env.isUrl(d.image.value) {
      errors := errors[Image := ImageInvalid];
    }
    n := n + 1;
    assert errors == Checked(d, env, n);
    if d.description.None? || IsBlank(d.description.value) {
      errors := errors[Description := DescriptionRequired];
    }
    n := n + 1;
    assert errors == Checked(d, env, n);
    CheckedAll(d, env, n);
    ErrorMapDetermined(errors, d, env);
  }

  /** Every field present, year and rating numbers. */
  predicate Complete(d: Draft)
  {
    && d.title.Some? && d.genre.Some? && d.image.Some? && d.description.Some?
    && d.year.Some? && d.year.value.Val? && d.rating.Some? && d.rating.value.Val?
  }

  lemma ValidIsComplete(d: Draft, env: Env)
    requires Valid(d, env)
    ensures Complete(d)
  {
    assert FieldOk(d, Title, env) && FieldOk(d, Genre, env) && FieldOk(d, Year, env);
    assert FieldOk(d, Rating, env) && FieldOk(d, Image, env) && FieldOk(d, Description, env);
  }

  /** `{ ...movie, id }`: the stored record of a complete candidate under the given id. */
  function Build(d: Draft, id: int): (m: Movie)
    requires Complete(d)
    ensures m.id == id && m.title == d.title.value && m.genre == d.genre.value
    ensures Val(m.year) == d.year.value && Val(m.rating) == d.rating.value
    ensures m.image == d.image.value && m.description == d.description.value
  {
    Movie(id, d.title.value, d.genre.value, d.year.value.x, d.rating.value.x,
          d.image.value, d.description.value)
  }

  /** A stored movie seen as a candidate: every field present. */
  function AsDraft(m: Movie): Draft
  {
    Draft(Some(m.title), Some(m.genre), Some(Val(m.year)), Some(Val(m.rating)),
          Some(m.image), Some(m.description))
  }

  function Or<T>(u: Option<T>, base: T): Option<T>
  {
    if u.Some? then u else Some(base)
  }

  /** `{ ...findById(id), ...updates }`: an absent base record contributes nothing. */
  function Merge(base: Option<Movie>, u: Draft): (r: Draft)
  {
    match base
    case None => u
    case Some(m) =>
      Draft(Or(u.title, m.title), Or(u.genre, m.genre), Or(u.year, Val(m.year)),
            Or(u.rating, Val(m.rating)), Or(u.image, m.image), Or(u.description, m.description))
  }

  /** The updates carry no NaN year or rating. */
  predicate NumbersSettled(u: Draft)
  {
    (u.year.Some? ==> u.year.value.Val?) && (u.rating.Some? ==> u.rating.value.Val?)
  }

  lemma ValidMergeSettles(base: Option<Movie>, u: Draft, env: Env)
    requires Valid(Merge(base, u), env)
    ensures NumbersSettled(u)
  {
    assert FieldOk(Merge(base, u), Year, env) && FieldOk(Merge(base, u), Rating, env);
  }

  /** `{ ...m, ...updates, id: m.id }`. */
  function Overlay(m: Movie, u: Draft): (r: Movie)
    requires NumbersSettled(u)
    ensures r.id == m.id
  {
    Movie(
      m.id,
      if u.title.Some? then u.title.value else m.title,
      if u.genre.Some? then u.genre.value else m.genre,
      if u.year.Some? then u.year.value.x else m.year,
      if u.rating.Some? then u.rating.value.x else m.rating,
      if u.image.Some? then u.image.value else m.image,
      if u.description.Some? then u.description.value else m.description)
  }

  /** What is stored for a matching movie is exactly the merged record that was validated. */
  lemma {:induction false} OverlayIsValidatedMerge(m: Movie, u: Draft, env: Env)
    requires Valid(Merge(Some(m), u), env)
    ensures NumbersSettled(u) && Complete(Merge(Some(m), u))
    ensures Overlay(m, u) == Build(Merge(Some(m), u), m.id)
  {
    ValidMergeSettles(Some(m), u, env);
    ValidIsComplete(Merge(Some(m), u), env);
  }

  /** `movies.map(m => m.id === id ? { ...m, ...updates, id: m.id } : m)`. */
  function Edited(movies: seq<Movie>, id: int, u: Draft): (r: seq<Movie>)
    requires NumbersSettled(u)
    ensures |r| == |movies|
    ensures forall i :: 0 <= i < |r| ==> r[i].id == movies[i].id
    ensures forall i :: 0 <= i < |r| && movies[i].id != id ==> r[i] == movies[i]
    ensures forall i :: 0 <= i < |r| && movies[i].id == id ==> r[i] == Overlay(movies[i], u)
  {
    seq(|movies|, i requires 0 <= i < |movies| =>
      if movies[i].id == id then Overlay(movies[i], u) else movies[i])
  }

  lemma EditAbsentIsNoOp(movies: seq<Movie>, id: int, u: Draft)
    requires NumbersSettled(u) && Find(movies, id).None?
    ensures Edited(movies, id, u) == movies
  {
  }

  /** `movies.filter(m => m.id !== id)`. */
  function Removed(movies: seq<Movie>, id: int): (r: seq<Movie>)
    ensures forall i :: 0 <= i < |r| ==> r[i].id != id
    ensures Find(movies, id).None? ==> r == movies
  {
    Seqs.Filter(movies, (m: Movie) => m.id != id)
  }

  /** Exactly the movies with another id survive, in their original order. */
  lemma RemovedKeepsOthersInOrder(movies: seq<Movie>, id: int, m: Movie)
    ensures m in Removed(movies, id) <==> m in movies && m.id != id
    ensures Seqs.IsSubsequence(Removed(movies, id), movies)
  {
    Seqs.FilterMembership(movies, (m: Movie) => m.id != id, m);
    Seqs.FilterIsSubsequence(movies, (m: Movie) => m.id != id);
  }

  /** No two catalog entries share an id. */
  predicate UniqueIds(movies: seq<Movie>)
  {
    forall i, j :: 0 <= i < j < |movies| ==> movies[i].id != movies[j].id
  }

  /** Ids increase along the catalog, which allocation by `max + 1` keeps true. */
  predicate IdsAscending(movies: seq<Movie>)
  {
    forall i, j :: 0 <= i < j < |movies| ==> movies[i].id < movies[j].id
  }

  lemma AppendKeepsIdsAscending(movies: seq<Movie>, d: Draft)
    requires Complete(d) && IdsAscending(movies)
    ensures IdsAscending(movies + [Build(d, NextId(movies))])
    ensures UniqueIds(movies + [Build(d, NextId(movies))])
  {
  }

  lemma {:induction false} EditKeepsIds(movies: seq<Movie>, id: int, u: Draft)
    requires NumbersSettled(u)
    ensures IdsAscending(movies) ==> IdsAscending(Edited(movies, id, u))
    ensures UniqueIds(movies) ==> UniqueIds(Edited(movies, id, u))
  {
  }

  lemma RemoveKeepsIdsAscending(movies: seq<Movie>, id: int)
    requires IdsAscending(movies)
    ensures IdsAscending(Removed(movies, id))
  {
    var key := (m: Movie) => m.id;
    assert Seqs.Ascending(movies, key);
    Seqs.FilterKeepsAscending(movies, (m: Movie) => m.id != id, key);
  }

  /** The catalog of the movie screens: its whole state is the sequence of movies. */
  class Catalog {
    var movies: seq<Movie>

    /**
     * The id invariant: ids increase along the catalog, so no two movies share one. Stored data
     * is not checked on load, so it holds from the start only when the loaded list has it; every
     * operation below keeps it.
     */
    ghost predicate Consistent()
      reads this
      ensures Consistent() ==> UniqueIds(movies)
    {
      IdsAscending(movies)
    }

    /** The stored catalog under `movies:data`, or `seed` when it is absent or unreadable. */
    constructor (raw: Option<string>, parse: string -> Option<seq<Movie>>, seed: seq<Movie>)
      ensures movies == Utils.LoadFromStorage(raw, parse, seed)
      ensures IdsAscending(Utils.LoadFromStorage(raw, parse, seed)) ==> Consistent()
    {
      movies := Utils.LoadFromStorage(raw, parse, seed);
    }

    /** `findById(id)`: the first movie with that id, or null. */
    function FindById(id: int): (r: Option<Movie>)
      reads this
      ensures r.Some? ==> r.value in movies && r.value.id == id
      ensures r.None? ==> forall i :: 0 <= i < |movies| ==> movies[i].id != id
    {
      Find(movies, id)
    }

    /**
     * `addMovie(movie)`: a rejected candidate changes nothing; an accepted one is appended under
     * the next id, any id it carried being ignored.
     */
    method AddMovie(d: Draft, env: Env) returns (res: Outcome)
      modifies this
      ensures res.Rejected? <==> !Valid(d, env)
      ensures res.Rejected? ==> res.errors == ErrorMap(d, env) && movies == old(movies)
      ensures res.Saved? ==> Complete(d) && movies == old(movies) + [Build(d, NextId(old(movies)))]
      ensures old(Consistent()) ==> Consistent()
    {
      var errors := Validate(d, env);
      NoErrorsIffValid(d, env);
      if errors != map[] {
        return Rejected(errors);
      }
      ValidIsComplete(d, env);
      if IdsAscending(movies) {
        AppendKeepsIdsAscending(movies, d);
      }
      movies := movies + [Build(d, NextId(movies))];
      return Saved;
    }

    /**
     * `editMovie(id, updates)`: validates the current record merged with the updates (the updates
     * alone when no movie has that id); on success every movie with that id takes the updates and
     * keeps its id.
     */
    method EditMovie(id: int, u: Draft, env: Env) returns (res: Outcome)
      modifies this
      ensures res.Rejected? <==> !Valid(Merge(Find(old(movies), id), u), env)
      ensures res.Rejected? ==>
                res.errors == ErrorMap(Merge(Find(old(movies), id), u), env) && movies == old(movies)
      ensures res.Saved? ==> NumbersSettled(u) && movies == Edited(old(movies), id, u)
      ensures old(Consistent()) ==> Consistent()
    {
      var merged := Merge(Find(movies, id), u);
      var errors := Validate(merged, env);
      NoErrorsIffValid(merged, env);
      if errors != map[] {
        return Rejected(errors);
      }
      ValidMergeSettles(Find(movies, id), u, env);
      EditKeepsIds(movies, id, u);
      movies := Edited(movies, id, u);
      return Saved;
    }

    /** `deleteMovie(id)`: drops every movie with that id; a no-op when there is none. */
    method DeleteMovie(id: int)
      modifies this
      ensures movies == Removed(old(movies), id)
      ensures old(Consistent()) ==> Consistent()
    {
      if IdsAscending(movies) {
        RemoveKeepsIdsAscending(movies, id);
      }
      movies := Removed(movies, id);
    }

    /** The genre choices offered over this catalog. */
    function Genres(): (r: seq<string>)
      reads this
      ensures |r| >= 1 && r[0] == "All"
    {
      GenreList(movies)
    }
  }
}
