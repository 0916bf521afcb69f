/**
 * The admin panel: the catalog listed by descending id, and one form used both to add a movie
 * and to edit an existing one. Saving validates the form first and shows its errors; only a
 * clean form reaches the catalog, and a successful save closes the form.
 */
module Admin {
  import opened Wrappers
  import opened Movies
  import Seqs
  import MovieStore
  import MovieForm

  /** `[...movies].sort((a, b) => b.id - a.id)`: the catalog by descending id, ties in catalog order. */
  function SortedById(movies: seq<Movie>): (r: seq<Movie>)
    ensures multiset(r) == multiset(movies)
    ensures forall i, j :: 0 <= i < j < |r| ==> r[i].id >= r[j].id
  {
    var r := Seqs.SortDesc(movies, (m: Movie) => m.id as real);
    assert forall i, j :: 0 <= i < j < |r| ==> r[i].id as real >= r[j].id as real;
    r
  }

  /** With distinct ids the listing is strictly decreasing by id and lists each movie once. */
  lemma {:induction false} SortedByIdStrict(movies: seq<Movie>)
    requires MovieStore.UniqueIds(movies)
    ensures var r := SortedById(movies);
            |r| == |movies| && forall i, j :: 0 <= i < j < |r| ==> r[i].id > r[j].id
  {
    var r := SortedById(movies);
    assert |r| == |multiset(r)| == |multiset(movies)| == |movies|;
    forall i, j | 0 <= i < j < |r| ensures r[i].id > r[j].id {
      assert r[i] in multiset(movies) && r[j] in multiset(movies);
      var a :| 0 <= a < |movies| && movies[a] == r[i];
      var b :| 0 <= b < |movies| && movies[b] == r[j];
      if r[i].id == r[j].id {
        assert a == b;
        MultisetCountOne(movies, a);
        assert multiset(r)[r[i]] >= 2 by {
          PairCounts(r, i, j);
        }
        assert false;
      }
    }
  }

  /** In a sequence with distinct ids, each element occurs exactly once. */
  lemma {:induction false} MultisetCountOne(movies: seq<Movie>, a: nat)
    requires MovieStore.UniqueIds(movies) && a < |movies|
    ensures multiset(movies)[movies[a]] == 1
    decreases |movies|
  {
    var last := |movies| - 1;
    assert movies == movies[..last] + [movies[last]];
    assert MovieStore.UniqueIds(movies[..last]);
    if a < last {
      MultisetCountOne(movies[..last], a);
      assert movies[last] != movies[a];
    } else {
      assert movies[a] !in movies[..last];
    }
  }

  /** Two positions holding equal elements make that element occur at least twice. */
  lemma {:induction false} PairCounts<T>(s: seq<T>, i: nat, j: nat)
    requires i < j < |s| && s[i] == s[j]
    ensures multiset(s)[s[i]] >= 2
  {
    assert s == s[..j] + [s[j]] + s[j + 1..];
    assert s[..j] == s[..i] + [s[i]] + s[i + 1..j];
  }

  /** What the form is open for: nothing (`null`), a new movie (`'new'`), or the movie with this id. */
  datatype Editing = Idle | Adding | EditingId(id: int)

  /** The panel's state cells, over the catalog of the movie store. */
  class AdminPanel {
    var editing: Editing
    var form: MovieForm.Form
    var errors: map<MovieStore.Field, string>
    const catalog: MovieStore.Catalog

    constructor (catalog: MovieStore.Catalog)
      ensures this.catalog == catalog
      ensures editing == Idle && form == MovieForm.Blank && errors == map[]
    {
      editing := Idle;
      form := MovieForm.Blank;
      errors := map[];
      this.catalog := catalog;
    }

    /**
     * The `sorted` memo: the catalog highest id first. While the catalog keeps its id invariant,
     * every movie is listed once and the ids strictly decrease down the table.
     */
    function Listing(): (r: seq<Movie>)
      reads this, catalog
      ensures r == SortedById(catalog.movies)
      ensures multiset(r) == multiset(catalog.movies)
      ensures catalog.Consistent() ==>
                |r| == |catalog.movies| && forall i, j :: 0 <= i < j < |r| ==> r[i].id > r[j].id
    {
      var r := SortedById(catalog.movies);
      assert catalog.Consistent() ==>
               |r| == |catalog.movies| && forall i, j :: 0 <= i < j < |r| ==> r[i].id > r[j].id by {
        if catalog.Consistent() {
          SortedByIdStrict(catalog.movies);
        }
      }
      r
    }

    /** `startAdd`: an empty form for a new movie, no errors. */
    method StartAdd()
      modifies this
      ensures editing == Adding && form == MovieForm.Blank && errors == map[]
    {
      editing := Adding;
      form := MovieForm.Blank;
      errors := map[];
    }

    /** `startEdit(m)`: the form filled from `m`, year and rating rendered by `toText` (`String`). */
    method StartEdit(m: Movie, toText: real -> string)
      modifies this
      ensures editing == EditingId(m.id) && form == MovieForm.FromMovie(m, toText) && errors == map[]
    {
      editing := EditingId(m.id);
      form := MovieForm.FromMovie(m, toText);
      errors := map[];
    }

    /** `cancel`: the form is closed and the errors cleared; the texts stay as they were. */
    method Cancel()
      modifies this
      ensures editing == Idle && errors == map[] && form == old(form)
    {
      editing := Idle;
      errors := map[];
    }

    /** `onChange(key)`: one input edited. */
    method OnChange(key: MovieStore.Field, value: string)
      modifies this
      ensures form == MovieForm.Set(old(form), key, value)
      ensures editing == old(editing) && errors == old(errors)
    {
      form := MovieForm.Set(form, key, value);
    }

    /**
     * `onSave`, reachable only while the form is open: the form's errors are shown; a clean form
     * is added (under the next id) or applied to the movie being edited, and the form closes.
     * `toNumber` stands for `Number`, `env` for the clock and the URL parser.
     */
    method OnSave(env: MovieStore.Env, toNumber: string -> MovieStore.Num)
      requires editing != Idle
      modifies this, catalog
      ensures var d := MovieForm.Payload(old(form), toNumber);
              && (!MovieStore.Valid(d, env) ==>
                    errors == MovieStore.ErrorMap(d, env) && errors != map[] &&
                    editing == old(editing) && catalog.movies == old(catalog.movies))
              && (MovieStore.Valid(d, env) ==> errors == map[] && editing == Idle)
              && (MovieStore.Valid(d, env) && old(editing).Adding? ==>
                    MovieStore.Complete(d) &&
                    catalog.movies == old(catalog.movies) + [MovieStore.Build(d, NextId(old(catalog.movies)))])
              && (MovieStore.Valid(d, env) && old(editing).EditingId? ==>
                    MovieStore.NumbersSettled(d) &&
                    catalog.movies == MovieStore.Edited(old(catalog.movies), old(editing).id, d))
      ensures form == old(form)
      ensures old(catalog.Consistent()) ==> catalog.Consistent()
    {
      var d := MovieForm.Payload(form, toNumber);
      var v := MovieStore.Validate(d, env);
      MovieStore.ErrorMapDetermined(v, d, env);
      MovieStore.NoErrorsIffValid(d, env);
      errors := v;
      if |v.Keys| > 0 {
        return;
      }
      if editing == Adding {
        var res := catalog.AddMovie(d, env);
        if res.Saved? {
          Cancel();
        }
      } else {
        MovieForm.PayloadOverridesAll(Find(catalog.movies, editing.id), form, toNumber);
        var res := catalog.EditMovie(editing.id, d, env);
        if res.Saved? {
          Cancel();
        }
      }
    }

    /** `onDelete(id)`: the movie goes only when the confirmation dialog is accepted. */
    method OnDelete(id: int, confirmed: bool)
      modifies catalog
      ensures confirmed ==> catalog.movies == MovieStore.Removed(old(catalog.movies), id)
      ensures !confirmed ==> catalog.movies == old(catalog.movies)
      ensures old(catalog.Consistent()) ==> catalog.Consistent()
    {
      if confirmed {
        catalog.DeleteMovie(id);
      }
    }
  }

  /**
   * Opening a stored movie for editing and saving it untouched leaves the catalog as it was,
   * provided ids are distinct and `Number(String(x))` gives back the year and the rating.
   */
  lemma {:induction false} SaveUntouchedEditIsNoOp(movies: seq<Movie>, m: Movie, toText: real -> string,
                                                   toNumber: string -> MovieStore.Num)
    requires MovieStore.UniqueIds(movies) && m in movies
    requires toNumber(toText(m.year)) == MovieStore.Val(m.year)
    requires toNumber(toText(m.rating)) == MovieStore.Val(m.rating)
    ensures MovieStore.NumbersSettled(MovieForm.Payload(MovieForm.FromMovie(m, toText), toNumber))
    ensures MovieStore.Edited(movies, m.id, MovieForm.Payload(MovieForm.FromMovie(m, toText), toNumber)) == movies
  {
    var d := MovieForm.Payload(MovieForm.FromMovie(m, toText), toNumber);
    MovieForm.EditFormRoundTrip(m, toText, toNumber);
    var r := MovieStore.Edited(movies, m.id, d);
    forall i | 0 <= i < |movies| ensures r[i] == movies[i] {
      if movies[i].id == m.id {
        var k :| 0 <= k < |movies| && movies[k] == m;
        assert movies[i] == m by {
          if i != k {
            assert false;
          }
        }
      }
    }
  }
}
