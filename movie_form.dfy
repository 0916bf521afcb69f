/**
 * The six-field movie form both the admin panel and the header keep as state: every field is the
 * text of its input, and the year and rating become numbers only in the payload handed to the
 * catalog.
 */
module MovieForm {
  import opened Wrappers
  import opened Movies
  import MovieStore

  /** `{ title, genre, year, rating, image, description }`, each the text of its input. */
  datatype Form = Form(
    title: string,
    genre: string,
    year: string,
    rating: string,
    image: string,
    description: string)

  /** The form with every input empty. */
  const Blank := Form("", "", "", "", "", "")

  /** The text of the input named `key`. */
  function Get(form: Form, key: MovieStore.Field): string
  {
    match key
    case Title => form.title
    case Genre => form.genre
    case Year => form.year
    case Rating => form.rating
    case Image => form.image
    case Description => form.description
  }

  /** `{ ...prev, [key]: value }`: one input edited. */
  function Set(form: Form, key: MovieStore.Field, value: string): (r: Form)
    ensures Get(r, key) == value
    ensures forall k :: k != key ==> Get(r, k) == Get(form, k)
  {
    match key
    case Title => form.(title := value)
    case Genre => form.(genre := value)
    case Year => form.(year := value)
    case Rating => form.(rating := value)
    case Image => form.(image := value)
    case Description => form.(description := value)
  }

  /** A form is determined by the texts of its six inputs. */
  lemma {:induction false} SameInputsSameForm(a: Form, b: Form)
    requires forall k :: Get(a, k) == Get(b, k)
    ensures a == b
  {
    assert Get(a, MovieStore.Title) == Get(b, MovieStore.Title);
    assert Get(a, MovieStore.Genre) == Get(b, MovieStore.Genre);
    assert Get(a, MovieStore.Year) == Get(b, MovieStore.Year);
    assert Get(a, MovieStore.Rating) == Get(b, MovieStore.Rating);
    assert Get(a, MovieStore.Image) == Get(b, MovieStore.Image);
    assert Get(a, MovieStore.Description) == Get(b, MovieStore.Description);
  }

  /** Typing the text an input already holds leaves the form as it is. */
  lemma SetCurrentIsNoOp(form: Form, key: MovieStore.Field)
    ensures Set(form, key, Get(form, key)) == form
  {
    SameInputsSameForm(Set(form, key, Get(form, key)), form);
  }

  /** Edits of two different inputs do not interfere. */
  lemma SetsOfDifferentInputsCommute(form: Form, a: MovieStore.Field, x: string, b: MovieStore.Field, y: string)
    requires a != b
    ensures Set(Set(form, a, x), b, y) == Set(Set(form, b, y), a, x)
  {
    SameInputsSameForm(Set(Set(form, a, x), b, y), Set(Set(form, b, y), a, x));
  }

  /**
   * `{ ...form, year: Number(form.year), rating: Number(form.rating) }`: every field present, the
   * year and rating converted by `toNumber`, which stands for `Number`. Validating the form itself
   * reads the same numbers, because `validate` applies `Number` to them and `Number` of a number
   * is that number.
   */
  function Payload(form: Form, toNumber: string -> MovieStore.Num): (d: MovieStore.Draft)
    ensures d.title.Some? && d.genre.Some? && d.year.Some? && d.rating.Some? && d.image.Some? && d.description.Some?
    ensures d.year.value == toNumber(form.year) && d.rating.value == toNumber(form.rating)
    ensures d.title.value == form.title && d.genre.value == form.genre
    ensures d.image.value == form.image && d.description.value == form.description
  {
    MovieStore.Draft(Some(form.title), Some(form.genre), Some(toNumber(form.year)),
                     Some(toNumber(form.rating)), Some(form.image), Some(form.description))
  }

  /** A payload has every field, so merging it over any stored record gives the payload itself. */
  lemma PayloadOverridesAll(base: Option<Movie>, form: Form, toNumber: string -> MovieStore.Num)
    ensures MovieStore.Merge(base, Payload(form, toNumber)) == Payload(form, toNumber)
  {
  }

  /**
   * The form of `startEdit(m)`: the movie's texts, with the year and rating rendered by `toText`,
   * which stands for `String`.
   */
  function FromMovie(m: Movie, toText: real -> string): (form: Form)
    ensures form.title == m.title && form.genre == m.genre && form.image == m.image
    ensures form.description == m.description
    ensures form.year == toText(m.year) && form.rating == toText(m.rating)
  {
    Form(m.title, m.genre, toText(m.year), toText(m.rating), m.image, m.description)
  }

  /** When `Number(String(x))` gives `x` back, the payload of an untouched edit form is the movie itself. */
  lemma {:induction false} EditFormRoundTrip(m: Movie, toText: real -> string, toNumber: string -> MovieStore.Num)
    requires toNumber(toText(m.year)) == MovieStore.Val(m.year)
    requires toNumber(toText(m.rating)) == MovieStore.Val(m.rating)
    ensures Payload(FromMovie(m, toText), toNumber) == MovieStore.AsDraft(m)
  {
    var form := FromMovie(m, toText);
    assert Payload(form, toNumber).year == Some(toNumber(toText(m.year)));
    assert Payload(form, toNumber).rating == Some(toNumber(toText(m.rating)));
  }
}
