/**
 * The page header: the light/dark theme switch, remembered in storage, and, for an admin, the
 * quick add-movie form, which submits only when every input has text and then empties itself.
 */
module Header {
  import opened Wrappers
  import MovieStore
  import MovieForm

  /** `localStorage.getItem('theme') || 'dark'`: a missing or empty stored theme means dark. */
  function InitialTheme(stored: Option<string>): (t: string)
    ensures stored.None? || stored.value == "" ==> t == "dark"
    ensures stored.Some? && stored.value != "" ==> t == stored.value
  {
    if stored.None? || stored.value == "" then "dark" else stored.value
  }

  /** `t === 'dark' ? 'light' : 'dark'`. */
  function Toggled(t: string): (r: string)
    ensures r == "light" || r == "dark"
    ensures t == "dark" <==> r == "light"
  {
    if t == "dark" then "light" else "dark"
  }

  /** From either theme the switch returns to it after two presses; any other stored text becomes dark, then light. */
  lemma ToggleTwice(t: string)
    ensures t == "dark" || t == "light" ==> Toggled(Toggled(t)) == t
    ensures t != "dark" && t != "light" ==> Toggled(t) == "dark" && Toggled(Toggled(t)) == "light"
  {
  }

  /** `canSubmitMovie`: every one of the six inputs has some text. */
  predicate CanSubmit(form: MovieForm.Form)
  {
    form.title != "" && form.genre != "" && form.year != "" && form.rating != "" &&
    form.image != "" && form.description != ""
  }

  /** The blank form never submits, and a form whose every input has text does. */
  lemma CanSubmitExactlyWhenFilled(form: MovieForm.Form)
    ensures !CanSubmit(MovieForm.Blank)
    ensures CanSubmit(form) <==> forall k :: MovieForm.Get(form, k) != ""
  {
    if !CanSubmit(form) {
      var k: MovieStore.Field :|
        k in {MovieStore.Title, MovieStore.Genre, MovieStore.Year, MovieStore.Rating,
              MovieStore.Image, MovieStore.Description} && MovieForm.Get(form, k) == "";
    }
  }

  /** The header's state cells. */
  class HeaderState {
    var theme: string
    var newMovie: MovieForm.Form

    /** The theme read from storage (`stored`), an empty form. */
    constructor (stored: Option<string>)
      ensures theme == InitialTheme(stored) && newMovie == MovieForm.Blank
    {
      theme := InitialTheme(stored);
      newMovie := MovieForm.Blank;
    }

    /** Whether the document carries the `dark` class. */
    predicate IsDark()
      reads this
    {
      theme == "dark"
    }

    /** The theme button. */
    method ToggleTheme()
      modifies this
      ensures theme == Toggled(old(theme)) && newMovie == old(newMovie)
      ensures IsDark() <==> old(theme) != "dark"
    {
      theme := if theme == "dark" then "light" else "dark";
    }

    /** An input of the form edited. */
    method OnChange(key: MovieStore.Field, value: string)
      modifies this
      ensures newMovie == MovieForm.Set(old(newMovie), key, value) && theme == old(theme)
    {
      newMovie := MovieForm.Set(newMovie, key, value);
    }

    /**
     * `submitNewMovie`: an incomplete form is ignored; a complete one is handed on as the payload
     * (year and rating through `toNumber`, which stands for `Number`) and the form is emptied.
     */
    method SubmitNewMovie(toNumber: string -> MovieStore.Num) returns (payload: Option<MovieStore.Draft>)
      modifies this
      ensures !CanSubmit(old(newMovie)) ==> payload.None? && newMovie == old(newMovie)
      ensures CanSubmit(old(newMovie)) ==>
                payload == Some(MovieForm.Payload(old(newMovie), toNumber)) && newMovie == MovieForm.Blank
      ensures theme == old(theme)
    {
      if !CanSubmit(newMovie) {
        return None;
      }
      payload := Some(MovieForm.Payload(newMovie, toNumber));
      newMovie := MovieForm.Blank;
    }
  }
}
