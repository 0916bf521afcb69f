# CineMatch, modelled in Dafny

CineMatch is a single-page movie recommender. It keeps a catalog of movies and the user's 1–5 star
ratings in browser storage. Users can filter the catalog by genre and by title. The app recommends
up to six unrated movies, favouring genres the user has rated well. Each movie has a details page
and a poster with fallback images. Admins can add, edit and delete movies and create an account.

This project models that core in Dafny:

- The recommendation algorithm (`Recommendation`). Its loops are proved against a functional
  specification. Lemmas state what the result is: at most six unrated catalog movies, sorted by
  score, none outscored by a movie left out. Averages are genre means within the rating bounds.
- The catalog store (`MovieStore`): validation error map, add, edit, delete, id invariants.
- The ratings store (`RatingStore`).
- The home page state (`App`): migration of Unsplash posters, filtering, and the effect that
  recomputes recommendations.
- The components:
  - details page (`Details`);
  - admin table and form (`Admin`, `MovieForm`);
  - header (`Header`);
  - movie card (`MovieCard`, `StarRating`);
  - recommendations panel (`RecommendationsView`);
  - sign-up form (`AdminSignup`).
- The shared helpers of `src/lib/utils.js` (`Utils`).
- Supporting modules: `Strings` (the JavaScript string operations used), `Seqs` (filter, slice,
  stable descending sort), `Movies` (the movie record, lookup, next id, the genre list), `Wrappers`.

State that React keeps in hooks becomes a `class` with `modifies`/`reads` frames. The home page
(`App.Home`), `Catalog`, `Ratings`, `AdminPanel`, `HeaderState`, `CardImage`, `OneShotImage` and
`SignupForm` are classes. Pure helpers are functions with lemmas.

The environment is passed in as parameters:

- browser storage: the stored text and a JSON parser that may fail;
- `Math.random`: a `noise` sequence of jitter values, one per unrated movie;
- the clock: `Env.currentYear`;
- `new URL`: `Env.isUrl`;
- `Number(...)` and `String(...)` on form text: `toNumber` and `toText`;
- whether an image loads: `loads`;
- `window.confirm`: `confirmed`;
- the account service: `signup` and `resend`.

JavaScript numbers are modelled as `real`, and `Number(...)` may give `NaN` (`MovieStore.Num`).

## Model

| member | source | states |
|---|---|---|
| Strings.ReplaceFirst | src/components/MovieCard.jsx:63 | `replace` with a string pattern replaces only the first occurrence; a text without the pattern is returned unchanged |
| Strings.BeforeFirst | src/components/MovieCard.jsx:67 | `split('?')[0]` is the longest prefix without `?`, and the next character (if any) is `?` |
| Strings.Lower | src/App.jsx:60 | lower-casing keeps the length and maps every character on its own |
| Utils.LoadFromStorage | src/lib/utils.js:14-21 | a missing or empty stored value, or one that fails to parse, yields the fallback; otherwise the parsed value |
| Utils.LastPlaceholder | src/lib/utils.js:24-37 | the last placeholder is the inline SVG `data:image/svg+xml` URL |
| Utils.PreloadImageWithFallback | src/lib/utils.js:51-70 | a loading source is returned as is; otherwise the first fallback that loads; if none loads, the inline SVG |
| Utils.PlaceholdersAreImageUrls | src/lib/utils.js:72-80 | every placeholder image is recognised by `isImageUrl` |
| Utils.IsImageUrl | src/lib/utils.js:72-80 | an accepted URL is a non-empty string, and every non-empty `data:image/` URL is accepted (the host and extension tests are fixed by the lemmas below) |
| Utils.NonStringOrEmptyIsNotImage | src/lib/utils.js:73 | a missing or empty URL is never an image URL |
| Utils.UpperCaseExtensionIsImage | src/lib/utils.js:74 | the extension test ignores case: any URL ending in `.JPG` is an image URL |
| Movies.Find | src/hooks/useMovies.js:14 | `find` returns the first movie with the id, and none exactly when no movie has it |
| Movies.MaxId | src/hooks/useMovies.js:40 | `Math.max` of the ids is attained by some movie and bounds every id |
| Movies.NextId | src/hooks/useMovies.js:40 | the next id is 1 for an empty catalog, else max + 1; it exceeds every existing id |
| Movies.Distinct | src/hooks/useMovies.js:57 | `new Set` keeps exactly the same values, without duplicates, in first-occurrence order |
| Movies.GenreListShape | src/hooks/useMovies.js:57 | the genre list starts with "All", then lists every catalog genre once and nothing else |
| RatingStore.Rated | src/hooks/useMovieRatings.js:28-31 | rating a movie sets its stars, keeps every other rating, and adds only that key |
| RatingStore.RerateOverwrites | src/hooks/useMovieRatings.js:28-31 | rating a movie twice is the same as rating it only the second time |
| RatingStore.RateIdempotent | src/hooks/useMovieRatings.js:28-31 | repeating the same rating changes nothing |
| RatingStore.RatingsOfDifferentMoviesCommute | src/hooks/useMovieRatings.js:28-31 | ratings of two different movies commute |
| RatingStore.Ratings.constructor | src/hooks/useMovieRatings.js:5-17 | the ratings are the parsed stored map, or empty when nothing or something unparsable is stored |
| RatingStore.Ratings.RateMovie | src/hooks/useMovieRatings.js:27-36 | the new ratings are `Rated(old, id, stars)`; the key set grows by at most the id |
| Seqs.Filter | src/lib/recommendation.js:3 | `filter` keeps only elements passing the test, yields a sub-multiset of the input (exact counts are stated by `Seqs.FilterCounts`), and keeps everything when all pass |
| Seqs.FilterCounts | src/lib/recommendation.js:3 | `filter` keeps every occurrence of a passing element and no occurrence of a failing one, so the multiset is fixed |
| Seqs.FilterMembership | src/lib/recommendation.js:3 | an element is in the filtered list exactly when it is in the list and passes the test |
| Seqs.FilterIsSubsequence | src/lib/recommendation.js:3 | filtering keeps the original order |
| Seqs.Take | src/lib/recommendation.js:44 | `slice(0, n)` is the prefix of length min(n, length) |
| Seqs.SortDesc | src/lib/recommendation.js:43 | the sort by descending score is a permutation and is sorted in descending order |
| Seqs.TopOfSortedFromS | src/lib/recommendation.js:42-44 | the top n of the sort are sorted, drawn from the input, and form a sub-multiset of it |
| Seqs.TopOfSortedIsBest | src/lib/recommendation.js:42-44 | no element left out of the top n scores above any element kept |
| Recommendation.KeysAscending | src/lib/recommendation.js:2 | `Object.keys` of integer keys lists every key exactly once, in ascending order |
| Recommendation.Tally | src/lib/recommendation.js:10-22 | the per-genre sums and counts have the same genres and every count is at least one |
| Recommendation.VisitOnGenre | src/lib/recommendation.js:14-21 | one visited rating leaves other genres alone. For its own genre it restarts the tally when the sum is missing or 0, and otherwise adds to sum and count |
| Recommendation.TallyKeys | src/lib/recommendation.js:10-22 | a genre is tallied exactly when some rated catalog movie has it |
| Recommendation.TallyOfPositiveRatings | src/lib/recommendation.js:10-22 | with positive ratings, a genre's sum is the sum of its ratings and its count is their number |
| Recommendation.TallyIsFinalRun | src/lib/recommendation.js:15-20 | in general a genre's tally covers a final run of its ratings (the run after the last time its sum was 0) |
| Recommendation.TallyWithinBounds | src/lib/recommendation.js:10-22 | ratings within [lo, hi] give a sum within count·lo and count·hi |
| Recommendation.Averages | src/lib/recommendation.js:24-27 | an average is computed for exactly the tallied genres |
| Recommendation.GenreAverageKeys | src/lib/recommendation.js:10-27 | a genre has an average exactly when some rated catalog movie has that genre |
| Recommendation.GenreAverageIsMean | src/lib/recommendation.js:7-27 | with positive ratings, a genre's average is the mean of its ratings |
| Recommendation.GenreAverageBetween | src/lib/recommendation.js:7-27 | a genre average lies within the bounds of that genre's ratings |
| Recommendation.ZeroRatingRestartsGenre | src/lib/recommendation.js:15-20 | ratings 0 then 4 on one genre give an average of 4, not the mean 2: a 0 sum restarts the tally |
| Recommendation.ScoreBounds | src/lib/recommendation.js:29-40 | the score is rating/10 plus jitter, plus up to 0.5 of genre boost, and at least 0.1 for a genre averaging 1 or more |
| Recommendation.Unrated | src/lib/recommendation.js:3 | no unrated candidate has a rating |
| Recommendation.ScoreAll | src/lib/recommendation.js:29-40 | scoring keeps every candidate, in order |
| Recommendation.RecommendationCount | src/lib/recommendation.js:5 | no ratings give no recommendations; otherwise exactly min(6, number of unrated movies) |
| Recommendation.RecommendationsAreUnrated | src/lib/recommendation.js:3 | every recommendation is an unrated catalog movie, carrying its score |
| Recommendation.RecommendationsAreBest | src/lib/recommendation.js:42-44 | recommendations are sorted by descending score, drawn from the candidates, and outscore every candidate left out |
| Recommendation.TallyGenres | src/lib/recommendation.js:7-22 | the loop's sums and counts are `Tally` over the rated ids in ascending order |
| Recommendation.AverageGenres | src/lib/recommendation.js:24-27 | the loop's averages are sum / count for every tallied genre |
| Recommendation.ScoreMovies | src/lib/recommendation.js:29-40 | the loop scores the i-th unrated movie with the i-th jitter value |
| Recommendation.GenerateRecommendations | src/lib/recommendation.js:1-45 | the method returns `Recommend`, the specification the lemmas above describe |
| MovieStore.ErrorMap | src/hooks/useMovies.js:16-34 | a field has an error exactly when it fails its check, and the message is that field's message |
| MovieStore.NoErrorsIffValid | src/hooks/useMovies.js:16-34 | the error map is empty exactly when every field is valid |
| MovieStore.TwoBadFieldsTwoErrors | src/hooks/useMovies.js:16-34 | the error map holds exactly the failing fields, with no cross-talk between checks |
| MovieStore.YearBounds | src/hooks/useMovies.js:20-22 | years 1900 and the current year pass; 1899, next year, 0 and a missing year fail |
| MovieStore.Validate | src/hooks/useMovies.js:16-34 | the sequence of checks builds exactly the error map of the failing fields |
| MovieStore.ValidIsComplete | src/hooks/useMovies.js:16-34 | a draft that validates has every field and numeric year and rating |
| MovieStore.Build | src/hooks/useMovies.js:41 | the stored movie carries the draft's fields and the given id |
| MovieStore.ValidMergeSettles | src/hooks/useMovies.js:46-49 | when a merged edit validates, any year or rating the update gives is numeric |
| MovieStore.OverlayIsValidatedMerge | src/hooks/useMovies.js:47-49 | the stored edit `{...m, ...updates, id}` is the movie built from the validated merge |
| MovieStore.Edited | src/hooks/useMovies.js:49 | editing keeps length and ids, changes only the movie with the id, and overlays the update on it |
| MovieStore.EditAbsentIsNoOp | src/hooks/useMovies.js:46-50 | editing an absent id leaves the catalog unchanged |
| MovieStore.Removed | src/hooks/useMovies.js:54 | after a delete no movie has the id; deleting an absent id changes nothing |
| MovieStore.RemovedKeepsOthersInOrder | src/hooks/useMovies.js:53-55 | a delete keeps exactly the other movies, in order |
| MovieStore.AppendKeepsIdsAscending | src/hooks/useMovies.js:39-42 | an add keeps the ids ascending and unique |
| MovieStore.EditKeepsIds | src/hooks/useMovies.js:49 | an edit keeps the ids ascending and unique |
| MovieStore.RemoveKeepsIdsAscending | src/hooks/useMovies.js:54 | a delete keeps the ids ascending |
| MovieStore.Catalog.constructor | src/hooks/useMovies.js:8 | the catalog is the stored list, or the sample movies; the id invariant `Consistent` holds when the loaded list has ascending ids |
| MovieStore.Catalog.FindById | src/hooks/useMovies.js:14 | a found movie is in the catalog with that id; none exactly when no movie has it |
| MovieStore.Catalog.AddMovie | src/hooks/useMovies.js:36-44 | an invalid draft is rejected with its error map and nothing changes; a valid one is appended with the next id; `Consistent` (ascending, hence unique, ids) is kept |
| MovieStore.Catalog.EditMovie | src/hooks/useMovies.js:46-51 | the merge of the current movie and the update is validated; rejected, nothing changes; accepted, the movie is overlaid; `Consistent` is kept |
| MovieStore.Catalog.DeleteMovie | src/hooks/useMovies.js:53-55 | the catalog loses exactly the movies with the id; `Consistent` is kept |
| MovieStore.Catalog.Genres | src/hooks/useMovies.js:57 | the genre list starts with "All" |
| MovieForm.Set | src/components/Admin.jsx:35 | editing one input sets it and leaves the others |
| MovieForm.SetCurrentIsNoOp | src/components/Admin.jsx:35 | retyping an input's current text changes nothing |
| MovieForm.SetsOfDifferentInputsCommute | src/components/Admin.jsx:35 | edits of two different inputs commute |
| MovieForm.Payload | src/components/Admin.jsx:42 | the saved payload has every field: the texts as typed, year and rating through `Number` |
| MovieForm.PayloadOverridesAll | src/components/Admin.jsx:45 | merging a form payload into any movie gives the payload: the form overrides every field |
| MovieForm.FromMovie | src/components/Admin.jsx:26 | the edit form shows the movie's texts and its year and rating as text |
| MovieForm.EditFormRoundTrip | src/components/Admin.jsx:24-28 | saving an untouched edit form gives back the movie's own fields when `Number(String(x)) == x` |
| Admin.SortedById | src/components/Admin.jsx:16 | the table is a permutation of the catalog sorted by descending id |
| Admin.SortedByIdStrict | src/components/Admin.jsx:16 | with unique ids the order is strictly descending |
| Admin.AdminPanel.constructor | src/components/Admin.jsx:12-14 | no form open, blank form, no errors |
| Admin.AdminPanel.Listing | src/components/Admin.jsx:16 | the table is `SortedById` of the catalog: its movies, each as often as in the catalog; while `Consistent` holds, each once with strictly decreasing ids |
| Admin.AdminPanel.StartAdd | src/components/Admin.jsx:18-22 | the add form opens blank, without errors |
| Admin.AdminPanel.StartEdit | src/components/Admin.jsx:24-28 | the edit form opens for the movie's id, filled from the movie, without errors |
| Admin.AdminPanel.Cancel | src/components/Admin.jsx:30-33 | the form closes and the errors clear |
| Admin.AdminPanel.OnChange | src/components/Admin.jsx:35 | one input of the form changes |
| Admin.AdminPanel.OnSave | src/components/Admin.jsx:37-48 | an invalid form shows its errors and stays open; a valid one is added or edited and the form closes; the catalog's `Consistent` is kept |
| Admin.AdminPanel.OnDelete | src/components/Admin.jsx:50-52 | a confirmed delete removes the movie; a declined one changes nothing; the catalog's `Consistent` is kept |
| Admin.SaveUntouchedEditIsNoOp | src/components/Admin.jsx:24-48 | opening a movie's edit form and saving it untouched leaves the catalog unchanged |
| Header.InitialTheme | src/components/Header.jsx:14 | a missing or empty stored theme means dark; otherwise the stored theme |
| Header.Toggled | src/components/Header.jsx:62 | the switch gives light from dark and dark from anything else |
| Header.ToggleTwice | src/components/Header.jsx:62 | two presses return to either theme |
| Header.CanSubmitExactlyWhenFilled | src/components/Header.jsx:24-27 | the quick-add form submits exactly when every input has text; the blank form never does |
| Header.HeaderState.constructor | src/components/Header.jsx:14 | the theme comes from storage and the form starts blank |
| Header.HeaderState.ToggleTheme | src/components/Header.jsx:62 | the theme flips and the form is kept; dark mode is on exactly when it was off |
| Header.HeaderState.OnChange | src/components/Header.jsx:78-83 | one input of the form changes |
| Header.HeaderState.SubmitNewMovie | src/components/Header.jsx:31-42 | an incomplete form is ignored; a complete one is sent as the payload and the form empties |
| App.PicsumUrl | src/App.jsx:33 | the migrated poster URL starts with the picsum seed prefix |
| App.PicsumUrlOnPicsum | src/App.jsx:33 | the migrated poster URL is on picsum.photos |
| App.PicsumResized | src/App.jsx:33 | replacing `/400/600` in a migrated URL swaps in the requested size after the id |
| App.PicsumIsNotUnsplash | src/App.jsx:33 | a migrated poster URL is not on unsplash.com |
| App.MigratedPosterIsImageUrl | src/App.jsx:33 | a migrated poster URL is still recognised by `isImageUrl`, through its picsum.photos host |
| App.Migrated | src/App.jsx:31-35 | an Unsplash poster is replaced by the picsum URL of the movie's id; other movies are kept; the result is off Unsplash |
| App.Migrate | src/App.jsx:27-38 | migration maps each movie in place; nothing is left on Unsplash; a catalog without Unsplash posters is returned unchanged |
| App.MigrateIdempotent | src/App.jsx:27-38 | migrating twice is migrating once |
| App.MigrateKeepsAllButImage | src/App.jsx:31-35 | migration changes no field but the image |
| App.FilterMovies | src/App.jsx:57-63 | every listed movie matches the genre and the title query |
| App.FilteredMovies | src/App.jsx:57-63 | a movie is listed exactly when it is in the catalog and matches; the order is kept |
| App.InitialFilterListsAll | src/App.jsx:21-22 | with the initial "All" and empty query, the whole catalog is listed |
| App.RecommendationEffect | src/App.jsx:46-55 | with ratings, the recommendations are recomputed and shown; without, they are cleared and hidden |
| App.Home.constructor | src/App.jsx:19-24 | the catalog comes from storage, no recommendations yet, the panel shown, "All", no query |
| App.Home.MigrateImages | src/App.jsx:27-55 | the catalog becomes its migration, so no Unsplash poster remains. The recommendation effect then re-runs on the migrated catalog: with ratings it recomputes and shows; without, it clears and hides, so the panel is open exactly when `hasRatings` holds |
| App.Home.Genres | src/App.jsx:40 | the genre choices start with "All" |
| App.Home.Filtered | src/App.jsx:57-63 | the grid shows catalog movies that match the genre and query |
| App.Home.SelectGenre | src/App.jsx:21 | only the selected genre changes |
| App.Home.Search | src/App.jsx:22 | only the query changes |
| App.Home.HasRatings | src/App.jsx:65 | `hasRatings` holds exactly when the ratings map has some key |
| App.Home.RefreshRecommendations | src/App.jsx:46-55 | the effect's outcome for the current ratings and catalog; afterwards the panel is open exactly when `hasRatings` holds |
| App.Home.ToggleRecommendations | src/components/Recommendations.jsx:105 | the panel's visibility flips and nothing else changes |
| App.Home.HandleAddMovie | src/App.jsx:67-72 | the movie is appended with an id above every existing id. The effect then re-runs: with ratings the recommendations are recomputed and shown; without, they are cleared and hidden, so the panel is open exactly when `hasRatings` holds |
| App.Home.RateMovie | src/App.jsx:46-55 | the rating is stored, and the refreshed recommendations are shown and never include the movie just rated; `hasRatings` then holds |
| Details.PosterSrc | src/components/Details.jsx:37 | the poster is the movie's image, or the placeholder when it has none |
| Details.DetailSrcSet | src/components/Details.jsx:42 | the details poster offers responsive candidates exactly when it has an image |
| Details.DetailSrcSetOfMigratedPoster | src/components/Details.jsx:42 | a migrated picsum poster offers itself at 400w and its 800x1200 variant |
| Details.OneShotImage.constructor | src/components/Details.jsx:36-45 | the element shows its source, with its `srcset` if given, not yet fallen back |
| Details.OneShotImage.HandleError | src/components/Details.jsx:44 | the first failure shows the placeholder and drops the `srcset`; later failures change nothing |
| Details.FindByRoute | src/components/Details.jsx:9-11 | the route finds a catalog movie with id equal to `Number(id)`; a NaN or unknown route finds nothing |
| Details.SimilarMovies | src/components/Details.jsx:22 | similar movies are exactly the first six other movies of the same genre in catalog order (all of them when fewer match); six whenever six or more match |
| Details.Render | src/components/Details.jsx:13-22 | "not found" exactly when the route finds no movie; otherwise its poster, candidates and similar movies |
| Details.PageExcludesItself | src/components/Details.jsx:22 | a movie is never listed as similar to itself |
| StarRating.UserRatingOf | src/components/Recommendations.jsx:126 | the shown rating is the stored one, or 0 when unrated |
| StarRating.Stars | src/components/MovieCard.jsx:8-22 | five buttons that rate 1 to 5 |
| StarRating.FilledStars | src/components/MovieCard.jsx:13-19 | the filled stars are a prefix, as many as the rating clamped to 0..5 |
| StarRating.PressThenShow | src/components/MovieCard.jsx:11 | pressing the k-th star stores rating k, and the card then shows k filled stars |
| MovieCard.ImageSrc | src/components/MovieCard.jsx:52-57 | without an image or after the final error, the `src` is the placeholder at the current index, which `isImageUrl` accepts; otherwise it is the poster itself; it is never empty |
| MovieCard.SrcSet | src/components/MovieCard.jsx:59-72 | a working card poster has responsive candidates exactly when it is on picsum or Unsplash |
| MovieCard.SrcSetOfMigratedPoster | src/components/MovieCard.jsx:62-64 | a migrated picsum poster offers its 300x450 and 600x900 variants |
| MovieCard.SrcSetDropsQuery | src/components/MovieCard.jsx:66-69 | an Unsplash poster's own query is dropped and replaced by the two sizing queries |
| MovieCard.RatedText | src/components/MovieCard.jsx:123-127 | the "You rated this" line appears exactly for a positive rating |
| MovieCard.RatedTextPlural | src/components/MovieCard.jsx:125 | the line ends in "stars" exactly when the rating is not 1 |
| MovieCard.AsWrittenSkipsFirstPlaceholder | src/components/MovieCard.jsx:31-46 | as written, a card whose poster fails never shows the first placeholder |
| MovieCard.CorrectedTriesEveryPlaceholder | src/components/MovieCard.jsx:34-37 | walking the chain one step per failure shows the poster, then every placeholder in order, then stays on the SVG |
| MovieCard.CardImage.constructor | src/components/MovieCard.jsx:27-29 | no error, first fallback index, loading, showing the image or the first placeholder |
| MovieCard.CardImage.HandleImageError | src/components/MovieCard.jsx:31-46 | the index advances to at most the last, the error flag sets once it is past the last, the `srcset` goes, loading ends, and the element shows the as-written poster |
| MovieCard.CardImage.HandleImageLoad | src/components/MovieCard.jsx:48-50 | loading ends and nothing else changes |
| RecommendationsView.RecSrcSet | src/components/Recommendations.jsx:50 | a recommendation poster offers responsive candidates exactly when it has an image |
| RecommendationsView.RecSrcSetOfMigratedPoster | src/components/Recommendations.jsx:50 | a migrated picsum poster offers its 240x360 and 480x720 variants |
| RecommendationsView.CardOf | src/components/Recommendations.jsx:30-89 | a card shows the movie, its rating, the heart exactly for a positive rating, its stars, poster and link |
| RecommendationsView.Render | src/components/Recommendations.jsx:112-131 | hidden shows nothing; shown shows one card per recommendation, or the rate-more prompt when there are none |
| RecommendationsView.ToggleLabel | src/components/Recommendations.jsx:108 | the button reads "Hide" while shown and "Show" while hidden |
| RecommendationsView.FreshCardsAreUnrated | src/components/Recommendations.jsx:120-127 | fresh recommendation cards show no heart and no filled star, and each details link finds its movie |
| RecommendationsView.RateMoreExactlyWhenAllRated | src/components/Recommendations.jsx:120-130 | with some rating, the prompt appears exactly when every catalog movie is rated |
| AdminSignup.PasswordError | src/components/AdminSignup.jsx:17-28 | no message exactly when the password has six characters and is confirmed; "too short" takes precedence over "do not match" |
| AdminSignup.SignupForm.constructor | src/components/AdminSignup.jsx:8-14 | empty inputs, no messages, not signed up |
| AdminSignup.SignupForm.Type | src/components/AdminSignup.jsx:118 | the inputs change and nothing else |
| AdminSignup.SignupForm.ValidatePassword | src/components/AdminSignup.jsx:17-28 | the shown message is the password's, and the answer is whether it is accepted |
| AdminSignup.SignupForm.HandleSubmit | src/components/AdminSignup.jsx:30-40 | a form the browser refuses (an empty input, or an email the `type="email"` check rejects) is not submitted and nothing changes. Otherwise a refused password never reaches the service and an accepted one is sent. Only a successful answer switches to the success screen and keeps the answer |
| AdminSignup.SignupForm.HandleResendConfirmation | src/components/AdminSignup.jsx:42-48 | a successful resend shows its message; a failure changes nothing |
| AdminSignup.SignupForm.ClearResendMessage | src/components/AdminSignup.jsx:46 | the timer clears the resend message and nothing else |

## Left out

- The inline SVG placeholder is not reproduced byte for byte. `Utils.PlaceholderImages` has the
  two URL placeholders verbatim. The third is its `data:image/svg+xml;base64,` prefix followed by
  an unspecified string (`Utils.SvgPosterBase64`); `btoa` is not modelled.
- JavaScript numbers are modelled as exact `real`s, so there is no floating-point rounding in the
  averages, scores and the `Number`/`String` round trip. `MovieForm.EditFormRoundTrip` and
  `Admin.SaveUntouchedEditIsNoOp` take that round trip as a precondition.
- `Math.random` is the `noise` parameter. The bound `[0, 0.1)` on the jitter is not enforced;
  `Recommendation.ScoreBounds` is stated for any jitter value.
- Storage is modelled as the stored text plus a parser that may fail (`LoadFromStorage`). The
  effects that write back (`saveToStorage` in `src/hooks/useMovies.js:10-12` and
  `src/App.jsx:42-44`, the ratings writer in `src/hooks/useMovieRatings.js:19-25`) are I/O and are
  left out.
- `new URL(...)` is `Env.isUrl`, the clock is `Env.currentYear`, and `trim()` is the JavaScript
  white-space set in `Strings.IsBlank`.
- `Strings.Lower` lower-cases ASCII letters only; the Unicode case mapping of `toLowerCase` is not
  modelled.
- Recommendation.KeysAscending: `Object.keys` of the ratings is taken in ascending numeric
  order. JavaScript lists array-index keys (0 to 2^32 - 2) that way, which covers every id
  `Movies.NextId` hands out. A negative or larger id would come in insertion order instead, and
  that order is not modelled. Genre keys of the averages map are not iterated in any
  order-dependent way.
- Recommendation.Score: genre lookups use a map, not a plain `{}` object, so keys inherited from
  `Object.prototype` are not modelled. In the source, an unrated movie whose genre is a name like
  `"toString"` that no rated movie shares finds the inherited function at
  `src/lib/recommendation.js:32`. That value is truthy, so the movie's score becomes NaN; here it
  gets rating / 10 + jitter.
- Recommendation.Add: for the same reason, a rated movie whose genre is `"constructor"` (or
  another inherited name) does not turn the sum at `src/lib/recommendation.js:19` into string
  concatenation or the count at line 20 into NaN. Here it is tallied like any other genre.
- MovieStore.ErrorMap: a `map<Field, string>` has no order, so it does not record the insertion
  order (title, genre, year, rating, image, description) in which `Object.values(errors)` lists
  the messages at `src/components/Admin.jsx:79`. Which messages appear is modelled; their order
  on screen is not.
- `App.Home.HandleAddMovie` takes a `Movie`. The header's payload with `Number(...)` year and
  rating is modelled in `Header.HeaderState.SubmitNewMovie`. Handing a possibly `NaN` payload
  straight to the catalog without validation is not modelled.
- Authentication is not part of this model: `useAdmin`, the `isAdmin` gating of the admin page
  and of the header's add form, `AdminLogin` and the logout button.
- Routing is reduced to the route parameter as a `MovieStore.Num`; `navigate` and `Link` are not
  modelled.
- Toasts, `framer-motion` animations, `Helmet` metadata, the `mounted`/fade-in state of the
  sign-up page, the clipboard share button and the "Open Poster" link are presentation only.
- `window.confirm` is the `confirmed` argument of `Admin.AdminPanel.OnDelete`.
- The account service (`signup`, `resendConfirmation`) is the `signup`/`resend` function
  parameters. Its `loading`/`error` state is not modelled. The five-second `setTimeout` is the
  separate `ClearResendMessage` method.
- `AdminSignup.PasswordError` counts `seq<char>` elements, while `.length` counts UTF-16 code units.
- The recommendations panel is only mounted when there are ratings (`src/App.jsx:95`).
  `RecommendationsView.Render` is stated for any input, and its lemmas assume some rating.
- Recommendation.GenreAverageIsMean: states the mean only when that genre's ratings are all positive, because as written a 0 sum restarts the tally (see `Recommendation.ZeroRatingRestartsGenre`); `Recommendation.TallyIsFinalRun` covers the general case.
- Admin.AdminPanel.OnSave: requires an open form, because the Save button is rendered only while `editingId !== null` (`src/components/Admin.jsx:70`).
- Seqs.SortDesc: does not state stability (ties keep their input order), though the insertion sort used is stable, as `Array.prototype.sort` is.
- App.Migrated: does not model a non-string `image` (the `typeof m.image === 'string'` guard); images are strings throughout this model.
- MovieStore.Catalog.constructor: the id invariant `Consistent` (ascending ids) is promised only when the loaded list already has it. The source does not check stored data on load, and a hand-edited store could hold repeated ids; the add, edit and delete methods keep the invariant whenever it holds.
- Details.FindByRoute: `Number(id)` of the route text is not modelled; the route arrives already converted to a `MovieStore.Num`.
- The poster element of a recommendation card (`src/components/Recommendations.jsx:52`) is not a
  separate class: it falls back once, exactly as `Details.OneShotImage` does.
- The thumbnails of similar movies on the details page (`src/components/Details.jsx:68-79`) fall
  back once to `Details.NoImageThumb` through `Details.OneShotImage`; they are not rendered
  separately in `Details.Render`.

## Findings

| source | as written | input that shows it | evidently intended | confidence | as-written member | corrected member |
|---|---|---|---|---|---|---|
| src/components/MovieCard.jsx:31-57 | On a load failure the handler points the element at `PLACEHOLDER_IMAGES[currentFallbackIndex + 1]`. While `imageError` is false React keeps rendering `src={movie.image}`, so it never writes placeholder 0. The first placeholder is never tried for a movie that has a poster. | any movie with a non-empty `image` whose load fails: the card goes from the poster to `PLACEHOLDER_IMAGES[1]`, then to the SVG | try the poster, then every placeholder in order, as the comment "If we haven't tried all fallbacks yet" and `preloadImageWithFallback` do | medium, not executed | MovieCard.AsWrittenSkipsFirstPlaceholder | MovieCard.CorrectedTriesEveryPlaceholder |
