/**
 * A movie card of the catalog grid: the poster with its responsive candidates and its chain of
 * placeholder posters on load failure, the heart badge and the "You rated this" line for a rated
 * movie, and the star row.
 */
module MovieCard {
  import opened Wrappers
  import opened Strings
  import Utils
  import App
  import StarRating

  const Placeholders: seq<string> := Utils.PlaceholderImages

  /**
   * `getImageSrc()`: the current placeholder when there is no image or it failed for good, else
   * the image. Either way the `src` is never empty, and a placeholder is always a recognised
   * image URL.
   */
  function ImageSrc(image: string, imageError: bool, fallbackIndex: nat): (r: string)
    requires fallbackIndex < |Placeholders|
    ensures image == "" || imageError ==> r == Placeholders[fallbackIndex] && Utils.IsImageUrl(Some(r))
    ensures image != "" && !imageError ==> r == image
    ensures r != ""
  {
    Utils.PlaceholdersAreImageUrls();
    if image == "" || imageError then Placeholders[fallbackIndex] else image
  }

  const UnsplashSmall: string := "?w=300&h=450&fit=crop&auto=format&q=80 300w, "
  const UnsplashLarge: string := "?w=600&h=900&fit=crop&auto=format&q=80 600w"

  /**
   * `getSrcSet()`: for a working picsum poster, its 300x450 and 600x900 variants; for a working
   * Unsplash poster, its URL without the query with two sizing queries; otherwise no `srcset`.
   */
  function SrcSet(image: string, imageError: bool): (r: Option<string>)
    ensures r.Some? <==>
              image != "" && !imageError && (Contains(image, "picsum.photos") || Contains(image, "unsplash.com"))
  {
    if image == "" || imageError then None
    else if Contains(image, "picsum.photos") then
      Some(ReplaceFirst(image, "/400/600", "/300/450") + " 300w, " +
           ReplaceFirst(image, "/400/600", "/600/900") + " 600w")
    else if Contains(image, "unsplash.com") then
      var base := BeforeFirst(image, '?');
      Some(base + UnsplashSmall + base + UnsplashLarge)
    else None
  }

  /** A picsum poster as the migration writes it offers exactly its 300x450 and 600x900 variants. */
  lemma SrcSetOfMigratedPoster(id: int)
    ensures var seeded := App.PicsumSeed + IntToString(id);
            SrcSet(App.PicsumUrl(id), false) == Some(seeded + "/300/450 300w, " + seeded + "/600/900 600w")
  {
    var seeded := App.PicsumSeed + IntToString(id);
    App.PicsumUrlOnPicsum(id);
    App.PicsumResized(id, "/300/450");
    App.PicsumResized(id, "/600/900");
    var small, large := seeded + "/300/450", seeded + "/600/900";
    assert SrcSet(App.PicsumUrl(id), false) == Some(small + " 300w, " + large + " 600w");
    var head := seeded + "/300/450 300w, ";
    assert small + " 300w, " == head;
    assert large + " 600w" == seeded + "/600/900 600w";
    assert head + large + " 600w" == head + (large + " 600w");
    assert head + seeded + "/600/900 600w" == head + (seeded + "/600/900 600w");
  }

  /**
   * An Unsplash poster `path?query` (not on picsum) offers `path` with the two sizing queries:
   * whatever query it carried is dropped.
   */
  lemma {:induction false} SrcSetDropsQuery(path: string, query: string)
    requires forall i :: 0 <= i < |path| ==> path[i] != '?'
    requires Contains(path, "unsplash.com") && !Contains(path + "?" + query, "picsum.photos")
    ensures SrcSet(path + "?" + query, false) == Some(path + UnsplashSmall + path + UnsplashLarge)
  {
    var image := path + "?" + query;
    assert image == path + ("?" + query);
    ContainsInPrefix(path, "?" + query, "unsplash.com");
    var b := BeforeFirst(image, '?');
    assert forall k :: 0 <= k < |path| ==> image[k] == path[k];
    assert image[|path|] == '?';
    assert b == path;
  }

  /** A string found in `s` is found in any extension of `s`. */
  lemma ContainsInPrefix(s: string, rest: string, t: string)
    requires Contains(s, t)
    ensures Contains(s + rest, t)
  {
    var i := IndexOf(s, t).value;
    assert (s + rest)[i..i + |t|] == s[i..i + |t|];
    ContainsWitness(s + rest, t, i);
  }

  /** `You rated this {userRating} star{userRating !== 1 ? 's' : ''}`, shown for a positive rating. */
  function RatedText(userRating: int): (r: Option<string>)
    ensures r.Some? <==> userRating > 0
    ensures r.Some? ==> StartsWith(r.value, "You rated this ")
  {
    if userRating > 0 then
      Some("You rated this " + IntToString(userRating) + " star" + (if userRating != 1 then "s" else ""))
    else None
  }

  /** The line ends in "star" for a rating of one and in "stars" for any other positive rating. */
  lemma RatedTextPlural(userRating: int)
    requires userRating > 0
    ensures var t := RatedText(userRating).value;
            |t| > 0 && (t[|t| - 1] == 's' <==> userRating != 1)
  {
    var t := RatedText(userRating).value;
    var head := "You rated this " + IntToString(userRating) + " star";
    assert head[|head| - 1] == 'r';
    if userRating == 1 {
      assert t == head;
    } else {
      assert t == head + "s";
    }
  }

  /**
   * The poster the element shows after `errors` load failures, as the card is written: the image
   * (or the first placeholder when there is none), then the second placeholder, then the last.
   */
  function ShownAfter(image: string, errors: nat): string
  {
    if errors == 0 then (if image == "" then Placeholders[0] else image)
    else Placeholders[if errors < 2 then errors else 2]
  }

  lemma PlaceholdersDiffer()
    ensures Placeholders[0] != Placeholders[1] && Placeholders[0] != Placeholders[2]
  {
    assert Placeholders[0][8] == 'v' && Placeholders[1][8] == 'd';
    assert Placeholders[0][0] == 'h' && Placeholders[2][0] == 'd';
  }

  /**
   * As written, a card whose own poster fails goes straight to the second placeholder: the first
   * one is never shown, however often loading fails. A card without a poster does show all three.
   * Either way the inline SVG is reached after two failures and kept from then on.
   */
  lemma AsWrittenSkipsFirstPlaceholder(image: string)
    requires image != "" && image != Placeholders[0]
    ensures forall k: nat :: ShownAfter(image, k) != Placeholders[0]
    ensures ShownAfter("", 0) == Placeholders[0] && ShownAfter("", 1) == Placeholders[1]
    ensures forall k: nat :: k >= 2 ==> ShownAfter(image, k) == Utils.LastPlaceholder()
  {
    PlaceholdersDiffer();
  }

  /** The order the card evidently means to try: the movie's own poster, then every placeholder. */
  function FallbackChain(image: string): (c: seq<string>)
    ensures |c| >= |Placeholders| && c[|c| - |Placeholders|..] == Placeholders
  {
    if image == "" then Placeholders else [image] + Placeholders
  }

  /** The poster shown after `errors` failures when the chain is walked one step per failure. */
  function CorrectedShownAfter(image: string, errors: nat): string
  {
    var c := FallbackChain(image);
    c[if errors < |c| then errors else |c| - 1]
  }

  /**
   * Walking the chain one step per failure shows the poster first, then every placeholder in
   * order, and stays on the inline SVG once it is reached.
   */
  lemma CorrectedTriesEveryPlaceholder(image: string)
    ensures CorrectedShownAfter(image, 0) == (if image == "" then Placeholders[0] else image)
    ensures var skip := if image == "" then 0 else 1;
            forall j :: 0 <= j < |Placeholders| ==> CorrectedShownAfter(image, skip + j) == Placeholders[j]
    ensures forall k: nat :: k >= |FallbackChain(image)| - 1 ==> CorrectedShownAfter(image, k) == Utils.LastPlaceholder()
  {
  }

  /** The poster element of one card and the card's state cells around it. */
  class CardImage {
    const image: string
    var imageError: bool
    var fallbackIndex: nat
    var loading: bool
    /** The element's `src` attribute. */
    var shown: string
    /** Whether the element still carries a `srcset` attribute. */
    var hasSrcSet: bool
    /** Load failures so far. */
    ghost var errors: nat

    ghost predicate Valid()
      reads this
    {
      && fallbackIndex == (if errors < 2 then errors else 2)
      && imageError == (errors >= 3)
      && shown == ShownAfter(image, errors)
      && (errors == 0 ==> hasSrcSet == SrcSet(image, false).Some?)
      && (errors > 0 ==> !hasSrcSet)
    }

    /** The first render: no error, the first fallback index, loading. */
    constructor (image: string)
      ensures Valid() && this.image == image && errors == 0
      ensures !imageError && fallbackIndex == 0 && loading
      ensures shown == (if image == "" then Placeholders[0] else image)
    {
      this.image := image;
      imageError := false;
      fallbackIndex := 0;
      loading := true;
      shown := ImageSrc(image, false, 0);
      hasSrcSet := SrcSet(image, false).Some?;
      errors := 0;
    }

    /**
     * `handleImageError`: the element is pointed at the next placeholder (or, once the last is
     * reached, the card gives up and keeps it), its `srcset` removed, and loading ends. React's
     * re-render then writes `src` again only if the value it renders changed.
     */
    method HandleImageError()
      requires Valid()
      modifies this
      ensures Valid() && errors == old(errors) + 1
      ensures fallbackIndex == (if old(fallbackIndex) < 2 then old(fallbackIndex) + 1 else 2)
      ensures imageError == (old(imageError) || old(fallbackIndex) == 2)
      ensures !loading && !hasSrcSet && shown == ShownAfter(image, errors)
    {
      var rendered := ImageSrc(image, imageError, fallbackIndex);
      if fallbackIndex < |Placeholders| - 1 {
        shown := Placeholders[fallbackIndex + 1];
        fallbackIndex := fallbackIndex + 1;
      } else {
        imageError := true;
        shown := Placeholders[|Placeholders| - 1];
      }
      hasSrcSet := false;
      loading := false;
      errors := errors + 1;
      var rerendered := ImageSrc(image, imageError, fallbackIndex);
      if rerendered != rendered {
        shown := rerendered;
      }
    }

    /** `handleImageLoad`: loading ends, nothing else changes. */
    method HandleImageLoad()
      requires Valid()
      modifies this
      ensures Valid() && !loading
      ensures imageError == old(imageError) && fallbackIndex == old(fallbackIndex)
      ensures shown == old(shown) && hasSrcSet == old(hasSrcSet) && errors == old(errors)
    {
      loading := false;
    }
  }
}
