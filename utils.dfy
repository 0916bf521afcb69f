/**
 * Shared helpers: the storage fallback rule, the placeholder poster images, the order in which a
 * poster and its fallbacks are tried, and the image-URL recogniser.
 */
module Utils {
  import opened Wrappers
  import opened Strings

  /**
   * `raw ? JSON.parse(raw) : fallback`, with a parse failure caught and answered by `fallback`.
   * `raw` is what storage holds under the key (`None` when nothing is stored); `parse` stands for
   * `JSON.parse`, `None` meaning that it throws.
   */
  function LoadFromStorage<T>(raw: Option<string>, parse: string -> Option<T>, fallback: T): (r: T)
    ensures raw.None? || raw.value == "" ==> r == fallback
    ensures raw.Some? && raw.value != "" && parse(raw.value).None? ==> r == fallback
    ensures raw.Some? && raw.value != "" && parse(raw.value).Some? ==> r == parse(raw.value).value
  {
    if raw.None? || raw.value == "" then fallback
    else match parse(raw.value)
      case None => fallback
      case Some(v) => v
  }

  /**
   * The Base64 text `btoa` makes of the inline 400x600 SVG "Movie Poster" drawing. The encoding
   * is not modelled: any string serves, only the `data:` prefix in front of it matters below.
   */
  const SvgPosterBase64: string

  const SvgDataPrefix: string := "data:image/svg+xml;base64,"

  /** The placeholder posters, most preferred first; the last one needs no network. */
  const PlaceholderImages: seq<string> := [
    "https://via." + "placeholder.com" + "/400x600/1a1a1a/ffffff?text=Movie+Poster",
    "https://" + "dummyimage.com" + "/400x600/1a1a1a/ffffff&text=Movie+Poster",
    SvgDataPrefix + SvgPosterBase64
  ]

  const PlaceholderImage: string := PlaceholderImages[0]

  /** The inline SVG poster that ends the fallback chain. */
  function LastPlaceholder(): (r: string)
    ensures r == PlaceholderImages[|PlaceholderImages| - 1]
    ensures StartsWith(r, "data:image/svg+xml")
  {
    assert (SvgDataPrefix + SvgPosterBase64)[..18] == SvgDataPrefix[..18];
    PlaceholderImages[2]
  }

  /**
   * `preloadImageWithFallback(src, fallbacks)`: the first of `src`, then each fallback in order,
   * that `loads`; the inline SVG poster when none does. `loads` stands for the browser's answer to
   * `preloadImage`.
   */
  method PreloadImageWithFallback(src: string, fallbacks: seq<string>, loads: string -> bool)
    returns (r: string)
    ensures loads(src) ==> r == src
    ensures !loads(src) && (exists i :: 0 <= i < |fallbacks| && loads(fallbacks[i])) ==>
              exists i :: 0 <= i < |fallbacks| && r == fallbacks[i] && loads(r) &&
                          forall j :: 0 <= j < i ==> !loads(fallbacks[j])
    ensures !loads(src) && (forall i :: 0 <= i < |fallbacks| ==> !loads(fallbacks[i])) ==>
              r == LastPlaceholder()
  {
    if loads(src) {
      return src;
    }
    for i := 0 to |fallbacks|
      invariant forall j :: 0 <= j < i ==> !loads(fallbacks[j])
    {
      if loads(fallbacks[i]) {
        return fallbacks[i];
      }
    }
    return LastPlaceholder();
  }

  const ImageExtensions: seq<string> := [".jpg", ".jpeg", ".png", ".gif", ".bmp", ".webp", ".svg"]

  /** `/\.(jpg|jpeg|png|gif|bmp|webp|svg)$/i.test(url)`. */
  predicate HasImageExtension(url: string)
  {
    exists e :: e in ImageExtensions && EndsWithIgnoringCase(url, e)
  }

  /** The hosts whose URLs are taken to be images whatever their path. */
  const ImageHosts: seq<string> := ["picsum.photos", "unsplash.com", "placeholder.com", "dummyimage.com"]

  /**
   * `isImageUrl(url)`: `url` is `None` when it is not a string. An empty string is refused; any
   * other string is accepted by its extension, by a known image host, or as an inline image.
   */
  predicate IsImageUrl(url: Option<string>)
    ensures IsImageUrl(url) ==> url.Some? && url.value != ""
    ensures url.Some? && url.value != "" && StartsWith(url.value, "data:image/") ==> IsImageUrl(url)
  {
    && url.Some?
    && url.value != ""
    && (|| HasImageExtension(url.value)
        || (exists h :: h in ImageHosts && Contains(url.value, h))
        || StartsWith(url.value, "data:image/"))
  }

  lemma PlaceholdersAreImageUrls()
    ensures forall i :: 0 <= i < |PlaceholderImages| ==> IsImageUrl(Some(PlaceholderImages[i]))
  {
    var p0, p1, p2 := PlaceholderImages[0], PlaceholderImages[1], PlaceholderImages[2];
    assert IsImageUrl(Some(p0)) by {
      assert OccursAt(p0, "placeholder.com", 12);
      ContainsWitness(p0, "placeholder.com", 12);
      assert ImageHosts[2] == "placeholder.com";
    }
    assert IsImageUrl(Some(p1)) by {
      assert OccursAt(p1, "dummyimage.com", 8);
      ContainsWitness(p1, "dummyimage.com", 8);
      assert ImageHosts[3] == "dummyimage.com";
    }
    assert IsImageUrl(Some(p2)) by {
      assert p2[..11] == "data:image/";
    }
  }

  /** The extension test ignores case: a URL ending in `.JPG` is an image URL. */
  lemma UpperCaseExtensionIsImage(stem: string)
    ensures IsImageUrl(Some(stem + ".JPG"))
  {
    var url := stem + ".JPG";
    assert url[|url| - 4..] == ".JPG";
    assert Lower(url[|url| - 4..]) == ".jpg";
    assert ".jpg" in ImageExtensions && EndsWithIgnoringCase(url, ".jpg");
    assert HasImageExtension(url);
  }

  /** An empty string, or a value that is not a string, is never an image URL. */
  lemma NonStringOrEmptyIsNotImage(url: Option<string>)
    requires url.None? || url.value == ""
    ensures !IsImageUrl(url)
  {
  }
}
