/**
 * `Endpoints`: the Pexels API URLs the client requests.
 */
module Endpoints {
  import opened KotlinLang

  const PHOTOS_BASE := "https://api.pexels.com/v1"
  const VIDEOS_BASE := "https://api.pexels.com/videos"

  const PHOTOS_SEARCH := PHOTOS_BASE + "/search"
  const PHOTOS_CURATED := PHOTOS_BASE + "/curated"
  const VIDEOS_SEARCH := VIDEOS_BASE + "/search"
  const VIDEOS_POPULAR := VIDEOS_BASE + "/popular"
  const COLLECTIONS_FEATURED := PHOTOS_BASE + "/collections/featured"
  const COLLECTIONS_MY := PHOTOS_BASE + "/collections"

  const PHOTO_PREFIX := PHOTOS_BASE + "/photos/"
  const VIDEO_PREFIX := VIDEOS_BASE + "/videos/"
  const COLLECTION_PREFIX := PHOTOS_BASE + "/collections/"

  /** `photo(id)`: the photo path followed by `id` in its canonical decimal rendering. */
  function PhotoUrl(id: Int64): (url: string)
    ensures |url| > |PHOTO_PREFIX| && url[..|PHOTO_PREFIX|] == PHOTO_PREFIX
    ensures ToLongOrNull(url[|PHOTO_PREFIX|..]) == Some(id)
    ensures url == PHOTO_PREFIX + IntToString(id)
  {
    LongRoundTrip(id);
    assert (PHOTO_PREFIX + IntToString(id))[|PHOTO_PREFIX|..] == IntToString(id);
    PHOTO_PREFIX + IntToString(id)
  }

  /** `video(id)`: the video path followed by `id` in its canonical decimal rendering. */
  function VideoUrl(id: Int64): (url: string)
    ensures |url| > |VIDEO_PREFIX| && url[..|VIDEO_PREFIX|] == VIDEO_PREFIX
    ensures ToLongOrNull(url[|VIDEO_PREFIX|..]) == Some(id)
    ensures url == VIDEO_PREFIX + IntToString(id)
  {
    LongRoundTrip(id);
    assert (VIDEO_PREFIX + IntToString(id))[|VIDEO_PREFIX|..] == IntToString(id);
    VIDEO_PREFIX + IntToString(id)
  }

  /** `collectionMedia(id)`: the collections path followed by the id exactly as given. */
  function CollectionMediaUrl(id: string): (url: string)
    ensures |url| >= |COLLECTION_PREFIX| && url[..|COLLECTION_PREFIX|] == COLLECTION_PREFIX
    ensures url[|COLLECTION_PREFIX|..] == id
  {
    COLLECTION_PREFIX + id
  }

  /** Different photo ids give different URLs. */
  lemma PhotoUrlInjective(a: Int64, b: Int64)
    requires PhotoUrl(a) == PhotoUrl(b)
    ensures a == b
  {
    assert Some(a) == ToLongOrNull(PhotoUrl(a)[|PHOTO_PREFIX|..]);
  }

  /** Different video ids give different URLs. */
  lemma VideoUrlInjective(a: Int64, b: Int64)
    requires VideoUrl(a) == VideoUrl(b)
    ensures a == b
  {
    assert Some(a) == ToLongOrNull(VideoUrl(a)[|VIDEO_PREFIX|..]);
  }

  /** Different collection ids give different URLs. */
  lemma CollectionMediaUrlInjective(a: string, b: string)
    requires CollectionMediaUrl(a) == CollectionMediaUrl(b)
    ensures a == b
  {
    PrefixCancels(COLLECTION_PREFIX, a, b);
  }

  /** The fixed endpoints are their base followed by the documented paths. */
  lemma FixedEndpoints()
    ensures PHOTOS_SEARCH == "https://api.pexels.com/v1/search"
    ensures PHOTOS_CURATED == "https://api.pexels.com/v1/curated"
    ensures VIDEOS_SEARCH == "https://api.pexels.com/videos/search"
    ensures VIDEOS_POPULAR == "https://api.pexels.com/videos/popular"
    ensures COLLECTIONS_FEATURED == "https://api.pexels.com/v1/collections/featured"
    ensures COLLECTIONS_MY == "https://api.pexels.com/v1/collections"
    ensures PhotoUrl(0) == "https://api.pexels.com/v1/photos/0"
  {
  }

  /**
   * The collection id is inserted without escaping, so the id "featured"
   * names the featured-collections endpoint itself.
   */
  lemma CollectionIdNotEscaped()
    ensures CollectionMediaUrl("featured") == COLLECTIONS_FEATURED
  {
  }
}
