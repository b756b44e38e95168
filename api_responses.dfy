/**
 * The raw response envelopes of the list endpoints and their conversion to
 * the public `PaginatedResponse`, and the conversion of a raw collection
 * media record to a `CollectionMedia`.
 */
module ApiResponses {
  import opened KotlinLang
  import opened Model
  import opened Media
  import opened Pages

  /** The paging fields every envelope copies into its page unchanged. */
  predicate SameEnvelope<T>(
    p: PaginatedResponse<T>, page: Int32, perPage: Int32, totalResults: Int32,
    nextPage: Option<string>, prevPage: Option<string>)
  {
    p.page == page && p.perPage == perPage && p.totalResults == totalResults
    && p.nextPage == nextPage && p.prevPage == prevPage
  }

  datatype PhotosApiResponse = PhotosApiResponse(
    photos: seq<Photo>, page: Int32, perPage: Int32, totalResults: Int32,
    nextPage: Option<string> := None, prevPage: Option<string> := None)
  {
    function ToPaginatedResponse(): (p: PaginatedResponse<Photo>)
      ensures p.data == photos
      ensures SameEnvelope(p, page, perPage, totalResults, nextPage, prevPage)
    {
      PaginatedResponse(photos, page, perPage, totalResults, nextPage, prevPage)
    }
  }

  datatype VideosApiResponse = VideosApiResponse(
    videos: seq<Video>, page: Int32, perPage: Int32, totalResults: Int32,
    nextPage: Option<string> := None, prevPage: Option<string> := None)
  {
    function ToPaginatedResponse(): (p: PaginatedResponse<Video>)
      ensures p.data == videos
      ensures SameEnvelope(p, page, perPage, totalResults, nextPage, prevPage)
    {
      PaginatedResponse(videos, page, perPage, totalResults, nextPage, prevPage)
    }
  }

  datatype CollectionsApiResponse = CollectionsApiResponse(
    collections: seq<Collection>, page: Int32, perPage: Int32, totalResults: Int32,
    nextPage: Option<string> := None, prevPage: Option<string> := None)
  {
    function ToPaginatedResponse(): (p: PaginatedResponse<Collection>)
      ensures p.data == collections
      ensures SameEnvelope(p, page, perPage, totalResults, nextPage, prevPage)
    {
      PaginatedResponse(collections, page, perPage, totalResults, nextPage, prevPage)
    }
  }

  // ---------------------------------------------------------------------------
  // Raw nested records of a collection media item

  datatype PhotoSourceInternal = PhotoSourceInternal(
    original: string, large2x: string, large: string, medium: string,
    small: string, portrait: string, landscape: string, tiny: string)
  {
    /** `toPhotoSource()`: every size URL is kept under its own name. */
    function ToPhotoSource(): (s: PhotoSource)
      ensures s.original == original && s.large2x == large2x && s.large == large
      ensures s.medium == medium && s.small == small && s.portrait == portrait
      ensures s.landscape == landscape && s.tiny == tiny
    {
      PhotoSource(original, large2x, large, medium, small, portrait, landscape, tiny)
    }
  }

  datatype UserInternal = UserInternal(id: Int64, name: string, url: string)
  {
    /** `toUser()`. */
    function ToUser(): (u: User)
      ensures u.id == id && u.name == name && u.url == url
    {
      User(id, name, url)
    }
  }

  datatype VideoFileInternal = VideoFileInternal(
    id: Int64, quality: string, fileType: string,
    width: Option<Int32>, height: Option<Int32>, fps: Option<Float64>, link: string)
  {
    /** `toVideoFile()`: absent dimensions and frame rate stay absent. */
    function ToVideoFile(): (f: VideoFile)
      ensures f.id == id && f.quality == quality && f.fileType == fileType && f.link == link
      ensures f.width == width && f.height == height && f.fps == fps
    {
      VideoFile(id, quality, fileType, width, height, fps, link)
    }
  }

  datatype VideoPictureInternal = VideoPictureInternal(id: Int64, picture: string, nr: Int32)
  {
    /** `toVideoPicture()`. */
    function ToVideoPicture(): (p: VideoPicture)
      ensures p.id == id && p.picture == picture && p.nr == nr
    {
      VideoPicture(id, picture, nr)
    }
  }

  /** The raw converters lose nothing: distinct raw records give distinct public ones. */
  lemma ConvertersInjective(a: PhotoSourceInternal, b: PhotoSourceInternal, u: UserInternal, v: UserInternal,
                            f: VideoFileInternal, g: VideoFileInternal, p: VideoPictureInternal, q: VideoPictureInternal)
    ensures a.ToPhotoSource() == b.ToPhotoSource() ==> a == b
    ensures u.ToUser() == v.ToUser() ==> u == v
    ensures f.ToVideoFile() == g.ToVideoFile() ==> f == g
    ensures p.ToVideoPicture() == q.ToVideoPicture() ==> p == q
  {
  }

  /** `map { it.toVideoFile() }`. */
  function ToVideoFiles(files: seq<VideoFileInternal>): (r: seq<VideoFile>)
    ensures |r| == |files|
    ensures forall i :: 0 <= i < |files| ==> r[i] == files[i].ToVideoFile()
  {
    seq(|files|, i requires 0 <= i < |files| => files[i].ToVideoFile())
  }

  /** `map { it.toVideoPicture() }`. */
  function ToVideoPictures(pictures: seq<VideoPictureInternal>): (r: seq<VideoPicture>)
    ensures |r| == |pictures|
    ensures forall i :: 0 <= i < |pictures| ==> r[i] == pictures[i].ToVideoPicture()
  {
    seq(|pictures|, i requires 0 <= i < |pictures| => pictures[i].ToVideoPicture())
  }

  // ---------------------------------------------------------------------------
  // Collection media

  /**
   * One record of a collection's media listing: a type tag, the fields every
   * kind has, and the photo- and video-specific fields, all optional.
   */
  datatype CollectionMediaItem = CollectionMediaItem(
    typeTag: string,
    id: Int64,
    width: Int32,
    height: Int32,
    url: string,
    photographer: Option<string> := None,
    photographerUrl: Option<string> := None,
    photographerId: Option<Int64> := None,
    avgColor: Option<string> := None,
    src: Option<PhotoSourceInternal> := None,
    alt: Option<string> := None,
    liked: Option<bool> := None,
    image: Option<string> := None,
    fullRes: Option<string> := None,
    tags: Option<seq<string>> := None,
    duration: Option<Int32> := None,
    user: Option<UserInternal> := None,
    videoFiles: Option<seq<VideoFileInternal>> := None,
    videoPictures: Option<seq<VideoPictureInternal>> := None)

  function OrElse<X>(o: Option<X>, default: X): X
  {
    if o.Some? then o.value else default
  }

  /** The records `toCollectionMedia()` turns into `null`. */
  predicate Dropped(item: CollectionMediaItem)
  {
    (item.typeTag == "Photo" && item.src.None?) || (item.typeTag == "Video" && item.user.None?)
  }

  /**
   * `toCollectionMedia()`: the exact, case-sensitive tag "Photo" or "Video"
   * selects the kind, and missing optional fields take their defaults; a photo
   * without `src` or a video without `user` gives `null`; any other tag gives
   * an `Unknown` that keeps the common fields and the tag.
   */
  function ToCollectionMedia(item: CollectionMediaItem): (r: Option<CollectionMedia>)
    ensures r.None? <==> Dropped(item)
    ensures r.Some? ==>
      r.value.id == item.id && r.value.width == item.width
      && r.value.height == item.height && r.value.url == item.url
    ensures r.Some? ==> (r.value.Kind() == PHOTO <==> item.typeTag == "Photo")
    ensures r.Some? ==> (r.value.Kind() == VIDEO <==> item.typeTag == "Video")
    ensures r.Some? && r.value.Kind() == UNKNOWN ==> r.value.originalType == item.typeTag
    ensures r.Some? && r.value.PhotoMedia? ==>
      r.value.photographer == OrElse(item.photographer, "")
      && r.value.photographerUrl == OrElse(item.photographerUrl, "")
      && r.value.photographerId == OrElse(item.photographerId, 0)
      && r.value.avgColor == OrElse(item.avgColor, "")
      && r.value.src == item.src.value.ToPhotoSource()
      && r.value.alt == OrElse(item.alt, "")
      && r.value.liked == OrElse(item.liked, false)
    ensures r.Some? && r.value.VideoMedia? ==>
      r.value.image == OrElse(item.image, "")
      && r.value.fullRes == item.fullRes
      && r.value.tags == OrElse(item.tags, [])
      && r.value.duration == OrElse(item.duration, 0)
      && r.value.user == item.user.value.ToUser()
      && r.value.videoFiles == ToVideoFiles(OrElse(item.videoFiles, []))
      && r.value.videoPictures == ToVideoPictures(OrElse(item.videoPictures, []))
  {
    if item.typeTag == "Photo" then
      if item.src.None? then None
      else Some(PhotoMedia(
        item.id, item.width, item.height, item.url,
        OrElse(item.photographer, ""),
        OrElse(item.photographerUrl, ""),
        OrElse(item.photographerId, 0),
        OrElse(item.avgColor, ""),
        item.src.value.ToPhotoSource(),
        OrElse(item.alt, ""),
        OrElse(item.liked, false)))
    else if item.typeTag == "Video" then
      if item.user.None? then None
      else Some(VideoMedia(
        item.id, item.width, item.height, item.url,
        OrElse(item.image, ""),
        item.fullRes,
        OrElse(item.tags, []),
        OrElse(item.duration, 0),
        item.user.value.ToUser(),
        ToVideoFiles(OrElse(item.videoFiles, [])),
        ToVideoPictures(OrElse(item.videoPictures, []))))
    else
      Some(Unknown(item.id, item.width, item.height, item.url, item.typeTag))
  }

  datatype CollectionMediaApiResponse = CollectionMediaApiResponse(
    media: seq<CollectionMediaItem>, page: Int32, perPage: Int32, totalResults: Int32,
    nextPage: Option<string> := None, prevPage: Option<string> := None, id: string)
  {
    /** The envelope is copied; the items are `media.mapNotNull { it.toCollectionMedia() }`. */
    function ToPaginatedResponse(): (p: PaginatedResponse<CollectionMedia>)
      ensures p.data == MapNotNull(media, ToCollectionMedia)
      ensures SameEnvelope(p, page, perPage, totalResults, nextPage, prevPage)
    {
      PaginatedResponse(MapNotNull(media, ToCollectionMedia), page, perPage, totalResults, nextPage, prevPage)
    }
  }

  /** How many records of a listing are dropped, counted by `Dropped` alone. */
  function DroppedCount(media: seq<CollectionMediaItem>): nat
  {
    if media == [] then 0 else (if Dropped(media[0]) then 1 else 0) + DroppedCount(media[1..])
  }

  /** The records `mapNotNull` discards are exactly the dropped ones. */
  lemma {:induction false} DroppedCountIsNullCount(media: seq<CollectionMediaItem>)
    ensures DroppedCount(media) == CountNull(media, ToCollectionMedia)
  {
    if media != [] {
      DroppedCountIsNullCount(media[1..]);
    }
  }

  // ---------------------------------------------------------------------------
  // Properties of a collection media page

  /** The page holds one item per record except the dropped ones. */
  lemma CollectionMediaPageSize(r: CollectionMediaApiResponse)
    ensures |r.ToPaginatedResponse().data| + DroppedCount(r.media) == |r.media|
    ensures |r.ToPaginatedResponse().data| <= |r.media|
  {
    MapNotNullLength(r.media, ToCollectionMedia);
    DroppedCountIsNullCount(r.media);
  }

  /** Without dropped records, item `i` of the page converts record `i`, and nothing is lost. */
  lemma CollectionMediaPageInOrder(r: CollectionMediaApiResponse)
    requires forall i :: 0 <= i < |r.media| ==> !Dropped(r.media[i])
    ensures |r.ToPaginatedResponse().data| == |r.media|
    ensures forall i :: 0 <= i < |r.media| ==>
      Some(r.ToPaginatedResponse().data[i]) == ToCollectionMedia(r.media[i])
  {
    MapNotNullTotal(r.media, ToCollectionMedia);
  }

  /** A record with an unrecognised tag always reaches the page, as an `Unknown`. */
  lemma UnrecognisedTagKept(r: CollectionMediaApiResponse, i: int)
    requires 0 <= i < |r.media|
    requires r.media[i].typeTag != "Photo" && r.media[i].typeTag != "Video"
    ensures var m := r.media[i];
      Unknown(m.id, m.width, m.height, m.url, m.typeTag) in r.ToPaginatedResponse().data
  {
    var m := r.media[i];
    MapNotNullMembership(r.media, ToCollectionMedia, Unknown(m.id, m.width, m.height, m.url, m.typeTag));
  }

  /** Every item on the page comes from some record of the listing. */
  lemma CollectionMediaItemsHaveSource(r: CollectionMediaApiResponse, x: CollectionMedia)
    requires x in r.ToPaginatedResponse().data
    ensures exists i :: 0 <= i < |r.media| && ToCollectionMedia(r.media[i]) == Some(x)
  {
    MapNotNullMembership(r.media, ToCollectionMedia, x);
  }

  /**
   * The tag is matched exactly: "photo" is not "Photo", so a lower-case
   * photo record becomes an `Unknown` even when it carries a `src`.
   */
  lemma TagIsCaseSensitive(item: CollectionMediaItem)
    requires item.typeTag == "photo"
    ensures ToCollectionMedia(item) == Some(Unknown(item.id, item.width, item.height, item.url, "photo"))
  {
  }

  /** A record that converts to `null` leaves no trace: the page is that of the listing without it. */
  lemma DroppedRecordOmitted(r: CollectionMediaApiResponse, i: int)
    requires 0 <= i < |r.media| && ToCollectionMedia(r.media[i]).None?
    ensures r.ToPaginatedResponse().data == MapNotNull(r.media[..i] + r.media[i + 1..], ToCollectionMedia)
  {
    var f: CollectionMediaItem -> Option<CollectionMedia> := ToCollectionMedia;
    assert r.media == r.media[..i] + ([r.media[i]] + r.media[i + 1..]);
    MapNotNullAppend(r.media[..i], [r.media[i]] + r.media[i + 1..], f);
    MapNotNullAppend([r.media[i]], r.media[i + 1..], f);
    assert [r.media[i]][1..] == [];
    assert MapNotNull([r.media[i]], f) == [];
    MapNotNullAppend(r.media[..i], r.media[i + 1..], f);
  }

  /**
   * A photo record without `src`, wherever it stands in the listing,
   * disappears from the page: the page is the one the other records give.
   */
  lemma PhotoWithoutSourceDropped(r: CollectionMediaApiResponse, i: int)
    requires 0 <= i < |r.media| && r.media[i].typeTag == "Photo" && r.media[i].src.None?
    ensures r.ToPaginatedResponse().data == MapNotNull(r.media[..i] + r.media[i + 1..], ToCollectionMedia)
    ensures |r.ToPaginatedResponse().data| < |r.media|
  {
    DroppedRecordOmitted(r, i);
    MapNotNullLength(r.media[..i] + r.media[i + 1..], ToCollectionMedia);
  }

  /**
   * A video record without `user`, wherever it stands in the listing,
   * disappears from the page: the page is the one the other records give.
   */
  lemma VideoWithoutUserDropped(r: CollectionMediaApiResponse, i: int)
    requires 0 <= i < |r.media| && r.media[i].typeTag == "Video" && r.media[i].user.None?
    ensures r.ToPaginatedResponse().data == MapNotNull(r.media[..i] + r.media[i + 1..], ToCollectionMedia)
    ensures |r.ToPaginatedResponse().data| < |r.media|
  {
    DroppedRecordOmitted(r, i);
    MapNotNullLength(r.media[..i] + r.media[i + 1..], ToCollectionMedia);
  }

  /** A converted page has a neighbour exactly when the response carried its link. */
  lemma NeighboursFollowLinks(
    photos: PhotosApiResponse, videos: VideosApiResponse,
    collections: CollectionsApiResponse, media: CollectionMediaApiResponse)
    ensures photos.ToPaginatedResponse().HasNextPage() <==> photos.nextPage.Some?
    ensures photos.ToPaginatedResponse().HasPrevPage() <==> photos.prevPage.Some?
    ensures videos.ToPaginatedResponse().HasNextPage() <==> videos.nextPage.Some?
    ensures videos.ToPaginatedResponse().HasPrevPage() <==> videos.prevPage.Some?
    ensures collections.ToPaginatedResponse().HasNextPage() <==> collections.nextPage.Some?
    ensures collections.ToPaginatedResponse().HasPrevPage() <==> collections.prevPage.Some?
    ensures media.ToPaginatedResponse().HasNextPage() <==> media.nextPage.Some?
    ensures media.ToPaginatedResponse().HasPrevPage() <==> media.prevPage.Some?
  {
  }
}
