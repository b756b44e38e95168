/**
 * `CollectionMedia`: the closed family of items a collection listing holds.
 * A photo, a video, or a record of a kind this client does not know, kept with
 * its original type tag so that nothing the API adds later is lost.
 */
module Media {
  import opened KotlinLang
  import opened Model

  /** `CollectionMedia.Type`. */
  datatype Type = PHOTO | VIDEO | UNKNOWN

  datatype CollectionMedia =
    | PhotoMedia(
        id: Int64,
        width: Int32,
        height: Int32,
        url: string,
        photographer: string,
        photographerUrl: string,
        photographerId: Int64,
        avgColor: string,
        src: PhotoSource,
        alt: string,
        liked: bool)
    | VideoMedia(
        id: Int64,
        width: Int32,
        height: Int32,
        url: string,
        image: string,
        fullRes: Option<string>,
        tags: seq<string>,
        duration: Int32,
        user: User,
        videoFiles: seq<VideoFile>,
        videoPictures: seq<VideoPicture>)
    | Unknown(
        id: Int64,
        width: Int32,
        height: Int32,
        url: string,
        originalType: string)
  {
    /** The `type` property: fixed per variant. */
    function Kind(): (t: Type)
      ensures t == PHOTO <==> this.PhotoMedia?
      ensures t == VIDEO <==> this.VideoMedia?
      ensures t == UNKNOWN <==> this.Unknown?
    {
      match this
      case PhotoMedia(_, _, _, _, _, _, _, _, _, _, _) => PHOTO
      case VideoMedia(_, _, _, _, _, _, _, _, _, _, _) => VIDEO
      case Unknown(_, _, _, _, _) => UNKNOWN
    }

    /** `asPhoto()`: this same value when it is a photo, otherwise `null`. */
    function AsPhoto(): (r: Option<CollectionMedia>)
      ensures r.Some? <==> Kind() == PHOTO
      ensures r.Some? ==> r.value == this
    {
      if this.PhotoMedia? then Some(this) else None
    }

    /** `asVideo()`: this same value when it is a video, otherwise `null`. */
    function AsVideo(): (r: Option<CollectionMedia>)
      ensures r.Some? <==> Kind() == VIDEO
      ensures r.Some? ==> r.value == this
    {
      if this.VideoMedia? then Some(this) else None
    }

    /** `asUnknown()`: this same value when its kind is unknown, otherwise `null`. */
    function AsUnknown(): (r: Option<CollectionMedia>)
      ensures r.Some? <==> Kind() == UNKNOWN
      ensures r.Some? ==> r.value == this
    {
      if this.Unknown? then Some(this) else None
    }
  }

  /** Exactly one of the three casts succeeds on every item. */
  lemma ExactlyOneCast(m: CollectionMedia)
    ensures m.AsPhoto().Some? || m.AsVideo().Some? || m.AsUnknown().Some?
    ensures !(m.AsPhoto().Some? && m.AsVideo().Some?)
    ensures !(m.AsPhoto().Some? && m.AsUnknown().Some?)
    ensures !(m.AsVideo().Some? && m.AsUnknown().Some?)
  {
  }

  /** An `Unknown` item exposes exactly what it was built from. */
  lemma UnknownKeepsFields(id: Int64, width: Int32, height: Int32, url: string, tag: string)
    ensures var m := Unknown(id, width, height, url, tag);
      m.id == id && m.width == width && m.height == height && m.url == url
      && m.originalType == tag && m.Kind() == UNKNOWN && m.AsUnknown() == Some(m)
  {
  }
}
