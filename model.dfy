/**
 * The plain records of the `model` package and `RateLimitInfo`. They carry no
 * behaviour of their own; the decoders and the classifier build them.
 */
module Model {
  import opened KotlinLang

  /** A JVM `Double`, carried through unchanged and never computed with. */
  datatype Float64 = Float64(bits: bv64)

  datatype PhotoSource = PhotoSource(
    original: string,
    large2x: string,
    large: string,
    medium: string,
    small: string,
    portrait: string,
    landscape: string,
    tiny: string)

  datatype User = User(id: Int64, name: string, url: string)

  datatype Photo = Photo(
    id: Int64,
    width: Int32,
    height: Int32,
    url: string,
    photographer: string,
    photographerUrl: string,
    photographerId: Int64,
    avgColor: string,
    src: PhotoSource,
    alt: string,
    liked: bool := false)

  datatype VideoFile = VideoFile(
    id: Int64,
    quality: string,
    fileType: string,
    width: Option<Int32>,
    height: Option<Int32>,
    fps: Option<Float64>,
    link: string)

  datatype VideoPicture = VideoPicture(id: Int64, picture: string, nr: Int32)

  datatype Video = Video(
    id: Int64,
    width: Int32,
    height: Int32,
    url: string,
    image: string,
    fullRes: Option<string>,
    tags: seq<string> := [],
    duration: Int32,
    user: User,
    videoFiles: seq<VideoFile>,
    videoPictures: seq<VideoPicture>)

  datatype Collection = Collection(
    id: string,
    title: string,
    description: Option<string>,
    isPrivate: bool,
    mediaCount: Int32,
    photosCount: Int32,
    videosCount: Int32)

  /** Rate-limit headers of a response: requests per window, requests left, reset time (Unix seconds). */
  datatype RateLimitInfo = RateLimitInfo(limit: Int32, remaining: Int32, reset: Int64)
}
