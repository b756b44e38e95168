/**
 * The request-side values of the client: the filter enums with the strings
 * they are sent as, pagination parameters, and the photo and video search
 * filters with the checks their constructors perform.
 */
module Request {
  import opened KotlinLang

  // ---------------------------------------------------------------------------
  // Enums and their wire strings

  datatype Orientation = LANDSCAPE | PORTRAIT | SQUARE
  {
    function Value(): string
    {
      match this
      case LANDSCAPE => "landscape"
      case PORTRAIT => "portrait"
      case SQUARE => "square"
    }
  }

  datatype Size = LARGE | MEDIUM | SMALL
  {
    function Value(): string
    {
      match this
      case LARGE => "large"
      case MEDIUM => "medium"
      case SMALL => "small"
    }
  }

  datatype Color =
    RED | ORANGE | YELLOW | GREEN | TURQUOISE | BLUE | VIOLET | PINK | BROWN | BLACK | GRAY | WHITE
  {
    function Value(): string
    {
      match this
      case RED => "red"
      case ORANGE => "orange"
      case YELLOW => "yellow"
      case GREEN => "green"
      case TURQUOISE => "turquoise"
      case BLUE => "blue"
      case VIOLET => "violet"
      case PINK => "pink"
      case BROWN => "brown"
      case BLACK => "black"
      case GRAY => "gray"
      case WHITE => "white"
    }
  }

  datatype Locale =
    EN_US | PT_BR | ES_ES | CA_ES | DE_DE | IT_IT | FR_FR | SV_SE | ID_ID | PL_PL
    | JA_JP | ZH_TW | ZH_CN | KO_KR | TH_TH | NL_NL | HU_HU | VI_VN | CS_CZ | DA_DK
    | FI_FI | UK_UA | EL_GR | RO_RO | NB_NO | SK_SK | TR_TR | RU_RU
  {
    function Value(): string
    {
      match this
      case EN_US => "en-US"
      case PT_BR => "pt-BR"
      case ES_ES => "es-ES"
      case CA_ES => "ca-ES"
      case DE_DE => "de-DE"
      case IT_IT => "it-IT"
      case FR_FR => "fr-FR"
      case SV_SE => "sv-SE"
      case ID_ID => "id-ID"
      case PL_PL => "pl-PL"
      case JA_JP => "ja-JP"
      case ZH_TW => "zh-TW"
      case ZH_CN => "zh-CN"
      case KO_KR => "ko-KR"
      case TH_TH => "th-TH"
      case NL_NL => "nl-NL"
      case HU_HU => "hu-HU"
      case VI_VN => "vi-VN"
      case CS_CZ => "cs-CZ"
      case DA_DK => "da-DK"
      case FI_FI => "fi-FI"
      case UK_UA => "uk-UA"
      case EL_GR => "el-GR"
      case RO_RO => "ro-RO"
      case NB_NO => "nb-NO"
      case SK_SK => "sk-SK"
      case TR_TR => "tr-TR"
      case RU_RU => "ru-RU"
    }
  }

  datatype MediaType = PHOTOS | VIDEOS
  {
    function Value(): string
    {
      match this
      case PHOTOS => "photos"
      case VIDEOS => "videos"
    }
  }

  /** The orientation a wire string names, if any: the inverse of `Orientation.Value`. */
  function OrientationOf(s: string): (o: Option<Orientation>)
    ensures o.Some? ==> o.value.Value() == s
  {
    if s == "landscape" then Some(LANDSCAPE)
    else if s == "portrait" then Some(PORTRAIT)
    else if s == "square" then Some(SQUARE)
    else None
  }

  /** The size a wire string names, if any: the inverse of `Size.Value`. */
  function SizeOf(s: string): (z: Option<Size>)
    ensures z.Some? ==> z.value.Value() == s
  {
    if s == "large" then Some(LARGE)
    else if s == "medium" then Some(MEDIUM)
    else if s == "small" then Some(SMALL)
    else None
  }

  /** The media type a wire string names, if any: the inverse of `MediaType.Value`. */
  function MediaTypeOf(s: string): (t: Option<MediaType>)
    ensures t.Some? ==> t.value.Value() == s
  {
    if s == "photos" then Some(PHOTOS) else if s == "videos" then Some(VIDEOS) else None
  }

  predicate IsLower(c: char) { 'a' <= c <= 'z' }
  predicate IsUpper(c: char) { 'A' <= c <= 'Z' }

  /** A language tag of the form `ll-CC`: two lower-case letters, a hyphen, two upper-case letters. */
  predicate IsLanguageTag(s: string)
  {
    |s| == 5 && IsLower(s[0]) && IsLower(s[1]) && s[2] == '-' && IsUpper(s[3]) && IsUpper(s[4])
  }

  /** A language tag whose language letters are `l1 l2` and whose country letters are `c1 c2`. */
  predicate Tag(s: string, l1: char, l2: char, c1: char, c2: char)
    requires IsLanguageTag(s)
  {
    s[0] == l1 && s[1] == l2 && s[3] == c1 && s[4] == c2
  }

  /**
   * The locale a wire string names, if any: read letter by letter from the
   * tag rather than from the table, so that it is an independent inverse of
   * `Locale.Value`.
   */
  function LocaleOf(s: string): (l: Option<Locale>)
  {
    if !IsLanguageTag(s) then None
    else
      if Tag(s, 'e', 'n', 'U', 'S') then Some(EN_US)
      else if Tag(s, 'p', 't', 'B', 'R') then Some(PT_BR)
      else if Tag(s, 'e', 's', 'E', 'S') then Some(ES_ES)
      else if Tag(s, 'c', 'a', 'E', 'S') then Some(CA_ES)
      else if Tag(s, 'd', 'e', 'D', 'E') then Some(DE_DE)
      else if Tag(s, 'i', 't', 'I', 'T') then Some(IT_IT)
      else if Tag(s, 'f', 'r', 'F', 'R') then Some(FR_FR)
      else if Tag(s, 's', 'v', 'S', 'E') then Some(SV_SE)
      else if Tag(s, 'i', 'd', 'I', 'D') then Some(ID_ID)
      else if Tag(s, 'p', 'l', 'P', 'L') then Some(PL_PL)
      else if Tag(s, 'j', 'a', 'J', 'P') then Some(JA_JP)
      else if Tag(s, 'z', 'h', 'T', 'W') then Some(ZH_TW)
      else if Tag(s, 'z', 'h', 'C', 'N') then Some(ZH_CN)
      else if Tag(s, 'k', 'o', 'K', 'R') then Some(KO_KR)
      else if Tag(s, 't', 'h', 'T', 'H') then Some(TH_TH)
      else if Tag(s, 'n', 'l', 'N', 'L') then Some(NL_NL)
      else if Tag(s, 'h', 'u', 'H', 'U') then Some(HU_HU)
      else if Tag(s, 'v', 'i', 'V', 'N') then Some(VI_VN)
      else if Tag(s, 'c', 's', 'C', 'Z') then Some(CS_CZ)
      else if Tag(s, 'd', 'a', 'D', 'K') then Some(DA_DK)
      else if Tag(s, 'f', 'i', 'F', 'I') then Some(FI_FI)
      else if Tag(s, 'u', 'k', 'U', 'A') then Some(UK_UA)
      else if Tag(s, 'e', 'l', 'G', 'R') then Some(EL_GR)
      else if Tag(s, 'r', 'o', 'R', 'O') then Some(RO_RO)
      else if Tag(s, 'n', 'b', 'N', 'O') then Some(NB_NO)
      else if Tag(s, 's', 'k', 'S', 'K') then Some(SK_SK)
      else if Tag(s, 't', 'r', 'T', 'R') then Some(TR_TR)
      else if Tag(s, 'r', 'u', 'R', 'U') then Some(RU_RU)
      else None
  }

  /** Each orientation, size and media type is read back from its wire string. */
  lemma SmallEnumsRoundTrip(o: Orientation, z: Size, t: MediaType)
    ensures OrientationOf(o.Value()) == Some(o)
    ensures SizeOf(z.Value()) == Some(z)
    ensures MediaTypeOf(t.Value()) == Some(t)
  {
  }

  /** Every locale is sent as an `ll-CC` tag and is read back from it. */
  lemma LocaleRoundTrip(l: Locale)
    ensures IsLanguageTag(l.Value())
    ensures LocaleOf(l.Value()) == Some(l)
  {
    match l
    case EN_US =>
    case PT_BR =>
    case ES_ES =>
    case CA_ES =>
    case DE_DE =>
    case IT_IT =>
    case FR_FR =>
    case SV_SE =>
    case ID_ID =>
    case PL_PL =>
    case JA_JP =>
    case ZH_TW =>
    case ZH_CN =>
    case KO_KR =>
    case TH_TH =>
    case NL_NL =>
    case HU_HU =>
    case VI_VN =>
    case CS_CZ =>
    case DA_DK =>
    case FI_FI =>
    case UK_UA =>
    case EL_GR =>
    case RO_RO =>
    case NB_NO =>
    case SK_SK =>
    case TR_TR =>
    case RU_RU =>
  }

  /** Distinct enum constants are sent as distinct strings. */
  lemma ValuesInjective(o1: Orientation, o2: Orientation, z1: Size, z2: Size,
                        l1: Locale, l2: Locale, t1: MediaType, t2: MediaType)
    ensures o1.Value() == o2.Value() ==> o1 == o2
    ensures z1.Value() == z2.Value() ==> z1 == z2
    ensures l1.Value() == l2.Value() ==> l1 == l2
    ensures t1.Value() == t2.Value() ==> t1 == t2
  {
    SmallEnumsRoundTrip(o1, z1, t1);
    SmallEnumsRoundTrip(o2, z2, t2);
    LocaleRoundTrip(l1);
    LocaleRoundTrip(l2);
  }

  /** Every color name is a non-empty run of lower-case letters. */
  lemma ColorValuesLowercase(c: Color)
    ensures |c.Value()| > 0
    ensures forall i :: 0 <= i < |c.Value()| ==> IsLower(c.Value()[i])
  {
  }

  /** The color a wire string names, if any: the inverse of `Color.Value`. */
  function ColorOf(s: string): (c: Option<Color>)
    ensures c.Some? ==> c.value.Value() == s
  {
    if s == "red" then Some(RED)
    else if s == "orange" then Some(ORANGE)
    else if s == "yellow" then Some(YELLOW)
    else if s == "green" then Some(GREEN)
    else if s == "turquoise" then Some(TURQUOISE)
    else if s == "blue" then Some(BLUE)
    else if s == "violet" then Some(VIOLET)
    else if s == "pink" then Some(PINK)
    else if s == "brown" then Some(BROWN)
    else if s == "black" then Some(BLACK)
    else if s == "gray" then Some(GRAY)
    else if s == "white" then Some(WHITE)
    else None
  }

  /** Each color is read back from its name, so distinct colors have distinct names. */
  lemma ColorRoundTrip(c: Color, d: Color)
    ensures ColorOf(c.Value()) == Some(c)
    ensures c.Value() == d.Value() ==> c == d
  {
  }

  // ---------------------------------------------------------------------------
  // PaginationParams

  /** The fields of `PaginationParams`, before its `init` checks. */
  datatype Pagination = Pagination(page: Int32 := 1, perPage: Option<Int32> := None)
  {
    predicate Valid()
    {
      page >= 1 && (perPage.None? || 1 <= perPage.value <= 80)
    }
  }

  /** A `PaginationParams` that exists: one whose `init` checks held. */
  type PaginationParams = p: Pagination | p.Valid() witness Pagination(1, None)

  /** `PaginationParams(page, perPage)`: the page is checked first, then the page size. */
  function NewPaginationParams(page: Int32 := 1, perPage: Option<Int32> := None): (r: Checked<PaginationParams>)
    ensures r.Passed? <==> page >= 1 && (perPage.None? || 1 <= perPage.value <= 80)
    ensures r.Passed? ==> r.value.page == page && r.value.perPage == perPage
    ensures page < 1 ==> r == IllegalArgument("page must be >= 1")
    ensures page >= 1 && r.IllegalArgument? ==> r.message == "perPage must be between 1 and 80"
  {
    if page < 1 then IllegalArgument("page must be >= 1")
    else if perPage.Some? && !(1 <= perPage.value <= 80) then IllegalArgument("perPage must be between 1 and 80")
    else Passed(Pagination(page, perPage))
  }

  /** The boundary cases: 1 and 80 are accepted, 0, 81 and -1 are not, and no size is always accepted. */
  lemma PaginationBounds(page: Int32)
    requires page >= 1
    ensures NewPaginationParams(page, Some(1)).Passed? && NewPaginationParams(page, Some(80)).Passed?
    ensures NewPaginationParams(page, Some(0)).IllegalArgument?
    ensures NewPaginationParams(page, Some(81)).IllegalArgument?
    ensures NewPaginationParams(page, Some(-1)).IllegalArgument?
    ensures NewPaginationParams(page, None) == Passed(Pagination(page, None))
    ensures NewPaginationParams() == Passed(Pagination(1, None))
    ensures NewPaginationParams(0).IllegalArgument?
  {
  }

  // ---------------------------------------------------------------------------
  // PhotoFilters

  /** `PhotoFilters`: no checks; every field defaults to `null`. */
  datatype PhotoFilters = PhotoFilters(
    orientation: Option<Orientation> := None,
    size: Option<Size> := None,
    color: Option<string> := None,
    locale: Option<Locale> := None)

  predicate IsHexDigit(c: char)
  {
    ('0' <= c <= '9') || ('A' <= c <= 'F') || ('a' <= c <= 'f')
  }

  /** The regular expression `^[0-9A-Fa-f]{6}$`, matched against the whole string. */
  predicate IsHexColor(s: string)
  {
    |s| == 6 && forall i :: 0 <= i < 6 ==> IsHexDigit(s[i])
  }

  /** `PhotoFilters.withColor(color)`: only the color is set, to its name. */
  function WithColor(color: Color): (f: PhotoFilters)
    ensures f.color == Some(color.Value())
    ensures f.orientation.None? && f.size.None? && f.locale.None?
  {
    PhotoFilters(color := Some(color.Value()))
  }

  /** `PhotoFilters.withHexColor(hexColor)`: only the color is set, to the code as given. */
  function WithHexColor(hexColor: string): (r: Checked<PhotoFilters>)
    ensures r.Passed? <==> IsHexColor(hexColor)
    ensures r.Passed? ==> r.value == PhotoFilters(color := Some(hexColor))
    ensures r.IllegalArgument? ==> r.message == "hexColor must be a valid 6-digit hexadecimal string"
  {
    if IsHexColor(hexColor) then Passed(PhotoFilters(color := Some(hexColor)))
    else IllegalArgument("hexColor must be a valid 6-digit hexadecimal string")
  }

  /** No color name is a hex code, so the two factories never build the same filters. */
  lemma NamedAndHexColorsDisjoint(c: Color, hex: string)
    ensures !IsHexColor(c.Value())
    ensures WithHexColor(hex).Passed? ==> WithHexColor(hex).value != WithColor(c)
  {
    var v := c.Value();
    if |v| == 6 {
      assert !IsHexDigit(v[0]);
    }
  }

  /** The hex check on typical inputs: the length is exact and `#` or `G` is refused. */
  lemma HexColorExamples()
    ensures IsHexColor("FF5733") && IsHexColor("ff5733") && IsHexColor("000000")
    ensures !IsHexColor("FF573") && !IsHexColor("FF57333") && !IsHexColor("#FF5733")
    ensures !IsHexColor("GG5733") && !IsHexColor("")
  {
    assert !IsHexDigit("GG5733"[0]);
  }

  // ---------------------------------------------------------------------------
  // VideoFilters

  /** The fields of `VideoFilters`, before its `init` checks. */
  datatype VideoFilterFields = VideoFilterFields(
    orientation: Option<Orientation> := None,
    size: Option<Size> := None,
    locale: Option<Locale> := None,
    minWidth: Option<Int32> := None,
    minHeight: Option<Int32> := None,
    minDuration: Option<Int32> := None,
    maxDuration: Option<Int32> := None)
  {
    predicate Valid()
    {
      PositiveOrNull(minWidth) && PositiveOrNull(minHeight)
      && PositiveOrNull(minDuration) && PositiveOrNull(maxDuration)
      && (minDuration.Some? && maxDuration.Some? ==> minDuration.value <= maxDuration.value)
    }
  }

  predicate PositiveOrNull(n: Option<Int32>)
  {
    n.None? || n.value > 0
  }

  /** A `VideoFilters` that exists: one whose `init` checks held. */
  type VideoFilters = f: VideoFilterFields | f.Valid() witness VideoFilterFields()

  /**
   * `VideoFilters(...)`: the four numeric fields are checked in declaration
   * order, then the order of the two durations; the first failing check
   * gives the message.
   */
  function NewVideoFilters(
    orientation: Option<Orientation> := None,
    size: Option<Size> := None,
    locale: Option<Locale> := None,
    minWidth: Option<Int32> := None,
    minHeight: Option<Int32> := None,
    minDuration: Option<Int32> := None,
    maxDuration: Option<Int32> := None): (r: Checked<VideoFilters>)
    ensures r.Passed? <==>
      PositiveOrNull(minWidth) && PositiveOrNull(minHeight)
      && PositiveOrNull(minDuration) && PositiveOrNull(maxDuration)
      && (minDuration.Some? && maxDuration.Some? ==> minDuration.value <= maxDuration.value)
    ensures r.Passed? ==>
      r.value == VideoFilterFields(orientation, size, locale, minWidth, minHeight, minDuration, maxDuration)
    ensures !PositiveOrNull(minWidth) ==> r == IllegalArgument("minWidth must be positive")
    ensures PositiveOrNull(minWidth) && !PositiveOrNull(minHeight)
      ==> r == IllegalArgument("minHeight must be positive")
    ensures PositiveOrNull(minWidth) && PositiveOrNull(minHeight) && !PositiveOrNull(minDuration)
      ==> r == IllegalArgument("minDuration must be positive")
    ensures PositiveOrNull(minWidth) && PositiveOrNull(minHeight) && PositiveOrNull(minDuration)
      && !PositiveOrNull(maxDuration)
      ==> r == IllegalArgument("maxDuration must be positive")
    ensures PositiveOrNull(minWidth) && PositiveOrNull(minHeight) && PositiveOrNull(minDuration)
      && PositiveOrNull(maxDuration) && r.IllegalArgument?
      ==> r.message == "minDuration must be <= maxDuration"
  {
    if !PositiveOrNull(minWidth) then IllegalArgument("minWidth must be positive")
    else if !PositiveOrNull(minHeight) then IllegalArgument("minHeight must be positive")
    else if !PositiveOrNull(minDuration) then IllegalArgument("minDuration must be positive")
    else if !PositiveOrNull(maxDuration) then IllegalArgument("maxDuration must be positive")
    else if minDuration.Some? && maxDuration.Some? && minDuration.value > maxDuration.value then
      IllegalArgument("minDuration must be <= maxDuration")
    else Passed(VideoFilterFields(orientation, size, locale, minWidth, minHeight, minDuration, maxDuration))
  }

  /** Orientation, size and locale never decide whether the filters can be built. */
  lemma VideoFilterEnumsUnconstrained(
    o: Option<Orientation>, z: Option<Size>, l: Option<Locale>,
    minWidth: Option<Int32>, minHeight: Option<Int32>, minDuration: Option<Int32>, maxDuration: Option<Int32>)
    ensures NewVideoFilters(o, z, l, minWidth, minHeight, minDuration, maxDuration).Passed?
      == NewVideoFilters(None, None, None, minWidth, minHeight, minDuration, maxDuration).Passed?
  {
  }

  /** The all-`null` filters are valid, and equal durations are allowed. */
  lemma VideoFilterExamples(d: Int32)
    requires 0 < d < INT_MAX
    ensures NewVideoFilters() == Passed(VideoFilterFields())
    ensures NewVideoFilters(minDuration := Some(d), maxDuration := Some(d)).Passed?
    ensures NewVideoFilters(minWidth := Some(0)) == IllegalArgument("minWidth must be positive")
    ensures NewVideoFilters(minDuration := Some(d + 1), maxDuration := Some(d)).IllegalArgument?
  {
  }
}
