/**
 * The three resource façades, `PhotosApi`, `VideosApi` and `CollectionsApi`.
 * Each method assembles one GET request (an endpoint and query parameters
 * appended one by one, optional ones only when set), hands it to the
 * executor, and maps a list response to its page.
 *
 * The exchange itself is a parameter: `transport` gives the outcome of
 * sending a request and `decode` the JSON decoding of the body as the
 * method's response type.
 */
module Api {
  import opened KotlinLang
  import opened Model
  import opened Media
  import opened Results
  import opened Pages
  import opened Executor
  import opened ApiResponses
  import opened Request
  import opened Endpoints
  import Config

  /** Query parameters in the order they were appended, as (name, rendered value). */
  type Parameters = seq<(string, string)>

  /** A GET request: the endpoint and its query parameters. */
  datatype HttpRequest = HttpRequest(url: string, parameters: Parameters)

  /** One façade call: the request it sent and the result it returned. */
  datatype Call<+T> = Call(request: HttpRequest, result: PexKitResult<T>)

  // ---------------------------------------------------------------------------
  // Parameter lists

  /** ktor's `parameter(name, value)` for an optional value: appended only when present. */
  function Opt(name: string, value: Option<string>): Parameters
  {
    if value.Some? then [(name, value.value)] else []
  }

  /**
   * A `defaultPerPage` a façade can hold: the client passes the one of its
   * `PexKitConfig`, whose `init` kept it within 1..80.
   */
  type PageSize = n: Int32 | 1 <= n <= 80 witness 15

  /** `pagination.perPage ?: defaultPerPage`: always a page size the API accepts. */
  function PerPage(pagination: PaginationParams, defaultPerPage: PageSize): (n: Int32)
    ensures 1 <= n <= 80
    ensures pagination.perPage.Some? ==> n == pagination.perPage.value
    ensures pagination.perPage.None? ==> n == defaultPerPage
  {
    if pagination.perPage.Some? then pagination.perPage.value else defaultPerPage
  }

  /** An optional integer filter rendered with `toString()`. */
  function IntParam(n: Option<Int32>): Option<string>
  {
    if n.Some? then Some(IntToString(n.value)) else None
  }

  function OrientationParam(o: Option<Orientation>): Option<string>
  {
    if o.Some? then Some(o.value.Value()) else None
  }

  function SizeParam(z: Option<Size>): Option<string>
  {
    if z.Some? then Some(z.value.Value()) else None
  }

  function LocaleParam(l: Option<Locale>): Option<string>
  {
    if l.Some? then Some(l.value.Value()) else None
  }

  function MediaTypeParam(t: Option<MediaType>): Option<string>
  {
    if t.Some? then Some(t.value.Value()) else None
  }

  /** `page`, then `per_page`, which every list endpoint sends. */
  function PageParameters(pagination: PaginationParams, defaultPerPage: PageSize): Parameters
  {
    [("page", IntToString(pagination.page)), ("per_page", IntToString(PerPage(pagination, defaultPerPage)))]
  }

  function PhotoSearchParameters(
    query: string, filters: PhotoFilters, pagination: PaginationParams, defaultPerPage: PageSize): Parameters
  {
    [("query", query)] + PageParameters(pagination, defaultPerPage)
    + Opt("orientation", OrientationParam(filters.orientation))
    + Opt("size", SizeParam(filters.size))
    + Opt("color", filters.color)
    + Opt("locale", LocaleParam(filters.locale))
  }

  /** `base` followed by the four numeric video filters, in the order both video endpoints append them. */
  function WithNumericFilters(base: Parameters, filters: VideoFilters): Parameters
  {
    base
    + Opt("min_width", IntParam(filters.minWidth))
    + Opt("min_height", IntParam(filters.minHeight))
    + Opt("min_duration", IntParam(filters.minDuration))
    + Opt("max_duration", IntParam(filters.maxDuration))
  }

  function VideoSearchParameters(
    query: string, filters: VideoFilters, pagination: PaginationParams, defaultPerPage: PageSize): Parameters
  {
    WithNumericFilters(
      [("query", query)] + PageParameters(pagination, defaultPerPage)
      + Opt("orientation", OrientationParam(filters.orientation))
      + Opt("size", SizeParam(filters.size))
      + Opt("locale", LocaleParam(filters.locale)),
      filters)
  }

  function VideoPopularParameters(filters: VideoFilters, pagination: PaginationParams, defaultPerPage: PageSize): Parameters
  {
    WithNumericFilters(PageParameters(pagination, defaultPerPage), filters)
  }

  function CollectionMediaParameters(
    mediaType: Option<MediaType>, pagination: PaginationParams, defaultPerPage: PageSize): Parameters
  {
    PageParameters(pagination, defaultPerPage) + Opt("type", MediaTypeParam(mediaType))
  }

  /** The blank check comes first, then the length in UTF-16 units. */
  predicate VideoQueryAccepted(query: string)
  {
    !IsBlank(query) && Utf16Length(query) <= 200
  }

  /**
   * The 200 limit counts UTF-16 units: a query of characters from the Basic
   * Multilingual Plane may have 200 of them, one of characters beyond it
   * (emoji, say) only 100.
   */
  lemma VideoQueryLimit(query: string)
    requires !IsBlank(query)
    ensures (forall i :: 0 <= i < |query| ==> query[i] as int <= 0xFFFF)
      ==> (VideoQueryAccepted(query) <==> |query| <= 200)
    ensures (forall i :: 0 <= i < |query| ==> query[i] as int > 0xFFFF)
      ==> (VideoQueryAccepted(query) <==> |query| <= 100)
    ensures |query| > 200 ==> !VideoQueryAccepted(query)
  {
    Utf16LengthBounds(query);
  }

  // The `toPaginatedResponse` conversions as function values for `map`.
  function PhotoPage(r: PhotosApiResponse): PaginatedResponse<Photo> { r.ToPaginatedResponse() }
  function VideoPage(r: VideosApiResponse): PaginatedResponse<Video> { r.ToPaginatedResponse() }
  function CollectionPage(r: CollectionsApiResponse): PaginatedResponse<Collection> { r.ToPaginatedResponse() }
  function CollectionMediaPage(r: CollectionMediaApiResponse): PaginatedResponse<CollectionMedia> { r.ToPaginatedResponse() }

  /**
   * The numeric video filters appended after `parameters`, each only when
   * set, as both video endpoints do.
   */
  method AppendNumericFilters(parameters: Parameters, filters: VideoFilters) returns (r: Parameters)
    ensures r == WithNumericFilters(parameters, filters)
  {
    r := parameters;
    ghost var sent := parameters;
    if filters.minWidth.Some? {
      r := r + [("min_width", IntToString(filters.minWidth.value))];
    }
    sent := sent + Opt("min_width", IntParam(filters.minWidth));
    assert r == sent;
    if filters.minHeight.Some? {
      r := r + [("min_height", IntToString(filters.minHeight.value))];
    }
    sent := sent + Opt("min_height", IntParam(filters.minHeight));
    assert r == sent;
    if filters.minDuration.Some? {
      r := r + [("min_duration", IntToString(filters.minDuration.value))];
    }
    sent := sent + Opt("min_duration", IntParam(filters.minDuration));
    assert r == sent;
    if filters.maxDuration.Some? {
      r := r + [("max_duration", IntToString(filters.maxDuration.value))];
    }
    sent := sent + Opt("max_duration", IntParam(filters.maxDuration));
    assert r == sent;
  }

  // ---------------------------------------------------------------------------
  // Reading a request back

  /** `url.parameters[name]`: the first value appended under `name`, if any. */
  function ParameterValue(parameters: Parameters, name: string): Option<string>
  {
    if parameters == [] then None
    else if parameters[0].0 == name then Some(parameters[0].1)
    else ParameterValue(parameters[1..], name)
  }

  /** A name is looked up in the earlier parameters first, then in the later ones. */
  lemma {:induction false} ParameterValueAppend(a: Parameters, b: Parameters, name: string)
    ensures ParameterValue(a + b, name)
      == if ParameterValue(a, name).Some? then ParameterValue(a, name) else ParameterValue(b, name)
  {
    if a == [] {
      assert a + b == b;
    } else {
      assert (a + b)[1..] == a[1..] + b;
      ParameterValueAppend(a[1..], b, name);
    }
  }

  /** An optional parameter is found under its own name only, with the value it was given. */
  lemma OptValue(name: string, value: Option<string>, other: string)
    ensures ParameterValue(Opt(name, value), other) == if other == name then value else None
  {
    if value.Some? {
      assert Opt(name, value)[1..] == [];
    }
  }

  /** Looking a name up after appending one optional parameter. */
  lemma AppendOptValue(parameters: Parameters, name: string, value: Option<string>, other: string)
    ensures ParameterValue(parameters + Opt(name, value), other)
      == if ParameterValue(parameters, other).Some? then ParameterValue(parameters, other)
         else if other == name then value else None
  {
    ParameterValueAppend(parameters, Opt(name, value), other);
    OptValue(name, value, other);
  }

  /** The parameter names the façades send are pairwise distinct. */
  lemma ParameterNamesDistinct()
    ensures "query" != "page"
    ensures "query" != "per_page"
    ensures "query" != "orientation"
    ensures "query" != "size"
    ensures "query" != "color"
    ensures "query" != "locale"
    ensures "query" != "min_width"
    ensures "query" != "min_height"
    ensures "query" != "min_duration"
    ensures "query" != "max_duration"
    ensures "query" != "type"
    ensures "page" != "per_page"
    ensures "page" != "orientation"
    ensures "page" != "size"
    ensures "page" != "color"
    ensures "page" != "locale"
    ensures "page" != "min_width"
    ensures "page" != "min_height"
    ensures "page" != "min_duration"
    ensures "page" != "max_duration"
    ensures "page" != "type"
    ensures "per_page" != "orientation"
    ensures "per_page" != "size"
    ensures "per_page" != "color"
    ensures "per_page" != "locale"
    ensures "per_page" != "min_width"
    ensures "per_page" != "min_height"
    ensures "per_page" != "min_duration"
    ensures "per_page" != "max_duration"
    ensures "per_page" != "type"
    ensures "orientation" != "size"
    ensures "orientation" != "color"
    ensures "orientation" != "locale"
    ensures "orientation" != "min_width"
    ensures "orientation" != "min_height"
    ensures "orientation" != "min_duration"
    ensures "orientation" != "max_duration"
    ensures "orientation" != "type"
    ensures "size" != "color"
    ensures "size" != "locale"
    ensures "size" != "min_width"
    ensures "size" != "min_height"
    ensures "size" != "min_duration"
    ensures "size" != "max_duration"
    ensures "size" != "type"
    ensures "color" != "locale"
    ensures "color" != "min_width"
    ensures "color" != "min_height"
    ensures "color" != "min_duration"
    ensures "color" != "max_duration"
    ensures "color" != "type"
    ensures "locale" != "min_width"
    ensures "locale" != "min_height"
    ensures "locale" != "min_duration"
    ensures "locale" != "max_duration"
    ensures "locale" != "type"
    ensures "min_width" != "min_height"
    ensures "min_width" != "min_duration"
    ensures "min_width" != "max_duration"
    ensures "min_width" != "type"
    ensures "min_height" != "min_duration"
    ensures "min_height" != "max_duration"
    ensures "min_height" != "type"
    ensures "min_duration" != "max_duration"
    ensures "min_duration" != "type"
    ensures "max_duration" != "type"
  {
  }

  /** The page parameters hold `page` and `per_page` and no other name. */
  lemma PageParametersValue(pagination: PaginationParams, defaultPerPage: PageSize, other: string)
    ensures ParameterValue(PageParameters(pagination, defaultPerPage), other)
      == if other == "page" then Some(IntToString(pagination.page))
         else if other == "per_page" then Some(IntToString(PerPage(pagination, defaultPerPage)))
         else None
  {
    var page := [("page", IntToString(pagination.page))];
    var perPage := Some(IntToString(PerPage(pagination, defaultPerPage)));
    assert PageParameters(pagination, defaultPerPage) == page + Opt("per_page", perPage);
    assert page[1..] == [];
    AppendOptValue(page, "per_page", perPage, other);
  }

  /** The query followed by the page parameters. */
  lemma QueryPageValue(query: string, pagination: PaginationParams, defaultPerPage: PageSize, other: string)
    ensures ParameterValue([("query", query)] + PageParameters(pagination, defaultPerPage), other)
      == if other == "query" then Some(query) else ParameterValue(PageParameters(pagination, defaultPerPage), other)
  {
    ParameterValueAppend([("query", query)], PageParameters(pagination, defaultPerPage), other);
    assert [("query", query)][1..] == [];
  }

  /**
   * What a photo search request holds under each name: the query, the page
   * parameters, each filter when set, and nothing under any other name.
   */
  lemma PhotoSearchValue(
    query: string, filters: PhotoFilters, pagination: PaginationParams, defaultPerPage: PageSize, other: string)
    ensures ParameterValue(PhotoSearchParameters(query, filters, pagination, defaultPerPage), other)
      == if other == "query" then Some(query)
         else if other == "page" || other == "per_page" then ParameterValue(PageParameters(pagination, defaultPerPage), other)
         else if other == "orientation" then OrientationParam(filters.orientation)
         else if other == "size" then SizeParam(filters.size)
         else if other == "color" then filters.color
         else if other == "locale" then LocaleParam(filters.locale)
         else None
  {
    ParameterNamesDistinct();
    var a := [("query", query)] + PageParameters(pagination, defaultPerPage);
    var b := a + Opt("orientation", OrientationParam(filters.orientation));
    var c := b + Opt("size", SizeParam(filters.size));
    var e := c + Opt("color", filters.color);
    QueryPageValue(query, pagination, defaultPerPage, other);
    PageParametersValue(pagination, defaultPerPage, other);
    AppendOptValue(a, "orientation", OrientationParam(filters.orientation), other);
    AppendOptValue(b, "size", SizeParam(filters.size), other);
    AppendOptValue(c, "color", filters.color, other);
    AppendOptValue(e, "locale", LocaleParam(filters.locale), other);
  }

  /** What the numeric filters add after `base`: each one when set, under its own name. */
  lemma NumericFiltersValue(base: Parameters, filters: VideoFilters, other: string)
    ensures ParameterValue(WithNumericFilters(base, filters), other)
      == if ParameterValue(base, other).Some? then ParameterValue(base, other)
         else if other == "min_width" then IntParam(filters.minWidth)
         else if other == "min_height" then IntParam(filters.minHeight)
         else if other == "min_duration" then IntParam(filters.minDuration)
         else if other == "max_duration" then IntParam(filters.maxDuration)
         else None
  {
    ParameterNamesDistinct();
    var a := base + Opt("min_width", IntParam(filters.minWidth));
    var b := a + Opt("min_height", IntParam(filters.minHeight));
    var c := b + Opt("min_duration", IntParam(filters.minDuration));
    AppendOptValue(base, "min_width", IntParam(filters.minWidth), other);
    AppendOptValue(a, "min_height", IntParam(filters.minHeight), other);
    AppendOptValue(b, "min_duration", IntParam(filters.minDuration), other);
    AppendOptValue(c, "max_duration", IntParam(filters.maxDuration), other);
  }

  /**
   * What a video search request holds under each name: the query, the page
   * parameters, each filter when set, and nothing under any other name.
   */
  lemma VideoSearchValue(
    query: string, filters: VideoFilters, pagination: PaginationParams, defaultPerPage: PageSize, other: string)
    ensures ParameterValue(VideoSearchParameters(query, filters, pagination, defaultPerPage), other)
      == if other == "query" then Some(query)
         else if other == "page" || other == "per_page" then ParameterValue(PageParameters(pagination, defaultPerPage), other)
         else if other == "orientation" then OrientationParam(filters.orientation)
         else if other == "size" then SizeParam(filters.size)
         else if other == "locale" then LocaleParam(filters.locale)
         else if other == "min_width" then IntParam(filters.minWidth)
         else if other == "min_height" then IntParam(filters.minHeight)
         else if other == "min_duration" then IntParam(filters.minDuration)
         else if other == "max_duration" then IntParam(filters.maxDuration)
         else None
  {
    ParameterNamesDistinct();
    var a := [("query", query)] + PageParameters(pagination, defaultPerPage);
    var b := a + Opt("orientation", OrientationParam(filters.orientation));
    var c := b + Opt("size", SizeParam(filters.size));
    var e := c + Opt("locale", LocaleParam(filters.locale));
    QueryPageValue(query, pagination, defaultPerPage, other);
    PageParametersValue(pagination, defaultPerPage, other);
    AppendOptValue(a, "orientation", OrientationParam(filters.orientation), other);
    AppendOptValue(b, "size", SizeParam(filters.size), other);
    AppendOptValue(c, "locale", LocaleParam(filters.locale), other);
    NumericFiltersValue(e, filters, other);
  }

  /**
   * What a popular-videos request holds under each name: the page parameters
   * and each numeric filter when set; no query, orientation, size or locale.
   */
  lemma VideoPopularValue(filters: VideoFilters, pagination: PaginationParams, defaultPerPage: PageSize, other: string)
    ensures ParameterValue(VideoPopularParameters(filters, pagination, defaultPerPage), other)
      == if other == "page" || other == "per_page" then ParameterValue(PageParameters(pagination, defaultPerPage), other)
         else if other == "min_width" then IntParam(filters.minWidth)
         else if other == "min_height" then IntParam(filters.minHeight)
         else if other == "min_duration" then IntParam(filters.minDuration)
         else if other == "max_duration" then IntParam(filters.maxDuration)
         else None
  {
    ParameterNamesDistinct();
    PageParametersValue(pagination, defaultPerPage, other);
    NumericFiltersValue(PageParameters(pagination, defaultPerPage), filters, other);
  }

  /** What a collection-media request holds under each name: the page parameters and the type when given. */
  lemma CollectionMediaValue(mediaType: Option<MediaType>, pagination: PaginationParams, defaultPerPage: PageSize, other: string)
    ensures ParameterValue(CollectionMediaParameters(mediaType, pagination, defaultPerPage), other)
      == if other == "page" || other == "per_page" then ParameterValue(PageParameters(pagination, defaultPerPage), other)
         else if other == "type" then MediaTypeParam(mediaType)
         else None
  {
    ParameterNamesDistinct();
    PageParametersValue(pagination, defaultPerPage, other);
    AppendOptValue(PageParameters(pagination, defaultPerPage), "type", MediaTypeParam(mediaType), other);
  }

  /** The photo filters a server reads from the query parameters. */
  function ReadPhotoFilters(parameters: Parameters): PhotoFilters
  {
    PhotoFilters(
      ParameterValue(parameters, "orientation").FlatMap(OrientationOf),
      ParameterValue(parameters, "size").FlatMap(SizeOf),
      ParameterValue(parameters, "color"),
      ParameterValue(parameters, "locale").FlatMap(LocaleOf))
  }

  /** The video filters a server reads from the query parameters. */
  function ReadVideoFilters(parameters: Parameters): VideoFilterFields
  {
    VideoFilterFields(
      ParameterValue(parameters, "orientation").FlatMap(OrientationOf),
      ParameterValue(parameters, "size").FlatMap(SizeOf),
      ParameterValue(parameters, "locale").FlatMap(LocaleOf),
      ParameterValue(parameters, "min_width").FlatMap(ToIntOrNull),
      ParameterValue(parameters, "min_height").FlatMap(ToIntOrNull),
      ParameterValue(parameters, "min_duration").FlatMap(ToIntOrNull),
      ParameterValue(parameters, "max_duration").FlatMap(ToIntOrNull))
  }

  /**
   * Every list request carries the page and the page size, which parse back
   * to the numbers sent; the size is the explicit one, else the configured
   * default, and lies in 1..80.
   */
  lemma PageParametersReadBack(pagination: PaginationParams, defaultPerPage: PageSize)
    ensures ParameterValue(PageParameters(pagination, defaultPerPage), "page").FlatMap(ToIntOrNull)
      == Some(pagination.page)
    ensures ParameterValue(PageParameters(pagination, defaultPerPage), "per_page").FlatMap(ToIntOrNull)
      == Some(if pagination.perPage.Some? then pagination.perPage.value else defaultPerPage)
    ensures 1 <= PerPage(pagination, defaultPerPage) <= 80
  {
    PageParametersValue(pagination, defaultPerPage, "page");
    PageParametersValue(pagination, defaultPerPage, "per_page");
    IntRoundTrip(pagination.page);
    IntRoundTrip(PerPage(pagination, defaultPerPage));
  }

  /** A present enum value is read back from its wire string. */
  lemma EnumParamsReadBack(o: Option<Orientation>, z: Option<Size>, l: Option<Locale>, t: Option<MediaType>)
    ensures OrientationParam(o).FlatMap(OrientationOf) == o
    ensures SizeParam(z).FlatMap(SizeOf) == z
    ensures LocaleParam(l).FlatMap(LocaleOf) == l
    ensures MediaTypeParam(t).FlatMap(MediaTypeOf) == t
  {
    if o.Some? { SmallEnumsRoundTrip(o.value, SMALL, PHOTOS); }
    if z.Some? { SmallEnumsRoundTrip(LANDSCAPE, z.value, PHOTOS); }
    if l.Some? { LocaleRoundTrip(l.value); }
    if t.Some? { SmallEnumsRoundTrip(LANDSCAPE, SMALL, t.value); }
  }

  /** A present numeric filter is read back from its decimal rendering. */
  lemma IntParamReadBack(n: Option<Int32>)
    ensures IntParam(n).FlatMap(ToIntOrNull) == n
  {
    if n.Some? { IntRoundTrip(n.value); }
  }

  /**
   * A photo search request reads back as the query, the page, the page size
   * and exactly the filters given: each set filter under its own name, each
   * unset one absent.
   */
  lemma PhotoSearchReadBack(query: string, filters: PhotoFilters, pagination: PaginationParams, defaultPerPage: PageSize)
    ensures ParameterValue(PhotoSearchParameters(query, filters, pagination, defaultPerPage), "query") == Some(query)
    ensures ParameterValue(PhotoSearchParameters(query, filters, pagination, defaultPerPage), "page")
      == ParameterValue(PageParameters(pagination, defaultPerPage), "page")
    ensures ParameterValue(PhotoSearchParameters(query, filters, pagination, defaultPerPage), "per_page")
      == ParameterValue(PageParameters(pagination, defaultPerPage), "per_page")
    ensures ReadPhotoFilters(PhotoSearchParameters(query, filters, pagination, defaultPerPage)) == filters
  {
    ParameterNamesDistinct();
    PhotoSearchValue(query, filters, pagination, defaultPerPage, "query");
    PhotoSearchValue(query, filters, pagination, defaultPerPage, "page");
    PhotoSearchValue(query, filters, pagination, defaultPerPage, "per_page");
    PhotoSearchValue(query, filters, pagination, defaultPerPage, "orientation");
    PhotoSearchValue(query, filters, pagination, defaultPerPage, "size");
    PhotoSearchValue(query, filters, pagination, defaultPerPage, "color");
    PhotoSearchValue(query, filters, pagination, defaultPerPage, "locale");
    EnumParamsReadBack(filters.orientation, filters.size, filters.locale, None);
  }

  /** A video search request reads back as the query, the page, the page size and exactly the filters given. */
  lemma VideoSearchReadBack(query: string, filters: VideoFilters, pagination: PaginationParams, defaultPerPage: PageSize)
    ensures ParameterValue(VideoSearchParameters(query, filters, pagination, defaultPerPage), "query") == Some(query)
    ensures ParameterValue(VideoSearchParameters(query, filters, pagination, defaultPerPage), "page")
      == ParameterValue(PageParameters(pagination, defaultPerPage), "page")
    ensures ParameterValue(VideoSearchParameters(query, filters, pagination, defaultPerPage), "per_page")
      == ParameterValue(PageParameters(pagination, defaultPerPage), "per_page")
    ensures ReadVideoFilters(VideoSearchParameters(query, filters, pagination, defaultPerPage)) == filters
  {
    ParameterNamesDistinct();
    VideoSearchValue(query, filters, pagination, defaultPerPage, "query");
    VideoSearchValue(query, filters, pagination, defaultPerPage, "page");
    VideoSearchValue(query, filters, pagination, defaultPerPage, "per_page");
    VideoSearchValue(query, filters, pagination, defaultPerPage, "orientation");
    VideoSearchValue(query, filters, pagination, defaultPerPage, "size");
    VideoSearchValue(query, filters, pagination, defaultPerPage, "locale");
    VideoSearchValue(query, filters, pagination, defaultPerPage, "min_width");
    VideoSearchValue(query, filters, pagination, defaultPerPage, "min_height");
    VideoSearchValue(query, filters, pagination, defaultPerPage, "min_duration");
    VideoSearchValue(query, filters, pagination, defaultPerPage, "max_duration");
    EnumParamsReadBack(filters.orientation, filters.size, filters.locale, None);
    IntParamReadBack(filters.minWidth);
    IntParamReadBack(filters.minHeight);
    IntParamReadBack(filters.minDuration);
    IntParamReadBack(filters.maxDuration);
  }

  /**
   * A popular-videos request carries no query and none of the orientation,
   * size and locale filters, whatever the filters hold; the numeric filters
   * read back as given.
   */
  lemma VideoPopularReadBack(filters: VideoFilters, pagination: PaginationParams, defaultPerPage: PageSize)
    ensures ParameterValue(VideoPopularParameters(filters, pagination, defaultPerPage), "query").None?
    ensures ParameterValue(VideoPopularParameters(filters, pagination, defaultPerPage), "page")
      == ParameterValue(PageParameters(pagination, defaultPerPage), "page")
    ensures ParameterValue(VideoPopularParameters(filters, pagination, defaultPerPage), "per_page")
      == ParameterValue(PageParameters(pagination, defaultPerPage), "per_page")
    ensures ReadVideoFilters(VideoPopularParameters(filters, pagination, defaultPerPage))
      == filters.(orientation := None, size := None, locale := None)
  {
    ParameterNamesDistinct();
    VideoPopularValue(filters, pagination, defaultPerPage, "query");
    VideoPopularValue(filters, pagination, defaultPerPage, "page");
    VideoPopularValue(filters, pagination, defaultPerPage, "per_page");
    VideoPopularValue(filters, pagination, defaultPerPage, "orientation");
    VideoPopularValue(filters, pagination, defaultPerPage, "size");
    VideoPopularValue(filters, pagination, defaultPerPage, "locale");
    VideoPopularValue(filters, pagination, defaultPerPage, "min_width");
    VideoPopularValue(filters, pagination, defaultPerPage, "min_height");
    VideoPopularValue(filters, pagination, defaultPerPage, "min_duration");
    VideoPopularValue(filters, pagination, defaultPerPage, "max_duration");
    IntParamReadBack(filters.minWidth);
    IntParamReadBack(filters.minHeight);
    IntParamReadBack(filters.minDuration);
    IntParamReadBack(filters.maxDuration);
  }

  /** A collection-media request carries the media type exactly when one is given. */
  lemma CollectionMediaReadBack(mediaType: Option<MediaType>, pagination: PaginationParams, defaultPerPage: PageSize)
    ensures ParameterValue(CollectionMediaParameters(mediaType, pagination, defaultPerPage), "type").FlatMap(MediaTypeOf)
      == mediaType
    ensures ParameterValue(CollectionMediaParameters(mediaType, pagination, defaultPerPage), "page")
      == ParameterValue(PageParameters(pagination, defaultPerPage), "page")
    ensures ParameterValue(CollectionMediaParameters(mediaType, pagination, defaultPerPage), "per_page")
      == ParameterValue(PageParameters(pagination, defaultPerPage), "per_page")
  {
    ParameterNamesDistinct();
    CollectionMediaValue(mediaType, pagination, defaultPerPage, "type");
    CollectionMediaValue(mediaType, pagination, defaultPerPage, "page");
    CollectionMediaValue(mediaType, pagination, defaultPerPage, "per_page");
    EnumParamsReadBack(None, None, None, mediaType);
  }

  /** The `per_page` a server reads from a request parses to a page size the API accepts. */
  predicate PageSizeSentInRange(parameters: Parameters)
  {
    var n := ParameterValue(parameters, "per_page").FlatMap(ToIntOrNull);
    n.Some? && 1 <= n.value <= 80
  }

  /**
   * Every list request a façade builds sends a `per_page` within 1..80: the
   * explicit size passed `PaginationParams`' check, and the default passed
   * `PexKitConfig`'s.
   */
  lemma PageSizeAlwaysInRange(
    query: string, photoFilters: PhotoFilters, videoFilters: VideoFilters, mediaType: Option<MediaType>,
    pagination: PaginationParams, defaultPerPage: PageSize)
    ensures PageSizeSentInRange(PageParameters(pagination, defaultPerPage))
    ensures PageSizeSentInRange(PhotoSearchParameters(query, photoFilters, pagination, defaultPerPage))
    ensures PageSizeSentInRange(VideoSearchParameters(query, videoFilters, pagination, defaultPerPage))
    ensures PageSizeSentInRange(VideoPopularParameters(videoFilters, pagination, defaultPerPage))
    ensures PageSizeSentInRange(CollectionMediaParameters(mediaType, pagination, defaultPerPage))
  {
    PageParametersReadBack(pagination, defaultPerPage);
    PhotoSearchReadBack(query, photoFilters, pagination, defaultPerPage);
    VideoSearchReadBack(query, videoFilters, pagination, defaultPerPage);
    VideoPopularReadBack(videoFilters, pagination, defaultPerPage);
    CollectionMediaReadBack(mediaType, pagination, defaultPerPage);
  }

  // ---------------------------------------------------------------------------
  // The façades

  class PhotosApi {
    const defaultPerPage: PageSize

    /** Built by the client from its configuration, whose page size was checked. */
    constructor(config: Config.PexKitConfig)
      ensures defaultPerPage == config.defaultPerPage
    {
      defaultPerPage := config.defaultPerPage;
    }

    /** `search(query, filters, pagination)`: no check on the query. */
    method Search(
      transport: HttpRequest -> TransportOutcome, decode: string -> Decoded<PhotosApiResponse>,
      query: string, filters: PhotoFilters := PhotoFilters(), pagination: PaginationParams := Pagination())
      returns (call: Call<PaginatedResponse<Photo>>)
      ensures call.request == HttpRequest(PHOTOS_SEARCH, PhotoSearchParameters(query, filters, pagination, defaultPerPage))
      ensures call.result == Classify(transport(call.request), decode).Map(PhotoPage)
      ensures PageSizeSentInRange(call.request.parameters)
    {
      var parameters: Parameters := [];
      parameters := parameters + [("query", query)];
      parameters := parameters + [("page", IntToString(pagination.page))];
      parameters := parameters + [("per_page", IntToString(PerPage(pagination, defaultPerPage)))];
      ghost var sent := [("query", query)] + PageParameters(pagination, defaultPerPage);
      assert parameters == sent;
      if filters.orientation.Some? {
        parameters := parameters + [("orientation", filters.orientation.value.Value())];
      }
      sent := sent + Opt("orientation", OrientationParam(filters.orientation));
      assert parameters == sent;
      if filters.size.Some? {
        parameters := parameters + [("size", filters.size.value.Value())];
      }
      sent := sent + Opt("size", SizeParam(filters.size));
      assert parameters == sent;
      if filters.color.Some? {
        parameters := parameters + [("color", filters.color.value)];
      }
      sent := sent + Opt("color", filters.color);
      assert parameters == sent;
      if filters.locale.Some? {
        parameters := parameters + [("locale", filters.locale.value.Value())];
      }
      sent := sent + Opt("locale", LocaleParam(filters.locale));
      assert parameters == sent;
      PageSizeAlwaysInRange(query, filters, VideoFilterFields(), None, pagination, defaultPerPage);
      var request := HttpRequest(PHOTOS_SEARCH, parameters);
      call := Call(request, Classify(transport(request), decode).Map(PhotoPage));
    }

    /** `curated(pagination)`. */
    method Curated(
      transport: HttpRequest -> TransportOutcome, decode: string -> Decoded<PhotosApiResponse>,
      pagination: PaginationParams := Pagination())
      returns (call: Call<PaginatedResponse<Photo>>)
      ensures call.request == HttpRequest(PHOTOS_CURATED, PageParameters(pagination, defaultPerPage))
      ensures call.result == Classify(transport(call.request), decode).Map(PhotoPage)
      ensures PageSizeSentInRange(call.request.parameters)
    {
      var parameters: Parameters := [];
      parameters := parameters + [("page", IntToString(pagination.page))];
      parameters := parameters + [("per_page", IntToString(PerPage(pagination, defaultPerPage)))];
      PageSizeAlwaysInRange("", PhotoFilters(), VideoFilterFields(), None, pagination, defaultPerPage);
      var request := HttpRequest(PHOTOS_CURATED, parameters);
      call := Call(request, Classify(transport(request), decode).Map(PhotoPage));
    }

    /** `get(id)`: no parameters, and the executor's result as it is. */
    method Get(transport: HttpRequest -> TransportOutcome, decode: string -> Decoded<Photo>, id: Int64)
      returns (call: Call<Photo>)
      ensures call.request == HttpRequest(PhotoUrl(id), [])
      ensures call.result == Classify(transport(call.request), decode)
    {
      var request := HttpRequest(PhotoUrl(id), []);
      call := Call(request, Classify(transport(request), decode));
    }
  }

  class VideosApi {
    const defaultPerPage: PageSize

    /** Built by the client from its configuration, whose page size was checked. */
    constructor(config: Config.PexKitConfig)
      ensures defaultPerPage == config.defaultPerPage
    {
      defaultPerPage := config.defaultPerPage;
    }

    /**
     * `search(query, filters, pagination)`: a blank query, then one longer
     * than 200 characters, is refused before any request is made.
     */
    method Search(
      transport: HttpRequest -> TransportOutcome, decode: string -> Decoded<VideosApiResponse>,
      query: string, filters: VideoFilters := VideoFilterFields(), pagination: PaginationParams := Pagination())
      returns (call: Checked<Call<PaginatedResponse<Video>>>)
      ensures IsBlank(query) ==> call == IllegalArgument("Search query cannot be blank")
      ensures !IsBlank(query) && Utf16Length(query) > 200
        ==> call == IllegalArgument("Search query cannot exceed 200 characters")
      ensures call.Passed? <==> VideoQueryAccepted(query)
      ensures call.Passed? ==>
        call.value.request == HttpRequest(VIDEOS_SEARCH, VideoSearchParameters(query, filters, pagination, defaultPerPage))
        && call.value.result == Classify(transport(call.value.request), decode).Map(VideoPage)
      ensures call.Passed? ==> PageSizeSentInRange(call.value.request.parameters)
    {
      if IsBlank(query) {
        return IllegalArgument("Search query cannot be blank");
      }
      if Utf16Length(query) > 200 {
        return IllegalArgument("Search query cannot exceed 200 characters");
      }
      var parameters: Parameters := [];
      parameters := parameters + [("query", query)];
      parameters := parameters + [("page", IntToString(pagination.page))];
      parameters := parameters + [("per_page", IntToString(PerPage(pagination, defaultPerPage)))];
      ghost var sent := [("query", query)] + PageParameters(pagination, defaultPerPage);
      assert parameters == sent;
      if filters.orientation.Some? {
        parameters := parameters + [("orientation", filters.orientation.value.Value())];
      }
      sent := sent + Opt("orientation", OrientationParam(filters.orientation));
      assert parameters == sent;
      if filters.size.Some? {
        parameters := parameters + [("size", filters.size.value.Value())];
      }
      sent := sent + Opt("size", SizeParam(filters.size));
      assert parameters == sent;
      if filters.locale.Some? {
        parameters := parameters + [("locale", filters.locale.value.Value())];
      }
      sent := sent + Opt("locale", LocaleParam(filters.locale));
      assert parameters == sent;
      parameters := AppendNumericFilters(parameters, filters);
      PageSizeAlwaysInRange(query, PhotoFilters(), filters, None, pagination, defaultPerPage);
      var request := HttpRequest(VIDEOS_SEARCH, parameters);
      call := Passed(Call(request, Classify(transport(request), decode).Map(VideoPage)));
    }

    /** `popular(filters, pagination)`: only the numeric filters are sent. */
    method Popular(
      transport: HttpRequest -> TransportOutcome, decode: string -> Decoded<VideosApiResponse>,
      filters: VideoFilters := VideoFilterFields(), pagination: PaginationParams := Pagination())
      returns (call: Call<PaginatedResponse<Video>>)
      ensures call.request == HttpRequest(VIDEOS_POPULAR, VideoPopularParameters(filters, pagination, defaultPerPage))
      ensures call.result == Classify(transport(call.request), decode).Map(VideoPage)
      ensures PageSizeSentInRange(call.request.parameters)
    {
      var parameters: Parameters := [];
      parameters := parameters + [("page", IntToString(pagination.page))];
      parameters := parameters + [("per_page", IntToString(PerPage(pagination, defaultPerPage)))];
      assert parameters == PageParameters(pagination, defaultPerPage);
      parameters := AppendNumericFilters(parameters, filters);
      PageSizeAlwaysInRange("", PhotoFilters(), filters, None, pagination, defaultPerPage);
      var request := HttpRequest(VIDEOS_POPULAR, parameters);
      call := Call(request, Classify(transport(request), decode).Map(VideoPage));
    }

    /** `get(id)`: no parameters, and the executor's result as it is. */
    method Get(transport: HttpRequest -> TransportOutcome, decode: string -> Decoded<Video>, id: Int64)
      returns (call: Call<Video>)
      ensures call.request == HttpRequest(VideoUrl(id), [])
      ensures call.result == Classify(transport(call.request), decode)
    {
      var request := HttpRequest(VideoUrl(id), []);
      call := Call(request, Classify(transport(request), decode));
    }
  }

  class CollectionsApi {
    const defaultPerPage: PageSize

    /** Built by the client from its configuration, whose page size was checked. */
    constructor(config: Config.PexKitConfig)
      ensures defaultPerPage == config.defaultPerPage
    {
      defaultPerPage := config.defaultPerPage;
    }

    /** `featured(pagination)`. */
    method Featured(
      transport: HttpRequest -> TransportOutcome, decode: string -> Decoded<CollectionsApiResponse>,
      pagination: PaginationParams := Pagination())
      returns (call: Call<PaginatedResponse<Collection>>)
      ensures call.request == HttpRequest(COLLECTIONS_FEATURED, PageParameters(pagination, defaultPerPage))
      ensures call.result == Classify(transport(call.request), decode).Map(CollectionPage)
      ensures PageSizeSentInRange(call.request.parameters)
    {
      var parameters: Parameters := [];
      parameters := parameters + [("page", IntToString(pagination.page))];
      parameters := parameters + [("per_page", IntToString(PerPage(pagination, defaultPerPage)))];
      PageSizeAlwaysInRange("", PhotoFilters(), VideoFilterFields(), None, pagination, defaultPerPage);
      var request := HttpRequest(COLLECTIONS_FEATURED, parameters);
      call := Call(request, Classify(transport(request), decode).Map(CollectionPage));
    }

    /** `my(pagination)`. */
    method My(
      transport: HttpRequest -> TransportOutcome, decode: string -> Decoded<CollectionsApiResponse>,
      pagination: PaginationParams := Pagination())
      returns (call: Call<PaginatedResponse<Collection>>)
      ensures call.request == HttpRequest(COLLECTIONS_MY, PageParameters(pagination, defaultPerPage))
      ensures call.result == Classify(transport(call.request), decode).Map(CollectionPage)
      ensures PageSizeSentInRange(call.request.parameters)
    {
      var parameters: Parameters := [];
      parameters := parameters + [("page", IntToString(pagination.page))];
      parameters := parameters + [("per_page", IntToString(PerPage(pagination, defaultPerPage)))];
      PageSizeAlwaysInRange("", PhotoFilters(), VideoFilterFields(), None, pagination, defaultPerPage);
      var request := HttpRequest(COLLECTIONS_MY, parameters);
      call := Call(request, Classify(transport(request), decode).Map(CollectionPage));
    }

    /** `media(id, type, pagination)`: the media type is sent only when given. */
    method Media(
      transport: HttpRequest -> TransportOutcome, decode: string -> Decoded<CollectionMediaApiResponse>,
      id: string, mediaType: Option<MediaType> := None, pagination: PaginationParams := Pagination())
      returns (call: Call<PaginatedResponse<CollectionMedia>>)
      ensures call.request == HttpRequest(CollectionMediaUrl(id), CollectionMediaParameters(mediaType, pagination, defaultPerPage))
      ensures call.result == Classify(transport(call.request), decode).Map(CollectionMediaPage)
      ensures PageSizeSentInRange(call.request.parameters)
    {
      var parameters: Parameters := [];
      parameters := parameters + [("page", IntToString(pagination.page))];
      parameters := parameters + [("per_page", IntToString(PerPage(pagination, defaultPerPage)))];
      if mediaType.Some? {
        parameters := parameters + [("type", mediaType.value.Value())];
      }
      PageSizeAlwaysInRange("", PhotoFilters(), VideoFilterFields(), mediaType, pagination, defaultPerPage);
      var request := HttpRequest(CollectionMediaUrl(id), parameters);
      call := Call(request, Classify(transport(request), decode).Map(CollectionMediaPage));
    }
  }
}
