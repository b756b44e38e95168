# PexKit core, modelled in Dafny

PexKit is a Kotlin Multiplatform client for the Pexels photo and video API.
This project models the decisions the client makes around each HTTP call and
proves properties of them:

- how the executor turns a response or an exception into a `PexKitResult`: any 2xx is `Success`; 401, 403, 404 and 429 are named errors; 5xx is `ServerError`; the rest is `Unknown`; a thrown exception is `NetworkError`. It also covers how the three rate-limit headers and `Retry-After` are parsed.
- the `PexKitError` taxonomy, with its default messages, and `PexKitException`, which keeps a cause only for network errors.
- the `PexKitResult` combinators.
- the conversions from the raw list responses to `PaginatedResponse`, including the mixed collection-media listing. That listing keeps unrecognised media types as `CollectionMedia.Unknown`, and drops photos without `src` and videos without `user`.
- the validated request values: `PaginationParams`, `PhotoFilters` with `withColor` and `withHexColor`, `VideoFilters`, and `PexKitConfig` with its mutable `Builder`.
- the filter enums with their wire strings, and the endpoint URLs.
- the three façades `PhotosApi`, `VideosApi` and `CollectionsApi`. Each one builds the request's query parameters by appending them one by one and maps the executor's result to a page.

The modules follow the Kotlin packages:

| file | module | stands for |
|---|---|---|
| `kotlin_lang.dfy` | `KotlinLang` | the standard library the core depends on: nullables, `Int`/`Long` ranges, `toString`, `toIntOrNull`/`toLongOrNull`, `isBlank`, `String.length`, `mapNotNull` |
| `model.dfy` | `Model` | the plain data classes (`Photo`, `Video`, `User`, …, `RateLimitInfo`) |
| `media.dfy` | `Media` | `CollectionMedia` and its casts |
| `errors.dfy` | `Errors` | `PexKitError`, `PexKitException` |
| `results.dfy` | `Results` | `PexKitResult` and its extension functions |
| `pages.dfy` | `Pages` | `PaginatedResponse` |
| `executor.dfy` | `Executor` | `ApiExecutor` |
| `api_responses.dfy` | `ApiResponses` | the internal raw response records and their conversions |
| `request.dfy` | `Request` | the filter enums, `PaginationParams`, `PhotoFilters`, `VideoFilters` |
| `config.dfy` | `Config` | `PexKitConfig` and its `Builder` |
| `endpoints.dfy` | `Endpoints` | `Endpoints` |
| `api.dfy` | `Api` | `PhotosApi`, `VideosApi`, `CollectionsApi` |

Modelling choices:

- A Kotlin `require` that fails throws `IllegalArgumentException`. Here it is the `IllegalArgument(message)` case of `Checked`, carrying the source's exact message.
- A validated class such as `PaginationParams` is a subset type. Its values are exactly the field combinations the class's `init` accepts.
- The network exchange is a function parameter, `transport`. The JSON decoding of a body is another, `decode`. Each façade method returns the request it built together with the result.

`ApiResponses.kt` documents `toCollectionMedia` as returning `CollectionMedia.Unknown` instead of `null`. That holds only for an unrecognised `type`. A `"Photo"` item without `src`, and a `"Video"` item without `user`, return `null`, and `mapNotNull` then drops them from the page. The model follows the code. `ApiResponses.ToCollectionMedia`, `ApiResponses.PhotoWithoutSourceDropped` and `ApiResponses.VideoWithoutUserDropped` state this behaviour.

## Model

| member | source | states |
|---|---|---|
| `Executor.Classify` | pexkit-client/src/commonMain/kotlin/io/pexkit/api/internal/ApiExecutor.kt:38-51 | a failed transport, an unreadable body or a failed decode become `NetworkError` carrying that very exception; a non-2xx response is `Failure(ParseError(response))`; the result is a `Success` exactly for a 2xx response whose body decodes, and then carries the decoded value and the response's rate-limit info |
| `Executor.ExtractRateLimitInfo` | pexkit-client/src/commonMain/kotlin/io/pexkit/api/internal/ApiExecutor.kt:56-63 | each field is the parsed header when the header is present and parses at its width, and 0 otherwise |
| `Executor.BodyOrNull` | pexkit-client/src/commonMain/kotlin/io/pexkit/api/internal/ApiExecutor.kt:70-74 | the body is the text when it could be read, `null` exactly when reading threw |
| `Executor.ParseError` | pexkit-client/src/commonMain/kotlin/io/pexkit/api/internal/ApiExecutor.kt:68-91 | 401, 403, 404 and 429 each give their own kind (both directions); `NotFound` names the request URL; `RateLimited` carries the parsed `Retry-After`; 500..599 give `ServerError` with the status; every other status gives `Unknown` with the status and the body; never `NetworkError` |
| `Executor.ParseErrorKeepsStatus` | pexkit-client/src/commonMain/kotlin/io/pexkit/api/internal/ApiExecutor.kt:76-91 | the error built for any non-success response determines that response's status |
| `Executor.NetworkErrorExactlyOnException` | pexkit-client/src/commonMain/kotlin/io/pexkit/api/internal/ApiExecutor.kt:38-51 | the result is a `NetworkError` exactly when some step threw |
| `Executor.FailureStatusRecoverable` | pexkit-client/src/commonMain/kotlin/io/pexkit/api/internal/ApiExecutor.kt:42-47 | a non-success response is always a failure whose error gives back the status |
| `Executor.RateLimitHeadersRoundTrip` | pexkit-client/src/commonMain/kotlin/io/pexkit/api/internal/ApiExecutor.kt:56-63 | headers holding renderings of in-range numbers are read back exactly |
| `Executor.MissingRateLimitHeaders` | pexkit-client/src/commonMain/kotlin/io/pexkit/api/internal/ApiExecutor.kt:59-61 | with none of the headers, every field is 0 |
| `Executor.RateLimitFieldWidths` | pexkit-client/src/commonMain/kotlin/io/pexkit/api/internal/ApiExecutor.kt:59-61 | a value above `Int.MAX_VALUE` is 0 as the limit but kept as the `Long` reset |
| `Executor.RetryAfterRoundTrip` | pexkit-client/src/commonMain/kotlin/io/pexkit/api/internal/ApiExecutor.kt:80-83 | a 429 with a numeric `Retry-After` reports exactly that number |
| `Executor.RetryAfterUnusable` | pexkit-client/src/commonMain/kotlin/io/pexkit/api/internal/ApiExecutor.kt:80-83 | a 429 without a usable `Retry-After` reports no hint and the bare message |
| `Executor.UnmatchedStatusKeepsBody` | pexkit-client/src/commonMain/kotlin/io/pexkit/api/internal/ApiExecutor.kt:84-89 | every non-2xx status outside 401, 403, 404, 429 and 500..599 (418, 400, …) is `Unknown` with that status and, when it could be read, the body text |
| `Errors.DefaultMessages` | pexkit-client/src/commonMain/kotlin/io/pexkit/api/response/PexKitError.kt:14-82 | the default message of each kind, including the cause's message or "Network error" for a network error |
| `Errors.NotFoundMessageInjective` | pexkit-client/src/commonMain/kotlin/io/pexkit/api/response/PexKitError.kt:32-35 | the resource can be recovered from the default `NotFound` message |
| `Errors.ServerErrorMessageInjective` | pexkit-client/src/commonMain/kotlin/io/pexkit/api/response/PexKitError.kt:55-58 | the status code can be recovered from the default `ServerError` message |
| `Errors.RateLimitedMessageShowsHint` | pexkit-client/src/commonMain/kotlin/io/pexkit/api/response/PexKitError.kt:43-47 | the retry hint appears in the message exactly when a hint is present |
| `Errors.RateLimitedMessageInjective` | pexkit-client/src/commonMain/kotlin/io/pexkit/api/response/PexKitError.kt:43-47 | different hints give different messages |
| `Errors.BodyPartInjective` | pexkit-client/src/commonMain/kotlin/io/pexkit/api/response/PexKitError.kt:81 | the `": body"` tail of the message determines the body |
| `Errors.UnknownMessageSeparator` | pexkit-client/src/commonMain/kotlin/io/pexkit/api/response/PexKitError.kt:79-81 | a space follows "Unknown error" exactly when a status is shown |
| `Errors.UnknownMessageWithStatus` | pexkit-client/src/commonMain/kotlin/io/pexkit/api/response/PexKitError.kt:79-81 | the shape of the default `Unknown` message when a status is present |
| `Errors.UnknownWithStatusInjective` | pexkit-client/src/commonMain/kotlin/io/pexkit/api/response/PexKitError.kt:76-82 | with a status shown, the message determines both the status and the body |
| `Errors.UnknownMessageInjective` | pexkit-client/src/commonMain/kotlin/io/pexkit/api/response/PexKitError.kt:76-82 | the default `Unknown` message determines both its status and its body |
| `Errors.ToException` | pexkit-client/src/commonMain/kotlin/io/pexkit/api/response/PexKitError.kt:88 | the exception wraps the same error and carries its message |
| `Errors.PexKitException.Message` | pexkit-client/src/commonMain/kotlin/io/pexkit/api/response/PexKitError.kt:98-100 | the exception's message is the error's message |
| `Errors.PexKitException.Cause` | pexkit-client/src/commonMain/kotlin/io/pexkit/api/response/PexKitError.kt:96-100 | the exception has a cause exactly for a network error, and then it is that error's cause |
| `Errors.PexKitException.AsThrowable` | pexkit-client/src/commonMain/kotlin/io/pexkit/api/response/PexKitError.kt:98-100 | the `Throwable` a caller sees has the error's message and the same cause |
| `Errors.CauseChain` | pexkit-client/src/commonMain/kotlin/io/pexkit/api/response/PexKitError.kt:96-100 | the chain of causes starts at the throwable itself |
| `Errors.ExceptionCause` | pexkit-client/src/commonMain/kotlin/io/pexkit/api/response/PexKitError.kt:88-100 | only a network error hands its cause to the exception |
| `Errors.ExceptionKeepsCauseChain` | pexkit-client/src/commonMain/kotlin/io/pexkit/api/response/PexKitError.kt:98-100 | the exception's cause chain continues with the network error's whole cause chain |
| `Results.PexKitResult.GetOrNull` | pexkit-client/src/commonMain/kotlin/io/pexkit/api/response/PexKitResult.kt:50-53 | the data exactly on success, `null` on failure |
| `Results.PexKitResult.GetOrThrow` | pexkit-client/src/commonMain/kotlin/io/pexkit/api/response/PexKitResult.kt:58-61 | returns the data on success; on failure throws an exception wrapping that error |
| `Results.PexKitResult.GetOrDefault` | pexkit-client/src/commonMain/kotlin/io/pexkit/api/response/PexKitResult.kt:74-77 | the data on success, the given default on failure |
| `Results.PexKitResult.GetOrElse` | pexkit-client/src/commonMain/kotlin/io/pexkit/api/response/PexKitResult.kt:92-95 | the data on success, the fallback applied to the error on failure |
| `Results.PexKitResult.Map` | pexkit-client/src/commonMain/kotlin/io/pexkit/api/response/PexKitResult.kt:109-112 | success maps the data and keeps the rate limit; failure passes through unchanged |
| `Results.PexKitResult.OnSuccess` | pexkit-client/src/commonMain/kotlin/io/pexkit/api/response/PexKitResult.kt:117-120 | returns the receiver; the action runs exactly on success, on the data |
| `Results.PexKitResult.OnFailure` | pexkit-client/src/commonMain/kotlin/io/pexkit/api/response/PexKitResult.kt:125-128 | returns the receiver; the action runs exactly on failure, on the error |
| `Results.MapIdentity` | pexkit-client/src/commonMain/kotlin/io/pexkit/api/response/PexKitResult.kt:109-112 | mapping the identity changes nothing |
| `Results.MapComposition` | pexkit-client/src/commonMain/kotlin/io/pexkit/api/response/PexKitResult.kt:109-112 | two maps equal one map of the composition |
| `Results.MapKeepsFailure` | pexkit-client/src/commonMain/kotlin/io/pexkit/api/response/PexKitResult.kt:109-112 | a failure keeps its error, message included |
| `Results.GetOrElseIgnoresFallbackOnSuccess` | pexkit-client/src/commonMain/kotlin/io/pexkit/api/response/PexKitResult.kt:74-95 | on success the fallback plays no part |
| `Results.UnwrapAgreement` | pexkit-client/src/commonMain/kotlin/io/pexkit/api/response/PexKitResult.kt:50-95 | `getOrNull`, `getOrThrow`, `getOrDefault` and `getOrElse` agree on every result |
| `Results.HooksRunExactlyOne` | pexkit-client/src/commonMain/kotlin/io/pexkit/api/response/PexKitResult.kt:117-128 | of `onSuccess` and `onFailure`, exactly one runs its action |
| `Media.CollectionMedia.Kind` | pexkit-client/src/commonMain/kotlin/io/pexkit/api/model/CollectionMedia.kt:42-91 | the type tag is `PHOTO`, `VIDEO` or `UNKNOWN` exactly for the matching variant |
| `Media.CollectionMedia.AsPhoto` | pexkit-client/src/commonMain/kotlin/io/pexkit/api/model/CollectionMedia.kt:97 | the item itself exactly when it is a photo |
| `Media.CollectionMedia.AsVideo` | pexkit-client/src/commonMain/kotlin/io/pexkit/api/model/CollectionMedia.kt:102 | the item itself exactly when it is a video |
| `Media.CollectionMedia.AsUnknown` | pexkit-client/src/commonMain/kotlin/io/pexkit/api/model/CollectionMedia.kt:107 | the item itself exactly when it is unknown |
| `Media.ExactlyOneCast` | pexkit-client/src/commonMain/kotlin/io/pexkit/api/model/CollectionMedia.kt:97-107 | exactly one of the three casts succeeds |
| `Media.UnknownKeepsFields` | pexkit-client/src/commonMain/kotlin/io/pexkit/api/model/CollectionMedia.kt:77-85 | an unknown item keeps its common fields and its original type name |
| `Pages.PaginatedResponse.HasNextPage` | pexkit-client/src/commonMain/kotlin/io/pexkit/api/response/PaginatedResponse.kt:27 | there is a next page exactly when a next-page link is present |
| `Pages.PaginatedResponse.HasPrevPage` | pexkit-client/src/commonMain/kotlin/io/pexkit/api/response/PaginatedResponse.kt:30 | there is a previous page exactly when a previous-page link is present |
| `Pages.DefaultLinksMeanNoNeighbours` | pexkit-client/src/commonMain/kotlin/io/pexkit/api/response/PaginatedResponse.kt:23-30 | a page built without links has neither neighbour |
| `ApiResponses.PhotosApiResponse.ToPaginatedResponse` | pexkit-client/src/commonMain/kotlin/io/pexkit/api/internal/ApiResponses.kt:27-34 | the photos in order, with the same page envelope |
| `ApiResponses.VideosApiResponse.ToPaginatedResponse` | pexkit-client/src/commonMain/kotlin/io/pexkit/api/internal/ApiResponses.kt:49-56 | the videos in order, with the same page envelope |
| `ApiResponses.CollectionsApiResponse.ToPaginatedResponse` | pexkit-client/src/commonMain/kotlin/io/pexkit/api/internal/ApiResponses.kt:71-78 | the collections in order, with the same page envelope |
| `ApiResponses.CollectionMediaApiResponse.ToPaginatedResponse` | pexkit-client/src/commonMain/kotlin/io/pexkit/api/internal/ApiResponses.kt:95-102 | the converted items with nulls dropped, with the same page envelope |
| `ApiResponses.NeighboursFollowLinks` | pexkit-client/src/commonMain/kotlin/io/pexkit/api/internal/ApiResponses.kt:27-102 | each converted page has a neighbour exactly when the response carried its link |
| `ApiResponses.PhotoSourceInternal.ToPhotoSource` | pexkit-client/src/commonMain/kotlin/io/pexkit/api/internal/ApiResponses.kt:212-221 | every one of the eight URLs is copied to its own field |
| `ApiResponses.UserInternal.ToUser` | pexkit-client/src/commonMain/kotlin/io/pexkit/api/internal/ApiResponses.kt:223-227 | id, name and url are copied |
| `ApiResponses.VideoFileInternal.ToVideoFile` | pexkit-client/src/commonMain/kotlin/io/pexkit/api/internal/ApiResponses.kt:229-237 | every field, the nullable ones included, is copied |
| `ApiResponses.VideoPictureInternal.ToVideoPicture` | pexkit-client/src/commonMain/kotlin/io/pexkit/api/internal/ApiResponses.kt:239-243 | id, picture and number are copied |
| `ApiResponses.ConvertersInjective` | pexkit-client/src/commonMain/kotlin/io/pexkit/api/internal/ApiResponses.kt:212-243 | each converter loses no information |
| `ApiResponses.ToVideoFiles` | pexkit-client/src/commonMain/kotlin/io/pexkit/api/internal/ApiResponses.kt:199 | one converted file per raw file, in order |
| `ApiResponses.ToVideoPictures` | pexkit-client/src/commonMain/kotlin/io/pexkit/api/internal/ApiResponses.kt:200 | one converted picture per raw picture, in order |
| `ApiResponses.ToCollectionMedia` | pexkit-client/src/commonMain/kotlin/io/pexkit/api/internal/ApiResponses.kt:174-210 | `null` exactly for a photo without `src` or a video without `user`; "Photo" and "Video" (case-sensitive) give those kinds, and any other tag gives `Unknown` with that tag; the common fields are copied, and every missing optional field takes its documented default |
| `ApiResponses.DroppedCountIsNullCount` | pexkit-client/src/commonMain/kotlin/io/pexkit/api/internal/ApiResponses.kt:96 | the items the conversion drops are exactly those `mapNotNull` discards |
| `ApiResponses.CollectionMediaPageSize` | pexkit-client/src/commonMain/kotlin/io/pexkit/api/internal/ApiResponses.kt:95-102 | kept items plus dropped items are all the items |
| `ApiResponses.CollectionMediaPageInOrder` | pexkit-client/src/commonMain/kotlin/io/pexkit/api/internal/ApiResponses.kt:95-102 | when nothing is dropped, the page holds every item converted, in order |
| `ApiResponses.UnrecognisedTagKept` | pexkit-client/src/commonMain/kotlin/io/pexkit/api/internal/ApiResponses.kt:202-208 | an item with an unrecognised tag stays on the page as `Unknown` |
| `ApiResponses.CollectionMediaItemsHaveSource` | pexkit-client/src/commonMain/kotlin/io/pexkit/api/internal/ApiResponses.kt:96 | every item on the page is the conversion of some raw item |
| `ApiResponses.TagIsCaseSensitive` | pexkit-client/src/commonMain/kotlin/io/pexkit/api/internal/ApiResponses.kt:175-208 | "photo" in lower case is not a photo but an `Unknown` |
| `ApiResponses.DroppedRecordOmitted` | pexkit-client/src/commonMain/kotlin/io/pexkit/api/internal/ApiResponses.kt:96 | a record converting to `null`, at any position, leaves the page equal to that of the listing without it |
| `ApiResponses.PhotoWithoutSourceDropped` | pexkit-client/src/commonMain/kotlin/io/pexkit/api/internal/ApiResponses.kt:185 | a photo without `src`, at any position of any listing, disappears: the page is that of the other records, and shorter than the listing |
| `ApiResponses.VideoWithoutUserDropped` | pexkit-client/src/commonMain/kotlin/io/pexkit/api/internal/ApiResponses.kt:198 | a video without `user`, at any position of any listing, disappears: the page is that of the other records, and shorter than the listing |
| `Request.OrientationOf` | pexkit-client/src/commonMain/kotlin/io/pexkit/api/request/Filters.kt:3-7 | a string read as an orientation is that orientation's wire value |
| `Request.SizeOf` | pexkit-client/src/commonMain/kotlin/io/pexkit/api/request/Filters.kt:10-17 | a string read as a size is that size's wire value |
| `Request.MediaTypeOf` | pexkit-client/src/commonMain/kotlin/io/pexkit/api/request/Filters.kt:70-73 | a string read as a media type is that type's wire value |
| `Request.SmallEnumsRoundTrip` | pexkit-client/src/commonMain/kotlin/io/pexkit/api/request/Filters.kt:3-17 | every orientation, size and media type is read back from its wire value |
| `Request.LocaleRoundTrip` | pexkit-client/src/commonMain/kotlin/io/pexkit/api/request/Filters.kt:36-65 | every locale is an `ll-CC` tag, and an independent letter-by-letter reader returns it from that tag |
| `Request.ValuesInjective` | pexkit-client/src/commonMain/kotlin/io/pexkit/api/request/Filters.kt:3-73 | different enum constants have different wire values |
| `Request.ColorValuesLowercase` | pexkit-client/src/commonMain/kotlin/io/pexkit/api/request/Filters.kt:20-33 | every color name is non-empty lower-case ASCII |
| `Request.ColorOf` | pexkit-client/src/commonMain/kotlin/io/pexkit/api/request/Filters.kt:20-33 | a string read as a color is that color's name |
| `Request.ColorRoundTrip` | pexkit-client/src/commonMain/kotlin/io/pexkit/api/request/Filters.kt:20-33 | every color is read back from its name, and different colors have different names |
| `Request.NewPaginationParams` | pexkit-client/src/commonMain/kotlin/io/pexkit/api/request/PaginationParams.kt:11-18 | accepted exactly when the page is at least 1 and any page size is in 1..80; the page check comes first, each with its message |
| `Request.PaginationBounds` | pexkit-client/src/commonMain/kotlin/io/pexkit/api/request/PaginationParams.kt:15-18 | the boundary page sizes 1 and 80 are accepted; 0, 81 and -1 are refused; the defaults are accepted |
| `Request.WithColor` | pexkit-client/src/commonMain/kotlin/io/pexkit/api/request/PhotoFilters.kt:22 | only the color is set, to the color's name |
| `Request.WithHexColor` | pexkit-client/src/commonMain/kotlin/io/pexkit/api/request/PhotoFilters.kt:29-34 | accepted exactly for six hex digits, and then only the color is set, to the code as given; otherwise the documented message |
| `Request.NamedAndHexColorsDisjoint` | pexkit-client/src/commonMain/kotlin/io/pexkit/api/request/PhotoFilters.kt:22-34 | no color name is a hex code, so the two factories never build the same filters |
| `Request.HexColorExamples` | pexkit-client/src/commonMain/kotlin/io/pexkit/api/request/PhotoFilters.kt:30 | the whole string must match: a wrong length, a `#` or a non-hex letter is refused, and either case is accepted |
| `Request.NewVideoFilters` | pexkit-client/src/commonMain/kotlin/io/pexkit/api/request/VideoFilters.kt:23-31 | accepted exactly when every set numeric filter is positive and the durations are ordered; the first failing check, in source order, gives the message |
| `Request.VideoFilterEnumsUnconstrained` | pexkit-client/src/commonMain/kotlin/io/pexkit/api/request/VideoFilters.kt:14-31 | orientation, size and locale never decide acceptance |
| `Request.VideoFilterExamples` | pexkit-client/src/commonMain/kotlin/io/pexkit/api/request/VideoFilters.kt:23-31 | no filters, and equal durations, are accepted; a zero width and reversed durations are refused |
| `Config.NewPexKitConfig` | pexkit-client/src/commonMain/kotlin/io/pexkit/api/PexKitConfig.kt:38-48 | accepted exactly when the key is not blank and the default page size is in 1..80; the key is checked first, each check with its message |
| `Config.Builder.constructor` | pexkit-client/src/commonMain/kotlin/io/pexkit/api/PexKitConfig.kt:50-73 | a new builder holds the documented defaults |
| `Config.Builder.Build` | pexkit-client/src/commonMain/kotlin/io/pexkit/api/PexKitConfig.kt:75-81 | the configuration of the builder's current fields, or the failed check |
| `Config.DefaultsRejected` | pexkit-client/src/commonMain/kotlin/io/pexkit/api/PexKitConfig.kt:46-57 | building an untouched builder fails on the blank key |
| `Config.WhitespaceKeyRejected` | pexkit-client/src/commonMain/kotlin/io/pexkit/api/PexKitConfig.kt:46-47 | a key of spaces and tabs is blank; page sizes 0 and 81 are refused and 80 is accepted |
| `Config.ConfigureWithKey` | pexkit-client/src/commonMain/kotlin/io/pexkit/api/PexKit.kt:79-81 | the defaults with the given key, failing exactly when the key is blank |
| `Endpoints.PhotoUrl` | pexkit-client/src/commonMain/kotlin/io/pexkit/api/internal/Endpoints.kt:13 | the photos path, then the id's canonical decimal rendering (`IntToString`, the only canonical decimal of the id), which parses back to the id |
| `Endpoints.VideoUrl` | pexkit-client/src/commonMain/kotlin/io/pexkit/api/internal/Endpoints.kt:18 | the videos path, then the id's canonical decimal rendering (`IntToString`, the only canonical decimal of the id), which parses back to the id |
| `Endpoints.CollectionMediaUrl` | pexkit-client/src/commonMain/kotlin/io/pexkit/api/internal/Endpoints.kt:23 | the collections path, then the id exactly as given |
| `Endpoints.PhotoUrlInjective` | pexkit-client/src/commonMain/kotlin/io/pexkit/api/internal/Endpoints.kt:13 | different photo ids give different URLs |
| `Endpoints.VideoUrlInjective` | pexkit-client/src/commonMain/kotlin/io/pexkit/api/internal/Endpoints.kt:18 | different video ids give different URLs |
| `Endpoints.CollectionMediaUrlInjective` | pexkit-client/src/commonMain/kotlin/io/pexkit/api/internal/Endpoints.kt:23 | different collection ids give different URLs |
| `Endpoints.FixedEndpoints` | pexkit-client/src/commonMain/kotlin/io/pexkit/api/internal/Endpoints.kt:7-22 | the fixed endpoints as full URLs |
| `Endpoints.CollectionIdNotEscaped` | pexkit-client/src/commonMain/kotlin/io/pexkit/api/internal/Endpoints.kt:21-23 | the id is not escaped: the collection id "featured" gives the featured-collections URL |
| `Api.PhotosApi.constructor` | pexkit-client/src/commonMain/kotlin/io/pexkit/api/PexKit.kt:51 | the façade is built from a checked `PexKitConfig` and keeps its `defaultPerPage`, so the default it holds is always in 1..80 |
| `Api.PhotosApi.Search` | pexkit-client/src/commonMain/kotlin/io/pexkit/api/PhotosApi.kt:36-50 | sends the search endpoint with query, page, page size and each set filter in source order; the result is the executor's result mapped to a page; the `per_page` sent is in 1..80 |
| `Api.PhotosApi.Curated` | pexkit-client/src/commonMain/kotlin/io/pexkit/api/PhotosApi.kt:62-69 | sends the curated endpoint with page and page size; the result is mapped to a page; the `per_page` sent is in 1..80 |
| `Api.PhotosApi.Get` | pexkit-client/src/commonMain/kotlin/io/pexkit/api/PhotosApi.kt:79-81 | sends the photo's URL with no parameters; the result is the executor's result unchanged |
| `Api.VideosApi.constructor` | pexkit-client/src/commonMain/kotlin/io/pexkit/api/PexKit.kt:56 | the façade is built from a checked `PexKitConfig` and keeps its `defaultPerPage`, so the default it holds is always in 1..80 |
| `Api.VideosApi.Search` | pexkit-client/src/commonMain/kotlin/io/pexkit/api/VideosApi.kt:36-56 | refuses a blank query, then one longer than 200 UTF-16 units, with the source's messages; otherwise sends the search endpoint with query, page, page size, the set enum filters, then the set numeric filters, and maps the result to a page; the `per_page` sent is in 1..80 |
| `Api.VideosApi.Popular` | pexkit-client/src/commonMain/kotlin/io/pexkit/api/VideosApi.kt:67-79 | sends the popular endpoint with page, page size and only the numeric filters; the result is mapped to a page; the `per_page` sent is in 1..80 |
| `Api.VideosApi.Get` | pexkit-client/src/commonMain/kotlin/io/pexkit/api/VideosApi.kt:89-91 | sends the video's URL with no parameters; the result is unchanged |
| `Api.CollectionsApi.constructor` | pexkit-client/src/commonMain/kotlin/io/pexkit/api/PexKit.kt:61 | the façade is built from a checked `PexKitConfig` and keeps its `defaultPerPage`, so the default it holds is always in 1..80 |
| `Api.CollectionsApi.Featured` | pexkit-client/src/commonMain/kotlin/io/pexkit/api/CollectionsApi.kt:36-43 | sends the featured endpoint with page and page size; the result is mapped to a page; the `per_page` sent is in 1..80 |
| `Api.CollectionsApi.My` | pexkit-client/src/commonMain/kotlin/io/pexkit/api/CollectionsApi.kt:53-60 | sends the user's collections endpoint with page and page size; the result is mapped to a page; the `per_page` sent is in 1..80 |
| `Api.CollectionsApi.Media` | pexkit-client/src/commonMain/kotlin/io/pexkit/api/CollectionsApi.kt:72-82 | sends the collection's URL with page, page size and the media type when given; the result is mapped to a page; the `per_page` sent is in 1..80 |
| `Api.AppendNumericFilters` | pexkit-client/src/commonMain/kotlin/io/pexkit/api/VideosApi.kt:51-54 | appends each set numeric filter, in source order, after the given parameters |
| `Api.PageParametersReadBack` | pexkit-client/src/commonMain/kotlin/io/pexkit/api/PhotosApi.kt:43-44 | `page` and `per_page` parse back to the page and to the explicit page size, else the default; the page size is in 1..80 |
| `Api.PerPage` | pexkit-client/src/commonMain/kotlin/io/pexkit/api/PhotosApi.kt:44 | `perPage ?: defaultPerPage`: the explicit size when given, else the default, always in 1..80 |
| `Api.PageSizeAlwaysInRange` | pexkit-client/src/commonMain/kotlin/io/pexkit/api/PhotosApi.kt:44 | the `per_page` of every list request the façades build (photo search and curated, video search and popular, featured, my and collection media) parses to a value in 1..80 |
| `Api.EnumParamsReadBack` | pexkit-client/src/commonMain/kotlin/io/pexkit/api/request/Filters.kt:3-73 | an orientation, size, locale or media type sent as its wire string is read back as the same constant, and an absent one stays absent |
| `Api.IntParamReadBack` | pexkit-client/src/commonMain/kotlin/io/pexkit/api/VideosApi.kt:51-54 | a numeric video filter sent with `toString()` parses back to the same number, and an absent one stays absent |
| `Api.PhotoSearchReadBack` | pexkit-client/src/commonMain/kotlin/io/pexkit/api/PhotosApi.kt:41-48 | read by name, a photo search request gives back the query and exactly the filters given: each set filter under its own name, each unset one absent |
| `Api.VideoSearchReadBack` | pexkit-client/src/commonMain/kotlin/io/pexkit/api/VideosApi.kt:44-54 | read by name, a video search request gives back the query and exactly the filters given |
| `Api.VideoPopularReadBack` | pexkit-client/src/commonMain/kotlin/io/pexkit/api/VideosApi.kt:71-77 | a popular request carries no query and no orientation, size or locale, whatever the filters hold; its numeric filters read back as given |
| `Api.CollectionMediaReadBack` | pexkit-client/src/commonMain/kotlin/io/pexkit/api/CollectionsApi.kt:77-80 | the media type reads back exactly as given, absent when not given |
| `Api.ParameterValueAppend` | pexkit-client/src/commonMain/kotlin/io/pexkit/api/PhotosApi.kt:41-48 | over appended parameters, a name is looked up in the earlier ones first |
| `Api.OptValue` | pexkit-client/src/commonMain/kotlin/io/pexkit/api/PhotosApi.kt:45-48 | an optional parameter is found under its own name only, with the value it was given |
| `Api.AppendOptValue` | pexkit-client/src/commonMain/kotlin/io/pexkit/api/PhotosApi.kt:45-48 | appending an optional parameter keeps every name already present and adds its own name only when a value is given |
| `Api.PageParametersValue` | pexkit-client/src/commonMain/kotlin/io/pexkit/api/PhotosApi.kt:43-44 | the page parameters hold the page and the chosen page size under `page` and `per_page`, and no other name |
| `Api.QueryPageValue` | pexkit-client/src/commonMain/kotlin/io/pexkit/api/PhotosApi.kt:42-44 | the query is found under `query`, every other name as in the page parameters |
| `Api.PhotoSearchValue` | pexkit-client/src/commonMain/kotlin/io/pexkit/api/PhotosApi.kt:41-48 | a photo search request holds the query, the page parameters and each set filter under its own name, and nothing under any other name |
| `Api.NumericFiltersValue` | pexkit-client/src/commonMain/kotlin/io/pexkit/api/VideosApi.kt:51-54 | the numeric filters keep every name already present and add each set filter under its own name only |
| `Api.VideoSearchValue` | pexkit-client/src/commonMain/kotlin/io/pexkit/api/VideosApi.kt:44-54 | a video search request holds the query, the page parameters and each set filter under its own name, and nothing under any other name |
| `Api.VideoPopularValue` | pexkit-client/src/commonMain/kotlin/io/pexkit/api/VideosApi.kt:71-77 | a popular request holds the page parameters and the set numeric filters, and nothing under any other name |
| `Api.CollectionMediaValue` | pexkit-client/src/commonMain/kotlin/io/pexkit/api/CollectionsApi.kt:77-80 | a collection-media request holds the page parameters and the type when given, and nothing under any other name |
| `Api.VideoQueryLimit` | pexkit-client/src/commonMain/kotlin/io/pexkit/api/VideosApi.kt:41-42 | the limit counts UTF-16 units: 200 characters from the Basic Multilingual Plane are accepted, but only 100 characters from beyond it |
| `KotlinLang.IntToString` | pexkit-client/src/commonMain/kotlin/io/pexkit/api/internal/Endpoints.kt:13 | the shortest decimal rendering: a minus sign exactly for negatives, then digits without a leading zero that denote the magnitude |
| `KotlinLang.NatToDigits` | pexkit-client/src/commonMain/kotlin/io/pexkit/api/internal/Endpoints.kt:13 | decimal digits only, with a leading zero exactly for 0 |
| `KotlinLang.IntToStringUnique` | pexkit-client/src/commonMain/kotlin/io/pexkit/api/internal/Endpoints.kt:13 | any canonical decimal that parses to a number is that number's rendering |
| `KotlinLang.CanonicalDigitsUnique` | pexkit-client/src/commonMain/kotlin/io/pexkit/api/internal/Endpoints.kt:18 | digits without a leading zero are the rendering of the number they denote |
| `KotlinLang.IntToStringInjective` | pexkit-client/src/commonMain/kotlin/io/pexkit/api/response/PexKitError.kt:57 | different numbers render differently |
| `KotlinLang.ParseSigned` | pexkit-client/src/commonMain/kotlin/io/pexkit/api/internal/ApiExecutor.kt:59-61 | a parsed value lies in the target range and comes from an optional sign followed by digits only; the empty string never parses |
| `KotlinLang.ToIntOrNull` | pexkit-client/src/commonMain/kotlin/io/pexkit/api/internal/ApiExecutor.kt:59-60 | the value of an optionally signed decimal in the `Int` range, `null` otherwise |
| `KotlinLang.ToLongOrNull` | pexkit-client/src/commonMain/kotlin/io/pexkit/api/internal/ApiExecutor.kt:61 | the value of an optionally signed decimal in the `Long` range, `null` otherwise |
| `KotlinLang.IntToStringRoundTrip` | pexkit-client/src/commonMain/kotlin/io/pexkit/api/internal/ApiExecutor.kt:59-61 | parsing a rendered number gives it back exactly when it is in range |
| `KotlinLang.IntRoundTrip` | pexkit-client/src/commonMain/kotlin/io/pexkit/api/internal/ApiExecutor.kt:59-60 | every `Int` is read back from its rendering |
| `KotlinLang.LongRoundTrip` | pexkit-client/src/commonMain/kotlin/io/pexkit/api/internal/ApiExecutor.kt:61 | every `Long` is read back from its rendering |
| `KotlinLang.IntOverflowIsNull` | pexkit-client/src/commonMain/kotlin/io/pexkit/api/internal/ApiExecutor.kt:59-61 | a number beyond `Int` but within `Long` parses only as a `Long` |
| `KotlinLang.ParseSyntaxExamples` | pexkit-client/src/commonMain/kotlin/io/pexkit/api/internal/ApiExecutor.kt:81 | the accepted syntax: a sign and leading zeros are allowed; the empty string, a bare sign, a leading space and a letter are not |
| `KotlinLang.IsBlankAllWhitespace` | pexkit-client/src/commonMain/kotlin/io/pexkit/api/PexKitConfig.kt:46 | a string is blank exactly when every character is whitespace |
| `KotlinLang.Utf16LengthBounds` | pexkit-client/src/commonMain/kotlin/io/pexkit/api/VideosApi.kt:42 | the UTF-16 length lies between the character count and twice it; it equals the character count for Basic Multilingual Plane text and twice it for text entirely beyond that plane |
| `KotlinLang.Utf16LengthAppend` | pexkit-client/src/commonMain/kotlin/io/pexkit/api/VideosApi.kt:42 | the UTF-16 length of a concatenation is the sum of the lengths |
| `KotlinLang.MapNotNullLength` | pexkit-client/src/commonMain/kotlin/io/pexkit/api/internal/ApiResponses.kt:96 | kept plus discarded elements are all the elements |
| `KotlinLang.MapNotNullAppend` | pexkit-client/src/commonMain/kotlin/io/pexkit/api/internal/ApiResponses.kt:96 | `mapNotNull` of a concatenation concatenates the results |
| `KotlinLang.MapNotNullMembership` | pexkit-client/src/commonMain/kotlin/io/pexkit/api/internal/ApiResponses.kt:96 | a value is in the result exactly when some element maps to it |
| `KotlinLang.MapNotNullTotal` | pexkit-client/src/commonMain/kotlin/io/pexkit/api/internal/ApiResponses.kt:96 | when no element maps to `null`, the result is the element-wise map |
| `KotlinLang.Option.Map` | pexkit-client/src/commonMain/kotlin/io/pexkit/api/internal/ApiExecutor.kt:59-61 | `?.let` keeps `null` and applies the function to a present value |
| `KotlinLang.Option.FlatMap` | pexkit-client/src/commonMain/kotlin/io/pexkit/api/internal/ApiExecutor.kt:81 | `?.let` with a nullable function gives `null` when either step does |

## Definitions

These members define a value of the source without a contract of their own; the row named in the last column states their properties.

| definition | source | its properties are stated by |
|---|---|---|
| `Request.Orientation.Value`, `Request.Size.Value`, `Request.MediaType.Value` | pexkit-client/src/commonMain/kotlin/io/pexkit/api/request/Filters.kt:3-17 | `Request.SmallEnumsRoundTrip`, `Request.ValuesInjective`, `Request.OrientationOf`, `Request.SizeOf`, `Request.MediaTypeOf` |
| `Request.Color.Value` | pexkit-client/src/commonMain/kotlin/io/pexkit/api/request/Filters.kt:20-33 | `Request.ColorValuesLowercase`, `Request.ColorRoundTrip`, `Request.ColorOf` |
| `Request.Locale.Value` | pexkit-client/src/commonMain/kotlin/io/pexkit/api/request/Filters.kt:36-65 | `Request.LocaleRoundTrip`, `Request.ValuesInjective` |
| `Request.IsHexColor` | pexkit-client/src/commonMain/kotlin/io/pexkit/api/request/PhotoFilters.kt:29-31 | `Request.WithHexColor`, `Request.HexColorExamples` |
| `Api.Opt` | pexkit-client/src/commonMain/kotlin/io/pexkit/api/PhotosApi.kt:45-48 | `Api.OptValue`, `Api.AppendOptValue` |
| `Api.PageParameters` | pexkit-client/src/commonMain/kotlin/io/pexkit/api/PhotosApi.kt:43-44 | `Api.PageParametersValue`, `Api.PageParametersReadBack` |
| `Api.PhotoSearchParameters` | pexkit-client/src/commonMain/kotlin/io/pexkit/api/PhotosApi.kt:41-48 | `Api.PhotoSearchValue`, `Api.PhotoSearchReadBack` |
| `Api.WithNumericFilters` | pexkit-client/src/commonMain/kotlin/io/pexkit/api/VideosApi.kt:51-54 | `Api.NumericFiltersValue`, `Api.AppendNumericFilters` |
| `Api.VideoSearchParameters` | pexkit-client/src/commonMain/kotlin/io/pexkit/api/VideosApi.kt:44-54 | `Api.VideoSearchValue`, `Api.VideoSearchReadBack` |
| `Api.VideoPopularParameters` | pexkit-client/src/commonMain/kotlin/io/pexkit/api/VideosApi.kt:71-77 | `Api.VideoPopularValue`, `Api.VideoPopularReadBack` |
| `Api.CollectionMediaParameters` | pexkit-client/src/commonMain/kotlin/io/pexkit/api/CollectionsApi.kt:77-80 | `Api.CollectionMediaValue`, `Api.CollectionMediaReadBack` |
| `Api.ParameterValue` (ktor's `parameters[name]`) | pexkit-client/src/commonMain/kotlin/io/pexkit/api/PhotosApi.kt:41-48 | `Api.ParameterValueAppend` |
| `Api.PageSizeSentInRange` | pexkit-client/src/commonMain/kotlin/io/pexkit/api/PhotosApi.kt:44 | `Api.PageSizeAlwaysInRange` |
| `Api.VideoQueryAccepted` | pexkit-client/src/commonMain/kotlin/io/pexkit/api/VideosApi.kt:41-42 | `Api.VideosApi.Search`, `Api.VideoQueryLimit` |
| `Api.PhotoPage`, `Api.VideoPage`, `Api.CollectionPage`, `Api.CollectionMediaPage` (the `map { it.toPaginatedResponse() }` lambdas) | pexkit-client/src/commonMain/kotlin/io/pexkit/api/PhotosApi.kt:49 | the four `ApiResponses.*.ToPaginatedResponse` rows |
| `Executor.IsSuccess` | pexkit-client/src/commonMain/kotlin/io/pexkit/api/internal/ApiExecutor.kt:42 | `Executor.Classify` |
| `Executor.IntHeader`, `Executor.LongHeader` | pexkit-client/src/commonMain/kotlin/io/pexkit/api/internal/ApiExecutor.kt:59-61 | `Executor.ExtractRateLimitInfo`, `Executor.ParseError`, `Executor.RetryAfterRoundTrip` |
| `ApiResponses.Dropped` | pexkit-client/src/commonMain/kotlin/io/pexkit/api/internal/ApiResponses.kt:185-198 | `ApiResponses.ToCollectionMedia`, `ApiResponses.DroppedCountIsNullCount` |
| `KotlinLang.IsWhitespace`, `KotlinLang.IsBlank` | pexkit-client/src/commonMain/kotlin/io/pexkit/api/PexKitConfig.kt:46 | `KotlinLang.IsBlankAllWhitespace` |
| `KotlinLang.Utf16Length` | pexkit-client/src/commonMain/kotlin/io/pexkit/api/VideosApi.kt:42 | `KotlinLang.Utf16LengthBounds`, `KotlinLang.Utf16LengthAppend` |
| `KotlinLang.MapNotNull`, `KotlinLang.CountNull` | pexkit-client/src/commonMain/kotlin/io/pexkit/api/internal/ApiResponses.kt:96 | `KotlinLang.MapNotNullLength`, `KotlinLang.MapNotNullAppend`, `KotlinLang.MapNotNullMembership`, `KotlinLang.MapNotNullTotal` |

## Left out

- The HTTP client, its engines, logging, timeouts and the JSON serializer are not modelled. A request's outcome is the `transport` parameter, and a body's decoding is the `decode` parameter. Both are deterministic functions. `HttpClientFactory.kt` and `HttpEngineProvider*.kt` are not part of this model.
- Coroutines, and the blocking and async wrappers (`PexKitBlocking`, `PexKitAsync` and the per-resource wrappers), are not modelled. They only re-expose the same calls.
- `PexKit.close()` and the client's HTTP lifecycle are not modelled. `PexKit(apiKey)` is modelled up to the configuration it builds (`Config.ConfigureWithKey`).
- Header lookup is the `header` function of a response. ktor's case-insensitive matching of header names is assumed to happen inside that function.
- URL encoding of query parameters is not modelled. A request holds the parameter names and the values as the client renders them.
- `Errors.Throwable` models only what the core reads of an exception: its message and its cause. Exception identity, class, stack trace and suppressed exceptions are not modelled. A `Throwable` that is not an `Exception` is not caught in the source, and is outside this model.
- `KotlinLang.ToIntOrNull` and `KotlinLang.ToLongOrNull`: only ASCII digits are accepted. Kotlin's parser also accepts other Unicode decimal digits. The Pexels rate-limit headers carry ASCII.
- `Double` fields (`VideoFile.fps`) are opaque 64-bit values that are copied through. No floating-point arithmetic is involved.
- `Duration` and `HttpClientEngine` in the configuration are opaque values that are carried through.
- `Photo.aspectRatio()` and `Video.aspectRatio()` are not modelled, because they are `Float` divisions.
- The `PexKitResult` callbacks `onSuccess` and `onFailure` cannot perform effects in Dafny. `Results.PexKitResult.OnSuccess` and `Results.PexKitResult.OnFailure` return the receiver together with the value the action computed, if it ran.
- `Results.PexKitResult.GetOrThrow`: the thrown exception is returned as the `Threw` case of a value, not raised.
