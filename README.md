# Content resolution for VIER and VRT NU, modelled in Dafny

This project models the result-combining logic of three repositories of a
Kotlin client for Belgian broadcasters' catalogues. HTTP calls, Jsoup HTML
parsing and kotlinx.serialization JSON decoding are not modelled. They appear
as function-typed fields of a repository value (`Repo`, `EpgRepo`,
`ProgramRepo`). The model covers what the code does with their results.

- **VIER content** (`vier_content.dfy`, module `VierContent`).
  - The home page's program anchors are validated one by one, on title and
    path independently. All errors of all links are accumulated.
  - Each partial program's page is fetched and parsed. The results are joined
    fail-fast, in listing order.
  - A detail page carries the program as JSON in its `data-hero` attribute.
    Its parse separates HTML failures from JSON failures.
  - Episodes are found by node id in the flattened playlists, or fetched by
    video id.
- **VRT NU EPG** (`vrtnu_epg.dfy`, module `VrtNuEpg`). A calendar date becomes
  `https://vrt.be/bin/epg/schedule.<year>-<month>-<day>.json`. The month is
  counted from 1 and no field is zero-padded. The body is then decoded.
- **VRT NU programs** (`vrtnu_content.dfy`, module `VrtNuContent`). The A-Z
  query and the by-name query go to the suggest endpoint. Missing bodies, decode
  errors and an empty by-name result are each handled as the code handles them.

Supporting modules:

- `arrow.dfy` (`Arrow`): the functional-library combinators the code relies
  on. These are Either and Validated (with a non-empty error list), `sequence`
  for both, `flatMap` and `firstOrNull`. Each comes with a contract describing
  its result, except `Flatten`, whose properties are the lemmas
  `FlattenMembers` and `FlattenAppend`.
- `strings.dfy` (`Strings`): Kotlin's decimal rendering of `Int` in string
  templates, its inverse, and splitting on a separator.
- `http_urls.dfy` (`HttpUrls`): the part of OkHttp's URL builder that is used.

Three behaviours of the code are worth stating outright:

- **Error count.** The listing parser reports one error per failed field. A
  link whose title and href both fail reports two errors, so K malformed links
  report between K and 2K errors (`ParsingErrorCount`), and exactly K when no
  link is broken in both places.
- **Detail-parse failures.** Every step after the `data-hero` attribute is read
  fails as `JsonParsingException`. Only the carried throwable tells those steps
  apart: `NullPointerException` for a missing `"data"` key,
  `IllegalArgumentException` for a non-object `data`, or the decoder's own
  exception (`DecodeHero`, `ParseProgramStages`).
- **Exceptions.** `fetchProgramByName` calls `first()` on the decoded list, so
  an empty list throws `NoSuchElementException` out of the call. The model
  makes this an explicit `Thrown` outcome (`FetchProgramByName`).

The combination order of the functional library follows its documented
semantics:

- `Either` traversal returns the first `Left` in list order.
- Validated `mapN` puts the errors of its first argument (the title) before
  those of its second (the path).
- Validated traversal concatenates errors in list order.

## Model

| member | source | states |
|---|---|---|
| `Arrow.ToValidatedNel` | vier/src/main/java/be/tapped/vier/content/ProgramRepo.kt:52-53 | a failure becomes a one-element non-empty error list; a success keeps its value |
| `Arrow.Zip` | vier/src/main/java/be/tapped/vier/content/ProgramRepo.kt:54 | valid exactly when both sides are valid; otherwise the errors of the first side followed by those of the second, and never an empty error list |
| `Arrow.SequenceValidated` | vier/src/main/java/be/tapped/vier/content/ProgramRepo.kt:55-58 | valid exactly when every element is valid, then holding every value in order with equal length; otherwise the errors of the invalid elements only, concatenated in list order, non-empty |
| `Arrow.Sequence` | vier/src/main/java/be/tapped/vier/content/ProgramRepo.kt:178 | Right exactly when every element is Right, then holding every value in order with equal length; otherwise the Left of the first Left element, all earlier elements being Right |
| `Arrow.FirstOrNull` | vier/src/main/java/be/tapped/vier/content/ProgramRepo.kt:170 | None exactly when no element matches; otherwise a matching element at some position with no match before it |
| `Arrow.FlattenMembers` | vier/src/main/java/be/tapped/vier/content/ProgramRepo.kt:169 | an element is in the flattened list exactly when it is in one of the inner lists |
| `VierContent.ValidateLink` | vier/src/main/java/be/tapped/vier/content/ProgramRepo.kt:52-54 | a link gives PartialProgram(child-0 text, href) exactly when both succeed; otherwise its title error and then its href error |
| `VierContent.DoublyBrokenLinkReportsBoth` | vier/src/main/java/be/tapped/vier/content/ProgramRepo.kt:52-54 | a link broken in both places reports both errors, title first |
| `VierContent.ParsePartialPrograms` | vier/src/main/java/be/tapped/vier/content/ProgramRepo.kt:49-59 | a failed anchor selection is returned unchanged; Right exactly when every link is valid, then one partial program per link in document order; otherwise Parsing of the errors of the invalid links in link order (never empty, never a partial list) |
| `VierContent.ValidLinkContributesNothing` | vier/src/main/java/be/tapped/vier/content/ProgramRepo.kt:55-58 | removing a valid link leaves the reported errors unchanged |
| `VierContent.ParsingErrorCount` | vier/src/main/java/be/tapped/vier/content/ProgramRepo.kt:51-58 | K malformed links report between K and 2K errors, and exactly K when no link is broken in both title and href |
| `VierContent.DecodeHero` | vier/src/main/java/be/tapped/vier/content/ProgramRepo.kt:76-81 | a malformed outer document keeps the decoder's exception; a missing "data" key gives NullPointerException; non-object data gives IllegalArgumentException; an object data that the Program decoder rejects keeps that decoder's exception; success exactly when data is an object that decodes to a Program, which is returned |
| `VierContent.ParseProgram` | vier/src/main/java/be/tapped/vier/content/ProgramRepo.kt:71-83 | a missing hero div or unreadable data-hero attribute is returned as that HTML failure; once the attribute is read, every failure is JsonParsingException carrying the decoding exception, and success carries the decoded program |
| `VierContent.ParseProgramStages` | vier/src/main/java/be/tapped/vier/content/ProgramRepo.kt:72-82 | the parse fails with an HTML failure exactly when the attribute cannot be read, any other failure is a JsonParsingException, and with an HTML failure the result does not depend on the JSON decoders (decoding is never attempted) |
| `VierContent.ParseEpisode` | vier/src/main/java/be/tapped/vier/content/ProgramRepo.kt:87-88 | a decode exception becomes JsonParsingException carrying it; otherwise the decoded episode unchanged |
| `VierContent.FetchProgramFromUrl` | vier/src/main/java/be/tapped/vier/content/ProgramRepo.kt:138-142 | a failed fetch is Transport of its detail (an assumption, see Left out); after a successful fetch the result is exactly the page parse's, so a failure is that parse's own selection HTML failure (never Parsing) or JsonParsingException; success carries the parsed program |
| `VierContent.FetchProgramDetails` | vier/src/main/java/be/tapped/vier/content/ProgramRepo.kt:176-179 | each partial program is fetched from vierUrl followed by its path; Right exactly when all succeed, then the programs in stub order with equal length; otherwise the failure of the first failing stub in list order |
| `VierContent.Listing` | vier/src/main/java/be/tapped/vier/content/ProgramRepo.kt:114-121 | a failed home-page fetch is Transport of its detail; a listing parse failure is HTML of that parse's own failure; otherwise the parsed partial programs unchanged |
| `VierContent.FetchPrograms` | vier/src/main/java/be/tapped/vier/content/ProgramRepo.kt:111-125 | a home-page fetch or listing failure is returned as is; otherwise Programs of the joined details exactly when every detail succeeds, else the join's failure |
| `VierContent.FetchProgramsInLinkOrder` | vier/src/main/java/be/tapped/vier/content/ProgramRepo.kt:111-125 | with well-formed links and parsable detail pages the result lists one program per link, in link order, each parsed from vierUrl followed by that link's href |
| `VierContent.ParsingFailureComesFromTheListing` | vier/src/main/java/be/tapped/vier/content/ProgramRepo.kt:111-125 | a Parsing failure of fetchPrograms means the home page was fetched, its links were selected, one is malformed, and the errors are exactly those of the links (non-empty) |
| `VierContent.TransportFailureComesFromAFetch` | vier/src/main/java/be/tapped/vier/content/ProgramRepo.kt:111-142 | a Transport failure of fetchPrograms is the report of the home-page fetch or of the fetch of a listed program's page |
| `VierContent.FetchProgramsReportsAllLinkErrors` | vier/src/main/java/be/tapped/vier/content/ProgramRepo.kt:121 | a listing with a malformed link fails with Parsing of all link errors, whatever the detail pages hold |
| `VierContent.FetchProgram` | vier/src/main/java/be/tapped/vier/content/ProgramRepo.kt:144-145 | the failure of fetching the key's URL unchanged, or SingleProgram of the program found there |
| `VierContent.FetchEpisodeByUuid` | vier/src/main/java/be/tapped/vier/content/ProgramRepo.kt:147-159 | fetches vierApiUrl/video/<id>; a failed fetch is Transport of its detail, a decode failure is JsonParsingException carrying the decoder's own exception, success is SingleEpisode of the decoded episode |
| `VierContent.AllEpisodes` | vier/src/main/java/be/tapped/vier/content/ProgramRepo.kt:167-169 | an episode is in the flattened list exactly when it is in one of the program's playlists |
| `VierContent.AllEpisodesAppend` | vier/src/main/java/be/tapped/vier/content/ProgramRepo.kt:167-169 | the episodes of two runs of playlists, one after the other, are those of the first run followed by those of the second |
| `VierContent.FindEpisode` | vier/src/main/java/be/tapped/vier/content/ProgramRepo.kt:166-170 | None exactly when no episode of any playlist has the node id; otherwise the first such episode in flattened playlist order |
| `VierContent.EarlierPlaylistsSearchedFirst` | vier/src/main/java/be/tapped/vier/content/ProgramRepo.kt:166-170 | a match in earlier playlists is returned whatever the later ones hold; the later ones are searched only when the earlier have no match |
| `Arrow.FirstOrNullAppend` | vier/src/main/java/be/tapped/vier/content/ProgramRepo.kt:170 | searching a concatenation returns the first part's match if it has one, else the second part's |
| `VierContent.FetchEpisodeByNodeId` | vier/src/main/java/be/tapped/vier/content/ProgramRepo.kt:161-174 | a program fetch or parse failure propagates unchanged; otherwise NoEpisodeFound exactly when no flattened episode has the key's node id, and else the first such episode in flattened playlist order |
| `VierContent.NoEpisodeFoundMeansNoMatch` | vier/src/main/java/be/tapped/vier/content/ProgramRepo.kt:161-174 | NoEpisodeFound is reported only when the program page was fetched and parsed and no episode of it has the node id |
| `VierContent.EpisodeByNodeIdIsTheUniqueMatch` | vier/src/main/java/be/tapped/vier/content/ProgramRepo.kt:161-174 | when node ids are unique within the program, the episode returned is the one episode carrying the requested node id |
| `Strings.IntToString` | vrtnu/src/main/java/be/tapped/vrtnu/epg/EpgRepo.kt:45 | a non-empty string, all digits for a non-negative number, '-' then digits for a negative one |
| `Strings.NatToStringRoundTrip` | vrtnu/src/main/java/be/tapped/vrtnu/epg/EpgRepo.kt:45 | reading the rendered digits back gives the number |
| `Strings.NoZeroPadding` | vrtnu/src/main/java/be/tapped/vrtnu/epg/EpgRepo.kt:45 | a rendered non-negative number starts with '0' only when it is "0": no zero padding |
| `Strings.IntToStringInjective` | vrtnu/src/main/java/be/tapped/vrtnu/epg/EpgRepo.kt:45 | distinct integers render differently |
| `VrtNuEpg.ConstructUrl` | vrtnu/src/main/java/be/tapped/vrtnu/epg/EpgRepo.kt:40-47 | scheme https, host vrt.be, path segments bin, epg and the schedule segment |
| `VrtNuEpg.ScheduleSegmentRoundTrip` | vrtnu/src/main/java/be/tapped/vrtnu/epg/EpgRepo.kt:45 | the schedule segment is unambiguous: year, month and day are read back from it in that order, although the arguments come as (day, month, year) |
| `VrtNuEpg.RequestUrlNamesTheDate` | vrtnu/src/main/java/be/tapped/vrtnu/epg/EpgRepo.kt:49-59 | the requested URL is https://vrt.be/bin/epg/ followed by a segment naming the calendar year, the 0-based month plus one (within 1..12) and the day |
| `VrtNuEpg.ScheduleSegmentExamples` | vrtnu/src/main/java/be/tapped/vrtnu/epg/EpgRepo.kt:39-45 | 21 November 2020 gives schedule.2020-11-21.json; 5 January 2021 gives schedule.2021-1-5.json, unpadded |
| `VrtNuEpg.ParseEpg` | vrtnu/src/main/java/be/tapped/vrtnu/epg/EpgRepo.kt:17-20 | a decode exception becomes JsonParsingException carrying it; otherwise the decoded value unchanged |
| `VrtNuEpg.FetchEpg` | vrtnu/src/main/java/be/tapped/vrtnu/epg/EpgRepo.kt:49-68 | EmptyJson exactly when the date's URL has no body; Success of the decoded value, unchanged, exactly when the body decodes; otherwise JsonParsingException of the decoder's exception |
| `VrtNuEpg.MissingBodySkipsDecoder` | vrtnu/src/main/java/be/tapped/vrtnu/epg/EpgRepo.kt:63-66 | with no body the result is EmptyJson whatever the decoder: the parser is not invoked |
| `VrtNuContent.ByNameQuery` | vrtnu/src/main/java/be/tapped/vrtnu/content/ProgramRepo.kt:52-56 | the by-name query keeps transcodingStatus AVAILABLE of the A-Z query and adds the program name and size 1 |
| `VrtNuContent.SuggestBase` | vrtnu/src/main/java/be/tapped/vrtnu/content/ProgramRepo.kt:68-74 | before the query is applied the URL is https, host vrtnu-api.vrt.be, the single path segment suggest |
| `VrtNuContent.ConstructUrl` | vrtnu/src/main/java/be/tapped/vrtnu/content/ProgramRepo.kt:68-74 | the request URL is the search query applied to https://vrtnu-api.vrt.be/suggest |
| `VrtNuContent.ParsePrograms` | vrtnu/src/main/java/be/tapped/vrtnu/content/ProgramRepo.kt:14-17 | a decode exception becomes JsonParsingException carrying it; otherwise the decoded list unchanged |
| `VrtNuContent.FetchAZPrograms` | vrtnu/src/main/java/be/tapped/vrtnu/content/ProgramRepo.kt:32-44 | EmptyJson exactly when the A-Z URL has no body; Programs of the whole decoded list, unchanged and in order, exactly when the body decodes; otherwise JsonParsingException |
| `VrtNuContent.FetchProgramByName` | vrtnu/src/main/java/be/tapped/vrtnu/content/ProgramRepo.kt:46-66 | EmptyJson exactly when there is no body; a decode exception gives JsonParsingException; an empty decoded list throws NoSuchElementException out of the call; otherwise SingleProgram of the first decoded element |
| `VrtNuContent.ByNameIsHeadOfAZ` | vrtnu/src/main/java/be/tapped/vrtnu/content/ProgramRepo.kt:32-66 | given the same body for both queries, the two fetches fail alike, and the by-name program is the head of the A-Z list (throwing exactly when that list is empty) |

## Left out

- HTTP transport (`executeAsync`, `safeBodyString`, `Request.Builder`,
  `withContext(Dispatchers.IO)`): a fetch is a function from URL to
  the body or a failure detail (VIER), or to an optional body (VRT NU).
  `safeBodyString` is not part of this model; the code passes its
  `ApiResponse.Failure` through `!` unchanged, and which kinds it reports is
  not known here. The model assumes it never reports `Parsing` or
  `NoEpisodeFound` and gives its failures a `Transport` kind of their own,
  whose detail is not modelled. `ParsingFailureComesFromTheListing`,
  `TransportFailureComesFromAFetch`, `NoEpisodeFoundMeansNoMatch` and the
  "never Parsing" clause of `FetchProgramFromUrl` rest on this assumption.
  VRT NU transport exceptions, thrown outside the `either` blocks, and I/O
  errors of `ResponseBody.string()` are not modelled.
- Concurrency: `parTraverse` is modelled by its observable result, a map in
  list order. Scheduling, and the fact that every detail page is fetched even
  after one fails, are not modelled.
- Jsoup parsing and CSS selection (`safeSelect`, `safeSelectFirst`,
  `safeAttr`, `safeChild`, `safeText`): a document is given by what the two
  selections return. A selection helper reports a `Missing` failure, never
  `Parsing`; its payload is an uninterpreted string.
- kotlinx.serialization: the outer-object, lenient Program, default Episode,
  Epg and Program-list decoders are uninterpreted functions. The Program and
  Episode schemas are reduced to the fields the repository reads. The Epg and VRT NU
  Program types are type parameters.
- `ElasticSearchUrlBuilder.applySearchQuery`, `vierUrl` and `vierApiUrl` are
  parameters. The model fixes the query values and the base URL but not how
  the query is written into the URL.
- OkHttp `HttpUrl.Builder`: percent-encoding, the handling of `.` and `..`
  segments, and the splitting of `addPathSegments` on `\` as well as `/` are
  not modelled. The only argument split is `bin/epg`, which holds no `\`. The EPG segment holds only digits, letters, `.`
  and `-`, so it needs no encoding.
- Calendar and time-zone defaults (`Europe/Brussels`): the year, 0-based month
  and day of month are inputs. Kotlin's 32-bit `Int` range does not matter for
  calendar fields and is not modelled.
- Combination order inside the functional library: the library's source is
  not part of this model. Its documented order is taken as given.
- The CLI sample driver and the two parser tests of other providers are not
  part of this model. They hold no logic of the modelled repositories.
