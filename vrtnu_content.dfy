/** The VRT NU program repository: two queries against the suggest endpoint,
    one for the whole A-Z catalogue and one for a single program by name. */
module VrtNuContent {
  import opened Arrow
  import opened HttpUrls

  /** The failures of the VRT NU content `ApiResponse`. */
  datatype Failure = JsonParsingException(throwable: Throwable) | EmptyJson

  /** The successes of the VRT NU content `ApiResponse`; the Program schema
      itself is left to the decoder. */
  datatype Success<+Program> = Programs(programs: seq<Program>) | SingleProgram(program: Program)

  /** The search query handed to the URL builder; None leaves a field at the
      default of `SearchQuery`. */
  datatype SearchQuery = SearchQuery(
    transcodingStatus: Option<string>,
    programName: Option<string>,
    size: Option<int>)

  /** What an operation does: return a value, or throw an exception that is
      not caught inside the operation. */
  datatype Outcome<+T> = Returned(value: T) | Thrown(exception: Throwable)

  /** `HttpProgramRepo`: the client, seen as the body (if any) it receives for
      a URL; the query builder `ElasticSearchUrlBuilder.applySearchQuery`;
      and the list decoder of `JsonProgramParser`. */
  datatype ProgramRepo<Program> = ProgramRepo(
    body: HttpUrl -> Option<string>,
    applySearchQuery: (HttpUrl, SearchQuery) -> HttpUrl,
    decodePrograms: string -> Either<Throwable, seq<Program>>)

  /** The query of `fetchAZPrograms`: only the transcoding status is set. */
  const AZQuery := SearchQuery(Some("AVAILABLE"), None, None)

  /** The query of `fetchProgramByName`: the same status, the name, and one
      result. */
  function ByNameQuery(programName: string): (q: SearchQuery)
    ensures q.transcodingStatus == AZQuery.transcodingStatus
    ensures q.programName == Some(programName) && q.size == Some(1)
  {
    SearchQuery(Some("AVAILABLE"), Some(programName), Some(1))
  }

  /** The builder `constructUrl` hands to `applySearchQuery`. */
  function SuggestBase(): (u: HttpUrl)
    ensures u == HttpUrl("https", "vrtnu-api.vrt.be", ["suggest"])
  {
    Builder().Scheme("https").Host("vrtnu-api.vrt.be").AddPathSegment("suggest")
  }

  /** `constructUrl(searchQuery)`. */
  function ConstructUrl<Program>(repo: ProgramRepo<Program>, searchQuery: SearchQuery): (u: HttpUrl)
    ensures u == repo.applySearchQuery(HttpUrl("https", "vrtnu-api.vrt.be", ["suggest"]), searchQuery)
  {
    repo.applySearchQuery(SuggestBase(), searchQuery)
  }

  /** `JsonProgramParser.parse`: a decode exception becomes
      JsonParsingException carrying that exception; otherwise the decoded list
      unchanged. */
  function ParsePrograms<Program>(
    decodePrograms: string -> Either<Throwable, seq<Program>>, json: string): (r: Either<Failure, seq<Program>>)
    ensures r.Right? <==> decodePrograms(json).Right?
    ensures r.Right? ==> r.right == decodePrograms(json).right
    ensures r.Left? ==> r.left == JsonParsingException(decodePrograms(json).left)
  {
    match decodePrograms(json)
    case Left(t) => Left(JsonParsingException(t))
    case Right(programs) => Right(programs)
  }

  /** `fetchAZPrograms()`. */
  function FetchAZPrograms<Program>(repo: ProgramRepo<Program>): (r: Either<Failure, Success<Program>>)
    ensures r == Left(EmptyJson) <==> repo.body(ConstructUrl(repo, AZQuery)).None?
    ensures r.Right? <==>
      repo.body(ConstructUrl(repo, AZQuery)).Some? &&
      repo.decodePrograms(repo.body(ConstructUrl(repo, AZQuery)).value).Right?
    ensures r.Right? ==>
      r.right == Programs(repo.decodePrograms(repo.body(ConstructUrl(repo, AZQuery)).value).right)
    ensures repo.body(ConstructUrl(repo, AZQuery)).Some? && r.Left? ==>
      r.left == JsonParsingException(repo.decodePrograms(repo.body(ConstructUrl(repo, AZQuery)).value).left)
  {
    match repo.body(ConstructUrl(repo, AZQuery))
    case None => Left(EmptyJson)
    case Some(json) =>
      match ParsePrograms(repo.decodePrograms, json)
      case Left(f) => Left(f)
      case Right(programs) => Right(Programs(programs))
  }

  /** `fetchProgramByName(programName)`. An empty decoded list is not turned
      into a Failure: `first()` throws NoSuchElementException out of the
      operation. */
  function FetchProgramByName<Program>(
    repo: ProgramRepo<Program>, programName: string): (r: Outcome<Either<Failure, Success<Program>>>)
    ensures var body := repo.body(ConstructUrl(repo, ByNameQuery(programName)));
      && (r == Returned(Left(EmptyJson)) <==> body.None?)
      && (r.Thrown? <==> body.Some? && repo.decodePrograms(body.value) == Right([]))
      && (r.Thrown? ==> r.exception.NoSuchElementException?)
      && (r.Returned? && r.value.Right? <==>
          body.Some? && repo.decodePrograms(body.value).Right? && |repo.decodePrograms(body.value).right| > 0)
      && (r.Returned? && r.value.Right? ==>
          r.value.right == SingleProgram(repo.decodePrograms(body.value).right[0]))
      && (body.Some? && repo.decodePrograms(body.value).Left? ==>
          r == Returned(Left(JsonParsingException(repo.decodePrograms(body.value).left))))
  {
    match repo.body(ConstructUrl(repo, ByNameQuery(programName)))
    case None => Returned(Left(EmptyJson))
    case Some(json) =>
      match ParsePrograms(repo.decodePrograms, json)
      case Left(f) => Returned(Left(f))
      case Right(programs) =>
        if |programs| == 0 then Thrown(NoSuchElementException("List is empty."))
        else Returned(Right(SingleProgram(programs[0])))
  }

  /** When the by-name query is answered with the same body as the A-Z query,
      the single program is the head of the A-Z list, and both fail alike. */
  lemma ByNameIsHeadOfAZ<Program>(repo: ProgramRepo<Program>, programName: string)
    requires repo.body(ConstructUrl(repo, ByNameQuery(programName))) == repo.body(ConstructUrl(repo, AZQuery))
    ensures FetchAZPrograms(repo).Left? ==> FetchProgramByName(repo, programName) == Returned(Left(FetchAZPrograms(repo).left))
    ensures FetchAZPrograms(repo).Right? ==>
      match FetchProgramByName(repo, programName)
      case Thrown(_) => FetchAZPrograms(repo).right.programs == []
      case Returned(r) =>
        && FetchAZPrograms(repo).right.programs != []
        && r == Right(SingleProgram(FetchAZPrograms(repo).right.programs[0]))
  {
  }
}
