/** The VIER content pipeline: the home page lists programs as anchors, each
    anchor becomes a partial program (title and path) by accumulating
    validation, and every partial program's page carries the full program as
    JSON in its `data-hero` attribute. Episodes are looked up in a program's
    playlists by node id, or fetched from the API by video id. */
module VierContent {
  import opened Arrow

  /** HTML failures: those of the selection helpers (`safeSelect`,
      `safeSelectFirst`, `safeAttr`, `safeChild`, `safeText`), whose payload
      is not modelled, and Parsing, which carries every error of a listing. */
  datatype Html = Missing(query: string) | Parsing(errors: seq<Html>)

  /** What a selection helper reports: never a Parsing failure, which only
      the listing parser builds. */
  type SelectionFailure = h: Html | h.Missing? witness Missing("")

  /** `ApiResponse.Failure`: HTML, JSON decoding and the missing episode.
      Transport is the model's own kind for what `safeBodyString` reports:
      that helper is not part of this model, and the model assumes it never
      reports Parsing or NoEpisodeFound. */
  datatype Failure =
    | HTML(html: Html)
    | JsonParsingException(throwable: Throwable)
    | NoEpisodeFound
    | Transport(detail: string)

  datatype PartialProgram = PartialProgram(name: string, path: string)

  datatype PageInfo = PageInfo(nodeId: string)
  datatype Episode = Episode(pageInfo: PageInfo, videoUuid: string)
  datatype Playlist = Playlist(episodes: seq<Episode>)
  /** The fields of a program the repository reads; the rest is left to the decoder. */
  datatype Program = Program(title: string, playlists: seq<Playlist>)

  datatype EpisodeUuid = EpisodeUuid(id: string)

  /** `SearchHit.Source.SearchKey`: how a program or an episode is found. */
  datatype SearchKey = ProgramKey(url: string) | EpisodeByNodeId(url: string, nodeId: string)

  /** `ApiResponse.Success.Content`. */
  datatype Content = Programs(programs: seq<Program>) | SingleProgram(program: Program) | SingleEpisode(episode: Episode)

  /** A child node; `text` is what `safeText` gives for it. */
  datatype Node = Node(text: Either<SelectionFailure, string>)

  /** One `a.program-overview__link` anchor: what `safeAttr("href")` and
      `safeChild(0)` give for it. */
  datatype Anchor = Anchor(href: Either<SelectionFailure, string>, firstChild: Either<SelectionFailure, Node>)

  /** The `div[data-hero]` container: what `safeAttr("data-hero")` gives. */
  datatype HeroDiv = HeroDiv(dataHero: Either<SelectionFailure, string>)

  /** A parsed HTML document, seen through the two selections the repository makes
      on it: `safeSelect("a.program-overview__link")` and
      `safeSelectFirst("div[data-hero]")`. */
  datatype Document = Document(
    programLinks: Either<SelectionFailure, seq<Anchor>>,
    heroDiv: Either<SelectionFailure, HeroDiv>)

  datatype JsonElement =
    | JsonObject(entries: map<string, JsonElement>)
    | JsonArray(items: seq<JsonElement>)
    | JsonPrimitive(content: string)
    | JsonNull

  /** The JSON decoders: `decodeFromString<JsonObject>`, the lenient
      (`isLenient`, `ignoreUnknownKeys`) `decodeFromJsonElement<Program>`, and
      the default `decodeFromString<Episode>`. */
  datatype Json = Json(
    decodeObject: string -> Either<Throwable, map<string, JsonElement>>,
    decodeProgram: map<string, JsonElement> -> Either<Throwable, Program>,
    decodeEpisode: string -> Either<Throwable, Episode>)

  /** `HttpProgramRepo` and its collaborators: `get` is a GET of a URL
      followed by `safeBodyString`, giving the body or the detail of what the
      HTTP helpers report; `jsoup` is `JsoupParser.parse`. */
  datatype Repo = Repo(
    get: string -> Either<string, string>,
    jsoup: string -> Document,
    json: Json,
    vierUrl: string,
    vierApiUrl: string)

  // ---------------------------------------------------------------------
  // HtmlPartialProgramParser

  /** The title of a link: the text of its child 0. */
  function LinkTitle(link: Anchor): Either<SelectionFailure, string> {
    match link.firstChild
    case Left(e) => Left(e)
    case Right(node) => node.text
  }

  predicate IsValidLink(link: Anchor) {
    LinkTitle(link).Right? && link.href.Right?
  }

  /** The errors a link reports: its title error, then its path error. */
  function LinkErrors(link: Anchor): seq<Html> {
    (if LinkTitle(link).Left? then [LinkTitle(link).left] else [])
    + (if link.href.Left? then [link.href.left] else [])
  }

  /** The errors of a list of links, link by link. */
  function AllLinkErrors(links: seq<Anchor>): seq<Html> {
    if |links| == 0 then [] else LinkErrors(links[0]) + AllLinkErrors(links[1..])
  }

  /** One link validated on title and path independently: a PartialProgram
      when both succeed, otherwise every error of the two. */
  function ValidateLink(link: Anchor): (v: Validated<Html, PartialProgram>)
    ensures IsNel(v)
    ensures v.Valid? <==> IsValidLink(link)
    ensures v.Valid? ==> v.value == PartialProgram(LinkTitle(link).right, link.href.right)
    ensures v.Invalid? ==> v.errors == LinkErrors(link)
  {
    match Zip(ToValidatedNel(LinkTitle(link)), ToValidatedNel(link.href))
    case Valid((title, path)) => Valid(PartialProgram(title, path))
    case Invalid(es) => Invalid(es)
  }

  function ValidateLinks(links: seq<Anchor>): (vs: seq<Validated<Html, PartialProgram>>)
    ensures |vs| == |links| && forall i :: 0 <= i < |links| ==> vs[i] == ValidateLink(links[i])
  {
    seq(|links|, i requires 0 <= i < |links| => ValidateLink(links[i]))
  }

  lemma {:induction false} InvalidErrorsOfLinks(links: seq<Anchor>)
    ensures Flatten(InvalidErrors(ValidateLinks(links))) == AllLinkErrors(links)
  {
    if |links| > 0 {
      var vs := ValidateLinks(links);
      assert vs[1..] == ValidateLinks(links[1..]);
      InvalidErrorsOfLinks(links[1..]);
      if vs[0].Invalid? {
        assert ([vs[0].errors] + InvalidErrors(vs[1..]))[1..] == InvalidErrors(vs[1..]);
      } else {
        assert LinkErrors(links[0]) == [];
      }
    }
  }

  /** `HtmlPartialProgramParser.parse`. */
  function ParsePartialPrograms(doc: Document): (r: Either<Html, seq<PartialProgram>>)
    ensures doc.programLinks.Left? ==> r == Left(doc.programLinks.left)
    ensures doc.programLinks.Right? ==>
      var links := doc.programLinks.right;
      && (r.Right? <==> forall i :: 0 <= i < |links| ==> IsValidLink(links[i]))
      && (r.Right? ==>
            && |r.right| == |links|
            && forall i :: 0 <= i < |links| ==>
                 r.right[i] == PartialProgram(LinkTitle(links[i]).right, links[i].href.right))
      && (r.Left? ==> r.left == Parsing(AllLinkErrors(links)) && |AllLinkErrors(links)| > 0)
  {
    match doc.programLinks
    case Left(e) => Left(e)
    case Right(links) =>
      InvalidErrorsOfLinks(links);
      match SequenceValidated(ValidateLinks(links))
      case Invalid(errs) => Left(Parsing(errs))
      case Valid(programs) => Right(programs)
  }

  /** A link broken in both places reports both errors, title first. */
  lemma DoublyBrokenLinkReportsBoth(link: Anchor)
    requires LinkTitle(link).Left? && link.href.Left?
    ensures ValidateLink(link) == Invalid([LinkTitle(link).left, link.href.left])
  {
  }

  lemma {:induction false} AllLinkErrorsAppend(a: seq<Anchor>, b: seq<Anchor>)
    ensures AllLinkErrors(a + b) == AllLinkErrors(a) + AllLinkErrors(b)
  {
    if |a| > 0 {
      assert (a + b)[1..] == a[1..] + b;
      AllLinkErrorsAppend(a[1..], b);
    } else {
      assert a + b == b;
    }
  }

  /** Valid links contribute nothing: removing one leaves the reported
      errors unchanged. */
  lemma ValidLinkContributesNothing(links: seq<Anchor>, i: nat)
    requires i < |links| && IsValidLink(links[i])
    ensures AllLinkErrors(links[..i] + links[i + 1..]) == AllLinkErrors(links)
  {
    assert links == links[..i] + ([links[i]] + links[i + 1..]);
    AllLinkErrorsAppend(links[..i], [links[i]] + links[i + 1..]);
    AllLinkErrorsAppend(links[..i], links[i + 1..]);
    assert AllLinkErrors([links[i]] + links[i + 1..]) == AllLinkErrors(links[i + 1..]) by {
      assert ([links[i]] + links[i + 1..])[1..] == links[i + 1..];
    }
  }

  /** The number of malformed links. */
  function MalformedCount(links: seq<Anchor>): nat {
    if |links| == 0 then 0 else (if IsValidLink(links[0]) then 0 else 1) + MalformedCount(links[1..])
  }

  /** K malformed links report between K and 2K errors: one per failed
      field, so exactly K when no link is broken in both places. */
  lemma {:induction false} ParsingErrorCount(links: seq<Anchor>)
    ensures MalformedCount(links) <= |AllLinkErrors(links)| <= 2 * MalformedCount(links)
    ensures (forall i :: 0 <= i < |links| ==> LinkTitle(links[i]).Right? || links[i].href.Right?) ==>
      |AllLinkErrors(links)| == MalformedCount(links)
  {
    if |links| > 0 {
      ParsingErrorCount(links[1..]);
      assert forall i :: 1 <= i < |links| ==> links[1..][i - 1] == links[i];
    }
  }

  // ---------------------------------------------------------------------
  // HtmlProgramParser and EpisodeParser

  /** The raw value of the `data-hero` attribute of the page's hero div. */
  function HeroAttribute(doc: Document): Either<SelectionFailure, string> {
    match doc.heroDiv
    case Left(e) => Left(e)
    case Right(div) => div.dataHero
  }

  /** The body of the `Either.catch` block: decode the outer JSON object,
      take its "data" member (`!!` throws on absence), require it to be an
      object (`jsonObject`), and decode that leniently into a Program. */
  function DecodeHero(json: Json, raw: string): (r: Either<Throwable, Program>)
    ensures json.decodeObject(raw).Left? ==> r == Left(json.decodeObject(raw).left)
    ensures json.decodeObject(raw).Right? && "data" !in json.decodeObject(raw).right ==>
      r == Left(NullPointerException)
    ensures (json.decodeObject(raw).Right? && "data" in json.decodeObject(raw).right &&
             !json.decodeObject(raw).right["data"].JsonObject?) ==> r == Left(IllegalArgumentException)
    ensures r.Right? <==>
      && json.decodeObject(raw).Right?
      && "data" in json.decodeObject(raw).right
      && json.decodeObject(raw).right["data"].JsonObject?
      && json.decodeProgram(json.decodeObject(raw).right["data"].entries).Right?
    ensures r.Right? ==> r.right == json.decodeProgram(json.decodeObject(raw).right["data"].entries).right
    ensures (&& json.decodeObject(raw).Right? && "data" in json.decodeObject(raw).right
             && json.decodeObject(raw).right["data"].JsonObject? && r.Left?) ==>
      r.left == json.decodeProgram(json.decodeObject(raw).right["data"].entries).left
  {
    match json.decodeObject(raw)
    case Left(t) => Left(t)
    case Right(outer) =>
      if "data" !in outer then Left(NullPointerException)
      else
        match outer["data"]
        case JsonObject(entries) => json.decodeProgram(entries)
        case _ => Left(IllegalArgumentException)
  }

  /** `HtmlProgramParser.parse`: an HTML failure (no hero div, or its
      attribute unreadable) is returned as is; from the attribute on, every
      failure is a JsonParsingException. */
  function ParseProgram(doc: Document, json: Json): (r: Either<Failure, Program>)
    ensures HeroAttribute(doc).Left? ==> r == Left(HTML(HeroAttribute(doc).left))
    ensures HeroAttribute(doc).Right? ==>
      && (r.Left? <==> DecodeHero(json, HeroAttribute(doc).right).Left?)
      && (r.Left? ==> r.left == JsonParsingException(DecodeHero(json, HeroAttribute(doc).right).left))
      && (r.Right? ==> r.right == DecodeHero(json, HeroAttribute(doc).right).right)
  {
    match HeroAttribute(doc)
    case Left(h) => Left(HTML(h))
    case Right(raw) =>
      match DecodeHero(json, raw)
      case Left(t) => Left(JsonParsingException(t))
      case Right(program) => Right(program)
  }

  /** The two failure kinds of the detail parse are told apart by the page
      alone: an HTML failure exactly when the hero attribute cannot be read,
      and in that case whatever the JSON decoders would do. */
  lemma ParseProgramStages(doc: Document, json: Json, other: Json)
    ensures ParseProgram(doc, json).Left? && ParseProgram(doc, json).left.HTML? <==> HeroAttribute(doc).Left?
    ensures ParseProgram(doc, json).Left? && !ParseProgram(doc, json).left.HTML? ==>
      ParseProgram(doc, json).left.JsonParsingException?
    ensures HeroAttribute(doc).Left? ==> ParseProgram(doc, json) == ParseProgram(doc, other)
  {
  }

  /** `EpisodeParser.parse`. */
  function ParseEpisode(json: Json, raw: string): (r: Either<Failure, Episode>)
    ensures r.Right? <==> json.decodeEpisode(raw).Right?
    ensures r.Right? ==> r.right == json.decodeEpisode(raw).right
    ensures r.Left? ==> r.left == JsonParsingException(json.decodeEpisode(raw).left)
  {
    match json.decodeEpisode(raw)
    case Left(t) => Left(JsonParsingException(t))
    case Right(episode) => Right(episode)
  }

  // ---------------------------------------------------------------------
  // HttpProgramRepo

  /** `fetchProgramFromUrl`: fetch the page, then parse it. */
  function FetchProgramFromUrl(repo: Repo, programUrl: string): (r: Either<Failure, Program>)
    ensures repo.get(programUrl).Left? ==> r == Left(Transport(repo.get(programUrl).left))
    ensures repo.get(programUrl).Right? ==> r == ParseProgram(repo.jsoup(repo.get(programUrl).right), repo.json)
    ensures repo.get(programUrl).Right? && r.Left? ==>
      (r.left.HTML? && r.left.html.Missing?) || r.left.JsonParsingException?
    ensures r.Right? <==> repo.get(programUrl).Right? && ParseProgram(repo.jsoup(repo.get(programUrl).right), repo.json).Right?
    ensures r.Right? ==> r.right == ParseProgram(repo.jsoup(repo.get(programUrl).right), repo.json).right
  {
    match repo.get(programUrl)
    case Left(d) => Left(Transport(d))
    case Right(html) => ParseProgram(repo.jsoup(html), repo.json)
  }

  /** The detail page URL of a partial program. */
  function DetailUrl(repo: Repo, stub: PartialProgram): string {
    repo.vierUrl + stub.path
  }

  /** `fetchProgramDetails`: every partial program's page is fetched (the
      concurrent traversal is observed as a map in list order) and the
      results are joined fail-fast. */
  function FetchProgramDetails(repo: Repo, stubs: seq<PartialProgram>): (r: Either<Failure, seq<Program>>)
    ensures r.Right? <==> forall i :: 0 <= i < |stubs| ==> FetchProgramFromUrl(repo, DetailUrl(repo, stubs[i])).Right?
    ensures r.Right? ==>
      && |r.right| == |stubs|
      && forall i :: 0 <= i < |stubs| ==> FetchProgramFromUrl(repo, DetailUrl(repo, stubs[i])) == Right(r.right[i])
    ensures r.Left? ==>
      exists k :: 0 <= k < |stubs| && FetchProgramFromUrl(repo, DetailUrl(repo, stubs[k])) == Left(r.left) &&
        forall j :: 0 <= j < k ==> FetchProgramFromUrl(repo, DetailUrl(repo, stubs[j])).Right?
  {
    var results := seq(|stubs|, i requires 0 <= i < |stubs| => FetchProgramFromUrl(repo, DetailUrl(repo, stubs[i])));
    assert forall i :: 0 <= i < |stubs| ==> results[i] == FetchProgramFromUrl(repo, DetailUrl(repo, stubs[i]));
    Sequence(results)
  }

  /** The listing stage of `fetchPrograms`: fetch the home page and parse its
      partial programs. */
  function Listing(repo: Repo): (r: Either<Failure, seq<PartialProgram>>)
    ensures repo.get(repo.vierUrl).Left? ==> r == Left(Transport(repo.get(repo.vierUrl).left))
    ensures repo.get(repo.vierUrl).Right? ==>
      var parsed := ParsePartialPrograms(repo.jsoup(repo.get(repo.vierUrl).right));
      && (parsed.Left? ==> r == Left(HTML(parsed.left)))
      && (parsed.Right? ==> r == Right(parsed.right))
  {
    match repo.get(repo.vierUrl)
    case Left(d) => Left(Transport(d))
    case Right(html) =>
      match ParsePartialPrograms(repo.jsoup(html))
      case Left(h) => Left(HTML(h))
      case Right(stubs) => Right(stubs)
  }

  /** `fetchPrograms`. */
  function FetchPrograms(repo: Repo): (r: Either<Failure, Content>)
    ensures Listing(repo).Left? ==> r == Left(Listing(repo).left)
    ensures r.Right? <==> Listing(repo).Right? && FetchProgramDetails(repo, Listing(repo).right).Right?
    ensures r.Right? ==> r.right == Programs(FetchProgramDetails(repo, Listing(repo).right).right)
    ensures Listing(repo).Right? && r.Left? ==> r.left == FetchProgramDetails(repo, Listing(repo).right).left
  {
    match Listing(repo)
    case Left(f) => Left(f)
    case Right(stubs) =>
      match FetchProgramDetails(repo, stubs)
      case Left(f) => Left(f)
      case Right(programs) => Right(Programs(programs))
  }

  /** End to end: when the home page lists only well-formed links and every
      detail page parses, the result is one program per link, in link order,
      each parsed from `vierUrl` followed by that link's href. */
  lemma FetchProgramsInLinkOrder(repo: Repo, html: string, links: seq<Anchor>)
    requires repo.get(repo.vierUrl) == Right(html)
    requires repo.jsoup(html).programLinks == Right(links)
    requires forall i :: 0 <= i < |links| ==> IsValidLink(links[i])
    requires forall i :: 0 <= i < |links| ==>
      links[i].href.Right? && FetchProgramFromUrl(repo, repo.vierUrl + links[i].href.right).Right?
    ensures FetchPrograms(repo).Right? && FetchPrograms(repo).right.Programs?
    ensures |FetchPrograms(repo).right.programs| == |links|
    ensures forall i :: 0 <= i < |links| ==>
      Right(FetchPrograms(repo).right.programs[i]) == FetchProgramFromUrl(repo, repo.vierUrl + links[i].href.right)
  {
  }

  /** A malformed listing fails with every link error, before any detail page
      matters. */
  lemma FetchProgramsReportsAllLinkErrors(repo: Repo, html: string, links: seq<Anchor>)
    requires repo.get(repo.vierUrl) == Right(html)
    requires repo.jsoup(html).programLinks == Right(links)
    requires exists i :: 0 <= i < |links| && !IsValidLink(links[i])
    ensures FetchPrograms(repo) == Left(HTML(Parsing(AllLinkErrors(links))))
  {
  }

  /** Conversely, a Parsing failure of `fetchPrograms` comes from the listing
      alone: the home page was fetched, its links were selected, one of them
      is malformed, and the errors are exactly those of the links. */
  lemma ParsingFailureComesFromTheListing(repo: Repo, es: seq<Html>)
    requires FetchPrograms(repo) == Left(HTML(Parsing(es)))
    ensures repo.get(repo.vierUrl).Right?
    ensures var links := repo.jsoup(repo.get(repo.vierUrl).right).programLinks;
      && links.Right?
      && es == AllLinkErrors(links.right)
      && |es| > 0
      && exists i :: 0 <= i < |links.right| && !IsValidLink(links.right[i])
  {
  }

  /** A Transport failure of `fetchPrograms` is the report of a fetch: of the
      home page, or of the page of a listed program. */
  lemma TransportFailureComesFromAFetch(repo: Repo, d: string)
    requires FetchPrograms(repo) == Left(Transport(d))
    ensures || repo.get(repo.vierUrl) == Left(d)
            || (&& Listing(repo).Right?
                && exists k :: 0 <= k < |Listing(repo).right| &&
                     repo.get(DetailUrl(repo, Listing(repo).right[k])) == Left(d))
  {
  }

  /** `fetchProgram(SearchKey.Program)`. */
  function FetchProgram(repo: Repo, key: SearchKey): (r: Either<Failure, Content>)
    requires key.ProgramKey?
    ensures r.Left? <==> FetchProgramFromUrl(repo, key.url).Left?
    ensures r.Left? ==> r.left == FetchProgramFromUrl(repo, key.url).left
    ensures r.Right? ==> r.right == SingleProgram(FetchProgramFromUrl(repo, key.url).right)
  {
    match FetchProgramFromUrl(repo, key.url)
    case Left(f) => Left(f)
    case Right(program) => Right(SingleProgram(program))
  }

  /** The URL `fetchEpisode(EpisodeUuid)` requests. */
  function VideoUrl(repo: Repo, episodeVideoUuid: EpisodeUuid): string {
    repo.vierApiUrl + "/video/" + episodeVideoUuid.id
  }

  /** `fetchEpisode(EpisodeUuid)`: fetch the video document from the API and
      decode it as an episode. */
  function FetchEpisodeByUuid(repo: Repo, episodeVideoUuid: EpisodeUuid): (r: Either<Failure, Content>)
    ensures repo.get(VideoUrl(repo, episodeVideoUuid)).Left? ==>
      r == Left(Transport(repo.get(VideoUrl(repo, episodeVideoUuid)).left))
    ensures r.Right? <==>
      repo.get(VideoUrl(repo, episodeVideoUuid)).Right? &&
      repo.json.decodeEpisode(repo.get(VideoUrl(repo, episodeVideoUuid)).right).Right?
    ensures r.Right? ==>
      r.right == SingleEpisode(repo.json.decodeEpisode(repo.get(VideoUrl(repo, episodeVideoUuid)).right).right)
    ensures repo.get(VideoUrl(repo, episodeVideoUuid)).Right? && r.Left? ==>
      r.left == JsonParsingException(repo.json.decodeEpisode(repo.get(VideoUrl(repo, episodeVideoUuid)).right).left)
  {
    match repo.get(VideoUrl(repo, episodeVideoUuid))
    case Left(d) => Left(Transport(d))
    case Right(raw) =>
      match ParseEpisode(repo.json, raw)
      case Left(f) => Left(f)
      case Right(episode) => Right(SingleEpisode(episode))
  }

  /** The episode list of each playlist, in playlist order. */
  function EpisodeLists(playlists: seq<Playlist>): (lists: seq<seq<Episode>>)
    ensures |lists| == |playlists| && forall i :: 0 <= i < |playlists| ==> lists[i] == playlists[i].episodes
  {
    seq(|playlists|, i requires 0 <= i < |playlists| => playlists[i].episodes)
  }

  /** The episodes of all playlists, playlist by playlist, in order. */
  function AllEpisodes(program: Program): (eps: seq<Episode>)
    ensures forall e :: e in eps <==> exists i :: 0 <= i < |program.playlists| && e in program.playlists[i].episodes
  {
    var lists := EpisodeLists(program.playlists);
    forall e ensures e in Flatten(lists) <==> exists i :: 0 <= i < |lists| && e in lists[i] {
      FlattenMembers(lists, e);
    }
    Flatten(lists)
  }

  /** Flattening keeps playlist order: the episodes of a run of playlists
      followed by another are those of the first run, then those of the
      second. */
  lemma AllEpisodesAppend(program: Program, a: seq<Playlist>, b: seq<Playlist>)
    ensures AllEpisodes(program.(playlists := a + b)) ==
      AllEpisodes(program.(playlists := a)) + AllEpisodes(program.(playlists := b))
  {
    assert EpisodeLists(a + b) == EpisodeLists(a) + EpisodeLists(b);
    FlattenAppend(EpisodeLists(a), EpisodeLists(b));
  }

  /** The `firstOrNull` search of `fetchEpisode(SearchKey.EpisodeByNodeId)`:
      the first episode, in flattened playlist order, with the node id. */
  function FindEpisode(program: Program, nodeId: string): (r: Option<Episode>)
    ensures var eps := AllEpisodes(program);
      && (r.None? <==> forall i :: 0 <= i < |eps| ==> eps[i].pageInfo.nodeId != nodeId)
      && (r.Some? ==>
            exists k :: 0 <= k < |eps| && eps[k] == r.value && eps[k].pageInfo.nodeId == nodeId &&
              forall j :: 0 <= j < k ==> eps[j].pageInfo.nodeId != nodeId)
  {
    FirstOrNull(AllEpisodes(program), (e: Episode) => e.pageInfo.nodeId == nodeId)
  }

  /** The search runs playlist by playlist: a match in the earlier playlists
      is returned whatever the later ones hold, and only when there is none
      are the later ones searched. */
  lemma EarlierPlaylistsSearchedFirst(program: Program, a: seq<Playlist>, b: seq<Playlist>, nodeId: string)
    ensures FindEpisode(program.(playlists := a + b), nodeId) ==
      if FindEpisode(program.(playlists := a), nodeId).Some? then FindEpisode(program.(playlists := a), nodeId)
      else FindEpisode(program.(playlists := b), nodeId)
  {
    AllEpisodesAppend(program, a, b);
    FirstOrNullAppend(AllEpisodes(program.(playlists := a)), AllEpisodes(program.(playlists := b)),
      (e: Episode) => e.pageInfo.nodeId == nodeId);
  }

  /** `fetchEpisode(SearchKey.EpisodeByNodeId)`. */
  function FetchEpisodeByNodeId(repo: Repo, key: SearchKey): (r: Either<Failure, Content>)
    requires key.EpisodeByNodeId?
    ensures FetchProgramFromUrl(repo, key.url).Left? ==> r == Left(FetchProgramFromUrl(repo, key.url).left)
    ensures FetchProgramFromUrl(repo, key.url).Right? ==>
      var eps := AllEpisodes(FetchProgramFromUrl(repo, key.url).right);
      && (r == Left(NoEpisodeFound) <==> forall i :: 0 <= i < |eps| ==> eps[i].pageInfo.nodeId != key.nodeId)
      && (r.Left? ==> r == Left(NoEpisodeFound))
      && (r.Right? ==>
            && r.right.SingleEpisode?
            && exists k :: 0 <= k < |eps| && eps[k] == r.right.episode && eps[k].pageInfo.nodeId == key.nodeId &&
                 forall j :: 0 <= j < k ==> eps[j].pageInfo.nodeId != key.nodeId)
  {
    match FetchProgramFromUrl(repo, key.url)
    case Left(f) => Left(f)
    case Right(program) =>
      match FindEpisode(program, key.nodeId)
      case None => Left(NoEpisodeFound)
      case Some(episode) => Right(SingleEpisode(episode))
  }

  /** NoEpisodeFound is reported only once the program page was fetched and
      parsed and none of its episodes carries the node id. */
  lemma NoEpisodeFoundMeansNoMatch(repo: Repo, key: SearchKey)
    requires key.EpisodeByNodeId?
    requires FetchEpisodeByNodeId(repo, key) == Left(NoEpisodeFound)
    ensures repo.get(key.url).Right?
    ensures var program := ParseProgram(repo.jsoup(repo.get(key.url).right), repo.json);
      && program.Right?
      && forall e :: e in AllEpisodes(program.right) ==> e.pageInfo.nodeId != key.nodeId
  {
  }

  /** When node ids are unique within a program, the episode found is the
      one episode of the program with that node id. */
  lemma EpisodeByNodeIdIsTheUniqueMatch(repo: Repo, key: SearchKey, program: Program, episode: Episode)
    requires key.EpisodeByNodeId?
    requires FetchProgramFromUrl(repo, key.url) == Right(program)
    requires forall i, j :: 0 <= i < j < |AllEpisodes(program)| ==>
      AllEpisodes(program)[i].pageInfo.nodeId != AllEpisodes(program)[j].pageInfo.nodeId
    requires episode in AllEpisodes(program) && episode.pageInfo.nodeId == key.nodeId
    ensures FetchEpisodeByNodeId(repo, key) == Right(SingleEpisode(episode))
  {
  }
}
