/** The VRT NU electronic programme guide repository: the date of a calendar
    becomes the URL of that day's schedule document, whose body is decoded
    into an Epg. */
module VrtNuEpg {
  import opened Arrow
  import opened Strings
  import opened HttpUrls

  /** `ApiResponse.Failure`. */
  datatype Failure = JsonParsingException(throwable: Throwable) | EmptyJson

  /** `ApiResponse.Success`; the Epg schema itself is left to the decoder. */
  datatype Success<+Epg> = Success(epg: Epg)

  type Year = y: int | y >= 1 witness 1
  /** `Calendar.MONTH`: 0 is January, 11 is December. */
  type Month0 = m: int | 0 <= m < 12
  type DayOfMonth = d: int | 1 <= d <= 31 witness 1

  /** The three calendar fields `epg` reads. */
  datatype Calendar = Calendar(year: Year, month: Month0, dayOfMonth: DayOfMonth)

  /** `HttpEpgRepo`: the client, seen as the body (if any) it receives for a
      URL, and the JSON decoder of `JsonEpgParser`. */
  datatype EpgRepo<Epg> = EpgRepo(
    body: HttpUrl -> Option<string>,
    decodeEpg: string -> Either<Throwable, Epg>)

  /** The last path segment of the schedule URL: year first, then month, then
      day, each as a plain decimal. */
  function ScheduleSegment(dayOfTheMonth: int, month: int, year: int): string {
    "schedule." + IntToString(year) + "-" + IntToString(month) + "-" + IntToString(dayOfTheMonth) + ".json"
  }

  /** `constructUrl(dayOfTheMonth, month, year)`. */
  function ConstructUrl(dayOfTheMonth: int, month: int, year: int): (u: HttpUrl)
    ensures u.scheme == "https" && u.host == "vrt.be"
    ensures u.pathSegments == ["bin", "epg", ScheduleSegment(dayOfTheMonth, month, year)]
  {
    assert SplitOn("bin/epg", '/') == ["bin", "epg"] by {
      SplitOnNone("epg", '/');
      SplitOnPrefix("bin", '/', "epg");
      assert "bin/epg" == "bin" + ['/'] + "epg";
    }
    Builder()
      .Scheme("https")
      .Host("vrt.be")
      .AddPathSegments("bin/epg")
      .AddPathSegment(ScheduleSegment(dayOfTheMonth, month, year))
  }

  /** Reads year, month and day back out of a schedule segment whose fields
      are non-negative decimals; None for anything else. */
  function ParseScheduleSegment(s: string): Option<(nat, nat, nat)> {
    if |s| < 14 || s[..9] != "schedule." || s[|s| - 5..] != ".json" then None
    else
      var parts := SplitOn(s[9..|s| - 5], '-');
      if |parts| == 3 && (forall i :: 0 <= i < 3 ==> |parts[i]| > 0 && IsDigits(parts[i]))
      then Some((DecimalValue(parts[0]), DecimalValue(parts[1]), DecimalValue(parts[2])))
      else None
  }

  /** Three dash-free pieces joined by dashes split back into those pieces. */
  lemma SplitThree(y: string, m: string, d: string)
    requires '-' !in y && '-' !in m && '-' !in d
    ensures SplitOn(y + "-" + m + "-" + d, '-') == [y, m, d]
  {
    SplitOnNone(d, '-');
    SplitOnPrefix(m, '-', d);
    assert m + "-" + d == m + ['-'] + d;
    SplitOnPrefix(y, '-', m + "-" + d);
    assert y + "-" + m + "-" + d == y + ['-'] + (m + "-" + d);
  }

  /** The schedule segment is unambiguous: year, month and day are read back
      from it exactly, in that order. */
  lemma ScheduleSegmentRoundTrip(dayOfTheMonth: nat, month: nat, year: nat)
    ensures ParseScheduleSegment(ScheduleSegment(dayOfTheMonth, month, year)) == Some((year, month, dayOfTheMonth))
  {
    var y, m, d := NatToString(year), NatToString(month), NatToString(dayOfTheMonth);
    var mid := y + "-" + m + "-" + d;
    var s := "schedule." + mid + ".json";
    assert ScheduleSegment(dayOfTheMonth, month, year) == s;
    assert s[..9] == "schedule.";
    assert s[|s| - 5..] == ".json";
    assert s[9..|s| - 5] == mid;
    DigitsHaveNoDash(y);
    DigitsHaveNoDash(m);
    DigitsHaveNoDash(d);
    SplitThree(y, m, d);
    NatToStringRoundTrip(year);
    NatToStringRoundTrip(month);
    NatToStringRoundTrip(dayOfTheMonth);
  }

  /** `JsonEpgParser.parse`: a decode exception becomes JsonParsingException
      carrying that exception. */
  function ParseEpg<Epg>(decodeEpg: string -> Either<Throwable, Epg>, json: string): (r: Either<Failure, Epg>)
    ensures r.Right? <==> decodeEpg(json).Right?
    ensures r.Right? ==> r.right == decodeEpg(json).right
    ensures r.Left? ==> r.left == JsonParsingException(decodeEpg(json).left)
  {
    match decodeEpg(json)
    case Left(t) => Left(JsonParsingException(t))
    case Right(epg) => Right(epg)
  }

  /** The URL `epg` requests for a calendar: the 0-based month plus one. */
  function RequestUrl(calendar: Calendar): HttpUrl {
    ConstructUrl(calendar.dayOfMonth, calendar.month + 1, calendar.year)
  }

  /** `HttpEpgRepo.epg(calendar)`. */
  function FetchEpg<Epg>(repo: EpgRepo<Epg>, calendar: Calendar): (r: Either<Failure, Success<Epg>>)
    ensures r == Left(EmptyJson) <==> repo.body(RequestUrl(calendar)).None?
    ensures r.Right? <==>
      repo.body(RequestUrl(calendar)).Some? && repo.decodeEpg(repo.body(RequestUrl(calendar)).value).Right?
    ensures r.Right? ==> r.right == Success(repo.decodeEpg(repo.body(RequestUrl(calendar)).value).right)
    ensures repo.body(RequestUrl(calendar)).Some? && r.Left? ==>
      r.left == JsonParsingException(repo.decodeEpg(repo.body(RequestUrl(calendar)).value).left)
  {
    match repo.body(RequestUrl(calendar))
    case None => Left(EmptyJson)
    case Some(json) =>
      match ParseEpg(repo.decodeEpg, json)
      case Left(f) => Left(f)
      case Right(epg) => Right(Success(epg))
  }

  /** The requested URL names the calendar's date: https://vrt.be/bin/epg/
      then a schedule segment from which the calendar year, the month
      counted from 1 (so within 1..12) and the day are read back. */
  lemma RequestUrlNamesTheDate(calendar: Calendar)
    ensures RequestUrl(calendar).scheme == "https" && RequestUrl(calendar).host == "vrt.be"
    ensures |RequestUrl(calendar).pathSegments| == 3
    ensures RequestUrl(calendar).pathSegments[..2] == ["bin", "epg"]
    ensures ParseScheduleSegment(RequestUrl(calendar).pathSegments[2]) ==
      Some((calendar.year as nat, (calendar.month + 1) as nat, calendar.dayOfMonth as nat))
    ensures 1 <= calendar.month + 1 <= 12
  {
    var u := RequestUrl(calendar);
    assert u.pathSegments == ["bin", "epg", ScheduleSegment(calendar.dayOfMonth, calendar.month + 1, calendar.year)];
    ScheduleSegmentRoundTrip(calendar.dayOfMonth, calendar.month + 1, calendar.year);
  }

  lemma RenderingExamples()
    ensures IntToString(2020) == "2020" && IntToString(2021) == "2021"
    ensures IntToString(11) == "11" && IntToString(21) == "21"
    ensures IntToString(1) == "1" && IntToString(5) == "5"
  {
    assert NatToString(20) == NatToString(2) + "0";
    assert NatToString(202) == NatToString(20) + "2";
    assert NatToString(2020) == NatToString(202) + "0";
    assert NatToString(2021) == NatToString(202) + "1";
    assert NatToString(11) == NatToString(1) + "1";
    assert NatToString(21) == NatToString(2) + "1";
  }

  /** The date 21 November 2020 (month 10, counted from 0) gives the segment
      `schedule.2020-11-21.json`, and 5 January 2021 is written without
      padding as `schedule.2021-1-5.json`. */
  lemma ScheduleSegmentExamples()
    ensures RequestUrl(Calendar(2020, 10, 21)).pathSegments[2] == "schedule.2020-11-21.json"
    ensures RequestUrl(Calendar(2021, 0, 5)).pathSegments[2] == "schedule.2021-1-5.json"
  {
    RenderingExamples();
    assert ScheduleSegment(21, 11, 2020) == "schedule." + "2020" + "-" + "11" + "-" + "21" + ".json";
    assert ScheduleSegment(5, 1, 2021) == "schedule." + "2021" + "-" + "1" + "-" + "5" + ".json";
  }

  /** A missing body yields EmptyJson whatever the decoder: the parser is not
      invoked. */
  lemma MissingBodySkipsDecoder<Epg>(repo: EpgRepo<Epg>, decodeEpg: string -> Either<Throwable, Epg>, calendar: Calendar)
    requires repo.body(RequestUrl(calendar)).None?
    ensures FetchEpg(repo, calendar) == FetchEpg(EpgRepo(repo.body, decodeEpg), calendar) == Left(EmptyJson)
  {
  }
}
