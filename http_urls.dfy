/** The part of OkHttp's `HttpUrl.Builder` the repositories use: a scheme, a
    host and path segments, added one at a time or as a '/'-separated run. */
module HttpUrls {
  import opened Strings

  datatype HttpUrl = HttpUrl(scheme: string, host: string, pathSegments: seq<string>)
  {
    function Scheme(s: string): HttpUrl {
      this.(scheme := s)
    }

    function Host(h: string): HttpUrl {
      this.(host := h)
    }

    /** `addPathSegment`: appends one segment. */
    function AddPathSegment(segment: string): HttpUrl {
      this.(pathSegments := pathSegments + [segment])
    }

    /** `addPathSegments`: appends every '/'-separated piece, in order.
        OkHttp also splits on '\\'; no argument the repositories pass
        contains one, so only '/' is modelled. */
    function AddPathSegments(segments: string): HttpUrl {
      this.(pathSegments := pathSegments + SplitOn(segments, '/'))
    }
  }

  /** `HttpUrl.Builder()`: nothing set yet. */
  function Builder(): HttpUrl {
    HttpUrl("", "", [])
  }
}
