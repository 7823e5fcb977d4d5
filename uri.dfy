/**
 * Validation and dispatch of a parent devfile URI (fetchFilePath in
 * pkg/devfile/parser/uri.go).
 *
 * The URI arrives already split into its components by the URL parser;
 * the outcome of that parser and the outcome of the HTTP download are
 * parameters, so only the decision logic over the components is modelled.
 */
module Uri {
  import opened Wrappers

  const HttpsScheme: string := "https"
  const HttpScheme: string := "http"
  const FileScheme: string := "file"

  /** The user information subcomponent of the authority (RFC 3986, section 3.2.1). */
  datatype Userinfo = Userinfo(username: string, password: Option<string>)

  /** The components of a parsed URL that the validity check reads. */
  datatype Url = Url(
    scheme: string,
    host: string,
    path: string,
    user: Option<Userinfo>,
    rawPath: string,
    forceQuery: bool,
    rawQuery: string,
    fragment: string)

  /** What the URL parser made of the string. */
  datatype ParseOutcome = ParseFailed(reason: string) | Parsed(url: Url)

  /** What the HTTP download produced: the path of the temporary file, or why it failed. */
  datatype FetchOutcome = Fetched(tempPath: string) | FetchFailed(reason: string)

  datatype UriError =
    | ParseError(uri: string, reason: string)
    | InvalidUri(uri: string)
    | ProtocolNotSupported(scheme: string)
    | FetchError(reason: string)

  /** The source's (path, err) pair; on every error the path is left empty. */
  datatype PathResult = PathResult(path: string, err: Option<UriError>)

  /**
   * A parent URI must point directly at one file: it needs a scheme and a
   * path, and may carry no user information, no escaped raw path, no query
   * (RFC 3986, section 3.4; a bare "?" included) and no fragment (RFC 3986,
   * section 3.5).
   */
  predicate PointsAtOneFile(u: Url)
    ensures PointsAtOneFile(u) <==> Defects(u) == {}
  {
    u.scheme != "" && u.path != "" && u.user == None && u.rawPath == "" &&
    !u.forceQuery && u.rawQuery == "" && u.fragment == ""
  }

  /** The ways a parsed URL can fail to point directly at one file. */
  datatype Defect = NoScheme | NoPath | HasUser | HasRawPath | ForcedQuery | HasQuery | HasFragment

  function Defects(u: Url): set<Defect>
  {
    (if u.scheme == "" then {NoScheme} else {}) +
    (if u.path == "" then {NoPath} else {}) +
    (if u.user.Some? then {HasUser} else {}) +
    (if u.rawPath != "" then {HasRawPath} else {}) +
    (if u.forceQuery then {ForcedQuery} else {}) +
    (if u.rawQuery != "" then {HasQuery} else {}) +
    (if u.fragment != "" then {HasFragment} else {})
  }

  predicate IsHttpScheme(scheme: string)
  {
    scheme == HttpsScheme || scheme == HttpScheme
  }

  /** fetchFileHttp's result in the source's (path, err) form. */
  function FetchResult(f: FetchOutcome): PathResult
  {
    match f
    case Fetched(p) => PathResult(p, None)
    case FetchFailed(reason) => PathResult("", Some(FetchError(reason)))
  }

  /**
   * fetchFilePath: reject unparseable or ill-shaped URIs, then dispatch on
   * the scheme. `fetched` is what downloading `uri` would produce; it is used
   * on the http and https branch only.
   */
  function FetchFilePath(uri: string, parsed: ParseOutcome, fetched: FetchOutcome): (r: PathResult)
    // every failure, the download's included, comes with an empty path
    ensures r.err.Some? ==> r.path == ""
    ensures parsed.ParseFailed? ==> r == PathResult("", Some(ParseError(uri, parsed.reason)))
    // the shape check comes before the scheme switch, whatever the scheme
    ensures r.err == Some(InvalidUri(uri)) <==> parsed.Parsed? && !PointsAtOneFile(parsed.url)
    ensures r.err == None <==>
              parsed.Parsed? && PointsAtOneFile(parsed.url) &&
              (parsed.url.scheme == FileScheme || (IsHttpScheme(parsed.url.scheme) && fetched.Fetched?))
    ensures parsed.Parsed? && PointsAtOneFile(parsed.url) && parsed.url.scheme == FileScheme ==>
              r == PathResult(parsed.url.host + parsed.url.path, None)
    ensures parsed.Parsed? && PointsAtOneFile(parsed.url) && IsHttpScheme(parsed.url.scheme) ==>
              r == FetchResult(fetched)
    ensures r.err.Some? && r.err.value.ProtocolNotSupported? <==>
              parsed.Parsed? && PointsAtOneFile(parsed.url) &&
              parsed.url.scheme != FileScheme && !IsHttpScheme(parsed.url.scheme)
    ensures r.err.Some? && r.err.value.ProtocolNotSupported? ==>
              r.err.value.scheme == parsed.url.scheme
  {
    match parsed
    case ParseFailed(reason) => PathResult("", Some(ParseError(uri, reason)))
    case Parsed(u) =>
      if !PointsAtOneFile(u) then PathResult("", Some(InvalidUri(uri)))
      else if u.scheme == FileScheme then PathResult(u.host + u.path, None)
      else if IsHttpScheme(u.scheme) then FetchResult(fetched)
      else PathResult("", Some(ProtocolNotSupported(u.scheme)))
  }

  /**
   * The download's outcome matters only for a well-shaped http or https
   * URI: on every other input the result is the same whatever it would be,
   * so nothing is fetched.
   */
  lemma FetchOnlyForHttp(uri: string, parsed: ParseOutcome, f1: FetchOutcome, f2: FetchOutcome)
    requires !(parsed.Parsed? && PointsAtOneFile(parsed.url) && IsHttpScheme(parsed.url.scheme))
    ensures FetchFilePath(uri, parsed, f1) == FetchFilePath(uri, parsed, f2)
  {
  }

  /** A URI with a query string is invalid whatever its scheme and whatever the download gives. */
  lemma QueryIsAlwaysInvalid(uri: string, u: Url, fetched: FetchOutcome)
    requires u.rawQuery != ""
    ensures FetchFilePath(uri, Parsed(u), fetched) == PathResult("", Some(InvalidUri(uri)))
  {
  }
}
