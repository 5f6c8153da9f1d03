/**
 The Feign error decoder: for a failed response it looks at the path of the
 request URL and returns a fixed exception when the path is one of the test
 endpoints, and no exception (Java `null`) otherwise. URI parsing is a
 parameter: a total function from the URL text to either the parsed path or a
 syntax error.
 */
module FeignClientErrorDecoder {
  import opened Wrappers
  import opened JavaList

  /** What `new URI(url).getPath()` yields: a path (null for an opaque URI) or a syntax error. */
  datatype ParsedUri = Parsed(path: Option<string>) | SyntaxError(reason: string)

  datatype FeignRequest = FeignRequest(url: string)

  /** A non-2xx response handed to the decoder; its status is only logged. */
  datatype FeignResponse = FeignResponse(request: FeignRequest, status: int)

  datatype Exception =
    | RuntimeException(message: string)
      /** `new RuntimeException(e)` around the `URISyntaxException` from parsing. */
    | WrappedUriSyntaxException(reason: string)

  /** Either `decode` returns (an exception or null), or it throws. */
  datatype DecodeOutcome = Returned(error: Option<Exception>) | Thrown(thrown: Exception)

  /** The paths the decoder recognises, set once by its constructor and never changed. */
  const CheckPathList: seq<string> :=
    ["/test", "/test/form-data", "/test/request-body", "/test/multi-part"]

  const ErrorMessage: string := "에러 발생"

  /** Whether a parsed path is one the decoder reports: exact membership, null never matches. */
  predicate IsCheckedPath(path: Option<string>) {
    Contains(CheckPathList, path)
  }

  /** `decode(methodKey, response)`. */
  function Decode(methodKey: string, response: FeignResponse, parseUri: string -> ParsedUri)
    : (r: DecodeOutcome)
    ensures r.Thrown? <==> parseUri(response.request.url).SyntaxError?
    ensures r.Thrown? ==>
              r.thrown == WrappedUriSyntaxException(parseUri(response.request.url).reason)
    ensures r == Returned(Some(RuntimeException(ErrorMessage))) <==>
              && parseUri(response.request.url).Parsed?
              && parseUri(response.request.url).path.Some?
              && parseUri(response.request.url).path.value in CheckPathList
    ensures r == Returned(None) <==>
              && parseUri(response.request.url).Parsed?
              && (parseUri(response.request.url).path.None? ||
                  parseUri(response.request.url).path.value !in CheckPathList)
    ensures r.Returned? ==> r.error.None? || r.error == Some(RuntimeException(ErrorMessage))
  {
    match parseUri(response.request.url)
    case SyntaxError(reason) => Thrown(WrappedUriSyntaxException(reason))
    case Parsed(path) =>
      if IsCheckedPath(path) then Returned(Some(RuntimeException(ErrorMessage)))
      else Returned(None)
  }
}
