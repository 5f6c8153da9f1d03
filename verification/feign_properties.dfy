/** Properties of the Feign error decoder. */
module FeignProperties {
  import opened Wrappers
  import opened FeignClientErrorDecoder

  /** The checked list has four distinct entries, each under "/test". */
  lemma CheckPathListShape()
    ensures |CheckPathList| == 4
    ensures forall i, j :: 0 <= i < j < |CheckPathList| ==> CheckPathList[i] != CheckPathList[j]
    ensures forall i :: 0 <= i < |CheckPathList| ==> CheckPathList[i][..5] == "/test"
  {
  }

  /** The outcome depends on the parsed path alone: neither `methodKey` nor the status matters. */
  lemma DecodeDependsOnlyOnPath(methodKey1: string, response1: FeignResponse,
                                methodKey2: string, response2: FeignResponse,
                                parseUri: string -> ParsedUri)
    requires parseUri(response1.request.url) == parseUri(response2.request.url)
    ensures Decode(methodKey1, response1, parseUri) == Decode(methodKey2, response2, parseUri)
  {
  }

  /** No checked path ends in '/', so a trailing slash never matches. */
  lemma TrailingSlashNeverChecked(path: string)
    requires |path| > 0 && path[|path| - 1] == '/'
    ensures !IsCheckedPath(Some(path))
  {
  }

  /** Matching is exact: near misses of a checked path decode to null. */
  lemma NearMissesDecodeToNull(methodKey: string, response: FeignResponse,
                               parseUri: string -> ParsedUri, path: string)
    requires parseUri(response.request.url) == Parsed(Some(path))
    requires path == "/test/" || path == "/test/other" || path == "/TEST" || path == "test"
             || path == "" || path == "/test/multi-part/"
    ensures Decode(methodKey, response, parseUri) == Returned(None)
  {
  }

  /** A URI without a path (an opaque URI, whose path is null) is never reported. */
  lemma NullPathDecodesToNull(methodKey: string, response: FeignResponse,
                              parseUri: string -> ParsedUri)
    requires parseUri(response.request.url) == Parsed(None)
    ensures Decode(methodKey, response, parseUri) == Returned(None)
  {
  }

  /** Each checked path yields an exception whose message is exactly "에러 발생", whatever the status. */
  lemma CheckedPathsDecodeToError(methodKey: string, response: FeignResponse,
                                  parseUri: string -> ParsedUri, i: int)
    requires 0 <= i < |CheckPathList|
    requires parseUri(response.request.url) == Parsed(Some(CheckPathList[i]))
    ensures Decode(methodKey, response, parseUri).Returned?
    ensures Decode(methodKey, response, parseUri).error.Some?
    ensures Decode(methodKey, response, parseUri).error.value.message == "에러 발생"
  {
  }
}
