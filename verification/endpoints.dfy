/**
 The four endpoints side by side: the path each handler is mapped to, and how a
 rejected request looks once the Feign client's error decoder has seen the
 400 response it produces.
 */
module Endpoints {
  import opened Wrappers
  import opened ObjectUtils
  import opened TestController
  import opened FeignClientErrorDecoder

  datatype Endpoint = GetTestEndpoint | RequestBody | FormData | MultiPart

  /** The request mapping of each handler. */
  function Path(e: Endpoint): (p: string)
    ensures p in CheckPathList
  {
    match e
    case GetTestEndpoint => "/test"
    case RequestBody => "/test/request-body"
    case FormData => "/test/form-data"
    case MultiPart => "/test/multi-part"
  }

  /** Dispatches to the handler; the GET endpoint reads only the username, and only the multipart one reads the file. */
  function Handle(e: Endpoint, file: Option<MultipartFile>, request: PostTestRequest): (r: Response)
    ensures r.Ok? ==> request.username.Some? && r.body == "hello " + request.username.value
  {
    match e
    case GetTestEndpoint => GetTest(request.username)
    case RequestBody => PostTest(request)
    case FormData => PostTest2(request)
    case MultiPart => PostTest3(file, request)
  }

  /** Every endpoint accepts exactly the requests whose required fields are all non-empty. */
  lemma HandleOkIffFieldsPresent(e: Endpoint, file: Option<MultipartFile>, request: PostTestRequest)
    ensures Handle(e, file, request).Ok? <==>
              && !IsEmptyString(request.username)
              && (e == GetTestEndpoint || !IsEmptyString(request.password))
              && (e == MultiPart ==> file.Some?)
  {
  }

  /** Only the multipart endpoint looks at the file part. */
  lemma FileReadOnlyByMultipart(e: Endpoint, file: Option<MultipartFile>, request: PostTestRequest)
    requires e != MultiPart
    ensures Handle(e, file, request) == Handle(e, None, request)
  {
  }

  /** The decoder's list names exactly the controller's four endpoint paths. */
  lemma CheckPathListIsEndpointPaths(p: string)
    ensures p in CheckPathList <==> exists e :: Path(e) == p
  {
    if p in CheckPathList {
      if p == "/test" { assert Path(GetTestEndpoint) == p; }
      else if p == "/test/request-body" { assert Path(RequestBody) == p; }
      else if p == "/test/form-data" { assert Path(FormData) == p; }
      else { assert Path(MultiPart) == p; }
    }
  }

  /** What a Feign method call ends in: the response body, or a raised exception. */
  datatype CallOutcome = Value(body: string) | Raised(exception: Exception) | RaisedNullPointer

  /**
   How the Feign client treats a response: a 2xx status yields its body;
   any other status raises what the error decoder produces. A thrown decoder
   exception propagates; a returned one is thrown; a returned null, thrown by
   Java, becomes a `NullPointerException`.
   */
  function FeignCall(methodKey: string, url: string, status: int, body: string,
                     parseUri: string -> ParsedUri): (r: CallOutcome)
    ensures r.Value? <==> 200 <= status < 300
    ensures r.Value? ==> r.body == body
    ensures !(200 <= status < 300) && parseUri(url).SyntaxError? ==>
              r == Raised(WrappedUriSyntaxException(parseUri(url).reason))
    ensures r == Raised(RuntimeException(ErrorMessage)) <==>
              && !(200 <= status < 300)
              && parseUri(url).Parsed?
              && parseUri(url).path.Some?
              && parseUri(url).path.value in CheckPathList
    ensures r == RaisedNullPointer <==>
              && !(200 <= status < 300)
              && parseUri(url).Parsed?
              && (parseUri(url).path.None? || parseUri(url).path.value !in CheckPathList)
  {
    if 200 <= status < 300 then Value(body)
    else
      match Decode(methodKey, FeignResponse(FeignRequest(url), status), parseUri)
      case Thrown(e) => Raised(e)
      case Returned(Some(e)) => Raised(e)
      case Returned(None) => RaisedNullPointer
  }

  /** The answer endpoint `e` gives, as a Feign caller receives it from `url`. */
  function CallEndpoint(e: Endpoint, file: Option<MultipartFile>, request: PostTestRequest,
                        methodKey: string, url: string, parseUri: string -> ParsedUri): CallOutcome
  {
    var response := Handle(e, file, request);
    FeignCall(methodKey, url, response.Status(), response.Text(), parseUri)
  }

  /**
   A request an endpoint accepts reaches a Feign caller as the greeting; one it
   rejects reaches the caller as the decoder's fixed exception, once the URL's
   path parses back to that endpoint's mapping.
   */
  lemma CallerSeesGreetingOrFixedError(e: Endpoint, file: Option<MultipartFile>,
                                       request: PostTestRequest, methodKey: string, url: string,
                                       parseUri: string -> ParsedUri)
    requires parseUri(url) == Parsed(Some(Path(e)))
    ensures Handle(e, file, request).Ok? ==>
              CallEndpoint(e, file, request, methodKey, url, parseUri)
              == Value("hello " + request.username.value)
    ensures Handle(e, file, request).BadRequest? ==>
              CallEndpoint(e, file, request, methodKey, url, parseUri)
              == Raised(RuntimeException("에러 발생"))
  {
  }
}
