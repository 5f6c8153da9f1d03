/**
 Properties of the test endpoints: each handler agrees with the ordered-check
 reference, the handlers relate to one another as the controller promises, and
 the concrete exchanges the client tests perform come out as expected.
 */
module TestControllerProperties {
  import opened Wrappers
  import opened ObjectUtils
  import opened Validation
  import opened TestController

  /** The reference response: the first failing check's message, else the greeting. */
  function Respond(checks: seq<Check>, username: Option<string>): Response {
    match FirstFailure(checks)
    case Some(m) => BadRequest(m)
    case None => Ok(Greeting(username))
  }

  function UsernameCheck(request: PostTestRequest): Check {
    Check(!IsEmptyString(request.username), UsernameRequired)
  }

  function GetTestChecks(username: Option<string>): seq<Check> {
    [Check(!IsEmptyString(username), UsernameRequired)]
  }

  function PostTestChecks(request: PostTestRequest): seq<Check> {
    [UsernameCheck(request), Check(!IsEmptyString(request.password), PasswordRequired)]
  }

  function PostTest3Checks(file: Option<MultipartFile>, request: PostTestRequest): seq<Check> {
    [ UsernameCheck(request),
      Check(!IsEmptyString(request.password), UserPasswordRequired),
      Check(!IsEmptyObject(file), FileRequired) ]
  }

  /** Relabels the password message of the request-body handler as the multipart handler words it. */
  function AsMultipartMessage(r: Response): Response {
    if r == BadRequest(PasswordRequired) then BadRequest(UserPasswordRequired) else r
  }

  /** Turns "the check at `k` fails first" into the reference response. */
  lemma RespondAtFirstFailure(checks: seq<Check>, k: int, username: Option<string>)
    requires FirstFailingAt(checks, k)
    ensures Respond(checks, username) == BadRequest(checks[k].message)
  {
    FirstFailureIsFirst(checks, k);
  }

  /** GET /test is the one-check reference: a username is required. */
  lemma GetTestFollowsChecks(username: Option<string>)
    ensures GetTest(username) == Respond(GetTestChecks(username), username)
  {
  }

  /** POST /test/request-body checks username, then password, then greets. */
  lemma PostTestFollowsChecks(request: PostTestRequest)
    ensures PostTest(request) == Respond(PostTestChecks(request), request.username)
  {
    var checks := PostTestChecks(request);
    if IsEmptyString(request.username) {
      RespondAtFirstFailure(checks, 0, request.username);
    } else if IsEmptyString(request.password) {
      RespondAtFirstFailure(checks, 1, request.username);
    } else {
      assert AllPass(checks);
    }
  }

  /** POST /test/multi-part checks username, then password, then the file part, then greets. */
  lemma PostTest3FollowsChecks(file: Option<MultipartFile>, request: PostTestRequest)
    ensures PostTest3(file, request) == Respond(PostTest3Checks(file, request), request.username)
  {
    var checks := PostTest3Checks(file, request);
    if IsEmptyString(request.username) {
      RespondAtFirstFailure(checks, 0, request.username);
    } else if IsEmptyString(request.password) {
      RespondAtFirstFailure(checks, 1, request.username);
    } else if IsEmptyObject(file) {
      RespondAtFirstFailure(checks, 2, request.username);
    } else {
      assert AllPass(checks);
    }
  }

  /** The JSON-body and form-data handlers compute the same function, messages included. */
  lemma PostTestAndPostTest2Agree(request: PostTestRequest)
    ensures PostTest(request) == PostTest2(request)
  {
  }

  /** A missing username is reported before anything else, by every handler. */
  lemma UsernameReportedFirst(file: Option<MultipartFile>, request: PostTestRequest)
    requires IsEmptyString(request.username)
    ensures GetTest(request.username) == BadRequest(UsernameRequired)
    ensures PostTest(request) == BadRequest(UsernameRequired)
    ensures PostTest2(request) == BadRequest(UsernameRequired)
    ensures PostTest3(file, request) == BadRequest(UsernameRequired)
  {
  }

  /** With a file part present, the multipart handler differs from the JSON one only in the password message's wording. */
  lemma PostTest3WithFileIsPostTest(f: MultipartFile, request: PostTestRequest)
    ensures PostTest3(Some(f), request) == AsMultipartMessage(PostTest(request))
  {
  }

  /** The two password messages differ, so the multipart and JSON handlers answer differently to the same missing password. */
  lemma PasswordMessagesDiffer(file: Option<MultipartFile>, request: PostTestRequest)
    requires !IsEmptyString(request.username) && IsEmptyString(request.password)
    ensures PostTest(request).BadRequest? && PostTest3(file, request).BadRequest?
    ensures PostTest(request) != PostTest3(file, request)
  {
  }

  /** The file is checked only for presence: a zero-byte upload is accepted. */
  lemma EmptyFileAccepted(name: string, originalFilename: string, contentType: string,
                          request: PostTestRequest)
    requires !IsEmptyString(request.username) && !IsEmptyString(request.password)
    ensures PostTest3(Some(MultipartFile(name, originalFilename, contentType, [])), request)
            == Ok("hello " + request.username.value)
  {
  }

  /** Emptiness is length zero only: whitespace usernames are echoed verbatim. */
  lemma WhitespaceUsernameEchoed(spaces: string)
    requires |spaces| > 0 && forall i :: 0 <= i < |spaces| ==> spaces[i] == ' '
    ensures GetTest(Some(spaces)) == Ok("hello " + spaces)
    ensures GetTest(Some(" ")) == Ok("hello  ")
  {
  }

  /** Exactly one missing field yields the message naming that field. */
  lemma SingleMissingFieldIsNamed(file: Option<MultipartFile>, request: PostTestRequest)
    ensures IsEmptyString(request.username) && !IsEmptyString(request.password) && file.Some? ==>
              PostTest3(file, request).message == UsernameRequired
    ensures !IsEmptyString(request.username) && IsEmptyString(request.password) && file.Some? ==>
              PostTest3(file, request).message == UserPasswordRequired
    ensures !IsEmptyString(request.username) && !IsEmptyString(request.password) && file.None? ==>
              PostTest3(file, request).message == FileRequired
    ensures IsEmptyString(request.username) != IsEmptyString(request.password) ==>
              PostTest(request).message ==
                  (if IsEmptyString(request.username) then UsernameRequired else PasswordRequired)
  {
  }

  /** The exchanges the client tests drive against the endpoints. */
  lemma ClientTestExchanges(f: MultipartFile)
    ensures GetTest(Some("12345")) == Ok("hello 12345")
    ensures GetTest(None).Status() == 400
    ensures PostTest(PostTestRequest(Some("test"), Some("1234"))) == Ok("hello test")
    ensures PostTest(PostTestRequest(None, Some("1234"))).Status() == 400
    ensures PostTest2(PostTestRequest(Some("test"), Some("1234"))) == Ok("hello test")
    ensures PostTest2(PostTestRequest(Some("test"), Some(""))) == BadRequest(PasswordRequired)
    ensures PostTest3(Some(f), PostTestRequest(Some("test"), Some("1234"))) == Ok("hello test")
    ensures PostTest3(Some(f), PostTestRequest(Some("test"), Some("")))
            == BadRequest(UserPasswordRequired)
  {
  }
}
