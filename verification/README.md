# Test endpoints and Feign error decoding — a Dafny model

The repository compares several HTTP clients calling one local test server.
Only two pieces of it are its own decision logic, and this project models and
proves properties of those two:

- **`TestController`**: four handlers, `GET /test`, `POST /test/request-body`,
  `POST /test/form-data` and `POST /test/multi-part`. Each one checks its
  required fields in a fixed order: username, then password, then the file
  part (multipart only). The first missing field gives a `400` with a fixed
  Korean message. Otherwise the handler returns `200` with the body
  `"hello " + username`. "Missing" follows Spring's `ObjectUtils.isEmpty`. A
  string is missing when it is null or has length zero, with no trimming. A
  `MultipartFile` is missing only when it is null, so a zero-byte file part is
  accepted.
- **`FeignClientErrorDecoder.decode`**: it parses the failed request's URL and
  takes its path. If the path is exactly one of the four endpoint paths, it
  returns `RuntimeException("에러 발생")`. Otherwise it returns `null`. A URL
  that fails to parse makes it throw a `RuntimeException` that wraps the syntax
  error.

Modules:

| file | module | contents |
|---|---|---|
| wrappers.dfy | `Wrappers` | `Option`: `None` stands for Java `null` |
| object_utils.dfy | `ObjectUtils` | `isEmpty(Object)` over the kinds of argument it distinguishes, the emptiness tests the handlers use, and `String.valueOf` for concatenation |
| validation.dfy | `Validation` | a reference definition: ordered checks where the first failing one decides (`FirstFailure`) |
| test_controller.dfy | `TestController` | `PostTestRequest`, `MultipartFile`, `Response`, the messages and the four handlers |
| test_controller_properties.dfy | `TestControllerProperties` | each handler matches its reference check list, plus cross-handler and example properties |
| java_list.dfy | `JavaList` | `List.indexOf` / `List.contains` as a left-to-right scan |
| feign_client_error_decoder.dfy | `FeignClientErrorDecoder` | `CheckPathList`, `ParsedUri`, `Exception`, `DecodeOutcome` and `Decode` |
| feign_properties.dfy | `FeignProperties` | decoder properties: exact matching, independence from key and status, null paths |
| endpoints.dfy | `Endpoints` | endpoint paths and dispatch, the Feign call's status split, and the two components taken together |

Nulls become `Option`. Java exceptions become the `Exception` datatype. The
decoder's "returns vs throws" becomes `DecodeOutcome`. URI parsing is a
parameter `parseUri: string -> ParsedUri`. It is any total function that yields
either the path, which is null for an opaque URI, or a syntax error. The
decoder's path list is a constant: the Java field is private, set in the
constructor and never reassigned.

## Model

| member | source | states |
|---|---|---|
| ObjectUtils.IsEmptyStringIsIsEmpty | src/main/java/com/sweettracker/apicallexample/test_controller/TestController.java:17 | the handlers' string test (null or `""`, no trimming) agrees with `isEmpty(Object)` on every nullable `String` |
| ObjectUtils.IsEmptyObjectIsIsEmpty | src/main/java/com/sweettracker/apicallexample/test_controller/TestController.java:55 | the file test (null only) agrees with `isEmpty(Object)` on every nullable object that is not an optional, char sequence, array, collection or map, as a `MultipartFile` is not |
| ObjectUtils.StringValueOf | src/main/java/com/sweettracker/apicallexample/test_controller/TestController.java:20 | string concatenation renders a non-null string as itself and null as `"null"` |
| TestController.Greeting | src/main/java/com/sweettracker/apicallexample/test_controller/TestController.java:20 | the success body is `"hello "` followed by the username, or `"hello null"` for a null username |
| TestController.Response.Status | src/main/java/com/sweettracker/apicallexample/test_controller/TestController.java:18-20 | `ok` carries a 2xx status and `badRequest` a 4xx status, so the status alone tells the two apart |
| TestController.GetTest | src/main/java/com/sweettracker/apicallexample/test_controller/TestController.java:15-21 | OK iff the username is non-empty; the OK body is `"hello "` followed by the username; otherwise the username-required message |
| TestController.PostTest | src/main/java/com/sweettracker/apicallexample/test_controller/TestController.java:23-32 | OK iff username and password are both non-empty, with the greeting body; an empty username gives the username message, whatever the password; a present username with an empty password gives the password message |
| TestController.PostTest2 | src/main/java/com/sweettracker/apicallexample/test_controller/TestController.java:34-43 | the same contract as the JSON-body handler, for form-bound fields |
| TestController.PostTest3 | src/main/java/com/sweettracker/apicallexample/test_controller/TestController.java:45-59 | OK iff username, password and file part are all present; username is checked first, then the password with its own "사용자 비밀번호" message; the file message appears iff both fields are present and the file is null |
| Validation.FirstFailure | src/main/java/com/sweettracker/apicallexample/test_controller/TestController.java:49-58 | reference for ordered validation: no failure iff every check passes; otherwise the message of a check that fails with every earlier check passing |
| Validation.FirstFailureIsFirst | src/main/java/com/sweettracker/apicallexample/test_controller/TestController.java:49-57 | the earliest failing check alone decides the message |
| TestControllerProperties.GetTestFollowsChecks | src/main/java/com/sweettracker/apicallexample/test_controller/TestController.java:16-20 | `GET /test` equals the reference response for the one-check list [username] |
| TestControllerProperties.PostTestFollowsChecks | src/main/java/com/sweettracker/apicallexample/test_controller/TestController.java:24-31 | `POST /test/request-body` equals the reference response for the list [username, password] |
| TestControllerProperties.PostTest3FollowsChecks | src/main/java/com/sweettracker/apicallexample/test_controller/TestController.java:46-58 | `POST /test/multi-part` equals the reference response for the list [username, password, file] |
| TestControllerProperties.PostTestAndPostTest2Agree | src/main/java/com/sweettracker/apicallexample/test_controller/TestController.java:24-43 | the JSON-body and form-data handlers give the same response for every request, messages included |
| TestControllerProperties.UsernameReportedFirst | src/main/java/com/sweettracker/apicallexample/test_controller/TestController.java:17-50 | with an empty username, all four handlers answer with the username message, whatever the password or file |
| TestControllerProperties.PostTest3WithFileIsPostTest | src/main/java/com/sweettracker/apicallexample/test_controller/TestController.java:24-58 | with a file part present, the multipart handler is the JSON handler, except that the password message is reworded |
| TestControllerProperties.PasswordMessagesDiffer | src/main/java/com/sweettracker/apicallexample/test_controller/TestController.java:28-54 | for a missing password after a present username, the JSON handler and the multipart handler both reject, with different messages |
| TestControllerProperties.EmptyFileAccepted | src/main/java/com/sweettracker/apicallexample/test_controller/TestController.java:55-58 | the file check is for null only: a zero-byte file part is accepted and the user is greeted |
| TestControllerProperties.WhitespaceUsernameEchoed | src/main/java/com/sweettracker/apicallexample/test_controller/TestController.java:17-20 | a username of spaces only is not empty; it is echoed verbatim (`" "` gives `"hello  "`) |
| TestControllerProperties.SingleMissingFieldIsNamed | src/main/java/com/sweettracker/apicallexample/test_controller/TestController.java:25-57 | when exactly one required field is missing, the message names that field |
| TestControllerProperties.ClientTestExchanges | src/test/java/com/sweettracker/apicallexample/FeignClientTest.java:31-176 | the client tests' requests get the asserted answers: `"hello 12345"` and `"hello test"` bodies, and 400s for a missing username or an empty password |
| JavaList.IndexOfFrom | src/main/java/com/sweettracker/apicallexample/open_feign/FeignClientErrorDecoder.java:26 | the scan from `from` returns -1 iff `x` does not occur in the suffix; otherwise the first index at or after `from` holding `x` |
| JavaList.IndexOf | src/main/java/com/sweettracker/apicallexample/open_feign/FeignClientErrorDecoder.java:26 | `indexOf` returns -1 iff the argument is null or absent; otherwise the first index holding it |
| JavaList.Contains | src/main/java/com/sweettracker/apicallexample/open_feign/FeignClientErrorDecoder.java:26 | `contains` holds iff the argument is non-null and equal to some element |
| FeignClientErrorDecoder.Decode | src/main/java/com/sweettracker/apicallexample/open_feign/FeignClientErrorDecoder.java:22-39 | throws iff parsing fails, wrapping the syntax error; returns `RuntimeException("에러 발생")` iff the path is non-null and in the list; returns null iff the path is null or not in the list |
| FeignProperties.CheckPathListShape | src/main/java/com/sweettracker/apicallexample/open_feign/FeignClientErrorDecoder.java:16-19 | the checked list has four distinct entries, each beginning with `/test` |
| FeignProperties.DecodeDependsOnlyOnPath | src/main/java/com/sweettracker/apicallexample/open_feign/FeignClientErrorDecoder.java:22-31 | two responses whose URLs parse alike decode alike, whatever the method key and status |
| FeignProperties.TrailingSlashNeverChecked | src/main/java/com/sweettracker/apicallexample/open_feign/FeignClientErrorDecoder.java:26 | a path ending in `/` is never a checked path |
| FeignProperties.NearMissesDecodeToNull | src/main/java/com/sweettracker/apicallexample/open_feign/FeignClientErrorDecoder.java:26-38 | `/test/`, `/test/other`, `/TEST`, `test`, the empty path and `/test/multi-part/` all decode to null: matching is exact |
| FeignProperties.NullPathDecodesToNull | src/main/java/com/sweettracker/apicallexample/open_feign/FeignClientErrorDecoder.java:25-38 | a URI whose path is null (an opaque URI) decodes to null |
| FeignProperties.CheckedPathsDecodeToError | src/main/java/com/sweettracker/apicallexample/open_feign/FeignClientErrorDecoder.java:26-31 | each listed path decodes to a returned exception whose message is exactly "에러 발생" |
| Endpoints.Path | src/main/java/com/sweettracker/apicallexample/test_controller/TestController.java:15-45 | every handler's request mapping is one of the paths the error decoder checks |
| Endpoints.Handle | src/main/java/com/sweettracker/apicallexample/test_controller/TestController.java:15-59 | whichever endpoint answers, an OK body is `"hello "` followed by the non-null username |
| Endpoints.HandleOkIffFieldsPresent | src/main/java/com/sweettracker/apicallexample/test_controller/TestController.java:15-59 | an endpoint succeeds iff its required fields are present: the username always, the password on the POST endpoints, the file part on the multipart endpoint |
| Endpoints.FileReadOnlyByMultipart | src/main/java/com/sweettracker/apicallexample/test_controller/TestController.java:15-43 | the GET, JSON and form endpoints ignore the file part |
| Endpoints.CheckPathListIsEndpointPaths | src/main/java/com/sweettracker/apicallexample/open_feign/FeignClientErrorDecoder.java:16-19 | a path is in the decoder's list iff it is the mapping of one of the controller's four endpoints |
| Endpoints.FeignCall | src/test/java/com/sweettracker/apicallexample/FeignClientTest.java:44-53 | a Feign call yields the body iff the status is 2xx; a failed call raises the wrapped syntax error when the URL does not parse, `RuntimeException("에러 발생")` iff the path is non-null and listed, and a `NullPointerException` iff the path is null or unlisted |
| Endpoints.CallerSeesGreetingOrFixedError | src/test/java/com/sweettracker/apicallexample/FeignClientTest.java:29-54 | through the Feign client, a request an endpoint accepts yields `"hello "` + username, and one it rejects raises `RuntimeException("에러 발생")`, given that the URL parses back to that endpoint's path |

## Left out

- HTTP transport, Spring MVC routing and request binding are not modelled. This includes the framework rejecting a request with no `@RequestPart` file before the handler runs, so the model's missing-file branch is the handler's own null check.
- Spring's `ObjectUtils` is not part of this model: `ObjectUtils.IsEmpty` describes its `isEmpty(Object)` by the kinds of argument it distinguishes, not by Java's runtime type tests.
- `java.net.URI` parsing and `getPath()` (section 3.3 of RFC 3986) are not re-implemented. They are the parameter `parseUri`, which may yield a path, a null path or a syntax error.
- The text of the wrapping exception, `URISyntaxException.toString()`, is not modelled. Only the syntax error's reason is carried, in `WrappedUriSyntaxException`.
- Endpoints.FeignCall: keeps only Feign's split between a 2xx status (the body is returned) and any other status (the decoder's result is raised). The 404-decoding option, retries and body decoding into other types are Feign library code and are not part of this model.
- The console logging in both files (the `"call"` line and the URL/status banner) is not modelled. It has no effect on results.
- `TestFeignClient.java` and `TestHttpInterface.java` are not modelled. They are declarative client interfaces with routing annotations and no behaviour. The endpoint paths are taken from the controller's mappings, in `Endpoints.Path`.
- `HttpInterfaceConfig.java`, `ControllerAdvice.java` and `ApiCallExampleApplication.java` are not modelled. They are configuration and bootstrap over libraries that are not part of this model.
- The four client test classes make live network calls, which are not modelled. The Feign test's assertions, `"hello 12345"` and `"hello test"` bodies and a raised "에러 발생", are restated as `ClientTestExchanges` and `CallerSeesGreetingOrFixedError`.
