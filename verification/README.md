# shift-sdk-php in Dafny

A model of `ShiftSdkPhp`, the PHP client of the Shift external-application
(`ex-app`) API. Each client is built from a base URL, an API key and a secret:

- The constructor normalises the base URL. It trims blanks, then strips
  trailing slashes.
- The constructor trims the key and the secret.
- `createToken` posts the credentials to `ex-app/create-token` and stores the
  returned bearer token.
- `get` and `post` send that token to an endpoint under `ex-app`. They first
  normalise the endpoint: trim blanks, then strip trailing and leading
  slashes. They turn a transport error into one exception class per HTTP
  status.

Modules:

- `PhpString`: PHP's `trim`, `ltrim` and `rtrim`, with PHP's default blank
  set. Lemmas characterise each one and show that its contract determines it.
- `Http`: the values exchanged with the transport.
  - A `Request` is what the SDK would send: verb, URL, headers and
    parameters.
  - An `Outcome` is what the transport answers. It is either the error flag
    with its code and message, or a body.
  - A `Decoded` body keeps only what the SDK inspects of `json_decode`'s
    result: whether PHP's `empty()` holds of it, and otherwise its `token`
    member.
- `Errors`: the exception classes as an `ErrorKind`, and the two
  status-to-class tables. The table of `get`/`post` maps 401, 403, 404, 422
  and 500 to their own classes. The table of `createToken` has no 403 or 422
  case. The module also holds the classification of an outcome for each
  operation.
- `ShiftSdk`: the two normalisers, the lemmas about them, and the class
  `ShiftSdkPhp`.
  - The class fixes the base URL and the credentials at construction and
    updates only `token`.
  - `CreateToken`, `Get` and `Post` take the transport's outcome as a
    parameter.
  - They return the request they send together with the result or the
    exception.

Behaviours of the code that the model keeps as they are, and proves where
they are surprising:

- Normalising twice can differ from normalising once, for both the base URL
  and the endpoint. Counterexamples are proved.
- A 422 response raises `UnprocessableEntityException` with the transport's
  message. Nothing of the body is kept.
- No error message is taken from a response body.
- There is one token slot and one `ex-app` prefix.
- The empty-endpoint guard compares the raw argument with `''`. It runs
  before normalisation, so `" "` and `"/"` pass the guard and request the
  bare prefix.

## Model

| member | source | states |
|---|---|---|
| PhpString.LTrim | src/ShiftSdkPhp.php:80-83 | ltrim's result is no longer than its input and does not start with a mask character |
| PhpString.LTrimSplit | src/ShiftSdkPhp.php:80-83 | ltrim keeps a suffix of its input and removes only mask characters |
| PhpString.RTrim | src/ShiftSdkPhp.php:69-72 | rtrim's result is no longer than its input and does not end with a mask character |
| PhpString.RTrimSplit | src/ShiftSdkPhp.php:69-72 | rtrim keeps a prefix of its input and removes only mask characters |
| PhpString.Trim | src/ShiftSdkPhp.php:58-60 | trim's result neither starts nor ends with a blank (space, tab, newline, carriage return, NUL, vertical tab) |
| PhpString.TrimIsPiece | src/ShiftSdkPhp.php:58-60 | trim's result is a contiguous piece of the input with only blanks before and after it |
| PhpString.LTrimUnique | src/ShiftSdkPhp.php:80-83 | if the first k characters are mask characters and the next one is not, ltrim removes exactly those k |
| PhpString.RTrimUnique | src/ShiftSdkPhp.php:69-72 | if the last k characters are mask characters and the one before is not, rtrim removes exactly those k |
| PhpString.TrimUnique | src/ShiftSdkPhp.php:58-60 | any unpadded piece of s with only blanks around it is trim(s), so trim is fixed by its contract |
| PhpString.BothTrimsUnpadded | src/ShiftSdkPhp.php:80-83 | rtrim followed by ltrim with the same mask leaves neither end a mask character |
| PhpString.TrimAround | src/ShiftSdkPhp.php:58-60 | trim of blanks + t + blanks is t when t is unpadded |
| PhpString.LTrimAround | src/ShiftSdkPhp.php:80-83 | ltrim of mask characters + t is t when t does not start with one |
| PhpString.RTrimAround | src/ShiftSdkPhp.php:69-72 | rtrim of t + mask characters is t when t does not end with one |
| Errors.RequestErrorKind | src/ShiftSdkPhp.php:197-228 | a code gets a dedicated class exactly when it is 401, 403, 404, 422 or 500, and that class stands for that status; never ClientError |
| Errors.TokenErrorKind | src/ShiftSdkPhp.php:133-154 | the createToken table agrees with the get/post table except that 403 and 422 fall to the base Exception; it never yields ClientError, RoleError or UnprocessableEntity |
| Errors.ClassifyRequest | src/ShiftSdkPhp.php:197-231 | get/post succeed exactly when the transport's error flag is down and then return the decoded body unchanged; otherwise the exception carries the transport's message and code and the class of its code |
| Errors.ClassifyToken | src/ShiftSdkPhp.php:133-162 | createToken yields a token exactly when the reply decodes non-empty with a token set, and that token is the reply's; transport errors keep their message and code; a reply without a token is the base Exception 'create token error' with code 0 |
| ShiftSdk.SetApiBaseUrl | src/ShiftSdkPhp.php:69-72 | the normalised base URL does not end with '/' and does not start with a blank, and is a piece of the input with only blanks cut before and only blanks and slashes cut after |
| ShiftSdk.SetEndPoint | src/ShiftSdkPhp.php:80-83 | the normalised endpoint neither starts nor ends with '/', and is a piece of the input with only blanks and slashes cut from either end |
| ShiftSdk.BaseUrlIsPiece | src/ShiftSdkPhp.php:69-72 | trim then rtrim('/') cuts only blanks in front and blanks and slashes behind |
| ShiftSdk.EndPointIsPiece | src/ShiftSdkPhp.php:80-83 | trim, rtrim('/') and ltrim('/') together cut only blanks and slashes |
| ShiftSdk.BaseUrlCanonical | src/ShiftSdkPhp.php:69-72 | blanks + url + slashes + blanks normalises to url whenever url does not start with a blank or end with a blank or slash |
| ShiftSdk.EndPointCanonical | src/ShiftSdkPhp.php:80-83 | blanks + slashes + path + slashes + blanks normalises to path whenever path has no blank or slash at either end; with the empty path this covers inputs such as " / " that pass the literal-empty guard and request the bare prefix |
| ShiftSdk.BaseUrlExamples | tests/ShiftSdkPhpTest.php:15-35 | each of the five base URLs of the SDK's test normalises to http://example.com |
| ShiftSdk.EndPointExamples | tests/ShiftSdkPhpTest.php:42-62 | each of the five endpoints of the SDK's test normalises to endPoint |
| ShiftSdk.CredentialExamples | tests/ShiftSdkPhpTest.php:69-112 | each key and secret of the SDK's tests, padded or not, is stored as the bare value |
| ShiftSdk.BaseUrlNotIdempotent | src/ShiftSdkPhp.php:69-72 | "a /" normalises to "a ", which normalises again to "a": the base-URL normaliser is not idempotent |
| ShiftSdk.EndPointNotIdempotent | src/ShiftSdkPhp.php:80-83 | "/ a" normalises to " a", which normalises again to "a": the endpoint normaliser is not idempotent |
| ShiftSdk.BlankEndPointIsEmpty | src/ShiftSdkPhp.php:184-190 | an endpoint made only of blanks or only of slashes passes the literal-empty guard and normalises to the empty path |
| ShiftSdk.Authorization | src/ShiftSdkPhp.php:194 | the header is named Authorization and its value is "Bearer " followed by the stored token, which can be read back from its end; with no token set the value is "Bearer " alone |
| ShiftSdk.ExAppUrl | src/ShiftSdkPhp.php:195 | the URL is the base, then "/ex-app/", then the path, and the path can be read back from the URL's end, so for one base distinct paths give distinct URLs |
| ShiftSdk.ShiftSdkPhp.constructor | src/ShiftSdkPhp.php:53-61 | the base URL is stored normalised and the key and secret trimmed; no token is set; the stored values satisfy the client invariant |
| ShiftSdk.ShiftSdkPhp.GetApiBaseUrl | src/ShiftSdkPhp.php:90-93 | the returned base URL does not end with '/' |
| ShiftSdk.ShiftSdkPhp.GetApiKey | src/ShiftSdkPhp.php:100-103 | the returned key has no blank at either end |
| ShiftSdk.ShiftSdkPhp.GetApiSecret | src/ShiftSdkPhp.php:110-113 | the returned secret has no blank at either end |
| ShiftSdk.ShiftSdkPhp.CreateToken | src/ShiftSdkPhp.php:125-165 | posts key and password, with only the Accept header, to base/ex-app/create-token; succeeds exactly when ClassifyToken does and then stores the new token; on every error raises ClassifyToken's exception and leaves the token as it was |
| ShiftSdk.ShiftSdkPhp.Post | src/ShiftSdkPhp.php:182-236 | the empty endpoint raises ClientError 'end point empty' (9001) and sends nothing; any other endpoint posts the data to base/ex-app/normalised-endpoint with Accept and 'Bearer ' + token headers, and the result is ClassifyRequest of the outcome |
| ShiftSdk.ShiftSdkPhp.Get | src/ShiftSdkPhp.php:253-307 | as Post, with a GET carrying the query parameters |
| ShiftSdk.TokenLifecycle | src/ShiftSdkPhp.php:161 | in one client, a get before any createToken sends 'Bearer ' with nothing after it; after a successful createToken it sends that token; a later createToken replaces the token only if it succeeds; both gets go to the same URL |

## Left out

- The HTTP transport (php-curl-class) is not modelled. This covers the
  connection, TLS, header handling, encoding the form body and the query
  string, and `close`. Each operation takes the transport's outcome as a
  parameter and returns the request it would send.
- What makes the transport raise its error flag is left to that parameter,
  and so is which code and message it reports.
- `json_decode` is left out. `createToken` decodes to an object and
  `get`/`post` decode to an associative array. The model reduces the body to
  `Decoded`: whether PHP's `empty()` holds of it, and otherwise its `token`
  member when that member is set.
  - `Get` and `Post` return that value unchanged. The full JSON document is
    not represented.
  - A `token` member that is not a string is not represented.
- Exceptions are values (`Errors.Error`), not thrown objects. Their
  `__toString` formatting is left out.
- Parameters (`Http.Params`) are ordered pairs of strings. PHP arrays with
  nested or non-string values are not represented.
- `ShiftSdk.ShiftSdkPhp.Get` and `ShiftSdk.ShiftSdkPhp.Post` state no ensures
  about the token. They declare no `modifies` clause, so Dafny itself
  guarantees they leave it unchanged.
- `ShiftSdk.ShiftSdkPhp.Get`: the source's default of an empty query array
  is not modelled. Callers pass the query explicitly, and passing `[]` gives
  the same request.
- PHP strings are byte strings. The model uses sequences of characters. This
  does not matter for the ASCII characters that trim strips.
