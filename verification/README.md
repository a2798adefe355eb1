# wasm_request — a Dafny model of the request builder

`wasm_request` is a small Rust/WebAssembly helper that builds HTTP requests for
the browser's fetch API and classifies their outcome. This project models its
decision rules as pure Dafny functions and proves properties about them:

- **Method mapping** (`Methods`): the nine-variant `Method` enum and the fixed
  table of wire verbs, including the non-standard `OPTION → "OPTION"` entry. A
  reference inverse, `ParseVerb`, shows the table is injective.
- **Default headers** (`Headers`): the ordered list of header appends, with
  `Authorization` first when local storage holds a `"token"`, then
  `Content-Type: application/json` and `Access-Control-Allow-Origin: *`. Local
  storage is a `map<string, string>` parameter.
- **Request options** (`Options`): `DataType` as `Payload`, the `Rq` record and
  `get_options`. Caller headers are used verbatim, otherwise the defaults. The
  body is `Null`, a JSON string, or the form passed through. JSON serialisation
  is a caller-supplied function `serialize: T -> string` about which nothing is
  assumed.
- **Decimal text** (`Decimal`): the text Rust's `to_string` gives an unsigned
  integer, the leading digit, and the inverse `ValueOf`.
- **Execution** (`Requests`): the `RequestInit` built from `Rq` (verb from the
  table, body and headers passed through, mode always CORS), and the status
  rule. A response is an error iff the decimal text of its `u16` status starts
  with `'4'` or `'5'`. On three-digit statuses this is `400 <= s < 600`. On the
  whole `u16` range it is the union of `[4,6)`, `[40,60)`, `[400,600)`,
  `[4000,6000)` and `[40000,60000)`. So status 0 is a success, while 4, 45 and
  5000 are errors. Fetch and the JSON parse are an abstract function
  `fetch(url, init)` that yields either a failure value or `(status, parsedBody)`.
  `RequestError::from` is a caller-supplied function `fromValue`.

Three behaviours of the code that a caller might not expect are modelled as
written:

- An empty stored token is still sent as an empty `Authorization` header. The
  code tests only for presence, not for non-emptiness.
- An error's `RequestError` comes from the parsed body alone. Nothing falls back
  to the real response status, so the error's `status` is whatever the body
  says.
- Failures raised before a parsed body exists go through `RequestError::from`
  as well. This is how Rust's `?` converts a `JsValue` error into the function's
  error type (src/lib.rs:188-195). The model shows these as `Err` of the
  converted value. In the browser the conversion usually panics instead (see
  `Requests.Request` under "Left out").

## Model

| member | source | states |
|---|---|---|
| `Methods.WireVerb` | src/lib.rs:281-293 | every method's wire verb is a non-empty upper-case ASCII word of 3 to 7 letters |
| `Methods.ParseWireVerb` | src/lib.rs:281-293 | the table is total and each method's verb parses back to that method |
| `Methods.WireVerbOfParse` | src/lib.rs:281-293 | every verb the table knows is produced by the method it names |
| `Methods.WireVerbInjective` | src/lib.rs:281-293 | two methods share a verb iff they are the same method |
| `Methods.OptionVerbIsNonStandard` | src/lib.rs:288 | `OPTION` is sent as "OPTION", and no method is sent as the standard "OPTIONS" |
| `Headers.StoredToken` | src/lib.rs:160 | the token read is present iff storage holds the key `"token"`, and then it is the stored string |
| `Headers.DefaultHeaders` | src/lib.rs:158-172 | there are 3 headers if a token is stored and 2 otherwise; the last two are the JSON content type then the `*` CORS origin, in that order; `Authorization` is present iff a token is stored, and then it comes first with the stored value verbatim |
| `Headers.DefaultAuthorizationIsStoredToken` | src/lib.rs:160-166 | reading `Authorization` back from the defaults gives exactly the stored token, or nothing when none is stored |
| `Headers.EmptyTokenStillSent` | src/lib.rs:162-165 | an empty stored token is still appended as an empty `Authorization` value |
| `Headers.DefaultHeadersReadOnlyToken` | src/lib.rs:158-172 | two storages give the same defaults iff they hold the same token; no other key matters |
| `Options.EncodeBody` | src/lib.rs:266-276 | the body is null iff there is no payload; it is text iff the payload is JSON, and then it is the serialisation of that value; a form body is the caller's form unchanged |
| `Options.GetOptions` | src/lib.rs:248-279 | url and method are copied; caller headers are used exactly; without them the headers are exactly the default headers, ending with the two fixed defaults and carrying the stored token as `Authorization`; the body follows the encoding rule |
| `Options.CallerHeadersIgnoreStorage` | src/lib.rs:257-261 | with caller headers the options are the same whatever storage holds |
| `Options.DefaultOptionsDependOnToken` | src/lib.rs:257-261 | without caller headers, two storages give the same options iff they hold the same token |
| `Decimal.DecimalString` | src/lib.rs:197 | the decimal text of a status is non-empty, all digits, and starts with '0' only for zero |
| `Decimal.ValueOfDecimalString` | src/lib.rs:197 | reading the decimal text back gives the number it was written from |
| `Decimal.DecimalStringInjective` | src/lib.rs:197 | two numbers have the same decimal text iff they are equal |
| `Decimal.DecimalStringStartsWithLeadingDigit` | src/lib.rs:197 | the first character of the decimal text is the number's most significant digit |
| `Decimal.LeadingDigitByMagnitude` | src/lib.rs:197 | for numbers of one to five digits the leading digit is the quotient by the matching power of ten |
| `Requests.BuildInit` | src/lib.rs:181-186 | the init is in CORS mode, its verb parses back to the request's method, and its body and headers are the request's own |
| `Requests.Classify` | src/lib.rs:197-201 | the outcome is a success iff the status's leading digit is neither 4 nor 5; a success returns the parsed body unchanged; an error is the conversion of the parsed body |
| `Requests.Request` | src/lib.rs:180-202 | fetch receives the request's URL and an init with the table verb, the request's body and headers and CORS mode; the result is a success iff fetch responded with a non-error status, and then it is the parsed body; an error-status response becomes the conversion of its parsed body; a fetch failure becomes the conversion of the failure value |
| `Requests.IsErrorStatus` | src/lib.rs:197 | the string-prefix test of the status's decimal text is an error exactly when the status's leading digit is 4 or 5 |
| `Requests.ErrorStatusRanges` | src/lib.rs:197 | on every `u16` the test is an error iff the status lies in [4,6), [40,60), [400,600), [4000,6000) or [40000,60000) |
| `Requests.ErrorStatusOnThreeDigits` | src/lib.rs:197-201 | on statuses 100 to 999 the test agrees with 400 <= status < 600 |
| `Requests.ErrorStatusOutsideThreeDigits` | src/lib.rs:197-201 | status 0 is a success, while 4, 45 and 5000 are errors |
| `Requests.ErrorStatusExamples` | src/lib.rs:197-201 | 200 and 301 are successes; 404 and 500 are errors |
| `Requests.ErrorIgnoresResponseStatus` | src/lib.rs:199-200 | two error responses with the same body give the same error whatever their statuses, so the error's status comes from the body |
| `Requests.InitIndependentOfEnvironment` | src/lib.rs:181-186 | the init handed to fetch is the same whatever fetch and the error conversion are |

## Left out

- Local storage (`set_storage`, `get_storage`, `delete_storage`, src/lib.rs:205-235): these are platform key-value calls. Storage is a `map<string, string>` input that is read under the key `"token"`.
- Fetch, the `JsFuture` awaits, `Request::new_with_str_and_init`, `dyn_into` and `resp.json()` (src/lib.rs:188-195): this is asynchronous browser I/O. It is collapsed into the abstract `fetch` parameter, which yields a failure value or a status with a parsed body.
- `serde_json::to_string` and `into_serde`: these are foreign serialisation. They are the uninterpreted parameters `serialize` and `fromValue`, and JSON round-trips are not modelled.
- Options.GetOptions: does not model the panic when `serde_json::to_string` fails, because `serialize` is total; a failing serialisation is a programmer error that aborts.
- Requests.Request: does not model the panic on the failure path (src/lib.rs:188-195). The values `?` passes on there are JavaScript `TypeError` or `SyntaxError` objects. They serialise to `{}`, which has no `status` or `message`, so `into_serde().unwrap()` (src/error_handler.rs:22) panics and the caller gets no `Err`. The model returns `Err(fromValue(failure))` because `fromValue` is total.
- Requests.Classify: does not model the panic of `RequestError::from` when the body does not deserialise to `{status, message}`, because `fromValue` is total.
- `RequestError`'s `Display` and `Error` impls (src/error_handler.rs:12-18): they delegate to `Debug` and hold no logic. `RequestError` is a datatype with an `i16`-range `status` and a `message`.
- Headers.DefaultHeaders: does not model the panic of `headers.append("Authorization", &value).unwrap()` (src/lib.rs:164). The Fetch `Headers.append` throws a `TypeError` when the value contains NUL, CR or LF, or a character above U+00FF. For such a stored token the source panics, while the model returns three headers.
- The `unwrap` panics of `Headers::new`, `window()` and the form's `dyn_into::<JsValue>`, and of appending the two fixed defaults, are left out. They depend on the browser environment, not on any input, and the model treats them as never failing.
- Case-insensitive names and value merging of `web_sys::Headers`: this is platform behaviour. A header set is the ordered list of appends.
- The browser test and the documentation examples (src/lib.rs:1-107, 174-179, 237-247, 295-329) are left out because they need the network. One example builds headers and then passes `None` (src/lib.rs:87-94).
