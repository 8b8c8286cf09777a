# Intercom API client — a Dafny model

This project models the decision logic of a small Go client for the Intercom
REST API (package `intercom`). It covers:

- the client value built by `NewIntercomClient`, including its page-size default;
- the URL builder for a resource path with no query parameters;
- the request executor `execRequest`: when a JSON body is attached, how a
  transport error short-circuits, and the `switch` that maps a response status
  to a decoded map, an empty success or one of the typed failures (`not-found`,
  `RateLimitError`, `server`, `unknown, error code: N`);
- the domain operations `UpdateUser` and `CreateEvent`, which post to `users` and
  `events`, collapse every non-error outcome to `nil` and pass errors through;
- `RateLimitError` and its `Error()` text.

Two library routines are modelled exactly, because the properties depend on them:

- `strconv.ParseInt(h, 10, 64)`, which reads the `X-RateLimit-Reset` header. Its
  error is discarded, so a syntax error reads as 0 and an overflow saturates to
  an int64 bound.
- The `%d` verb of `fmt.Sprintf`, which writes the reset time and unknown status
  codes.

Files:

- `wrappers.dfy` — `Option`. `None` stands for Go's nil map, nil error or absent header.
- `strconv.dfy` — `ParseUint`/`ParseInt`. These follow the library's digit loop,
  including its early returns. A reference definition (`LeadingDigitsOutcome`)
  and lemmas characterise the result. `FormatInt` is the `%d` rendering, and a
  round-trip lemma connects the two.
- `types.dfy` — `RateLimitError` and its message, with the round trip and injectivity of the message.
- `intercom.dfy` — the request and response datatypes, `Classify`, `Dispatch`,
  `Completion`, the `Intercom` class (its fields are `const`, because they are
  never updated after construction) and the methods `ExecRequest`, `UpdateUser`
  and `CreateEvent`. The HTTP transport is a function parameter
  `transport: Request<P> -> Exchange<M>`: it takes the request the client built and
  returns either a transport error or a response. A response carries its
  status, the `X-RateLimit-Reset` header and what reading and JSON-decoding the
  body gave.

Behaviour of the code that the model follows:

- A body is attached for every POST whose parameter map is non-nil, an empty
  map included. The code tests only for nil.
- A failure to read a 200 body, and a JSON decode failure, are returned as the
  library's own errors (`ReadFailure`, `DecodeFailure`). They are not folded
  into the transport error.
- `ParseInt` reports a range error as soon as the leading digits overflow 64
  bits, even if a non-digit follows. So `"99999999999999999999x"` reads as
  MaxInt64, not as 0 (`ParseIntMalformed`, `RateLimitMalformedHeader`).

## Model

| member | source | states |
|---|---|---|
| Strconv.ScanUint | intercom.go:141 | the base-10 digit loop never yields more than MaxUint64; a syntax error yields 0 and a range error MaxUint64 |
| Strconv.ParseUint | intercom.go:141 | the unsigned parse is always a uint64; syntax error gives 0, range error gives MaxUint64 |
| Strconv.ParseInt | intercom.go:141 | the header parse always yields an int64; a syntax error yields 0; a range error yields MinInt64 or MaxInt64 |
| Strconv.ScanMatchesReference | intercom.go:141 | from any accepted digit prefix, the digit loop agrees with the reference reading of the leading digits |
| Strconv.ParseUintMeaning | intercom.go:141 | the unsigned parse: overflow of the leading digits → range error; else a non-digit → syntax error; else the number |
| Strconv.ParseUintDigits | intercom.go:141 | a digit string parses to its value, or to MaxUint64 with a range error when it exceeds 64 bits |
| Strconv.ParseIntWellFormed | intercom.go:141 | sign+digits parses to its value clamped to int64; no error exactly when it fits, else a range error |
| Strconv.ParseIntMalformed | intercom.go:141 | any other text reads as 0 with a syntax error, unless its leading digits already overflow, then it saturates towards its sign |
| Strconv.ParseIntMeaning | intercom.go:141 | the whole meaning of the header parse on every text: sign+digits gives its value clamped to int64 (range error when clamped); anything else gives 0, or the sign's bound when its leading digits overflow |
| Strconv.ParseIntNonNumeric | intercom.go:141 | empty text, a bare sign, or a non-digit after the sign reads as 0 |
| Strconv.FormatNat | types.go:38 | %d of a natural: at least one character, digits only, a leading '0' exactly for zero, one character exactly below 10 |
| Strconv.FormatInt | types.go:38 | %d of an integer: "0" exactly for zero; digits with no leading zero for positives; '-' then such digits for negatives |
| Strconv.FormatNatValue | types.go:38 | reading back the digits %d writes gives the number |
| Strconv.FormatIntMeaning | types.go:38 | every %d text is sign+digits syntax and denotes exactly the integer written |
| Strconv.FormatIntParses | types.go:38 | round trip: ParseInt base 10/64 reads back every int64 written by %d, with no error |
| Strconv.FormatIntInjective | types.go:38 | distinct integers have distinct %d texts |
| Types.RateLimitError.Error | types.go:37-39 | the message starts with "Rate limit will reset at: '", ends with "'", and the quoted text is the %d rendering of the reset time |
| Types.ErrorParsesBack | types.go:38 | parsing the quoted text of the message with ParseInt gives back the reset time |
| Types.ErrorInjective | types.go:38 | distinct reset times give distinct messages |
| Intercom.BuildUrl | intercom.go:72-87 | with nil params the URL is the base URL followed by the path, with no '?' added |
| Intercom.RequestFor | intercom.go:94-112 | the request carries a body iff the verb is POST and params is non-nil, and then the body is params; verb, URL and credentials are passed on |
| Intercom.Error.Message | intercom.go:139-146 | transport, read and decode errors keep the library's text; not-found → "not-found"; server → "server"; rate-limited → the RateLimitError message; unknown → "unknown, error code: " followed by %d of the status |
| Intercom.ResetTime | intercom.go:141 | the header's ParseInt value with the error discarded: an absent header reads as "" and gives 0; sign+digits gives its value clamped to int64; anything else gives 0, or the sign's bound when its leading digits overflow |
| Intercom.Classify | intercom.go:122-147 | a map only on 200 with a decoded body; on 200 a read failure returns that read error and a decode failure that decode error, cause unchanged; no result and no error exactly on 202; not-found exactly on 404; rate-limited exactly on 429; server exactly on 500/502/503/504; unknown carrying the status exactly on every other status |
| Intercom.Dispatch | intercom.go:116-120 | a transport error is returned verbatim and no status classification happens; a response is classified |
| Intercom.Completion | intercom.go:49-55 | nil exactly when the executor gave no error; otherwise that error unchanged |
| Intercom.Intercom.constructor | intercom.go:37-44 | maxResults -1 becomes 200; every other value, 0 and other negatives included, is kept; credentials stored as given |
| Intercom.Intercom.ExecRequest | intercom.go:90-149 | the outcome is the classification of what the transport returned for the request RequestFor describes |
| Intercom.Intercom.UpdateUser | intercom.go:47-56 | POSTs params to base URL + "users" and returns the executor's error, or nil |
| Intercom.Intercom.CreateEvent | intercom.go:59-69 | POSTs params to base URL + "events" and returns the executor's error, or nil |
| Intercom.ClassifyIgnoresBody | intercom.go:122-147 | for every status other than 200 the outcome does not depend on the body (404 is not-found regardless of body) |
| Intercom.RateLimitFromHeader | intercom.go:140-142 | a 429 whose header is the decimal text of n carries exactly n, and its message quotes that header text |
| Intercom.RateLimitDefaultsToZero | intercom.go:141 | a 429 whose header is absent, empty, or does not start with a (signed) digit carries reset time 0 |
| Intercom.RateLimitMalformedHeader | intercom.go:141 | a 429 whose header is not sign+digits (for example "12abc") carries 0, unless its leading digits overflow 64 bits, in which case it saturates to MaxInt64, or MinInt64 with a '-' sign |
| Intercom.RateLimitSaturates | intercom.go:141 | a 429 header of out-of-range digits saturates to MaxInt64, or to MinInt64 with a '-' sign |
| Intercom.UnknownStatusMessage | intercom.go:145-146 | an unknown status yields "unknown, error code: " followed by text that parses back to the status |
| Intercom.StatusMessagesDistinct | intercom.go:138-146 | two status-derived errors with the same message are the same error |
| Intercom.CompletionSucceedsExactly | intercom.go:47-69 | UpdateUser/CreateEvent return nil exactly on a 202, or on a 200 whose body decoded |
| Intercom.BodyFailurePassesThrough | intercom.go:123-134 | on a 200 whose body fails to read or decode, UpdateUser/CreateEvent return that library error (read or decode), with its text unchanged |
| Intercom.TransportErrorPassesThrough | intercom.go:116-120 | a transport error reaches the caller of UpdateUser/CreateEvent unchanged, with its own text |
| Intercom.ResourceUrls | intercom.go:48-60 | the resources are https://api.intercom.io/users and https://api.intercom.io/events |
| Intercom.NoBodyWithoutPostParams | intercom.go:95-102 | GET never sends a body, and neither does POST with nil params |
| Intercom.RateLimitExample | intercom.go:140-142 | a 429 with header 1700000000 carries 1700000000 |
| Intercom.UnknownExample | intercom.go:145-146 | a 418 gives "unknown, error code: 418" |

## Left out

- HTTP transport: `http.Client.Do`, response-body closing and connection pooling are network I/O. The transport is a function parameter.
- Headers: `Content-Type`/`Accept` headers and the encoding of basic-auth credentials are not modelled. The request carries the credential pair as given.
- `http.NewRequest` failure is not modelled. Its callers pass only the constant methods and URLs built from the constant base URL.
- Response headers: a response carries only the first `X-RateLimit-Reset` value (None when absent). Header-name canonicalisation is library behaviour.
- JSON: `json.Marshal` is not modelled, and the request body is the parameter value itself. So the empty body sent after a (logged) marshal error is not modelled either.
- JSON decoding is an oracle: the body reads and decodes to an abstract map, fails to read, or fails to decode. A JSON `null` body, which leaves Go's map nil with no error, is one of the abstract `Decoded` values.
- BuildUrl: the URL-parse error path, query encoding of non-nil params and percent-escaping of the path are not modelled. The base URL is a constant that parses. No caller passes params. The only paths, `users` and `events`, need no escaping.
- Strings: Go strings are bytes; here they are sequences of characters. A non-digit character plays the part of a non-digit byte.
- Diagnostic printing (`fmt.Println`) is left out.
- The `UserUpdate` struct is left out: no function uses it.
- The unused `baseurl` field and the `http.Client` handle are not modelled. `maxResults` is stored but no operation reads it.
