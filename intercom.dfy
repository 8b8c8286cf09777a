/**
  The Intercom API client: one request executor that builds a request, hands it
  to the HTTP transport and classifies the response by status code, and two
  domain operations that post to the `users` and `events` resources.
  The transport (`http.Client.Do`) is a parameter: a function from the request
  the client builds to what came back over the network.
 */
module Intercom {
  import opened Wrappers
  import opened Strconv
  import opened Types

  const BaseUrl: string := "https://api.intercom.io/"
  const DefaultMaxResults: int := 200
  const MPost: string := "POST"
  const MGet: string := "GET"

  const NotFoundMessage: string := "not-found"
  const ServerMessage: string := "server"
  const UnknownPrefix: string := "unknown, error code: "

  /** The statuses the executor treats as a server failure. */
  const ServerStatuses: set<int> := {500, 502, 503, 504}
  /** Every status with a case of its own; all others are "unknown". */
  const KnownStatuses: set<int> := {200, 202, 404, 429} + ServerStatuses

  /** Credentials for HTTP basic authentication. */
  datatype Auth = Auth(appId: string, apiKey: string)

  /**
    The request handed to the transport. `body` is the parameter mapping that is
    sent as the JSON body, or None when the request has no body.
   */
  datatype Request<P> = Request(verb: string, url: string, body: Option<P>, auth: Auth)

  /** What reading and JSON-decoding a 200 response body gave. */
  datatype BodyRead<M> =
    | ReadFailed(cause: string)
    | Undecodable(cause: string)
    | Decoded(data: M)

  /**
    A response: its status, the `X-RateLimit-Reset` header (None when absent) and
    the body as it would read and decode.
   */
  datatype Response<M> = Response(status: int, rateLimitReset: Option<string>, body: BodyRead<M>)

  /** One round trip over the transport: a transport error, or a response. */
  datatype Exchange<M> = TransportFailed(cause: string) | Received(resp: Response<M>)

  /** Every error the executor returns. The first three carry a library error's text verbatim. */
  datatype Error =
    | Transport(cause: string)
    | ReadFailure(cause: string)
    | DecodeFailure(cause: string)
    | NotFound
    | RateLimited(limit: RateLimitError)
    | Server
    | Unknown(code: int)
  {
    /** The status-derived errors: those the classifier makes rather than passes on. */
    predicate FromStatus() {
      NotFound? || RateLimited? || Server? || Unknown?
    }

    /**
      The text `Error()` returns: a library error keeps its own text, the
      status-derived errors have fixed texts, and an unknown status is written
      after a fixed prefix with %d.
     */
    function Message(): (msg: string)
      ensures Transport? || ReadFailure? || DecodeFailure? ==> msg == cause
      ensures NotFound? ==> msg == "not-found"
      ensures Server? ==> msg == "server"
      ensures RateLimited? ==> msg == limit.Error()
      ensures Unknown? ==> |msg| > |UnknownPrefix|
      ensures Unknown? ==> msg[..|UnknownPrefix|] == "unknown, error code: "
                           && msg[|UnknownPrefix|..] == FormatInt(code)
    {
      match this
      case Transport(c) => c
      case ReadFailure(c) => c
      case DecodeFailure(c) => c
      case NotFound => NotFoundMessage
      case RateLimited(e) => e.Error()
      case Server => ServerMessage
      case Unknown(code) => UnknownPrefix + FormatInt(code)
    }
  }

  /**
    The executor's (map, error) result: a decoded map with no error, neither a
    map nor an error, or an error with no map.
   */
  datatype Outcome<M> = Data(data: M) | NoContent | Failure(error: Error)

  /** The URL for a resource path with no query parameters. */
  function BuildUrl(path: string): (url: string)
    ensures |url| == |BaseUrl| + |path|
    ensures url[..|BaseUrl|] == BaseUrl && url[|BaseUrl|..] == path
    ensures '?' !in path ==> '?' !in url
  {
    BaseUrl + path
  }

  /** The request the executor builds: a body only for a POST with non-nil parameters. */
  function RequestFor<P>(verb: string, url: string, params: Option<P>, auth: Auth): (req: Request<P>)
    ensures req.body.Some? <==> verb == MPost && params.Some?
    ensures req.body.Some? ==> req.body == params
    ensures req.verb == verb && req.url == url && req.auth == auth
  {
    Request(verb, url, if params.Some? && verb == MPost then params else None, auth)
  }

  /**
    The rate-limit reset time: ParseInt of the header with its error discarded;
    an absent header reads as "".
   */
  function ResetTime(header: Option<string>): (t: Int64)
    ensures header.None? ==> t == 0
    ensures var h := header.GetOr("");
            WellFormed(h) ==> t == Saturate(SignedValue(h))
    ensures var h := header.GetOr("");
            !WellFormed(h) ==> t == if DigitsValue(LeadingDigits(Unsigned(h))) > MaxUint64
                                    then (if Negative(h) then MinInt64 else MaxInt64)
                                    else 0
  {
    ParseIntMeaning(header.GetOr(""));
    ParseInt(header.GetOr("")).value
  }

  /** The status switch of the executor. */
  function Classify<M>(resp: Response<M>): (o: Outcome<M>)
    ensures o.Data? <==> resp.status == 200 && resp.body.Decoded?
    ensures o.Data? ==> o.data == resp.body.data
    ensures o.NoContent? <==> resp.status == 202
    ensures o == Failure(NotFound) <==> resp.status == 404
    ensures o.Failure? && o.error.RateLimited? <==> resp.status == 429
    ensures o == Failure(Server) <==> resp.status in ServerStatuses
    ensures o.Failure? && o.error.Unknown? <==> resp.status !in KnownStatuses
    ensures o.Failure? && o.error.Unknown? ==> o.error.code == resp.status
    ensures o.Failure? && !o.error.FromStatus() ==> resp.status == 200
    ensures resp.status == 200 && resp.body.ReadFailed? ==> o == Failure(ReadFailure(resp.body.cause))
    ensures resp.status == 200 && resp.body.Undecodable? ==> o == Failure(DecodeFailure(resp.body.cause))
  {
    match resp.status
    case 200 =>
      (match resp.body
       case ReadFailed(c) => Failure(ReadFailure(c))
       case Undecodable(c) => Failure(DecodeFailure(c))
       case Decoded(m) => Data(m))
    case 202 => NoContent
    case 404 => Failure(NotFound)
    case 429 => Failure(RateLimited(RateLimitError(ResetTime(resp.rateLimitReset))))
    case 500 | 502 | 503 | 504 => Failure(Server)
    case _ => Failure(Unknown(resp.status))
  }

  /** A transport error is returned as it is, before any classification. */
  function Dispatch<M>(ex: Exchange<M>): (o: Outcome<M>)
    ensures ex.TransportFailed? ==> o == Failure(Transport(ex.cause))
    ensures ex.Received? ==> o == Classify(ex.resp)
  {
    match ex
    case TransportFailed(c) => Failure(Transport(c))
    case Received(resp) => Classify(resp)
  }

  /** What UpdateUser and CreateEvent return: nil for every outcome without an error, the error unchanged otherwise. */
  function Completion<M>(o: Outcome<M>): (err: Option<Error>)
    ensures err.None? <==> !o.Failure?
    ensures o.Failure? ==> err == Some(o.error)
  {
    if o.Failure? then Some(o.error) else None
  }

  /** The client. Its fields are set once, by the constructor. */
  class Intercom {
    const auth: Auth
    const maxResults: int

    /** NewIntercomClient: -1 asks for the default page size; any other value is kept. */
    constructor (appId: string, apiKey: string, maxResults: int)
      ensures auth == Auth(appId, apiKey)
      ensures maxResults == -1 ==> this.maxResults == DefaultMaxResults
      ensures maxResults != -1 ==> this.maxResults == maxResults
    {
      var effective := maxResults;
      if effective == -1 {
        effective := DefaultMaxResults;
      }
      auth := Auth(appId, apiKey);
      this.maxResults := effective;
    }

    /** Builds one request, sends it with `transport` and classifies what came back. */
    method ExecRequest<P, M>(verb: string, url: string, params: Option<P>,
                             transport: Request<P> -> Exchange<M>)
      returns (result: Outcome<M>)
      ensures result == Dispatch(transport(RequestFor(verb, url, params, auth)))
    {
      var req := RequestFor(verb, url, params, auth);
      var exchange := transport(req);
      if exchange.TransportFailed? {
        return Failure(Transport(exchange.cause));
      }
      result := Classify(exchange.resp);
    }

    /** Posts user data to `users`; nil unless the executor failed, and then its error unchanged. */
    method UpdateUser<P, M>(params: Option<P>, transport: Request<P> -> Exchange<M>)
      returns (err: Option<Error>)
      ensures err == Completion(Dispatch(transport(RequestFor(MPost, BuildUrl("users"), params, auth))))
    {
      var outcome := ExecRequest(MPost, BuildUrl("users"), params, transport);
      err := Completion(outcome);
    }

    /** Posts event data to `events`; nil unless the executor failed, and then its error unchanged. */
    method CreateEvent<P, M>(params: Option<P>, transport: Request<P> -> Exchange<M>)
      returns (err: Option<Error>)
      ensures err == Completion(Dispatch(transport(RequestFor(MPost, BuildUrl("events"), params, auth))))
    {
      var outcome := ExecRequest(MPost, BuildUrl("events"), params, transport);
      err := Completion(outcome);
    }
  }

  // ---------------------------------------------------------------------------
  // Properties of the classification and of the domain operations
  // ---------------------------------------------------------------------------

  /** Only a 200 response reads its body: any other status classifies the same whatever the body. */
  lemma ClassifyIgnoresBody<M>(r1: Response<M>, r2: Response<M>)
    requires r1.status == r2.status != 200 && r1.rateLimitReset == r2.rateLimitReset
    ensures Classify(r1) == Classify(r2)
  {
  }

  /** A 429 whose header holds the decimal text of an int64 carries exactly that reset time, and its message quotes the header. */
  lemma RateLimitFromHeader<M>(resp: Response<M>, n: Int64)
    requires resp.status == 429 && resp.rateLimitReset == Some(FormatInt(n))
    ensures Classify(resp) == Failure(RateLimited(RateLimitError(n)))
    ensures Classify(resp).error.Message() == RateLimitPrefix + FormatInt(n) + "'"
  {
    FormatIntParses(n);
  }

  /** A 429 with no header, an empty one, or one not starting with a (signed) digit carries reset time 0. */
  lemma RateLimitDefaultsToZero<M>(resp: Response<M>)
    requires resp.status == 429
    requires var h := resp.rateLimitReset.GetOr(""); Unsigned(h) == [] || !IsDigit(Unsigned(h)[0])
    ensures Classify(resp) == Failure(RateLimited(RateLimitError(0)))
  {
    ParseIntNonNumeric(resp.rateLimitReset.GetOr(""));
  }

  /**
    A 429 header that is not sign-and-digits carries 0, unless its leading digits
    already overflow 64 bits: then it saturates towards its sign.
   */
  lemma RateLimitMalformedHeader<M>(resp: Response<M>)
    requires resp.status == 429 && !WellFormed(resp.rateLimitReset.GetOr(""))
    ensures var h := resp.rateLimitReset.GetOr("");
            Classify(resp) == Failure(RateLimited(RateLimitError(
              if DigitsValue(LeadingDigits(Unsigned(h))) > MaxUint64
              then (if Negative(h) then MinInt64 else MaxInt64)
              else 0)))
  {
    ParseIntMalformed(resp.rateLimitReset.GetOr(""));
  }

  /** A 429 header of digits too large for int64 saturates to the bound on the side of its sign. */
  lemma RateLimitSaturates<M>(resp: Response<M>, digits: string)
    requires resp.status == 429 && digits != [] && AllDigits(digits)
    requires resp.rateLimitReset == Some(digits) || resp.rateLimitReset == Some("+" + digits)
             || resp.rateLimitReset == Some("-" + digits)
    ensures var n: int := DigitsValue(digits);
            Classify(resp) == Failure(RateLimited(RateLimitError(
              if resp.rateLimitReset == Some("-" + digits) then Saturate(-n) else Saturate(n))))
  {
    var h := resp.rateLimitReset.GetOr("");
    if h == digits {
      assert IsDigit(h[0]);
    }
    assert Unsigned(h) == digits;
    ParseIntWellFormed(h);
  }

  /** The message of an unknown status is the fixed prefix followed by the status, which parses back. */
  lemma UnknownStatusMessage<M>(resp: Response<M>)
    requires resp.status !in KnownStatuses && MinInt64 <= resp.status <= MaxInt64
    ensures var msg := Classify(resp).error.Message();
            msg[..|UnknownPrefix|] == UnknownPrefix
            && ParseInt(msg[|UnknownPrefix|..]) == Parsed(resp.status, NoError)
  {
    var msg := Classify(resp).error.Message();
    assert msg[|UnknownPrefix|..] == FormatInt(resp.status);
    FormatIntParses(resp.status);
  }

  /** The status-derived errors are told apart by their messages alone. */
  lemma StatusMessagesDistinct(a: Error, b: Error)
    requires a.FromStatus() && b.FromStatus() && a.Message() == b.Message()
    ensures a == b
  {
    var m := a.Message();
    if a.RateLimited? && b.RateLimited? {
      ErrorInjective(a.limit, b.limit);
    } else if a.Unknown? && b.Unknown? {
      assert FormatInt(a.code) == m[|UnknownPrefix|..] == FormatInt(b.code);
      FormatIntInjective(a.code, b.code);
    }
  }

  /** UpdateUser and CreateEvent report success exactly on a 202, or on a 200 whose body decoded. */
  lemma CompletionSucceedsExactly<M>(ex: Exchange<M>)
    ensures Completion(Dispatch(ex)).None?
            <==> ex.Received? && (ex.resp.status == 202 || (ex.resp.status == 200 && ex.resp.body.Decoded?))
  {
  }

  /** A 200 whose body cannot be read or decoded gives UpdateUser/CreateEvent that library error, text unchanged. */
  lemma BodyFailurePassesThrough<M>(resp: Response<M>)
    requires resp.status == 200 && !resp.body.Decoded?
    ensures var err := Completion(Dispatch(Received(resp)));
            err.Some? && err.value.Message() == resp.body.cause
            && err.value == (if resp.body.ReadFailed? then ReadFailure(resp.body.cause)
                             else DecodeFailure(resp.body.cause))
  {
  }

  /** A transport error reaches the caller of UpdateUser or CreateEvent with its text unchanged. */
  lemma TransportErrorPassesThrough<M>(cause: string)
    ensures Completion(Dispatch<M>(TransportFailed(cause))) == Some(Transport(cause))
    ensures Transport(cause).Message() == cause
  {
  }

  /** The two resources the domain operations post to. */
  lemma ResourceUrls()
    ensures BuildUrl("users") == "https://api.intercom.io/users"
    ensures BuildUrl("events") == "https://api.intercom.io/events"
  {
  }

  /** GET never carries a body, and neither does POST with nil parameters. */
  lemma NoBodyWithoutPostParams<P>(verb: string, url: string, params: Option<P>, auth: Auth)
    requires verb == MGet || params.None?
    ensures RequestFor(verb, url, params, auth).body.None?
  {
  }

  /** A 429 with header 1700000000 carries exactly that reset time. */
  lemma RateLimitExample<M>(resp: Response<M>)
    requires resp.status == 429 && resp.rateLimitReset == Some("1700000000")
    ensures Classify(resp) == Failure(RateLimited(RateLimitError(1700000000)))
  {
    assert FormatInt(1700000000) == "1700000000";
    RateLimitFromHeader(resp, 1700000000);
  }

  /** A 418 is an unknown status and its message names it. */
  lemma UnknownExample<M>(resp: Response<M>)
    requires resp.status == 418
    ensures Classify(resp).error.Message() == "unknown, error code: 418"
  {
    assert FormatInt(418) == "418";
  }
}
