/** The broker's HTTP contract as the clients see it: the requests they
    post, the replies they receive and the errors they raise. */
module Wire {
  import opened Wrappers
  import opened Values

  /** What `requests.post` gives back: an exception (connection refused,
      timeout, ...) or a response whose `json()` either decodes to the
      expected body or raises. */
  datatype Reply<B> =
    | Raised(message: string)
    | Response(ok: bool, status: int, text: string, body: Option<B>)

  /** `POST /register` reply: `{"nonce": ...}`. */
  datatype ChallengeBody = ChallengeBody(nonce: Option<string>)

  /** `POST /verify` reply. `verified` is the truthiness of the field;
      a missing field is `None` (`dict.get` / `KeyError` in the source);
      `grant` is read by the first client generation only. */
  datatype VerifyBody = VerifyBody(
    verified: bool,
    sessionId: Option<string>,
    accessToken: Option<string>,
    expiresIn: Option<int>,
    refreshToken: Option<string>,
    refreshExpiresIn: Option<int>,
    grant: Option<string>)

  /** `POST /session/refresh` reply. */
  datatype RefreshBody = RefreshBody(
    accessToken: Option<string>,
    expiresIn: Option<int>,
    refreshToken: Option<string>,
    refreshExpiresIn: Option<int>)

  /** The replies the broker gives to each endpoint during one client
      operation. */
  datatype Broker = Broker(
    challenge: Reply<ChallengeBody>,
    verify: Reply<VerifyBody>,
    refresh: Reply<RefreshBody>,
    capabilities: Reply<Json>)

  /** The JSON bodies the clients post. */
  datatype Request =
    | ChallengeRequest(aeId: string)
    | VerifyRequest(aeId: string, signedNonceB64: string)
    | RefreshRequest(sessionId: string, refreshToken: string)
    | CapabilitiesRequest(bearer: string, publishes: seq<string>, subscribes: seq<string>, meta: map<string, Json>)

  /** One `requests.post(url, json=...)` call. */
  datatype Post = Post(url: string, request: Request)

  datatype Stage = ChallengeStage | VerifyStage | RefreshStage | CapabilitiesStage

  /** Why a protocol step failed; the source formats these into messages. */
  datatype Cause =
    | Rejected(stage: Stage, status: int, text: string)  // a non-ok HTTP status
    | RejectedBody(stage: Stage, text: string)           // the same, reported by its body only
    | NotVerified            // `/verify` answered without `verified`
    | NoSession              // no session to refresh or to authorise with
    | RefreshExpired         // the refresh token is past its expiry
    | AccessExpired          // access token expiring and automatic refresh off
    | NotRegistered          // first generation: no grant captured yet

  datatype Error =
    | ValueError             // constructor: keypair without `pub` or `priv`
    | RegistrationError(cause: Cause)
    | SessionError(cause: Cause)
    | ClientError(cause: Cause)      // `AEClientError` itself
    | PlainException(cause: Cause)   // a bare `Exception` (first generation)
    | RequestFailed(message: string) // an exception from `requests.post`
    | KeyError(key: string)          // a required reply field is missing
    | DecodeError                    // `r.json()` or a base64 decode failed

  /** The error hierarchy of the second generation: `RegistrationError` and
      `SessionError` are `AEClientError`s; the others are not. */
  predicate IsClientError(e: Error) {
    e.RegistrationError? || e.SessionError? || e.ClientError?
  }

  /** Which exception class a step raises. */
  datatype Kind = AsRegistration | AsSession | AsClient | AsPlain

  function Raise(kind: Kind, cause: Cause): Error {
    match kind
    case AsRegistration => RegistrationError(cause)
    case AsSession => SessionError(cause)
    case AsClient => ClientError(cause)
    case AsPlain => PlainException(cause)
  }

  /** Reading a reply the way both clients do: an exception from
      `requests.post` propagates as it is, a non-ok status raises `kind`
      with the status and text, and only then is the body decoded. */
  function Receive<B>(reply: Reply<B>, kind: Kind, stage: Stage): (r: Result<B, Error>)
    ensures r.Success? <==> reply.Response? && reply.ok && reply.body.Some?
    ensures r.Success? ==> r.value == reply.body.value
    ensures reply.Raised? ==> r == Failure(RequestFailed(reply.message))
    ensures reply.Response? && !reply.ok ==>
              r == Failure(Raise(kind, Rejected(stage, reply.status, reply.text)))
    ensures reply.Response? && reply.ok && reply.body.None? ==> r == Failure(DecodeError)
  {
    match reply
    case Raised(m) => Failure(RequestFailed(m))
    case Response(ok, status, text, body) =>
      if !ok then Failure(Raise(kind, Rejected(stage, status, text)))
      else if body.None? then Failure(DecodeError)
      else Success(body.value)
  }

  /** Reading a reply as the first generation does at its challenge and
      verification steps: like `Receive` with a bare `Exception`, except
      that the exception quotes only the response body, not the status. */
  function ReceiveBodyOnly<B>(reply: Reply<B>, stage: Stage): (r: Result<B, Error>)
    ensures r.Success? <==> Receive(reply, AsPlain, stage).Success?
    ensures r.Success? ==> r.value == reply.body.value
    ensures reply.Raised? ==> r == Failure(RequestFailed(reply.message))
    ensures reply.Response? && !reply.ok ==> r == Failure(PlainException(RejectedBody(stage, reply.text)))
    ensures reply.Response? && reply.ok && reply.body.None? ==> r == Failure(DecodeError)
    ensures r.Failure? ==> !IsClientError(r.error)
  {
    match reply
    case Response(false, _, text, _) => Failure(PlainException(RejectedBody(stage, text)))
    case _ => Receive(reply, AsPlain, stage)
  }
}
