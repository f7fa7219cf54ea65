# aegnix_ae agent SDK — a Dafny model

This project models the client side of the AEGNIX agent SDK (`aegnix_ae`).
An agent ("AE") registers with the ABI broker by challenge and response:
it signs a nonce with its Ed25519 key and receives a session. It then emits
signed envelopes and subscribes handlers through a pluggable transport.

The model covers both client generations:

- `client_v2.py` has an access/refresh session, lazy refresh, a session
  file and the `AEClientError` hierarchy.
- `client.py` captures one grant string and raises bare exceptions.

It also covers the session value and its JSON file store (`session.py`),
the handler registry (`decorators.py`), and the transports with their
factory (`transport/`).

How the model is built:

- Each client operation is a function from a `State` value to a `Step`. A
  `Step` holds what the call returns or raises, and the state afterwards.
- The client classes' methods follow the Python statement by statement.
  Each method is proved to perform exactly its function's transition.
- Lemmas about those functions state what the SDK promises.
- The in-memory transports are classes whose `publish` loops are proved
  against a delivery function.

The outside world enters as parameters:

- The broker's replies to each endpoint come in `Wire.Broker`.
- The clock comes in `now`.
- How a file write goes comes in `Session.IoOutcome`.
- A handler that raises is given by a predicate `raises`.
- The signing and base64 helpers of `aegnix_core`, and the signature `sign_envelope` attaches, are total functions in `Envelopes.Crypto`.
- Base64 encoding (section 4 of RFC 4648) is written out and proved to round-trip.

Behaviour of the code a reader may not expect:

- The in-process transport's `publish` does not isolate handlers and takes no lock. The first exception a handler raises propagates, and the remaining handlers are not called (`Dispatch.Deliver`).
- The log-broker adapter does not switch to mock mode when its SDK is missing. `mock` is a constructor flag, defaulting to true, and outside mock mode `publish` and `subscribe` do nothing.
- Registration can fail with more than `RegistrationError`. A reply without `nonce` or `session_id` raises `KeyError`, and a transport failure raises whatever `requests` raised.
- The second-generation constructor strips trailing slashes only from the environment default of `abi_url`, not from an explicit `abi_url`. This is the precedence of `a or b.rstrip("/")`. The first generation never strips the request URL, only the transport's `base_url`.
- Registration's capability declaration runs `_ensure_access_token`. A granted token that expires within 5 seconds is therefore refreshed during registration when `auto_refresh` is on. With `auto_refresh` off, `SessionError` is raised there and swallowed by the `except` at client_v2.py:223-225, so nothing is declared and registration still returns true. `ClientV2Properties.RegisterDeclaresCapabilities` assumes a live granted token.

## Model

| member | source | states |
|---|---|---|
| Strings.RStripSlash | client_v2.py:92 | the result is a prefix of the input that drops only slashes and never ends in one |
| Strings.RStripSlashIdempotent | client.py:110 | stripping twice is stripping once |
| Strings.Lower | transport/__init__.py:9 | every character is lower-cased in place and the length is kept |
| Strings.LowerIdempotent | transport/__init__.py:9 | lower-casing twice is lower-casing once |
| Strings.Utf8Encode | client_v2.py:141 | the UTF-8 text of a string is 1 to 4 bytes per character; all-ASCII text encodes byte for byte to its code points; the first character's bytes open the result, a lead byte of 0xC0 or more followed by continuation bytes 0x80–0xBF when it needs several |
| Base64.EncodeGroup | client_v2.py:147 | three bytes become four alphabet characters, with one `=` per missing byte |
| Base64.Encode | client_v2.py:147 | output length is 4·⌈n/3⌉ and all of it is alphabet or padding |
| Base64.DigitValue | client_v2.py:147 | the alphabet character of every 6-bit value maps back to that value |
| Base64.RoundTrip | client_v2.py:147 | decoding the encoding of any byte string gives it back |
| Wire.ReceiveBodyOnly | client.py:125-126 | succeeds exactly when `Receive` does, with the same body; a non-ok response raises a bare exception carrying only the response text; never an `AEClientError` |
| Wire.Receive | client_v2.py:190-193 | success exactly for an ok response that decodes; an exception becomes a request failure, a non-ok status the stage's error with status and body, an undecodable body a decode error |
| Session.FromVerifyResponse | session.py:35-45 | success exactly when `session_id`, `access_token` and `refresh_token` are present, with the first missing one named in `KeyError`; expiries are now plus the lifetimes, which default to 0 |
| Session.FromRefreshResponse | session.py:47-59 | the session id passed in is kept, and the tokens and expiries come from the reply |
| Session.ToDict | session.py:65-66 | the dictionary has exactly the six dataclass fields |
| Session.FromDict | session.py:61-63 | only a dictionary with exactly the six fields gives a session |
| Session.DictRoundTrip | session.py:61-66 | `from_dict(to_dict(s)) == s` |
| Session.DictRoundTripBack | session.py:61-66 | every accepted dictionary is `to_dict` of what it parses to |
| Session.IsAccessExpired | session.py:71-73 | the access token is expired exactly when it has at most `leeway` seconds left |
| Session.IsRefreshExpired | session.py:75-77 | the refresh token is expired exactly when it has at most `leeway` seconds left |
| Session.ExpiryMonotone | session.py:71-77 | once expired, a token stays expired at later times and at larger leeways |
| Session.FreshSessionLifetime | session.py:71-73 | a 300-second access token is live at receipt and expired 300 seconds later |
| Session.Loaded | session.py:100-109 | no file or an unparsable one loads nothing; a loaded session is exactly what the file holds as a `to_dict` object |
| Session.Saved | session.py:111-117 | a completed write loads back as the saved session; a failed open leaves the file; a failed write leaves a file that loads nothing |
| Session.Cleared | session.py:119-125 | a successful removal leaves no file and nothing to load; otherwise the file is unchanged |
| Session.LoadAfterSave | session.py:100-117 | after a successful save, load returns the saved session |
| Session.LoadAfterFailedSave | session.py:111-117 | a save that cannot open the file leaves what load returns; one that fails mid-write leaves a file load rejects |
| Session.ClearIdempotent | session.py:119-125 | after a clear that removes the file, load returns nothing; clearing is idempotent |
| Session.SessionStore.constructor | session.py:91-98 | the store starts over the given file |
| Session.SessionStore.Load | session.py:100-109 | returns the parsed session, or nothing for a missing, garbled or ill-formed file |
| Session.SessionStore.Save | session.py:111-117 | the file afterwards is the saved session, or as the I/O failure left it |
| Session.SessionStore.Clear | session.py:119-125 | the file is gone when removal succeeded, otherwise unchanged |
| Decorators.Items | client_v2.py:386 | the `(subject, handler)` pairs in registry order, one per subject |
| Decorators.EventRegistry.constructor | decorators.py:3-4 | the registry starts empty |
| Decorators.EventRegistry.Register | decorators.py:13-15 | maps the subject to `fn`, leaves other subjects alone, appends only a new subject to the iteration order, and keeps keys and order in step |
| Decorators.EventRegistry.On | decorators.py:6-11 | registers exactly as `register` does and returns `fn` unchanged |
| Dispatch.Appended | transport/transport_local.py:17-19 | the handler goes last in its subject's list and other subjects are unchanged |
| Dispatch.Deliver | transport/transport_local.py:13-15 | handlers are called in order up to and including the first that raises; none raising means all are called |
| Dispatch.DeliverAll | transport/transport_local.py:13-15 | with no raising handler, the handlers called are exactly the subscribed list, duplicates included |
| Dispatch.DeliverPrefix | transport/transport_local.py:13-15 | a raising handler only cuts the delivery list short |
| Dispatch.DoubleSubscribeDeliversTwice | transport/transport_local.py:17-19 | a handler subscribed twice receives one message twice |
| TransportLocal.LocalAdapter.constructor | transport/transport_local.py:8-9 | no subscriptions and no deliveries |
| TransportLocal.LocalAdapter.Publish | transport/transport_local.py:11-15 | the deliveries made and the escaping exception are those of `Deliver` over the subject's handlers; subscriptions are unchanged; an unknown subject delivers nothing |
| TransportLocal.LocalAdapter.Subscribe | transport/transport_local.py:17-19 | the subject's list gains the handler at its end |
| TransportKafka.KafkaAdapter.constructor | transport/transport_kafka.py:8-18 | keeps the broker address and mock flag, with no handlers |
| TransportKafka.KafkaAdapter.Default | transport/transport_kafka.py:8 | defaults to mock mode on `localhost:9092` |
| TransportKafka.KafkaAdapter.Publish | transport/transport_kafka.py:20-27 | in mock mode, delivers like the local bus; otherwise delivers nothing |
| TransportKafka.KafkaAdapter.Subscribe | transport/transport_kafka.py:29-34 | in mock mode, appends the handler; otherwise changes nothing |
| TransportHttp.PublishResult | transport/transport_http.py:18-28 | an ok decodable reply gives its body; a rejection gives `{error: text, status}`; a raised call or an undecodable body gives `{error: message}` |
| TransportHttp.StatusOnlyOnRejection | transport/transport_http.py:18-28 | a result carrying both `error` and `status` occurs exactly for a rejected response |
| TransportHttp.HTTPAdapter.constructor | transport/transport_http.py:9-12 | the base URL is kept unstripped |
| TransportHttp.HTTPAdapter.Publish | transport/transport_http.py:14-28 | posts to `base_url + "/emit"`; returns the decoded body, `{error, status}` on rejection, and `{error}` when the call or decoding raised; never raises |
| TransportHttp.HTTPAdapter.Subscribe | transport/transport_http.py:30-33 | one handler per subject, the last one wins |
| Transport.Factory | transport/__init__.py:7-16 | `gcp` gives Pub/Sub, `http` gives the HTTP adapter on `ABI_URL` or the default, anything else the local bus, with the mode compared in lower case |
| Transport.FactoryCaseInsensitive | transport/__init__.py:9 | mode strings differing only in letter case pick the same adapter |
| Transport.Mode | transport/__init__.py:9 | no `AE_TRANSPORT` gives `local`; the mode keeps the variable's length and holds no upper-case letter |
| Transport.FactoryDefaults | transport/__init__.py:7-16 | no mode gives the local bus, and so does every mode whose lower case is neither `gcp` nor `http`; `gcp` in any case gives Pub/Sub and `http` the HTTP adapter on `ABI_URL` or the default |
| Transport.SelectedCaps | client_v2.py:114-124 | a given transport is used as is; a factory-built one, modelled by the factory of `transport/__init__.py`, never accepts a token, and has a `base_url` exactly when its mode is `http` in any case |
| Transport.CapsOf | transport/transport_http.py:7-12 | no shipped adapter accepts a token; only the HTTP adapter has a `base_url` |
| Envelopes.LabelsOrDefault | client_v2.py:344 | a missing or empty label list becomes `["default"]`, others are kept |
| Envelopes.Sign | client_v2.py:347 | the signed envelope differs from the input only by carrying a signature |
| ClientV2.AbiUrl | client_v2.py:92 | an explicit URL is kept as given; otherwise the environment or default URL, without trailing slashes |
| ClientV2.PubB64 | client_v2.py:144-151 | byte keys are base64-encoded and text keys are copied |
| ClientV2.PrivBytes | client_v2.py:133-142 | byte keys are kept; a text key is its base64 decoding when that succeeds, otherwise its UTF-8 bytes |
| ClientV2.NormalizeKeypair | client_v2.py:129-151 | `ValueError` exactly when `pub` or `priv` is missing; otherwise `priv` becomes bytes, `pub_b64` is always rewritten, and every other entry is kept |
| ClientV2.ApplySession | client_v2.py:156-170 | the access token goes to `set_grant` in preference to `set_token`; nothing happens without a session or without either method |
| ClientV2.SaveIfNeeded | client_v2.py:172-174 | the session is saved only with auto-persist and a session; nothing else changes |
| ClientV2.RefreshOutcome | client_v2.py:268-303 | success keeps the session id and sends exactly one refresh request; failure changes nothing but the request log |
| ClientV2.EnsureAccessOutcome | client_v2.py:305-323 | success leaves a session; failure changes nothing but the request log, which only grows |
| ClientV2.DeclareOutcome | client_v2.py:393-440 | publications and subscriptions are untouched and the request log only grows |
| ClientV2.RegisterOutcome | client_v2.py:179-226 | returns true when it succeeds; its first request is the challenge |
| ClientV2.ResumeOutcome | client_v2.py:228-266 | success returns true; publications and subscriptions are untouched and the request log only grows |
| ClientV2.EmitOutcome | client_v2.py:328-357 | success appends exactly one publication, on the given subject, and leaves a session; failure changes nothing but the request log; subscriptions are untouched |
| ClientV2.ListenOutcome | client_v2.py:372-388 | success appends the given entries to the subscriptions, in order; failure changes nothing but the request log; publications are untouched |
| ClientV2.AEClient.Create | client_v2.py:79-124 | `ValueError` exactly for a keypair without `pub` or `priv`; otherwise a client with its name, crypto, the normalised keypair, the resolved URL, the defaulted capability lists, the selected transport with `base_url` set to the URL exactly when it has one, an empty registry, no session and nothing sent |
| ClientV2.AEClient.ApplySessionToTransport | client_v2.py:156-170 | performs `ApplySession` |
| ClientV2.AEClient.SaveSessionIfNeeded | client_v2.py:172-174 | performs `SaveIfNeeded` on the store |
| ClientV2.AEClient.RefreshSession | client_v2.py:268-303 | performs `RefreshOutcome` |
| ClientV2.AEClient.EnsureAccessToken | client_v2.py:305-323 | performs `EnsureAccessOutcome` |
| ClientV2.AEClient.DeclareCapabilities | client_v2.py:393-440 | performs `DeclareOutcome` |
| ClientV2.AEClient.RegisterWithAbi | client_v2.py:179-226 | performs `RegisterOutcome` |
| ClientV2.AEClient.ResumeOrRegister | client_v2.py:228-266 | performs `ResumeOutcome` |
| ClientV2.AEClient.Emit | client_v2.py:328-357 | performs `EmitOutcome`: ensure the token, then publish one signed envelope |
| ClientV2.AEClient.On | client_v2.py:362-370 | delegates to the registry and returns the handler |
| ClientV2.AEClient.Listen | client_v2.py:372-388 | after ensuring the token, subscribes every registry entry once, in order |
| ClientV2Properties.NormalizeKeypairIdempotent | client_v2.py:129-151 | normalising a normalised keypair changes nothing |
| ClientV2Properties.PubB64DecodesToPub | client_v2.py:144-151 | a byte key's `pub_b64` decodes back to the key |
| ClientV2Properties.FactoryTransportsIgnoreTokens | client_v2.py:114-124 | with a factory-built transport, modelled by the factory of `transport/__init__.py`, pushing the session changes nothing |
| ClientV2Properties.HttpModeGetsClientUrl | client_v2.py:114-124 | mode `http` in any letter case gives an HTTP adapter on the client's URL |
| ClientV2Properties.RegisterFailureIsAtomic | client_v2.py:179-226 | a failed registration leaves session, transport token, file, publications and subscriptions unchanged, having sent the challenge and at most the signed nonce |
| ClientV2Properties.RegisterRejectedAtChallenge | client_v2.py:190-192 | a rejected challenge raises `RegistrationError` with status and body, after one request |
| ClientV2Properties.RegisterRejectedAtVerify | client_v2.py:202-207 | a rejected verification raises `RegistrationError` with status and body, after two requests |
| ClientV2Properties.RegisterNotVerified | client_v2.py:209-211 | an unverified reply raises `RegistrationError` and keeps the session |
| ClientV2Properties.RegisterSucceeds | client_v2.py:213-226 | a verified registration returns true whatever the capability reply; without capabilities, the new session is the granted one, pushed and persisted |
| ClientV2Properties.RegisterDeclaresCapabilities | client_v2.py:220-225 | with a live granted token, the granted session is pushed and persisted and the capabilities are declared under it, with nothing else changed; the call returns true whatever the declaration's reply |
| ClientV2Properties.ResumeWithoutStoredSession | client_v2.py:240-243 | nothing on disk: a fresh registration whose first request is the challenge, with no refresh |
| ClientV2Properties.ResumeWithExpiredRefresh | client_v2.py:256-258 | a stored session whose refresh token is within 5 s of expiry is replaced by a registration, with no refresh request first |
| ClientV2Properties.ResumeByRefresh | client_v2.py:260-266 | a live stored session is refreshed with one request; only a failed refresh leads to registration |
| ClientV2Properties.RefreshPreconditions | client_v2.py:275-279 | no session, or an expired refresh token: `SessionError` before any request, and nothing changes |
| ClientV2Properties.RefreshKeepsSessionId | client_v2.py:285-303 | the refreshed session keeps its id, takes tokens and expiries from the reply, and is pushed and saved |
| ClientV2Properties.RefreshRejected | client_v2.py:285-287 | a rejected refresh raises `SessionError` with status and body, and keeps the session |
| ClientV2Properties.EnsureAccessCases | client_v2.py:305-323 | no session raises; a live token does nothing; an expiring one raises in manual mode and otherwise gets exactly one refresh, with at most one request |
| ClientV2Properties.EmitPublishesOnce | client_v2.py:328-348 | success publishes exactly one signed envelope with the client's name, `pub_b64` key id and default labels; failure publishes nothing and changes nothing |
| ClientV2Properties.EmitExpiredManual | client_v2.py:318-320 | an expiring token in manual mode: `SessionError`, with no refresh and no publish |
| ClientV2Properties.EmitRefreshesOnce | client_v2.py:322-348 | an expiring token with auto-refresh: exactly one refresh request, then one publication under the new session |
| ClientV2Properties.EmitLiveTokenSendsNothing | client_v2.py:315-316 | a live token makes emit send no request at all |
| ClientV2Properties.ListenSubscribesAll | client_v2.py:385-387 | success subscribes all entries in order; failure subscribes none |
| ClientV2Properties.DeclareCases | client_v2.py:406-431 | no session raises `SessionError`; the request goes to `/ae/capabilities` with the current token, and for every session missing arguments become empty lists and an empty `meta`; a rejection raises `AEClientError` |
| ClientV1.AbiUrl | client.py:87 | an explicit URL, else the environment or default URL, never stripped |
| ClientV1.WithPubB64 | client.py:113 | `pub_b64` defaults to `pub`, and every existing entry is kept |
| ClientV1.CheckedKeypair | client.py:95-96 | `ValueError` exactly for a missing keypair, or one without `pub` or `priv` |
| ClientV1.TransportBaseUrl | client.py:109-110 | only a transport with a `base_url` gets one: the URL without trailing slashes |
| ClientV1.GrantOf | client.py:148-151 | the grant counts exactly when `verified` holds and the grant is non-empty |
| ClientV1.DeclareOutcome | client.py:206-253 | without a grant, a bare exception and no request; otherwise one request under the grant; never an `AEClientError` |
| ClientV1.RegisterOutcome | client.py:118-161 | publications and subscriptions untouched; a changed grant is non-empty; `False` changes nothing but the log |
| ClientV1.AEClient.Create | client.py:77-113 | `ValueError` exactly for a bad keypair; otherwise a client with its name, crypto, the keypair with `pub_b64` defaulted, the unstripped URL, the stripped transport `base_url` exactly when the transport has one, an empty registry, no grant and nothing sent |
| ClientV1.AEClient.RegisterWithAbi | client.py:118-161 | performs `RegisterOutcome` |
| ClientV1.AEClient.DeclareCapabilities | client.py:206-253 | performs `DeclareOutcome` |
| ClientV1.AEClient.Emit | client.py:166-182 | publishes one signed envelope and changes nothing else |
| ClientV1.AEClient.On | client.py:196-201 | maps the subject to the handler, appends only a new subject to the iteration order, and returns the handler |
| ClientV1.AEClient.Listen | client.py:187-191 | subscribes every registry entry once, in order |
| ClientV1Properties.RegisterRejected | client.py:124-142 | a rejected challenge or verification raises a bare exception carrying the response text only, leaving the grant |
| ClientV1Properties.RegisterWithoutGrant | client.py:148-161 | an unverified or grant-less reply returns `False` and changes nothing else |
| ClientV1Properties.RegisterKeepsGrant | client.py:151-159 | the grant is kept and pushed; the call returns true without capabilities or when their declaration succeeds; a failed declaration fails the call, but the grant stays |
| ClientV1Properties.EmittedEnvelopeFields | client.py:168-176 | the envelope is keyed by the raw `pub`, carries default labels and is signed |
| ClientV1Properties.TrailingSlashKept | client.py:124 | for every URL ending in `/`, the challenge goes to the URL plus `/register`, so to `//register`, while the transport's `base_url` is the stripped URL, which differs from it |

## Left out

- Network I/O: each broker endpoint's reply is a parameter (`Wire.Broker`).
  - One operation sees one reply per endpoint, so a registration that refreshes during its capability declaration sees the same refresh reply as any other refresh.
  - One operation sees one outcome for every session-file write (`Env.storeIo`), so registration's save and a save by a refresh inside its capability declaration succeed or fail together.
  - Timeouts, headers other than the bearer token, and `requests` internals are not modelled.
- Time: every operation reads one `now`, where the source calls `time.time()` at each use.
- Logging, and every log message, is not modelled.
- Threads and locks: the source has none in the core and the model is sequential.
  - Handlers that publish or subscribe while being delivered to are not modelled.
- Process environment and files:
  - Setting `AE_TRANSPORT` and `ABI_URL` when a mode string is given only affects which transport is built; the process-wide side effect is not modelled.
  - The default session path, `os.makedirs` and `Path.mkdir` are not modelled.
  - Session.Loaded: an error raised by `Path.exists()` (session.py:101), which sits outside the `try`, propagates in the source; the model's file is either present or absent, so that error is not modelled.
  - The session file is an abstract `FileContent`; JSON text and encodings are not.
- Session.FromDict: accepts only the six fields with strings and integers of the right kind, whereas `cls(**raw)` accepts values of any type.
- ClientV2.ResumeOutcome: a session file with the six keys but a non-integer expiry is a session to `from_dict`, and `resume_or_register` then raises `TypeError` when the log record computes `is_access_expired()` and `is_refresh_expired()` (session.py:71-77, client_v2.py:251-252); the model's `FromDict` rejects that file, so the model registers afresh instead.
- Session.FromVerifyResponse: the lifetimes are integers; `int(...)` of a non-numeric value is not modelled.
- Strings.Lower: lower-cases ASCII letters only, where `str.lower` also folds other scripts.
- ClientV2.NormalizeKeypair: returns a new map; the source mutates the caller's dictionary in place, and that aliasing is not modelled.
- ClientV1.WithPubB64: returns a new map; the source keeps the caller's dictionary (client.py:88) and `setdefault` adds `pub_b64` to it (client.py:113), and that aliasing is not modelled.
- The `aegnix_core` helpers outside this model:
  - `ed25519_sign`, `b64d`, `b64e` and the signature `sign_envelope` computes are opaque total functions in `Envelopes.Crypto`, and so is `base64.b64decode`, including its leniency towards non-alphabet characters. The exceptions of `ed25519_sign`, `b64e` and the signature are not modelled; a failing `base64.b64decode` or `b64d` is an `Option` result: registration reports a nonce it cannot decode as `DecodeError`, and `ClientV2.PrivBytes` falls back to the key's UTF-8 bytes.
  - Envelopes.Make: `Envelope.make` is modelled as a plain record of its arguments with no signature; any field it adds or derives is not modelled.
  - Envelopes.Sign: `sign_envelope` is modelled as attaching a signature and changing no other field. The field claims of `ClientV2Properties.EmitPublishesOnce` and `ClientV1Properties.EmittedEnvelopeFields` rest on these two choices.
  - `to_dict` is not modelled: a `Publication` holds the envelope itself, not its dictionary.
- Transport.SelectedCaps: both clients call `transport_factory` from `aegnix_core.transport` (client_v2.py:12, client.py:8), which is not part of this model; it is modelled as the factory of `transport/__init__.py` (`Transport.Factory`). The claims that a factory-built transport accepts no token and has a `base_url` only in `http` mode rest on that choice, and the source's comment at client_v2.py:158-161 suggests that the other factory's transports may take a token.
- ClientV2Properties.FactoryTransportsIgnoreTokens: rests on the same choice of factory as `Transport.SelectedCaps`.
- ClientV2Properties.HttpModeGetsClientUrl: rests on the same choice of factory as `Transport.SelectedCaps`.
- Transport calls inside the clients:
  - `publish` and `subscribe` are recorded as `Publication`s and subscription pairs.
  - An exception raised by an adapter during `emit` or `listen` is not modelled.
  - The adapters themselves are modelled separately in `TransportLocal`, `TransportKafka` and `TransportHttp`.
- `verified` is a boolean; other truthy JSON values are not modelled.
- `transport/transport_gcp_pubsub.py`, `transport/transport_base.py`, `make_keypair.py`, `examples/` and the package `__init__.py` are not part of this model.
