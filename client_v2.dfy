/** `AEClient` (second generation): challenge-response registration, a
    refreshable session with optional automatic refresh and persistence,
    and emit/listen over a transport.

    The transitions are specified as functions from a `State` value to a
    `Step` (what the call returns or raises, and the state afterwards); the
    class's methods follow the source statement by statement and are proved
    to perform exactly those transitions. Everything the client talks to is
    explicit: the broker's replies and the clock arrive in an `Env`, the
    transport is seen through what the client pushes to it and the
    `publish`/`subscribe` calls it makes. */
module ClientV2 {
  import opened Wrappers
  import opened Values
  import opened Strings
  import Base64
  import opened Wire
  import opened Session
  import opened Envelopes
  import opened Transport
  import opened Decorators

  // ------------------------------------------------------------------
  // State, configuration and environment
  // ------------------------------------------------------------------

  /** The token last handed to the transport, and through which method. */
  datatype TokenPush = ViaGrant(token: string) | ViaToken(token: string)

  /** What one operation meets outside the client: the clock
      (`int(time.time())`), the broker's replies and how writing the
      session file goes. */
  datatype Env = Env(now: int, broker: Broker, storeIo: IoOutcome)

  /** The part of a client fixed at construction. */
  datatype Config = Config(
    name: string,
    abiUrl: string,
    keypair: map<string, KeyValue>,
    autoRefresh: bool,
    autoPersist: bool,
    publishes: seq<string>,
    subscribes: seq<string>,
    caps: TransportCaps,
    crypto: Crypto)

  /** The part that operations change. */
  datatype State = State(
    session: Option<SessionState>,
    pushed: Option<TokenPush>,
    file: Option<FileContent>,
    sent: seq<Post>,
    published: seq<Publication>,
    subscribed: seq<(string, HandlerId)>)

  /** What an operation returns (or raises) and the state it leaves. */
  datatype Step<T> = Step(result: Result<T, Error>, state: State)

  /** A normalised keypair: `priv` as bytes, `pub_b64` as text. */
  predicate ValidKeypair(kp: map<string, KeyValue>) {
    "pub" in kp && "priv" in kp && "pub_b64" in kp && kp["priv"].Bytes? && kp["pub_b64"].Text?
  }

  const RegisterPath: string := "/register"
  const VerifyPath: string := "/verify"
  const RefreshPath: string := "/session/refresh"
  const CapabilitiesPath: string := "/ae/capabilities"

  /** The leeway `_ensure_access_token` is called with by emit, listen and
      declare_capabilities, and the one resume uses for the refresh token. */
  const DefaultLeeway: int := 5

  // ------------------------------------------------------------------
  // Construction
  // ------------------------------------------------------------------

  /** `abi_url or os.getenv("ABI_URL", "http://localhost:8080").rstrip("/")`:
      the strip binds to the environment value only, so an explicit URL is
      kept as given. */
  function AbiUrl(abiUrl: Option<string>, envAbiUrl: Option<string>): (r: string)
    ensures abiUrl.Some? && abiUrl.value != "" ==> r == abiUrl.value
    ensures !(abiUrl.Some? && abiUrl.value != "") ==>
              r == RStripSlash(envAbiUrl.GetOr(DefaultAbiUrl)) && (r == [] || r[|r| - 1] != '/')
  {
    if abiUrl.Some? && abiUrl.value != "" then abiUrl.value
    else RStripSlash(envAbiUrl.GetOr(DefaultAbiUrl))
  }

  /** The `pub_b64` entry: bytes are base64-encoded, text is copied. */
  function PubB64(pub: KeyValue): (r: string)
    ensures pub.Text? ==> r == pub.text
    ensures pub.Bytes? ==> |r| == 4 * ((|pub.bytes| + 2) / 3)
    ensures pub.Bytes? ==> forall i :: 0 <= i < |r| ==> Base64.IsBase64Char(r[i])
  {
    match pub
    case Text(t) => t
    case Bytes(b) => Base64.Encode(b)
  }

  /** The normalised `priv`: text is base64-decoded, or taken as its UTF-8
      bytes when decoding raises; bytes are kept. */
  function PrivBytes(priv: KeyValue, crypto: Crypto): (r: seq<byte>)
    ensures priv.Bytes? ==> r == priv.bytes
    ensures priv.Text? && crypto.b64decode(priv.text).Some? ==> r == crypto.b64decode(priv.text).value
    ensures priv.Text? && crypto.b64decode(priv.text).None? ==> r == Utf8Encode(priv.text) && |r| >= |priv.text|
  {
    match priv
    case Bytes(b) => b
    case Text(t) =>
      match crypto.b64decode(t)
      case Some(b) => b
      case None => Utf8Encode(t)
  }

  /** `_validate_and_normalize_keypair`. */
  function NormalizeKeypair(kp: map<string, KeyValue>, crypto: Crypto): (r: Result<map<string, KeyValue>, Error>)
    ensures r.Failure? <==> "pub" !in kp || "priv" !in kp
    ensures r.Failure? ==> r.error == ValueError
    ensures r.Success? ==>
              && ValidKeypair(r.value)
              && r.value.Keys == kp.Keys + {"pub_b64"}
              && r.value["pub"] == kp["pub"]
              && r.value["priv"] == Bytes(PrivBytes(kp["priv"], crypto))
              && r.value["pub_b64"] == Text(PubB64(kp["pub"]))
              && (forall k :: k in kp && k != "priv" && k != "pub_b64" ==> r.value[k] == kp[k])
  {
    if "pub" !in kp || "priv" !in kp then Failure(ValueError)
    else
      var withPriv := kp["priv" := Bytes(PrivBytes(kp["priv"], crypto))];
      Success(withPriv["pub_b64" := Text(PubB64(kp["pub"]))])
  }

  // ------------------------------------------------------------------
  // Session helpers
  // ------------------------------------------------------------------

  /** `_apply_session_to_transport`: `set_grant` if the transport has it,
      else `set_token`, else nothing. */
  function ApplySession(c: Config, st: State): (r: State)
    ensures r.(pushed := st.pushed) == st
    ensures st.session.Some? && c.caps.setGrant ==> r.pushed == Some(ViaGrant(st.session.value.accessToken))
    ensures st.session.Some? && !c.caps.setGrant && c.caps.setToken ==> r.pushed == Some(ViaToken(st.session.value.accessToken))
    ensures st.session.None? || (!c.caps.setGrant && !c.caps.setToken) ==> r == st
  {
    if st.session.None? then st
    else if c.caps.setGrant then st.(pushed := Some(ViaGrant(st.session.value.accessToken)))
    else if c.caps.setToken then st.(pushed := Some(ViaToken(st.session.value.accessToken)))
    else st
  }

  /** `_save_session_if_needed`. */
  function SaveIfNeeded(c: Config, st: State, io: IoOutcome): (r: State)
    ensures r.(file := st.file) == st
    ensures c.autoPersist && st.session.Some? ==> r.file == Saved(st.file, st.session.value, io)
    ensures !c.autoPersist || st.session.None? ==> r == st
  {
    if c.autoPersist && st.session.Some? then st.(file := Saved(st.file, st.session.value, io)) else st
  }

  /** The body `refresh_session` posts for session `s`. */
  function RefreshPost(c: Config, s: SessionState): Post {
    Post(c.abiUrl + RefreshPath, RefreshRequest(s.sessionId, s.refreshToken))
  }

  // ------------------------------------------------------------------
  // Transitions
  // ------------------------------------------------------------------

  /** `refresh_session()`. */
  function RefreshOutcome(c: Config, st: State, e: Env): (o: Step<()>)
    ensures o.state.published == st.published && o.state.subscribed == st.subscribed
    ensures o.result.Failure? ==> o.state.(sent := st.sent) == st
    ensures o.state.sent == st.sent || (st.session.Some? && o.state.sent == st.sent + [RefreshPost(c, st.session.value)])
    ensures o.result.Success? ==>
              && st.session.Some?
              && o.state.session.Some?
              && o.state.session.value.sessionId == st.session.value.sessionId
              && o.state.session.value.aeId == c.name
              && o.state.sent == st.sent + [RefreshPost(c, st.session.value)]
  {
    if st.session.None? then Step(Failure(SessionError(NoSession)), st)
    else
      var s := st.session.value;
      if IsRefreshExpired(s, e.now, 0) then Step(Failure(SessionError(RefreshExpired)), st)
      else
        var st1 := st.(sent := st.sent + [RefreshPost(c, s)]);
        match Receive(e.broker.refresh, AsSession, RefreshStage)
        case Failure(err) => Step(Failure(err), st1)
        case Success(data) =>
          match FromRefreshResponse(c.name, s.sessionId, data, e.now)
          case Failure(err) => Step(Failure(err), st1)
          case Success(renewed) =>
            Step(Success(()), SaveIfNeeded(c, ApplySession(c, st1.(session := Some(renewed))), e.storeIo))
  }

  /** `_ensure_access_token(leeway)`. */
  function EnsureAccessOutcome(c: Config, st: State, e: Env, leeway: int): (o: Step<()>)
    ensures o.state.published == st.published && o.state.subscribed == st.subscribed
    ensures o.result.Success? ==> o.state.session.Some?
    ensures o.result.Failure? ==> o.state.(sent := st.sent) == st
    ensures st.sent <= o.state.sent
  {
    if st.session.None? then Step(Failure(SessionError(NoSession)), st)
    else if !IsAccessExpired(st.session.value, e.now, leeway) then Step(Success(()), st)
    else if !c.autoRefresh then Step(Failure(SessionError(AccessExpired)), st)
    else RefreshOutcome(c, st, e)
  }

  /** The body `declare_capabilities` posts, under the current token. */
  function CapabilitiesPost(c: Config, s: SessionState, publishes: Option<seq<string>>,
                            subscribes: Option<seq<string>>, meta: Option<map<string, Json>>): Post {
    Post(c.abiUrl + CapabilitiesPath,
         CapabilitiesRequest(s.accessToken, publishes.GetOr([]), subscribes.GetOr([]), meta.GetOr(map[])))
  }

  /** `declare_capabilities(publishes, subscribes, meta)`. */
  function DeclareOutcome(c: Config, st: State, e: Env, publishes: Option<seq<string>>,
                          subscribes: Option<seq<string>>, meta: Option<map<string, Json>>): (o: Step<Json>)
    ensures o.state.published == st.published && o.state.subscribed == st.subscribed
    ensures st.sent <= o.state.sent
  {
    if st.session.None? then Step(Failure(SessionError(NoSession)), st)
    else
      var ensured := EnsureAccessOutcome(c, st, e, DefaultLeeway);
      if ensured.result.Failure? then Step(Failure(ensured.result.error), ensured.state)
      else
        var st1 := ensured.state;
        var st2 := st1.(sent := st1.sent + [CapabilitiesPost(c, st1.session.value, publishes, subscribes, meta)]);
        match Receive(e.broker.capabilities, AsClient, CapabilitiesStage)
        case Failure(err) => Step(Failure(err), st2)
        case Success(body) => Step(Success(body), st2)
  }

  /** The signed nonce `register_with_abi` posts for a decoded nonce. */
  function VerifyPost(c: Config, nonce: seq<byte>): Post
    requires ValidKeypair(c.keypair)
  {
    Post(c.abiUrl + VerifyPath, VerifyRequest(c.name, Base64.Encode(c.crypto.sign(c.keypair["priv"], nonce))))
  }

  function ChallengePost(c: Config): Post {
    Post(c.abiUrl + RegisterPath, ChallengeRequest(c.name))
  }

  /** `register_with_abi()`. */
  function RegisterOutcome(c: Config, st: State, e: Env): (o: Step<bool>)
    requires ValidKeypair(c.keypair)
    ensures o.state.published == st.published && o.state.subscribed == st.subscribed
    ensures o.result.Success? ==> o.result.value
    ensures st.sent + [ChallengePost(c)] <= o.state.sent
  {
    var st1 := st.(sent := st.sent + [ChallengePost(c)]);
    match Receive(e.broker.challenge, AsRegistration, ChallengeStage)
    case Failure(err) => Step(Failure(err), st1)
    case Success(payload) =>
      if payload.nonce.None? then Step(Failure(KeyError("nonce")), st1)
      else
        match c.crypto.b64decode(payload.nonce.value)
        case None => Step(Failure(DecodeError), st1)
        case Some(nonce) =>
          var st2 := st1.(sent := st1.sent + [VerifyPost(c, nonce)]);
          match Receive(e.broker.verify, AsRegistration, VerifyStage)
          case Failure(err) => Step(Failure(err), st2)
          case Success(data) =>
            if !data.verified then Step(Failure(RegistrationError(NotVerified)), st2)
            else
              match FromVerifyResponse(c.name, data, e.now)
              case Failure(err) => Step(Failure(err), st2)
              case Success(s) =>
                var st3 := SaveIfNeeded(c, ApplySession(c, st2.(session := Some(s))), e.storeIo);
                if c.publishes != [] || c.subscribes != [] then
                  // a failed declaration is logged and swallowed
                  Step(Success(true), DeclareOutcome(c, st3, e, Some(c.publishes), Some(c.subscribes), None).state)
                else
                  Step(Success(true), st3)
  }

  /** `resume_or_register()`. */
  function ResumeOutcome(c: Config, st: State, e: Env): (o: Step<bool>)
    requires ValidKeypair(c.keypair)
    ensures o.result.Success? ==> o.result.value
    ensures o.state.published == st.published && o.state.subscribed == st.subscribed
    ensures st.sent <= o.state.sent
  {
    var loaded := Loaded(st.file);
    if loaded.None? then RegisterOutcome(c, st, e)
    else
      var st1 := st.(session := loaded);
      if IsRefreshExpired(loaded.value, e.now, DefaultLeeway) then RegisterOutcome(c, st1, e)
      else
        var refreshed := RefreshOutcome(c, st1, e);
        if refreshed.result.Success? then Step(Success(true), refreshed.state)
        else RegisterOutcome(c, refreshed.state, e)
  }

  /** The envelope `emit` builds and signs. */
  function EmittedEnvelope(c: Config, subject: string, payload: Json, labels: Option<seq<string>>): Envelope
    requires ValidKeypair(c.keypair)
  {
    Sign(c.crypto, Make(c.name, subject, payload, LabelsOrDefault(labels), c.keypair["pub_b64"]), c.keypair["priv"])
  }

  /** `emit(subject, payload, labels)`. */
  function EmitOutcome(c: Config, st: State, e: Env, subject: string, payload: Json, labels: Option<seq<string>>): (o: Step<()>)
    requires ValidKeypair(c.keypair)
    ensures o.result.Failure? ==> o.state.(sent := st.sent) == st
    ensures o.result.Success? ==>
              && |o.state.published| == |st.published| + 1
              && o.state.published[..|st.published|] == st.published
              && o.state.published[|st.published|].subject == subject
              && o.state.session.Some?
    ensures o.state.subscribed == st.subscribed
    ensures st.sent <= o.state.sent
  {
    var ensured := EnsureAccessOutcome(c, st, e, DefaultLeeway);
    if ensured.result.Failure? then Step(Failure(ensured.result.error), ensured.state)
    else
      var st1 := ensured.state;
      Step(Success(()), st1.(published := st1.published + [Publication(subject, EmittedEnvelope(c, subject, payload, labels))]))
  }

  /** `listen()` over the registry's `(subject, handler)` pairs. */
  function ListenOutcome(c: Config, st: State, e: Env, items: seq<(string, HandlerId)>): (o: Step<()>)
    ensures o.result.Success? ==> o.state.subscribed == st.subscribed + items && o.state.session.Some?
    ensures o.result.Failure? ==> o.state.(sent := st.sent) == st
    ensures o.state.published == st.published
  {
    var ensured := EnsureAccessOutcome(c, st, e, DefaultLeeway);
    if ensured.result.Failure? then Step(Failure(ensured.result.error), ensured.state)
    else
      var st1 := ensured.state;
      Step(Success(()), st1.(subscribed := st1.subscribed + items))
  }

  // ------------------------------------------------------------------
  // The client object
  // ------------------------------------------------------------------

  class AEClient {
    const name: string
    const abiUrl: string
    const keypair: map<string, KeyValue>
    const autoRefresh: bool
    const autoPersist: bool
    const publishes: seq<string>
    const subscribes: seq<string>
    const caps: TransportCaps
    /** `transport.base_url` after construction, if the transport has one */
    const transportBaseUrl: Option<string>
    const crypto: Crypto
    const registry: EventRegistry
    const store: SessionStore

    var session: Option<SessionState>
    var pushed: Option<TokenPush>
    var sent: seq<Post>
    var published: seq<Publication>
    var subscribed: seq<(string, HandlerId)>

    ghost predicate Valid()
      reads this, registry
    {
      ValidKeypair(keypair) && registry.Valid()
    }

    function Cfg(): Config {
      Config(name, abiUrl, keypair, autoRefresh, autoPersist, publishes, subscribes, caps, crypto)
    }

    function Snapshot(): State
      reads this, store
    {
      State(session, pushed, store.file, sent, published, subscribed)
    }

    constructor Init(name: string, abiUrl: string, keypair: map<string, KeyValue>, autoRefresh: bool,
                     autoPersist: bool, publishes: seq<string>, subscribes: seq<string>, caps: TransportCaps,
                     crypto: Crypto, storeFile: Option<FileContent>)
      requires ValidKeypair(keypair)
      ensures Valid() && fresh(registry) && fresh(store)
      ensures Cfg() == Config(name, abiUrl, keypair, autoRefresh, autoPersist, publishes, subscribes, caps, crypto)
      ensures transportBaseUrl == if caps.hasBaseUrl then Some(abiUrl) else None
      ensures Snapshot() == State(None, None, storeFile, [], [], [])
      ensures registry.subjects == [] && registry.handlers == map[]
    {
      this.name, this.abiUrl, this.keypair := name, abiUrl, keypair;
      this.autoRefresh, this.autoPersist := autoRefresh, autoPersist;
      this.publishes, this.subscribes := publishes, subscribes;
      this.caps, this.crypto := caps, crypto;
      this.transportBaseUrl := if caps.hasBaseUrl then Some(abiUrl) else None;
      registry := new EventRegistry();
      store := new SessionStore(storeFile);
      session, pushed := None, None;
      sent, published, subscribed := [], [], [];
    }

    /** `AEClient(name, abi_url, keypair, transport, publishes, subscribes,
        session_store_path, auto_refresh, auto_persist)`: raises
        `ValueError` unless the keypair has `pub` and `priv`. */
    static method Create(name: string, abiUrl: Option<string>, keypair: Option<map<string, KeyValue>>,
                         transport: TransportArg, publishes: Option<seq<string>>, subscribes: Option<seq<string>>,
                         storeFile: Option<FileContent>, autoRefresh: bool, autoPersist: bool,
                         crypto: Crypto, environ: Environ)
      returns (r: Result<AEClient, Error>)
      ensures r.Failure? <==> NormalizeKeypair(keypair.GetOr(map[]), crypto).Failure?
      ensures r.Failure? ==> r.error == ValueError
      ensures r.Success? ==>
                && fresh(r.value) && fresh(r.value.registry) && fresh(r.value.store)
                && r.value.Valid()
                && r.value.Cfg() == Config(name, AbiUrl(abiUrl, environ.abiUrl),
                                           NormalizeKeypair(keypair.GetOr(map[]), crypto).value,
                                           autoRefresh, autoPersist, publishes.GetOr([]), subscribes.GetOr([]),
                                           SelectedCaps(transport, AbiUrl(abiUrl, environ.abiUrl), environ), crypto)
                && r.value.transportBaseUrl == (if r.value.caps.hasBaseUrl then Some(r.value.abiUrl) else None)
                && r.value.registry.subjects == [] && r.value.registry.handlers == map[]
                && r.value.Snapshot() == State(None, None, storeFile, [], [], [])
    {
      var url := AbiUrl(abiUrl, environ.abiUrl);
      var normalized := NormalizeKeypair(keypair.GetOr(map[]), crypto);
      if normalized.Failure? {
        return Failure(ValueError);
      }
      var caps := SelectedCaps(transport, url, environ);
      var client := new AEClient.Init(name, url, normalized.value, autoRefresh, autoPersist,
                                      publishes.GetOr([]), subscribes.GetOr([]), caps, crypto, storeFile);
      r := Success(client);
    }

    /** `_apply_session_to_transport()`. */
    method ApplySessionToTransport()
      modifies this
      ensures Snapshot() == ApplySession(Cfg(), old(Snapshot()))
    {
      if session.Some? {
        if caps.setGrant {
          pushed := Some(ViaGrant(session.value.accessToken));
        } else if caps.setToken {
          pushed := Some(ViaToken(session.value.accessToken));
        }
      }
    }

    /** `_save_session_if_needed()`. */
    method SaveSessionIfNeeded(io: IoOutcome)
      modifies store
      ensures Snapshot() == SaveIfNeeded(Cfg(), old(Snapshot()), io)
    {
      if autoPersist && session.Some? {
        store.Save(session.value, io);
      }
    }

    method RefreshSession(e: Env) returns (r: Result<(), Error>)
      modifies this, store
      ensures Step(r, Snapshot()) == RefreshOutcome(Cfg(), old(Snapshot()), e)
    {
      if session.None? {
        return Failure(SessionError(NoSession));
      }
      if IsRefreshExpired(session.value, e.now, 0) {
        return Failure(SessionError(RefreshExpired));
      }
      sent := sent + [RefreshPost(Cfg(), session.value)];
      var reply := Receive(e.broker.refresh, AsSession, RefreshStage);
      if reply.Failure? {
        return Failure(reply.error);
      }
      var renewed := FromRefreshResponse(name, session.value.sessionId, reply.value, e.now);
      if renewed.Failure? {
        return Failure(renewed.error);
      }
      session := Some(renewed.value);
      ApplySessionToTransport();
      SaveSessionIfNeeded(e.storeIo);
      r := Success(());
    }

    method EnsureAccessToken(e: Env, leeway: int) returns (r: Result<(), Error>)
      modifies this, store
      ensures Step(r, Snapshot()) == EnsureAccessOutcome(Cfg(), old(Snapshot()), e, leeway)
    {
      if session.None? {
        return Failure(SessionError(NoSession));
      }
      if !IsAccessExpired(session.value, e.now, leeway) {
        return Success(());
      }
      if !autoRefresh {
        return Failure(SessionError(AccessExpired));
      }
      r := RefreshSession(e);
    }

    method DeclareCapabilities(e: Env, publishes: Option<seq<string>>, subscribes: Option<seq<string>>,
                               meta: Option<map<string, Json>>)
      returns (r: Result<Json, Error>)
      modifies this, store
      ensures Step(r, Snapshot()) == DeclareOutcome(Cfg(), old(Snapshot()), e, publishes, subscribes, meta)
    {
      if session.None? {
        return Failure(SessionError(NoSession));
      }
      var ensured := EnsureAccessToken(e, DefaultLeeway);
      if ensured.Failure? {
        return Failure(ensured.error);
      }
      sent := sent + [CapabilitiesPost(Cfg(), session.value, publishes, subscribes, meta)];
      r := Receive(e.broker.capabilities, AsClient, CapabilitiesStage);
    }

    method RegisterWithAbi(e: Env) returns (r: Result<bool, Error>)
      requires Valid()
      modifies this, store
      ensures Valid()
      ensures Step(r, Snapshot()) == RegisterOutcome(Cfg(), old(Snapshot()), e)
    {
      sent := sent + [ChallengePost(Cfg())];
      var challenge := Receive(e.broker.challenge, AsRegistration, ChallengeStage);
      if challenge.Failure? {
        return Failure(challenge.error);
      }
      if challenge.value.nonce.None? {
        return Failure(KeyError("nonce"));
      }
      var nonce := crypto.b64decode(challenge.value.nonce.value);
      if nonce.None? {
        return Failure(DecodeError);
      }
      sent := sent + [VerifyPost(Cfg(), nonce.value)];
      var verify := Receive(e.broker.verify, AsRegistration, VerifyStage);
      if verify.Failure? {
        return Failure(verify.error);
      }
      if !verify.value.verified {
        return Failure(RegistrationError(NotVerified));
      }
      var granted := FromVerifyResponse(name, verify.value, e.now);
      if granted.Failure? {
        return Failure(granted.error);
      }
      session := Some(granted.value);
      ApplySessionToTransport();
      SaveSessionIfNeeded(e.storeIo);
      if publishes != [] || subscribes != [] {
        var _ := DeclareCapabilities(e, Some(publishes), Some(subscribes), None);
      }
      r := Success(true);
    }

    method ResumeOrRegister(e: Env) returns (r: Result<bool, Error>)
      requires Valid()
      modifies this, store
      ensures Valid()
      ensures Step(r, Snapshot()) == ResumeOutcome(Cfg(), old(Snapshot()), e)
    {
      var loaded := store.Load();
      if loaded.None? {
        r := RegisterWithAbi(e);
        return;
      }
      session := loaded;
      if IsRefreshExpired(loaded.value, e.now, DefaultLeeway) {
        r := RegisterWithAbi(e);
        return;
      }
      var refreshed := RefreshSession(e);
      if refreshed.Success? {
        return Success(true);
      }
      r := RegisterWithAbi(e);
    }

    method Emit(e: Env, subject: string, payload: Json, labels: Option<seq<string>>) returns (r: Result<(), Error>)
      requires Valid()
      modifies this, store
      ensures Valid()
      ensures Step(r, Snapshot()) == EmitOutcome(Cfg(), old(Snapshot()), e, subject, payload, labels)
    {
      var ensured := EnsureAccessToken(e, DefaultLeeway);
      if ensured.Failure? {
        return Failure(ensured.error);
      }
      var env := Make(name, subject, payload, LabelsOrDefault(labels), keypair["pub_b64"]);
      env := Sign(crypto, env, keypair["priv"]);
      published := published + [Publication(subject, env)];
      r := Success(());
    }

    /** `on(subject)(fn)`, delegated to the registry. */
    method On(subject: string, fn: HandlerId) returns (r: HandlerId)
      requires Valid()
      modifies registry
      ensures Valid()
      ensures r == fn
      ensures registry.handlers == old(registry.handlers)[subject := fn]
      ensures registry.subjects == if subject in old(registry.handlers) then old(registry.subjects)
                                   else old(registry.subjects) + [subject]
    {
      r := registry.On(subject, fn);
    }

    /** `listen()`: one `subscribe` per registry entry, in the registry's
        order. */
    method Listen(e: Env) returns (r: Result<(), Error>)
      requires Valid()
      modifies this, store
      ensures Valid()
      ensures Step(r, Snapshot()) == ListenOutcome(Cfg(), old(Snapshot()), e, Items(registry.subjects, registry.handlers))
    {
      var ensured := EnsureAccessToken(e, DefaultLeeway);
      if ensured.Failure? {
        return Failure(ensured.error);
      }
      var subjects := registry.subjects;
      var handlers := registry.handlers;
      var calls: seq<(string, HandlerId)> := [];
      var i := 0;
      while i < |subjects|
        invariant 0 <= i <= |subjects|
        invariant |calls| == i
        invariant forall k :: 0 <= k < i ==> calls[k] == (subjects[k], handlers[subjects[k]])
      {
        calls := calls + [(subjects[i], handlers[subjects[i]])];
        i := i + 1;
      }
      assert calls == Items(subjects, handlers);
      subscribed := subscribed + calls;
      r := Success(());
    }
  }
}
