/** `AEClient` (first generation): challenge-response registration that
    captures a single grant string, capability declaration under that grant,
    and emit/listen with no session checks.

    As for the second generation, each operation is specified by a function
    from a `State` value to a `Step` and the class's methods are proved to
    perform exactly that transition. */
module ClientV1 {
  import opened Wrappers
  import opened Values
  import opened Strings
  import opened Wire
  import opened Envelopes
  import opened Transport
  import opened Decorators

  datatype Env = Env(broker: Broker)

  datatype Config = Config(
    name: string,
    abiUrl: string,
    keypair: map<string, KeyValue>,
    publishes: seq<string>,
    subscribes: seq<string>,
    caps: TransportCaps,
    crypto: Crypto)

  /** `grant` is `session_grant`; `pushed` the last `set_grant` argument. */
  datatype State = State(
    grant: Option<string>,
    pushed: Option<string>,
    sent: seq<Post>,
    published: seq<Publication>,
    subscribed: seq<(string, HandlerId)>)

  datatype Step<T> = Step(result: Result<T, Error>, state: State)

  predicate ValidKeypair(kp: map<string, KeyValue>) {
    "pub" in kp && "priv" in kp && "pub_b64" in kp
  }

  // ------------------------------------------------------------------
  // Construction
  // ------------------------------------------------------------------

  /** `abi_url or os.getenv("ABI_URL", "http://localhost:8080")`, not
      stripped. */
  function AbiUrl(abiUrl: Option<string>, envAbiUrl: Option<string>): (r: string)
    ensures abiUrl.Some? && abiUrl.value != "" ==> r == abiUrl.value
    ensures !(abiUrl.Some? && abiUrl.value != "") ==> r == envAbiUrl.GetOr(DefaultAbiUrl)
  {
    if abiUrl.Some? && abiUrl.value != "" then abiUrl.value else envAbiUrl.GetOr(DefaultAbiUrl)
  }

  /** `keypair.setdefault("pub_b64", keypair.get("pub"))`. */
  function WithPubB64(kp: map<string, KeyValue>): (r: map<string, KeyValue>)
    requires "pub" in kp
    ensures r.Keys == kp.Keys + {"pub_b64"}
    ensures forall k :: k in kp ==> r[k] == kp[k]
    ensures "pub_b64" !in kp ==> r["pub_b64"] == kp["pub"]
  {
    if "pub_b64" in kp then kp else kp["pub_b64" := kp["pub"]]
  }

  /** The keypair check: `None`, empty, or lacking `pub` or `priv` is a
      `ValueError`. */
  function CheckedKeypair(keypair: Option<map<string, KeyValue>>): (r: Result<map<string, KeyValue>, Error>)
    ensures r.Failure? <==> keypair.None? || "pub" !in keypair.value || "priv" !in keypair.value
    ensures r.Failure? ==> r.error == ValueError
    ensures r.Success? ==> ValidKeypair(r.value) && r.value == WithPubB64(keypair.value)
  {
    if keypair.None? || keypair.value == map[] || "pub" !in keypair.value || "priv" !in keypair.value then
      Failure(ValueError)
    else
      Success(WithPubB64(keypair.value))
  }

  /** The transport's `base_url`, when it has one: the client URL with
      trailing slashes removed. */
  function TransportBaseUrl(caps: TransportCaps, abiUrl: string): (r: Option<string>)
    ensures r.Some? <==> caps.hasBaseUrl
    ensures r.Some? ==> r.value == RStripSlash(abiUrl) && (r.value == [] || r.value[|r.value| - 1] != '/')
  {
    if caps.hasBaseUrl then Some(RStripSlash(abiUrl)) else None
  }

  // ------------------------------------------------------------------
  // Transitions
  // ------------------------------------------------------------------

  /** `if not self.session_grant`. */
  predicate HasGrant(st: State) {
    st.grant.Some? && st.grant.value != ""
  }

  function CapabilitiesPost(c: Config, grant: string, publishes: Option<seq<string>>,
                            subscribes: Option<seq<string>>, meta: Option<map<string, Json>>): Post {
    Post(c.abiUrl + "/ae/capabilities",
         CapabilitiesRequest(grant, publishes.GetOr([]), subscribes.GetOr([]), meta.GetOr(map[])))
  }

  /** `declare_capabilities(publishes, subscribes, meta)`. */
  function DeclareOutcome(c: Config, st: State, e: Env, publishes: Option<seq<string>>,
                          subscribes: Option<seq<string>>, meta: Option<map<string, Json>>): (o: Step<Json>)
    ensures o.state.(sent := st.sent) == st
    ensures !HasGrant(st) <==> o == Step(Failure(PlainException(NotRegistered)), st)
    ensures HasGrant(st) ==> o.state.sent == st.sent + [CapabilitiesPost(c, st.grant.value, publishes, subscribes, meta)]
    ensures o.result.Failure? ==> !IsClientError(o.result.error)
  {
    if !HasGrant(st) then Step(Failure(PlainException(NotRegistered)), st)
    else
      var st1 := st.(sent := st.sent + [CapabilitiesPost(c, st.grant.value, publishes, subscribes, meta)]);
      Step(Receive(e.broker.capabilities, AsPlain, CapabilitiesStage), st1)
  }

  function ChallengePost(c: Config): Post {
    Post(c.abiUrl + "/register", ChallengeRequest(c.name))
  }

  function VerifyPost(c: Config, nonce: seq<byte>): Post
    requires ValidKeypair(c.keypair)
  {
    Post(c.abiUrl + "/verify", VerifyRequest(c.name, c.crypto.b64e(c.crypto.sign(c.keypair["priv"], nonce))))
  }

  /** `verified and grant`: the grant a verification reply carries, if it
      counts. */
  function GrantOf(data: VerifyBody): (r: Option<string>)
    ensures r.Some? <==> data.verified && data.grant.Some? && data.grant.value != ""
    ensures r.Some? ==> r == data.grant
  {
    if data.verified && data.grant.Some? && data.grant.value != "" then data.grant else None
  }

  /** `register_with_abi()`. */
  function RegisterOutcome(c: Config, st: State, e: Env): (o: Step<bool>)
    requires ValidKeypair(c.keypair)
    ensures o.state.published == st.published && o.state.subscribed == st.subscribed
    ensures o.state.grant != st.grant ==> o.state.grant.Some? && o.state.grant.value != ""
    ensures o.result == Success(false) ==> o.state.(sent := st.sent) == st
  {
    var st1 := st.(sent := st.sent + [ChallengePost(c)]);
    match ReceiveBodyOnly(e.broker.challenge, ChallengeStage)
    case Failure(err) => Step(Failure(err), st1)
    case Success(payload) =>
      if payload.nonce.None? then Step(Failure(KeyError("nonce")), st1)
      else
        match c.crypto.b64d(payload.nonce.value)
        case None => Step(Failure(DecodeError), st1)
        case Some(nonce) =>
          var st2 := st1.(sent := st1.sent + [VerifyPost(c, nonce)]);
          match ReceiveBodyOnly(e.broker.verify, VerifyStage)
          case Failure(err) => Step(Failure(err), st2)
          case Success(data) =>
            match GrantOf(data)
            case None => Step(Success(false), st2)
            case Some(grant) =>
              var st3 := st2.(grant := Some(grant), pushed := if c.caps.setGrant then Some(grant) else st2.pushed);
              if c.publishes != [] || c.subscribes != [] then
                var declared := DeclareOutcome(c, st3, e, Some(c.publishes), Some(c.subscribes), None);
                match declared.result
                case Failure(err) => Step(Failure(err), declared.state)
                case Success(_) => Step(Success(true), declared.state)
              else
                Step(Success(true), st3)
  }

  /** The envelope `emit` builds and signs: keyed by the raw `pub`. */
  function EmittedEnvelope(c: Config, subject: string, payload: Json, labels: Option<seq<string>>): Envelope
    requires ValidKeypair(c.keypair)
  {
    Sign(c.crypto, Make(c.name, subject, payload, LabelsOrDefault(labels), c.keypair["pub"]), c.keypair["priv"])
  }

  // ------------------------------------------------------------------
  // The client object
  // ------------------------------------------------------------------

  class AEClient {
    const name: string
    const abiUrl: string
    const keypair: map<string, KeyValue>
    const publishes: seq<string>
    const subscribes: seq<string>
    const caps: TransportCaps
    const transportBaseUrl: Option<string>
    const crypto: Crypto
    const registry: EventRegistry

    var grant: Option<string>
    var pushed: Option<string>
    var sent: seq<Post>
    var published: seq<Publication>
    var subscribed: seq<(string, HandlerId)>

    ghost predicate Valid()
      reads this, registry
    {
      ValidKeypair(keypair) && registry.Valid()
    }

    function Cfg(): Config {
      Config(name, abiUrl, keypair, publishes, subscribes, caps, crypto)
    }

    function Snapshot(): State
      reads this
    {
      State(grant, pushed, sent, published, subscribed)
    }

    constructor Init(name: string, abiUrl: string, keypair: map<string, KeyValue>, publishes: seq<string>,
                     subscribes: seq<string>, caps: TransportCaps, crypto: Crypto)
      requires ValidKeypair(keypair)
      ensures Valid() && fresh(registry)
      ensures Cfg() == Config(name, abiUrl, keypair, publishes, subscribes, caps, crypto)
      ensures transportBaseUrl == TransportBaseUrl(caps, abiUrl)
      ensures Snapshot() == State(None, None, [], [], [])
      ensures registry.subjects == [] && registry.handlers == map[]
    {
      this.name, this.abiUrl, this.keypair := name, abiUrl, keypair;
      this.publishes, this.subscribes := publishes, subscribes;
      this.caps, this.crypto := caps, crypto;
      this.transportBaseUrl := TransportBaseUrl(caps, abiUrl);
      registry := new EventRegistry();
      grant, pushed := None, None;
      sent, published, subscribed := [], [], [];
    }

    /** `AEClient(name, abi_url, keypair, transport, publishes,
        subscribes)`. */
    static method Create(name: string, abiUrl: Option<string>, keypair: Option<map<string, KeyValue>>,
                         transport: TransportArg, publishes: Option<seq<string>>,
                         subscribes: Option<seq<string>>, crypto: Crypto, environ: Environ)
      returns (r: Result<AEClient, Error>)
      ensures r.Failure? <==> CheckedKeypair(keypair).Failure?
      ensures r.Failure? ==> r.error == ValueError
      ensures r.Success? ==>
                && fresh(r.value) && fresh(r.value.registry)
                && r.value.Valid()
                && r.value.Cfg() == Config(name, AbiUrl(abiUrl, environ.abiUrl), CheckedKeypair(keypair).value,
                                           publishes.GetOr([]), subscribes.GetOr([]),
                                           SelectedCaps(transport, AbiUrl(abiUrl, environ.abiUrl), environ), crypto)
                && r.value.transportBaseUrl == TransportBaseUrl(r.value.caps, r.value.abiUrl)
                && r.value.registry.subjects == [] && r.value.registry.handlers == map[]
                && r.value.Snapshot() == State(None, None, [], [], [])
    {
      var url := AbiUrl(abiUrl, environ.abiUrl);
      var checked := CheckedKeypair(keypair);
      if checked.Failure? {
        return Failure(ValueError);
      }
      var caps := SelectedCaps(transport, url, environ);
      var client := new AEClient.Init(name, url, checked.value, publishes.GetOr([]), subscribes.GetOr([]), caps, crypto);
      r := Success(client);
    }

    method RegisterWithAbi(e: Env) returns (r: Result<bool, Error>)
      requires Valid()
      modifies this
      ensures Valid()
      ensures Step(r, Snapshot()) == RegisterOutcome(Cfg(), old(Snapshot()), e)
    {
      sent := sent + [ChallengePost(Cfg())];
      var challenge := ReceiveBodyOnly(e.broker.challenge, ChallengeStage);
      if challenge.Failure? {
        return Failure(challenge.error);
      }
      if challenge.value.nonce.None? {
        return Failure(KeyError("nonce"));
      }
      var nonce := crypto.b64d(challenge.value.nonce.value);
      if nonce.None? {
        return Failure(DecodeError);
      }
      sent := sent + [VerifyPost(Cfg(), nonce.value)];
      var verify := ReceiveBodyOnly(e.broker.verify, VerifyStage);
      if verify.Failure? {
        return Failure(verify.error);
      }
      var data := verify.value;
      if data.verified && data.grant.Some? && data.grant.value != "" {
        grant := data.grant;
        if caps.setGrant {
          pushed := data.grant;
        }
        if publishes != [] || subscribes != [] {
          var declared := DeclareCapabilities(e, Some(publishes), Some(subscribes), None);
          if declared.Failure? {
            return Failure(declared.error);
          }
        }
        return Success(true);
      }
      r := Success(false);
    }

    method DeclareCapabilities(e: Env, publishes: Option<seq<string>>, subscribes: Option<seq<string>>,
                               meta: Option<map<string, Json>>)
      returns (r: Result<Json, Error>)
      modifies this
      ensures Step(r, Snapshot()) == DeclareOutcome(Cfg(), old(Snapshot()), e, publishes, subscribes, meta)
    {
      if grant.None? || grant.value == "" {
        return Failure(PlainException(NotRegistered));
      }
      sent := sent + [CapabilitiesPost(Cfg(), grant.value, publishes, subscribes, meta)];
      r := Receive(e.broker.capabilities, AsPlain, CapabilitiesStage);
    }

    /** `emit(subject, payload, labels)`: no session check, no request. */
    method Emit(subject: string, payload: Json, labels: Option<seq<string>>)
      requires Valid()
      modifies this
      ensures Valid()
      ensures Snapshot() == old(Snapshot()).(published := old(published) + [Publication(subject, EmittedEnvelope(Cfg(), subject, payload, labels))])
    {
      var env := Make(name, subject, payload, LabelsOrDefault(labels), keypair["pub"]);
      env := Sign(crypto, env, keypair["priv"]);
      published := published + [Publication(subject, env)];
    }

    method On(subject: string, fn: HandlerId) returns (r: HandlerId)
      requires Valid()
      modifies registry
      ensures Valid()
      ensures r == fn
      ensures registry.handlers == old(registry.handlers)[subject := fn]
      ensures registry.subjects == if subject in old(registry.handlers) then old(registry.subjects)
                                   else old(registry.subjects) + [subject]
    {
      r := registry.On(subject, fn);
    }

    /** `listen()`: one `subscribe` per registry entry, in order. */
    method Listen()
      requires Valid()
      modifies this
      ensures Valid()
      ensures Snapshot() == old(Snapshot()).(subscribed := old(subscribed) + Items(registry.subjects, registry.handlers))
    {
      var subjects := registry.subjects;
      var handlers := registry.handlers;
      var calls: seq<(string, HandlerId)> := [];
      var i := 0;
      while i < |subjects|
        invariant 0 <= i <= |subjects|
        invariant |calls| == i
        invariant forall k :: 0 <= k < i ==> calls[k] == (subjects[k], handlers[subjects[k]])
      {
        calls := calls + [(subjects[i], handlers[subjects[i]])];
        i := i + 1;
      }
      assert calls == Items(subjects, handlers);
      subscribed := subscribed + calls;
    }
  }
}
