/** What the second-generation client promises across its operations:
    registration is all-or-nothing, resume picks the cheapest way back to a
    live session, lazy refresh happens at most once per call, and emit and
    listen act on the transport only with a live token. */
module ClientV2Properties {
  import opened Wrappers
  import opened Values
  import Base64
  import opened Wire
  import opened Session
  import opened Envelopes
  import opened Transport
  import opened ClientV2

  // ------------------------------------------------------------------
  // Construction
  // ------------------------------------------------------------------

  /** Normalising an already normalised keypair changes nothing. */
  lemma NormalizeKeypairIdempotent(kp: map<string, KeyValue>, crypto: Crypto)
    requires NormalizeKeypair(kp, crypto).Success?
    ensures NormalizeKeypair(NormalizeKeypair(kp, crypto).value, crypto) == NormalizeKeypair(kp, crypto)
  {
    var once := NormalizeKeypair(kp, crypto).value;
    assert PrivBytes(once["priv"], crypto) == PrivBytes(kp["priv"], crypto);
    assert PubB64(once["pub"]) == PubB64(kp["pub"]);
    var twice := NormalizeKeypair(once, crypto).value;
    assert twice.Keys == once.Keys;
    forall k | k in once ensures twice[k] == once[k] {
    }
    assert twice == once;
  }

  /** A byte public key's `pub_b64` is its base64 text: it decodes back
      to the key. */
  lemma PubB64DecodesToPub(pub: KeyValue)
    requires pub.Bytes?
    ensures Base64.Decode(PubB64(pub)) == Some(pub.bytes)
  {
    Base64.RoundTrip(pub.bytes);
  }

  /** The transports the factory builds expose neither `set_grant` nor
      `set_token`: with them the client never hands its token over. */
  lemma FactoryTransportsIgnoreTokens(arg: TransportArg, abiUrl: string, environ: Environ, c: Config, st: State)
    requires !arg.Given?
    requires c.caps == SelectedCaps(arg, abiUrl, environ)
    ensures ApplySession(c, st) == st
  {
  }

  /** A mode of `"http"` in any letter case yields an adapter whose
      `base_url` is the client's own URL. */
  lemma HttpModeGetsClientUrl(mode: string, abiUrl: string, environ: Environ)
    requires Strings.Lower(mode) == "http"
    ensures SelectedCaps(Named(mode), abiUrl, environ).hasBaseUrl
    ensures Factory(Some(mode), Some(abiUrl)) == Http(abiUrl)
  {
  }

  // ------------------------------------------------------------------
  // Registration
  // ------------------------------------------------------------------

  /** The challenge was accepted and carried a nonce that decodes. */
  predicate ChallengeAnswered(c: Config, e: Env) {
    var reply := Receive(e.broker.challenge, AsRegistration, ChallengeStage);
    reply.Success? && reply.value.nonce.Some? && c.crypto.b64decode(reply.value.nonce.value).Some?
  }

  function Nonce(c: Config, e: Env): seq<byte>
    requires ChallengeAnswered(c, e)
  {
    c.crypto.b64decode(Receive(e.broker.challenge, AsRegistration, ChallengeStage).value.nonce.value).value
  }

  /** A failed registration leaves session, transport credential, session
      file, publications and subscriptions as they were; it has posted the
      challenge and possibly the signed nonce, nothing else. */
  lemma RegisterFailureIsAtomic(c: Config, st: State, e: Env)
    requires ValidKeypair(c.keypair)
    ensures var o := RegisterOutcome(c, st, e);
            o.result.Failure? ==>
              && o.state.(sent := st.sent) == st
              && (|| o.state.sent == st.sent + [ChallengePost(c)]
                  || (ChallengeAnswered(c, e) && o.state.sent == st.sent + [ChallengePost(c), VerifyPost(c, Nonce(c, e))]))
  {
  }

  lemma RegisterRejectedAtChallenge(c: Config, st: State, e: Env)
    requires ValidKeypair(c.keypair)
    requires e.broker.challenge.Response? && !e.broker.challenge.ok
    ensures RegisterOutcome(c, st, e) ==
              Step(Failure(RegistrationError(Rejected(ChallengeStage, e.broker.challenge.status, e.broker.challenge.text))),
                   st.(sent := st.sent + [ChallengePost(c)]))
  {
  }

  lemma RegisterRejectedAtVerify(c: Config, st: State, e: Env)
    requires ValidKeypair(c.keypair)
    requires ChallengeAnswered(c, e)
    requires e.broker.verify.Response? && !e.broker.verify.ok
    ensures RegisterOutcome(c, st, e) ==
              Step(Failure(RegistrationError(Rejected(VerifyStage, e.broker.verify.status, e.broker.verify.text))),
                   st.(sent := st.sent + [ChallengePost(c), VerifyPost(c, Nonce(c, e))]))
  {
  }

  lemma RegisterNotVerified(c: Config, st: State, e: Env)
    requires ValidKeypair(c.keypair)
    requires ChallengeAnswered(c, e)
    requires Receive(e.broker.verify, AsRegistration, VerifyStage).Success?
    requires !Receive(e.broker.verify, AsRegistration, VerifyStage).value.verified
    ensures RegisterOutcome(c, st, e).result == Failure(RegistrationError(NotVerified))
    ensures RegisterOutcome(c, st, e).state.session == st.session
  {
  }

  /** The verified session a successful verification reply grants. */
  predicate Granted(c: Config, e: Env) {
    var reply := Receive(e.broker.verify, AsRegistration, VerifyStage);
    reply.Success? && reply.value.verified && FromVerifyResponse(c.name, reply.value, e.now).Success?
  }

  function GrantedSession(c: Config, e: Env): SessionState
    requires Granted(c, e)
  {
    FromVerifyResponse(c.name, Receive(e.broker.verify, AsRegistration, VerifyStage).value, e.now).value
  }

  /** A verified registration returns true whatever the capability
      declaration does; without capabilities to declare it leaves exactly
      the granted session, pushed to the transport and persisted. */
  lemma RegisterSucceeds(c: Config, st: State, e: Env)
    requires ValidKeypair(c.keypair)
    requires ChallengeAnswered(c, e) && Granted(c, e)
    ensures RegisterOutcome(c, st, e).result == Success(true)
    ensures c.publishes == [] && c.subscribes == [] ==>
              RegisterOutcome(c, st, e).state ==
                SaveIfNeeded(c, ApplySession(c, st.(session := Some(GrantedSession(c, e)),
                                                    sent := st.sent + [ChallengePost(c), VerifyPost(c, Nonce(c, e))])), e.storeIo)
  {
  }

  /** With capabilities configured and a token that outlives the leeway,
      registration pushes and persists the granted session, then declares
      the capabilities under the new token; whatever the declaration's
      reply, the call returns true and nothing else changes. */
  lemma RegisterDeclaresCapabilities(c: Config, st: State, e: Env)
    requires ValidKeypair(c.keypair)
    requires ChallengeAnswered(c, e) && Granted(c, e)
    requires c.publishes != [] || c.subscribes != []
    requires !IsAccessExpired(GrantedSession(c, e), e.now, DefaultLeeway)
    ensures var o := RegisterOutcome(c, st, e);
            && o.result == Success(true)
            && o.state.session == Some(GrantedSession(c, e))
            && o.state.sent == st.sent + [ChallengePost(c), VerifyPost(c, Nonce(c, e)),
                                          CapabilitiesPost(c, GrantedSession(c, e), Some(c.publishes), Some(c.subscribes), None)]
    ensures var base := SaveIfNeeded(c, ApplySession(c, st.(session := Some(GrantedSession(c, e)),
                                                           sent := st.sent + [ChallengePost(c), VerifyPost(c, Nonce(c, e))])), e.storeIo);
            RegisterOutcome(c, st, e).state ==
              base.(sent := base.sent + [CapabilitiesPost(c, GrantedSession(c, e), Some(c.publishes), Some(c.subscribes), None)])
  {
  }

  // ------------------------------------------------------------------
  // Resume
  // ------------------------------------------------------------------

  /** Nothing usable on disk: a fresh registration, whose first request
      is the challenge (no refresh is attempted). */
  lemma ResumeWithoutStoredSession(c: Config, st: State, e: Env)
    requires ValidKeypair(c.keypair)
    requires Loaded(st.file).None?
    ensures ResumeOutcome(c, st, e) == RegisterOutcome(c, st, e)
    ensures ResumeOutcome(c, st, e).state.sent[|st.sent|] == ChallengePost(c)
  {
  }

  /** A stored session whose refresh token is within 5 seconds of expiry
      is adopted and then replaced by a fresh registration, again without a
      refresh request. */
  lemma ResumeWithExpiredRefresh(c: Config, st: State, e: Env)
    requires ValidKeypair(c.keypair)
    requires Loaded(st.file).Some? && IsRefreshExpired(Loaded(st.file).value, e.now, DefaultLeeway)
    ensures ResumeOutcome(c, st, e) == RegisterOutcome(c, st.(session := Loaded(st.file)), e)
    ensures ResumeOutcome(c, st, e).state.sent[|st.sent|] == ChallengePost(c)
  {
  }

  /** A live stored session is refreshed with one request; only if that
      refresh fails does the client register from scratch. */
  lemma ResumeByRefresh(c: Config, st: State, e: Env)
    requires ValidKeypair(c.keypair)
    requires Loaded(st.file).Some? && !IsRefreshExpired(Loaded(st.file).value, e.now, DefaultLeeway)
    ensures var refreshed := RefreshOutcome(c, st.(session := Loaded(st.file)), e);
            && (refreshed.result.Success? ==>
                  && ResumeOutcome(c, st, e) == Step(Success(true), refreshed.state)
                  && refreshed.state.sent == st.sent + [RefreshPost(c, Loaded(st.file).value)]
                  && refreshed.state.session.value.sessionId == Loaded(st.file).value.sessionId)
            && (refreshed.result.Failure? ==> ResumeOutcome(c, st, e) == RegisterOutcome(c, refreshed.state, e))
  {
  }

  // ------------------------------------------------------------------
  // Refresh
  // ------------------------------------------------------------------

  /** Without a session, or with an expired refresh token, refresh raises
      `SessionError` before any request and changes nothing, the transport
      credential included. */
  lemma RefreshPreconditions(c: Config, st: State, e: Env)
    ensures st.session.None? ==> RefreshOutcome(c, st, e) == Step(Failure(SessionError(NoSession)), st)
    ensures st.session.Some? && IsRefreshExpired(st.session.value, e.now, 0) ==>
              RefreshOutcome(c, st, e) == Step(Failure(SessionError(RefreshExpired)), st)
  {
  }

  /** A successful refresh keeps the session id, takes the new tokens and
      expiries from the reply and pushes the new access token. */
  lemma RefreshKeepsSessionId(c: Config, st: State, e: Env)
    requires st.session.Some? && !IsRefreshExpired(st.session.value, e.now, 0)
    requires Receive(e.broker.refresh, AsSession, RefreshStage).Success?
    requires FromRefreshResponse(c.name, st.session.value.sessionId,
                                 Receive(e.broker.refresh, AsSession, RefreshStage).value, e.now).Success?
    ensures var o := RefreshOutcome(c, st, e);
            var body := Receive(e.broker.refresh, AsSession, RefreshStage).value;
            && o.result.Success?
            && o.state.session == Some(SessionState(c.name, st.session.value.sessionId, body.accessToken.value,
                                                    e.now + body.expiresIn.GetOr(0), body.refreshToken.value,
                                                    e.now + body.refreshExpiresIn.GetOr(0)))
            && (c.caps.setGrant ==> o.state.pushed == Some(ViaGrant(body.accessToken.value)))
            && (c.autoPersist ==> o.state.file == Saved(st.file, o.state.session.value, e.storeIo))
  {
  }

  lemma RefreshRejected(c: Config, st: State, e: Env)
    requires st.session.Some? && !IsRefreshExpired(st.session.value, e.now, 0)
    requires e.broker.refresh.Response? && !e.broker.refresh.ok
    ensures RefreshOutcome(c, st, e) ==
              Step(Failure(SessionError(Rejected(RefreshStage, e.broker.refresh.status, e.broker.refresh.text))),
                   st.(sent := st.sent + [RefreshPost(c, st.session.value)]))
  {
  }

  // ------------------------------------------------------------------
  // Lazy refresh
  // ------------------------------------------------------------------

  /** The four outcomes of `_ensure_access_token`: no session raises, a
      live token does nothing, an expiring one raises in manual mode and
      is refreshed exactly once otherwise. */
  lemma EnsureAccessCases(c: Config, st: State, e: Env, leeway: int)
    ensures st.session.None? ==> EnsureAccessOutcome(c, st, e, leeway) == Step(Failure(SessionError(NoSession)), st)
    ensures st.session.Some? && !IsAccessExpired(st.session.value, e.now, leeway) ==>
              EnsureAccessOutcome(c, st, e, leeway) == Step(Success(()), st)
    ensures st.session.Some? && IsAccessExpired(st.session.value, e.now, leeway) && !c.autoRefresh ==>
              EnsureAccessOutcome(c, st, e, leeway) == Step(Failure(SessionError(AccessExpired)), st)
    ensures st.session.Some? && IsAccessExpired(st.session.value, e.now, leeway) && c.autoRefresh ==>
              && EnsureAccessOutcome(c, st, e, leeway) == RefreshOutcome(c, st, e)
              && |EnsureAccessOutcome(c, st, e, leeway).state.sent| <= |st.sent| + 1
  {
  }

  // ------------------------------------------------------------------
  // Emit and listen
  // ------------------------------------------------------------------

  /** A successful emit publishes exactly one envelope, signed, produced
      under the client's name with its base64 key id and default labels
      when none are given; a failed one publishes nothing. */
  lemma EmitPublishesOnce(c: Config, st: State, e: Env, subject: string, payload: Json, labels: Option<seq<string>>)
    requires ValidKeypair(c.keypair)
    ensures var o := EmitOutcome(c, st, e, subject, payload, labels);
            && (o.result.Success? ==>
                  exists env: Envelope ::
                    && o.state.published == st.published + [Publication(subject, env)]
                    && env.producer == c.name && env.subject == subject && env.payload == payload
                    && env.keyId == c.keypair["pub_b64"] && env.labels == LabelsOrDefault(labels)
                    && env.sig.Some?)
            && (o.result.Failure? ==> o.state.published == st.published && o.state.(sent := st.sent) == st)
  {
    var o := EmitOutcome(c, st, e, subject, payload, labels);
    if o.result.Success? {
      var env := EmittedEnvelope(c, subject, payload, labels);
      assert o.state.published == st.published + [Publication(subject, env)];
    }
  }

  /** With an expiring token in manual mode emit raises `SessionError`
      and neither refreshes nor publishes. */
  lemma EmitExpiredManual(c: Config, st: State, e: Env, subject: string, payload: Json, labels: Option<seq<string>>)
    requires ValidKeypair(c.keypair)
    requires st.session.Some? && IsAccessExpired(st.session.value, e.now, DefaultLeeway) && !c.autoRefresh
    ensures EmitOutcome(c, st, e, subject, payload, labels) == Step(Failure(SessionError(AccessExpired)), st)
  {
  }

  /** With an expiring token and auto-refresh, a successful emit has sent
      exactly one refresh request, then published once under the new
      session. */
  lemma EmitRefreshesOnce(c: Config, st: State, e: Env, subject: string, payload: Json, labels: Option<seq<string>>)
    requires ValidKeypair(c.keypair)
    requires st.session.Some? && IsAccessExpired(st.session.value, e.now, DefaultLeeway) && c.autoRefresh
    ensures var o := EmitOutcome(c, st, e, subject, payload, labels);
            o.result.Success? ==>
              && o.state.sent == st.sent + [RefreshPost(c, st.session.value)]
              && |o.state.published| == |st.published| + 1
              && o.state.session == RefreshOutcome(c, st, e).state.session
  {
  }

  /** With a live token emit sends no request at all. */
  lemma EmitLiveTokenSendsNothing(c: Config, st: State, e: Env, subject: string, payload: Json, labels: Option<seq<string>>)
    requires ValidKeypair(c.keypair)
    requires st.session.Some? && !IsAccessExpired(st.session.value, e.now, DefaultLeeway)
    ensures var o := EmitOutcome(c, st, e, subject, payload, labels);
            o.result.Success? && o.state.sent == st.sent && o.state.session == st.session
  {
  }

  /** Listen subscribes every registry entry once, in order, or nothing. */
  lemma ListenSubscribesAll(c: Config, st: State, e: Env, items: seq<(string, Decorators.HandlerId)>)
    ensures var o := ListenOutcome(c, st, e, items);
            && (o.result.Success? ==> o.state.subscribed == st.subscribed + items)
            && (o.result.Failure? ==> o.state.subscribed == st.subscribed)
            && o.state.published == st.published
  {
  }

  // ------------------------------------------------------------------
  // Capabilities
  // ------------------------------------------------------------------

  /** Declaring needs a session; a rejection raises the client's base
      error; missing arguments are sent as empty lists and an empty map. */
  lemma DeclareCases(c: Config, st: State, e: Env, publishes: Option<seq<string>>,
                     subscribes: Option<seq<string>>, meta: Option<map<string, Json>>, s: SessionState)
    ensures st.session.None? ==> DeclareOutcome(c, st, e, publishes, subscribes, meta) == Step(Failure(SessionError(NoSession)), st)
    ensures st.session.Some? && !IsAccessExpired(st.session.value, e.now, DefaultLeeway) ==>
              var o := DeclareOutcome(c, st, e, publishes, subscribes, meta);
              && o.state.sent == st.sent + [CapabilitiesPost(c, st.session.value, publishes, subscribes, meta)]
              && (e.broker.capabilities.Response? && !e.broker.capabilities.ok ==>
                    && o.result == Failure(ClientError(Rejected(CapabilitiesStage, e.broker.capabilities.status, e.broker.capabilities.text)))
                    && IsClientError(o.result.error))
    ensures CapabilitiesPost(c, s, None, None, None).request == CapabilitiesRequest(s.accessToken, [], [], map[])
    ensures CapabilitiesPost(c, s, publishes, subscribes, meta).url == c.abiUrl + "/ae/capabilities"
  {
  }
}
