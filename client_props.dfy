/** What the first-generation client promises, and where it differs from
    the second: errors are bare exceptions, a verified reply without a grant
    is a quiet `False`, and a failed capability declaration fails the
    registration although the grant is already kept. */
module ClientV1Properties {
  import opened Wrappers
  import opened Values
  import opened Wire
  import opened Envelopes
  import opened ClientV1

  /** The challenge was accepted and carried a nonce that decodes. */
  predicate ChallengeAnswered(c: Config, e: Env) {
    var reply := ReceiveBodyOnly(e.broker.challenge, ChallengeStage);
    reply.Success? && reply.value.nonce.Some? && c.crypto.b64d(reply.value.nonce.value).Some?
  }

  function Nonce(c: Config, e: Env): seq<byte>
    requires ChallengeAnswered(c, e)
  {
    c.crypto.b64d(ReceiveBodyOnly(e.broker.challenge, ChallengeStage).value.nonce.value).value
  }

  /** A rejected challenge or verification raises a bare exception (not an
      `AEClientError`) and leaves the grant alone. */
  lemma RegisterRejected(c: Config, st: State, e: Env)
    requires ValidKeypair(c.keypair)
    ensures e.broker.challenge.Response? && !e.broker.challenge.ok ==>
              RegisterOutcome(c, st, e) ==
                Step(Failure(PlainException(RejectedBody(ChallengeStage, e.broker.challenge.text))),
                     st.(sent := st.sent + [ChallengePost(c)]))
    ensures ChallengeAnswered(c, e) && e.broker.verify.Response? && !e.broker.verify.ok ==>
              RegisterOutcome(c, st, e) ==
                Step(Failure(PlainException(RejectedBody(VerifyStage, e.broker.verify.text))),
                     st.(sent := st.sent + [ChallengePost(c), VerifyPost(c, Nonce(c, e))]))
  {
  }

  /** A verification reply that is not verified or has no grant gives
      `False` and changes nothing but the request log. */
  lemma RegisterWithoutGrant(c: Config, st: State, e: Env)
    requires ValidKeypair(c.keypair)
    requires ChallengeAnswered(c, e)
    requires ReceiveBodyOnly(e.broker.verify, VerifyStage).Success?
    requires GrantOf(ReceiveBodyOnly(e.broker.verify, VerifyStage).value).None?
    ensures RegisterOutcome(c, st, e) ==
              Step(Success(false), st.(sent := st.sent + [ChallengePost(c), VerifyPost(c, Nonce(c, e))]))
  {
  }

  /** A granted registration keeps the grant and pushes it with
      `set_grant`; without capabilities to declare, or with a declaration
      that succeeds, it returns true, and a failed declaration fails the
      call but the grant stays. */
  lemma RegisterKeepsGrant(c: Config, st: State, e: Env)
    requires ValidKeypair(c.keypair)
    requires ChallengeAnswered(c, e)
    requires ReceiveBodyOnly(e.broker.verify, VerifyStage).Success?
    requires GrantOf(ReceiveBodyOnly(e.broker.verify, VerifyStage).value).Some?
    ensures var g := GrantOf(ReceiveBodyOnly(e.broker.verify, VerifyStage).value);
            var o := RegisterOutcome(c, st, e);
            && o.state.grant == g
            && (c.caps.setGrant ==> o.state.pushed == g)
            && (c.publishes == [] && c.subscribes == [] ==> o.result == Success(true))
            && (c.publishes != [] || c.subscribes != [] ==>
                  && o.state.sent == st.sent + [ChallengePost(c), VerifyPost(c, Nonce(c, e)),
                                                CapabilitiesPost(c, g.value, Some(c.publishes), Some(c.subscribes), None)]
                  && (Receive(e.broker.capabilities, AsPlain, CapabilitiesStage).Success? ==> o.result == Success(true))
                  && (e.broker.capabilities.Response? && !e.broker.capabilities.ok ==>
                        o.result == Failure(PlainException(Rejected(CapabilitiesStage, e.broker.capabilities.status,
                                                                    e.broker.capabilities.text)))))
  {
  }

  /** The emitted envelope is keyed by the raw public key, not by
      `pub_b64`, and carries a signature; the rest of its fields come from
      the call. */
  lemma EmittedEnvelopeFields(c: Config, subject: string, payload: Json, labels: Option<seq<string>>)
    requires ValidKeypair(c.keypair)
    ensures var env := EmittedEnvelope(c, subject, payload, labels);
            && env.keyId == c.keypair["pub"]
            && env.producer == c.name && env.subject == subject && env.payload == payload
            && env.labels == LabelsOrDefault(labels) && env.labels != []
            && env.sig.Some?
  {
  }

  /** The request URLs use the client URL as given, while the transport's
      `base_url` has its trailing slashes removed: for any URL ending in
      `/` the requests go to `<url>/register` (a doubled slash) and the
      transport's URL differs from the client's. */
  lemma TrailingSlashKept(c: Config, caps: Transport.TransportCaps)
    requires |c.abiUrl| > 0 && c.abiUrl[|c.abiUrl| - 1] == '/'
    requires caps.hasBaseUrl
    ensures ChallengePost(c).url == c.abiUrl + "/register"
    ensures ChallengePost(c).url[|c.abiUrl| - 1..|c.abiUrl| + 1] == "//"
    ensures TransportBaseUrl(caps, c.abiUrl).Some?
    ensures TransportBaseUrl(caps, c.abiUrl).value != c.abiUrl
    ensures TransportBaseUrl(caps, c.abiUrl).value == Strings.RStripSlash(c.abiUrl)
  {
    var url := ChallengePost(c).url;
    assert url[|c.abiUrl| - 1] == '/' && url[|c.abiUrl|] == '/';
  }
}
