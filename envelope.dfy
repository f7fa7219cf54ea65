/** The envelope a client emits and the signing collaborators it calls.
    `ed25519_sign`, `b64d`, `b64e`, the lenient `base64.b64decode` and the
    signature `sign_envelope` computes live outside this model; they are
    given to a client as total functions in a `Crypto` record.
    `Envelope.make` is modelled as building the plain record below, and
    `sign_envelope` as attaching a signature and changing nothing else. */
module Envelopes {
  import opened Wrappers
  import opened Values

  datatype Envelope = Envelope(
    producer: string,
    subject: string,
    payload: Json,
    labels: seq<string>,
    keyId: KeyValue,
    sig: Option<seq<byte>>)

  datatype Crypto = Crypto(
    /** `base64.b64decode(text)`; `None` when it raises */
    b64decode: string -> Option<seq<byte>>,
    /** `aegnix_core.utils.b64d` / `b64e` */
    b64d: string -> Option<seq<byte>>,
    b64e: seq<byte> -> string,
    /** `ed25519_sign(priv, data)` */
    sign: (KeyValue, seq<byte>) -> seq<byte>,
    /** the signature `sign_envelope(env, priv, key_id)` attaches */
    envelopeSignature: (Envelope, KeyValue) -> seq<byte>)

  const DefaultLabels: seq<string> := ["default"]

  /** `labels or ["default"]`: a missing or empty list becomes the default. */
  function LabelsOrDefault(labels: Option<seq<string>>): (r: seq<string>)
    ensures r != []
    ensures labels.Some? && labels.value != [] ==> r == labels.value
    ensures labels.None? || labels.value == [] ==> r == DefaultLabels
  {
    if labels.Some? && labels.value != [] then labels.value else DefaultLabels
  }

  /** `Envelope.make(...)`: unsigned. */
  function Make(producer: string, subject: string, payload: Json, labels: seq<string>, keyId: KeyValue): Envelope {
    Envelope(producer, subject, payload, labels, keyId, None)
  }

  /** `sign_envelope(env, priv, env.key_id)`: the same envelope carrying the
      signature. */
  function Sign(crypto: Crypto, env: Envelope, priv: KeyValue): (r: Envelope)
    ensures r.sig.Some?
    ensures r.(sig := None) == env.(sig := None)
  {
    env.(sig := Some(crypto.envelopeSignature(env, priv)))
  }

  /** One `transport.publish(subject, env.to_dict())` call made by a client. */
  datatype Publication = Publication(subject: string, envelope: Envelope)
}
