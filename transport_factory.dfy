/** `transport_factory()`: picks an adapter from the `AE_TRANSPORT` and
    `ABI_URL` environment variables, passed in as optional strings. */
module Transport {
  import opened Wrappers
  import opened Strings

  const DefaultMode: string := "local"
  const DefaultAbiUrl: string := "http://localhost:8080"

  datatype AdapterKind = GcpPubSub | Http(baseUrl: string) | Local

  /** `os.getenv("AE_TRANSPORT", "local").lower()`. */
  function Mode(aeTransport: Option<string>): (r: string)
    ensures aeTransport.None? ==> r == DefaultMode
    ensures |r| == |aeTransport.GetOr(DefaultMode)|
    ensures forall i :: 0 <= i < |r| ==> !('A' <= r[i] <= 'Z')
  {
    assert Lower(DefaultMode) == DefaultMode;
    Lower(aeTransport.GetOr(DefaultMode))
  }

  /** `"gcp"` selects Pub/Sub, `"http"` the HTTP adapter on `ABI_URL` (or
      the local default URL); every other mode, `"kafka"` included, the
      local bus. Total: no mode string makes it fail. */
  function Factory(aeTransport: Option<string>, abiUrl: Option<string>): (k: AdapterKind)
    ensures k.GcpPubSub? <==> Mode(aeTransport) == "gcp"
    ensures k.Http? <==> Mode(aeTransport) == "http"
    ensures k.Http? ==> k.baseUrl == abiUrl.GetOr(DefaultAbiUrl)
    ensures k.Local? <==> Mode(aeTransport) != "gcp" && Mode(aeTransport) != "http"
  {
    var mode := Mode(aeTransport);
    if mode == "gcp" then GcpPubSub
    else if mode == "http" then Http(abiUrl.GetOr(DefaultAbiUrl))
    else Local
  }

  /** Selection ignores letter case: a mode and its lower-case form pick
      the same adapter. */
  lemma FactoryCaseInsensitive(mode: string, abiUrl: Option<string>)
    ensures Factory(Some(mode), abiUrl) == Factory(Some(Lower(mode)), abiUrl)
  {
    assert Lower(Lower(mode)) == Lower(mode);
  }

  /** With no `AE_TRANSPORT` the local bus is chosen, and so it is for
      every mode other than `gcp` and `http` in any letter case (`"kafka"`
      included); those two pick Pub/Sub and the HTTP adapter. */
  lemma FactoryDefaults(mode: string, abiUrl: Option<string>)
    ensures Factory(None, abiUrl) == Local
    ensures Lower(mode) != "gcp" && Lower(mode) != "http" ==> Factory(Some(mode), abiUrl) == Local
    ensures Lower(mode) == "gcp" ==> Factory(Some(mode), abiUrl) == GcpPubSub
    ensures Lower(mode) == "http" ==> Factory(Some(mode), abiUrl) == Http(abiUrl.GetOr(DefaultAbiUrl))
    ensures Factory(Some("kafka"), abiUrl) == Local
  {
    assert Mode(Some("kafka")) == "kafka";
  }

  /** What the clients may probe on a transport (`hasattr`): a method to
      push the session token, under either name, and a `base_url`. */
  datatype TransportCaps = TransportCaps(setGrant: bool, setToken: bool, hasBaseUrl: bool)

  /** None of the shipped adapters takes a token; only the HTTP adapter
      has a `base_url`. */
  function CapsOf(kind: AdapterKind): (c: TransportCaps)
    ensures !c.setGrant && !c.setToken
    ensures c.hasBaseUrl <==> kind.Http?
  {
    TransportCaps(false, false, kind.Http?)
  }

  /** How the transport argument resolves: a mode string (written to
      `AE_TRANSPORT`, with `ABI_URL` set to the client's URL), an object of
      the caller's, or nothing (the process environment decides). */
  datatype TransportArg = Named(mode: string) | Given(caps: TransportCaps) | Unset

  /** The process environment the factory reads. */
  datatype Environ = Environ(aeTransport: Option<string>, abiUrl: Option<string>)

  function SelectedCaps(arg: TransportArg, abiUrl: string, environ: Environ): (r: TransportCaps)
    ensures arg.Given? ==> r == arg.caps
    ensures !arg.Given? ==> !r.setGrant && !r.setToken
    ensures arg.Named? ==> (r.hasBaseUrl <==> Lower(arg.mode) == "http")
    ensures arg.Unset? ==> (r.hasBaseUrl <==> Mode(environ.aeTransport) == "http")
  {
    match arg
    case Named(mode) => CapsOf(Factory(Some(mode), Some(abiUrl)))
    case Given(caps) => caps
    case Unset => CapsOf(Factory(environ.aeTransport, environ.abiUrl))
  }
}
