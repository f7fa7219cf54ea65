/** `HTTPAdapter`: posts envelopes to the broker's `/emit` endpoint and
    keeps one handler per subject (no stream is opened). */
module TransportHttp {
  import opened Wrappers
  import opened Values
  import opened Decorators

  /** How `requests.post(url, json=message, timeout=5)` went: it raised, or
      a response came back whose `json()` decodes or raises. */
  datatype HttpOutcome =
    | Failed(message: string)
    | Answered(ok: bool, status: int, text: string, json: Result<Json, string>)

  function ErrorObject(message: string): Json {
    JObject(map["error" := JStr(message)])
  }

  /** The value `publish` returns for an outcome; it never raises. */
  function PublishResult(outcome: HttpOutcome): (r: Json)
    ensures outcome.Answered? && outcome.ok && outcome.json.Success? ==> r == outcome.json.value
    ensures outcome.Answered? && !outcome.ok ==>
              r == JObject(map["error" := JStr(outcome.text), "status" := JInt(outcome.status)])
    ensures outcome.Failed? ==> r == ErrorObject(outcome.message)
    ensures outcome.Answered? && outcome.ok && outcome.json.Failure? ==> r == ErrorObject(outcome.json.error)
  {
    match outcome
    case Failed(m) => ErrorObject(m)
    case Answered(ok, status, text, json) =>
      if !ok then JObject(map["error" := JStr(text), "status" := JInt(status)])
      else if json.Failure? then ErrorObject(json.error)
      else json.value
  }

  /** A result that reports a status is exactly a rejected response, when
      accepted replies never carry `error` and `status` together. */
  lemma StatusOnlyOnRejection(outcome: HttpOutcome)
    requires outcome.Answered? && outcome.ok && outcome.json.Success? ==>
               !(outcome.json.value.JObject? && "error" in outcome.json.value.fields && "status" in outcome.json.value.fields)
    ensures (PublishResult(outcome).JObject? && "error" in PublishResult(outcome).fields && "status" in PublishResult(outcome).fields)
              <==> (outcome.Answered? && !outcome.ok)
  {
  }

  const EmitPath: string := "/emit"

  class HTTPAdapter {
    var baseUrl: string
    var handlers: map<string, HandlerId>

    /** The base URL is kept exactly as given (no slash is stripped). */
    constructor (baseUrl: string)
      ensures this.baseUrl == baseUrl && handlers == map[]
    {
      this.baseUrl, handlers := baseUrl, map[];
    }

    /** Post `message` to `base_url + "/emit"` and shape the outcome: the
        decoded body when accepted, `{"error": text, "status": code}` when
        rejected, `{"error": msg}` when the call or the decoding raised. */
    method Publish<M>(subject: string, message: M, outcome: HttpOutcome) returns (url: string, result: Json)
      ensures url == baseUrl + EmitPath
      ensures result == PublishResult(outcome)
      ensures outcome.Answered? && outcome.ok && outcome.json.Success? ==> result == outcome.json.value
      ensures outcome.Answered? && !outcome.ok ==>
                result == JObject(map["error" := JStr(outcome.text), "status" := JInt(outcome.status)])
      ensures outcome.Failed? ==> result == JObject(map["error" := JStr(outcome.message)])
      ensures outcome.Answered? && outcome.ok && outcome.json.Failure? ==>
                result == JObject(map["error" := JStr(outcome.json.error)])
    {
      url := baseUrl + EmitPath;
      match outcome {
        case Failed(m) =>
          result := ErrorObject(m);
        case Answered(ok, status, text, json) =>
          if ok {
            match json {
              case Success(body) => result := body;
              case Failure(e) => result := ErrorObject(e);
            }
          } else {
            result := JObject(map["error" := JStr(text), "status" := JInt(status)]);
          }
      }
    }

    /** `handlers[subject] = handler`: one handler per subject, the last
        one wins; nothing is opened or streamed. */
    method Subscribe(subject: string, handler: HandlerId)
      modifies this
      ensures handlers == old(handlers)[subject := handler]
      ensures baseUrl == old(baseUrl)
    {
      handlers := handlers[subject := handler];
    }
  }
}
