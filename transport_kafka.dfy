/** `KafkaAdapter`: in mock mode an in-memory bus like `LocalAdapter`;
    the real producer/consumer wiring is absent, so outside mock mode
    publish and subscribe do nothing. */
module TransportKafka {
  import opened Wrappers
  import opened Decorators
  import opened Dispatch

  const DefaultBrokers: string := "localhost:9092"

  class KafkaAdapter<M> {
    const mock: bool
    const brokers: string
    var handlers: map<string, seq<HandlerId>>
    var delivered: seq<Delivery<M>>

    constructor (brokers: string, mock: bool)
      ensures this.brokers == brokers && this.mock == mock
      ensures handlers == map[] && delivered == []
    {
      this.brokers, this.mock := brokers, mock;
      handlers, delivered := map[], [];
    }

    /** `KafkaAdapter()`: mock mode against the default broker address. */
    constructor Default()
      ensures mock && brokers == DefaultBrokers
      ensures handlers == map[] && delivered == []
    {
      brokers, mock := DefaultBrokers, true;
      handlers, delivered := map[], [];
    }

    /** Mock mode: every handler of `subject`, in order, until one raises.
        Otherwise nothing happens. Returns nothing either way. */
    method Publish(subject: string, message: M, raises: (HandlerId, M) -> bool) returns (raised: Option<HandlerId>)
      modifies this
      ensures handlers == old(handlers)
      ensures mock ==> delivered == old(delivered) + Deliver(Subscribers(handlers, subject), message, raises).0
      ensures mock ==> raised == Deliver(Subscribers(handlers, subject), message, raises).1
      ensures !mock || subject !in handlers ==> delivered == old(delivered) && raised == None
    {
      raised := None;
      if mock {
        if subject in handlers {
          var hs := handlers[subject];
          var i := 0;
          while i < |hs|
            invariant 0 <= i <= |hs|
            invariant handlers == old(handlers)
            invariant |delivered| == |old(delivered)| + i
            invariant delivered[..|old(delivered)|] == old(delivered)
            invariant forall k :: 0 <= k < i ==> delivered[|old(delivered)| + k] == Delivery(hs[k], message)
            invariant forall k :: 0 <= k < i ==> !raises(hs[k], message)
          {
            delivered := delivered + [Delivery(hs[i], message)];
            if raises(hs[i], message) {
              raised := Some(hs[i]);
              break;
            }
            i := i + 1;
          }
          ghost var d := Deliver(hs, message, raises);
          assert |d.0| == |delivered| - |old(delivered)|;
          assert delivered == old(delivered) + d.0;
        }
      }
    }

    /** Mock mode: append `handler` to the subject's list; otherwise nothing. */
    method Subscribe(subject: string, handler: HandlerId)
      modifies this
      ensures handlers == if mock then Appended(old(handlers), subject, handler) else old(handlers)
      ensures delivered == old(delivered)
    {
      if mock {
        var current := if subject in handlers then handlers[subject] else [];
        handlers := handlers[subject := current + [handler]];
      }
    }
  }
}
