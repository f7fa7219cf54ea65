/** `LocalAdapter`: the in-memory bus for offline development. */
module TransportLocal {
  import opened Wrappers
  import opened Decorators
  import opened Dispatch

  class LocalAdapter<M> {
    /** subject -> handlers in subscription order */
    var handlers: map<string, seq<HandlerId>>
    /** every handler invocation so far */
    var delivered: seq<Delivery<M>>

    constructor ()
      ensures handlers == map[] && delivered == []
    {
      handlers, delivered := map[], [];
    }

    /** Invoke every handler of `subject` with `message`, in order. A handler
        that raises (`raises(h, message)`) has been invoked; its exception
        propagates as `raised == Some(h)` and the rest are not invoked. */
    method Publish(subject: string, message: M, raises: (HandlerId, M) -> bool) returns (raised: Option<HandlerId>)
      modifies this
      ensures handlers == old(handlers)
      ensures delivered == old(delivered) + Deliver(Subscribers(handlers, subject), message, raises).0
      ensures raised == Deliver(Subscribers(handlers, subject), message, raises).1
      ensures subject !in handlers ==> delivered == old(delivered) && raised == None
    {
      raised := None;
      if subject in handlers {
        var hs := handlers[subject];
        var i := 0;
        while i < |hs|
          invariant 0 <= i <= |hs|
          invariant handlers == old(handlers)
          invariant |delivered| == |old(delivered)| + i
          invariant delivered[..|old(delivered)|] == old(delivered)
          invariant forall k :: 0 <= k < i ==> delivered[|old(delivered)| + k] == Delivery(hs[k], message)
          invariant forall k :: 0 <= k < i ==> !raises(hs[k], message)
        {
          delivered := delivered + [Delivery(hs[i], message)];
          if raises(hs[i], message) {
            raised := Some(hs[i]);
            break;
          }
          i := i + 1;
        }
        ghost var d := Deliver(hs, message, raises);
        assert |d.0| == |delivered| - |old(delivered)|;
        assert delivered == old(delivered) + d.0;
      }
    }

    /** `handlers.setdefault(subject, []).append(handler)`. */
    method Subscribe(subject: string, handler: HandlerId)
      modifies this
      ensures handlers == Appended(old(handlers), subject, handler)
      ensures delivered == old(delivered)
    {
      var current := if subject in handlers then handlers[subject] else [];
      handlers := handlers[subject := current + [handler]];
    }
  }
}
