/** Handler invocation as the in-memory adapters do it: every handler of a
    subject in subscription order, with no per-handler exception isolation.
    An invocation is recorded as a `Delivery`; a handler that raises is
    invoked, and its exception stops the remaining deliveries. */
module Dispatch {
  import opened Wrappers
  import opened Decorators

  datatype Delivery<M> = Delivery(handler: HandlerId, message: M)

  /** The handler list stored for `subject`, or none. */
  function Subscribers(handlers: map<string, seq<HandlerId>>, subject: string): seq<HandlerId> {
    if subject in handlers then handlers[subject] else []
  }

  /** `subscribe`: `handlers.setdefault(subject, []).append(h)`. */
  function Appended(handlers: map<string, seq<HandlerId>>, subject: string, h: HandlerId): (r: map<string, seq<HandlerId>>)
    ensures r.Keys == handlers.Keys + {subject}
    ensures Subscribers(r, subject) == Subscribers(handlers, subject) + [h]
    ensures forall s :: s != subject ==> Subscribers(r, s) == Subscribers(handlers, s)
  {
    handlers[subject := Subscribers(handlers, subject) + [h]]
  }

  /** `for h in hs: h(m)`: the deliveries made, and the handler whose
      exception escaped, if any. */
  function Deliver<M>(hs: seq<HandlerId>, m: M, raises: (HandlerId, M) -> bool): (r: (seq<Delivery<M>>, Option<HandlerId>))
    ensures |r.0| <= |hs|
    ensures forall i :: 0 <= i < |r.0| ==> r.0[i] == Delivery(hs[i], m)
    ensures r.1.None? <==> (forall i :: 0 <= i < |hs| ==> !raises(hs[i], m))
    ensures r.1.None? ==> |r.0| == |hs|
    ensures r.1.Some? ==>
              && 0 < |r.0|
              && r.1.value == hs[|r.0| - 1]
              && raises(hs[|r.0| - 1], m)
              && (forall i :: 0 <= i < |r.0| - 1 ==> !raises(hs[i], m))
  {
    if hs == [] then ([], None)
    else if raises(hs[0], m) then ([Delivery(hs[0], m)], Some(hs[0]))
    else
      var rest := Deliver(hs[1..], m, raises);
      ([Delivery(hs[0], m)] + rest.0, rest.1)
  }

  /** The handlers invoked, in order. */
  function Invoked<M>(ds: seq<Delivery<M>>): (r: seq<HandlerId>)
    ensures |r| == |ds|
    ensures forall i :: 0 <= i < |ds| ==> r[i] == ds[i].handler
  {
    if ds == [] then [] else [ds[0].handler] + Invoked(ds[1..])
  }

  /** With no raising handler every subscribed handler gets the message,
      each exactly as often as it was subscribed: no deduplication. */
  lemma {:induction false} DeliverAll<M>(hs: seq<HandlerId>, m: M, raises: (HandlerId, M) -> bool)
    requires forall i :: 0 <= i < |hs| ==> !raises(hs[i], m)
    ensures Invoked(Deliver(hs, m, raises).0) == hs
    ensures multiset(Invoked(Deliver(hs, m, raises).0)) == multiset(hs)
  {
    var ds := Deliver(hs, m, raises).0;
    assert |Invoked(ds)| == |hs|;
    assert forall i :: 0 <= i < |hs| ==> Invoked(ds)[i] == hs[i];
  }

  /** Deliveries are a prefix of the all-handlers run: a raising handler
      only ever cuts the list short. */
  lemma DeliverPrefix<M>(hs: seq<HandlerId>, m: M, raises: (HandlerId, M) -> bool, none: (HandlerId, M) -> bool)
    requires forall h, x :: !none(h, x)
    ensures Deliver(hs, m, raises).0 <= Deliver(hs, m, none).0
  {
    var all := Deliver(hs, m, none).0;
    var some := Deliver(hs, m, raises).0;
    assert |all| == |hs|;
    assert forall i :: 0 <= i < |some| ==> some[i] == all[i];
  }

  /** Subscribing `h` twice makes one publish reach it twice. */
  lemma {:induction false} DoubleSubscribeDeliversTwice<M>(hs: seq<HandlerId>, h: HandlerId, m: M, raises: (HandlerId, M) -> bool)
    requires forall i :: 0 <= i < |hs| ==> !raises(hs[i], m)
    requires !raises(h, m)
    ensures multiset(Invoked(Deliver(hs + [h, h], m, raises).0))[h] == multiset(hs)[h] + 2
  {
    var hs2 := hs + [h, h];
    assert forall i :: 0 <= i < |hs2| ==> !raises(hs2[i], m);
    DeliverAll(hs2, m, raises);
    assert multiset(hs2) == multiset(hs) + multiset{h, h};
  }
}
