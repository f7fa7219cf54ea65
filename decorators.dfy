/** `EventRegistry`: subject -> handler, last registration wins.
    Handlers are identified by a number; the dictionary's insertion order,
    which `listen` iterates in, is kept in `subjects`. */
module Decorators {

  type HandlerId = nat

  /** The `(subject, handler)` pairs of `handlers.items()`, in order. */
  function Items(subjects: seq<string>, handlers: map<string, HandlerId>): (r: seq<(string, HandlerId)>)
    requires forall s :: s in subjects ==> s in handlers
    ensures |r| == |subjects|
    ensures forall i :: 0 <= i < |r| ==> r[i] == (subjects[i], handlers[subjects[i]])
  {
    if subjects == [] then []
    else [(subjects[0], handlers[subjects[0]])] + Items(subjects[1..], handlers)
  }

  class EventRegistry {
    var subjects: seq<string>
    var handlers: map<string, HandlerId>

    /** Every key appears once in the insertion order, and only keys do. */
    ghost predicate Valid()
      reads this
    {
      && (forall s :: s in subjects <==> s in handlers)
      && (forall i, j :: 0 <= i < j < |subjects| ==> subjects[i] != subjects[j])
    }

    constructor ()
      ensures Valid() && subjects == [] && handlers == map[]
    {
      subjects, handlers := [], map[];
    }

    /** `register(subject, fn)`: `handlers[subject] = fn`. A new key goes
        last in iteration order; a replaced key keeps its place. */
    method Register(subject: string, fn: HandlerId)
      requires Valid()
      modifies this
      ensures Valid()
      ensures handlers == old(handlers)[subject := fn]
      ensures handlers[subject] == fn
      ensures forall s :: s != subject ==> (s in handlers <==> s in old(handlers))
      ensures forall s :: s != subject && s in old(handlers) ==> handlers[s] == old(handlers)[s]
      ensures subjects == if subject in old(handlers) then old(subjects) else old(subjects) + [subject]
    {
      if subject !in handlers {
        subjects := subjects + [subject];
      }
      handlers := handlers[subject := fn];
    }

    /** `on(subject)(fn)`: the decorator records `fn` exactly as `register`
        does and hands `fn` back unchanged. */
    method On(subject: string, fn: HandlerId) returns (r: HandlerId)
      requires Valid()
      modifies this
      ensures Valid()
      ensures r == fn
      ensures handlers == old(handlers)[subject := fn]
      ensures subjects == if subject in old(handlers) then old(subjects) else old(subjects) + [subject]
    {
      Register(subject, fn);
      r := fn;
    }
  }
}
