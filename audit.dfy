/** Modification listeners and the events the cleaner reports to them
    (`HtmlModificationListener`). Listeners are opaque identities; what one does
    when called is outside the model, so each call is recorded in a log of
    deliveries, in the order the calls are made. */
module Audit {
  import opened Conditions

  /** An opaque registered listener; the same listener may be registered twice. */
  datatype ListenerId = ListenerId(id: nat)

  /** An opaque tag node that an event is about. */
  datatype TagNodeRef = TagNodeRef(id: nat)

  /** An opaque `ErrorType` constant. */
  datatype ErrorType = ErrorType(code: nat)

  /** One call of a listener method, with its arguments. */
  datatype Event =
    | ConditionModification(condition: Condition, tagNode: TagNodeRef)
    | HtmlError(certainty: bool, tagNode: TagNodeRef, errorType: ErrorType)
    | UglyHtml(certainty: bool, tagNode: TagNodeRef, errorType: ErrorType)
    | UserDefinedModification(certainty: bool, tagNode: TagNodeRef, errorType: ErrorType)

  /** Listener `listener` received `event`. */
  datatype Delivery = Delivery(listener: ListenerId, event: Event)

  /** The calls made by passing `event` to every listener of `listeners`,
      front to back. */
  function Deliveries(listeners: seq<ListenerId>, event: Event): seq<Delivery> {
    if listeners == [] then []
    else Deliveries(listeners[..|listeners| - 1], event) + [Delivery(listeners[|listeners| - 1], event)]
  }

  /** Fan-out delivers exactly one call per list entry, duplicates included,
      the i-th call going to the i-th entry with the unchanged event. */
  lemma {:induction false} DeliveriesAt(listeners: seq<ListenerId>, event: Event)
    ensures |Deliveries(listeners, event)| == |listeners|
    ensures forall i :: 0 <= i < |listeners| ==> Deliveries(listeners, event)[i] == Delivery(listeners[i], event)
  {
    if listeners != [] {
      var init := listeners[..|listeners| - 1];
      DeliveriesAt(init, event);
      assert forall i :: 0 <= i < |init| ==> init[i] == listeners[i];
    }
  }

  /** A listener registered twice is called twice, once per registration. */
  lemma DeliveriesOfDuplicate(listeners: seq<ListenerId>, l: ListenerId, event: Event)
    ensures Deliveries(listeners + [l, l], event)
         == Deliveries(listeners, event) + [Delivery(l, event), Delivery(l, event)]
  {
    var once := listeners + [l];
    assert (once + [l])[..|once|] == once;
    assert once[..|listeners|] == listeners;
    assert listeners + [l, l] == once + [l];
  }

  /** The listeners' side of the calls: the log of deliveries received so far. */
  class CallLog {
    var calls: seq<Delivery>

    constructor ()
      ensures calls == []
    {
      calls := [];
    }

    /** `listener` is called with `event`. */
    method Deliver(listener: ListenerId, event: Event)
      modifies this
      ensures calls == old(calls) + [Delivery(listener, event)]
    {
      calls := calls + [Delivery(listener, event)];
    }
  }
}
