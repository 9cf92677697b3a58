/**
 * The real-time wire protocol: the JSON objects exchanged over `/ws` and the
 * text frames that carry them. Only the members the socket code reads are
 * modelled (`type`, `restaurantId`, `order`); serialisation is opaque.
 */
module Protocol {
  import opened Common
  import opened Schema

  /** A JSON object as the socket code sees it: its `type`, `restaurantId` and `order` members, each possibly absent. */
  datatype Envelope = Envelope(kind: Option<string>, restaurantId: Option<string>, order: Option<Order>)

  /** A text frame: text `JSON.parse` rejects, or the serialisation of a JSON object. */
  datatype Frame = Unparseable | Json(value: Envelope)

  /** `{ type: 'subscribe', restaurantId }`, client to server. */
  function SubscribeMessage(restaurantId: string): Envelope {
    Envelope(Some("subscribe"), Some(restaurantId), None)
  }

  /** `{ type: 'subscribed', restaurantId }`, the server's acknowledgement. */
  function SubscribedMessage(restaurantId: string): Envelope {
    Envelope(Some("subscribed"), Some(restaurantId), None)
  }

  /** `{ type: 'new_order', order }`. */
  function NewOrderMessage(o: Order): Envelope {
    Envelope(Some("new_order"), None, Some(o))
  }

  /** `{ type: 'order_updated', order }`. */
  function OrderUpdatedMessage(o: Order): Envelope {
    Envelope(Some("order_updated"), None, Some(o))
  }

  /** `JSON.stringify`. */
  function Serialize(e: Envelope): Frame {
    Json(e)
  }

  /** `JSON.parse`, failing on text that is not JSON. */
  function Parse(f: Frame): (r: Option<Envelope>)
    ensures forall e :: f == Serialize(e) ==> r == Some(e)
  {
    match f
    case Unparseable => None
    case Json(e) => Some(e)
  }

  /** A frame asks for a subscription when it parses, its type is `subscribe` and its restaurant id is truthy. */
  predicate IsSubscribe(f: Frame) {
    f.Json? && f.value.kind == Some("subscribe") && Truthy(f.value.restaurantId)
  }

  /** Of the messages the system writes, only a subscribe with a non-empty restaurant id asks for a subscription. */
  lemma OnlySubscribeSubscribes(r: string, o: Order)
    ensures IsSubscribe(Serialize(SubscribeMessage(r))) <==> r != ""
    ensures !IsSubscribe(Serialize(NewOrderMessage(o))) && !IsSubscribe(Serialize(OrderUpdatedMessage(o)))
  {
  }
}
