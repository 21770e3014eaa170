/**
 * The values that cross the transport boundary: the envelope (`Message` of the
 * Service Bus SDK), the domain message a codec turns it into, and what one call to a
 * receiver can yield. Times, payload bytes and property values are opaque.
 */
module Envelopes {
  import opened Core
  import opened Errors

  newtype byte = x: int | 0 <= x < 256

  /** A `DateTime` and a `TimeSpan`, each as an opaque tick count. */
  datatype Instant = Instant(ticks: int)
  datatype Duration = Duration(ticks: int)

  /** A user-property value: an `object` that may be a string, null, or anything else. */
  datatype Value = StringValue(s: string) | NullValue | OtherValue(id: nat)

  datatype Property = Property(key: string, value: Value)

  /** `MessagePropertyNames.TypeName`, the user-property key that carries the type tag. */
  const TypeNameKey := "TypeName"

  /**
   * An envelope. `None` in an optional field means the SDK's own default (the core has
   * not set it). `userProperties` is the insertion-ordered `UserProperties` dictionary.
   */
  datatype Envelope = Envelope(
    body: seq<byte>,
    correlationId: Option<string>,
    sessionId: Option<string>,
    replyToSessionId: Option<string>,
    scheduledEnqueueTimeUtc: Option<Instant>,
    timeToLive: Option<Duration>,
    userProperties: seq<Property>,
    deliveryCount: int,
    lockToken: string)

  /** `new Message(body)`: nothing but the body is set. */
  function NewEnvelope(body: seq<byte>): (e: Envelope)
    ensures e.body == body && e.userProperties == []
    ensures e.correlationId.None? && e.sessionId.None? && e.replyToSessionId.None?
    ensures e.scheduledEnqueueTimeUtc.None? && e.timeToLive.None?
  {
    Envelope(body, None, None, None, None, None, [], 0, "")
  }

  /** The identifiers a request or a response carries (`RequestId`, `RequesterId`). */
  datatype CorrelationIds = CorrelationIds(requestId: Option<string>, requesterId: Option<string>)

  /**
   * A domain message instance: its identity, its concrete runtime type, and whether it
   * implements `IRequest` / `IResponse` (with the identifiers those expose).
   */
  datatype DomainMessage = DomainMessage(
    identity: ObjectId,
    concreteType: MessageType,
    request: Option<CorrelationIds>,
    response: Option<CorrelationIds>)

  /** The value the dictionary holds under `key`, if any (`TryGetValue`). */
  function Lookup(bag: seq<Property>, key: string): (r: Option<Value>)
    ensures r.None? <==> forall i :: 0 <= i < |bag| ==> bag[i].key != key
    ensures r.Some? ==> exists i :: 0 <= i < |bag| && bag[i] == Property(key, r.value)
  {
    if bag == [] then None
    else if bag[0].key == key then Some(bag[0].value)
    else Lookup(bag[1..], key)
  }

  predicate HasKey(bag: seq<Property>, key: string)
  {
    exists i :: 0 <= i < |bag| && bag[i].key == key
  }

  /** No key occurs twice: what a `Dictionary` guarantees of its entries. */
  predicate DistinctKeys(bag: seq<Property>)
  {
    forall i, j :: 0 <= i < j < |bag| ==> bag[i].key != bag[j].key
  }

  /** One call to `IMessageReceiver.ReceiveAsync`: an envelope, null, or a thrown exception. */
  datatype ReceiveResult = Received(envelope: Envelope) | ReceivedNull | ReceiveFailed(error: Error)
}
