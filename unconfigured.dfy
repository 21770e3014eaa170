/**
 * The stand-ins handed out for a message type with no mapping (Unconfigured.cs):
 * they remember the type, and every send or receive fails naming it.
 */
module Unconfigured {
  import opened Core
  import opened Errors
  import opened Envelopes
  import opened ReceiveModes

  const SendPrefix := "An attempt was made to send an unconfigured message of type "
  const SendSuffix := ". You must configure the provider with a mapping for this type if you want to be able to send it."
  const ReceivePrefix := "An attempt was made to receive an unconfigured message of type "
  const ReceiveSuffix := ". You must configure the provider with a mapping for this type if you want to be able to receive it."

  /** `UnconfiguredMessageSender`; its `Dispose` does nothing, so the model has no member for it. */
  datatype UnconfiguredMessageSender = UnconfiguredMessageSender(messageType: MessageType) {

    function SupportedMessageType(): MessageType
    {
      messageType
    }

    /** `SendAsync` throws whatever the envelope. */
    function SendAsync(message: Envelope): (r: Outcome<Error>)
      ensures r.Fail? && r.error.InvalidOperation?
      ensures var text := r.error.message;
        && |text| == |SendPrefix| + |messageType.name| + |SendSuffix|
        && text[|SendPrefix|..|SendPrefix| + |messageType.name|] == messageType.name
    {
      Fail(InvalidOperation(SendPrefix + messageType.name + SendSuffix))
    }
  }

  /** `UnconfiguredMessageReceiver`; its `Dispose` does nothing. */
  datatype UnconfiguredMessageReceiver = UnconfiguredMessageReceiver(messageType: MessageType) {

    function SupportedMessageType(): MessageType
    {
      messageType
    }

    function Mode(): ReceiveMode
    {
      ReceiveAndDelete
    }

    function IsClosed(): bool
    {
      false
    }

    /** `ReceiveAsync` throws on every call. */
    function ReceiveAsync(): (r: ReceiveResult)
      ensures r.ReceiveFailed? && r.error.InvalidOperation?
      ensures var text := r.error.message;
        && |text| == |ReceivePrefix| + |messageType.name| + |ReceiveSuffix|
        && text[|ReceivePrefix|..|ReceivePrefix| + |messageType.name|] == messageType.name
    {
      ReceiveFailed(InvalidOperation(ReceivePrefix + messageType.name + ReceiveSuffix))
    }
  }

  /** Both stand-ins report the type they were built for, and a receiver is never closed and never yields. */
  lemma StandInsReportTheirType(t: MessageType)
    ensures UnconfiguredMessageSender(t).SupportedMessageType() == t
    ensures UnconfiguredMessageReceiver(t).SupportedMessageType() == t
    ensures UnconfiguredMessageReceiver(t).Mode() == ReceiveAndDelete
    ensures !UnconfiguredMessageReceiver(t).IsClosed()
    ensures !UnconfiguredMessageReceiver(t).ReceiveAsync().Received?
  {
  }

  /** The type name embedded in a send-failure message, read back between the fixed prefix and suffix. */
  function SentTypeName(text: string): (name: Option<string>)
    ensures name.Some? ==> |text| == |SendPrefix| + |name.value| + |SendSuffix|
  {
    if |text| < |SendPrefix| + |SendSuffix| then None
    else Some(text[|SendPrefix|..|text| - |SendSuffix|])
  }

  /** The failure message of a stand-in sender names its type: reading it back yields the type name. */
  lemma {:induction false} SendFailureNamesType(t: MessageType, e: Envelope)
    ensures SentTypeName(UnconfiguredMessageSender(t).SendAsync(e).error.message) == Some(t.name)
  {
    var text := SendPrefix + t.name + SendSuffix;
    assert text[|SendPrefix|..|text| - |SendSuffix|] == t.name;
  }

  /** Stand-ins for different type names fail with different messages. */
  lemma {:induction false} SendFailureIdentifiesType(t: MessageType, u: MessageType, e: Envelope)
    requires t.name != u.name
    ensures UnconfiguredMessageSender(t).SendAsync(e) != UnconfiguredMessageSender(u).SendAsync(e)
  {
    SendFailureNamesType(t, e);
    SendFailureNamesType(u, e);
  }
}
