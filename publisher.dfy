/**
 * `MessagePublisher<TMessage>`: turns a domain message into one envelope and sends it
 * through the sender cached for the message's concrete type.
 *
 * The envelope is built keyed on the DOMAIN message throughout: the type tag is the
 * domain message's type name, the request/response identifiers come from the domain
 * message, and the outgoing properties are looked up by the domain message. This is
 * the behaviour MessagePublisherFacts.cs asserts (lines 143, 278, 308 and 205-217) and
 * the one line 142 of MessagePublisher.cs already assumes when it removes the entry by
 * the domain message. Lines 80, 88, 93 and 134 read the freshly built envelope instead;
 * that code is kept as `PrepareAsWritten` below, with lemmas showing what it changes.
 */
module Publisher {
  import opened Core
  import opened Errors
  import opened Envelopes
  import opened MessageTables
  import opened Unconfigured

  /** What `IMessagingEntityFactory.CreateMessageSender` hands back for a type. */
  datatype Sender =
    | TransportSender(entity: Handle, messageType: MessageType)
    | UnconfiguredSender(standIn: UnconfiguredMessageSender)

  /** How an `IMessageSender.SendAsync` call ends; `transport` is the answer of a real queue or topic. */
  function SendOutcome(s: Sender, e: Envelope, transport: Outcome<Error>): (r: Outcome<Error>)
    ensures s.TransportSender? ==> r == transport
    ensures s.UnconfiguredSender? ==> r.Fail? && r.error.InvalidOperation?
  {
    match s
    case TransportSender(_, _) => transport
    case UnconfiguredSender(u) => u.SendAsync(e)
  }

  /** The two values `ApplyAnyOutgoingProperties` reads from an `IOutgoingMessageProperties`. */
  datatype OutgoingValues = OutgoingValues(scheduledEnqueueTimeUtc: Instant, timeToLive: Duration)

  /** The outgoing values the table holds for an object, if any. */
  function OutgoingFor(table: OutgoingPropertiesTable, obj: ObjectId): (r: Option<OutgoingValues>)
    reads table, table.entries.Values
    ensures r.None? <==> obj !in table.entries
    ensures r.Some? ==>
      r.value == OutgoingValues(table.entries[obj].scheduledEnqueueTimeUtc, table.entries[obj].timeToLive)
  {
    if obj in table.entries then
      Some(OutgoingValues(table.entries[obj].scheduledEnqueueTimeUtc, table.entries[obj].timeToLive))
    else None
  }

  /** The envelope after `ApplyAnyOutgoingProperties`: both values copied when an entry exists, untouched otherwise. */
  function ApplyOutgoing(e: Envelope, outgoing: Option<OutgoingValues>): (r: Envelope)
    ensures outgoing.None? ==> r == e
    ensures outgoing.Some? ==>
      r == e.(scheduledEnqueueTimeUtc := Some(outgoing.value.scheduledEnqueueTimeUtc),
              timeToLive := Some(outgoing.value.timeToLive))
  {
    match outgoing
    case None => e
    case Some(o) => e.(scheduledEnqueueTimeUtc := Some(o.scheduledEnqueueTimeUtc), timeToLive := Some(o.timeToLive))
  }

  /** `SetRequestSessionAndCorrelationIdentifiers`. */
  function SetRequestIds(e: Envelope, ids: CorrelationIds): (r: Envelope)
    ensures r.correlationId == ids.requestId
    ensures r.replyToSessionId == (if IsNullOrEmpty(ids.requesterId) then e.replyToSessionId else ids.requesterId)
    ensures r.(correlationId := e.correlationId, replyToSessionId := e.replyToSessionId) == e
  {
    var withReply := if !IsNullOrEmpty(ids.requesterId) then e.(replyToSessionId := ids.requesterId) else e;
    withReply.(correlationId := ids.requestId)
  }

  /** `SetResponseSessionAndCorrelationIdentifiers`. */
  function SetResponseIds(e: Envelope, ids: CorrelationIds): (r: Envelope)
    ensures r.correlationId == ids.requestId
    ensures r.sessionId == (if IsNullOrEmpty(ids.requesterId) then e.sessionId else ids.requesterId)
    ensures r.(correlationId := e.correlationId, sessionId := e.sessionId) == e
  {
    var withSession := if !IsNullOrEmpty(ids.requesterId) then e.(sessionId := ids.requesterId) else e;
    withSession.(correlationId := ids.requestId)
  }

  /** `SetSessionAndCorrelationIdentifiersIfApplicable`: a request is checked first, then a response. */
  function SetCorrelation(e: Envelope, m: DomainMessage): (r: Envelope)
    ensures m.request.Some? ==> r == SetRequestIds(e, m.request.value)
    ensures m.request.None? && m.response.Some? ==> r == SetResponseIds(e, m.response.value)
    ensures m.request.None? && m.response.None? ==> r == e
  {
    if m.request.Some? then SetRequestIds(e, m.request.value)
    else if m.response.Some? then SetResponseIds(e, m.response.value)
    else e
  }

  /** A sequence of `Dictionary.Add` calls: the first key already present throws. */
  function AddAll(bag: seq<Property>, props: seq<Property>): (r: Result<seq<Property>, Error>)
    ensures r.Ok? ==> |r.value| == |bag| + |props| && r.value[..|bag|] == bag
    ensures r.Err? ==> r.error.DuplicateKey? && HasKey(props, r.error.key)
    decreases |props|
  {
    if props == [] then Ok(bag)
    else if HasKey(bag, props[0].key) then Err(DuplicateKey(props[0].key))
    else
      var r := AddAll(bag + [props[0]], props[1..]);
      assert r.Err? ==> HasKey(props, r.error.key) by {
        if r.Err? {
          var j :| 0 <= j < |props[1..]| && props[1..][j].key == r.error.key;
          assert props[j + 1] == props[1..][j];
        }
      }
      assert r.Ok? ==> r.value[..|bag|] == (bag + [props[0]])[..|bag|];
      r
  }

  /**
   * Adding to a dictionary with distinct keys succeeds exactly when all keys stay
   * distinct, and then appends the properties in order.
   */
  lemma {:induction false} AddAllAppends(bag: seq<Property>, props: seq<Property>)
    requires DistinctKeys(bag)
    ensures AddAll(bag, props).Ok? <==> DistinctKeys(bag + props)
    ensures AddAll(bag, props).Ok? ==> AddAll(bag, props).value == bag + props
    ensures AddAll(bag, props).Err? ==> AddAll(bag, props).error.DuplicateKey?
    decreases |props|
  {
    if props == [] {
      assert bag + props == bag;
    } else if HasKey(bag, props[0].key) {
      var i :| 0 <= i < |bag| && bag[i].key == props[0].key;
      assert (bag + props)[i].key == (bag + props)[|bag|].key;
    } else {
      var next := bag + [props[0]];
      assert DistinctKeys(next) by {
        forall i, j | 0 <= i < j < |next|
          ensures next[i].key != next[j].key
        {
          if j == |bag| {
            assert next[i] == bag[i];
          }
        }
      }
      AddAllAppends(next, props[1..]);
      assert next + props[1..] == bag + props;
    }
  }

  /** The type tag the publisher writes: the domain message's concrete type name. */
  function TypeTag(m: DomainMessage): (p: Property)
    ensures Lookup([p], TypeNameKey) == Some(StringValue(m.concreteType.name))
  {
    Property(TypeNameKey, StringValue(m.concreteType.name))
  }

  /**
   * The envelope `PublishAsync` sends, built in the source's order: body, outgoing
   * properties, correlation, type tag, provider properties.
   */
  function Prepare(m: DomainMessage, body: seq<byte>, outgoing: Option<OutgoingValues>, props: seq<Property>): (r: Result<Envelope, Error>)
    ensures r.Err? ==> r.error.DuplicateKey? && HasKey(props, r.error.key)
    ensures r.Ok? ==> r.value.body == body && |r.value.userProperties| == 1 + |props| && r.value.userProperties[0] == TypeTag(m)
  {
    var e := SetCorrelation(ApplyOutgoing(NewEnvelope(body), outgoing), m);
    match AddAll([TypeTag(m)], props)
    case Err(err) => Err(err)
    case Ok(bag) => Ok(e.(userProperties := bag))
  }

  /**
   * Publishing succeeds exactly when the provider's keys are distinct and none is the
   * type tag's key; the envelope then carries the tag first and the provider's
   * properties after it, in provider order, over the serialized body.
   */
  lemma PrepareTagsFirstThenProviderProperties(m: DomainMessage, body: seq<byte>, outgoing: Option<OutgoingValues>, props: seq<Property>)
    ensures Prepare(m, body, outgoing, props).Ok? <==> DistinctKeys([TypeTag(m)] + props)
    ensures Prepare(m, body, outgoing, props).Err? ==> Prepare(m, body, outgoing, props).error.DuplicateKey?
    ensures Prepare(m, body, outgoing, props).Ok? ==>
      var e := Prepare(m, body, outgoing, props).value;
      && e.body == body
      && e.userProperties == [TypeTag(m)] + props
      && Lookup(e.userProperties, TypeNameKey) == Some(StringValue(m.concreteType.name))
  {
    AddAllAppends([TypeTag(m)], props);
  }

  /** The outgoing properties, when present, are copied; when absent the SDK defaults stay. */
  lemma PrepareAppliesOutgoing(m: DomainMessage, body: seq<byte>, outgoing: Option<OutgoingValues>, props: seq<Property>)
    requires Prepare(m, body, outgoing, props).Ok?
    ensures var e := Prepare(m, body, outgoing, props).value;
      && (outgoing.Some? ==>
        e.scheduledEnqueueTimeUtc == Some(outgoing.value.scheduledEnqueueTimeUtc)
        && e.timeToLive == Some(outgoing.value.timeToLive))
      && (outgoing.None? ==> e.scheduledEnqueueTimeUtc.None? && e.timeToLive.None?)
  {
  }

  /**
   * Correlation of a request: CorrelationId is its RequestId; ReplyToSessionId is its
   * RequesterId when that is non-empty and stays unset otherwise; SessionId stays unset.
   */
  lemma PrepareCorrelatesRequest(m: DomainMessage, body: seq<byte>, outgoing: Option<OutgoingValues>, props: seq<Property>)
    requires m.request.Some? && Prepare(m, body, outgoing, props).Ok?
    ensures var e := Prepare(m, body, outgoing, props).value;
      && e.correlationId == m.request.value.requestId
      && e.replyToSessionId == (if IsNullOrEmpty(m.request.value.requesterId) then None else m.request.value.requesterId)
      && e.sessionId.None?
  {
  }

  /**
   * Correlation of a response (that is not also a request): CorrelationId is its
   * RequestId; SessionId is its RequesterId when non-empty; ReplyToSessionId stays unset.
   */
  lemma PrepareCorrelatesResponse(m: DomainMessage, body: seq<byte>, outgoing: Option<OutgoingValues>, props: seq<Property>)
    requires m.request.None? && m.response.Some? && Prepare(m, body, outgoing, props).Ok?
    ensures var e := Prepare(m, body, outgoing, props).value;
      && e.correlationId == m.response.value.requestId
      && e.sessionId == (if IsNullOrEmpty(m.response.value.requesterId) then None else m.response.value.requesterId)
      && e.replyToSessionId.None?
  {
  }

  /** A message that is neither a request nor a response carries no correlation data at all. */
  lemma PrepareLeavesPlainMessageUncorrelated(m: DomainMessage, body: seq<byte>, outgoing: Option<OutgoingValues>, props: seq<Property>)
    requires m.request.None? && m.response.None? && Prepare(m, body, outgoing, props).Ok?
    ensures var e := Prepare(m, body, outgoing, props).value;
      e.correlationId.None? && e.sessionId.None? && e.replyToSessionId.None?
  {
  }

  /** `Microsoft.Azure.ServiceBus.Message`'s own `Type.Name`. */
  const EnvelopeTypeName := "Message"

  /**
   * The envelope as MessagePublisher.cs builds it: the tag is the envelope's own type
   * name (line 80), the `as IRequest` / `as IResponse` tests are made on the envelope,
   * which implements neither (lines 88 and 93), and the outgoing properties are looked
   * up for the fresh envelope, which has no entry (line 134).
   */
  function PrepareAsWritten(m: DomainMessage, body: seq<byte>, props: seq<Property>): (r: Result<Envelope, Error>)
    ensures r.Err? ==> r.error.DuplicateKey? && HasKey(props, r.error.key)
    ensures r.Ok? ==> r.value.body == body && |r.value.userProperties| == 1 + |props|
    ensures r.Ok? ==> r.value.userProperties[0] == Property(TypeNameKey, StringValue(EnvelopeTypeName))
  {
    var e := NewEnvelope(body);
    match AddAll([Property(TypeNameKey, StringValue(EnvelopeTypeName))], props)
    case Err(err) => Err(err)
    case Ok(bag) => Ok(e.(userProperties := bag))
  }

  /**
   * As written, every published envelope is tagged "Message" and carries neither
   * correlation identifiers nor outgoing properties, whatever the domain message.
   */
  lemma AsWrittenIgnoresDomainMessage(m: DomainMessage, body: seq<byte>, props: seq<Property>)
    requires PrepareAsWritten(m, body, props).Ok?
    ensures var e := PrepareAsWritten(m, body, props).value;
      && Lookup(e.userProperties, TypeNameKey) == Some(StringValue(EnvelopeTypeName))
      && e.correlationId.None? && e.sessionId.None? && e.replyToSessionId.None?
      && e.scheduledEnqueueTimeUtc.None? && e.timeToLive.None?
  {
    AddAllAppends([Property(TypeNameKey, StringValue(EnvelopeTypeName))], props);
  }

  /**
   * A request of type `TestRequest` with RequestId "TestRequestId" and outgoing
   * properties: the envelope as written differs from the intended one in the tag, the
   * CorrelationId and the scheduled enqueue time.
   */
  lemma AsWrittenCounterexample()
    ensures var m := DomainMessage(7, MessageType("Obvs.AzureServiceBus.Tests", "TestRequest"),
        Some(CorrelationIds(Some("TestRequestId"), None)), None);
      var outgoing := Some(OutgoingValues(Instant(812), Duration(13177)));
      && PrepareAsWritten(m, [], []).Ok? && Prepare(m, [], outgoing, []).Ok?
      && PrepareAsWritten(m, [], []).value.userProperties == [Property(TypeNameKey, StringValue("Message"))]
      && Prepare(m, [], outgoing, []).value.userProperties == [Property(TypeNameKey, StringValue("TestRequest"))]
      && PrepareAsWritten(m, [], []).value.correlationId == None
      && Prepare(m, [], outgoing, []).value.correlationId == Some("TestRequestId")
      && PrepareAsWritten(m, [], []).value.scheduledEnqueueTimeUtc == None
      && Prepare(m, [], outgoing, []).value.scheduledEnqueueTimeUtc == Some(Instant(812))
  {
    var m := DomainMessage(7, MessageType("Obvs.AzureServiceBus.Tests", "TestRequest"),
      Some(CorrelationIds(Some("TestRequestId"), None)), None);
    var outgoing := Some(OutgoingValues(Instant(812), Duration(13177)));
    assert AddAll([Property(TypeNameKey, StringValue("Message"))], []) == Ok([Property(TypeNameKey, StringValue("Message"))]);
    assert AddAll([TypeTag(m)], []) == Ok([TypeTag(m)]);
  }

  /**
   * `SetProperties`: the type tag, then each provider property with `Dictionary.Add`.
   * `message` is a freshly built envelope, so its dictionary starts empty.
   */
  method SetProperties(m: DomainMessage, properties: seq<Property>, message: Envelope) returns (r: Result<Envelope, Error>)
    requires message.userProperties == []
    ensures AddAll([TypeTag(m)], properties).Err? ==> r == Err(AddAll([TypeTag(m)], properties).error)
    ensures AddAll([TypeTag(m)], properties).Ok? ==>
      r == Ok(message.(userProperties := AddAll([TypeTag(m)], properties).value))
  {
    var bag := [TypeTag(m)];
    var i := 0;
    while i < |properties|
      invariant 0 <= i <= |properties|
      invariant AddAll(bag, properties[i..]) == AddAll([TypeTag(m)], properties)
    {
      assert properties[i..][0] == properties[i];
      assert properties[i..][1..] == properties[i + 1..];
      if HasKey(bag, properties[i].key) {
        return Err(DuplicateKey(properties[i].key));
      }
      bag := bag + [properties[i]];
      i := i + 1;
    }
    assert properties[i..] == [];
    r := Ok(message.(userProperties := bag));
  }

  class MessagePublisher {
    const createMessageSender: MessageType -> Sender
    const serialize: DomainMessage -> seq<byte>
    /** `IMessagePropertyProvider<TMessage>.GetProperties`. */
    const getProperties: DomainMessage -> seq<Property>
    const messageOutgoingPropertiesTable: OutgoingPropertiesTable

    /** `_messageTypeMessageSenderMap`. */
    var senders: map<MessageType, Sender>
    /** The types the factory was asked for a sender for, in order. */
    var created: seq<MessageType>
    /** The messages the property provider was asked about, in order. */
    var providerCalls: seq<DomainMessage>
    /** Every envelope sent, with the sender that sent it. */
    var sent: seq<(Sender, Envelope)>
    /** Every `Dispose` call made on a sender. */
    var disposed: seq<Sender>

    /** The cache holds, for each type the factory was asked about once, the sender it made. */
    ghost predicate Valid()
      reads this
    {
      && (forall i, j :: 0 <= i < j < |created| ==> created[i] != created[j])
      && (forall t :: t in senders <==> t in created)
      && (forall i :: 0 <= i < |created| ==> created[i] in senders)
      && (forall t :: t in senders ==> senders[t] == createMessageSender(t))
    }

    constructor (createMessageSender: MessageType -> Sender, serialize: DomainMessage -> seq<byte>,
                 getProperties: DomainMessage -> seq<Property>, messageOutgoingPropertiesTable: OutgoingPropertiesTable)
      ensures Valid()
      ensures this.createMessageSender == createMessageSender && this.serialize == serialize
      ensures this.getProperties == getProperties && this.messageOutgoingPropertiesTable == messageOutgoingPropertiesTable
      ensures senders == map[] && created == [] && providerCalls == [] && sent == [] && disposed == []
    {
      this.createMessageSender := createMessageSender;
      this.serialize := serialize;
      this.getProperties := getProperties;
      this.messageOutgoingPropertiesTable := messageOutgoingPropertiesTable;
      senders := map[];
      created := [];
      providerCalls := [];
      sent := [];
      disposed := [];
    }

    /** `GetMessageSenderForMessageType`: `GetOrAdd` on the cache, keyed by the concrete type. */
    method GetMessageSenderForMessageType(m: DomainMessage) returns (s: Sender)
      requires Valid()
      modifies this`senders, this`created
      ensures Valid()
      ensures s == createMessageSender(m.concreteType)
      ensures senders == old(senders)[m.concreteType := s]
      ensures created == old(created) + (if m.concreteType in old(senders) then [] else [m.concreteType])
    {
      var t := m.concreteType;
      if t in senders {
        s := senders[t];
        return;
      }
      s := createMessageSender(t);
      created := created + [t];
      senders := senders[t := s];
    }

    /** `ApplyAnyOutgoingProperties`, keyed on the domain message; the entry is consumed. */
    method ApplyAnyOutgoingProperties(m: DomainMessage, message: Envelope) returns (r: Envelope)
      modifies messageOutgoingPropertiesTable
      ensures r == ApplyOutgoing(message, old(OutgoingFor(messageOutgoingPropertiesTable, m.identity)))
      ensures messageOutgoingPropertiesTable.entries == old(messageOutgoingPropertiesTable.entries) - {m.identity}
    {
      var outgoingProperties := messageOutgoingPropertiesTable.GetOutgoingPropertiesForMessage(m.identity);
      r := message;
      if outgoingProperties != null {
        r := r.(scheduledEnqueueTimeUtc := Some(outgoingProperties.scheduledEnqueueTimeUtc));
        r := r.(timeToLive := Some(outgoingProperties.timeToLive));
        messageOutgoingPropertiesTable.RemoveOutgoingPropertiesForMessage(m.identity);
      } else {
        assert m.identity !in messageOutgoingPropertiesTable.entries;
        assert messageOutgoingPropertiesTable.entries == messageOutgoingPropertiesTable.entries - {m.identity};
      }
    }

    /**
     * `PublishAsync`: asks the property provider once, builds the envelope, and sends it
     * once through the sender for the concrete type. The outgoing entry is consumed
     * even when adding the properties then fails; in that case nothing is sent and no
     * sender is created. `transport` is how a transport sender answers.
     */
    method PublishAsync(m: DomainMessage, transport: Outcome<Error>) returns (r: Outcome<Error>)
      requires Valid()
      modifies this, messageOutgoingPropertiesTable
      ensures Valid()
      ensures providerCalls == old(providerCalls) + [m]
      ensures messageOutgoingPropertiesTable.entries == old(messageOutgoingPropertiesTable.entries) - {m.identity}
      ensures disposed == old(disposed)
      ensures var expected := Prepare(m, serialize(m), old(OutgoingFor(messageOutgoingPropertiesTable, m.identity)), getProperties(m));
        && (expected.Err? ==>
          r == Fail(expected.error) && sent == old(sent) && senders == old(senders) && created == old(created))
        && (expected.Ok? ==>
          var s := createMessageSender(m.concreteType);
          && senders == old(senders)[m.concreteType := s]
          && created == old(created) + (if m.concreteType in old(senders) then [] else [m.concreteType])
          && sent == old(sent) + [(s, expected.value)]
          && r == SendOutcome(s, expected.value, transport))
    {
      var properties := getProperties(m);
      providerCalls := providerCalls + [m];
      var body := serialize(m);
      var message := NewEnvelope(body);
      message := ApplyAnyOutgoingProperties(m, message);
      message := SetCorrelation(message, m);
      var withProperties := SetProperties(m, properties, message);
      if withProperties.Err? {
        return Fail(withProperties.error);
      }
      message := withProperties.value;
      var sender := GetMessageSenderForMessageType(m);
      sent := sent + [(sender, message)];
      r := SendOutcome(sender, message, transport);
    }

    /** The cached senders, in the order they were created. */
    ghost function CachedSenders(): seq<Sender>
      reads this
      requires Valid()
    {
      var order := created;
      var cache := senders;
      seq(|order|, i requires 0 <= i < |order| => cache[order[i]])
    }

    /** `Dispose`: every cached sender is disposed once. */
    method Dispose()
      requires Valid()
      modifies this`disposed
      ensures disposed == old(disposed) + CachedSenders()
      ensures forall t :: t in senders ==> senders[t] in disposed
    {
      var i := 0;
      while i < |created|
        invariant 0 <= i <= |created|
        invariant disposed == old(disposed) + CachedSenders()[..i]
      {
        disposed := disposed + [senders[created[i]]];
        i := i + 1;
      }
      assert CachedSenders()[..i] == CachedSenders();
      forall t | t in senders
        ensures senders[t] in disposed
      {
        var k :| 0 <= k < |created| && created[k] == t;
        assert CachedSenders()[k] == senders[t];
      }
    }
  }

  /**
   * The constructor's checks, in order: factory, serializer, property provider, outgoing table.
   */
  method NewMessagePublisher(
    messagingEntityFactory: Option<MessageType -> Sender>,
    serializer: Option<DomainMessage -> seq<byte>>,
    propertyProvider: Option<DomainMessage -> seq<Property>>,
    messageOutgoingPropertiesTable: Option<OutgoingPropertiesTable>)
    returns (r: Result<MessagePublisher, Error>)
    ensures messagingEntityFactory.None? ==> r == Err(ArgumentNull("messagingEntityFactory"))
    ensures messagingEntityFactory.Some? && serializer.None? ==> r == Err(ArgumentNull("serializer"))
    ensures messagingEntityFactory.Some? && serializer.Some? && propertyProvider.None? ==>
      r == Err(ArgumentNull("propertyProvider"))
    ensures messagingEntityFactory.Some? && serializer.Some? && propertyProvider.Some? && messageOutgoingPropertiesTable.None? ==>
      r == Err(ArgumentNull("messageOutgoingPropertiesTable"))
    ensures r.Ok? <==>
      messagingEntityFactory.Some? && serializer.Some? && propertyProvider.Some? && messageOutgoingPropertiesTable.Some?
    ensures r.Ok? ==>
      && fresh(r.value) && r.value.Valid()
      && r.value.createMessageSender == messagingEntityFactory.value && r.value.serialize == serializer.value
      && r.value.getProperties == propertyProvider.value
      && r.value.messageOutgoingPropertiesTable == messageOutgoingPropertiesTable.value
      && r.value.senders == map[] && r.value.sent == [] && r.value.created == []
  {
    if messagingEntityFactory.None? {
      return Err(ArgumentNull("messagingEntityFactory"));
    }
    if serializer.None? {
      return Err(ArgumentNull("serializer"));
    }
    if propertyProvider.None? {
      return Err(ArgumentNull("propertyProvider"));
    }
    if messageOutgoingPropertiesTable.None? {
      return Err(ArgumentNull("messageOutgoingPropertiesTable"));
    }
    var p := new MessagePublisher(messagingEntityFactory.value, serializer.value, propertyProvider.value,
      messageOutgoingPropertiesTable.value);
    r := Ok(p);
  }

  /**
   * Two successful publishes of messages with one concrete type ask the factory for a
   * sender at most once, and both envelopes go through that sender. The two messages
   * may be the same object, whose outgoing entry the first publish consumes.
   */
  method PublishSameTypeTwice(p: MessagePublisher, a: DomainMessage, b: DomainMessage)
    returns (first: Outcome<Error>, second: Outcome<Error>)
    requires p.Valid() && a.concreteType == b.concreteType
    requires DistinctKeys([TypeTag(a)] + p.getProperties(a)) && DistinctKeys([TypeTag(b)] + p.getProperties(b))
    modifies p, p.messageOutgoingPropertiesTable
    ensures p.Valid()
    ensures |p.created| <= |old(p.created)| + 1
    ensures a.concreteType in old(p.senders) ==> p.created == old(p.created)
    ensures |p.sent| == |old(p.sent)| + 2
    ensures p.sent[|p.sent| - 2].0 == p.sent[|p.sent| - 1].0 == p.createMessageSender(a.concreteType)
  {
    PrepareTagsFirstThenProviderProperties(a, p.serialize(a), OutgoingFor(p.messageOutgoingPropertiesTable, a.identity), p.getProperties(a));
    first := p.PublishAsync(a, Pass);
    PrepareTagsFirstThenProviderProperties(b, p.serialize(b), OutgoingFor(p.messageOutgoingPropertiesTable, b.identity), p.getProperties(b));
    second := p.PublishAsync(b, Pass);
  }
}
