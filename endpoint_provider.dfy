/**
 * `AzureServiceBusEndpointProvider`: validates its collaborators once, then wires
 * message sources and publishers to the roles of a server or a client endpoint.
 * Sources and publishers are described by what they are built from; the source
 * and publisher behaviour itself is in the `Source` and `Publisher` modules.
 */
module EndpointProvider {
  import opened Core
  import opened Errors
  import opened Mappings
  import opened MessageTables

  /**
   * The type parameters of the provider: the service message type and the five
   * message roles.
   */
  datatype Roles = Roles(
    serviceMessage: MessageType,
    message: MessageType,
    command: MessageType,
    event: MessageType,
    request: MessageType,
    response: MessageType)

  /** The `MessagingEntityFactory` built over the messaging factory and the mapping list. */
  datatype EntityFactory = EntityFactory(messagingFactory: MessagingFactory, mappings: seq<Mapping>)

  /** The constructor's argument checks, in the order the constructor makes them. */
  function ValidateArguments(
    messagingFactory: Option<MessagingFactory>,
    messageSerializer: Option<Handle>,
    messageDeserializerFactory: Option<Handle>,
    messageTypePathMappings: Option<seq<Mapping>>,
    messagePropertyProviderManager: Option<seq<PropertyProviderRegistration>>,
    messageOutgoingPropertiesTable: Option<OutgoingPropertiesTable>): (r: Outcome<Error>)
    ensures r.Pass? <==>
      && messagingFactory.Some? && messageSerializer.Some? && messageDeserializerFactory.Some?
      && messageTypePathMappings.Some? && |messageTypePathMappings.value| > 0
      && messagePropertyProviderManager.Some? && messageOutgoingPropertiesTable.Some?
    ensures messagingFactory.None? ==> r == Fail(ArgumentNull("messagingFactory"))
    ensures messagingFactory.Some? && messageSerializer.None? ==> r == Fail(ArgumentNull("messageSerializer"))
    ensures messagingFactory.Some? && messageSerializer.Some? && messageDeserializerFactory.None? ==>
      r == Fail(ArgumentNull("messageDeserializerFactory"))
    ensures messagingFactory.Some? && messageSerializer.Some? && messageDeserializerFactory.Some? ==>
      && (messageTypePathMappings.None? ==> r == Fail(ArgumentNull("messageTypePathMappings")))
      && (messageTypePathMappings == Some([]) ==> r == Fail(Argument("messageTypePathMappings")))
    ensures (messagingFactory.Some? && messageSerializer.Some? && messageDeserializerFactory.Some?
             && messageTypePathMappings.Some? && |messageTypePathMappings.value| > 0) ==>
      && (messagePropertyProviderManager.None? ==> r == Fail(ArgumentNull("messagePropertyProviderManager")))
      && (messagePropertyProviderManager.Some? && messageOutgoingPropertiesTable.None? ==>
            r == Fail(ArgumentNull("messageOutgoingPropertiesTable")))
    ensures r.Fail? && messageTypePathMappings.Some? && |messageTypePathMappings.value| > 0 ==>
      r.error.ArgumentNull?
  {
    if messagingFactory.None? then Fail(ArgumentNull("messagingFactory"))
    else if messageSerializer.None? then Fail(ArgumentNull("messageSerializer"))
    else if messageDeserializerFactory.None? then Fail(ArgumentNull("messageDeserializerFactory"))
    else if messageTypePathMappings.None? then Fail(ArgumentNull("messageTypePathMappings"))
    else if |messageTypePathMappings.value| == 0 then Fail(Argument("messageTypePathMappings"))
    else if messagePropertyProviderManager.None? then Fail(ArgumentNull("messagePropertyProviderManager"))
    else if messageOutgoingPropertiesTable.None? then Fail(ArgumentNull("messageOutgoingPropertiesTable"))
    else Pass
  }

  predicate IsSourceKind(k: EntityKind)
  {
    k == Queue || k == Subscription
  }

  /**
   * The LINQ query of `GetMessageSource`: the queue and subscription mappings whose
   * type is assignable to `logical`, in list order. `isAssignable(a, b)` is
   * `a.IsAssignableFrom(b)`.
   */
  function SelectSources(ms: seq<Mapping>, logical: MessageType, isAssignable: (MessageType, MessageType) -> bool): (r: seq<Mapping>)
    ensures |r| <= |ms|
    ensures forall m :: m in r <==> m in ms && IsSourceKind(m.entityType) && isAssignable(logical, m.messageType)
    ensures forall m :: multiset(r)[m] == if IsSourceKind(m.entityType) && isAssignable(logical, m.messageType) then multiset(ms)[m] else 0
    ensures Subsequence(r, ms)
  {
    if ms == [] then []
    else
      var rest := SelectSources(ms[1..], logical, isAssignable);
      assert ms == [ms[0]] + ms[1..];
      if IsSourceKind(ms[0].entityType) && isAssignable(logical, ms[0].messageType) then
        assert ([ms[0]] + rest)[1..] == rest;
        [ms[0]] + rest
      else rest
  }

  /** `a` is `b` with some entries dropped: the same entries in the same order. */
  predicate Subsequence<T(==)>(a: seq<T>, b: seq<T>)
    decreases |b|
  {
    a == [] || (b != [] && ((a[0] == b[0] && Subsequence(a[1..], b[1..])) || Subsequence(a, b[1..])))
  }

  /** Topic mappings are never sources, whatever the logical type. */
  lemma TopicsAreNeverSources(ms: seq<Mapping>, logical: MessageType, isAssignable: (MessageType, MessageType) -> bool)
    ensures forall m :: m in SelectSources(ms, logical, isAssignable) ==> m.entityType != Topic
  {
  }

  /** What `IMessageDeserializerFactory.Create<T, TServiceMessage>(assemblyFilter, typeFilter)` is asked for. */
  datatype DeserializerRequest = DeserializerRequest(
    factory: Handle,
    messageType: MessageType,
    serviceMessageType: MessageType,
    assemblyFilter: Option<Handle>,
    typeFilter: Option<Handle>)

  /** A `MessageSource<T>` for one mapping, with what it is given. */
  datatype SourceBinding = SourceBinding(
    mapping: Mapping,
    entityFactory: EntityFactory,
    deserializers: DeserializerRequest,
    messageTable: DefaultMessageMessageTable)

  /** A single source, or a `MergedMessageSource` over any number of members. */
  datatype SourceSpec = SingleSource(source: SourceBinding) | MergedSource(members: seq<SourceBinding>)

  function Members(s: SourceSpec): seq<SourceBinding>
  {
    match s
    case SingleSource(b) => [b]
    case MergedSource(bs) => bs
  }

  /** A `MessagePublisher<T>` with what it is given; the property provider is the one registered for `role`. */
  datatype PublisherBinding = PublisherBinding(
    role: MessageType,
    entityFactory: EntityFactory,
    serializer: Handle,
    propertyProviders: seq<PropertyProviderRegistration>,
    outgoingTable: OutgoingPropertiesTable)

  /** `ServiceEndpoint`: what a server receives and publishes. */
  datatype ServiceEndpoint = ServiceEndpoint(
    requestSource: SourceSpec,
    commandSource: SourceSpec,
    eventPublisher: PublisherBinding,
    responsePublisher: PublisherBinding,
    serviceMessageType: MessageType)

  /** `ServiceEndpointClient`: what a client receives and publishes. */
  datatype ServiceEndpointClient = ServiceEndpointClient(
    eventSource: SourceSpec,
    responseSource: SourceSpec,
    requestPublisher: PublisherBinding,
    commandPublisher: PublisherBinding,
    serviceMessageType: MessageType)

  class AzureServiceBusEndpointProvider {
    const serviceName: Option<string>
    const roles: Roles
    const isAssignable: (MessageType, MessageType) -> bool
    const messageSerializer: Handle
    const messageDeserializerFactory: Handle
    const assemblyFilter: Option<Handle>
    const typeFilter: Option<Handle>
    const messageTypePathMappings: seq<Mapping>
    const messagePropertyProviderManager: seq<PropertyProviderRegistration>
    const messageOutgoingPropertiesTable: OutgoingPropertiesTable
    const messagingEntityFactory: EntityFactory
    /** `MessageMessageTable.ConfiguredInstance`, handed to every source. */
    const messageTable: DefaultMessageMessageTable

    /** The constructor after its checks have passed. */
    constructor (
      serviceName: Option<string>,
      roles: Roles,
      isAssignable: (MessageType, MessageType) -> bool,
      messagingFactory: MessagingFactory,
      messageSerializer: Handle,
      messageDeserializerFactory: Handle,
      messageTypePathMappings: seq<Mapping>,
      assemblyFilter: Option<Handle>,
      typeFilter: Option<Handle>,
      messagePropertyProviderManager: seq<PropertyProviderRegistration>,
      messageOutgoingPropertiesTable: OutgoingPropertiesTable,
      messageTable: DefaultMessageMessageTable)
      requires |messageTypePathMappings| > 0
      ensures this.serviceName == serviceName && this.roles == roles && this.isAssignable == isAssignable
      ensures this.messageSerializer == messageSerializer
      ensures this.messageDeserializerFactory == messageDeserializerFactory
      ensures this.messageTypePathMappings == messageTypePathMappings
      ensures this.assemblyFilter == assemblyFilter && this.typeFilter == typeFilter
      ensures this.messagePropertyProviderManager == messagePropertyProviderManager
      ensures this.messageOutgoingPropertiesTable == messageOutgoingPropertiesTable
      ensures this.messagingEntityFactory == EntityFactory(messagingFactory, messageTypePathMappings)
      ensures this.messageTable == messageTable
    {
      this.serviceName := serviceName;
      this.roles := roles;
      this.isAssignable := isAssignable;
      this.messageSerializer := messageSerializer;
      this.messageDeserializerFactory := messageDeserializerFactory;
      this.assemblyFilter := assemblyFilter;
      this.typeFilter := typeFilter;
      this.messageTypePathMappings := messageTypePathMappings;
      this.messagePropertyProviderManager := messagePropertyProviderManager;
      this.messageOutgoingPropertiesTable := messageOutgoingPropertiesTable;
      this.messagingEntityFactory := EntityFactory(messagingFactory, messageTypePathMappings);
      this.messageTable := messageTable;
    }

    /** `CreateMessageSource`: a plain `MessageSource<T>` for the mapping's own type. */
    function CreateMessageSource(m: Mapping): (b: SourceBinding)
      ensures b.mapping == m && b.entityFactory == messagingEntityFactory && b.messageTable == messageTable
      ensures b.deserializers == DeserializerRequest(messageDeserializerFactory, m.messageType, roles.serviceMessage, assemblyFilter, typeFilter)
    {
      SourceBinding(m, messagingEntityFactory,
        DeserializerRequest(messageDeserializerFactory, m.messageType, roles.serviceMessage, assemblyFilter, typeFilter),
        messageTable)
    }

    /** `GetMessageSource<T>`: a single source for exactly one selected mapping, a merged one otherwise. */
    function GetMessageSource(logical: MessageType): (r: SourceSpec)
      ensures var selected := SelectSources(messageTypePathMappings, logical, isAssignable);
        && (r.SingleSource? <==> |selected| == 1)
        && |Members(r)| == |selected|
        && forall i :: 0 <= i < |selected| ==> Members(r)[i] == CreateMessageSource(selected[i])
    {
      var selected := SelectSources(messageTypePathMappings, logical, isAssignable);
      if |selected| == 1 then SingleSource(CreateMessageSource(selected[0]))
      else MergedSource(seq(|selected|, i requires 0 <= i < |selected| => CreateMessageSource(selected[i])))
    }

    function CreatePublisher(role: MessageType): (p: PublisherBinding)
      ensures p.role == role && p.entityFactory == messagingEntityFactory && p.serializer == messageSerializer
      ensures p.propertyProviders == messagePropertyProviderManager && p.outgoingTable == messageOutgoingPropertiesTable
    {
      PublisherBinding(role, messagingEntityFactory, messageSerializer, messagePropertyProviderManager, messageOutgoingPropertiesTable)
    }

    /** `CreateEndpoint`: a server receives requests and commands and publishes events and responses. */
    function CreateEndpoint(): (e: ServiceEndpoint)
      ensures e.requestSource == GetMessageSource(roles.request)
      ensures e.commandSource == GetMessageSource(roles.command)
      ensures e.eventPublisher == CreatePublisher(roles.event)
      ensures e.responsePublisher == CreatePublisher(roles.response)
      ensures e.serviceMessageType == roles.serviceMessage
    {
      ServiceEndpoint(
        GetMessageSource(roles.request),
        GetMessageSource(roles.command),
        CreatePublisher(roles.event),
        CreatePublisher(roles.response),
        roles.serviceMessage)
    }

    /** `CreateEndpointClient`: a client receives events and responses and publishes requests and commands. */
    function CreateEndpointClient(): (c: ServiceEndpointClient)
      ensures c.eventSource == GetMessageSource(roles.event)
      ensures c.responseSource == GetMessageSource(roles.response)
      ensures c.requestPublisher == CreatePublisher(roles.request)
      ensures c.commandPublisher == CreatePublisher(roles.command)
      ensures c.serviceMessageType == roles.serviceMessage
    {
      ServiceEndpointClient(
        GetMessageSource(roles.event),
        GetMessageSource(roles.response),
        CreatePublisher(roles.request),
        CreatePublisher(roles.command),
        roles.serviceMessage)
    }
  }

  /**
   * Every member of the source built for `logical` comes from a queue or subscription
   * mapping assignable to it, and every such mapping has a member.
   */
  lemma {:induction false} SourceMembersAreTheMatchingMappings(p: AzureServiceBusEndpointProvider, logical: MessageType)
    ensures forall b :: b in Members(p.GetMessageSource(logical)) ==>
      b.mapping in p.messageTypePathMappings && IsSourceKind(b.mapping.entityType)
      && p.isAssignable(logical, b.mapping.messageType)
    ensures forall m :: m in p.messageTypePathMappings && IsSourceKind(m.entityType) && p.isAssignable(logical, m.messageType) ==>
      p.CreateMessageSource(m) in Members(p.GetMessageSource(logical))
  {
    var selected := SelectSources(p.messageTypePathMappings, logical, p.isAssignable);
    var members := Members(p.GetMessageSource(logical));
    forall b | b in members
      ensures b.mapping in p.messageTypePathMappings && IsSourceKind(b.mapping.entityType)
      ensures p.isAssignable(logical, b.mapping.messageType)
    {
      var i :| 0 <= i < |members| && members[i] == b;
      assert selected[i] in selected;
    }
    forall m | m in p.messageTypePathMappings && IsSourceKind(m.entityType) && p.isAssignable(logical, m.messageType)
      ensures p.CreateMessageSource(m) in members
    {
      var i :| 0 <= i < |selected| && selected[i] == m;
      assert members[i] == p.CreateMessageSource(m);
    }
  }

  /**
   * A client is the mirror of a server: it receives from the sources of the roles a
   * server publishes, and publishes the roles a server receives.
   */
  lemma ClientMirrorsServer(p: AzureServiceBusEndpointProvider)
    ensures p.CreateEndpointClient().eventSource == p.GetMessageSource(p.CreateEndpoint().eventPublisher.role)
    ensures p.CreateEndpointClient().responseSource == p.GetMessageSource(p.CreateEndpoint().responsePublisher.role)
    ensures p.CreateEndpoint().requestSource == p.GetMessageSource(p.CreateEndpointClient().requestPublisher.role)
    ensures p.CreateEndpoint().commandSource == p.GetMessageSource(p.CreateEndpointClient().commandPublisher.role)
  {
  }

  /**
   * The constructor with its checks: any failing check is reported in order and no
   * provider is built; otherwise the provider holds exactly the given collaborators.
   */
  method NewEndpointProvider(
    serviceName: Option<string>,
    roles: Roles,
    isAssignable: (MessageType, MessageType) -> bool,
    messagingFactory: Option<MessagingFactory>,
    messageSerializer: Option<Handle>,
    messageDeserializerFactory: Option<Handle>,
    messageTypePathMappings: Option<seq<Mapping>>,
    assemblyFilter: Option<Handle>,
    typeFilter: Option<Handle>,
    messagePropertyProviderManager: Option<seq<PropertyProviderRegistration>>,
    messageOutgoingPropertiesTable: Option<OutgoingPropertiesTable>,
    messageTable: DefaultMessageMessageTable)
    returns (r: Result<AzureServiceBusEndpointProvider, Error>)
    ensures var check := ValidateArguments(messagingFactory, messageSerializer, messageDeserializerFactory,
        messageTypePathMappings, messagePropertyProviderManager, messageOutgoingPropertiesTable);
      && (r.Err? <==> check.Fail?)
      && (r.Err? ==> r.error == check.error)
    ensures r.Ok? ==>
      && fresh(r.value)
      && r.value.serviceName == serviceName && r.value.roles == roles && r.value.isAssignable == isAssignable
      && r.value.messageSerializer == messageSerializer.value
      && r.value.messageDeserializerFactory == messageDeserializerFactory.value
      && r.value.messageTypePathMappings == messageTypePathMappings.value
      && r.value.assemblyFilter == assemblyFilter && r.value.typeFilter == typeFilter
      && r.value.messagePropertyProviderManager == messagePropertyProviderManager.value
      && r.value.messageOutgoingPropertiesTable == messageOutgoingPropertiesTable.value
      && r.value.messagingEntityFactory == EntityFactory(messagingFactory.value, messageTypePathMappings.value)
      && r.value.messageTable == messageTable
  {
    var check := ValidateArguments(messagingFactory, messageSerializer, messageDeserializerFactory,
      messageTypePathMappings, messagePropertyProviderManager, messageOutgoingPropertiesTable);
    if check.Fail? {
      return Err(check.error);
    }
    var p := new AzureServiceBusEndpointProvider(serviceName, roles, isAssignable, messagingFactory.value,
      messageSerializer.value, messageDeserializerFactory.value, messageTypePathMappings.value,
      assemblyFilter, typeFilter, messagePropertyProviderManager.value, messageOutgoingPropertiesTable.value,
      messageTable);
    r := Ok(p);
  }
}
