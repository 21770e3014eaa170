/**
 * `AzureServiceBusFluentConfig`: the builder that collects a service name, codecs,
 * a messaging factory, a namespace manager, an entity verifier, property providers
 * and the mapping list, then creates the endpoint provider.
 */
module FluentConfig {
  import opened Core
  import opened Errors
  import opened ReceiveModes
  import opened Mappings
  import opened MessageTables
  import opened EndpointProvider

  /** The `UsingMessagePropertyProviderFor` checks: null first, then assignability to the service message type. */
  function ValidatePropertyProvider(
    serviceMessage: MessageType, providerType: MessageType, provider: Option<Handle>,
    isAssignable: (MessageType, MessageType) -> bool): (r: Outcome<Error>)
    ensures provider.None? ==> r == Fail(ArgumentNull("provider"))
    ensures provider.Some? ==>
      (r.Pass? <==> isAssignable(serviceMessage, providerType))
      && (r.Fail? ==> r == Fail(Argument("messagePropertyProvider")))
  {
    if provider.None? then Fail(ArgumentNull("provider"))
    else if !isAssignable(serviceMessage, providerType) then Fail(Argument("messagePropertyProvider"))
    else Pass
  }

  /** The checks of `WithNamespaceManager(resourceGroupName, namespaceName, client)`. */
  function ValidateResourceGroup(resourceGroupName: Option<string>, namespaceName: Option<string>, client: Option<Handle>): (r: Outcome<Error>)
    ensures r.Pass? <==> !IsNullOrEmpty(resourceGroupName) && !IsNullOrEmpty(namespaceName) && client.Some?
    ensures IsNullOrEmpty(resourceGroupName) ==> r == Fail(ArgumentNull("resourceGroupName"))
    // The source names `resourceGroupName` also when the namespace name is missing.
    ensures !IsNullOrEmpty(resourceGroupName) && IsNullOrEmpty(namespaceName) ==> r == Fail(ArgumentNull("resourceGroupName"))
    ensures !IsNullOrEmpty(resourceGroupName) && !IsNullOrEmpty(namespaceName) && client.None? ==>
      r == Fail(ArgumentNull("serviceBusManagementClient"))
  {
    if IsNullOrEmpty(resourceGroupName) then Fail(ArgumentNull("resourceGroupName"))
    else if IsNullOrEmpty(namespaceName) then Fail(ArgumentNull("resourceGroupName"))
    else if client.None? then Fail(ArgumentNull("serviceBusManagementClient"))
    else Pass
  }

  /** One call of `IMessagingEntityVerifier.EnsureMessagingEntitiesExist`. */
  datatype VerifierCall = VerifierCall(verifier: EntityVerifier, mappings: seq<Mapping>)

  class AzureServiceBusFluentConfig {
    const roles: Roles
    const isAssignable: (MessageType, MessageType) -> bool
    /** `MessageOutgoingPropertiesTable.ConfiguredInstance`, read when the builder is created. */
    const messageOutgoingPropertiesTable: OutgoingPropertiesTable
    /** `MessageMessageTable.ConfiguredInstance`, handed on to the endpoint provider's sources. */
    const messageTable: DefaultMessageMessageTable

    var serviceName: Option<string>
    var serializer: Option<Handle>
    var deserializerFactory: Option<Handle>
    var assemblyFilter: Option<Handle>
    var typeFilter: Option<Handle>
    var messageTypePathMappings: seq<Mapping>
    var messagingFactory: Option<MessagingFactory>
    var namespaceManager: Option<NamespaceManager>
    /** The `MessagePropertyProviderManager`'s registrations, in the order they were added. */
    var messagePropertyProviderManager: seq<PropertyProviderRegistration>
    var messagingEntityVerifier: Option<EntityVerifier>
    /** The verifier calls made so far, in order. */
    var verifierCalls: seq<VerifierCall>

    ghost predicate Valid()
      reads this
    {
      UniqueKeys(messageTypePathMappings)
    }

    constructor (roles: Roles, isAssignable: (MessageType, MessageType) -> bool,
                 messageOutgoingPropertiesTable: OutgoingPropertiesTable, messageTable: DefaultMessageMessageTable)
      ensures Valid()
      ensures this.roles == roles && this.isAssignable == isAssignable
      ensures this.messageOutgoingPropertiesTable == messageOutgoingPropertiesTable && this.messageTable == messageTable
      ensures serviceName.None? && serializer.None? && deserializerFactory.None?
      ensures assemblyFilter.None? && typeFilter.None? && messagingFactory.None? && namespaceManager.None?
      ensures messagingEntityVerifier.None?
      ensures messageTypePathMappings == [] && messagePropertyProviderManager == [] && verifierCalls == []
    {
      this.roles := roles;
      this.isAssignable := isAssignable;
      this.messageOutgoingPropertiesTable := messageOutgoingPropertiesTable;
      this.messageTable := messageTable;
      serviceName := None;
      serializer := None;
      deserializerFactory := None;
      assemblyFilter := None;
      typeFilter := None;
      messageTypePathMappings := [];
      messagingFactory := None;
      namespaceManager := None;
      messagePropertyProviderManager := [];
      messagingEntityVerifier := None;
      verifierCalls := [];
    }

    method Named(serviceName: Option<string>)
      modifies this
      ensures this.serviceName == serviceName
      ensures unchanged(this`serializer, this`deserializerFactory, this`messageTypePathMappings, this`messagingFactory)
      ensures unchanged(this`namespaceManager, this`messagingEntityVerifier, this`messagePropertyProviderManager)
      ensures unchanged(this`assemblyFilter, this`typeFilter, this`verifierCalls)
    {
      this.serviceName := serviceName;
    }

    method SerializedWith(serializer: Option<Handle>, deserializerFactory: Option<Handle>)
      modifies this
      ensures this.serializer == serializer && this.deserializerFactory == deserializerFactory
      ensures unchanged(this`serviceName, this`messageTypePathMappings, this`messagingFactory)
      ensures unchanged(this`namespaceManager, this`messagingEntityVerifier, this`messagePropertyProviderManager)
      ensures unchanged(this`assemblyFilter, this`typeFilter, this`verifierCalls)
    {
      this.serializer := serializer;
      this.deserializerFactory := deserializerFactory;
    }

    method FilterMessageTypeAssemblies(assemblyFilter: Option<Handle>, typeFilter: Option<Handle>)
      modifies this
      ensures this.assemblyFilter == assemblyFilter && this.typeFilter == typeFilter
      ensures unchanged(this`serviceName, this`serializer, this`deserializerFactory, this`messageTypePathMappings)
      ensures unchanged(this`messagingFactory, this`namespaceManager, this`messagingEntityVerifier)
      ensures unchanged(this`messagePropertyProviderManager, this`verifierCalls)
    {
      this.assemblyFilter := assemblyFilter;
      this.typeFilter := typeFilter;
    }

    /** `WithNamespaceManager(INamespaceManager)`: a null manager is refused and nothing changes. */
    method WithNamespaceManager(namespaceManager: Option<NamespaceManager>) returns (r: Outcome<Error>)
      modifies this
      ensures namespaceManager.None? ==> r == Fail(ArgumentNull("namespaceManager")) && this.namespaceManager == old(this.namespaceManager)
      ensures namespaceManager.Some? ==> r == Pass && this.namespaceManager == namespaceManager
      ensures unchanged(this`serviceName, this`serializer, this`deserializerFactory, this`messageTypePathMappings)
      ensures unchanged(this`messagingFactory, this`messagingEntityVerifier, this`messagePropertyProviderManager)
      ensures unchanged(this`assemblyFilter, this`typeFilter, this`verifierCalls)
    {
      if namespaceManager.None? {
        return Fail(ArgumentNull("namespaceManager"));
      }
      this.namespaceManager := namespaceManager;
      r := Pass;
    }

    /**
     * `WithConnectionString`: a null string is refused; any other string reaches
     * `NamespaceManagerWrapper.CreateFromConnectionString`, which is not implemented and
     * throws, so no manager is ever installed this way.
     */
    method WithConnectionString(connectionString: Option<string>) returns (r: Outcome<Error>)
      modifies this
      ensures connectionString.None? ==> r == Fail(ArgumentNull("connectionString"))
      ensures connectionString.Some? ==> r == Fail(NotImplemented(NotImplementedMessage))
      ensures namespaceManager == old(namespaceManager)
      ensures unchanged(this`serviceName, this`serializer, this`deserializerFactory, this`messageTypePathMappings)
      ensures unchanged(this`messagingFactory, this`messagingEntityVerifier, this`messagePropertyProviderManager)
      ensures unchanged(this`assemblyFilter, this`typeFilter, this`verifierCalls)
    {
      if connectionString.None? {
        return Fail(ArgumentNull("connectionString"));
      }
      r := Fail(NotImplemented(NotImplementedMessage));
    }

    /** `WithNamespaceManager(resourceGroupName, namespaceName, client)`. */
    method WithNamespaceManagerFor(resourceGroupName: Option<string>, namespaceName: Option<string>, client: Option<Handle>)
      returns (r: Outcome<Error>)
      modifies this
      ensures r == ValidateResourceGroup(resourceGroupName, namespaceName, client)
      ensures r.Fail? ==> namespaceManager == old(namespaceManager)
      ensures r.Pass? ==> namespaceManager == Some(ForResourceGroup(resourceGroupName.value, namespaceName.value, client.value))
      ensures unchanged(this`serviceName, this`serializer, this`deserializerFactory, this`messageTypePathMappings)
      ensures unchanged(this`messagingFactory, this`messagingEntityVerifier, this`messagePropertyProviderManager)
      ensures unchanged(this`assemblyFilter, this`typeFilter, this`verifierCalls)
    {
      r := ValidateResourceGroup(resourceGroupName, namespaceName, client);
      if r.Fail? {
        return;
      }
      r := WithNamespaceManager(Some(ForResourceGroup(resourceGroupName.value, namespaceName.value, client.value)));
    }

    /** `WithMessagingFactory(IMessagingFactory)`: a null factory is refused and nothing changes. */
    method WithMessagingFactory(messagingFactory: Option<MessagingFactory>) returns (r: Outcome<Error>)
      modifies this
      ensures messagingFactory.None? ==> r == Fail(ArgumentNull("messagingFactory")) && this.messagingFactory == old(this.messagingFactory)
      ensures messagingFactory.Some? ==> r == Pass && this.messagingFactory == messagingFactory
      ensures unchanged(this`serviceName, this`serializer, this`deserializerFactory, this`messageTypePathMappings)
      ensures unchanged(this`namespaceManager, this`messagingEntityVerifier, this`messagePropertyProviderManager)
      ensures unchanged(this`assemblyFilter, this`typeFilter, this`verifierCalls)
    {
      if messagingFactory.None? {
        return Fail(ArgumentNull("messagingFactory"));
      }
      this.messagingFactory := messagingFactory;
      r := Pass;
    }

    /**
     * `WithMessagingFactory(string)`: the `MessagingFactoryWrapper` constructor refuses a
     * null or empty connection string.
     */
    method WithMessagingFactoryFromConnectionString(namespaceConnectionString: Option<string>) returns (r: Outcome<Error>)
      modifies this
      ensures IsNullOrEmpty(namespaceConnectionString) ==>
        r == Fail(ArgumentNull("namespaceConnectionString")) && messagingFactory == old(messagingFactory)
      ensures !IsNullOrEmpty(namespaceConnectionString) ==>
        r == Pass && messagingFactory == Some(ConnectionStringFactory(namespaceConnectionString.value))
      ensures unchanged(this`serviceName, this`serializer, this`deserializerFactory, this`messageTypePathMappings)
      ensures unchanged(this`namespaceManager, this`messagingEntityVerifier, this`messagePropertyProviderManager)
      ensures unchanged(this`assemblyFilter, this`typeFilter, this`verifierCalls)
    {
      if IsNullOrEmpty(namespaceConnectionString) {
        return Fail(ArgumentNull("namespaceConnectionString"));
      }
      r := WithMessagingFactory(Some(ConnectionStringFactory(namespaceConnectionString.value)));
    }

    method WithMessagingEntityVerifier(messagingEntityVerifier: Option<EntityVerifier>) returns (r: Outcome<Error>)
      modifies this
      ensures messagingEntityVerifier.None? ==>
        r == Fail(ArgumentNull("messagingEntityVerifier")) && this.messagingEntityVerifier == old(this.messagingEntityVerifier)
      ensures messagingEntityVerifier.Some? ==> r == Pass && this.messagingEntityVerifier == messagingEntityVerifier
      ensures unchanged(this`serviceName, this`serializer, this`deserializerFactory, this`messageTypePathMappings)
      ensures unchanged(this`messagingFactory, this`namespaceManager, this`messagePropertyProviderManager)
      ensures unchanged(this`assemblyFilter, this`typeFilter, this`verifierCalls)
    {
      if messagingEntityVerifier.None? {
        return Fail(ArgumentNull("messagingEntityVerifier"));
      }
      this.messagingEntityVerifier := messagingEntityVerifier;
      r := Pass;
    }

    /** `AddMessageTypePathMapping`: the list changes only when the add succeeds. */
    method AddMessageTypePathMapping(m: Mapping) returns (r: Outcome<Error>)
      requires Valid()
      modifies this`messageTypePathMappings
      ensures Valid()
      ensures var expected := AddMapping(old(messageTypePathMappings), m);
        && (r.Fail? <==> expected.Err?)
        && (r.Fail? ==> r.error == expected.error && messageTypePathMappings == old(messageTypePathMappings))
        && (r.Pass? ==> messageTypePathMappings == expected.value)
    {
      var existing := FirstWithKey(messageTypePathMappings, m);
      if existing.Some? {
        return Fail(MappingAlreadyExists(existing.value.messageType, existing.value.entityType));
      }
      AddMappingKeepsUniqueKeys(messageTypePathMappings, m);
      messageTypePathMappings := messageTypePathMappings + [m];
      r := Pass;
    }

    /** `UsingQueueFor<T>(queuePath)`: receive-and-delete, no creation options. */
    method UsingQueueFor(t: MessageType, queuePath: string) returns (r: Outcome<Error>)
      requires Valid()
      modifies this`messageTypePathMappings
      ensures Valid()
      ensures var expected := AddMapping(old(messageTypePathMappings), Mapping(t, queuePath, Queue, NoCreationOptions, Some(ReceiveAndDelete)));
        && (r.Fail? <==> expected.Err?)
        && (r.Fail? ==> r.error == expected.error && messageTypePathMappings == old(messageTypePathMappings))
        && (r.Pass? ==> messageTypePathMappings == expected.value)
    {
      r := UsingQueueForMode(t, queuePath, ReceiveAndDelete);
    }

    /** `UsingQueueFor<T>(queuePath, receiveMode)`: no creation options. */
    method UsingQueueForMode(t: MessageType, queuePath: string, receiveMode: ReceiveMode) returns (r: Outcome<Error>)
      requires Valid()
      modifies this`messageTypePathMappings
      ensures Valid()
      ensures var expected := AddMapping(old(messageTypePathMappings), Mapping(t, queuePath, Queue, NoCreationOptions, Some(receiveMode)));
        && (r.Fail? <==> expected.Err?)
        && (r.Fail? ==> r.error == expected.error && messageTypePathMappings == old(messageTypePathMappings))
        && (r.Pass? ==> messageTypePathMappings == expected.value)
    {
      r := UsingQueueForModeAndOptions(t, queuePath, receiveMode, NoCreationOptions);
    }

    /** `UsingQueueFor<T>(queuePath, creationOptions)`: receive-and-delete. */
    method UsingQueueForOptions(t: MessageType, queuePath: string, creationOptions: CreationOptions) returns (r: Outcome<Error>)
      requires Valid()
      modifies this`messageTypePathMappings
      ensures Valid()
      ensures var expected := AddMapping(old(messageTypePathMappings), Mapping(t, queuePath, Queue, creationOptions, Some(ReceiveAndDelete)));
        && (r.Fail? <==> expected.Err?)
        && (r.Fail? ==> r.error == expected.error && messageTypePathMappings == old(messageTypePathMappings))
        && (r.Pass? ==> messageTypePathMappings == expected.value)
    {
      r := UsingQueueForModeAndOptions(t, queuePath, ReceiveAndDelete, creationOptions);
    }

    method UsingQueueForModeAndOptions(t: MessageType, queuePath: string, receiveMode: ReceiveMode, creationOptions: CreationOptions)
      returns (r: Outcome<Error>)
      requires Valid()
      modifies this`messageTypePathMappings
      ensures Valid()
      ensures var expected := AddMapping(old(messageTypePathMappings), Mapping(t, queuePath, Queue, creationOptions, Some(receiveMode)));
        && (r.Fail? <==> expected.Err?)
        && (r.Fail? ==> r.error == expected.error && messageTypePathMappings == old(messageTypePathMappings))
        && (r.Pass? ==> messageTypePathMappings == expected.value)
    {
      r := AddMessageTypePathMapping(Mapping(t, queuePath, Queue, creationOptions, Some(receiveMode)));
    }

    /** `UsingTopicFor<T>(topicPath)`: no creation options. */
    method UsingTopicFor(t: MessageType, topicPath: string) returns (r: Outcome<Error>)
      requires Valid()
      modifies this`messageTypePathMappings
      ensures Valid()
      ensures var expected := AddMapping(old(messageTypePathMappings), Mapping(t, topicPath, Topic, NoCreationOptions, None));
        && (r.Fail? <==> expected.Err?)
        && (r.Fail? ==> r.error == expected.error && messageTypePathMappings == old(messageTypePathMappings))
        && (r.Pass? ==> messageTypePathMappings == expected.value)
    {
      r := UsingTopicForOptions(t, topicPath, NoCreationOptions);
    }

    method UsingTopicForOptions(t: MessageType, topicPath: string, creationOptions: CreationOptions) returns (r: Outcome<Error>)
      requires Valid()
      modifies this`messageTypePathMappings
      ensures Valid()
      ensures var expected := AddMapping(old(messageTypePathMappings), Mapping(t, topicPath, Topic, creationOptions, None));
        && (r.Fail? <==> expected.Err?)
        && (r.Fail? ==> r.error == expected.error && messageTypePathMappings == old(messageTypePathMappings))
        && (r.Pass? ==> messageTypePathMappings == expected.value)
    {
      r := AddMessageTypePathMapping(Mapping(t, topicPath, Topic, creationOptions, None));
    }

    /** `UsingSubscriptionFor<T>(topicPath, subscriptionName)`: receive-and-delete, no creation options. */
    method UsingSubscriptionFor(t: MessageType, topicPath: string, subscriptionName: string) returns (r: Outcome<Error>)
      requires Valid()
      modifies this`messageTypePathMappings
      ensures Valid()
      ensures var expected := AddMapping(old(messageTypePathMappings),
          Mapping(t, SubscriptionPath(topicPath, subscriptionName), Subscription, NoCreationOptions, Some(ReceiveAndDelete)));
        && (r.Fail? <==> expected.Err?)
        && (r.Fail? ==> r.error == expected.error && messageTypePathMappings == old(messageTypePathMappings))
        && (r.Pass? ==> messageTypePathMappings == expected.value)
    {
      r := UsingSubscriptionForOptions(t, topicPath, subscriptionName, NoCreationOptions);
    }

    /** `UsingSubscriptionFor<T>(topicPath, subscriptionName, receiveMode)`: no creation options. */
    method UsingSubscriptionForMode(t: MessageType, topicPath: string, subscriptionName: string, receiveMode: ReceiveMode)
      returns (r: Outcome<Error>)
      requires Valid()
      modifies this`messageTypePathMappings
      ensures Valid()
      ensures var expected := AddMapping(old(messageTypePathMappings),
          Mapping(t, SubscriptionPath(topicPath, subscriptionName), Subscription, NoCreationOptions, Some(receiveMode)));
        && (r.Fail? <==> expected.Err?)
        && (r.Fail? ==> r.error == expected.error && messageTypePathMappings == old(messageTypePathMappings))
        && (r.Pass? ==> messageTypePathMappings == expected.value)
    {
      r := UsingSubscriptionForModeAndOptions(t, topicPath, subscriptionName, receiveMode, NoCreationOptions);
    }

    /** `UsingSubscriptionFor<T>(topicPath, subscriptionName, creationOptions)`: receive-and-delete. */
    method UsingSubscriptionForOptions(t: MessageType, topicPath: string, subscriptionName: string, creationOptions: CreationOptions)
      returns (r: Outcome<Error>)
      requires Valid()
      modifies this`messageTypePathMappings
      ensures Valid()
      ensures var expected := AddMapping(old(messageTypePathMappings),
          Mapping(t, SubscriptionPath(topicPath, subscriptionName), Subscription, creationOptions, Some(ReceiveAndDelete)));
        && (r.Fail? <==> expected.Err?)
        && (r.Fail? ==> r.error == expected.error && messageTypePathMappings == old(messageTypePathMappings))
        && (r.Pass? ==> messageTypePathMappings == expected.value)
    {
      r := UsingSubscriptionForModeAndOptions(t, topicPath, subscriptionName, ReceiveAndDelete, creationOptions);
    }

    method UsingSubscriptionForModeAndOptions(
      t: MessageType, topicPath: string, subscriptionName: string, receiveMode: ReceiveMode, creationOptions: CreationOptions)
      returns (r: Outcome<Error>)
      requires Valid()
      modifies this`messageTypePathMappings
      ensures Valid()
      ensures var expected := AddMapping(old(messageTypePathMappings),
          Mapping(t, SubscriptionPath(topicPath, subscriptionName), Subscription, creationOptions, Some(receiveMode)));
        && (r.Fail? <==> expected.Err?)
        && (r.Fail? ==> r.error == expected.error && messageTypePathMappings == old(messageTypePathMappings))
        && (r.Pass? ==> messageTypePathMappings == expected.value)
    {
      r := AddMessageTypePathMapping(
        Mapping(t, SubscriptionPath(topicPath, subscriptionName), Subscription, creationOptions, Some(receiveMode)));
    }

    /** `UsingMessagePropertyProviderFor<T>`: registers the provider only when both checks pass. */
    method UsingMessagePropertyProviderFor(t: MessageType, messagePropertyProvider: Option<Handle>) returns (r: Outcome<Error>)
      modifies this`messagePropertyProviderManager
      ensures r == ValidatePropertyProvider(roles.serviceMessage, t, messagePropertyProvider, isAssignable)
      ensures r.Fail? ==> messagePropertyProviderManager == old(messagePropertyProviderManager)
      ensures r.Pass? ==>
        messagePropertyProviderManager == old(messagePropertyProviderManager) + [PropertyProviderRegistration(t, messagePropertyProvider.value)]
    {
      r := ValidatePropertyProvider(roles.serviceMessage, t, messagePropertyProvider, isAssignable);
      if r.Fail? {
        return;
      }
      messagePropertyProviderManager := messagePropertyProviderManager + [PropertyProviderRegistration(t, messagePropertyProvider.value)];
    }

    /**
     * `CreateProvider` (behind `AsClient`, `AsServer` and `AsClientAndServer`). Without a
     * messaging factory it throws before doing anything. Otherwise it installs the default
     * verifier when none was given, asks the verifier exactly once to ensure the mapped
     * entities exist (`verification` is how that call ends), and then constructs the
     * endpoint provider from the collected state.
     */
    method CreateProvider(verification: Outcome<Error>) returns (r: Result<AzureServiceBusEndpointProvider, Error>)
      modifies this`messagingEntityVerifier, this`verifierCalls
      ensures old(messagingFactory).None? ==>
        r == Err(NotImplemented("namespaceConnectionString"))
        && messagingEntityVerifier == old(messagingEntityVerifier) && verifierCalls == old(verifierCalls)
      ensures old(messagingFactory).Some? ==>
        && messagingEntityVerifier == Some(if old(messagingEntityVerifier).Some? then old(messagingEntityVerifier).value
                                           else DefaultVerifier(namespaceManager))
        && verifierCalls == old(verifierCalls) + [VerifierCall(messagingEntityVerifier.value, messageTypePathMappings)]
      ensures old(messagingFactory).Some? && verification.Fail? ==> r == Err(verification.error)
      ensures old(messagingFactory).Some? && verification.Pass? ==>
        var check := ValidateArguments(messagingFactory, serializer, deserializerFactory,
          Some(messageTypePathMappings), Some(messagePropertyProviderManager), Some(messageOutgoingPropertiesTable));
        && (r.Err? <==> check.Fail?)
        && (r.Err? ==> r.error == check.error)
        && (r.Ok? ==>
          && fresh(r.value)
          && r.value.serviceName == serviceName && r.value.roles == roles
          && r.value.messageTypePathMappings == messageTypePathMappings
          && r.value.messagePropertyProviderManager == messagePropertyProviderManager
          && r.value.messageOutgoingPropertiesTable == messageOutgoingPropertiesTable
          && r.value.messagingEntityFactory == EntityFactory(messagingFactory.value, messageTypePathMappings))
    {
      if messagingFactory.None? {
        return Err(NotImplemented("namespaceConnectionString"));
      }
      if messagingEntityVerifier.None? {
        messagingEntityVerifier := Some(DefaultVerifier(namespaceManager));
      }
      verifierCalls := verifierCalls + [VerifierCall(messagingEntityVerifier.value, messageTypePathMappings)];
      if verification.Fail? {
        return Err(verification.error);
      }
      r := NewEndpointProvider(serviceName, roles, isAssignable, messagingFactory, serializer, deserializerFactory,
        Some(messageTypePathMappings), assemblyFilter, typeFilter, Some(messagePropertyProviderManager),
        Some(messageOutgoingPropertiesTable), messageTable);
    }
  }

  /**
   * A builder with a factory, codecs and at least one mapping always yields a provider
   * once the verifier succeeds; with no mapping the provider refuses the empty list.
   */
  method CreateProviderOutcome(config: AzureServiceBusFluentConfig) returns (r: Result<AzureServiceBusEndpointProvider, Error>)
    requires config.messagingFactory.Some? && config.serializer.Some? && config.deserializerFactory.Some?
    modifies config
    ensures |config.messageTypePathMappings| > 0 <==> r.Ok?
    ensures config.messageTypePathMappings == [] ==> r == Err(Argument("messageTypePathMappings"))
    ensures |config.verifierCalls| == |old(config.verifierCalls)| + 1
  {
    r := config.CreateProvider(Pass);
  }
}
