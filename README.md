# Obvs.AzureServiceBus routing core in Dafny

This project models the routing core of Obvs.AzureServiceBus, the Azure Service Bus
transport for the Obvs service-bus abstraction, and proves properties of that model.
The core maps message types to messaging entities (queues, topics and subscriptions),
publishes domain messages as Service Bus envelopes, and turns received envelopes back
into domain messages. The model covers these parts:

- the mapping registry that the fluent configuration builds (`mappings.dfy`,
  `fluent_config.dfy`);
- the endpoint provider that resolves message sources and publishers for the service's
  roles (`endpoint_provider.dfy`);
- the message publisher: tagging, correlation, outgoing properties and the
  sender cache (`publisher.dfy`);
- the message source: type check, deserializer choice, the identity table and the
  receive loop (`source.dfy`);
- peek-lock control of received envelopes (`peek_lock.dfy`);
- the incoming and outgoing message-property providers and the side tables keyed by
  object identity (`properties_providers.dfy`, `message_tables.dfy`);
- the receive-mode translations, the configuration exceptions and the stand-ins for
  unconfigured types (`receive_modes.dfy`, `errors.dfy`, `unconfigured.dfy`).

`core.dfy` holds the shared vocabulary: `Option`, `Result`, `Outcome`, message types,
entity kinds and opaque handles for collaborators. `envelopes.dfy` holds the envelope and
domain-message values.

Modelling conventions:

- An exception becomes an `Err`/`Fail` carrying an `Error` value, and null becomes `None`.
- A `ConditionalWeakTable` keyed by object identity becomes a map from `ObjectId`.
- An object whose fields change becomes a class whose methods state their whole new state.
- A collaborator the core only calls is a function-typed value or an opaque `Handle`. This
  covers serializers, deserializers, the entity factory, the transport and
  `Type.IsAssignableFrom` (the parameter `isAssignable(a, b)` means
  `a.IsAssignableFrom(b)`).
- When a collaborator's answer matters, the answer is a parameter: for example, the
  outcome a session call or a send returns.

## Model

| member | source | states |
|---|---|---|
| Core.IsNullOrEmpty | Obvs.AzureServiceBus/MessagePublisher.cs:104 | `string.IsNullOrEmpty`: true for null and for the empty string, false for any string with a character. |
| Errors.JoinKinds | Obvs.AzureServiceBus/Configuration/ConfigurationExceptions.cs:57 | `string.Join(", ", kinds)`: a non-empty list's join ends with the name of its last kind. |
| Errors.ConfigurationMessage | Obvs.AzureServiceBus/Configuration/ConfigurationExceptions.cs:16-139 | The message each configuration exception builds: a duplicate mapping's starts with its fixed prefix, an ambiguity's with its own, and both entity exceptions' with the quoted-path prefix. |
| Errors.EntityMessage | Obvs.AzureServiceBus/Configuration/ConfigurationExceptions.cs:96-99 | The shape the two entity messages share (also lines 136-139): it starts with the quoted-path prefix and ends with the exception's own sentence. |
| Errors.MappingExistsMessageNamesTypeAndKind | Obvs.AzureServiceBus/Configuration/ConfigurationExceptions.cs:16-19 | The duplicate-mapping message names the message type right after its fixed prefix and ends with the entity kind. |
| Errors.EntityMessageNamesPathAndKind | Obvs.AzureServiceBus/Configuration/ConfigurationExceptions.cs:96-99 | Both messaging-entity exceptions (also lines 136-139) embed the path right after the opening quote, followed by the entity kind. |
| Errors.JoinKindsStartsWithFirst | Obvs.AzureServiceBus/Configuration/ConfigurationExceptions.cs:57 | The joined list of expected entity kinds starts with the first kind's name. |
| Errors.JoinKindsEmptyIff | Obvs.AzureServiceBus/Configuration/ConfigurationExceptions.cs:57-60 | The joined list of expected kinds is empty exactly when no kind is given. |
| ReceiveModes.ToAzureServiceBusValue | Obvs.AzureServiceBus/Configuration/ConfigurationUtilities.cs:11-30 | Succeeds exactly on PeekLock and ReceiveAndDelete and returns the same mode; any other enum value fails with ArgumentOutOfRange named `configurationReceiveMode`. |
| ReceiveModes.ToConfigurationValue | Obvs.AzureServiceBus/Configuration/ConfigurationUtilities.cs:32-51 | Succeeds exactly on the two named modes and returns the same mode; any other value fails with ArgumentOutOfRange named `azureServiceBusReceiveMode`. |
| ReceiveModes.ConfigurationRoundTrip | Obvs.AzureServiceBus/Configuration/ConfigurationUtilities.cs:11-51 | For a named mode, translating to the transport value and back gives the original mode. |
| ReceiveModes.TransportRoundTrip | Obvs.AzureServiceBus/Configuration/ConfigurationUtilities.cs:11-51 | For a named mode, translating to the configuration value and back gives the original mode. |
| ReceiveModes.TranslationsAgree | Obvs.AzureServiceBus/Configuration/ConfigurationUtilities.cs:11-51 | The two translations accept the same inputs and agree wherever they succeed. |
| Envelopes.NewEnvelope | Obvs.AzureServiceBus/MessagePublisher.cs:63 | A new envelope carries the serialized body, an empty property dictionary, and no correlation, session, schedule or time-to-live. |
| Envelopes.Lookup | Obvs.AzureServiceBus/MessageSource.cs:91 | `TryGetValue`: no value exactly when no entry has the key; a value found is the value of an entry with that key. |
| MessageTables.DefaultMessageMessageTable.constructor | Obvs.AzureServiceBus/Infrastructure/IMessageBrokeredMessageTable.cs:26 | A new table associates no object. |
| MessageTables.DefaultMessageMessageTable.SetMessageForObject | Obvs.AzureServiceBus/Infrastructure/IMessageBrokeredMessageTable.cs:28-33 | A null envelope fails with ArgumentNull(`message`); an object already present fails with the parameterless ArgumentException of `ConditionalWeakTable.Add` (no overwrite); both failures leave the table unchanged. Otherwise exactly that one association is added. |
| MessageTables.DefaultMessageMessageTable.GetMessageForObject | Obvs.AzureServiceBus/Infrastructure/IMessageBrokeredMessageTable.cs:35-41 | Returns the associated envelope, and null exactly when the object has no entry. |
| MessageTables.DefaultMessageMessageTable.RemoveMessageForMessage | Obvs.AzureServiceBus/Infrastructure/IMessageBrokeredMessageTable.cs:43 | Removes the object's entry, if any, and nothing else. |
| MessageTables.MessageMessageTable.constructor | Obvs.AzureServiceBus/Infrastructure/IMessageBrokeredMessageTable.cs:16 | The static instance is one empty table, created once. |
| MessageTables.MessageMessageTable.ConfiguredInstance | Obvs.AzureServiceBus/Infrastructure/IMessageBrokeredMessageTable.cs:18-22 | Every read returns that same table. |
| MessageTables.OutgoingMessageProperties.constructor | Obvs.AzureServiceBus/Infrastructure/MessagePropertiesProvider.cs:132-135 | New outgoing properties hold the default schedule instant and time-to-live. |
| MessageTables.OutgoingPropertiesTable.constructor | Obvs.AzureServiceBus/Configuration/AzureServiceBusFluentConfig.cs:153 | The outgoing-properties table starts empty. |
| MessageTables.OutgoingPropertiesTable.GetOutgoingPropertiesForMessage | Obvs.AzureServiceBus/Infrastructure/MessagePropertiesProvider.cs:88 | Returns the stored properties, and null exactly when the object has no entry. |
| MessageTables.OutgoingPropertiesTable.SetOutgoingPropertiesForMessage | Obvs.AzureServiceBus/Infrastructure/MessagePropertiesProvider.cs:93 | Stores the properties for the object; no other entry changes. |
| MessageTables.OutgoingPropertiesTable.RemoveOutgoingPropertiesForMessage | Obvs.AzureServiceBus/MessagePublisher.cs:142 | Removes the object's entry and nothing else. |
| MessageTables.SetThenGet | Obvs.AzureServiceBus/Infrastructure/IMessageBrokeredMessageTable.cs:28-41 | A set succeeds exactly when the object had no entry, and a later get then returns that envelope; other objects' lookups are unchanged. |
| MessageTables.RemoveThenGet | Obvs.AzureServiceBus/Infrastructure/IMessageBrokeredMessageTable.cs:35-43 | After a remove, a get returns null for that object; other objects' lookups are unchanged. |
| PropertiesProviders.DeliveryCount | Obvs.AzureServiceBus/Infrastructure/MessagePropertiesProvider.cs:118-129 | The default getter returns the wrapped envelope's delivery count and fails with NullReference when no envelope was associated; the fake getter (lines 66-70) always returns 1. |
| PropertiesProviders.DefaultMessagePropertiesProvider.constructor | Obvs.AzureServiceBus/Infrastructure/MessagePropertiesProvider.cs:78-81 | The provider keeps the two tables it is given. |
| PropertiesProviders.DefaultMessagePropertiesProvider.GetIncomingMessageProperties | Obvs.AzureServiceBus/Infrastructure/MessagePropertiesProvider.cs:83 | The result wraps the envelope the message table associates with the object, and wraps null exactly when there is no association. |
| PropertiesProviders.DefaultMessagePropertiesProvider.GetOutgoingMessageProperties | Obvs.AzureServiceBus/Infrastructure/MessagePropertiesProvider.cs:85-97 | Get-or-create: an existing entry is returned and the table is unchanged; otherwise a fresh default entry is stored for the object and returned. |
| PropertiesProviders.GetOutgoingTwice | Obvs.AzureServiceBus/Infrastructure/MessagePropertiesProvider.cs:88-96 | Two get-or-create calls for one object return the same properties; the table gains at most that object's entry and nothing else changes. |
| PropertiesProviders.FakeMessagePropertiesProvider.constructor | Obvs.AzureServiceBus/Infrastructure/MessagePropertiesProvider.cs:35 | The fake provider starts with no tracked object. |
| PropertiesProviders.FakeMessagePropertiesProvider.GetTrackedMessageProperties | Obvs.AzureServiceBus/Infrastructure/MessagePropertiesProvider.cs:41-51 | The first request for an object creates and records one (incoming, outgoing) pair; later requests return exactly that pair and change nothing. |
| PropertiesProviders.FakeMessagePropertiesProvider.GetIncomingMessageProperties | Obvs.AzureServiceBus/Infrastructure/MessagePropertiesProvider.cs:37 | Returns the tracked incoming half, whose delivery count is 1. |
| PropertiesProviders.FakeMessagePropertiesProvider.GetOutgoingMessageProperties | Obvs.AzureServiceBus/Infrastructure/MessagePropertiesProvider.cs:39 | Returns the tracked outgoing half; for an object already tracked it is the same object as before. |
| PropertiesProviders.MessagePropertiesProvider.constructor | Obvs.AzureServiceBus/Infrastructure/MessagePropertiesProvider.cs:13 | No provider is configured at first. |
| PropertiesProviders.MessagePropertiesProvider.ConfiguredInstance | Obvs.AzureServiceBus/Infrastructure/MessagePropertiesProvider.cs:15-23 | Returns the configured provider; when none is set it first installs a fresh default provider over the static message and outgoing tables. |
| PropertiesProviders.MessagePropertiesProvider.Use | Obvs.AzureServiceBus/Infrastructure/MessagePropertiesProvider.cs:25-27 | Replaces the configured provider with the given one, null included. |
| PropertiesProviders.MessagePropertiesProvider.UseDefault | Obvs.AzureServiceBus/Infrastructure/MessagePropertiesProvider.cs:29 | Installs a fresh default provider over the static message and outgoing tables. |
| PropertiesProviders.MessagePropertiesProvider.UseFakeMessagePropertiesProvider | Obvs.AzureServiceBus/Infrastructure/MessagePropertiesProvider.cs:31 | Installs a fresh fake provider with nothing tracked. |
| Unconfigured.UnconfiguredMessageSender.SendAsync | Obvs.AzureServiceBus/Configuration/Unconfigured.cs:22-24 | Every send fails with InvalidOperation, whatever the envelope; the message embeds the type name right after its fixed prefix. |
| Unconfigured.UnconfiguredMessageReceiver.ReceiveAsync | Obvs.AzureServiceBus/Configuration/Unconfigured.cs:54-56 | Every receive fails with InvalidOperation whose message embeds the type name. |
| Unconfigured.StandInsReportTheirType | Obvs.AzureServiceBus/Configuration/Unconfigured.cs:12-52 | Both stand-ins report the type they were built for; the receiver reports ReceiveAndDelete, is never closed and never yields an envelope. |
| Unconfigured.SendFailureNamesType | Obvs.AzureServiceBus/Configuration/Unconfigured.cs:23 | Reading the type name back from a send failure's message yields exactly the stand-in's type name. |
| Unconfigured.SendFailureIdentifiesType | Obvs.AzureServiceBus/Configuration/Unconfigured.cs:22-24 | Stand-ins for different type names fail with different errors. |
| PeekLock.MessageSession.Perform | Obvs.AzureServiceBus/Infrastructure/PeekLockMessageControl.cs:60-69 | Each session call is recorded once, in order, and answered with the transport's outcome. |
| PeekLock.DefaultMessagePeekLockControl.constructor | Obvs.AzureServiceBus/Infrastructure/PeekLockMessageControl.cs:55-58 | The control is bound to its session and the (possibly null) envelope. |
| PeekLock.DefaultMessagePeekLockControl.PerformMessageActionAndDispose | Obvs.AzureServiceBus/Infrastructure/PeekLockMessageControl.cs:72-84 | A consumed control fails with InvalidOperation and the fixed message, making no session call. Otherwise it makes exactly one call with the envelope's lock token and returns its outcome. The envelope is cleared only when that call succeeded. |
| PeekLock.DefaultMessagePeekLockControl.AbandonAsync | Obvs.AzureServiceBus/Infrastructure/PeekLockMessageControl.cs:60 | A consumed control fails with the fixed message and makes no session call. Otherwise it makes one Abandon call with the lock token and returns its outcome, and the control is consumed exactly when that call succeeded. |
| PeekLock.DefaultMessagePeekLockControl.CompleteAsync | Obvs.AzureServiceBus/Infrastructure/PeekLockMessageControl.cs:62 | A consumed control fails with the fixed message and makes no session call. Otherwise it makes one Complete call with the lock token and returns its outcome, and the control is consumed exactly when that call succeeded. |
| PeekLock.DefaultMessagePeekLockControl.RejectAsync | Obvs.AzureServiceBus/Infrastructure/PeekLockMessageControl.cs:64 | The same contract as Abandon and Complete, except that the one session call dead-letters the envelope; the reason code and description are not passed on. |
| PeekLock.DefaultMessagePeekLockControl.RenewLockAsync | Obvs.AzureServiceBus/Infrastructure/PeekLockMessageControl.cs:66-70 | A consumed control fails with no session call. Otherwise it makes one RenewLock call with the lock token and never consumes the control. |
| PeekLock.CompleteTwice | Obvs.AzureServiceBus/Infrastructure/PeekLockMessageControl.cs:72-84 | A second Complete after a successful one fails as already processed, and the session sees exactly one Complete call. |
| PeekLock.RenewThenComplete | Obvs.AzureServiceBus/Infrastructure/PeekLockMessageControl.cs:62-78 | Any number of renewals leaves the control usable, and the Complete that follows succeeds. The session gains exactly renewals + 1 calls, and the last one is Complete with the envelope's lock token. |
| PeekLock.DefaultMessagePeekLockControlProvider.constructor | Obvs.AzureServiceBus/Infrastructure/PeekLockMessageControl.cs:44-47 | The provider keeps its session and message table. |
| PeekLock.DefaultMessagePeekLockControlProvider.GetMessagePeekLockControl | Obvs.AzureServiceBus/Infrastructure/PeekLockMessageControl.cs:49 | Returns a fresh control over the envelope the table associates with the object. The control is already consumed exactly when the object has no association. |
| PeekLock.FakeMessagePeekLockControl.AbandonAsync | Obvs.AzureServiceBus/Infrastructure/PeekLockMessageControl.cs:95 | Always completes successfully and changes nothing. |
| PeekLock.FakeMessagePeekLockControl.CompleteAsync | Obvs.AzureServiceBus/Infrastructure/PeekLockMessageControl.cs:97 | Always completes successfully and changes nothing. |
| PeekLock.FakeMessagePeekLockControl.RejectAsync | Obvs.AzureServiceBus/Infrastructure/PeekLockMessageControl.cs:99 | Always completes successfully and changes nothing. |
| PeekLock.FakeMessagePeekLockControl.RenewLockAsync | Obvs.AzureServiceBus/Infrastructure/PeekLockMessageControl.cs:101 | Always completes successfully and changes nothing. |
| PeekLock.FakeMessagePeekLockControlProvider.constructor | Obvs.AzureServiceBus/Infrastructure/PeekLockMessageControl.cs:92 | The fake provider holds the one shared `Default` control. |
| PeekLock.FakeMessagePeekLockControlProvider.GetMessagePeekLockControl | Obvs.AzureServiceBus/Infrastructure/PeekLockMessageControl.cs:89 | Every message gets that same shared control. |
| PeekLock.MessagePeekLockControlProvider.constructor | Obvs.AzureServiceBus/Infrastructure/PeekLockMessageControl.cs:8 | No provider is configured at first. |
| PeekLock.MessagePeekLockControlProvider.ConfiguredInstance | Obvs.AzureServiceBus/Infrastructure/PeekLockMessageControl.cs:10-18 | Returns whatever was last installed, null included; no default is installed lazily. |
| PeekLock.MessagePeekLockControlProvider.Use | Obvs.AzureServiceBus/Infrastructure/PeekLockMessageControl.cs:20-22 | Replaces the configured provider. |
| PeekLock.MessagePeekLockControlProvider.UseDefault | Obvs.AzureServiceBus/Infrastructure/PeekLockMessageControl.cs:24 | Installs a fresh default provider over the given session and the static message table. |
| PeekLock.MessagePeekLockControlProvider.UseFakeMessagePeekLockControlProvider | Obvs.AzureServiceBus/Infrastructure/PeekLockMessageControl.cs:26 | Installs a fake provider over the shared `Default` control. |
| Mappings.FirstWithKey | Obvs.AzureServiceBus/Configuration/AzureServiceBusFluentConfig.cs:318 | The `FirstOrDefault` lookup finds nothing exactly when no mapping has the same (type, kind) pair; what it finds is a list member with that pair. |
| Mappings.AddMapping | Obvs.AzureServiceBus/Configuration/AzureServiceBusFluentConfig.cs:317-325 | Fails exactly when the list already holds the (type, kind) pair, with MappingAlreadyExists carrying that type and kind; otherwise the mapping is appended at the end and earlier mappings are untouched. |
| Mappings.AddMappingKeepsUniqueKeys | Obvs.AzureServiceBus/Configuration/AzureServiceBusFluentConfig.cs:317-325 | A successful add keeps the list free of duplicate (type, kind) pairs. |
| Mappings.AddMappings | Obvs.AzureServiceBus/Configuration/AzureServiceBusFluentConfig.cs:317-325 | A series of `AddMessageTypePathMapping` calls, stopping at the first failure: success leaves the old list followed by every added mapping in order; a failure is the MappingAlreadyExists of one of the added mappings' (type, kind). |
| Mappings.AddMappingsKeepsUniqueKeys | Obvs.AzureServiceBus/Configuration/AzureServiceBusFluentConfig.cs:317-325 | Any series of successful adds from a duplicate-free list ends duplicate-free, and the result is the original list followed by exactly the added mappings. |
| Mappings.TopicAndSubscriptionCoexist | Obvs.AzureServiceBus/Configuration/AzureServiceBusFluentConfig.cs:318 | A topic mapping and a subscription mapping for the same type can both be added. |
| Mappings.SubscriptionPath | Obvs.AzureServiceBus/Configuration/AzureServiceBusFluentConfig.cs:302 | The path is the topic path, then `/subscriptions/`, then the subscription name, with the lengths adding up. |
| Mappings.SubscriptionPathInjective | Obvs.AzureServiceBus/Configuration/AzureServiceBusFluentConfig.cs:302 | Within one topic, distinct subscription names give distinct paths. |
| EndpointProvider.ValidateArguments | Obvs.AzureServiceBus/Configuration/AzureServiceBusEndpointProvider.cs:40-46 | Passes exactly when every collaborator is present and the mapping list is non-empty. Failures follow the constructor's order: messagingFactory, messageSerializer, messageDeserializerFactory, a null list, an empty list (Argument, `messageTypePathMappings`), then ArgumentNull(`messagePropertyProviderManager`) and last ArgumentNull(`messageOutgoingPropertiesTable`), each only when every earlier check passed. |
| EndpointProvider.SelectSources | Obvs.AzureServiceBus/Configuration/AzureServiceBusEndpointProvider.cs:80-82 | Selects exactly the queue and subscription mappings whose type is assignable to the logical type: each such mapping as many times as the list holds it, every other mapping never, and in list order (a subsequence of the list). |
| EndpointProvider.TopicsAreNeverSources | Obvs.AzureServiceBus/Configuration/AzureServiceBusEndpointProvider.cs:80-82 | No topic mapping is ever selected as a source. |
| EndpointProvider.AzureServiceBusEndpointProvider.constructor | Obvs.AzureServiceBus/Configuration/AzureServiceBusEndpointProvider.cs:48-56 | The provider keeps exactly the given collaborators, and its entity factory is built over the messaging factory and the mapping list. |
| EndpointProvider.AzureServiceBusEndpointProvider.CreateMessageSource | Obvs.AzureServiceBus/Configuration/AzureServiceBusEndpointProvider.cs:96-110 | A source for one mapping is given the provider's entity factory and the static message table. Its deserializers are requested for the mapping's type, the service message type and the two filters. |
| EndpointProvider.AzureServiceBusEndpointProvider.GetMessageSource | Obvs.AzureServiceBus/Configuration/AzureServiceBusEndpointProvider.cs:78-94 | A single source exactly when one mapping matches; otherwise a merged source with one member per matching mapping, zero included, in list order. |
| EndpointProvider.AzureServiceBusEndpointProvider.CreatePublisher | Obvs.AzureServiceBus/Configuration/AzureServiceBusEndpointProvider.cs:63-64 | A publisher for a role gets the provider's entity factory, serializer, property providers and outgoing table. |
| EndpointProvider.AzureServiceBusEndpointProvider.CreateEndpoint | Obvs.AzureServiceBus/Configuration/AzureServiceBusEndpointProvider.cs:59-66 | A server receives requests and commands and publishes events and responses, for the service message type. |
| EndpointProvider.AzureServiceBusEndpointProvider.CreateEndpointClient | Obvs.AzureServiceBus/Configuration/AzureServiceBusEndpointProvider.cs:68-76 | A client receives events and responses and publishes requests and commands, for the service message type. |
| EndpointProvider.SourceMembersAreTheMatchingMappings | Obvs.AzureServiceBus/Configuration/AzureServiceBusEndpointProvider.cs:78-94 | Every member of a source comes from a matching queue or subscription mapping, and every matching mapping has a member. |
| EndpointProvider.ClientMirrorsServer | Obvs.AzureServiceBus/Configuration/AzureServiceBusEndpointProvider.cs:59-76 | A client receives exactly the roles a server publishes, and a server receives exactly the roles a client publishes. |
| EndpointProvider.NewEndpointProvider | Obvs.AzureServiceBus/Configuration/AzureServiceBusEndpointProvider.cs:39-57 | Fails exactly when a check fails, with that check's error; otherwise builds a fresh provider holding the given collaborators. |
| FluentConfig.ValidatePropertyProvider | Obvs.AzureServiceBus/Configuration/AzureServiceBusFluentConfig.cs:308-310 | A null provider fails with ArgumentNull(`provider`). Otherwise it passes exactly when its type is assignable to the service message type, and fails with Argument(`messagePropertyProvider`). |
| FluentConfig.ValidateResourceGroup | Obvs.AzureServiceBus/Configuration/AzureServiceBusFluentConfig.cs:214-222 | Passes exactly when both names are non-empty and a client is given. A missing namespace name is reported under `resourceGroupName`, as written. |
| FluentConfig.AzureServiceBusFluentConfig.constructor | Obvs.AzureServiceBus/Configuration/AzureServiceBusFluentConfig.cs:142-157 | A new builder has nothing configured and no mappings; it holds the static outgoing table. |
| FluentConfig.AzureServiceBusFluentConfig.Named | Obvs.AzureServiceBus/Configuration/AzureServiceBusFluentConfig.cs:159-163 | Sets the service name and nothing else. |
| FluentConfig.AzureServiceBusFluentConfig.SerializedWith | Obvs.AzureServiceBus/Configuration/AzureServiceBusFluentConfig.cs:247-252 | Sets the serializer and the deserializer factory, null included, and nothing else. |
| FluentConfig.AzureServiceBusFluentConfig.FilterMessageTypeAssemblies | Obvs.AzureServiceBus/Configuration/AzureServiceBusFluentConfig.cs:254-259 | Sets the two filters and nothing else. |
| FluentConfig.AzureServiceBusFluentConfig.WithNamespaceManager | Obvs.AzureServiceBus/Configuration/AzureServiceBusFluentConfig.cs:201-207 | A null manager fails with ArgumentNull and changes nothing; otherwise only the manager is set. |
| FluentConfig.AzureServiceBusFluentConfig.WithConnectionString | Obvs.AzureServiceBus/Configuration/AzureServiceBusFluentConfig.cs:193-199 | A null string fails with ArgumentNull(`connectionString`); any other string fails with NotImplemented, because `NamespaceManagerWrapper.CreateFromConnectionString` throws (NamespaceManagerWrapper.cs:168-170). Either way the namespace manager is unchanged. |
| FluentConfig.AzureServiceBusFluentConfig.WithNamespaceManagerFor | Obvs.AzureServiceBus/Configuration/AzureServiceBusFluentConfig.cs:209-225 | Fails exactly as the resource-group checks do and changes nothing on failure; otherwise installs a manager for the group, namespace and client. |
| FluentConfig.AzureServiceBusFluentConfig.WithMessagingFactory | Obvs.AzureServiceBus/Configuration/AzureServiceBusFluentConfig.cs:227-233 | A null factory fails with ArgumentNull and changes nothing; otherwise only the factory is set. |
| FluentConfig.AzureServiceBusFluentConfig.WithMessagingFactoryFromConnectionString | Obvs.AzureServiceBus/Configuration/AzureServiceBusFluentConfig.cs:235-237 | A null or empty connection string fails with ArgumentNull(`namespaceConnectionString`), the wrapper's check at MessagingFactoryWrapper.cs:20-22; otherwise the factory is one built from the string. |
| FluentConfig.AzureServiceBusFluentConfig.WithMessagingEntityVerifier | Obvs.AzureServiceBus/Configuration/AzureServiceBusFluentConfig.cs:239-245 | A null verifier fails with ArgumentNull and changes nothing; otherwise only the verifier is set. |
| FluentConfig.AzureServiceBusFluentConfig.AddMessageTypePathMapping | Obvs.AzureServiceBus/Configuration/AzureServiceBusFluentConfig.cs:317-325 | Fails exactly as the registry's add does, leaving the list unchanged; on success the list is the old list plus the mapping. The no-duplicate invariant is preserved. |
| FluentConfig.AzureServiceBusFluentConfig.UsingQueueFor | Obvs.AzureServiceBus/Configuration/AzureServiceBusFluentConfig.cs:261-263 | Adds a queue mapping with ReceiveAndDelete and no creation options. |
| FluentConfig.AzureServiceBusFluentConfig.UsingQueueForMode | Obvs.AzureServiceBus/Configuration/AzureServiceBusFluentConfig.cs:265-267 | Adds a queue mapping with the given mode and no creation options. |
| FluentConfig.AzureServiceBusFluentConfig.UsingQueueForOptions | Obvs.AzureServiceBus/Configuration/AzureServiceBusFluentConfig.cs:269-271 | Adds a queue mapping with ReceiveAndDelete and the given options. |
| FluentConfig.AzureServiceBusFluentConfig.UsingQueueForModeAndOptions | Obvs.AzureServiceBus/Configuration/AzureServiceBusFluentConfig.cs:273-277 | Adds a queue mapping with the given mode and options. |
| FluentConfig.AzureServiceBusFluentConfig.UsingTopicFor | Obvs.AzureServiceBus/Configuration/AzureServiceBusFluentConfig.cs:279-281 | Adds a topic mapping with no creation options and no receive mode. |
| FluentConfig.AzureServiceBusFluentConfig.UsingTopicForOptions | Obvs.AzureServiceBus/Configuration/AzureServiceBusFluentConfig.cs:283-287 | Adds a topic mapping with the given options and no receive mode. |
| FluentConfig.AzureServiceBusFluentConfig.UsingSubscriptionFor | Obvs.AzureServiceBus/Configuration/AzureServiceBusFluentConfig.cs:289-291 | Adds a subscription mapping at the synthesized path, with ReceiveAndDelete and no creation options. |
| FluentConfig.AzureServiceBusFluentConfig.UsingSubscriptionForMode | Obvs.AzureServiceBus/Configuration/AzureServiceBusFluentConfig.cs:293-295 | Adds a subscription mapping at the synthesized path with the given mode and no creation options. |
| FluentConfig.AzureServiceBusFluentConfig.UsingSubscriptionForOptions | Obvs.AzureServiceBus/Configuration/AzureServiceBusFluentConfig.cs:297-299 | Adds a subscription mapping at the synthesized path with ReceiveAndDelete and the given options. |
| FluentConfig.AzureServiceBusFluentConfig.UsingSubscriptionForModeAndOptions | Obvs.AzureServiceBus/Configuration/AzureServiceBusFluentConfig.cs:301-305 | Adds a subscription mapping at `topicPath/subscriptions/name` with the given mode and options. |
| FluentConfig.AzureServiceBusFluentConfig.UsingMessagePropertyProviderFor | Obvs.AzureServiceBus/Configuration/AzureServiceBusFluentConfig.cs:307-315 | Fails exactly as the provider checks do, registering nothing; on success the provider is registered for its type after the earlier ones. |
| FluentConfig.AzureServiceBusFluentConfig.CreateProvider | Obvs.AzureServiceBus/Configuration/AzureServiceBusFluentConfig.cs:177-191 | No factory: fails with NotImplemented before anything else. Otherwise it installs the default verifier when none was set and calls the verifier exactly once on the mappings; a verification failure is passed on. Otherwise it builds the provider from the collected state, failing exactly as the provider's checks do. |
| FluentConfig.CreateProviderOutcome | Obvs.AzureServiceBus/Configuration/AzureServiceBusFluentConfig.cs:177-191 | With a factory and codecs, and once verification passes, a provider is built exactly when at least one mapping was added; with none it fails on the empty list. The verifier is called once. |
| Publisher.SendOutcome | Obvs.AzureServiceBus/MessagePublisher.cs:73 | A transport sender returns the transport's answer; an unconfigured sender always fails with InvalidOperation. |
| Publisher.OutgoingFor | Obvs.AzureServiceBus/MessagePublisher.cs:134-137 | No outgoing values exactly when the table has no entry for the message; otherwise the entry's schedule and time-to-live. |
| Publisher.ApplyOutgoing | Obvs.AzureServiceBus/MessagePublisher.cs:137-140 | With outgoing values, the schedule and time-to-live are copied onto the envelope; without them, the envelope is unchanged. |
| Publisher.SetRequestIds | Obvs.AzureServiceBus/MessagePublisher.cs:101-109 | CorrelationId becomes the RequestId. ReplyToSessionId becomes the RequesterId only when that is non-empty and keeps its prior value otherwise. No other field changes. |
| Publisher.SetResponseIds | Obvs.AzureServiceBus/MessagePublisher.cs:111-119 | CorrelationId becomes the RequestId. SessionId becomes the RequesterId only when that is non-empty. No other field changes. |
| Publisher.SetCorrelation | Obvs.AzureServiceBus/MessagePublisher.cs:87-99 | A request takes the request rule, a response that is not a request takes the response rule, and any other message is unchanged. |
| Publisher.AddAll | Obvs.AzureServiceBus/MessagePublisher.cs:80-84 | A series of `Dictionary.Add` calls: success keeps the existing entries first and adds one entry per property; a failure is DuplicateKey for a key among the added properties. |
| Publisher.TypeTag | Obvs.AzureServiceBus/MessagePublisher.cs:80 | The corrected type tag: reading TypeName back from it gives the domain message's concrete type name. |
| Publisher.Prepare | Obvs.AzureServiceBus/MessagePublisher.cs:57-69 | The envelope built as the tests expect: over the serialized body, the type tag first and then one entry per provider property; a failure is DuplicateKey for one of the provider's keys. |
| Publisher.AddAllAppends | Obvs.AzureServiceBus/MessagePublisher.cs:82-84 | Adding to a dictionary with distinct keys succeeds exactly when all keys stay distinct, and then appends the properties in order; otherwise it fails with a duplicate key. |
| Publisher.PrepareTagsFirstThenProviderProperties | Obvs.AzureServiceBus/MessagePublisher.cs:76-85 | A publish succeeds exactly when the provider's property keys are distinct and differ from the type tag's key. The envelope then carries the body, the domain type's name as tag first, then the provider properties in order. |
| Publisher.PrepareAppliesOutgoing | Obvs.AzureServiceBus/MessagePublisher.cs:133-144 | Outgoing properties, when present, set the envelope's schedule and time-to-live; when absent, both stay at the transport default. |
| Publisher.PrepareCorrelatesRequest | Obvs.AzureServiceBus/MessagePublisher.cs:101-109 | A published request carries its RequestId as CorrelationId and its non-empty RequesterId as ReplyToSessionId; SessionId stays unset. |
| Publisher.PrepareCorrelatesResponse | Obvs.AzureServiceBus/MessagePublisher.cs:111-119 | A published response carries its RequestId as CorrelationId and its non-empty RequesterId as SessionId; ReplyToSessionId stays unset. |
| Publisher.PrepareLeavesPlainMessageUncorrelated | Obvs.AzureServiceBus/MessagePublisher.cs:87-99 | A message that is neither request nor response carries no correlation or session identifier. |
| Publisher.PrepareAsWritten | Obvs.AzureServiceBus/MessagePublisher.cs:57-93 | The envelope as the code builds it: over the serialized body, first the tag `Message` (the envelope's own type name), then one entry per provider property; a failure is DuplicateKey for one of the provider's keys. |
| Publisher.AsWrittenIgnoresDomainMessage | Obvs.AzureServiceBus/MessagePublisher.cs:80-134 | As written, every envelope is tagged `Message` and carries no correlation, session, schedule or time-to-live, whatever the domain message. |
| Publisher.AsWrittenCounterexample | Obvs.AzureServiceBus/MessagePublisher.cs:80-134 | For a concrete request with outgoing properties, the as-written envelope differs from the intended one in the tag, the CorrelationId and the schedule. |
| Publisher.SetProperties | Obvs.AzureServiceBus/MessagePublisher.cs:76-85 | The loop adds the type tag and then each provider property, failing at the first duplicate key; the result is exactly the dictionary-add sequence over tag plus properties. |
| Publisher.MessagePublisher.constructor | Obvs.AzureServiceBus/MessagePublisher.cs:34-39 | A new publisher holds the given collaborators and an empty sender cache; nothing has been sent. |
| Publisher.MessagePublisher.GetMessageSenderForMessageType | Obvs.AzureServiceBus/MessagePublisher.cs:121-131 | Returns the factory's sender for the concrete type. The factory is asked only on the type's first use, and the cache then maps the type to that sender. |
| Publisher.MessagePublisher.ApplyAnyOutgoingProperties | Obvs.AzureServiceBus/MessagePublisher.cs:133-144 | The envelope gets the message's outgoing values, if any; the message's entry is removed and no other entry changes. |
| Publisher.MessagePublisher.PublishAsync | Obvs.AzureServiceBus/MessagePublisher.cs:42-74 | The property provider is asked once and the outgoing entry is consumed. A duplicate property key fails the publish, and nothing is sent. Otherwise exactly the prepared envelope is sent once, through the concrete type's cached sender. |
| Publisher.MessagePublisher.Dispose | Obvs.AzureServiceBus/MessagePublisher.cs:49-53 | Every cached sender is disposed, once each. |
| Publisher.NewMessagePublisher | Obvs.AzureServiceBus/MessagePublisher.cs:28-40 | Fails exactly when a collaborator is null, naming the first missing one in the order factory, serializer, property provider, outgoing table; otherwise builds a fresh publisher with an empty cache. |
| Publisher.PublishSameTypeTwice | Obvs.AzureServiceBus/MessagePublisher.cs:121-127 | Two publishes of one concrete type, the same message object twice included, create at most one sender, and both envelopes go through that sender. |
| Source.NameIn | Obvs.AzureServiceBus/MessageSource.cs:94 | `ContainsKey` on the dictionary: some registered deserializer has the name. |
| Source.ToDictionaryFrom | Obvs.AzureServiceBus/MessageSource.cs:85 | `ToDictionary(d => d.GetTypeName())`: success keeps every deserializer in order; a failure is DuplicateKey for the name of one of them. |
| Source.ToDictionaryFromSucceedsIffDistinct | Obvs.AzureServiceBus/MessageSource.cs:85 | Keying the deserializers by type name succeeds exactly when the names are distinct, keeping them all in order; otherwise it fails with a duplicate key. |
| Source.FindDeserializer | Obvs.AzureServiceBus/MessageSource.cs:105 | Finds nothing exactly when no deserializer has the name; what it finds is registered under that name. |
| Source.IsCorrectMessageType | Obvs.AzureServiceBus/MessageSource.cs:89-98 | An envelope is accepted exactly when its TypeName is a string naming a registered deserializer; untagged envelopes are refused. A null tag fails the dictionary lookup, any other non-string fails the cast. |
| Source.PickDeserializer | Obvs.AzureServiceBus/MessageSource.cs:100-112 | A tag picks the deserializer registered under it, and an unknown tag fails with KeyNotFound. An untagged envelope uses the sole deserializer when there is exactly one, and fails with the fixed message otherwise. |
| Source.Deserialize | Obvs.AzureServiceBus/MessageSource.cs:100-115 | Succeeds exactly when a deserializer can be picked, with that picking's error otherwise; a success is a new object, with the identity given, holding what the picked deserializer makes of the body. |
| Source.AcceptedEnvelopesUseTheirTaggedDeserializer | Obvs.AzureServiceBus/MessageSource.cs:89-115 | An accepted envelope is always decoded by the deserializer its own tag names. |
| Source.Deliver | Obvs.AzureServiceBus/MessageSource.cs:38-49 | The `Where` / `Select` / `Do` / `Select` pipeline over a finite stream, stopping at the first exception; it never drops an association the table already held. |
| Source.DeliverAllocatesConsecutively | Obvs.AzureServiceBus/MessageSource.cs:42-46 | However the stream ends, the emitted objects have consecutive identities from the first one, and the table is the earlier one plus exactly those identities. |
| Source.DeliverDecodesAccepted | Obvs.AzureServiceBus/MessageSource.cs:41-46 | Over a readable stream with fresh identities: no error, one object per accepted envelope, each decoded from its envelope and associated with it. |
| Source.DeliverEmitsDecodedAccepted | Obvs.AzureServiceBus/MessageSource.cs:38-49 | When every TypeName can be read and new objects are fresh to the table, the pipeline raises no error. It emits one new object per accepted envelope, in order, each the deserialization of its envelope, with consecutive identities. The table then associates each with its envelope, keeps earlier entries and holds nothing else. |
| Source.DeliverSucceedsIffReadable | Obvs.AzureServiceBus/MessageSource.cs:38-49 | With new objects fresh to the table, the pipeline raises no error exactly when every TypeName can be read; otherwise it fails with the null-key or the cast error. |
| Source.IdenticalEnvelopesAreAllDelivered | Obvs.AzureServiceBus/MessageSource.cs:42-46 | `n` copies of one accepted envelope yield `n` objects with distinct identities and no error, each decoded from the body by the tagged deserializer. |
| Source.AllAcceptedIsWholeStream | Obvs.AzureServiceBus/MessageSource.cs:41 | A stream whose every envelope passes the filter is kept whole. |
| Source.RejectedEnvelopeIsSkipped | Obvs.AzureServiceBus/MessageSource.cs:41 | A refused envelope is dropped without effect, whatever the next identity: the rest of the stream is processed as if it were absent. |
| Source.AcceptedAreTagged | Obvs.AzureServiceBus/MessageSource.cs:89-98 | Every accepted envelope is from the stream and carries a string tag naming a registered deserializer. |
| Source.CancellationTokenSource.constructor | Obvs.AzureServiceBus/MessageSource.cs:60 | A new token source is neither cancelled nor disposed. |
| Source.CancellationTokenSource.Cancel | Obvs.AzureServiceBus/MessageSource.cs:53 | Cancel requests cancellation and leaves the disposed flag alone. |
| Source.CancellationTokenSource.Dispose | Obvs.AzureServiceBus/MessageSource.cs:54 | Dispose marks the source disposed and leaves the cancellation flag alone. |
| Source.Continues | Obvs.AzureServiceBus/MessageSource.cs:65-67 | The loop continues exactly when the subscription is not cancelled, the source's token is live and not cancelled, and the receiver is open. Reading a token that Dispose cleared fails with NullReference. |
| Source.Forward | Obvs.AzureServiceBus/MessageSource.cs:62-76 | The receive loop's stream: what it forwards is always a prefix of the non-null results of the script's receives. |
| Source.ForwardStopsAtFirstHalt | Obvs.AzureServiceBus/MessageSource.cs:65-73 | While every turn may continue and no receive fails, the loop forwards exactly the non-null results in receipt order. At the first cancelled or closed turn it stops without error; the source's stream then goes silent rather than completing. |
| Source.ForwardFailsOnFailingReceive | Obvs.AzureServiceBus/MessageSource.cs:68 | A receive that throws, such as the unconfigured receiver's, ends the stream with that error and nothing forwarded. |
| Source.ReceiveLoop | Obvs.AzureServiceBus/MessageSource.cs:62-76 | The `while` loop forwards exactly what the stream specification prescribes for the script, and ends the same way. |
| Source.MessageSource.constructor | Obvs.AzureServiceBus/MessageSource.cs:84-86 | The source keeps the stream, the deserializers keyed by distinct names, and the table. |
| Source.MessageSource.Messages | Obvs.AzureServiceBus/MessageSource.cs:38-49 | A subscription whose objects get consecutive identities from `firstIdentity` emits exactly what the pipeline specification prescribes, and the table ends with exactly its associations. The stream ends with the pipeline's error, or otherwise with the underlying stream's own ending. |
| Source.MessageSource.Dispose | Obvs.AzureServiceBus/MessageSource.cs:51-57 | Afterwards the source holds no token source; one it held has been cancelled and disposed. |
| Source.DisposeTwice | Obvs.AzureServiceBus/MessageSource.cs:51-57 | Disposing twice leaves no token source held; the one held before has been cancelled and disposed. |
| Source.NewMessageSourceOver | Obvs.AzureServiceBus/MessageSource.cs:79-87 | Null checks in order: Messages, deserializers, messageMessageTable. Duplicate type names then fail. Otherwise the source holds the given stream, deserializers and table, and has no token source. |
| Source.NewMessageSource | Obvs.AzureServiceBus/MessageSource.cs:23-32 | A null entity factory is refused first, then come the same checks as above. A built source owns a fresh token source, and its stream is what the receive loop forwards. |

## Left out

- Concurrency and Rx are out: `async`/`await`, `Publish().RefCount()` sharing, `ConcurrentDictionary` thread safety. Every operation runs to completion in sequence.
- Source.Forward and Source.NewMessageSource: `None` means the receive loop ended without error. The source's observable does not then complete: `Observable.Create` over a task that returns an `Action` passes on a faulted task as `OnError` and ignores a normal end, so the stream goes silent. The model records only how the loop ended.
- Source.NewMessageSource: the receive loop runs once, when the source is built, over a finite script of receive steps; in the source it runs lazily per subscription. A `CreateMessageReceiver` that throws is represented by a script whose first step fails; the receiver's `Dispose` on unsubscription is not modelled.
- Source.MessageSource.Messages: an error in `IsCorrectMessageType`, `Deserialize` or the table ends the stream, as the Rx pipeline does: the model follows the code.
- Publisher.MessagePublisher.PublishAsync: a provider property whose key repeats the type tag or another property fails the publish (`Dictionary.Add` throws): the model follows the code.
- Publisher.MessagePublisher.PublishAsync: a null domain message cannot be expressed; in the source `message.GetType()` (MessagePublisher.cs:122) faults the task with a `NullReferenceException`.
- Publisher.MessagePublisher.PublishAsync: a null property sequence from the provider (a `NullReferenceException` at the `foreach`) is not modelled; the provider returns a sequence.
- Publisher.MessagePublisher.Dispose: senders are disposed in creation order; the `ConcurrentDictionary` enumeration order is unspecified.
- Source.ToDictionaryFromSucceedsIffDistinct: a null type name (an `ArgumentNullException` from `ToDictionary`) cannot occur, because names are strings.
- ConfigurationFacts.cs:208-212 expects the mappings added with creation options only, a topic's included, to carry PeekLock. The code gives queues and subscriptions ReceiveAndDelete (AzureServiceBusFluentConfig.cs:269-271 and 297-299) and gives topics no receive mode; the model follows the code.
- FluentConfig.ValidateResourceGroup: a missing namespace name is reported under `resourceGroupName` (AzureServiceBusFluentConfig.cs:217-219); the model keeps that as written.
- FluentConfig.AzureServiceBusFluentConfig.CreateProvider: the unreachable code after the `NotImplementedException` is not modelled. The mapping list is handed to the provider by value, while the source shares the `List` object, so a mapping added afterwards would reach the provider there.
- AsClient, AsServer and AsClientAndServer only forward to `CreateProvider` and the Obvs endpoint wiring, which is not part of this model. The fluent chain's `return this` is not modelled either; each method returns an `Outcome`.
- MergedMessageSource, MessagingEntityFactory, MessagingEntityVerifier, NamespaceManagerWrapper and the sender and receiver wrappers are not part of this model, except that `NamespaceManagerWrapper.CreateFromConnectionString` always throws. The verifier's result is a parameter. Of MessagingFactoryWrapper, only the constructor's argument check is modelled.
- MessagePropertyProviderManager's internals are not part of this model: the fluent configuration keeps the registrations in order, and the publisher takes its property provider as a function.
- IMessageOutgoingPropertiesTable and its implementation are not part of the available source. They are modelled as a map with get, set and remove, as their callers use them.
- PropertiesProviders.FakeMessagePropertiesProvider.GetTrackedMessageProperties: the tracked table is static in the source, shared by every fake provider; the model keeps one table per instance.
- Source.Deserialize: what a deserializer makes of a body is a pure function of deserializer and body; a stateful deserializer, such as one counting its calls, is not modelled. Nor is one that throws or returns null; a null result would make `ConditionalWeakTable.Add` throw ArgumentNull(`key`) at `SetMessageForObject`. Each call still creates a new object, whose identity the runtime supplies: `Messages` is given the first one, and the lemmas take it to be fresh to the table (`AllBelow`).
- MessageTables and PeekLock: an object key is an `ObjectId`, which cannot be null. In the source a null object reaches `ConditionalWeakTable.Add`, `TryGetValue` or `Remove` (IMessageBrokeredMessageTable.cs:28-43) and throws ArgumentNull(`key`), also when it comes through PeekLockMessageControl.cs:49 or MessagePropertiesProvider.cs:83. What the outgoing table, whose implementation is not part of this model, does with a null key (MessagePropertiesProvider.cs:88, MessagePublisher.cs:141) is not modelled either.
- MessageTables.DefaultMessageMessageTable.SetMessageForObject: IMessageBrokeredMessageTable.cs:29-30 checks `message == null` twice, where the first check was evidently meant for `obj`. With `obj` null the source therefore fails in `Add` with ArgumentNull(`key`) instead of ArgumentNull(`obj`); since keys cannot be null, the model has neither failure.
- Garbage collection of `ConditionalWeakTable` entries is not modelled. Entries leave only by explicit removal.
- Serialization, deserialization and the `MemoryStream` are functions over opaque bytes. `DateTime` and `TimeSpan` are opaque tick counts, and `CreationOptions` is an opaque flags number.
- Exception messages are modelled for the configuration exceptions, the unconfigured stand-ins, peek-lock misuse and the untagged-envelope error. Elsewhere only the exception type and parameter name are modelled.
- The `Dispose` methods of the unconfigured stand-ins do nothing and have no member.

## Findings

| source | as written | input that shows it | evidently intended | confidence | as-written member | corrected member |
|---|---|---|---|---|---|---|
| Obvs.AzureServiceBus/MessagePublisher.cs:80 | The type tag is the envelope's own type name, so every message is tagged `Message`. | Publishing a `TestMessage` gives the tag `Message` where MessagePublisherFacts.cs:143 expects `typeof(TestMessage).Name`; `Publisher.AsWrittenCounterexample` shows the same for a `TestRequest`. | The tag is the domain message's type name. | not executed | Publisher.AsWrittenCounterexample | Publisher.PrepareTagsFirstThenProviderProperties |
| Obvs.AzureServiceBus/MessagePublisher.cs:88-93 | The `as IRequest` / `as IResponse` tests are made on the envelope, which implements neither, so no message is ever correlated. | A request with RequestId `TestRequestId` is sent with no CorrelationId (MessagePublisherFacts.cs:278 expects it). | The tests are made on the domain message. | not executed | Publisher.AsWrittenCounterexample | Publisher.PrepareCorrelatesRequest |
| Obvs.AzureServiceBus/MessagePublisher.cs:134 | The outgoing properties are looked up for the fresh envelope, which never has an entry, so scheduling and time-to-live are never applied. | A request whose outgoing properties schedule it at tick 812 is sent with no schedule (MessagePublisherFacts.cs:205-217 expects it). | The lookup uses the domain message, as the removal at line 142 does. | not executed | Publisher.AsWrittenCounterexample | Publisher.PrepareAppliesOutgoing |

For each row, `Publisher.PrepareAsWritten` builds the envelope as written, and
`Publisher.AsWrittenIgnoresDomainMessage` proves that, for every domain message, it has
the tag `Message` and no correlation or schedule. `Publisher.Prepare` is the corrected
construction that the rest of the model uses.
