/**
 * The mapping record the fluent configuration builds and the endpoint provider reads
 * (`MessageTypeMessagingEntityMappingDetails`), the rule that keeps the list free of
 * duplicate (type, kind) pairs, and the collaborators both configuration classes pass
 * along unchanged.
 */
module Mappings {
  import opened Core
  import opened Errors
  import opened ReceiveModes

  /** `MessagingEntityCreationOptions`, a flags value; no flag set is `None`. */
  datatype CreationOptions = CreationOptions(flags: nat)

  const NoCreationOptions := CreationOptions(0)

  /**
   * One mapping. `receiveMode` is `None` for a topic: the topic overloads use a
   * constructor of the mapping record that takes no receive mode.
   */
  datatype Mapping = Mapping(
    messageType: MessageType,
    path: string,
    entityType: EntityKind,
    creationOptions: CreationOptions,
    receiveMode: Option<ReceiveMode>)

  /** Two mappings collide when they map the same type to the same kind of entity. */
  predicate SameKey(a: Mapping, b: Mapping)
  {
    a.messageType == b.messageType && a.entityType == b.entityType
  }

  predicate UniqueKeys(ms: seq<Mapping>)
  {
    forall i, j :: 0 <= i < j < |ms| ==> !SameKey(ms[i], ms[j])
  }

  /** The `FirstOrDefault` lookup of a mapping colliding with `m`. */
  function FirstWithKey(ms: seq<Mapping>, m: Mapping): (r: Option<Mapping>)
    ensures r.None? <==> forall i :: 0 <= i < |ms| ==> !SameKey(ms[i], m)
    ensures r.Some? ==> exists i :: 0 <= i < |ms| && ms[i] == r.value && SameKey(ms[i], m)
  {
    if ms == [] then None
    else if SameKey(ms[0], m) then Some(ms[0])
    else FirstWithKey(ms[1..], m)
  }

  /**
   * `AddMessageTypePathMapping` on the list's value: a collision fails with the
   * colliding mapping's type and kind; otherwise the mapping goes at the end.
   */
  function AddMapping(ms: seq<Mapping>, m: Mapping): (r: Result<seq<Mapping>, Error>)
    ensures r.Err? <==> exists i :: 0 <= i < |ms| && SameKey(ms[i], m)
    ensures r.Err? ==> r.error == MappingAlreadyExists(m.messageType, m.entityType)
    ensures r.Ok? ==> r.value == ms + [m]
  {
    match FirstWithKey(ms, m)
    case Some(existing) => Err(MappingAlreadyExists(existing.messageType, existing.entityType))
    case None => Ok(ms + [m])
  }

  /** A successful add keeps the list free of collisions. */
  lemma AddMappingKeepsUniqueKeys(ms: seq<Mapping>, m: Mapping)
    requires UniqueKeys(ms)
    ensures AddMapping(ms, m).Ok? ==> UniqueKeys(AddMapping(ms, m).value)
  {
  }

  /** Adding a whole series of mappings in order, stopping at the first failure. */
  function AddMappings(ms: seq<Mapping>, adds: seq<Mapping>): (r: Result<seq<Mapping>, Error>)
    ensures r.Ok? ==> r.value == ms + adds
    ensures r.Err? ==> exists i :: 0 <= i < |adds| && r.error == MappingAlreadyExists(adds[i].messageType, adds[i].entityType)
    decreases |adds|
  {
    if adds == [] then Ok(ms)
    else
      match AddMapping(ms, adds[0])
      case Err(e) => Err(e)
      case Ok(next) =>
        var r := AddMappings(next, adds[1..]);
        assert r.Ok? ==> next + adds[1..] == ms + adds;
        assert r.Err? ==> exists i :: 0 <= i < |adds| && r.error == MappingAlreadyExists(adds[i].messageType, adds[i].entityType) by {
          if r.Err? {
            var j :| 0 <= j < |adds[1..]| && r.error == MappingAlreadyExists(adds[1..][j].messageType, adds[1..][j].entityType);
            assert adds[1..][j] == adds[j + 1];
          }
        }
        r
  }

  /**
   * Any series of adds that succeeds, from a collision-free list, ends with a
   * collision-free list that extends the original by exactly the added mappings.
   */
  lemma {:induction false} AddMappingsKeepsUniqueKeys(ms: seq<Mapping>, adds: seq<Mapping>)
    requires UniqueKeys(ms)
    ensures AddMappings(ms, adds).Ok? ==>
      UniqueKeys(AddMappings(ms, adds).value) && AddMappings(ms, adds).value == ms + adds
    decreases |adds|
  {
    if adds != [] {
      var r := AddMapping(ms, adds[0]);
      if r.Ok? {
        AddMappingKeepsUniqueKeys(ms, adds[0]);
        AddMappingsKeepsUniqueKeys(r.value, adds[1..]);
        assert ms + [adds[0]] + adds[1..] == ms + adds;
      }
    }
  }

  /** One type may be mapped once per kind: a topic and a subscription for one type coexist. */
  lemma TopicAndSubscriptionCoexist(t: MessageType, topic: Mapping, subscription: Mapping)
    requires topic.messageType == t && topic.entityType == Topic
    requires subscription.messageType == t && subscription.entityType == Subscription
    ensures AddMappings([], [topic, subscription]) == Ok([topic, subscription])
  {
    var empty: seq<Mapping> := [];
    var first := AddMapping(empty, topic);
    assert first.Ok?;
    assert first.value == [topic];
    var second := AddMapping([topic], subscription);
    assert !SameKey(topic, subscription);
    assert second.Ok?;
    assert second.value == [topic, subscription];
    assert [topic, subscription][1..] == [subscription];
    assert AddMappings([topic], [subscription]) == AddMappings([topic, subscription], []);
  }

  /** `topicPath + "/subscriptions/" + subscriptionName`. */
  function SubscriptionPath(topicPath: string, subscriptionName: string): (p: string)
    ensures |p| == |topicPath| + |"/subscriptions/"| + |subscriptionName|
    ensures p[..|topicPath|] == topicPath
    ensures p[|topicPath|..|topicPath| + |"/subscriptions/"|] == "/subscriptions/"
    ensures p[|p| - |subscriptionName|..] == subscriptionName
  {
    topicPath + "/subscriptions/" + subscriptionName
  }

  /** Within one topic, distinct subscription names give distinct paths. */
  lemma {:induction false} SubscriptionPathInjective(topic: string, a: string, b: string)
    requires a != b
    ensures SubscriptionPath(topic, a) != SubscriptionPath(topic, b)
  {
    var pa := SubscriptionPath(topic, a);
    var pb := SubscriptionPath(topic, b);
    if pa == pb {
      assert pa[|pa| - |a|..] == a;
      assert pb[|pb| - |b|..] == b;
    }
  }

  /** An `IMessagingFactory` as configured: supplied, or built from a namespace connection string. */
  datatype MessagingFactory =
    | CustomFactory(factory: Handle)
    | ConnectionStringFactory(namespaceConnectionString: string)

  /** An `INamespaceManager` as configured. */
  datatype NamespaceManager =
    | CustomNamespaceManager(manager: Handle)
    | ForResourceGroup(resourceGroupName: string, namespaceName: string, managementClient: Handle)

  /** An `IMessagingEntityVerifier`: supplied, or the default one over the (possibly null) namespace manager. */
  datatype EntityVerifier =
    | CustomVerifier(verifier: Handle)
    | DefaultVerifier(namespaceManager: Option<NamespaceManager>)

  /** One property provider registered for a message type. */
  datatype PropertyProviderRegistration = PropertyProviderRegistration(messageType: MessageType, provider: Handle)
}
