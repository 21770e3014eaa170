/**
 * The exceptions the routing layer throws, as one error datatype. The four
 * configuration exceptions carry exactly the data their constructors store; the
 * others stand for the .NET exceptions the core raises or lets escape.
 */
module Errors {
  import opened Core

  datatype Error =
      /** `MappingAlreadyExistsForMessageTypeException(messageType, entityType)`. */
    | MappingAlreadyExists(messageType: MessageType, entityType: EntityKind)
      /** `AmbiguosMessageTypeMappingException(messageType, expectedEntityTypes)`. */
    | AmbiguousMapping(messageType: MessageType, expectedEntityTypes: seq<EntityKind>)
      /** `MessagingEntityDoesNotAlreadyExistException(path, messagingEntityType)`. */
    | EntityDoesNotAlreadyExist(path: string, entityKind: EntityKind)
      /** `MessagingEntityAlreadyExistsException(path, messagingEntityType)`. */
    | EntityAlreadyExists(path: string, entityKind: EntityKind)
      /** `ArgumentNullException` with its `ParamName`. */
    | ArgumentNull(paramName: string)
      /** `ArgumentException` with its `ParamName`. */
    | Argument(paramName: string)
      /** `ArgumentOutOfRangeException` with its `ParamName`. */
    | ArgumentOutOfRange(paramName: string)
      /** `InvalidOperationException` with its message. */
    | InvalidOperation(message: string)
      /** `NotImplementedException` with its message. */
    | NotImplemented(message: string)
      /** `ArgumentException` thrown by `Dictionary.Add` / `ToDictionary` for a repeated key. */
    | DuplicateKey(key: string)
      /** `ArgumentException` from `ConditionalWeakTable.Add` for an object already present; it names no parameter. */
    | EntryAlreadyPresent
      /** `KeyNotFoundException` thrown by a dictionary indexer. */
    | KeyNotFound(key: string)
      /** `InvalidCastException` from casting a property value to `string`. */
    | InvalidCast
      /** `NullReferenceException`. */
    | NullReference
      /** A plain `Exception` with its message. */
    | General(message: string)
      /** A failure raised by the transport, the verifier or another collaborator; passed on unchanged. */
    | External(cause: Handle)

  /** The message of a `NotImplementedException` constructed without one. */
  const NotImplementedMessage := "The method or operation is not implemented."

  const MappingExistsPrefix := "A mapping already exists for message type "
  const MappingExistsMiddle := " for entity type "
  const AmbiguousPrefix := "More than one mapping exists for message type "
  const AmbiguousMiddle := " for expected entity types "
  const EntityPathPrefix := "A messaging entity with a path of \""
  const EntityPathMiddle := "\" of type "
  const DoesNotExistSuffix := " does not exist and was not configured to be created automatically."
  const AlreadyExistsSuffix := " already exists. To ensure intent and keep your data safe the framwork will not recreate it as temporary unless explicitly configured to do so. You can change the configuration to explicitly enable deletion of existing temporary entities or manually delete the entity."

  /** `string.Join(", ", kinds)`. */
  function JoinKinds(kinds: seq<EntityKind>): (r: string)
    ensures |kinds| > 0 ==> |r| >= |KindName(kinds[|kinds| - 1])|
    ensures |kinds| > 0 ==> r[|r| - |KindName(kinds[|kinds| - 1])|..] == KindName(kinds[|kinds| - 1])
  {
    if |kinds| == 0 then ""
    else if |kinds| == 1 then KindName(kinds[0])
    else KindName(kinds[0]) + ", " + JoinKinds(kinds[1..])
  }

  /** The `Exception.Message` each configuration exception builds in its constructor. */
  function ConfigurationMessage(e: Error): (r: string)
    requires e.MappingAlreadyExists? || e.AmbiguousMapping? || e.EntityDoesNotAlreadyExist? || e.EntityAlreadyExists?
    ensures e.MappingAlreadyExists? ==> MappingExistsPrefix <= r
    ensures e.AmbiguousMapping? ==> AmbiguousPrefix <= r
    ensures e.EntityDoesNotAlreadyExist? || e.EntityAlreadyExists? ==> EntityPathPrefix <= r
  {
    match e
    case MappingAlreadyExists(t, k) => MappingExistsPrefix + t.name + MappingExistsMiddle + KindName(k)
    case AmbiguousMapping(t, ks) => AmbiguousPrefix + t.name + AmbiguousMiddle + JoinKinds(ks)
    case EntityDoesNotAlreadyExist(p, k) => EntityMessage(p, k, DoesNotExistSuffix)
    case EntityAlreadyExists(p, k) => EntityMessage(p, k, AlreadyExistsSuffix)
  }

  /** The shape both messaging-entity exceptions share: quoted path, kind, then their own sentence. */
  function EntityMessage(path: string, k: EntityKind, suffix: string): (r: string)
    ensures EntityPathPrefix <= r
    ensures |r| >= |suffix| && r[|r| - |suffix|..] == suffix
  {
    EntityPathPrefix + path + EntityPathMiddle + KindName(k) + suffix
  }

  /** The message of a duplicate-mapping error names the type right after its prefix and ends with the kind. */
  lemma MappingExistsMessageNamesTypeAndKind(t: MessageType, k: EntityKind)
    ensures var m := ConfigurationMessage(MappingAlreadyExists(t, k));
      && m[..|MappingExistsPrefix|] == MappingExistsPrefix
      && m[|MappingExistsPrefix|..|MappingExistsPrefix| + |t.name|] == t.name
      && m[|m| - |KindName(k)|..] == KindName(k)
  {
  }

  /** Both messaging-entity exceptions name the path right after the opening quote, then the kind. */
  lemma EntityMessageNamesPathAndKind(e: Error)
    requires e.EntityDoesNotAlreadyExist? || e.EntityAlreadyExists?
    ensures var m := ConfigurationMessage(e);
      var p := |EntityPathPrefix| + |e.path|;
      && m[|EntityPathPrefix|..p] == e.path
      && m[p + |EntityPathMiddle|..p + |EntityPathMiddle| + |KindName(e.entityKind)|] == KindName(e.entityKind)
  {
    if e.EntityDoesNotAlreadyExist? {
      EntityMessageSlices(e.path, e.entityKind, DoesNotExistSuffix);
    } else {
      EntityMessageSlices(e.path, e.entityKind, AlreadyExistsSuffix);
    }
  }

  lemma EntityMessageSlices(path: string, k: EntityKind, suffix: string)
    ensures var m := EntityMessage(path, k, suffix);
      var p := |EntityPathPrefix| + |path|;
      && m[|EntityPathPrefix|..p] == path
      && m[p + |EntityPathMiddle|..p + |EntityPathMiddle| + |KindName(k)|] == KindName(k)
  {
    var m := EntityMessage(path, k, suffix);
    assert m == EntityPathPrefix + path + (EntityPathMiddle + KindName(k) + suffix);
    SliceBetween(EntityPathPrefix, path, EntityPathMiddle + KindName(k) + suffix);
    assert m == (EntityPathPrefix + path + EntityPathMiddle) + KindName(k) + suffix;
    SliceBetween(EntityPathPrefix + path + EntityPathMiddle, KindName(k), suffix);
  }

  /** The middle piece of a three-part concatenation is found between the other two. */
  lemma SliceBetween(a: string, b: string, c: string)
    ensures (a + b + c)[|a|..|a| + |b|] == b
  {
  }

  /** The joined list of expected kinds begins with the name of the first kind. */
  lemma {:induction false} JoinKindsStartsWithFirst(kinds: seq<EntityKind>)
    requires |kinds| > 0
    ensures |JoinKinds(kinds)| >= |KindName(kinds[0])|
    ensures JoinKinds(kinds)[..|KindName(kinds[0])|] == KindName(kinds[0])
  {
  }

  /** Joining is empty only for the empty list: an ambiguity error always lists some kind when given one. */
  lemma {:induction false} JoinKindsEmptyIff(kinds: seq<EntityKind>)
    ensures JoinKinds(kinds) == "" <==> kinds == []
  {
    if |kinds| > 0 {
      JoinKindsStartsWithFirst(kinds);
    }
  }
}
