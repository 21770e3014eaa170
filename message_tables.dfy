/**
 * The side tables keyed by object identity (IMessageBrokeredMessageTable.cs): the
 * association from a deserialized object to the envelope it came from, and the
 * outgoing-properties table the publisher consumes. A `ConditionalWeakTable` is
 * modelled as a map with explicit removal.
 */
module MessageTables {
  import opened Core
  import opened Errors
  import opened Envelopes

  /** `DefaultMessageMessageTable`. */
  class DefaultMessageMessageTable {
    var entries: map<ObjectId, Envelope>

    constructor ()
      ensures entries == map[]
    {
      entries := map[];
    }

    /**
     * `SetMessageForObject`. A null envelope is refused; `ConditionalWeakTable.Add`
     * refuses a key that is already present instead of overwriting it.
     */
    method SetMessageForObject(obj: ObjectId, message: Option<Envelope>) returns (r: Outcome<Error>)
      modifies this
      ensures message.None? ==> r == Fail(ArgumentNull("message")) && entries == old(entries)
      ensures message.Some? && obj in old(entries) ==> r == Fail(EntryAlreadyPresent) && entries == old(entries)
      ensures message.Some? && obj !in old(entries) ==> r == Pass && entries == old(entries)[obj := message.value]
    {
      if message.None? {
        return Fail(ArgumentNull("message"));
      }
      if obj in entries {
        return Fail(EntryAlreadyPresent);
      }
      entries := entries[obj := message.value];
      r := Pass;
    }

    /** `GetMessageForObject`: null when the object has no entry. */
    function GetMessageForObject(obj: ObjectId): (r: Option<Envelope>)
      reads this
      ensures r.Some? <==> obj in entries
      ensures r.Some? ==> r.value == entries[obj]
    {
      if obj in entries then Some(entries[obj]) else None
    }

    /** `RemoveMessageForMessage`: removing an absent entry is a no-op. */
    method RemoveMessageForMessage(obj: ObjectId)
      modifies this
      ensures entries == old(entries) - {obj}
    {
      entries := entries - {obj};
    }
  }

  /** The static `MessageMessageTable`: one table, created once, returned by every read. */
  class MessageMessageTable {
    const instance: DefaultMessageMessageTable

    constructor ()
      ensures fresh(instance) && instance.entries == map[]
    {
      instance := new DefaultMessageMessageTable();
    }

    /** `ConfiguredInstance`. */
    function ConfiguredInstance(): (t: DefaultMessageMessageTable)
      ensures t == instance
    {
      instance
    }
  }

  /** An `IOutgoingMessageProperties` object; both properties are settable by the application. */
  class OutgoingMessageProperties {
    var scheduledEnqueueTimeUtc: Instant
    var timeToLive: Duration

    /** `new DefaultMessageOutgoingMessageProperties()`: both properties hold their type's default. */
    constructor ()
      ensures scheduledEnqueueTimeUtc == Instant(0) && timeToLive == Duration(0)
    {
      scheduledEnqueueTimeUtc := Instant(0);
      timeToLive := Duration(0);
    }
  }

  /**
   * `IMessageOutgoingPropertiesTable`: outgoing properties keyed by the identity of the
   * domain message they will be applied to.
   */
  class OutgoingPropertiesTable {
    var entries: map<ObjectId, OutgoingMessageProperties>

    constructor ()
      ensures entries == map[]
    {
      entries := map[];
    }

    function GetOutgoingPropertiesForMessage(obj: ObjectId): (r: OutgoingMessageProperties?)
      reads this
      ensures r != null <==> obj in entries
      ensures r != null ==> r == entries[obj]
    {
      if obj in entries then entries[obj] else null
    }

    method SetOutgoingPropertiesForMessage(obj: ObjectId, properties: OutgoingMessageProperties)
      modifies this
      ensures entries == old(entries)[obj := properties]
    {
      entries := entries[obj := properties];
    }

    method RemoveOutgoingPropertiesForMessage(obj: ObjectId)
      modifies this
      ensures entries == old(entries) - {obj}
    {
      entries := entries - {obj};
    }
  }

  /** After a successful set, a get finds the envelope; other objects keep their entries. */
  method SetThenGet(table: DefaultMessageMessageTable, obj: ObjectId, other: ObjectId, message: Envelope)
    returns (r: Outcome<Error>)
    requires obj != other
    modifies table
    ensures r.Pass? <==> obj !in old(table.entries)
    ensures r.Pass? ==> table.GetMessageForObject(obj) == Some(message)
    ensures table.GetMessageForObject(other) == old(table.GetMessageForObject(other))
  {
    r := table.SetMessageForObject(obj, Some(message));
  }

  /** After a remove, a get finds nothing; other objects keep their entries. */
  method RemoveThenGet(table: DefaultMessageMessageTable, obj: ObjectId, other: ObjectId)
    requires obj != other
    modifies table
    ensures table.GetMessageForObject(obj).None?
    ensures table.GetMessageForObject(other) == old(table.GetMessageForObject(other))
  {
    table.RemoveMessageForMessage(obj);
  }
}
