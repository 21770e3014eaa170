/**
 * Incoming and outgoing message properties (MessagePropertiesProvider.cs): the
 * default provider reads the association tables, the fake one keeps its own
 * per-object pair, and the static `MessagePropertiesProvider` selects one lazily.
 */
module PropertiesProviders {
  import opened Core
  import opened Errors
  import opened Envelopes
  import opened MessageTables

  /**
   * An `IIncomingMessageProperties`: the default kind wraps the (possibly null) envelope
   * associated with the message; a fake one is told apart only by its identity.
   */
  datatype IncomingMessageProperties =
    | DefaultIncoming(message: Option<Envelope>)
    | FakeIncoming(identity: nat)

  /** The `DeliveryCount` getter of either kind. */
  function DeliveryCount(p: IncomingMessageProperties): (r: Result<int, Error>)
    ensures p.FakeIncoming? ==> r == Ok(1)
    ensures p.DefaultIncoming? && p.message.Some? ==> r == Ok(p.message.value.deliveryCount)
    ensures p.DefaultIncoming? && p.message.None? ==> r == Err(NullReference)
  {
    match p
    case FakeIncoming(_) => Ok(1)
    case DefaultIncoming(m) => if m.Some? then Ok(m.value.deliveryCount) else Err(NullReference)
  }

  /** `DefaultMessagePropertiesProvider`. */
  class DefaultMessagePropertiesProvider {
    const messageTable: DefaultMessageMessageTable
    const outgoingTable: OutgoingPropertiesTable

    constructor (messageTable: DefaultMessageMessageTable, outgoingTable: OutgoingPropertiesTable)
      ensures this.messageTable == messageTable && this.outgoingTable == outgoingTable
    {
      this.messageTable := messageTable;
      this.outgoingTable := outgoingTable;
    }

    /** `GetIncomingMessageProperties`: wraps whatever envelope the table associates with the object. */
    function GetIncomingMessageProperties(obj: ObjectId): (r: IncomingMessageProperties)
      reads messageTable
      ensures r.DefaultIncoming?
      ensures r.message.Some? <==> obj in messageTable.entries
      ensures r.message.Some? ==> r.message.value == messageTable.entries[obj]
    {
      DefaultIncoming(messageTable.GetMessageForObject(obj))
    }

    /** `GetOutgoingMessageProperties`: the existing entry, or a new default one that is stored. */
    method GetOutgoingMessageProperties(obj: ObjectId) returns (r: OutgoingMessageProperties)
      modifies outgoingTable
      ensures obj in old(outgoingTable.entries) ==>
        r == old(outgoingTable.entries[obj]) && outgoingTable.entries == old(outgoingTable.entries)
      ensures obj !in old(outgoingTable.entries) ==>
        && fresh(r) && r.scheduledEnqueueTimeUtc == Instant(0) && r.timeToLive == Duration(0)
        && outgoingTable.entries == old(outgoingTable.entries)[obj := r]
    {
      var existing := outgoingTable.GetOutgoingPropertiesForMessage(obj);
      if existing == null {
        r := new OutgoingMessageProperties();
        outgoingTable.SetOutgoingPropertiesForMessage(obj, r);
      } else {
        r := existing;
      }
    }
  }

  /** Two get-or-create calls for one object return the same properties and change the table at most once. */
  method GetOutgoingTwice(provider: DefaultMessagePropertiesProvider, obj: ObjectId)
    returns (first: OutgoingMessageProperties, second: OutgoingMessageProperties)
    modifies provider.outgoingTable
    ensures first == second
    ensures obj in OutgoingEntries(provider) && OutgoingEntries(provider)[obj] == first
    ensures OutgoingEntries(provider) - {obj} == old(provider.outgoingTable.entries) - {obj}
  {
    first := provider.GetOutgoingMessageProperties(obj);
    second := provider.GetOutgoingMessageProperties(obj);
  }

  function OutgoingEntries(provider: DefaultMessagePropertiesProvider): map<ObjectId, OutgoingMessageProperties>
    reads provider.outgoingTable
  {
    provider.outgoingTable.entries
  }

  /** `FakeMessagePropertiesProvider` with its table of tracked (incoming, outgoing) pairs. */
  class FakeMessagePropertiesProvider {
    var tracked: map<ObjectId, (IncomingMessageProperties, OutgoingMessageProperties)>
    /** How many fake incoming-properties objects have been created (their identities). */
    var created: nat

    ghost predicate Valid()
      reads this
    {
      forall o :: o in tracked ==> tracked[o].0.FakeIncoming? && tracked[o].0.identity < created
    }

    constructor ()
      ensures Valid() && tracked == map[] && created == 0
    {
      tracked := map[];
      created := 0;
    }

    /** `GetTrackedMessageProperties`: one pair per object, made on first request. */
    method GetTrackedMessageProperties(obj: ObjectId) returns (pair: (IncomingMessageProperties, OutgoingMessageProperties))
      requires Valid()
      modifies this
      ensures Valid()
      ensures obj in old(tracked) ==>
        pair == old(tracked)[obj] && tracked == old(tracked) && created == old(created)
      ensures obj !in old(tracked) ==>
        && pair.0 == FakeIncoming(old(created)) && fresh(pair.1)
        && tracked == old(tracked)[obj := pair] && created == old(created) + 1
    {
      if obj in tracked {
        pair := tracked[obj];
      } else {
        var outgoing := new OutgoingMessageProperties();
        pair := (FakeIncoming(created), outgoing);
        tracked := tracked[obj := pair];
        created := created + 1;
      }
    }

    /** `GetIncomingMessageProperties`: a fake whose delivery count is always 1. */
    method GetIncomingMessageProperties(obj: ObjectId) returns (r: IncomingMessageProperties)
      requires Valid()
      modifies this
      ensures Valid()
      ensures obj in tracked && r == tracked[obj].0
      ensures DeliveryCount(r) == Ok(1)
      ensures obj in old(tracked) ==> tracked == old(tracked)
    {
      var pair := GetTrackedMessageProperties(obj);
      r := pair.0;
    }

    method GetOutgoingMessageProperties(obj: ObjectId) returns (r: OutgoingMessageProperties)
      requires Valid()
      modifies this
      ensures Valid()
      ensures obj in tracked && r == tracked[obj].1
      ensures obj in old(tracked) ==> tracked == old(tracked) && r == old(tracked)[obj].1
    {
      var pair := GetTrackedMessageProperties(obj);
      r := pair.1;
    }
  }

  /** The provider the static `MessagePropertiesProvider` can hold. */
  datatype PropertiesProvider =
    | DefaultProperties(default: DefaultMessagePropertiesProvider)
    | FakeProperties(fake: FakeMessagePropertiesProvider)
    | CustomProperties(custom: Handle)

  /**
   * The static `MessagePropertiesProvider`; the two tables are the static
   * `ConfiguredInstance`s of the message table and the outgoing-properties table.
   */
  class MessagePropertiesProvider {
    var instance: Option<PropertiesProvider>
    const messageTable: DefaultMessageMessageTable
    const outgoingTable: OutgoingPropertiesTable

    constructor (messageTable: DefaultMessageMessageTable, outgoingTable: OutgoingPropertiesTable)
      ensures instance.None? && this.messageTable == messageTable && this.outgoingTable == outgoingTable
    {
      instance := None;
      this.messageTable := messageTable;
      this.outgoingTable := outgoingTable;
    }

    /** `ConfiguredInstance`: installs the default provider when none is set. */
    method ConfiguredInstance() returns (p: PropertiesProvider)
      modifies this
      ensures instance == Some(p)
      ensures old(instance).Some? ==> p == old(instance).value
      ensures old(instance).None? ==>
        p.DefaultProperties? && fresh(p.default)
        && p.default.messageTable == messageTable && p.default.outgoingTable == outgoingTable
    {
      if instance.None? {
        UseDefault();
      }
      p := instance.value;
    }

    /** `Use`: replaces the configured provider (null included). */
    method Use(p: Option<PropertiesProvider>)
      modifies this
      ensures instance == p
    {
      instance := p;
    }

    method UseDefault()
      modifies this
      ensures instance.Some? && instance.value.DefaultProperties? && fresh(instance.value.default)
      ensures instance.value.default.messageTable == messageTable
      ensures instance.value.default.outgoingTable == outgoingTable
    {
      var d := new DefaultMessagePropertiesProvider(messageTable, outgoingTable);
      Use(Some(DefaultProperties(d)));
    }

    method UseFakeMessagePropertiesProvider()
      modifies this
      ensures instance.Some? && instance.value.FakeProperties? && fresh(instance.value.fake)
      ensures instance.value.fake.Valid() && instance.value.fake.tracked == map[]
    {
      var f := new FakeMessagePropertiesProvider();
      Use(Some(FakeProperties(f)));
    }
  }
}
