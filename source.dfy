/**
 * `MessageSource<TMessage>`: the receive loop that turns a receiver's results into an
 * envelope stream, and the pipeline that keeps the envelopes tagged with a known type
 * name, deserializes them, records which envelope each object came from, and emits
 * the objects. Streams are finite sequences; a stream that ends with an error is the
 * envelopes it delivered plus that error.
 */
module Source {
  import opened Core
  import opened Errors
  import opened Envelopes
  import opened MessageTables

  /** An `IMessageDeserializer<TMessage>`: the type name it handles and its codec. */
  datatype Deserializer = Deserializer(typeName: string, codec: Handle)

  predicate DistinctNames(ds: seq<Deserializer>)
  {
    forall i, j :: 0 <= i < j < |ds| ==> ds[i].typeName != ds[j].typeName
  }

  /** The names seen so far, for `ToDictionary`. */
  predicate NameIn(ds: seq<Deserializer>, name: string): (r: bool)
    ensures r <==> exists d :: d in ds && d.typeName == name
  {
    exists i :: 0 <= i < |ds| && ds[i].typeName == name
  }

  /** `deserializers.ToDictionary(d => d.GetTypeName())`, from the names already taken in `seen`. */
  function ToDictionaryFrom(seen: seq<Deserializer>, ds: seq<Deserializer>): (r: Result<seq<Deserializer>, Error>)
    ensures r.Ok? ==> r.value == seen + ds
    ensures r.Err? ==> r.error.DuplicateKey? && NameIn(ds, r.error.key)
    decreases |ds|
  {
    if ds == [] then Ok(seen)
    else if NameIn(seen, ds[0].typeName) then Err(DuplicateKey(ds[0].typeName))
    else
      var r := ToDictionaryFrom(seen + [ds[0]], ds[1..]);
      assert r.Ok? ==> seen + [ds[0]] + ds[1..] == seen + ds;
      r
  }

  /** A dictionary is built exactly when the names are distinct, and then holds every deserializer in order. */
  lemma {:induction false} ToDictionaryFromSucceedsIffDistinct(seen: seq<Deserializer>, ds: seq<Deserializer>)
    requires DistinctNames(seen)
    ensures ToDictionaryFrom(seen, ds).Ok? <==> DistinctNames(seen + ds)
    ensures ToDictionaryFrom(seen, ds).Ok? ==> ToDictionaryFrom(seen, ds).value == seen + ds
    ensures ToDictionaryFrom(seen, ds).Err? ==> ToDictionaryFrom(seen, ds).error.DuplicateKey?
    decreases |ds|
  {
    if ds == [] {
      assert seen + ds == seen;
    } else if NameIn(seen, ds[0].typeName) {
      var i :| 0 <= i < |seen| && seen[i].typeName == ds[0].typeName;
      assert (seen + ds)[i].typeName == (seen + ds)[|seen|].typeName;
    } else {
      var next := seen + [ds[0]];
      assert DistinctNames(next) by {
        forall i, j | 0 <= i < j < |next|
          ensures next[i].typeName != next[j].typeName
        {
          if j == |seen| {
            assert next[i] == seen[i];
          }
        }
      }
      ToDictionaryFromSucceedsIffDistinct(next, ds[1..]);
      assert next + ds[1..] == seen + ds;
    }
  }

  /** The deserializer registered under `name`, if any. */
  function FindDeserializer(ds: seq<Deserializer>, name: string): (r: Option<Deserializer>)
    ensures r.None? <==> !NameIn(ds, name)
    ensures r.Some? ==> r.value in ds && r.value.typeName == name
  {
    if ds == [] then None
    else if ds[0].typeName == name then Some(ds[0])
    else FindDeserializer(ds[1..], name)
  }

  /**
   * `IsCorrectMessageType`: an envelope is accepted exactly when it has a string
   * TypeName naming a deserializer. An untagged envelope is refused; a null tag
   * makes the dictionary lookup throw, any other value the string cast.
   */
  function IsCorrectMessageType(e: Envelope, ds: seq<Deserializer>): (r: Result<bool, Error>)
    ensures r == Ok(true) <==> exists s :: Lookup(e.userProperties, TypeNameKey) == Some(StringValue(s)) && NameIn(ds, s)
    ensures Lookup(e.userProperties, TypeNameKey).None? ==> r == Ok(false)
    ensures Lookup(e.userProperties, TypeNameKey) == Some(NullValue) ==> r == Err(ArgumentNull("key"))
    ensures r.Err? ==> r == Err(ArgumentNull("key")) || r == Err(InvalidCast)
  {
    match Lookup(e.userProperties, TypeNameKey)
    case None => Ok(false)
    case Some(StringValue(s)) => Ok(NameIn(ds, s))
    case Some(NullValue) => Err(ArgumentNull("key"))
    case Some(OtherValue(_)) => Err(InvalidCast)
  }

  const NoTypeNameMessage := "The message contained no explicit TypeName property. In this scenario there must be a single deserializer provided."

  /** `Deserialize`: which deserializer decodes an envelope, or why none does. */
  function PickDeserializer(e: Envelope, ds: seq<Deserializer>): (r: Result<Deserializer, Error>)
    ensures forall s :: Lookup(e.userProperties, TypeNameKey) == Some(StringValue(s)) ==>
      (NameIn(ds, s) ==> r.Ok? && r.value in ds && r.value.typeName == s)
      && (!NameIn(ds, s) ==> r == Err(KeyNotFound(s)))
    ensures Lookup(e.userProperties, TypeNameKey).None? ==>
      (|ds| == 1 ==> r == Ok(ds[0])) && (|ds| != 1 ==> r == Err(General(NoTypeNameMessage)))
  {
    match Lookup(e.userProperties, TypeNameKey)
    case Some(StringValue(s)) =>
      (match FindDeserializer(ds, s)
       case Some(d) => Ok(d)
       case None => Err(KeyNotFound(s)))
    case Some(NullValue) => Err(ArgumentNull("key"))
    case Some(OtherValue(_)) => Err(InvalidCast)
    case None => if |ds| == 1 then Ok(ds[0]) else Err(General(NoTypeNameMessage))
  }

  /** A codec: what a deserializer makes of an envelope body (the object's content). */
  type Codec = (Deserializer, seq<byte>) -> Handle

  /** A deserialized `TMessage`: the new object's identity and its content. */
  datatype DeserializedMessage = DeserializedMessage(identity: ObjectId, value: Handle)

  /**
   * `Deserialize`: the picked deserializer applied to the body. Every call creates a new
   * object, here the one with identity `identity`.
   */
  function Deserialize(e: Envelope, ds: seq<Deserializer>, decode: Codec, identity: ObjectId): (r: Result<DeserializedMessage, Error>)
    ensures r.Ok? <==> PickDeserializer(e, ds).Ok?
    ensures r.Ok? ==> r.value == DeserializedMessage(identity, decode(PickDeserializer(e, ds).value, e.body))
    ensures r.Err? ==> r.error == PickDeserializer(e, ds).error
  {
    match PickDeserializer(e, ds)
    case Err(err) => Err(err)
    case Ok(d) => Ok(DeserializedMessage(identity, decode(d, e.body)))
  }

  /**
   * An accepted envelope is always decoded by the deserializer its tag names: the
   * untagged fallback is never reached from the pipeline.
   */
  lemma AcceptedEnvelopesUseTheirTaggedDeserializer(e: Envelope, ds: seq<Deserializer>, decode: Codec, identity: ObjectId)
    requires DistinctNames(ds)
    requires IsCorrectMessageType(e, ds) == Ok(true)
    ensures PickDeserializer(e, ds).Ok?
    ensures Lookup(e.userProperties, TypeNameKey) == Some(StringValue(PickDeserializer(e, ds).value.typeName))
    ensures Deserialize(e, ds, decode, identity) == Ok(DeserializedMessage(identity, decode(PickDeserializer(e, ds).value, e.body)))
  {
  }

  /** What the `Messages` pipeline does with a stream: the objects it emitted, the table afterwards, and how it ended. */
  datatype Delivery = Delivery(emitted: seq<DeserializedMessage>, associations: map<ObjectId, Envelope>, failure: Option<Error>)

  /**
   * The `Where` / `Select` / `Do` / `Select` pipeline over a finite stream. Each accepted
   * envelope is deserialized into a new object, identity `next`, which is associated
   * with its envelope (`SetMessageForObject` refuses an object already present) before
   * it is emitted; the first exception ends the stream.
   */
  function Deliver(envs: seq<Envelope>, ds: seq<Deserializer>, decode: Codec,
                   entries: map<ObjectId, Envelope>, next: ObjectId): (d: Delivery)
    ensures entries.Keys <= d.associations.Keys
    decreases |envs|
  {
    if envs == [] then Delivery([], entries, None)
    else
      match IsCorrectMessageType(envs[0], ds)
      case Err(err) => Delivery([], entries, Some(err))
      case Ok(accepted) =>
        if !accepted then Deliver(envs[1..], ds, decode, entries, next)
        else
          match Deserialize(envs[0], ds, decode, next)
          case Err(err) => Delivery([], entries, Some(err))
          case Ok(obj) =>
            if obj.identity in entries then Delivery([], entries, Some(EntryAlreadyPresent))
            else
              var rest := Deliver(envs[1..], ds, decode, entries[obj.identity := envs[0]], next + 1);
              Delivery([obj] + rest.emitted, rest.associations, rest.failure)
  }

  /**
   * Whatever the stream and however it ends, the emitted objects have consecutive
   * identities from `next`, and the table afterwards is the earlier one plus exactly
   * those identities.
   */
  lemma {:induction false} DeliverAllocatesConsecutively(envs: seq<Envelope>, ds: seq<Deserializer>, decode: Codec,
                                                         entries: map<ObjectId, Envelope>, next: ObjectId)
    ensures var d := Deliver(envs, ds, decode, entries, next);
      && (forall i :: 0 <= i < |d.emitted| ==> d.emitted[i].identity == next + i)
      && (forall o :: o in d.associations <==> o in entries || next <= o < next + |d.emitted|)
      && (forall o :: o in entries ==> d.associations[o] == entries[o])
    decreases |envs|
  {
    if envs != [] && IsCorrectMessageType(envs[0], ds).Ok? {
      if !IsCorrectMessageType(envs[0], ds).value {
        DeliverAllocatesConsecutively(envs[1..], ds, decode, entries, next);
      } else if Deserialize(envs[0], ds, decode, next).Ok? && next !in entries {
        DeliverAllocatesConsecutively(envs[1..], ds, decode, entries[next := envs[0]], next + 1);
      }
    }
  }

  /** The envelopes the filter keeps, in order. */
  function Accepted(envs: seq<Envelope>, ds: seq<Deserializer>): seq<Envelope>
    decreases |envs|
  {
    if envs == [] then []
    else if IsCorrectMessageType(envs[0], ds) == Ok(true) then [envs[0]] + Accepted(envs[1..], ds)
    else Accepted(envs[1..], ds)
  }

  /** Every envelope's TypeName can be read: none is null and none is a non-string. */
  predicate Readable(envs: seq<Envelope>, ds: seq<Deserializer>)
  {
    forall i :: 0 <= i < |envs| ==> IsCorrectMessageType(envs[i], ds).Ok?
  }

  /** No object in the table has an identity at or above `next`: objects made from here on are new to it. */
  predicate AllBelow(entries: map<ObjectId, Envelope>, next: ObjectId)
  {
    forall o :: o in entries ==> o < next
  }

  /**
   * Over a readable stream, with new objects fresh to the table, the pipeline raises no error.
   * It emits one new object per accepted envelope, in order, each the deserialization of
   * its envelope with consecutive identities. Afterwards the table associates each new
   * object with its envelope, keeps every earlier entry and holds nothing else.
   */
  lemma DeliverEmitsDecodedAccepted(envs: seq<Envelope>, ds: seq<Deserializer>, decode: Codec,
                                    entries: map<ObjectId, Envelope>, next: ObjectId)
    requires DistinctNames(ds) && Readable(envs, ds) && AllBelow(entries, next)
    ensures var d := Deliver(envs, ds, decode, entries, next);
      var acc := Accepted(envs, ds);
      && d.failure.None?
      && |d.emitted| == |acc|
      && (forall i :: 0 <= i < |acc| ==> d.emitted[i].identity == next + i)
      && (forall i :: 0 <= i < |acc| ==> Deserialize(acc[i], ds, decode, next + i) == Ok(d.emitted[i]))
      && (forall i :: 0 <= i < |acc| ==> next + i in d.associations && d.associations[next + i] == acc[i])
      && (forall o :: o in d.associations <==> o in entries || next <= o < next + |acc|)
      && (forall o :: o in entries ==> d.associations[o] == entries[o])
  {
    DeliverDecodesAccepted(envs, ds, decode, entries, next);
    DeliverAllocatesConsecutively(envs, ds, decode, entries, next);
    var d := Deliver(envs, ds, decode, entries, next);
    forall i | 0 <= i < |Accepted(envs, ds)|
      ensures next + i in d.associations && d.associations[next + i] == Accepted(envs, ds)[i]
    {
      assert d.emitted[i].identity == next + i;
    }
  }

  /** The inductive core of `DeliverEmitsDecodedAccepted`: no error, the count, the decoding and the new associations. */
  lemma {:induction false} DeliverDecodesAccepted(envs: seq<Envelope>, ds: seq<Deserializer>, decode: Codec,
                                                  entries: map<ObjectId, Envelope>, next: ObjectId)
    requires DistinctNames(ds) && Readable(envs, ds) && AllBelow(entries, next)
    ensures var d := Deliver(envs, ds, decode, entries, next);
      var acc := Accepted(envs, ds);
      && d.failure.None?
      && |d.emitted| == |acc|
      && (forall i :: 0 <= i < |acc| ==> d.emitted[i].identity == next + i)
      && (forall i :: 0 <= i < |acc| ==> Deserialize(acc[i], ds, decode, next + i) == Ok(d.emitted[i]))
      && (forall i :: 0 <= i < |acc| ==> d.emitted[i].identity in d.associations && d.associations[d.emitted[i].identity] == acc[i])
    decreases |envs|
  {
    if envs != [] {
      assert IsCorrectMessageType(envs[0], ds).Ok?;
      assert Readable(envs[1..], ds) by {
        forall i | 0 <= i < |envs[1..]|
          ensures IsCorrectMessageType(envs[1..][i], ds).Ok?
        {
          assert envs[1..][i] == envs[i + 1];
        }
      }
      if IsCorrectMessageType(envs[0], ds) == Ok(false) {
        DeliverDecodesAccepted(envs[1..], ds, decode, entries, next);
        assert Deliver(envs, ds, decode, entries, next) == Deliver(envs[1..], ds, decode, entries, next);
        assert Accepted(envs, ds) == Accepted(envs[1..], ds);
      } else {
        AcceptedEnvelopesUseTheirTaggedDeserializer(envs[0], ds, decode, next);
        var x := Deserialize(envs[0], ds, decode, next);
        assert x.value.identity !in entries;
        var after := entries[next := envs[0]];
        DeliverDecodesAccepted(envs[1..], ds, decode, after, next + 1);
        var d := Deliver(envs, ds, decode, entries, next);
        var rest := Deliver(envs[1..], ds, decode, after, next + 1);
        var acc := Accepted(envs, ds);
        assert acc == [envs[0]] + Accepted(envs[1..], ds);
        assert d == Delivery([x.value] + rest.emitted, rest.associations, rest.failure);
        assert next in rest.associations && rest.associations[next] == envs[0] by {
          DeliverAllocatesConsecutively(envs[1..], ds, decode, after, next + 1);
        }
        forall i | 0 <= i < |acc|
          ensures d.emitted[i].identity == next + i
          ensures Deserialize(acc[i], ds, decode, next + i) == Ok(d.emitted[i])
          ensures d.emitted[i].identity in d.associations && d.associations[d.emitted[i].identity] == acc[i]
        {
          if i > 0 {
            assert acc[i] == Accepted(envs[1..], ds)[i - 1];
            assert d.emitted[i] == rest.emitted[i - 1];
            assert next + i == (next + 1) + (i - 1);
          }
        }
      }
    }
  }

  /**
   * With new objects fresh to the table, the pipeline raises no error exactly when every
   * TypeName in the stream can be read; otherwise it fails with the null-key or the
   * cast error.
   */
  lemma {:induction false} DeliverSucceedsIffReadable(envs: seq<Envelope>, ds: seq<Deserializer>, decode: Codec,
                                                       entries: map<ObjectId, Envelope>, next: ObjectId)
    requires DistinctNames(ds) && AllBelow(entries, next)
    ensures var d := Deliver(envs, ds, decode, entries, next);
      && (d.failure.None? <==> Readable(envs, ds))
      && (d.failure.Some? ==> d.failure.value == ArgumentNull("key") || d.failure.value == InvalidCast)
    decreases |envs|
  {
    if envs != [] {
      var c := IsCorrectMessageType(envs[0], ds);
      if c.Ok? {
        assert Readable(envs, ds) <==> Readable(envs[1..], ds) by {
          if Readable(envs[1..], ds) {
            forall i | 0 <= i < |envs|
              ensures IsCorrectMessageType(envs[i], ds).Ok?
            {
              if i > 0 {
                assert envs[i] == envs[1..][i - 1];
              }
            }
          }
          if Readable(envs, ds) {
            forall i | 0 <= i < |envs[1..]|
              ensures IsCorrectMessageType(envs[1..][i], ds).Ok?
            {
              assert envs[1..][i] == envs[i + 1];
            }
          }
        }
        if c.value {
          AcceptedEnvelopesUseTheirTaggedDeserializer(envs[0], ds, decode, next);
          DeliverSucceedsIffReadable(envs[1..], ds, decode, entries[next := envs[0]], next + 1);
        } else {
          DeliverSucceedsIffReadable(envs[1..], ds, decode, entries, next);
        }
      }
    }
  }

  /** A stream whose every envelope is accepted is accepted whole. */
  lemma {:induction false} AllAcceptedIsWholeStream(envs: seq<Envelope>, ds: seq<Deserializer>)
    requires forall i :: 0 <= i < |envs| ==> IsCorrectMessageType(envs[i], ds) == Ok(true)
    ensures Accepted(envs, ds) == envs
    decreases |envs|
  {
    if envs != [] {
      assert forall i :: 0 <= i < |envs[1..]| ==> envs[1..][i] == envs[i + 1];
      AllAcceptedIsWholeStream(envs[1..], ds);
      assert envs == [envs[0]] + envs[1..];
    }
  }

  /**
   * `n` copies of one accepted envelope, same body and all, yield `n` distinct objects
   * and no error: equal bodies never make two deserializations collide in the table.
   */
  lemma IdenticalEnvelopesAreAllDelivered(e: Envelope, n: nat, ds: seq<Deserializer>, decode: Codec,
                                          entries: map<ObjectId, Envelope>, next: ObjectId)
    requires DistinctNames(ds) && IsCorrectMessageType(e, ds) == Ok(true) && AllBelow(entries, next)
    ensures var d := Deliver(seq(n, _ => e), ds, decode, entries, next);
      && d.failure.None? && |d.emitted| == n
      && (forall i, j :: 0 <= i < j < n ==> d.emitted[i].identity != d.emitted[j].identity)
      && (forall i :: 0 <= i < n ==> d.emitted[i].value == decode(PickDeserializer(e, ds).value, e.body))
  {
    var envs := seq(n, _ => e);
    AllAcceptedIsWholeStream(envs, ds);
    DeliverEmitsDecodedAccepted(envs, ds, decode, entries, next);
  }

  /** An envelope the filter refuses is skipped: it costs the rest of the stream nothing. */
  lemma RejectedEnvelopeIsSkipped(e: Envelope, rest: seq<Envelope>, ds: seq<Deserializer>, decode: Codec,
                                  entries: map<ObjectId, Envelope>, next: ObjectId)
    requires IsCorrectMessageType(e, ds) == Ok(false)
    ensures Deliver([e] + rest, ds, decode, entries, next) == Deliver(rest, ds, decode, entries, next)
    ensures Accepted([e] + rest, ds) == Accepted(rest, ds)
  {
    assert ([e] + rest)[1..] == rest;
  }

  /** Every object emitted was decoded from an envelope tagged with the name of a registered deserializer. */
  lemma {:induction false} AcceptedAreTagged(envs: seq<Envelope>, ds: seq<Deserializer>)
    ensures forall e :: e in Accepted(envs, ds) ==>
      e in envs && exists s :: Lookup(e.userProperties, TypeNameKey) == Some(StringValue(s)) && NameIn(ds, s)
    decreases |envs|
  {
    if envs != [] {
      AcceptedAreTagged(envs[1..], ds);
    }
  }

  /** A `CancellationTokenSource`. */
  class CancellationTokenSource {
    var cancellationRequested: bool
    var disposed: bool

    constructor ()
      ensures !cancellationRequested && !disposed
    {
      cancellationRequested := false;
      disposed := false;
    }

    method Cancel()
      modifies this
      ensures cancellationRequested && disposed == old(disposed)
    {
      cancellationRequested := true;
    }

    method Dispose()
      modifies this
      ensures disposed && cancellationRequested == old(cancellationRequested)
    {
      disposed := true;
    }
  }

  /**
   * The state of the source's token source as the loop reads it: live (cancelled or
   * not), or already cleared by `Dispose`, which makes the read throw.
   */
  datatype TokenState = Live(cancellationRequested: bool) | Cleared

  /**
   * One turn of the receive loop: the three conditions the `while` reads, then what
   * `ReceiveAsync` returns if the loop goes on.
   */
  datatype ReceiveStep = ReceiveStep(subscriptionCancelled: bool, sourceToken: TokenState, receiverClosed: bool, result: ReceiveResult)

  /** The `while` condition, evaluated left to right with short-circuiting. */
  function Continues(s: ReceiveStep): (r: Result<bool, Error>)
    ensures r == Ok(true) <==> !s.subscriptionCancelled && s.sourceToken == Live(false) && !s.receiverClosed
    ensures r.Err? <==> !s.subscriptionCancelled && s.sourceToken.Cleared?
    ensures r.Err? ==> r.error == NullReference
  {
    if s.subscriptionCancelled then Ok(false)
    else match s.sourceToken
      case Cleared => Err(NullReference)
      case Live(cancelled) => Ok(!cancelled && !s.receiverClosed)
  }

  /**
   * The stream the receive loop delivers, and how the loop ends. `None`: it ended without
   * error; the source then signals no completion, since `Observable.Create` over a
   * task returning an `Action` passes on only a faulted task (as `OnError`).
   */
  datatype Forwarded = Forwarded(envelopes: seq<Envelope>, failure: Option<Error>)

  function Forward(script: seq<ReceiveStep>): (r: Forwarded)
    ensures r.envelopes <= NonNull(script)
    decreases |script|
  {
    if script == [] then Forwarded([], None)
    else
      match Continues(script[0])
      case Err(err) => Forwarded([], Some(err))
      case Ok(goOn) =>
        if !goOn then Forwarded([], None)
        else
          match script[0].result
          case ReceiveFailed(err) => Forwarded([], Some(err))
          case ReceivedNull => Forward(script[1..])
          case Received(e) =>
            var rest := Forward(script[1..]);
            Forwarded([e] + rest.envelopes, rest.failure)
  }

  /** The envelopes among the results of a script, in order. */
  function NonNull(script: seq<ReceiveStep>): seq<Envelope>
    decreases |script|
  {
    if script == [] then []
    else if script[0].result.Received? then [script[0].result.envelope] + NonNull(script[1..])
    else NonNull(script[1..])
  }

  predicate Keeps(s: ReceiveStep)
  {
    Continues(s) == Ok(true) && !s.result.ReceiveFailed?
  }

  /**
   * While nothing is cancelled, closed or failing, the loop forwards exactly the
   * non-null results in receipt order; at the first turn where cancellation is
   * requested or the receiver is closed, it stops without error (and the stream goes
   * silent rather than completing).
   */
  lemma {:induction false} ForwardStopsAtFirstHalt(script: seq<ReceiveStep>, k: nat)
    requires k <= |script|
    requires forall i :: 0 <= i < k ==> Keeps(script[i])
    requires k < |script| ==> Continues(script[k]) == Ok(false)
    ensures Forward(script) == Forwarded(NonNull(script[..k]), None)
    decreases k
  {
    if k == 0 {
      assert script[..k] == [];
    } else {
      assert Keeps(script[0]);
      ForwardStopsAtFirstHalt(script[1..], k - 1);
      assert script[1..][..k - 1] == script[..k][1..];
      assert script[..k][0] == script[0];
    }
  }

  /** An unconfigured receiver's first receive ends the stream with its error. */
  lemma ForwardFailsOnFailingReceive(script: seq<ReceiveStep>, err: Error)
    requires |script| > 0 && Continues(script[0]) == Ok(true) && script[0].result == ReceiveFailed(err)
    ensures Forward(script) == Forwarded([], Some(err))
  {
  }

  /** The `while` loop of `CreateMessageObservableFromMessageReceiver`, driven by a finite script. */
  method ReceiveLoop(script: seq<ReceiveStep>) returns (forwarded: seq<Envelope>, failure: Option<Error>)
    ensures Forward(script) == Forwarded(forwarded, failure)
  {
    forwarded := [];
    failure := None;
    var i := 0;
    while i < |script|
      invariant 0 <= i <= |script|
      invariant Forward(script) == Forwarded(forwarded + Forward(script[i..]).envelopes, Forward(script[i..]).failure)
    {
      assert script[i..][0] == script[i];
      assert script[i..][1..] == script[i + 1..];
      var goOn := Continues(script[i]);
      if goOn.Err? {
        failure := Some(goOn.error);
        return;
      }
      if !goOn.value {
        return;
      }
      match script[i].result {
        case ReceiveFailed(err) =>
          failure := Some(err);
          return;
        case ReceivedNull =>
        case Received(e) =>
          forwarded := forwarded + [e];
      }
      i := i + 1;
    }
    assert script[i..] == [];
  }

  class MessageSource {
    /** `_Messages`, with the way it ends. */
    const stream: seq<Envelope>
    const streamFailure: Option<Error>
    /** `_deserializers`, in registration order, names distinct. */
    const deserializers: seq<Deserializer>
    const decode: Codec
    const messageMessageTable: DefaultMessageMessageTable
    /** `_messageReceiverMessageObservableCancellationTokenSource`; null for a source over a given stream. */
    var tokenSource: CancellationTokenSource?

    ghost predicate Valid()
      reads this
    {
      DistinctNames(deserializers)
    }

    constructor (stream: seq<Envelope>, streamFailure: Option<Error>, deserializers: seq<Deserializer>,
                 decode: Codec, messageMessageTable: DefaultMessageMessageTable,
                 tokenSource: CancellationTokenSource?)
      requires DistinctNames(deserializers)
      ensures Valid()
      ensures this.stream == stream && this.streamFailure == streamFailure && this.deserializers == deserializers
      ensures this.decode == decode && this.messageMessageTable == messageMessageTable && this.tokenSource == tokenSource
    {
      this.stream := stream;
      this.streamFailure := streamFailure;
      this.deserializers := deserializers;
      this.decode := decode;
      this.messageMessageTable := messageMessageTable;
      this.tokenSource := tokenSource;
    }

    /**
     * One subscription to `Messages`: the objects emitted in order and how the stream
     * ended. Each object is in the table with its envelope before it is emitted. The
     * runtime gives the objects it creates the identities `firstIdentity`,
     * `firstIdentity + 1`, ...; `DeliverEmitsDecodedAccepted` says what that yields.
     */
    method Messages(firstIdentity: ObjectId) returns (emitted: seq<DeserializedMessage>, failure: Option<Error>)
      requires Valid()
      modifies messageMessageTable
      ensures var d := Deliver(stream, deserializers, decode, old(messageMessageTable.entries), firstIdentity);
        && emitted == d.emitted
        && messageMessageTable.entries == d.associations
        && failure == (if d.failure.Some? then d.failure else streamFailure)
    {
      emitted := [];
      var next := firstIdentity;
      var i := 0;
      while i < |stream|
        invariant 0 <= i <= |stream|
        invariant var rest := Deliver(stream[i..], deserializers, decode, messageMessageTable.entries, next);
          Deliver(stream, deserializers, decode, old(messageMessageTable.entries), firstIdentity)
            == Delivery(emitted + rest.emitted, rest.associations, rest.failure)
      {
        var e := stream[i];
        assert stream[i..][0] == e;
        assert stream[i..][1..] == stream[i + 1..];
        var accepted := IsCorrectMessageType(e, deserializers);
        if accepted.Err? {
          return emitted, Some(accepted.error);
        }
        if accepted.value {
          var obj := Deserialize(e, deserializers, decode, next);
          if obj.Err? {
            return emitted, Some(obj.error);
          }
          var stored := messageMessageTable.SetMessageForObject(obj.value.identity, Some(e));
          if stored.Fail? {
            return emitted, Some(stored.error);
          }
          emitted := emitted + [obj.value];
          next := next + 1;
        }
        i := i + 1;
      }
      assert stream[i..] == [];
      failure := streamFailure;
    }

    /** `Dispose`: cancels, disposes and forgets the token source; a second call does nothing. */
    method Dispose()
      modifies this, tokenSource
      ensures tokenSource == null
      ensures old(tokenSource) != null ==> old(tokenSource).cancellationRequested && old(tokenSource).disposed
    {
      if tokenSource != null {
        tokenSource.Cancel();
        tokenSource.Dispose();
        tokenSource := null;
      }
    }
  }

  /** Disposing twice: the second call finds no token source and changes nothing. */
  method DisposeTwice(s: MessageSource)
    modifies s, s.tokenSource
    ensures s.tokenSource == null
    ensures old(s.tokenSource) != null ==> old(s.tokenSource).cancellationRequested && old(s.tokenSource).disposed
  {
    s.Dispose();
    s.Dispose();
  }

  /** `Initialize`'s checks: the stream, the deserializers, the table, then distinct type names. */
  method NewMessageSourceOver(
    messages: Option<seq<Envelope>>,
    deserializers: Option<seq<Deserializer>>,
    messageMessageTable: Option<DefaultMessageMessageTable>,
    decode: Codec)
    returns (r: Result<MessageSource, Error>)
    ensures messages.None? ==> r == Err(ArgumentNull("Messages"))
    ensures messages.Some? && deserializers.None? ==> r == Err(ArgumentNull("deserializers"))
    ensures messages.Some? && deserializers.Some? && messageMessageTable.None? ==> r == Err(ArgumentNull("messageMessageTable"))
    ensures messages.Some? && deserializers.Some? && messageMessageTable.Some? ==>
      (r.Ok? <==> DistinctNames(deserializers.value))
      && (r.Err? ==> r.error.DuplicateKey?)
    ensures r.Ok? ==>
      && fresh(r.value) && r.value.Valid()
      && r.value.stream == messages.value && r.value.streamFailure.None?
      && r.value.deserializers == deserializers.value
      && r.value.messageMessageTable == messageMessageTable.value && r.value.tokenSource == null
  {
    if messages.None? {
      return Err(ArgumentNull("Messages"));
    }
    if deserializers.None? {
      return Err(ArgumentNull("deserializers"));
    }
    if messageMessageTable.None? {
      return Err(ArgumentNull("messageMessageTable"));
    }
    ToDictionaryFromSucceedsIffDistinct([], deserializers.value);
    assert [] + deserializers.value == deserializers.value;
    var dictionary := ToDictionaryFrom([], deserializers.value);
    if dictionary.Err? {
      return Err(dictionary.error);
    }
    var s := new MessageSource(messages.value, None, deserializers.value, decode, messageMessageTable.value, null);
    r := Ok(s);
  }

  /**
   * The constructor over an `IMessagingEntityFactory`: a null factory is refused; the
   * stream is what the receive loop forwards for `script`, and the source owns a
   * fresh token source.
   */
  method NewMessageSource(
    messagingEntityFactory: Option<Handle>,
    script: seq<ReceiveStep>,
    deserializers: Option<seq<Deserializer>>,
    messageMessageTable: Option<DefaultMessageMessageTable>,
    decode: Codec)
    returns (r: Result<MessageSource, Error>)
    ensures messagingEntityFactory.None? ==> r == Err(ArgumentNull("messagingEntityFactory"))
    ensures messagingEntityFactory.Some? && deserializers.None? ==> r == Err(ArgumentNull("deserializers"))
    ensures messagingEntityFactory.Some? && deserializers.Some? && messageMessageTable.None? ==>
      r == Err(ArgumentNull("messageMessageTable"))
    ensures messagingEntityFactory.Some? && deserializers.Some? && messageMessageTable.Some? ==>
      (r.Ok? <==> DistinctNames(deserializers.value))
    ensures r.Ok? ==>
      && fresh(r.value) && r.value.Valid()
      && Forwarded(r.value.stream, r.value.streamFailure) == Forward(script)
      && r.value.deserializers == deserializers.value
      && r.value.messageMessageTable == messageMessageTable.value
      && r.value.tokenSource != null && fresh(r.value.tokenSource)
      && !r.value.tokenSource.cancellationRequested && !r.value.tokenSource.disposed
  {
    if messagingEntityFactory.None? {
      return Err(ArgumentNull("messagingEntityFactory"));
    }
    var tokenSource := new CancellationTokenSource();
    var forwarded, failure := ReceiveLoop(script);
    if deserializers.None? {
      return Err(ArgumentNull("deserializers"));
    }
    if messageMessageTable.None? {
      return Err(ArgumentNull("messageMessageTable"));
    }
    ToDictionaryFromSucceedsIffDistinct([], deserializers.value);
    assert [] + deserializers.value == deserializers.value;
    var dictionary := ToDictionaryFrom([], deserializers.value);
    if dictionary.Err? {
      return Err(dictionary.error);
    }
    var s := new MessageSource(forwarded, failure, deserializers.value, decode, messageMessageTable.value, tokenSource);
    r := Ok(s);
  }
}
