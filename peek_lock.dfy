/**
 * Peek-lock control (PeekLockMessageControl.cs): a single-use handle bound to one
 * received envelope, the fake provider used in tests, and the static
 * `MessagePeekLockControlProvider` that holds the configured provider.
 */
module PeekLock {
  import opened Core
  import opened Errors
  import opened Envelopes
  import opened MessageTables

  /** A call the control makes on the `IMessageSession`, with the envelope's lock token. */
  datatype SessionCall =
    | AbandonCall(lockToken: string)
    | CompleteCall(lockToken: string)
    | DeadLetterCall(lockToken: string)
    | RenewLockCall(lockToken: string)

  /** An `IMessageSession`, observed through the calls made on it. */
  class MessageSession {
    var calls: seq<SessionCall>

    constructor ()
      ensures calls == []
    {
      calls := [];
    }

    /** Records one call; `outcome` is how the transport answered it. */
    method Perform(call: SessionCall, outcome: Outcome<Error>) returns (r: Outcome<Error>)
      modifies this
      ensures calls == old(calls) + [call] && r == outcome
    {
      calls := calls + [call];
      r := outcome;
    }
  }

  const AlreadyProcessedMessage := "The message has already been abandoned, completed or rejected."

  /** The action a consuming operation performs. */
  datatype Action = Abandon | Complete | DeadLetter

  function CallFor(a: Action, lockToken: string): SessionCall
  {
    match a
    case Abandon => AbandonCall(lockToken)
    case Complete => CompleteCall(lockToken)
    case DeadLetter => DeadLetterCall(lockToken)
  }

  /** `DefaultMessagePeekLockControl`: `message` is null once the control has been consumed. */
  class DefaultMessagePeekLockControl {
    const session: MessageSession
    var message: Option<Envelope>

    constructor (session: MessageSession, message: Option<Envelope>)
      ensures this.session == session && this.message == message
    {
      this.session := session;
      this.message := message;
    }

    predicate Processed()
      reads this
    {
      message.None?
    }

    /**
     * `PerformMessageActionAndDisposeAsync`: refuses a consumed control without touching
     * the session; otherwise performs the action once, and clears the message only after
     * the action succeeded.
     */
    method PerformMessageActionAndDispose(action: Action, outcome: Outcome<Error>) returns (r: Outcome<Error>)
      modifies this, session
      ensures old(message).None? ==>
        r == Fail(InvalidOperation(AlreadyProcessedMessage)) && message.None? && session.calls == old(session.calls)
      ensures old(message).Some? ==>
        && session.calls == old(session.calls) + [CallFor(action, old(message).value.lockToken)]
        && r == outcome
        && message == (if outcome.Pass? then None else old(message))
    {
      if message.None? {
        return Fail(InvalidOperation(AlreadyProcessedMessage));
      }
      r := session.Perform(CallFor(action, message.value.lockToken), outcome);
      if r.Fail? {
        return;
      }
      message := None;
    }

    method AbandonAsync(outcome: Outcome<Error>) returns (r: Outcome<Error>)
      modifies this, session
      ensures old(message).None? ==>
        r == Fail(InvalidOperation(AlreadyProcessedMessage)) && message.None? && session.calls == old(session.calls)
      ensures old(message).Some? ==>
        && session.calls == old(session.calls) + [AbandonCall(old(message).value.lockToken)]
        && r == outcome && message == (if outcome.Pass? then None else old(message))
    {
      r := PerformMessageActionAndDispose(Abandon, outcome);
    }

    method CompleteAsync(outcome: Outcome<Error>) returns (r: Outcome<Error>)
      modifies this, session
      ensures old(message).None? ==>
        r == Fail(InvalidOperation(AlreadyProcessedMessage)) && message.None? && session.calls == old(session.calls)
      ensures old(message).Some? ==>
        && session.calls == old(session.calls) + [CompleteCall(old(message).value.lockToken)]
        && r == outcome && message == (if outcome.Pass? then None else old(message))
    {
      r := PerformMessageActionAndDispose(Complete, outcome);
    }

    /** `RejectAsync` dead-letters the envelope; the reason code and description are not passed on. */
    method RejectAsync(reasonCode: string, description: string, outcome: Outcome<Error>) returns (r: Outcome<Error>)
      modifies this, session
      ensures old(message).None? ==>
        r == Fail(InvalidOperation(AlreadyProcessedMessage)) && message.None? && session.calls == old(session.calls)
      ensures old(message).Some? ==>
        && session.calls == old(session.calls) + [DeadLetterCall(old(message).value.lockToken)]
        && r == outcome && message == (if outcome.Pass? then None else old(message))
    {
      r := PerformMessageActionAndDispose(DeadLetter, outcome);
    }

    /** `RenewLockAsync` checks the state but never consumes the control. */
    method RenewLockAsync(outcome: Outcome<Error>) returns (r: Outcome<Error>)
      modifies session
      ensures message.None? ==>
        r == Fail(InvalidOperation(AlreadyProcessedMessage)) && session.calls == old(session.calls)
      ensures message.Some? ==>
        session.calls == old(session.calls) + [RenewLockCall(message.value.lockToken)] && r == outcome
    {
      if message.None? {
        return Fail(InvalidOperation(AlreadyProcessedMessage));
      }
      r := session.Perform(RenewLockCall(message.value.lockToken), outcome);
    }
  }

  /**
   * Completing twice: the first call completes the envelope once; the second fails as
   * already processed and makes no further session call.
   */
  method CompleteTwice(control: DefaultMessagePeekLockControl)
    returns (first: Outcome<Error>, second: Outcome<Error>)
    requires control.message.Some?
    modifies control, control.session
    ensures first == Pass
    ensures second == Fail(InvalidOperation(AlreadyProcessedMessage))
    ensures control.session.calls == old(control.session.calls) + [CompleteCall(old(control.message).value.lockToken)]
    ensures control.Processed()
  {
    first := control.CompleteAsync(Pass);
    second := control.CompleteAsync(Pass);
  }

  /** Renewing a lock any number of times leaves the control usable for one consuming action. */
  method RenewThenComplete(control: DefaultMessagePeekLockControl, renewals: nat)
    returns (r: Outcome<Error>)
    requires control.message.Some?
    modifies control, control.session
    ensures r == Pass && control.Processed()
    ensures |control.session.calls| == |old(control.session.calls)| + renewals + 1
    ensures control.session.calls[|control.session.calls| - 1] == CompleteCall(old(control.message).value.lockToken)
  {
    var i := 0;
    while i < renewals
      invariant 0 <= i <= renewals
      invariant control.message == old(control.message)
      invariant |control.session.calls| == |old(control.session.calls)| + i
    {
      var _ := control.RenewLockAsync(Pass);
      i := i + 1;
    }
    r := control.CompleteAsync(Pass);
  }

  /** `DefaultMessagePeekLockControlProvider`: binds each control to the envelope the table associates. */
  class DefaultMessagePeekLockControlProvider {
    const session: MessageSession
    const messageTable: DefaultMessageMessageTable

    constructor (session: MessageSession, messageTable: DefaultMessageMessageTable)
      ensures this.session == session && this.messageTable == messageTable
    {
      this.session := session;
      this.messageTable := messageTable;
    }

    /** A fresh control; an object with no associated envelope gets a control that is already consumed. */
    method GetMessagePeekLockControl(obj: ObjectId) returns (c: DefaultMessagePeekLockControl)
      ensures fresh(c) && c.session == session
      ensures c.message == messageTable.GetMessageForObject(obj)
      ensures c.Processed() <==> obj !in messageTable.entries
    {
      c := new DefaultMessagePeekLockControl(session, messageTable.GetMessageForObject(obj));
    }
  }

  /** `FakeMessagePeekLockControl`: stateless; every operation completes at once. */
  class FakeMessagePeekLockControl {
    constructor ()
    {
    }

    method AbandonAsync() returns (r: Outcome<Error>)
      ensures r == Pass
    {
      r := Pass;
    }

    method CompleteAsync() returns (r: Outcome<Error>)
      ensures r == Pass
    {
      r := Pass;
    }

    method RejectAsync(reasonCode: string, description: string) returns (r: Outcome<Error>)
      ensures r == Pass
    {
      r := Pass;
    }

    method RenewLockAsync() returns (r: Outcome<Error>)
      ensures r == Pass
    {
      r := Pass;
    }
  }

  /** `FakeMessagePeekLockControlProvider`: the one shared `Default` control for every message. */
  class FakeMessagePeekLockControlProvider {
    const default: FakeMessagePeekLockControl

    constructor (default: FakeMessagePeekLockControl)
      ensures this.default == default
    {
      this.default := default;
    }

    method GetMessagePeekLockControl(obj: ObjectId) returns (c: FakeMessagePeekLockControl)
      ensures c == default
    {
      c := default;
    }
  }

  datatype PeekLockControlProvider =
    | DefaultPeekLock(default: DefaultMessagePeekLockControlProvider)
    | FakePeekLock(fake: FakeMessagePeekLockControlProvider)
    | CustomPeekLock(custom: Handle)

  /**
   * The static `MessagePeekLockControlProvider`. `messageTable` is the static message
   * table and `fakeControl` the static `FakeMessagePeekLockControl.Default`.
   */
  class MessagePeekLockControlProvider {
    var instance: Option<PeekLockControlProvider>
    const messageTable: DefaultMessageMessageTable
    const fakeControl: FakeMessagePeekLockControl

    constructor (messageTable: DefaultMessageMessageTable, fakeControl: FakeMessagePeekLockControl)
      ensures instance.None? && this.messageTable == messageTable && this.fakeControl == fakeControl
    {
      instance := None;
      this.messageTable := messageTable;
      this.fakeControl := fakeControl;
    }

    /** `ConfiguredInstance`: whatever was last installed, null included; nothing is installed lazily. */
    function ConfiguredInstance(): (r: Option<PeekLockControlProvider>)
      reads this
      ensures r == instance
    {
      instance
    }

    method Use(p: Option<PeekLockControlProvider>)
      modifies this
      ensures instance == p
    {
      instance := p;
    }

    method UseDefault(session: MessageSession)
      modifies this
      ensures instance.Some? && instance.value.DefaultPeekLock? && fresh(instance.value.default)
      ensures instance.value.default.session == session
      ensures instance.value.default.messageTable == messageTable
    {
      var d := new DefaultMessagePeekLockControlProvider(session, messageTable);
      Use(Some(DefaultPeekLock(d)));
    }

    method UseFakeMessagePeekLockControlProvider()
      modifies this
      ensures instance.Some? && instance.value.FakePeekLock? && fresh(instance.value.fake)
      ensures instance.value.fake.default == fakeControl
    {
      var f := new FakeMessagePeekLockControlProvider(fakeControl);
      Use(Some(FakePeekLock(f)));
    }
  }
}
