/**
 * Values shared by every part of the routing layer: message types, entity kinds,
 * opaque collaborator handles, and the failure-compatible wrappers the model uses
 * in place of exceptions and null.
 */
module Core {

  /** A CLR type as the routing layer sees it: `Name` is what `Type.Name` returns. */
  datatype MessageType = MessageType(namespace: string, name: string)

  /** The kinds of messaging entity (`MessagingEntityType`). */
  datatype EntityKind = Queue | Topic | Subscription

  /** An opaque collaborator (serializer, factory, filter, client ...) identified only by identity. */
  datatype Handle = Handle(id: nat)

  /** Identity of a live object; the association tables are keyed by it. */
  type ObjectId = nat

  /** A possibly-null reference or an absent value. */
  datatype Option<+T> = None | Some(value: T)

  /** The result of an operation that either returns a value or throws. */
  datatype Result<+T, +E> = Ok(value: T) | Err(error: E) {
    predicate IsFailure() { Err? }
    function PropagateFailure<U>(): Result<U, E>
      requires Err?
    {
      Err(error)
    }
    function Extract(): T
      requires Ok?
    {
      value
    }
  }

  /** The result of an operation that returns nothing or throws. */
  datatype Outcome<+E> = Pass | Fail(error: E)

  /** `string.IsNullOrEmpty`. */
  predicate IsNullOrEmpty(s: Option<string>): (r: bool)
    ensures s.None? ==> r
    ensures s == Some("") ==> r
    ensures s.Some? && |s.value| > 0 ==> !r
  {
    s.None? || s.value == ""
  }

  /** The display name of an entity kind, as `Enum.ToString` gives it. */
  function KindName(k: EntityKind): string
  {
    match k
    case Queue => "Queue"
    case Topic => "Topic"
    case Subscription => "Subscription"
  }
}
