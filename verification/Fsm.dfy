/** The lifecycle state machine: a table of rows, and the lookup the application uses. */
module Fsm {
  import opened Storage

  datatype Event =
    | EventCreate
    | EventReady
    | EventAttach
    | EventAttached
    | EventDetach
    | EventDetached
    | EventDelete
    | EventDeleted
    | EventError
    | EventRetry
    | EventFail

  /** One row of the table: the event leads from any of the sources to the destination. */
  datatype Row = Row(name: Event, src: seq<State>, dst: State)

  const TABLE: seq<Row> := [
    Row(EventCreate, [Pending], Creating),
    Row(EventReady, [Creating], Available),
    Row(EventAttach, [Available], Attaching),
    Row(EventAttached, [Attaching], Attached),
    Row(EventDetach, [Attached], Detaching),
    Row(EventDetached, [Detaching], Available),
    Row(EventDelete, [Available], Deleting),
    Row(EventDeleted, [Deleting], Deleted),
    Row(EventError, [Creating], CreatingFailed),
    Row(EventError, [Attaching], AttachingFailed),
    Row(EventError, [Detaching], DetachingFailed),
    Row(EventError, [Deleting], DeletingFailed),
    Row(EventRetry, [CreatingFailed], Creating),
    Row(EventRetry, [AttachingFailed], Attaching),
    Row(EventRetry, [DetachingFailed], Detaching),
    Row(EventRetry, [DeletingFailed], Deleting),
    Row(EventFail, [CreatingFailed, AttachingFailed, DetachingFailed, DeletingFailed], Error)
  ]

  /** The state that `event` leads to from `current`, if the event is valid there. */
  function Transition(current: State, event: Event): Option<State> {
    match (event, current)
    case (EventCreate, Pending) => Some(Creating)
    case (EventReady, Creating) => Some(Available)
    case (EventAttach, Available) => Some(Attaching)
    case (EventAttached, Attaching) => Some(Attached)
    case (EventDetach, Attached) => Some(Detaching)
    case (EventDetached, Detaching) => Some(Available)
    case (EventDelete, Available) => Some(Deleting)
    case (EventDeleted, Deleting) => Some(Deleted)
    case (EventError, Creating) => Some(CreatingFailed)
    case (EventError, Attaching) => Some(AttachingFailed)
    case (EventError, Detaching) => Some(DetachingFailed)
    case (EventError, Deleting) => Some(DeletingFailed)
    case (EventRetry, CreatingFailed) => Some(Creating)
    case (EventRetry, AttachingFailed) => Some(Attaching)
    case (EventRetry, DetachingFailed) => Some(Detaching)
    case (EventRetry, DeletingFailed) => Some(Deleting)
    case (EventFail, CreatingFailed) => Some(Error)
    case (EventFail, AttachingFailed) => Some(Error)
    case (EventFail, DetachingFailed) => Some(Error)
    case (EventFail, DeletingFailed) => Some(Error)
    case _ => None
  }

  predicate CanTransition(current: State, event: Event) {
    Transition(current, event).Some?
  }

  ghost predicate RowAllows(row: Row, current: State, event: Event, next: State) {
    row.name == event && current in row.src && row.dst == next
  }

  /** The position of the row that covers a valid transition. */
  function RowIndex(current: State, event: Event): (i: nat)
    requires CanTransition(current, event)
    ensures i < |TABLE| && RowAllows(TABLE[i], current, event, Transition(current, event).value)
  {
    match event
    case EventCreate => 0
    case EventReady => 1
    case EventAttach => 2
    case EventAttached => 3
    case EventDetach => 4
    case EventDetached => 5
    case EventDelete => 6
    case EventDeleted => 7
    case EventError =>
      (match current case Creating => 8 case Attaching => 9 case Detaching => 10 case _ => 11)
    case EventRetry =>
      (match current case CreatingFailed => 12 case AttachingFailed => 13 case DetachingFailed => 14 case _ => 15)
    case EventFail => 16
  }

  /** The lookup agrees with the table in both directions, so the table is deterministic. */
  lemma TransitionIsTheTable(current: State, event: Event, next: State)
    ensures Transition(current, event) == Some(next)
       <==> exists i | 0 <= i < |TABLE| :: RowAllows(TABLE[i], current, event, next)
  {
    if i :| 0 <= i < |TABLE| && RowAllows(TABLE[i], current, event, next) {
      RowDecides(i, current, event, next);
    }
    if Transition(current, event) == Some(next) {
      var i := RowIndex(current, event);
      assert RowAllows(TABLE[i], current, event, next);
    }
  }

  lemma RowDecides(i: nat, current: State, event: Event, next: State)
    requires i < |TABLE| && RowAllows(TABLE[i], current, event, next)
    ensures Transition(current, event) == Some(next)
  {
    if i < 8 {
      assert current == TABLE[i].src[0];
    } else {
      FailureRowDecides(i, current, event, next);
    }
  }

  lemma FailureRowDecides(i: nat, current: State, event: Event, next: State)
    requires 8 <= i < |TABLE| && RowAllows(TABLE[i], current, event, next)
    ensures Transition(current, event) == Some(next)
  {
    if i < 16 {
      assert current == TABLE[i].src[0];
    }
  }

  // ----- The four asynchronous operations and the states they move through -----

  datatype Kind = CreateOp | AttachOp | DetachOp | DeleteOp

  /** The event the request applies before it starts its worker. */
  function Request(k: Kind): Event {
    match k
    case CreateOp => EventCreate
    case AttachOp => EventAttach
    case DetachOp => EventDetach
    case DeleteOp => EventDelete
  }

  /** The event the worker applies once the backend call succeeded. */
  function Success(k: Kind): Event {
    match k
    case CreateOp => EventReady
    case AttachOp => EventAttached
    case DetachOp => EventDetached
    case DeleteOp => EventDeleted
  }

  function Busy(k: Kind): State {
    match k case CreateOp => Creating case AttachOp => Attaching case DetachOp => Detaching case DeleteOp => Deleting
  }

  function Broken(k: Kind): State {
    match k
    case CreateOp => CreatingFailed
    case AttachOp => AttachingFailed
    case DetachOp => DetachingFailed
    case DeleteOp => DeletingFailed
  }

  function Target(k: Kind): State {
    match k case CreateOp => Available case AttachOp => Attached case DetachOp => Available case DeleteOp => Deleted
  }

  predicate IsBusy(s: State) {
    s == Creating || s == Attaching || s == Detaching || s == Deleting
  }

  predicate IsBroken(s: State) {
    s == CreatingFailed || s == AttachingFailed || s == DetachingFailed || s == DeletingFailed
  }

  /** In progress or failed: the states that startup reconciliation looks for. */
  predicate IsTransitional(s: State) {
    IsBusy(s) || IsBroken(s)
  }

  /** The operation a transitional state belongs to. */
  function KindOf(s: State): (k: Kind)
    requires IsTransitional(s)
    ensures s == Busy(k) || s == Broken(k)
  {
    match s
    case Creating => CreateOp
    case CreatingFailed => CreateOp
    case Attaching => AttachOp
    case AttachingFailed => AttachOp
    case Detaching => DetachOp
    case DetachingFailed => DetachOp
    case _ => DeleteOp
  }
}
