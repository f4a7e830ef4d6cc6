/** The write-side reservation aggregate: a lifecycle state machine that
    turns commands into at most one event and folds its own events into
    its fields. */
module Aggregate {
  import opened Wrappers
  import opened Events

  /** The states of the lifecycle machine. */
  datatype Status = Pending | Confirmed | Declined | Cancelled

  /** The named events of the lifecycle machine ("confirmed", "declined",
      "cancelled", "changed"). */
  datatype Transition = ToConfirmed | ToDeclined | ToCancelled | Changed

  /** The transition table: the destination when the transition is allowed
      from `s`, None when it is not. */
  function Fire(s: Status, t: Transition): (d: Option<Status>)
    ensures t == ToConfirmed ==> (d.Some? <==> s == Pending) && (d.Some? ==> d.value == Status.Confirmed)
    ensures t == ToDeclined ==> (d.Some? <==> s == Pending) && (d.Some? ==> d.value == Status.Declined)
    ensures t == ToCancelled ==> (d.Some? <==> s in {Pending, Status.Confirmed}) && (d.Some? ==> d.value == Status.Cancelled)
    ensures t == Changed ==> d == Some(Pending)
  {
    match t
    case ToConfirmed => if s == Pending then Some(Status.Confirmed) else None
    case ToDeclined => if s == Pending then Some(Status.Declined) else None
    case ToCancelled => if s == Pending || s == Status.Confirmed then Some(Status.Cancelled) else None
    case Changed => Some(Pending)
  }

  /** The state after firing `t`: an invalid transition leaves it unchanged. */
  function Next(s: Status, t: Transition): Status
  {
    match Fire(s, t)
    case Some(d) => d
    case None => s
  }

  /** The machine transition an event fires when it is applied, if any. */
  function TransitionOf(e: EventData): Option<Transition>
  {
    match e
    case Confirmed(_) => Some(ToConfirmed)
    case Declined(_, _) => Some(ToDeclined)
    case Cancelled(_) => Some(ToCancelled)
    case TimeChanged(_, _, _) => Some(Changed)
    case _ => None
  }

  /** The fields of the aggregate, as a value. `err` is the error marker. */
  datatype AggState = AggState(
    name: string, startTime: Time, endTime: Time, user: string,
    created: bool, status: Status, err: Option<string>)

  /** A fresh aggregate: zero fields, not created, pending. */
  const Initial: AggState := AggState("", 0, 0, "", false, Pending, None)

  /** The message of the error marker set by a booking conflict. */
  const RoomAlreadyBooked := "Room already booked"

  /** The events a command emits from state `s`. */
  function Decide(s: AggState, cmd: Command): (r: seq<EventData>)
    ensures |r| <= 1
    ensures cmd.CreateReservation? ==>
      (r != [] <==> !s.created) &&
      (r != [] ==> r[0] == Created(cmd.roomId, cmd.name, cmd.user, cmd.startTime, cmd.endTime))
    ensures cmd.ConfirmReservation? ==>
      (r != [] <==> s.status == Pending) && (r != [] ==> r[0] == EventData.Confirmed(cmd.user))
    ensures cmd.DeclineReservation? ==>
      (r != [] <==> s.status == Pending) && (r != [] ==> r[0] == EventData.Declined(cmd.user, cmd.message))
    ensures cmd.CancelReservation? ==>
      (r != [] <==> s.status in {Pending, Status.Confirmed}) && (r != [] ==> r[0] == EventData.Cancelled(cmd.user))
    ensures cmd.ChangeReservationTime? ==>
      (r != [] <==> cmd.endTime > cmd.startTime) &&
      (r != [] ==> r[0] == TimeChanged(cmd.user, cmd.startTime, cmd.endTime))
    // every emitted event is a legal transition from the current status
    ensures forall e :: e in r && TransitionOf(e).Some? ==> Fire(s.status, TransitionOf(e).value).Some?
  {
    match cmd
    case CreateReservation(_, name, user, roomId, startTime, endTime) =>
      if !s.created then [Created(roomId, name, user, startTime, endTime)] else []
    case ConfirmReservation(_, user) =>
      if s.status == Pending then [EventData.Confirmed(user)] else []
    case DeclineReservation(_, user, message) =>
      if s.status == Pending then [EventData.Declined(user, message)] else []
    case CancelReservation(_, user) =>
      if s.status == Pending || s.status == Status.Confirmed then [EventData.Cancelled(user)] else []
    case ChangeReservationTime(_, user, startTime, endTime) =>
      if endTime > startTime then [TimeChanged(user, startTime, endTime)] else []
  }

  /** The state after applying one event. */
  function Evolve(s: AggState, e: EventData): (r: AggState)
    // Created sets the flag and copies the payload, and nothing else
    ensures e.Created? ==>
      r == s.(created := true, name := e.name, startTime := e.startTime, endTime := e.endTime, user := e.user)
    // TimeChanged replaces the interval and resets the status to pending
    ensures e.TimeChanged? ==>
      r == s.(status := Pending, startTime := e.startTime, endTime := e.endTime)
    // a booking conflict only records the error marker
    ensures e.BookingConflicted? ==> r == s.(err := Some(RoomAlreadyBooked))
    // confirm, decline and cancel change only the status
    ensures e.Confirmed? || e.Declined? || e.Cancelled? ==> r == s.(status := r.status)
    // the status changes only along the table, otherwise it stays
    ensures TransitionOf(e).None? ==> r.status == s.status
    ensures TransitionOf(e).Some? ==>
      r.status == (if Fire(s.status, TransitionOf(e).value).Some? then Fire(s.status, TransitionOf(e).value).value else s.status)
    ensures r.status == Status.Confirmed && s.status != Status.Confirmed ==> s.status == Pending && e.Confirmed?
    ensures r.status == Status.Declined && s.status != Status.Declined ==> s.status == Pending && e.Declined?
    ensures r.status == Status.Cancelled && s.status != Status.Cancelled ==> s.status in {Pending, Status.Confirmed} && e.Cancelled?
    ensures r.status == Pending && s.status != Pending ==> e.TimeChanged?
  {
    match e
    case Created(_, name, user, startTime, endTime) =>
      s.(created := true, name := name, startTime := startTime, endTime := endTime, user := user)
    case Confirmed(_) => s.(status := Next(s.status, ToConfirmed))
    case Declined(_, _) => s.(status := Next(s.status, ToDeclined))
    case TimeChanged(_, startTime, endTime) =>
      s.(status := Next(s.status, Changed), startTime := startTime, endTime := endTime)
    case Cancelled(_) => s.(status := Next(s.status, ToCancelled))
    case BookingConflicted => s.(err := Some(RoomAlreadyBooked))
    case Unknown(_) => s
  }

  /** Replaying an event log from a state. */
  function Replay(s: AggState, log: seq<EventData>): AggState
    decreases |log|
  {
    if log == [] then s else Replay(Evolve(s, log[0]), log[1..])
  }

  /** Replaying a log in two parts is replaying it whole. */
  lemma {:induction false} ReplayAppend(s: AggState, log1: seq<EventData>, log2: seq<EventData>)
    ensures Replay(s, log1 + log2) == Replay(Replay(s, log1), log2)
    decreases |log1|
  {
    if log1 == [] {
      assert log1 + log2 == log2;
    } else {
      assert (log1 + log2)[0] == log1[0];
      assert (log1 + log2)[1..] == log1[1..] + log2;
      ReplayAppend(Evolve(s, log1[0]), log1[1..], log2);
    }
  }

  /** Once created, an aggregate stays created, whatever it replays. */
  lemma {:induction false} CreatedIsSticky(s: AggState, log: seq<EventData>)
    requires s.created
    ensures Replay(s, log).created
    decreases |log|
  {
    if log != [] {
      CreatedIsSticky(Evolve(s, log[0]), log[1..]);
    }
  }

  /** Only a time change takes a reservation out of the cancelled state. */
  lemma {:induction false} CancelledLeftOnlyByTimeChange(s: AggState, log: seq<EventData>)
    requires s.status == Status.Cancelled
    requires forall i :: 0 <= i < |log| ==> !log[i].TimeChanged?
    ensures Replay(s, log).status == Status.Cancelled
    decreases |log|
  {
    if log != [] {
      CancelledLeftOnlyByTimeChange(Evolve(s, log[0]), log[1..]);
    }
  }

  /** Extending an aggregate's log: a log that has created the reservation
      still has after any further events, and one that has cancelled it
      still has after further events with no time change among them. */
  lemma LaterEventsKeepCreatedAndCancelled(s: AggState, log: seq<EventData>, later: seq<EventData>)
    ensures Replay(s, log).created ==> Replay(s, log + later).created
    ensures Replay(s, log).status == Status.Cancelled && (forall i :: 0 <= i < |later| ==> !later[i].TimeChanged?) ==>
      Replay(s, log + later).status == Status.Cancelled
  {
    ReplayAppend(s, log, later);
    if Replay(s, log).created {
      CreatedIsSticky(Replay(s, log), later);
    }
    if Replay(s, log).status == Status.Cancelled && (forall i :: 0 <= i < |later| ==> !later[i].TimeChanged?) {
      CancelledLeftOnlyByTimeChange(Replay(s, log), later);
    }
  }

  /** Handling a command and applying what it emitted moves the status to
      the command's target: the guards never emit a transition the table
      would ignore. */
  lemma DecidedEventTakesEffect(s: AggState, cmd: Command)
    ensures var r := Replay(s, Decide(s, cmd));
      && (cmd.ConfirmReservation? && s.status == Pending ==> r.status == Status.Confirmed)
      && (cmd.DeclineReservation? && s.status == Pending ==> r.status == Status.Declined)
      && (cmd.CancelReservation? && s.status in {Pending, Status.Confirmed} ==> r.status == Status.Cancelled)
      && (cmd.ChangeReservationTime? && cmd.endTime > cmd.startTime ==>
            r.status == Pending && r.startTime == cmd.startTime && r.endTime == cmd.endTime)
      && (cmd.CreateReservation? && !s.created ==> r.created && r.user == cmd.user)
  {
    var evs := Decide(s, cmd);
    if evs != [] {
      assert Replay(s, evs) == Replay(Evolve(s, evs[0]), []);
    }
  }

  /** The aggregate object: its fields and the events appended by command
      handling that are not yet committed to the store. */
  class ReservationAggregate {
    const id: Id
    var name: string
    var startTime: Time
    var endTime: Time
    var user: string
    var created: bool
    var status: Status
    var err: Option<string>
    var uncommitted: seq<EventData>

    /** The fields as a value. */
    function State(): AggState
      reads this
    {
      AggState(name, startTime, endTime, user, created, status, err)
    }

    /** A new aggregate starts pending and not created. */
    constructor (id: Id)
      ensures this.id == id
      ensures State() == Initial && !created && status == Pending
      ensures uncommitted == []
    {
      this.id := id;
      name, startTime, endTime, user := "", 0, 0, "";
      created, status, err := false, Pending, None;
      uncommitted := [];
    }

    /** Fires a machine transition; an invalid one leaves the status as it is
        and reports failure. */
    method FireTransition(t: Transition) returns (ok: bool)
      modifies this`status
      ensures ok == Fire(old(status), t).Some?
      ensures status == Next(old(status), t)
    {
      var d := Fire(status, t);
      ok := d.Some?;
      if ok {
        status := d.value;
      }
    }

    /** Validates a command against the current state and appends at most one
        event. The source handler always returns nil, so there is no error result. */
    method HandleCommand(cmd: Command)
      modifies this`uncommitted
      ensures uncommitted == old(uncommitted) + Decide(State(), cmd)
      ensures |uncommitted| <= |old(uncommitted)| + 1
    {
      match cmd
      case CreateReservation(_, name, user, roomId, startTime, endTime) =>
        if !created {
          uncommitted := uncommitted + [Created(roomId, name, user, startTime, endTime)];
        }
      case ConfirmReservation(_, user) =>
        if status == Pending {
          uncommitted := uncommitted + [EventData.Confirmed(user)];
        }
      case DeclineReservation(_, user, message) =>
        if status == Pending {
          uncommitted := uncommitted + [EventData.Declined(user, message)];
        }
      case CancelReservation(_, user) =>
        if status == Pending || status == Status.Confirmed {
          uncommitted := uncommitted + [EventData.Cancelled(user)];
        }
      case ChangeReservationTime(_, user, startTime, endTime) =>
        if endTime > startTime {
          uncommitted := uncommitted + [TimeChanged(user, startTime, endTime)];
        }
    }

    /** Applies one of the aggregate's events to its fields. */
    method ApplyEvent(e: Event)
      modifies this
      ensures State() == Evolve(old(State()), e.data)
      ensures uncommitted == old(uncommitted)
    {
      match e.data
      case Created(_, name, user, startTime, endTime) =>
        created := true;
        this.name := name;
        this.startTime := startTime;
        this.endTime := endTime;
        this.user := user;
      case Confirmed(_) =>
        var _ := FireTransition(ToConfirmed);
      case Declined(_, _) =>
        var _ := FireTransition(ToDeclined);
      case TimeChanged(_, startTime, endTime) =>
        var _ := FireTransition(Changed);
        this.startTime := startTime;
        this.endTime := endTime;
      case Cancelled(_) =>
        var _ := FireTransition(ToCancelled);
      case BookingConflicted =>
        err := Some(RoomAlreadyBooked);
      case Unknown(_) =>
    }
  }
}
