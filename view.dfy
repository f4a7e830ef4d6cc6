/** The reservation read model and its projector: one snapshot per
    reservation, advanced by one event at a time. */
module View {
  import opened Wrappers
  import opened Events

  /** The status string of the read model. `StatusEmpty` is the empty
      string a zero-valued snapshot carries before its Created event. */
  datatype ReservationStatus = StatusEmpty | StatusPending | StatusDeclined | StatusConfirmed | StatusCancelled

  datatype Reservation = Reservation(
    id: Id, version: int, name: string, creator: string, roomId: int,
    startTime: Time, endTime: Time, status: ReservationStatus)

  /** The zero-valued snapshot the repository starts a reservation from. */
  const Zero := Reservation(0, 0, "", "", 0, 0, 0, StatusEmpty)

  /** The entity handed to the projector: a reservation snapshot, or an
      entity of some other model. */
  datatype Entity = ReservationEntity(reservation: Reservation) | OtherEntity

  const IncorrectType := "model is of incorrect type"
  const CouldNotHandleEvent := "could not handle event"

  /** The status an event kind leads to, if the projector handles it. */
  function StatusAfter(d: EventData): Option<ReservationStatus>
  {
    match d
    case Created(_, _, _, _, _) => Some(StatusPending)
    case Confirmed(_) => Some(StatusConfirmed)
    case Declined(_, _) => Some(StatusDeclined)
    case TimeChanged(_, _, _) => Some(StatusPending)
    case Cancelled(_) => Some(StatusCancelled)
    case BookingConflicted => Some(StatusDeclined)
    case Unknown(_) => None
  }

  /** Projects one event onto a snapshot. */
  function Project(e: Event, entity: Entity): (r: Result<Reservation>)
    ensures entity.OtherEntity? ==> r == Err("model is of incorrect type")
    ensures entity.ReservationEntity? ==> (r.Ok? <==> ViewReceives(e.data))
    ensures r.Ok? ==> r.value.version == entity.reservation.version + 1
    ensures r.Ok? ==> Some(r.value.status) == StatusAfter(e.data)
    ensures r.Ok? && e.data.Created? ==>
      var d := e.data;
      r.value == entity.reservation.(id := e.aggregateId, name := d.name, creator := d.user,
                                     roomId := d.roomId, startTime := d.startTime, endTime := d.endTime,
                                     status := StatusPending, version := entity.reservation.version + 1)
    ensures r.Ok? && e.data.TimeChanged? ==>
      r.value == entity.reservation.(startTime := e.data.startTime, endTime := e.data.endTime,
                                     status := StatusPending, version := entity.reservation.version + 1)
    ensures r.Ok? && !e.data.Created? && !e.data.TimeChanged? ==>
      r.value == entity.reservation.(status := r.value.status, version := entity.reservation.version + 1)
  {
    match entity
    case OtherEntity => Err(IncorrectType)
    case ReservationEntity(s) =>
      var next :=
        match e.data
        case Created(roomId, name, user, startTime, endTime) =>
          Some(s.(id := e.aggregateId, name := name, creator := user, startTime := startTime,
                  endTime := endTime, status := StatusPending, roomId := roomId))
        case Confirmed(_) => Some(s.(status := StatusConfirmed))
        case Declined(_, _) => Some(s.(status := StatusDeclined))
        case TimeChanged(_, startTime, endTime) =>
          Some(s.(status := StatusPending, startTime := startTime, endTime := endTime))
        case Cancelled(_) => Some(s.(status := StatusCancelled))
        case BookingConflicted => Some(s.(status := StatusDeclined))
        case Unknown(_) => None;
      match next
      case None => Err(CouldNotHandleEvent)
      case Some(n) => Ok(n.(version := n.version + 1))
  }

  /** The new status depends on the event kind alone, never on the prior
      snapshot: two snapshots projected with the same event end in the same
      status (so, for example, Confirmed after Cancelled yields confirmed). */
  lemma StatusIndependentOfPrior(e: Event, a: Reservation, b: Reservation)
    requires ViewReceives(e.data)
    ensures Project(e, ReservationEntity(a)).Ok? && Project(e, ReservationEntity(b)).Ok?
    ensures Project(e, ReservationEntity(a)).value.status == Project(e, ReservationEntity(b)).value.status
  {
  }

  /** Projection of a stream of events onto a snapshot, stopping at the
      first error. */
  function ProjectAll(s: Reservation, events: seq<Event>): Result<Reservation>
    decreases |events|
  {
    if events == [] then Ok(s)
    else
      match Project(events[0], ReservationEntity(s))
      case Err(msg) => Err(msg)
      case Ok(s') => ProjectAll(s', events[1..])
  }

  /** A stream the view receives is projected without error; the version
      advances by the number of events, and the status is the one the last
      event leads to. */
  lemma {:induction false} ProjectAllCounts(s: Reservation, events: seq<Event>)
    requires forall i :: 0 <= i < |events| ==> ViewReceives(events[i].data)
    ensures ProjectAll(s, events).Ok?
    ensures ProjectAll(s, events).value.version == s.version + |events|
    ensures events != [] ==> Some(ProjectAll(s, events).value.status) == StatusAfter(events[|events| - 1].data)
    decreases |events|
  {
    if events != [] {
      var s' := Project(events[0], ReservationEntity(s)).value;
      ProjectAllCounts(s', events[1..]);
      if |events| > 1 {
        assert events[1..][|events[1..]| - 1] == events[|events| - 1];
      }
    }
  }

  /** A stream holding an event kind the view does not receive ends in an
      error. */
  lemma {:induction false} ProjectAllRejectsUnknown(s: Reservation, events: seq<Event>, i: nat)
    requires i < |events| && !ViewReceives(events[i].data)
    ensures ProjectAll(s, events).Err?
    decreases i
  {
    if i > 0 && Project(events[0], ReservationEntity(s)).Ok? {
      ProjectAllRejectsUnknown(Project(events[0], ReservationEntity(s)).value, events[1..], i - 1);
    }
  }
}
