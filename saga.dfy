/** The conflict saga: an in-memory per-room index of held intervals that
    confirms or declines reservations as their events arrive. */
module Saga {
  import opened Events

  /** A held interval. */
  datatype Interval = Interval(startTime: Time, endTime: Time)

  /** The reservations held in one room, by reservation id. */
  type Room = map<Id, Interval>

  /** The index: rooms by number. */
  type Rooms = map<int, Room>

  /** t1 is after t2 or equal to it. */
  predicate AfterEquals(t1: Time, t2: Time)
  {
    t1 > t2 || t1 == t2
  }

  /** The overlap test of the saga. */
  predicate TimeIntersect(start1: Time, end1: Time, start2: Time, end2: Time)
  {
    (AfterEquals(start2, start1) && start2 < end1) || (AfterEquals(start1, start2) && start1 < end2)
  }

  predicate Intersects(a: Interval, b: Interval)
  {
    TimeIntersect(a.startTime, a.endTime, b.startTime, b.endTime)
  }

  lemma TimeIntersectSymmetric(s1: Time, e1: Time, s2: Time, e2: Time)
    ensures TimeIntersect(s1, e1, s2, e2) == TimeIntersect(s2, e2, s1, e1)
  {
  }

  /** On non-empty intervals the test is the half-open overlap test, so
      intervals that only touch do not intersect. */
  lemma TimeIntersectHalfOpen(s1: Time, e1: Time, s2: Time, e2: Time)
    requires s1 < e1 && s2 < e2
    ensures TimeIntersect(s1, e1, s2, e2) <==> s1 < e2 && s2 < e1
    ensures e1 == s2 ==> !TimeIntersect(s1, e1, s2, e2)
  {
  }

  /** No two held intervals of a room intersect. */
  ghost predicate NoOverlap(room: Room)
  {
    forall a, b :: a in room && b in room && a != b ==> !Intersects(room[a], room[b])
  }

  /** The rooms the saga is created with. */
  const RoomNumbers: set<int> := set i | 1 <= i < 7

  const InitialRooms: Rooms := map i | i in RoomNumbers :: map[]

  /** The index invariant: rooms 1 to 6 exist and none holds two intersecting intervals. */
  ghost predicate ValidRooms(rooms: Rooms)
  {
    && rooms.Keys == RoomNumbers
    && forall r :: r in rooms ==> NoOverlap(rooms[r])
  }

  lemma InitialRoomsValid()
    ensures ValidRooms(InitialRooms)
    ensures forall r :: r in InitialRooms ==> InitialRooms[r] == map[]
  {
  }

  /** Some held interval of the room intersects `iv`. */
  predicate Clashes(room: Room, iv: Interval)
  {
    exists k :: k in room && Intersects(room[k], iv)
  }

  /** Whether the handler ended normally or panicked (a write into the
      missing map of a room that does not exist). */
  datatype Outcome = Handled | Crashed

  /** What one event does: the new index, the commands dispatched in
      order, and the outcome. */
  datatype Reaction = Reaction(rooms: Rooms, commands: seq<Command>, outcome: Outcome)

  const Scheduler := "Scheduler"
  const RoomDoesNotExist := "Room does not exist."
  const RoomOccupied := "Room occupied."
  /** The decline message of a time change, which has no full stop. */
  const RoomOccupiedNoStop := "Room occupied"

  function Decline(id: Id, message: string): Command
  {
    DeclineReservation(id, Scheduler, message)
  }

  function Confirm(id: Id): Command
  {
    ConfirmReservation(id, Scheduler)
  }

  /** The reaction to a Created event for reservation `id` in room `roomId`. */
  function OnCreated(rooms: Rooms, id: Id, roomId: int, iv: Interval): Reaction
  {
    if roomId !in rooms then
      Reaction(rooms, [Decline(id, RoomDoesNotExist), Decline(id, RoomDoesNotExist)], Crashed)
    else if id in rooms[roomId] then
      Reaction(rooms, [], Handled)
    else if Clashes(rooms[roomId], iv) then
      Reaction(rooms, [Decline(id, RoomOccupied)], Handled)
    else
      Reaction(rooms[roomId := Take(rooms[roomId], id, iv)], [Confirm(id)], Handled)
  }

  /** Room `room` with `iv` held for reservation `id`. */
  function Take(room: Room, id: Id, iv: Interval): (room': Room)
    ensures room'.Keys == room.Keys + {id} && room'[id] == iv
    ensures forall k :: k in room && k != id ==> room'[k] == room[k]
  {
    room[id := iv]
  }

  /** Some room holds reservation `id`. */
  predicate Held(rooms: Rooms, id: Id)
  {
    exists q :: q in rooms && id in rooms[q]
  }

  /** `r` is a room the search for `id` may stop at: a room that holds it,
      or 0 when none does. Several rooms can qualify: map order is unspecified. */
  predicate IsHolderChoice(rooms: Rooms, id: Id, r: int)
  {
    if Held(rooms, id) then r in rooms && id in rooms[r] else r == 0
  }

  /** The index with `id` removed from room `r`, if that room holds it. */
  function Release(rooms: Rooms, id: Id, r: int): (rooms': Rooms)
    ensures rooms'.Keys == rooms.Keys
    ensures r in rooms ==> rooms'[r] == rooms[r] - {id}
    ensures forall q :: q in rooms && q != r ==> rooms'[q] == rooms[q]
  {
    if r in rooms && id in rooms[r] then rooms[r := rooms[r] - {id}] else rooms
  }

  /** The reaction to a TimeChanged event, when the search stopped at room `r`. */
  function OnTimeChanged(rooms: Rooms, id: Id, iv: Interval, r: int): Reaction
  {
    var released := Release(rooms, id, r);
    if r !in released then
      Reaction(released, [], Crashed)
    else if Clashes(released[r], iv) then
      Reaction(released, [Decline(id, RoomOccupiedNoStop)], Handled)
    else
      Reaction(released[r := Take(released[r], id, iv)], [Confirm(id)], Handled)
  }

  /** The reaction to a Cancelled event, when the search stopped at room `r`. */
  function OnCancelled(rooms: Rooms, id: Id, r: int): Reaction
  {
    Reaction(Release(rooms, id, r), [], Handled)
  }

  // ---- properties of the reactions ----

  /** Removing a reservation keeps a room free of overlaps. */
  lemma RemoveKeepsNoOverlap(room: Room, id: Id)
    requires NoOverlap(room)
    ensures NoOverlap(room - {id})
  {
  }

  /** Inserting an interval that clashes with nothing keeps a room free of overlaps. */
  lemma InsertKeepsNoOverlap(room: Room, id: Id, iv: Interval)
    requires NoOverlap(room)
    requires id !in room
    requires !Clashes(room, iv)
    ensures NoOverlap(Take(room, id, iv))
  {
    var room' := Take(room, id, iv);
    forall a, b | a in room' && b in room' && a != b
      ensures !Intersects(room'[a], room'[b])
    {
      if a == id {
        TimeIntersectSymmetric(iv.startTime, iv.endTime, room[b].startTime, room[b].endTime);
      } else if b != id {
        assert room'[a] == room[a] && room'[b] == room[b];
      }
    }
  }

  lemma OnCreatedKeepsInvariant(rooms: Rooms, id: Id, roomId: int, iv: Interval)
    requires ValidRooms(rooms)
    ensures ValidRooms(OnCreated(rooms, id, roomId, iv).rooms)
  {
    if roomId in rooms && id !in rooms[roomId] && !Clashes(rooms[roomId], iv) {
      InsertKeepsNoOverlap(rooms[roomId], id, iv);
    }
  }

  lemma OnTimeChangedKeepsInvariant(rooms: Rooms, id: Id, iv: Interval, r: int)
    requires ValidRooms(rooms)
    ensures ValidRooms(OnTimeChanged(rooms, id, iv, r).rooms)
  {
    var released := Release(rooms, id, r);
    if r in rooms {
      RemoveKeepsNoOverlap(rooms[r], id);
      assert ValidRooms(released);
      if !Clashes(released[r], iv) {
        InsertKeepsNoOverlap(released[r], id, iv);
      }
    }
  }

  lemma OnCancelledKeepsInvariant(rooms: Rooms, id: Id, r: int)
    requires ValidRooms(rooms)
    ensures ValidRooms(OnCancelled(rooms, id, r).rooms)
  {
    if r in rooms {
      RemoveKeepsNoOverlap(rooms[r], id);
    }
  }

  /** A Created event for a reservation already held in its room does nothing. */
  lemma CreatedAlreadyHeld(rooms: Rooms, id: Id, roomId: int, iv: Interval)
    requires roomId in rooms && id in rooms[roomId]
    ensures OnCreated(rooms, id, roomId, iv) == Reaction(rooms, [], Handled)
  {
  }

  /** A clashing Created event is declined once and changes nothing. */
  lemma CreatedClashDeclines(rooms: Rooms, id: Id, roomId: int, iv: Interval, other: Id)
    requires roomId in rooms && id !in rooms[roomId]
    requires other in rooms[roomId] && Intersects(rooms[roomId][other], iv)
    ensures OnCreated(rooms, id, roomId, iv) == Reaction(rooms, [Decline(id, RoomOccupied)], Handled)
  {
  }

  /** A Created event without a clash takes the interval and is confirmed;
      every other room and entry stays as it was. */
  lemma CreatedNoClashConfirms(rooms: Rooms, id: Id, roomId: int, iv: Interval)
    requires roomId in rooms && id !in rooms[roomId]
    requires forall k :: k in rooms[roomId] ==> !Intersects(rooms[roomId][k], iv)
    ensures var re := OnCreated(rooms, id, roomId, iv);
      && re.commands == [ConfirmReservation(id, "Scheduler")]
      && re.outcome == Handled
      && re.rooms.Keys == rooms.Keys
      && re.rooms[roomId] == Take(rooms[roomId], id, iv)
      && (forall q :: q in rooms && q != roomId ==> re.rooms[q] == rooms[q])
  {
  }

  /** A Created event for a room that does not exist is declined twice and then crashes. */
  lemma CreatedUnknownRoomCrashes(rooms: Rooms, id: Id, roomId: int, iv: Interval)
    requires ValidRooms(rooms)
    requires !(1 <= roomId <= 6)
    ensures OnCreated(rooms, id, roomId, iv) ==
      Reaction(rooms, [Decline(id, "Room does not exist."), Decline(id, "Room does not exist.")], Crashed)
  {
  }

  /** A time change for a reservation held nowhere falls back to room 0,
      which does not exist, and crashes without a command. */
  lemma TimeChangedUnheldCrashes(rooms: Rooms, id: Id, iv: Interval, r: int)
    requires ValidRooms(rooms)
    requires !Held(rooms, id) && IsHolderChoice(rooms, id, r)
    ensures OnTimeChanged(rooms, id, iv, r) == Reaction(rooms, [], Crashed)
  {
  }

  /** A time change for a held reservation first releases its interval; then
      it either declines (and the reservation is held nowhere in that room)
      or takes the new interval in the same room and confirms. */
  lemma TimeChangedHeld(rooms: Rooms, id: Id, iv: Interval, r: int)
    requires Held(rooms, id) && IsHolderChoice(rooms, id, r)
    ensures var re := OnTimeChanged(rooms, id, iv, r);
      var rest := rooms[r] - {id};
      && re.outcome == Handled
      && re.rooms.Keys == rooms.Keys
      && (forall q :: q in rooms && q != r ==> re.rooms[q] == rooms[q])
      && (Clashes(rest, iv) ==>
            re.commands == [DeclineReservation(id, "Scheduler", "Room occupied")] && re.rooms[r] == rest)
      && (!Clashes(rest, iv) ==>
            re.commands == [ConfirmReservation(id, "Scheduler")] && re.rooms[r] == Take(rest, id, iv))
  {
  }

  /** A cancellation frees the reservation's slot and issues nothing. */
  lemma CancelledReleases(rooms: Rooms, id: Id, r: int)
    requires IsHolderChoice(rooms, id, r)
    ensures var re := OnCancelled(rooms, id, r);
      && re.commands == [] && re.outcome == Handled
      && re.rooms.Keys == rooms.Keys
      && (r in rooms ==> re.rooms[r] == rooms[r] - {id} && id !in re.rooms[r])
      && (forall q :: q in rooms && q != r ==> re.rooms[q] == rooms[q])
      && (!Held(rooms, id) ==> re.rooms == rooms)
  {
  }

  /** Cancelling a held reservation frees its slot: a later Created whose
      interval clashed only with the cancelled one is confirmed. */
  lemma CancelFreesSlot(rooms: Rooms, a: Id, b: Id, r: int, iv: Interval)
    requires ValidRooms(rooms) && r in rooms && a in rooms[r] && b !in rooms[r] && a != b
    requires IsHolderChoice(rooms, a, r)
    requires !Clashes(rooms[r] - {a}, iv)
    ensures var re := OnCreated(OnCancelled(rooms, a, r).rooms, b, r, iv);
      && re.commands == [Confirm(b)]
      && re.rooms[r] == Take(rooms[r] - {a}, b, iv)
  {
    assert OnCancelled(rooms, a, r).rooms[r] == rooms[r] - {a};
  }

  /** Reacting, in order, to Created events for room `r`, each a
      reservation id with its interval: the final index and all commands
      issued. */
  function CreateAll(rooms: Rooms, r: int, reqs: seq<(Id, Interval)>): (Rooms, seq<Command>)
    decreases |reqs|
  {
    if reqs == [] then (rooms, [])
    else
      var re := OnCreated(rooms, reqs[0].0, r, reqs[0].1);
      var rest := CreateAll(re.rooms, r, reqs[1..]);
      (rest.0, re.commands + rest.1)
  }

  /** Requests for distinct new ids whose intervals are pairwise disjoint
      and clash with nothing already held in the room. */
  ghost predicate DisjointRequests(room: Room, reqs: seq<(Id, Interval)>)
  {
    && (forall i, j :: 0 <= i < j < |reqs| ==> reqs[i].0 != reqs[j].0 && !Intersects(reqs[i].1, reqs[j].1))
    && (forall i :: 0 <= i < |reqs| ==> reqs[i].0 !in room && !Clashes(room, reqs[i].1))
  }

  /** The first of such requests is confirmed and taken, and the remaining
      ones are again such requests for the room it leaves. */
  lemma FirstRequestTaken(rooms: Rooms, r: int, reqs: seq<(Id, Interval)>)
    requires r in rooms && DisjointRequests(rooms[r], reqs) && reqs != []
    ensures var re := OnCreated(rooms, reqs[0].0, r, reqs[0].1);
      && re.commands == [Confirm(reqs[0].0)]
      && re.rooms == rooms[r := Take(rooms[r], reqs[0].0, reqs[0].1)]
      && DisjointRequests(re.rooms[r], reqs[1..])
  {
    var id, iv := reqs[0].0, reqs[0].1;
    CreatedNoClashConfirms(rooms, id, r, iv);
    var room' := Take(rooms[r], id, iv);
    var tail := reqs[1..];
    forall i | 0 <= i < |tail|
      ensures tail[i].0 !in room' && !Clashes(room', tail[i].1)
    {
      assert tail[i] == reqs[i + 1];
      forall k | k in room'
        ensures !Intersects(room'[k], tail[i].1)
      {
        if k == id {
          assert !Intersects(reqs[0].1, reqs[i + 1].1);
        } else {
          assert k in rooms[r];
        }
      }
    }
    forall i, j | 0 <= i < j < |tail|
      ensures tail[i].0 != tail[j].0 && !Intersects(tail[i].1, tail[j].1)
    {
      assert tail[i] == reqs[i + 1] && tail[j] == reqs[j + 1];
    }
  }

  /** Created events with distinct ids and pairwise disjoint intervals in a
      provisioned room are all confirmed, in order. */
  lemma {:induction false} DisjointCreatesConfirmed(rooms: Rooms, r: int, reqs: seq<(Id, Interval)>)
    requires r in rooms && DisjointRequests(rooms[r], reqs)
    ensures var cmds := CreateAll(rooms, r, reqs).1;
      |cmds| == |reqs| && forall i :: 0 <= i < |reqs| ==> cmds[i] == Confirm(reqs[i].0)
    decreases |reqs|
  {
    if reqs != [] {
      FirstRequestTaken(rooms, r, reqs);
      var rooms' := OnCreated(rooms, reqs[0].0, r, reqs[0].1).rooms;
      var tail := reqs[1..];
      DisjointCreatesConfirmed(rooms', r, tail);
      var cmds := [Confirm(reqs[0].0)] + CreateAll(rooms', r, tail).1;
      assert CreateAll(rooms, r, reqs).1 == cmds;
      forall i | 0 < i < |reqs|
        ensures cmds[i] == Confirm(reqs[i].0)
      {
        assert reqs[i] == tail[i - 1];
      }
    }
  }

  /** After such a run every requested interval is held under its id, the
      room keeps what it held before, and no other room changes. */
  lemma {:induction false} DisjointCreatesHeld(rooms: Rooms, r: int, reqs: seq<(Id, Interval)>)
    requires r in rooms && DisjointRequests(rooms[r], reqs)
    ensures var final := CreateAll(rooms, r, reqs).0;
      && final.Keys == rooms.Keys
      && (forall i :: 0 <= i < |reqs| ==> reqs[i].0 in final[r] && final[r][reqs[i].0] == reqs[i].1)
      && (forall k :: k in rooms[r] ==> k in final[r] && final[r][k] == rooms[r][k])
      && (forall q :: q in rooms && q != r ==> final[q] == rooms[q])
    decreases |reqs|
  {
    if reqs != [] {
      FirstRequestTaken(rooms, r, reqs);
      var rooms' := OnCreated(rooms, reqs[0].0, r, reqs[0].1).rooms;
      var tail := reqs[1..];
      DisjointCreatesHeld(rooms', r, tail);
      var final := CreateAll(rooms', r, tail).0;
      assert CreateAll(rooms, r, reqs).0 == final;
      forall i | 0 < i < |reqs|
        ensures reqs[i].0 in final[r] && final[r][reqs[i].0] == reqs[i].1
      {
        assert reqs[i] == tail[i - 1];
      }
    }
  }

  /** After such a run the room holds nothing but what it held before and
      the requested ids. */
  lemma {:induction false} DisjointCreatesHoldNothingElse(rooms: Rooms, r: int, reqs: seq<(Id, Interval)>)
    requires r in rooms && DisjointRequests(rooms[r], reqs)
    ensures var final := CreateAll(rooms, r, reqs).0;
      r in final && forall k :: k in final[r] ==> k in rooms[r] || exists i :: 0 <= i < |reqs| && reqs[i].0 == k
    decreases |reqs|
  {
    if reqs != [] {
      var id := reqs[0].0;
      FirstRequestTaken(rooms, r, reqs);
      var rooms' := OnCreated(rooms, id, r, reqs[0].1).rooms;
      var tail := reqs[1..];
      DisjointCreatesHoldNothingElse(rooms', r, tail);
      var final := CreateAll(rooms', r, tail).0;
      assert CreateAll(rooms, r, reqs).0 == final;
      forall k | k in final[r]
        ensures k in rooms[r] || exists i :: 0 <= i < |reqs| && reqs[i].0 == k
      {
        if k !in rooms[r] {
          if k == id {
            assert reqs[0].0 == k;
          } else {
            var i :| 0 <= i < |tail| && tail[i].0 == k;
            assert reqs[i + 1].0 == k;
          }
        }
      }
    }
  }

  /** After such a run, a Created for a new id whose interval overlaps one
      of the requested intervals is the one declined. */
  lemma OverlappingCreateDeclined(rooms: Rooms, r: int, reqs: seq<(Id, Interval)>, id: Id, iv: Interval, j: nat)
    requires r in rooms && DisjointRequests(rooms[r], reqs)
    requires id !in rooms[r] && (forall i :: 0 <= i < |reqs| ==> reqs[i].0 != id)
    requires j < |reqs| && Intersects(reqs[j].1, iv)
    ensures var final := CreateAll(rooms, r, reqs).0;
      OnCreated(final, id, r, iv) == Reaction(final, [Decline(id, RoomOccupied)], Handled)
  {
    DisjointCreatesHeld(rooms, r, reqs);
    DisjointCreatesHoldNothingElse(rooms, r, reqs);
    var final := CreateAll(rooms, r, reqs).0;
    assert reqs[j].0 in final[r] && Intersects(final[r][reqs[j].0], iv);
  }

  // ---- the saga object ----

  /** Some element of a non-empty set: the next key of a Go map range
      loop, whose order is unspecified. */
  method AnyOf<K>(keys: set<K>) returns (k: K)
    requires keys != {}
    ensures k in keys
  {
    k :| k in keys;
  }

  /** Searches the room for an interval that intersects `iv`, stopping at the first. */
  method FindClash(room: Room, iv: Interval) returns (clash: bool)
    ensures clash == Clashes(room, iv)
  {
    var unseen := room.Keys;
    clash := false;
    while unseen != {}
      invariant unseen <= room.Keys
      invariant forall k :: k in room && k !in unseen ==> !Intersects(room[k], iv)
      decreases unseen
    {
      var k := AnyOf(unseen);
      if Intersects(room[k], iv) {
        clash := true;
        break;
      }
      unseen := unseen - {k};
    }
  }

  /** Searches the rooms for the one holding `id`, stopping at the first.
      `roomNumber` stays 0 when no room holds it. */
  method FindHolder(rooms: Rooms, id: Id) returns (found: bool, roomNumber: int)
    ensures found == Held(rooms, id)
    ensures IsHolderChoice(rooms, id, roomNumber)
  {
    var unseen := rooms.Keys;
    found, roomNumber := false, 0;
    while unseen != {}
      invariant unseen <= rooms.Keys
      invariant forall q :: q in rooms && q !in unseen ==> id !in rooms[q]
      decreases unseen
    {
      var q := AnyOf(unseen);
      if id in rooms[q] {
        found, roomNumber := true, q;
        break;
      }
      unseen := unseen - {q};
    }
  }

  class ConflictSaga {
    var reservedRooms: Rooms

    ghost predicate Valid()
      reads this
    {
      ValidRooms(reservedRooms)
    }

    /** A new saga has the empty rooms 1 to 6. */
    constructor ()
      ensures Valid()
      ensures reservedRooms == InitialRooms
    {
      reservedRooms := InitialRooms;
    }

    /** Reacts to one event: updates the index and returns the commands it
        dispatches, in order. Other event kinds are ignored. */
    method RunSaga(e: Event) returns (commands: seq<Command>, outcome: Outcome)
      requires Valid()
      modifies this
      ensures Valid()
      ensures e.data.Created? ==>
        Reaction(reservedRooms, commands, outcome) ==
        OnCreated(old(reservedRooms), e.aggregateId, e.data.roomId, Interval(e.data.startTime, e.data.endTime))
      ensures e.data.TimeChanged? ==>
        exists r :: IsHolderChoice(old(reservedRooms), e.aggregateId, r) &&
          Reaction(reservedRooms, commands, outcome) ==
          OnTimeChanged(old(reservedRooms), e.aggregateId, Interval(e.data.startTime, e.data.endTime), r)
      ensures e.data.Cancelled? ==>
        exists r :: IsHolderChoice(old(reservedRooms), e.aggregateId, r) &&
          Reaction(reservedRooms, commands, outcome) == OnCancelled(old(reservedRooms), e.aggregateId, r)
      ensures !SagaReceives(e.data) ==>
        reservedRooms == old(reservedRooms) && commands == [] && outcome == Handled
    {
      var id := e.aggregateId;
      match e.data {
        case Created(roomId, _, _, startTime, endTime) =>
          commands, outcome := HandleCreated(id, roomId, Interval(startTime, endTime));
        case TimeChanged(_, startTime, endTime) =>
          commands, outcome := HandleTimeChanged(id, Interval(startTime, endTime));
        case Cancelled(_) =>
          HandleCancelled(id);
          commands, outcome := [], Handled;
        case _ =>
          commands, outcome := [], Handled;
      }
    }

    /** The Created branch: reservation `id` asks for `iv` in room `roomId`. */
    method HandleCreated(id: Id, roomId: int, iv: Interval) returns (commands: seq<Command>, outcome: Outcome)
      requires Valid()
      modifies this
      ensures Valid()
      ensures Reaction(reservedRooms, commands, outcome) == OnCreated(old(reservedRooms), id, roomId, iv)
    {
      commands, outcome := [], Handled;
      var ok := roomId in reservedRooms;
      if !ok {
        commands := commands + [Decline(id, RoomDoesNotExist)];
      }
      if ok && id in reservedRooms[roomId] {
        return;
      }
      ok := roomId in reservedRooms;
      if !ok {
        commands := commands + [Decline(id, RoomDoesNotExist)];
      }
      var clash := false;
      if ok {
        clash := FindClash(reservedRooms[roomId], iv);
      }
      if clash {
        commands := commands + [Decline(id, RoomOccupied)];
      } else if !ok {
        // writing into the reservations of a room that does not exist panics
        outcome := Crashed;
      } else {
        InsertKeepsNoOverlap(reservedRooms[roomId], id, iv);
        reservedRooms := reservedRooms[roomId := Take(reservedRooms[roomId], id, iv)];
        commands := commands + [Confirm(id)];
      }
    }

    /** The TimeChanged branch: reservation `id` moves to `iv`. */
    method HandleTimeChanged(id: Id, iv: Interval) returns (commands: seq<Command>, outcome: Outcome)
      requires Valid()
      modifies this
      ensures Valid()
      ensures exists r ::
        IsHolderChoice(old(reservedRooms), id, r) &&
        Reaction(reservedRooms, commands, outcome) == OnTimeChanged(old(reservedRooms), id, iv, r)
    {
      commands, outcome := [], Handled;
      ghost var before := reservedRooms;
      var found, roomNumber := FindHolder(reservedRooms, id);
      if found {
        RemoveKeepsNoOverlap(reservedRooms[roomNumber], id);
        reservedRooms := reservedRooms[roomNumber := reservedRooms[roomNumber] - {id}];
      }
      assert reservedRooms == Release(before, id, roomNumber);
      if roomNumber !in reservedRooms {
        // no room 0: writing into its missing reservations panics
        outcome := Crashed;
      } else {
        var clash := FindClash(reservedRooms[roomNumber], iv);
        if clash {
          commands := commands + [Decline(id, RoomOccupiedNoStop)];
        } else {
          InsertKeepsNoOverlap(reservedRooms[roomNumber], id, iv);
          reservedRooms := reservedRooms[roomNumber := Take(reservedRooms[roomNumber], id, iv)];
          commands := commands + [Confirm(id)];
        }
      }
      assert Reaction(reservedRooms, commands, outcome) == OnTimeChanged(before, id, iv, roomNumber);
    }

    /** The Cancelled branch: reservation `id` is released. */
    method HandleCancelled(id: Id)
      requires Valid()
      modifies this
      ensures Valid()
      ensures exists r ::
        IsHolderChoice(old(reservedRooms), id, r) &&
        reservedRooms == OnCancelled(old(reservedRooms), id, r).rooms
    {
      ghost var before := reservedRooms;
      var found, roomNumber := FindHolder(reservedRooms, id);
      if found {
        RemoveKeepsNoOverlap(reservedRooms[roomNumber], id);
        reservedRooms := reservedRooms[roomNumber := reservedRooms[roomNumber] - {id}];
      }
      assert reservedRooms == OnCancelled(before, id, roomNumber).rooms;
    }
  }
}
