/** Concrete runs across the components: the write side, the conflict saga
    and the billing ledger. Instants are seconds. */
module Scenarios {
  import opened Events
  import opened Saga
  import Aggregate
  import Billing

  /** A new reservation in a free slot of a provisioned room: the aggregate
      emits Created, the saga answers with a Confirm addressed to the same
      reservation, and that command takes the aggregate to confirmed. */
  lemma CreatedThenSagaConfirms(rooms: Rooms, cmd: Command)
    requires cmd.CreateReservation? && cmd.roomId in rooms && cmd.id !in rooms[cmd.roomId]
    requires !Clashes(rooms[cmd.roomId], Interval(cmd.startTime, cmd.endTime))
    ensures var s1 := Aggregate.Replay(Aggregate.Initial, Aggregate.Decide(Aggregate.Initial, cmd));
      var re := OnCreated(rooms, cmd.id, cmd.roomId, Interval(cmd.startTime, cmd.endTime));
      && s1.created && s1.status == Aggregate.Pending
      && re.commands == [Confirm(cmd.id)]
      && re.commands[0].AggregateId() == cmd.id
      && var s2 := Aggregate.Replay(s1, Aggregate.Decide(s1, re.commands[0]));
      && s2.status == Aggregate.Status.Confirmed
      && s2.created
  {
    var d := Aggregate.Decide(Aggregate.Initial, cmd);
    assert d == [EventData.Created(cmd.roomId, cmd.name, cmd.user, cmd.startTime, cmd.endTime)];
    var s1 := Aggregate.Replay(Aggregate.Initial, d);
    Aggregate.DecidedEventTakesEffect(Aggregate.Initial, cmd);
    Aggregate.DecidedEventTakesEffect(s1, Confirm(cmd.id));
  }

  /** The overlap table exercised by the tests of the overlap test, with
      the present instant at 0. */
  lemma TimeIntersectCases()
    ensures !TimeIntersect(-3600, -1800, 0, 3600)
    ensures TimeIntersect(-3600, 1, 0, 3600)
    ensures TimeIntersect(-3600, 7200, 0, 3600)
    ensures TimeIntersect(0, 3600, -3600, 7200)
  {
  }

  /** The scripted client's run, with the present instant at 0: Matt books
      room 3 for 00:30-01:00 and is confirmed, moves to 01:00-02:00 and is
      confirmed again in the same room, Joyce asking for 01:00-02:00 in
      room 3 is declined, and Matt's cancellation empties the room, so that
      the next request for 01:00-02:00 in room 3 is confirmed. */
  lemma WriterScenario()
    ensures var first := Interval(1800, 3600);
      var moved := Interval(3600, 7200);
      var r1 := OnCreated(InitialRooms, 1, 3, first);
      var r2 := OnTimeChanged(r1.rooms, 1, moved, 3);
      var r3 := OnCreated(r2.rooms, 2, 3, moved);
      var r4 := OnCancelled(r3.rooms, 1, 3);
      var r5 := OnCreated(r4.rooms, 3, 3, moved);
      && r1.commands == [Confirm(1)]
      && (forall q :: IsHolderChoice(r1.rooms, 1, q) <==> q == 3)
      && r2.commands == [Confirm(1)] && r2.rooms[3] == map[1 := moved]
      && r3.commands == [Decline(2, "Room occupied.")] && r3.rooms == r2.rooms
      && (forall q :: IsHolderChoice(r3.rooms, 1, q) <==> q == 3)
      && r4.commands == [] && r4.rooms[3] == map[]
      && (forall q :: q in r4.rooms ==> r4.rooms[q] == map[])
      && r5.commands == [Confirm(3)] && r5.rooms[3] == map[3 := moved]
  {
    var first := Interval(1800, 3600);
    var moved := Interval(3600, 7200);
    InitialRoomsValid();
    assert 3 in RoomNumbers;
    var r1 := OnCreated(InitialRooms, 1, 3, first);
    assert !Clashes(InitialRooms[3], first);
    assert r1.rooms[3] == map[1 := first];
    assert Held(r1.rooms, 1) by { assert 1 in r1.rooms[3]; }
    forall q ensures IsHolderChoice(r1.rooms, 1, q) <==> q == 3 {
    }
    var r2 := OnTimeChanged(r1.rooms, 1, moved, 3);
    assert Release(r1.rooms, 1, 3)[3] == map[];
    assert r2.rooms[3] == map[1 := moved];
    var r3 := OnCreated(r2.rooms, 2, 3, moved);
    assert Intersects(r2.rooms[3][1], moved);
    assert Held(r3.rooms, 1) by { assert 1 in r3.rooms[3]; }
    forall q ensures IsHolderChoice(r3.rooms, 1, q) <==> q == 3 {
    }
    var r4 := OnCancelled(r3.rooms, 1, 3);
    assert r4.rooms[3] == map[];
    assert !Clashes(r4.rooms[3], moved);
  }

  /** A 30-minute booking confirmed this month bills 30 minutes at 120
      hundredths, and its cancellation brings the bill and the totals back
      to zero. */
  lemma ThirtyMinuteBookingScenario()
    ensures var s0 := Billing.Ledger(map[], map[], map[], map[], 1);
      var month := "2024-05-01 00:00:00 +0000 UTC";
      var s1 := Billing.Step(s0, Event(7, EventData.Created(3, "Stand-up", "Matt", 36000, 37800)), month).ledger;
      var s2 := Billing.Step(s1, Event(7, EventData.Confirmed("Scheduler")), month).ledger;
      var s3 := Billing.Step(s2, Event(7, EventData.Cancelled("Matt")), month).ledger;
      && s2.repo[1].bills[month] == Billing.Bill(2, 1, 30, 120)
      && s2.repo[1].totalMinutes == 30 && s2.repo[1].totalPaid == 120
      && s3.repo[1].bills[month].minutes == 0 && s3.repo[1].bills[month].total == 0
      && s3.repo[1].totalMinutes == 0 && s3.repo[1].totalPaid == 0
  {
    assert Billing.Minutes(Billing.Booking(3, "Stand-up", "Matt", 36000, 37800)) == 30;
  }
}
