/** The billing ledger projector: per-user billing histories with one bill
    per calendar month and lifetime totals, charged on confirmation and
    reversed on cancellation or a time change. Money is in hundredths. */
module Billing {
  import opened Wrappers
  import opened Events

  /** The price of one minute, in hundredths (0.04). */
  const PricePerMinute: int := 4

  /** The bill of one month. */
  datatype Bill = Bill(id: Id, version: int, minutes: int, total: int)

  /** A user's billing history, keyed in the repository by `id`. Bills are
      kept by month name. */
  datatype BillingHistory = BillingHistory(
    id: Id, version: int, user: string, bills: map<string, Bill>,
    totalMinutes: int, totalPaid: int)

  /** The payload of a Created event, kept while the reservation is pending. */
  datatype Booking = Booking(roomId: int, name: string, user: string, startTime: Time, endTime: Time)

  const NoReservationFound := "No reservation found"
  const EventNotFound := "Event not found"
  const CouldNotHandleEvent := "could not handle event"

  function NoUserFound(user: string): string
  {
    "No user " + user + " found\n"
  }

  /** A duration of `d` seconds in whole minutes, rounded half away from zero. */
  function RoundMinutes(d: int): (m: int)
    ensures -30 <= 60 * m - d <= 30
    ensures 60 * m - d == 30 ==> d > 0
    ensures 60 * m - d == -30 ==> d < 0
  {
    if d >= 0 then (d + 30) / 60 else -((30 - d) / 60)
  }

  /** Rounding half away from zero is symmetric about zero. */
  lemma RoundMinutesOdd(d: int)
    ensures RoundMinutes(-d) == -RoundMinutes(d)
  {
  }

  /** The billed minutes of a booking. */
  function Minutes(b: Booking): int
  {
    RoundMinutes(b.endTime - b.startTime)
  }

  /** The minutes billed in `month`, zero when there is no bill yet. */
  function MonthMinutes(h: BillingHistory, month: string): int
  {
    if month in h.bills then h.bills[month].minutes else 0
  }

  /** The amount billed in `month`, zero when there is no bill yet. */
  function MonthTotal(h: BillingHistory, month: string): int
  {
    if month in h.bills then h.bills[month].total else 0
  }

  /** Charges `mins` minutes to the month's bill, which is created with id
      `billId` when absent, and to the lifetime totals. */
  function Charge(h: BillingHistory, month: string, mins: int, billId: Id): (r: BillingHistory)
    ensures r.id == h.id && r.user == h.user && r.version == h.version + 1
    ensures r.bills.Keys == h.bills.Keys + {month}
    ensures MonthMinutes(r, month) == MonthMinutes(h, month) + mins
    ensures MonthTotal(r, month) == MonthTotal(h, month) + mins * PricePerMinute
    ensures r.bills[month].id == (if month in h.bills then h.bills[month].id else billId)
    ensures r.bills[month].version == (if month in h.bills then h.bills[month].version else 0) + 1
    ensures forall m :: m in h.bills && m != month ==> r.bills[m] == h.bills[m]
    ensures r.totalMinutes == h.totalMinutes + mins
    ensures r.totalPaid == h.totalPaid + mins * PricePerMinute
  {
    var bill := if month in h.bills then h.bills[month] else Bill(billId, 0, 0, 0);
    var bill' := bill.(minutes := bill.minutes + mins, total := bill.total + mins * PricePerMinute,
                       version := bill.version + 1);
    h.(bills := h.bills[month := bill'],
       totalMinutes := h.totalMinutes + mins,
       totalPaid := h.totalPaid + mins * PricePerMinute,
       version := h.version + 1)
  }

  /** Takes `mins` minutes back from the month's bill and the lifetime
      totals, but only when that month has a bill. */
  function Refund(h: BillingHistory, month: string, mins: int): (r: BillingHistory)
    ensures month !in h.bills ==> r == h
    ensures month in h.bills ==>
      && r.id == h.id && r.user == h.user && r.version == h.version + 1
      && r.bills.Keys == h.bills.Keys
      && MonthMinutes(r, month) == MonthMinutes(h, month) - mins
      && MonthTotal(r, month) == MonthTotal(h, month) - mins * PricePerMinute
      && r.bills[month].id == h.bills[month].id
      && r.bills[month].version == h.bills[month].version + 1
      && (forall m :: m in h.bills && m != month ==> r.bills[m] == h.bills[m])
      && r.totalMinutes == h.totalMinutes - mins
      && r.totalPaid == h.totalPaid - mins * PricePerMinute
  {
    if month in h.bills then
      var bill := h.bills[month];
      h.(bills := h.bills[month := bill.(minutes := bill.minutes - mins,
                                         total := bill.total - mins * PricePerMinute,
                                         version := bill.version + 1)],
         totalMinutes := h.totalMinutes - mins,
         totalPaid := h.totalPaid - mins * PricePerMinute,
         version := h.version + 1)
    else h
  }

  /** A refund after a charge of the same minutes in the same month restores
      the month's minutes and amount and the lifetime totals. */
  lemma RefundUndoesCharge(h: BillingHistory, month: string, mins: int, billId: Id)
    ensures var r := Refund(Charge(h, month, mins, billId), month, mins);
      && MonthMinutes(r, month) == MonthMinutes(h, month)
      && MonthTotal(r, month) == MonthTotal(h, month)
      && r.totalMinutes == h.totalMinutes
      && r.totalPaid == h.totalPaid
  {
  }

  /** The projector's working maps, the read-model repository and the next
      fresh id. */
  datatype Ledger = Ledger(
    pending: map<Id, Booking>,
    userBillingHistory: map<string, Id>,
    reservationsUser: map<Id, string>,
    repo: map<Id, BillingHistory>,
    nextId: Id)

  /** The ledger's invariant: every reservation's user has a history id,
      and every id in use is below the next fresh one. The repository keys
      its entries by their id. */
  ghost predicate ValidLedger(s: Ledger)
  {
    && (forall r :: r in s.reservationsUser ==> s.reservationsUser[r] in s.userBillingHistory)
    && (forall u :: u in s.userBillingHistory ==> s.userBillingHistory[u] < s.nextId)
    && (forall k :: k in s.repo ==> k < s.nextId && s.repo[k].id == k)
    && (forall k, m :: k in s.repo && m in s.repo[k].bills ==> s.repo[k].bills[m].id < s.nextId)
  }

  /** The repository entry `id`, or a fresh history for `user` when there is none. */
  function FindOrNew(repo: map<Id, BillingHistory>, id: Id, user: string): BillingHistory
  {
    if id in repo then repo[id] else BillingHistory(id, 0, user, map[], 0, 0)
  }

  /** What handling one event yields: the new ledger and the error returned, if any. */
  datatype StepResult = StepResult(ledger: Ledger, err: Option<string>)

  function Save(s: Ledger, h: BillingHistory): StepResult
  {
    StepResult(s.(repo := s.repo[h.id := h]), None)
  }

  /** The ledger after the Created pre-step: the reservation's user is
      recorded and given a fresh history id. Other kinds leave it as is. */
  function Registered(s: Ledger, e: Event): Ledger
  {
    if e.data.Created? then
      s.(reservationsUser := s.reservationsUser[e.aggregateId := e.data.user],
         userBillingHistory := s.userBillingHistory[e.data.user := s.nextId],
         nextId := s.nextId + 1)
    else s
  }

  /** Handling one event in calendar month `month`. */
  function Step(s: Ledger, e: Event, month: string): StepResult
  {
    var id := e.aggregateId;
    var s1 := Registered(s, e);
    if id !in s1.reservationsUser then StepResult(s1, Some(NoReservationFound))
    else
      var user := s1.reservationsUser[id];
      if user !in s1.userBillingHistory then StepResult(s1, Some(NoUserFound(user)))
      else Apply(s1, e, FindOrNew(s1.repo, s1.userBillingHistory[user], user), month)
  }

  /** The per-kind part of a step, given the history `h` found for the
      event's user: updates the ledger and saves the history. */
  function Apply(s1: Ledger, e: Event, h: BillingHistory, month: string): StepResult
  {
    var id := e.aggregateId;
    match e.data
    case Created(roomId, name, u, startTime, endTime) =>
      Save(s1.(pending := s1.pending[id := Booking(roomId, name, u, startTime, endTime)]),
           h.(version := h.version + 1))
    case Confirmed(_) =>
      if id !in s1.pending then StepResult(s1, Some(EventNotFound))
      else
        var nextId := if month in h.bills then s1.nextId else s1.nextId + 1;
        Save(s1.(nextId := nextId), Charge(h, month, Minutes(s1.pending[id]), s1.nextId))
    case Declined(_, _) =>
      Save(s1.(pending := s1.pending - {id}), h)
    case Cancelled(_) =>
      Save(s1, if id in s1.pending then Refund(h, month, Minutes(s1.pending[id])) else h)
    case TimeChanged(_, startTime, endTime) =>
      if id in s1.pending then
        var b := s1.pending[id];
        Save(s1.(pending := s1.pending[id := b.(startTime := startTime, endTime := endTime)]),
             Refund(h, month, Minutes(b)))
      else Save(s1, h)
    case _ => StepResult(s1, Some(CouldNotHandleEvent))
  }

  // ---- properties of Step ----

  /** Every step keeps the ledger's invariant. */
  lemma StepKeepsValid(s: Ledger, e: Event, month: string)
    requires ValidLedger(s)
    ensures ValidLedger(Step(s, e, month).ledger)
  {
    var s1 := Registered(s, e);
    RegisteredKeepsValid(s, e);
    if e.aggregateId in s1.reservationsUser {
      var user := s1.reservationsUser[e.aggregateId];
      var h := FindOrNew(s1.repo, s1.userBillingHistory[user], user);
      assert h.id < s1.nextId;
      ApplyKeepsValid(s1, e, h, month);
    }
  }

  /** The per-kind part keeps the invariant when the history's ids are in use. */
  lemma ApplyKeepsValid(s1: Ledger, e: Event, h: BillingHistory, month: string)
    requires ValidLedger(s1) && h.id < s1.nextId
    requires forall m :: m in h.bills ==> h.bills[m].id < s1.nextId
    ensures ValidLedger(Apply(s1, e, h, month).ledger)
  {
    var id := e.aggregateId;
    var p := s1.pending;
    match e.data
    case Created(roomId, name, u, startTime, endTime) =>
      SaveKeepsValid(s1, p[id := Booking(roomId, name, u, startTime, endTime)], s1.nextId, h.(version := h.version + 1));
    case Confirmed(_) =>
      if id in p {
        var n := if month in h.bills then s1.nextId else s1.nextId + 1;
        SaveKeepsValid(s1, p, n, Charge(h, month, Minutes(p[id]), s1.nextId));
      }
    case Declined(_, _) =>
      SaveKeepsValid(s1, p - {id}, s1.nextId, h);
    case Cancelled(_) =>
      SaveKeepsValid(s1, p, s1.nextId, if id in p then Refund(h, month, Minutes(p[id])) else h);
    case TimeChanged(_, startTime, endTime) =>
      if id in p {
        var b := p[id];
        SaveKeepsValid(s1, p[id := b.(startTime := startTime, endTime := endTime)], s1.nextId, Refund(h, month, Minutes(b)));
      } else {
        SaveKeepsValid(s1, p, s1.nextId, h);
      }
    case _ =>
  }

  /** The Created pre-step keeps the invariant. */
  lemma RegisteredKeepsValid(s: Ledger, e: Event)
    requires ValidLedger(s)
    ensures ValidLedger(Registered(s, e))
  {
  }

  /** Saving a history whose ids are all in use, with any pending map and
      an id supply that has not gone back, keeps the invariant. */
  lemma SaveKeepsValid(s: Ledger, pending: map<Id, Booking>, nextId: Id, h: BillingHistory)
    requires ValidLedger(s) && s.nextId <= nextId && h.id < nextId
    requires forall m :: m in h.bills ==> h.bills[m].id < nextId
    ensures ValidLedger(Save(s.(pending := pending, nextId := nextId), h).ledger)
  {
  }

  /** The user's current history id and history as the handler finds them. */
  function HistoryOf(s: Ledger, id: Id): BillingHistory
    requires id in s.reservationsUser && s.reservationsUser[id] in s.userBillingHistory
  {
    var user := s.reservationsUser[id];
    FindOrNew(s.repo, s.userBillingHistory[user], user)
  }

  /** Created records the reservation's user, gives the user a fresh history
      id (in use nowhere) whose new history has version 1, no bills and zero
      totals, and stores the pending booking. */
  lemma CreatedRegisters(s: Ledger, e: Event, month: string)
    requires ValidLedger(s) && e.data.Created?
    ensures var r := Step(s, e, month);
      var hid := s.nextId;
      var d := e.data;
      && hid !in s.repo
      && (forall u :: u in s.userBillingHistory ==> s.userBillingHistory[u] != hid)
      && r.err == None
      && r.ledger.reservationsUser == s.reservationsUser[e.aggregateId := d.user]
      && r.ledger.userBillingHistory == s.userBillingHistory[d.user := hid]
      && r.ledger.pending == s.pending[e.aggregateId := Booking(d.roomId, d.name, d.user, d.startTime, d.endTime)]
      && r.ledger.repo == s.repo[hid := BillingHistory(hid, 1, d.user, map[], 0, 0)]
  {
  }

  /** An event other than Created for a reservation never seen is an error
      and changes nothing. */
  lemma UnseenReservationRejected(s: Ledger, e: Event, month: string)
    requires !e.data.Created? && e.aggregateId !in s.reservationsUser
    ensures Step(s, e, month) == StepResult(s, Some("No reservation found"))
  {
  }

  /** Confirmed with a pending booking charges its rounded minutes to this
      month's bill (created at zero when absent) and to the lifetime totals,
      and keeps the booking pending. */
  lemma ConfirmedCharges(s: Ledger, e: Event, month: string)
    requires ValidLedger(s) && e.data.Confirmed?
    requires e.aggregateId in s.reservationsUser && e.aggregateId in s.pending
    ensures var r := Step(s, e, month);
      var h := HistoryOf(s, e.aggregateId);
      var mins := Minutes(s.pending[e.aggregateId]);
      && r.err == None
      && r.ledger.pending == s.pending
      && r.ledger.reservationsUser == s.reservationsUser
      && r.ledger.userBillingHistory == s.userBillingHistory
      && r.ledger.repo.Keys == s.repo.Keys + {h.id}
      && (forall k :: k in s.repo && k != h.id ==> r.ledger.repo[k] == s.repo[k])
      && var h' := r.ledger.repo[h.id];
      && MonthMinutes(h', month) == MonthMinutes(h, month) + mins
      && MonthTotal(h', month) == MonthTotal(h, month) + mins * 4
      && h'.totalMinutes == h.totalMinutes + mins
      && h'.totalPaid == h.totalPaid + mins * 4
      && h'.version == h.version + 1
      && h'.bills[month].version == (if month in h.bills then h.bills[month].version else 0) + 1
      && (forall m :: m in h.bills && m != month ==> h'.bills[m] == h.bills[m])
  {
  }

  /** Confirmed without a pending booking is an error and changes nothing;
      for a known reservation the error is "Event not found". */
  lemma ConfirmedWithoutBookingRejected(s: Ledger, e: Event, month: string)
    requires e.data.Confirmed? && e.aggregateId !in s.pending
    ensures Step(s, e, month).ledger == s
    ensures Step(s, e, month).err.Some?
    ensures ValidLedger(s) && e.aggregateId in s.reservationsUser ==>
      Step(s, e, month).err == Some("Event not found")
  {
  }

  /** Declined drops the pending booking and saves the history unchanged
      (a fresh empty one when the repository has none). */
  lemma DeclinedDropsBooking(s: Ledger, e: Event, month: string)
    requires ValidLedger(s) && e.data.Declined? && e.aggregateId in s.reservationsUser
    ensures var r := Step(s, e, month);
      var h := HistoryOf(s, e.aggregateId);
      && r.err == None
      && r.ledger.pending == s.pending - {e.aggregateId}
      && r.ledger.reservationsUser == s.reservationsUser
      && r.ledger.userBillingHistory == s.userBillingHistory
      && r.ledger.nextId == s.nextId
      && r.ledger.repo == s.repo[h.id := h]
      && (h.id !in s.repo ==> h.bills == map[] && h.totalMinutes == 0 && h.totalPaid == 0)
  {
  }

  /** Cancelled with a pending booking takes its minutes back from this
      month's bill and the totals when that bill exists, and otherwise
      changes nothing; the booking stays pending. */
  lemma CancelledRefunds(s: Ledger, e: Event, month: string)
    requires ValidLedger(s) && e.data.Cancelled? && e.aggregateId in s.reservationsUser
    ensures var r := Step(s, e, month);
      var h := HistoryOf(s, e.aggregateId);
      && r.err == None
      && r.ledger.pending == s.pending
      && r.ledger.reservationsUser == s.reservationsUser
      && r.ledger.userBillingHistory == s.userBillingHistory
      && r.ledger.nextId == s.nextId
      && (e.aggregateId in s.pending && month in h.bills ==>
            var mins := Minutes(s.pending[e.aggregateId]);
            var h' := r.ledger.repo[h.id];
            && r.ledger.repo == s.repo[h.id := Refund(h, month, mins)]
            && MonthMinutes(h', month) == MonthMinutes(h, month) - mins
            && MonthTotal(h', month) == MonthTotal(h, month) - mins * 4
            && h'.bills[month].version == h.bills[month].version + 1
            && (forall m :: m in h.bills && m != month ==> h'.bills[m] == h.bills[m])
            && h'.totalMinutes == h.totalMinutes - mins
            && h'.totalPaid == h.totalPaid - mins * 4
            && h'.version == h.version + 1)
      && (e.aggregateId !in s.pending || month !in h.bills ==> r.ledger.repo == s.repo[h.id := h])
  {
  }

  /** TimeChanged with a pending booking takes the old minutes back under the
      same condition as a cancellation, charges nothing, and moves the
      pending booking to the new interval. */
  lemma TimeChangedRefundsAndMoves(s: Ledger, e: Event, month: string)
    requires ValidLedger(s) && e.data.TimeChanged? && e.aggregateId in s.reservationsUser
    requires e.aggregateId in s.pending
    ensures var r := Step(s, e, month);
      var h := HistoryOf(s, e.aggregateId);
      var b := s.pending[e.aggregateId];
      var mins := Minutes(b);
      && r.err == None
      && r.ledger.pending == s.pending[e.aggregateId := b.(startTime := e.data.startTime, endTime := e.data.endTime)]
      && r.ledger.reservationsUser == s.reservationsUser
      && r.ledger.userBillingHistory == s.userBillingHistory
      && r.ledger.nextId == s.nextId
      && r.ledger.repo == s.repo[h.id := Refund(h, month, mins)]
      && (month in h.bills ==>
            && MonthMinutes(r.ledger.repo[h.id], month) == MonthMinutes(h, month) - mins
            && r.ledger.repo[h.id].totalMinutes == h.totalMinutes - mins)
      && (month !in h.bills ==> r.ledger.repo[h.id] == h)
  {
  }

  /** TimeChanged without a pending booking saves the history unchanged and
      changes nothing else. */
  lemma TimeChangedWithoutBookingSavesUnchanged(s: Ledger, e: Event, month: string)
    requires ValidLedger(s) && e.data.TimeChanged? && e.aggregateId in s.reservationsUser
    requires e.aggregateId !in s.pending
    ensures var h := HistoryOf(s, e.aggregateId);
      Step(s, e, month) == StepResult(s.(repo := s.repo[h.id := h]), None)
  {
  }

  /** Event kinds the ledger does not handle are an error and nothing is saved. */
  lemma OtherKindsRejected(s: Ledger, e: Event, month: string)
    requires ValidLedger(s) && !BillingReceives(e.data) && e.aggregateId in s.reservationsUser
    ensures Step(s, e, month) == StepResult(s, Some("could not handle event"))
  {
  }

  /** Confirmed and Cancelled leave the booking pending, so a repeated
      Confirmed charges the same minutes again. */
  lemma RepeatedConfirmChargesTwice(s: Ledger, e: Event, month: string)
    requires ValidLedger(s) && e.data.Confirmed?
    requires e.aggregateId in s.reservationsUser && e.aggregateId in s.pending
    ensures var s2 := Step(Step(s, e, month).ledger, e, month).ledger;
      var h := HistoryOf(s, e.aggregateId);
      var mins := Minutes(s.pending[e.aggregateId]);
      && s2.pending == s.pending
      && MonthMinutes(s2.repo[h.id], month) == MonthMinutes(h, month) + 2 * mins
      && s2.repo[h.id].totalMinutes == h.totalMinutes + 2 * mins
  {
    var s1 := Step(s, e, month).ledger;
    StepKeepsValid(s, e, month);
    ConfirmedCharges(s, e, month);
    ConfirmedCharges(s1, e, month);
    var h := HistoryOf(s, e.aggregateId);
    assert HistoryOf(s1, e.aggregateId) == s1.repo[h.id];
  }

  /** Confirming and then cancelling a reservation in the same month
      restores the month's minutes and amount and the lifetime totals. */
  lemma ConfirmThenCancelRestores(s: Ledger, id: Id, u1: string, u2: string, month: string)
    requires ValidLedger(s)
    requires id in s.reservationsUser && id in s.pending
    ensures var s1 := Step(s, Event(id, EventData.Confirmed(u1)), month).ledger;
      var s2 := Step(s1, Event(id, EventData.Cancelled(u2)), month).ledger;
      var h := HistoryOf(s, id);
      var h2 := s2.repo[h.id];
      && MonthMinutes(h2, month) == MonthMinutes(h, month)
      && MonthTotal(h2, month) == MonthTotal(h, month)
      && h2.totalMinutes == h.totalMinutes
      && h2.totalPaid == h.totalPaid
  {
    var confirm := Event(id, EventData.Confirmed(u1));
    var s1 := Step(s, confirm, month).ledger;
    var h := HistoryOf(s, id);
    StepKeepsValid(s, confirm, month);
    ConfirmedCharges(s, confirm, month);
    assert HistoryOf(s1, id) == s1.repo[h.id];
    RefundUndoesCharge(h, month, Minutes(s.pending[id]), s.nextId);
  }

  /** Created, Confirmed, Cancelled for one reservation in one month leave
      the user's (fresh) history with zero minutes in that month's bill and
      zero lifetime minutes. */
  lemma CreateConfirmCancelReturnsToZero(s: Ledger, id: Id, c: EventData, u1: string, u2: string, month: string)
    requires ValidLedger(s) && c.Created?
    ensures var s1 := Step(s, Event(id, c), month).ledger;
      var s2 := Step(s1, Event(id, EventData.Confirmed(u1)), month).ledger;
      var s3 := Step(s2, Event(id, EventData.Cancelled(u2)), month).ledger;
      var hid := s.nextId;
      && hid in s3.repo
      && month in s3.repo[hid].bills
      && s3.repo[hid].bills[month].minutes == 0
      && s3.repo[hid].bills[month].total == 0
      && s3.repo[hid].totalMinutes == 0
      && s3.repo[hid].totalPaid == 0
  {
    var s1 := Step(s, Event(id, c), month).ledger;
    CreatedRegisters(s, Event(id, c), month);
    StepKeepsValid(s, Event(id, c), month);
    ConfirmThenCancelRestores(s1, id, u1, u2, month);
    assert HistoryOf(s1, id) == BillingHistory(s.nextId, 1, c.user, map[], 0, 0);
  }

  // ---- the projector object ----

  class BillingHistoryProjector {
    var pending: map<Id, Booking>
    var userBillingHistory: map<string, Id>
    var reservationsUser: map<Id, string>
    /** The read-model repository, an external store, as a map by entity id. */
    var repo: map<Id, BillingHistory>
    /** The supply of fresh uuids. */
    var nextId: Id

    function State(): Ledger
      reads this
    {
      Ledger(pending, userBillingHistory, reservationsUser, repo, nextId)
    }

    ghost predicate Valid()
      reads this
    {
      ValidLedger(State())
    }

    /** A projector with empty maps over a repository keyed by entity id;
        `firstId` lies above every id the repository uses. */
    constructor (repo: map<Id, BillingHistory>, firstId: Id)
      requires forall k :: k in repo ==> k < firstId && repo[k].id == k
      requires forall k, m :: k in repo && m in repo[k].bills ==> repo[k].bills[m].id < firstId
      ensures Valid()
      ensures State() == Ledger(map[], map[], map[], repo, firstId)
    {
      pending, userBillingHistory, reservationsUser := map[], map[], map[];
      this.repo := repo;
      nextId := firstId;
    }

    /** A fresh uuid. */
    method NewId() returns (id: Id)
      modifies this`nextId
      ensures id == old(nextId) && nextId == old(nextId) + 1
    {
      id := nextId;
      nextId := nextId + 1;
    }

    /** Handles one event in calendar month `month` (one atomic step) and
        returns the error, if any. */
    method HandleEvent(e: Event, month: string) returns (err: Option<string>)
      requires Valid()
      modifies this
      ensures Valid()
      ensures StepResult(State(), err) == Step(old(State()), e, month)
    {
      ghost var s0 := State();
      StepKeepsValid(s0, e, month);
      var id := e.aggregateId;
      if e.data.Created? {
        reservationsUser := reservationsUser[id := e.data.user];
        var hid := NewId();
        userBillingHistory := userBillingHistory[e.data.user := hid];
      }
      assert State() == Registered(s0, e);
      if id !in reservationsUser {
        return Some(NoReservationFound);
      }
      var user := reservationsUser[id];
      var hid := userBillingHistory[user];
      var h: BillingHistory;
      if hid in repo {
        h := repo[hid];
      } else {
        h := BillingHistory(hid, 0, user, map[], 0, 0);
      }
      assert h == FindOrNew(repo, hid, user);
      err := HandleKind(e, h, month);
    }

    /** The per-kind part of handling an event, given the history `found`
        for its user: updates the maps and saves the history. */
    method HandleKind(e: Event, found: BillingHistory, month: string) returns (err: Option<string>)
      modifies this
      ensures StepResult(State(), err) == Apply(old(State()), e, found, month)
    {
      var id := e.aggregateId;
      var h := found;
      match e.data {
        case Created(roomId, name, u, startTime, endTime) =>
          pending := pending[id := Booking(roomId, name, u, startTime, endTime)];
          h := h.(version := h.version + 1);
        case Confirmed(_) =>
          if id !in pending {
            return Some(EventNotFound);
          }
          var billId := nextId;
          if month !in h.bills {
            billId := NewId();
          }
          h := Charge(h, month, Minutes(pending[id]), billId);
        case Declined(_, _) =>
          pending := pending - {id};
        case Cancelled(_) =>
          if id in pending {
            h := Refund(h, month, Minutes(pending[id]));
          }
        case TimeChanged(_, startTime, endTime) =>
          if id in pending {
            var b := pending[id];
            h := Refund(h, month, Minutes(b));
            pending := pending[id := b.(startTime := startTime, endTime := endTime)];
          }
        case _ =>
          return Some(CouldNotHandleEvent);
      }
      repo := repo[h.id := h];
      err := None;
    }
  }
}
