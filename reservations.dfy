/** The reservation calendar: the fixed evening slots, the reservations of the
    selected day, slot availability per table, the comma-separated input of a new
    reservation and the status actions on a reservation. Dialog answers are inputs:
    the text typed into the details prompt (`None` when the prompt is dismissed) and
    whether the cancel confirmation was answered "Yes". */
module Reservations {

  import opened Wrappers
  import opened Types
  import Text
  import Seqs
  import DateTime

  /** The twelve half-hour slots a reservation can be booked for. */
  const TimeSlots: seq<string> :=
    ["17:00", "17:30", "18:00", "18:30", "19:00", "19:30",
     "20:00", "20:30", "21:00", "21:30", "22:00", "22:30"]

  /** `getDateReservations(date)`: the reservations on the same calendar day. */
  function DateReservations(rs: seq<Reservation>, date: int, tzOffset: int): seq<Reservation>
  {
    Seqs.Filter(rs, (r: Reservation) => DateTime.IsSameDay(r.date, date, tzOffset))
  }

  /** A reservation is listed for a day exactly when it falls on that day, the list
      keeps the stored order, and it does not depend on the instant chosen within the
      day. */
  lemma DateReservationsRule(rs: seq<Reservation>, date: int, other: int, tzOffset: int, r: Reservation)
    ensures r in DateReservations(rs, date, tzOffset) <==> r in rs && DateTime.IsSameDay(r.date, date, tzOffset)
    ensures Seqs.IsSubsequence(DateReservations(rs, date, tzOffset), rs)
    ensures DateTime.IsSameDay(date, other, tzOffset) ==> DateReservations(rs, date, tzOffset) == DateReservations(rs, other, tzOffset)
  {
    Seqs.FilterMembership(rs, (r: Reservation) => DateTime.IsSameDay(r.date, date, tzOffset), r);
    Seqs.FilterIsSubsequence(rs, (r: Reservation) => DateTime.IsSameDay(r.date, date, tzOffset));
    if DateTime.IsSameDay(date, other, tzOffset) {
      Seqs.FilterCongruent(rs, (r: Reservation) => DateTime.IsSameDay(r.date, date, tzOffset),
                               (r: Reservation) => DateTime.IsSameDay(r.date, other, tzOffset));
    }
  }

  /** A reservation that takes a table at a time. */
  predicate Blocks(r: Reservation, time: string, tableId: string)
  {
    r.time == time && r.tableId == tableId && r.status != Cancelled
  }

  /** `isTimeSlotAvailable(time, tableId)` on the selected day. */
  predicate IsTimeSlotAvailable(rs: seq<Reservation>, selectedDate: int, tzOffset: int, time: string, tableId: string)
  {
    var day := DateReservations(rs, selectedDate, tzOffset);
    !exists k :: 0 <= k < |day| && Blocks(day[k], time, tableId)
  }

  /** A slot is free for a table exactly when every reservation of that day at that
      time and table is cancelled; adding a cancelled reservation never takes a slot. */
  lemma AvailabilityRule(rs: seq<Reservation>, selectedDate: int, tzOffset: int, time: string, tableId: string, extra: Reservation)
    ensures IsTimeSlotAvailable(rs, selectedDate, tzOffset, time, tableId)
        <==> forall r :: r in rs && DateTime.IsSameDay(r.date, selectedDate, tzOffset) && r.time == time && r.tableId == tableId
               ==> r.status == Cancelled
    ensures extra.status == Cancelled ==>
      (IsTimeSlotAvailable(rs + [extra], selectedDate, tzOffset, time, tableId) <==> IsTimeSlotAvailable(rs, selectedDate, tzOffset, time, tableId))
  {
    var p := (r: Reservation) => DateTime.IsSameDay(r.date, selectedDate, tzOffset);
    var day := DateReservations(rs, selectedDate, tzOffset);
    forall r: Reservation ensures r in day <==> r in rs && p(r) {
      Seqs.FilterMembership(rs, p, r);
    }
    assert forall k :: 0 <= k < |day| ==> day[k] in day;
    if extra.status == Cancelled {
      Seqs.FilterAppend(rs, [extra], p);
      var tail := Seqs.Filter([extra], p);
      assert forall k :: 0 <= k < |tail| ==> tail[k] == extra;
      var day2 := DateReservations(rs + [extra], selectedDate, tzOffset);
      assert day2 == day + tail;
      assert forall k :: 0 <= k < |day| ==> day2[k] == day[k];
      assert forall k :: |day| <= k < |day2| ==> day2[k] == extra;
    }
  }

  /** What `Create` in the details prompt sends to `onCreateReservation`. */
  datatype Draft = Draft(
    customerName: string,
    customerPhone: string,
    date: int,
    time: string,
    guests: Option<int>,
    tableId: string,
    status: ReservationStatus,
    isPaid: bool,
    createdAt: int)

  datatype CreateOutcome =
    | MissingTime            // the "Please select a time slot" alert
    | NotCreated             // the prompt was dismissed or a detail was blank
    | Created(draft: Draft)

  /** Piece `i` of the trimmed comma-separated details, undefined past the end. */
  function Field(input: string, i: nat): Option<string>
  {
    Piece(Text.Split(input, ','), i)
  }

  function Piece(parts: seq<string>, i: nat): Option<string>
  {
    if i < |parts| then Some(Text.Trim(parts[i])) else None
  }

  /** `handleCreateReservation` followed by the prompt's answer. `guests` is
      `parseInt` of the third piece, which may be `NaN`. */
  function CreateOutcomeOf(selectedTime: string, selectedDate: int, input: Option<string>, now: int): CreateOutcome
  {
    if selectedTime == "" then MissingTime
    else if !Truthy(input) then NotCreated
    else
      var name, phone, guests := Field(input.value, 0), Field(input.value, 1), Field(input.value, 2);
      if Truthy(name) && Truthy(phone) && Truthy(guests) then
        Created(Draft(name.value, phone.value, selectedDate, selectedTime, Text.ParseInt(guests.value),
                      "t1", Confirmed, false, now))
      else NotCreated
  }

  /** Without a selected time nothing is created; otherwise a record is created exactly
      when the prompt returns text whose first three pieces are not blank, and it is a
      confirmed, unpaid booking of table t1 at the selected day and time. */
  lemma CreateRules(selectedTime: string, selectedDate: int, input: Option<string>, now: int)
    ensures CreateOutcomeOf(selectedTime, selectedDate, input, now) == MissingTime <==> selectedTime == ""
    ensures CreateOutcomeOf(selectedTime, selectedDate, input, now).Created?
        <==> selectedTime != "" && Truthy(input)
             && Truthy(Field(input.value, 0)) && Truthy(Field(input.value, 1)) && Truthy(Field(input.value, 2))
    ensures match CreateOutcomeOf(selectedTime, selectedDate, input, now)
      case Created(d) =>
        d.time == selectedTime && d.date == selectedDate && d.tableId == "t1" && d.status == Confirmed
        && !d.isPaid && d.createdAt == now && d.customerName != "" && d.customerPhone != ""
      case _ => true
  {
  }

  /** Text of the form `name,phone,guests`, each piece without commas and with blanks
      around it, gives the trimmed pieces and the parsed guest count. */
  lemma CreateFromDetails(selectedTime: string, selectedDate: int, now: int, name: string, phone: string, guests: string)
    requires selectedTime != ""
    requires ',' !in name && ',' !in phone && ',' !in guests
    requires Text.Trim(name) != "" && Text.Trim(phone) != "" && Text.Trim(guests) != ""
    ensures CreateOutcomeOf(selectedTime, selectedDate, Some(name + [','] + phone + [','] + guests), now)
         == Created(Draft(Text.Trim(name), Text.Trim(phone), selectedDate, selectedTime,
                          Text.ParseInt(Text.Trim(guests)), "t1", Confirmed, false, now))
  {
    FieldsOfThree(name, phone, guests);
  }

  lemma FieldsOfThree(a: string, b: string, c: string)
    requires ',' !in a && ',' !in b && ',' !in c
    ensures var input := a + [','] + b + [','] + c;
      Field(input, 0) == Some(Text.Trim(a)) && Field(input, 1) == Some(Text.Trim(b))
      && Field(input, 2) == Some(Text.Trim(c))
  {
    SplitThree(a, b, c);
    var parts := [a, b, c];
    assert Piece(parts, 0) == Some(Text.Trim(a)) && Piece(parts, 1) == Some(Text.Trim(b));
    assert Piece(parts, 2) == Some(Text.Trim(c));
  }

  lemma SplitThree(a: string, b: string, c: string)
    requires ',' !in a && ',' !in b && ',' !in c
    ensures Text.Split(a + [','] + b + [','] + c, ',') == [a, b, c]
  {
    Text.SplitNoSeparator(c, ',');
    Text.SplitAtSeparator(b, c, ',');
    assert a + [','] + b + [','] + c == a + [','] + (b + [','] + c);
    Text.SplitAtSeparator(a, b + [','] + c, ',');
  }

  /** Creation never consults availability: with a blocking reservation of table t1 at
      the selected day and time, valid details still create a second booking of it. */
  lemma DoubleBooking(rs: seq<Reservation>, k: nat, selectedTime: string, selectedDate: int, tzOffset: int,
                      now: int, input: string)
    requires k < |rs| && DateTime.IsSameDay(rs[k].date, selectedDate, tzOffset) && Blocks(rs[k], selectedTime, "t1")
    requires selectedTime != ""
    requires Truthy(Field(input, 0)) && Truthy(Field(input, 1)) && Truthy(Field(input, 2))
    ensures !IsTimeSlotAvailable(rs, selectedDate, tzOffset, selectedTime, "t1")
    ensures CreateOutcomeOf(selectedTime, selectedDate, Some(input), now).Created?
    ensures var d := CreateOutcomeOf(selectedTime, selectedDate, Some(input), now).draft;
      d.date == selectedDate && d.time == selectedTime && d.tableId == "t1" && d.status != Cancelled
  {
    SlotTaken(rs, k, selectedDate, tzOffset, selectedTime, "t1");
    CreateRules(selectedTime, selectedDate, Some(input), now);
  }

  /** A blocking reservation on the selected day makes its slot unavailable. */
  lemma SlotTaken(rs: seq<Reservation>, k: nat, selectedDate: int, tzOffset: int, time: string, tableId: string)
    requires k < |rs| && DateTime.IsSameDay(rs[k].date, selectedDate, tzOffset) && Blocks(rs[k], time, tableId)
    ensures !IsTimeSlotAvailable(rs, selectedDate, tzOffset, time, tableId)
  {
    AvailabilityRule(rs, selectedDate, tzOffset, time, tableId, rs[k]);
    assert rs[k] in rs;
  }

  /** The state of the calendar screen. */
  class Calendar {
    var selectedDate: int
    var selectedTime: string

    /** The screen opens on today with no slot selected. */
    constructor(now: int)
      ensures selectedDate == now && selectedTime == ""
    {
      selectedDate := now;
      selectedTime := "";
    }

    /** Pressing a slot selects it. */
    method SelectTime(time: string)
      modifies this
      ensures selectedTime == time && selectedDate == old(selectedDate)
    {
      selectedTime := time;
    }

    /** The create button followed by the prompt; the screen's state is unchanged. */
    method HandleCreateReservation(input: Option<string>, now: int) returns (outcome: CreateOutcome)
      ensures outcome == CreateOutcomeOf(selectedTime, selectedDate, input, now)
    {
      if selectedTime == "" {
        return MissingTime;
      }
      outcome := CreateOutcomeOf(selectedTime, selectedDate, input, now);
    }
  }

  /** The update `onUpdateReservation` receives. */
  datatype StatusUpdate = StatusUpdate(id: string, status: ReservationStatus)

  /** `handleReservationAction`; `confirmedCancel` is the answer to the cancel dialog. */
  function ReservationAction(r: Reservation, action: string, confirmedCancel: bool): Option<StatusUpdate>
  {
    if action == "confirm" then Some(StatusUpdate(r.id, Confirmed))
    else if action == "seat" then Some(StatusUpdate(r.id, Seated))
    else if action == "cancel" && confirmedCancel then Some(StatusUpdate(r.id, Cancelled))
    else None
  }

  /** The actions offered on a reservation card. */
  function ActionsOffered(r: Reservation): seq<string>
  {
    if r.status == Confirmed then ["seat", "cancel"] else []
  }

  /** Confirm, seat and a confirmed cancel update the pressed reservation to confirmed,
      seated and cancelled; a declined cancel or any other action updates nothing. Only
      confirmed reservations offer actions, and those lead to seated or cancelled. */
  lemma ActionRules(r: Reservation, action: string, yes: bool)
    ensures ReservationAction(r, action, yes).Some? <==> action == "confirm" || action == "seat" || (action == "cancel" && yes)
    ensures ReservationAction(r, action, yes).Some? ==> ReservationAction(r, action, yes).value.id == r.id
    ensures ReservationAction(r, "confirm", yes) == Some(StatusUpdate(r.id, Confirmed))
    ensures ReservationAction(r, "seat", yes) == Some(StatusUpdate(r.id, Seated))
    ensures ReservationAction(r, "cancel", yes) == if yes then Some(StatusUpdate(r.id, Cancelled)) else None
    ensures ActionsOffered(r) != [] <==> r.status == Confirmed
    ensures forall a :: a in ActionsOffered(r) && ReservationAction(r, a, yes).Some? ==>
      ReservationAction(r, a, yes).value.status in {Seated, Cancelled}
  {
  }

  function StatusColor(status: ReservationStatus): string
  {
    match status
    case Confirmed => "#059669"
    case Seated => "#3b82f6"
    case Cancelled => "#dc2626"
    case NoShow => "#6b7280"
  }

  /** Every status has its own badge colour. */
  lemma StatusColorDistinct(a: ReservationStatus, b: ReservationStatus)
    ensures StatusColor(a) == StatusColor(b) <==> a == b
  {
  }
}
