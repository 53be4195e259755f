/** A counselor's public profile and its booking dialog: the fixed list of
    time slots and how a slot is read back into hours and minutes, which
    calendar days can be picked, when "Confirm Booking" is enabled, the
    guards `handleBooking` applies before posting, and the reset after a
    successful booking. */
module CounselorProfile {
  import opened Common

  const LoginPath: string := "/login"

  /** Where an unknown counselor id leads. */
  const DirectoryPath: string := "/counselors"

  /** `availableTimes`. */
  const AvailableTimes: seq<string> := ["09:00", "10:00", "11:00", "14:00", "15:00", "16:00", "17:00"]

  /** The hour of each slot, in the same order. */
  const SlotHours: seq<nat> := [9, 10, 11, 14, 15, 16, 17]

  // ---------------------------------------------------------------------------
  // Time slots

  /** An `"HH:MM"` label with both fields zero-padded. */
  function Slot(hours: nat, minutes: nat): string
  {
    Pad2(DecimalString(hours)) + ":" + Pad2(DecimalString(minutes))
  }

  /** `const [hours, minutes] = time.split(":")` followed by `parseInt` of
      each; a missing field parses to `None` (NaN). */
  function SlotFields(time: string): (r: (Option<int>, Option<int>))
    ensures r.0 == ParseInt(FirstSegment(time, ':'))
  {
    var h := FirstSegment(time, ':');
    if |h| == |time| then (ParseInt(h), None)
    else (ParseInt(h), ParseInt(FirstSegment(time[|h| + 1..], ':')))
  }

  /** A zero-padded number holds no colon and parses back to itself. */
  lemma PaddedNumber(n: nat)
    ensures ':' !in Pad2(DecimalString(n))
    ensures ParseInt(Pad2(DecimalString(n))) == Some(n as int)
  {
    var a := Pad2(DecimalString(n));
    Pad2Digits(DecimalString(n));
    DecimalRoundTrip(n);
    forall i | 0 <= i < |a| ensures a[i] != ':' {
      assert IsDigit(a[i]);
    }
    ParseIntDigits(a);
  }

  /** Two colon-free fields joined by a colon are read back apart. */
  lemma SlotFieldsOfJoin(a: string, b: string)
    requires ':' !in a && ':' !in b
    ensures SlotFields(a + [':'] + b) == (ParseInt(a), ParseInt(b))
  {
    var s := a + [':'] + b;
    FirstSegmentOfJoin(a, ':', b);
    assert |FirstSegment(s, ':')| < |s|;
    assert s[|a| + 1..] == b;
    assert FirstSegment(b, ':') == b;
  }

  /** Reading a padded label back gives the hours and minutes it was made
      from. */
  lemma SlotRoundTrip(hours: nat, minutes: nat)
    ensures SlotFields(Slot(hours, minutes)) == (Some(hours as int), Some(minutes as int))
  {
    PaddedNumber(hours);
    PaddedNumber(minutes);
    SlotFieldsOfJoin(Pad2(DecimalString(hours)), Pad2(DecimalString(minutes)));
  }

  /** A number below 100 is padded to its tens and units digits. */
  lemma TwoDigitField(n: nat)
    requires n < 100
    ensures Pad2(DecimalString(n)) == [DigitChar(n / 10), DigitChar(n % 10)]
  {
    if n >= 10 {
      assert DecimalString(n / 10) == [DigitChar(n / 10)];
    }
  }

  /** Zero minutes print as `00`. */
  lemma ZeroField()
    ensures Pad2(DecimalString(0)) == ['0', '0']
  {
    assert DecimalString(0) == [DigitChar(0)];
  }

  /** The label of an hour on the hour. */
  lemma HourLabel(h: nat)
    requires h < 100
    ensures Slot(h, 0) == [DigitChar(h / 10), DigitChar(h % 10), ':', '0', '0']
  {
    var a := Pad2(DecimalString(h));
    var z := Pad2(DecimalString(0));
    TwoDigitField(h);
    ZeroField();
    JoinLabel(a, z, DigitChar(h / 10), DigitChar(h % 10));
  }

  /** Two two-character fields joined by a colon. */
  lemma JoinLabel(a: string, z: string, x: char, y: char)
    requires a == [x, y] && z == ['0', '0']
    ensures a + ":" + z == [x, y, ':', '0', '0']
  {
  }

  /** Each of the seven slots is the padded label of its hour on the hour. */
  lemma SlotIsLabel(i: nat)
    requires i < |AvailableTimes|
    ensures |SlotHours| == |AvailableTimes| && AvailableTimes[i] == Slot(SlotHours[i], 0)
  {
    HourLabel(SlotHours[i]);
    if i == 0 {
      assert AvailableTimes[0] == ['0', '9', ':', '0', '0'];
    } else if i == 1 {
      assert AvailableTimes[1] == ['1', '0', ':', '0', '0'];
    } else if i == 2 {
      assert AvailableTimes[2] == ['1', '1', ':', '0', '0'];
    } else if i == 3 {
      assert AvailableTimes[3] == ['1', '4', ':', '0', '0'];
    } else if i == 4 {
      assert AvailableTimes[4] == ['1', '5', ':', '0', '0'];
    } else if i == 5 {
      assert AvailableTimes[5] == ['1', '6', ':', '0', '0'];
    } else {
      assert AvailableTimes[6] == ['1', '7', ':', '0', '0'];
    }
  }

  /** Every offered slot parses to its hour and zero minutes, within 9..17. */
  lemma SlotsParse(i: nat)
    requires i < |AvailableTimes|
    ensures SlotFields(AvailableTimes[i]) == (Some(SlotHours[i] as int), Some(0))
    ensures 9 <= SlotHours[i] <= 17
  {
    var t, h := AvailableTimes[i], SlotHours[i];
    SlotIsLabel(i);
    SlotRoundTrip(h, 0);
    assert t == Slot(h, 0);
    SlotHourInRange(i);
  }

  /** The offered hours run from 9 to 17. */
  lemma SlotHourInRange(i: nat)
    requires i < |SlotHours|
    ensures 9 <= SlotHours[i] <= 17
  {
  }

  // ---------------------------------------------------------------------------
  // The calendar and the confirm button

  /** A calendar day: the instant of its local midnight and its weekday
      (0 is Sunday). */
  datatype Day = Day(startMs: int, weekday: nat)

  /** The calendar's `disabled`: days before now and Sundays. */
  predicate DateDisabled(d: Day, nowMs: int)
  {
    d.startMs < nowMs || d.weekday == 0
  }

  /** Today's midnight is already past, so today cannot be picked either. */
  lemma TodayDisabled(d: Day, nowMs: int)
    requires d.startMs < nowMs < d.startMs + 86400000
    ensures DateDisabled(d, nowMs)
  {
  }

  /** "Confirm Booking" is disabled while a booking is in flight and until
      both a date and a time are chosen. */
  predicate ConfirmDisabled(bookingLoading: bool, date: Option<Day>, time: string)
  {
    bookingLoading || date.None? || time == ""
  }

  // ---------------------------------------------------------------------------
  // Booking

  /** The posted booking; the start is the chosen day at the slot's hour and
      minute. */
  datatype BookingPost = BookingPost(counselorId: string, serviceId: string, day: Day, hours: int, minutes: int, notes: string)

  /** Why `handleBooking` posts nothing. `NoService` and `InvalidTime` are
      the errors reading the service id or formatting an invalid date raise,
      which the handler reports. */
  datatype Refusal = NotSignedIn | NoDateOrTime | NoService | InvalidTime

  /** `handleBooking`'s guards in their order, and the request they let
      through. */
  function BookingRequestFor(signedIn: bool, counselorId: string, service: Option<string>, date: Option<Day>, time: string, notes: string): (r: Result<BookingPost, Refusal>)
    ensures r == Err(NotSignedIn) <==> !signedIn
    ensures r == Err(NoDateOrTime) <==> signedIn && (date.None? || time == "")
    ensures r.Ok? ==> signedIn && date.Some? && time != "" && service.Some?
    ensures r.Ok? ==> r.value.counselorId == counselorId && r.value.serviceId == service.value &&
                      r.value.day == date.value && r.value.notes == notes &&
                      SlotFields(time) == (Some(r.value.hours), Some(r.value.minutes))
  {
    if !signedIn then Err(NotSignedIn)
    else if date.None? || time == "" then Err(NoDateOrTime)
    else if service.None? then Err(NoService)
    else
      var fields := SlotFields(time);
      if fields.0.None? || fields.1.None? then Err(InvalidTime)
      else Ok(BookingPost(counselorId, service.value, date.value, fields.0.value, fields.1.value, notes))
  }

  /** A signed-in student with a service, a day and one of the offered slots
      always gets a request, starting on the hour of that slot. */
  lemma OfferedSlotIsBooked(counselorId: string, service: string, day: Day, i: nat, notes: string)
    requires i < |AvailableTimes|
    ensures BookingRequestFor(true, counselorId, Some(service), Some(day), AvailableTimes[i], notes) ==
              Ok(BookingPost(counselorId, service, day, SlotHours[i], 0, notes))
  {
    SlotsParse(i);
  }

  /** Whenever "Confirm Booking" is enabled the date-and-time guard passes. */
  lemma EnabledConfirmPassesDateGuard(signedIn: bool, counselorId: string, service: Option<string>, date: Option<Day>, time: string, notes: string)
    requires !ConfirmDisabled(false, date, time)
    ensures BookingRequestFor(signedIn, counselorId, service, date, time, notes) != Err(NoDateOrTime)
  {
  }

  // ---------------------------------------------------------------------------
  // The page object

  class ProfilePage {
    var loading: bool
    var counselorId: Option<string>
    var bookingOpen: bool
    var selectedService: Option<string>
    var selectedDate: Option<Day>
    var selectedTime: string
    var notes: string
    var navigateTo: Option<string>
    var requests: seq<BookingPost>

    /** The request "Confirm Booking" would make now. */
    function Pending(signedIn: bool): Result<BookingPost, Refusal>
      requires counselorId.Some?
      reads this
    {
      BookingRequestFor(signedIn, counselorId.value, selectedService, selectedDate, selectedTime, notes)
    }

    constructor ()
      ensures loading && counselorId.None? && !bookingOpen
      ensures selectedService.None? && selectedDate.None? && selectedTime == "" && notes == ""
      ensures navigateTo.None? && requests == []
    {
      loading := true;
      counselorId := None;
      bookingOpen := false;
      selectedService := None;
      selectedDate := None;
      selectedTime := "";
      notes := "";
      navigateTo := None;
      requests := [];
    }

    /** `fetchCounselor` completing: an unknown id leads back to the
        directory; loading ends either way. */
    method Fetched(found: Option<string>)
      modifies this
      ensures !loading
      ensures found.Some? ==> counselorId == found && navigateTo == old(navigateTo)
      ensures found.None? ==> counselorId == old(counselorId) && navigateTo == Some(DirectoryPath)
      ensures bookingOpen == old(bookingOpen) && selectedService == old(selectedService)
      ensures selectedDate == old(selectedDate) && selectedTime == old(selectedTime) && notes == old(notes)
      ensures requests == old(requests)
    {
      loading := false;
      if found.Some? {
        counselorId := found;
      } else {
        navigateTo := Some(DirectoryPath);
      }
    }

    /** "Book" on a service opens the dialog for it. */
    method ChooseService(serviceId: string)
      modifies this
      ensures bookingOpen && selectedService == Some(serviceId)
      ensures loading == old(loading) && counselorId == old(counselorId)
      ensures selectedDate == old(selectedDate) && selectedTime == old(selectedTime) && notes == old(notes)
      ensures navigateTo == old(navigateTo) && requests == old(requests)
    {
      selectedService := Some(serviceId);
      bookingOpen := true;
    }

    /** A click on a day the calendar lets through. */
    method SelectDate(d: Day, nowMs: int)
      requires !DateDisabled(d, nowMs)
      modifies this
      ensures selectedDate == Some(d)
      ensures loading == old(loading) && counselorId == old(counselorId) && bookingOpen == old(bookingOpen)
      ensures selectedService == old(selectedService) && selectedTime == old(selectedTime) && notes == old(notes)
      ensures navigateTo == old(navigateTo) && requests == old(requests)
    {
      selectedDate := Some(d);
    }

    /** A choice in the slot list. */
    method SelectTime(i: nat)
      requires i < |AvailableTimes|
      modifies this
      ensures selectedTime == AvailableTimes[i]
      ensures loading == old(loading) && counselorId == old(counselorId) && bookingOpen == old(bookingOpen)
      ensures selectedService == old(selectedService) && selectedDate == old(selectedDate) && notes == old(notes)
      ensures navigateTo == old(navigateTo) && requests == old(requests)
    {
      selectedTime := AvailableTimes[i];
    }

    /** Typing in the notes box. */
    method SetNotes(text: string)
      modifies this
      ensures notes == text
      ensures loading == old(loading) && counselorId == old(counselorId) && bookingOpen == old(bookingOpen)
      ensures selectedService == old(selectedService) && selectedDate == old(selectedDate)
      ensures selectedTime == old(selectedTime) && navigateTo == old(navigateTo) && requests == old(requests)
    {
      notes := text;
    }

    /** "Cancel", or dismissing the dialog: it closes and keeps its fields. */
    method CloseBooking()
      modifies this
      ensures !bookingOpen
      ensures loading == old(loading) && counselorId == old(counselorId)
      ensures selectedService == old(selectedService) && selectedDate == old(selectedDate)
      ensures selectedTime == old(selectedTime) && notes == old(notes)
      ensures navigateTo == old(navigateTo) && requests == old(requests)
    {
      bookingOpen := false;
    }

    /** `handleBooking` with the outcome of the POST: a visitor is sent to
        the login page; a request that cannot be formed sends nothing; a
        successful booking closes the dialog and clears service, date, time
        and notes; a failed one keeps them. */
    method HandleBooking(signedIn: bool, ok: bool)
      requires counselorId.Some?
      modifies this
      ensures old(Pending(signedIn)) == Err(NotSignedIn) ==> navigateTo == Some(LoginPath)
      ensures old(Pending(signedIn)) != Err(NotSignedIn) ==> navigateTo == old(navigateTo)
      ensures old(Pending(signedIn)).Err? ==> requests == old(requests)
      ensures old(Pending(signedIn)).Ok? ==> requests == old(requests) + [old(Pending(signedIn)).value]
      ensures old(Pending(signedIn)).Ok? && ok ==>
                !bookingOpen && selectedService.None? && selectedDate.None? && selectedTime == "" && notes == ""
      ensures old(Pending(signedIn)).Err? || !ok ==>
                bookingOpen == old(bookingOpen) && selectedService == old(selectedService) &&
                selectedDate == old(selectedDate) && selectedTime == old(selectedTime) && notes == old(notes)
      ensures loading == old(loading) && counselorId == old(counselorId)
    {
      var r := Pending(signedIn);
      if r == Err(NotSignedIn) {
        navigateTo := Some(LoginPath);
        return;
      }
      if r.Err? {
        return;
      }
      requests := requests + [r.value];
      if ok {
        ResetBooking();
      }
    }

    /** The dialog closes and its four fields are cleared. */
    method ResetBooking()
      modifies this
      ensures !bookingOpen && selectedService.None? && selectedDate.None? && selectedTime == "" && notes == ""
      ensures loading == old(loading) && counselorId == old(counselorId)
      ensures navigateTo == old(navigateTo) && requests == old(requests)
    {
      bookingOpen := false;
      selectedService := None;
      selectedDate := None;
      selectedTime := "";
      notes := "";
    }
  }
}
