/**
 * handlers/cleaning.py: the message handlers of the booking flow. Text is
 * routed by the current step to the area or the address, a shared location
 * stands in for an address, and a complete booking is confirmed, submitted
 * to the calendar and reported to the owner before the context is cleared.
 */
module Cleaning {
  import opened Wrappers
  import opened Text
  import opened Datetime
  import opened DateUtils
  import opened Config
  import opened Pricing
  import opened Fsm

  /** The sender of a message. */
  datatype User = User(id: int, username: Option<string>)

  /** A shared location, with the `:.6f` renderings of its two coordinates. */
  datatype Location = Location(latitude: real, longitude: real, latitudeText: string, longitudeText: string)

  /** A `Message` as far as the handlers look at it. */
  datatype Message = Message(text: Option<string>, location: Option<Location>, user: User)

  // The booking summary, the calendar event and the owner notification.

  /** A stored date, when there is one, is one `fromisoformat` accepts. */
  predicate DateParses(d: Draft) {
    Truthy(d.selectedDate) ==> FromIsoFormat(d.selectedDate.value).Some?
  }

  /** The label of the stored date. */
  function DateLabel(d: Draft): string
    requires Truthy(d.selectedDate) && DateParses(d)
  {
    FormatDateUkrainian(FromIsoFormat(d.selectedDate.value).value)
  }

  /** The stored text of an optional key, or "" when it is missing. */
  function OrEmpty(o: Option<string>): string {
    if o.Some? then o.value else ""
  }

  /** A line present exactly when `present` holds, as a list of none or one line. */
  function Optional(present: bool, l: Detail): seq<Detail> {
    if present then [l] else []
  }

  /** The lines about the service (its type, the property type and the area, each if set), then `rest`. */
  function ServiceLinesThen(d: Draft, rest: seq<Detail>): seq<Detail> {
    Optional(Truthy(d.cleaningType), CleaningTypeLine(CleaningTypeName(OrEmpty(d.cleaningType)))) +
    (Optional(Truthy(d.propertyType), PropertyTypeLine(PropertyTypeName(OrEmpty(d.propertyType)))) +
     (Optional(TruthyReal(d.area), AreaLine(if d.area.Some? then d.area.value else 0.0)) + rest))
  }

  /** The booking details, with the given label on the date line. */
  function LinesWithDate(d: Draft, dateLabel: string): seq<Detail>
    requires Truthy(d.address)
  {
    ServiceLinesThen(d,
      Optional(Truthy(d.selectedDate), DateLine(dateLabel)) +
      (Optional(Truthy(d.selectedTime), TimeLine(OrEmpty(d.selectedTime))) +
       [AddressLine(d.address.value)]))
  }

  /** The details of a booking as the summary and the owner notification list them. */
  function BookingLines(d: Draft): seq<Detail>
    requires Truthy(d.address) && DateParses(d)
  {
    LinesWithDate(d, if Truthy(d.selectedDate) then DateLabel(d) else "")
  }

  /** Where a kind of line goes in a summary. */
  function Rank(l: Detail): nat {
    match l
    case CleaningTypeLine(_) => 0
    case PropertyTypeLine(_) => 1
    case AreaLine(_) => 2
    case DateLine(_) => 3
    case TimeLine(_) => 4
    case AddressLine(_) => 5
    case ClientLine(_) => 6
    case TelegramIdLine(_) => 7
  }

  /** The first line of a kind, if any. */
  function Find(lines: seq<Detail>, rank: nat): (r: Option<Detail>)
    ensures r.Some? ==> r.value in lines && Rank(r.value) == rank
  {
    if lines == [] then None
    else if Rank(lines[0]) == rank then Some(lines[0])
    else Find(lines[1..], rank)
  }

  /** Looking a kind up in an optional line followed by more lines. */
  lemma FindOptional(present: bool, l: Detail, rest: seq<Detail>, rank: nat)
    ensures Find(Optional(present, l) + rest, rank) ==
      if present && Rank(l) == rank then Some(l) else Find(rest, rank)
  {
    if present {
      assert (Optional(present, l) + rest)[1..] == rest;
    } else {
      assert Optional(present, l) + rest == rest;
    }
  }

  /** Kinds strictly increasing from above `floor`: each kind at most once, in summary order. */
  predicate Ascending(lines: seq<Detail>, floor: int) {
    lines == [] || (floor < Rank(lines[0]) && Ascending(lines[1..], Rank(lines[0])))
  }

  /** An optional line in front of lines of higher kinds keeps them ascending. */
  lemma AscendingOptional(present: bool, l: Detail, rest: seq<Detail>, floor: int)
    requires floor < Rank(l) && Ascending(rest, Rank(l))
    ensures Ascending(Optional(present, l) + rest, floor)
  {
    if present {
      assert (Optional(present, l) + rest)[1..] == rest;
    } else {
      assert Optional(present, l) + rest == rest;
    }
  }

  /** Lines ascending from a floor are ascending from any lower floor. */
  lemma AscendingLower(lines: seq<Detail>, low: int, high: int)
    requires low <= high && Ascending(lines, high)
    ensures Ascending(lines, low)
  {
  }

  /** The service lines, in order, each exactly when its field is set, in front of lines of later kinds. */
  lemma ServiceLinesThenListSetFields(d: Draft, rest: seq<Detail>, rank: nat)
    requires Ascending(rest, 2)
    ensures Ascending(ServiceLinesThen(d, rest), -1)
    ensures Find(ServiceLinesThen(d, rest), rank) ==
      if rank == 0 && Truthy(d.cleaningType) then Some(CleaningTypeLine(CleaningTypeName(d.cleaningType.value)))
      else if rank == 1 && Truthy(d.propertyType) then Some(PropertyTypeLine(PropertyTypeName(d.propertyType.value)))
      else if rank == 2 && TruthyReal(d.area) then Some(AreaLine(d.area.value))
      else Find(rest, rank)
  {
    var l0 := CleaningTypeLine(CleaningTypeName(OrEmpty(d.cleaningType)));
    var l1 := PropertyTypeLine(PropertyTypeName(OrEmpty(d.propertyType)));
    var l2 := AreaLine(if d.area.Some? then d.area.value else 0.0);
    var t2 := Optional(TruthyReal(d.area), l2) + rest;
    var t1 := Optional(Truthy(d.propertyType), l1) + t2;
    AscendingOptional(TruthyReal(d.area), l2, rest, 1);
    AscendingOptional(Truthy(d.propertyType), l1, t2, 0);
    AscendingOptional(Truthy(d.cleaningType), l0, t1, -1);
    FindOptional(TruthyReal(d.area), l2, rest, rank);
    FindOptional(Truthy(d.propertyType), l1, t2, rank);
    FindOptional(Truthy(d.cleaningType), l0, t1, rank);
  }

  /**
   * The summary lists only the fields that are set, in the order type,
   * property, area, date, time, and always ends with the address.
   */
  lemma SummaryListsSetFields(d: Draft, dateLabel: string, rank: nat)
    requires Truthy(d.address)
    ensures Ascending(LinesWithDate(d, dateLabel), -1)
    ensures LinesWithDate(d, dateLabel)[|LinesWithDate(d, dateLabel)| - 1] == AddressLine(d.address.value)
    ensures Find(LinesWithDate(d, dateLabel), rank) ==
      if rank == 0 && Truthy(d.cleaningType) then Some(CleaningTypeLine(CleaningTypeName(d.cleaningType.value)))
      else if rank == 1 && Truthy(d.propertyType) then Some(PropertyTypeLine(PropertyTypeName(d.propertyType.value)))
      else if rank == 2 && TruthyReal(d.area) then Some(AreaLine(d.area.value))
      else if rank == 3 && Truthy(d.selectedDate) then Some(DateLine(dateLabel))
      else if rank == 4 && Truthy(d.selectedTime) then Some(TimeLine(d.selectedTime.value))
      else if rank == 5 then Some(AddressLine(d.address.value))
      else None
  {
    var a := [AddressLine(d.address.value)];
    var l4 := TimeLine(OrEmpty(d.selectedTime));
    var l3 := DateLine(dateLabel);
    var t4 := Optional(Truthy(d.selectedTime), l4) + a;
    var t3 := Optional(Truthy(d.selectedDate), l3) + t4;
    assert Ascending(a[1..], 5);
    AscendingOptional(Truthy(d.selectedTime), l4, a, 3);
    AscendingOptional(Truthy(d.selectedDate), l3, t4, 2);
    ServiceLinesThenListSetFields(d, t3, rank);
    assert a[1..] == [];
    FindOptional(Truthy(d.selectedTime), l4, a, rank);
    FindOptional(Truthy(d.selectedDate), l3, t4, rank);
    var lines := LinesWithDate(d, dateLabel);
    assert lines == ServiceLinesThen(d, t3);
    assert lines[|lines| - 1] == a[0];
  }

  /** The first word of every event title, "cleaning". */
  const TitleHead: string := "Прибирання"

  /** The words of the event title, as `event_title_parts` collects them. */
  function TitleParts(d: Draft): (parts: seq<string>)
    ensures |parts| >= 1 && parts[0] == TitleHead
  {
    [TitleHead] +
    (if Truthy(d.cleaningType) then [CleaningTypeName(d.cleaningType.value)] else []) +
    (if Truthy(d.propertyType) then
       [if Truthy(d.cleaningType) then "(" + PropertyTypeName(d.propertyType.value) + ")"
        else PropertyTypeName(d.propertyType.value)]
     else [])
  }

  /** The event title: the title parts joined by spaces. */
  function Title(d: Draft): string {
    Join(TitleParts(d), ' ')
  }

  /** The title names the cleaning type, and the property type in parentheses only after a cleaning type. */
  lemma TitleShape(d: Draft)
    ensures Truthy(d.cleaningType) && Truthy(d.propertyType) ==>
      Title(d) == TitleHead + " " + CleaningTypeName(d.cleaningType.value) +
                  " (" + PropertyTypeName(d.propertyType.value) + ")"
    ensures Truthy(d.cleaningType) && !Truthy(d.propertyType) ==>
      Title(d) == TitleHead + " " + CleaningTypeName(d.cleaningType.value)
    ensures !Truthy(d.cleaningType) && Truthy(d.propertyType) ==>
      Title(d) == TitleHead + " " + PropertyTypeName(d.propertyType.value)
    ensures !Truthy(d.cleaningType) && !Truthy(d.propertyType) ==> Title(d) == TitleHead
  {
    var parts := TitleParts(d);
    if Truthy(d.cleaningType) && Truthy(d.propertyType) {
      var p1 := CleaningTypeName(d.cleaningType.value);
      var name := PropertyTypeName(d.propertyType.value);
      var p2 := "(" + name + ")";
      assert parts == [TitleHead, p1, p2];
      JoinOfThree(TitleHead, p1, p2, ' ');
      assert TitleHead + [' '] + p1 + [' '] + p2 == TitleHead + " " + p1 + " (" + name + ")";
    } else if Truthy(d.cleaningType) {
      var p1 := CleaningTypeName(d.cleaningType.value);
      assert parts == [TitleHead, p1];
      JoinOfTwo(TitleHead, p1, ' ');
    } else if Truthy(d.propertyType) {
      var p1 := PropertyTypeName(d.propertyType.value);
      assert parts == [TitleHead, p1];
      JoinOfTwo(TitleHead, p1, ' ');
    } else {
      assert parts == [TitleHead];
    }
  }

  /** A deep cleaning of an apartment is titled "Прибирання Генеральне (Квартира)". */
  lemma TitleExample()
    ensures Title(EmptyDraft.(cleaningType := Some("deep"), propertyType := Some("apartment"))) ==
      "Прибирання Генеральне (Квартира)"
  {
    var d := EmptyDraft.(cleaningType := Some("deep"), propertyType := Some("apartment"));
    TitleShape(d);
  }

  /** The client line of the event description: `@` and the username, or `@без username`. */
  function DescriptionClient(u: User): string {
    "@" + (if Truthy(u.username) then u.username.value else "без username")
  }

  /** The event description: the service lines, then the client and the Telegram id. */
  function Description(d: Draft, u: User): (r: seq<Detail>)
    ensures 2 <= |r| <= 5
    ensures r[|r| - 2] == ClientLine(DescriptionClient(u)) && r[|r| - 1] == TelegramIdLine(u.id)
  {
    ServiceLinesThen(d, [ClientLine(DescriptionClient(u)), TelegramIdLine(u.id)])
  }

  /** The description lists the service fields that are set, in order, then the client and the id. */
  lemma DescriptionListsSetFields(d: Draft, u: User, rank: nat)
    ensures Ascending(Description(d, u), -1)
    ensures Find(Description(d, u), rank) ==
      if rank == 0 && Truthy(d.cleaningType) then Some(CleaningTypeLine(CleaningTypeName(d.cleaningType.value)))
      else if rank == 1 && Truthy(d.propertyType) then Some(PropertyTypeLine(PropertyTypeName(d.propertyType.value)))
      else if rank == 2 && TruthyReal(d.area) then Some(AreaLine(d.area.value))
      else if rank == 6 then Some(ClientLine(DescriptionClient(u)))
      else if rank == 7 then Some(TelegramIdLine(u.id))
      else None
  {
    var tail := [ClientLine(DescriptionClient(u)), TelegramIdLine(u.id)];
    assert tail[1..][1..] == [];
    assert Ascending(tail, 2);
    ServiceLinesThenListSetFields(d, tail, rank);
  }

  /**
   * The start time of a stored time "H" or "H:M" (`int` of the parts, then
   * `time(hour, minute)`); `None` where Python raises `ValueError`.
   */
  function EventTime(text: string): (r: Option<Time>)
    ensures r.Some? ==> ValidTime(r.value) && r.value.second == 0 && r.value.microsecond == 0
    ensures r.Some? ==> Some(r.value.hour) == ParseInt(Split(text, ':')[0])
    ensures r.Some? ==>
      Some(r.value.minute) == if |Split(text, ':')| > 1 then ParseInt(Split(text, ':')[1]) else Some(0)
  {
    var parts := Split(text, ':');
    match ParseInt(parts[0])
    case None => None
    case Some(hour) =>
      match (if |parts| > 1 then ParseInt(parts[1]) else Some(0))
      case None => None
      case Some(minute) => MakeTime(hour, minute)
  }

  /** A two-digit number reads back as itself and holds no ':'. */
  lemma PaddedParses(n: nat)
    requires n < 100
    ensures ParseInt(Padded(n, 2)) == Some(n) && ':' !in Padded(n, 2)
    ensures Split(Padded(n, 2), ':') == [Padded(n, 2)]
  {
    var t := Padded(n, 2);
    assert IsDigits(t);
    assert Pow10(2) == 100;
    PaddedValue(n, 2);
    StripTrimmed(t);
    assert ':' !in t by {
      assert forall k :: 0 <= k < |t| ==> IsDigit(t[k]);
    }
  }

  /** A two-digit hour alone starts at that full hour. */
  lemma EventTimeOfHour(h: nat)
    requires h < 24
    ensures EventTime(Padded(h, 2)) == Some(Time(h, 0, 0, 0))
  {
    PaddedParses(h);
  }

  /** Two colon-free numbers around a colon start at that hour and minute. */
  lemma EventTimeOfParts(a: string, b: string, h: nat, m: nat)
    requires ':' !in a && ':' !in b && ParseInt(a) == Some(h) && ParseInt(b) == Some(m)
    requires h < 24 && m < 60
    ensures EventTime(a + ":" + b) == Some(Time(h, m, 0, 0))
  {
    var s := a + [':'] + b;
    assert a + ":" + b == s;
    SplitAfterHead(a, b, ':');
    assert Split(b, ':') == [b];
    var parts := Split(s, ':');
    assert parts == [a, b];
    assert parts[0] == a && parts[1] == b && |parts| == 2;
    assert EventTime(s) == MakeTime(h, m);
  }

  /** "HH:MM" starts at that hour and minute. */
  lemma EventTimeOfHourMinute(h: nat, m: nat)
    requires h < 24 && m < 60
    ensures EventTime(Padded(h, 2) + ":" + Padded(m, 2)) == Some(Time(h, m, 0, 0))
  {
    PaddedParses(h);
    PaddedParses(m);
    EventTimeOfParts(Padded(h, 2), Padded(m, 2), h, m);
  }

  /** The event of a booking that starts at `start`; it lasts `CALENDAR_CLEANING_DURATION_HOURS`. */
  function CalendarEvent(d: Draft, u: User, location: string, start: DateTime): (e: EventRequest)
    requires ValidDateTime(start)
    ensures e.start == start && ValidDateTime(e.end)
    ensures Instant(e.end) == Instant(start) + CleaningDurationHours * 3600000000
    ensures e.timezone == CalendarTimezone && e.location == location
  {
    EventRequest(Title(d), Description(d, u), start, AddHours(start, CleaningDurationHours), CalendarTimezone, location)
  }

  /** Title and description depend only on the type, the property and the area. */
  lemma EventOfServiceFields(d1: Draft, d2: Draft, u: User, location: string, start: DateTime)
    requires ValidDateTime(start)
    requires d1.cleaningType == d2.cleaningType && d1.propertyType == d2.propertyType && d1.area == d2.area
    ensures CalendarEvent(d1, u, location, start) == CalendarEvent(d2, u, location, start)
  {
    assert TitleParts(d1) == TitleParts(d2);
    assert Description(d1, u) == Description(d2, u);
  }

  /**
   * The request `_create_calendar_event` submits: none unless a date and a
   * time are stored and the time parses; otherwise one event at the stored
   * date and time.
   */
  function Events(d: Draft, u: User, location: string): (r: seq<Effect>)
    requires DateParses(d)
    ensures r != [] <==>
      Truthy(d.selectedDate) && Truthy(d.selectedTime) && EventTime(d.selectedTime.value).Some?
    ensures r != [] ==>
      r == [CreateEvent(CalendarEvent(d, u, location,
                          DateTime(FromIsoFormat(d.selectedDate.value).value, EventTime(d.selectedTime.value).value)))]
  {
    if !Truthy(d.selectedDate) || !Truthy(d.selectedTime) then []
    else
      match EventTime(d.selectedTime.value)
      case None => []
      case Some(t) =>
        [CreateEvent(CalendarEvent(d, u, location, DateTime(FromIsoFormat(d.selectedDate.value).value, t)))]
  }

  /** How the owner notification names the client: `@username`, or `ID: <id>` without one. */
  function ClientDisplay(u: User): (r: string)
    ensures Truthy(u.username) ==> r == "@" + u.username.value
    ensures !Truthy(u.username) ==> r == "ID: " + IntToString(u.id)
  {
    if Truthy(u.username) then "@" + u.username.value else "ID: " + IntToString(u.id)
  }

  /**
   * `_notify_owner`: nothing without an owner id (unset or 0); otherwise one
   * message to the owner with the client and the booking lines of the summary.
   */
  function Notifications(d: Draft, u: User, ownerId: Option<int>): (r: seq<Effect>)
    requires Truthy(d.address) && DateParses(d)
    ensures r == [] <==> ownerId.None? || ownerId.value == 0
    ensures r != [] ==>
      r == [NotifyOwner(ownerId.value, [ClientLine(ClientDisplay(u)), TelegramIdLine(u.id)] + BookingLines(d))]
  {
    if ownerId.None? || ownerId.value == 0 then []
    else [NotifyOwner(ownerId.value, [ClientLine(ClientDisplay(u)), TelegramIdLine(u.id)] + BookingLines(d))]
  }

  /** The address handed to the calendar: `address_calendar` if set, else the shown address. */
  function CalendarAddress(d: Draft): (r: string)
    requires Truthy(d.address)
    ensures Truthy(d.addressCalendar) ==> r == d.addressCalendar.value
    ensures !Truthy(d.addressCalendar) ==> r == d.address.value
  {
    if Truthy(d.addressCalendar) then d.addressCalendar.value else d.address.value
  }

  /**
   * `_complete_booking`. Without an address the context is cleared. A stored
   * date that does not parse raises out of the handler, so nothing more is
   * sent and the context is kept. Otherwise the summary is sent, the event
   * and the notification are attempted, and the context is cleared.
   */
  function BookingOutcome(s: Session, u: User, ownerId: Option<int>): (o: Outcome)
    ensures o.session == Cleared || o.session == s
    ensures o.replies == [] <==> Truthy(s.draft.address) && !DateParses(s.draft)
    ensures o.replies == [] ==> o == Outcome(s, [], [])
    ensures o.effects != [] ==>
      o.session == Cleared && Truthy(s.draft.address) && DateParses(s.draft) &&
      o.replies == [BookingConfirmed(BookingLines(s.draft))] && |o.effects| <= 2
  {
    var d := s.draft;
    if !Truthy(d.address) then Outcome(Cleared, [AddressNotSaved, Menu], [])
    else if !DateParses(d) then Outcome(s, [], [])
    else
      Outcome(Cleared, [BookingConfirmed(BookingLines(d))],
              Events(d, u, CalendarAddress(d)) + Notifications(d, u, ownerId))
  }

  /** A booking from a consistent conversation with an address never raises and always clears. */
  lemma BookingClears(s: Session, u: User, ownerId: Option<int>)
    requires Consistent(s)
    ensures BookingOutcome(s, u, ownerId).session == Cleared
    ensures Truthy(s.draft.address) ==>
      BookingOutcome(s, u, ownerId).replies == [BookingConfirmed(BookingLines(s.draft))]
    ensures !Truthy(s.draft.address) ==>
      BookingOutcome(s, u, ownerId) == Outcome(Cleared, [AddressNotSaved, Menu], [])
  {
  }

  /** Puts the replies a handler sent before the booking in front of the booking's own. */
  function After(first: Reply, o: Outcome): Outcome {
    Outcome(o.session, [first] + o.replies, o.effects)
  }

  // The area, the address and the location.

  /**
   * `process_area_input`. `parseFloat` is `float`, defined on the stripped
   * text: `None` where it raises `ValueError`. An unknown type key in
   * `calculate_cleaning_price` is caught and clears the context.
   */
  function AreaOutcome(s: Session, text: Option<string>, parseFloat: string -> Option<real>): (o: Outcome)
    ensures o.effects == [] && 1 <= |o.replies| <= 2
    ensures |o.replies| == 2 ==> o.session == Cleared && o.replies in {[DataNotSaved, Menu], [Failure, Menu]}
    ensures o.session == Cleared || (o.session.step == s.step && o.session.draft.(area := s.draft.area) == s.draft)
    ensures o.session != Cleared && o.session.draft.area != s.draft.area ==>
      o.session.draft.area.Some? && o.session.draft.area.value > 0.0
  {
    if !Truthy(text) then Outcome(s, [AreaNotText], [])
    else
      match parseFloat(Strip(text.value))
      case None => Outcome(s, [AreaNotANumber], [])
      case Some(area) =>
        if area <= 0.0 then Outcome(s, [AreaNotPositive], [])
        else
          var ct, pt := s.draft.cleaningType, s.draft.propertyType;
          if !Truthy(ct) || !Truthy(pt) then Outcome(Cleared, [DataNotSaved, Menu], [])
          else
            match CalculateCleaningPrice(ct.value, pt.value, area)
            case Err(_) => Outcome(Cleared, [Failure, Menu], [])
            case Ok(q) =>
              var discount :=
                if q.discountPercent > 0 then Some(Discount(q.priceBeforeDiscount, q.discountPercent, q.discountAmount))
                else None;
              Outcome(s.(draft := s.draft.(area := Some(area))),
                      [PriceCalculated(CleaningTypeName(ct.value), PropertyTypeName(pt.value), area, discount, q.finalPrice)],
                      [])
  }

  /** Text that is missing, not a number or not positive is answered and changes nothing. */
  lemma AreaRejectsBadInput(s: Session, text: Option<string>, parseFloat: string -> Option<real>)
    requires !Truthy(text) || parseFloat(Strip(text.value)).None? || parseFloat(Strip(text.value)).value <= 0.0
    ensures AreaOutcome(s, text, parseFloat).session == s
    ensures |AreaOutcome(s, text, parseFloat).replies| == 1
    ensures AreaOutcome(s, text, parseFloat).replies[0] in {AreaNotText, AreaNotANumber, AreaNotPositive}
  {
  }

  /**
   * A positive area with both types stored and priced is stored, the step is
   * kept, and the quote of `calculate_cleaning_price` is shown, with its
   * discount exactly when the area is over 50 m^2.
   */
  lemma AreaQuotes(s: Session, text: string, parseFloat: string -> Option<real>, area: real)
    requires parseFloat(Strip(text)) == Some(area) && area > 0.0 && text != ""
    requires Truthy(s.draft.cleaningType) && Truthy(s.draft.propertyType)
    requires CalculateCleaningPrice(s.draft.cleaningType.value, s.draft.propertyType.value, area).Ok?
    ensures var o := AreaOutcome(s, Some(text), parseFloat);
      var q := CalculateCleaningPrice(s.draft.cleaningType.value, s.draft.propertyType.value, area).value;
      o.session == Session(s.step, s.draft.(area := Some(area))) &&
      |o.replies| == 1 && o.replies[0].PriceCalculated? &&
      o.replies[0].finalPrice == q.finalPrice && o.replies[0].area == area &&
      (o.replies[0].discount.Some? <==> area > 50.0) &&
      (o.replies[0].discount.Some? ==> o.replies[0].discount.value.percent == q.discountPercent)
  {
  }

  /** A positive area while a type is missing or unknown clears the context and shows the menu. */
  lemma AreaClearsOnMissingData(s: Session, text: string, parseFloat: string -> Option<real>, area: real)
    requires parseFloat(Strip(text)) == Some(area) && area > 0.0 && text != ""
    requires !Truthy(s.draft.cleaningType) || !Truthy(s.draft.propertyType) ||
             CalculateCleaningPrice(s.draft.cleaningType.value, s.draft.propertyType.value, area).Err?
    ensures AreaOutcome(s, Some(text), parseFloat).session == Cleared
    ensures var r := AreaOutcome(s, Some(text), parseFloat).replies; |r| == 2 && r[1] == Menu
  {
  }

  /** `process_address_input`: text stripped to at least 5 characters becomes both addresses. */
  function AddressOutcome(s: Session, m: Message, ownerId: Option<int>): (o: Outcome)
    ensures o.replies != []
    ensures o.replies[0] == AddressSaved <==> Truthy(m.text) && |Strip(m.text.value)| >= 5
    ensures o.replies[0] != AddressSaved ==> o.session == s && |o.replies| == 1 && o.effects == []
    ensures o.effects != [] ==> o.session == Cleared && |o.effects| <= 2
  {
    if !Truthy(m.text) then Outcome(s, [AddressNotText], [])
    else
      var address := Strip(m.text.value);
      if |address| < 5 then Outcome(s, [AddressTooShort], [])
      else
        var saved := s.(draft := s.draft.(address := Some(address), addressCalendar := Some(address)));
        After(AddressSaved, BookingOutcome(saved, m.user, ownerId))
  }

  /** A short address is answered and changes nothing. */
  lemma ShortAddressRejected(s: Session, m: Message, ownerId: Option<int>)
    requires m.text.Some? && |Strip(m.text.value)| < 5
    ensures AddressOutcome(s, m, ownerId).session == s
    ensures AddressOutcome(s, m, ownerId).effects == []
    ensures AddressOutcome(s, m, ownerId).replies in {[AddressNotText], [AddressTooShort]}
  {
  }

  /**
   * An accepted address completes the booking of a consistent conversation:
   * the summary ends with the stripped text, the event is placed there, and
   * the context is cleared.
   */
  lemma AddressCompletesBooking(s: Session, m: Message, ownerId: Option<int>)
    requires Consistent(s) && m.text.Some? && |Strip(m.text.value)| >= 5
    ensures var o := AddressOutcome(s, m, ownerId);
      var d := s.draft.(address := Some(Strip(m.text.value)), addressCalendar := Some(Strip(m.text.value)));
      o.session == Cleared &&
      o.replies == [AddressSaved, BookingConfirmed(BookingLines(d))] &&
      o.effects == Events(d, m.user, Strip(m.text.value)) + Notifications(d, m.user, ownerId)
  {
    var address := Strip(m.text.value);
    var d := s.draft.(address := Some(address), addressCalendar := Some(address));
    var saved := s.(draft := d);
    assert Truthy(d.address) && DateParses(d) && CalendarAddress(d) == address;
    var b := BookingOutcome(saved, m.user, ownerId);
    assert b == Outcome(Cleared, [BookingConfirmed(BookingLines(d))],
                        Events(d, m.user, address) + Notifications(d, m.user, ownerId));
    AddressAccepted(s, m, ownerId);
  }

  /** An accepted address is stored as both addresses, then the booking runs. */
  lemma AddressAccepted(s: Session, m: Message, ownerId: Option<int>)
    requires m.text.Some? && |Strip(m.text.value)| >= 5
    ensures var address := Strip(m.text.value);
      AddressOutcome(s, m, ownerId) ==
        After(AddressSaved, BookingOutcome(s.(draft := s.draft.(address := Some(address), addressCalendar := Some(address))),
                                           m.user, ownerId))
  {
  }

  /** `process_location_input`: the coordinates become the shown and the calendar address. */
  function LocationInputOutcome(s: Session, m: Message, ownerId: Option<int>): (o: Outcome)
    ensures o.replies != []
    ensures o.replies[0].LocationReceived? <==> m.location.Some?
    ensures m.location.None? ==> o == Outcome(s, [LocationMissing], [])
    ensures o.effects != [] ==> o.session == Cleared && |o.effects| <= 2
  {
    match m.location
    case None => Outcome(s, [LocationMissing], [])
    case Some(loc) =>
      var coordinates := loc.latitudeText + ", " + loc.longitudeText;
      var display := "📍 Координати: " + coordinates;
      var saved := s.(draft := s.draft.(address := Some(display), addressCalendar := Some(coordinates),
                                         latitude := Some(loc.latitude), longitude := Some(loc.longitude)));
      After(LocationReceived(display), BookingOutcome(saved, m.user, ownerId))
  }

  /** A shared location completes the booking, with the bare coordinates as the event's place. */
  lemma LocationCompletesBooking(s: Session, m: Message, ownerId: Option<int>)
    requires Consistent(s) && m.location.Some?
    ensures var o := LocationInputOutcome(s, m, ownerId);
      var coordinates := m.location.value.latitudeText + ", " + m.location.value.longitudeText;
      o.session == Cleared && |o.replies| == 2 &&
      (forall e :: e in o.effects && e.CreateEvent? ==> e.event.location == coordinates)
  {
    var loc := m.location.value;
    var coordinates := loc.latitudeText + ", " + loc.longitudeText;
    var display := "📍 Координати: " + coordinates;
    var d := s.draft.(address := Some(display), addressCalendar := Some(coordinates),
                      latitude := Some(loc.latitude), longitude := Some(loc.longitude));
    var saved := s.(draft := d);
    assert |display| > 0 && |coordinates| > 0;
    LocationAccepted(s, m, ownerId);
    BookingClears(saved, m.user, ownerId);
    var ev := Events(d, m.user, CalendarAddress(d));
    var no := Notifications(d, m.user, ownerId);
    assert BookingOutcome(saved, m.user, ownerId).effects == ev + no;
    forall e: Effect | e in ev + no && e.CreateEvent?
      ensures e.event.location == coordinates
    {
      assert e in ev;
    }
  }

  /** A shared location is stored as the shown address, the calendar address and the coordinates, then the booking runs. */
  lemma LocationAccepted(s: Session, m: Message, ownerId: Option<int>)
    requires m.location.Some?
    ensures var loc := m.location.value;
      var coordinates := loc.latitudeText + ", " + loc.longitudeText;
      var display := "📍 Координати: " + coordinates;
      LocationInputOutcome(s, m, ownerId) ==
        After(LocationReceived(display),
              BookingOutcome(s.(draft := s.draft.(address := Some(display), addressCalendar := Some(coordinates),
                                                  latitude := Some(loc.latitude), longitude := Some(loc.longitude))),
                             m.user, ownerId))
  {
  }

  // The two message handlers.

  /**
   * `text_message_handler`: commands and locations are skipped; otherwise the
   * step picks the area, the address, or the menu.
   */
  function TextOutcome(s: Session, m: Message, parseFloat: string -> Option<real>, ownerId: Option<int>): (o: Outcome)
    ensures (Truthy(m.text) && "/" <= m.text.value) || m.location.Some? ==> o == Outcome(s, [], [])
    ensures (!(Truthy(m.text) && "/" <= m.text.value) && m.location.None? &&
             s.step != EnteringArea && s.step != EnteringAddress) ==> o == Outcome(s, [Menu], [])
    ensures o.effects != [] ==> o.session == Cleared && |o.effects| <= 2
    ensures o.replies == [] ==> o == Outcome(s, [], [])
  {
    if Truthy(m.text) && "/" <= m.text.value then Outcome(s, [], [])
    else if m.location.Some? then Outcome(s, [], [])
    else if s.step == EnteringArea then AreaOutcome(s, m.text, parseFloat)
    else if s.step == EnteringAddress then AddressOutcome(s, m, ownerId)
    else Outcome(s, [Menu], [])
  }

  /** `location_message_handler`: a location counts only while an address is expected. */
  function LocationOutcome(s: Session, m: Message, ownerId: Option<int>): (o: Outcome)
    ensures m.location.None? ==> o == Outcome(s, [], [])
    ensures m.location.Some? && s.step != EnteringAddress ==> o == Outcome(s, [LocationOutsideAddress], [])
    ensures o.effects != [] ==> o.session == Cleared && |o.effects| <= 2
    ensures o.replies == [] ==> o == Outcome(s, [], [])
  {
    if m.location.None? then Outcome(s, [], [])
    else if s.step == EnteringAddress then LocationInputOutcome(s, m, ownerId)
    else Outcome(s, [LocationOutsideAddress], [])
  }

  /** The area step keeps a conversation consistent: a stored area is positive. */
  lemma AreaKeepsConsistent(s: Session, text: Option<string>, parseFloat: string -> Option<real>)
    requires Consistent(s)
    ensures Consistent(AreaOutcome(s, text, parseFloat).session)
  {
    var o := AreaOutcome(s, text, parseFloat).session;
    assert o == s || o == Cleared || (o.step == s.step && o.draft == s.draft.(area := o.draft.area) && o.draft.area.value > 0.0);
  }

  /** The address step keeps a conversation consistent: an accepted address completes the booking. */
  lemma AddressKeepsConsistent(s: Session, m: Message, ownerId: Option<int>)
    requires Consistent(s)
    ensures Consistent(AddressOutcome(s, m, ownerId).session)
  {
    if Truthy(m.text) && |Strip(m.text.value)| >= 5 {
      var address := Strip(m.text.value);
      var saved := s.(draft := s.draft.(address := Some(address), addressCalendar := Some(address)));
      BookingClears(saved, m.user, ownerId);
    }
  }

  /** Every text message keeps a conversation consistent. */
  lemma TextKeepsConsistent(s: Session, m: Message, parseFloat: string -> Option<real>, ownerId: Option<int>)
    requires Consistent(s)
    ensures Consistent(TextOutcome(s, m, parseFloat, ownerId).session)
  {
    if (Truthy(m.text) && "/" <= m.text.value) || m.location.Some? {
    } else if s.step == EnteringArea {
      assert TextOutcome(s, m, parseFloat, ownerId) == AreaOutcome(s, m.text, parseFloat);
      AreaKeepsConsistent(s, m.text, parseFloat);
    } else if s.step == EnteringAddress {
      assert TextOutcome(s, m, parseFloat, ownerId) == AddressOutcome(s, m, ownerId);
      AddressKeepsConsistent(s, m, ownerId);
    }
  }

  /** Every location message keeps a conversation consistent. */
  lemma LocationKeepsConsistent(s: Session, m: Message, ownerId: Option<int>)
    requires Consistent(s)
    ensures Consistent(LocationOutcome(s, m, ownerId).session)
  {
  }

  /** From a consistent conversation no message raises: each one is answered or skipped on purpose. */
  lemma MessagesNeverRaise(s: Session, m: Message, parseFloat: string -> Option<real>, ownerId: Option<int>)
    requires Consistent(s) && !(Truthy(m.text) && "/" <= m.text.value) && m.location.None?
    ensures TextOutcome(s, m, parseFloat, ownerId).replies != []
  {
    if s.step == EnteringArea {
      assert TextOutcome(s, m, parseFloat, ownerId) == AreaOutcome(s, m.text, parseFloat);
    } else if s.step == EnteringAddress {
      var o := AddressOutcome(s, m, ownerId);
      assert TextOutcome(s, m, parseFloat, ownerId) == o;
      if Truthy(m.text) && |Strip(m.text.value)| >= 5 {
        assert o.replies[0] == AddressSaved;
      }
    }
  }

  // The handlers, on the conversation's context.

  /** Five optional pieces and a last one, regrouped to the right. */
  lemma RegroupSix(a: seq<Detail>, b: seq<Detail>, c: seq<Detail>, e: seq<Detail>, f: seq<Detail>, g: seq<Detail>)
    ensures a + b + c + e + f + g == a + (b + (c + (e + (f + g))))
  {
  }

  /** `if present: parts.append(l)`. */
  method AppendIf(parts: seq<Detail>, present: bool, l: Detail) returns (r: seq<Detail>)
    ensures r == parts + Optional(present, l)
  {
    r := parts;
    if present {
      r := r + [l];
    }
  }

  /** Builds `summary_parts`: the lines of the fields that are set, then the address. */
  method BuildSummary(d: Draft) returns (parts: seq<Detail>)
    requires Truthy(d.address) && DateParses(d)
    ensures parts == BookingLines(d)
  {
    var dateLabel := if Truthy(d.selectedDate) then DateLabel(d) else "";
    var l0 := CleaningTypeLine(CleaningTypeName(OrEmpty(d.cleaningType)));
    var l1 := PropertyTypeLine(PropertyTypeName(OrEmpty(d.propertyType)));
    var l2 := AreaLine(if d.area.Some? then d.area.value else 0.0);
    var l3 := DateLine(dateLabel);
    var l4 := TimeLine(OrEmpty(d.selectedTime));
    parts := AppendIf([], Truthy(d.cleaningType), l0);
    parts := AppendIf(parts, Truthy(d.propertyType), l1);
    parts := AppendIf(parts, TruthyReal(d.area), l2);
    parts := AppendIf(parts, Truthy(d.selectedDate), l3);
    parts := AppendIf(parts, Truthy(d.selectedTime), l4);
    parts := parts + [AddressLine(d.address.value)];
    RegroupSix([] + Optional(Truthy(d.cleaningType), l0), Optional(Truthy(d.propertyType), l1),
               Optional(TruthyReal(d.area), l2), Optional(Truthy(d.selectedDate), l3),
               Optional(Truthy(d.selectedTime), l4), [AddressLine(d.address.value)]);
    assert [] + Optional(Truthy(d.cleaningType), l0) == Optional(Truthy(d.cleaningType), l0);
  }

  /** Builds `event_title_parts` and joins them. */
  method BuildTitle(d: Draft) returns (title: string)
    ensures title == Title(d)
  {
    var parts := [TitleHead];
    if Truthy(d.cleaningType) {
      parts := parts + [CleaningTypeName(d.cleaningType.value)];
    }
    if Truthy(d.propertyType) {
      var name := PropertyTypeName(d.propertyType.value);
      if Truthy(d.cleaningType) {
        parts := parts + ["(" + name + ")"];
      } else {
        parts := parts + [name];
      }
    }
    assert parts == TitleParts(d);
    title := Join(parts, ' ');
  }

  /** Builds `event_description_parts`. */
  method BuildDescription(d: Draft, u: User) returns (parts: seq<Detail>)
    ensures parts == Description(d, u)
  {
    parts := [];
    if Truthy(d.cleaningType) {
      parts := parts + [CleaningTypeLine(CleaningTypeName(d.cleaningType.value))];
    }
    if Truthy(d.propertyType) {
      parts := parts + [PropertyTypeLine(PropertyTypeName(d.propertyType.value))];
    }
    if TruthyReal(d.area) {
      parts := parts + [AreaLine(d.area.value)];
    }
    parts := parts + [ClientLine(DescriptionClient(u)), TelegramIdLine(u.id)];
  }

  /** The start time of the event: `int` of the hour and of the minute, then `time(hour, minute)`. */
  method ParseEventTime(text: string) returns (t: Option<Time>)
    ensures t == EventTime(text)
  {
    var parts := Split(text, ':');
    var hour := ParseInt(parts[0]);
    if hour.None? {
      return None;
    }
    var minute := if |parts| > 1 then ParseInt(parts[1]) else Some(0);
    if minute.None? {
      return None;
    }
    t := MakeTime(hour.value, minute.value);
  }

  /** `_create_calendar_event`: the event to submit, if the stored date and time give one. */
  method CreateCalendarEvent(d: Draft, u: User, location: string) returns (effects: seq<Effect>)
    requires DateParses(d)
    ensures effects == Events(d, u, location)
  {
    if !Truthy(d.selectedDate) || !Truthy(d.selectedTime) {
      return [];
    }
    var day := FromIsoFormat(d.selectedDate.value).value;
    var t := ParseEventTime(d.selectedTime.value);
    if t.None? {
      return [];
    }
    var start := DateTime(day, t.value);
    var end := AddHours(start, CleaningDurationHours);
    var title := BuildTitle(d);
    var description := BuildDescription(d, u);
    effects := [CreateEvent(EventRequest(title, description, start, end, CalendarTimezone, location))];
  }

  /** `_notify_owner`: the message to the owner, if an owner id is configured. */
  method NotifyOwnerOfBooking(d: Draft, u: User, ownerId: Option<int>) returns (effects: seq<Effect>)
    requires Truthy(d.address) && DateParses(d)
    ensures effects == Notifications(d, u, ownerId)
  {
    if ownerId.None? || ownerId.value == 0 {
      return [];
    }
    var details := BuildSummary(d);
    var parts := [ClientLine(ClientDisplay(u)), TelegramIdLine(u.id)] + details;
    effects := [NotifyOwner(ownerId.value, parts)];
  }

  /** `_complete_booking` on the context. */
  method CompleteBooking(ctx: Context, u: User, ownerId: Option<int>) returns (replies: seq<Reply>, effects: seq<Effect>)
    modifies ctx
    ensures Outcome(ctx.Snapshot(), replies, effects) == BookingOutcome(old(ctx.Snapshot()), u, ownerId)
  {
    var d := ctx.draft;
    if !Truthy(d.address) {
      ctx.Clear();
      return [AddressNotSaved, Menu], [];
    }
    if !DateParses(d) {
      return [], [];
    }
    var location := if Truthy(d.addressCalendar) then d.addressCalendar.value else d.address.value;
    var summary := BuildSummary(d);
    replies := [BookingConfirmed(summary)];
    var event := CreateCalendarEvent(d, u, location);
    var notification := NotifyOwnerOfBooking(d, u, ownerId);
    effects := event + notification;
    ctx.Clear();
  }

  /** `process_area_input` on the context. */
  method ProcessAreaInput(ctx: Context, text: Option<string>, parseFloat: string -> Option<real>) returns (replies: seq<Reply>)
    modifies ctx
    ensures Outcome(ctx.Snapshot(), replies, []) == AreaOutcome(old(ctx.Snapshot()), text, parseFloat)
  {
    if !Truthy(text) {
      return [AreaNotText];
    }
    var parsed := parseFloat(Strip(text.value));
    if parsed.None? {
      return [AreaNotANumber];
    }
    var area := parsed.value;
    if area <= 0.0 {
      return [AreaNotPositive];
    }
    var ct, pt := ctx.draft.cleaningType, ctx.draft.propertyType;
    ctx.UpdateData(ctx.draft.(area := Some(area)));
    if !Truthy(ct) || !Truthy(pt) {
      ctx.Clear();
      return [DataNotSaved, Menu];
    }
    var price := CalculateCleaningPrice(ct.value, pt.value, area);
    if price.Err? {
      ctx.Clear();
      return [Failure, Menu];
    }
    var q := price.value;
    var discount := None;
    if q.discountPercent > 0 {
      discount := Some(Discount(q.priceBeforeDiscount, q.discountPercent, q.discountAmount));
    }
    replies := [PriceCalculated(CleaningTypeName(ct.value), PropertyTypeName(pt.value), area, discount, q.finalPrice)];
  }

  /** `process_address_input` on the context. */
  method ProcessAddressInput(ctx: Context, m: Message, ownerId: Option<int>) returns (replies: seq<Reply>, effects: seq<Effect>)
    modifies ctx
    ensures Outcome(ctx.Snapshot(), replies, effects) == AddressOutcome(old(ctx.Snapshot()), m, ownerId)
  {
    if !Truthy(m.text) {
      return [AddressNotText], [];
    }
    var address := Strip(m.text.value);
    if |address| < 5 {
      return [AddressTooShort], [];
    }
    ctx.UpdateData(ctx.draft.(address := Some(address), addressCalendar := Some(address)));
    var rest;
    rest, effects := CompleteBooking(ctx, m.user, ownerId);
    replies := [AddressSaved] + rest;
  }

  /** `process_location_input` on the context. */
  method ProcessLocationInput(ctx: Context, m: Message, ownerId: Option<int>) returns (replies: seq<Reply>, effects: seq<Effect>)
    modifies ctx
    ensures Outcome(ctx.Snapshot(), replies, effects) == LocationInputOutcome(old(ctx.Snapshot()), m, ownerId)
  {
    if m.location.None? {
      return [LocationMissing], [];
    }
    var loc := m.location.value;
    var coordinates := loc.latitudeText + ", " + loc.longitudeText;
    var display := "📍 Координати: " + coordinates;
    ctx.UpdateData(ctx.draft.(address := Some(display), addressCalendar := Some(coordinates),
                              latitude := Some(loc.latitude), longitude := Some(loc.longitude)));
    var rest;
    rest, effects := CompleteBooking(ctx, m.user, ownerId);
    replies := [LocationReceived(display)] + rest;
  }

  /** `text_message_handler` on the context. */
  method TextMessageHandler(ctx: Context, m: Message, parseFloat: string -> Option<real>, ownerId: Option<int>)
    returns (replies: seq<Reply>, effects: seq<Effect>)
    modifies ctx
    ensures Outcome(ctx.Snapshot(), replies, effects) == TextOutcome(old(ctx.Snapshot()), m, parseFloat, ownerId)
  {
    if (Truthy(m.text) && "/" <= m.text.value) || m.location.Some? {
      return [], [];
    }
    if ctx.step == EnteringArea {
      replies := ProcessAreaInput(ctx, m.text, parseFloat);
      effects := [];
    } else if ctx.step == EnteringAddress {
      replies, effects := ProcessAddressInput(ctx, m, ownerId);
    } else {
      replies, effects := [Menu], [];
    }
  }

  /** `location_message_handler` on the context. */
  method LocationMessageHandler(ctx: Context, m: Message, ownerId: Option<int>) returns (replies: seq<Reply>, effects: seq<Effect>)
    modifies ctx
    ensures Outcome(ctx.Snapshot(), replies, effects) == LocationOutcome(old(ctx.Snapshot()), m, ownerId)
  {
    if m.location.None? {
      return [], [];
    }
    if ctx.step == EnteringAddress {
      replies, effects := ProcessLocationInput(ctx, m, ownerId);
    } else {
      replies, effects := [LocationOutsideAddress], [];
    }
  }
}
