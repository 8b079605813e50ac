/**
 * services/calendar_service.py, `generate_available_time_slots`: the
 * starting times offered for a day. Candidates are laid out every
 * `interval` hours through the working hours; when a calendar is connected,
 * a candidate is dropped if it collides with any busy period the calendar
 * reports for that day.
 */
module Slots {
  import opened Wrappers
  import opened Datetime
  import opened Config

  /** A busy period reported by the calendar, as two times of day. */
  datatype Busy = Busy(start: Time, end: Time)

  /** Raised by `time(hour, minute)` when the end of a slot would fall past midnight. */
  datatype SlotError = HourOutOfRange

  /** Times of day are ordered by their microseconds since midnight. */
  predicate Before(a: Time, b: Time) {
    Micros(a) < Micros(b)
  }

  predicate AtMost(a: Time, b: Time) {
    Micros(a) <= Micros(b)
  }

  /**
   * The candidate starting times from `current` on: `current` itself, then
   * every `interval` hours (with the minute kept, seconds dropped) while the
   * time is before `end` and the hour stays within the day.
   */
  function Candidates(current: Time, end: Time, interval: int): (r: seq<Time>)
    requires ValidTime(current) && interval >= 1
    ensures r != [] <==> Before(current, end)
    ensures r != [] ==> r[0] == current
    ensures forall i :: 0 <= i < |r| ==> ValidTime(r[i]) && AtMost(current, r[i]) && Before(r[i], end)
    decreases 24 - current.hour
  {
    if !Before(current, end) then []
    else if current.hour + interval >= 24 then [current]
    else [current] + Candidates(Time(current.hour + interval, current.minute, 0, 0), end, interval)
  }

  /** The candidate after `t`, as `time(t.hour + interval, t.minute)` builds it. */
  function NextCandidate(t: Time, interval: int): Time {
    Time(t.hour + interval, t.minute, 0, 0)
  }

  /**
   * Consecutive candidates are `interval` hours apart, and the list stops
   * only where the next one would reach `end` or leave the day: no
   * candidate is skipped.
   */
  lemma {:induction false} CandidatesStep(current: Time, end: Time, interval: int, i: nat)
    requires ValidTime(current) && interval >= 1
    requires i < |Candidates(current, end, interval)|
    ensures var r := Candidates(current, end, interval);
      if i + 1 < |r| then r[i + 1] == NextCandidate(r[i], interval)
      else r[i].hour + interval >= 24 || !Before(NextCandidate(r[i], interval), end)
    decreases 24 - current.hour
  {
    if i > 0 {
      CandidatesStep(NextCandidate(current, interval), end, interval, i - 1);
    } else if current.hour + interval < 24 {
      var r := Candidates(current, end, interval);
      if 1 < |r| {
        assert r[1] == Candidates(NextCandidate(current, interval), end, interval)[0];
      }
    }
  }

  /** Candidates come in strictly increasing order. */
  lemma {:induction false} CandidatesIncreasing(current: Time, end: Time, interval: int, i: nat, j: nat)
    requires ValidTime(current) && interval >= 1
    requires i < j < |Candidates(current, end, interval)|
    ensures Before(Candidates(current, end, interval)[i], Candidates(current, end, interval)[j])
    decreases j - i
  {
    var r := Candidates(current, end, interval);
    CandidatesStep(current, end, interval, j - 1);
    assert Before(r[j - 1], r[j]);
    if i < j - 1 {
      CandidatesIncreasing(current, end, interval, i, j - 1);
    }
  }

  /** With the configured hours (8:00 to 18:00 every 2 hours) the candidates are 8, 10, 12, 14 and 16. */
  lemma DefaultCandidates()
    ensures Candidates(WorkStart, WorkEnd, SlotIntervalHours) ==
      [Time(8, 0, 0, 0), Time(10, 0, 0, 0), Time(12, 0, 0, 0), Time(14, 0, 0, 0), Time(16, 0, 0, 0)]
  {
    assert Candidates(Time(16, 0, 0, 0), WorkEnd, 2) == [Time(16, 0, 0, 0)] + Candidates(Time(18, 0, 0, 0), WorkEnd, 2);
    assert Candidates(Time(14, 0, 0, 0), WorkEnd, 2) == [Time(14, 0, 0, 0)] + Candidates(Time(16, 0, 0, 0), WorkEnd, 2);
    assert Candidates(Time(12, 0, 0, 0), WorkEnd, 2) == [Time(12, 0, 0, 0)] + Candidates(Time(14, 0, 0, 0), WorkEnd, 2);
    assert Candidates(Time(10, 0, 0, 0), WorkEnd, 2) == [Time(10, 0, 0, 0)] + Candidates(Time(12, 0, 0, 0), WorkEnd, 2);
  }

  /**
   * What the candidate loop produces for any non-zero interval, and for
   * interval 0 when the loop body never runs. A negative interval moves the
   * hour back until `time(hour, minute)` raises on a negative hour. The loop
   * body never runs when the start is not before the end.
   */
  function LaidOut(start: Time, end: Time, interval: int): (r: Result<seq<Time>, SlotError>)
    requires ValidTime(start) && (interval != 0 || !Before(start, end))
    ensures interval >= 1 ==> r == Ok(Candidates(start, end, interval))
    ensures interval <= 0 ==> (r.Err? <==> Before(start, end))
    ensures r.Ok? && interval <= 0 ==> r.value == []
  {
    if interval >= 1 then Ok(Candidates(start, end, interval))
    else if Before(start, end) then Err(HourOutOfRange)
    else Ok([])
  }

  /**
   * The collision test of one candidate `slot` against one busy period, with
   * Python's evaluation order: `busy_start <= slot < busy_end` first; only
   * if that fails and `slot <= busy_start` holds is the end of the slot,
   * `time(slot.hour + interval, slot.minute)`, built, which raises when the
   * hour reaches 24.
   */
  function Collides(slot: Time, b: Busy, interval: int): (r: Result<bool, SlotError>)
    ensures r.Err? <==> !(AtMost(b.start, slot) && Before(slot, b.end)) && AtMost(slot, b.start)
                        && slot.hour + interval >= 24
  {
    if AtMost(b.start, slot) && Before(slot, b.end) then Ok(true)
    else if !AtMost(slot, b.start) then Ok(false)
    else if slot.hour + interval >= 24 then Err(HourOutOfRange)
    else Ok(Before(b.start, NextCandidate(slot, interval)))
  }

  /** The end of a slot lies after its start whenever it can be built. */
  lemma SlotEndAfterStart(slot: Time, interval: int)
    requires ValidTime(slot) && interval >= 1
    ensures Before(slot, NextCandidate(slot, interval))
  {
  }

  /**
   * For a proper busy period (start before end) the test is exactly the
   * overlap of the half-open ranges [slot, slot end) and [busy start, busy
   * end). A busy period with no length still blocks a slot it falls inside.
   */
  lemma CollidesIsOverlap(slot: Time, b: Busy, interval: int)
    requires ValidTime(slot) && interval >= 1 && slot.hour + interval < 24
    ensures var slotEnd := NextCandidate(slot, interval);
      Before(b.start, b.end) ==>
        (Collides(slot, b, interval) == Ok(true) <==> Before(slot, b.end) && Before(b.start, slotEnd))
    ensures var slotEnd := NextCandidate(slot, interval);
      !Before(b.start, b.end) ==>
        (Collides(slot, b, interval) == Ok(true) <==> AtMost(slot, b.start) && Before(b.start, slotEnd))
  {
    SlotEndAfterStart(slot, interval);
  }

  /**
   * The scan of the busy periods for one slot, left to right, stopping at
   * the first collision: `Ok(true)` when one is found, an error if one is
   * raised first, `Ok(false)` when the slot is free.
   */
  function Scan(slot: Time, busy: seq<Busy>, interval: int): Result<bool, SlotError> {
    if busy == [] then Ok(false)
    else
      match Scan(slot, busy[..|busy| - 1], interval)
      case Ok(false) => Collides(slot, busy[|busy| - 1], interval)
      case other => other
  }

  /** A slot no busy period collides with. */
  predicate Free(slot: Time, busy: seq<Busy>, interval: int) {
    forall j :: 0 <= j < |busy| ==> Collides(slot, busy[j], interval) == Ok(false)
  }

  /** The scan reports a slot free exactly when no busy period collides with it. */
  lemma {:induction false} ScanFree(slot: Time, busy: seq<Busy>, interval: int)
    ensures Scan(slot, busy, interval) == Ok(false) <==> Free(slot, busy, interval)
  {
    if busy != [] {
      var init := busy[..|busy| - 1];
      ScanFree(slot, init, interval);
      assert forall j :: 0 <= j < |init| ==> init[j] == busy[j];
    }
  }

  /** Once the scan has stopped (a collision or an error), later busy periods do not change it. */
  lemma {:induction false} ScanStops(slot: Time, busy: seq<Busy>, interval: int, n: nat)
    requires n <= |busy| && Scan(slot, busy[..n], interval) != Ok(false)
    ensures Scan(slot, busy, interval) == Scan(slot, busy[..n], interval)
    decreases |busy| - n
  {
    if n < |busy| {
      assert busy[..n + 1][..n] == busy[..n];
      ScanStops(slot, busy, interval, n + 1);
    } else {
      assert busy[..n] == busy;
    }
  }

  /**
   * The filter over the candidates, in order: a slot whose scan finds a
   * collision is dropped, a free slot kept, and an error ends it.
   */
  function FilterAvailable(slots: seq<Time>, busy: seq<Busy>, interval: int): Result<seq<Time>, SlotError> {
    if slots == [] then Ok([])
    else
      match FilterAvailable(slots[..|slots| - 1], busy, interval)
      case Err(e) => Err(e)
      case Ok(kept) =>
        match Scan(slots[|slots| - 1], busy, interval)
        case Err(e) => Err(e)
        case Ok(true) => Ok(kept)
        case Ok(false) => Ok(kept + [slots[|slots| - 1]])
  }

  /** An error in a prefix of the candidates is the error of the whole filter. */
  lemma {:induction false} FilterErrorStops(slots: seq<Time>, busy: seq<Busy>, interval: int, n: nat)
    requires n <= |slots| && FilterAvailable(slots[..n], busy, interval).Err?
    ensures FilterAvailable(slots, busy, interval).Err?
    decreases |slots| - n
  {
    if n < |slots| {
      assert slots[..n + 1][..n] == slots[..n];
      FilterErrorStops(slots, busy, interval, n + 1);
    } else {
      assert slots[..n] == slots;
    }
  }

  /**
   * What the filter keeps: a time is kept exactly when it is one of the
   * slots and free, and the kept times are in the order of the slots.
   */
  lemma {:induction false} FilterKeepsFree(slots: seq<Time>, busy: seq<Busy>, interval: int)
    requires FilterAvailable(slots, busy, interval).Ok?
    ensures forall t :: t in FilterAvailable(slots, busy, interval).value <==>
      t in slots && Scan(t, busy, interval) == Ok(false)
    ensures |FilterAvailable(slots, busy, interval).value| <= |slots|
  {
    if slots != [] {
      var init := slots[..|slots| - 1];
      assert slots == init + [slots[|slots| - 1]];
      FilterKeepsFree(init, busy, interval);
    }
  }

  /** The filter keeps the order of the slots: kept times of increasing slots increase. */
  lemma {:induction false} FilterIncreasing(slots: seq<Time>, busy: seq<Busy>, interval: int)
    requires forall i, j :: 0 <= i < j < |slots| ==> Before(slots[i], slots[j])
    requires FilterAvailable(slots, busy, interval).Ok?
    ensures var kept := FilterAvailable(slots, busy, interval).value;
      forall i, j :: 0 <= i < j < |kept| ==> Before(kept[i], kept[j])
  {
    if slots != [] {
      var init := slots[..|slots| - 1];
      var last := slots[|slots| - 1];
      FilterIncreasing(init, busy, interval);
      FilterKeepsFree(init, busy, interval);
      var kept := FilterAvailable(init, busy, interval).value;
      forall t | t in kept
        ensures Before(t, last)
      {
        var i :| 0 <= i < |init| && init[i] == t;
      }
    }
  }

  /** With no busy periods every candidate is offered. */
  lemma {:induction false} FilterNoBusy(slots: seq<Time>, interval: int)
    ensures FilterAvailable(slots, [], interval) == Ok(slots)
  {
    if slots != [] {
      FilterNoBusy(slots[..|slots| - 1], interval);
      assert slots[..|slots| - 1] + [slots[|slots| - 1]] == slots;
    }
  }

  /** The inputs of the generator, with the configured defaults for the ones not given. */
  function Resolve(t: Option<Time>, default: Time): Time {
    if t.None? then default else t.value
  }

  /**
   * The specification of `generate_available_time_slots(date, service, ...)`
   * where `calendar` is `None` when no calendar service is connected and
   * otherwise holds the busy periods it reports for the day.
   */
  function AvailableSlots(date: Date, calendar: Option<seq<Busy>>, start: Time, end: Time, interval: int): (r: Result<seq<Time>, SlotError>)
    requires Valid(date) && ValidTime(start) && Terminates(date, start, end, interval)
    ensures Weekday(date) >= 5 ==> r == Ok([])
    ensures r.Err? ==> Weekday(date) < 5 && Before(start, end) && (interval < 0 || calendar.Some?)
    ensures r.Ok? && interval <= 0 ==> r.value == []
  {
    if Weekday(date) >= 5 then Ok([])
    else
      match LaidOut(start, end, interval)
      case Err(e) => Err(e)
      case Ok(all) => if calendar.None? then Ok(all) else FilterAvailable(all, calendar.value, interval)
  }

  /**
   * The generator returns: the only input on which it loops forever is an
   * interval of 0 on a working day whose start is before its end.
   */
  predicate Terminates(date: Date, start: Time, end: Time, interval: int)
    requires Valid(date)
  {
    interval != 0 || Weekday(date) >= 5 || !Before(start, end)
  }

  /** A negative interval on a working day with working hours raises `ValueError`. */
  lemma NegativeIntervalRaises(date: Date, calendar: Option<seq<Busy>>, start: Time, end: Time, interval: int)
    requires Valid(date) && ValidTime(start) && interval < 0 && Weekday(date) < 5 && Before(start, end)
    ensures AvailableSlots(date, calendar, start, end, interval) == Err(HourOutOfRange)
  {
  }

  /** Working hours that end no later than they start offer nothing, whatever the interval. */
  lemma EmptyHoursOfferNothing(date: Date, calendar: Option<seq<Busy>>, start: Time, end: Time, interval: int)
    requires Valid(date) && ValidTime(start) && !Before(start, end)
    ensures AvailableSlots(date, calendar, start, end, interval) == Ok([])
  {
    if interval >= 1 && Weekday(date) < 5 && calendar.Some? {
      assert Candidates(start, end, interval) == [];
    }
  }

  /** Saturdays and Sundays offer nothing. */
  lemma WeekendHasNoSlots(date: Date, calendar: Option<seq<Busy>>, start: Time, end: Time, interval: int)
    requires Valid(date) && ValidTime(start) && Weekday(date) >= 5
    ensures AvailableSlots(date, calendar, start, end, interval) == Ok([])
  {
  }

  /** A working day without a calendar, or with an empty one, offers every candidate. */
  lemma NoCalendarOffersAll(date: Date, calendar: Option<seq<Busy>>, start: Time, end: Time, interval: int)
    requires Valid(date) && ValidTime(start) && interval >= 1 && Weekday(date) < 5
    requires calendar.None? || calendar.value == []
    ensures AvailableSlots(date, calendar, start, end, interval) == Ok(Candidates(start, end, interval))
  {
    if calendar.Some? {
      FilterNoBusy(Candidates(start, end, interval), interval);
    }
  }

  /**
   * What is offered on a working day with a calendar: exactly the
   * candidates that no busy period collides with, in increasing order.
   */
  lemma OfferedAreFree(date: Date, busy: seq<Busy>, start: Time, end: Time, interval: int)
    requires Valid(date) && ValidTime(start) && interval >= 1 && Weekday(date) < 5
    requires AvailableSlots(date, Some(busy), start, end, interval).Ok?
    ensures var offered := AvailableSlots(date, Some(busy), start, end, interval).value;
      (forall t :: t in offered <==> t in Candidates(start, end, interval) && Free(t, busy, interval)) &&
      (forall i, j :: 0 <= i < j < |offered| ==> Before(offered[i], offered[j]))
  {
    var cands := Candidates(start, end, interval);
    FilterKeepsFree(cands, busy, interval);
    forall t
      ensures Scan(t, busy, interval) == Ok(false) <==> Free(t, busy, interval)
    {
      ScanFree(t, busy, interval);
    }
    forall i, j | 0 <= i < j < |cands|
      ensures Before(cands[i], cands[j])
    {
      CandidatesIncreasing(start, end, interval, i, j);
    }
    FilterIncreasing(cands, busy, interval);
  }

  /**
   * With the configured working hours no slot end can pass midnight, so the
   * generator never raises, whatever the calendar reports.
   */
  lemma DefaultsNeverFail(date: Date, calendar: Option<seq<Busy>>)
    requires Valid(date)
    ensures AvailableSlots(date, calendar, WorkStart, WorkEnd, SlotIntervalHours).Ok?
  {
    if Weekday(date) < 5 && calendar.Some? {
      DefaultCandidates();
      FilterNeverFails(Candidates(WorkStart, WorkEnd, SlotIntervalHours), calendar.value, SlotIntervalHours);
    }
  }

  /** The filter cannot fail when every slot ends before midnight. */
  lemma {:induction false} FilterNeverFails(slots: seq<Time>, busy: seq<Busy>, interval: int)
    requires forall i :: 0 <= i < |slots| ==> slots[i].hour + interval < 24
    ensures FilterAvailable(slots, busy, interval).Ok?
  {
    if slots != [] {
      FilterNeverFails(slots[..|slots| - 1], busy, interval);
      ScanNeverFails(slots[|slots| - 1], busy, interval);
    }
  }

  lemma {:induction false} ScanNeverFails(slot: Time, busy: seq<Busy>, interval: int)
    requires slot.hour + interval < 24
    ensures Scan(slot, busy, interval).Ok?
  {
    if busy != [] {
      ScanNeverFails(slot, busy[..|busy| - 1], interval);
    }
  }

  /** One candidate, then the ones after it. */
  lemma CandidatesUnfold(current: Time, end: Time, interval: int)
    requires ValidTime(current) && interval >= 1 && Before(current, end)
    ensures Candidates(current, end, interval) ==
      [current] + (if current.hour + interval >= 24 then [] else Candidates(NextCandidate(current, interval), end, interval))
  {
  }

  /** Going back by whole hours, with the minute kept and the seconds dropped, goes earlier in the day. */
  lemma EarlierHour(t: Time, hour: int)
    requires ValidTime(t) && 0 <= hour < t.hour
    ensures Before(Time(hour, t.minute, 0, 0), t)
  {
  }

  /** One turn of the candidate loop for a positive interval: the current candidate joins the list. */
  lemma LayOutStep(start: Time, all: seq<Time>, current: Time, end: Time, interval: int)
    requires ValidTime(start) && ValidTime(current) && interval >= 1 && Before(current, end)
    requires all + Candidates(current, end, interval) == Candidates(start, end, interval)
    ensures current.hour + interval >= 24 ==> all + [current] == Candidates(start, end, interval)
    ensures current.hour + interval < 24 ==>
      (all + [current]) + Candidates(NextCandidate(current, interval), end, interval) == Candidates(start, end, interval)
  {
    CandidatesUnfold(current, end, interval);
    if current.hour + interval < 24 {
      assert all + ([current] + Candidates(NextCandidate(current, interval), end, interval)) ==
             (all + [current]) + Candidates(NextCandidate(current, interval), end, interval);
    } else {
      assert all + Candidates(current, end, interval) == all + [current];
    }
  }

  /**
   * The candidate loop of `generate_available_time_slots`. `time(hour,
   * minute)` raising on a negative hour is `Err`.
   */
  method LayOutCandidates(start: Time, end: Time, interval: int) returns (r: Result<seq<Time>, SlotError>)
    requires ValidTime(start) && (interval != 0 || !Before(start, end))
    ensures r == LaidOut(start, end, interval)
  {
    var all := [];
    var current := start;
    while Before(current, end)
      invariant ValidTime(current)
      invariant interval >= 1 ==> all + Candidates(current, end, interval) == Candidates(start, end, interval)
      invariant interval == 0 ==> all == [] && !Before(current, end)
      invariant interval < 0 ==> (all == [] && current == start) || (Before(start, end) && Before(current, end))
      decreases if interval >= 1 then 24 - current.hour else current.hour
    {
      if interval >= 1 {
        LayOutStep(start, all, current, end, interval);
      }
      all := all + [current];
      var hour := current.hour + interval;
      if hour >= 24 {
        return Ok(all);
      }
      if hour < 0 {
        return Err(HourOutOfRange);
      }
      if interval < 0 {
        EarlierHour(current, hour);
      }
      ghost var previous := current;
      current := Time(hour, current.minute, 0, 0);
      assert current == NextCandidate(previous, interval);
    }
    if interval >= 1 {
      assert Candidates(current, end, interval) == [];
      assert all + [] == all;
    }
    return Ok(all);
  }

  /**
   * The inner loop over the busy periods for one slot: `Ok(true)` as soon as
   * one collides, `Err` when building the slot end raises first.
   */
  method FindCollision(slot: Time, busy: seq<Busy>, interval: int) returns (r: Result<bool, SlotError>)
    ensures r == Scan(slot, busy, interval)
  {
    var j := 0;
    while j < |busy|
      invariant 0 <= j <= |busy|
      invariant Scan(slot, busy[..j], interval) == Ok(false)
    {
      var b := busy[j];
      assert busy[..j + 1][..j] == busy[..j];
      var collides := false;
      if AtMost(b.start, slot) && Before(slot, b.end) {
        collides := true;
      } else if AtMost(slot, b.start) {
        var endHour := slot.hour + interval;
        if endHour >= 24 {
          ScanStops(slot, busy, interval, j + 1);
          return Err(HourOutOfRange);
        }
        collides := Before(b.start, Time(endHour, slot.minute, 0, 0));
      }
      if collides {
        ScanStops(slot, busy, interval, j + 1);
        return Ok(true);
      }
      j := j + 1;
    }
    assert busy[..j] == busy;
    return Ok(false);
  }

  /** The outer filter loop: each slot is kept when no busy period collides with it. */
  method KeepAvailable(all: seq<Time>, busy: seq<Busy>, interval: int) returns (r: Result<seq<Time>, SlotError>)
    ensures r == FilterAvailable(all, busy, interval)
  {
    var available: seq<Time> := [];
    var i := 0;
    while i < |all|
      invariant 0 <= i <= |all|
      invariant FilterAvailable(all[..i], busy, interval) == Ok(available)
    {
      var slot := all[i];
      assert all[..i + 1][..i] == all[..i];
      var collision := FindCollision(slot, busy, interval);
      if collision.Err? {
        assert all[..i + 1][i] == slot;
        assert FilterAvailable(all[..i + 1], busy, interval).Err?;
        FilterErrorStops(all, busy, interval, i + 1);
        assert FilterAvailable(all, busy, interval).error.HourOutOfRange?;
        return Err(HourOutOfRange);
      }
      if !collision.value {
        available := available + [slot];
      }
      i := i + 1;
    }
    assert all[..i] == all;
    return Ok(available);
  }

  /**
   * `generate_available_time_slots`: `None` for a working-hours or interval
   * argument means the configured value. Raising `ValueError` is `Err`.
   */
  method GenerateAvailableTimeSlots(date: Date, calendar: Option<seq<Busy>>,
                                    workStart: Option<Time>, workEnd: Option<Time>,
                                    slotIntervalHours: Option<int>)
    returns (r: Result<seq<Time>, SlotError>)
    requires Valid(date)
    requires workStart.Some? ==> ValidTime(workStart.value)
    requires Terminates(date, Resolve(workStart, WorkStart), Resolve(workEnd, WorkEnd),
                        if slotIntervalHours.None? then SlotIntervalHours else slotIntervalHours.value)
    ensures r == AvailableSlots(date, calendar, Resolve(workStart, WorkStart), Resolve(workEnd, WorkEnd),
                                if slotIntervalHours.None? then SlotIntervalHours else slotIntervalHours.value)
  {
    var start := Resolve(workStart, WorkStart);
    var end := Resolve(workEnd, WorkEnd);
    var interval := if slotIntervalHours.None? then SlotIntervalHours else slotIntervalHours.value;
    if Weekday(date) >= 5 {
      return Ok([]);
    }
    var laidOut := LayOutCandidates(start, end, interval);
    if laidOut.Err? {
      return Err(laidOut.error);
    }
    var all := laidOut.value;
    if calendar.None? {
      return Ok(all);
    }
    r := KeepAvailable(all, calendar.value, interval);
  }
}
