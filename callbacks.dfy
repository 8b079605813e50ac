/**
 * handlers/callbacks.py: the inline-button handler. The callback string
 * alone picks the action; each action changes the conversation's step and
 * data and sends one reply.
 */
module Callbacks {
  import opened Wrappers
  import opened Text
  import opened Datetime
  import opened DateUtils
  import opened Fsm

  /** A `CallbackQuery` as far as the handler looks at it. */
  datatype Callback = Callback(hasUser: bool, data: Option<string>, hasMessage: bool)

  /** The action a callback string selects, with the argument after the first ':'. */
  datatype Action =
    | CalculatePrice
    | PickCleaningType(code: string)
    | PickPropertyType(code: string)
    | BookCleaning
    | PickDate(dateText: string)
    | PickTime(timeText: string)
    | NoSlotsNotice
    | NoDaysNotice
    | UnknownData

  const CleaningTypePrefix: string := "cleaning_type:"
  const PropertyTypePrefix: string := "property_type:"
  const DatePrefix: string := "select_date:"
  const TimePrefix: string := "select_time:"

  /** The letters that tell the callback strings apart. */
  lemma PrefixLetters(data: string)
    ensures CleaningTypePrefix <= data ==> data[0] == 'c' && data[1] == 'l' && data[13] == ':'
    ensures PropertyTypePrefix <= data ==> data[0] == 'p' && data[13] == ':'
    ensures DatePrefix <= data ==> data[0] == 's' && data[7] == 'd' && data[11] == ':'
    ensures TimePrefix <= data ==> data[0] == 's' && data[7] == 't' && data[11] == ':'
  {
    if CleaningTypePrefix <= data {
      assert data[..14] == CleaningTypePrefix;
    }
    if PropertyTypePrefix <= data {
      assert data[..14] == PropertyTypePrefix;
    }
    if DatePrefix <= data {
      assert data[..12] == DatePrefix;
    }
    if TimePrefix <= data {
      assert data[..12] == TimePrefix;
    }
  }

  /**
   * The `if/elif` chain of `callback_handler`. No callback string satisfies
   * two of the tests, so each action is chosen exactly when its own test holds.
   */
  function Route(data: string): (a: Action)
    ensures a == CalculatePrice <==> data == "calculate_price"
    ensures a.PickCleaningType? <==> CleaningTypePrefix <= data
    ensures a.PickPropertyType? <==> PropertyTypePrefix <= data
    ensures a == BookCleaning <==> data == "book_cleaning"
    ensures a.PickDate? <==> DatePrefix <= data
    ensures a.PickTime? <==> TimePrefix <= data
    ensures a == NoSlotsNotice <==> data == "no_slots_available"
    ensures a == NoDaysNotice <==> data == "no_available_days"
    ensures a.PickCleaningType? ==> ':' in data && a.code == SecondField(data, ':')
    ensures a.PickPropertyType? ==> ':' in data && a.code == SecondField(data, ':')
    ensures a.PickDate? ==> ':' in data && a.dateText == SecondField(data, ':')
    ensures a.PickTime? ==> ':' in data && a.timeText == SecondField(data, ':')
  {
    PrefixLetters(data);
    if data == "calculate_price" then CalculatePrice
    else if CleaningTypePrefix <= data then
      PickCleaningType(SecondField(data, ':'))
    else if PropertyTypePrefix <= data then
      PickPropertyType(SecondField(data, ':'))
    else if data == "book_cleaning" then BookCleaning
    else if DatePrefix <= data then
      PickDate(SecondField(data, ':'))
    else if TimePrefix <= data then
      PickTime(SecondField(data, ':'))
    else if data == "no_slots_available" then NoSlotsNotice
    else if data == "no_available_days" then NoDaysNotice
    else UnknownData
  }

  /** A `cleaning_type:` button selects its code. */
  lemma RouteCleaningTypeButton(code: string)
    requires ':' !in code
    ensures Route(CleaningTypePrefix + code) == PickCleaningType(code)
  {
    SecondFieldOfPair("cleaning_type", code, ':');
    assert CleaningTypePrefix + code == "cleaning_type" + [':'] + code;
  }

  /** A `property_type:` button selects its code. */
  lemma RoutePropertyTypeButton(code: string)
    requires ':' !in code
    ensures Route(PropertyTypePrefix + code) == PickPropertyType(code)
  {
    SecondFieldOfPair("property_type", code, ':');
    assert PropertyTypePrefix + code == "property_type" + [':'] + code;
  }

  /** A `select_date:` button selects its date text. */
  lemma RouteDateButton(text: string)
    requires ':' !in text
    ensures Route(DatePrefix + text) == PickDate(text)
  {
    SecondFieldOfPair("select_date", text, ':');
    assert DatePrefix + text == "select_date" + [':'] + text;
  }

  /** A time button "H:M" selects only the text before its second ':'. */
  lemma RouteTimeDropsMinutes(hour: string, minute: string)
    requires ':' !in hour
    ensures Route(TimePrefix + hour + ":" + minute) == PickTime(hour)
  {
    SecondFieldOfTriple("select_time", hour, minute, ':');
    assert TimePrefix + hour + ":" + minute == "select_time" + [':'] + hour + [':'] + minute;
  }

  /** `select_time:10:00` selects "10". */
  lemma RouteTenOClock()
    ensures Route("select_time:10:00") == PickTime("10")
  {
    RouteTimeDropsMinutes("10", "00");
    assert TimePrefix + "10" + ":" + "00" == "select_time:10:00";
  }

  /** The result of one action; the exception of `fromisoformat` is caught and clears the context. */
  function ActionOutcome(s: Session, a: Action): (o: Outcome)
    ensures |o.replies| == 1 && o.effects == []
    ensures o.session == Cleared || (o.session.draft.area == s.draft.area && o.session.draft.address == s.draft.address)
  {
    match a
    case CalculatePrice => Outcome(s.(step := SelectingCleaningType), [ChooseCleaningType], [])
    case PickCleaningType(code) =>
      Outcome(Session(SelectingPropertyType, s.draft.(cleaningType := Some(code))),
              [CleaningTypeChosen(CleaningTypeName(code))], [])
    case PickPropertyType(code) =>
      Outcome(Session(EnteringArea, s.draft.(propertyType := Some(code))),
              [PropertyTypeChosen(PropertyTypeName(code))], [])
    case BookCleaning => Outcome(s.(step := SelectingDate), [ChooseDate], [])
    case PickDate(text) =>
      (match FromIsoFormat(text)
       case None => Outcome(s, [BadDateFormat], [])
       case Some(d) =>
         Outcome(Session(SelectingTime, s.draft.(selectedDate := Some(text))),
                 [DateChosen(FormatDateUkrainian(d))], []))
    case PickTime(text) =>
      var draft := s.draft.(selectedTime := Some(text));
      if !Truthy(draft.selectedDate) then Outcome(Cleared, [DateNotSaved], [])
      else
        (match FromIsoFormat(draft.selectedDate.value)
         case None => Outcome(Cleared, [Failure], [])
         case Some(d) =>
           Outcome(Session(EnteringAddress, draft), [TimeChosen(FormatDateUkrainian(d), text)], []))
    case NoSlotsNotice => Outcome(s, [NoSlotsOnDate], [])
    case NoDaysNotice => Outcome(s, [NoAvailableDays], [])
    case UnknownData => Outcome(s, [UnknownAction], [])
  }

  /** `callback_handler`: a callback without user, data or message is dropped. */
  function CallbackOutcome(s: Session, cb: Callback): (o: Outcome)
    ensures o.effects == []
    ensures !(cb.hasUser && Truthy(cb.data) && cb.hasMessage) ==> o == Outcome(s, [], [])
    ensures cb.hasUser && Truthy(cb.data) && cb.hasMessage ==> |o.replies| == 1
  {
    if !cb.hasUser || !Truthy(cb.data) || !cb.hasMessage then Outcome(s, [], [])
    else ActionOutcome(s, Route(cb.data.value))
  }

  /** A callback that is handled at all. */
  function Pressed(data: string): Callback {
    Callback(true, Some(data), true)
  }

  /** Every action keeps a conversation consistent. */
  lemma ActionKeepsConsistent(s: Session, a: Action)
    requires Consistent(s)
    ensures Consistent(ActionOutcome(s, a).session)
  {
    if a.PickTime? {
      ClearedConsistent();
    }
  }

  /** Every callback keeps a conversation consistent. */
  lemma CallbackKeepsConsistent(s: Session, cb: Callback)
    requires Consistent(s)
    ensures Consistent(CallbackOutcome(s, cb).session)
  {
    if cb.hasUser && Truthy(cb.data) && cb.hasMessage {
      ActionKeepsConsistent(s, Route(cb.data.value));
    }
  }

  /** From a consistent conversation no callback ends in the generic error. */
  lemma CallbackNeverFails(s: Session, cb: Callback)
    requires Consistent(s)
    ensures Failure !in CallbackOutcome(s, cb).replies
  {
  }

  /**
   * The stored data decides the replies, never the step: two conversations
   * with the same data get the same replies and the same data back.
   */
  lemma CallbackIgnoresStep(s1: Session, s2: Session, cb: Callback)
    requires s1.draft == s2.draft
    ensures CallbackOutcome(s1, cb).replies == CallbackOutcome(s2, cb).replies
    ensures CallbackOutcome(s1, cb).session.draft == CallbackOutcome(s2, cb).session.draft
  {
  }

  /** An unknown callback string is answered and changes nothing. */
  lemma UnknownCallbackChangesNothing(s: Session, data: string)
    requires Route(data) == UnknownData && data != ""
    ensures CallbackOutcome(s, Pressed(data)) == Outcome(s, [UnknownAction], [])
  {
  }

  /**
   * `calculate_price`, `book_cleaning` and the two notices keep the data;
   * the first two only move to their step, the notices keep the step too.
   */
  lemma NavigationKeepsData(s: Session, data: string)
    requires data in {"calculate_price", "book_cleaning", "no_slots_available", "no_available_days"}
    ensures CallbackOutcome(s, Pressed(data)).session.draft == s.draft
    ensures data == "calculate_price" ==> CallbackOutcome(s, Pressed(data)).session.step == SelectingCleaningType
    ensures data == "book_cleaning" ==> CallbackOutcome(s, Pressed(data)).session.step == SelectingDate
    ensures data in {"no_slots_available", "no_available_days"} ==> CallbackOutcome(s, Pressed(data)).session == s
  {
  }

  /**
   * Callbacks change only the two types, the date and the time, unless they
   * clear the context: area, address and coordinates are kept.
   */
  lemma CallbackKeepsEnteredData(s: Session, cb: Callback)
    ensures var o := CallbackOutcome(s, cb).session;
      o == Cleared ||
      (o.draft.area == s.draft.area && o.draft.address == s.draft.address &&
       o.draft.addressCalendar == s.draft.addressCalendar &&
       o.draft.latitude == s.draft.latitude && o.draft.longitude == s.draft.longitude)
  {
  }

  /**
   * A type button stores its code unvalidated, whatever it is, and moves on to
   * the next question; the other keys are kept.
   */
  lemma TypeButtonsStoreCode(s: Session, code: string)
    requires ':' !in code
    ensures CallbackOutcome(s, Pressed(CleaningTypePrefix + code)).session ==
      Session(SelectingPropertyType, s.draft.(cleaningType := Some(code)))
    ensures CallbackOutcome(s, Pressed(PropertyTypePrefix + code)).session ==
      Session(EnteringArea, s.draft.(propertyType := Some(code)))
  {
    RouteCleaningTypeButton(code);
    RoutePropertyTypeButton(code);
  }

  /** A date button is taken when its text is an ISO date; otherwise it is only answered. */
  lemma DateButtonAccepted(s: Session, text: string)
    requires ':' !in text
    ensures var o := CallbackOutcome(s, Pressed(DatePrefix + text));
      (FromIsoFormat(text).Some? ==>
         o.session == Session(SelectingTime, s.draft.(selectedDate := Some(text)))) &&
      (FromIsoFormat(text).None? ==> o == Outcome(s, [BadDateFormat], []))
  {
    RouteDateButton(text);
  }

  /**
   * A time button stores the hour part and asks for the address when a date
   * is stored; without a date the context is cleared.
   */
  lemma TimeButtonStoresHour(s: Session, hour: string, minute: string)
    requires Consistent(s) && ':' !in hour
    ensures var o := CallbackOutcome(s, Pressed(TimePrefix + hour + ":" + minute));
      (s.draft.selectedDate.Some? ==>
         o.session == Session(EnteringAddress, s.draft.(selectedTime := Some(hour)))) &&
      (s.draft.selectedDate.None? ==> o == Outcome(Cleared, [DateNotSaved], []))
  {
    RouteTimeDropsMinutes(hour, minute);
  }

  // The handlers, on the conversation's context.

  /** `_handle_calculate_price`. */
  method HandleCalculatePrice(ctx: Context) returns (replies: seq<Reply>)
    modifies ctx
    ensures Outcome(ctx.Snapshot(), replies, []) == ActionOutcome(old(ctx.Snapshot()), CalculatePrice)
  {
    ctx.SetState(SelectingCleaningType);
    replies := [ChooseCleaningType];
  }

  /** `_handle_cleaning_type_selection`. */
  method HandleCleaningTypeSelection(ctx: Context, data: string) returns (replies: seq<Reply>)
    requires ':' in data
    modifies ctx
    ensures Outcome(ctx.Snapshot(), replies, []) ==
      ActionOutcome(old(ctx.Snapshot()), PickCleaningType(SecondField(data, ':')))
  {
    var code := Split(data, ':')[1];
    ctx.UpdateData(ctx.draft.(cleaningType := Some(code)));
    ctx.SetState(SelectingPropertyType);
    replies := [CleaningTypeChosen(CleaningTypeName(code))];
  }

  /** `_handle_property_type_selection`. */
  method HandlePropertyTypeSelection(ctx: Context, data: string) returns (replies: seq<Reply>)
    requires ':' in data
    modifies ctx
    ensures Outcome(ctx.Snapshot(), replies, []) ==
      ActionOutcome(old(ctx.Snapshot()), PickPropertyType(SecondField(data, ':')))
  {
    var code := Split(data, ':')[1];
    ctx.UpdateData(ctx.draft.(propertyType := Some(code)));
    ctx.SetState(EnteringArea);
    replies := [PropertyTypeChosen(PropertyTypeName(code))];
  }

  /** `_handle_book_cleaning`. */
  method HandleBookCleaning(ctx: Context) returns (replies: seq<Reply>)
    modifies ctx
    ensures Outcome(ctx.Snapshot(), replies, []) == ActionOutcome(old(ctx.Snapshot()), BookCleaning)
  {
    ctx.SetState(SelectingDate);
    replies := [ChooseDate];
  }

  /** `_handle_date_selection`: its own `ValueError` is caught and only answered. */
  method HandleDateSelection(ctx: Context, data: string) returns (replies: seq<Reply>)
    requires ':' in data
    modifies ctx
    ensures Outcome(ctx.Snapshot(), replies, []) ==
      ActionOutcome(old(ctx.Snapshot()), PickDate(SecondField(data, ':')))
  {
    var text := Split(data, ':')[1];
    var parsed := FromIsoFormat(text);
    if parsed.None? {
      replies := [BadDateFormat];
      return;
    }
    ctx.UpdateData(ctx.draft.(selectedDate := Some(text)));
    var dateLabel := FormatDateUkrainian(parsed.value);
    ctx.SetState(SelectingTime);
    replies := [DateChosen(dateLabel)];
  }

  /**
   * `_handle_time_selection`. `failed` reports the `ValueError` of a stored
   * date that does not parse, which this handler does not catch.
   */
  method HandleTimeSelection(ctx: Context, data: string) returns (replies: seq<Reply>, failed: bool)
    requires ':' in data
    modifies ctx
    ensures failed <==> Truthy(old(ctx.draft).selectedDate) &&
                        FromIsoFormat(old(ctx.draft).selectedDate.value).None?
    ensures !failed ==>
      Outcome(ctx.Snapshot(), replies, []) == ActionOutcome(old(ctx.Snapshot()), PickTime(SecondField(data, ':')))
  {
    var text := Split(data, ':')[1];
    ctx.UpdateData(ctx.draft.(selectedTime := Some(text)));
    var stored := ctx.draft.selectedDate;
    if !Truthy(stored) {
      ctx.Clear();
      return [DateNotSaved], false;
    }
    var parsed := FromIsoFormat(stored.value);
    if parsed.None? {
      return [], true;
    }
    var dateLabel := FormatDateUkrainian(parsed.value);
    ctx.SetState(EnteringAddress);
    replies, failed := [TimeChosen(dateLabel, text)], false;
  }

  /** `callback_handler`: the guards, the dispatch, and the outer `except` that clears. */
  method CallbackHandler(ctx: Context, cb: Callback) returns (replies: seq<Reply>)
    modifies ctx
    ensures Outcome(ctx.Snapshot(), replies, []) == CallbackOutcome(old(ctx.Snapshot()), cb)
  {
    if !cb.hasUser || !Truthy(cb.data) || !cb.hasMessage {
      return [];
    }
    var data := cb.data.value;
    PrefixLetters(data);
    if data == "calculate_price" {
      replies := HandleCalculatePrice(ctx);
    } else if CleaningTypePrefix <= data {
      replies := HandleCleaningTypeSelection(ctx, data);
    } else if PropertyTypePrefix <= data {
      replies := HandlePropertyTypeSelection(ctx, data);
    } else if data == "book_cleaning" {
      replies := HandleBookCleaning(ctx);
    } else if DatePrefix <= data {
      replies := HandleDateSelection(ctx, data);
    } else if TimePrefix <= data {
      var failed;
      replies, failed := HandleTimeSelection(ctx, data);
      if failed {
        ctx.Clear();
        replies := [Failure];
      }
    } else if data == "no_slots_available" {
      replies := [NoSlotsOnDate];
    } else if data == "no_available_days" {
      replies := [NoAvailableDays];
    } else {
      replies := [UnknownAction];
    }
  }
}
