/**
 * The per-conversation context the handlers share (aiogram's `FSMContext`):
 * the current step of the booking flow, the data stored so far, and the
 * replies and side effects a handler produces.
 */
module Fsm {
  import opened Wrappers
  import opened Datetime
  import Pricing

  /**
   * The states of `CleaningCalculationStates`, with `Idle` for "no state".
   * The steps from `SelectingDate` on are used by the handlers although
   * `states.py` does not declare them; they are modelled as intended.
   */
  datatype Step =
    | Idle
    | SelectingCleaningType
    | SelectingPropertyType
    | EnteringArea
    | SelectingDate
    | SelectingTime
    | EnteringAddress

  /** The keys the handlers store with `update_data`; a key never stored is `None`. */
  datatype Draft = Draft(
    cleaningType: Option<string>,
    propertyType: Option<string>,
    area: Option<real>,
    selectedDate: Option<string>,
    selectedTime: Option<string>,
    address: Option<string>,
    addressCalendar: Option<string>,
    latitude: Option<real>,
    longitude: Option<real>)

  const EmptyDraft: Draft := Draft(None, None, None, None, None, None, None, None, None)

  /** One conversation: its step and its data. */
  datatype Session = Session(step: Step, draft: Draft)

  /** What `state.clear()` leaves behind. */
  const Cleared: Session := Session(Idle, EmptyDraft)

  /**
   * What the handlers keep true of a conversation: a stored date parses,
   * a stored area is positive, and the steps after a date or a time has
   * been chosen come with that choice stored.
   */
  predicate Consistent(s: Session) {
    && (s.draft.selectedDate.Some? ==> FromIsoFormat(s.draft.selectedDate.value).Some?)
    && (s.draft.area.Some? ==> s.draft.area.value > 0.0)
    && (s.step == SelectingTime ==> s.draft.selectedDate.Some?)
    && (s.step == EnteringAddress ==> s.draft.selectedDate.Some? && s.draft.selectedTime.Some?)
  }

  lemma ClearedConsistent()
    ensures Consistent(Cleared)
  {
  }

  /** Python truthiness of an optional string: present and not empty. */
  predicate Truthy(o: Option<string>) {
    o.Some? && o.value != ""
  }

  /** Python truthiness of an optional float: present and not zero. */
  predicate TruthyReal(o: Option<real>) {
    o.Some? && o.value != 0.0
  }

  /** `cleaning_type_names.get(code, code)`. */
  function CleaningTypeName(code: string): (name: string)
    ensures name != code <==> Pricing.BasePricePerM2(code).Some?
  {
    if code == "maintenance" then "Підтримуюче"
    else if code == "deep" then "Генеральне"
    else if code == "post_renovation" then "Після ремонту"
    else code
  }

  /** `property_type_names.get(code, code)`. */
  function PropertyTypeName(code: string): (name: string)
    ensures name != code <==> Pricing.PropertyMultiplier(code).Some?
  {
    if code == "apartment" then "Квартира"
    else if code == "house" then "Будинок"
    else code
  }

  /** The names table gives the three priced cleaning types three different names. */
  lemma CleaningTypeNamesDistinct(a: string, b: string)
    requires Pricing.BasePricePerM2(a).Some? && Pricing.BasePricePerM2(b).Some?
    requires CleaningTypeName(a) == CleaningTypeName(b)
    ensures a == b
  {
  }

  /** One line of a booking summary, event description or owner notification. */
  datatype Detail =
    | CleaningTypeLine(name: string)
    | PropertyTypeLine(name: string)
    | AreaLine(area: real)
    | DateLine(dateLabel: string)
    | TimeLine(time: string)
    | AddressLine(address: string)
    | ClientLine(client: string)
    | TelegramIdLine(id: int)

  /** The discount part of a price message, shown only for a positive discount. */
  datatype Discount = Discount(priceBeforeDiscount: real, percent: int, amount: real)

  /** The messages the bot sends back, without their fixed Ukrainian text. */
  datatype Reply =
    | Menu                              // welcome text with the start keyboard
    | ChooseCleaningType                // with the cleaning type keyboard
    | CleaningTypeChosen(name: string)  // with the property type keyboard
    | PropertyTypeChosen(name: string)  // asks for the area
    | ChooseDate                        // with the date keyboard
    | DateChosen(dateLabel: string)     // with the time keyboard
    | BadDateFormat
    | TimeChosen(dateLabel: string, time: string)  // asks for the address
    | DateNotSaved
    | NoSlotsOnDate
    | NoAvailableDays
    | UnknownAction
    | Failure                           // the generic "an error occurred"
    | AreaNotText
    | AreaNotPositive
    | AreaNotANumber
    | DataNotSaved
    | PriceCalculated(cleaningName: string, propertyName: string, area: real,
                      discount: Option<Discount>, finalPrice: real)
    | LocationOutsideAddress
    | LocationMissing
    | LocationReceived(display: string)
    | AddressNotText
    | AddressTooShort
    | AddressSaved
    | AddressNotSaved
    | BookingConfirmed(details: seq<Detail>)

  /** An event handed to `create_calendar_event`. */
  datatype EventRequest = EventRequest(
    title: string,
    description: seq<Detail>,
    start: DateTime,
    end: DateTime,
    timezone: string,
    location: string)

  /** Calls into the outside world a handler makes besides replying. */
  datatype Effect =
    | CreateEvent(event: EventRequest)
    | NotifyOwner(chatId: int, lines: seq<Detail>)

  /** What one update does: the new session, the replies in order, the side effects in order. */
  datatype Outcome = Outcome(session: Session, replies: seq<Reply>, effects: seq<Effect>)

  /** `FSMContext` of one conversation: its state and data, changed in place by the handlers. */
  class Context {
    var step: Step
    var draft: Draft

    /** A conversation that has not started: no state and no data. */
    constructor ()
      ensures step == Idle && draft == EmptyDraft
    {
      step := Idle;
      draft := EmptyDraft;
    }

    /** The state and data as one value. */
    function Snapshot(): Session
      reads this
    {
      Session(step, draft)
    }

    /** `state.set_state(s)`: the data is kept. */
    method SetState(s: Step)
      modifies this
      ensures step == s && draft == old(draft)
    {
      step := s;
    }

    /** `state.update_data(...)`, given the data with the new keys merged in; the state is kept. */
    method UpdateData(d: Draft)
      modifies this
      ensures draft == d && step == old(step)
    {
      draft := d;
    }

    /** `state.clear()`: no state and no data. */
    method Clear()
      modifies this
      ensures Snapshot() == Cleared
    {
      step := Idle;
      draft := EmptyDraft;
    }
  }
}
