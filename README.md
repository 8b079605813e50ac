# Cleaning-booking bot: a verified model

This project models the core of a Telegram bot that quotes and books home
cleanings, and proves what that core promises. It has three parts.

- The pure rules:
  - the price of a cleaning (`services/pricing.py`);
  - the validation of the bot token and the owner id (`config.py`);
  - the Ukrainian date label (`services/date_utils.py`).
- The two loops:
  - the walk over the next working days (`services/date_utils.py`);
  - the generation of free time slots for a day (`services/calendar_service.py`).
- The per-conversation booking state machine (`handlers/callbacks.py`,
  `handlers/cleaning.py`, with `handlers/start.py` and the handler
  registration of `main.py`).

Each handler is a method that takes the `Context`, a class standing for
the FSM context, whose fields are the step and the stored data. It changes
those fields in place through the class's `SetState`, `UpdateData` and
`Clear`.
Its `ensures` ties the new state, the replies and the side effects to a
function on values. The lemmas about those functions state the behaviour:

- which button leads where;
- what each input stores;
- when the conversation is cleared;
- what the booking summary, the calendar event and the owner notification
  contain.

Modules, one per file:

| file | module | models |
|---|---|---|
| `wrappers.dfy` | `Wrappers` | `Option`, `Result` |
| `text.dfy` | `Text` | `str.strip`, `isdigit`, `split`, `join`, `int()`, `str()` |
| `datetime.dfy` | `Datetime` | `date`, `weekday`, `fromisoformat`, `time`, `timedelta(hours=…)` |
| `config.dfy` | `Config` | `config.py` |
| `pricing.dfy` | `Pricing` | `services/pricing.py` |
| `date_utils.dfy` | `DateUtils` | `services/date_utils.py` |
| `slots.dfy` | `Slots` | `generate_available_time_slots` |
| `fsm.dfy` | `Fsm` | the states, the stored data, the replies, the `Context` class |
| `callbacks.dfy` | `Callbacks` | `handlers/callbacks.py` |
| `cleaning.dfy` | `Cleaning` | `handlers/cleaning.py` |
| `bot.dfy` | `Bot` | `handlers/start.py`, the dispatcher of `main.py` |

Replies are recorded as constructors that carry the values they show, not
as the Ukrainian template text. The summary, the event description and the
notification are lists of `Detail` lines. The event title is an actual
string.

### Where the code and its description differ

The model follows the code in each of these cases.

- `calculate_cleaning_price` is described as having no failure modes. The
  code raises `KeyError` on an unknown cleaning or property type. The model
  returns `Err(UnknownCleaningType)` or `Err(UnknownPropertyType)`. The
  area handler catches that error and clears the conversation.
- A booking is described as using an offered day and slot. The handlers
  store whatever date and time the button carries. They never re-check
  working days or calendar availability. The model does the same.
- The busy check of `generate_available_time_slots` builds
  `time(slot.hour + interval, …)`. That raises once the hour reaches 24.
  This is an `Err(HourOutOfRange)` result of `Slots.Collides`, not a
  precondition. `Slots.DefaultsNeverFail` shows that the configured hours
  never reach it.
- `select_time:10:30` stores `"10"`, because only the text between the
  first and the second `:` is kept. The booked event starts at 10:00
  (`Callbacks.RouteTimeDropsMinutes`). The time keyboard is not in the
  repository, so it is unknown whether it ever offers a minute other than
  `00`. This is kept as written.
- `states.py` declares only the first three steps. The handlers also use
  `selecting_date`, `selecting_time` and `entering_address`. The model has
  all six, as the handlers use them.

## Model

| member | source | states |
|---|---|---|
| Pricing.BasePricePerM2 | services/pricing.py:34-38 | a base price exists exactly for maintenance, deep and post_renovation, and it is positive |
| Pricing.PropertyMultiplier | services/pricing.py:41-44 | a multiplier exists exactly for apartment and house, and it is at least 1 |
| Pricing.AreaTier | services/pricing.py:47-58 | the discount is one of 0, 5, 10 or 15 percent, the multiplier is 1 − percent/100, the discount is 0% exactly up to 50 m², 5% exactly on (50, 100], 10% exactly on (100, 150] and 15% exactly above 150 m² |
| Pricing.AreaTierMonotone | services/pricing.py:47-58 | a larger area never gets a smaller discount |
| Pricing.CalculateCleaningPrice | services/pricing.py:61-73 | an unknown cleaning type is the error, and otherwise an unknown property type; on success the quote has base × area × multiplier before the discount, the tier's percent, final = before × (1 − percent/100), and discount + final = before |
| Pricing.DiscountBounded | services/pricing.py:67-73 | for a non-negative area, 0 ≤ final ≤ before and the discount is not negative |
| Pricing.PriceBeforeDiscountMonotone | services/pricing.py:67 | the price before the discount grows with the area |
| Pricing.TierBoundaryLowersPrice | services/pricing.py:47-70 | crossing 50 m² lowers the final price: 2500 for 50 m², 2422.5 for 51 m² |
| Pricing.ExampleDeepApartment50 | services/pricing.py:34-83 | deep cleaning of 50 m² in an apartment costs 4000 with no discount |
| Pricing.ExamplePostRenovationHouse200 | services/pricing.py:34-83 | post-renovation cleaning of 200 m² in a house is 31200 before a 15% discount and 26520 after it |
| Pricing.ExampleDeepApartment60 | services/pricing.py:34-83 | deep cleaning of 60 m² in an apartment gets 5% off and costs 4560 |
| Pricing.TierBoundaries | services/pricing.py:47-58 | the tier bounds 50, 100 and 150 are inclusive, and just above each the next tier starts |
| Config.WorkingHours | config.py:101-105 | work starts at 08:00, ends at 18:00, and the start is before the end |
| Config.GetBotToken | config.py:37-77 | unset or empty is `NotSet`; blank after strip is `Empty`; the token is accepted exactly when the stripped text has a non-empty run of digits before its first `:` and something after it; the accepted value is the stripped text |
| Config.GetBotTokenIdempotent | config.py:55-77 | validating an accepted token again gives the same token |
| Config.GetBotTokenAccepts | config.py:62-77 | digits, a colon and a non-empty secret are accepted unchanged |
| Config.GetBotTokenShape | config.py:62-75 | an accepted token has a colon with digits before it and text after it |
| Config.GetOwnerTelegramId | config.py:80-97 | the owner id is present exactly when the value is set and `int()` accepts it, and it is that integer |
| Config.GetOwnerTelegramIdRoundTrip | config.py:89-97 | `str(n)` reads back as the owner id `n` |
| Text.ParseIntRoundTrip | config.py:89-97 | `int(str(n)) == n` |
| Text.JoinOfThree | handlers/cleaning.py:446 | three parts joined have the separator between each pair |
| Text.JoinSplit | handlers/cleaning.py:408 | joining the parts of a split gives back the string |
| Datetime.FromIsoFormat | handlers/callbacks.py:155-158 | a parsed date is a valid date with a year from 1 to 9999 |
| Datetime.IsoRoundTrip | handlers/callbacks.py:155-158 | `fromisoformat(isoformat(d)) == d` for a valid date |
| Datetime.WeekdayOfNextDay | services/date_utils.py:41-53 | the next day's weekday is the next weekday, modulo 7 |
| Datetime.AddHours | handlers/cleaning.py:415 | adding hours gives a valid date and time exactly that many hours later |
| Datetime.MakeTime | handlers/cleaning.py:409-414 | `time(hour, minute)` exists exactly for hour < 24 and minute < 60, with those fields |
| DateUtils.MonthNumberOfName | services/date_utils.py:79-86 | the month table is total over 1–12, and each name gives back its month |
| DateUtils.FormatDateUkrainian | services/date_utils.py:58-88 | the label starts with the weekday name and a comma, and ends with the year |
| DateUtils.LabelSplit | services/date_utils.py:85-88 | the label is the weekday name, a comma, then the day, the genitive month name and the year |
| DateUtils.FormatDateInjective | services/date_utils.py:58-88 | two valid dates with the same label are the same date |
| DateUtils.WorkingDaysFrom | services/date_utils.py:41-53 | the reference list has exactly `count` days, each a working day not before the start |
| DateUtils.WorkingDaysFirst | services/date_utils.py:38-43 | the first day is the start, pushed past a weekend |
| DateUtils.WorkingDaysStep | services/date_utils.py:41-53 | each next day is the next day, or the Monday after a Friday |
| DateUtils.WorkingDaysIncreasing | services/date_utils.py:41-53 | the days are strictly increasing |
| DateUtils.WorkingDaysComplete | services/date_utils.py:41-53 | every working day up to the last one listed is listed |
| DateUtils.GetNextWorkingDays | services/date_utils.py:35-55 | the loop returns `count` entries, or none for `count ≤ 0`; they are the first working days after `today`, each labelled by `format_date_ukrainian` |
| DateUtils.CollectedWorkingDays | services/date_utils.py:36-43 | every returned day is Monday to Friday and after `today`; the first one is tomorrow, pushed past a weekend |
| DateUtils.CollectedIncreasing | services/date_utils.py:41-53 | the returned days are strictly increasing |
| DateUtils.CollectedComplete | services/date_utils.py:41-53 | no working day between tomorrow and the last returned day is skipped |
| Slots.Candidates | services/calendar_service.py:214-224 | the candidates start at the work start, are all before the work end and no earlier than the start, and the list is empty exactly when the start is not before the end |
| Slots.CandidatesStep | services/calendar_service.py:218-224 | each next candidate is `interval` hours later with the minute kept; the list stops when the hour would reach 24 or the end |
| Slots.CandidatesIncreasing | services/calendar_service.py:214-224 | the candidates are strictly increasing |
| Slots.DefaultCandidates | services/calendar_service.py:214-224 | with the configured hours the candidates are 08:00, 10:00, 12:00, 14:00 and 16:00 |
| Slots.Collides | services/calendar_service.py:242-243 | the busy test raises exactly when the first test fails, the second reaches `time(…)`, and the hour reaches 24 |
| Slots.CollidesIsOverlap | services/calendar_service.py:239-244 | for a proper busy period the test is half-open overlap of `[slot, slot+interval)` and `[start, end)`; for an empty one it is `slot ≤ start < slot+interval` |
| Slots.SlotEndAfterStart | services/calendar_service.py:243 | a slot ends after it starts |
| Slots.ScanFree | services/calendar_service.py:235-248 | the inner loop finds no collision exactly when no busy period collides |
| Slots.FilterKeepsFree | services/calendar_service.py:233-250 | a slot is kept exactly when it is a candidate no busy period collides with; nothing is added |
| Slots.FilterIncreasing | services/calendar_service.py:233-250 | the kept slots stay in increasing order |
| Slots.FilterNoBusy | services/calendar_service.py:231-250 | with no busy periods every candidate is kept |
| Slots.AvailableSlots | services/calendar_service.py:210-250 | a weekend has no slots; an error happens only on a working day whose start is before its end, and then from a negative interval or from the busy test; an interval of 0 or less never offers a slot |
| Slots.NegativeIntervalRaises | services/calendar_service.py:218-224 | a negative interval on a working day with working hours raises `ValueError` |
| Slots.EmptyHoursOfferNothing | services/calendar_service.py:210-228 | hours that end no later than they start offer nothing, whatever the interval |
| Slots.WeekendHasNoSlots | services/calendar_service.py:210-212 | a Saturday or Sunday has no slots, whatever the calendar and the interval |
| Slots.NoCalendarOffersAll | services/calendar_service.py:226-228 | without a calendar service, or with no busy periods, every candidate is offered |
| Slots.OfferedAreFree | services/calendar_service.py:233-250 | the offered slots are exactly the free candidates, in increasing order |
| Slots.DefaultsNeverFail | services/calendar_service.py:202-208 | with the configured hours the generation never raises |
| Slots.LaidOut | services/calendar_service.py:214-224 | a positive interval lays out the candidate list; a negative one raises exactly when the start is before the end, because the first `time(hour, …)` gets a negative hour; otherwise nothing is laid out |
| Slots.LayOutCandidates | services/calendar_service.py:214-224 | the `while` loop gives exactly `LaidOut`: the candidate list, or the `ValueError` of a negative interval |
| Slots.FindCollision | services/calendar_service.py:239-245 | the inner `for` loop with `break` gives the scan's answer |
| Slots.KeepAvailable | services/calendar_service.py:234-248 | the outer `for` loop gives exactly the filtered list |
| Slots.GenerateAvailableTimeSlots | services/calendar_service.py:181-250 | the method fills in the configured defaults, then returns what `AvailableSlots` specifies; the one input it excludes is an interval of 0 on a working day whose start is before its end, where the loop never ends |
| Fsm.CleaningTypeName | handlers/callbacks.py:99-106 | the display name differs from the code exactly when the code is a priced cleaning type |
| Fsm.PropertyTypeName | handlers/callbacks.py:123-129 | the display name differs from the code exactly when the code is a priced property type |
| Fsm.CleaningTypeNamesDistinct | handlers/cleaning.py:296-300 | the three cleaning types have three different names |
| Fsm.ClearedConsistent | handlers/start.py:49 | a cleared conversation is consistent |
| Fsm.Context.SetState | handlers/callbacks.py:81 | `set_state` changes the step and keeps the data |
| Fsm.Context.UpdateData | handlers/callbacks.py:96 | `update_data` changes the data and keeps the step |
| Fsm.Context.Clear | handlers/cleaning.py:373 | `clear` leaves no step and no data |
| Callbacks.PrefixLetters | handlers/callbacks.py:48-63 | the letters that tell the callback prefixes apart |
| Callbacks.Route | handlers/callbacks.py:48-66 | each action is chosen exactly when its own test of the string holds, and a prefixed action carries `split(':')[1]` |
| Callbacks.RouteCleaningTypeButton | handlers/callbacks.py:50-95 | `cleaning_type:X` selects X |
| Callbacks.RoutePropertyTypeButton | handlers/callbacks.py:52-119 | `property_type:X` selects X |
| Callbacks.RouteDateButton | handlers/callbacks.py:56-155 | `select_date:D` selects D |
| Callbacks.RouteTimeDropsMinutes | handlers/callbacks.py:58-184 | `select_time:H:M` selects only H |
| Callbacks.RouteTenOClock | handlers/callbacks.py:184 | `select_time:10:00` selects "10" |
| Callbacks.ActionOutcome | handlers/callbacks.py:74-234 | every action gets exactly one reply and no side effect, and either clears the conversation or keeps its area and address |
| Callbacks.CallbackOutcome | handlers/callbacks.py:30-66 | a callback without user, data or message changes nothing and says nothing; any other one gets exactly one reply; no callback has side effects |
| Callbacks.ActionKeepsConsistent | handlers/callbacks.py:74-234 | every action keeps a conversation consistent |
| Callbacks.CallbackKeepsConsistent | handlers/callbacks.py:48-71 | every callback keeps a conversation consistent |
| Callbacks.CallbackNeverFails | handlers/callbacks.py:68-71 | from a consistent conversation no callback ends in the generic error |
| Callbacks.CallbackIgnoresStep | handlers/callbacks.py:48-63 | the step never decides a callback's replies or data |
| Callbacks.UnknownCallbackChangesNothing | handlers/callbacks.py:64-66 | an unknown string is answered "unknown action" and changes nothing |
| Callbacks.NavigationKeepsData | handlers/callbacks.py:81-234 | `calculate_price` and `book_cleaning` only set their steps; the two notices change nothing |
| Callbacks.CallbackKeepsEnteredData | handlers/callbacks.py:74-210 | a callback either clears the conversation or keeps the area, the addresses and the coordinates |
| Callbacks.TypeButtonsStoreCode | handlers/callbacks.py:95-121 | a type button stores its code unvalidated and moves to the next step, the other keys kept |
| Callbacks.DateButtonAccepted | handlers/callbacks.py:155-174 | an ISO date is stored and moves to time selection; anything else is answered and changes nothing |
| Callbacks.TimeButtonStoresHour | handlers/callbacks.py:184-200 | the hour is stored and the address is asked for when a date is stored; without one the conversation is cleared |
| Callbacks.HandleCalculatePrice | handlers/callbacks.py:74-85 | the method's new context and replies match the action's outcome |
| Callbacks.HandleCleaningTypeSelection | handlers/callbacks.py:88-109 | the method's new context and replies match the action's outcome |
| Callbacks.HandlePropertyTypeSelection | handlers/callbacks.py:112-131 | the method's new context and replies match the action's outcome |
| Callbacks.HandleBookCleaning | handlers/callbacks.py:134-145 | the method's new context and replies match the action's outcome |
| Callbacks.HandleDateSelection | handlers/callbacks.py:148-174 | the method's new context and replies match the action's outcome |
| Callbacks.HandleTimeSelection | handlers/callbacks.py:177-210 | the method raises exactly when the stored date is set but does not parse; otherwise its context and replies match the action's outcome |
| Callbacks.CallbackHandler | handlers/callbacks.py:23-71 | the method's new context and replies match `CallbackOutcome`, with a raised error caught and the context cleared |
| Cleaning.Find | handlers/cleaning.py:314-331 | a lookup used by the summary lemmas, not a step of the handler: a line it finds for a field is in the list and is that field's line |
| Cleaning.ServiceLinesThenListSetFields | handlers/cleaning.py:316-323 | the type, property and area lines are in that order, and each is there exactly when its field is set |
| Cleaning.SummaryListsSetFields | handlers/cleaning.py:314-331 | the summary lists only the fields that are set, in the order type, property, area, date, time, each at most once, and always ends with the address |
| Cleaning.Description | handlers/cleaning.py:419-447 | the description has 2 to 5 lines and always ends with the client and the Telegram id |
| Cleaning.DescriptionListsSetFields | handlers/cleaning.py:419-447 | the event description lists the service fields that are set, in order, then the client and the Telegram id |
| Cleaning.TitleParts | handlers/cleaning.py:418 | the title always starts with "Прибирання" |
| Cleaning.TitleShape | handlers/cleaning.py:418-446 | the title is "Прибирання" plus the type name, with the property name in parentheses only after a type |
| Cleaning.EventOfServiceFields | handlers/cleaning.py:418-447 | the title and the description depend only on the type, the property and the area |
| Cleaning.TitleExample | handlers/cleaning.py:418-446 | deep cleaning of an apartment is titled "Прибирання Генеральне (Квартира)" |
| Cleaning.EventTime | handlers/cleaning.py:408-414 | a parsed start time is valid, on the hour's minute 0 seconds, with `int` of the first part as hour and of the second part, or 0, as minute |
| Cleaning.PaddedParses | handlers/cleaning.py:408-410 | a two-digit number reads back as itself and splits into one part |
| Cleaning.EventTimeOfHour | handlers/cleaning.py:408-414 | "HH" starts at HH:00 |
| Cleaning.EventTimeOfParts | handlers/cleaning.py:408-414 | "H:M" of two numbers starts at H:M |
| Cleaning.EventTimeOfHourMinute | handlers/cleaning.py:408-414 | "HH:MM" starts at HH:MM |
| Cleaning.CalendarEvent | handlers/cleaning.py:413-462 | the event starts at the given time, ends `CALENDAR_CLEANING_DURATION_HOURS` later, and is placed at the given location in the configured timezone |
| Cleaning.Events | handlers/cleaning.py:400-446 | an event is submitted exactly when a date and a time are stored and the time parses, and then at that date and time |
| Cleaning.ClientDisplay | handlers/cleaning.py:518 | the owner sees `@username`, or `ID: <id>` without a username |
| Cleaning.Notifications | handlers/cleaning.py:507-552 | the owner is told nothing exactly when no owner id is set (or it is 0); otherwise one message with the client, the id and the summary lines |
| Cleaning.CalendarAddress | handlers/cleaning.py:293 | the calendar gets `address_calendar` when it is set, else the shown address |
| Cleaning.BookingOutcome | handlers/cleaning.py:263-373 | the booking clears the conversation or leaves it as it was; it says nothing exactly when an address is stored and the stored date raises, and then changes nothing; side effects happen only after the summary is confirmed and the conversation is cleared, at most the event and the notification |
| Cleaning.BookingClears | handlers/cleaning.py:284-373 | from a consistent conversation a booking always clears it; without an address it re-shows the menu, otherwise it confirms with the summary lines |
| Cleaning.AreaOutcome | handlers/cleaning.py:79-186 | no side effects; one or two replies, two only when the conversation is cleared with an error and the menu; otherwise the step is kept and at most the area changes, to a positive value |
| Cleaning.AreaRejectsBadInput | handlers/cleaning.py:88-180 | missing, unparsable or non-positive area text is answered once and changes nothing |
| Cleaning.AreaQuotes | handlers/cleaning.py:100-169 | a valid area with both types priced is stored, the step is kept, and the quote is shown, with a discount part exactly above 50 m² |
| Cleaning.AreaClearsOnMissingData | handlers/cleaning.py:106-186 | a valid area with a type missing or unknown clears the conversation and shows the menu |
| Cleaning.AddressOutcome | handlers/cleaning.py:229-260 | every address message is answered; the address is saved exactly when the stripped text has at least 5 characters; a rejected one changes nothing; side effects only with the conversation cleared |
| Cleaning.AddressAccepted | handlers/cleaning.py:246-260 | an accepted address is stored as both addresses before the booking runs |
| Cleaning.ShortAddressRejected | handlers/cleaning.py:236-244 | a missing address, or one shorter than 5 characters after strip, is answered and changes nothing |
| Cleaning.AddressCompletesBooking | handlers/cleaning.py:246-373 | an accepted address is stored as both addresses and completes the booking: confirmed, submitted there, then cleared |
| Cleaning.LocationInputOutcome | handlers/cleaning.py:189-226 | every call is answered; the location reply comes exactly when a location came, and without one only the error reply; side effects only with the conversation cleared |
| Cleaning.LocationAccepted | handlers/cleaning.py:200-226 | a location is stored as the shown address, the bare coordinates and the two numbers before the booking runs |
| Cleaning.LocationCompletesBooking | handlers/cleaning.py:196-373 | a shared location completes the booking, and the event is placed at the bare coordinates |
| Cleaning.TextOutcome | handlers/cleaning.py:57-76 | commands and locations are skipped; outside the area and address steps the menu is shown; side effects only with the conversation cleared, at most two; a message with no reply changes nothing |
| Cleaning.LocationOutcome | handlers/cleaning.py:34-44 | a message without a location is skipped; a location outside the address step is answered and changes nothing; side effects only with the conversation cleared, at most two; no reply means nothing changed |
| Cleaning.AreaKeepsConsistent | handlers/cleaning.py:79-186 | the area step keeps a conversation consistent |
| Cleaning.AddressKeepsConsistent | handlers/cleaning.py:229-260 | the address step keeps a conversation consistent |
| Cleaning.TextKeepsConsistent | handlers/cleaning.py:47-76 | every text message keeps a conversation consistent |
| Cleaning.LocationKeepsConsistent | handlers/cleaning.py:27-44 | every location message keeps a conversation consistent |
| Cleaning.MessagesNeverRaise | handlers/cleaning.py:47-76 | from a consistent conversation every text message that is not skipped gets a reply |
| Cleaning.AppendIf | handlers/cleaning.py:316-317 | a conditional append adds exactly the one line when its field is set, and nothing otherwise |
| Cleaning.BuildSummary | handlers/cleaning.py:313-331 | the appends give exactly the booking lines |
| Cleaning.BuildTitle | handlers/cleaning.py:418-446 | the appends and the join give exactly the title |
| Cleaning.BuildDescription | handlers/cleaning.py:419-443 | the appends give exactly the description lines |
| Cleaning.ParseEventTime | handlers/cleaning.py:408-414 | the split and the two `int`s give exactly the event's start time |
| Cleaning.CreateCalendarEvent | handlers/cleaning.py:376-476 | the method submits exactly the specified events |
| Cleaning.NotifyOwnerOfBooking | handlers/cleaning.py:479-552 | the method sends exactly the specified notification |
| Cleaning.CompleteBooking | handlers/cleaning.py:263-373 | the method's context, replies and effects match `BookingOutcome` |
| Cleaning.ProcessAreaInput | handlers/cleaning.py:79-186 | the method's context and replies match the area outcome |
| Cleaning.ProcessAddressInput | handlers/cleaning.py:229-260 | the method's context, replies and effects match the address outcome |
| Cleaning.ProcessLocationInput | handlers/cleaning.py:189-226 | the method's context, replies and effects match the location outcome |
| Cleaning.TextMessageHandler | handlers/cleaning.py:47-76 | the method's context, replies and effects match `TextOutcome` |
| Cleaning.LocationMessageHandler | handlers/cleaning.py:27-44 | the method's context, replies and effects match `LocationOutcome` |
| Bot.TakeWord | main.py:53 | the first word is a prefix without whitespace, ended by whitespace or the end of the text |
| Bot.IsStartCommand | main.py:53 | a start command begins with `/` after leading whitespace |
| Bot.StartCommandPlain | main.py:53 | `/start` is the start command |
| Bot.StartCommandWithArgument | main.py:53 | `/start now` is the start command |
| Bot.StartedIsNoStartCommand | main.py:53 | `/started` is not the start command |
| Bot.StartOutcome | handlers/start.py:37-50 | `/start` clears the conversation |
| Bot.UpdateOutcomeAsWritten | main.py:53-55 | the dispatcher as registered: callbacks have no side effects; side effects come only with the conversation cleared, at most two; an update with no reply changes nothing |
| Bot.LocationUnansweredAsWritten | main.py:53-55 | as registered, a shared location is never answered, even while an address is expected |
| Bot.LocationCompletesBookingWhenRegistered | handlers/cleaning.py:27-44 | with the location handler registered, a location while an address is expected completes the booking |
| Bot.UpdateOutcome | handlers/cleaning.py:27-76 | the corrected dispatcher, with `location_message_handler` registered: the same three guarantees as the one registered |
| Bot.DispatchersAgreeWithoutLocation | main.py:53-55 | the two dispatchers differ only on messages with a location |
| Bot.UpdateAsWrittenKeepsConsistent | main.py:53-55 | as registered, every update keeps a conversation consistent |
| Bot.UpdateKeepsConsistent | handlers/cleaning.py:27-76 | with the corrected dispatcher, every update keeps a conversation consistent |
| Bot.StartAlwaysClears | handlers/start.py:49-50 | a `/start` message clears whatever the conversation held and shows the menu |
| Bot.Run | handlers/cleaning.py:27-76 | a run of updates through the corrected dispatcher has at most two side effects per update, and a run that gets no reply changes nothing |
| Bot.RunKeepsConsistent | handlers/cleaning.py:27-76 | with the corrected dispatcher, any run of updates from a consistent conversation stays consistent |
| Bot.StartAndChooseTypes | handlers/callbacks.py:74-121 | `/start`, "calculate price" and any two type buttons lead to the area question with both codes stored and nothing else |
| Bot.CleaningTypeStep | handlers/callbacks.py:88-109 | a cleaning type button, from any conversation, stores the code and asks for the property type |
| Bot.PropertyTypeStep | handlers/callbacks.py:112-131 | a property type button, from any conversation, stores the code and asks for the area |
| Bot.SixtySquareMetresQuoted | handlers/cleaning.py:79-169 | answering "60" then quotes 4560 with 5% off 4800, and the area is stored |
| Bot.HourEvent | handlers/cleaning.py:400-415 | a stored hour text without minutes gives one event at that full hour on the stored date |
| Bot.AddressBooksAtHour | handlers/cleaning.py:229-373 | with a date and an hour stored and no owner id, an address submits exactly one event at that hour and place and clears the conversation |
| Bot.BookingScenario | handlers/callbacks.py:134-210 | booking, picking a date, pressing `select_time:H:M`, then giving an address submits one event from H:00 to two hours later that day at that address, titled from the stored types, and clears the conversation; the minutes are dropped |
| Bot.StartCommandHandler | handlers/start.py:37-50 | the method clears the context and shows the menu |
| Bot.DispatchAsWritten | main.py:53-55 | the method dispatches as registered: the start command, every other message to the text handler, callbacks to the callback handler |
| Bot.Dispatch | handlers/cleaning.py:27-76 | the corrected dispatcher of the finding: the method also sends location messages to `location_message_handler` |

## Findings

| source | as written | input that shows it | evidently intended | confidence | as-written member | corrected member |
|---|---|---|---|---|---|---|
| main.py:53-55 | only the start, text and callback handlers are registered; `location_message_handler` is defined and exported but never registered, and the text handler skips location messages | a location shared while the bot asks for the address: no reply, the booking never completes | register `location_message_handler` for location messages, which the skip in `text_message_handler` ("handled separately") expects | not executed; high | Bot.LocationUnansweredAsWritten | Bot.LocationCompletesBookingWhenRegistered |

`Bot.UpdateOutcomeAsWritten` and `Bot.DispatchAsWritten` are the dispatcher
as registered. `Bot.UpdateOutcome` and `Bot.Dispatch` also send location
messages to the location handler. `Bot.Run` and the scenario lemmas use the
corrected dispatcher. Consistency holds for both dispatchers
(`Bot.UpdateAsWrittenKeepsConsistent`, `Bot.UpdateKeepsConsistent`).

## Left out

- Google Calendar:
  - credentials, the service-account and OAuth flows, the free/busy query
    and the event insertion are network calls;
  - the busy periods are an input (`Option<seq<Busy>>`, with `None`
    meaning no calendar service);
  - a submitted event is an `Effect` value;
  - a failed query is the same as no busy periods.
- Telegram I/O:
  - sending messages, keyboards and `ReplyKeyboardRemove`;
  - the reply texts are constructors, not templates;
  - a failing send is not modelled.
- Time zones: `ZoneInfo(CALENDAR_TIMEZONE)` and `datetime.combine` are not
  modelled. Start and end are wall-clock date-times, and the timezone name
  is carried along.
- Floats:
  - `float()` of the area text is the parameter `parseFloat`;
  - the `:.6f` renderings of the coordinates are given as text fields of
    `Location`;
  - NaN and infinities are not modelled;
  - prices are exact reals.
- `Pricing.CalculateCleaningPrice`: the final `round(…, 2)` is not
  applied. The quote is the exact value before rounding.
- `date.today()` is the parameter `today` of `DateUtils.GetNextWorkingDays`.
- `Datetime.FromIsoFormat`:
  - accepts only `YYYY-MM-DD`, the one format every Python 3 version
    accepts;
  - the extra formats of Python 3.11 and later are not modelled;
  - adding one day past 9999-12-31 does not raise `OverflowError` (in
    `DateUtils.GetNextWorkingDays`).
- Text:
  - `str.isdigit` and `int()` are restricted to ASCII digits;
  - `int()` accepting `_` separators is not modelled;
  - `str.strip` and `str.split()` use Python's whitespace set.
- `Slots.GenerateAvailableTimeSlots`: with an interval of 0, on a working
  day whose start is before its end, the Python loop runs forever. That one
  input is excluded by a precondition. On a weekend, or with empty hours, an
  interval of 0 returns `[]`. A negative interval raises `ValueError` from
  `time()`, which is `Err(HourOutOfRange)`.
- Missing keyboard functions: `get_date_selection_keyboard`,
  `get_time_selection_keyboard` and `get_location_keyboard` are imported by
  handlers/callbacks.py but are not defined in keyboards/cleaning.py. The
  resulting import failure is not modelled, and the buttons are taken as
  whatever callback strings arrive. The search for available days that those
  keyboards would run is not part of this model.
- Concurrency: `MemoryStorage` and the async dispatch are not modelled. The
  model covers one conversation's context at a time.
- Messages are taken to have a sender, as the handlers assume when they
  read `message.from_user.id`.
- `Bot.IsStartCommand`:
  - the bot's username is compared exactly, not ignoring case;
  - captions are not read.
- Logging is not modelled.
