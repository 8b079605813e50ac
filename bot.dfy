/**
 * The bot as registered in main.py: a `/start` command clears the
 * conversation and shows the menu (handlers/start.py), every other message
 * goes to the text handler, and every button press to the callback handler.
 */
module Bot {
  import opened Wrappers
  import opened Text
  import opened Datetime
  import opened Pricing
  import opened Fsm
  import opened Callbacks
  import opened Cleaning

  /** One incoming Telegram update. */
  datatype Update =
    | MessageUpdate(message: Message)
    | CallbackUpdate(callback: Callback)

  /**
   * What the handlers take from outside the conversation: `float()` on the
   * stripped area text, the configured owner id, and the bot's username.
   */
  datatype Environment = Environment(parseFloat: string -> Option<real>, ownerId: Option<int>, botUsername: string)

  /** The leading run of non-space characters. */
  function TakeWord(t: string): (w: string)
    ensures w <= t
    ensures forall k :: 0 <= k < |w| ==> !IsSpace(w[k])
    ensures |w| < |t| ==> IsSpace(t[|w|])
  {
    if t == [] || IsSpace(t[0]) then [] else [t[0]] + TakeWord(t[1..])
  }

  /** The first whitespace-separated word, as `text.split(maxsplit=1)[0]` reads it. */
  function FirstWord(text: string): string {
    TakeWord(StripLeft(text))
  }

  /**
   * The `Command("start")` filter: the first word is `/start`, possibly
   * followed by `@` and this bot's username (an empty mention is not checked).
   */
  predicate IsStartCommand(text: string, botUsername: string)
    ensures IsStartCommand(text, botUsername) ==> StripLeft(text) != [] && StripLeft(text)[0] == '/'
  {
    var w := FirstWord(text);
    var matches := w == "/start" || w == "/start@" || w == "/start@" + botUsername;
    assert matches ==> w[0] == '/';
    matches
  }

  /** A word followed by the end of the text or by whitespace is the first word read. */
  lemma {:induction false} TakeWordOfWord(w: string, rest: string)
    requires forall k :: 0 <= k < |w| ==> !IsSpace(w[k])
    requires rest == [] || IsSpace(rest[0])
    ensures TakeWord(w + rest) == w
    decreases |w|
  {
    if w == [] {
      assert w + rest == rest;
    } else {
      assert (w + rest)[1..] == w[1..] + rest;
      TakeWordOfWord(w[1..], rest);
    }
  }

  /** `/start` alone is the start command. */
  lemma StartCommandPlain(botUsername: string)
    ensures IsStartCommand("/start", botUsername)
  {
    TakeWordOfWord("/start", "");
    assert "/start" + "" == "/start";
  }

  /** `/start` followed by an argument is still the start command. */
  lemma StartCommandWithArgument(botUsername: string)
    ensures IsStartCommand("/start now", botUsername)
  {
    TakeWordOfWord("/start", " now");
    assert "/start" + " now" == "/start now";
  }

  /** A longer command that begins with `/start` is not the start command. */
  lemma StartedIsNoStartCommand(botUsername: string)
    ensures !IsStartCommand("/started", botUsername)
  {
    TakeWordOfWord("/started", "");
    assert "/started" + "" == "/started";
  }

  /** `start_command_handler`: the context is cleared and the menu is shown. */
  function StartOutcome(s: Session): (o: Outcome)
    ensures o.session == Cleared && Consistent(o.session)
  {
    Outcome(Cleared, [Menu], [])
  }

  /**
   * The dispatcher exactly as registered: `location_message_handler` is not
   * registered, so a shared location reaches the text handler, which skips it.
   */
  function UpdateOutcomeAsWritten(s: Session, u: Update, env: Environment): (o: Outcome)
    ensures u.CallbackUpdate? ==> o.effects == []
    ensures o.effects != [] ==> o.session == Cleared && |o.effects| <= 2
    ensures o.replies == [] ==> o == Outcome(s, [], [])
  {
    match u
    case CallbackUpdate(cb) => CallbackOutcome(s, cb)
    case MessageUpdate(m) =>
      if m.text.Some? && IsStartCommand(m.text.value, env.botUsername) then StartOutcome(s)
      else TextOutcome(s, m, env.parseFloat, env.ownerId)
  }

  /** As registered, a shared location is never answered, even while an address is expected. */
  lemma LocationUnansweredAsWritten(s: Session, m: Message, env: Environment)
    requires m.location.Some? && m.text.None? && s.step == EnteringAddress
    ensures UpdateOutcomeAsWritten(s, MessageUpdate(m), env) == Outcome(s, [], [])
  {
  }

  /**
   * The dispatcher with `location_message_handler` registered for location
   * messages, as the skip in `text_message_handler` expects.
   */
  function UpdateOutcome(s: Session, u: Update, env: Environment): (o: Outcome)
    ensures u.CallbackUpdate? ==> o.effects == []
    ensures o.effects != [] ==> o.session == Cleared && |o.effects| <= 2
    ensures o.replies == [] ==> o == Outcome(s, [], [])
  {
    match u
    case CallbackUpdate(cb) => CallbackOutcome(s, cb)
    case MessageUpdate(m) =>
      if m.text.Some? && IsStartCommand(m.text.value, env.botUsername) then StartOutcome(s)
      else if m.location.Some? then LocationOutcome(s, m, env.ownerId)
      else TextOutcome(s, m, env.parseFloat, env.ownerId)
  }

  /** With the location handler registered, a location while an address is expected completes the booking. */
  lemma LocationCompletesBookingWhenRegistered(s: Session, m: Message, env: Environment)
    requires Consistent(s) && m.location.Some? && m.text.None? && s.step == EnteringAddress
    ensures UpdateOutcome(s, MessageUpdate(m), env).session == Cleared
    ensures |UpdateOutcome(s, MessageUpdate(m), env).replies| == 2
  {
    LocationCompletesBooking(s, m, env.ownerId);
  }

  /** The two dispatchers differ only on messages that carry a location. */
  lemma DispatchersAgreeWithoutLocation(s: Session, u: Update, env: Environment)
    requires u.MessageUpdate? ==> u.message.location.None?
    ensures UpdateOutcome(s, u, env) == UpdateOutcomeAsWritten(s, u, env)
  {
  }

  /** As registered, every update keeps a conversation consistent too. */
  lemma UpdateAsWrittenKeepsConsistent(s: Session, u: Update, env: Environment)
    requires Consistent(s)
    ensures Consistent(UpdateOutcomeAsWritten(s, u, env).session)
  {
    match u
    case CallbackUpdate(cb) => CallbackKeepsConsistent(s, cb);
    case MessageUpdate(m) => TextKeepsConsistent(s, m, env.parseFloat, env.ownerId);
  }

  /** With the location handler registered, every update keeps a conversation consistent. */
  lemma UpdateKeepsConsistent(s: Session, u: Update, env: Environment)
    requires Consistent(s)
    ensures Consistent(UpdateOutcome(s, u, env).session)
  {
    match u
    case CallbackUpdate(cb) => CallbackKeepsConsistent(s, cb);
    case MessageUpdate(m) =>
      if m.location.Some? {
        LocationKeepsConsistent(s, m, env.ownerId);
      } else {
        TextKeepsConsistent(s, m, env.parseFloat, env.ownerId);
      }
  }

  /** A `/start` message clears the conversation, whatever it held. */
  lemma StartAlwaysClears(s: Session, m: Message, env: Environment)
    requires m.text.Some? && IsStartCommand(m.text.value, env.botUsername)
    ensures UpdateOutcome(s, MessageUpdate(m), env) == Outcome(Cleared, [Menu], [])
  {
  }

  /** `o` followed by `r`: the session `r` ends in, the replies and the effects of both in order. */
  function Then(o: Outcome, r: Outcome): Outcome {
    Outcome(r.session, o.replies + r.replies, o.effects + r.effects)
  }

  /** A run of updates on one conversation: the last session, all replies and all effects in order. */
  function Run(s: Session, us: seq<Update>, env: Environment): (r: Outcome)
    ensures |r.effects| <= 2 * |us|
    ensures r.replies == [] ==> r == Outcome(s, [], [])
    decreases |us|
  {
    if us == [] then Outcome(s, [], [])
    else
      var o := UpdateOutcome(s, us[0], env);
      Then(o, Run(o.session, us[1..], env))
  }

  /** A run that starts consistent stays consistent. */
  lemma {:induction false} RunKeepsConsistent(s: Session, us: seq<Update>, env: Environment)
    requires Consistent(s)
    ensures Consistent(Run(s, us, env).session)
    decreases |us|
  {
    if us != [] {
      UpdateKeepsConsistent(s, us[0], env);
      RunKeepsConsistent(UpdateOutcome(s, us[0], env).session, us[1..], env);
    }
  }

  /** A run is its first update followed by the rest. */
  lemma RunStep(s: Session, u: Update, rest: seq<Update>, env: Environment)
    ensures Run(s, [u] + rest, env) == Then(UpdateOutcome(s, u, env), Run(UpdateOutcome(s, u, env).session, rest, env))
  {
    assert ([u] + rest)[1..] == rest;
  }

  /** A run of four updates whose sessions step through `t0` to `t3` ends in `t3`. */
  lemma RunOfFourEndsIn(s: Session, u0: Update, u1: Update, u2: Update, u3: Update, env: Environment,
                        t0: Session, t1: Session, t2: Session, t3: Session)
    requires UpdateOutcome(s, u0, env).session == t0 && UpdateOutcome(t0, u1, env).session == t1
    requires UpdateOutcome(t1, u2, env).session == t2 && UpdateOutcome(t2, u3, env).session == t3
    ensures Run(s, [u0, u1, u2, u3], env).session == t3
  {
    RunOfFour(s, u0, u1, u2, u3, env);
  }

  /** A run of four updates, one after the other. */
  lemma RunOfFour(s: Session, u0: Update, u1: Update, u2: Update, u3: Update, env: Environment)
    ensures var o0 := UpdateOutcome(s, u0, env);
      var o1 := UpdateOutcome(o0.session, u1, env);
      var o2 := UpdateOutcome(o1.session, u2, env);
      var o3 := UpdateOutcome(o2.session, u3, env);
      Run(s, [u0, u1, u2, u3], env) == Then(o0, Then(o1, Then(o2, Then(o3, Outcome(o3.session, [], [])))))
  {
    var o0 := UpdateOutcome(s, u0, env);
    var o1 := UpdateOutcome(o0.session, u1, env);
    var o2 := UpdateOutcome(o1.session, u2, env);
    RunStep(o2.session, u3, [], env);
    RunStep(o1.session, u2, [u3], env);
    RunStep(o0.session, u1, [u2, u3], env);
    RunStep(s, u0, [u1, u2, u3], env);
    assert [u0] + [u1, u2, u3] == [u0, u1, u2, u3];
    assert [u1] + [u2, u3] == [u1, u2, u3];
    assert [u2] + [u3] == [u2, u3];
    assert [u3] + [] == [u3];
  }

  /** A text message from a user. */
  function Said(text: string, user: User): Update {
    MessageUpdate(Message(Some(text), None, user))
  }

  /** A text whose first character is neither whitespace nor '/' is not a command. */
  lemma PlainTextIsNoCommand(text: string, botUsername: string)
    requires text != [] && text[0] != '/' && !IsSpace(text[0])
    ensures !IsStartCommand(text, botUsername)
  {
  }

  /** `/start` from any conversation. */
  lemma StartStep(s: Session, user: User, env: Environment)
    ensures UpdateOutcome(s, Said("/start", user), env) == Outcome(Cleared, [Menu], [])
  {
    StartCommandPlain(env.botUsername);
    StartAlwaysClears(s, Message(Some("/start"), None, user), env);
  }

  /** A button press goes to the callback handler. */
  lemma ButtonStep(s: Session, data: string, env: Environment)
    ensures UpdateOutcome(s, CallbackUpdate(Pressed(data)), env) == CallbackOutcome(s, Pressed(data))
  {
  }

  /** "Calculate price" from a cleared conversation asks for the cleaning type. */
  lemma CalculatePriceStep(env: Environment)
    ensures UpdateOutcome(Cleared, CallbackUpdate(Pressed("calculate_price")), env).session ==
      Session(SelectingCleaningType, EmptyDraft)
  {
    ButtonStep(Cleared, "calculate_price", env);
    NavigationKeepsData(Cleared, "calculate_price");
  }

  /** Choosing a cleaning type stores it and asks for the property type. */
  lemma CleaningTypeStep(s: Session, code: string, env: Environment)
    requires ':' !in code
    ensures UpdateOutcome(s, CallbackUpdate(Pressed(CleaningTypePrefix + code)), env).session ==
      Session(SelectingPropertyType, s.draft.(cleaningType := Some(code)))
  {
    ButtonStep(s, CleaningTypePrefix + code, env);
    TypeButtonsStoreCode(s, code);
  }

  /** Choosing a property type stores it and asks for the area. */
  lemma PropertyTypeStep(s: Session, code: string, env: Environment)
    requires ':' !in code
    ensures UpdateOutcome(s, CallbackUpdate(Pressed(PropertyTypePrefix + code)), env).session ==
      Session(EnteringArea, s.draft.(propertyType := Some(code)))
  {
    ButtonStep(s, PropertyTypePrefix + code, env);
    TypeButtonsStoreCode(s, code);
  }

  /** After `/start` and "calculate price", choosing the two types stores both and asks for the area. */
  lemma StartAndChooseTypes(s: Session, env: Environment, user: User, cleaning: string, property: string)
    requires ':' !in cleaning && ':' !in property
    ensures Run(s, [Said("/start", user), CallbackUpdate(Pressed("calculate_price")),
                    CallbackUpdate(Pressed(CleaningTypePrefix + cleaning)),
                    CallbackUpdate(Pressed(PropertyTypePrefix + property))], env).session ==
      Session(EnteringArea, EmptyDraft.(cleaningType := Some(cleaning), propertyType := Some(property)))
  {
    var s1 := Session(SelectingCleaningType, EmptyDraft);
    var s2 := Session(SelectingPropertyType, EmptyDraft.(cleaningType := Some(cleaning)));
    StartStep(s, user, env);
    CalculatePriceStep(env);
    CleaningTypeStep(s1, cleaning, env);
    PropertyTypeStep(s2, property, env);
    RunOfFourEndsIn(s, Said("/start", user), CallbackUpdate(Pressed("calculate_price")),
                    CallbackUpdate(Pressed(CleaningTypePrefix + cleaning)),
                    CallbackUpdate(Pressed(PropertyTypePrefix + property)), env,
                    Cleared, s1, s2, Session(EnteringArea, s2.draft.(propertyType := Some(property))));
  }

  /** The area step of the walk-through: "60" is parsed and quoted. */
  lemma SixtyQuotedByAreaStep(s: Session, parseFloat: string -> Option<real>)
    requires s.draft.cleaningType == Some("deep") && s.draft.propertyType == Some("apartment")
    requires parseFloat("60") == Some(60.0)
    ensures AreaOutcome(s, Some("60"), parseFloat) ==
      Outcome(s.(draft := s.draft.(area := Some(60.0))),
              [PriceCalculated("Генеральне", "Квартира", 60.0, Some(Discount(4800.0, 5, 240.0)), 4560.0)], [])
  {
    StripTrimmed("60");
    assert CalculateCleaningPrice("deep", "apartment", 60.0) ==
      Ok(PriceQuote(80.0, 60.0, 1.0, 4800.0, 5, 240.0, 4560.0));
  }

  /** Answering "60" then quotes 4560 with a 5% discount, and the area is stored. */
  lemma SixtySquareMetresQuoted(env: Environment, user: User)
    requires env.parseFloat("60") == Some(60.0)
    ensures var s := Session(EnteringArea, EmptyDraft.(cleaningType := Some("deep"), propertyType := Some("apartment")));
      var o := UpdateOutcome(s, Said("60", user), env);
      o.session == s.(draft := s.draft.(area := Some(60.0))) &&
      o.replies == [PriceCalculated("Генеральне", "Квартира", 60.0, Some(Discount(4800.0, 5, 240.0)), 4560.0)]
  {
    var s := Session(EnteringArea, EmptyDraft.(cleaningType := Some("deep"), propertyType := Some("apartment")));
    PlainTextIsNoCommand("60", env.botUsername);
    assert UpdateOutcome(s, Said("60", user), env) == TextOutcome(s, Message(Some("60"), None, user), env.parseFloat, env.ownerId);
    SixtyQuotedByAreaStep(s, env.parseFloat);
  }

  /** Plain text while an address is expected goes to the address step. */
  lemma AddressStep(s: Session, address: string, user: User, env: Environment)
    requires s.step == EnteringAddress && address != [] && address[0] != '/' && !IsSpace(address[0])
    ensures UpdateOutcome(s, Said(address, user), env) == AddressOutcome(s, Message(Some(address), None, user), env.ownerId)
  {
    PlainTextIsNoCommand(address, env.botUsername);
  }

  /** A bare hour without ':' starts at that full hour. */
  lemma HourTextEvent(a: string, h: nat)
    requires ':' !in a && ParseInt(a) == Some(h) && h < 24
    ensures EventTime(a) == Some(Time(h, 0, 0, 0))
  {
    assert Split(a, ':') == [a];
  }

  /** The event of a booking stored for hour text `hour` starts at that full hour on the stored date. */
  lemma HourEvent(d: Draft, user: User, location: string, hour: string, h: nat)
    requires Truthy(d.selectedDate) && FromIsoFormat(d.selectedDate.value).Some?
    requires d.selectedTime == Some(hour) && ':' !in hour && ParseInt(hour) == Some(h) && h < 24
    ensures Events(d, user, location) ==
      [CreateEvent(CalendarEvent(d, user, location, DateTime(FromIsoFormat(d.selectedDate.value).value, Time(h, 0, 0, 0))))]
  {
    assert hour != "" by {
      if hour == "" {
        StripTrimmed(hour);
      }
    }
    HourTextEvent(hour, h);
  }

  /** The booking button asks for a date. */
  lemma BookStep(d: Draft, env: Environment)
    ensures UpdateOutcome(Session(EnteringArea, d), CallbackUpdate(Pressed("book_cleaning")), env) ==
      Outcome(Session(SelectingDate, d), [ChooseDate], [])
  {
    ButtonStep(Session(EnteringArea, d), "book_cleaning", env);
  }

  /** A date button with an ISO date stores it and asks for the time. */
  lemma DateStep(d: Draft, dateText: string, env: Environment)
    requires ':' !in dateText && FromIsoFormat(dateText).Some?
    ensures var o := UpdateOutcome(Session(SelectingDate, d), CallbackUpdate(Pressed(DatePrefix + dateText)), env);
      o.session == Session(SelectingTime, d.(selectedDate := Some(dateText))) && o.effects == []
  {
    ButtonStep(Session(SelectingDate, d), DatePrefix + dateText, env);
    DateButtonAccepted(Session(SelectingDate, d), dateText);
  }

  /** A time button stores its hour text and asks for the address. */
  lemma TimeStep(d: Draft, dateText: string, hour: string, minute: string, env: Environment)
    requires FromIsoFormat(dateText).Some? && (d.area.Some? ==> d.area.value > 0.0) && ':' !in hour
    ensures var o := UpdateOutcome(Session(SelectingTime, d.(selectedDate := Some(dateText))),
                                   CallbackUpdate(Pressed(TimePrefix + hour + ":" + minute)), env);
      o.session == Session(EnteringAddress, d.(selectedDate := Some(dateText), selectedTime := Some(hour))) &&
      o.effects == []
  {
    var s2 := Session(SelectingTime, d.(selectedDate := Some(dateText)));
    ButtonStep(s2, TimePrefix + hour + ":" + minute, env);
    TimeButtonStoresHour(s2, hour, minute);
  }

  /** The address, given with an hour and a date stored, books one event there at that hour and clears the conversation. */
  lemma AddressBooksAtHour(d: Draft, dateText: string, hour: string, h: nat, address: string, env: Environment, user: User)
    requires d.area.Some? ==> d.area.value > 0.0
    requires FromIsoFormat(dateText).Some?
    requires ':' !in hour && ParseInt(hour) == Some(h) && h < 24
    requires |Strip(address)| >= 5 && address[0] != '/' && !IsSpace(address[0])
    requires env.ownerId.None?
    ensures var o := UpdateOutcome(Session(EnteringAddress, d.(selectedDate := Some(dateText), selectedTime := Some(hour))),
                                   Said(address, user), env);
      o.session == Cleared &&
      o.effects == [CreateEvent(CalendarEvent(d, user, Strip(address),
                                              DateTime(FromIsoFormat(dateText).value, Time(h, 0, 0, 0))))]
  {
    var s3 := Session(EnteringAddress, d.(selectedDate := Some(dateText), selectedTime := Some(hour)));
    var m := Message(Some(address), None, user);
    AddressStep(s3, address, user, env);
    var a := Strip(address);
    var done := s3.draft.(address := Some(a), addressCalendar := Some(a));
    AddressCompletesBooking(s3, m, env.ownerId);
    assert Notifications(done, user, env.ownerId) == [];
    HourEvent(done, user, a, hour, h);
    var start := DateTime(FromIsoFormat(dateText).value, Time(h, 0, 0, 0));
    EventOfServiceFields(done, d, user, a, start);
  }

  /**
   * With no owner id set, booking on a date, pressing a time button
   * `select_time:H:M` and giving an address submits one calendar event
   * from H:00 to two hours later on that date at that address, and clears
   * the conversation: the minutes of the button are dropped.
   */
  lemma BookingScenario(d: Draft, dateText: string, hour: string, minute: string, h: nat,
                        address: string, env: Environment, user: User)
    requires d.area.Some? ==> d.area.value > 0.0
    requires ':' !in dateText && FromIsoFormat(dateText).Some?
    requires ':' !in hour && ParseInt(hour) == Some(h) && h < 24
    requires |Strip(address)| >= 5 && address[0] != '/' && !IsSpace(address[0])
    requires env.ownerId.None?
    ensures var r := Run(Session(EnteringArea, d),
                         [CallbackUpdate(Pressed("book_cleaning")),
                          CallbackUpdate(Pressed(DatePrefix + dateText)),
                          CallbackUpdate(Pressed(TimePrefix + hour + ":" + minute)),
                          Said(address, user)], env);
      r.session == Cleared && |r.effects| == 1 && r.effects[0].CreateEvent? &&
      ValidDateTime(r.effects[0].event.start) && ValidDateTime(r.effects[0].event.end) &&
      r.effects[0].event.start == DateTime(FromIsoFormat(dateText).value, Time(h, 0, 0, 0)) &&
      Instant(r.effects[0].event.end) == Instant(r.effects[0].event.start) + 2 * 3600000000 &&
      r.effects[0].event.location == Strip(address) && r.effects[0].event.title == Title(d)
  {
    var u0, u1 := CallbackUpdate(Pressed("book_cleaning")), CallbackUpdate(Pressed(DatePrefix + dateText));
    var u2, u3 := CallbackUpdate(Pressed(TimePrefix + hour + ":" + minute)), Said(address, user);
    BookStep(d, env);
    DateStep(d, dateText, env);
    TimeStep(d, dateText, hour, minute, env);
    AddressBooksAtHour(d, dateText, hour, h, address, env, user);
    RunOfFour(Session(EnteringArea, d), u0, u1, u2, u3, env);
  }

  /** `start_command_handler` on the context. */
  method StartCommandHandler(ctx: Context) returns (replies: seq<Reply>)
    modifies ctx
    ensures Outcome(ctx.Snapshot(), replies, []) == StartOutcome(old(ctx.Snapshot()))
  {
    ctx.Clear();
    replies := [Menu];
  }

  /**
   * The dispatcher on the conversation's context as registered: the start
   * command, then every other message to the text handler, then callbacks.
   */
  method DispatchAsWritten(ctx: Context, u: Update, env: Environment) returns (replies: seq<Reply>, effects: seq<Effect>)
    modifies ctx
    ensures Outcome(ctx.Snapshot(), replies, effects) == UpdateOutcomeAsWritten(old(ctx.Snapshot()), u, env)
  {
    match u
    case CallbackUpdate(cb) =>
      replies := CallbackHandler(ctx, cb);
      effects := [];
    case MessageUpdate(m) =>
      if m.text.Some? && IsStartCommand(m.text.value, env.botUsername) {
        replies := StartCommandHandler(ctx);
        effects := [];
      } else {
        replies, effects := TextMessageHandler(ctx, m, env.parseFloat, env.ownerId);
      }
  }

  /**
   * The dispatcher with `location_message_handler` registered for location
   * messages: the first handler whose filter matches runs.
   */
  method Dispatch(ctx: Context, u: Update, env: Environment) returns (replies: seq<Reply>, effects: seq<Effect>)
    modifies ctx
    ensures Outcome(ctx.Snapshot(), replies, effects) == UpdateOutcome(old(ctx.Snapshot()), u, env)
  {
    match u
    case CallbackUpdate(cb) =>
      replies := CallbackHandler(ctx, cb);
      effects := [];
    case MessageUpdate(m) =>
      if m.text.Some? && IsStartCommand(m.text.value, env.botUsername) {
        replies := StartCommandHandler(ctx);
        effects := [];
      } else if m.location.Some? {
        replies, effects := LocationMessageHandler(ctx, m, env.ownerId);
      } else {
        replies, effects := TextMessageHandler(ctx, m, env.parseFloat, env.ownerId);
      }
  }
}
