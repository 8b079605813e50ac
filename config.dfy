/**
 * config.py: the bot token and the owner's Telegram id read from the
 * environment (the environment lookup itself is a parameter), and the
 * calendar constants.
 */
module Config {
  import opened Wrappers
  import opened Text
  import opened Datetime

  /** Calendar time zone name (events are created in it). */
  const CalendarTimezone: string := "Europe/Stockholm"
  /** Working hours: slots start from 8:00 and must start before 18:00. */
  const WorkStart: Time := Time(8, 0, 0, 0)
  const WorkEnd: Time := Time(18, 0, 0, 0)
  /** Hours between two offered starting times. */
  const SlotIntervalHours: int := 2
  /** Length of one cleaning appointment, in hours. */
  const CleaningDurationHours: int := 2

  /** The working hours are the times `time(8, 0)` and `time(18, 0)`, in order. */
  lemma WorkingHours()
    ensures MakeTime(8, 0) == Some(WorkStart) && MakeTime(18, 0) == Some(WorkEnd)
    ensures Micros(WorkStart) < Micros(WorkEnd)
  {
  }

  /** Why `get_bot_token` raises `ValueError`. */
  datatype TokenError =
    | NotSet     // the variable is missing or empty
    | Empty      // only whitespace
    | BadFormat  // not "digits:rest" with a non-empty rest

  /**
   * The token check after stripping: a ':' is present, the text before the
   * first ':' is all digits and the text after it is not empty.
   */
  predicate TokenShaped(t: string) {
    match IndexOf(t, ':')
    case None => false
    case Some(i) => IsDigits(t[..i]) && i + 1 < |t|
  }

  /**
   * `get_bot_token()` given the value of `BOT_TOKEN` (`None` when unset):
   * the stripped token, or the reason it is refused.
   */
  function GetBotToken(env: Option<string>): (r: Result<string, TokenError>)
    ensures r == Err(NotSet) <==> env.None? || env.value == ""
    ensures r == Err(Empty) <==> env.Some? && env.value != "" && Strip(env.value) == ""
    ensures r.Ok? <==> env.Some? && TokenShaped(Strip(env.value))
    ensures r.Ok? ==> r.value == Strip(env.value)
  {
    if env.None? || env.value == "" then Err(NotSet)
    else
      var token := Strip(env.value);
      if token == "" then Err(Empty)
      else if !TokenShaped(token) then Err(BadFormat)
      else Ok(token)
  }

  /** A token that was accepted is accepted again unchanged. */
  lemma GetBotTokenIdempotent(env: Option<string>)
    requires GetBotToken(env).Ok?
    ensures GetBotToken(Some(GetBotToken(env).value)) == GetBotToken(env)
  {
    StripIdempotent(env.value);
  }

  /** Every "digits:secret" token without surrounding whitespace is accepted as it is. */
  lemma GetBotTokenAccepts(id: string, secret: string)
    requires IsDigits(id) && secret != [] && !IsSpace(secret[|secret| - 1])
    ensures GetBotToken(Some(id + ":" + secret)) == Ok(id + ":" + secret)
  {
    var t := id + ":" + secret;
    assert t[0] == id[0] && t[|t| - 1] == secret[|secret| - 1];
    StripTrimmed(t);
    assert ':' !in id by {
      assert forall k :: 0 <= k < |id| ==> IsDigit(id[k]);
    }
    IndexOfAfterHead(id, secret, ':');
    assert t[..|id|] == id;
  }

  /** Every accepted token is "digits:secret" with a non-empty secret. */
  lemma GetBotTokenShape(env: Option<string>)
    requires GetBotToken(env).Ok?
    ensures var t := GetBotToken(env).value;
      exists i :: 0 <= i < |t| && t[i] == ':' && IsDigits(t[..i]) && t[i + 1..] != []
  {
    var t := GetBotToken(env).value;
    var i := IndexOf(t, ':').value;
    assert t[i + 1..] != [];
  }

  /**
   * `get_owner_telegram_id()` given the value of `OWNER_TELEGRAM_ID`: the
   * integer it denotes, or `None` when it is unset, empty or not a number.
   */
  function GetOwnerTelegramId(env: Option<string>): (r: Option<int>)
    ensures r.Some? <==> env.Some? && ParseInt(env.value).Some?
    ensures r.Some? ==> r == ParseInt(env.value)
  {
    if env.None? || env.value == "" then None
    else
      StripIdempotent(env.value);
      ParseInt(Strip(env.value))
  }

  /** An id written out as `str(n)` is read back as `n`. */
  lemma GetOwnerTelegramIdRoundTrip(n: int)
    ensures GetOwnerTelegramId(Some(IntToString(n))) == Some(n)
  {
    ParseIntRoundTrip(n);
  }
}
