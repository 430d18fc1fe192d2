/**
 * `GreetingView.makeGreetingText`: a greeting chosen by the hour of the
 * day. The calendar lookup is outside the model; the hour is the input.
 */
module Greeting {
  const Morning := "Доброе утро!"
  const Afternoon := "Добрый день!"
  const Evening := "Добрый вечер!"
  const Night := "Доброй ночи!"
  const Fallback := "Приветствую!"

  /**
   * The switch as written tries its cases in order. Its night case is the
   * range `23..<6`, whose lower bound exceeds its upper bound; building it
   * fails Swift's range precondition at run time, so every hour that gets
   * that far traps.
   */
  datatype Outcome = Text(text: string) | RangeTrap

  function GreetingAsWritten(hour: int): (r: Outcome)
    ensures 5 <= hour < 12 <==> r == Text(Morning)
    ensures 12 <= hour < 17 <==> r == Text(Afternoon)
    ensures 17 <= hour < 23 <==> r == Text(Evening)
    ensures r == RangeTrap <==> hour < 5 || hour >= 23
  {
    if 5 <= hour < 12 then Text(Morning)
    else if 12 <= hour < 17 then Text(Afternoon)
    else if 17 <= hour < 23 then Text(Evening)
    else RangeTrap
  }

  /** At 23:00 and from midnight to 04:59 the greeting as written never appears. */
  lemma NightHoursTrap()
    ensures GreetingAsWritten(23) == RangeTrap
    ensures forall hour :: 0 <= hour < 5 ==> GreetingAsWritten(hour) == RangeTrap
    ensures forall hour :: 0 <= hour < 24 ==> GreetingAsWritten(hour) != Text(Night)
  {
  }

  /**
   * `makeGreetingText` corrected: the evidently intended night case, 23:00 to
   * 04:59 wrapping past midnight; only hours outside a day fall through to
   * the default. The rest of the model uses this version.
   */
  function CorrectedGreeting(hour: int): (r: string)
    ensures 5 <= hour < 12 <==> r == Morning
    ensures 12 <= hour < 17 <==> r == Afternoon
    ensures 17 <= hour < 23 <==> r == Evening
    ensures hour == 23 || 0 <= hour < 5 <==> r == Night
    ensures r == Fallback <==> hour < 0 || hour > 23
  {
    if 5 <= hour < 12 then Morning
    else if 12 <= hour < 17 then Afternoon
    else if 17 <= hour < 23 then Evening
    else if hour == 23 || 0 <= hour < 5 then Night
    else Fallback
  }

  /** The corrected greeting agrees with the original wherever the original does not trap. */
  lemma CorrectionAgreesWhereDefined(hour: int)
    ensures GreetingAsWritten(hour).Text? ==> GreetingAsWritten(hour).text == CorrectedGreeting(hour)
  {
  }

  /** Every hour of a day gets a time-of-day greeting; the default is never shown. */
  lemma EveryHourGreeted(hour: int)
    requires 0 <= hour < 24
    ensures CorrectedGreeting(hour) != Fallback
    ensures CorrectedGreeting(hour) == Night <==> GreetingAsWritten(hour) == RangeTrap
  {
  }
}
