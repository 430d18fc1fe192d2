/**
 * How the tuner screen (`TunaViewController`) renders the session's events:
 * labels with placeholders for absent values, and the tuning advice with its
 * colour derived from the signed deviation in Hz.
 */
module TunerScreen {
  import opened Wrappers
  import Tuner

  const NotePlaceholder := "---"
  const FrequencyPlaceholder := "-- Hz"
  const CentsPlaceholder := "±0 c"
  const FrequencyFormat := "%.2f Hz"
  const CentsFormat := "%+0.0f c"
  /** Outside the in-tune band, deviations below this many Hz show orange, the rest red. */
  const WarningBand: real := 2.5

  datatype Advice = NoAdvice | InTuneAdvice | Loosen | Tighten

  datatype Colour = ComponentsText | SecondaryLabel | Green | Orange | Red

  /** A label shows either fixed text or a value through a printf-style format. */
  datatype Label = Text(text: string) | Formatted(format: string, value: real)

  datatype Screen = Screen(
    note: Label,
    frequency: Label,
    cents: Label,
    advice: Advice,
    adviceColour: Colour,
    needle: real,
    tuningName: string)

  function AdviceText(a: Advice): string {
    match a
    case NoAdvice => ""
    case InTuneAdvice => "Точно настроено! 🎸"
    case Loosen => "Ослабьте струну"
    case Tighten => "Подтяните струну"
  }

  /**
   * The advice for a deviation d (frequency − target): in tune below 1 Hz
   * either way, otherwise loosen when sharp and tighten when flat.
   */
  function Classify(d: real): (r: (Advice, Colour))
    ensures r.0 == InTuneAdvice <==> Abs(d) < 1.0
    ensures r.0 == Loosen <==> d >= 1.0
    ensures r.0 == Tighten <==> d <= -1.0
    ensures r.0 != NoAdvice
    ensures r.1 == Green <==> r.0 == InTuneAdvice
    ensures r.0 != InTuneAdvice ==> (r.1 == Orange <==> Abs(d) < WarningBand)
    ensures r.0 != InTuneAdvice ==> (r.1 == Red <==> Abs(d) >= WarningBand)
  {
    var absDiff := Abs(d);
    if absDiff < 1.0 then (InTuneAdvice, Green)
    else if d > 0.0 then (Loosen, if absDiff < WarningBand then Orange else Red)
    else (Tighten, if absDiff < WarningBand then Orange else Red)
  }

  /** The screen says "in tune" for exactly the deviations that trigger the session's feedback. */
  lemma InTuneAgreesWithFeedback(d: real)
    ensures Classify(d).0 == InTuneAdvice <==> Tuner.InTune(Some(d))
  {
  }

  /** The screen before any event: placeholders and the selected tuning's name. */
  function Initial(tuningName: string): (r: Screen)
    ensures r.note == Text(NotePlaceholder) && r.frequency == Text(FrequencyPlaceholder)
    ensures r.cents == Text(CentsPlaceholder) && r.advice == NoAdvice && r.needle == 0.0
    ensures r.tuningName == tuningName
  {
    Screen(Text(NotePlaceholder), Text(FrequencyPlaceholder), Text(CentsPlaceholder), NoAdvice, SecondaryLabel, 0.0, tuningName)
  }

  /**
   * `tunaViewModelDidUpdate`: each absent value shows its placeholder; an
   * absent deviation also centres the needle and clears the advice.
   */
  function DidUpdate(s: Screen, frequency: Option<real>, noteName: Option<string>, cents: Option<real>, deviation: Option<real>): (r: Screen)
    ensures r.frequency == Text(FrequencyPlaceholder) <==> frequency.None?
    ensures frequency.Some? ==> r.frequency == Formatted(FrequencyFormat, frequency.value)
    ensures noteName.None? ==> r.note == Text(NotePlaceholder)
    ensures noteName.Some? ==> r.note == Text(noteName.value)
    ensures r.cents == Text(CentsPlaceholder) <==> cents.None?
    ensures cents.Some? ==> r.cents == Formatted(CentsFormat, cents.value)
    ensures deviation.None? ==> r.needle == 0.0 && r.advice == NoAdvice && r.adviceColour == ComponentsText
    ensures deviation.Some? ==> r.needle == deviation.value && r.advice != NoAdvice
    ensures deviation.Some? ==> (r.advice, r.adviceColour) == Classify(deviation.value)
    ensures r.tuningName == s.tuningName
  {
    var freqLabel := match frequency
      case Some(f) => Formatted(FrequencyFormat, f)
      case None => Text(FrequencyPlaceholder);
    var noteLabel := match noteName
      case Some(n) => Text(n)
      case None => Text(NotePlaceholder);
    var centsLabel := match cents
      case Some(c) => Formatted(CentsFormat, c)
      case None => Text(CentsPlaceholder);
    match deviation
    case Some(d) =>
      var advice := Classify(d);
      s.(note := noteLabel, frequency := freqLabel, cents := centsLabel, advice := advice.0, adviceColour := advice.1, needle := d)
    case None =>
      s.(note := noteLabel, frequency := freqLabel, cents := centsLabel, advice := NoAdvice, adviceColour := ComponentsText, needle := 0.0)
  }

  /**
   * `tunaViewModelDidChangeTuning`: shows the new name and resets note,
   * frequency, cents and advice to their placeholders; needle and advice
   * colour are left as they were.
   */
  function DidChangeTuning(s: Screen, tuningName: string): (r: Screen)
    ensures r.tuningName == tuningName
    ensures r.note == Text(NotePlaceholder) && r.frequency == Text(FrequencyPlaceholder)
    ensures r.cents == Text(CentsPlaceholder) && r.advice == NoAdvice
    ensures r.needle == s.needle && r.adviceColour == s.adviceColour
  {
    s.(tuningName := tuningName, note := Text(NotePlaceholder), frequency := Text(FrequencyPlaceholder),
       cents := Text(CentsPlaceholder), advice := NoAdvice)
  }

  const MicDeniedText := "Нет доступа к микрофону"

  /** `tunaViewModelMicPermissionDenied`: the note label explains, the advice is cleared. */
  function MicPermissionDenied(s: Screen): (r: Screen)
    ensures r.note == Text(MicDeniedText) && r.advice == NoAdvice
    ensures r == s.(note := r.note, advice := r.advice)
  {
    s.(note := Text(MicDeniedText), advice := NoAdvice)
  }

  /** `tunaViewModelAudioError`: the message replaces the note label and nothing else. */
  function AudioError(s: Screen, message: string): (r: Screen)
    ensures r.note == Text(message)
    ensures r == s.(note := r.note)
  {
    s.(note := Text(message))
  }

  /** Changing the tuning after a permission or audio failure hides the failure message. */
  lemma TuningChangeClearsFailure(s: Screen, message: string, name: string)
    ensures DidChangeTuning(MicPermissionDenied(s), name).note == Text(NotePlaceholder)
    ensures DidChangeTuning(AudioError(s, message), name).note == Text(NotePlaceholder)
  {
  }

  /** A no-signal update leaves the screen showing every placeholder, whatever it showed before. */
  lemma NoSignalShowsPlaceholders(s: Screen)
    ensures DidUpdate(s, None, None, None, None) == Initial(s.tuningName).(adviceColour := ComponentsText)
  {
  }
}
