/**
 * `MetronomeView`: tempo, time signature and play state, each of which
 * tells the delegate whenever it is assigned (Swift's `didSet`), even when
 * the value does not change.
 */
module Metronome {
  import opened Wrappers
  import Text

  datatype TimeSignature = TimeSignature(beats: int, noteValue: int)

  /** `displayString`: "beats/noteValue", which reads back as the same pair. */
  function DisplayString(ts: TimeSignature): (r: string)
    ensures Text.ParseFraction(r) == Some((ts.beats, ts.noteValue))
  {
    Text.FractionText(ts.beats, ts.noteValue)
  }

  /** The segments of the time-signature control, in order. */
  const Signatures: seq<TimeSignature> := [TimeSignature(4, 4), TimeSignature(3, 4), TimeSignature(2, 4)]

  const MinTempo := 60
  const MaxTempo := 200
  const PlayTitle := "\U{25B6}\U{FE0F}"
  const PauseTitle := "\U{23F8}\U{FE0F}"

  datatype ButtonColour = SecondaryGreen | WarningRed

  /** `segmentIndex` is the time-signature control's selection; `sliderValue` the tempo slider's position. */
  datatype MetronomeState = MetronomeState(
    tempo: int,
    timeSignature: TimeSignature,
    isPlaying: bool,
    segmentIndex: int,
    sliderValue: real)

  datatype MetronomeEvent =
    | TempoChanged(tempo: int)
    | TimeSignatureChanged(timeSignature: TimeSignature)
    | PlaybackToggled(isPlaying: bool)

  datatype Step = Step(state: MetronomeState, events: seq<MetronomeEvent>)

  /** The view as built: 120 BPM, 4/4 selected, stopped. */
  const Initial := MetronomeState(120, TimeSignature(4, 4), false, 0, 120.0)

  /** The labels and the play button follow the state. */
  function TempoLabel(s: MetronomeState): string {
    Text.IntToString(s.tempo) + " BPM"
  }

  function SignatureLabel(s: MetronomeState): string {
    DisplayString(s.timeSignature)
  }

  function PlayButton(s: MetronomeState): (r: (string, ButtonColour))
    ensures r.0 == PauseTitle <==> s.isPlaying
    ensures r.1 == WarningRed <==> s.isPlaying
  {
    if s.isPlaying then (PauseTitle, WarningRed) else (PlayTitle, SecondaryGreen)
  }

  /** The labels the view is built with agree with its initial state. */
  lemma InitialLabels()
    ensures TempoLabel(Initial) == "120 BPM"
    ensures SignatureLabel(Initial) == "4/4"
    ensures PlayButton(Initial).0 == PlayTitle
  {
    assert Text.NatToString(120) == "120" by {
      assert Text.NatToString(12) == "12";
    }
  }

  /** The state keeps the control, slider and tempo consistent. */
  predicate Consistent(s: MetronomeState) {
    && MinTempo <= s.tempo <= MaxTempo
    && s.tempo as real <= s.sliderValue < s.tempo as real + 1.0
    && 0 <= s.segmentIndex < |Signatures|
    && Signatures[s.segmentIndex] == s.timeSignature
  }

  lemma InitialConsistent()
    ensures Consistent(Initial)
  {
  }

  /** `setTempo`: clamped into 60…200, the slider moved to match. */
  function SetTempo(s: MetronomeState, newTempo: int): (r: Step)
    ensures MinTempo <= r.state.tempo <= MaxTempo
    ensures MinTempo <= newTempo <= MaxTempo ==> r.state.tempo == newTempo
    ensures newTempo < MinTempo ==> r.state.tempo == MinTempo
    ensures newTempo > MaxTempo ==> r.state.tempo == MaxTempo
    ensures r.state.sliderValue == r.state.tempo as real
    ensures r.state == s.(tempo := r.state.tempo, sliderValue := r.state.sliderValue)
    ensures r.events == [TempoChanged(r.state.tempo)]
  {
    var tempo := Max(MinTempo, Min(MaxTempo, newTempo));
    Step(s.(tempo := tempo, sliderValue := tempo as real), [TempoChanged(tempo)])
  }

  /** Clamping twice is clamping once; the delegate still hears about the second assignment. */
  lemma SetTempoIdempotent(s: MetronomeState, n: int)
    ensures SetTempo(SetTempo(s, n).state, n).state == SetTempo(s, n).state
    ensures SetTempo(SetTempo(s, n).state, n).events == SetTempo(s, n).events
  {
  }

  /**
   * `tempoSliderChanged`: the tempo becomes the slider position rounded
   * toward zero. `UISlider` keeps its value between its minimum (60) and
   * maximum (200).
   */
  function TempoSliderChanged(s: MetronomeState, value: real): (r: Step)
    requires MinTempo as real <= value <= MaxTempo as real
    ensures MinTempo <= r.state.tempo <= MaxTempo
    ensures r.state.tempo as real <= value < r.state.tempo as real + 1.0
    ensures r.state == s.(tempo := r.state.tempo, sliderValue := value)
    ensures r.events == [TempoChanged(r.state.tempo)]
  {
    var tempo := Trunc(value);
    Step(s.(tempo := tempo, sliderValue := value), [TempoChanged(tempo)])
  }

  /**
   * `timeSignatureChanged`: the control's new index picks the signature.
   * A negative index fails the array subscript at run time (`None`); an
   * index past the table changes nothing.
   */
  function TimeSignatureSelected(s: MetronomeState, index: int): (r: Option<Step>)
    ensures r.None? <==> index < 0
    ensures 0 <= index < |Signatures| ==> r == Some(Step(
      s.(timeSignature := Signatures[index], segmentIndex := index),
      [TimeSignatureChanged(Signatures[index])]))
    ensures index >= |Signatures| ==> r == Some(Step(s.(segmentIndex := index), []))
  {
    if index < 0 then None
    else if index < |Signatures| then
      Some(Step(s.(timeSignature := Signatures[index], segmentIndex := index), [TimeSignatureChanged(Signatures[index])]))
    else Some(Step(s.(segmentIndex := index), []))
  }

  /** The first segment whose beats and note value both match. */
  function SegmentOf(ts: TimeSignature): (r: Option<nat>)
    ensures r.Some? <==> ts in Signatures
    ensures r.Some? ==> r.value < |Signatures| && Signatures[r.value] == ts
  {
    if ts == Signatures[0] then Some(0)
    else if ts == Signatures[1] then Some(1)
    else if ts == Signatures[2] then Some(2)
    else None
  }

  /**
   * `setTimeSignature`: any signature is stored and announced; the control
   * moves only when the signature is one of its segments.
   */
  function SetTimeSignature(s: MetronomeState, ts: TimeSignature): (r: Step)
    ensures r.state.timeSignature == ts
    ensures ts in Signatures ==> 0 <= r.state.segmentIndex < |Signatures| && Signatures[r.state.segmentIndex] == ts
    ensures ts !in Signatures ==> r.state.segmentIndex == s.segmentIndex
    ensures r.state.tempo == s.tempo && r.state.isPlaying == s.isPlaying && r.state.sliderValue == s.sliderValue
    ensures r.events == [TimeSignatureChanged(ts)]
  {
    var segment := match SegmentOf(ts) case Some(i) => i as int case None => s.segmentIndex;
    Step(s.(timeSignature := ts, segmentIndex := segment), [TimeSignatureChanged(ts)])
  }

  /** Setting a listed signature from code has the same effect as tapping its segment. */
  lemma SetMatchesTap(s: MetronomeState, index: nat)
    requires index < |Signatures|
    ensures TimeSignatureSelected(s, index) == Some(SetTimeSignature(s, Signatures[index]))
  {
  }

  /** A signature outside the table leaves the control showing a different one. */
  lemma UnlistedSignatureDesyncsControl()
    ensures var r := SetTimeSignature(Initial, TimeSignature(6, 8)).state;
      !Consistent(r) && SignatureLabel(r) == "6/8" && Signatures[r.segmentIndex] == TimeSignature(4, 4)
  {
  }

  /** `playButtonTapped`: flip and announce the new state. */
  function PlayButtonTapped(s: MetronomeState): (r: Step)
    ensures r.state.isPlaying == !s.isPlaying
    ensures r.state == s.(isPlaying := r.state.isPlaying)
    ensures r.events == [PlaybackToggled(r.state.isPlaying)]
  {
    Step(s.(isPlaying := !s.isPlaying), [PlaybackToggled(!s.isPlaying)])
  }

  /** `setPlaying`: stored and announced even when unchanged. */
  function SetPlaying(s: MetronomeState, playing: bool): (r: Step)
    ensures r.state == s.(isPlaying := playing)
    ensures r.events == [PlaybackToggled(playing)]
  {
    Step(s.(isPlaying := playing), [PlaybackToggled(playing)])
  }

  /** Two taps restore the play state, announcing both flips. */
  lemma DoubleTapRestores(s: MetronomeState)
    ensures PlayButtonTapped(PlayButtonTapped(s).state).state == s
    ensures PlayButtonTapped(s).events + PlayButtonTapped(PlayButtonTapped(s).state).events
         == [PlaybackToggled(!s.isPlaying), PlaybackToggled(s.isPlaying)]
  {
  }

  /** A tap is `setPlaying` with the opposite value. */
  lemma TapIsSetOpposite(s: MetronomeState)
    ensures PlayButtonTapped(s) == SetPlaying(s, !s.isPlaying)
  {
  }

  /** Every control action keeps the state consistent, as long as signatures come from the table. */
  lemma ActionsPreserveConsistent(s: MetronomeState, n: int, value: real, index: nat, playing: bool)
    requires Consistent(s)
    ensures Consistent(SetTempo(s, n).state)
    ensures MinTempo as real <= value <= MaxTempo as real ==> Consistent(TempoSliderChanged(s, value).state)
    ensures index < |Signatures| ==> Consistent(TimeSignatureSelected(s, index).value.state)
    ensures index < |Signatures| ==> Consistent(SetTimeSignature(s, Signatures[index]).state)
    ensures Consistent(PlayButtonTapped(s).state) && Consistent(SetPlaying(s, playing).state)
  {
  }
}
