/**
 * The tuner session of `TunaViewModel` without its audio plumbing: the
 * selected tuning, the smoothing buffer and the in-tune flag, advanced by
 * pure step functions that also return the delegate events they emit.
 */
module Tuner {
  import opened Wrappers
  import opened Tunings
  import PitchDetection
  import Smoothing
  import Matching

  const InTuneThreshold: real := 1.0
  /** The rate the detector is created with, before the input format is known. */
  const DefaultSampleRate: real := 44100.0

  datatype TunerEvent =
    | Updated(frequency: Option<real>, noteName: Option<string>, ratio: Option<real>, deviation: Option<real>)
    | TuningChanged(name: string)
    | InTuneFeedback

  const NoSignal := Updated(None, None, None, None)

  datatype TunerState = TunerState(
    tunings: seq<GuitarTuning>,
    selectedIndex: int,
    buffer: seq<real>,
    lastInTune: bool,
    detector: PitchDetection.Detector)

  /** The state after an operation, and the events it emitted in order. */
  datatype Step = Step(state: TunerState, events: seq<TunerEvent>)

  predicate Valid(s: TunerState) {
    && 0 <= s.selectedIndex < |s.tunings|
    && (forall k :: 0 <= k < |s.tunings| ==> |s.tunings[k].strings| > 0 && PositiveFrequencies(s.tunings[k].strings))
    && Smoothing.Valid(s.buffer)
  }

  function Initial(): (s: TunerState)
    ensures Valid(s)
    ensures s.tunings == All && s.selectedIndex == 0 && s.buffer == [] && !s.lastInTune
  {
    CatalogWellFormed();
    TunerState(All, 0, [], false, PitchDetection.Detector(DefaultSampleRate))
  }

  /** Audio start-up: the detector adopts the input format's sample rate. */
  function AudioStarted(s: TunerState, sampleRate: real): (r: TunerState)
    ensures r.detector.sampleRate == sampleRate
    ensures r.(detector := s.detector) == s
  {
    s.(detector := PitchDetection.UpdateSampleRate(s.detector, sampleRate))
  }

  /**
   * `selectTuning(index:)`: an index outside the catalog is ignored; a valid
   * one is stored, clears the buffer and announces the tuning's name (even
   * when it is the index already selected).
   */
  function SelectTuning(s: TunerState, index: int): (r: Step)
    ensures 0 <= index < |s.tunings| ==>
      && r.state == s.(selectedIndex := index, buffer := [])
      && r.events == [TuningChanged(s.tunings[index].name)]
    ensures !(0 <= index < |s.tunings|) ==> r.state == s && r.events == []
    ensures r.state.lastInTune == s.lastInTune
    ensures Valid(s) ==> Valid(r.state)
  {
    if index >= 0 && index < |s.tunings| then
      Step(s.(selectedIndex := index, buffer := []), [TuningChanged(s.tunings[index].name)])
    else
      Step(s, [])
  }

  predicate InTune(deviation: Option<real>) {
    deviation.Some? && Abs(deviation.value) < InTuneThreshold
  }

  /** The edge detector: feedback fires on entry into tune; the flag follows the level. */
  function InTuneEdge(lastInTune: bool, deviation: Option<real>): (r: (bool, bool))
    ensures r.0 <==> InTune(deviation) && !lastInTune
    ensures r.1 <==> InTune(deviation)
  {
    match deviation
    case None => (false, false)
    case Some(d) =>
      if Abs(d) < InTuneThreshold then (!lastInTune, true) else (false, false)
  }

  /**
   * A present frequency in an update is reported against the closest string
   * of `strings`: that string's name, the signed offset from its target, and
   * the ratio to the target from which the cents value is derived.
   */
  ghost predicate ReportsClosest(strings: seq<TuningString>, e: TunerEvent) {
    e.Updated? && e.frequency.Some? ==>
      exists k ::
        && Matching.ClosestIndex(strings, e.frequency.value) == Some(k)
        && e.noteName == Some(strings[k].name)
        && e.deviation == Some(e.frequency.value - strings[k].frequency)
        && e.ratio.Some? && e.ratio.value * strings[k].frequency == e.frequency.value
  }

  /**
   * `update(with:)`: an absent frequency clears the in-tune flag and reports
   * no signal; a present one is matched against the selected tuning, reported,
   * and followed by an in-tune feedback event on entry into tune.
   */
  function Update(s: TunerState, frequency: Option<real>): (r: Step)
    requires Valid(s)
    ensures r.state.(lastInTune := s.lastInTune) == s
    ensures 1 <= |r.events| <= 2 && r.events[0].Updated?
    ensures r.events[0].frequency == frequency
    ensures frequency.None? ==> r.events == [NoSignal] && !r.state.lastInTune
    ensures ReportsClosest(s.tunings[s.selectedIndex].strings, r.events[0])
    ensures r.state.lastInTune <==> InTune(r.events[0].deviation)
    ensures InTuneFeedback in r.events <==> InTune(r.events[0].deviation) && !s.lastInTune
    ensures |r.events| == 2 <==> InTuneFeedback in r.events
  {
    match frequency
    case None => Step(s.(lastInTune := false), [NoSignal])
    case Some(f) =>
      var m := Matching.MatchFrequency(s.tunings[s.selectedIndex], f).value;
      var update := Updated(Some(f), Some(m.noteName), Some(m.ratio), Some(m.deviation));
      var edge := InTuneEdge(s.lastInTune, Some(m.deviation));
      Step(s.(lastInTune := edge.1), [update] + (if edge.0 then [InTuneFeedback] else []))
  }

  /**
   * One captured frame: detect a pitch; on success push it into the buffer
   * and update with the buffer's median, otherwise update with no signal.
   */
  function OnFrame(s: TunerState, samples: seq<real>): (r: Step)
    requires Valid(s)
    ensures Valid(r.state)
    ensures r.state.tunings == s.tunings && r.state.selectedIndex == s.selectedIndex
    ensures r.state.detector == s.detector
    ensures |r.events| >= 1 && r.events[0].Updated?
    ensures PitchDetection.Detect(samples, s.detector.sampleRate).None? ==>
      r.state == s.(lastInTune := false) && r.events == [NoSignal]
    ensures PitchDetection.Detect(samples, s.detector.sampleRate).Some? ==>
      && r.state.buffer == Smoothing.AddToBuffer(s.buffer, PitchDetection.Detect(samples, s.detector.sampleRate).value)
      && r.events[0].frequency == Smoothing.SmoothedFrequency(r.state.buffer)
      && r.events[0].frequency.Some?
      && r.events[0].frequency.value in r.state.buffer
    ensures ReportsClosest(s.tunings[s.selectedIndex].strings, r.events[0])
    ensures r.state.lastInTune <==> InTune(r.events[0].deviation)
    ensures InTuneFeedback in r.events <==> InTune(r.events[0].deviation) && !s.lastInTune
  {
    match PitchDetection.Detect(samples, s.detector.sampleRate)
    case None => Update(s, None)
    case Some(pitch) =>
      Smoothing.AddPreservesValid(s.buffer, pitch);
      var buffered := s.(buffer := Smoothing.AddToBuffer(s.buffer, pitch));
      Update(buffered, Smoothing.SmoothedFrequency(buffered.buffer))
  }

  /**
   * The feedback indices and final flag after feeding the first n deviations
   * through the edge detector, one update at a time.
   */
  function FeedbackRun(lastInTune: bool, deviations: seq<Option<real>>, n: nat): (r: (seq<nat>, bool))
    requires n <= |deviations|
  {
    if n == 0 then ([], lastInTune)
    else
      var prev := FeedbackRun(lastInTune, deviations, n - 1);
      var edge := InTuneEdge(prev.1, deviations[n - 1]);
      (prev.0 + (if edge.0 then [n - 1] else []), edge.1)
  }

  /** Update i is in tune while the one before it (or the initial flag) was not. */
  predicate RisingEdge(lastInTune: bool, deviations: seq<Option<real>>, i: nat)
    requires i < |deviations|
  {
    InTune(deviations[i]) && !(if i == 0 then lastInTune else InTune(deviations[i - 1]))
  }

  /**
   * Feedback fires exactly once per entry into tune: at the rising edges of
   * the in-tune level, in order, and the flag ends equal to the last level.
   */
  lemma {:induction false} FeedbackOnRisingEdges(lastInTune: bool, deviations: seq<Option<real>>, n: nat)
    requires n <= |deviations|
    ensures forall i: nat :: i in FeedbackRun(lastInTune, deviations, n).0 <==> i < n && RisingEdge(lastInTune, deviations, i)
    ensures forall a, b :: 0 <= a < b < |FeedbackRun(lastInTune, deviations, n).0| ==>
      FeedbackRun(lastInTune, deviations, n).0[a] < FeedbackRun(lastInTune, deviations, n).0[b]
    ensures FeedbackRun(lastInTune, deviations, n).1 == (if n == 0 then lastInTune else InTune(deviations[n - 1]))
    decreases n
  {
    if n > 0 {
      FeedbackOnRisingEdges(lastInTune, deviations, n - 1);
      var prev := FeedbackRun(lastInTune, deviations, n - 1);
      var edge := InTuneEdge(prev.1, deviations[n - 1]);
      var run := FeedbackRun(lastInTune, deviations, n);
      assert run.0 == prev.0 + (if edge.0 then [n - 1] else []);
      assert edge.0 <==> RisingEdge(lastInTune, deviations, n - 1);
      forall i: nat ensures i in run.0 <==> i < n && RisingEdge(lastInTune, deviations, i) {
        if i < n - 1 {
          assert i in run.0 <==> i in prev.0;
        }
      }
      forall a, b | 0 <= a < b < |run.0| ensures run.0[a] < run.0[b] {
        assert run.0[a] == prev.0[a];
        if b < |prev.0| {
          assert run.0[b] == prev.0[b];
        } else {
          assert prev.0[a] in prev.0;
        }
      }
    }
  }

  /** Deviations 5, 0.5, 0.3, 5, 0.4 give feedback twice: at updates 1 and 4. */
  lemma FeedbackExample()
    ensures FeedbackRun(false, [Some(5.0), Some(0.5), Some(0.3), Some(5.0), Some(0.4)], 5).0 == [1, 4]
  {
  }

  /** An out-of-range selection changes nothing and says nothing. */
  lemma SelectOutOfRangeIsNoOp(s: TunerState)
    ensures SelectTuning(s, -1) == Step(s, [])
    ensures SelectTuning(s, |s.tunings|) == Step(s, [])
  {
  }
}
