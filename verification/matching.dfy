/**
 * The nearest-string search of `TunaViewModel.update(with:)`: the closest
 * target string of the selected tuning, and the signed offset from it.
 */
module Matching {
  import opened Wrappers
  import opened Tunings

  function Distance(s: TuningString, f: real): real {
    Abs(s.frequency - f)
  }

  /**
   * `strings.min(by:)` over the first n entries: the running result is
   * replaced only by a strictly closer string, so ties keep the earlier one.
   */
  function ClosestInPrefix(strings: seq<TuningString>, f: real, n: nat): (k: nat)
    requires 1 <= n <= |strings|
    ensures k < n
    ensures forall j :: 0 <= j < n ==> Distance(strings[k], f) <= Distance(strings[j], f)
    ensures forall j :: 0 <= j < k ==> Distance(strings[k], f) < Distance(strings[j], f)
    decreases n
  {
    if n == 1 then 0
    else
      var k := ClosestInPrefix(strings, f, n - 1);
      if Distance(strings[n - 1], f) < Distance(strings[k], f) then n - 1 else k
  }

  /**
   * The index of the first string minimising |frequency − f|; absent only for
   * an empty string list (where the source's force-unwrap would fail).
   */
  function ClosestIndex(strings: seq<TuningString>, f: real): (r: Option<nat>)
    ensures r.None? <==> |strings| == 0
    ensures r.Some? ==> r.value < |strings|
    ensures r.Some? ==> forall j :: 0 <= j < |strings| ==> Distance(strings[r.value], f) <= Distance(strings[j], f)
    ensures r.Some? ==> forall j :: 0 <= j < r.value ==> Distance(strings[r.value], f) < Distance(strings[j], f)
  {
    if |strings| == 0 then None else Some(ClosestInPrefix(strings, f, |strings|))
  }

  /** The first strict minimum is unique, so any index with both properties is the answer. */
  lemma ClosestIndexUnique(strings: seq<TuningString>, f: real, k: nat)
    requires k < |strings|
    requires forall j :: 0 <= j < |strings| ==> Distance(strings[k], f) <= Distance(strings[j], f)
    requires forall j :: 0 <= j < k ==> Distance(strings[k], f) < Distance(strings[j], f)
    ensures ClosestIndex(strings, f) == Some(k)
  {
  }

  /**
   * A match: the closest string's label, its target, the signed deviation
   * f − target in Hz, and the ratio f / target from which the source derives
   * cents as 1200·log2(ratio).
   */
  datatype Match = Match(noteName: string, target: real, deviation: real, ratio: real)

  function MatchFrequency(tuning: GuitarTuning, f: real): (r: Option<Match>)
    requires PositiveFrequencies(tuning.strings)
    ensures r.None? <==> |tuning.strings| == 0
    ensures r.Some? ==> exists k ::
      && 0 <= k < |tuning.strings|
      && ClosestIndex(tuning.strings, f) == Some(k)
      && r.value.noteName == tuning.strings[k].name
      && r.value.target == tuning.strings[k].frequency
    ensures r.Some? ==> r.value.deviation == f - r.value.target
    ensures r.Some? ==> r.value.ratio * r.value.target == f
  {
    match ClosestIndex(tuning.strings, f)
    case None => None
    case Some(k) =>
      var closest := tuning.strings[k];
      Some(Match(closest.name, closest.frequency, f - closest.frequency, f / closest.frequency))
  }

  /** 112 Hz in standard tuning is A2, 2 Hz sharp. */
  lemma StandardA2Example()
    ensures MatchFrequency(StandardE, 112.0).Some?
    ensures MatchFrequency(StandardE, 112.0).value.noteName == "A2"
    ensures MatchFrequency(StandardE, 112.0).value.deviation == 2.0
  {
    LiteralTuningsWellFormed();
    ClosestIndexUnique(StandardE.strings, 112.0, 1);
  }
}
