/**
 * The static tuning catalog (`GuitarTuningsCatalog`): eight named tunings,
 * each a list of (string label, target frequency in Hz) from the low string
 * to the high one. The derived tunings are built by scaling standard tuning.
 */
module Tunings {

  datatype TuningString = TuningString(name: string, frequency: real)

  datatype GuitarTuning = GuitarTuning(name: string, strings: seq<TuningString>)

  /** Decimal values of pow(2, -1/12), pow(2, -2/12) and pow(2, -4/12). */
  const HalfStepFactor: real := 0.9438743126816935
  const WholeStepFactor: real := 0.8908987181403393
  const MajorThirdFactor: real := 0.7937005259840998

  const StringsPerTuning := 6

  predicate PositiveFrequencies(strings: seq<TuningString>) {
    forall i :: 0 <= i < |strings| ==> strings[i].frequency > 0.0
  }

  /** Strictly rising frequencies from the low string to the high one. */
  predicate Ascending(strings: seq<TuningString>) {
    forall i, j :: 0 <= i < j < |strings| ==> strings[i].frequency < strings[j].frequency
  }

  predicate WellFormed(t: GuitarTuning) {
    |t.strings| == StringsPerTuning && PositiveFrequencies(t.strings) && Ascending(t.strings)
  }

  lemma FactorsOrdered()
    ensures 0.0 < MajorThirdFactor < WholeStepFactor < HalfStepFactor < 1.0
  {
  }

  const StandardStrings: seq<TuningString> := [
    TuningString("E2", 82.41), TuningString("A2", 110.00), TuningString("D3", 146.83),
    TuningString("G3", 196.00), TuningString("B3", 246.94), TuningString("E4", 329.63)
  ]

  const StandardE := GuitarTuning("Стандарт (E A D G B E)", StandardStrings)

  const DropD := GuitarTuning("Drop D", [
    TuningString("D2", 73.42), TuningString("A2", 110.00), TuningString("D3", 146.83),
    TuningString("G3", 196.00), TuningString("B3", 246.94), TuningString("E4", 329.63)
  ])

  const OpenG := GuitarTuning("Open G", [
    TuningString("D2", 73.42), TuningString("G2", 98.00), TuningString("D3", 146.83),
    TuningString("G3", 196.00), TuningString("B3", 246.94), TuningString("D4", 293.66)
  ])

  const OpenD := GuitarTuning("Open D", [
    TuningString("D2", 73.42), TuningString("A2", 110.00), TuningString("D3", 146.83),
    TuningString("F#3", 185.00), TuningString("A3", 220.00), TuningString("D4", 293.66)
  ])

  const OpenE := GuitarTuning("Open E", [
    TuningString("E2", 82.41), TuningString("B2", 123.47), TuningString("E3", 164.81),
    TuningString("G#3", 207.65), TuningString("B3", 246.94), TuningString("E4", 329.63)
  ])

  /**
   * A derived tuning: the i-th base string renamed to names[i] and its
   * frequency scaled by `factor`.
   */
  function Shifted(base: seq<TuningString>, names: seq<string>, factor: real): (r: seq<TuningString>)
    requires |names| == |base|
    ensures |r| == |base|
    ensures forall i :: 0 <= i < |r| ==> r[i].name == names[i]
    ensures forall i :: 0 <= i < |r| ==> r[i].frequency == base[i].frequency * factor
  {
    seq(|base|, i requires 0 <= i < |base| => TuningString(names[i], base[i].frequency * factor))
  }

  /** Scaling by a positive factor keeps frequencies positive and in order. */
  lemma ShiftedPreservesOrder(base: seq<TuningString>, names: seq<string>, factor: real)
    requires |names| == |base|
    requires factor > 0.0
    requires PositiveFrequencies(base) && Ascending(base)
    ensures PositiveFrequencies(Shifted(base, names, factor))
    ensures Ascending(Shifted(base, names, factor))
  {
    var r := Shifted(base, names, factor);
    forall i | 0 <= i < |r| ensures r[i].frequency > 0.0 {
      PositiveProduct(base[i].frequency, factor);
    }
    forall i, j | 0 <= i < j < |r| ensures r[i].frequency < r[j].frequency {
      var a, b := base[i].frequency, base[j].frequency;
      ScaleMonotone(a, b, factor);
    }
  }

  /** A factor below one lowers every string. */
  lemma ShiftedLowersEveryString(base: seq<TuningString>, names: seq<string>, factor: real)
    requires |names| == |base|
    requires 0.0 < factor < 1.0
    requires PositiveFrequencies(base)
    ensures forall i :: 0 <= i < |base| ==> Shifted(base, names, factor)[i].frequency < base[i].frequency
  {
    var r := Shifted(base, names, factor);
    forall i | 0 <= i < |base| ensures r[i].frequency < base[i].frequency {
      var f := base[i].frequency;
      ScaleMonotone(factor, 1.0, f);
      assert factor * f == f * factor;
    }
  }

  lemma PositiveProduct(a: real, b: real)
    requires a > 0.0 && b > 0.0
    ensures a * b > 0.0
  {
  }

  lemma ScaleMonotone(a: real, b: real, factor: real)
    requires a < b && factor > 0.0
    ensures a * factor < b * factor
  {
    assert b * factor - a * factor == (b - a) * factor;
    PositiveProduct(b - a, factor);
  }

  const HalfStepNames: seq<string> := ["D#2", "G#2", "C#3", "F#3", "A#3", "D#4"]
  const WholeStepNames: seq<string> := ["D2", "G2", "C3", "F3", "A3", "D4"]

  const HalfStepDown := GuitarTuning("Полтона вниз (D# Standard)", Shifted(StandardStrings, HalfStepNames, HalfStepFactor))

  const WholeStepDown := GuitarTuning("Тон вниз (D Standard)", Shifted(StandardStrings, WholeStepNames, WholeStepFactor))

  const DropCUpperNames: seq<string> := ["G2", "C3", "F3", "A3", "D4"]

  /**
   * Drop C: the low string is renamed C2 and scaled by `low`; the other five
   * are renamed and scaled by `others`.
   */
  function DropCStrings(base: seq<TuningString>, low: real, others: real): (r: seq<TuningString>)
    requires |base| == StringsPerTuning
    ensures |r| == StringsPerTuning
    ensures r[0] == TuningString("C2", base[0].frequency * low)
    ensures forall i :: 1 <= i < |r| ==> r[i] == TuningString(DropCUpperNames[i - 1], base[i].frequency * others)
  {
    [TuningString("C2", base[0].frequency * low)] + Shifted(base[1..], DropCUpperNames, others)
  }

  /**
   * Lowering the low string by more than the others still leaves it the
   * lowest, so Drop C stays ascending.
   */
  lemma DropCPreservesOrder(base: seq<TuningString>, low: real, others: real)
    requires |base| == StringsPerTuning
    requires 0.0 < low <= others
    requires PositiveFrequencies(base) && Ascending(base)
    ensures PositiveFrequencies(DropCStrings(base, low, others))
    ensures Ascending(DropCStrings(base, low, others))
  {
    var rest := Shifted(base[1..], DropCUpperNames, others);
    ShiftedPreservesOrder(base[1..], DropCUpperNames, others);
    DropCLowStringLowest(base, low, others);
    ConsAscending(TuningString("C2", base[0].frequency * low), rest);
  }

  lemma DropCLowStringLowest(base: seq<TuningString>, low: real, others: real)
    requires |base| == StringsPerTuning
    requires 0.0 < low <= others
    requires PositiveFrequencies(base) && Ascending(base)
    ensures base[0].frequency * low > 0.0
    ensures forall j :: 0 <= j < |base| - 1 ==>
      base[0].frequency * low < Shifted(base[1..], DropCUpperNames, others)[j].frequency
  {
    var a := base[0].frequency;
    var rest := Shifted(base[1..], DropCUpperNames, others);
    PositiveProduct(a, low);
    LowerFactorLowerProduct(a, low, others);
    forall j | 0 <= j < |rest| ensures a * low < rest[j].frequency {
      var b := base[1..][j].frequency;
      ScaleMonotone(a, b, others);
    }
  }

  lemma ConsAscending(first: TuningString, rest: seq<TuningString>)
    requires first.frequency > 0.0 && PositiveFrequencies(rest) && Ascending(rest)
    requires forall j :: 0 <= j < |rest| ==> first.frequency < rest[j].frequency
    ensures PositiveFrequencies([first] + rest) && Ascending([first] + rest)
  {
    var r := [first] + rest;
    forall i, j | 0 <= i < j < |r| ensures r[i].frequency < r[j].frequency {
      assert r[j] == rest[j - 1];
      if i > 0 { assert r[i] == rest[i - 1]; }
    }
    forall i | 0 <= i < |r| ensures r[i].frequency > 0.0 {
      if i > 0 { assert r[i] == rest[i - 1]; }
    }
  }

  lemma LowerFactorLowerProduct(a: real, low: real, others: real)
    requires a > 0.0 && 0.0 < low <= others
    ensures a * low <= a * others
  {
    if low < others {
      ScaleMonotone(low, others, a);
      assert low * a == a * low && others * a == a * others;
    }
  }

  const DropC := GuitarTuning("Drop C", DropCStrings(StandardStrings, MajorThirdFactor, WholeStepFactor))

  /** `GuitarTuningsCatalog.all`, in its listed order. */
  const All: seq<GuitarTuning> := [StandardE, DropD, OpenG, HalfStepDown, WholeStepDown, DropC, OpenD, OpenE]

  lemma LiteralTuningsWellFormed()
    ensures WellFormed(StandardE) && WellFormed(DropD) && WellFormed(OpenG)
    ensures WellFormed(OpenD) && WellFormed(OpenE)
  {
  }

  lemma DerivedTuningsWellFormed()
    ensures WellFormed(HalfStepDown) && WellFormed(WholeStepDown) && WellFormed(DropC)
  {
    LiteralTuningsWellFormed();
    FactorsOrdered();
    ShiftedPreservesOrder(StandardStrings, HalfStepNames, HalfStepFactor);
    ShiftedPreservesOrder(StandardStrings, WholeStepNames, WholeStepFactor);
    DropCPreservesOrder(StandardStrings, MajorThirdFactor, WholeStepFactor);
  }

  /**
   * Every catalog tuning has six strings with positive, strictly rising
   * frequencies; in particular none is empty, which the nearest-string
   * search relies on.
   */
  lemma CatalogWellFormed()
    ensures |All| == 8
    ensures forall k :: 0 <= k < |All| ==> WellFormed(All[k])
  {
    LiteralTuningsWellFormed();
    DerivedTuningsWellFormed();
  }

  lemma CatalogNames()
    ensures |All| == 8
    ensures All[0].name == "Стандарт (E A D G B E)" && All[1].name == "Drop D"
    ensures All[2].name == "Open G" && All[3].name == "Полтона вниз (D# Standard)"
    ensures All[4].name == "Тон вниз (D Standard)" && All[5].name == "Drop C"
    ensures All[6].name == "Open D" && All[7].name == "Open E"
  {
  }
}
