/**
 * `ChordsView`: the built-in chord chart and its search / category /
 * difficulty filter.
 */
module Chords {
  import opened Wrappers
  import Text

  datatype Difficulty = Beginner | Intermediate | Advanced
  datatype Category = Major | Minor | Seventh | Suspended

  /** `fingering` lists one entry per string from low E: -1 muted, 0 open, otherwise the fret. */
  datatype Chord = Chord(name: string, fingering: seq<int>, difficulty: Difficulty, category: Category)

  function DifficultyTitle(d: Difficulty): string {
    match d
    case Beginner => "Начинающий"
    case Intermediate => "Средний"
    case Advanced => "Продвинутый"
  }

  function CategoryTitle(c: Category): string {
    match c
    case Major => "Мажорные"
    case Minor => "Минорные"
    case Seventh => "Септаккорды"
    case Suspended => "Сас-аккорды"
  }

  /** `loadChords`: seven major, six minor, six seventh and six suspended chords. */
  const Catalog: seq<Chord> := [
    Chord("C", [0, 1, 0, 2, 1, 0], Beginner, Major),
    Chord("D", [-1, -1, 0, 2, 3, 2], Beginner, Major),
    Chord("E", [0, 2, 2, 1, 0, 0], Beginner, Major),
    Chord("F", [1, 3, 3, 2, 1, 1], Intermediate, Major),
    Chord("G", [3, 2, 0, 0, 3, 3], Beginner, Major),
    Chord("A", [0, 0, 2, 2, 2, 0], Beginner, Major),
    Chord("B", [2, 4, 4, 3, 2, 2], Intermediate, Major),
    Chord("Am", [0, 1, 2, 2, 1, 0], Beginner, Minor),
    Chord("Dm", [-1, -1, 0, 2, 3, 1], Beginner, Minor),
    Chord("Em", [0, 2, 2, 0, 0, 0], Beginner, Minor),
    Chord("Fm", [1, 3, 3, 1, 1, 1], Intermediate, Minor),
    Chord("Gm", [3, 5, 5, 3, 3, 3], Intermediate, Minor),
    Chord("Bm", [2, 4, 4, 2, 2, 2], Intermediate, Minor),
    Chord("C7", [0, 1, 0, 2, 1, 3], Intermediate, Seventh),
    Chord("D7", [-1, -1, 0, 2, 1, 2], Intermediate, Seventh),
    Chord("E7", [0, 2, 0, 1, 3, 0], Intermediate, Seventh),
    Chord("G7", [3, 2, 0, 0, 0, 1], Intermediate, Seventh),
    Chord("A7", [0, 0, 2, 0, 2, 0], Intermediate, Seventh),
    Chord("B7", [2, 4, 2, 3, 2, 2], Advanced, Seventh),
    Chord("Csus2", [0, 3, 0, 2, 1, 0], Intermediate, Suspended),
    Chord("Csus4", [0, 1, 3, 2, 1, 0], Intermediate, Suspended),
    Chord("Dsus2", [-1, -1, 0, 2, 3, 0], Intermediate, Suspended),
    Chord("Dsus4", [-1, -1, 0, 2, 3, 3], Intermediate, Suspended),
    Chord("Gsus2", [3, 0, 0, 0, 3, 3], Intermediate, Suspended),
    Chord("Gsus4", [3, 2, 0, 0, 1, 3], Intermediate, Suspended)
  ]

  /** The filter controls: the search field's text (absent when the field is empty of text) and the two segment indices. */
  datatype Filters = Filters(searchText: Option<string>, categoryIndex: int, difficultyIndex: int)

  const NoFilters := Filters(None, 0, 0)

  /** Segments 1–3 of the category control pick major, minor, seventh; every other index (0 "all", -1 none) accepts all. */
  predicate MatchesCategory(c: Chord, index: int) {
    if index == 1 then c.category == Major
    else if index == 2 then c.category == Minor
    else if index == 3 then c.category == Seventh
    else true
  }

  predicate MatchesDifficulty(c: Chord, index: int) {
    if index == 1 then c.difficulty == Beginner
    else if index == 2 then c.difficulty == Intermediate
    else if index == 3 then c.difficulty == Advanced
    else true
  }

  /** The search is case-insensitive: both sides are lowercased and an empty search matches everything. */
  predicate MatchesSearch(c: Chord, searchText: Option<string>) {
    var needle := Text.Lower(searchText.GetOr(""));
    |needle| == 0 || Text.Contains(Text.Lower(c.name), needle)
  }

  predicate Matches(c: Chord, f: Filters) {
    MatchesSearch(c, f.searchText) && MatchesCategory(c, f.categoryIndex) && MatchesDifficulty(c, f.difficultyIndex)
  }

  /** `filterChords`: the chords that pass all three tests, in catalogue order. */
  function Filter(chords: seq<Chord>, f: Filters): (r: seq<Chord>)
    ensures |r| <= |chords|
    ensures forall c :: c in r <==> c in chords && Matches(c, f)
    decreases |chords|
  {
    if |chords| == 0 then []
    else
      var rest := Filter(chords[1..], f);
      assert forall c :: c in chords <==> c == chords[0] || c in chords[1..];
      if Matches(chords[0], f) then [chords[0]] + rest else rest
  }

  /** Filtering distributes over concatenation, so the result keeps the catalogue's relative order. */
  lemma {:induction false} FilterAppend(a: seq<Chord>, b: seq<Chord>, f: Filters)
    ensures Filter(a + b, f) == Filter(a, f) + Filter(b, f)
    decreases |a|
  {
    if |a| > 0 {
      assert (a + b)[1..] == a[1..] + b;
      FilterAppend(a[1..], b, f);
    } else {
      assert a + b == b;
    }
  }

  /** Filtering a filtered list with the same controls changes nothing. */
  lemma {:induction false} FilterIdempotent(chords: seq<Chord>, f: Filters)
    ensures Filter(Filter(chords, f), f) == Filter(chords, f)
    decreases |chords|
  {
    if |chords| > 0 {
      FilterIdempotent(chords[1..], f);
      if Matches(chords[0], f) {
        assert ([chords[0]] + Filter(chords[1..], f))[1..] == Filter(chords[1..], f);
      }
    }
  }

  /** A chord survives exactly when every test accepts it (the reference: a chord-wise check). */
  lemma {:induction false} FilterKeepsAllMatching(chords: seq<Chord>, f: Filters)
    requires forall i :: 0 <= i < |chords| ==> Matches(chords[i], f)
    ensures Filter(chords, f) == chords
    decreases |chords|
  {
    if |chords| > 0 {
      FilterKeepsAllMatching(chords[1..], f);
      assert [chords[0]] + chords[1..] == chords;
    }
  }

  /** With no search and both controls on "all", the whole list is shown. */
  lemma NoFiltersShowsAll(chords: seq<Chord>)
    ensures Filter(chords, NoFilters) == chords
    ensures Filter(chords, Filters(Some(""), 0, 0)) == chords
  {
    FilterKeepsAllMatching(chords, NoFilters);
    FilterKeepsAllMatching(chords, Filters(Some(""), 0, 0));
  }

  /** Two control settings that accept the same chords filter every list alike. */
  lemma {:induction false} FilterCongruent(chords: seq<Chord>, f: Filters, g: Filters)
    requires forall i :: 0 <= i < |chords| ==> Matches(chords[i], f) == Matches(chords[i], g)
    ensures Filter(chords, f) == Filter(chords, g)
    decreases |chords|
  {
    if |chords| > 0 {
      FilterCongruent(chords[1..], f, g);
    }
  }

  /** Typing the search in upper or lower case gives the same list. */
  lemma SearchIgnoresCase(chords: seq<Chord>, search: string, categoryIndex: int, difficultyIndex: int)
    ensures Filter(chords, Filters(Some(search), categoryIndex, difficultyIndex))
         == Filter(chords, Filters(Some(Text.Lower(search)), categoryIndex, difficultyIndex))
  {
    Text.LowerIdempotent(search);
    FilterCongruent(chords, Filters(Some(search), categoryIndex, difficultyIndex),
      Filters(Some(Text.Lower(search)), categoryIndex, difficultyIndex));
  }

  /** No category segment selects the suspended chords: they are listed only under "all". */
  lemma SuspendedOnlyUnderAll(chords: seq<Chord>, f: Filters)
    requires 1 <= f.categoryIndex <= 3
    ensures forall c :: c in Filter(chords, f) ==> c.category != Suspended
  {
  }

  /** Every fingering covers the six strings with -1 (muted), 0 (open) or a fret from 1 to 5. */
  predicate FingeringValid(c: Chord) {
    |c.fingering| == 6 && forall k :: 0 <= k < 6 ==> -1 <= c.fingering[k] <= 5
  }

  lemma CatalogWellFormed()
    ensures |Catalog| == 25
    ensures forall i :: 0 <= i < |Catalog| ==> FingeringValid(Catalog[i])
  {
  }

  lemma CatalogNamesDistinct()
    ensures forall i, j :: 0 <= i < j < |Catalog| ==> Catalog[i].name != Catalog[j].name
  {
  }

  function Names(chords: seq<Chord>): (r: seq<string>)
    ensures |r| == |chords|
    ensures forall i :: 0 <= i < |chords| ==> r[i] == chords[i].name
  {
    seq(|chords|, i requires 0 <= i < |chords| => chords[i].name)
  }

  /** A list none of whose chords passes filters to nothing. */
  lemma {:induction false} FilterDropsAllFailing(chords: seq<Chord>, f: Filters)
    requires forall i :: 0 <= i < |chords| ==> !Matches(chords[i], f)
    ensures Filter(chords, f) == []
    decreases |chords|
  {
    if |chords| > 0 {
      FilterDropsAllFailing(chords[1..], f);
    }
  }

  function Categories(chords: seq<Chord>): (r: seq<Category>)
    ensures |r| == |chords|
    ensures forall i :: 0 <= i < |chords| ==> r[i] == chords[i].category
  {
    seq(|chords|, i requires 0 <= i < |chords| => chords[i].category)
  }

  /** The "major" segment lists the seven major chords in catalogue order. */
  lemma MajorSegmentExample()
    ensures Names(Filter(Catalog, Filters(None, 1, 0))) == ["C", "D", "E", "F", "G", "A", "B"]
  {
    var f := Filters(None, 1, 0);
    assert Categories(Catalog) == [Major, Major, Major, Major, Major, Major, Major,
      Minor, Minor, Minor, Minor, Minor, Minor, Seventh, Seventh, Seventh, Seventh, Seventh, Seventh,
      Suspended, Suspended, Suspended, Suspended, Suspended, Suspended];
    assert Names(Catalog)[..7] == ["C", "D", "E", "F", "G", "A", "B"];
    MajorSegmentOf(Catalog);
  }

  lemma MajorSegmentOf(chords: seq<Chord>)
    requires |chords| == 25
    requires forall i :: 0 <= i < 7 ==> Categories(chords)[i] == Major
    requires forall i :: 7 <= i < 25 ==> Categories(chords)[i] != Major
    ensures Filter(chords, Filters(None, 1, 0)) == chords[..7]
  {
    var f := Filters(None, 1, 0);
    var majors, others := chords[..7], chords[7..];
    assert chords == majors + others;
    FilterAppend(majors, others, f);
    forall i | 0 <= i < |majors| ensures Matches(majors[i], f) {
      assert majors[i] == chords[i] && Categories(chords)[i] == Major;
      CategoryOnly(majors[i], 1);
    }
    FilterKeepsAllMatching(majors, f);
    forall i | 0 <= i < |others| ensures !Matches(others[i], f) {
      assert others[i] == chords[i + 7] && Categories(chords)[i + 7] != Major;
      CategoryOnly(others[i], 1);
    }
    FilterDropsAllFailing(others, f);
  }

  /** Without a search text and with every difficulty, only the category decides. */
  lemma CategoryOnly(c: Chord, index: int)
    ensures Matches(c, Filters(None, index, 0)) == MatchesCategory(c, index)
  {
    assert Text.Lower("") == "";
  }

  /** The label under one string of the fingering diagram. */
  datatype FretLabel = Muted | Open | Fret(number: int)

  function FretLabelOf(fret: int): (r: FretLabel)
    ensures r == Muted <==> fret == -1
    ensures r == Open <==> fret == 0
    ensures r.Fret? ==> r.number == fret && fret != -1 && fret != 0
  {
    if fret == -1 then Muted else if fret == 0 then Open else Fret(fret)
  }
}
