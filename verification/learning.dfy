/**
 * `LearningViewModel` (the two copies in the repository share this logic
 * and differ only in their mock data): materials and quizzes with a
 * completion flag, marked completed by id.
 */
module Learning {
  import opened Wrappers

  datatype LearningMaterial = LearningMaterial(
    id: string,
    title: string,
    description: string,
    content: string,
    imageName: Option<string>,
    isCompleted: bool)

  datatype QuizQuestion = QuizQuestion(id: string, question: string, options: seq<string>, correctAnswerIndex: int)

  datatype Quiz = Quiz(id: string, title: string, description: string, questions: seq<QuizQuestion>, isCompleted: bool)

  datatype LearningEvent = MaterialsUpdated | QuizzesUpdated | PresentQuiz(quiz: Quiz)

  datatype LearningState = LearningState(materials: seq<LearningMaterial>, quizzes: seq<Quiz>, selectedSegmentIndex: int)

  /** The state after an operation, and the delegate events it emitted. */
  datatype Step = Step(state: LearningState, events: seq<LearningEvent>)

  /** `firstIndex(where:)`. */
  function FirstIndex<T>(xs: seq<T>, p: T -> bool): (r: Option<nat>)
    ensures r.Some? ==> r.value < |xs| && p(xs[r.value])
    ensures r.Some? ==> forall j :: 0 <= j < r.value ==> !p(xs[j])
    ensures r.None? <==> forall j :: 0 <= j < |xs| ==> !p(xs[j])
  {
    if |xs| == 0 then None
    else if p(xs[0]) then Some(0)
    else match FirstIndex(xs[1..], p)
      case None => None
      case Some(k) => Some(k + 1)
  }

  function MaterialIndex(materials: seq<LearningMaterial>, id: string): Option<nat> {
    FirstIndex(materials, (m: LearningMaterial) => m.id == id)
  }

  function QuizIndex(quizzes: seq<Quiz>, id: string): Option<nat> {
    FirstIndex(quizzes, (q: Quiz) => q.id == id)
  }

  /** `init`: the mock lists, first segment selected. */
  function Initial(materials: seq<LearningMaterial>, quizzes: seq<Quiz>): (r: LearningState)
    ensures r.materials == materials && r.quizzes == quizzes && r.selectedSegmentIndex == 0
  {
    LearningState(materials, quizzes, 0)
  }

  /** `selectSegment(at:)`: stored as given, with no bounds check. */
  function SelectSegment(s: LearningState, index: int): (r: LearningState)
    ensures r.selectedSegmentIndex == index
    ensures r.materials == s.materials && r.quizzes == s.quizzes
  {
    s.(selectedSegmentIndex := index)
  }

  /** `loadMaterials` / `loadQuizzes` / `startQuiz`: one notification, no change. */
  function LoadMaterials(s: LearningState): (r: Step)
    ensures r.state == s && r.events == [MaterialsUpdated]
  {
    Step(s, [MaterialsUpdated])
  }

  function LoadQuizzes(s: LearningState): (r: Step)
    ensures r.state == s && r.events == [QuizzesUpdated]
  {
    Step(s, [QuizzesUpdated])
  }

  function StartQuiz(s: LearningState, quiz: Quiz): (r: Step)
    ensures r.state == s && r.events == [PresentQuiz(quiz)]
  {
    Step(s, [PresentQuiz(quiz)])
  }

  /**
   * `markMaterialAsCompleted`: the first material with the id becomes
   * completed and everything else stays as it was; an unknown id is ignored
   * silently.
   */
  function MarkMaterialAsCompleted(s: LearningState, id: string): (r: Step)
    ensures MaterialIndex(s.materials, id).None? ==> r == Step(s, [])
    ensures MaterialIndex(s.materials, id).Some? ==>
      var k := MaterialIndex(s.materials, id).value;
      && |r.state.materials| == |s.materials|
      && r.state.materials[k] == s.materials[k].(isCompleted := true)
      && (forall i :: 0 <= i < |s.materials| && i != k ==> r.state.materials[i] == s.materials[i])
      && (forall i :: 0 <= i < k ==> s.materials[i].id != id)
      && r.state.quizzes == s.quizzes
      && r.state.selectedSegmentIndex == s.selectedSegmentIndex
      && r.events == [MaterialsUpdated]
  {
    match MaterialIndex(s.materials, id)
    case None => Step(s, [])
    case Some(k) =>
      var material := s.materials[k];
      Step(s.(materials := s.materials[k := material.(isCompleted := true)]), [MaterialsUpdated])
  }

  /** `markQuizAsCompleted`: the same for quizzes; the questions are kept as they are. */
  function MarkQuizAsCompleted(s: LearningState, id: string): (r: Step)
    ensures QuizIndex(s.quizzes, id).None? ==> r == Step(s, [])
    ensures QuizIndex(s.quizzes, id).Some? ==>
      var k := QuizIndex(s.quizzes, id).value;
      && |r.state.quizzes| == |s.quizzes|
      && r.state.quizzes[k] == s.quizzes[k].(isCompleted := true)
      && r.state.quizzes[k].questions == s.quizzes[k].questions
      && (forall i :: 0 <= i < |s.quizzes| && i != k ==> r.state.quizzes[i] == s.quizzes[i])
      && (forall i :: 0 <= i < k ==> s.quizzes[i].id != id)
      && r.state.materials == s.materials
      && r.state.selectedSegmentIndex == s.selectedSegmentIndex
      && r.events == [QuizzesUpdated]
  {
    match QuizIndex(s.quizzes, id)
    case None => Step(s, [])
    case Some(k) =>
      var quiz := s.quizzes[k];
      Step(s.(quizzes := s.quizzes[k := quiz.(isCompleted := true)]), [QuizzesUpdated])
  }

  /** Two lists whose elements satisfy the two predicates pointwise alike have the same first match. */
  lemma {:induction false} FirstIndexCongruent<T, U>(a: seq<T>, p: T -> bool, b: seq<U>, q: U -> bool)
    requires |a| == |b|
    requires forall i :: 0 <= i < |a| ==> p(a[i]) == q(b[i])
    ensures FirstIndex(a, p) == FirstIndex(b, q)
  {
    if |a| > 0 && !p(a[0]) {
      FirstIndexCongruent(a[1..], p, b[1..], q);
    }
  }

  /** Marking keeps every id in place, so any material is found at the same index afterwards. */
  lemma MarkMaterialKeepsIds(s: LearningState, id: string, other: string)
    ensures MaterialIndex(MarkMaterialAsCompleted(s, id).state.materials, other) == MaterialIndex(s.materials, other)
  {
    var after := MarkMaterialAsCompleted(s, id).state.materials;
    FirstIndexCongruent(after, (m: LearningMaterial) => m.id == other, s.materials, (m: LearningMaterial) => m.id == other);
  }

  /** Marking keeps every quiz id in place. */
  lemma MarkQuizKeepsIds(s: LearningState, id: string, other: string)
    ensures QuizIndex(MarkQuizAsCompleted(s, id).state.quizzes, other) == QuizIndex(s.quizzes, other)
  {
    var after := MarkQuizAsCompleted(s, id).state.quizzes;
    FirstIndexCongruent(after, (q: Quiz) => q.id == other, s.quizzes, (q: Quiz) => q.id == other);
  }

  /** Marking the same material twice leaves the list as marking it once. */
  lemma MarkMaterialIdempotent(s: LearningState, id: string)
    ensures MarkMaterialAsCompleted(MarkMaterialAsCompleted(s, id).state, id).state
         == MarkMaterialAsCompleted(s, id).state
  {
    var once := MarkMaterialAsCompleted(s, id).state;
    MarkMaterialKeepsIds(s, id, id);
    var twice := MarkMaterialAsCompleted(once, id).state;
    if MaterialIndex(s.materials, id).Some? {
      assert twice.materials == once.materials;
    }
  }

  /** Marking the same quiz twice leaves the list as marking it once. */
  lemma MarkQuizIdempotent(s: LearningState, id: string)
    ensures MarkQuizAsCompleted(MarkQuizAsCompleted(s, id).state, id).state
         == MarkQuizAsCompleted(s, id).state
  {
    var once := MarkQuizAsCompleted(s, id).state;
    MarkQuizKeepsIds(s, id, id);
    var twice := MarkQuizAsCompleted(once, id).state;
    if QuizIndex(s.quizzes, id).Some? {
      assert twice.quizzes == once.quizzes;
    }
  }

  predicate DistinctMaterialIds(materials: seq<LearningMaterial>) {
    forall i, j :: 0 <= i < j < |materials| ==> materials[i].id != materials[j].id
  }

  predicate DistinctQuizIds(quizzes: seq<Quiz>) {
    forall i, j :: 0 <= i < j < |quizzes| ==> quizzes[i].id != quizzes[j].id
  }

  /** Every question's correct answer is one of its options. */
  predicate AnswersValid(quizzes: seq<Quiz>) {
    forall q, k :: 0 <= q < |quizzes| && 0 <= k < |quizzes[q].questions| ==>
      0 <= quizzes[q].questions[k].correctAnswerIndex < |quizzes[q].questions[k].options|
  }
}
