/**
 * The mock catalogues the two `LearningViewModel` copies load at start-up:
 * the main-module copy (five lessons, four quizzes) and the legacy copy
 * (three lessons, two quizzes). Both feed the same operations in `Learning`.
 */
module LearningData {
  import opened Wrappers
  import opened Learning

  const MainMaterials: seq<LearningMaterial> := [
    LearningMaterial("1", "Основы игры на гитаре", "Изучите правильную посадку, постановку рук и базовые аккорды", "В этом уроке вы изучите:\n• Правильную посадку и постановку рук\n• Основные аккорды: C, D, E, F, G, A, Am, Em\n• Технику перебора струн\n• Базовые упражнения для развития пальцев\n\nВремя изучения: 15-20 минут", Some("chord_basics"), false),
    LearningMaterial("2", "Аккорды и их построение", "Углубитесь в теорию аккордов и научитесь их строить", "В этом уроке вы узнаете:\n• Что такое мажорные и минорные аккорды\n• Как строить аккорды от любой ноты\n• Баррэ - техника зажатия нескольких струн\n• Практические упражнения с аккордами\n\nВремя изучения: 25-30 минут", Some("hand_position"), true),
    LearningMaterial("3", "Ритм и размеры", "Освойте различные ритмические рисунки и размеры", "В этом уроке вы изучите:\n• Размеры 4/4, 3/4, 2/4\n• Различные ритмические рисунки\n• Синкопа и затакт\n• Игра под метроном\n\nВремя изучения: 20-25 минут", Some("rhythm"), false),
    LearningMaterial("4", "Техника медиатора", "Научитесь играть медиатором и освоите различные техники", "В этом уроке вы освоите:\n• Правильное держание медиатора\n• Технику даун-строк и ап-строк\n• Альтернативный штрих\n• Игру аккордов медиатором\n\nВремя изучения: 18-22 минуты", Some("pick_technique"), false),
    LearningMaterial("5", "Простые песни", "Изучите несколько простых песен для практики", "В этом уроке вы разучите:\n• \"В траве сидел кузнечик\" - простая детская песня\n• \"Happy Birthday\" - классика для начинающих\n• \"Звезда по имени Солнце\" - известная композиция\n• Советы по разучиванию песен\n\nВремя изучения: 30-35 минут", Some("simple_songs"), false)
  ]

  const MainQuizzes: seq<Quiz> := [
    Quiz("1", "Основы игры на гитаре", "Проверьте свои знания основ игры на гитаре", [
        QuizQuestion("1", "Какой аккорд состоит из нот C, E, G?", ["C", "D", "E", "F"], 0),
        QuizQuestion("2", "Сколько пальцев используется для аккорда Am?", ["2", "3", "4", "5"], 1),
        QuizQuestion("3", "Какая струна самая толстая на гитаре?", ["1-я", "3-я", "6-я", "4-я"], 2),
        QuizQuestion("4", "Как называется техника игры пальцами без медиатора?", ["Фингерпикинг", "Слайдинг", "Бендинг", "Хаммер-он"], 0)
      ], false),
    Quiz("2", "Аккорды и их построение", "Тест на знание теории аккордов", [
        QuizQuestion("1", "Что означает 4/4 в размере?", ["4 четверти в такте", "4 восьмые в такте", "4 половинные в такте", "4 целые в такте"], 0),
        QuizQuestion("2", "Какой аккорд является минорным?", ["C", "D", "Am", "G"], 2),
        QuizQuestion("3", "Что такое баррэ?", ["Техника игры медиатором", "Зажатие нескольких струн одним пальцем", "Быстрая смена аккордов", "Игра на открытых струнах"], 1)
      ], true),
    Quiz("3", "Ритм и размеры", "Проверьте понимание ритмических основ", [
        QuizQuestion("1", "Какой размер характерен для вальса?", ["4/4", "3/4", "2/4", "6/8"], 1),
        QuizQuestion("2", "Что такое синкопа?", ["Быстрая игра", "Смещение акцента с сильной доли на слабую", "Игра в высоком темпе", "Техника легато"], 1),
        QuizQuestion("3", "Для чего нужен метроном?", ["Для настройки гитары", "Для поддержания ровного темпа", "Для записи музыки", "Для усиления звука"], 1)
      ], false),
    Quiz("4", "Техника медиатора", "Тест на знание техники игры медиатором", [
        QuizQuestion("1", "Как правильно держать медиатор?", ["Между большим и указательным пальцами", "Между указательным и средним", "Между средним и безымянным", "Между безымянным и мизинцем"], 0),
        QuizQuestion("2", "Что такое альтернативный штрих?", ["Игра только вниз", "Игра только вверх", "Чередование ударов вниз и вверх", "Игра с переменной силой"], 2)
      ], false)
  ]

  const LegacyMaterials: seq<LearningMaterial> := [
    LearningMaterial("1", "Урок №1", "Повторите материалы первого урока!", "В этом уроке мы изучим основные аккорды: C, D, E, F, G, A, B...", Some("chord_basics"), false),
    LearningMaterial("2", "Урок №2", "Повторите материалы второго гитарного урока!", "Правильная постановка рук - основа качественной игры...", Some("hand_position"), true),
    LearningMaterial("3", "Урок №3", "Повторите и закрепите все, что было на третьем гитарном уроке!", "Ритм - это основа музыки. В этом уроке мы разберем...", Some("rhythm"), false)
  ]

  const LegacyQuizzes: seq<Quiz> := [
    Quiz("1", "Тест по уроку №1", "Пройдите тест по уроку №1 для закрепления всего, что было на занятии!", [
        QuizQuestion("1", "Какой аккорд состоит из нот C, E, G?", ["C", "D", "E", "F"], 0),
        QuizQuestion("2", "Сколько пальцев используется для аккорда Am?", ["2", "3", "4", "5"], 1)
      ], false),
    Quiz("2", "Тест по уроку №2", "Пройдите тест по уроку №2 для закрепления всего, что было на занятии!", [
        QuizQuestion("1", "Что означает 4/4 в размере?", ["4 четверти в такте", "4 восьмые в такте", "4 половинные в такте", "4 целые в такте"], 0)
      ], true)
  ]

  /** The field `f` of every entry, in catalogue order. */
  function Project<T, U>(xs: seq<T>, f: T -> U): seq<U> {
    seq(|xs|, i requires 0 <= i < |xs| => f(xs[i]))
  }

  function CompletionFlags(materials: seq<LearningMaterial>): seq<bool> {
    Project(materials, (m: LearningMaterial) => m.isCompleted)
  }

  function QuizCompletionFlags(quizzes: seq<Quiz>): seq<bool> {
    Project(quizzes, (q: Quiz) => q.isCompleted)
  }

  function QuestionCounts(quizzes: seq<Quiz>): seq<nat> {
    Project(quizzes, (q: Quiz) => |q.questions|)
  }

  function MaterialIds(materials: seq<LearningMaterial>): seq<string> {
    Project(materials, (m: LearningMaterial) => m.id)
  }

  function QuizIds(quizzes: seq<Quiz>): seq<string> {
    Project(quizzes, (q: Quiz) => q.id)
  }

  /** Ids "1", "2", … in order are pairwise distinct. */
  lemma NumberedIdsDistinct(ids: seq<string>)
    requires |ids| <= 5 && ids == ["1", "2", "3", "4", "5"][..|ids|]
    ensures forall i, j :: 0 <= i < j < |ids| ==> ids[i] != ids[j]
  {
    var all := ["1", "2", "3", "4", "5"];
    forall i, j | 0 <= i < j < |ids|
      ensures ids[i] != ids[j]
    {
      assert ids[i] == all[i] && ids[j] == all[j];
      assert all[i][0] != all[j][0];
    }
  }

  lemma MainIds()
    ensures MaterialIds(MainMaterials) == ["1", "2", "3", "4", "5"]
    ensures QuizIds(MainQuizzes) == ["1", "2", "3", "4"]
    ensures DistinctMaterialIds(MainMaterials) && DistinctQuizIds(MainQuizzes)
  {
    NumberedIdsDistinct(MaterialIds(MainMaterials));
    NumberedIdsDistinct(QuizIds(MainQuizzes));
  }

  /** The main catalogue: five lessons (lesson 2 completed), four quizzes (quiz 2 completed). */
  lemma MainFlags()
    ensures CompletionFlags(MainMaterials) == [false, true, false, false, false]
    ensures QuizCompletionFlags(MainQuizzes) == [false, true, false, false]
    ensures QuestionCounts(MainQuizzes) == [4, 3, 3, 2]
    ensures forall i :: 0 <= i < |MainMaterials| ==> MainMaterials[i].imageName.Some?
  {
  }

  /** Every question of the main catalogue names one of its options as the answer. */
  lemma MainAnswersValid()
    ensures AnswersValid(MainQuizzes)
  {
    forall q, k | 0 <= q < |MainQuizzes| && 0 <= k < |MainQuizzes[q].questions|
      ensures 0 <= MainQuizzes[q].questions[k].correctAnswerIndex < |MainQuizzes[q].questions[k].options|
    {
      assert |MainQuizzes[q].questions[k].options| == 4;
    }
  }

  /** The legacy catalogue: the same invariants over its smaller lists. */
  lemma LegacyDataWellFormed()
    ensures MaterialIds(LegacyMaterials) == ["1", "2", "3"] && QuizIds(LegacyQuizzes) == ["1", "2"]
    ensures DistinctMaterialIds(LegacyMaterials) && DistinctQuizIds(LegacyQuizzes)
    ensures AnswersValid(LegacyQuizzes)
    ensures CompletionFlags(LegacyMaterials) == [false, true, false]
    ensures QuizCompletionFlags(LegacyQuizzes) == [false, true]
    ensures QuestionCounts(LegacyQuizzes) == [2, 1]
  {
    NumberedIdsDistinct(MaterialIds(LegacyMaterials));
    NumberedIdsDistinct(QuizIds(LegacyQuizzes));
  }

  /** Marking a known material sets exactly its completion flag. */
  lemma MarkSetsOneFlag(s: LearningState, id: string, k: nat)
    requires MaterialIndex(s.materials, id) == Some(k)
    ensures CompletionFlags(MarkMaterialAsCompleted(s, id).state.materials) == CompletionFlags(s.materials)[k := true]
  {
  }

  /** Completing lesson 3 of the legacy catalogue sets only its flag. */
  lemma MarkLegacyMaterialExample()
    ensures CompletionFlags(MarkMaterialAsCompleted(Initial(LegacyMaterials, LegacyQuizzes), "3").state.materials)
         == [false, true, true]
  {
    var s := Initial(LegacyMaterials, LegacyQuizzes);
    assert MaterialIndex(s.materials, "3") == Some(2);
    MarkSetsOneFlag(s, "3", 2);
  }

  /** An id missing from the main catalogue changes nothing and notifies nobody. */
  lemma MarkMainUnknownMaterial()
    ensures MarkMaterialAsCompleted(Initial(MainMaterials, MainQuizzes), "9")
         == Step(Initial(MainMaterials, MainQuizzes), [])
  {
    var s := Initial(MainMaterials, MainQuizzes);
    assert MaterialIndex(s.materials, "9").None? by {
      MainIds();
      assert forall i :: 0 <= i < |s.materials| ==> MaterialIds(s.materials)[i] != "9";
    }
  }

  /** Completing quiz 1 of the legacy catalogue leaves both quizzes completed. */
  lemma MarkLegacyQuizExample()
    ensures QuizCompletionFlags(MarkQuizAsCompleted(Initial(LegacyMaterials, LegacyQuizzes), "1").state.quizzes)
         == [true, true]
  {
    var s := Initial(LegacyMaterials, LegacyQuizzes);
    assert QuizIndex(s.quizzes, "1") == Some(0);
  }
}
