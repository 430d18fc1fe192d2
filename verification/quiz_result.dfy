/**
 * `QuizResultView.showResult`: the percentage of correct answers picks one
 * of three grades, each with its own icon, title and colours.
 */
module QuizResult {
  import opened Wrappers
  import Text

  datatype Grade = Excellent | Good | TryAgain

  datatype Colour = SystemYellow | SystemGreen | SystemOrange

  datatype ResultScreen = ResultScreen(
    grade: Grade,
    icon: string,
    iconTint: Colour,
    title: string,
    titleColour: Colour,
    scoreText: string,
    description: string)

  const ExcellentPercent := 80
  const GoodPercent := 60

  /**
   * Swift's `Int` division, which truncates toward zero (Dafny's `/` is
   * Euclidean): the magnitude of the quotient is the floor of |a| / |b|
   * (on naturals Dafny's `/` is the floor), and its sign is the sign of a·b.
   */
  function TruncDiv(a: int, b: int): (q: int)
    requires b != 0
    ensures Magnitude(q) == Magnitude(a) / Magnitude(b)
    ensures (a >= 0) == (b > 0) || a == 0 ==> q >= 0
    ensures (a <= 0) == (b > 0) || a == 0 ==> q <= 0
    ensures a >= 0 && b > 0 ==> q * b <= a < (q + 1) * b
  {
    var n, d := Magnitude(a), Magnitude(b);
    var m := n / d;
    DivisionBounds(n, d);
    assert m >= 0;
    if (a < 0) == (b < 0) then
      assert Magnitude(m) == m;
      m
    else
      assert Magnitude(-m) == m;
      -m
  }

  lemma DivisionBounds(n: nat, d: nat)
    requires d > 0
    ensures (n / d) * d <= n < (n / d + 1) * d
  {
  }

  /** Truncation is symmetric: negating either operand negates the quotient. */
  lemma TruncDivSymmetric(a: int, b: int)
    requires b != 0
    ensures TruncDiv(-a, b) == -TruncDiv(a, b)
    ensures TruncDiv(a, -b) == -TruncDiv(a, b)
  {
  }

  /** `(score * 100) / total`; a zero total would trap, so callers must not pass one. */
  function Percentage(score: int, total: int): (p: int)
    requires total != 0
    ensures 0 <= score && 0 < total ==> p * total <= score * 100 < (p + 1) * total
    ensures 0 <= score <= total ==> 0 <= p <= 100
  {
    if 0 <= score <= total then
      PercentageAtMostHundred(score, total);
      TruncDiv(score * 100, total)
    else
      TruncDiv(score * 100, total)
  }

  lemma PercentageAtMostHundred(score: int, total: int)
    requires 0 <= score <= total && 0 < total
    ensures TruncDiv(score * 100, total) <= 100
  {
    FloorThreshold(score * 100, total, TruncDiv(score * 100, total), 101);
  }

  function GradeOf(percentage: int): (g: Grade)
    ensures g == Excellent <==> percentage >= ExcellentPercent
    ensures g == Good <==> GoodPercent <= percentage < ExcellentPercent
    ensures g == TryAgain <==> percentage < GoodPercent
  {
    if percentage >= ExcellentPercent then Excellent
    else if percentage >= GoodPercent then Good
    else TryAgain
  }

  function DescriptionText(score: int, total: int): string
  {
    "Вы ответили правильно на " + Text.IntToString(score) + " из " + Text.IntToString(total) + " вопросов"
  }

  function ShowResult(score: int, total: int): (r: ResultScreen)
    requires total != 0
    ensures r.grade == GradeOf(Percentage(score, total))
    ensures r.grade == Excellent ==> r.icon == "star.fill" && r.iconTint == SystemYellow && r.title == "Отлично!" && r.titleColour == SystemGreen
    ensures r.grade == Good ==> r.icon == "checkmark.circle.fill" && r.iconTint == SystemGreen && r.title == "Хорошо!" && r.titleColour == SystemGreen
    ensures r.grade == TryAgain ==> r.icon == "exclamationmark.triangle.fill" && r.iconTint == SystemOrange && r.title == "Попробуйте еще раз" && r.titleColour == SystemOrange
    ensures Text.ParseFraction(r.scoreText) == Some((score, total))
    ensures r.description == DescriptionText(score, total)
  {
    var grade := GradeOf(Percentage(score, total));
    var scoreText := Text.FractionText(score, total);
    var description := DescriptionText(score, total);
    match grade
    case Excellent => ResultScreen(grade, "star.fill", SystemYellow, "Отлично!", SystemGreen, scoreText, description)
    case Good => ResultScreen(grade, "checkmark.circle.fill", SystemGreen, "Хорошо!", SystemGreen, scoreText, description)
    case TryAgain => ResultScreen(grade, "exclamationmark.triangle.fill", SystemOrange, "Попробуйте еще раз", SystemOrange, scoreText, description)
  }

  /** The grade thresholds restated without the truncating division: 80% means `5 * score >= 4 * total`. */
  lemma GradeByRatio(score: int, total: int)
    requires 0 <= score && 0 < total
    ensures ShowResult(score, total).grade == Excellent <==> 5 * score >= 4 * total
    ensures ShowResult(score, total).grade == TryAgain <==> 5 * score < 3 * total
  {
    var p := Percentage(score, total);
    FloorThreshold(score * 100, total, p, 80);
    FloorThreshold(score * 100, total, p, 60);
  }

  /** For `p` the floor of `a / t`: `p >= k` exactly when `a >= k * t`. */
  lemma FloorThreshold(a: int, t: int, p: int, k: int)
    requires 0 < t && p * t <= a < (p + 1) * t
    ensures p >= k <==> a >= k * t
  {
    if p >= k {
      var d := p - k;
      assert d * t >= 0;
      assert p * t == k * t + d * t;
    } else {
      var d := k - (p + 1);
      assert d * t >= 0;
      assert k * t == (p + 1) * t + d * t;
    }
  }

  function Rank(g: Grade): nat {
    match g
    case TryAgain => 0
    case Good => 1
    case Excellent => 2
  }

  /** More correct answers out of the same total never earn a lower grade. */
  lemma GradeMonotone(s1: int, s2: int, total: int)
    requires 0 <= s1 <= s2 && 0 < total
    ensures Rank(ShowResult(s1, total).grade) <= Rank(ShowResult(s2, total).grade)
  {
    GradeByRatio(s1, total);
    GradeByRatio(s2, total);
  }

  /** 4 of 5 is exactly 80% and already excellent; 2 of 3 truncates to 66% and is good; 1 of 2 asks to retry. */
  lemma GradeExamples()
    ensures Percentage(4, 5) == 80 && ShowResult(4, 5).grade == Excellent
    ensures Percentage(2, 3) == 66 && ShowResult(2, 3).grade == Good
    ensures ShowResult(1, 2).grade == TryAgain
  {
  }
}
