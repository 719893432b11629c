/** The aggregator `get_overall_assessment`: maps the total score and the
    number of counted indicators to one of four fixed verdicts. */
module Overall {
  import opened Indicator

  /** The (label, colour class, explanation) triple the source returns. */
  datatype Assessment = Assessment(headline: string, colorClass: ColorClass, explanation: string)

  const InsufficientData := Assessment(
    "데이터 부족", Neutral, "분석할 수 있는 유효한 데이터가 부족합니다.")
  const PositiveMood := Assessment(
    "시장 분위기: 긍정적 요소 우세 😊", Positive,
    "종합적으로 긍정적인 신호들이 더 많이 보여요. 하지만 항상 변동성에 대비하는 자세가 중요합니다!")
  const NegativeMood := Assessment(
    "시장 분위기: 부정적 요소 우세 😟", Negative,
    "주의가 필요한 신호들이 상대적으로 많아 보입니다. 투자 결정을 내릴 때 더 신중하게 접근하는 것이 좋겠어요.")
  const MixedMood := Assessment(
    "시장 분위기: 중립적 / 혼조 🤔", Neutral,
    "긍정적인 신호와 부정적인 신호가 혼재되어 있어 방향성을 예측하기 어려운 시기일 수 있습니다.")

  /** `max(2, n // 4)`. Python's `//` floors; for the divisor 4 Dafny's
      Euclidean `/` is the same. */
  function Threshold(n: int): (k: int)
    ensures k >= 2 && 4 * k <= (if n < 8 then 8 else n)
    ensures n >= 8 ==> n < 4 * (k + 1)
  {
    if 2 >= n / 4 then 2 else n / 4
  }

  /** `get_overall_assessment(total_score, num_indicators)`. */
  function OverallAssessment(total: int, n: int): (a: Assessment)
    ensures n == 0 ==> a == InsufficientData
    ensures n != 0 ==> a in {PositiveMood, NegativeMood, MixedMood}
    ensures n != 0 ==> (a == PositiveMood <==> total >= Threshold(n))
    ensures n != 0 ==> (a == NegativeMood <==> total <= -Threshold(n))
    ensures a.colorClass != Error
  {
    if n == 0 then InsufficientData
    else
      var k := Threshold(n);
      if total >= k then PositiveMood
      else if total <= -k then NegativeMood
      else MixedMood
  }

  /** The verdicts in order: negative below neutral below positive. */
  function Rank(c: ColorClass): int {
    match c
    case Negative => 0
    case Neutral => 1
    case Positive => 2
    case Error => 1
  }

  /** Raising the total score never lowers the verdict. */
  lemma MonotoneInTotal(t1: int, t2: int, n: int)
    requires t1 <= t2
    ensures Rank(OverallAssessment(t1, n).colorClass) <= Rank(OverallAssessment(t2, n).colorClass)
  {
  }

  /** The verdict is symmetric: negating the total swaps positive and
      negative. */
  lemma Symmetric(t: int, n: int)
    ensures OverallAssessment(t, n) == PositiveMood <==> OverallAssessment(-t, n) == NegativeMood
  {
  }

  /** With eight counted indicators a total of 2 is already positive: the
      threshold is inclusive. */
  lemma EightIndicatorsBoundary()
    ensures OverallAssessment(2, 8) == PositiveMood
    ensures OverallAssessment(1, 8) == MixedMood
    ensures OverallAssessment(-2, 8) == NegativeMood
  {
  }
}
