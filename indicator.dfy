/** The indicator classifier `analyze_indicator` of the market dashboard:
    it maps an indicator's name, its raw value and the fetcher's error
    message to a display value, a status, a score in {-1, 0, 1}, a colour
    class, an error and an explanation. */
module Indicator {
  import opened Wrappers

  /** The raw value handed to the classifier: Python's `None`, a finite
      value that `float()` accepts (numeric strings included, kept as the
      real it converts to), or a value that `float()` rejects (kept as its
      text). A numeric string is always a `Num`, never an `Unparsable`. */
  datatype Value = Absent | Num(x: real) | Unparsable(text: string)

  /** The display string. The exact decimal rendering is kept symbolic:
      `Fixed(x, n)` stands for `f"{x:.nf}"` and `Repr(x)` for `str(x)`;
      neither is ever one of the sentinel texts "N/A" and "오류". */
  datatype Display = Text(s: string) | Fixed(x: real, places: nat) | Repr(x: real)

  /** The `color_class` of a result. */
  datatype ColorClass = Positive | Neutral | Negative | Error

  /** The record `analyze_indicator` returns. */
  datatype Analysis = Analysis(
    value: Display,
    status: string,
    score: int,
    colorClass: ColorClass,
    error: Option<string>,
    explanation: string)

  /** The outcome of one threshold table: status, score and colour. */
  datatype Band = Band(status: string, score: int, colorClass: ColorClass)

  // Indicator names the classifier tests for.
  const MarketPE := "Market P/E"
  const IsmPmi := "ISM PMI"
  const MarketTrend := "Market Trend (MA)"
  const MarketBreadth := "Market Breadth (RSP vs SPY)"
  const OilTrend := "Oil Trend (USO)"
  const GoldTrend := "Gold Trend (GLD)"

  // Display sentinels.
  const NotAvailable := "N/A"
  const ErrorMark := "오류"

  // Statuses.
  const NoData := "데이터 없음"
  const Unknown := "알 수 없음"
  const ErrorPrefix := "오류: "
  const FormatErrorPrefix := "값 형식 오류: "
  const PEUndervalued := "긍정적 (저평가 경향)"
  const PEOvervalued := "부정적 (고평가 경향)"
  const PENeutral := "중립적"
  const PmiStrongExpansion := "긍정적 (제조업 확장 강함)"
  const PmiContraction := "부정적 (제조업 위축)"
  const PmiWeakExpansion := "중립적 (제조업 확장 약함)"
  const PmiWeakContraction := "중립적 (제조업 위축 약함)"

  // Explanations.
  const ErrorExplanation := "데이터 오류가 발생했어요."
  const NoDataExplanation := "관련 데이터를 찾을 수 없어요."
  const UnknownExplanation := "이 지표 설명을 찾을 수 없어요."
  const FormatErrorExplanation := "데이터 형식을 이해할 수 없어요."
  const PEExplanation := "시장의 '가격표'가 이익에 비해 얼마나 비싼지 보는 거예요. 높으면 비싸다는 신호일 수 있어요."
  const PmiExplanation := "공장(제조업)들이 얼마나 바쁘게 돌아가는지 알려주는 지표예요. 50보다 높으면 경기가 좋아지고 있다는 뜻이에요."

  /** The four trend/breadth indicators, which derive their signal from
      extra fields rather than from `value`. */
  predicate IsTrendName(name: string) {
    name in {MarketTrend, MarketBreadth, OilTrend, GoldTrend}
  }

  /** Python truthiness of an optional error message: `None` and the empty
      string are false. */
  predicate Truthy(e: Option<string>) {
    e.Some? && |e.value| > 0
  }

  /** The display sentinels the counting loop treats as "no value". */
  predicate IsSentinel(d: Display) {
    d == Text(NotAvailable) || d == Text(ErrorMark)
  }

  /** `float(value)`: succeeds exactly on numeric values; otherwise raises
      a `TypeError` or `ValueError` whose text is not empty. */
  function ToFloat(v: Value): (r: Result<real>)
    ensures r.Ok? <==> v.Num?
    ensures v.Num? ==> r.value == v.x
    ensures r.Err? ==> |r.message| > 0
  {
    match v
    case Num(x) => Ok(x)
    case Absent => Err("float() argument must be a string or a real number, not 'NoneType'")
    case Unparsable(t) => Err("could not convert string to float: '" + t + "'")
  }

  /** `str(value) if value is not None else 'N/A'`. */
  function Shown(v: Value): (d: Display)
    ensures IsSentinel(d) <==> v.Absent? || (v.Unparsable? && v.text in {NotAvailable, ErrorMark})
  {
    match v
    case Absent => Text(NotAvailable)
    case Num(x) => Repr(x)
    case Unparsable(t) => Text(t)
  }

  /** The "Market P/E" threshold table: below 18 is undervalued, above 25
      overvalued, and 18 to 25 inclusive neutral. */
  function PriceEarningsBand(v: real): (b: Band)
    ensures v < 18.0 <==> b.score == 1 && b.colorClass == Positive
    ensures v > 25.0 <==> b.score == -1 && b.colorClass == Negative
    ensures 18.0 <= v <= 25.0 <==> b.score == 0 && b.colorClass == Neutral
    ensures b.status in {PEUndervalued, PEOvervalued, PENeutral}
    ensures (b.status == PEUndervalued <==> b.score == 1) && (b.status == PEOvervalued <==> b.score == -1)
    ensures b.status != NoData
  {
    if v < 18.0 then Band(PEUndervalued, 1, Positive)
    else if v > 25.0 then Band(PEOvervalued, -1, Negative)
    else Band(PENeutral, 0, Neutral)
  }

  /** The "ISM PMI" threshold table: four disjoint bands covering every
      real, two of them neutral with different statuses. */
  function PmiBand(v: real): (b: Band)
    ensures v > 55.0 <==> b.status == PmiStrongExpansion
    ensures v < 48.0 <==> b.status == PmiContraction
    ensures 50.0 <= v <= 55.0 <==> b.status == PmiWeakExpansion
    ensures 48.0 <= v < 50.0 <==> b.status == PmiWeakContraction
    ensures b.score == 1 <==> v > 55.0
    ensures b.score == -1 <==> v < 48.0
    ensures b.score == 0 <==> 48.0 <= v <= 55.0
    ensures b.colorClass == (if b.score == 1 then Positive else if b.score == -1 then Negative else Neutral)
    ensures b.status != NoData
  {
    if v > 55.0 then Band(PmiStrongExpansion, 1, Positive)
    else if v < 48.0 then Band(PmiContraction, -1, Negative)
    else if v >= 50.0 then Band(PmiWeakExpansion, 0, Neutral)
    else Band(PmiWeakContraction, 0, Neutral)
  }

  /** The invariant every result of the classifier keeps: the score is in
      {-1, 0, 1}; the colour is 'error' exactly when the result carries a
      truthy error, and then the display is "오류" and the score 0; the
      no-data status scores 0. */
  predicate Consistent(r: Analysis) {
    -1 <= r.score <= 1
    && (r.colorClass == Error <==> Truthy(r.error))
    && (r.colorClass == Error ==> r.value == Text(ErrorMark) && r.score == 0)
    && (r.status == NoData ==> r.score == 0)
  }

  /** The result of a `ValueError`/`TypeError` raised while converting the
      value: the exception text becomes the error and follows the
      format-error prefix in the status. */
  function FormatFailure(message: string): (r: Analysis)
    requires |message| > 0
    ensures Consistent(r) && r.colorClass == Error
    ensures r.error == Some(message)
    ensures |r.status| == |FormatErrorPrefix| + |message|
    ensures r.status[..|FormatErrorPrefix|] == FormatErrorPrefix && r.status[|FormatErrorPrefix|..] == message
  {
    Analysis(Text(ErrorMark), FormatErrorPrefix + message, 0, Error, Some(message), FormatErrorExplanation)
  }

  /** The error bucket, entered with a truthy error message: the message
      is kept as the error and follows the error prefix in the status. */
  function ErrorBucket(message: string): (r: Analysis)
    requires |message| > 0
    ensures Consistent(r) && r.colorClass == Error
    ensures r.error == Some(message)
    ensures |r.status| == |ErrorPrefix| + |message|
    ensures r.status[..|ErrorPrefix|] == ErrorPrefix && r.status[|ErrorPrefix|..] == message
  {
    Analysis(Text(ErrorMark), ErrorPrefix + message, 0, Error, Some(message), ErrorExplanation)
  }

  /** The no-data bucket, entered when the error message is not truthy:
      a neutral "N/A" that scores 0 and passes the message through. */
  function NoDataBucket(errorMsg: Option<string>): (r: Analysis)
    requires !Truthy(errorMsg)
    ensures Consistent(r) && r.colorClass == Neutral && r.score == 0
    ensures r.status == NoData && IsSentinel(r.value) && r.error == errorMsg
  {
    Analysis(Text(NotAvailable), NoData, 0, Neutral, errorMsg, NoDataExplanation)
  }

  /** The `try` block: the per-name threshold tables, the unknown-name
      fallback and the conversion failure. */
  function Evaluate(name: string, value: Value, errorMsg: Option<string>): (c: Analysis)
    ensures -1 <= c.score <= 1 && c.status != NoData
    ensures c.colorClass == Error <==> (name == MarketPE || name == IsmPmi) && !value.Num?
    ensures c.colorClass == Error ==> Truthy(c.error) && c.value == Text(ErrorMark) && c.score == 0
    ensures c.colorClass != Error ==> c.error == errorMsg
    // a numeric P/E takes its band from the P/E table, shown to 2 places
    ensures name == MarketPE && value.Num? ==>
      var b := PriceEarningsBand(value.x);
      c.value == Fixed(value.x, 2) && c.status == b.status && c.score == b.score
      && c.colorClass == b.colorClass && c.error == errorMsg
    // a numeric PMI takes its band from the PMI table, shown to 1 place
    ensures name == IsmPmi && value.Num? ==>
      var b := PmiBand(value.x);
      c.value == Fixed(value.x, 1) && c.status == b.status && c.score == b.score
      && c.colorClass == b.colorClass && c.error == errorMsg
    // every other name is unknown and shows `str(value)`
    ensures name != MarketPE && name != IsmPmi ==>
      c.status == Unknown && c.value == Shown(value) && c.colorClass == Neutral && c.score == 0
  {
    if name == MarketPE then
      match ToFloat(value)
      case Err(e) => FormatFailure(e)
      case Ok(v) =>
        var b := PriceEarningsBand(v);
        Analysis(Fixed(v, 2), b.status, b.score, b.colorClass, errorMsg, PEExplanation)
    else if name == IsmPmi then
      match ToFloat(value)
      case Err(e) => FormatFailure(e)
      case Ok(v) =>
        var b := PmiBand(v);
        Analysis(Fixed(v, 1), b.status, b.score, b.colorClass, errorMsg, PmiExplanation)
    else
      Analysis(Shown(value), Unknown, 0, Neutral, errorMsg, UnknownExplanation)
  }

  /** The branch chain of `analyze_indicator`, before the final score clamp:
      every result is consistent, and outside the error paths the error
      message passes through unchanged. */
  function Classify(name: string, value: Value, errorMsg: Option<string>): (c: Analysis)
    ensures Consistent(c)
    ensures c.colorClass != Error ==> c.error == errorMsg
    ensures Truthy(errorMsg) ==> c == ErrorBucket(errorMsg.value)
    ensures !Truthy(errorMsg) && value.Absent? && !IsTrendName(name) ==> c.status == NoData
    ensures !Truthy(errorMsg) && !(value.Absent? && !IsTrendName(name)) ==> c.status != NoData
  {
    if Truthy(errorMsg) then ErrorBucket(errorMsg.value)
    else if value.Absent? && !IsTrendName(name) then NoDataBucket(errorMsg)
    else Evaluate(name, value, errorMsg)
  }

  /** `analyze_indicator(name, value, error_msg, **kwargs)`. The extra
      fields are read by the source but used by no branch, so the result
      does not depend on `kwargs`. */
  function Analyze(name: string, value: Value, errorMsg: Option<string>, kwargs: map<string, Value>): (r: Analysis)
    // the score is a verdict in {-1, 0, 1}, and 0 for errors and missing data
    ensures -1 <= r.score <= 1
    ensures Truthy(r.error) || r.status == NoData ==> r.score == 0
    ensures name != MarketPE && name != IsmPmi ==> r.score == 0
    // the colour is 'error' exactly when the result carries a (truthy) error
    ensures r.colorClass == Error <==> Truthy(r.error)
    ensures r.colorClass == Error ==> r.value == Text(ErrorMark)
    // the error bucket, whatever the value and extra fields
    ensures Truthy(errorMsg) ==>
      r.status == ErrorPrefix + errorMsg.value && r.value == Text(ErrorMark) && r.colorClass == Error
      && r.score == 0 && r.error == errorMsg
    // the no-data bucket, for every name but the trend/breadth ones
    ensures !Truthy(errorMsg) && value.Absent? && !IsTrendName(name) ==>
      r.status == NoData && r.value == Text(NotAvailable) && r.colorClass == Neutral
      && r.score == 0 && r.error == errorMsg
    // the trend/breadth names fall through to the unknown-name bucket
    ensures !Truthy(errorMsg) && value.Absent? && IsTrendName(name) ==>
      r.status == Unknown && r.value == Text(NotAvailable) && r.colorClass == Neutral
      && r.score == 0 && r.error == errorMsg
    // a value float() rejects in a threshold-table branch is an error
    ensures !Truthy(errorMsg) && (name == MarketPE || name == IsmPmi) && value.Unparsable? ==>
      r.colorClass == Error && r.score == 0 && Truthy(r.error) && r.value == Text(ErrorMark)
    // every other name with a value is unknown and shows `str(value)`
    ensures !Truthy(errorMsg) && !value.Absent? && name != MarketPE && name != IsmPmi ==>
      r.status == Unknown && r.value == Shown(value) && r.colorClass == Neutral
      && r.score == 0 && r.error == errorMsg
    // outside the error paths the error passes through unchanged
    ensures r.colorClass != Error ==> r.error == errorMsg
  {
    ClassifyErrorPaths(name, value, errorMsg);
    ClassifyQuietPaths(name, value, errorMsg);
    var c := Classify(name, value, errorMsg);
    if Truthy(c.error) || c.status == NoData then c.(score := 0) else c
  }

  /** The two error paths of the chain: the error bucket and a value
      `float()` rejects under a threshold-table name. */
  lemma ClassifyErrorPaths(name: string, value: Value, errorMsg: Option<string>)
    ensures var c := Classify(name, value, errorMsg);
      (Truthy(errorMsg) ==>
        c.status == ErrorPrefix + errorMsg.value && c.value == Text(ErrorMark) && c.colorClass == Error
        && c.score == 0 && c.error == errorMsg)
      && (!Truthy(errorMsg) && (name == MarketPE || name == IsmPmi) && value.Unparsable? ==>
        c.colorClass == Error && c.score == 0 && Truthy(c.error) && c.value == Text(ErrorMark))
  {
  }

  /** The paths of the chain that end without an error: no data, and the
      unknown-name fallback with or without a value. */
  lemma ClassifyQuietPaths(name: string, value: Value, errorMsg: Option<string>)
    ensures var c := Classify(name, value, errorMsg);
      (name != MarketPE && name != IsmPmi ==> c.score == 0)
      && (!Truthy(errorMsg) && value.Absent? && !IsTrendName(name) ==>
        c.status == NoData && c.value == Text(NotAvailable) && c.colorClass == Neutral
        && c.score == 0 && c.error == errorMsg)
      && (!Truthy(errorMsg) && value.Absent? && IsTrendName(name) ==>
        c.status == Unknown && c.value == Text(NotAvailable) && c.colorClass == Neutral
        && c.score == 0 && c.error == errorMsg)
      && (!Truthy(errorMsg) && !value.Absent? && name != MarketPE && name != IsmPmi ==>
        c.status == Unknown && c.value == Shown(value) && c.colorClass == Neutral
        && c.score == 0 && c.error == errorMsg)
  {
  }

  /** The final clamp at the end of `analyze_indicator` never changes a
      score: every branch that sets an error or the no-data status has
      already set the score to 0. */
  lemma ClampIsRedundant(name: string, value: Value, errorMsg: Option<string>, kwargs: map<string, Value>)
    ensures Analyze(name, value, errorMsg, kwargs) == Classify(name, value, errorMsg)
  {
  }

  /** The extra fields never influence the classification. */
  lemma KwargsIgnored(name: string, value: Value, errorMsg: Option<string>, k1: map<string, Value>, k2: map<string, Value>)
    ensures Analyze(name, value, errorMsg, k1) == Analyze(name, value, errorMsg, k2)
  {
  }

  /** The P/E bands as seen through the whole classifier, for every real
      and every message that is not an error. */
  lemma PriceEarningsClassified(v: real, errorMsg: Option<string>, kwargs: map<string, Value>)
    requires !Truthy(errorMsg)
    ensures var r := Analyze(MarketPE, Num(v), errorMsg, kwargs);
      r.value == Fixed(v, 2) && r.error == errorMsg
      && (v < 18.0 <==> r.score == 1 && r.colorClass == Positive && r.status == PEUndervalued)
      && (v > 25.0 <==> r.score == -1 && r.colorClass == Negative && r.status == PEOvervalued)
      && (18.0 <= v <= 25.0 <==> r.score == 0 && r.colorClass == Neutral && r.status == PENeutral)
  {
  }

  /** The PMI bands as seen through the whole classifier, for every real
      and every message that is not an error: four disjoint bands, two of
      them neutral with different statuses. */
  lemma PmiAllReals(v: real, errorMsg: Option<string>, kwargs: map<string, Value>)
    requires !Truthy(errorMsg)
    ensures var r := Analyze(IsmPmi, Num(v), errorMsg, kwargs);
      r.value == Fixed(v, 1) && r.error == errorMsg
      && (v > 55.0 <==> r.score == 1 && r.colorClass == Positive && r.status == PmiStrongExpansion)
      && (v < 48.0 <==> r.score == -1 && r.colorClass == Negative && r.status == PmiContraction)
      && (50.0 <= v <= 55.0 <==> r.score == 0 && r.colorClass == Neutral && r.status == PmiWeakExpansion)
      && (48.0 <= v < 50.0 <==> r.score == 0 && r.colorClass == Neutral && r.status == PmiWeakContraction)
  {
  }

  /** The PMI bands as seen through the whole classifier, with the
      scenarios 56.0, 47.0, 49.0 and 50.5. */
  lemma PmiClassified(kwargs: map<string, Value>)
    ensures Analyze(IsmPmi, Num(56.0), None, kwargs).score == 1
    ensures Analyze(IsmPmi, Num(56.0), None, kwargs).status == PmiStrongExpansion
    ensures Analyze(IsmPmi, Num(47.0), None, kwargs).score == -1
    ensures Analyze(IsmPmi, Num(47.0), None, kwargs).status == PmiContraction
    ensures Analyze(IsmPmi, Num(49.0), None, kwargs).score == 0
    ensures Analyze(IsmPmi, Num(49.0), None, kwargs).status == PmiWeakContraction
    ensures Analyze(IsmPmi, Num(50.5), None, kwargs).score == 0
    ensures Analyze(IsmPmi, Num(50.5), None, kwargs).status == PmiWeakExpansion
    ensures PmiWeakContraction != PmiWeakExpansion
  {
  }
}
