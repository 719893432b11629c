/** The counting loop of the `/api/data` handler: every indicator is
    classified, stored by name, and, when it is eligible, its score is
    added to the total and it is counted as a valid indicator. The fetched
    values and errors are inputs. */
module Dashboard {
  import opened Wrappers
  import opened Indicator
  import opened Overall

  /** One entry of the handler's indicator table: the fetcher's value and
      error, and the extra fields (`price`, `ma50`, `ma200`,
      `compare_data`) some entries carry. */
  datatype IndicatorData = IndicatorData(value: Value, error: Option<string>, extra: map<string, Value>)

  /** `data.get(key)`: `None` when the entry has no such field. */
  function Get(d: IndicatorData, key: string): Value {
    if key in d.extra then d.extra[key] else Absent
  }

  /** The keyword arguments the loop builds for each name: only the four
      trend/breadth entries get any, each is the entry's field of the same
      name, except `change_1m`, which is the breadth entry's value. */
  function KwargsFor(name: string, d: IndicatorData): (k: map<string, Value>)
    ensures k.Keys ==
      if name == MarketTrend then {"price", "ma50", "ma200"}
      else if name == OilTrend || name == GoldTrend then {"price", "ma50"}
      else if name == MarketBreadth then {"compare_data", "change_1m"}
      else {}
    ensures k != map[] <==> IsTrendName(name)
    ensures forall key :: key in k && key != "change_1m" ==> k[key] == Get(d, key)
    ensures "change_1m" in k ==> k["change_1m"] == d.value
  {
    if name == MarketTrend then
      map["price" := Get(d, "price"), "ma50" := Get(d, "ma50"), "ma200" := Get(d, "ma200")]
    else if name == OilTrend || name == GoldTrend then
      map["price" := Get(d, "price"), "ma50" := Get(d, "ma50")]
    else if name == MarketBreadth then
      map["compare_data" := Get(d, "compare_data"), "change_1m" := d.value]
    else map[]
  }

  /** The classification of one table entry, as the loop computes it:
      neither the keyword arguments nor the final clamp change what the
      branch chain decides, and the result is consistent. */
  function AnalyzeEntry(name: string, d: IndicatorData): (r: Analysis)
    ensures r == Classify(name, d.value, d.error)
    ensures Consistent(r)
  {
    Analyze(name, d.value, d.error, KwargsFor(name, d))
  }

  /** Table keys are distinct: the table is a dictionary. */
  predicate DistinctNames<T>(s: seq<(string, T)>) {
    forall i, j :: 0 <= i < j < |s| ==> s[i].0 != s[j].0
  }

  /** The eligibility test: no error at all (not even an empty one), not
      the no-data status, and a display value that is not a sentinel —
      except that the four trend/breadth names skip the sentinel test. */
  predicate Counts(name: string, r: Analysis)
    ensures IsTrendName(name) ==> (Counts(name, r) <==> r.error == None && r.status != NoData)
    ensures !IsTrendName(name) ==>
      (Counts(name, r) <==> r.error == None && r.status != NoData && !IsSentinel(r.value))
  {
    r.error == None && r.status != NoData && (!IsSentinel(r.value) || IsTrendName(name))
  }

  /** The classified table, in the table's order: same names, every
      score in {-1, 0, 1}. */
  function Classified(entries: seq<(string, IndicatorData)>): (s: seq<(string, Analysis)>)
    ensures |s| == |entries|
    ensures forall i :: 0 <= i < |s| ==> s[i].0 == entries[i].0
    ensures ScoresInRange(s)
    ensures DistinctNames(entries) ==> DistinctNames(s)
  {
    seq(|entries|, i requires 0 <= i < |entries| => (entries[i].0, AnalyzeEntry(entries[i].0, entries[i].1)))
  }

  /** The sum of the scores of the counted entries. */
  function CountedScore(s: seq<(string, Analysis)>): int {
    if s == [] then 0
    else
      var (name, r) := s[|s| - 1];
      CountedScore(s[..|s| - 1]) + (if Counts(name, r) then r.score else 0)
  }

  /** The number of counted entries. */
  function CountedNumber(s: seq<(string, Analysis)>): nat {
    if s == [] then 0
    else
      var (name, r) := s[|s| - 1];
      CountedNumber(s[..|s| - 1]) + (if Counts(name, r) then 1 else 0)
  }

  /** The number of counted entries whose score is not 0. */
  function NonzeroNumber(s: seq<(string, Analysis)>): nat {
    if s == [] then 0
    else
      var (name, r) := s[|s| - 1];
      NonzeroNumber(s[..|s| - 1]) + (if Counts(name, r) && r.score != 0 then 1 else 0)
  }

  predicate ScoresInRange(s: seq<(string, Analysis)>) {
    forall i :: 0 <= i < |s| ==> -1 <= s[i].1.score <= 1
  }

  /** The loop at the end of the handler: classifies each entry in order,
      records it under its name, and accumulates the total score and the
      number of valid indicators over the eligible entries. */
  method ScoreIndicators(entries: seq<(string, IndicatorData)>)
      returns (analysis: map<string, Analysis>, total: int, valid: nat)
    requires DistinctNames(entries)
    ensures analysis.Keys == set i | 0 <= i < |entries| :: entries[i].0
    ensures forall i :: 0 <= i < |entries| ==>
      analysis[entries[i].0] == AnalyzeEntry(entries[i].0, entries[i].1)
    ensures total == CountedScore(Classified(entries))
    ensures valid == CountedNumber(Classified(entries))
    ensures -(valid as int) <= total <= valid
    ensures -2 <= total <= 2
  {
    ghost var pairs := Classified(entries);
    analysis, total, valid := map[], 0, 0;
    var i := 0;
    while i < |entries|
      invariant 0 <= i <= |entries|
      invariant analysis.Keys == set j | 0 <= j < i :: entries[j].0
      invariant forall j :: 0 <= j < i ==> analysis[entries[j].0] == pairs[j].1
      invariant total == CountedScore(pairs[..i])
      invariant valid == CountedNumber(pairs[..i])
    {
      var (name, data) := entries[i];
      var result := AnalyzeEntry(name, data);
      analysis := analysis[name := result];
      if Counts(name, result) {
        total := total + result.score;
        valid := valid + 1;
      }
      TallyStep(pairs, i);
      i := i + 1;
    }
    assert pairs[..|entries|] == pairs;
    TotalBounds(entries);
  }

  /** The bounds the loop's results keep. */
  lemma TotalBounds(entries: seq<(string, IndicatorData)>)
    requires DistinctNames(entries)
    ensures var s := Classified(entries);
      -(CountedNumber(s) as int) <= CountedScore(s) <= CountedNumber(s) && -2 <= CountedScore(s) <= 2
  {
    TallyBound(Classified(entries));
    TotalAtMostTwo(entries);
  }

  /** Extending a prefix by one entry adds that entry's contribution. */
  lemma TallyStep(s: seq<(string, Analysis)>, i: nat)
    requires i < |s|
    ensures CountedScore(s[..i + 1]) == CountedScore(s[..i]) + (if Counts(s[i].0, s[i].1) then s[i].1.score else 0)
    ensures CountedNumber(s[..i + 1]) == CountedNumber(s[..i]) + (if Counts(s[i].0, s[i].1) then 1 else 0)
  {
    assert s[..i + 1][..i] == s[..i];
  }

  /** The total is bounded by the entries with a nonzero score, which are
      among the counted ones. */
  lemma {:induction false} TallyBound(s: seq<(string, Analysis)>)
    requires ScoresInRange(s)
    ensures -(NonzeroNumber(s) as int) <= CountedScore(s) <= NonzeroNumber(s)
    ensures NonzeroNumber(s) <= CountedNumber(s)
  {
    if s != [] {
      TallyBound(s[..|s| - 1]);
    }
  }

  /** The tallies of a concatenation are the sums of the tallies. */
  lemma {:induction false} TallyAppend(a: seq<(string, Analysis)>, b: seq<(string, Analysis)>)
    ensures CountedScore(a + b) == CountedScore(a) + CountedScore(b)
    ensures CountedNumber(a + b) == CountedNumber(a) + CountedNumber(b)
  {
    if b == [] {
      assert a + b == a;
    } else {
      var init := b[..|b| - 1];
      assert (a + b)[..|a + b| - 1] == a + init;
      TallyAppend(a, init);
    }
  }

  /** An entry that is not counted changes neither the total nor the
      number of valid indicators, wherever it stands. */
  lemma UncountedIgnored(a: seq<(string, Analysis)>, name: string, r: Analysis, b: seq<(string, Analysis)>)
    requires !Counts(name, r)
    ensures CountedScore(a + [(name, r)] + b) == CountedScore(a + b)
    ensures CountedNumber(a + [(name, r)] + b) == CountedNumber(a + b)
  {
    TallyAppend(a + [(name, r)], b);
    TallyAppend(a, [(name, r)]);
    TallyAppend(a, b);
    assert CountedScore([(name, r)]) == 0 by {
      assert [(name, r)][..0] == [];
    }
    assert CountedNumber([(name, r)]) == 0 by {
      assert [(name, r)][..0] == [];
    }
  }

  /** With distinct names, at most |names| entries have a nonzero score
      when every such entry's name is in `names`. */
  lemma {:induction false} NonzeroNamesBound(s: seq<(string, Analysis)>, names: set<string>)
    requires DistinctNames(s)
    requires forall i :: 0 <= i < |s| && s[i].1.score != 0 ==> s[i].0 in names
    ensures NonzeroNumber(s) <= |names|
  {
    if s != [] {
      var (name, r) := s[|s| - 1];
      var init := s[..|s| - 1];
      if Counts(name, r) && r.score != 0 {
        assert forall i :: 0 <= i < |init| && init[i].1.score != 0 ==> init[i].0 in names - {name} by {
          forall i | 0 <= i < |init| && init[i].1.score != 0
            ensures init[i].0 in names - {name}
          {
            assert init[i] == s[i];
          }
        }
        NonzeroNamesBound(init, names - {name});
      } else {
        NonzeroNamesBound(init, names);
      }
    }
  }

  /** Only "Market P/E" and "ISM PMI" can score, so however many
      indicators are counted the total lies between -2 and 2. */
  lemma TotalAtMostTwo(entries: seq<(string, IndicatorData)>)
    requires DistinctNames(entries)
    ensures -2 <= CountedScore(Classified(entries)) <= 2
  {
    var s := Classified(entries);
    TallyBound(s);
    assert |{MarketPE, IsmPmi}| == 2;
    NonzeroNamesBound(s, {MarketPE, IsmPmi});
  }

  /** With twelve or more valid indicators (the handler's table has twelve)
      the threshold is at least 3, so the verdict is always mixed. */
  lemma ManyIndicatorsAreMixed(entries: seq<(string, IndicatorData)>)
    requires DistinctNames(entries)
    requires CountedNumber(Classified(entries)) >= 12
    ensures var s := Classified(entries);
      OverallAssessment(CountedScore(s), CountedNumber(s)) == MixedMood
  {
    TotalAtMostTwo(entries);
  }

  /** With fewer than two valid indicators the total cannot reach the
      threshold of 2, so the verdict is never positive or negative. */
  lemma FewIndicatorsAreNeutral(entries: seq<(string, IndicatorData)>)
    requires CountedNumber(Classified(entries)) < 2
    ensures var s := Classified(entries);
      OverallAssessment(CountedScore(s), CountedNumber(s)).colorClass == Neutral
  {
    var s := Classified(entries);
    TallyBound(s);
  }

  /** Which single classification is counted: exactly those without any
      error whose value is present or belongs to a trend/breadth name and
      whose display is not a sentinel text (trend/breadth names aside). */
  lemma EligibleIff(name: string, value: Value, errorMsg: Option<string>, kwargs: map<string, Value>)
    ensures Counts(name, Analyze(name, value, errorMsg, kwargs)) <==>
      errorMsg == None
      && (IsTrendName(name)
          || value.Num?
          || (value.Unparsable? && name != MarketPE && name != IsmPmi
              && value.text != NotAvailable && value.text != ErrorMark))
  {
  }

  /** A trend/breadth indicator without an error is always counted, with
      score 0, even though its display value is "N/A". */
  lemma TrendCountsWithZero(name: string, d: IndicatorData)
    requires IsTrendName(name) && d.error == None && d.value == Absent
    ensures Counts(name, AnalyzeEntry(name, d))
    ensures AnalyzeEntry(name, d).score == 0
    ensures AnalyzeEntry(name, d).value == Text(NotAvailable)
  {
  }

  /** An empty error message is not an error for the classifier, but the
      entry is still never counted. */
  lemma EmptyErrorNeverCounted(name: string, d: IndicatorData)
    requires d.error == Some("")
    ensures !Counts(name, AnalyzeEntry(name, d))
    ensures AnalyzeEntry(name, d).status != ErrorPrefix
  {
  }
}
