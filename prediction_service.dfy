/**
 * The prediction service: weekly engagement streaks, and the post-processing of
 * one classifier run (column alignment, risk banding, attribution ranking,
 * explanations and recommendations).
 *
 * The trained pipeline and the attribution explainer are opaque; they are
 * modelled as total functions carried in datatypes, so the model says which
 * inputs they are applied to and what is done with their outputs.
 */
module PredictionService {
  import opened Wrappers

  function Min(a: int, b: int): int
  {
    if a <= b then a else b
  }

  // ===========================================================================
  // Weekly streak
  // ===========================================================================

  /** Timestamps are integers counting microseconds, the resolution of a datetime. */
  const MicrosPerDay: int := 86_400_000_000
  /** The length of one streak window: seven days. */
  const WindowLength: int := 7 * MicrosPerDay
  /** The scan looks back at most one year of weeks. */
  const MaxWeeks: nat := 52

  /** Window i is the half-open interval (now - 7(i+1) days, now - 7i days]. */
  predicate InWindow(t: int, now: int, i: nat)
  {
    now - WindowLength * (i + 1) < t <= now - WindowLength * i
  }

  /** Some prediction timestamp falls in window i. */
  predicate HasPredictionIn(timestamps: seq<int>, now: int, i: nat)
  {
    exists k :: 0 <= k < |timestamps| && InWindow(timestamps[k], now, i)
  }

  /** The number of consecutive active windows starting at window i, within the cap. */
  function StreakFrom(timestamps: seq<int>, now: int, i: nat): (r: nat)
    requires i <= MaxWeeks
    ensures r <= MaxWeeks - i
    decreases MaxWeeks - i
  {
    if i == MaxWeeks || !HasPredictionIn(timestamps, now, i) then 0
    else 1 + StreakFrom(timestamps, now, i + 1)
  }

  /** The streak reported for a user's predictions: 0 when there are none. */
  function Streak(timestamps: seq<int>, now: int): (r: nat)
    ensures r <= MaxWeeks
  {
    if timestamps == [] then 0 else StreakFrom(timestamps, now, 0)
  }

  /** `calculate_streak`: scan back week by week, stopping at the first empty week. */
  method CalculateStreak(timestamps: seq<int>, now: int) returns (streak: nat)
    ensures streak == Streak(timestamps, now)
    ensures streak <= MaxWeeks
    ensures timestamps == [] ==> streak == 0
  {
    if |timestamps| == 0 {
      return 0;
    }
    streak := 0;
    for i := 0 to MaxWeeks
      invariant streak == i
      invariant StreakFrom(timestamps, now, 0) == i + StreakFrom(timestamps, now, i)
    {
      if HasPredictionIn(timestamps, now, i) {
        streak := streak + 1;
      } else {
        break;
      }
    }
  }

  lemma {:induction false} StreakFromWindows(timestamps: seq<int>, now: int, i: nat)
    requires i <= MaxWeeks
    ensures forall j :: i <= j < i + StreakFrom(timestamps, now, i) ==> HasPredictionIn(timestamps, now, j)
    ensures i + StreakFrom(timestamps, now, i) < MaxWeeks ==>
      !HasPredictionIn(timestamps, now, i + StreakFrom(timestamps, now, i))
    decreases MaxWeeks - i
  {
    if i < MaxWeeks && HasPredictionIn(timestamps, now, i) {
      StreakFromWindows(timestamps, now, i + 1);
    }
  }

  /**
   * The streak is the unique k <= 52 such that windows 0..k-1 each hold a
   * prediction and, unless the cap is reached, window k holds none.
   */
  lemma StreakCharacterization(timestamps: seq<int>, now: int, k: nat)
    ensures Streak(timestamps, now) == k <==>
      k <= MaxWeeks &&
      (forall i :: 0 <= i < k ==> HasPredictionIn(timestamps, now, i)) &&
      (k < MaxWeeks ==> !HasPredictionIn(timestamps, now, k))
  {
    var s := Streak(timestamps, now);
    if timestamps == [] {
      assert !HasPredictionIn(timestamps, now, 0);
    } else {
      StreakFromWindows(timestamps, now, 0);
    }
  }

  /**
   * Timestamps after `now`, or no later than the start of the window just past
   * the streak, do not change the streak.
   */
  lemma StreakIgnoresOutsideWindows(timestamps: seq<int>, extra: seq<int>, now: int)
    requires forall t :: t in extra ==>
      t > now || t <= now - WindowLength * (Streak(timestamps, now) + 1)
    ensures Streak(timestamps + extra, now) == Streak(timestamps, now)
  {
    var k := Streak(timestamps, now);
    var all := timestamps + extra;
    StreakCharacterization(timestamps, now, k);
    forall i | 0 <= i < k
      ensures HasPredictionIn(all, now, i)
    {
      assert HasPredictionIn(timestamps, now, i);
      var j :| 0 <= j < |timestamps| && InWindow(timestamps[j], now, i);
      assert all[j] == timestamps[j];
    }
    if k < MaxWeeks {
      forall j | 0 <= j < |all|
        ensures !InWindow(all[j], now, k)
      {
        if j < |timestamps| {
          assert all[j] == timestamps[j];
        } else {
          assert all[j] in extra;
          assert WindowLength * k >= 0;
        }
      }
    }
    StreakCharacterization(all, now, k);
  }

  /** Every timestamp not after `now` lies in exactly one window: the week count back from now. */
  lemma WindowOfTimestamp(t: int, now: int, i: nat)
    requires t <= now
    ensures InWindow(t, now, i) <==> i == (now - t) / WindowLength
  {
  }

  /** A timestamp exactly 7i days before now belongs to window i, not to window i - 1. */
  lemma WindowBoundary(now: int, i: nat)
    ensures InWindow(now - WindowLength * i, now, i)
    ensures i > 0 ==> !InWindow(now - WindowLength * i, now, i - 1)
  {
  }

  /** A single prediction made now gives a streak of one week. */
  lemma StreakOfPredictionNow(now: int)
    ensures Streak([now], now) == 1
  {
    assert InWindow([now][0], now, 0);
    StreakCharacterization([now], now, 1);
  }

  /** Activity this week and last week, then a gap, gives a streak of two. */
  lemma StreakTwoWeeksThenGap(now: int)
    ensures Streak([now, now - WindowLength], now) == 2
  {
    var ts := [now, now - WindowLength];
    assert InWindow(ts[0], now, 0);
    WindowBoundary(now, 1);
    assert InWindow(ts[1], now, 1);
    assert !InWindow(ts[0], now, 2) && !InWindow(ts[1], now, 2);
    StreakCharacterization(ts, now, 2);
  }

  /** Fifty-three active weeks are still reported as 52. */
  lemma StreakCappedAtOneYear(now: int)
    ensures Streak(seq(53, k requires 0 <= k < 53 => now - WindowLength * k), now) == MaxWeeks
  {
    var ts := seq(53, k requires 0 <= k < 53 => now - WindowLength * k);
    forall i | 0 <= i < MaxWeeks
      ensures HasPredictionIn(ts, now, i)
    {
      WindowBoundary(now, i);
      assert InWindow(ts[i], now, i);
    }
    StreakCharacterization(ts, now, MaxWeeks);
  }

  // ===========================================================================
  // Artifacts and the shape of a prediction
  // ===========================================================================

  /** The fitted scaling-and-classification pipeline, applied to one aligned row. */
  datatype Pipeline = Pipeline(
    predictLabel: seq<real> -> int,
    predictProbability: seq<real> -> real,
    scale: seq<real> -> seq<real>)

  /** The attribution explainer: positive-class scores of a scaled row, and its baseline. */
  datatype Explainer = Explainer(attributions: seq<real> -> seq<real>, expectedValue: real)

  /**
   * The process-wide artifacts. An unset pipeline or explainer is `None`; unset
   * and empty column lists are both falsy to the readiness guard, so both are `[]`.
   */
  datatype ArtifactStore = ArtifactStore(
    pipeline: Option<Pipeline>,
    modelColumns: seq<string>,
    explainer: Option<Explainer>)

  predicate Ready(store: ArtifactStore)
  {
    store.pipeline.Some? && store.modelColumns != [] && store.explainer.Some?
  }

  datatype PredictError = ModelsNotLoaded

  datatype Risk = Low | Medium | High

  datatype Contribution = Contribution(feature: string, score: real)

  datatype Explanation = Explanation(feature: string, valueProvided: string, impact: real, description: string)

  datatype Recommendation = Recommendation(feature: string, advice: string)

  datatype PredictionResult = PredictionResult(
    prediction: int,
    probability: real,
    riskCategory: Risk,
    explanations: seq<Explanation>,
    baseValue: real,
    recommendations: seq<Recommendation>)

  // ===========================================================================
  // Column alignment
  // ===========================================================================

  /** The value the aligned frame holds for a column: the caller's value, or 0 when absent. */
  function AlignedValue(data: map<string, real>, column: string): real
  {
    if column in data then data[column] else 0.0
  }

  /** The aligned feature row, column by column in model order. */
  function AlignedRow(data: map<string, real>, modelColumns: seq<string>): seq<real>
  {
    seq(|modelColumns|, i requires 0 <= i < |modelColumns| => AlignedValue(data, modelColumns[i]))
  }

  /** Fill every missing model column with 0, then select the model columns in order. */
  method AlignColumns(data: map<string, real>, modelColumns: seq<string>) returns (row: seq<real>)
    ensures |row| == |modelColumns|
    ensures forall i :: 0 <= i < |modelColumns| ==>
      row[i] == (if modelColumns[i] in data then data[modelColumns[i]] else 0.0)
    ensures row == AlignedRow(data, modelColumns)
  {
    var frame := data;
    for i := 0 to |modelColumns|
      invariant forall k :: 0 <= k < i ==> modelColumns[k] in frame
      invariant forall c :: c in data ==> c in frame
      invariant forall c :: c in frame ==> frame[c] == AlignedValue(data, c)
    {
      if modelColumns[i] !in frame {
        frame := frame[modelColumns[i] := 0.0];
      }
    }
    row := [];
    for i := 0 to |modelColumns|
      invariant |row| == i
      invariant forall k :: 0 <= k < i ==> row[k] == AlignedValue(data, modelColumns[k])
    {
      row := row + [frame[modelColumns[i]]];
    }
  }

  /** Keys that are not model columns never reach the aligned row. */
  lemma AlignedRowIgnoresExtraKeys(data: map<string, real>, other: map<string, real>, modelColumns: seq<string>)
    requires forall c :: c in modelColumns ==> (c in data <==> c in other)
    requires forall c :: c in modelColumns && c in data ==> data[c] == other[c]
    ensures AlignedRow(data, modelColumns) == AlignedRow(other, modelColumns)
  {
  }

  // ===========================================================================
  // Risk banding
  // ===========================================================================

  const LowRiskBelow: real := 0.3
  const HighRiskFrom: real := 0.7

  /** The three ordinal bands of the positive-class probability. */
  function RiskCategory(probability: real): (r: Risk)
    ensures r == Low <==> probability < LowRiskBelow
    ensures r == Medium <==> LowRiskBelow <= probability < HighRiskFrom
    ensures r == High <==> probability >= HighRiskFrom
  {
    if probability < LowRiskBelow then Low
    else if probability < HighRiskFrom then Medium
    else High
  }

  function RiskLevel(r: Risk): nat
  {
    match r
    case Low => 0
    case Medium => 1
    case High => 2
  }

  /** A higher probability never gives a lower band. */
  lemma RiskCategoryMonotone(p: real, q: real)
    requires p <= q
    ensures RiskLevel(RiskCategory(p)) <= RiskLevel(RiskCategory(q))
  {
  }

  // ===========================================================================
  // Attribution ranking
  // ===========================================================================

  function Abs(x: real): real
  {
    if x < 0.0 then -x else x
  }

  /** The position of a feature in an item list, or -1. */
  function IndexOfFeature(items: seq<Contribution>, feature: string): (r: int)
    ensures -1 <= r < |items|
    ensures r >= 0 ==> items[r].feature == feature
    ensures r == -1 ==> forall j :: 0 <= j < |items| ==> items[j].feature != feature
  {
    if items == [] then -1
    else if items[|items| - 1].feature == feature then |items| - 1
    else IndexOfFeature(items[..|items| - 1], feature)
  }

  /** `d[c.feature] = c.score` on a dict kept as its insertion-ordered item list. */
  function DictSet(items: seq<Contribution>, c: Contribution): seq<Contribution>
  {
    var j := IndexOfFeature(items, c.feature);
    if j < 0 then items + [c] else items[j := c]
  }

  function ZipPrefix(modelColumns: seq<string>, scores: seq<real>, n: nat): seq<Contribution>
    requires n <= |modelColumns| && n <= |scores|
  {
    if n == 0 then []
    else DictSet(ZipPrefix(modelColumns, scores, n - 1), Contribution(modelColumns[n - 1], scores[n - 1]))
  }

  /** `dict(zip(model_columns, scores)).items()`: zip stops at the shorter input. */
  function FeatureContributions(modelColumns: seq<string>, scores: seq<real>): seq<Contribution>
  {
    ZipPrefix(modelColumns, scores, Min(|modelColumns|, |scores|))
  }

  ghost predicate DistinctFeatures(items: seq<Contribution>)
  {
    forall i, j :: 0 <= i < j < |items| ==> items[i].feature != items[j].feature
  }

  ghost predicate Distinct<T>(s: seq<T>)
  {
    forall i, j :: 0 <= i < j < |s| ==> s[i] != s[j]
  }

  lemma DictSetKeepsKeysDistinct(items: seq<Contribution>, c: Contribution)
    requires DistinctFeatures(items)
    ensures DistinctFeatures(DictSet(items, c))
  {
  }

  /** Every item of a dict assignment is the assigned pair or an item that was there. */
  lemma DictSetItems(items: seq<Contribution>, c: Contribution)
    ensures c in DictSet(items, c)
    ensures forall x :: x in DictSet(items, c) ==> x == c || x in items
  {
    var j := IndexOfFeature(items, c.feature);
    if j >= 0 {
      assert DictSet(items, c)[j] == c;
    }
  }

  lemma {:induction false} ZipPrefixDistinct(modelColumns: seq<string>, scores: seq<real>, n: nat)
    requires n <= |modelColumns| && n <= |scores|
    ensures DistinctFeatures(ZipPrefix(modelColumns, scores, n))
  {
    if n > 0 {
      ZipPrefixDistinct(modelColumns, scores, n - 1);
      DictSetKeepsKeysDistinct(ZipPrefix(modelColumns, scores, n - 1), Contribution(modelColumns[n - 1], scores[n - 1]));
    }
  }

  lemma {:induction false} ZipPrefixFeatures(modelColumns: seq<string>, scores: seq<real>, n: nat)
    requires n <= |modelColumns| && n <= |scores|
    ensures forall x :: x in ZipPrefix(modelColumns, scores, n) ==> x.feature in modelColumns[..n]
  {
    if n > 0 {
      var prev := ZipPrefix(modelColumns, scores, n - 1);
      ZipPrefixFeatures(modelColumns, scores, n - 1);
      DictSetItems(prev, Contribution(modelColumns[n - 1], scores[n - 1]));
      assert modelColumns[..n] == modelColumns[..n - 1] + [modelColumns[n - 1]];
    }
  }

  /** Assigning a key that is not yet present appends it. */
  lemma DictSetNewKey(items: seq<Contribution>, c: Contribution)
    requires forall j :: 0 <= j < |items| ==> items[j].feature != c.feature
    ensures DictSet(items, c) == items + [c]
  {
  }

  lemma {:induction false} ZipPrefixOfDistinctColumns(modelColumns: seq<string>, scores: seq<real>, n: nat)
    requires n <= |modelColumns| && n <= |scores|
    requires Distinct(modelColumns[..n])
    ensures ZipPrefix(modelColumns, scores, n) == seq(n, i requires 0 <= i < n => Contribution(modelColumns[i], scores[i]))
  {
    if n > 0 {
      var prev := ZipPrefix(modelColumns, scores, n - 1);
      var c := Contribution(modelColumns[n - 1], scores[n - 1]);
      assert Distinct(modelColumns[..n - 1]) by {
        assert forall i :: 0 <= i < n - 1 ==> modelColumns[..n - 1][i] == modelColumns[..n][i];
      }
      ZipPrefixOfDistinctColumns(modelColumns, scores, n - 1);
      assert forall j :: 0 <= j < n - 1 ==> modelColumns[j] != modelColumns[n - 1] by {
        assert forall j :: 0 <= j < n ==> modelColumns[..n][j] == modelColumns[j];
      }
      DictSetNewKey(prev, c);
    }
  }

  /**
   * The contributions are keyed by feature: no feature appears twice, every
   * feature is a model column, and when the model columns are distinct the
   * items are exactly the column/score pairs in column order.
   */
  lemma FeatureContributionsShape(modelColumns: seq<string>, scores: seq<real>)
    ensures DistinctFeatures(FeatureContributions(modelColumns, scores))
    ensures forall c :: c in FeatureContributions(modelColumns, scores) ==> c.feature in modelColumns
    ensures Distinct(modelColumns) && |scores| == |modelColumns| ==>
      FeatureContributions(modelColumns, scores)
        == seq(|modelColumns|, i requires 0 <= i < |modelColumns| => Contribution(modelColumns[i], scores[i]))
  {
    var n := Min(|modelColumns|, |scores|);
    ZipPrefixDistinct(modelColumns, scores, n);
    ZipPrefixFeatures(modelColumns, scores, n);
    var items := FeatureContributions(modelColumns, scores);
    forall c | c in items
      ensures c.feature in modelColumns
    {
      assert c.feature in modelColumns[..n];
    }
    if Distinct(modelColumns) && |scores| == |modelColumns| {
      assert modelColumns[..n] == modelColumns;
      ZipPrefixOfDistinctColumns(modelColumns, scores, n);
    }
  }

  /** Sorted by non-increasing magnitude of the score. */
  ghost predicate SortedByImpact(s: seq<Contribution>)
  {
    forall i, j :: 0 <= i < j < |s| ==> Abs(s[i].score) >= Abs(s[j].score)
  }

  /** The items of a given magnitude, in their order. */
  function WithMagnitude(s: seq<Contribution>, m: real): seq<Contribution>
  {
    if s == [] then []
    else (if Abs(s[0].score) == m then [s[0]] else []) + WithMagnitude(s[1..], m)
  }

  /** Stable reordering: items of equal magnitude keep their relative order. */
  ghost predicate StablyReordered(r: seq<Contribution>, s: seq<Contribution>)
  {
    forall m :: WithMagnitude(r, m) == WithMagnitude(s, m)
  }

  /** Insert before the first item of no greater magnitude. */
  function InsertByImpact(c: Contribution, t: seq<Contribution>): seq<Contribution>
  {
    if t == [] || Abs(t[0].score) <= Abs(c.score) then [c] + t
    else [t[0]] + InsertByImpact(c, t[1..])
  }

  /** `sorted(items, key=abs(score), reverse=True)`, which is stable. */
  function SortByImpact(s: seq<Contribution>): seq<Contribution>
  {
    if s == [] then [] else InsertByImpact(s[0], SortByImpact(s[1..]))
  }

  lemma {:induction false} InsertByImpactPermutes(c: Contribution, t: seq<Contribution>)
    ensures multiset(InsertByImpact(c, t)) == multiset([c] + t)
  {
    if !(t == [] || Abs(t[0].score) <= Abs(c.score)) {
      InsertByImpactPermutes(c, t[1..]);
      assert t == [t[0]] + t[1..];
    }
  }

  lemma {:induction false} InsertByImpactSorted(c: Contribution, t: seq<Contribution>)
    requires SortedByImpact(t)
    ensures SortedByImpact(InsertByImpact(c, t))
  {
    if !(t == [] || Abs(t[0].score) <= Abs(c.score)) {
      var rest := InsertByImpact(c, t[1..]);
      InsertByImpactSorted(c, t[1..]);
      InsertByImpactPermutes(c, t[1..]);
      forall i | 0 <= i < |rest|
        ensures Abs(t[0].score) >= Abs(rest[i].score)
      {
        assert rest[i] in multiset([c] + t[1..]);
      }
    }
  }

  lemma {:induction false} InsertByImpactStable(c: Contribution, t: seq<Contribution>, m: real)
    ensures WithMagnitude(InsertByImpact(c, t), m) == WithMagnitude([c] + t, m)
  {
    if !(t == [] || Abs(t[0].score) <= Abs(c.score)) {
      var rest := InsertByImpact(c, t[1..]);
      InsertByImpactStable(c, t[1..], m);
      assert ([t[0]] + rest)[1..] == rest;
      assert ([c] + t)[1..] == t;
      assert ([c] + t[1..])[1..] == t[1..];
    }
  }

  /** The ranking is sorted by magnitude, a permutation of its input, and stable. */
  lemma {:induction false} SortByImpactCorrect(s: seq<Contribution>)
    ensures SortedByImpact(SortByImpact(s))
    ensures multiset(SortByImpact(s)) == multiset(s)
    ensures StablyReordered(SortByImpact(s), s)
  {
    if s != [] {
      SortByImpactCorrect(s[1..]);
      InsertByImpactSorted(s[0], SortByImpact(s[1..]));
      InsertByImpactPermutes(s[0], SortByImpact(s[1..]));
      assert s == [s[0]] + s[1..];
      forall m
        ensures WithMagnitude(SortByImpact(s), m) == WithMagnitude(s, m)
      {
        InsertByImpactStable(s[0], SortByImpact(s[1..]), m);
        assert ([s[0]] + SortByImpact(s[1..]))[1..] == SortByImpact(s[1..]);
      }
    }
  }

  /** The ranked contributions that drive both explanations and recommendations. */
  function RankedContributions(modelColumns: seq<string>, scores: seq<real>): seq<Contribution>
  {
    SortByImpact(FeatureContributions(modelColumns, scores))
  }

  // ===========================================================================
  // Explanations
  // ===========================================================================

  /** Only attributions of magnitude above this are explained. */
  const Materiality: real := 0.01

  function DirectionWord(score: real): string
  {
    if score > 0.0 then "increased" else "decreased"
  }

  /** The explanation entry for one contribution; `render` is the number formatting. */
  function Describe(c: Contribution, data: map<string, real>, render: real -> string): Explanation
  {
    var shown := render(AlignedValue(data, c.feature));
    Explanation(c.feature, shown, c.score,
      "Your value of '" + shown + "' for '" + c.feature + "' " + DirectionWord(c.score) + " your risk.")
  }

  /** The explanation list built from a prefix of the ranking. */
  function Explanations(ranked: seq<Contribution>, data: map<string, real>, render: real -> string): seq<Explanation>
  {
    if ranked == [] then []
    else
      var last := ranked[|ranked| - 1];
      Explanations(ranked[..|ranked| - 1], data, render)
        + (if Abs(last.score) > Materiality then [Describe(last, data, render)] else [])
  }

  /** The explanation loop: one entry per ranked contribution of material magnitude. */
  method BuildExplanations(ranked: seq<Contribution>, data: map<string, real>, render: real -> string)
    returns (explanations: seq<Explanation>)
    ensures explanations == Explanations(ranked, data, render)
  {
    explanations := [];
    for i := 0 to |ranked|
      invariant explanations == Explanations(ranked[..i], data, render)
    {
      var feature, value := ranked[i].feature, ranked[i].score;
      var inputValue := AlignedValue(data, feature);
      if Abs(value) > Materiality {
        var direction := if value > 0.0 then "increased" else "decreased";
        explanations := explanations + [Explanation(feature, render(inputValue), value,
          "Your value of '" + render(inputValue) + "' for '" + feature + "' " + direction + " your risk.")];
      }
      assert ranked[..i + 1][..i] == ranked[..i];
    }
    assert ranked[..|ranked|] == ranked;
  }

  /** The (feature, impact) pairs of an explanation list. */
  function Impacts(explanations: seq<Explanation>): seq<Contribution>
  {
    seq(|explanations|, i requires 0 <= i < |explanations| =>
      Contribution(explanations[i].feature, explanations[i].impact))
  }

  /** `a` is obtained from `b` by deleting elements. */
  ghost predicate IsSubsequence<T>(a: seq<T>, b: seq<T>)
    decreases |b|
  {
    if a == [] then true
    else if b == [] then false
    else
      (a[|a| - 1] == b[|b| - 1] && IsSubsequence(a[..|a| - 1], b[..|b| - 1]))
      || IsSubsequence(a, b[..|b| - 1])
  }

  lemma {:induction false} SubsequenceMembers<T>(a: seq<T>, b: seq<T>)
    requires IsSubsequence(a, b)
    ensures forall x :: x in a ==> x in b
    decreases |b|
  {
    if a != [] {
      if a[|a| - 1] == b[|b| - 1] && IsSubsequence(a[..|a| - 1], b[..|b| - 1]) {
        SubsequenceMembers(a[..|a| - 1], b[..|b| - 1]);
        assert a == a[..|a| - 1] + [a[|a| - 1]];
        assert b == b[..|b| - 1] + [b[|b| - 1]];
      } else {
        SubsequenceMembers(a, b[..|b| - 1]);
        assert b == b[..|b| - 1] + [b[|b| - 1]];
      }
    }
  }

  lemma {:induction false} SubsequenceOfSorted(a: seq<Contribution>, b: seq<Contribution>)
    requires IsSubsequence(a, b) && SortedByImpact(b)
    ensures SortedByImpact(a)
    decreases |b|
  {
    if a != [] {
      var b' := b[..|b| - 1];
      assert SortedByImpact(b');
      if a[|a| - 1] == b[|b| - 1] && IsSubsequence(a[..|a| - 1], b') {
        var a' := a[..|a| - 1];
        SubsequenceOfSorted(a', b');
        SubsequenceMembers(a', b');
        forall i | 0 <= i < |a'|
          ensures Abs(a[i].score) >= Abs(a[|a| - 1].score)
        {
          assert a[i] == a'[i];
          assert a'[i] in b';
        }
      } else {
        SubsequenceOfSorted(a, b');
      }
    }
  }

  lemma SubsequenceExtend<T>(a: seq<T>, b: seq<T>, x: T)
    requires IsSubsequence(a, b)
    ensures IsSubsequence(a, b + [x])
    ensures IsSubsequence(a + [x], b + [x])
  {
  }

  /** Appending one explanation appends its (feature, impact) pair. */
  lemma ImpactsSnoc(es: seq<Explanation>, e: Explanation)
    ensures Impacts(es + [e]) == Impacts(es) + [Contribution(e.feature, e.impact)]
  {
  }

  /** Every explanation entry is material and renders its own contribution and value. */
  lemma {:induction false} ExplanationsEntries(ranked: seq<Contribution>, data: map<string, real>, render: real -> string)
    ensures forall e :: e in Explanations(ranked, data, render) ==>
      Abs(e.impact) > Materiality && e == Describe(Contribution(e.feature, e.impact), data, render)
  {
    if ranked != [] {
      ExplanationsEntries(ranked[..|ranked| - 1], data, render);
    }
  }

  /** The explanations, read as (feature, impact) pairs, are a subsequence of the ranking. */
  lemma {:induction false} ExplanationsSubsequence(ranked: seq<Contribution>, data: map<string, real>, render: real -> string)
    ensures IsSubsequence(Impacts(Explanations(ranked, data, render)), ranked)
  {
    if ranked != [] {
      var init := ranked[..|ranked| - 1];
      var last := ranked[|ranked| - 1];
      var prev := Explanations(init, data, render);
      ExplanationsSubsequence(init, data, render);
      assert ranked == init + [last];
      SubsequenceExtend(Impacts(prev), init, last);
      if Abs(last.score) > Materiality {
        var e := Describe(last, data, render);
        assert Explanations(ranked, data, render) == prev + [e];
        ImpactsSnoc(prev, e);
        assert Contribution(e.feature, e.impact) == last;
      } else {
        assert Explanations(ranked, data, render) == prev;
      }
    }
  }

  /** No contribution of material magnitude is left out. */
  lemma {:induction false} ExplanationsComplete(ranked: seq<Contribution>, data: map<string, real>, render: real -> string)
    ensures forall c :: c in ranked && Abs(c.score) > Materiality ==> c in Impacts(Explanations(ranked, data, render))
  {
    if ranked != [] {
      var init := ranked[..|ranked| - 1];
      var last := ranked[|ranked| - 1];
      var prev := Explanations(init, data, render);
      ExplanationsComplete(init, data, render);
      assert ranked == init + [last];
      if Abs(last.score) > Materiality {
        var e := Describe(last, data, render);
        assert Explanations(ranked, data, render) == prev + [e];
        ImpactsSnoc(prev, e);
        assert Contribution(e.feature, e.impact) == last;
      } else {
        assert Explanations(ranked, data, render) == prev;
      }
    }
  }

  /**
   * The explanations: every entry is material and renders its own contribution,
   * the entries are a subsequence of the ranking, no material contribution is left
   * out, and they are sorted by magnitude whenever the ranking is.
   */
  lemma ExplanationsCorrect(ranked: seq<Contribution>, data: map<string, real>, render: real -> string)
    ensures forall e :: e in Explanations(ranked, data, render) ==>
      Abs(e.impact) > Materiality && e == Describe(Contribution(e.feature, e.impact), data, render)
    ensures IsSubsequence(Impacts(Explanations(ranked, data, render)), ranked)
    ensures forall c :: c in ranked && Abs(c.score) > Materiality ==> c in Impacts(Explanations(ranked, data, render))
    ensures SortedByImpact(ranked) ==> SortedByImpact(Impacts(Explanations(ranked, data, render)))
  {
    ExplanationsEntries(ranked, data, render);
    ExplanationsSubsequence(ranked, data, render);
    ExplanationsComplete(ranked, data, render);
    if SortedByImpact(ranked) {
      SubsequenceOfSorted(Impacts(Explanations(ranked, data, render)), ranked);
    }
  }

  /** The direction word says "increased" exactly for a positive attribution. */
  lemma DirectionWordIff(score: real)
    ensures DirectionWord(score) == "increased" <==> score > 0.0
    ensures DirectionWord(score) == "decreased" <==> score <= 0.0
  {
  }

  // ===========================================================================
  // Recommendations
  // ===========================================================================

  /** How many of the top-ranked factors are considered for advice. */
  const TopFactors: nat := 4

  /** Canned advice per feature. */
  const RecommendationMap: map<string, string> := map[
    "trestbps" := "Your blood pressure was a key factor. Consider discussing salt reduction and regular exercise with your doctor.",
    "chol" := "Your cholesterol level was a significant contributor. Dietary changes and exercise can help. Please consult your doctor.",
    "fbs" := "Your high fasting blood sugar (over 120 mg/dl) is a risk factor. Please consult your doctor about managing blood glucose.",
    "exang" := "Experiencing chest pain (angina) during exercise is a strong risk factor. Avoid strenuous activity until you consult a doctor.",
    "oldpeak" := "The ST depression ('oldpeak') in your EKG is a significant factor. This requires medical evaluation.",
    "cp" := "The type of chest pain ('cp') you reported is a major factor. Please discuss this symptom with your doctor immediately.",
    "age" := "Age is a non-modifiable risk factor. It's important to manage all other controllable risk factors like diet and exercise."
  ]

  function AdvisedFeatures(recommendations: seq<Recommendation>): set<string>
  {
    set r | r in recommendations :: r.feature
  }

  /** The recommendation list built from a prefix of the considered contributions. */
  function SelectRecommendations(considered: seq<Contribution>): seq<Recommendation>
  {
    if considered == [] then []
    else
      var prev := SelectRecommendations(considered[..|considered| - 1]);
      var c := considered[|considered| - 1];
      if c.score > 0.0 && c.feature in RecommendationMap && c.feature !in AdvisedFeatures(prev)
      then prev + [Recommendation(c.feature, RecommendationMap[c.feature])]
      else prev
  }

  /** Only the first four ranked contributions are considered. */
  function TopRanked(ranked: seq<Contribution>): seq<Contribution>
  {
    ranked[..Min(TopFactors, |ranked|)]
  }

  function Recommendations(ranked: seq<Contribution>): seq<Recommendation>
  {
    SelectRecommendations(TopRanked(ranked))
  }

  /** The recommendation loop over the top four, with the set of features already advised. */
  method BuildRecommendations(ranked: seq<Contribution>) returns (recommendations: seq<Recommendation>)
    ensures recommendations == Recommendations(ranked)
  {
    var top := ranked[..Min(TopFactors, |ranked|)];
    recommendations := [];
    var addedAdvice: set<string> := {};
    for i := 0 to |top|
      invariant recommendations == SelectRecommendations(top[..i])
      invariant addedAdvice == AdvisedFeatures(recommendations)
    {
      var feature, value := top[i].feature, top[i].score;
      assert top[..i + 1][..i] == top[..i];
      if value > 0.0 && feature in RecommendationMap {
        if feature !in addedAdvice {
          recommendations := recommendations + [Recommendation(feature, RecommendationMap[feature])];
          addedAdvice := addedAdvice + {feature};
        }
      }
    }
    assert top[..|top|] == top;
  }

  function AdviceFeatures(recommendations: seq<Recommendation>): seq<string>
  {
    seq(|recommendations|, i requires 0 <= i < |recommendations| => recommendations[i].feature)
  }

  function ContributionFeatures(items: seq<Contribution>): seq<string>
  {
    seq(|items|, i requires 0 <= i < |items| => items[i].feature)
  }

  lemma {:induction false} SelectRecommendationsEntries(considered: seq<Contribution>)
    ensures |SelectRecommendations(considered)| <= |considered|
    ensures forall r :: r in SelectRecommendations(considered) ==>
      r.feature in RecommendationMap && r.advice == RecommendationMap[r.feature]
    ensures forall r :: r in SelectRecommendations(considered) ==>
      exists c :: c in considered && c.feature == r.feature && c.score > 0.0
  {
    if considered != [] {
      var init := considered[..|considered| - 1];
      var c := considered[|considered| - 1];
      SelectRecommendationsEntries(init);
      assert considered == init + [c];
    }
  }

  lemma {:induction false} SelectRecommendationsDistinct(considered: seq<Contribution>)
    ensures Distinct(AdviceFeatures(SelectRecommendations(considered)))
  {
    if considered != [] {
      var init := considered[..|considered| - 1];
      var c := considered[|considered| - 1];
      var prev := SelectRecommendations(init);
      SelectRecommendationsDistinct(init);
      if c.score > 0.0 && c.feature in RecommendationMap && c.feature !in AdvisedFeatures(prev) {
        var r := Recommendation(c.feature, RecommendationMap[c.feature]);
        assert AdviceFeatures(prev + [r]) == AdviceFeatures(prev) + [c.feature];
        forall i | 0 <= i < |prev|
          ensures prev[i].feature != c.feature
        {
          assert prev[i] in prev;
        }
      }
    }
  }

  lemma {:induction false} SelectRecommendationsComplete(considered: seq<Contribution>)
    ensures forall f :: f in AdvisedFeatures(SelectRecommendations(considered)) <==>
      f in RecommendationMap && exists c :: c in considered && c.feature == f && c.score > 0.0
  {
    if considered != [] {
      var init := considered[..|considered| - 1];
      var c := considered[|considered| - 1];
      SelectRecommendationsComplete(init);
      SelectRecommendationsEntries(init);
      assert considered == init + [c];
    }
  }

  lemma {:induction false} SelectRecommendationsOrdered(considered: seq<Contribution>)
    ensures IsSubsequence(AdviceFeatures(SelectRecommendations(considered)), ContributionFeatures(considered))
  {
    if considered != [] {
      var init := considered[..|considered| - 1];
      var c := considered[|considered| - 1];
      var prev := SelectRecommendations(init);
      SelectRecommendationsOrdered(init);
      assert ContributionFeatures(considered) == ContributionFeatures(init) + [c.feature];
      SubsequenceExtend(AdviceFeatures(prev), ContributionFeatures(init), c.feature);
      if c.score > 0.0 && c.feature in RecommendationMap && c.feature !in AdvisedFeatures(prev) {
        var r := Recommendation(c.feature, RecommendationMap[c.feature]);
        assert AdviceFeatures(prev + [r]) == AdviceFeatures(prev) + [c.feature];
      }
    }
  }

  /**
   * The recommendations: at most four; each for a feature with advice, carrying that
   * advice; each backed by a risk-increasing contribution among the top four; no
   * feature twice; every such feature advised; and in ranked order.
   */
  lemma RecommendationsCorrect(ranked: seq<Contribution>)
    ensures |Recommendations(ranked)| <= TopFactors
    ensures forall r :: r in Recommendations(ranked) ==>
      r.feature in RecommendationMap && r.advice == RecommendationMap[r.feature]
    ensures forall r :: r in Recommendations(ranked) ==>
      exists c :: c in TopRanked(ranked) && c.feature == r.feature && c.score > 0.0
    ensures Distinct(AdviceFeatures(Recommendations(ranked)))
    ensures forall f :: f in AdvisedFeatures(Recommendations(ranked)) <==>
      f in RecommendationMap && exists c :: c in TopRanked(ranked) && c.feature == f && c.score > 0.0
    ensures IsSubsequence(AdviceFeatures(Recommendations(ranked)), ContributionFeatures(TopRanked(ranked)))
  {
    var top := TopRanked(ranked);
    SelectRecommendationsEntries(top);
    SelectRecommendationsDistinct(top);
    SelectRecommendationsComplete(top);
    SelectRecommendationsOrdered(top);
  }

  /**
   * The top four are chosen by magnitude, risk-lowering factors included: a fifth
   * risk-increasing factor with advice gets none when four larger ones lower the risk.
   */
  lemma FifthFactorNeverAdvised()
    ensures Recommendations([
      Contribution("thal", -0.5), Contribution("ca", -0.4), Contribution("slope", -0.3),
      Contribution("sex", -0.2), Contribution("chol", 0.1)]) == []
  {
    var ranked := [
      Contribution("thal", -0.5), Contribution("ca", -0.4), Contribution("slope", -0.3),
      Contribution("sex", -0.2), Contribution("chol", 0.1)];
    var top := TopRanked(ranked);
    assert top == ranked[..4];
    assert SelectRecommendations(top[..1]) == [];
    assert top[..2][..1] == top[..1];
    assert SelectRecommendations(top[..2]) == [];
    assert top[..3][..2] == top[..2];
    assert SelectRecommendations(top[..3]) == [];
    assert top[..4][..3] == top[..3];
    assert top[..4] == top;
  }

  // ===========================================================================
  // Prediction
  // ===========================================================================

  /**
   * `predict`: refuse unless the artifacts are ready; otherwise align the input,
   * classify it, band the probability, rank the attributions of the scaled row,
   * and derive the explanations and recommendations from that ranking.
   */
  method Predict(store: ArtifactStore, data: map<string, real>, render: real -> string)
    returns (result: Result<PredictionResult, PredictError>)
    ensures result.Failure? <==> !Ready(store)
    ensures result.Failure? ==> result.error == ModelsNotLoaded
    ensures result.Success? ==>
      var pipeline, explainer := store.pipeline.value, store.explainer.value;
      var row := AlignedRow(data, store.modelColumns);
      var ranked := RankedContributions(store.modelColumns, explainer.attributions(pipeline.scale(row)));
      result.value == PredictionResult(
        pipeline.predictLabel(row),
        pipeline.predictProbability(row),
        RiskCategory(pipeline.predictProbability(row)),
        Explanations(ranked, data, render),
        explainer.expectedValue,
        Recommendations(ranked))
    ensures result.Success? ==> |result.value.recommendations| <= TopFactors
    ensures result.Success? ==> forall e :: e in result.value.explanations ==> Abs(e.impact) > Materiality
  {
    if store.pipeline.None? || store.modelColumns == [] || store.explainer.None? {
      return Failure(ModelsNotLoaded);
    }
    var pipeline, modelColumns, explainer := store.pipeline.value, store.modelColumns, store.explainer.value;
    var row := AlignColumns(data, modelColumns);
    var predicted := pipeline.predictLabel(row);
    var probability := pipeline.predictProbability(row);
    var risk := RiskCategory(probability);
    var attributions := explainer.attributions(pipeline.scale(row));
    var contributions := FeatureContributions(modelColumns, attributions);
    var ranked := SortByImpact(contributions);
    var explanations := BuildExplanations(ranked, data, render);
    var recommendations := BuildRecommendations(ranked);
    ExplanationsCorrect(ranked, data, render);
    RecommendationsCorrect(ranked);
    result := Success(PredictionResult(predicted, probability, risk, explanations, explainer.expectedValue, recommendations));
  }
}
